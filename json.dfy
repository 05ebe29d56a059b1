/**
 * The value `json.loads` produces. The decoder itself is not modelled: the
 * agents receive it as a parameter `string -> Option<JsonValue>`, None
 * standing for `json.JSONDecodeError`.
 */
module Json {
  import opened Wrappers

  datatype JsonValue =
    | JNull
    | JBool(b: bool)
    | JNumber(n: real)
    | JString(s: string)
    | JArray(items: seq<JsonValue>)
    | JObject(fields: map<string, JsonValue>)

  /** `data.get(key, default)` on a decoded object. */
  function Get(fields: map<string, JsonValue>, key: string, default: JsonValue): (v: JsonValue)
    ensures key in fields ==> v == fields[key]
    ensures key !in fields ==> v == default
  {
    if key in fields then fields[key] else default
  }

  /**
   * Python's `v - 1` on a decoded value: numbers subtract, booleans count as
   * 0 and 1 (`True - 1 == 0`), anything else raises TypeError (None here).
   */
  function MinusOne(v: JsonValue): (r: Option<real>)
    ensures r.Some? <==> v.JNumber? || v.JBool?
    ensures v.JNumber? ==> r == Some(v.n - 1.0)
    ensures v.JBool? ==> r == Some(if v.b then 0.0 else -1.0)
  {
    match v
    case JNumber(n) => Some(n - 1.0)
    case JBool(b) => Some((if b then 1.0 else 0.0) - 1.0)
    case _ => None
  }
}

/** What both Gemini agents share about a recognised graph command. */
module GraphCommand {

  /** Defaults `data.get` falls back to for an `add_graph` command. */
  const DefaultName: string := "새 그래프"
  const DefaultEquation: string := "f(x)"
  const DefaultLambda: string := "lambda x: x"

  /** The three action names a voice command can carry are different strings. */
  lemma ActionNamesDistinct()
    ensures "add_graph" != "delete_graph" && "add_graph" != "toggle_graph" && "delete_graph" != "toggle_graph"
  {
  }

  /**
   * `(len(equation_history) * 0.17) % 1.0`: the hue of the colour given to a new
   * graph, from the number of entries already in the history (the HSV to RGB
   * conversion is not modelled).
   */
  function Hue(historyLength: nat): (h: real)
    ensures 0.0 <= h < 1.0
  {
    var x := historyLength as real * 0.17;
    x - x.Floor as real
  }

  /** Hues repeat every 100 entries, since 100 * 0.17 is a whole number. */
  lemma HuePeriodic(n: nat)
    ensures Hue(n + 100) == Hue(n)
  {
    var x := n as real * 0.17;
    assert (n + 100) as real * 0.17 == x + 17.0;
    assert (x + 17.0).Floor == x.Floor + 17;
  }
}
