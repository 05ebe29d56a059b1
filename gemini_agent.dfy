/**
 * The text-to-graph agent of modules/gemini_agent.py, with the Gemini API,
 * `json.loads` and `eval` abstracted: the model's reply arrives as a string
 * (or None when the API call raised), the JSON decoder is a parameter, and
 * whether a lambda string evaluates to a usable function is a parameter.
 */
module GeminiAgent {
  import opened Wrappers
  import opened Text
  import opened Json
  import opened GraphCommand

  /** A command recognised in a spoken request (`_parse_audio_response`). */
  datatype AudioCommand =
    | AddGraph(name: JsonValue, equationStr: JsonValue, lambdaStr: JsonValue, hue: real, description: JsonValue)
    | DeleteGraph(mode: JsonValue, description: JsonValue)
    | ToggleGraph(index: real, description: JsonValue)

  /** A graph equation built from a typed request. */
  datatype Equation = Equation(name: JsonValue, equationStr: JsonValue, lambdaStr: JsonValue, description: JsonValue)

  /** An entry of `equation_history`: an added graph, or a typed request with its result. */
  datatype HistoryEntry =
    | Spoken(command: AudioCommand)
    | Typed(input: string, result: Equation)

  /** The `action` field of a decoded object, 'unknown' when absent. */
  function Action(data: map<string, JsonValue>): JsonValue {
    Get(data, "action", JString("unknown"))
  }

  /**
   * `_parse_audio_response` without its history side effect: the command the
   * response carries, given the current history length (for the hue).
   * None covers a decode failure, a decoded value that is not an object
   * (`data.get` raises), an unknown action, a lambda string that does not
   * evaluate, and an index that cannot be decremented.
   */
  function DecodeAudioCommand(response: string, decode: string -> Option<JsonValue>,
                              evalOk: JsonValue -> bool, historyLength: nat): (r: Option<AudioCommand>)
    ensures r.Some? ==> decode(ExtractJsonText(response)).Some? && decode(ExtractJsonText(response)).value.JObject?
    ensures r.Some? && r.value.AddGraph? ==> 0.0 <= r.value.hue < 1.0
  {
    match decode(ExtractJsonText(response))
    case Some(JObject(data)) =>
      var action := Action(data);
      if action == JString("add_graph") then
        var lambdaStr := Get(data, "lambda_str", JString(DefaultLambda));
        if evalOk(lambdaStr) then
          Some(AddGraph(Get(data, "name", JString(DefaultName)), Get(data, "equation_str", JString(DefaultEquation)),
                        lambdaStr, Hue(historyLength), Get(data, "description", JString(""))))
        else None
      else if action == JString("delete_graph") then
        Some(DeleteGraph(Get(data, "mode", JString("last")), Get(data, "description", JString(""))))
      else if action == JString("toggle_graph") then
        match MinusOne(Get(data, "index", JNumber(1.0)))
        case Some(k) => Some(ToggleGraph(k, Get(data, "description", JString(""))))
        case None => None
      else None
    case _ => None
  }

  /**
   * When a command is recognised, its kind is the decoded action, and the
   * decoded object decides it: which actions are accepted and when.
   */
  lemma AudioCommandAccepted(response: string, decode: string -> Option<JsonValue>,
                             evalOk: JsonValue -> bool, n: nat)
    ensures var r := DecodeAudioCommand(response, decode, evalOk, n);
            var d := decode(ExtractJsonText(response));
            r.Some? <==>
              d.Some? && d.value.JObject? &&
              ((Action(d.value.fields) == JString("add_graph") && evalOk(Get(d.value.fields, "lambda_str", JString(DefaultLambda)))) ||
               Action(d.value.fields) == JString("delete_graph") ||
               (Action(d.value.fields) == JString("toggle_graph") && MinusOne(Get(d.value.fields, "index", JNumber(1.0))).Some?))
    ensures var r := DecodeAudioCommand(response, decode, evalOk, n);
            var d := decode(ExtractJsonText(response));
            r.Some? ==>
              (r.value.AddGraph? <==> Action(d.value.fields) == JString("add_graph")) &&
              (r.value.DeleteGraph? <==> Action(d.value.fields) == JString("delete_graph")) &&
              (r.value.ToggleGraph? <==> Action(d.value.fields) == JString("toggle_graph"))
  {
    ActionNamesDistinct();
    match decode(ExtractJsonText(response))
    case Some(JObject(data)) =>
      var action := Action(data);
      if action == JString("add_graph") {
      } else if action == JString("delete_graph") {
      } else if action == JString("toggle_graph") {
      }
    case _ =>
  }

  /** Each field an `add_graph` object lacks gets its default; a field it holds is passed through. */
  lemma AddGraphDefaults(response: string, decode: string -> Option<JsonValue>,
                         evalOk: JsonValue -> bool, n: nat, data: map<string, JsonValue>)
    requires decode(ExtractJsonText(response)) == Some(JObject(data))
    requires Action(data) == JString("add_graph")
    requires evalOk(Get(data, "lambda_str", JString(DefaultLambda)))
    ensures DecodeAudioCommand(response, decode, evalOk, n).Some?
    ensures var c := DecodeAudioCommand(response, decode, evalOk, n).value;
            c.AddGraph? && c.hue == Hue(n) &&
            ("name" !in data ==> c.name == JString("새 그래프")) && ("name" in data ==> c.name == data["name"]) &&
            ("equation_str" !in data ==> c.equationStr == JString("f(x)")) &&
            ("equation_str" in data ==> c.equationStr == data["equation_str"]) &&
            ("lambda_str" !in data ==> c.lambdaStr == JString("lambda x: x")) &&
            ("lambda_str" in data ==> c.lambdaStr == data["lambda_str"])
  {
  }

  /** `delete_graph` without a mode deletes the last graph. */
  lemma DeleteDefaultsToLast(response: string, decode: string -> Option<JsonValue>,
                             evalOk: JsonValue -> bool, n: nat, data: map<string, JsonValue>)
    requires decode(ExtractJsonText(response)) == Some(JObject(data))
    requires Action(data) == JString("delete_graph") && "mode" !in data
    ensures DecodeAudioCommand(response, decode, evalOk, n) == Some(DeleteGraph(JString("last"), Get(data, "description", JString(""))))
  {
  }

  /** A 1-based `toggle_graph` index becomes 0-based; without an index the first graph (0) is meant. */
  lemma ToggleIndexShift(response: string, decode: string -> Option<JsonValue>,
                         evalOk: JsonValue -> bool, n: nat, data: map<string, JsonValue>)
    requires decode(ExtractJsonText(response)) == Some(JObject(data))
    requires Action(data) == JString("toggle_graph")
    ensures "index" !in data ==> DecodeAudioCommand(response, decode, evalOk, n) == Some(ToggleGraph(0.0, Get(data, "description", JString(""))))
    ensures "index" in data && data["index"].JNumber? ==>
              DecodeAudioCommand(response, decode, evalOk, n).Some? &&
              DecodeAudioCommand(response, decode, evalOk, n).value.index + 1.0 == data["index"].n
  {
    assert Action(data) != JString("add_graph") && Action(data) != JString("delete_graph");
    var d := Get(data, "description", JString(""));
    var r := DecodeAudioCommand(response, decode, evalOk, n);
    match MinusOne(Get(data, "index", JNumber(1.0)))
    case Some(k) => assert r == Some(ToggleGraph(k, d));
    case None =>
  }

  /**
   * `re.search(r'\{[^}]+\}', text)` can start at `i`: `text[i]` is '{', and the
   * first '}' after it exists with at least one character in between.
   * `j` is that '}'.
   */
  predicate BraceMatchAt(text: string, i: nat, j: nat) {
    i + 2 <= j < |text| && text[i] == '{' && text[j] == '}' &&
    forall m :: i < m < j ==> text[m] != '}'
  }

  /** The first '}' at or after index `k`. */
  function FirstClose(text: string, k: nat): (r: Option<nat>)
    requires k <= |text|
    decreases |text| - k
    ensures r.Some? ==> k <= r.value < |text| && text[r.value] == '}' && forall m :: k <= m < r.value ==> text[m] != '}'
    ensures r.None? ==> forall m :: k <= m < |text| ==> text[m] != '}'
  {
    if k == |text| then None
    else if text[k] == '}' then Some(k)
    else FirstClose(text, k + 1)
  }

  /** The leftmost match of `\{[^}]+\}` starting at or after index `k`, as (start, index of '}'). */
  function BraceSpanFrom(text: string, k: nat): (r: Option<(nat, nat)>)
    requires k <= |text|
    decreases |text| - k
    ensures r.Some? ==> k <= r.value.0 && BraceMatchAt(text, r.value.0, r.value.1)
    ensures r.Some? ==> forall i: nat, j: nat :: k <= i < r.value.0 ==> !BraceMatchAt(text, i, j)
    ensures r.None? ==> forall i: nat, j: nat :: k <= i ==> !BraceMatchAt(text, i, j)
  {
    if k == |text| then None
    else if text[k] == '{' && k + 1 < |text| && text[k + 1] != '}' && FirstClose(text, k + 1).Some? then
      Some((k, FirstClose(text, k + 1).value))
    else
      NoMatchAt(text, k);
      BraceSpanFrom(text, k + 1)
  }

  /** When the test in BraceSpanFrom fails at `k`, no match starts at `k`. */
  lemma NoMatchAt(text: string, k: nat)
    requires k < |text|
    requires !(text[k] == '{' && k + 1 < |text| && text[k + 1] != '}' && FirstClose(text, k + 1).Some?)
    ensures forall j: nat :: !BraceMatchAt(text, k, j)
  {
    if text[k] == '{' && k + 1 < |text| && text[k + 1] != '}' {
      assert FirstClose(text, k + 1).None?;
    }
  }

  /**
   * The JSON candidate `_parse_gemini_response` decodes: the leftmost match,
   * with the bounds of its text.
   */
  function FindBraceObject(text: string): (r: Option<(nat, nat)>)
    ensures r.Some? ==> BraceMatchAt(text, r.value.0, r.value.1)
    ensures r.Some? ==> forall i: nat, j: nat :: i < r.value.0 ==> !BraceMatchAt(text, i, j)
    ensures r.None? <==> forall i: nat, j: nat :: !BraceMatchAt(text, i, j)
  {
    BraceSpanFrom(text, 0)
  }

  /**
   * The leftmost `{...}` candidate decodes to an object holding name,
   * equation_str and lambda_str, and its lambda evaluates (`lambdaOk`).
   */
  predicate CandidateAccepted(response: string, decode: string -> Option<JsonValue>, lambdaOk: JsonValue -> bool) {
    FindBraceObject(response).Some? &&
    var (i, j) := FindBraceObject(response).value;
    var d := decode(response[i..j + 1]);
    d.Some? && d.value.JObject? &&
    "name" in d.value.fields && "equation_str" in d.value.fields && "lambda_str" in d.value.fields &&
    lambdaOk(d.value.fields["lambda_str"])
  }

  /**
   * `_parse_gemini_response`: decode the leftmost `{...}` candidate, demand
   * name, equation_str and lambda_str, and accept the lambda only if it
   * evaluates to a function returning a number at 0 (`lambdaOk`).
   */
  function ParseGeminiResponse(response: string, decode: string -> Option<JsonValue>,
                               lambdaOk: JsonValue -> bool): (r: Option<Equation>)
    ensures r.Some? <==> CandidateAccepted(response, decode, lambdaOk)
    ensures r.Some? ==>
              var (i, j) := FindBraceObject(response).value;
              var fields := decode(response[i..j + 1]).value.fields;
              r.value == Equation(fields["name"], fields["equation_str"], fields["lambda_str"],
                                  Get(fields, "description", JString("")))
  {
    match FindBraceObject(response)
    case None => None
    case Some((i, j)) =>
      match decode(response[i..j + 1])
      case Some(JObject(data)) =>
        if "name" in data && "equation_str" in data && "lambda_str" in data && lambdaOk(data["lambda_str"]) then
          Some(Equation(data["name"], data["equation_str"], data["lambda_str"], Get(data, "description", JString(""))))
        else None
      case _ => None
  }

  /** A reply missing one of the three required fields is rejected. */
  lemma MissingFieldRejected(response: string, decode: string -> Option<JsonValue>,
                             lambdaOk: JsonValue -> bool, i: nat, j: nat, data: map<string, JsonValue>)
    requires FindBraceObject(response) == Some((i, j))
    requires decode(response[i..j + 1]) == Some(JObject(data))
    requires "name" !in data || "equation_str" !in data || "lambda_str" !in data
    ensures ParseGeminiResponse(response, decode, lambdaOk) == None
  {
  }

  /** One keyword group of `_fallback_parser`: its alternatives and the equation it yields. */
  datatype KeywordGroup = KeywordGroup(keywords: seq<string>, name: string, equationStr: string, lambdaStr: string)

  /** Some keyword of the list occurs in the text. */
  predicate AnyContained(text: string, keywords: seq<string>) {
    |keywords| > 0 && (Contains(text, keywords[0]) || AnyContained(text, keywords[1..]))
  }

  /** AnyContained is the alternation of its keywords. */
  lemma {:induction false} AnyContainedIsAlternation(text: string, keywords: seq<string>)
    ensures AnyContained(text, keywords) <==> exists k :: 0 <= k < |keywords| && Contains(text, keywords[k])
  {
    if |keywords| > 0 {
      AnyContainedIsAlternation(text, keywords[1..]);
      if exists k :: 0 <= k < |keywords| && Contains(text, keywords[k]) {
        var k :| 0 <= k < |keywords| && Contains(text, keywords[k]);
        if k > 0 {
          assert keywords[1..][k - 1] == keywords[k];
        }
      }
    }
  }

  /** Some alternative of the group occurs in the text (`re.search` of `a|b|c`). */
  predicate GroupMatches(g: KeywordGroup, text: string) {
    AnyContained(text, g.keywords)
  }

  const Parabola := KeywordGroup(["제곱", "이차", "포물선", "parabola"], "포물선", "y = x^2 / 100", "lambda x: (x**2) / 100")
  const Sine := KeywordGroup(["사인", "sin"], "사인파", "y = sin(x/50) * 100", "lambda x: np.sin(x/50) * 100")
  const Cosine := KeywordGroup(["코사인", "cos"], "코사인파", "y = cos(x/30) * 80", "lambda x: np.cos(x/30) * 80")
  const Line := KeywordGroup(["직선", "일차", "선형"], "직선", "y = 2*x", "lambda x: 2 * x")
  const Absolute := KeywordGroup(["절댓값", "절대값", "absolute"], "V자 그래프", "y = |x| / 2", "lambda x: abs(x) / 2")
  const Cubic := KeywordGroup(["세제곱", "삼차", "cubic"], "삼차함수", "y = x^3 / 10000", "lambda x: (x**3) / 10000")

  /** The groups in the order the source declares (and so tries) them. */
  const DeclaredGroups: seq<KeywordGroup> := [Parabola, Sine, Cosine, Line, Absolute, Cubic]

  /**
   * The same groups with each group placed before any group one of whose
   * keywords is contained in one of its own ("코사인" holds "사인",
   * "세제곱" holds "제곱"), so that every keyword selects its own group.
   */
  const OrderedGroups: seq<KeywordGroup> := [Cubic, Parabola, Cosine, Sine, Line, Absolute]

  /** Index of the first group at or after `k` that matches the text. */
  function FirstMatchingGroupFrom(groups: seq<KeywordGroup>, text: string, k: nat): (r: Option<nat>)
    requires k <= |groups|
    decreases |groups| - k
    ensures r.Some? ==> k <= r.value < |groups| && GroupMatches(groups[r.value], text)
    ensures r.Some? ==> forall j :: k <= j < r.value ==> !GroupMatches(groups[j], text)
    ensures r.None? ==> forall j :: k <= j < |groups| ==> !GroupMatches(groups[j], text)
  {
    if k == |groups| then None
    else if GroupMatches(groups[k], text) then Some(k)
    else FirstMatchingGroupFrom(groups, text, k + 1)
  }

  /** The equation a group yields for a request, with the description naming the request. */
  function GroupEquation(g: KeywordGroup, text: string): Equation {
    Equation(JString(g.name), JString(g.equationStr), JString(g.lambdaStr),
             JString("\"" + text + "\"로부터 생성"))
  }

  /** The first-match loop of `_fallback_parser`, over a given group order. */
  function FallbackWith(groups: seq<KeywordGroup>, text: string): (r: Option<Equation>)
    ensures r.Some? <==> exists k :: 0 <= k < |groups| && GroupMatches(groups[k], Lower(text))
    ensures r.Some? ==> exists k :: 0 <= k < |groups| && GroupMatches(groups[k], Lower(text)) &&
                          (forall j :: 0 <= j < k ==> !GroupMatches(groups[j], Lower(text))) &&
                          r.value == GroupEquation(groups[k], text)
  {
    match FirstMatchingGroupFrom(groups, Lower(text), 0)
    case None => None
    case Some(k) => Some(GroupEquation(groups[k], text))
  }

  /** `_fallback_parser` as written, with the groups in declaration order. */
  function FallbackParser(text: string): (r: Option<Equation>)
    ensures r.Some? <==> exists k :: 0 <= k < |DeclaredGroups| && GroupMatches(DeclaredGroups[k], Lower(text))
  {
    FallbackWith(DeclaredGroups, text)
  }

  /** `_fallback_parser` with the groups ordered so that every keyword reaches its own group. */
  function FallbackParserFixed(text: string): (r: Option<Equation>)
    ensures r.Some? <==> exists k :: 0 <= k < |OrderedGroups| && GroupMatches(OrderedGroups[k], Lower(text))
  {
    FallbackWith(OrderedGroups, text)
  }

  /** Both orders hold the same six groups. */
  lemma SameGroups()
    ensures forall g :: g in DeclaredGroups <==> g in OrderedGroups
  {
  }

  /** Reordering loses no request: both orders accept exactly the same texts. */
  lemma FixedAcceptsSameTexts(text: string)
    ensures FallbackParser(text).Some? <==> FallbackParserFixed(text).Some?
  {
    SameGroups();
    SameGroupsSameAcceptance(DeclaredGroups, OrderedGroups, text);
  }

  lemma SameGroupsSameAcceptance(a: seq<KeywordGroup>, b: seq<KeywordGroup>, text: string)
    requires forall g :: g in a <==> g in b
    ensures FallbackWith(a, text).Some? <==> FallbackWith(b, text).Some?
  {
    var t := Lower(text);
    if FallbackWith(a, text).Some? {
      var k :| 0 <= k < |a| && GroupMatches(a[k], t);
      assert a[k] in b;
      var k' :| 0 <= k' < |b| && b[k'] == a[k];
    }
    if FallbackWith(b, text).Some? {
      var k :| 0 <= k < |b| && GroupMatches(b[k], t);
      assert b[k] in a;
      var k' :| 0 <= k' < |a| && a[k'] == b[k];
    }
  }

  /** The pairs of adjacent characters of `s` from position `i` on, in order. */
  function PairsFrom(s: string, i: nat): seq<(char, char)>
    decreases |s| - i
  {
    if i + 1 >= |s| then [] else [(s[i], s[i + 1])] + PairsFrom(s, i + 1)
  }

  /** Every adjacent pair at or after `i` is listed. */
  lemma {:induction false} PairsFromHas(s: string, i: nat, j: nat)
    requires i <= j < |s| - 1
    ensures (s[j], s[j + 1]) in PairsFrom(s, i)
    decreases j - i
  {
    if i < j {
      PairsFromHas(s, i + 1, j);
    }
  }

  /** No two adjacent characters of `s` are `a` then `b`. */
  predicate NoPair(s: string, a: char, b: char) {
    (a, b) !in PairsFrom(s, 0)
  }

  /** A keyword whose first two characters never appear together in `s` does not occur in it. */
  lemma NoPairNotContained(s: string, p: string)
    requires |p| >= 2 && NoPair(s, p[0], p[1])
    ensures !Contains(s, p)
  {
    forall i: nat | i + |p| <= |s| ensures !OccursAt(s, p, i) {
      PairsFromHas(s, 0, i);
      assert s[i..i + |p|][0] == s[i] && s[i..i + |p|][1] == s[i + 1];
    }
  }

  /** No keyword of the list occurs in `s`, by the adjacent-pair test. */
  predicate NoneOccur(s: string, keywords: seq<string>) {
    forall k :: 0 <= k < |keywords| ==> |keywords[k]| >= 2 && NoPair(s, keywords[k][0], keywords[k][1])
  }

  lemma {:induction false} NoneOccurNotContained(s: string, keywords: seq<string>)
    requires NoneOccur(s, keywords)
    ensures !AnyContained(s, keywords)
  {
    AnyContainedIsAlternation(s, keywords);
    forall k | 0 <= k < |keywords| ensures !Contains(s, keywords[k]) {
      NoPairNotContained(s, keywords[k]);
    }
  }

  /** The text has no upper-case ASCII letter, so `lower()` leaves it alone. */
  predicate IsLowerCase(s: string) {
    forall i :: 0 <= i < |s| ==> !('A' <= s[i] <= 'Z')
  }

  /**
   * The group order is clear: every keyword is lower case, and no keyword of
   * an earlier group occurs in it.
   */
  predicate OrderClear(groups: seq<KeywordGroup>) {
    forall k :: 0 <= k < |groups| ==> GroupClear(groups, k)
  }

  /** Every keyword of group `k` is clear of the groups before it. */
  predicate GroupClear(groups: seq<KeywordGroup>, k: nat)
    requires k < |groups|
  {
    forall w :: 0 <= w < |groups[k].keywords| ==> KeywordClear(groups, k, groups[k].keywords[w])
  }

  /** `word` is lower case and holds no keyword of the first `k` groups. */
  predicate KeywordClear(groups: seq<KeywordGroup>, k: nat, word: string)
    requires k <= |groups|
  {
    IsLowerCase(word) && forall j :: 0 <= j < k ==> NoneOccur(word, groups[j].keywords)
  }

  lemma OrderedGroupsClear()
    ensures OrderClear(OrderedGroups)
  {
    CubicClear();
    ParabolaClear();
    CosineClear();
    SineClear();
    LineClear();
    AbsoluteClear();
  }

  lemma CubicClear() ensures GroupClear(OrderedGroups, 0) {}

  lemma ParabolaClear() ensures GroupClear(OrderedGroups, 1) {
    ParabolaKeywordClear0();
    ParabolaKeywordClear1();
    ParabolaKeywordClear2();
    ParabolaKeywordClear3();
  }

  lemma ParabolaKeywordClear0() ensures KeywordClear(OrderedGroups, 1, "제곱") {}
  lemma ParabolaKeywordClear1() ensures KeywordClear(OrderedGroups, 1, "이차") {}
  lemma ParabolaKeywordClear2() ensures KeywordClear(OrderedGroups, 1, "포물선") {}
  lemma ParabolaKeywordClear3() ensures KeywordClear(OrderedGroups, 1, "parabola") {}

  lemma CosineClear() ensures GroupClear(OrderedGroups, 2) {
    CosineKeywordClear0();
    CosineKeywordClear1();
  }

  lemma CosineKeywordClear0() ensures KeywordClear(OrderedGroups, 2, "코사인") {}
  lemma CosineKeywordClear1() ensures KeywordClear(OrderedGroups, 2, "cos") {}

  lemma SineClear() ensures GroupClear(OrderedGroups, 3) {
    SineKeywordClear0();
    SineKeywordClear1();
  }

  lemma SineKeywordClear0() ensures KeywordClear(OrderedGroups, 3, "사인") {}
  lemma SineKeywordClear1() ensures KeywordClear(OrderedGroups, 3, "sin") {}

  lemma LineClear() ensures GroupClear(OrderedGroups, 4) {
    LineKeywordClear0();
    LineKeywordClear1();
    LineKeywordClear2();
  }

  lemma LineKeywordClear0() ensures KeywordClear(OrderedGroups, 4, "직선") {}
  lemma LineKeywordClear1() ensures KeywordClear(OrderedGroups, 4, "일차") {}
  lemma LineKeywordClear2() ensures KeywordClear(OrderedGroups, 4, "선형") {}

  lemma AbsoluteClear() ensures GroupClear(OrderedGroups, 5) {
    AbsoluteKeywordClear0();
    AbsoluteKeywordClear1();
    AbsoluteKeywordClear2();
  }

  lemma AbsoluteKeywordClear0() ensures KeywordClear(OrderedGroups, 5, "절댓값") {}
  lemma AbsoluteKeywordClear1() ensures KeywordClear(OrderedGroups, 5, "절대값") {}
  lemma AbsoluteKeywordClear2() ensures KeywordClear(OrderedGroups, 5, "absolute") {}

  /**
   * In a clear order, a request that is exactly one of the keywords of group
   * `k` selects group `k`.
   */
  lemma OwnGroupSelected(groups: seq<KeywordGroup>, k: nat, w: nat)
    requires OrderClear(groups)
    requires k < |groups| && w < |groups[k].keywords|
    ensures FallbackWith(groups, groups[k].keywords[w]) == Some(GroupEquation(groups[k], groups[k].keywords[w]))
  {
    var text := groups[k].keywords[w];
    assert GroupClear(groups, k);
    assert IsLowerCase(text);
    assert Lower(text) == text;
    assert OccursAt(text, text, 0);
    AnyContainedIsAlternation(text, groups[k].keywords);
    assert GroupMatches(groups[k], text);
    forall j | 0 <= j < k ensures !GroupMatches(groups[j], text) {
      NoneOccurNotContained(text, groups[j].keywords);
    }
  }

  /** The corrected order is clear: every keyword reaches its own group. */
  lemma OrderedKeywordSelectsOwnGroup(k: nat, w: nat)
    requires k < |OrderedGroups| && w < |OrderedGroups[k].keywords|
    ensures FallbackParserFixed(OrderedGroups[k].keywords[w])
         == Some(GroupEquation(OrderedGroups[k], OrderedGroups[k].keywords[w]))
  {
    OrderedGroupsClear();
    OwnGroupSelected(OrderedGroups, k, w);
  }

  /** As written, a request for a cosine ("코사인") gets the sine curve, since "사인" is tried first. */
  lemma CosineKeywordShadowed()
    ensures FallbackParser("코사인") == Some(GroupEquation(Sine, "코사인"))
    ensures Sine.name == "사인파" && Cosine.name == "코사인파"
  {
    var t := "코사인";
    assert Lower(t) == t;
    assert NoneOccur(t, Parabola.keywords);
    NoneOccurNotContained(t, Parabola.keywords);
    assert !GroupMatches(DeclaredGroups[0], t);
    assert OccursAt(t, Sine.keywords[0], 1);
    assert GroupMatches(DeclaredGroups[1], t);
    assert FirstMatchingGroupFrom(DeclaredGroups, t, 0) == Some(1);
  }

  /** As written, a request for a cubic ("세제곱") gets the parabola, since "제곱" is tried first. */
  lemma CubeKeywordShadowed()
    ensures FallbackParser("세제곱") == Some(GroupEquation(Parabola, "세제곱"))
    ensures Parabola.name == "포물선" && Cubic.name == "삼차함수"
  {
    var t := "세제곱";
    assert Lower(t) == t;
    assert OccursAt(t, Parabola.keywords[0], 1);
  }

  /** The agent's mutable state: `equation_history`, shared by spoken and typed requests. */
  class GeminiMathAgent {
    /** Whether a Gemini model is configured (`self.model` is not None). */
    const hasModel: bool
    var equationHistory: seq<HistoryEntry>

    constructor (hasModel: bool)
      ensures this.hasModel == hasModel && equationHistory == []
    {
      this.hasModel := hasModel;
      equationHistory := [];
    }

    /**
     * `_parse_audio_response`: decodes the command; exactly an `add_graph`
     * command is appended to the history, after its hue was taken from the
     * history length.
     */
    method ParseAudioResponse(response: string, decode: string -> Option<JsonValue>, evalOk: JsonValue -> bool)
      returns (r: Option<AudioCommand>)
      modifies this
      ensures r == DecodeAudioCommand(response, decode, evalOk, |old(equationHistory)|)
      ensures r.Some? && r.value.AddGraph? ==> equationHistory == old(equationHistory) + [Spoken(r.value)]
      ensures !(r.Some? && r.value.AddGraph?) ==> equationHistory == old(equationHistory)
    {
      r := DecodeAudioCommand(response, decode, evalOk, |equationHistory|);
      if r.Some? && r.value.AddGraph? {
        equationHistory := equationHistory + [Spoken(r.value)];
      }
    }

    /**
     * `text_to_equation`: `reply` is the model's answer text, None when the
     * API call raised. A reply that parses is recorded and returned; otherwise,
     * and always without a model, the keyword fallback answers and nothing is
     * recorded.
     */
    method TextToEquation(text: string, reply: Option<string>, decode: string -> Option<JsonValue>,
                          lambdaOk: JsonValue -> bool) returns (r: Option<Equation>)
      modifies this
      ensures var parsed := if hasModel && reply.Some? then ParseGeminiResponse(reply.value, decode, lambdaOk) else None;
              (parsed.Some? ==> r == parsed && equationHistory == old(equationHistory) + [Typed(text, parsed.value)]) &&
              (parsed.None? ==> r == FallbackParser(text) && equationHistory == old(equationHistory))
    {
      if !hasModel || reply.None? {
        return FallbackParser(text);
      }
      var parsed := ParseGeminiResponse(reply.value, decode, lambdaOk);
      if parsed.Some? {
        equationHistory := equationHistory + [Typed(text, parsed.value)];
        r := parsed;
      } else {
        r := FallbackParser(text);
      }
    }

    /** `clear_history`. */
    method ClearHistory()
      modifies this
      ensures equationHistory == []
    {
      equationHistory := [];
    }
  }
}
