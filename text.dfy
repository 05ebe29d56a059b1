/**
 * The string operations the two Gemini agents use on a model response:
 * Python's `str.strip()`, `in`, `str.split(sep)`, `str.lower()`, and the
 * markdown code-fence stripping built from them.
 */
module Text {
  import opened Wrappers

  /**
   * Whitespace as `str.strip()` removes it (`str.isspace`): the ASCII
   * separators, the information separators U+001C..U+001F, NEL, the
   * no-break space, and the Unicode spaces and line and paragraph separators.
   */
  predicate IsSpace(c: char) {
    c == ' ' || c == '\t' || c == '\n' || c == '\r' || c == '\U{B}' || c == '\U{C}'
    || ('\U{1C}' <= c <= '\U{1F}') || c == '\U{85}' || c == '\U{A0}' || c == '\U{1680}'
    || ('\U{2000}' <= c <= '\U{200A}') || c == '\U{2028}' || c == '\U{2029}' || c == '\U{202F}'
    || c == '\U{205F}' || c == '\U{3000}'
  }

  /** `s.lstrip()`: drops leading whitespace and nothing else. */
  function TrimStart(s: string): (r: string)
    ensures |r| <= |s| && r == s[|s| - |r|..]
    ensures forall i :: 0 <= i < |s| - |r| ==> IsSpace(s[i])
    ensures r == [] || !IsSpace(r[0])
  {
    if |s| > 0 && IsSpace(s[0]) then TrimStart(s[1..]) else s
  }

  /** `s.rstrip()`: drops trailing whitespace and nothing else. */
  function TrimEnd(s: string): (r: string)
    ensures |r| <= |s| && r == s[..|r|]
    ensures forall i :: |r| <= i < |s| ==> IsSpace(s[i])
    ensures r == [] || !IsSpace(r[|r| - 1])
  {
    if |s| > 0 && IsSpace(s[|s| - 1]) then TrimEnd(s[..|s| - 1]) else s
  }

  /** `s.strip()`: a piece of `s` that neither starts nor ends with whitespace (see StripIsPiece). */
  function Strip(s: string): (r: string)
    ensures |r| <= |s|
    ensures r == [] || (!IsSpace(r[0]) && !IsSpace(r[|r| - 1]))
  {
    TrimEnd(TrimStart(s))
  }

  /** Strip keeps the piece `s[a..b]`, with only whitespace before `a` and from `b` on. */
  lemma StripIsPiece(s: string)
    ensures exists a, b :: 0 <= a <= b <= |s| && Strip(s) == s[a..b] &&
                           (forall i :: 0 <= i < a ==> IsSpace(s[i])) && (forall i :: b <= i < |s| ==> IsSpace(s[i]))
  {
    var t := TrimStart(s);
    var r := TrimEnd(t);
    var a := |s| - |t|;
    assert t == s[a..];
    assert r == s[a..a + |r|] && forall i :: a + |r| <= i < |s| ==> IsSpace(s[i]);
  }

  /** Stripping twice strips nothing more. */
  lemma StripIdempotent(s: string)
    ensures Strip(Strip(s)) == Strip(s)
  {
    var r := Strip(s);
    if r != [] {
      assert TrimStart(r) == r;
      assert TrimEnd(r) == r;
    }
  }

  /** `pat` occurs in `s` starting at index `i`. */
  predicate OccursAt(s: string, pat: string, i: nat) {
    i + |pat| <= |s| && s[i..i + |pat|] == pat
  }

  /** The leftmost occurrence of `pat` at or after index `k`. */
  function FindFrom(s: string, pat: string, k: nat): (r: Option<nat>)
    requires k <= |s|
    decreases |s| - k
    ensures r.Some? ==> k <= r.value && OccursAt(s, pat, r.value)
    ensures r.Some? ==> forall j :: k <= j < r.value ==> !OccursAt(s, pat, j)
    ensures r.None? ==> forall j: nat :: k <= j ==> !OccursAt(s, pat, j)
  {
    if OccursAt(s, pat, k) then Some(k)
    else if k == |s| then None
    else FindFrom(s, pat, k + 1)
  }

  /** `s.find(pat)`, with None for -1. */
  function Find(s: string, pat: string): (r: Option<nat>)
    ensures r.Some? ==> OccursAt(s, pat, r.value) && forall j :: 0 <= j < r.value ==> !OccursAt(s, pat, j)
    ensures r.None? ==> forall j: nat :: !OccursAt(s, pat, j)
  {
    FindFrom(s, pat, 0)
  }

  /** Python's `pat in s`. */
  predicate Contains(s: string, pat: string) {
    Find(s, pat).Some?
  }

  /** Any occurrence that no earlier occurrence precedes is the one Find reports. */
  lemma FindIsLeftmost(s: string, pat: string, i: nat)
    requires OccursAt(s, pat, i)
    requires forall j :: 0 <= j < i ==> !OccursAt(s, pat, j)
    ensures Find(s, pat) == Some(i)
  {
  }

  /** An occurrence inside a prefix of `s` is an occurrence in `s` that ends inside the prefix. */
  lemma OccursInPrefix(s: string, n: nat, pat: string, p: nat)
    requires n <= |s|
    ensures OccursAt(s[..n], pat, p) <==> OccursAt(s, pat, p) && p + |pat| <= n
  {
    if p + |pat| <= n {
      assert s[..n][p..p + |pat|] == s[p..p + |pat|];
    }
  }

  /** The text before the first `sep`, or all of `s`: `s.split(sep)[0]`. */
  function UpTo(s: string, sep: string): string {
    match Find(s, sep)
    case None => s
    case Some(i) => s[..i]
  }

  /** Cutting at the first `sep` a second time cuts nothing more. */
  lemma UpToIdempotent(s: string, sep: string)
    requires |sep| > 0
    ensures UpTo(UpTo(s, sep), sep) == UpTo(s, sep)
  {
    match Find(s, sep)
    case None =>
    case Some(i) =>
      forall p: nat ensures !OccursAt(s[..i], sep, p) {
        OccursInPrefix(s, i, sep, p);
      }
  }

  /** `s.split(sep)` for a non-empty separator (Python raises ValueError on an empty one). */
  function Split(s: string, sep: string): (parts: seq<string>)
    requires |sep| > 0
    decreases |s|
    ensures |parts| >= 1 && parts[0] == UpTo(s, sep)
    ensures |parts| >= 2 <==> Contains(s, sep)
  {
    match Find(s, sep)
    case None => [s]
    case Some(i) => [s[..i]] + Split(s[i + |sep|..], sep)
  }

  /** `sep.join(parts)`. */
  function Join(parts: seq<string>, sep: string): string
    requires |parts| >= 1
  {
    if |parts| == 1 then parts[0] else parts[0] + sep + Join(parts[1..], sep)
  }

  /** Splitting loses nothing: joining the pieces back with the separator gives the original text. */
  lemma {:induction false} SplitJoin(s: string, sep: string)
    requires |sep| > 0
    decreases |s|
    ensures Join(Split(s, sep), sep) == s
  {
    match Find(s, sep)
    case None =>
    case Some(i) =>
      var rest := s[i + |sep|..];
      var tail := Split(rest, sep);
      var parts := Split(s, sep);
      SplitJoin(rest, sep);
      assert parts == [s[..i]] + tail;
      assert parts[1..] == tail;
      assert Join(parts, sep) == s[..i] + sep + Join(tail, sep);
      assert s[i..i + |sep|] == sep;
      assert s == s[..i] + s[i..i + |sep|] + rest;
  }

  /** No piece of a split contains the separator. */
  lemma {:induction false} SplitPiecesFree(s: string, sep: string)
    requires |sep| > 0
    decreases |s|
    ensures forall k :: 0 <= k < |Split(s, sep)| ==> !Contains(Split(s, sep)[k], sep)
  {
    match Find(s, sep)
    case None =>
    case Some(i) =>
      var rest := s[i + |sep|..];
      var tail := Split(rest, sep);
      SplitPiecesFree(rest, sep);
      forall p: nat ensures !OccursAt(s[..i], sep, p) {
        OccursInPrefix(s, i, sep, p);
      }
      assert !Contains(s[..i], sep);
      var parts := Split(s, sep);
      assert parts == [s[..i]] + tail;
      forall k | 0 <= k < |parts| ensures !Contains(parts[k], sep) {
        if k > 0 { assert parts[k] == tail[k - 1]; }
      }
  }

  /** The second piece of a split: the text between the first and second `sep`. */
  lemma {:induction false} SplitSecond(s: string, sep: string, i: nat)
    requires |sep| > 0 && Find(s, sep) == Some(i)
    ensures |Split(s, sep)| >= 2 && Split(s, sep)[1] == UpTo(s[i + |sep|..], sep)
  {
    var rest := s[i + |sep|..];
    var tail := Split(rest, sep);
    assert tail[0] == UpTo(rest, sep);
    assert Split(s, sep) == [s[..i]] + tail;
  }

  /** ASCII `lower()`: characters outside 'A'..'Z' (all Korean text among them) are unchanged. */
  function LowerChar(c: char): char {
    if 'A' <= c <= 'Z' then (c as int + 32) as char else c
  }

  function Lower(s: string): (r: string)
    ensures |r| == |s|
    ensures forall i :: 0 <= i < |r| ==> !('A' <= r[i] <= 'Z')
    ensures forall i :: 0 <= i < |s| && !('A' <= s[i] <= 'Z') ==> r[i] == s[i]
    ensures forall i :: 0 <= i < |s| && 'A' <= s[i] <= 'Z' ==> r[i] == (s[i] as int + 32) as char
  {
    seq(|s|, i requires 0 <= i < |s| => LowerChar(s[i]))
  }

  const Fence: string := "```"
  const JsonFence: string := "```json"

  /**
   * The payload of a model response with its markdown code fence removed
   * (gemini_agent.py `_parse_audio_response` and gemini_agent_multimodal.py
   * `_parse_response`, identical code): strip; if "```json" occurs take
   * `split("```json")[1].split("```")[0]`, else if "```" occurs take
   * `split("```")[1].split("```")[0]`, stripping again; otherwise the stripped text.
   */
  function ExtractJsonText(response: string): string {
    var t := Strip(response);
    if Contains(t, JsonFence) then Strip(Split(Split(t, JsonFence)[1], Fence)[0])
    else if Contains(t, Fence) then Strip(Split(Split(t, Fence)[1], Fence)[0])
    else t
  }

  /** Whatever branch is taken, the extracted payload carries no surrounding whitespace. */
  lemma ExtractJsonTextStripped(response: string)
    ensures Strip(ExtractJsonText(response)) == ExtractJsonText(response)
  {
    var t := Strip(response);
    if Contains(t, JsonFence) {
      StripIdempotent(Split(Split(t, JsonFence)[1], Fence)[0]);
    } else if Contains(t, Fence) {
      StripIdempotent(Split(Split(t, Fence)[1], Fence)[0]);
    } else {
      StripIdempotent(response);
    }
  }

  /** Without any fence the payload is the stripped response. */
  lemma ExtractUnfenced(response: string)
    requires !Contains(Strip(response), Fence)
    ensures ExtractJsonText(response) == Strip(response)
  {
    var t := Strip(response);
    if Contains(t, JsonFence) {
      var i := Find(t, JsonFence).value;
      assert t[i..i + 3] == t[i..i + 7][..3];
      assert OccursAt(t, Fence, i);
    }
  }

  /** With a bare fence (and no "```json") the payload is the text between the first two fences, stripped. */
  lemma ExtractBareFence(response: string, i: nat)
    requires !Contains(Strip(response), JsonFence)
    requires Find(Strip(response), Fence) == Some(i)
    ensures ExtractJsonText(response) == Strip(UpTo(Strip(response)[i + 3..], Fence))
  {
    var t := Strip(response);
    SplitSecond(t, Fence, i);
    UpToIdempotent(t[i + 3..], Fence);
  }

  /**
   * With "```json" the payload is the text after the first "```json" up to the
   * next "```", stripped, provided that text holds no run of four backticks.
   * (With such a run, "````json", the code keeps one stray backtick: the first
   * "```" then starts one character before the "```json" the split cuts at.)
   */
  lemma ExtractJsonFence(response: string, i: nat)
    requires Find(Strip(response), JsonFence) == Some(i)
    requires !Contains(Strip(response)[i + 7..], "````")
    ensures ExtractJsonText(response) == Strip(UpTo(Strip(response)[i + 7..], Fence))
  {
    var t := Strip(response);
    var u := t[i + 7..];
    SplitSecond(t, JsonFence, i);
    assert Split(Split(t, JsonFence)[1], Fence)[0] == UpTo(UpTo(u, JsonFence), Fence);
    UpToBeforeJsonFence(u);
  }

  /** Cutting at "```json" and then at "```" is cutting at "```", when no four backticks occur. */
  lemma UpToBeforeJsonFence(u: string)
    requires !Contains(u, "````")
    ensures UpTo(UpTo(u, JsonFence), Fence) == UpTo(u, Fence)
  {
    match Find(u, JsonFence)
    case None =>
    case Some(j) =>
      assert u[j..j + 3] == u[j..j + 7][..3];
      assert OccursAt(u, Fence, j);
      var m := Find(u, Fence).value;
      assert m <= j;
      var a := u[..j];
      if m + 3 <= j {
        OccursInPrefix(u, j, Fence, m);
        forall p | 0 <= p < m ensures !OccursAt(a, Fence, p) {
          OccursInPrefix(u, j, Fence, p);
        }
        FindIsLeftmost(a, Fence, m);
        assert a[..m] == u[..m];
      } else if m == j {
        forall p: nat ensures !OccursAt(a, Fence, p) {
          OccursInPrefix(u, j, Fence, p);
        }
      } else {
        assert u[m + 3] == u[j..j + 3][m + 3 - j];
        assert u[m..m + 4] == "````";
        assert OccursAt(u, "````", m);
        assert false;
      }
  }
}
