/** The text-recovery machinery the three output parsers share: the two regular-expression
    tiers that locate a JSON object in free text, the brace-counting scan that cuts an object
    out when decoding the regex span fails, and the labelled-line expressions of the degraded
    fallbacks. Each search is stated against a declarative description of what the regular
    expression can match, and proved to return the match Python's `re.search` returns: the
    leftmost start, and at that start the alternative the engine tries first. */
module Extraction {
  import opened Wrappers
  import opened Text
  import opened Json

  predicate IsBrace(c: char) { c == '{' || c == '}' }

  /** The characters of the class `[:\s]`. */
  predicate IsSep(c: char) { c == ':' || IsSpace(c) }

  /** `"key"`, the key with its JSON quotes. */
  function Quoted(key: string): string {
    "\"" + key + "\""
  }

  /** The first index at or after `start` holding `c`, or -1. */
  function FindChar(s: string, c: char, start: nat): (r: int)
    ensures r == -1 || (start <= r < |s| && s[r] == c)
    ensures r == -1 ==> forall k :: start <= k < |s| ==> s[k] != c
    ensures r >= 0 ==> forall k :: start <= k < r ==> s[k] != c
    decreases |s| - start
  {
    if start >= |s| then -1 else if s[start] == c then start else FindChar(s, c, start + 1)
  }

  /** The first index at or after `start` holding a brace, or `|s|`. */
  function NextBrace(s: string, start: nat): (r: nat)
    requires start <= |s|
    ensures start <= r <= |s|
    ensures r < |s| ==> IsBrace(s[r])
    ensures forall k :: start <= k < r ==> !IsBrace(s[k])
    decreases |s| - start
  {
    if start == |s| || IsBrace(s[start]) then start else NextBrace(s, start + 1)
  }

  /** The end of the run of `[:\s]` characters that starts at `start`. */
  function SepEnd(s: string, start: nat): (r: nat)
    requires start <= |s|
    ensures start <= r <= |s|
    ensures r < |s| ==> !IsSep(s[r])
    ensures forall k :: start <= k < r ==> IsSep(s[k])
    decreases |s| - start
  {
    if start == |s| || !IsSep(s[start]) then start else SepEnd(s, start + 1)
  }

  /** The end of the run of ASCII letters that starts at `start`. */
  function LetterEnd(s: string, start: nat): (r: nat)
    requires start <= |s|
    ensures start <= r <= |s|
    ensures r < |s| ==> !IsAsciiLetter(s[r])
    ensures forall k :: start <= k < r ==> IsAsciiLetter(s[k])
    decreases |s| - start
  {
    if start == |s| || !IsAsciiLetter(s[start]) then start else LetterEnd(s, start + 1)
  }

  /** The first index at or after `start` holding a newline, or `|s|`. */
  function LineEnd(s: string, start: nat): (r: nat)
    requires start <= |s|
    ensures start <= r <= |s|
    ensures r < |s| ==> s[r] == '\n'
    ensures forall k :: start <= k < r ==> s[k] != '\n'
    decreases |s| - start
  {
    if start == |s| || s[start] == '\n' then start else LineEnd(s, start + 1)
  }

  // ---------------------------------------------------------------------------------------
  // Tier 1: \{[^{}]*"K"[^{}]*\}

  /** The pattern `\{[^{}]*N[^{}]*\}` (N a brace-free needle) matches `s[p..e]`: a `{`, a
      closing `}` with no brace between them, and the needle inside. */
  predicate FlatMatch(s: string, needle: string, p: int, e: int) {
    0 <= p < e <= |s| && p + 1 <= e - 1
    && s[p] == '{' && s[e - 1] == '}'
    && (forall k :: p < k < e - 1 ==> !IsBrace(s[k]))
    && Contains(s[p + 1..e - 1], needle)
  }

  /** At a given start the flat pattern can end in one place only. */
  lemma FlatMatchEndUnique(s: string, needle: string, p: int, e1: int, e2: int)
    requires FlatMatch(s, needle, p, e1) && FlatMatch(s, needle, p, e2)
    ensures e1 == e2
  {
    if e1 < e2 {
      assert IsBrace(s[e1 - 1]);
    } else if e2 < e1 {
      assert IsBrace(s[e2 - 1]);
    }
  }

  lemma FlatMatchEndIsFixed(s: string, needle: string, p: int, e: int)
    requires FlatMatch(s, needle, p, e)
    ensures forall e' :: FlatMatch(s, needle, p, e') ==> e' == e
  {
    forall e' | FlatMatch(s, needle, p, e') ensures e' == e {
      FlatMatchEndUnique(s, needle, p, e', e);
    }
  }

  /** The leftmost flat match starting at or after `from`. */
  function FlatSpanFrom(s: string, needle: string, from: nat): (r: Option<(nat, nat)>)
    requires from <= |s|
    ensures r.Some? ==> from <= r.value.0 && FlatMatch(s, needle, r.value.0, r.value.1)
    ensures r.Some? ==> forall p, e :: from <= p < r.value.0 ==> !FlatMatch(s, needle, p, e)
    ensures r.None? ==> forall p, e :: from <= p ==> !FlatMatch(s, needle, p, e)
    decreases |s| - from
  {
    if from == |s| then None
    else
      var q := NextBrace(s, from + 1);
      if s[from] == '{' && q < |s| && s[q] == '}' && Contains(s[from + 1..q], needle) then
        Some((from, q + 1))
      else
        assert forall e :: !FlatMatch(s, needle, from, e) by {
          forall e | FlatMatch(s, needle, from, e) ensures false {
          }
        }
        assert forall p, e :: from <= p && FlatMatch(s, needle, p, e) ==> from + 1 <= p;
        FlatSpanFrom(s, needle, from + 1)
  }

  /** `re.search(r'\{[^{}]*"K"[^{}]*\}', s)`: the span of the leftmost match, if any. */
  function FlatSpan(s: string, key: string): (r: Option<(nat, nat)>)
    ensures r.Some? ==> FlatMatch(s, Quoted(key), r.value.0, r.value.1)
    ensures r.Some? ==> forall p, e :: FlatMatch(s, Quoted(key), p, e) ==> r.value.0 <= p
    ensures r.Some? ==> forall e :: FlatMatch(s, Quoted(key), r.value.0, e) ==> e == r.value.1
    ensures r.None? ==> forall p, e :: !FlatMatch(s, Quoted(key), p, e)
  {
    var r := FlatSpanFrom(s, Quoted(key), 0);
    if r.Some? then FlatMatchEndIsFixed(s, Quoted(key), r.value.0, r.value.1); r else r
  }

  // ---------------------------------------------------------------------------------------
  // Tier 2: \{[\s\S]*?"S"[\s\S]*?\][\s\S]*?\}

  /** The pattern `\{.*?N.*?\].*?\}` (any characters) can match `s[p..e]`: a `{`, later the
      needle, after it a `]`, and the text ends with a `}` after that. */
  ghost predicate LazyMatch(s: string, needle: string, p: int, e: int) {
    0 <= p < e <= |s| && s[p] == '{' && s[e - 1] == '}'
    && exists a, b :: p + 1 <= a && OccursAt(s, needle, a) && a + |needle| <= b < e - 1 && s[b] == ']'
  }

  /** `re.search(r'\{[\s\S]*?"S"[\s\S]*?\][\s\S]*?\}', s)`: when it matches at all it starts at
      the first `{`; the lazy quantifiers then take the first needle, the first `]` after it
      and the first `}` after that, which is the shortest match from that start. */
  function LazySpan(s: string, key: string): (r: Option<(nat, nat)>)
    ensures r.Some? ==> LazyMatch(s, Quoted(key), r.value.0, r.value.1)
    ensures r.Some? ==> forall p, e :: LazyMatch(s, Quoted(key), p, e) ==>
                          r.value.0 <= p && (p == r.value.0 ==> r.value.1 <= e)
    ensures r.None? ==> forall p, e :: !LazyMatch(s, Quoted(key), p, e)
  {
    var needle := Quoted(key);
    var p := FindChar(s, '{', 0);
    if p < 0 then None
    else
      var a := IndexOf(s, needle, p + 1);
      if a < 0 then None
      else
        var b := FindChar(s, ']', a + |needle|);
        if b < 0 then None
        else
          var c := FindChar(s, '}', b + 1);
          if c < 0 then None
          else
            assert LazyMatch(s, needle, p, c + 1) by {
              assert p + 1 <= a && OccursAt(s, needle, a) && a + |needle| <= b < c && s[b] == ']';
            }
            Some((p, c + 1))
  }

  // ---------------------------------------------------------------------------------------
  // Brace counting

  /** The `{`/`}` balance of `s[start..j]`: opening braces counted up, closing braces down,
      whether or not they sit inside a JSON string. */
  function Depth(s: string, start: nat, j: nat): int
    requires start <= j <= |s|
    decreases j - start
  {
    if j == start then 0
    else Depth(s, start, j - 1) + (if s[j - 1] == '{' then 1 else if s[j - 1] == '}' then -1 else 0)
  }

  /** `s[start..e]` ends with a `}` that brings the balance back to zero. */
  predicate ClosesAt(s: string, start: nat, e: int) {
    start < e <= |s| && s[e - 1] == '}' && Depth(s, start, e) == 0
  }

  /** The first closing point at or after index `i` (an end `e > i`). */
  function ScanFrom(s: string, start: nat, i: nat): (r: Option<nat>)
    requires start <= i <= |s|
    ensures r.Some? ==> i < r.value && ClosesAt(s, start, r.value)
    ensures r.Some? ==> forall e :: i < e < r.value ==> !ClosesAt(s, start, e)
    ensures r.None? ==> forall e :: i < e ==> !ClosesAt(s, start, e)
    decreases |s| - i
  {
    if i == |s| then None
    else if s[i] == '}' && Depth(s, start, i + 1) == 0 then Some(i + 1)
    else ScanFrom(s, start, i + 1)
  }

  /** The end of the shortest prefix of `s[start..]` whose braces balance, if any. */
  function BraceEnd(s: string, start: nat): (r: Option<nat>)
    requires start <= |s|
    ensures r.Some? ==> ClosesAt(s, start, r.value)
    ensures r.Some? ==> forall e :: e < r.value ==> !ClosesAt(s, start, e)
    ensures r.None? ==> forall e :: !ClosesAt(s, start, e)
  {
    ScanFrom(s, start, start)
  }

  /** The candidate text the brace scan produces: the shortest balanced prefix from `start`, or
      the empty string when the balance never returns to zero. */
  function BraceCandidate(s: string, start: nat): (c: string)
    requires start <= |s|
    ensures BraceEnd(s, start).None? ==> c == ""
    ensures BraceEnd(s, start).Some? ==> c == s[start..BraceEnd(s, start).value]
  {
    match BraceEnd(s, start)
    case None => ""
    case Some(e) => s[start..e]
  }

  /** The counting loop of the fix and patch parsers: returns the end index, which stays at
      `start` when the balance never returns to zero. */
  method BraceScan(s: string, start: nat) returns (end: nat)
    requires start <= |s|
    ensures end == match BraceEnd(s, start) case Some(e) => e case None => start
  {
    var braceCount := 0;
    end := start;
    var i := start;
    while i < |s|
      invariant start <= i <= |s|
      invariant braceCount == Depth(s, start, i)
      invariant ScanFrom(s, start, i) == ScanFrom(s, start, start)
      decreases |s| - i
    {
      if s[i] == '{' {
        braceCount := braceCount + 1;
      } else if s[i] == '}' {
        braceCount := braceCount - 1;
        if braceCount == 0 {
          end := i + 1;
          return;
        }
      }
      i := i + 1;
    }
  }

  /** The first of the start variants `variants[from..]` that occurs in `s`, as successive
      `str.find` calls try them: the variant's index and where it first occurs. */
  function FirstStartFrom(s: string, variants: seq<string>, from: nat): (r: Option<(nat, nat)>)
    requires from <= |variants|
    ensures r.None? <==> forall j :: from <= j < |variants| ==> !Contains(s, variants[j])
    ensures r.Some? ==> from <= r.value.0 < |variants| && r.value.1 <= |s|
                        && r.value.1 == IndexOf(s, variants[r.value.0], 0)
                        && forall j :: from <= j < r.value.0 ==> !Contains(s, variants[j])
    decreases |variants| - from
  {
    if from == |variants| then None
    else
      var i := IndexOf(s, variants[from], 0);
      if i >= 0 then Some((from, i)) else FirstStartFrom(s, variants, from + 1)
  }

  /** The first start variant that occurs in `s`. */
  function FirstStart(s: string, variants: seq<string>): (r: Option<(nat, nat)>)
    ensures r.None? <==> forall j :: 0 <= j < |variants| ==> !Contains(s, variants[j])
    ensures r.Some? ==> r.value.0 < |variants| && r.value.1 <= |s|
                        && r.value.1 == IndexOf(s, variants[r.value.0], 0)
                        && forall j :: 0 <= j < r.value.0 ==> !Contains(s, variants[j])
  {
    FirstStartFrom(s, variants, 0)
  }

  /** The recovery the fix and patch parsers attempt when the regex span does not decode:
      the first start variant found, cut out by the brace scan and decoded. An object that never
      closes leaves the empty text, which `json.loads` rejects. */
  function Retry(s: string, variants: seq<string>, decode: Decoder): (r: Option<JObj>)
    ensures FirstStart(s, variants).None? ==> r.None?
    ensures FirstStart(s, variants).Some? ==>
              var i := FirstStart(s, variants).value.1;
              (BraceEnd(s, i).Some? ==> r == decode(s[i..BraceEnd(s, i).value]))
              && (BraceEnd(s, i).None? && RejectsEmpty(decode) ==> r.None?)
  {
    match FirstStart(s, variants)
    case None => None
    case Some((_, i)) => decode(BraceCandidate(s, i))
  }

  /** The recovery as the parsers run it: the `find` calls, then the counting loop. */
  method RetryScan(s: string, variants: seq<string>, decode: Decoder) returns (r: Option<JObj>)
    ensures r == Retry(s, variants, decode)
  {
    var found := FirstStart(s, variants);
    if found.None? {
      return None;
    }
    var i := found.value.1;
    var end := BraceScan(s, i);
    r := decode(s[i..end]);
  }

  // ---------------------------------------------------------------------------------------
  // (?:L1|L2)[:\s]+([A-Za-z]+Error)

  predicate LabelAt(s: string, label1: string, label2: string, i: int) {
    OccursAt(s, label1, i) || OccursAt(s, label2, i)
  }

  /** The error-type expression can match at `i` with its group `s[q..e]`: a label, at least
      one `[:\s]` character up to `q`, then letters up to `e`, the last five being `Error` and
      at least one letter before them. */
  predicate TypeMatch(s: string, i: int, q: int, e: int) {
    LabelAt(s, "Error Type", "error_type", i) && i + 10 < q && q + 1 <= e - 5 && e <= |s|
    && (forall k :: i + 10 <= k < q ==> IsSep(s[k]))
    && (forall k :: q <= k < e ==> IsAsciiLetter(s[k]))
    && OccursAt(s, "Error", e - 5)
  }

  /** The last occurrence of `needle` lying inside `s[lo..hi]`, or -1. */
  function LastOccurrence(s: string, needle: string, lo: nat, hi: nat): (r: int)
    requires hi <= |s|
    ensures r == -1 || (lo <= r && r + |needle| <= hi && OccursAt(s, needle, r))
    ensures r == -1 ==> forall t :: lo <= t && t + |needle| <= hi ==> !OccursAt(s, needle, t)
    ensures r >= 0 ==> forall t :: r < t && t + |needle| <= hi ==> !OccursAt(s, needle, t)
    decreases hi
  {
    if hi < lo + |needle| then -1
    else if OccursAt(s, needle, hi - |needle|) then hi - |needle|
    else if hi == 0 then -1
    else LastOccurrence(s, needle, lo, hi - 1)
  }

  /** The error-type match at position `i`: the separator run is taken whole (no letter can
      stand in it) and the greedy letter run gives back letters only until it ends in `Error`. */
  function TypeAt(s: string, i: nat): (r: Option<(nat, nat)>)
    requires i <= |s|
    ensures r.Some? ==> TypeMatch(s, i, r.value.0, r.value.1)
    ensures r.Some? ==> forall q, e :: TypeMatch(s, i, q, e) ==> q == r.value.0 && e <= r.value.1
    ensures r.None? ==> forall q, e :: !TypeMatch(s, i, q, e)
  {
    if !LabelAt(s, "Error Type", "error_type", i) then None
    else
      var m := SepEnd(s, i + 10);
      if m == i + 10 then
        assert forall q, e :: !TypeMatch(s, i, q, e) by {
          forall q, e | TypeMatch(s, i, q, e) ensures false {
          }
        }
        None
      else
        var n := LetterEnd(s, m);
        var t := LastOccurrence(s, "Error", m + 1, n);
        assert forall q, e :: TypeMatch(s, i, q, e) ==> q == m && e <= n && e - 5 <= t by {
          forall q, e | TypeMatch(s, i, q, e) ensures q == m && e <= n && e - 5 <= t {
            assert IsAsciiLetter(s[q]);
            assert m < |s| ==> !IsSep(s[m]);
            assert n < |s| ==> !IsAsciiLetter(s[n]);
          }
        }
        if t < 0 then None
        else
          assert TypeMatch(s, i, m, t + 5) by {
            assert OccursAt(s, "Error", t);
          }
          Some((m, t + 5))
  }

  /** No label fits in the text at or after its end. */
  lemma NoTypeMatchPastEnd(s: string)
    ensures forall i, q, e :: |s| <= i ==> !TypeMatch(s, i, q, e)
  {
  }

  /** The leftmost error-type match at or after `from`: its label position and group span. */
  function TypeSearchFrom(s: string, from: nat): (r: Option<(nat, nat, nat)>)
    requires from <= |s|
    ensures r.Some? ==> from <= r.value.0 && TypeMatch(s, r.value.0, r.value.1, r.value.2)
    ensures r.Some? ==> forall i, q, e :: from <= i && TypeMatch(s, i, q, e) ==>
                          r.value.0 <= i && (i == r.value.0 ==> q == r.value.1 && e <= r.value.2)
    ensures r.None? ==> forall i, q, e :: from <= i ==> !TypeMatch(s, i, q, e)
    decreases |s| - from
  {
    match TypeAt(s, from)
    case Some((q, e)) => Some((from, q, e))
    case None =>
      if from == |s| then
        NoTypeMatchPastEnd(s);
        None
      else
        assert forall i, q, e :: from <= i && TypeMatch(s, i, q, e) ==> from + 1 <= i;
        TypeSearchFrom(s, from + 1)
  }

  /** `re.search(r'(?:Error Type|error_type)[:\s]+([A-Za-z]+Error)', s).group(1)`, if it
      matches: the group of the leftmost match, greedy at that position. */
  function ErrorTypeSearch(s: string): (r: Option<string>)
    ensures r.None? <==> forall i, q, e :: !TypeMatch(s, i, q, e)
    ensures r.Some? ==> IsErrorName(r.value)
    ensures r.Some? ==> exists i, q, e :: TypeMatch(s, i, q, e) && r.value == s[q..e]
                          && forall i', q', e' :: TypeMatch(s, i', q', e') ==> i <= i' && (i' == i ==> e' <= e)
  {
    match TypeSearchFrom(s, 0)
    case None => None
    case Some((i, q, e)) =>
      TypeGroupIsErrorName(s, i, q, e);
      Some(s[q..e])
  }

  /** The group of an error-type match is a name the group can capture. */
  lemma TypeGroupIsErrorName(s: string, i: int, q: int, e: int)
    requires TypeMatch(s, i, q, e)
    ensures 0 <= q <= e <= |s| && IsErrorName(s[q..e])
  {
    var g := s[q..e];
    forall k | 0 <= k < |g| ensures IsAsciiLetter(g[k]) {
      assert g[k] == s[q + k];
    }
    assert g[|g| - 5..] == s[e - 5..e];
  }

  /** A name the group `[A-Za-z]+Error` can capture. */
  predicate IsErrorName(g: string) {
    |g| >= 6 && (forall k :: 0 <= k < |g| ==> IsAsciiLetter(g[k])) && g[|g| - 5..] == "Error"
  }

  // ---------------------------------------------------------------------------------------
  // (?:L1|L2)[:\s]+(.+?)(?:\n|$)

  /** A labelled-line expression can match at `i` with its group `s[q..e]`: a label, at least
      one `[:\s]` character up to `q`, then one or more characters other than a newline, ending
      at a newline or at the end of the text. */
  predicate LineMatch(s: string, label1: string, label2: string, i: int, q: int, e: int)
    requires |label1| == |label2|
  {
    LabelAt(s, label1, label2, i) && i + |label1| < q < e <= |s|
    && (forall k :: i + |label1| <= k < q ==> IsSep(s[k]))
    && (forall k :: q <= k < e ==> s[k] != '\n')
    && (e == |s| || s[e] == '\n')
  }

  /** The largest index in `[lo, hi]` inside the text that holds no newline, or -1. */
  function LastNonNewline(s: string, lo: nat, hi: nat): (r: int)
    ensures r == -1 || (lo <= r <= hi && r < |s| && s[r] != '\n')
    ensures r == -1 ==> forall k :: lo <= k <= hi && k < |s| ==> s[k] == '\n'
    ensures r >= 0 ==> forall k :: r < k <= hi && k < |s| ==> s[k] == '\n'
    decreases hi
  {
    if hi < lo then -1
    else if hi < |s| && s[hi] != '\n' then hi
    else if hi == 0 then -1
    else LastNonNewline(s, lo, hi - 1)
  }

  /** The labelled-line match at position `i`: the greedy separator run gives back characters
      only until a group of at least one non-newline character can start; the lazy group then
      runs to the first newline or the end. */
  function LineAt(s: string, label1: string, label2: string, i: nat): (r: Option<(nat, nat)>)
    requires |label1| == |label2| && i <= |s|
    ensures r.Some? ==> LineMatch(s, label1, label2, i, r.value.0, r.value.1)
    ensures r.Some? ==> forall q, e :: LineMatch(s, label1, label2, i, q, e) ==> q <= r.value.0
    ensures r.None? ==> forall q, e :: !LineMatch(s, label1, label2, i, q, e)
  {
    if !LabelAt(s, label1, label2, i) then None
    else
      var l := i + |label1|;
      var m := SepEnd(s, l);
      var q := LastNonNewline(s, l + 1, m);
      assert forall q', e :: LineMatch(s, label1, label2, i, q', e) ==> q' <= q by {
        forall q', e | LineMatch(s, label1, label2, i, q', e) ensures q' <= q {
          assert s[q'] != '\n';
        }
      }
      if q < 0 then None
      else
        var e := LineEnd(s, q + 1);
        assert LineMatch(s, label1, label2, i, q, e);
        Some((q, e))
  }

  /** The leftmost labelled-line match at or after `from`. */
  function LineSearchFrom(s: string, label1: string, label2: string, from: nat): (r: Option<(nat, nat, nat)>)
    requires |label1| == |label2| && from <= |s|
    ensures r.Some? ==> from <= r.value.0 && LineMatch(s, label1, label2, r.value.0, r.value.1, r.value.2)
    ensures r.Some? ==> forall i, q, e :: from <= i && LineMatch(s, label1, label2, i, q, e) ==>
                          r.value.0 <= i && (i == r.value.0 ==> q <= r.value.1)
    ensures r.None? ==> forall i, q, e :: from <= i ==> !LineMatch(s, label1, label2, i, q, e)
    decreases |s| - from
  {
    match LineAt(s, label1, label2, from)
    case Some((q, e)) => Some((from, q, e))
    case None =>
      if from == |s| then
        assert forall i, q, e :: from <= i ==> !LineMatch(s, label1, label2, i, q, e);
        None
      else
        assert forall i, q, e :: from <= i && LineMatch(s, label1, label2, i, q, e) ==> from + 1 <= i;
        LineSearchFrom(s, label1, label2, from + 1)
  }

  /** `re.search(r'(?:L1|L2)[:\s]+(.+?)(?:\n|$)', s).group(1)`, if it matches: a non-empty text
      without a newline. */
  function LineSearch(s: string, label1: string, label2: string): (r: Option<string>)
    requires |label1| == |label2|
    ensures r.None? <==> forall i, q, e :: !LineMatch(s, label1, label2, i, q, e)
    ensures r.Some? ==> r.value != "" && '\n' !in r.value
    ensures r.Some? ==> exists i, q, e :: LineMatch(s, label1, label2, i, q, e) && r.value == s[q..e]
                          && forall i', q', e' :: LineMatch(s, label1, label2, i', q', e') ==>
                               i <= i' && (i' == i ==> q' <= q)
  {
    match LineSearchFrom(s, label1, label2, 0)
    case None => None
    case Some((i, q, e)) =>
      assert forall k :: 0 <= k < e - q ==> s[q..e][k] == s[q + k];
      Some(s[q..e])
  }
}
