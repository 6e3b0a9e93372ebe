/** String operations of Python's `str` that the pipeline relies on: `find`, `split`, `join`,
    `strip`, `lower`, `replace`, `count`, slicing with `[:n]`, `str(int)` and `int(str)`.
    Characters are Dafny `char`s; only the ASCII part of Python's whitespace and case tables is
    modelled. */
module Text {
  import opened Wrappers

  /** The ASCII characters for which Python's `str.isspace` holds (also the ASCII part of the
      regex class `\s`). */
  predicate IsSpace(c: char) {
    c == ' ' || c == '\t' || c == '\n' || c == '\r' || c == '\U{0B}' || c == '\U{0C}'
    || ('\U{1C}' <= c <= '\U{1F}')
  }

  predicate IsDigit(c: char) { '0' <= c <= '9' }

  predicate IsAsciiLetter(c: char) { ('a' <= c <= 'z') || ('A' <= c <= 'Z') }

  /** `needle` occurs in `s` starting at index `i`. */
  predicate OccursAt(s: string, needle: string, i: int) {
    0 <= i && i + |needle| <= |s| && s[i..i + |needle|] == needle
  }

  predicate StartsWith(s: string, prefix: string) {
    OccursAt(s, prefix, 0)
  }

  /** Python's `s.find(needle, start)`: the first index at or after `start` where `needle`
      occurs, or -1. */
  function IndexOf(s: string, needle: string, start: nat): (r: int)
    requires start <= |s|
    ensures r == -1 || (start <= r && OccursAt(s, needle, r))
    ensures r == -1 ==> forall j :: start <= j ==> !OccursAt(s, needle, j)
    ensures r >= 0 ==> forall j :: start <= j < r ==> !OccursAt(s, needle, j)
    decreases |s| - start
  {
    if start + |needle| > |s| then -1
    else if s[start..start + |needle|] == needle then start
    else IndexOf(s, needle, start + 1)
  }

  /** Python's `needle in s`. */
  predicate Contains(s: string, needle: string) {
    IndexOf(s, needle, 0) >= 0
  }

  /** Python's `s[:n]`. */
  function Prefix(s: string, n: nat): (r: string)
    ensures |r| == if |s| <= n then |s| else n
    ensures r == s[..|r|]
  {
    if |s| <= n then s else s[..n]
  }

  /** Python's `s.count(c)` for a single character. */
  function Count(s: string, c: char): nat {
    if s == [] then 0 else (if s[0] == c then 1 else 0) + Count(s[1..], c)
  }

  /** Python's `s.split(sep)` for a one-character separator. */
  function Split(s: string, sep: char): (parts: seq<string>)
    ensures |parts| >= 1
  {
    if s == [] then [""]
    else if s[0] == sep then [""] + Split(s[1..], sep)
    else
      var rest := Split(s[1..], sep);
      [[s[0]] + rest[0]] + rest[1..]
  }

  /** Python's `sep.join(parts)`. */
  function Join(parts: seq<string>, sep: string): string {
    if |parts| == 0 then ""
    else if |parts| == 1 then parts[0]
    else parts[0] + sep + Join(parts[1..], sep)
  }

  lemma {:induction false} JoinCons(p: string, rest: seq<string>, sep: string)
    requires |rest| >= 1
    ensures Join([p] + rest, sep) == p + sep + Join(rest, sep)
  {
    assert ([p] + rest)[1..] == rest;
  }

  /** Joining the pieces of a split with the separator gives the text back. */
  lemma {:induction false} SplitJoin(s: string, sep: char)
    ensures Join(Split(s, sep), [sep]) == s
    decreases |s|
  {
    if s == [] {
    } else if s[0] == sep {
      SplitJoin(s[1..], sep);
      JoinCons("", Split(s[1..], sep), [sep]);
      assert s == [s[0]] + s[1..];
    } else {
      SplitJoin(s[1..], sep);
      var rest := Split(s[1..], sep);
      var parts := Split(s, sep);
      assert parts == [[s[0]] + rest[0]] + rest[1..];
      if |rest| == 1 {
        assert Join(parts, [sep]) == [s[0]] + rest[0];
      } else {
        JoinCons(rest[0], rest[1..], [sep]);
        assert rest == [rest[0]] + rest[1..];
        JoinCons([s[0]] + rest[0], rest[1..], [sep]);
      }
      assert s == [s[0]] + s[1..];
    }
  }

  /** A text with `k` separators splits into `k + 1` pieces, none of which holds the
      separator. */
  lemma {:induction false} SplitPieces(s: string, sep: char)
    ensures |Split(s, sep)| == Count(s, sep) + 1
    ensures forall k :: 0 <= k < |Split(s, sep)| ==> sep !in Split(s, sep)[k]
    decreases |s|
  {
    if s != [] {
      SplitPieces(s[1..], sep);
      var rest := Split(s[1..], sep);
      var parts := Split(s, sep);
      if s[0] == sep {
        forall k | 0 <= k < |parts| ensures sep !in parts[k] {
          if k > 0 { assert parts[k] == rest[k - 1]; }
        }
      } else {
        forall k | 0 <= k < |parts| ensures sep !in parts[k] {
          if k > 0 { assert parts[k] == rest[k]; }
          else { assert parts[0] == [s[0]] + rest[0]; }
        }
      }
    }
  }

  function TrimStart(s: string): (r: string)
    ensures |r| <= |s| && r == s[|s| - |r|..]
    ensures r == [] || !IsSpace(r[0])
    ensures forall k :: 0 <= k < |s| - |r| ==> IsSpace(s[k])
  {
    if s != [] && IsSpace(s[0]) then TrimStart(s[1..]) else s
  }

  function TrimEnd(s: string): (r: string)
    ensures |r| <= |s| && r == s[..|r|]
    ensures r == [] || !IsSpace(r[|r| - 1])
    ensures forall k :: |r| <= k < |s| ==> IsSpace(s[k])
  {
    if s != [] && IsSpace(s[|s| - 1]) then TrimEnd(s[..|s| - 1]) else s
  }

  /** Trailing whitespace after a text that ends in a non-space character is trimmed from the
      appended part only. */
  lemma {:induction false} TrimEndAppend(p: string, q: string)
    requires p != [] && !IsSpace(p[|p| - 1])
    ensures TrimEnd(p + q) == p + TrimEnd(q)
    decreases |q|
  {
    if q == [] {
      assert p + q == p;
    } else if IsSpace(q[|q| - 1]) {
      assert (p + q)[..|p + q| - 1] == p + q[..|q| - 1];
      TrimEndAppend(p, q[..|q| - 1]);
    } else {
      assert (p + q)[|p + q| - 1] == q[|q| - 1];
    }
  }

  /** A final line break is trimmed away. */
  lemma TrimEndBreak(s: string)
    ensures TrimEnd(s + "\n") == TrimEnd(s)
  {
    assert (s + "\n")[..|s + "\n"| - 1] == s;
  }

  /** A whitespace-only text trims to nothing. */
  lemma TrimEndAllSpace(s: string)
    requires forall k :: 0 <= k < |s| ==> IsSpace(s[k])
    ensures TrimEnd(s) == ""
  {
  }

  /** A line break followed by a blank text trims to nothing. */
  lemma TrimEndBlank(b: string)
    requires IsBlank(b)
    ensures TrimEnd("\n" + b) == ""
  {
    BlankIffAllSpace(b);
    TrimEndAllSpace("\n" + b);
  }

  /** Python's `s.strip()`. */
  function Strip(s: string): string {
    TrimEnd(TrimStart(s))
  }

  /** Python's `not s or not s.strip()`: the text is empty or only whitespace. */
  predicate IsBlank(s: string) {
    Strip(s) == ""
  }

  /** A text is blank exactly when every character in it is whitespace. */
  lemma BlankIffAllSpace(s: string)
    ensures IsBlank(s) <==> forall k :: 0 <= k < |s| ==> IsSpace(s[k])
  {
    var t := TrimStart(s);
    if forall k :: 0 <= k < |s| ==> IsSpace(s[k]) {
      assert t == [] by {
        if t != [] {
          assert false;
        }
      }
    } else {
      var k :| 0 <= k < |s| && !IsSpace(s[k]);
      assert t != [];
      assert !IsSpace(t[0]);
    }
  }

  function LowerChar(c: char): char {
    if 'A' <= c <= 'Z' then (c as int + 32) as char else c
  }

  /** Python's `s.lower()` on ASCII letters. */
  function Lower(s: string): (r: string)
    ensures |r| == |s|
    ensures forall k :: 0 <= k < |s| ==> r[k] == LowerChar(s[k])
  {
    seq(|s|, k requires 0 <= k < |s| => LowerChar(s[k]))
  }

  /** Python's `s.replace(pattern, replacement)`: every non-overlapping occurrence, scanning
      from the left, is replaced. */
  function ReplaceAll(s: string, pattern: string, replacement: string): string
    requires |pattern| > 0
    decreases |s|
  {
    if s == [] then ""
    else if OccursAt(s, pattern, 0) then replacement + ReplaceAll(s[|pattern|..], pattern, replacement)
    else [s[0]] + ReplaceAll(s[1..], pattern, replacement)
  }

  /** The text a file opened in text mode reads as: every "\r\n" and every other "\r" becomes
      a single "\n" (universal newlines). */
  function UniversalNewlines(s: string): (r: string)
    ensures '\r' !in r
    ensures |r| <= |s|
    ensures '\r' !in s ==> r == s
    decreases |s|
  {
    if s == [] then ""
    else if s[0] == '\r' then "\n" + UniversalNewlines(if |s| > 1 && s[1] == '\n' then s[2..] else s[1..])
    else
      assert '\r' !in s ==> '\r' !in s[1..];
      [s[0]] + UniversalNewlines(s[1..])
  }

  /** A Windows line break and a lone carriage return both read as one line break, and the text
      before them reads as it is. */
  lemma {:induction false} UniversalNewlinesBreak(a: string, b: string)
    requires '\r' !in a
    ensures UniversalNewlines(a + "\r\n" + b) == a + "\n" + UniversalNewlines(b)
    ensures (b == [] || b[0] != '\n') ==> UniversalNewlines(a + "\r" + b) == a + "\n" + UniversalNewlines(b)
    decreases |a|
  {
    if a == [] {
      assert a + "\r\n" + b == "\r\n" + b;
      assert ("\r\n" + b)[2..] == b;
      assert a + "\r" + b == "\r" + b;
      assert ("\r" + b)[1..] == b;
    } else {
      assert (a + "\r\n" + b)[1..] == a[1..] + "\r\n" + b;
      assert (a + "\r" + b)[1..] == a[1..] + "\r" + b;
      assert a[0] in a;
      UniversalNewlinesBreak(a[1..], b);
      assert [a[0]] + a[1..] == a;
    }
  }

  /** Python's `format(s, ">{width}")`: left-padded with spaces to `width`. */
  function PadLeft(s: string, width: nat): (r: string)
    ensures |r| == if |s| >= width then |s| else width
    ensures r[|r| - |s|..] == s
    ensures forall k :: 0 <= k < |r| - |s| ==> r[k] == ' '
  {
    if |s| >= width then s else seq(width - |s|, _ => ' ') + s
  }

  function DigitChar(d: nat): char
    requires d < 10
  {
    ('0' as int + d) as char
  }

  function DigitValue(c: char): nat
    requires IsDigit(c)
  {
    c as int - '0' as int
  }

  /** The decimal digits of a natural number, most significant first. */
  function Digits(n: nat): (r: string)
    ensures |r| >= 1
    ensures forall k :: 0 <= k < |r| ==> IsDigit(r[k])
    decreases n
  {
    if n < 10 then [DigitChar(n)] else Digits(n / 10) + [DigitChar(n % 10)]
  }

  /** Python's `str(n)` for an integer. */
  function Decimal(n: int): string {
    if n < 0 then "-" + Digits(-n) else Digits(n)
  }

  /** The value of a non-empty string of decimal digits. */
  function DigitsValue(s: string): nat
    requires forall k :: 0 <= k < |s| ==> IsDigit(s[k])
    decreases |s|
  {
    if s == [] then 0 else DigitsValue(s[..|s| - 1]) * 10 + DigitValue(s[|s| - 1])
  }

  /** A digit group of an integer literal: digits, where single underscores may stand between
      two digits (`1_000`). Yields the digits without the underscores. */
  function DigitGroup(s: string): (r: Option<string>)
    ensures r.Some? ==> |r.value| >= 1 && forall k :: 0 <= k < |r.value| ==> IsDigit(r.value[k])
    decreases |s|
  {
    if s == [] then None
    else if !IsDigit(s[0]) then None
    else if |s| == 1 then Some(s)
    else if s[1] == '_' then
      (if |s| >= 3 && IsDigit(s[2]) then
         match DigitGroup(s[2..])
         case Some(rest) => Some([s[0]] + rest)
         case None => None
       else None)
    else
      match DigitGroup(s[1..])
      case Some(rest) => Some([s[0]] + rest)
      case None => None
  }

  /** Python's `int(s)` for a string: surrounding whitespace, an optional sign and decimal
      digits (with single underscores between digits). Any other text is a `ValueError`,
      modelled as `None`. */
  function ParseInt(s: string): Option<int> {
    ParseSigned(Strip(s))
  }

  /** An optional sign and a digit group, with nothing around them. */
  function ParseSigned(t: string): Option<int> {
    if t == [] then None
    else
      var negative := t[0] == '-';
      var body := if t[0] == '-' || t[0] == '+' then t[1..] else t;
      match DigitGroup(body)
      case None => None
      case Some(ds) => Some(if negative then -(DigitsValue(ds) as int) else DigitsValue(ds) as int)
  }

  lemma {:induction false} DigitsValueOfDigits(n: nat)
    ensures DigitsValue(Digits(n)) == n
    decreases n
  {
    if n >= 10 {
      DigitsValueOfDigits(n / 10);
      var d := Digits(n / 10) + [DigitChar(n % 10)];
      assert d[..|d| - 1] == Digits(n / 10);
    }
  }

  lemma {:induction false} DigitGroupOfDigits(s: string)
    requires |s| >= 1 && forall k :: 0 <= k < |s| ==> IsDigit(s[k])
    ensures DigitGroup(s) == Some(s)
    decreases |s|
  {
    if |s| > 1 {
      DigitGroupOfDigits(s[1..]);
      assert [s[0]] + s[1..] == s;
    }
  }

  /** A text that neither starts nor ends with whitespace is its own `strip()`. */
  lemma StripUnspaced(t: string)
    requires |t| >= 1 && !IsSpace(t[0]) && !IsSpace(t[|t| - 1])
    ensures Strip(t) == t && ParseInt(t) == ParseSigned(t)
  {
    assert TrimStart(t) == t;
  }

  /** Stripping whitespace introduces no digit. */
  lemma StripNoDigit(s: string)
    requires forall k :: 0 <= k < |s| ==> !IsDigit(s[k])
    ensures forall k :: 0 <= k < |Strip(s)| ==> !IsDigit(Strip(s)[k])
  {
    var u := TrimStart(s);
    SliceNoDigit(s, |s| - |u|, |s|);
    var t := TrimEnd(u);
    SliceNoDigit(u, 0, |t|);
  }

  lemma SliceNoDigit(s: string, i: nat, j: nat)
    requires i <= j <= |s|
    requires forall k :: 0 <= k < |s| ==> !IsDigit(s[k])
    ensures forall k :: 0 <= k < j - i ==> !IsDigit(s[i..j][k])
  {
  }

  /** A signed integer literal holds at least one digit. */
  lemma SignedNeedsDigit(t: string)
    ensures ParseSigned(t).Some? ==> exists k :: 0 <= k < |t| && IsDigit(t[k])
  {
    if ParseSigned(t).Some? {
      var body := if t[0] == '-' || t[0] == '+' then t[1..] else t;
      assert DigitGroup(body).Some?;
      assert IsDigit(body[0]);
      if t[0] == '-' || t[0] == '+' {
        assert IsDigit(t[1]);
      } else {
        assert IsDigit(t[0]);
      }
    }
  }

  lemma UnsignedDigits(ds: string)
    requires |ds| >= 1 && forall k :: 0 <= k < |ds| ==> IsDigit(ds[k])
    ensures ParseSigned(ds) == Some(DigitsValue(ds) as int)
  {
    DigitGroupOfDigits(ds);
    assert IsDigit(ds[0]);
  }

  lemma NegatedDigits(ds: string)
    requires |ds| >= 1 && forall k :: 0 <= k < |ds| ==> IsDigit(ds[k])
    ensures ParseSigned("-" + ds) == Some(-(DigitsValue(ds) as int))
  {
    DigitGroupOfDigits(ds);
    var t := "-" + ds;
    assert t[0] == '-' && t[1..] == ds;
    MinusBody(t, ds);
  }

  lemma MinusBody(t: string, ds: string)
    requires |t| >= 1 && t[0] == '-' && t[1..] == ds && DigitGroup(ds) == Some(ds)
    ensures ParseSigned(t) == Some(-(DigitsValue(ds) as int))
  {
  }

  /** An optional minus sign followed by decimal digits is that signed value. */
  lemma SignedDigits(negative: bool, ds: string)
    requires |ds| >= 1 && forall k :: 0 <= k < |ds| ==> IsDigit(ds[k])
    ensures ParseSigned((if negative then "-" else "") + ds)
            == Some(if negative then -(DigitsValue(ds) as int) else DigitsValue(ds) as int)
  {
    if negative {
      NegatedDigits(ds);
    } else {
      assert "" + ds == ds;
      UnsignedDigits(ds);
    }
  }

  /** `int(str(n)) == n`: the decimal text of an integer reads back as that integer. */
  lemma ParseIntDecimal(n: int)
    ensures ParseInt(Decimal(n)) == Some(n)
  {
    var ds := Digits(if n < 0 then -n else n);
    var t := (if n < 0 then "-" else "") + ds;
    assert Decimal(n) == t;
    assert t[|t| - 1] == ds[|ds| - 1];
    assert t[0] == if n < 0 then '-' else ds[0];
    StripUnspaced(t);
    SignedDigits(n < 0, ds);
    DigitsValueOfDigits(if n < 0 then -n else n);
  }

  /** The last component of a '/'-separated path that is neither empty nor ".", or "". */
  function LastName(parts: seq<string>): (name: string)
    ensures name == "" || name in parts
    ensures name != "."
    decreases |parts|
  {
    if parts == [] then ""
    else
      var p := parts[|parts| - 1];
      if p == "" || p == "." then LastName(parts[..|parts| - 1]) else p
  }

  /** `pathlib.PurePosixPath(path).name`: the final component, ignoring empty and "."
      components; never contains a separator. */
  function Basename(path: string): (name: string)
    ensures '/' !in name
    ensures name != "."
  {
    SplitPieces(path, '/');
    var parts := Split(path, '/');
    var name := LastName(parts);
    assert name == "" || exists k :: 0 <= k < |parts| && parts[k] == name;
    name
  }
}
