/**
  The pieces of Rust's standard library that the report relies on, stated over
  `string` (a sequence of Unicode scalar values, as Rust's `str` is):
  `char::is_whitespace`, `str::trim`, `str::split_once` with a `char`
  pattern, the `{:>w}` / `{:<w}` padding of the formatting machinery, and the
  decimal `Display` of an unsigned integer.
 */
module Text {
  import opened Options

  /** The characters with the Unicode `White_Space` property. */
  const WhitespaceChars: set<char> := {
    '\t', '\n', '\U{000B}', '\U{000C}', '\r', ' ', '\U{0085}', '\U{00A0}', '\U{1680}',
    '\U{2000}', '\U{2001}', '\U{2002}', '\U{2003}', '\U{2004}', '\U{2005}', '\U{2006}',
    '\U{2007}', '\U{2008}', '\U{2009}', '\U{200A}', '\U{2028}', '\U{2029}', '\U{202F}',
    '\U{205F}', '\U{3000}'
  }

  /** Rust's `char::is_whitespace`. */
  predicate IsWhitespace(c: char) {
    c in WhitespaceChars
  }

  /** On ASCII, `char::is_whitespace` is space and the five control characters
      from tab to carriage return (vertical tab and form feed included). */
  lemma AsciiWhitespace(c: char)
    requires c as int < 0x80
    ensures IsWhitespace(c) <==> (c == ' ' || '\t' <= c <= '\r')
  {
  }

  predicate AllWhitespace(s: string) {
    forall c :: c in s ==> IsWhitespace(c)
  }

  /** Neither end of `s` is whitespace (vacuously true of the empty string). */
  predicate Trimmed(s: string) {
    s == [] || (!IsWhitespace(s[0]) && !IsWhitespace(s[|s| - 1]))
  }

  /** Rust's `str::trim_start`: the longest suffix of `s` that does not start with whitespace. */
  function TrimStart(s: string): (r: string)
    ensures |r| <= |s| && r == s[|s| - |r|..]
    ensures AllWhitespace(s[..|s| - |r|])
    ensures r == [] || !IsWhitespace(r[0])
  {
    if |s| > 0 && IsWhitespace(s[0]) then TrimStart(s[1..]) else s
  }

  /** Rust's `str::trim_end`: the longest prefix of `s` that does not end with whitespace. */
  function TrimEnd(s: string): (r: string)
    ensures |r| <= |s| && r == s[..|r|]
    ensures AllWhitespace(s[|r|..])
    ensures r == [] || !IsWhitespace(r[|r| - 1])
  {
    if |s| > 0 && IsWhitespace(s[|s| - 1]) then TrimEnd(s[..|s| - 1]) else s
  }

  /** Rust's `str::trim`: both ends stripped of whitespace. */
  function Trim(s: string): (r: string)
    ensures Trimmed(r) && |r| <= |s|
  {
    TrimEnd(TrimStart(s))
  }

  /** Whatever `Trim` drops from either end of `s` is whitespace. */
  lemma {:induction false} TrimDecompose(s: string) returns (lead: string, tail: string)
    ensures s == lead + Trim(s) + tail
    ensures AllWhitespace(lead) && AllWhitespace(tail)
  {
    var t := TrimStart(s);
    var r := TrimEnd(t);
    lead := s[..|s| - |t|];
    tail := t[|r|..];
    SuffixPrefixJoin(s, t, r);
  }

  /** `s` is what precedes its suffix `t`, then `t`'s prefix `r`, then the rest of `t`. */
  lemma SuffixPrefixJoin(s: string, t: string, r: string)
    requires |t| <= |s| && t == s[|s| - |t|..]
    requires |r| <= |t| && r == t[..|r|]
    ensures s == s[..|s| - |t|] + r + t[|r|..]
  {
    assert s == s[..|s| - |t|] + t;
    assert t == r + t[|r|..];
  }

  lemma {:induction false} TrimStartOfWhitespace(x: string, m: string)
    requires AllWhitespace(x)
    requires m == [] || !IsWhitespace(m[0])
    ensures TrimStart(x + m) == m
    decreases |x|
  {
    if x != [] {
      assert (x + m)[1..] == x[1..] + m;
      TrimStartOfWhitespace(x[1..], m);
    }
  }

  lemma {:induction false} TrimEndOfWhitespace(m: string, y: string)
    requires AllWhitespace(y)
    requires m == [] || !IsWhitespace(m[|m| - 1])
    ensures TrimEnd(m + y) == m
    decreases |y|
  {
    if y != [] {
      assert (m + y)[..|m + y| - 1] == m + y[..|y| - 1];
      TrimEndOfWhitespace(m, y[..|y| - 1]);
    } else {
      assert m + y == m;
    }
  }

  /** `Trim` is characterised by its result: surrounding a trimmed text with
      whitespace on either side and trimming gives the text back. */
  lemma {:induction false} TrimOfPadded(x: string, m: string, y: string)
    requires AllWhitespace(x) && AllWhitespace(y) && Trimmed(m)
    ensures Trim(x + m + y) == m
  {
    if m == [] {
      assert x + m + y == x + y;
      assert AllWhitespace(x + y);
      TrimStartOfWhitespace(x + y, []);
      assert x + y == (x + y) + [];
    } else {
      assert x + m + y == x + (m + y);
      TrimStartOfWhitespace(x, m + y);
      TrimEndOfWhitespace(m, y);
    }
  }

  /** A text that is already trimmed is left as it is. */
  lemma TrimOfTrimmed(m: string)
    requires Trimmed(m)
    ensures Trim(m) == m
  {
    assert TrimStart(m) == m;
  }

  /** Trimming twice is trimming once. */
  lemma {:induction false} TrimIdempotent(s: string)
    ensures Trim(Trim(s)) == Trim(s)
  {
    TrimOfTrimmed(Trim(s));
  }

  /** The index of the first occurrence of `c` in `s`, if any. */
  function FindChar(s: string, c: char): (r: Option<nat>)
    ensures r.None? <==> c !in s
    ensures r.Some? ==> r.value < |s| && s[r.value] == c && c !in s[..r.value]
  {
    if |s| == 0 then None
    else if s[0] == c then Some(0)
    else match FindChar(s[1..], c)
      case None => None
      case Some(i) => (assert s[..i + 1] == [s[0]] + s[1..][..i]; Some(i + 1))
  }

  /** Rust's `str::split_once` with a `char` pattern: the text before and after
      the first occurrence of `c`, or `None` when `c` does not occur. */
  function SplitOnce(s: string, c: char): (r: Option<(string, string)>)
    ensures r.None? <==> c !in s
    ensures r.Some? ==> s == r.value.0 + [c] + r.value.1 && c !in r.value.0
  {
    match FindChar(s, c)
    case None => None
    case Some(i) => (assert s == s[..i] + [c] + s[i + 1..]; Some((s[..i], s[i + 1..])))
  }

  /** `SplitOnce` undoes joining with `c` when the first part has no `c`, whatever the second part holds. */
  lemma SplitOnceOfJoin(k: string, c: char, v: string)
    requires c !in k
    ensures SplitOnce(k + [c] + v, c) == Some((k, v))
  {
    var s := k + [c] + v;
    assert s[|k|] == c;
    var r := SplitOnce(s, c);
    assert |r.value.0| == |k|;
    assert r.value.0 == s[..|k|] == k;
    assert r.value.1 == s[|k| + 1..] == v;
  }

  function Spaces(n: nat): (r: string)
    ensures |r| == n && forall i :: 0 <= i < n ==> r[i] == ' '
  {
    seq(n, _ => ' ')
  }

  /** Rust's `{:>w}` on a string: right-aligned in a field of `w` characters. */
  function PadLeft(s: string, w: nat): (r: string)
    ensures |r| == if |s| < w then w else |s|
    ensures r[|r| - |s|..] == s
    ensures forall i :: 0 <= i < |r| - |s| ==> r[i] == ' '
  {
    if |s| < w then Spaces(w - |s|) + s else s
  }

  /** Rust's `{:<w}` on a string: left-aligned in a field of `w` characters. */
  function PadRight(s: string, w: nat): (r: string)
    ensures |r| == if |s| < w then w else |s|
    ensures r[..|s|] == s
    ensures forall i :: |s| <= i < |r| ==> r[i] == ' '
  {
    if |s| < w then s + Spaces(w - |s|) else s
  }

  /** The range of Rust's `u32`. */
  type U32 = n: nat | n < 0x1_0000_0000

  predicate IsDigit(c: char) {
    '0' <= c <= '9'
  }

  function DigitChar(d: nat): char
    requires d < 10
  {
    ('0' as int + d) as char
  }

  function DigitValue(c: char): int {
    c as int - '0' as int
  }

  /** The decimal text of `n`, as Rust's `Display` for unsigned integers writes it. */
  function Decimal(n: nat): (r: string)
    ensures |r| >= 1
    ensures forall i :: 0 <= i < |r| ==> IsDigit(r[i])
    ensures r[0] == '0' <==> n == 0
    ensures r[0] == '0' ==> |r| == 1
    decreases n
  {
    if n < 10 then [DigitChar(n)] else Decimal(n / 10) + [DigitChar(n % 10)]
  }

  /** The number a string of decimal digits denotes. */
  function DecimalValue(s: string): int {
    if s == [] then 0 else 10 * DecimalValue(s[..|s| - 1]) + DigitValue(s[|s| - 1])
  }

  /** Reading back the decimal text of `n` gives `n`. */
  lemma {:induction false} DecimalRoundTrip(n: nat)
    ensures DecimalValue(Decimal(n)) == n
    decreases n
  {
    if n >= 10 {
      var r := Decimal(n);
      assert r[..|r| - 1] == Decimal(n / 10);
      DecimalRoundTrip(n / 10);
    }
  }

  /** A digit string without a leading zero (other than `0` itself) is the
      decimal text of the number it denotes: `Decimal` is the only such text. */
  lemma {:induction false} DecimalCanonical(s: string, n: nat)
    requires |s| >= 1 && forall i :: 0 <= i < |s| ==> IsDigit(s[i])
    requires s[0] == '0' ==> |s| == 1
    requires DecimalValue(s) == n
    ensures s == Decimal(n)
    decreases |s|
  {
    if |s| == 1 {
      assert s[..0] == [];
      assert DigitChar(n) == s[0];
    } else {
      var p := s[..|s| - 1];
      assert p[0] == s[0];
      DecimalValuePositive(p);
      var q := DecimalValue(p);
      assert n / 10 == q && n % 10 == DigitValue(s[|s| - 1]);
      DecimalCanonical(p, q);
      assert s == p + [s[|s| - 1]];
    }
  }

  /** A digit string that starts with a non-zero digit denotes a positive number. */
  lemma {:induction false} DecimalValuePositive(s: string)
    requires |s| >= 1 && forall i :: 0 <= i < |s| ==> IsDigit(s[i])
    requires s[0] != '0'
    ensures DecimalValue(s) >= 1
    decreases |s|
  {
    if |s| == 1 {
      assert s[..0] == [];
    } else {
      var p := s[..|s| - 1];
      assert p[0] == s[0];
      DecimalValuePositive(p);
    }
  }

  /** Different numbers have different decimal texts. */
  lemma DecimalInjective(m: nat, n: nat)
    requires Decimal(m) == Decimal(n)
    ensures m == n
  {
    DecimalRoundTrip(m);
    DecimalRoundTrip(n);
  }
}
