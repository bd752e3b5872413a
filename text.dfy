/**
 * String helpers with Python's meaning: `str.strip`, `str.lower`/`str.upper`
 * (ASCII letters), `in` on strings, `str.split(sep, 1)`, `str.splitlines`
 * and the decimal rendering and parsing of integers.
 */
module Text {
  import opened Wrappers

  /** Python's `c.isspace()`. */
  predicate IsSpace(c: char) {
    c == ' ' || '\t' <= c <= '\r' || '\U{1C}' <= c <= '\U{1F}' || c == '\U{85}' || c == '\U{A0}' ||
    c == '\U{1680}' || '\U{2000}' <= c <= '\U{200A}' || c == '\U{2028}' || c == '\U{2029}' ||
    c == '\U{202F}' || c == '\U{205F}' || c == '\U{3000}'
  }

  /** The characters at which Python's `str.splitlines()` ends a line. */
  const LineBreaks: set<char> :=
    {'\U{A}', '\U{B}', '\U{C}', '\U{D}', '\U{1C}', '\U{1D}', '\U{1E}', '\U{85}', '\U{2028}',
     '\U{2029}'}

  /** Drops every leading character for which `drop` holds. */
  function TrimLeft(s: string, drop: char -> bool): (r: string)
    ensures |r| <= |s| && r == s[|s| - |r|..]
    ensures r == [] || !drop(r[0])
    ensures forall i :: 0 <= i < |s| - |r| ==> drop(s[i])
  {
    if |s| > 0 && drop(s[0]) then
      var r := TrimLeft(s[1..], drop);
      assert s[1..][|s| - 1 - |r|..] == s[|s| - |r|..];
      r
    else s
  }

  /** Drops every trailing character for which `drop` holds. */
  function TrimRight(s: string, drop: char -> bool): (r: string)
    ensures |r| <= |s| && r == s[..|r|]
    ensures r == [] || !drop(r[|r| - 1])
    ensures forall i :: |r| <= i < |s| ==> drop(s[i])
  {
    if |s| > 0 && drop(s[|s| - 1]) then TrimRight(s[..|s| - 1], drop) else s
  }

  /** Both ends of `s` lose every character for which `drop` holds. */
  function StripWhere(s: string, drop: char -> bool): (r: string)
    ensures |r| <= |s|
    ensures r == [] || (!drop(r[0]) && !drop(r[|r| - 1]))
  {
    TrimRight(TrimLeft(s, drop), drop)
  }

  /** Python's `s.strip()`. */
  function Strip(s: string): (r: string)
    ensures |r| <= |s|
    ensures r == [] || (!IsSpace(r[0]) && !IsSpace(r[|r| - 1]))
  {
    StripWhere(s, IsSpace)
  }

  /** Python's `s.strip(q)` for a one-character argument `q`. */
  function StripChar(s: string, q: char): (r: string)
    ensures |r| <= |s|
    ensures r == [] || (r[0] != q && r[|r| - 1] != q)
  {
    StripWhere(s, c => c == q)
  }

  /** A string with no whitespace at either end is its own strip. */
  lemma StripOfStripped(s: string)
    requires s == [] || (!IsSpace(s[0]) && !IsSpace(s[|s| - 1]))
    ensures Strip(s) == s
  {
  }

  /** Stripping only removes characters, so one that is absent stays absent. */
  lemma StripKeepsAbsent(s: string, c: char)
    requires c !in s
    ensures c !in Strip(s)
  {
    var l := TrimLeft(s, IsSpace);
    assert forall i :: 0 <= i < |l| ==> l[i] == s[|s| - |l| + i];
    assert c !in l;
    var r := TrimRight(l, IsSpace);
    assert forall i :: 0 <= i < |r| ==> r[i] == l[i];
  }

  /** Stripping twice is stripping once. */
  lemma StripIdempotent(s: string)
    ensures Strip(Strip(s)) == Strip(s)
  {
    StripOfStripped(Strip(s));
  }

  function LowerChar(c: char): char {
    if 'A' <= c <= 'Z' then (c as int - 'A' as int + 'a' as int) as char else c
  }

  function UpperChar(c: char): char {
    if 'a' <= c <= 'z' then (c as int - 'a' as int + 'A' as int) as char else c
  }

  /** `s.lower()` on ASCII letters. */
  function Lower(s: string): (r: string)
    ensures |r| == |s| && forall i :: 0 <= i < |s| ==> r[i] == LowerChar(s[i])
  {
    seq(|s|, i requires 0 <= i < |s| => LowerChar(s[i]))
  }

  /** `s.upper()` on ASCII letters. */
  function Upper(s: string): (r: string)
    ensures |r| == |s| && forall i :: 0 <= i < |s| ==> r[i] == UpperChar(s[i])
  {
    seq(|s|, i requires 0 <= i < |s| => UpperChar(s[i]))
  }

  predicate StartsWith(s: string, prefix: string) {
    |prefix| <= |s| && s[..|prefix|] == prefix
  }

  /** Python's `sub in s`. */
  predicate Contains(s: string, sub: string) {
    exists i | 0 <= i <= |s| - |sub| :: StartsWith(s[i..], sub)
  }

  /** A string contains itself, and so it contains whatever it is prefixed or suffixed to. */
  lemma ContainsInfix(a: string, sub: string, b: string)
    ensures Contains(a + sub + b, sub)
  {
    var s := a + sub + b;
    assert s[|a|..][..|sub|] == sub;
  }

  /** The first index of `c` in `s`, as `s.find(c)` gives it. */
  function IndexOf(s: string, c: char): (r: Option<nat>)
    ensures r.None? <==> c !in s
    ensures r.Some? ==> r.value < |s| && s[r.value] == c && c !in s[..r.value]
  {
    if |s| == 0 then None
    else if s[0] == c then Some(0)
    else match IndexOf(s[1..], c)
      case None => None
      case Some(k) => assert s[..k + 1] == [s[0]] + s[1..][..k]; Some(k + 1)
  }

  /**
   * Python's `s.split(sep, 1)` for a one-character separator: `None` stands for
   * the one-element list `[s]`, `Some((a, b))` for `[a, b]`.
   */
  function SplitOnce(s: string, sep: char): (r: Option<(string, string)>)
    ensures r.None? <==> sep !in s
    ensures r.Some? ==> s == r.value.0 + [sep] + r.value.1 && sep !in r.value.0
  {
    match IndexOf(s, sep)
    case None => None
    case Some(k) =>
      assert s == s[..k] + [sep] + s[k + 1..];
      Some((s[..k], s[k + 1..]))
  }

  /**
   * The lines of `s`, cut at every character of `LineBreaks`. Compared with
   * Python's `splitlines()` this yields the same non-empty lines in the same
   * order, plus an empty line after a final break, between the two characters
   * of a `\r\n` pair, and for the empty text.
   */
  function Lines(s: string): (r: seq<string>)
    ensures |r| >= 1
    ensures forall k :: 0 <= k < |r| ==> forall c :: c in r[k] ==> c !in LineBreaks
    decreases |s|
  {
    match FirstBreak(s)
    case None => [s]
    case Some(k) => [s[..k]] + Lines(s[k + 1..])
  }

  /** The first index of a line-break character in `s`. */
  function FirstBreak(s: string): (r: Option<nat>)
    ensures r.None? ==> forall c :: c in s ==> c !in LineBreaks
    ensures r.Some? ==> r.value < |s| && s[r.value] in LineBreaks &&
                        forall c :: c in s[..r.value] ==> c !in LineBreaks
  {
    if |s| == 0 then None
    else if s[0] in LineBreaks then Some(0)
    else match FirstBreak(s[1..])
      case None => None
      case Some(k) => assert s[..k + 1] == [s[0]] + s[1..][..k]; Some(k + 1)
  }

  // ---------------------------------------------------------------------
  // Decimal integers
  // ---------------------------------------------------------------------

  /** `c.isdigit()` on ASCII digits. */
  predicate IsDigit(c: char) {
    '0' <= c <= '9'
  }

  predicate AllDigits(s: string) {
    forall i :: 0 <= i < |s| ==> IsDigit(s[i])
  }

  function DigitChar(d: nat): (c: char)
    requires d < 10
    ensures IsDigit(c)
  {
    ('0' as int + d) as char
  }

  function DigitValue(c: char): (d: nat)
    requires IsDigit(c)
    ensures d < 10
  {
    c as int - '0' as int
  }

  /** `str(n)` for a natural number: its decimal digits, no leading zeros. */
  function NatToString(n: nat): (r: string)
    ensures |r| >= 1 && AllDigits(r)
    ensures |r| > 1 ==> r[0] != '0'
  {
    if n < 10 then [DigitChar(n)] else NatToString(n / 10) + [DigitChar(n % 10)]
  }

  /** `str(i)` for an integer. */
  function IntToString(i: int): (r: string)
    ensures |r| >= 1
    ensures i >= 0 <==> IsDigit(r[0])
  {
    if i >= 0 then NatToString(i) else "-" + NatToString(-i)
  }

  /** The number a string of decimal digits denotes (leading zeros allowed). */
  function DigitsToNat(s: string): nat
    requires AllDigits(s)
  {
    if s == [] then 0 else DigitsToNat(s[..|s| - 1]) * 10 + DigitValue(s[|s| - 1])
  }

  /** Rendering a natural number and reading it back gives the number. */
  lemma {:induction false} NatToStringRoundTrip(n: nat)
    ensures DigitsToNat(NatToString(n)) == n
  {
    if n >= 10 {
      var s := NatToString(n);
      assert s[..|s| - 1] == NatToString(n / 10);
      NatToStringRoundTrip(n / 10);
    }
  }

  /** The longest prefix of `s` made of digits (what a greedy `\d+` takes). */
  function DigitRun(s: string): (r: string)
    ensures AllDigits(r) && StartsWith(s, r)
    ensures |r| < |s| ==> !IsDigit(s[|r|])
  {
    if |s| > 0 && IsDigit(s[0]) then [s[0]] + DigitRun(s[1..]) else []
  }

  /** The digit run of a rendered number followed by a non-digit is exactly that rendering. */
  lemma {:induction false} DigitRunOfRendered(digits: string, rest: string)
    requires AllDigits(digits)
    requires rest == [] || !IsDigit(rest[0])
    ensures DigitRun(digits + rest) == digits
  {
    if digits != [] {
      assert (digits + rest)[1..] == digits[1..] + rest;
      DigitRunOfRendered(digits[1..], rest);
    } else {
      assert digits + rest == rest;
    }
  }

  /** Digits with single underscores between them, as Python's `int()` accepts them. */
  predicate UnderscoredDigits(s: string) {
    |s| > 0 && IsDigit(s[0]) && IsDigit(s[|s| - 1]) &&
    (forall i :: 0 <= i < |s| ==> IsDigit(s[i]) || s[i] == '_') &&
    (forall i :: 0 <= i < |s| - 1 ==> !(s[i] == '_' && s[i + 1] == '_'))
  }

  function RemoveUnderscores(s: string): (r: string)
    requires forall i :: 0 <= i < |s| ==> IsDigit(s[i]) || s[i] == '_'
    ensures AllDigits(r)
  {
    if s == [] then [] else (if s[0] == '_' then [] else [s[0]]) + RemoveUnderscores(s[1..])
  }

  /**
   * Python's `int(s)` on a string: surrounding whitespace, an optional sign and
   * decimal digits with single underscores between them. `None` is the
   * `ValueError` Python raises for anything else.
   */
  function ParseInt(s: string): (r: Option<int>)
  {
    var t := Strip(s);
    if t == [] then None
    else
      var negative := t[0] == '-';
      var body := if t[0] == '-' || t[0] == '+' then t[1..] else t;
      if !UnderscoredDigits(body) then None
      else
        var magnitude: int := DigitsToNat(RemoveUnderscores(body));
        var value: int := if negative then -magnitude else magnitude;
        Some(value)
  }

  /** `int(str(i)) == i`. */
  lemma ParseIntOfRendered(i: int)
    ensures ParseInt(IntToString(i)) == Some(i)
  {
    if i >= 0 {
      ParseNonNegative(i);
    } else {
      ParseNegative(i);
    }
  }

  lemma ParseNonNegative(n: nat)
    ensures ParseInt(NatToString(n)) == Some(n)
  {
    var digits := NatToString(n);
    RenderedDigits(n);
    StripOfStripped(digits);
    assert digits[0] != '-' && digits[0] != '+';
  }

  lemma ParseNegative(i: int)
    requires i < 0
    ensures ParseInt(IntToString(i)) == Some(i)
  {
    var digits := NatToString(-i);
    RenderedDigits(-i);
    var s := "-" + digits;
    assert s == IntToString(i);
    StripOfStripped(s);
    assert s[1..] == digits;
  }

  /** The rendering of a number is a valid `int()` body that denotes the number. */
  lemma RenderedDigits(n: nat)
    ensures UnderscoredDigits(NatToString(n))
    ensures DigitsToNat(RemoveUnderscores(NatToString(n))) == n
  {
    NoUnderscores(NatToString(n));
    NatToStringRoundTrip(n);
  }

  lemma {:induction false} NoUnderscores(s: string)
    requires AllDigits(s)
    ensures RemoveUnderscores(s) == s
  {
    if s != [] {
      NoUnderscores(s[1..]);
    }
  }

  /** Python's `sep.join(xs)`. */
  function Join(sep: string, xs: seq<string>): string {
    if |xs| == 0 then "" else if |xs| == 1 then xs[0] else xs[0] + sep + Join(sep, xs[1..])
  }
}
