/** Decimal integers as text: `str(n)` for an `int` and Python's `int(s)`
    on a string, both used for form indices, page sizes and query strings. */
module Numerals {
  import opened Wrappers

  predicate IsDigit(c: char) { '0' <= c <= '9' }

  predicate AllDigits(s: string) { forall i :: 0 <= i < |s| ==> IsDigit(s[i]) }

  /** The whitespace `int()` strips around its argument (ASCII only). */
  predicate IsSpace(c: char) { c == ' ' || c == '\t' || c == '\n' || c == '\r' || c == '\U{0B}' || c == '\U{0C}' }

  function DigitChar(d: int): (c: char)
    requires 0 <= d < 10
    ensures IsDigit(c) && c as int - '0' as int == d
  {
    ('0' as int + d) as char
  }

  /** Decimal digits of a natural number, most significant first, no leading zeros. */
  function NatToString(n: nat): (s: string)
    decreases n
  {
    if n < 10 then [DigitChar(n)] else NatToString(n / 10) + [DigitChar(n % 10)]
  }

  /** `str(n)` for a Python `int`. */
  function IntToString(n: int): string {
    if n < 0 then "-" + NatToString(-n) else NatToString(n)
  }

  /** The value of a non-empty run of decimal digits. */
  function DigitsValue(s: string): nat
    requires AllDigits(s)
  {
    if s == [] then 0 else DigitsValue(s[..|s| - 1]) * 10 + (s[|s| - 1] as int - '0' as int)
  }

  function StripLeft(s: string): (t: string)
    ensures |t| <= |s|
  {
    if s != [] && IsSpace(s[0]) then StripLeft(s[1..]) else s
  }

  function StripRight(s: string): (t: string)
    ensures |t| <= |s|
  {
    if s != [] && IsSpace(s[|s| - 1]) then StripRight(s[..|s| - 1]) else s
  }

  /** `int(s)` on a string: optional surrounding whitespace, an optional sign
      and at least one decimal digit; anything else is the ValueError case. */
  function ParseInt(s: string): Option<int> {
    ParseStripped(StripRight(StripLeft(s)))
  }

  /** `int(s)` once the surrounding whitespace is gone. */
  function ParseStripped(t: string): Option<int> {
    if |t| >= 2 && (t[0] == '-' || t[0] == '+') && AllDigits(t[1..]) then
      Some(if t[0] == '-' then -(DigitsValue(t[1..]) as int) else DigitsValue(t[1..]))
    else if |t| >= 1 && AllDigits(t) then
      Some(DigitsValue(t))
    else
      None
  }

  lemma {:induction false} NatToStringDigits(n: nat)
    ensures |NatToString(n)| >= 1
    ensures AllDigits(NatToString(n))
    ensures DigitsValue(NatToString(n)) == n
    decreases n
  {
    if n >= 10 {
      NatToStringDigits(n / 10);
      var s := NatToString(n);
      assert s[..|s| - 1] == NatToString(n / 10);
    }
  }

  lemma StripUnchanged(s: string)
    requires s != [] && !IsSpace(s[0]) && !IsSpace(s[|s| - 1])
    ensures StripRight(StripLeft(s)) == s
  {
  }

  /** Reading back what `str` wrote gives the same integer: `int(str(n)) == n`. */
  lemma IntRoundTrip(n: int)
    ensures ParseInt(IntToString(n)) == Some(n)
  {
    if n < 0 {
      NegativeRoundTrip(-n);
    } else {
      NatRoundTrip(n);
    }
  }

  lemma NatRoundTrip(n: nat)
    ensures ParseInt(NatToString(n)) == Some(n)
  {
    NatToStringDigits(n);
    var d := NatToString(n);
    assert IsDigit(d[0]) && IsDigit(d[|d| - 1]);
    StripUnchanged(d);
    assert !(d[0] == '-' || d[0] == '+');
  }

  lemma NegativeRoundTrip(m: nat)
    requires m > 0
    ensures ParseInt("-" + NatToString(m)) == Some(-(m as int))
  {
    NatToStringDigits(m);
    NegativeDigits(NatToString(m));
  }

  /** A minus sign followed by digits reads as the negated digits. */
  lemma NegativeDigits(d: string)
    requires |d| >= 1 && AllDigits(d)
    ensures ParseInt("-" + d) == Some(-(DigitsValue(d) as int))
  {
    var s := "-" + d;
    assert s[0] == '-' && s[|s| - 1] == d[|d| - 1] && s[1..] == d;
    assert IsDigit(d[|d| - 1]);
    StripUnchanged(s);
    StrippedNegative(s);
  }

  lemma StrippedNegative(t: string)
    requires |t| >= 2 && t[0] == '-' && AllDigits(t[1..])
    ensures ParseStripped(t) == Some(-(DigitsValue(t[1..]) as int))
  {
  }

  function Pow10(k: nat): (r: int)
    ensures r >= 1
  {
    if k == 0 then 1 else 10 * Pow10(k - 1)
  }

  /** Where the first '.' of `s` is, if any. */
  function DotAt(s: string): (r: Option<nat>)
    ensures r.Some? ==> r.value < |s| && s[r.value] == '.' && '.' !in s[..r.value]
    ensures r.None? ==> '.' !in s
  {
    if s == [] then None
    else if s[0] == '.' then Some(0)
    else match DotAt(s[1..])
      case None => None
      case Some(i) => assert s[..i + 1] == [s[0]] + s[1..][..i]; Some(i + 1)
  }

  /** An unsigned decimal numeral `digits[.digits]` with at least one digit,
      as the fraction `value / 10^k` with `k` the number of decimals. */
  function UnsignedDecimal(s: string): Option<(int, nat)> {
    match DotAt(s)
    case None => if |s| >= 1 && AllDigits(s) then Some((DigitsValue(s) as int, 0)) else None
    case Some(i) =>
      var whole := s[..i];
      var frac := s[i + 1..];
      if |whole| + |frac| >= 1 && AllDigits(whole + frac) then
        Some((DigitsValue(whole + frac) as int, |frac|))
      else None
  }

  /** `float(s)` for plain decimal notation: optional surrounding whitespace,
      an optional sign, digits with at most one decimal point. The result is
      the exact value `(numerator, 10^decimals)`. */
  function ParseDecimal(s: string): Option<(int, nat)> {
    var t := StripRight(StripLeft(s));
    if |t| >= 1 && (t[0] == '-' || t[0] == '+') then
      match UnsignedDecimal(t[1..])
      case None => None
      case Some((v, k)) => Some((if t[0] == '-' then -v else v, k))
    else UnsignedDecimal(t)
  }

  /** Without a decimal point `float(s)` accepts exactly what `int(s)`
      accepts, with the same value. */
  lemma DecimalAgreesWithInt(s: string)
    requires '.' !in s
    ensures ParseDecimal(s).Some? <==> ParseInt(s).Some?
    ensures ParseInt(s).Some? ==> ParseDecimal(s) == Some((ParseInt(s).value, 0))
  {
    var t := StripRight(StripLeft(s));
    StripKeeps(s, '.');
    if |t| >= 1 && (t[0] == '-' || t[0] == '+') {
      assert '.' !in t[1..];
    }
  }

  /** Stripping whitespace only removes characters. */
  lemma {:induction false} StripKeeps(s: string, c: char)
    requires c !in s
    ensures c !in StripRight(StripLeft(s))
  {
    StripLeftKeeps(s, c);
    StripRightKeeps(StripLeft(s), c);
  }

  lemma {:induction false} StripLeftKeeps(s: string, c: char)
    requires c !in s
    ensures c !in StripLeft(s)
    decreases |s|
  {
    if s != [] && IsSpace(s[0]) {
      assert c !in s[1..];
      StripLeftKeeps(s[1..], c);
    }
  }

  lemma {:induction false} StripRightKeeps(s: string, c: char)
    requires c !in s
    ensures c !in StripRight(s)
    decreases |s|
  {
    if s != [] && IsSpace(s[|s| - 1]) {
      assert c !in s[..|s| - 1];
      StripRightKeeps(s[..|s| - 1], c);
    }
  }
}
