/**
 Decimal digits: Python's `str(n)` for integers, the part of `int(float(s))`
 that reads a numeral, and the digit-run scanning the order-id regex relies on.
 Only the ASCII digits '0'..'9' are digits here.
 */
module Digits {
  import opened Wrappers

  predicate IsDigit(c: char) {
    '0' <= c <= '9'
  }

  predicate AllDigits(s: string) {
    forall k :: 0 <= k < |s| ==> IsDigit(s[k])
  }

  /** A digit string as `str` prints a non-negative integer: no leading zero unless it is "0". */
  predicate Canonical(s: string) {
    |s| > 0 && AllDigits(s) && (s[0] != '0' || |s| == 1)
  }

  function DigitValue(c: char): (d: nat)
    requires IsDigit(c)
    ensures d < 10
  {
    c as int - '0' as int
  }

  function DigitChar(d: nat): (c: char)
    requires d < 10
    ensures IsDigit(c) && DigitValue(c) == d
  {
    (d + '0' as int) as char
  }

  /** The end of the digit run that starts at `i`: the first index at or after `i` holding a non-digit. */
  function RunEnd(s: string, i: nat): (j: nat)
    requires i <= |s|
    ensures i <= j <= |s|
    ensures forall k :: i <= k < j ==> IsDigit(s[k])
    ensures j == |s| || !IsDigit(s[j])
    decreases |s| - i
  {
    if i == |s| || !IsDigit(s[i]) then i else RunEnd(s, i + 1)
  }

  /** The value of a digit string, most significant digit first. */
  function DigitsValue(s: string): nat
    requires AllDigits(s)
    decreases |s|
  {
    if |s| == 0 then 0 else 10 * DigitsValue(s[..|s| - 1]) + DigitValue(s[|s| - 1])
  }

  /** `str(n)` for a non-negative integer. */
  function NatToDigits(n: nat): (s: string)
    ensures Canonical(s)
    decreases n
  {
    if n < 10 then [DigitChar(n)] else NatToDigits(n / 10) + [DigitChar(n % 10)]
  }

  /** `str(n)` for any integer: a minus sign, then the digits of the magnitude. */
  function IntToDecimal(n: int): (s: string)
    ensures |s| > 0 && (s[0] == '-' || IsDigit(s[0]))
    ensures n >= 0 <==> Canonical(s)
    ensures n < 0 ==> s[0] == '-' && Canonical(s[1..])
  {
    if n < 0 then "-" + NatToDigits(-n) else NatToDigits(n)
  }

  /** `s[k]` is a decimal point with one or more digits before it and any digits after it. */
  predicate DecimalPointAt(s: string, k: int) {
    && 0 < k < |s|
    && s[k] == '.'
    && AllDigits(s[..k])
    && AllDigits(s[k + 1..])
  }

  /** An unsigned numeral: one or more digits, optionally followed by '.' and further digits. */
  predicate UnsignedNumeral(s: string) {
    || (|s| > 0 && AllDigits(s))
    || exists k :: 0 < k < |s| && DecimalPointAt(s, k)
  }

  /** The numerals the model reads: an unsigned numeral, optionally after a '-'. */
  predicate Numeral(s: string) {
    || UnsignedNumeral(s)
    || (|s| > 0 && s[0] == '-' && UnsignedNumeral(s[1..]))
  }

  /**
   `int(float(s))` on the numerals the model reads: the integral digits, with
   the fraction truncated away and the sign applied. Any other text is `None`,
   which the caller treats as the `ValueError` that `float` raises.
   */
  function ParseNumber(s: string): (r: Option<int>)
    ensures r.Some? <==> Numeral(s)
    ensures r.Some? ==> |s| > 0 && (s[0] == '-' || IsDigit(s[0]))
  {
    if |s| > 0 && s[0] == '-' then
      match ParseUnsigned(s[1..])
      case Some(v) => Some(0 - v as int)
      case None => None
    else
      ParseUnsigned(s)
  }

  /** Digits with an optional fractional part; the value is that of the integral digits. */
  function ParseUnsigned(s: string): (r: Option<nat>)
    ensures r.Some? <==> UnsignedNumeral(s)
    ensures r.Some? ==> |s| > 0 && IsDigit(s[0])
    ensures AllDigits(s) && |s| > 0 ==> r == Some(DigitsValue(s))
    ensures forall k :: DecimalPointAt(s, k) ==> r == Some(DigitsValue(s[..k]))
  {
    forall j | DecimalPointAt(s, j)
      ensures RunEnd(s, 0) == j
    {
      RunEndAt(s, 0, j);
    }
    var k := RunEnd(s, 0);
    if k == 0 then None
    else if k == |s| then (assert s[..k] == s; Some(DigitsValue(s)))
    else if s[k] == '.' && AllDigits(s[k + 1..]) then (assert DecimalPointAt(s, k); Some(DigitsValue(s[..k])))
    else None
  }

  /** A digit run that ends at a non-digit or at the end of the text ends where `RunEnd` says. */
  lemma {:induction false} RunEndAt(s: string, i: nat, j: int)
    requires i <= j <= |s|
    requires forall k :: i <= k < j ==> IsDigit(s[k])
    requires j == |s| || !IsDigit(s[j])
    ensures RunEnd(s, i) == j
    decreases j - i
  {
    if i < j {
      RunEndAt(s, i + 1, j);
    }
  }

  /** `int(float(s))` of a whole numeral: the value of its digits, with the sign applied. */
  lemma IntegerNumeralValue(d: string)
    requires |d| > 0 && AllDigits(d)
    ensures ParseNumber(d) == Some(DigitsValue(d) as int)
    ensures ParseNumber("-" + d) == Some(-(DigitsValue(d) as int))
  {
    SignedValue(d, DigitsValue(d));
  }

  /**
   `int(float(s))` of a numeral with a fraction, the point at `k`: the value of
   the integral digits `s[..k]`, the fraction truncated toward zero, the sign
   applied.
   */
  lemma FractionNumeralValue(s: string, k: nat)
    requires DecimalPointAt(s, k)
    ensures ParseNumber(s) == Some(DigitsValue(s[..k]) as int)
    ensures ParseNumber("-" + s) == Some(-(DigitsValue(s[..k]) as int))
  {
    SignedValue(s, DigitsValue(s[..k]));
  }

  /** An unsigned numeral reads the same with no sign, and negated after a '-'. */
  lemma SignedValue(s: string, v: nat)
    requires ParseUnsigned(s) == Some(v)
    ensures ParseNumber(s) == Some(v as int)
    ensures ParseNumber("-" + s) == Some(-(v as int))
  {
    assert ("-" + s)[1..] == s;
  }

  /** Reading back the digits `str` prints gives the number again. */
  lemma {:induction false} NatDigitsRoundTrip(n: nat)
    ensures DigitsValue(NatToDigits(n)) == n
    decreases n
  {
    var s := NatToDigits(n);
    if n >= 10 {
      assert s[..|s| - 1] == NatToDigits(n / 10);
      NatDigitsRoundTrip(n / 10);
    }
  }

  lemma {:induction false} LeadingDigitPositive(s: string)
    requires |s| > 0 && AllDigits(s) && s[0] != '0'
    ensures DigitsValue(s) > 0
    decreases |s|
  {
    if |s| > 1 {
      LeadingDigitPositive(s[..|s| - 1]);
    }
  }

  /** A canonical digit string is exactly what `str` prints for its value. */
  lemma {:induction false} CanonicalRoundTrip(s: string)
    requires Canonical(s)
    ensures NatToDigits(DigitsValue(s)) == s
    decreases |s|
  {
    var d := DigitValue(s[|s| - 1]);
    assert DigitChar(d) == s[|s| - 1];
    if |s| == 1 {
      assert DigitsValue(s) == d;
    } else {
      var p := s[..|s| - 1];
      LeadingDigitPositive(p);
      CanonicalRoundTrip(p);
      var v := DigitsValue(s);
      assert v == 10 * DigitsValue(p) + d;
      assert v / 10 == DigitsValue(p) && v % 10 == d;
      assert s == p + [s[|s| - 1]];
    }
  }

  /** Re-parsing the decimal string of an integer gives that integer back. */
  lemma DecimalRoundTrip(n: int)
    ensures ParseNumber(IntToDecimal(n)) == Some(n)
  {
    var s := IntToDecimal(n);
    if n < 0 {
      var t := NatToDigits(-n);
      assert s[1..] == t;
      NatDigitsRoundTrip(-n);
    } else {
      NatDigitsRoundTrip(n);
    }
  }
}
