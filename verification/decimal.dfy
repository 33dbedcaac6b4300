/** Decimal rendering of integers, as Python's `str(int)` and f-string interpolation produce it. */
module Decimal {

  predicate IsDigit(c: char) {
    '0' <= c <= '9'
  }

  predicate IsDigits(s: string) {
    forall i :: 0 <= i < |s| ==> IsDigit(s[i])
  }

  function DigitChar(d: nat): (c: char)
    requires d < 10
    ensures IsDigit(c)
    ensures c as int - '0' as int == d
  {
    ('0' as int + d) as char
  }

  function DigitValue(c: char): (d: nat)
    requires IsDigit(c)
    ensures d < 10
  {
    c as int - '0' as int
  }

  /** The digits of `n`, most significant first, with no leading zero. */
  function FromNat(n: nat): (s: string)
    ensures 1 <= |s|
    ensures IsDigits(s)
    ensures |s| > 1 ==> s[0] != '0'
  {
    if n < 10 then [DigitChar(n)] else FromNat(n / 10) + [DigitChar(n % 10)]
  }

  /** The number a string of digits denotes. */
  function ToNat(s: string): nat
    requires IsDigits(s)
  {
    if |s| == 0 then 0 else 10 * ToNat(s[..|s| - 1]) + DigitValue(s[|s| - 1])
  }

  /** Reading back the rendering of a number gives the number. */
  lemma {:induction false} FromNatRoundTrip(n: nat)
    ensures ToNat(FromNat(n)) == n
  {
    if n >= 10 {
      var s := FromNat(n);
      assert s[..|s| - 1] == FromNat(n / 10);
      FromNatRoundTrip(n / 10);
    }
  }

  /** Distinct numbers are rendered as distinct strings. */
  lemma FromNatInjective(a: nat, b: nat)
    requires FromNat(a) == FromNat(b)
    ensures a == b
  {
    FromNatRoundTrip(a);
    FromNatRoundTrip(b);
  }

  /** Python's `str(i)` for an `int`: a minus sign for negatives, then the digits. */
  function FromInt(i: int): string
  {
    if i < 0 then "-" + FromNat(-i) else FromNat(i)
  }

  /** A string `int(s)` accepts without a sign other than `-`: digits, optionally after a minus. */
  predicate IsNumeral(s: string) {
    IsDigits(s) || (|s| > 0 && s[0] == '-' && IsDigits(s[1..]))
  }

  /** The integer a numeral denotes. */
  function ToInt(s: string): int
    requires IsNumeral(s)
  {
    if |s| > 0 && s[0] == '-' then -(ToNat(s[1..]) as int) else ToNat(s)
  }

  /** Reading back the rendering of an integer, sign included, gives the integer. */
  lemma FromIntRoundTrip(i: int)
    ensures IsNumeral(FromInt(i)) && ToInt(FromInt(i)) == i
  {
    if i < 0 {
      assert FromInt(i)[1..] == FromNat(-i);
      FromNatRoundTrip(-i);
    } else {
      FromNatRoundTrip(i);
    }
  }
}
