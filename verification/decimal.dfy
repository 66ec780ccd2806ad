/**
  Decimal text of integers: the digits that `std::cout << n` prints for an `int`,
  and the value a run of decimal digits denotes when it is read back.
*/
module Decimal {

  predicate IsDigit(c: char) {
    '0' <= c <= '9'
  }

  predicate AllDigits(s: string) {
    forall i :: 0 <= i < |s| ==> IsDigit(s[i])
  }

  predicate NoDigits(s: string) {
    forall i :: 0 <= i < |s| ==> !IsDigit(s[i])
  }

  function DigitValue(c: char): (d: nat)
    requires IsDigit(c)
    ensures d < 10
  {
    c as int - '0' as int
  }

  function DigitChar(d: nat): (c: char)
    requires d < 10
    ensures IsDigit(c) && DigitValue(c) == d
  {
    ('0' as int + d) as char
  }

  /** The value of a digit string, most significant digit first. */
  function DigitsValue(s: string): (v: nat)
    requires AllDigits(s)
  {
    if s == [] then 0
    else DigitsValue(s[..|s| - 1]) * 10 + DigitValue(s[|s| - 1])
  }

  /** The shortest decimal spelling of `n`: no leading zero except for `0` itself. */
  function NatToDigits(n: nat): (s: string)
    ensures |s| > 0 && AllDigits(s)
    ensures s[0] == '0' ==> n == 0
  {
    if n < 10 then [DigitChar(n)]
    else NatToDigits(n / 10) + [DigitChar(n % 10)]
  }

  /** What `operator<<(int)` writes: an optional minus sign, then the digits of |k|. */
  function IntToString(k: int): (s: string)
    ensures |s| > 0
    ensures s[0] == '-' <==> k < 0
    ensures k >= 0 ==> AllDigits(s)
    ensures k < 0 ==> AllDigits(s[1..])
  {
    if k < 0 then "-" + NatToDigits(-k) else NatToDigits(k)
  }

  /** The signed value of an optional minus sign followed by digits (no range limit). */
  function SignedValue(s: string): int
    requires |s| > 0
    requires if s[0] == '-' then AllDigits(s[1..]) else AllDigits(s)
  {
    if s[0] == '-' then -(DigitsValue(s[1..]) as int) else DigitsValue(s)
  }

  /** Reading the digits of `n` gives back `n`. */
  lemma {:induction false} DigitsRoundTrip(n: nat)
    ensures DigitsValue(NatToDigits(n)) == n
  {
    if n >= 10 {
      var p := NatToDigits(n / 10);
      var s := NatToDigits(n);
      assert s == p + [DigitChar(n % 10)];
      assert s[..|s| - 1] == p;
      DigitsRoundTrip(n / 10);
    }
  }

  /** The printed form of every integer reads back as that integer. */
  lemma IntToStringRoundTrip(k: int)
    ensures SignedValue(IntToString(k)) == k
  {
    var s := IntToString(k);
    if k < 0 {
      assert s[1..] == NatToDigits(-k);
      DigitsRoundTrip(-k);
    } else {
      DigitsRoundTrip(k);
    }
  }

  /** Distinct integers print differently. */
  lemma IntToStringInjective(a: int, b: int)
    requires IntToString(a) == IntToString(b)
    ensures a == b
  {
    IntToStringRoundTrip(a);
    IntToStringRoundTrip(b);
  }
}
