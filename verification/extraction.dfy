/**
  Formatted extraction of an `int` from a character stream, as `std::istream >> int`
  does it with the default flags and the "C" locale (ISO C++ [istream.formatted.arithmetic]
  and [facet.num.get.virtuals]): leading white space is skipped, then an optional sign,
  then at least one decimal digit; extraction stops at the first non-digit, and a value
  outside the range of `int` sets failbit.
*/
module Extraction {
  import opened Wrappers
  import opened Decimal

  const IntMin: int := -0x8000_0000
  const IntMax: int := 0x7FFF_FFFF

  predicate IsInt32(v: int) {
    IntMin <= v <= IntMax
  }

  /** White space of the "C" locale: space, \t, \n, \v, \f, \r. */
  predicate IsSpace(c: char) {
    c == ' ' || c == '\t' || c == '\n' || c == 11 as char || c == 12 as char || c == '\r'
  }

  predicate AllSpace(s: string) {
    forall i :: 0 <= i < |s| ==> IsSpace(s[i])
  }

  /** What is left after the stream's sentry has skipped leading white space. */
  function SkipSpace(s: string): (r: string)
    ensures |r| <= |s| && r == s[|s| - |r|..]
    ensures AllSpace(s[..|s| - |r|])
    ensures r == [] || !IsSpace(r[0])
  {
    if s != [] && IsSpace(s[0]) then SkipSpace(s[1..]) else s
  }

  /** The longest prefix of `s` made of decimal digits. */
  function LeadingDigits(s: string): (r: string)
    ensures |r| <= |s| && r == s[..|r|]
    ensures AllDigits(r)
    ensures |r| == |s| || !IsDigit(s[|r|])
  {
    if s != [] && IsDigit(s[0]) then [s[0]] + LeadingDigits(s[1..]) else []
  }

  /** `iss >> n`: the extracted value, or None when failbit is set. */
  function ExtractInt(s: string): (r: Option<int>)
    ensures r.Some? ==> IsInt32(r.value)
  {
    ExtractSigned(SkipSpace(s))
  }

  /** Stage two of `num_get` once white space is gone: an optional sign, then the digits. */
  function ExtractSigned(t: string): (r: Option<int>)
    ensures r.Some? ==> IsInt32(r.value)
  {
    if |t| > 0 && t[0] == '-' then ExtractDigits(t[1..], true)
    else if |t| > 0 && t[0] == '+' then ExtractDigits(t[1..], false)
    else ExtractDigits(t, false)
  }

  /** The longest run of leading digits, negated if a minus sign preceded it, range-checked. */
  function ExtractDigits(body: string, negative: bool): (r: Option<int>)
    ensures r.Some? ==> IsInt32(r.value)
  {
    var digits := LeadingDigits(body);
    if digits == [] then None
    else
      var magnitude: int := DigitsValue(digits);
      Checked(if negative then -magnitude else magnitude)
  }

  /** The range check of [istream.formatted.arithmetic]: a value outside `int` sets failbit. */
  function Checked(v: int): (r: Option<int>)
    ensures r.Some? <==> IsInt32(v)
    ensures r.Some? ==> r.value == v
  {
    if IsInt32(v) then Some(v) else None
  }

  lemma {:induction false} SkipSpacePrefix(ws: string, t: string)
    requires AllSpace(ws)
    requires t == [] || !IsSpace(t[0])
    ensures SkipSpace(ws + t) == t
  {
    if ws == [] {
      assert ws + t == t;
    } else {
      assert (ws + t)[1..] == ws[1..] + t;
      SkipSpacePrefix(ws[1..], t);
    }
  }

  lemma {:induction false} LeadingDigitsPrefix(d: string, rest: string)
    requires AllDigits(d)
    requires rest == [] || !IsDigit(rest[0])
    ensures LeadingDigits(d + rest) == d
  {
    if d == [] {
      assert d + rest == rest;
    } else {
      assert (d + rest)[0] == d[0];
      assert (d + rest)[1..] == d[1..] + rest;
      LeadingDigitsPrefix(d[1..], rest);
      assert d == [d[0]] + d[1..];
    }
  }

  /** The digits of `n` followed by a non-digit extract as `n`, negated when asked, if it fits. */
  lemma ExtractDigitsOf(n: nat, rest: string, negative: bool)
    requires rest == [] || !IsDigit(rest[0])
    ensures ExtractDigits(NatToDigits(n) + rest, negative) == Checked(if negative then -(n as int) else n)
  {
    LeadingDigitsPrefix(NatToDigits(n), rest);
    DigitsRoundTrip(n);
  }

  /**
    Extraction inverts printing: white space, then the decimal form of any `int`,
    then anything that does not continue the number, reads back as that `int`.
  */
  lemma ExtractIntRoundTrip(ws: string, k: int, rest: string)
    requires AllSpace(ws) && IsInt32(k)
    requires rest == [] || !IsDigit(rest[0])
    ensures ExtractInt(ws + IntToString(k) + rest) == Some(k)
  {
    var t := IntToString(k) + rest;
    assert ws + IntToString(k) + rest == ws + t;
    assert t[0] == IntToString(k)[0];
    SkipSpacePrefix(ws, t);
    ExtractSignedOf(k, rest);
  }

  /** Digits straight after the skipped white space: no sign, so the value is positive. */
  lemma ExtractSignedUnsigned(n: nat, rest: string)
    requires rest == [] || !IsDigit(rest[0])
    ensures ExtractSigned(NatToDigits(n) + rest) == Checked(n)
  {
    var t := NatToDigits(n) + rest;
    assert t[0] == NatToDigits(n)[0];
    ExtractDigitsOf(n, rest, false);
  }

  /** A minus sign, then digits: the value is negated before the range check. */
  lemma ExtractSignedMinus(n: nat, rest: string)
    requires rest == [] || !IsDigit(rest[0])
    ensures ExtractSigned("-" + NatToDigits(n) + rest) == Checked(-(n as int))
  {
    var t := "-" + NatToDigits(n) + rest;
    assert t[0] == '-' && t[1..] == NatToDigits(n) + rest;
    ExtractDigitsOf(n, rest, true);
  }

  /** A plus sign, then digits. */
  lemma ExtractSignedPlus(n: nat, rest: string)
    requires rest == [] || !IsDigit(rest[0])
    ensures ExtractSigned("+" + NatToDigits(n) + rest) == Checked(n)
  {
    var t := "+" + NatToDigits(n) + rest;
    assert t[0] == '+' && t[1..] == NatToDigits(n) + rest;
    ExtractDigitsOf(n, rest, false);
  }

  /** Input that starts with a character other than white space is not skipped at all. */
  lemma SkipSpaceNone(s: string)
    requires s != [] && !IsSpace(s[0])
    ensures SkipSpace(s) == s
  {
  }

  lemma ExtractSignedOf(k: int, rest: string)
    requires IsInt32(k)
    requires rest == [] || !IsDigit(rest[0])
    ensures ExtractSigned(IntToString(k) + rest) == Some(k)
  {
    if k < 0 {
      assert IntToString(k) + rest == "-" + NatToDigits(-k) + rest;
      ExtractSignedMinus(-k, rest);
    } else {
      assert IntToString(k) + rest == NatToDigits(k) + rest;
      ExtractSignedUnsigned(k, rest);
    }
  }

  /** An explicit plus sign is accepted too. */
  lemma ExtractIntPlusSign(n: nat, rest: string)
    requires n <= IntMax
    requires rest == [] || !IsDigit(rest[0])
    ensures ExtractInt("+" + NatToDigits(n) + rest) == Some(n)
  {
    var s := "+" + NatToDigits(n) + rest;
    assert s[0] == '+';
    SkipSpaceNone(s);
    ExtractSignedPlus(n, rest);
  }

  /** A magnitude above `INT_MAX` is a failed extraction, whatever follows it. */
  lemma ExtractIntTooLarge(n: nat, rest: string)
    requires n > IntMax
    requires rest == [] || !IsDigit(rest[0])
    ensures ExtractInt(NatToDigits(n) + rest) == None
  {
    var s := NatToDigits(n) + rest;
    assert s[0] == NatToDigits(n)[0];
    SkipSpaceNone(s);
    ExtractSignedUnsigned(n, rest);
  }

  /** A negative value below `INT_MIN` is a failed extraction, whatever follows it. */
  lemma ExtractIntTooSmall(n: nat, rest: string)
    requires n > -IntMin
    requires rest == [] || !IsDigit(rest[0])
    ensures ExtractInt("-" + NatToDigits(n) + rest) == None
  {
    var s := "-" + NatToDigits(n) + rest;
    assert s[0] == '-';
    SkipSpaceNone(s);
    ExtractSignedMinus(n, rest);
  }

  /** What follows the skipped white space once an optional sign is dropped. */
  function Unsigned(t: string): (r: string)
    ensures |r| <= |t| && r == t[|t| - |r|..]
  {
    if |t| > 0 && (t[0] == '-' || t[0] == '+') then t[1..] else t
  }

  /** Input without any decimal digit always sets failbit. */
  lemma ExtractIntWithoutDigits(s: string)
    requires NoDigits(s)
    ensures ExtractInt(s) == None
  {
    if ExtractInt(s).Some? {
      ExtractIntNeedsDigit(s);
    }
  }

  /**
    A successful extraction read a number: right after the white space and the optional
    sign comes a decimal digit, and the value is that of the leading digits, negated
    exactly when the sign was a minus.
  */
  lemma ExtractIntNeedsDigit(s: string)
    requires ExtractInt(s).Some?
    ensures var t := SkipSpace(s); var b := Unsigned(t);
      && b != [] && IsDigit(b[0])
      && ExtractInt(s).value
         == (if |t| > 0 && t[0] == '-' then -(DigitsValue(LeadingDigits(b)) as int) else DigitsValue(LeadingDigits(b)))
  {
    var t := SkipSpace(s);
    SignedIsDigits(t);
    DigitsNeedDigit(Unsigned(t), |t| > 0 && t[0] == '-');
  }

  lemma DigitsNeedDigit(b: string, negative: bool)
    requires ExtractDigits(b, negative).Some?
    ensures b != [] && IsDigit(b[0])
    ensures ExtractDigits(b, negative).value
         == (if negative then -(DigitsValue(LeadingDigits(b)) as int) else DigitsValue(LeadingDigits(b)))
  {
    assert LeadingDigits(b) != [];
    assert LeadingDigits(b)[0] == b[0];
  }

  lemma SignedIsDigits(t: string)
    ensures ExtractSigned(t) == ExtractDigits(Unsigned(t), |t| > 0 && t[0] == '-')
  {
  }

  lemma DigitsAccept(b: string, negative: bool)
    requires b != [] && IsDigit(b[0])
    requires IsInt32(if negative then -(DigitsValue(LeadingDigits(b)) as int) else DigitsValue(LeadingDigits(b)))
    ensures ExtractDigits(b, negative).Some?
  {
    assert LeadingDigits(b)[0] == b[0];
  }

  /**
    The converse of `ExtractIntNeedsDigit`: whenever a digit follows the white space and
    the optional sign and the signed value of the leading digits fits in `int`, extraction
    succeeds, whatever the spelling ("007", "-0", " +5") and whatever follows the digits.
  */
  lemma ExtractIntAccepts(s: string)
    requires var t := SkipSpace(s); var b := Unsigned(t);
      && b != [] && IsDigit(b[0])
      && IsInt32(if |t| > 0 && t[0] == '-' then -(DigitsValue(LeadingDigits(b)) as int) else DigitsValue(LeadingDigits(b)))
    ensures ExtractInt(s).Some?
  {
    var t := SkipSpace(s);
    SignedIsDigits(t);
    DigitsAccept(Unsigned(t), |t| > 0 && t[0] == '-');
  }

  /**
    Input whose first character after the white space and the optional sign is not a
    decimal digit (a letter, a second sign, a space after the sign, or nothing) sets failbit.
  */
  lemma ExtractIntRejectsNonNumber(s: string)
    requires var b := Unsigned(SkipSpace(s)); b == [] || !IsDigit(b[0])
    ensures ExtractInt(s) == None
  {
    if ExtractInt(s).Some? {
      ExtractIntNeedsDigit(s);
    }
  }
}
