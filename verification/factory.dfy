/** `FilterFactory::create_filter`: from a command-line token to a filter or an error. */
module Factory {
  import opened Wrappers
  import opened Decimal
  import opened Extraction
  import opened Filters

  /** The two `std::invalid_argument` exceptions the factory throws. */
  datatype FactoryError = InvalidGtFormat | UnknownFilter(token: string)

  /** The exception's `what()` text. */
  function Message(e: FactoryError): string {
    match e
    case InvalidGtFormat => "Invalid GT filter format"
    case UnknownFilter(token) => "Unknown filter: " + token
  }

  /** `filter_str.rfind("GT", 0) == 0`: the token starts with "GT". */
  predicate HasGtPrefix(token: string) {
    |token| >= 2 && token[0] == 'G' && token[1] == 'T'
  }

  /**
    Exact "EVEN" and "ODD" are tried before the "GT" prefix; the text after "GT"
    is read with `istream >> int`, and anything else is an unknown filter.
  */
  function CreateFilter(token: string): (r: Result<Filter, FactoryError>)
    ensures r == Ok(Even) <==> token == "EVEN"
    ensures r == Ok(Odd) <==> token == "ODD"
    ensures r.Ok? && r.value.GreaterThan? ==> HasGtPrefix(token) && IsInt32(r.value.threshold)
    ensures r == Err(UnknownFilter(token)) <==> token != "EVEN" && token != "ODD" && !HasGtPrefix(token)
    ensures r.Err? ==> r.error == InvalidGtFormat || r.error == UnknownFilter(token)
  {
    if token == "EVEN" then Ok(Even)
    else if token == "ODD" then Ok(Odd)
    else if HasGtPrefix(token) then
      match ExtractInt(token[2..])
      case Some(t) => Ok(GreaterThan(t))
      case None => Err(InvalidGtFormat)
    else Err(UnknownFilter(token))
  }

  /**
    "GT" followed by the decimal form of any `int` (optionally after white space and
    before trailing non-digits) builds the greater-than filter with that threshold.
  */
  lemma CreateFilterThreshold(ws: string, k: int, rest: string)
    requires AllSpace(ws) && IsInt32(k)
    requires rest == [] || !IsDigit(rest[0])
    ensures CreateFilter("GT" + ws + IntToString(k) + rest) == Ok(GreaterThan(k))
  {
    var arg := ws + IntToString(k) + rest;
    assert "GT" + ws + IntToString(k) + rest == "GT" + arg;
    ExtractIntRoundTrip(ws, k, rest);
    CreateFilterGt(arg);
  }

  /** A "GT" token with no digit after the prefix is a format error, not a filter. */
  lemma CreateFilterGtWithoutDigits(rest: string)
    requires NoDigits(rest)
    ensures CreateFilter("GT" + rest) == Err(InvalidGtFormat)
  {
    ExtractIntWithoutDigits(rest);
    CreateFilterGt(rest);
  }

  /**
    A "GT" token whose remainder does not begin with a number (after white space and an
    optional sign there is no digit) is a format error, whatever comes later.
  */
  lemma CreateFilterGtNotANumber(rest: string)
    requires var b := Unsigned(SkipSpace(rest)); b == [] || !IsDigit(b[0])
    ensures CreateFilter("GT" + rest) == Err(InvalidGtFormat)
  {
    ExtractIntRejectsNonNumber(rest);
    CreateFilterGt(rest);
  }

  /** After the "GT" prefix the factory's answer is exactly the extraction's. */
  lemma CreateFilterGt(rest: string)
    ensures CreateFilter("GT" + rest)
         == match ExtractInt(rest) case Some(t) => Ok(GreaterThan(t)) case None => Err(InvalidGtFormat)
  {
    var token := "GT" + rest;
    assert token[0] == 'G' && token[1] == 'T';
    assert token != "EVEN" && token != "ODD";
    assert token[2..] == rest;
  }

  /** A "GT" threshold that does not fit in `int` is a format error. */
  lemma CreateFilterGtOverflow(n: nat)
    requires n > IntMax
    ensures CreateFilter("GT" + NatToDigits(n)) == Err(InvalidGtFormat)
  {
    assert NatToDigits(n) + [] == NatToDigits(n);
    ExtractIntTooLarge(n, []);
    CreateFilterGt(NatToDigits(n));
  }

  /** Any other token is rejected with a message that repeats the token verbatim. */
  lemma UnknownFilterMessage(token: string)
    requires token != "EVEN" && token != "ODD" && !HasGtPrefix(token)
    ensures CreateFilter(token).Err?
    ensures Message(CreateFilter(token).error) == "Unknown filter: " + token
  {
  }

  lemma MinusFiveToken()
    ensures "GT" + "" + IntToString(-5) + "" == "GT-5"
  {
    assert NatToDigits(5) == [DigitChar(5)];
    assert IntToString(-5) == "-5";
  }

  /** "GT-5" builds the filter that keeps exactly the integers above -5. */
  lemma FactoryExampleNegative()
    ensures CreateFilter("GT-5") == Ok(GreaterThan(-5))
  {
    CreateFilterThreshold("", -5, "");
    MinusFiveToken();
  }

  /** "GT" alone is a format error. */
  lemma FactoryExampleBare()
    ensures CreateFilter("GT") == Err(InvalidGtFormat)
  {
    CreateFilterGtWithoutDigits("");
    assert "GT" + "" == "GT";
  }

  lemma LettersHaveNoDigits()
    ensures NoDigits("abc")
    ensures "GT" + "abc" == "GTabc"
  {
    var rest := "abc";
    assert rest[0] == 'a' && rest[1] == 'b' && rest[2] == 'c';
  }

  /** "GTabc" is a format error. */
  lemma FactoryExampleLetters()
    ensures CreateFilter("GTabc") == Err(InvalidGtFormat)
  {
    LettersHaveNoDigits();
    CreateFilterGtWithoutDigits("abc");
  }

  /** "XYZ" is an unknown filter. */
  lemma FactoryExampleUnknown()
    ensures CreateFilter("XYZ") == Err(UnknownFilter("XYZ"))
  {
  }
}
