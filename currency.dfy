/** CurrencyType: the supported currencies and the lookup by abbreviation code. */
module Currency {
  import opened Results

  datatype CurrencyType = EUR | USD | TRY

  /** getCode() */
  function Code(c: CurrencyType): string {
    match c
    case EUR => "EUR"
    case USD => "USD"
    case TRY => "TRY"
  }

  /** values(), in declaration order */
  function Values(): seq<CurrencyType> {
    [EUR, USD, TRY]
  }

  /** Character.toUpperCase restricted to ASCII letters. */
  function UpperAscii(ch: char): char {
    if 'a' <= ch <= 'z' then (ch as int - 32) as char else ch
  }

  /** String.equalsIgnoreCase for ASCII text; a null argument never matches. */
  predicate EqualsIgnoreCase(a: string, b: Option<string>) {
    b.Some? && |a| == |b.value| && forall i :: 0 <= i < |a| ==> UpperAscii(a[i]) == UpperAscii(b.value[i])
  }

  /** filter(code matches).findFirst() over cs */
  function FindFirst(cs: seq<CurrencyType>, code: Option<string>): (r: Option<CurrencyType>)
    ensures r.Some? ==> r.value in cs && EqualsIgnoreCase(Code(r.value), code)
    ensures r.Some? ==> exists i :: (0 <= i < |cs| && cs[i] == r.value
      && forall j :: 0 <= j < i ==> !EqualsIgnoreCase(Code(cs[j]), code))
    ensures r.None? <==> forall c :: c in cs ==> !EqualsIgnoreCase(Code(c), code)
  {
    if cs == [] then None
    else if EqualsIgnoreCase(Code(cs[0]), code) then Some(cs[0])
    else
      var r := FindFirst(cs[1..], code);
      if r.Some? then
        var i :| 0 <= i < |cs[1..]| && cs[1..][i] == r.value
          && forall j :: 0 <= j < i ==> !EqualsIgnoreCase(Code(cs[1..][j]), code);
        assert cs[i + 1] == r.value;
        r
      else
        assert forall c :: c in cs ==> c == cs[0] || c in cs[1..];
        r
  }

  /** byCode: the first constant whose code equals `code` ignoring case, else
      EnumConstantNotPresentException carrying the code. */
  function ByCode(code: Option<string>): (r: Result<CurrencyType>)
    ensures r.Ok? ==> EqualsIgnoreCase(Code(r.value), code)
    ensures r.Err? <==> forall c: CurrencyType :: !EqualsIgnoreCase(Code(c), code)
    ensures r.Err? ==> r.error == EnumConstantNotPresent(code)
  {
    var found := FindFirst(Values(), code);
    forall c: CurrencyType ensures c in Values() {
      assert c == Values()[if c == EUR then 0 else if c == USD then 1 else 2];
    }
    match found
    case Some(c) => Ok(c)
    case None => Err(EnumConstantNotPresent(code))
  }

  /** Distinct constants have codes that differ even ignoring case. */
  lemma CodesDistinct(c: CurrencyType, d: CurrencyType)
    requires EqualsIgnoreCase(Code(c), Some(Code(d)))
    ensures c == d
  {
    // the first letters E, U and T already differ
    assert UpperAscii(Code(c)[0]) == UpperAscii(Code(d)[0]);
  }

  /** byCode(c.getCode()) == c */
  lemma ByCodeRoundTrip(c: CurrencyType)
    ensures ByCode(Some(Code(c))) == Ok(c)
  {
    assert EqualsIgnoreCase(Code(c), Some(Code(c)));
    var r := ByCode(Some(Code(c)));
    CodesDistinct(r.value, c);
  }

  /** byCode matches regardless of case ("usd" resolves to USD). */
  lemma ByCodeIgnoresCase()
    ensures ByCode(Some("usd")) == Ok(USD)
    ensures ByCode(Some("Eur")) == Ok(EUR)
  {
    assert EqualsIgnoreCase(Code(USD), Some("usd"));
    CodesDistinct(ByCode(Some("usd")).value, USD);
    assert EqualsIgnoreCase(Code(EUR), Some("Eur"));
    CodesDistinct(ByCode(Some("Eur")).value, EUR);
  }

  /** An unknown or null code raises EnumConstantNotPresentException. */
  lemma ByCodeUnknown()
    ensures ByCode(Some("RUB")) == Err(EnumConstantNotPresent(Some("RUB")))
    ensures ByCode(None) == Err(EnumConstantNotPresent(None))
  {
    assert UpperAscii('R') != UpperAscii('E') && UpperAscii('R') != UpperAscii('U') && UpperAscii('R') != UpperAscii('T');
    assert forall c: CurrencyType :: !EqualsIgnoreCase(Code(c), Some("RUB")) by {
      forall c: CurrencyType ensures !EqualsIgnoreCase(Code(c), Some("RUB")) {
        assert UpperAscii(Code(c)[0]) != UpperAscii("RUB"[0]);
      }
    }
  }
}
