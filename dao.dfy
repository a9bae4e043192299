/** The rate data access layer: the RatePredictionDao queries the predictors use, and
    CsvCBRFRatePredictionDao, which loads one CSV resource per currency, keeps the
    mapped rows in a cache and answers every query from a copy of the cached list. */
module Dao {
  import opened Dates
  import opened Results
  import opened Rates
  import opened Currency

  // ---------------------------------------------------------------------------
  // The RatePredictionDao interface as the predictors see it

  /** findAllByCurrencyType, findByCurrencyTypeAndDate and getFirstOrderByDateDesc.
      An exception thrown by an implementation is an Err result. */
  datatype RatePredictionDao = RatePredictionDao(
    findAll: CurrencyType -> Result<seq<RatePrediction>>,
    findByDate: (CurrencyType, Date) -> Result<Option<RatePrediction>>,
    firstOrderByDateDesc: (CurrencyType, int) -> Result<seq<RatePrediction>>)

  // ---------------------------------------------------------------------------
  // Queries over one currency's series

  /** stream().filter(date equals d).findFirst() */
  function FindByDate(points: seq<RatePrediction>, d: Date): (r: Option<RatePrediction>)
    ensures r.Some? ==> r.value.date == d
    ensures r.Some? ==> exists i :: (0 <= i < |points| && points[i] == r.value
      && forall j :: 0 <= j < i ==> points[j].date != d)
    ensures r.None? <==> forall i :: 0 <= i < |points| ==> points[i].date != d
  {
    if points == [] then None
    else if points[0].date == d then Some(points[0])
    else
      var r := FindByDate(points[1..], d);
      if r.Some? then
        var i :| 0 <= i < |points[1..]| && points[1..][i] == r.value
          && forall j :: 0 <= j < i ==> points[1..][j].date != d;
        assert points[i + 1] == r.value;
        r
      else
        assert forall i :: 1 <= i < |points| ==> points[i] == points[1..][i - 1];
        r
  }

  function Min(a: int, b: int): int {
    if a <= b then a else b
  }

  /** stream().sorted(BY_DATE_DESC).limit(count): Stream.limit rejects a negative size. */
  function FirstOrderByDateDesc(points: seq<RatePrediction>, count: int): (r: Result<seq<RatePrediction>>)
    ensures count < 0 <==> r == Err(IllegalArgument(NegativeLimit))
    ensures r.Ok? ==> |r.value| == Min(count, |points|)
    ensures r.Ok? ==> IsSortedByDate(r.value, true)
    ensures r.Ok? ==> multiset(r.value) <= multiset(points)
  {
    if count < 0 then Err(IllegalArgument(NegativeLimit))
    else
      var sorted := SortByDate(points, true);
      var r := sorted[..Min(count, |points|)];
      assert sorted == r + sorted[Min(count, |points|)..];
      SortedPrefix(sorted, true, Min(count, |points|));
      Ok(r)
  }

  /** The points getFirstOrderByDateDesc leaves out are no later than any point it returns. */
  lemma FirstOrderByDateDescIsLatest(points: seq<RatePrediction>, count: int, x: RatePrediction, y: RatePrediction)
    requires count >= 0
    requires x in multiset(points) - multiset(FirstOrderByDateDesc(points, count).value)
    requires y in FirstOrderByDateDesc(points, count).value
    ensures !IsBefore(y.date, x.date)
  {
    var sorted := SortByDate(points, true);
    var n := Min(count, |points|);
    assert sorted == sorted[..n] + sorted[n..];
    assert multiset(points) == multiset(sorted[..n]) + multiset(sorted[n..]);
    assert x in sorted[n..];
    SortedSplit(sorted, true, n, y, x);
  }

  /** With a count of at least the series length the whole series comes back, latest first. */
  lemma FirstOrderByDateDescAll(points: seq<RatePrediction>, count: int)
    requires count >= |points|
    ensures multiset(FirstOrderByDateDesc(points, count).value) == multiset(points)
  {
    var sorted := SortByDate(points, true);
    assert sorted[..|points|] == sorted;
  }

  // ---------------------------------------------------------------------------
  // Row mapping (fromRateCBRFCsvRow)

  /** A BigDecimal: unscaled value and scale. */
  datatype Decimal = Decimal(unscaled: int, scale: nat)

  function Value(d: Decimal): real {
    d.unscaled as real / Pow10(d.scale) as real
  }

  /** A CSV row after binding: the nominal stays text, the date and the rate are parsed. */
  datatype CsvRow = CsvRow(nominal: string, date: Date, rate: Decimal)

  /** String.replaceAll(",", "") */
  function StripCommas(s: string): (r: string)
    ensures ',' !in r
    ensures forall ch {:trigger multiset(s)[ch]} :: ch != ',' ==> multiset(r)[ch] == multiset(s)[ch]
  {
    if s == [] then []
    else
      assert s == [s[0]] + s[1..];
      if s[0] == ',' then StripCommas(s[1..]) else [s[0]] + StripCommas(s[1..])
  }

  /** Removing the commas works character by character: a comma is dropped, any other
      character is kept, and the pieces stay in their order. */
  lemma StripCommasChar(ch: char)
    ensures StripCommas([ch]) == if ch == ',' then [] else [ch]
  {
  }

  lemma {:induction false} StripCommasAppend(a: string, b: string)
    ensures StripCommas(a + b) == StripCommas(a) + StripCommas(b)
  {
    if a != [] {
      assert (a + b)[1..] == a[1..] + b;
      StripCommasAppend(a[1..], b);
    } else {
      assert a + b == b;
    }
  }

  lemma {:induction false} StripCommasIdentity(s: string)
    requires ',' !in s
    ensures StripCommas(s) == s
  {
    if s != [] {
      assert s[1..] == s[1..];
      StripCommasIdentity(s[1..]);
    }
  }

  predicate IsDigit(ch: char) {
    '0' <= ch <= '9'
  }

  predicate AllDigits(s: string) {
    forall i :: 0 <= i < |s| ==> IsDigit(s[i])
  }

  /** The value of a string of decimal digits. */
  function DigitsValue(s: string): nat
    requires AllDigits(s)
  {
    if s == [] then 0 else 10 * DigitsValue(s[..|s| - 1]) + (s[|s| - 1] as int - '0' as int)
  }

  /** The position of the first '.' in s, or |s|. */
  function DotIndex(s: string): (i: nat)
    ensures i <= |s|
    ensures forall j :: 0 <= j < i ==> s[j] != '.'
    ensures i < |s| ==> s[i] == '.'
  {
    if s == [] then 0 else if s[0] == '.' then 0 else 1 + DotIndex(s[1..])
  }

  /** new BigDecimal(String) for the plain notation: an optional sign, digits and an
      optional fraction; at least one digit; None stands for NumberFormatException.
      The scale is the number of fraction digits. */
  function ParseDecimal(s: string): (r: Option<Decimal>)
    ensures r.Some? ==> r.value.scale < |s|
  {
    var body := if |s| > 0 && (s[0] == '-' || s[0] == '+') then s[1..] else s;
    match ParseUnsigned(body)
    case None => None
    case Some(d) => Some(Decimal(if |s| > 0 && s[0] == '-' then -d.unscaled else d.unscaled, d.scale))
  }

  /** The unsigned part of the plain notation: digits, then optionally '.' and digits. */
  function ParseUnsigned(body: string): (r: Option<Decimal>)
    ensures r.Some? ==> r.value.unscaled >= 0 && r.value.scale < |body|
  {
    var dot := DotIndex(body);
    var intPart := body[..dot];
    var fracPart := if dot < |body| then body[dot + 1..] else "";
    if AllDigits(intPart) && AllDigits(fracPart) && |intPart| + |fracPart| > 0 then
      assert AllDigits(intPart + fracPart);
      Some(Decimal(DigitsValue(intPart + fracPart), |fracPart|))
    else None
  }

  /** The decimal digits of n, most significant first. */
  function DigitsOf(n: nat): (s: string)
    ensures AllDigits(s) && |s| > 0
    ensures DigitsValue(s) == n
    ensures '.' !in s && s[0] != '-' && s[0] != '+'
  {
    var last := ['0' + (n % 10) as char];
    if n < 10 then
      assert DigitsValue(last) == DigitsValue([]) * 10 + n;
      last
    else
      var s := DigitsOf(n / 10) + last;
      assert s[..|s| - 1] == DigitsOf(n / 10);
      s
  }

  /** Parsing the digits of a natural number gives that number with scale 0. */
  lemma ParseDigitsOf(n: nat)
    ensures ParseDecimal(DigitsOf(n)) == Some(Decimal(n, 0))
  {
    var s := DigitsOf(n);
    assert DotIndex(s) == |s|;
    assert s[..|s|] + "" == s;
  }

  /** Zeros(n): n '0' characters, the padding of a small unscaled value. */
  function Zeros(n: nat): (z: string)
    ensures |z| == n && AllDigits(z)
  {
    seq(n, _ => '0')
  }

  /** BigDecimal.toPlainString: a '-' for a negative value, then the digits of the
      unscaled value with a '.' before the last `scale` of them. */
  function Render(x: Decimal): (s: string)
  {
    (if x.unscaled < 0 then "-" else "") + WithPoint(PaddedDigits(x), x.scale)
  }

  /** The digits of |unscaled|, padded with leading zeros to more than `scale` digits. */
  function PaddedDigits(x: Decimal): (p: string)
    ensures AllDigits(p) && |p| > x.scale
    ensures DigitsValue(p) == if x.unscaled < 0 then -x.unscaled else x.unscaled
  {
    var digits := DigitsOf(if x.unscaled < 0 then -x.unscaled else x.unscaled);
    if |digits| <= x.scale then
      LeadingZerosValue(x.scale + 1 - |digits|, digits);
      Zeros(x.scale + 1 - |digits|) + digits
    else digits
  }

  /** p with a '.' before its last `scale` characters, or p itself at scale 0. */
  function WithPoint(p: string, scale: nat): string
    requires scale < |p|
  {
    if scale == 0 then p else p[..|p| - scale] + "." + p[|p| - scale..]
  }

  /** Leading zeros do not change the value of a digit string. */
  lemma {:induction false} LeadingZerosValue(n: nat, s: string)
    requires AllDigits(s)
    ensures AllDigits(Zeros(n) + s) && DigitsValue(Zeros(n) + s) == DigitsValue(s)
    decreases |s|
  {
    var z := Zeros(n) + s;
    assert AllDigits(z) by {
      forall i | 0 <= i < |z| ensures IsDigit(z[i]) {
        if i >= n { assert z[i] == s[i - n]; }
      }
    }
    if s == [] {
      assert z == Zeros(n);
      ZerosValue(n);
    } else {
      assert z[..|z| - 1] == Zeros(n) + s[..|s| - 1];
      LeadingZerosValue(n, s[..|s| - 1]);
    }
  }

  lemma {:induction false} ZerosValue(n: nat)
    ensures DigitsValue(Zeros(n)) == 0
  {
    if n > 0 {
      assert Zeros(n)[..n - 1] == Zeros(n - 1);
      ZerosValue(n - 1);
    }
  }

  /** The first '.' of a + "." + b, when a holds none, is at |a|. */
  lemma DotAfter(a: string, b: string)
    requires '.' !in a
    ensures DotIndex(a + "." + b) == |a|
  {
    var s := a + "." + b;
    assert s[|a|] == '.';
    assert forall j :: 0 <= j < |a| ==> s[j] == a[j];
  }

  /** a + b is a digit string when a and b are. */
  lemma DigitsAppend(a: string, b: string)
    requires AllDigits(a) && AllDigits(b)
    ensures AllDigits(a + b)
  {
    assert forall i :: 0 <= i < |a| ==> (a + b)[i] == a[i];
    assert forall i :: |a| <= i < |a + b| ==> (a + b)[i] == b[i - |a|];
  }

  /** An integer part a and a fraction b, written with a '.' when b is not empty, parse
      to the digits of a + b at scale |b|. */
  lemma ParseUnsignedPlain(a: string, b: string)
    requires AllDigits(a) && AllDigits(b) && |a| > 0
    ensures AllDigits(a + b)
    ensures ParseUnsigned(if b == [] then a else a + "." + b) == Some(Decimal(DigitsValue(a + b), |b|))
  {
    DigitsAppend(a, b);
    assert '.' !in a by {
      forall i | 0 <= i < |a| ensures a[i] != '.' { assert IsDigit(a[i]); }
    }
    if b == [] {
      ParseUnsignedNoDot(a);
      assert a + b == a;
    } else {
      var body := a + "." + b;
      DotAfter(a, b);
      assert body[..|a|] == a;
      assert body[|a| + 1..] == b;
    }
  }

  /** Without a '.', the whole text is the integer part. */
  lemma ParseUnsignedNoDot(body: string)
    requires '.' !in body
    ensures ParseUnsigned(body) == if AllDigits(body) && |body| > 0 then Some(Decimal(DigitsValue(body), 0)) else None
  {
    assert DotIndex(body) == |body|;
    assert body[..|body|] + "" == body;
  }

  /** A '-' in front negates, and no sign reads as positive. */
  lemma ParseSigned(sign: string, body: string)
    requires sign == "" || sign == "-"
    requires |body| > 0 && IsDigit(body[0]) && ParseUnsigned(body).Some?
    ensures ParseDecimal(sign + body)
      == Some(Decimal((if sign == "-" then -1 else 1) * ParseUnsigned(body).value.unscaled, ParseUnsigned(body).value.scale))
  {
    if sign == "-" {
      assert (sign + body)[1..] == body;
    } else {
      assert sign + body == body;
    }
  }

  /** A sign and a digit string with a '.' before its last `scale` digits parse to the
      signed value of the digits at that scale. */
  lemma ParseWithPoint(sign: string, p: string, scale: nat)
    requires sign == "" || sign == "-"
    requires AllDigits(p) && |p| > scale
    ensures ParseDecimal(sign + WithPoint(p, scale)) == Some(Decimal((if sign == "-" then -1 else 1) * DigitsValue(p), scale))
  {
    var a := p[..|p| - scale];
    var b := p[|p| - scale..];
    assert a + b == p;
    assert AllDigits(a) && AllDigits(b) by {
      assert forall i :: 0 <= i < |a| ==> a[i] == p[i];
      assert forall i :: 0 <= i < |b| ==> b[i] == p[|a| + i];
    }
    var body := if b == [] then a else a + "." + b;
    assert WithPoint(p, scale) == body by {
      if scale == 0 {
        assert a == p && b == [];
      }
    }
    ParseUnsignedPlain(a, b);
    assert IsDigit(a[0]) && body[0] == a[0];
    ParseSigned(sign, body);
  }

  /** new BigDecimal(x.toPlainString()) gives x back: every value, negative and with
      fraction digits included, is read as it is written. */
  lemma ParseRender(x: Decimal)
    ensures ParseDecimal(Render(x)) == Some(x)
  {
    ParseWithPoint(if x.unscaled < 0 then "-" else "", PaddedDigits(x), x.scale);
  }

  /** Text without any digit is a NumberFormatException: empty, a sign alone, a point alone. */
  lemma ParseRejectsNoDigits()
    ensures ParseDecimal("") == None
    ensures ParseDecimal("-") == None
    ensures ParseDecimal(".") == None
  {
  }

  /** So is a second point, a letter, or a sign after the first character. */
  lemma ParseRejectsBadCharacter()
    ensures ParseDecimal("1.2.3") == None
    ensures ParseDecimal("1a") == None
    ensures ParseDecimal("1-2") == None
  {
    assert DotIndex("1.2.3") == 1;
    assert !IsDigit("2.3"[1]);
    assert "1a"[0] == '1' && !IsDigit("1a"[1]) && '.' !in "1a";
    ParseUnsignedNoDot("1a");
    assert "1-2"[0] == '1' && !IsDigit("1-2"[1]) && '.' !in "1-2";
    ParseUnsignedNoDot("1-2");
  }

  /** Thousands separators are dropped before parsing: "1,000" is the nominal 1000. */
  lemma NominalWithSeparator()
    ensures StripCommas("1,000") == "1000"
    ensures ParseDecimal(StripCommas("1,000")) == Some(Decimal(1000, 0))
  {
    assert StripCommas("1,000") == "1000";
    assert DigitsOf(1000) == "1000";
    ParseDigitsOf(1000);
  }

  /** rate has at most `scale` fraction digits and is quotient rounded HALF_UP at that scale. */
  predicate IsRoundedQuotient(quotient: real, scale: nat, rate: real) {
    && IsHalfUpRounding(Scaled(quotient, scale), Scaled(rate, scale).Floor)
    && Scaled(rate, scale) == Scaled(rate, scale).Floor as real
  }

  /** fromRateCBRFCsvRow: the date is kept and the rate is the raw rate divided by the
      nominal, rounded HALF_UP at the raw rate's scale (BigDecimal.divide(divisor, mode)). */
  function FromRow(row: CsvRow): (r: Result<RatePrediction>)
    ensures ParseDecimal(StripCommas(row.nominal)).None? <==> r == Err(IllegalArgument(MalformedNumber))
    ensures r.Ok? ==> r.value.date == row.date
    ensures r.Ok? ==> var nominal := Value(ParseDecimal(StripCommas(row.nominal)).value);
      nominal != 0.0 && IsRoundedQuotient(Value(row.rate) / nominal, row.rate.scale, r.value.rate)
    ensures r.Err? && r != Err(IllegalArgument(MalformedNumber)) ==>
      r == Err(Arithmetic(DivisionByZero)) && Value(ParseDecimal(StripCommas(row.nominal)).value) == 0.0
  {
    match ParseDecimal(StripCommas(row.nominal))
    case None => Err(IllegalArgument(MalformedNumber))
    case Some(nominal) =>
      if Value(nominal) == 0.0 then Err(Arithmetic(DivisionByZero))
      else Ok(RatePrediction(row.date, RoundToScale(Value(row.rate) / Value(nominal), row.rate.scale)))
  }

  /** A rate with 4 fraction digits at nominal 1 is mapped unchanged. */
  lemma FromRowNominalOne(date: Date, u: int)
    ensures FromRow(CsvRow("1", date, Decimal(u, 4))) == Ok(RatePrediction(date, u as real / 10000.0))
  {
    StripCommasIdentity("1");
    assert DigitsOf(1) == "1";
    ParseDigitsOf(1);
    assert Pow10(4) == 10000;
    RoundToScaleExact(u, 4);
  }

  // ---------------------------------------------------------------------------
  // Loading (readCsv)

  /** What getResourceAsStream and the CSV reader give for a path. */
  datatype Resource =
    | Absent                  // getResourceAsStream returned null
    | Unreadable              // an IOException while reading
    | Rows(rows: seq<CsvRow>) // the bound rows, in file order

  /** stream().map(f).collect(toList()): the rows mapped in order; the first row whose
      mapping throws aborts the stream with that exception. */
  function MapEach(rows: seq<CsvRow>, f: CsvRow -> Result<RatePrediction>): (r: Result<seq<RatePrediction>>)
    ensures r.Ok? ==> |r.value| == |rows|
  {
    if rows == [] then Ok([])
    else
      match f(rows[0])
      case Err(e) => Err(e)
      case Ok(p) =>
        match MapEach(rows[1..], f)
        case Err(e) => Err(e)
        case Ok(ps) => Ok([p] + ps)
  }

  /** The rows map when every row maps, and then element by element in order. */
  lemma {:induction false} MapEachOk(rows: seq<CsvRow>, f: CsvRow -> Result<RatePrediction>)
    ensures MapEach(rows, f).Ok? <==> forall i :: 0 <= i < |rows| ==> f(rows[i]).Ok?
  {
    if rows != [] {
      MapEachOk(rows[1..], f);
      assert forall i :: 1 <= i < |rows| ==> rows[i] == rows[1..][i - 1];
    }
  }

  lemma {:induction false} MapEachValues(rows: seq<CsvRow>, f: CsvRow -> Result<RatePrediction>)
    requires MapEach(rows, f).Ok?
    ensures forall i :: 0 <= i < |rows| ==> f(rows[i]) == Ok(MapEach(rows, f).value[i])
  {
    if rows != [] {
      MapEachValues(rows[1..], f);
      assert forall i :: 1 <= i < |rows| ==> rows[i] == rows[1..][i - 1];
    }
  }

  /** A failed mapping carries the exception of the first row that fails. */
  lemma {:induction false} MapEachFirstError(rows: seq<CsvRow>, f: CsvRow -> Result<RatePrediction>)
    requires MapEach(rows, f).Err?
    ensures exists i :: (0 <= i < |rows| && f(rows[i]) == Err(MapEach(rows, f).error)
      && forall j :: 0 <= j < i ==> f(rows[j]).Ok?)
  {
    if f(rows[0]).Err? {
      assert f(rows[0]) == Err(MapEach(rows, f).error);
    } else {
      MapEachFirstError(rows[1..], f);
      var i :| 0 <= i < |rows[1..]| && f(rows[1..][i]) == Err(MapEach(rows[1..], f).error)
        && forall j :: 0 <= j < i ==> f(rows[1..][j]).Ok?;
      assert rows[i + 1] == rows[1..][i];
      forall j | 0 <= j < i + 1 ensures f(rows[j]).Ok? {
        if j > 0 {
          assert rows[j] == rows[1..][j - 1];
        }
      }
    }
  }

  /** The rows of a CSV resource mapped with fromRateCBRFCsvRow. */
  function MapRows(rows: seq<CsvRow>): (r: Result<seq<RatePrediction>>)
    ensures r.Ok? ==> |r.value| == |rows|
  {
    MapEach(rows, FromRow)
  }

  /** Every row's rate point, in file order, when all rows map; otherwise the exception of
      the first row that does not. */
  lemma MapRowsCharacterised(rows: seq<CsvRow>)
    ensures MapRows(rows).Ok? <==> forall i :: 0 <= i < |rows| ==> FromRow(rows[i]).Ok?
    ensures MapRows(rows).Ok? ==> forall i :: 0 <= i < |rows| ==> FromRow(rows[i]) == Ok(MapRows(rows).value[i])
    ensures MapRows(rows).Err? ==> exists i :: (0 <= i < |rows| && FromRow(rows[i]) == Err(MapRows(rows).error)
      && forall j :: 0 <= j < i ==> FromRow(rows[j]).Ok?)
  {
    MapEachOk(rows, FromRow);
    if MapRows(rows).Ok? {
      MapEachValues(rows, FromRow);
    } else {
      MapEachFirstError(rows, FromRow);
    }
  }

  /** readCsv: no configured path and a missing resource are IllegalArgumentException,
      an I/O failure is IllegalStateException, otherwise the mapped rows in file order. */
  function ReadCsv(filePaths: map<CurrencyType, string>, resources: string -> Resource, c: CurrencyType): (r: Result<seq<RatePrediction>>)
    ensures c !in filePaths ==> r == Err(IllegalArgument(PathNotFound))
    ensures c in filePaths && resources(filePaths[c]).Absent? ==> r == Err(IllegalArgument(FileNotFound))
    ensures c in filePaths && resources(filePaths[c]).Unreadable? ==> r == Err(IllegalState(ReadFailure))
    ensures c in filePaths && resources(filePaths[c]).Rows? ==> r == MapRows(resources(filePaths[c]).rows)
  {
    if c !in filePaths then Err(IllegalArgument(PathNotFound))
    else
      match resources(filePaths[c])
      case Absent => Err(IllegalArgument(FileNotFound))
      case Unreadable => Err(IllegalState(ReadFailure))
      case Rows(rows) => MapRows(rows)
  }

  /** The answers of a CsvCBRFRatePredictionDao configured with filePaths and resources. */
  function CsvView(filePaths: map<CurrencyType, string>, resources: string -> Resource): (dao: RatePredictionDao)
    ensures forall c :: dao.findAll(c) == ReadCsv(filePaths, resources, c)
    ensures forall c, d :: ReadCsv(filePaths, resources, c).Err? ==>
      dao.findByDate(c, d) == Err(ReadCsv(filePaths, resources, c).error)
    ensures forall c, count :: ReadCsv(filePaths, resources, c).Err? ==>
      dao.firstOrderByDateDesc(c, count) == Err(ReadCsv(filePaths, resources, c).error)
  {
    RatePredictionDao(
      c => ReadCsv(filePaths, resources, c),
      (c: CurrencyType, d: Date) => match ReadCsv(filePaths, resources, c)
        case Err(e) => Err(e)
        case Ok(points) => Ok(FindByDate(points, d)),
      (c: CurrencyType, count: int) => match ReadCsv(filePaths, resources, c)
        case Err(e) => Err(e)
        case Ok(points) => FirstOrderByDateDesc(points, count))
  }

  /** What the view answers for a loadable series: findByDate is the first point of the
      file with that date, empty exactly when none has it; firstOrderByDateDesc fails
      exactly for a negative count and otherwise gives min(count, size) points of the
      series, newest first, none of the omitted points being newer than a returned one. */
  lemma CsvViewQueries(filePaths: map<CurrencyType, string>, resources: string -> Resource,
                       c: CurrencyType, d: Date, count: int)
    requires ReadCsv(filePaths, resources, c).Ok?
    ensures var points := ReadCsv(filePaths, resources, c).value;
      var found := CsvView(filePaths, resources).findByDate(c, d);
      && found.Ok?
      && (found.value.None? <==> forall i :: 0 <= i < |points| ==> points[i].date != d)
      && (found.value.Some? ==>
            exists i :: 0 <= i < |points| && points[i] == found.value.value && points[i].date == d
              && forall j :: 0 <= j < i ==> points[j].date != d)
    ensures var points := ReadCsv(filePaths, resources, c).value;
      var top := CsvView(filePaths, resources).firstOrderByDateDesc(c, count);
      && (top.Err? <==> count < 0)
      && (top.Err? ==> top.error == IllegalArgument(NegativeLimit))
      && (top.Ok? ==>
            |top.value| == Min(count, |points|) && IsSortedByDate(top.value, true) && multiset(top.value) <= multiset(points))
      && (top.Ok? ==> forall x, y :: x in multiset(points) - multiset(top.value) && y in top.value ==> !IsBefore(y.date, x.date))
  {
    var points := ReadCsv(filePaths, resources, c).value;
    var top := CsvView(filePaths, resources).firstOrderByDateDesc(c, count);
    assert top == FirstOrderByDateDesc(points, count);
    if count >= 0 {
      forall x, y | x in multiset(points) - multiset(top.value) && y in top.value
        ensures !IsBefore(y.date, x.date)
      {
        FirstOrderByDateDescIsLatest(points, count, x, y);
      }
    }
  }

  // ---------------------------------------------------------------------------
  // The caching DAO

  class CsvRatePredictionDao {
    /** csvCache: the mapped series of every currency loaded so far */
    var csvCache: map<CurrencyType, seq<RatePrediction>>
    const filePaths: map<CurrencyType, string>
    const resources: string -> Resource
    /** the currencies readCsv was called for, in call order */
    ghost var readLog: seq<CurrencyType>

    /** Every cached series is what readCsv gives for its currency and was read exactly
        once; a currency that was read but is not cached failed to load. */
    ghost predicate Valid()
      reads this
    {
      && (forall c :: c in csvCache ==> ReadCsv(filePaths, resources, c) == Ok(csvCache[c]))
      && (forall c :: c in csvCache ==> multiset(readLog)[c] == 1)
      && (forall c :: c in readLog && c !in csvCache ==> ReadCsv(filePaths, resources, c).Err?)
    }

    constructor (filePaths: map<CurrencyType, string>, resources: string -> Resource)
      ensures Valid()
      ensures this.filePaths == filePaths && this.resources == resources
      ensures csvCache == map[] && readLog == []
    {
      this.filePaths := filePaths;
      this.resources := resources;
      csvCache := map[];
      readLog := [];
    }

    /** The cache step of one query for c: a hit changes nothing; a miss reads once and
        stores the series only when the read succeeded. */
    twostate predicate CacheStep(c: CurrencyType)
      reads this
    {
      && (old(c in csvCache) ==> csvCache == old(csvCache) && readLog == old(readLog))
      && (old(c !in csvCache) ==> readLog == old(readLog) + [c])
      && (old(c !in csvCache) ==> csvCache == match ReadCsv(filePaths, resources, c)
           case Ok(points) => old(csvCache)[c := points]
           case Err(_) => old(csvCache))
    }

    /** getCacheOrRead: the series of c, from the cache or freshly read, as a new list. */
    method GetCacheOrRead(c: CurrencyType) returns (r: Result<array<RatePrediction>>)
      requires Valid()
      modifies this
      ensures Valid() && CacheStep(c)
      ensures match ReadCsv(filePaths, resources, c)
        case Ok(points) => r.Ok? && fresh(r.value) && r.value[..] == points
        case Err(e) => r == Err(e)
    {
      if c !in csvCache {
        var loaded := ReadCsv(filePaths, resources, c);
        ghost var log := readLog;
        readLog := readLog + [c];
        assert multiset(readLog) == multiset(log) + multiset{c};
        assert forall d :: d in readLog ==> d in log || d == c;
        if loaded.Err? {
          return Err(loaded.error);
        }
        assert c !in log;
        csvCache := csvCache[c := loaded.value];
      }
      var points := csvCache[c];
      var copy := new RatePrediction[|points|](i requires 0 <= i < |points| => points[i]);
      assert copy[..] == points;
      return Ok(copy);
    }

    /** findAllByCurrencyType */
    method FindAll(c: CurrencyType) returns (r: Result<array<RatePrediction>>)
      requires Valid()
      modifies this
      ensures Valid() && CacheStep(c)
      ensures match CsvView(filePaths, resources).findAll(c)
        case Ok(points) => r.Ok? && fresh(r.value) && r.value[..] == points
        case Err(e) => r == Err(e)
    {
      r := GetCacheOrRead(c);
    }

    /** findByCurrencyTypeAndDate */
    method FindByCurrencyTypeAndDate(c: CurrencyType, d: Date) returns (r: Result<Option<RatePrediction>>)
      requires Valid()
      modifies this
      ensures Valid() && CacheStep(c)
      ensures r == CsvView(filePaths, resources).findByDate(c, d)
    {
      var all := GetCacheOrRead(c);
      match all
      case Err(e) => r := Err(e);
      case Ok(copy) => r := Ok(FindByDate(copy[..], d));
    }

    /** getFirstOrderByDateDesc */
    method GetFirstOrderByDateDesc(c: CurrencyType, count: int) returns (r: Result<seq<RatePrediction>>)
      requires Valid()
      modifies this
      ensures Valid() && CacheStep(c)
      ensures r == CsvView(filePaths, resources).firstOrderByDateDesc(c, count)
    {
      var all := GetCacheOrRead(c);
      match all
      case Err(e) => r := Err(e);
      case Ok(copy) => r := FirstOrderByDateDesc(copy[..], count);
    }
  }

  /** Two queries in a row on a new DAO: a loaded series is read once and then served
      from the cache as a second, distinct copy; a failed load is retried. */
  method CacheServesRepeatedQueries(filePaths: map<CurrencyType, string>, resources: string -> Resource, c: CurrencyType)
    returns (first: Result<array<RatePrediction>>, second: Result<array<RatePrediction>>, ghost readCount: nat)
    ensures ReadCsv(filePaths, resources, c).Ok? ==> readCount == 1
    ensures ReadCsv(filePaths, resources, c).Err? ==> readCount == 2
    ensures first.Ok? <==> second.Ok?
    ensures first.Ok? && second.Ok? ==> first.value[..] == second.value[..] && first.value != second.value
  {
    var dao := new CsvRatePredictionDao(filePaths, resources);
    first := dao.FindAll(c);
    second := dao.FindAll(c);
    readCount := |dao.readLog|;
  }
}
