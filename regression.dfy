/** algorithm/LinearRegressionRatePredictor: the latest `depth` points of the currency, in
    ascending date order, initialise a linear regression, whose value at each day from the
    start date through the end date is that day's forecast. */
module Regression {
  import opened Dates
  import opened Results
  import opened Rates
  import opened Currency
  import opened Dao
  import opened DayLoop

  /** The arrays a regression is initialised with: dates[i] and rates[i] form one point. */
  datatype FitData = FitData(dates: seq<Date>, rates: seq<real>)

  /** What a regression has been asked, in order. */
  datatype Call = Fitted(fit: FitData) | Evaluate(date: Date)

  /** LinearRegression<LocalDate, BigDecimal>: `init(x, y)` fits the line, `predict(x)`
      evaluates it. How the line is fitted is the parameter `line`. */
  class LinearRegression {
    /** The fitted line's value at a date, for the data it was fitted to. */
    const line: (FitData, Date) -> real
    var fit: Option<FitData>
    ghost var calls: seq<Call>

    constructor (line: (FitData, Date) -> real)
      ensures this.line == line && fit == None && calls == []
    {
      this.line := line;
      fit := None;
      calls := [];
    }

    /** init(x, y) */
    method Init(x: array<Date>, y: array<real>)
      modifies this`fit, this`calls
      ensures fit == Some(FitData(x[..], y[..]))
      ensures calls == old(calls) + [Fitted(FitData(x[..], y[..]))]
    {
      fit := Some(FitData(x[..], y[..]));
      calls := calls + [Fitted(FitData(x[..], y[..]))];
    }

    /** predict(knownValue): the line's value, or IllegalArgumentException before init. */
    method Predict(d: Date) returns (r: Result<real>)
      modifies this`calls
      ensures fit.None? <==> r == Err(IllegalArgument(RegressionNotInitialised))
      ensures fit.Some? ==> r == Ok(line(fit.value, d))
      ensures calls == old(calls) + [Evaluate(d)]
    {
      calls := calls + [Evaluate(d)];
      if fit.None? {
        return Err(IllegalArgument(RegressionNotInitialised));
      }
      return Ok(line(fit.value, d));
    }
  }

  // ---------------------------------------------------------------------------
  // The regression's data (initRegression)

  /** getFirstOrderByDateDesc(depth) sorted BY_DATE_ASC, which must hold exactly depth
      points ("Not enough data to make a prediction!"); a DAO exception propagates. */
  function InitialData(dao: RatePredictionDao, c: CurrencyType, depth: int): (r: Result<seq<RatePrediction>>)
    ensures dao.firstOrderByDateDesc(c, depth).Err? ==> r == Err(dao.firstOrderByDateDesc(c, depth).error)
    ensures dao.firstOrderByDateDesc(c, depth).Ok? && |dao.firstOrderByDateDesc(c, depth).value| != depth ==>
      r == Err(IllegalArgument(NotEnoughData))
    ensures r.Ok? ==> |r.value| == depth && IsSortedByDate(r.value, false)
    ensures r.Ok? ==>
      (dao.firstOrderByDateDesc(c, depth).Ok?
       && multiset(r.value) == multiset(dao.firstOrderByDateDesc(c, depth).value))
  {
    match dao.firstOrderByDateDesc(c, depth)
    case Err(e) => Err(e)
    case Ok(latest) =>
      var sorted := SortByDate(latest, false);
      if |sorted| != depth then Err(IllegalArgument(NotEnoughData)) else Ok(sorted)
  }

  /** The dates and rates arrays filled from the points, index by index. */
  function FitOf(points: seq<RatePrediction>): (f: FitData)
    ensures |f.dates| == |points| && |f.rates| == |points|
    ensures forall i :: 0 <= i < |points| ==> RatePrediction(f.dates[i], f.rates[i]) == points[i]
  {
    FitData(seq(|points|, i requires 0 <= i < |points| => points[i].date),
            seq(|points|, i requires 0 <= i < |points| => points[i].rate))
  }

  /** The regression fitted to sorted points sees its dates in ascending order. */
  lemma FitDatesAscending(points: seq<RatePrediction>, i: int, j: int)
    requires IsSortedByDate(points, false) && 0 <= i < j < |points|
    ensures !IsBefore(FitOf(points).dates[j], FitOf(points).dates[i])
  {
    SortedPairwise(points, false, i, j);
  }

  // ---------------------------------------------------------------------------
  // predict

  /** One day of the loop: the point dated d with the line's value at d. */
  function PerDay(line: (FitData, Date) -> real, fit: FitData): Date -> Result<RatePrediction> {
    (d: Date) => Ok(RatePrediction(d, line(fit, d)))
  }

  /** What predict(currencyType, startDateInclusive, endDateInclusive) returns. */
  function PredictSpec(dao: RatePredictionDao, line: (FitData, Date) -> real, depth: int, c: CurrencyType, start: Date, end: Option<Date>): Result<seq<RatePrediction>> {
    match InitialData(dao, c, depth)
    case Err(e) => Err(e)
    case Ok(data) => DayByDay(PerDay(line, FitOf(data)), start, DayCount(start, LastDay(start, end)))
  }

  /** The calls a run of forecasts makes on the regression: one evaluation per point. */
  function Evaluations(ps: seq<RatePrediction>): (r: seq<Call>)
    ensures |r| == |ps|
    ensures forall i :: 0 <= i < |ps| ==> r[i] == Evaluate(ps[i].date)
  {
    if ps == [] then [] else Evaluations(ps[..|ps| - 1]) + [Evaluate(ps[|ps| - 1].date)]
  }

  /** The two arrays of initRegression, filled index by index from the same point. */
  method FillArrays(initialData: seq<RatePrediction>) returns (dates: array<Date>, rates: array<real>)
    ensures fresh(dates) && fresh(rates)
    ensures FitData(dates[..], rates[..]) == FitOf(initialData)
  {
    dates := new Date[|initialData|];
    rates := new real[|initialData|];
    for i := 0 to |initialData|
      invariant forall j :: 0 <= j < i ==> dates[j] == initialData[j].date && rates[j] == initialData[j].rate
    {
      var ratePrediction := initialData[i];
      dates[i] := ratePrediction.date;
      rates[i] := ratePrediction.rate;
    }
    assert dates[..] == FitOf(initialData).dates;
    assert rates[..] == FitOf(initialData).rates;
  }

  class LinearRegressionRatePredictor {
    const dao: RatePredictionDao
    const regression: LinearRegression
    const depth: int

    constructor (dao: RatePredictionDao, regression: LinearRegression, depth: int)
      ensures this.dao == dao && this.regression == regression && this.depth == depth
    {
      this.dao := dao;
      this.regression := regression;
      this.depth := depth;
    }

    /** initRegression: fetch, sort, check the size, fill both arrays, init. */
    method InitRegression(c: CurrencyType) returns (failure: Option<Error>)
      modifies regression`fit, regression`calls
      ensures InitialData(dao, c, depth).Err? ==>
        (failure == Some(InitialData(dao, c, depth).error)
         && regression.fit == old(regression.fit) && regression.calls == old(regression.calls))
      ensures InitialData(dao, c, depth).Ok? ==>
        (failure == None
         && regression.fit == Some(FitOf(InitialData(dao, c, depth).value))
         && regression.calls == old(regression.calls) + [Fitted(FitOf(InitialData(dao, c, depth).value))])
    {
      var fetched := dao.firstOrderByDateDesc(c, depth);
      if fetched.Err? {
        return Some(fetched.error);
      }
      var initialData := SortByDate(fetched.value, false);
      if |initialData| != depth {
        return Some(IllegalArgument(NotEnoughData));
      }
      assert InitialData(dao, c, depth) == Ok(initialData);
      var dates, rates := FillArrays(initialData);
      regression.Init(dates, rates);
      return None;
    }

    /** predict: initRegression once, then the day loop. */
    method Predict(c: CurrencyType, start: Date, end: Option<Date>) returns (r: Result<seq<RatePrediction>>)
      modifies regression`fit, regression`calls
      ensures r == PredictSpec(dao, regression.line, depth, c, start, end)
      ensures r.Err? ==> regression.calls == old(regression.calls) && regression.fit == old(regression.fit)
      ensures r.Ok? ==> regression.fit == Some(FitOf(InitialData(dao, c, depth).value))
      ensures r.Ok? ==>
        regression.calls == old(regression.calls) + [Fitted(FitOf(InitialData(dao, c, depth).value))] + Evaluations(r.value)
    {
      var failure := InitRegression(c);
      if failure.Some? {
        return Err(failure.value);
      }
      var ratePredictions := PredictDays(start, LastDay(start, end));
      return Ok(ratePredictions);
    }

    /** The day loop of predict: one regression value per day from start while the day
        is on or before the end date. */
    method PredictDays(start: Date, endDate: Date) returns (ratePredictions: seq<RatePrediction>)
      requires regression.fit.Some?
      modifies regression`calls
      ensures Ok(ratePredictions) == DayByDay(PerDay(regression.line, regression.fit.value), start, DayCount(start, endDate))
      ensures regression.calls == old(regression.calls) + Evaluations(ratePredictions)
    {
      ghost var f := PerDay(regression.line, regression.fit.value);
      ratePredictions := [];
      var current := start;
      ghost var n := DayCount(start, endDate);
      ghost var k: nat := 0;
      while IsOnOrBefore(current, endDate)
        invariant k <= n && current == AddDays(start, k)
        invariant DayByDay(f, start, k) == Ok(ratePredictions)
        invariant regression.calls == old(regression.calls) + Evaluations(ratePredictions)
        decreases n - k
      {
        DayLoopGuard(start, endDate, k);
        var rate := regression.Predict(current);
        assert rate.Ok?;
        DayByDaySnoc(f, start, k, ratePredictions);
        AddDaysSucc(start, k);
        ghost var before := ratePredictions;
        ratePredictions := ratePredictions + [RatePrediction(current, rate.value)];
        assert ratePredictions[..|ratePredictions| - 1] == before;
        current := NextDay(current);
        k := k + 1;
      }
      DayLoopGuard(start, endDate, k);
    }
  }

  // ---------------------------------------------------------------------------
  // Properties of predict

  /** A window of the wrong size, or a DAO failure, fails the call before any forecast. */
  lemma PredictRejectsWindow(dao: RatePredictionDao, line: (FitData, Date) -> real, depth: int, c: CurrencyType, start: Date, end: Option<Date>)
    ensures InitialData(dao, c, depth).Err? ==> PredictSpec(dao, line, depth, c, start, end) == Err(InitialData(dao, c, depth).error)
    ensures dao.firstOrderByDateDesc(c, depth).Ok? && |dao.firstOrderByDateDesc(c, depth).value| != depth ==>
      PredictSpec(dao, line, depth, c, start, end) == Err(IllegalArgument(NotEnoughData))
  {
  }

  /** With a window of depth points the call succeeds: one point per day from start, the
      i-th dated start + i with the regression's value for that date. */
  lemma PredictShape(dao: RatePredictionDao, line: (FitData, Date) -> real, depth: int, c: CurrencyType, start: Date, end: Option<Date>)
    requires InitialData(dao, c, depth).Ok?
    ensures var r := PredictSpec(dao, line, depth, c, start, end);
      var fit := FitOf(InitialData(dao, c, depth).value);
      && r.Ok?
      && |r.value| == DayCount(start, LastDay(start, end))
      && forall i :: 0 <= i < |r.value| ==> r.value[i] == RatePrediction(AddDays(start, i), line(fit, AddDays(start, i)))
  {
    var fit := FitOf(InitialData(dao, c, depth).value);
    var f, n := PerDay(line, fit), DayCount(start, LastDay(start, end));
    DayByDayTotal(f, start, n);
    DayByDayAt(f, start, n);
  }

  /** From start through end the points fall on consecutive days, first start, last end. */
  lemma PredictRange(dao: RatePredictionDao, line: (FitData, Date) -> real, depth: int, c: CurrencyType, start: Date, end: Date)
    requires InitialData(dao, c, depth).Ok?
    requires IsOnOrBefore(start, end)
    ensures var r := PredictSpec(dao, line, depth, c, start, Some(end));
      && r.Ok?
      && |r.value| == DayNumber(end) - DayNumber(start) + 1
      && r.value[0].date == start
      && r.value[|r.value| - 1].date == end
      && forall i :: 0 <= i < |r.value| - 1 ==> r.value[i + 1].date == NextDay(r.value[i].date)
  {
    var fit := FitOf(InitialData(dao, c, depth).value);
    var f := PerDay(line, fit);
    DayByDayTotal(f, start, DayCount(start, end));
    DayByDayCovers(f, start, end);
  }

  /** Without an end date the call is the one point of the start date. */
  lemma PredictSingle(dao: RatePredictionDao, line: (FitData, Date) -> real, depth: int, c: CurrencyType, start: Date)
    requires InitialData(dao, c, depth).Ok?
    ensures PredictSpec(dao, line, depth, c, start, None) ==
      Ok([RatePrediction(start, line(FitOf(InitialData(dao, c, depth).value), start))])
  {
    PredictShape(dao, line, depth, c, start, None);
    var r := PredictSpec(dao, line, depth, c, start, None).value;
    assert LastDay(start, None) == start && DayCount(start, start) == 1;
    assert AddDays(start, 0) == start;
    assert r == [r[0]];
  }
}
