/** algorithm/PreviousYearRatePredictor: the forecast for a day is the rate the DAO holds
    for the same day one year earlier, or, when that day is missing, for the day before it. */
module PreviousYear {
  import opened Dates
  import opened Results
  import opened Rates
  import opened Currency
  import opened Dao
  import opened DayLoop

  /** predictPreviousYear(predictionDate, currencyType): findByCurrencyTypeAndDate at
      d - 1 year, `or` the same at the day before it, `map` to a point dated d,
      `orElseThrow` IllegalArgumentException. A DAO exception propagates. */
  function PredictPreviousYear(dao: RatePredictionDao, c: CurrencyType, d: Date): (r: Result<RatePrediction>)
    ensures r.Ok? ==> r.value.date == d
    ensures var y := MinusYears(d, 1);
      dao.findByDate(c, y).Ok? && dao.findByDate(c, y).value.Some? ==>
        r == Ok(RatePrediction(d, dao.findByDate(c, y).value.value.rate))
    ensures var y := MinusYears(d, 1);
      dao.findByDate(c, y) == Ok(None) ==>
        match dao.findByDate(c, PrevDay(y))
        case Err(e) => r == Err(e)
        case Ok(None) => r == Err(IllegalArgument(PreviousYearNotFound))
        case Ok(Some(p)) => r == Ok(RatePrediction(d, p.rate))
    ensures var y := MinusYears(d, 1);
      dao.findByDate(c, y).Err? ==> r == Err(dao.findByDate(c, y).error)
  {
    var y := MinusYears(d, 1);
    match dao.findByDate(c, y)
    case Err(e) => Err(e)
    case Ok(found) =>
      var chosen: Result<Option<RatePrediction>> := if found.Some? then Ok(found) else dao.findByDate(c, PrevDay(y));
      match chosen
      case Err(e) => Err(e)
      case Ok(None) => Err(IllegalArgument(PreviousYearNotFound))
      case Ok(Some(p)) => Ok(RatePrediction(d, p.rate))
  }

  /** The per-day step of the predict loop. */
  function PerDay(dao: RatePredictionDao, c: CurrencyType): Date -> Result<RatePrediction> {
    (d: Date) => PredictPreviousYear(dao, c, d)
  }

  /** What predict(currencyType, startDateInclusive, endDateInclusive) returns. */
  function PredictSpec(dao: RatePredictionDao, c: CurrencyType, start: Date, end: Option<Date>): Result<seq<RatePrediction>> {
    DayByDay(PerDay(dao, c), start, DayCount(start, LastDay(start, end)))
  }

  class PreviousYearRatePredictor {
    const dao: RatePredictionDao

    constructor (dao: RatePredictionDao)
      ensures this.dao == dao
    {
      this.dao := dao;
    }

    /** predict: one predictPreviousYear per day from start while the day is on or
        before the end date; the first exception ends the call. */
    method Predict(c: CurrencyType, start: Date, end: Option<Date>) returns (r: Result<seq<RatePrediction>>)
      ensures r == PredictSpec(dao, c, start, end)
    {
      var predictions: seq<RatePrediction> := [];
      var current := start;
      var endDate := LastDay(start, end);
      ghost var f := PerDay(dao, c);
      ghost var n := DayCount(start, endDate);
      ghost var k: nat := 0;
      BeforeIffDayNumberLess(endDate, start);
      while IsOnOrBefore(current, endDate)
        invariant k <= n
        invariant current == AddDays(start, k)
        invariant DayByDay(f, start, k) == Ok(predictions)
        invariant k < n ==> IsOnOrBefore(start, endDate)
        decreases n - k
      {
        BeforeIffDayNumberLess(endDate, current);
        AddDaysNumber(start, k);
        var prediction := PredictPreviousYear(dao, c, current);
        if prediction.Err? {
          DayByDayAbort(f, start, k, n);
          return Err(prediction.error);
        }
        DayByDaySnoc(f, start, k, predictions);
        AddDaysSucc(start, k);
        predictions := predictions + [prediction.value];
        current := NextDay(current);
        k := k + 1;
      }
      BeforeIffDayNumberLess(endDate, current);
      AddDaysNumber(start, k);
      return Ok(predictions);
    }
  }

  // ---------------------------------------------------------------------------
  // Properties of predictPreviousYear

  /** A point at d - 1 year settles the day: what the DAO would answer for the day
      before it does not matter, so the fallback lookup has no effect. */
  lemma DirectHitIgnoresFallback(dao: RatePredictionDao, other: RatePredictionDao, c: CurrencyType, d: Date)
    requires dao.findByDate(c, MinusYears(d, 1)) == other.findByDate(c, MinusYears(d, 1))
    requires dao.findByDate(c, MinusYears(d, 1)).Ok? && dao.findByDate(c, MinusYears(d, 1)).value.Some?
    ensures PredictPreviousYear(dao, c, d) == PredictPreviousYear(other, c, d)
    ensures PredictPreviousYear(dao, c, d).Ok?
  {
  }

  /** Over a DAO that answers findByCurrencyTypeAndDate from a series: a forecast exists
      exactly when the series has a point at d - 1 year or the day before it; its rate is
      that of the first point at d - 1 year when there is one, else that of the first point
      at the day before. */
  lemma SeriesLookup(dao: RatePredictionDao, c: CurrencyType, points: seq<RatePrediction>, d: Date)
    requires forall q :: dao.findByDate(c, q) == Ok(FindByDate(points, q))
    ensures var y := MinusYears(d, 1);
      var r := PredictPreviousYear(dao, c, d);
      && (r.Ok? <==> exists i :: 0 <= i < |points| && (points[i].date == y || points[i].date == PrevDay(y)))
      && (r.Err? ==> r == Err(IllegalArgument(PreviousYearNotFound)))
      && (r.Ok? ==> exists i :: (0 <= i < |points| && r.value == RatePrediction(d, points[i].rate)
            && (points[i].date == y || (points[i].date == PrevDay(y) && forall j :: 0 <= j < |points| ==> points[j].date != y))))
  {
    var y := MinusYears(d, 1);
    assert dao.findByDate(c, y) == Ok(FindByDate(points, y));
    assert dao.findByDate(c, PrevDay(y)) == Ok(FindByDate(points, PrevDay(y)));
  }

  // ---------------------------------------------------------------------------
  // Properties of predict

  /** predict with no end date is the forecast of the start date alone. */
  lemma PredictSingle(dao: RatePredictionDao, c: CurrencyType, start: Date)
    ensures PredictSpec(dao, c, start, None) ==
      match PredictPreviousYear(dao, c, start)
      case Ok(p) => Ok([p])
      case Err(e) => Err(e)
  {
    var f := PerDay(dao, c);
    assert DayCount(start, start) == 1;
    assert AddDays(start, 0) == start;
    assert PredictSpec(dao, c, start, None) == DayByDay(f, start, 1);
    assert f(start) == PredictPreviousYear(dao, c, start);
    if f(start).Ok? {
      DayByDaySnoc(f, start, 0, []);
      assert [] + [f(start).value] == [f(start).value];
    } else {
      DayByDayAbort(f, start, 0, 1);
    }
  }

  /** An end date before the start date gives an empty list (the loop never runs). */
  lemma PredictEmptyRange(dao: RatePredictionDao, c: CurrencyType, start: Date, end: Date)
    requires IsBefore(end, start)
    ensures PredictSpec(dao, c, start, Some(end)) == Ok([])
  {
  }

  /** A successful range holds end - start + 1 points, dated start, start + 1, ..., end,
      and its i-th rate is the previous-year forecast of day start + i. */
  lemma PredictShape(dao: RatePredictionDao, c: CurrencyType, start: Date, end: Date)
    requires IsOnOrBefore(start, end)
    requires PredictSpec(dao, c, start, Some(end)).Ok?
    ensures var r := PredictSpec(dao, c, start, Some(end)).value;
      && |r| == DayNumber(end) - DayNumber(start) + 1
      && r[0].date == start
      && r[|r| - 1].date == end
      && (forall i :: 0 <= i < |r| - 1 ==> r[i + 1].date == NextDay(r[i].date))
      && (forall i :: 0 <= i < |r| ==> PredictPreviousYear(dao, c, AddDays(start, i)) == Ok(r[i]))
  {
    var f := PerDay(dao, c);
    var n := DayCount(start, end);
    DayByDayCovers(f, start, end);
    DayByDayAt(f, start, n);
  }

  /** A failed range is the failure of its earliest failing day; every earlier day has a
      forecast. Both lookups missing on one day therefore abort the whole range. */
  lemma {:induction false} PredictAborts(dao: RatePredictionDao, c: CurrencyType, start: Date, end: Option<Date>)
    requires PredictSpec(dao, c, start, end).Err?
    ensures exists i :: (0 <= i < DayCount(start, LastDay(start, end))
      && PredictPreviousYear(dao, c, AddDays(start, i)) == Err(PredictSpec(dao, c, start, end).error)
      && forall j :: 0 <= j < i ==> PredictPreviousYear(dao, c, AddDays(start, j)).Ok?)
  {
    var f, n := PerDay(dao, c), DayCount(start, LastDay(start, end));
    var i := DayByDayFirstError(f, start, n);
    assert PredictPreviousYear(dao, c, AddDays(start, i)) == Err(PredictSpec(dao, c, start, end).error);
    assert forall j :: 0 <= j < i ==> f(AddDays(start, j)) == PredictPreviousYear(dao, c, AddDays(start, j));
  }

  /** A two-day run is the two days' forecasts, in order. */
  lemma TwoDays(f: Date -> Result<RatePrediction>, start: Date, a: RatePrediction, b: RatePrediction)
    requires f(start) == Ok(a) && f(NextDay(start)) == Ok(b)
    ensures DayByDay(f, start, 2) == Ok([a, b])
  {
    assert AddDays(start, 0) == start;
    AddDaysSucc(start, 0);
    DayByDaySnoc(f, start, 0, []);
    assert [] + [a] == [a];
    DayByDaySnoc(f, start, 1, [a]);
    assert [a] + [b] == [a, b];
  }

  /** Days are independent: a two-day range where the first day falls back to the day
      before the previous year and the second day hits its previous-year date. */
  lemma MixedRange(dao: RatePredictionDao, c: CurrencyType, start: Date, p1: RatePrediction, p2: RatePrediction)
    requires dao.findByDate(c, MinusYears(start, 1)) == Ok(None)
    requires dao.findByDate(c, PrevDay(MinusYears(start, 1))) == Ok(Some(p1))
    requires dao.findByDate(c, MinusYears(NextDay(start), 1)) == Ok(Some(p2))
    ensures PredictSpec(dao, c, start, Some(NextDay(start))) ==
      Ok([RatePrediction(start, p1.rate), RatePrediction(NextDay(start), p2.rate)])
  {
    var second := NextDay(start);
    NextDayNumber(start);
    assert DayCount(start, second) == 2;
    assert PerDay(dao, c)(start) == Ok(RatePrediction(start, p1.rate));
    assert PerDay(dao, c)(second) == Ok(RatePrediction(second, p2.rate));
    TwoDays(PerDay(dao, c), start, RatePrediction(start, p1.rate), RatePrediction(second, p2.rate));
  }
}
