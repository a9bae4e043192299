/** algorithm/MeanRatePredictor: each forecast is the mean of a sliding window of the
    latest rates, rounded to 4 places HALF_UP, dated one day after the window's newest
    point. The window starts as the `depth` latest known rates in ascending date order
    and moves forward FIFO: the oldest point leaves, the last forecast joins. */
module MeanAlgorithm {
  import opened Dates
  import opened Results
  import opened Rates
  import opened Currency
  import opened Dao

  /** Prediction: the window a forecast was computed from, and that forecast. */
  datatype Prediction = Prediction(usedData: seq<RatePrediction>, prediction: RatePrediction)

  /** The window mean: sum / size with scale 4 and HALF_UP, given a witness of the rounding. */
  lemma Mean4Of(s: seq<RatePrediction>, u: int)
    requires |s| > 0
    requires IsHalfUpRounding(Scaled(Sum(s) / |s| as real, 4), u)
    ensures Mean4(s) == u as real / 10000.0
  {
    var r := Mean4(s);
    HalfUpRoundingUnique(Scaled(Sum(s) / |s| as real, 4), Scaled(r, 4).Floor, u);
    assert Pow10(4) == 10000;
    assert r * 10000.0 == u as real;
    ScaleThenDivide(r, 10000.0, u as real);
  }

  /** nextRatePrediction: dated the day after `latest`, valued at the mean of `previous`. */
  function NextRatePrediction(latest: RatePrediction, previous: seq<RatePrediction>): RatePrediction
    requires |previous| > 0
  {
    RatePrediction(NextDay(latest.date), Mean4(previous))
  }

  /** fetchInitialData: the `depth` latest rates; an empty answer and any point dated after
      today are IllegalArgumentException; a DAO exception propagates. */
  function FetchInitialData(dao: RatePredictionDao, c: CurrencyType, depth: int, today: Date): (r: Result<seq<RatePrediction>>)
    ensures dao.firstOrderByDateDesc(c, depth).Err? ==> r == dao.firstOrderByDateDesc(c, depth)
    ensures dao.firstOrderByDateDesc(c, depth) == Ok([]) ==> r == Err(IllegalArgument(NoInitialData))
    ensures r.Ok? ==> dao.firstOrderByDateDesc(c, depth) == r && |r.value| > 0
    ensures r.Ok? <==> (dao.firstOrderByDateDesc(c, depth).Ok? && |dao.firstOrderByDateDesc(c, depth).value| > 0
      && forall i :: 0 <= i < |dao.firstOrderByDateDesc(c, depth).value| ==> IsOnOrBefore(dao.firstOrderByDateDesc(c, depth).value[i].date, today))
    ensures r.Err? && dao.firstOrderByDateDesc(c, depth).Ok? && |dao.firstOrderByDateDesc(c, depth).value| > 0 ==>
      r == Err(IllegalArgument(InvalidInitialData))
  {
    match dao.firstOrderByDateDesc(c, depth)
    case Err(e) => Err(e)
    case Ok(data) => ValidateInitialData(data, today)
  }

  /** The checks on initial data: an empty list is "No initial data provided!" and a point
      dated after today "Invalid initial data provided!", both IllegalArgumentException. */
  function ValidateInitialData(data: seq<RatePrediction>, today: Date): (r: Result<seq<RatePrediction>>)
    ensures data == [] <==> r == Err(IllegalArgument(NoInitialData))
    ensures r.Ok? <==> (data != [] && forall i :: 0 <= i < |data| ==> IsOnOrBefore(data[i].date, today))
    ensures r.Ok? ==> r.value == data
    ensures r.Err? && data != [] ==> r == Err(IllegalArgument(InvalidInitialData))
  {
    if |data| == 0 then Err(IllegalArgument(NoInitialData))
    else if exists i :: 0 <= i < |data| && IsAfter(data[i].date, today) then Err(IllegalArgument(InvalidInitialData))
    else Ok(data)
  }

  /** doInitialPrediction: the window is the data sorted by BY_DATE_ASC and the first
      forecast, the mean of the data, is dated the day after the latest point. */
  function InitialPrediction(data: seq<RatePrediction>): (r: Prediction)
    requires |data| > 0
    ensures IsSortedByDate(r.usedData, false) && multiset(r.usedData) == multiset(data)
    ensures |r.usedData| == |data|
    ensures forall i :: 0 <= i < |data| ==> IsBefore(data[i].date, r.prediction.date)
    ensures exists i :: 0 <= i < |data| && NextDay(data[i].date) == r.prediction.date
    ensures r.prediction.rate == Mean4(data)
  {
    var deque := SortByDate(data, false);
    var latest := deque[|deque| - 1];
    assert latest in multiset(data);
    var r := Prediction(deque, NextRatePrediction(latest, data));
    NextDayNumber(latest.date);
    forall i | 0 <= i < |data| ensures IsBefore(data[i].date, r.prediction.date) {
      assert data[i] in multiset(deque);
      LastIsLatest(deque, data[i]);
      BeforeIffDayNumberLess(latest.date, data[i].date);
      BeforeIffDayNumberLess(data[i].date, r.prediction.date);
    }
    r
  }

  /** One step of nextPrediction on a copy of the window: the oldest point leaves, the
      current forecast joins at the end, and the next forecast is the new window's mean. */
  function Advance(p: Prediction): (r: Prediction)
    requires |p.usedData| > 0
    ensures |r.usedData| == |p.usedData|
  {
    var used := p.usedData[1..] + [p.prediction];
    Prediction(used, NextRatePrediction(p.prediction, used))
  }

  /** The window slides by one: the oldest point leaves and the current forecast joins;
      the new forecast is dated the next day. */
  lemma AdvanceWindow(p: Prediction)
    requires |p.usedData| > 0
    ensures var r := Advance(p);
      && r.usedData[..|r.usedData| - 1] == p.usedData[1..]
      && r.usedData[|r.usedData| - 1] == p.prediction
      && r.prediction.date == NextDay(p.prediction.date)
  {
    var r := Advance(p);
    assert r.usedData[..|r.usedData| - 1] == p.usedData[1..];
  }

  /** Every later forecast is the HALF_UP 4-place mean of the window it was computed from. */
  lemma AdvanceRate(p: Prediction)
    requires |p.usedData| > 0
    ensures var r := Advance(p);
      && r.prediction.rate == Mean4(r.usedData)
      && IsHalfUpRounding(Scaled(Sum(r.usedData) / |r.usedData| as real, 4), Scaled(r.prediction.rate, 4).Floor)
  {
  }

  /** The prediction after n steps. */
  function Iterate(p: Prediction, n: nat): (r: Prediction)
    requires |p.usedData| > 0
    ensures |r.usedData| == |p.usedData|
    decreases n
  {
    if n == 0 then p else Iterate(Advance(p), n - 1)
  }

  /** Each step dates the forecast one day later: after n steps it is n days after p's. */
  lemma {:induction false} IterateDayNumber(p: Prediction, n: nat)
    requires |p.usedData| > 0
    ensures DayNumber(Iterate(p, n).prediction.date) == DayNumber(p.prediction.date) + n
    decreases n
  {
    if n > 0 {
      IterateDayNumber(Advance(p), n - 1);
      AdvanceWindow(p);
      NextDayNumber(p.prediction.date);
    }
  }

  lemma IterateStep(p: Prediction, n: nat)
    requires |p.usedData| > 0
    ensures Advance(Iterate(p, n)) == Iterate(p, n + 1)
    decreases n
  {
    if n > 0 {
      IterateStep(Advance(p), n - 1);
    }
  }

  /** What predict returns: fetchInitialData's error, or what the first prediction leads to. */
  function PredictSpec(dao: RatePredictionDao, depth: int, c: CurrencyType, start: Date, end: Option<Date>, today: Date): Result<seq<RatePrediction>>
  {
    match FetchInitialData(dao, c, depth, today)
    case Err(e) => Err(e)
    case Ok(data) => PredictFrom(InitialPrediction(data), start, end)
  }

  /** checkIsPredictionPossible, then the forecasts from start through end (a single
      forecast when end is absent or not after start). */
  function PredictFrom(p0: Prediction, start: Date, end: Option<Date>): Result<seq<RatePrediction>>
    requires |p0.usedData| > 0
  {
    if IsBefore(start, p0.prediction.date) then Err(IllegalArgument(DateNotPredictable))
    else Ok(Forecasts(p0, Offset(p0.prediction.date, start), Offset(p0.prediction.date, start) + ForecastCount(start, end)))
  }

  /** The number of days from a forward to b. */
  function Offset(a: Date, b: Date): (n: nat)
    requires !IsBefore(b, a)
    ensures n == DayNumber(b) - DayNumber(a)
  {
    BeforeIffDayNumberLess(b, a);
    DayNumber(b) - DayNumber(a)
  }

  /** How many forecasts predict returns. */
  function ForecastCount(start: Date, end: Option<Date>): (n: nat)
    ensures n >= 1
  {
    if end.Some? && IsAfter(end.value, start) then DaySpan(start, end.value) else 1
  }

  /** The number of days from a through b inclusive, for a before b. */
  function DaySpan(a: Date, b: Date): (n: nat)
    requires IsBefore(a, b)
    ensures n == DayNumber(b) - DayNumber(a) + 1 && n >= 2
  {
    BeforeIffDayNumberLess(a, b);
    DayNumber(b) - DayNumber(a) + 1
  }

  /** The forecasts of steps lo .. hi - 1. */
  function Forecasts(p0: Prediction, lo: nat, hi: nat): (r: seq<RatePrediction>)
    requires |p0.usedData| > 0 && lo <= hi
    ensures |r| == hi - lo
    decreases hi
  {
    if hi == lo then [] else Forecasts(p0, lo, hi - 1) + [Iterate(p0, hi - 1).prediction]
  }

  lemma ForecastsSnoc(p0: Prediction, lo: nat, hi: nat)
    requires |p0.usedData| > 0 && lo <= hi
    ensures Forecasts(p0, lo, hi) + [Iterate(p0, hi).prediction] == Forecasts(p0, lo, hi + 1)
  {
  }

  lemma ForecastsSingle(p0: Prediction, lo: nat)
    requires |p0.usedData| > 0
    ensures Forecasts(p0, lo, lo + 1) == [Iterate(p0, lo).prediction]
  {
    ForecastsSnoc(p0, lo, lo);
  }

  lemma ForecastsUpTo(p0: Prediction, lo: nat, hi: nat, hi': nat)
    requires |p0.usedData| > 0 && lo <= hi && hi == hi'
    ensures Forecasts(p0, lo, hi) == Forecasts(p0, lo, hi')
  {
  }

  lemma ForecastsThree(p0: Prediction, lo: nat)
    requires |p0.usedData| > 0
    ensures Forecasts(p0, lo, lo + 3) == [Iterate(p0, lo).prediction, Iterate(p0, lo + 1).prediction, Iterate(p0, lo + 2).prediction]
  {
    ForecastsSnoc(p0, lo, lo);
    ForecastsSnoc(p0, lo, lo + 1);
    ForecastsSnoc(p0, lo, lo + 2);
  }

  /** The i-th forecast is the one of step lo + i. */
  lemma {:induction false} ForecastsAt(p0: Prediction, lo: nat, hi: nat, i: nat)
    requires |p0.usedData| > 0 && lo <= hi && i < hi - lo
    ensures Forecasts(p0, lo, hi)[i] == Iterate(p0, lo + i).prediction
    decreases hi
  {
    if i + 1 < hi - lo {
      ForecastsAt(p0, lo, hi - 1, i);
    }
  }

  class MeanRatePredictor {
    const dao: RatePredictionDao
    const depth: int

    constructor (dao: RatePredictionDao, depth: int)
      ensures this.dao == dao && this.depth == depth
    {
      this.dao := dao;
      this.depth := depth;
    }

    /** nextPrediction: works on a copy of the window, so p itself is left as it was. */
    method NextPrediction(p: Prediction) returns (q: Prediction)
      requires |p.usedData| > 0
      ensures q == Advance(p)
    {
      var usedData := p.usedData;
      usedData := usedData[1..];
      usedData := usedData + [p.prediction];
      q := Prediction(usedData, NextRatePrediction(usedData[|usedData| - 1], usedData));
    }

    /** predict(currencyType, startDateInclusive, endDateInclusive) */
    method Predict(c: CurrencyType, start: Date, end: Option<Date>, today: Date) returns (r: Result<seq<RatePrediction>>)
      ensures r == PredictSpec(dao, depth, c, start, end, today)
    {
      var fetched := FetchInitialData(dao, c, depth, today);
      if fetched.Err? {
        return Err(fetched.error);
      }
      var p0 := InitialPrediction(fetched.value);
      r := PredictFromFirst(p0, start, end);
    }

    /** The first loop of predict: steps forward until the forecast is dated start. */
    method StepTo(p0: Prediction, start: Date) returns (prediction: Prediction)
      requires |p0.usedData| > 0 && !IsBefore(start, p0.prediction.date)
      ensures prediction == Iterate(p0, Offset(p0.prediction.date, start))
      ensures prediction.prediction.date == start
    {
      prediction := p0;
      ghost var steps: nat := 0;
      while IsAfter(start, prediction.prediction.date)
        invariant steps <= Offset(p0.prediction.date, start) && prediction == Iterate(p0, steps)
        decreases Offset(p0.prediction.date, start) - steps
      {
        BeforeIffDayNumberLess(prediction.prediction.date, start);
        IterateDayNumber(p0, steps);
        IterateStep(p0, steps);
        prediction := NextPrediction(prediction);
        steps := steps + 1;
      }
      BeforeIffDayNumberLess(prediction.prediction.date, start);
      IterateDayNumber(p0, steps);
      assert steps == Offset(p0.prediction.date, start);
      DayNumberInjective(prediction.prediction.date, start);
    }

    /** The second loop of predict: from the forecast dated start, one forecast per day
        through end. */
    method StepThrough(p0: Prediction, start: Date, end: Date, first: Prediction) returns (predictions: seq<RatePrediction>)
      requires |p0.usedData| > 0 && !IsBefore(start, p0.prediction.date)
      requires first == Iterate(p0, Offset(p0.prediction.date, start))
      ensures predictions == Forecasts(p0, Offset(p0.prediction.date, start), Offset(p0.prediction.date, start) + ForecastCount(start, Some(end)))
    {
      var prediction := first;
      predictions := [prediction.prediction];
      ghost var offset := Offset(p0.prediction.date, start);
      ghost var last := offset + ForecastCount(start, Some(end));
      ghost var steps := offset;
      ForecastsSingle(p0, offset);
      BeforeIffDayNumberLess(start, end);
      while IsAfter(end, prediction.prediction.date)
        invariant offset <= steps < last
        invariant prediction == Iterate(p0, steps)
        invariant predictions == Forecasts(p0, offset, steps + 1)
        decreases last - steps
      {
        BeforeIffDayNumberLess(prediction.prediction.date, end);
        IterateDayNumber(p0, steps);
        IterateStep(p0, steps);
        ForecastsSnoc(p0, offset, steps + 1);
        prediction := Advance(prediction);
        predictions := predictions + [prediction.prediction];
        steps := steps + 1;
      }
      BeforeIffDayNumberLess(prediction.prediction.date, end);
      IterateDayNumber(p0, steps);
      ForecastsUpTo(p0, offset, steps + 1, last);
    }

    /** The rest of predict once the first prediction is known: checkIsPredictionPossible,
        the steps up to start, then one forecast per day through end. */
    method PredictFromFirst(p0: Prediction, start: Date, end: Option<Date>) returns (r: Result<seq<RatePrediction>>)
      requires |p0.usedData| > 0
      ensures r == PredictFrom(p0, start, end)
    {
      if IsBefore(start, p0.prediction.date) {
        return Err(IllegalArgument(DateNotPredictable));
      }
      var prediction := StepTo(p0, start);
      if end.None? {
        ForecastsSingle(p0, Offset(p0.prediction.date, start));
        assert ForecastCount(start, end) == 1;
        return Ok([prediction.prediction]);
      }
      var predictions := StepThrough(p0, start, end.value, prediction);
      assert ForecastCount(start, end) == ForecastCount(start, Some(end.value));
      return Ok(predictions);
    }
  }

  // ---------------------------------------------------------------------------
  // Properties of predict

  /** Error cases: no initial data, initial data after today, and a start date earlier
      than the first forecast date are IllegalArgumentException. */
  lemma PredictErrors(dao: RatePredictionDao, depth: int, c: CurrencyType, start: Date, end: Option<Date>, today: Date)
    ensures dao.firstOrderByDateDesc(c, depth) == Ok([]) ==>
      PredictSpec(dao, depth, c, start, end, today) == Err(IllegalArgument(NoInitialData))
    ensures (dao.firstOrderByDateDesc(c, depth).Ok?
        && exists i :: 0 <= i < |dao.firstOrderByDateDesc(c, depth).value| && IsAfter(dao.firstOrderByDateDesc(c, depth).value[i].date, today)) ==>
      PredictSpec(dao, depth, c, start, end, today) == Err(IllegalArgument(InvalidInitialData))
    ensures (FetchInitialData(dao, c, depth, today).Ok?
        && IsBefore(start, InitialPrediction(FetchInitialData(dao, c, depth, today).value).prediction.date)) ==>
      PredictSpec(dao, depth, c, start, end, today) == Err(IllegalArgument(DateNotPredictable))
  {
  }

  /** The i-th forecast is dated lo + i days after the first prediction. */
  lemma ForecastDayNumbers(p0: Prediction, lo: nat, hi: nat)
    requires |p0.usedData| > 0 && lo <= hi
    ensures forall i :: 0 <= i < hi - lo ==> DayNumber(Forecasts(p0, lo, hi)[i].date) == DayNumber(p0.prediction.date) + lo + i
  {
    forall i | 0 <= i < hi - lo ensures DayNumber(Forecasts(p0, lo, hi)[i].date) == DayNumber(p0.prediction.date) + lo + i {
      ForecastsAt(p0, lo, hi, i);
      IterateDayNumber(p0, lo + i);
    }
  }

  /** The forecasts from a first prediction start at start, step one day at a time, and
      run through end when end is after start, a single point otherwise. */
  lemma PredictFromShape(p0: Prediction, start: Date, end: Option<Date>)
    requires |p0.usedData| > 0 && !IsBefore(start, p0.prediction.date)
    ensures var r := PredictFrom(p0, start, end).value;
      && |r| > 0
      && r[0].date == start
      && (forall i :: 0 <= i < |r| - 1 ==> r[i + 1].date == NextDay(r[i].date))
      && (end.None? || !IsAfter(end.value, start) ==> |r| == 1)
      && (end.Some? && IsOnOrBefore(start, end.value) ==> |r| == DayNumber(end.value) - DayNumber(start) + 1 && r[|r| - 1].date == end.value)
  {
    var offset := Offset(p0.prediction.date, start);
    var count := ForecastCount(start, end);
    var r := Forecasts(p0, offset, offset + count);
    ForecastDayNumbers(p0, offset, offset + count);
    DayNumberInjective(r[0].date, start);
    forall i | 0 <= i < |r| - 1 ensures r[i + 1].date == NextDay(r[i].date) {
      NextDayNumber(r[i].date);
      DayNumberInjective(r[i + 1].date, NextDay(r[i].date));
    }
    if end.Some? && IsOnOrBefore(start, end.value) {
      BeforeIffDayNumberLess(end.value, start);
      DayNumberInjective(r[|r| - 1].date, end.value);
    }
  }

  /** The output of predict starts at start, steps one day at a time, has end - start + 1
      points when end is present and after start, and a single point otherwise. */
  lemma PredictShape(dao: RatePredictionDao, depth: int, c: CurrencyType, start: Date, end: Option<Date>, today: Date)
    requires PredictSpec(dao, depth, c, start, end, today).Ok?
    ensures var r := PredictSpec(dao, depth, c, start, end, today).value;
      && |r| > 0
      && r[0].date == start
      && (forall i :: 0 <= i < |r| - 1 ==> r[i + 1].date == NextDay(r[i].date))
      && (end.None? || !IsAfter(end.value, start) ==> |r| == 1)
      && (end.Some? && IsOnOrBefore(start, end.value) ==> |r| == DayNumber(end.value) - DayNumber(start) + 1 && r[|r| - 1].date == end.value)
  {
    var p0 := InitialPrediction(FetchInitialData(dao, c, depth, today).value);
    PredictFromShape(p0, start, end);
  }

  /** All window rates and the forecast equal c. */
  predicate Constant(p: Prediction, c: real) {
    p.prediction.rate == c && forall i :: 0 <= i < |p.usedData| ==> p.usedData[i].rate == c
  }

  lemma AdvanceConstant(p: Prediction, u: int)
    requires |p.usedData| > 0 && Constant(p, u as real / 10000.0)
    ensures Constant(Advance(p), u as real / 10000.0)
  {
    var r := Advance(p);
    AdvanceWindow(p);
    forall i | 0 <= i < |r.usedData| ensures r.usedData[i].rate == u as real / 10000.0 {
      if i < |r.usedData| - 1 {
        assert r.usedData[i] == r.usedData[..|r.usedData| - 1][i] == p.usedData[i + 1];
      }
    }
    MeanOfConstant(r.usedData, u);
  }

  lemma {:induction false} IterateConstant(p: Prediction, n: nat, u: int)
    requires |p.usedData| > 0 && Constant(p, u as real / 10000.0)
    ensures Constant(Iterate(p, n), u as real / 10000.0)
    decreases n
  {
    if n > 0 {
      AdvanceConstant(p, u);
      IterateConstant(Advance(p), n - 1, u);
    }
  }

  /** After any number of steps from a constant prediction the forecast is the constant. */
  lemma IterateRateConstant(p: Prediction, n: nat, u: int)
    requires |p.usedData| > 0 && Constant(p, u as real / 10000.0)
    ensures Iterate(p, n).prediction.rate == u as real / 10000.0
  {
    IterateConstant(p, n, u);
  }

  /** From a constant prediction every forecast carries the constant. */
  lemma {:induction false} ForecastsConstant(p0: Prediction, lo: nat, hi: nat, u: int)
    requires |p0.usedData| > 0 && lo <= hi && Constant(p0, u as real / 10000.0)
    ensures forall x :: x in Forecasts(p0, lo, hi) ==> x.rate == u as real / 10000.0
    decreases hi
  {
    if hi > lo {
      ForecastsConstant(p0, lo, hi - 1, u);
      IterateRateConstant(p0, hi - 1, u);
      var s, y := Forecasts(p0, lo, hi - 1), Iterate(p0, hi - 1).prediction;
      forall x | x in s + [y] ensures x.rate == u as real / 10000.0 {
        if x != y {
          assert x in s;
        }
      }
    }
  }

  /** The first prediction of a constant series is constant. */
  lemma InitialConstant(data: seq<RatePrediction>, u: int)
    requires |data| > 0 && forall x :: x in data ==> x.rate == u as real / 10000.0
    ensures Constant(InitialPrediction(data), u as real / 10000.0)
  {
    var p0 := InitialPrediction(data);
    MeanOfConstant(data, u);
    forall i | 0 <= i < |p0.usedData| ensures p0.usedData[i].rate == u as real / 10000.0 {
      assert p0.usedData[i] in multiset(data);
    }
  }

  lemma PredictFromConstant(p0: Prediction, start: Date, end: Option<Date>, u: int)
    requires |p0.usedData| > 0 && Constant(p0, u as real / 10000.0)
    requires PredictFrom(p0, start, end).Ok?
    ensures forall x :: x in PredictFrom(p0, start, end).value ==> x.rate == u as real / 10000.0
  {
    var offset := Offset(p0.prediction.date, start);
    ForecastsConstant(p0, offset, offset + ForecastCount(start, end), u);
  }

  /** A constant series (a rate with at most 4 fraction digits) forecasts that constant on every day. */
  lemma ConstantSeriesForecastsConstant(dao: RatePredictionDao, depth: int, c: CurrencyType, start: Date, end: Option<Date>, today: Date, u: int)
    requires dao.firstOrderByDateDesc(c, depth).Ok?
    requires forall x :: x in dao.firstOrderByDateDesc(c, depth).value ==> x.rate == u as real / 10000.0
    requires PredictSpec(dao, depth, c, start, end, today).Ok?
    ensures forall x :: x in PredictSpec(dao, depth, c, start, end, today).value ==> x.rate == u as real / 10000.0
  {
    var data := FetchInitialData(dao, c, depth, today).value;
    InitialConstant(data, u);
    PredictFromConstant(InitialPrediction(data), start, end, u);
  }

  // ---------------------------------------------------------------------------
  // The pinned series 1, 2, 3 on 2023-10-10 .. 2023-10-12

  function Series123(): seq<RatePrediction> {
    [RatePrediction(Oct2023(10), 1.0),
     RatePrediction(Oct2023(11), 2.0),
     RatePrediction(Oct2023(12), 3.0)]
  }

  /** A DAO whose every query answers with the given series. */
  function FixedDao(data: seq<RatePrediction>): RatePredictionDao {
    RatePredictionDao(
      c => Ok(data),
      (c: CurrencyType, d: Date) => Ok(FindByDate(data, d)),
      (c: CurrencyType, count: int) => Ok(data))
  }

  lemma SumOfThree(s: seq<RatePrediction>)
    requires |s| == 3
    ensures Sum(s) == s[0].rate + s[1].rate + s[2].rate
  {
    assert Sum(s[..1]) == s[0].rate by {
      assert s[..1][..0] == [];
    }
    assert Sum(s[..2]) == Sum(s[..1]) + s[1].rate by {
      assert s[..2][..1] == s[..1];
    }
    assert s[..3] == s;
  }

  lemma MeanOfThree(s: seq<RatePrediction>, u: int)
    requires |s| == 3
    requires IsHalfUpRounding((s[0].rate + s[1].rate + s[2].rate) / 3.0 * 10000.0, u)
    ensures Mean4(s) == u as real / 10000.0
  {
    SumOfThree(s);
    assert Pow10(4) == 10000;
    Mean4Of(s, u);
  }

  /** One step on a window of three: the mean of the two newest points and the forecast. */
  lemma AdvanceThree(x: RatePrediction, y: RatePrediction, z: RatePrediction, w: RatePrediction, u: int)
    requires IsHalfUpRounding((y.rate + z.rate + w.rate) / 3.0 * 10000.0, u)
    ensures Advance(Prediction([x, y, z], w)) == Prediction([y, z, w], RatePrediction(NextDay(w.date), u as real / 10000.0))
  {
    var p := Prediction([x, y, z], w);
    assert p.usedData[1..] + [p.prediction] == [y, z, w];
    MeanOfThree([y, z, w], u);
  }

  /** The series 1, 2, 3 is already in ascending date order. */
  lemma Series123Sorted()
    ensures SortByDate(Series123(), false) == Series123()
  {
    var data := Series123();
    assert data[1..][1..] == [data[2]];
    SortSorted(data, false);
  }

  /** The first prediction of data that is already sorted: the window is data itself. */
  lemma InitialOfSorted(data: seq<RatePrediction>)
    requires |data| > 0 && SortByDate(data, false) == data
    ensures InitialPrediction(data) == Prediction(data, RatePrediction(NextDay(data[|data| - 1].date), Mean4(data)))
  {
  }

  /** The first prediction from the series 1, 2, 3: the mean 2 on 2023-10-13. */
  lemma Series123Initial()
    ensures InitialPrediction(Series123()) == Prediction(Series123(), RatePrediction(Oct2023(13), 2.0))
  {
    var data := Series123();
    Series123Sorted();
    InitialOfSorted(data);
    OctoberNextDay(12);
    MeanOfThree(data, 20000);
  }

  /** A step from a three-point window, k steps in. */
  lemma IterateThree(p0: Prediction, k: nat, x: RatePrediction, y: RatePrediction, z: RatePrediction, w: RatePrediction, u: int)
    requires |p0.usedData| > 0 && Iterate(p0, k) == Prediction([x, y, z], w)
    requires IsHalfUpRounding((y.rate + z.rate + w.rate) / 3.0 * 10000.0, u)
    ensures Iterate(p0, k + 1) == Prediction([y, z, w], RatePrediction(NextDay(w.date), u as real / 10000.0))
  {
    IterateStep(p0, k);
    AdvanceThree(x, y, z, w, u);
  }

  /** The day after a day of October 2023 other than the 31st. */
  lemma OctoberNextDay(day: int)
    requires 1 <= day < 31
    ensures NextDay(Oct2023(day)) == Oct2023(day + 1)
  {
  }

  /** The forecasts for 2023-10-13 .. 2023-10-18 from the series 1, 2, 3. */
  lemma Series123Steps()
    ensures var p0 := InitialPrediction(Series123());
      && p0.prediction == RatePrediction(Oct2023(13), 2.0)
      && Iterate(p0, 1).prediction == RatePrediction(Oct2023(14), 2.3333)
      && Iterate(p0, 2).prediction == RatePrediction(Oct2023(15), 2.4444)
      && Iterate(p0, 3).prediction == RatePrediction(Oct2023(16), 2.2592)
      && Iterate(p0, 4).prediction == RatePrediction(Oct2023(17), 2.3456)
      && Iterate(p0, 5).prediction == RatePrediction(Oct2023(18), 2.3497)
  {
    var data := Series123();
    Series123Initial();
    var p0 := InitialPrediction(data);
    var r10, r11, r12 := data[0], data[1], data[2];
    var r13 := RatePrediction(Oct2023(13), 2.0);
    var r14 := RatePrediction(Oct2023(14), 2.3333);
    var r15 := RatePrediction(Oct2023(15), 2.4444);
    var r16 := RatePrediction(Oct2023(16), 2.2592);
    var r17 := RatePrediction(Oct2023(17), 2.3456);
    var r18 := RatePrediction(Oct2023(18), 2.3497);
    OctoberNextDay(13);
    OctoberNextDay(14);
    OctoberNextDay(15);
    OctoberNextDay(16);
    OctoberNextDay(17);
    IterateThree(p0, 0, r10, r11, r12, r13, 23333);
    IterateThree(p0, 1, r11, r12, r13, r14, 24444);
    IterateThree(p0, 2, r12, r13, r14, r15, 22592);
    IterateThree(p0, 3, r13, r14, r15, r16, 23456);
    IterateThree(p0, 4, r14, r15, r16, r17, 23497);
  }

  /** All points of the series 1, 2, 3 are on or before 2023-10-14. */
  lemma Series123Fetch()
    ensures FetchInitialData(FixedDao(Series123()), EUR, 7, Oct2023(14)) == Ok(Series123())
  {
    var data := Series123();
    assert !exists i :: 0 <= i < |data| && IsAfter(data[i].date, Oct2023(14)) by {
      forall i | 0 <= i < |data| ensures !IsAfter(data[i].date, Oct2023(14)) {
        assert data[i].date.day <= 12;
      }
    }
  }

  /** 2023-10-16 is three days after 2023-10-13, and 2023-10-16 .. 2023-10-18 are three days. */
  lemma October2023Span()
    ensures Offset(Oct2023(13), Oct2023(16)) == 3
    ensures ForecastCount(Oct2023(16), Some(Oct2023(18))) == 3
  {
    assert NextDay(Oct2023(13)) == Oct2023(14);
    assert NextDay(Oct2023(14)) == Oct2023(15);
    assert NextDay(Oct2023(15)) == Oct2023(16);
    assert NextDay(Oct2023(16)) == Oct2023(17);
    assert NextDay(Oct2023(17)) == Oct2023(18);
  }

  /** From the first prediction of the series 1, 2, 3, the forecasts for
      2023-10-16 .. 2023-10-18 are 2.2592, 2.3456, 2.3497. */
  lemma Series123RangeFrom()
    ensures PredictFrom(InitialPrediction(Series123()), Oct2023(16), Some(Oct2023(18)))
      == Ok([RatePrediction(Oct2023(16), 2.2592),
             RatePrediction(Oct2023(17), 2.3456),
             RatePrediction(Oct2023(18), 2.3497)])
  {
    Series123Steps();
    var p0 := InitialPrediction(Series123());
    October2023Span();
    ForecastsUpTo(p0, 3, 3 + ForecastCount(Oct2023(16), Some(Oct2023(18))), 6);
    ForecastsThree(p0, 3);
  }

  /** From the first prediction of the series 1, 2, 3, the single forecast for 2023-10-16 is 2.2592. */
  lemma Series123SingleFrom()
    ensures PredictFrom(InitialPrediction(Series123()), Oct2023(16), None) == Ok([RatePrediction(Oct2023(16), 2.2592)])
  {
    Series123Steps();
    var p0 := InitialPrediction(Series123());
    October2023Span();
    assert ForecastCount(Oct2023(16), None) == 1;
    ForecastsUpTo(p0, 3, 3 + ForecastCount(Oct2023(16), None), 4);
    ForecastsSingle(p0, 3);
  }

  /** predict from 2023-10-16 to 2023-10-18 on the series 1, 2, 3, with today 2023-10-14,
      gives 2.2592, 2.3456, 2.3497. */
  lemma Series123Range()
    ensures PredictSpec(FixedDao(Series123()), 7, EUR, Oct2023(16), Some(Oct2023(18)), Oct2023(14))
      == Ok([RatePrediction(Oct2023(16), 2.2592),
             RatePrediction(Oct2023(17), 2.3456),
             RatePrediction(Oct2023(18), 2.3497)])
  {
    Series123Fetch();
    Series123RangeFrom();
  }
}
