/** core/MeanRatePredictor, the earlier form of the mean predictor. It validates and copies
    its initial data once; every predict call rebuilds the window from that copy and then
    moves one mutable prediction object forward in place. */
module LegacyMean {
  import opened Dates
  import opened Results
  import opened Rates
  import MeanAlgorithm

  /** The private Prediction class: a window deque and a forecast, both updated in place. */
  class Prediction {
    var usedData: seq<RatePrediction>
    var prediction: RatePrediction

    constructor (usedData: seq<RatePrediction>, prediction: RatePrediction)
      ensures this.usedData == usedData && this.prediction == prediction
    {
      this.usedData := usedData;
      this.prediction := prediction;
    }

    /** The window and forecast the object currently holds. */
    function Value(): MeanAlgorithm.Prediction
      reads this
    {
      MeanAlgorithm.Prediction(usedData, prediction)
    }
  }

  /** The constructor, which throws IllegalArgumentException on empty data or on a point
      dated after today, and otherwise keeps a copy of the data. */
  method Create(data: seq<RatePrediction>, today: Date) returns (r: Result<MeanRatePredictor>)
    ensures r.Ok? <==> MeanAlgorithm.ValidateInitialData(data, today).Ok?
    ensures r.Err? ==> r.error == MeanAlgorithm.ValidateInitialData(data, today).error
    ensures r.Ok? ==> fresh(r.value) && r.value.initialData == data && r.value.Valid()
  {
    var checked := MeanAlgorithm.ValidateInitialData(data, today);
    if checked.Err? {
      return Err(checked.error);
    }
    var predictor := new MeanRatePredictor(checked.value);
    return Ok(predictor);
  }

  class MeanRatePredictor {
    /** The copy made by validateAndCopy; nothing changes it after construction. */
    const initialData: seq<RatePrediction>

    ghost predicate Valid() {
      |initialData| > 0
    }

    /** Called by Create once the data has been validated. */
    constructor (data: seq<RatePrediction>)
      requires |data| > 0
      ensures initialData == data && Valid()
    {
      initialData := data;
    }

    /** The prediction every predict call starts from. */
    function First(): (p: MeanAlgorithm.Prediction)
      requires Valid()
      ensures |p.usedData| == |initialData|
    {
      MeanAlgorithm.InitialPrediction(initialData)
    }

    /** doInitialPrediction: a new object holding the sorted window and the first forecast. */
    method DoInitialPrediction() returns (p: Prediction)
      requires Valid()
      ensures fresh(p) && p.Value() == First()
    {
      var deque := SortByDate(initialData, false);
      p := new Prediction(deque, MeanAlgorithm.NextRatePrediction(deque[|deque| - 1], initialData));
    }

    /** nextPrediction: removeFirst, addLast of the current forecast, then the next forecast,
        all on the object passed in. */
    method NextPrediction(p: Prediction)
      requires |p.usedData| > 0
      modifies p
      ensures p.Value() == MeanAlgorithm.Advance(old(p.Value()))
      ensures |p.usedData| == old(|p.usedData|)
      ensures p.prediction.date == NextDay(old(p.prediction.date))
    {
      MeanAlgorithm.AdvanceWindow(p.Value());
      p.usedData := p.usedData[1..];
      p.usedData := p.usedData + [p.prediction];
      p.prediction := MeanAlgorithm.NextRatePrediction(p.prediction, p.usedData);
    }

    /** predict(predictionDate): steps while the date is after the forecast's. */
    method PredictSingle(d: Date) returns (r: RatePrediction)
      requires Valid()
      ensures r == MeanAlgorithm.Iterate(First(), SingleSteps(First(), d)).prediction
    {
      var p := DoInitialPrediction();
      ghost var p0 := p.Value();
      ghost var steps: nat := 0;
      while IsAfter(d, p.prediction.date)
        invariant |p.usedData| > 0
        invariant steps <= SingleSteps(p0, d) && p.Value() == MeanAlgorithm.Iterate(p0, steps)
        decreases SingleSteps(p0, d) - steps
      {
        SingleStepContinues(p0, d, steps);
        NextPrediction(p);
        steps := steps + 1;
      }
      SingleStepStops(p0, d, steps);
      r := p.prediction;
    }

    /** predict(startDateInclusive, endDateInclusive), for the inputs on which its two
        `!equals` loops end: start not before the first forecast date and end not before start.
        It then returns what algorithm/MeanRatePredictor returns. */
    method PredictRange(start: Date, end: Date) returns (r: seq<RatePrediction>)
      requires Valid()
      requires !IsBefore(start, First().prediction.date) && IsOnOrBefore(start, end)
      ensures Ok(r) == MeanAlgorithm.PredictFrom(First(), start, Some(end))
    {
      var p := DoInitialPrediction();
      ghost var p0 := p.Value();
      StepTo(p, p0, 0, start);
      r := StepThrough(p, p0, start, end);
    }

    /** The first loop of the range predict: moves p forward until its forecast is dated target. */
    method StepTo(p: Prediction, ghost p0: MeanAlgorithm.Prediction, ghost from: nat, target: Date)
      requires |p0.usedData| > 0 && !IsBefore(target, p0.prediction.date)
      requires from <= MeanAlgorithm.Offset(p0.prediction.date, target) && p.Value() == MeanAlgorithm.Iterate(p0, from)
      modifies p
      ensures p.Value() == MeanAlgorithm.Iterate(p0, MeanAlgorithm.Offset(p0.prediction.date, target))
    {
      ghost var steps: nat := from;
      while p.prediction.date != target
        invariant |p.usedData| > 0
        invariant steps <= MeanAlgorithm.Offset(p0.prediction.date, target) && p.Value() == MeanAlgorithm.Iterate(p0, steps)
        decreases MeanAlgorithm.Offset(p0.prediction.date, target) - steps
      {
        NotYetReached(p0, target, steps);
        MeanAlgorithm.IterateStep(p0, steps);
        NextPrediction(p);
        steps := steps + 1;
      }
      Reached(p0, target, steps);
    }

    /** The second loop of the range predict: from the forecast dated start, collects one
        forecast per day until one is dated end. */
    method StepThrough(p: Prediction, ghost p0: MeanAlgorithm.Prediction, start: Date, end: Date) returns (predictions: seq<RatePrediction>)
      requires |p0.usedData| > 0 && !IsBefore(start, p0.prediction.date) && IsOnOrBefore(start, end)
      requires p.Value() == MeanAlgorithm.Iterate(p0, MeanAlgorithm.Offset(p0.prediction.date, start))
      modifies p
      ensures Ok(predictions) == MeanAlgorithm.PredictFrom(p0, start, Some(end))
    {
      ghost var offset := MeanAlgorithm.Offset(p0.prediction.date, start);
      ghost var steps: nat := offset;
      predictions := [p.prediction];
      MeanAlgorithm.ForecastsSingle(p0, offset);
      BeforeIffDayNumberLess(end, start);
      while p.prediction.date != end
        invariant |p.usedData| > 0
        invariant offset <= steps <= MeanAlgorithm.Offset(p0.prediction.date, end)
        invariant p.Value() == MeanAlgorithm.Iterate(p0, steps)
        invariant predictions == MeanAlgorithm.Forecasts(p0, offset, steps + 1)
        decreases MeanAlgorithm.Offset(p0.prediction.date, end) - steps
      {
        NotYetReached(p0, end, steps);
        MeanAlgorithm.IterateStep(p0, steps);
        MeanAlgorithm.ForecastsSnoc(p0, offset, steps + 1);
        NextPrediction(p);
        predictions := predictions + [p.prediction];
        steps := steps + 1;
      }
      Reached(p0, end, steps);
      BeforeIffDayNumberLess(start, end);
      MeanAlgorithm.ForecastsUpTo(p0, offset, steps + 1, offset + MeanAlgorithm.ForecastCount(start, Some(end)));
    }
  }

  /** The number of rounds of the single-date loop: up to the requested date when it is
      after the first forecast date, none otherwise. */
  function SingleSteps(p0: MeanAlgorithm.Prediction, d: Date): nat
    requires |p0.usedData| > 0
  {
    if IsAfter(d, p0.prediction.date) then MeanAlgorithm.Offset(p0.prediction.date, d) else 0
  }

  /** A round of the single-date loop that still runs is not the last of SingleSteps. */
  lemma SingleStepContinues(p0: MeanAlgorithm.Prediction, d: Date, n: nat)
    requires |p0.usedData| > 0 && n <= SingleSteps(p0, d)
    requires IsAfter(d, MeanAlgorithm.Iterate(p0, n).prediction.date)
    ensures n < SingleSteps(p0, d)
    ensures MeanAlgorithm.Advance(MeanAlgorithm.Iterate(p0, n)) == MeanAlgorithm.Iterate(p0, n + 1)
  {
    MeanAlgorithm.IterateDayNumber(p0, n);
    BeforeIffDayNumberLess(MeanAlgorithm.Iterate(p0, n).prediction.date, d);
    BeforeIffDayNumberLess(p0.prediction.date, d);
    MeanAlgorithm.IterateStep(p0, n);
  }

  /** The single-date loop stops exactly after SingleSteps rounds. */
  lemma SingleStepStops(p0: MeanAlgorithm.Prediction, d: Date, n: nat)
    requires |p0.usedData| > 0 && n <= SingleSteps(p0, d)
    requires !IsAfter(d, MeanAlgorithm.Iterate(p0, n).prediction.date)
    ensures n == SingleSteps(p0, d)
  {
    MeanAlgorithm.IterateDayNumber(p0, n);
    BeforeIffDayNumberLess(MeanAlgorithm.Iterate(p0, n).prediction.date, d);
    BeforeIffDayNumberLess(p0.prediction.date, d);
  }

  /** The single-date forecast is dated max(requested date, first forecast date). */
  lemma PredictSingleDate(p0: MeanAlgorithm.Prediction, d: Date)
    requires |p0.usedData| > 0
    ensures var r := MeanAlgorithm.Iterate(p0, SingleSteps(p0, d)).prediction;
      r.date == if IsAfter(d, p0.prediction.date) then d else p0.prediction.date
  {
    var n := SingleSteps(p0, d);
    MeanAlgorithm.IterateDayNumber(p0, n);
    if IsAfter(d, p0.prediction.date) {
      DayNumberInjective(MeanAlgorithm.Iterate(p0, n).prediction.date, d);
    }
  }

  /** A forecast not yet dated target is fewer than Offset steps in. */
  lemma NotYetReached(p0: MeanAlgorithm.Prediction, target: Date, n: nat)
    requires |p0.usedData| > 0 && !IsBefore(target, p0.prediction.date)
    requires n <= MeanAlgorithm.Offset(p0.prediction.date, target)
    requires MeanAlgorithm.Iterate(p0, n).prediction.date != target
    ensures n < MeanAlgorithm.Offset(p0.prediction.date, target)
  {
    MeanAlgorithm.IterateDayNumber(p0, n);
    if n == MeanAlgorithm.Offset(p0.prediction.date, target) {
      DayNumberInjective(MeanAlgorithm.Iterate(p0, n).prediction.date, target);
    }
  }

  /** A forecast dated target is exactly Offset steps in. */
  lemma Reached(p0: MeanAlgorithm.Prediction, target: Date, n: nat)
    requires |p0.usedData| > 0 && !IsBefore(target, p0.prediction.date)
    requires MeanAlgorithm.Iterate(p0, n).prediction.date == target
    ensures n == MeanAlgorithm.Offset(p0.prediction.date, target)
  {
    MeanAlgorithm.IterateDayNumber(p0, n);
  }

  /** predict(2023-10-16) on the series 1, 2, 3 gives 2.2592. */
  lemma Series123Single()
    ensures var p0 := MeanAlgorithm.InitialPrediction(MeanAlgorithm.Series123());
      MeanAlgorithm.Iterate(p0, SingleSteps(p0, Oct2023(16))).prediction
        == RatePrediction(Oct2023(16), 2.2592)
  {
    MeanAlgorithm.Series123Steps();
    MeanAlgorithm.October2023Span();
  }

  /** On a constant series (a rate with at most 4 fraction digits) the single-date forecast is that constant. */
  lemma ConstantSeriesSingle(data: seq<RatePrediction>, d: Date, u: int)
    requires |data| > 0 && forall x :: x in data ==> x.rate == u as real / 10000.0
    ensures var p0 := MeanAlgorithm.InitialPrediction(data);
      MeanAlgorithm.Iterate(p0, SingleSteps(p0, d)).prediction.rate == u as real / 10000.0
  {
    var p0 := MeanAlgorithm.InitialPrediction(data);
    MeanAlgorithm.InitialConstant(data, u);
    MeanAlgorithm.IterateRateConstant(p0, SingleSteps(p0, d), u);
  }

  /** Two predict calls on one predictor agree: neither changes the stored data. */
  method RepeatedPredictionsAgree(predictor: MeanRatePredictor, d: Date) returns (a: RatePrediction, b: RatePrediction)
    requires predictor.Valid()
    ensures a == b
  {
    a := predictor.PredictSingle(d);
    b := predictor.PredictSingle(d);
  }

  // ---------------------------------------------------------------------------
  // The `!equals` loops as written

  /** `while (!prediction.getDate().equals(target)) nextPrediction(prediction)` run for at
      most `fuel` rounds: the prediction it stops at, or None when it is still looping. */
  function RunUntilDated(p: MeanAlgorithm.Prediction, target: Date, fuel: nat): (r: Option<MeanAlgorithm.Prediction>)
    requires |p.usedData| > 0
    ensures r.Some? ==> r.value.prediction.date == target
    decreases fuel
  {
    if p.prediction.date == target then Some(p)
    else if fuel == 0 then None
    else RunUntilDated(MeanAlgorithm.Advance(p), target, fuel - 1)
  }

  /** Once the forecast is dated after target the loop runs for ever: each round dates the
      forecast later still, so it never equals target. */
  lemma {:induction false} RunUntilDatedNeverStops(p: MeanAlgorithm.Prediction, target: Date, fuel: nat)
    requires |p.usedData| > 0 && IsBefore(target, p.prediction.date)
    ensures RunUntilDated(p, target, fuel) == None
    decreases fuel
  {
    if fuel > 0 {
      MeanAlgorithm.AdvanceWindow(p);
      var q := MeanAlgorithm.Advance(p);
      BeforeIffDayNumberLess(target, p.prediction.date);
      BeforeIffDayNumberLess(target, q.prediction.date);
      RunUntilDatedNeverStops(q, target, fuel - 1);
    }
  }

  /** On the series 1, 2, 3 the first forecast is dated 2023-10-13, so predict(2023-10-12, e)
      never leaves its first loop, whatever e is. */
  lemma Series123StartTooEarly(fuel: nat)
    ensures RunUntilDated(MeanAlgorithm.InitialPrediction(MeanAlgorithm.Series123()), Oct2023(12), fuel) == None
  {
    MeanAlgorithm.Series123Initial();
    RunUntilDatedNeverStops(MeanAlgorithm.InitialPrediction(MeanAlgorithm.Series123()), Oct2023(12), fuel);
  }
}
