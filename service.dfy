/** RatePredictionServiceImpl: checks the requested dates against today's date on the
    clock, looks the algorithm up in its map of predictors and hands the call on. */
module Service {
  import opened Dates
  import opened Results
  import opened Rates
  import opened Currency
  import opened DayLoop

  /** RatePredictionAlgorithm */
  datatype Algorithm = MEAN

  /** RatePredictor.predict(currencyType, startDateInclusive, endDateInclusive) */
  type Predictor = (CurrencyType, Date, Option<Date>) -> Result<seq<RatePrediction>>

  /** validateDates: "Start date ... is not in future!" unless start is after today, then
      "End date ... is before start date" for a present end date before start. */
  function ValidateDates(today: Date, start: Date, end: Option<Date>): (r: Option<Error>)
    ensures r == Some(IllegalArgument(StartNotInFuture)) <==> !IsAfter(start, today)
    ensures r == Some(IllegalArgument(EndBeforeStart)) <==> IsAfter(start, today) && end.Some? && IsBefore(end.value, start)
    ensures r == None <==> IsAfter(start, today) && (end.None? || IsOnOrBefore(start, end.value))
  {
    if !IsAfter(start, today) then Some(IllegalArgument(StartNotInFuture))
    else if end.Some? && IsBefore(end.value, start) then Some(IllegalArgument(EndBeforeStart))
    else None
  }

  /** resolveRatePredictor: "Not found algorithm implementation" when the map has none. */
  function ResolvePredictor(predictors: map<Algorithm, Predictor>, algorithm: Algorithm): (r: Result<Predictor>)
    ensures r.Ok? <==> algorithm in predictors
    ensures r.Ok? ==> r.value == predictors[algorithm]
    ensures r.Err? ==> r.error == IllegalArgument(AlgorithmNotFound)
  {
    if algorithm in predictors then Ok(predictors[algorithm]) else Err(IllegalArgument(AlgorithmNotFound))
  }

  /** predictRate: validateDates, then resolveRatePredictor, then the predictor's own answer. */
  function PredictRate(today: Date, predictors: map<Algorithm, Predictor>, algorithm: Algorithm,
                       c: CurrencyType, start: Date, end: Option<Date>): (r: Result<seq<RatePrediction>>)
    ensures ValidateDates(today, start, end).Some? ==> r == Err(ValidateDates(today, start, end).value)
    ensures ValidateDates(today, start, end).None? && algorithm !in predictors ==> r == Err(IllegalArgument(AlgorithmNotFound))
    ensures ValidateDates(today, start, end).None? && algorithm in predictors ==> r == predictors[algorithm](c, start, end)
  {
    var invalid := ValidateDates(today, start, end);
    if invalid.Some? then Err(invalid.value)
    else
      match ResolvePredictor(predictors, algorithm)
      case Err(e) => Err(e)
      case Ok(predictor) => predictor(c, start, end)
  }

  /** Dates are checked before the algorithm is looked up: with invalid dates the answer is
      the date error whatever the map holds, even none at all. */
  lemma DatesCheckedFirst(today: Date, predictors: map<Algorithm, Predictor>, algorithm: Algorithm,
                          c: CurrencyType, start: Date, end: Option<Date>)
    requires ValidateDates(today, start, end).Some?
    ensures PredictRate(today, predictors, algorithm, c, start, end) == PredictRate(today, map[], algorithm, c, start, end)
    ensures PredictRate(today, predictors, algorithm, c, start, end).error.reason in {StartNotInFuture, EndBeforeStart}
  {
  }

  /** A call that reaches a predictor asks for a non-empty run of days that all lie after
      today, so every day loop of the predictors runs at least once. */
  lemma AcceptedRangeIsFuture(today: Date, start: Date, end: Option<Date>)
    requires ValidateDates(today, start, end).None?
    ensures DayCount(start, LastDay(start, end)) >= 1
    ensures IsAfter(LastDay(start, end), today)
  {
    BeforeIffDayNumberLess(today, start);
    BeforeIffDayNumberLess(today, LastDay(start, end));
    BeforeIffDayNumberLess(start, LastDay(start, end));
  }

  /** The pinned clock of 2023-10-25: start dates of the 24th and 25th and end dates before
      the start are refused; the 26th alone, the 26th to the 26th and the 26th to the 27th
      reach the predictor. */
  lemma PinnedClock()
    ensures ValidateDates(Oct2023(25), Oct2023(24), None) == Some(IllegalArgument(StartNotInFuture))
    ensures ValidateDates(Oct2023(25), Oct2023(25), None) == Some(IllegalArgument(StartNotInFuture))
    ensures ValidateDates(Oct2023(25), Oct2023(26), Some(Oct2023(25))) == Some(IllegalArgument(EndBeforeStart))
    ensures ValidateDates(Oct2023(25), Oct2023(28), Some(Oct2023(27))) == Some(IllegalArgument(EndBeforeStart))
    ensures ValidateDates(Oct2023(25), Oct2023(26), None) == None
    ensures ValidateDates(Oct2023(25), Oct2023(26), Some(Oct2023(26))) == None
    ensures ValidateDates(Oct2023(25), Oct2023(26), Some(Oct2023(27))) == None
  {
  }

  /** An empty map refuses every valid request: the test's RatePredictionServiceImpl(clock, Map.of()). */
  lemma EmptyMapRefuses(today: Date, algorithm: Algorithm, c: CurrencyType, start: Date, end: Option<Date>)
    requires ValidateDates(today, start, end).None?
    ensures PredictRate(today, map[], algorithm, c, start, end) == Err(IllegalArgument(AlgorithmNotFound))
  {
  }
}
