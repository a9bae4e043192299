/** RatePredictionFacade: the older entry point. It checks that the requested dates lie
    in the future, creates the predictor and the data source, reads PREDICTION_DEPTH rows
    and hands them to the predictor. */
module Facade {
  import opened Dates
  import opened Results
  import opened Rates
  import opened Currency
  import Service

  /** PREDICTION_DEPTH */
  const PredictionDepth: int := 7

  /** RatePredictor.predict(initialData, startDateInclusive, endDateInclusive) */
  type Predictor = (seq<RatePrediction>, Date, Option<Date>) -> Result<seq<RatePrediction>>

  /** PredictionDataSource.getData(count) */
  type DataSource = int -> Result<seq<RatePrediction>>

  /** DateUtils.isLocalDateInPastOrPresent, with today's date as a parameter. */
  predicate IsInPastOrPresent(d: Date, today: Date) {
    !IsAfter(d, today)
  }

  /** validateDates: "Start date ... is not in future!", then "End date ... is not in
      future!" for a present end date. The order of start and end is not checked. */
  function ValidateDates(today: Date, start: Date, end: Option<Date>): (r: Option<Error>)
    ensures r == Some(IllegalArgument(StartNotInFuture)) <==> !IsAfter(start, today)
    ensures r == Some(IllegalArgument(EndNotInFuture)) <==> IsAfter(start, today) && end.Some? && !IsAfter(end.value, today)
    ensures r == None <==> IsAfter(start, today) && (end.None? || IsAfter(end.value, today))
  {
    if IsInPastOrPresent(start, today) then Some(IllegalArgument(StartNotInFuture))
    else if end.Some? && IsInPastOrPresent(end.value, today) then Some(IllegalArgument(EndNotInFuture))
    else None
  }

  /** predictRate: validateDates, ratePredictorFactory.create(algorithm),
      predictionDataSourceFactory.create(currencyType), getData(PREDICTION_DEPTH), predict.
      An exception from any of them ends the call. */
  function PredictRate(today: Date, createPredictor: Service.Algorithm -> Result<Predictor>,
                       createDataSource: CurrencyType -> Result<DataSource>,
                       algorithm: Service.Algorithm, c: CurrencyType, start: Date, end: Option<Date>): (r: Result<seq<RatePrediction>>)
    ensures ValidateDates(today, start, end).Some? ==> r == Err(ValidateDates(today, start, end).value)
    ensures ValidateDates(today, start, end).None? && createPredictor(algorithm).Err? ==> r == Err(createPredictor(algorithm).error)
    ensures (ValidateDates(today, start, end).None? && createPredictor(algorithm).Ok? && createDataSource(c).Err?) ==>
      r == Err(createDataSource(c).error)
    ensures (ValidateDates(today, start, end).None? && createPredictor(algorithm).Ok? && createDataSource(c).Ok?
             && createDataSource(c).value(PredictionDepth).Err?) ==>
      r == Err(createDataSource(c).value(PredictionDepth).error)
    ensures (ValidateDates(today, start, end).None? && createPredictor(algorithm).Ok? && createDataSource(c).Ok?
             && createDataSource(c).value(PredictionDepth).Ok?) ==>
      r == createPredictor(algorithm).value(createDataSource(c).value(PredictionDepth).value, start, end)
  {
    var invalid := ValidateDates(today, start, end);
    if invalid.Some? then Err(invalid.value)
    else
      match createPredictor(algorithm)
      case Err(e) => Err(e)
      case Ok(predictor) =>
        match createDataSource(c)
        case Err(e) => Err(e)
        case Ok(dataSource) =>
          match dataSource(PredictionDepth)
          case Err(e) => Err(e)
          case Ok(initialData) => predictor(initialData, start, end)
  }

  /** Nothing is created or read before the dates pass: with invalid dates the answer does
      not depend on the factories at all. */
  lemma DatesCheckedFirst(today: Date, createPredictor: Service.Algorithm -> Result<Predictor>,
                          createDataSource: CurrencyType -> Result<DataSource>,
                          otherPredictor: Service.Algorithm -> Result<Predictor>,
                          otherDataSource: CurrencyType -> Result<DataSource>,
                          algorithm: Service.Algorithm, c: CurrencyType, start: Date, end: Option<Date>)
    requires ValidateDates(today, start, end).Some?
    ensures PredictRate(today, createPredictor, createDataSource, algorithm, c, start, end)
      == PredictRate(today, otherPredictor, otherDataSource, algorithm, c, start, end)
  {
  }

  /** Only PREDICTION_DEPTH = 7 rows are read: data sources that agree on getData(7) give
      the same answer, whatever they would return for any other count. */
  lemma ReadsDepthRows(today: Date, createPredictor: Service.Algorithm -> Result<Predictor>,
                       createDataSource: CurrencyType -> Result<DataSource>,
                       otherDataSource: CurrencyType -> Result<DataSource>,
                       algorithm: Service.Algorithm, c: CurrencyType, start: Date, end: Option<Date>)
    requires createDataSource(c).Ok? && otherDataSource(c).Ok?
    requires createDataSource(c).value(7) == otherDataSource(c).value(7)
    ensures PredictRate(today, createPredictor, createDataSource, algorithm, c, start, end)
      == PredictRate(today, createPredictor, otherDataSource, algorithm, c, start, end)
  {
  }

  /** Unlike the service, the facade lets an end date before the start date through when
      both lie in the future; the service refuses the same request. */
  lemma ReversedRangePasses()
    ensures ValidateDates(Oct2023(25), Oct2023(28), Some(Oct2023(27))) == None
    ensures Service.ValidateDates(Oct2023(25), Oct2023(28), Some(Oct2023(27))) == Some(IllegalArgument(EndBeforeStart))
  {
  }

  /** Whatever the service accepts, the facade accepts too. */
  lemma ServiceAcceptedPasses(today: Date, start: Date, end: Option<Date>)
    requires Service.ValidateDates(today, start, end).None?
    ensures ValidateDates(today, start, end).None?
  {
    if end.Some? {
      BeforeIffDayNumberLess(today, start);
      BeforeIffDayNumberLess(start, end.value);
      BeforeIffDayNumberLess(today, end.value);
    }
  }
}
