/** Optional values and the exceptions the forecasting layer throws, as values. */
module Results {

  /** java.util.Optional, and a nullable argument. */
  datatype Option<+T> = None | Some(value: T)

  /** Why an exception was raised; one tag per distinct throw site of the source. */
  datatype Reason =
    | NoInitialData          // no initial data for the mean predictor
    | InvalidInitialData     // initial data dated after today
    | DateNotPredictable     // start date earlier than the first forecast date
    | PreviousYearNotFound   // neither date - 1 year nor the day before it is known
    | NoDataForCurrency      // the year range of an empty series
    | AttemptsExhausted      // no hit within the mystical retry ceiling
    | NotEnoughData          // regression window of the wrong size
    | RegressionNotInitialised
    | StartNotInFuture
    | EndBeforeStart
    | EndNotInFuture
    | AlgorithmNotFound
    | PathNotFound           // no file path configured for a currency
    | FileNotFound           // the configured resource does not exist
    | ReadFailure            // IOException while reading the resource
    | NegativeLimit          // Stream.limit with a negative size
    | MalformedNumber        // NumberFormatException from new BigDecimal(String)
    | DivisionByZero         // ArithmeticException from BigDecimal.divide

  datatype Error =
    | IllegalArgument(reason: Reason)     // IllegalArgumentException and its subclass NumberFormatException
    | IllegalState(reason: Reason)        // IllegalStateException
    | Arithmetic(reason: Reason)          // ArithmeticException
    | EnumConstantNotPresent(code: Option<string>)

  /** A value, or the exception that replaced it. */
  datatype Result<+T> = Ok(value: T) | Err(error: Error)
}
