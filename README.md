# rate-prediction-core in Dafny

This is a model of the forecasting layer of `rate-prediction-core`, the library behind a
command-line tool and a Telegram bot that forecast currency exchange rates (EUR, USD and
TRY against the rouble). It also proves properties of that model.

The model covers:

- **The four forecasting strategies:**
  - the sliding-window mean predictor, in its current form (`algorithm/MeanRatePredictor`) and its earlier in-place form (`core/MeanRatePredictor`);
  - the previous-year lookup with a one-day fallback;
  - the bounded random-year search with its per-currency year-range cache;
  - the linear-regression predictor.
- **The service** (`RatePredictionServiceImpl`), which checks the requested dates against today and picks a strategy.
- **The older facade** (`RatePredictionFacade`).
- **The caching CSV DAO** (`CsvCBRFRatePredictionDao`), including the CSV row mapping.
- **The currency lookup** `CurrencyType.byCode`.

Modules:

| file | module | what it models |
|---|---|---|
| `dates.dfy` | `Dates` | The parts of `java.time.LocalDate` the layer uses: validity, order, `plusDays(1)`, `minusDays(1)`, `minusYears(1)` and `withYear`. `withYear` turns 29 February into 28 February in a common year. A linear day count measures the day loops. |
| `results.dfy` | `Results` | `Optional`, and the exceptions as values. There is one reason tag per throw site. |
| `rates.dfy` | `Rates` | `RatePrediction` and HALF_UP rounding to a scale. Also the mean rounded to 4 places, and `BY_DATE_ASC`/`BY_DATE_DESC` as a stable insertion sort. |
| `currency.dfy` | `Currency` | `CurrencyType` and `byCode`. |
| `dao.dfy` | `Dao` | The DAO interface as the predictors see it, the queries over one series, and `fromRateCBRFCsvRow` with its BigDecimal parsing of the nominal. Also the `readCsv` error paths and the caching class `CsvRatePredictionDao`. |
| `day_loop.dfy` | `DayLoop` | The day loop shared by three predictors: one forecast per day from start through end, where the first failing day ends the call. |
| `mean.dfy` | `MeanAlgorithm` | `algorithm/MeanRatePredictor`, and the pinned series 1, 2, 3. |
| `legacy_mean.dfy` | `LegacyMean` | `core/MeanRatePredictor`, with the window object updated in place, and its `!equals` loops as written. |
| `previous_year.dfy` | `PreviousYear` | `PreviousYearRatePredictor`. |
| `mystical.dfy` | `Mystical` | `MysticalRatePredictor`. |
| `regression.dfy` | `Regression` | `LinearRegressionRatePredictor` and the stateful `LinearRegression` it drives. |
| `service.dfy` | `Service` | `RatePredictionServiceImpl`. |
| `facade.dfy` | `Facade` | `RatePredictionFacade`. |

The imperative parts of the source are imperative in the model:

- the predictors' day loops;
- the two loops of each mean predictor;
- the retry loop and the min/max loop of the mystical predictor;
- the array fill of the regression predictor;
- the cache of the DAO and of the mystical predictor.

Each of these is a `method` or `class`. It is proved equal to a specification function (`PredictSpec`, `Attempts`, `YearRangeSpec`, `FitOf`, `ReadCsv`, and so on), and the properties are lemmas about those functions. Rates are exact rationals (`real`).

These things come in as parameters:

- today's date;
- the values of `java.util.Random`, `draws: nat -> nat`, each reduced into the requested bound;
- the CSV loader, which maps a path to its bound rows, or to "absent" or "unreadable";
- the regression's fitted line.

Three facts about the code shape the model:

- `RatePredictionAlgorithm` declares the single constant `MEAN` (rate-prediction-core/src/main/java/ru/liga/rateprediction/core/algorithm/RatePredictionAlgorithm.java:9), so `Service.Algorithm` has one value.
- `CsvCBRFRatePredictionDao` does not sort a series when it loads it (rate-prediction-core/src/main/java/ru/liga/rateprediction/core/dao/CsvCBRFRatePredictionDao.java:81-89). It keeps file order, and `findByCurrencyTypeAndDate` returns the first point in that order (rate-prediction-core/src/main/java/ru/liga/rateprediction/core/dao/CsvCBRFRatePredictionDao.java:33-37).
- `RatePredictionFacade.validateDates` does not check that the end date is on or after the start date. It only checks that both lie in the future (rate-prediction-core/src/main/java/ru/liga/rateprediction/core/RatePredictionFacade.java:40-52, `Facade.ReversedRangePasses`).

## Model

Source paths are relative to the repository root.

| member | source | states |
|---|---|---|
| Dates.NextDayNumber | rate-prediction-core/src/main/java/ru/liga/rateprediction/core/algorithm/PreviousYearRatePredictor.java:31 | `plusDays(1)` moves one day forward on the day count and gives a later date |
| Dates.PrevDayNumber | rate-prediction-core/src/main/java/ru/liga/rateprediction/core/algorithm/PreviousYearRatePredictor.java:41 | `minusDays(1)` moves one day back and is undone by `plusDays(1)` |
| Dates.WithYear | rate-prediction-core/src/main/java/ru/liga/rateprediction/core/algorithm/MysticalRatePredictor.java:42 | `withYear(y)` keeps month and day in year y; the only exception is 29 February in a common year, which becomes 28 February |
| Dates.MinusYears | rate-prediction-core/src/main/java/ru/liga/rateprediction/core/algorithm/PreviousYearRatePredictor.java:37 | `minusYears(n)` is n years earlier in the same month. The day is kept, or else 29 February becomes 28 February in a target year that is not a leap year |
| Dates.BeforeIffDayNumberLess | rate-prediction-core/src/main/java/ru/liga/rateprediction/core/algorithm/PreviousYearRatePredictor.java:28 | the lexicographic date order of `compareTo` is exactly the order of day counts |
| Dates.DayNumberInjective | rate-prediction-core/src/main/java/ru/liga/rateprediction/core/algorithm/PreviousYearRatePredictor.java:28 | distinct dates have distinct day counts |
| Dates.AddDaysSucc | rate-prediction-core/src/main/java/ru/liga/rateprediction/core/algorithm/PreviousYearRatePredictor.java:31 | n + 1 days later is the day after n days later |
| Dates.AddDaysReaches | rate-prediction-core/src/main/java/ru/liga/rateprediction/core/algorithm/PreviousYearRatePredictor.java:28-32 | stepping forward from a reaches any b on or after it, in exactly the difference of their day counts |
| Dates.DayCount | rate-prediction-core/src/main/java/ru/liga/rateprediction/core/algorithm/PreviousYearRatePredictor.java:28 | the day loop makes no rounds exactly when the end date is before the start date |
| Dates.DayLoopGuard | rate-prediction-core/src/main/java/ru/liga/rateprediction/core/algorithm/PreviousYearRatePredictor.java:28-32 | the loop guard `current.compareTo(end) <= 0` holds at start + i exactly while i is below the day count |
| Dates.DayCountNext | rate-prediction-core/src/main/java/ru/liga/rateprediction/core/algorithm/PreviousYearRatePredictor.java:28-32 | each round leaves one round fewer |
| Dates.ConsecutiveRunEnds | rate-prediction-core/src/main/java/ru/liga/rateprediction/core/algorithm/PreviousYearRatePredictor.java:28-32 | a run of day-count consecutive days from start ends at the end date |
| Dates.DaysSpanRange | rate-prediction-core/src/main/java/ru/liga/rateprediction/core/algorithm/PreviousYearRatePredictor.java:28-32 | the days the loop visits start at start, end at end, are consecutive, and number end - start + 1 |
| Rates.RoundToScale | rate-prediction-core/src/main/java/ru/liga/rateprediction/core/algorithm/MeanRatePredictor.java:117 | the result has at most `scale` fraction digits, and those digits are the nearest to x, ties rounding away from zero (HALF_UP) |
| Rates.HalfUpRoundingUnique | rate-prediction-core/src/main/java/ru/liga/rateprediction/core/algorithm/MeanRatePredictor.java:117 | HALF_UP rounding has exactly one result |
| Rates.RoundToScaleExact | rate-prediction-core/src/main/java/ru/liga/rateprediction/core/algorithm/MeanRatePredictor.java:117 | a value that already has `scale` fraction digits is not changed by rounding |
| Rates.SumAppend | rate-prediction-core/src/main/java/ru/liga/rateprediction/core/algorithm/MeanRatePredictor.java:114-116 | the `BigDecimal::add` reduction of one more point adds that point's rate |
| Rates.Mean4 | rate-prediction-core/src/main/java/ru/liga/rateprediction/core/algorithm/MeanRatePredictor.java:114-117 | the window rate is sum / size rounded HALF_UP to 4 fraction digits |
| Rates.MeanOfConstant | rate-prediction-core/src/main/java/ru/liga/rateprediction/core/MeanRatePredictor.java:104-108 | the mean of a window whose rates are all the same 4-place constant is that constant |
| Rates.SortByDate | rate-prediction-core/src/main/java/ru/liga/rateprediction/core/RatePrediction.java:15 | sorting by `BY_DATE_ASC` (or its reverse) gives a date-ordered permutation of the input |
| Rates.SortSorted | rate-prediction-core/src/main/java/ru/liga/rateprediction/core/RatePrediction.java:15 | a series already in order is left unchanged by the stable sort |
| Rates.InsertPermutes | rate-prediction-core/src/main/java/ru/liga/rateprediction/core/RatePrediction.java:15 | one insertion step adds exactly one element |
| Rates.InsertSorted | rate-prediction-core/src/main/java/ru/liga/rateprediction/core/RatePrediction.java:15 | one insertion step keeps the order |
| Rates.SortedPairwise | rate-prediction-core/src/main/java/ru/liga/rateprediction/core/RatePrediction.java:15 | in a sorted series every earlier point may stand before every later one |
| Rates.SortedPrefix | rate-prediction-core/src/main/java/ru/liga/rateprediction/core/dao/CsvCBRFRatePredictionDao.java:42-43 | a prefix of a sorted series (a `limit`) is sorted |
| Rates.SortedSplit | rate-prediction-core/src/main/java/ru/liga/rateprediction/core/dao/CsvCBRFRatePredictionDao.java:42-43 | every point kept by `limit` may stand before every point it drops |
| Rates.LastIsLatest | rate-prediction-core/src/main/java/ru/liga/rateprediction/core/algorithm/MeanRatePredictor.java:96 | `deque.getLast()` of the ascending deque carries the latest date |
| Currency.FindFirst | rate-prediction-core/src/main/java/ru/liga/rateprediction/core/CurrencyType.java:31-33 | `filter(...).findFirst()` finds the first constant whose code matches ignoring case, and finds nothing exactly when none matches |
| Currency.ByCode | rate-prediction-core/src/main/java/ru/liga/rateprediction/core/CurrencyType.java:30-35 | the result matches the code ignoring case; EnumConstantNotPresentException carrying the code is raised exactly when no constant matches |
| Currency.CodesDistinct | rate-prediction-core/src/main/java/ru/liga/rateprediction/core/CurrencyType.java:14-16 | no two constants have codes that are equal ignoring case |
| Currency.ByCodeRoundTrip | rate-prediction-core/src/main/java/ru/liga/rateprediction/core/CurrencyType.java:14-35 | `byCode(c.getCode()) == c` for every constant |
| Currency.ByCodeIgnoresCase | rate-prediction-core/src/main/java/ru/liga/rateprediction/core/CurrencyType.java:32 | "usd" resolves to USD and "Eur" to EUR |
| Currency.ByCodeUnknown | rate-prediction-core/src/main/java/ru/liga/rateprediction/core/CurrencyType.java:34 | an unknown code ("RUB") and a null code raise EnumConstantNotPresentException |
| Dao.FindByDate | rate-prediction-core/src/main/java/ru/liga/rateprediction/core/dao/CsvCBRFRatePredictionDao.java:33-37 | the result is the first point with an equal date, or empty exactly when no point has that date |
| Dao.FirstOrderByDateDesc | rate-prediction-core/src/main/java/ru/liga/rateprediction/core/dao/CsvCBRFRatePredictionDao.java:40-45 | a negative count is IllegalArgumentException; otherwise the result has min(count, size) points from the series, newest first |
| Dao.FirstOrderByDateDescIsLatest | rate-prediction-core/src/main/java/ru/liga/rateprediction/core/dao/CsvCBRFRatePredictionDao.java:40-45 | no point left out is later than a point returned |
| Dao.FirstOrderByDateDescAll | rate-prediction-core/src/main/java/ru/liga/rateprediction/core/dao/CsvCBRFRatePredictionDao.java:40-45 | a count of at least the size returns the whole series |
| Dao.StripCommas | rate-prediction-core/src/main/java/ru/liga/rateprediction/core/dao/CsvCBRFRatePredictionDao.java:99 | `replaceAll(",", "")` leaves no comma and keeps every other character |
| Dao.StripCommasChar | rate-prediction-core/src/main/java/ru/liga/rateprediction/core/dao/CsvCBRFRatePredictionDao.java:99 | a single comma is removed and any other single character is kept |
| Dao.StripCommasAppend | rate-prediction-core/src/main/java/ru/liga/rateprediction/core/dao/CsvCBRFRatePredictionDao.java:99 | removing commas from a concatenation concatenates the pieces' results, so the other characters keep their order |
| Dao.StripCommasIdentity | rate-prediction-core/src/main/java/ru/liga/rateprediction/core/dao/CsvCBRFRatePredictionDao.java:99 | text without commas is left unchanged |
| Dao.DotIndex | rate-prediction-core/src/main/java/ru/liga/rateprediction/core/dao/CsvCBRFRatePredictionDao.java:99 | the position of the first decimal point, or the length when there is none |
| Dao.ParseDecimal | rate-prediction-core/src/main/java/ru/liga/rateprediction/core/dao/CsvCBRFRatePredictionDao.java:99 | the scale of a parsed `BigDecimal` is its number of fraction digits, which is fewer than the characters of the text |
| Dao.ParseUnsigned | rate-prediction-core/src/main/java/ru/liga/rateprediction/core/dao/CsvCBRFRatePredictionDao.java:99 | the unsigned part of the text reads as a non-negative value, with fewer fraction digits than characters |
| Dao.ParseWithPoint | rate-prediction-core/src/main/java/ru/liga/rateprediction/core/dao/CsvCBRFRatePredictionDao.java:99 | an optional '-', then a digit string with a '.' before its last `scale` digits, parse to the signed value of the digits at that scale |
| Dao.ParseRender | rate-prediction-core/src/main/java/ru/liga/rateprediction/core/dao/CsvCBRFRatePredictionDao.java:99 | every `BigDecimal` written in plain notation (`toPlainString`) parses back to itself, negative values and fraction digits included |
| Dao.ParseRejectsNoDigits | rate-prediction-core/src/main/java/ru/liga/rateprediction/core/dao/CsvCBRFRatePredictionDao.java:99 | the empty text, a sign alone and a point alone are a NumberFormatException |
| Dao.ParseRejectsBadCharacter | rate-prediction-core/src/main/java/ru/liga/rateprediction/core/dao/CsvCBRFRatePredictionDao.java:99 | a second point, a letter and a sign after the first character are a NumberFormatException |
| Dao.DigitsOf | rate-prediction-core/src/main/java/ru/liga/rateprediction/core/dao/CsvCBRFRatePredictionDao.java:99 | the decimal text of a natural number, whose digits evaluate back to that number |
| Dao.ParseDigitsOf | rate-prediction-core/src/main/java/ru/liga/rateprediction/core/dao/CsvCBRFRatePredictionDao.java:99 | parsing the decimal text of n gives n with scale 0 (print then parse is the identity) |
| Dao.NominalWithSeparator | rate-prediction-core/src/main/java/ru/liga/rateprediction/core/dao/CsvCBRFRatePredictionDao.java:99 | the nominal "1,000" is read as 1000 |
| Dao.FromRow | rate-prediction-core/src/main/java/ru/liga/rateprediction/core/dao/CsvCBRFRatePredictionDao.java:97-106 | the date is kept and the rate is raw rate / nominal, rounded HALF_UP at the raw rate's scale. A malformed nominal is NumberFormatException, and only in that case; a zero nominal is ArithmeticException |
| Dao.FromRowNominalOne | rate-prediction-core/src/main/java/ru/liga/rateprediction/core/dao/CsvCBRFRatePredictionDao.java:97-106 | a 4-digit rate at nominal 1 is mapped unchanged |
| Dao.MapEach | rate-prediction-core/src/main/java/ru/liga/rateprediction/core/dao/CsvCBRFRatePredictionDao.java:87-89 | a successful `map(...).collect(toList())` has one element per row |
| Dao.MapEachOk | rate-prediction-core/src/main/java/ru/liga/rateprediction/core/dao/CsvCBRFRatePredictionDao.java:87-89 | the stream completes exactly when every row maps |
| Dao.MapEachValues | rate-prediction-core/src/main/java/ru/liga/rateprediction/core/dao/CsvCBRFRatePredictionDao.java:87-89 | the i-th element is the mapping of the i-th row |
| Dao.MapEachFirstError | rate-prediction-core/src/main/java/ru/liga/rateprediction/core/dao/CsvCBRFRatePredictionDao.java:87-89 | a failed stream carries the exception of the first row that fails |
| Dao.MapRows | rate-prediction-core/src/main/java/ru/liga/rateprediction/core/dao/CsvCBRFRatePredictionDao.java:81-89 | the mapped rows of a resource, one per row |
| Dao.MapRowsCharacterised | rate-prediction-core/src/main/java/ru/liga/rateprediction/core/dao/CsvCBRFRatePredictionDao.java:81-89 | the rows, mapped in file order, when all rows map; otherwise the exception of the first row that does not |
| Dao.ReadCsv | rate-prediction-core/src/main/java/ru/liga/rateprediction/core/dao/CsvCBRFRatePredictionDao.java:65-95 | no configured path and a missing resource are IllegalArgumentException; an I/O failure is IllegalStateException; otherwise the mapped rows |
| Dao.CsvView | rate-prediction-core/src/main/java/ru/liga/rateprediction/core/dao/CsvCBRFRatePredictionDao.java:27-45 | every `findAllByCurrencyType` answer of the DAO is `readCsv` of that currency, and a failing read is the answer of both other queries too |
| Dao.CsvViewQueries | rate-prediction-core/src/main/java/ru/liga/rateprediction/core/dao/CsvCBRFRatePredictionDao.java:32-45 | on a loadable series, `findByCurrencyTypeAndDate` is the first point with the date in file order, and empty exactly when there is none. `getFirstOrderByDateDesc` fails exactly for a negative count. Otherwise it returns min(count, size) points of the series, newest first, and no omitted point is newer than a returned one |
| Dao.CsvRatePredictionDao.constructor | rate-prediction-core/src/main/java/ru/liga/rateprediction/core/dao/CsvCBRFRatePredictionDao.java:19-25 | a new DAO has an empty cache and has read nothing |
| Dao.CsvRatePredictionDao.GetCacheOrRead | rate-prediction-core/src/main/java/ru/liga/rateprediction/core/dao/CsvCBRFRatePredictionDao.java:47-63 | a cache hit changes nothing; a miss reads once and caches only a successful read. The caller gets a fresh copy of what `readCsv` gives, or its exception. The cache invariant holds: every cached series equals `readCsv` and was read once |
| Dao.CsvRatePredictionDao.FindAll | rate-prediction-core/src/main/java/ru/liga/rateprediction/core/dao/CsvCBRFRatePredictionDao.java:28-30 | a fresh copy of the currency's series, through the cache step |
| Dao.CsvRatePredictionDao.FindByCurrencyTypeAndDate | rate-prediction-core/src/main/java/ru/liga/rateprediction/core/dao/CsvCBRFRatePredictionDao.java:33-37 | the first point of the series at that date, through the cache step |
| Dao.CsvRatePredictionDao.GetFirstOrderByDateDesc | rate-prediction-core/src/main/java/ru/liga/rateprediction/core/dao/CsvCBRFRatePredictionDao.java:40-45 | the top-count query over the series, through the cache step |
| Dao.CacheServesRepeatedQueries | rate-prediction-core/src/main/java/ru/liga/rateprediction/core/dao/CsvCBRFRatePredictionDao.java:47-62 | two queries on a new DAO read a loadable series once and return equal but distinct copies; a failing load is read again |
| DayLoop.LastDay | rate-prediction-core/src/main/java/ru/liga/rateprediction/core/algorithm/PreviousYearRatePredictor.java:26 | an absent end date means the start date |
| DayLoop.Collect | rate-prediction-core/src/main/java/ru/liga/rateprediction/core/algorithm/PreviousYearRatePredictor.java:28-32 | a successful collection has one element per index |
| DayLoop.CollectOk | rate-prediction-core/src/main/java/ru/liga/rateprediction/core/algorithm/PreviousYearRatePredictor.java:28-32 | the collection succeeds exactly when every index succeeds |
| DayLoop.CollectAt | rate-prediction-core/src/main/java/ru/liga/rateprediction/core/algorithm/PreviousYearRatePredictor.java:28-32 | element i is the result for index i |
| DayLoop.CollectFirstError | rate-prediction-core/src/main/java/ru/liga/rateprediction/core/algorithm/PreviousYearRatePredictor.java:28-32 | a failure is the failure of the first failing index, all earlier ones succeeding |
| DayLoop.CollectAbort | rate-prediction-core/src/main/java/ru/liga/rateprediction/core/algorithm/PreviousYearRatePredictor.java:28-32 | a failing index after a successful prefix decides every longer collection |
| DayLoop.DayByDay | rate-prediction-core/src/main/java/ru/liga/rateprediction/core/algorithm/PreviousYearRatePredictor.java:28-32 | a successful run of n days has n forecasts |
| DayLoop.DayByDayTotal | rate-prediction-core/src/main/java/ru/liga/rateprediction/core/algorithm/LinearRegressionRatePredictor.java:36-41 | a forecast that cannot fail gives a result for every run |
| DayLoop.DayByDayAt | rate-prediction-core/src/main/java/ru/liga/rateprediction/core/algorithm/PreviousYearRatePredictor.java:28-32 | the i-th forecast is the forecast of day start + i |
| DayLoop.DayByDayFirstError | rate-prediction-core/src/main/java/ru/liga/rateprediction/core/algorithm/PreviousYearRatePredictor.java:28-32 | a failed run fails with the error of its earliest failing day, every earlier day succeeding |
| DayLoop.DayByDaySnoc | rate-prediction-core/src/main/java/ru/liga/rateprediction/core/algorithm/PreviousYearRatePredictor.java:30 | one more successful day appends that day's forecast |
| DayLoop.DayByDayAbort | rate-prediction-core/src/main/java/ru/liga/rateprediction/core/algorithm/PreviousYearRatePredictor.java:30 | an exception on one day ends the whole call with that exception |
| DayLoop.DayByDayCovers | rate-prediction-core/src/main/java/ru/liga/rateprediction/core/algorithm/PreviousYearRatePredictor.java:24-33 | forecasts that carry their own date cover consecutive days from start through end, end - start + 1 of them |
| MeanAlgorithm.Mean4Of | rate-prediction-core/src/main/java/ru/liga/rateprediction/core/algorithm/MeanRatePredictor.java:114-117 | any HALF_UP rounding of sum / size at 4 places is the window rate |
| MeanAlgorithm.FetchInitialData | rate-prediction-core/src/main/java/ru/liga/rateprediction/core/algorithm/MeanRatePredictor.java:68-83 | a DAO exception propagates. Empty data is "No initial data provided!". Data with a point after today is "Invalid initial data provided!". Otherwise the result is the DAO's data, succeeding exactly in that case |
| MeanAlgorithm.ValidateInitialData | rate-prediction-core/src/main/java/ru/liga/rateprediction/core/algorithm/MeanRatePredictor.java:71-79 | the checks pass exactly for non-empty data dated on or before today; an empty list and a future point each give their own IllegalArgumentException |
| MeanAlgorithm.InitialPrediction | rate-prediction-core/src/main/java/ru/liga/rateprediction/core/algorithm/MeanRatePredictor.java:85-98 | the window is the data sorted ascending (a permutation of it). The first forecast is the day after the newest point, later than every point, with the 4-place mean of the data |
| MeanAlgorithm.Advance | rate-prediction-core/src/main/java/ru/liga/rateprediction/core/algorithm/MeanRatePredictor.java:100-109 | one step keeps the window size |
| MeanAlgorithm.AdvanceWindow | rate-prediction-core/src/main/java/ru/liga/rateprediction/core/algorithm/MeanRatePredictor.java:100-109 | FIFO: the oldest point leaves, the current forecast joins at the end, and the next forecast is dated one day later |
| MeanAlgorithm.AdvanceRate | rate-prediction-core/src/main/java/ru/liga/rateprediction/core/algorithm/MeanRatePredictor.java:105-119 | every later forecast is the HALF_UP 4-place mean of the window it was computed from |
| MeanAlgorithm.Iterate | rate-prediction-core/src/main/java/ru/liga/rateprediction/core/algorithm/MeanRatePredictor.java:39-41 | n steps keep the window size |
| MeanAlgorithm.IterateDayNumber | rate-prediction-core/src/main/java/ru/liga/rateprediction/core/algorithm/MeanRatePredictor.java:113 | after n steps the forecast is dated n days after the first forecast |
| MeanAlgorithm.IterateStep | rate-prediction-core/src/main/java/ru/liga/rateprediction/core/algorithm/MeanRatePredictor.java:39-41 | one more step after n steps is n + 1 steps |
| MeanAlgorithm.Offset | rate-prediction-core/src/main/java/ru/liga/rateprediction/core/algorithm/MeanRatePredictor.java:39-41 | the number of steps from the first forecast date to the start date |
| MeanAlgorithm.ForecastCount | rate-prediction-core/src/main/java/ru/liga/rateprediction/core/algorithm/MeanRatePredictor.java:43-53 | predict always returns at least one forecast |
| MeanAlgorithm.DaySpan | rate-prediction-core/src/main/java/ru/liga/rateprediction/core/algorithm/MeanRatePredictor.java:49-52 | a start before the end gives end - start + 1 forecasts, at least two |
| MeanAlgorithm.Forecasts | rate-prediction-core/src/main/java/ru/liga/rateprediction/core/algorithm/MeanRatePredictor.java:43-53 | the forecasts of steps lo .. hi - 1, hi - lo of them |
| MeanAlgorithm.ForecastsAt | rate-prediction-core/src/main/java/ru/liga/rateprediction/core/algorithm/MeanRatePredictor.java:43-53 | the i-th collected forecast is the one of step lo + i |
| MeanAlgorithm.MeanRatePredictor.constructor | rate-prediction-core/src/main/java/ru/liga/rateprediction/core/algorithm/MeanRatePredictor.java:25-28 | keeps the DAO and the depth |
| MeanAlgorithm.MeanRatePredictor.NextPrediction | rate-prediction-core/src/main/java/ru/liga/rateprediction/core/algorithm/MeanRatePredictor.java:100-109 | the step on a copy of the deque is the FIFO step, and it leaves the prediction passed in as it was |
| MeanAlgorithm.MeanRatePredictor.Predict | rate-prediction-core/src/main/java/ru/liga/rateprediction/core/algorithm/MeanRatePredictor.java:30-55 | the method returns the specification of predict: fetch errors, then checkIsPredictionPossible, then the forecasts from start |
| MeanAlgorithm.MeanRatePredictor.StepTo | rate-prediction-core/src/main/java/ru/liga/rateprediction/core/algorithm/MeanRatePredictor.java:39-41 | the first loop stops at the forecast dated exactly the start date, Offset steps in |
| MeanAlgorithm.MeanRatePredictor.StepThrough | rate-prediction-core/src/main/java/ru/liga/rateprediction/core/algorithm/MeanRatePredictor.java:43-53 | the second loop collects exactly the forecasts of the steps from start through end |
| MeanAlgorithm.MeanRatePredictor.PredictFromFirst | rate-prediction-core/src/main/java/ru/liga/rateprediction/core/algorithm/MeanRatePredictor.java:36-54 | a start before the first forecast date is IllegalArgumentException; otherwise the forecasts from start, a single one when there is no end date |
| MeanAlgorithm.PredictErrors | rate-prediction-core/src/main/java/ru/liga/rateprediction/core/algorithm/MeanRatePredictor.java:57-79 | each of no initial data, a future initial point, and a start before the first forecast date is its own IllegalArgumentException |
| MeanAlgorithm.ForecastDayNumbers | rate-prediction-core/src/main/java/ru/liga/rateprediction/core/algorithm/MeanRatePredictor.java:43-53 | the i-th forecast is dated lo + i days after the first forecast |
| MeanAlgorithm.PredictFromShape | rate-prediction-core/src/main/java/ru/liga/rateprediction/core/algorithm/MeanRatePredictor.java:39-54 | the output starts at start and is consecutive. It has a single point without an end date or with an end not after start; otherwise it ends at end with end - start + 1 points |
| MeanAlgorithm.PredictShape | rate-prediction-core/src/main/java/ru/liga/rateprediction/core/algorithm/MeanRatePredictor.java:30-55 | the same shape for every successful predict call |
| MeanAlgorithm.AdvanceConstant | rate-prediction-core/src/main/java/ru/liga/rateprediction/core/algorithm/MeanRatePredictor.java:100-109 | a step from a constant window and forecast stays constant |
| MeanAlgorithm.IterateConstant | rate-prediction-core/src/main/java/ru/liga/rateprediction/core/algorithm/MeanRatePredictor.java:39-41 | any number of steps from a constant prediction stays constant |
| MeanAlgorithm.IterateRateConstant | rate-prediction-core/src/main/java/ru/liga/rateprediction/core/algorithm/MeanRatePredictor.java:39-41 | after any number of steps the forecast is the constant |
| MeanAlgorithm.ForecastsConstant | rate-prediction-core/src/main/java/ru/liga/rateprediction/core/algorithm/MeanRatePredictor.java:43-53 | every collected forecast from a constant prediction carries the constant |
| MeanAlgorithm.InitialConstant | rate-prediction-core/src/main/java/ru/liga/rateprediction/core/algorithm/MeanRatePredictor.java:85-98 | the first prediction of a constant series is constant |
| MeanAlgorithm.PredictFromConstant | rate-prediction-core/src/main/java/ru/liga/rateprediction/core/algorithm/MeanRatePredictor.java:39-54 | every forecast from a constant prediction carries the constant |
| MeanAlgorithm.ConstantSeriesForecastsConstant | rate-prediction-core/src/test/java/ru/liga/rateprediction/core/algorithm/MeanRatePredictorTest.java:24-43 | a constant series (a 4-place rate) forecasts that constant on every day |
| MeanAlgorithm.SumOfThree | rate-prediction-core/src/main/java/ru/liga/rateprediction/core/algorithm/MeanRatePredictor.java:114-116 | the sum of a window of three is the sum of its three rates |
| MeanAlgorithm.MeanOfThree | rate-prediction-core/src/main/java/ru/liga/rateprediction/core/algorithm/MeanRatePredictor.java:114-117 | the mean of a window of three is the rounded third of its rates' sum |
| MeanAlgorithm.AdvanceThree | rate-prediction-core/src/main/java/ru/liga/rateprediction/core/algorithm/MeanRatePredictor.java:100-109 | one step on a window of three is the mean of the two newest points and the forecast, dated the next day |
| MeanAlgorithm.Series123Sorted | rate-prediction-core/src/test/java/ru/liga/rateprediction/core/algorithm/MeanRatePredictorTest.java:105-109 | the series 1, 2, 3 is already in ascending date order |
| MeanAlgorithm.InitialOfSorted | rate-prediction-core/src/main/java/ru/liga/rateprediction/core/algorithm/MeanRatePredictor.java:85-98 | for sorted data the window is the data itself |
| MeanAlgorithm.Series123Initial | rate-prediction-core/src/test/java/ru/liga/rateprediction/core/algorithm/MeanRatePredictorTest.java:110-111 | the first forecast from 1, 2, 3 is 2 on 2023-10-13 |
| MeanAlgorithm.IterateThree | rate-prediction-core/src/main/java/ru/liga/rateprediction/core/algorithm/MeanRatePredictor.java:100-109 | the step from a three-point window, k steps in |
| MeanAlgorithm.OctoberNextDay | rate-prediction-core/src/main/java/ru/liga/rateprediction/core/algorithm/MeanRatePredictor.java:113 | the day after an October day other than the 31st |
| MeanAlgorithm.Series123Steps | rate-prediction-core/src/test/java/ru/liga/rateprediction/core/algorithm/MeanRatePredictorTest.java:110-117 | the recurrence on 1, 2, 3 gives 2, 2.3333, 2.4444, 2.2592, 2.3456 and 2.3497 on 10/13 .. 10/18 |
| MeanAlgorithm.Series123Fetch | rate-prediction-core/src/main/java/ru/liga/rateprediction/core/algorithm/MeanRatePredictor.java:68-83 | with today 2023-10-14 the series 1, 2, 3 passes the initial-data checks |
| MeanAlgorithm.October2023Span | rate-prediction-core/src/main/java/ru/liga/rateprediction/core/algorithm/MeanRatePredictor.java:39-53 | 10/16 is three steps after 10/13, and 10/16 .. 10/18 is three forecasts |
| MeanAlgorithm.Series123RangeFrom | rate-prediction-core/src/test/java/ru/liga/rateprediction/core/algorithm/MeanRatePredictorTest.java:102-123 | from the first prediction of 1, 2, 3 the range 10/16 .. 10/18 is 2.2592, 2.3456, 2.3497 |
| MeanAlgorithm.Series123SingleFrom | rate-prediction-core/src/test/java/ru/liga/rateprediction/core/algorithm/MeanRatePredictorTest.java:44-58 | the single forecast for 10/16 is 2.2592 |
| MeanAlgorithm.Series123Range | rate-prediction-core/src/test/java/ru/liga/rateprediction/core/algorithm/MeanRatePredictorTest.java:102-123 | predict over a DAO holding 1, 2, 3 gives 2.2592, 2.3456, 2.3497 for 10/16 .. 10/18 |
| LegacyMean.Prediction.constructor | rate-prediction-core/src/main/java/ru/liga/rateprediction/core/MeanRatePredictor.java:113-119 | the object holds the window and the forecast it is given |
| LegacyMean.Create | rate-prediction-core/src/main/java/ru/liga/rateprediction/core/MeanRatePredictor.java:19-34 | construction succeeds exactly for non-empty data with no point after today. The errors are the same two IllegalArgumentExceptions, and a success keeps a copy of the data |
| LegacyMean.MeanRatePredictor.constructor | rate-prediction-core/src/main/java/ru/liga/rateprediction/core/MeanRatePredictor.java:19-22 | keeps the validated data |
| LegacyMean.MeanRatePredictor.First | rate-prediction-core/src/main/java/ru/liga/rateprediction/core/MeanRatePredictor.java:70-82 | the rebuilt window has the size of the stored data |
| LegacyMean.MeanRatePredictor.DoInitialPrediction | rate-prediction-core/src/main/java/ru/liga/rateprediction/core/MeanRatePredictor.java:70-82 | every call builds a new object holding the same first prediction from the stored copy |
| LegacyMean.MeanRatePredictor.NextPrediction | rate-prediction-core/src/main/java/ru/liga/rateprediction/core/MeanRatePredictor.java:84-94 | the in-place step is the FIFO step. The deque length is unchanged and the forecast date moves one day on |
| LegacyMean.MeanRatePredictor.PredictSingle | rate-prediction-core/src/main/java/ru/liga/rateprediction/core/MeanRatePredictor.java:61-68 | the loop stops after SingleSteps steps |
| LegacyMean.MeanRatePredictor.PredictRange | rate-prediction-core/src/main/java/ru/liga/rateprediction/core/MeanRatePredictor.java:43-58 | on the inputs where both loops end, the range predict returns what the current mean predictor returns for the same first prediction |
| LegacyMean.MeanRatePredictor.StepTo | rate-prediction-core/src/main/java/ru/liga/rateprediction/core/MeanRatePredictor.java:46-48 | the `!equals` loop stops at the prediction Offset steps in |
| LegacyMean.MeanRatePredictor.StepThrough | rate-prediction-core/src/main/java/ru/liga/rateprediction/core/MeanRatePredictor.java:50-55 | the second `!equals` loop collects the forecasts from start through end |
| LegacyMean.PredictSingleDate | rate-prediction-core/src/main/java/ru/liga/rateprediction/core/MeanRatePredictor.java:61-68 | the single-date forecast is dated max(requested date, first forecast date) |
| LegacyMean.NotYetReached | rate-prediction-core/src/main/java/ru/liga/rateprediction/core/MeanRatePredictor.java:46 | a forecast not yet dated the target is fewer than Offset steps in |
| LegacyMean.Reached | rate-prediction-core/src/main/java/ru/liga/rateprediction/core/MeanRatePredictor.java:46 | a forecast dated the target is exactly Offset steps in |
| LegacyMean.Series123Single | rate-prediction-core/src/test/java/ru/liga/rateprediction/core/MeanRatePredictorTest.java:35-49 | predict(2023-10-16) on 1, 2, 3 is 2.2592 |
| LegacyMean.ConstantSeriesSingle | rate-prediction-core/src/main/java/ru/liga/rateprediction/core/MeanRatePredictor.java:104-108 | on a constant series the single-date forecast is the constant |
| LegacyMean.RepeatedPredictionsAgree | rate-prediction-core/src/main/java/ru/liga/rateprediction/core/MeanRatePredictor.java:70-82 | two predict calls on one predictor give the same forecast, because each rebuilds its window from the unchanged copy |
| LegacyMean.RunUntilDated | rate-prediction-core/src/main/java/ru/liga/rateprediction/core/MeanRatePredictor.java:46-48 | when the `!equals` loop stops, it stops at a forecast dated the target |
| LegacyMean.RunUntilDatedNeverStops | rate-prediction-core/src/main/java/ru/liga/rateprediction/core/MeanRatePredictor.java:46-55 | once the forecast is dated after the target, the loop never stops, for any number of rounds |
| LegacyMean.Series123StartTooEarly | rate-prediction-core/src/main/java/ru/liga/rateprediction/core/MeanRatePredictor.java:46-48 | predict(2023-10-12, e) on 1, 2, 3 never leaves its first loop |
| PreviousYear.PredictPreviousYear | rate-prediction-core/src/main/java/ru/liga/rateprediction/core/algorithm/PreviousYearRatePredictor.java:36-50 | a point at d - 1 year gives its rate. On a miss the day before it is looked up; both missing is IllegalArgumentException, and DAO exceptions propagate. The point always carries d |
| PreviousYear.PreviousYearRatePredictor.constructor | rate-prediction-core/src/main/java/ru/liga/rateprediction/core/algorithm/PreviousYearRatePredictor.java:14-17 | keeps the DAO |
| PreviousYear.PreviousYearRatePredictor.Predict | rate-prediction-core/src/main/java/ru/liga/rateprediction/core/algorithm/PreviousYearRatePredictor.java:19-34 | the day loop returns the day-by-day forecasts of predictPreviousYear, or the first day's exception |
| PreviousYear.DirectHitIgnoresFallback | rate-prediction-core/src/main/java/ru/liga/rateprediction/core/algorithm/PreviousYearRatePredictor.java:37-44 | with a hit at d - 1 year, what the DAO would answer for the fallback date does not matter |
| PreviousYear.SeriesLookup | rate-prediction-core/src/main/java/ru/liga/rateprediction/core/algorithm/PreviousYearRatePredictor.java:36-50 | over a series, a forecast exists exactly when d - 1 year or the day before it is present. The direct date wins when both are present |
| PreviousYear.PredictSingle | rate-prediction-core/src/main/java/ru/liga/rateprediction/core/algorithm/PreviousYearRatePredictor.java:24-33 | an absent end date gives exactly the start date's forecast (or its exception) |
| PreviousYear.PredictEmptyRange | rate-prediction-core/src/main/java/ru/liga/rateprediction/core/algorithm/PreviousYearRatePredictor.java:28 | an end before the start gives an empty list |
| PreviousYear.PredictShape | rate-prediction-core/src/main/java/ru/liga/rateprediction/core/algorithm/PreviousYearRatePredictor.java:24-33 | a successful range is one point per day from start through end, consecutive, each the previous-year forecast of its day |
| PreviousYear.PredictAborts | rate-prediction-core/src/main/java/ru/liga/rateprediction/core/algorithm/PreviousYearRatePredictor.java:28-49 | a failed range is the exception of its earliest failing day, every earlier day having a forecast |
| PreviousYear.MixedRange | rate-prediction-core/src/test/java/ru/liga/rateprediction/core/algorithm/PreviousYearRatePredictorTest.java:42-78 | in a two-day range, one day can use the fallback while the next uses its direct hit |
| Mystical.RandomYear | rate-prediction-core/src/main/java/ru/liga/rateprediction/core/algorithm/MysticalRatePredictor.java:90-92 | every drawn year lies in [yearFrom, yearTo] |
| Mystical.RandomYearOnto | rate-prediction-core/src/main/java/ru/liga/rateprediction/core/algorithm/MysticalRatePredictor.java:90-92 | every year of the range can be drawn |
| Mystical.MinYearIsEarliest | rate-prediction-core/src/main/java/ru/liga/rateprediction/core/algorithm/MysticalRatePredictor.java:65-75 | the minimum is the year of some point and no point is earlier |
| Mystical.MaxYearIsLatest | rate-prediction-core/src/main/java/ru/liga/rateprediction/core/algorithm/MysticalRatePredictor.java:65-75 | the maximum is the year of some point and no point is later |
| Mystical.ExtremeYearsUnique | rate-prediction-core/src/main/java/ru/liga/rateprediction/core/algorithm/MysticalRatePredictor.java:65-75 | the earliest and the latest year are unique |
| Mystical.YearRangeSpec | rate-prediction-core/src/main/java/ru/liga/rateprediction/core/algorithm/MysticalRatePredictor.java:57-79 | a computed range is never empty |
| Mystical.YearRangeMeaning | rate-prediction-core/src/main/java/ru/liga/rateprediction/core/algorithm/MysticalRatePredictor.java:57-79 | an empty series is IllegalArgumentException and a DAO exception propagates; otherwise the range is the earliest and the latest year of the series |
| Mystical.AttemptsBounds | rate-prediction-core/src/main/java/ru/liga/rateprediction/core/algorithm/MysticalRatePredictor.java:40-46 | at most `count` attempts. A miss makes all of them; a hit or an exception ends with the lookup that produced it |
| Mystical.AttemptsMissBefore | rate-prediction-core/src/main/java/ru/liga/rateprediction/core/algorithm/MysticalRatePredictor.java:40-46 | every lookup before the last came back empty, so the loop stops at the first hit |
| Mystical.AttemptsAllMiss | rate-prediction-core/src/main/java/ru/liga/rateprediction/core/algorithm/MysticalRatePredictor.java:40-46 | the search ends without a hit exactly when all its lookups are empty |
| Mystical.AttemptsStep | rate-prediction-core/src/main/java/ru/liga/rateprediction/core/algorithm/MysticalRatePredictor.java:40-46 | an empty lookup moves on one draw; anything else ends the search |
| Mystical.RunAttempts | rate-prediction-core/src/main/java/ru/liga/rateprediction/core/algorithm/MysticalRatePredictor.java:39-46 | the for loop ends as the search specification does and reports the draws it used |
| Mystical.Conclude | rate-prediction-core/src/main/java/ru/liga/rateprediction/core/algorithm/MysticalRatePredictor.java:48-54 | a forecast exists exactly when a lookup hit; it carries the query date |
| Mystical.ConcludeMeaning | rate-prediction-core/src/main/java/ru/liga/rateprediction/core/algorithm/MysticalRatePredictor.java:39-54 | a forecast has the rate of the last lookup, all earlier ones being empty. A failure is that lookup's exception, or IllegalArgumentException after `count` empty lookups |
| Mystical.MysticDay | rate-prediction-core/src/main/java/ru/liga/rateprediction/core/algorithm/MysticalRatePredictor.java:37-55 | a year-range exception uses no draws. Otherwise a day takes between 1 and countOfYears draws, and a forecast carries the query date |
| Mystical.MysticDayAttempts | rate-prediction-core/src/main/java/ru/liga/rateprediction/core/algorithm/MysticalRatePredictor.java:37-55 | once the range is known, the day is decided by the attempts alone |
| Mystical.MysticDayExhausted | rate-prediction-core/src/main/java/ru/liga/rateprediction/core/algorithm/MysticalRatePredictor.java:48-53 | a date missing in every year of the range fails after exactly countOfYears lookups |
| Mystical.RunSnoc | rate-prediction-core/src/main/java/ru/liga/rateprediction/core/algorithm/MysticalRatePredictor.java:29-33 | the next day draws from where the previous day stopped and extends or ends the run |
| Mystical.RunStaysFailed | rate-prediction-core/src/main/java/ru/liga/rateprediction/core/algorithm/MysticalRatePredictor.java:29-33 | after a failing day no later day is tried |
| Mystical.RunFailsAt | rate-prediction-core/src/main/java/ru/liga/rateprediction/core/algorithm/MysticalRatePredictor.java:29-33 | a failing day decides the run's error and its draw count |
| Mystical.RunDates | rate-prediction-core/src/main/java/ru/liga/rateprediction/core/algorithm/MysticalRatePredictor.java:25-34 | a successful run holds one forecast per day, dated start + i, and takes at least one draw per day |
| Mystical.MysticSteps | rate-prediction-core/src/main/java/ru/liga/rateprediction/core/algorithm/MysticalRatePredictor.java:37-55 | the day step of the loop is predictMystic at the current generator position |
| Mystical.PredictShape | rate-prediction-core/src/main/java/ru/liga/rateprediction/core/algorithm/MysticalRatePredictor.java:25-34 | a successful range is one point per day from start through end, in order |
| Mystical.PredictSingle | rate-prediction-core/src/main/java/ru/liga/rateprediction/core/algorithm/MysticalRatePredictor.java:26-33 | an absent end date gives the start date's forecast alone |
| Mystical.PredictNoData | rate-prediction-core/src/main/java/ru/liga/rateprediction/core/algorithm/MysticalRatePredictor.java:57-62 | an empty series fails the first day with no draw and no further day |
| Mystical.MysticalRatePredictor.constructor | rate-prediction-core/src/main/java/ru/liga/rateprediction/core/algorithm/MysticalRatePredictor.java:14-19 | a new predictor has an empty year-range map and a generator at position 0 |
| Mystical.MysticalRatePredictor.ComputeYearRange | rate-prediction-core/src/main/java/ru/liga/rateprediction/core/algorithm/MysticalRatePredictor.java:57-79 | the min/max loop computes the specified range with exactly one `findAllByCurrencyType` |
| Mystical.MysticalRatePredictor.YearRangeFor | rate-prediction-core/src/main/java/ru/liga/rateprediction/core/algorithm/MysticalRatePredictor.java:38 | `computeIfAbsent`: a cached currency is not read again. A miss reads once and stores only a successful range, and the map holds only correct ranges |
| Mystical.MysticalRatePredictor.PredictMystic | rate-prediction-core/src/main/java/ru/liga/rateprediction/core/algorithm/MysticalRatePredictor.java:37-55 | the day's forecast is MysticDay at the current position, which moves on by the draws used; the year range is read at most once |
| Mystical.MysticalRatePredictor.Predict | rate-prediction-core/src/main/java/ru/liga/rateprediction/core/algorithm/MysticalRatePredictor.java:21-35 | the day loop returns the specified run with one shared generator. `findAllByCurrencyType` is called at most once per currency across the range |
| Mystical.MysticalRatePredictor.PredictDay | rate-prediction-core/src/main/java/ru/liga/rateprediction/core/algorithm/MysticalRatePredictor.java:29-33 | one round of the day loop: its forecast extends the run by one day, a failure is the outcome of the whole range, and the year range is read at most once |
| Regression.LinearRegression.constructor | rate-prediction-core/src/main/java/ru/liga/rateprediction/core/algorithm/regression/LinearRegressionFromInternetAdapter.java:7-8 | a new regression is not initialised |
| Regression.LinearRegression.Init | rate-prediction-core/src/main/java/ru/liga/rateprediction/core/algorithm/regression/LinearRegressionFromInternetAdapter.java:18-23 | `init(x, y)` fits to the two arrays' contents and records the call |
| Regression.LinearRegression.Predict | rate-prediction-core/src/main/java/ru/liga/rateprediction/core/algorithm/regression/LinearRegressionFromInternetAdapter.java:10-16 | IllegalArgumentException exactly before init; otherwise the fitted line's value at the date |
| Regression.InitialData | rate-prediction-core/src/main/java/ru/liga/rateprediction/core/algorithm/LinearRegressionRatePredictor.java:47-53 | a DAO exception propagates. A window of other than depth points is "Not enough data"; otherwise the depth fetched points in ascending date order |
| Regression.FitOf | rate-prediction-core/src/main/java/ru/liga/rateprediction/core/algorithm/LinearRegressionRatePredictor.java:55-61 | `dates[i]` and `rates[i]` come from the same point i, one entry per point |
| Regression.FitDatesAscending | rate-prediction-core/src/main/java/ru/liga/rateprediction/core/algorithm/LinearRegressionRatePredictor.java:47-61 | the regression sees its dates in ascending order |
| Regression.Evaluations | rate-prediction-core/src/main/java/ru/liga/rateprediction/core/algorithm/LinearRegressionRatePredictor.java:36-41 | one regression evaluation per forecast, at that forecast's date, in order |
| Regression.FillArrays | rate-prediction-core/src/main/java/ru/liga/rateprediction/core/algorithm/LinearRegressionRatePredictor.java:55-61 | the index-by-index loop fills two new arrays with exactly FitOf of the points |
| Regression.LinearRegressionRatePredictor.constructor | rate-prediction-core/src/main/java/ru/liga/rateprediction/core/algorithm/LinearRegressionRatePredictor.java:18-24 | keeps the DAO, the regression and the depth |
| Regression.LinearRegressionRatePredictor.InitRegression | rate-prediction-core/src/main/java/ru/liga/rateprediction/core/algorithm/LinearRegressionRatePredictor.java:46-66 | a window error leaves the regression untouched; otherwise it is initialised once with FitOf of the ascending window |
| Regression.LinearRegressionRatePredictor.Predict | rate-prediction-core/src/main/java/ru/liga/rateprediction/core/algorithm/LinearRegressionRatePredictor.java:26-43 | the result is the specified one. On success the regression is fitted to the window's dates and rates, and saw exactly one init and then one evaluation per returned day. On failure the fit is unchanged and there was no call at all |
| Regression.LinearRegressionRatePredictor.PredictDays | rate-prediction-core/src/main/java/ru/liga/rateprediction/core/algorithm/LinearRegressionRatePredictor.java:36-41 | the day loop gives the line's value for each day from start through end, with one evaluation per day |
| Regression.PredictRejectsWindow | rate-prediction-core/src/main/java/ru/liga/rateprediction/core/algorithm/LinearRegressionRatePredictor.java:51-53 | a window of the wrong size, or a DAO exception, fails the call before any forecast |
| Regression.PredictShape | rate-prediction-core/src/main/java/ru/liga/rateprediction/core/algorithm/LinearRegressionRatePredictor.java:32-42 | with a full window the call succeeds with one point per day, dated start + i, each with the regression's value for that date |
| Regression.PredictRange | rate-prediction-core/src/test/java/ru/liga/rateprediction/core/algorithm/LinearRegressionRatePredictorTest.java:71-101 | a range gives consecutive days from start through end, end - start + 1 points |
| Regression.PredictSingle | rate-prediction-core/src/main/java/ru/liga/rateprediction/core/algorithm/LinearRegressionRatePredictor.java:34 | an absent end date gives the single point of the start date |
| Service.ValidateDates | rate-prediction-core/src/main/java/ru/liga/rateprediction/core/RatePredictionServiceImpl.java:47-59 | "not in future" exactly when the start is on or before today. "Before start date" exactly for a present end before a future start. None exactly otherwise, so an end equal to the start is accepted |
| Service.ResolvePredictor | rate-prediction-core/src/main/java/ru/liga/rateprediction/core/RatePredictionServiceImpl.java:36-45 | the mapped predictor exactly when the map has one; otherwise "Not found algorithm implementation" |
| Service.PredictRate | rate-prediction-core/src/main/java/ru/liga/rateprediction/core/RatePredictionServiceImpl.java:21-34 | a date error, else a missing algorithm error, else the mapped predictor's answer for the same arguments, unchanged |
| Service.DatesCheckedFirst | rate-prediction-core/src/main/java/ru/liga/rateprediction/core/RatePredictionServiceImpl.java:30-31 | with invalid dates the answer is a date error whatever the map holds |
| Service.AcceptedRangeIsFuture | rate-prediction-core/src/main/java/ru/liga/rateprediction/core/RatePredictionServiceImpl.java:47-59 | a request that passes asks for at least one day, all after today |
| Service.PinnedClock | rate-prediction-core/src/test/java/ru/liga/rateprediction/core/RatePredictionServiceImplTest.java:29-69 | with today 2023-10-25: start 10/24 or 10/25, and an end before start, are refused; 10/26 alone, 10/26 - 10/26 and 10/26 - 10/27 pass |
| Service.EmptyMapRefuses | rate-prediction-core/src/test/java/ru/liga/rateprediction/core/RatePredictionServiceImplTest.java:71-82 | an empty map refuses every valid request |
| Facade.ValidateDates | rate-prediction-core/src/main/java/ru/liga/rateprediction/core/RatePredictionFacade.java:40-52 | the start error exactly for a start on or before today. The end error exactly for a present end on or before today after a future start. None exactly when both lie in the future or the end is absent |
| Facade.PredictRate | rate-prediction-core/src/main/java/ru/liga/rateprediction/core/RatePredictionFacade.java:29-38 | a date error, else the predictor factory's error, else the data-source factory's error, else the error of `getData(PREDICTION_DEPTH)`, else the predictor's answer on those rows |
| Facade.DatesCheckedFirst | rate-prediction-core/src/main/java/ru/liga/rateprediction/core/RatePredictionFacade.java:33-37 | with invalid dates the answer does not depend on the factories, so nothing is created first |
| Facade.ReadsDepthRows | rate-prediction-core/src/main/java/ru/liga/rateprediction/core/RatePredictionFacade.java:18-37 | only `getData(7)` is read: sources that agree on it give the same answer |
| Facade.ReversedRangePasses | rate-prediction-core/src/main/java/ru/liga/rateprediction/core/RatePredictionFacade.java:40-52 | the facade lets 10/28 - 10/27 through where the service refuses it |
| Facade.ServiceAcceptedPasses | rate-prediction-core/src/main/java/ru/liga/rateprediction/core/RatePredictionFacade.java:40-52 | whatever the service's validation accepts, the facade's accepts too |

## Left out

- `synchronized` and double-checked locking in `getCacheOrRead` are concurrency. The cache is a sequential check-then-populate map.
- OpenCSV, resource streams and `CsvParserParams` are library I/O. A resource is given as its bound rows, or as absent or unreadable. OpenCSV's own parse errors (a malformed date or rate) are not modelled.
- `LinearRegressionFromInternet` and the adapter's `double` conversions (`toEpochDay`, `doubleValue`) are floating point code that is not part of this model. The fitted line is the parameter `line` of `Regression.LinearRegression`.
- `LocalDate.now()` and `Clock` become the parameter `today`.
- `java.util.Random` becomes the parameter `draws`.
- Mystical.RandomYear: reduces a raw value into the bound. It states the range promise of `nextInt`, not its distribution.
- Dates.Date: the year bounds of `LocalDate` (±999999999) are not modelled.
- Rates.Mean4: BigDecimal values are modelled by their exact value, not their scale. `2.2592` and `2.25920` are the same rate here.
- Dao.ParseDecimal: only the plain notation (sign, digits, optional fraction) of `new BigDecimal(String)` is modelled. Exponent notation and surrounding white space count as a NumberFormatException. `new BigDecimal(String)` accepts any character for which `Character.isDigit` holds, but the model accepts the ASCII digits '0'-'9' only. The contract of ParseDecimal itself bounds only the scale. Which texts parse, and to what, is stated by ParseRender (every plain rendering reads back), ParseWithPoint and the two ParseRejects lemmas.
- Currency.EqualsIgnoreCase: case folding is ASCII only. The codes are ASCII, but non-ASCII input that Java would fold is not.
- Null lists and null arguments are not modelled, since sequences cannot be null. The source's `null || isEmpty()` checks are the empty-list case.
- `logPredictions` and all logging are left out.
- LegacyMean.MeanRatePredictor.PredictRange: requires the start date not to be before the first forecast date, and the end date not to be before the start date. On other inputs its `!equals` loops never end (see Findings).
- Service.PredictRate: the strategies it calls are pure functions of their arguments. The state a strategy keeps between calls is modelled in each strategy and not threaded through the service.
- Facade.PredictRate: `RatePredictorFactory`, `PredictionDataSourceFactory` and the data source they create are function parameters. The factories' wiring refers to constructors that differ from the ones modelled.
- The Telegram bot and the command-line front ends (commands, parsers, output formatters, `Main`) are transport and user interface.
- Mystical.MysticalRatePredictor.Predict: the calls to `findByCurrencyTypeAndDate` are not recorded. Their number is the number of draws used.

## Findings

| source | as written | input that shows it | evidently intended | confidence | as-written member | corrected member |
|---|---|---|---|---|---|---|
| rate-prediction-core/src/main/java/ru/liga/rateprediction/core/MeanRatePredictor.java:46-55 | the range `predict` loops `while (!date.equals(target))`. Once the forecast is dated after the target, no later forecast equals it, so the call never returns | series 1, 2, 3 on 2023-10-10 .. 12: the first forecast is dated 2023-10-13. Then predict(2023-10-12, e) never leaves its first loop. An end date before the start date never ends the second | a start before the first forecast date is an IllegalArgumentException, and the loops compare with `isAfter`, as `algorithm/MeanRatePredictor` does | not executed | LegacyMean.Series123StartTooEarly | MeanAlgorithm.MeanRatePredictor.PredictFromFirst |
