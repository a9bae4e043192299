/** algorithm/MysticalRatePredictor: the forecast for a day is the rate of the same day in
    a randomly drawn year of the currency's data, with at most one draw per year of the
    range; the year range of a currency is computed once and kept in a map. */
module Mystical {
  import opened Dates
  import opened Results
  import opened Rates
  import opened Currency
  import opened Dao
  import opened DayLoop

  // ---------------------------------------------------------------------------
  // YearRange

  /** The private YearRange class: the earliest and the latest year of a series. */
  datatype YearRange = YearRange(yearFrom: int, yearTo: int)

  /** getCountOfYears */
  function CountOfYears(r: YearRange): int {
    r.yearTo - r.yearFrom + 1
  }

  /** getRandomYear: Random.nextInt(yearFrom, yearTo + 1). The generator's raw value `draw`
      is reduced into the bound, as nextInt's contract promises. */
  function RandomYear(r: YearRange, draw: nat): (y: int)
    requires r.yearFrom <= r.yearTo
    ensures r.yearFrom <= y <= r.yearTo
  {
    r.yearFrom + draw % CountOfYears(r)
  }

  /** Every year of the range can be drawn. */
  lemma RandomYearOnto(r: YearRange, y: int)
    requires r.yearFrom <= y <= r.yearTo
    ensures RandomYear(r, y - r.yearFrom) == y
  {
  }

  /** y is the year of some point and no point is in an earlier year. */
  predicate IsEarliestYear(points: seq<RatePrediction>, y: int) {
    (forall i :: 0 <= i < |points| ==> y <= points[i].date.year)
    && exists i :: 0 <= i < |points| && points[i].date.year == y
  }

  /** y is the year of some point and no point is in a later year. */
  predicate IsLatestYear(points: seq<RatePrediction>, y: int) {
    (forall i :: 0 <= i < |points| ==> points[i].date.year <= y)
    && exists i :: 0 <= i < |points| && points[i].date.year == y
  }

  /** The smallest year of a non-empty series. */
  function MinYear(points: seq<RatePrediction>): int
    requires |points| > 0
  {
    if |points| == 1 then points[0].date.year
    else
      var m := MinYear(points[1..]);
      if points[0].date.year < m then points[0].date.year else m
  }

  /** The largest year of a non-empty series. */
  function MaxYear(points: seq<RatePrediction>): int
    requires |points| > 0
  {
    if |points| == 1 then points[0].date.year
    else
      var m := MaxYear(points[1..]);
      if points[0].date.year > m then points[0].date.year else m
  }

  lemma {:induction false} MinYearIsEarliest(points: seq<RatePrediction>)
    requires |points| > 0
    ensures IsEarliestYear(points, MinYear(points))
  {
    if |points| > 1 {
      MinYearIsEarliest(points[1..]);
      assert forall i :: 1 <= i < |points| ==> points[i] == points[1..][i - 1];
    }
  }

  lemma {:induction false} MaxYearIsLatest(points: seq<RatePrediction>)
    requires |points| > 0
    ensures IsLatestYear(points, MaxYear(points))
  {
    if |points| > 1 {
      MaxYearIsLatest(points[1..]);
      assert forall i :: 1 <= i < |points| ==> points[i] == points[1..][i - 1];
    }
  }

  /** There is only one earliest and one latest year. */
  lemma ExtremeYearsUnique(points: seq<RatePrediction>, a: int, b: int)
    ensures IsEarliestYear(points, a) && IsEarliestYear(points, b) ==> a == b
    ensures IsLatestYear(points, a) && IsLatestYear(points, b) ==> a == b
  {
    if IsEarliestYear(points, a) && IsEarliestYear(points, b) {
      var i :| 0 <= i < |points| && points[i].date.year == a;
      var j :| 0 <= j < |points| && points[j].date.year == b;
    }
    if IsLatestYear(points, a) && IsLatestYear(points, b) {
      var i :| 0 <= i < |points| && points[i].date.year == a;
      var j :| 0 <= j < |points| && points[j].date.year == b;
    }
  }

  /** computeYearRange: findAllByCurrencyType, IllegalArgumentException on an empty
      series, else the earliest and the latest year. */
  function YearRangeSpec(dao: RatePredictionDao, c: CurrencyType): (r: Result<YearRange>)
    ensures r.Ok? ==> r.value.yearFrom <= r.value.yearTo
  {
    match dao.findAll(c)
    case Err(e) => Err(e)
    case Ok(points) =>
      if |points| == 0 then Err(IllegalArgument(NoDataForCurrency))
      else
        MinYearIsEarliest(points);
        MaxYearIsLatest(points);
        assert MinYear(points) <= points[0].date.year <= MaxYear(points);
        Ok(YearRange(MinYear(points), MaxYear(points)))
  }

  /** An empty series is IllegalArgumentException, a DAO exception propagates, and a
      non-empty series gives its earliest and its latest year. */
  lemma YearRangeMeaning(dao: RatePredictionDao, c: CurrencyType)
    ensures var r := YearRangeSpec(dao, c);
      && (dao.findAll(c) == Ok([]) ==> r == Err(IllegalArgument(NoDataForCurrency)))
      && (dao.findAll(c).Err? ==> r == Err(dao.findAll(c).error))
      && (r.Ok? <==> dao.findAll(c).Ok? && dao.findAll(c).value != [])
      && (r.Ok? ==> (IsEarliestYear(dao.findAll(c).value, r.value.yearFrom)
                     && IsLatestYear(dao.findAll(c).value, r.value.yearTo)))
  {
    if dao.findAll(c).Ok? && dao.findAll(c).value != [] {
      MinYearIsEarliest(dao.findAll(c).value);
      MaxYearIsLatest(dao.findAll(c).value);
    }
  }

  /** computeYearRange of one DAO as a function value, equal to YearRangeSpec on every
      currency; the equation is used wherever a YearRangeSpec term occurs. */
  ghost function YearRangeSpecs(dao: RatePredictionDao): (spec: CurrencyType -> Result<YearRange>)
    ensures forall c {:trigger YearRangeSpec(dao, c)} :: spec(c) == YearRangeSpec(dao, c)
  {
    var f := (c: CurrencyType) => YearRangeSpec(dao, c);
    assert forall c {:trigger YearRangeSpec(dao, c)} :: f(c) == YearRangeSpec(dao, c);
    var spec: CurrencyType -> Result<YearRange> :| forall c {:trigger YearRangeSpec(dao, c)} :: spec(c) == YearRangeSpec(dao, c);
    spec
  }

  // ---------------------------------------------------------------------------
  // The retry loop of predictMystic, over the lookups it makes

  /** How the retry loop ended and how many draws (each followed by one lookup) it made. */
  datatype Search = Search(found: Result<Option<RatePrediction>>, used: nat)

  /** The lookups one predictMystic call makes: day d of currency c, in years drawn from
      the range with the generator's values. */
  datatype Probe = Probe(dao: RatePredictionDao, c: CurrencyType, d: Date, range: YearRange, draws: nat -> nat)

  /** The lookup made with the q-th value of the generator:
      findByCurrencyTypeAndDate(currencyType, predictionDate.withYear(randomYear)). */
  function Lookup(p: Probe, q: nat): Result<Option<RatePrediction>>
    requires p.range.yearFrom <= p.range.yearTo
  {
    p.dao.findByDate(p.c, WithYear(p.d, RandomYear(p.range, p.draws(q))))
  }

  /** The for loop of predictMystic from draw position k with `left` attempts to go: a hit
      or a DAO exception ends the loop. */
  function Attempts(p: Probe, k: nat, left: nat): Search
    requires p.range.yearFrom <= p.range.yearTo
    decreases left
  {
    if left == 0 then Search(Ok(None), 0)
    else if Lookup(p, k) != Ok(None) then Search(Lookup(p, k), 1)
    else
      var s := Attempts(p, k + 1, left - 1);
      Search(s.found, s.used + 1)
  }

  /** At most `left` attempts are made; a search without a hit makes all of them, and any
      other search ends with the lookup that found a point or threw. */
  lemma {:induction false} AttemptsBounds(p: Probe, k: nat, left: nat)
    requires p.range.yearFrom <= p.range.yearTo
    ensures var s := Attempts(p, k, left);
      && s.used <= left
      && (s.found == Ok(None) ==> s.used == left)
      && (s.found != Ok(None) ==> s.used >= 1 && s.found == Lookup(p, k + s.used - 1))
    decreases left
  {
    if left > 0 && Lookup(p, k) == Ok(None) {
      AttemptsBounds(p, k + 1, left - 1);
    }
  }

  /** Every lookup before the last one found nothing (so the loop stops at the first hit),
      and when nothing was found, no lookup found anything. */
  lemma {:induction false} AttemptsMissBefore(p: Probe, k: nat, left: nat)
    requires p.range.yearFrom <= p.range.yearTo
    ensures var s := Attempts(p, k, left);
      forall q :: k <= q < k + s.used - 1 ==> Lookup(p, q) == Ok(None)
    ensures var s := Attempts(p, k, left);
      s.found == Ok(None) ==> forall q :: k <= q < k + s.used ==> Lookup(p, q) == Ok(None)
    decreases left
  {
    if left > 0 && Lookup(p, k) == Ok(None) {
      AttemptsMissBefore(p, k + 1, left - 1);
    }
  }

  /** The search ends without a hit exactly when all `left` lookups come back empty. */
  lemma {:induction false} AttemptsAllMiss(p: Probe, k: nat, left: nat)
    requires p.range.yearFrom <= p.range.yearTo
    ensures Attempts(p, k, left).found == Ok(None) <==> forall q :: k <= q < k + left ==> Lookup(p, q) == Ok(None)
    decreases left
  {
    if left > 0 {
      AttemptsAllMiss(p, k + 1, left - 1);
    }
  }

  /** One attempt: an empty lookup moves on to the next position, anything else ends the
      search there. */
  lemma AttemptsStep(p: Probe, q: nat, left: nat)
    requires p.range.yearFrom <= p.range.yearTo && left > 0
    ensures Lookup(p, q) == Ok(None) ==>
      Attempts(p, q, left) == Search(Attempts(p, q + 1, left - 1).found, Attempts(p, q + 1, left - 1).used + 1)
    ensures Lookup(p, q) != Ok(None) ==> Attempts(p, q, left) == Search(Lookup(p, q), 1)
  {
  }

  /** The for loop of predictMystic: up to `count` attempts from generator position k,
      each a draw and a lookup, until one finds a point or throws; `used` is the number of
      draws. */
  method RunAttempts(p: Probe, k: nat, count: nat) returns (found: Result<Option<RatePrediction>>, used: nat)
    requires p.range.yearFrom <= p.range.yearTo
    ensures Search(found, used) == Attempts(p, k, count)
  {
    var i := 0;
    while i < count
      invariant 0 <= i <= count
      invariant Attempts(p, k, count) == Search(Attempts(p, k + i, count - i).found, Attempts(p, k + i, count - i).used + i)
      decreases count - i
    {
      var year := RandomYear(p.range, p.draws(k + i));
      var answer := p.dao.findByDate(p.c, WithYear(p.d, year));
      AttemptsStep(p, k + i, count - i);
      if answer != Ok(None) {
        return answer, i + 1;
      }
      i := i + 1;
    }
    return Ok(None), i;
  }

  // ---------------------------------------------------------------------------
  // predictMystic, as a function of the generator's position

  /** How a day's forecast ended and how many draws it consumed. */
  datatype Step = Step(result: Result<RatePrediction>, used: nat)

  /** The end of predictMystic: the DAO's exception, IllegalArgumentException when no
      attempt hit, or the hit's rate dated d. */
  function Conclude(d: Date, s: Search): (t: Step)
    ensures t.used == s.used
    ensures t.result.Ok? ==> t.result.value.date == d
    ensures t.result.Ok? <==> s.found.Ok? && s.found.value.Some?
  {
    match s.found
    case Err(e) => Step(Err(e), s.used)
    case Ok(None) => Step(Err(IllegalArgument(AttemptsExhausted)), s.used)
    case Ok(Some(p)) => Step(Ok(RatePrediction(d, p.rate)), s.used)
  }

  /** A forecast comes from the last lookup, every earlier lookup having come back empty;
      a failure is either the exception of the last lookup or IllegalArgumentException
      after `left` empty lookups. */
  lemma ConcludeMeaning(pr: Probe, k: nat, left: nat)
    requires pr.range.yearFrom <= pr.range.yearTo
    ensures var t := Conclude(pr.d, Attempts(pr, k, left));
      && (forall q :: k <= q < k + t.used - 1 ==> Lookup(pr, q) == Ok(None))
      && (t.result.Ok? ==> t.used >= 1 && exists p: RatePrediction :: Lookup(pr, k + t.used - 1) == Ok(Some(p)) && t.result.value == RatePrediction(pr.d, p.rate))
      && (t.result.Err? ==>
            (t.used >= 1 && Lookup(pr, k + t.used - 1) == Err(t.result.error))
            || (t.result.error == IllegalArgument(AttemptsExhausted) && t.used == left
                && forall q :: k <= q < k + left ==> Lookup(pr, q) == Ok(None)))
  {
    AttemptsBounds(pr, k, left);
    AttemptsMissBefore(pr, k, left);
  }

  /** predictMystic(predictionDate, currencyType) with the generator at position k: the year
      range (computeYearRange, whose exception propagates), at most countOfYears attempts,
      IllegalArgumentException when none hits, else the hit's rate dated d. */
  function MysticDay(dao: RatePredictionDao, c: CurrencyType, d: Date, draws: nat -> nat, k: nat): (s: Step)
    ensures s.result.Ok? ==> s.result.value.date == d
    ensures YearRangeSpec(dao, c).Err? ==> s == Step(Err(YearRangeSpec(dao, c).error), 0)
    ensures YearRangeSpec(dao, c).Ok? ==> 0 < s.used <= CountOfYears(YearRangeSpec(dao, c).value)
  {
    match YearRangeSpec(dao, c)
    case Err(e) => Step(Err(e), 0)
    case Ok(yr) =>
      AttemptsBounds(Probe(dao, c, d, yr, draws), k, CountOfYears(yr));
      Conclude(d, Attempts(Probe(dao, c, d, yr, draws), k, CountOfYears(yr)))
  }

  /** Once the year range is known, the day is decided by the attempts alone. */
  lemma MysticDayAttempts(dao: RatePredictionDao, c: CurrencyType, d: Date, draws: nat -> nat, k: nat)
    requires YearRangeSpec(dao, c).Ok?
    ensures var yr := YearRangeSpec(dao, c).value;
      MysticDay(dao, c, d, draws, k) == Conclude(d, Attempts(Probe(dao, c, d, yr, draws), k, CountOfYears(yr)))
  {
  }

  /** When d is missing in every year of the range, the day fails after exactly
      countOfYears lookups. */
  lemma MysticDayExhausted(dao: RatePredictionDao, c: CurrencyType, d: Date, draws: nat -> nat, k: nat)
    requires YearRangeSpec(dao, c).Ok?
    requires forall y :: YearRangeSpec(dao, c).value.yearFrom <= y <= YearRangeSpec(dao, c).value.yearTo ==> dao.findByDate(c, WithYear(d, y)) == Ok(None)
    ensures MysticDay(dao, c, d, draws, k) == Step(Err(IllegalArgument(AttemptsExhausted)), CountOfYears(YearRangeSpec(dao, c).value))
  {
    var yr := YearRangeSpec(dao, c).value;
    var probe := Probe(dao, c, d, yr, draws);
    MysticDayAttempts(dao, c, d, draws, k);
    AttemptsBounds(probe, k, CountOfYears(yr));
    forall q | k <= q < k + CountOfYears(yr) ensures Lookup(probe, q) == Ok(None) {
      var y := RandomYear(yr, draws(q));
      assert dao.findByDate(c, WithYear(d, y)) == Ok(None);
    }
    AttemptsAllMiss(probe, k, CountOfYears(yr));
  }

  // ---------------------------------------------------------------------------
  // The day loop of predict, with the generator threaded through the days

  /** What a run of days returned and how many draws it used in all. */
  datatype Outcome = Outcome(result: Result<seq<RatePrediction>>, used: nat)

  /** The first n days from start with the generator at position k, where step(d, k) is
      one day's forecast: each day draws from where the previous day stopped, and the
      first failing day ends the run. */
  function Run(step: (Date, nat) -> Step, k: nat, start: Date, n: nat): Outcome
    decreases n
  {
    if n == 0 then Outcome(Ok([]), 0)
    else
      var o := Run(step, k, start, n - 1);
      match o.result
      case Err(_) => o
      case Ok(ps) =>
        var s := step(AddDays(start, n - 1), k + o.used);
        match s.result
        case Err(e) => Outcome(Err(e), o.used + s.used)
        case Ok(p) => Outcome(Ok(ps + [p]), o.used + s.used)
  }

  /** One more day: its forecast extends the run, or its failure ends it. */
  lemma RunSnoc(step: (Date, nat) -> Step, k: nat, start: Date, i: nat, ps: seq<RatePrediction>, used: nat)
    requires Run(step, k, start, i) == Outcome(Ok(ps), used)
    ensures var s := step(AddDays(start, i), k + used);
      Run(step, k, start, i + 1) ==
        match s.result
        case Err(e) => Outcome(Err(e), used + s.used)
        case Ok(p) => Outcome(Ok(ps + [p]), used + s.used)
  {
  }

  /** A failed run stays failed, with the same error and draws, however many days follow. */
  lemma {:induction false} RunStaysFailed(step: (Date, nat) -> Step, k: nat, start: Date, i: nat, n: nat)
    requires i <= n && Run(step, k, start, i).result.Err?
    ensures Run(step, k, start, n) == Run(step, k, start, i)
    decreases n
  {
    if n > i {
      RunStaysFailed(step, k, start, i, n - 1);
    }
  }

  /** A day that fails after a successful prefix decides the whole run: its error, and the
      draws of the prefix and of that day. */
  lemma RunFailsAt(step: (Date, nat) -> Step, k: nat, start: Date, i: nat, n: nat, ps: seq<RatePrediction>, used: nat)
    requires i < n && Run(step, k, start, i) == Outcome(Ok(ps), used)
    requires step(AddDays(start, i), k + used).result.Err?
    ensures var s := step(AddDays(start, i), k + used);
      Run(step, k, start, n) == Outcome(Err(s.result.error), used + s.used)
  {
    RunSnoc(step, k, start, i, ps, used);
    RunStaysFailed(step, k, start, i + 1, n);
  }

  /** When every forecast carries its day and takes at least one draw, a successful run
      holds one forecast per day, dated start + i, and takes at least one draw per day. */
  lemma {:induction false} RunDates(step: (Date, nat) -> Step, k: nat, start: Date, n: nat)
    requires forall e, q :: step(e, q).result.Ok? ==> step(e, q).result.value.date == e && step(e, q).used > 0
    requires Run(step, k, start, n).result.Ok?
    ensures var r := Run(step, k, start, n).result.value;
      && |r| == n
      && (forall i :: 0 <= i < n ==> r[i].date == AddDays(start, i))
      && n <= Run(step, k, start, n).used
    decreases n
  {
    if n > 0 {
      RunDates(step, k, start, n - 1);
    }
  }

  /** predictMystic as a step of the day loop: the step that forecasts day d with the
      generator at position q as MysticDay does. */
  ghost function MysticSteps(dao: RatePredictionDao, c: CurrencyType, draws: nat -> nat): (step: (Date, nat) -> Step)
    ensures forall d, q {:trigger MysticDay(dao, c, d, draws, q)} :: step(d, q) == MysticDay(dao, c, d, draws, q)
  {
    var mystic := (d: Date, q: nat) => MysticDay(dao, c, d, draws, q);
    assert forall d, q {:trigger MysticDay(dao, c, d, draws, q)} :: mystic(d, q) == MysticDay(dao, c, d, draws, q);
    var step: (Date, nat) -> Step :| forall d, q {:trigger MysticDay(dao, c, d, draws, q)} :: step(d, q) == MysticDay(dao, c, d, draws, q);
    step
  }

  /** What predict(currencyType, startDateInclusive, endDateInclusive) returns, and how
      many draws it takes, with the generator at position k. */
  ghost function PredictSpec(dao: RatePredictionDao, c: CurrencyType, draws: nat -> nat, k: nat, start: Date, end: Option<Date>): Outcome {
    Run(MysticSteps(dao, c, draws), k, start, DayCount(start, LastDay(start, end)))
  }

  /** A successful range holds one point per day from start through end, in order. */
  lemma PredictShape(dao: RatePredictionDao, c: CurrencyType, draws: nat -> nat, k: nat, start: Date, end: Date)
    requires IsOnOrBefore(start, end)
    requires PredictSpec(dao, c, draws, k, start, Some(end)).result.Ok?
    ensures var r := PredictSpec(dao, c, draws, k, start, Some(end)).result.value;
      && |r| == DayNumber(end) - DayNumber(start) + 1
      && r[0].date == start
      && r[|r| - 1].date == end
      && (forall i :: 0 <= i < |r| - 1 ==> r[i + 1].date == NextDay(r[i].date))
  {
    var step, n := MysticSteps(dao, c, draws), DayCount(start, end);
    forall e, q | step(e, q).result.Ok? ensures step(e, q).result.value.date == e && step(e, q).used > 0 {
      assert step(e, q) == MysticDay(dao, c, e, draws, q);
    }
    RunDates(step, k, start, n);
    var r := PredictSpec(dao, c, draws, k, start, Some(end)).result.value;
    DaysSpanRange(start, end);
    assert forall i :: 0 <= i < n ==> r[i].date == Days(start, n)[i];
  }

  /** Without an end date predict is the single forecast of the start date. */
  lemma PredictSingle(dao: RatePredictionDao, c: CurrencyType, draws: nat -> nat, k: nat, start: Date)
    ensures var s := MysticDay(dao, c, start, draws, k);
      PredictSpec(dao, c, draws, k, start, None) ==
        match s.result
        case Ok(p) => Outcome(Ok([p]), s.used)
        case Err(e) => Outcome(Err(e), s.used)
  {
    var step := MysticSteps(dao, c, draws);
    assert DayCount(start, start) == 1;
    assert AddDays(start, 0) == start;
    RunSnoc(step, k, start, 0, [], 0);
    var s := MysticDay(dao, c, start, draws, k);
    if s.result.Ok? {
      assert [] + [s.result.value] == [s.result.value];
    }
  }

  /** An empty series fails the first day and no later day is tried. */
  lemma PredictNoData(dao: RatePredictionDao, c: CurrencyType, draws: nat -> nat, k: nat, start: Date, end: Option<Date>)
    requires dao.findAll(c) == Ok([])
    requires IsOnOrBefore(start, LastDay(start, end))
    ensures PredictSpec(dao, c, draws, k, start, end) == Outcome(Err(IllegalArgument(NoDataForCurrency)), 0)
  {
    var step, n := MysticSteps(dao, c, draws), DayCount(start, LastDay(start, end));
    YearRangeMeaning(dao, c);
    assert AddDays(start, 0) == start;
    assert step(start, k) == MysticDay(dao, c, start, draws, k);
    DayLoopGuard(start, LastDay(start, end), 0);
    RunSnoc(step, k, start, 0, [], 0);
    RunStaysFailed(step, k, start, 1, n);
  }

  // ---------------------------------------------------------------------------
  // The predictor object

  class MysticalRatePredictor {
    const dao: RatePredictionDao
    /** The values the Random hands out, in order; `position` is how many it has handed out. */
    const draws: nat -> nat
    var position: nat
    /** yearRangeMap */
    var yearRangeMap: map<CurrencyType, YearRange>
    /** The currencies findAllByCurrencyType has been asked for, in order. */
    ghost var findAllCalls: seq<CurrencyType>

    /** computeYearRange for this DAO. */
    ghost const rangeSpec: CurrencyType -> Result<YearRange>

    /** The map holds only ranges computeYearRange would compute. */
    ghost predicate Valid()
      reads this
    {
      rangeSpec == YearRangeSpecs(dao)
      && forall c :: c in yearRangeMap ==> rangeSpec(c) == Ok(yearRangeMap[c])
    }

    constructor (dao: RatePredictionDao, draws: nat -> nat)
      ensures this.dao == dao && this.draws == draws && position == 0
      ensures yearRangeMap == map[] && findAllCalls == [] && Valid()
    {
      this.dao := dao;
      this.draws := draws;
      rangeSpec := YearRangeSpecs(dao);
      position := 0;
      yearRangeMap := map[];
      findAllCalls := [];
    }

    /** computeYearRange: one findAllByCurrencyType, then a min/max pass over the years. */
    method ComputeYearRange(c: CurrencyType) returns (r: Result<YearRange>)
      modifies this`findAllCalls
      ensures r == YearRangeSpec(dao, c)
      ensures findAllCalls == old(findAllCalls) + [c]
    {
      findAllCalls := findAllCalls + [c];
      var fetched := dao.findAll(c);
      if fetched.Err? {
        return Err(fetched.error);
      }
      var points := fetched.value;
      if |points| == 0 {
        return Err(IllegalArgument(NoDataForCurrency));
      }
      var min: Option<int> := None;
      var max: Option<int> := None;
      var i := 0;
      while i < |points|
        invariant 0 <= i <= |points|
        invariant i == 0 ==> min.None? && max.None?
        invariant i > 0 ==> min.Some? && IsEarliestYear(points[..i], min.value)
        invariant i > 0 ==> max.Some? && IsLatestYear(points[..i], max.value)
      {
        var year := points[i].date.year;
        assert points[..i + 1] == points[..i] + [points[i]];
        if min.None? || year < min.value {
          min := Some(year);
        }
        if max.None? || year > max.value {
          max := Some(year);
        }
        i := i + 1;
      }
      assert points[..i] == points;
      MinYearIsEarliest(points);
      MaxYearIsLatest(points);
      ExtremeYearsUnique(points, min.value, MinYear(points));
      ExtremeYearsUnique(points, max.value, MaxYear(points));
      return Ok(YearRange(min.value, max.value));
    }

    /** yearRangeMap.computeIfAbsent(currencyType, computeYearRange): a failed computation
        leaves no entry. */
    method YearRangeFor(c: CurrencyType) returns (r: Result<YearRange>)
      requires Valid()
      modifies this`yearRangeMap, this`findAllCalls
      ensures Valid()
      ensures r == YearRangeSpec(dao, c)
      ensures c in old(yearRangeMap) ==> yearRangeMap == old(yearRangeMap) && findAllCalls == old(findAllCalls)
      ensures c !in old(yearRangeMap) ==> findAllCalls == old(findAllCalls) + [c]
      ensures c !in old(yearRangeMap) && r.Ok? ==> yearRangeMap == old(yearRangeMap)[c := r.value]
      ensures c !in old(yearRangeMap) && r.Err? ==> yearRangeMap == old(yearRangeMap)
    {
      if c in yearRangeMap {
        return Ok(yearRangeMap[c]);
      }
      r := ComputeYearRange(c);
      if r.Ok? {
        yearRangeMap := yearRangeMap[c := r.value];
      }
    }

    /** predictMystic(predictionDate, currencyType) */
    method PredictMystic(d: Date, c: CurrencyType) returns (r: Result<RatePrediction>)
      requires Valid()
      modifies this`yearRangeMap, this`findAllCalls, this`position
      ensures Valid()
      ensures old(position) <= position
      ensures var s := MysticSteps(dao, c, draws)(d, old(position));
        r == s.result && position == old(position) + s.used
      ensures c in old(yearRangeMap) ==> yearRangeMap == old(yearRangeMap) && findAllCalls == old(findAllCalls)
      ensures c !in old(yearRangeMap) ==> findAllCalls == old(findAllCalls) + [c]
      ensures r.Ok? ==> c in yearRangeMap
    {
      assert MysticSteps(dao, c, draws)(d, position) == MysticDay(dao, c, d, draws, position);
      var range := YearRangeFor(c);
      if range.Err? {
        return Err(range.error);
      }
      var found, used := RunAttempts(Probe(dao, c, d, range.value, draws), position, CountOfYears(range.value));
      MysticDayAttempts(dao, c, d, draws, position);
      position := position + used;
      if found.Err? {
        return Err(found.error);
      }
      if found.value.None? {
        return Err(IllegalArgument(AttemptsExhausted));
      }
      return Ok(RatePrediction(d, found.value.value.rate));
    }

    /** predict: one predictMystic per day from start through the end date, all drawing
        from the one Random, the year range looked up once. */
    method Predict(c: CurrencyType, start: Date, end: Option<Date>) returns (r: Result<seq<RatePrediction>>)
      requires Valid()
      modifies this`yearRangeMap, this`findAllCalls, this`position
      ensures Valid()
      ensures var o := PredictSpec(dao, c, draws, old(position), start, end);
        r == o.result && position == old(position) + o.used
      ensures c in old(yearRangeMap) || DayCount(start, LastDay(start, end)) == 0 ==> findAllCalls == old(findAllCalls)
      ensures c !in old(yearRangeMap) && DayCount(start, LastDay(start, end)) > 0 ==> findAllCalls == old(findAllCalls) + [c]
    {
      var predictions: seq<RatePrediction> := [];
      var current := start;
      var endDate := LastDay(start, end);
      ghost var k0 := position;
      ghost var n := DayCount(start, endDate);
      ghost var i: nat := 0;
      ghost var used: nat := 0;
      ghost var step := MysticSteps(dao, c, draws);
      ghost var cached := c in yearRangeMap;
      ghost var calls := if cached then findAllCalls else findAllCalls + [c];
      ghost var started := false;
      while IsOnOrBefore(current, endDate)
        invariant i <= n && current == AddDays(start, i)
        invariant position == k0 + used
        invariant Valid()
        invariant Run(step, k0, start, i) == Outcome(Ok(predictions), used)
        invariant started == (i > 0)
        invariant !started ==> findAllCalls == old(findAllCalls) && cached == (c in yearRangeMap)
        invariant started ==> c in yearRangeMap && findAllCalls == calls
        decreases n - i
      {
        DayLoopGuard(start, endDate, i);
        var prediction := PredictDay(c, current, k0, start, i, n, predictions, used);
        if prediction.Err? {
          return Err(prediction.error);
        }
        predictions := predictions + [prediction.value];
        used := position - k0;
        current := NextDay(current);
        i := i + 1;
        started := true;
      }
      DayLoopGuard(start, endDate, i);
      return Ok(predictions);
    }

    /** One round of the day loop: predictMystic for day start + i, and the run of the
        first i + 1 days that it completes; a failing day decides the run of all n days. */
    method PredictDay(c: CurrencyType, current: Date, ghost k0: nat, ghost start: Date, ghost i: nat, ghost n: nat,
                      ghost predictions: seq<RatePrediction>, ghost used: nat) returns (r: Result<RatePrediction>)
      requires Valid() && current == AddDays(start, i) && position == k0 + used && i < n
      requires Run(MysticSteps(dao, c, draws), k0, start, i) == Outcome(Ok(predictions), used)
      modifies this`yearRangeMap, this`findAllCalls, this`position
      ensures Valid() && old(position) <= position
      ensures NextDay(current) == AddDays(start, i + 1)
      ensures r.Ok? ==> Run(MysticSteps(dao, c, draws), k0, start, i + 1) == Outcome(Ok(predictions + [r.value]), position - k0)
      ensures r.Err? ==> Run(MysticSteps(dao, c, draws), k0, start, n) == Outcome(Err(r.error), position - k0)
      ensures c in old(yearRangeMap) ==> yearRangeMap == old(yearRangeMap) && findAllCalls == old(findAllCalls)
      ensures c !in old(yearRangeMap) ==> findAllCalls == old(findAllCalls) + [c]
      ensures r.Ok? ==> c in yearRangeMap
    {
      AddDaysSucc(start, i);
      RunSnoc(MysticSteps(dao, c, draws), k0, start, i, predictions, used);
      r := PredictMystic(current, c);
      if r.Err? {
        RunStaysFailed(MysticSteps(dao, c, draws), k0, start, i + 1, n);
      }
    }
  }
}
