/** The day loop of the previous-year and the regression predictors:
    `while (currentDate.compareTo(endDate) <= 0)` makes one forecast per day from the
    start date through the end date, and the first day whose forecast fails ends the call. */
module DayLoop {
  import opened Dates
  import opened Results
  import opened Rates

  /** `endDateInclusive == null ? startDateInclusive : endDateInclusive` */
  function LastDay(start: Date, end: Option<Date>): (d: Date)
    ensures end.None? ==> d == start
    ensures end.Some? ==> d == end.value
  {
    if end.None? then start else end.value
  }

  /** The results h gives for the indices 0 .. n - 1, or the error of the first index it
      fails on. */
  function Collect(h: nat -> Result<RatePrediction>, n: nat): (r: Result<seq<RatePrediction>>)
    ensures r.Ok? ==> |r.value| == n
    decreases n
  {
    if n == 0 then Ok([])
    else
      match Collect(h, n - 1)
      case Err(e) => Err(e)
      case Ok(s) =>
        match h(n - 1)
        case Err(e) => Err(e)
        case Ok(x) => Ok(s + [x])
  }

  lemma {:induction false} CollectOk(h: nat -> Result<RatePrediction>, n: nat)
    ensures Collect(h, n).Ok? <==> forall i :: 0 <= i < n ==> h(i).Ok?
  {
    if n > 0 {
      CollectOk(h, n - 1);
    }
  }

  lemma {:induction false} CollectAt(h: nat -> Result<RatePrediction>, n: nat)
    requires Collect(h, n).Ok?
    ensures forall i :: 0 <= i < n ==> h(i) == Ok(Collect(h, n).value[i])
  {
    if n > 0 {
      CollectAt(h, n - 1);
    }
  }

  /** The index of the first failing call, whose error the collection reports. */
  lemma {:induction false} CollectFirstError(h: nat -> Result<RatePrediction>, n: nat) returns (i: nat)
    requires Collect(h, n).Err?
    ensures i < n && h(i) == Err(Collect(h, n).error)
    ensures forall j :: 0 <= j < i ==> h(j).Ok?
  {
    if Collect(h, n - 1).Err? {
      i := CollectFirstError(h, n - 1);
    } else {
      CollectOk(h, n - 1);
      i := n - 1;
    }
  }

  lemma {:induction false} CollectAbort(h: nat -> Result<RatePrediction>, k: nat, n: nat)
    requires k < n && Collect(h, k).Ok? && h(k).Err?
    ensures Collect(h, n) == Err(h(k).error)
    decreases n
  {
    if n > k + 1 {
      CollectAbort(h, k, n - 1);
    }
  }

  /** Day i of the run from start. */
  function OnDay(f: Date -> Result<RatePrediction>, start: Date): nat -> Result<RatePrediction> {
    (i: nat) => f(AddDays(start, i))
  }

  /** The forecasts f gives for the first n days from start, or the error of the earliest
      day it fails on. */
  function DayByDay(f: Date -> Result<RatePrediction>, start: Date, n: nat): (r: Result<seq<RatePrediction>>)
    ensures r.Ok? ==> |r.value| == n
  {
    Collect(OnDay(f, start), n)
  }

  /** A forecast that never fails gives a result for every run. */
  lemma DayByDayTotal(f: Date -> Result<RatePrediction>, start: Date, n: nat)
    requires forall d :: f(d).Ok?
    ensures DayByDay(f, start, n).Ok?
  {
    assert forall i :: 0 <= i < n ==> OnDay(f, start)(i) == f(AddDays(start, i));
    CollectOk(OnDay(f, start), n);
  }

  /** The i-th forecast is the forecast of day start + i. */
  lemma DayByDayAt(f: Date -> Result<RatePrediction>, start: Date, n: nat)
    requires DayByDay(f, start, n).Ok?
    ensures forall i :: 0 <= i < n ==> f(AddDays(start, i)) == Ok(DayByDay(f, start, n).value[i])
  {
    CollectAt(OnDay(f, start), n);
  }

  /** A failure is the failure of the earliest day that fails: i is that day's offset. */
  lemma DayByDayFirstError(f: Date -> Result<RatePrediction>, start: Date, n: nat) returns (i: nat)
    requires DayByDay(f, start, n).Err?
    ensures i < n && f(AddDays(start, i)) == Err(DayByDay(f, start, n).error)
    ensures forall j :: 0 <= j < i ==> f(AddDays(start, j)).Ok?
  {
    i := CollectFirstError(OnDay(f, start), n);
    assert forall j :: 0 <= j < i ==> f(AddDays(start, j)) == OnDay(f, start)(j);
  }

  /** One more successful day extends the forecasts by that day's point. */
  lemma DayByDaySnoc(f: Date -> Result<RatePrediction>, start: Date, k: nat, s: seq<RatePrediction>)
    requires DayByDay(f, start, k) == Ok(s) && f(AddDays(start, k)).Ok?
    ensures DayByDay(f, start, k + 1) == Ok(s + [f(AddDays(start, k)).value])
  {
    assert OnDay(f, start)(k) == f(AddDays(start, k));
  }

  /** A failing day fails every longer run that includes it. */
  lemma DayByDayAbort(f: Date -> Result<RatePrediction>, start: Date, k: nat, n: nat)
    requires k < n && DayByDay(f, start, k).Ok? && f(AddDays(start, k)).Err?
    ensures DayByDay(f, start, n) == Err(f(AddDays(start, k)).error)
  {
    CollectAbort(OnDay(f, start), k, n);
  }

  /** When each forecast carries the date it was made for, a successful run from start
      through end holds end - start + 1 points on consecutive days from start to end. */
  lemma DayByDayCovers(f: Date -> Result<RatePrediction>, start: Date, end: Date)
    requires IsOnOrBefore(start, end)
    requires forall d :: f(d).Ok? ==> f(d).value.date == d
    requires DayByDay(f, start, DayCount(start, end)).Ok?
    ensures var r := DayByDay(f, start, DayCount(start, end)).value;
      && |r| == DayNumber(end) - DayNumber(start) + 1
      && r[0].date == start
      && r[|r| - 1].date == end
      && forall i :: 0 <= i < |r| - 1 ==> r[i + 1].date == NextDay(r[i].date)
  {
    var n := DayCount(start, end);
    var r := DayByDay(f, start, n).value;
    DayByDayAt(f, start, n);
    DaysSpanRange(start, end);
    assert forall i :: 0 <= i < n ==> r[i].date == Days(start, n)[i];
  }
}
