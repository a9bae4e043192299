/** A model of the parts of java.time.LocalDate the forecasting layer uses:
    calendar dates of the proleptic Gregorian calendar, their order,
    plusDays(1), minusDays(1), minusYears(1), withYear(y) and getYear(). */
module Dates {

  /** A (year, month, day) triple; `Date` below keeps only real calendar dates. */
  datatype CivilDate = CivilDate(year: int, month: int, day: int)

  /** IsoChronology.isLeapYear */
  predicate IsLeapYear(y: int) {
    y % 4 == 0 && (y % 100 != 0 || y % 400 == 0)
  }

  function DaysInMonth(y: int, m: int): int {
    if m == 2 then (if IsLeapYear(y) then 29 else 28)
    else if m == 4 || m == 6 || m == 9 || m == 11 then 30
    else 31
  }

  function DaysInYear(y: int): int {
    if IsLeapYear(y) then 366 else 365
  }

  predicate IsValidDate(d: CivilDate) {
    1 <= d.month <= 12 && 1 <= d.day <= DaysInMonth(d.year, d.month)
  }

  /** A LocalDate: only dates that exist in the calendar (year bounds of LocalDate are not modelled). */
  type Date = d: CivilDate | IsValidDate(d) witness CivilDate(1970, 1, 1)

  /** LocalDate.isBefore / compareTo < 0: lexicographic on (year, month, day). */
  predicate IsBefore(a: Date, b: Date) {
    a.year < b.year
    || (a.year == b.year && a.month < b.month)
    || (a.year == b.year && a.month == b.month && a.day < b.day)
  }

  /** LocalDate.isAfter */
  predicate IsAfter(a: Date, b: Date) {
    IsBefore(b, a)
  }

  /** compareTo(b) <= 0 */
  predicate IsOnOrBefore(a: Date, b: Date) {
    !IsBefore(b, a)
  }

  // ---------------------------------------------------------------------------
  // A linear day count. It is not part of the source; it measures distances
  // between dates so that day loops can be shown to terminate and counted.

  /** Days in the years from 0 up to y (negative for negative y). */
  function YearStart(y: int): int
    decreases if y < 0 then -y else y
  {
    if y == 0 then 0
    else if y > 0 then YearStart(y - 1) + DaysInYear(y - 1)
    else YearStart(y + 1) - DaysInYear(y)
  }

  /** Days in the months of year y before month m. */
  function DaysBeforeMonth(y: int, m: int): int
    requires 1 <= m <= 12
  {
    if m == 1 then 0 else DaysBeforeMonth(y, m - 1) + DaysInMonth(y, m - 1)
  }

  function DayOfYear(d: Date): int {
    DaysBeforeMonth(d.year, d.month) + d.day - 1
  }

  function DayNumber(d: Date): int {
    YearStart(d.year) + DayOfYear(d)
  }

  lemma YearStartStep(y: int)
    ensures YearStart(y + 1) == YearStart(y) + DaysInYear(y)
  {
  }

  /** January to November take 334 days, one more in a leap year. */
  lemma DaysBeforeDecember(y: int)
    ensures DaysBeforeMonth(y, 12) + 31 == DaysInYear(y)
  {
    var leap := if IsLeapYear(y) then 1 else 0;
    assert DaysBeforeMonth(y, 2) == 31;
    assert DaysBeforeMonth(y, 3) == 59 + leap;
    assert DaysBeforeMonth(y, 4) == 90 + leap;
    assert DaysBeforeMonth(y, 5) == 120 + leap;
    assert DaysBeforeMonth(y, 6) == 151 + leap;
    assert DaysBeforeMonth(y, 7) == 181 + leap;
    assert DaysBeforeMonth(y, 8) == 212 + leap;
    assert DaysBeforeMonth(y, 9) == 243 + leap;
    assert DaysBeforeMonth(y, 10) == 273 + leap;
    assert DaysBeforeMonth(y, 11) == 304 + leap;
  }

  /** Month m ends no later than month n begins, for m before n. */
  lemma {:induction false} MonthEndsBefore(y: int, m: int, n: int)
    requires 1 <= m < n <= 12
    ensures DaysBeforeMonth(y, m) + DaysInMonth(y, m) <= DaysBeforeMonth(y, n)
  {
    if m < n - 1 {
      MonthEndsBefore(y, m, n - 1);
    }
  }

  lemma {:induction false} YearStartMonotone(a: int, b: int)
    requires a <= b
    ensures YearStart(a) + 365 * (b - a) <= YearStart(b)
    decreases b - a
  {
    if a < b {
      YearStartMonotone(a, b - 1);
      YearStartStep(b - 1);
    }
  }

  lemma DayOfYearBounds(d: Date)
    ensures 0 <= DayOfYear(d) < DaysInYear(d.year)
  {
    DaysBeforeDecember(d.year);
    if d.month < 12 {
      MonthEndsBefore(d.year, d.month, 12);
    }
    if d.month > 1 {
      MonthEndsBefore(d.year, 1, d.month);
    }
  }

  /** Within one year the day count follows the (month, day) order. */
  lemma DayOfYearOrder(a: Date, b: Date)
    requires a.year == b.year
    ensures (a.month < b.month || (a.month == b.month && a.day < b.day)) <==> DayOfYear(a) < DayOfYear(b)
  {
    if a.month < b.month {
      MonthEndsBefore(a.year, a.month, b.month);
    } else if b.month < a.month {
      MonthEndsBefore(a.year, b.month, a.month);
    }
  }

  /** The lexicographic order of LocalDate is the order of day counts. */
  lemma BeforeIffDayNumberLess(a: Date, b: Date)
    ensures IsBefore(a, b) <==> DayNumber(a) < DayNumber(b)
  {
    DayOfYearBounds(a);
    DayOfYearBounds(b);
    if a.year < b.year {
      YearStartStep(a.year);
      YearStartMonotone(a.year + 1, b.year);
    } else if b.year < a.year {
      YearStartStep(b.year);
      YearStartMonotone(b.year + 1, a.year);
    } else {
      DayOfYearOrder(a, b);
    }
  }

  /** Distinct dates have distinct day counts. */
  lemma DayNumberInjective(a: Date, b: Date)
    requires DayNumber(a) == DayNumber(b)
    ensures a == b
  {
    BeforeIffDayNumberLess(a, b);
    BeforeIffDayNumberLess(b, a);
  }

  // ---------------------------------------------------------------------------
  // Calendar arithmetic

  /** LocalDate.plusDays(1) */
  function NextDay(d: Date): Date {
    if d.day < DaysInMonth(d.year, d.month) then
      CivilDate(d.year, d.month, d.day + 1)
    else if d.month < 12 then
      CivilDate(d.year, d.month + 1, 1)
    else
      CivilDate(d.year + 1, 1, 1)
  }

  /** The next day is one further along the day count, and later. */
  lemma NextDayNumber(d: Date)
    ensures DayNumber(NextDay(d)) == DayNumber(d) + 1
    ensures IsBefore(d, NextDay(d))
  {
    if d.day == DaysInMonth(d.year, d.month) && d.month == 12 {
      YearStartStep(d.year);
      DaysBeforeDecember(d.year);
    }
  }

  /** LocalDate.minusDays(1) */
  function PrevDay(d: Date): Date {
    if d.day > 1 then
      CivilDate(d.year, d.month, d.day - 1)
    else if d.month > 1 then
      CivilDate(d.year, d.month - 1, DaysInMonth(d.year, d.month - 1))
    else
      CivilDate(d.year - 1, 12, 31)
  }

  /** minusDays(1) undoes plusDays(1), one step back on the day count. */
  lemma PrevDayNumber(d: Date)
    ensures DayNumber(PrevDay(d)) == DayNumber(d) - 1
    ensures NextDay(PrevDay(d)) == d
  {
    if d.day == 1 && d.month == 1 {
      YearStartStep(d.year - 1);
      DaysBeforeDecember(d.year - 1);
    }
  }

  /** LocalDate.withYear(y): same month and day, except that 29 February becomes
      28 February when y is not a leap year (resolvePreviousValid). */
  function WithYear(d: Date, y: int): (r: Date)
    ensures r.year == y && r.month == d.month
    ensures r.day == d.day || (d.month == 2 && d.day == 29 && r.day == 28 && !IsLeapYear(y))
  {
    if d.month == 2 && d.day == 29 && !IsLeapYear(y) then CivilDate(y, 2, 28)
    else CivilDate(y, d.month, d.day)
  }

  /** LocalDate.minusYears(n): n years back, same month and day, except that 29 February
      becomes 28 February when the target year is not a leap year. */
  function MinusYears(d: Date, n: int): (r: Date)
    ensures r.year == d.year - n && r.month == d.month
    ensures r.day == d.day || (d.month == 2 && d.day == 29 && r.day == 28 && !IsLeapYear(d.year - n))
  {
    WithYear(d, d.year - n)
  }

  /** The date n days after d: n applications of plusDays(1). */
  function AddDays(d: Date, n: nat): Date
    decreases n
  {
    if n == 0 then d else AddDays(NextDay(d), n - 1)
  }

  /** n days later is n further along the day count. */
  lemma {:induction false} AddDaysNumber(d: Date, n: nat)
    ensures DayNumber(AddDays(d, n)) == DayNumber(d) + n
    decreases n
  {
    if n > 0 {
      NextDayNumber(d);
      AddDaysNumber(NextDay(d), n - 1);
    }
  }

  lemma AddDaysSucc(d: Date, n: nat)
    ensures AddDays(d, n + 1) == NextDay(AddDays(d, n))
  {
    var a, b := AddDays(d, n + 1), NextDay(AddDays(d, n));
    AddDaysNumber(d, n + 1);
    AddDaysNumber(d, n);
    NextDayNumber(AddDays(d, n));
    DayNumberInjective(a, b);
  }

  /** Walking forward from a to b takes DayNumber(b) - DayNumber(a) days. */
  lemma AddDaysReaches(a: Date, b: Date)
    requires IsOnOrBefore(a, b)
    ensures DayNumber(a) <= DayNumber(b)
    ensures AddDays(a, DayNumber(b) - DayNumber(a)) == b
  {
    BeforeIffDayNumberLess(b, a);
    AddDaysNumber(a, DayNumber(b) - DayNumber(a));
    DayNumberInjective(AddDays(a, DayNumber(b) - DayNumber(a)), b);
  }

  /** Number of loop rounds of `while (current.compareTo(end) <= 0)` starting at start:
      the number of days from start to end inclusive, or 0 when end is before start. */
  function DayCount(start: Date, end: Date): (n: nat)
    ensures n == 0 <==> IsBefore(end, start)
  {
    BeforeIffDayNumberLess(end, start);
    if IsBefore(end, start) then 0 else DayNumber(end) - DayNumber(start) + 1
  }

  /** The day loop from start visits start + i exactly while i is below the day count. */
  lemma DayLoopGuard(start: Date, end: Date, i: nat)
    requires i <= DayCount(start, end)
    ensures IsOnOrBefore(AddDays(start, i), end) <==> i < DayCount(start, end)
  {
    AddDaysNumber(start, i);
    BeforeIffDayNumberLess(end, AddDays(start, i));
    BeforeIffDayNumberLess(end, start);
  }

  /** One day later, one round fewer of the day loop. */
  lemma DayCountNext(d: Date, end: Date)
    requires IsOnOrBefore(d, end)
    ensures DayCount(NextDay(d), end) == DayCount(d, end) - 1
  {
    NextDayNumber(d);
    BeforeIffDayNumberLess(end, d);
    BeforeIffDayNumberLess(end, NextDay(d));
  }

  /** Consecutive days are consecutive on the day count. */
  lemma {:induction false} ConsecutiveNumbers(ds: seq<Date>)
    requires forall i :: 0 <= i < |ds| - 1 ==> ds[i + 1] == NextDay(ds[i])
    ensures forall i :: 0 <= i < |ds| ==> DayNumber(ds[i]) == DayNumber(ds[0]) + i
  {
    if |ds| > 1 {
      var front := ds[..|ds| - 1];
      ConsecutiveNumbers(front);
      assert forall i :: 0 <= i < |front| ==> front[i] == ds[i];
      NextDayNumber(ds[|ds| - 2]);
    }
  }

  /** A run of DayCount(start, end) consecutive days from start ends at end. */
  lemma ConsecutiveRunEnds(ds: seq<Date>, start: Date, end: Date)
    requires IsOnOrBefore(start, end)
    requires |ds| == DayCount(start, end) && ds[0] == start
    requires forall i :: 0 <= i < |ds| - 1 ==> ds[i + 1] == NextDay(ds[i])
    ensures ds[|ds| - 1] == end
  {
    ConsecutiveNumbers(ds);
    DayNumberInjective(ds[|ds| - 1], end);
  }

  /** The days start, start+1, ..., start+(n-1). */
  function Days(start: Date, n: nat): (r: seq<Date>)
    ensures |r| == n
    ensures forall i :: 0 <= i < n ==> r[i] == AddDays(start, i)
  {
    seq(n, i requires 0 <= i < n => AddDays(start, i))
  }

  /** The day range a loop from start through end visits: starts at start, ends at
      end, consecutive, strictly ascending. */
  lemma {:induction false} DaysSpanRange(start: Date, end: Date)
    requires IsOnOrBefore(start, end)
    ensures var r := Days(start, DayCount(start, end));
      && |r| == DayNumber(end) - DayNumber(start) + 1
      && r[0] == start
      && r[|r| - 1] == end
      && (forall i :: 0 <= i < |r| - 1 ==> r[i + 1] == NextDay(r[i]))
  {
    var n := DayCount(start, end);
    AddDaysReaches(start, end);
    forall i | 0 <= i < n - 1 ensures AddDays(start, i + 1) == NextDay(AddDays(start, i)) {
      AddDaysSucc(start, i);
    }
  }

  /** A day of October 2023, the month the pinned examples use. */
  function Oct2023(day: int): Date
    requires 1 <= day <= 31
  {
    CivilDate(2023, 10, day)
  }
}
