/** RatePrediction (a dated rate), the decimal arithmetic the predictors use,
    and the date comparators BY_DATE_ASC / BY_DATE_DESC with a stable sort. */
module Rates {
  import opened Dates

  /** RatePrediction: a rate at a date. BigDecimal rates are modelled by their exact value. */
  datatype RatePrediction = RatePrediction(date: Date, rate: real)

  // ---------------------------------------------------------------------------
  // Rounding (RoundingMode.HALF_UP)

  function Pow10(k: nat): (r: nat)
    ensures r >= 1
  {
    if k == 0 then 1 else 10 * Pow10(k - 1)
  }

  /** u is y rounded to an integer with HALF_UP: the nearest integer, and on a tie the
      one farther from zero. */
  predicate IsHalfUpRounding(y: real, u: int) {
    && u as real - 1.0 / 2.0 <= y <= u as real + 1.0 / 2.0
    && (y - u as real == 1.0 / 2.0 ==> y < 0.0)
    && (u as real - y == 1.0 / 2.0 ==> y > 0.0)
  }

  function RoundHalfUp(y: real): (u: int)
    ensures IsHalfUpRounding(y, u)
  {
    if y >= 0.0 then (y + 1.0 / 2.0).Floor else -((-y + 1.0 / 2.0).Floor)
  }

  /** HALF_UP rounding has exactly one result. */
  lemma HalfUpRoundingUnique(y: real, u: int, v: int)
    requires IsHalfUpRounding(y, u) && IsHalfUpRounding(y, v)
    ensures u == v
  {
  }

  /** x * 10^k, kept behind a function so that rounding terms stay syntactically equal. */
  function Scaled(x: real, k: nat): real {
    x * Pow10(k) as real
  }

  /** x rounded half-up to `scale` fractional digits (BigDecimal.setScale / divide with a scale):
      r has at most `scale` fractional digits and its digits are those of x rounded HALF_UP. */
  function RoundToScale(x: real, scale: nat): (r: real)
    ensures IsHalfUpRounding(Scaled(x, scale), Scaled(r, scale).Floor)
    ensures Scaled(r, scale) == Scaled(r, scale).Floor as real
  {
    var u := RoundHalfUp(Scaled(x, scale));
    var r := u as real / Pow10(scale) as real;
    assert Scaled(r, scale) == u as real;
    r
  }

  /** A value that already has at most `scale` fractional digits is left unchanged. */
  lemma RoundToScaleExact(u: int, scale: nat)
    ensures RoundToScale(u as real / Pow10(scale) as real, scale) == u as real / Pow10(scale) as real
  {
    var p := Pow10(scale) as real;
    var x := u as real / p;
    DivideThenScale(u as real, p);
    assert Scaled(x, scale) == u as real;
    assert RoundHalfUp(u as real) == u;
  }

  lemma DivideThenScale(a: real, p: real)
    requires p > 0.0
    ensures (a / p) * p == a
  {
  }

  lemma ScaleThenDivide(r: real, p: real, a: real)
    requires p > 0.0 && r * p == a
    ensures r == a / p
  {
  }

  // ---------------------------------------------------------------------------
  // Sums and means

  /** rates reduced with BigDecimal::add from ZERO */
  function Sum(s: seq<RatePrediction>): real {
    if s == [] then 0.0 else Sum(s[..|s| - 1]) + s[|s| - 1].rate
  }

  lemma {:induction false} SumAppend(s: seq<RatePrediction>, x: RatePrediction)
    ensures Sum(s + [x]) == Sum(s) + x.rate
  {
    assert (s + [x])[..|s + [x]| - 1] == s;
  }

  lemma {:induction false} SumOfConstant(s: seq<RatePrediction>, c: real)
    requires forall i :: 0 <= i < |s| ==> s[i].rate == c
    ensures Sum(s) == |s| as real * c
  {
    if s != [] {
      SumOfConstant(s[..|s| - 1], c);
    }
  }

  /** sum / size with scale 4 and HALF_UP: the mean of the rates rounded to 4 places. */
  function Mean4(s: seq<RatePrediction>): (r: real)
    requires |s| > 0
    ensures IsHalfUpRounding(Scaled(Sum(s) / |s| as real, 4), Scaled(r, 4).Floor)
    ensures Scaled(r, 4) == Scaled(r, 4).Floor as real
  {
    RoundToScale(Sum(s) / |s| as real, 4)
  }

  /** The mean of a window whose rates are all c, with c a 4-place decimal, is c. */
  lemma MeanOfConstant(s: seq<RatePrediction>, u: int)
    requires |s| > 0
    requires forall i :: 0 <= i < |s| ==> s[i].rate == u as real / 10000.0
    ensures Mean4(s) == u as real / 10000.0
  {
    var c := u as real / 10000.0;
    SumOfConstant(s, c);
    assert Sum(s) / |s| as real == c;
    assert Pow10(4) == 10000;
    RoundToScaleExact(u, 4);
  }

  // ---------------------------------------------------------------------------
  // Date order of rate points: BY_DATE_ASC and its reverse BY_DATE_DESC

  /** a may stand before b: a.date <= b.date (ascending) or a.date >= b.date (descending). */
  predicate InOrder(a: RatePrediction, b: RatePrediction, descending: bool) {
    if descending then !IsBefore(a.date, b.date) else !IsBefore(b.date, a.date)
  }

  /** Each point may stand before the next one. */
  predicate IsSortedByDate(s: seq<RatePrediction>, descending: bool) {
    |s| <= 1 || (InOrder(s[0], s[1], descending) && IsSortedByDate(s[1..], descending))
  }

  lemma InOrderTransitive(a: RatePrediction, b: RatePrediction, c: RatePrediction, descending: bool)
    requires InOrder(a, b, descending) && InOrder(b, c, descending)
    ensures InOrder(a, c, descending)
  {
  }

  /** In a sorted series every earlier point may stand before every later one. */
  lemma {:induction false} SortedPairwise(s: seq<RatePrediction>, descending: bool, i: int, j: int)
    requires IsSortedByDate(s, descending) && 0 <= i < j < |s|
    ensures InOrder(s[i], s[j], descending)
  {
    if i == 0 {
      if j > 1 {
        SortedPairwise(s[1..], descending, 0, j - 1);
        InOrderTransitive(s[0], s[1], s[j], descending);
      }
    } else {
      SortedPairwise(s[1..], descending, i - 1, j - 1);
    }
  }

  /** Every point of a sorted series' prefix may stand before every point of the rest. */
  lemma SortedSplit(s: seq<RatePrediction>, descending: bool, n: nat, y: RatePrediction, x: RatePrediction)
    requires IsSortedByDate(s, descending) && n <= |s|
    requires y in s[..n] && x in s[n..]
    ensures InOrder(y, x, descending)
  {
    var i :| 0 <= i < n && s[..n][i] == y;
    var j :| 0 <= j < |s| - n && s[n..][j] == x;
    SortedPairwise(s, descending, i, n + j);
  }

  /** A prefix of a sorted series is sorted. */
  lemma {:induction false} SortedPrefix(s: seq<RatePrediction>, descending: bool, n: nat)
    requires IsSortedByDate(s, descending) && n <= |s|
    ensures IsSortedByDate(s[..n], descending)
  {
    if n >= 2 {
      assert s[..n][1..] == s[1..][..n - 1];
      SortedPrefix(s[1..], descending, n - 1);
    }
  }

  /** Inserts x before the first element it may precede, so that x stays ahead of
      elements with an equal date. */
  function Insert(x: RatePrediction, s: seq<RatePrediction>, descending: bool): (r: seq<RatePrediction>)
    ensures |r| == |s| + 1
    ensures r[0] == x || (|s| > 0 && r[0] == s[0])
  {
    if s == [] || InOrder(x, s[0], descending) then [x] + s
    else [s[0]] + Insert(x, s[1..], descending)
  }

  lemma {:induction false} InsertPermutes(x: RatePrediction, s: seq<RatePrediction>, descending: bool)
    ensures multiset(Insert(x, s, descending)) == multiset(s) + multiset{x}
  {
    if s != [] && !InOrder(x, s[0], descending) {
      InsertPermutes(x, s[1..], descending);
      assert s == [s[0]] + s[1..];
    }
  }

  lemma {:induction false} InsertSorted(x: RatePrediction, s: seq<RatePrediction>, descending: bool)
    requires IsSortedByDate(s, descending)
    ensures IsSortedByDate(Insert(x, s, descending), descending)
  {
    var r := Insert(x, s, descending);
    if s == [] || InOrder(x, s[0], descending) {
      assert r[1..] == s;
    } else {
      InsertSorted(x, s[1..], descending);
      assert r[1..] == Insert(x, s[1..], descending);
    }
  }

  /** Stream.sorted(comparator): a stable sort by date. */
  function SortByDate(s: seq<RatePrediction>, descending: bool): (r: seq<RatePrediction>)
    ensures IsSortedByDate(r, descending)
    ensures multiset(r) == multiset(s)
    ensures |r| == |s|
  {
    if s == [] then []
    else
      var rest := SortByDate(s[1..], descending);
      InsertSorted(s[0], rest, descending);
      InsertPermutes(s[0], rest, descending);
      assert s == [s[0]] + s[1..];
      Insert(s[0], rest, descending)
  }

  /** Sorting a series that is already in order leaves it as it is. */
  lemma {:induction false} SortSorted(s: seq<RatePrediction>, descending: bool)
    requires IsSortedByDate(s, descending)
    ensures SortByDate(s, descending) == s
  {
    if s != [] {
      SortSorted(s[1..], descending);
      assert [s[0]] + s[1..] == s;
    }
  }

  /** In an ascending series the last point carries the latest date. */
  lemma LastIsLatest(s: seq<RatePrediction>, x: RatePrediction)
    requires IsSortedByDate(s, false) && x in s
    ensures !IsBefore(s[|s| - 1].date, x.date)
  {
    var i :| 0 <= i < |s| && s[i] == x;
    if i < |s| - 1 {
      SortedPairwise(s, false, i, |s| - 1);
    }
  }
}
