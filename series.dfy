/**
 * Reductions over daily series that the post-processing uses: sums, means,
 * means over the values a mask keeps, yearly sums under a given day-to-year
 * grouping, and percentage-weighted combinations of several series.
 */
module Series {
  import opened Wrappers

  /** Sum of a series, accumulated from the first element to the last. */
  function Sum(s: seq<real>): real
    decreases |s|
  {
    if |s| == 0 then 0.0 else Sum(s[..|s| - 1]) + s[|s| - 1]
  }

  lemma {:induction false} SumAppend(a: seq<real>, b: seq<real>)
    ensures Sum(a + b) == Sum(a) + Sum(b)
    decreases |b|
  {
    if |b| == 0 {
      assert a + b == a;
    } else {
      assert (a + b)[..|a + b| - 1] == a + b[..|b| - 1];
      SumAppend(a, b[..|b| - 1]);
    }
  }

  /** A series whose elements all lie in [lo, hi] has a sum between |s|·lo and |s|·hi. */
  lemma {:induction false} SumBounds(s: seq<real>, lo: real, hi: real)
    requires forall i :: 0 <= i < |s| ==> lo <= s[i] <= hi
    ensures |s| as real * lo <= Sum(s) <= |s| as real * hi
    decreases |s|
  {
    if |s| > 0 {
      SumBounds(s[..|s| - 1], lo, hi);
      var m := (|s| - 1) as real;
      assert m * lo + lo == |s| as real * lo;
      assert m * hi + hi == |s| as real * hi;
    }
  }

  /** A series of non-negative values has a non-negative sum. */
  lemma {:induction false} SumNonNegative(s: seq<real>)
    requires forall i :: 0 <= i < |s| ==> s[i] >= 0.0
    ensures Sum(s) >= 0.0
    decreases |s|
  {
    if |s| > 0 {
      SumNonNegative(s[..|s| - 1]);
    }
  }

  /** A series of non-negative values sums to 0 exactly when every value is 0. */
  lemma {:induction false} SumZero(s: seq<real>)
    requires forall i :: 0 <= i < |s| ==> s[i] >= 0.0
    ensures Sum(s) == 0.0 <==> forall i :: 0 <= i < |s| ==> s[i] == 0.0
    decreases |s|
  {
    if |s| > 0 {
      var n := |s| - 1;
      SumZero(s[..n]);
      SumNonNegative(s[..n]);
      assert forall i :: 0 <= i < n ==> s[..n][i] == s[i];
    }
  }

  /** Arithmetic mean; an empty series has none (pandas gives NaN). */
  function Mean(s: seq<real>): (r: Option<real>)
    ensures r.Some? <==> |s| > 0
  {
    if |s| == 0 then None else Some(Sum(s) / |s| as real)
  }

  /** The mean of values that all lie in [lo, hi] lies in [lo, hi]. */
  lemma MeanWithin(s: seq<real>, lo: real, hi: real)
    requires |s| > 0
    requires forall i :: 0 <= i < |s| ==> lo <= s[i] <= hi
    ensures lo <= Mean(s).value <= hi
  {
    SumBounds(s, lo, hi);
    var n := |s| as real;
    assert Mean(s).value * n == Sum(s);
  }

  /** The values that a mask `x < floor` leaves visible, in their order. */
  function KeepAtLeast(s: seq<real>, floor: real): (r: seq<real>)
    ensures |r| <= |s|
    ensures forall i :: 0 <= i < |r| ==> r[i] >= floor
    ensures forall i :: 0 <= i < |r| ==> r[i] in s
    ensures forall i :: 0 <= i < |s| && s[i] >= floor ==> s[i] in r
    ensures forall x :: multiset(r)[x] == if x >= floor then multiset(s)[x] else 0
    decreases |s|
  {
    if |s| == 0 then []
    else
      var front := KeepAtLeast(s[..|s| - 1], floor);
      assert forall i :: 0 <= i < |s| - 1 ==> s[i] == s[..|s| - 1][i];
      assert s == s[..|s| - 1] + [s[|s| - 1]];
      if s[|s| - 1] >= floor then front + [s[|s| - 1]] else front
  }

  lemma KeepAtLeastEmpty(s: seq<real>, floor: real)
    ensures |KeepAtLeast(s, floor)| > 0 <==> exists i :: 0 <= i < |s| && s[i] >= floor
  {
    var r := KeepAtLeast(s, floor);
    if |r| > 0 {
      assert r[0] in s;
      var i :| 0 <= i < |s| && s[i] == r[0];
      assert s[i] >= floor;
    }
  }

  /** The reciprocals of a series of non-zero values. */
  function Reciprocals(s: seq<real>): (r: seq<real>)
    requires forall i :: 0 <= i < |s| ==> s[i] != 0.0
    ensures |r| == |s| && forall i :: 0 <= i < |s| ==> r[i] == 1.0 / s[i]
  {
    seq(|s|, i requires 0 <= i < |s| => 1.0 / s[i])
  }

  /**
   * Harmonic mean (|s| over the sum of reciprocals) of strictly positive
   * values; an empty series has none.
   */
  function HarmonicMean(s: seq<real>): (r: Option<real>)
    requires forall i :: 0 <= i < |s| ==> s[i] > 0.0
    ensures r.Some? <==> |s| > 0
  {
    if |s| == 0 then None
    else
      ReciprocalSumPositive(s);
      Some(|s| as real / Sum(Reciprocals(s)))
  }

  /** A non-empty series of strictly positive values has a strictly positive sum. */
  lemma {:induction false} SumPositive(s: seq<real>)
    requires |s| > 0
    requires forall i :: 0 <= i < |s| ==> s[i] > 0.0
    ensures Sum(s) > 0.0
    decreases |s|
  {
    if |s| > 1 {
      SumPositive(s[..|s| - 1]);
    }
  }

  /** Strictly positive values have a strictly positive sum of reciprocals. */
  lemma ReciprocalSumPositive(s: seq<real>)
    requires |s| > 0 && forall i :: 0 <= i < |s| ==> s[i] > 0.0
    ensures Sum(Reciprocals(s)) > 0.0
  {
    var r := Reciprocals(s);
    forall i | 0 <= i < |s| ensures r[i] > 0.0 {
      assert (1.0 / s[i]) * s[i] == 1.0;
    }
    SumPositive(r);
  }

  /** For x in [lo, hi] with lo > 0: lo/x <= 1 <= hi/x. */
  lemma ScaledReciprocal(x: real, lo: real, hi: real)
    requires 0.0 < lo <= x <= hi
    ensures lo * (1.0 / x) <= 1.0 <= hi * (1.0 / x)
  {
    assert (1.0 / x) * x == 1.0;
  }

  /** Values r with lo·r <= 1 <= hi·r each have lo·Σr <= |r| <= hi·Σr. */
  lemma {:induction false} ScaledSum(r: seq<real>, lo: real, hi: real)
    requires forall i :: 0 <= i < |r| ==> lo * r[i] <= 1.0 <= hi * r[i]
    ensures lo * Sum(r) <= |r| as real <= hi * Sum(r)
    decreases |r|
  {
    if |r| > 0 {
      var n := |r| - 1;
      ScaledSum(r[..n], lo, hi);
      AddScaled(lo, hi, Sum(r[..n]), r[n], n as real);
    }
  }

  lemma AddScaled(lo: real, hi: real, a: real, x: real, m: real)
    requires lo * a <= m <= hi * a && lo * x <= 1.0 <= hi * x
    ensures lo * (a + x) <= m + 1.0 <= hi * (a + x)
  {
  }

  /** From lo·total <= n <= hi·total with total > 0 follows lo <= n/total <= hi. */
  lemma QuotientWithin(n: real, total: real, lo: real, hi: real)
    requires total > 0.0 && lo * total <= n <= hi * total
    ensures lo <= n / total <= hi
  {
    var q := n / total;
    assert q * total == n;
  }

  /** The harmonic mean of values in [lo, hi] (lo > 0) lies in [lo, hi]. */
  lemma HarmonicMeanWithin(s: seq<real>, lo: real, hi: real)
    requires |s| > 0 && lo > 0.0
    requires forall i :: 0 <= i < |s| ==> lo <= s[i] <= hi
    ensures lo <= HarmonicMean(s).value <= hi
  {
    var r := Reciprocals(s);
    forall i | 0 <= i < |s| ensures lo * r[i] <= 1.0 <= hi * r[i] {
      ScaledReciprocal(s[i], lo, hi);
    }
    ScaledSum(r, lo, hi);
    ReciprocalSumPositive(s);
    QuotientWithin(|s| as real, Sum(r), lo, hi);
  }

  /**
   * Sum of the days whose year is `y`. Calendar grouping (pandas
   * `resample("A")`) is given as the year of each day.
   */
  function YearSum(daily: seq<real>, yearOf: seq<int>, y: int): real
    requires |daily| == |yearOf|
    decreases |daily|
  {
    if |daily| == 0 then 0.0
    else
      var n := |daily| - 1;
      YearSum(daily[..n], yearOf[..n], y) + (if yearOf[n] == y then daily[n] else 0.0)
  }

  /** One total per year of `years`, in that order. */
  function Yearly(daily: seq<real>, yearOf: seq<int>, years: seq<int>): (r: seq<real>)
    requires |daily| == |yearOf|
    ensures |r| == |years|
    ensures forall k :: 0 <= k < |years| ==> r[k] == YearSum(daily, yearOf, years[k])
  {
    seq(|years|, k requires 0 <= k < |years| => YearSum(daily, yearOf, years[k]))
  }

  /**
   * Year y has a bin in the yearly resample of the days: it lies between the
   * earliest and the latest year of the days (a year in between without days
   * still gets its empty sum, 0).
   */
  predicate InYearRange(yearOf: seq<int>, y: int) {
    exists i, j :: 0 <= i < |yearOf| && 0 <= j < |yearOf| && yearOf[i] <= y <= yearOf[j]
  }

  /**
   * The resampled year sums looked up for the years `years`, as a left join
   * on those years: the year's sum when it has a bin, and NaN (None) when not.
   */
  function Joined(daily: seq<real>, yearOf: seq<int>, years: seq<int>): (r: seq<Option<real>>)
    requires |daily| == |yearOf|
    ensures |r| == |years|
    ensures forall k :: 0 <= k < |years| ==> (r[k].Some? <==> InYearRange(yearOf, years[k]))
    ensures forall k :: 0 <= k < |years| && r[k].Some? ==> r[k].value == YearSum(daily, yearOf, years[k])
  {
    seq(|years|, k requires 0 <= k < |years| =>
      if InYearRange(yearOf, years[k]) then Some(YearSum(daily, yearOf, years[k])) else None)
  }

  /** The first position of `years` whose year has no bin, or |years| when every year has one. */
  function FirstOutOfRange(yearOf: seq<int>, years: seq<int>): (k: nat)
    ensures k <= |years|
    ensures forall j :: 0 <= j < k ==> InYearRange(yearOf, years[j])
    ensures k < |years| ==> !InYearRange(yearOf, years[k])
    decreases |years|
  {
    if |years| == 0 then 0
    else if !InYearRange(yearOf, years[0]) then 0
    else 1 + FirstOutOfRange(yearOf, years[1..])
  }

  /** A yearly sum of non-negative days is non-negative, and at most the whole sum. */
  lemma {:induction false} YearSumBounds(daily: seq<real>, yearOf: seq<int>, y: int)
    requires |daily| == |yearOf|
    requires forall i :: 0 <= i < |daily| ==> daily[i] >= 0.0
    ensures 0.0 <= YearSum(daily, yearOf, y) <= Sum(daily)
    decreases |daily|
  {
    if |daily| > 0 {
      var n := |daily| - 1;
      YearSumBounds(daily[..n], yearOf[..n], y);
    }
  }

  /** Σ_{j < k} series[j][d] · pct[j] / 100: the value of day d once k series have been added. */
  function WeightedAt(series: seq<seq<real>>, pct: seq<real>, d: nat, k: nat): real
    requires k <= |series| == |pct|
    requires forall j :: 0 <= j < |series| ==> d < |series[j]|
  {
    if k == 0 then 0.0
    else WeightedAt(series, pct, d, k - 1) + series[k - 1][d] * pct[k - 1] / 100.0
  }

  /**
   * Zero-filled per-cell series to which every input series, multiplied by its
   * percentage and divided by 100, is added in turn (`acc += series * pct / 100`).
   */
  method AccumulateWeighted(series: seq<seq<real>>, pct: seq<real>, days: nat) returns (acc: seq<real>)
    requires |series| == |pct|
    requires forall j :: 0 <= j < |series| ==> |series[j]| == days
    ensures |acc| == days
    ensures forall d :: 0 <= d < days ==> acc[d] == WeightedAt(series, pct, d, |pct|)
  {
    var a := new real[days](_ => 0.0);
    for j := 0 to |pct|
      invariant forall d :: 0 <= d < days ==> a[d] == WeightedAt(series, pct, d, j)
    {
      for d := 0 to days
        invariant forall e :: 0 <= e < d ==> a[e] == WeightedAt(series, pct, e, j + 1)
        invariant forall e :: d <= e < days ==> a[e] == WeightedAt(series, pct, e, j)
      {
        a[d] := a[d] + series[j][d] * pct[j] / 100.0;
      }
    }
    acc := a[..];
  }

  /**
   * When every series has the value c on day d, the weighted value is c times
   * the percentages added so far, over 100; so percentages summing to 100
   * reproduce c exactly.
   */
  lemma {:induction false} WeightedUniform(series: seq<seq<real>>, pct: seq<real>, d: nat, k: nat, c: real)
    requires k <= |series| == |pct|
    requires forall j :: 0 <= j < |series| ==> d < |series[j]| && series[j][d] == c
    ensures WeightedAt(series, pct, d, k) == c * Sum(pct[..k]) / 100.0
  {
    if k > 0 {
      WeightedUniform(series, pct, d, k - 1, c);
      assert pct[..k][..k - 1] == pct[..k - 1];
      assert Sum(pct[..k]) == Sum(pct[..k - 1]) + pct[k - 1];
      assert c * Sum(pct[..k]) == c * Sum(pct[..k - 1]) + c * pct[k - 1];
    }
  }

  /** Percentages that sum to 100 leave a value common to all series unchanged. */
  lemma WeightedKeepsCommonValue(series: seq<seq<real>>, pct: seq<real>, d: nat, c: real)
    requires |series| == |pct| && Sum(pct) == 100.0
    requires forall j :: 0 <= j < |series| ==> d < |series[j]| && series[j][d] == c
    ensures WeightedAt(series, pct, d, |pct|) == c
  {
    WeightedUniform(series, pct, d, |pct|, c);
    assert pct[..|pct|] == pct;
  }

  /** Element-wise difference of two series of equal length. */
  function Difference(a: seq<real>, b: seq<real>): (r: seq<real>)
    requires |a| == |b|
    ensures |r| == |a| && forall i :: 0 <= i < |a| ==> r[i] + b[i] == a[i]
  {
    seq(|a|, i requires 0 <= i < |a| => a[i] - b[i])
  }

  /** The sum of the differences is the difference of the sums. */
  lemma {:induction false} SumDifference(a: seq<real>, b: seq<real>)
    requires |a| == |b|
    ensures Sum(Difference(a, b)) == Sum(a) - Sum(b)
    decreases |a|
  {
    if |a| > 0 {
      var n := |a| - 1;
      assert Difference(a, b)[..n] == Difference(a[..n], b[..n]);
      SumDifference(a[..n], b[..n]);
    }
  }

  /** The mean of the differences is the difference of the means. */
  lemma MeanDifference(a: seq<real>, b: seq<real>)
    requires |a| == |b| > 0
    ensures Mean(Difference(a, b)).value == Mean(a).value - Mean(b).value
  {
    SumDifference(a, b);
    var n := |a| as real;
    assert (Sum(a) - Sum(b)) / n == Sum(a) / n - Sum(b) / n;
  }

  /** Column k of a table stored row by row. */
  function Column(t: seq<seq<real>>, k: nat): (col: seq<real>)
    requires forall c :: 0 <= c < |t| ==> k < |t[c]|
    ensures |col| == |t| && forall c :: 0 <= c < |t| ==> col[c] == t[c][k]
  {
    seq(|t|, c requires 0 <= c < |t| => t[c][k])
  }

  /** A table with `years` values for every cell. */
  predicate Rectangular(t: seq<seq<real>>, years: nat) {
    forall c :: 0 <= c < |t| ==> |t[c]| == years
  }

  /** The mean over the cells of each year's column. */
  function ColumnMeans(t: seq<seq<real>>, years: nat): (m: seq<real>)
    requires |t| > 0 && Rectangular(t, years)
    ensures |m| == years
    ensures forall k :: 0 <= k < years ==> Some(m[k]) == Mean(Column(t, k))
  {
    seq(years, k requires 0 <= k < years => Mean(Column(t, k)).value)
  }

  /** Per-year means of values that all lie in [lo, hi] lie in [lo, hi]. */
  lemma ColumnMeansWithin(t: seq<seq<real>>, years: nat, lo: real, hi: real)
    requires |t| > 0 && Rectangular(t, years)
    requires forall c, k :: 0 <= c < |t| && 0 <= k < years ==> lo <= t[c][k] <= hi
    ensures forall k :: 0 <= k < years ==> lo <= ColumnMeans(t, years)[k] <= hi
  {
    forall k | 0 <= k < years
      ensures lo <= ColumnMeans(t, years)[k] <= hi
    {
      MeanWithin(Column(t, k), lo, hi);
    }
  }
}
