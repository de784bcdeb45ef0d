/**
 * One-way analysis of variance (`OneWayANOVA`): the between-group and
 * within-group sums of squares, their mean squares and the F statistic,
 * with a p-value from a normal approximation of the F distribution.
 */
module Anova {
  import opened Outcomes
  import opened Sums
  import opened Numerics
  import opened Descriptive
  import opened TestResults

  /** Every group has at least one value (`mean` divides by the group size). */
  predicate NonEmptyGroups(groups: seq<seq<real>>)
  {
    forall g :: 0 <= g < |groups| ==> |groups[g]| > 0
  }

  /** The number of values in all groups. */
  function TotalCount(groups: seq<seq<real>>): nat
  {
    var k := |groups|;
    if k == 0 then 0 else TotalCount(groups[..k - 1]) + |groups[k - 1]|
  }

  /** The sum of the values in all groups. */
  function TotalSum(groups: seq<seq<real>>): real
  {
    var k := |groups|;
    if k == 0 then 0.0 else TotalSum(groups[..k - 1]) + Sum(groups[k - 1])
  }

  /** The between-group sum of squares Σ_g n_g·(mean_g − grand)². */
  function Between(groups: seq<seq<real>>, grand: real): real
  {
    var k := |groups|;
    if k == 0 then 0.0
    else Between(groups[..k - 1], grand) + |groups[k - 1]| as real * Sq(Average(groups[k - 1]) - grand)
  }

  /** The within-group sum of squares Σ_g Σ_v (v − mean_g)². */
  function Within(groups: seq<seq<real>>): real
  {
    var k := |groups|;
    if k == 0 then 0.0 else Within(groups[..k - 1]) + SquaredDeviations(groups[k - 1], Average(groups[k - 1]))
  }

  /**
   * `fDistributionCDF`: 0 when either degree of freedom is not positive,
   * else the standard normal CDF at (f − 1)/(2/√dfd).
   */
  function FDistributionCDF(m: Math, f: real, dfn: real, dfd: real): (r: real)
    requires Sound(m)
    ensures 0.0 <= r <= 1.0
    ensures dfn <= 0.0 || dfd <= 0.0 ==> r == 0.0
    ensures dfn > 0.0 && dfd > 0.0 && f >= 1.0 ==> r >= 0.5
  {
    if dfn <= 0.0 || dfd <= 0.0 then 0.0
    else
      SqrtPositive(m, dfd);
      var scale := 2.0 / m.sqrt(dfd);
      assert f >= 1.0 ==> (f - 1.0) / scale >= 0.0;
      Phi(m, (f - 1.0) / scale)
  }

  /**
   * The outcome of the test as specified. With N values in k groups,
   * dfBetween = k − 1 and dfWithin = N − k. When every group holds one value
   * dfWithin is 0 and Go's 0/0 makes the within mean square NaN, which is
   * not equal to 0: the statistic is NaN and, because `fDistributionCDF`
   * returns 0 for dfd ≤ 0, the p-value is 1. Otherwise a zero within mean
   * square gives NaN for both; else F = MSB/MSW and p = 1 − CDF(F).
   */
  function AnovaResult(m: Math, groups: seq<seq<real>>): TestResult
    requires Sound(m) && |groups| >= 2 && NonEmptyGroups(groups)
  {
    CountAtLeast(groups);
    var k := |groups|;
    var n := TotalCount(groups);
    var grand := TotalSum(groups) / n as real;
    var dfBetween := (k - 1) as real;
    var dfWithin := (n - k) as real;
    var msb := Between(groups, grand) / dfBetween;
    if dfWithin == 0.0 then TestResult(NaN, Num(1.0 - FDistributionCDF(m, 0.0, dfBetween, dfWithin)))
    else
      var msw := Within(groups) / dfWithin;
      if msw == 0.0 then TestResult(NaN, NaN)
      else
        var f := msb / msw;
        TestResult(Num(f), Num(1.0 - FDistributionCDF(m, f, dfBetween, dfWithin)))
  }

  /** Non-empty groups hold at least as many values as there are groups. */
  lemma {:induction false} CountAtLeast(groups: seq<seq<real>>)
    requires NonEmptyGroups(groups)
    ensures TotalCount(groups) >= |groups|
  {
    if |groups| > 0 {
      CountAtLeast(groups[..|groups| - 1]);
    }
  }

  /** `mean`: the average of one group. */
  method GroupMean(data: seq<real>) returns (mean: real)
    requires |data| > 0
    ensures mean == Average(data)
  {
    var sum := 0.0;
    var i := 0;
    while i < |data|
      invariant 0 <= i <= |data|
      invariant sum == Sum(data[..i])
    {
      SumStep(data, i);
      sum := sum + data[i];
      i := i + 1;
    }
    assert data[..i] == data;
    mean := sum / |data| as real;
  }

  /**
   * `OneWayANOVA`. Go panics with fewer than two groups; an empty group
   * makes its mean NaN, so groups are required to be non-empty. The loops
   * accumulate the totals, the between-group and the within-group sums of
   * squares (`AccumulateTotals`, `AccumulateBetween`, `AccumulateWithin`).
   */
  method OneWayANOVA(m: Math, groups: seq<seq<real>>) returns (r: TestResult)
    requires Sound(m) && |groups| >= 2 && NonEmptyGroups(groups)
    ensures r == AnovaResult(m, groups)
  {
    var totalSum, totalCount := AccumulateTotals(groups);
    CountAtLeast(groups);
    var grandMean := totalSum / totalCount as real;
    var ssb := AccumulateBetween(groups, grandMean);
    var ssw := AccumulateWithin(groups);
    var dfBetween := (|groups| - 1) as real;
    var dfWithin := (totalCount - |groups|) as real;
    var msb := ssb / dfBetween;
    if dfWithin == 0.0 {
      // Go: msw = 0/0 is NaN, so the zero test fails and f = msb/NaN is NaN.
      var p := 1.0 - FDistributionCDF(m, 0.0, dfBetween, dfWithin);
      return TestResult(NaN, Num(p));
    }
    var msw := ssw / dfWithin;
    if msw == 0.0 {
      return TestResult(NaN, NaN);
    }
    var f := msb / msw;
    var p := 1.0 - FDistributionCDF(m, f, dfBetween, dfWithin);
    r := TestResult(Num(f), Num(p));
  }

  /** The first loop of `OneWayANOVA`: the sum and the number of all values. */
  method AccumulateTotals(groups: seq<seq<real>>) returns (totalSum: real, totalCount: nat)
    ensures totalSum == TotalSum(groups) && totalCount == TotalCount(groups)
  {
    totalSum, totalCount := 0.0, 0;
    var i := 0;
    while i < |groups|
      invariant 0 <= i <= |groups|
      invariant totalSum == TotalSum(groups[..i]) && totalCount == TotalCount(groups[..i])
    {
      var group := groups[i];
      var j := 0;
      while j < |group|
        invariant 0 <= j <= |group|
        invariant totalSum == TotalSum(groups[..i]) + Sum(group[..j])
        invariant totalCount == TotalCount(groups[..i]) + j
      {
        SumStep(group, j);
        totalSum := totalSum + group[j];
        totalCount := totalCount + 1;
        j := j + 1;
      }
      assert group[..j] == group;
      assert groups[..i + 1][..i] == groups[..i];
      i := i + 1;
    }
    assert groups[..i] == groups;
  }

  /** The second loop: Σ_g n_g·(mean_g − grand)². */
  method AccumulateBetween(groups: seq<seq<real>>, grandMean: real) returns (ssb: real)
    requires NonEmptyGroups(groups)
    ensures ssb == Between(groups, grandMean)
  {
    ssb := 0.0;
    var i := 0;
    while i < |groups|
      invariant 0 <= i <= |groups|
      invariant ssb == Between(groups[..i], grandMean)
    {
      var groupMean := GroupMean(groups[i]);
      var n := |groups[i]| as real;
      assert groups[..i + 1][..i] == groups[..i];
      ssb := ssb + n * Sq(groupMean - grandMean);
      i := i + 1;
    }
    assert groups[..i] == groups;
  }

  /** The third loop: Σ_g Σ_v (v − mean_g)². */
  method AccumulateWithin(groups: seq<seq<real>>) returns (ssw: real)
    requires NonEmptyGroups(groups)
    ensures ssw == Within(groups)
  {
    ssw := 0.0;
    var i := 0;
    while i < |groups|
      invariant 0 <= i <= |groups|
      invariant ssw == Within(groups[..i])
    {
      var group := groups[i];
      var groupMean := GroupMean(group);
      var j := 0;
      while j < |group|
        invariant 0 <= j <= |group|
        invariant ssw == Within(groups[..i]) + SquaredDeviations(group[..j], groupMean)
      {
        SquaredDeviationsStep(group, groupMean, j);
        ssw := ssw + Sq(group[j] - groupMean);
        j := j + 1;
      }
      assert group[..j] == group;
      assert groups[..i + 1][..i] == groups[..i];
      i := i + 1;
    }
    assert groups[..i] == groups;
  }

  // ---------------------------------------------------------------------
  // Properties.

  /** The grand mean is the total over the count: the size-weighted mean of the group means. */
  lemma {:induction false} TotalSumWeighted(groups: seq<seq<real>>)
    ensures TotalSum(groups) == WeightedMeans(groups)
  {
    var k := |groups|;
    if k > 0 {
      TotalSumWeighted(groups[..k - 1]);
      AverageTimes(groups[k - 1]);
    }
  }

  /** Σ_g n_g·mean_g. */
  function WeightedMeans(groups: seq<seq<real>>): real
  {
    var k := |groups|;
    if k == 0 then 0.0 else WeightedMeans(groups[..k - 1]) + |groups[k - 1]| as real * Average(groups[k - 1])
  }

  /** Both sums of squares are non-negative. */
  lemma {:induction false} SumsOfSquaresNonNegative(groups: seq<seq<real>>, grand: real)
    ensures Between(groups, grand) >= 0.0
    ensures Within(groups) >= 0.0
  {
    var k := |groups|;
    if k > 0 {
      var g := groups[k - 1];
      SumsOfSquaresNonNegative(groups[..k - 1], grand);
      SquarePositive(Average(g) - grand);
      SquaredDeviationsZero(g, Average(g));
      assert |g| as real * Sq(Average(g) - grand) >= 0.0;
    }
  }

  /** The within-group sum of squares is zero exactly when no group varies. */
  lemma {:induction false} WithinZero(groups: seq<seq<real>>)
    requires NonEmptyGroups(groups)
    ensures Within(groups) == 0.0 <==> forall g :: 0 <= g < |groups| ==> AllEqual(groups[g])
  {
    var k := |groups|;
    if k > 0 {
      var init, last := groups[..k - 1], groups[k - 1];
      WithinZero(init);
      SpreadZero(last);
      SumsOfSquaresNonNegative(init, 0.0);
      assert forall g :: 0 <= g < k - 1 ==> init[g] == groups[g];
    }
  }

  /** Groups that do not vary, but have room for spread, give NaN for both the statistic and the p-value. */
  lemma {:induction false} NoSpread(m: Math, groups: seq<seq<real>>)
    requires Sound(m) && |groups| >= 2 && NonEmptyGroups(groups)
    requires TotalCount(groups) > |groups|
    requires forall g :: 0 <= g < |groups| ==> AllEqual(groups[g])
    ensures AnovaResult(m, groups) == TestResult(NaN, NaN)
  {
    WithinZero(groups);
  }

  /** Any group that varies, with room for spread, gives a finite non-negative F. */
  lemma {:induction false} Spread(m: Math, groups: seq<seq<real>>, g: nat)
    requires Sound(m) && |groups| >= 2 && NonEmptyGroups(groups)
    requires TotalCount(groups) > |groups|
    requires g < |groups| && !AllEqual(groups[g])
    ensures AnovaResult(m, groups).statistic.Num?
    ensures AnovaResult(m, groups).statistic.x >= 0.0
    ensures AnovaResult(m, groups).pValue.Num?
    ensures 0.0 <= AnovaResult(m, groups).pValue.x <= 1.0
  {
    WithinZero(groups);
    var n := TotalCount(groups);
    var grand := TotalSum(groups) / n as real;
    SumsOfSquaresNonNegative(groups, grand);
    var msb := Between(groups, grand) / (|groups| - 1) as real;
    var msw := Within(groups) / (n - |groups|) as real;
    assert msb >= 0.0 && msw > 0.0;
    QuotientNonNegative(msb, msw);
  }

  lemma {:induction false} QuotientNonNegative(x: real, y: real)
    requires x >= 0.0 && y > 0.0
    ensures x / y >= 0.0
  {
  }

  /** When every group holds a single value the statistic is NaN and the p-value is 1. */
  lemma {:induction false} SingletonGroups(m: Math, groups: seq<seq<real>>)
    requires Sound(m) && |groups| >= 2
    requires forall g :: 0 <= g < |groups| ==> |groups[g]| == 1
    ensures AnovaResult(m, groups) == TestResult(NaN, Num(1.0))
  {
    CountOfSingletons(groups);
  }

  lemma {:induction false} CountOfSingletons(groups: seq<seq<real>>)
    requires forall g :: 0 <= g < |groups| ==> |groups[g]| == 1
    ensures TotalCount(groups) == |groups|
  {
    if |groups| > 0 {
      CountOfSingletons(groups[..|groups| - 1]);
    }
  }

  /** Groups {4, 5, 6}, {10, 9, 11} and {7, 8, 9} give F = 19. */
  lemma {:induction false} FixtureAnova(m: Math)
    requires Sound(m)
    ensures AnovaResult(m, [[4.0, 5.0, 6.0], [10.0, 9.0, 11.0], [7.0, 8.0, 9.0]]).statistic == Num(19.0)
  {
    var a, b, c := [4.0, 5.0, 6.0], [10.0, 9.0, 11.0], [7.0, 8.0, 9.0];
    Sum3(a);
    Sum3(b);
    Sum3(c);
    assert Average(a) == 5.0 && Average(b) == 10.0 && Average(c) == 8.0;
    var grand := 69.0 / 9.0;
    ThreeGroupTotals(a, b, c);
    ThreeGroupSquares(a, b, c, grand);
    SquaredDeviations3(a, 5.0);
    SquaredDeviations3(b, 10.0);
    SquaredDeviations3(c, 8.0);
    assert Between([a, b, c], grand) == 38.0;
    assert Within([a, b, c]) == 6.0;
  }

  /** The totals of three groups, written out. */
  lemma {:induction false} ThreeGroupTotals(a: seq<real>, b: seq<real>, c: seq<real>)
    ensures TotalCount([a, b, c]) == |a| + |b| + |c|
    ensures TotalSum([a, b, c]) == Sum(a) + Sum(b) + Sum(c)
  {
    assert [] + [a] == [a] && [a] + [b] == [a, b] && [a, b] + [c] == [a, b, c];
    AppendCount([], a);
    AppendCount([a], b);
    AppendCount([a, b], c);
    AppendSum([], a);
    AppendSum([a], b);
    AppendSum([a, b], c);
  }

  /** The two sums of squares of three groups, written out. */
  lemma {:induction false} ThreeGroupSquares(a: seq<real>, b: seq<real>, c: seq<real>, grand: real)
    ensures Between([a, b, c], grand)
         == |a| as real * Sq(Average(a) - grand) + |b| as real * Sq(Average(b) - grand)
          + |c| as real * Sq(Average(c) - grand)
    ensures Within([a, b, c])
         == SquaredDeviations(a, Average(a)) + SquaredDeviations(b, Average(b)) + SquaredDeviations(c, Average(c))
  {
    assert [] + [a] == [a] && [a] + [b] == [a, b] && [a, b] + [c] == [a, b, c];
    AppendBetween([], a, grand);
    AppendBetween([a], b, grand);
    AppendBetween([a, b], c, grand);
    AppendWithin([], a);
    AppendWithin([a], b);
    AppendWithin([a, b], c);
  }

  lemma {:induction false} AppendCount(groups: seq<seq<real>>, g: seq<real>)
    ensures TotalCount(groups + [g]) == TotalCount(groups) + |g|
  {
    var all := groups + [g];
    assert all[..|groups|] == groups && all[|groups|] == g;
  }

  lemma {:induction false} AppendSum(groups: seq<seq<real>>, g: seq<real>)
    ensures TotalSum(groups + [g]) == TotalSum(groups) + Sum(g)
  {
    var all := groups + [g];
    assert all[..|groups|] == groups && all[|groups|] == g;
  }

  lemma {:induction false} AppendBetween(groups: seq<seq<real>>, g: seq<real>, grand: real)
    ensures Between(groups + [g], grand) == Between(groups, grand) + |g| as real * Sq(Average(g) - grand)
  {
    var all := groups + [g];
    assert all[..|groups|] == groups && all[|groups|] == g;
  }

  lemma {:induction false} AppendWithin(groups: seq<seq<real>>, g: seq<real>)
    ensures Within(groups + [g]) == Within(groups) + SquaredDeviations(g, Average(g))
  {
    var all := groups + [g];
    assert all[..|groups|] == groups && all[|groups|] == g;
  }

  lemma {:induction false} SquaredDeviations3(s: seq<real>, c: real)
    requires |s| == 3
    ensures SquaredDeviations(s, c) == Sq(s[0] - c) + Sq(s[1] - c) + Sq(s[2] - c)
  {
    SquaredDeviationsStep(s, c, 0);
    SquaredDeviationsStep(s, c, 1);
    SquaredDeviationsStep(s, c, 2);
    assert s[..3] == s;
  }
}
