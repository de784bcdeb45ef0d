/**
 * The one- and two-sample z-tests. Each checks its inputs, standardises
 * the difference of means by the standard error and reads a two-tailed
 * p-value off the normal CDF.
 */
module ZTest {
  import opened Outcomes
  import opened Sums
  import opened Numerics
  import opened TestResults

  /** `normalCDF(x, mean, stddev)`: 0.5·(1 + erf((x − mean)/(stddev·√2))). */
  function NormalCDF(m: Math, x: real, mean: real, stddev: real): (r: real)
    requires Sound(m) && stddev > 0.0
    ensures 0.0 <= r <= 1.0
    ensures x >= mean ==> r >= 0.5
  {
    var w := stddev * Sqrt2(m);
    assert w > 0.0;
    assert x >= mean ==> (x - mean) / w >= 0.0;
    0.5 * (1.0 + m.erf((x - mean) / w))
  }

  /** The normal CDF with mean 0 and deviation 1 is the standard normal CDF. */
  lemma {:induction false} NormalCDFStandard(m: Math, x: real)
    requires Sound(m)
    ensures NormalCDF(m, x, 0.0, 1.0) == Phi(m, x)
  {
    assert (x - 0.0) / (1.0 * Sqrt2(m)) == x / Sqrt2(m);
  }

  /** The two-tailed p-value 2·(1 − normalCDF(|z|, 0, 1)) the z-tests return. */
  function ZPValue(m: Math, z: real): (p: real)
    requires Sound(m)
    ensures p == TwoTailed(m, z)
    ensures 0.0 <= p <= 1.0
  {
    NormalCDFStandard(m, Abs(z));
    2.0 * (1.0 - NormalCDF(m, Abs(z), 0.0, 1.0))
  }

  /**
   * `OneSampleZTest`. Go panics when σ ≤ 0 or n ≤ 0; both are
   * preconditions here. The statistic z satisfies z·σ/√n = x̄ − μ.
   */
  function OneSampleZTest(m: Math, sampleMean: real, populationMean: real, populationStdDev: real, n: int): (r: TestResult)
    requires Sound(m)
    requires populationStdDev > 0.0 && n > 0
    ensures r.statistic.Num? && r.pValue.Num?
    ensures r.statistic.x * (populationStdDev / m.sqrt(n as real)) == sampleMean - populationMean
    ensures r.pValue.x == TwoTailed(m, r.statistic.x)
    ensures r.statistic.x == 0.0 <==> sampleMean == populationMean
  {
    SqrtPositive(m, n as real);
    var standardError := populationStdDev / m.sqrt(n as real);
    var z := (sampleMean - populationMean) / standardError;
    TestResult(Num(z), Num(ZPValue(m, z)))
  }

  /** The combined standard error √(σ₁²/n₁ + σ₂²/n₂) of two sample means. */
  function PooledError(m: Math, stdDev1: real, stdDev2: real, n1: int, n2: int): (se: real)
    requires Sound(m)
    requires stdDev1 > 0.0 && stdDev2 > 0.0 && n1 > 0 && n2 > 0
    ensures se > 0.0
    ensures se * se == Sq(stdDev1) / n1 as real + Sq(stdDev2) / n2 as real
  {
    SquarePositive(stdDev1);
    SquarePositive(stdDev2);
    var v := Sq(stdDev1) / n1 as real + Sq(stdDev2) / n2 as real;
    SqrtPositive(m, v);
    m.sqrt(v)
  }

  /**
   * `TwoSampleZTest`. Go panics when either σ ≤ 0 or either n ≤ 0. The
   * statistic z satisfies z·se = m₁ − m₂ for the combined standard error se.
   */
  function TwoSampleZTest(m: Math, mean1: real, mean2: real, stdDev1: real, stdDev2: real, n1: int, n2: int): (r: TestResult)
    requires Sound(m)
    requires stdDev1 > 0.0 && stdDev2 > 0.0 && n1 > 0 && n2 > 0
    ensures r.statistic.Num? && r.pValue.Num?
    ensures r.statistic.x * PooledError(m, stdDev1, stdDev2, n1, n2) == mean1 - mean2
    ensures r.pValue.x == TwoTailed(m, r.statistic.x)
  {
    var se := m.sqrt(Sq(stdDev1) / n1 as real + Sq(stdDev2) / n2 as real);
    assert se == PooledError(m, stdDev1, stdDev2, n1, n2);
    var z := (mean1 - mean2) / se;
    TestResult(Num(z), Num(ZPValue(m, z)))
  }

  /** Swapping the two samples negates z and keeps the p-value. */
  lemma {:induction false} TwoSampleZSwap(m: Math, mean1: real, mean2: real, stdDev1: real, stdDev2: real, n1: int, n2: int)
    requires Sound(m)
    requires stdDev1 > 0.0 && stdDev2 > 0.0 && n1 > 0 && n2 > 0
    ensures TwoSampleZTest(m, mean2, mean1, stdDev2, stdDev1, n2, n1).statistic.x
         == -TwoSampleZTest(m, mean1, mean2, stdDev1, stdDev2, n1, n2).statistic.x
    ensures TwoSampleZTest(m, mean2, mean1, stdDev2, stdDev1, n2, n1).pValue
         == TwoSampleZTest(m, mean1, mean2, stdDev1, stdDev2, n1, n2).pValue
  {
    var se := PooledError(m, stdDev1, stdDev2, n1, n2);
    assert PooledError(m, stdDev2, stdDev1, n2, n1) == se;
    var z := TwoSampleZTest(m, mean1, mean2, stdDev1, stdDev2, n1, n2).statistic.x;
    var w := TwoSampleZTest(m, mean2, mean1, stdDev2, stdDev1, n2, n1).statistic.x;
    assert (w + z) * se == 0.0;
    TwoTailedSymmetric(m, z);
  }

  /** Equal means give z = 0 and the p-value 1. */
  lemma {:induction false} TwoSampleZEqualMeans(m: Math, mean: real, stdDev1: real, stdDev2: real, n1: int, n2: int)
    requires Sound(m)
    requires stdDev1 > 0.0 && stdDev2 > 0.0 && n1 > 0 && n2 > 0
    ensures TwoSampleZTest(m, mean, mean, stdDev1, stdDev2, n1, n2) == TestResult(Num(0.0), Num(1.0))
  {
    TwoTailedSymmetric(m, 0.0);
  }
}
