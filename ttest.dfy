/**
 * The t-tests: one-sample, Welch's two-sample and paired. Each p-value is
 * two-tailed and read off `studentTCDF`, which as written ignores its
 * degrees of freedom and is the standard normal CDF.
 */
module TTest {
  import opened Outcomes
  import opened Sums
  import opened Numerics
  import opened Descriptive
  import opened TestResults

  /** `studentTCDF(t, df)`: the standard normal CDF at t, whatever df is. */
  function StudentTCDF(m: Math, t: real, df: real): (r: real)
    requires Sound(m)
    ensures 0.0 <= r <= 1.0
    ensures t >= 0.0 ==> r >= 0.5
  {
    Phi(m, t)
  }

  /** The degrees of freedom have no effect on `studentTCDF`. */
  lemma {:induction false} StudentTIgnoresDf(m: Math, t: real, df1: real, df2: real)
    requires Sound(m)
    ensures StudentTCDF(m, t, df1) == StudentTCDF(m, t, df2)
  {
  }

  /** The two-tailed p-value 2·(1 − studentTCDF(|t|, df)) every t-test returns. */
  function TPValue(m: Math, t: real, df: real): (p: real)
    requires Sound(m)
    ensures p == TwoTailed(m, t)
    ensures 0.0 <= p <= 1.0
  {
    2.0 * (1.0 - StudentTCDF(m, Abs(t), df))
  }

  /**
   * `OneSampleTTest`. Go panics when the standard deviation is ≤ 0 or
   * n ≤ 1; both are preconditions. The statistic t satisfies
   * t·sd/√n = x̄ − μ.
   */
  function OneSampleTTest(m: Math, sampleMean: real, populationMean: real, sampleStdDev: real, n: int): (r: TestResult)
    requires Sound(m)
    requires sampleStdDev > 0.0 && n > 1
    ensures r.statistic.Num? && r.pValue.Num?
    ensures r.statistic.x * (sampleStdDev / m.sqrt(n as real)) == sampleMean - populationMean
    ensures r.pValue.x == TwoTailed(m, r.statistic.x)
    ensures r.statistic.x == 0.0 <==> sampleMean == populationMean
  {
    SqrtPositive(m, n as real);
    var standardError := sampleStdDev / m.sqrt(n as real);
    var t := (sampleMean - populationMean) / standardError;
    TestResult(Num(t), Num(TPValue(m, t, (n - 1) as real)))
  }

  /**
   * The Welch–Satterthwaite degrees of freedom
   * (se₁ + se₂)² / (se₁²/(n₁ − 1) + se₂²/(n₂ − 1)) for the squared
   * standard errors se₁ = sd₁²/n₁ and se₂ = sd₂²/n₂ (`math.Pow(·, 2)` is
   * an exact square here).
   */
  function WelchDF(se1: real, se2: real, n1: int, n2: int): real
    requires se1 > 0.0 && se2 > 0.0 && n1 > 1 && n2 > 1
  {
    WelchRatio(se1, se2, (n1 - 1) as real, (n2 - 1) as real)
  }

  /** (a + b)² / (a²/u + b²/v). */
  function WelchRatio(a: real, b: real, u: real, v: real): real
    requires a > 0.0 && b > 0.0 && u >= 1.0 && v >= 1.0
  {
    SquarePositive(a);
    SquarePositive(b);
    QuotientPositive(Sq(a), u);
    QuotientPositive(Sq(b), v);
    Sq(a + b) / (Sq(a) / u + Sq(b) / v)
  }

  /**
   * The Welch degrees of freedom lie between the smaller of n₁ − 1 and
   * n₂ − 1 and their sum n₁ + n₂ − 2.
   */
  lemma {:induction false} WelchDFBounds(se1: real, se2: real, n1: int, n2: int)
    requires se1 > 0.0 && se2 > 0.0 && n1 > 1 && n2 > 1
    ensures (if n1 < n2 then n1 - 1 else n2 - 1) as real <= WelchDF(se1, se2, n1, n2)
    ensures WelchDF(se1, se2, n1, n2) <= (n1 + n2 - 2) as real
  {
    var u, v := (n1 - 1) as real, (n2 - 1) as real;
    WelchScalar(se1, se2, u, v);
    assert (if n1 < n2 then n1 - 1 else n2 - 1) as real == if u < v then u else v;
  }

  /** The Welch bounds over the reals, with u = n₁ − 1 and v = n₂ − 1. */
  lemma {:induction false} WelchScalar(a: real, b: real, u: real, v: real)
    requires a > 0.0 && b > 0.0 && u >= 1.0 && v >= 1.0
    ensures (if u < v then u else v) <= WelchRatio(a, b, u, v) <= u + v
  {
    var aa, bb, ab := Sq(a), Sq(b), a * b;
    SquarePositive(a);
    SquarePositive(b);
    ProductPositive(a, b);
    var p, q := aa / u, bb / v;
    QuotientPositive(aa, u);
    QuotientPositive(bb, v);
    var d := p + q;
    var s := Sq(a + b);
    assert s == aa + 2.0 * ab + bb;
    WelchUpper(a, b, u, v, p, q);
    DivideBelow(s, d, u + v);
    var w := if u < v then u else v;
    ScaleDown(aa, u, w);
    ScaleDown(bb, v, w);
    assert d * w <= s;
    DivideAbove(s, d, w);
  }

  lemma {:induction false} ProductPositive(x: real, y: real)
    requires x > 0.0 && y > 0.0
    ensures x * y > 0.0
  {
  }

  lemma {:induction false} QuotientPositive(x: real, y: real)
    requires x > 0.0 && y > 0.0
    ensures x / y > 0.0
  {
  }

  /** (c/u)·w ≤ c when 0 < w ≤ u. */
  lemma {:induction false} ScaleDown(c: real, u: real, w: real)
    requires c > 0.0 && 0.0 < w <= u
    ensures c / u * w <= c
  {
    var p := c / u;
    assert p * u == c;
    assert p > 0.0;
    assert p * w <= p * u;
  }

  /** (a + b)² ≤ (u + v)·(a²/u + b²/v), the Cauchy–Schwarz step. */
  lemma {:induction false} WelchUpper(a: real, b: real, u: real, v: real, p: real, q: real)
    requires u > 0.0 && v > 0.0 && p * u == Sq(a) && q * v == Sq(b)
    ensures Sq(a + b) <= (u + v) * (p + q)
  {
    var e := u * q + v * p - 2.0 * (a * b);
    assert (u + v) * (p + q) - Sq(a + b) == e;
    WelchUpperScaled(a, b, u, v, p, q, e);
    SquarePositive(v * a - u * b);
    ProductPositive(u, v);
    SignFromProduct(e, u * v);
  }

  lemma {:induction false} WelchUpperScaled(a: real, b: real, u: real, v: real, p: real, q: real, e: real)
    requires p * u == Sq(a) && q * v == Sq(b) && e == u * q + v * p - 2.0 * (a * b)
    ensures e * (u * v) == Sq(v * a - u * b)
  {
    assert e * (u * v) == u * u * (q * v) + v * v * (p * u) - 2.0 * (a * b) * (u * v);
    assert u * u * (q * v) == (u * b) * (u * b);
    assert v * v * (p * u) == (v * a) * (v * a);
    assert 2.0 * (a * b) * (u * v) == 2.0 * (v * a) * (u * b);
  }

  lemma {:induction false} SignFromProduct(e: real, k: real)
    requires k > 0.0 && e * k >= 0.0
    ensures e >= 0.0
  {
  }

  lemma {:induction false} DivideBelow(s: real, d: real, c: real)
    requires d > 0.0 && s <= c * d
    ensures s / d <= c
  {
  }

  lemma {:induction false} DivideAbove(s: real, d: real, c: real)
    requires d > 0.0 && d * c <= s
    ensures c <= s / d
  {
  }

  /**
   * `TwoSampleTTestWelch`. Go panics when either standard deviation is
   * ≤ 0 or either sample size ≤ 1. The statistic t satisfies
   * t·√(sd₁²/n₁ + sd₂²/n₂) = m₁ − m₂.
   */
  function TwoSampleTTestWelch(m: Math, mean1: real, mean2: real, stdDev1: real, stdDev2: real, n1: int, n2: int): (r: TestResult)
    requires Sound(m)
    requires stdDev1 > 0.0 && stdDev2 > 0.0 && n1 > 1 && n2 > 1
    ensures r.statistic.Num? && r.pValue.Num?
    ensures r.statistic.x * m.sqrt(Sq(stdDev1) / n1 as real + Sq(stdDev2) / n2 as real) == mean1 - mean2
    ensures r.pValue.x == TwoTailed(m, r.statistic.x)
  {
    SquarePositive(stdDev1);
    SquarePositive(stdDev2);
    var se1 := (stdDev1 * stdDev1) / n1 as real;
    var se2 := (stdDev2 * stdDev2) / n2 as real;
    assert se1 == Sq(stdDev1) / n1 as real && se2 == Sq(stdDev2) / n2 as real;
    SqrtPositive(m, se1 + se2);
    var t := (mean1 - mean2) / m.sqrt(se1 + se2);
    var df := WelchDF(se1, se2, n1, n2);
    TestResult(Num(t), Num(TPValue(m, t, df)))
  }

  /**
   * The paired test as specified: the t statistic of the differences
   * dᵢ = xᵢ − yᵢ, with their two-pass sample variance. When the
   * differences do not vary the standard error is zero, and Go's float
   * division gives ±Inf (p-value 0, because erf(±Inf) = ±1) or, for a
   * zero mean difference, NaN.
   */
  function PairedResult(m: Math, x: seq<real>, y: seq<real>): TestResult
    requires Sound(m) && |x| == |y| && |x| >= 2
  {
    var d := Diff(x, y);
    var n := |d| as real;
    var meanDiff := Average(d);
    var variance := SampleVariance(d);
    if variance == 0.0 then
      if meanDiff > 0.0 then TestResult(PosInf, Num(0.0))
      else if meanDiff < 0.0 then TestResult(NegInf, Num(0.0))
      else TestResult(NaN, NaN)
    else
      VarianceZero(d);
      SqrtPositive(m, variance);
      SqrtPositive(m, n);
      var t := meanDiff / (m.sqrt(variance) / m.sqrt(n));
      TestResult(Num(t), Num(TPValue(m, t, n - 1.0)))
  }

  /**
   * The paired result is a finite statistic exactly when the differences
   * are not all equal; otherwise a non-zero common difference d gives
   * ±Inf with p-value 0 and a zero difference gives NaN.
   */
  lemma {:induction false} PairedDegenerate(m: Math, x: seq<real>, y: seq<real>)
    requires Sound(m) && |x| == |y| && |x| >= 2
    ensures PairedResult(m, x, y).statistic.Num? <==> !AllEqual(Diff(x, y))
    ensures AllEqual(Diff(x, y)) && x[0] > y[0] ==> PairedResult(m, x, y) == TestResult(PosInf, Num(0.0))
    ensures AllEqual(Diff(x, y)) && x[0] < y[0] ==> PairedResult(m, x, y) == TestResult(NegInf, Num(0.0))
    ensures AllEqual(Diff(x, y)) && x[0] == y[0] ==> PairedResult(m, x, y) == TestResult(NaN, NaN)
  {
    var d := Diff(x, y);
    VarianceZero(d);
    if AllEqual(d) {
      AllEqualAverage(d);
      assert Average(d) == d[0];
    }
  }

  /** The loop of `PairedTTest`: the sum of the differences xᵢ − yᵢ and the sum of their squares. */
  method SumDifferences(x: seq<real>, y: seq<real>) returns (sumDiff: real, sumDiffSq: real)
    requires |x| == |y|
    ensures sumDiff == Sum(Diff(x, y)) && sumDiffSq == Dot(Diff(x, y), Diff(x, y))
  {
    sumDiff, sumDiffSq := 0.0, 0.0;
    ghost var d := Diff(x, y);
    var i := 0;
    while i < |x|
      invariant 0 <= i <= |x|
      invariant sumDiff == Sum(d[..i]) && sumDiffSq == Dot(d[..i], d[..i])
    {
      var diff := x[i] - y[i];
      SumStep(d, i);
      DotStep(d, d, i);
      sumDiff := sumDiff + diff;
      sumDiffSq := sumDiffSq + diff * diff;
      i := i + 1;
    }
    assert d[..i] == d;
  }

  /**
   * `PairedTTest`. Go panics on a length mismatch or fewer than two pairs.
   * The loop sums the differences and their squares; the variance is then
   * formed in one pass as (Σd² − n·mean²)/(n − 1), which in exact
   * arithmetic is the two-pass sample variance.
   */
  method PairedTTest(m: Math, x: seq<real>, y: seq<real>) returns (r: TestResult)
    requires Sound(m)
    requires |x| == |y| && |x| >= 2
    ensures r == PairedResult(m, x, y)
  {
    var n := |x|;
    var sumDiff, sumDiffSq := SumDifferences(x, y);
    ghost var d := Diff(x, y);
    var meanDiff := sumDiff / n as real;
    var variance := (sumDiffSq - n as real * meanDiff * meanDiff) / (n - 1) as real;
    OnePassVariance(d, sumDiff, sumDiffSq, meanDiff);
    PairedFromMoments(m, x, y, meanDiff, variance);
    if variance == 0.0 {
      if meanDiff > 0.0 {
        r := TestResult(PosInf, Num(0.0));
      } else if meanDiff < 0.0 {
        r := TestResult(NegInf, Num(0.0));
      } else {
        r := TestResult(NaN, NaN);
      }
    } else {
      var stdDev := m.sqrt(variance);
      var standardError := stdDev / m.sqrt(n as real);
      var t := meanDiff / standardError;
      var df := (n - 1) as real;
      r := TestResult(Num(t), Num(TPValue(m, t, df)));
    }
  }

  /** `PairedResult` in terms of the mean and the sample variance of the differences. */
  lemma {:induction false} PairedFromMoments(m: Math, x: seq<real>, y: seq<real>, meanDiff: real, variance: real)
    requires Sound(m) && |x| == |y| && |x| >= 2
    requires meanDiff == Average(Diff(x, y)) && variance == SampleVariance(Diff(x, y))
    ensures variance >= 0.0 && m.sqrt(|x| as real) > 0.0
    ensures variance != 0.0 ==> m.sqrt(variance) > 0.0
    ensures PairedResult(m, x, y)
         == if variance == 0.0 then
              if meanDiff > 0.0 then TestResult(PosInf, Num(0.0))
              else if meanDiff < 0.0 then TestResult(NegInf, Num(0.0))
              else TestResult(NaN, NaN)
            else
              var t := meanDiff / (m.sqrt(variance) / m.sqrt(|x| as real));
              TestResult(Num(t), Num(TPValue(m, t, |x| as real - 1.0)))
  {
    VarianceZero(Diff(x, y));
    SqrtPositive(m, |x| as real);
    if variance != 0.0 {
      SqrtPositive(m, variance);
    }
  }

  /**
   * The one-pass variance (Σd² − n·mean²)/(n − 1) equals the two-pass
   * sample variance Σ(d − mean)²/(n − 1).
   */
  lemma {:induction false} OnePassVariance(d: seq<real>, sumDiff: real, sumDiffSq: real, meanDiff: real)
    requires |d| >= 2 && sumDiff == Sum(d) && sumDiffSq == Dot(d, d)
    requires meanDiff == sumDiff / |d| as real
    ensures meanDiff == Average(d)
    ensures (sumDiffSq - |d| as real * meanDiff * meanDiff) / (|d| - 1) as real == SampleVariance(d)
  {
    var n := |d| as real;
    var a := meanDiff;
    SquaredDeviationsProducts(d, a);
    DeviationProductsExpand(d, d, a, a);
    AverageTimes(d);
    OnePassScalar(SquaredDeviations(d, a), sumDiffSq, sumDiff, n, a);
  }

  /** Σ(d − a)² = Σd² − n·a² once n·a = Σd. */
  lemma {:induction false} OnePassScalar(spread: real, squares: real, sum: real, n: real, a: real)
    requires spread == squares - a * sum - a * sum + n * a * a
    requires n * a == sum
    ensures spread == squares - n * a * a
  {
    assert a * sum == n * a * a;
  }
}
