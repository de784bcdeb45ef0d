/**
 * Descriptive statistics of a sample: mean, sample variance and standard
 * deviation, minimum, maximum and range, median and quartiles over a sorted
 * copy, the mode by a frequency map, sample covariance and the guarded
 * ratios built on them (z-score, Pearson correlation, skewness, kurtosis).
 *
 * Every function of the package returns 0 on input too small for it; the
 * model keeps those guards. The accumulator loops are methods proved equal
 * to the specification functions; the lemmas say what the specifications
 * mean.
 */
module Descriptive {
  import opened Sums
  import opened Sorting
  import opened Numerics

  // ---------------------------------------------------------------------
  // Specifications.

  /** The sample variance Σ(v − mean)²/(n − 1), 0 for fewer than two values. */
  function SampleVariance(s: seq<real>): real
  {
    if |s| < 2 then 0.0 else SquaredDeviations(s, Average(s)) / (|s| - 1) as real
  }

  /**
   * `StdDev`: the square root of the sample variance. It is never negative,
   * squares to the variance, and is zero exactly when there are fewer than
   * two values or all values are equal.
   */
  function StdDev(m: Math, s: seq<real>): (r: real)
    requires Sound(m)
    ensures r >= 0.0
    ensures r * r == SampleVariance(s)
    ensures r == 0.0 <==> |s| < 2 || AllEqual(s)
  {
    VarianceZero(s);
    var v := SampleVariance(s);
    if v == 0.0 then
      SqrtZero(m);
      m.sqrt(v)
    else
      SqrtPositive(m, v);
      m.sqrt(v)
  }

  /** The first least element of a non-empty sample, found left to right. */
  function Least(s: seq<real>): (r: real)
    requires |s| > 0
    ensures r in s
    ensures forall k :: 0 <= k < |s| ==> r <= s[k]
  {
    if |s| == 1 then s[0]
    else
      var rest := Least(s[..|s| - 1]);
      assert forall k :: 0 <= k < |s| - 1 ==> s[..|s| - 1][k] == s[k];
      if s[|s| - 1] < rest then s[|s| - 1] else rest
  }

  /** The first greatest element of a non-empty sample, found left to right. */
  function Greatest(s: seq<real>): (r: real)
    requires |s| > 0
    ensures r in s
    ensures forall k :: 0 <= k < |s| ==> s[k] <= r
  {
    if |s| == 1 then s[0]
    else
      var rest := Greatest(s[..|s| - 1]);
      assert forall k :: 0 <= k < |s| - 1 ==> s[..|s| - 1][k] == s[k];
      if s[|s| - 1] > rest then s[|s| - 1] else rest
  }

  /** The middle of a sorted sequence: the middle element, or the mean of the two middle ones. */
  function Middle(t: seq<real>): real
    requires |t| > 0
  {
    var mid := |t| / 2;
    if |t| % 2 == 0 then (t[mid - 1] + t[mid]) / 2.0 else t[mid]
  }

  /**
   * `Median`: the middle of a sorted copy, 0 for an empty sample. It lies
   * between the least and the greatest element.
   */
  function Median(s: seq<real>): (r: real)
    ensures |s| == 0 ==> r == 0.0
    ensures |s| > 0 ==> Least(s) <= r <= Greatest(s)
  {
    if |s| == 0 then 0.0
    else
      var t := Sort(s);
      MiddleBetween(t);
      assert t[0] in multiset(s) && t[|t| - 1] in multiset(s);
      Middle(t)
  }

  /**
   * `Quartiles`: (Q1, Q2, Q3). An empty sample gives zeros, one value gives
   * it three times, two give (low, mean, high); otherwise Q2 is the median
   * and Q1, Q3 are the medians of the lower and upper halves of the sorted
   * copy, the middle element excluded when n is odd.
   */
  function Quartiles(s: seq<real>): (r: (real, real, real))
    ensures r.0 <= r.1 <= r.2
    ensures r.1 == Median(s)
  {
    if |s| == 0 then (0.0, 0.0, 0.0)
    else
      var t := Sort(s);
      SortedQuartilesOrdered(t);
      SortedSecondQuartile(t);
      SortedQuartiles(t)
  }

  /** The quartiles read off the sorted copy `sorted`. */
  function SortedQuartiles(sorted: seq<real>): (real, real, real)
    requires |sorted| > 0
  {
    var n := |sorted|;
    var mid := n / 2;
    if n == 1 then (sorted[0], sorted[0], sorted[0])
    else if n == 2 then (sorted[0], (sorted[0] + sorted[1]) / 2.0, sorted[1])
    else if n % 2 == 0 then (Median(sorted[..mid]), Median(sorted), Median(sorted[mid..]))
    else (Median(sorted[..mid]), Median(sorted), Median(sorted[mid + 1..]))
  }

  /** The sample covariance Σ(x − x̄)(y − ȳ)/(n − 1), 0 for unequal lengths or n < 2. */
  function SampleCovariance(x: seq<real>, y: seq<real>): real
  {
    if |x| != |y| || |x| < 2 then 0.0
    else DeviationProducts(x, y, Average(x), Average(y)) / (|x| - 1) as real
  }

  /**
   * `ZScore`: (x − mean)/sd, 0 for empty data or a zero standard deviation.
   * Past the guards it is the distance from the mean in standard
   * deviations, and it is zero exactly when a guard applies or x is the mean.
   */
  function ZScore(m: Math, x: real, data: seq<real>): (r: real)
    requires Sound(m)
    ensures r == 0.0 <==> |data| < 2 || AllEqual(data) || x == Average(data)
    ensures |data| >= 2 && !AllEqual(data) ==> r * StdDev(m, data) == x - Average(data)
  {
    if |data| == 0 then 0.0
    else
      var sd := StdDev(m, data);
      if sd == 0.0 then 0.0 else (x - Average(data)) / sd
  }

  /**
   * `PearsonCorrelation`: cov/(sd_x·sd_y), 0 on unequal lengths, n < 2 or a
   * zero standard deviation (a sample whose values are all equal). Past the
   * guards, multiplying back by both standard deviations gives the covariance.
   */
  function Pearson(m: Math, x: seq<real>, y: seq<real>): (r: real)
    requires Sound(m)
    ensures |x| != |y| || |x| < 2 || AllEqual(x) || AllEqual(y) ==> r == 0.0
    ensures |x| == |y| && |x| >= 2 && !AllEqual(x) && !AllEqual(y) ==>
              r * (StdDev(m, x) * StdDev(m, y)) == SampleCovariance(x, y)
  {
    if |x| != |y| || |x| < 2 then 0.0
    else
      var sx, sy := StdDev(m, x), StdDev(m, y);
      if sx == 0.0 || sy == 0.0 then 0.0 else SampleCovariance(x, y) / (sx * sy)
  }

  /** Σ ((v − mean)/sd)^k over the sample. */
  function StandardisedPowers(s: seq<real>, mean: real, sd: real, k: nat): real
    requires sd != 0.0
  {
    if |s| == 0 then 0.0
    else StandardisedPowers(s[..|s| - 1], mean, sd, k) + Pow((s[|s| - 1] - mean) / sd, k)
  }

  /** n/((n−1)(n−2)), the factor of the skewness. */
  function SkewFactor(n: nat): real
    requires n >= 3
  {
    n as real / ((n - 1) * (n - 2)) as real
  }

  /** `Skewness`: n/((n−1)(n−2))·Σz³, 0 for n < 3 or a zero standard deviation. */
  function Skew(m: Math, s: seq<real>): real
    requires Sound(m)
  {
    var n := |s|;
    if n < 3 then 0.0
    else
      var sd := StdDev(m, s);
      if sd == 0.0 then 0.0
      else SkewFactor(n) * StandardisedPowers(s, Average(s), sd, 3)
  }

  /** n(n+1)/((n−1)(n−2)(n−3)), the first term of the excess kurtosis. */
  function KurtFactor(n: nat): real
    requires n >= 4
  {
    var n1, n2, n3 := (n - 1) as real, (n - 2) as real, (n - 3) as real;
    (n as real * (n as real + 1.0)) / (n1 * n2 * n3)
  }

  /** 3(n−1)²/((n−2)(n−3)), the correction subtracted for excess kurtosis. */
  function KurtCorrection(n: nat): real
    requires n >= 4
  {
    var n1, n2, n3 := (n - 1) as real, (n - 2) as real, (n - 3) as real;
    3.0 * Pow(n1, 2) / (n2 * n3)
  }

  /**
   * `Kurtosis`: the excess kurtosis n(n+1)/((n−1)(n−2)(n−3))·Σz⁴ −
   * 3(n−1)²/((n−2)(n−3)), 0 for n < 4 or a zero standard deviation.
   */
  function Kurt(m: Math, s: seq<real>): real
    requires Sound(m)
  {
    var n := |s|;
    if n < 4 then 0.0
    else
      var sd := StdDev(m, s);
      if sd == 0.0 then 0.0
      else KurtFactor(n) * StandardisedPowers(s, Average(s), sd, 4) - KurtCorrection(n)
  }

  // ---------------------------------------------------------------------
  // The loops of the source.

  /** `Mean`: the running sum divided by the count, 0 for an empty sample. */
  method Mean(data: seq<real>) returns (mean: real)
    ensures mean == Average(data)
  {
    if |data| == 0 {
      return 0.0;
    }
    var sum := 0.0;
    var i := 0;
    while i < |data|
      invariant 0 <= i <= |data|
      invariant sum == Sum(data[..i])
    {
      SumStep(data, i);
      sum := sum + data[i];
      i := i + 1;
    }
    assert data[..i] == data;
    mean := sum / |data| as real;
  }

  /** `Variance`: the squared deviations from the mean, summed and divided by n − 1. */
  method Variance(data: seq<real>) returns (variance: real)
    ensures variance == SampleVariance(data)
    ensures variance >= 0.0
  {
    if |data| < 2 {
      return 0.0;
    }
    var mean := Mean(data);
    var sum := 0.0;
    var i := 0;
    while i < |data|
      invariant 0 <= i <= |data|
      invariant sum == SquaredDeviations(data[..i], mean)
    {
      SquaredDeviationsStep(data, mean, i);
      var d := data[i] - mean;
      sum := sum + d * d;
      i := i + 1;
    }
    assert data[..i] == data;
    variance := sum / (|data| - 1) as real;
    VarianceZero(data);
  }

  /** `Min`: the least element, scanning from the first; 0 for an empty sample. */
  method Min(data: seq<real>) returns (min: real)
    ensures |data| == 0 ==> min == 0.0
    ensures |data| > 0 ==> min == Least(data)
  {
    if |data| == 0 {
      return 0.0;
    }
    min := data[0];
    var i := 1;
    while i < |data|
      invariant 1 <= i <= |data|
      invariant min == Least(data[..i])
    {
      LeastStep(data, i);
      if data[i] < min {
        min := data[i];
      }
      i := i + 1;
    }
    assert data[..i] == data;
  }

  /** `Max`: the greatest element, scanning from the first; 0 for an empty sample. */
  method Max(data: seq<real>) returns (max: real)
    ensures |data| == 0 ==> max == 0.0
    ensures |data| > 0 ==> max == Greatest(data)
  {
    if |data| == 0 {
      return 0.0;
    }
    max := data[0];
    var i := 1;
    while i < |data|
      invariant 1 <= i <= |data|
      invariant max == Greatest(data[..i])
    {
      GreatestStep(data, i);
      if data[i] > max {
        max := data[i];
      }
      i := i + 1;
    }
    assert data[..i] == data;
  }

  /** `Range`: Max − Min; never negative, and 0 exactly when all values are equal. */
  method Range(data: seq<real>) returns (range: real)
    ensures |data| == 0 ==> range == 0.0
    ensures |data| > 0 ==> range == Greatest(data) - Least(data)
    ensures range >= 0.0
    ensures range == 0.0 <==> AllEqual(data)
  {
    var min := Min(data);
    var max := Max(data);
    range := max - min;
    if |data| > 0 && range == 0.0 {
      assert forall i, j :: 0 <= i < |data| && 0 <= j < |data| ==> min <= data[i] <= max && min <= data[j] <= max;
    }
    if |data| > 0 && AllEqual(data) {
      assert min == data[0] && max == data[0] by {
        var a :| 0 <= a < |data| && data[a] == min;
        var b :| 0 <= b < |data| && data[b] == max;
      }
    }
  }

  /**
   * `Mode`: a most frequent value. The frequencies are counted into a map;
   * the map is then scanned in no particular order (Go's map iteration
   * order is unspecified), keeping a value whose count beats every count
   * seen before it. Ties may go to any of the most frequent values.
   */
  method Mode(data: seq<real>) returns (mode: real)
    ensures |data| == 0 ==> mode == 0.0
    ensures |data| > 0 ==> mode in data
    ensures forall k :: 0 <= k < |data| ==> multiset(data)[data[k]] <= multiset(data)[mode]
  {
    if |data| == 0 {
      return 0.0;
    }
    var freq: map<real, nat> := map[];
    var i := 0;
    while i < |data|
      invariant 0 <= i <= |data|
      invariant forall v :: v in freq <==> v in data[..i]
      invariant forall v :: v in freq ==> freq[v] == multiset(data[..i])[v]
    {
      var v := data[i];
      assert data[..i + 1] == data[..i] + [v];
      freq := freq[v := if v in freq then freq[v] + 1 else 1];
      i := i + 1;
    }
    assert data[..i] == data;
    assert forall v :: v in freq <==> v in data;
    assert forall v :: v in freq ==> freq[v] == multiset(data)[v];
    assert data[0] in data;
    assert data[0] in freq && freq[data[0]] >= 1;
    var maxFreq := 0;
    mode := data[0];
    var keys := freq.Keys;
    while keys != {}
      invariant keys <= freq.Keys
      invariant mode in freq
      invariant maxFreq == 0 || freq[mode] == maxFreq
      invariant forall v :: v in freq && v !in keys ==> freq[v] <= maxFreq
      decreases |keys|
    {
      assert (forall x :: x !in keys) ==> keys == {};
      var v :| v in keys;
      if freq[v] > maxFreq {
        maxFreq := freq[v];
        mode := v;
      }
      keys := keys - {v};
    }
    assert forall v :: v in freq ==> freq[v] <= maxFreq;
    assert freq[mode] == maxFreq;
    forall k | 0 <= k < |data| ensures multiset(data)[data[k]] <= multiset(data)[mode] {
      assert data[k] in data;
    }
  }

  /** `Covariance`: the sum of products of deviations from the two means, over n − 1. */
  method Covariance(x: seq<real>, y: seq<real>) returns (cov: real)
    ensures cov == SampleCovariance(x, y)
  {
    var n := |x|;
    if n != |y| || n < 2 {
      return 0.0;
    }
    var meanX := Mean(x);
    var meanY := Mean(y);
    var sum := 0.0;
    var i := 0;
    while i < n
      invariant 0 <= i <= n
      invariant sum == DeviationProducts(x[..i], y[..i], meanX, meanY)
    {
      DeviationProductsStep(x, y, meanX, meanY, i);
      sum := sum + (x[i] - meanX) * (y[i] - meanY);
      i := i + 1;
    }
    assert x[..i] == x && y[..i] == y;
    cov := sum / (n - 1) as real;
  }

  /** The accumulator loop of `Skewness` and `Kurtosis`: Σ ((v − mean)/sd)^k. */
  method PowerSum(data: seq<real>, mean: real, sd: real, k: nat) returns (sum: real)
    requires sd != 0.0
    ensures sum == StandardisedPowers(data, mean, sd, k)
  {
    sum := 0.0;
    var i := 0;
    while i < |data|
      invariant 0 <= i <= |data|
      invariant sum == StandardisedPowers(data[..i], mean, sd, k)
    {
      PowersStep(data, mean, sd, k, i);
      sum := sum + Pow((data[i] - mean) / sd, k);
      i := i + 1;
    }
    assert data[..i] == data;
  }

  /** `Skewness`, guards first, then the standardised cubes. */
  method Skewness(m: Math, data: seq<real>) returns (skew: real)
    requires Sound(m)
    ensures skew == Skew(m, data)
    ensures |data| < 3 || AllEqual(data) ==> skew == 0.0
  {
    SkewGuards(m, data);
    var n := |data|;
    if n < 3 {
      return 0.0;
    }
    var mean := Mean(data);
    var variance := Variance(data);
    var sd := m.sqrt(variance);
    if sd == 0.0 {
      return 0.0;
    }
    var sum := PowerSum(data, mean, sd, 3);
    SkewValue(m, data, sum);
    skew := SkewFactor(n) * sum;
  }

  /** `Kurtosis`, guards first, then the standardised fourth powers. */
  method Kurtosis(m: Math, data: seq<real>) returns (kurt: real)
    requires Sound(m)
    ensures kurt == Kurt(m, data)
    ensures |data| < 4 || AllEqual(data) ==> kurt == 0.0
  {
    KurtGuards(m, data);
    var n := |data|;
    if n < 4 {
      return 0.0;
    }
    var mean := Mean(data);
    var variance := Variance(data);
    var sd := m.sqrt(variance);
    if sd == 0.0 {
      return 0.0;
    }
    var sum := PowerSum(data, mean, sd, 4);
    KurtValue(m, data, sum);
    kurt := KurtFactor(n) * sum - KurtCorrection(n);
  }

  /** The last step of `Skewness`: the factor times the summed cubes. */
  lemma {:induction false} SkewValue(m: Math, data: seq<real>, sum: real)
    requires Sound(m) && |data| >= 3 && StdDev(m, data) != 0.0
    requires sum == StandardisedPowers(data, Average(data), StdDev(m, data), 3)
    ensures Skew(m, data) == SkewFactor(|data|) * sum
  {
  }

  /** The last step of `Kurtosis`: the factor times the summed fourth powers, less the correction. */
  lemma {:induction false} KurtValue(m: Math, data: seq<real>, sum: real)
    requires Sound(m) && |data| >= 4 && StdDev(m, data) != 0.0
    requires sum == StandardisedPowers(data, Average(data), StdDev(m, data), 4)
    ensures Kurt(m, data) == KurtFactor(|data|) * sum - KurtCorrection(|data|)
  {
  }

  // ---------------------------------------------------------------------
  // What the specifications mean.

  /** The mean lies between the least and the greatest element. */
  lemma {:induction false} AverageBetween(s: seq<real>)
    requires |s| > 0
    ensures Least(s) <= Average(s) <= Greatest(s)
  {
    var n := |s| as real;
    var lo, hi := Least(s), Greatest(s);
    SumBetween(s, lo, hi);
    AverageTimes(s);
    ScaleBetween(n, lo, Sum(s), Average(s), hi);
  }

  lemma {:induction false} ScaleBetween(n: real, lo: real, sum: real, a: real, hi: real)
    requires n > 0.0 && n * lo <= sum <= n * hi && n * a == sum
    ensures lo <= a <= hi
  {
  }

  /** A sum of n values within [lo, hi] lies within [n·lo, n·hi]. */
  lemma {:induction false} SumBetween(s: seq<real>, lo: real, hi: real)
    requires forall k :: 0 <= k < |s| ==> lo <= s[k] <= hi
    ensures |s| as real * lo <= Sum(s) <= |s| as real * hi
  {
    if |s| > 0 {
      SumBetween(s[..|s| - 1], lo, hi);
    }
  }

  /**
   * The sample variance is never negative, and it is zero exactly when
   * there are fewer than two values or all values are equal.
   */
  lemma {:induction false} VarianceZero(s: seq<real>)
    ensures SampleVariance(s) >= 0.0
    ensures SampleVariance(s) == 0.0 <==> |s| < 2 || AllEqual(s)
  {
    if |s| >= 2 {
      SpreadZero(s);
    }
  }

  /** The covariance of a sample with itself is its variance. */
  lemma {:induction false} CovarianceSelf(x: seq<real>)
    ensures SampleCovariance(x, x) == SampleVariance(x)
  {
    SquaredDeviationsProducts(x, Average(x));
  }

  /** Covariance does not depend on the order of the two samples. */
  lemma {:induction false} CovarianceSymmetric(x: seq<real>, y: seq<real>)
    ensures SampleCovariance(x, y) == SampleCovariance(y, x)
  {
    if |x| == |y| {
      DeviationProductsSymmetric(x, y, Average(x), Average(y));
    }
  }

  /** The covariance of x with the line a·x + b is a times the variance of x. */
  lemma {:induction false} CovarianceOfLine(x: seq<real>, y: seq<real>, a: real, b: real)
    requires |x| == |y|
    requires forall i :: 0 <= i < |x| ==> y[i] == Scaled(a, x[i]) + b
    ensures SampleCovariance(x, y) == a * SampleVariance(x)
  {
    if |x| >= 2 {
      LineMeans(x, y, a, b);
      forall i | 0 <= i < |x|
        ensures y[i] - Average(y) == Scaled(a, x[i] - Average(x))
      {
        LineOffset(y[i], x[i], Average(y), Average(x), a, b);
      }
      LineDeviations(x, y, Average(x), Average(y), a);
      ScaledQuotient(a, SquaredDeviations(x, Average(x)), (|x| - 1) as real);
    }
  }

  /** The mean of a line's values is the line at the mean. */
  lemma {:induction false} LineMeans(x: seq<real>, y: seq<real>, a: real, b: real)
    requires |x| == |y| > 0
    requires forall i :: 0 <= i < |x| ==> y[i] == Scaled(a, x[i]) + b
    ensures Average(y) == Scaled(a, Average(x)) + b
  {
    SumLine(y, x, a, b);
    AverageTimes(x);
    AverageTimes(y);
    MeanOfLine(|x| as real, Sum(y), Sum(x), Average(y), Average(x), a, b);
  }

  lemma {:induction false} MeanOfLine(n: real, sy: real, sx: real, my: real, mx: real, a: real, b: real)
    requires n > 0.0 && n * my == sy && n * mx == sx && sy == Scaled(a, sx) + Scaled(n, b)
    ensures my == Scaled(a, mx) + b
  {
    assert n * (my - a * mx - b) == 0.0;
  }

  lemma {:induction false} LineOffset(yi: real, xi: real, my: real, mx: real, a: real, b: real)
    requires yi == Scaled(a, xi) + b && my == Scaled(a, mx) + b
    ensures yi - my == Scaled(a, xi - mx)
  {
  }

  lemma {:induction false} ScaledQuotient(a: real, s: real, d: real)
    requires d != 0.0
    ensures Scaled(a, s) / d == a * (s / d)
  {
  }

  /** A sample that varies is perfectly correlated with itself. */
  lemma {:induction false} PearsonSelf(m: Math, x: seq<real>)
    requires Sound(m)
    requires |x| >= 2 && !AllEqual(x)
    ensures Pearson(m, x, x) == 1.0
  {
    CovarianceSelf(x);
    VarianceZero(x);
    var v := SampleVariance(x);
    assert v != 0.0;
    assert v / v == 1.0;
  }

  /** Skewness is 0 for fewer than three values or data without spread. */
  lemma {:induction false} SkewGuards(m: Math, s: seq<real>)
    requires Sound(m)
    ensures |s| < 3 || AllEqual(s) ==> Skew(m, s) == 0.0
  {
  }

  /** Kurtosis is 0 for fewer than four values or data without spread. */
  lemma {:induction false} KurtGuards(m: Math, s: seq<real>)
    requires Sound(m)
    ensures |s| < 4 || AllEqual(s) ==> Kurt(m, s) == 0.0
  {
  }

  /** The middle of a sorted sequence lies between its ends. */
  lemma {:induction false} MiddleBetween(t: seq<real>)
    requires Sorted(t) && |t| > 0
    ensures t[0] <= Middle(t) <= t[|t| - 1]
  {
  }

  /** The median depends only on the values, not on their order. */
  lemma {:induction false} MedianPermutation(s: seq<real>, t: seq<real>)
    requires multiset(s) == multiset(t)
    ensures Median(s) == Median(t)
  {
    SortPermutation(s, t);
    assert |s| == |multiset(s)| == |multiset(t)| == |t|;
  }

  /** The median of an already sorted sample is its middle. */
  lemma {:induction false} MedianSorted(t: seq<real>)
    requires Sorted(t) && |t| > 0
    ensures Median(t) == Middle(t)
  {
    SortSorted(t);
  }

  /** The median of a slice of a sorted sequence lies between the slice's ends. */
  lemma {:induction false} MedianOfSlice(t: seq<real>, lo: nat, hi: nat)
    requires Sorted(t) && lo < hi <= |t|
    ensures t[lo] <= Median(t[lo..hi]) <= t[hi - 1]
  {
    SortedSlice(t, lo, hi);
    MedianSorted(t[lo..hi]);
    MiddleBetween(t[lo..hi]);
  }

  /** The second quartile read off a sorted copy is its middle. */
  lemma {:induction false} SortedSecondQuartile(t: seq<real>)
    requires Sorted(t) && |t| > 0
    ensures SortedQuartiles(t).1 == Middle(t)
  {
    if |t| >= 3 {
      MedianSorted(t);
    }
  }

  lemma {:induction false} SortedQuartilesOrdered(t: seq<real>)
    requires Sorted(t) && |t| > 0
    ensures SortedQuartiles(t).0 <= SortedQuartiles(t).1 <= SortedQuartiles(t).2
  {
    var n := |t|;
    if n >= 3 {
      var mid := n / 2;
      var hi := if n % 2 == 0 then mid else mid + 1;
      MedianAroundMiddle(t);
      MedianOfPrefix(t, mid);
      MedianOfSuffix(t, hi);
    }
  }

  /** The median of a sorted sequence of three or more lies between its two middle neighbours. */
  lemma {:induction false} MedianAroundMiddle(t: seq<real>)
    requires Sorted(t) && |t| >= 3
    ensures t[|t| / 2 - 1] <= Median(t) <= t[if |t| % 2 == 0 then |t| / 2 else |t| / 2 + 1]
  {
    MedianSorted(t);
  }

  lemma {:induction false} MedianOfPrefix(t: seq<real>, mid: nat)
    requires Sorted(t) && 0 < mid <= |t|
    ensures Median(t[..mid]) <= t[mid - 1]
  {
    MedianOfSlice(t, 0, mid);
    assert t[0..mid] == t[..mid];
  }

  lemma {:induction false} MedianOfSuffix(t: seq<real>, lo: nat)
    requires Sorted(t) && lo < |t|
    ensures t[lo] <= Median(t[lo..])
  {
    MedianOfSlice(t, lo, |t|);
    assert t[lo..|t|] == t[lo..];
  }

  /** The quartiles depend only on the values, not on their order. */
  lemma {:induction false} QuartilesPermutation(s: seq<real>, t: seq<real>)
    requires multiset(s) == multiset(t)
    ensures Quartiles(s) == Quartiles(t)
  {
    SortPermutation(s, t);
    assert |s| == |multiset(s)| == |multiset(t)| == |t|;
  }

  /** One value is every quartile. */
  lemma {:induction false} QuartilesOne(s: seq<real>)
    requires |s| == 1
    ensures Quartiles(s) == (s[0], s[0], s[0])
  {
    SortSorted(s);
  }

  /** Two values give the lower one, their mean and the higher one. */
  lemma {:induction false} QuartilesTwo(s: seq<real>)
    requires |s| == 2
    ensures s[0] <= s[1] ==> Quartiles(s) == (s[0], (s[0] + s[1]) / 2.0, s[1])
    ensures s[1] < s[0] ==> Quartiles(s) == (s[1], (s[0] + s[1]) / 2.0, s[0])
  {
    if s[0] <= s[1] {
      SortSorted(s);
      SortedPair(s, s[0], s[1]);
    } else {
      var r := [s[1], s[0]];
      assert multiset(r) == multiset(s) by {
        assert s == [s[0]] + [s[1]];
        assert r == [s[1]] + [s[0]];
      }
      SortedUnique(Sort(s), r);
      SortedPair(s, s[1], s[0]);
    }
  }

  lemma {:induction false} SortedPair(s: seq<real>, a: real, b: real)
    requires |s| == 2 && Sort(s) == [a, b]
    ensures Quartiles(s) == (a, (a + b) / 2.0, b)
  {
    var sorted := [a, b];
    assert Quartiles(s) == SortedQuartiles(sorted);
    assert sorted[0] == a && sorted[1] == b;
  }

  // ---------------------------------------------------------------------
  // One more loop iteration.

  lemma {:induction false} SquaredDeviationsStep(s: seq<real>, c: real, i: nat)
    requires i < |s|
    ensures SquaredDeviations(s[..i + 1], c) == SquaredDeviations(s[..i], c) + Sq(s[i] - c)
  {
    assert s[..i + 1][..i] == s[..i];
  }

  lemma {:induction false} DeviationProductsStep(x: seq<real>, y: seq<real>, a: real, b: real, i: nat)
    requires |x| == |y| && i < |x|
    ensures DeviationProducts(x[..i + 1], y[..i + 1], a, b)
         == DeviationProducts(x[..i], y[..i], a, b) + (x[i] - a) * (y[i] - b)
  {
    assert x[..i + 1][..i] == x[..i] && y[..i + 1][..i] == y[..i];
  }

  lemma {:induction false} PowersStep(s: seq<real>, mean: real, sd: real, k: nat, i: nat)
    requires sd != 0.0 && i < |s|
    ensures StandardisedPowers(s[..i + 1], mean, sd, k)
         == StandardisedPowers(s[..i], mean, sd, k) + Pow((s[i] - mean) / sd, k)
  {
    assert s[..i + 1][..i] == s[..i];
  }

  lemma {:induction false} LeastStep(s: seq<real>, i: nat)
    requires 0 < i < |s|
    ensures Least(s[..i + 1]) == if s[i] < Least(s[..i]) then s[i] else Least(s[..i])
  {
    assert s[..i + 1][..i] == s[..i];
  }

  lemma {:induction false} GreatestStep(s: seq<real>, i: nat)
    requires 0 < i < |s|
    ensures Greatest(s[..i + 1]) == if s[i] > Greatest(s[..i]) then s[i] else Greatest(s[..i])
  {
    assert s[..i + 1][..i] == s[..i];
  }

  // ---------------------------------------------------------------------
  // Values from the package's tests.

  /** The covariance of x = 1..5 with y = 2x is 5. */
  lemma {:induction false} FixtureCovariance()
    ensures SampleCovariance([1.0, 2.0, 3.0, 4.0, 5.0], [2.0, 4.0, 6.0, 8.0, 10.0]) == 5.0
  {
    var x := [1.0, 2.0, 3.0, 4.0, 5.0];
    var y := [2.0, 4.0, 6.0, 8.0, 10.0];
    CovarianceOfLine(x, y, 2.0, 0.0);
    Sum5(x);
    assert Average(x) == 3.0;
    SquaredDeviations5(x, 3.0);
  }

  lemma {:induction false} SquaredDeviations5(s: seq<real>, c: real)
    requires |s| == 5
    ensures SquaredDeviations(s, c) == Sq(s[0] - c) + Sq(s[1] - c) + Sq(s[2] - c) + Sq(s[3] - c) + Sq(s[4] - c)
  {
    SquaredDeviationsStep(s, c, 0);
    SquaredDeviationsStep(s, c, 1);
    SquaredDeviationsStep(s, c, 2);
    SquaredDeviationsStep(s, c, 3);
    SquaredDeviationsStep(s, c, 4);
    assert s[..5] == s;
  }
}
