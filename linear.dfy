/**
 * Simple linear regression y = m·x + b by the closed-form least-squares
 * formulas, with the guard branches of the source that return zero, and
 * the error metrics that go with it: mean squared error and R².
 *
 * The functions are the specification; the methods are the accumulator
 * loops of the source, each proved equal to its function. The lemmas say
 * what the formulas mean: the slope denominator is n times the spread of
 * x (so it is zero exactly when every x is equal), the slope is the ratio
 * of co-spread to spread, an exact line is recovered exactly, and the
 * fitted line passes through the point of means.
 */
module LinearRegression {
  import opened Sums
  import Numerics

  /** The inputs the source accepts: two samples of the same, non-zero length. */
  predicate Valid(x: seq<real>, y: seq<real>)
  {
    |x| == |y| && |x| > 0
  }

  /**
   * n·p − a·b on the accumulated sums. The formulas below are written
   * through it so that products of sums stay out of their definitions.
   */
  function Cross(n: real, p: real, a: real, b: real): real
  {
    n * p - a * b
  }

  /** n·Σx² − (Σx)², the denominator of the slope formula. */
  function Denominator(x: seq<real>): real
  {
    Cross(|x| as real, Dot(x, x), Sum(x), Sum(x))
  }

  /** n·Σxy − Σx·Σy, the numerator of the slope formula. */
  function Numerator(x: seq<real>, y: seq<real>): real
    requires |x| == |y|
  {
    Cross(|x| as real, Dot(x, y), Sum(x), Sum(y))
  }

  /** (Σy − m·Σx)/n on the accumulated sums. */
  function InterceptFrom(n: real, sx: real, sy: real, m: real): real
    requires n != 0.0
  {
    (sy - m * sx) / n
  }

  /** `CalculateSlope`: the least-squares slope, 0 on invalid input or a zero denominator. */
  function Slope(x: seq<real>, y: seq<real>): real
  {
    if !Valid(x, y) || Denominator(x) == 0.0 then 0.0 else Numerator(x, y) / Denominator(x)
  }

  /** `CalculateIntercept`: (Σy − m·Σx)/n, 0 on invalid input. */
  function Intercept(x: seq<real>, y: seq<real>, m: real): real
  {
    if !Valid(x, y) then 0.0 else InterceptFrom(|x| as real, Sum(x), Sum(y), m)
  }

  /**
   * `PredictY`: the value of the line m·x + b at x. The intercept b is the
   * value at 0, and a line that is not flat gives back x from its value.
   */
  function PredictY(x: real, m: real, b: real): (r: real)
    ensures x == 0.0 ==> r == b
    ensures m != 0.0 ==> (r - b) / m == x
  {
    m * x + b
  }

  /** The line evaluated at every x. */
  function Predictions(x: seq<real>, m: real, b: real): (p: seq<real>)
    ensures |p| == |x|
    ensures forall i :: 0 <= i < |x| ==> p[i] == PredictY(x[i], m, b)
  {
    seq(|x|, i requires 0 <= i < |x| => PredictY(x[i], m, b))
  }

  /**
   * `SimpleLinearRegression`: (slope, intercept), and (0, 0) on invalid
   * input or when the slope is 0 because the denominator is.
   */
  function Fit(x: seq<real>, y: seq<real>): (line: (real, real))
    ensures !Valid(x, y) ==> line == (0.0, 0.0)
  {
    if !Valid(x, y) then (0.0, 0.0)
    else
      var m := Slope(x, y);
      if m == 0.0 && Denominator(x) == 0.0 then (0.0, 0.0) else (m, Intercept(x, y, m))
  }

  /** `MeanSquaredError`: Σ(yTrue − yPred)²/n, 0 on invalid input. */
  function MSE(yTrue: seq<real>, yPred: seq<real>): real
  {
    if !Valid(yTrue, yPred) then 0.0
    else Dot(Diff(yTrue, yPred), Diff(yTrue, yPred)) / |yTrue| as real
  }

  /** `EvaluateLinearRegression`: the MSE of the fitted line on its own data. */
  function Evaluate(x: seq<real>, y: seq<real>): real
  {
    MSE(y, Predictions(x, Fit(x, y).0, Fit(x, y).1))
  }

  /** The residuals y − (m·x + b). */
  function Residuals(x: seq<real>, y: seq<real>, m: real, b: real): (r: seq<real>)
    requires |x| == |y|
    ensures |r| == |y|
  {
    Diff(y, Predictions(x, m, b))
  }

  /** `RSquared`: 1 − SSres/SStot, 0 on invalid input or when y has no spread. */
  function Determination(x: seq<real>, y: seq<real>, m: real, b: real): real
  {
    if !Valid(x, y) then 0.0
    else
      var ssTotal := SquaredDeviations(y, Average(y));
      if ssTotal == 0.0 then 0.0
      else 1.0 - Dot(Residuals(x, y, m, b), Residuals(x, y, m, b)) / ssTotal
  }

  // ---------------------------------------------------------------------
  // What the formulas mean.

  /** Around any centre a with n·a = Σx, the spread is Σx² − n·a². */
  lemma {:induction false} SpreadAround(x: seq<real>, a: real)
    requires |x| as real * a == Sum(x)
    ensures SquaredDeviations(x, a) == Dot(x, x) - |x| as real * a * a
  {
    SquaredDeviationsProducts(x, a);
    DeviationProductsExpand(x, x, a, a);
  }

  /** nΣx² − (Σx)² = n·Σ(x − a)² for the centre a with n·a = Σx. */
  lemma {:induction false} DenominatorAround(x: seq<real>, a: real)
    requires |x| as real * a == Sum(x)
    ensures Denominator(x) == Scaled(|x| as real, SquaredDeviations(x, a))
  {
    SpreadAround(x, a);
    DenominatorOfSpread(x, a, SquaredDeviations(x, a));
  }

  lemma {:induction false} DenominatorOfSpread(x: seq<real>, a: real, s: real)
    requires |x| as real * a == Sum(x) && s == Dot(x, x) - |x| as real * a * a
    ensures Denominator(x) == Scaled(|x| as real, s)
  {
    CrossOfSpread(|x| as real, Dot(x, x), Sum(x), a, s);
  }

  lemma {:induction false} CrossOfSpread(n: real, xx: real, sx: real, a: real, s: real)
    requires n * a == sx && s == xx - n * a * a
    ensures Cross(n, xx, sx, sx) == Scaled(n, s)
  {
    assert n * s == n * xx - (n * a) * (n * a);
  }

  /** nΣx² − (Σx)² = n·Σ(x − x̄)²: the denominator is n times the spread of x. */
  lemma {:induction false} DenominatorSpread(x: seq<real>)
    ensures Denominator(x) == Scaled(|x| as real, SquaredDeviations(x, Average(x)))
  {
    AverageTimes(x);
    DenominatorAround(x, Average(x));
  }

  /** nΣxy − Σx·Σy = n·Σ(x − a)(y − b) for any a and the centre b with n·b = Σy. */
  lemma {:induction false} NumeratorAround(x: seq<real>, y: seq<real>, a: real, b: real)
    requires |x| == |y|
    requires |x| as real * b == Sum(y)
    ensures Numerator(x, y) == Scaled(|x| as real, DeviationProducts(x, y, a, b))
  {
    DeviationProductsMean(x, y, a, b);
    NumeratorOfProducts(x, y, b, DeviationProducts(x, y, a, b));
  }

  lemma {:induction false} NumeratorOfProducts(x: seq<real>, y: seq<real>, b: real, p: real)
    requires |x| == |y|
    requires |x| as real * b == Sum(y) && p == Dot(x, y) - Scaled(b, Sum(x))
    ensures Numerator(x, y) == Scaled(|x| as real, p)
  {
    CrossOfProducts(|x| as real, Dot(x, y), Sum(x), Sum(y), b, p);
  }

  lemma {:induction false} CrossOfProducts(n: real, xy: real, sx: real, sy: real, b: real, p: real)
    requires n * b == sy && p == xy - Scaled(b, sx)
    ensures Cross(n, xy, sx, sy) == Scaled(n, p)
  {
    assert n * p == n * xy - (n * b) * sx;
  }

  /** n·Σxy − Σx·Σy = n·Σ(x − x̄)(y − ȳ). */
  lemma {:induction false} NumeratorCoSpread(x: seq<real>, y: seq<real>)
    requires |x| == |y|
    ensures Numerator(x, y) == Scaled(|x| as real, DeviationProducts(x, y, Average(x), Average(y)))
  {
    AverageTimes(x);
    AverageTimes(y);
    NumeratorAround(x, y, Average(x), Average(y));
  }

  /**
   * `isZeroDenominator` holds exactly when all x are equal (for non-empty
   * x), and the denominator is never negative.
   */
  lemma {:induction false} DenominatorZero(x: seq<real>)
    requires |x| > 0
    ensures Denominator(x) >= 0.0
    ensures Denominator(x) == 0.0 <==> AllEqual(x)
  {
    DenominatorSpread(x);
    SpreadZero(x);
  }

  /** The slope is the ratio of the co-spread of x and y to the spread of x. */
  lemma {:induction false} SlopeCentred(x: seq<real>, y: seq<real>)
    requires Valid(x, y) && !AllEqual(x)
    ensures SquaredDeviations(x, Average(x)) > 0.0
    ensures Slope(x, y) == DeviationProducts(x, y, Average(x), Average(y)) / SquaredDeviations(x, Average(x))
  {
    SpreadZero(x);
    assert SquaredDeviations(x, Average(x)) > 0.0;
    AverageTimes(x);
    AverageTimes(y);
    SlopeAround(x, y, Average(x), Average(y));
  }

  /** `SlopeCentred` around any centres a and b with n·a = Σx and n·b = Σy. */
  lemma {:induction false} SlopeAround(x: seq<real>, y: seq<real>, a: real, b: real)
    requires Valid(x, y) && SquaredDeviations(x, a) > 0.0
    requires |x| as real * a == Sum(x) && |x| as real * b == Sum(y)
    ensures Slope(x, y) == DeviationProducts(x, y, a, b) / SquaredDeviations(x, a)
  {
    DenominatorAround(x, a);
    NumeratorAround(x, y, a, b);
    SlopeOfSpreads(x, y, DeviationProducts(x, y, a, b), SquaredDeviations(x, a));
  }

  lemma {:induction false} SlopeOfSpreads(x: seq<real>, y: seq<real>, p: real, s: real)
    requires Valid(x, y) && s > 0.0
    requires Numerator(x, y) == Scaled(|x| as real, p) && Denominator(x) == Scaled(|x| as real, s)
    ensures Slope(x, y) == p / s
  {
    CommonFactor(|x| as real, p, s);
  }

  /** A factor common to numerator and denominator cancels. */
  lemma {:induction false} CommonFactor(n: real, p: real, s: real)
    requires n != 0.0 && s != 0.0
    ensures (n * p) / (n * s) == p / s
  {
  }

  /** With all x equal the fit is (0, 0), whatever y is. */
  lemma {:induction false} ConstantX(x: seq<real>, y: seq<real>)
    requires Valid(x, y) && AllEqual(x)
    ensures Fit(x, y) == (0.0, 0.0)
  {
    DenominatorZero(x);
  }

  /** When x varies the fitted line passes through the point of means (x̄, ȳ). */
  lemma {:induction false} FitThroughMeans(x: seq<real>, y: seq<real>)
    requires Valid(x, y) && !AllEqual(x)
    ensures PredictY(Average(x), Fit(x, y).0, Fit(x, y).1) == Average(y)
  {
    DenominatorZero(x);
    var m := Slope(x, y);
    var n := |x| as real;
    var sx, sy := Sum(x), Sum(y);
    assert Fit(x, y) == (m, InterceptFrom(n, sx, sy, m));
    assert Average(x) == sx / n && Average(y) == sy / n;
    assert (sy - m * sx) / n == sy / n - m * (sx / n);
  }

  /**
   * A zero slope over varying x is not the degenerate case: the intercept
   * is still computed, and it is the mean of y.
   */
  lemma {:induction false} FlatFit(x: seq<real>, y: seq<real>)
    requires Valid(x, y) && !AllEqual(x) && Slope(x, y) == 0.0
    ensures Fit(x, y) == (0.0, Average(y))
  {
    DenominatorZero(x);
    var n := |x| as real;
    assert Intercept(x, y, 0.0) == (Sum(y) - 0.0 * Sum(x)) / n;
  }

  /** The sum of points on a line is m·Σx + n·b. */
  lemma {:induction false} LineSum(x: seq<real>, y: seq<real>, m: real, b: real)
    requires |x| == |y|
    requires forall i :: 0 <= i < |x| ==> y[i] == m * x[i] + b
    ensures Sum(y) == m * Sum(x) + |x| as real * b
  {
    SumLine(y, x, m, b);
  }

  /** For points on a line y = m·x + b, Σxy = m·Σx² + b·Σx. */
  lemma {:induction false} LineDot(x: seq<real>, y: seq<real>, m: real, b: real)
    requires |x| == |y|
    requires forall i :: 0 <= i < |x| ==> y[i] == Scaled(m, x[i]) + b
    ensures Dot(x, y) == m * Dot(x, x) + b * Sum(x)
  {
    if |x| > 0 {
      LineDot(x[..|x| - 1], y[..|x| - 1], m, b);
      LineDotLast(x, y, m, b);
    }
  }

  /** The induction step of `LineDot`: one more point on the line. */
  lemma {:induction false} LineDotLast(x: seq<real>, y: seq<real>, m: real, b: real)
    requires |x| == |y| > 0
    requires y[|x| - 1] == Scaled(m, x[|x| - 1]) + b
    requires Dot(x[..|x| - 1], y[..|x| - 1]) == m * Dot(x[..|x| - 1], x[..|x| - 1]) + b * Sum(x[..|x| - 1])
    ensures Dot(x, y) == m * Dot(x, x) + b * Sum(x)
  {
    DotLast(x, y);
    DotLast(x, x);
    SumLast(x);
    LineDotStep(Dot(x, y), Dot(x[..|x| - 1], y[..|x| - 1]), Dot(x, x), Dot(x[..|x| - 1], x[..|x| - 1]),
      Sum(x), Sum(x[..|x| - 1]), x[|x| - 1], y[|x| - 1], m, b);
  }

  lemma {:induction false} LineDotStep(xy: real, xy0: real, xx: real, xx0: real, sx: real, sx0: real,
                                       u: real, v: real, m: real, b: real)
    requires xy == xy0 + u * v && xx == xx0 + u * u && sx == sx0 + u
    requires xy0 == m * xx0 + b * sx0 && v == Scaled(m, u) + b
    ensures xy == m * xx + b * sx
  {
    assert u * v == m * (u * u) + b * u;
  }

  /** The slope numerator of a line's sums: n(m·Σx² + b·Σx) − Σx(m·Σx + n·b) = m(nΣx² − (Σx)²). */
  lemma {:induction false} CrossLine(n: real, xx: real, sx: real, m: real, b: real)
    ensures Cross(n, m * xx + b * sx, sx, m * sx + n * b) == m * Cross(n, xx, sx, sx)
  {
  }

  /** For points on a line y = m·x + b, the slope numerator is m times the denominator. */
  lemma {:induction false} ExactNumerator(x: seq<real>, y: seq<real>, m: real, b: real)
    requires |x| == |y|
    requires forall i :: 0 <= i < |x| ==> y[i] == m * x[i] + b
    ensures Numerator(x, y) == m * Denominator(x)
  {
    LineDot(x, y, m, b);
    LineSum(x, y, m, b);
    NumeratorOfSums(x, y, m, b);
  }

  lemma {:induction false} NumeratorOfSums(x: seq<real>, y: seq<real>, m: real, b: real)
    requires |x| == |y|
    requires Dot(x, y) == m * Dot(x, x) + b * Sum(x)
    requires Sum(y) == m * Sum(x) + |x| as real * b
    ensures Numerator(x, y) == m * Denominator(x)
  {
    CrossOfLine(|x| as real, Dot(x, y), Dot(x, x), Sum(x), Sum(y), m, b);
  }


  lemma {:induction false} CrossOfLine(n: real, xy: real, xx: real, sx: real, sy: real, m: real, b: real)
    requires xy == m * xx + b * sx && sy == m * sx + n * b
    ensures Cross(n, xy, sx, sy) == m * Cross(n, xx, sx, sx)
  {
    CrossLine(n, xx, sx, m, b);
  }

  /** Points exactly on a line y = m·x + b (with x not constant) have slope m. */
  lemma {:induction false} ExactSlope(x: seq<real>, y: seq<real>, m: real, b: real)
    requires Valid(x, y) && !AllEqual(x)
    requires forall i :: 0 <= i < |x| ==> y[i] == m * x[i] + b
    ensures Slope(x, y) == m
  {
    DenominatorZero(x);
    ExactNumerator(x, y, m, b);
    FactorCancels(m, Denominator(x));
  }

  /** m·d/d = m for d ≠ 0. */
  lemma {:induction false} FactorCancels(m: real, d: real)
    requires d != 0.0
    ensures (m * d) / d == m
  {
  }

  /** Points exactly on a line y = m·x + b have intercept b once the slope is m. */
  lemma {:induction false} ExactIntercept(x: seq<real>, y: seq<real>, m: real, b: real)
    requires Valid(x, y)
    requires forall i :: 0 <= i < |x| ==> y[i] == m * x[i] + b
    ensures Intercept(x, y, m) == b
  {
    var n := |x| as real;
    LineSum(x, y, m, b);
    assert Sum(y) - m * Sum(x) == n * b;
    assert (n * b) / n == b;
  }

  /** Points exactly on a line y = m·x + b (with x not constant) are fitted by that very line. */
  lemma {:induction false} ExactLine(x: seq<real>, y: seq<real>, m: real, b: real)
    requires Valid(x, y) && !AllEqual(x)
    requires forall i :: 0 <= i < |x| ==> y[i] == m * x[i] + b
    ensures Fit(x, y) == (m, b)
  {
    DenominatorZero(x);
    ExactSlope(x, y, m, b);
    ExactIntercept(x, y, m, b);
  }

  /** The mean squared error is never negative, and zero exactly when the predictions are exact. */
  lemma {:induction false} MSEZero(yTrue: seq<real>, yPred: seq<real>)
    ensures MSE(yTrue, yPred) >= 0.0
    ensures Valid(yTrue, yPred) ==> (MSE(yTrue, yPred) == 0.0 <==> yTrue == yPred)
  {
    if Valid(yTrue, yPred) {
      var d := Diff(yTrue, yPred);
      DotSelfNonNegative(d);
      if Dot(d, d) == 0.0 {
        DotSelfZero(d);
        assert yTrue == yPred;
      }
      if yTrue == yPred {
        DotZero(d, d);
      }
    }
  }

  /** `RootMeanSquaredError`: the square root of the mean squared error, 0 on invalid input. */
  function RMSE(m: Numerics.Math, yTrue: seq<real>, yPred: seq<real>): real
  {
    if !Valid(yTrue, yPred) then 0.0 else m.sqrt(MSE(yTrue, yPred))
  }

  /**
   * The root mean squared error is never negative, its square is the mean
   * squared error, and it is zero exactly when the predictions are exact.
   */
  lemma {:induction false} RMSEZero(m: Numerics.Math, yTrue: seq<real>, yPred: seq<real>)
    requires Numerics.Sound(m)
    ensures RMSE(m, yTrue, yPred) >= 0.0
    ensures RMSE(m, yTrue, yPred) * RMSE(m, yTrue, yPred) == MSE(yTrue, yPred)
    ensures Valid(yTrue, yPred) ==> (RMSE(m, yTrue, yPred) == 0.0 <==> yTrue == yPred)
  {
    MSEZero(yTrue, yPred);
    if Valid(yTrue, yPred) && yTrue == yPred {
      Numerics.SqrtZero(m);
    }
  }

  /** Points on a line (with x not constant) are fitted with zero error. */
  lemma {:induction false} ExactLineEvaluate(x: seq<real>, y: seq<real>, m: real, b: real)
    requires Valid(x, y) && !AllEqual(x)
    requires forall i :: 0 <= i < |x| ==> y[i] == m * x[i] + b
    ensures Evaluate(x, y) == 0.0
  {
    ExactLine(x, y, m, b);
    OnLine(x, y, m, b);
    MSEZero(y, y);
  }

  /** Points on a line are their own predictions. */
  lemma {:induction false} OnLine(x: seq<real>, y: seq<real>, m: real, b: real)
    requires |x| == |y|
    requires forall i :: 0 <= i < |x| ==> y[i] == m * x[i] + b
    ensures Predictions(x, m, b) == y
  {
  }

  /**
   * R² never exceeds 1; it is 0 when y has no spread, and 1 exactly when
   * the line passes through every point.
   */
  lemma {:induction false} DeterminationBounds(x: seq<real>, y: seq<real>, m: real, b: real)
    requires Valid(x, y)
    ensures Determination(x, y, m, b) <= 1.0
    ensures AllEqual(y) ==> Determination(x, y, m, b) == 0.0
    ensures !AllEqual(y) ==> (Determination(x, y, m, b) == 1.0 <==> Predictions(x, m, b) == y)
  {
    SpreadZero(y);
    var r := Residuals(x, y, m, b);
    DotSelfNonNegative(r);
    if !AllEqual(y) {
      var ss := SquaredDeviations(y, Average(y));
      assert ss > 0.0;
      if Dot(r, r) == 0.0 {
        DotSelfZero(r);
        assert Predictions(x, m, b) == y;
      }
      if Predictions(x, m, b) == y {
        DotZero(r, r);
      }
      RatioBound(Dot(r, r), ss);
    }
  }

  lemma {:induction false} RatioBound(res: real, tot: real)
    requires res >= 0.0 && tot > 0.0
    ensures 1.0 - res / tot <= 1.0
    ensures 1.0 - res / tot == 1.0 <==> res == 0.0
  {
  }

  // ---------------------------------------------------------------------
  // The accumulator loops of the source.

  /** The accumulator loop of `CalculateSlope`: Σx, Σy, Σxy and Σx² in one pass. */
  method SlopeSums(x: seq<real>, y: seq<real>) returns (sumX: real, sumY: real, sumXY: real, sumX2: real)
    requires |x| == |y|
    ensures sumX == Sum(x) && sumY == Sum(y)
    ensures sumXY == Dot(x, y) && sumX2 == Dot(x, x)
  {
    sumX, sumY, sumXY, sumX2 := 0.0, 0.0, 0.0, 0.0;
    var i := 0;
    while i < |x|
      invariant 0 <= i <= |x|
      invariant sumX == Sum(x[..i]) && sumY == Sum(y[..i])
      invariant sumXY == Dot(x[..i], y[..i]) && sumX2 == Dot(x[..i], x[..i])
    {
      SumStep(x, i);
      SumStep(y, i);
      DotStep(x, y, i);
      DotStep(x, x, i);
      sumX := sumX + x[i];
      sumY := sumY + y[i];
      sumXY := sumXY + x[i] * y[i];
      sumX2 := sumX2 + x[i] * x[i];
      i := i + 1;
    }
    assert x[..|x|] == x && y[..|y|] == y;
  }

  /** `CalculateSlope`. */
  method CalculateSlope(x: seq<real>, y: seq<real>) returns (slope: real)
    ensures slope == Slope(x, y)
  {
    if |x| != |y| || |x| == 0 {
      return 0.0;
    }
    var n := |x| as real;
    var sumX, sumY, sumXY, sumX2 := SlopeSums(x, y);
    var denominator := Cross(n, sumX2, sumX, sumX);
    if denominator == 0.0 {
      return 0.0;
    }
    slope := Cross(n, sumXY, sumX, sumY) / denominator;
  }

  /** `CalculateIntercept`. */
  method CalculateIntercept(x: seq<real>, y: seq<real>, slope: real) returns (intercept: real)
    ensures intercept == Intercept(x, y, slope)
  {
    if |x| != |y| || |x| == 0 {
      return 0.0;
    }
    var sumX, sumY := 0.0, 0.0;
    var i := 0;
    while i < |x|
      invariant 0 <= i <= |x|
      invariant sumX == Sum(x[..i]) && sumY == Sum(y[..i])
    {
      SumStep(x, i);
      SumStep(y, i);
      sumX := sumX + x[i];
      sumY := sumY + y[i];
      i := i + 1;
    }
    assert x[..|x|] == x && y[..|y|] == y;
    var n := |x| as real;
    intercept := (sumY - slope * sumX) / n;
  }

  /** `isZeroDenominator`. */
  method IsZeroDenominator(x: seq<real>) returns (zero: bool)
    ensures zero <==> Denominator(x) == 0.0
  {
    var n := |x| as real;
    var sumX, sumX2 := 0.0, 0.0;
    var i := 0;
    while i < |x|
      invariant 0 <= i <= |x|
      invariant sumX == Sum(x[..i]) && sumX2 == Dot(x[..i], x[..i])
    {
      SumStep(x, i);
      DotStep(x, x, i);
      sumX := sumX + x[i];
      sumX2 := sumX2 + x[i] * x[i];
      i := i + 1;
    }
    assert x[..|x|] == x;
    zero := n * sumX2 - sumX * sumX == 0.0;
  }

  /** `SimpleLinearRegression`. */
  method SimpleLinearRegression(x: seq<real>, y: seq<real>) returns (slope: real, intercept: real)
    ensures (slope, intercept) == Fit(x, y)
  {
    if |x| != |y| || |x| == 0 {
      return 0.0, 0.0;
    }
    slope := CalculateSlope(x, y);
    var zero := IsZeroDenominator(x);
    if slope == 0.0 && zero {
      return 0.0, 0.0;
    }
    intercept := CalculateIntercept(x, y, slope);
  }

  /** `MeanSquaredError`. */
  method MeanSquaredError(yTrue: seq<real>, yPred: seq<real>) returns (mse: real)
    ensures mse == MSE(yTrue, yPred)
  {
    if |yTrue| != |yPred| || |yTrue| == 0 {
      return 0.0;
    }
    ghost var d := Diff(yTrue, yPred);
    var sum := 0.0;
    var i := 0;
    while i < |yTrue|
      invariant 0 <= i <= |yTrue|
      invariant sum == Dot(d[..i], d[..i])
    {
      DotStep(d, d, i);
      var diff := yTrue[i] - yPred[i];
      sum := sum + diff * diff;
      i := i + 1;
    }
    assert d[..|d|] == d;
    mse := sum / |yTrue| as real;
  }

  /** `RootMeanSquaredError`: the guard, then the square root of `MeanSquaredError`. */
  method RootMeanSquaredError(m: Numerics.Math, yTrue: seq<real>, yPred: seq<real>) returns (rmse: real)
    ensures rmse == RMSE(m, yTrue, yPred)
  {
    if |yTrue| != |yPred| || |yTrue| == 0 {
      return 0.0;
    }
    var mse := MeanSquaredError(yTrue, yPred);
    rmse := m.sqrt(mse);
  }

  /** `EvaluateLinearRegression`: fit, fill the predictions, take their MSE. */
  method EvaluateLinearRegression(x: seq<real>, y: seq<real>) returns (mse: real)
    ensures mse == Evaluate(x, y)
  {
    var slope, intercept := SimpleLinearRegression(x, y);
    var yPred := new real[|x|];
    var i := 0;
    while i < |x|
      invariant 0 <= i <= |x|
      invariant yPred[..i] == Predictions(x, slope, intercept)[..i]
    {
      yPred[i] := PredictY(x[i], slope, intercept);
      i := i + 1;
    }
    assert yPred[..] == Predictions(x, slope, intercept);
    mse := MeanSquaredError(y, yPred[..]);
  }

  /** `RSquared`: the mean of y, then the two sums of squares in one loop. */
  method RSquared(x: seq<real>, y: seq<real>, slope: real, intercept: real) returns (r2: real)
    ensures r2 == Determination(x, y, slope, intercept)
  {
    if |x| != |y| || |x| == 0 {
      return 0.0;
    }
    var meanY := 0.0;
    var i := 0;
    while i < |y|
      invariant 0 <= i <= |y|
      invariant meanY == Sum(y[..i])
    {
      SumStep(y, i);
      meanY := meanY + y[i];
      i := i + 1;
    }
    assert y[..|y|] == y;
    meanY := meanY / |y| as real;
    var ssTotal, ssResidual := SumsOfSquares(x, y, slope, intercept, meanY);
    if ssTotal == 0.0 {
      return 0.0;
    }
    r2 := 1.0 - ssResidual / ssTotal;
  }

  /** The second loop of `RSquared`: residual and total sums of squares. */
  method SumsOfSquares(x: seq<real>, y: seq<real>, slope: real, intercept: real, meanY: real)
    returns (ssTotal: real, ssResidual: real)
    requires |x| == |y|
    ensures ssTotal == SquaredDeviations(y, meanY)
    ensures ssResidual == Dot(Residuals(x, y, slope, intercept), Residuals(x, y, slope, intercept))
  {
    ghost var r := Residuals(x, y, slope, intercept);
    ssTotal, ssResidual := 0.0, 0.0;
    var i := 0;
    while i < |x|
      invariant 0 <= i <= |x|
      invariant ssTotal == SquaredDeviations(y[..i], meanY)
      invariant ssResidual == Dot(r[..i], r[..i])
    {
      var predicted := PredictY(x[i], slope, intercept);
      var d, e := y[i] - predicted, y[i] - meanY;
      SquaresStep(x, y, slope, intercept, meanY, i, d, e);
      ssResidual := ssResidual + d * d;
      ssTotal := ssTotal + e * e;
      i := i + 1;
    }
    assert y[..|y|] == y && r[..|r|] == r;
  }

  /** One iteration of `SumsOfSquares`: the residual d and the deviation e of point i. */
  lemma {:induction false} SquaresStep(x: seq<real>, y: seq<real>, slope: real, intercept: real, meanY: real,
                                       i: nat, d: real, e: real)
    requires |x| == |y| && i < |x|
    requires d == y[i] - PredictY(x[i], slope, intercept) && e == y[i] - meanY
    ensures Dot(Residuals(x, y, slope, intercept)[..i + 1], Residuals(x, y, slope, intercept)[..i + 1])
         == Dot(Residuals(x, y, slope, intercept)[..i], Residuals(x, y, slope, intercept)[..i]) + d * d
    ensures SquaredDeviations(y[..i + 1], meanY) == SquaredDeviations(y[..i], meanY) + e * e
  {
    var r := Residuals(x, y, slope, intercept);
    DotStep(r, r, i);
    assert r[i] == d;
    assert y[..i + 1][..i] == y[..i];
  }

  // ---------------------------------------------------------------------
  // The worked examples of the test suite, exactly.

  /** x = [1..5], y = [2,4,5,4,5]: the sums the formulas use. */
  lemma {:induction false} FixtureSums()
    ensures Sum([1.0, 2.0, 3.0, 4.0, 5.0]) == 15.0 && Sum([2.0, 4.0, 5.0, 4.0, 5.0]) == 20.0
    ensures Dot([1.0, 2.0, 3.0, 4.0, 5.0], [1.0, 2.0, 3.0, 4.0, 5.0]) == 55.0
    ensures Dot([1.0, 2.0, 3.0, 4.0, 5.0], [2.0, 4.0, 5.0, 4.0, 5.0]) == 66.0
  {
    Sum5([1.0, 2.0, 3.0, 4.0, 5.0]);
    Sum5([2.0, 4.0, 5.0, 4.0, 5.0]);
    Dot5([1.0, 2.0, 3.0, 4.0, 5.0], [1.0, 2.0, 3.0, 4.0, 5.0]);
    Dot5([1.0, 2.0, 3.0, 4.0, 5.0], [2.0, 4.0, 5.0, 4.0, 5.0]);
  }

  /** The fitted line is y = 0.6·x + 2.2. */
  lemma {:induction false} FixtureFit()
    ensures Fit([1.0, 2.0, 3.0, 4.0, 5.0], [2.0, 4.0, 5.0, 4.0, 5.0]) == (0.6, 2.2)
  {
    FixtureSums();
    var x := [1.0, 2.0, 3.0, 4.0, 5.0];
    var y := [2.0, 4.0, 5.0, 4.0, 5.0];
    assert Denominator(x) == 50.0;
    assert Numerator(x, y) == 30.0;
  }

  /** Its residuals: −0.8, 0.6, 1, −0.6, −0.2, whose squares sum to 2.4. */
  lemma {:induction false} FixtureResiduals()
    ensures var r := Residuals([1.0, 2.0, 3.0, 4.0, 5.0], [2.0, 4.0, 5.0, 4.0, 5.0], 0.6, 2.2);
      r == [-0.8, 0.6, 1.0, -0.6, -0.2] && Dot(r, r) == 2.4
  {
    var r := Residuals([1.0, 2.0, 3.0, 4.0, 5.0], [2.0, 4.0, 5.0, 4.0, 5.0], 0.6, 2.2);
    assert r == [-0.8, 0.6, 1.0, -0.6, -0.2];
    Dot5(r, r);
  }

  /** `EvaluateLinearRegression` gives 0.48 on the fixture. */
  lemma {:induction false} FixtureEvaluate()
    ensures Evaluate([1.0, 2.0, 3.0, 4.0, 5.0], [2.0, 4.0, 5.0, 4.0, 5.0]) == 0.48
  {
    var x := [1.0, 2.0, 3.0, 4.0, 5.0];
    var y := [2.0, 4.0, 5.0, 4.0, 5.0];
    FixtureFit();
    FixtureResiduals();
    assert Diff(y, Predictions(x, 0.6, 2.2)) == Residuals(x, y, 0.6, 2.2);
  }

  /** R² of the fitted line is 1 − 2.4/6 = 0.6. */
  lemma {:induction false} FixtureDetermination()
    ensures Determination([1.0, 2.0, 3.0, 4.0, 5.0], [2.0, 4.0, 5.0, 4.0, 5.0], 0.6, 2.2) == 0.6
  {
    var y := [2.0, 4.0, 5.0, 4.0, 5.0];
    FixtureSums();
    FixtureResiduals();
    Dot5(y, y);
    SquaredDeviationsProducts(y, Average(y));
    DeviationProductsCentred(y, y);
    assert Average(y) == 4.0;
    assert SquaredDeviations(y, Average(y)) == 6.0;
  }

  /** `MeanSquaredError([3, −0.5, 2, 7], [2.5, 0, 2, 8])` = 0.375. */
  lemma {:induction false} FixtureMSE()
    ensures MSE([3.0, -0.5, 2.0, 7.0], [2.5, 0.0, 2.0, 8.0]) == 0.375
  {
    var d := Diff([3.0, -0.5, 2.0, 7.0], [2.5, 0.0, 2.0, 8.0]);
    assert d == [0.5, -0.5, 0.0, -1.0];
    Dot4(d, d);
  }

  /** The guard cases of the tests: constant x, and `PredictY(4, 2, 1)` = 9. */
  lemma {:induction false} FixtureGuards()
    ensures Fit([1.0, 1.0, 1.0], [2.0, 2.0, 2.0]) == (0.0, 0.0)
    ensures PredictY(4.0, 2.0, 1.0) == 9.0
  {
    ConstantX([1.0, 1.0, 1.0], [2.0, 2.0, 2.0]);
  }
}
