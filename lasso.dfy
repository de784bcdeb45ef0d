/**
 * Lasso regression by cyclic coordinate descent on centred data. Every
 * coordinate update is a soft-threshold of the correlation ρ between the
 * feature and the partial residual, computed with the coefficients as they
 * stand at that moment (Gauss-Seidel order); a fixed number of sweeps is
 * run and the intercept is rebuilt from the means.
 *
 * `Sweeps` is the descent as a function on values; `LassoRegression`
 * updates a coefficient array in place and is proved equal to it. Each
 * update minimises the objective ½‖yc − Xc β‖² + (λ/2)‖β‖₁ along its
 * coordinate (`StepMinimises`), so no sweep ever increases it
 * (`SweepsDescend`).
 */
module Lasso {
  import opened Sums
  import opened Matrices
  import opened Outcomes
  import opened Centering
  import opened MultipleRegression

  /** yc − Xc b. */
  function Residual(Xc: Matrix, yc: seq<real>, b: seq<real>): (r: seq<real>)
    requires |yc| == |Xc| && Wide(Xc, |b|)
    ensures |r| == |yc|
    ensures forall i :: 0 <= i < |yc| ==> r[i] == yc[i] - Dot(Xc[i][..|b|], b)
  {
    Diff(yc, Apply(Xc, b))
  }

  /** ρ_j: feature j against the residual of every other feature. */
  function Rho(Xc: Matrix, yc: seq<real>, b: seq<real>, j: nat): real
    requires |yc| == |Xc| && Wide(Xc, |b|) && j < |b|
  {
    Dot(Column(Xc, j), Residual(Xc, yc, b[j := 0.0]))
  }

  /** The squared length of feature column j. */
  function Norm(Xc: Matrix, j: nat): real
    requires Wide(Xc, j + 1)
  {
    Dot(Column(Xc, j), Column(Xc, j))
  }

  /** The soft-threshold update of one coefficient. */
  function SoftThreshold(rho: real, norm: real, lambda: real): (b: real)
    requires norm != 0.0 || -lambda / 2.0 <= rho <= lambda / 2.0
    ensures b == 0.0 <== -lambda / 2.0 <= rho <= lambda / 2.0
    ensures norm > 0.0 && lambda >= 0.0 ==> (b < 0.0 <==> rho < -lambda / 2.0) && (b > 0.0 <==> rho > lambda / 2.0)
  {
    if rho < -lambda / 2.0 then (rho + lambda / 2.0) / norm
    else if rho > lambda / 2.0 then (rho - lambda / 2.0) / norm
    else 0.0
  }

  /** A zero column has zero norm and zero correlation with anything. */
  lemma {:induction false} ZeroNormZeroRho(Xc: Matrix, yc: seq<real>, b: seq<real>, j: nat)
    requires |yc| == |Xc| && Wide(Xc, |b|) && j < |b|
    requires Norm(Xc, j) == 0.0
    ensures Rho(Xc, yc, b, j) == 0.0
  {
    var c := Column(Xc, j);
    DotSelfZero(c);
    DotZero(c, Residual(Xc, yc, b[j := 0.0]));
  }

  /** One coordinate update. */
  function Step(Xc: Matrix, yc: seq<real>, b: seq<real>, lambda: real, j: nat): (b': seq<real>)
    requires lambda >= 0.0 && |yc| == |Xc| && Wide(Xc, |b|) && j < |b|
    ensures |b'| == |b|
  {
    if Norm(Xc, j) == 0.0 then
      ZeroNormZeroRho(Xc, yc, b, j);
      b[j := SoftThreshold(Rho(Xc, yc, b, j), Norm(Xc, j), lambda)]
    else
      b[j := SoftThreshold(Rho(Xc, yc, b, j), Norm(Xc, j), lambda)]
  }

  /** Coordinates j, j + 1, …, |b| − 1 in turn, each seeing the earlier updates. */
  function Sweep(Xc: Matrix, yc: seq<real>, b: seq<real>, lambda: real, j: nat): (b': seq<real>)
    requires lambda >= 0.0 && |yc| == |Xc| && Wide(Xc, |b|) && j <= |b|
    ensures |b'| == |b|
    decreases |b| - j
  {
    if j == |b| then b else Sweep(Xc, yc, Step(Xc, yc, b, lambda, j), lambda, j + 1)
  }

  /** `iters` full sweeps. */
  function Sweeps(Xc: Matrix, yc: seq<real>, b: seq<real>, lambda: real, iters: nat): (b': seq<real>)
    requires lambda >= 0.0 && |yc| == |Xc| && Wide(Xc, |b|)
    ensures |b'| == |b|
  {
    if iters == 0 then b else Sweep(Xc, yc, Sweeps(Xc, yc, b, lambda, iters - 1), lambda, 0)
  }

  /** What `LassoRegression` returns: the intercept, then the feature coefficients. */
  function LassoFit(X: Matrix, y: seq<real>, lambda: real, maxIter: int): (r: Result<seq<real>>)
    requires RowsFit(X, y) && lambda >= 0.0
    ensures |X| == 0 || |y| != |X| ==> r == Err(InvalidDimensions)
    ensures r.Err? ==> r.msg == InvalidDimensions
    ensures r.Ok? ==> |X| > 0 && |y| == |X| && |r.value| == |X[0]| + 1
  {
    if |X| == 0 || |y| != |X| then Err(InvalidDimensions)
    else
      var beta := Coefficients(X, y, lambda, maxIter);
      Ok([Average(y) - Dot(beta, ColumnMeans(X, |X[0]|))] + beta)
  }

  /** The feature coefficients: `maxIter` sweeps from zero on the centred data (none when `maxIter` ≤ 0). */
  function Coefficients(X: Matrix, y: seq<real>, lambda: real, maxIter: int): (beta: seq<real>)
    requires |X| > 0 && |y| == |X| && Wide(X, |X[0]|) && lambda >= 0.0
    ensures |beta| == |X[0]|
  {
    var means := ColumnMeans(X, |X[0]|);
    Sweeps(Centered(X, means), Shift(y, Average(y)), Zeros(|X[0]|), lambda, if maxIter > 0 then maxIter else 0)
  }

  // ---------------------------------------------------------------------
  // The objective that coordinate descent minimises.

  /** ½‖yc − Xc b‖² + (λ/2)‖b‖₁. */
  function Objective(Xc: Matrix, yc: seq<real>, b: seq<real>, lambda: real): real
    requires |yc| == |Xc| && Wide(Xc, |b|)
  {
    0.5 * Dot(Residual(Xc, yc, b), Residual(Xc, yc, b)) + Penalty(b, lambda)
  }

  /** The ℓ₁ penalty (λ/2)‖b‖₁. */
  function Penalty(b: seq<real>, lambda: real): real
  {
    lambda / 2.0 * L1(b)
  }

  /** The objective along coordinate j, less its value at zero: ½·norm·t² − ρ·t + (λ/2)|t|. */
  function Along(norm: real, rho: real, lambda: real, t: real): real
  {
    0.5 * norm * Sq(t) - rho * t + lambda / 2.0 * Abs(t)
  }

  /** The residual with coefficient j set to t is the residual without it, less t times column j. */
  lemma {:induction false} ResidualUpdate(Xc: Matrix, yc: seq<real>, b: seq<real>, j: nat, t: real)
    requires |yc| == |Xc| && Wide(Xc, |b|) && j < |b|
    ensures forall i :: 0 <= i < |yc| ==>
      Residual(Xc, yc, b[j := t])[i] == Residual(Xc, yc, b[j := 0.0])[i] - t * Column(Xc, j)[i]
  {
    forall i | 0 <= i < |yc|
      ensures Residual(Xc, yc, b[j := t])[i] == Residual(Xc, yc, b[j := 0.0])[i] - t * Column(Xc, j)[i]
    {
      DotUpdate(Xc[i][..|b|], b, j, t);
    }
  }

  /** ½‖r − t c‖² = ½‖r‖² − t⟨c, r⟩ + ½t²‖c‖², the penalty-free part of `Along`. */
  lemma {:induction false} SquareExpansion(r: seq<real>, c: seq<real>, s: seq<real>, t: real)
    requires |r| == |c| == |s|
    requires forall i :: 0 <= i < |s| ==> s[i] == r[i] - t * c[i]
    ensures 0.5 * Dot(s, s) == 0.5 * Dot(r, r) + Along(Dot(c, c), Dot(c, r), 0.0, t)
  {
    DotLinearMinusRight(s, r, c, s, t);
    DotLinearMinus(s, r, c, r, t);
    DotLinearMinusRight(s, r, c, c, t);
    ExpansionStep(Dot(s, s), Dot(s, r), Dot(c, s), Dot(r, r), Dot(c, r), Dot(c, c), t);
  }

  lemma {:induction false} ExpansionStep(ss: real, sr: real, cs: real, rr: real, cr: real, cc: real, t: real)
    requires ss == sr - Scaled(t, cs) && sr == rr - Scaled(t, cr) && cs == cr - Scaled(t, cc)
    ensures 0.5 * ss == 0.5 * rr + Along(cc, cr, 0.0, t)
  {
  }

  /** The penalty adds (λ/2)|t| to `Along`. */
  lemma {:induction false} AlongPenalty(norm: real, rho: real, lambda: real, t: real)
    ensures Along(norm, rho, lambda, t) == Along(norm, rho, 0.0, t) + lambda / 2.0 * Abs(t)
  {
  }

  /**
   * Along coordinate j the objective is its value with coefficient j at
   * zero, plus the one-dimensional function `Along` of the new value.
   */
  lemma {:induction false} ObjectiveAlong(Xc: Matrix, yc: seq<real>, b: seq<real>, lambda: real, j: nat, t: real)
    requires |yc| == |Xc| && Wide(Xc, |b|) && j < |b|
    ensures Objective(Xc, yc, b[j := t], lambda)
      == Objective(Xc, yc, b[j := 0.0], lambda) + Along(Norm(Xc, j), Rho(Xc, yc, b, j), lambda, t)
  {
    ObjectiveUnfold(Xc, yc, b[j := t], lambda);
    ObjectiveUnfold(Xc, yc, b[j := 0.0], lambda);
    ResidualSquare(Xc, yc, b, j, t);
    PenaltyUpdate(b, j, t, lambda);
    AlongPenalty(Norm(Xc, j), Rho(Xc, yc, b, j), lambda, t);
  }

  /** The squared residual with coefficient j set to t, by `SquareExpansion`. */
  lemma {:induction false} ResidualSquare(Xc: Matrix, yc: seq<real>, b: seq<real>, j: nat, t: real)
    requires |yc| == |Xc| && Wide(Xc, |b|) && j < |b|
    ensures 0.5 * Dot(Residual(Xc, yc, b[j := t]), Residual(Xc, yc, b[j := t]))
      == 0.5 * Dot(Residual(Xc, yc, b[j := 0.0]), Residual(Xc, yc, b[j := 0.0])) + Along(Norm(Xc, j), Rho(Xc, yc, b, j), 0.0, t)
  {
    ResidualUpdate(Xc, yc, b, j, t);
    SquareExpansion(Residual(Xc, yc, b[j := 0.0]), Column(Xc, j), Residual(Xc, yc, b[j := t]), t);
  }

  /** The scaled penalty with coefficient j set to t. */
  lemma {:induction false} PenaltyUpdate(b: seq<real>, j: nat, t: real, lambda: real)
    requires j < |b|
    ensures Penalty(b[j := t], lambda) == Penalty(b[j := 0.0], lambda) + lambda / 2.0 * Abs(t)
  {
    L1Update(b, j, t);
  }

  lemma {:induction false} ObjectiveUnfold(Xc: Matrix, yc: seq<real>, b: seq<real>, lambda: real)
    requires |yc| == |Xc| && Wide(Xc, |b|)
    ensures Objective(Xc, yc, b, lambda) == 0.5 * Dot(Residual(Xc, yc, b), Residual(Xc, yc, b)) + Penalty(b, lambda)
  {
  }

  /** The soft-threshold is the minimiser of `Along` (for a zero norm, ρ is zero and so is the update). */
  lemma {:induction false} ThresholdMinimises(norm: real, rho: real, lambda: real, t: real)
    requires norm >= 0.0 && lambda >= 0.0
    requires norm != 0.0 || -lambda / 2.0 <= rho <= lambda / 2.0
    ensures Along(norm, rho, lambda, SoftThreshold(rho, norm, lambda)) <= Along(norm, rho, lambda, t)
  {
    if rho > lambda / 2.0 {
      ThresholdAbove(norm, rho, lambda, t);
    } else if rho < -lambda / 2.0 {
      ThresholdBelow(norm, rho, lambda, t);
    } else {
      ThresholdInside(norm, rho, lambda, t);
    }
  }

  /** Inside the band |ρ| ≤ λ/2 zero is the minimiser: `Along` is never negative. */
  lemma {:induction false} ThresholdInside(norm: real, rho: real, lambda: real, t: real)
    requires norm >= 0.0 && -lambda / 2.0 <= rho <= lambda / 2.0
    ensures Along(norm, rho, lambda, 0.0) <= Along(norm, rho, lambda, t)
  {
    SquarePositive(t);
    assert norm * Sq(t) >= 0.0;
    assert rho * t <= lambda / 2.0 * Abs(t);
  }

  /** Above the band the minimiser is (ρ − λ/2)/norm. */
  lemma {:induction false} ThresholdAbove(norm: real, rho: real, lambda: real, t: real)
    requires norm > 0.0 && lambda >= 0.0 && rho > lambda / 2.0
    ensures Along(norm, rho, lambda, (rho - lambda / 2.0) / norm) <= Along(norm, rho, lambda, t)
  {
    var m := (rho - lambda / 2.0) / norm;
    assert norm * m == rho - lambda / 2.0;
    assert m > 0.0;
    AboveThreshold(norm, rho, lambda / 2.0, m, t);
  }

  /** Below the band the minimiser is (ρ + λ/2)/norm, the mirror image of the case above. */
  lemma {:induction false} ThresholdBelow(norm: real, rho: real, lambda: real, t: real)
    requires norm > 0.0 && lambda >= 0.0 && rho < -lambda / 2.0
    ensures Along(norm, rho, lambda, (rho + lambda / 2.0) / norm) <= Along(norm, rho, lambda, t)
  {
    var m := (rho + lambda / 2.0) / norm;
    ThresholdAbove(norm, -rho, lambda, -t);
    assert (-rho - lambda / 2.0) / norm == -m;
    AlongMirror(norm, rho, lambda, m);
    AlongMirror(norm, rho, lambda, t);
  }

  /** `Along` is unchanged when both ρ and t change sign. */
  lemma {:induction false} AlongMirror(norm: real, rho: real, lambda: real, t: real)
    ensures Along(norm, -rho, lambda, -t) == Along(norm, rho, lambda, t)
  {
    assert Sq(-t) == Sq(t) && Abs(-t) == Abs(t);
  }

  /** Above the threshold the minimiser is m = (ρ − μ)/norm and `Along(t)` exceeds `Along(m)` by ½·norm·(t − m)² at least. */
  lemma {:induction false} AboveThreshold(norm: real, rho: real, mu: real, m: real, t: real)
    requires norm > 0.0 && mu >= 0.0 && rho > mu && norm * m == rho - mu && m > 0.0
    ensures 0.5 * norm * Sq(m) - rho * m + mu * Abs(m) <= 0.5 * norm * Sq(t) - rho * t + mu * Abs(t)
  {
    SquarePositive(t - m);
    assert norm * Sq(t - m) >= 0.0;
    assert mu * Abs(t) >= mu * t;
    assert Sq(t - m) == Sq(t) - 2.0 * t * m + Sq(m);
    assert 0.5 * norm * Sq(m) - rho * m + mu * m == -0.5 * norm * Sq(m);
  }

  /** One update never increases the objective, and it is the best value for coordinate j. */
  lemma {:induction false} StepMinimises(Xc: Matrix, yc: seq<real>, b: seq<real>, lambda: real, j: nat, t: real)
    requires lambda >= 0.0 && |yc| == |Xc| && Wide(Xc, |b|) && j < |b|
    ensures Objective(Xc, yc, Step(Xc, yc, b, lambda, j), lambda) <= Objective(Xc, yc, b[j := t], lambda)
  {
    var norm := Norm(Xc, j);
    var rho := Rho(Xc, yc, b, j);
    DotSelfNonNegative(Column(Xc, j));
    if norm == 0.0 {
      ZeroNormZeroRho(Xc, yc, b, j);
    }
    var m := SoftThreshold(rho, norm, lambda);
    ThresholdMinimises(norm, rho, lambda, t);
    ObjectiveAlong(Xc, yc, b, lambda, j, t);
    ObjectiveAlong(Xc, yc, b, lambda, j, m);
  }

  /** A sweep never increases the objective. */
  lemma {:induction false} SweepDescends(Xc: Matrix, yc: seq<real>, b: seq<real>, lambda: real, j: nat)
    requires lambda >= 0.0 && |yc| == |Xc| && Wide(Xc, |b|) && j <= |b|
    ensures Objective(Xc, yc, Sweep(Xc, yc, b, lambda, j), lambda) <= Objective(Xc, yc, b, lambda)
    decreases |b| - j
  {
    if j < |b| {
      var b' := Step(Xc, yc, b, lambda, j);
      StepMinimises(Xc, yc, b, lambda, j, b[j]);
      assert b[j := b[j]] == b;
      SweepDescends(Xc, yc, b', lambda, j + 1);
    }
  }

  /** Any number of sweeps never increases the objective. */
  lemma {:induction false} SweepsDescend(Xc: Matrix, yc: seq<real>, b: seq<real>, lambda: real, iters: nat)
    requires lambda >= 0.0 && |yc| == |Xc| && Wide(Xc, |b|)
    ensures Objective(Xc, yc, Sweeps(Xc, yc, b, lambda, iters), lambda) <= Objective(Xc, yc, b, lambda)
  {
    if iters > 0 {
      SweepsDescend(Xc, yc, b, lambda, iters - 1);
      SweepDescends(Xc, yc, Sweeps(Xc, yc, b, lambda, iters - 1), lambda, 0);
    }
  }

  // ---------------------------------------------------------------------
  // Consequences for the fit.

  /** With no sweeps (`maxIter` ≤ 0) every feature coefficient is zero and the intercept is the mean of y. */
  lemma {:induction false} NoSweeps(X: Matrix, y: seq<real>, lambda: real, maxIter: int)
    requires |X| > 0 && |y| == |X| && Wide(X, |X[0]|) && lambda >= 0.0 && maxIter <= 0
    ensures LassoFit(X, y, lambda, maxIter) == Ok([Average(y)] + Zeros(|X[0]|))
  {
    DotZero(Zeros(|X[0]|), ColumnMeans(X, |X[0]|));
  }

  /** The fitted model passes through the point of means: β₀ + Σ βⱼ·x̄ⱼ = ȳ. */
  lemma {:induction false} LassoThroughMeans(X: Matrix, y: seq<real>, lambda: real, maxIter: int)
    requires |X| > 0 && |y| == |X| && Wide(X, |X[0]|) && lambda >= 0.0
    ensures LassoFit(X, y, lambda, maxIter).Ok?
    ensures var beta := LassoFit(X, y, lambda, maxIter).value;
      beta[0] + Dot(beta[1..], ColumnMeans(X, |X[0]|)) == Average(y)
  {
    var beta := LassoFit(X, y, lambda, maxIter).value;
    assert beta[1..] == Coefficients(X, y, lambda, maxIter);
  }

  /** When every other coefficient is zero, ρ_j is the plain correlation of column j with yc. */
  lemma {:induction false} RhoAtZero(Xc: Matrix, yc: seq<real>, b: seq<real>, j: nat)
    requires |yc| == |Xc| && Wide(Xc, |b|) && j < |b|
    requires b[j := 0.0] == Zeros(|b|)
    ensures Rho(Xc, yc, b, j) == Dot(Column(Xc, j), yc)
  {
    ApplyZero(Xc, |b|);
    assert Residual(Xc, yc, Zeros(|b|)) == yc;
  }

  /** When no feature correlates with yc by more than λ/2, a sweep leaves the zero vector at zero. */
  lemma {:induction false} SweepAtZero(Xc: Matrix, yc: seq<real>, p: nat, lambda: real, j: nat)
    requires lambda >= 0.0 && |yc| == |Xc| && Wide(Xc, p) && j <= p
    requires forall k :: 0 <= k < p ==> -lambda / 2.0 <= Dot(Column(Xc, k), yc) <= lambda / 2.0
    ensures Sweep(Xc, yc, Zeros(p), lambda, j) == Zeros(p)
    decreases p - j
  {
    if j < p {
      assert Zeros(p)[j := 0.0] == Zeros(p);
      RhoAtZero(Xc, yc, Zeros(p), j);
      assert Step(Xc, yc, Zeros(p), lambda, j) == Zeros(p);
      SweepAtZero(Xc, yc, p, lambda, j + 1);
    }
  }

  /** ... and so does any number of sweeps: every coefficient stays exactly zero. */
  lemma {:induction false} ZeroFixedPoint(Xc: Matrix, yc: seq<real>, p: nat, lambda: real, iters: nat)
    requires lambda >= 0.0 && |yc| == |Xc| && Wide(Xc, p)
    requires forall k :: 0 <= k < p ==> -lambda / 2.0 <= Dot(Column(Xc, k), yc) <= lambda / 2.0
    ensures Sweeps(Xc, yc, Zeros(p), lambda, iters) == Zeros(p)
  {
    if iters > 0 {
      ZeroFixedPoint(Xc, yc, p, lambda, iters - 1);
      SweepAtZero(Xc, yc, p, lambda, 0);
    }
  }

  // ---------------------------------------------------------------------
  // Two fixtures: a penalty large enough to keep every feature out, and a
  // constant feature next to a decreasing one.

  /** Means and centring of X = [[1,0],[0,1],[1,1]], y = [1,1,2]. */
  lemma {:induction false} FixtureLargePenaltyData()
    ensures ColumnMeans([[1.0, 0.0], [0.0, 1.0], [1.0, 1.0]], 2) == [2.0 / 3.0, 2.0 / 3.0]
    ensures Average([1.0, 1.0, 2.0]) == 4.0 / 3.0
    ensures Centered([[1.0, 0.0], [0.0, 1.0], [1.0, 1.0]], [2.0 / 3.0, 2.0 / 3.0])
      == [[1.0 / 3.0, -2.0 / 3.0], [-2.0 / 3.0, 1.0 / 3.0], [1.0 / 3.0, 1.0 / 3.0]]
    ensures Shift([1.0, 1.0, 2.0], 4.0 / 3.0) == [-1.0 / 3.0, -1.0 / 3.0, 2.0 / 3.0]
  {
    var X := [[1.0, 0.0], [0.0, 1.0], [1.0, 1.0]];
    assert Column(X, 0) == [1.0, 0.0, 1.0] && Column(X, 1) == [0.0, 1.0, 1.0];
    Sum3([1.0, 0.0, 1.0]);
    Sum3([0.0, 1.0, 1.0]);
    Sum3([1.0, 1.0, 2.0]);
    var means := ColumnMeans(X, 2);
    assert means == [means[0], means[1]];
    var C := Centered(X, [2.0 / 3.0, 2.0 / 3.0]);
    assert C[0] == [1.0 / 3.0, -2.0 / 3.0] && C[1] == [-2.0 / 3.0, 1.0 / 3.0] && C[2] == [1.0 / 3.0, 1.0 / 3.0];
  }

  /** Both centred features correlate with yc by 1/3, well inside λ/2 = 5. */
  lemma {:induction false} FixtureLargePenaltyCorrelations()
    ensures var Xc := [[1.0 / 3.0, -2.0 / 3.0], [-2.0 / 3.0, 1.0 / 3.0], [1.0 / 3.0, 1.0 / 3.0]];
      var yc := [-1.0 / 3.0, -1.0 / 3.0, 2.0 / 3.0];
      Dot(Column(Xc, 0), yc) == 1.0 / 3.0 && Dot(Column(Xc, 1), yc) == 1.0 / 3.0
  {
    var Xc := [[1.0 / 3.0, -2.0 / 3.0], [-2.0 / 3.0, 1.0 / 3.0], [1.0 / 3.0, 1.0 / 3.0]];
    var yc := [-1.0 / 3.0, -1.0 / 3.0, 2.0 / 3.0];
    assert Column(Xc, 0) == [1.0 / 3.0, -2.0 / 3.0, 1.0 / 3.0];
    assert Column(Xc, 1) == [-2.0 / 3.0, 1.0 / 3.0, 1.0 / 3.0];
    Dot3(Column(Xc, 0), yc);
    Dot3(Column(Xc, 1), yc);
  }

  /** With λ = 10 the centred fixture stays at zero under any number of sweeps. */
  lemma {:induction false} FixtureLargePenaltySweeps(iters: nat)
    ensures Sweeps([[1.0 / 3.0, -2.0 / 3.0], [-2.0 / 3.0, 1.0 / 3.0], [1.0 / 3.0, 1.0 / 3.0]],
      [-1.0 / 3.0, -1.0 / 3.0, 2.0 / 3.0], Zeros(2), 10.0, iters) == [0.0, 0.0]
  {
    var Xc := [[1.0 / 3.0, -2.0 / 3.0], [-2.0 / 3.0, 1.0 / 3.0], [1.0 / 3.0, 1.0 / 3.0]];
    var yc := [-1.0 / 3.0, -1.0 / 3.0, 2.0 / 3.0];
    FixtureLargePenaltyCorrelations();
    ZeroFixedPoint(Xc, yc, 2, 10.0, iters);
    assert Zeros(2) == [0.0, 0.0];
  }

  /** With λ = 10 both feature coefficients are exactly zero, whatever the number of sweeps. */
  lemma {:induction false} FixtureLargePenalty(maxIter: int)
    ensures LassoFit([[1.0, 0.0], [0.0, 1.0], [1.0, 1.0]], [1.0, 1.0, 2.0], 10.0, maxIter) == Ok([4.0 / 3.0, 0.0, 0.0])
  {
    var X := [[1.0, 0.0], [0.0, 1.0], [1.0, 1.0]];
    FixtureLargePenaltyData();
    FixtureLargePenaltySweeps(if maxIter > 0 then maxIter else 0);
    var beta := [0.0, 0.0];
    assert Coefficients(X, [1.0, 1.0, 2.0], 10.0, maxIter) == beta;
    Dot2(beta, [2.0 / 3.0, 2.0 / 3.0]);
    assert [4.0 / 3.0 - Dot(beta, [2.0 / 3.0, 2.0 / 3.0])] + beta == [4.0 / 3.0, 0.0, 0.0];
  }

  /** Means and centring of X = [[1,10],[1,20],[1,30]], y = [30,20,10]. */
  lemma {:induction false} FixtureDecreasingData()
    ensures ColumnMeans([[1.0, 10.0], [1.0, 20.0], [1.0, 30.0]], 2) == [1.0, 20.0]
    ensures Average([30.0, 20.0, 10.0]) == 20.0
    ensures Centered([[1.0, 10.0], [1.0, 20.0], [1.0, 30.0]], [1.0, 20.0]) == [[0.0, -10.0], [0.0, 0.0], [0.0, 10.0]]
    ensures Shift([30.0, 20.0, 10.0], 20.0) == [10.0, 0.0, -10.0]
  {
    var X := [[1.0, 10.0], [1.0, 20.0], [1.0, 30.0]];
    assert Column(X, 0) == [1.0, 1.0, 1.0] && Column(X, 1) == [10.0, 20.0, 30.0];
    Sum3([1.0, 1.0, 1.0]);
    Sum3([10.0, 20.0, 30.0]);
    Sum3([30.0, 20.0, 10.0]);
    var means := ColumnMeans(X, 2);
    assert means == [means[0], means[1]];
    var C := Centered(X, [1.0, 20.0]);
    assert C[0] == [0.0, -10.0] && C[1] == [0.0, 0.0] && C[2] == [0.0, 10.0];
  }

  /** The constant feature centres to a zero column, so its update is 0 whatever b holds. */
  lemma {:induction false} FixtureConstantStep(b: seq<real>)
    requires |b| == 2
    ensures Step([[0.0, -10.0], [0.0, 0.0], [0.0, 10.0]], [10.0, 0.0, -10.0], b, 1.0, 0) == [0.0, b[1]]
  {
    var Xc := [[0.0, -10.0], [0.0, 0.0], [0.0, 10.0]];
    var yc := [10.0, 0.0, -10.0];
    assert Column(Xc, 0) == [0.0, 0.0, 0.0];
    Dot3(Column(Xc, 0), Column(Xc, 0));
    ZeroNormZeroRho(Xc, yc, b, 0);
    assert SoftThreshold(Rho(Xc, yc, b, 0), Norm(Xc, 0), 1.0) == 0.0;
    assert b[0 := 0.0] == [0.0, b[1]];
  }

  /** The second feature then sees ρ = −200 and norm 200: (−200 + 1/2)/200 = −399/400. */
  lemma {:induction false} FixtureDecreasingStep(b1: real)
    ensures Step([[0.0, -10.0], [0.0, 0.0], [0.0, 10.0]], [10.0, 0.0, -10.0], [0.0, b1], 1.0, 1) == [0.0, -399.0 / 400.0]
  {
    var Xc := [[0.0, -10.0], [0.0, 0.0], [0.0, 10.0]];
    var yc := [10.0, 0.0, -10.0];
    assert Column(Xc, 1) == [-10.0, 0.0, 10.0];
    Dot3(Column(Xc, 1), Column(Xc, 1));
    Dot3(Column(Xc, 1), yc);
    assert [0.0, b1][1 := 0.0] == Zeros(2);
    RhoAtZero(Xc, yc, [0.0, b1], 1);
    assert Norm(Xc, 1) == 200.0 && Rho(Xc, yc, [0.0, b1], 1) == -200.0;
    assert SoftThreshold(-200.0, 200.0, 1.0) == -399.0 / 400.0;
    assert [0.0, b1][1 := -399.0 / 400.0] == [0.0, -399.0 / 400.0];
  }

  /** A whole sweep lands on [0, −399/400] from any starting point. */
  lemma {:induction false} FixtureDecreasingSweep(b: seq<real>)
    requires |b| == 2
    ensures Sweep([[0.0, -10.0], [0.0, 0.0], [0.0, 10.0]], [10.0, 0.0, -10.0], b, 1.0, 0) == [0.0, -399.0 / 400.0]
  {
    var Xc := [[0.0, -10.0], [0.0, 0.0], [0.0, 10.0]];
    var yc := [10.0, 0.0, -10.0];
    FixtureConstantStep(b);
    FixtureDecreasingStep(b[1]);
    SweepOfTwo(Xc, yc, b, 1.0);
  }

  /** A sweep over two coefficients is two steps. */
  lemma {:induction false} SweepOfTwo(Xc: Matrix, yc: seq<real>, b: seq<real>, lambda: real)
    requires lambda >= 0.0 && |yc| == |Xc| && Wide(Xc, |b|) && |b| == 2
    ensures Sweep(Xc, yc, b, lambda, 0) == Step(Xc, yc, Step(Xc, yc, b, lambda, 0), lambda, 1)
  {
    var b0 := Step(Xc, yc, b, lambda, 0);
    var b1 := Step(Xc, yc, b0, lambda, 1);
    assert Sweep(Xc, yc, b1, lambda, 2) == b1;
  }

  lemma {:induction false} FixtureDecreasingSweeps(iters: nat)
    requires iters > 0
    ensures Sweeps([[0.0, -10.0], [0.0, 0.0], [0.0, 10.0]], [10.0, 0.0, -10.0], Zeros(2), 1.0, iters) == [0.0, -399.0 / 400.0]
  {
    var Xc := [[0.0, -10.0], [0.0, 0.0], [0.0, 10.0]];
    var yc := [10.0, 0.0, -10.0];
    FixtureDecreasingSweep(Sweeps(Xc, yc, Zeros(2), 1.0, iters - 1));
  }

  /** β₂ < 0 for the decreasing fixture: the fit is [799/20, 0, −399/400] after any positive number of sweeps. */
  lemma {:induction false} FixtureDecreasing(maxIter: int)
    requires maxIter > 0
    ensures LassoFit([[1.0, 10.0], [1.0, 20.0], [1.0, 30.0]], [30.0, 20.0, 10.0], 1.0, maxIter)
      == Ok([799.0 / 20.0, 0.0, -399.0 / 400.0])
  {
    var X := [[1.0, 10.0], [1.0, 20.0], [1.0, 30.0]];
    FixtureDecreasingData();
    FixtureDecreasingSweeps(maxIter);
    var beta := [0.0, -399.0 / 400.0];
    assert Coefficients(X, [30.0, 20.0, 10.0], 1.0, maxIter) == beta;
    Dot2(beta, [1.0, 20.0]);
    assert [20.0 - Dot(beta, [1.0, 20.0])] + beta == [799.0 / 20.0, 0.0, -399.0 / 400.0];
  }

  // ---------------------------------------------------------------------
  // The Go loops.

  /** The innermost loop: the fit of row `row` from every coefficient but j. */
  method PartialFit(row: seq<real>, beta: array<real>, j: nat) returns (pred: real)
    requires |row| >= beta.Length && j < beta.Length
    ensures pred == Dot(row[..beta.Length], beta[..][j := 0.0])
  {
    var p := beta.Length;
    ghost var b := beta[..][j := 0.0];
    pred := 0.0;
    var k := 0;
    while k < p
      invariant 0 <= k <= p
      invariant pred == Dot(row[..k], b[..k])
    {
      DotStep(row[..p], b, k);
      assert row[..p][..k + 1] == row[..k + 1] && row[..p][..k] == row[..k];
      if k != j {
        pred := pred + row[k] * beta[k];
      }
      k := k + 1;
    }
    assert b[..p] == b;
  }

  /** The ρ loop of one coordinate update. */
  method RhoLoop(Xc: Matrix, yc: seq<real>, beta: array<real>, j: nat) returns (rho: real)
    requires |yc| == |Xc| && Wide(Xc, beta.Length) && j < beta.Length
    ensures rho == Rho(Xc, yc, beta[..], j)
  {
    ghost var c := Column(Xc, j);
    ghost var r := Residual(Xc, yc, beta[..][j := 0.0]);
    rho := 0.0;
    var i := 0;
    while i < |Xc|
      invariant 0 <= i <= |Xc|
      invariant rho == Dot(c[..i], r[..i])
    {
      var pred := PartialFit(Xc[i], beta, j);
      DotStep(c, r, i);
      rho := rho + Xc[i][j] * (yc[i] - pred);
      i := i + 1;
    }
    assert c[..|Xc|] == c && r[..|Xc|] == r;
  }

  /** The norm loop of one coordinate update. */
  method NormLoop(Xc: Matrix, j: nat) returns (norm: real)
    requires Wide(Xc, j + 1)
    ensures norm == Norm(Xc, j)
  {
    ghost var c := Column(Xc, j);
    norm := 0.0;
    var i := 0;
    while i < |Xc|
      invariant 0 <= i <= |Xc|
      invariant norm == Dot(c[..i], c[..i])
    {
      DotStep(c, c, i);
      norm := norm + Xc[i][j] * Xc[i][j];
      i := i + 1;
    }
    assert c[..|Xc|] == c;
  }

  /** One coordinate update, in place. */
  method StepInPlace(Xc: Matrix, yc: seq<real>, beta: array<real>, lambda: real, j: nat)
    requires lambda >= 0.0 && |yc| == |Xc| && Wide(Xc, beta.Length) && j < beta.Length
    modifies beta
    ensures beta[..] == Step(Xc, yc, old(beta[..]), lambda, j)
  {
    var rho := RhoLoop(Xc, yc, beta, j);
    var norm := NormLoop(Xc, j);
    if norm == 0.0 {
      ZeroNormZeroRho(Xc, yc, beta[..], j);
    }
    if rho < -lambda / 2.0 {
      beta[j] := (rho + lambda / 2.0) / norm;
    } else if rho > lambda / 2.0 {
      beta[j] := (rho - lambda / 2.0) / norm;
    } else {
      beta[j] := 0.0;
    }
  }

  /** One sweep over the coordinates, in place. */
  method SweepInPlace(Xc: Matrix, yc: seq<real>, beta: array<real>, lambda: real)
    requires lambda >= 0.0 && |yc| == |Xc| && Wide(Xc, beta.Length)
    modifies beta
    ensures beta[..] == Sweep(Xc, yc, old(beta[..]), lambda, 0)
  {
    var j := 0;
    while j < beta.Length
      invariant 0 <= j <= beta.Length
      invariant Sweep(Xc, yc, beta[..], lambda, j) == Sweep(Xc, yc, old(beta[..]), lambda, 0)
    {
      StepInPlace(Xc, yc, beta, lambda, j);
      j := j + 1;
    }
  }

  /** The intercept loop: yMean less each coefficient times its feature mean. */
  method LassoIntercept(yMean: real, beta: seq<real>, means: seq<real>) returns (intercept: real)
    requires |beta| == |means|
    ensures intercept == yMean - Dot(beta, means)
  {
    intercept := yMean;
    var j := 0;
    while j < |means|
      invariant 0 <= j <= |means|
      invariant intercept == yMean - Dot(beta[..j], means[..j])
    {
      DotStep(beta, means, j);
      intercept := intercept - beta[j] * means[j];
      j := j + 1;
    }
    assert beta[..|means|] == beta && means[..|means|] == means;
  }

  /** The coefficient array, all zeros, after `maxIter` sweeps (none when `maxIter` ≤ 0). */
  method Descend(Xc: Matrix, yc: seq<real>, p: nat, lambda: real, maxIter: int) returns (beta: array<real>)
    requires lambda >= 0.0 && |yc| == |Xc| && Wide(Xc, p)
    ensures fresh(beta)
    ensures beta[..] == Sweeps(Xc, yc, Zeros(p), lambda, if maxIter > 0 then maxIter else 0)
  {
    beta := new real[p](_ => 0.0);
    ghost var zeros := Zeros(p);
    assert beta[..] == zeros;
    ghost var iters: nat := if maxIter > 0 then maxIter else 0;
    var iter := 0;
    while iter < maxIter
      invariant 0 <= iter <= iters
      invariant beta[..] == Sweeps(Xc, yc, zeros, lambda, iter)
    {
      ghost var before := beta[..];
      SweepInPlace(Xc, yc, beta, lambda);
      assert beta[..] == Sweep(Xc, yc, before, lambda, 0);
      iter := iter + 1;
    }
  }

  /** Centring and the sweeps: the feature coefficients, the feature means and the mean of y. */
  method CentredDescent(X: Matrix, y: seq<real>, lambda: real, maxIter: int) returns (b: seq<real>, means: seq<real>, yMean: real)
    requires |X| > 0 && |y| == |X| && Wide(X, |X[0]|) && lambda >= 0.0
    ensures means == ColumnMeans(X, |X[0]|) && yMean == Average(y)
    ensures b == Coefficients(X, y, lambda, maxIter)
  {
    var Xc, yc;
    Xc, means := CenterColumns(X);
    yc, yMean := CenterVector(y);
    var beta := Descend(Xc, yc, |X[0]|, lambda, maxIter);
    b := beta[..];
  }

  /** `LassoRegression` once the dimensions have been checked. */
  method FitChecked(X: Matrix, y: seq<real>, lambda: real, maxIter: int) returns (coefficients: seq<real>)
    requires |X| > 0 && |y| == |X| && Wide(X, |X[0]|) && lambda >= 0.0
    ensures LassoFit(X, y, lambda, maxIter) == Ok(coefficients)
  {
    var b, means, yMean := CentredDescent(X, y, lambda, maxIter);
    var intercept := LassoIntercept(yMean, b, means);
    coefficients := [intercept] + b;
  }

  /** `LassoRegression`. */
  method LassoRegression(X: Matrix, y: seq<real>, lambda: real, maxIter: int) returns (r: Result<seq<real>>)
    requires RowsFit(X, y) && lambda >= 0.0
    ensures r == LassoFit(X, y, lambda, maxIter)
  {
    if |X| == 0 || |y| != |X| {
      return Err(InvalidDimensions);
    }
    var coefficients := FitChecked(X, y, lambda, maxIter);
    return Ok(coefficients);
  }
}
