/**
 * Ordinary least squares with several features: the design matrix is the
 * feature matrix with a leading column of ones, and the coefficients are
 * (DᵀD)⁻¹ Dᵀ y, the inverse taken by Gauss-Jordan elimination without row
 * exchanges.
 *
 * `OLS` is the fit as a function on values and `MultipleLinearRegression`
 * the Go function's sequence of loops, proved equal to it. What `OLS`
 * returns is characterised by `OLSUnique` (it is the one solution of the
 * normal equations) and `RankDeficientSingular` (collinear designs are
 * rejected).
 */
module MultipleRegression {
  import opened Sums
  import opened Matrices
  import opened GaussJordan
  import opened Outcomes

  /** The feature matrix with the intercept column of ones prepended. */
  function Design(X: Matrix): (D: Matrix)
    ensures |D| == |X|
    ensures forall i :: 0 <= i < |X| ==> |D[i]| == |X[i]| + 1 && D[i][0] == 1.0 && D[i][1..] == X[i]
  {
    seq(|X|, i requires 0 <= i < |X| => [1.0] + X[i])
  }

  /**
   * What Go demands of the rows once the dimension check has passed: every
   * row is at least as long as the first (a shorter one is indexed out of
   * range by the transpose).
   */
  predicate RowsFit(X: Matrix, y: seq<real>)
  {
    |X| > 0 && |y| == |X| ==> Wide(X, |X[0]|)
  }

  /** The least-squares coefficients, intercept first. */
  function OLS(X: Matrix, y: seq<real>): (r: Result<seq<real>>)
    requires RowsFit(X, y)
    ensures |X| == 0 || |y| != |X| ==> r == Err(InvalidDimensions)
    ensures r.Err? ==> r.msg == InvalidDimensions || r.msg == Singular
    ensures r.Ok? ==> |X| > 0 && |y| == |X| && |r.value| == |X[0]| + 1
  {
    if |X| == 0 || |y| != |X| then Err(InvalidDimensions)
    else
      var D := Design(X);
      var T := Transposed(D);
      match Inverse(Product(T, D))
      case Err(msg) => Err(msg)
      case Ok(inv) => Ok(Apply(inv, Apply(T, y)))
  }

  /** The Go function: prepend the ones, then transpose, multiply, invert and multiply. */
  method MultipleLinearRegression(X: Matrix, y: seq<real>) returns (r: Result<seq<real>>)
    requires RowsFit(X, y)
    ensures r == OLS(X, y)
  {
    var n := |X|;
    if n == 0 || |y| != n {
      return Err(InvalidDimensions);
    }
    var D := Prepend(X);
    var T := Transpose(D);
    var G := MatMul(T, D);
    var inverse := MatInverse(G);
    if inverse.Err? {
      return Err(inverse.msg);
    }
    var Ty := MatVecMul(T, y);
    var beta := MatVecMul(inverse.value, Ty);
    return Ok(beta);
  }

  /** The first loop of the Go function: a one in front of every row. */
  method Prepend(X: Matrix) returns (D: Matrix)
    ensures D == Design(X)
  {
    D := [];
    var i := 0;
    while i < |X|
      invariant 0 <= i <= |X|
      invariant D == Design(X)[..i]
    {
      D := D + [[1.0] + X[i]];
      i := i + 1;
    }
  }

  /** `PredictMultiple`: the intercept plus the weighted features. */
  method PredictMultiple(x: seq<real>, beta: seq<real>) returns (y: real)
    requires |beta| >= |x| + 1
    ensures y == beta[0] + Dot(beta[1..|x| + 1], x)
  {
    y := beta[0];
    var i := 0;
    while i < |x|
      invariant 0 <= i <= |x|
      invariant y == beta[0] + Dot(beta[1..i + 1], x[..i])
    {
      assert beta[1..i + 2][..i] == beta[1..i + 1];
      DotLast(beta[1..i + 2], x[..i + 1]);
      assert x[..i + 1][..i] == x[..i];
      y := y + beta[i + 1] * x[i];
      i := i + 1;
    }
    assert x[..|x|] == x;
  }

  // ---------------------------------------------------------------------
  // What the coefficients are.

  /**
   * The coefficients solve the normal equations uniquely: any `b` with
   * DᵀD b = Dᵀ y is the returned vector.
   */
  lemma {:induction false} OLSUnique(X: Matrix, y: seq<real>, b: seq<real>)
    requires RowsFit(X, y) && OLS(X, y).Ok?
    requires |b| == |X[0]| + 1
    requires var D := Design(X); var T := Transposed(D);
      Apply(Product(T, D), b) == Apply(T, y)
    ensures OLS(X, y).value == b
  {
    var D := Design(X);
    var T := Transposed(D);
    var G := Product(T, D);
    SolveUnique(G, |b|, b, Apply(T, y));
  }

  /**
   * A design with a non-trivial null vector (collinear features, fewer
   * distinct rows than coefficients) makes DᵀD singular, and the fit
   * reports it.
   */
  lemma {:induction false} RankDeficientSingular(X: Matrix, y: seq<real>, p: nat, v: seq<real>)
    requires |X| > 0 && |y| == |X| && Shape(X, |X|, p)
    requires |v| == p + 1 && v != Zeros(p + 1)
    requires Apply(Design(X), v) == Zeros(|X|)
    ensures OLS(X, y) == Err(Singular)
  {
    GramSingular(Design(X), |X|, p + 1, v);
  }

  /** Gauss-Jordan elimination fails on DᵀD whenever D has a non-zero null vector. */
  lemma {:induction false} GramSingular(D: Matrix, n: nat, q: nat, v: seq<real>)
    requires n > 0 && q > 0 && Shape(D, n, q)
    requires |v| == q && v != Zeros(q)
    requires Apply(D, v) == Zeros(n)
    ensures Inverse(Product(Transposed(D), D)) == Err(Singular)
  {
    var T := Transposed(D);
    var G := Product(T, D);
    if Inverse(G).Ok? {
      var inv := Inverse(G).value;
      InverseIsLeftInverse(G, q);
      GramNull(T, D, v, q, n);
      TrivialKernel(inv, G, v, q);
      assert false;
    }
  }

  /** A null vector of D is a null vector of DᵀD. */
  lemma {:induction false} GramNull(T: Matrix, D: Matrix, v: seq<real>, q: nat, n: nat)
    requires n > 0 && Shape(T, q, n) && Shape(D, n, q) && |v| == q
    requires Apply(D, v) == Zeros(n)
    ensures Apply(Product(T, D), v) == Zeros(q)
  {
    ApplyProduct(T, D, v, q, n);
    ApplyZero(T, n);
  }

  /** A matrix with a left inverse sends only the zero vector to zero. */
  lemma {:induction false} TrivialKernel(L: Matrix, G: Matrix, v: seq<real>, q: nat)
    requires q > 0 && Shape(L, q, q) && Shape(G, q, q) && |v| == q
    requires Product(L, G) == Identity(q)
    requires Apply(G, v) == Zeros(q)
    ensures v == Zeros(q)
  {
    ApplyProduct(L, G, v, q, q);
    ApplyZero(L, q);
    ApplyIdentity(v);
  }

  /** Predicting a training row gives its fitted value, row i of D β. */
  lemma {:induction false} PredictDesignRow(X: Matrix, beta: seq<real>, i: nat)
    requires |beta| > 0 && Wide(X, |beta| - 1)
    requires i < |X| && |X[i]| + 1 == |beta|
    ensures Apply(Design(X), beta)[i] == beta[0] + Dot(beta[1..|X[i]| + 1], X[i])
  {
    var row := Design(X)[i];
    assert row[..|beta|] == row;
    DotFirst(row, beta);
    DotSymmetric(X[i], beta[1..]);
    assert beta[1..|X[i]| + 1] == beta[1..];
  }

  // ---------------------------------------------------------------------
  // The collinear fixture.

  /** Two identical rows: the fit is rejected as singular. */
  lemma {:induction false} IdenticalRowsRejected()
    ensures OLS([[1.0, 2.0], [1.0, 2.0]], [3.0, 3.0]) == Err(Singular)
  {
    var X := [[1.0, 2.0], [1.0, 2.0]];
    var v := [0.0, 2.0, -1.0];
    var D := Design(X);
    assert D[0] == [1.0, 1.0, 2.0] && D[1] == [1.0, 1.0, 2.0];
    forall i | 0 <= i < 2
      ensures Apply(D, v)[i] == 0.0
    {
      assert D[i][..3] == [1.0, 1.0, 2.0];
      DotFirst([1.0, 1.0, 2.0], v);
      DotFirst([1.0, 2.0], v[1..]);
      DotFirst([2.0], v[2..]);
      assert [2.0][1..] == [];
    }
    assert Zeros(3)[1] == 0.0;
    RankDeficientSingular(X, [3.0, 3.0], 2, v);
  }

  // ---------------------------------------------------------------------
  // The three-row fixture: X = [[1,2],[2,1],[3,3]], y = [6,5,12].

  /** The fixture's design matrix and its transpose. */
  lemma {:induction false} FixtureDesign()
    ensures var D := Design([[1.0, 2.0], [2.0, 1.0], [3.0, 3.0]]);
      D == [[1.0, 1.0, 2.0], [1.0, 2.0, 1.0], [1.0, 3.0, 3.0]] &&
      Transposed(D) == [[1.0, 1.0, 1.0], [1.0, 2.0, 3.0], [2.0, 1.0, 3.0]]
  {
    var D := Design([[1.0, 2.0], [2.0, 1.0], [3.0, 3.0]]);
    assert D[0] == [1.0, 1.0, 2.0] && D[1] == [1.0, 2.0, 1.0] && D[2] == [1.0, 3.0, 3.0];
    var T := Transposed(D);
    assert T[0] == [1.0, 1.0, 1.0] && T[1] == [1.0, 2.0, 3.0] && T[2] == [2.0, 1.0, 3.0];
  }

  /** DᵀD for the fixture. */
  lemma {:induction false} FixtureGram()
    ensures var D := [[1.0, 1.0, 2.0], [1.0, 2.0, 1.0], [1.0, 3.0, 3.0]];
      var T := [[1.0, 1.0, 1.0], [1.0, 2.0, 3.0], [2.0, 1.0, 3.0]];
      Product(T, D) == [[3.0, 6.0, 6.0], [6.0, 14.0, 13.0], [6.0, 13.0, 14.0]]
  {
    var D := [[1.0, 1.0, 2.0], [1.0, 2.0, 1.0], [1.0, 3.0, 3.0]];
    var T := [[1.0, 1.0, 1.0], [1.0, 2.0, 3.0], [2.0, 1.0, 3.0]];
    Product3Row(T, D, 0);
    Product3Row(T, D, 1);
    Product3Row(T, D, 2);
  }

  /** Elimination on the fixture's DᵀD meets the pivots 3, 2 and 3/2. */
  lemma {:induction false} FixtureInvertible()
    ensures Inverse([[3.0, 6.0, 6.0], [6.0, 14.0, 13.0], [6.0, 13.0, 14.0]]).Ok?
  {
    var G := [[3.0, 6.0, 6.0], [6.0, 14.0, 13.0], [6.0, 13.0, 14.0]];
    var M0 := Augment(G, 3);
    assert M0[0][0] == 3.0;
    var M1 := PivotStep(M0, 0, 3);
    assert M1[1][1] == 2.0 && M1[1][2] == 1.0 && M1[2][1] == 1.0 && M1[2][2] == 2.0;
    var M2 := PivotStep(M1, 1, 3);
    assert M2[2][2] == 1.5;
    var M3 := PivotStep(M2, 2, 3);
    assert Eliminate(M3, 3, 3).Ok?;
    assert Eliminate(M2, 2, 3) == Eliminate(M3, 3, 3);
    assert Eliminate(M1, 1, 3) == Eliminate(M2, 2, 3);
    assert Eliminate(M0, 0, 3) == Eliminate(M1, 1, 3);
  }

  /** Dᵀy for the fixture, and the claimed coefficients solving DᵀD b = Dᵀy. */
  lemma {:induction false} FixtureRightHandSide()
    ensures Apply([[1.0, 1.0, 1.0], [1.0, 2.0, 3.0], [2.0, 1.0, 3.0]], [6.0, 5.0, 12.0]) == [23.0, 52.0, 53.0]
    ensures Apply([[3.0, 6.0, 6.0], [6.0, 14.0, 13.0], [6.0, 13.0, 14.0]], [-1.0, 5.0 / 3.0, 8.0 / 3.0]) == [23.0, 52.0, 53.0]
  {
    var y := [6.0, 5.0, 12.0];
    var b := [-1.0, 5.0 / 3.0, 8.0 / 3.0];
    var T := [[1.0, 1.0, 1.0], [1.0, 2.0, 3.0], [2.0, 1.0, 3.0]];
    var G := [[3.0, 6.0, 6.0], [6.0, 14.0, 13.0], [6.0, 13.0, 14.0]];
    Apply3(T, y);
    Dot3(T[0], y); Dot3(T[1], y); Dot3(T[2], y);
    Apply3(G, b);
    Dot3(G[0], b); Dot3(G[1], b); Dot3(G[2], b);
  }

  /** Once DᵀD is known to be invertible, any solution of the normal equations is the fit. */
  lemma {:induction false} FitFromNormalEquations(X: Matrix, y: seq<real>, T: Matrix, G: Matrix, b: seq<real>)
    requires |X| > 0 && |y| == |X| && Wide(X, |X[0]|) && |b| == |X[0]| + 1
    requires Transposed(Design(X)) == T && Product(T, Design(X)) == G
    requires Inverse(G).Ok? && Apply(G, b) == Apply(T, y)
    ensures OLS(X, y) == Ok(b)
  {
    OLSUnique(X, y, b);
  }

  /** The fixture's coefficients: intercept −1, slopes 5/3 and 8/3. */
  lemma {:induction false} FixtureCoefficients()
    ensures OLS([[1.0, 2.0], [2.0, 1.0], [3.0, 3.0]], [6.0, 5.0, 12.0]) == Ok([-1.0, 5.0 / 3.0, 8.0 / 3.0])
  {
    FixtureDesign();
    FixtureGram();
    FixtureInvertible();
    FixtureRightHandSide();
    FitFromNormalEquations([[1.0, 2.0], [2.0, 1.0], [3.0, 3.0]], [6.0, 5.0, 12.0],
      [[1.0, 1.0, 1.0], [1.0, 2.0, 3.0], [2.0, 1.0, 3.0]],
      [[3.0, 6.0, 6.0], [6.0, 14.0, 13.0], [6.0, 13.0, 14.0]], [-1.0, 5.0 / 3.0, 8.0 / 3.0]);
  }
}
