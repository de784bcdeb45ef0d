/**
 * Ridge regression: the features and the response are centred on their
 * means, λ is added to the diagonal of DᵀD except at the intercept, the
 * penalised normal equations are solved with the Gauss-Jordan inverse,
 * and the intercept is rebuilt from the means so that the fitted plane
 * passes through the centroid of the data.
 */
module Ridge {
  import opened Sums
  import opened Matrices
  import opened GaussJordan
  import opened Outcomes
  import opened Centering
  import opened MultipleRegression

  /**
   * DᵀD with λ added at diagonal entries 1, 2, …, |G| − 1: the intercept's
   * entry and every off-diagonal entry are left as they are.
   */
  function Ridged(G: Matrix, lambda: real): (R: Matrix)
    requires Wide(G, |G|)
    ensures |R| == |G|
    ensures forall i :: 0 <= i < |G| ==> |R[i]| == |G[i]|
    ensures forall i, j :: 0 <= i < |G| && 0 <= j < |G[i]| ==>
      R[i][j] == G[i][j] + (if i == j && i >= 1 then lambda else 0.0)
  {
    seq(|G|, i requires 0 <= i < |G| => if i == 0 then G[i] else G[i][i := G[i][i] + lambda])
  }

  /** The intercept that makes the plane pass through (means, yMean). */
  function InterceptFor(yMean: real, beta: seq<real>, means: seq<real>): real
    requires |beta| == |means| + 1
  {
    yMean - Dot(beta[1..], means)
  }

  /** The design matrix of the centred features, with its column of ones. */
  function CentredDesign(X: Matrix): (D: Matrix)
    requires |X| > 0 && Wide(X, |X[0]|)
    ensures Shape(D, |X|, |X[0]| + 1)
  {
    Design(Centered(X, ColumnMeans(X, |X[0]|)))
  }

  /** What `RidgeRegression` returns. */
  function RidgeFit(X: Matrix, y: seq<real>, lambda: real): (r: Result<seq<real>>)
    requires RowsFit(X, y)
    ensures |X| == 0 || |y| != |X| ==> r == Err(InvalidDimensions)
    ensures r.Err? ==> r.msg == InvalidDimensions || r.msg == Singular
    ensures r.Ok? ==> |X| > 0 && |y| == |X| && |r.value| == |X[0]| + 1
  {
    if |X| == 0 || |y| != |X| then Err(InvalidDimensions)
    else
      var means := ColumnMeans(X, |X[0]|);
      var yMean := Average(y);
      var D := CentredDesign(X);
      var T := Transposed(D);
      match Inverse(Ridged(Product(T, D), lambda))
      case Err(msg) => Err(msg)
      case Ok(inv) =>
        var beta := Apply(inv, Apply(T, Shift(y, yMean)));
        Ok(beta[0 := InterceptFor(yMean, beta, means)])
  }

  /** The diagonal loop of `RidgeRegression`, updating the rows of DᵀD. */
  method AddRidge(G: Matrix, lambda: real) returns (R: Matrix)
    requires Wide(G, |G|)
    ensures R == Ridged(G, lambda)
  {
    R := G;
    var i := 1;
    while i < |R|
      invariant 1 <= i && (|G| > 0 ==> i <= |G|)
      invariant |R| == |G|
      invariant forall k :: 0 <= k < |G| ==> R[k] == if 1 <= k < i then Ridged(G, lambda)[k] else G[k]
    {
      R := R[i := R[i][i := R[i][i] + lambda]];
      i := i + 1;
    }
  }

  /** The intercept loop: yMean less each slope times its feature mean. */
  method AdjustIntercept(yMean: real, beta: seq<real>, means: seq<real>) returns (intercept: real)
    requires |beta| == |means| + 1
    ensures intercept == InterceptFor(yMean, beta, means)
  {
    intercept := yMean;
    var j := 0;
    while j < |means|
      invariant 0 <= j <= |means|
      invariant intercept == yMean - Dot(beta[1..j + 1], means[..j])
    {
      assert beta[1..j + 2][..j] == beta[1..j + 1];
      assert means[..j + 1][..j] == means[..j];
      DotLast(beta[1..j + 2], means[..j + 1]);
      intercept := intercept - beta[j + 1] * means[j];
      j := j + 1;
    }
    assert beta[1..|means| + 1] == beta[1..];
    assert means[..|means|] == means;
  }

  /** Centring, the penalised normal equations and the solve, as the Go function does them. */
  method CentredSolve(X: Matrix, y: seq<real>, lambda: real) returns (r: Result<seq<real>>, means: seq<real>, yMean: real)
    requires |X| > 0 && |y| == |X| && Wide(X, |X[0]|)
    ensures means == ColumnMeans(X, |X[0]|) && yMean == Average(y)
    ensures var T := Transposed(CentredDesign(X));
      var inverse := Inverse(Ridged(Product(T, CentredDesign(X)), lambda));
      r == if inverse.Err? then Err(inverse.msg) else Ok(Apply(inverse.value, Apply(T, Shift(y, yMean))))
  {
    var XC;
    XC, means := CenterColumns(X);
    var yc;
    yc, yMean := CenterVector(y);
    var D := Prepend(XC);
    var T := Transpose(D);
    var G := MatMul(T, D);
    G := AddRidge(G, lambda);
    var Ty := MatVecMul(T, yc);
    var inverse := MatInverse(G);
    if inverse.Err? {
      return Err(inverse.msg), means, yMean;
    }
    var beta := MatVecMul(inverse.value, Ty);
    return Ok(beta), means, yMean;
  }

  /** `RidgeRegression`. */
  method RidgeRegression(X: Matrix, y: seq<real>, lambda: real) returns (r: Result<seq<real>>)
    requires RowsFit(X, y)
    ensures r == RidgeFit(X, y, lambda)
  {
    if |X| == 0 || |y| != |X| {
      return Err(InvalidDimensions);
    }
    var solved, means, yMean := CentredSolve(X, y, lambda);
    if solved.Err? {
      return solved;
    }
    var beta := solved.value;
    var intercept := AdjustIntercept(yMean, beta, means);
    beta := beta[0 := intercept];
    return Ok(beta);
  }

  // ---------------------------------------------------------------------
  // Properties.

  /** The fitted plane passes through the centroid: predicting at the feature means gives mean(y). */
  lemma {:induction false} RidgeThroughMeans(X: Matrix, y: seq<real>, lambda: real)
    requires RowsFit(X, y) && RidgeFit(X, y, lambda).Ok?
    ensures var beta := RidgeFit(X, y, lambda).value;
      beta[0] + Dot(beta[1..], ColumnMeans(X, |X[0]|)) == Average(y)
  {
    var means := ColumnMeans(X, |X[0]|);
    var D := CentredDesign(X);
    var T := Transposed(D);
    var inv := Inverse(Ridged(Product(T, D), lambda)).value;
    var b := Apply(inv, Apply(T, Shift(y, Average(y))));
    assert RidgeFit(X, y, lambda).value[1..] == b[1..];
  }

  /**
   * The slopes are the unique solution of the penalised centred normal
   * equations (DcᵀDc + λĨ) b = Dcᵀ yc, and the intercept comes from the means.
   */
  lemma {:induction false} RidgeUnique(X: Matrix, y: seq<real>, lambda: real, b: seq<real>)
    requires RowsFit(X, y) && RidgeFit(X, y, lambda).Ok?
    requires |b| == |X[0]| + 1
    requires var D := CentredDesign(X); var T := Transposed(D);
      Apply(Ridged(Product(T, D), lambda), b) == Apply(T, Shift(y, Average(y)))
    ensures RidgeFit(X, y, lambda).value == b[0 := InterceptFor(Average(y), b, ColumnMeans(X, |X[0]|))]
  {
    var D := CentredDesign(X);
    var T := Transposed(D);
    SolveUnique(Ridged(Product(T, D), lambda), |b|, b, Apply(T, Shift(y, Average(y))));
  }

  /** Each centred feature column and the centred response sum to zero. */
  lemma {:induction false} RidgeCentringSums(X: Matrix, y: seq<real>, j: nat)
    requires |X| > 0 && |y| > 0 && Wide(X, |X[0]|) && j < |X[0]|
    ensures Sum(Column(Centered(X, ColumnMeans(X, |X[0]|)), j)) == 0.0
    ensures Sum(Shift(y, Average(y))) == 0.0
  {
    CenteredColumnsSum(X, |X[0]|, j);
    CenteredVectorSum(y);
  }

  /** Without a penalty the ridge system is the plain centred normal system. */
  lemma {:induction false} RidgedZero(G: Matrix)
    requires Wide(G, |G|)
    ensures Ridged(G, 0.0) == G
  {
    var R := Ridged(G, 0.0);
    forall i | 0 <= i < |G|
      ensures R[i] == G[i]
    {
    }
  }

  // ---------------------------------------------------------------------
  // Fixtures.

  /** Two identical rows and no penalty: the centred design is all zeros, DᵀD is singular. */
  lemma {:induction false} RidgeSingularFixture()
    ensures RidgeFit([[1.0, 1.0], [1.0, 1.0]], [2.0, 2.0], 0.0) == Err(Singular)
  {
    var X := [[1.0, 1.0], [1.0, 1.0]];
    var means := ColumnMeans(X, 2);
    assert Column(X, 0) == [1.0, 1.0] && Column(X, 1) == [1.0, 1.0];
    assert Sum([1.0, 1.0]) == 2.0 by {
      assert [1.0, 1.0][..1] == [1.0] && [1.0][..0] == [];
    }
    var D := CentredDesign(X);
    assert D[0] == [1.0, 0.0, 0.0] && D[1] == [1.0, 0.0, 0.0];
    var v := [0.0, 1.0, 0.0];
    forall i | 0 <= i < 2
      ensures Apply(D, v)[i] == 0.0
    {
      assert D[i][..3] == [1.0, 0.0, 0.0];
      Dot3([1.0, 0.0, 0.0], v);
    }
    assert Zeros(3)[1] == 0.0;
    GramSingular(D, 2, 3, v);
    RidgedZero(Product(Transposed(D), D));
  }

  /** The means of the λ = 0.1 fixture. */
  lemma {:induction false} FixtureMeans()
    ensures ColumnMeans([[1.0, 2.0], [2.0, 1.0], [3.0, 3.0]], 2) == [2.0, 2.0]
    ensures Average([6.0, 5.0, 12.0]) == 23.0 / 3.0
  {
    var X := [[1.0, 2.0], [2.0, 1.0], [3.0, 3.0]];
    assert Column(X, 0) == [1.0, 2.0, 3.0] && Column(X, 1) == [2.0, 1.0, 3.0];
    Sum3([1.0, 2.0, 3.0]);
    Sum3([2.0, 1.0, 3.0]);
    Sum3([6.0, 5.0, 12.0]);
    var means := ColumnMeans(X, 2);
    assert means == [means[0], means[1]];
  }

  /** The centred design of the λ = 0.1 fixture. */
  lemma {:induction false} FixtureCentring()
    ensures CentredDesign([[1.0, 2.0], [2.0, 1.0], [3.0, 3.0]]) == [[1.0, -1.0, 0.0], [1.0, 0.0, -1.0], [1.0, 1.0, 1.0]]
  {
    var X := [[1.0, 2.0], [2.0, 1.0], [3.0, 3.0]];
    FixtureMeans();
    var C := Centered(X, [2.0, 2.0]);
    assert C[0] == [-1.0, 0.0] && C[1] == [0.0, -1.0] && C[2] == [1.0, 1.0];
    var D := Design(C);
    assert D[0] == [1.0, -1.0, 0.0] && D[1] == [1.0, 0.0, -1.0] && D[2] == [1.0, 1.0, 1.0];
  }

  /** The transposed centred design of the λ = 0.1 fixture. */
  lemma {:induction false} FixtureRidgeTranspose()
    ensures Transposed([[1.0, -1.0, 0.0], [1.0, 0.0, -1.0], [1.0, 1.0, 1.0]])
      == [[1.0, 1.0, 1.0], [-1.0, 0.0, 1.0], [0.0, -1.0, 1.0]]
  {
    var t := Transposed([[1.0, -1.0, 0.0], [1.0, 0.0, -1.0], [1.0, 1.0, 1.0]]);
    assert t[0] == [1.0, 1.0, 1.0] && t[1] == [-1.0, 0.0, 1.0] && t[2] == [0.0, -1.0, 1.0];
  }

  /** The penalised system of the λ = 0.1 fixture. */
  lemma {:induction false} FixtureRidgeSystem()
    ensures var D := [[1.0, -1.0, 0.0], [1.0, 0.0, -1.0], [1.0, 1.0, 1.0]];
      var T := [[1.0, 1.0, 1.0], [-1.0, 0.0, 1.0], [0.0, -1.0, 1.0]];
      Ridged(Product(T, D), 0.1) == [[3.0, 0.0, 0.0], [0.0, 2.1, 1.0], [0.0, 1.0, 2.1]]
  {
    var D := [[1.0, -1.0, 0.0], [1.0, 0.0, -1.0], [1.0, 1.0, 1.0]];
    var T := [[1.0, 1.0, 1.0], [-1.0, 0.0, 1.0], [0.0, -1.0, 1.0]];
    Product3Row(T, D, 0);
    Product3Row(T, D, 1);
    Product3Row(T, D, 2);
    var G := [[3.0, 0.0, 0.0], [0.0, 2.0, 1.0], [0.0, 1.0, 2.0]];
    assert Product(T, D) == G;
    var R := Ridged(G, 0.1);
    assert R[0] == [3.0, 0.0, 0.0] && R[1] == [0.0, 2.1, 1.0] && R[2] == [0.0, 1.0, 2.1];
  }

  /** Dᵀ yc for the fixture, and the centred coefficients solving the penalised system. */
  lemma {:induction false} FixtureRidgeRightHandSide()
    ensures Shift([6.0, 5.0, 12.0], 23.0 / 3.0) == [-5.0 / 3.0, -8.0 / 3.0, 13.0 / 3.0]
    ensures Apply([[1.0, 1.0, 1.0], [-1.0, 0.0, 1.0], [0.0, -1.0, 1.0]], [-5.0 / 3.0, -8.0 / 3.0, 13.0 / 3.0]) == [0.0, 6.0, 7.0]
    ensures Apply([[3.0, 0.0, 0.0], [0.0, 2.1, 1.0], [0.0, 1.0, 2.1]], [0.0, 560.0 / 341.0, 870.0 / 341.0]) == [0.0, 6.0, 7.0]
  {
    var yc := [-5.0 / 3.0, -8.0 / 3.0, 13.0 / 3.0];
    var b := [0.0, 560.0 / 341.0, 870.0 / 341.0];
    var T := [[1.0, 1.0, 1.0], [-1.0, 0.0, 1.0], [0.0, -1.0, 1.0]];
    var R := [[3.0, 0.0, 0.0], [0.0, 2.1, 1.0], [0.0, 1.0, 2.1]];
    Apply3(T, yc);
    Dot3(T[0], yc); Dot3(T[1], yc); Dot3(T[2], yc);
    Apply3(R, b);
    Dot3(R[0], b); Dot3(R[1], b); Dot3(R[2], b);
  }

  /** Elimination on the penalised system meets the pivots 3, 2.1 and 2.1 − 1/2.1. */
  lemma {:induction false} FixtureRidgeInvertible()
    ensures Inverse([[3.0, 0.0, 0.0], [0.0, 2.1, 1.0], [0.0, 1.0, 2.1]]).Ok?
  {
    var G := [[3.0, 0.0, 0.0], [0.0, 2.1, 1.0], [0.0, 1.0, 2.1]];
    var M0 := Augment(G, 3);
    assert M0[0][0] == 3.0;
    var M1 := PivotStep(M0, 0, 3);
    assert M1[1][1] == 2.1 && M1[1][2] == 1.0 && M1[2][1] == 1.0 && M1[2][2] == 2.1;
    var M2 := PivotStep(M1, 1, 3);
    assert M2[2][2] == 2.1 - 1.0 / 2.1;
    var M3 := PivotStep(M2, 2, 3);
    assert Eliminate(M3, 3, 3).Ok?;
    assert Eliminate(M2, 2, 3) == Eliminate(M3, 3, 3);
    assert Eliminate(M1, 1, 3) == Eliminate(M2, 2, 3);
    assert Eliminate(M0, 0, 3) == Eliminate(M1, 1, 3);
  }

  /** Any solution of the centred penalised system, with the rebuilt intercept, is the fit. */
  lemma {:induction false} RidgeFromSystem(X: Matrix, y: seq<real>, lambda: real, T: Matrix, R: Matrix, c: seq<real>, b: seq<real>)
    requires |X| > 0 && |y| == |X| && Wide(X, |X[0]|) && |b| == |X[0]| + 1
    requires Transposed(CentredDesign(X)) == T && Ridged(Product(T, CentredDesign(X)), lambda) == R
    requires Inverse(R).Ok? && Apply(T, Shift(y, Average(y))) == c && Apply(R, b) == c
    ensures RidgeFit(X, y, lambda) == Ok(b[0 := InterceptFor(Average(y), b, ColumnMeans(X, |X[0]|))])
  {
    RidgeUnique(X, y, lambda, b);
  }

  /** The rebuilt intercept of the λ = 0.1 fixture. */
  lemma {:induction false} FixtureRidgeIntercept()
    ensures InterceptFor(23.0 / 3.0, [0.0, 560.0 / 341.0, 870.0 / 341.0], [2.0, 2.0]) == -737.0 / 1023.0
  {
    var b := [0.0, 560.0 / 341.0, 870.0 / 341.0];
    DotFirst(b[1..], [2.0, 2.0]);
    DotFirst(b[2..], [2.0]);
    assert b[2..][1..] == [] && [2.0, 2.0][1..] == [2.0] && [2.0][1..] == [];
  }

  /**
   * λ = 0.1 on the three-row fixture: exactly (−737/1023, 560/341, 870/341),
   * within 0.01 of (−0.7204, 1.6422, 2.5513).
   */
  lemma {:induction false} RidgeFixture()
    ensures RidgeFit([[1.0, 2.0], [2.0, 1.0], [3.0, 3.0]], [6.0, 5.0, 12.0], 0.1)
      == Ok([-737.0 / 1023.0, 560.0 / 341.0, 870.0 / 341.0])
    ensures -0.7204 - 0.01 <= -737.0 / 1023.0 <= -0.7204 + 0.01
    ensures 1.6422 - 0.01 <= 560.0 / 341.0 <= 1.6422 + 0.01
    ensures 2.5513 - 0.01 <= 870.0 / 341.0 <= 2.5513 + 0.01
  {
    var b := [0.0, 560.0 / 341.0, 870.0 / 341.0];
    FixtureMeans();
    FixtureCentring();
    FixtureRidgeTranspose();
    FixtureRidgeSystem();
    FixtureRidgeRightHandSide();
    FixtureRidgeInvertible();
    FixtureRidgeIntercept();
    RidgeFromSystem([[1.0, 2.0], [2.0, 1.0], [3.0, 3.0]], [6.0, 5.0, 12.0], 0.1,
      [[1.0, 1.0, 1.0], [-1.0, 0.0, 1.0], [0.0, -1.0, 1.0]],
      [[3.0, 0.0, 0.0], [0.0, 2.1, 1.0], [0.0, 1.0, 2.1]], [0.0, 6.0, 7.0], b);
    assert b[0 := -737.0 / 1023.0] == [-737.0 / 1023.0, 560.0 / 341.0, 870.0 / 341.0];
  }
}
