/**
 * The dense matrix kernel shared by the regression solvers: transpose,
 * matrix product and matrix-vector product. A matrix is a sequence of rows;
 * Go reads entry `A[i][j]` only for `j` below a bound taken from another
 * operand, so the preconditions ask for rows at least that long (a shorter
 * row makes the Go code panic with an index out of range).
 */
module Matrices {
  import opened Sums

  type Matrix = seq<seq<real>>

  /** Every row of `A` has at least `c` entries. */
  predicate Wide(A: Matrix, c: nat)
  {
    forall i :: 0 <= i < |A| ==> |A[i]| >= c
  }

  /** `A` has exactly `r` rows of exactly `c` entries. */
  predicate Shape(A: Matrix, r: nat, c: nat)
  {
    |A| == r && forall i :: 0 <= i < r ==> |A[i]| == c
  }

  /** Column `j` of `B`. */
  function Column(B: Matrix, j: nat): (col: seq<real>)
    requires Wide(B, j + 1)
    ensures |col| == |B|
    ensures forall k :: 0 <= k < |B| ==> col[k] == B[k][j]
  {
    seq(|B|, k requires 0 <= k < |B| => B[k][j])
  }

  /** The n×n identity matrix. */
  function Identity(n: nat): (I: Matrix)
    ensures Shape(I, n, n)
    ensures forall i, j :: 0 <= i < n && 0 <= j < n ==> I[i][j] == if i == j then 1.0 else 0.0
  {
    seq(n, i requires 0 <= i < n => seq(n, j requires 0 <= j < n => if i == j then 1.0 else 0.0))
  }

  // ---------------------------------------------------------------------
  // Specifications.

  /** The transpose of a matrix whose rows are all at least as long as its first. */
  function Transposed(A: Matrix): (t: Matrix)
    requires |A| > 0 && Wide(A, |A[0]|)
    ensures Shape(t, |A[0]|, |A|)
    ensures forall i :: 0 <= i < |A[0]| ==> t[i] == Column(A, i)
  {
    seq(|A[0]|, i requires 0 <= i < |A[0]| => Column(A, i))
  }

  /**
   * The product `A·B`: `|A|` rows of `|B[0]|` entries, entry (i, j) the inner
   * product of the first `|B|` entries of row i of `A` with column j of `B`.
   */
  function Product(A: Matrix, B: Matrix): (c: Matrix)
    requires |B| > 0 && Wide(B, |B[0]|) && Wide(A, |B|)
    ensures Shape(c, |A|, |B[0]|)
    ensures forall i, j :: 0 <= i < |A| && 0 <= j < |B[0]| ==> c[i][j] == Dot(A[i][..|B|], Column(B, j))
  {
    seq(|A|, i requires 0 <= i < |A| =>
      seq(|B[0]|, j requires 0 <= j < |B[0]| => Dot(A[i][..|B|], Column(B, j))))
  }

  /** The matrix-vector product `A·x`. */
  function Apply(A: Matrix, x: seq<real>): (r: seq<real>)
    requires Wide(A, |x|)
    ensures |r| == |A|
    ensures forall i :: 0 <= i < |A| ==> r[i] == Dot(A[i][..|x|], x)
  {
    seq(|A|, i requires 0 <= i < |A| => Dot(A[i][..|x|], x))
  }

  // ---------------------------------------------------------------------
  // The Go loops.

  /** `transpose`: fills each row of the result from a column of `A`. */
  method Transpose(A: Matrix) returns (t: Matrix)
    requires |A| > 0 && Wide(A, |A[0]|)
    ensures t == Transposed(A)
  {
    var rows, cols := |A|, |A[0]|;
    t := [];
    var i := 0;
    while i < cols
      invariant 0 <= i <= cols
      invariant t == Transposed(A)[..i]
    {
      var row: seq<real> := [];
      var j := 0;
      while j < rows
        invariant 0 <= j <= rows
        invariant row == Column(A, i)[..j]
      {
        row := row + [A[j][i]];
        j := j + 1;
      }
      assert Column(A, i)[..rows] == Column(A, i);
      t := t + [row];
      i := i + 1;
    }
  }

  /** The inner-product loop of `matMul` and `matVecMul`: Σ_{k < p} u[k]·v[k]. */
  method InnerProduct(u: seq<real>, v: seq<real>, p: nat) returns (sum: real)
    requires p <= |u| && p <= |v|
    ensures sum == Dot(u[..p], v[..p])
  {
    sum := 0.0;
    var k := 0;
    while k < p
      invariant 0 <= k <= p
      invariant sum == Dot(u[..k], v[..k])
    {
      DotStep(u[..p], v[..p], k);
      assert u[..p][..k + 1] == u[..k + 1] && u[..p][..k] == u[..k];
      assert v[..p][..k + 1] == v[..k + 1] && v[..p][..k] == v[..k];
      sum := sum + u[k] * v[k];
      k := k + 1;
    }
  }

  /** `matMul`: entry (i, j) accumulated over k < len(B). */
  method MatMul(A: Matrix, B: Matrix) returns (c: Matrix)
    requires |B| > 0 && Wide(B, |B[0]|) && Wide(A, |B|)
    ensures c == Product(A, B)
  {
    var m, n, p := |A|, |B[0]|, |B|;
    c := [];
    var i := 0;
    while i < m
      invariant 0 <= i <= m
      invariant c == Product(A, B)[..i]
    {
      var row: seq<real> := [];
      var j := 0;
      while j < n
        invariant 0 <= j <= n
        invariant row == Product(A, B)[i][..j]
      {
        var col := Column(B, j);
        var sum := InnerProduct(A[i], col, p);
        assert col[..p] == col;
        row := row + [sum];
        j := j + 1;
      }
      assert Product(A, B)[i][..n] == Product(A, B)[i];
      c := c + [row];
      i := i + 1;
    }
  }

  /** `matVecMul`: entry i accumulated over j < len(x). */
  method MatVecMul(A: Matrix, x: seq<real>) returns (r: seq<real>)
    requires Wide(A, |x|)
    ensures r == Apply(A, x)
  {
    r := [];
    var i := 0;
    while i < |A|
      invariant 0 <= i <= |A|
      invariant r == Apply(A, x)[..i]
    {
      var sum := InnerProduct(A[i], x, |x|);
      assert x[..|x|] == x;
      r := r + [sum];
      i := i + 1;
    }
  }

  // ---------------------------------------------------------------------
  // Algebra of the specifications.

  /** Transposing a rectangular matrix twice gives it back. */
  lemma {:induction false} TransposeInvolution(A: Matrix, r: nat, c: nat)
    requires r > 0 && c > 0 && Shape(A, r, c)
    ensures Transposed(Transposed(A)) == A
  {
    var t := Transposed(Transposed(A));
    forall i | 0 <= i < r
      ensures t[i] == A[i]
    {
      assert |t[i]| == c;
    }
  }

  /** The identity is a left unit of the product. */
  lemma {:induction false} ProductIdentityLeft(B: Matrix, n: nat, m: nat)
    requires n > 0 && Shape(B, n, m)
    ensures Product(Identity(n), B) == B
  {
    var I := Identity(n);
    var P := Product(I, B);
    forall i | 0 <= i < n
      ensures P[i] == B[i]
    {
      forall j | 0 <= j < m
        ensures P[i][j] == B[i][j]
      {
        assert I[i][..n] == I[i];
        DotUnit(I[i], Column(B, j), i);
      }
    }
  }

  /** The identity is a right unit of the product. */
  lemma {:induction false} ProductIdentityRight(A: Matrix, r: nat, n: nat)
    requires n > 0 && Shape(A, r, n)
    ensures Product(A, Identity(n)) == A
  {
    var I := Identity(n);
    var P := Product(A, I);
    forall i | 0 <= i < r
      ensures P[i] == A[i]
    {
      forall j | 0 <= j < n
        ensures P[i][j] == A[i][j]
      {
        assert A[i][..n] == A[i];
        DotSymmetric(A[i], Column(I, j));
        DotUnit(Column(I, j), A[i], j);
      }
    }
  }

  /** The identity leaves every vector unchanged. */
  lemma {:induction false} ApplyIdentity(x: seq<real>)
    ensures Apply(Identity(|x|), x) == x
  {
    var I := Identity(|x|);
    forall i | 0 <= i < |x|
      ensures Apply(I, x)[i] == x[i]
    {
      assert I[i][..|x|] == I[i];
      DotUnit(I[i], x, i);
    }
  }

  /** The Gram matrix `XᵀX` is symmetric. */
  lemma {:induction false} GramSymmetric(X: Matrix)
    requires |X| > 0 && Wide(X, |X[0]|)
    ensures var G := Product(Transposed(X), X);
      forall i, j :: 0 <= i < |X[0]| && 0 <= j < |X[0]| ==> G[i][j] == G[j][i]
  {
    var T := Transposed(X);
    var G := Product(T, X);
    forall i, j | 0 <= i < |X[0]| && 0 <= j < |X[0]|
      ensures G[i][j] == G[j][i]
    {
      assert T[i][..|X|] == Column(X, i);
      assert T[j][..|X|] == Column(X, j);
      DotSymmetric(Column(X, i), Column(X, j));
    }
  }

  /** Row vector `p` times `G`, over the first `q` columns: entry l is `p · column l`. */
  function RowCombination(p: seq<real>, G: Matrix, q: nat): (r: seq<real>)
    requires |p| == |G| && Wide(G, q)
    ensures |r| == q
    ensures forall l :: 0 <= l < q ==> r[l] == Dot(p, Column(G, l))
  {
    seq(q, l requires 0 <= l < q => Dot(p, Column(G, l)))
  }

  /** `p·(G·b) = (p·G)·b`: the two orders of summation agree. */
  lemma {:induction false} DotApply(p: seq<real>, G: Matrix, b: seq<real>)
    requires |p| == |G| && Wide(G, |b|)
    ensures Dot(p, Apply(G, b)) == Dot(RowCombination(p, G, |b|), b)
  {
    if |p| == 0 {
      DotZero(RowCombination(p, G, |b|), b);
    } else {
      DotApply(p[..|p| - 1], G[..|p| - 1], b);
      DotApplyStep(p, G, b);
    }
  }

  /** Peeling the last row of `G` off `p·G`. */
  lemma {:induction false} RowCombinationLast(p: seq<real>, G: Matrix, q: nat)
    requires |p| == |G| > 0 && Wide(G, q)
    ensures forall l :: 0 <= l < q ==>
      RowCombination(p, G, q)[l]
        == RowCombination(p[..|p| - 1], G[..|p| - 1], q)[l] + Scaled(p[|p| - 1], G[|p| - 1][..q][l])
  {
    forall l | 0 <= l < q
      ensures RowCombination(p, G, q)[l]
        == RowCombination(p[..|p| - 1], G[..|p| - 1], q)[l] + Scaled(p[|p| - 1], G[|p| - 1][..q][l])
    {
      assert Column(G, l)[..|p| - 1] == Column(G[..|p| - 1], l);
      DotSplit(p, Column(G, l), Column(G[..|p| - 1], l), G[|p| - 1][..q][l]);
    }
  }

  /** One induction step of `DotApply`. */
  lemma {:induction false} DotApplyStep(p: seq<real>, G: Matrix, b: seq<real>)
    requires |p| == |G| > 0 && Wide(G, |b|)
    requires Dot(p[..|p| - 1], Apply(G[..|p| - 1], b)) == Dot(RowCombination(p[..|p| - 1], G[..|p| - 1], |b|), b)
    ensures Dot(p, Apply(G, b)) == Dot(RowCombination(p, G, |b|), b)
  {
    CombinationSplit(p, G, b);
    ApplicationSplit(p, G, b);
  }

  /** (p·G)·b splits into the first |p| − 1 rows and the last one. */
  lemma {:induction false} CombinationSplit(p: seq<real>, G: Matrix, b: seq<real>)
    requires |p| == |G| > 0 && Wide(G, |b|)
    ensures Dot(RowCombination(p, G, |b|), b)
      == Dot(RowCombination(p[..|p| - 1], G[..|p| - 1], |b|), b) + Scaled(p[|p| - 1], Dot(G[|p| - 1][..|b|], b))
  {
    RowCombinationLast(p, G, |b|);
    DotCombine(RowCombination(p, G, |b|), RowCombination(p[..|p| - 1], G[..|p| - 1], |b|),
      G[|p| - 1][..|b|], b, p[|p| - 1]);
  }

  /** p·(G·b) splits the same way. */
  lemma {:induction false} ApplicationSplit(p: seq<real>, G: Matrix, b: seq<real>)
    requires |p| == |G| > 0 && Wide(G, |b|)
    ensures Dot(p, Apply(G, b))
      == Dot(p[..|p| - 1], Apply(G[..|p| - 1], b)) + Scaled(p[|p| - 1], Dot(G[|p| - 1][..|b|], b))
  {
    ApplyLast(G, b, |p|);
    DotSplit(p, Apply(G, b), Apply(G[..|p| - 1], b), Dot(G[|p| - 1][..|b|], b));
  }

  /** G·b is G[..m − 1]·b followed by the last row's product with b. */
  lemma {:induction false} ApplyLast(G: Matrix, b: seq<real>, m: nat)
    requires |G| == m > 0 && Wide(G, |b|)
    ensures Apply(G, b)[..m - 1] == Apply(G[..m - 1], b)
    ensures Apply(G, b)[m - 1] == Dot(G[m - 1][..|b|], b)
  {
  }

  /** `P·(G·b) = (P·G)·b`. */
  lemma {:induction false} ApplyProduct(P: Matrix, G: Matrix, b: seq<real>, k: nat, m: nat)
    requires m > 0 && Shape(P, k, m) && Shape(G, m, |b|)
    ensures Apply(P, Apply(G, b)) == Apply(Product(P, G), b)
  {
    var left, right := Apply(P, Apply(G, b)), Apply(Product(P, G), b);
    forall i | 0 <= i < k
      ensures left[i] == right[i]
    {
      assert P[i][..m] == P[i];
      DotApply(P[i], G, b);
      assert Product(P, G)[i][..|b|] == RowCombination(P[i], G, |b|);
    }
  }

  /** A matrix sends the zero vector to the zero vector. */
  lemma {:induction false} ApplyZero(A: Matrix, q: nat)
    requires Wide(A, q)
    ensures Apply(A, Zeros(q)) == Zeros(|A|)
  {
    forall i | 0 <= i < |A|
      ensures Apply(A, Zeros(q))[i] == 0.0
    {
      DotSymmetric(A[i][..q], Zeros(q));
      DotZero(Zeros(q), A[i][..q]);
    }
  }

  // ---------------------------------------------------------------------
  // 3×3 products written out, for worked examples.

  /** Applying a 3×3 matrix, written out row by row. */
  lemma {:induction false} Apply3(A: Matrix, x: seq<real>)
    requires Shape(A, 3, 3) && |x| == 3
    ensures Apply(A, x) == [Dot(A[0], x), Dot(A[1], x), Dot(A[2], x)]
  {
    assert A[0][..3] == A[0] && A[1][..3] == A[1] && A[2][..3] == A[2];
  }

  /** A row of a 3×3 product, written out entry by entry. */
  lemma {:induction false} Product3Row(A: Matrix, B: Matrix, i: nat)
    requires Shape(A, 3, 3) && Shape(B, 3, 3) && i < 3
    ensures Product(A, B)[i] == [
      A[i][0] * B[0][0] + A[i][1] * B[1][0] + A[i][2] * B[2][0],
      A[i][0] * B[0][1] + A[i][1] * B[1][1] + A[i][2] * B[2][1],
      A[i][0] * B[0][2] + A[i][1] * B[1][2] + A[i][2] * B[2][2]]
  {
    Product3Entry(A, B, i, 0);
    Product3Entry(A, B, i, 1);
    Product3Entry(A, B, i, 2);
    var P := Product(A, B);
    var r := [
      A[i][0] * B[0][0] + A[i][1] * B[1][0] + A[i][2] * B[2][0],
      A[i][0] * B[0][1] + A[i][1] * B[1][1] + A[i][2] * B[2][1],
      A[i][0] * B[0][2] + A[i][1] * B[1][2] + A[i][2] * B[2][2]];
    assert |P[i]| == |r|;
    assert forall k :: 0 <= k < 3 ==> P[i][k] == r[k];
  }

  /** One entry of a 3×3 product, written out. */
  lemma {:induction false} Product3Entry(A: Matrix, B: Matrix, i: nat, j: nat)
    requires Shape(A, 3, 3) && Shape(B, 3, 3) && i < 3 && j < 3
    ensures Product(A, B)[i][j] == A[i][0] * B[0][j] + A[i][1] * B[1][j] + A[i][2] * B[2][j]
  {
    assert A[i][..3] == A[i];
    Dot3Entries(A[i], Column(B, j), B[0][j], B[1][j], B[2][j]);
  }

  /** `Dot3` with the entries of the second vector named. */
  lemma {:induction false} Dot3Entries(u: seq<real>, v: seq<real>, v0: real, v1: real, v2: real)
    requires |u| == |v| == 3 && v[0] == v0 && v[1] == v1 && v[2] == v2
    ensures Dot(u, v) == u[0] * v0 + u[1] * v1 + u[2] * v2
  {
    Dot3(u, v);
  }
}
