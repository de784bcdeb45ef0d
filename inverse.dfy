/**
 * `matInverse`: Gauss-Jordan elimination on the augmented matrix `[A | I]`,
 * without row exchanges, giving up with "matrix is singular" as soon as the
 * pivot on the diagonal is exactly zero.
 *
 * `Eliminate` is the elimination as a function on values; `MatInverse`
 * performs it in place on a two-dimensional array, as the Go code does, and
 * is proved to compute `Inverse`. `InverseIsLeftInverse` proves that a
 * successful result `R` satisfies `R·A = I`.
 */
module GaussJordan {
  import opened Sums
  import opened Matrices
  import opened Outcomes

  // ---------------------------------------------------------------------
  // The elimination on values.

  /** `[A | I]`: the first `n` entries of each row of `A`, then row i of the identity. */
  function Augment(A: Matrix, n: nat): (M: Matrix)
    requires |A| == n && Wide(A, n)
    ensures Shape(M, n, 2 * n)
    ensures forall i, j :: 0 <= i < n && 0 <= j < n ==> M[i][j] == A[i][j]
    ensures forall i, j :: 0 <= i < n && n <= j < 2 * n ==> M[i][j] == if j == n + i then 1.0 else 0.0
  {
    seq(n, i requires 0 <= i < n =>
      seq(2 * n, j requires 0 <= j < 2 * n => if j < n then A[i][j] else if j == n + i then 1.0 else 0.0))
  }

  /** A row divided by the pivot `p`. */
  function ScaleRow(row: seq<real>, p: real): (r: seq<real>)
    requires p != 0.0
    ensures |r| == |row|
    ensures forall j :: 0 <= j < |row| ==> r[j] == row[j] / p
  {
    seq(|row|, j requires 0 <= j < |row| => row[j] / p)
  }

  /** `row − f·pivotRow`. */
  function SubtractRow(row: seq<real>, f: real, pivotRow: seq<real>): (r: seq<real>)
    requires |row| == |pivotRow|
    ensures |r| == |row|
    ensures forall j :: 0 <= j < |row| ==> r[j] == row[j] - f * pivotRow[j]
  {
    seq(|row|, j requires 0 <= j < |row| => row[j] - f * pivotRow[j])
  }

  /**
   * Step `i` of the elimination: row i is divided by its diagonal entry, then
   * every other row k loses `M[k][i]` times the new row i.
   */
  function PivotStep(M: Matrix, i: nat, n: nat): (M': Matrix)
    requires Shape(M, n, 2 * n) && i < n && M[i][i] != 0.0
    ensures Shape(M', n, 2 * n)
    ensures M'[i] == ScaleRow(M[i], M[i][i])
    ensures forall k :: 0 <= k < n && k != i ==> M'[k] == SubtractRow(M[k], M[k][i], M'[i])
  {
    var P := ScaleRow(M[i], M[i][i]);
    seq(n, k requires 0 <= k < n => if k == i then P else SubtractRow(M[k], M[k][i], P))
  }

  /** Steps `i`, `i + 1`, …, `n − 1`, failing at the first zero pivot. */
  function Eliminate(M: Matrix, i: nat, n: nat): (r: Result<Matrix>)
    requires Shape(M, n, 2 * n) && i <= n
    ensures r.Ok? ==> Shape(r.value, n, 2 * n)
    ensures r.Err? ==> r.msg == Singular
    decreases n - i
  {
    if i == n then Ok(M)
    else if M[i][i] == 0.0 then Err(Singular)
    else Eliminate(PivotStep(M, i, n), i + 1, n)
  }

  /** The right-hand `n` columns of an n×2n matrix. */
  function RightBlock(M: Matrix, n: nat): (R: Matrix)
    requires Shape(M, n, 2 * n)
    ensures Shape(R, n, n)
    ensures forall i :: 0 <= i < n ==> R[i] == M[i][n..]
  {
    seq(n, i requires 0 <= i < n => M[i][n..])
  }

  /** What `matInverse` returns for a matrix of `len(A)` rows. */
  function Inverse(A: Matrix): (r: Result<Matrix>)
    requires Wide(A, |A|)
    ensures r.Ok? ==> Shape(r.value, |A|, |A|)
    ensures r.Err? ==> r.msg == Singular
  {
    var n := |A|;
    match Eliminate(Augment(A, n), 0, n)
    case Ok(M) => Ok(RightBlock(M, n))
    case Err(e) => Err(e)
  }

  // ---------------------------------------------------------------------
  // The Go function, in place on an array.

  /** The contents of a two-dimensional array as a matrix of rows. */
  function Grid(a: array2<real>): (M: Matrix)
    reads a
    ensures Shape(M, a.Length0, a.Length1)
    ensures forall i, j :: 0 <= i < a.Length0 && 0 <= j < a.Length1 ==> M[i][j] == a[i, j]
  {
    seq(a.Length0, i requires 0 <= i < a.Length0 reads a =>
      seq(a.Length1, j requires 0 <= j < a.Length1 reads a => a[i, j]))
  }

  /** `aug[i][j] /= pivot` for every column j of row i. */
  method ScaleRowInPlace(a: array2<real>, i: nat, p: real)
    requires i < a.Length0 && p != 0.0
    modifies a
    ensures Grid(a) == old(Grid(a))[i := ScaleRow(old(Grid(a))[i], p)]
  {
    ghost var G := Grid(a);
    var j := 0;
    while j < a.Length1
      invariant 0 <= j <= a.Length1
      invariant forall r, c :: 0 <= r < a.Length0 && 0 <= c < a.Length1 ==>
        a[r, c] == if r == i && c < j then G[r][c] / p else G[r][c]
    {
      a[i, j] := a[i, j] / p;
      j := j + 1;
    }
    assert forall r :: 0 <= r < a.Length0 ==> Grid(a)[r] == G[i := ScaleRow(G[i], p)][r];
  }

  /** `aug[k][j] -= factor * aug[i][j]` for every column j, with `k != i`. */
  method SubtractRowInPlace(a: array2<real>, k: nat, f: real, i: nat)
    requires k < a.Length0 && i < a.Length0 && k != i
    modifies a
    ensures Grid(a) == old(Grid(a))[k := SubtractRow(old(Grid(a))[k], f, old(Grid(a))[i])]
  {
    ghost var G := Grid(a);
    var j := 0;
    while j < a.Length1
      invariant 0 <= j <= a.Length1
      invariant forall r, c :: 0 <= r < a.Length0 && 0 <= c < a.Length1 ==>
        a[r, c] == if r == k && c < j then G[r][c] - f * G[i][c] else G[r][c]
    {
      a[k, j] := a[k, j] - f * a[i, j];
      j := j + 1;
    }
    var row := SubtractRow(G[k], f, G[i]);
    forall r | 0 <= r < a.Length0
      ensures Grid(a)[r] == G[k := row][r]
    {
      if r == k {
        assert forall c :: 0 <= c < a.Length1 ==> Grid(a)[k][c] == row[c];
      }
    }
  }

  /** The first loop of `matInverse`: a zeroed n×2n array filled with `[A | I]`. */
  method NewAugmented(A: Matrix) returns (aug: array2<real>)
    requires Wide(A, |A|)
    ensures fresh(aug) && aug.Length0 == |A| && aug.Length1 == 2 * |A|
    ensures Grid(aug) == Augment(A, |A|)
  {
    var n := |A|;
    aug := new real[n, 2 * n]((_, _) => 0.0);
    var i := 0;
    while i < n
      invariant 0 <= i <= n
      invariant forall r, c :: 0 <= r < n && 0 <= c < 2 * n ==>
        aug[r, c] == if r < i then Augment(A, n)[r][c] else 0.0
    {
      var j := 0;
      while j < n
        invariant 0 <= j <= n
        invariant forall r, c :: 0 <= r < n && 0 <= c < 2 * n ==>
          aug[r, c] == if r < i || (r == i && c < j) then Augment(A, n)[r][c] else 0.0
      {
        aug[i, j] := A[i][j];
        j := j + 1;
      }
      aug[i, n + i] := 1.0;
      i := i + 1;
    }
    assert forall r :: 0 <= r < n ==> Grid(aug)[r] == Augment(A, n)[r];
  }

  /** Steps 0, 1, …, n − 1 of the elimination, in place. */
  method EliminateInPlace(aug: array2<real>, n: nat) returns (ok: bool)
    requires aug.Length0 == n && aug.Length1 == 2 * n
    modifies aug
    ensures ok <==> Eliminate(old(Grid(aug)), 0, n).Ok?
    ensures ok ==> Eliminate(old(Grid(aug)), 0, n) == Ok(Grid(aug))
  {
    var i := 0;
    while i < n
      invariant 0 <= i <= n
      invariant Eliminate(Grid(aug), i, n) == Eliminate(old(Grid(aug)), 0, n)
      invariant Reduced(Grid(aug), n, i)
    {
      var pivot := aug[i, i];
      if pivot == 0.0 {
        return false;
      }
      ghost var G := Grid(aug);
      ScaleRowInPlace(aug, i, pivot);
      var k := 0;
      while k < n
        invariant 0 <= k <= n
        invariant forall r :: 0 <= r < n ==>
          Grid(aug)[r] == if r == i || r < k then PivotStep(G, i, n)[r] else G[r]
      {
        if k != i {
          var factor := aug[k, i];
          SubtractRowInPlace(aug, k, factor, i);
        }
        k := k + 1;
      }
      assert Grid(aug) == PivotStep(G, i, n);
      PivotStepReduced(G, n, i);
      i := i + 1;
    }
    return true;
  }

  /** The last loop of `matInverse`: copies out the right-hand block. */
  method ExtractRight(aug: array2<real>, n: nat) returns (inv: Matrix)
    requires aug.Length0 == n && aug.Length1 == 2 * n
    ensures inv == RightBlock(Grid(aug), n)
  {
    inv := [];
    var i := 0;
    while i < n
      invariant 0 <= i <= n
      invariant inv == RightBlock(Grid(aug), n)[..i]
    {
      var row: seq<real> := [];
      var j := 0;
      while j < n
        invariant 0 <= j <= n
        invariant row == Grid(aug)[i][n..][..j]
      {
        row := row + [aug[i, j + n]];
        j := j + 1;
      }
      assert Grid(aug)[i][n..][..n] == Grid(aug)[i][n..];
      inv := inv + [row];
      i := i + 1;
    }
  }

  /** `matInverse`, computing `Inverse(A)`. */
  method MatInverse(A: Matrix) returns (r: Result<Matrix>)
    requires Wide(A, |A|)
    ensures r == Inverse(A)
  {
    var n := |A|;
    var aug := NewAugmented(A);
    var ok := EliminateInPlace(aug, n);
    if !ok {
      return Err(Singular);
    }
    var inv := ExtractRight(aug, n);
    return Ok(inv);
  }

  // ---------------------------------------------------------------------
  // What the elimination establishes.

  /** Columns `0 .. i − 1` of the left block are unit vectors: column c is e_c. */
  predicate Reduced(M: Matrix, n: nat, i: nat)
    requires Shape(M, n, 2 * n) && i <= n
  {
    forall r, c :: 0 <= r < n && 0 <= c < i ==> M[r][c] == if r == c then 1.0 else 0.0
  }

  /**
   * Every row `[L | R]` of `M` satisfies `R·A = L`: the right-hand block
   * records which combination of the rows of `A` the left-hand block holds.
   */
  predicate Tracks(M: Matrix, A: Matrix, n: nat)
    requires Shape(M, n, 2 * n) && |A| == n && Wide(A, n)
  {
    forall r, c :: 0 <= r < n && 0 <= c < n ==> Dot(M[r][n..], Column(A, c)) == M[r][c]
  }

  lemma {:induction false} DivIsScale(x: real, p: real)
    requires p != 0.0
    ensures x / p == (1.0 / p) * x
  {
  }

  lemma {:induction false} DivSelf(p: real)
    requires p != 0.0
    ensures p / p == 1.0
  {
  }

  /** Scaling every entry scales the inner product. */
  lemma {:induction false} DotScale(s: seq<real>, u: seq<real>, v: seq<real>, a: real)
    requires |s| == |u| == |v|
    requires forall j :: 0 <= j < |s| ==> s[j] == a * u[j]
    ensures Dot(s, v) == a * Dot(u, v)
  {
    DotLinear(s, u, u, v, a, 0.0);
  }

  /** `[A | I]` tracks `A`: row i of the identity picks out row i of `A`. */
  lemma {:induction false} AugmentTracks(A: Matrix, n: nat)
    requires |A| == n && Wide(A, n)
    ensures Tracks(Augment(A, n), A, n)
  {
    var M := Augment(A, n);
    forall r, c | 0 <= r < n && 0 <= c < n
      ensures Dot(M[r][n..], Column(A, c)) == M[r][c]
    {
      DotUnit(M[r][n..], Column(A, c), r);
    }
  }

  /** Dividing every entry by `p` divides the inner product by `p`. */
  lemma {:induction false} DotDivide(s: seq<real>, u: seq<real>, v: seq<real>, p: real)
    requires |s| == |u| == |v| && p != 0.0
    requires forall j :: 0 <= j < |s| ==> s[j] == u[j] / p
    ensures Dot(s, v) == Dot(u, v) / p
  {
    forall j | 0 <= j < |s|
      ensures s[j] == (1.0 / p) * u[j]
    {
      DivIsScale(u[j], p);
    }
    DotScale(s, u, v, 1.0 / p);
    DivIsScale(Dot(u, v), p);
  }

  /** Dividing a tracking row by the pivot keeps it tracking. */
  lemma {:induction false} ScaledRowTracks(row: seq<real>, p: real, col: seq<real>, c: nat, n: nat)
    requires |row| == 2 * n && c < n && |col| == n && p != 0.0
    requires Dot(row[n..], col) == row[c]
    ensures Dot(ScaleRow(row, p)[n..], col) == ScaleRow(row, p)[c]
  {
    var P := ScaleRow(row, p);
    DotDivide(P[n..], row[n..], col, p);
  }

  lemma {:induction false} SubtractIsCombination(a: real, f: real, b: real)
    ensures a - f * b == 1.0 * a + (-f) * b
  {
  }

  /** Subtracting `f` times one sequence subtracts `f` times its inner product. */
  lemma {:induction false} DotSubtract(s: seq<real>, u: seq<real>, w: seq<real>, v: seq<real>, f: real)
    requires |s| == |u| == |w| == |v|
    requires forall j :: 0 <= j < |s| ==> s[j] == u[j] - f * w[j]
    ensures Dot(s, v) == Dot(u, v) - f * Dot(w, v)
  {
    forall j | 0 <= j < |s|
      ensures s[j] == 1.0 * u[j] + (-f) * w[j]
    {
      SubtractIsCombination(u[j], f, w[j]);
    }
    DotLinear(s, u, w, v, 1.0, -f);
    SubtractIsCombination(Dot(u, v), f, Dot(w, v));
  }

  /** Subtracting a multiple of a tracking row from a tracking row keeps it tracking. */
  lemma {:induction false} SubtractedRowTracks(row: seq<real>, f: real, prow: seq<real>, col: seq<real>, c: nat, n: nat)
    requires |row| == |prow| == 2 * n && c < n && |col| == n
    requires Dot(row[n..], col) == row[c] && Dot(prow[n..], col) == prow[c]
    ensures Dot(SubtractRow(row, f, prow)[n..], col) == SubtractRow(row, f, prow)[c]
  {
    var Q := SubtractRow(row, f, prow);
    var q, u, w := Q[n..], row[n..], prow[n..];
    assert forall j :: 0 <= j < n ==> q[j] == u[j] - f * w[j];
    DotSubtract(q, u, w, col, f);
  }

  /** A pivot step keeps every row tracking `A`. */
  lemma {:induction false} PivotStepTracks(M: Matrix, A: Matrix, n: nat, i: nat)
    requires Shape(M, n, 2 * n) && |A| == n && Wide(A, n) && i < n && M[i][i] != 0.0
    requires Tracks(M, A, n)
    ensures Tracks(PivotStep(M, i, n), A, n)
  {
    var M' := PivotStep(M, i, n);
    forall r, c | 0 <= r < n && 0 <= c < n
      ensures Dot(M'[r][n..], Column(A, c)) == M'[r][c]
    {
      ScaledRowTracks(M[i], M[i][i], Column(A, c), c, n);
      if r != i {
        SubtractedRowTracks(M[r], M[r][i], M'[i], Column(A, c), c, n);
      }
    }
  }

  lemma {:induction false} ZeroDiv(p: real)
    requires p != 0.0
    ensures 0.0 / p == 0.0
  {
  }

  /** A pivot step at column i turns column i into e_i and keeps columns below i. */
  lemma {:induction false} PivotStepReduced(M: Matrix, n: nat, i: nat)
    requires Shape(M, n, 2 * n) && i < n && M[i][i] != 0.0
    requires Reduced(M, n, i)
    ensures Reduced(PivotStep(M, i, n), n, i + 1)
  {
    var M' := PivotStep(M, i, n);
    var p := M[i][i];
    DivSelf(p);
    ZeroDiv(p);
    assert M'[i][i] == 1.0;
    assert forall c :: 0 <= c < i ==> M'[i][c] == 0.0;
    forall r, c | 0 <= r < n && 0 <= c < i + 1 && r != i
      ensures M'[r][c] == if r == c then 1.0 else 0.0
    {
      assert M'[r][c] == M[r][c] - M[r][i] * M'[i][c];
    }
  }

  /** A successful elimination from step i ends with `[I | R]` and `R·A = I` row by row. */
  lemma {:induction false} EliminateSound(M: Matrix, A: Matrix, n: nat, i: nat)
    requires Shape(M, n, 2 * n) && |A| == n && Wide(A, n) && i <= n
    requires Tracks(M, A, n) && Reduced(M, n, i)
    requires Eliminate(M, i, n).Ok?
    ensures Tracks(Eliminate(M, i, n).value, A, n)
    ensures Reduced(Eliminate(M, i, n).value, n, n)
    decreases n - i
  {
    if i < n {
      PivotStepTracks(M, A, n, i);
      PivotStepReduced(M, n, i);
      EliminateSound(PivotStep(M, i, n), A, n, i + 1);
    }
  }

  /** When `matInverse` succeeds on an n×n matrix, its result `R` satisfies `R·A = I`. */
  lemma {:induction false} InverseIsLeftInverse(A: Matrix, n: nat)
    requires n > 0 && Shape(A, n, n)
    requires Inverse(A).Ok?
    ensures Product(Inverse(A).value, A) == Identity(n)
  {
    AugmentTracks(A, n);
    var F := Eliminate(Augment(A, n), 0, n).value;
    EliminateSound(Augment(A, n), A, n, 0);
    var R := Inverse(A).value;
    var P := Product(R, A);
    var I := Identity(n);
    forall r | 0 <= r < n
      ensures P[r] == I[r]
    {
      forall c | 0 <= c < n
        ensures P[r][c] == I[r][c]
      {
        assert R[r][..n] == F[r][n..];
      }
    }
  }

  /** `[[1, 2], [2, 4]]` is reported singular: the second pivot is zero. */
  lemma {:induction false} SingularExample()
    ensures Inverse([[1.0, 2.0], [2.0, 4.0]]) == Err(Singular)
  {
    var A := [[1.0, 2.0], [2.0, 4.0]];
    var M0 := Augment(A, 2);
    assert M0[0][0] == 1.0 && M0[0][1] == 2.0 && M0[1][0] == 2.0 && M0[1][1] == 4.0;
    var M1 := PivotStep(M0, 0, 2);
    assert M1[1][1] == 0.0;
  }

  /**
   * Without row exchanges, an invertible matrix whose top-left entry is zero
   * is reported singular: the permutation `[[0, 1], [1, 0]]` is its own inverse.
   */
  lemma {:induction false} NoRowExchange()
    ensures var S := [[0.0, 1.0], [1.0, 0.0]];
      Product(S, S) == Identity(2) && Inverse(S) == Err(Singular)
  {
    var S := [[0.0, 1.0], [1.0, 0.0]];
    var P := Product(S, S);
    var I := Identity(2);
    forall r | 0 <= r < 2
      ensures P[r] == I[r]
    {
      forall c | 0 <= c < 2
        ensures P[r][c] == I[r][c]
      {
        var col := Column(S, c);
        assert S[r][..2] == S[r];
        DotLast(S[r], col);
        DotLast(S[r][..1], col[..1]);
        assert S[r][..1][..0] == [] && col[..1][..0] == [];
      }
    }
    assert Augment(S, 2)[0][0] == 0.0;
  }

  /**
   * When the elimination succeeds, the inverse solves A b = c: any `b`
   * with A b = c is recovered as inv · c, so the solution is unique.
   */
  lemma {:induction false} SolveUnique(A: Matrix, n: nat, b: seq<real>, c: seq<real>)
    requires n > 0 && Shape(A, n, n) && Inverse(A).Ok?
    requires |b| == n && Apply(A, b) == c
    ensures Apply(Inverse(A).value, c) == b
  {
    InverseIsLeftInverse(A, n);
    ApplyProduct(Inverse(A).value, A, b, n, n);
    ApplyIdentity(b);
  }
}
