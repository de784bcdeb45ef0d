/**
 * Centring of a response vector and of the columns of a feature matrix, as
 * the ridge and lasso solvers do before fitting: each column mean is the
 * column total divided by the row count, and every entry loses its column's
 * mean.
 */
module Centering {
  import opened Sums
  import opened Matrices

  /** The mean of each of the first `p` columns of `X`. */
  function ColumnMeans(X: Matrix, p: nat): (means: seq<real>)
    requires |X| > 0 && Wide(X, p)
    ensures |means| == p
    ensures forall j :: 0 <= j < p ==> means[j] == Average(Column(X, j))
  {
    seq(p, j requires 0 <= j < p => Average(Column(X, j)))
  }

  /** Row i of the result is the first `|means|` entries of `X[i]`, less the means. */
  function Centered(X: Matrix, means: seq<real>): (C: Matrix)
    requires Wide(X, |means|)
    ensures Shape(C, |X|, |means|)
    ensures forall i, j :: 0 <= i < |X| && 0 <= j < |means| ==> C[i][j] == X[i][j] - means[j]
  {
    seq(|X|, i requires 0 <= i < |X| => seq(|means|, j requires 0 <= j < |means| => X[i][j] - means[j]))
  }

  /** The sum loop shared by the centring code: Σ v[i] from the left. */
  method Total(v: seq<real>) returns (sum: real)
    ensures sum == Sum(v)
  {
    sum := 0.0;
    var i := 0;
    while i < |v|
      invariant 0 <= i <= |v|
      invariant sum == Sum(v[..i])
    {
      SumStep(v, i);
      sum := sum + v[i];
      i := i + 1;
    }
    assert v[..|v|] == v;
  }

  /** `centerVector`: the mean of `v` and `v` with the mean subtracted. */
  method CenterVector(v: seq<real>) returns (centered: seq<real>, mean: real)
    requires |v| > 0
    ensures mean == Average(v)
    ensures centered == Shift(v, mean)
  {
    var sum := Total(v);
    mean := sum / |v| as real;
    centered := [];
    var i := 0;
    while i < |v|
      invariant 0 <= i <= |v|
      invariant centered == Shift(v, mean)[..i]
    {
      centered := centered + [v[i] - mean];
      i := i + 1;
    }
  }

  /** The first loop of `centerColumns`: each column total divided by the row count. */
  method ColumnMeansLoop(X: Matrix, p: nat) returns (means: seq<real>)
    requires |X| > 0 && Wide(X, p)
    ensures means == ColumnMeans(X, p)
  {
    means := [];
    var j := 0;
    while j < p
      invariant 0 <= j <= p
      invariant means == ColumnMeans(X, p)[..j]
    {
      var sum := Total(Column(X, j));
      means := means + [sum / |X| as real];
      j := j + 1;
    }
  }

  /** The second loop of `centerColumns`: each entry less its column's mean. */
  method CenterLoop(X: Matrix, means: seq<real>) returns (XC: Matrix)
    requires Wide(X, |means|)
    ensures XC == Centered(X, means)
  {
    var p := |means|;
    XC := [];
    var i := 0;
    while i < |X|
      invariant 0 <= i <= |X|
      invariant XC == Centered(X, means)[..i]
    {
      var row: seq<real> := [];
      var j := 0;
      while j < p
        invariant 0 <= j <= p
        invariant row == Centered(X, means)[i][..j]
      {
        row := row + [X[i][j] - means[j]];
        j := j + 1;
      }
      assert Centered(X, means)[i][..p] == Centered(X, means)[i];
      XC := XC + [row];
      i := i + 1;
    }
  }

  /** `centerColumns`: the column means of `X` and `X` with each column centred. */
  method CenterColumns(X: Matrix) returns (XC: Matrix, means: seq<real>)
    requires |X| > 0 && Wide(X, |X[0]|)
    ensures means == ColumnMeans(X, |X[0]|)
    ensures XC == Centered(X, means)
  {
    means := ColumnMeansLoop(X, |X[0]|);
    XC := CenterLoop(X, means);
  }

  // ---------------------------------------------------------------------
  // Centred data sums to zero.

  /** Shifting every element by `c` shifts the sum by `|s|·c`. */
  lemma {:induction false} ShiftSum(s: seq<real>, c: real)
    ensures Sum(Shift(s, c)) == Deviations(s, c)
  {
    if |s| > 0 {
      ShiftSum(s[..|s| - 1], c);
      assert Shift(s, c)[..|s| - 1] == Shift(s[..|s| - 1], c);
    }
  }

  /** A vector centred on its mean sums to zero. */
  lemma {:induction false} CenteredVectorSum(v: seq<real>)
    requires |v| > 0
    ensures Sum(Shift(v, Average(v))) == 0.0
  {
    ShiftSum(v, Average(v));
    DeviationsFromMean(v);
  }

  /** Every column of a matrix centred on its column means sums to zero. */
  lemma {:induction false} CenteredColumnsSum(X: Matrix, p: nat, j: nat)
    requires |X| > 0 && Wide(X, p) && j < p
    ensures Sum(Column(Centered(X, ColumnMeans(X, p)), j)) == 0.0
  {
    var C := Centered(X, ColumnMeans(X, p));
    assert Column(C, j) == Shift(Column(X, j), Average(Column(X, j)));
    CenteredVectorSum(Column(X, j));
  }
}
