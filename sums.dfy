/**
 * Finite sums over sequences of reals, accumulated from the left exactly as the
 * source's `for` loops accumulate them, and the algebra the proofs need:
 * linearity, the effect of shifting every element by a constant, and the
 * sign of a sum of squares.
 */
module Sums {

  /** The sum of the elements of `s`, added left to right. */
  function Sum(s: seq<real>): real
  {
    if |s| == 0 then 0.0 else Sum(s[..|s| - 1]) + s[|s| - 1]
  }

  /** The inner product of two sequences of equal length. */
  function Dot(u: seq<real>, v: seq<real>): real
    requires |u| == |v|
  {
    if |u| == 0 then 0.0 else Dot(u[..|u| - 1], v[..|u| - 1]) + u[|u| - 1] * v[|u| - 1]
  }

  /** `s` with `c` subtracted from every element. */
  function Shift(s: seq<real>, c: real): (r: seq<real>)
    ensures |r| == |s|
    ensures forall i :: 0 <= i < |s| ==> r[i] == s[i] - c
  {
    seq(|s|, i requires 0 <= i < |s| => s[i] - c)
  }

  /** The element-wise difference `u - v`. */
  function Diff(u: seq<real>, v: seq<real>): (r: seq<real>)
    requires |u| == |v|
    ensures |r| == |u|
    ensures forall i :: 0 <= i < |u| ==> r[i] == u[i] - v[i]
  {
    seq(|u|, i requires 0 <= i < |u| => u[i] - v[i])
  }

  /** The mean of a sequence; 0 for the empty one. */
  function Average(s: seq<real>): real
  {
    if |s| == 0 then 0.0 else Sum(s) / |s| as real
  }

  /** n times the mean is the sum. */
  lemma {:induction false} AverageTimes(s: seq<real>)
    ensures |s| as real * Average(s) == Sum(s)
  {
    if |s| > 0 {
      DivMul(Sum(s), |s| as real);
    }
  }

  /** Every element of `s` has the same value. */
  predicate AllEqual(s: seq<real>)
  {
    forall i, j :: 0 <= i < |s| && 0 <= j < |s| ==> s[i] == s[j]
  }

  // ---------------------------------------------------------------------
  // One more loop iteration: the sum of a prefix one element longer.

  lemma {:induction false} SumStep(s: seq<real>, i: nat)
    requires i < |s|
    ensures Sum(s[..i + 1]) == Sum(s[..i]) + s[i]
  {
    assert s[..i + 1][..i] == s[..i];
  }

  lemma {:induction false} DotStep(u: seq<real>, v: seq<real>, i: nat)
    requires |u| == |v| && i < |u|
    ensures Dot(u[..i + 1], v[..i + 1]) == Dot(u[..i], v[..i]) + u[i] * v[i]
  {
    assert u[..i + 1][..i] == u[..i];
    assert v[..i + 1][..i] == v[..i];
  }

  // ---------------------------------------------------------------------
  // Linearity.

  /** The sum of a line's values a·u[i] + c is a·Σu + n·c. */
  lemma {:induction false} SumLine(s: seq<real>, u: seq<real>, a: real, c: real)
    requires |s| == |u|
    requires forall i :: 0 <= i < |s| ==> s[i] == Scaled(a, u[i]) + c
    ensures Sum(s) == Scaled(a, Sum(u)) + Scaled(|s| as real, c)
  {
    if |s| > 0 {
      SumLine(s[..|s| - 1], u[..|s| - 1], a, c);
      ScaledAdd(a, Sum(u[..|s| - 1]), u[|s| - 1]);
      ScaledSucc((|s| - 1) as real, c);
    }
  }

  /** a·(x + y) = a·x + a·y. */
  lemma {:induction false} ScaledAdd(a: real, x: real, y: real)
    ensures Scaled(a, x + y) == Scaled(a, x) + Scaled(a, y)
  {
  }

  /** (k + 1)·c = k·c + c. */
  lemma {:induction false} ScaledSucc(k: real, c: real)
    ensures Scaled(k + 1.0, c) == Scaled(k, c) + c
  {
  }

  /** Adding two sequences cell by cell adds their sums. */
  lemma {:induction false} SumPointwise(s: seq<real>, u: seq<real>, w: seq<real>)
    requires |s| == |u| == |w|
    requires forall i :: 0 <= i < |s| ==> s[i] == u[i] + w[i]
    ensures Sum(s) == Sum(u) + Sum(w)
  {
    if |s| > 0 {
      var n := |s| - 1;
      SumPointwise(s[..n], u[..n], w[..n]);
    }
  }

  /** The inner product is linear in its first argument. */
  lemma {:induction false} DotLinear(s: seq<real>, u: seq<real>, w: seq<real>, v: seq<real>, a: real, b: real)
    requires |s| == |u| == |w| == |v|
    requires forall i :: 0 <= i < |s| ==> s[i] == a * u[i] + b * w[i]
    ensures Dot(s, v) == a * Dot(u, v) + b * Dot(w, v)
  {
    if |s| > 0 {
      var n := |s| - 1;
      DotLinear(s[..n], u[..n], w[..n], v[..n], a, b);
      DotLinearUnfold(s, u, w, v, a, b);
    }
  }

  lemma {:induction false} DotLinearUnfold(s: seq<real>, u: seq<real>, w: seq<real>, v: seq<real>, a: real, b: real)
    requires |s| == |u| == |w| == |v| > 0
    requires s[|s| - 1] == a * u[|s| - 1] + b * w[|s| - 1]
    requires Dot(s[..|s| - 1], v[..|s| - 1]) == a * Dot(u[..|s| - 1], v[..|s| - 1]) + b * Dot(w[..|s| - 1], v[..|s| - 1])
    ensures Dot(s, v) == a * Dot(u, v) + b * Dot(w, v)
  {
    var n := |s| - 1;
    DotLast(s, v);
    DotLast(u, v);
    DotLast(w, v);
    LinearStep(Dot(s, v), Dot(s[..n], v[..n]), Dot(u, v), Dot(u[..n], v[..n]),
               Dot(w, v), Dot(w[..n], v[..n]), s[n], u[n], w[n], v[n], a, b);
  }

  /** The arithmetic of one induction step of `DotLinear`. */
  /** The inner product is linear in its first argument: ⟨r − t c, v⟩ = ⟨r, v⟩ − t⟨c, v⟩. */
  lemma {:induction false} DotLinearMinus(s: seq<real>, r: seq<real>, c: seq<real>, v: seq<real>, t: real)
    requires |s| == |r| == |c| == |v|
    requires forall i :: 0 <= i < |s| ==> s[i] == r[i] - t * c[i]
    ensures Dot(s, v) == Dot(r, v) - Scaled(t, Dot(c, v))
  {
    forall i | 0 <= i < |s|
      ensures s[i] == 1.0 * r[i] + -t * c[i]
    {
    }
    DotLinear(s, r, c, v, 1.0, -t);
  }

  /** The same linearity in the second argument: ⟨v, r − t c⟩ = ⟨v, r⟩ − t⟨c, v⟩. */
  lemma {:induction false} DotLinearMinusRight(s: seq<real>, r: seq<real>, c: seq<real>, v: seq<real>, t: real)
    requires |s| == |r| == |c| == |v|
    requires forall i :: 0 <= i < |s| ==> s[i] == r[i] - t * c[i]
    ensures Dot(v, s) == Dot(v, r) - Scaled(t, Dot(c, v))
  {
    DotLinearMinus(s, r, c, v, t);
    DotSymmetric(v, s);
    DotSymmetric(v, r);
  }

  lemma {:induction false} LinearStep(d: real, d0: real, du: real, du0: real, dw: real, dw0: real,
                   sn: real, un: real, wn: real, vn: real, a: real, b: real)
    requires d0 == a * du0 + b * dw0 && sn == a * un + b * wn
    requires d == d0 + sn * vn && du == du0 + un * vn && dw == dw0 + wn * vn
    ensures d == a * du + b * dw
  {
  }

  /** The inner product is symmetric. */
  lemma {:induction false} DotSymmetric(u: seq<real>, v: seq<real>)
    requires |u| == |v|
    ensures Dot(u, v) == Dot(v, u)
  {
    if |u| > 0 {
      DotSymmetric(u[..|u| - 1], v[..|u| - 1]);
    }
  }

  /** Against a unit vector, the inner product picks out one entry. */
  lemma {:induction false} DotUnit(e: seq<real>, v: seq<real>, k: nat)
    requires |e| == |v| && k < |e|
    requires forall i :: 0 <= i < |e| ==> e[i] == if i == k then 1.0 else 0.0
    ensures Dot(e, v) == v[k]
  {
    var n := |e| - 1;
    if k < n {
      DotUnit(e[..n], v[..n], k);
    } else {
      DotZero(e[..n], v[..n]);
    }
  }

  lemma {:induction false} DotZero(z: seq<real>, v: seq<real>)
    requires |z| == |v|
    requires forall i :: 0 <= i < |z| ==> z[i] == 0.0
    ensures Dot(z, v) == 0.0
  {
    if |z| > 0 {
      DotZero(z[..|z| - 1], v[..|z| - 1]);
    }
  }

  /** The inner product, peeling off the first terms instead of the last. */
  lemma {:induction false} DotFirst(u: seq<real>, v: seq<real>)
    requires |u| == |v| > 0
    ensures Dot(u, v) == u[0] * v[0] + Dot(u[1..], v[1..])
  {
    var m := |u|;
    if m == 1 {
      assert u[1..] == [] && v[1..] == [];
      DotLast(u, v);
    } else {
      DotFirst(u[..m - 1], v[..m - 1]);
      DotLast(u, v);
      DotLast(u[1..], v[1..]);
      assert u[..m - 1][1..] == u[1..][..m - 2];
      assert v[..m - 1][1..] == v[1..][..m - 2];
    }
  }

  /** Peeling the first element off a sum. */
  lemma {:induction false} SumFirst(s: seq<real>)
    requires |s| > 0
    ensures Sum(s) == s[0] + Sum(s[1..])
    decreases |s|
  {
    var m := |s|;
    if m == 1 {
      assert s[1..] == [] && s[..0] == [];
    } else {
      SumFirst(s[..m - 1]);
      SumLast(s);
      SumLast(s[1..]);
      assert s[..m - 1][1..] == s[1..][..m - 2];
    }
  }

  /** A five-term sum written out. */
  lemma {:induction false} Sum5(s: seq<real>)
    requires |s| == 5
    ensures Sum(s) == s[0] + s[1] + s[2] + s[3] + s[4]
  {
    SumFirst(s);
    SumFirst(s[1..]);
    Sum3(s[2..]);
  }

  /** A four-term inner product written out. */
  lemma {:induction false} Dot4(u: seq<real>, v: seq<real>)
    requires |u| == |v| == 4
    ensures Dot(u, v) == u[0] * v[0] + u[1] * v[1] + u[2] * v[2] + u[3] * v[3]
  {
    DotFirst(u, v);
    Dot3(u[1..], v[1..]);
  }

  /** A five-term inner product written out. */
  lemma {:induction false} Dot5(u: seq<real>, v: seq<real>)
    requires |u| == |v| == 5
    ensures Dot(u, v) == u[0] * v[0] + u[1] * v[1] + u[2] * v[2] + u[3] * v[3] + u[4] * v[4]
  {
    DotFirst(u, v);
    Dot4(u[1..], v[1..]);
  }

  /** A two-term inner product written out. */
  lemma {:induction false} Dot2(u: seq<real>, v: seq<real>)
    requires |u| == |v| == 2
    ensures Dot(u, v) == u[0] * v[0] + u[1] * v[1]
  {
    DotFirst(u, v);
    DotFirst(u[1..], v[1..]);
    assert u[1..][1..] == [] && v[1..][1..] == [];
  }

  /** A three-term inner product written out. */
  lemma {:induction false} Dot3(u: seq<real>, v: seq<real>)
    requires |u| == |v| == 3
    ensures Dot(u, v) == u[0] * v[0] + u[1] * v[1] + u[2] * v[2]
  {
    DotFirst(u, v);
    DotFirst(u[1..], v[1..]);
    DotFirst(u[2..], v[2..]);
    assert u[2..][1..] == [] && v[2..][1..] == [];
  }

  /** A three-term sum written out. */
  lemma {:induction false} Sum3(s: seq<real>)
    requires |s| == 3
    ensures Sum(s) == s[0] + s[1] + s[2]
  {
    assert Sum(s) == Sum(s[..2]) + s[2];
    assert s[..2][..1] == s[..1];
    assert Sum(s[..2]) == Sum(s[..1]) + s[1];
    assert s[..1][..0] == [];
    assert Sum(s[..1]) == Sum([]) + s[0];
  }

  /** A sum of squares is never negative. */
  lemma {:induction false} DotSelfNonNegative(c: seq<real>)
    ensures Dot(c, c) >= 0.0
  {
    if |c| > 0 {
      DotSelfNonNegative(c[..|c| - 1]);
      SquarePositive(c[|c| - 1]);
    }
  }

  /** A sum of squares is zero only when every term is. */
  lemma {:induction false} DotSelfZero(c: seq<real>)
    requires Dot(c, c) == 0.0
    ensures forall i :: 0 <= i < |c| ==> c[i] == 0.0
  {
    if |c| > 0 {
      var m := |c| - 1;
      DotSelfNonNegative(c[..m]);
      SquarePositive(c[m]);
      DotSelfZero(c[..m]);
      assert forall i :: 0 <= i < m ==> c[..m][i] == c[i];
    }
  }

  /** Changing one coordinate of `v` moves the inner product by that coordinate's weight. */
  lemma {:induction false} DotUpdate(u: seq<real>, v: seq<real>, j: nat, t: real)
    requires |u| == |v| && j < |v|
    ensures Dot(u, v[j := t]) == Dot(u, v[j := 0.0]) + u[j] * t
  {
    var m := |u| - 1;
    assert v[j := t][..m] == if j == m then v[..m] else v[..m][j := t];
    assert v[j := 0.0][..m] == if j == m then v[..m] else v[..m][j := 0.0];
    if j < m {
      DotUpdate(u[..m], v[..m], j, t);
    }
  }

  function Abs(x: real): real
  {
    if x < 0.0 then -x else x
  }

  /** Σ |v[i]|, the ℓ₁ norm. */
  function L1(v: seq<real>): real
  {
    if |v| == 0 then 0.0 else L1(v[..|v| - 1]) + Abs(v[|v| - 1])
  }

  /** Changing one coordinate changes the ℓ₁ norm by that coordinate's magnitude alone. */
  lemma {:induction false} L1Update(v: seq<real>, j: nat, t: real)
    requires j < |v|
    ensures L1(v[j := t]) == L1(v[j := 0.0]) + Abs(t)
  {
    var m := |v| - 1;
    assert v[j := t][..m] == if j == m then v[..m] else v[..m][j := t];
    assert v[j := 0.0][..m] == if j == m then v[..m] else v[..m][j := 0.0];
    if j < m {
      L1Update(v[..m], j, t);
    }
  }

  /** The ℓ₁ norm of zeros. */
  lemma {:induction false} L1Zeros(n: nat)
    ensures L1(Zeros(n)) == 0.0
  {
    if n > 0 {
      assert Zeros(n)[..n - 1] == Zeros(n - 1);
      L1Zeros(n - 1);
    }
  }

  /** Sequences of zeros. */
  function Zeros(n: nat): (z: seq<real>)
    ensures |z| == n && forall i :: 0 <= i < n ==> z[i] == 0.0
  {
    seq(n, i => 0.0)
  }

  /** A sum of a constant sequence. */
  lemma {:induction false} SumConstant(s: seq<real>, c: real)
    requires forall i :: 0 <= i < |s| ==> s[i] == c
    ensures Sum(s) == |s| as real * c
  {
    SumLine(s, s, 0.0, c);
  }

  // ---------------------------------------------------------------------
  // Squares.

  /** The square of `x`. */
  function Sq(x: real): real
  {
    x * x
  }

  /**
   * The identity on reals. Writing a square as `x * Id(x)` lets the solver
   * treat its two factors separately when it reasons about signs.
   */
  function Id(x: real): real
  {
    x
  }

  /** A square is non-negative, and positive unless its base is zero. */
  lemma {:induction false} SquarePositive(x: real)
    ensures Sq(x) >= 0.0
    ensures x != 0.0 ==> Sq(x) > 0.0
  {
    assert Sq(x) == x * Id(x);
  }

  /** A sum of non-negative terms is non-negative. */
  lemma {:induction false} SumNonNegative(s: seq<real>)
    requires forall i :: 0 <= i < |s| ==> s[i] >= 0.0
    ensures Sum(s) >= 0.0
  {
    if |s| > 0 {
      SumNonNegative(s[..|s| - 1]);
    }
  }

  // ---------------------------------------------------------------------
  // Deviations, accumulated term by term as the source's loops do.

  /** Σ (s[i] − c), the sum of deviations from `c`. */
  function Deviations(s: seq<real>, c: real): real
  {
    if |s| == 0 then 0.0 else Deviations(s[..|s| - 1], c) + (s[|s| - 1] - c)
  }

  /** Σ (s[i] − c)², the sum of squared deviations from `c`. */
  function SquaredDeviations(s: seq<real>, c: real): real
  {
    if |s| == 0 then 0.0 else SquaredDeviations(s[..|s| - 1], c) + Sq(s[|s| - 1] - c)
  }

  /** Σ (x[i] − a)·(y[i] − b), the sum of products of deviations. */
  function DeviationProducts(x: seq<real>, y: seq<real>, a: real, b: real): real
    requires |x| == |y|
  {
    if |x| == 0 then 0.0
    else DeviationProducts(x[..|x| - 1], y[..|x| - 1], a, b) + (x[|x| - 1] - a) * (y[|x| - 1] - b)
  }

  /** The sum of deviations is the sum less `n·c`. */
  lemma {:induction false} DeviationsSum(s: seq<real>, c: real)
    ensures Deviations(s, c) == Sum(s) - |s| as real * c
  {
    if |s| > 0 {
      DeviationsSum(s[..|s| - 1], c);
    }
  }

  /** Deviations from the mean sum to zero. */
  lemma {:induction false} DeviationsFromMean(s: seq<real>)
    requires |s| > 0
    ensures Deviations(s, Average(s)) == 0.0
  {
    DeviationsSum(s, Average(s));
    DivMul(Sum(s), |s| as real);
  }

  /** Dividing by `n` and multiplying back is exact. */
  lemma {:induction false} DivMul(s: real, n: real)
    requires n != 0.0
    ensures n * (s / n) == s
  {
  }

  /**
   * A sum of squared deviations is non-negative, and zero exactly when every
   * element equals `c`.
   */
  lemma {:induction false} SquaredDeviationsZero(s: seq<real>, c: real)
    ensures SquaredDeviations(s, c) >= 0.0
    ensures SquaredDeviations(s, c) == 0.0 <==> forall i :: 0 <= i < |s| ==> s[i] == c
  {
    if |s| > 0 {
      var n := |s| - 1;
      SquaredDeviationsZero(s[..n], c);
      SquarePositive(s[n] - c);
      if SquaredDeviations(s, c) == 0.0 {
        assert s[n] == c && SquaredDeviations(s[..n], c) == 0.0;
        forall i | 0 <= i < |s| ensures s[i] == c {
          if i < n { assert s[..n][i] == s[i]; }
        }
      }
      if forall i :: 0 <= i < |s| ==> s[i] == c {
        assert forall i :: 0 <= i < n ==> s[..n][i] == c;
      }
    }
  }

  /** Squared deviations are the products of a sequence's deviations with themselves. */
  lemma {:induction false} SquaredDeviationsProducts(s: seq<real>, c: real)
    ensures SquaredDeviations(s, c) == DeviationProducts(s, s, c, c)
  {
    if |s| > 0 {
      SquaredDeviationsProducts(s[..|s| - 1], c);
    }
  }

  /** The sum of products of deviations does not depend on the order of the two samples. */
  lemma {:induction false} DeviationProductsSymmetric(x: seq<real>, y: seq<real>, a: real, b: real)
    requires |x| == |y|
    ensures DeviationProducts(x, y, a, b) == DeviationProducts(y, x, b, a)
  {
    if |x| > 0 {
      DeviationProductsSymmetric(x[..|x| - 1], y[..|x| - 1], a, b);
    }
  }

  /** Σ(x−a)(y−b) = Σxy − bΣx − aΣy + n·a·b. */
  lemma {:induction false} DeviationProductsExpand(x: seq<real>, y: seq<real>, a: real, b: real)
    requires |x| == |y|
    ensures DeviationProducts(x, y, a, b) == Dot(x, y) - b * Sum(x) - a * Sum(y) + |x| as real * a * b
  {
    if |x| > 0 {
      DeviationProductsExpand(x[..|x| - 1], y[..|x| - 1], a, b);
      ExpandUnfold(x, y, a, b);
    } else {
      ExpandBase(DeviationProducts(x, y, a, b), Dot(x, y), Sum(x), Sum(y), |x| as real, a, b);
    }
  }

  /** One induction step of `DeviationProductsExpand`, from the prefix to the whole sequence. */
  lemma {:induction false} ExpandUnfold(x: seq<real>, y: seq<real>, a: real, b: real)
    requires |x| == |y| > 0
    requires DeviationProducts(x[..|x| - 1], y[..|x| - 1], a, b)
          == Dot(x[..|x| - 1], y[..|x| - 1]) - b * Sum(x[..|x| - 1]) - a * Sum(y[..|x| - 1])
             + |x[..|x| - 1]| as real * a * b
    ensures DeviationProducts(x, y, a, b) == Dot(x, y) - b * Sum(x) - a * Sum(y) + |x| as real * a * b
  {
    DeviationProductsLast(x, y, a, b);
    DotLast(x, y);
    SumLast(x);
    SumLast(y);
    ExpandStep(DeviationProducts(x, y, a, b), DeviationProducts(x[..|x| - 1], y[..|x| - 1], a, b),
               Dot(x, y), Dot(x[..|x| - 1], y[..|x| - 1]),
               Sum(x), Sum(x[..|x| - 1]), Sum(y), Sum(y[..|x| - 1]),
               |x| as real, |x[..|x| - 1]| as real, x[|x| - 1], y[|x| - 1], a, b);
  }

  lemma {:induction false} ExpandBase(l: real, xy: real, sx: real, sy: real, k: real, a: real, b: real)
    requires l == 0.0 && xy == 0.0 && sx == 0.0 && sy == 0.0 && k == 0.0
    ensures l == xy - b * sx - a * sy + k * a * b
  {
  }

  lemma {:induction false} DeviationProductsLast(x: seq<real>, y: seq<real>, a: real, b: real)
    requires |x| == |y| > 0
    ensures DeviationProducts(x, y, a, b)
      == DeviationProducts(x[..|x| - 1], y[..|x| - 1], a, b) + (x[|x| - 1] - a) * (y[|x| - 1] - b)
  {
  }

  lemma {:induction false} DotLast(x: seq<real>, y: seq<real>)
    requires |x| == |y| > 0
    ensures Dot(x, y) == Dot(x[..|x| - 1], y[..|x| - 1]) + x[|x| - 1] * y[|x| - 1]
  {
  }

  /**
   * The product a·x under a name: two occurrences with equal arguments are
   * then recognised as equal without arithmetic on the factors.
   */
  function Scaled(a: real, x: real): real
  {
    a * x
  }

  /** Adding c times `w` to `u` entry by entry adds c times its inner product. */
  lemma {:induction false} DotCombine(s: seq<real>, u: seq<real>, w: seq<real>, v: seq<real>, c: real)
    requires |s| == |u| == |w| == |v|
    requires forall i :: 0 <= i < |s| ==> s[i] == u[i] + Scaled(c, w[i])
    ensures Dot(s, v) == Dot(u, v) + Scaled(c, Dot(w, v))
  {
    if |s| > 0 {
      var n := |s| - 1;
      DotCombine(s[..n], u[..n], w[..n], v[..n], c);
      DotSplit(s, v, v[..n], v[n]);
      DotSplit(u, v, v[..n], v[n]);
      DotSplit(w, v, v[..n], v[n]);
      CombineStep(Dot(s[..n], v[..n]), Dot(u[..n], v[..n]), Dot(w[..n], v[..n]), s[n], u[n], w[n], v[n], c);
    }
  }

  lemma {:induction false} CombineStep(ds: real, du: real, dw: real, sn: real, un: real, wn: real, vn: real, c: real)
    requires ds == du + Scaled(c, dw) && sn == un + Scaled(c, wn)
    ensures ds + Scaled(sn, vn) == (du + Scaled(un, vn)) + Scaled(c, dw + Scaled(wn, vn))
  {
  }

  /** `DotLast` with the prefix and the last entry of `y` named. */
  lemma {:induction false} DotSplit(x: seq<real>, y: seq<real>, init: seq<real>, last: real)
    requires |x| == |y| > 0 && y[..|y| - 1] == init && y[|y| - 1] == last
    ensures Dot(x, y) == Dot(x[..|x| - 1], init) + Scaled(x[|x| - 1], last)
  {
    DotLast(x, y);
  }

  lemma {:induction false} SumLast(s: seq<real>)
    requires |s| > 0
    ensures Sum(s) == Sum(s[..|s| - 1]) + s[|s| - 1]
  {
  }

  /** The arithmetic of one induction step of `DeviationProductsExpand`. */
  lemma {:induction false} ExpandStep(l: real, l0: real, xy: real, xy0: real, sx: real, sx0: real,
                   sy: real, sy0: real, k: real, k0: real, xn: real, yn: real, a: real, b: real)
    requires l0 == xy0 - b * sx0 - a * sy0 + k0 * a * b
    requires l == l0 + (xn - a) * (yn - b)
    requires xy == xy0 + xn * yn && sx == sx0 + xn && sy == sy0 + yn && k == k0 + 1.0
    ensures l == xy - b * sx - a * sy + k * a * b
  {
  }

  /** Around a centre b with n·b = Σy, Σ(x−a)(y−b) = Σxy − b·Σx whatever a is. */
  lemma {:induction false} DeviationProductsMean(x: seq<real>, y: seq<real>, a: real, b: real)
    requires |x| == |y|
    requires |x| as real * b == Sum(y)
    ensures DeviationProducts(x, y, a, b) == Dot(x, y) - Scaled(b, Sum(x))
  {
    DeviationProductsExpand(x, y, a, b);
    assert a * Sum(y) == a * (|x| as real * b);
  }

  /** About the means: Σ(x−x̄)(y−ȳ) = Σxy − n·x̄·ȳ. */
  lemma {:induction false} DeviationProductsCentred(x: seq<real>, y: seq<real>)
    requires |x| == |y| > 0
    ensures DeviationProducts(x, y, Average(x), Average(y))
         == Dot(x, y) - |x| as real * Average(x) * Average(y)
  {
    var n := |x| as real;
    var a, b := Average(x), Average(y);
    DeviationProductsExpand(x, y, a, b);
    DivMul(Sum(x), n);
    DivMul(Sum(y), n);
    CentredStep(DeviationProducts(x, y, a, b), Dot(x, y), Sum(x), Sum(y), n, a, b);
  }

  lemma {:induction false} CentredStep(l: real, xy: real, sx: real, sy: real, n: real, a: real, b: real)
    requires l == xy - b * sx - a * sy + n * a * b
    requires sx == n * a && sy == n * b
    ensures l == xy - n * a * b
  {
  }

  /** For points with y − c = m·(x − a), Σ(x − a)(y − c) = m·Σ(x − a)². */
  lemma {:induction false} LineDeviations(x: seq<real>, y: seq<real>, a: real, c: real, m: real)
    requires |x| == |y|
    requires forall i :: 0 <= i < |x| ==> y[i] - c == Scaled(m, x[i] - a)
    ensures DeviationProducts(x, y, a, c) == Scaled(m, SquaredDeviations(x, a))
  {
    if |x| > 0 {
      LineDeviations(x[..|x| - 1], y[..|x| - 1], a, c, m);
      LineLast(x, y, a, c, m);
    } else {
      assert SquaredDeviations(x, a) == 0.0;
    }
  }

  /** The induction step of `LineDeviations`: adding one more point on the line. */
  lemma {:induction false} LineLast(x: seq<real>, y: seq<real>, a: real, c: real, m: real)
    requires |x| == |y| > 0
    requires y[|x| - 1] - c == Scaled(m, x[|x| - 1] - a)
    requires DeviationProducts(x[..|x| - 1], y[..|x| - 1], a, c) == Scaled(m, SquaredDeviations(x[..|x| - 1], a))
    ensures DeviationProducts(x, y, a, c) == Scaled(m, SquaredDeviations(x, a))
  {
    LastTerms(x, y, a, c);
    LineStep(DeviationProducts(x, y, a, c), DeviationProducts(x[..|x| - 1], y[..|x| - 1], a, c),
      SquaredDeviations(x, a), SquaredDeviations(x[..|x| - 1], a), x[|x| - 1] - a, y[|x| - 1] - c, m);
  }

  /** The last terms of `DeviationProducts` and `SquaredDeviations`. */
  lemma {:induction false} LastTerms(x: seq<real>, y: seq<real>, a: real, c: real)
    requires |x| == |y| > 0
    ensures DeviationProducts(x, y, a, c)
      == DeviationProducts(x[..|x| - 1], y[..|x| - 1], a, c) + Scaled(x[|x| - 1] - a, y[|x| - 1] - c)
    ensures SquaredDeviations(x, a) == SquaredDeviations(x[..|x| - 1], a) + Scaled(x[|x| - 1] - a, x[|x| - 1] - a)
  {
  }

  lemma {:induction false} LineStep(p: real, p0: real, s: real, s0: real, dx: real, dy: real, m: real)
    requires p == p0 + Scaled(dx, dy)
    requires s == s0 + Scaled(dx, dx)
    requires p0 == Scaled(m, s0)
    requires dy == Scaled(m, dx)
    ensures p == Scaled(m, s)
  {
    assert dx * dy == m * (dx * dx);
  }

  /** All elements equal their mean exactly when they are all equal. */
  lemma {:induction false} AllEqualAverage(s: seq<real>)
    requires |s| > 0
    ensures AllEqual(s) <==> forall i :: 0 <= i < |s| ==> s[i] == Average(s)
  {
    if AllEqual(s) {
      SumConstant(s, s[0]);
    }
  }

  /**
   * The spread of a sample around its mean is zero exactly when all
   * elements are equal.
   */
  lemma {:induction false} SpreadZero(s: seq<real>)
    requires |s| > 0
    ensures SquaredDeviations(s, Average(s)) >= 0.0
    ensures SquaredDeviations(s, Average(s)) == 0.0 <==> AllEqual(s)
  {
    SquaredDeviationsZero(s, Average(s));
    AllEqualAverage(s);
  }

  /** The weighted average w·x + (1 − w)·y. */
  function Blend(w: real, x: real, y: real): real
  {
    w * x + (1.0 - w) * y
  }

  /** A convex combination of two values in [lo, hi] stays in [lo, hi]. */
  lemma {:induction false} Convex(w: real, x: real, y: real, lo: real, hi: real)
    requires 0.0 <= w <= 1.0
    requires lo <= x <= hi && lo <= y <= hi
    ensures lo <= Blend(w, x, y) <= hi
  {
    var v := 1.0 - w;
    ProductNonNegative(w, x - lo);
    ProductNonNegative(v, y - lo);
    ProductNonNegative(w, hi - x);
    ProductNonNegative(v, hi - y);
  }

  lemma {:induction false} ProductNonNegative(a: real, b: real)
    requires a >= 0.0 && b >= 0.0
    ensures a * b >= 0.0
  {
  }

  /** Blending is additive in the pair it blends. */
  lemma {:induction false} BlendAdd(w: real, a: real, b: real, c: real, d: real)
    ensures Blend(w, a, b) + Blend(w, c, d) == Blend(w, a + c, b + d)
  {
  }

  /** Blending a value with itself gives that value. */
  lemma {:induction false} BlendSame(w: real, x: real)
    ensures Blend(w, x, x) == x
  {
  }
}
