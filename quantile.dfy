/**
 * `NormalInverseCDF` and `standardNormalInverseCDF`: Acklam's rational
 * approximation of the standard normal quantile, with a lower tail, an
 * upper tail and a central region. `math.Log` and `math.Sqrt` are the
 * uninterpreted `m.log` and `m.sqrt` of `Numerics`.
 */
module NormalQuantile {
  import opened Numerics

  /** The lower breakpoint `plow`; the upper one, `phigh`, is 1 − plow. */
  const Low: real := 0.02425
  const High: real := 1.0 - Low

  /** The coefficient slices `a`, `b`, `c` and `d` of the Go code. */
  const A: seq<real> := [-39.69683028665376, 220.9460984245205, -275.9285104469687,
                         138.3577518672690, -30.66479806614716, 2.506628277459239]
  const B: seq<real> := [-54.47609879822406, 161.5858368580409, -155.6989798598866,
                         66.80131188771972, -13.28068155288572]
  const C: seq<real> := [-0.007784894002430293, -0.3223964580411365, -2.400758277161838,
                         -2.549732539343734, 4.374664141464968, 2.938163982698783]
  const D: seq<real> := [0.007784695709041462, 0.3224671290700398, 2.445134137142996,
                         3.754408661907416]

  /** Horner evaluation ((cs[0]·x + cs[1])·x + …)·x + cs[|cs| − 1], as the Go code nests it. */
  function Horner(cs: seq<real>, x: real): real
  {
    if |cs| == 0 then 0.0 else Horner(cs[..|cs| - 1], x) * x + cs[|cs| - 1]
  }

  /** A polynomial whose constant term is the 1 after the coefficients `cs`. */
  function Monic(cs: seq<real>, x: real): real
  {
    Horner(cs + [1.0], x)
  }

  /** `Horner(A, x)` written out. */
  lemma {:induction false} ExpandA(x: real)
    ensures Horner(A, x) == ((((-39.69683028665376 * x + 220.9460984245205) * x - 275.9285104469687) * x
      + 138.3577518672690) * x - 30.66479806614716) * x + 2.506628277459239
  {
    var s := A;
    assert s[..1][..0] == [];
    assert Horner(s[..1][..0], x) == 0.0;
    assert s[..1][0] == s[0];
    var h := Horner(s[..1], x);
    assert h == -39.69683028665376;
    assert s[..2][..1] == s[..1];
    assert Horner(s[..2], x) == h * x + 220.9460984245205;
    h := Horner(s[..2], x);
    assert s[..3][..2] == s[..2];
    assert Horner(s[..3], x) == h * x - 275.9285104469687;
    h := Horner(s[..3], x);
    assert s[..4][..3] == s[..3];
    assert Horner(s[..4], x) == h * x + 138.3577518672690;
    h := Horner(s[..4], x);
    assert s[..5][..4] == s[..4];
    assert Horner(s[..5], x) == h * x - 30.66479806614716;
    h := Horner(s[..5], x);
    assert Horner(s, x) == h * x + 2.506628277459239;
  }

  /** `Monic(B, x)` written out. */
  lemma {:induction false} ExpandB(x: real)
    ensures Monic(B, x) == ((((-54.47609879822406 * x + 161.5858368580409) * x - 155.6989798598866) * x
      + 66.80131188771972) * x - 13.28068155288572) * x + 1.0
  {
    var s := B + [1.0];
    assert s[..1][..0] == [];
    assert Horner(s[..1][..0], x) == 0.0;
    assert s[..1][0] == s[0];
    var h := Horner(s[..1], x);
    assert h == -54.47609879822406;
    assert s[..2][..1] == s[..1];
    assert Horner(s[..2], x) == h * x + 161.5858368580409;
    h := Horner(s[..2], x);
    assert s[..3][..2] == s[..2];
    assert Horner(s[..3], x) == h * x - 155.6989798598866;
    h := Horner(s[..3], x);
    assert s[..4][..3] == s[..3];
    assert Horner(s[..4], x) == h * x + 66.80131188771972;
    h := Horner(s[..4], x);
    assert s[..5][..4] == s[..4];
    assert Horner(s[..5], x) == h * x - 13.28068155288572;
    h := Horner(s[..5], x);
    assert Horner(s, x) == h * x + 1.0;
  }

  /** `Horner(C, x)` written out. */
  lemma {:induction false} ExpandC(x: real)
    ensures Horner(C, x) == ((((-0.007784894002430293 * x - 0.3223964580411365) * x - 2.400758277161838) * x
      - 2.549732539343734) * x + 4.374664141464968) * x + 2.938163982698783
  {
    var s := C;
    assert s[..1][..0] == [];
    assert Horner(s[..1][..0], x) == 0.0;
    assert s[..1][0] == s[0];
    var h := Horner(s[..1], x);
    assert h == -0.007784894002430293;
    assert s[..2][..1] == s[..1];
    assert Horner(s[..2], x) == h * x - 0.3223964580411365;
    h := Horner(s[..2], x);
    assert s[..3][..2] == s[..2];
    assert Horner(s[..3], x) == h * x - 2.400758277161838;
    h := Horner(s[..3], x);
    assert s[..4][..3] == s[..3];
    assert Horner(s[..4], x) == h * x - 2.549732539343734;
    h := Horner(s[..4], x);
    assert s[..5][..4] == s[..4];
    assert Horner(s[..5], x) == h * x + 4.374664141464968;
    h := Horner(s[..5], x);
    assert Horner(s, x) == h * x + 2.938163982698783;
  }

  /** `Monic(D, x)` written out. */
  lemma {:induction false} ExpandD(x: real)
    ensures Monic(D, x) == (((0.007784695709041462 * x + 0.3224671290700398) * x + 2.445134137142996) * x
      + 3.754408661907416) * x + 1.0
  {
    var s := D + [1.0];
    assert s[..1][..0] == [];
    assert Horner(s[..1][..0], x) == 0.0;
    assert s[..1][0] == s[0];
    var h := Horner(s[..1], x);
    assert h == 0.007784695709041462;
    assert s[..2][..1] == s[..1];
    assert Horner(s[..2], x) == h * x + 0.3224671290700398;
    h := Horner(s[..2], x);
    assert s[..3][..2] == s[..2];
    assert Horner(s[..3], x) == h * x + 2.445134137142996;
    h := Horner(s[..3], x);
    assert s[..4][..3] == s[..3];
    assert Horner(s[..4], x) == h * x + 3.754408661907416;
    h := Horner(s[..4], x);
    assert Horner(s, x) == h * x + 1.0;
  }

  /**
   * On the central region q ranges over [p_low − 0.5, 0.5 − p_low], so
   * r = q² ≤ 0.47575², and there the central numerator is positive.
   */
  lemma {:induction false} CentralNumeratorPositive(r: real)
    requires 0.0 <= r <= 0.2263380625
    ensures Horner(A, r) > 0.0
  {
    ExpandA(r);
    NumeratorBound(r);
  }

  lemma {:induction false} NumeratorBound(r: real)
    requires 0.0 <= r <= 0.2263380625
    ensures ((((-39.69683028665376 * r + 220.9460984245205) * r - 275.9285104469687) * r
      + 138.3577518672690) * r - 30.66479806614716) * r + 2.506628277459239 > 0.0
  {
  }

  /** The central denominator is positive on the same range. */
  lemma {:induction false} CentralDenominatorPositive(r: real)
    requires 0.0 <= r <= 0.2263380625
    ensures Monic(B, r) > 0.0
  {
    ExpandB(r);
    DenominatorBound(r);
  }

  lemma {:induction false} DenominatorBound(r: real)
    requires 0.0 <= r <= 0.2263380625
    ensures ((((-54.47609879822406 * r + 161.5858368580409) * r - 155.6989798598866) * r
      + 66.80131188771972) * r - 13.28068155288572) * r + 1.0 > 0.0
  {
  }

  /** On the central region r = (p − 0.5)² stays within [0, 0.47575²]. */
  lemma {:induction false} CentralRange(p: real)
    requires Low <= p <= High
    ensures 0.0 <= (p - 0.5) * (p - 0.5) <= 0.2263380625
  {
    var q := p - 0.5;
    var a := if q >= 0.0 then q else -q;
    assert a * a == q * q;
    ProductBelow(a, 0.47575);
  }

  /** For q ≥ 0 the tail denominator is at least one. */
  lemma {:induction false} TailDenominatorPositive(q: real)
    requires q >= 0.0
    ensures Monic(D, q) >= 1.0
  {
    ExpandD(q);
    TailDenominatorBound(q);
  }

  lemma {:induction false} TailDenominatorBound(q: real)
    requires q >= 0.0
    ensures (((0.007784695709041462 * q + 0.3224671290700398) * q + 2.445134137142996) * q
      + 3.754408661907416) * q + 1.0 >= 1.0
  {
  }

  /** Beyond q = 1.396 the tail numerator is negative. */
  lemma {:induction false} TailNumeratorNegative(q: real)
    requires q >= 1.396
    ensures Horner(C, q) < 0.0
  {
    ExpandC(q);
    TailNumeratorBound(q);
  }

  lemma {:induction false} TailNumeratorBound(q: real)
    requires q >= 1.396
    ensures ((((-0.007784894002430293 * q - 0.3223964580411365) * q - 2.400758277161838) * q
      - 2.549732539343734) * q + 4.374664141464968) * q + 2.938163982698783 < 0.0
  {
  }

  /** The tail variable √(−2·log p) for a probability p in the lower tail. */
  function TailVariable(m: Math, p: real): (q: real)
    requires Sound(m) && 0.0 < p < Low
    ensures q >= 1.396
  {
    var u := -2.0 * m.log(p);
    assert u > 1.9515;
    var q := m.sqrt(u);
    RootAbove(q, u);
    q
  }

  /** A non-negative square root of a number above 1.9515 is above 1.396. */
  lemma {:induction false} RootAbove(q: real, u: real)
    requires q >= 0.0 && q * q == u && u > 1.9515
    ensures q >= 1.396
  {
    if q < 1.396 {
      ProductBelow(q, 1.396);
    }
  }

  lemma {:induction false} ProductBelow(x: real, y: real)
    requires 0.0 <= x <= y
    ensures x * x <= y * y
  {
    assert x * x <= x * y <= y * y;
  }

  /** The lower-tail branch at p: a negative value. */
  function Tail(m: Math, p: real): (z: real)
    requires Sound(m) && 0.0 < p < Low
    ensures z < 0.0
  {
    var q := TailVariable(m, p);
    TailNumeratorNegative(q);
    TailDenominatorPositive(q);
    Horner(C, q) / Monic(D, q)
  }

  /** The central branch at p: the sign of q = p − 0.5. */
  function Central(p: real): (z: real)
    requires Low <= p <= High
    ensures z < 0.0 <==> p < 0.5
    ensures z == 0.0 <==> p == 0.5
  {
    var q := p - 0.5;
    var r := q * q;
    CentralRange(p);
    CentralNumeratorPositive(r);
    CentralDenominatorPositive(r);
    SignOfRatio(Horner(A, r), q, Monic(B, r));
    Horner(A, r) * q / Monic(B, r)
  }

  /** n·q/d has the sign of q when n and d are positive. */
  lemma {:induction false} SignOfRatio(n: real, q: real, d: real)
    requires n > 0.0 && d > 0.0
    ensures n * q / d < 0.0 <==> q < 0.0
    ensures n * q / d == 0.0 <==> q == 0.0
  {
    var z := n * q / d;
    assert z * d == n * q;
    if q < 0.0 {
      assert n * q < 0.0;
    } else if q > 0.0 {
      assert n * q > 0.0;
    }
  }

  /**
   * `standardNormalInverseCDF`. p outside (0, 1) panics (a precondition).
   * The result is negative, zero or positive exactly as p is below, at or
   * above one half, in every branch.
   */
  function StandardNormalInverseCDF(m: Math, p: real): (z: real)
    requires Sound(m) && 0.0 < p < 1.0
    ensures z < 0.0 <==> p < 0.5
    ensures z == 0.0 <==> p == 0.5
  {
    if p < Low then Tail(m, p)
    else if p > High then -Tail(m, 1.0 - p)
    else Central(p)
  }

  /** The approximation is odd about one half: z(1 − p) = −z(p). */
  lemma {:induction false} StandardSymmetric(m: Math, p: real)
    requires Sound(m) && 0.0 < p < 1.0
    ensures StandardNormalInverseCDF(m, 1.0 - p) == -StandardNormalInverseCDF(m, p)
  {
    if Low <= p <= High {
      CentralOdd(p);
    } else {
      assert 1.0 - (1.0 - p) == p;
    }
  }

  /** The central branch is odd in q: reflecting p about one half negates it. */
  lemma {:induction false} CentralOdd(p: real)
    requires Low <= p <= High
    ensures Central(1.0 - p) == -Central(p)
  {
    var q := p - 0.5;
    var r := q * q;
    assert (1.0 - p) - 0.5 == -q;
    assert ((1.0 - p) - 0.5) * ((1.0 - p) - 0.5) == r;
    CentralRange(p);
    CentralNumeratorPositive(r);
    CentralDenominatorPositive(r);
    var n, d := Horner(A, r), Monic(B, r);
    assert Central(p) == n * q / d;
    assert Central(1.0 - p) == n * -q / d;
    OddRatio(n, q, d);
  }

  /** n·(−q)/d = −(n·q/d). */
  lemma {:induction false} OddRatio(n: real, q: real, d: real)
    requires d != 0.0
    ensures n * -q / d == -(n * q / d)
  {
  }

  /**
   * `NormalInverseCDF`: μ + σ·z(p). σ ≤ 0 panics, as does p outside (0, 1);
   * both are preconditions. The quantile lies below, at or above the mean
   * exactly as p lies below, at or above one half.
   */
  function NormalInverseCDF(m: Math, p: real, mean: real, stddev: real): (x: real)
    requires Sound(m) && 0.0 < p < 1.0
    requires stddev > 0.0
    ensures x < mean <==> p < 0.5
    ensures x == mean <==> p == 0.5
  {
    var z := StandardNormalInverseCDF(m, p);
    SignOfRatio(stddev, z, 1.0);
    mean + stddev * z
  }

  /** Quantiles at p and 1 − p lie symmetrically about the mean. */
  lemma {:induction false} NormalSymmetric(m: Math, p: real, mean: real, stddev: real)
    requires Sound(m) && 0.0 < p < 1.0 && stddev > 0.0
    ensures NormalInverseCDF(m, 1.0 - p, mean, stddev) - mean == mean - NormalInverseCDF(m, p, mean, stddev)
  {
    StandardSymmetric(m, p);
  }
}
