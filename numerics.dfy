/**
 * The calls into Go's `math` package that the statistics code makes:
 * `Sqrt`, `Log`, `Exp` and `Erf`. They are not computed here; a `Math`
 * value carries one function for each, and `Sound` states the only facts
 * about them the proofs use (signs, and that a square root squares back).
 * Every float64 is read as an exact real.
 *
 * Integer powers (`math.Pow` with a whole exponent) are exact products and
 * are defined here, as is the standard normal CDF built from `Erf`.
 */
module Numerics {
  import opened Sums

  /** The four `math` functions the toolkit calls. */
  datatype Math = Math(sqrt: real -> real, log: real -> real, exp: real -> real, erf: real -> real)

  /**
   * What the proofs may assume of the `math` functions: a square root is
   * non-negative and squares back to its argument, the logarithm lies
   * below its tangent at 1 (log x ≤ x − 1), the exponential is
   * positive, and the error function lies in [−1, 1], is 0 at 0 and not
   * negative on non-negative arguments.
   */
  ghost predicate Sound(m: Math)
  {
    (forall x :: x >= 0.0 ==> m.sqrt(x) >= 0.0 && m.sqrt(x) * m.sqrt(x) == x)
    && (forall x :: x > 0.0 ==> m.log(x) <= x - 1.0)
    && (forall x :: m.exp(x) > 0.0)
    && (forall x :: -1.0 <= m.erf(x) <= 1.0)
    && (forall x :: x >= 0.0 ==> m.erf(x) >= 0.0)
    && m.erf(0.0) == 0.0
  }

  /** The square root of a positive number is positive. */
  lemma {:induction false} SqrtPositive(m: Math, x: real)
    requires Sound(m) && x > 0.0
    ensures m.sqrt(x) > 0.0
  {
    assert m.sqrt(x) * m.sqrt(x) == x;
  }

  /** The square root of zero is zero. */
  lemma {:induction false} SqrtZero(m: Math)
    requires Sound(m)
    ensures m.sqrt(0.0) == 0.0
  {
    var s := m.sqrt(0.0);
    assert Sq(s) == 0.0;
    SquarePositive(s);
  }

  /** `math.Sqrt2`. */
  function Sqrt2(m: Math): (r: real)
    requires Sound(m)
    ensures r > 0.0
  {
    SqrtPositive(m, 2.0);
    m.sqrt(2.0)
  }

  /** `standardNormalCDF`: 0.5·(1 + erf(x/√2)). */
  function Phi(m: Math, x: real): (r: real)
    requires Sound(m)
    ensures 0.0 <= r <= 1.0
    ensures x >= 0.0 ==> r >= 0.5
  {
    assert x >= 0.0 ==> x / Sqrt2(m) >= 0.0;
    0.5 * (1.0 + m.erf(x / Sqrt2(m)))
  }

  /** The standard normal CDF is one half at zero. */
  lemma {:induction false} PhiZero(m: Math)
    requires Sound(m)
    ensures Phi(m, 0.0) == 0.5
  {
    assert 0.0 / Sqrt2(m) == 0.0;
  }

  /**
   * The two-tailed p-value 2·(1 − Φ(|s|)) of a statistic s under the
   * standard normal approximation, as every z- and t-test computes it.
   */
  function TwoTailed(m: Math, s: real): (p: real)
    requires Sound(m)
    ensures 0.0 <= p <= 1.0
  {
    2.0 * (1.0 - Phi(m, Abs(s)))
  }

  /** A statistic of zero gives the p-value 1; its sign never matters. */
  lemma {:induction false} TwoTailedSymmetric(m: Math, s: real)
    requires Sound(m)
    ensures TwoTailed(m, -s) == TwoTailed(m, s)
    ensures TwoTailed(m, 0.0) == 1.0
  {
    PhiZero(m);
    assert Abs(-s) == Abs(s);
  }

  /** `math.Pow(x, k)` for a whole exponent k: x multiplied by itself k times. */
  function Pow(x: real, k: nat): real
  {
    if k == 0 then 1.0 else Pow(x, k - 1) * x
  }

  /** Powers of a non-negative base are non-negative, and positive for a positive base. */
  lemma {:induction false} PowNonNegative(x: real, k: nat)
    requires x >= 0.0
    ensures Pow(x, k) >= 0.0
    ensures x > 0.0 ==> Pow(x, k) > 0.0
  {
    if k > 0 {
      PowNonNegative(x, k - 1);
    }
  }

  /** Powers of one are one. */
  lemma {:induction false} PowOne(k: nat)
    ensures Pow(1.0, k) == 1.0
  {
    if k > 0 {
      PowOne(k - 1);
    }
  }

  /** x^(a+b) = x^a · x^b. */
  lemma {:induction false} PowAdd(x: real, a: nat, b: nat)
    ensures Pow(x, a + b) == Pow(x, a) * Pow(x, b)
  {
    if b > 0 {
      PowAdd(x, a, b - 1);
      assert Pow(x, a + b) == Pow(x, a + b - 1) * x;
      assert Pow(x, a) * Pow(x, b) == (Pow(x, a) * Pow(x, b - 1)) * x;
    }
  }

  /** (x·y)^k = x^k · y^k. */
  lemma {:induction false} PowMul(x: real, y: real, k: nat)
    ensures Pow(x * y, k) == Pow(x, k) * Pow(y, k)
  {
    if k > 0 {
      PowMul(x, y, k - 1);
      var a, b := Pow(x, k - 1), Pow(y, k - 1);
      assert Pow(x * y, k) == (a * b) * (x * y);
      assert (a * b) * (x * y) == (a * x) * (b * y);
    }
  }
}
