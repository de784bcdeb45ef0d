/**
 * The binomial distribution: the exact integer coefficient
 * `binomialCoefficient`, the mass function `BinomialPMF` and the cumulative
 * sum `BinomialCDF`. Probabilities are reals; powers are the exact
 * whole-exponent powers of `Numerics.Pow`.
 */
module Binomial {
  import opened Sums
  import opened Numerics

  /**
   * The largest number of trials for which every intermediate product
   * `result * (n - i)` of `binomialCoefficient` stays below 2^63, so that
   * the Go `int` arithmetic is exact.
   */
  const MaxTrials: nat := 61

  /** C(n, k), by Pascal's rule. */
  function Choose(n: nat, k: nat): nat
  {
    if k == 0 then 1
    else if n == 0 then 0
    else Choose(n - 1, k - 1) + Choose(n - 1, k)
  }

  /** There is no way to choose more elements than there are. */
  lemma {:induction false} ChooseAbove(n: nat, k: nat)
    requires k > n
    ensures Choose(n, k) == 0
  {
    if n > 0 {
      ChooseAbove(n - 1, k - 1);
      ChooseAbove(n - 1, k);
    }
  }

  /** There is one way to choose all elements. */
  lemma {:induction false} ChooseAll(n: nat)
    ensures Choose(n, n) == 1
  {
    if n > 0 {
      ChooseAll(n - 1);
      ChooseAbove(n - 1, n);
    }
  }

  /** Within range, a coefficient is at least one. */
  lemma {:induction false} ChoosePositive(n: nat, k: nat)
    requires k <= n
    ensures Choose(n, k) >= 1
  {
    if k > 0 {
      ChoosePositive(n - 1, k - 1);
    }
  }

  /**
   * (n − i)·C(n, i) = (i + 1)·C(n, i + 1): the identity that makes each
   * division in `binomialCoefficient` exact.
   */
  lemma {:induction false} ChooseStep(n: nat, i: nat)
    ensures (n - i) * Choose(n, i) == (i + 1) * Choose(n, i + 1)
  {
    if n == 0 {
      if i > 0 {
        ChooseAbove(0, i);
      }
      ChooseAbove(0, i + 1);
    } else if i == 0 {
      ChooseStep(n - 1, 0);
    } else {
      ChooseStep(n - 1, i - 1);
      ChooseStep(n - 1, i);
      var x, y, z := Choose(n - 1, i - 1), Choose(n - 1, i), Choose(n - 1, i + 1);
      assert Choose(n, i) == x + y && Choose(n, i + 1) == y + z;
      PascalArithmetic(n, i, x, y, z);
    }
  }

  /** The arithmetic step of `ChooseStep`, on plain integers. */
  lemma {:induction false} PascalArithmetic(n: int, i: int, x: int, y: int, z: int)
    requires (n - i) * x == i * y
    requires (n - 1 - i) * y == (i + 1) * z
    ensures (n - i) * (x + y) == (i + 1) * (y + z)
  {
    assert (n - i) * (x + y) == (n - i) * x + (n - i) * y;
    assert (n - i) * y == (n - 1 - i) * y + y;
    assert (i + 1) * (y + z) == (i + 1) * y + (i + 1) * z;
  }

  /** A division by a factor of the dividend is exact. */
  lemma {:induction false} DivideExact(a: int, b: int, c: int)
    requires b > 0 && a == b * c
    ensures a / b == c
  {
    var d, r := a / b, a % b;
    assert a == b * d + r && 0 <= r < b;
    var e := c - d;
    assert b * e == r by { assert b * c - b * d == b * (c - d); }
  }

  /** C(n, k) = C(n, n − k). */
  lemma {:induction false} ChooseSymmetric(n: nat, k: nat)
    requires k <= n
    ensures Choose(n, k) == Choose(n, n - k)
  {
    if k == 0 || k == n {
      ChooseAll(n);
    } else {
      ChooseSymmetric(n - 1, k - 1);
      ChooseSymmetric(n - 1, k);
      assert Choose(n, n - k) == Choose(n - 1, n - k - 1) + Choose(n - 1, n - k);
    }
  }

  /**
   * `binomialCoefficient`: k is first replaced by min(k, n − k), then the
   * running product is multiplied by n − i and divided by i + 1. After
   * each step it holds C(n, i + 1), so every division is exact. Callers
   * have already rejected k outside [0, n].
   */
  method BinomialCoefficient(n: int, k: int) returns (c: real)
    requires 0 <= k <= n <= MaxTrials
    ensures c == Choose(n, k) as real
    ensures c >= 1.0
  {
    var j := k;
    if j > n - j {
      j := n - j;
    }
    var result: int := 1;
    var i := 0;
    while i < j
      invariant 0 <= i <= j <= n
      invariant result == Choose(n, i)
    {
      ChooseStep(n, i);
      var next := Choose(n, i + 1);
      result := result * (n - i);
      DivideExact(result, i + 1, next);
      result := result / (i + 1);
      i := i + 1;
    }
    ChooseSymmetric(n, k);
    ChoosePositive(n, k);
    c := result as real;
  }

  /** P(X = i) for X ~ Binomial(n, p); zero for i beyond n. */
  function Mass(n: nat, i: nat, p: real): real
  {
    if i <= n then Choose(n, i) as real * Pow(p, i) * Pow(1.0 - p, n - i) else 0.0
  }

  /** The mass of the first k outcomes 0, 1, …, k − 1. */
  function Prefix(n: nat, k: nat, p: real): real
  {
    if k == 0 then 0.0 else Prefix(n, k - 1, p) + Mass(n, k - 1, p)
  }

  /**
   * `BinomialPMF`. The Go code panics when n < 0, k < 0, k > n or p lies
   * outside [0, 1]; here those are preconditions, as is the bound on n
   * under which the coefficient is exact.
   */
  function BinomialPMF(n: int, k: int, p: real): (r: real)
    requires 0 <= k <= n <= MaxTrials
    requires 0.0 <= p <= 1.0
    ensures 0.0 <= r <= 1.0
  {
    MassNonNegative(n, k, p);
    MassAtMostOne(n, k, p);
    Mass(n, k, p)
  }

  /** With p in [0, 1] every mass is non-negative. */
  lemma {:induction false} MassNonNegative(n: nat, i: nat, p: real)
    requires 0.0 <= p <= 1.0
    ensures Mass(n, i, p) >= 0.0
  {
    if i <= n {
      PowNonNegative(p, i);
      PowNonNegative(1.0 - p, n - i);
      var c, a, b := Choose(n, i) as real, Pow(p, i), Pow(1.0 - p, n - i);
      assert c * a >= 0.0;
      assert (c * a) * b >= 0.0;
    }
  }

  /** Prefix sums of non-negative masses only grow. */
  lemma {:induction false} PrefixMonotone(n: nat, j: nat, k: nat, p: real)
    requires j <= k && 0.0 <= p <= 1.0
    ensures 0.0 <= Prefix(n, j, p) <= Prefix(n, k, p)
  {
    if j < k {
      PrefixMonotone(n, j, k - 1, p);
      MassNonNegative(n, k - 1, p);
    } else if j > 0 {
      PrefixMonotone(n, 0, j, p);
    }
  }

  /** Pascal's rule lifted to masses: B(n+1, k) = p·B(n, k−1) + (1−p)·B(n, k). */
  lemma {:induction false} MassStep(n: nat, k: nat, p: real)
    requires 1 <= k <= n + 1
    ensures Mass(n + 1, k, p) == Blend(p, Mass(n, k - 1, p), Mass(n, k, p))
  {
    var q := 1.0 - p;
    var x, y := Choose(n, k - 1) as real, Choose(n, k) as real;
    var a := Pow(p, k - 1);
    assert Choose(n + 1, k) as real == x + y;
    if k <= n {
      var r := Pow(q, n - k);
      assert Pow(q, n + 1 - k) == r * q;
      assert Mass(n + 1, k, p) == (x + y) * (a * p) * (r * q);
      assert Mass(n, k - 1, p) == x * a * (r * q);
      assert Mass(n, k, p) == y * (a * p) * r;
      MassArithmetic(Mass(n + 1, k, p), Mass(n, k - 1, p), Mass(n, k, p), x, y, a, r, p);
    } else {
      ChooseAbove(n, k);
      assert Mass(n + 1, k, p) == x * (a * p) * 1.0;
      assert Mass(n, k - 1, p) == x * a * 1.0;
    }
  }

  /** The arithmetic of `MassStep` for k ≤ n, on plain reals. */
  lemma {:induction false} MassArithmetic(next: real, left: real, right: real, x: real, y: real, a: real, r: real, p: real)
    requires next == (x + y) * (a * p) * (r * (1.0 - p))
    requires left == x * a * (r * (1.0 - p))
    requires right == y * (a * p) * r
    ensures next == Blend(p, left, right)
  {
  }

  /** The same recurrence for prefix sums. */
  lemma {:induction false} PrefixStep(n: nat, k: nat, p: real)
    requires 1 <= k <= n + 2
    ensures Prefix(n + 1, k, p) == Blend(p, Prefix(n, k - 1, p), Prefix(n, k, p))
  {
    if k == 1 {
      var q := 1.0 - p;
      assert Prefix(n + 1, 1, p) == Mass(n + 1, 0, p) == Pow(q, n + 1);
      assert Prefix(n, 1, p) == Mass(n, 0, p) == Pow(q, n);
    } else {
      PrefixStep(n, k - 1, p);
      MassStep(n, k - 1, p);
      BlendAdd(p, Prefix(n, k - 2, p), Prefix(n, k - 1, p), Mass(n, k - 2, p), Mass(n, k - 1, p));
    }
  }

  /** The binomial theorem with p + (1 − p) = 1: the masses of 0..n sum to one. */
  lemma {:induction false} MassTotal(n: nat, p: real)
    ensures Prefix(n, n + 1, p) == 1.0
  {
    if n == 0 {
      assert Prefix(0, 1, p) == Mass(0, 0, p);
    } else {
      MassTotal(n - 1, p);
      PrefixStep(n - 1, n + 1, p);
      assert Prefix(n - 1, n + 1, p) == Prefix(n - 1, n, p) + Mass(n - 1, n, p);
      BlendSame(p, 1.0);
    }
  }

  /** No single mass exceeds one. */
  lemma {:induction false} MassAtMostOne(n: nat, k: nat, p: real)
    requires k <= n && 0.0 <= p <= 1.0
    ensures Mass(n, k, p) <= 1.0
  {
    PrefixMonotone(n, k, k + 1, p);
    PrefixMonotone(n, k + 1, n + 1, p);
    MassTotal(n, p);
  }

  /**
   * `BinomialCDF`: the masses of 0..k summed in a loop, under the same
   * guard as `BinomialPMF`.
   */
  method BinomialCDF(n: int, k: int, p: real) returns (sum: real)
    requires 0 <= k <= n <= MaxTrials
    requires 0.0 <= p <= 1.0
    ensures sum == Prefix(n, k + 1, p)
    ensures 0.0 <= sum <= 1.0
    ensures k == n ==> sum == 1.0
  {
    sum := 0.0;
    var i := 0;
    while i <= k
      invariant 0 <= i <= k + 1
      invariant sum == Prefix(n, i, p)
    {
      sum := sum + BinomialPMF(n, i, p);
      i := i + 1;
    }
    PrefixMonotone(n, k + 1, n + 1, p);
    MassTotal(n, p);
  }

  /** A larger k never lowers the cumulative probability. */
  lemma {:induction false} CumulativeMonotone(n: nat, j: nat, k: nat, p: real)
    requires j <= k <= n && 0.0 <= p <= 1.0
    ensures Prefix(n, j + 1, p) <= Prefix(n, k + 1, p)
  {
    PrefixMonotone(n, j + 1, k + 1, p);
  }

  /** Choosing one and two of five: C(5, 1) = 5 and C(5, 2) = 10. */
  lemma {:induction false} FixtureChoose()
    ensures Choose(5, 1) == 5 && Choose(5, 2) == 10
  {
    ChooseStep(5, 0);
    ChooseStep(5, 1);
  }

  /** Two successes in five fair trials: 10/32 = 0.3125. */
  lemma {:induction false} FixturePMF()
    ensures BinomialPMF(5, 2, 0.5) == 0.3125
  {
    FixtureChoose();
    assert Pow(0.5, 2) == 0.25;
    assert Pow(0.5, 3) == 0.125;
  }

  /** No success in ten trials with p = 0.1: 0.9^10 = 0.3486784401. */
  lemma {:induction false} FixtureNoSuccess()
    ensures BinomialPMF(10, 0, 0.1) == 0.3486784401
  {
    assert Pow(0.9, 2) == 0.81;
    assert Pow(0.9, 4) == 0.6561 by { assert Pow(0.9, 3) == 0.729; }
    assert Pow(0.9, 6) == 0.531441 by { assert Pow(0.9, 5) == 0.59049; }
    assert Pow(0.9, 8) == 0.43046721 by { assert Pow(0.9, 7) == 0.4782969; }
    assert Pow(0.9, 10) == 0.3486784401 by { assert Pow(0.9, 9) == 0.387420489; }
  }

  /** At most two successes in five fair trials: (1 + 5 + 10)/32 = 0.5. */
  lemma {:induction false} FixtureCDF()
    ensures Prefix(5, 3, 0.5) == 0.5
  {
    FixtureChoose();
    assert Pow(0.5, 5) == 0.03125;
    assert Pow(0.5, 4) == 0.0625;
    assert Mass(5, 0, 0.5) == 0.03125;
    assert Mass(5, 1, 0.5) == 5.0 * 0.5 * 0.0625;
    assert Mass(5, 2, 0.5) == 10.0 * 0.25 * 0.125;
  }
}
