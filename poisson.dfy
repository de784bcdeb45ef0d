/**
 * The Poisson distribution: the float64 `factorial` with its overflow
 * panic, the mass function `PoissonPMF` and the cumulative sum
 * `PoissonCDF`. `math.Exp` is the uninterpreted `m.exp` of `Numerics`;
 * the largest finite float64 is the parameter `limit`, and a running
 * product above it is the overflow the Go code reports by panicking,
 * returned here as `Err`.
 */
module Poisson {
  import opened Outcomes
  import opened Numerics

  /** n!. */
  function Fact(n: nat): real
  {
    if n == 0 then 1.0 else n as real * Fact(n - 1)
  }

  /** Factorials are at least one and never decrease. */
  lemma {:induction false} FactGrows(n: nat)
    ensures Fact(n) >= 1.0
    ensures Fact(n) <= Fact(n + 1)
  {
    if n > 0 {
      FactGrows(n - 1);
    }
    var f := Fact(n);
    assert Fact(n + 1) == (n + 1) as real * f;
    assert (n + 1) as real * f == n as real * f + f;
  }

  /** Factorials never decrease: i ≤ j implies i! ≤ j!. */
  lemma {:induction false} FactMonotone(i: nat, j: nat)
    requires i <= j
    ensures Fact(i) <= Fact(j)
  {
    if i < j {
      FactMonotone(i, j - 1);
      FactGrows(j - 1);
    }
  }

  /**
   * The panic condition of `factorial(n)`: some running product 2·3·…·i
   * with 2 ≤ i ≤ n leaves the representable range. Products only grow,
   * so this is the case exactly when n ≥ 2 and n! does.
   */
  predicate Overflows(n: nat, limit: real)
  {
    n >= 2 && Fact(n) > limit
  }

  /**
   * `factorial`: the product 2·3·…·n starting from 1. A negative n panics
   * (a precondition here); a running product above `limit` panics (`Err`).
   */
  method Factorial(n: int, limit: real) returns (r: Result<real>)
    requires n >= 0
    ensures r.Err? <==> Overflows(n, limit)
    ensures r.Ok? ==> r.value == Fact(n) && r.value >= 1.0
  {
    var result := 1.0;
    var i := 2;
    while i <= n
      invariant i == 2 || 2 < i <= n + 1
      invariant result == Fact(i - 1)
      invariant i > 2 ==> Fact(i - 1) <= limit
    {
      result := result * i as real;
      assert result == Fact(i);
      if result > limit {
        FactMonotone(i, n);
        return Err("factorial: result overflowed float64");
      }
      i := i + 1;
    }
    assert n >= 2 ==> i - 1 == n;
    FactGrows(i - 1);
    if n < 2 {
      assert Fact(0) == 1.0 && Fact(1) == 1.0;
    }
    return Ok(result);
  }

  /** The mass λ^k·e^(−λ)/k! of k events at rate λ. */
  function Mass(m: Math, k: nat, lambda: real): real
  {
    FactGrows(k);
    Pow(lambda, k) * m.exp(-lambda) / Fact(k)
  }

  /** With λ > 0 every mass is positive. */
  lemma {:induction false} MassPositive(m: Math, k: nat, lambda: real)
    requires Sound(m) && lambda > 0.0
    ensures Mass(m, k, lambda) > 0.0
  {
    PowNonNegative(lambda, k);
    FactGrows(k);
    var a, e := Pow(lambda, k), m.exp(-lambda);
    assert a * e > 0.0;
  }

  /**
   * `PoissonPMF`. k < 0 or λ ≤ 0 panics (preconditions); the call to
   * `factorial` panics when k! overflows (`Err`).
   */
  function PoissonPMF(m: Math, k: int, lambda: real, limit: real): (r: Result<real>)
    requires Sound(m)
    requires k >= 0 && lambda > 0.0
    ensures r.Err? <==> Overflows(k, limit)
    ensures r.Ok? ==> r.value > 0.0 && r.value * Fact(k) == Pow(lambda, k) * m.exp(-lambda)
  {
    if Overflows(k, limit) then Err("factorial: result overflowed float64")
    else
      MassPositive(m, k, lambda);
      FactGrows(k);
      Ok(Mass(m, k, lambda))
  }

  /** Consecutive masses: P(k + 1) = P(k)·λ/(k + 1). */
  lemma {:induction false} MassRecurrence(m: Math, k: nat, lambda: real)
    ensures Mass(m, k + 1, lambda) == Mass(m, k, lambda) * lambda / (k + 1) as real
  {
    FactGrows(k);
    var a, e, f, n := Pow(lambda, k), m.exp(-lambda), Fact(k), (k + 1) as real;
    assert Fact(k + 1) == n * f;
    assert Mass(m, k + 1, lambda) == (a * lambda) * e / (n * f);
    RecurrenceArithmetic(a, lambda, e, f, n);
  }

  /** The arithmetic of `MassRecurrence`, on plain reals. */
  lemma {:induction false} RecurrenceArithmetic(a: real, lambda: real, e: real, f: real, n: real)
    requires f > 0.0 && n > 0.0
    ensures (a * lambda) * e / (n * f) == (a * e / f) * lambda / n
  {
    var x := a * e / f;
    assert x * f == a * e;
    assert (x * lambda / n) * (n * f) == x * f * lambda;
  }

  /** The masses of 0, 1, …, j − 1 events. */
  function Cumulative(m: Math, j: nat, lambda: real): real
  {
    if j == 0 then 0.0 else Cumulative(m, j - 1, lambda) + Mass(m, j - 1, lambda)
  }

  /**
   * `PoissonCDF`: the masses of 0..k summed in a loop, each through
   * `PoissonPMF`, so an overflowing factorial panics here too.
   */
  method PoissonCDF(m: Math, k: int, lambda: real, limit: real) returns (r: Result<real>)
    requires Sound(m)
    requires k >= 0 && lambda > 0.0
    ensures r.Err? <==> Overflows(k, limit)
    ensures r.Ok? ==> r.value == Cumulative(m, k + 1, lambda) && r.value > 0.0
  {
    var sum := 0.0;
    var i := 0;
    while i <= k
      invariant 0 <= i <= k + 1
      invariant sum == Cumulative(m, i, lambda)
      invariant i > 0 ==> sum > 0.0
      invariant forall j :: 0 <= j < i ==> !Overflows(j, limit)
    {
      var t := PoissonPMF(m, i, lambda, limit);
      if t.Err? {
        FactMonotone(i, k);
        return Err(t.msg);
      }
      sum := sum + t.value;
      i := i + 1;
    }
    assert !Overflows(k, limit);
    return Ok(sum);
  }

  /** The cumulative sum grows with every count it covers. */
  lemma {:induction false} CumulativeMonotone(m: Math, i: nat, j: nat, lambda: real)
    requires Sound(m) && lambda > 0.0 && i <= j
    ensures Cumulative(m, i, lambda) <= Cumulative(m, j, lambda)
  {
    if i < j {
      CumulativeMonotone(m, i, j - 1, lambda);
      MassPositive(m, j - 1, lambda);
    }
  }

  /** 0! = 1! = 1, and 5! = 120. */
  lemma {:induction false} FixtureFact()
    ensures Fact(0) == 1.0 && Fact(1) == 1.0 && Fact(5) == 120.0
  {
    assert Fact(2) == 2.0;
    assert Fact(3) == 6.0;
    assert Fact(4) == 24.0;
  }

  /**
   * At λ = 2 one and two events are equally likely, 2·e^(−2), three
   * events are 2/3 as likely, and at most two events have probability
   * 5·e^(−2).
   */
  lemma {:induction false} FixtureRateTwo(m: Math)
    ensures Mass(m, 1, 2.0) == Mass(m, 2, 2.0) == 2.0 * m.exp(-2.0)
    ensures Mass(m, 3, 2.0) == Mass(m, 2, 2.0) * 2.0 / 3.0
    ensures Cumulative(m, 3, 2.0) == 5.0 * m.exp(-2.0)
  {
    var e := m.exp(-2.0);
    assert Fact(2) == 2.0;
    assert Pow(2.0, 2) == 4.0;
    assert Mass(m, 0, 2.0) == e;
    assert Mass(m, 1, 2.0) == 2.0 * e;
    assert Mass(m, 2, 2.0) == 4.0 * e / 2.0 == 2.0 * e;
    assert Cumulative(m, 3, 2.0) == Cumulative(m, 2, 2.0) + Mass(m, 2, 2.0);
    assert Cumulative(m, 2, 2.0) == Cumulative(m, 1, 2.0) + Mass(m, 1, 2.0);
    assert Cumulative(m, 1, 2.0) == Mass(m, 0, 2.0);
    MassRecurrence(m, 2, 2.0);
  }
}
