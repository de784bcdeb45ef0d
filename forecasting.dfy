/**
 * Single exponential smoothing of a time series (`ExponentialSmoothing`):
 * s₀ = data[0] and sᵢ = α·data[i] + (1 − α)·sᵢ₋₁, returning the last sᵢ.
 */
module Forecasting {
  import opened Sums
  import opened Descriptive

  /** The smoothed value at the end of the series `s`. */
  function Smoothed(s: seq<real>, alpha: real): real
    requires |s| > 0
  {
    if |s| == 1 then s[0]
    else Blend(alpha, s[|s| - 1], Smoothed(s[..|s| - 1], alpha))
  }

  /**
   * `ExponentialSmoothing`. The Go code panics on an empty series and on
   * α outside (0, 1]; both are preconditions here.
   */
  method ExponentialSmoothing(data: seq<real>, alpha: real) returns (smoothed: real)
    requires |data| > 0
    requires 0.0 < alpha <= 1.0
    ensures smoothed == Smoothed(data, alpha)
    ensures Least(data) <= smoothed <= Greatest(data)
  {
    smoothed := data[0];
    var i := 1;
    while i < |data|
      invariant 1 <= i <= |data|
      invariant smoothed == Smoothed(data[..i], alpha)
    {
      assert data[..i + 1][..i] == data[..i];
      smoothed := Blend(alpha, data[i], smoothed);
      i := i + 1;
    }
    assert data[..i] == data;
    SmoothedBetween(data, alpha);
  }

  /** Every step is a convex combination, so the result lies between the least and greatest value. */
  lemma {:induction false} SmoothedBetween(s: seq<real>, alpha: real)
    requires |s| > 0 && 0.0 < alpha <= 1.0
    ensures Least(s) <= Smoothed(s, alpha) <= Greatest(s)
  {
    if |s| > 1 {
      var init, last := s[..|s| - 1], s[|s| - 1];
      var prev, lo, hi := Smoothed(init, alpha), Least(s), Greatest(s);
      SmoothedBetween(init, alpha);
      LeastOfPrefix(s);
      LastBetween(s);
      Convex(alpha, last, prev, lo, hi);
      SmoothedStep(s, alpha);
    }
  }

  lemma {:induction false} SmoothedStep(s: seq<real>, alpha: real)
    requires |s| > 1
    ensures Smoothed(s, alpha) == Blend(alpha, s[|s| - 1], Smoothed(s[..|s| - 1], alpha))
  {
  }

  lemma {:induction false} LastBetween(s: seq<real>)
    requires |s| > 0
    ensures Least(s) <= s[|s| - 1] <= Greatest(s)
  {
  }

  /** The bounds of the whole series also bound every value of the series without its last element. */
  lemma {:induction false} LeastOfPrefix(s: seq<real>)
    requires |s| > 1
    ensures Least(s) <= Least(s[..|s| - 1]) && Greatest(s[..|s| - 1]) <= Greatest(s)
  {
    var init := s[..|s| - 1];
    assert Least(init) in init && Greatest(init) in init;
  }

  /** With α = 1 the smoothed value is the last observation. */
  lemma {:induction false} SmoothedAlphaOne(s: seq<real>)
    requires |s| > 0
    ensures Smoothed(s, 1.0) == s[|s| - 1]
  {
  }

  /** A series of one value smooths to that value, whatever α is. */
  lemma {:induction false} SmoothedSingle(x: real, alpha: real)
    ensures Smoothed([x], alpha) == x
  {
  }

  /** A constant series smooths to its constant. */
  lemma {:induction false} SmoothedConstant(s: seq<real>, alpha: real)
    requires |s| > 0 && AllEqualTo(s, s[0])
    ensures Smoothed(s, alpha) == s[0]
  {
    if |s| > 1 {
      SmoothedConstant(s[..|s| - 1], alpha);
    }
  }

  predicate AllEqualTo(s: seq<real>, c: real)
  {
    forall i :: 0 <= i < |s| ==> s[i] == c
  }

  /** The series 50, 55, 53, 60, 62, 65 with α = 0.3 smooths to 59.15885. */
  lemma {:induction false} FixtureSmoothing()
    ensures Smoothed([50.0, 55.0, 53.0, 60.0, 62.0, 65.0], 0.3) == 59.15885
  {
    var s := [50.0, 55.0, 53.0, 60.0, 62.0, 65.0];
    assert s[..1] == [50.0];
    assert Smoothed(s[..2], 0.3) == 51.5 by { assert s[..2][..1] == s[..1]; }
    assert Smoothed(s[..3], 0.3) == 51.95 by { assert s[..3][..2] == s[..2]; }
    assert Smoothed(s[..4], 0.3) == 54.365 by { assert s[..4][..3] == s[..3]; }
    assert Smoothed(s[..5], 0.3) == 56.6555 by { assert s[..5][..4] == s[..4]; }
    assert s[..6] == s;
  }
}
