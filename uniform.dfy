/**
 * The continuous uniform distribution on [a, b]: `UniformPDF` and
 * `UniformCDF`. Both panic unless a < b, a precondition here.
 */
module Uniform {

  /** `UniformPDF`: 1/(b − a) on the closed interval [a, b], 0 outside it. */
  function UniformPDF(x: real, a: real, b: real): (r: real)
    requires a < b
    ensures r >= 0.0
    ensures a <= x <= b ==> r * (b - a) == 1.0
    ensures x < a || x > b ==> r == 0.0
  {
    if x < a || x > b then 0.0 else 1.0 / (b - a)
  }

  /** `UniformCDF`: 0 below a, 1 above b, (x − a)/(b − a) in between. */
  function UniformCDF(x: real, a: real, b: real): (r: real)
    requires a < b
    ensures 0.0 <= r <= 1.0
    ensures x <= a ==> r == 0.0
    ensures x >= b ==> r == 1.0
  {
    if x < a then 0.0
    else if x > b then 1.0
    else
      Fraction(x - a, b - a);
      (x - a) / (b - a)
  }

  /** A part u of a positive whole w is a fraction in [0, 1], and all of it is 1. */
  lemma {:induction false} Fraction(u: real, w: real)
    requires 0.0 <= u <= w && w > 0.0
    ensures 0.0 <= u / w <= 1.0
    ensures u == w ==> u / w == 1.0
  {
    assert u / w * w == u;
  }

  /** Dividing by a positive number keeps the order, strict or not. */
  lemma {:induction false} QuotientOrder(u: real, v: real, w: real)
    requires u <= v && w > 0.0
    ensures u / w <= v / w
    ensures u < v ==> u / w < v / w
  {
    assert (v / w - u / w) * w == v - u;
  }

  /** The CDF never decreases. */
  lemma {:induction false} CDFMonotone(x: real, y: real, a: real, b: real)
    requires a < b && x <= y
    ensures UniformCDF(x, a, b) <= UniformCDF(y, a, b)
  {
    if a <= x && y <= b {
      QuotientOrder(x - a, y - a, b - a);
    }
  }

  /**
   * On [a, b] the CDF is the constant density times the length covered so
   * far: F(x) = (x − a)·f(x).
   */
  lemma {:induction false} CDFIsIntegral(x: real, a: real, b: real)
    requires a < b && a <= x <= b
    ensures UniformCDF(x, a, b) == (x - a) * UniformPDF(x, a, b)
  {
  }

  /**
   * Inside [a, b] the CDF is strictly increasing, so it takes each value
   * in (0, 1) at exactly one point.
   */
  lemma {:induction false} CDFStrictInside(x: real, y: real, a: real, b: real)
    requires a < b && a <= x < y <= b
    ensures UniformCDF(x, a, b) < UniformCDF(y, a, b)
  {
    QuotientOrder(x - a, y - a, b - a);
  }

  /** On [0, 10]: density 0.1 at 0, 5 and 10 and 0 at −1 and 11; F = 0, 0.5, 1 at 0, 5, 10. */
  lemma {:induction false} FixtureUniform()
    ensures UniformPDF(5.0, 0.0, 10.0) == 0.1 && UniformPDF(0.0, 0.0, 10.0) == 0.1
    ensures UniformPDF(10.0, 0.0, 10.0) == 0.1
    ensures UniformPDF(-1.0, 0.0, 10.0) == 0.0 && UniformPDF(11.0, 0.0, 10.0) == 0.0
    ensures UniformCDF(5.0, 0.0, 10.0) == 0.5 && UniformCDF(0.0, 0.0, 10.0) == 0.0
    ensures UniformCDF(10.0, 0.0, 10.0) == 1.0
    ensures UniformCDF(-1.0, 0.0, 10.0) == 0.0 && UniformCDF(11.0, 0.0, 10.0) == 1.0
  {
  }
}
