/**
 * `Conditional`: P(A | B) = P(A ∩ B)/P(B), with the Go code's convention
 * that conditioning on an impossible event gives 0.
 */
module ConditionalProbability {
  import opened ProbabilityRules

  /**
   * `Conditional`. When P(B) = 0 the result is 0; otherwise it is the one
   * number that multiplied by P(B) gives P(A ∩ B).
   */
  function Conditional(ab: real, b: real): (r: real)
    ensures b == 0.0 ==> r == 0.0
    ensures b != 0.0 ==> r * b == ab
  {
    if b == 0.0 then 0.0 else ab / b
  }

  /** A joint probability consistent with P(B) > 0 conditions to a probability. */
  lemma {:induction false} ConditionalIsProbability(a: real, b: real, ab: real)
    requires Consistent(a, b, ab)
    ensures Probability(Conditional(ab, b))
  {
    if b != 0.0 {
      assert ab / b <= b / b;
    }
  }

  /**
   * The chain rule: P(A | B)·P(B) = P(A ∩ B) whenever P(B) ≠ 0, and for an
   * independent event conditioning on B changes nothing.
   */
  lemma {:induction false} ChainRule(a: real, b: real, ab: real)
    requires b != 0.0
    ensures MultiplicationRule(Conditional(ab, b), b) == ab
    ensures Conditional(MultiplicationRule(a, b), b) == a
  {
  }

  /** 0.15/0.3 = 0.2/0.4 = 0.5, and 0/0.5 = 0.3 | 0 = 0. */
  lemma {:induction false} FixtureConditional()
    ensures Conditional(0.15, 0.3) == 0.5 && Conditional(0.2, 0.4) == 0.5
    ensures Conditional(0.0, 0.5) == 0.0 && Conditional(0.3, 0.0) == 0.0
  {
  }
}
