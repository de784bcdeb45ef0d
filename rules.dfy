/**
 * The elementary probability rules: `AdditionRule`, `MultiplicationRule`,
 * `ComplementRule`, `Intersection` and `Union`. None of them checks its
 * arguments; the bounds below are stated for arguments that are
 * probabilities of consistent events.
 */
module ProbabilityRules {
  import opened Sums

  /** A probability. */
  predicate Probability(p: real)
  {
    0.0 <= p <= 1.0
  }

  /**
   * The joint probability `ab` can belong to events of probabilities `a`
   * and `b`: max(0, a + b − 1) ≤ ab ≤ min(a, b).
   */
  predicate Consistent(a: real, b: real, ab: real)
  {
    Probability(a) && Probability(b) && 0.0 <= ab && ab <= a && ab <= b && a + b - 1.0 <= ab
  }

  /**
   * `AdditionRule`: P(A ∪ B) = P(A) + P(B) − P(A ∩ B). For consistent
   * arguments the union is a probability no smaller than either event.
   */
  function AdditionRule(a: real, b: real, ab: real): (r: real)
    ensures r + ab == a + b
    ensures Consistent(a, b, ab) ==> Probability(r) && a <= r && b <= r
  {
    a + b - ab
  }

  /** `Union`: the same inclusion–exclusion formula with the overlap passed in. */
  function Union(a: real, b: real, overlap: real): (r: real)
    ensures r + overlap == a + b
    ensures Consistent(a, b, overlap) ==> Probability(r) && a <= r && b <= r
  {
    a + b - overlap
  }

  /** `Union` and `AdditionRule` compute the same probability. */
  lemma {:induction false} UnionIsAdditionRule(a: real, b: real, ab: real)
    ensures Union(a, b, ab) == AdditionRule(a, b, ab)
  {
  }

  /**
   * `MultiplicationRule`: P(A ∩ B) = P(A)·P(B) for independent events. For
   * probabilities the product is a joint probability consistent with them,
   * and it is zero exactly when one of the events is impossible.
   */
  function MultiplicationRule(a: real, b: real): (r: real)
    ensures Probability(a) && Probability(b) ==> Consistent(a, b, r)
    ensures r == 0.0 <==> a == 0.0 || b == 0.0
  {
    IndependentConsistent(a, b);
    a * b
  }

  lemma {:induction false} IndependentConsistent(a: real, b: real)
    ensures Probability(a) && Probability(b) ==> Consistent(a, b, a * b)
  {
    if Probability(a) && Probability(b) {
      assert a * b <= a * 1.0;
      assert a * b <= 1.0 * b;
      ProductNonNegative(1.0 - a, 1.0 - b);
      assert (1.0 - a) * (1.0 - b) == 1.0 - a - b + a * b;
    }
  }

  /** `Intersection`: the same product. */
  function Intersection(a: real, b: real): (r: real)
    ensures Probability(a) && Probability(b) ==> Consistent(a, b, r)
    ensures r == 0.0 <==> a == 0.0 || b == 0.0
  {
    IndependentConsistent(a, b);
    a * b
  }

  /** `Intersection` and `MultiplicationRule` compute the same probability. */
  lemma {:induction false} IntersectionIsMultiplicationRule(a: real, b: real)
    ensures Intersection(a, b) == MultiplicationRule(a, b)
  {
  }

  /** `ComplementRule`: P(A′) = 1 − P(A). */
  function ComplementRule(a: real): (r: real)
    ensures r + a == 1.0
    ensures Probability(a) <==> Probability(r)
  {
    1.0 - a
  }

  /** Taking the complement twice gives back the event's probability. */
  lemma {:induction false} ComplementInvolution(a: real)
    ensures ComplementRule(ComplementRule(a)) == a
  {
  }

  /**
   * De Morgan for independent events: the union is the complement of both
   * complements occurring together, 1 − (1 − a)(1 − b).
   */
  lemma {:induction false} IndependentUnion(a: real, b: real)
    ensures AdditionRule(a, b, MultiplicationRule(a, b))
         == ComplementRule(MultiplicationRule(ComplementRule(a), ComplementRule(b)))
  {
    assert (1.0 - a) * (1.0 - b) == 1.0 - a - b + a * b;
  }

  /** 0.6 + 0.3 − 0.2 = 0.7; 0.5·0.4 = 0.2; 1 − 0.8 = 0.2; 0.7·0.2 = 0.14; 0.5 + 0.4 − 0.1 = 0.8. */
  lemma {:induction false} FixtureRules()
    ensures AdditionRule(0.6, 0.3, 0.2) == 0.7
    ensures MultiplicationRule(0.5, 0.4) == 0.2
    ensures ComplementRule(0.8) == 0.2
    ensures Intersection(0.7, 0.2) == 0.14
    ensures Union(0.5, 0.4, 0.1) == 0.8
  {
  }
}
