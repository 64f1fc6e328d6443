/** NeutrosophicEqualsEvaluator.java: equality that keeps a little doubt. A reference that
    may be null is an `Option`; `Objects.equals` on two present values is value equality. */
module NeutrosophicEquals {
  import opened Values
  import Contexts

  datatype NeutrosophicEqualsEvaluator<T(==)> = NeutrosophicEqualsEvaluator(expected: Option<T>)

  const BOTH_NULL: Value := Triplet(0.98, 0.01, 0.01)
  const ONE_NULL: Value := Triplet(0.1, 0.3, 0.6)
  const EQUAL: Value := Triplet(0.95, 0.04, 0.01)
  const UNEQUAL: Value := Triplet(0.05, 0.15, 0.80)

  /** `comparedTo`. */
  function ComparedTo<T(==)>(expected: Option<T>): (e: NeutrosophicEqualsEvaluator<T>)
    ensures e.expected == expected
  {
    NeutrosophicEqualsEvaluator(expected)
  }

  /** `evaluate`: one constant for each of the four cases. */
  function Evaluation<T(==)>(e: NeutrosophicEqualsEvaluator<T>, actual: Option<T>): (r: Value)
    ensures e.expected.None? && actual.None? <==> r == BOTH_NULL
    ensures e.expected.None? != actual.None? <==> r == ONE_NULL
    ensures e.expected.Some? && actual.Some? ==> (r == EQUAL <==> e.expected.value == actual.value)
    ensures e.expected.Some? && actual.Some? ==> (r == UNEQUAL <==> e.expected.value != actual.value)
  {
    match (e.expected, actual)
    case (None, None) => BOTH_NULL
    case (None, Some(_)) => ONE_NULL
    case (Some(_), None) => ONE_NULL
    case (Some(x), Some(y)) => if x == y then EQUAL else UNEQUAL
  }

  /** The default context accepts the two equal cases and rejects the two unequal ones. */
  lemma DefaultAcceptsExactlyEqual<T>(e: NeutrosophicEqualsEvaluator<T>, actual: Option<T>)
    ensures Contexts.Evaluate(Contexts.DEFAULT, Evaluation(e, actual)) <==> e.expected == actual
  {
  }

  /** Lowering truth to 0.04 and raising indeterminacy to 0.5 still rejects unequal values:
      their falsity 0.8 is not below the kept falsity threshold 0.2. */
  lemma LowTruthContextStillRejects<T>(x: T, y: T)
    requires x != y
    ensures Contexts.Validate(0.04, 0.5, 0.2, 0.01) == Ok(Contexts.Context(0.04, 0.5, 0.2, 0.01))
    ensures !Contexts.Evaluate(Contexts.Context(0.04, 0.5, 0.2, 0.01), Evaluation(ComparedTo(Some(x)), Some(y)))
  {
  }
}
