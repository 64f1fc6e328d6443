/** ExactEqualsEvaluator.java: binary equality. A reference that may be null is an `Option`,
    and `Objects.equals` is value equality on it, so null equals only null. */
module ExactEquals {
  import opened Values
  import Contexts

  datatype ExactEqualsEvaluator<T(==)> = ExactEqualsEvaluator(expected: Option<T>)

  /** `comparedTo`. */
  function ComparedTo<T(==)>(expected: Option<T>): (e: ExactEqualsEvaluator<T>)
    ensures e.expected == expected
  {
    ExactEqualsEvaluator(expected)
  }

  /** `evaluate`: TRUE when the values are equal, FALSE otherwise; never any indeterminacy. */
  function Evaluation<T(==)>(e: ExactEqualsEvaluator<T>, actual: Option<T>): (r: Value)
    ensures r == TRUE <==> e.expected == actual
    ensures r == FALSE <==> e.expected != actual
    ensures r.indeterminacy == 0.0
  {
    if e.expected == actual then TRUE else FALSE
  }

  /** The default context accepts exactly the equal case. */
  lemma DefaultAcceptsExactlyEqual<T>(e: ExactEqualsEvaluator<T>, actual: Option<T>)
    ensures Contexts.Evaluate(Contexts.DEFAULT, Evaluation(e, actual)) <==> e.expected == actual
  {
  }

  /** Null against a value, either way round, is FALSE; null against null is TRUE. */
  lemma NullHandling<T>(x: T)
    ensures Evaluation(ComparedTo(Some(x)), None) == FALSE
    ensures Evaluation(ComparedTo(None), Some(x)) == FALSE
    ensures Evaluation(ComparedTo<T>(None), None) == TRUE
  {
  }
}
