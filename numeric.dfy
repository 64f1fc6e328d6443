/** NumericEvaluator.java: closeness of two numbers, graded linearly inside the tolerance
    and by a hyperbolic decay outside it. Numbers are exact reals. */
module Numeric {
  import opened Values
  import Contexts

  datatype NumericEvaluator = NumericEvaluator(expected: Option<real>, tolerance: real)

  function Abs(x: real): real {
    if x < 0.0 then -x else x
  }

  /** The private constructor stores the magnitude of the tolerance. */
  function Make(expected: Option<real>, tolerance: real): (e: NumericEvaluator)
    ensures e.expected == expected && e.tolerance >= 0.0
    ensures e.tolerance == tolerance || e.tolerance == -tolerance
  {
    NumericEvaluator(expected, Abs(tolerance))
  }

  /** `comparedTo`: the default tolerance is 0.01. */
  function ComparedTo(expected: Option<real>): (e: NumericEvaluator)
    ensures e.expected == expected && e.tolerance == 0.01
  {
    Make(expected, 0.01)
  }

  /** `withTolerance`: a copy with the same expected number and the magnitude of the new tolerance. */
  function WithTolerance(e: NumericEvaluator, tolerance: real): (r: NumericEvaluator)
    ensures r.expected == e.expected && r.tolerance >= 0.0
    ensures r.tolerance == tolerance || r.tolerance == -tolerance
  {
    Make(e.expected, tolerance)
  }

  /** The similarity of a difference: 1 − diff/tol inside the tolerance, 1/(1 + diff − tol)
      beyond it. Inside a zero tolerance only a zero difference fits, and it divides 0 by 0. */
  function SimilarityOf(diff: real, tol: real): (r: Result<real>)
    requires diff >= 0.0 && tol >= 0.0
    ensures r.Err? <==> diff == 0.0 && tol == 0.0
    ensures r.Err? ==> r.error == NotANumber
    ensures r.Ok? ==> 0.0 <= r.value <= 1.0
    ensures r.Ok? && diff > tol ==> 0.0 < r.value < 1.0
    ensures diff <= tol && tol > 0.0 ==> r == Ok(1.0 - diff / tol)
    ensures diff > tol ==> r == Ok(1.0 / (1.0 + (diff - tol)))
  {
    if diff <= tol then
      if tol == 0.0 then Err(NotANumber)
      else
        DivideByTotal(diff, tol);
        Ok(1.0 - diff / tol)
    else
      DecayInUnit(diff - tol);
      Ok(1.0 / (1.0 + (diff - tol)))
  }

  lemma DecayInUnit(over: real)
    requires over > 0.0
    ensures 0.0 < 1.0 / (1.0 + over) < 1.0
  {
    DivideBy(1.0, 1.0 + over);
    ScaleCompare(1.0 / (1.0 + over), 1.0, 1.0 + over, 1.0);
  }

  /** The triplet of a similarity: truth is the similarity, indeterminacy 5% of what is
      left, falsity the rest. */
  function Mapped(sim: real): (t: Triplet)
    requires InUnit(sim)
    ensures Normalized(t) && Sum(t) == 1.0
    ensures t.truth == sim && t.indeterminacy == 0.05 * (1.0 - sim)
  {
    var indeterminacy := 0.05 * (1.0 - sim);
    Triplet(sim, indeterminacy, 1.0 - sim - indeterminacy)
  }

  /** `evaluate`: TRUE when both numbers are null, (0, 0.1, 0.9) when only one is; otherwise
      the mapped similarity of the absolute difference, rescaled if it summed above 1. */
  function Evaluation(e: NumericEvaluator, actual: Option<real>): (r: Result<Value>)
    requires e.tolerance >= 0.0
    ensures e.expected.None? && actual.None? ==> r == Ok(TRUE)
    ensures e.expected.None? != actual.None? ==> r == Ok(Triplet(0.0, 0.1, 0.9))
    ensures e.expected.Some? && actual.Some? ==>
      var diff := Abs(actual.value - e.expected.value);
      (r.Err? <==> diff == 0.0 && e.tolerance == 0.0)
      && (r.Ok? ==> r.value == Mapped(SimilarityOf(diff, e.tolerance).value))
  {
    match (e.expected, actual)
    case (None, None) => Ok(TRUE)
    case (None, Some(_)) => Ok(Triplet(0.0, 0.1, 0.9))
    case (Some(_), None) => Ok(Triplet(0.0, 0.1, 0.9))
    case (Some(x), Some(y)) =>
      match SimilarityOf(Abs(y - x), e.tolerance)
      case Err(err) => Err(err)
      case Ok(sim) => Construct(Normalize(Mapped(sim)))
  }

  // ---- Properties ----

  /** Equal numbers under a positive tolerance give exactly TRUE. */
  lemma EqualNumbersTrue(e: NumericEvaluator, x: real)
    requires e.tolerance > 0.0 && e.expected == Some(x)
    ensures Evaluation(e, Some(x)) == Ok(TRUE)
  {
  }

  /** Equal numbers under a zero tolerance divide 0 by 0. */
  lemma ZeroToleranceEqualNumbers(x: real)
    ensures Evaluation(NumericEvaluator(Some(x), 0.0), Some(x)) == Err(NotANumber)
  {
  }

  /** Inside the tolerance a larger difference never yields more truth. */
  lemma SimilarityFallsInside(d1: real, d2: real, tol: real)
    requires 0.0 <= d1 <= d2 <= tol && tol > 0.0
    ensures SimilarityOf(d1, tol).value >= SimilarityOf(d2, tol).value
  {
    DivMonotone(d1, d2, tol);
    assert SimilarityOf(d1, tol).value == 1.0 - d1 / tol;
    assert SimilarityOf(d2, tol).value == 1.0 - d2 / tol;
  }

  /** Beyond the tolerance a larger difference never yields more truth. */
  lemma SimilarityFallsOutside(d1: real, d2: real, tol: real)
    requires tol >= 0.0 && tol < d1 <= d2
    ensures SimilarityOf(d1, tol).value >= SimilarityOf(d2, tol).value
  {
    var a := 1.0 + (d1 - tol);
    var b := 1.0 + (d2 - tol);
    DivideBy(1.0, a);
    DivideBy(1.0, b);
    ReciprocalFalls(a, b);
  }

  lemma ReciprocalFalls(a: real, b: real)
    requires 0.0 < a <= b
    ensures 1.0 / a >= 1.0 / b
  {
    DivideBy(1.0, a);
    DivideBy(1.0, b);
    ScaleCompare(1.0 / b, 1.0 / a, a, (1.0 / b) * a);
    assert (1.0 / b) * a <= (1.0 / b) * b by {
      ScaleCompare(a, b, 1.0 / b, a * (1.0 / b));
    }
  }

  /** The edge of the tolerance breaks monotonicity: a difference equal to a positive
      tolerance gives truth 0, while any difference less than 0.1 beyond it gives truth above 0.9. */
  lemma ToleranceEdgeJump(tol: real, beyond: real)
    requires tol > 0.0 && tol < beyond < tol + 0.1
    ensures SimilarityOf(tol, tol) == Ok(0.0)
    ensures SimilarityOf(beyond, tol).value > 0.9
  {
    DivideBy(tol, tol);
    assert tol / tol == 1.0;
    var a := 1.0 + (beyond - tol);
    DivideBy(1.0, a);
    ScaleCompare(1.0 / a, 0.9, a, 1.0);
  }

  /** Every completed evaluation sums to exactly 1, so the rescale never fires. */
  lemma NoRescale(e: NumericEvaluator, x: real, y: real)
    requires e.tolerance >= 0.0 && e.expected == Some(x)
    requires Evaluation(e, Some(y)).Ok?
    ensures Sum(Evaluation(e, Some(y)).value) == 1.0
  {
  }

  // ---- The demonstrations' numbers ----

  /** 1.99998 against 2.0 at tolerance 0.0001 grades (0.8, 0.01, 0.19), which the
      (0.8, 0.05, 0.2) context accepts; at the default tolerance the default context accepts it. */
  lemma CloseMatchAccepted()
    ensures Evaluation(WithTolerance(ComparedTo(Some(2.0)), 0.0001), Some(1.99998)) == Ok(Triplet(0.8, 0.01, 0.19))
    ensures Contexts.Evaluate(Contexts.Context(0.8, 0.05, 0.2, 0.01), Triplet(0.8, 0.01, 0.19))
    ensures Evaluation(ComparedTo(Some(2.0)), Some(1.99998)).Ok?
    ensures Contexts.Evaluate(Contexts.DEFAULT, Evaluation(ComparedTo(Some(2.0)), Some(1.99998)).value)
  {
    assert Abs(1.99998 - 2.0) == 0.00002;
  }

  /** 105 against 100 at tolerance 10 grades (0.5, 0.025, 0.475), which the (0.4, 0.1, 0.6)
      context accepts; at the default tolerance the default context rejects it. */
  lemma DegradedMatchAccepted()
    ensures Evaluation(WithTolerance(ComparedTo(Some(100.0)), 10.0), Some(105.0)) == Ok(Triplet(0.5, 0.025, 0.475))
    ensures Contexts.Evaluate(Contexts.Context(0.4, 0.1, 0.6, 0.01), Triplet(0.5, 0.025, 0.475))
    ensures Evaluation(ComparedTo(Some(100.0)), Some(105.0)).Ok?
    ensures !Contexts.Evaluate(Contexts.DEFAULT, Evaluation(ComparedTo(Some(100.0)), Some(105.0)).value)
  {
    var r := Evaluation(ComparedTo(Some(100.0)), Some(105.0));
    assert Abs(105.0 - 100.0) == 5.0;
    DecayInUnit(5.0 - 0.01);
    assert r.value.truth == 1.0 / (1.0 + (5.0 - 0.01));
    ScaleCompare(1.0 / (1.0 + (5.0 - 0.01)), 0.8, 1.0 + (5.0 - 0.01), 1.0);
  }
}
