/** NeutrosophicAssertion.java and the factory in NeutrosophicAssert.java: evaluate the
    actual value, ask the context, and pass or fail. A failed assertion's `AssertionError`
    is the verdict `Failed`; an exception the evaluator throws escapes as `Raised`. */
module Assertion {
  import opened Values
  import Contexts
  import ExactEquals
  import NeutrosophicEquals
  import FuzzyString
  import Temporal

  datatype NeutrosophicAssertion<!T> = NeutrosophicAssertion(actual: T, evaluator: Evaluator<T>, context: Contexts.Context)

  /** How a terminal call ends. */
  datatype Verdict =
    | Passed          // returned normally
    | Failed          // threw an AssertionError
    | Raised(error: Error)  // the evaluator threw

  /** `assertThat(actual, evaluator, context)`: only stores its arguments. */
  function AssertThat<T>(actual: T, evaluator: Evaluator<T>, context: Contexts.Context): (a: NeutrosophicAssertion<T>)
    ensures a.actual == actual && a.evaluator == evaluator && a.context == context
  {
    NeutrosophicAssertion(actual, evaluator, context)
  }

  /** `assertThat(actual, evaluator)`: the default context. */
  function AssertThatDefault<T>(actual: T, evaluator: Evaluator<T>): (a: NeutrosophicAssertion<T>)
    ensures a.actual == actual && a.evaluator == evaluator && a.context == Contexts.DEFAULT
  {
    AssertThat(actual, evaluator, Contexts.DEFAULT)
  }

  /** `context.evaluate(evaluator.evaluate(actual))`. A NaN component fails every comparison
      the context makes, so a not-a-number result is never accepted; any other evaluator
      error escapes. */
  function Accepted<T>(a: NeutrosophicAssertion<T>): (r: Result<bool>)
    ensures a.evaluator(a.actual).Ok? ==> r == Ok(Contexts.Evaluate(a.context, a.evaluator(a.actual).value))
    ensures a.evaluator(a.actual) == Err(NotANumber) ==> r == Ok(false)
    ensures r.Err? <==> a.evaluator(a.actual).Err? && a.evaluator(a.actual) != Err(NotANumber)
    ensures r.Err? ==> a.evaluator(a.actual) == Err(r.error)
  {
    match a.evaluator(a.actual)
    case Ok(v) => Ok(Contexts.Evaluate(a.context, v))
    case Err(NotANumber) => Ok(false)
    case Err(err) => Err(err)
  }

  /** `isTrue`: fails exactly when the context does not accept the evaluated triplet. */
  function IsTrue<T>(a: NeutrosophicAssertion<T>): (r: Verdict)
    ensures r == Passed <==> Accepted(a) == Ok(true)
    ensures r == Failed <==> Accepted(a) == Ok(false)
    ensures r.Raised? <==> Accepted(a).Err?
  {
    match Accepted(a)
    case Err(err) => Raised(err)
    case Ok(accepted) => if accepted then Passed else Failed
  }

  /** `isFalse`: fails exactly when the context accepts the evaluated triplet. */
  function IsFalse<T>(a: NeutrosophicAssertion<T>): (r: Verdict)
    ensures r == Passed <==> Accepted(a) == Ok(false)
    ensures r == Failed <==> Accepted(a) == Ok(true)
    ensures r.Raised? <==> Accepted(a).Err?
  {
    match Accepted(a)
    case Err(err) => Raised(err)
    case Ok(accepted) => if accepted then Failed else Passed
  }

  /** `isAccepted`, the alias of `isTrue`. */
  function IsAccepted<T>(a: NeutrosophicAssertion<T>): (r: Verdict)
    ensures r == Passed <==> Accepted(a) == Ok(true)
    ensures r == Failed <==> Accepted(a) == Ok(false)
  {
    IsTrue(a)
  }

  /** `isRejected`, the alias of `isFalse`. */
  function IsRejected<T>(a: NeutrosophicAssertion<T>): (r: Verdict)
    ensures r == Passed <==> Accepted(a) == Ok(false)
    ensures r == Failed <==> Accepted(a) == Ok(true)
  {
    IsFalse(a)
  }

  // ---- Properties ----

  /** When the evaluator produces a triplet, exactly one of `isTrue` and `isFalse` fails
      and the other passes; when it throws, both rethrow the same exception. */
  lemma ExactlyOneFails<T>(a: NeutrosophicAssertion<T>)
    ensures a.evaluator(a.actual).Ok? || a.evaluator(a.actual) == Err(NotANumber) ==>
      (IsTrue(a) == Failed <==> IsFalse(a) == Passed)
      && (IsTrue(a) == Passed <==> IsFalse(a) == Failed)
      && !IsTrue(a).Raised?
    ensures a.evaluator(a.actual).Err? && a.evaluator(a.actual) != Err(NotANumber) ==>
      IsTrue(a) == IsFalse(a) == Raised(a.evaluator(a.actual).error)
  {
  }

  /** The aliases are the same decisions. */
  lemma AliasesAgree<T>(a: NeutrosophicAssertion<T>)
    ensures IsAccepted(a) == IsTrue(a) && IsRejected(a) == IsFalse(a)
  {
  }

  /** An `isTrue` that passes under a context also passes under any context with no higher
      truth threshold and no lower indeterminacy and falsity thresholds. */
  lemma WeakerContextPassesMore<T>(actual: T, evaluator: Evaluator<T>, c: Contexts.Context, d: Contexts.Context)
    requires d.truthThreshold <= c.truthThreshold
    requires d.indeterminacyThreshold >= c.indeterminacyThreshold && d.falsityThreshold >= c.falsityThreshold
    requires IsTrue(AssertThat(actual, evaluator, c)) == Passed
    ensures IsTrue(AssertThat(actual, evaluator, d)) == Passed
  {
    var v := evaluator(actual).value;
    Contexts.WeakerContextAcceptsMore(c, d, v);
  }

  // ---- The demonstrations' assertions ----

  function ExactEqualsOn(expected: string): Evaluator<Option<string>> {
    actual => Ok(ExactEquals.Evaluation(ExactEquals.ComparedTo(Some(expected)), actual))
  }

  function NeutrosophicEqualsOn(expected: string): Evaluator<Option<string>> {
    actual => Ok(NeutrosophicEquals.Evaluation(NeutrosophicEquals.ComparedTo(Some(expected)), actual))
  }

  function FuzzyOn(expected: Option<string>): Evaluator<Option<string>> {
    actual => FuzzyString.Evaluation(FuzzyString.ComparedTo(expected), actual)
  }

  /** "test" passes against "test" and fails against "different" and against null, with
      either equality evaluator and the default context. */
  lemma EqualityDemonstrations()
    ensures IsTrue(AssertThatDefault(Some("test"), ExactEqualsOn("test"))) == Passed
    ensures IsTrue(AssertThatDefault(Some("test"), ExactEqualsOn("different"))) == Failed
    ensures IsTrue(AssertThatDefault(None, ExactEqualsOn("test"))) == Failed
    ensures IsTrue(AssertThatDefault(Some("test"), NeutrosophicEqualsOn("test"))) == Passed
    ensures IsTrue(AssertThatDefault(None, NeutrosophicEqualsOn("test"))) == Failed
  {
    assert "test" != "different";
  }

  /** The lenient-truth context (0.04, 0.5, 0.2) still fails "test" against "different". */
  lemma LowTruthDemonstration()
    ensures IsTrue(AssertThat(Some("test"), NeutrosophicEqualsOn("different"), Contexts.Context(0.04, 0.5, 0.2, 0.01))) == Failed
  {
    assert "test" != "different";
  }

  /** Two nulls pass under the fuzzy matcher, but two empty strings make it throw, so the
      demonstration asserting that "" matches "" cannot pass. */
  lemma FuzzyEdgeDemonstrations()
    ensures IsTrue(AssertThatDefault(None, FuzzyOn(None))) == Passed
    ensures IsTrue(AssertThatDefault(Some(""), FuzzyOn(Some("")))) == Raised(SumExceedsOne)
  {
    FuzzyString.EmptyStringsRejectedByDefault();
  }

  function TemporalOn<T>(e: Temporal.TemporalEvaluator<T>): Evaluator<Temporal.Trace<T>> {
    tr => Temporal.ToResult(Temporal.Run(e, tr))
  }

  /** The eventual-consistency demonstration polls the fuzzy matcher for "New York" every
      200 ms for up to 5 s. If nothing ends the loop before a poll that sees "New York"
      itself, that poll makes the matcher throw and the exception escapes the assertion. */
  lemma EventualConsistencyDemonstration(tr: Temporal.Trace<Option<string>>, k: nat)
    requires var e := Temporal.WithPollInterval(Temporal.WithTimeout(Temporal.UntilStable(FuzzyOn(Some("New York"))), 5000), 200);
      k < |tr.samples| && tr.samples[k] == Some("New York") && Temporal.NothingEndsBefore(e, tr, k)
    ensures var e := Temporal.WithPollInterval(Temporal.WithTimeout(Temporal.UntilStable(FuzzyOn(Some("New York"))), 5000), 200);
      IsTrue(AssertThat(tr, TemporalOn(e), Contexts.LENIENT)) == Raised(SumExceedsOne)
  {
    var e := Temporal.WithPollInterval(Temporal.WithTimeout(Temporal.UntilStable(FuzzyOn(Some("New York"))), 5000), 200);
    FuzzyString.IdenticalStringsRejected(FuzzyString.ComparedTo(Some("New York")), "New York");
    Temporal.FirstFailureEscapes(e, tr, k);
  }

  /** In the demonstration's own schedule the first poll sees "loading...", which is too far
      from "New York" for the matcher to construct a value: that first poll already throws,
      whatever the later samples are. */
  lemma EventualConsistencyFirstPoll(tr: Temporal.Trace<Option<string>>)
    requires 0 < |tr.samples| && tr.samples[0] == Some("loading...")
    ensures var e := Temporal.WithPollInterval(Temporal.WithTimeout(Temporal.UntilStable(FuzzyOn(Some("New York"))), 5000), 200);
      IsTrue(AssertThat(tr, TemporalOn(e), Contexts.LENIENT)) == Raised(SumExceedsOne)
  {
    var e := Temporal.WithPollInterval(Temporal.WithTimeout(Temporal.UntilStable(FuzzyOn(Some("New York"))), 5000), 200);
    FuzzyString.LoadingFarFromNewYork();
    Temporal.FirstFailureEscapes(e, tr, 0);
  }
}
