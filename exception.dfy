/** ExceptionThrownEvaluator.java: grades a run of some code by whether it threw, how close
    the thrown class is to the expected one, and how close its message is to a pattern. The
    class hierarchy is abstracted into an assignability relation over class names. */
module ExceptionThrown {
  import opened Values
  import FuzzyString

  /** A class, by its fully qualified name. */
  type ClassName = string

  const THROWABLE: ClassName := "java.lang.Throwable"

  /** `assignableFrom(sup, sub)` stands for `sup.isAssignableFrom(sub)`. */
  datatype Hierarchy = Hierarchy(assignableFrom: (ClassName, ClassName) -> bool)

  /** What running the supplied code did. */
  datatype Run =
    | Returned                                      // no throwable escaped
    | Threw(thrown: ClassName, message: Option<string>)  // a throwable of this class, with its message

  datatype ExceptionThrownEvaluator = ExceptionThrownEvaluator(expectedType: ClassName, expectedMessagePattern: Option<string>)

  /** The result when nothing is thrown. */
  const NOT_THROWN: Value := Triplet(0.0, 0.1, 0.9)

  /** `throwsException`: no message pattern. */
  function ThrowsException(expectedType: ClassName): (e: ExceptionThrownEvaluator)
    ensures e.expectedType == expectedType && e.expectedMessagePattern.None?
  {
    ExceptionThrownEvaluator(expectedType, None)
  }

  /** `withMessageContaining`: a copy with the same expected type and the given pattern; a
      null pattern leaves none. */
  function WithMessageContaining(e: ExceptionThrownEvaluator, pattern: Option<string>): (r: ExceptionThrownEvaluator)
    ensures r.expectedType == e.expectedType && r.expectedMessagePattern == pattern
  {
    e.(expectedMessagePattern := pattern)
  }

  /** `haveCommonAncestor`: both classes are throwables. */
  predicate HaveCommonAncestor(h: Hierarchy, c1: ClassName, c2: ClassName) {
    h.assignableFrom(THROWABLE, c1) && h.assignableFrom(THROWABLE, c2)
  }

  /** `calculateExceptionTypeSimilarity`: 1 for the same class, 0.8 for a subclass of the
      expected one, 0.4 for two throwables, 0 otherwise. */
  function TypeSimilarity(h: Hierarchy, actual: ClassName, expected: ClassName): (r: real)
    ensures r == 1.0 || r == 0.8 || r == 0.4 || r == 0.0
    ensures r == 1.0 <==> actual == expected
    ensures r == 0.8 <==> actual != expected && h.assignableFrom(expected, actual)
    ensures r == 0.0 <==> actual != expected && !h.assignableFrom(expected, actual) && !HaveCommonAncestor(h, actual, expected)
  {
    if actual == expected then 1.0
    else if h.assignableFrom(expected, actual) then 0.8
    else if HaveCommonAncestor(h, actual, expected) then 0.4
    else 0.0
  }

  // ---- Lowercasing ----

  function LowerChar(c: char): char {
    if 'A' <= c <= 'Z' then (c as int + 32) as char else c
  }

  /** `toLowerCase`, restricted to the ASCII letters. */
  function ToLower(s: string): (r: string)
    ensures |r| == |s| && forall i :: 0 <= i < |s| ==> r[i] == LowerChar(s[i])
  {
    seq(|s|, i requires 0 <= i < |s| => LowerChar(s[i]))
  }

  lemma ToLowerIdempotent(s: string)
    ensures ToLower(ToLower(s)) == ToLower(s)
  {
    assert forall i :: 0 <= i < |s| ==> LowerChar(LowerChar(s[i])) == LowerChar(s[i]);
  }

  // ---- Message similarity ----

  /** `calculateMessageSimilarity`: the truth the fuzzy matcher gives the lowercased message
      against the lowercased pattern at perfect-match threshold 0.7. The matcher's own
      constructor failures pass through. */
  function MessageSimilarity(actualMessage: string, expectedPattern: string): (r: Result<real>)
    ensures r.Ok? ==> InUnit(r.value)
    ensures r.Err? ==> r.error == SumExceedsOne
  {
    var matcher := FuzzyString.WithPerfectMatchThreshold(FuzzyString.ComparedTo(Some(ToLower(expectedPattern))), 0.7);
    match FuzzyString.Evaluation(matcher, Some(ToLower(actualMessage)))
    case Err(err) => Err(err)
    case Ok(v) => Ok(v.truth)
  }

  /** Messages that agree up to ASCII case are identical to the matcher, which rejects
      them: similarity 1 at threshold 0.7 grades (1, 0.05, 0.05). */
  lemma SameMessageRejected(actualMessage: string, expectedPattern: string)
    requires ToLower(actualMessage) == ToLower(expectedPattern)
    ensures MessageSimilarity(actualMessage, expectedPattern) == Err(SumExceedsOne)
  {
    var matcher := FuzzyString.WithPerfectMatchThreshold(FuzzyString.ComparedTo(Some(ToLower(expectedPattern))), 0.7);
    FuzzyString.IdenticalStringsRejected(matcher, ToLower(expectedPattern));
  }

  /** Case never matters: lowering the message first changes nothing. */
  lemma MessageSimilarityIgnoresCase(actualMessage: string, expectedPattern: string)
    ensures MessageSimilarity(ToLower(actualMessage), expectedPattern) == MessageSimilarity(actualMessage, expectedPattern)
  {
    ToLowerIdempotent(actualMessage);
  }

  // ---- evaluate ----

  /** The grade of a throwable: truth is the product of the two similarities, indeterminacy
      a tenth of what is left and falsity the rest, so the sum is exactly 1. */
  function Graded(typeSimilarity: real, messageSimilarity: real): (r: Value)
    requires InUnit(typeSimilarity) && InUnit(messageSimilarity)
    ensures r.truth == typeSimilarity * messageSimilarity
    ensures r.indeterminacy == 0.1 * (1.0 - r.truth) && r.falsity == 0.9 * (1.0 - r.truth)
    ensures Sum(r) == 1.0
  {
    ProductInUnit(typeSimilarity, messageSimilarity);
    var truth := typeSimilarity * messageSimilarity;
    var indeterminacy := 0.1 * (1.0 - truth);
    Triplet(truth, indeterminacy, 1.0 - truth - indeterminacy)
  }

  lemma ProductInUnit(x: real, y: real)
    requires InUnit(x) && InUnit(y)
    ensures InUnit(x * y)
  {
    assert x * y <= x * 1.0 by {
      assert x * 1.0 - x * y == x * (1.0 - y);
    }
  }

  /** `evaluate`: (0, 0.1, 0.9) when nothing is thrown; otherwise the graded similarity of
      the throwable, where the message counts only when both a pattern and a message exist. */
  function Evaluation(h: Hierarchy, e: ExceptionThrownEvaluator, run: Run): (r: Result<Value>)
    ensures run.Returned? ==> r == Ok(NOT_THROWN)
    ensures run.Threw? && (e.expectedMessagePattern.None? || run.message.None?) ==>
      r == Ok(Graded(TypeSimilarity(h, run.thrown, e.expectedType), 1.0))
    ensures run.Threw? && e.expectedMessagePattern.Some? && run.message.Some? ==>
      match MessageSimilarity(run.message.value, e.expectedMessagePattern.value)
      case Err(err) => r == Err(err)
      case Ok(m) => r == Ok(Graded(TypeSimilarity(h, run.thrown, e.expectedType), m))
  {
    match run
    case Returned => Ok(NOT_THROWN)
    case Threw(thrown, message) =>
      var typeSimilarity := TypeSimilarity(h, thrown, e.expectedType);
      var messageSimilarity :=
        if e.expectedMessagePattern.Some? && message.Some? then MessageSimilarity(message.value, e.expectedMessagePattern.value)
        else Ok(1.0);
      match messageSimilarity
      case Err(err) => Err(err)
      case Ok(m) => Ok(Graded(typeSimilarity, m))
  }

  // ---- Properties ----

  /** Any two throwables share an ancestor, so the "unrelated" similarity 0 is never given
      when both the thrown and the expected class are throwables. */
  lemma UnrelatedUnreachable(h: Hierarchy, actual: ClassName, expected: ClassName)
    requires h.assignableFrom(THROWABLE, actual) && h.assignableFrom(THROWABLE, expected)
    ensures TypeSimilarity(h, actual, expected) >= 0.4
  {
  }

  /** Without a pattern: the expected class grades TRUE, a subclass (0.8, 0.02, 0.18) and
      any other throwable (0.4, 0.06, 0.54). */
  lemma TypeOnlyGrades(h: Hierarchy, e: ExceptionThrownEvaluator, thrown: ClassName, message: Option<string>)
    requires e.expectedMessagePattern.None?
    requires h.assignableFrom(THROWABLE, thrown) && h.assignableFrom(THROWABLE, e.expectedType)
    ensures thrown == e.expectedType ==> Evaluation(h, e, Threw(thrown, message)) == Ok(TRUE)
    ensures thrown != e.expectedType && h.assignableFrom(e.expectedType, thrown) ==>
      Evaluation(h, e, Threw(thrown, message)) == Ok(Triplet(0.8, 0.02, 0.18))
    ensures thrown != e.expectedType && !h.assignableFrom(e.expectedType, thrown) ==>
      Evaluation(h, e, Threw(thrown, message)) == Ok(Triplet(0.4, 0.06, 0.54))
  {
  }

  /** A throwable whose message equals the pattern up to case makes the evaluator throw:
      the fuzzy matcher cannot construct its grade. */
  lemma ExactMessageMakesEvaluatorThrow(h: Hierarchy, e: ExceptionThrownEvaluator, thrown: ClassName, message: string)
    requires e.expectedMessagePattern.Some? && ToLower(message) == ToLower(e.expectedMessagePattern.value)
    ensures Evaluation(h, e, Threw(thrown, Some(message))) == Err(SumExceedsOne)
  {
    SameMessageRejected(message, e.expectedMessagePattern.value);
  }

  /** A null pattern grades exactly as no pattern: `withMessageContaining(null)` undoes an
      earlier pattern. */
  lemma NullPatternIsNoPattern(h: Hierarchy, e: ExceptionThrownEvaluator, run: Run)
    ensures Evaluation(h, WithMessageContaining(e, None), run) == Evaluation(h, ThrowsException(e.expectedType), run)
  {
  }

  /** A throwable without a message is graded by its class alone, pattern or not. */
  lemma MissingMessageIgnoresPattern(h: Hierarchy, e: ExceptionThrownEvaluator, thrown: ClassName)
    ensures Evaluation(h, e, Threw(thrown, None)) == Evaluation(h, e.(expectedMessagePattern := None), Threw(thrown, None))
  {
  }
}
