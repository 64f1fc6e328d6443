/** TimeBoundEvaluator.java: grades how long an operation took against a bound and an
    acceptable variance, both in whole milliseconds. The clock is abstracted: the operation's
    run is given as its outcome and its elapsed milliseconds. */
module TimeBound {
  import opened Values

  datatype TimeBoundEvaluator = TimeBoundEvaluator(maxMillis: int, varianceMillis: int)

  /** How running the operation went. */
  datatype Run =
    | Completed(elapsedMillis: int)  // returned normally after this many milliseconds
    | ThrewException                 // threw an `Exception`, which `evaluate` catches
    | ThrewError                     // threw a `java.lang.Error`, which propagates

  /** The result when the operation throws an `Exception`. */
  const FAILED: Value := Triplet(0.0, 0.3, 0.7)

  /** The result when the operation finishes within the bound. */
  const WITHIN: Value := Triplet(0.95, 0.04, 0.01)

  /** `completesWithin`: the default variance is 50 ms. */
  function CompletesWithin(maxMillis: int): (e: TimeBoundEvaluator)
    ensures e.maxMillis == maxMillis && e.varianceMillis == 50
  {
    TimeBoundEvaluator(maxMillis, 50)
  }

  /** `withVariance`: a copy with the same bound; the variance is not validated. */
  function WithVariance(e: TimeBoundEvaluator, varianceMillis: int): (r: TimeBoundEvaluator)
    ensures r.maxMillis == e.maxMillis && r.varianceMillis == varianceMillis
  {
    e.(varianceMillis := varianceMillis)
  }

  /** The three bands: within the bound; within the variance, where truth falls from 0.8 to
      0.5 as the overshoot ratio r = (elapsed − max)/variance runs over (0, 1]; and beyond,
      where truth falls from 0.3 to 0 over the first second of further overshoot. Every band
      sums to exactly 1, and the variance band is only reached with a positive variance. */
  function Grade(e: TimeBoundEvaluator, elapsed: int): (r: Value)
    ensures Sum(r) == 1.0
    ensures elapsed <= e.maxMillis ==> r == WITHIN
    ensures e.maxMillis < elapsed <= e.maxMillis + e.varianceMillis ==>
      e.varianceMillis > 0
      && var ratio := (elapsed - e.maxMillis) as real / e.varianceMillis as real;
         0.0 < ratio <= 1.0 && r.truth == 0.8 - ratio * 0.3 && r.indeterminacy == 0.1 + ratio * 0.2
         && 0.5 <= r.truth < 0.8
    ensures elapsed > e.maxMillis && elapsed > e.maxMillis + e.varianceMillis ==>
      r.indeterminacy == 0.2 && 0.0 <= r.truth < 0.3 && r.falsity == 0.8 - r.truth
      && r.truth == 0.3 * (1.0 - Min((elapsed - e.maxMillis - e.varianceMillis) as real / 1000.0, 1.0))
  {
    var m := e.maxMillis;
    var v := e.varianceMillis;
    if elapsed <= m then
      WITHIN
    else if elapsed <= m + v then
      var overshootRatio := (elapsed - m) as real / v as real;
      DivideByTotal((elapsed - m) as real, v as real);
      ScaleCompare(overshootRatio, 0.0, v as real, (elapsed - m) as real);
      var truth := 0.8 - overshootRatio * 0.3;
      var indeterminacy := 0.1 + overshootRatio * 0.2;
      Triplet(truth, indeterminacy, 1.0 - truth - indeterminacy)
    else
      var overshoot := elapsed - m - v;
      var severity := Min(overshoot as real / 1000.0, 1.0);
      var truth := 0.3 * (1.0 - severity);
      Triplet(truth, 0.2, 1.0 - truth - 0.2)
  }

  /** `evaluate`: a caught `Exception` gives (0, 0.3, 0.7); a `java.lang.Error` escapes. */
  function Evaluation(e: TimeBoundEvaluator, run: Run): (r: Result<Value>)
    ensures run.ThrewException? ==> r == Ok(FAILED)
    ensures run.ThrewError? ==> r == Err(Uncaught)
    ensures run.Completed? ==> r == Ok(Grade(e, run.elapsedMillis))
  {
    match run
    case ThrewException => Ok(FAILED)
    case ThrewError => Err(Uncaught)
    case Completed(elapsed) => Ok(Grade(e, elapsed))
  }

  // ---- Properties ----

  /** Taking longer never earns more truth, within a band or across band edges. */
  lemma TruthNonIncreasing(e: TimeBoundEvaluator, a: int, b: int)
    requires a <= b
    ensures Grade(e, b).truth <= Grade(e, a).truth
  {
    var m := e.maxMillis;
    var v := e.varianceMillis;
    if m < a && b <= m + v {
      DivMonotone((a - m) as real, (b - m) as real, v as real);
    }
  }

  /** With no variance the middle band is never entered: every overshoot is graded as
      beyond the variance. */
  lemma ZeroVarianceTwoBands(e: TimeBoundEvaluator, elapsed: int)
    requires e.varianceMillis == 0 && elapsed > e.maxMillis
    ensures Grade(e, elapsed).indeterminacy == 0.2
  {
  }

  /** One full second beyond the variance band truth reaches 0, and stays there. */
  lemma LongOvershootHasNoTruth(e: TimeBoundEvaluator, elapsed: int)
    requires elapsed > e.maxMillis && elapsed >= e.maxMillis + e.varianceMillis + 1000
    ensures Grade(e, elapsed) == Triplet(0.0, 0.2, 0.8)
  {
  }

  /** Exactly at the end of the variance band the grade is (0.5, 0.3, 0.2). */
  lemma EndOfVarianceBand(e: TimeBoundEvaluator)
    requires e.varianceMillis > 0
    ensures Grade(e, e.maxMillis + e.varianceMillis) == Triplet(0.5, 0.3, 0.2)
  {
    var v := e.varianceMillis as real;
    DivideBy(v, v);
    ScaleCompare(v / v, 1.0, v, v);
  }
}
