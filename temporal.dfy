/** TemporalEvaluator.java: polls a supplied value until its grade has been stable for two
    consecutive polls, and degrades to a highly indeterminate grade on interruption or
    timeout. Clocks and threads are abstracted into a trace: the samples the supplier
    returns while the deadline has not passed, and the poll whose sleep is interrupted. */
module Temporal {
  import opened Values
  import Contexts

  datatype TemporalEvaluator<!T> = TemporalEvaluator(
    base: Evaluator<T>,
    timeoutMillis: int,
    pollIntervalMillis: int,
    stabilityThreshold: real)

  /** One run of the loop as the clock and the scheduler let it happen: `samples[k]` is what
      the supplier returns on the k-th pass through the deadline check, the deadline has
      passed when the check comes round after the last sample, and `interruptAt` is the
      pass whose sleep is interrupted, if any. */
  datatype Trace<T> = Trace(samples: seq<T>, interruptAt: Option<nat>)

  /** The number of consecutive stable polls that ends the loop. */
  const POLLS_NEEDED: nat := 2

  /** `untilStable`: 10 s timeout, 500 ms poll interval, 0.9 stability threshold. */
  function UntilStable<T>(base: Evaluator<T>): (e: TemporalEvaluator<T>)
    ensures e.base == base && e.timeoutMillis == 10000 && e.pollIntervalMillis == 500 && e.stabilityThreshold == 0.9
  {
    TemporalEvaluator(base, 10000, 500, 0.9)
  }

  function WithTimeout<T>(e: TemporalEvaluator<T>, timeoutMillis: int): (r: TemporalEvaluator<T>)
    ensures r.base == e.base && r.pollIntervalMillis == e.pollIntervalMillis && r.stabilityThreshold == e.stabilityThreshold
    ensures r.timeoutMillis == timeoutMillis
  {
    e.(timeoutMillis := timeoutMillis)
  }

  function WithPollInterval<T>(e: TemporalEvaluator<T>, pollIntervalMillis: int): (r: TemporalEvaluator<T>)
    ensures r.base == e.base && r.timeoutMillis == e.timeoutMillis && r.stabilityThreshold == e.stabilityThreshold
    ensures r.pollIntervalMillis == pollIntervalMillis
  {
    e.(pollIntervalMillis := pollIntervalMillis)
  }

  function WithStabilityThreshold<T>(e: TemporalEvaluator<T>, stabilityThreshold: real): (r: TemporalEvaluator<T>)
    ensures r.base == e.base && r.timeoutMillis == e.timeoutMillis && r.pollIntervalMillis == e.pollIntervalMillis
    ensures r.stabilityThreshold == stabilityThreshold
  {
    e.(stabilityThreshold := stabilityThreshold)
  }

  /** The interrupted grade: half the last truth and falsity (0 and 0.2 when there is no last
      result) and indeterminacy 0.5. The rescale never fires, since T + F of a value is at most 1. */
  function InterruptedResult(last: Option<Value>): (r: Value)
    ensures last.Some? ==> r == Triplet(last.value.truth * 0.5, 0.5, last.value.falsity * 0.5)
    ensures last.None? ==> r == Triplet(0.0, 0.5, 0.1)
  {
    var lastTruth := if last.Some? then last.value.truth else 0.0;
    var lastFalsity := if last.Some? then last.value.falsity else 0.2;
    Normalize(Triplet(lastTruth * 0.5, 0.5, lastFalsity * 0.5))
  }

  /** The timeout grade: a fifth of the last truth and falsity (0 and 0.2 when there is no
      last result) and indeterminacy 0.8. The rescale never fires. */
  function TimeoutResult(last: Option<Value>): (r: Value)
    ensures last.Some? ==> r == Triplet(last.value.truth * 0.2, 0.8, last.value.falsity * 0.2)
    ensures last.None? ==> r == Triplet(0.0, 0.8, 0.04)
  {
    var lastTruth := if last.Some? then last.value.truth else 0.0;
    var lastFalsity := if last.Some? then last.value.falsity else 0.2;
    Normalize(Triplet(lastTruth * 0.2, 0.8, lastFalsity * 0.2))
  }

  /** How a run of the loop ends, and at which pass. */
  datatype Outcome =
    | Stable(value: Value, at: nat)        // the second consecutive stable poll
    | Interrupted(last: Value, at: nat)    // the sleep after this poll was interrupted
    | TimedOut(lastSample: Option<Value>)  // the deadline passed
    | Failed(error: Error, at: nat)        // the base evaluator or the sleep threw on this poll

  function ToResult(o: Outcome): (r: Result<Value>)
    ensures o.Failed? <==> r.Err?
  {
    match o
    case Stable(v, _) => Ok(v)
    case Interrupted(v, _) => Ok(InterruptedResult(Some(v)))
    case TimedOut(last) => Ok(TimeoutResult(last))
    case Failed(err, _) => Err(err)
  }

  /** The loop from pass `k`, with the counter and the last result it has reached. */
  function Poll<T>(e: TemporalEvaluator<T>, tr: Trace<T>, k: nat, stablePolls: nat, last: Option<Value>): Outcome
    requires k <= |tr.samples|
    decreases |tr.samples| - k
  {
    if k == |tr.samples| then TimedOut(last)
    else
      match e.base(tr.samples[k])
      case Err(err) => Failed(err, k)
      case Ok(v) =>
        if v.truth >= e.stabilityThreshold && stablePolls + 1 >= POLLS_NEEDED then Stable(v, k)
        else if e.pollIntervalMillis < 0 then Failed(IllegalArgument, k)
        else if tr.interruptAt == Some(k) then Interrupted(v, k)
        else Poll(e, tr, k + 1, if v.truth >= e.stabilityThreshold then stablePolls + 1 else 0, Some(v))
  }

  /** The whole run: no result yet and a zero counter. */
  function Run<T>(e: TemporalEvaluator<T>, tr: Trace<T>): Outcome {
    Poll(e, tr, 0, 0, None)
  }

  /** `evaluate`: the poll loop. */
  method Evaluate<T>(e: TemporalEvaluator<T>, tr: Trace<T>) returns (r: Result<Value>)
    ensures r == ToResult(Run(e, tr))
  {
    var lastResult: Option<Value> := None;
    var stablePolls: nat := 0;
    var k := 0;
    while k < |tr.samples|
      invariant 0 <= k <= |tr.samples|
      invariant Poll(e, tr, k, stablePolls, lastResult) == Run(e, tr)
      decreases |tr.samples| - k
    {
      var current := tr.samples[k];
      var result := e.base(current);
      if result.Err? {
        return Err(result.error);
      }
      lastResult := Some(result.value);
      if result.value.truth >= e.stabilityThreshold {
        stablePolls := stablePolls + 1;
        if stablePolls >= POLLS_NEEDED {
          return Ok(result.value);
        }
      } else {
        stablePolls := 0;
      }
      if e.pollIntervalMillis < 0 {
        return Err(IllegalArgument);
      }
      if tr.interruptAt == Some(k) {
        return Ok(InterruptedResult(lastResult));
      }
      k := k + 1;
    }
    r := Ok(TimeoutResult(lastResult));
  }

  // ---- A reference description of the loop ----

  /** Poll `k`'s grade reaches the stability threshold. */
  ghost predicate IsStable<T>(e: TemporalEvaluator<T>, tr: Trace<T>, k: nat)
    requires k < |tr.samples|
  {
    e.base(tr.samples[k]).Ok? && e.base(tr.samples[k]).value.truth >= e.stabilityThreshold
  }

  /** Polls `k − 1` and `k` are both stable. */
  ghost predicate StablePairAt<T>(e: TemporalEvaluator<T>, tr: Trace<T>, k: nat)
    requires k < |tr.samples|
  {
    k >= 1 && IsStable(e, tr, k - 1) && IsStable(e, tr, k)
  }

  /** Something ends the loop at pass `k`: the evaluator throws, a stable pair completes, the
      sleep refuses a negative interval, or the sleep is interrupted. */
  ghost predicate EndsAt<T>(e: TemporalEvaluator<T>, tr: Trace<T>, k: nat)
    requires k < |tr.samples|
  {
    e.base(tr.samples[k]).Err? || StablePairAt(e, tr, k) || e.pollIntervalMillis < 0 || tr.interruptAt == Some(k)
  }

  ghost predicate NothingEndsBefore<T>(e: TemporalEvaluator<T>, tr: Trace<T>, k: nat)
    requires k <= |tr.samples|
  {
    forall j :: 0 <= j < k ==> !EndsAt(e, tr, j)
  }

  /** The grade of the last sample, if there was one. */
  ghost function LastSample<T>(e: TemporalEvaluator<T>, tr: Trace<T>): Option<Value>
    requires NothingEndsBefore(e, tr, |tr.samples|)
  {
    if |tr.samples| == 0 then None
    else
      assert !EndsAt(e, tr, |tr.samples| - 1);
      Some(e.base(tr.samples[|tr.samples| - 1]).value)
  }

  /** What each outcome means: the run ends at the first pass where something ends it, and
      the outcome names what that was (the evaluator's exception before stability, stability
      before the sleep, a refused negative interval before the interrupt); only when nothing
      ends it does it time out, with the last sample's grade. */
  ghost predicate Explains<T>(e: TemporalEvaluator<T>, tr: Trace<T>, o: Outcome) {
    match o
    case Stable(v, k) =>
      k < |tr.samples| && NothingEndsBefore(e, tr, k) && StablePairAt(e, tr, k) && e.base(tr.samples[k]) == Ok(v)
    case Interrupted(v, k) =>
      k < |tr.samples| && NothingEndsBefore(e, tr, k) && !StablePairAt(e, tr, k) && e.pollIntervalMillis >= 0
      && tr.interruptAt == Some(k) && e.base(tr.samples[k]) == Ok(v)
    case Failed(err, k) =>
      k < |tr.samples| && NothingEndsBefore(e, tr, k)
      && (e.base(tr.samples[k]) == Err(err)
          || (e.base(tr.samples[k]).Ok? && !StablePairAt(e, tr, k) && e.pollIntervalMillis < 0 && err == IllegalArgument))
    case TimedOut(last) =>
      NothingEndsBefore(e, tr, |tr.samples|) && last == LastSample(e, tr)
  }

  /** The loop from any pass it can reach is explained by the reference description. */
  lemma {:induction false} PollExplained<T>(e: TemporalEvaluator<T>, tr: Trace<T>, k: nat, stablePolls: nat, last: Option<Value>)
    requires k <= |tr.samples| && NothingEndsBefore(e, tr, k)
    requires stablePolls == (if k >= 1 && IsStable(e, tr, k - 1) then 1 else 0)
    requires k == 0 ==> last.None?
    requires k >= 1 ==> last.Some? && e.base(tr.samples[k - 1]) == Ok(last.value)
    ensures Explains(e, tr, Poll(e, tr, k, stablePolls, last))
    decreases |tr.samples| - k
  {
    if k < |tr.samples| {
      match e.base(tr.samples[k])
      case Err(_) =>
      case Ok(v) =>
        if v.truth >= e.stabilityThreshold && stablePolls + 1 >= POLLS_NEEDED {
        } else if e.pollIntervalMillis < 0 {
        } else if tr.interruptAt == Some(k) {
        } else {
          assert !EndsAt(e, tr, k);
          PollExplained(e, tr, k + 1, if v.truth >= e.stabilityThreshold then stablePolls + 1 else 0, Some(v));
        }
    }
  }

  lemma RunExplained<T>(e: TemporalEvaluator<T>, tr: Trace<T>)
    ensures Explains(e, tr, Run(e, tr))
  {
    PollExplained(e, tr, 0, 0, None);
  }

  /** The first stable pair decides the run: when polls k − 1 and k are the first consecutive
      stable polls and nothing ends the loop earlier, poll k's grade is returned unchanged. */
  lemma FirstStablePairReturned<T>(e: TemporalEvaluator<T>, tr: Trace<T>, k: nat)
    requires k < |tr.samples| && StablePairAt(e, tr, k) && NothingEndsBefore(e, tr, k)
    ensures Run(e, tr) == Stable(e.base(tr.samples[k]).value, k)
    ensures ToResult(Run(e, tr)) == Ok(e.base(tr.samples[k]).value)
  {
    PollReachesPair(e, tr, k, 0, 0, None);
  }

  /** From any reachable pass up to the first stable pair, the loop runs on to that pair. */
  lemma {:induction false} PollReachesPair<T>(e: TemporalEvaluator<T>, tr: Trace<T>, pair: nat, k: nat, stablePolls: nat, last: Option<Value>)
    requires pair < |tr.samples| && StablePairAt(e, tr, pair) && NothingEndsBefore(e, tr, pair)
    requires k <= pair
    requires stablePolls == (if k >= 1 && IsStable(e, tr, k - 1) then 1 else 0)
    ensures Poll(e, tr, k, stablePolls, last) == Stable(e.base(tr.samples[pair]).value, pair)
    decreases pair - k
  {
    if k < pair {
      assert !EndsAt(e, tr, k);
      var v := e.base(tr.samples[k]).value;
      PollReachesPair(e, tr, pair, k + 1, if v.truth >= e.stabilityThreshold then stablePolls + 1 else 0, Some(v));
    }
  }

  /** An exception the base evaluator throws on the first pass that ends the loop escapes
      from `evaluate`. */
  lemma FirstFailureEscapes<T>(e: TemporalEvaluator<T>, tr: Trace<T>, k: nat)
    requires k < |tr.samples| && e.base(tr.samples[k]).Err? && NothingEndsBefore(e, tr, k)
    ensures Run(e, tr) == Failed(e.base(tr.samples[k]).error, k)
    ensures ToResult(Run(e, tr)) == Err(e.base(tr.samples[k]).error)
  {
    PollReachesFailure(e, tr, k, 0, 0, None);
  }

  /** From any reachable pass up to the first failing poll, the loop runs on to that poll. */
  lemma {:induction false} PollReachesFailure<T>(e: TemporalEvaluator<T>, tr: Trace<T>, stop: nat, k: nat, stablePolls: nat, last: Option<Value>)
    requires stop < |tr.samples| && e.base(tr.samples[stop]).Err? && NothingEndsBefore(e, tr, stop)
    requires k <= stop
    requires stablePolls == (if k >= 1 && IsStable(e, tr, k - 1) then 1 else 0)
    ensures Poll(e, tr, k, stablePolls, last) == Failed(e.base(tr.samples[stop]).error, stop)
    decreases stop - k
  {
    if k < stop {
      assert !EndsAt(e, tr, k);
      var v := e.base(tr.samples[k]).value;
      PollReachesFailure(e, tr, stop, k + 1, if v.truth >= e.stabilityThreshold then stablePolls + 1 else 0, Some(v));
    }
  }

  /** `Thread.sleep` refuses a negative interval with an IllegalArgumentException that
      `evaluate` does not catch. The first pass can never be the second stable poll, so with
      a negative interval every run that polls at all throws on its first pass: the base
      evaluator's exception, or else the sleep's. */
  lemma NegativeIntervalThrows<T>(e: TemporalEvaluator<T>, tr: Trace<T>)
    requires e.pollIntervalMillis < 0 && |tr.samples| > 0
    ensures Run(e, tr).Failed? && Run(e, tr).at == 0
    ensures e.base(tr.samples[0]).Ok? ==> ToResult(Run(e, tr)) == Err(IllegalArgument)
    ensures e.base(tr.samples[0]).Err? ==> ToResult(Run(e, tr)) == e.base(tr.samples[0])
  {
    RunExplained(e, tr);
  }

  /** Stable polls that are not consecutive never count: if no two consecutive polls are
      stable, the run never ends as stable. */
  lemma NonConsecutiveNeverStable<T>(e: TemporalEvaluator<T>, tr: Trace<T>)
    requires forall k :: 1 <= k < |tr.samples| ==> !(IsStable(e, tr, k - 1) && IsStable(e, tr, k))
    ensures !Run(e, tr).Stable?
  {
    RunExplained(e, tr);
  }

  /** When every poll grades below the threshold and nothing interrupts or throws, the run
      times out with a fifth of the last grade's truth and falsity and indeterminacy 0.8. */
  lemma NeverStableTimesOut<T>(e: TemporalEvaluator<T>, tr: Trace<T>)
    requires |tr.samples| > 0 && tr.interruptAt.None? && e.pollIntervalMillis >= 0
    requires forall k :: 0 <= k < |tr.samples| ==> e.base(tr.samples[k]).Ok? && !IsStable(e, tr, k)
    ensures var last := e.base(tr.samples[|tr.samples| - 1]).value;
      ToResult(Run(e, tr)) == Ok(Triplet(last.truth * 0.2, 0.8, last.falsity * 0.2))
  {
    RunExplained(e, tr);
  }

  /** A run in which the deadline has already passed before the first poll (a timeout of
      zero or less) returns (0, 0.8, 0.04) without evaluating anything. */
  lemma NoPollsTimesOut<T>(e: TemporalEvaluator<T>, tr: Trace<T>)
    requires |tr.samples| == 0
    ensures Run(e, tr) == TimedOut(None)
    ensures ToResult(Run(e, tr)) == Ok(Triplet(0.0, 0.8, 0.04))
  {
  }

  /** Neither degraded grade is accepted by the lenient preset, let alone the stricter ones:
      indeterminacy 0.5 and 0.8 both exceed its 0.4 threshold. */
  lemma DegradedResultsRejected(last: Option<Value>)
    ensures !Contexts.Evaluate(Contexts.LENIENT, InterruptedResult(last))
    ensures !Contexts.Evaluate(Contexts.LENIENT, TimeoutResult(last))
  {
  }
}
