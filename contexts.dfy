/** NeutrosophicContext.java: the thresholds that decide whether a triplet is accepted,
    the builder that validates them, and the three presets. */
module Contexts {
  import opened Values

  datatype Context = Context(truthThreshold: real, indeterminacyThreshold: real, falsityThreshold: real, tolerance: real)

  /** What `build` guarantees of every context it returns. */
  predicate WellFormed(c: Context) {
    InUnit(c.truthThreshold) && InUnit(c.indeterminacyThreshold) && InUnit(c.falsityThreshold) && c.tolerance >= 0.0
  }

  /** `evaluate`: enough truth, and strictly less indeterminacy and falsity than allowed.
      The tolerance plays no part. */
  predicate Evaluate(c: Context, v: Value) {
    v.truth >= c.truthThreshold && v.indeterminacy < c.indeterminacyThreshold && v.falsity < c.falsityThreshold
  }

  const DEFAULT: Context := Context(0.8, 0.2, 0.2, 0.01)
  const STRICT: Context := Context(0.95, 0.05, 0.05, 0.01)
  const LENIENT: Context := Context(0.6, 0.4, 0.4, 0.01)

  /** The checks of `build`, in its order: the three thresholds, then the tolerance. */
  function Validate(truthThreshold: real, indeterminacyThreshold: real, falsityThreshold: real, tolerance: real): (r: Result<Context>)
    ensures r.Ok? <==> InUnit(truthThreshold) && InUnit(indeterminacyThreshold) && InUnit(falsityThreshold) && tolerance >= 0.0
    ensures r.Ok? ==> WellFormed(r.value)
    ensures r.Ok? ==> r.value.truthThreshold == truthThreshold && r.value.indeterminacyThreshold == indeterminacyThreshold
                      && r.value.falsityThreshold == falsityThreshold && r.value.tolerance == tolerance
    ensures r.Err? && !InUnit(truthThreshold) ==> r.error == ThresholdOutOfRange(Truth)
    ensures r.Err? && r.error == NegativeTolerance ==> InUnit(truthThreshold) && InUnit(indeterminacyThreshold) && InUnit(falsityThreshold)
  {
    if !InUnit(truthThreshold) then Err(ThresholdOutOfRange(Truth))
    else if !InUnit(indeterminacyThreshold) then Err(ThresholdOutOfRange(Indeterminacy))
    else if !InUnit(falsityThreshold) then Err(ThresholdOutOfRange(Falsity))
    else if tolerance < 0.0 then Err(NegativeTolerance)
    else Ok(Context(truthThreshold, indeterminacyThreshold, falsityThreshold, tolerance))
  }

  /** NeutrosophicContext.Builder: four fields that the setters overwrite in place. */
  class Builder {
    var truthThreshold: real
    var indeterminacyThreshold: real
    var falsityThreshold: real
    var tolerance: real

    /** `builder()`: a fresh builder holding the defaults. */
    constructor ()
      ensures truthThreshold == 0.8 && indeterminacyThreshold == 0.2 && falsityThreshold == 0.2 && tolerance == 0.01
    {
      truthThreshold := 0.8;
      indeterminacyThreshold := 0.2;
      falsityThreshold := 0.2;
      tolerance := 0.01;
    }

    method WithTruthThreshold(value: real) returns (self: Builder)
      modifies this
      ensures self == this
      ensures truthThreshold == value
      ensures indeterminacyThreshold == old(indeterminacyThreshold) && falsityThreshold == old(falsityThreshold)
      ensures tolerance == old(tolerance)
    {
      truthThreshold := value;
      self := this;
    }

    method WithIndeterminacyThreshold(value: real) returns (self: Builder)
      modifies this
      ensures self == this
      ensures indeterminacyThreshold == value
      ensures truthThreshold == old(truthThreshold) && falsityThreshold == old(falsityThreshold)
      ensures tolerance == old(tolerance)
    {
      indeterminacyThreshold := value;
      self := this;
    }

    method WithFalsityThreshold(value: real) returns (self: Builder)
      modifies this
      ensures self == this
      ensures falsityThreshold == value
      ensures truthThreshold == old(truthThreshold) && indeterminacyThreshold == old(indeterminacyThreshold)
      ensures tolerance == old(tolerance)
    {
      falsityThreshold := value;
      self := this;
    }

    method WithTolerance(value: real) returns (self: Builder)
      modifies this
      ensures self == this
      ensures tolerance == value
      ensures truthThreshold == old(truthThreshold) && indeterminacyThreshold == old(indeterminacyThreshold)
      ensures falsityThreshold == old(falsityThreshold)
    {
      tolerance := value;
      self := this;
    }

    /** `build`: validates the current fields and returns the context they describe. */
    method Build() returns (r: Result<Context>)
      ensures r == Validate(truthThreshold, indeterminacyThreshold, falsityThreshold, tolerance)
    {
      r := Validate(truthThreshold, indeterminacyThreshold, falsityThreshold, tolerance);
    }
  }

  /** `defaultContext`: a fresh builder, built at once. */
  method DefaultContext() returns (c: Context)
    ensures c == DEFAULT && WellFormed(c)
  {
    var b := new Builder();
    var r := b.Build();
    c := r.value;
  }

  /** `strictContext`: three thresholds overwritten; the default tolerance is kept. */
  method StrictContext() returns (c: Context)
    ensures c == STRICT && WellFormed(c)
  {
    var b := new Builder();
    b := b.WithTruthThreshold(0.95);
    b := b.WithIndeterminacyThreshold(0.05);
    b := b.WithFalsityThreshold(0.05);
    var r := b.Build();
    c := r.value;
  }

  /** `lenientContext`: three thresholds overwritten; the default tolerance is kept. */
  method LenientContext() returns (c: Context)
    ensures c == LENIENT && WellFormed(c)
  {
    var b := new Builder();
    b := b.WithTruthThreshold(0.6);
    b := b.WithIndeterminacyThreshold(0.4);
    b := b.WithFalsityThreshold(0.4);
    var r := b.Build();
    c := r.value;
  }

  // ---- Properties of acceptance ----

  /** Acceptance is closed upwards: more truth and less indeterminacy and falsity than an
      accepted triplet is accepted too; the tolerance never matters. */
  lemma EvaluateMonotone(c: Context, v: Value, w: Value, tolerance: real)
    requires Evaluate(c, v)
    requires w.truth >= v.truth && w.indeterminacy <= v.indeterminacy && w.falsity <= v.falsity
    ensures Evaluate(c, w)
    ensures Evaluate(c.(tolerance := tolerance), v)
  {
  }

  /** A context with lower truth threshold and higher indeterminacy and falsity
      thresholds accepts at least as much. */
  lemma WeakerContextAcceptsMore(c: Context, d: Context, v: Value)
    requires d.truthThreshold <= c.truthThreshold
    requires d.indeterminacyThreshold >= c.indeterminacyThreshold && d.falsityThreshold >= c.falsityThreshold
    ensures Evaluate(c, v) ==> Evaluate(d, v)
  {
  }

  /** Strict acceptance implies default acceptance, which implies lenient acceptance. */
  lemma PresetsNest(v: Value)
    ensures Evaluate(STRICT, v) ==> Evaluate(DEFAULT, v)
    ensures Evaluate(DEFAULT, v) ==> Evaluate(LENIENT, v)
  {
    WeakerContextAcceptsMore(STRICT, DEFAULT, v);
    WeakerContextAcceptsMore(DEFAULT, LENIENT, v);
  }

  /** Because indeterminacy and falsity are compared with a strict `<`, a zero threshold
      for either rejects every triplet, even FALSE-free and certain ones. */
  lemma ZeroThresholdRejectsAll(c: Context, v: Value)
    requires c.indeterminacyThreshold == 0.0 || c.falsityThreshold == 0.0
    ensures !Evaluate(c, v)
  {
  }

  /** The three presets pass `build`'s checks with the values the source gives them. */
  lemma PresetsValidate()
    ensures Validate(0.8, 0.2, 0.2, 0.01) == Ok(DEFAULT)
    ensures Validate(0.95, 0.05, 0.05, 0.01) == Ok(STRICT)
    ensures Validate(0.6, 0.4, 0.4, 0.01) == Ok(LENIENT)
  {
  }

  /** (0.85, 0.1, 0.05): rejected by the strict preset, accepted by the default and lenient ones. */
  lemma PresetScenario()
    ensures !Evaluate(STRICT, Triplet(0.85, 0.1, 0.05))
    ensures Evaluate(DEFAULT, Triplet(0.85, 0.1, 0.05))
    ensures Evaluate(LENIENT, Triplet(0.85, 0.1, 0.05))
  {
  }
}
