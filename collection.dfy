/** CollectionContainsEvaluator.java: grades every element, keeps the element result with
    the most truth, then raises its indeterminacy a little. A collection is the sequence
    of its elements in iteration order. */
module Collection {
  import opened Values
  import Contexts

  datatype CollectionContainsEvaluator<!T> = AnElementThat(elementEvaluator: Evaluator<T>)

  /** The result for a null or empty collection. */
  const EMPTY: Value := Triplet(0.0, 0.1, 0.9)

  /** The result the source returns when the reduction finds nothing. */
  const NO_MATCH: Value := Triplet(0.0, 0.2, 0.8)

  /** The stream's `map`: the element results in order; the first element whose evaluator
      throws ends the evaluation with that exception. */
  function MapAll<T>(f: Evaluator<T>, xs: seq<T>): (r: Result<seq<Value>>)
    ensures r.Ok? <==> forall i :: 0 <= i < |xs| ==> f(xs[i]).Ok?
    ensures r.Ok? ==> |r.value| == |xs| && forall i :: 0 <= i < |xs| ==> r.value[i] == f(xs[i]).value
    ensures r.Err? ==> exists i :: 0 <= i < |xs| && f(xs[i]) == Err(r.error) && forall k :: 0 <= k < i ==> f(xs[k]).Ok?
    decreases |xs|
  {
    if |xs| == 0 then Ok([])
    else
      match f(xs[0])
      case Err(e) => Err(e)
      case Ok(v) =>
        match MapAll(f, xs[1..])
        case Err(e) =>
          assert forall k :: 1 <= k < |xs| ==> xs[1..][k - 1] == xs[k];
          Err(e)
        case Ok(vs) => Ok([v] + vs)
  }

  /** The reducer: keep the accumulated result only when its truth is strictly greater. */
  function Better(a: Value, b: Value): Value {
    if a.truth > b.truth then a else b
  }

  /** The stream's `reduce`, a left fold of `Better`. The result is an element of maximal
      truth, and every element after it has strictly less truth: ties go to the later element. */
  function Reduce(rs: seq<Value>): (r: Value)
    requires |rs| > 0
    ensures forall j :: 0 <= j < |rs| ==> rs[j].truth <= r.truth
    ensures exists i :: 0 <= i < |rs| && r == rs[i] && forall j :: i < j < |rs| ==> rs[j].truth < r.truth
    decreases |rs|
  {
    if |rs| == 1 then rs[0]
    else
      var init := rs[..|rs| - 1];
      var p := Reduce(init);
      assert forall j :: 0 <= j < |init| ==> init[j] == rs[j];
      if p.truth > rs[|rs| - 1].truth then
        var i :| 0 <= i < |init| && p == init[i] && forall j :: i < j < |init| ==> init[j].truth < p.truth;
        assert p == rs[i];
        p
      else
        Better(p, rs[|rs| - 1])
  }

  /** `Optional` of the reduction: empty exactly when there is nothing to reduce. */
  function BestMatch(rs: seq<Value>): (r: Option<Value>)
    ensures r.None? <==> |rs| == 0
    ensures r.Some? ==> r.value == Reduce(rs)
  {
    if |rs| == 0 then None else Some(Reduce(rs))
  }

  /** Indeterminacy rises by 0.1 up to a cap of 0.3 (so one above 0.3 falls to 0.3); if the
      sum then exceeds 1, every component is divided by it, which makes the sum 1, keeps the
      truth to falsity ratio and never raises indeterminacy. */
  function Bump(best: Value): (r: Value)
    ensures r.indeterminacy <= 0.3
    ensures var t := Triplet(best.truth, Min(best.indeterminacy + 0.1, 0.3), best.falsity);
      (Sum(t) <= 1.0 ==> r == t)
      && (Sum(t) > 1.0 ==> Sum(r) == 1.0 && r.indeterminacy <= t.indeterminacy)
    ensures r.truth * best.falsity == r.falsity * best.truth
  {
    var t := Triplet(best.truth, Min(best.indeterminacy + 0.1, 0.3), best.falsity);
    var r := Normalize(t);
    if Sum(t) > 1.0 then
      ShrinkBy(r.indeterminacy, Sum(t), t.indeterminacy);
      r
    else
      r
  }

  /** Dividing a nonnegative quantity by more than 1 does not make it larger. */
  lemma ShrinkBy(x: real, s: real, a: real)
    requires s > 1.0 && a >= 0.0 && x * s == a
    ensures x <= a
  {
    ScaleCompare(x, a, s, a);
    assert a * s - a == a * (s - 1.0);
  }

  /** `evaluate`: (0, 0.1, 0.9) for a null or empty collection; otherwise the bumped best
      element result, or the first exception an element evaluator throws. */
  function Evaluation<T>(e: CollectionContainsEvaluator<T>, collection: Option<seq<T>>): (r: Result<Value>)
    ensures collection.None? || |collection.value| == 0 ==> r == Ok(EMPTY)
    ensures collection.Some? && |collection.value| > 0 ==>
      ((r.Err? <==> exists k :: 0 <= k < |collection.value| && e.elementEvaluator(collection.value[k]).Err?)
      && (r.Ok? ==> exists i :: 0 <= i < |collection.value| && IsBest(e.elementEvaluator, collection.value, i)
                               && r.value == Bump(e.elementEvaluator(collection.value[i]).value)))
    ensures collection.Some? && r.Err? ==>
      exists k :: 0 <= k < |collection.value| && e.elementEvaluator(collection.value[k]) == Err(r.error)
                  && forall j :: 0 <= j < k ==> e.elementEvaluator(collection.value[j]).Ok?
  {
    if collection.None? || |collection.value| == 0 then Ok(EMPTY)
    else
      var f := e.elementEvaluator;
      var xs := collection.value;
      match MapAll(f, xs)
      case Err(err) => Err(err)
      case Ok(rs) =>
        match BestMatch(rs)
        case None => Ok(NO_MATCH)
        case Some(best) =>
          var i :| 0 <= i < |rs| && best == rs[i] && forall j :: i < j < |rs| ==> rs[j].truth < best.truth;
          assert IsBest(f, xs, i);
          Ok(Bump(best))
  }

  /** Element `i`'s result has maximal truth, and every later element's strictly less. */
  ghost predicate IsBest<T>(f: Evaluator<T>, xs: seq<T>, i: int)
    requires forall k :: 0 <= k < |xs| ==> f(xs[k]).Ok?
  {
    0 <= i < |xs|
    && (forall j :: 0 <= j < |xs| ==> f(xs[j]).value.truth <= f(xs[i]).value.truth)
    && (forall j :: i < j < |xs| ==> f(xs[j]).value.truth < f(xs[i]).value.truth)
  }

  // ---- Properties ----

  /** Of two element results with equal truth, the later one is kept. */
  lemma LaterWinsTies(a: Value, b: Value)
    requires a.truth == b.truth
    ensures Reduce([a, b]) == b
  {
  }

  /** A collection holding an exact match grades about (0.909, 0.091, 0): the bumped TRUE
      sums to 1.1 and is rescaled. The default context accepts it and the strict one does not. */
  lemma ExactMatchRescaled()
    ensures Bump(TRUE) == Triplet(1.0 / 1.1, 0.1 / 1.1, 0.0)
    ensures Contexts.Evaluate(Contexts.DEFAULT, Bump(TRUE))
    ensures !Contexts.Evaluate(Contexts.STRICT, Bump(TRUE))
  {
    assert Min(0.0 + 0.1, 0.3) == 0.1;
    var t := Triplet(1.0, 0.1, 0.0);
    assert Sum(t) == 1.1;
    assert Normalize(t) == Triplet(1.0 / 1.1, 0.1 / 1.1, 0.0 / 1.1);
  }

  /** The bump never fails to construct, and the fallback for an empty reduction is never
      reached for a non-empty collection whose element evaluators all succeed. */
  lemma NonEmptyAlwaysGraded<T>(e: CollectionContainsEvaluator<T>, xs: seq<T>)
    requires |xs| > 0 && forall k :: 0 <= k < |xs| ==> e.elementEvaluator(xs[k]).Ok?
    ensures Evaluation(e, Some(xs)).Ok?
    ensures Evaluation(e, Some(xs)) == Ok(Bump(Reduce(MapAll(e.elementEvaluator, xs).value)))
  {
  }
}
