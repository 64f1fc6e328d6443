/** The (truth, indeterminacy, falsity) triplet of NeutrosophicValue.java, its validating
    constructor, its constants and its combinators. Components are exact reals; the
    floating-point behaviour of the source is not modelled. */
module Values {

  /** A nullable reference of the source: `None` stands for Java's `null`. */
  datatype Option<+T> = None | Some(value: T)

  /** The three components, as the constructor's messages name them. */
  datatype Component = Truth | Indeterminacy | Falsity

  /** Every way an operation of the core can fail. */
  datatype Error =
    | ComponentOutOfRange(component: Component)  // a triplet component outside [0, 1]
    | SumExceedsOne                             // a triplet whose components sum to more than 1
    | ThresholdOutOfRange(threshold: Component)  // a context threshold outside [0, 1]
    | NegativeTolerance                         // a context tolerance below 0
    | NotANumber                                // an arithmetic path that divides 0 by 0
    | Uncaught                                  // a java.lang.Error that no evaluator catches
    | IllegalArgument                           // an IllegalArgumentException from a library call

  /** An operation that either yields a value or throws. */
  datatype Result<+T> = Ok(value: T) | Err(error: Error)

  /** Three components as computed, before the constructor has checked them. */
  datatype Triplet = Triplet(truth: real, indeterminacy: real, falsity: real)

  function Sum(t: Triplet): real {
    t.truth + t.indeterminacy + t.falsity
  }

  predicate InUnit(x: real) {
    0.0 <= x <= 1.0
  }

  /** The invariant the constructor enforces: each component in [0, 1], sum at most 1. */
  predicate Normalized(t: Triplet) {
    InUnit(t.truth) && InUnit(t.indeterminacy) && InUnit(t.falsity) && Sum(t) <= 1.0
  }

  /** A constructed NeutrosophicValue: every value of this type passed the constructor's checks. */
  type Value = t: Triplet | Normalized(t) witness Triplet(0.0, 0.0, 0.0)

  /** An evaluator maps an input to a triplet, or throws. */
  type Evaluator<!T> = T -> Result<Value>

  function Min(x: real, y: real): real {
    if x <= y then x else y
  }

  function Max(x: real, y: real): real {
    if x >= y then x else y
  }

  /** The constructor: truth, then indeterminacy, then falsity are range-checked, then the sum. */
  function New(truth: real, indeterminacy: real, falsity: real): (r: Result<Value>)
    ensures r.Ok? <==> Normalized(Triplet(truth, indeterminacy, falsity))
    ensures r.Ok? ==> r.value.truth == truth && r.value.indeterminacy == indeterminacy && r.value.falsity == falsity
    ensures r.Err? ==> (r.error == SumExceedsOne <==> InUnit(truth) && InUnit(indeterminacy) && InUnit(falsity))
    ensures r.Err? && !InUnit(truth) ==> r.error == ComponentOutOfRange(Truth)
  {
    if !InUnit(truth) then Err(ComponentOutOfRange(Truth))
    else if !InUnit(indeterminacy) then Err(ComponentOutOfRange(Indeterminacy))
    else if !InUnit(falsity) then Err(ComponentOutOfRange(Falsity))
    else if truth + indeterminacy + falsity > 1.0 then Err(SumExceedsOne)
    else Ok(Triplet(truth, indeterminacy, falsity))
  }

  /** Constructs a computed triplet. */
  function Construct(t: Triplet): (r: Result<Value>)
    ensures r == New(t.truth, t.indeterminacy, t.falsity)
  {
    New(t.truth, t.indeterminacy, t.falsity)
  }

  const TRUE: Value := Triplet(1.0, 0.0, 0.0)
  const FALSE: Value := Triplet(0.0, 0.0, 1.0)
  const INDETERMINATE: Value := Triplet(0.0, 1.0, 0.0)
  const AMBIGUOUS: Value := Triplet(0.33, 0.34, 0.33)

  /** The static initializers construct the four constants without throwing. */
  lemma ConstantsConstruct()
    ensures New(1.0, 0.0, 0.0) == Ok(TRUE)
    ensures New(0.0, 0.0, 1.0) == Ok(FALSE)
    ensures New(0.0, 1.0, 0.0) == Ok(INDETERMINATE)
    ensures New(0.33, 0.34, 0.33) == Ok(AMBIGUOUS)
  {
  }

  /** Conservative conjunction: least truth, greatest indeterminacy and falsity. The
      components always lie in [0, 1], so the constructor can only object to the sum. */
  function And(a: Value, b: Value): (r: Result<Value>)
    ensures r.Ok? <==> Min(a.truth, b.truth) + Max(a.indeterminacy, b.indeterminacy) + Max(a.falsity, b.falsity) <= 1.0
    ensures r.Err? ==> r.error == SumExceedsOne
    ensures r.Ok? ==> r.value.truth <= a.truth && r.value.truth <= b.truth
                      && (r.value.truth == a.truth || r.value.truth == b.truth)
    ensures r.Ok? ==> r.value.indeterminacy >= a.indeterminacy && r.value.indeterminacy >= b.indeterminacy
                      && (r.value.indeterminacy == a.indeterminacy || r.value.indeterminacy == b.indeterminacy)
    ensures r.Ok? ==> r.value.falsity >= a.falsity && r.value.falsity >= b.falsity
                      && (r.value.falsity == a.falsity || r.value.falsity == b.falsity)
  {
    New(Min(a.truth, b.truth), Max(a.indeterminacy, b.indeterminacy), Max(a.falsity, b.falsity))
  }

  /** Optimistic disjunction: greatest truth, least indeterminacy and falsity. It never
      fails, because its sum is at most the sum of the operand with the greater truth. */
  function Or(a: Value, b: Value): (r: Value)
    ensures r.truth >= a.truth && r.truth >= b.truth && (r.truth == a.truth || r.truth == b.truth)
    ensures r.indeterminacy <= a.indeterminacy && r.indeterminacy <= b.indeterminacy
            && (r.indeterminacy == a.indeterminacy || r.indeterminacy == b.indeterminacy)
    ensures r.falsity <= a.falsity && r.falsity <= b.falsity && (r.falsity == a.falsity || r.falsity == b.falsity)
    ensures Sum(r) <= (if a.truth >= b.truth then Sum(a) else Sum(b))
  {
    Triplet(Max(a.truth, b.truth), Min(a.indeterminacy, b.indeterminacy), Min(a.falsity, b.falsity))
  }

  /** Complement: truth and falsity trade places. */
  function Not(a: Value): (r: Value)
    ensures r.truth == a.falsity && r.falsity == a.truth && r.indeterminacy == a.indeterminacy
    ensures Sum(r) == Sum(a)
  {
    Triplet(a.falsity, a.indeterminacy, a.truth)
  }

  /** `equals`: exact comparison of each component, with no epsilon. */
  function Equals(a: Value, b: Value): (r: bool)
    ensures r <==> a == b
  {
    a.truth == b.truth && a.indeterminacy == b.indeterminacy && a.falsity == b.falsity
  }

  /** The proportional rescale applied before construction: when the components sum to
      more than 1, each is divided by the sum. */
  function Normalize(t: Triplet): (r: Triplet)
    requires t.truth >= 0.0 && t.indeterminacy >= 0.0 && t.falsity >= 0.0
    ensures Normalized(r)
    ensures Sum(t) <= 1.0 ==> r == t
    ensures Sum(t) > 1.0 ==> Sum(r) == 1.0
    ensures Sum(t) > 1.0 ==> r.truth * Sum(t) == t.truth && r.indeterminacy * Sum(t) == t.indeterminacy
                             && r.falsity * Sum(t) == t.falsity
    ensures r.truth * t.falsity == r.falsity * t.truth
  {
    var total := Sum(t);
    if total > 1.0 then
      ScaledByTotal(t, total);
      RatioKept(t.truth / total, t.falsity / total, total, t.truth, t.falsity);
      Triplet(t.truth / total, t.indeterminacy / total, t.falsity / total)
    else
      t
  }

  /** Two quantities scaled by the same factor keep their ratio. */
  lemma RatioKept(x: real, y: real, s: real, a: real, b: real)
    requires x * s == a && y * s == b
    ensures x * b == y * a
  {
    calc {
      x * b;
      x * (y * s);
      y * (x * s);
      y * a;
    }
  }

  lemma DivideByTotal(x: real, total: real)
    requires 0.0 <= x <= total && total > 0.0
    ensures 0.0 <= x / total <= 1.0 && (x / total) * total == x
  {
  }

  lemma ScaledByTotal(t: Triplet, total: real)
    requires t.truth >= 0.0 && t.indeterminacy >= 0.0 && t.falsity >= 0.0
    requires total == Sum(t) && total > 0.0
    ensures var r := Triplet(t.truth / total, t.indeterminacy / total, t.falsity / total);
      Normalized(r) && Sum(r) == 1.0
      && r.truth * total == t.truth && r.indeterminacy * total == t.indeterminacy && r.falsity * total == t.falsity
  {
    DivideByTotal(t.truth, total);
    DivideByTotal(t.indeterminacy, total);
    DivideByTotal(t.falsity, total);
    PartsOfWhole(t.truth / total, t.indeterminacy / total, t.falsity / total,
                 t.truth, t.indeterminacy, t.falsity, total);
  }

  /** If x, y and z of s make up a, b and c, and a + b + c is s, then x + y + z is 1. */
  lemma PartsOfWhole(x: real, y: real, z: real, a: real, b: real, c: real, s: real)
    requires s > 0.0 && x * s == a && y * s == b && z * s == c && s == a + b + c
    ensures x + y + z == 1.0
  {
    var w := x + y + z;
    Distribute(x, y, z, s);
    assert w * s == s;
    CancelFactor(w, 1.0, s);
  }

  lemma Distribute(x: real, y: real, z: real, s: real)
    ensures (x + y + z) * s == x * s + y * s + z * s
  {
  }

  lemma CancelFactor(w: real, v: real, s: real)
    requires s > 0.0 && w * s == v * s
    ensures w == v
  {
    assert (w - v) * s == w * s - v * s;
  }

  lemma DivideBy(x: real, d: real)
    requires d > 0.0
    ensures (x / d) * d == x
  {
  }

  /** Comparing q with c is comparing q·d with c·d, for a positive d. */
  lemma ScaleCompare(q: real, c: real, d: real, a: real)
    requires d > 0.0 && q * d == a
    ensures q > c <==> a > c * d
    ensures q == c <==> a == c * d
  {
    if q > c {
      assert q * d - c * d == (q - c) * d;
    } else if q < c {
      assert c * d - q * d == (c - q) * d;
    }
  }

  lemma DivMonotone(x: real, y: real, d: real)
    requires x <= y && d > 0.0
    ensures x / d <= y / d
  {
    DivideBy(x, d);
    DivideBy(y, d);
    ScaleCompare(x / d, y / d, d, x);
  }

  // ---- Properties of the combinators ----

  /** `not` keeps indeterminacy, swaps truth and falsity, and undoes itself. */
  lemma {:induction false} NotSwapsAndInvolutes(a: Value)
    ensures Not(a).truth == a.falsity && Not(a).falsity == a.truth && Not(a).indeterminacy == a.indeterminacy
    ensures Not(Not(a)) == a
    ensures Sum(Not(a)) == Sum(a)
  {
  }

  lemma OrCommutativeIdempotent(a: Value, b: Value)
    ensures Or(a, b) == Or(b, a)
    ensures Or(a, a) == a
  {
  }

  lemma AndCommutativeIdempotent(a: Value, b: Value)
    ensures And(a, b) == And(b, a)
    ensures And(a, a) == Ok(a)
  {
  }

  /** `and` is not total: INDETERMINATE and FALSE combine to (0, 1, 1), which the constructor rejects. */
  lemma AndRejectsIndeterminateAndFalse()
    ensures And(INDETERMINATE, FALSE) == Err(SumExceedsOne)
    ensures New(0.0, 1.0, 1.0) == Err(SumExceedsOne)
  {
  }

  /** `and` succeeds whenever one operand dominates the other (no more indeterminacy and
      falsity), since the result is then the dominated operand itself. */
  lemma AndOfComparable(a: Value, b: Value)
    requires a.truth <= b.truth && a.indeterminacy >= b.indeterminacy && a.falsity >= b.falsity
    ensures And(a, b) == Ok(a)
  {
  }

  /** `equals` is structural equality of the triplet. */
  lemma EqualsIsIdentity(a: Value, b: Value)
    ensures Equals(a, b) <==> a == b
  {
  }
}
