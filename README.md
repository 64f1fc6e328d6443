# neutrosophy, modelled in Dafny

neutrosophy is a Java test-assertion library. An *evaluator* grades the value under test
as a neutrosophic triplet (truth, indeterminacy, falsity). A *context* holds the thresholds
that decide whether the triplet is accepted, and an *assertion* passes or fails on that decision.
This project models the grading engine and proves what its code does.

The modules follow the Java sources:

- `Values` (values.dfy) models `NeutrosophicValue`:
  - the validating constructor, as a `Result`;
  - the constants, `and`, `or`, `not` and `equals`;
  - the proportional rescale that several evaluators apply before constructing.
- `Contexts` (contexts.dfy) models `NeutrosophicContext`:
  - the acceptance predicate;
  - the mutable `Builder`, as a class whose setters update its fields in place;
  - `build`'s validation and the three presets.
- `FuzzyString` (fuzzy.dfy): the Levenshtein table as a method over a 2-D array, proved equal to a recursive definition, then the similarity and the three-band mapping.
- `Numeric` (numeric.dfy): tolerance and decay similarity, mapped to a triplet.
- `Collection` (collection.dfy): the map and reduce over the elements, the indeterminacy bump and the rescale.
- `TimeBound` (timebound.dfy): the three bands of elapsed milliseconds.
- `Temporal` (temporal.dfy): the poll loop, as a method with a loop invariant. It is proved against a recursive poll function, which is proved against a declarative description of how a run ends.
- `ExceptionThrown` (exception.dfy): the type similarity, the case-insensitive message similarity through the fuzzy matcher, and the product grading.
- `ExactEquals` (exactequals.dfy) and `NeutrosophicEquals` (neutrosophicequals.dfy): the two equality evaluators.
- `Assertion` (assertion.dfy) models `NeutrosophicAssertion` and the two `assertThat` factories.
  - The verdict of a terminal call is `Passed`, `Failed` (an `AssertionError`) or `Raised` (the evaluator threw).
  - Lemmas replay the library's demonstration tests.

Components are exact reals. A Java exception is `Err` of a `Result`. An evaluator is a
function `T -> Result<Value>`, where `Value` is the subset of triplets that satisfy the
constructor's invariant. Wherever the code builds a triplet, the model either proves the
invariant or returns the constructor's error. So the places where the code throws are theorems:

- `Values.AndRejectsIndeterminateAndFalse`;
- `FuzzyString.HighBand` and `FuzzyString.LowBand`: below a perfect-match threshold of 1, identical strings and very different strings throw;
- `FuzzyString.IdenticalStringsRejected`: below a perfect-match threshold of 1 a string compared with itself throws; at exactly 1 the grade divides 0 by 0, and above 1 it grades in the middle or low band (throwing again only above 6);
- `Temporal.NegativeIntervalThrows`: a negative poll interval makes the first sleep throw;
- `ExceptionThrown.ExactMessageMakesEvaluatorThrow`;
- `Assertion.FuzzyEdgeDemonstrations`, `Assertion.EventualConsistencyFirstPoll` and `Assertion.EventualConsistencyDemonstration`: the "" against "" demonstration throws. The eventual-consistency demonstration throws at its very first poll: "loading..." has only the letter 'o' in common with "New York", so the edit distance is at least 9 of the longer length 10, the similarity at most 0.1, below the low band's limit 0.85/6, and the constructor rejects the falsity (`FuzzyString.LoadingFarFromNewYork`, `Assertion.EventualConsistencyFirstPoll`). Any poll that sees "New York" itself would throw as well (`Assertion.EventualConsistencyDemonstration`), so the loop never reaches a stable TRUE.

Some of the code's behaviour departs from what its names and comments suggest; the model follows the code:

- The fuzzy matcher has only the three-band mapping. There is no continuous variant.
- The exception evaluator's message similarity is the fuzzy matcher's *truth* at threshold 0.7 on lowercased strings.
- Collection ties go to the *later* element, because the reducer keeps the accumulator only on a strictly greater truth.
- Below a perfect-match threshold of 1, equal strings, including two empty ones, make the fuzzy matcher throw rather than grade 1.0 truth.
- Equal numbers under tolerance 0 divide 0 by 0.
- Numeric truth is not monotone across the edge of the tolerance.
- Exceptions are not all captured:
  - the time-bound evaluator catches `Exception` but not `Error`;
  - the temporal evaluator lets its base evaluator's exceptions escape, and the `IllegalArgumentException` that `Thread.sleep` throws for a negative poll interval;
  - an inner constructor failure always escapes.
- The "unrelated" exception similarity 0 is unreachable, because any two throwables share an ancestor.
- The interrupt fallback for "no sample yet" is unreachable: a sample is always taken before the interruptible sleep.
- (0.85, 0.1, 0.1), a natural example for the presets, is not a valid triplet (its sum is 1.05). `Contexts.PresetScenario` uses (0.85, 0.1, 0.05).

## Model

| member | source | states |
|---|---|---|
| Values.New | neutrosophy-core/src/main/java/io/github/osmanys_perez/neutrosophy/NeutrosophicValue.java:42-67 | construction succeeds exactly when every component is in [0, 1] and the sum is at most 1; the accessors return the arguments; the sum is blamed only when all components are in range, and truth is checked first |
| Values.ConstantsConstruct | neutrosophy-core/src/main/java/io/github/osmanys_perez/neutrosophy/NeutrosophicValue.java:25-28 | TRUE, FALSE, INDETERMINATE and AMBIGUOUS pass the constructor |
| Values.And | neutrosophy-core/src/main/java/io/github/osmanys_perez/neutrosophy/NeutrosophicValue.java:92-97 | least truth, greatest indeterminacy and falsity; succeeds exactly when that sum is at most 1, otherwise fails on the sum |
| Values.AndCommutativeIdempotent | neutrosophy-core/src/main/java/io/github/osmanys_perez/neutrosophy/NeutrosophicValue.java:92-97 | `and` is commutative and `a.and(a) == a` |
| Values.AndRejectsIndeterminateAndFalse | neutrosophy-core/src/main/java/io/github/osmanys_perez/neutrosophy/NeutrosophicValue.java:92-97 | INDETERMINATE and FALSE give (0, 1, 1), which the constructor rejects |
| Values.AndOfComparable | neutrosophy-core/src/main/java/io/github/osmanys_perez/neutrosophy/NeutrosophicValue.java:92-97 | when one operand is dominated by the other, `and` returns the dominated operand |
| Values.Or | neutrosophy-core/src/main/java/io/github/osmanys_perez/neutrosophy/NeutrosophicValue.java:103-108 | greatest truth, least indeterminacy and falsity, and a sum no larger than the truer operand's, so it always constructs |
| Values.OrCommutativeIdempotent | neutrosophy-core/src/main/java/io/github/osmanys_perez/neutrosophy/NeutrosophicValue.java:103-108 | `or` is commutative and idempotent |
| Values.Not | neutrosophy-core/src/main/java/io/github/osmanys_perez/neutrosophy/NeutrosophicValue.java:114-116 | the complement swaps truth and falsity, keeps indeterminacy and the sum, so it always constructs |
| Values.NotSwapsAndInvolutes | neutrosophy-core/src/main/java/io/github/osmanys_perez/neutrosophy/NeutrosophicValue.java:114-116 | `not` swaps truth and falsity, keeps indeterminacy and the sum, and is an involution |
| Values.Equals | neutrosophy-core/src/main/java/io/github/osmanys_perez/neutrosophy/NeutrosophicValue.java:119-128 | two values are equal exactly when they are the same triplet |
| Values.EqualsIsIdentity | neutrosophy-core/src/main/java/io/github/osmanys_perez/neutrosophy/NeutrosophicValue.java:119-128 | `equals` holds exactly for identical components, with no epsilon |
| Values.Normalize | neutrosophy-core/src/main/java/io/github/osmanys_perez/neutrosophy/evaluator/NumericEvaluator.java:71-77 | the proportional rescale: a valid triplet; unchanged when the sum is at most 1; otherwise sum 1 with each component times the old sum giving the old component; the truth to falsity ratio is kept |
| Contexts.Validate | neutrosophy-core/src/main/java/io/github/osmanys_perez/neutrosophy/NeutrosophicContext.java:102-118 | `build` succeeds exactly when all thresholds are in [0, 1] and the tolerance is nonnegative, keeps the four values, and reports the truth threshold first and the tolerance last |
| Contexts.Builder.constructor | neutrosophy-core/src/main/java/io/github/osmanys_perez/neutrosophy/NeutrosophicContext.java:70-76 | a new builder holds 0.8, 0.2, 0.2 and tolerance 0.01 |
| Contexts.Builder.WithTruthThreshold | neutrosophy-core/src/main/java/io/github/osmanys_perez/neutrosophy/NeutrosophicContext.java:78-81 | sets the truth threshold only and returns the same builder |
| Contexts.Builder.WithIndeterminacyThreshold | neutrosophy-core/src/main/java/io/github/osmanys_perez/neutrosophy/NeutrosophicContext.java:83-86 | sets the indeterminacy threshold only and returns the same builder |
| Contexts.Builder.WithFalsityThreshold | neutrosophy-core/src/main/java/io/github/osmanys_perez/neutrosophy/NeutrosophicContext.java:88-91 | sets the falsity threshold only and returns the same builder |
| Contexts.Builder.WithTolerance | neutrosophy-core/src/main/java/io/github/osmanys_perez/neutrosophy/NeutrosophicContext.java:93-96 | sets the tolerance only and returns the same builder |
| Contexts.Builder.Build | neutrosophy-core/src/main/java/io/github/osmanys_perez/neutrosophy/NeutrosophicContext.java:102-112 | the result of validating the builder's current fields |
| Contexts.DefaultContext | neutrosophy-core/src/main/java/io/github/osmanys_perez/neutrosophy/NeutrosophicContext.java:126-128 | a fresh builder builds (0.8, 0.2, 0.2, 0.01), a well-formed context |
| Contexts.StrictContext | neutrosophy-core/src/main/java/io/github/osmanys_perez/neutrosophy/NeutrosophicContext.java:134-140 | builds (0.95, 0.05, 0.05) keeping tolerance 0.01 |
| Contexts.LenientContext | neutrosophy-core/src/main/java/io/github/osmanys_perez/neutrosophy/NeutrosophicContext.java:147-153 | builds (0.6, 0.4, 0.4) keeping tolerance 0.01 |
| Contexts.EvaluateMonotone | neutrosophy-core/src/main/java/io/github/osmanys_perez/neutrosophy/NeutrosophicContext.java:49-57 | `evaluate` (which has no contract of its own): acceptance is closed under more truth and less indeterminacy and falsity; the tolerance never matters |
| Contexts.WeakerContextAcceptsMore | neutrosophy-core/src/main/java/io/github/osmanys_perez/neutrosophy/NeutrosophicContext.java:54-56 | a context with lower truth and higher indeterminacy and falsity thresholds accepts whatever another accepts |
| Contexts.PresetsNest | neutrosophy-core/src/main/java/io/github/osmanys_perez/neutrosophy/NeutrosophicContext.java:126-153 | strict acceptance implies default acceptance, which implies lenient acceptance |
| Contexts.ZeroThresholdRejectsAll | neutrosophy-core/src/main/java/io/github/osmanys_perez/neutrosophy/NeutrosophicContext.java:55-56 | a zero indeterminacy or falsity threshold accepts nothing, because the comparisons are strict |
| Contexts.PresetsValidate | neutrosophy-core/src/main/java/io/github/osmanys_perez/neutrosophy/NeutrosophicContext.java:126-153 | the three presets pass validation with their stated values |
| Contexts.PresetScenario | neutrosophy-core/src/main/java/io/github/osmanys_perez/neutrosophy/NeutrosophicContext.java:49-57 | (0.85, 0.1, 0.05) is rejected by strict and accepted by default and lenient |
| FuzzyString.ComparedTo | neutrosophy-core/src/main/java/io/github/osmanys_perez/neutrosophy/evaluator/FuzzyStringEvaluator.java:29-31 | the default perfect-match threshold is 0.85 |
| FuzzyString.WithPerfectMatchThreshold | neutrosophy-core/src/main/java/io/github/osmanys_perez/neutrosophy/evaluator/FuzzyStringEvaluator.java:38-40 | a copy that keeps the expected string and changes only the threshold |
| FuzzyString.LevenshteinDistance | neutrosophy-core/src/main/java/io/github/osmanys_perez/neutrosophy/evaluator/FuzzyStringEvaluator.java:93-112 | the table filled row by row yields the recursive edit distance |
| FuzzyString.DistanceBounded | neutrosophy-core/src/main/java/io/github/osmanys_perez/neutrosophy/evaluator/FuzzyStringEvaluator.java:93-112 | the edit distance never exceeds the longer length |
| FuzzyString.DistanceZeroIff | neutrosophy-core/src/main/java/io/github/osmanys_perez/neutrosophy/evaluator/FuzzyStringEvaluator.java:93-116 | the edit distance is zero exactly when the strings are equal |
| FuzzyString.DistanceSymmetric | neutrosophy-core/src/main/java/io/github/osmanys_perez/neutrosophy/evaluator/FuzzyStringEvaluator.java:93-116 | the edit distance is symmetric |
| FuzzyString.Similarity | neutrosophy-core/src/main/java/io/github/osmanys_perez/neutrosophy/evaluator/FuzzyStringEvaluator.java:84-91 | the similarity lies in [0, 1] and is 1 exactly for equal strings, including two empty ones |
| FuzzyString.SimilaritySymmetric | neutrosophy-core/src/main/java/io/github/osmanys_perez/neutrosophy/evaluator/FuzzyStringEvaluator.java:84-91 | the similarity is symmetric |
| FuzzyString.CalculateSimilarity | neutrosophy-core/src/main/java/io/github/osmanys_perez/neutrosophy/evaluator/FuzzyStringEvaluator.java:84-91 | the similarity computed with the table equals the specification |
| FuzzyString.Band | neutrosophy-core/src/main/java/io/github/osmanys_perez/neutrosophy/evaluator/FuzzyStringEvaluator.java:58-74 | every band yields components in [0, 1], except a threshold of 1 with a perfect similarity, which divides 0 by 0 |
| FuzzyString.Grade | neutrosophy-core/src/main/java/io/github/osmanys_perez/neutrosophy/evaluator/FuzzyStringEvaluator.java:58-74 | the banded triplet can only fail by dividing 0 by 0 or by summing above 1 |
| FuzzyString.HighBand | neutrosophy-core/src/main/java/io/github/osmanys_perez/neutrosophy/evaluator/FuzzyStringEvaluator.java:58-62 | high band: I = F = 0.05 and truth 0.7 + 0.3(sim − th)/(1 − th) in [0.7, 1]; construction fails exactly above sim = (2 + th)/3 |
| FuzzyString.MiddleBand | neutrosophy-core/src/main/java/io/github/osmanys_perez/neutrosophy/evaluator/FuzzyStringEvaluator.java:63-69 | middle band: I = 0.3, T + F = 0.6, T in [0.3, 0.6); always constructs |
| FuzzyString.LowBand | neutrosophy-core/src/main/java/io/github/osmanys_perez/neutrosophy/evaluator/FuzzyStringEvaluator.java:70-74 | low band: T = I = 0.05 and F in (0.7, 1]; construction fails exactly below sim = th/6 |
| FuzzyString.GradeTruthMonotone | neutrosophy-core/src/main/java/io/github/osmanys_perez/neutrosophy/evaluator/FuzzyStringEvaluator.java:58-74 | more similarity never yields less truth when both grades construct |
| FuzzyString.Evaluation | neutrosophy-core/src/main/java/io/github/osmanys_perez/neutrosophy/evaluator/FuzzyStringEvaluator.java:43-75 | TRUE for two nulls, (0, 0.1, 0.9) for one null, otherwise the graded similarity |
| FuzzyString.Evaluate | neutrosophy-core/src/main/java/io/github/osmanys_perez/neutrosophy/evaluator/FuzzyStringEvaluator.java:43-75 | `evaluate` computed with the table equals the specification |
| FuzzyString.IdenticalStringsRejected | neutrosophy-core/src/main/java/io/github/osmanys_perez/neutrosophy/evaluator/FuzzyStringEvaluator.java:53-74 | a string compared with itself fails the sum check below threshold 1 and divides 0 by 0 at threshold 1; above 1 it grades in the middle band up to 2 and the low band up to 6, and fails the sum check beyond 6 |
| FuzzyString.EmptyStringsRejectedByDefault | neutrosophy-demo/src/test/java/io/github/osmanys_perez/demo/NeutrosophyDemoTest.java:53-54 | "" against "" throws at the default threshold |
| FuzzyString.EvaluationSymmetric | neutrosophy-core/src/main/java/io/github/osmanys_perez/neutrosophy/evaluator/FuzzyStringEvaluator.java:43-91 | swapping expected and actual strings changes nothing |
| FuzzyString.DistanceAtLeastUnshared | neutrosophy-core/src/main/java/io/github/osmanys_perez/neutrosophy/evaluator/FuzzyStringEvaluator.java:93-112 | the edit distance plus the number of characters of the first prefix that occur in the second string is at least the longer prefix length |
| FuzzyString.SimilarityAtMostShared | neutrosophy-core/src/main/java/io/github/osmanys_perez/neutrosophy/evaluator/FuzzyStringEvaluator.java:84-91 | against a longer second string the similarity is at most the share of its length covered by characters the two strings have in common |
| FuzzyString.FewSharedRejected | neutrosophy-core/src/main/java/io/github/osmanys_perez/neutrosophy/evaluator/FuzzyStringEvaluator.java:53-74 | when the share of the longer length covered by characters found in both strings is below th/6, the similarity is below th/6 and evaluation fails the sum check |
| FuzzyString.LowGradeRejected | neutrosophy-core/src/main/java/io/github/osmanys_perez/neutrosophy/evaluator/FuzzyStringEvaluator.java:70-74 | every similarity below th/6 grades to a falsity the constructor rejects with the sum error |
| FuzzyString.LoadingFarFromNewYork | neutrosophy-demo/src/test/java/io/github/osmanys_perez/demo/TemporalEvaluatorTest.java:23-52 | the default matcher for "New York" throws on "loading..." |
| Numeric.Make | neutrosophy-core/src/main/java/io/github/osmanys_perez/neutrosophy/evaluator/NumericEvaluator.java:15-18 | the stored tolerance is the magnitude of the given one |
| Numeric.ComparedTo | neutrosophy-core/src/main/java/io/github/osmanys_perez/neutrosophy/evaluator/NumericEvaluator.java:25-27 | the default tolerance is 0.01 |
| Numeric.WithTolerance | neutrosophy-core/src/main/java/io/github/osmanys_perez/neutrosophy/evaluator/NumericEvaluator.java:34-36 | a copy that keeps the expected number, storing the magnitude of the new tolerance |
| Numeric.SimilarityOf | neutrosophy-core/src/main/java/io/github/osmanys_perez/neutrosophy/evaluator/NumericEvaluator.java:53-61 | fails exactly for a zero difference under a zero tolerance (0/0); inside a positive tolerance it is 1 − diff/tol, beyond the tolerance 1/(1 + diff − tol), strictly inside (0, 1); always in [0, 1] |
| Numeric.Mapped | neutrosophy-core/src/main/java/io/github/osmanys_perez/neutrosophy/evaluator/NumericEvaluator.java:65-69 | truth is the similarity and indeterminacy 5% of the rest; the sum is exactly 1 |
| Numeric.Evaluation | neutrosophy-core/src/main/java/io/github/osmanys_perez/neutrosophy/evaluator/NumericEvaluator.java:39-80 | TRUE for two nulls, (0, 0.1, 0.9) for one; otherwise fails exactly on 0/0, and else is the mapped similarity |
| Numeric.EqualNumbersTrue | neutrosophy-core/src/main/java/io/github/osmanys_perez/neutrosophy/evaluator/NumericEvaluator.java:54-56 | equal numbers under a positive tolerance give TRUE |
| Numeric.ZeroToleranceEqualNumbers | neutrosophy-core/src/main/java/io/github/osmanys_perez/neutrosophy/evaluator/NumericEvaluator.java:54-56 | equal numbers under a zero tolerance divide 0 by 0 |
| Numeric.SimilarityFallsInside | neutrosophy-core/src/main/java/io/github/osmanys_perez/neutrosophy/evaluator/NumericEvaluator.java:54-56 | inside the tolerance more difference never gives more similarity |
| Numeric.SimilarityFallsOutside | neutrosophy-core/src/main/java/io/github/osmanys_perez/neutrosophy/evaluator/NumericEvaluator.java:57-61 | beyond the tolerance more difference never gives more similarity |
| Numeric.ToleranceEdgeJump | neutrosophy-core/src/main/java/io/github/osmanys_perez/neutrosophy/evaluator/NumericEvaluator.java:54-61 | a difference equal to the tolerance gives 0, while one less than 0.1 beyond it gives more than 0.9 |
| Numeric.NoRescale | neutrosophy-core/src/main/java/io/github/osmanys_perez/neutrosophy/evaluator/NumericEvaluator.java:65-77 | every constructed result sums to exactly 1, so the rescale never fires |
| Numeric.CloseMatchAccepted | neutrosophy-demo/src/test/java/io/github/osmanys_perez/demo/NumericEvaluatorTest.java:17-29 | 1.99998 against 2.0 at tolerance 0.0001 grades (0.8, 0.01, 0.19), accepted by (0.8, 0.05, 0.2); the default tolerance is accepted by the default context |
| Numeric.DegradedMatchAccepted | neutrosophy-demo/src/test/java/io/github/osmanys_perez/demo/NumericEvaluatorTest.java:37-57 | 105 against 100 at tolerance 10 grades (0.5, 0.025, 0.475), accepted by (0.4, 0.1, 0.6); the default tolerance is rejected by the default context |
| Collection.MapAll | neutrosophy-core/src/main/java/io/github/osmanys_perez/neutrosophy/evaluator/CollectionContainsEvaluator.java:35-36 | succeeds exactly when every element evaluates, with the results in order; otherwise fails with the first element's exception |
| Collection.Reduce | neutrosophy-core/src/main/java/io/github/osmanys_perez/neutrosophy/evaluator/CollectionContainsEvaluator.java:35-37 | the result is an element result of maximal truth, and every later element has strictly less truth |
| Collection.BestMatch | neutrosophy-core/src/main/java/io/github/osmanys_perez/neutrosophy/evaluator/CollectionContainsEvaluator.java:35-39 | empty exactly for an empty sequence of results |
| Collection.Bump | neutrosophy-core/src/main/java/io/github/osmanys_perez/neutrosophy/evaluator/CollectionContainsEvaluator.java:40-54 | indeterminacy becomes min(I + 0.1, 0.3); unchanged truth and falsity when the sum stays at most 1, else sum 1 with indeterminacy not raised; the truth to falsity ratio is kept |
| Collection.Evaluation | neutrosophy-core/src/main/java/io/github/osmanys_perez/neutrosophy/evaluator/CollectionContainsEvaluator.java:30-58 | (0, 0.1, 0.9) for null or empty; otherwise fails exactly when some element throws, with the error of the first element that throws, and else is the bump of the last element result of maximal truth |
| Collection.LaterWinsTies | neutrosophy-core/src/main/java/io/github/osmanys_perez/neutrosophy/evaluator/CollectionContainsEvaluator.java:37 | of two results with equal truth the later is kept |
| Collection.ExactMatchRescaled | neutrosophy-core/src/main/java/io/github/osmanys_perez/neutrosophy/evaluator/CollectionContainsEvaluator.java:40-54 | an exact match grades (1/1.1, 0.1/1.1, 0), accepted by default and rejected by strict |
| Collection.NonEmptyAlwaysGraded | neutrosophy-core/src/main/java/io/github/osmanys_perez/neutrosophy/evaluator/CollectionContainsEvaluator.java:39-57 | a non-empty collection whose elements all evaluate always constructs its result and never reaches (0, 0.2, 0.8) |
| TimeBound.CompletesWithin | neutrosophy-core/src/main/java/io/github/osmanys_perez/neutrosophy/evaluator/TimeBoundEvaluator.java:24-26 | the default variance is 50 ms |
| TimeBound.WithVariance | neutrosophy-core/src/main/java/io/github/osmanys_perez/neutrosophy/evaluator/TimeBoundEvaluator.java:28-30 | a copy that keeps the bound and changes only the variance |
| TimeBound.Grade | neutrosophy-core/src/main/java/io/github/osmanys_perez/neutrosophy/evaluator/TimeBoundEvaluator.java:42-65 | each band sums to 1: (0.95, 0.04, 0.01) within the bound; in the variance band a positive variance, ratio in (0, 1], T = 0.8 − 0.3r in [0.5, 0.8), I = 0.1 + 0.2r; beyond it I = 0.2, T = 0.3(1 − min(overshoot/1000, 1)) in [0, 0.3), F = 0.8 − T |
| TimeBound.Evaluation | neutrosophy-core/src/main/java/io/github/osmanys_perez/neutrosophy/evaluator/TimeBoundEvaluator.java:33-66 | a caught Exception gives (0, 0.3, 0.7), an Error escapes, a completed run is graded by its milliseconds |
| TimeBound.TruthNonIncreasing | neutrosophy-core/src/main/java/io/github/osmanys_perez/neutrosophy/evaluator/TimeBoundEvaluator.java:47-65 | taking longer never gives more truth, across band edges too |
| TimeBound.ZeroVarianceTwoBands | neutrosophy-core/src/main/java/io/github/osmanys_perez/neutrosophy/evaluator/TimeBoundEvaluator.java:47-53 | with variance 0 every overshoot lands in the last band, so nothing divides by 0 |
| TimeBound.LongOvershootHasNoTruth | neutrosophy-core/src/main/java/io/github/osmanys_perez/neutrosophy/evaluator/TimeBoundEvaluator.java:58-65 | a second or more beyond the variance gives (0, 0.2, 0.8) |
| TimeBound.EndOfVarianceBand | neutrosophy-core/src/main/java/io/github/osmanys_perez/neutrosophy/evaluator/TimeBoundEvaluator.java:51-57 | the end of the variance band gives (0.5, 0.3, 0.2) |
| Temporal.UntilStable | neutrosophy-core/src/main/java/io/github/osmanys_perez/neutrosophy/evaluator/TemporalEvaluator.java:34-41 | 10 s timeout, 500 ms poll interval, stability threshold 0.9 |
| Temporal.WithTimeout | neutrosophy-core/src/main/java/io/github/osmanys_perez/neutrosophy/evaluator/TemporalEvaluator.java:43-45 | a copy differing only in the timeout |
| Temporal.WithPollInterval | neutrosophy-core/src/main/java/io/github/osmanys_perez/neutrosophy/evaluator/TemporalEvaluator.java:47-49 | a copy differing only in the poll interval |
| Temporal.WithStabilityThreshold | neutrosophy-core/src/main/java/io/github/osmanys_perez/neutrosophy/evaluator/TemporalEvaluator.java:51-53 | a copy differing only in the stability threshold |
| Temporal.InterruptedResult | neutrosophy-core/src/main/java/io/github/osmanys_perez/neutrosophy/evaluator/TemporalEvaluator.java:83-101 | half the last truth and falsity with indeterminacy 0.5, or (0, 0.5, 0.1) without a sample; no rescale happens |
| Temporal.TimeoutResult | neutrosophy-core/src/main/java/io/github/osmanys_perez/neutrosophy/evaluator/TemporalEvaluator.java:105-124 | a fifth of the last truth and falsity with indeterminacy 0.8, or (0, 0.8, 0.04) without a sample; no rescale happens |
| Temporal.ToResult | neutrosophy-core/src/main/java/io/github/osmanys_perez/neutrosophy/evaluator/TemporalEvaluator.java:56-125 | `evaluate` throws exactly for the outcomes where the base evaluator or the sleep threw |
| Temporal.Evaluate | neutrosophy-core/src/main/java/io/github/osmanys_perez/neutrosophy/evaluator/TemporalEvaluator.java:56-125 | the poll loop, including the sleep's refusal of a negative interval, computes the outcome of the recursive poll function |
| Temporal.PollExplained | neutrosophy-core/src/main/java/io/github/osmanys_perez/neutrosophy/evaluator/TemporalEvaluator.java:60-103 | from every reachable pass the loop's outcome matches the reference description |
| Temporal.RunExplained | neutrosophy-core/src/main/java/io/github/osmanys_perez/neutrosophy/evaluator/TemporalEvaluator.java:56-125 | the run ends at the first pass where something ends it, with what that was; only a run nothing ends times out, with the last sample's grade |
| Temporal.FirstStablePairReturned | neutrosophy-core/src/main/java/io/github/osmanys_perez/neutrosophy/evaluator/TemporalEvaluator.java:69-74 | the second of the first two consecutive stable polls is returned unchanged |
| Temporal.FirstFailureEscapes | neutrosophy-core/src/main/java/io/github/osmanys_perez/neutrosophy/evaluator/TemporalEvaluator.java:64-66 | an exception of the base evaluator on the first pass that ends the loop escapes |
| Temporal.NegativeIntervalThrows | neutrosophy-core/src/main/java/io/github/osmanys_perez/neutrosophy/evaluator/TemporalEvaluator.java:64-83 | with a negative poll interval every run that polls throws on its first pass: the base evaluator's exception, or else the sleep's `IllegalArgumentException` |
| Temporal.NonConsecutiveNeverStable | neutrosophy-core/src/main/java/io/github/osmanys_perez/neutrosophy/evaluator/TemporalEvaluator.java:75-78 | stable polls that are never consecutive never end the run as stable |
| Temporal.NeverStableTimesOut | neutrosophy-core/src/main/java/io/github/osmanys_perez/neutrosophy/evaluator/TemporalEvaluator.java:105-124 | a run with a nonnegative interval that never reaches the threshold times out with (0.2T, 0.8, 0.2F) of the last sample |
| Temporal.NoPollsTimesOut | neutrosophy-core/src/main/java/io/github/osmanys_perez/neutrosophy/evaluator/TemporalEvaluator.java:64 | a deadline passed before the first poll gives (0, 0.8, 0.04) |
| Temporal.DegradedResultsRejected | neutrosophy-core/src/main/java/io/github/osmanys_perez/neutrosophy/evaluator/TemporalEvaluator.java:83-124 | neither degraded result is accepted even by the lenient context |
| ExceptionThrown.ThrowsException | neutrosophy-core/src/main/java/io/github/osmanys_perez/neutrosophy/evaluator/ExceptionThrownEvaluator.java:23-25 | no message pattern |
| ExceptionThrown.WithMessageContaining | neutrosophy-core/src/main/java/io/github/osmanys_perez/neutrosophy/evaluator/ExceptionThrownEvaluator.java:27-29 | a copy that keeps the expected type and sets the pattern, which may be null |
| ExceptionThrown.NullPatternIsNoPattern | neutrosophy-core/src/main/java/io/github/osmanys_perez/neutrosophy/evaluator/ExceptionThrownEvaluator.java:27-45 | a null pattern grades every run exactly as `throwsException` of the same type |
| ExceptionThrown.TypeSimilarity | neutrosophy-core/src/main/java/io/github/osmanys_perez/neutrosophy/evaluator/ExceptionThrownEvaluator.java:55-67 | 1 exactly for the same class, 0.8 exactly for a proper subclass, 0 exactly when unrelated, else 0.4 |
| ExceptionThrown.ToLower | neutrosophy-core/src/main/java/io/github/osmanys_perez/neutrosophy/evaluator/ExceptionThrownEvaluator.java:76-77 | lowercasing keeps the length and maps each character |
| ExceptionThrown.ToLowerIdempotent | neutrosophy-core/src/main/java/io/github/osmanys_perez/neutrosophy/evaluator/ExceptionThrownEvaluator.java:76-77 | lowercasing twice is lowercasing once |
| ExceptionThrown.MessageSimilarity | neutrosophy-core/src/main/java/io/github/osmanys_perez/neutrosophy/evaluator/ExceptionThrownEvaluator.java:74-82 | the fuzzy truth at threshold 0.7 lies in [0, 1]; the matcher can only fail on the sum |
| ExceptionThrown.SameMessageRejected | neutrosophy-core/src/main/java/io/github/osmanys_perez/neutrosophy/evaluator/ExceptionThrownEvaluator.java:74-82 | a message equal to the pattern up to case makes the matcher throw |
| ExceptionThrown.MessageSimilarityIgnoresCase | neutrosophy-core/src/main/java/io/github/osmanys_perez/neutrosophy/evaluator/ExceptionThrownEvaluator.java:74-82 | lowering the message first changes nothing |
| ExceptionThrown.Graded | neutrosophy-core/src/main/java/io/github/osmanys_perez/neutrosophy/evaluator/ExceptionThrownEvaluator.java:47-51 | T = type similarity times message similarity, I = 0.1(1 − T), F = 0.9(1 − T), sum 1 |
| ExceptionThrown.Evaluation | neutrosophy-core/src/main/java/io/github/osmanys_perez/neutrosophy/evaluator/ExceptionThrownEvaluator.java:32-53 | (0, 0.1, 0.9) when nothing is thrown; message similarity 1 without a pattern or a message; otherwise the matcher's failure escapes or the product is graded |
| ExceptionThrown.UnrelatedUnreachable | neutrosophy-core/src/main/java/io/github/osmanys_perez/neutrosophy/evaluator/ExceptionThrownEvaluator.java:62-72 | two throwables always share an ancestor, so similarity 0 never occurs |
| ExceptionThrown.TypeOnlyGrades | neutrosophy-core/src/main/java/io/github/osmanys_perez/neutrosophy/evaluator/ExceptionThrownEvaluator.java:39-51 | without a pattern: TRUE for the expected class, (0.8, 0.02, 0.18) for a subclass, (0.4, 0.06, 0.54) otherwise |
| ExceptionThrown.ExactMessageMakesEvaluatorThrow | neutrosophy-core/src/main/java/io/github/osmanys_perez/neutrosophy/evaluator/ExceptionThrownEvaluator.java:42-45 | a message matching the pattern up to case makes `evaluate` throw |
| ExceptionThrown.MissingMessageIgnoresPattern | neutrosophy-core/src/main/java/io/github/osmanys_perez/neutrosophy/evaluator/ExceptionThrownEvaluator.java:42-45 | a throwable without a message is graded as if no pattern were set |
| ExactEquals.ComparedTo | neutrosophy-core/src/main/java/io/github/osmanys_perez/neutrosophy/evaluator/ExactEqualsEvaluator.java:25-27 | stores the expected value |
| ExactEquals.Evaluation | neutrosophy-core/src/main/java/io/github/osmanys_perez/neutrosophy/evaluator/ExactEqualsEvaluator.java:30-36 | TRUE exactly for equal values (null equals only null), FALSE otherwise, indeterminacy always 0 |
| ExactEquals.DefaultAcceptsExactlyEqual | neutrosophy-demo/src/test/java/io/github/osmanys_perez/demo/EqualsEvaluatorsTest.java:18-24 | the default context accepts exactly the equal case |
| ExactEquals.NullHandling | neutrosophy-core/src/main/java/io/github/osmanys_perez/neutrosophy/evaluator/ExactEqualsEvaluator.java:30-36 | null against a value either way round is FALSE, null against null TRUE |
| NeutrosophicEquals.ComparedTo | neutrosophy-core/src/main/java/io/github/osmanys_perez/neutrosophy/evaluator/NeutrosophicEqualsEvaluator.java:25-27 | stores the expected value |
| NeutrosophicEquals.Evaluation | neutrosophy-core/src/main/java/io/github/osmanys_perez/neutrosophy/evaluator/NeutrosophicEqualsEvaluator.java:30-53 | (0.98, 0.01, 0.01) exactly for two nulls, (0.1, 0.3, 0.6) exactly for one, (0.95, 0.04, 0.01) exactly for equal values, (0.05, 0.15, 0.8) exactly for unequal ones |
| NeutrosophicEquals.DefaultAcceptsExactlyEqual | neutrosophy-core/src/main/java/io/github/osmanys_perez/neutrosophy/evaluator/NeutrosophicEqualsEvaluator.java:30-53 | the default context accepts exactly the two equal cases |
| NeutrosophicEquals.LowTruthContextStillRejects | neutrosophy-demo/src/test/java/io/github/osmanys_perez/demo/EqualsEvaluatorsTest.java:41-48 | the (0.04, 0.5, 0.2) context builds and still rejects unequal values, whose falsity is 0.8 |
| Assertion.AssertThat | neutrosophy-core/src/main/java/io/github/osmanys_perez/neutrosophy/NeutrosophicAssert.java:21-23 | the assertion stores its three arguments |
| Assertion.AssertThatDefault | neutrosophy-core/src/main/java/io/github/osmanys_perez/neutrosophy/NeutrosophicAssert.java:34-36 | the two-argument form uses the default context |
| Assertion.Accepted | neutrosophy-core/src/main/java/io/github/osmanys_perez/neutrosophy/NeutrosophicAssertion.java:33-34 | the context's verdict on the evaluated triplet; a not-a-number result is never accepted; any other evaluator exception escapes |
| Assertion.IsTrue | neutrosophy-core/src/main/java/io/github/osmanys_perez/neutrosophy/NeutrosophicAssertion.java:32-37 | passes exactly when accepted, fails exactly when not, rethrows exactly when the evaluator throws |
| Assertion.IsFalse | neutrosophy-core/src/main/java/io/github/osmanys_perez/neutrosophy/NeutrosophicAssertion.java:45-50 | passes exactly when not accepted, fails exactly when accepted |
| Assertion.IsAccepted | neutrosophy-core/src/main/java/io/github/osmanys_perez/neutrosophy/NeutrosophicAssertion.java:56-58 | passes and fails exactly as `isTrue` |
| Assertion.IsRejected | neutrosophy-core/src/main/java/io/github/osmanys_perez/neutrosophy/NeutrosophicAssertion.java:64-66 | passes and fails exactly as `isFalse` |
| Assertion.ExactlyOneFails | neutrosophy-core/src/main/java/io/github/osmanys_perez/neutrosophy/NeutrosophicAssertion.java:32-50 | when the evaluator yields a triplet exactly one of `isTrue` and `isFalse` fails; when it throws both rethrow |
| Assertion.AliasesAgree | neutrosophy-core/src/main/java/io/github/osmanys_perez/neutrosophy/NeutrosophicAssertion.java:56-66 | the aliases are the same decisions |
| Assertion.WeakerContextPassesMore | neutrosophy-core/src/main/java/io/github/osmanys_perez/neutrosophy/NeutrosophicAssertion.java:32-37 | an `isTrue` that passes still passes under a weaker context |
| Assertion.EqualityDemonstrations | neutrosophy-demo/src/test/java/io/github/osmanys_perez/demo/EqualsEvaluatorsTest.java:13-29 | "test" passes against "test" and fails against "different" and against null |
| Assertion.LowTruthDemonstration | neutrosophy-demo/src/test/java/io/github/osmanys_perez/demo/EqualsEvaluatorsTest.java:41-48 | the (0.04, 0.5, 0.2) context still fails "test" against "different" |
| Assertion.FuzzyEdgeDemonstrations | neutrosophy-demo/src/test/java/io/github/osmanys_perez/demo/NeutrosophyDemoTest.java:47-54 | two nulls pass; "" against "" throws instead of passing |
| Assertion.EventualConsistencyDemonstration | neutrosophy-demo/src/test/java/io/github/osmanys_perez/demo/TemporalEvaluatorTest.java:43-63 | the first poll that sees "New York", if nothing ended the loop earlier, makes the assertion throw |
| Assertion.EventualConsistencyFirstPoll | neutrosophy-demo/src/test/java/io/github/osmanys_perez/demo/TemporalEvaluatorTest.java:20-63 | a trace whose first sample is "loading...", as the demonstration's simulator starts, makes the assertion throw at the first poll |

## Left out

- IEEE-754 arithmetic (rounding, `-0.0`, `%.2f`) is not modelled: components are exact reals.
- NaN is modelled as the error `NotANumber`:
  - In Java, 0/0 (fuzzy threshold 1 with a perfect match; numeric tolerance 0 with equal numbers) yields a NaN triplet that slips past the constructor's checks and that every context rejects.
  - `Assertion.Accepted` treats `NotANumber` as rejection, so a direct assertion behaves as in Java.
  - Inside a wrapping evaluator (collection, temporal, exception), Java carries the NaN triplet on, while the model stops with the error.
- Clocks, `Thread.sleep`, interruption and the demonstration's background threads are abstracted:
  - the temporal loop runs over a trace, which holds the samples taken before the deadline and the pass whose sleep is interrupted;
  - the time-bound evaluator takes the elapsed milliseconds as an argument.
- Temporal timeout and the length of a nonnegative poll interval: stored and copied, but only the trace decides how many polls happen. The sign of the interval is modelled: a negative one makes the first sleep throw.
- `Duration.toMillis` truncation and `long` overflow of `maxMillis + varianceMillis` are not modelled: milliseconds are unbounded integers.
- Temporal: an exception thrown by the supplier itself (not by the base evaluator) is not modelled; samples are plain values.
- ExceptionThrown: `isAssignableFrom` is an abstract relation on class names.
- ExceptionThrown: `toLowerCase` covers ASCII letters only, not full Unicode case mapping.
- FuzzyString: strings are sequences of Unicode scalar values, while Java's `length` and `charAt` count UTF-16 code units, so lengths, distances and similarities differ for characters outside the Basic Multilingual Plane (and with them the message similarity of ExceptionThrown).
- ExceptionThrown: the supplier's return value is ignored, as in the code.
- Numeric: `Number.doubleValue()` conversion is not modelled; operands are reals.
- Numeric.Evaluation: requires a nonnegative tolerance. The private constructor's `Math.abs` guarantees this for every evaluator the library can build (`Numeric.Make`).
- Collection: a collection is a sequence in iteration order. A set's iteration order is whatever the collection supplies, and the model does not choose one.
- Collection.Bump: when the bumped sum exceeds 1, the contract states the new sum, the cap and the kept truth-to-falsity ratio, not each rescaled component. `Values.Normalize`, which it calls, states those.
- FuzzyString.Grade: its contract names only the two possible errors. The band lemmas state the values and exactly when each error occurs.
- Temporal.InterruptedResult: the no-sample case is defined but never reached from `Temporal.Evaluate`.
- Values.Equals: the `this == o` and `getClass` checks and `Double.compare`'s treatment of `-0.0` and NaN are not modelled; equality is exact comparison of reals.
- `Contexts.Evaluate` has no contract of its own. Its properties are `Contexts.EvaluateMonotone` and the other `Contexts` lemmas.
- Evaluator invocation counts: evaluators are pure functions, so evaluating once per terminal call and never on construction is not observable.
- The one-terminal-call lifecycle of an assertion is not enforced.
- Rendering only, so not modelled: `toString`, `hashCode`, the failure messages and `formatActual`.
- The `Evaluator` interface is the function type `Values.Evaluator`.
- `NeutrosophicAssert` is the two functions `Assertion.AssertThat` and `Assertion.AssertThatDefault`.
- The junit5 package (`NeutrosophicTestExtension`, `NeutrosophicTest`, `NeutrosophicAssertions`) is not part of this model: reflection and a test-runner store.
