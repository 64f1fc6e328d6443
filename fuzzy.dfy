/** FuzzyStringEvaluator.java: Levenshtein similarity of two strings, mapped onto a
    triplet by three similarity bands around a "perfect match" threshold. */
module FuzzyString {
  import opened Values

  datatype FuzzyStringEvaluator = FuzzyStringEvaluator(expected: Option<string>, perfectMatchThreshold: real)

  /** `comparedTo`: the default perfect-match threshold is 0.85. */
  function ComparedTo(expected: Option<string>): (e: FuzzyStringEvaluator)
    ensures e.expected == expected && e.perfectMatchThreshold == 0.85
  {
    FuzzyStringEvaluator(expected, 0.85)
  }

  /** `withPerfectMatchThreshold`: a copy with the same expected string; the threshold is not validated. */
  function WithPerfectMatchThreshold(e: FuzzyStringEvaluator, threshold: real): (r: FuzzyStringEvaluator)
    ensures r.expected == e.expected && r.perfectMatchThreshold == threshold
  {
    e.(perfectMatchThreshold := threshold)
  }

  // ---- Levenshtein distance ----

  /** `costOfSubstitution`. */
  function Cost(a: char, b: char): nat {
    if a == b then 0 else 1
  }

  function Min3(a: int, b: int, c: int): int {
    if a <= b && a <= c then a else if b <= c then b else c
  }

  /** The edit distance between the first `i` characters of `s1` and the first `j` of
      `s2`: the value the table cell `dp[i][j]` is meant to hold. */
  function Distance(s1: string, s2: string, i: nat, j: nat): nat
    requires i <= |s1| && j <= |s2|
    decreases i + j
  {
    if i == 0 then j
    else if j == 0 then i
    else Min3(Distance(s1, s2, i - 1, j - 1) + Cost(s1[i - 1], s2[j - 1]),
              Distance(s1, s2, i - 1, j) + 1,
              Distance(s1, s2, i, j - 1) + 1)
  }

  function Levenshtein(s1: string, s2: string): nat {
    Distance(s1, s2, |s1|, |s2|)
  }

  /** `calculateLevenshteinDistance`: fills the table row by row, left to right. */
  method LevenshteinDistance(s1: string, s2: string) returns (d: int)
    ensures d == Levenshtein(s1, s2)
  {
    var dp := new int[|s1| + 1, |s2| + 1];
    for i := 0 to |s1| + 1
      invariant forall x, y {:trigger dp[x, y]} :: 0 <= x < i && 0 <= y <= |s2| ==> dp[x, y] == Distance(s1, s2, x, y)
    {
      for j := 0 to |s2| + 1
        invariant forall x, y {:trigger dp[x, y]} :: 0 <= x < i && 0 <= y <= |s2| ==> dp[x, y] == Distance(s1, s2, x, y)
        invariant forall y {:trigger dp[i, y]} :: 0 <= y < j ==> dp[i, y] == Distance(s1, s2, i, y)
      {
        if i == 0 {
          dp[i, j] := j;
        } else if j == 0 {
          dp[i, j] := i;
        } else {
          dp[i, j] := Min3(dp[i - 1, j - 1] + Cost(s1[i - 1], s2[j - 1]),
                           dp[i - 1, j] + 1,
                           dp[i, j - 1] + 1);
        }
      }
    }
    d := dp[|s1|, |s2|];
  }

  /** The distance never exceeds the longer prefix. */
  lemma {:induction false} DistanceBounded(s1: string, s2: string, i: nat, j: nat)
    requires i <= |s1| && j <= |s2|
    ensures Distance(s1, s2, i, j) <= if i >= j then i else j
    decreases i + j
  {
    if i > 0 && j > 0 {
      DistanceBounded(s1, s2, i - 1, j - 1);
    }
  }

  /** The distance is zero exactly when the two prefixes are the same string. */
  lemma {:induction false} DistanceZeroIff(s1: string, s2: string, i: nat, j: nat)
    requires i <= |s1| && j <= |s2|
    ensures Distance(s1, s2, i, j) == 0 <==> s1[..i] == s2[..j]
    decreases i + j
  {
    if i > 0 && j > 0 {
      DistanceZeroIff(s1, s2, i - 1, j - 1);
      assert s1[..i] == s1[..i - 1] + [s1[i - 1]];
      assert s2[..j] == s2[..j - 1] + [s2[j - 1]];
      if s1[..i] == s2[..j] {
        assert s1[..i - 1] == s1[..i][..i - 1];
        assert s2[..j - 1] == s2[..j][..j - 1];
        assert s1[i - 1] == s1[..i][i - 1];
      }
      if Distance(s1, s2, i, j) == 0 {
        assert Distance(s1, s2, i - 1, j - 1) + Cost(s1[i - 1], s2[j - 1]) == 0;
      }
    } else if i > 0 {
      assert |s1[..i]| != |s2[..j]|;
    } else if j > 0 {
      assert |s1[..i]| != |s2[..j]|;
    }
  }

  /** Swapping the two strings leaves the distance unchanged. */
  lemma {:induction false} DistanceSymmetric(s1: string, s2: string, i: nat, j: nat)
    requires i <= |s1| && j <= |s2|
    ensures Distance(s1, s2, i, j) == Distance(s2, s1, j, i)
    decreases i + j
  {
    if i > 0 && j > 0 {
      DistanceSymmetric(s1, s2, i - 1, j - 1);
      DistanceSymmetric(s1, s2, i - 1, j);
      DistanceSymmetric(s1, s2, i, j - 1);
    }
  }

  // ---- Similarity ----

  /** `calculateSimilarity`: one minus the distance relative to the longer string; two
      empty strings are identical. It lies in [0, 1] and is 1 exactly for equal strings. */
  function Similarity(s1: string, s2: string): (r: real)
    ensures 0.0 <= r <= 1.0
    ensures r == 1.0 <==> s1 == s2
  {
    var maxLength := if |s1| >= |s2| then |s1| else |s2|;
    if maxLength == 0 then
      1.0
    else
      DistanceBounded(s1, s2, |s1|, |s2|);
      DistanceZeroIff(s1, s2, |s1|, |s2|);
      assert s1[..|s1|] == s1 && s2[..|s2|] == s2;
      RatioInUnit(Levenshtein(s1, s2), maxLength);
      1.0 - (Levenshtein(s1, s2) as real) / (maxLength as real)
  }

  lemma RatioInUnit(d: nat, n: nat)
    requires 0 < n && d <= n
    ensures 0.0 <= (d as real) / (n as real) <= 1.0
    ensures (d as real) / (n as real) == 0.0 <==> d == 0
  {
    var q := (d as real) / (n as real);
    assert q * (n as real) == d as real;
  }

  lemma SimilaritySymmetric(s1: string, s2: string)
    ensures Similarity(s1, s2) == Similarity(s2, s1)
  {
    DistanceSymmetric(s1, s2, |s1|, |s2|);
  }

  /** `calculateSimilarity`, running the table. */
  method CalculateSimilarity(s1: string, s2: string) returns (sim: real)
    ensures sim == Similarity(s1, s2)
  {
    var maxLength := if |s1| >= |s2| then |s1| else |s2|;
    if maxLength == 0 {
      return 1.0;
    }
    var distance := LevenshteinDistance(s1, s2);
    sim := 1.0 - (distance as real) / (maxLength as real);
  }

  // ---- The banded mapping ----

  /** The triplet `evaluate` computes for a similarity, before the constructor checks it.
      A threshold of 1 with a perfect similarity divides 0 by 0. */
  function Band(sim: real, th: real): (r: Result<Triplet>)
    requires InUnit(sim)
    ensures r.Err? <==> sim >= th && th == 1.0
    ensures r.Err? ==> r.error == NotANumber
    ensures r.Ok? ==> InUnit(r.value.truth) && InUnit(r.value.indeterminacy) && InUnit(r.value.falsity)
  {
    if sim >= th then
      if th == 1.0 then Err(NotANumber)
      else
        HighRatio(sim, th);
        Ok(Triplet(Min(0.7 + 0.3 * ((sim - th) / (1.0 - th)), 1.0), 0.05, 0.05))
    else if sim >= th / 2.0 then
      MiddleRatio(sim, th);
      var baseTruth := sim / th;
      var baseFalsity := 1.0 - baseTruth;
      Ok(Triplet(baseTruth * 0.6, 0.3, baseFalsity * 0.6))
    else
      LowRatio(sim, th);
      Ok(Triplet(0.05, 0.05, Min(0.7 + 0.3 * (1.0 - sim / (th / 2.0)), 1.0)))
  }

  /** The banded triplet, passed through the constructor. */
  function Grade(sim: real, th: real): (r: Result<Value>)
    requires InUnit(sim)
    ensures r.Err? ==> r.error == NotANumber || r.error == SumExceedsOne
  {
    match Band(sim, th)
    case Err(e) => Err(e)
    case Ok(t) => Construct(t)
  }

  /** Where the high band's ratio (sim − th)/(1 − th) lies. */
  lemma HighRatio(sim: real, th: real)
    requires th <= sim <= 1.0 && th < 1.0
    ensures var q := (sim - th) / (1.0 - th);
      0.0 <= q <= 1.0 && (q > 2.0 / 3.0 <==> sim > (2.0 + th) / 3.0) && (sim == 1.0 ==> q == 1.0)
  {
    var q := (sim - th) / (1.0 - th);
    DivideBy(sim - th, 1.0 - th);
    ScaleCompare(q, 2.0 / 3.0, 1.0 - th, sim - th);
    ScaleCompare(q, 1.0, 1.0 - th, sim - th);
    ScaleCompare(q, 0.0, 1.0 - th, sim - th);
  }

  /** Where the low band's ratio sim/(th/2) lies. */
  lemma LowRatio(sim: real, th: real)
    requires 0.0 <= sim < th / 2.0
    ensures var q := sim / (th / 2.0);
      0.0 <= q < 1.0 && (q < 1.0 / 3.0 <==> sim < th / 6.0)
  {
    var q := sim / (th / 2.0);
    DivideBy(sim, th / 2.0);
    ScaleCompare(q, 1.0 / 3.0, th / 2.0, sim);
    ScaleCompare(q, 1.0, th / 2.0, sim);
    ScaleCompare(q, 0.0, th / 2.0, sim);
  }

  /** Where the middle band's ratio sim/th lies. */
  lemma MiddleRatio(sim: real, th: real)
    requires th / 2.0 <= sim < th && 0.0 <= sim
    ensures var q := sim / th; 0.5 <= q < 1.0
  {
    var q := sim / th;
    DivideBy(sim, th);
    ScaleCompare(q, 0.5, th, sim);
    ScaleCompare(q, 1.0, th, sim);
  }

  /** High band (sim ≥ th): truth rises from 0.7 to 1 across the band and I = F = 0.05,
      so the constructor rejects every similarity above (2 + th)/3, where truth passes 0.9. */
  lemma HighBand(sim: real, th: real)
    requires InUnit(sim) && sim >= th && th < 1.0
    ensures Band(sim, th).Ok?
    ensures var t := Band(sim, th).value;
      0.7 <= t.truth <= 1.0 && t.indeterminacy == 0.05 && t.falsity == 0.05
      && t.truth == 0.7 + 0.3 * ((sim - th) / (1.0 - th))
    ensures Grade(sim, th).Err? <==> sim > (2.0 + th) / 3.0
    ensures Grade(sim, th).Ok? ==> 0.7 <= Grade(sim, th).value.truth <= 0.9
  {
    HighRatio(sim, th);
  }

  /** Middle band (th/2 ≤ sim < th): I = 0.3 and T + F = 0.6, with T in [0.3, 0.6); always constructible. */
  lemma MiddleBand(sim: real, th: real)
    requires InUnit(sim) && th / 2.0 <= sim < th
    ensures Grade(sim, th).Ok?
    ensures var v := Grade(sim, th).value;
      v.indeterminacy == 0.3 && v.truth + v.falsity == 0.6 && 0.3 <= v.truth < 0.6
  {
    MiddleRatio(sim, th);
  }

  /** Low band (sim < th/2): T = I = 0.05 and falsity in (0.7, 1], so the constructor
      rejects every similarity below th/6, where falsity passes 0.9. */
  lemma LowBand(sim: real, th: real)
    requires InUnit(sim) && sim < th / 2.0
    ensures Band(sim, th).Ok?
    ensures var t := Band(sim, th).value;
      t.truth == 0.05 && t.indeterminacy == 0.05 && 0.7 < t.falsity <= 1.0
    ensures Grade(sim, th).Err? <==> sim < th / 6.0
    ensures Grade(sim, th).Ok? ==> 0.7 < Grade(sim, th).value.falsity <= 0.9
  {
    LowRatio(sim, th);
  }

  /** Whenever both grades construct, a higher similarity never yields less truth. */
  lemma GradeTruthMonotone(s: real, t: real, th: real)
    requires InUnit(s) && InUnit(t) && s <= t
    requires Grade(s, th).Ok? && Grade(t, th).Ok?
    ensures Grade(s, th).value.truth <= Grade(t, th).value.truth
  {
    if t >= th {
      HighBand(t, th);
      if s >= th {
        HighBand(s, th);
        HighRatioMonotone(s, t, th);
      } else if s >= th / 2.0 {
        MiddleBand(s, th);
      } else {
        LowBand(s, th);
      }
    } else if t >= th / 2.0 {
      MiddleBand(t, th);
      if s >= th / 2.0 {
        MiddleBand(s, th);
        MiddleRatioMonotone(s, t, th);
      } else {
        LowBand(s, th);
      }
    } else {
      LowBand(t, th);
      LowBand(s, th);
    }
  }

  lemma HighRatioMonotone(s: real, t: real, th: real)
    requires th <= s <= t && th < 1.0
    ensures (s - th) / (1.0 - th) <= (t - th) / (1.0 - th)
  {
    var d := 1.0 - th;
    DivMonotone(s - th, t - th, d);
  }

  lemma MiddleRatioMonotone(s: real, t: real, th: real)
    requires 0.0 <= s <= t && th > 0.0
    ensures s / th <= t / th
  {
    DivMonotone(s, t, th);
  }

  // ---- evaluate ----

  /** `evaluate`: TRUE when both strings are null, (0, 0.1, 0.9) when only one is, and the
      graded similarity otherwise. */
  function Evaluation(e: FuzzyStringEvaluator, actual: Option<string>): (r: Result<Value>)
    ensures e.expected.None? && actual.None? ==> r == Ok(TRUE)
    ensures e.expected.None? != actual.None? ==> r == Ok(Triplet(0.0, 0.1, 0.9))
    ensures e.expected.Some? && actual.Some? ==> r == Grade(Similarity(e.expected.value, actual.value), e.perfectMatchThreshold)
  {
    match (e.expected, actual)
    case (None, None) => Ok(TRUE)
    case (None, Some(_)) => Ok(Triplet(0.0, 0.1, 0.9))
    case (Some(_), None) => Ok(Triplet(0.0, 0.1, 0.9))
    case (Some(x), Some(y)) => Grade(Similarity(x, y), e.perfectMatchThreshold)
  }

  /** `evaluate`, computing the similarity with the table. */
  method Evaluate(e: FuzzyStringEvaluator, actual: Option<string>) returns (r: Result<Value>)
    ensures r == Evaluation(e, actual)
  {
    if e.expected.None? && actual.None? {
      return Ok(TRUE);
    }
    if e.expected.None? || actual.None? {
      return Ok(Triplet(0.0, 0.1, 0.9));
    }
    var similarity := CalculateSimilarity(e.expected.value, actual.value);
    r := Grade(similarity, e.perfectMatchThreshold);
  }

  /** Comparing a string with itself always fails to construct below a threshold of 1:
      similarity 1 lands at the top of the high band, (1, 0.05, 0.05). At a threshold of
      exactly 1 the high band divides 0 by 0. This covers `""` against `""`. Above 1 the
      similarity falls short of the threshold: up to 2 it grades in the middle band, up to 6
      in the low band, and beyond 6 the low band's falsity makes the constructor throw. */
  lemma IdenticalStringsRejected(e: FuzzyStringEvaluator, s: string)
    requires e.expected == Some(s)
    ensures e.perfectMatchThreshold < 1.0 ==> Evaluation(e, Some(s)) == Err(SumExceedsOne)
    ensures e.perfectMatchThreshold == 1.0 ==> Evaluation(e, Some(s)) == Err(NotANumber)
    ensures 1.0 < e.perfectMatchThreshold <= 2.0 ==>
      Evaluation(e, Some(s)).Ok? && Evaluation(e, Some(s)).value.indeterminacy == 0.3
    ensures 2.0 < e.perfectMatchThreshold <= 6.0 ==>
      Evaluation(e, Some(s)).Ok? && Evaluation(e, Some(s)).value.truth == 0.05
    ensures e.perfectMatchThreshold > 6.0 ==> Evaluation(e, Some(s)) == Err(SumExceedsOne)
  {
    var th := e.perfectMatchThreshold;
    assert Similarity(s, s) == 1.0;
    if th < 1.0 {
      HighBand(1.0, th);
      HighRatio(1.0, th);
    } else if 1.0 < th <= 2.0 {
      MiddleBand(1.0, th);
    } else if th > 2.0 {
      LowBand(1.0, th);
    }
  }

  /** The default evaluator rejects the empty string compared with itself. */
  lemma EmptyStringsRejectedByDefault()
    ensures Evaluation(ComparedTo(Some("")), Some("")) == Err(SumExceedsOne)
  {
    IdenticalStringsRejected(ComparedTo(Some("")), "");
  }

  /** Swapping expected and actual strings does not change the outcome. */
  lemma EvaluationSymmetric(x: Option<string>, y: Option<string>, th: real)
    ensures Evaluation(FuzzyStringEvaluator(x, th), y) == Evaluation(FuzzyStringEvaluator(y, th), x)
  {
    if x.Some? && y.Some? {
      SimilaritySymmetric(x.value, y.value);
    }
  }
  // ---- Strings far apart ----

  /** Whether `c` is among the first `j` characters of `s`. */
  function Occurs(c: char, s: string, j: nat): bool
    requires j <= |s|
  {
    j > 0 && (s[j - 1] == c || Occurs(c, s, j - 1))
  }

  /** A character at index `k` occurs in every longer prefix. */
  lemma {:induction false} OccursAt(c: char, s: string, k: nat, j: nat)
    requires k < j <= |s| && s[k] == c
    ensures Occurs(c, s, j)
    decreases j
  {
    if k < j - 1 {
      OccursAt(c, s, k, j - 1);
    }
  }

  /** How many of the first `i` characters of `s1` occur somewhere in `s2`. */
  function Shared(s1: string, s2: string, i: nat): (r: nat)
    requires i <= |s1|
    ensures r <= i
  {
    if i == 0 then 0 else Shared(s1, s2, i - 1) + (if Occurs(s1[i - 1], s2, |s2|) then 1 else 0)
  }

  /** Only a character the two strings share can be kept for free, so the distance is at
      least the longer prefix less the shared characters. */
  lemma {:induction false} DistanceAtLeastUnshared(s1: string, s2: string, i: nat, j: nat)
    requires i <= |s1| && j <= |s2|
    ensures Distance(s1, s2, i, j) + Shared(s1, s2, i) >= (if i >= j then i else j)
    decreases i + j, 1
  {
    if i > 0 && j > 0 {
      var top := (if i >= j then i else j) - Shared(s1, s2, i);
      SubstitutionKeepsBound(s1, s2, i, j);
      DeletionKeepsBound(s1, s2, i, j);
      InsertionKeepsBound(s1, s2, i, j);
      Min3AtLeast(Distance(s1, s2, i - 1, j - 1) + Cost(s1[i - 1], s2[j - 1]),
                  Distance(s1, s2, i - 1, j) + 1, Distance(s1, s2, i, j - 1) + 1, top);
    }
  }

  /** Substituting (or keeping) the last characters: a kept character is a shared one. */
  lemma {:induction false} SubstitutionKeepsBound(s1: string, s2: string, i: nat, j: nat)
    requires 0 < i <= |s1| && 0 < j <= |s2|
    ensures Distance(s1, s2, i - 1, j - 1) + Cost(s1[i - 1], s2[j - 1]) + Shared(s1, s2, i) >= (if i >= j then i else j)
    decreases i + j, 0
  {
    DistanceAtLeastUnshared(s1, s2, i - 1, j - 1);
    if s1[i - 1] == s2[j - 1] {
      OccursAt(s1[i - 1], s2, j - 1, |s2|);
    }
  }

  /** Deleting the last character of the first prefix. */
  lemma {:induction false} DeletionKeepsBound(s1: string, s2: string, i: nat, j: nat)
    requires 0 < i <= |s1| && 0 < j <= |s2|
    ensures Distance(s1, s2, i - 1, j) + 1 + Shared(s1, s2, i) >= (if i >= j then i else j)
    decreases i + j, 0
  {
    DistanceAtLeastUnshared(s1, s2, i - 1, j);
  }

  /** Inserting the last character of the second prefix. */
  lemma {:induction false} InsertionKeepsBound(s1: string, s2: string, i: nat, j: nat)
    requires 0 < i <= |s1| && 0 < j <= |s2|
    ensures Distance(s1, s2, i, j - 1) + 1 + Shared(s1, s2, i) >= (if i >= j then i else j)
    decreases i + j, 0
  {
    DistanceAtLeastUnshared(s1, s2, i, j - 1);
  }

  lemma Min3AtLeast(a: int, b: int, c: int, x: int)
    requires a >= x && b >= x && c >= x
    ensures Min3(a, b, c) >= x
  {
  }

  /** Two strings that share few characters, against a longer `s2`, are so dissimilar that
      the low band's falsity passes 0.9 and the matcher throws: it suffices that the share of
      `s2`'s length covered by characters found in both is below a sixth of the threshold. */
  lemma FewSharedRejected(s1: string, s2: string, th: real)
    requires |s1| <= |s2| && 0 < |s2|
    requires (Shared(s1, s2, |s1|) as real) / (|s2| as real) < th / 6.0
    ensures Similarity(s1, s2) < th / 6.0
    ensures Evaluation(FuzzyStringEvaluator(Some(s1), th), Some(s2)) == Err(SumExceedsOne)
  {
    SimilarityAtMostShared(s1, s2);
    SimilarityBelowSixthRejected(s1, s2, th);
  }

  /** A similarity below th/6 makes evaluation fail the sum check. */
  lemma SimilarityBelowSixthRejected(s1: string, s2: string, th: real)
    requires Similarity(s1, s2) < th / 6.0
    ensures Evaluation(FuzzyStringEvaluator(Some(s1), th), Some(s2)) == Err(SumExceedsOne)
  {
    LowGradeRejected(Similarity(s1, s2), th);
  }

  /** Against a longer non-empty `s2`, the similarity is at most the share of `s2`'s length
      that the characters of `s1` found in `s2` can cover. */
  lemma SimilarityAtMostShared(s1: string, s2: string)
    requires |s1| <= |s2| && 0 < |s2|
    ensures Similarity(s1, s2) <= (Shared(s1, s2, |s1|) as real) / (|s2| as real)
  {
    DistanceAtLeastUnshared(s1, s2, |s1|, |s2|);
    SimilarityAgainstLonger(s1, s2);
    SharedRatio(|s2| as real, Levenshtein(s1, s2) as real, Shared(s1, s2, |s1|) as real, Similarity(s1, s2));
  }

  /** Against a longer non-empty `s2`, the similarity is relative to the length of `s2`. */
  lemma SimilarityAgainstLonger(s1: string, s2: string)
    requires |s1| <= |s2| && 0 < |s2|
    ensures Similarity(s1, s2) == 1.0 - (Levenshtein(s1, s2) as real) / (|s2| as real)
  {
  }

  /** At most `sh` of `n` positions kept free of edits means a similarity of at most sh/n. */
  lemma SharedRatio(n: real, d: real, sh: real, sim: real)
    requires n > 0.0 && sim == 1.0 - d / n && n - d <= sh
    ensures sim <= sh / n
  {
    var q := d / n;
    DivideBy(d, n);
    assert sim * n == n - q * n by {
      assert (1.0 - q) * n == n - q * n;
    }
    DivideBy(sh, n);
    ScaleCompare(sim, sh / n, n, sim * n);
  }

  /** Every similarity below th/6 grades to a falsity the constructor rejects. */
  lemma LowGradeRejected(sim: real, th: real)
    requires InUnit(sim) && sim < th / 6.0
    ensures Grade(sim, th) == Err(SumExceedsOne)
  {
    LowBand(sim, th);
  }

  /** The eventual-consistency demonstration's first sample, "loading...", shares only the
      letter 'o' with "New York": the distance is at least 9 of the longer length 10, the
      similarity at most 0.1, below the low band's limit 0.85/6, so the default matcher throws. */
  lemma LoadingFarFromNewYork()
    ensures Evaluation(ComparedTo(Some("New York")), Some("loading...")) == Err(SumExceedsOne)
  {
    assert !Occurs('N', "loading...", 10);
    assert Shared("New York", "loading...", 1) == 0;
    assert !Occurs('e', "loading...", 10);
    assert Shared("New York", "loading...", 2) == 0;
    assert !Occurs('w', "loading...", 10);
    assert Shared("New York", "loading...", 3) == 0;
    assert !Occurs(' ', "loading...", 10);
    assert Shared("New York", "loading...", 4) == 0;
    assert !Occurs('Y', "loading...", 10);
    assert Shared("New York", "loading...", 5) == 0;
    assert Occurs('o', "loading...", 10);
    assert Shared("New York", "loading...", 6) == 1;
    assert !Occurs('r', "loading...", 10);
    assert Shared("New York", "loading...", 7) == 1;
    assert !Occurs('k', "loading...", 10);
    assert Shared("New York", "loading...", 8) == 1;
    FewSharedRejected("New York", "loading...", 0.85);
  }
}
