/** Page-level citation precision, recall and F1 by greedy matching. */
module CitationScoring {
  import opened Outcomes
  import opened Corpus
  import opened Geometry
  import opened GreedyMatching

  datatype Target = Target(document: nat, page: nat, box: Option<Box>)

  /** citation_matches: the same page, and half an overlap if both citations have a box. */
  predicate Matches(predicted: Target, expected: Target) {
    predicted.document == expected.document && predicted.page == expected.page &&
    (expected.box.None? || predicted.box.None? || Iou(predicted.box.value, expected.box.value) >= 0.5)
  }

  function Related(predicted: seq<Target>, expected: seq<Target>): Relation {
    (i: nat, j: nat) => i < |predicted| && j < |expected| && Matches(predicted[i], expected[j])
  }

  /** How many predictions greedy matching matches. */
  function Matched(predicted: seq<Target>, expected: seq<Target>): nat {
    |Greedy(Related(predicted, expected), |predicted|, |expected|)|
  }

  datatype Score = Score(precision: real, recall: real, f1: real)

  /** The scores from the number matched and the two lengths. */
  function ScoreOf(matched: nat, predicted: nat, expected: nat): Score {
    if predicted == 0 && expected == 0 then Score(1.0, 1.0, 1.0)
    else
      var precision := if predicted > 0 then matched as real / predicted as real else 0.0;
      var recall := if expected > 0 then matched as real / expected as real else 0.0;
      Score(precision, recall, F1(precision, recall))
  }

  function F1(precision: real, recall: real): real {
    if precision + recall != 0.0 then 2.0 * precision * recall / (precision + recall) else 0.0
  }

  /** The inner loop: it breaks at the first free match. */
  method FindFree(citation: Target, expected: seq<Target>, taken: set<nat>, ghost rel: Relation, ghost row: nat)
    returns (found: Option<nat>)
    requires forall j | 0 <= j < |expected| :: rel(row, j) <==> Matches(citation, expected[j])
    ensures found == FirstFree(rel, row, |expected|, taken, 0)
  {
    for index := 0 to |expected|
      invariant FirstFree(rel, row, |expected|, taken, 0) == FirstFree(rel, row, |expected|, taken, index)
    {
      if index !in taken && Matches(citation, expected[index]) {
        return Some(index);
      }
    }
    return None;
  }

  /** The matching loops. */
  method CountMatched(predicted: seq<Target>, expected: seq<Target>) returns (matchedPredicted: nat)
    ensures matchedPredicted == Matched(predicted, expected)
  {
    ghost var rel := Related(predicted, expected);
    var matchedExpected: set<nat> := {};
    matchedPredicted := 0;
    for i := 0 to |predicted|
      invariant matchedExpected == Image(Greedy(rel, i, |expected|))
      invariant matchedPredicted == |Greedy(rel, i, |expected|)|
    {
      var found := FindFree(predicted[i], expected, matchedExpected, rel, i);
      if found.Some? {
        ImageGrows(Greedy(rel, i, |expected|), i, found.value);
        matchedExpected := matchedExpected + {found.value};
        matchedPredicted := matchedPredicted + 1;
      }
    }
  }

  /** score_citations. */
  method ScoreCitations(predicted: seq<Target>, expected: seq<Target>) returns (score: Score)
    ensures score == ScoreOf(Matched(predicted, expected), |predicted|, |expected|)
  {
    if |predicted| == 0 && |expected| == 0 {
      return Score(1.0, 1.0, 1.0);
    }
    var matched := CountMatched(predicted, expected);
    score := ScoreOf(matched, |predicted|, |expected|);
  }

  ghost predicate IsCitationMatching(m: Matching, predicted: seq<Target>, expected: seq<Target>) {
    IsMatching(Related(predicted, expected), m, |predicted|, |expected|)
  }

  /** What is counted is a one-to-one matching that nothing can be added to, and at least half of any. */
  lemma {:induction false} MatchedIsHalfOptimal(predicted: seq<Target>, expected: seq<Target>, other: Matching)
    requires IsCitationMatching(other, predicted, expected)
    ensures var m := Greedy(Related(predicted, expected), |predicted|, |expected|);
            && IsCitationMatching(m, predicted, expected) && |m| == Matched(predicted, expected)
            && IsMaximal(Related(predicted, expected), m, |predicted|, |expected|)
            && |other| <= 2 * Matched(predicted, expected)
  {
    GreedyIsMaximal(Related(predicted, expected), |predicted|, |expected|);
    GreedyIsHalfOptimal(Related(predicted, expected), |predicted|, |expected|, other);
  }

  datatype Page = Page(document: nat, page: nat)

  function PagesOf(ts: seq<Target>): seq<Page> {
    seq(|ts|, i requires 0 <= i < |ts| => Page(ts[i].document, ts[i].page))
  }

  /** When the predictions have no boxes the count is optimal: it is the size of the multiset
      intersection of the predicted and the expected pages, and no one-to-one matching has more. */
  lemma {:induction false} MatchedIsOptimalWithoutBoxes(predicted: seq<Target>, expected: seq<Target>, other: Matching)
    requires forall t | t in predicted :: t.box.None?
    ensures Matched(predicted, expected) == |multiset(PagesOf(predicted)) * multiset(PagesOf(expected))|
    ensures IsCitationMatching(other, predicted, expected) ==> |other| <= Matched(predicted, expected)
  {
    assert ByLabel(Related(predicted, expected), PagesOf(predicted), PagesOf(expected)) by {
      assert forall i | 0 <= i < |predicted| :: predicted[i] in predicted;
    }
    GreedyIsOptimalByLabel(Related(predicted, expected), PagesOf(predicted), PagesOf(expected), other);
  }

  /** The same when the expected citations have no boxes. */
  lemma {:induction false} MatchedIsOptimalWithoutExpectedBoxes(predicted: seq<Target>, expected: seq<Target>,
                                                                other: Matching)
    requires forall t | t in expected :: t.box.None?
    ensures Matched(predicted, expected) == |multiset(PagesOf(predicted)) * multiset(PagesOf(expected))|
    ensures IsCitationMatching(other, predicted, expected) ==> |other| <= Matched(predicted, expected)
  {
    assert ByLabel(Related(predicted, expected), PagesOf(predicted), PagesOf(expected)) by {
      assert forall j | 0 <= j < |expected| :: expected[j] in expected;
    }
    GreedyIsOptimalByLabel(Related(predicted, expected), PagesOf(predicted), PagesOf(expected), other);
  }

  /** With boxes on both sides it can be half as good: a prediction without a box takes the target that
      the next one needed. */
  lemma {:induction false} MatchedCanHalve(a: Box, b: Box)
    requires Iou(a, a) == 1.0 && Iou(a, b) < 0.5
    ensures var predicted, expected :=
              [Target(1, 1, None), Target(1, 1, Some(a))], [Target(1, 1, Some(a)), Target(1, 1, Some(b))];
            && Matched(predicted, expected) == 1
            && IsCitationMatching(map[0 := 1, 1 := 0], predicted, expected)
            && |map[0 := 1, 1 := 0]| == 2
  {
    var predicted, expected := [Target(1, 1, None), Target(1, 1, Some(a))],
                               [Target(1, 1, Some(a)), Target(1, 1, Some(b))];
    var rel := Related(predicted, expected);
    assert rel(0, 0) && rel(0, 1) && rel(1, 0) && !rel(1, 1);
    assert Greedy(rel, 0, 2) == map[] && Image(map[]) == {};
    assert Greedy(rel, 1, 2) == map[0 := 0];
    ImageGrows(map[], 0, 0);
    assert FirstFree(rel, 1, 2, {0}, 0).None?;
    assert Greedy(rel, 2, 2) == map[0 := 0];
  }

  // ----- scores -----

  lemma {:induction false} Fraction(a: real, b: real)
    requires 0.0 <= a <= b && b > 0.0
    ensures 0.0 <= a / b <= 1.0
  {
    var q := a / b;
    assert q * b == a;
    assert q > 1.0 ==> q * b > b;
    assert q < 0.0 ==> q * b < 0.0;
  }

  lemma {:induction false} DiceOfRatios(m: real, p: real, e: real, x: real, y: real)
    requires m > 0.0 && p > 0.0 && e > 0.0 && x * p == m && y * e == m
    ensures x > 0.0 && y > 0.0
    ensures F1(x, y) == 2.0 * m / (p + e)
  {
    assert x <= 0.0 ==> x * p <= 0.0;
    assert y <= 0.0 ==> y * e <= 0.0;
    var f := 2.0 * m / (p + e);
    assert f * (p + e) == 2.0 * m;
    CrossMultiply(m, p, e, x, y, f);
    assert 2.0 * x * y == f * (x + y);
    assert (f * (x + y)) / (x + y) == f;
  }

  lemma {:induction false} CrossMultiply(m: real, p: real, e: real, x: real, y: real, f: real)
    requires m > 0.0 && x * p == m && y * e == m && f * (p + e) == 2.0 * m
    ensures f * (x + y) == 2.0 * (x * y)
  {
    assert (x * y) * p == m * y && (x * y) * e == m * x;
    assert (x * y) * (p + e) == m * (x + y);
    assert f * ((x * y) * (p + e)) == (x * y) * (f * (p + e));
    assert f * (m * (x + y)) == m * (f * (x + y));
    assert (x * y) * (2.0 * m) == m * (2.0 * (x * y));
    assert m * (f * (x + y)) == m * (2.0 * (x * y));
  }

  /** F1 is twice the matched over the two lengths together, and all three scores lie between 0 and 1. */
  lemma {:induction false} F1IsDice(predicted: seq<Target>, expected: seq<Target>)
    requires |predicted| + |expected| > 0
    ensures var m := Matched(predicted, expected);
            var s := ScoreOf(m, |predicted|, |expected|);
            && s.f1 == 2.0 * m as real / (|predicted| + |expected|) as real
            && 0.0 <= s.precision <= 1.0 && 0.0 <= s.recall <= 1.0 && 0.0 <= s.f1 <= 1.0
  {
    GreedyIsSmall(Related(predicted, expected), |predicted|, |expected|);
    ScoresAreNormalised(Matched(predicted, expected), |predicted|, |expected|);
  }

  lemma {:induction false} ScoresAreNormalised(matched: nat, predicted: nat, expected: nat)
    requires matched <= predicted && matched <= expected && predicted + expected > 0
    ensures var s := ScoreOf(matched, predicted, expected);
            && s.f1 == 2.0 * matched as real / (predicted + expected) as real
            && 0.0 <= s.precision <= 1.0 && 0.0 <= s.recall <= 1.0 && 0.0 <= s.f1 <= 1.0
  {
    if matched > 0 {
      RatiosAreNormalised(matched as real, predicted as real, expected as real);
    }
  }

  lemma {:induction false} RatiosAreNormalised(m: real, p: real, e: real)
    requires 0.0 < m <= p && m <= e
    ensures 0.0 <= m / p <= 1.0 && 0.0 <= m / e <= 1.0 && p + e > 0.0
    ensures F1(m / p, m / e) == 2.0 * m / (p + e) && 0.0 <= 2.0 * m / (p + e) <= 1.0
  {
    DiceOfRatios(m, p, e, m / p, m / e);
    Fraction(m, p);
    Fraction(m, e);
    Fraction(2.0 * m, p + e);
  }
}
