/** Recall, mean reciprocal rank and nDCG of a ranked list of chunk ids. */
module RetrievalMetrics {
  import opened Outcomes
  import opened StableSort

  datatype Item = Item(chunk: nat, rank: int)

  datatype Scores = Scores(recall1: real, recall5: real, recall8: real, mrr: real, ndcg: real)

  /** The gain at each rank, counted from one; the program's is 1 / log2(rank + 1). */
  type Discount = nat -> real

  ghost predicate IsDiscount(d: Discount) {
    (forall r :: d(r) > 0.0) && (forall q, r | q < r :: d(q) > d(r))
  }

  predicate ByRank(a: Item, b: Item) {
    a.rank < b.rank
  }

  function Ids(items: seq<Item>): (ids: seq<nat>)
    ensures |ids| == |items| && forall i | 0 <= i < |items| :: ids[i] == items[i].chunk
  {
    seq(|items|, i requires 0 <= i < |items| => items[i].chunk)
  }

  /** The chunk ids by rank; items of one rank keep their order. */
  function RankedIds(retrieved: seq<Item>): seq<nat> {
    Ids(Sort(retrieved, ByRank))
  }

  function Top<T>(s: seq<T>, k: nat): seq<T> {
    if |s| <= k then s else s[..k]
  }

  /** Which of the ids are relevant. */
  function Hits(ids: seq<nat>, relevant: set<nat>): (hits: seq<bool>)
    ensures |hits| == |ids| && forall i | 0 <= i < |ids| :: hits[i] == (ids[i] in relevant)
  {
    seq(|ids|, i requires 0 <= i < |ids| => ids[i] in relevant)
  }

  function Recall(ids: seq<nat>, relevant: set<nat>, k: nat): real
    requires relevant != {}
  {
    |relevant * Elements(Top(ids, k))| as real / |relevant| as real
  }

  /** One over the rank of the first hit; 0 without a hit. */
  function ReciprocalRank(hits: seq<bool>, from: nat): (r: real)
    requires from > 0
    ensures 0.0 <= r <= 1.0
  {
    if hits == [] then 0.0
    else if hits[0] then 1.0 / from as real
    else ReciprocalRank(hits[1..], from + 1)
  }

  function Dcg(hits: seq<bool>, d: Discount, from: nat): real {
    if hits == [] then 0.0
    else (if hits[0] then d(from) else 0.0) + Dcg(hits[1..], d, from + 1)
  }

  /** The gain of hits at the first ranks. */
  function Ideal(hits: nat, d: Discount, from: nat): real {
    if hits == 0 then 0.0 else d(from) + Ideal(hits - 1, d, from + 1)
  }

  function Count(hits: seq<bool>): (c: nat)
    ensures c <= |hits|
  {
    if hits == [] then 0 else (if hits[0] then 1 else 0) + Count(hits[1..])
  }

  function Min(a: nat, b: nat): nat {
    if a <= b then a else b
  }

  /** The number of hits an ideal list could show in its first eight. */
  function IdealHits(relevant: set<nat>): nat {
    Min(|relevant|, 8)
  }

  function Ndcg(ids: seq<nat>, relevant: set<nat>, d: Discount): real {
    var ideal := Ideal(IdealHits(relevant), d, 1);
    if ideal != 0.0 then Dcg(Hits(Top(ids, 8), relevant), d, 1) / ideal else 0.0
  }

  /** score_retrieval_case. */
  function ScoreCase(relevant: set<nat>, retrieved: seq<Item>, d: Discount): Scores {
    var ids := RankedIds(retrieved);
    if relevant == {} then Scores(0.0, 0.0, 0.0, 0.0, 0.0)
    else
      Scores(Recall(ids, relevant, 1), Recall(ids, relevant, 5), Recall(ids, relevant, 8),
             ReciprocalRank(Hits(ids, relevant), 1), Ndcg(ids, relevant, d))
  }

  // Discounted gain.

  lemma {:induction false} IdealGrows(small: nat, large: nat, d: Discount, from: nat)
    requires IsDiscount(d) && small <= large
    ensures Ideal(small, d, from) <= Ideal(large, d, from)
    ensures Ideal(small, d, from) == Ideal(large, d, from) ==> small == large
  {
    if small > 0 {
      IdealGrows(small - 1, large - 1, d, from + 1);
    } else if large > 0 {
      IdealGrows(0, large - 1, d, from + 1);
    }
  }

  lemma {:induction false} IdealFades(hits: nat, d: Discount, from: nat)
    requires IsDiscount(d)
    ensures Ideal(hits, d, from + 1) <= Ideal(hits, d, from)
    ensures hits > 0 ==> Ideal(hits, d, from + 1) < Ideal(hits, d, from)
  {
    if hits > 0 {
      IdealFades(hits - 1, d, from + 1);
      assert d(from) > d(from + 1);
    }
  }

  /** Every hit stands before every miss. */
  ghost predicate FrontLoaded(hits: seq<bool>) {
    forall i | 0 <= i < Count(hits) :: hits[i]
  }

  /** For a given number of hits the gain is greatest, and only then, when they come first. */
  lemma {:induction false} FrontLoadedGainsMost(hits: seq<bool>, d: Discount, from: nat)
    requires IsDiscount(d)
    ensures Dcg(hits, d, from) <= Ideal(Count(hits), d, from)
    ensures Dcg(hits, d, from) == Ideal(Count(hits), d, from) <==> FrontLoaded(hits)
  {
    if hits != [] {
      var rest := hits[1..];
      FrontLoadedGainsMost(rest, d, from + 1);
      if hits[0] {
        assert FrontLoaded(hits) ==> FrontLoaded(rest) by {
          assert forall i | 0 <= i < |rest| :: rest[i] == hits[i + 1];
        }
        assert FrontLoaded(rest) ==> FrontLoaded(hits) by {
          assert forall i | 0 < i < |hits| :: hits[i] == rest[i - 1];
        }
      } else if Count(hits) > 0 {
        IdealFades(Count(rest), d, from);
        assert !FrontLoaded(hits);
      }
    }
  }

  /** nDCG lies in the unit interval, whatever order the hits come in, exactly when the first eight ids
      hold no more hits than an ideal list. */
  lemma {:induction false} GainIsBoundedIff(count: nat, length: nat, ideal: nat, d: Discount)
    requires IsDiscount(d) && count <= length
    ensures (forall hits: seq<bool> | |hits| == length && Count(hits) == count ::
               Dcg(hits, d, 1) <= Ideal(ideal, d, 1)) <==> count <= ideal
  {
    if count <= ideal {
      forall hits: seq<bool> | |hits| == length && Count(hits) == count
        ensures Dcg(hits, d, 1) <= Ideal(ideal, d, 1)
      {
        FrontLoadedGainsMost(hits, d, 1);
        IdealGrows(count, ideal, d, 1);
      }
    } else {
      var hits := Packed(count, length);
      FrontLoadedGainsMost(hits, d, 1);
      IdealGrows(ideal, count, d, 1);
      assert Dcg(hits, d, 1) > Ideal(ideal, d, 1);
    }
  }

  /** A list whose hits come first. */
  function Packed(count: nat, length: nat): (hits: seq<bool>)
    requires count <= length
    ensures |hits| == length && Count(hits) == count && FrontLoaded(hits)
  {
    if length == 0 then []
    else if count > 0 then
      var rest := Packed(count - 1, length - 1);
      var hits := [true] + rest;
      assert hits[1..] == rest;
      assert forall i | 0 < i < |hits| :: hits[i] == rest[i - 1];
      hits
    else
      var rest := Packed(0, length - 1);
      assert ([false] + rest)[1..] == rest;
      [false] + rest
  }

  // Distinct ids.

  lemma {:induction false} HitsAreMembers(ids: seq<nat>, relevant: set<nat>)
    requires Distinct(ids)
    ensures Count(Hits(ids, relevant)) == |relevant * Elements(ids)|
  {
    if ids == [] {
      assert relevant * Elements(ids) == {};
    } else {
      var rest := ids[1..];
      forall i, j | 0 <= i < j < |rest| ensures rest[i] != rest[j] {
        assert rest[i] == ids[i + 1] && rest[j] == ids[j + 1];
      }
      HitsAreMembers(rest, relevant);
      assert Hits(ids, relevant)[1..] == Hits(rest, relevant);
      OneMoreElement(ids);
      OneMoreMember(relevant, Elements(rest), ids[0]);
    }
  }

  lemma {:induction false} OneMoreElement(ids: seq<nat>)
    requires ids != [] && Distinct(ids)
    ensures Elements(ids) == Elements(ids[1..]) + {ids[0]} && ids[0] !in Elements(ids[1..])
  {
    var rest := ids[1..];
    assert ids == [ids[0]] + rest;
    forall j | 0 <= j < |rest| ensures rest[j] != ids[0] {
      assert rest[j] == ids[j + 1];
    }
  }

  lemma {:induction false} OneMoreMember(relevant: set<nat>, others: set<nat>, id: nat)
    requires id !in others
    ensures |relevant * (others + {id})| == |relevant * others| + if id in relevant then 1 else 0
  {
    if id in relevant {
      assert relevant * (others + {id}) == relevant * others + {id};
    } else {
      assert relevant * (others + {id}) == relevant * others;
    }
  }

  lemma {:induction false} SubsetIsSmaller(a: set<nat>, b: set<nat>)
    requires a <= b
    ensures |a| <= |b|
  {
    assert b == a + (b - a);
  }

  lemma {:induction false} TopIsDistinct(ids: seq<nat>, k: nat)
    requires Distinct(ids)
    ensures Distinct(Top(ids, k))
  {
    assert forall i | 0 <= i < |Top(ids, k)| :: Top(ids, k)[i] == ids[i];
  }

  /** The first eight of distinct ids hold no more hits than an ideal list. */
  lemma {:induction false} DistinctHitsFit(ids: seq<nat>, relevant: set<nat>)
    requires Distinct(ids)
    ensures Fits(ids, relevant)
  {
    TopIsDistinct(ids, 8);
    HitsAreMembers(Top(ids, 8), relevant);
    SubsetIsSmaller(relevant * Elements(Top(ids, 8)), relevant);
  }

  lemma {:induction false} RankedIdsAreDistinct(retrieved: seq<Item>)
    requires Distinct(Ids(retrieved))
    ensures Distinct(RankedIds(retrieved))
  {
    var ranked := Sort(retrieved, ByRank);
    SortPermutes(retrieved, ByRank);
    forall i, j | 0 <= i < j < |retrieved| ensures retrieved[i] != retrieved[j] {
      assert Ids(retrieved)[i] != Ids(retrieved)[j];
    }
    PermutedDistinct(retrieved, ranked);
    forall i, j | 0 <= i < j < |ranked| ensures ranked[i].chunk != ranked[j].chunk {
      assert ranked[i] in multiset(ranked) && ranked[j] in multiset(ranked);
      assert ranked[i] in retrieved && ranked[j] in retrieved;
      var a :| 0 <= a < |retrieved| && retrieved[a] == ranked[i];
      var b :| 0 <= b < |retrieved| && retrieved[b] == ranked[j];
      assert a != b by { assert ranked[i] != ranked[j]; }
      assert Ids(retrieved)[a] != Ids(retrieved)[b];
    }
  }

  lemma Quotient(a: real, b: real)
    requires 0.0 <= a <= b && b > 0.0
    ensures 0.0 <= a / b <= 1.0
    ensures a / b == 1.0 <==> a == b
  {
  }

  lemma {:induction false} GainIsNotNegative(hits: seq<bool>, d: Discount, from: nat)
    requires IsDiscount(d)
    ensures Dcg(hits, d, from) >= 0.0
  {
    if hits != [] {
      GainIsNotNegative(hits[1..], d, from + 1);
      assert d(from) > 0.0;
    }
  }

  /** The first eight ids hold no more hits than an ideal list shows. */
  predicate Fits(ids: seq<nat>, relevant: set<nat>) {
    Count(Hits(Top(ids, 8), relevant)) <= IdealHits(relevant)
  }

  /** nDCG of ids that fit, as distinct ids do, lies in the unit interval, and is 1 exactly when the first ids, as many
      as could be relevant, are all relevant. */
  lemma {:induction false} NdcgIsNormalised(ids: seq<nat>, relevant: set<nat>, d: Discount)
    requires IsDiscount(d) && Fits(ids, relevant) && relevant != {}
    ensures 0.0 <= Ndcg(ids, relevant, d) <= 1.0
    ensures Ndcg(ids, relevant, d) == 1.0 <==>
            |ids| >= IdealHits(relevant) && forall i | 0 <= i < IdealHits(relevant) :: ids[i] in relevant
  {
    var gain, ideal := Dcg(Hits(Top(ids, 8), relevant), d, 1), Ideal(IdealHits(relevant), d, 1);
    GainWithinIdeal(ids, relevant, d);
    Quotient(gain, ideal);
  }

  lemma {:induction false} GainWithinIdeal(ids: seq<nat>, relevant: set<nat>, d: Discount)
    requires IsDiscount(d) && Fits(ids, relevant) && relevant != {}
    ensures var gain, ideal := Dcg(Hits(Top(ids, 8), relevant), d, 1), Ideal(IdealHits(relevant), d, 1);
            && 0.0 <= gain <= ideal && ideal > 0.0
            && (gain == ideal <==>
                  |ids| >= IdealHits(relevant) && forall i | 0 <= i < IdealHits(relevant) :: ids[i] in relevant)
  {
    var m, hits := IdealHits(relevant), Hits(Top(ids, 8), relevant);
    FrontLoadedGainsMost(hits, d, 1);
    IdealGrows(Count(hits), m, d, 1);
    IdealGrows(0, m, d, 1);
    GainIsNotNegative(hits, d, 1);
    if |ids| >= m && forall i | 0 <= i < m :: ids[i] in relevant {
      LeadingHitsCount(hits, m);
    }
  }

  // The exact bound on nDCG.

  lemma {:induction false} CountOfSum(a: seq<bool>, b: seq<bool>)
    ensures Count(a + b) == Count(a) + Count(b)
  {
    if a == [] {
      assert a + b == b;
    } else {
      assert (a + b)[1..] == a[1..] + b;
      CountOfSum(a[1..], b);
    }
  }

  lemma {:induction false} HitsOfSum(a: seq<nat>, b: seq<nat>, relevant: set<nat>)
    ensures Hits(a + b, relevant) == Hits(a, relevant) + Hits(b, relevant)
  {
  }

  function Without(ids: seq<nat>, i: nat): seq<nat>
    requires i < |ids|
  {
    ids[..i] + ids[i + 1..]
  }

  /** One id taken out of a list takes its hit with it. */
  lemma {:induction false} OneLessHit(ids: seq<nat>, i: nat, relevant: set<nat>)
    requires i < |ids|
    ensures multiset(ids) == multiset(Without(ids, i)) + multiset{ids[i]}
    ensures Count(Hits(ids, relevant)) == Count(Hits(Without(ids, i), relevant)) + if ids[i] in relevant then 1 else 0
  {
    var one := [ids[i]];
    assert ids == ids[..i] + (one + ids[i + 1..]);
    HitsOfSum(ids[..i], one + ids[i + 1..], relevant);
    HitsOfSum(one, ids[i + 1..], relevant);
    HitsOfSum(ids[..i], ids[i + 1..], relevant);
    CountOfSum(Hits(ids[..i], relevant), Hits(one + ids[i + 1..], relevant));
    CountOfSum(Hits(one, relevant), Hits(ids[i + 1..], relevant));
    CountOfSum(Hits(ids[..i], relevant), Hits(ids[i + 1..], relevant));
    assert Count(Hits(one, relevant)) == if ids[i] in relevant then 1 else 0;
  }

  lemma {:induction false} SameRest(a: multiset<nat>, b: multiset<nat>, id: nat)
    requires a + multiset{id} == b + multiset{id}
    ensures a == b
  {
    forall x ensures a[x] == b[x] {
      assert (a + multiset{id})[x] == (b + multiset{id})[x];
    }
  }

  /** How many hits a list holds does not depend on its order. */
  lemma {:induction false} CountIsOrderFree(a: seq<nat>, b: seq<nat>, relevant: set<nat>)
    requires multiset(a) == multiset(b)
    ensures |a| == |b| && Count(Hits(a, relevant)) == Count(Hits(b, relevant))
    decreases |a|
  {
    assert |multiset(a)| == |a| && |multiset(b)| == |b|;
    if a != [] {
      assert a[0] in multiset(b);
      var i :| 0 <= i < |b| && b[i] == a[0];
      OneLessHit(a, 0, relevant);
      OneLessHit(b, i, relevant);
      SameRest(multiset(Without(a, 0)), multiset(Without(b, i)), a[0]);
      CountIsOrderFree(Without(a, 0), Without(b, i), relevant);
    }
  }

  /** The same ids with the relevant ones first. */
  lemma {:induction false} RelevantFirst(ids: seq<nat>, relevant: set<nat>) returns (order: seq<nat>)
    ensures multiset(order) == multiset(ids) && FrontLoaded(Hits(order, relevant))
  {
    if ids == [] {
      return [];
    }
    var rest := RelevantFirst(ids[1..], relevant);
    assert ids == [ids[0]] + ids[1..];
    var hits := Hits(rest, relevant);
    if ids[0] in relevant {
      order := [ids[0]] + rest;
      assert Hits(order, relevant)[1..] == hits;
      assert forall i | 0 < i < |order| :: Hits(order, relevant)[i] == hits[i - 1];
    } else {
      order := rest + [ids[0]];
      HitsOfSum(rest, [ids[0]], relevant);
      CountOfSum(hits, Hits([ids[0]], relevant));
    }
  }

  /** Whatever order the first eight ids come in, nDCG is at most 1, exactly when they fit. */
  lemma {:induction false} NdcgIsBoundedIff(ids: seq<nat>, relevant: set<nat>, d: Discount)
    requires IsDiscount(d) && relevant != {}
    ensures (forall order: seq<nat> | multiset(order) == multiset(Top(ids, 8)) :: Ndcg(order, relevant, d) <= 1.0) <==>
            Fits(ids, relevant)
  {
    var top := Top(ids, 8);
    if Fits(ids, relevant) {
      forall order: seq<nat> | multiset(order) == multiset(top) ensures Ndcg(order, relevant, d) <= 1.0 {
        CountIsOrderFree(order, top, relevant);
        NdcgIsNormalised(order, relevant, d);
      }
    } else {
      var order := RelevantFirst(top, relevant);
      CountIsOrderFree(order, top, relevant);
      FrontLoadedExceeds(order, relevant, d);
    }
  }

  lemma {:induction false} FrontLoadedExceeds(ids: seq<nat>, relevant: set<nat>, d: Discount)
    requires IsDiscount(d) && relevant != {} && |ids| <= 8
    requires FrontLoaded(Hits(ids, relevant)) && !Fits(ids, relevant)
    ensures Ndcg(ids, relevant, d) > 1.0
  {
    var hits, m := Hits(ids, relevant), IdealHits(relevant);
    FrontLoadedGainsMost(hits, d, 1);
    IdealGrows(m, Count(hits), d, 1);
    IdealGrows(0, m, d, 1);
    OverOne(Dcg(hits, d, 1), Ideal(m, d, 1));
  }

  lemma {:induction false} LeadingHitsCount(hits: seq<bool>, m: nat)
    requires m <= |hits| && forall i | 0 <= i < m :: hits[i]
    ensures Count(hits) >= m
  {
    if m > 0 {
      assert forall i | 0 <= i < m - 1 :: hits[1..][i] == hits[i + 1];
      LeadingHitsCount(hits[1..], m - 1);
    }
  }

  lemma {:induction false} FoundGrows(ids: seq<nat>, relevant: set<nat>, j: nat, k: nat)
    requires j <= k
    ensures |relevant * Elements(Top(ids, j))| <= |relevant * Elements(Top(ids, k))| <= |relevant|
  {
    forall x | x in Elements(Top(ids, j)) ensures x in Elements(Top(ids, k)) {
      var i :| 0 <= i < |Top(ids, j)| && Top(ids, j)[i] == x;
      assert Top(ids, k)[i] == x;
    }
    SubsetIsSmaller(relevant * Elements(Top(ids, j)), relevant * Elements(Top(ids, k)));
    SubsetIsSmaller(relevant * Elements(Top(ids, k)), relevant);
  }

  /** Recall grows with the cut-off and stays in the unit interval. */
  lemma {:induction false} RecallIsOrdered(ids: seq<nat>, relevant: set<nat>, j: nat, k: nat)
    requires relevant != {} && j <= k
    ensures 0.0 <= Recall(ids, relevant, j) <= Recall(ids, relevant, k) <= 1.0
  {
    FoundGrows(ids, relevant, j, k);
    var n := |relevant|;
    DivideBoth(|relevant * Elements(Top(ids, j))|, |relevant * Elements(Top(ids, k))|, n);
    DivideBoth(|relevant * Elements(Top(ids, k))|, n, n);
  }

  lemma DivideBoth(low: nat, high: nat, n: nat)
    requires low <= high && n > 0
    ensures 0.0 <= low as real / n as real <= high as real / n as real
    ensures n as real / n as real == 1.0
  {
  }

  /** Recall at one never exceeds the reciprocal rank. */
  lemma {:induction false} RecallWithinReciprocalRank(ids: seq<nat>, relevant: set<nat>)
    requires relevant != {}
    ensures Recall(ids, relevant, 1) <= ReciprocalRank(Hits(ids, relevant), 1)
  {
    if ids != [] && ids[0] in relevant {
      RecallIsOrdered(ids, relevant, 1, 1);
    } else {
      assert relevant * Elements(Top(ids, 1)) == {};
    }
  }

  /** The bounds the schema puts on the metrics, and the order between them. */
  ghost predicate Wellformed(s: Scores) {
    && 0.0 <= s.recall1 <= s.recall5 <= s.recall8 <= 1.0
    && s.recall1 <= s.mrr <= 1.0
    && 0.0 <= s.ndcg <= 1.0
  }

  lemma {:induction false} ScoresAreWellformed(relevant: set<nat>, retrieved: seq<Item>, d: Discount)
    requires IsDiscount(d) && Fits(RankedIds(retrieved), relevant)
    ensures Wellformed(ScoreCase(relevant, retrieved, d))
  {
    if relevant != {} {
      var ids := RankedIds(retrieved);
      RecallIsOrdered(ids, relevant, 1, 5);
      RecallIsOrdered(ids, relevant, 5, 8);
      RecallWithinReciprocalRank(ids, relevant);
      NdcgIsNormalised(ids, relevant, d);
    }
  }

  // Aggregation over cases.

  datatype Case = Case(question: nat, relevant: set<nat>)

  datatype Metrics = Metrics(queries: nat, means: Scores)

  function Add(a: Scores, b: Scores): Scores {
    Scores(a.recall1 + b.recall1, a.recall5 + b.recall5, a.recall8 + b.recall8, a.mrr + b.mrr, a.ndcg + b.ndcg)
  }

  function Sum(values: seq<Scores>): Scores {
    if values == [] then Scores(0.0, 0.0, 0.0, 0.0, 0.0) else Add(values[0], Sum(values[1..]))
  }

  function Retrieved(predictions: map<nat, seq<Item>>, question: nat): seq<Item> {
    if question in predictions then predictions[question] else []
  }

  function CaseScores(cases: seq<Case>, predictions: map<nat, seq<Item>>, d: Discount): (values: seq<Scores>)
    ensures |values| == |cases|
  {
    seq(|cases|, i requires 0 <= i < |cases| =>
      ScoreCase(cases[i].relevant, Retrieved(predictions, cases[i].question), d))
  }

  function Over(s: Scores, n: nat): Scores
    requires n > 0
  {
    Scores(s.recall1 / n as real, s.recall5 / n as real, s.recall8 / n as real, s.mrr / n as real, s.ndcg / n as real)
  }

  /** aggregate_retrieval. */
  function Aggregate(cases: seq<Case>, predictions: map<nat, seq<Item>>, d: Discount): Metrics {
    var values := CaseScores(cases, predictions, d);
    if |values| == 0 then Metrics(0, Scores(0.0, 0.0, 0.0, 0.0, 0.0))
    else Metrics(|values|, Over(Sum(values), |values|))
  }

  ghost predicate WithinTimes(s: Scores, n: nat) {
    && 0.0 <= s.recall1 <= s.recall5 <= s.recall8 <= n as real
    && s.recall1 <= s.mrr <= n as real
    && 0.0 <= s.ndcg <= n as real
  }

  lemma {:induction false} SumsStayOrdered(values: seq<Scores>)
    requires forall i | 0 <= i < |values| :: Wellformed(values[i])
    ensures WithinTimes(Sum(values), |values|)
  {
    if values != [] {
      var rest := values[1..];
      assert forall i | 0 <= i < |rest| :: rest[i] == values[i + 1];
      SumsStayOrdered(rest);
      assert Wellformed(values[0]);
    }
  }

  lemma Shrink(a: real, b: real, n: nat)
    requires n > 0 && a <= b
    ensures a / n as real <= b / n as real
  {
  }

  lemma {:induction false} MeanIsAtMostOne(total: real, n: nat)
    requires n > 0 && 0.0 <= total <= n as real
    ensures 0.0 <= total / n as real <= 1.0
  {
  }

  lemma {:induction false} RecallMeans(r1: real, r5: real, r8: real, n: nat)
    requires n > 0 && 0.0 <= r1 <= r5 <= r8 <= n as real
    ensures 0.0 <= r1 / n as real <= r5 / n as real <= r8 / n as real <= 1.0
  {
    Shrink(r1, r5, n);
    Shrink(r5, r8, n);
    MeanIsAtMostOne(r1, n);
    MeanIsAtMostOne(r8, n);
  }

  lemma {:induction false} MeansStayOrdered(s: Scores, n: nat)
    requires n > 0 && WithinTimes(s, n)
    ensures Wellformed(Over(s, n))
  {
    RecallMeans(s.recall1, s.recall5, s.recall8, n);
    Shrink(s.recall1, s.mrr, n);
    MeanIsAtMostOne(s.mrr, n);
    MeanIsAtMostOne(s.ndcg, n);
  }

  /** What each question was answered with fits what is relevant to it. */
  ghost predicate AllFit(cases: seq<Case>, predictions: map<nat, seq<Item>>) {
    forall i | 0 <= i < |cases| :: Fits(RankedIds(Retrieved(predictions, cases[i].question)), cases[i].relevant)
  }

  lemma {:induction false} DistinctAnswersFit(cases: seq<Case>, predictions: map<nat, seq<Item>>)
    requires forall q | q in predictions :: Distinct(Ids(predictions[q]))
    ensures AllFit(cases, predictions)
  {
    forall i | 0 <= i < |cases|
      ensures Fits(RankedIds(Retrieved(predictions, cases[i].question)), cases[i].relevant)
    {
      RankedIdsAreDistinct(Retrieved(predictions, cases[i].question));
      DistinctHitsFit(RankedIds(Retrieved(predictions, cases[i].question)), cases[i].relevant);
    }
  }

  lemma {:induction false} CaseScoresAreWellformed(cases: seq<Case>, predictions: map<nat, seq<Item>>, d: Discount,
                                                   i: nat)
    requires IsDiscount(d) && i < |cases| && AllFit(cases, predictions)
    ensures Wellformed(CaseScores(cases, predictions, d)[i])
  {
    ScoresAreWellformed(cases[i].relevant, Retrieved(predictions, cases[i].question), d);
  }

  /** The reported means meet the schema's bounds, and keep the order between the recalls, whenever every answer fits,
      as it does if no chunk is repeated. */
  lemma {:induction false} MeansAreWellformed(cases: seq<Case>, predictions: map<nat, seq<Item>>, d: Discount)
    requires IsDiscount(d) && AllFit(cases, predictions)
    ensures Wellformed(Aggregate(cases, predictions, d).means)
    ensures Aggregate(cases, predictions, d).queries == |cases|
  {
    var values := CaseScores(cases, predictions, d);
    forall i | 0 <= i < |values| ensures Wellformed(values[i]) {
      CaseScoresAreWellformed(cases, predictions, d, i);
    }
    SumsStayOrdered(values);
    if |values| > 0 {
      MeansStayOrdered(Sum(values), |values|);
    }
  }

  /** A chunk listed twice can lift nDCG above 1, which the schema refuses. */
  lemma {:induction false} RepeatedChunkBreaksBound(d: Discount, chunk: nat)
    requires IsDiscount(d)
    ensures ScoreCase({chunk}, [Item(chunk, 1), Item(chunk, 2)], d).ndcg > 1.0
  {
    var retrieved := [Item(chunk, 1), Item(chunk, 2)];
    SortedStays(retrieved, ByRank);
    var hits := Hits(Top(RankedIds(retrieved), 8), {chunk});
    assert hits == [true, true];
    assert hits[1..] == [true] && [true][1..] == [];
    assert Dcg(hits, d, 1) == d(1) + d(2);
    assert Ideal(IdealHits({chunk}), d, 1) == d(1) by { assert |{chunk}| == 1; assert Ideal(0, d, 2) == 0.0; }
    assert d(2) > 0.0 && d(1) > 0.0;
    OverOne(d(1) + d(2), d(1));
  }

  lemma OverOne(a: real, b: real)
    requires a > b > 0.0
    ensures a / b > 1.0
  {
  }
}
