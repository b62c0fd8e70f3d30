/** Reciprocal-rank fusion of several ranked lists. */
module RankFusion {
  import opened Outcomes
  import opened StableSort

  /** A retrieval hit; the chunk is named by its identity. */
  datatype Hit = Hit(chunk: nat, score: real, retrievalScore: Option<real>)

  /** What is known of a chunk while fusing: the first hit, the score so far, and the order of appearance. */
  datatype Entry = Entry(hit: Hit, score: real, order: nat)

  datatype Fused = Fused(chunk: nat, score: real, rank: nat, retrievalScore: real)

  datatype Outcome =
    | Hits(hits: seq<Fused>)
    | RankConstantNotPositive
    | LimitNotPositive

  // The definition: a sum over occurrences.

  function Share(k: nat, rank: nat): real
    requires k > 0
  {
    1.0 / (k + rank) as real
  }

  /** What one list adds to a chunk: a share for each rank at which it stands. */
  function ShareOf(list: seq<Hit>, chunk: nat, k: nat): real
    requires k > 0
  {
    if list == [] then 0.0
    else
      var before := list[..|list| - 1];
      ShareOf(before, chunk, k) + (if list[|list| - 1].chunk == chunk then Share(k, |list|) else 0.0)
  }

  /** The fused score of a chunk. */
  function Score(lists: seq<seq<Hit>>, chunk: nat, k: nat): real
    requires k > 0
  {
    if lists == [] then 0.0
    else
      var before := lists[..|lists| - 1];
      Score(before, chunk, k) + ShareOf(lists[|lists| - 1], chunk, k)
  }

  function Flat(lists: seq<seq<Hit>>): seq<Hit> {
    if lists == [] then [] else Flat(lists[..|lists| - 1]) + lists[|lists| - 1]
  }

  function ChunksOf(hits: seq<Hit>): set<nat> {
    set h | h in hits :: h.chunk
  }

  /** The hits that show their chunk for the first time, in order. */
  function Firsts(hits: seq<Hit>): seq<Hit> {
    if hits == [] then []
    else
      var before := Firsts(hits[..|hits| - 1]);
      var hit := hits[|hits| - 1];
      if hit.chunk in ChunksOf(before) then before else before + [hit]
  }

  function Entries(firsts: seq<Hit>, score: nat -> real): (entries: seq<Entry>)
    ensures |entries| == |firsts|
    ensures forall i | 0 <= i < |firsts| :: entries[i] == Entry(firsts[i], score(firsts[i].chunk), i)
  {
    seq(|firsts|, i requires 0 <= i < |firsts| => Entry(firsts[i], score(firsts[i].chunk), i))
  }

  /** The sort key: the higher score first, then the earlier appearance. */
  predicate Ahead(a: Entry, b: Entry) {
    a.score > b.score || (a.score == b.score && a.order < b.order)
  }

  function Cut<T>(s: seq<T>, limit: Option<int>): seq<T> {
    if limit.Some? && 0 <= limit.value < |s| then s[..limit.value] else s
  }

  function Ranked(entries: seq<Entry>): (hits: seq<Fused>)
    ensures |hits| == |entries|
  {
    seq(|entries|, i requires 0 <= i < |entries| =>
      Fused(entries[i].hit.chunk, entries[i].score, i + 1,
            if entries[i].hit.retrievalScore.Some? then entries[i].hit.retrievalScore.value else entries[i].hit.score))
  }

  function Ordered(lists: seq<seq<Hit>>, k: nat): seq<Entry>
    requires k > 0
  {
    Sort(Entries(Firsts(Flat(lists)), (c: nat) => Score(lists, c, k)), Ahead)
  }

  /** What fusion returns. */
  function Fusion(lists: seq<seq<Hit>>, k: int, limit: Option<int>): Outcome {
    if k <= 0 then RankConstantNotPositive
    else if limit.Some? && limit.value <= 0 then LimitNotPositive
    else Hits(Ranked(Cut(Ordered(lists, k), limit)))
  }

  // The accumulating loops.

  lemma {:induction false} FirstsStep(hits: seq<Hit>, hit: Hit)
    ensures Firsts(hits + [hit]) ==
            if hit.chunk in ChunksOf(Firsts(hits)) then Firsts(hits) else Firsts(hits) + [hit]
  {
    assert (hits + [hit])[..|hits|] == hits;
  }

  lemma {:induction false} ShareStep(list: seq<Hit>, n: nat, chunk: nat, k: nat)
    requires k > 0 && n < |list|
    ensures ShareOf(list[..n + 1], chunk, k) ==
            ShareOf(list[..n], chunk, k) + if list[n].chunk == chunk then Share(k, n + 1) else 0.0
  {
    assert list[..n + 1][..n] == list[..n];
  }

  lemma {:induction false} ScoreStep(lists: seq<seq<Hit>>, n: nat, chunk: nat, k: nat)
    requires k > 0 && n < |lists|
    ensures Score(lists[..n + 1], chunk, k) == Score(lists[..n], chunk, k) + ShareOf(lists[n], chunk, k)
    ensures Flat(lists[..n + 1]) == Flat(lists[..n]) + lists[n]
  {
    assert lists[..n + 1][..n] == lists[..n];
  }

  /** The table of fused scores holds exactly the entries of the hits seen, in the order of a dict. */
  ghost predicate Holds(fused: map<nat, Entry>, order: seq<nat>, seen: seq<Hit>, score: nat -> real) {
    var firsts := Firsts(seen);
    && |order| == |firsts|
    && (forall c :: c in fused <==> c in order)
    && (forall i | 0 <= i < |order| :: order[i] == firsts[i].chunk && order[i] in fused &&
          fused[order[i]] == Entry(firsts[i], score(order[i]), i))
  }

  lemma {:induction false} SeenAreHeld(fused: map<nat, Entry>, order: seq<nat>, seen: seq<Hit>, score: nat -> real,
                                       chunk: nat)
    requires Holds(fused, order, seen, score)
    ensures chunk in fused <==> chunk in ChunksOf(Firsts(seen))
  {
    var firsts := Firsts(seen);
    if chunk in fused {
      var i :| 0 <= i < |order| && order[i] == chunk;
      assert firsts[i] in firsts;
    }
    if chunk in ChunksOf(firsts) {
      var h :| h in firsts && h.chunk == chunk;
      var i :| 0 <= i < |firsts| && firsts[i] == h;
      assert order[i] == chunk;
    }
  }

  /** One pass of the inner loop. */
  method Accumulate(fused: map<nat, Entry>, order: seq<nat>, hit: Hit, contribution: real,
                    ghost seen: seq<Hit>, ghost score: nat -> real, ghost next: nat -> real)
    returns (after: map<nat, Entry>, afterOrder: seq<nat>)
    requires Holds(fused, order, seen, score)
    requires forall c :: next(c) == score(c) + if c == hit.chunk then contribution else 0.0
    requires hit.chunk !in ChunksOf(Firsts(seen)) ==> score(hit.chunk) == 0.0
    ensures Holds(after, afterOrder, seen + [hit], next)
  {
    SeenAreHeld(fused, order, seen, score, hit.chunk);
    FirstsStep(seen, hit);
    var chunk := hit.chunk;
    if chunk !in fused {
      after := fused[chunk := Entry(hit, contribution, |order|)];
      afterOrder := order + [chunk];
    } else {
      var Entry(previous, total, originalOrder) := fused[chunk];
      after := fused[chunk := Entry(previous, total + contribution, originalOrder)];
      afterOrder := order;
      FirstsAreDistinct(seen);
    }
  }

  lemma {:induction false} FirstsAreDistinct(hits: seq<Hit>)
    ensures forall i, j | 0 <= i < j < |Firsts(hits)| :: Firsts(hits)[i].chunk != Firsts(hits)[j].chunk
  {
    if hits != [] {
      FirstsAreDistinct(hits[..|hits| - 1]);
      var before := Firsts(hits[..|hits| - 1]);
      assert forall i | 0 <= i < |before| :: before[i] in before && before[i].chunk in ChunksOf(before);
    }
  }

  lemma {:induction false} FirstsShowEveryChunk(hits: seq<Hit>)
    ensures ChunksOf(Firsts(hits)) == ChunksOf(hits)
  {
    if hits != [] {
      var rest := hits[..|hits| - 1];
      var hit := hits[|hits| - 1];
      FirstsShowEveryChunk(rest);
      assert hits == rest + [hit];
      ChunksAdd(rest, [hit]);
      ChunksAdd(Firsts(rest), [hit]);
      assert ChunksOf([hit]) == {hit.chunk} by { assert hit in [hit]; }
    }
  }

  lemma {:induction false} ChunksAdd(a: seq<Hit>, b: seq<Hit>)
    ensures ChunksOf(a + b) == ChunksOf(a) + ChunksOf(b)
  {
    assert forall h :: h in a + b <==> h in a || h in b;
    forall c | c in ChunksOf(a) + ChunksOf(b) ensures c in ChunksOf(a + b) {
      var h :| (h in a || h in b) && h.chunk == c;
      assert h in a + b;
    }
  }

  lemma {:induction false} UnseenScoresNothing(list: seq<Hit>, chunk: nat, k: nat)
    requires k > 0 && chunk !in ChunksOf(list)
    ensures ShareOf(list, chunk, k) == 0.0
  {
    if list != [] {
      var before := list[..|list| - 1];
      assert list == before + [list[|list| - 1]];
      ChunksAdd(before, [list[|list| - 1]]);
      assert list[|list| - 1] in list;
      UnseenScoresNothing(before, chunk, k);
    }
  }

  lemma {:induction false} AbsentScoresNothing(lists: seq<seq<Hit>>, chunk: nat, k: nat)
    requires k > 0 && chunk !in ChunksOf(Flat(lists))
    ensures Score(lists, chunk, k) == 0.0
  {
    if lists != [] {
      var before := lists[..|lists| - 1];
      ChunksAdd(Flat(before), lists[|lists| - 1]);
      AbsentScoresNothing(before, chunk, k);
      UnseenScoresNothing(lists[|lists| - 1], chunk, k);
    }
  }

  function Running(lists: seq<seq<Hit>>, list: seq<Hit>, k: nat): nat -> real
    requires k > 0
  {
    (c: nat) => Score(lists, c, k) + ShareOf(list, c, k)
  }

  method FuseList(fused: map<nat, Entry>, order: seq<nat>, ranked: seq<Hit>, k: nat, ghost done: seq<seq<Hit>>)
    returns (after: map<nat, Entry>, afterOrder: seq<nat>)
    requires k > 0 && Holds(fused, order, Flat(done), Running(done, [], k))
    ensures Holds(after, afterOrder, Flat(done) + ranked, Running(done, ranked, k))
  {
    after, afterOrder := fused, order;
    assert Flat(done) + ranked[..0] == Flat(done) && ranked[..0] == [];
    for n := 0 to |ranked|
      invariant Holds(after, afterOrder, Flat(done) + ranked[..n], Running(done, ranked[..n], k))
    {
      ghost var seen := Flat(done) + ranked[..n];
      ghost var score := Running(done, ranked[..n], k);
      ghost var next := Running(done, ranked[..n + 1], k);
      forall c ensures next(c) == score(c) + if c == ranked[n].chunk then Share(k, n + 1) else 0.0 {
        ShareStep(ranked, n, c, k);
      }
      FirstsShowEveryChunk(seen);
      ChunksAdd(Flat(done), ranked[..n]);
      if ranked[n].chunk !in ChunksOf(seen) {
        AbsentScoresNothing(done, ranked[n].chunk, k);
        UnseenScoresNothing(ranked[..n], ranked[n].chunk, k);
      }
      after, afterOrder := Accumulate(after, afterOrder, ranked[n], 1.0 / (k + (n + 1)) as real, seen, score, next);
      assert seen + [ranked[n]] == Flat(done) + ranked[..n + 1];
    }
    assert ranked[..|ranked|] == ranked;
  }

  /** reciprocal_rank_fusion. */
  method ReciprocalRankFusion(lists: seq<seq<Hit>>, k: int, limit: Option<int>) returns (r: Outcome)
    ensures r == Fusion(lists, k, limit)
  {
    if k <= 0 {
      return RankConstantNotPositive;
    }
    if limit.Some? && limit.value <= 0 {
      return LimitNotPositive;
    }
    var fused: map<nat, Entry> := map[];
    var order: seq<nat> := [];
    for n := 0 to |lists|
      invariant Holds(fused, order, Flat(lists[..n]), Running(lists[..n], [], k))
    {
      fused, order := FuseList(fused, order, lists[n], k, lists[..n]);
      HoldsPointwise(fused, order, lists, n, k);
    }
    assert lists[..|lists|] == lists;
    var values := seq(|order|, i requires 0 <= i < |order| && order[i] in fused => fused[order[i]]);
    assert values == Entries(Firsts(Flat(lists)), (c: nat) => Score(lists, c, k));
    var ordered := Sort(values, Ahead);
    if limit.Some? && limit.value < |ordered| {
      ordered := ordered[..limit.value];
    }
    return Hits(Ranked(ordered));
  }

  lemma {:induction false} HoldsPointwise(fused: map<nat, Entry>, order: seq<nat>, lists: seq<seq<Hit>>, n: nat, k: nat)
    requires k > 0 && n < |lists|
    requires Holds(fused, order, Flat(lists[..n]) + lists[n], Running(lists[..n], lists[n], k))
    ensures Holds(fused, order, Flat(lists[..n + 1]), Running(lists[..n + 1], [], k))
  {
    forall c ensures Running(lists[..n + 1], [], k)(c) == Running(lists[..n], lists[n], k)(c) {
      ScoreStep(lists, n, c, k);
    }
    ScoreStep(lists, n, 0, k);
  }

  // What fusion guarantees.

  /** One chunk is shown before another is shown at all. */
  ghost predicate ShownBefore(hits: seq<Hit>, a: nat, b: nat) {
    exists p | 0 <= p < |hits| :: hits[p].chunk == a && forall q | 0 <= q <= p :: hits[q].chunk != b
  }

  lemma {:induction false} FirstsKeepOrder(hits: seq<Hit>, i: nat, j: nat)
    requires i < j < |Firsts(hits)|
    ensures ShownBefore(hits, Firsts(hits)[i].chunk, Firsts(hits)[j].chunk)
  {
    var rest := hits[..|hits| - 1];
    var before := Firsts(rest);
    var a, b := Firsts(hits)[i].chunk, Firsts(hits)[j].chunk;
    if j < |before| {
      FirstsKeepOrder(rest, i, j);
      var p :| 0 <= p < |rest| && rest[p].chunk == a && forall q | 0 <= q <= p :: rest[q].chunk != b;
      assert hits[p].chunk == a && forall q | 0 <= q <= p :: hits[q] == rest[q];
    } else {
      FirstsShowEveryChunk(rest);
      assert before[i] in before;
      assert a in ChunksOf(rest);
      var h :| h in rest && h.chunk == a;
      var p :| 0 <= p < |rest| && rest[p] == h;
      assert hits[p].chunk == a;
      assert b !in ChunksOf(rest);
      forall q | 0 <= q <= p ensures hits[q].chunk != b {
        assert hits[q] == rest[q] && rest[q] in rest;
      }
    }
  }

  ghost predicate IsEntry(e: Entry, lists: seq<seq<Hit>>, k: nat)
    requires k > 0
  {
    var firsts := Firsts(Flat(lists));
    e.order < |firsts| && e.hit == firsts[e.order] && e.score == Score(lists, e.hit.chunk, k)
  }

  ghost predicate HasOrder(ordered: seq<Entry>, n: nat) {
    exists i :: 0 <= i < |ordered| && ordered[i].order == n
  }

  lemma {:induction false} OrderedEntries(lists: seq<seq<Hit>>, k: nat)
    requires k > 0
    ensures |Ordered(lists, k)| == |Firsts(Flat(lists))|
    ensures forall e | e in Ordered(lists, k) :: IsEntry(e, lists, k)
    ensures forall n: nat | n < |Firsts(Flat(lists))| :: HasOrder(Ordered(lists, k), n)
    ensures forall i, j | 0 <= i < j < |Ordered(lists, k)| :: Ahead(Ordered(lists, k)[i], Ordered(lists, k)[j])
  {
    var entries := Entries(Firsts(Flat(lists)), (c: nat) => Score(lists, c, k));
    SortPermutes(entries, Ahead);
    SortOrders(entries, Ahead);
    var ordered := Sort(entries, Ahead);
    assert forall e :: e in multiset(ordered) <==> e in multiset(entries);
    forall e | e in ordered ensures IsEntry(e, lists, k) {
      assert e in multiset(ordered);
      assert e in entries;
    }
    forall n: nat | n < |entries| ensures HasOrder(ordered, n) {
      assert entries[n] in multiset(entries);
      assert entries[n] in ordered;
    }
    assert Distinct(entries);
    PermutedDistinct(entries, ordered);
    forall i, j | 0 <= i < j < |ordered| ensures Ahead(ordered[i], ordered[j]) {
      assert !Ahead(ordered[j], ordered[i]);
      assert ordered[i] != ordered[j];
      assert ordered[i] in ordered && ordered[j] in ordered;
    }
  }

  lemma {:induction false} RanksCountUp(lists: seq<seq<Hit>>, k: nat, i: nat)
    requires k > 0 && i < |Ordered(lists, k)|
    ensures var hit := Ranked(Ordered(lists, k))[i];
            hit.rank == i + 1 && hit.score == Score(lists, hit.chunk, k) && hit.chunk in ChunksOf(Flat(lists))
  {
    OrderedEntries(lists, k);
    FirstsShowEveryChunk(Flat(lists));
    var e := Ordered(lists, k)[i];
    assert e in Ordered(lists, k);
    assert IsEntry(e, lists, k);
    assert Firsts(Flat(lists))[e.order] in Firsts(Flat(lists));
  }

  lemma {:induction false} ScoresComeDown(lists: seq<seq<Hit>>, k: nat, i: nat, j: nat)
    requires k > 0 && i < j < |Ordered(lists, k)|
    ensures var a, b := Ranked(Ordered(lists, k))[i], Ranked(Ordered(lists, k))[j];
            && a.chunk != b.chunk && a.score >= b.score
            && (a.score == b.score ==> ShownBefore(Flat(lists), a.chunk, b.chunk))
  {
    OrderedEntries(lists, k);
    FirstsAreDistinct(Flat(lists));
    var a, b := Ordered(lists, k)[i], Ordered(lists, k)[j];
    assert a in Ordered(lists, k) && b in Ordered(lists, k);
    assert Ahead(a, b);
    assert IsEntry(a, lists, k) && IsEntry(b, lists, k);
    assert a.order != b.order;
    if a.score == b.score {
      FirstsKeepOrder(Flat(lists), a.order, b.order);
    }
  }

  ghost predicate Returned(hits: seq<Fused>, chunk: nat) {
    exists i :: 0 <= i < |hits| && hits[i].chunk == chunk
  }

  lemma {:induction false} EveryChunkIsReturned(lists: seq<seq<Hit>>, k: nat, chunk: nat)
    requires k > 0 && chunk in ChunksOf(Flat(lists))
    ensures Returned(Ranked(Ordered(lists, k)), chunk)
  {
    OrderedEntries(lists, k);
    FirstsShowEveryChunk(Flat(lists));
    var firsts := Firsts(Flat(lists));
    var h :| h in firsts && h.chunk == chunk;
    var n :| 0 <= n < |firsts| && firsts[n] == h;
    assert HasOrder(Ordered(lists, k), n);
    var i :| 0 <= i < |Ordered(lists, k)| && Ordered(lists, k)[i].order == n;
    assert Ordered(lists, k)[i] in Ordered(lists, k);
    assert IsEntry(Ordered(lists, k)[i], lists, k);
    assert Ranked(Ordered(lists, k))[i].chunk == chunk;
  }

  /** Every chunk of the lists is returned once, with the sum over its occurrences; higher scores come first,
      equal scores in order of first appearance, and ranks count up from one. */
  lemma {:induction false} FusionRanksEveryChunk(lists: seq<seq<Hit>>, k: nat)
    requires k > 0
    ensures var hits := Fusion(lists, k, None).hits;
            && (forall c :: c in ChunksOf(Flat(lists)) <==> Returned(hits, c))
            && (forall i | 0 <= i < |hits| :: hits[i].rank == i + 1 && hits[i].score == Score(lists, hits[i].chunk, k))
            && (forall i, j | 0 <= i < j < |hits| :: hits[i].chunk != hits[j].chunk && hits[i].score >= hits[j].score)
            && (forall i, j | 0 <= i < j < |hits| && hits[i].score == hits[j].score ::
                  ShownBefore(Flat(lists), hits[i].chunk, hits[j].chunk))
  {
    var hits := Ranked(Ordered(lists, k));
    forall i | 0 <= i < |hits|
      ensures hits[i].rank == i + 1 && hits[i].score == Score(lists, hits[i].chunk, k)
      ensures hits[i].chunk in ChunksOf(Flat(lists))
    {
      RanksCountUp(lists, k, i);
    }
    forall i, j | 0 <= i < j < |hits|
      ensures hits[i].chunk != hits[j].chunk && hits[i].score >= hits[j].score
      ensures hits[i].score == hits[j].score ==> ShownBefore(Flat(lists), hits[i].chunk, hits[j].chunk)
    {
      ScoresComeDown(lists, k, i, j);
    }
    forall c | c in ChunksOf(Flat(lists)) ensures Returned(hits, c) {
      EveryChunkIsReturned(lists, k, c);
    }
  }

  /** The first hit of a chunk supplies what is returned besides its score: its retrieval score, or its own score. */
  lemma {:induction false} FirstHitIsKept(lists: seq<seq<Hit>>, k: nat, i: nat)
    requires k > 0 && i < |Ordered(lists, k)|
    ensures exists p :: 0 <= p < |Flat(lists)| && Flat(lists)[p].chunk == Ranked(Ordered(lists, k))[i].chunk
              && (forall q | 0 <= q < p :: Flat(lists)[q].chunk != Flat(lists)[p].chunk)
              && Ranked(Ordered(lists, k))[i].retrievalScore ==
                 (if Flat(lists)[p].retrievalScore.Some? then Flat(lists)[p].retrievalScore.value
                  else Flat(lists)[p].score)
  {
    OrderedEntries(lists, k);
    var e := Ordered(lists, k)[i];
    assert e in Ordered(lists, k);
    assert IsEntry(e, lists, k);
    FirstsAreFirst(Flat(lists), e.order);
  }

  lemma {:induction false} FirstsAreFirst(hits: seq<Hit>, n: nat)
    requires n < |Firsts(hits)|
    ensures exists p :: 0 <= p < |hits| && hits[p] == Firsts(hits)[n] && forall q | 0 <= q < p ::
              hits[q].chunk != hits[p].chunk
  {
    var rest := hits[..|hits| - 1];
    if n < |Firsts(rest)| {
      FirstsAreFirst(rest, n);
      var p :| 0 <= p < |rest| && rest[p] == Firsts(rest)[n] && forall q | 0 <= q < p :: rest[q].chunk != rest[p].chunk;
      assert hits[p] == Firsts(hits)[n] && forall q | 0 <= q < p :: hits[q] == rest[q];
    } else {
      FirstsShowEveryChunk(rest);
      var p := |hits| - 1;
      forall q | 0 <= q < p ensures hits[q].chunk != hits[p].chunk {
        assert hits[q] == rest[q] && rest[q] in rest;
      }
      assert hits[p] == Firsts(hits)[n];
    }
  }

  /** A limit returns the front of the unlimited result. */
  lemma {:induction false} LimitIsPrefix(lists: seq<seq<Hit>>, k: nat, limit: nat)
    requires k > 0 && limit > 0
    ensures Fusion(lists, k, Some(limit)).Hits?
    ensures var all := Fusion(lists, k, None).hits;
            Fusion(lists, k, Some(limit)).hits == if limit <= |all| then all[..limit] else all
  {
    var all := Fusion(lists, k, None).hits;
    var cut := Fusion(lists, k, Some(limit)).hits;
    assert limit < |all| ==> cut == all[..limit];
    assert limit == |all| ==> all[..limit] == all;
  }

  // Dominance.

  /** The chunk occurs at most once in the list. */
  ghost predicate NotRepeated(list: seq<Hit>, chunk: nat) {
    forall i, j | 0 <= i < j < |list| :: list[i].chunk != chunk || list[j].chunk != chunk
  }

  ghost predicate StandsAbove(list: seq<Hit>, a: nat, b: nat) {
    exists i, j | 0 <= i < j < |list| :: list[i].chunk == a && list[j].chunk == b
  }

  lemma {:induction false} ShareAtRank(list: seq<Hit>, i: nat, k: nat)
    requires k > 0 && i < |list| && NotRepeated(list, list[i].chunk)
    ensures ShareOf(list, list[i].chunk, k) == Share(k, i + 1)
  {
    var before := list[..|list| - 1];
    if i < |before| {
      ShareAtRank(before, i, k);
    } else {
      UnseenScoresNothing(before, list[i].chunk, k);
    }
  }

  lemma {:induction false} ShareAtLeast(list: seq<Hit>, i: nat, k: nat)
    requires k > 0 && i < |list|
    ensures ShareOf(list, list[i].chunk, k) >= Share(k, i + 1)
  {
    var before := list[..|list| - 1];
    SharesFall(k, |list|, |list| + 1);
    if i < |before| {
      ShareAtLeast(before, i, k);
    } else {
      SharesAreNotNegative(before, list[i].chunk, k);
    }
  }

  lemma SharesFall(k: nat, i: nat, j: nat)
    requires k > 0 && i < j
    ensures Share(k, i) > Share(k, j) > 0.0
  {
    var x, y := (k + i) as real, (k + j) as real;
    assert 0.0 < x < y;
    assert 1.0 / x - 1.0 / y == (y - x) / (x * y);
  }

  lemma {:induction false} ScoresFollowRanks(lists: seq<seq<Hit>>, k: nat, a: nat, b: nat)
    requires k > 0 && forall list | list in lists :: NotRepeated(list, b)
    requires forall list | list in lists && b in ChunksOf(list) :: StandsAbove(list, a, b)
    ensures Score(lists, a, k) >= Score(lists, b, k)
    ensures b in ChunksOf(Flat(lists)) ==> Score(lists, a, k) > Score(lists, b, k)
  {
    if lists != [] {
      var before := lists[..|lists| - 1];
      var list := lists[|lists| - 1];
      ScoresFollowRanks(before, k, a, b);
      ChunksAdd(Flat(before), list);
      assert list in lists;
      SharesFollowRanks(list, k, a, b);
    }
  }

  lemma {:induction false} SharesFollowRanks(list: seq<Hit>, k: nat, a: nat, b: nat)
    requires k > 0 && NotRepeated(list, b)
    requires b in ChunksOf(list) ==> StandsAbove(list, a, b)
    ensures ShareOf(list, a, k) >= ShareOf(list, b, k)
    ensures b in ChunksOf(list) ==> ShareOf(list, a, k) > ShareOf(list, b, k)
  {
    if b in ChunksOf(list) {
      var i, j :| 0 <= i < j < |list| && list[i].chunk == a && list[j].chunk == b;
      ShareAtLeast(list, i, k);
      ShareAtRank(list, j, k);
      SharesFall(k, i + 1, j + 1);
    } else {
      UnseenScoresNothing(list, b, k);
      SharesAreNotNegative(list, a, k);
    }
  }

  lemma {:induction false} SharesAreNotNegative(list: seq<Hit>, chunk: nat, k: nat)
    requires k > 0
    ensures ShareOf(list, chunk, k) >= 0.0
  {
    if list != [] {
      SharesAreNotNegative(list[..|list| - 1], chunk, k);
      SharesFall(k, |list|, |list| + 1);
    }
  }

  lemma {:induction false} HigherScoreIsAhead(lists: seq<seq<Hit>>, k: nat, i: nat, j: nat)
    requires k > 0 && i < |Ordered(lists, k)| && j < |Ordered(lists, k)|
    ensures Ranked(Ordered(lists, k))[i].score > Ranked(Ordered(lists, k))[j].score ==> i < j
  {
    if j < i {
      ScoresComeDown(lists, k, j, i);
    }
  }

  /** A chunk that stands above another in every list that has the other, and no list repeats the other, is fused
      ahead of it. */
  lemma {:induction false} DominantChunkComesFirst(lists: seq<seq<Hit>>, k: nat, a: nat, b: nat, i: nat, j: nat)
    requires k > 0 && forall list | list in lists :: NotRepeated(list, b)
    requires forall list | list in lists && b in ChunksOf(list) :: StandsAbove(list, a, b)
    requires var hits := Fusion(lists, k, None).hits;
             i < |hits| && j < |hits| && hits[i].chunk == a && hits[j].chunk == b
    ensures i < j
  {
    ScoresFollowRanks(lists, k, a, b);
    RanksCountUp(lists, k, i);
    RanksCountUp(lists, k, j);
    HigherScoreIsAhead(lists, k, i, j);
  }

  /** A list that repeats the lower chunk turns the order round, for every rank constant. */
  lemma {:induction false} RepeatsBreakDominance(k: nat, a: Hit, b: Hit)
    requires k > 0 && a.chunk != b.chunk
    ensures StandsAbove([a, b, b], a.chunk, b.chunk)
    ensures Score([[a, b, b]], b.chunk, k) > Score([[a, b, b]], a.chunk, k)
  {
    var list := [a, b, b];
    assert list[0].chunk == a.chunk && list[1].chunk == b.chunk;
    ScoreStep([list], 0, a.chunk, k);
    ScoreStep([list], 0, b.chunk, k);
    assert [list][..1] == [list] && [list][..0] == [];
    ThreeShares(list, a.chunk, k);
    ThreeShares(list, b.chunk, k);
    TwoLowerSharesBeatOne(k);
  }

  lemma {:induction false} ThreeShares(list: seq<Hit>, chunk: nat, k: nat)
    requires k > 0 && |list| == 3
    ensures ShareOf(list, chunk, k) == (if list[0].chunk == chunk then Share(k, 1) else 0.0) +
              (if list[1].chunk == chunk then Share(k, 2) else 0.0) +
              (if list[2].chunk == chunk then Share(k, 3) else 0.0)
  {
    ShareStep(list, 0, chunk, k);
    ShareStep(list, 1, chunk, k);
    ShareStep(list, 2, chunk, k);
    assert list[..3] == list && list[..0] == [];
  }

  lemma TwoLowerSharesBeatOne(k: nat)
    requires k > 0
    ensures Share(k, 2) + Share(k, 3) > Share(k, 1)
  {
    var x := k as real;
    var p, q, r := x + 1.0, x + 2.0, x + 3.0;
    assert 1.0 / q + 1.0 / r == (q + r) / (q * r);
    assert (q + r) * p > q * r;
    assert (q + r) / (q * r) > 1.0 / p by {
      Cross(q + r, q * r, p);
    }
  }

  lemma Cross(n: real, d: real, p: real)
    requires p > 0.0 && d > 0.0 && n * p > d
    ensures n / d > 1.0 / p
  {
    assert n / d == (n * p) / (d * p);
    assert 1.0 / p == d / (d * p);
    assert (n * p) / (d * p) - d / (d * p) == (n * p - d) / (d * p);
  }
}
