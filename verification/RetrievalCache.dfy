/** Retrieval behind a least-recently-used cache, and what the cache must not change. */
module RetrievalCache {
  import opened Outcomes
  import opened StableSort
  import opened CacheKeys
  import Text = TextSplitter

  datatype Hit = Hit(chunk: nat, score: real, rank: int, retrievalScore: Option<real>)

  datatype Answer = Answered(hits: seq<Hit>) | BlankQuery | Failed(code: nat) | ScoreCountDiffers

  datatype Reranker = Reranker(scores: (string, seq<nat>) -> seq<real>, topK: nat)

  datatype Found = Hits(hits: seq<Hit>) | SearchFailed(code: nat)

  /** The models and the store as they stand: what a search finds, and how hits are scored again. */
  datatype Backend = Backend(search: (string, string, seq<string>) -> Found, reranker: Option<Reranker>)

  // The uncached pipeline.

  function NormalizeRanks(hits: seq<Hit>): (r: seq<Hit>)
    ensures |r| == |hits| && forall i | 0 <= i < |hits| :: r[i] == hits[i].(rank := i + 1)
  {
    seq(|hits|, i requires 0 <= i < |hits| => hits[i].(rank := i + 1))
  }

  datatype Scored = Scored(score: real, hit: Hit)

  predicate Better(a: Scored, b: Scored) {
    a.score > b.score || (a.score == b.score && a.hit.rank < b.hit.rank)
  }

  function Zip(scores: seq<real>, hits: seq<Hit>): seq<Scored>
    requires |scores| == |hits|
  {
    seq(|hits|, i requires 0 <= i < |hits| => Scored(scores[i], hits[i]))
  }

  function Best(scored: seq<Scored>, topK: nat): seq<Scored> {
    var sorted := Sort(scored, Better);
    if |sorted| <= topK then sorted else sorted[..topK]
  }

  function Rescored(best: seq<Scored>): (r: seq<Hit>)
    ensures |r| == |best|
    ensures forall i | 0 <= i < |best| :: r[i] == Hit(best[i].hit.chunk, best[i].score, i + 1, Some(best[i].hit.score))
  {
    seq(|best|, i requires 0 <= i < |best| =>
      Hit(best[i].hit.chunk, best[i].score, i + 1, Some(best[i].hit.score)))
  }

  function Chunks(hits: seq<Hit>): seq<nat> {
    seq(|hits|, i requires 0 <= i < |hits| => hits[i].chunk)
  }

  function Rerank(query: string, hits: seq<Hit>, reranker: Reranker): Answer {
    var scores := reranker.scores(query, Chunks(hits));
    if |scores| != |hits| then ScoreCountDiffers
    else Answered(Rescored(Best(Zip(scores, hits), reranker.topK)))
  }

  predicate IsBlank(query: string) {
    Text.Strip(query) == ""
  }

  function Computed(b: Backend, r: Request): Answer {
    match b.search(r.query, r.application, r.documents)
    case SearchFailed(code) => Failed(code)
    case Hits(hits) =>
      match b.reranker
      case None => Answered(NormalizeRanks(hits))
      case Some(reranker) => Rerank(r.query, hits, reranker)
  }

  /** What retrieval answers without a cache. */
  function Uncached(b: Backend, r: Request): Answer {
    if IsBlank(r.query) then BlankQuery else Computed(b, r)
  }

  ghost predicate NoneBetter(best: seq<Scored>, rest: seq<Scored>) {
    forall i, j | 0 <= i < |best| && 0 <= j < |rest| :: !Better(rest[j], best[i])
  }

  lemma {:induction false} FrontIsBest(sorted: seq<Scored>, n: nat)
    requires InOrder(sorted, Better) && n <= |sorted|
    ensures InOrder(sorted[..n], Better) && NoneBetter(sorted[..n], sorted[n..])
  {
  }

  lemma {:induction false} SplitsMultiset<T>(s: seq<T>, n: nat)
    requires n <= |s|
    ensures multiset(s[..n]) + multiset(s[n..]) == multiset(s)
  {
    assert s == s[..n] + s[n..];
  }

  /** Reranking keeps the best hits, as many as asked for, and leaves out none that is better than one it keeps. */
  lemma {:induction false} BestAreKept(scored: seq<Scored>, topK: nat) returns (rest: seq<Scored>)
    ensures multiset(Best(scored, topK)) + multiset(rest) == multiset(scored)
    ensures |Best(scored, topK)| == if |scored| <= topK then |scored| else topK
    ensures InOrder(Best(scored, topK), Better) && NoneBetter(Best(scored, topK), rest)
  {
    var sorted := Sort(scored, Better);
    SortPermutes(scored, Better);
    SortOrders(scored, Better);
    var n := if |sorted| <= topK then |sorted| else topK;
    FrontIsBest(sorted, n);
    SplitsMultiset(sorted, n);
    rest := sorted[n..];
    assert Best(scored, topK) == sorted[..n];
  }

  // The cache.

  /** An ordered dict: its entries, and its keys from the least to the most recently used. */
  datatype Cache = Cache(entries: map<string, seq<Hit>>, order: seq<string>)

  ghost predicate Bounded(c: Cache, cap: nat) {
    && (forall k :: k in c.entries <==> k in c.order)
    && Distinct(c.order)
    && |c.order| <= cap
  }

  function Without(order: seq<string>, drop: string -> bool): (r: seq<string>)
    ensures |r| <= |order|
  {
    if order == [] then []
    else (if drop(order[0]) then [] else [order[0]]) + Without(order[1..], drop)
  }

  function Is(key: string): string -> bool {
    k => k == key
  }

  /** The order after a key is used: it moves to the end, and the least recently used key beyond the cap goes. */
  function Used(order: seq<string>, key: string, cap: nat): seq<string> {
    Last(Without(order, Is(key)) + [key], cap)
  }

  function Restrict(entries: map<string, seq<Hit>>, order: seq<string>): map<string, seq<Hit>> {
    map k | k in entries && k in order :: entries[k]
  }

  /** What one retrieval answers, and the cache it leaves. */
  function Retrieved(c: Cache, cap: nat, b: Backend, r: Request): (Cache, Answer) {
    var key := Key(r);
    if IsBlank(r.query) then (c, BlankQuery)
    else if key in c.entries then (Cache(c.entries, Used(c.order, key, cap)), Answered(c.entries[key]))
    else
      var answer := Computed(b, r);
      if answer.Answered? then
        var order := Used(c.order, key, cap);
        (Cache(Restrict(c.entries[key := answer.hits], order), order), answer)
      else (c, answer)
  }

  predicate Marked(application: string, key: string) {
    Contains(key, Marker(application))
  }

  function MarkedBy(application: string): string -> bool {
    k => Marked(application, k)
  }

  function Invalidated(c: Cache, application: string): Cache {
    Cache(map k | k in c.entries && !Marked(application, k) :: c.entries[k],
          Without(c.order, MarkedBy(application)))
  }

  lemma {:induction false} WithoutFacts(order: seq<string>, drop: string -> bool)
    ensures forall k :: k in Without(order, drop) <==> k in order && !drop(k)
    ensures Distinct(order) ==> Distinct(Without(order, drop))
  {
    if order != [] {
      var rest := order[1..];
      WithoutFacts(rest, drop);
      assert order == [order[0]] + rest;
      if Distinct(order) {
        assert order[0] !in rest by {
          assert forall i | 0 <= i < |rest| :: rest[i] == order[i + 1];
        }
        forall i, j | 0 <= i < j < |rest| ensures rest[i] != rest[j] {
          assert rest[i] == order[i + 1] && rest[j] == order[j + 1];
        }
      }
    }
  }

  lemma {:induction false} NothingToDrop(order: seq<string>, key: string)
    requires key !in order
    ensures Without(order, Is(key)) == order
  {
    if order != [] {
      NothingToDrop(order[1..], key);
      assert order == [order[0]] + order[1..];
    }
  }

  lemma {:induction false} OneLess(order: seq<string>, key: string)
    requires Distinct(order) && key in order
    ensures |Without(order, Is(key))| == |order| - 1
  {
    if order[0] == key {
      assert key !in order[1..] by {
        assert forall i | 0 <= i < |order[1..]| :: order[1..][i] == order[i + 1];
      }
      NothingToDrop(order[1..], key);
    } else {
      OneLess(order[1..], key);
    }
  }

  lemma {:induction false} UsedFacts(order: seq<string>, key: string, cap: nat)
    requires Distinct(order) && |order| <= cap && cap > 0
    ensures Distinct(Used(order, key, cap)) && |Used(order, key, cap)| <= cap && key in Used(order, key, cap)
    ensures forall k | k in Used(order, key, cap) :: k == key || k in order
    ensures key in order ==> forall k | k in order :: k in Used(order, key, cap)
  {
    var rest := Without(order, Is(key));
    WithoutFacts(order, Is(key));
    var all := rest + [key];
    assert Used(order, key, cap) == Last(all, cap);
    assert key !in rest;
    forall i, j | 0 <= i < j < |all| ensures all[i] != all[j] {
      assert all[i] == rest[i] && rest[i] in rest;
    }
    assert all[|all| - 1] == key;
    if key in order {
      OneLess(order, key);
      assert Last(all, cap) == all;
    }
  }

  /** Retrieval keeps the cache well-formed and within its cap. */
  lemma {:induction false} RetrievalKeepsValid(c: Cache, cap: nat, b: Backend, r: Request)
    requires Bounded(c, cap) && cap > 0
    ensures Bounded(Retrieved(c, cap, b, r).0, cap)
  {
    UsedFacts(c.order, Key(r), cap);
  }

  lemma {:induction false} InvalidationKeepsValid(c: Cache, cap: nat, application: string)
    requires Bounded(c, cap)
    ensures Bounded(Invalidated(c, application), cap)
  {
    WithoutFacts(c.order, MarkedBy(application));
  }

  // The class.

  class RetrievalPipeline {
    const cap: nat
    var backend: Backend
    var entries: map<string, seq<Hit>>
    var order: seq<string>

    ghost predicate Valid()
      reads this
    {
      cap > 0 && Bounded(Contents(), cap)
    }

    ghost function Contents(): Cache
      reads this
    {
      Cache(entries, order)
    }

    constructor (cap: nat, backend: Backend)
      requires cap > 0
      ensures Valid() && this.cap == cap && this.backend == backend && Contents() == Cache(map[], [])
    {
      this.cap := cap;
      this.backend := backend;
      entries := map[];
      order := [];
    }

    /** OrderedDict.move_to_end of a key that is present or just added. */
    method MoveToEnd(key: string)
      modifies `order
      ensures order == Without(old(order), Is(key)) + [key]
    {
      order := Without(order, Is(key)) + [key];
    }

    /** The eviction loop. */
    method Evict()
      requires cap > 0 && Distinct(order)
      modifies `entries, `order
      ensures order == Last(old(order), cap)
      ensures entries == Restrict(old(entries), order)
      requires forall k :: k in entries ==> k in order
    {
      ghost var all, full := order, entries;
      RestrictAll(full, order);
      while |order| > cap
        invariant cap <= |order| <= |all| || order == all
        invariant order == Last(all, |order|)
        invariant Distinct(order) && entries == Restrict(full, order)
      {
        var oldest := order[0];
        DropOldest(full, all, order);
        entries := entries - {oldest};
        order := order[1..];
      }
    }

    /** retrieve. */
    method Retrieve(query: string, application: Option<string>, documents: seq<string>) returns (answer: Answer)
      requires Valid()
      modifies `entries, `order
      ensures Valid()
      ensures (Contents(), answer) ==
              Retrieved(old(Contents()), cap, backend,
                        Request(query, if application.Some? then application.value else "", documents))
    {
      if IsBlank(query) {
        return BlankQuery;
      }
      var request := Request(query, if application.Some? then application.value else "", documents);
      RetrievalKeepsValid(Contents(), cap, backend, request);
      var key := Key(request);
      if key in entries {
        answer := Answered(entries[key]);
        MoveToEnd(key);
        OneLess(old(order), key);
        return;
      }
      answer := Computed(backend, request);
      if answer.Answered? {
        Store(key, answer.hits);
      }
    }

    method Store(key: string, hits: seq<Hit>)
      requires Valid() && key !in entries
      modifies `entries, `order
      ensures order == Used(old(order), key, cap)
      ensures entries == Restrict(old(entries)[key := hits], order)
    {
      NothingToDrop(order, key);
      entries := entries[key := hits];
      MoveToEnd(key);
      AddedIsDistinct(old(order), key);
      Evict();
    }

    method Delete(key: string)
      modifies `entries, `order
      ensures Contents() == Deleted(old(Contents()), key)
    {
      entries := entries - {key};
      order := Without(order, Is(key));
    }

    /** invalidate_application. */
    method InvalidateApplication(application: string)
      requires Valid()
      modifies `entries, `order
      ensures Valid()
      ensures Contents() == Invalidated(old(Contents()), application)
    {
      var keys := order;
      ghost var before := Contents();
      InvalidationKeepsValid(before, cap, application);
      PurgeStarts(before, application);
      for i := 0 to |keys|
        invariant Contents() == Purged(before, application, i)
      {
        PurgeStep(before, application, i);
        if Marked(application, keys[i]) {
          Delete(keys[i]);
        }
      }
      PurgeEnds(before, application);
    }
  }

  lemma {:induction false} RestrictAll(entries: map<string, seq<Hit>>, order: seq<string>)
    requires forall k :: k in entries ==> k in order
    ensures Restrict(entries, order) == entries
  {
  }

  lemma {:induction false} DropOldest(full: map<string, seq<Hit>>, all: seq<string>, order: seq<string>)
    requires order != [] && Distinct(order) && |order| <= |all| && order == Last(all, |order|)
    ensures Restrict(full, order) - {order[0]} == Restrict(full, order[1..])
    ensures Distinct(order[1..]) && order[1..] == Last(all, |order| - 1)
  {
    var rest := order[1..];
    assert order == [order[0]] + rest;
    forall i | 0 <= i < |rest| ensures rest[i] != order[0] {
      assert rest[i] == order[i + 1];
    }
    forall i, j | 0 <= i < j < |rest| ensures rest[i] != rest[j] {
      assert rest[i] == order[i + 1] && rest[j] == order[j + 1];
    }
    assert forall k :: k in order <==> k == order[0] || k in rest;
    assert Restrict(full, order) - {order[0]} == Restrict(full, rest);
  }

  lemma {:induction false} AddedIsDistinct(order: seq<string>, key: string)
    requires Distinct(order) && key !in order
    ensures Distinct(order + [key])
  {
  }

  function Deleted(c: Cache, key: string): Cache {
    Cache(c.entries - {key}, Without(c.order, Is(key)))
  }

  /** The cache after the first keys have been examined. */
  function Purged(c: Cache, application: string, n: nat): Cache
    requires n <= |c.order|
  {
    Cache(map k | k in c.entries && !(k in c.order[..n] && Marked(application, k)) :: c.entries[k],
          Without(c.order[..n], MarkedBy(application)) + c.order[n..])
  }

  lemma {:induction false} PurgeStarts(c: Cache, application: string)
    ensures Purged(c, application, 0) == c
  {
    assert c.order[..0] == [] && c.order[0..] == c.order;
    assert Purged(c, application, 0).entries == c.entries;
  }

  lemma {:induction false} PurgeEnds(c: Cache, application: string)
    requires forall k | k in c.entries :: k in c.order
    ensures Purged(c, application, |c.order|) == Invalidated(c, application)
  {
    assert c.order[..|c.order|] == c.order;
    assert Purged(c, application, |c.order|).entries == Invalidated(c, application).entries;
  }

  lemma {:induction false} PurgeStep(c: Cache, application: string, n: nat)
    requires n < |c.order| && Distinct(c.order)
    ensures Purged(c, application, n + 1) ==
            if Marked(application, c.order[n]) then Deleted(Purged(c, application, n), c.order[n])
               else Purged(c, application, n)
  {
    PurgeStepEntries(c, application, n);
    PurgeStepOrder(c, application, n);
  }

  lemma {:induction false} PurgeStepEntries(c: Cache, application: string, n: nat)
    requires n < |c.order|
    ensures Purged(c, application, n + 1).entries ==
            Purged(c, application, n).entries - if Marked(application, c.order[n]) then {c.order[n]} else {}
  {
    assert c.order[..n + 1] == c.order[..n] + [c.order[n]];
  }

  lemma {:induction false} PurgeStepOrder(c: Cache, application: string, n: nat)
    requires n < |c.order| && Distinct(c.order)
    ensures var now, next := Purged(c, application, n).order, Purged(c, application, n + 1).order;
            next == if Marked(application, c.order[n]) then Without(now, Is(c.order[n])) else now
  {
    var key := c.order[n];
    var kept := Without(c.order[..n], MarkedBy(application));
    assert c.order[..n + 1] == c.order[..n] + [key];
    assert c.order[n..] == [key] + c.order[n + 1..];
    WithoutStep(c.order, n, application);
    if Marked(application, key) {
      DropMiddle(kept, c.order, n, application);
      assert Purged(c, application, n).order == kept + [key] + c.order[n + 1..];
    } else {
      assert kept + [key] + c.order[n + 1..] == kept + ([key] + c.order[n + 1..]);
    }
  }

  lemma {:induction false} WithoutAppends(a: seq<string>, b: seq<string>, drop: string -> bool)
    ensures Without(a + b, drop) == Without(a, drop) + Without(b, drop)
  {
    if a == [] {
      assert a + b == b;
    } else {
      assert (a + b)[1..] == a[1..] + b;
      WithoutAppends(a[1..], b, drop);
    }
  }

  lemma {:induction false} WithoutStep(keys: seq<string>, i: nat, application: string)
    requires i < |keys|
    ensures Without(keys[..i + 1], MarkedBy(application)) ==
            Without(keys[..i], MarkedBy(application)) + if Marked(application, keys[i]) then [] else [keys[i]]
  {
    assert keys[..i + 1] == keys[..i] + [keys[i]];
    WithoutAppends(keys[..i], [keys[i]], MarkedBy(application));
  }

  lemma {:induction false} DropMiddle(kept: seq<string>, keys: seq<string>, i: nat, application: string)
    requires i < |keys| && Distinct(keys) && kept == Without(keys[..i], MarkedBy(application))
    ensures Without(kept + [keys[i]] + keys[i + 1..], Is(keys[i])) == kept + keys[i + 1..]
  {
    WithoutFacts(keys[..i], MarkedBy(application));
    assert keys[i] !in keys[..i] && keys[i] !in keys[i + 1..];
    DropBetween(kept, keys[i], keys[i + 1..]);
  }

  lemma {:induction false} DropBetween(a: seq<string>, key: string, b: seq<string>)
    requires key !in a && key !in b
    ensures Without(a + [key] + b, Is(key)) == a + b
  {
    var drop := Is(key);
    NothingToDrop(a, key);
    NothingToDrop(b, key);
    WithoutAppends(a + [key], b, drop);
    WithoutAppends(a, [key], drop);
    assert drop(key) && [key][1..] == [];
    assert Without([key], drop) == [];
    assert Without(a + [key], drop) == a;
  }
}
