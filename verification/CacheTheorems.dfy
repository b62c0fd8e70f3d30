/** What every run of the cached retrieval pipeline keeps. */
module CacheTheorems {
  import opened Outcomes
  import opened StableSort
  import opened CacheKeys
  import opened RetrievalCache

  // Transparency.

  ghost predicate Fresh(c: Cache, b: Backend, r: Request) {
    Key(r) in c.entries ==> Uncached(b, r) == Answered(c.entries[Key(r)])
  }

  /** The requests that a guarantee covers: those with clean ids, of every scope or of the named ones only. */
  predicate Covered(r: Request, named: bool) {
    CleanIds(r) && (named ==> r.application != "")
  }

  /** Whatever is cached for covered requests is what the backend answers now, but for some applications. */
  ghost predicate CoherentBut(c: Cache, b: Backend, named: bool, pending: set<string>) {
    forall r: Request | Covered(r, named) && r.application !in pending :: Fresh(c, b, r)
  }

  ghost predicate Coherent(c: Cache, b: Backend, named: bool) {
    CoherentBut(c, b, named, {})
  }

  /** What indexing one application again may alter: the answers of requests that name it, and of requests that name
      none, which search over all applications. */
  ghost predicate Reindexes(before: Backend, after: Backend, application: string) {
    forall r: Request | r.application != application && r.application != "" :: Uncached(before, r) == Uncached(after, r)
  }

  /** The answers of requests that name no application stay as well. */
  ghost predicate LeavesUnnamed(before: Backend, after: Backend) {
    forall r: Request | r.application == "" :: Uncached(before, r) == Uncached(after, r)
  }

  /** A retrieval, an application's content being indexed again, or the invalidation that should follow. */
  datatype Operation =
    | Get(request: Request)
    | Reindex(application: string, backend: Backend)
    | Invalidate(application: string)

  /** A pipeline: its cache, what is behind it, and the applications indexed again since their last invalidation. */
  datatype Pipeline = Pipeline(cache: Cache, backend: Backend, pending: set<string>)

  function Step(p: Pipeline, cap: nat, op: Operation): Pipeline {
    match op
    case Get(request) => p.(cache := Retrieved(p.cache, cap, p.backend, request).0)
    case Reindex(application, backend) => p.(backend := backend, pending := p.pending + {application})
    case Invalidate(application) =>
      p.(cache := Invalidated(p.cache, application), pending := p.pending - {application})
  }

  /** The pipeline after a run. */
  function After(p: Pipeline, cap: nat, run: seq<Operation>): Pipeline
    decreases |run|
  {
    if run == [] then p else After(Step(p, cap, run[0]), cap, run[1..])
  }

  /** The answers of the cached pipeline. */
  function Cached(p: Pipeline, cap: nat, run: seq<Operation>): seq<Answer>
    decreases |run|
  {
    if run == [] then []
    else
      var rest := Cached(Step(p, cap, run[0]), cap, run[1..]);
      if run[0].Get? then [Retrieved(p.cache, cap, p.backend, run[0].request).1] + rest else rest
  }

  /** The answers of a pipeline without a cache. */
  function Plain(b: Backend, run: seq<Operation>): seq<Answer>
    decreases |run|
  {
    if run == [] then []
    else if run[0].Get? then [Uncached(b, run[0].request)] + Plain(b, run[1..])
    else Plain(if run[0].Reindex? then run[0].backend else b, run[1..])
  }

  /** Every request is covered, and every index change is one of its application; if requests may name none, a change
      leaves their answers. */
  ghost predicate Orderly(b: Backend, run: seq<Operation>, named: bool)
    decreases |run|
  {
    run == [] ||
    match run[0]
    case Get(request) => Covered(request, named) && Orderly(b, run[1..], named)
    case Reindex(application, backend) =>
      && Reindexes(b, backend, application)
      && (named || LeavesUnnamed(b, backend))
      && Orderly(backend, run[1..], named)
    case Invalidate(_) => Orderly(b, run[1..], named)
  }

  /** No request names an application between a change of its index and the invalidation that follows. */
  predicate Patient(pending: set<string>, run: seq<Operation>)
    decreases |run|
  {
    run == [] ||
    match run[0]
    case Get(request) => request.application !in pending && Patient(pending, run[1..])
    case Reindex(application, _) => Patient(pending + {application}, run[1..])
    case Invalidate(application) => Patient(pending - {application}, run[1..])
  }

  lemma {:induction false} RetrievalIsTransparent(c: Cache, cap: nat, b: Backend, r: Request, named: bool,
                                                  pending: set<string>)
    requires CoherentBut(c, b, named, pending) && Covered(r, named)
    ensures r.application !in pending ==> Retrieved(c, cap, b, r).1 == Uncached(b, r)
    ensures CoherentBut(Retrieved(c, cap, b, r).0, b, named, pending)
  {
    var after := Retrieved(c, cap, b, r).0;
    if r.application !in pending {
      assert Fresh(c, b, r);
    }
    forall q: Request | Covered(q, named) && q.application !in pending ensures Fresh(after, b, q) {
      assert Fresh(c, b, q);
      if Key(q) == Key(r) {
        KeysAreInjective(q, r);
      }
    }
  }

  lemma {:induction false} ReindexingSparesOthers(c: Cache, before: Backend, after: Backend, application: string,
                                                  named: bool, pending: set<string>)
    requires CoherentBut(c, before, named, pending) && Reindexes(before, after, application)
    requires named || LeavesUnnamed(before, after)
    ensures CoherentBut(c, after, named, pending + {application})
  {
    forall r: Request | Covered(r, named) && r.application !in pending + {application} ensures Fresh(c, after, r) {
      assert Fresh(c, before, r);
    }
  }

  /** An invalidation makes the cache right again for its application. */
  lemma {:induction false} InvalidationRestores(c: Cache, b: Backend, application: string, named: bool,
                                                pending: set<string>)
    requires CoherentBut(c, b, named, pending)
    ensures CoherentBut(Invalidated(c, application), b, named, pending - {application})
  {
    forall r: Request | Covered(r, named) && r.application !in pending - {application}
      ensures Fresh(Invalidated(c, application), b, r)
    {
      if r.application == application {
        OwnKeysAreMarked(r);
      } else {
        assert Fresh(c, b, r);
      }
    }
  }

  lemma {:induction false} StepKeepsCoherence(p: Pipeline, cap: nat, op: Operation, named: bool)
    requires CoherentBut(p.cache, p.backend, named, p.pending) && Orderly(p.backend, [op], named)
    ensures var next := Step(p, cap, op); CoherentBut(next.cache, next.backend, named, next.pending)
  {
    match op {
      case Get(request) => RetrievalIsTransparent(p.cache, cap, p.backend, request, named, p.pending);
      case Reindex(application, backend) =>
        ReindexingSparesOthers(p.cache, p.backend, backend, application, named, p.pending);
      case Invalidate(application) => InvalidationRestores(p.cache, p.backend, application, named, p.pending);
    }
  }

  lemma {:induction false} OrderlyStep(p: Pipeline, cap: nat, run: seq<Operation>, named: bool)
    requires run != [] && Orderly(p.backend, run, named)
    ensures Orderly(p.backend, [run[0]], named) && Orderly(Step(p, cap, run[0]).backend, run[1..], named)
  {
    assert [run[0]][1..] == [];
  }

  /** After every orderly run, the cache is right for all applications but those indexed again since their last
      invalidation. */
  lemma {:induction false} RunsKeepCoherence(p: Pipeline, cap: nat, run: seq<Operation>, named: bool)
    requires CoherentBut(p.cache, p.backend, named, p.pending) && Orderly(p.backend, run, named)
    ensures var now := After(p, cap, run); CoherentBut(now.cache, now.backend, named, now.pending)
    decreases |run|
  {
    if run != [] {
      OrderlyStep(p, cap, run, named);
      StepKeepsCoherence(p, cap, run[0], named);
      RunsKeepCoherence(Step(p, cap, run[0]), cap, run[1..], named);
    }
  }

  /** After every orderly run, an answer is stale only for a request that names an application indexed again since its
      last invalidation, and that hits an entry of another answer. */
  lemma {:induction false} StaleIffPendingHit(p: Pipeline, cap: nat, run: seq<Operation>, named: bool, r: Request)
    requires CoherentBut(p.cache, p.backend, named, p.pending) && Orderly(p.backend, run, named) && Covered(r, named)
    ensures var now := After(p, cap, run);
            Retrieved(now.cache, cap, now.backend, r).1 != Uncached(now.backend, r) <==>
              && r.application in now.pending && !IsBlank(r.query)
              && Key(r) in now.cache.entries && Answered(now.cache.entries[Key(r)]) != Computed(now.backend, r)
  {
    RunsKeepCoherence(p, cap, run, named);
    var now := After(p, cap, run);
    if r.application !in now.pending {
      RetrievalIsTransparent(now.cache, cap, now.backend, r, named, now.pending);
    }
  }

  lemma {:induction false} PatientRunIsTransparent(p: Pipeline, cap: nat, run: seq<Operation>, named: bool)
    requires CoherentBut(p.cache, p.backend, named, p.pending)
    requires Orderly(p.backend, run, named) && Patient(p.pending, run)
    ensures Cached(p, cap, run) == Plain(p.backend, run)
    decreases |run|
  {
    if run != [] {
      OrderlyStep(p, cap, run, named);
      StepKeepsCoherence(p, cap, run[0], named);
      if run[0].Get? {
        RetrievalIsTransparent(p.cache, cap, p.backend, run[0].request, named, p.pending);
      }
      PatientRunIsTransparent(Step(p, cap, run[0]), cap, run[1..], named);
    }
  }

  /** Every run of requests with clean ids that all name an application answers what the pipeline without a cache
      answers, over any number of applications indexed again, if no request names one of them before it has been
      invalidated. */
  lemma {:induction false} RunsAreTransparent(p: Pipeline, cap: nat, run: seq<Operation>)
    requires CoherentBut(p.cache, p.backend, true, p.pending)
    requires Orderly(p.backend, run, true) && Patient(p.pending, run)
    ensures Cached(p, cap, run) == Plain(p.backend, run)
  {
    PatientRunIsTransparent(p, cap, run, true);
  }

  /** So does every such run of requests with clean ids, named or not, while index changes leave the answers of requests
      that name no application, as in a fixed index they do. */
  lemma {:induction false} UnnamedRunsAreTransparent(p: Pipeline, cap: nat, run: seq<Operation>)
    requires CoherentBut(p.cache, p.backend, false, p.pending)
    requires Orderly(p.backend, run, false) && Patient(p.pending, run)
    ensures Cached(p, cap, run) == Plain(p.backend, run)
  {
    PatientRunIsTransparent(p, cap, run, false);
  }

  /** The cache after a run stays well-formed and within its cap, clean ids or not. */
  lemma {:induction false} RunsStayBounded(p: Pipeline, cap: nat, run: seq<Operation>)
    requires Bounded(p.cache, cap) && cap > 0
    ensures Bounded(After(p, cap, run).cache, cap)
    decreases |run|
  {
    if run != [] {
      match run[0] {
        case Get(request) => RetrievalKeepsValid(p.cache, cap, p.backend, request);
        case Reindex(_, _) =>
        case Invalidate(application) => InvalidationKeepsValid(p.cache, cap, application);
      }
      RunsStayBounded(Step(p, cap, run[0]), cap, run[1..]);
    }
  }

  // Invalidation.

  /** For clean requests an invalidation removes all and only the entries of its application. */
  lemma {:induction false} InvalidationIsExact(c: Cache, application: string, r: Request)
    requires Clean(r)
    ensures Key(r) in Invalidated(c, application).entries <==> Key(r) in c.entries && r.application != application
    ensures Key(r) in Invalidated(c, application).entries ==>
              Invalidated(c, application).entries[Key(r)] == c.entries[Key(r)]
  {
    MarkedIffOwn(r, application);
  }

  /** No request that names no application has an entry that an invalidation would keep. */
  ghost predicate NoneUnnamed(c: Cache, application: string) {
    forall r: Request | CleanIds(r) && r.application == "" :: Key(r) in c.entries ==> Marked(application, Key(r))
  }

  /** The same backend, except that one request finds something else. */
  function Altered(b: Backend, r: Request, found: Found): Backend {
    b.(search := (query, application, documents) =>
      if query == r.query && application == r.application && documents == r.documents then found
      else b.search(query, application, documents))
  }

  lemma {:induction false} AlteredElsewhere(b: Backend, r: Request, found: Found, q: Request)
    requires q != r
    ensures Uncached(Altered(b, r, found), q) == Uncached(b, q)
  {
  }

  /** What an entry answers, another index answers otherwise. */
  lemma {:induction false} EntryCanGoStale(c: Cache, b: Backend, r: Request) returns (after: Backend)
    requires Fresh(c, b, r) && Key(r) in c.entries
    ensures !Fresh(c, after, r)
    ensures forall q: Request | q != r :: Uncached(b, q) == Uncached(after, q)
  {
    var found := if c.entries[Key(r)] == [] then SearchFailed(0) else Hits([]);
    after := Altered(b, r, found);
    forall q: Request | q != r ensures Uncached(b, q) == Uncached(after, q) {
      AlteredElsewhere(b, r, found, q);
    }
    assert after.search(r.query, r.application, r.documents) == found;
    if found == Hits([]) {
      EmptyStaysEmpty(after, r);
    }
  }

  /** Any request that hits an entry can get a stale answer, if its application is indexed again before it is
      invalidated. */
  lemma {:induction false} PendingHitCanBeStale(c: Cache, cap: nat, b: Backend, r: Request) returns (after: Backend)
    requires Coherent(c, b, true) && Covered(r, true) && !IsBlank(r.query) && Key(r) in c.entries
    ensures Reindexes(b, after, r.application) && Retrieved(c, cap, after, r).1 != Uncached(after, r)
  {
    assert Fresh(c, b, r);
    after := EntryCanGoStale(c, b, r);
  }

  /** An unnamed request that is cached can have its answer emptied by indexing an application again. */
  lemma {:induction false} UnnamedCanChange(c: Cache, b: Backend, application: string, r: Request)
    returns (after: Backend)
    requires Coherent(c, b, false) && CleanIds(r) && r.application == ""
    requires Key(r) in c.entries && !Marked(application, Key(r))
    ensures Reindexes(b, after, application) && !Fresh(Invalidated(c, application), after, r)
  {
    assert Fresh(c, b, r);
    after := EntryCanGoStale(c, b, r);
  }

  lemma {:induction false} EmptyStaysEmpty(b: Backend, r: Request)
    requires b.search(r.query, r.application, r.documents) == Hits([])
    ensures Computed(b, r).Answered? ==> Computed(b, r).hits == []
  {
    if b.reranker.Some? && |b.reranker.value.scores(r.query, Chunks([]))| == 0 {
      SortPermutes(Zip(b.reranker.value.scores(r.query, Chunks([])), []), Better);
    }
  }

  /** Whatever indexing an application again alters, its invalidation leaves the cache right, exactly when the cache
      holds no answer of a request that names no application. */
  lemma {:induction false} InvalidationSufficesIff(c: Cache, b: Backend, application: string)
    requires Coherent(c, b, false)
    ensures (forall after | Reindexes(b, after, application) ::
             Coherent(Invalidated(c, application), after, false)) <==>
            NoneUnnamed(c, application)
  {
    if NoneUnnamed(c, application) {
      forall after | Reindexes(b, after, application) ensures Coherent(Invalidated(c, application), after, false) {
        forall r: Request | Covered(r, false) ensures Fresh(Invalidated(c, application), after, r) {
          assert Fresh(c, b, r);
          if r.application == application {
            OwnKeysAreMarked(r);
          }
        }
      }
    } else {
      var r: Request :| CleanIds(r) && r.application == "" && Key(r) in c.entries && !Marked(application, Key(r));
      var after := UnnamedCanChange(c, b, application, r);
      assert Covered(r, false);
    }
  }

  /** So a question asked over all applications keeps its old answer after one of them is indexed again. */
  lemma {:induction false} UnscopedAnswerGoesStale(c: Cache, cap: nat, before: Backend, after: Backend,
                                                   r: Request, application: string)
    requires Coherent(c, before, false) && Clean(r) && r.application == "" && application != ""
    requires Key(r) in c.entries && Uncached(after, r) != Uncached(before, r)
    ensures Retrieved(Invalidated(c, application), cap, after, r).1 == Uncached(before, r) != Uncached(after, r)
  {
    assert Fresh(c, before, r);
    InvalidationIsExact(c, application, r);
  }

  // Eviction.

  /** The keys of a run of uses, each once, from the least to the most recently used. */
  function Recency(uses: seq<string>): seq<string> {
    if uses == [] then []
    else
      var last := uses[|uses| - 1];
      Without(Recency(uses[..|uses| - 1]), Is(last)) + [last]
  }

  /** A pipeline with an empty cache after a run of retrievals. */
  function AfterGets(cap: nat, b: Backend, requests: seq<Request>): Cache {
    if requests == [] then Cache(map[], [])
    else Retrieved(AfterGets(cap, b, requests[..|requests| - 1]), cap, b, requests[|requests| - 1]).0
  }

  /** The keys of the retrievals that were answered. */
  function Uses(cap: nat, b: Backend, requests: seq<Request>): seq<string> {
    if requests == [] then []
    else
      var before, last := requests[..|requests| - 1], requests[|requests| - 1];
      Uses(cap, b, before) + if Retrieved(AfterGets(cap, b, before), cap, b, last).1.Answered? then [Key(last)] else []
  }

  lemma {:induction false} RecencyIsDistinct(uses: seq<string>)
    ensures Distinct(Recency(uses))
    ensures forall k :: k in Recency(uses) <==> k in uses
  {
    if uses != [] {
      var before, last := uses[..|uses| - 1], uses[|uses| - 1];
      RecencyIsDistinct(before);
      WithoutFacts(Recency(before), Is(last));
      AddedIsDistinct(Without(Recency(before), Is(last)), last);
      assert uses == before + [last];
    }
  }

  /** Items before enough recent ones do not matter. */
  lemma {:induction false} LastOfTail<T>(older: seq<T>, recent: seq<T>, x: T, n: nat)
    requires older == [] || |recent| + 1 >= n
    ensures Last(older + recent + [x], n) == Last(recent + [x], n)
  {
    assert older == [] ==> older + recent + [x] == recent + [x];
  }

  lemma {:induction false} RecentKeyIsUsed(older: seq<string>, recent: seq<string>, key: string, cap: nat)
    requires Distinct(older + recent) && key in recent && |recent| <= cap && (older == [] || |recent| == cap)
    ensures Last(Without(recent, Is(key)) + [key], cap) == Last(Without(older + recent, Is(key)) + [key], cap)
  {
    var i :| 0 <= i < |recent| && recent[i] == key;
    forall j | 0 <= j < |older| ensures older[j] != key {
      assert (older + recent)[j] == older[j] && (older + recent)[|older| + i] == key;
    }
    assert Distinct(recent) by {
      forall a, b | 0 <= a < b < |recent| ensures recent[a] != recent[b] {
        assert (older + recent)[|older| + a] == recent[a] && (older + recent)[|older| + b] == recent[b];
      }
    }
    WithoutAppends(older, recent, Is(key));
    NothingToDrop(older, key);
    OneLess(recent, key);
    LastOfTail(older, Without(recent, Is(key)), key, cap);
  }

  lemma {:induction false} OtherKeyIsUsed(older: seq<string>, recent: seq<string>, key: string, cap: nat)
    requires key !in recent && |recent| <= cap && (older == [] || |recent| == cap)
    ensures Last(Without(recent, Is(key)) + [key], cap) == Last(Without(older + recent, Is(key)) + [key], cap)
  {
    WithoutAppends(older, recent, Is(key));
    NothingToDrop(recent, key);
    LastOfTail(Without(older, Is(key)), recent, key, cap);
  }

  /** Using a key on the most recent keys gives the most recent keys of using it on all. */
  lemma {:induction false} UsedOnRecent(recency: seq<string>, key: string, cap: nat)
    requires Distinct(recency)
    ensures Used(Last(recency, cap), key, cap) == Last(Without(recency, Is(key)) + [key], cap)
  {
    var recent := Last(recency, cap);
    var older := recency[..|recency| - |recent|];
    assert recency == older + recent;
    if key in recent {
      RecentKeyIsUsed(older, recent, key, cap);
    } else {
      OtherKeyIsUsed(older, recent, key, cap);
    }
  }

  lemma {:induction false} UseKeepsRecent(c: Cache, cap: nat, b: Backend, r: Request, uses: seq<string>)
    requires c.order == Last(Recency(uses), cap)
    ensures var (after, answer) := Retrieved(c, cap, b, r);
            after.order == if answer.Answered? then Last(Recency(uses + [Key(r)]), cap) else c.order
  {
    RecencyIsDistinct(uses);
    UsedOnRecent(Recency(uses), Key(r), cap);
    assert (uses + [Key(r)])[..|uses|] == uses;
  }

  /** Eviction is by least recent use: after any run of retrievals the cache holds exactly the most recently
      answered keys, as many as the cap allows. */
  lemma {:induction false} EvictionIsLeastRecent(cap: nat, b: Backend, requests: seq<Request>)
    ensures AfterGets(cap, b, requests).order == Last(Recency(Uses(cap, b, requests)), cap)
  {
    if requests != [] {
      var before, last := requests[..|requests| - 1], requests[|requests| - 1];
      EvictionIsLeastRecent(cap, b, before);
      UseKeepsRecent(AfterGets(cap, b, before), cap, b, last, Uses(cap, b, before));
      assert Uses(cap, b, before) + [] == Uses(cap, b, before);
    }
  }
}
