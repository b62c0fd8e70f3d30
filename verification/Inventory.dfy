/** The paged read of a scope's chunks, which refuses rather than truncates. */
module Inventory {
  import opened Outcomes

  /** A stored chunk: the documents of its provenance and the application it belongs to. */
  datatype Record = Record(chunk: nat, documents: set<nat>, application: Option<nat>)

  datatype Read =
    | Complete(records: seq<Record>)
    | ScopeMissing
    | OutOfScope
    | InventoryLimit
    | DocumentMissing

  const PAGE: nat := 256

  function Min(a: nat, b: nat): nat {
    if a <= b then a else b
  }

  /** The store: what matches the filter in its order, and how many records it hands out when asked for some. A page of
      a store is never empty while records remain. */
  datatype Store = Store(matching: seq<Record>, page: (nat, nat) -> nat)

  ghost predicate Pages(store: Store) {
    forall offset, limit | limit > 0 :: 1 <= store.page(offset, limit) <= limit
  }

  function End(store: Store, offset: nat, limit: nat): nat
    requires offset <= |store.matching|
  {
    Min(offset + store.page(offset, limit), |store.matching|)
  }

  predicate InScope(r: Record, documents: seq<nat>, application: Option<nat>) {
    (forall d | d in r.documents :: d in documents) && (application.Some? ==> r.application == application)
  }

  predicate AllInScope(records: seq<Record>, documents: seq<nat>, application: Option<nat>) {
    forall i | 0 <= i < |records| :: InScope(records[i], documents, application)
  }

  function Present(records: seq<Record>): set<nat> {
    set r, d | r in records && d in r.documents :: d
  }

  /** What a read means, without pages. */
  function Scoped(matching: seq<Record>, documents: seq<nat>, application: Option<nat>, maxChunks: nat): Read {
    if documents == [] then ScopeMissing
    else if !AllInScope(matching[..Min(maxChunks + 1, |matching|)], documents, application) then OutOfScope
    else if |matching| > maxChunks then InventoryLimit
    else if Present(matching) != Elements(documents) then DocumentMissing
    else Complete(matching)
  }

  lemma {:induction false} ViolationShows(matching: seq<Record>, upTo: nat, i: nat, documents: seq<nat>,
                                          application: Option<nat>)
    requires i < upTo <= |matching| && !InScope(matching[i], documents, application)
    ensures !AllInScope(matching[..upTo], documents, application)
  {
    assert matching[..upTo][i] == matching[i];
  }

  /** scoped_chunks: the number asked for is at least one every time, and the result does not depend on how the store
      cuts its pages. */
  method ScopedChunks(store: Store, documents: seq<nat>, application: Option<nat>, maxChunks: nat) returns (r: Read)
    requires Pages(store)
    ensures r == Scoped(store.matching, documents, application, maxChunks)
  {
    if documents == [] {
      return ScopeMissing;
    }
    var all := store.matching;
    var chunks: seq<Record> := [];
    var offset: Option<nat> := Some(0);
    while offset.Some?
      invariant |chunks| <= |all| && chunks == all[..|chunks|]
      invariant |chunks| <= maxChunks
      invariant AllInScope(chunks, documents, application)
      invariant if offset.Some? then offset.value == |chunks| else |chunks| == |all|
      decreases if offset.Some? then |all| - |chunks| + 1 else 0
    {
      var limit := Min(PAGE, maxChunks + 1 - |chunks|);
      assert limit > 0;
      var start := |chunks|;
      var end := End(store, start, limit);
      for i := start to end
        invariant chunks == all[..i]
        invariant AllInScope(chunks, documents, application)
      {
        if !InScope(all[i], documents, application) {
          ViolationShows(all, Min(maxChunks + 1, |all|), i, documents, application);
          return OutOfScope;
        }
        chunks := chunks + [all[i]];
      }
      offset := if end < |all| then Some(end) else None;
      if |chunks| > maxChunks {
        assert chunks == all[..maxChunks + 1];
        return InventoryLimit;
      }
    }
    assert chunks == all;
    assert all[..Min(maxChunks + 1, |all|)] == all;
    if Present(chunks) != Elements(documents) {
      return DocumentMissing;
    }
    return Complete(chunks);
  }

  /** A read succeeds only with the whole inventory, and exactly when it fits, is in scope, and every document asked for
      has a chunk. */
  lemma {:induction false} NothingIsTruncated(matching: seq<Record>, documents: seq<nat>, application: Option<nat>,
                                              maxChunks: nat)
    ensures var read := Scoped(matching, documents, application, maxChunks);
            && (read.Complete? ==> read.records == matching)
            && (read.Complete? <==>
                  && documents != [] && |matching| <= maxChunks && AllInScope(matching, documents, application)
                  && forall d | d in documents :: d in Present(matching))
  {
    if |matching| <= maxChunks {
      assert matching[..Min(maxChunks + 1, |matching|)] == matching;
    }
    if AllInScope(matching, documents, application) {
      forall d | d in Present(matching) ensures d in documents {
        var r :| r in matching && d in r.documents;
        var i :| 0 <= i < |matching| && matching[i] == r;
        assert InScope(matching[i], documents, application);
      }
    }
  }
}
