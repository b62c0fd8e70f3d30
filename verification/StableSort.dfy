/** Stable sorting by a strict order, as Python's sorted(): equal items keep their order. */
module StableSort {

  ghost predicate IsStrictWeakOrder<T(!new)>(less: (T, T) -> bool) {
    && (forall a :: !less(a, a))
    && (forall a, b, c :: less(a, b) && less(b, c) ==> less(a, c))
    && (forall a, b, c :: less(a, c) ==> less(a, b) || less(b, c))
  }

  function Insert<T>(x: T, sorted: seq<T>, less: (T, T) -> bool): seq<T> {
    if sorted == [] || !less(sorted[0], x) then [x] + sorted
    else [sorted[0]] + Insert(x, sorted[1..], less)
  }

  function Sort<T>(items: seq<T>, less: (T, T) -> bool): seq<T> {
    if items == [] then [] else Insert(items[0], Sort(items[1..], less), less)
  }

  ghost predicate InOrder<T>(items: seq<T>, less: (T, T) -> bool) {
    forall i, j | 0 <= i < j < |items| :: !less(items[j], items[i])
  }

  lemma {:induction false} InsertPermutes<T>(x: T, sorted: seq<T>, less: (T, T) -> bool)
    ensures multiset(Insert(x, sorted, less)) == multiset{x} + multiset(sorted)
  {
    if sorted != [] {
      assert sorted == [sorted[0]] + sorted[1..];
      if less(sorted[0], x) {
        InsertPermutes(x, sorted[1..], less);
      }
    }
  }

  lemma {:induction false} SortPermutes<T>(items: seq<T>, less: (T, T) -> bool)
    ensures multiset(Sort(items, less)) == multiset(items)
    ensures |Sort(items, less)| == |items|
  {
    if items != [] {
      assert items == [items[0]] + items[1..];
      SortPermutes(items[1..], less);
      InsertPermutes(items[0], Sort(items[1..], less), less);
    }
    assert |multiset(Sort(items, less))| == |Sort(items, less)|;
    assert |multiset(items)| == |items|;
  }

  lemma {:induction false} InsertKeepsOrder<T(!new)>(x: T, sorted: seq<T>, less: (T, T) -> bool)
    requires IsStrictWeakOrder(less) && InOrder(sorted, less)
    ensures InOrder(Insert(x, sorted, less), less)
  {
    if sorted != [] {
      var rest := sorted[1..];
      if less(sorted[0], x) {
        InsertKeepsOrder(x, rest, less);
        InsertPermutes(x, rest, less);
        var tail := Insert(x, rest, less);
        forall j | 0 <= j < |tail| ensures !less(tail[j], sorted[0]) {
          assert tail[j] in multiset(tail);
          if tail[j] != x {
            assert tail[j] in rest;
          }
        }
      } else {
        forall j | 0 <= j < |sorted| ensures !less(sorted[j], x) {
          assert j > 0 ==> !less(sorted[j], sorted[0]);
        }
      }
    }
  }

  /** The result is in order. */
  lemma {:induction false} SortOrders<T(!new)>(items: seq<T>, less: (T, T) -> bool)
    requires IsStrictWeakOrder(less)
    ensures InOrder(Sort(items, less), less)
  {
    if items != [] {
      SortOrders(items[1..], less);
      InsertKeepsOrder(items[0], Sort(items[1..], less), less);
    }
  }

  /** A list that is already in order is left alone. */
  lemma {:induction false} SortedStays<T>(items: seq<T>, less: (T, T) -> bool)
    requires InOrder(items, less)
    ensures Sort(items, less) == items
  {
    if items != [] {
      SortedStays(items[1..], less);
      assert |items| > 1 ==> !less(items[1], items[0]);
      assert items == [items[0]] + items[1..];
    }
  }

  ghost predicate Distinct<T(!new)>(items: seq<T>) {
    forall i, j | 0 <= i < j < |items| :: items[i] != items[j]
  }

  lemma {:induction false} RepeatsAreCounted<T>(items: seq<T>, i: nat, j: nat)
    requires i < j < |items| && items[i] == items[j]
    ensures multiset(items)[items[i]] >= 2
  {
    var x := items[i];
    assert items == items[..i] + [x] + items[i + 1..j] + [x] + items[j + 1..];
  }

  /** A permutation of distinct items has distinct items. */
  lemma {:induction false} PermutedDistinct<T(!new)>(items: seq<T>, permuted: seq<T>)
    requires Distinct(items) && multiset(items) == multiset(permuted)
    ensures Distinct(permuted)
  {
    forall x | x in items ensures multiset(items)[x] == 1 {
      var i :| 0 <= i < |items| && items[i] == x;
      assert items == items[..i] + [x] + items[i + 1..];
      assert x !in items[..i] && x !in items[i + 1..];
    }
    forall i, j | 0 <= i < j < |permuted| ensures permuted[i] != permuted[j] {
      assert permuted[i] in multiset(permuted);
      assert permuted[i] in items;
      if permuted[i] == permuted[j] {
        RepeatsAreCounted(permuted, i, j);
      }
    }
  }
}
