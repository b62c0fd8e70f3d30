/** Greedy one-to-one matching over an arbitrary relation between row and column indices. */
module GreedyMatching {
  import opened Outcomes

  /** Which row may be matched with which column. */
  type Relation = (nat, nat) -> bool

  /** A matching: rows to columns. */
  type Matching = map<nat, nat>

  /** The first column at or after an index that is free and related to the row. */
  function FirstFree(rel: Relation, row: nat, columns: nat, taken: set<nat>, from: nat): (r: Option<nat>)
    ensures r.Some? ==> from <= r.value < columns && r.value !in taken && rel(row, r.value)
    decreases columns - from
  {
    if from >= columns then None
    else if from !in taken && rel(row, from) then Some(from)
    else FirstFree(rel, row, columns, taken, from + 1)
  }

  lemma {:induction false} NoneIsFree(rel: Relation, row: nat, columns: nat, taken: set<nat>, from: nat, j: nat)
    requires FirstFree(rel, row, columns, taken, from).None? && from <= j < columns
    ensures j in taken || !rel(row, j)
    decreases columns - from
  {
    if j > from {
      NoneIsFree(rel, row, columns, taken, from + 1, j);
    }
  }

  function Image(m: Matching): set<nat> {
    set i | i in m :: m[i]
  }

  /** The matching after the first n rows. */
  function Greedy(rel: Relation, n: nat, columns: nat): (m: Matching)
    ensures forall i | i in m :: i < n
  {
    if n == 0 then map[]
    else
      var before := Greedy(rel, n - 1, columns);
      match FirstFree(rel, n - 1, columns, Image(before), 0)
      case None => before
      case Some(j) => before[n - 1 := j]
  }

  lemma {:induction false} ImageGrows(m: Matching, i: nat, j: nat)
    requires i !in m
    ensures Image(m[i := j]) == Image(m) + {j}
    ensures |m[i := j]| == |m| + 1
  {
    var grown := m[i := j];
    assert grown.Keys == m.Keys + {i};
    forall x | x in Image(m) + {j} ensures x in Image(grown) {
      if x == j {
        assert grown[i] == j;
      } else {
        var k :| k in m && m[k] == x;
        assert grown[k] == x;
      }
    }
  }

  ghost predicate IsMatching(rel: Relation, m: Matching, rows: nat, columns: nat) {
    && (forall i | i in m :: i < rows && m[i] < columns && rel(i, m[i]))
    && (forall i, k | i in m && k in m && i != k :: m[i] != m[k])
  }

  /** Nothing related was left over on both sides. */
  ghost predicate IsMaximal(rel: Relation, m: Matching, rows: nat, columns: nat) {
    forall i, j | 0 <= i < rows && 0 <= j < columns && rel(i, j) :: i in m || j in Image(m)
  }

  lemma {:induction false} GreedyIsMatching(rel: Relation, n: nat, columns: nat)
    ensures IsMatching(rel, Greedy(rel, n, columns), n, columns)
  {
    if n > 0 {
      GreedyIsMatching(rel, n - 1, columns);
      var before := Greedy(rel, n - 1, columns);
      assert forall i | i in before :: before[i] in Image(before);
    }
  }

  lemma {:induction false} GreedyKeepsRows(rel: Relation, n: nat, columns: nat)
    requires n > 0
    ensures var before, after := Greedy(rel, n - 1, columns), Greedy(rel, n, columns);
            && (forall i | i in before :: i in after)
            && Image(before) <= Image(after)
            && (forall j | 0 <= j < columns && rel(n - 1, j) :: n - 1 in after || j in Image(after))
  {
    var before := Greedy(rel, n - 1, columns);
    var free := FirstFree(rel, n - 1, columns, Image(before), 0);
    if free.Some? {
      ImageGrows(before, n - 1, free.value);
    } else {
      forall j | 0 <= j < columns && rel(n - 1, j) ensures j in Image(before) {
        NoneIsFree(rel, n - 1, columns, Image(before), 0, j);
      }
    }
  }

  /** Greedy matching never uses a row or column twice and leaves no pair that could still be matched. */
  lemma {:induction false} GreedyIsMaximal(rel: Relation, n: nat, columns: nat)
    ensures IsMatching(rel, Greedy(rel, n, columns), n, columns)
    ensures IsMaximal(rel, Greedy(rel, n, columns), n, columns)
  {
    GreedyIsMatching(rel, n, columns);
    if n > 0 {
      GreedyIsMaximal(rel, n - 1, columns);
      GreedyKeepsRows(rel, n, columns);
    }
  }

  // ----- at least half of any matching -----

  /** A map that is injective on some keys sends them to at least as many values. */
  lemma {:induction false} InjectiveImage(m: Matching, keys: set<nat>, values: set<nat>)
    requires keys <= m.Keys && forall i | i in keys :: m[i] in values
    requires forall i, k | i in keys && k in keys && i != k :: m[i] != m[k]
    ensures |keys| <= |values|
  {
    if keys != {} {
      var i :| i in keys;
      InjectiveImage(m, keys - {i}, values - {m[i]});
    }
  }

  lemma {:induction false} ImageIsSmall(m: Matching, keys: set<nat>)
    requires keys <= m.Keys
    ensures |set i | i in keys :: m[i]| <= |keys|
  {
    if keys == {} {
      assert (set i | i in keys :: m[i]) == {};
    } else {
      var i :| i in keys;
      ImageIsSmall(m, keys - {i});
      assert (set k | k in keys :: m[k]) == (set k | k in keys - {i} :: m[k]) + {m[i]};
    }
  }

  lemma {:induction false} SubsetIsSmaller(a: set<nat>, b: set<nat>)
    requires a <= b
    ensures |a| <= |b|
  {
    assert b == a + (b - a);
  }

  /** A maximal matching has at least half the size of any matching: each pair of the other shares a row
      or a column with it. */
  lemma {:induction false} MaximalIsHalfOptimal(rel: Relation, m: Matching, other: Matching, rows: nat, columns: nat)
    requires IsMaximal(rel, m, rows, columns) && IsMatching(rel, other, rows, columns)
    ensures |other| <= 2 * |m|
  {
    var shared, rest := other.Keys * m.Keys, other.Keys - m.Keys;
    assert other.Keys == shared + rest;
    SubsetIsSmaller(shared, m.Keys);
    forall i | i in rest ensures other[i] in Image(m) {
      assert rel(i, other[i]);
    }
    InjectiveImage(other, rest, Image(m));
    ImageIsSmall(m, m.Keys);
    assert Image(m) == set i | i in m.Keys :: m[i];
  }

  /** Greedy matching finds at least half of what any one-to-one matching finds. */
  lemma {:induction false} GreedyIsHalfOptimal(rel: Relation, rows: nat, columns: nat, other: Matching)
    requires IsMatching(rel, other, rows, columns)
    ensures |other| <= 2 * |Greedy(rel, rows, columns)|
  {
    GreedyIsMaximal(rel, rows, columns);
    MaximalIsHalfOptimal(rel, Greedy(rel, rows, columns), other, rows, columns);
  }

  lemma {:induction false} Below(s: set<nat>, n: nat)
    requires forall x | x in s :: x < n
    ensures |s| <= n
  {
    if n > 0 {
      Below(s - {n - 1}, n - 1);
    } else {
      assert s == {};
    }
  }

  lemma {:induction false} GreedyIsSmall(rel: Relation, rows: nat, columns: nat)
    ensures |Greedy(rel, rows, columns)| <= rows && |Greedy(rel, rows, columns)| <= columns
  {
    var m := Greedy(rel, rows, columns);
    GreedyIsMaximal(rel, rows, columns);
    Below(m.Keys, rows);
    assert forall i | i in m :: m[i] in Image(m);
    InjectiveImage(m, m.Keys, Image(m));
    Below(Image(m), columns);
  }

  // ----- optimal when rows and columns match by a label -----

  /** The labels of the first n columns that are not taken. */
  function Free<L>(labels: seq<L>, taken: set<nat>, n: nat): multiset<L>
    requires n <= |labels|
  {
    if n == 0 then multiset{}
    else Free(labels, taken, n - 1) + if n - 1 in taken then multiset{} else multiset{labels[n - 1]}
  }

  lemma {:induction false} Prefix<L>(s: seq<L>, n: nat)
    requires 0 < n <= |s|
    ensures multiset(s[..n]) == multiset(s[..n - 1]) + multiset{s[n - 1]}
  {
    assert s[..n] == s[..n - 1] + [s[n - 1]];
  }

  lemma {:induction false} FreeOfNone<L>(labels: seq<L>, n: nat)
    requires n <= |labels|
    ensures Free(labels, {}, n) == multiset(labels[..n])
  {
    if n > 0 {
      FreeOfNone(labels, n - 1);
      Prefix(labels, n);
      assert Free(labels, {}, n) == Free(labels, {}, n - 1) + multiset{labels[n - 1]};
    }
  }

  lemma {:induction false} FreeBeyond<L>(labels: seq<L>, taken: set<nat>, j: nat, n: nat)
    requires n <= |labels| && n <= j
    ensures Free(labels, taken + {j}, n) == Free(labels, taken, n)
  {
    if n > 0 {
      FreeBeyond(labels, taken, j, n - 1);
      assert n - 1 in taken + {j} <==> n - 1 in taken;
    }
  }

  lemma {:induction false} FreeTakes<L>(labels: seq<L>, taken: set<nat>, j: nat, n: nat)
    requires n <= |labels| && j !in taken && j < n
    ensures Free(labels, taken, n) == Free(labels, taken + {j}, n) + multiset{labels[j]}
  {
    if n - 1 == j {
      FreeBeyond(labels, taken, j, n - 1);
    } else {
      FreeTakes(labels, taken, j, n - 1);
    }
  }

  lemma {:induction false} FreeHas<L>(labels: seq<L>, taken: set<nat>, l: L, n: nat)
    requires n <= |labels|
    ensures l in Free(labels, taken, n) <==> exists j :: 0 <= j < n && j !in taken && labels[j] == l
  {
    if n > 0 {
      FreeHas(labels, taken, l, n - 1);
    }
  }

  ghost predicate ByLabel<L>(rel: Relation, rows: seq<L>, columns: seq<L>) {
    forall i, j | 0 <= i < |rows| && 0 <= j < |columns| :: rel(i, j) <==> rows[i] == columns[j]
  }

  lemma {:induction false} TakeFromDifference<L>(e: multiset<L>, p: multiset<L>, l: L, rest: multiset<L>)
    requires e - p == rest + multiset{l}
    ensures e - (p + multiset{l}) == rest
  {
    forall x ensures (e - (p + multiset{l}))[x] == rest[x] {
      assert (e - p)[x] == (rest + multiset{l})[x];
    }
  }

  lemma {:induction false} NothingToTake<L>(e: multiset<L>, p: multiset<L>, l: L)
    requires l !in e - p
    ensures e - (p + multiset{l}) == e - p
  {
    forall x ensures (e - (p + multiset{l}))[x] == (e - p)[x] {
      assert (e - p)[l] == 0;
    }
  }

  lemma {:induction false} NoLabelFree<L>(rel: Relation, rows: seq<L>, columns: seq<L>, row: nat, taken: set<nat>)
    requires ByLabel(rel, rows, columns) && row < |rows|
    requires FirstFree(rel, row, |columns|, taken, 0).None?
    ensures rows[row] !in Free(columns, taken, |columns|)
  {
    FreeHas(columns, taken, rows[row], |columns|);
    forall j | 0 <= j < |columns| && j !in taken ensures columns[j] != rows[row] {
      NoneIsFree(rel, row, |columns|, taken, 0, j);
    }
  }

  /** Some taken columns, count many, leave over the column labels less the labels of the first n rows. */
  ghost predicate LeavesDifference<L>(taken: set<nat>, count: nat, rows: seq<L>, columns: seq<L>, n: nat)
    requires n <= |rows|
  {
    && Free(columns, taken, |columns|) == multiset(columns) - multiset(rows[..n])
    && |Free(columns, taken, |columns|)| == |columns| - count
  }

  lemma {:induction false} TakingLeavesDifference<L>(taken: set<nat>, count: nat, rows: seq<L>, columns: seq<L>, n: nat,
                                                     j: nat)
    requires 0 < n <= |rows| && LeavesDifference(taken, count, rows, columns, n - 1)
    requires j < |columns| && j !in taken && columns[j] == rows[n - 1]
    ensures LeavesDifference(taken + {j}, count + 1, rows, columns, n)
  {
    Prefix(rows, n);
    FreeTakes(columns, taken, j, |columns|);
    TakeFromDifference(multiset(columns), multiset(rows[..n - 1]), rows[n - 1], Free(columns, taken + {j}, |columns|));
  }

  lemma {:induction false} PassingLeavesDifference<L>(taken: set<nat>, count: nat, rows: seq<L>, columns: seq<L>,
                                                      n: nat)
    requires 0 < n <= |rows| && LeavesDifference(taken, count, rows, columns, n - 1)
    requires rows[n - 1] !in Free(columns, taken, |columns|)
    ensures LeavesDifference(taken, count, rows, columns, n)
  {
    Prefix(rows, n);
    NothingToTake(multiset(columns), multiset(rows[..n - 1]), rows[n - 1]);
  }

  /** One more row, as greedy matching treats it. */
  lemma {:induction false} StepLeavesDifference<L>(rel: Relation, rows: seq<L>, columns: seq<L>, n: nat,
                                                   before: Matching, after: Matching)
    requires ByLabel(rel, rows, columns) && 0 < n <= |rows| && n - 1 !in before
    requires LeavesDifference(Image(before), |before|, rows, columns, n - 1)
    requires var free := FirstFree(rel, n - 1, |columns|, Image(before), 0);
             after == if free.None? then before else before[n - 1 := free.value]
    ensures LeavesDifference(Image(after), |after|, rows, columns, n)
  {
    var free := FirstFree(rel, n - 1, |columns|, Image(before), 0);
    if free.Some? {
      ImageGrows(before, n - 1, free.value);
      TakingLeavesDifference(Image(before), |before|, rows, columns, n, free.value);
    } else {
      NoLabelFree(rel, rows, columns, n - 1, Image(before));
      PassingLeavesDifference(Image(before), |before|, rows, columns, n);
    }
  }

  lemma {:induction false} GreedyUnfolds(rel: Relation, n: nat, columns: nat)
    requires n > 0
    ensures var before := Greedy(rel, n - 1, columns);
            var free := FirstFree(rel, n - 1, columns, Image(before), 0);
            n - 1 !in before && Greedy(rel, n, columns) == if free.None? then before else before[n - 1 := free.value]
  {
  }

  /** What greedy matching leaves over is the column labels less the row labels. */
  lemma {:induction false} GreedyLeavesDifference<L>(rel: Relation, rows: seq<L>, columns: seq<L>, n: nat)
    requires ByLabel(rel, rows, columns) && n <= |rows|
    ensures LeavesDifference(Image(Greedy(rel, n, |columns|)), |Greedy(rel, n, |columns|)|, rows, columns, n)
  {
    if n == 0 {
      FreeOfNone(columns, |columns|);
      assert columns[..|columns|] == columns && Image(map[]) == {};
    } else {
      GreedyLeavesDifference(rel, rows, columns, n - 1);
      GreedyUnfolds(rel, n, |columns|);
      StepLeavesDifference(rel, rows, columns, n, Greedy(rel, n - 1, |columns|), Greedy(rel, n, |columns|));
    }
  }

  /** The part of a matching that uses the first n rows. */
  function Upto(m: Matching, n: nat): Matching {
    map i | i in m && i < n :: m[i]
  }

  lemma {:induction false} LessTaken<L>(e: multiset<L>, p: multiset<L>, l: L, free: multiset<L>, rest: multiset<L>)
    requires e - p <= free && free == rest + multiset{l}
    ensures e - (p + multiset{l}) <= rest
  {
    forall x ensures (e - (p + multiset{l}))[x] <= rest[x] {
      assert (e - p)[x] <= free[x] && free[x] == (rest + multiset{l})[x];
    }
  }

  lemma {:induction false} LessUntaken<L>(e: multiset<L>, p: multiset<L>, l: L, free: multiset<L>)
    requires e - p <= free
    ensures e - (p + multiset{l}) <= free
  {
    forall x ensures (e - (p + multiset{l}))[x] <= free[x] {
      assert (e - p)[x] <= free[x];
    }
  }

  lemma {:induction false} UptoGrows(m: Matching, n: nat)
    requires n > 0
    ensures n - 1 in m ==> Upto(m, n) == Upto(m, n - 1)[n - 1 := m[n - 1]]
    ensures n - 1 !in m ==> Upto(m, n) == Upto(m, n - 1)
  {
  }

  /** No matching leaves less over. */
  lemma {:induction false} MatchingLeavesDifference<L>(rel: Relation, m: Matching, rows: seq<L>, columns: seq<L>,
                                                       n: nat)
    requires ByLabel(rel, rows, columns) && IsMatching(rel, m, |rows|, |columns|) && n <= |rows|
    ensures multiset(columns) - multiset(rows[..n]) <= Free(columns, Image(Upto(m, n)), |columns|)
    ensures |Free(columns, Image(Upto(m, n)), |columns|)| == |columns| - |Upto(m, n)|
  {
    if n == 0 {
      FreeOfNone(columns, |columns|);
      assert columns[..|columns|] == columns;
      assert Upto(m, 0) == map[] && Image(map[]) == {};
    } else {
      MatchingLeavesDifference(rel, m, rows, columns, n - 1);
      UptoGrows(m, n);
      Prefix(rows, n);
      var before, l := Upto(m, n - 1), rows[n - 1];
      var free := Free(columns, Image(before), |columns|);
      if n - 1 in m {
        assert rel(n - 1, m[n - 1]);
        ImageGrows(before, n - 1, m[n - 1]);
        assert m[n - 1] !in Image(before);
        FreeTakes(columns, Image(before), m[n - 1], |columns|);
        LessTaken(multiset(columns), multiset(rows[..n - 1]), l, free,
                  Free(columns, Image(before) + {m[n - 1]}, |columns|));
      } else {
        LessUntaken(multiset(columns), multiset(rows[..n - 1]), l, free);
      }
    }
  }

  lemma {:induction false} SubMultisetIsSmaller<L>(a: multiset<L>, b: multiset<L>)
    requires a <= b
    ensures |a| <= |b|
  {
    assert b == a + (b - a);
  }

  /** Matched by labels, greedy matching is optimal, and its size is that of the multiset intersection. */
  lemma {:induction false} GreedyIsOptimalByLabel<L>(rel: Relation, rows: seq<L>, columns: seq<L>, other: Matching)
    requires ByLabel(rel, rows, columns)
    ensures |Greedy(rel, |rows|, |columns|)| == |multiset(rows) * multiset(columns)|
    ensures IsMatching(rel, other, |rows|, |columns|) ==> |other| <= |Greedy(rel, |rows|, |columns|)|
  {
    var P, E := multiset(rows), multiset(columns);
    assert rows[..|rows|] == rows;
    GreedyLeavesDifference(rel, rows, columns, |rows|);
    assert E == (E - P) + (P * E);
    if IsMatching(rel, other, |rows|, |columns|) {
      MatchingLeavesDifference(rel, other, rows, columns, |rows|);
      assert Upto(other, |rows|) == other;
      SubMultisetIsSmaller(E - P, Free(columns, Image(other), |columns|));
    }
  }
}
