/** The keys of the retrieval cache: three texts joined by separators, and when they can be told apart. */
module CacheKeys {
  import Text = TextSplitter

  /** What a caller asks for; no application means the empty one. */
  datatype Request = Request(query: string, application: string, documents: seq<string>)

  const NUL: char := '\0'
  const BAR: char := '|'

  function Join(ids: seq<string>): string {
    if ids == [] then ""
    else if |ids| == 1 then ids[0]
    else ids[0] + [BAR] + Join(ids[1..])
  }

  function Key(r: Request): string {
    r.query + [NUL] + (r.application + [NUL] + Join(r.documents))
  }

  function Marker(application: string): string {
    [NUL] + application + [NUL]
  }

  /** Substring containment. */
  predicate Contains(text: string, part: string) {
    exists i | 0 <= i <= |text| - |part| :: Text.Matches(text, part, i)
  }

  /** Identifiers without separators; document ids are not empty. The query is left free. */
  predicate CleanIds(r: Request) {
    NUL !in r.application && forall d | d in r.documents :: d != "" && NUL !in d && BAR !in d
  }

  predicate Clean(r: Request) {
    CleanIds(r) && NUL !in r.query
  }

  lemma {:induction false} Around(x: string, sep: char, u: string, i: nat)
    requires i < |x| + 1 + |u|
    ensures (x + [sep] + u)[i] == if i < |x| then x[i] else if i == |x| then sep else u[i - |x| - 1]
  {
  }

  lemma {:induction false} SameLength(x: string, u: string, y: string, v: string, sep: char)
    requires x + [sep] + u == y + [sep] + v && |x| == |y|
    ensures x == y && u == v
  {
    var whole := x + [sep] + u;
    assert x == whole[..|x|] && u == whole[|x| + 1..];
    assert whole == y + [sep] + v;
    assert y == whole[..|x|] && v == whole[|x| + 1..];
  }

  lemma {:induction false} SplitAtLast(x: string, u: string, y: string, v: string, sep: char)
    requires x + [sep] + u == y + [sep] + v && sep !in u && sep !in v
    ensures x == y && u == v
  {
    Around(x, sep, u, |x|);
    Around(y, sep, v, |y|);
    assert |x + [sep] + u| == |x| + 1 + |u| && |y + [sep] + v| == |y| + 1 + |v|;
    Around(x, sep, u, |y|);
    Around(y, sep, v, |x|);
    SameLength(x, u, y, v, sep);
  }

  lemma {:induction false} SplitAtFirst(x: string, u: string, y: string, v: string, sep: char)
    requires x + [sep] + u == y + [sep] + v && sep !in x && sep !in y
    ensures x == y && u == v
  {
    Around(x, sep, u, |x|);
    Around(y, sep, v, |y|);
    assert |x + [sep] + u| == |x| + 1 + |u| && |y + [sep] + v| == |y| + 1 + |v|;
    Around(x, sep, u, |y|);
    Around(y, sep, v, |x|);
    SameLength(x, u, y, v, sep);
  }

  lemma {:induction false} JoinHasNoNul(ids: seq<string>)
    requires forall d | d in ids :: NUL !in d
    ensures NUL !in Join(ids)
  {
    if |ids| > 1 {
      JoinHasNoNul(ids[1..]);
    }
  }

  predicate Separable(ids: seq<string>) {
    forall d | d in ids :: d != "" && BAR !in d
  }

  lemma {:induction false} JoinIsNotEmpty(ids: seq<string>)
    requires Separable(ids)
    ensures Join(ids) == "" <==> ids == []
    ensures BAR in Join(ids) <==> |ids| > 1
  {
    if ids != [] {
      assert ids[0] in ids;
      assert |ids| > 1 ==> (ids[0] + [BAR] + Join(ids[1..]))[|ids[0]|] == BAR;
    }
  }

  /** Joined ids can be told apart when none is empty and none holds the bar. */
  lemma {:induction false} JoinIsInjective(a: seq<string>, b: seq<string>)
    requires Separable(a) && Separable(b) && Join(a) == Join(b)
    ensures a == b
  {
    JoinIsNotEmpty(a);
    JoinIsNotEmpty(b);
    if |a| > 1 {
      assert a[0] in a && b[0] in b;
      assert forall d | d in a[1..] :: d in a;
      assert forall d | d in b[1..] :: d in b;
      SplitAtFirst(a[0], Join(a[1..]), b[0], Join(b[1..]), BAR);
      JoinIsInjective(a[1..], b[1..]);
      assert a == [a[0]] + a[1..] && b == [b[0]] + b[1..];
    }
  }

  /** Different requests have different keys, whatever their queries, when their ids are clean. */
  lemma {:induction false} KeysAreInjective(a: Request, b: Request)
    requires CleanIds(a) && CleanIds(b) && Key(a) == Key(b)
    ensures a == b
  {
    JoinHasNoNul(a.documents);
    JoinHasNoNul(b.documents);
    Regroup(a);
    Regroup(b);
    SplitAtLast(a.query + [NUL] + a.application, Join(a.documents), b.query + [NUL] + b.application, Join(b.documents),
                NUL);
    SplitAtLast(a.query, a.application, b.query, b.application, NUL);
    JoinIsInjective(a.documents, b.documents);
  }

  lemma {:induction false} Regroup(r: Request)
    ensures Key(r) == (r.query + [NUL] + r.application) + [NUL] + Join(r.documents)
  {
  }

  /** A text with a separator in it, cut at one. */
  lemma {:induction false} CutAtSeparator(text: string, sep: char) returns (u: string, v: string)
    requires sep in text
    ensures text == u + [sep] + v
  {
    var i :| 0 <= i < |text| && text[i] == sep;
    u, v := text[..i], text[i + 1..];
  }

  lemma {:induction false} SeparatorIsJoined(ids: seq<string>, d: string, sep: char)
    requires d in ids && sep in d
    ensures sep in Join(ids)
  {
    if |ids| > 1 && d != ids[0] {
      assert d in ids[1..];
      SeparatorIsJoined(ids[1..], d, sep);
      var i :| 0 <= i < |Join(ids[1..])| && Join(ids[1..])[i] == sep;
      assert Join(ids)[|ids[0]| + 1 + i] == sep;
    } else if |ids| > 1 {
      var i :| 0 <= i < |ids[0]| && ids[0][i] == sep;
      assert Join(ids)[i] == sep;
    }
  }

  /** A NUL in the application, or in the joined documents, may as well end the query later. */
  lemma {:induction false} NulShiftsKey(r: Request) returns (other: Request)
    requires NUL in r.application || NUL in Join(r.documents)
    ensures other != r && Key(other) == Key(r)
  {
    if NUL in r.application {
      var u, v := CutAtSeparator(r.application, NUL);
      other := Request(r.query + [NUL] + u, v, r.documents);
      assert Key(r) == r.query + [NUL] + (u + [NUL] + v + [NUL] + Join(r.documents));
      assert Key(other) == (r.query + [NUL] + u) + [NUL] + (v + [NUL] + Join(r.documents));
    } else {
      var u, v := CutAtSeparator(Join(r.documents), NUL);
      other := Request(r.query + [NUL] + r.application, u, [v]);
      assert Key(r) == r.query + [NUL] + (r.application + [NUL] + (u + [NUL] + v));
      assert Key(other) == (r.query + [NUL] + r.application) + [NUL] + (u + [NUL] + v);
    }
    assert |other.query| > |r.query|;
  }

  /** Any list of documents but one proper id is joined like another. */
  lemma {:induction false} JoinIsShared(ids: seq<string>) returns (others: seq<string>)
    requires |ids| != 1 || ids[0] == "" || BAR in ids[0]
    ensures others != ids && Join(others) == Join(ids)
  {
    if |ids| == 0 {
      others := [""];
    } else if |ids| > 1 {
      others := [Join(ids)];
    } else if ids[0] == "" {
      others := [];
    } else {
      var u, v := CutAtSeparator(ids[0], BAR);
      others := [u, v];
      assert others[1..] == [v];
    }
  }

  /** Every request whose ids are not clean shares its key with another request. */
  lemma {:induction false} UncleanKeyIsShared(r: Request) returns (other: Request)
    requires !CleanIds(r)
    ensures other != r && Key(other) == Key(r)
  {
    if NUL in r.application || NUL in Join(r.documents) {
      other := NulShiftsKey(r);
    } else {
      var d :| d in r.documents && (d == "" || NUL in d || BAR in d);
      if NUL in d {
        SeparatorIsJoined(r.documents, d, NUL);
      }
      var others := JoinIsShared(r.documents);
      other := r.(documents := others);
    }
  }

  /** A request whose key no other request has, clean or not: one document, and no separator anywhere. */
  predicate IsAlone(r: Request) {
    Clean(r) && |r.documents| == 1
  }

  lemma {:induction false} NulsOfThree(x: string, y: string, u: string, x': string, y': string, u': string)
    requires NUL !in x && NUL !in y && NUL !in u
    requires x + [NUL] + (y + [NUL] + u) == x' + [NUL] + (y' + [NUL] + u')
    ensures x == x' && y == y' && u == u'
  {
    var key := x + [NUL] + (y + [NUL] + u);
    var i, j := |x'|, |x'| + 1 + |y'|;
    Around(x', NUL, y' + [NUL] + u', i);
    Around(x', NUL, y' + [NUL] + u', j);
    Around(y', NUL, u', |y'|);
    assert key[i] == NUL && key[j] == NUL && i < j < |key|;
    forall n | 0 <= n < |key| && key[n] == NUL ensures n == |x| || n == |x| + 1 + |y| {
      Around(x, NUL, y + [NUL] + u, n);
      if n > |x| {
        Around(y, NUL, u, n - |x| - 1);
      }
    }
    SameLength(x, y + [NUL] + u, x', y' + [NUL] + u', NUL);
    SameLength(y, u, y', u', NUL);
  }

  lemma {:induction false} LoneIdIsKnown(ids: seq<string>, d: string)
    requires Join(ids) == d && d != "" && BAR !in d
    ensures ids == [d]
  {
    BarJoins(ids);
  }

  lemma {:induction false} BarJoins(ids: seq<string>)
    ensures |ids| > 1 ==> BAR in Join(ids)
  {
    if |ids| > 1 {
      assert Join(ids)[|ids[0]|] == BAR;
    }
  }

  /** A key belongs to one request only, among all requests, exactly if that request has one proper document id and no
      NUL in its query or its application. */
  lemma {:induction false} KeyIsOwnIff(r: Request)
    ensures (forall other: Request | Key(other) == Key(r) :: other == r) <==> IsAlone(r)
  {
    if IsAlone(r) {
      forall other: Request | Key(other) == Key(r) ensures other == r {
        assert r.documents == [r.documents[0]];
        NulsOfThree(r.query, r.application, Join(r.documents), other.query, other.application, Join(other.documents));
        LoneIdIsKnown(other.documents, r.documents[0]);
      }
    } else if !CleanIds(r) {
      var other := UncleanKeyIsShared(r);
    } else if NUL in r.query {
      var u, v := CutAtSeparator(r.query, NUL);
      var other := Request(u, v, [r.application + [NUL] + Join(r.documents)]);
      assert Key(other) == u + [NUL] + (v + [NUL] + (r.application + [NUL] + Join(r.documents)));
      assert Key(r) == u + [NUL] + v + [NUL] + (r.application + [NUL] + Join(r.documents));
      assert |other.query| < |r.query|;
    } else {
      var others := JoinIsShared(r.documents);
      var other := r.(documents := others);
      assert Key(other) == Key(r);
    }
  }

  // Invalidation.

  lemma {:induction false} OwnKeysAreMarked(r: Request)
    ensures Contains(Key(r), Marker(r.application))
  {
    var m := Marker(r.application);
    assert Key(r) == r.query + m + Join(r.documents);
    assert Text.Matches(Key(r), m, |r.query|);
  }

  lemma {:induction false} MarkerAt(key: string, application: string, i: nat)
    requires i + |application| + 2 <= |key| && Text.Matches(key, Marker(application), i)
    ensures key[i] == NUL && key[i + |application| + 1] == NUL
    ensures application == key[i + 1..i + 1 + |application|]
  {
    var m, n := Marker(application), |application|;
    var found := key[i..i + n + 2];
    assert found == m;
    assert key[i] == found[0] && key[i + n + 1] == found[n + 1];
    forall k | 0 <= k < n ensures application[k] == key[i + 1..i + 1 + n][k] {
      assert m[1 + k] == application[k] && found[1 + k] == key[i + 1 + k];
    }
  }

  lemma {:induction false} ApplicationOfKey(r: Request)
    ensures |Key(r)| >= |r.query| + |r.application| + 2
    ensures Key(r)[|r.query| + 1..|r.query| + 1 + |r.application|] == r.application
  {
    assert Key(r) == (r.query + [NUL]) + r.application + ([NUL] + Join(r.documents));
  }

  /** The marker of an application stands in the key of a clean request exactly if it is that request's own. */
  lemma {:induction false} MarkedIffOwn(r: Request, application: string)
    requires Clean(r)
    ensures Contains(Key(r), Marker(application)) <==> application == r.application
  {
    OwnKeysAreMarked(r);
    if Contains(Key(r), Marker(application)) {
      var i: nat :| i <= |Key(r)| - |Marker(application)| && Text.Matches(Key(r), Marker(application), i);
      MarkerAt(Key(r), application, i);
      NulsOfKey(r, i);
      NulsOfKey(r, i + |application| + 1);
      ApplicationOfKey(r);
    }
  }

  lemma {:induction false} NulsOfKey(r: Request, i: nat)
    requires Clean(r) && i < |Key(r)| && Key(r)[i] == NUL
    ensures i == |r.query| || i == |r.query| + 1 + |r.application|
  {
    JoinHasNoNul(r.documents);
    Around(r.query, NUL, r.application + [NUL] + Join(r.documents), i);
    if i > |r.query| {
      Around(r.application, NUL, Join(r.documents), i - |r.query| - 1);
    }
  }
}
