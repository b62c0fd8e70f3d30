/** The registry of ingestion progress: bounded, numbered event logs read by cursor. */
module ActivityLog {
  import opened Outcomes
  import opened StableSort

  datatype Status = Running | Completed | Failed

  /** What is reported; the message texts are one opaque value. */
  datatype Detail = Detail(text: nat, documentIndex: Option<int>, documentCount: Option<int>,
                           completed: Option<int>, total: Option<int>)

  predicate AtLeast(value: Option<int>, bound: int) {
    value.None? || value.value >= bound
  }

  /** What the event schema admits; building an event from anything else raises. */
  predicate Admitted(d: Detail) {
    AtLeast(d.documentIndex, 1) && AtLeast(d.documentCount, 1) && AtLeast(d.completed, 0) && AtLeast(d.total, 1)
  }

  datatype Event = Event(sequence: nat, detail: Detail)

  /** The events of a history of reports, numbered from a base: a report that was refused used up its number. */
  function Numbered(history: seq<Detail>, base: nat): seq<Event> {
    if history == [] then []
    else
      var n := |history| - 1;
      Numbered(history[..n], base) + if Admitted(history[n]) then [Event(base + n + 1, history[n])] else []
  }

  /** What the log holds after a history of reports, each of which may push out the oldest event. */
  function Retained(history: seq<Detail>, cap: nat): seq<Event> {
    if history == [] then []
    else
      var n := |history| - 1;
      var before := Retained(history[..n], cap);
      if Admitted(history[n]) then Last(before + [Event(n + 1, history[n])], cap) else before
  }

  /** That is the last of all events ever numbered. */
  lemma {:induction false} RetainedIsLast(history: seq<Detail>, cap: nat)
    ensures Retained(history, cap) == Last(Numbered(history, 0), cap)
  {
    if history != [] {
      var n := |history| - 1;
      RetainedIsLast(history[..n], cap);
      if Admitted(history[n]) {
        LastStep(Numbered(history[..n], 0), Event(n + 1, history[n]), cap);
      }
    }
  }

  function Beyond(events: seq<Event>, after: int): seq<Event> {
    if events == [] then []
    else (if events[0].sequence > after then [events[0]] else []) + Beyond(events[1..], after)
  }

  /** last_sequence: the number of the last retained event, or 0. */
  function Cursor(history: seq<Detail>, cap: nat): nat {
    var events := Retained(history, cap);
    if events == [] then 0 else events[|events| - 1].sequence
  }

  /** What a poll after a sequence number returns. */
  function Poll(history: seq<Detail>, cap: nat, after: int): seq<Event> {
    Beyond(Retained(history, cap), after)
  }

  datatype Response = Response(batch: nat, status: Status, events: seq<Event>, lastSequence: nat)

  lemma {:induction false} LastStep<T>(s: seq<T>, x: T, n: nat)
    ensures Last(Last(s, n) + [x], n) == Last(s + [x], n)
  {
  }

  /** The keys of a dict in the order in which they were added. */
  ghost predicate Lists(order: seq<nat>, keys: set<nat>) {
    (forall b :: b in keys <==> b in order) && Distinct(order)
  }

  lemma {:induction false} ListsDropFirst(order: seq<nat>, keys: set<nat>)
    requires Lists(order, keys) && order != []
    ensures Lists(order[1..], keys - {order[0]})
  {
    var rest := order[1..];
    assert order == [order[0]] + rest;
    forall i, j | 0 <= i < j < |rest| ensures rest[i] != rest[j] {
      assert rest[i] == order[i + 1] && rest[j] == order[j + 1];
    }
    assert order[0] !in rest by {
      forall i | 0 <= i < |rest| ensures rest[i] != order[0] { assert rest[i] == order[i + 1]; }
    }
  }

  lemma {:induction false} ListsAdd(order: seq<nat>, keys: set<nat>, b: nat)
    requires Lists(order, keys) && b !in keys
    ensures Lists(order + [b], keys + {b})
  {
  }

  /** A log and its counter hold what its history of reports says. */
  ghost predicate Logs(events: seq<Event>, counter: nat, history: seq<Detail>, cap: nat) {
    counter == |history| && events == Retained(history, cap)
  }

  /** The logs, counters and histories of all batches. */
  ghost predicate AllLogs(events: map<nat, seq<Event>>, sequences: map<nat, nat>, history: map<nat, seq<Detail>>,
                          cap: nat) {
    && events.Keys == sequences.Keys == history.Keys
    && (forall b | b in events :: Logs(events[b], sequences[b], history[b], cap))
  }

  lemma {:induction false} AllLogsPut(events: map<nat, seq<Event>>, sequences: map<nat, nat>,
                                      history: map<nat, seq<Detail>>, cap: nat, batch: nat, log: seq<Event>,
                                      counter: nat, reported: seq<Detail>)
    requires AllLogs(events, sequences, history, cap) && Logs(log, counter, reported, cap)
    ensures AllLogs(events[batch := log], sequences[batch := counter], history[batch := reported], cap)
  {
    var logs, counters, reports := events[batch := log], sequences[batch := counter], history[batch := reported];
    forall b | b in logs ensures Logs(logs[b], counters[b], reports[b], cap) {
      assert b != batch ==> b in events && Logs(events[b], sequences[b], history[b], cap);
    }
  }

  lemma {:induction false} AllLogsRemove(events: map<nat, seq<Event>>, sequences: map<nat, nat>,
                                         history: map<nat, seq<Detail>>, cap: nat, batch: nat)
    requires AllLogs(events, sequences, history, cap)
    ensures AllLogs(events - {batch}, sequences - {batch}, history - {batch}, cap)
  {
  }

  lemma {:induction false} EmptyLogs(cap: nat)
    ensures Logs([], 0, [], cap)
  {
  }

  lemma {:induction false} Overwrite<K, V>(m: map<K, V>, k: K, x: V, y: V)
    ensures m[k := x][k := y] == m[k := y]
  {
  }

  /** What one report does to a log. */
  lemma {:induction false} LogsStep(events: seq<Event>, counter: nat, history: seq<Detail>, cap: nat, detail: Detail)
    requires Logs(events, counter, history, cap)
    ensures Admitted(detail) ==> Logs(Last(events + [Event(counter + 1, detail)], cap), counter + 1, history + [detail],
                                      cap)
    ensures !Admitted(detail) ==> Logs(events, counter + 1, history + [detail], cap)
  {
    assert (history + [detail])[..|history|] == history;
  }

  class IngestionActivityRegistry {
    const maxBatches: nat
    const maxEvents: nat
    var events: map<nat, seq<Event>>
    /** The keys of events in the order in which they were added. */
    var order: seq<nat>
    var statuses: map<nat, Status>
    var sequences: map<nat, nat>
    var applications: map<nat, nat>
    /** Everything reported for a batch since it was started, refused reports included. */
    ghost var history: map<nat, seq<Detail>>

    ghost predicate Valid()
      reads this
    {
      && Lists(order, events.Keys)
      && AllLogs(events, sequences, history, maxEvents)
      && events.Keys <= statuses.Keys
    }

    constructor (maxBatches: nat := 100, maxEvents: nat := 1000)
      ensures Valid() && order == [] && this.maxBatches == maxBatches && this.maxEvents == maxEvents
    {
      this.maxBatches := maxBatches;
      this.maxEvents := maxEvents;
      events, order, statuses, sequences, applications := map[], [], map[], map[], map[];
      history := map[];
    }

    ghost function Reported(batch: nat): seq<Detail>
      reads this
    {
      if batch in history then history[batch] else []
    }

    method EvictOldest()
      requires Valid() && order != []
      modifies this
      ensures Valid() && order == old(order)[1..]
      ensures history == old(history) - {old(order)[0]}
      ensures applications == old(applications) - {old(order)[0]}
    {
      var oldest := order[0];
      ListsDropFirst(order, events.Keys);
      AllLogsRemove(events, sequences, history, maxEvents, oldest);
      events := events - {oldest};
      order := order[1..];
      statuses := statuses - {oldest};
      sequences := sequences - {oldest};
      applications := applications - {oldest};
      history := history - {oldest};
    }

    /** A new key of the dict of events; a present one is left alone. */
    method AddBatch(batch: nat)
      requires Valid()
      modifies `events, `order, `statuses, `sequences, `history
      ensures Valid() && history == old(history)[batch := old(Reported(batch))]
      ensures order == if batch in old(events) then old(order) else old(order) + [batch]
      ensures statuses == if batch in old(statuses) then old(statuses) else old(statuses)[batch := Running]
    {
      if batch !in events {
        ListsAdd(order, events.Keys, batch);
        EmptyLogs(maxEvents);
        AllLogsPut(events, sequences, history, maxEvents, batch, [], 0, []);
        events := events[batch := []];
        order := order + [batch];
        sequences := sequences[batch := 0];
        history := history[batch := []];
      }
      if batch !in statuses {
        statuses := statuses[batch := Running];
      }
    }

    /** A present batch gets this log and this counter. */
    method Put(batch: nat, log: seq<Event>, counter: nat, ghost reported: seq<Detail>)
      requires Valid() && batch in events && Logs(log, counter, reported, maxEvents)
      modifies `events, `sequences, `history
      ensures Valid()
      ensures history == old(history)[batch := reported]
    {
      AllLogsPut(events, sequences, history, maxEvents, batch, log, counter, reported);
      assert events[batch := log].Keys == events.Keys;
      events, sequences := events[batch := log], sequences[batch := counter];
      history := history[batch := reported];
    }

    /** start; it raises only if there is no batch to evict and no room for one. */
    method Start(batch: nat, application: Option<nat>) returns (started: bool)
      requires Valid()
      modifies this
      ensures Valid()
      ensures started <==> old(order) != [] || maxBatches > 0
      ensures !started ==> unchanged(this)
      ensures started ==> order == OrderAfterStart(old(order), batch, maxBatches)
      ensures started ==> history == HistoryAfterStart(old(history), old(order), batch, maxBatches)
      ensures started ==> batch in statuses && statuses[batch] == Running
      ensures started && application.Some? ==> batch in applications && applications[batch] == application.value
    {
      if batch !in events && |order| >= maxBatches {
        if order == [] {
          return false;
        }
        EvictOldest();
        assert batch !in order;
      }
      Restart(batch, application);
      started := true;
    }

    method Restart(batch: nat, application: Option<nat>)
      requires Valid()
      modifies this
      ensures Valid() && history == old(history)[batch := []]
      ensures order == if batch in old(events) then old(order) else old(order) + [batch]
      ensures batch in statuses && statuses[batch] == Running
      ensures application.Some? ==> batch in applications && applications[batch] == application.value
    {
      ghost var was := history;
      AddBatch(batch);
      Overwrite(was, batch, history[batch], []);
      EmptyLogs(maxEvents);
      Put(batch, [], 0, []);
      statuses := statuses[batch := Running];
      if application.Some? {
        applications := applications[batch := application.value];
      }
    }

    method ApplicationId(batch: nat) returns (application: Option<nat>)
      ensures application == if batch in applications then Some(applications[batch]) else None
    {
      application := if batch in applications then Some(applications[batch]) else None;
    }

    /** report; false if building the event raised. */
    method Report(batch: nat, detail: Detail) returns (admitted: bool)
      requires Valid()
      modifies this
      ensures Valid() && admitted == Admitted(detail)
      ensures history == old(history)[batch := old(Reported(batch)) + [detail]]
      ensures order == OrderAfterReport(old(order), batch)
      ensures statuses == if batch in old(statuses) then old(statuses) else old(statuses)[batch := Running]
      ensures applications == old(applications)
    {
      ghost var was, before := history, Reported(batch);
      AddBatch(batch);
      Overwrite(was, batch, before, before + [detail]);
      admitted := Record(batch, detail);
    }

    /** The next number, and the event if it can be built. */
    method Record(batch: nat, detail: Detail) returns (admitted: bool)
      requires Valid() && batch in events
      modifies `events, `sequences, `history
      ensures Valid() && admitted == Admitted(detail)
      ensures history == old(history)[batch := old(history[batch]) + [detail]]
    {
      LogsStep(events[batch], sequences[batch], history[batch], maxEvents, detail);
      var sequence := sequences[batch] + 1;
      admitted := Admitted(detail);
      if !admitted {
        Put(batch, events[batch], sequence, history[batch] + [detail]);
        return;
      }
      var list := events[batch] + [Event(sequence, detail)];
      if |list| > maxEvents {
        list := list[|list| - maxEvents..];
      }
      Put(batch, list, sequence, history[batch] + [detail]);
    }

    method Finish(batch: nat, status: Status)
      requires Valid()
      modifies `statuses
      ensures Valid() && statuses == old(statuses)[batch := status]
    {
      statuses := statuses[batch := status];
    }

    /** snapshot: a bounded view of the whole history. */
    method Snapshot(batch: nat, after: int) returns (response: Option<Response>)
      requires Valid()
      ensures batch !in history ==> response == None
      ensures batch in history ==>
                batch in statuses && response == Some(View(batch, statuses[batch], history[batch], maxEvents, after))
    {
      if batch !in events {
        return None;
      }
      assert Logs(events[batch], sequences[batch], history[batch], maxEvents);
      var list := events[batch];
      var found := [];
      assert list[0..] == list;
      for i := 0 to |list|
        invariant Beyond(list, after) == found + Beyond(list[i..], after)
      {
        assert list[i..][1..] == list[i + 1..];
        if list[i].sequence > after {
          found := found + [list[i]];
        }
      }
      assert found + [] == found;
      var last := if list != [] then list[|list| - 1].sequence else 0;
      return Some(Response(batch, statuses[batch], found, last));
    }
  }

  /** What a snapshot shows of a history. */
  function View(batch: nat, status: Status, history: seq<Detail>, cap: nat, after: int): Response {
    Response(batch, status, Poll(history, cap, after), Cursor(history, cap))
  }

  /** The batches after a start: the oldest makes room for a new one when the registry is full. */
  function OrderAfterStart(order: seq<nat>, batch: nat, maxBatches: nat): seq<nat> {
    if batch in order then order
    else (if |order| >= maxBatches && order != [] then order[1..] else order) + [batch]
  }

  /** The batches after a report: an unknown batch is added, whatever their number. */
  function OrderAfterReport(order: seq<nat>, batch: nat): seq<nat> {
    if batch in order then order else order + [batch]
  }

  function HistoryAfterStart(history: map<nat, seq<Detail>>, order: seq<nat>, batch: nat,
                             maxBatches: nat): map<nat, seq<Detail>> {
    if batch !in order && |order| >= maxBatches && order != [] then (history - {order[0]})[batch := []]
    else history[batch := []]
  }

  // What a poller sees.

  lemma {:induction false} NumberedAppends(a: seq<Detail>, b: seq<Detail>, base: nat)
    ensures Numbered(a + b, base) == Numbered(a, base) + Numbered(b, base + |a|)
  {
    if b == [] {
      assert a + b == a;
    } else {
      var n := |b| - 1;
      assert (a + b)[..|a + b| - 1] == a + b[..n];
      NumberedAppends(a, b[..n], base);
    }
  }

  ghost predicate Increasing(events: seq<Event>, low: nat, high: nat) {
    && (forall i | 0 <= i < |events| :: low < events[i].sequence <= high)
    && (forall i, j | 0 <= i < j < |events| :: events[i].sequence < events[j].sequence)
  }

  /** Numbers strictly increase and stay within the count of reports. */
  lemma {:induction false} NumbersIncrease(history: seq<Detail>, base: nat)
    ensures Increasing(Numbered(history, base), base, base + |history|)
  {
    if history != [] {
      NumbersIncrease(history[..|history| - 1], base);
    }
  }

  lemma {:induction false} BeyondAll(events: seq<Event>, after: nat)
    requires forall e | e in events :: e.sequence > after
    ensures Beyond(events, after) == events
  {
    if events != [] {
      BeyondAll(events[1..], after);
      assert events == [events[0]] + events[1..];
    }
  }

  lemma {:induction false} BeyondSkips(stale: seq<Event>, recent: seq<Event>, after: nat)
    requires forall e | e in stale :: e.sequence <= after
    requires forall e | e in recent :: e.sequence > after
    ensures Beyond(stale + recent, after) == recent
  {
    if stale == [] {
      assert stale + recent == recent;
      BeyondAll(recent, after);
    } else {
      assert (stale + recent)[1..] == stale[1..] + recent;
      BeyondSkips(stale[1..], recent, after);
    }
  }

  lemma {:induction false} LastOfBoth<T>(a: seq<T>, b: seq<T>, n: nat)
    ensures |b| >= n ==> Last(a + b, n) == Last(b, n)
    ensures |b| < n ==> Last(a + b, n) == Last(a, n - |b|) + b
  {
  }

  lemma {:induction false} CursorCoversSeen(seen: seq<Detail>, cap: nat)
    ensures Cursor(seen, cap) <= |seen|
    ensures cap > 0 ==> forall e | e in Numbered(seen, 0) :: e.sequence <= Cursor(seen, cap)
  {
    NumbersIncrease(seen, 0);
    RetainedIsLast(seen, cap);
    var events := Numbered(seen, 0);
    var kept := Last(events, cap);
    assert kept != [] ==> kept[|kept| - 1] == events[|events| - 1];
    forall e | e in events ensures cap > 0 ==> e.sequence <= Cursor(seen, cap) {
      var i :| 0 <= i < |events| && events[i] == e;
      assert i < |events| - 1 ==> events[i].sequence < events[|events| - 1].sequence;
    }
  }

  lemma {:induction false} BeyondLast(before: seq<Event>, recent: seq<Event>, cap: nat, cursor: nat)
    requires cap > 0 ==> forall e | e in before :: e.sequence <= cursor
    requires forall e | e in recent :: e.sequence > cursor
    ensures Beyond(Last(before + recent, cap), cursor) == Last(recent, cap)
  {
    LastOfBoth(before, recent, cap);
    if |recent| >= cap {
      assert forall e | e in Last(recent, cap) :: e in recent;
      BeyondAll(Last(recent, cap), cursor);
    } else {
      var kept := Last(before, cap - |recent|);
      assert forall e | e in kept :: e in before;
      BeyondSkips(kept, recent, cursor);
    }
  }

  lemma {:induction false} PollFrom(seen: seq<Detail>, since: seq<Detail>, cap: nat, cursor: nat)
    requires cursor <= |seen| && (cap > 0 ==> forall e | e in Numbered(seen, 0) :: e.sequence <= cursor)
    ensures Poll(seen + since, cap, cursor) == Last(Numbered(since, |seen|), cap)
  {
    RetainedIsLast(seen + since, cap);
    NumberedAppends(seen, since, 0);
    NumbersIncrease(since, |seen|);
    BeyondLast(Numbered(seen, 0), Numbered(since, |seen|), cap, cursor);
  }

  lemma {:induction false} LastIsWhole<T>(s: seq<T>, n: nat)
    ensures Last(s, n) == s <==> |s| <= n
  {
  }

  /** A poll from the last cursor returns the events reported since, the last ones if they are more than the cap;
      so all of them exactly if they are not more. */
  lemma {:induction false} PollSeesTheNew(seen: seq<Detail>, since: seq<Detail>, cap: nat)
    ensures var recent := Numbered(since, |seen|);
            var got := Poll(seen + since, cap, Cursor(seen, cap));
            got == Last(recent, cap) && (got == recent <==> |recent| <= cap)
  {
    CursorCoversSeen(seen, cap);
    PollFrom(seen, since, cap, Cursor(seen, cap));
    LastIsWhole(Numbered(since, |seen|), cap);
  }

  // Whole runs of polls.

  function Flat(rounds: seq<seq<Detail>>): seq<Detail> {
    if rounds == [] then [] else Flat(rounds[..|rounds| - 1]) + rounds[|rounds| - 1]
  }

  /** All a poller sees that feeds each cursor into the next poll, with these reports before each poll. */
  function Seen(rounds: seq<seq<Detail>>, cap: nat): seq<Event> {
    if rounds == [] then []
    else
      var before := rounds[..|rounds| - 1];
      Seen(before, cap) + Poll(Flat(rounds), cap, Cursor(Flat(before), cap))
  }

  lemma {:induction false} RoundSeesTheNew(rounds: seq<seq<Detail>>, cap: nat)
    requires rounds != []
    ensures var before, last := rounds[..|rounds| - 1], rounds[|rounds| - 1];
            var recent := Numbered(last, |Flat(before)|);
            && Seen(rounds, cap) == Seen(before, cap) + Last(recent, cap)
            && Numbered(Flat(rounds), 0) == Numbered(Flat(before), 0) + recent
  {
    var before, last := rounds[..|rounds| - 1], rounds[|rounds| - 1];
    PollSeesTheNew(Flat(before), last, cap);
    NumberedAppends(Flat(before), last, 0);
  }

  /** No event is seen twice, and events are seen in order. */
  lemma {:induction false} PollsRepeatNothing(rounds: seq<seq<Detail>>, cap: nat)
    ensures Increasing(Seen(rounds, cap), 0, |Flat(rounds)|)
  {
    if rounds != [] {
      var before, last := rounds[..|rounds| - 1], rounds[|rounds| - 1];
      PollsRepeatNothing(before, cap);
      RoundSeesTheNew(rounds, cap);
      NumbersIncrease(last, |Flat(before)|);
      IncreasingLast(Numbered(last, |Flat(before)|), cap, |Flat(before)|, |Flat(rounds)|);
      IncreasingAppends(Seen(before, cap), Last(Numbered(last, |Flat(before)|), cap), |Flat(before)|, |Flat(rounds)|);
    }
  }

  lemma {:induction false} IncreasingLast(events: seq<Event>, cap: nat, low: nat, high: nat)
    requires Increasing(events, low, high)
    ensures Increasing(Last(events, cap), low, high)
  {
    if |events| > cap {
      IncreasingFrom(events, |events| - cap, low, high);
    }
  }

  lemma {:induction false} IncreasingFrom(events: seq<Event>, from: nat, low: nat, high: nat)
    requires Increasing(events, low, high) && from <= |events|
    ensures Increasing(events[from..], low, high)
  {
    var tail := events[from..];
    forall i | 0 <= i < |tail| ensures low < tail[i].sequence <= high {
      assert tail[i] == events[from + i];
    }
    forall i, j | 0 <= i < j < |tail| ensures tail[i].sequence < tail[j].sequence {
      assert tail[i] == events[from + i] && tail[j] == events[from + j];
    }
  }

  lemma {:induction false} IncreasingAppends(a: seq<Event>, b: seq<Event>, middle: nat, high: nat)
    requires Increasing(a, 0, middle) && Increasing(b, middle, high) && middle <= high
    ensures Increasing(a + b, 0, high)
  {
    forall i, j | 0 <= i < j < |a + b| ensures (a + b)[i].sequence < (a + b)[j].sequence {
      if i < |a| && j >= |a| {
        assert (a + b)[i] == a[i] && (a + b)[j] == b[j - |a|];
      }
    }
  }

  /** No more events than the cap were added in any round. */
  ghost predicate Paced(rounds: seq<seq<Detail>>, cap: nat) {
    forall i | 0 <= i < |rounds| :: |Numbered(rounds[i], 0)| <= cap
  }

  lemma {:induction false} PacedStep(rounds: seq<seq<Detail>>, cap: nat)
    requires rounds != []
    ensures Paced(rounds, cap) <==>
            Paced(rounds[..|rounds| - 1], cap) && |Numbered(rounds[|rounds| - 1], 0)| <= cap
  {
    var before := rounds[..|rounds| - 1];
    assert forall i | 0 <= i < |before| :: rounds[i] == before[i];
  }

  /** A poller sees every event, with no gap, exactly if no more than the cap were added between two polls. */
  lemma {:induction false} PollsMissNothingIff(rounds: seq<seq<Detail>>, cap: nat)
    ensures Seen(rounds, cap) == Numbered(Flat(rounds), 0) <==> Paced(rounds, cap)
    ensures |Seen(rounds, cap)| <= |Numbered(Flat(rounds), 0)|
  {
    if rounds != [] {
      var before, last := rounds[..|rounds| - 1], rounds[|rounds| - 1];
      var base := |Flat(before)|;
      PollsMissNothingIff(before, cap);
      RoundSeesTheNew(rounds, cap);
      BaseKeepsCount(last, base);
      PacedStep(rounds, cap);
      SplitEqual(Seen(before, cap), Last(Numbered(last, base), cap), Numbered(Flat(before), 0), Numbered(last, base));
    }
  }

  lemma {:induction false} SplitEqual<T>(a: seq<T>, b: seq<T>, c: seq<T>, d: seq<T>)
    requires |a| <= |c| && |b| <= |d|
    ensures a + b == c + d <==> a == c && b == d
  {
    if a + b == c + d {
      assert |a + b| == |c + d|;
      assert a == (a + b)[..|a|] && c == (c + d)[..|c|];
      assert b == (a + b)[|a|..] && d == (c + d)[|c|..];
    }
  }

  lemma {:induction false} BaseKeepsCount(history: seq<Detail>, base: nat)
    ensures |Numbered(history, base)| == |Numbered(history, 0)|
  {
    if history != [] {
      BaseKeepsCount(history[..|history| - 1], base);
    }
  }

  // Numbers.

  lemma {:induction false} AdmittedAreNumbered(history: seq<Detail>, base: nat)
    requires forall i | 0 <= i < |history| :: Admitted(history[i])
    ensures |Numbered(history, base)| == |history|
    ensures forall i | 0 <= i < |history| :: Numbered(history, base)[i] == Event(base + i + 1, history[i])
  {
    if history != [] {
      AdmittedAreNumbered(history[..|history| - 1], base);
    }
  }

  lemma {:induction false} NumberedAreAdmitted(history: seq<Detail>, i: nat)
    requires i < |Numbered(history, 0)|
    ensures var e := Numbered(history, 0)[i];
            1 <= e.sequence <= |history| && history[e.sequence - 1] == e.detail && Admitted(e.detail)
  {
    var n := |history| - 1;
    if i < |Numbered(history[..n], 0)| {
      NumberedAreAdmitted(history[..n], i);
    }
  }

  ghost predicate Consecutive(events: seq<Event>, counter: nat) {
    forall i | 0 <= i < |events| :: events[i].sequence == counter - |events| + 1 + i
  }

  ghost predicate AllAdmitted(history: seq<Detail>, from: nat) {
    forall j | from <= j < |history| :: Admitted(history[j])
  }

  lemma {:induction false} ConsecutiveMeansAdmitted(history: seq<Detail>, cap: nat)
    requires |Retained(history, cap)| <= |history| && Consecutive(Retained(history, cap), |history|)
    ensures AllAdmitted(history, |history| - |Retained(history, cap)|)
  {
    RetainedIsLast(history, cap);
    var all, kept := Numbered(history, 0), Retained(history, cap);
    var from := |history| - |kept|;
    forall j | from <= j < |history| ensures Admitted(history[j]) {
      assert kept[j - from].sequence == j + 1;
      assert kept[j - from] == all[|all| - |kept| + (j - from)];
      NumberedAreAdmitted(history, |all| - |kept| + (j - from));
    }
  }

  lemma {:induction false} AdmittedMeansConsecutive(history: seq<Detail>, cap: nat)
    requires |Retained(history, cap)| <= |history| && AllAdmitted(history, |history| - |Retained(history, cap)|)
    ensures Consecutive(Retained(history, cap), |history|)
  {
    RetainedIsLast(history, cap);
    var kept := Retained(history, cap);
    var from := |history| - |kept|;
    var head, tail := history[..from], history[from..];
    assert history == head + tail;
    NumberedAppends(head, tail, 0);
    AdmittedAreNumbered(tail, from);
    LastOfBoth(Numbered(head, 0), Numbered(tail, from), |kept|);
    assert kept == Last(Numbered(history, 0), |kept|);
    assert kept == Numbered(tail, from);
  }

  /** The retained events carry consecutive numbers that end at the counter exactly if the schema refused none of as
      many last reports. */
  lemma {:induction false} ConsecutiveIffAdmitted(history: seq<Detail>, cap: nat)
    ensures |Retained(history, cap)| <= cap && |Retained(history, cap)| <= |history|
    ensures Consecutive(Retained(history, cap), |history|) <==>
            AllAdmitted(history, |history| - |Retained(history, cap)|)
  {
    RetainedIsLast(history, cap);
    CountIsBounded(history);
    if Consecutive(Retained(history, cap), |history|) {
      ConsecutiveMeansAdmitted(history, cap);
    }
    if AllAdmitted(history, |history| - |Retained(history, cap)|) {
      AdmittedMeansConsecutive(history, cap);
    }
  }

  lemma {:induction false} CountIsBounded(history: seq<Detail>)
    ensures |Numbered(history, 0)| <= |history|
  {
    if history != [] {
      CountIsBounded(history[..|history| - 1]);
    }
  }

  // The bound on batches.

  datatype Call = Started(batch: nat) | Told(batch: nat)

  /** The batches after a call; a start that finds neither room nor a batch to evict raises and changes nothing. */
  function OrderAfter(order: seq<nat>, maxBatches: nat, call: Call): seq<nat> {
    match call
    case Started(batch) => if order == [] && maxBatches == 0 then order else OrderAfterStart(order, batch, maxBatches)
    case Told(batch) => OrderAfterReport(order, batch)
  }

  function OrderAfterAll(order: seq<nat>, maxBatches: nat, calls: seq<Call>): seq<nat>
    decreases |calls|
  {
    if calls == [] then order else OrderAfterAll(OrderAfter(order, maxBatches, calls[0]), maxBatches, calls[1..])
  }

  /** A report names a batch that is not there while there is no room for it. */
  predicate Overfills(order: seq<nat>, maxBatches: nat, call: Call) {
    call.Told? && call.batch !in order && |order| >= maxBatches
  }

  predicate NeverOverfills(order: seq<nat>, maxBatches: nat, calls: seq<Call>)
    decreases |calls|
  {
    calls == [] ||
    (!Overfills(order, maxBatches, calls[0]) &&
     NeverOverfills(OrderAfter(order, maxBatches, calls[0]), maxBatches, calls[1..]))
  }

  /** No call brings an exceeded count down: a start replaces the oldest batch, one for one. */
  lemma {:induction false} ExcessStays(order: seq<nat>, maxBatches: nat, calls: seq<Call>)
    requires |order| > maxBatches
    ensures |OrderAfterAll(order, maxBatches, calls)| >= |order|
    decreases |calls|
  {
    if calls != [] {
      ExcessStays(OrderAfter(order, maxBatches, calls[0]), maxBatches, calls[1..]);
    }
  }

  /** From a registry within its bound, the batches stay within it if and only if no report ever named a batch that was
      not there while the registry was full; once exceeded the bound stays exceeded, so it is enough to look at the
      end. */
  lemma {:induction false} BoundHoldsIff(order: seq<nat>, maxBatches: nat, calls: seq<Call>)
    requires |order| <= maxBatches
    ensures |OrderAfterAll(order, maxBatches, calls)| <= maxBatches <==> NeverOverfills(order, maxBatches, calls)
    decreases |calls|
  {
    if calls != [] {
      var after := OrderAfter(order, maxBatches, calls[0]);
      if Overfills(order, maxBatches, calls[0]) {
        ExcessStays(after, maxBatches, calls[1..]);
      } else {
        BoundHoldsIff(after, maxBatches, calls[1..]);
      }
    }
  }

  /** It does get exceeded: a batch that reports after another took its place is added again, and the next start leaves
      both there. */
  lemma {:induction false} ReportExceedsBound(a: nat, b: nat, c: nat)
    requires a != b && b != c && a != c
    ensures OrderAfterAll([], 1, [Started(a), Started(b), Told(a)]) == [b, a]
    ensures OrderAfterAll([], 1, [Started(a), Started(b), Told(a), Started(c)]) == [a, c]
  {
    assert OrderAfter([], 1, Started(a)) == [a];
    assert OrderAfter([a], 1, Started(b)) == [b] by { assert [a][1..] == []; }
    assert OrderAfter([b], 1, Told(a)) == [b, a];
    assert OrderAfter([b, a], 1, Started(c)) == [a, c] by { assert [b, a][1..] == [a]; }
    var three, four := [Started(a), Started(b), Told(a)], [Started(a), Started(b), Told(a), Started(c)];
    assert three[1..] == [Started(b), Told(a)] && three[1..][1..] == [Told(a)] && three[1..][1..][1..] == [];
    assert four[1..] == [Started(b), Told(a), Started(c)] && four[1..][1..] == [Told(a), Started(c)];
    assert four[1..][1..][1..] == [Started(c)] && four[1..][1..][1..][1..] == [];
    assert OrderAfterAll([b, a], 1, []) == [b, a] && OrderAfterAll([a, c], 1, []) == [a, c];
    assert OrderAfterAll([b], 1, [Told(a)]) == [b, a];
    assert OrderAfterAll([b, a], 1, [Started(c)]) == [a, c];
    assert OrderAfterAll([b], 1, [Told(a), Started(c)]) == [a, c];
    assert OrderAfterAll([a], 1, [Started(b), Told(a), Started(c)]) == [a, c];
  }

  // Restarts.

  /** The events beyond a number are those from some place on. */
  lemma {:induction false} BeyondIsTail(events: seq<Event>, after: nat, low: nat, high: nat) returns (k: nat)
    requires Increasing(events, low, high)
    ensures k <= |events| && Beyond(events, after) == events[k..]
    ensures forall i | 0 <= i < |events| :: events[i].sequence > after <==> i >= k
  {
    if events == [] || events[0].sequence > after {
      k := 0;
      assert forall e | e in events :: e.sequence > after;
      BeyondAll(events, after);
    } else {
      IncreasingFrom(events, 1, low, high);
      var tail := events[1..];
      var rest := BeyondIsTail(tail, after, low, high);
      k := rest + 1;
      assert tail[rest..] == events[k..];
      forall i | 0 <= i < |events| ensures events[i].sequence > after <==> i >= k {
        if i > 0 {
          assert tail[i - 1] == events[i];
        }
      }
    }
  }

  /** After a batch is started again, a poller that keeps its cursor misses just the retained events numbered up to it,
      refused reports and trimmed events included; it misses none exactly if nothing is retained or the first
      retained event is numbered beyond its cursor. */
  lemma {:induction false} RestartHidesEvents(again: seq<Detail>, cap: nat, cursor: nat) returns (k: nat)
    ensures var kept := Retained(again, cap);
            && k <= |kept| && Poll(again, cap, cursor) == kept[k..]
            && (forall i | 0 <= i < |kept| :: kept[i].sequence > cursor <==> i >= k)
            && (Poll(again, cap, cursor) == kept <==> kept == [] || kept[0].sequence > cursor)
  {
    RetainedIsLast(again, cap);
    NumbersIncrease(again, 0);
    IncreasingLast(Numbered(again, 0), cap, 0, |again|);
    var kept := Retained(again, cap);
    k := BeyondIsTail(kept, cursor, 0, |again|);
    assert k > 0 ==> |kept[k..]| < |kept|;
  }

  /** With every report of the new run admitted and within the cap, the events hidden are the first ones, as many as
      the cursor counts. */
  lemma {:induction false} RestartHidesFirst(again: seq<Detail>, cap: nat, cursor: nat)
    requires AllAdmitted(again, 0) && |again| <= cap
    ensures |Numbered(again, 0)| == |again|
    ensures Poll(again, cap, cursor) == if cursor <= |again| then Numbered(again, 0)[cursor..] else []
  {
    RetainedIsLast(again, cap);
    AdmittedAreNumbered(again, 0);
    var all := Numbered(again, 0);
    var k := RestartHidesEvents(again, cap, cursor);
    var at := if cursor <= |again| then cursor else |again|;
    assert k < |all| ==> all[k].sequence > cursor;
    assert at < |all| ==> all[at].sequence == at + 1;
  }
}
