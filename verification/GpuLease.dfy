/** The lease that puts vLLM to sleep for an ingestion batch and wakes it afterwards, with a failure possible
    at every request. */
module GpuLease {
  import opened Outcomes

  datatype Request = PostSleep | PostWake | GetState | GetHealth

  /** What a request brings back: an exception, a reported sleep state, or any other body. */
  datatype Reply = Failed | State(asleep: bool) | Other

  datatype Reason = RequestFailed(request: Request) | InvalidState | NotAsleep | NotAwake

  /** An exception: of the lease, of the code under the lease (a RuntimeError or another), or the group of both.
      Those of the lease are RuntimeErrors; the group is not. */
  datatype Error = LeaseError(reason: Reason) | BodyError(id: nat, runtime: bool) | Group(body: Error, wake: Error) {
    predicate IsRuntime() {
      LeaseError? || (BodyError? && runtime)
    }
  }

  datatype Event = Event(request: Request, reply: Reply)

  /** The reply to each request, numbered from the first one ever made. */
  type Network = nat -> Reply

  // Handshakes.

  /** The requests that put vLLM to sleep, or that wake it. */
  function Handshake(asleep: bool): seq<Request> {
    if asleep then [PostSleep, GetState] else [PostWake, GetState, GetHealth]
  }

  predicate Accepts(asleep: bool, request: Request, reply: Reply) {
    if request == GetState then reply == State(asleep) else !reply.Failed?
  }

  function ErrorOf(asleep: bool, request: Request, reply: Reply): Error {
    if reply.Failed? then LeaseError(RequestFailed(request))
    else if reply.Other? then LeaseError(InvalidState)
    else LeaseError(if asleep then NotAsleep else NotAwake)
  }

  datatype Performed = Performed(events: seq<Event>, error: Option<Error>)

  /** The rest of a handshake against the network: it stops at the first reply it does not accept. */
  function Perform(net: Network, at: nat, asleep: bool, from: nat): (p: Performed)
    decreases |Handshake(asleep)| - from
  {
    if from >= |Handshake(asleep)| then Performed([], None)
    else
      var request := Handshake(asleep)[from];
      var event := Event(request, net(at));
      if Accepts(asleep, request, net(at)) then
        var rest := Perform(net, at + 1, asleep, from + 1);
        Performed([event] + rest.events, rest.error)
      else Performed([event], Some(ErrorOf(asleep, request, net(at))))
  }

  /** Events that are a handshake from some request on. */
  ghost predicate Completes(events: seq<Event>, asleep: bool, from: nat) {
    && from + |events| == |Handshake(asleep)|
    && (forall i | 0 <= i < |events| ::
          events[i].request == Handshake(asleep)[from + i] && Accepts(asleep, events[i].request, events[i].reply))
  }

  /** The last requests made are a completed handshake. */
  ghost predicate EndsWith(trace: seq<Event>, asleep: bool) {
    |trace| >= |Handshake(asleep)| && Completes(trace[|trace| - |Handshake(asleep)|..], asleep, 0)
  }

  ghost predicate BreaksOff(events: seq<Event>, asleep: bool) {
    events != [] && !Accepts(asleep, events[|events| - 1].request, events[|events| - 1].reply)
  }

  lemma {:induction false} PerformFacts(net: Network, at: nat, asleep: bool, from: nat)
    requires from <= |Handshake(asleep)|
    ensures var p := Perform(net, at, asleep, from);
            if p.error.None? then Completes(p.events, asleep, from)
            else p.error.value.LeaseError? && BreaksOff(p.events, asleep)
    decreases |Handshake(asleep)| - from
  {
    if from < |Handshake(asleep)| {
      PerformFacts(net, at + 1, asleep, from + 1);
    }
  }

  lemma {:induction false} CompletedAtEnd(trace: seq<Event>, events: seq<Event>, asleep: bool)
    requires Completes(events, asleep, 0)
    ensures EndsWith(trace + events, asleep)
  {
    assert (trace + events)[|trace|..] == events;
  }

  lemma {:induction false} BrokenOffAtEnd(trace: seq<Event>, events: seq<Event>, asleep: bool)
    requires BreaksOff(events, asleep)
    ensures !EndsWith(trace + events, asleep)
  {
    var after := trace + events;
    var n := |Handshake(asleep)|;
    var last := events[|events| - 1];
    if |after| >= n {
      var tail := after[|after| - n..];
      assert tail[n - 1] == last;
    }
  }

  /** A handshake raises no error exactly when all its requests were made and accepted. */
  lemma {:induction false} PerformCompletes(net: Network, trace: seq<Event>, asleep: bool)
    ensures var run := Extend(net, trace, asleep);
            (run.error.None? <==> EndsWith(run.trace, asleep)) && (run.error.Some? ==> run.error.value.LeaseError?)
  {
    PerformFacts(net, |trace|, asleep, 0);
    var p := Perform(net, |trace|, asleep, 0);
    if p.error.None? {
      CompletedAtEnd(trace, p.events, asleep);
    } else {
      BrokenOffAtEnd(trace, p.events, asleep);
    }
  }

  /** What the code under a lease does, one step after the other, until one of them raises. */
  datatype Step =
    | Work(outcome: Option<Error>)
    | Generate(outcome: Option<Error>)

  /** The state a run leaves behind: the requests made so far, the error raised if any. */
  datatype Run = Run(trace: seq<Event>, error: Option<Error>)

  function Extend(net: Network, trace: seq<Event>, asleep: bool): Run {
    var p := Perform(net, |trace|, asleep, 0);
    Run(trace + p.events, p.error)
  }

  /** generation_fallback around one generation. */
  function FallbackRun(net: Network, trace: seq<Event>, leased: bool, outcome: Option<Error>): Run {
    if !leased then Run(trace, outcome)
    else
      var woken := Extend(net, trace, false);
      if woken.error.Some? then woken
      else
        var slept := Extend(net, woken.trace, true);
        Run(slept.trace, if slept.error.Some? then slept.error else outcome)
  }

  /** A page read by generation: a tolerant parser swallows a RuntimeError and goes on without the page. */
  function PageRun(net: Network, trace: seq<Event>, leased: bool, tolerant: bool, outcome: Option<Error>): Run {
    var run := FallbackRun(net, trace, leased, outcome);
    if tolerant && run.error.Some? && run.error.value.IsRuntime() then Run(run.trace, None) else run
  }

  function StepRun(net: Network, trace: seq<Event>, leased: bool, tolerant: bool, step: Step): Run {
    match step
    case Work(outcome) => Run(trace, outcome)
    case Generate(outcome) => PageRun(net, trace, leased, tolerant, outcome)
  }

  function BodyRun(net: Network, trace: seq<Event>, leased: bool, tolerant: bool, steps: seq<Step>): Run
    decreases |steps|
  {
    if steps == [] then Run(trace, None)
    else
      var first := StepRun(net, trace, leased, tolerant, steps[0]);
      if first.error.Some? then first else BodyRun(net, first.trace, leased, tolerant, steps[1..])
  }

  function Joined(body: Option<Error>, wake: Option<Error>): Option<Error> {
    if body.None? then wake
    else if wake.None? then body
    else Some(Group(body.value, wake.value))
  }

  /** ingestion_batch around a body. */
  function BatchRun(net: Network, trace: seq<Event>, enabled: bool, tolerant: bool, steps: seq<Step>): Run {
    if !enabled then BodyRun(net, trace, false, tolerant, steps)
    else
      var slept := Extend(net, trace, true);
      if slept.error.Some? then slept
      else
        var body := BodyRun(net, slept.trace, true, tolerant, steps);
        var woken := Extend(net, body.trace, false);
        Run(woken.trace, Joined(body.error, woken.error))
  }

  /** One lease as one thread uses it. */
  class Lease {
    const enabled: bool
    const net: Network
    var trace: seq<Event>
    var batchSleeping: bool
    /** How often the calling thread holds the re-entrant lock. */
    var depth: nat

    constructor (enabled: bool, net: Network)
      ensures this.enabled == enabled && this.net == net
      ensures trace == [] && !batchSleeping && depth == 0
    {
      this.enabled := enabled;
      this.net := net;
      trace := [];
      batchSleeping := false;
      depth := 0;
    }

    method Call(request: Request) returns (reply: Reply, error: Option<Error>)
      modifies `trace
      ensures reply == net(|old(trace)|) && trace == old(trace) + [Event(request, reply)]
      ensures error == if reply.Failed? then Some(LeaseError(RequestFailed(request))) else None
    {
      reply := net(|trace|);
      trace := trace + [Event(request, reply)];
      error := if reply.Failed? then Some(LeaseError(RequestFailed(request))) else None;
    }

    method SleepState() returns (asleep: bool, error: Option<Error>)
      modifies `trace
      ensures trace == old(trace) + [Event(GetState, net(|old(trace)|))]
      ensures error.None? <==> net(|old(trace)|).State?
      ensures error.None? ==> asleep == net(|old(trace)|).asleep
      ensures error.Some? ==> forall target :: error.value == ErrorOf(target, GetState, net(|old(trace)|))
    {
      var payload;
      payload, error := Call(GetState);
      asleep := false;
      if error.Some? {
        return;
      }
      match payload
      case State(flag) => asleep := flag;
      case _ => error := Some(LeaseError(InvalidState));
    }

    method Sleep() returns (error: Option<Error>)
      modifies `trace
      ensures Run(trace, error) == Extend(net, old(trace), true)
    {
      ghost var at := |trace|;
      ghost var start := trace;
      var _, failed := Call(PostSleep);
      ghost var rest := Perform(net, at + 1, true, 1);
      assert Perform(net, at + 2, true, 2) == Performed([], None);
      if failed.Some? {
        return failed;
      }
      var asleep, unknown := SleepState();
      assert trace == start + [Event(PostSleep, net(at)), Event(GetState, net(at + 1))];
      assert rest.events == [Event(GetState, net(at + 1))];
      if unknown.Some? {
        return unknown;
      }
      return if asleep then None else Some(LeaseError(NotAsleep));
    }

    method Wake() returns (error: Option<Error>)
      modifies `trace
      ensures Run(trace, error) == Extend(net, old(trace), false)
    {
      ghost var at := |trace|;
      ghost var start := trace;
      var _, failed := Call(PostWake);
      ghost var rest := Perform(net, at + 1, false, 1);
      ghost var last := Perform(net, at + 2, false, 2);
      assert Perform(net, at + 3, false, 3) == Performed([], None);
      if failed.Some? {
        return failed;
      }
      var asleep, unknown := SleepState();
      assert trace == start + [Event(PostWake, net(at)), Event(GetState, net(at + 1))];
      if unknown.Some? {
        return unknown;
      }
      if asleep {
        return Some(LeaseError(NotAwake));
      }
      var _, unhealthy := Call(GetHealth);
      assert last.events == [Event(GetHealth, net(at + 2))];
      assert trace == start + [Event(PostWake, net(at)), Event(GetState, net(at + 1)), Event(GetHealth, net(at + 2))];
      return unhealthy;
    }

    /** One generation under generation_fallback. */
    method Fallback(outcome: Option<Error>) returns (error: Option<Error>)
      modifies `trace
      ensures Run(trace, error) == FallbackRun(net, old(trace), enabled && batchSleeping, outcome)
    {
      if !enabled || !batchSleeping {
        return outcome;
      }
      var woken := Wake();
      if woken.Some? {
        return woken;
      }
      var slept := Sleep();
      return if slept.Some? then slept else outcome;
    }

    /** One page by generation, as the parser asks for it. */
    method VisionBlocks(outcome: Option<Error>, tolerant: bool) returns (error: Option<Error>)
      modifies `trace
      ensures Run(trace, error) == PageRun(net, old(trace), enabled && batchSleeping, tolerant, outcome)
    {
      error := Fallback(outcome);
      if error.Some? && error.value.IsRuntime() && tolerant {
        error := None;
      }
    }

    method Body(steps: seq<Step>, tolerant: bool) returns (error: Option<Error>)
      modifies `trace
      ensures Run(trace, error) == BodyRun(net, old(trace), enabled && batchSleeping, tolerant, steps)
    {
      error := None;
      assert steps[0..] == steps;
      for i := 0 to |steps|
        invariant error.None?
        invariant BodyRun(net, old(trace), enabled && batchSleeping, tolerant, steps) ==
                  BodyRun(net, trace, enabled && batchSleeping, tolerant, steps[i..])
      {
        assert steps[i..][1..] == steps[i + 1..];
        if steps[i].Work? {
          error := steps[i].outcome;
        } else {
          error := VisionBlocks(steps[i].outcome, tolerant);
        }
        if error.Some? {
          return;
        }
      }
    }

    /** ingestion_batch, from taking the lock to giving it back. */
    method IngestionBatch(steps: seq<Step>, tolerant: bool) returns (error: Option<Error>)
      requires !batchSleeping
      modifies this
      ensures Run(trace, error) == BatchRun(net, old(trace), enabled, tolerant, steps)
      ensures !batchSleeping && depth == old(depth)
    {
      depth := depth + 1;
      if !enabled {
        error := Body(steps, tolerant);
        depth := depth - 1;
        return;
      }
      error := Sleep();
      if error.Some? {
        depth := depth - 1;
        return;
      }
      batchSleeping := true;
      var batchError := Body(steps, tolerant);
      var wakeError := Wake();
      if batchError.Some? {
        error := if wakeError.Some? then Some(Group(batchError.value, wakeError.value)) else batchError;
      } else {
        error := wakeError;
      }
      batchSleeping := false;
      depth := depth - 1;
    }
  }

  // What every batch guarantees.

  /** The error of the body alone. */
  function ErrorOfBody(net: Network, trace: seq<Event>, tolerant: bool, steps: seq<Step>): Option<Error> {
    BodyRun(net, Extend(net, trace, true).trace, true, tolerant, steps).error
  }

  predicate CarriesWakeError(error: Option<Error>, body: Option<Error>) {
    error.Some? &&
    if body.None? then error.value.LeaseError?
    else error.value.Group? && error.value.body == body.value && error.value.wake.LeaseError?
  }

  lemma GroupIsNotItsBody(body: Option<Error>, wake: Option<Error>)
    requires wake.Some?
    ensures Joined(body, wake) != body
  {
    if body.Some? {
      var both := Group(body.value, wake.value);
      assert both.body < both;
    }
  }

  /** Once vLLM is asleep, a batch ends with exactly the outcome of its body if and only if vLLM was woken and
      found healthy as the last thing; otherwise the error carries that of the wake. */
  lemma {:induction false} BatchRestoresVllm(net: Network, trace: seq<Event>, tolerant: bool, steps: seq<Step>)
    requires Extend(net, trace, true).error.None?
    ensures var run := BatchRun(net, trace, true, tolerant, steps);
            var body := ErrorOfBody(net, trace, tolerant, steps);
            && (run.error == body <==> EndsWith(run.trace, false))
            && (run.error == body || CarriesWakeError(run.error, body))
  {
    var slept := Extend(net, trace, true);
    var body := BodyRun(net, slept.trace, true, tolerant, steps);
    var woken := Extend(net, body.trace, false);
    PerformCompletes(net, body.trace, false);
    if woken.error.Some? {
      GroupIsNotItsBody(body.error, woken.error);
    }
  }

  // Whether the body of a batch works with vLLM asleep.

  /** Both handshakes around a generation complete. */
  predicate KeepsLease(net: Network, trace: seq<Event>) {
    Extend(net, trace, false).error.None? && Extend(net, Extend(net, trace, false).trace, true).error.None?
  }

  lemma {:induction false} SleepAtEnd(trace: seq<Event>)
    ensures EndsWith(trace, true) ==>
              |trace| >= 2 && trace[|trace| - 2].request == PostSleep && trace[|trace| - 1].request == GetState
  {
    if EndsWith(trace, true) {
      var tail := trace[|trace| - 2..];
      assert tail[0] == trace[|trace| - 2] && tail[1] == trace[|trace| - 1];
    }
  }

  lemma {:induction false} BrokenWakeIsNoSleep(net: Network, trace: seq<Event>)
    requires Extend(net, trace, false).error.Some?
    ensures !EndsWith(Extend(net, trace, false).trace, true)
  {
    var at := |trace|;
    var last := Perform(net, at + 2, false, 2);
    var rest := Perform(net, at + 1, false, 1);
    var after := Extend(net, trace, false).trace;
    assert Perform(net, at + 3, false, 3) == Performed([], None);
    assert after[at].request == PostWake;
    SleepAtEnd(after);
  }

  /** A generation leaves vLLM asleep, its own error raised or not, exactly when both its handshakes completed. */
  lemma {:induction false} FallbackReturnsAsleepIff(net: Network, trace: seq<Event>, outcome: Option<Error>)
    ensures var run := FallbackRun(net, trace, true, outcome);
            && (EndsWith(run.trace, true) <==> KeepsLease(net, trace))
            && (run.error.None? ==> KeepsLease(net, trace))
            && (!KeepsLease(net, trace) ==> run.error.Some? && run.error.value.LeaseError?)
  {
    var woken := Extend(net, trace, false);
    PerformCompletes(net, trace, false);
    if woken.error.Some? {
      BrokenWakeIsNoSleep(net, trace);
    } else {
      PerformCompletes(net, woken.trace, true);
    }
  }

  /** The last generation of a body, if there was one, broke its lease. */
  function LeaseBroken(net: Network, trace: seq<Event>, tolerant: bool, steps: seq<Step>, before: bool): bool
    decreases |steps|
  {
    if steps == [] then before
    else LeaseBroken(net, StepRun(net, trace, true, tolerant, steps[0]).trace, tolerant, steps[1..],
                     if steps[0].Generate? then !KeepsLease(net, trace) else before)
  }

  lemma {:induction false} BodyTracksLease(net: Network, trace: seq<Event>, tolerant: bool, steps: seq<Step>,
                                           before: bool)
    requires (EndsWith(trace, true) <==> !before) && BodyRun(net, trace, true, tolerant, steps).error.None?
    ensures EndsWith(BodyRun(net, trace, true, tolerant, steps).trace, true) <==>
            !LeaseBroken(net, trace, tolerant, steps, before)
    decreases |steps|
  {
    if steps != [] {
      var first := StepRun(net, trace, true, tolerant, steps[0]);
      if steps[0].Generate? {
        FallbackReturnsAsleepIff(net, trace, steps[0].outcome);
        BodyTracksLease(net, first.trace, tolerant, steps[1..], !KeepsLease(net, trace));
      } else {
        BodyTracksLease(net, first.trace, tolerant, steps[1..], before);
      }
    }
  }

  /** A body that starts with vLLM asleep and returns normally ends with vLLM asleep, after whatever steps, exactly
      unless its last generation broke its lease, which the body can only survive by swallowing the error. */
  lemma {:induction false} BodyEndsAsleepIff(net: Network, trace: seq<Event>, tolerant: bool, steps: seq<Step>)
    requires EndsWith(trace, true) && BodyRun(net, trace, true, tolerant, steps).error.None?
    ensures EndsWith(BodyRun(net, trace, true, tolerant, steps).trace, true) <==>
            !LeaseBroken(net, trace, tolerant, steps, false)
    ensures !tolerant ==> !LeaseBroken(net, trace, tolerant, steps, false)
  {
    BodyTracksLease(net, trace, tolerant, steps, false);
    if !tolerant {
      StrictBodyKeepsLease(net, trace, steps);
    }
  }

  lemma {:induction false} StrictBodyKeepsLease(net: Network, trace: seq<Event>, steps: seq<Step>)
    requires BodyRun(net, trace, true, false, steps).error.None?
    ensures !LeaseBroken(net, trace, false, steps, false)
    decreases |steps|
  {
    if steps != [] {
      if steps[0].Generate? {
        FallbackReturnsAsleepIff(net, trace, steps[0].outcome);
      }
      StrictBodyKeepsLease(net, StepRun(net, trace, true, false, steps[0]).trace, steps[1..]);
    }
  }

  ghost predicate AlwaysEndsAsleep(tolerant: bool) {
    forall net: Network, trace, steps |
        EndsWith(trace, true) && BodyRun(net, trace, true, tolerant, steps).error.None? ::
      EndsWith(BodyRun(net, trace, true, tolerant, steps).trace, true)
  }

  /** What reading a page under the lease means for the batch: with the lease kept, only what the generation raised can
      end the body, and under a tolerant parser only if it is no RuntimeError; with the lease broken, a strict parser
      ends the body and a tolerant one goes on, with vLLM not known to sleep. */
  lemma {:induction false} PageEndsBodyIff(net: Network, trace: seq<Event>, tolerant: bool, outcome: Option<Error>)
    ensures var run := PageRun(net, trace, true, tolerant, outcome);
            && (EndsWith(run.trace, true) <==> KeepsLease(net, trace))
            && (KeepsLease(net, trace) ==>
                  run.error == if tolerant && outcome.Some? && outcome.value.IsRuntime() then None else outcome)
            && (!KeepsLease(net, trace) ==>
                  if tolerant then run.error.None? else run.error.Some? && run.error.value.LeaseError?)
  {
    FallbackReturnsAsleepIff(net, trace, outcome);
  }

  lemma {:induction false} OneStepBody(net: Network, trace: seq<Event>, tolerant: bool, step: Step)
    requires StepRun(net, trace, true, tolerant, step).error.None?
    ensures BodyRun(net, trace, true, tolerant, [step]) == Run(StepRun(net, trace, true, tolerant, step).trace, None)
  {
    assert [step][1..] == [];
  }

  lemma {:induction false} SleepingTrace() returns (trace: seq<Event>)
    ensures EndsWith(trace, true)
  {
    trace := [Event(PostSleep, Other), Event(GetState, State(true))];
    assert trace[0..] == trace;
  }

  lemma {:induction false} FirstWakeFails(net: Network, trace: seq<Event>)
    requires net(|trace|) == Failed
    ensures Extend(net, trace, false).error.Some?
    ensures StepRun(net, trace, true, true, Generate(None)) == Run(Extend(net, trace, false).trace, None)
  {
  }

  /** One generation whose wake fails at its first request, under a parser that swallows the error. */
  lemma {:induction false} TolerantBodyEndsAwake() returns (net: Network, trace: seq<Event>, steps: seq<Step>)
    ensures EndsWith(trace, true) && BodyRun(net, trace, true, true, steps).error.None?
    ensures !EndsWith(BodyRun(net, trace, true, true, steps).trace, true)
  {
    net := (n: nat) => Failed;
    trace := SleepingTrace();
    steps := [Generate(None)];
    FirstWakeFails(net, trace);
    BrokenWakeIsNoSleep(net, trace);
    OneStepBody(net, trace, true, Generate(None));
  }

  /** Bodies that return normally always end with vLLM asleep exactly when the parser is set to fail on a page it cannot
      read: a tolerant parser goes on after the first request of a failed wake. */
  lemma {:induction false} BodiesEndAsleepIffStrict(tolerant: bool)
    ensures AlwaysEndsAsleep(tolerant) <==> !tolerant
  {
    if !tolerant {
      forall net: Network, trace, steps
          | EndsWith(trace, true) && BodyRun(net, trace, true, tolerant, steps).error.None?
        ensures EndsWith(BodyRun(net, trace, true, tolerant, steps).trace, true)
      {
        BodyEndsAsleepIff(net, trace, tolerant, steps);
      }
    } else {
      var net, trace, steps := TolerantBodyEndsAwake();
    }
  }

  /** Wakes are asked for exactly when the first handshake went through: a batch that fails while putting vLLM to
      sleep makes no attempt to wake it. */
  lemma {:induction false} WakeIsTriedIff(net: Network, trace: seq<Event>, tolerant: bool, steps: seq<Step>)
    ensures var run := BatchRun(net, trace, true, tolerant, steps);
            |run.trace| >= |trace| &&
            ((exists i :: |trace| <= i < |run.trace| && run.trace[i].request == PostWake) <==>
             Extend(net, trace, true).error.None?)
  {
    var slept := Extend(net, trace, true);
    assert Perform(net, |trace| + 2, true, 2) == Performed([], None);
    assert Perform(net, |trace| + 1, true, 1).events == [Event(GetState, net(|trace| + 1))];
    if slept.error.None? {
      var body := BodyRun(net, slept.trace, true, tolerant, steps);
      BodyGrows(net, slept.trace, true, tolerant, steps);
      var woken := Extend(net, body.trace, false);
      assert woken.trace[|body.trace|].request == PostWake;
    }
  }

  lemma {:induction false} BodyGrows(net: Network, trace: seq<Event>, leased: bool, tolerant: bool, steps: seq<Step>)
    ensures |BodyRun(net, trace, leased, tolerant, steps).trace| >= |trace|
    decreases |steps|
  {
    if steps != [] {
      BodyGrows(net, StepRun(net, trace, leased, tolerant, steps[0]).trace, leased, tolerant, steps[1..]);
    }
  }

  /** So the promise to restore vLLM fails when the request to sleep is obeyed but the state cannot be read. */
  lemma {:induction false} SleepCanBeLeftBehind(trace: seq<Event>, tolerant: bool, steps: seq<Step>)
    ensures var net: Network := (n: nat) => if n == |trace| then Other else Failed;
            BatchRun(net, trace, true, tolerant, steps) ==
              Run(trace + [Event(PostSleep, Other), Event(GetState, Failed)],
                  Some(LeaseError(RequestFailed(GetState))))
  {
    var net: Network := (n: nat) => if n == |trace| then Other else Failed;
    assert Perform(net, |trace| + 1, true, 1) ==
           Performed([Event(GetState, Failed)], Some(LeaseError(RequestFailed(GetState))));
    assert [Event(PostSleep, Other)] + [Event(GetState, Failed)] == [Event(PostSleep, Other), Event(GetState, Failed)];
  }
}
