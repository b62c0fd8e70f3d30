/** A whole batch as one thread of a schedule: it makes the requests that the lease makes of the same network, and ends
    as the lease ends it. */
module BatchSchedules {
  import opened Outcomes
  import opened LeaseSchedules
  import G = GpuLease

  /** A state that a thread has reached, and the number of the next reply of the network. */
  datatype Reached = Reached(state: State, at: nat)

  function EndingOf(outcome: Option<G.Error>): Ending {
    match outcome
    case None => Normal
    case Some(error) => if error.IsRuntime() then RuntimeRaised else OtherRaised
  }

  /** The thread's answers to a whole handshake. */
  function Handshaken(setup: Setup, from: Reached, t: nat, net: G.Network, obeys: nat -> bool, target: bool)
    : Option<Reached>
  {
    match Shake(setup, from.state, t, net, obeys, from.at, target, 0)
    case None => None
    case Some(after) => Some(Reached(after, from.at + |G.Perform(net, from.at, target, 0).events|))
  }

  /** One generation, from the body and back to it or out of it. */
  function Generated(setup: Setup, from: Reached, t: nat, net: G.Network, obeys: nat -> bool, outcome: Option<G.Error>)
    : Option<Reached>
  {
    match Next(setup, from.state, t, StartGeneration)
    case None => None
    case Some(started) =>
      match Handshaken(setup, Reached(started, from.at), t, net, obeys, false)
      case None => None
      case Some(woken) =>
        if !PhaseOf(woken.state, t).Generating? then Some(woken)
        else
          match Next(setup, woken.state, t, EndGeneration(EndingOf(outcome)))
          case None => None
          case Some(ended) => Handshaken(setup, Reached(ended, woken.at), t, net, obeys, true)
  }

  function Ended(setup: Setup, from: Reached, t: nat, raised: bool): Option<Reached> {
    match Next(setup, from.state, t, EndBody(raised))
    case None => None
    case Some(over) => Some(Reached(over, from.at))
  }

  /** The body of a batch. */
  function Body(setup: Setup, from: Reached, t: nat, net: G.Network, obeys: nat -> bool, steps: seq<G.Step>)
    : Option<Reached>
    decreases |steps|
  {
    if steps == [] then Ended(setup, from, t, false)
    else
      match steps[0]
      case Work(outcome) =>
        if outcome.Some? then Ended(setup, from, t, true) else Body(setup, from, t, net, obeys, steps[1..])
      case Generate(outcome) =>
        match Generated(setup, from, t, net, obeys, outcome)
        case None => None
        case Some(page) =>
          if PhaseOf(page.state, t).Inside? then Body(setup, page, t, net, obeys, steps[1..]) else Some(page)
  }

  /** A batch up to the wake handshake that ends it, if it gets that far. */
  function UpToWake(setup: Setup, from: Reached, t: nat, net: G.Network, obeys: nat -> bool, steps: seq<G.Step>)
    : Option<Reached>
  {
    match Next(setup, from.state, t, Begin(Ingesting))
    case None => None
    case Some(began) =>
      match Handshaken(setup, Reached(began, from.at), t, net, obeys, true)
      case None => None
      case Some(entered) =>
        if PhaseOf(entered.state, t).Inside? then Body(setup, entered, t, net, obeys, steps) else Some(entered)
  }

  function Batch(setup: Setup, from: Reached, t: nat, net: G.Network, obeys: nat -> bool, steps: seq<G.Step>)
    : Option<Reached>
  {
    match UpToWake(setup, from, t, net, obeys, steps)
    case None => None
    case Some(over) =>
      if PhaseOf(over.state, t).Leaving? then Handshaken(setup, over, t, net, obeys, false) else Some(over)
  }

  // It is a schedule.

  /** Some schedule of steps of this thread alone leads from one state to another. */
  ghost predicate LeadsTo(setup: Setup, s: State, t: nat, now: State) {
    exists steps: seq<Step> :: (forall step | step in steps :: step.thread == t) && Exec(setup, s, steps) == Some(now)
  }

  lemma {:induction false} LeadsFurther(setup: Setup, s: State, t: nat, now: State, action: Action)
    requires LeadsTo(setup, s, t, now) && Next(setup, now, t, action).Some?
    ensures LeadsTo(setup, s, t, Next(setup, now, t, action).value)
  {
    var steps: seq<Step> :| (forall step | step in steps :: step.thread == t) && Exec(setup, s, steps) == Some(now);
    var longer := steps + [Step(t, action)];
    assert longer[..|steps|] == steps;
    assert Exec(setup, s, longer) == Next(setup, now, t, action);
  }

  lemma {:induction false} ShakeLeads(setup: Setup, s: State, now: State, t: nat, net: G.Network, obeys: nat -> bool,
                                      at: nat, target: bool, next: nat)
    requires LeadsTo(setup, s, t, now) && next < |G.Handshake(target)|
    requires Shake(setup, now, t, net, obeys, at, target, next).Some?
    ensures LeadsTo(setup, s, t, Shake(setup, now, t, net, obeys, at, target, next).value)
    decreases |G.Handshake(target)| - next
  {
    var action := Answer(net(at), obeys(at));
    LeadsFurther(setup, s, t, now, action);
    if G.Accepts(target, G.Handshake(target)[next], net(at)) && next + 1 < |G.Handshake(target)| {
      ShakeLeads(setup, s, Next(setup, now, t, action).value, t, net, obeys, at + 1, target, next + 1);
    }
  }

  lemma {:induction false} GenerationLeads(setup: Setup, s: State, from: Reached, t: nat, net: G.Network,
                                           obeys: nat -> bool, outcome: Option<G.Error>)
    requires LeadsTo(setup, s, t, from.state) && Generated(setup, from, t, net, obeys, outcome).Some?
    ensures LeadsTo(setup, s, t, Generated(setup, from, t, net, obeys, outcome).value.state)
  {
    LeadsFurther(setup, s, t, from.state, StartGeneration);
    var started := Next(setup, from.state, t, StartGeneration).value;
    ShakeLeads(setup, s, started, t, net, obeys, from.at, false, 0);
    var woken := Handshaken(setup, Reached(started, from.at), t, net, obeys, false).value;
    if PhaseOf(woken.state, t).Generating? {
      LeadsFurther(setup, s, t, woken.state, EndGeneration(EndingOf(outcome)));
      var ended := Next(setup, woken.state, t, EndGeneration(EndingOf(outcome))).value;
      ShakeLeads(setup, s, ended, t, net, obeys, woken.at, true, 0);
    }
  }

  lemma {:induction false} BodyLeads(setup: Setup, s: State, from: Reached, t: nat, net: G.Network, obeys: nat -> bool,
                                     steps: seq<G.Step>)
    requires LeadsTo(setup, s, t, from.state) && Body(setup, from, t, net, obeys, steps).Some?
    ensures LeadsTo(setup, s, t, Body(setup, from, t, net, obeys, steps).value.state)
    decreases |steps|
  {
    if steps == [] {
      LeadsFurther(setup, s, t, from.state, EndBody(false));
    } else if steps[0].Generate? {
      GenerationLeads(setup, s, from, t, net, obeys, steps[0].outcome);
      var page := Generated(setup, from, t, net, obeys, steps[0].outcome).value;
      if PhaseOf(page.state, t).Inside? {
        BodyLeads(setup, s, page, t, net, obeys, steps[1..]);
      }
    } else if steps[0].outcome.Some? {
      LeadsFurther(setup, s, t, from.state, EndBody(true));
    } else {
      BodyLeads(setup, s, from, t, net, obeys, steps[1..]);
    }
  }

  lemma {:induction false} BatchLeads(setup: Setup, from: Reached, t: nat, net: G.Network, obeys: nat -> bool,
                                      steps: seq<G.Step>)
    requires Batch(setup, from, t, net, obeys, steps).Some?
    ensures LeadsTo(setup, from.state, t, Batch(setup, from, t, net, obeys, steps).value.state)
  {
    var s := from.state;
    assert Exec(setup, s, []) == Some(s);
    assert LeadsTo(setup, s, t, s);
    LeadsFurther(setup, s, t, s, Begin(Ingesting));
    var began := Next(setup, s, t, Begin(Ingesting)).value;
    ShakeLeads(setup, s, began, t, net, obeys, from.at, true, 0);
    var entered := Handshaken(setup, Reached(began, from.at), t, net, obeys, true).value;
    if PhaseOf(entered.state, t).Inside? {
      BodyLeads(setup, s, entered, t, net, obeys, steps);
    }
    var over := UpToWake(setup, from, t, net, obeys, steps).value;
    if PhaseOf(over.state, t).Leaving? {
      ShakeLeads(setup, s, over.state, t, net, obeys, over.at, false, 0);
    }
  }

  // It is the lease's batch.

  lemma {:induction false} HandshakeEnds(setup: Setup, from: Reached, t: nat, net: G.Network, obeys: nat -> bool,
                                         trace: seq<G.Event>, target: bool, now: Reached)
    requires Pending(PhaseOf(from.state, t)) == Some((target, 0)) && from.at == |trace|
    requires Handshaken(setup, from, t, net, obeys, target) == Some(now)
    ensures now.at == |G.Extend(net, trace, target).trace|
    ensures now.state == Outcome(setup, from.state.(asleep := now.state.asleep), t, PhaseOf(from.state, t),
                                 G.Extend(net, trace, target).error)
  {
    HandshakeIsPerformed(setup, from.state, t, net, obeys, from.at, target, 0, now.state);
  }

  /** The state of a thread that owns the lock, with its phase changed. */
  predicate OnlyMoved(s: State, t: nat, now: State, phase: Phase) {
    now == Goto(s.(asleep := now.asleep), t, phase)
  }

  lemma {:induction false} MovedTwice(s: State, t: nat, a: State, p: Phase, b: State, q: Phase)
    requires OnlyMoved(s, t, a, p) && OnlyMoved(a, t, b, q)
    ensures OnlyMoved(s, t, b, q) && PhaseOf(b, t) == q
  {
    GotoForgets(s.(asleep := b.asleep), t, p, q);
  }

  /** Where a page leaves the body. */
  function PageEnd(setup: Setup, net: G.Network, trace: seq<G.Event>, outcome: Option<G.Error>): Phase {
    if !G.KeepsLease(net, trace) then AfterBrokenLease(setup)
    else if GoesOn(setup, EndingOf(outcome)) then Inside(Ingesting, false)
    else Leaving(Ingesting, true, 0)
  }

  lemma {:induction false} WakeMoves(setup: Setup, from: Reached, t: nat, net: G.Network, obeys: nat -> bool,
                                     trace: seq<G.Event>, now: Reached)
    requires PhaseOf(from.state, t) == WakingToGenerate(0) && from.at == |trace|
    requires Handshaken(setup, from, t, net, obeys, false) == Some(now)
    ensures now.at == |G.Extend(net, trace, false).trace|
    ensures OnlyMoved(from.state, t, now.state,
                      if G.Extend(net, trace, false).error.None? then Generating(true) else AfterBrokenLease(setup))
  {
    HandshakeEnds(setup, from, t, net, obeys, trace, false, now);
  }

  lemma {:induction false} SleepMoves(setup: Setup, from: Reached, t: nat, net: G.Network, obeys: nat -> bool,
                                      trace: seq<G.Event>, ending: Ending, now: Reached)
    requires PhaseOf(from.state, t) == SleepingAgain(ending, 0) && from.at == |trace|
    requires Handshaken(setup, from, t, net, obeys, true) == Some(now)
    ensures now.at == |G.Extend(net, trace, true).trace|
    ensures OnlyMoved(from.state, t, now.state,
                      if G.Extend(net, trace, true).error.Some? then AfterBrokenLease(setup)
                      else if GoesOn(setup, ending) then Inside(Ingesting, false) else Leaving(Ingesting, true, 0))
  {
    HandshakeEnds(setup, from, t, net, obeys, trace, true, now);
  }

  lemma {:induction false} GenerationStarts(setup: Setup, s: State, t: nat)
    requires setup.enabled && s.flag && PhaseOf(s, t).Inside? && PhaseOf(s, t).role == Ingesting
    ensures Next(setup, s, t, StartGeneration) == Some(Goto(s, t, WakingToGenerate(0)))
    ensures PhaseOf(Goto(s, t, WakingToGenerate(0)), t) == WakingToGenerate(0)
  {
  }

  lemma {:induction false} GenerationEnds(setup: Setup, s: State, t: nat, ending: Ending)
    requires PhaseOf(s, t) == Generating(true)
    ensures Next(setup, s, t, EndGeneration(ending)) == Some(Goto(s, t, SleepingAgain(ending, 0)))
    ensures PhaseOf(Goto(s, t, SleepingAgain(ending, 0)), t) == SleepingAgain(ending, 0)
  {
  }

  lemma {:induction false} MovedPhase(s: State, t: nat, now: State, phase: Phase)
    requires OnlyMoved(s, t, now, phase)
    ensures PhaseOf(now, t) == phase && now.flag == s.flag
  {
  }

  lemma {:induction false} GenerationIsPerformed(setup: Setup, from: Reached, t: nat, net: G.Network,
                                                 obeys: nat -> bool, trace: seq<G.Event>, outcome: Option<G.Error>,
                                                 now: Reached)
    requires setup.enabled && from.state.flag && from.at == |trace|
    requires PhaseOf(from.state, t).Inside? && PhaseOf(from.state, t).role == Ingesting
    requires Generated(setup, from, t, net, obeys, outcome) == Some(now)
    ensures now.at == |G.PageRun(net, trace, true, setup.tolerant, outcome).trace|
    ensures OnlyMoved(from.state, t, now.state, PageEnd(setup, net, trace, outcome))
  {
    var ending, awake := EndingOf(outcome), G.Extend(net, trace, false);
    GenerationStarts(setup, from.state, t);
    var started := Reached(Goto(from.state, t, WakingToGenerate(0)), from.at);
    var woken := Handshaken(setup, started, t, net, obeys, false).value;
    WakeMoves(setup, started, t, net, obeys, trace, woken);
    var phase := if awake.error.None? then Generating(true) else AfterBrokenLease(setup);
    MovedPhase(started.state, t, woken.state, phase);
    MovedTwice(from.state, t, started.state, WakingToGenerate(0), woken.state, phase);
    if awake.error.None? {
      GenerationEnds(setup, woken.state, t, ending);
      var ended := Reached(Goto(woken.state, t, SleepingAgain(ending, 0)), woken.at);
      MovedTwice(from.state, t, woken.state, Generating(true), ended.state, SleepingAgain(ending, 0));
      SleepMoves(setup, ended, t, net, obeys, awake.trace, ending, now);
      MovedTwice(from.state, t, ended.state, SleepingAgain(ending, 0), now.state, PageEnd(setup, net, trace, outcome));
    }
  }

  lemma {:induction false} PageGoesOnIff(setup: Setup, net: G.Network, trace: seq<G.Event>, outcome: Option<G.Error>)
    ensures var run := G.PageRun(net, trace, true, setup.tolerant, outcome);
            && (run.error.None? <==> PageEnd(setup, net, trace, outcome).Inside?)
            && (run.error.Some? ==> PageEnd(setup, net, trace, outcome) == Leaving(Ingesting, true, 0))
  {
    G.PageEndsBodyIff(net, trace, setup.tolerant, outcome);
  }

  /** The body ends at the number of requests at which the lease's does, failed exactly if that raised. */
  lemma {:induction false} BodyIsPerformed(setup: Setup, from: Reached, t: nat, net: G.Network, obeys: nat -> bool,
                                           trace: seq<G.Event>, steps: seq<G.Step>, now: Reached)
    requires setup.enabled && from.state.flag && from.at == |trace|
    requires PhaseOf(from.state, t).Inside? && PhaseOf(from.state, t).role == Ingesting
    requires Body(setup, from, t, net, obeys, steps) == Some(now)
    ensures var run := G.BodyRun(net, trace, true, setup.tolerant, steps);
            && now.at == |run.trace|
            && OnlyMoved(from.state, t, now.state, Leaving(Ingesting, run.error.Some?, 0))
    decreases |steps|
  {
    if steps != [] {
      match steps[0] {
        case Work(outcome) =>
          if outcome.None? {
            BodyIsPerformed(setup, from, t, net, obeys, trace, steps[1..], now);
          }
        case Generate(outcome) =>
          var page := Generated(setup, from, t, net, obeys, outcome).value;
          var run := G.PageRun(net, trace, true, setup.tolerant, outcome);
          GenerationIsPerformed(setup, from, t, net, obeys, trace, outcome, page);
          PageGoesOnIff(setup, net, trace, outcome);
          if run.error.None? {
            BodyIsPerformed(setup, page, t, net, obeys, run.trace, steps[1..], now);
            MovedTwice(from.state, t, page.state, PageEnd(setup, net, trace, outcome), now.state,
                       PhaseOf(now.state, t));
          }
      }
    }
  }

  /** The state of a thread that has taken the lock and entered the batch. */
  function Entered(s: State, t: nat, asleep: bool): State {
    Goto(Take(s, t, 1).(asleep := asleep, flag := true), t, Inside(Ingesting, false))
  }

  predicate Unlocked(s: State, t: nat) {
    s.owner.None? && s.depth == 0 && !s.flag && PhaseOf(s, t).Idle?
  }

  lemma {:induction false} EntryIsPerformed(setup: Setup, from: Reached, t: nat, net: G.Network, obeys: nat -> bool,
                                            trace: seq<G.Event>, began: State, entered: Reached)
    requires Unlocked(from.state, t) && from.at == |trace|
    requires began == Goto(Take(from.state, t, 1), t, Entering(Ingesting, 0))
    requires Handshaken(setup, Reached(began, from.at), t, net, obeys, true) == Some(entered)
    ensures var slept := G.Extend(net, trace, true);
            && entered.at == |slept.trace|
            && (slept.error.None? ==> entered.state == Entered(from.state, t, entered.state.asleep))
            && (slept.error.Some? ==> OnlyMoved(from.state, t, entered.state, Idle))
  {
    HandshakeEnds(setup, Reached(began, from.at), t, net, obeys, trace, true, entered);
    var base := from.state.(asleep := entered.state.asleep);
    GotoForgets(base, t, Entering(Ingesting, 0), Inside(Ingesting, false));
    GotoForgets(base, t, Entering(Ingesting, 0), Idle);
  }

  lemma {:induction false} ExitIsPerformed(setup: Setup, s: State, t: nat, over: Reached, net: G.Network,
                                           obeys: nat -> bool, trace: seq<G.Event>, entered: State, failed: bool,
                                           now: Reached)
    requires Unlocked(s, t) && over.at == |trace| && entered == Entered(s, t, entered.asleep)
    requires OnlyMoved(entered, t, over.state, Leaving(Ingesting, failed, 0))
    requires Handshaken(setup, over, t, net, obeys, false) == Some(now)
    ensures now.at == |G.Extend(net, trace, false).trace| && OnlyMoved(s, t, now.state, Idle)
  {
    HandshakeEnds(setup, over, t, net, obeys, trace, false, now);
    var base := s.(asleep := now.state.asleep);
    GotoForgets(base, t, Inside(Ingesting, false), Leaving(Ingesting, failed, 0));
    GotoForgets(base, t, Leaving(Ingesting, failed, 0), Idle);
    GotoForgets(base, t, Inside(Ingesting, false), Idle);
  }

  /** A batch that one thread runs in a schedule of its own steps makes as many requests as the lease makes of the same
      network, reaches its last handshake exactly if the lease does, its body failed exactly if the lease's did, and
      ends with the thread idle, the lock free and the flag clear. */
  lemma {:induction false} BatchIsPerformed(setup: Setup, from: Reached, t: nat, net: G.Network, obeys: nat -> bool,
                                            trace: seq<G.Event>, steps: seq<G.Step>, over: Reached, now: Reached)
    requires setup.enabled && from.at == |trace| && Unlocked(from.state, t)
    requires UpToWake(setup, from, t, net, obeys, steps) == Some(over)
    requires Batch(setup, from, t, net, obeys, steps) == Some(now)
    ensures LeadsTo(setup, from.state, t, now.state)
    ensures now.at == |G.BatchRun(net, trace, true, setup.tolerant, steps).trace|
    ensures PhaseOf(over.state, t) ==
              if G.Extend(net, trace, true).error.Some? then Idle
              else Leaving(Ingesting, G.ErrorOfBody(net, trace, setup.tolerant, steps).Some?, 0)
    ensures OnlyMoved(from.state, t, now.state, Idle)
  {
    BatchLeads(setup, from, t, net, obeys, steps);
    var began := Goto(Take(from.state, t, 1), t, Entering(Ingesting, 0));
    assert Next(setup, from.state, t, Begin(Ingesting)) == Some(began);
    var entered := Handshaken(setup, Reached(began, from.at), t, net, obeys, true).value;
    EntryIsPerformed(setup, from, t, net, obeys, trace, began, entered);
    var slept := G.Extend(net, trace, true);
    if slept.error.None? {
      var body := G.BodyRun(net, slept.trace, true, setup.tolerant, steps);
      BodyIsPerformed(setup, entered, t, net, obeys, slept.trace, steps, over);
      MovedPhase(entered.state, t, over.state, Leaving(Ingesting, body.error.Some?, 0));
      ExitIsPerformed(setup, from.state, t, over, net, obeys, body.trace, entered.state, body.error.Some?, now);
    } else {
      MovedPhase(from.state, t, entered.state, Idle);
    }
  }
}
