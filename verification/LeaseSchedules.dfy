/** All interleavings of threads that ingest, query or load models under one lease: a transition system over the
    re-entrant lock, the lease's flag, and the remote sleep state, in which every request may fail. */
module LeaseSchedules {
  import opened Outcomes
  import opened GpuLease

  /** Whether the lease is on, and whether the parser goes on without a page that generation could not read. */
  datatype Setup = Setup(enabled: bool, tolerant: bool)

  datatype Role = Ingesting | Querying

  /** How a generation ends: normally, with a RuntimeError, or with another exception. */
  datatype Ending = Normal | RuntimeRaised | OtherRaised

  /** Where a thread stands. The number is that of the next request of a handshake; failed says that the code under
      the lease has raised, unsure that the body has swallowed an error of the lease and has not regained it since. */
  datatype Phase =
    | Idle
    | Operating
    | Entering(role: Role, next: nat)
    | Inside(role: Role, unsure: bool)
    | WakingToGenerate(next: nat)
    | Generating(leased: bool)
    | SleepingAgain(ending: Ending, next: nat)
    | Releasing(failed: bool)
    | Leaving(role: Role, failed: bool, next: nat)
    | Reasoning

  /** The shared state: the lock, the flag _batch_sleeping, whether vLLM sleeps, and whether retrieval models
      occupy the GPU. */
  datatype State = State(owner: Option<nat>, depth: nat, flag: bool, asleep: bool, resident: bool,
                         threads: map<nat, Phase>)

  datatype Action =
    | Operate
    | EndOperation
    | Begin(role: Role)
    | Answer(reply: Reply, obeyed: bool)
    | LoadModels
    | EndBody(raised: bool)
    | StartGeneration
    | EndGeneration(ending: Ending)
    | ReleaseModels(raised: bool)
    | EndReasoning

  function PhaseOf(s: State, t: nat): Phase {
    if t in s.threads then s.threads[t] else Idle
  }

  function Goto(s: State, t: nat, phase: Phase): State {
    s.(threads := s.threads[t := phase])
  }

  /** Taking the re-entrant lock. */
  predicate CanTake(s: State, t: nat) {
    s.owner.None? || s.owner == Some(t)
  }

  function Take(s: State, t: nat, times: nat): State {
    s.(owner := Some(t), depth := s.depth + times)
  }

  function Give(s: State, times: nat): State {
    if s.depth <= times then s.(owner := None, depth := 0) else s.(depth := s.depth - times)
  }

  /** How often a thread takes the lock: a query holds it for operation() and again for ingestion_batch(). */
  function Holds(role: Role): nat {
    if role.Querying? then 2 else 1
  }

  /** The request a thread waits for, as the sleep state it asks for and its number in the handshake. */
  function Pending(phase: Phase): Option<(bool, nat)> {
    match phase
    case Entering(_, next) => Some((true, next))
    case WakingToGenerate(next) => Some((false, next))
    case SleepingAgain(_, next) => Some((true, next))
    case Leaving(_, _, next) => Some((false, next))
    case _ => None
  }

  /** vLLM reports its own state truthfully, and a request that fails may have been obeyed or not. */
  predicate CanAnswer(s: State, request: Request, reply: Reply) {
    request == GetState && reply.State? ==> reply.asleep == s.asleep
  }

  function Obeyed(s: State, request: Request, reply: Reply, obeyed: bool): State {
    if reply.Failed? && !obeyed then s
    else if request == PostSleep then s.(asleep := true)
    else if request == PostWake then s.(asleep := false)
    else s
  }

  /** The thread has left the batch: the flag is cleared, and only a query whose batch raised nothing goes on. */
  function Left(s: State, t: nat, role: Role, raised: bool): State {
    if role.Querying? && !raised then Goto(Give(s.(flag := false), 1), t, Reasoning)
    else Goto(Give(s.(flag := false), Holds(role)), t, Idle)
  }

  /** The body goes on after a generation: it ended normally, or with an error that the parser swallows. */
  predicate GoesOn(setup: Setup, ending: Ending) {
    ending.Normal? || (setup.tolerant && ending.RuntimeRaised?)
  }

  /** A handshake went through. */
  function Shaken(setup: Setup, s: State, t: nat, phase: Phase): State
    requires Pending(phase).Some?
  {
    match phase
    case Entering(role, _) => Goto(s.(flag := true), t, Inside(role, false))
    case WakingToGenerate(_) => Goto(s, t, Generating(true))
    case SleepingAgain(ending, _) =>
      Goto(s, t, if GoesOn(setup, ending) then Inside(Ingesting, false) else Leaving(Ingesting, true, 0))
    case Leaving(role, failed, _) => Left(s, t, role, failed)
  }

  /** A handshake raised; around a generation this is a RuntimeError, which a tolerant parser swallows. */
  function Refused(setup: Setup, s: State, t: nat, phase: Phase): State
    requires Pending(phase).Some?
  {
    match phase
    case Entering(role, _) => Goto(Give(s, Holds(role)), t, Idle)
    case WakingToGenerate(_) => Goto(s, t, AfterBrokenLease(setup))
    case SleepingAgain(_, _) => Goto(s, t, AfterBrokenLease(setup))
    case Leaving(role, _, _) => Left(s, t, role, true)
  }

  function AfterBrokenLease(setup: Setup): Phase {
    if setup.tolerant then Inside(Ingesting, true) else Leaving(Ingesting, true, 0)
  }

  function Onward(phase: Phase): Phase
    requires Pending(phase).Some?
  {
    match phase
    case Entering(role, next) => Entering(role, next + 1)
    case WakingToGenerate(next) => WakingToGenerate(next + 1)
    case SleepingAgain(ending, next) => SleepingAgain(ending, next + 1)
    case Leaving(role, failed, next) => Leaving(role, failed, next + 1)
  }

  function Answered(setup: Setup, s: State, t: nat, reply: Reply, obeyed: bool): Option<State> {
    var phase := PhaseOf(s, t);
    match Pending(phase)
    case None => None
    case Some((target, next)) =>
      if next >= |Handshake(target)| || !CanAnswer(s, Handshake(target)[next], reply) then None
      else
        var after := Obeyed(s, Handshake(target)[next], reply, obeyed);
        Some(if !Accepts(target, Handshake(target)[next], reply) then Refused(setup, after, t, phase)
             else if next + 1 == |Handshake(target)| then Shaken(setup, after, t, phase)
             else Goto(after, t, Onward(phase)))
  }

  /** The code under the batch is over. */
  function BodyOver(setup: Setup, s: State, t: nat, role: Role, raised: bool): State {
    if !setup.enabled then Left(s, t, role, raised)
    else if role.Querying? then Goto(s, t, Releasing(raised))
    else Goto(s, t, Leaving(role, raised, 0))
  }

  /** One step of one thread; none if the thread cannot take it. */
  function Next(setup: Setup, s: State, t: nat, action: Action): Option<State> {
    var phase := PhaseOf(s, t);
    match action
    case Operate =>
      if phase.Idle? && CanTake(s, t) then Some(Goto(Take(s, t, 1), t, Operating)) else None
    case EndOperation =>
      if phase.Operating? then Some(Goto(Give(s, 1), t, Idle)) else None
    case Begin(role) =>
      if phase.Idle? && CanTake(s, t) then
        Some(Goto(Take(s, t, Holds(role)), t, if setup.enabled then Entering(role, 0) else Inside(role, false)))
      else None
    case Answer(reply, obeyed) => Answered(setup, s, t, reply, obeyed)
    case LoadModels =>
      if phase.Inside? && phase.role.Querying? then Some(s.(resident := true)) else None
    case EndBody(raised) =>
      if phase.Inside? then Some(BodyOver(setup, s, t, phase.role, raised)) else None
    case StartGeneration =>
      if phase.Inside? && phase.role.Ingesting? then
        Some(Goto(s, t, if setup.enabled && s.flag then WakingToGenerate(0) else Generating(false)))
      else None
    case EndGeneration(ending) =>
      if !phase.Generating? then None
      else if phase.leased then Some(Goto(s, t, SleepingAgain(ending, 0)))
      else if GoesOn(setup, ending) then Some(Goto(s, t, Inside(Ingesting, false)))
      else Some(BodyOver(setup, s, t, Ingesting, true))
    case ReleaseModels(raised) =>
      if phase.Releasing? then
        Some(Goto(if raised then s else s.(resident := false), t, Leaving(Querying, phase.failed || raised, 0)))
      else None
    case EndReasoning =>
      if phase.Reasoning? then Some(Goto(Give(s, 1), t, Idle)) else None
  }

  datatype Step = Step(thread: nat, action: Action)

  /** A schedule: steps of any threads in any order. */
  function Exec(setup: Setup, s: State, steps: seq<Step>): Option<State> {
    if steps == [] then Some(s)
    else
      match Exec(setup, s, steps[..|steps| - 1])
      case None => None
      case Some(before) => Next(setup, before, steps[|steps| - 1].thread, steps[|steps| - 1].action)
  }

  lemma {:induction false} ExecBefore(setup: Setup, s: State, steps: seq<Step>) returns (now: State)
    requires steps != [] && Exec(setup, s, steps).Some?
    ensures Exec(setup, s, steps[..|steps| - 1]) == Some(now)
    ensures Exec(setup, s, steps) == Next(setup, now, steps[|steps| - 1].thread, steps[|steps| - 1].action)
  {
    now := Exec(setup, s, steps[..|steps| - 1]).value;
  }

  /** Before any thread starts; vLLM and the GPU may be in any state. */
  predicate Start(s: State) {
    s.owner.None? && s.depth == 0 && !s.flag && s.threads == map[]
  }

  // The invariant.

  function Depth(phase: Phase): nat {
    match phase
    case Idle => 0
    case Entering(role, _) => Holds(role)
    case Inside(role, _) => Holds(role)
    case Leaving(role, _, _) => Holds(role)
    case Releasing(_) => 2
    case _ => 1
  }

  predicate UnderBatch(phase: Phase) {
    phase.Inside? || phase.WakingToGenerate? || phase.Generating? || phase.SleepingAgain? || phase.Releasing? ||
    phase.Leaving?
  }

  /** What a thread's phase says about vLLM and the GPU. */
  predicate Sound(setup: Setup, s: State, phase: Phase) {
    match phase
    case Idle => true
    case Operating => true
    case Entering(_, next) => setup.enabled && next <= 1 && (next == 1 ==> s.asleep)
    case Inside(role, unsure) =>
      && (setup.enabled && !unsure ==> s.asleep)
      && (unsure ==> setup.enabled && setup.tolerant && role.Ingesting?)
    case WakingToGenerate(next) => setup.enabled && next <= 2 && (next >= 1 ==> !s.asleep)
    case Generating(leased) => leased == setup.enabled && (setup.enabled ==> !s.asleep)
    case SleepingAgain(_, next) => setup.enabled && next <= 1 && (next == 1 ==> s.asleep)
    case Releasing(_) => setup.enabled && s.asleep
    case Leaving(role, failed, next) =>
      setup.enabled && next <= 2 && (next >= 1 ==> !s.asleep) && (role.Querying? && !failed ==> !s.resident)
    case Reasoning => setup.enabled ==> !s.asleep && !s.resident
  }

  ghost predicate Inv(setup: Setup, s: State) {
    && (forall t | t in s.threads && !s.threads[t].Idle? :: s.owner == Some(t))
    && s.depth == (if s.owner.Some? then Depth(PhaseOf(s, s.owner.value)) else 0)
    && (s.owner.Some? ==> !PhaseOf(s, s.owner.value).Idle? && Sound(setup, s, PhaseOf(s, s.owner.value)))
    && (s.flag <==> setup.enabled && s.owner.Some? && UnderBatch(PhaseOf(s, s.owner.value)))
  }

  /** A new phase for the owner, with the lock as that phase needs it, keeps the invariant. */
  lemma {:induction false} OwnerMoves(setup: Setup, s: State, t: nat, after: State)
    requires Inv(setup, s) && CanTake(s, t)
    requires t in after.threads && after.threads == s.threads[t := after.threads[t]]
    requires after.owner == (if after.threads[t].Idle? then None else Some(t))
    requires after.depth == Depth(after.threads[t])
    requires after.flag <==> setup.enabled && UnderBatch(after.threads[t])
    requires Sound(setup, after, after.threads[t])
    ensures Inv(setup, after)
  {
    forall u | u in after.threads && !after.threads[u].Idle? ensures after.owner == Some(u) {
    }
  }

  /** The sleep state a thread's handshake asks for is reached once its first request is accepted. */
  lemma ObeyedWhenAccepted(s: State, target: bool, next: nat, reply: Reply, obeyed: bool)
    requires next < |Handshake(target)| && (next >= 1 ==> s.asleep == target)
    requires CanAnswer(s, Handshake(target)[next], reply) && Accepts(target, Handshake(target)[next], reply)
    ensures Obeyed(s, Handshake(target)[next], reply, obeyed) == s.(asleep := target)
  {
  }

  lemma ObeyedTouchesSleepOnly(s: State, request: Request, reply: Reply, obeyed: bool)
    ensures var after := Obeyed(s, request, reply, obeyed); after == s.(asleep := after.asleep)
  {
  }

  lemma {:induction false} RefusalKeepsInvariant(setup: Setup, s: State, t: nat, phase: Phase, asleep: bool)
    requires Inv(setup, s) && s.owner == Some(t) && phase == PhaseOf(s, t) && Pending(phase).Some?
    ensures Inv(setup, Refused(setup, s.(asleep := asleep), t, phase))
  {
    OwnerMoves(setup, s, t, Refused(setup, s.(asleep := asleep), t, phase));
  }

  lemma {:induction false} CompletionKeepsInvariant(setup: Setup, s: State, t: nat, phase: Phase)
    requires Inv(setup, s) && s.owner == Some(t) && phase == PhaseOf(s, t) && Pending(phase).Some?
    ensures Inv(setup, Shaken(setup, s.(asleep := Pending(phase).value.0), t, phase))
  {
    OwnerMoves(setup, s, t, Shaken(setup, s.(asleep := Pending(phase).value.0), t, phase));
  }

  lemma {:induction false} ProgressKeepsInvariant(setup: Setup, s: State, t: nat, phase: Phase)
    requires Inv(setup, s) && s.owner == Some(t) && phase == PhaseOf(s, t) && Pending(phase).Some?
    requires Pending(phase).value.1 + 1 < |Handshake(Pending(phase).value.0)|
    ensures Inv(setup, Goto(s.(asleep := Pending(phase).value.0), t, Onward(phase)))
  {
    OwnerMoves(setup, s, t, Goto(s.(asleep := Pending(phase).value.0), t, Onward(phase)));
  }

  lemma {:induction false} AnswerKeepsInvariant(setup: Setup, s: State, t: nat, reply: Reply, obeyed: bool)
    requires Inv(setup, s) && Answered(setup, s, t, reply, obeyed).Some?
    ensures Inv(setup, Answered(setup, s, t, reply, obeyed).value)
  {
    var phase := PhaseOf(s, t);
    assert s.owner == Some(t);
    var (target, next) := Pending(phase).value;
    var request := Handshake(target)[next];
    ObeyedTouchesSleepOnly(s, request, reply, obeyed);
    if !Accepts(target, request, reply) {
      RefusalKeepsInvariant(setup, s, t, phase, Obeyed(s, request, reply, obeyed).asleep);
    } else {
      assert next >= 1 ==> s.asleep == target;
      ObeyedWhenAccepted(s, target, next, reply, obeyed);
      if next + 1 == |Handshake(target)| {
        CompletionKeepsInvariant(setup, s, t, phase);
      } else {
        ProgressKeepsInvariant(setup, s, t, phase);
      }
    }
  }

  lemma {:induction false} BodyStepKeepsInvariant(setup: Setup, s: State, t: nat, action: Action)
    requires Inv(setup, s) && Next(setup, s, t, action).Some?
    requires action.EndBody? || action.StartGeneration? || action.EndGeneration? || action.ReleaseModels?
    ensures Inv(setup, Next(setup, s, t, action).value)
  {
    assert s.owner == Some(t);
    OwnerMoves(setup, s, t, Next(setup, s, t, action).value);
  }

  lemma {:induction false} PhaseStepKeepsInvariant(setup: Setup, s: State, t: nat, action: Action)
    requires Inv(setup, s) && Next(setup, s, t, action).Some? && !action.Answer? && !action.LoadModels?
    ensures Inv(setup, Next(setup, s, t, action).value)
  {
    if action.EndBody? || action.StartGeneration? || action.EndGeneration? || action.ReleaseModels? {
      BodyStepKeepsInvariant(setup, s, t, action);
    } else {
      assert !PhaseOf(s, t).Idle? ==> s.owner == Some(t);
      OwnerMoves(setup, s, t, Next(setup, s, t, action).value);
    }
  }

  lemma {:induction false} StepKeepsInvariant(setup: Setup, s: State, t: nat, action: Action)
    requires Inv(setup, s) && Next(setup, s, t, action).Some?
    ensures Inv(setup, Next(setup, s, t, action).value)
  {
    if action.Answer? {
      AnswerKeepsInvariant(setup, s, t, action.reply, action.obeyed);
    } else if action.LoadModels? {
      assert s.owner == Some(t);
    } else {
      PhaseStepKeepsInvariant(setup, s, t, action);
    }
  }

  /** Every state that any schedule reaches satisfies the invariant. */
  lemma {:induction false} SchedulesKeepInvariant(setup: Setup, s: State, steps: seq<Step>)
    requires Start(s) && Exec(setup, s, steps).Some?
    ensures Inv(setup, Exec(setup, s, steps).value)
  {
    if steps != [] {
      var last := steps[|steps| - 1];
      var now := ExecBefore(setup, s, steps);
      SchedulesKeepInvariant(setup, s, steps[..|steps| - 1]);
      StepKeepsInvariant(setup, now, last.thread, last.action);
    }
  }

  // Safety.

  /** What a schedule leaves behind. */
  ghost predicate Reaches(setup: Setup, s: State, steps: seq<Step>, now: State) {
    Start(s) && Exec(setup, s, steps) == Some(now)
  }

  /** In every schedule a query reasons only while vLLM is awake and the retrieval models are released, with every
      other thread idle and unable to take any step. */
  lemma {:induction false} ReasoningOwnsTheGpu(setup: Setup, s: State, steps: seq<Step>, now: State, t: nat)
    requires setup.enabled && Reaches(setup, s, steps, now) && PhaseOf(now, t).Reasoning?
    ensures !now.asleep && !now.resident
    ensures forall u | u != t :: PhaseOf(now, u).Idle?
    ensures forall u, action | u != t :: Next(setup, now, u, action).None?
  {
    SchedulesKeepInvariant(setup, s, steps);
    assert now.owner == Some(t);
    forall u | u != t ensures PhaseOf(now, u).Idle? {
    }
    forall u, action | u != t ensures Next(setup, now, u, action).None? {
      assert PhaseOf(now, u).Idle?;
    }
  }

  /** In every schedule a batch works only while vLLM sleeps, unless its parser has swallowed an error of the lease
      and not regained it since, which only a tolerant parser does; it generates only while vLLM is awake; and at
      most one thread is not idle. */
  lemma {:induction false} BatchesOwnTheGpu(setup: Setup, s: State, steps: seq<Step>, now: State, t: nat)
    requires setup.enabled && Reaches(setup, s, steps, now)
    ensures PhaseOf(now, t).Inside? && !PhaseOf(now, t).unsure ==> now.asleep
    ensures PhaseOf(now, t).Inside? && PhaseOf(now, t).unsure ==> setup.tolerant && PhaseOf(now, t).role.Ingesting?
    ensures PhaseOf(now, t).Generating? ==> !now.asleep
    ensures !PhaseOf(now, t).Idle? ==> forall u | u != t :: PhaseOf(now, u).Idle?
  {
    SchedulesKeepInvariant(setup, s, steps);
    if !PhaseOf(now, t).Idle? {
      assert now.owner == Some(t);
      forall u | u != t ensures PhaseOf(now, u).Idle? {
      }
    }
  }

  /** A batch that works while vLLM is awake. */
  ghost predicate WorksAwake(setup: Setup, s: State, steps: seq<Step>, t: nat) {
    Exec(setup, s, steps).Some? && PhaseOf(Exec(setup, s, steps).value, t).Inside? &&
    !Exec(setup, s, steps).value.asleep
  }

  /** Some schedule has a batch work while vLLM is awake exactly when the parser is tolerant. */
  lemma {:induction false} BatchMayWorkAwakeIff(setup: Setup, s: State, t: nat)
    requires setup.enabled && Start(s)
    ensures (exists steps :: WorksAwake(setup, s, steps, t)) <==> setup.tolerant
  {
    if steps :| WorksAwake(setup, s, steps, t) {
      BatchesOwnTheGpu(setup, s, steps, Exec(setup, s, steps).value, t);
    }
    if setup.tolerant {
      var steps := SwallowedWake(setup, s, t);
    }
  }

  /** A wake that is obeyed but whose state cannot be read, swallowed. */
  lemma {:induction false} SwallowedWake(setup: Setup, s: State, t: nat) returns (steps: seq<Step>)
    requires setup.enabled && setup.tolerant && Start(s)
    ensures WorksAwake(setup, s, steps, t)
  {
    steps := EntryGoesThrough(setup, s, t, Ingesting);
    var s1 := Exec(setup, s, steps).value;
    steps := ExecStep(setup, s, steps, s1, t, StartGeneration);
    var s2 := Exec(setup, s, steps).value;
    assert PhaseOf(s2, t) == WakingToGenerate(0);
    steps := ExecStep(setup, s, steps, s2, t, Answer(Agreeing(false, 0), true));
    var s3 := Exec(setup, s, steps).value;
    assert PhaseOf(s3, t) == WakingToGenerate(1) && !s3.asleep;
    steps := ExecStep(setup, s, steps, s3, t, Answer(Failed, true));
  }

  // How vLLM is left.

  predicate InBatch(phase: Phase) {
    phase.Entering? || UnderBatch(phase)
  }

  /** A step takes its thread out of a batch. */
  predicate Exits(setup: Setup, now: State, t: nat, action: Action) {
    Next(setup, now, t, action).Some? && InBatch(PhaseOf(now, t)) &&
    !InBatch(PhaseOf(Next(setup, now, t, action).value, t))
  }

  lemma {:induction false} ExitIsAnswer(setup: Setup, now: State, t: nat, action: Action)
    requires setup.enabled && Inv(setup, now) && now.owner == Some(t) && Exits(setup, now, t, action)
    ensures action.Answer? && (PhaseOf(now, t).Entering? || PhaseOf(now, t).Leaving?)
  {
  }

  lemma {:induction false} RefusedEntryLeaves(setup: Setup, now: State, t: nat, reply: Reply, obeyed: bool)
    requires Inv(setup, now) && now.owner == Some(t) && PhaseOf(now, t).Entering?
    requires Exits(setup, now, t, Answer(reply, obeyed))
    ensures Next(setup, now, t, Answer(reply, obeyed)).value.asleep <==>
              PhaseOf(now, t).next == 1 || now.asleep || obeyed
  {
  }

  lemma {:induction false} LastWakeLeaves(setup: Setup, now: State, t: nat, reply: Reply, obeyed: bool)
    requires Inv(setup, now) && now.owner == Some(t) && PhaseOf(now, t).Leaving?
    requires Exits(setup, now, t, Answer(reply, obeyed))
    ensures Next(setup, now, t, Answer(reply, obeyed)).value.asleep <==>
              PhaseOf(now, t).next == 0 && now.asleep && !obeyed
  {
  }

  /** In every schedule, the step that leaves a batch leaves vLLM asleep in exactly these cases: the state could not be
      read after the request to sleep went through; that request failed and vLLM slept already or obeyed all the
      same; or the request to wake failed while vLLM slept, and was not obeyed. So a batch that raises no error of
      the lease leaves vLLM awake. */
  lemma {:induction false} ExitsAsleepIff(setup: Setup, s: State, steps: seq<Step>, now: State, t: nat, action: Action)
    requires setup.enabled && Reaches(setup, s, steps, now) && Exits(setup, now, t, action)
    ensures action.Answer? && (PhaseOf(now, t).Entering? || PhaseOf(now, t).Leaving?)
    ensures Next(setup, now, t, action).value.asleep <==>
              if PhaseOf(now, t).Entering? then PhaseOf(now, t).next == 1 || now.asleep || action.obeyed
              else PhaseOf(now, t).next == 0 && now.asleep && !action.obeyed
  {
    SchedulesKeepInvariant(setup, s, steps);
    assert now.owner == Some(t);
    ExitIsAnswer(setup, now, t, action);
    if PhaseOf(now, t).Entering? {
      RefusedEntryLeaves(setup, now, t, action.reply, action.obeyed);
    } else {
      LastWakeLeaves(setup, now, t, action.reply, action.obeyed);
    }
  }

  // The lease switched off.

  lemma {:induction false} DisabledStepsMakeNoRequest(setup: Setup, s: State, t: nat, action: Action)
    requires !setup.enabled && Inv(setup, s) && Next(setup, s, t, action).Some?
    ensures !action.Answer? && Next(setup, s, t, action).value.asleep == s.asleep
  {
    assert !PhaseOf(s, t).Idle? ==> s.owner == Some(t);
  }

  lemma {:induction false} LastStepMakesNoRequest(setup: Setup, s: State, steps: seq<Step>)
    requires !setup.enabled && Start(s) && Exec(setup, s, steps).Some? && steps != []
    ensures Exec(setup, s, steps[..|steps| - 1]).Some? && !steps[|steps| - 1].action.Answer?
    ensures Exec(setup, s, steps).value.asleep == Exec(setup, s, steps[..|steps| - 1]).value.asleep
  {
    var now := ExecBefore(setup, s, steps);
    SchedulesKeepInvariant(setup, s, steps[..|steps| - 1]);
    DisabledStepsMakeNoRequest(setup, now, steps[|steps| - 1].thread, steps[|steps| - 1].action);
  }

  lemma {:induction false} DisabledSchedulesMakeNoRequest(setup: Setup, s: State, steps: seq<Step>)
    requires !setup.enabled && Start(s) && Exec(setup, s, steps).Some?
    ensures Exec(setup, s, steps).value.asleep == s.asleep
    ensures forall i | 0 <= i < |steps| :: !steps[i].action.Answer?
  {
    if steps != [] {
      var before := steps[..|steps| - 1];
      LastStepMakesNoRequest(setup, s, steps);
      DisabledSchedulesMakeNoRequest(setup, s, before);
      assert forall i | 0 <= i < |before| :: steps[i] == before[i];
    }
  }

  /** With the lease off, threads still exclude one another, and no schedule makes a request to vLLM. */
  lemma {:induction false} DisabledLeaseOnlySerializes(setup: Setup, s: State, steps: seq<Step>, now: State, t: nat,
                                                       u: nat)
    requires !setup.enabled && Reaches(setup, s, steps, now) && t != u
    ensures PhaseOf(now, t).Idle? || PhaseOf(now, u).Idle?
    ensures now.asleep == s.asleep
    ensures forall i | 0 <= i < |steps| :: !steps[i].action.Answer?
  {
    SchedulesKeepInvariant(setup, s, steps);
    DisabledSchedulesMakeNoRequest(setup, s, steps);
  }

  // Schedules that nothing disturbs.

  lemma {:induction false} ExecStep(setup: Setup, s: State, steps: seq<Step>, now: State, t: nat, action: Action)
    returns (longer: seq<Step>)
    requires Exec(setup, s, steps) == Some(now)
    ensures Exec(setup, s, longer) == Next(setup, now, t, action)
  {
    longer := steps + [Step(t, action)];
    assert longer[..|steps|] == steps;
  }

  /** The obliging answer to the next request of a handshake. */
  function Agreeing(target: bool, next: nat): Reply
    requires next < |Handshake(target)|
  {
    if Handshake(target)[next] == GetState then GpuLease.State(target) else Other
  }

  /** A query that nothing fails does get to reason, from any start. */
  lemma {:induction false} QueryGetsToReason(setup: Setup, s: State, t: nat) returns (steps: seq<Step>)
    requires setup.enabled && Start(s)
    ensures Exec(setup, s, steps).Some? && PhaseOf(Exec(setup, s, steps).value, t).Reasoning?
  {
    steps := EntryGoesThrough(setup, s, t, Querying);
    steps := BodyGoesThrough(setup, s, steps, Exec(setup, s, steps).value, t);
    steps := WakeGoesThrough(setup, s, steps, Exec(setup, s, steps).value, t);
  }

  lemma {:induction false} EntryGoesThrough(setup: Setup, s: State, t: nat, role: Role) returns (steps: seq<Step>)
    requires setup.enabled && Start(s)
    ensures Exec(setup, s, steps).Some?
    ensures PhaseOf(Exec(setup, s, steps).value, t) == Inside(role, false) && Exec(setup, s, steps).value.flag
  {
    steps := ExecStep(setup, s, [], s, t, Begin(role));
    var s1 := Exec(setup, s, steps).value;
    steps := ExecStep(setup, s, steps, s1, t, Answer(Agreeing(true, 0), true));
    var s2 := Exec(setup, s, steps).value;
    assert PhaseOf(s2, t) == Entering(role, 1) && s2.asleep;
    steps := ExecStep(setup, s, steps, s2, t, Answer(Agreeing(true, 1), true));
  }

  lemma {:induction false} BodyGoesThrough(setup: Setup, s: State, steps: seq<Step>, now: State, t: nat)
    returns (longer: seq<Step>)
    requires setup.enabled && Exec(setup, s, steps) == Some(now) && PhaseOf(now, t) == Inside(Querying, false)
    ensures Exec(setup, s, longer).Some? && PhaseOf(Exec(setup, s, longer).value, t) == Leaving(Querying, false, 0)
  {
    longer := ExecStep(setup, s, steps, now, t, EndBody(false));
    var s1 := Exec(setup, s, longer).value;
    assert PhaseOf(s1, t) == Releasing(false);
    longer := ExecStep(setup, s, longer, s1, t, ReleaseModels(false));
  }

  lemma {:induction false} WakeGoesThrough(setup: Setup, s: State, steps: seq<Step>, now: State, t: nat)
    returns (longer: seq<Step>)
    requires setup.enabled && Exec(setup, s, steps) == Some(now) && PhaseOf(now, t) == Leaving(Querying, false, 0)
    ensures Exec(setup, s, longer).Some? && PhaseOf(Exec(setup, s, longer).value, t).Reasoning?
  {
    longer := ExecStep(setup, s, steps, now, t, Answer(Agreeing(false, 0), true));
    var s1 := Exec(setup, s, longer).value;
    assert PhaseOf(s1, t) == Leaving(Querying, false, 1) && !s1.asleep;
    longer := ExecStep(setup, s, longer, s1, t, Answer(Agreeing(false, 1), true));
    var s2 := Exec(setup, s, longer).value;
    assert PhaseOf(s2, t) == Leaving(Querying, false, 2);
    longer := ExecStep(setup, s, longer, s2, t, Answer(Agreeing(false, 2), true));
  }

  // The lease as one thread runs it, inside a schedule.

  /** A thread's answers from the network, from its next request to the end of its handshake. */
  function Shake(setup: Setup, s: State, t: nat, net: Network, obeys: nat -> bool, at: nat, target: bool,
                 next: nat): Option<State>
    requires next < |Handshake(target)|
    decreases |Handshake(target)| - next
  {
    match Next(setup, s, t, Answer(net(at), obeys(at)))
    case None => None
    case Some(after) =>
      if !Accepts(target, Handshake(target)[next], net(at)) || next + 1 == |Handshake(target)| then Some(after)
      else Shake(setup, after, t, net, obeys, at + 1, target, next + 1)
  }

  /** The state after a handshake with a given result. */
  function Outcome(setup: Setup, s: State, t: nat, phase: Phase, error: Option<Error>): State
    requires Pending(phase).Some?
  {
    if error.None? then Shaken(setup, s, t, phase) else Refused(setup, s, t, phase)
  }

  lemma {:induction false} GotoForgets(s: State, t: nat, phase: Phase, later: Phase)
    ensures Goto(Goto(s, t, phase), t, later) == Goto(s, t, later)
  {
    assert s.threads[t := phase][t := later] == s.threads[t := later];
  }

  lemma {:induction false} GiveCommutes(s: State, t: nat, phase: Phase, times: nat)
    ensures Give(Goto(s, t, phase), times) == Goto(Give(s, times), t, phase)
  {
  }

  lemma {:induction false} LeftForgets(s: State, t: nat, phase: Phase, role: Role, raised: bool)
    ensures Left(Goto(s, t, phase), t, role, raised) == Left(s, t, role, raised)
  {
    var cleared := s.(flag := false);
    assert Goto(s, t, phase).(flag := false) == Goto(cleared, t, phase);
    GiveCommutes(cleared, t, phase, 1);
    GiveCommutes(cleared, t, phase, Holds(role));
    GotoForgets(Give(cleared, 1), t, phase, Reasoning);
    GotoForgets(Give(cleared, Holds(role)), t, phase, Idle);
  }

  lemma {:induction false} ShakenForgets(setup: Setup, s: State, t: nat, phase: Phase)
    requires Pending(phase).Some?
    ensures Shaken(setup, Goto(s, t, Onward(phase)), t, Onward(phase)) == Shaken(setup, s, t, phase)
  {
    var moved := Onward(phase);
    match phase {
      case Entering(role, _) => GotoForgets(s.(flag := true), t, moved, Inside(role, false));
      case WakingToGenerate(_) => GotoForgets(s, t, moved, Generating(true));
      case SleepingAgain(ending, _) =>
        GotoForgets(s, t, moved, if GoesOn(setup, ending) then Inside(Ingesting, false)
                    else Leaving(Ingesting, true, 0));
      case Leaving(role, failed, _) => LeftForgets(s, t, moved, role, failed);
    }
  }

  lemma {:induction false} RefusedForgets(setup: Setup, s: State, t: nat, phase: Phase)
    requires Pending(phase).Some?
    ensures Refused(setup, Goto(s, t, Onward(phase)), t, Onward(phase)) == Refused(setup, s, t, phase)
  {
    var moved := Onward(phase);
    match phase {
      case Entering(role, _) =>
        GiveCommutes(s, t, moved, Holds(role));
        GotoForgets(Give(s, Holds(role)), t, moved, Idle);
      case WakingToGenerate(_) => GotoForgets(s, t, moved, AfterBrokenLease(setup));
      case SleepingAgain(_, _) => GotoForgets(s, t, moved, AfterBrokenLease(setup));
      case Leaving(role, _, _) => LeftForgets(s, t, moved, role, true);
    }
  }

  /** The result of a handshake does not depend on how far it had come. */
  lemma {:induction false} OutcomeForgets(setup: Setup, s: State, told: State, t: nat, phase: Phase, asleep: bool,
                                          error: Option<Error>)
    requires Pending(phase).Some? && told == s.(asleep := told.asleep)
    ensures Outcome(setup, Goto(told, t, Onward(phase)).(asleep := asleep), t, Onward(phase), error) ==
            Outcome(setup, s.(asleep := asleep), t, phase, error)
  {
    var base := s.(asleep := asleep);
    assert Goto(told, t, Onward(phase)).(asleep := asleep) == Goto(base, t, Onward(phase));
    if error.None? {
      ShakenForgets(setup, base, t, phase);
    } else {
      RefusedForgets(setup, base, t, phase);
    }
  }

  lemma {:induction false} AnswerUnfolds(setup: Setup, s: State, t: nat, reply: Reply, obeyed: bool, target: bool,
                                         next: nat)
    returns (told: State)
    requires Pending(PhaseOf(s, t)) == Some((target, next)) && next < |Handshake(target)|
    requires Next(setup, s, t, Answer(reply, obeyed)).Some?
    ensures told == s.(asleep := told.asleep)
    ensures Next(setup, s, t, Answer(reply, obeyed)).value ==
              if !Accepts(target, Handshake(target)[next], reply) then Refused(setup, told, t, PhaseOf(s, t))
              else if next + 1 == |Handshake(target)| then Shaken(setup, told, t, PhaseOf(s, t))
              else Goto(told, t, Onward(PhaseOf(s, t)))
  {
    told := Obeyed(s, Handshake(target)[next], reply, obeyed);
    ObeyedTouchesSleepOnly(s, Handshake(target)[next], reply, obeyed);
  }

  lemma OutcomeKeepsSleep(setup: Setup, s: State, t: nat, phase: Phase, error: Option<Error>)
    requires Pending(phase).Some?
    ensures Outcome(setup, s, t, phase, error).asleep == s.asleep
  {
  }

  lemma {:induction false} FinalAnswerIsPerformed(setup: Setup, s: State, t: nat, net: Network, obeyed: bool, at: nat,
                                                  target: bool, next: nat, after: State)
    requires Pending(PhaseOf(s, t)) == Some((target, next)) && next < |Handshake(target)|
    requires !Accepts(target, Handshake(target)[next], net(at)) || next + 1 == |Handshake(target)|
    requires Next(setup, s, t, Answer(net(at), obeyed)) == Some(after)
    ensures after == Outcome(setup, s.(asleep := after.asleep), t, PhaseOf(s, t), Perform(net, at, target, next).error)
  {
    var told := AnswerUnfolds(setup, s, t, net(at), obeyed, target, next);
    if Accepts(target, Handshake(target)[next], net(at)) {
      assert Perform(net, at + 1, target, next + 1) == Performed([], None);
    }
    OutcomeKeepsSleep(setup, told, t, PhaseOf(s, t), Perform(net, at, target, next).error);
  }

  lemma {:induction false} PerformedOnward(net: Network, at: nat, target: bool, next: nat)
    requires next < |Handshake(target)| && Accepts(target, Handshake(target)[next], net(at))
    ensures Perform(net, at, target, next).error == Perform(net, at + 1, target, next + 1).error
  {
  }

  lemma {:induction false} OnwardIsPending(s: State, t: nat, phase: Phase, target: bool, next: nat)
    requires Pending(phase) == Some((target, next)) && next + 1 < |Handshake(target)|
    ensures PhaseOf(Goto(s, t, Onward(phase)), t) == Onward(phase) && Pending(Onward(phase)) == Some((target, next + 1))
  {
  }

  lemma {:induction false} ShakeGoesOn(setup: Setup, s: State, t: nat, net: Network, obeys: nat -> bool, at: nat,
                                       target: bool, next: nat, after: State) returns (told: State)
    requires Pending(PhaseOf(s, t)) == Some((target, next)) && next + 1 < |Handshake(target)|
    requires Accepts(target, Handshake(target)[next], net(at))
    requires Shake(setup, s, t, net, obeys, at, target, next) == Some(after)
    ensures told == s.(asleep := told.asleep)
    ensures Shake(setup, Goto(told, t, Onward(PhaseOf(s, t))), t, net, obeys, at + 1, target, next + 1) == Some(after)
  {
    told := AnswerUnfolds(setup, s, t, net(at), obeys(at), target, next);
  }

  /** A schedule treats a handshake as the lease performs it: if the network's answers are possible ones, the thread
      ends where the handshake goes through or raises, just as the lease's own run of it does, and the rest of the
      shared state changes in the sleep state at most. */
  lemma {:induction false} HandshakeIsPerformed(setup: Setup, s: State, t: nat, net: Network,
                                                obeys: nat -> bool, at: nat, target: bool, next: nat, after: State)
    requires Pending(PhaseOf(s, t)) == Some((target, next)) && next < |Handshake(target)|
    requires Shake(setup, s, t, net, obeys, at, target, next) == Some(after)
    ensures after == Outcome(setup, s.(asleep := after.asleep), t, PhaseOf(s, t), Perform(net, at, target, next).error)
    decreases |Handshake(target)| - next
  {
    if !Accepts(target, Handshake(target)[next], net(at)) || next + 1 == |Handshake(target)| {
      FinalAnswerIsPerformed(setup, s, t, net, obeys(at), at, target, next, after);
    } else {
      var phase := PhaseOf(s, t);
      var told := ShakeGoesOn(setup, s, t, net, obeys, at, target, next, after);
      OnwardIsPending(told, t, phase, target, next);
      HandshakeIsPerformed(setup, Goto(told, t, Onward(phase)), t, net, obeys, at + 1, target, next + 1, after);
      OutcomeForgets(setup, s, told, t, phase, after.asleep, Perform(net, at + 1, target, next + 1).error);
      PerformedOnward(net, at, target, next);
    }
  }

  // Progress.

  /** The shortest way out for each phase, failures included. */
  function WayOut(phase: Phase): Action {
    match phase
    case Idle => Operate
    case Operating => EndOperation
    case Entering(_, _) => Answer(Failed, false)
    case Inside(_, _) => EndBody(true)
    case WakingToGenerate(_) => Answer(Failed, false)
    case Generating(_) => EndGeneration(OtherRaised)
    case SleepingAgain(_, _) => Answer(Failed, false)
    case Releasing(_) => ReleaseModels(true)
    case Leaving(_, _, _) => Answer(Failed, false)
    case Reasoning => EndReasoning
  }

  function Distance(phase: Phase): nat {
    match phase
    case Idle => 0
    case Inside(_, _) => 3
    case WakingToGenerate(_) => 4
    case Generating(_) => 5
    case SleepingAgain(_, _) => 4
    case Releasing(_) => 2
    case _ => 1
  }

  lemma {:induction false} OwnerCanMove(setup: Setup, s: State, t: nat)
    requires Inv(setup, s) && s.owner == Some(t)
    ensures var next := Next(setup, s, t, WayOut(PhaseOf(s, t)));
            && next.Some?
            && Distance(PhaseOf(next.value, t)) < Distance(PhaseOf(s, t))
            && (next.value.owner == Some(t) || next.value.owner.None?)
  {
    var phase := PhaseOf(s, t);
    if phase.Inside? {
      assert Next(setup, s, t, WayOut(phase)) == Some(BodyOver(setup, s, t, phase.role, true));
    } else if Pending(phase).Some? {
      FailureMovesOn(setup, s, t);
    }
  }

  lemma {:induction false} FailureMovesOn(setup: Setup, s: State, t: nat)
    requires Inv(setup, s) && s.owner == Some(t) && Pending(PhaseOf(s, t)).Some?
    ensures WayOut(PhaseOf(s, t)) == Answer(Failed, false)
    ensures var next := Next(setup, s, t, Answer(Failed, false));
            && next.Some?
            && Distance(PhaseOf(next.value, t)) < Distance(PhaseOf(s, t))
            && (next.value.owner == Some(t) || next.value.owner.None?)
  {
  }

  /** No failure leaves the lock taken: from every state, the owner's own steps can set it free. */
  lemma {:induction false} LockComesFree(setup: Setup, s: State, t: nat) returns (n: nat)
    requires Inv(setup, s) && (s.owner == Some(t) || s.owner.None?)
    ensures n <= 5 && OwnerSteps(setup, s, t, n).Some?
    ensures var free := OwnerSteps(setup, s, t, n).value;
            Inv(setup, free) && free.owner.None? && free.depth == 0 && !free.flag
    ensures n <= Distance(PhaseOf(s, t))
    decreases Distance(PhaseOf(s, t))
  {
    if s.owner.None? {
      return 0;
    }
    OwnerCanMove(setup, s, t);
    var action := WayOut(PhaseOf(s, t));
    StepKeepsInvariant(setup, s, t, action);
    var rest := LockComesFree(setup, Next(setup, s, t, action).value, t);
    n := rest + 1;
  }

  function OwnerSteps(setup: Setup, s: State, t: nat, n: nat): Option<State>
    decreases n
  {
    if n == 0 then Some(s)
    else
      match Next(setup, s, t, WayOut(PhaseOf(s, t)))
      case None => None
      case Some(next) => OwnerSteps(setup, next, t, n - 1)
  }
}
