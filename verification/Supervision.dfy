/**
  The supervisor and its actors as one concurrent system.

  Actors send their events one by one into a bounded queue and wait while it is full; the supervisor takes them out
  one at a time between commands, and waits for the reply to each command it sends. A step is the smallest piece of
  work that the tasks can interleave at.
  */
module Supervision {
  import opened Prelude
  import opened OrderedMaps
  import opened ServiceActor
  import opened Overlord
  import opened ActorHistory
  import RestartBackoff

  /** Room in the event queue (crates/vigild/src/overlord/mod.rs). */
  const QUEUE_CAPACITY: nat := 256

  /** A command an actor has handled, with the outcome a spawn would have had. */
  datatype Delivery = Delivery(name: Name, command: Command, ok: bool)

  datatype System = System(
    boss: Overlord.State,
    // what the supervisor's current handler still has to send, whose reply it waits for, and how many events that
    // actor will have sent in all when it replies
    outbox: Commands,
    awaiting: Option<Name>,
    owed: nat,
    halted: bool,
    actors: map<Name, ActorState>,
    // how many of an actor's events have entered the queue, and how many of those the supervisor has taken out
    flushed: map<Name, nat>,
    heard: map<Name, nat>,
    queue: seq<(Name, Event)>,
    // what actors dropped by a reload still have to send
    retired: seq<seq<(Name, Event)>>,
    log: seq<Delivery>)

  datatype Step =
    | Consume
    | Deliver(ok: bool)
    | Reply
    | Flush(name: Name)
    | FlushRetired(index: nat)
    | Internal(name: Name, input: Input)
    | Round(commands: Commands)
    | Load(plan: Services)

  function Nothing(): System {
    System(State(EmptyMap(), EmptyMap(), []), [], None, 0, false, map[], map[], map[], [], [], [])
  }

  /** The supervisor is between two handlers. */
  predicate AtLoopHead(s: System) {
    s.outbox == [] && s.awaiting == None && !s.halted
  }

  /** Actor `name` waits at its select; all its events are in the queue or beyond. */
  predicate Idle(s: System, name: Name) {
    name in s.actors && name in s.flushed && s.flushed[name] == |s.actors[name].events|
  }

  /** The actor the supervisor waits for has sent the events of the command, and so its reply. */
  predicate HasReplied(s: System, name: Name) {
    name in s.actors && name in s.flushed && s.owed <= s.flushed[name]
  }

  function AsInput(c: Command, ok: bool): Input {
    match c
    case Start => StartCmd(ok)
    case Stop => StopCmd
    case Restart => RestartCmd(ok)
  }

  predicate IsInternal(i: Input) {
    i.ChildExit? || i.KillDeadline? || i.BackoffExpired? || i.OrphanExit?
  }

  ghost predicate CanStep(s: System, step: Step) {
    !s.halted && match step
      case Consume => AtLoopHead(s) && s.queue != []
      case Deliver(ok) =>
        s.outbox != [] && s.awaiting == None && Idle(s, s.outbox[0].0) && !s.actors[s.outbox[0].0].halted
      case Reply => s.awaiting.Some? && HasReplied(s, s.awaiting.value)
      case Flush(n) =>
        n in s.actors && n in s.flushed && s.flushed[n] < |s.actors[n].events| && |s.queue| < QUEUE_CAPACITY
      case FlushRetired(i) => i < |s.retired| && s.retired[i] != [] && |s.queue| < QUEUE_CAPACITY
      case Internal(n, i) => Idle(s, n) && IsInternal(i) && CanHappen(s.actors[n], i)
      case Round(_) => AtLoopHead(s)
      case Load(plan) => AtLoopHead(s) && plan.Valid()
  }

  function Known(s: System, commands: Commands): Commands {
    Filter(commands, (m: (Name, Command)) => m.0 in s.boss.snaps.vals)
  }

  /** The unsent events of an actor. */
  function Unsent(s: System, name: Name): seq<(Name, Event)> {
    if name in s.actors && name in s.flushed && s.flushed[name] <= |s.actors[name].events| then
      Label(name, s.actors[name].events[s.flushed[name]..])
    else []
  }

  function Label(name: Name, events: seq<Event>): seq<(Name, Event)> {
    seq(|events|, i requires 0 <= i < |events| => (name, events[i]))
  }

  function Leftovers(s: System, names: seq<Name>): seq<seq<(Name, Event)>> {
    seq(|names|, i requires 0 <= i < |names| => Unsent(s, names[i]))
  }

  function TakeStep(s: System, step: Step): System
    requires CanStep(s, step)
  {
    match step
    case Consume => AfterConsume(s)
    case Deliver(ok) => AfterDeliver(s, ok)
    case Reply => s.(awaiting := None)
    case Flush(n) =>
      s.(queue := s.queue + [(n, s.actors[n].events[s.flushed[n]])], flushed := s.flushed[n := s.flushed[n] + 1])
    case FlushRetired(i) =>
      s.(queue := s.queue + [s.retired[i][0]], retired := s.retired[i := s.retired[i][1..]])
    case Internal(n, i) => s.(actors := s.actors[n := ServiceActor.Step(s.actors[n], i)])
    case Round(commands) => s.(outbox := Known(s, commands))
    case Load(plan) => AfterLoad(s, plan)
  }

  function AfterConsume(s: System): System
    requires s.queue != []
  {
    var (name, e) := s.queue[0];
    var (boss, commands) := OnEvent(s.boss, name, e);
    s.(boss := boss, outbox := commands, queue := s.queue[1..], halted := e.DaemonShutdown?,
       heard := if name in s.heard then s.heard[name := s.heard[name] + 1] else s.heard)
  }

  function AfterDeliver(s: System, ok: bool): System
    requires CanStep(s, Deliver(ok))
  {
    var (name, c) := s.outbox[0];
    var after := ServiceActor.Step(s.actors[name], AsInput(c, ok));
    s.(actors := s.actors[name := after],
       outbox := s.outbox[1..], awaiting := Some(name), owed := |after.events|, log := s.log + [Delivery(name, c, ok)])
  }

  function AfterLoad(s: System, plan: Services): System {
    var (boss, commands) := Overlord.Reload(s.boss, plan);
    var gone := Filter(s.boss.snaps.keys, n => n !in plan.vals);
    s.(boss := boss, outbox := commands,
       actors := map n | n in plan.vals :: if n in s.actors then s.actors[n] else New(plan.vals[n].ForActor()),
       flushed := map n | n in plan.vals :: if n in s.flushed then s.flushed[n] else 0,
       heard := map n | n in plan.vals :: if n in s.heard then s.heard[n] else 0,
       retired := s.retired + Leftovers(s, gone))
  }

  ghost predicate CanRun(s: System, steps: seq<Step>)
    decreases |steps|
  {
    steps == [] || (CanStep(s, steps[0]) && CanRun(TakeStep(s, steps[0]), steps[1..]))
  }

  ghost function After(s: System, steps: seq<Step>): System
    requires CanRun(s, steps)
    decreases |steps|
  {
    if steps == [] then s else After(TakeStep(s, steps[0]), steps[1..])
  }

  lemma RunNothing(s: System)
    ensures CanRun(s, []) && After(s, []) == s
  {
  }

  lemma RunStep(s: System, step: Step, rest: seq<Step>)
    requires CanStep(s, step) && CanRun(TakeStep(s, step), rest)
    ensures CanRun(s, [step] + rest) && After(s, [step] + rest) == After(TakeStep(s, step), rest)
  {
    hide CanStep, TakeStep;
    assert ([step] + rest)[1..] == rest;
  }

  lemma {:induction false} RunConcat(s: System, front: seq<Step>, rest: seq<Step>)
    requires CanRun(s, front) && CanRun(After(s, front), rest)
    ensures CanRun(s, front + rest) && After(s, front + rest) == After(After(s, front), rest)
    decreases |front|
  {
    hide CanStep, TakeStep;
    if front == [] {
      assert front + rest == rest;
    } else {
      assert (front + rest)[1..] == front[1..] + rest;
      RunConcat(TakeStep(s, front[0]), front[1..], rest);
    }
  }

  /** The daemon right after it has loaded its first plan and settled what to start. */
  function Booted(plan: Services): System {
    AfterLoad(Nothing(), plan)
  }

  // ---------------------------------------------------------------------
  // Well-formed systems
  // ---------------------------------------------------------------------

  ghost predicate WellFormed(s: System) {
    && s.boss.plan.Valid() && s.boss.snaps.Valid()
    && s.actors.Keys == s.boss.snaps.vals.Keys
    && s.flushed.Keys == s.actors.Keys
    && s.heard.Keys == s.actors.Keys
    && (forall n :: n in s.actors ==> s.flushed[n] <= |s.actors[n].events|)
    && (forall n :: n in s.actors ==> Told(s.actors[n]) && !s.actors[n].halted)
    && (forall m :: m in s.outbox ==> m.0 in s.actors)
    && (s.awaiting.Some? ==> s.awaiting.value in s.actors && s.owed <= |s.actors[s.awaiting.value].events|)
  }

  lemma Domains(s: System)
    requires WellFormed(s)
    ensures s.actors.Keys == s.heard.Keys == s.flushed.Keys == s.boss.snaps.vals.Keys
    ensures forall n :: n in s.actors ==> s.flushed[n] <= |s.actors[n].events| && !s.actors[n].halted
    ensures forall m :: m in s.outbox ==> m.0 in s.actors
  {
    hide Told;
  }

  lemma ActorStep(a: ActorState, i: Input)
    requires Told(a) && CanHappen(a, i) && !a.halted && !i.ShutdownCmd?
    ensures var b := ServiceActor.Step(a, i);
            Told(b) && !b.halted && a.events <= b.events && b.config == a.config
  {
    StepTells(a, i);
    RestartBackoff.StepKeepsConfig(a, i);
    StaysRunning(a, i);
    hide Told, ServiceActor.Step;
  }

  lemma StaysRunning(a: ActorState, i: Input)
    requires CanHappen(a, i) && !a.halted && !i.ShutdownCmd?
    ensures !ServiceActor.Step(a, i).halted
  {
    hide BackoffLimitExceeded, Config.Policy;
  }

  lemma OnEventKeepsShape(b: Overlord.State, name: Name, e: Event)
    requires b.plan.Valid() && b.snaps.Valid()
    ensures var (b', commands) := OnEvent(b, name, e);
            && b'.plan == b.plan && b'.snaps.Valid()
            && b'.snaps.keys == b.snaps.keys && b'.snaps.vals.Keys == b.snaps.vals.Keys
            && (forall m :: m in commands ==> m.0 in b.snaps.vals)
  {
    hide DepsRunning, Filter, ToAll;
  }

  lemma ReloadShape(b: Overlord.State, plan: Services)
    requires b.snaps.Valid() && plan.Valid()
    ensures var (b', commands) := Overlord.Reload(b, plan);
            && b'.plan == plan && b'.snaps == SyncActors(b.snaps, plan) && b'.snaps.Valid()
            && b'.snaps.vals.Keys == plan.vals.Keys
            && (forall m :: m in commands ==> m.0 in plan.vals)
  {
    hide DepsRunning, ToAll, WaitingNow, ReadyNow;
    AddAllDistinct(b.snaps.keys, plan.keys);
    FilterDistinct(AddAll(b.snaps.keys, plan.keys), n => n in plan.vals);
  }

  lemma ConsumeKeepsWellFormed(s: System)
    requires WellFormed(s) && s.queue != []
    requires s.awaiting == None
    ensures WellFormed(AfterConsume(s))
  {
    hide Told, StateAfter, OnEvent;
    OnEventKeepsShape(s.boss, s.queue[0].0, s.queue[0].1);
  }

  lemma LoadKeepsWellFormed(s: System, plan: Services)
    requires WellFormed(s) && CanStep(s, Load(plan))
    ensures WellFormed(AfterLoad(s, plan))
  {
    hide Told, StateAfter, Overlord.Reload, SyncActors, Leftovers, Filter;
    ReloadShape(s.boss, plan);
    NewIsTold();
    var t := AfterLoad(s, plan);
    assert t.actors.Keys == plan.vals.Keys && t.flushed.Keys == plan.vals.Keys && t.heard.Keys == plan.vals.Keys;
    forall n | n in t.actors
      ensures t.flushed[n] <= |t.actors[n].events| && Told(t.actors[n]) && !t.actors[n].halted
    {
      assert n in s.actors <==> n in s.flushed;
    }
  }

  lemma DeliverKeepsWellFormed(s: System, ok: bool)
    requires WellFormed(s) && CanStep(s, Deliver(ok))
    ensures WellFormed(AfterDeliver(s, ok))
  {
    hide ServiceActor.Step, CanHappen, Told;
    var (name, c) := s.outbox[0];
    RunningTakesCommands(s.actors[name], c, ok);
    ActorStep(s.actors[name], AsInput(c, ok));
  }

  lemma FlushKeepsWellFormed(s: System, name: Name)
    requires WellFormed(s) && CanStep(s, Flush(name))
    ensures WellFormed(TakeStep(s, Flush(name)))
  {
    hide Told;
  }

  lemma InternalKeepsWellFormed(s: System, name: Name, i: Input)
    requires WellFormed(s) && CanStep(s, Internal(name, i))
    ensures WellFormed(TakeStep(s, Internal(name, i)))
  {
    hide ServiceActor.Step, CanHappen, Told;
    ActorStep(s.actors[name], i);
  }

  lemma StepKeepsWellFormed(s: System, step: Step)
    requires WellFormed(s) && CanStep(s, step)
    ensures WellFormed(TakeStep(s, step))
  {
    hide ServiceActor.Step, CanHappen, Told, AfterConsume, AfterLoad, AfterDeliver, Filter;
    match step
    case Consume => ConsumeKeepsWellFormed(s);
    case Load(plan) => LoadKeepsWellFormed(s, plan);
    case Deliver(ok) => DeliverKeepsWellFormed(s, ok);
    case Internal(n, i) => InternalKeepsWellFormed(s, n, i);
    case Flush(n) => FlushKeepsWellFormed(s, n);
    case _ =>
  }

  lemma RunningTakesCommands(a: ActorState, c: Command, ok: bool)
    requires !a.halted
    ensures CanHappen(a, AsInput(c, ok))
  {
  }

  lemma NewIsTold()
    ensures forall config :: Told(New(config)) && !New(config).halted && New(config).events == []
  {
  }

  lemma {:induction false} RunKeepsWellFormed(s: System, steps: seq<Step>)
    requires WellFormed(s) && CanRun(s, steps)
    ensures WellFormed(After(s, steps))
    decreases |steps|
  {
    hide WellFormed, TakeStep, CanStep;
    if steps != [] {
      StepKeepsWellFormed(s, steps[0]);
      RunKeepsWellFormed(TakeStep(s, steps[0]), steps[1..]);
    }
  }

  lemma BootedWellFormed(plan: Services)
    requires plan.Valid()
    ensures WellFormed(Nothing()) && CanStep(Nothing(), Load(plan))
    ensures Booted(plan) == TakeStep(Nothing(), Load(plan)) && WellFormed(Booted(plan))
  {
    hide AfterLoad, Told;
    StepKeepsWellFormed(Nothing(), Load(plan));
  }
}
