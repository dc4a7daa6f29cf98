/** What an actor's event stream tells about its lifecycle, and how spawns, exits and live processes balance. */
module ActorHistory {
  import opened Prelude
  import opened ServiceActor
  import opened ActorRuns

  // ---------------------------------------------------------------------
  // The lifecycle the events tell
  // ---------------------------------------------------------------------

  /** The state a stream of events leads to, from Inactive. */
  function StateAfter(events: seq<Event>): ServiceState {
    if events == [] then Inactive
    else match events[|events| - 1]
      case StateChanged(s) => s
      case _ => StateAfter(events[..|events| - 1])
  }

  predicate LegalChange(from: ServiceState, to: ServiceState) {
    match from
    case Inactive | Error => to == Starting
    case Starting => to == Active || to == Error
    case Active => to in {Stopping, Inactive, Backoff, Error}
    case Stopping => to == Stopping || to == Inactive
    case Backoff => to == Starting || to == Inactive
  }

  predicate LegalHistory(events: seq<Event>) {
    events == [] || (
      && LegalHistory(events[..|events| - 1])
      && (events[|events| - 1].StateChanged? ==>
            LegalChange(StateAfter(events[..|events| - 1]), events[|events| - 1].newState)))
  }

  function Exits(events: seq<Event>): nat {
    if events == [] then 0
    else Exits(events[..|events| - 1]) + if events[|events| - 1].ProcessExited? then 1 else 0
  }

  lemma AfterEmit(events: seq<Event>, e: Event)
    ensures StateAfter(events + [e]) == if e.StateChanged? then e.newState else StateAfter(events)
    ensures Exits(events + [e]) == Exits(events) + if e.ProcessExited? then 1 else 0
    ensures LegalHistory(events + [e]) <==>
            LegalHistory(events) && (e.StateChanged? ==> LegalChange(StateAfter(events), e.newState))
  {
    assert (events + [e])[..|events + [e]| - 1] == events;
  }

  /** Events and state agree at every moment, also inside a handler. */
  ghost predicate Told(a: ActorState) {
    StateAfter(a.events) == a.state
  }

  lemma EmitTells(a: ActorState, e: Event)
    ensures !e.StateChanged? ==> Told(Emit(a, e)) == Told(a)
    ensures Told(a) && e.ProcessExited? ==> Exits(Emit(a, e).events) == Exits(a.events) + 1
    ensures Told(a) && !e.ProcessExited? ==> Exits(Emit(a, e).events) == Exits(a.events)
    ensures !e.StateChanged? ==> (LegalHistory(Emit(a, e).events) <==> LegalHistory(a.events))
  {
    AfterEmit(a.events, e);
  }

  lemma TransitionTells(a: ActorState, s: ServiceState)
    ensures Told(Transition(a, s))
    ensures Exits(Transition(a, s).events) == Exits(a.events)
    ensures Told(a) ==> (LegalHistory(Transition(a, s).events) <==> LegalHistory(a.events) && LegalChange(a.state, s))
  {
    AfterEmit(a.events, StateChanged(s));
  }

  // Every handler is a chain of emissions; these are the two facts carried along the chain.

  lemma StartTells(a: ActorState, ok: bool)
    requires Told(a)
    ensures Told(HandleStart(a, ok))
    ensures a.events <= HandleStart(a, ok).events
    ensures Exits(HandleStart(a, ok).events) == Exits(a.events)
    ensures LegalHistory(a.events) && a.state in {Inactive, Error, Backoff, Active, Stopping}
            ==> LegalHistory(HandleStart(a, ok).events)
  {
    hide StateAfter, LegalHistory, Exits, Config.Delay;
    var b := Transition(a, Starting);
    TransitionTells(a, Starting);
    TransitionTells(b.(child := Some(b.spawned), spawned := b.spawned + 1, alive := b.alive + {b.spawned}), Active);
    TransitionTells(b, Error);
  }

  lemma BackoffExpiryTells(a: ActorState, ok: bool)
    requires Told(a)
    ensures Told(HandleBackoffExpired(a, ok))
    ensures a.events <= HandleBackoffExpired(a, ok).events
    ensures Exits(HandleBackoffExpired(a, ok).events) == Exits(a.events)
    ensures LegalHistory(a.events) && a.state == Backoff ==> LegalHistory(HandleBackoffExpired(a, ok).events)
  {
    hide StateAfter, LegalHistory, Exits;
    var b := Transition(a, Starting);
    TransitionTells(a, Starting);
    TransitionTells(b.(child := Some(b.spawned), spawned := b.spawned + 1, alive := b.alive + {b.spawned}), Active);
    TransitionTells(b, Error);
  }

  lemma PolicyTells(a: ActorState, success: bool)
    requires Told(a)
    ensures Told(ApplyPolicy(a, success))
    ensures a.events <= ApplyPolicy(a, success).events
    ensures Exits(ApplyPolicy(a, success).events) == Exits(a.events)
    ensures LegalHistory(a.events) && a.state == Active ==> LegalHistory(ApplyPolicy(a, success).events)
  {
    hide StateAfter, LegalHistory, Exits, Config.NextDelay, BackoffLimitExceeded;
    TransitionTells(a, Inactive);
    EmitTells(Transition(a, Inactive), DaemonShutdown(if success then 0 else 10));
    EmitTells(Transition(a, Inactive), DaemonShutdown(10));
    EmitTells(Transition(a, Inactive), DaemonShutdown(0));
    TransitionTells(a, Error);
    TransitionTells(NextBackoff(a), Backoff);
  }

  lemma StopFinishedTells(a: ActorState, ok: bool)
    requires Told(a)
    ensures Told(StopFinished(a, ok))
    ensures a.events <= StopFinished(a, ok).events
    ensures Exits(StopFinished(a, ok).events) == Exits(a.events)
    ensures LegalHistory(a.events) && a.state == Stopping ==> LegalHistory(StopFinished(a, ok).events)
  {
    hide StateAfter, LegalHistory, Exits, Config.Delay;
    TransitionTells(a, Inactive);
    var b := Transition(a, Inactive).(pendingRestart := false);
    TransitionTells(b, Starting);
    var c := Transition(b, Starting);
    TransitionTells(c.(child := Some(c.spawned), spawned := c.spawned + 1, alive := c.alive + {c.spawned}), Active);
    TransitionTells(c, Error);
  }

  lemma ChildExitTells(a: ActorState, success: bool, ok: bool)
    requires Told(a) && a.child.Some?
    ensures Told(HandleChildExit(a, success, ok))
    ensures a.events <= HandleChildExit(a, success, ok).events
    ensures Exits(HandleChildExit(a, success, ok).events) == Exits(a.events) + 1
    ensures LegalHistory(a.events) && a.state in {Active, Stopping}
            ==> LegalHistory(HandleChildExit(a, success, ok).events)
  {
    hide StateAfter, LegalHistory, Exits, ApplyPolicy, StopFinished;
    EmitTells(a, ProcessExited(success));
    var b := Emit(a, ProcessExited(success)).(
      alive := a.alive - {a.child.value}, child := None, stopDeadline := false);
    StopFinishedTells(b, ok);
    PolicyTells(b, success);
  }

  /** In every run the last state told is the actor's state, and events are only appended. */
  lemma StepTells(a: ActorState, i: Input)
    requires Told(a) && CanHappen(a, i)
    ensures Told(Step(a, i))
    ensures a.events <= Step(a, i).events
    ensures Exits(Step(a, i).events) == Exits(a.events) + if i.ChildExit? then 1 else 0
    ensures Clean(a) && LegalHistory(a.events) && !StartsInBackoff(a, i) ==> LegalHistory(Step(a, i).events)
  {
    hide HandleStart, HandleChildExit, HandleBackoffExpired, StateAfter, LegalHistory, Exits;
    match i
    case StartCmd(ok) => StartTells(a, ok);
    case RestartCmd(ok) =>
      StartTells(a, ok);
      TransitionTells(Send(a, StopSignal), Stopping);
    case StopCmd =>
      TransitionTells(Send(a, StopSignal), Stopping);
      TransitionTells(a.(backoffSleep := None), Inactive);
    case ChildExit(success, ok) => ChildExitTells(a, success, ok);
    case BackoffExpired(ok) => BackoffExpiryTells(a, ok);
    case _ =>
  }

  // ---------------------------------------------------------------------
  // Conservation of processes
  // ---------------------------------------------------------------------

  /** Every process ever spawned is alive or has been reported as exited; a shut down actor reports no more. */
  ghost predicate Accounted(a: ActorState) {
    if a.halted then Exits(a.events) <= a.spawned <= Exits(a.events) + 1
    else Exits(a.events) + |a.alive| == a.spawned
  }

  lemma StepAccounts(a: ActorState, i: Input)
    requires Clean(a) && Told(a) && Accounted(a) && CanHappen(a, i) && !StartsInBackoff(a, i)
    ensures Accounted(Step(a, i))
  {
    StepTells(a, i);
    StepKeepsClean(a, i);
    StepSpawns(a, i);
    hide Step, Exits, Told, StateAfter;
  }

  lemma StepSpawns(a: ActorState, i: Input)
    requires Clean(a) && CanHappen(a, i) && !StartsInBackoff(a, i)
    ensures var b := Step(a, i);
            if b.halted then b.spawned == a.spawned
            else b.spawned + |a.alive| == a.spawned + |b.alive| + if i.ChildExit? then 1 else 0
  {
    StepKeepsClean(a, i);
    hide ApplyPolicy, BackoffLimitExceeded, Config.Delay;
    if i.ChildExit? {
      PolicySpawnsNothing(Emit(a, ProcessExited(i.success)).(
        alive := a.alive - {a.child.value}, child := None, stopDeadline := false), i.success);
    }
  }

  lemma PolicySpawnsNothing(a: ActorState, success: bool)
    ensures ApplyPolicy(a, success).spawned == a.spawned && ApplyPolicy(a, success).child == a.child
    ensures ApplyPolicy(a, success).halted == a.halted && ApplyPolicy(a, success).config == a.config
    ensures ApplyPolicy(a, success).alive == a.alive
  {
  }

  /**
    In every run without a start in Backoff the StateChanged events walk the lifecycle graph, the walk ends
    in the actor's state, and every spawned process is either alive or has one ProcessExited event.
    */
  lemma {:induction false} HistoryOfRun(a: ActorState, inputs: seq<Input>)
    requires Clean(a) && Told(a) && Accounted(a) && LegalHistory(a.events)
    requires Possible(a, inputs) && NeverStartsInBackoff(a, inputs)
    ensures var b := Run(a, inputs);
            Told(b) && Accounted(b) && LegalHistory(b.events) && a.events <= b.events
    decreases |inputs|
  {
    hide Step, CanHappen, Clean, Told, Accounted, LegalHistory, StartsInBackoff, Exits;
    if inputs != [] {
      StepTells(a, inputs[0]);
      StepAccounts(a, inputs[0]);
      StepKeepsClean(a, inputs[0]);
      HistoryOfRun(Step(a, inputs[0]), inputs[1..]);
    }
  }

  lemma HistoryFromStart(config: Config, inputs: seq<Input>)
    requires Possible(New(config), inputs) && NeverStartsInBackoff(New(config), inputs)
    ensures var b := Run(New(config), inputs);
            && LegalHistory(b.events) && StateAfter(b.events) == b.state
            && (!b.halted ==> b.spawned == Exits(b.events) + |b.alive|)
  {
    HistoryOfRun(New(config), inputs);
  }

  // ---------------------------------------------------------------------
  // Every process, a second one included
  // ---------------------------------------------------------------------

  /** The input ends one process of the actor. */
  predicate EndsProcess(a: ActorState, i: Input) {
    i.ChildExit? || i.OrphanExit? || (i.ShutdownCmd? && a.child.Some?)
  }

  function ProcessesEnded(a: ActorState, inputs: seq<Input>): nat
    requires Possible(a, inputs)
    decreases |inputs|
  {
    if inputs == [] then 0
    else (if EndsProcess(a, inputs[0]) then 1 else 0) + ProcessesEnded(Step(a, inputs[0]), inputs[1..])
  }

  lemma SpawnBalances(a: ActorState, ok: bool)
    requires LoopHead(a) && !a.halted
    ensures var b := HandleStart(a, ok); b.spawned + |a.alive| == a.spawned + |b.alive|
    ensures var b := HandleBackoffExpired(a, ok); b.spawned + |a.alive| == a.spawned + |b.alive|
  {
    hide Config.Delay;
    assert a.spawned !in a.alive;
  }

  lemma ExitBalances(a: ActorState, success: bool, ok: bool)
    requires LoopHead(a) && a.child.Some?
    ensures var b := HandleChildExit(a, success, ok); b.spawned + |a.alive| == a.spawned + |b.alive| + 1
  {
    hide Config.Delay, ApplyPolicy;
    assert a.spawned !in a.alive;
    PolicySpawnsNothing(Emit(a, ProcessExited(success)).(
      alive := a.alive - {a.child.value}, child := None, stopDeadline := false), success);
  }

  lemma StepBalances(a: ActorState, i: Input)
    requires LoopHead(a) && CanHappen(a, i)
    ensures var b := Step(a, i);
            b.spawned + |a.alive| == a.spawned + |b.alive| + if EndsProcess(a, i) then 1 else 0
  {
    hide HandleStart, HandleBackoffExpired, HandleChildExit;
    match i
    case StartCmd(ok) => SpawnBalances(a, ok);
    case RestartCmd(ok) => SpawnBalances(a, ok);
    case BackoffExpired(ok) => SpawnBalances(a, ok);
    case ChildExit(success, ok) => ExitBalances(a, success, ok);
    case _ =>
  }

  /** In every run, two processes alive at once or not: what was spawned is alive or has ended once. */
  lemma {:induction false} ProcessesAreCounted(a: ActorState, inputs: seq<Input>)
    requires LoopHead(a) && Possible(a, inputs)
    ensures var b := Run(a, inputs);
            b.spawned + |a.alive| == a.spawned + |b.alive| + ProcessesEnded(a, inputs)
    decreases |inputs|
  {
    hide Step, CanHappen, LoopHead, EndsProcess;
    if inputs != [] {
      StepBalances(a, inputs[0]);
      StepKeepsLoopHead(a, inputs[0]);
      ProcessesAreCounted(Step(a, inputs[0]), inputs[1..]);
    }
  }
}
