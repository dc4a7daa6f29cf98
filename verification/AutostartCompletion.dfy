/**
  A load of a plan after which every spawn succeeds and nothing exits: who ends up running, and that it gets there.
  */
module AutostartCompletion {
  import opened Prelude
  import opened ServiceActor
  import opened ActorRuns
  import opened ActorHistory
  import opened Overlord
  import opened Supervision
  import opened SnapshotTracking
  import opened LayerMerge
  import opened PendingAutostart
  import opened QueueBound

  /** The steps of such a boot. */
  predicate BootStep(step: Step) {
    step.Consume? || step.Reply? || step.Flush? || (step.Deliver? && step.ok)
  }

  predicate AllBootSteps(steps: seq<Step>) {
    forall step :: step in steps ==> BootStep(step)
  }

  predicate UpEvent(e: Event) {
    e == StateChanged(Starting) || e == StateChanged(Active)
  }

  /** What an actor has yet to send is of a start. */
  ghost predicate UnsentUp(s: System, n: Name)
    requires n in s.actors
  {
    forall i :: 0 <= i < |s.actors[n].events| && n in s.flushed && s.flushed[n] <= i ==> UpEvent(s.actors[n].events[i])
  }

  /** Every service is running or could be started, and none is stopping or waiting to come back by itself. */
  ghost predicate ActorsSettled(s: System) {
    forall n :: n in s.actors ==> Calm(s.actors[n]) && s.actors[n].state != Stopping && UnsentUp(s, n)
  }

  ghost predicate OnlyUpEvents(s: System) {
    forall x :: x in s.queue ==> UpEvent(x.1)
  }

  ghost predicate OnlyStarts(s: System) {
    forall m :: m in s.outbox ==> m.1 == Start
  }

  /** Every enabled service is deferred, about to be started, or running. */
  ghost predicate NobodyForgotten(s: System) {
    forall n :: IsEnabled(s.boss.plan, n) ==>
      n in s.boss.pending || (n, Start) in s.outbox || (n in s.actors && s.actors[n].state == Active)
  }

  /** Between a load of a plan and the moment everything it asks for is running. */
  ghost predicate Settling(s: System) {
    && WellFormed(s) && AllFollow(s) && NoLostWakeup(s.boss) && PendingEnabled(s.boss) && OthersIdle(s) && !s.halted
    && s.boss.snaps.vals.Keys == s.boss.plan.vals.Keys
    && ActorsSettled(s) && OnlyUpEvents(s) && OnlyStarts(s) && NobodyForgotten(s)
  }

  /** A successful Start leaves a service running, and says so if it was not. */
  lemma StartSettles(a: ActorState)
    requires Calm(a) && a.state != Stopping
    ensures CanHappen(a, StartCmd(true))
    ensures var b := ServiceActor.Step(a, StartCmd(true));
            && Calm(b) && b.state == Active
            && (b.events == a.events || b.events == a.events + [StateChanged(Starting), StateChanged(Active)])
  {
    StepKeepsClean(a, StartCmd(true));
    hide Config.Delay;
  }

  // ---------------------------------------------------------------------
  // Each step keeps settling
  // ---------------------------------------------------------------------

  lemma UpEventStartsPending(b: Overlord.State, name: Name, e: Event)
    requires UpEvent(e) && PendingEnabled(b) && b.plan.vals.Keys <= b.snaps.vals.Keys
    ensures var (b', commands) := OnEvent(b, name, e);
            && b'.plan == b.plan
            && (forall m :: m in commands ==> m.1 == Start)
            && (forall n :: n in b.pending ==> n in b'.pending || (n, Start) in commands)
            && |b'.pending| + |commands| <= |b.pending|
  {
    hide DepsRunning, ToAll, Filter;
    var heard := Hear(b, name, e.newState);
    assert heard.snaps.vals.Keys >= b.snaps.vals.Keys;
    FilterSplits(b.pending, n => DepsRunning(heard.plan, heard.snaps, n),
                 n => !DepsRunning(heard.plan, heard.snaps, n));
  }

  lemma {:induction false} FilterSplits<T(!new)>(s: seq<T>, p: T -> bool, q: T -> bool)
    requires forall x :: x in s ==> q(x) == !p(x)
    ensures |Filter(s, p)| + |Filter(s, q)| == |s|
    decreases |s|
  {
    if s != [] {
      assert s[|s| - 1] in s;
      FilterSplits(s[..|s| - 1], p, q);
    }
  }

  lemma ConsumeForgetsNobody(s: System)
    requires NobodyForgotten(s) && OnlyUpEvents(s) && CanStep(s, Consume)
    requires PendingEnabled(s.boss) && s.boss.snaps.vals.Keys == s.boss.plan.vals.Keys
    ensures NobodyForgotten(AfterConsume(s)) && OnlyStarts(AfterConsume(s))
    ensures OnlyUpEvents(AfterConsume(s)) && !AfterConsume(s).halted
  {
    hide OnEvent, IsEnabled, PendingEnabled, UpEvent;
    assert s.queue[0] in s.queue;
    UpEventIsNoShutdown(s.queue[0].1);
    UpEventStartsPending(s.boss, s.queue[0].0, s.queue[0].1);
  }

  lemma UpEventIsNoShutdown(e: Event)
    requires UpEvent(e)
    ensures !e.DaemonShutdown?
  {
  }

  lemma SnapshotKeysStay(s: System)
    requires WellFormed(s) && s.queue != []
    ensures AfterConsume(s).boss.snaps.vals.Keys == s.boss.snaps.vals.Keys
    ensures OthersIdle(s) ==> OthersIdle(AfterConsume(s))
  {
    hide Told, OnEvent;
    OnEventKeepsShape(s.boss, s.queue[0].0, s.queue[0].1);
  }

  lemma SameActorsSettled(s: System, t: System)
    requires ActorsSettled(s) && t.actors == s.actors && t.flushed == s.flushed
    ensures ActorsSettled(t)
  {
    hide Calm, UpEvent;
    assert forall n :: n in s.actors ==> UnsentUp(s, n) && UnsentUp(t, n);
  }

  lemma ConsumeKeepsSettling(s: System)
    requires Settling(s) && CanStep(s, Consume)
    requires WellFormed(AfterConsume(s)) && AllFollow(AfterConsume(s)) && NoLostWakeup(AfterConsume(s).boss)
    ensures Settling(AfterConsume(s))
  {
    hide WellFormed, AllFollow, NoLostWakeup, OthersIdle, OnlyStarts, NobodyForgotten, OnlyUpEvents, OnEvent,
         PendingEnabled, ActorsSettled;
    ConsumeForgetsNobody(s);
    SnapshotKeysStay(s);
    EventKeepsPlan(s.boss, s.queue[0].0, s.queue[0].1);
    EventStartsReady(s.boss, s.queue[0].0, s.queue[0].1);
    SameActorsSettled(s, AfterConsume(s));
  }

  lemma DeliverKeepsActors(s: System)
    requires WellFormed(s) && ActorsSettled(s) && CanStep(s, Deliver(true)) && s.outbox[0].1 == Start
    ensures ActorsSettled(AfterDeliver(s, true))
    ensures AfterDeliver(s, true).actors[s.outbox[0].0].state == Active
    ensures forall n :: n in s.actors && s.actors[n].state == Active ==> AfterDeliver(s, true).actors[n].state == Active
  {
    hide WellFormed, Calm, ServiceActor.Step, CanHappen;
    var name := s.outbox[0].0;
    StartSettles(s.actors[name]);
    var t := AfterDeliver(s, true);
    forall n | n in t.actors ensures Calm(t.actors[n]) && t.actors[n].state != Stopping && UnsentUp(t, n) {
      assert UnsentUp(s, n);
    }
  }

  lemma DeliverForgetsNobody(s: System)
    requires NobodyForgotten(s) && OnlyStarts(s) && CanStep(s, Deliver(true))
    requires var t := AfterDeliver(s, true);
             && s.outbox[0].0 in t.actors && t.actors[s.outbox[0].0].state == Active
             && forall n :: n in s.actors && s.actors[n].state == Active ==>
                  n in t.actors && t.actors[n].state == Active
    ensures NobodyForgotten(AfterDeliver(s, true)) && OnlyStarts(AfterDeliver(s, true))
  {
    hide IsEnabled, ServiceActor.Step;
    var t := AfterDeliver(s, true);
    assert s.outbox == [s.outbox[0]] + t.outbox;
    assert s.outbox[0] in s.outbox;
  }

  lemma DeliverKeepsOthersIdle(s: System)
    requires OthersIdle(s) && CanStep(s, Deliver(true))
    ensures OthersIdle(AfterDeliver(s, true))
  {
    hide ServiceActor.Step;
  }

  lemma DeliverKeepsSettling(s: System)
    requires Settling(s) && CanStep(s, Deliver(true))
    requires WellFormed(AfterDeliver(s, true)) && AllFollow(AfterDeliver(s, true))
    ensures Settling(AfterDeliver(s, true))
  {
    hide WellFormed, AllFollow, NoLostWakeup, OthersIdle, ActorsSettled, OnlyStarts, NobodyForgotten, UpEvent,
         ServiceActor.Step, PendingEnabled;
    FirstIsStart(s);
    DeliverKeepsActors(s);
    DeliverForgetsNobody(s);
    DeliverKeepsOthersIdle(s);
    var t := AfterDeliver(s, true);
    assert t.boss == s.boss && t.queue == s.queue;
  }

  lemma FirstIsStart(s: System)
    requires OnlyStarts(s) && s.outbox != []
    ensures s.outbox[0].1 == Start
  {
    assert s.outbox[0] in s.outbox;
  }

  lemma FlushKeepsSettling(s: System, name: Name)
    requires Settling(s) && CanStep(s, Flush(name))
    requires WellFormed(TakeStep(s, Flush(name))) && AllFollow(TakeStep(s, Flush(name)))
    ensures Settling(TakeStep(s, Flush(name)))
  {
    hide WellFormed, AllFollow, NoLostWakeup, IsEnabled, PendingEnabled, Calm, UpEvent;
    assert UnsentUp(s, name);
    var t := TakeStep(s, Flush(name));
    assert forall n :: n in t.actors ==> UnsentUp(s, n);
    assert forall n :: n in t.actors ==> UnsentUp(t, n);
  }

  lemma ReplyKeepsSettling(s: System)
    requires Settling(s) && CanStep(s, Reply)
    requires WellFormed(TakeStep(s, Reply)) && AllFollow(TakeStep(s, Reply))
    ensures Settling(TakeStep(s, Reply))
  {
    hide WellFormed, AllFollow, NoLostWakeup, OthersIdle, ActorsSettled, IsEnabled, PendingEnabled, UpEvent;
    OutboxKnown(s);
    ReplyLeavesAllIdle(s);
    SameActorsSettled(s, TakeStep(s, Reply));
  }

  lemma ReplyLeavesAllIdle(s: System)
    requires OthersIdle(s) && CanStep(s, Reply)
    requires forall n :: n in s.actors && n in s.flushed ==> s.flushed[n] <= |s.actors[n].events|
    ensures OthersIdle(TakeStep(s, Reply))
  {
  }

  lemma BootStepKeepsSettling(s: System, step: Step)
    requires Settling(s) && CanStep(s, step) && BootStep(step)
    ensures Settling(TakeStep(s, step)) && TakeStep(s, step).boss.plan == s.boss.plan
  {
    hide WellFormed, NoLostWakeup, ActorsSettled, OnlyStarts, NobodyForgotten, OnlyUpEvents, AfterConsume, AfterDeliver,
         Follows, PendingEnabled, OthersIdle;
    PlanStays(s, step);
    StepKeepsWellFormed(s, step);
    StepKeepsNoLostWakeup(s, step);
    var t := TakeStep(s, step);
    forall n ensures Follows(t, n) {
      StepFollows(s, step, n);
    }
    assert AllFollow(t);
    match step
    case Consume => ConsumeKeepsSettling(s);
    case Deliver(ok) => DeliverKeepsSettling(s);
    case Flush(n) => FlushKeepsSettling(s, n);
    case Reply => ReplyKeepsSettling(s);
  }

  lemma {:induction false} RunKeepsSettling(s: System, steps: seq<Step>)
    requires Settling(s) && CanRun(s, steps) && AllBootSteps(steps)
    ensures Settling(After(s, steps)) && After(s, steps).boss.plan == s.boss.plan
    decreases |steps|
  {
    hide Settling, CanStep, TakeStep;
    if steps != [] {
      BootStepKeepsSettling(s, steps[0]);
      RunKeepsSettling(TakeStep(s, steps[0]), steps[1..]);
    }
  }

  // ---------------------------------------------------------------------
  // Loads
  // ---------------------------------------------------------------------

  lemma LoadKeepsActors(s: System, plan: Services)
    requires Synchronised(s) && CanStep(s, Load(plan))
    ensures var t := AfterLoad(s, plan);
            && ActorsSettled(t) && OthersIdle(t) && t.queue == [] && t.awaiting == None && !t.halted
  {
    hide WellFormed, Follows, Calm, Overlord.Reload, Leftovers, Filter, New;
    Domains(s);
    NewIsCalm();
    var t := AfterLoad(s, plan);
    forall n | n in t.actors
      ensures Calm(t.actors[n]) && t.actors[n].state != Stopping && UnsentUp(t, n) && Idle(t, n)
    {
    }
  }

  lemma NewIsCalm()
    ensures forall config :: Calm(New(config)) && New(config).state == Inactive && New(config).events == []
  {
  }

  lemma LoadFollowed(s: System, plan: Services)
    requires Synchronised(s) && CanStep(s, Load(plan))
    ensures WellFormed(AfterLoad(s, plan)) && AllFollow(AfterLoad(s, plan))
  {
    hide WellFormed, Follows, Calm, AfterLoad, Project, NotRetired;
    StepKeepsWellFormed(s, Load(plan));
    forall n ensures Follows(AfterLoad(s, plan), n) {
      assert Follows(s, n);
      RestingIsClean(s, n);
      StepFollows(s, Load(plan), n);
    }
  }

  lemma RestingIsClean(s: System, n: Name)
    requires Synchronised(s)
    ensures NothingUnderWay(s, n)
  {
    hide WellFormed, Calm, Tracked;
    assert Follows(s, n);
  }

  /** A load in a synchronised system, the first one included, sets out to start what the plan asks for. */
  lemma LoadSettles(s: System, plan: Services)
    requires Synchronised(s) && CanStep(s, Load(plan))
    ensures Settling(AfterLoad(s, plan)) && AfterLoad(s, plan).boss.plan == plan
  {
    hide Synchronised, WellFormed, AllFollow, NoLostWakeup, PendingEnabled, ActorsSettled, OthersIdle, Overlord.Reload,
         Leftovers, Filter;
    LoadKeepsActors(s, plan);
    LoadFollowed(s, plan);
    LoadEstablishesNoLostWakeup(s.boss, plan);
    SnapshotsValid(s);
    ReloadShape(s.boss, plan);
    ReloadStartsReady(s.boss, plan);
    ReloadCoversEnabled(s.boss, plan);
  }

  lemma SnapshotsValid(s: System)
    requires Synchronised(s)
    ensures s.boss.snaps.Valid()
  {
    hide Told, Follows, Calm;
  }

  lemma NothingIsSynchronised()
    ensures Synchronised(Nothing())
  {
    assert forall n :: Project([], n) == [];
  }

  lemma BootIsSettling(plan: Services)
    requires plan.Valid()
    ensures Settling(Booted(plan)) && Booted(plan).boss.plan == plan
  {
    hide Settling, Synchronised, AfterLoad;
    NothingIsSynchronised();
    BootedWellFormed(plan);
    LoadSettles(Nothing(), plan);
  }

  lemma BootShape(plan: Services)
    ensures var t := Booted(plan);
            && t.boss == Overlord.Reload(Nothing().boss, plan).0 && t.outbox == Overlord.Reload(Nothing().boss, plan).1
            && t.queue == [] && t.awaiting == None && !t.halted && t.log == []
            && OthersIdle(t)
            && (forall n :: n in t.actors ==> t.actors[n] == New(t.actors[n].config))
  {
    hide Overlord.Reload, Leftovers, Filter;
  }

  /** On a load every enabled service is either started or deferred. */
  lemma ReloadCoversEnabled(b: Overlord.State, plan: Services)
    requires plan.Valid()
    ensures var (b', commands) := Overlord.Reload(b, plan);
            forall n :: IsEnabled(plan, n) ==> n in b'.pending || (n, Start) in commands
  {
    hide DepsRunning, ToAll, AddAll, SyncActors, Filter;
    SyncedKeys(b.snaps, plan);
  }

  lemma SyncedKeys(snaps: Snapshots, plan: Services)
    ensures SyncActors(snaps, plan).vals.Keys == plan.vals.Keys
  {
    hide Filter, AddAll;
  }

  // ---------------------------------------------------------------------
  // Where it ends
  // ---------------------------------------------------------------------

  /** Nothing is on its way any more. */
  ghost predicate Quiescent(s: System) {
    s.outbox == [] && s.awaiting == None && s.queue == []
  }

  /** Every dependency of an enabled service is enabled, and the dependencies have no cycle. */
  ghost predicate Sound(plan: Services, rank: Name -> nat) {
    forall n, d :: n in plan.vals && plan.vals[n].startup == Startup.Enabled && DependsOn(plan, n, d) ==>
      d in plan.vals && plan.vals[d].startup == Startup.Enabled && rank(d) < rank(n)
  }

  lemma QuiescentSnapshots(s: System, n: Name)
    requires Settling(s) && Quiescent(s) && n in s.actors
    ensures n in s.boss.snaps.vals && s.boss.snaps.vals[n] == s.actors[n].state
  {
    hide WellFormed, NobodyForgotten, NoLostWakeup, StateAfter, ActorsSettled, NotRetired;
    ActorsHaveSnapshots(s, n);
    assert Idle(s, n) && Follows(s, n) && Project(s.queue, n) == [];
    FollowsMeans(s, n);
  }

  lemma BlockingDependency(b: Overlord.State, n: Name) returns (d: Name)
    requires NoLostWakeup(b) && n in b.pending
    ensures DependsOn(b.plan, n, d) && !RunningIn(b.snaps, d)
  {
    var c := b.plan.vals[n];
    if d' :| d' in c.after + c.required && !RunningIn(b.snaps, d') {
      d := d';
    } else {
      d :| d in b.plan.vals && d != n && n in b.plan.vals[d].before && !RunningIn(b.snaps, d);
    }
  }

  lemma {:induction false} NothingPendingAtTheEnd(s: System, rank: Name -> nat, n: Name)
    requires Settling(s) && Quiescent(s) && Sound(s.boss.plan, rank)
    ensures n !in s.boss.pending
    decreases rank(n)
  {
    hide WellFormed, AllFollow, NoLostWakeup, DependsOn, OthersIdle, ActorsSettled, OnlyUpEvents, OnlyStarts;
    if n in s.boss.pending {
      var d := BlockingDependency(s.boss, n);
      NothingPendingAtTheEnd(s, rank, d);
      assert IsEnabled(s.boss.plan, d);
      QuiescentSnapshots(s, d);
    }
  }

  lemma EnabledRuns(s: System, rank: Name -> nat, n: Name)
    requires Settling(s) && Quiescent(s) && Sound(s.boss.plan, rank) && IsEnabled(s.boss.plan, n)
    ensures s.boss.pending == [] && n in s.actors && s.actors[n].state == Active
    ensures n in s.boss.snaps.vals && s.boss.snaps.vals[n] == Active
  {
    hide WellFormed, AllFollow, NoLostWakeup, PendingEnabled, OthersIdle, ActorsSettled, OnlyUpEvents, OnlyStarts,
         Sound;
    if s.boss.pending != [] {
      NothingPendingAtTheEnd(s, rank, s.boss.pending[0]);
    }
    assert n in s.actors && s.actors[n].state == Active;
    QuiescentSnapshots(s, n);
  }

  /** A load that has come to rest leaves the system synchronised again. */
  lemma RestIsSynchronised(s: System)
    requires Settling(s) && Quiescent(s)
    ensures Synchronised(s)
  {
    hide WellFormed, Follows, Calm, NoLostWakeup, NobodyForgotten, OnlyUpEvents, OnlyStarts, PendingEnabled;
    Domains(s);
    forall n | n in s.actors
      ensures Calm(s.actors[n]) && s.actors[n].state != Stopping
      ensures n in s.heard && n in s.flushed && s.heard[n] == s.flushed[n] == |s.actors[n].events|
    {
      RestingActor(s, n);
    }
  }

  lemma RestingActor(s: System, n: Name)
    requires WellFormed(s) && Follows(s, n) && Idle(s, n) && s.queue == []
    ensures s.heard[n] == s.flushed[n] == |s.actors[n].events|
  {
    hide Told, StateAfter, NotRetired;
    assert Project(s.queue, n) == [];
  }

  /**
    A plan loaded into a synchronised system, whether the first or a reload: when every dependency is enabled and there
    is no cycle, and no start fails and nothing exits, then at rest nothing is deferred and every enabled service is
    Active, as the snapshots say too, and the system is synchronised again.
    */
  lemma LoadStartsEverything(s: System, plan: Services, steps: seq<Step>, rank: Name -> nat, n: Name)
    requires Synchronised(s) && CanStep(s, Load(plan))
    requires CanRun(AfterLoad(s, plan), steps) && AllBootSteps(steps)
    requires Quiescent(After(AfterLoad(s, plan), steps)) && Sound(plan, rank)
    requires n in plan.vals && plan.vals[n].startup == Startup.Enabled
    ensures var t := After(AfterLoad(s, plan), steps);
            && t.boss.pending == []
            && n in t.actors && t.actors[n].state == Active
            && n in t.boss.snaps.vals && t.boss.snaps.vals[n] == Active
            && Synchronised(t)
  {
    hide AfterLoad, Settling, Synchronised, Sound, CanRun, After, Quiescent;
    LoadSettles(s, plan);
    RunKeepsSettling(AfterLoad(s, plan), steps);
    EnabledRuns(After(AfterLoad(s, plan), steps), rank, n);
    RestIsSynchronised(After(AfterLoad(s, plan), steps));
  }

  /** The first load in particular. */
  lemma BootStartsEverything(plan: Services, steps: seq<Step>, rank: Name -> nat, n: Name)
    requires plan.Valid() && CanRun(Booted(plan), steps) && AllBootSteps(steps)
    requires Quiescent(After(Booted(plan), steps)) && Sound(plan, rank)
    requires n in plan.vals && plan.vals[n].startup == Startup.Enabled
    ensures var s := After(Booted(plan), steps);
            && s.boss.pending == []
            && n in s.actors && s.actors[n].state == Active
            && n in s.boss.snaps.vals && s.boss.snaps.vals[n] == Active
  {
    hide AfterLoad, Synchronised, Sound, CanRun, After, Quiescent;
    NothingIsSynchronised();
    BootedWellFormed(plan);
    LoadStartsEverything(Nothing(), plan, steps, rank, n);
  }

  // ---------------------------------------------------------------------
  // That the boot ends
  // ---------------------------------------------------------------------

  /** Each boot step makes this smaller. */
  function BootWork(s: System): nat {
    7 * |s.boss.pending| + 6 * |s.outbox| + (if s.awaiting.Some? then 1 else 0) + 2 * Backlog(s) + |s.queue|
  }

  /** Room the boot may still need in the event queue. */
  function BootDemand(s: System): nat {
    2 * |s.boss.pending| + 2 * |s.outbox| + Backlog(s) + |s.queue|
  }

  lemma BootStepWorks(s: System, step: Step)
    requires Settling(s) && CanStep(s, step) && BootStep(step)
    ensures BootWork(TakeStep(s, step)) < BootWork(s)
    ensures BootDemand(TakeStep(s, step)) <= BootDemand(s)
  {
    hide WellFormed, AllFollow, NoLostWakeup, ActorsSettled, NobodyForgotten, PendingEnabled, ServiceActor.Step,
         CanHappen, OnEvent, UpEvent;
    OutboxKnown(s);
    match step
    case Consume =>
      assert s.queue[0] in s.queue;
      UpEventStartsPending(s.boss, s.queue[0].0, s.queue[0].1);
    case Deliver(ok) =>
      var (name, c) := s.outbox[0];
      RunningTakesCommands(s.actors[name], c, ok);
      CommandEmitsAtMostTwo(s.actors[name], c, ok);
    case _ =>
  }

  lemma {:induction false} BootRunsAreShort(s: System, steps: seq<Step>)
    requires Settling(s) && CanRun(s, steps) && AllBootSteps(steps)
    ensures |steps| + BootWork(After(s, steps)) <= BootWork(s)
    ensures BootDemand(After(s, steps)) <= BootDemand(s)
    decreases |steps|
  {
    hide Settling, BootWork, BootDemand, CanStep, TakeStep;
    if steps != [] {
      BootStepKeepsSettling(s, steps[0]);
      BootStepWorks(s, steps[0]);
      BootRunsAreShort(TakeStep(s, steps[0]), steps[1..]);
    }
  }

  function NextBootStep(s: System): Step {
    if s.awaiting.Some? then if Backlog(s) > 0 then Flush(s.awaiting.value) else Reply
    else if s.outbox != [] then Deliver(true)
    else Consume
  }

  /** A load that is not at rest goes on unless it is stuck. */
  lemma GoesOnUnlessStuck(s: System)
    requires Settling(s) && !Quiescent(s) && !Stuck(s)
    ensures BootStep(NextBootStep(s)) && CanStep(s, NextBootStep(s))
  {
    hide WellFormed, AllFollow, NoLostWakeup, ActorsSettled, NobodyForgotten, OnlyUpEvents, PendingEnabled;
    OutboxKnown(s);
  }

  lemma BootGoesOn(s: System)
    requires Settling(s) && !Quiescent(s) && BootDemand(s) <= QUEUE_CAPACITY
    ensures BootStep(NextBootStep(s)) && CanStep(s, NextBootStep(s))
  {
    hide Settling, Quiescent;
    GoesOnUnlessStuck(s);
  }

  function EnabledNames(plan: Services): seq<Name> {
    Filter(plan.keys, n => IsEnabled(plan, n))
  }

  lemma DemandAtStart(s: System, plan: Services)
    requires Synchronised(s)
    ensures BootDemand(AfterLoad(s, plan)) <= 2 * |EnabledNames(plan)|
  {
    hide Overlord.Reload, Leftovers, WellFormed, Follows, Calm;
    DemandOfReload(s.boss, plan);
  }

  lemma DemandOfReload(b: Overlord.State, plan: Services)
    ensures var (b', commands) := Overlord.Reload(b, plan);
            |b'.pending| + |commands| <= |EnabledNames(plan)|
  {
    hide DepsRunning, Filter, SyncActors, AddAll;
    var loaded := State(plan, SyncActors(b.snaps, plan), []);
    AddAllAdds([], WaitingNow(loaded));
    ReadyOrWaiting(loaded, plan.keys);
  }

  lemma {:induction false} AddAllAdds<T(!new)>(base: seq<T>, xs: seq<T>)
    ensures |AddAll(base, xs)| <= |base| + |xs|
    decreases |xs|
  {
    if xs != [] {
      AddAllAdds(base, xs[..|xs| - 1]);
    }
  }

  lemma {:induction false} ReadyOrWaiting(s: Overlord.State, names: seq<Name>)
    ensures |Filter(names, n => ReadyToStart(s.plan, s.snaps, n))| + |Filter(names, n => MustWait(s.plan, s.snaps, n))|
            == |Filter(names, n => IsEnabled(s.plan, n))|
    decreases |names|
  {
    hide DepsRunning;
    if names != [] {
      ReadyOrWaiting(s, names[..|names| - 1]);
    }
  }

  /**
    With at most half as many enabled services as the event queue has room for, a load into a synchronised system
    cannot get stuck: after any steps it either is at rest or goes on, and it takes a bounded number of steps.
    */
  lemma LoadComesToRest(s: System, plan: Services, steps: seq<Step>)
    requires Synchronised(s) && CanStep(s, Load(plan))
    requires CanRun(AfterLoad(s, plan), steps) && AllBootSteps(steps)
    requires 2 * |EnabledNames(plan)| <= QUEUE_CAPACITY
    ensures |steps| <= BootWork(AfterLoad(s, plan))
    ensures var t := After(AfterLoad(s, plan), steps);
            !Quiescent(t) ==> exists step :: BootStep(step) && CanStep(t, step)
  {
    hide AfterLoad, Settling, Synchronised, BootWork, BootDemand, CanRun, After, EnabledNames, BootStep;
    LoadSettles(s, plan);
    DemandAtStart(s, plan);
    RunKeepsSettling(AfterLoad(s, plan), steps);
    BootRunsAreShort(AfterLoad(s, plan), steps);
    var t := After(AfterLoad(s, plan), steps);
    if !Quiescent(t) {
      BootGoesOn(t);
    }
  }

  /** The first load in particular. */
  lemma BootComesToRest(plan: Services, steps: seq<Step>)
    requires plan.Valid() && CanRun(Booted(plan), steps) && AllBootSteps(steps)
    requires 2 * |EnabledNames(plan)| <= QUEUE_CAPACITY
    ensures |steps| <= BootWork(Booted(plan))
    ensures var s := After(Booted(plan), steps);
            !Quiescent(s) ==> exists step :: BootStep(step) && CanStep(s, step)
  {
    hide AfterLoad, Synchronised, BootWork, CanRun, After, EnabledNames, BootStep;
    NothingIsSynchronised();
    BootedWellFormed(plan);
    LoadComesToRest(Nothing(), plan, steps);
  }

  // ---------------------------------------------------------------------
  // The first round of a boot
  // ---------------------------------------------------------------------

  lemma BootRoundIsFresh(plan: Services)
    requires plan.Valid()
    ensures var s := Booted(plan);
            && InRound(s) && NamedOnce(s.outbox) && s.awaiting == None && s.queue == []
            && forall i :: 0 <= i < |s.outbox| ==>
                 s.outbox[i].1 == Start && s.outbox[i].0 in s.actors && CanStartAfresh(s.actors[s.outbox[i].0])
  {
    hide Overlord.Reload, Leftovers, Filter;
    BootedWellFormed(plan);
    BootShape(plan);
    ReloadStartsOnce(Nothing().boss, plan);
    OutboxKnown(Booted(plan));
  }

  lemma ReloadStartsOnce(b: Overlord.State, plan: Services)
    requires plan.Valid()
    ensures var commands := Overlord.Reload(b, plan).1;
            && (forall i :: 0 <= i < |commands| ==> commands[i].1 == Start)
            && (forall i, j :: 0 <= i < j < |commands| ==> commands[i].0 != commands[j].0)
  {
    hide DepsRunning, ToAll, SyncActors, AddAll, WaitingNow;
    var loaded := State(plan, SyncActors(b.snaps, plan), []);
    FilterDistinct(plan.keys, n => ReadyToStart(loaded.plan, loaded.snaps, n));
    assert Distinct(ReadyNow(loaded));
    ToAllDistinct(loaded.snaps, ReadyNow(loaded), Start);
    assert Overlord.Reload(b, plan).1 == ToAll(loaded.snaps, ReadyNow(loaded), Start);
  }

  lemma {:induction false} ToAllDistinct(snaps: Snapshots, names: seq<Name>, c: Command)
    requires Distinct(names)
    ensures var r := ToAll(snaps, names, c);
            && (forall i :: 0 <= i < |r| ==> r[i].1 == c && r[i].0 in names)
            && (forall i, j :: 0 <= i < j < |r| ==> r[i].0 != r[j].0)
    decreases |names|
  {
    hide ToAll;
    if names == [] {
      ToAllOfNothing(snaps, c);
    } else {
      var front, last := names[..|names| - 1], names[|names| - 1];
      ToAllDistinct(snaps, front, c);
      assert last !in front && names == front + [last];
      ToAllStep(snaps, front, last, c);
      var r := ToAll(snaps, front, c);
      assert forall i :: 0 <= i < |r| ==> r[i].0 in front;
    }
  }

  /** The services started right away are started, all of them, exactly when there are at most 128. */
  lemma FirstRoundCompletesExactly(plan: Services)
    requires plan.Valid()
    ensures (exists steps :: && AllRoundSteps(steps) && CanRun(Booted(plan), steps)
                             && RoundOver(After(Booted(plan), steps)))
            <==> |Booted(plan).outbox| <= 128
  {
    hide Booted, InRound, CanRun, After;
    BootRoundIsFresh(plan);
    StartsCompleteExactly(Booted(plan));
  }
}
