/**
  A gap between the documentation and the program: a dependency counts as running from Starting on, so a service
  is started automatically although the spawn of the service it waits for failed. And exactly when it is not.
  */
module DependencyGap {
  import opened Prelude
  import opened OrderedMaps
  import opened ServiceActor
  import opened Overlord
  import opened Supervision
  import opened PendingAutostart

  /** Two enabled services, where `n` comes after `d` and nothing else is said. */
  ghost predicate Pair(plan: Services, d: Name, n: Name) {
    && plan.Valid() && d != n && plan.keys == [d, n]
    && IsEnabled(plan, d) && IsEnabled(plan, n)
    && plan.vals[d].after == plan.vals[d].required == plan.vals[d].before == []
    && plan.vals[n].after == [d] && plan.vals[n].required == plan.vals[n].before == []
  }

  lemma FilterTwo<T(!new)>(a: T, b: T, p: T -> bool)
    ensures Filter([a, b], p) == (if p(a) then [a] else []) + if p(b) then [b] else []
  {
    assert [a, b][..1] == [a] && [a][..0] == [];
  }

  lemma ToAllOne(snaps: Snapshots, name: Name, c: Command)
    requires name in snaps.vals
    ensures ToAll(snaps, [name], c) == [(name, c)]
  {
    assert [name][..0] == [];
  }

  lemma DepsOfPair(plan: Services, d: Name, n: Name, snaps: Snapshots)
    requires Pair(plan, d, n)
    ensures DepsRunning(plan, snaps, d)
    ensures DepsRunning(plan, snaps, n) <==> RunningIn(snaps, d)
  {
    assert forall o :: o in plan.vals ==> o in plan.keys && (o == d || o == n);
  }

  lemma PairBoots(plan: Services, d: Name, n: Name)
    requires Pair(plan, d, n)
    ensures var s := Booted(plan);
            && s.outbox == [(d, Start)] && s.boss.pending == [n] && s.awaiting == None && s.queue == [] && !s.halted
            && s.boss.plan == plan && d in s.boss.snaps.vals && n in s.boss.snaps.vals
            && d in s.actors && n in s.actors && d in s.flushed && n in s.flushed
            && s.actors[d] == New(plan.vals[d].ForActor()) && s.actors[n] == New(plan.vals[n].ForActor())
            && s.flushed[d] == s.flushed[n] == 0
  {
    hide DepsRunning, SyncActors, Leftovers, Filter, ToAll;
    var loaded := State(plan, SyncActors(EmptyMap(), plan), []);
    InactiveAtLoad(plan, d, n);
    DepsOfPair(plan, d, n, loaded.snaps);
    FilterTwo(d, n, m => ReadyToStart(loaded.plan, loaded.snaps, m));
    FilterTwo(d, n, m => MustWait(loaded.plan, loaded.snaps, m));
    ToAllOne(loaded.snaps, d, Start);
    assert ReadyNow(loaded) == [d] && WaitingNow(loaded) == [n];
    AddAllToEmpty([n]);
  }

  lemma InactiveAtLoad(plan: Services, d: Name, n: Name)
    requires Pair(plan, d, n)
    ensures var snaps := SyncActors(EmptyMap(), plan);
            d in snaps.vals && n in snaps.vals && !RunningIn(snaps, d) && !RunningIn(snaps, n)
  {
    hide Filter, AddAll;
  }

  /** The events of a start whose spawn fails. */
  lemma FailedStart(a: ActorState)
    requires a == New(a.config)
    ensures var b := HandleStart(a, false);
            && b.events == [StateChanged(Starting), StateChanged(Error)] && b.state == Error && b.spawned == 0
  {
  }

  lemma StartedEvent(s: System, d: Name, n: Name)
    requires s.queue != [] && s.queue[0] == (d, StateChanged(Starting))
    requires Pair(s.boss.plan, d, n) && s.boss.pending == [n]
    requires d in s.boss.snaps.vals && n in s.boss.snaps.vals
    ensures AfterConsume(s).outbox == [(n, Start)] && !AfterConsume(s).halted
  {
    hide DepsRunning, Filter, ToAll;
    var heard := Hear(s.boss, d, Starting);
    DepsOfPair(s.boss.plan, d, n, heard.snaps);
    FilterEverything(heard.pending, m => DepsRunning(heard.plan, heard.snaps, m));
    assert ReadyPending(heard) == [n];
    ToAllOne(heard.snaps, n, Start);
  }

  /** The dependency fails to spawn, and the service after it is spawned all the same. */
  lemma FailedDependencyUnblocks(plan: Services, d: Name, n: Name)
    requires Pair(plan, d, n)
    ensures var steps := [Deliver(false), Flush(d), Flush(d), Reply, Consume, Deliver(true)];
            && AllUnattended(steps) && CanRun(Booted(plan), steps)
            && d in After(Booted(plan), steps).actors && n in After(Booted(plan), steps).actors
            && After(Booted(plan), steps).actors[d].state == Error
            && After(Booted(plan), steps).actors[d].spawned == 0
            && After(Booted(plan), steps).actors[n].state == Active
            && After(Booted(plan), steps).actors[n].spawned == 1
  {
    hide Booted, OnEvent, CanRun, After;
    PairBoots(plan, d, n);
    var s0 := Booted(plan);
    FailedStart(s0.actors[d]);
    var s1 := TakeStep(s0, Deliver(false));
    var s2 := TakeStep(s1, Flush(d));
    var s3 := TakeStep(s2, Flush(d));
    var s4 := TakeStep(s3, Reply);
    assert s4.queue[0] == (d, StateChanged(Starting));
    StartedEvent(s4, d, n);
    var s5 := TakeStep(s4, Consume);
    var s6 := TakeStep(s5, Deliver(true));
    RunSix(s0, Deliver(false), Flush(d), Flush(d), Reply, Consume, Deliver(true));
  }

  lemma RunSix(s: System, a: Step, b: Step, c: Step, d: Step, e: Step, f: Step)
    requires CanStep(s, a) && CanStep(TakeStep(s, a), b) && CanStep(TakeStep(TakeStep(s, a), b), c)
    requires CanStep(TakeStep(TakeStep(TakeStep(s, a), b), c), d)
    requires CanStep(TakeStep(TakeStep(TakeStep(TakeStep(s, a), b), c), d), e)
    requires CanStep(TakeStep(TakeStep(TakeStep(TakeStep(TakeStep(s, a), b), c), d), e), f)
    ensures CanRun(s, [a, b, c, d, e, f])
    ensures After(s, [a, b, c, d, e, f])
            == TakeStep(TakeStep(TakeStep(TakeStep(TakeStep(TakeStep(s, a), b), c), d), e), f)
  {
    hide CanStep, TakeStep, CanRun, After;
    var s1 := TakeStep(s, a);
    var s2 := TakeStep(s1, b);
    var s3 := TakeStep(s2, c);
    var s4 := TakeStep(s3, d);
    var s5 := TakeStep(s4, e);
    assert [f] + [] == [f] && [e] + [f] == [e, f] && [d] + [e, f] == [d, e, f];
    assert [c] + [d, e, f] == [c, d, e, f] && [b] + [c, d, e, f] == [b, c, d, e, f];
    assert [a] + [b, c, d, e, f] == [a, b, c, d, e, f];
    RunNothing(TakeStep(s5, f));
    RunStep(s5, f, []);
    RunStep(s4, e, [f]);
    RunStep(s3, d, [e, f]);
    RunStep(s2, c, [d, e, f]);
    RunStep(s1, b, [c, d, e, f]);
    RunStep(s, a, [b, c, d, e, f]);
  }

  // ---------------------------------------------------------------------
  // When the documented order holds
  // ---------------------------------------------------------------------

  /** An actor that has never spawned a process has nothing that could spawn one. */
  predicate NeverUp(a: ActorState) {
    a.spawned == 0 ==>
      && a.child == None && a.backoffSleep == None && !a.stopDeadline && !a.pendingRestart && a.alive == {}
      && a.state in {Inactive, Error}
  }

  lemma MoveSpawns(a: ActorState, i: Input)
    requires NeverUp(a) && CanHappen(a, i) && (IsInternal(i) || i.StartCmd? || i.StopCmd?)
    ensures var b := ServiceActor.Step(a, i);
            && NeverUp(b) && b.spawned >= a.spawned && (b.spawned > a.spawned ==> b.state == Active)
            && (b.spawned > 0 <==> a.spawned > 0 || i == StartCmd(true))
  {
    hide Config.Delay, Config.NextDelay, Config.Limit, Config.Policy;
  }

  /** The log holds a Start of `n` whose spawn succeeded. */
  ghost predicate StartedWell(log: seq<Delivery>, n: Name) {
    exists j :: 0 <= j < |log| && StartOf(log[j], n) && log[j].ok
  }

  /** A service has spawned a process exactly if a Start of it has succeeded. */
  ghost predicate SpawnsAreStarts(s: System) {
    forall n :: n in s.actors ==> NeverUp(s.actors[n]) && (s.actors[n].spawned > 0 <==> StartedWell(s.log, n))
  }

  lemma OneMoreDelivery(log: seq<Delivery>, d: Delivery, n: Name)
    ensures StartedWell(log + [d], n) <==> StartedWell(log, n) || (StartOf(d, n) && d.ok)
  {
    var longer := log + [d];
    assert longer[|log|] == d;
    if StartedWell(log, n) {
      var j :| 0 <= j < |log| && StartOf(log[j], n) && log[j].ok;
      assert StartOf(longer[j], n) && longer[j].ok;
    }
    if StartedWell(longer, n) {
      var j :| 0 <= j < |longer| && StartOf(longer[j], n) && longer[j].ok;
      assert j < |log| ==> longer[j] == log[j];
    }
  }

  /** One step of an actor `n`: it spawns only into Active, and has spawned exactly if it was started well. */
  ghost predicate Moved(s: System, t: System, n: Name) {
    && (n in t.actors <==> n in s.actors)
    && (n in s.actors ==>
          && NeverUp(t.actors[n]) && t.actors[n].spawned >= s.actors[n].spawned
          && (t.actors[n].spawned > s.actors[n].spawned ==> t.actors[n].state == Active)
          && (t.actors[n].spawned > 0 <==> StartedWell(t.log, n)))
  }

  lemma DeliverMovesWell(s: System, ok: bool, n: Name)
    requires OutboxOrdered(s) && SpawnsAreStarts(s) && CanStep(s, Deliver(ok))
    ensures Moved(s, AfterDeliver(s, ok), n)
  {
    hide StartedWell, StartableAfter, ServiceActor.Step, CanHappen, NeverUp;
    var (name, c) := s.outbox[0];
    assert s.outbox[0] in s.outbox;
    OneMoreDelivery(s.log, Delivery(name, c, ok), n);
    if n == name {
      RunningTakesCommands(s.actors[n], c, ok);
      MoveSpawns(s.actors[n], AsInput(c, ok));
    }
  }

  lemma UnattendedMoves(s: System, step: Step, n: Name)
    requires OutboxOrdered(s) && SpawnsAreStarts(s) && CanStep(s, step) && Unattended(step)
    ensures Moved(s, TakeStep(s, step), n)
    ensures s.log <= TakeStep(s, step).log && |TakeStep(s, step).log| <= |s.log| + 1
  {
    hide OutboxOrdered, StartedWell, ServiceActor.Step, CanHappen, NeverUp, OnEvent;
    match step
    case Deliver(ok) => DeliverMovesWell(s, ok, n);
    case Internal(m, i) => MoveSpawns(s.actors[m], i);
    case _ =>
  }

  lemma UnattendedKeepsSpawns(s: System, step: Step)
    requires OutboxOrdered(s) && SpawnsAreStarts(s) && CanStep(s, step) && Unattended(step)
    ensures SpawnsAreStarts(TakeStep(s, step))
  {
    hide OutboxOrdered, CanStep, TakeStep, StartedWell, NeverUp;
    forall n | n in TakeStep(s, step).actors
      ensures NeverUp(TakeStep(s, step).actors[n])
      ensures TakeStep(s, step).actors[n].spawned > 0 <==> StartedWell(TakeStep(s, step).log, n)
    {
      UnattendedMoves(s, step, n);
    }
  }

  /** At some moment of the run with at most `i` commands handled, `d` is Active. */
  ghost predicate ActiveBefore(s: System, steps: seq<Step>, i: nat, d: Name)
    requires CanRun(s, steps)
    decreases |steps|
  {
    |s.log| <= i && (
      || (d in s.actors && s.actors[d].state == Active)
      || (steps != [] && ActiveBefore(TakeStep(s, steps[0]), steps[1..], i, d)))
  }

  lemma ActiveHasSpawned(s: System, d: Name)
    requires SpawnsAreStarts(s) && d in s.actors && s.actors[d].state == Active
    ensures s.actors[d].spawned > 0
  {
    hide StartedWell;
  }

  lemma {:induction false} LogGrows(s: System, steps: seq<Step>)
    requires OrderKept(s) && SpawnsAreStarts(s) && CanRun(s, steps) && AllUnattended(steps)
    ensures s.log <= After(s, steps).log
    decreases |steps|
  {
    hide OrderKept, SpawnsAreStarts, CanStep, TakeStep;
    if steps != [] {
      OutboxIsOrdered(s);
      UnattendedMoves(s, steps[0], "");
      UnattendedStepKeepsOrder(s, steps[0]);
      UnattendedKeepsSpawns(s, steps[0]);
      LogGrows(TakeStep(s, steps[0]), steps[1..]);
    }
  }

  lemma OutboxIsOrdered(s: System)
    requires OrderKept(s)
    ensures OutboxOrdered(s)
  {
  }

  lemma {:induction false} ActiveBeforeExactly(s: System, steps: seq<Step>, i: nat, d: Name)
    requires OrderKept(s) && SpawnsAreStarts(s) && CanRun(s, steps) && AllUnattended(steps) && d in s.actors
    requires |s.log| <= i <= |After(s, steps).log|
    ensures s.actors[d].spawned > 0 || ActiveBefore(s, steps, i, d) <==> StartedWell(After(s, steps).log[..i], d)
    decreases |steps|
  {
    hide OrderKept, CanStep, TakeStep, StartedWell, NeverUp;
    if s.actors[d].state == Active {
      ActiveHasSpawned(s, d);
    }
    if steps == [] {
      assert s.log[..i] == s.log;
    } else {
      OutboxIsOrdered(s);
      UnattendedMoves(s, steps[0], d);
      UnattendedStepKeepsOrder(s, steps[0]);
      UnattendedKeepsSpawns(s, steps[0]);
      var t := TakeStep(s, steps[0]);
      if |t.log| <= i {
        ActiveBeforeExactly(t, steps[1..], i, d);
      } else {
        LogGrows(t, steps[1..]);
        assert After(s, steps).log[..i] == s.log;
      }
    }
  }

  lemma BootSpawnsNothing(plan: Services)
    requires plan.Valid()
    ensures SpawnsAreStarts(Booted(plan)) && Booted(plan).log == []
    ensures Booted(plan).actors.Keys == plan.vals.Keys
    ensures forall n :: n in Booted(plan).actors ==> Booted(plan).actors[n].spawned == 0
  {
    hide Overlord.Reload, Leftovers, Filter;
  }

  /**
    The documented order, exactly: in every unattended run from the first load, a dependency of a service started
    automatically had been Active before, if and only if some Start of it before that had succeeded.
    */
  lemma DependencyWasActiveExactly(plan: Services, steps: seq<Step>, i: nat, d: Name)
    requires plan.Valid() && CanRun(Booted(plan), steps) && AllUnattended(steps)
    requires i < |After(Booted(plan), steps).log| && After(Booted(plan), steps).log[i].command == Start
    requires DependsOn(plan, After(Booted(plan), steps).log[i].name, d)
    ensures var log := After(Booted(plan), steps).log;
            ActiveBefore(Booted(plan), steps, i, d) <==> exists j :: 0 <= j < i && StartOf(log[j], d) && log[j].ok
  {
    hide Booted, OrderKept, SpawnsAreStarts, ActiveBefore, DependsOn, After, CanRun;
    BootOrdered(plan);
    BootSpawnsNothing(plan);
    DependencyIsPlanned(plan, steps, i, d);
    ActiveBeforeExactly(Booted(plan), steps, i, d);
    var log := After(Booted(plan), steps).log;
    if StartedWell(log[..i], d) {
      var j :| 0 <= j < |log[..i]| && StartOf(log[..i][j], d) && log[..i][j].ok;
      assert StartOf(log[j], d) && log[j].ok;
    }
    if j :| 0 <= j < i && StartOf(log[j], d) && log[j].ok {
      assert log[..i][j] == log[j];
    }
  }

  lemma DependencyIsPlanned(plan: Services, steps: seq<Step>, i: nat, d: Name)
    requires plan.Valid() && CanRun(Booted(plan), steps) && AllUnattended(steps)
    requires i < |After(Booted(plan), steps).log| && After(Booted(plan), steps).log[i].command == Start
    requires DependsOn(plan, After(Booted(plan), steps).log[i].name, d)
    ensures d in plan.vals
  {
    hide Booted, DependsOn, After, CanRun;
    StartsAreOrdered(plan, steps, i, d);
    var log := After(Booted(plan), steps).log;
    var j :| 0 <= j < i && StartOf(log[j], d);
    StartedIsEnabled(plan, steps, j);
  }

  lemma StartedIsEnabled(plan: Services, steps: seq<Step>, j: nat)
    requires plan.Valid() && CanRun(Booted(plan), steps) && AllUnattended(steps)
    requires j < |After(Booted(plan), steps).log| && After(Booted(plan), steps).log[j].command == Start
    ensures IsEnabled(plan, After(Booted(plan), steps).log[j].name)
  {
    hide Booted, WellFormed, OnlyStartedMove, OutboxOrdered, PendingEnabled, DependsOn, After, CanRun;
    BootOrdered(plan);
    UnattendedRunKeepsOrder(Booted(plan), steps);
    var log := After(Booted(plan), steps).log;
    assert StartableAfter(plan, log[..j], log[j].name);
  }
}
