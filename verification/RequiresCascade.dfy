/**
  The stop cascade along `requires`: who is stopped when a service falls, who is not, and that the cascade ends, on
  cyclic graphs too.
  */
module RequiresCascade {
  import opened Prelude
  import opened ServiceActor
  import opened ActorRuns
  import opened ActorHistory
  import opened Overlord
  import opened Supervision
  import opened SnapshotTracking

  /** After the fall only events are handled, the resulting Stops are sent, and stopped processes exit. */
  predicate CascadeStep(s: System, step: Step) {
    match step
    case Consume | Deliver(_) | Reply | Flush(_) => true
    case Internal(n, i) =>
      n in s.actors && (i.KillDeadline? || (i.ChildExit? && s.actors[n].state == Stopping))
    case _ => false
  }

  ghost predicate CanCascade(s: System, steps: seq<Step>)
    decreases |steps|
  {
    steps == [] || (CanStep(s, steps[0]) && CascadeStep(s, steps[0]) && CanCascade(TakeStep(s, steps[0]), steps[1..]))
  }

  ghost function AfterCascade(s: System, steps: seq<Step>): System
    requires CanCascade(s, steps)
    decreases |steps|
  {
    if steps == [] then s else AfterCascade(TakeStep(s, steps[0]), steps[1..])
  }

  // ---------------------------------------------------------------------
  // One actor winding down
  // ---------------------------------------------------------------------

  predicate Down(e: Event) {
    e.ProcessExited? || e in {StateChanged(Stopping), StateChanged(Inactive), StateChanged(Error)}
  }

  predicate DownFrom(events: seq<Event>, from: nat) {
    forall i :: from <= i < |events| ==> Down(events[i])
  }

  lemma StopWinds(a: ActorState)
    requires Calm(a)
    ensures var b := HandleStop(a);
            && Calm(b)
            && (a.state == Active ==> b.state == Stopping && b.events == a.events + [StateChanged(Stopping)])
            && (a.state != Active ==> b == a)
  {
    StepKeepsClean(a, StopCmd);
    hide Clean;
  }

  lemma KillWinds(a: ActorState)
    requires Calm(a) && CanHappen(a, KillDeadline)
    ensures var b := HandleKillDeadline(a);
            Calm(b) && a.state == Stopping && b.state == Stopping && b.events == a.events && !b.stopDeadline
  {
    StepKeepsClean(a, KillDeadline);
    KillOnlyStopping(a);
    hide Clean;
  }

  lemma KillOnlyStopping(a: ActorState)
    requires Clean(a) && a.stopDeadline
    ensures a.state == Stopping
  {
  }

  lemma ExitWinds(a: ActorState, success: bool, ok: bool)
    requires Calm(a) && a.state == Stopping && CanHappen(a, ChildExit(success, ok))
    ensures var b := HandleChildExit(a, success, ok);
            && Calm(b) && b.state == Inactive && !b.stopDeadline
            && b.events == a.events + [ProcessExited(success), StateChanged(Inactive)]
  {
    StepKeepsClean(a, ChildExit(success, ok));
    hide Clean;
  }

  // ---------------------------------------------------------------------
  // The start of a cascade
  // ---------------------------------------------------------------------

  predicate Terminal(state: ServiceState) {
    state == Inactive || state == Error
  }

  /**
    Everything is synchronised except for the `roots`: services that have fallen or are stopping and whose fall the
    supervisor has not heard of yet.
    */
  ghost predicate Falling(s: System, roots: set<Name>) {
    && WellFormed(s) && (forall n :: Follows(s, n))
    && s.outbox == [] && s.awaiting == None && !s.halted
    && roots <= s.actors.Keys
    && (forall n :: n in s.actors ==> Orderly(s.actors[n]))
    && (forall n :: n in s.actors && n !in roots ==>
          s.actors[n].state != Stopping && s.heard[n] == |s.actors[n].events|)
    && (forall n :: n in roots ==>
          && s.actors[n].state !in {Active, ServiceState.Backoff} && DownFrom(s.actors[n].events, s.heard[n])
          && !Terminal(s.boss.snaps.vals[n]))
  }

  /** A chain of running services, each requiring the one before, that starts at a root. */
  ghost predicate Chain(s0: System, roots: set<Name>, path: seq<Name>) {
    && path != [] && path[0] in roots
    && forall k :: 0 < k < |path| ==> Requires(s0.boss.plan, path[k], path[k - 1]) && WasActive(s0, path[k])
  }

  predicate Requires(plan: Services, name: Name, on: Name) {
    name in plan.vals && on in plan.vals[name].required
  }

  predicate WasActive(s0: System, n: Name) {
    n in s0.actors && s0.actors[n].state == Active
  }

  /** `n` is a root or requires one transitively through running services. */
  ghost predicate Reached(s0: System, roots: set<Name>, n: Name) {
    exists path :: Chain(s0, roots, path) && path[|path| - 1] == n
  }

  lemma ReachFurther(s0: System, roots: set<Name>, on: Name, n: Name)
    requires Reached(s0, roots, on) && Requires(s0.boss.plan, n, on) && WasActive(s0, n)
    ensures Reached(s0, roots, n)
  {
    hide Requires, WasActive;
    var path :| Chain(s0, roots, path) && path[|path| - 1] == on;
    assert Chain(s0, roots, path + [n]);
  }

  lemma RootsReached(s0: System, roots: set<Name>, n: Name)
    requires n in roots
    ensures Reached(s0, roots, n)
  {
    assert Chain(s0, roots, [n]);
  }

  lemma ReachedWasUp(s0: System, roots: set<Name>, n: Name)
    requires Reached(s0, roots, n)
    ensures n in roots || WasActive(s0, n)
  {
    var path :| Chain(s0, roots, path) && path[|path| - 1] == n;
  }

  // ---------------------------------------------------------------------
  // What every cascade step keeps
  // ---------------------------------------------------------------------

  /** One actor in the middle of a cascade. */
  ghost predicate Winds(s0: System, roots: set<Name>, s: System, n: Name)
    requires WellFormed(s0) && WellFormed(s) && n in s0.actors && n in s.actors
  {
    && Orderly(s.actors[n])
    && s0.heard[n] <= s.heard[n] && DownFrom(s.actors[n].events, s0.heard[n])
    && (n in roots ==> s.actors[n].state !in {Active, ServiceState.Backoff})
    && (n !in roots ==>
          || s.actors[n] == s0.actors[n]
          || (WasActive(s0, n) && Reached(s0, roots, n) && s.actors[n].state in {Stopping, Inactive}))
  }

  ghost predicate ActorsWind(s0: System, roots: set<Name>, s: System)
    requires WellFormed(s0) && WellFormed(s)
  {
    s.actors.Keys == s0.actors.Keys && forall n :: n in s.actors ==> Winds(s0, roots, s, n)
  }

  /** Stops go to reached services only. */
  ghost predicate StopsReached(s0: System, roots: set<Name>, s: System) {
    && (forall m :: m in s.outbox ==> m.1 == Stop && Reached(s0, roots, m.0))
    && s0.log <= s.log
    && (forall i :: |s0.log| <= i < |s.log| ==> s.log[i].command == Stop && Reached(s0, roots, s.log[i].name))
  }

  /** `e` is a root, or was running and has been stopped. */
  ghost predicate Fallen(s0: System, roots: set<Name>, s: System, e: Name) {
    e in roots || (e in s.actors && e in s0.actors && s.actors[e] != s0.actors[e])
  }

  /** A running service that requires a fallen one the supervisor has heard of is about to be sent a Stop. */
  ghost predicate DependentsToldToStop(s0: System, roots: set<Name>, s: System)
    requires WellFormed(s)
  {
    forall e, n ::
      && e in s.actors && Fallen(s0, roots, s, e) && Terminal(s.boss.snaps.vals[e])
      && n in s.actors && Requires(s0.boss.plan, n, e) && s.actors[n].state == Active
      ==> (n, Stop) in s.outbox
  }

  ghost predicate Cascading(s0: System, roots: set<Name>, s: System)
    requires Falling(s0, roots)
  {
    && WellFormed(s) && AllFollow(s)
    && s.boss.plan == s0.boss.plan && s.boss.pending == s0.boss.pending && !s.halted
    && ActorsWind(s0, roots, s) && StopsReached(s0, roots, s) && DependentsToldToStop(s0, roots, s)
  }

  lemma FallingShape(s0: System, roots: set<Name>)
    requires Falling(s0, roots)
    ensures WellFormed(s0) && roots <= s0.actors.Keys
    ensures forall n :: n in s0.actors && n !in roots ==>
              s0.actors[n].state != Stopping && s0.heard[n] == |s0.actors[n].events|
  {
    hide WellFormed, Follows, Orderly;
  }

  /** What a running actor tells about itself in the middle of a cascade. */
  lemma StillActive(s0: System, roots: set<Name>, s: System, n: Name)
    requires Falling(s0, roots) && Cascading(s0, roots, s)
    requires n in s.actors && s.actors[n].state == Active
    ensures n !in roots && s.actors[n] == s0.actors[n] && WasActive(s0, n)
    ensures s.heard[n] == s.flushed[n] == |s.actors[n].events|
    ensures Project(s.queue, n) == [] && s.boss.snaps.vals[n] == Active
  {
    hide Orderly, Reached, StopsReached, DependentsToldToStop, Project, StateAfter, NotRetired, DownFrom;
    FallingShape(s0, roots);
    assert Winds(s0, roots, s, n);
    assert Follows(s, n);
    FollowsMeans(s, n);
  }

  /** The event at the head of the queue is one of an actor that has fallen. */
  lemma HeadIsDown(s0: System, roots: set<Name>, s: System)
    requires Falling(s0, roots) && Cascading(s0, roots, s) && s.queue != []
    ensures var (name, e) := s.queue[0];
            && name in s.actors && Down(e) && s.actors[name].state != Active
            && Fallen(s0, roots, s, name) && Reached(s0, roots, name)
  {
    hide Orderly, Reached, StopsReached, DependentsToldToStop, Project, StateAfter, NotRetired, Down, Chain;
    var (name, e) := s.queue[0];
    FallingShape(s0, roots);
    ProjectTail(s.queue, name);
    assert Follows(s, name);
    assert name in s.actors;
    assert Winds(s0, roots, s, name);
    assert Project(s.queue, name)[0] == e;
    assert s.actors[name].events[s.heard[name]] == e;
    if name in roots {
      RootsReached(s0, roots, name);
    }
  }

  /** A snapshot still says running only for a root or a service that was running at the start. */
  lemma RunningSnapshot(s0: System, roots: set<Name>, s: System, n: Name)
    requires Falling(s0, roots) && Cascading(s0, roots, s) && RunningIn(s.boss.snaps, n)
    ensures n in roots || WasActive(s0, n)
  {
    hide Reached, StopsReached, DependentsToldToStop, Project, StateAfter, NotRetired, DownFrom, Clean;
    FallingShape(s0, roots);
    ActorOfSnapshot(s, n);
    assert Winds(s0, roots, s, n);
    assert Follows(s, n);
    if n !in roots && s.actors[n] == s0.actors[n] {
      assert s.actors[n].events[..s.heard[n]] == s.actors[n].events;
    }
  }

  lemma ActorOfSnapshot(s: System, n: Name)
    requires WellFormed(s)
    ensures n in s.actors <==> n in s.boss.snaps.vals
    ensures n in s.actors ==> StateAfter(s.actors[n].events) == s.actors[n].state
  {
    hide StateAfter;
  }

  // ---------------------------------------------------------------------
  // Consuming an event
  // ---------------------------------------------------------------------

  lemma DownEventOnlyStops(b: Overlord.State, name: Name, e: Event)
    requires Down(e) && name in b.snaps.vals
    ensures var (b', commands) := OnEvent(b, name, e);
            && b'.plan == b.plan && b'.pending == b.pending && !e.DaemonShutdown?
            && (e.StateChanged? ==> b'.snaps == b.snaps.Insert(name, e.newState))
            && (!e.StateChanged? ==> b'.snaps == b.snaps)
            && (e.StateChanged? && Terminal(e.newState) ==> commands == StopDependents(b', name))
            && (!e.StateChanged? || !Terminal(e.newState) ==> commands == [])
  {
    hide DepsRunning, Filter, ToAll;
  }

  lemma StopsOfDependents(b: Overlord.State, on: Name)
    requires b.plan.Valid()
    ensures forall m :: m in StopDependents(b, on) <==>
              m.1 == Stop && Requires(b.plan, m.0, on) && RunningIn(b.snaps, m.0)
  {
    hide ToAll;
    assert forall n :: n in b.plan.keys <==> n in b.plan.vals;
  }

  lemma ConsumeStopsReached(s0: System, roots: set<Name>, s: System)
    requires Falling(s0, roots) && Cascading(s0, roots, s) && CanStep(s, Consume)
    ensures StopsReached(s0, roots, AfterConsume(s))
    ensures AfterConsume(s).boss.plan == s.boss.plan && AfterConsume(s).boss.pending == s.boss.pending
    ensures !AfterConsume(s).halted
  {
    hide WellFormed, AllFollow, ActorsWind, DependentsToldToStop, Reached, OnEvent, StopDependents, Winds, Requires;
    var (name, e) := s.queue[0];
    HeadIsDown(s0, roots, s);
    PlanValid(s);
    ActorOfSnapshot(s, name);
    DownEventOnlyStops(s.boss, name, e);
    var t := AfterConsume(s);
    StopsOfDependents(t.boss, name);
    forall m | m in t.outbox ensures m.1 == Stop && Reached(s0, roots, m.0) {
      assert m.0 != name && RunningIn(s.boss.snaps, m.0);
      RunningSnapshot(s0, roots, s, m.0);
      if m.0 in roots {
        RootsReached(s0, roots, m.0);
      } else {
        ReachFurther(s0, roots, name, m.0);
      }
    }
  }

  lemma PlanValid(s: System)
    requires WellFormed(s)
    ensures s.boss.plan.Valid()
  {
    hide Told;
  }

  /** Hearing more of an actor that has not moved changes nothing. */
  lemma WindsFrame(s0: System, roots: set<Name>, s: System, t: System, n: Name)
    requires WellFormed(s0) && WellFormed(s) && WellFormed(t)
    requires n in s0.actors && n in s.actors && n in t.actors && Winds(s0, roots, s, n)
    requires t.actors[n] == s.actors[n] && s.heard[n] <= t.heard[n]
    ensures Winds(s0, roots, t, n)
  {
    hide Told, Reached, Orderly, DownFrom;
  }

  lemma ConsumeWinds(s0: System, roots: set<Name>, s: System)
    requires Falling(s0, roots) && Cascading(s0, roots, s) && CanStep(s, Consume)
    requires WellFormed(AfterConsume(s))
    ensures ActorsWind(s0, roots, AfterConsume(s))
  {
    hide Falling, WellFormed, AllFollow, StopsReached, DependentsToldToStop, OnEvent, Winds;
    FallingShape(s0, roots);
    Domains(s0);
    Domains(s);
    var t := AfterConsume(s);
    Domains(t);
    forall n | n in t.actors ensures Winds(s0, roots, t, n) {
      assert Winds(s0, roots, s, n);
      WindsFrame(s0, roots, s, t, n);
    }
  }

  lemma ConsumeTellsDependents(s0: System, roots: set<Name>, s: System)
    requires Falling(s0, roots) && Cascading(s0, roots, s) && CanStep(s, Consume)
    requires WellFormed(AfterConsume(s))
    ensures DependentsToldToStop(s0, roots, AfterConsume(s))
  {
    hide Falling, WellFormed, AllFollow, ActorsWind, StopsReached, Reached, OnEvent, StopDependents, Requires;
    var (name, e) := s.queue[0];
    HeadIsDown(s0, roots, s);
    PlanValid(s);
    ActorOfSnapshot(s, name);
    DownEventOnlyStops(s.boss, name, e);
    var t := AfterConsume(s);
    StopsOfDependents(t.boss, name);
    Domains(t);
    Domains(s);
    forall x, n | && x in t.actors && Fallen(s0, roots, t, x) && Terminal(t.boss.snaps.vals[x])
                  && n in t.actors && Requires(s0.boss.plan, n, x) && t.actors[n].state == Active
      ensures (n, Stop) in t.outbox
    {
      StillActive(s0, roots, s, n);
      if Terminal(s.boss.snaps.vals[x]) {
        assert Fallen(s0, roots, s, x);
        assert (n, Stop) in s.outbox;
      }
    }
  }

  // ---------------------------------------------------------------------
  // Delivering a Stop
  // ---------------------------------------------------------------------

  lemma ReachedIsCalm(s0: System, roots: set<Name>, s: System, n: Name)
    requires Falling(s0, roots) && Cascading(s0, roots, s) && n in s.actors && Reached(s0, roots, n)
    ensures Calm(s.actors[n])
  {
    hide Falling, WellFormed, AllFollow, StopsReached, DependentsToldToStop, Reached, Orderly, DownFrom;
    FallingShape(s0, roots);
    ReachedWasUp(s0, roots, n);
    assert Winds(s0, roots, s, n);
  }

  lemma DeliveredStop(s0: System, roots: set<Name>, s: System, ok: bool)
    requires Falling(s0, roots) && Cascading(s0, roots, s) && CanStep(s, Deliver(ok))
    ensures var (name, c) := s.outbox[0];
            && c == Stop && name in s.actors && Reached(s0, roots, name)
            && CanHappen(s.actors[name], StopCmd) && Calm(s.actors[name])
            && AfterDeliver(s, ok).actors == s.actors[name := HandleStop(s.actors[name])]
  {
    hide Falling, WellFormed, AllFollow, ActorsWind, DependentsToldToStop, Reached, Calm, HandleStop;
    assert s.outbox[0] in s.outbox;
    ReachedIsCalm(s0, roots, s, s.outbox[0].0);
  }

  lemma DeliverWinds(s0: System, roots: set<Name>, s: System, ok: bool)
    requires Falling(s0, roots) && Cascading(s0, roots, s) && CanStep(s, Deliver(ok))
    requires WellFormed(AfterDeliver(s, ok))
    ensures ActorsWind(s0, roots, AfterDeliver(s, ok))
  {
    hide Falling, WellFormed, AllFollow, StopsReached, DependentsToldToStop, Reached, Orderly, HandleStop,
         ServiceActor.Step;
    FallingShape(s0, roots);
    DeliveredStop(s0, roots, s, ok);
    Domains(s0);
    Domains(s);
    var t := AfterDeliver(s, ok);
    Domains(t);
    var name := s.outbox[0].0;
    StopWinds(s.actors[name]);
    forall n | n in t.actors ensures Winds(s0, roots, t, n) {
      assert Winds(s0, roots, s, n);
      if s.actors[n].state == Active {
        StillActive(s0, roots, s, n);
      }
      if n != name {
        WindsFrame(s0, roots, s, t, n);
      }
    }
  }

  lemma DeliverTellsDependents(s0: System, roots: set<Name>, s: System, ok: bool)
    requires Falling(s0, roots) && Cascading(s0, roots, s) && CanStep(s, Deliver(ok))
    requires WellFormed(AfterDeliver(s, ok))
    ensures DependentsToldToStop(s0, roots, AfterDeliver(s, ok))
  {
    hide Falling, WellFormed, AllFollow, ActorsWind, StopsReached, Reached, Orderly, HandleStop, ServiceActor.Step,
         Requires;
    DeliveredStop(s0, roots, s, ok);
    Domains(s);
    var t := AfterDeliver(s, ok);
    Domains(t);
    var name := s.outbox[0].0;
    StopWinds(s.actors[name]);
    if s.actors[name].state == Active {
      StillActive(s0, roots, s, name);
    }
    forall x, n | && x in t.actors && Fallen(s0, roots, t, x) && Terminal(t.boss.snaps.vals[x])
                  && n in t.actors && Requires(s0.boss.plan, n, x) && t.actors[n].state == Active
      ensures (n, Stop) in t.outbox
    {
      assert n != name;
      assert Fallen(s0, roots, s, x);
      assert (n, Stop) in s.outbox;
      assert s.outbox == [s.outbox[0]] + t.outbox;
    }
  }

  lemma DeliverStopsReached(s0: System, roots: set<Name>, s: System, ok: bool)
    requires Falling(s0, roots) && Cascading(s0, roots, s) && CanStep(s, Deliver(ok))
    ensures StopsReached(s0, roots, AfterDeliver(s, ok))
  {
    hide WellFormed, AllFollow, ActorsWind, DependentsToldToStop, Reached, ServiceActor.Step;
    DeliveredStop(s0, roots, s, ok);
  }

  // ---------------------------------------------------------------------
  // Processes being killed and exiting
  // ---------------------------------------------------------------------

  lemma InternalWound(s0: System, roots: set<Name>, s: System, name: Name, i: Input)
    requires Falling(s0, roots) && Cascading(s0, roots, s)
    requires CanStep(s, Internal(name, i)) && CascadeStep(s, Internal(name, i))
    ensures var a, b := s.actors[name], ServiceActor.Step(s.actors[name], i);
            && Calm(b) && a.state == Stopping && b.state in {Stopping, Inactive} && !b.stopDeadline
            && (b.state == Stopping ==> i.KillDeadline? && a.stopDeadline && b.events == a.events)
            && (b.state == Inactive ==>
                  i.ChildExit? && b.events == a.events + [ProcessExited(i.success), StateChanged(Inactive)])
            && a.events <= b.events && DownFrom(b.events, |a.events|)
  {
    hide WellFormed, AllFollow, StopsReached, DependentsToldToStop, Reached, HandleKillDeadline, HandleChildExit, Clean;
    FallingShape(s0, roots);
    assert Winds(s0, roots, s, name);
    if i.KillDeadline? {
      KillOnlyStopping(s.actors[name]);
      KillWinds(s.actors[name]);
    } else {
      ExitWinds(s.actors[name], i.success, i.ok);
    }
  }

  /** A stopping actor that is killed or exits is still on its way down. */
  lemma StoppingWinds(s0: System, roots: set<Name>, s: System, t: System, n: Name)
    requires WellFormed(s0) && WellFormed(s) && WellFormed(t)
    requires n in s0.actors && n in s.actors && n in t.actors && Winds(s0, roots, s, n)
    requires n !in roots ==> s0.actors[n].state != Stopping
    requires s0.heard[n] <= |s.actors[n].events| && t.heard[n] == s.heard[n]
    requires var a, b := s.actors[n], t.actors[n];
             && Calm(b) && a.state == Stopping && b.state in {Stopping, Inactive}
             && a.events <= b.events && DownFrom(b.events, |a.events|)
    ensures Winds(s0, roots, t, n)
  {
    hide Told, Reached, Orderly, Down;
  }

  lemma InternalWinds(s0: System, roots: set<Name>, s: System, name: Name, i: Input)
    requires Falling(s0, roots) && Cascading(s0, roots, s)
    requires CanStep(s, Internal(name, i)) && CascadeStep(s, Internal(name, i))
    requires WellFormed(TakeStep(s, Internal(name, i)))
    ensures ActorsWind(s0, roots, TakeStep(s, Internal(name, i)))
  {
    hide Falling, WellFormed, AllFollow, StopsReached, DependentsToldToStop, Winds, Orderly, ServiceActor.Step,
         CanHappen, DownFrom;
    FallingShape(s0, roots);
    InternalWound(s0, roots, s, name, i);
    Domains(s0);
    Domains(s);
    var t := TakeStep(s, Internal(name, i));
    Domains(t);
    HeardSoFar(s0, roots, s, name);
    forall n | n in t.actors ensures Winds(s0, roots, t, n) {
      assert Winds(s0, roots, s, n);
      if n == name {
        StoppingWinds(s0, roots, s, t, n);
      } else {
        WindsFrame(s0, roots, s, t, n);
      }
    }
  }

  lemma HeardSoFar(s0: System, roots: set<Name>, s: System, n: Name)
    requires WellFormed(s0) && WellFormed(s) && ActorsWind(s0, roots, s) && AllFollow(s) && n in s.actors
    ensures n in s0.heard && s0.heard[n] <= |s.actors[n].events|
  {
    hide Orderly, Reached, Told, StateAfter, Project, DownFrom;
    assert Winds(s0, roots, s, n) && Follows(s, n);
  }

  lemma InternalTellsDependents(s0: System, roots: set<Name>, s: System, name: Name, i: Input)
    requires Falling(s0, roots) && Cascading(s0, roots, s)
    requires CanStep(s, Internal(name, i)) && CascadeStep(s, Internal(name, i))
    requires WellFormed(TakeStep(s, Internal(name, i)))
    ensures DependentsToldToStop(s0, roots, TakeStep(s, Internal(name, i)))
  {
    hide Falling, WellFormed, AllFollow, StopsReached, Reached, Orderly, ServiceActor.Step, CanHappen, Requires,
         DownFrom;
    FallingShape(s0, roots);
    InternalWound(s0, roots, s, name, i);
    Domains(s);
    var t := TakeStep(s, Internal(name, i));
    Domains(t);
    assert Winds(s0, roots, s, name);
    forall x, n | && x in t.actors && Fallen(s0, roots, t, x) && Terminal(t.boss.snaps.vals[x])
                  && n in t.actors && Requires(s0.boss.plan, n, x) && t.actors[n].state == Active
      ensures (n, Stop) in t.outbox
    {
      assert Fallen(s0, roots, s, x);
    }
  }

  lemma StepKeepsCascading(s0: System, roots: set<Name>, s: System, step: Step)
    requires Falling(s0, roots) && Cascading(s0, roots, s)
    requires CanStep(s, step) && CascadeStep(s, step)
    ensures Cascading(s0, roots, TakeStep(s, step))
  {
    hide WellFormed, Follows, Falling, ActorsWind, StopsReached, DependentsToldToStop, AfterConsume, AfterDeliver,
         ServiceActor.Step, CanHappen;
    StepKeepsWellFormed(s, step);
    var t := TakeStep(s, step);
    forall n ensures Follows(t, n) {
      StepFollows(s, step, n);
    }
    assert AllFollow(t);
    match step
    case Consume =>
      ConsumeStopsReached(s0, roots, s);
      ConsumeWinds(s0, roots, s);
      ConsumeTellsDependents(s0, roots, s);
    case Deliver(ok) =>
      DeliverStopsReached(s0, roots, s, ok);
      DeliverWinds(s0, roots, s, ok);
      DeliverTellsDependents(s0, roots, s, ok);
      DeliverKeepsBoss(s, ok);
    case Internal(n, i) =>
      InternalWinds(s0, roots, s, n, i);
      InternalTellsDependents(s0, roots, s, n, i);
      QuietStopsReached(s0, roots, s, t);
    case Flush(_) => QuietKeepsCascading(s0, roots, s, t);
    case Reply => QuietKeepsCascading(s0, roots, s, t);
  }

  lemma DeliverKeepsBoss(s: System, ok: bool)
    requires CanStep(s, Deliver(ok))
    ensures AfterDeliver(s, ok).boss == s.boss && AfterDeliver(s, ok).halted == s.halted
  {
    hide ServiceActor.Step;
  }

  lemma QuietStopsReached(s0: System, roots: set<Name>, s: System, t: System)
    requires StopsReached(s0, roots, s) && t.outbox == s.outbox && t.log == s.log
    ensures StopsReached(s0, roots, t)
  {
    hide Reached;
  }

  lemma QuietKeepsCascading(s0: System, roots: set<Name>, s: System, t: System)
    requires Falling(s0, roots) && Cascading(s0, roots, s)
    requires WellFormed(t) && AllFollow(t)
    requires t.boss == s.boss && t.outbox == s.outbox && t.log == s.log && t.actors == s.actors
    requires t.heard == s.heard && t.halted == s.halted
    ensures Cascading(s0, roots, t)
  {
    hide WellFormed, AllFollow, Orderly, Reached, DownFrom;
    FallingShape(s0, roots);
    QuietStopsReached(s0, roots, s, t);
    Domains(s);
    Domains(t);
    forall n | n in t.actors ensures Winds(s0, roots, t, n) {
      assert Winds(s0, roots, s, n);
    }
  }

  // ---------------------------------------------------------------------
  // The outcome
  // ---------------------------------------------------------------------

  lemma StartsCascading(s0: System, roots: set<Name>)
    requires Falling(s0, roots)
    ensures Cascading(s0, roots, s0)
  {
    hide Orderly, Follows, Told, Reached, Terminal;
  }
}
