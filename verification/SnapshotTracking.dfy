/** How the supervisor's snapshots relate to the actors' states while events are in flight. */
module SnapshotTracking {
  import opened Prelude
  import opened ServiceActor
  import opened ActorRuns
  import opened ActorHistory
  import opened Overlord
  import opened Supervision

  /** The events of one service in the queue, in order. */
  function Project(queue: seq<(Name, Event)>, name: Name): seq<Event> {
    if queue == [] then []
    else Project(queue[..|queue| - 1], name) +
         if queue[|queue| - 1].0 == name then [queue[|queue| - 1].1] else []
  }

  lemma ProjectAppend(queue: seq<(Name, Event)>, x: (Name, Event), name: Name)
    ensures Project(queue + [x], name) == Project(queue, name) + if x.0 == name then [x.1] else []
  {
    assert (queue + [x])[..|queue + [x]| - 1] == queue;
  }

  lemma {:induction false} ProjectTail(queue: seq<(Name, Event)>, name: Name)
    requires queue != []
    ensures Project(queue, name) == (if queue[0].0 == name then [queue[0].1] else []) + Project(queue[1..], name)
    decreases |queue|
  {
    if |queue| > 1 {
      var front, last := queue[..|queue| - 1], queue[|queue| - 1];
      ProjectTail(front, name);
      assert queue[1..][..|queue[1..]| - 1] == front[1..];
    } else {
      assert queue[..0] == [] && queue[1..] == [];
    }
  }

  /**
    The snapshot is the state after the events taken out of the queue, and the queue holds exactly the events sent
    but not taken out yet.
    */
  ghost predicate Tracked(s: System, name: Name)
    requires WellFormed(s)
  {
    if name in s.actors then
      && s.heard[name] <= s.flushed[name]
      && Project(s.queue, name) == s.actors[name].events[s.heard[name]..s.flushed[name]]
      && s.boss.snaps.vals[name] == StateAfter(s.actors[name].events[..s.heard[name]])
    else Project(s.queue, name) == []
  }

  ghost predicate NotRetired(s: System, name: Name) {
    forall i, k :: 0 <= i < |s.retired| && 0 <= k < |s.retired[i]| ==> s.retired[i][k].0 != name
  }

  ghost predicate Follows(s: System, name: Name)
    requires WellFormed(s)
  {
    Tracked(s, name) && NotRetired(s, name)
  }

  ghost predicate AllFollow(s: System)
    requires WellFormed(s)
  {
    forall n :: Follows(s, n)
  }

  lemma GrowingKeepsSlices(before: seq<Event>, after: seq<Event>, i: nat, j: nat)
    requires before <= after && i <= j <= |before|
    ensures after[i..j] == before[i..j] && after[..i] == before[..i]
  {
  }

  lemma HeardState(b: Overlord.State, name: Name, e: Event, n: Name)
    requires n in b.snaps.vals
    ensures var b' := OnEvent(b, name, e).0;
            n in b'.snaps.vals &&
            b'.snaps.vals[n] == if n == name && e.StateChanged? then e.newState else b.snaps.vals[n]
  {
    hide DepsRunning, Filter, ToAll;
  }

  lemma ConsumeTracks(s: System, n: Name)
    requires WellFormed(s) && CanStep(s, Consume) && Tracked(s, n)
    requires WellFormed(AfterConsume(s))
    ensures Tracked(AfterConsume(s), n)
  {
    hide StateAfter, Told, OnEvent, Project;
    var (name, e) := s.queue[0];
    ProjectTail(s.queue, n);
    if n in s.actors {
      HeardState(s.boss, name, e, n);
      if n == name {
        HeardOne(s.actors[n].events, s.heard[n], s.flushed[n], e, Project(s.queue[1..], n));
      }
    }
  }

  lemma ConsumeFollows(s: System, n: Name)
    requires WellFormed(s) && CanStep(s, Consume) && Follows(s, n)
    requires WellFormed(AfterConsume(s))
    ensures Follows(AfterConsume(s), n)
  {
    hide WellFormed, Tracked, OnEvent;
    ConsumeTracks(s, n);
  }

  lemma HeardOne(events: seq<Event>, heard: nat, flushed: nat, e: Event, rest: seq<Event>)
    requires heard <= flushed <= |events|
    requires events[heard..flushed] == [e] + rest
    ensures heard < flushed && rest == events[heard + 1..flushed]
    ensures StateAfter(events[..heard + 1]) == if e.StateChanged? then e.newState else StateAfter(events[..heard])
  {
    hide StateAfter;
    assert events[heard] == events[heard..flushed][0] == e;
    assert rest == ([e] + rest)[1..] == events[heard..flushed][1..];
    assert events[..heard + 1] == events[..heard] + [e];
    AfterEmit(events[..heard], e);
  }

  lemma FlushFollows(s: System, name: Name, n: Name)
    requires WellFormed(s) && CanStep(s, Flush(name)) && Follows(s, n)
    requires WellFormed(TakeStep(s, Flush(name)))
    ensures Follows(TakeStep(s, Flush(name)), n)
  {
    hide StateAfter, Told, Project;
    var events, f := s.actors[name].events, s.flushed[name];
    ProjectAppend(s.queue, (name, events[f]), n);
    if n == name {
      SentOne(events, s.heard[n], f);
    }
  }

  lemma SentOne(events: seq<Event>, heard: nat, flushed: nat)
    requires heard <= flushed < |events|
    ensures events[heard..flushed + 1] == events[heard..flushed] + [events[flushed]]
  {
  }

  lemma FlushRetiredFollows(s: System, i: nat, n: Name)
    requires WellFormed(s) && CanStep(s, FlushRetired(i)) && Follows(s, n)
    requires WellFormed(TakeStep(s, FlushRetired(i)))
    ensures Follows(TakeStep(s, FlushRetired(i)), n)
  {
    hide StateAfter, Told, Project;
    ProjectAppend(s.queue, s.retired[i][0], n);
  }

  /** An actor handling something only appends to its events. */
  lemma ActingFollows(s: System, t: System, name: Name, n: Name)
    requires WellFormed(s) && WellFormed(t) && Follows(s, n)
    requires name in s.actors && name in t.actors
    requires s.actors[name].events <= t.actors[name].events
    requires t.actors == s.actors[name := t.actors[name]]
    requires t.boss == s.boss && t.queue == s.queue && t.retired == s.retired
    requires t.flushed == s.flushed && t.heard == s.heard
    ensures Follows(t, n)
  {
    hide StateAfter, Told, Project;
    if n == name {
      GrowingKeepsSlices(s.actors[n].events, t.actors[n].events, s.heard[n], s.flushed[n]);
    }
  }

  lemma LoadTracks(s: System, plan: Services, n: Name)
    requires WellFormed(s) && plan.Valid() && Tracked(s, n)
    requires WellFormed(AfterLoad(s, plan)) && (n in plan.vals || n !in s.actors)
    ensures Tracked(AfterLoad(s, plan), n)
  {
    hide Told, Project, Overlord.Reload, SyncActors, Leftovers, Filter;
    ReloadShape(s.boss, plan);
    SyncedState(s.boss.snaps, plan, n);
  }

  lemma LoadFollows(s: System, plan: Services, n: Name)
    requires WellFormed(s) && CanStep(s, Load(plan)) && Follows(s, n)
    requires WellFormed(AfterLoad(s, plan)) && (n in plan.vals || n !in s.actors)
    ensures Follows(AfterLoad(s, plan), n)
  {
    hide Told, Project, Overlord.Reload, SyncActors, Leftovers, Tracked;
    var gone := Filter(s.boss.snaps.keys, m => m !in plan.vals);
    ActorsHaveSnapshots(s, n);
    assert n !in gone;
    LoadTracks(s, plan, n);
    LeftoversAreOfGone(s, gone, n);
  }

  lemma ActorsHaveSnapshots(s: System, n: Name)
    requires WellFormed(s)
    ensures n in s.actors <==> n in s.boss.snaps.keys
    ensures n in s.actors <==> n in s.boss.snaps.vals
  {
    hide Told;
  }

  // ---------------------------------------------------------------------
  // Reloads that drop a service or bring it back
  // ---------------------------------------------------------------------

  /** No event of `n` is in the queue or still to be put there. */
  ghost predicate NothingUnderWay(s: System, n: Name) {
    Project(s.queue, n) == [] && Unsent(s, n) == [] && NotRetired(s, n)
  }

  lemma LeftoversOfDropped(s: System, names: seq<Name>, n: Name)
    requires n in names
    ensures (forall i, k :: 0 <= i < |Leftovers(s, names)| && 0 <= k < |Leftovers(s, names)[i]|
               ==> Leftovers(s, names)[i][k].0 != n)
            <==> Unsent(s, n) == []
  {
    var i :| 0 <= i < |names| && names[i] == n;
    assert Leftovers(s, names)[i] == Unsent(s, n);
    if Unsent(s, n) != [] {
      assert Leftovers(s, names)[i][0].0 == n;
    }
  }

  lemma RetiredAfterLoad(s: System, plan: Services, n: Name)
    requires WellFormed(s)
    ensures NotRetired(AfterLoad(s, plan), n)
            <==> NotRetired(s, n) && (n in plan.vals || n !in s.actors || Unsent(s, n) == [])
  {
    hide WellFormed, Overlord.Reload, SyncActors, Leftovers, Unsent;
    var gone := Filter(s.boss.snaps.keys, m => m !in plan.vals);
    var left := Leftovers(s, gone);
    var t := AfterLoad(s, plan);
    ActorsHaveSnapshots(s, n);
    assert t.retired == s.retired + left;
    assert forall j :: 0 <= j < |left| ==> t.retired[|s.retired| + j] == left[j];
    assert forall j :: 0 <= j < |s.retired| ==> t.retired[j] == s.retired[j];
    if n in gone {
      LeftoversOfDropped(s, gone, n);
    } else {
      LeftoversAreOfGone(s, gone, n);
    }
  }

  /** A reload keeps track of a service exactly if it does not drop it with an event under way. */
  lemma LoadFollowsExactly(s: System, plan: Services, n: Name)
    requires WellFormed(s) && CanStep(s, Load(plan)) && Follows(s, n)
    ensures WellFormed(AfterLoad(s, plan))
    ensures Follows(AfterLoad(s, plan), n) <==> n in plan.vals || n !in s.actors || NothingUnderWay(s, n)
  {
    hide WellFormed, Overlord.Reload, SyncActors, Leftovers, Unsent, Project, NotRetired, StateAfter;
    StepKeepsWellFormed(s, Load(plan));
    RetiredAfterLoad(s, plan, n);
    LoadedShape(s, plan, n);
    if n in plan.vals || n !in s.actors {
      LoadFollows(s, plan, n);
    }
  }

  /** A service brought back is tracked exactly if no event of a former actor is under way. */
  lemma AddingFollowsExactly(s: System, plan: Services, n: Name)
    requires WellFormed(s) && CanStep(s, Load(plan)) && n !in s.actors && n in plan.vals
    ensures WellFormed(AfterLoad(s, plan))
    ensures Follows(AfterLoad(s, plan), n) <==> NothingUnderWay(s, n)
  {
    hide WellFormed, Overlord.Reload, SyncActors, Leftovers, Project, StateAfter, NotRetired, Tracked;
    StepKeepsWellFormed(s, Load(plan));
    RetiredAfterLoad(s, plan, n);
    NewIsTracked(s, plan, n);
  }

  lemma NewIsTracked(s: System, plan: Services, n: Name)
    requires WellFormed(s) && plan.Valid() && n !in s.actors && n in plan.vals
    requires WellFormed(AfterLoad(s, plan))
    ensures Tracked(AfterLoad(s, plan), n) <==> Project(s.queue, n) == []
    ensures Unsent(s, n) == []
  {
    hide Told, Project, Overlord.Reload, SyncActors, Leftovers, Filter;
    ReloadShape(s.boss, plan);
    SyncedState(s.boss.snaps, plan, n);
    var t := AfterLoad(s, plan);
    assert t.actors[n].events[..0] == [];
  }

  lemma SyncedState(snaps: Snapshots, plan: Services, n: Name)
    ensures n in SyncActors(snaps, plan).vals <==> n in plan.vals
    ensures n in plan.vals ==>
              SyncActors(snaps, plan).vals[n] == if n in snaps.vals then snaps.vals[n] else Inactive
  {
  }

  lemma LeftoversAreOfGone(s: System, names: seq<Name>, n: Name)
    requires n !in names
    ensures forall i, k :: 0 <= i < |Leftovers(s, names)| && 0 <= k < |Leftovers(s, names)[i]|
              ==> Leftovers(s, names)[i][k].0 != n
  {
  }

  /** The step does not drop `n` with an event of it under way. */
  ghost predicate DropsCleanly(s: System, step: Step, n: Name) {
    step.Load? ==> n in step.plan.vals || n !in s.actors || NothingUnderWay(s, n)
  }

  lemma StepFollows(s: System, step: Step, n: Name)
    requires WellFormed(s) && CanStep(s, step) && Follows(s, n) && DropsCleanly(s, step, n)
    ensures WellFormed(TakeStep(s, step)) && Follows(TakeStep(s, step), n)
  {
    hide ServiceActor.Step, CanHappen, Told, AfterConsume, AfterLoad, Project, StateAfter, Known, WellFormed, Unsent,
         NotRetired;
    StepKeepsWellFormed(s, step);
    match step
    case Consume => ConsumeFollows(s, n);
    case Load(plan) => LoadFollowsExactly(s, plan, n);
    case Deliver(ok) =>
      DeliveredGrows(s, ok);
      ActingFollows(s, TakeStep(s, step), s.outbox[0].0, n);
    case Internal(m, i) =>
      InternalGrows(s, m, i);
      ActingFollows(s, TakeStep(s, step), m, n);
    case Flush(m) => FlushFollows(s, m, n);
    case FlushRetired(i) => FlushRetiredFollows(s, i, n);
    case Reply => UntouchedFollows(s, TakeStep(s, step), n);
    case Round(_) => UntouchedFollows(s, TakeStep(s, step), n);
  }

  lemma UntouchedFollows(s: System, t: System, n: Name)
    requires WellFormed(s) && WellFormed(t) && Follows(s, n)
    requires t == s.(outbox := t.outbox, awaiting := t.awaiting)
    ensures Follows(t, n)
  {
    hide WellFormed, Project, StateAfter;
    ActorsHaveSnapshots(s, n);
  }

  lemma DeliveredGrows(s: System, ok: bool)
    requires WellFormed(s) && CanStep(s, Deliver(ok))
    ensures s.actors[s.outbox[0].0].events <= AfterDeliver(s, ok).actors[s.outbox[0].0].events
  {
    hide ServiceActor.Step, CanHappen, Told;
    var (name, c) := s.outbox[0];
    RunningTakesCommands(s.actors[name], c, ok);
    ActorStep(s.actors[name], AsInput(c, ok));
  }

  lemma InternalGrows(s: System, name: Name, i: Input)
    requires WellFormed(s) && CanStep(s, Internal(name, i))
    ensures s.actors[name].events <= TakeStep(s, Internal(name, i)).actors[name].events
  {
    hide ServiceActor.Step, CanHappen, Told;
    ActorStep(s.actors[name], i);
  }

  /** Whenever the supervisor has an actor for `n`, it is tracked. */
  ghost predicate Followed(s: System, n: Name)
    requires WellFormed(s)
  {
    n in s.actors ==> Follows(s, n)
  }

  /** The step does not bring `n` back while an event of a former actor is under way. */
  ghost predicate AddsCleanly(s: System, step: Step, n: Name) {
    step.Load? && n in step.plan.vals && n !in s.actors ==> NothingUnderWay(s, n)
  }

  lemma StepFollowedExactly(s: System, step: Step, n: Name)
    requires WellFormed(s) && CanStep(s, step) && Followed(s, n)
    ensures WellFormed(TakeStep(s, step))
    ensures Followed(TakeStep(s, step), n) <==> AddsCleanly(s, step, n)
  {
    hide WellFormed, Follows, NothingUnderWay, AfterLoad, TakeStep, CanStep;
    StepKeepsWellFormed(s, step);
    ActorsStay(s, step, n);
    if n in s.actors && (step.Load? ==> n in step.plan.vals) {
      StepFollows(s, step, n);
    } else if step.Load? && n in step.plan.vals {
      AddingFollowsExactly(s, step.plan, n);
      LoadIsStep(s, step.plan);
    }
  }

  lemma LoadIsStep(s: System, plan: Services)
    requires CanStep(s, Load(plan))
    ensures TakeStep(s, Load(plan)) == AfterLoad(s, plan)
  {
  }

  /** Only reloads make and drop actors. */
  lemma ActorsStay(s: System, step: Step, n: Name)
    requires WellFormed(s) && CanStep(s, step)
    ensures n in TakeStep(s, step).actors <==> if step.Load? then n in step.plan.vals else n in s.actors
  {
    hide ServiceActor.Step, CanHappen, OnEvent, Overlord.Reload, Known, Filter, Told;
  }

  /** At every moment of the run. */
  ghost predicate AlwaysFollowed(s: System, steps: seq<Step>, n: Name)
    requires WellFormed(s) && CanRun(s, steps)
    decreases |steps|
  {
    Followed(s, n) && (steps != [] ==>
      (StepKeepsWellFormed(s, steps[0]);
       AlwaysFollowed(TakeStep(s, steps[0]), steps[1..], n)))
  }

  /** No reload of the run brings `n` back while an event of a former actor is under way. */
  ghost predicate AlwaysAddsCleanly(s: System, steps: seq<Step>, n: Name)
    requires CanRun(s, steps)
    decreases |steps|
  {
    steps != [] ==> AddsCleanly(s, steps[0], n) && AlwaysAddsCleanly(TakeStep(s, steps[0]), steps[1..], n)
  }

  /**
    A service is tracked throughout a run, however often reloads drop it and bring it back, exactly if none brings it
    back while an event of a former actor is under way.
    */
  lemma {:induction false} FollowedThroughoutExactly(s: System, steps: seq<Step>, n: Name)
    requires WellFormed(s) && CanRun(s, steps) && Followed(s, n)
    ensures AlwaysFollowed(s, steps, n) <==> AlwaysAddsCleanly(s, steps, n)
    ensures WellFormed(After(s, steps))
    ensures AlwaysAddsCleanly(s, steps, n) ==> Followed(After(s, steps), n)
    decreases |steps|
  {
    hide WellFormed, TakeStep, CanStep, Followed, AddsCleanly;
    if steps != [] {
      StepFollowedExactly(s, steps[0], n);
      var t := TakeStep(s, steps[0]);
      if Followed(t, n) {
        FollowedThroughoutExactly(t, steps[1..], n);
      } else {
        NotFollowedNow(t, steps[1..], n);
        RunKeepsWellFormed(t, steps[1..]);
      }
    }
  }

  lemma NotFollowedNow(s: System, steps: seq<Step>, n: Name)
    requires WellFormed(s) && CanRun(s, steps) && !Followed(s, n)
    ensures !AlwaysFollowed(s, steps, n)
  {
    hide WellFormed, Followed;
  }

  /** No reload of the run drops `n` with an event of it under way. */
  ghost predicate AlwaysDropsCleanly(s: System, steps: seq<Step>, n: Name)
    requires CanRun(s, steps)
    decreases |steps|
  {
    steps != [] ==> DropsCleanly(s, steps[0], n) && AlwaysDropsCleanly(TakeStep(s, steps[0]), steps[1..], n)
  }

  lemma {:induction false} RunFollows(s: System, steps: seq<Step>, n: Name)
    requires WellFormed(s) && CanRun(s, steps) && Follows(s, n) && AlwaysDropsCleanly(s, steps, n)
    ensures WellFormed(After(s, steps)) && Follows(After(s, steps), n)
    decreases |steps|
  {
    hide WellFormed, TakeStep, CanStep, Follows, DropsCleanly;
    if steps != [] {
      StepFollows(s, steps[0], n);
      RunFollows(TakeStep(s, steps[0]), steps[1..], n);
    }
  }

  /**
    From the first load on, for a service that no reload brings back too early: its snapshot is the state after the
    consumed prefix of its events, and the actor's state itself once none of its events is on the way.
    */
  lemma SnapshotsFollowActors(plan: Services, steps: seq<Step>, n: Name)
    requires plan.Valid() && CanRun(Booted(plan), steps)
    requires AlwaysAddsCleanly(Booted(plan), steps, n) && n in After(Booted(plan), steps).actors
    ensures var s := After(Booted(plan), steps);
            && WellFormed(s) && s.heard[n] <= |s.actors[n].events|
            && s.boss.snaps.vals[n] == StateAfter(s.actors[n].events[..s.heard[n]])
            && s.actors[n].state == StateAfter(s.actors[n].events)
            && (Idle(s, n) && Project(s.queue, n) == [] ==> s.boss.snaps.vals[n] == s.actors[n].state)
  {
    hide WellFormed, Booted, CanStep, TakeStep, AfterLoad, After, CanRun, Follows;
    BootFollows(plan, n);
    FollowedThroughoutExactly(Booted(plan), steps, n);
    FollowsMeans(After(Booted(plan), steps), n);
  }

  lemma FollowsMeans(s: System, n: Name)
    requires WellFormed(s) && Follows(s, n) && n in s.actors
    ensures s.heard[n] <= |s.actors[n].events|
    ensures s.boss.snaps.vals[n] == StateAfter(s.actors[n].events[..s.heard[n]])
    ensures s.actors[n].state == StateAfter(s.actors[n].events)
    ensures Idle(s, n) && Project(s.queue, n) == [] ==> s.boss.snaps.vals[n] == s.actors[n].state
  {
    hide StateAfter, Project;
    assert s.actors[n].events[..|s.actors[n].events|] == s.actors[n].events;
  }

  lemma BootFollows(plan: Services, n: Name)
    requires plan.Valid()
    ensures WellFormed(Booted(plan)) && Follows(Booted(plan), n)
  {
    hide WellFormed, Booted, AfterLoad;
    BootedWellFormed(plan);
    StepFollows(Nothing(), Load(plan), n);
  }

  /** No event is under way, no restart is pending and nothing is being stopped; some services may be in Backoff. */
  ghost predicate Resting(s: System) {
    && WellFormed(s) && (forall n :: Follows(s, n))
    && AtLoopHead(s) && s.queue == []
    && forall n :: n in s.actors ==>
         Orderly(s.actors[n]) && s.actors[n].state != Stopping && s.heard[n] == s.flushed[n] == |s.actors[n].events|
  }

  lemma SynchronisedIsResting(s: System)
    ensures Synchronised(s) <==> Resting(s) && forall n :: n in s.actors ==> s.actors[n].state != ServiceState.Backoff
  {
    hide WellFormed, Follows, Orderly;
  }

  /** No event is under way, no timer or restart is pending, nothing is being stopped. */
  ghost predicate Synchronised(s: System) {
    && WellFormed(s) && (forall n :: Follows(s, n))
    && AtLoopHead(s) && s.queue == []
    && forall n :: n in s.actors ==>
         Calm(s.actors[n]) && s.actors[n].state != Stopping && s.heard[n] == s.flushed[n] == |s.actors[n].events|
  }

  // ---------------------------------------------------------------------
  // A service that is dropped and comes back
  // ---------------------------------------------------------------------

  /**
    Events carry names, not actors: whenever a state change of a service is still
    queued while a reload drops the service and the next one brings it back, the supervisor takes the old actor's
    state for the new one's.
    */
  lemma StaleEventOverwritesNewActor(s: System, without: Services, again: Services, n: Name, oldState: ServiceState)
    requires WellFormed(s) && AtLoopHead(s)
    requires without.Valid() && again.Valid() && n !in without.vals && n in again.vals
    requires s.queue != [] && s.queue[0] == (n, StateChanged(oldState))
    requires oldState != Inactive
    requires Overlord.Reload(s.boss, without).1 == []
    requires Overlord.Reload(AfterLoad(s, without).boss, again).1 == []
    ensures var steps := [Load(without), Load(again), Consume];
            && CanRun(s, steps)
            && n in After(s, steps).actors && n in After(s, steps).boss.snaps.vals
            && After(s, steps).actors[n].state == Inactive
            && After(s, steps).actors[n].events == []
            && After(s, steps).boss.snaps.vals[n] == oldState
  {
    hide WellFormed, OnEvent, Overlord.Reload, SyncActors, Leftovers, Filter;
    assert CanStep(s, Load(without));
    StepKeepsWellFormed(s, Load(without));
    var t := AfterLoad(s, without);
    assert CanStep(t, Load(again));
    StepKeepsWellFormed(t, Load(again));
    var u := AfterLoad(t, again);
    LoadedShape(s, without, n);
    LoadedShape(t, again, n);
    HeardState(u.boss, n, StateChanged(oldState), n);
    var v := AfterConsume(u);
    RunThree(s, Load(without), Load(again), Consume);
    assert TakeStep(TakeStep(TakeStep(s, Load(without)), Load(again)), Consume) == v;
    assert v.actors == u.actors;
    assert u.actors[n].events == [];
  }

  lemma LoadedShape(s: System, plan: Services, n: Name)
    requires WellFormed(s) && plan.Valid()
    ensures var t := AfterLoad(s, plan);
            && t.queue == s.queue && t.outbox == Overlord.Reload(s.boss, plan).1
            && t.awaiting == s.awaiting && t.halted == s.halted
            && (n in t.actors <==> n in plan.vals) && (n in t.boss.snaps.vals <==> n in plan.vals)
            && (n in plan.vals && n !in s.actors ==>
                  t.actors[n] == New(plan.vals[n].ForActor()) && t.actors[n].state == Inactive)
  {
    hide Overlord.Reload, SyncActors, Leftovers, Filter, Told;
    ReloadShape(s.boss, plan);
  }

  lemma RunThree(s: System, a: Step, b: Step, c: Step)
    requires CanStep(s, a) && CanStep(TakeStep(s, a), b) && CanStep(TakeStep(TakeStep(s, a), b), c)
    ensures CanRun(s, [a, b, c]) && After(s, [a, b, c]) == TakeStep(TakeStep(TakeStep(s, a), b), c)
  {
    hide CanStep, TakeStep, CanRun, After;
    var t := TakeStep(s, a);
    RunNothing(TakeStep(TakeStep(t, b), c));
    assert [c] + [] == [c] && [b] + [c] == [b, c] && [a] + [b, c] == [a, b, c];
    RunStep(TakeStep(t, b), c, []);
    RunStep(t, b, [c]);
    RunStep(s, a, [b, c]);
  }
}
