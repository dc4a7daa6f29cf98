/** How much room in the event queue a fall needs: for the whole cascade, and exactly how much for its first round. */
module CascadeRoom {
  import opened Prelude
  import opened ServiceActor
  import opened ActorRuns
  import opened ActorHistory
  import opened Overlord
  import opened Supervision
  import opened SnapshotTracking
  import opened QueueBound
  import opened AutostartCompletion
  import opened RequiresCascade
  import opened CascadeOutcome
  import opened CascadeCompletion
  import opened CascadeStart

  // ---------------------------------------------------------------------
  // The whole cascade
  // ---------------------------------------------------------------------

  function RunningServices(s: System): seq<Name> {
    Filter(s.boss.snaps.keys, n => WasActive(s, n))
  }

  lemma {:induction false} RestingShares(s: System, names: seq<Name>)
    requires forall n :: n in names ==> Share(s, n, EVENTS) == if WasActive(s, n) then 3 else 0
    ensures TotalShare(s, names, EVENTS) == 3 * |Filter(names, n => WasActive(s, n))|
    decreases |names|
  {
    hide Share, WasActive;
    if names != [] {
      assert names[|names| - 1] in names;
      RestingShares(s, names[..|names| - 1]);
    }
  }

  lemma RestingShare(s: System, n: Name)
    requires Resting(s) && n in s.boss.snaps.keys
    ensures Share(s, n, EVENTS) == if WasActive(s, n) then 3 else 0
  {
    hide WellFormed, Follows, Orderly;
    ActorsHaveSnapshots(s, n);
    Domains(s);
  }

  /** In a resting system each running service can still send three events, and nobody else any. */
  lemma SupplyAtRest(s: System)
    requires Resting(s)
    ensures Supply(s) == 3 * |RunningServices(s)|
  {
    hide Resting, Share, Filter;
    forall n | n in s.boss.snaps.keys ensures Share(s, n, EVENTS) == if WasActive(s, n) then 3 else 0 {
      RestingShare(s, n);
    }
    RestingShares(s, s.boss.snaps.keys);
    QueueAtRest(s);
  }

  lemma QueueAtRest(s: System)
    requires Resting(s)
    ensures s.queue == [] && AtLoopHead(s) && WellFormed(s)
  {
  }

  /** What an exit that is not answered by a restart or the end of the daemon says. */
  lemma FallSays(a: ActorState, success: bool, ok: bool)
    requires Calm(a) && a.state == Active && Falls(a, success)
    ensures CanHappen(a, ChildExit(success, ok))
    ensures var b := ServiceActor.Step(a, ChildExit(success, ok));
            && Terminal(b.state) && b.events == a.events + [ProcessExited(success), StateChanged(b.state)]
  {
    hide Config.Limit;
  }

  lemma SupplyAfterFall(s: System, d: Name, success: bool, ok: bool)
    requires Resting(s) && d in s.actors && s.actors[d].state == Active && Falls(s.actors[d], success)
    requires CanStep(s, Internal(d, ChildExit(success, ok)))
    ensures Supply(TakeStep(s, Internal(d, ChildExit(success, ok)))) + 1 == Supply(s)
  {
    hide WellFormed, Follows, Orderly, Falls, ServiceActor.Step, CanHappen, TotalShare;
    FallSays(s.actors[d], success, ok);
    NamesOfActors(s, d);
    OneShareChanges(s, TakeStep(s, Internal(d, ChildExit(success, ok))), s.boss.snaps.keys, d, EVENTS);
  }

  /**
    With up to 85 services running in a resting system, the fall of any of them comes to rest: the cascade takes
    boundedly many steps, short of rest there is always a next one, and so there is a way to get there.
    */
  lemma FallComesToRest(s: System, d: Name, success: bool, ok: bool, steps: seq<Step>)
    requires Resting(s) && d in s.actors && s.actors[d].state == Active && Falls(s.actors[d], success)
    requires 3 * |RunningServices(s)| <= QUEUE_CAPACITY + 1
    ensures CanStep(s, Internal(d, ChildExit(success, ok)))
    ensures var t := TakeStep(s, Internal(d, ChildExit(success, ok)));
            && (exists rest :: CanCascade(t, rest) && AtRest(AfterCascade(t, rest)))
            && (CanCascade(t, steps) ==>
                  && |steps| <= Effort(t)
                  && (!AtRest(AfterCascade(t, steps)) ==>
                        exists step :: CanStep(AfterCascade(t, steps), step)
                                       && CascadeStep(AfterCascade(t, steps), step)))
  {
    hide Resting, Falling, Falls, Effort, Supply, AtRest, TakeStep, CanStep, CascadeStep, CanCascade, AfterCascade,
         RunningServices;
    FallStartsCascade(s, d, success, ok);
    SupplyAtRest(s);
    SupplyAfterFall(s, d, success, ok);
    var t := TakeStep(s, Internal(d, ChildExit(success, ok)));
    CascadeCanComeToRest(t, {d});
    if CanCascade(t, steps) {
      CascadeComesToRest(t, {d}, steps);
    }
  }

  /**
    A cascade that has come to rest leaves the system resting again, ready for the next fall; and ready for the next
    load if no service was in Backoff.
    */
  lemma CascadeEndsAtRest(s0: System, roots: set<Name>, steps: seq<Step>)
    requires Falling(s0, roots) && CanCascade(s0, steps) && AtRest(AfterCascade(s0, steps))
    ensures Resting(AfterCascade(s0, steps))
    ensures (forall n :: n in s0.actors ==> s0.actors[n].state != ServiceState.Backoff)
            ==> Synchronised(AfterCascade(s0, steps))
  {
    hide Falling, WellFormed, Cascading, Follows, Orderly, CanCascade, AfterCascade, Synchronised;
    StartsCascading(s0, roots);
    CascadeKept(s0, roots, s0, steps);
    var s := AfterCascade(s0, steps);
    CascadeParts(s0, roots, s);
    CascadeFollows(s0, roots, s);
    Domains(s);
    forall n | n in s.actors
      ensures Orderly(s.actors[n]) && s.heard[n] == s.flushed[n] == |s.actors[n].events|
      ensures s.actors[n].state == ServiceState.Backoff ==> s0.actors[n].state == ServiceState.Backoff
    {
      StaysOrderly(s0, roots, s, n);
      NotRunning(s0, roots, s, n);
      RestingActor(s, n);
    }
    SynchronisedIsResting(s);
  }

  lemma CascadeFollows(s0: System, roots: set<Name>, s: System)
    requires Falling(s0, roots) && Cascading(s0, roots, s)
    ensures WellFormed(s) && forall n :: Follows(s, n)
  {
    hide Falling, WellFormed, Follows, ActorsWind, StopsReached, DependentsToldToStop;
  }

  // ---------------------------------------------------------------------
  // Its first round
  // ---------------------------------------------------------------------

  /** The services a fall of `d` stops at once. */
  function RunningDependents(s: System, d: Name): seq<Name> {
    Filter(s.boss.plan.keys, n => n != d && Requires(s.boss.plan, n, d) && IsUp(s, n))
  }

  predicate IsUp(s: System, n: Name) {
    n in s.actors && s.actors[n].state.IsRunning()
  }

  /** No event of a service that requires `d` is under way. */
  ghost predicate DependentsHeard(s: System, d: Name) {
    forall n :: n in s.actors && Requires(s.boss.plan, n, d) && n != d ==> Project(s.queue, n) == []
  }

  lemma SnapshotOfHeard(s: System, n: Name)
    requires WellFormed(s) && Follows(s, n) && n in s.actors && Idle(s, n) && Project(s.queue, n) == []
    ensures n in s.boss.snaps.vals && s.boss.snaps.vals[n] == s.actors[n].state
  {
    hide StateAfter, Project, NotRetired, WellFormed;
    ActorsHaveSnapshots(s, n);
    FollowsMeans(s, n);
  }

  /** Hearing of the fall, the supervisor sends a Stop to exactly the running dependents, once each. */
  lemma StopsOfFall(s: System, d: Name, fallen: ServiceState)
    requires WellFormed(s) && AllFollow(s) && CanStep(s, Consume) && Terminal(fallen)
    requires s.queue[0] == (d, StateChanged(fallen)) && d in s.actors
    requires (forall n :: n in s.actors ==> Idle(s, n)) && DependentsHeard(s, d)
    ensures var t := AfterConsume(s);
            && |t.outbox| == |RunningDependents(s, d)| && NamedOnce(t.outbox)
            && (forall i :: 0 <= i < |t.outbox| ==>
                  t.outbox[i].1 == Stop && t.outbox[i].0 in t.actors && t.actors[t.outbox[i].0].state.IsRunning())
  {
    hide WellFormed, Follows, OnEvent, Filter, ToAll, Project, Requires;
    PlanValid(s);
    ActorOfSnapshot(s, d);
    DownEventOnlyStops(s.boss, d, StateChanged(fallen));
    var t := AfterConsume(s);
    var snaps := t.boss.snaps;
    forall n | n in s.boss.plan.keys
      ensures Dependent(s.boss.plan, snaps, n, d) <==> n != d && Requires(s.boss.plan, n, d) && IsUp(s, n)
    {
      ActorsHaveSnapshots(s, n);
      DependentIsUp(s, snaps, d, n, fallen);
    }
    FilterAgrees(s.boss.plan.keys, n => Dependent(s.boss.plan, snaps, n, d),
                 n => n != d && Requires(s.boss.plan, n, d) && IsUp(s, n));
    FilterDistinct(s.boss.plan.keys, n => Dependent(s.boss.plan, snaps, n, d));
    var names := Dependents(t.boss, d);
    assert names == RunningDependents(s, d);
    assert forall n :: n in names ==> n in snaps.vals;
    ToAllDistinct(snaps, names, Stop);
    ToAllKnown(snaps, names, Stop);
  }

  lemma DependentIsUp(s: System, snaps: Snapshots, d: Name, n: Name, fallen: ServiceState)
    requires WellFormed(s) && Follows(s, n) && Terminal(fallen) && snaps == s.boss.snaps.Insert(d, fallen)
    requires n in s.actors ==> Idle(s, n)
    requires n in s.actors && Requires(s.boss.plan, n, d) && n != d ==> Project(s.queue, n) == []
    ensures Dependent(s.boss.plan, snaps, n, d) <==> n != d && Requires(s.boss.plan, n, d) && IsUp(s, n)
  {
    hide WellFormed, Follows, Project;
    ActorsHaveSnapshots(s, n);
    if n != d && Requires(s.boss.plan, n, d) && n in s.actors {
      SnapshotOfHeard(s, n);
    }
    NeedsPlanned(s, n, d);
  }

  lemma NeedsPlanned(s: System, n: Name, d: Name)
    requires WellFormed(s)
    ensures d in s.boss.plan.vals ==> d in s.boss.plan.keys
  {
    hide Told;
  }

  lemma {:induction false} ToAllKnown(snaps: Snapshots, names: seq<Name>, c: Command)
    requires forall n :: n in names ==> n in snaps.vals
    ensures |ToAll(snaps, names, c)| == |names|
    decreases |names|
  {
    hide ToAll;
    if names == [] {
      ToAllOfNothing(snaps, c);
    } else {
      var front, last := names[..|names| - 1], names[|names| - 1];
      assert names == front + [last];
      ToAllKnown(snaps, front, c);
      ToAllStep(snaps, front, last, c);
    }
  }

  /**
    The round of Stops that answers a fall can be brought to its end exactly if the queue has a place for each of the
    running dependents.
    */
  lemma FallRoundCompletesExactly(s: System, d: Name, fallen: ServiceState)
    requires WellFormed(s) && AllFollow(s) && CanStep(s, Consume) && Terminal(fallen)
    requires s.queue[0] == (d, StateChanged(fallen)) && d in s.actors && |s.queue| <= QUEUE_CAPACITY
    requires (forall n :: n in s.actors ==> Idle(s, n)) && DependentsHeard(s, d)
    ensures InRound(AfterConsume(s))
    ensures (exists steps :: && AllRoundSteps(steps) && CanRun(AfterConsume(s), steps)
                             && RoundOver(After(AfterConsume(s), steps)))
            <==> |s.queue| - 1 + |RunningDependents(s, d)| <= QUEUE_CAPACITY
  {
    hide WellFormed, AllFollow, DependentsHeard, RunningDependents, CanRun, After, NamedOnce, OnEvent;
    StopsOfFall(s, d, fallen);
    StepKeepsWellFormed(s, Consume);
    var t := AfterConsume(s);
    assert InRound(t);
    StopsCompleteExactly(t);
  }

  /** The supervisor hears of a fall in an otherwise resting system. */
  function FallHeard(d: Name, success: bool, ok: bool): seq<Step> {
    [Internal(d, ChildExit(success, ok)), Flush(d), Flush(d), Consume]
  }

  /** The exit, its two events leaving, and the first of them being heard: only the end of `d` is left in the queue. */
  lemma FallLeavesEnd(s: System, d: Name, success: bool, ok: bool) returns (fallen: ServiceState)
    requires Resting(s) && d in s.actors && s.actors[d].state == Active && Falls(s.actors[d], success)
    ensures CanRun(s, FallHeard(d, success, ok))
    ensures var t := After(s, FallHeard(d, success, ok));
            && WellFormed(t) && (forall n :: Follows(t, n)) && AtLoopHead(t) && Terminal(fallen)
            && t.queue == [(d, StateChanged(fallen))] && t.boss == s.boss && t.actors.Keys == s.actors.Keys
            && d in t.actors && t.actors[d].state == fallen
            && forall n :: n in s.actors ==> Idle(t, n) && (n != d ==> t.actors[n] == s.actors[n])
  {
    hide WellFormed, Follows, Orderly, Falls, ServiceActor.Step, CanHappen, CanRun, After, OnEvent;
    Domains(s);
    FallSays(s.actors[d], success, ok);
    fallen := ServiceActor.Step(s.actors[d], ChildExit(success, ok)).state;
    var s1 := TakeStep(s, Internal(d, ChildExit(success, ok)));
    StaysFollowed(s, Internal(d, ChildExit(success, ok)));
    var s2 := TakeStep(s1, Flush(d));
    StaysFollowed(s1, Flush(d));
    var s3 := TakeStep(s2, Flush(d));
    StaysFollowed(s2, Flush(d));
    ExitSaysNothing(s3.boss, d, success);
    StaysFollowed(s3, Consume);
    RunFour(s, Internal(d, ChildExit(success, ok)), Flush(d), Flush(d), Consume);
  }

  lemma FallIsHeard(s: System, d: Name, success: bool, ok: bool) returns (fallen: ServiceState)
    requires Resting(s) && d in s.actors && s.actors[d].state == Active && Falls(s.actors[d], success)
    ensures CanRun(s, FallHeard(d, success, ok))
    ensures var t := After(s, FallHeard(d, success, ok));
            && WellFormed(t) && AllFollow(t) && CanStep(t, Consume) && Terminal(fallen)
            && t.queue == [(d, StateChanged(fallen))] && d in t.actors
            && (forall n :: n in t.actors ==> Idle(t, n)) && DependentsHeard(t, d)
            && RunningDependents(t, d) == RunningDependents(s, d)
  {
    hide Resting, WellFormed, Follows, Falls, CanRun, After, Filter, Requires, FallHeard;
    fallen := FallLeavesEnd(s, d, success, ok);
    var t := After(s, FallHeard(d, success, ok));
    forall n | n in t.actors && n != d ensures Project(t.queue, n) == [] {
      ProjectTail(t.queue, n);
      NothingProjected(n);
    }
    FilterAgrees(s.boss.plan.keys, n => n != d && Requires(s.boss.plan, n, d) && IsUp(s, n),
                 n => n != d && Requires(t.boss.plan, n, d) && IsUp(t, n));
  }

  lemma ExitSaysNothing(b: Overlord.State, name: Name, success: bool)
    ensures OnEvent(b, name, ProcessExited(success)) == (b, [])
  {
  }

  lemma NothingProjected(n: Name)
    ensures Project([], n) == []
  {
  }

  lemma RunFour(s: System, a: Step, b: Step, c: Step, d: Step)
    requires CanStep(s, a) && CanStep(TakeStep(s, a), b) && CanStep(TakeStep(TakeStep(s, a), b), c)
    requires CanStep(TakeStep(TakeStep(TakeStep(s, a), b), c), d)
    ensures CanRun(s, [a, b, c, d])
    ensures After(s, [a, b, c, d]) == TakeStep(TakeStep(TakeStep(TakeStep(s, a), b), c), d)
  {
    hide CanStep, TakeStep, CanRun, After;
    var t := TakeStep(s, a);
    RunThree(t, b, c, d);
    assert [a] + [b, c, d] == [a, b, c, d];
    RunStep(s, a, [b, c, d]);
  }

  /**
    From a resting system: a fall is heard of, and the round of Stops that answers it can be completed exactly
    if at most 256 running services require the fallen one. Beyond that the round ends in the deadlock.
    */
  lemma FallNeedsRoom(s: System, d: Name, success: bool, ok: bool)
    requires Resting(s) && d in s.actors && s.actors[d].state == Active && Falls(s.actors[d], success)
    ensures CanRun(s, FallHeard(d, success, ok))
    ensures var t := After(s, FallHeard(d, success, ok));
            && CanStep(t, Consume)
            && ((exists steps :: && AllRoundSteps(steps) && CanRun(TakeStep(t, Consume), steps)
                                 && RoundOver(After(TakeStep(t, Consume), steps)))
                <==> |RunningDependents(s, d)| <= QUEUE_CAPACITY)
  {
    hide Resting, WellFormed, AllFollow, CanRun, After, Falls, DependentsHeard, RunningDependents, FallHeard;
    var fallen := FallIsHeard(s, d, success, ok);
    var t := After(s, FallHeard(d, success, ok));
    FallRoundCompletesExactly(t, d, fallen);
  }

  /** Beyond that, every way the round can go ends with nothing left to do and the supervisor waiting for ever. */
  lemma FallWithoutRoomGetsStuck(s: System, d: Name, success: bool, ok: bool, steps: seq<Step>)
    requires Resting(s) && d in s.actors && s.actors[d].state == Active && Falls(s.actors[d], success)
    requires CanRun(s, FallHeard(d, success, ok))
    requires |RunningDependents(s, d)| > QUEUE_CAPACITY
    requires CanStep(After(s, FallHeard(d, success, ok)), Consume)
    requires CanRun(TakeStep(After(s, FallHeard(d, success, ok)), Consume), steps) && AllRoundSteps(steps)
    ensures var t := TakeStep(After(s, FallHeard(d, success, ok)), Consume);
            && |steps| <= WorkLeft(t) && !RoundOver(After(t, steps))
            && ((forall step :: RoundStep(step) ==> !CanStep(After(t, steps), step)) <==> Stuck(After(t, steps)))
  {
    hide Resting, WellFormed, AllFollow, CanRun, After, Falls, DependentsHeard, RunningDependents, FallHeard,
         InRound, Stuck, NamedOnce, EmittedAtOnce, WorkLeft;
    var fallen := FallIsHeard(s, d, success, ok);
    var t := After(s, FallHeard(d, success, ok));
    FallRoundCompletesExactly(t, d, fallen);
    StopsOfFall(t, d, fallen);
    StopsTooMany(AfterConsume(t), steps);
  }

  lemma StopsTooMany(s: System, steps: seq<Step>)
    requires InRound(s) && NamedOnce(s.outbox) && s.awaiting == None && |s.queue| <= QUEUE_CAPACITY
    requires forall i :: 0 <= i < |s.outbox| ==>
               s.outbox[i].1 == Stop && s.outbox[i].0 in s.actors && s.actors[s.outbox[i].0].state.IsRunning()
    requires |s.queue| + |s.outbox| > QUEUE_CAPACITY
    requires CanRun(s, steps) && AllRoundSteps(steps)
    ensures |steps| <= WorkLeft(s) && !RoundOver(After(s, steps))
    ensures (forall step :: RoundStep(step) ==> !CanStep(After(s, steps), step)) <==> Stuck(After(s, steps))
  {
    hide CanRun, After, Emitted, EmittedAtOnce, NamedOnce, Outcomes, WellFormed, Handled, Stuck, WorkLeft;
    OutboxKnown(s);
    forall i | 0 <= i < |s.outbox| ensures EventsOfFirst(s.actors, s.outbox[i]) == 1 {
      CommandEmitsAtMostTwo(s.actors[s.outbox[i].0], Stop, true);
    }
    UniformEmits(s.actors, s.outbox, 1);
    OutcomesCount(s, steps);
    var oks := Outcomes(steps) + seq(|s.outbox| - |Outcomes(steps)|, i => true);
    NamedOnceEmits(s.actors, s.outbox, oks);
    TooManyEventsGetStuck(s, steps, oks);
  }
}
