/** What sets a stop cascade off, and whom it misses. */
module CascadeStart {
  import opened Prelude
  import opened ServiceActor
  import opened ActorRuns
  import opened ActorHistory
  import opened Overlord
  import opened Supervision
  import opened SnapshotTracking
  import opened RequiresCascade

  /** The exit of a running process that is neither answered by a restart nor by the end of the daemon. */
  predicate Falls(a: ActorState, success: bool) {
    match a.config.Policy(success)
    case Some(Ignore) => true
    case Some(RestartService) | None => BackoffLimitExceeded(a)
    case _ => false
  }

  /** That is what it is: the service is down for good, and the daemon is not told to end. */
  lemma FallsExactly(a: ActorState, success: bool, ok: bool)
    requires Calm(a) && a.state == Active
    ensures CanHappen(a, ChildExit(success, ok))
    ensures var b := ServiceActor.Step(a, ChildExit(success, ok));
            Falls(a, success)
            <==> b.state in {Inactive, Error} && b.events != [] && !b.events[|b.events| - 1].DaemonShutdown?
  {
    ExitIsAnswered(a, success, ok);
    hide Config.Limit, Config.NextDelay;
  }

  lemma FallenActor(a: ActorState, success: bool, ok: bool)
    requires Calm(a) && a.state == Active && Falls(a, success)
    ensures CanHappen(a, ChildExit(success, ok))
    ensures var b := ServiceActor.Step(a, ChildExit(success, ok));
            && Calm(b) && Terminal(b.state) && a.events <= b.events && DownFrom(b.events, |a.events|)
  {
    StepKeepsClean(a, ChildExit(success, ok));
  }

  /** A service that falls by itself in a resting system is the root of a cascade. */
  lemma FallStartsCascade(s: System, d: Name, success: bool, ok: bool)
    requires Resting(s) && d in s.actors && s.actors[d].state == Active && Falls(s.actors[d], success)
    ensures CanStep(s, Internal(d, ChildExit(success, ok)))
    ensures Falling(TakeStep(s, Internal(d, ChildExit(success, ok))), {d})
  {
    hide WellFormed, Follows, Orderly, Falls, ServiceActor.Step, CanHappen, DownFrom;
    var step := Internal(d, ChildExit(success, ok));
    FallenActor(s.actors[d], success, ok);
    Domains(s);
    assert Idle(s, d);
    StaysFollowed(s, step);
    SnapshotIsState(s, d);
  }

  lemma SnapshotIsState(s: System, d: Name)
    requires Resting(s) && d in s.actors
    ensures s.boss.snaps.vals[d] == s.actors[d].state
  {
    hide StateAfter, Project, NotRetired, Orderly;
    assert Follows(s, d);
    assert s.actors[d].events[..s.heard[d]] == s.actors[d].events;
  }

  /** The actor of `d` has handled a Stop and said so, and nothing else has happened. */
  ghost predicate StopUnderWay(s: System, t: System, d: Name)
    requires d in s.actors && d in s.flushed
  {
    && AtLoopHead(t) && t.queue == [(d, StateChanged(Stopping))] && t.boss == s.boss && t.heard == s.heard
    && t.actors == s.actors[d := HandleStop(s.actors[d])] && t.flushed == s.flushed[d := s.flushed[d] + 1]
  }

  /** A Stop sent to a running service: the root is `d` once the supervisor has its reply. */
  lemma StopStartsCascade(s: System, d: Name, ok: bool)
    requires Resting(s) && d in s.actors && s.actors[d].state == Active
    ensures var steps := [Round([(d, Stop)]), Deliver(ok), Flush(d), Reply];
            && CanRun(s, steps) && Falling(After(s, steps), {d})
            && After(s, steps).actors[d].state == Stopping && StopUnderWay(s, After(s, steps), d)
  {
    hide WellFormed, Follows, Orderly, HandleStop, ServiceActor.Step, CanHappen, CanRun, After, DownFrom, Known,
         TakeStep;
    var s1 := StopSent(s, d);
    assert forall n :: Follows(s, n);
    var s2 := StopHandled(s, s1, d, ok);
    var s3 := StopAnswered(s, s2, d);
    SnapshotIsState(s, d);
    RunNothing(s3);
    RunStep(TakeStep(s2, Flush(d)), Reply, []);
    assert [Reply] + [] == [Reply];
    RunStep(s2, Flush(d), [Reply]);
    assert [Flush(d)] + [Reply] == [Flush(d), Reply];
    RunStep(s1, Deliver(ok), [Flush(d), Reply]);
    assert [Deliver(ok)] + [Flush(d), Reply] == [Deliver(ok), Flush(d), Reply];
    RunStep(s, Round([(d, Stop)]), [Deliver(ok), Flush(d), Reply]);
    assert [Round([(d, Stop)])] + [Deliver(ok), Flush(d), Reply] == [Round([(d, Stop)]), Deliver(ok), Flush(d), Reply];
  }

  lemma StopSent(s: System, d: Name) returns (s1: System)
    requires Resting(s) && d in s.actors
    ensures CanStep(s, Round([(d, Stop)])) && s1 == TakeStep(s, Round([(d, Stop)]))
    ensures s1 == s.(outbox := [(d, Stop)]) && WellFormed(s1) && (forall n :: Follows(s1, n))
  {
    hide WellFormed, Follows, Orderly;
    Domains(s);
    s1 := TakeStep(s, Round([(d, Stop)]));
    assert Known(s, [(d, Stop)]) == [(d, Stop)];
    StepKeepsWellFormed(s, Round([(d, Stop)]));
    forall n ensures Follows(s1, n) {
      StepFollows(s, Round([(d, Stop)]), n);
    }
  }

  lemma StopHandled(s: System, s1: System, d: Name, ok: bool) returns (s2: System)
    requires Resting(s) && d in s.actors && s.actors[d].state == Active
    requires s1 == s.(outbox := [(d, Stop)]) && WellFormed(s1) && (forall n :: Follows(s1, n))
    ensures CanStep(s1, Deliver(ok)) && s2 == TakeStep(s1, Deliver(ok))
    ensures s2.owed == |HandleStop(s.actors[d]).events|
    ensures WellFormed(s2) && (forall n :: Follows(s2, n))
    ensures s2 == s.(outbox := [], awaiting := Some(d), owed := s2.owed,
                     actors := s.actors[d := HandleStop(s.actors[d])], log := s.log + [Delivery(d, Stop, ok)])
  {
    hide WellFormed, Follows, Orderly, HandleStop;
    Domains(s);
    assert Idle(s1, d);
    s2 := TakeStep(s1, Deliver(ok));
    StepKeepsWellFormed(s1, Deliver(ok));
    forall n ensures Follows(s2, n) {
      StepFollows(s1, Deliver(ok), n);
    }
  }

  lemma StopAnswered(s: System, s2: System, d: Name) returns (s4: System)
    requires Resting(s) && d in s.actors && s.actors[d].state == Active
    requires WellFormed(s2) && (forall n :: Follows(s2, n))
    requires s2.outbox == [] && s2.awaiting == Some(d) && s2.queue == [] && !s2.halted
    requires s2.owed == |HandleStop(s.actors[d]).events|
    requires s2.actors == s.actors[d := HandleStop(s.actors[d])] && s2.flushed == s.flushed && s2.heard == s.heard
    requires s2.boss == s.boss
    ensures CanStep(s2, Flush(d)) && CanStep(TakeStep(s2, Flush(d)), Reply)
    ensures s4 == TakeStep(TakeStep(s2, Flush(d)), Reply)
    ensures Falling(s4, {d}) && s4.actors[d].state == Stopping && StopUnderWay(s, s4, d)
  {
    hide WellFormed, Follows, Orderly, HandleStop, DownFrom, Terminal;
    Domains(s);
    StopWinds(s.actors[d]);
    var s3 := TakeStep(s2, Flush(d));
    s4 := TakeStep(s3, Reply);
    StaysFollowed(s2, Flush(d));
    StaysFollowed(s3, Reply);
    RootStops(s, s4, d);
  }

  lemma StaysFollowed(s: System, step: Supervision.Step)
    requires WellFormed(s) && (forall n :: Follows(s, n)) && CanStep(s, step) && !step.Load?
    ensures WellFormed(TakeStep(s, step)) && forall n :: Follows(TakeStep(s, step), n)
  {
    hide WellFormed, Follows, CanStep, TakeStep;
    StepKeepsWellFormed(s, step);
    forall n ensures Follows(TakeStep(s, step), n) {
      StepFollows(s, step, n);
    }
  }

  lemma RootStops(s: System, t: System, d: Name)
    requires Resting(s) && d in s.actors && s.actors[d].state == Active
    requires d in t.actors && t.actors[d] == HandleStop(s.actors[d]) && t.boss == s.boss && t.heard == s.heard
    requires WellFormed(s)
    ensures d in t.heard && DownFrom(t.actors[d].events, t.heard[d])
    ensures d in t.boss.snaps.vals && !Terminal(t.boss.snaps.vals[d])
  {
    hide WellFormed, Follows, Orderly, HandleStop;
    Domains(s);
    StopWinds(s.actors[d]);
    SnapshotIsState(s, d);
  }

  /**
    A dependent that is waiting for its restart is not told to stop: its timer brings it up although what it
    requires is down.
    */
  lemma BackoffEscapesCascade(s: System, d: Name, n: Name, fallen: ServiceState)
    requires WellFormed(s) && AtLoopHead(s) && Terminal(fallen)
    requires s.queue != [] && s.queue[0] == (d, StateChanged(fallen)) && d != n && d in s.actors
    requires Idle(s, n) && s.actors[n].backoffSleep.Some?
    requires Requires(s.boss.plan, n, d) && s.boss.snaps.vals[n] == ServiceState.Backoff
    ensures CanRun(s, [Consume, Internal(n, BackoffExpired(true))])
    ensures var t := After(s, [Consume, Internal(n, BackoffExpired(true))]);
            && n in t.actors && t.actors[n].state == Active && t.actors[n].spawned == s.actors[n].spawned + 1
            && d in t.boss.snaps.vals && Terminal(t.boss.snaps.vals[d])
            && forall m :: m in t.outbox ==> m.0 != n
  {
    hide WellFormed, CanRun, After, OnEvent, ToAll, Dependents;
    Domains(s);
    PlanValid(s);
    DownEventOnlyStops(s.boss, d, StateChanged(fallen));
    var t1 := AfterConsume(s);
    StopsOfDependents(t1.boss, d);
    var last := Internal(n, BackoffExpired(true));
    assert CanStep(s, Consume);
    HalfwayRun(s, t1, last);
  }

  lemma HalfwayRun(s: System, t: System, last: Supervision.Step)
    requires CanStep(s, Consume) && t == TakeStep(s, Consume) && CanStep(t, last)
    ensures CanRun(s, [Consume, last]) && After(s, [Consume, last]) == TakeStep(t, last)
  {
    hide CanStep, TakeStep, CanRun, After;
    RunNothing(TakeStep(t, last));
    RunStep(t, last, []);
    assert [last] + [] == [last];
    RunStep(s, Consume, [last]);
    assert [Consume] + [last] == [Consume, last];
  }
}
