/** Whom the supervisor stops when it hears of a fall, whom it misses, and who of those comes back. */
module CascadeMisses {
  import opened Prelude
  import opened ServiceActor
  import opened ActorRuns
  import opened ActorHistory
  import opened Overlord
  import opened Supervision
  import opened SnapshotTracking
  import opened RequiresCascade

  lemma StopsOfEvent(b: Overlord.State, name: Name, e: Event, n: Name)
    requires b.plan.Valid() && name in b.snaps.vals
    ensures (n, Stop) in OnEvent(b, name, e).1
            <==> n != name && e.StateChanged? && Terminal(e.newState) && Requires(b.plan, n, name)
                 && RunningIn(b.snaps, n)
  {
    hide DepsRunning, Filter, ToAll, StopDependents;
    if e.StateChanged? {
      StopsOfDependents(Hear(b, name, e.newState), name);
    }
  }

  /**
    Whatever event of `d` the supervisor hears, it sends a Stop to exactly the services that require `d`, provided `d`
    is now Inactive or in Error, and that were running as far as it has heard: not to one whose start it has not heard
    of yet, and to nobody when `d` goes into Backoff or Stopping.
    */
  lemma StopSentExactly(s: System, d: Name, e: Event, n: Name)
    requires WellFormed(s) && CanStep(s, Consume) && s.queue[0] == (d, e)
    requires d in s.actors && n in s.actors && Follows(s, n)
    ensures (n, Stop) in AfterConsume(s).outbox
            <==> n != d && e.StateChanged? && Terminal(e.newState) && Requires(s.boss.plan, n, d)
                 && StateAfter(s.actors[n].events[..s.heard[n]]).IsRunning()
  {
    hide WellFormed, OnEvent, Project, StateAfter, NotRetired, Requires;
    PlanValid(s);
    ActorsHaveSnapshots(s, d);
    ActorsHaveSnapshots(s, n);
    FollowsMeans(s, n);
    StopsOfEvent(s.boss, d, e, n);
  }

  /** They are sent in the order of the plan, to each service once. */
  lemma StopsInPlanOrder(s: System, d: Name, fallen: ServiceState)
    requires WellFormed(s) && CanStep(s, Consume) && s.queue[0] == (d, StateChanged(fallen)) && Terminal(fallen)
    requires d in s.actors
    ensures Names(AfterConsume(s).outbox)
            == Filter(s.boss.plan.keys, n => n != d && Requires(s.boss.plan, n, d) && RunningIn(s.boss.snaps, n))
  {
    hide WellFormed, OnEvent, Filter, ToAll;
    PlanValid(s);
    ActorsHaveSnapshots(s, d);
    DownEventOnlyStops(s.boss, d, StateChanged(fallen));
    var heard := AfterConsume(s).boss;
    FilterAgrees(s.boss.plan.keys, n => Dependent(heard.plan, heard.snaps, n, d),
                 n => n != d && Requires(s.boss.plan, n, d) && RunningIn(s.boss.snaps, n));
    NamesOfToAll(heard.snaps, Dependents(heard, d), Stop);
  }

  /** A service entering Backoff stops nobody, and nobody is started for it either. */
  lemma BackoffStopsNobody(s: System, d: Name)
    requires CanStep(s, Consume) && s.queue[0] == (d, StateChanged(ServiceState.Backoff))
    ensures AfterConsume(s).outbox == []
  {
    hide DepsRunning, Filter, ToAll;
  }

  /** Some process of the service can be spawned again without a Start or Restart being sent to it. */
  ghost predicate CanComeBack(a: ActorState) {
    exists more :: Possible(a, more) && StartFree(more) && Run(a, more).spawned > a.spawned
  }

  lemma ComesBackExactly(a: ActorState)
    requires Clean(a) && !a.halted && a.state != Active
    ensures CanComeBack(a) <==> a.state == ServiceState.Backoff || a.pendingRestart
  {
    hide Clean, Run, Possible;
    if a.state == ServiceState.Backoff {
      TimerBringsBack(a);
    } else if a.pendingRestart {
      RestartBringsBack(a);
    } else {
      WithoutBothSettled(a);
      forall more | Possible(a, more) && StartFree(more) ensures Run(a, more).spawned == a.spawned {
        SettledSpawnsNothing(a, more);
      }
    }
  }

  lemma TimerBringsBack(a: ActorState)
    requires Clean(a) && !a.halted && a.state == ServiceState.Backoff
    ensures CanComeBack(a)
  {
    RunOne(a, BackoffExpired(true));
    assert StartFree([BackoffExpired(true)]);
  }

  lemma RestartBringsBack(a: ActorState)
    requires Clean(a) && !a.halted && a.pendingRestart
    ensures CanComeBack(a)
  {
    hide Config.Delay;
    RunOne(a, ChildExit(true, true));
    assert StartFree([ChildExit(true, true)]);
  }

  lemma WithoutBothSettled(a: ActorState)
    requires Clean(a) && !a.halted && a.state !in {Active, ServiceState.Backoff} && !a.pendingRestart
    ensures Settled(a)
  {
  }

  /**
    A service that requires the fallen one and has been fully heard is left alone and can come up again by itself,
    although what it requires is down, exactly if it is in Backoff or has a restart pending.
    */
  lemma MissedAndBackExactly(s: System, d: Name, n: Name, fallen: ServiceState)
    requires WellFormed(s) && CanStep(s, Consume) && s.queue[0] == (d, StateChanged(fallen)) && Terminal(fallen)
    requires d in s.actors && n in s.actors && d != n && Requires(s.boss.plan, n, d)
    requires Follows(s, n) && Idle(s, n) && s.heard[n] == |s.actors[n].events| && Clean(s.actors[n])
    ensures (n, Stop) !in AfterConsume(s).outbox && CanComeBack(s.actors[n])
            <==> s.actors[n].state == ServiceState.Backoff || s.actors[n].pendingRestart
  {
    hide WellFormed, Project, StateAfter, NotRetired, Requires, CanComeBack, Clean, AfterConsume;
    StopSentExactly(s, d, StateChanged(fallen), n);
    FollowsMeans(s, n);
    Domains(s);
    assert s.actors[n].events[..s.heard[n]] == s.actors[n].events;
    NeverStarting(s.actors[n]);
    if s.actors[n].state != Active {
      ComesBackExactly(s.actors[n]);
    }
  }

  lemma NeverStarting(a: ActorState)
    requires Clean(a)
    ensures a.state != Starting && (a.pendingRestart ==> a.state == Stopping)
  {
  }
}
