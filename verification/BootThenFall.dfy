/** From boot to a stop cascade: what runs after the daemon has booted, and what still runs after a service fell. */
module BootThenFall {
  import opened Prelude
  import opened ServiceActor
  import opened ActorHistory
  import opened Overlord
  import opened Supervision
  import opened SnapshotTracking
  import opened LayerMerge
  import opened PendingAutostart
  import opened AutostartCompletion
  import opened RequiresCascade
  import opened CascadeOutcome
  import opened CascadeCompletion
  import opened CascadeStart
  import opened CascadeRoom

  /** A boot that has come to rest leaves the system synchronised: from there a fall is a cascade. */
  lemma BootEndsSynchronised(plan: Services, steps: seq<Supervision.Step>)
    requires plan.Valid() && CanRun(Booted(plan), steps) && AllBootSteps(steps)
    requires Quiescent(After(Booted(plan), steps))
    ensures Synchronised(After(Booted(plan), steps))
  {
    hide Booted, Settling, CanRun, After, Synchronised, Quiescent;
    BootIsSettling(plan);
    RunKeepsSettling(Booted(plan), steps);
    RestIsSynchronised(After(Booted(plan), steps));
  }

  /**
    After a boot without failures of a plan with sound dependencies, and a fall of one of its services: once the
    cascade is at rest, an enabled service runs exactly if it does not require the fallen one through running
    services.
    */
  lemma FallAfterBoot(plan: Services, boot: seq<Supervision.Step>, rank: Name -> nat, d: Name, success: bool, ok: bool,
                      cascade: seq<Supervision.Step>, n: Name)
    requires plan.Valid() && CanRun(Booted(plan), boot) && AllBootSteps(boot)
    requires Quiescent(After(Booted(plan), boot)) && Sound(plan, rank)
    requires d in plan.vals && plan.vals[d].startup == Startup.Enabled
    requires n in plan.vals && plan.vals[n].startup == Startup.Enabled
    requires d in After(Booted(plan), boot).actors && Falls(After(Booted(plan), boot).actors[d], success)
    requires CanStep(After(Booted(plan), boot), Internal(d, ChildExit(success, ok)))
    requires var s := TakeStep(After(Booted(plan), boot), Internal(d, ChildExit(success, ok)));
             CanCascade(s, cascade) && AtRest(AfterCascade(s, cascade))
    ensures var s := TakeStep(After(Booted(plan), boot), Internal(d, ChildExit(success, ok)));
            var t := AfterCascade(s, cascade);
            n in t.actors && (t.actors[n].state == Active <==> !Reached(s, {d}, n))
  {
    hide Booted, CanRun, After, Synchronised, Resting, Quiescent, Sound, IsEnabled, Falls, CanCascade, AfterCascade,
         AtRest, Reached, Falling, ServiceActor.Step, CanHappen;
    var before := After(Booted(plan), boot);
    BootEndsSynchronised(plan, boot);
    SynchronisedIsResting(After(Booted(plan), boot));
    BootStartsEverything(plan, boot, rank, d);
    BootStartsEverything(plan, boot, rank, n);
    FallStartsCascade(before, d, success, ok);
    var s := TakeStep(before, Internal(d, ChildExit(success, ok)));
    CascadeOutcome.CascadeOutcome(s, {d}, cascade);
    if n == d {
      RootsReached(s, {d}, d);
    }
  }

  // ---------------------------------------------------------------------
  // That it gets there
  // ---------------------------------------------------------------------

  /** Only enabled services have run in an unattended run. */
  lemma RunningIsEnabled(s: System, n: Name)
    requires OrderKept(s) && WasActive(s, n)
    ensures IsEnabled(s.boss.plan, n)
  {
    hide WellFormed, AllFollow, OutboxOrdered, DependsOn, IsEnabled;
    if !Started(s.log, n) {
      UnstartedIsDown(s, n);
    }
    var i :| 0 <= i < |s.log| && StartOf(s.log[i], n);
    assert StartableAfter(s.boss.plan, s.log[..i], n);
  }

  lemma UnstartedIsDown(s: System, n: Name)
    requires OnlyStartedMove(s) && n in s.actors && !Started(s.log, n)
    ensures s.actors[n].state == Inactive
  {
    hide Started;
  }

  lemma RunningAreFew(plan: Services, boot: seq<Supervision.Step>)
    requires plan.Valid() && CanRun(Booted(plan), boot) && AllBootSteps(boot)
    ensures |RunningServices(After(Booted(plan), boot))| <= |EnabledNames(plan)|
  {
    hide Booted, OrderKept, CanRun, After, WasActive, Filter;
    BootOrdered(plan);
    UnattendedRunKeepsOrder(Booted(plan), boot);
    var s := After(Booted(plan), boot);
    SnapshotsAreDistinct(s);
    FilterDistinct(s.boss.snaps.keys, n => WasActive(s, n));
    forall n | n in RunningServices(s) ensures n in EnabledNames(plan) {
      RunningIsEnabled(s, n);
      EnabledIsPlanned(plan, n);
    }
    FewerThan(RunningServices(s), EnabledNames(plan));
  }

  lemma SnapshotsAreDistinct(s: System)
    requires OrderKept(s)
    ensures Distinct(s.boss.snaps.keys)
  {
    hide Told, Follows;
  }

  lemma EnabledIsPlanned(plan: Services, n: Name)
    requires plan.Valid() && IsEnabled(plan, n)
    ensures n in EnabledNames(plan)
  {
    hide Filter;
  }

  /**
    With at most 85 enabled services, the fall of any of them after such a boot comes to rest: the cascade takes
    boundedly many steps, short of rest there is always a next one, and there is a way to get there.
    */
  lemma FallAfterBootComesToRest(plan: Services, boot: seq<Supervision.Step>, rank: Name -> nat, d: Name, success: bool,
                                 ok: bool, cascade: seq<Supervision.Step>)
    requires plan.Valid() && CanRun(Booted(plan), boot) && AllBootSteps(boot)
    requires Quiescent(After(Booted(plan), boot)) && Sound(plan, rank)
    requires d in plan.vals && plan.vals[d].startup == Startup.Enabled
    requires d in After(Booted(plan), boot).actors && Falls(After(Booted(plan), boot).actors[d], success)
    requires 3 * |EnabledNames(plan)| <= QUEUE_CAPACITY + 1
    ensures CanStep(After(Booted(plan), boot), Internal(d, ChildExit(success, ok)))
    ensures var s := TakeStep(After(Booted(plan), boot), Internal(d, ChildExit(success, ok)));
            && (exists rest :: CanCascade(s, rest) && AtRest(AfterCascade(s, rest)))
            && (CanCascade(s, cascade) ==>
                  && |cascade| <= Effort(s)
                  && (!AtRest(AfterCascade(s, cascade)) ==>
                        exists step :: CanStep(AfterCascade(s, cascade), step)
                                       && CascadeStep(AfterCascade(s, cascade), step)))
  {
    hide Booted, CanRun, After, Synchronised, Resting, Quiescent, Sound, IsEnabled, Falls, CanCascade, AfterCascade,
         AtRest, Effort, RunningServices, EnabledNames, CanStep, TakeStep, CascadeStep;
    BootEndsSynchronised(plan, boot);
    SynchronisedIsResting(After(Booted(plan), boot));
    BootStartsEverything(plan, boot, rank, d);
    RunningAreFew(plan, boot);
    FallComesToRest(After(Booted(plan), boot), d, success, ok, cascade);
  }
}
