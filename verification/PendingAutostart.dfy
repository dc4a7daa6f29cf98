/** Deferred services: none is forgotten, and none is started before the services it waits for. */
module PendingAutostart {
  import opened Prelude
  import opened ServiceActor
  import opened ActorHistory
  import opened Overlord
  import opened Supervision
  import opened SnapshotTracking
  import opened LayerMerge

  // ---------------------------------------------------------------------
  // No lost wakeup
  // ---------------------------------------------------------------------

  /** Each deferred service is listed once and waits for a dependency that is not running in the snapshots. */
  ghost predicate NoLostWakeup(b: Overlord.State) {
    && Distinct(b.pending)
    && (forall n :: n in b.pending ==> n in b.plan.vals && !DepsRunning(b.plan, b.snaps, n))
  }

  lemma HearingStopUnblocksNothing(b: Overlord.State, name: Name, newState: ServiceState, n: Name)
    requires !newState.IsRunning()
    requires DepsRunning(b.plan, Hear(b, name, newState).snaps, n)
    ensures DepsRunning(b.plan, b.snaps, n)
  {
    var after := Hear(b, name, newState).snaps;
    assert forall d :: RunningIn(after, d) ==> RunningIn(b.snaps, d);
  }

  lemma EventKeepsNoLostWakeup(b: Overlord.State, name: Name, e: Event)
    requires NoLostWakeup(b)
    ensures NoLostWakeup(OnEvent(b, name, e).0)
  {
    hide DepsRunning, ToAll, Dependents;
    if e.StateChanged? {
      var heard := Hear(b, name, e.newState);
      if e.newState.IsRunning() {
        FilterDistinct(b.pending, n => !DepsRunning(heard.plan, heard.snaps, n));
      } else {
        forall n | n in b.pending ensures !DepsRunning(heard.plan, heard.snaps, n) {
          if DepsRunning(heard.plan, heard.snaps, n) {
            HearingStopUnblocksNothing(b, name, e.newState, n);
          }
        }
      }
    }
  }

  lemma LoadEstablishesNoLostWakeup(b: Overlord.State, plan: Services)
    ensures NoLostWakeup(Overlord.Reload(b, plan).0)
  {
    hide DepsRunning, ToAll, ReadyNow, SyncActors;
    var loaded := State(plan, SyncActors(b.snaps, plan), []);
    AddAllDistinct([], WaitingNow(loaded));
  }

  lemma StepKeepsNoLostWakeup(s: System, step: Step)
    requires NoLostWakeup(s.boss) && CanStep(s, step)
    ensures NoLostWakeup(TakeStep(s, step).boss)
  {
    hide NoLostWakeup, OnEvent, Overlord.Reload, Known, Leftovers, ServiceActor.Step, CanHappen, Filter;
    match step
    case Consume => EventKeepsNoLostWakeup(s.boss, s.queue[0].0, s.queue[0].1);
    case Load(plan) => LoadEstablishesNoLostWakeup(s.boss, plan);
    case _ =>
  }

  /** At every moment of every run, also across reloads and commands from outside. */
  lemma {:induction false} WakeupsAreNeverLost(s: System, steps: seq<Step>)
    requires NoLostWakeup(s.boss) && CanRun(s, steps)
    ensures NoLostWakeup(After(s, steps).boss)
    decreases |steps|
  {
    hide NoLostWakeup, CanStep, TakeStep;
    if steps != [] {
      StepKeepsNoLostWakeup(s, steps[0]);
      WakeupsAreNeverLost(TakeStep(s, steps[0]), steps[1..]);
    }
  }

  lemma BootHasNoLostWakeup(plan: Services)
    ensures NoLostWakeup(Booted(plan).boss)
  {
    hide NoLostWakeup, Overlord.Reload, Leftovers, Filter;
    LoadEstablishesNoLostWakeup(Nothing().boss, plan);
  }

  // ---------------------------------------------------------------------
  // Order of automatic starts
  // ---------------------------------------------------------------------

  /** `d` has to run before `name` is started automatically. */
  ghost predicate DependsOn(plan: Services, name: Name, d: Name) {
    name in plan.vals && (
      || d in plan.vals[name].after
      || d in plan.vals[name].required
      || (d in plan.vals && d != name && name in plan.vals[d].before))
  }

  /** What happens when nobody sends commands from outside, no check restarts anything and nothing is reloaded. */
  predicate Unattended(step: Step) {
    !step.Round? && !step.Load?
  }

  predicate AllUnattended(steps: seq<Step>) {
    forall step :: step in steps ==> Unattended(step)
  }

  predicate StartOf(d: Delivery, name: Name) {
    d.name == name && d.command == Start
  }

  ghost predicate Started(log: seq<Delivery>, name: Name) {
    exists i :: 0 <= i < |log| && StartOf(log[i], name)
  }

  ghost predicate StartableAfter(plan: Services, log: seq<Delivery>, name: Name) {
    IsEnabled(plan, name) && forall d :: DependsOn(plan, name, d) ==> Started(log, d)
  }

  /** Every Start in the log had all its dependencies started before it. */
  ghost predicate Ordered(plan: Services, log: seq<Delivery>) {
    forall i :: 0 <= i < |log| && log[i].command == Start ==> StartableAfter(plan, log[..i], log[i].name)
  }

  /** An actor that was never sent a Start is as it was created. */
  ghost predicate OnlyStartedMove(s: System) {
    forall n :: n in s.actors && !Started(s.log, n) ==> s.actors[n] == New(s.actors[n].config)
  }

  ghost predicate OutboxOrdered(s: System) {
    forall m :: m in s.outbox ==> m.1 != Restart && (m.1 == Start ==> StartableAfter(s.boss.plan, s.log, m.0))
  }

  ghost predicate PendingEnabled(b: Overlord.State) {
    forall n :: n in b.pending ==> IsEnabled(b.plan, n)
  }

  /** Kept by every step of an unattended run. */
  ghost predicate OrderKept(s: System) {
    && WellFormed(s) && AllFollow(s)
    && PendingEnabled(s.boss) && OnlyStartedMove(s) && OutboxOrdered(s) && Ordered(s.boss.plan, s.log)
  }

  lemma RunningDepsWereStarted(s: System, n: Name)
    requires WellFormed(s) && OnlyStartedMove(s) && AllFollow(s)
    requires IsEnabled(s.boss.plan, n) && DepsRunning(s.boss.plan, s.boss.snaps, n)
    ensures StartableAfter(s.boss.plan, s.log, n)
  {
    hide Follows, Started, WellFormed;
    forall d | DependsOn(s.boss.plan, n, d) ensures Started(s.log, d) {
      assert RunningIn(s.boss.snaps, d);
      ActorsOfSnapshots(s, d);
      if !Started(s.log, d) {
        UntouchedIsInactive(s, d);
      }
    }
  }

  lemma ActorsOfSnapshots(s: System, d: Name)
    requires WellFormed(s)
    ensures d in s.actors <==> d in s.boss.snaps.vals
  {
    hide Told;
  }

  lemma UntouchedIsInactive(s: System, d: Name)
    requires WellFormed(s) && d in s.actors && Follows(s, d) && s.actors[d] == New(s.actors[d].config)
    ensures d in s.boss.snaps.vals && s.boss.snaps.vals[d] == Inactive
  {
    hide Project, NotRetired, Told;
    assert s.actors[d].events[..s.heard[d]] == [];
  }

  lemma EventStartsReady(b: Overlord.State, name: Name, e: Event)
    requires PendingEnabled(b)
    ensures var (b', commands) := OnEvent(b, name, e);
            && PendingEnabled(b')
            && (forall m :: m in commands ==> m.1 != Restart)
            && (forall m :: m in commands && m.1 == Start ==>
                  IsEnabled(b'.plan, m.0) && DepsRunning(b'.plan, b'.snaps, m.0))
  {
    hide DepsRunning, Filter, ToAll;
  }

  lemma ConsumeKeepsOrder(s: System)
    requires OrderKept(s) && CanStep(s, Consume)
    requires WellFormed(AfterConsume(s)) && AllFollow(AfterConsume(s))
    ensures OrderKept(AfterConsume(s))
  {
    hide WellFormed, Follows, AllFollow, Started, DependsOn, DepsRunning, StartableAfter, OnEvent, AfterDeliver;
    var t := AfterConsume(s);
    EventStartsReady(s.boss, s.queue[0].0, s.queue[0].1);
    EventKeepsPlan(s.boss, s.queue[0].0, s.queue[0].1);
    forall m | m in t.outbox ensures m.1 != Restart && (m.1 == Start ==> StartableAfter(t.boss.plan, t.log, m.0)) {
      if m.1 == Start {
        RunningDepsWereStarted(t, m.0);
      }
    }
  }

  lemma EventKeepsPlan(b: Overlord.State, name: Name, e: Event)
    ensures OnEvent(b, name, e).0.plan == b.plan
  {
    hide DepsRunning, Filter, ToAll;
  }

  lemma StartedEarlier(plan: Services, log: seq<Delivery>, d: Delivery, name: Name)
    requires StartableAfter(plan, log, name)
    ensures StartableAfter(plan, log + [d], name)
  {
    forall x | DependsOn(plan, name, x) ensures Started(log + [d], x) {
      var i :| 0 <= i < |log| && StartOf(log[i], x);
      assert StartOf((log + [d])[i], x);
    }
  }

  lemma DeliverKeepsOrder(s: System, ok: bool)
    requires OrderKept(s) && CanStep(s, Deliver(ok))
    requires WellFormed(AfterDeliver(s, ok)) && AllFollow(AfterDeliver(s, ok))
    ensures OrderKept(AfterDeliver(s, ok))
  {
    hide WellFormed, Follows, AllFollow, DependsOn, StartableAfter, ServiceActor.Step, CanHappen;
    var t := AfterDeliver(s, ok);
    var (name, c) := s.outbox[0];
    var d := Delivery(name, c, ok);
    forall m | m in t.outbox ensures m.1 != Restart && (m.1 == Start ==> StartableAfter(t.boss.plan, t.log, m.0)) {
      if m.1 == Start {
        StartedEarlier(s.boss.plan, s.log, d, m.0);
      }
    }
    forall i | 0 <= i < |t.log| && t.log[i].command == Start
      ensures StartableAfter(t.boss.plan, t.log[..i], t.log[i].name)
    {
      if i < |s.log| {
        assert t.log[..i] == s.log[..i];
      } else {
        assert t.log[..i] == s.log;
        assert s.outbox[0] in s.outbox;
      }
    }
    forall n | n in t.actors && !Started(t.log, n) ensures t.actors[n] == New(t.actors[n].config) {
      DeliverMoves(s, ok, n);
    }
  }

  lemma DeliverMoves(s: System, ok: bool, n: Name)
    requires CanStep(s, Deliver(ok)) && OnlyStartedMove(s) && OutboxOrdered(s)
    requires n in s.actors && !Started(AfterDeliver(s, ok).log, n)
    ensures AfterDeliver(s, ok).actors[n] == New(AfterDeliver(s, ok).actors[n].config)
  {
    hide StartableAfter;
    var (name, c) := s.outbox[0];
    var t := AfterDeliver(s, ok);
    StillNotStarted(s.log, Delivery(name, c, ok), n);
    assert s.actors[n] == New(s.actors[n].config);
    if n == name {
      assert s.outbox[0] in s.outbox;
      StopOfNew(s.actors[n], ok);
    }
  }

  lemma StillNotStarted(log: seq<Delivery>, d: Delivery, n: Name)
    requires !Started(log + [d], n)
    ensures !Started(log, n) && !StartOf(d, n)
  {
    assert (log + [d])[|log|] == d;
    assert forall i :: 0 <= i < |log| ==> (log + [d])[i] == log[i];
  }

  lemma StopOfNew(a: ActorState, ok: bool)
    requires a == New(a.config)
    ensures CanHappen(a, AsInput(Stop, ok)) && ServiceActor.Step(a, AsInput(Stop, ok)) == a
    ensures forall i :: IsInternal(i) ==> !CanHappen(a, i)
  {
  }

  lemma InternalKeepsOrder(s: System, name: Name, i: Input)
    requires OrderKept(s) && CanStep(s, Internal(name, i))
    requires WellFormed(TakeStep(s, Internal(name, i))) && AllFollow(TakeStep(s, Internal(name, i)))
    ensures OrderKept(TakeStep(s, Internal(name, i)))
  {
    hide WellFormed, Follows, AllFollow, Started, StartableAfter, ServiceActor.Step, CanHappen;
    if s.actors[name] == New(s.actors[name].config) {
      StopOfNew(s.actors[name], true);
    }
  }

  lemma UnattendedStepKeepsOrder(s: System, step: Step)
    requires OrderKept(s) && CanStep(s, step) && Unattended(step)
    ensures OrderKept(TakeStep(s, step))
  {
    hide WellFormed, Follows, ServiceActor.Step, CanHappen, AfterConsume, AfterDeliver, Ordered, StartableAfter,
         Started;
    StepKeepsWellFormed(s, step);
    var t := TakeStep(s, step);
    forall n ensures Follows(t, n) {
      StepFollows(s, step, n);
    }
    assert AllFollow(t);
    match step
    case Consume => ConsumeKeepsOrder(s);
    case Deliver(ok) => DeliverKeepsOrder(s, ok);
    case Internal(n, i) => InternalKeepsOrder(s, n, i);
    case _ =>
  }

  lemma PlanStays(s: System, step: Step)
    requires CanStep(s, step) && Unattended(step)
    ensures TakeStep(s, step).boss.plan == s.boss.plan
  {
    hide ServiceActor.Step, CanHappen, OnEvent;
    if step.Consume? {
      EventKeepsPlan(s.boss, s.queue[0].0, s.queue[0].1);
    }
  }

  lemma {:induction false} UnattendedRunKeepsOrder(s: System, steps: seq<Step>)
    requires OrderKept(s) && CanRun(s, steps) && AllUnattended(steps)
    ensures OrderKept(After(s, steps)) && After(s, steps).boss.plan == s.boss.plan
    decreases |steps|
  {
    hide OrderKept, CanStep, TakeStep;
    if steps != [] {
      UnattendedStepKeepsOrder(s, steps[0]);
      PlanStays(s, steps[0]);
      UnattendedRunKeepsOrder(TakeStep(s, steps[0]), steps[1..]);
    }
  }

  lemma BootOrdered(plan: Services)
    requires plan.Valid()
    ensures OrderKept(Booted(plan)) && Booted(plan).boss.plan == plan && Booted(plan).log == []
  {
    hide WellFormed, Follows, DependsOn, DepsRunning, Started, StartableAfter, Overlord.Reload, Leftovers, Filter;
    var t := Booted(plan);
    BootedWellFormed(plan);
    forall n ensures Follows(t, n) {
      BootFollows(plan, n);
    }
    ReloadShape(Nothing().boss, plan);
    ReloadStartsReady(Nothing().boss, plan);
    assert OnlyStartedMove(t);
    forall m | m in t.outbox ensures m.1 != Restart && (m.1 == Start ==> StartableAfter(t.boss.plan, t.log, m.0)) {
      RunningDepsWereStarted(t, m.0);
    }
  }

  lemma ReloadStartsReady(b: Overlord.State, plan: Services)
    ensures var (b', commands) := Overlord.Reload(b, plan);
            && b'.plan == plan && PendingEnabled(b')
            && (forall m :: m in commands ==> m.1 == Start)
            && (forall m :: m in commands ==> IsEnabled(plan, m.0) && DepsRunning(plan, b'.snaps, m.0))
  {
    hide DepsRunning, Filter, ToAll, AddAll;
  }

  /**
    In every unattended run from the first load: when a service was started automatically, each of its `after`,
    `requires` and reverse `before` dependencies had been started strictly earlier.
    */
  lemma StartsAreOrdered(plan: Services, steps: seq<Step>, i: nat, d: Name)
    requires plan.Valid() && CanRun(Booted(plan), steps) && AllUnattended(steps)
    requires i < |After(Booted(plan), steps).log| && After(Booted(plan), steps).log[i].command == Start
    requires DependsOn(plan, After(Booted(plan), steps).log[i].name, d)
    ensures exists j :: 0 <= j < i && StartOf(After(Booted(plan), steps).log[j], d)
  {
    hide Booted, WellFormed, AllFollow, OnlyStartedMove, OutboxOrdered, PendingEnabled, DependsOn, After, CanRun;
    BootOrdered(plan);
    UnattendedRunKeepsOrder(Booted(plan), steps);
    var log := After(Booted(plan), steps).log;
    assert StartableAfter(plan, log[..i], log[i].name);
    var j :| 0 <= j < |log[..i]| && StartOf(log[..i][j], d);
    assert StartOf(log[j], d);
  }

  /** Whatever was started automatically is a service the plan sets to start. */
  lemma OnlyEnabledStart(plan: Services, steps: seq<Step>, i: nat)
    requires plan.Valid() && CanRun(Booted(plan), steps) && AllUnattended(steps)
    requires i < |After(Booted(plan), steps).log| && After(Booted(plan), steps).log[i].command == Start
    ensures var name := After(Booted(plan), steps).log[i].name;
            name in plan.vals && plan.vals[name].startup == Startup.Enabled
  {
    hide Booted, WellFormed, AllFollow, OnlyStartedMove, OutboxOrdered, PendingEnabled, DependsOn, After, CanRun;
    BootOrdered(plan);
    UnattendedRunKeepsOrder(Booted(plan), steps);
    var log := After(Booted(plan), steps).log;
    assert StartableAfter(plan, log[..i], log[i].name);
  }

  /** Each actor runs by what the plan says of its service. */
  ghost predicate ConfigsFollow(s: System, plan: Services) {
    && s.actors.Keys == plan.vals.Keys
    && forall n :: n in s.actors ==> ConfigFollows(s.actors[n].config, plan.vals[n])
  }

  predicate ConfigFollows(c: Config, entry: ServiceConfig) {
    && c.onSuccess == entry.onSuccess && c.onFailure == entry.onFailure && c.backoffDelay == entry.backoffDelay
    && c.backoffFactor == entry.backoffFactor && c.backoffLimit == entry.backoffLimit
  }

  lemma BootConfigures(plan: Services)
    requires plan.Valid()
    ensures ConfigsFollow(Booted(plan), plan)
  {
    hide Overlord.Reload, Leftovers, Filter;
  }

  lemma StepKeepsConfigs(s: System, step: Step, plan: Services)
    requires WellFormed(s) && ConfigsFollow(s, plan) && CanStep(s, step) && !step.Load?
    ensures ConfigsFollow(TakeStep(s, step), plan)
  {
    hide WellFormed, ConfigFollows, OnEvent, Known, ServiceActor.Step, CanHappen, Told;
    Domains(s);
    match step
    case Deliver(ok) =>
      var (name, c) := s.outbox[0];
      RunningTakesCommands(s.actors[name], c, ok);
      RestartBackoff.StepKeepsConfig(s.actors[name], AsInput(c, ok));
    case Internal(n, i) => RestartBackoff.StepKeepsConfig(s.actors[n], i);
    case _ =>
  }

  /** In every run without reloads, with any commands. */
  lemma {:induction false} ActorsRunByThePlan(s: System, steps: seq<Step>, plan: Services)
    requires WellFormed(s) && ConfigsFollow(s, plan) && CanRun(s, steps)
    requires forall step :: step in steps ==> !step.Load?
    ensures ConfigsFollow(After(s, steps), plan)
    decreases |steps|
  {
    hide WellFormed, ConfigsFollow, CanStep, TakeStep;
    if steps != [] {
      StepKeepsConfigs(s, steps[0], plan);
      StepKeepsWellFormed(s, steps[0]);
      ActorsRunByThePlan(TakeStep(s, steps[0]), steps[1..], plan);
    }
  }

  /** A service the plan does not set to start is sent no Start and stays as it was made, in every unattended run. */
  lemma DisabledStaysDown(plan: Services, steps: seq<Step>, n: Name)
    requires plan.Valid() && CanRun(Booted(plan), steps) && AllUnattended(steps)
    requires n in plan.vals && plan.vals[n].startup == Startup.Disabled
    ensures var s := After(Booted(plan), steps);
            && !Started(s.log, n)
            && n in s.actors && s.actors[n] == New(s.actors[n].config)
            && ConfigFollows(s.actors[n].config, plan.vals[n])
  {
    hide Booted, WellFormed, AllFollow, OutboxOrdered, PendingEnabled, DependsOn, After, CanRun, ConfigFollows;
    BootOrdered(plan);
    UnattendedRunKeepsOrder(Booted(plan), steps);
    BootConfigures(plan);
    ActorsRunByThePlan(Booted(plan), steps, plan);
  }

  // ---------------------------------------------------------------------
  // Who can never start
  // ---------------------------------------------------------------------

  /** Each name on the path depends on the next one. */
  ghost predicate DependencyPath(plan: Services, path: seq<Name>) {
    path != [] && forall k :: 0 <= k < |path| - 1 ==> DependsOn(plan, path[k], path[k + 1])
  }

  /** Walking down a dependency path goes back in the log. */
  lemma {:induction false} PathGoesBack(plan: Services, log: seq<Delivery>, path: seq<Name>, i: nat) returns (j: nat)
    requires Ordered(plan, log) && DependencyPath(plan, path)
    requires i < |log| && StartOf(log[i], path[0])
    ensures j <= i && StartOf(log[j], path[|path| - 1])
    ensures |path| > 1 ==> j < i
    decreases |path|
  {
    hide DependsOn;
    if |path| == 1 {
      return i;
    }
    assert DependsOn(plan, path[0], path[1]);
    assert StartableAfter(plan, log[..i], path[0]);
    var k :| 0 <= k < |log[..i]| && StartOf(log[..i][k], path[1]);
    assert StartOf(log[k], path[1]);
    forall m | 0 <= m < |path[1..]| - 1 ensures DependsOn(plan, path[1..][m], path[1..][m + 1]) {
      assert DependsOn(plan, path[m + 1], path[m + 2]);
    }
    j := PathGoesBack(plan, log, path[1..], k);
  }

  lemma {:induction false} NoStartOnCycle(plan: Services, log: seq<Delivery>, path: seq<Name>, i: nat)
    requires Ordered(plan, log) && DependencyPath(plan, path)
    requires |path| > 1 && path[0] == path[|path| - 1] && i < |log|
    ensures !StartOf(log[i], path[0])
    decreases i
  {
    hide DependencyPath, Ordered;
    if StartOf(log[i], path[0]) {
      var j := PathGoesBack(plan, log, path, i);
      NoStartOnCycle(plan, log, path, j);
    }
  }

  /**
    In every unattended run no service on a dependency cycle, and none that transitively depends on a missing or
    disabled service, is ever started.
    */
  lemma NeverStarted(plan: Services, steps: seq<Step>, path: seq<Name>)
    requires plan.Valid() && CanRun(Booted(plan), steps) && AllUnattended(steps)
    requires DependencyPath(plan, path)
    requires || path[|path| - 1] !in plan.vals || plan.vals[path[|path| - 1]].startup == Startup.Disabled
             || exists cycle :: DependencyPath(plan, cycle) && |cycle| > 1
                                && cycle[0] == cycle[|cycle| - 1] == path[|path| - 1]
    ensures !Started(After(Booted(plan), steps).log, path[0])
  {
    hide Booted, WellFormed, AllFollow, OnlyStartedMove, OutboxOrdered, PendingEnabled, DependsOn, After, CanRun;
    BootOrdered(plan);
    UnattendedRunKeepsOrder(Booted(plan), steps);
    var log := After(Booted(plan), steps).log;
    if Started(log, path[0]) {
      var i :| 0 <= i < |log| && StartOf(log[i], path[0]);
      var j := PathGoesBack(plan, log, path, i);
      assert StartableAfter(plan, log[..j], log[j].name);
      if cycle :| DependencyPath(plan, cycle) && |cycle| > 1 && cycle[0] == cycle[|cycle| - 1] == path[|path| - 1] {
        NoStartOnCycle(plan, log, cycle, j);
      }
    }
  }
}
