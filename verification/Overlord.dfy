/**
  The supervisor of all services: what it decides on a plan load, a reload and an actor's event
  (crates/vigild/src/overlord/lifecycle.rs and events.rs).

  Within one handler the supervisor consumes no events, so its snapshots stand still and the commands it is going
  to send are settled when the handler begins. The functions compute them; the class is the program's form.
  */
module Overlord {
  import opened Prelude
  import opened OrderedMaps
  import opened LayerMerge
  import opened ServiceActor

  type Name = string

  datatype Command = Start | Stop | Restart

  type Services = OrderedMap<Name, ServiceConfig>

  /** The last state the supervisor heard from each service it has an actor for. */
  type Snapshots = OrderedMap<Name, ServiceState>

  predicate RunningIn(snaps: Snapshots, name: Name) {
    name in snaps.vals && snaps.vals[name].IsRunning()
  }

  /** All ordering dependencies of `name` run: its `after` and `requires`, and whoever lists it in `before`. */
  predicate DepsRunning(plan: Services, snaps: Snapshots, name: Name) {
    name in plan.vals ==>
      && (forall d :: d in plan.vals[name].after + plan.vals[name].required ==> RunningIn(snaps, d))
      && (forall o :: o in plan.vals && o != name && name in plan.vals[o].before ==> RunningIn(snaps, o))
  }

  predicate IsEnabled(plan: Services, name: Name) {
    name in plan.vals && plan.vals[name].startup == Startup.Enabled
  }

  predicate ReadyToStart(plan: Services, snaps: Snapshots, name: Name) {
    IsEnabled(plan, name) && DepsRunning(plan, snaps, name)
  }

  predicate MustWait(plan: Services, snaps: Snapshots, name: Name) {
    IsEnabled(plan, name) && !DepsRunning(plan, snaps, name)
  }

  predicate Dependent(plan: Services, snaps: Snapshots, name: Name, on: Name) {
    name in plan.vals && on in plan.vals[name].required && RunningIn(snaps, name)
  }

  datatype State = State(plan: Services, snaps: Snapshots, pending: seq<Name>)

  type Commands = seq<(Name, Command)>

  /** The same command to each service the supervisor has an actor for; the others are only an error message. */
  function ToAll(snaps: Snapshots, names: seq<Name>, c: Command): (r: Commands)
    ensures forall m :: m in r <==> m.1 == c && m.0 in names && m.0 in snaps.vals
    ensures |r| <= |names|
  {
    if names == [] then []
    else
      var last := names[|names| - 1];
      assert names == names[..|names| - 1] + [last];
      ToAll(snaps, names[..|names| - 1], c) + if last in snaps.vals then [(last, c)] else []
  }

  function ReadyNow(s: State): seq<Name> {
    Filter(s.plan.keys, n => ReadyToStart(s.plan, s.snaps, n))
  }

  function WaitingNow(s: State): seq<Name> {
    Filter(s.plan.keys, n => MustWait(s.plan, s.snaps, n))
  }

  function ReadyPending(s: State): seq<Name> {
    Filter(s.pending, n => DepsRunning(s.plan, s.snaps, n))
  }

  function StillPending(s: State): seq<Name> {
    Filter(s.pending, n => !DepsRunning(s.plan, s.snaps, n))
  }

  function Dependents(s: State, on: Name): seq<Name> {
    Filter(s.plan.keys, n => Dependent(s.plan, s.snaps, n, on))
  }

  function Autostart(s: State): (State, Commands) {
    (s.(pending := AddAll(s.pending, WaitingNow(s))), ToAll(s.snaps, ReadyNow(s), Start))
  }

  function TryStartPending(s: State): (State, Commands) {
    (s.(pending := StillPending(s)), ToAll(s.snaps, ReadyPending(s), Start))
  }

  function StopDependents(s: State, on: Name): Commands {
    ToAll(s.snaps, Dependents(s, on), Stop)
  }

  function Hear(s: State, name: Name, newState: ServiceState): State {
    if name in s.snaps.vals then s.(snaps := s.snaps.Insert(name, newState)) else s
  }

  function OnStateChanged(s: State, name: Name, newState: ServiceState): (State, Commands) {
    var heard := Hear(s, name, newState);
    if newState.IsRunning() then TryStartPending(heard)
    else if newState in {Inactive, Error} then (heard, StopDependents(heard, name))
    else (heard, [])
  }

  function OnEvent(s: State, name: Name, e: Event): (State, Commands) {
    match e
    case StateChanged(newState) => OnStateChanged(s, name, newState)
    case ProcessExited(_) => (s, [])
    case DaemonShutdown(_) => (s, [])
  }

  /** New services get an actor and start out Inactive; services that left the plan are dropped. */
  function SyncActors(snaps: Snapshots, plan: Services): Snapshots {
    OrderedMap(Filter(AddAll(snaps.keys, plan.keys), n => n in plan.vals),
               map n | n in plan.vals :: if n in snaps.vals then snaps.vals[n] else Inactive)
  }

  function Reload(s: State, plan: Services): (State, Commands) {
    Autostart(State(plan, SyncActors(s.snaps, plan), []))
  }

  // ---------------------------------------------------------------------
  // The program's form
  // ---------------------------------------------------------------------

  lemma ToAllStep(snaps: Snapshots, names: seq<Name>, name: Name, c: Command)
    ensures ToAll(snaps, names + [name], c)
            == ToAll(snaps, names, c) + if name in snaps.vals then [(name, c)] else []
  {
    assert (names + [name])[..|names + [name]| - 1] == names;
  }

  lemma ToAllOfNothing(snaps: Snapshots, c: Command)
    ensures ToAll(snaps, [], c) == []
  {
  }

  /** Whom commands go to. */
  function Names(commands: Commands): seq<Name> {
    seq(|commands|, i requires 0 <= i < |commands| => commands[i].0)
  }

  lemma {:induction false} NamesOfToAll(snaps: Snapshots, names: seq<Name>, c: Command)
    requires forall n :: n in names ==> n in snaps.vals
    ensures Names(ToAll(snaps, names, c)) == names
    decreases |names|
  {
    hide ToAll;
    if names == [] {
      ToAllOfNothing(snaps, c);
    } else {
      var front, last := names[..|names| - 1], names[|names| - 1];
      assert names == front + [last];
      NamesOfToAll(snaps, front, c);
      ToAllStep(snaps, front, last, c);
    }
  }

  lemma RetainOthers(names: seq<Name>, gone: seq<Name>, name: Name)
    ensures Drop(Filter(names, n => n !in gone), name) == Filter(names, n => n !in gone + [name])
    decreases |names|
  {
    if names != [] {
      var front, last := names[..|names| - 1], names[|names| - 1];
      RetainOthers(front, gone, name);
      FilterStep(Filter(front, n => n !in gone), last, y => y != name);
    }
  }

  lemma OneMoreService(s: State, i: nat, isReady: Name -> bool, mustWait: Name -> bool)
    requires i < |s.plan.keys|
    ensures var front, name := s.plan.keys[..i], s.plan.keys[i];
            && ToAll(s.snaps, Filter(s.plan.keys[..i + 1], isReady), Start)
               == ToAll(s.snaps, Filter(front, isReady), Start)
                  + (if isReady(name) && name in s.snaps.vals then [(name, Start)] else [])
            && AddAll(s.pending, Filter(s.plan.keys[..i + 1], mustWait))
               == (if mustWait(name) then AddIfAbsent(AddAll(s.pending, Filter(front, mustWait)), name)
                   else AddAll(s.pending, Filter(front, mustWait)))
  {
    hide ToAll, Filter, AddAll;
    var front, name := s.plan.keys[..i], s.plan.keys[i];
    assert s.plan.keys[..i + 1] == front + [name];
    FilterStep(front, name, isReady);
    FilterStep(front, name, mustWait);
    ToAllStep(s.snaps, Filter(front, isReady), name, Start);
    AddAllStep(s.pending, Filter(front, mustWait), name);
  }

  class Supervisor {
    var plan: Services
    var services: Snapshots
    var pending: seq<Name>
    var sent: Commands

    function View(): State
      reads this
    {
      State(plan, services, pending)
    }

    constructor (plan: Services)
      requires plan.Valid()
      ensures View() == State(plan, EmptyMap(), [])
      ensures sent == []
    {
      this.plan, services, pending, sent := plan, EmptyMap(), [], [];
    }

    /** Sends a command to the actor of `name` and waits for its reply; without an actor there is only an error. */
    method SendCommand(name: Name, c: Command) returns (known: bool)
      modifies this`sent
      ensures known == (name in services.vals)
      ensures sent == old(sent) + if known then [(name, c)] else []
    {
      known := name in services.vals;
      if known {
        sent := sent + [(name, c)];
      }
    }

    method StartEnabled()
      modifies this`pending, this`sent
      ensures View() == Autostart(old(View())).0
      ensures sent == old(sent) + Autostart(old(View())).1
    {
      hide DepsRunning, ToAll, Filter, AddAll;
      ghost var s := View();
      ghost var isReady := n => ReadyToStart(s.plan, s.snaps, n);
      ghost var mustWait := n => MustWait(s.plan, s.snaps, n);
      StartedNothing(s, isReady, mustWait);
      for i := 0 to |plan.keys|
        invariant plan == s.plan && services == s.snaps
        invariant pending == AddAll(s.pending, Filter(plan.keys[..i], mustWait))
        invariant sent == old(sent) + ToAll(s.snaps, Filter(plan.keys[..i], isReady), Start)
      {
        var name := plan.keys[i];
        OneMoreService(s, i, isReady, mustWait);
        if IsEnabled(plan, name) {
          if DepsRunning(plan, services, name) {
            var _ := SendCommand(name, Start);
          } else if name !in pending {
            pending := pending + [name];
          }
        }
      }
      assert plan.keys[..|plan.keys|] == plan.keys;
    }

    method StartPending()
      modifies this`pending, this`sent
      ensures View() == TryStartPending(old(View())).0
      ensures sent == old(sent) + TryStartPending(old(View())).1
    {
      hide DepsRunning, ToAll, Filter, ReadyPending, StillPending;
      ghost var s := View();
      var ready := ReadyPending(View());
      FilterEverything(s.pending, n => n !in ready[..0]);
      StartedNone(s.snaps, ready, Start);
      for i := 0 to |ready|
        invariant plan == s.plan && services == s.snaps
        invariant pending == Filter(s.pending, n => n !in ready[..i])
        invariant sent == old(sent) + ToAll(s.snaps, ready[..i], Start)
      {
        var name := ready[i];
        assert ready[..i + 1] == ready[..i] + [name];
        RetainOthers(s.pending, ready[..i], name);
        ToAllStep(s.snaps, ready[..i], name, Start);
        pending := Drop(pending, name);
        var _ := SendCommand(name, Start);
      }
      assert ready[..|ready|] == ready;
      NotReadyStays(s);
    }

    /** Returns the exit code when a service's policy asks the daemon to stop. */
    method HandleServiceEvent(name: Name, e: Event) returns (exit: Option<int>)
      modifies this
      ensures View() == OnEvent(old(View()), name, e).0
      ensures sent == old(sent) + OnEvent(old(View()), name, e).1
      ensures exit == if e.DaemonShutdown? then Some(e.exitCode) else None
    {
      hide DepsRunning, ToAll, Filter, TryStartPending, StopDependents;
      exit := None;
      match e {
        case ProcessExited(_) =>
        case DaemonShutdown(code) =>
          exit := Some(code);
        case StateChanged(newState) =>
          if name in services.vals {
            services := services.Insert(name, newState);
          }
          if newState.IsRunning() && pending != [] {
            StartPending();
          } else if pending == [] {
            NothingPending(View());
          }
          if newState == Inactive || newState == Error {
            CascadeStop(name);
          }
      }
    }

    method CascadeStop(on: Name)
      modifies this`sent
      ensures sent == old(sent) + StopDependents(View(), on)
    {
      hide ToAll, Dependents;
      var dependents := Dependents(View(), on);
      StartedNone(services, dependents, Stop);
      for i := 0 to |dependents|
        invariant services == old(services)
        invariant sent == old(sent) + ToAll(services, dependents[..i], Stop)
      {
        assert dependents[..i + 1] == dependents[..i] + [dependents[i]];
        ToAllStep(services, dependents[..i], dependents[i], Stop);
        var _ := SendCommand(dependents[i], Stop);
      }
      assert dependents[..|dependents|] == dependents;
    }

    method ReloadLayers(newPlan: Services)
      requires newPlan.Valid() && services.Valid()
      modifies this
      ensures View() == Reload(old(View()), newPlan).0
      ensures sent == old(sent) + Reload(old(View()), newPlan).1
    {
      hide DepsRunning, ToAll, Autostart, AddAll, Filter;
      plan := newPlan;
      ghost var was := services;
      AddActors();
      pending := [];
      DropActors();
      SyncedInTwoPhases(was, newPlan);
      StartEnabled();
    }

    method AddActors()
      requires plan.Valid() && services.Valid()
      modifies this`services
      ensures services == WithNew(old(services), plan) && services.Valid()
    {
      hide AddAll;
      ghost var was := services;
      NoneAdded(was, plan);
      for i := 0 to |plan.keys|
        invariant services == WithNew(was, Front(plan, i))
      {
        var name := plan.keys[i];
        OneAdded(was, plan, i);
        if name !in services.vals {
          services := services.Insert(name, Inactive);
        }
      }
      FrontAll(plan);
      WithNewValid(was, plan);
    }

    method DropActors()
      requires services.Valid()
      modifies this`services
      ensures services == Only(old(services), plan)
    {
      hide Filter, Without, Only;
      ghost var was := services;
      var current := plan.vals;
      var removed := Filter(services.keys, n => n !in current);
      NoneDropped(was);
      assert removed[..0] == [];
      for i := 0 to |removed|
        invariant services == Without(was, removed[..i])
      {
        assert removed[..i + 1] == removed[..i] + [removed[i]];
        OneDropped(was, removed[..i], removed[i]);
        services := services.Remove(removed[i]);
      }
      assert removed[..|removed|] == removed;
      AllDropped(was, plan, removed);
    }
  }

  // ---------------------------------------------------------------------
  // Facts the loops need
  // ---------------------------------------------------------------------

  /** Every service of `plan` that has no entry yet gets one, as Inactive. */
  ghost function WithNew(snaps: Snapshots, plan: Services): Snapshots {
    OrderedMap(AddAll(snaps.keys, plan.keys),
               map n | n in snaps.vals.Keys + plan.vals.Keys :: if n in snaps.vals then snaps.vals[n] else Inactive)
  }

  ghost function Without(snaps: Snapshots, names: seq<Name>): Snapshots {
    OrderedMap(Filter(snaps.keys, n => n !in names), map n | n in snaps.vals && n !in names :: snaps.vals[n])
  }

  ghost function Only(snaps: Snapshots, plan: Services): Snapshots {
    OrderedMap(Filter(snaps.keys, n => n in plan.vals), map n | n in snaps.vals && n in plan.vals :: snaps.vals[n])
  }

  lemma WithNewValid(snaps: Snapshots, plan: Services)
    requires snaps.Valid() && plan.Valid()
    ensures WithNew(snaps, plan).Valid()
  {
    AddAllDistinct(snaps.keys, plan.keys);
  }

  /** Dropping the ready names one by one leaves those that still wait. */
  lemma NotReadyStays(s: State)
    ensures Filter(s.pending, n => n !in ReadyPending(s)) == StillPending(s)
  {
    FilterAgrees(s.pending, n => n !in ReadyPending(s), n => !DepsRunning(s.plan, s.snaps, n));
  }

  lemma NoneAdded(snaps: Snapshots, plan: Services)
    requires plan.Valid()
    ensures WithNew(snaps, Front(plan, 0)) == snaps
  {
    AddAllNothing(snaps.keys);
    assert WithNew(snaps, Front(plan, 0)).vals == snaps.vals;
  }

  lemma OneAdded(snaps: Snapshots, plan: Services, n: nat)
    requires plan.Valid() && snaps.Valid() && n < |plan.keys|
    ensures var before := WithNew(snaps, Front(plan, n));
            WithNew(snaps, Front(plan, n + 1))
            == if plan.keys[n] in before.vals then before else before.Insert(plan.keys[n], Inactive)
  {
    hide AddAll, Front;
    FrontStep(plan, n);
    FrontKeys(plan, n);
    AddAllStep(snaps.keys, Front(plan, n).keys, plan.keys[n]);
    OneAddedValues(snaps, Front(plan, n), Front(plan, n + 1), plan.keys[n]);
  }

  lemma OneAddedValues(snaps: Snapshots, front: Services, next: Services, k: Name)
    requires next.vals.Keys == front.vals.Keys + {k}
    ensures var before := WithNew(snaps, front).vals;
            WithNew(snaps, next).vals == if k in before then before else before[k := Inactive]
  {
    hide AddAll;
  }

  lemma FrontKeys(plan: Services, n: nat)
    requires plan.Valid() && n <= |plan.keys|
    ensures forall k :: k in Front(plan, n).keys <==> k in Front(plan, n).vals
  {
  }

  lemma NoneDropped(snaps: Snapshots)
    ensures Without(snaps, []) == snaps
  {
    FilterEverything(snaps.keys, n => n !in []);
    assert Without(snaps, []).vals == snaps.vals;
  }

  lemma OneDropped(snaps: Snapshots, names: seq<Name>, name: Name)
    ensures Without(snaps, names).Remove(name) == Without(snaps, names + [name])
  {
    hide Filter;
    RetainOthers(snaps.keys, names, name);
    assert Without(snaps, names).Remove(name).vals == Without(snaps, names + [name]).vals;
  }

  lemma AllDropped(snaps: Snapshots, plan: Services, removed: seq<Name>)
    requires snaps.Valid()
    requires removed == Filter(snaps.keys, n => n !in plan.vals)
    ensures Without(snaps, removed) == Only(snaps, plan)
  {
    FilterAgrees(snaps.keys, n => n !in removed, n => n in plan.vals);
    assert Without(snaps, removed).vals == Only(snaps, plan).vals;
  }

  lemma SyncedInTwoPhases(snaps: Snapshots, plan: Services)
    ensures Only(WithNew(snaps, plan), plan) == SyncActors(snaps, plan)
  {
    hide AddAll, Filter;
    assert Only(WithNew(snaps, plan), plan).vals == SyncActors(snaps, plan).vals;
  }

  lemma StartedNone(snaps: Snapshots, names: seq<Name>, c: Command)
    ensures ToAll(snaps, names[..0], c) == []
  {
  }

  lemma StartedNothing(s: State, p: Name -> bool, q: Name -> bool)
    ensures ToAll(s.snaps, Filter(s.plan.keys[..0], p), Start) == []
    ensures AddAll(s.pending, Filter(s.plan.keys[..0], q)) == s.pending
  {
  }

  lemma NothingPending(s: State)
    requires s.pending == []
    ensures TryStartPending(s) == (s, [])
  {
    hide DepsRunning;
  }
}
