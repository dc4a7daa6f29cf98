/**
  Which falls can be brought to rest: the services that run decide, through the orders in which a cascade can take them
  down, whether the event queue has room for every round of Stops.
  */
module CascadeOrder {
  import opened Prelude
  import opened ServiceActor
  import opened ActorRuns
  import opened ActorHistory
  import opened Overlord
  import opened Supervision
  import opened SnapshotTracking
  import opened QueueBound
  import opened RequiresCascade
  import opened CascadeOutcome
  import opened CascadeCompletion
  import opened CascadeStart
  import opened CascadeRoom

  // ---------------------------------------------------------------------
  // The condition
  // ---------------------------------------------------------------------

  /** The services that are up and require the fallen `n`. */
  function Hit(plan: Services, up: set<Name>, n: Name): set<Name> {
    set m | m in up && Requires(plan, m, n)
  }

  /**
    The services that are falling can be heard of in some order, each followed by those it takes down, such that no
    one of them takes down more than 256 at once of those that still run by then.
    */
  ghost predicate FallsInTurn(plan: Services, up: set<Name>, falling: set<Name>)
    decreases |up| + |falling|
  {
    falling == {} ||
    exists n | n in falling ::
      TurnShrinks(plan, up, falling, n);
      var hit := Hit(plan, up, n);
      |hit| <= QUEUE_CAPACITY && FallsInTurn(plan, up - hit, falling - {n} + hit)
  }

  lemma TurnShrinks(plan: Services, up: set<Name>, falling: set<Name>, n: Name)
    requires n in falling
    ensures var hit := Hit(plan, up, n); |up - hit| + |falling - {n} + hit| < |up| + |falling|
  {
    var hit := Hit(plan, up, n);
    assert up == (up - hit) + hit;
    assert falling == (falling - {n}) + {n};
  }

  lemma FewerInSubset<T>(a: set<T>, b: set<T>)
    requires a <= b
    ensures |a| <= |b|
  {
    assert b == a + (b - a);
  }

  /** Where at most 256 services that are up require any one service, every order will do. */
  lemma {:induction false} NarrowFalls(plan: Services, up: set<Name>, falling: set<Name>)
    requires forall n :: |Hit(plan, up, n)| <= QUEUE_CAPACITY
    ensures FallsInTurn(plan, up, falling)
    decreases |up| + |falling|
  {
    if falling != {} {
      var n :| n in falling;
      TurnShrinks(plan, up, falling, n);
      var hit := Hit(plan, up, n);
      forall m ensures |Hit(plan, up - hit, m)| <= QUEUE_CAPACITY {
        FewerInSubset(Hit(plan, up - hit, m), Hit(plan, up, m));
      }
      NarrowFalls(plan, up - hit, falling - {n} + hit);
    }
  }

  /** Running, and not about to be sent a Stop. */
  function UpNow(s: System): set<Name> {
    set n | n in s.actors && s.actors[n].state == Active && (n, Stop) !in s.outbox
  }

  /** Fallen, stopping or about to be sent a Stop, the supervisor not having heard the end of it. */
  function FallingNow(s: System): set<Name> {
    set n | n in s.actors && n !in UpNow(s) && s.actors[n].state != ServiceState.Backoff
            && n in s.boss.snaps.vals && !Terminal(s.boss.snaps.vals[n])
  }

  ghost predicate CanFall(s: System) {
    FallsInTurn(s.boss.plan, UpNow(s), FallingNow(s))
  }

  // ---------------------------------------------------------------------
  // What is yet to be heard of one actor
  // ---------------------------------------------------------------------

  predicate EndOf(e: Event) {
    e.StateChanged? && Terminal(e.newState)
  }

  /** The end of a service is the last thing to be heard of it, and has not been heard as long as anything is left. */
  ghost predicate EndsOnce(s: System, n: Name)
    requires WellFormed(s) && n in s.actors
  {
    && (s.heard[n] < |s.actors[n].events| ==> !Terminal(s.boss.snaps.vals[n]))
    && (forall i :: s.heard[n] <= i < |s.actors[n].events| - 1 ==> !EndOf(s.actors[n].events[i]))
  }

  ghost predicate AllEndOnce(s: System)
    requires WellFormed(s)
  {
    forall n :: n in s.actors ==> EndsOnce(s, n)
  }

  /** A cascade under way, with every service ending once. */
  ghost predicate Ordered(s0: System, roots: set<Name>, s: System) {
    && Falling(s0, roots) && Cascading(s0, roots, s) && AllEndOnce(s) && |s.queue| <= QUEUE_CAPACITY
  }

  lemma LastTells(events: seq<Event>)
    requires events != [] && !Terminal(StateAfter(events))
    ensures !EndOf(events[|events| - 1])
  {
  }

  // ---------------------------------------------------------------------
  // Each step keeps it
  // ---------------------------------------------------------------------

  lemma OrderedParts(s0: System, roots: set<Name>, s: System)
    requires Ordered(s0, roots, s)
    ensures WellFormed(s) && s.actors.Keys == s.heard.Keys == s.flushed.Keys == s.boss.snaps.vals.Keys
    ensures s.boss.plan == s0.boss.plan
    ensures forall n :: n in s.actors ==> EndsOnce(s, n) && s.heard[n] <= s.flushed[n] <= |s.actors[n].events|
    ensures forall m :: m in s.outbox ==> m.1 == Stop && m.0 in s.actors
  {
    hide Falling, WellFormed, NotRetired, Project, ActorsWind, DependentsToldToStop, EndsOnce, Reached;
    Domains(s);
    forall n | n in s.actors ensures s.heard[n] <= s.flushed[n] {
      assert Follows(s, n);
    }
  }

  /** The event at the head of the queue is the next one to be heard of its service. */
  lemma HeadEndsOnce(s0: System, roots: set<Name>, s: System)
    requires Ordered(s0, roots, s) && s.queue != []
    ensures var (n, e) := s.queue[0];
            && n in s.actors && n in s.heard && s.heard[n] < |s.actors[n].events| && s.actors[n].events[s.heard[n]] == e
            && Down(e) && n in FallingNow(s)
            && s.actors[n].state !in {Active, ServiceState.Backoff}
  {
    hide Falling, WellFormed, AllFollow, Cascading, Reached, Orderly, Project, NotRetired, StateAfter;
    OrderedParts(s0, roots, s);
    HeadIsDown(s0, roots, s);
    HeadIsNext(s0, roots, s);
    ReachedIsCalm(s0, roots, s, s.queue[0].0);
  }

  lemma HeadIsNext(s0: System, roots: set<Name>, s: System)
    requires Ordered(s0, roots, s) && s.queue != [] && s.queue[0].0 in s.actors
    ensures var (n, e) := s.queue[0];
            n in s.heard && s.heard[n] < |s.actors[n].events| && s.actors[n].events[s.heard[n]] == e
  {
    hide Falling, WellFormed, NotRetired, ActorsWind, StopsReached, DependentsToldToStop, AllEndOnce, StateAfter;
    Domains(s);
    var (n, e) := s.queue[0];
    assert Follows(s, n);
    ProjectTail(s.queue, n);
  }

  lemma ConsumeEndsOnce(s0: System, roots: set<Name>, s: System)
    requires Ordered(s0, roots, s) && CanStep(s, Consume) && WellFormed(AfterConsume(s))
    ensures AllEndOnce(AfterConsume(s))
  {
    hide Falling, WellFormed, Cascading, OnEvent;
    OrderedParts(s0, roots, s);
    HeadEndsOnce(s0, roots, s);
    var t := AfterConsume(s);
    Domains(t);
    var (name, e) := s.queue[0];
    forall n | n in t.actors ensures EndsOnce(t, n) {
      assert EndsOnce(s, n);
      HeardState(s.boss, name, e, n);
    }
  }

  lemma DeliverEndsOnce(s0: System, roots: set<Name>, s: System, ok: bool)
    requires Ordered(s0, roots, s) && CanStep(s, Deliver(ok)) && WellFormed(AfterDeliver(s, ok))
    ensures AllEndOnce(AfterDeliver(s, ok))
  {
    hide Falling, WellFormed, Cascading, HandleStop, ServiceActor.Step, Calm;
    OrderedParts(s0, roots, s);
    DeliveredStop(s0, roots, s, ok);
    DeliverKeepsBoss(s, ok);
    var t := AfterDeliver(s, ok);
    var name := s.outbox[0].0;
    StopWinds(s.actors[name]);
    if s.actors[name].state == Active {
      StillActive(s0, roots, s, name);
    }
    forall n | n in t.actors ensures EndsOnce(t, n) {
      assert EndsOnce(s, n);
    }
  }

  lemma InternalEndsOnce(s0: System, roots: set<Name>, s: System, name: Name, i: Input)
    requires Ordered(s0, roots, s) && CanStep(s, Internal(name, i)) && CascadeStep(s, Internal(name, i))
    requires WellFormed(TakeStep(s, Internal(name, i)))
    ensures AllEndOnce(TakeStep(s, Internal(name, i)))
  {
    hide Falling, WellFormed, Cascading, ServiceActor.Step, CanHappen;
    OrderedParts(s0, roots, s);
    InternalWound(s0, roots, s, name, i);
    var t := TakeStep(s, Internal(name, i));
    forall n | n in t.actors ensures EndsOnce(t, n) {
      assert EndsOnce(s, n);
      if n == name {
        StoppingEndsOnce(s0, roots, s, name);
      }
    }
  }

  /** A stopping service has not ended yet, and is known not to have. */
  lemma StoppingEndsOnce(s0: System, roots: set<Name>, s: System, name: Name)
    requires Ordered(s0, roots, s) && name in s.actors && s.actors[name].state == Stopping
    ensures name in s.heard && name in s.boss.snaps.vals && !Terminal(s.boss.snaps.vals[name])
    ensures var events := s.actors[name].events;
            s.heard[name] < |events| ==> !EndOf(events[|events| - 1])
  {
    hide Falling, WellFormed, ActorsWind, StopsReached, DependentsToldToStop, Project, NotRetired, StateAfter;
    OrderedParts(s0, roots, s);
    assert Follows(s, name) && EndsOnce(s, name);
    FollowsMeans(s, name);
    var events := s.actors[name].events;
    if s.heard[name] == |events| {
      assert events[..s.heard[name]] == events;
    } else {
      LastTells(events);
    }
  }

  lemma SameEndsOnce(s: System, t: System)
    requires WellFormed(s) && WellFormed(t) && AllEndOnce(s)
    requires t.actors == s.actors && t.heard == s.heard && t.boss == s.boss
    ensures AllEndOnce(t)
  {
    hide WellFormed;
    assert forall n :: n in t.actors ==> EndsOnce(s, n) && EndsOnce(t, n);
  }

  lemma StepKeepsOrdered(s0: System, roots: set<Name>, s: System, step: Step)
    requires Ordered(s0, roots, s) && CanStep(s, step) && CascadeStep(s, step)
    ensures Ordered(s0, roots, TakeStep(s, step))
  {
    hide Falling, WellFormed, Cascading, AllEndOnce, AfterConsume, AfterDeliver, ServiceActor.Step, CanHappen;
    OrderedWell(s0, roots, s);
    StepKeepsCascading(s0, roots, s, step);
    StepKeepsWellFormed(s, step);
    QueueStaysBounded(s, step);
    match step
    case Consume => ConsumeEndsOnce(s0, roots, s);
    case Deliver(ok) => DeliverEndsOnce(s0, roots, s, ok);
    case Internal(n, i) => InternalEndsOnce(s0, roots, s, n, i);
    case Flush(_) => SameEndsOnce(s, TakeStep(s, step));
    case Reply => SameEndsOnce(s, TakeStep(s, step));
  }

  lemma OrderedWell(s0: System, roots: set<Name>, s: System)
    requires Ordered(s0, roots, s)
    ensures WellFormed(s)
  {
  }

  // ---------------------------------------------------------------------
  // Who is up and who is falling
  // ---------------------------------------------------------------------

  predicate HearsAnEnd(s: System, step: Step) {
    step.Consume? && s.queue != [] && EndOf(s.queue[0].1)
  }

  lemma QuietConsume(s0: System, roots: set<Name>, s: System)
    requires Ordered(s0, roots, s) && CanStep(s, Consume) && !EndOf(s.queue[0].1)
    ensures UpNow(AfterConsume(s)) == UpNow(s) && FallingNow(AfterConsume(s)) == FallingNow(s)
    ensures AfterConsume(s).outbox == []
  {
    hide Ordered, WellFormed, OnEvent, ToAll, StopDependents;
    OrderedParts(s0, roots, s);
    HeadEndsOnce(s0, roots, s);
    var (name, e) := s.queue[0];
    DownEventOnlyStops(s.boss, name, e);
    var t := AfterConsume(s);
    forall n | n in s.actors ensures n in FallingNow(t) <==> n in FallingNow(s) {
      HeardState(s.boss, name, e, n);
    }
  }

  lemma OneStops(s: System, t: System, name: Name)
    requires s.outbox == [(name, Stop)] + t.outbox && t.boss == s.boss && name in s.actors && name in t.actors
    requires t.actors == s.actors[name := t.actors[name]] && s.actors[name].state != ServiceState.Backoff
    requires t.actors[name].state == if s.actors[name].state == Active then Stopping else s.actors[name].state
    ensures UpNow(t) == UpNow(s) && FallingNow(t) == FallingNow(s)
  {
    hide Terminal;
    assert forall n :: n in s.actors ==> (n in UpNow(t) <==> n in UpNow(s));
    assert UpNow(t) == UpNow(s);
  }

  lemma DeliverKeepsFalling(s0: System, roots: set<Name>, s: System, ok: bool)
    requires Ordered(s0, roots, s) && CanStep(s, Deliver(ok))
    ensures UpNow(AfterDeliver(s, ok)) == UpNow(s) && FallingNow(AfterDeliver(s, ok)) == FallingNow(s)
  {
    hide Falling, WellFormed, Cascading, HandleStop, ServiceActor.Step, Orderly, AllEndOnce, UpNow, FallingNow;
    DeliveredStop(s0, roots, s, ok);
    DeliverKeepsBoss(s, ok);
    StopWinds(s.actors[s.outbox[0].0]);
    OneStops(s, AfterDeliver(s, ok), s.outbox[0].0);
  }

  lemma InternalKeepsFalling(s0: System, roots: set<Name>, s: System, name: Name, i: Input)
    requires Ordered(s0, roots, s) && CanStep(s, Internal(name, i)) && CascadeStep(s, Internal(name, i))
    ensures var t := TakeStep(s, Internal(name, i)); UpNow(t) == UpNow(s) && FallingNow(t) == FallingNow(s)
  {
    hide Falling, WellFormed, Cascading, ServiceActor.Step, CanHappen, Clean;
    InternalWound(s0, roots, s, name, i);
    assert UpNow(TakeStep(s, Internal(name, i))) == UpNow(s);
  }

  /** Only hearing of an end changes who is up and who is falling. */
  lemma QuietStepKeepsFalling(s0: System, roots: set<Name>, s: System, step: Step)
    requires Ordered(s0, roots, s) && CanStep(s, step) && CascadeStep(s, step) && !HearsAnEnd(s, step)
    ensures UpNow(TakeStep(s, step)) == UpNow(s) && FallingNow(TakeStep(s, step)) == FallingNow(s)
  {
    hide Ordered, AfterConsume, AfterDeliver, ServiceActor.Step, CanHappen;
    match step
    case Consume => QuietConsume(s0, roots, s);
    case Deliver(ok) => DeliverKeepsFalling(s0, roots, s, ok);
    case Internal(n, i) => InternalKeepsFalling(s0, roots, s, n, i);
    case Flush(_) =>
    case Reply =>
  }

  /** Running services a Stop is on its way to. */
  function ToStop(s: System): set<Name> {
    set n | n in s.actors && s.actors[n].state == Active && (n, Stop) in s.outbox
  }

  lemma EndMoves(s: System, t: System, name: Name)
    requires s.outbox == [] && t.actors == s.actors && name in FallingNow(s)
    requires s.boss.snaps.vals.Keys == t.boss.snaps.vals.Keys == s.actors.Keys
    requires forall n :: n in s.actors && s.actors[n].state == Active ==>
               && ((n, Stop) in t.outbox <==> Requires(s.boss.plan, n, name))
               && !Terminal(t.boss.snaps.vals[n])
    requires forall n :: n in s.actors && n != name ==> t.boss.snaps.vals[n] == s.boss.snaps.vals[n]
    requires Terminal(t.boss.snaps.vals[name])
    ensures var hit := Hit(s.boss.plan, UpNow(s), name);
            UpNow(t) == UpNow(s) - hit && FallingNow(t) == FallingNow(s) - {name} + hit && ToStop(t) == hit
  {
    hide Terminal, Requires;
  }

  /** Hearing of an end takes down those that are up and require the service, and nobody else. */
  lemma EndIsHeard(s0: System, roots: set<Name>, s: System)
    requires Ordered(s0, roots, s) && CanStep(s, Consume) && EndOf(s.queue[0].1)
    ensures var n := s.queue[0].0;
            var hit := Hit(s.boss.plan, UpNow(s), n);
            && n in FallingNow(s)
            && UpNow(AfterConsume(s)) == UpNow(s) - hit && FallingNow(AfterConsume(s)) == FallingNow(s) - {n} + hit
            && ToStop(AfterConsume(s)) == hit && AfterConsume(s).boss.plan == s.boss.plan
  {
    hide WellFormed, OnEvent, ToAll, StopDependents, Falling, Cascading, AllEndOnce, UpNow, FallingNow, ToStop,
         Requires;
    OrderedParts(s0, roots, s);
    HeadEndsOnce(s0, roots, s);
    PlanValid(s);
    var (name, e) := s.queue[0];
    DownEventOnlyStops(s.boss, name, e);
    var t := AfterConsume(s);
    StopsOfDependents(t.boss, name);
    forall n | n in s.actors && s.actors[n].state == Active
      ensures (n, Stop) in t.outbox <==> Requires(s.boss.plan, n, name)
      ensures !Terminal(t.boss.snaps.vals[n])
    {
      StillActive(s0, roots, s, n);
      HeardState(s.boss, name, e, n);
    }
    EndMoves(s, t, name);
  }

  // ---------------------------------------------------------------------
  // What coming to rest needs
  // ---------------------------------------------------------------------

  /** Places in the queue the round under way will have taken when it is over. */
  ghost function RoomTaken(s: System): nat {
    |s.queue| + Backlog(s) + |ToStop(s)|
  }

  lemma StopTakesRoom(s: System, t: System, name: Name)
    requires s.outbox == [(name, Stop)] + t.outbox && name in s.actors && name in t.actors
    requires t.actors == s.actors[name := t.actors[name]]
    requires t.actors[name].state == if s.actors[name].state == Active then Stopping else s.actors[name].state
    ensures ToStop(s) == ToStop(t) + if s.actors[name].state == Active then {name} else {}
    ensures |ToStop(s)| == |ToStop(t)| + if s.actors[name].state == Active then 1 else 0
  {
    assert s.actors[name].state == Active ==> ToStop(s) - {name} == ToStop(t);
  }

  lemma DeliverTakesRoom(s0: System, roots: set<Name>, s: System, ok: bool)
    requires Ordered(s0, roots, s) && CanStep(s, Deliver(ok))
    ensures RoomTaken(AfterDeliver(s, ok)) == RoomTaken(s)
  {
    hide Falling, WellFormed, Cascading, HandleStop, Orderly, AllEndOnce, ToStop, CanHappen;
    DeliveredStop(s0, roots, s, ok);
    var name := s.outbox[0].0;
    StopWinds(s.actors[name]);
    StopTakesRoom(s, AfterDeliver(s, ok), name);
  }

  lemma OnlyHearingMakesRoom(s0: System, roots: set<Name>, s: System, step: Step)
    requires Ordered(s0, roots, s) && CanStep(s, step) && CascadeStep(s, step) && !step.Consume?
    ensures RoomTaken(s) <= RoomTaken(TakeStep(s, step))
  {
    hide Falling, WellFormed, Cascading, Orderly, AllEndOnce, CanHappen, ServiceActor.Step, AfterDeliver;
    match step
    case Deliver(ok) => DeliverTakesRoom(s0, roots, s, ok);
    case Internal(n, i) =>
      InternalWound(s0, roots, s, n, i);
      assert ToStop(TakeStep(s, step)) == ToStop(s);
    case Flush(_) => assert ToStop(TakeStep(s, step)) == ToStop(s);
    case Reply => assert ToStop(TakeStep(s, step)) == ToStop(s);
  }

  lemma RestNeedsNothing(s0: System, roots: set<Name>, s: System)
    requires Ordered(s0, roots, s) && AtRest(s)
    ensures RoomTaken(s) == 0 && FallingNow(s) == {}
  {
    hide Falling, WellFormed, Cascading, AllEndOnce, Clean;
    forall n | n in s.actors ensures n !in FallingNow(s) {
      StaysOrderly(s0, roots, s, n);
      RestingSnapshot(s0, roots, s, n);
    }
  }

  /** Whatever the schedule. */
  lemma {:induction false} RestNeedsTurns(s0: System, roots: set<Name>, s: System, steps: seq<Step>)
    requires Ordered(s0, roots, s) && CanCascade(s, steps) && AtRest(AfterCascade(s, steps))
    ensures RoomTaken(s) <= QUEUE_CAPACITY && CanFall(s)
    decreases |steps|
  {
    hide Ordered, AtRest, CanStep, TakeStep, CascadeStep, RoomTaken, UpNow, FallingNow, Hit;
    if steps == [] {
      RestNeedsNothing(s0, roots, s);
    } else {
      StepKeepsOrdered(s0, roots, s, steps[0]);
      RestNeedsTurns(s0, roots, TakeStep(s, steps[0]), steps[1..]);
      StepBackwards(s0, roots, s, steps[0]);
    }
  }

  lemma StepBackwards(s0: System, roots: set<Name>, s: System, step: Step)
    requires Ordered(s0, roots, s) && CanStep(s, step) && CascadeStep(s, step)
    requires RoomTaken(TakeStep(s, step)) <= QUEUE_CAPACITY && CanFall(TakeStep(s, step))
    ensures RoomTaken(s) <= QUEUE_CAPACITY && CanFall(s)
  {
    hide Ordered, CascadeStep, UpNow, FallingNow, Hit, AfterConsume;
    SamePlan(s0, roots, s, step);
    if !step.Consume? {
      OnlyHearingMakesRoom(s0, roots, s, step);
    } else {
      HearingFromHead(s0, roots, s);
    }
    if HearsAnEnd(s, step) {
      EndIsHeard(s0, roots, s);
    } else {
      QuietStepKeepsFalling(s0, roots, s, step);
    }
  }

  lemma SamePlan(s0: System, roots: set<Name>, s: System, step: Step)
    requires Ordered(s0, roots, s) && CanStep(s, step) && CascadeStep(s, step)
    ensures TakeStep(s, step).boss.plan == s.boss.plan
  {
    hide Ordered, CanStep, TakeStep, CascadeStep;
    StepKeepsOrdered(s0, roots, s, step);
    OrderedParts(s0, roots, s);
    OrderedParts(s0, roots, TakeStep(s, step));
  }

  lemma HearingFromHead(s0: System, roots: set<Name>, s: System)
    requires Ordered(s0, roots, s) && CanStep(s, Consume)
    ensures RoomTaken(s) == |s.queue| <= QUEUE_CAPACITY
    ensures |ToStop(AfterConsume(s))| <= RoomTaken(AfterConsume(s))
  {
    hide Falling, WellFormed, Cascading, AllEndOnce, OnEvent;
    assert ToStop(s) == {};
  }

  // ---------------------------------------------------------------------
  // A way to rest
  // ---------------------------------------------------------------------

  /** It may be the next to be heard of. */
  ghost predicate TurnOf(s: System, n: Name) {
    var hit := Hit(s.boss.plan, UpNow(s), n);
    && n in FallingNow(s) && |hit| <= QUEUE_CAPACITY
    && FallsInTurn(s.boss.plan, UpNow(s) - hit, FallingNow(s) - {n} + hit)
  }

  lemma NextTurn(s: System) returns (n: Name)
    requires CanFall(s) && FallingNow(s) != {}
    ensures TurnOf(s, n)
  {
    hide UpNow, FallingNow, Hit;
    var plan, up, falling := s.boss.plan, UpNow(s), FallingNow(s);
    n :| n in falling && |Hit(plan, up, n)| <= QUEUE_CAPACITY
         && FallsInTurn(plan, up - Hit(plan, up, n), falling - {n} + Hit(plan, up, n));
  }

  /** A round of Stops is being sent or its events are being heard, and no process exits meanwhile. */
  ghost predicate Rounding(s: System)
    requires WellFormed(s)
  {
    && CanFall(s) && RoomTaken(s) <= QUEUE_CAPACITY && OthersIdle(s)
    && forall n :: n in s.actors ==> NoEndUnheard(s, n)
  }

  ghost predicate NoEndUnheard(s: System, n: Name)
    requires WellFormed(s) && n in s.actors
  {
    forall i :: s.heard[n] <= i < |s.actors[n].events| ==> !EndOf(s.actors[n].events[i])
  }

  /** `n` has ended and is next to be heard of, up to its end; nothing else is under way. */
  ghost predicate Ending(s: System, n: Name)
    requires WellFormed(s)
  {
    && n in s.actors && AtLoopHead(s) && |s.queue| <= 1 && TurnOf(s, n)
    && (forall m :: m in s.actors && m != n ==> s.heard[m] == s.flushed[m] == |s.actors[m].events|)
    && s.heard[n] < |s.actors[n].events| && EndOf(s.actors[n].events[|s.actors[n].events| - 1])
  }

  lemma SameTurn(s: System, t: System, n: Name)
    requires UpNow(t) == UpNow(s) && FallingNow(t) == FallingNow(s) && t.boss.plan == s.boss.plan
    ensures TurnOf(t, n) == TurnOf(s, n) && CanFall(t) == CanFall(s)
  {
    hide UpNow, FallingNow, Hit, FallsInTurn;
  }

  lemma EndingSays(s: System, n: Name)
    requires WellFormed(s) && Ending(s, n)
    ensures n in s.actors && n in s.heard && AtLoopHead(s) && TurnOf(s, n) && s.heard[n] < |s.actors[n].events|
  {
    hide WellFormed, TurnOf, EndOf;
    Domains(s);
  }

  /** The queue may fill with one event of `n`, and one event of `n` may be heard. */
  lemma EndingCarries(s: System, t: System, n: Name)
    requires WellFormed(s) && WellFormed(t) && Ending(s, n) && AtLoopHead(t) && |t.queue| <= 1 && TurnOf(t, n)
    requires t.actors == s.actors && n in s.flushed && n in s.heard && n in t.heard && n in t.flushed && n in s.actors
    requires t.heard == s.heard[n := t.heard[n]] && t.flushed == s.flushed[n := t.flushed[n]]
    requires t.heard[n] < |s.actors[n].events|
    ensures Ending(t, n)
  {
    hide WellFormed, TurnOf, EndOf;
  }

  lemma EndingFlushes(s0: System, roots: set<Name>, s: System, n: Name)
    requires Ordered(s0, roots, s) && Ending(s, n) && s.queue == []
    ensures CanStep(s, Flush(n)) && CascadeStep(s, Flush(n))
    ensures WellFormed(TakeStep(s, Flush(n))) && Ending(TakeStep(s, Flush(n)), n)
  {
    hide Ordered, WellFormed, UpNow, FallingNow, TurnOf, EndOf, AfterConsume, AfterDeliver, AfterLoad, CanHappen,
         ServiceActor.Step, Ending;
    OrderedWell(s0, roots, s);
    EndingSays(s, n);
    QueueHoldsUnheard(s0, roots, s, n);
    StepKeepsWellFormed(s, Flush(n));
    QuietStepKeepsFalling(s0, roots, s, Flush(n));
    SameTurn(s, TakeStep(s, Flush(n)), n);
    EndingCarries(s, TakeStep(s, Flush(n)), n);
  }

  /** With an empty queue, what is unheard is unsent. */
  lemma QueueHoldsUnheard(s0: System, roots: set<Name>, s: System, n: Name)
    requires Ordered(s0, roots, s) && n in s.actors && s.queue == []
    ensures n in s.heard && n in s.flushed && s.heard[n] == s.flushed[n]
  {
    hide Falling, WellFormed, NotRetired, ActorsWind, StopsReached, DependentsToldToStop, AllEndOnce, StateAfter;
    Domains(s);
    assert Follows(s, n) && Project(s.queue, n) == [];
  }

  lemma EndComesLast(s0: System, roots: set<Name>, s: System)
    requires Ordered(s0, roots, s) && s.queue != []
    ensures var (n, e) := s.queue[0];
            && n in s.actors && n in s.heard && s.heard[n] < |s.actors[n].events|
            && s.actors[n].events[s.heard[n]] == e && !e.DaemonShutdown?
            && (EndOf(e) ==> s.heard[n] + 1 == |s.actors[n].events|)
  {
    hide Ordered, WellFormed, FallingNow, EndOf;
    HeadEndsOnce(s0, roots, s);
    OrderedParts(s0, roots, s);
    assert EndsOnce(s, s.queue[0].0);
  }

  /** Consuming moves one actor's count of heard events by one. */
  lemma EndingHears(s0: System, roots: set<Name>, s: System, n: Name)
    requires Ordered(s0, roots, s) && Ending(s, n) && s.queue != []
    ensures CanStep(s, Consume) && s.queue[0].0 == n && s.queue == [s.queue[0]]
    ensures var t := AfterConsume(s);
            && WellFormed(t) && t.heard == s.heard[n := s.heard[n] + 1] && t.actors == s.actors
            && t.flushed == s.flushed && t.awaiting == s.awaiting && t.queue == [] && !t.halted
    ensures EndOf(s.queue[0].1) <==> s.heard[n] + 1 == |s.actors[n].events|
  {
    hide Ordered, WellFormed, OnEvent, TurnOf, EndOf;
    EndComesLast(s0, roots, s);
    OrderedWell(s0, roots, s);
    assert CanStep(s, Consume);
    StepKeepsWellFormed(s, Consume);
  }

  lemma EndingStays(s0: System, roots: set<Name>, s: System, n: Name)
    requires Ordered(s0, roots, s) && Ending(s, n) && s.queue != [] && !EndOf(s.queue[0].1)
    ensures CanStep(s, Consume) && WellFormed(AfterConsume(s)) && Ending(AfterConsume(s), n)
  {
    hide Ordered, WellFormed, UpNow, FallingNow, TurnOf, AfterConsume, AfterDeliver, AfterLoad, CanHappen,
         ServiceActor.Step, EndOf;
    OrderedWell(s0, roots, s);
    EndingHears(s0, roots, s, n);
    assert s.heard[n] + 1 < |s.actors[n].events|;
    SamePlan(s0, roots, s, Consume);
    QuietConsume(s0, roots, s);
    SameTurn(s, AfterConsume(s), n);
    EndingCarries(s, AfterConsume(s), n);
  }

  lemma EndingEnds(s0: System, roots: set<Name>, s: System, n: Name)
    requires Ordered(s0, roots, s) && Ending(s, n) && s.queue != [] && EndOf(s.queue[0].1)
    ensures CanStep(s, Consume) && WellFormed(AfterConsume(s)) && Rounding(AfterConsume(s))
  {
    hide Ordered, WellFormed, UpNow, FallingNow, Hit, OnEvent, EndOf, ToStop, FallsInTurn, EndsOnce;
    EndingHears(s0, roots, s, n);
    StepKeepsOrdered(s0, roots, s, Consume);
    var t := AfterConsume(s);
    OrderedParts(s0, roots, t);
    EndIsHeard(s0, roots, s);
    assert CanFall(t);
    assert RoomTaken(t) == |ToStop(t)|;
    forall m | m in t.actors ensures t.heard[m] == t.flushed[m] == |t.actors[m].events| {
    }
  }

  lemma RoundTakesRoom(s0: System, roots: set<Name>, s: System)
    requires Ordered(s0, roots, s) && Rounding(s) && CanStep(s, NextRoundStep(s, true)) && !RoundOver(s)
    ensures RoomTaken(TakeStep(s, NextRoundStep(s, true))) == RoomTaken(s)
  {
    hide Ordered, WellFormed, CanFall, NoEndUnheard, UpNow, FallingNow, AfterDeliver;
    var t := TakeStep(s, NextRoundStep(s, true));
    if s.awaiting.None? {
      DeliverTakesRoom(s0, roots, s, true);
    } else {
      assert ToStop(t) == ToStop(s);
    }
  }

  lemma RoundHasNoEnd(s0: System, roots: set<Name>, s: System, step: Step)
    requires Ordered(s0, roots, s) && Rounding(s) && CanStep(s, step) && RoundStep(step)
    requires WellFormed(TakeStep(s, step))
    ensures forall n :: n in TakeStep(s, step).actors ==> NoEndUnheard(TakeStep(s, step), n)
  {
    hide Falling, WellFormed, Cascading, AllEndOnce, CanFall, HandleStop, ServiceActor.Step, Orderly, RoomTaken;
    OrderedWell(s0, roots, s);
    if step.Deliver? {
      DeliveredStop(s0, roots, s, step.ok);
      StopWinds(s.actors[s.outbox[0].0]);
    }
    forall n | n in TakeStep(s, step).actors ensures NoEndUnheard(TakeStep(s, step), n) {
      assert NoEndUnheard(s, n);
    }
  }

  lemma OrderedUp(s0: System, roots: set<Name>, s: System)
    requires Ordered(s0, roots, s)
    ensures !s.halted
  {
    hide Falling, WellFormed, AllFollow, ActorsWind, StopsReached, DependentsToldToStop, AllEndOnce;
  }

  lemma RoundingRounds(s0: System, roots: set<Name>, s: System)
    requires Ordered(s0, roots, s) && Rounding(s) && !RoundOver(s)
    ensures var step := NextRoundStep(s, true);
            && CanStep(s, step) && CascadeStep(s, step) && WellFormed(TakeStep(s, step)) && Rounding(TakeStep(s, step))
  {
    hide Falling, WellFormed, Cascading, AllEndOnce, CanFall, AfterDeliver, NoEndUnheard, ServiceActor.Step,
         AfterConsume, AfterLoad, CanHappen, OthersIdle;
    var step := NextRoundStep(s, true);
    OrderedWell(s0, roots, s);
    OrderedUp(s0, roots, s);
    RoundGoesOn(s, true);
    RoundTakesRoom(s0, roots, s);
    RoundStepKeepsShape(s, step);
    RoundHasNoEnd(s0, roots, s, step);
    QuietStepKeepsFalling(s0, roots, s, step);
    SamePlan(s0, roots, s, step);
    SameTurn(s, TakeStep(s, step), "");
  }

  lemma RoundingConsumes(s0: System, roots: set<Name>, s: System)
    requires Ordered(s0, roots, s) && Rounding(s) && RoundOver(s) && s.queue != []
    ensures CanStep(s, Consume) && WellFormed(AfterConsume(s)) && Rounding(AfterConsume(s))
  {
    hide Ordered, WellFormed, UpNow, FallingNow, OnEvent, EndOf, CanFall;
    OrderedWell(s0, roots, s);
    OrderedUp(s0, roots, s);
    assert CanStep(s, Consume);
    StepKeepsWellFormed(s, Consume);
    HeadEndsOnce(s0, roots, s);
    var t := AfterConsume(s);
    assert NoEndUnheard(s, s.queue[0].0);
    QuietConsume(s0, roots, s);
    SamePlan(s0, roots, s, Consume);
    SameTurn(s, t, "");
    assert ToStop(s) == {} && ToStop(t) == {};
    forall n | n in t.actors ensures NoEndUnheard(t, n) {
      assert NoEndUnheard(s, n);
    }
  }

  /** Between rounds a service that is falling is stopping. */
  lemma FallingIsStopping(s0: System, roots: set<Name>, s: System, n: Name)
    requires Ordered(s0, roots, s) && Rounding(s) && RoundOver(s) && s.queue == [] && n in s.actors
    ensures n in FallingNow(s) <==> s.actors[n].state == Stopping
    ensures Idle(s, n) && s.heard[n] == s.flushed[n] == |s.actors[n].events|
  {
    hide Falling, WellFormed, NotRetired, ActorsWind, StopsReached, DependentsToldToStop, AllEndOnce, StateAfter, Clean,
         CanFall, NoEndUnheard;
    OrderedParts(s0, roots, s);
    QueueHoldsUnheard(s0, roots, s, n);
    StaysOrderly(s0, roots, s, n);
    assert Follows(s, n) && Project(s.queue, n) == [];
    FollowsMeans(s, n);
  }

  lemma RoundingRests(s0: System, roots: set<Name>, s: System)
    requires Ordered(s0, roots, s) && Rounding(s) && RoundOver(s) && s.queue == [] && FallingNow(s) == {}
    ensures AtRest(s)
  {
    hide Ordered, WellFormed, CanFall, NoEndUnheard, FallingNow;
    OrderedUp(s0, roots, s);
    forall n | n in s.actors ensures Idle(s, n) && s.actors[n].state != Stopping {
      FallingIsStopping(s0, roots, s, n);
    }
  }

  /** The process whose turn it is exits. */
  lemma RoundingTurns(s0: System, roots: set<Name>, s: System, n: Name)
    requires Ordered(s0, roots, s) && Rounding(s) && RoundOver(s) && s.queue == [] && TurnOf(s, n)
    ensures var step := Internal(n, ChildExit(true, true));
            && CanStep(s, step) && CascadeStep(s, step) && WellFormed(TakeStep(s, step)) && Ending(TakeStep(s, step), n)
  {
    hide Falling, WellFormed, Cascading, AllEndOnce, CanFall, NoEndUnheard, TurnOf, CanHappen, ServiceActor.Step, UpNow,
         StateAfter;
    var step := Internal(n, ChildExit(true, true));
    TurnIsActor(s, n);
    OrderedWell(s0, roots, s);
    Domains(s);
    FallingIsStopping(s0, roots, s, n);
    StoppingCanExit(s0, roots, s, n);
    InternalWound(s0, roots, s, n, step.input);
    StepKeepsWellFormed(s, step);
    QuietStepKeepsFalling(s0, roots, s, step);
    SameTurn(s, TakeStep(s, step), n);
    forall m | m in s.actors && m != n ensures s.heard[m] == s.flushed[m] == |s.actors[m].events| {
      FallingIsStopping(s0, roots, s, m);
    }
  }

  lemma TurnIsActor(s: System, n: Name)
    requires TurnOf(s, n)
    ensures n in s.actors && n in FallingNow(s)
  {
  }

  /** In a round, or waiting to hear the end of `turn`. */
  ghost predicate OnTheWay(s: System, turn: Option<Name>)
    requires WellFormed(s)
  {
    if turn.Some? then Ending(s, turn.value) else Rounding(s)
  }

  /** The next step on the way to rest. */
  lemma GoOn(s0: System, roots: set<Name>, s: System, turn: Option<Name>) returns (step: Step, next: Option<Name>)
    requires Ordered(s0, roots, s) && OnTheWay(s, turn) && !AtRest(s)
    ensures CanStep(s, step) && CascadeStep(s, step)
    ensures WellFormed(TakeStep(s, step)) && OnTheWay(TakeStep(s, step), next)
  {
    hide Ordered, WellFormed, AtRest, CanStep, TakeStep, CascadeStep, Rounding, Ending, EndOf, TurnOf, FallingNow;
    OrderedWell(s0, roots, s);
    if turn.Some? {
      var n := turn.value;
      next := turn;
      if s.queue == [] {
        step := Flush(n);
        EndingFlushes(s0, roots, s, n);
      } else {
        step := Consume;
        ConsumeTaken(s);
        if EndOf(s.queue[0].1) {
          next := None;
          EndingEnds(s0, roots, s, n);
        } else {
          EndingStays(s0, roots, s, n);
        }
      }
    } else if !RoundOver(s) {
      step, next := NextRoundStep(s, true), None;
      RoundingRounds(s0, roots, s);
    } else if s.queue != [] {
      step, next := Consume, None;
      ConsumeTaken(s);
      RoundingConsumes(s0, roots, s);
    } else {
      if FallingNow(s) == {} {
        RoundingRests(s0, roots, s);
      }
      RoundingCanFall(s);
      var n := NextTurn(s);
      step, next := Internal(n, ChildExit(true, true)), Some(n);
      RoundingTurns(s0, roots, s, n);
    }
  }

  lemma ConsumeTaken(s: System)
    ensures CanStep(s, Consume) ==> TakeStep(s, Consume) == AfterConsume(s)
    ensures CascadeStep(s, Consume)
  {
  }

  lemma RoundingCanFall(s: System)
    requires WellFormed(s) && Rounding(s)
    ensures CanFall(s)
  {
  }

  lemma OrderedCascades(s0: System, roots: set<Name>, s: System)
    requires Ordered(s0, roots, s)
    ensures Falling(s0, roots) && Cascading(s0, roots, s) && WellFormed(s)
  {
  }

  lemma {:induction false} FindRest(s0: System, roots: set<Name>, s: System, turn: Option<Name>)
    returns (steps: seq<Step>)
    requires Ordered(s0, roots, s) && OnTheWay(s, turn)
    ensures CanCascade(s, steps) && AtRest(AfterCascade(s, steps))
    decreases Effort(s)
  {
    hide Ordered, WellFormed, OnTheWay, Effort, AtRest, CanStep, TakeStep, CascadeStep, Falling, Cascading;
    if AtRest(s) {
      return [];
    }
    OrderedCascades(s0, roots, s);
    var step, next := GoOn(s0, roots, s, turn);
    StepTakesEffort(s0, roots, s, step);
    StepKeepsOrdered(s0, roots, s, step);
    var rest := FindRest(s0, roots, TakeStep(s, step), next);
    CascadeOne(s, step, rest);
    steps := [step] + rest;
  }

  // ---------------------------------------------------------------------
  // The fall of a service
  // ---------------------------------------------------------------------

  /** The services that run. */
  function Running(s: System): set<Name> {
    set n | n in s.actors && s.actors[n].state == Active
  }

  lemma RestingShape(s: System, n: Name)
    requires Resting(s) && n in s.actors
    ensures WellFormed(s) && AtLoopHead(s) && s.queue == [] && n in s.heard && n in s.flushed && n in s.boss.snaps.vals
    ensures s.heard[n] == s.flushed[n] == |s.actors[n].events| && s.boss.snaps.vals[n] == s.actors[n].state
    ensures s.actors[n].state in {Inactive, Active, ServiceState.Backoff, Error}
    ensures s.actors[n].state == Active ==> Calm(s.actors[n])
  {
    hide WellFormed, Follows, Clean;
    Domains(s);
    SnapshotIsState(s, n);
  }

  lemma FallFalls(s: System, d: Name, success: bool, ok: bool)
    requires Resting(s) && d in s.actors && s.actors[d].state == Active && Falls(s.actors[d], success)
    requires CanStep(s, Internal(d, ChildExit(success, ok)))
    ensures var t := TakeStep(s, Internal(d, ChildExit(success, ok)));
            UpNow(t) == Running(s) - {d} && FallingNow(t) == {d}
  {
    hide Resting, Falls, ServiceActor.Step, CanHappen, Calm, WellFormed;
    RestingShape(s, d);
    FallSays(s.actors[d], success, ok);
    forall n | n in s.actors
      ensures n in s.boss.snaps.vals && s.boss.snaps.vals[n] == s.actors[n].state && s.outbox == []
      ensures s.actors[n].state in {Inactive, Active, ServiceState.Backoff, Error}
    {
      RestingShape(s, n);
    }
    var t := TakeStep(s, Internal(d, ChildExit(success, ok)));
    assert UpNow(t) == Running(s) - {d};
  }

  lemma FallEndsOnce(s: System, d: Name, success: bool, ok: bool)
    requires Resting(s) && d in s.actors && s.actors[d].state == Active && Falls(s.actors[d], success)
    requires CanStep(s, Internal(d, ChildExit(success, ok)))
    ensures var t := TakeStep(s, Internal(d, ChildExit(success, ok)));
            && WellFormed(t) && AllEndOnce(t) && AtLoopHead(t) && t.queue == [] && d in t.actors && d in t.heard
            && (forall m :: m in t.actors && m != d ==>
                  m in t.heard && m in t.flushed && t.heard[m] == t.flushed[m] == |t.actors[m].events|)
            && t.heard[d] < |t.actors[d].events| && EndOf(t.actors[d].events[|t.actors[d].events| - 1])
  {
    hide Resting, Falls, ServiceActor.Step, CanHappen, Calm, WellFormed;
    RestingShape(s, d);
    FallSays(s.actors[d], success, ok);
    StepKeepsWellFormed(s, Internal(d, ChildExit(success, ok)));
    forall n | n in s.actors
      ensures n in s.heard && n in s.flushed && s.heard[n] == s.flushed[n] == |s.actors[n].events|
    {
      RestingShape(s, n);
    }
  }

  lemma FallIsOrdered(s: System, d: Name, success: bool, ok: bool)
    requires Resting(s) && d in s.actors && s.actors[d].state == Active && Falls(s.actors[d], success)
    ensures CanStep(s, Internal(d, ChildExit(success, ok)))
    ensures var t := TakeStep(s, Internal(d, ChildExit(success, ok)));
            && Ordered(t, {d}, t) && UpNow(t) == Running(s) - {d} && FallingNow(t) == {d}
            && (CanFall(t) ==> Ending(t, d))
  {
    hide Resting, Falls, ServiceActor.Step, CanStep, TakeStep, Falling, WellFormed, Cascading, AllEndOnce, UpNow,
         FallingNow, Running, CanFall, TurnOf;
    FallStartsCascade(s, d, success, ok);
    var t := TakeStep(s, Internal(d, ChildExit(success, ok)));
    StartsCascading(t, {d});
    FallFalls(s, d, success, ok);
    FallEndsOnce(s, d, success, ok);
    if CanFall(t) {
      var n := NextTurn(t);
      TurnIsActor(t, n);
    }
  }

  /**
    The fall of a service in a resting system can be brought to rest exactly if the services that run can be taken
    down in some order, each fall heard of stopping at most 256 of those that are still up.
    */
  lemma FallRestsExactly(s: System, d: Name, success: bool, ok: bool)
    requires Resting(s) && d in s.actors && s.actors[d].state == Active && Falls(s.actors[d], success)
    ensures CanStep(s, Internal(d, ChildExit(success, ok)))
    ensures var t := TakeStep(s, Internal(d, ChildExit(success, ok)));
            (exists steps :: CanCascade(t, steps) && AtRest(AfterCascade(t, steps)))
            <==> FallsInTurn(s.boss.plan, Running(s) - {d}, {d})
  {
    hide Resting, Falls, CanStep, Ordered, WellFormed, AtRest, CanCascade, AfterCascade, UpNow, FallingNow, Running,
         FallsInTurn, Ending, ServiceActor.Step;
    FallIsOrdered(s, d, success, ok);
    var t := TakeStep(s, Internal(d, ChildExit(success, ok)));
    if CanFall(t) {
      var steps := FindRest(t, {d}, t, Some(d));
    }
    forall steps | CanCascade(t, steps) && AtRest(AfterCascade(t, steps)) ensures CanFall(t) {
      RestNeedsTurns(t, {d}, t, steps);
    }
  }

  lemma StopFalls(s: System, t: System, d: Name)
    requires Resting(s) && d in s.actors && s.actors[d].state == Active
    requires d in s.flushed && StopUnderWay(s, t, d) && WellFormed(t)
    ensures UpNow(t) == Running(s) - {d} && FallingNow(t) == {d} && AllEndOnce(t)
    ensures OthersIdle(t) && RoomTaken(t) == 1 && forall n :: n in t.actors ==> NoEndUnheard(t, n)
  {
    hide Resting, HandleStop, Orderly, WellFormed;
    RestingShape(s, d);
    StopWinds(s.actors[d]);
    forall n | n in s.actors
      ensures n in s.heard && n in s.flushed && s.heard[n] == s.flushed[n] == |s.actors[n].events|
      ensures n in s.boss.snaps.vals && s.boss.snaps.vals[n] == s.actors[n].state
      ensures s.actors[n].state in {Inactive, Active, ServiceState.Backoff, Error}
    {
      RestingShape(s, n);
    }
    assert UpNow(t) == Running(s) - {d};
    assert ToStop(t) == {};
  }

  /** The same of a Stop sent to a running service, from its reply on. */
  lemma StopRestsExactly(s: System, d: Name, ok: bool)
    requires Resting(s) && d in s.actors && s.actors[d].state == Active
    ensures var steps := [Round([(d, Stop)]), Deliver(ok), Flush(d), Reply]; CanRun(s, steps)
    ensures var t := After(s, [Round([(d, Stop)]), Deliver(ok), Flush(d), Reply]);
            (exists steps :: CanCascade(t, steps) && AtRest(AfterCascade(t, steps)))
            <==> FallsInTurn(s.boss.plan, Running(s) - {d}, {d})
  {
    hide Resting, CanStep, Falling, Cascading, WellFormed, AtRest, CanRun, After, CanCascade, AfterCascade, UpNow,
         FallingNow, Running, FallsInTurn, AllEndOnce, RoomTaken, OthersIdle, NoEndUnheard;
    StopStartsCascade(s, d, ok);
    var t := After(s, [Round([(d, Stop)]), Deliver(ok), Flush(d), Reply]);
    RestingShape(s, d);
    StartsCascading(t, {d});
    CascadeParts(t, {d}, t);
    StopFalls(s, t, d);
    if CanFall(t) {
      var steps := FindRest(t, {d}, t, None);
    }
    forall steps | CanCascade(t, steps) && AtRest(AfterCascade(t, steps)) ensures CanFall(t) {
      RestNeedsTurns(t, {d}, t, steps);
    }
  }
}
