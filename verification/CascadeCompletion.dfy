/** That a stop cascade ends, and when the event queue has room for it to get there. */
module CascadeCompletion {
  import opened Prelude
  import opened ServiceActor
  import opened ActorRuns
  import opened ActorHistory
  import opened Overlord
  import opened Supervision
  import opened SnapshotTracking
  import opened RequiresCascade
  import opened CascadeOutcome

  // ---------------------------------------------------------------------
  // What the actors can still cause
  // ---------------------------------------------------------------------

  /** How much a running and a stopping actor count, and a kill deadline and an unsent event. */
  datatype Weights = Weights(active: nat, stopping: nat, deadline: nat, unsent: nat) {
    /** A stop sends one event, the exit after it two. */
    predicate Sensible() {
      active >= stopping + deadline + unsent && stopping >= 2 * unsent
    }
  }

  function Stage(a: ActorState, w: Weights): nat {
    match a.state
    case Active => w.active
    case Stopping => w.stopping + if a.stopDeadline then w.deadline else 0
    case _ => 0
  }

  function Share(s: System, name: Name, w: Weights): nat {
    if name in s.actors && name in s.flushed && s.flushed[name] <= |s.actors[name].events| then
      Stage(s.actors[name], w) + w.unsent * (|s.actors[name].events| - s.flushed[name])
    else 0
  }

  function TotalShare(s: System, names: seq<Name>, w: Weights): nat {
    if names == [] then 0 else TotalShare(s, names[..|names| - 1], w) + Share(s, names[|names| - 1], w)
  }

  function Total(s: System, w: Weights): nat {
    TotalShare(s, s.boss.snaps.keys, w)
  }

  lemma {:induction false} SharesAgree(s: System, t: System, names: seq<Name>, w: Weights)
    requires forall x :: x in names ==> Share(s, x, w) == Share(t, x, w)
    ensures TotalShare(s, names, w) == TotalShare(t, names, w)
    decreases |names|
  {
    hide Share;
    if names != [] {
      assert names[|names| - 1] in names;
      SharesAgree(s, t, names[..|names| - 1], w);
    }
  }

  /** Only one actor's share of the total has changed. */
  lemma {:induction false} OneShareChanges(s: System, t: System, names: seq<Name>, name: Name, w: Weights)
    requires Distinct(names) && name in names
    requires forall x :: x in names && x != name ==> Share(s, x, w) == Share(t, x, w)
    ensures TotalShare(t, names, w) == TotalShare(s, names, w) + Share(t, name, w) - Share(s, name, w)
    decreases |names|
  {
    hide Share;
    var front, last := names[..|names| - 1], names[|names| - 1];
    assert names == front + [last] && last !in front;
    if last == name {
      SharesAgree(s, t, front, w);
    } else {
      OneShareChanges(s, t, front, name, w);
    }
  }

  lemma {:induction false} ShareIsPart(s: System, names: seq<Name>, name: Name, w: Weights)
    requires name in names
    ensures Share(s, name, w) <= TotalShare(s, names, w)
    decreases |names|
  {
    hide Share;
    var front, last := names[..|names| - 1], names[|names| - 1];
    assert names == front + [last];
    if last != name {
      ShareIsPart(s, front, name, w);
    }
  }

  lemma OneMore(u: nat, k: nat)
    ensures u * (k + 1) == u * k + u
  {
  }

  lemma NamesOfActors(s: System, name: Name)
    requires WellFormed(s) && name in s.actors
    ensures Distinct(s.boss.snaps.keys) && name in s.boss.snaps.keys
    ensures name in s.flushed && s.flushed[name] <= |s.actors[name].events|
  {
    hide Told;
  }

  lemma SameTotal(s: System, t: System, w: Weights)
    requires s.actors == t.actors && s.flushed == t.flushed && s.boss.snaps.keys == t.boss.snaps.keys
    ensures Total(t, w) == Total(s, w)
  {
    SharesAgree(s, t, s.boss.snaps.keys, w);
  }

  lemma DeliverTotal(s0: System, roots: set<Name>, s: System, ok: bool, w: Weights)
    requires Falling(s0, roots) && Cascading(s0, roots, s) && CanStep(s, Deliver(ok)) && w.Sensible()
    requires WellFormed(AfterDeliver(s, ok))
    ensures Total(AfterDeliver(s, ok), w) <= Total(s, w)
    ensures AfterDeliver(s, ok).boss == s.boss
  {
    hide Falling, AllFollow, WellFormed, Cascading, TotalShare, Orderly, HandleStop, ServiceActor.Step;
    DeliveredStop(s0, roots, s, ok);
    var t := AfterDeliver(s, ok);
    CascadeParts(s0, roots, s);
    var name := s.outbox[0].0;
    NamesOfActors(s, name);
    NamesOfActors(t, name);
    DeliverKeepsBoss(s, ok);
    StopWinds(s.actors[name]);
    StopLightens(s, t, name, w);
    OneShareChanges(s, t, s.boss.snaps.keys, name, w);
  }

  lemma StopLightens(s: System, t: System, name: Name, w: Weights)
    requires name in s.actors && name in t.actors && name in s.flushed && t.flushed == s.flushed && w.Sensible()
    requires s.flushed[name] <= |s.actors[name].events|
    requires var a, b := s.actors[name], t.actors[name];
             (a.state == Active && b.state == Stopping && b.events == a.events + [StateChanged(Stopping)]) || b == a
    ensures Share(t, name, w) <= Share(s, name, w)
  {
    OneMore(w.unsent, |s.actors[name].events| - s.flushed[name]);
  }

  lemma FlushTotal(s: System, name: Name, w: Weights)
    requires WellFormed(s) && CanStep(s, Flush(name))
    ensures Total(TakeStep(s, Flush(name)), w) + w.unsent == Total(s, w)
  {
    hide WellFormed, TotalShare;
    var t := TakeStep(s, Flush(name));
    NamesOfActors(s, name);
    OneMore(w.unsent, |s.actors[name].events| - t.flushed[name]);
    OneShareChanges(s, t, s.boss.snaps.keys, name, w);
  }

  lemma InternalTotal(s0: System, roots: set<Name>, s: System, name: Name, i: Input, w: Weights)
    requires Falling(s0, roots) && Cascading(s0, roots, s) && w.Sensible()
    requires CanStep(s, Internal(name, i)) && CascadeStep(s, Internal(name, i))
    ensures var t := TakeStep(s, Internal(name, i));
            Total(t, w) <= Total(s, w) && (w.deadline > 0 && w.stopping > 2 * w.unsent ==> Total(t, w) < Total(s, w))
  {
    hide Falling, WellFormed, Cascading, TotalShare, Orderly, ServiceActor.Step, CanHappen;
    CascadeParts(s0, roots, s);
    InternalWound(s0, roots, s, name, i);
    var t := TakeStep(s, Internal(name, i));
    NamesOfActors(s, name);
    OneMore(w.unsent, |s.actors[name].events| - s.flushed[name]);
    OneMore(w.unsent, |s.actors[name].events| - s.flushed[name] + 1);
    OneShareChanges(s, t, s.boss.snaps.keys, name, w);
  }

  lemma FewStops(b: Overlord.State, name: Name, e: Event)
    requires Down(e)
    ensures |OnEvent(b, name, e).1| <= |b.plan.keys|
  {
    hide DepsRunning;
  }

  lemma ConsumeTotal(s0: System, roots: set<Name>, s: System, w: Weights)
    requires Falling(s0, roots) && Cascading(s0, roots, s) && CanStep(s, Consume)
    ensures var t := AfterConsume(s);
            && Total(t, w) == Total(s, w) && t.boss.plan == s.boss.plan && t.boss.snaps.keys == s.boss.snaps.keys
            && |t.outbox| <= |s.boss.plan.keys|
  {
    hide Falling, AllFollow, Told, ActorsWind, StopsReached, DependentsToldToStop, Share, TotalShare, OnEvent;
    OnEventKeepsShape(s.boss, s.queue[0].0, s.queue[0].1);
    HeadIsDown(s0, roots, s);
    FewStops(s.boss, s.queue[0].0, s.queue[0].1);
    SameTotal(s, AfterConsume(s), w);
  }

  // ---------------------------------------------------------------------
  // The cascade ends
  // ---------------------------------------------------------------------

  function EffortWeights(n: nat): Weights {
    Weights(6 * n + 9, 4 * n + 5, 1, 2 * n + 2)
  }

  /** No cascade from here takes more steps than this. */
  function Effort(s: System): nat {
    var n := |s.boss.plan.keys|;
    Total(s, EffortWeights(n)) + (2 * n + 1) * |s.queue| + 2 * |s.outbox| + if s.awaiting.Some? then 1 else 0
  }

  lemma StepTakesEffort(s0: System, roots: set<Name>, s: System, step: Step)
    requires Falling(s0, roots) && Cascading(s0, roots, s) && CanStep(s, step) && CascadeStep(s, step)
    ensures Effort(TakeStep(s, step)) < Effort(s)
  {
    hide Falling, WellFormed, Cascading, Total, OnEvent, ServiceActor.Step, CanHappen;
    CascadeParts(s0, roots, s);
    StepKeepsWellFormed(s, step);
    var n := |s.boss.plan.keys|;
    var w := EffortWeights(n);
    match step
    case Consume =>
      ConsumeTotal(s0, roots, s, w);
      OneMore(2 * n + 1, |s.queue| - 1);
    case Deliver(ok) => DeliverTotal(s0, roots, s, ok, w);
    case Internal(name, i) => InternalTotal(s0, roots, s, name, i, w);
    case Flush(name) =>
      FlushTotal(s, name, w);
      OneMore(2 * n + 1, |s.queue|);
    case Reply => SameTotal(s, TakeStep(s, Reply), w);
  }

  /** However the requires are arranged, in circles too, the cascade is over after `Effort` steps at most. */
  lemma {:induction false} CascadeEnds(s0: System, roots: set<Name>, s: System, steps: seq<Step>)
    requires Falling(s0, roots) && Cascading(s0, roots, s) && CanCascade(s, steps)
    ensures |steps| + Effort(AfterCascade(s, steps)) <= Effort(s)
    decreases |steps|
  {
    hide Falling, Cascading, CanStep, TakeStep, CascadeStep, Effort;
    if steps != [] {
      StepTakesEffort(s0, roots, s, steps[0]);
      StepKeepsCascading(s0, roots, s, steps[0]);
      CascadeEnds(s0, roots, TakeStep(s, steps[0]), steps[1..]);
    }
  }

  /** From its start, a cascade is over after `Effort` steps at most. */
  lemma CascadeIsFinite(s0: System, roots: set<Name>, steps: seq<Step>)
    requires Falling(s0, roots) && CanCascade(s0, steps)
    ensures |steps| <= Effort(s0)
  {
    hide Falling, Cascading, Effort;
    StartsCascading(s0, roots);
    CascadeEnds(s0, roots, s0, steps);
  }

  // ---------------------------------------------------------------------
  // Room in the queue
  // ---------------------------------------------------------------------

  /** The events an actor can still send: three from Active, two from Stopping, and those it has not sent yet. */
  const EVENTS := Weights(3, 2, 0, 1)

  /** All events that are in the queue or can still get there. */
  function Supply(s: System): nat {
    Total(s, EVENTS) + |s.queue|
  }

  lemma StepKeepsSupply(s0: System, roots: set<Name>, s: System, step: Step)
    requires Falling(s0, roots) && Cascading(s0, roots, s) && CanStep(s, step) && CascadeStep(s, step)
    ensures Supply(TakeStep(s, step)) <= Supply(s)
  {
    hide Falling, WellFormed, Cascading, Total, OnEvent, ServiceActor.Step, CanHappen;
    CascadeParts(s0, roots, s);
    StepKeepsWellFormed(s, step);
    match step
    case Consume => ConsumeTotal(s0, roots, s, EVENTS);
    case Deliver(ok) => DeliverTotal(s0, roots, s, ok, EVENTS);
    case Internal(name, i) => InternalTotal(s0, roots, s, name, i, EVENTS);
    case Flush(name) => FlushTotal(s, name, EVENTS);
    case Reply => SameTotal(s, TakeStep(s, Reply), EVENTS);
  }

  /** With a full queue and no more events to come than it holds, nobody has any to send. */
  lemma FullMeansIdle(s: System, n: Name)
    requires WellFormed(s) && n in s.actors && Supply(s) <= QUEUE_CAPACITY && |s.queue| >= QUEUE_CAPACITY
    ensures Idle(s, n)
  {
    hide WellFormed, TotalShare;
    NamesOfActors(s, n);
    ShareIsPart(s, s.boss.snaps.keys, n, EVENTS);
  }

  lemma FlushOrIdle(s: System, n: Name)
    requires WellFormed(s) && n in s.actors && !s.halted && Supply(s) <= QUEUE_CAPACITY
    ensures Idle(s, n) || (CanStep(s, Flush(n)) && CascadeStep(s, Flush(n)))
  {
    hide WellFormed, Supply;
    NamesOfActors(s, n);
    if |s.queue| >= QUEUE_CAPACITY {
      FullMeansIdle(s, n);
    }
  }

  /** With room for all events to come there is a next step until everything is at rest. */
  lemma CascadeGoesOn(s0: System, roots: set<Name>, s: System)
    requires Falling(s0, roots) && Cascading(s0, roots, s) && !AtRest(s) && Supply(s) <= QUEUE_CAPACITY
    ensures exists step :: CanStep(s, step) && CascadeStep(s, step)
  {
    hide Falling, WellFormed, AllFollow, ActorsWind, StopsReached, DependentsToldToStop, CanHappen, Supply;
    if s.awaiting.Some? {
      AwaitedExists(s);
      FlushOrIdle(s, s.awaiting.value);
      assert CascadeStep(s, Reply);
      if Idle(s, s.awaiting.value) {
        assert CanStep(s, Reply);
      }
    } else if s.outbox != [] {
      Domains(s);
      assert s.outbox[0] in s.outbox;
      FlushOrIdle(s, s.outbox[0].0);
      assert CascadeStep(s, Deliver(true));
      if Idle(s, s.outbox[0].0) {
        assert CanStep(s, Deliver(true));
      }
    } else if s.queue != [] {
      assert CanStep(s, Consume) && CascadeStep(s, Consume);
    } else {
      var n :| n in s.actors && !(Idle(s, n) && s.actors[n].state != Stopping);
      FlushOrIdle(s, n);
      if Idle(s, n) {
        StoppingCanExit(s0, roots, s, n);
        assert CascadeStep(s, Internal(n, ChildExit(true, true)));
      }
    }
  }

  lemma AwaitedExists(s: System)
    requires WellFormed(s) && s.awaiting.Some?
    ensures s.awaiting.value in s.actors && s.owed <= |s.actors[s.awaiting.value].events|
  {
    hide Told;
  }

  lemma StoppingCanExit(s0: System, roots: set<Name>, s: System, n: Name)
    requires Falling(s0, roots) && Cascading(s0, roots, s)
    requires Idle(s, n) && s.actors[n].state == Stopping
    ensures CanStep(s, Internal(n, ChildExit(true, true)))
  {
    hide Falling, WellFormed, AllFollow, ActorsWind, StopsReached, DependentsToldToStop, Orderly;
    StaysOrderly(s0, roots, s, n);
    StoppingHasChild(s.actors[n]);
  }

  lemma StaysOrderly(s0: System, roots: set<Name>, s: System, n: Name)
    requires Falling(s0, roots) && Cascading(s0, roots, s) && n in s.actors
    ensures Orderly(s.actors[n])
  {
    hide Falling, WellFormed, Orderly, Reached, StopsReached, DependentsToldToStop, DownFrom, AllFollow;
    FallingShape(s0, roots);
    assert Winds(s0, roots, s, n);
  }

  lemma StoppingHasChild(a: ActorState)
    requires Orderly(a) && a.state == Stopping
    ensures a.child.Some? && !a.halted
  {
  }

  lemma {:induction false} CascadeKeepsSupply(s0: System, roots: set<Name>, s: System, steps: seq<Step>)
    requires Falling(s0, roots) && Cascading(s0, roots, s) && CanCascade(s, steps)
    ensures Supply(AfterCascade(s, steps)) <= Supply(s)
    decreases |steps|
  {
    hide Falling, Cascading, CanStep, TakeStep, CascadeStep, Supply;
    if steps != [] {
      StepKeepsSupply(s0, roots, s, steps[0]);
      StepKeepsCascading(s0, roots, s, steps[0]);
      CascadeKeepsSupply(s0, roots, TakeStep(s, steps[0]), steps[1..]);
    }
  }

  /**
    When the queue has room for all events that can come of the fall, the cascade comes to rest whatever the order of
    its steps: it takes boundedly many, and short of rest there is always a next one.
    */
  lemma CascadeComesToRest(s0: System, roots: set<Name>, steps: seq<Step>)
    requires Falling(s0, roots) && CanCascade(s0, steps) && Supply(s0) <= QUEUE_CAPACITY
    ensures |steps| <= Effort(s0)
    ensures var s := AfterCascade(s0, steps);
            !AtRest(s) ==> exists step :: CanStep(s, step) && CascadeStep(s, step)
  {
    hide Falling, Cascading, Effort, Supply, AtRest, CanStep, CascadeStep, CanCascade, AfterCascade;
    CascadeIsFinite(s0, roots, steps);
    StartsCascading(s0, roots);
    CascadeKept(s0, roots, s0, steps);
    CascadeKeepsSupply(s0, roots, s0, steps);
    if !AtRest(AfterCascade(s0, steps)) {
      CascadeGoesOn(s0, roots, AfterCascade(s0, steps));
    }
  }

  lemma CascadeOne(s: System, step: Step, rest: seq<Step>)
    requires CanStep(s, step) && CascadeStep(s, step) && CanCascade(TakeStep(s, step), rest)
    ensures CanCascade(s, [step] + rest) && AfterCascade(s, [step] + rest) == AfterCascade(TakeStep(s, step), rest)
  {
    hide CanStep, TakeStep, CascadeStep;
    assert ([step] + rest)[1..] == rest;
  }

  lemma {:induction false} FinishCascade(s0: System, roots: set<Name>, s: System) returns (steps: seq<Step>)
    requires Falling(s0, roots) && Cascading(s0, roots, s) && Supply(s) <= QUEUE_CAPACITY
    ensures CanCascade(s, steps) && AtRest(AfterCascade(s, steps))
    decreases Effort(s)
  {
    hide Falling, Cascading, Effort, Supply, AtRest, CanStep, TakeStep, CascadeStep;
    if AtRest(s) {
      return [];
    }
    CascadeGoesOn(s0, roots, s);
    var step :| CanStep(s, step) && CascadeStep(s, step);
    StepTakesEffort(s0, roots, s, step);
    StepKeepsSupply(s0, roots, s, step);
    StepKeepsCascading(s0, roots, s, step);
    var rest := FinishCascade(s0, roots, TakeStep(s, step));
    CascadeOne(s, step, rest);
    steps := [step] + rest;
  }

  /** So there is a way for it to come to rest. */
  lemma CascadeCanComeToRest(s0: System, roots: set<Name>)
    requires Falling(s0, roots) && Supply(s0) <= QUEUE_CAPACITY
    ensures exists steps :: CanCascade(s0, steps) && AtRest(AfterCascade(s0, steps))
  {
    hide Falling, Cascading, Supply, AtRest, CanCascade, AfterCascade;
    StartsCascading(s0, roots);
    var steps := FinishCascade(s0, roots, s0);
  }
}
