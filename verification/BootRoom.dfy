/**
  Which loads can be brought to rest: the plan decides, through the order in which its services come up, whether the
  events of every round of Starts fit into the queue. Every start succeeds and nothing exits, as in AutostartCompletion.
  */
module BootRoom {
  import opened Prelude
  import opened ServiceActor
  import opened ActorRuns
  import opened Overlord
  import opened Supervision
  import opened SnapshotTracking
  import opened PendingAutostart
  import opened QueueBound
  import opened AutostartCompletion

  // ---------------------------------------------------------------------
  // The condition
  // ---------------------------------------------------------------------

  /** All services `n` waits for are among those that are up. */
  ghost predicate DepsUp(plan: Services, up: set<Name>, n: Name) {
    forall d :: DependsOn(plan, n, d) ==> d in up
  }

  ghost function Unblocked(plan: Services, up: set<Name>, names: seq<Name>): seq<Name> {
    Filter(names, n => DepsUp(plan, up, n))
  }

  ghost function StillBlocked(plan: Services, up: set<Name>, names: seq<Name>): seq<Name> {
    Filter(names, n => !DepsUp(plan, up, n))
  }

  ghost function Down(up: set<Name>, names: seq<Name>): seq<Name> {
    Filter(names, n => n !in up)
  }

  /**
    The services of `line` are coming up in turn, `waiting` are deferred. Hearing of the first of the line lets those
    start that waited for it; from the first on at most 128 may be in line at any time.
    */
  ghost predicate RoomFor(plan: Services, up: set<Name>, waiting: seq<Name>, line: seq<Name>)
    decreases |waiting| + |line|
  {
    line == [] ||
    var up' := up + {line[0]};
    var next := Down(up', Unblocked(plan, up', waiting));
    FilterSplits(waiting, n => DepsUp(plan, up', n), n => !DepsUp(plan, up', n));
    |line| + |next| <= 128 && RoomFor(plan, up', StillBlocked(plan, up', waiting), line[1..] + next)
  }

  /** The enabled services set out from those that are up when the plan is loaded. */
  ghost predicate RoomToStart(plan: Services, up: set<Name>) {
    RoomFor(plan, up, StillBlocked(plan, up, EnabledNames(plan)), Down(up, Unblocked(plan, up, EnabledNames(plan))))
  }

  /** With at most 128 services to start there is room in any case. */
  lemma {:induction false} FewHaveRoom(plan: Services, up: set<Name>, waiting: seq<Name>, line: seq<Name>)
    requires |waiting| + |line| <= 128
    ensures RoomFor(plan, up, waiting, line)
    decreases |waiting| + |line|
  {
    hide DepsUp;
    if line != [] {
      var up' := up + {line[0]};
      FilterSplits(waiting, n => DepsUp(plan, up', n), n => !DepsUp(plan, up', n));
      var next := Down(up', Unblocked(plan, up', waiting));
      FewHaveRoom(plan, up', StillBlocked(plan, up', waiting), line[1..] + next);
    }
  }

  /** Who runs, as far as the supervisor has heard. */
  function Up(snaps: Snapshots): set<Name> {
    set n | n in snaps.vals && snaps.vals[n].IsRunning()
  }

  lemma DepsRunningIsUp(plan: Services, snaps: Snapshots, n: Name)
    requires n in plan.vals
    ensures DepsRunning(plan, snaps, n) <==> DepsUp(plan, Up(snaps), n)
  {
    if DepsRunning(plan, snaps, n) {
      forall d | DependsOn(plan, n, d) ensures d in Up(snaps) {
        assert RunningIn(snaps, d);
      }
    }
    if DepsUp(plan, Up(snaps), n) {
      forall d | DependsOn(plan, n, d) ensures RunningIn(snaps, d) {
        assert d in Up(snaps);
      }
    }
  }

  // ---------------------------------------------------------------------
  // The events under way
  // ---------------------------------------------------------------------

  /** What services say as they come up one after the other. */
  function Announced(line: seq<Name>): (r: seq<(Name, Event)>)
    ensures |r| == 2 * |line|
  {
    if line == [] then []
    else [(line[0], StateChanged(Starting)), (line[0], StateChanged(Active))] + Announced(line[1..])
  }

  lemma {:induction false} AnnouncedConcat(a: seq<Name>, b: seq<Name>)
    ensures Announced(a + b) == Announced(a) + Announced(b)
    decreases |a|
  {
    if a == [] {
      assert a + b == b;
    } else {
      AnnouncedConcat(a[1..], b);
      assert (a + b)[1..] == a[1..] + b && (a + b)[0] == a[0];
      var first := [(a[0], StateChanged(Starting)), (a[0], StateChanged(Active))];
      assert first + (Announced(a[1..]) + Announced(b)) == (first + Announced(a[1..])) + Announced(b);
    }
  }

  /** The events queued, those the awaited actor has yet to send, and those of the Starts still to be sent. */
  ghost function Coming(s: System): seq<(Name, Event)> {
    s.queue + (if s.awaiting.Some? then Unsent(s, s.awaiting.value) else [])
    + Announced(Down(Up(s.boss.snaps), Names(s.outbox)))
  }

  /** The supervisor knows whether the service runs. */
  ghost predicate KnownRight(s: System, n: Name) {
    n in s.actors && (n in Up(s.boss.snaps) <==> s.actors[n].state == Active)
  }

  ghost predicate AllKnownRight(s: System) {
    && (forall n :: n in s.boss.pending ==> KnownRight(s, n) && n !in Names(s.outbox))
    && (forall m :: m in s.outbox ==> KnownRight(s, m.0))
  }

  /**
    All events under way are of the services of `line` coming up in turn; of the first one the first event has been
    heard of if `k` is 1.
    */
  ghost predicate InLine(s: System, line: seq<Name>, k: nat) {
    && Settling(s) && |s.queue| <= QUEUE_CAPACITY
    && k <= 1 && k <= |line| && Coming(s) == Announced(line)[k..]
    && (k == 1 ==> line[0] in Up(s.boss.snaps))
    && (forall n :: n in line ==> n in s.boss.snaps.vals && n !in s.boss.pending)
    && NamedOnce(s.outbox) && AllKnownRight(s)
  }

  ghost predicate HasRoom(s: System, line: seq<Name>, k: nat)
    requires k <= |line|
  {
    2 * |line| - k <= QUEUE_CAPACITY && RoomFor(s.boss.plan, Up(s.boss.snaps), s.boss.pending, line[k..])
  }

  // ---------------------------------------------------------------------
  // Each step keeps the line, and whether there is room for it
  // ---------------------------------------------------------------------

  /** What the supervisor does on hearing that a service comes up. */
  lemma HearingUp(b: Overlord.State, n: Name, newState: ServiceState)
    requires n in b.snaps.vals && newState in {Starting, Active}
    requires NoLostWakeup(b) && b.plan.vals.Keys == b.snaps.vals.Keys
    ensures var (b', commands) := OnEvent(b, n, StateChanged(newState));
            var up' := Up(b.snaps) + {n};
            && b'.plan == b.plan && Up(b'.snaps) == up' && b'.snaps.vals.Keys == b.snaps.vals.Keys
            && b'.pending == StillBlocked(b.plan, up', b.pending)
            && Names(commands) == Unblocked(b.plan, up', b.pending) && NamedOnce(commands)
  {
    hide DepsRunning, DepsUp, ToAll, Filter;
    var heard := Hear(b, n, newState);
    var up' := Up(heard.snaps);
    assert up' == Up(b.snaps) + {n};
    forall m | m in b.pending ensures DepsRunning(heard.plan, heard.snaps, m) == DepsUp(b.plan, up', m) {
      DepsRunningIsUp(heard.plan, heard.snaps, m);
    }
    FilterAgrees(b.pending, m => DepsRunning(heard.plan, heard.snaps, m), m => DepsUp(b.plan, up', m));
    FilterAgrees(b.pending, m => !DepsRunning(heard.plan, heard.snaps, m), m => !DepsUp(b.plan, up', m));
    var ready := Unblocked(b.plan, up', b.pending);
    FilterDistinct(b.pending, m => DepsUp(b.plan, up', m));
    NamesOfToAll(heard.snaps, ready, Start);
    ToAllDistinct(heard.snaps, ready, Start);
  }

  /** Hearing again of a service that runs unblocks nobody. */
  lemma NothingUnblocked(b: Overlord.State, n: Name)
    requires NoLostWakeup(b) && n in Up(b.snaps)
    ensures var up := Up(b.snaps) + {n};
            up == Up(b.snaps) && StillBlocked(b.plan, up, b.pending) == b.pending
            && Unblocked(b.plan, up, b.pending) == []
  {
    hide DepsRunning, DepsUp;
    var up := Up(b.snaps);
    assert up + {n} == up;
    forall m | m in b.pending ensures !DepsUp(b.plan, up, m) {
      DepsRunningIsUp(b.plan, b.snaps, m);
    }
    FilterEverything(b.pending, m => !DepsUp(b.plan, up, m));
    FilterSplits(b.pending, m => DepsUp(b.plan, up, m), m => !DepsUp(b.plan, up, m));
  }

  lemma StartAnnounces(a: ActorState)
    requires Calm(a) && a.state != Stopping
    ensures CanHappen(a, StartCmd(true))
    ensures var b := ServiceActor.Step(a, StartCmd(true));
            b.state == Active
            && b.events == a.events + if a.state == Active then [] else [StateChanged(Starting), StateChanged(Active)]
  {
    StepKeepsClean(a, StartCmd(true));
    hide Config.Delay;
  }

  lemma NothingUnsent(s: System, n: Name)
    requires Idle(s, n)
    ensures Unsent(s, n) == []
  {
  }

  lemma DownOfFirst(up: set<Name>, commands: Commands)
    requires commands != []
    ensures Names(commands) == [commands[0].0] + Names(commands[1..])
    ensures Down(up, Names(commands))
            == (if commands[0].0 in up then [] else [commands[0].0]) + Down(up, Names(commands[1..]))
  {
    var n := commands[0].0;
    assert Names(commands) == [n] + Names(commands[1..]);
    FilterConcat([n], Names(commands[1..]), m => m !in up);
    FilterStep([], n, m => m !in up);
    assert [] + [n] == [n];
  }

  lemma AnnouncedOne(n: Name)
    ensures Announced([n]) == [(n, StateChanged(Starting)), (n, StateChanged(Active))]
  {
    assert [n][1..] == [];
  }

  /** Sending a Start turns what is to come into what the actor has to send. */
  lemma DeliverKeepsComing(s: System)
    requires WellFormed(s) && ActorsSettled(s) && CanStep(s, Deliver(true)) && s.outbox[0].1 == Start
    requires KnownRight(s, s.outbox[0].0)
    ensures Coming(AfterDeliver(s, true)) == Coming(s)
  {
    hide WellFormed, Calm, ServiceActor.Step, CanHappen, Announced, Down, Up;
    var n := s.outbox[0].0;
    var t := AfterDeliver(s, true);
    var up := Up(s.boss.snaps);
    StartAnnounces(s.actors[n]);
    DownOfFirst(up, s.outbox);
    AnnouncedConcat(if n in up then [] else [n], Down(up, Names(t.outbox)));
    AnnouncedOne(n);
    var said := if n in up then [] else [(n, StateChanged(Starting)), (n, StateChanged(Active))];
    assert Unsent(t, n) == said;
  }

  lemma DeliverKeepsKnown(s: System)
    requires WellFormed(s) && NamedOnce(s.outbox) && AllKnownRight(s) && CanStep(s, Deliver(true))
    ensures NamedOnce(AfterDeliver(s, true).outbox) && AllKnownRight(AfterDeliver(s, true))
  {
    hide WellFormed, ServiceActor.Step, Up;
    var t := AfterDeliver(s, true);
    assert forall i :: 0 <= i < |t.outbox| ==> t.outbox[i] == s.outbox[i + 1];
    assert Names(s.outbox)[0] == s.outbox[0].0;
    forall n | n in t.boss.pending ensures KnownRight(t, n) && n !in Names(t.outbox) {
      assert KnownRight(s, n);
      DownOfFirst({}, s.outbox);
    }
    forall m | m in t.outbox ensures KnownRight(t, m.0) {
      assert KnownRight(s, m.0);
    }
  }

  lemma FlushKeepsComing(s: System, n: Name)
    requires WellFormed(s) && OthersIdle(s) && CanStep(s, Flush(n))
    ensures Coming(TakeStep(s, Flush(n))) == Coming(s)
  {
    hide WellFormed, Announced, Down, Up;
    OutboxKnown(s);
    var t := TakeStep(s, Flush(n));
    assert Unsent(s, n) == [(n, s.actors[n].events[s.flushed[n]])] + Unsent(t, n);
    assert s.queue + Unsent(s, n) == t.queue + Unsent(t, n);
  }

  lemma ReplyKeepsComing(s: System)
    requires WellFormed(s) && OthersIdle(s) && CanStep(s, Reply)
    ensures Coming(TakeStep(s, Reply)) == Coming(s)
  {
    hide WellFormed, Announced, Down, Up;
    OutboxKnown(s);
    NothingUnsent(s, s.awaiting.value);
  }

  /** Where the line has come to after a step. */
  ghost function LineAfter(s: System, step: Step, line: seq<Name>, k: nat): (seq<Name>, nat) {
    if !step.Consume? || line == [] then (line, k)
    else if k == 1 then (line[1..], 0)
    else
      var up' := Up(s.boss.snaps) + {line[0]};
      (line + Down(up', Unblocked(s.boss.plan, up', s.boss.pending)), 1)
  }

  lemma FirstComing(s: System, line: seq<Name>, k: nat)
    requires InLine(s, line, k) && CanStep(s, Consume)
    ensures line != [] && s.queue == Announced(line)[k..] && |s.queue| == 2 * |line| - k
    ensures s.queue[0] == (line[0], StateChanged(if k == 1 then Active else Starting))
    ensures k == 1 ==> s.queue[1..] == Announced(line[1..])
  {
    hide Settling, AllKnownRight, Up;
    assert Names(s.outbox) == [];
    assert Coming(s) == s.queue;
    if line == [] {
      assert false;
    }
    assert Announced(line)[2..] == Announced(line[1..]);
  }

  lemma ConsumeHears(s: System, line: seq<Name>, k: nat)
    requires InLine(s, line, k) && CanStep(s, Consume)
    ensures line != []
    ensures var t := AfterConsume(s);
            var up' := Up(s.boss.snaps) + {line[0]};
            && t.boss.plan == s.boss.plan && Up(t.boss.snaps) == up'
            && t.boss.snaps.vals.Keys == s.boss.snaps.vals.Keys
            && t.boss.pending == StillBlocked(s.boss.plan, up', s.boss.pending)
            && Names(t.outbox) == Unblocked(s.boss.plan, up', s.boss.pending) && NamedOnce(t.outbox)
            && Coming(t) == s.queue[1..] + Announced(Down(up', Names(t.outbox)))
            && t.actors == s.actors
  {
    hide WellFormed, AllFollow, OthersIdle, ActorsSettled, OnlyUpEvents, OnlyStarts, NobodyForgotten, Announced, Down,
         Unblocked, StillBlocked, OnEvent, NoLostWakeup, Up, PendingEnabled, AllKnownRight;
    FirstComing(s, line, k);
    HearingUp(s.boss, line[0], if k == 1 then Active else Starting);
  }

  lemma ConsumeKeepsKnown(s: System, line: seq<Name>, k: nat)
    requires InLine(s, line, k) && CanStep(s, Consume)
    ensures AllKnownRight(AfterConsume(s))
  {
    hide Settling, Announced, Down, DepsUp, OnEvent, Coming, AfterConsume, Up;
    ConsumeHears(s, line, k);
    var t := AfterConsume(s);
    forall n | n in s.boss.pending ensures KnownRight(t, n) {
      assert KnownRight(s, n);
    }
    forall m | m in t.outbox ensures KnownRight(t, m.0) {
      var i :| 0 <= i < |t.outbox| && t.outbox[i] == m;
      assert Names(t.outbox)[i] == m.0;
      assert m.0 in s.boss.pending;
    }
  }

  lemma SettlingWakes(s: System)
    requires Settling(s)
    ensures NoLostWakeup(s.boss) && forall n :: n in s.boss.pending ==> n in s.boss.snaps.vals
  {
  }

  lemma ConsumeKeepsComing(s: System, line: seq<Name>, k: nat)
    requires InLine(s, line, k) && CanStep(s, Consume)
    ensures var (l, j) := LineAfter(s, Consume, line, k);
            && j <= 1 && j <= |l| && Coming(AfterConsume(s)) == Announced(l)[j..]
            && (j == 1 ==> l[0] in Up(AfterConsume(s).boss.snaps))
            && forall n :: n in l ==> n in AfterConsume(s).boss.snaps.vals && n !in AfterConsume(s).boss.pending
  {
    hide Settling, AllKnownRight, Announced, DepsUp, OnEvent, Coming, AfterConsume, Up;
    ConsumeHears(s, line, k);
    FirstComing(s, line, k);
    SettlingWakes(s);
    var up' := Up(s.boss.snaps) + {line[0]};
    if k == 1 {
      NothingUnblocked(s.boss, line[0]);
    } else {
      AnnouncedConcat(line, Down(up', Unblocked(s.boss.plan, up', s.boss.pending)));
    }
  }

  lemma SameKnown(s: System, t: System)
    requires AllKnownRight(s) && t.boss == s.boss && t.actors == s.actors && t.outbox == s.outbox
    ensures AllKnownRight(t)
  {
    hide Up;
    assert forall n :: KnownRight(s, n) ==> KnownRight(t, n);
  }

  lemma FirstKnown(s: System)
    requires AllKnownRight(s) && s.outbox != []
    ensures KnownRight(s, s.outbox[0].0)
  {
    assert s.outbox[0] in s.outbox;
  }

  lemma StepKeepsLine(s: System, step: Step, line: seq<Name>, k: nat)
    requires InLine(s, line, k) && CanStep(s, step) && BootStep(step)
    ensures var (l, j) := LineAfter(s, step, line, k); InLine(TakeStep(s, step), l, j)
  {
    hide WellFormed, AllFollow, NoLostWakeup, PendingEnabled, OthersIdle, ActorsSettled, OnlyUpEvents, OnlyStarts,
         NobodyForgotten, Announced, DepsUp, Coming, AfterConsume, Up, Down, Unblocked, StillBlocked, AllKnownRight,
         ServiceActor.Step;
    BootStepKeepsSettling(s, step);
    QueueStaysBounded(s, step);
    match step
    case Consume =>
      ConsumeKeepsKnown(s, line, k);
      ConsumeKeepsComing(s, line, k);
      ConsumeHears(s, line, k);
    case Deliver(ok) =>
      FirstIsStart(s);
      FirstKnown(s);
      DeliverKeepsComing(s);
      DeliverKeepsKnown(s);
    case Flush(n) =>
      FlushKeepsComing(s, n);
      SameKnown(s, TakeStep(s, step));
    case Reply =>
      ReplyKeepsComing(s);
      SameKnown(s, TakeStep(s, step));
  }

  lemma RoomForNext(plan: Services, up: set<Name>, waiting: seq<Name>, line: seq<Name>)
    requires line != []
    ensures var up' := up + {line[0]};
            var next := Down(up', Unblocked(plan, up', waiting));
            RoomFor(plan, up, waiting, line)
            <==> |line| + |next| <= 128 && RoomFor(plan, up', StillBlocked(plan, up', waiting), line[1..] + next)
  {
    hide Down, Unblocked, StillBlocked;
  }

  lemma RoomForNobody(plan: Services, up: set<Name>, waiting: seq<Name>)
    ensures RoomFor(plan, up, waiting, [])
  {
  }

  lemma ConsumeKeepsRoom(s: System, line: seq<Name>, k: nat)
    requires InLine(s, line, k) && k <= |line| && CanStep(s, Consume)
    ensures var (l, j) := LineAfter(s, Consume, line, k);
            j <= |l| && (HasRoom(AfterConsume(s), l, j) <==> HasRoom(s, line, k))
  {
    hide InLine, Down, Unblocked, StillBlocked, Up, AfterConsume, CanStep, RoomFor, Coming, Announced;
    ConsumeHears(s, line, k);
    FirstComing(s, line, k);
    QueueIsBounded(s, line, k);
    SettlingWakes(s);
    if k == 1 {
      NothingUnblocked(s.boss, line[0]);
      assert line[1..][0..] == line[1..];
    } else {
      var up' := Up(s.boss.snaps) + {line[0]};
      var next := Down(up', Unblocked(s.boss.plan, up', s.boss.pending));
      assert line[0..] == line && (line + next)[1..] == line[1..] + next;
      RoomForNext(s.boss.plan, Up(s.boss.snaps), s.boss.pending, line);
    }
  }

  /** A step neither makes room nor takes it. */
  lemma StepKeepsRoom(s: System, step: Step, line: seq<Name>, k: nat)
    requires InLine(s, line, k) && k <= |line| && CanStep(s, step) && BootStep(step)
    ensures var (l, j) := LineAfter(s, step, line, k);
            && j <= |l| && InLine(TakeStep(s, step), l, j)
            && (HasRoom(TakeStep(s, step), l, j) <==> HasRoom(s, line, k))
  {
    hide InLine, AfterConsume, ServiceActor.Step, RoomFor, Down, Unblocked, Up;
    StepKeepsLine(s, step, line, k);
    if step.Consume? {
      ConsumeKeepsRoom(s, line, k);
    }
  }

  lemma QueueIsBounded(s: System, line: seq<Name>, k: nat)
    requires InLine(s, line, k)
    ensures |s.queue| <= QUEUE_CAPACITY && Settling(s) && k <= 1 && k <= |line|
    ensures k == 1 ==> line[0] in Up(s.boss.snaps)
  {
  }

  lemma {:induction false} RunKeepsRoom(s: System, steps: seq<Step>, line: seq<Name>, k: nat)
    returns (l: seq<Name>, j: nat)
    requires InLine(s, line, k) && k <= |line| && CanRun(s, steps) && AllBootSteps(steps)
    ensures j <= |l| && InLine(After(s, steps), l, j) && (HasRoom(After(s, steps), l, j) <==> HasRoom(s, line, k))
    decreases |steps|
  {
    hide InLine, CanStep, TakeStep, HasRoom, LineAfter, BootStep;
    if steps == [] {
      return line, k;
    }
    StepKeepsRoom(s, steps[0], line, k);
    var (l', j') := LineAfter(s, steps[0], line, k);
    l, j := RunKeepsRoom(TakeStep(s, steps[0]), steps[1..], l', j');
  }

  // ---------------------------------------------------------------------
  // Where it ends
  // ---------------------------------------------------------------------

  lemma RoomMeansUnstuck(s: System, line: seq<Name>, k: nat)
    requires InLine(s, line, k) && k <= |line| && HasRoom(s, line, k)
    ensures !Stuck(s)
  {
    hide Settling, AllKnownRight, Up, RoomFor, Down;
  }

  lemma RestMeansRoom(s: System, line: seq<Name>, k: nat)
    requires InLine(s, line, k) && k <= |line| && Quiescent(s)
    ensures HasRoom(s, line, k)
  {
    hide Settling, AllKnownRight, Up, RoomFor;
    assert Names(s.outbox) == [];
    assert Coming(s) == [];
    assert line == [] && k == 0;
    RoomForNobody(s.boss.plan, Up(s.boss.snaps), s.boss.pending);
  }

  lemma {:induction false} RunToRest(s: System, line: seq<Name>, k: nat) returns (steps: seq<Step>)
    requires InLine(s, line, k) && k <= |line| && HasRoom(s, line, k)
    ensures AllBootSteps(steps) && CanRun(s, steps) && Quiescent(After(s, steps))
    decreases BootWork(s)
  {
    hide InLine, CanStep, TakeStep, CanRun, After, HasRoom, LineAfter, BootWork, Stuck, Settling, NextBootStep;
    QueueIsBounded(s, line, k);
    if Quiescent(s) {
      RunNothing(s);
      return [];
    }
    RoomMeansUnstuck(s, line, k);
    GoesOnUnlessStuck(s);
    var step := NextBootStep(s);
    StepKeepsRoom(s, step, line, k);
    BootStepWorks(s, step);
    var (l, j) := LineAfter(s, step, line, k);
    var rest := RunToRest(TakeStep(s, step), l, j);
    RunStep(s, step, rest);
    steps := [step] + rest;
  }

  /** Wherever the start-up has come to. */
  lemma RestsExactly(s: System, line: seq<Name>, k: nat)
    requires InLine(s, line, k) && k <= |line|
    ensures (exists steps :: AllBootSteps(steps) && CanRun(s, steps) && Quiescent(After(s, steps)))
            <==> HasRoom(s, line, k)
  {
    hide InLine, CanRun, After, HasRoom, Quiescent;
    if HasRoom(s, line, k) {
      var steps := RunToRest(s, line, k);
    }
    forall steps | AllBootSteps(steps) && CanRun(s, steps) && Quiescent(After(s, steps))
      ensures HasRoom(s, line, k)
    {
      var l, j := RunKeepsRoom(s, steps, line, k);
      RestMeansRoom(After(s, steps), l, j);
    }
  }

  // ---------------------------------------------------------------------
  // Loads
  // ---------------------------------------------------------------------

  lemma EnabledInTwo(b: Overlord.State)
    requires forall n :: n in b.plan.keys ==> n in b.plan.vals
    ensures ReadyNow(b) == Unblocked(b.plan, Up(b.snaps), EnabledNames(b.plan))
    ensures WaitingNow(b) == StillBlocked(b.plan, Up(b.snaps), EnabledNames(b.plan))
  {
    hide DepsRunning, DepsUp, Up, Filter, IsEnabled;
    var up := Up(b.snaps);
    forall n | n in b.plan.keys ensures DepsRunning(b.plan, b.snaps, n) == DepsUp(b.plan, up, n) {
      DepsRunningIsUp(b.plan, b.snaps, n);
    }
    FilterTwice(b.plan.keys, n => IsEnabled(b.plan, n), n => DepsUp(b.plan, up, n),
                n => ReadyToStart(b.plan, b.snaps, n));
    FilterTwice(b.plan.keys, n => IsEnabled(b.plan, n), n => !DepsUp(b.plan, up, n),
                n => MustWait(b.plan, b.snaps, n));
  }

  /** What a load makes of the enabled services. */
  lemma ReloadSplits(b: Overlord.State, plan: Services)
    requires plan.Valid()
    ensures var (b', commands) := Overlord.Reload(b, plan);
            var up := Up(b.snaps) * plan.vals.Keys;
            && b'.plan == plan && Up(b'.snaps) == up && b'.snaps.vals.Keys == plan.vals.Keys
            && b'.pending == StillBlocked(plan, up, EnabledNames(plan))
            && Names(commands) == Unblocked(plan, up, EnabledNames(plan))
  {
    hide Filter, AddAll, ToAll, DepsRunning, DepsUp, Unblocked, StillBlocked;
    var loaded := State(plan, SyncActors(b.snaps, plan), []);
    EnabledInTwo(loaded);
    FilterDistinct(plan.keys, n => MustWait(loaded.plan, loaded.snaps, n));
    AddAllToEmpty(WaitingNow(loaded));
    NamesOfToAll(loaded.snaps, ReadyNow(loaded), Start);
  }

  lemma LoadKnowsRight(s: System, plan: Services)
    requires Synchronised(s) && CanStep(s, Load(plan))
    ensures forall n :: n in plan.vals ==> KnownRight(AfterLoad(s, plan), n)
  {
    hide AfterLoad, WellFormed, NoLostWakeup, PendingEnabled, OnlyUpEvents, OnlyStarts, NobodyForgotten, Synchronised,
         Tracked;
    LoadSettles(s, plan);
    LoadKeepsActors(s, plan);
    var t := AfterLoad(s, plan);
    Domains(t);
    forall n | n in plan.vals ensures KnownRight(t, n) {
      assert Follows(t, n);
      FollowsMeans(t, n);
      assert Project(t.queue, n) == [];
    }
  }

  /** The services started right away. */
  ghost function FirstLine(s: System, plan: Services): seq<Name> {
    var up := Up(s.boss.snaps) * plan.vals.Keys;
    Down(up, Unblocked(plan, up, EnabledNames(plan)))
  }

  lemma LoadAllKnownRight(s: System, plan: Services)
    requires Synchronised(s) && CanStep(s, Load(plan))
    ensures AllKnownRight(AfterLoad(s, plan))
    ensures forall n :: n in FirstLine(s, plan) ==> n in plan.vals && n !in AfterLoad(s, plan).boss.pending
  {
    hide AfterLoad, Synchronised, Up, RoomFor, DepsUp, KnownRight, Announced, Overlord.Reload;
    LoadKnowsRight(s, plan);
    LoadShape(s, plan);
    ReloadSplits(s.boss, plan);
    var t := AfterLoad(s, plan);
    forall m | m in t.outbox ensures KnownRight(t, m.0) {
      var i :| 0 <= i < |t.outbox| && t.outbox[i] == m;
      assert Names(t.outbox)[i] == m.0;
    }
  }

  lemma LoadIsInLine(s: System, plan: Services)
    requires Synchronised(s) && CanStep(s, Load(plan))
    ensures var t := AfterLoad(s, plan);
            var line := FirstLine(s, plan);
            InLine(t, line, 0) && HasRoom(t, line, 0) == RoomToStart(plan, Up(s.boss.snaps) * plan.vals.Keys)
  {
    hide AfterLoad, Synchronised, Settling, Up, RoomFor, Unblocked, StillBlocked, Down, Announced, Overlord.Reload,
         AllKnownRight;
    LoadSettles(s, plan);
    LoadKeepsActors(s, plan);
    LoadAllKnownRight(s, plan);
    LoadShape(s, plan);
    ReloadSplits(s.boss, plan);
    ReloadStartsOnce(s.boss, plan);
    var t, line := AfterLoad(s, plan), FirstLine(s, plan);
    assert line[0..] == line && Announced(line)[0..] == Announced(line);
    assert Coming(t) == Announced(line);
    if line != [] {
      RoomForNext(plan, Up(t.boss.snaps), t.boss.pending, line);
    }
  }

  lemma LoadShape(s: System, plan: Services)
    ensures var t := AfterLoad(s, plan);
            t.boss == Overlord.Reload(s.boss, plan).0 && t.outbox == Overlord.Reload(s.boss, plan).1
  {
    hide Overlord.Reload, Leftovers, Filter;
  }

  /**
    A load into a synchronised system, the first one or a reload, can be brought to rest exactly if the services it
    starts never stand in line with more than 128.
    */
  lemma LoadRestsExactly(s: System, plan: Services)
    requires Synchronised(s) && CanStep(s, Load(plan))
    ensures (exists steps :: && AllBootSteps(steps) && CanRun(AfterLoad(s, plan), steps)
                             && Quiescent(After(AfterLoad(s, plan), steps)))
            <==> RoomToStart(plan, Up(s.boss.snaps) * plan.vals.Keys)
  {
    hide AfterLoad, Synchronised, InLine, CanRun, After, HasRoom, Quiescent, RoomToStart, FirstLine;
    LoadIsInLine(s, plan);
    RestsExactly(AfterLoad(s, plan), FirstLine(s, plan), 0);
  }

  /** The first load: nothing is up. */
  lemma BootRestsExactly(plan: Services)
    requires plan.Valid()
    ensures (exists steps :: && AllBootSteps(steps) && CanRun(Booted(plan), steps)
                             && Quiescent(After(Booted(plan), steps)))
            <==> RoomToStart(plan, {})
  {
    hide AfterLoad, Synchronised, CanRun, After, Quiescent, RoomToStart;
    NothingIsSynchronised();
    BootedWellFormed(plan);
    assert Up(Nothing().boss.snaps) * plan.vals.Keys == {};
    LoadRestsExactly(Nothing(), plan);
  }

  /**
    How it is scheduled does not matter: with room no schedule gets stuck, and without room every schedule ends in the
    deadlock, in both cases after a bounded number of steps.
    */
  lemma LoadEndsExactly(s: System, plan: Services, steps: seq<Step>)
    requires Synchronised(s) && CanStep(s, Load(plan))
    requires CanRun(AfterLoad(s, plan), steps) && AllBootSteps(steps)
    requires forall step :: BootStep(step) ==> !CanStep(After(AfterLoad(s, plan), steps), step)
    ensures |steps| <= BootWork(AfterLoad(s, plan))
    ensures var t := After(AfterLoad(s, plan), steps);
            if RoomToStart(plan, Up(s.boss.snaps) * plan.vals.Keys) then Quiescent(t) else Stuck(t)
  {
    hide AfterLoad, Synchronised, InLine, CanRun, After, HasRoom, Quiescent, RoomToStart, FirstLine, Settling, Stuck,
         CanStep, BootWork, BootStep;
    LoadIsInLine(s, plan);
    LoadSettles(s, plan);
    BootRunsAreShort(AfterLoad(s, plan), steps);
    var t := After(AfterLoad(s, plan), steps);
    var line, k := RunKeepsRoom(AfterLoad(s, plan), steps, FirstLine(s, plan), 0);
    QueueIsBounded(t, line, k);
    if HasRoom(t, line, k) {
      RoomMeansUnstuck(t, line, k);
    } else if Quiescent(t) {
      RestMeansRoom(t, line, k);
    }
    if !Quiescent(t) && !Stuck(t) {
      GoesOnUnlessStuck(t);
    }
  }
}
