/**
  Rounds of commands against the bounded event queue: while the supervisor sends the commands of one handler it takes
  no event out of the queue, but an actor has to put in the events of a command before it replies.
  */
module QueueBound {
  import opened Prelude
  import opened ServiceActor
  import opened ActorHistory
  import opened Overlord
  import opened Supervision

  /** The steps of a round: sending, replying, and the events that have to leave in between. */
  predicate RoundStep(step: Step) {
    step.Deliver? || step.Reply? || step.Flush?
  }

  predicate AllRoundSteps(steps: seq<Step>) {
    forall step :: step in steps ==> RoundStep(step)
  }

  /** What the spawns of a run come to, one outcome a command sent. */
  function Outcomes(steps: seq<Step>): seq<bool> {
    if steps == [] then []
    else (if steps[0].Deliver? then [steps[0].ok] else []) + Outcomes(steps[1..])
  }

  /** Only the actor whose reply is awaited has events left to send, those of its command. */
  ghost predicate OthersIdle(s: System) {
    && (forall n :: n in s.actors && s.awaiting != Some(n) ==> Idle(s, n))
    && (s.awaiting.Some? && s.awaiting.value in s.actors ==> s.owed == |s.actors[s.awaiting.value].events|)
  }

  /** Events the awaited actor has to send before it replies. */
  function Backlog(s: System): nat {
    if s.awaiting.Some? && s.awaiting.value in s.flushed && s.flushed[s.awaiting.value] < s.owed
    then s.owed - s.flushed[s.awaiting.value]
    else 0
  }

  function Handled(a: ActorState, c: Command, ok: bool): ActorState {
    if CanHappen(a, AsInput(c, ok)) then ServiceActor.Step(a, AsInput(c, ok)) else a
  }

  /** How many events one command makes an actor send. */
  function EventsOf(a: ActorState, c: Command, ok: bool): (n: nat)
    ensures n <= 2
  {
    CommandEmitsAtMostTwo(a, c, ok);
    |Handled(a, c, ok).events| - |a.events|
  }

  /** By command and state: a start sends two, a stop of something running one, and so does the end of a backoff. */
  lemma CommandEmitsAtMostTwo(a: ActorState, c: Command, ok: bool)
    ensures |a.events| <= |Handled(a, c, ok).events| <= |a.events| + 2
    ensures !a.halted ==>
              |Handled(a, c, ok).events| - |a.events|
              == match c
                 case Start => if CanStartAfresh(a) then 2 else 0
                 case Stop => if a.state.IsRunning() || a.state == ServiceState.Backoff then 1 else 0
                 case Restart => if CanStartAfresh(a) then 2 else 1
  {
    hide Config.Delay;
  }

  predicate CanStartAfresh(a: ActorState) {
    a.state in {Inactive, ServiceState.Backoff, Error}
  }

  /** All events the commands make their actors send, each actor handling its own in turn. */
  function Emitted(actors: map<Name, ActorState>, outbox: Commands, oks: seq<bool>): nat {
    if outbox == [] || oks == [] then 0
    else
      var (name, c) := outbox[0];
      if name in actors then
        EventsOf(actors[name], c, oks[0])
        + Emitted(actors[name := Handled(actors[name], c, oks[0])], outbox[1..], oks[1..])
      else Emitted(actors, outbox[1..], oks[1..])
  }

  // ---------------------------------------------------------------------
  // Any round
  // ---------------------------------------------------------------------

  /** The supervisor is sending commands, and nobody else has anything to say. */
  ghost predicate InRound(s: System) {
    WellFormed(s) && OthersIdle(s) && !s.halted
  }

  /** The room the round will have used in the queue when it is over. */
  function Demand(s: System, oks: seq<bool>): nat {
    |s.queue| + Backlog(s) + Emitted(s.actors, s.outbox, oks)
  }

  /** The outcomes still to come after a step. */
  function Left(step: Step, oks: seq<bool>): seq<bool> {
    if step.Deliver? && oks != [] then oks[1..] else oks
  }

  predicate Agrees(step: Step, oks: seq<bool>) {
    step.Deliver? ==> oks != [] && oks[0] == step.ok
  }

  lemma OutboxKnown(s: System)
    requires WellFormed(s)
    ensures forall i :: 0 <= i < |s.outbox| ==> s.outbox[i].0 in s.actors
    ensures s.flushed.Keys == s.actors.Keys
    ensures forall n :: n in s.actors ==> s.flushed[n] <= |s.actors[n].events|
    ensures s.awaiting.Some? ==> s.awaiting.value in s.actors && s.owed <= |s.actors[s.awaiting.value].events|
    ensures forall n :: n in s.actors ==> !s.actors[n].halted
  {
    hide Told;
    assert forall i :: 0 <= i < |s.outbox| ==> s.outbox[i] in s.outbox;
  }

  lemma DeliverKeepsDemand(s: System, oks: seq<bool>)
    requires InRound(s) && |oks| == |s.outbox| > 0 && CanStep(s, Deliver(oks[0]))
    ensures InRound(AfterDeliver(s, oks[0])) && Demand(AfterDeliver(s, oks[0]), oks[1..]) == Demand(s, oks)
  {
    hide ServiceActor.Step, CanHappen, Told, WellFormed;
    DeliverKeepsWellFormed(s, oks[0]);
    OutboxKnown(s);
    var (name, c) := s.outbox[0];
    RunningTakesCommands(s.actors[name], c, oks[0]);
    CommandEmitsAtMostTwo(s.actors[name], c, oks[0]);
  }

  lemma RoundStepKeepsDemand(s: System, step: Step, oks: seq<bool>)
    requires InRound(s) && CanStep(s, step) && RoundStep(step) && |oks| == |s.outbox| && Agrees(step, oks)
    ensures InRound(TakeStep(s, step)) && |Left(step, oks)| == |TakeStep(s, step).outbox|
    ensures Demand(TakeStep(s, step), Left(step, oks)) == Demand(s, oks)
  {
    hide ServiceActor.Step, CanHappen, WellFormed, AfterDeliver, Emitted;
    StepKeepsWellFormed(s, step);
    OutboxKnown(s);
    if step.Deliver? {
      DeliverKeepsDemand(s, oks);
      OneLessToSend(s, step.ok);
    }
  }

  lemma OneLessToSend(s: System, ok: bool)
    requires CanStep(s, Deliver(ok))
    ensures AfterDeliver(s, ok).outbox == s.outbox[1..]
  {
    hide ServiceActor.Step;
  }

  lemma OutcomesStep(steps: seq<Step>, oks: seq<bool>)
    requires steps != [] && Outcomes(steps) <= oks
    ensures Agrees(steps[0], oks) && Outcomes(steps[1..]) <= Left(steps[0], oks)
    ensures oks[|Outcomes(steps)|..] == Left(steps[0], oks)[|Outcomes(steps[1..])|..]
  {
    var first := if steps[0].Deliver? then [steps[0].ok] else [];
    assert Outcomes(steps) == first + Outcomes(steps[1..]);
    if steps[0].Deliver? {
      assert oks[0] == Outcomes(steps)[0];
      assert forall i :: 0 <= i < |Outcomes(steps[1..])| ==> oks[1..][i] == Outcomes(steps)[i + 1];
    }
  }

  lemma {:induction false} RoundKeepsDemand(s: System, steps: seq<Step>, oks: seq<bool>)
    requires InRound(s) && CanRun(s, steps) && AllRoundSteps(steps)
    requires |oks| == |s.outbox| && Outcomes(steps) <= oks && |s.queue| <= QUEUE_CAPACITY
    ensures var t := After(s, steps);
            && InRound(t) && |t.queue| <= QUEUE_CAPACITY
            && |oks[|Outcomes(steps)|..]| == |t.outbox|
            && Demand(t, oks[|Outcomes(steps)|..]) == Demand(s, oks)
    decreases |steps|
  {
    hide InRound, CanStep, TakeStep, Demand, Agrees, Left, Outcomes;
    if steps == [] {
      NoOutcomes();
      assert oks[0..] == oks;
    } else {
      OutcomesStep(steps, oks);
      RoundStepKeepsDemand(s, steps[0], oks);
      QueueStaysBounded(s, steps[0]);
      RoundKeepsDemand(TakeStep(s, steps[0]), steps[1..], Left(steps[0], oks));
    }
  }

  lemma NoOutcomes()
    ensures Outcomes([]) == []
  {
  }

  /** An actor waits while the queue is full. */
  lemma QueueStaysBounded(s: System, step: Step)
    requires CanStep(s, step) && |s.queue| <= QUEUE_CAPACITY
    ensures |TakeStep(s, step).queue| <= QUEUE_CAPACITY
  {
    hide ServiceActor.Step, CanHappen, OnEvent, Overlord.Reload, Leftovers, Filter, Known;
  }

  ghost predicate RoundOver(s: System) {
    s.outbox == [] && s.awaiting == None
  }

  /** Each round step makes this smaller. */
  function WorkLeft(s: System): nat {
    4 * |s.outbox| + Backlog(s) + if s.awaiting.Some? then 1 else 0
  }

  lemma RoundStepWorks(s: System, step: Step)
    requires InRound(s) && CanStep(s, step) && RoundStep(step)
    ensures WorkLeft(TakeStep(s, step)) < WorkLeft(s)
  {
    hide ServiceActor.Step, CanHappen, WellFormed;
    OutboxKnown(s);
    if step.Deliver? {
      var (name, c) := s.outbox[0];
      RunningTakesCommands(s.actors[name], c, step.ok);
      CommandEmitsAtMostTwo(s.actors[name], c, step.ok);
    }
  }

  /** The awaited actor has an event of its command to send and the queue has no room for it. */
  ghost predicate Stuck(s: System) {
    && s.awaiting.Some? && s.awaiting.value in s.actors && s.awaiting.value in s.flushed
    && s.flushed[s.awaiting.value] < s.owed <= |s.actors[s.awaiting.value].events|
    && |s.queue| >= QUEUE_CAPACITY
  }

  function NextRoundStep(s: System, ok: bool): Step {
    if s.awaiting.None? then Deliver(ok)
    else if Backlog(s) > 0 then Flush(s.awaiting.value)
    else Reply
  }

  /** A round that is not over goes on unless it is stuck. */
  lemma RoundGoesOn(s: System, ok: bool)
    requires InRound(s) && !RoundOver(s) && !Stuck(s)
    ensures CanStep(s, NextRoundStep(s, ok)) && RoundStep(NextRoundStep(s, ok))
  {
    hide WellFormed;
    OutboxKnown(s);
  }

  lemma RoomMeansNotStuck(s: System, oks: seq<bool>)
    requires Demand(s, oks) <= QUEUE_CAPACITY
    ensures !Stuck(s)
  {
    hide Emitted;
  }

  lemma {:induction false} FinishRound(s: System, oks: seq<bool>) returns (steps: seq<Step>)
    requires InRound(s) && |oks| == |s.outbox| && Demand(s, oks) <= QUEUE_CAPACITY
    ensures AllRoundSteps(steps) && CanRun(s, steps) && Outcomes(steps) == oks && RoundOver(After(s, steps))
    decreases WorkLeft(s)
  {
    hide InRound, CanStep, TakeStep, CanRun, After, Demand, Stuck;
    if RoundOver(s) {
      RunNothing(s);
      return [];
    }
    RoomMeansNotStuck(s, oks);
    var step := NextRoundStep(s, oks != [] && oks[0]);
    RoundGoesOn(s, oks != [] && oks[0]);
    RoundStepKeepsDemand(s, step, oks);
    RoundStepWorks(s, step);
    var rest := FinishRound(TakeStep(s, step), Left(step, oks));
    RunStep(s, step, rest);
    steps := [step] + rest;
    assert steps[1..] == rest && steps[0] == step;
  }

  /**
    A round of any commands, whatever its spawns come to, can be brought to its end exactly when its events fit into
    the queue beside what is already there.
    */
  lemma RoundCompletesExactly(s: System, oks: seq<bool>)
    requires InRound(s) && |oks| == |s.outbox| && |s.queue| <= QUEUE_CAPACITY
    ensures (exists steps :: && AllRoundSteps(steps) && CanRun(s, steps) && Outcomes(steps) == oks
                             && RoundOver(After(s, steps)))
            <==> |s.queue| + Backlog(s) + Emitted(s.actors, s.outbox, oks) <= QUEUE_CAPACITY
  {
    hide InRound, CanRun, After, Emitted, Outcomes;
    if Demand(s, oks) <= QUEUE_CAPACITY {
      var steps := FinishRound(s, oks);
    }
    forall steps | AllRoundSteps(steps) && CanRun(s, steps) && Outcomes(steps) == oks && RoundOver(After(s, steps))
      ensures Demand(s, oks) <= QUEUE_CAPACITY
    {
      RoundKeepsDemand(s, steps, oks);
      NothingEmitted(After(s, steps));
    }
  }

  lemma NothingEmitted(s: System)
    requires RoundOver(s)
    ensures forall oks :: Demand(s, oks) == |s.queue|
  {
  }

  lemma {:induction false} RoundRunsAreShort(s: System, steps: seq<Step>)
    requires InRound(s) && CanRun(s, steps) && AllRoundSteps(steps)
    ensures InRound(After(s, steps)) && |steps| + WorkLeft(After(s, steps)) <= WorkLeft(s)
    decreases |steps|
  {
    hide InRound, WorkLeft, CanStep, TakeStep;
    if steps != [] {
      RoundStepKeepsShape(s, steps[0]);
      RoundStepWorks(s, steps[0]);
      RoundRunsAreShort(TakeStep(s, steps[0]), steps[1..]);
    }
  }

  lemma RoundStepKeepsShape(s: System, step: Step)
    requires InRound(s) && CanStep(s, step) && RoundStep(step)
    ensures InRound(TakeStep(s, step))
  {
    hide InRound, CanStep, TakeStep, Demand;
    if step.Deliver? {
      DeliverNeedsOutbox(s, step);
    }
    var oks := if step.Deliver? then seq(|s.outbox|, i => step.ok) else seq(|s.outbox|, i => true);
    RoundStepKeepsDemand(s, step, oks);
  }

  lemma DeliverNeedsOutbox(s: System, step: Step)
    requires CanStep(s, step) && step.Deliver?
    ensures s.outbox != []
  {
  }

  /**
    Beyond the bound the round gets stuck: after finitely many steps nothing is left to do, and it is not over.
    */
  lemma TooManyEventsGetStuck(s: System, steps: seq<Step>, oks: seq<bool>)
    requires InRound(s) && |oks| == |s.outbox| && |s.queue| <= QUEUE_CAPACITY
    requires |s.queue| + Backlog(s) + Emitted(s.actors, s.outbox, oks) > QUEUE_CAPACITY
    requires CanRun(s, steps) && AllRoundSteps(steps) && Outcomes(steps) <= oks
    ensures |steps| <= WorkLeft(s) && !RoundOver(After(s, steps))
    ensures (forall step :: RoundStep(step) ==> !CanStep(After(s, steps), step)) <==> Stuck(After(s, steps))
  {
    hide InRound, CanRun, After, Emitted, Outcomes, Stuck;
    RoundKeepsDemand(s, steps, oks);
    RoundRunsAreShort(s, steps);
    var t := After(s, steps);
    if RoundOver(t) {
      NothingEmitted(t);
    } else if Stuck(t) {
      StuckMeansNoRoundStep(t);
    } else {
      RoundGoesOn(t, true);
    }
  }

  lemma StuckMeansNoRoundStep(s: System)
    requires InRound(s) && Stuck(s)
    ensures forall step :: RoundStep(step) ==> !CanStep(s, step)
  {
    hide WellFormed;
  }

  // ---------------------------------------------------------------------
  // Rounds of starts and rounds of stops
  // ---------------------------------------------------------------------

  /** Each service is named once. */
  ghost predicate NamedOnce(outbox: Commands) {
    forall i, j :: 0 <= i < j < |outbox| ==> outbox[i].0 != outbox[j].0
  }

  /** What a command makes its actor send, the outcome of a spawn not mattering. */
  function EventsOfFirst(actors: map<Name, ActorState>, m: (Name, Command)): nat {
    if m.0 in actors then EventsOf(actors[m.0], m.1, true) else 0
  }

  function EmittedAtOnce(actors: map<Name, ActorState>, outbox: Commands): nat {
    if outbox == [] then 0 else EventsOfFirst(actors, outbox[0]) + EmittedAtOnce(actors, outbox[1..])
  }

  lemma SameEvents(a: ActorState, c: Command, ok: bool)
    requires !a.halted
    ensures EventsOf(a, c, ok) == EventsOf(a, c, true)
  {
    hide Handled;
    CommandEmitsAtMostTwo(a, c, ok);
    CommandEmitsAtMostTwo(a, c, true);
  }

  /** When each service is named once, its state before the round decides. */
  lemma {:induction false} NamedOnceEmits(actors: map<Name, ActorState>, outbox: Commands, oks: seq<bool>)
    requires NamedOnce(outbox) && |oks| == |outbox|
    requires forall n :: n in actors ==> !actors[n].halted
    ensures Emitted(actors, outbox, oks) == EmittedAtOnce(actors, outbox)
    decreases |outbox|
  {
    hide EventsOf, Handled;
    if outbox != [] {
      var (name, c) := outbox[0];
      var rest := outbox[1..];
      assert forall i :: 0 <= i < |rest| ==> rest[i] == outbox[i + 1];
      if name in actors {
        var b := Handled(actors[name], c, oks[0]);
        SameEvents(actors[name], c, oks[0]);
        StaysUp(actors[name], c, oks[0]);
        NamedOnceEmits(actors[name := b], rest, oks[1..]);
        OthersUnchanged(actors, actors[name := b], rest);
      } else {
        NamedOnceEmits(actors, rest, oks[1..]);
      }
    }
  }

  lemma StaysUp(a: ActorState, c: Command, ok: bool)
    requires !a.halted
    ensures !Handled(a, c, ok).halted
  {
    RunningTakesCommands(a, c, ok);
    StaysRunning(a, AsInput(c, ok));
  }

  lemma {:induction false} OthersUnchanged(before: map<Name, ActorState>, after: map<Name, ActorState>,
                                           outbox: Commands)
    requires before.Keys == after.Keys
    requires forall i :: 0 <= i < |outbox| && outbox[i].0 in before ==> before[outbox[i].0] == after[outbox[i].0]
    ensures EmittedAtOnce(before, outbox) == EmittedAtOnce(after, outbox)
    decreases |outbox|
  {
    hide EventsOf;
    if outbox != [] {
      assert forall i :: 0 <= i < |outbox[1..]| ==> outbox[1..][i] == outbox[i + 1];
      OthersUnchanged(before, after, outbox[1..]);
    }
  }

  /** A round in which each service is named once can be completed exactly if its events fit, spawn outcomes aside. */
  lemma RoundOfOnceCompletesExactly(s: System)
    requires InRound(s) && NamedOnce(s.outbox) && |s.queue| <= QUEUE_CAPACITY
    ensures (exists steps :: AllRoundSteps(steps) && CanRun(s, steps) && RoundOver(After(s, steps)))
            <==> |s.queue| + Backlog(s) + EmittedAtOnce(s.actors, s.outbox) <= QUEUE_CAPACITY
  {
    hide CanRun, After, Emitted, EmittedAtOnce, NamedOnce, Outcomes, WellFormed;
    OutboxKnown(s);
    var oks := seq(|s.outbox|, i => true);
    NamedOnceEmits(s.actors, s.outbox, oks);
    RoundCompletesExactly(s, oks);
    forall steps | AllRoundSteps(steps) && CanRun(s, steps) && RoundOver(After(s, steps))
      ensures |s.queue| + Backlog(s) + EmittedAtOnce(s.actors, s.outbox) <= QUEUE_CAPACITY
    {
      OutcomesCount(s, steps);
      NamedOnceEmits(s.actors, s.outbox, Outcomes(steps));
      RoundCompletesExactly(s, Outcomes(steps));
    }
  }

  /** A finished round has had one outcome a command. */
  lemma {:induction false} OutcomesCount(s: System, steps: seq<Step>)
    requires CanRun(s, steps) && AllRoundSteps(steps)
    ensures |Outcomes(steps)| + |After(s, steps).outbox| == |s.outbox|
    decreases |steps|
  {
    hide CanStep, TakeStep;
    if steps != [] {
      assert RoundStep(steps[0]);
      OutboxAfterStep(s, steps[0]);
      OutcomesCount(TakeStep(s, steps[0]), steps[1..]);
    }
  }

  lemma OutboxAfterStep(s: System, step: Step)
    requires CanStep(s, step) && RoundStep(step)
    ensures |TakeStep(s, step).outbox| == |s.outbox| - if step.Deliver? then 1 else 0
  {
    hide ServiceActor.Step;
  }

  /** All commands are the same, and each of them makes its actor send `k` events. */
  ghost predicate Uniform(actors: map<Name, ActorState>, outbox: Commands, k: nat) {
    forall i :: 0 <= i < |outbox| ==> EventsOfFirst(actors, outbox[i]) == k
  }

  lemma {:induction false} UniformEmits(actors: map<Name, ActorState>, outbox: Commands, k: nat)
    requires Uniform(actors, outbox, k)
    ensures EmittedAtOnce(actors, outbox) == k * |outbox|
    decreases |outbox|
  {
    hide EventsOfFirst;
    if outbox != [] {
      assert forall i :: 0 <= i < |outbox[1..]| ==> outbox[1..][i] == outbox[i + 1];
      UniformEmits(actors, outbox[1..], k);
      assert k * |outbox| == k + k * |outbox[1..]|;
    }
  }

  /** Starts of services none of which is running or stopping take two places in the queue each. */
  lemma StartsCompleteExactly(s: System)
    requires InRound(s) && NamedOnce(s.outbox) && s.awaiting == None && |s.queue| <= QUEUE_CAPACITY
    requires forall i :: 0 <= i < |s.outbox| ==>
               s.outbox[i].1 == Start && s.outbox[i].0 in s.actors && CanStartAfresh(s.actors[s.outbox[i].0])
    ensures (exists steps :: AllRoundSteps(steps) && CanRun(s, steps) && RoundOver(After(s, steps)))
            <==> |s.queue| + 2 * |s.outbox| <= QUEUE_CAPACITY
  {
    hide CanRun, After, EmittedAtOnce, NamedOnce, WellFormed, Handled;
    OutboxKnown(s);
    forall i | 0 <= i < |s.outbox| ensures EventsOfFirst(s.actors, s.outbox[i]) == 2 {
      CommandEmitsAtMostTwo(s.actors[s.outbox[i].0], Start, true);
    }
    UniformEmits(s.actors, s.outbox, 2);
    RoundOfOnceCompletesExactly(s);
  }

  /** Stops of running services take one place each. */
  lemma StopsCompleteExactly(s: System)
    requires InRound(s) && NamedOnce(s.outbox) && s.awaiting == None && |s.queue| <= QUEUE_CAPACITY
    requires forall i :: 0 <= i < |s.outbox| ==>
               s.outbox[i].1 == Stop && s.outbox[i].0 in s.actors && s.actors[s.outbox[i].0].state.IsRunning()
    ensures (exists steps :: AllRoundSteps(steps) && CanRun(s, steps) && RoundOver(After(s, steps)))
            <==> |s.queue| + |s.outbox| <= QUEUE_CAPACITY
  {
    hide CanRun, After, EmittedAtOnce, NamedOnce, WellFormed, Handled;
    OutboxKnown(s);
    forall i | 0 <= i < |s.outbox| ensures EventsOfFirst(s.actors, s.outbox[i]) == 1 {
      CommandEmitsAtMostTwo(s.actors[s.outbox[i].0], Stop, true);
    }
    UniformEmits(s.actors, s.outbox, 1);
    RoundOfOnceCompletesExactly(s);
  }

  // ---------------------------------------------------------------------
  // A stuck system stays stuck
  // ---------------------------------------------------------------------

  /** Nothing any task can do ends the deadlock. */
  lemma StuckForever(s: System, step: Step)
    requires Stuck(s) && CanStep(s, step)
    ensures Stuck(TakeStep(s, step)) && TakeStep(s, step).awaiting == s.awaiting
    ensures TakeStep(s, step).queue == s.queue && TakeStep(s, step).outbox == s.outbox
  {
    hide ServiceActor.Step, CanHappen, OnEvent, Overlord.Reload, Leftovers, Filter, Known;
  }

  lemma {:induction false} Deadlock(s: System, steps: seq<Step>)
    requires Stuck(s) && CanRun(s, steps)
    ensures Stuck(After(s, steps)) && After(s, steps).queue == s.queue && After(s, steps).outbox == s.outbox
    decreases |steps|
  {
    hide Stuck, CanStep, TakeStep;
    if steps != [] {
      StuckForever(s, steps[0]);
      Deadlock(TakeStep(s, steps[0]), steps[1..]);
    }
  }
}
