/** Who gets whose exit status, in every interleaving of exits, waits, the reaper and lookups. */
module ReaperRace {
  import opened Prelude
  import opened Reaper

  /** Somebody may still collect, record or ask for the exit of this process. */
  predicate Unfinished(w: World, id: nat)
    requires id < |w.processes|
  {
    var p := w.processes[id];
    !p.collected || w.held == Some(id) || p.waiter.Waiting? || p.waiter.Looking?
  }

  /** The next status the reaper records drops the record of this PID. */
  predicate Expiring(w: World, pid: int)
    requires pid in w.reaped
  {
    w.held.Some? && w.reaped[pid].at + REAPED_KEEP <= w.now
  }

  /**
    Nothing is left of an earlier process with this PID: no unanswered waiter, no status in the reaper's hands, and no
    record, other than one that goes before the reaper can collect the new process.
    */
  predicate FreshPid(w: World, pid: int) {
    && (pid in w.reaped ==> Expiring(w, pid))
    && forall id :: 0 <= id < |w.processes| && w.processes[id].pid == pid ==> !Unfinished(w, id)
  }

  /** Every process of the run gets a PID of which nothing is left. */
  ghost predicate FreshPids(w: World, steps: seq<Step>)
    requires CanRun(w, steps)
    decreases |steps|
  {
    steps != [] ==>
      && FreshPids(w, steps[..|steps| - 1])
      && (steps[|steps| - 1].Spawn? ==> FreshPid(After(w, steps[..|steps| - 1]), steps[|steps| - 1].pid))
  }

  /** The record of this process is there, unless the keep window is over. */
  predicate RecordThere(w: World, p: Process) {
    && p.ended.Some? && p.recordedAt.Some?
    && (w.now < p.recordedAt.value + REAPED_KEEP ==>
          p.pid in w.reaped && w.reaped[p.pid].at == p.recordedAt.value)
  }

  predicate ProcessInOrder(w: World, id: nat)
    requires id < |w.processes|
  {
    var p := w.processes[id];
    && (p.ended.Some? ==> Valid(p.ended.value))
    && (p.collected ==> p.ended.Some?)
    && (p.waiter.Looking? ==> p.collected)
    && (w.held == Some(id) ==> p.collected)
    && (p.waiter.Done? && p.waiter.result.Some? ==> p.ended == p.waiter.result)
    && (!p.collected ==> p.pid in w.reaped ==> Expiring(w, p.pid))
    && (w.held == Some(id) ==> p.pid !in w.reaped)
    && (p.collected && w.held != Some(id) && (p.waiter.Waiting? || p.waiter.Looking?) ==>
          RecordThere(w, p) && (p.pid in w.reaped ==> w.reaped[p.pid].raw == Encode(p.ended.value)))
  }

  predicate InOrder(w: World) {
    && (forall id :: 0 <= id < |w.processes| ==> ProcessInOrder(w, id))
    && (w.held.Some? ==> w.held.value < |w.processes|)
    && (forall pid :: pid in w.reaped ==> Decode(w.reaped[pid].raw).Some?)
    && (forall i, j :: (0 <= i < |w.processes| && 0 <= j < |w.processes| && i != j
                        && Unfinished(w, i) && Unfinished(w, j)) ==> w.processes[i].pid != w.processes[j].pid)
  }

  lemma KeepKeepsOrder(w: World)
    requires InOrder(w) && CanStep(w, Keep)
    ensures InOrder(TakeStep(w, Keep))
  {
    hide Encode, Decode;
    var t := TakeStep(w, Keep);
    assert ProcessInOrder(w, w.held.value);
    DecodesExactly(w.processes[w.held.value].ended.value);
    forall id | 0 <= id < |t.processes| ensures ProcessInOrder(t, id) {
      assert ProcessInOrder(w, id);
      assert Unfinished(w, w.held.value);
      assert Unfinished(t, id) ==> Unfinished(w, id);
    }
    StillDistinct(w, t);
  }

  lemma LookKeepsOrder(w: World, looker: nat)
    requires InOrder(w) && CanStep(w, Look(looker))
    ensures InOrder(TakeStep(w, Look(looker)))
  {
    hide Encode, Decode;
    var t := TakeStep(w, Look(looker));
    assert ProcessInOrder(w, looker);
    DecodesExactly(w.processes[looker].ended.value);
    forall id | 0 <= id < |t.processes| ensures ProcessInOrder(t, id) {
      assert ProcessInOrder(w, id);
      assert Unfinished(w, looker);
      assert Unfinished(t, id) ==> Unfinished(w, id);
    }
    StillDistinct(w, t);
  }

  lemma StillDistinct(w: World, t: World)
    requires InOrder(w) && |t.processes| == |w.processes|
    requires forall id :: 0 <= id < |w.processes| ==>
               t.processes[id].pid == w.processes[id].pid && (Unfinished(t, id) ==> Unfinished(w, id))
    ensures forall i, j :: (0 <= i < |t.processes| && 0 <= j < |t.processes| && i != j
                            && Unfinished(t, i) && Unfinished(t, j)) ==> t.processes[i].pid != t.processes[j].pid
  {
    hide ProcessInOrder;
  }

  lemma StepKeepsOrder(w: World, step: Step)
    requires InOrder(w) && CanStep(w, step) && (step.Spawn? ==> FreshPid(w, step.pid))
    ensures InOrder(TakeStep(w, step))
  {
    hide Encode, Decode, RecordOne, LookUp;
    match step
    case Keep => KeepKeepsOrder(w);
    case Look(id) => LookKeepsOrder(w, id);
    case _ =>
      var t := TakeStep(w, step);
      forall id | 0 <= id < |w.processes| ensures ProcessInOrder(t, id) {
        assert ProcessInOrder(w, id);
      }
  }

  lemma {:induction false} RunKeepsOrder(w: World, steps: seq<Step>)
    requires InOrder(w) && CanRun(w, steps) && FreshPids(w, steps)
    ensures InOrder(After(w, steps))
    decreases |steps|
  {
    hide InOrder, CanStep, TakeStep;
    if steps != [] {
      RunKeepsOrder(w, steps[..|steps| - 1]);
      StepKeepsOrder(After(w, steps[..|steps| - 1]), steps[|steps| - 1]);
    }
  }

  lemma NothingYet()
    ensures InOrder(Boot())
  {
  }

  // ---------------------------------------------------------------------
  // Results
  // ---------------------------------------------------------------------

  /** Whoever collects first, an answered waiter has its own process's exit. */
  lemma OwnStatus(steps: seq<Step>, id: nat)
    requires CanRun(Boot(), steps) && FreshPids(Boot(), steps)
    requires id < |After(Boot(), steps).processes|
    ensures var p := After(Boot(), steps).processes[id];
            p.waiter.Done? && p.waiter.result.Some? ==> p.ended == p.waiter.result
  {
    hide CanRun, After, FreshPids;
    NothingYet();
    RunKeepsOrder(Boot(), steps);
    assert ProcessInOrder(After(Boot(), steps), id);
  }

  /**
    A look into the record finds the exit once it is recorded and while it is kept; it gives up only past its
    deadline, and then the reaper has not recorded the exit yet or has kept it for its full time.
    */
  lemma LookFindsRecord(steps: seq<Step>, id: nat)
    requires CanRun(Boot(), steps) && FreshPids(Boot(), steps)
    requires CanStep(After(Boot(), steps), Look(id))
    ensures var w := After(Boot(), steps);
            var p, after := w.processes[id], TakeStep(w, Look(id)).processes[id];
            && (p.recordedAt.Some? && w.held != Some(id) && w.now < p.recordedAt.value + 60_000 ==>
                  p.ended.Some? && after.waiter == Done(p.ended))
            && (after.waiter == Done(None) ==>
                  && w.now >= p.waiter.deadline
                  && (w.held == Some(id) || (p.recordedAt.Some? && p.recordedAt.value + 60_000 <= w.now)))
  {
    hide CanRun, After, FreshPids, Encode, Decode;
    NothingYet();
    RunKeepsOrder(Boot(), steps);
    var w := After(Boot(), steps);
    assert ProcessInOrder(w, id);
    DecodesExactly(w.processes[id].ended.value);
  }

  /** From its refusal on a caller keeps one deadline until it is answered. */
  lemma {:induction false} KeepsDeadline(w: World, id: nat, deadline: nat, steps: seq<Step>)
    requires id < |w.processes| && w.processes[id].collected && w.processes[id].waiter == Looking(deadline)
    requires CanRun(w, steps)
    ensures var t := After(w, steps);
            && id < |t.processes| && t.processes[id].pid == w.processes[id].pid && t.processes[id].collected
            && (t.processes[id].waiter.Looking? ==> t.processes[id].waiter == Looking(deadline))
            && (t.processes[id].waiter.Looking? || t.processes[id].waiter.Done?)
    decreases |steps|
  {
    if steps != [] {
      KeepsDeadline(w, id, deadline, steps[..|steps| - 1]);
    }
  }

  /**
    A caller whose own wait was refused looks for a fifth of a second: whatever happens meanwhile, a look takes the
    record if there is one, goes on without one before that time, and gives up without one from then on.
    */
  lemma LookupEndsInTime(w: World, id: nat, steps: seq<Step>)
    requires CanStep(w, Refuse(id)) && CanRun(TakeStep(w, Refuse(id)), steps)
    requires CanStep(After(TakeStep(w, Refuse(id)), steps), Look(id))
    ensures var t := After(TakeStep(w, Refuse(id)), steps);
            var pid, after := w.processes[id].pid, TakeStep(t, Look(id)).processes[id].waiter;
            if pid in t.reaped then after == Done(Decode(t.reaped[pid].raw)) && pid !in TakeStep(t, Look(id)).reaped
            else if t.now < w.now + 200 then after.Looking?
            else after == Done(None)
  {
    hide CanRun, After, Decode;
    KeepsDeadline(TakeStep(w, Refuse(id)), id, w.now + REAPED_LOOKUP, steps);
  }

  lemma RunOn(w: World, steps: seq<Step>, step: Step, longer: seq<Step>)
    requires CanRun(w, steps) && CanStep(After(w, steps), step) && longer == steps + [step]
    ensures CanRun(w, longer) && After(w, longer) == TakeStep(After(w, steps), step)
  {
    hide TakeStep, CanStep;
    assert longer[..|steps|] == steps;
  }

  lemma RunNone(w: World)
    ensures CanRun(w, []) && After(w, []) == w
  {
  }

  /** The record of an orphan is dropped only when another is made: it can be of any age. */
  lemma StaleRecordStays(pid: int, exit: Exit, age: nat)
    requires Valid(exit)
    ensures var steps := [Spawn(pid, false), End(0, exit), Collect(0), Keep, Pass(age)];
            && CanRun(Boot(), steps)
            && After(Boot(), steps)
               == World([Process(pid, Some(exit), true, NoWaiter, Some(0))], None,
                        map[pid := Record(0, Encode(exit))], age)
  {
    hide CanRun, After, Encode, Valid;
    var steps := [Spawn(pid, false), End(0, exit), Collect(0), Keep, Pass(age)];
    RunNone(Boot());
    RunOn(Boot(), [], steps[0], steps[..1]);
    var p := Process(pid, None, false, NoWaiter, None);
    assert After(Boot(), steps[..1]) == World([p], None, map[], 0);
    RunOn(Boot(), steps[..1], steps[1], steps[..2]);
    assert After(Boot(), steps[..2]) == World([p.(ended := Some(exit))], None, map[], 0);
    RunOn(Boot(), steps[..2], steps[2], steps[..3]);
    assert After(Boot(), steps[..3]) == World([p.(ended := Some(exit), collected := true)], Some(0), map[], 0);
    RunOn(Boot(), steps[..3], steps[3], steps[..4]);
    RunOn(Boot(), steps[..4], steps[4], steps);
  }

  /**
    A process that gets the PID of an old record, and whose waiter looks before the reaper has recorded its exit,
    is answered with the old exit, whatever its own is and however old the record.
    */
  lemma StaleRecordWins(w: World, pid: int, exit: Exit)
    requires pid in w.reaped && PidFree(w, pid) && w.held == None && Valid(exit)
    ensures var id := |w.processes|;
            var steps := [Spawn(pid, true), End(id, exit), Collect(id), Refuse(id), Look(id)];
            && CanRun(w, steps) && id < |After(w, steps).processes|
            && After(w, steps).processes[id]
               == Process(pid, Some(exit), true, Done(Decode(w.reaped[pid].raw)), None)
  {
    hide CanRun, After, Decode, Valid;
    var id := |w.processes|;
    var steps := [Spawn(pid, true), End(id, exit), Collect(id), Refuse(id), Look(id)];
    var p := Process(pid, None, false, Waiting, None);
    RunNone(w);
    RunOn(w, [], steps[0], steps[..1]);
    RunOn(w, steps[..1], steps[1], steps[..2]);
    assert After(w, steps[..2]).processes[id] == p.(ended := Some(exit));
    RunOn(w, steps[..2], steps[2], steps[..3]);
    RunOn(w, steps[..3], steps[3], steps[..4]);
    assert After(w, steps[..4]).processes[id]
        == p.(ended := Some(exit), collected := true, waiter := Looking(w.now + REAPED_LOOKUP));
    RunOn(w, steps[..4], steps[4], steps);
  }

  // ---------------------------------------------------------------------
  // Exactly when a PID may be used again
  // ---------------------------------------------------------------------

  /** Every answered waiter has its own process's exit. */
  ghost predicate AnswersOwn(w: World) {
    forall id :: 0 <= id < |w.processes| && w.processes[id].waiter.Done? && w.processes[id].waiter.result.Some? ==>
      w.processes[id].ended == w.processes[id].waiter.result
  }

  lemma OrderAnswersOwn(w: World)
    requires InOrder(w)
    ensures AnswersOwn(w)
  {
    forall id | 0 <= id < |w.processes| && w.processes[id].waiter.Done? && w.processes[id].waiter.result.Some?
      ensures w.processes[id].ended == w.processes[id].waiter.result
    {
      assert ProcessInOrder(w, id);
    }
  }

  predicate Spawnless(steps: seq<Step>) {
    forall step :: step in steps ==> !step.Spawn?
  }

  lemma {:induction false} SpawnlessIsFresh(w: World, steps: seq<Step>)
    requires CanRun(w, steps) && Spawnless(steps)
    ensures FreshPids(w, steps)
    decreases |steps|
  {
    hide CanStep, TakeStep;
    if steps != [] {
      SpawnlessIsFresh(w, steps[..|steps| - 1]);
    }
  }

  function OtherExit(e: Option<Exit>): (r: Exit)
    ensures Valid(r) && e != Some(r)
  {
    if e == Some(Code(0)) then Code(1) else Code(0)
  }

  /** A record left under the PID: the new process's waiter can get it. */
  lemma RecordAnswersWrong(w: World, id: nat) returns (steps: seq<Step>)
    requires id < |w.processes| && w.held == None
    requires w.processes[id] == Process(w.processes[id].pid, None, false, Waiting, None)
    requires w.processes[id].pid in w.reaped && Decode(w.reaped[w.processes[id].pid].raw).Some?
    ensures CanRun(w, steps) && Spawnless(steps) && !AnswersOwn(After(w, steps))
  {
    hide CanRun, After, Decode, Valid;
    var p := w.processes[id];
    var recorded := Decode(w.reaped[p.pid].raw);
    var exit := OtherExit(recorded);
    steps := [End(id, exit), Collect(id), Refuse(id), Look(id)];
    RunNone(w);
    RunOn(w, [], steps[0], steps[..1]);
    RunOn(w, steps[..1], steps[1], steps[..2]);
    assert After(w, steps[..2]).processes[id] == p.(ended := Some(exit), collected := true);
    RunOn(w, steps[..2], steps[2], steps[..3]);
    assert After(w, steps[..3]).processes[id]
        == p.(ended := Some(exit), collected := true, waiter := Looking(w.now + REAPED_LOOKUP));
    RunOn(w, steps[..3], steps[3], steps);
    assert After(w, steps).processes[id].waiter == Done(recorded);
  }

  /** A waiter of an earlier process that is still looking: it can get the new process's exit. */
  lemma LookerGetsOther(w: World, id: nat, looker: nat) returns (steps: seq<Step>)
    requires id < |w.processes| && looker < |w.processes| && id != looker && w.held == None
    requires w.processes[id] == Process(w.processes[id].pid, None, false, Waiting, None)
    requires w.processes[looker].pid == w.processes[id].pid && w.processes[looker].waiter.Looking?
    ensures CanRun(w, steps) && Spawnless(steps) && !AnswersOwn(After(w, steps))
  {
    hide CanRun, After, Decode, Encode, Valid;
    var p, q := w.processes[id], w.processes[looker];
    var exit := OtherExit(q.ended);
    DecodesExactly(exit);
    steps := [End(id, exit), Collect(id), Keep, Look(looker)];
    RunNone(w);
    RunOn(w, [], steps[0], steps[..1]);
    RunOn(w, steps[..1], steps[1], steps[..2]);
    assert After(w, steps[..2]).processes[id] == p.(ended := Some(exit), collected := true);
    RunOn(w, steps[..2], steps[2], steps[..3]);
    assert After(w, steps[..3]).processes[looker] == q;
    assert After(w, steps[..3]).reaped[p.pid] == Record(w.now, Encode(exit));
    RunOn(w, steps[..3], steps[3], steps);
    assert After(w, steps).processes[looker].waiter == Done(Some(exit));
  }

  /** The same for one whose own wait has not been refused yet. */
  lemma WaiterGetsOther(w: World, id: nat, waiter: nat) returns (steps: seq<Step>)
    requires id < |w.processes| && waiter < |w.processes| && id != waiter && w.held == None
    requires w.processes[id] == Process(w.processes[id].pid, None, false, Waiting, None)
    requires w.processes[waiter].pid == w.processes[id].pid
    requires w.processes[waiter].collected && w.processes[waiter].waiter == Waiting
    ensures CanRun(w, steps) && Spawnless(steps) && !AnswersOwn(After(w, steps))
  {
    hide CanRun, After, AnswersOwn;
    RunNone(w);
    RunOn(w, [], Refuse(waiter), [Refuse(waiter)]);
    var t := After(w, [Refuse(waiter)]);
    var rest := LookerGetsOther(t, id, waiter);
    steps := [Refuse(waiter)] + rest;
    RunConcat(w, [Refuse(waiter)], rest);
  }

  lemma {:induction false} RunConcat(w: World, front: seq<Step>, rest: seq<Step>)
    requires CanRun(w, front) && CanRun(After(w, front), rest)
    ensures CanRun(w, front + rest) && After(w, front + rest) == After(After(w, front), rest)
    decreases |rest|
  {
    hide CanStep, TakeStep;
    if rest == [] {
      assert front + rest == front;
    } else {
      assert (front + rest)[..|front + rest| - 1] == front + rest[..|rest| - 1];
      RunConcat(w, front, rest[..|rest| - 1]);
    }
  }

  /** The same, with nothing in the reaper's hands. */
  lemma LeftoverAnswersWrong(w: World, id: nat, other: nat) returns (steps: seq<Step>)
    requires id < |w.processes| && w.held == None
    requires w.processes[id] == Process(w.processes[id].pid, None, false, Waiting, None)
    requires forall pid :: pid in w.reaped ==> Decode(w.reaped[pid].raw).Some?
    requires w.processes[id].pid in w.reaped
             || (other < |w.processes| && other != id && w.processes[other].pid == w.processes[id].pid
                 && w.processes[other].collected
                 && (w.processes[other].waiter.Waiting? || w.processes[other].waiter.Looking?))
    ensures CanRun(w, steps) && Spawnless(steps) && !AnswersOwn(After(w, steps))
  {
    hide CanRun, After, Decode, AnswersOwn;
    if w.processes[id].pid in w.reaped {
      steps := RecordAnswersWrong(w, id);
    } else if w.processes[other].waiter.Looking? {
      steps := LookerGetsOther(w, id, other);
    } else {
      steps := WaiterGetsOther(w, id, other);
    }
  }

  /** What the reaper holds is recorded first: what is left of the earlier process is left after that. */
  lemma KeptAnswersWrong(w: World, id: nat, other: nat) returns (steps: seq<Step>)
    requires id < |w.processes| && w.held.Some? && w.held.value < |w.processes| && w.held != Some(id)
    requires w.processes[w.held.value].ended.Some? && Valid(w.processes[w.held.value].ended.value)
    requires w.processes[id] == Process(w.processes[id].pid, None, false, Waiting, None)
    requires forall pid :: pid in w.reaped ==> Decode(w.reaped[pid].raw).Some?
    requires || (w.processes[id].pid in w.reaped && !Expiring(w, w.processes[id].pid))
             || w.processes[w.held.value].pid == w.processes[id].pid
             || (other < |w.processes| && other != id && w.processes[other].pid == w.processes[id].pid
                 && w.processes[other].collected
                 && (w.processes[other].waiter.Waiting? || w.processes[other].waiter.Looking?))
    ensures CanRun(w, steps) && Spawnless(steps) && !AnswersOwn(After(w, steps))
  {
    hide CanRun, After, Decode, AnswersOwn, Encode;
    DecodesExactly(w.processes[w.held.value].ended.value);
    RunNone(w);
    RunOn(w, [], Keep, [Keep]);
    var t := After(w, [Keep]);
    var rest := LeftoverAnswersWrong(t, id, other);
    steps := [Keep] + rest;
    RunConcat(w, [Keep], rest);
  }

  /** If anything is left of an earlier process with the PID, some waiter can get an exit that is not its own. */
  lemma StalePidAnswersWrong(w: World, pid: int) returns (steps: seq<Step>)
    requires InOrder(w) && CanStep(w, Spawn(pid, true)) && !FreshPid(w, pid)
    ensures var t := TakeStep(w, Spawn(pid, true));
            CanRun(t, steps) && Spawnless(steps) && !AnswersOwn(After(t, steps))
  {
    hide CanRun, After, Decode, AnswersOwn;
    var t := TakeStep(w, Spawn(pid, true));
    var id := |w.processes|;
    var other: nat := id;
    if pid in w.reaped && !Expiring(w, pid) {
    } else {
      other :| 0 <= other < |w.processes| && w.processes[other].pid == pid && Unfinished(w, other);
      assert ProcessInOrder(w, other);
      assert w.processes[other] in w.processes && t.processes[other] == w.processes[other];
    }
    if w.held.Some? {
      assert ProcessInOrder(w, w.held.value);
      steps := KeptAnswersWrong(t, id, other);
    } else {
      steps := LeftoverAnswersWrong(t, id, other);
    }
  }

  /**
    A PID can be given to an awaited process without any waiter ever being answered wrongly, in every continuation
    that keeps to this, exactly if nothing is left of an earlier process with it.
    */
  lemma FreshPidExactly(w: World, pid: int)
    requires InOrder(w) && CanStep(w, Spawn(pid, true))
    ensures (forall steps :: CanRun(TakeStep(w, Spawn(pid, true)), steps)
                             && FreshPids(TakeStep(w, Spawn(pid, true)), steps)
                             ==> AnswersOwn(After(TakeStep(w, Spawn(pid, true)), steps)))
            <==> FreshPid(w, pid)
  {
    hide InOrder, CanRun, After, FreshPids, FreshPid, AnswersOwn, Spawnless;
    var t := TakeStep(w, Spawn(pid, true));
    if FreshPid(w, pid) {
      StepKeepsOrder(w, Spawn(pid, true));
      forall steps | CanRun(t, steps) && FreshPids(t, steps) ensures AnswersOwn(After(t, steps)) {
        RunKeepsOrder(t, steps);
        OrderAnswersOwn(After(t, steps));
      }
    } else {
      var steps := StalePidAnswersWrong(w, pid);
      SpawnlessIsFresh(t, steps);
    }
  }
}
