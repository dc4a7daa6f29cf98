/**
  The zombie reaper and the waiters it may beat to a child's exit status (crates/vigild/src/reaper.rs).

  Times are in milliseconds.
  */
module Reaper {
  import opened Prelude

  const REAPED_KEEP: nat := 60_000
  const REAPED_LOOKUP: nat := 200

  // ---------------------------------------------------------------------
  // Wait statuses
  // ---------------------------------------------------------------------

  datatype Exit = Code(code: nat) | Signal(signal: nat, core: bool)

  datatype WaitStatus = Ended(pid: int, exit: Exit) | StoppedOrContinued(pid: int)

  /** The raw wait status: the exit code in the second byte, or a signal and the core flag in the first. */
  function Encode(e: Exit): nat {
    match e
    case Code(code) => code % 256 * 256
    case Signal(signal, core) => signal + if core then 128 else 0
  }

  /** How the standard library reads a raw wait status. */
  function Decode(raw: nat): Option<Exit> {
    var low := raw % 128;
    if low == 0 then Some(Code(raw / 256 % 256))
    else if low < 127 then Some(Signal(low, raw / 128 % 2 == 1))
    else None
  }

  /** Exit codes are a byte; signal numbers leave out the two marks for exited and stopped. */
  predicate Valid(e: Exit) {
    match e
    case Code(code) => code < 256
    case Signal(signal, _) => 0 < signal < 127
  }

  lemma DecodesExactly(e: Exit)
    requires e.Signal? ==> e.signal < 128
    ensures Decode(Encode(e)) == Some(e) <==> Valid(e)
  {
  }

  /** The layout of a raw status, as `wait` fills it: code times 256, or signal with the core flag at 128. */
  lemma RawLayout(e: Exit)
    requires Valid(e)
    ensures match e
            case Code(code) => Encode(e) == 256 * code
            case Signal(signal, core) =>
              Encode(e) < 256 && Encode(e) % 128 == signal && (Encode(e) >= 128 <==> core)
  {
  }

  // ---------------------------------------------------------------------
  // The record of collected statuses
  // ---------------------------------------------------------------------

  datatype Record = Record(at: nat, raw: nat)

  type Records = map<int, Record>

  function Insert(records: Records, pid: int, now: nat, raw: nat): Records {
    (map p | p in records && now < records[p].at + REAPED_KEEP :: records[p])[pid := Record(now, raw)]
  }

  function RecordOne(records: Records, status: WaitStatus, now: nat): Records {
    match status
    case Ended(pid, exit) => Insert(records, pid, now, Encode(exit))
    case StoppedOrContinued(_) => records
  }

  /** What one call of `waitpid` for any child returns, and when. */
  datatype Outcome = Collected(status: WaitStatus, at: nat) | StillAlive | NoChildren | Failed

  /** The calls of one drain: up to the first that collects nothing. */
  function Drained(records: Records, outcomes: seq<Outcome>): Records
    decreases |outcomes|
  {
    if outcomes == [] || !outcomes[0].Collected? then records
    else Drained(RecordOne(records, outcomes[0].status, outcomes[0].at), outcomes[1..])
  }

  /** The statuses one drain collects. */
  function CollectedIn(outcomes: seq<Outcome>): seq<Outcome>
    decreases |outcomes|
  {
    if outcomes == [] || !outcomes[0].Collected? then [] else [outcomes[0]] + CollectedIn(outcomes[1..])
  }

  /** The exit of `pid` is collected at `i` of a drain, and not again after it. */
  predicate LastEnd(outcomes: seq<Outcome>, pid: int, i: nat) {
    && i < |outcomes| && EndOf(outcomes[i], pid)
    && forall j :: i < j < |outcomes| ==> !EndOf(outcomes[j], pid)
  }

  predicate EndOf(o: Outcome, pid: int) {
    o.Collected? && o.status.Ended? && o.status.pid == pid
  }

  /** No exit of a later outcome comes so late that a record of time `at` is dropped. */
  predicate KeptThrough(outcomes: seq<Outcome>, i: nat, at: nat) {
    forall j :: i <= j < |outcomes| && outcomes[j].Collected? && outcomes[j].status.Ended? ==>
      outcomes[j].at < at + 60_000
  }

  /** The record of the last collected exit, if nothing that came later has dropped it. */
  predicate IsLeftOf(outcomes: seq<Outcome>, pid: int, i: nat, left: Option<Record>) {
    && LastEnd(outcomes, pid, i)
    && left == if KeptThrough(outcomes, i + 1, outcomes[i].at)
               then Some(Record(outcomes[i].at, Encode(outcomes[i].status.exit))) else None
  }

  /** The record that is left for a PID after these collected statuses. */
  ghost predicate LeftFor(records: Records, outcomes: seq<Outcome>, pid: int, left: Option<Record>) {
    || (exists i: nat :: IsLeftOf(outcomes, pid, i, left))
    || ((forall j :: 0 <= j < |outcomes| ==> !EndOf(outcomes[j], pid))
        && left == if pid in records && KeptThrough(outcomes, 0, records[pid].at) then Some(records[pid]) else None)
  }

  /**
    What a drain leaves: for each PID its last collected exit, or else the record there was, unless a later exit was
    recorded a minute after it; a stopped or continued child changes nothing.
    */
  lemma {:induction false} DrainLeaves(records: Records, outcomes: seq<Outcome>, pid: int)
    ensures var after := Drained(records, outcomes);
            LeftFor(records, CollectedIn(outcomes), pid, if pid in after then Some(after[pid]) else None)
    decreases |outcomes|
  {
    hide Encode;
    if outcomes != [] && outcomes[0].Collected? {
      var next := RecordOne(records, outcomes[0].status, outcomes[0].at);
      var rest := CollectedIn(outcomes[1..]);
      DrainLeaves(next, outcomes[1..], pid);
      var after := Drained(records, outcomes);
      OneMoreCollected(records, outcomes[0], rest, pid, if pid in after then Some(after[pid]) else None);
    }
  }

  lemma OneMoreCollected(records: Records, o: Outcome, rest: seq<Outcome>, pid: int, left: Option<Record>)
    requires o.Collected? && LeftFor(RecordOne(records, o.status, o.at), rest, pid, left)
    ensures LeftFor(records, [o] + rest, pid, left)
  {
    hide Encode, KeptThrough, LastEnd;
    var all := [o] + rest;
    if i: nat :| IsLeftOf(rest, pid, i, left) {
      LaterEnd(o, rest, pid, i);
      KeptLater(o, rest, i + 1, rest[i].at);
      assert IsLeftOf(all, pid, i + 1, left);
    } else {
      assert forall j :: 0 <= j < |rest| ==> all[j + 1] == rest[j];
      KeptLater(o, rest, 0, o.at);
      if EndOf(o, pid) {
        FirstIsLast(o, rest, pid);
        assert IsLeftOf(all, pid, 0, left);
      } else if pid in records {
        KeptLater(o, rest, 0, records[pid].at);
        KeptFirst(o, rest, records[pid].at);
      }
    }
  }

  lemma LaterEnd(o: Outcome, rest: seq<Outcome>, pid: int, i: nat)
    requires LastEnd(rest, pid, i)
    ensures i < |rest| && rest[i].Collected?
    ensures LastEnd([o] + rest, pid, i + 1)
  {
    assert forall j :: 0 <= j < |rest| ==> ([o] + rest)[j + 1] == rest[j];
  }

  lemma FirstIsLast(o: Outcome, rest: seq<Outcome>, pid: int)
    requires EndOf(o, pid) && forall j :: 0 <= j < |rest| ==> !EndOf(rest[j], pid)
    ensures LastEnd([o] + rest, pid, 0)
  {
  }

  lemma KeptLater(o: Outcome, rest: seq<Outcome>, i: nat, at: nat)
    ensures KeptThrough([o] + rest, i + 1, at) <==> KeptThrough(rest, i, at)
  {
    var all := [o] + rest;
    assert forall j :: 0 <= j < |rest| ==> all[j + 1] == rest[j];
    if KeptThrough(all, i + 1, at) {
      forall j | i <= j < |rest| && rest[j].Collected? && rest[j].status.Ended? ensures rest[j].at < at + 60_000 {
        assert all[j + 1] == rest[j];
      }
    }
    if KeptThrough(rest, i, at) {
      forall j | i + 1 <= j < |all| && all[j].Collected? && all[j].status.Ended? ensures all[j].at < at + 60_000 {
        assert all[j] == rest[j - 1];
      }
    }
  }

  lemma KeptFirst(o: Outcome, rest: seq<Outcome>, at: nat)
    ensures KeptThrough([o] + rest, 0, at)
            <==> KeptThrough([o] + rest, 1, at) && (o.Collected? && o.status.Ended? ==> o.at < at + 60_000)
  {
    assert ([o] + rest)[0] == o;
  }

  /** The state of one waiting caller. */
  datatype Waiter = NoWaiter | Waiting | Looking(deadline: nat) | Done(result: Option<Exit>)

  /** One look into the record by a caller whose own wait was refused. */
  function LookUp(records: Records, pid: int, now: nat, deadline: nat): (Records, Waiter) {
    if pid in records then (records - {pid}, Done(Decode(records[pid].raw)))
    else (records, if now >= deadline then Done(None) else Looking(deadline))
  }

  class ReaperTask {
    var reaped: Records

    constructor ()
      ensures reaped == map[]
    {
      reaped := map[];
    }

    method RecordReaped(status: WaitStatus, now: nat)
      modifies this
      ensures reaped == RecordOne(old(reaped), status, now)
    {
      match status {
        case StoppedOrContinued(_) =>
          return;
        case Ended(pid, exit) =>
          var kept := map p | p in reaped && now < reaped[p].at + REAPED_KEEP :: reaped[p];
          reaped := kept[pid := Record(now, Encode(exit))];
      }
    }

    method ReapChildren(outcomes: seq<Outcome>)
      modifies this
      ensures reaped == Drained(old(reaped), outcomes)
    {
      var n := 0;
      while n < |outcomes| && outcomes[n].Collected?
        invariant n <= |outcomes|
        invariant Drained(reaped, outcomes[n..]) == Drained(old(reaped), outcomes)
      {
        RecordReaped(outcomes[n].status, outcomes[n].at);
        assert outcomes[n..][1..] == outcomes[n + 1..];
        n := n + 1;
      }
    }

    method TakeReaped(pid: int) returns (raw: Option<nat>)
      modifies this
      ensures raw == if pid in old(reaped) then Some(old(reaped)[pid].raw) else None
      ensures reaped == old(reaped) - {pid}
    {
      if pid in reaped {
        raw := Some(reaped[pid].raw);
        reaped := reaped - {pid};
      } else {
        raw := None;
      }
    }

    /** One turn of the loop in `wait_child`; between turns the caller sleeps and others may change the record. */
    method Look(pid: int, now: nat, deadline: nat) returns (w: Waiter)
      modifies this
      ensures (reaped, w) == LookUp(old(reaped), pid, now, deadline)
    {
      var raw := TakeReaped(pid);
      assert pid !in old(reaped) ==> reaped == old(reaped);
      if raw.Some? {
        return Done(Decode(raw.value));
      }
      if now >= deadline {
        return Done(None);
      }
      w := Looking(deadline);
    }
  }

  // ---------------------------------------------------------------------
  // Processes, the reaper and the waiters together
  // ---------------------------------------------------------------------

  /** A process ever spawned; `ended` is its exit, and `collected` says that its zombie is gone. */
  datatype Process = Process(
    pid: int,
    ended: Option<Exit>,
    collected: bool,
    waiter: Waiter,
    // when the reaper recorded its exit
    recordedAt: Option<nat>)

  datatype World = World(
    processes: seq<Process>,
    // the process whose exit the reaper has collected but not recorded yet
    held: Option<nat>,
    reaped: Records,
    now: nat)

  datatype Step =
    | Spawn(pid: int, awaited: bool)
    | End(id: nat, exit: Exit)
    | DirectWait(id: nat)
    | Collect(id: nat)
    | Keep
    | Refuse(id: nat)
    | Look(id: nat)
    | Pass(time: nat)

  function Boot(): World {
    World([], None, map[], 0)
  }

  /** The kernel hands out a PID again only once the zombie that had it is collected. */
  predicate PidFree(w: World, pid: int) {
    forall p :: p in w.processes && p.pid == pid ==> p.collected
  }

  predicate IsZombie(w: World, id: nat) {
    id < |w.processes| && w.processes[id].ended.Some? && !w.processes[id].collected
  }

  predicate CanStep(w: World, step: Step) {
    match step
    case Spawn(pid, _) => PidFree(w, pid)
    case End(id, exit) => id < |w.processes| && w.processes[id].ended == None && Valid(exit)
    case DirectWait(id) => IsZombie(w, id) && w.processes[id].waiter == Waiting
    case Collect(id) => IsZombie(w, id) && w.held == None
    case Keep => w.held.Some? && w.held.value < |w.processes| && w.processes[w.held.value].ended.Some?
    case Refuse(id) => id < |w.processes| && w.processes[id].collected && w.processes[id].waiter == Waiting
    case Look(id) => id < |w.processes| && w.processes[id].waiter.Looking?
    case Pass(_) => true
  }

  function TakeStep(w: World, step: Step): World
    requires CanStep(w, step)
  {
    match step
    case Spawn(pid, awaited) =>
      w.(processes := w.processes + [Process(pid, None, false, if awaited then Waiting else NoWaiter, None)])
    case End(id, exit) => Change(w, id, w.processes[id].(ended := Some(exit)))
    case DirectWait(id) =>
      Change(w, id, w.processes[id].(collected := true, waiter := Done(w.processes[id].ended)))
    case Collect(id) => Change(w, id, w.processes[id].(collected := true)).(held := Some(id))
    case Keep =>
      var p := w.processes[w.held.value];
      Change(w, w.held.value, p.(recordedAt := Some(w.now)))
      .(held := None, reaped := RecordOne(w.reaped, Ended(p.pid, p.ended.value), w.now))
    case Refuse(id) => Change(w, id, w.processes[id].(waiter := Looking(w.now + REAPED_LOOKUP)))
    case Look(id) =>
      var (records, waiter) := LookUp(w.reaped, w.processes[id].pid, w.now, w.processes[id].waiter.deadline);
      Change(w, id, w.processes[id].(waiter := waiter)).(reaped := records)
    case Pass(time) => w.(now := w.now + time)
  }

  function Change(w: World, id: nat, p: Process): World
    requires id < |w.processes|
  {
    w.(processes := w.processes[id := p])
  }

  predicate CanRun(w: World, steps: seq<Step>)
    decreases |steps|, 0
  {
    steps == []
    || (CanRun(w, steps[..|steps| - 1]) && CanStep(After(w, steps[..|steps| - 1]), steps[|steps| - 1]))
  }

  function After(w: World, steps: seq<Step>): World
    requires CanRun(w, steps)
    decreases |steps|, 1
  {
    if steps == [] then w else TakeStep(After(w, steps[..|steps| - 1]), steps[|steps| - 1])
  }
}
