/**
  Health checks and the alerts they raise: the debounce of crates/vigild/src/check/actor/mod.rs and the
  deduplication of crates/vigild/src/alert/mod.rs.
  */
module CheckAlerts {
  import opened Prelude

  datatype Status = Up | Down

  // ---------------------------------------------------------------------
  // One check
  // ---------------------------------------------------------------------

  datatype Check = Check(threshold: nat, failures: nat, status: Status, firstRun: bool)

  function NewCheck(threshold: nat, initial: Status): Check {
    Check(threshold, 0, initial, true)
  }

  /** The check after one probe. */
  function Probed(c: Check, ok: bool): Check {
    if ok then c.(failures := 0, status := Up, firstRun := false)
    else c.(failures := c.failures + 1,
            status := if c.failures + 1 >= c.threshold then Down else c.status,
            firstRun := false)
  }

  /** The events one probe sends: one for a change of status, and one more at the first run. */
  function EventsOf(c: Check, ok: bool): seq<Status> {
    var after := Probed(c, ok).status;
    (if after != c.status then [after] else []) + if c.firstRun then [after] else []
  }

  function Probes(c: Check, results: seq<bool>): Check {
    if results == [] then c else Probed(Probes(c, results[..|results| - 1]), results[|results| - 1])
  }

  /** All events a sequence of probes sends. */
  function EventsOfAll(c: Check, results: seq<bool>): seq<Status> {
    if results == [] then []
    else
      var front := results[..|results| - 1];
      EventsOfAll(c, front) + EventsOf(Probes(c, front), results[|results| - 1])
  }

  class CheckActor {
    const threshold: nat
    var failures: nat
    var status: Status
    var firstRun: bool
    var sent: seq<Status>

    function View(): Check
      reads this
    {
      Check(threshold, failures, status, firstRun)
    }

    constructor (threshold: nat, initial: Status)
      ensures View() == NewCheck(threshold, initial) && sent == []
    {
      this.threshold, failures, status, firstRun, sent := threshold, 0, initial, true, [];
    }

    method Tick(ok: bool)
      modifies this
      ensures View() == Probed(old(View()), ok)
      ensures sent == old(sent) + EventsOf(old(View()), ok)
    {
      if ok {
        if status == Down {
          status := Up;
          sent := sent + [status];
        }
        failures := 0;
      } else {
        failures := failures + 1;
        if failures >= threshold && status == Up {
          status := Down;
          sent := sent + [status];
        }
      }
      if firstRun {
        firstRun := false;
        sent := sent + [status];
      }
    }

    method Loop(results: seq<bool>)
      modifies this
      ensures View() == Probes(old(View()), results)
      ensures sent == old(sent) + EventsOfAll(old(View()), results)
    {
      for n := 0 to |results|
        invariant View() == Probes(old(View()), results[..n])
        invariant sent == old(sent) + EventsOfAll(old(View()), results[..n])
      {
        Tick(results[n]);
        assert results[..n + 1][..n] == results[..n];
      }
      assert results[..|results|] == results;
    }
  }

  // ---------------------------------------------------------------------
  // The alert sender
  // ---------------------------------------------------------------------

  datatype Alert = Alert(name: string, onCheck: seq<string>)

  datatype Job = Job(alert: string, check: string, status: Status)

  /** An event fires unless it repeats the known status, or is an Up that nothing came before. */
  predicate Fires(known: Option<Status>, status: Status) {
    known != Some(status) && !(known == None && status == Up)
  }

  /** The alerts that listen to `check`. */
  function Listeners(alerts: seq<Alert>, check: string): (r: seq<string>)
    ensures forall name :: name in r <==> exists a :: a in alerts && check in a.onCheck && a.name == name
    ensures |r| <= |alerts|
  {
    if alerts == [] then []
    else
      var last := alerts[|alerts| - 1];
      assert alerts == alerts[..|alerts| - 1] + [last];
      Listeners(alerts[..|alerts| - 1], check) + if check in last.onCheck then [last.name] else []
  }

  function Jobs(names: seq<string>, check: string, status: Status): seq<Job> {
    seq(|names|, i requires 0 <= i < |names| => Job(names[i], check, status))
  }

  function Room(depth: nat, jobs: seq<Job>): nat {
    if |jobs| < depth then depth - |jobs| else 0
  }

  function Take(names: seq<string>, n: nat): seq<string> {
    if |names| <= n then names else names[..n]
  }

  /** Events of several checks, and what is known of each once they are handled. */
  function StateAfter(state: map<string, Status>, events: seq<(string, Status)>): map<string, Status> {
    if events == [] then state
    else StateAfter(state, events[..|events| - 1])[events[|events| - 1].0 := events[|events| - 1].1]
  }

  function KnownIn(state: map<string, Status>, check: string): Option<Status> {
    if check in state then Some(state[check]) else None
  }

  /** The events that fire, among those of several checks. */
  function Transitions(state: map<string, Status>, events: seq<(string, Status)>): seq<(string, Status)> {
    if events == [] then []
    else
      var front, (check, status) := events[..|events| - 1], events[|events| - 1];
      Transitions(state, front)
      + if Fires(KnownIn(StateAfter(state, front), check), status) then [(check, status)] else []
  }

  /** The jobs that ask for delivery to every listener of every transition. */
  function JobsOf(alerts: seq<Alert>, transitions: seq<(string, Status)>): seq<Job> {
    if transitions == [] then []
    else
      var (check, status) := transitions[|transitions| - 1];
      JobsOf(alerts, transitions[..|transitions| - 1]) + Jobs(Listeners(alerts, check), check, status)
  }

  /** As many jobs as there is room for. */
  function FirstJobs(jobs: seq<Job>, n: nat): seq<Job> {
    if |jobs| <= n then jobs else jobs[..n]
  }

  lemma TakenJobs(names: seq<string>, check: string, status: Status, n: nat)
    ensures Jobs(Take(names, n), check, status) == FirstJobs(Jobs(names, check, status), n)
  {
  }

  /** Room taken up by some jobs is missing for the next. */
  lemma RoomIsShared(depth: nat, before: seq<Job>, some: seq<Job>, more: seq<Job>)
    ensures var queued := before + FirstJobs(some, Room(depth, before));
            queued + FirstJobs(more, Room(depth, queued)) == before + FirstJobs(some + more, Room(depth, before))
  {
  }

  lemma JobsOneMore(alerts: seq<Alert>, transitions: seq<(string, Status)>, check: string, status: Status)
    ensures JobsOf(alerts, transitions + [(check, status)])
            == JobsOf(alerts, transitions) + Jobs(Listeners(alerts, check), check, status)
  {
    assert (transitions + [(check, status)])[..|transitions|] == transitions;
  }

  lemma ListenersStep(alerts: seq<Alert>, a: Alert, check: string)
    ensures Listeners(alerts + [a], check) == Listeners(alerts, check) + if check in a.onCheck then [a.name] else []
  {
    assert (alerts + [a])[..|alerts|] == alerts;
  }

  /** Room is taken up one accepted job at a time. */
  lemma OneMoreListener(names: seq<string>, name: string, check: string, status: Status, depth: nat, jobs: seq<Job>)
    ensures var room, taken := Room(depth, jobs), Take(names, Room(depth, jobs));
            && (|jobs + Jobs(taken, check, status)| < depth <==> |names| < room)
            && Take(names + [name], room) == taken + (if |names| < room then [name] else [])
            && Jobs(taken + [name], check, status) == Jobs(taken, check, status) + [Job(name, check, status)]
  {
  }

  class AlertSender {
    var alerts: seq<Alert>
    var state: map<string, Status>
    const depth: nat
    var jobs: seq<Job>

    constructor (depth: nat)
      ensures this.depth == depth && alerts == [] && state == map[] && jobs == []
    {
      this.depth, alerts, state, jobs := depth, [], map[], [];
    }

    function CheckStatus(check: string): (r: Option<Status>)
      reads this
      ensures r.None? <==> check !in state
      ensures check in state ==> r == Some(state[check])
    {
      if check in state then Some(state[check]) else None
    }

    /** The alerts of a new plan. */
    method UpdateAlerts(alerts: seq<Alert>)
      modifies this`alerts
      ensures this.alerts == alerts
    {
      this.alerts := alerts;
    }

    /** `try_send` to the delivery worker. */
    method TrySend(job: Job) returns (accepted: bool)
      modifies this`jobs
      ensures accepted == (|old(jobs)| < depth)
      ensures jobs == old(jobs) + if accepted then [job] else []
    {
      accepted := |jobs| < depth;
      if accepted {
        jobs := jobs + [job];
      }
    }

    /** Returns the names of the alerts that fired: the first listeners there is room for in the delivery queue. */
    method HandleCheckEvent(check: string, status: Status) returns (fired: seq<string>)
      modifies this`state, this`jobs
      ensures state == old(state)[check := status]
      ensures fired == if Fires(old(CheckStatus(check)), status)
                       then Take(Listeners(alerts, check), Room(depth, old(jobs))) else []
      ensures jobs == old(jobs) + Jobs(fired, check, status)
    {
      var prev := CheckStatus(check);
      if prev == Some(status) {
        assert state == old(state)[check := status];
        return [];
      }
      state := state[check := status];
      if status == Up && prev == None {
        return [];
      }
      fired := Notify(check, status);
    }

    /** The supervisor's loop, one event of some check after the other. */
    method Loop(events: seq<(string, Status)>)
      modifies this`state, this`jobs
      ensures state == StateAfter(old(state), events)
      ensures jobs == old(jobs) + FirstJobs(JobsOf(alerts, Transitions(old(state), events)), Room(depth, old(jobs)))
    {
      hide Room, Take, FirstJobs, JobsOf, Jobs, Listeners, Fires;
      NoJobsYet(alerts, old(state), events, depth, jobs);
      for n := 0 to |events|
        invariant state == StateAfter(old(state), events[..n])
        invariant jobs == old(jobs)
            + FirstJobs(JobsOf(alerts, Transitions(old(state), events[..n])), Room(depth, old(jobs)))
      {
        var (check, status) := events[n];
        assert events[..n + 1][..n] == events[..n];
        ghost var fires := Transitions(old(state), events[..n]);
        ghost var names := Listeners(alerts, check);
        TakenJobs(names, check, status, Room(depth, jobs));
        JobsOneMore(alerts, fires, check, status);
        RoomIsShared(depth, old(jobs), JobsOf(alerts, fires), Jobs(names, check, status));
        NoJobs(check, status, jobs);
        var _ := HandleCheckEvent(check, status);
        assert fires + [] == fires;
      }
      assert events[..|events|] == events;
    }

    method Notify(check: string, status: Status) returns (fired: seq<string>)
      modifies this`jobs
      ensures fired == Take(Listeners(alerts, check), Room(depth, old(jobs)))
      ensures jobs == old(jobs) + Jobs(fired, check, status)
    {
      hide Listeners, Take, Room, Jobs;
      fired := [];
      NobodyYet(alerts, check, status, depth, jobs);
      for i := 0 to |alerts|
        invariant fired == Take(Listeners(alerts[..i], check), Room(depth, old(jobs)))
        invariant jobs == old(jobs) + Jobs(fired, check, status)
      {
        assert alerts[..i + 1] == alerts[..i] + [alerts[i]];
        ListenersStep(alerts[..i], alerts[i], check);
        OneMoreListener(Listeners(alerts[..i], check), alerts[i].name, check, status, depth, old(jobs));
        if check in alerts[i].onCheck {
          var accepted := TrySend(Job(alerts[i].name, check, status));
          if accepted {
            assert jobs == old(jobs) + (Jobs(fired, check, status) + [Job(alerts[i].name, check, status)]);
            fired := fired + [alerts[i].name];
          }
        } else {
          assert Listeners(alerts[..i], check) + [] == Listeners(alerts[..i], check);
        }
        assert fired + [] == fired;
      }
      assert alerts[..|alerts|] == alerts;
    }
  }

  lemma NoJobs(check: string, status: Status, jobs: seq<Job>)
    ensures jobs + Jobs([], check, status) == jobs
  {
  }

  lemma NoJobsYet(alerts: seq<Alert>, state: map<string, Status>, events: seq<(string, Status)>, depth: nat,
                  jobs: seq<Job>)
    ensures StateAfter(state, events[..0]) == state
    ensures jobs + FirstJobs(JobsOf(alerts, Transitions(state, events[..0])), Room(depth, jobs)) == jobs
  {
  }

  lemma NobodyYet(alerts: seq<Alert>, check: string, status: Status, depth: nat, jobs: seq<Job>)
    ensures Take(Listeners(alerts[..0], check), Room(depth, jobs)) == []
    ensures jobs == jobs + Jobs([], check, status)
  {
  }

  // ---------------------------------------------------------------------
  // A check, the queue of its events, and what the alert sender knows
  // ---------------------------------------------------------------------

  datatype World = World(
    check: Check,
    // check actors before respawns that have a probe of their own still under way
    retired: seq<Check>,
    queue: seq<Status>,
    known: Option<Status>,
    // the transitions the alert sender fired, and the status after every probe
    fired: seq<Status>,
    statuses: seq<Status>)

  datatype Step =
    | Probe(ok: bool)
    | Handle
    | Respawn(threshold: nat, busy: bool)
    | Straggle(index: nat, ok: bool)

  function Boot(threshold: nat): World {
    World(NewCheck(threshold, Up), [], [], None, [], [])
  }

  /** A check nobody has reported on counts as up. */
  function OrUp(known: Option<Status>): Status {
    if known.Some? then known.value else Up
  }

  predicate CanStep(w: World, step: Step) {
    (step.Handle? ==> w.queue != []) && (step.Straggle? ==> step.index < |w.retired|)
  }

  function TakeStep(w: World, step: Step): World
    requires CanStep(w, step)
  {
    match step
    case Probe(ok) =>
      var c := Probed(w.check, ok);
      w.(check := c, queue := w.queue + EventsOf(w.check, ok), statuses := w.statuses + [c.status])
    case Handle =>
      var status := w.queue[0];
      w.(queue := w.queue[1..], known := Some(status),
         fired := w.fired + if Fires(w.known, status) then [status] else [])
    case Respawn(threshold, busy) =>
      w.(check := NewCheck(threshold, OrUp(w.known)), retired := w.retired + if busy then [w.check] else [])
    case Straggle(i, ok) =>
      w.(retired := w.retired[..i] + w.retired[i + 1..], queue := w.queue + EventsOf(w.retired[i], ok))
  }

  predicate CanRun(w: World, steps: seq<Step>)
    decreases |steps|, 0
  {
    steps == []
    || (CanRun(w, steps[..|steps| - 1]) && CanStep(After(w, steps[..|steps| - 1]), steps[|steps| - 1]))
  }

  function After(w: World, steps: seq<Step>): World
    requires CanRun(w, steps)
    decreases |steps|, 1
  {
    if steps == [] then w else TakeStep(After(w, steps[..|steps| - 1]), steps[|steps| - 1])
  }
}
