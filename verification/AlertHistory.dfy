/**
  What the debounce and the deduplication add up to over whole runs: when a check counts as down, and which
  transitions fire.
  */
module AlertHistory {
  import opened Prelude
  import opened CheckAlerts

  // ---------------------------------------------------------------------
  // Debounce
  // ---------------------------------------------------------------------

  /** How many probes in a row have failed last. */
  function FailureRun(results: seq<bool>): (n: nat)
    ensures n <= |results|
  {
    if results == [] || results[|results| - 1] then 0 else 1 + FailureRun(results[..|results| - 1])
  }

  /** A threshold of 0 acts like 1. */
  function Needed(threshold: nat): nat {
    if threshold == 0 then 1 else threshold
  }

  /** A check is down exactly in a long enough run of failures, or if it started down and never recovered. */
  lemma {:induction false} DownExactly(threshold: nat, initial: Status, results: seq<bool>)
    ensures var c := Probes(NewCheck(threshold, initial), results);
            && c.failures == FailureRun(results) && c.threshold == threshold
            && (c.firstRun <==> results == [])
            && (c.status == Down <==>
                  FailureRun(results) >= Needed(threshold) || (initial == Down && FailureRun(results) == |results|))
    decreases |results|
  {
    if results != [] {
      DownExactly(threshold, initial, results[..|results| - 1]);
    }
  }

  // ---------------------------------------------------------------------
  // Fired transitions
  // ---------------------------------------------------------------------

  function LastOf(from: Status, statuses: seq<Status>): Status {
    if statuses == [] then from else statuses[|statuses| - 1]
  }

  /** The changes along a sequence of statuses. */
  function Changes(from: Status, statuses: seq<Status>): seq<Status> {
    if statuses == [] then []
    else
      var front, last := statuses[..|statuses| - 1], statuses[|statuses| - 1];
      Changes(from, front) + if last != LastOf(from, front) then [last] else []
  }

  lemma {:induction false} ChangesAlternate(statuses: seq<Status>)
    ensures var c := Changes(Up, statuses);
            && LastOf(Up, c) == LastOf(Up, statuses)
            && forall i :: 0 <= i < |c| ==> c[i] == if i % 2 == 0 then Down else Up
    decreases |statuses|
  {
    if statuses != [] {
      ChangesAlternate(statuses[..|statuses| - 1]);
    }
  }

  /** What the alert sender will know, and what it will have fired, once these events are handled. */
  ghost function KnownAfter(known: Option<Status>, events: seq<Status>): Option<Status> {
    if events == [] then known else Some(events[|events| - 1])
  }

  ghost function FiredBy(known: Option<Status>, events: seq<Status>): seq<Status> {
    if events == [] then []
    else
      var front, last := events[..|events| - 1], events[|events| - 1];
      FiredBy(known, front) + if Fires(KnownAfter(known, front), last) then [last] else []
  }

  lemma FiredByOneMore(known: Option<Status>, events: seq<Status>, e: Status)
    ensures FiredBy(known, events + [e])
            == FiredBy(known, events) + if Fires(KnownAfter(known, events), e) then [e] else []
  {
    assert (events + [e])[..|events|] == events;
  }

  lemma {:induction false} FiredByHead(known: Option<Status>, events: seq<Status>)
    requires events != []
    ensures FiredBy(known, events)
            == (if Fires(known, events[0]) then [events[0]] else []) + FiredBy(Some(events[0]), events[1..])
    ensures KnownAfter(known, events) == KnownAfter(Some(events[0]), events[1..])
    decreases |events|
  {
    hide FiredBy, Fires;
    var front, last := events[..|events| - 1], events[|events| - 1];
    assert events == front + [last];
    FiredByOneMore(known, front, last);
    if front == [] {
      assert events[1..] == [] && events[0] == last;
      FiredByNothing(known);
      FiredByNothing(Some(last));
    } else {
      FiredByHead(known, front);
      assert events[1..] == front[1..] + [last];
      FiredByOneMore(Some(events[0]), front[1..], last);
    }
  }

  lemma FiredByNothing(known: Option<Status>)
    ensures FiredBy(known, []) == []
  {
  }

  /** An event fires exactly if it differs from what counts as known; an unreported check counts as up. */
  lemma FiresOnChange(known: Option<Status>, e: Status)
    ensures Fires(known, e) <==> e != OrUp(known)
  {
  }

  lemma {:induction false} FiredAreChanges(events: seq<Status>)
    ensures FiredBy(None, events) == Changes(Up, events)
    ensures OrUp(KnownAfter(None, events)) == LastOf(Up, events)
    decreases |events|
  {
    if events != [] {
      var front, last := events[..|events| - 1], events[|events| - 1];
      FiredAreChanges(front);
      FiresOnChange(KnownAfter(None, front), last);
    }
  }

  // ---------------------------------------------------------------------
  // Many checks and many alerts
  // ---------------------------------------------------------------------

  /** The events of one check, among those of several. */
  function EventsFor(events: seq<(string, Status)>, check: string): seq<Status> {
    if events == [] then []
    else
      var (name, status) := events[|events| - 1];
      EventsFor(events[..|events| - 1], check) + if name == check then [status] else []
  }

  /** What the sender keeps of a check is its last event. */
  lemma {:induction false} StateIsLastEvent(events: seq<(string, Status)>, check: string)
    ensures var state, own := StateAfter(map[], events), EventsFor(events, check);
            && (check in state <==> own != [])
            && (check in state ==> state[check] == own[|own| - 1])
    decreases |events|
  {
    if events != [] {
      StateIsLastEvent(events[..|events| - 1], check);
    }
  }

  lemma EventsForOneMore(events: seq<(string, Status)>, name: string, status: Status, check: string)
    ensures EventsFor(events + [(name, status)], check)
            == EventsFor(events, check) + if name == check then [status] else []
  {
    assert (events + [(name, status)])[..|events|] == events;
  }

  /** The transitions of one check are those of its own events, whatever the other checks report in between. */
  lemma {:induction false} ChecksDoNotMix(events: seq<(string, Status)>, check: string)
    ensures EventsFor(Transitions(map[], events), check) == FiredBy(None, EventsFor(events, check))
    decreases |events|
  {
    hide Fires, Transitions, FiredBy, StateAfter, EventsFor;
    if events == [] {
      NothingHappened(check);
    } else {
      var front := events[..|events| - 1];
      var (name, status) := events[|events| - 1];
      assert events == front + [(name, status)];
      ChecksDoNotMix(front, check);
      StateIsLastEvent(front, name);
      OneMoreEvent(front, name, status);
      EventsForOneMore(Transitions(map[], front), name, status, check);
      EventsForOneMore(front, name, status, check);
      FiredByOneMore(None, EventsFor(front, check), status);
      var own, fired := EventsFor(front, check), EventsFor(Transitions(map[], front), check);
      assert own + [] == own && fired + [] == fired;
    }
  }

  lemma NothingHappened(check: string)
    ensures EventsFor(Transitions(map[], []), check) == FiredBy(None, EventsFor([], check)) == []
  {
  }

  lemma OneMoreEvent(events: seq<(string, Status)>, name: string, status: Status)
    ensures var known := KnownIn(StateAfter(map[], events), name);
            Transitions(map[], events + [(name, status)])
            == if Fires(known, status) then Transitions(map[], events) + [(name, status)]
               else Transitions(map[], events)
  {
    assert (events + [(name, status)])[..|events|] == events;
  }

  /** What an alert is told about a check. */
  function Told(jobs: seq<Job>, alert: string, check: string): seq<Status> {
    if jobs == [] then []
    else
      var job := jobs[|jobs| - 1];
      Told(jobs[..|jobs| - 1], alert, check) + if job.alert == alert && job.check == check then [job.status] else []
  }

  lemma {:induction false} ToldConcat(a: seq<Job>, b: seq<Job>, alert: string, check: string)
    ensures Told(a + b, alert, check) == Told(a, alert, check) + Told(b, alert, check)
    decreases |b|
  {
    if b == [] {
      assert a + b == a;
    } else {
      ToldConcat(a, b[..|b| - 1], alert, check);
      assert (a + b)[..|a + b| - 1] == a + b[..|b| - 1];
    }
  }

  predicate DistinctNames(alerts: seq<Alert>) {
    forall i, j :: 0 <= i < j < |alerts| ==> alerts[i].name != alerts[j].name
  }

  /** Of one transition of a check each alert is told once if it lists the check, and otherwise not at all. */
  lemma {:induction false} ListenersAreTold(alerts: seq<Alert>, check: string, status: Status, a: Alert, asked: string)
    requires DistinctNames(alerts) && (forall b :: b in alerts && b.name == a.name ==> b == a)
    ensures Told(Jobs(Listeners(alerts, check), check, status), a.name, asked)
            == if a in alerts && check in a.onCheck && check == asked then [status] else []
    decreases |alerts|
  {
    hide Told;
    if alerts == [] {
      ToldNothing(a.name, asked);
      assert Jobs([], check, status) == [];
    } else {
      var front, last := alerts[..|alerts| - 1], alerts[|alerts| - 1];
      assert alerts == front + [last];
      ListenersAreTold(front, check, status, a, asked);
      ListenersStep(front, last, check);
      if check in last.onCheck {
        var names := Listeners(front, check);
        assert Jobs(names + [last.name], check, status) == Jobs(names, check, status) + [Job(last.name, check, status)];
        ToldConcat(Jobs(names, check, status), [Job(last.name, check, status)], a.name, asked);
        ToldOne(Job(last.name, check, status), a.name, asked);
      } else {
        assert Listeners(front, check) + [] == Listeners(front, check);
      }
    }
  }

  lemma ToldNothing(alert: string, check: string)
    ensures Told([], alert, check) == []
  {
  }

  lemma ToldOne(job: Job, alert: string, check: string)
    ensures Told([job], alert, check) == if job.alert == alert && job.check == check then [job.status] else []
  {
    assert [job][..0] == [];
  }

  lemma {:induction false} TransitionsAreTold(alerts: seq<Alert>, transitions: seq<(string, Status)>, a: Alert,
                                              check: string)
    requires DistinctNames(alerts) && (forall b :: b in alerts && b.name == a.name ==> b == a)
    ensures Told(JobsOf(alerts, transitions), a.name, check)
            == if a in alerts && check in a.onCheck then EventsFor(transitions, check) else []
    decreases |transitions|
  {
    hide Told, Jobs, Listeners, DistinctNames;
    if transitions == [] {
      ToldNothing(a.name, check);
    } else {
      var front := transitions[..|transitions| - 1];
      var (name, status) := transitions[|transitions| - 1];
      TransitionsAreTold(alerts, front, a, check);
      ListenersAreTold(alerts, name, status, a, check);
      ToldConcat(JobsOf(alerts, front), Jobs(Listeners(alerts, name), name, status), a.name, check);
    }
  }

  /**
    From a new sender on, over any events of any checks: an alert that lists a check is asked to deliver the changes of
    that check's status, from up and in order, down and up in turn, and nothing about other checks; whatever the
    delivery queue has no room for is missing at the end.
    */
  lemma AlertsAreToldOfChanges(alerts: seq<Alert>, events: seq<(string, Status)>, a: Alert, check: string, room: nat)
    requires DistinctNames(alerts) && a in alerts
    ensures var jobs := JobsOf(alerts, Transitions(map[], events));
            var told := Told(jobs, a.name, check);
            && told == (if check in a.onCheck then Changes(Up, EventsFor(events, check)) else [])
            && (forall i :: 0 <= i < |told| ==> told[i] == if i % 2 == 0 then Down else Up)
            && Told(FirstJobs(jobs, room), a.name, check) <= told
            && (|jobs| <= room ==> FirstJobs(jobs, room) == jobs)
  {
    hide Told, JobsOf, Transitions, Changes, FiredBy, DistinctNames;
    NamesDecide(alerts, a);
    var jobs := JobsOf(alerts, Transitions(map[], events));
    TransitionsAreTold(alerts, Transitions(map[], events), a, check);
    ChecksDoNotMix(events, check);
    FiredAreChanges(EventsFor(events, check));
    ChangesAlternate(EventsFor(events, check));
    if |jobs| > room {
      assert jobs == jobs[..room] + jobs[room..];
      ToldConcat(jobs[..room], jobs[room..], a.name, check);
    }
  }

  /** The delivery queue takes all that there is room for, and never more. */
  lemma RoomIsUsedUp(depth: nat, before: seq<Job>, more: seq<Job>)
    requires |before| <= depth
    ensures var after := before + FirstJobs(more, Room(depth, before));
            && after <= before + more
            && |after| == if |before| + |more| <= depth then |before| + |more| else depth
  {
  }

  lemma NamesDecide(alerts: seq<Alert>, a: Alert)
    requires DistinctNames(alerts) && a in alerts
    ensures forall b :: b in alerts && b.name == a.name ==> b == a
  {
  }

  // ---------------------------------------------------------------------
  // One check and its respawns
  // ---------------------------------------------------------------------

  /**
    Once the queue is handled the fired transitions are the changes of the status, and what is known is the status
    after the last probe, which is the check's own from its first run on.
    */
  ghost predicate InStep(w: World) {
    && w.fired + FiredBy(w.known, w.queue) == Changes(Up, w.statuses)
    && OrUp(KnownAfter(w.known, w.queue)) == LastOf(Up, w.statuses)
    && (!w.check.firstRun ==> w.check.status == LastOf(Up, w.statuses))
  }

  lemma ProbeKeepsStep(w: World, ok: bool)
    requires InStep(w)
    ensures InStep(TakeStep(w, Probe(ok)))
  {
    hide FiredBy, Changes, Fires;
    var s := Probed(w.check, ok).status;
    var t := TakeStep(w, Probe(ok));
    ChangesOneMore(w.statuses, s);
    assert LastOf(Up, t.statuses) == s;
    if EventsOf(w.check, ok) == [] {
      assert t.queue == w.queue;
      assert Changes(Up, w.statuses) + [] == Changes(Up, w.statuses);
    } else {
      FiresOnChange(KnownAfter(w.known, w.queue), s);
      FiredByOneMore(w.known, w.queue, s);
      if |EventsOf(w.check, ok)| == 1 {
        assert t.queue == w.queue + [s];
      } else {
        assert t.queue == (w.queue + [s]) + [s];
        FiresOnChange(KnownAfter(w.known, w.queue + [s]), s);
        FiredByOneMore(w.known, w.queue + [s], s);
      }
    }
  }

  lemma ChangesOneMore(statuses: seq<Status>, s: Status)
    ensures Changes(Up, statuses + [s]) == Changes(Up, statuses) + if s != LastOf(Up, statuses) then [s] else []
  {
    assert (statuses + [s])[..|statuses|] == statuses;
  }

  /** A probe left over from before a respawn reports nothing, or what was reported last anyway. */
  predicate Harmless(w: World, step: Step) {
    step.Straggle? && step.index < |w.retired| ==>
      || EventsOf(w.retired[step.index], step.ok) == []
      || Probed(w.retired[step.index], step.ok).status == LastOf(Up, w.statuses)
  }

  lemma QueuedMore(known: Option<Status>, queue: seq<Status>, more: seq<Status>)
    requires |more| <= 2 && forall i :: 0 <= i < |more| ==> more[i] == more[0]
    ensures FiredBy(known, queue + more)
            == FiredBy(known, queue) + if more != [] && more[0] != OrUp(KnownAfter(known, queue)) then [more[0]] else []
    ensures more != [] ==> KnownAfter(known, queue + more) == Some(more[0])
    ensures more == [] ==> queue + more == queue
  {
    hide FiredBy, Fires;
    if more == [] {
      assert queue + more == queue;
    } else {
      FiresOnChange(KnownAfter(known, queue), more[0]);
      FiredByOneMore(known, queue, more[0]);
      if |more| == 1 {
        assert queue + more == queue + [more[0]];
      } else {
        assert queue + more == (queue + [more[0]]) + [more[0]];
        FiresOnChange(KnownAfter(known, queue + [more[0]]), more[0]);
        FiredByOneMore(known, queue + [more[0]], more[0]);
      }
    }
  }

  /** A straggler keeps step exactly if it is harmless. */
  lemma StraggleExactly(w: World, i: nat, ok: bool)
    requires InStep(w) && CanStep(w, Straggle(i, ok))
    ensures InStep(TakeStep(w, Straggle(i, ok))) <==> Harmless(w, Straggle(i, ok))
  {
    hide FiredBy, Changes, Fires;
    var more := EventsOf(w.retired[i], ok);
    QueuedMore(w.known, w.queue, more);
    if more != [] {
      assert more[0] == Probed(w.retired[i], ok).status;
      var t := TakeStep(w, Straggle(i, ok));
      var before := w.fired + FiredBy(w.known, w.queue);
      if more[0] != LastOf(Up, w.statuses) {
        assert t.fired + FiredBy(t.known, t.queue) == before + [more[0]];
        assert |before + [more[0]]| != |before|;
      }
    }
  }

  lemma StepStaysInStep(w: World, step: Step)
    requires InStep(w) && CanStep(w, step)
    ensures InStep(TakeStep(w, step)) <==> Harmless(w, step)
  {
    hide FiredBy, Changes, Fires;
    match step
    case Probe(ok) => ProbeKeepsStep(w, ok);
    case Handle =>
      FiredByHead(w.known, w.queue);
      var head := if Fires(w.known, w.queue[0]) then [w.queue[0]] else [];
      assert w.fired + (head + FiredBy(Some(w.queue[0]), w.queue[1..]))
          == (w.fired + head) + FiredBy(Some(w.queue[0]), w.queue[1..]);
    case Respawn(_, _) =>
    case Straggle(i, ok) => StraggleExactly(w, i, ok);
  }

  /** Every straggler of the run is harmless. */
  ghost predicate AllHarmless(w: World, steps: seq<Step>)
    requires CanRun(w, steps)
    decreases |steps|
  {
    steps != [] ==>
      && AllHarmless(w, steps[..|steps| - 1])
      && Harmless(After(w, steps[..|steps| - 1]), steps[|steps| - 1])
  }

  ghost predicate AlwaysInStep(w: World, steps: seq<Step>)
    requires CanRun(w, steps)
    decreases |steps|
  {
    InStep(After(w, steps)) && (steps != [] ==> AlwaysInStep(w, steps[..|steps| - 1]))
  }

  /** The fired transitions are the changes of the status throughout a run exactly if every straggler is harmless. */
  lemma {:induction false} InStepExactly(threshold: nat, steps: seq<Step>)
    requires CanRun(Boot(threshold), steps)
    ensures AlwaysInStep(Boot(threshold), steps) <==> AllHarmless(Boot(threshold), steps)
    ensures AllHarmless(Boot(threshold), steps) ==> InStep(After(Boot(threshold), steps))
    decreases |steps|
  {
    hide InStep, TakeStep, Harmless;
    if steps == [] {
      NothingYet(threshold);
    } else {
      var front, last := steps[..|steps| - 1], steps[|steps| - 1];
      InStepExactly(threshold, front);
      if InStep(After(Boot(threshold), front)) {
        StepStaysInStep(After(Boot(threshold), front), last);
      }
      AlwaysMeansNow(Boot(threshold), front);
    }
  }

  lemma AlwaysMeansNow(w: World, steps: seq<Step>)
    requires CanRun(w, steps)
    ensures AlwaysInStep(w, steps) ==> InStep(After(w, steps))
  {
    hide InStep, TakeStep;
  }

  lemma NothingYet(threshold: nat)
    ensures InStep(Boot(threshold))
  {
  }

  /**
    Over any run in which stragglers are harmless, with events still queued at a respawn or not: the fired
    transitions are the changes of the probed status, in turn down and up, as far as the events have been handled.
    */
  lemma AlertsAreStatusChanges(threshold: nat, steps: seq<Step>)
    requires CanRun(Boot(threshold), steps) && AllHarmless(Boot(threshold), steps)
    ensures var w := After(Boot(threshold), steps);
            && w.fired <= Changes(Up, w.statuses)
            && (w.queue == [] ==> w.fired == Changes(Up, w.statuses) && OrUp(w.known) == LastOf(Up, w.statuses))
            && forall i :: 0 <= i < |w.fired| ==> w.fired[i] == if i % 2 == 0 then Down else Up
  {
    hide TakeStep, Changes, AllHarmless, After, CanRun;
    InStepExactly(threshold, steps);
    var w := After(Boot(threshold), steps);
    ChangesAlternate(w.statuses);
    assert forall i :: 0 <= i < |w.fired| ==> w.fired[i] == Changes(Up, w.statuses)[i];
    if w.queue == [] {
      assert w.fired + [] == w.fired;
    }
  }

  // ---------------------------------------------------------------------
  // Stragglers before and after the first probe
  // ---------------------------------------------------------------------

  /** From its first probe on, a check's own status is what will be known of it once the queue is handled. */
  ghost predicate Settled(w: World) {
    !w.check.firstRun ==> OrUp(KnownAfter(w.known, w.queue)) == w.check.status == LastOf(Up, w.statuses)
  }

  /** The first probe of a check settles it, whatever has been reported before. */
  lemma FirstProbeSettles(w: World, ok: bool)
    requires w.check.firstRun
    ensures Settled(TakeStep(w, Probe(ok))) && !TakeStep(w, Probe(ok)).check.firstRun
  {
    var s := Probed(w.check, ok).status;
    var more := EventsOf(w.check, ok);
    assert more[|more| - 1] == s;
    assert (w.queue + more)[|w.queue + more| - 1] == s;
  }

  /** So a straggler that reports before that probe does no lasting harm, and later ones exactly if not harmless. */
  lemma StepStaysSettled(w: World, step: Step)
    requires Settled(w) && CanStep(w, step)
    ensures Settled(TakeStep(w, step)) <==> w.check.firstRun || Harmless(w, step)
  {
    match step
    case Probe(ok) =>
      if w.check.firstRun {
        FirstProbeSettles(w, ok);
      } else {
        var more := EventsOf(w.check, ok);
        assert more == [] ==> w.queue + more == w.queue;
      }
    case Handle =>
    case Respawn(_, _) =>
    case Straggle(i, ok) =>
      var more := EventsOf(w.retired[i], ok);
      if more == [] {
        assert w.queue + more == w.queue;
      } else {
        assert more[|more| - 1] == Probed(w.retired[i], ok).status;
        assert (w.queue + more)[|w.queue + more| - 1] == more[|more| - 1];
      }
  }

  /** Every straggler of the run reports before the first probe of the check then running, or is harmless. */
  ghost predicate InTimeOrHarmless(w: World, steps: seq<Step>)
    requires CanRun(w, steps)
    decreases |steps|
  {
    steps != [] ==>
      && InTimeOrHarmless(w, steps[..|steps| - 1])
      && (var before := After(w, steps[..|steps| - 1]);
          before.check.firstRun || Harmless(before, steps[|steps| - 1]))
  }

  ghost predicate AlwaysSettled(w: World, steps: seq<Step>)
    requires CanRun(w, steps)
    decreases |steps|
  {
    Settled(After(w, steps)) && (steps != [] ==> AlwaysSettled(w, steps[..|steps| - 1]))
  }

  /**
    Throughout a run with any respawns, the alert state follows the check that is running exactly if every straggler
    reports before that check's first probe or is harmless.
    */
  lemma {:induction false} SettledExactly(threshold: nat, steps: seq<Step>)
    requires CanRun(Boot(threshold), steps)
    ensures AlwaysSettled(Boot(threshold), steps) <==> InTimeOrHarmless(Boot(threshold), steps)
    ensures InTimeOrHarmless(Boot(threshold), steps) ==> Settled(After(Boot(threshold), steps))
    decreases |steps|
  {
    hide Settled, TakeStep, Harmless;
    if steps == [] {
      UnprobedIsSettled(threshold);
    } else {
      var front, last := steps[..|steps| - 1], steps[|steps| - 1];
      SettledExactly(threshold, front);
      if Settled(After(Boot(threshold), front)) {
        StepStaysSettled(After(Boot(threshold), front), last);
      }
      AlwaysSettledMeansNow(Boot(threshold), front);
    }
  }

  lemma AlwaysSettledMeansNow(w: World, steps: seq<Step>)
    requires CanRun(w, steps)
    ensures AlwaysSettled(w, steps) ==> Settled(After(w, steps))
  {
    hide Settled, TakeStep;
  }

  lemma UnprobedIsSettled(threshold: nat)
    ensures Settled(Boot(threshold))
  {
  }

  // ---------------------------------------------------------------------
  // Respawns
  // ---------------------------------------------------------------------

  /** A respawned check takes over its predecessor's status exactly if no queued event would change what is known. */
  lemma RespawnKeepsStatusExactly(threshold: nat, steps: seq<Step>, again: nat, busy: bool)
    requires CanRun(Boot(threshold), steps) && AllHarmless(Boot(threshold), steps)
    requires !After(Boot(threshold), steps).check.firstRun
    ensures var w := After(Boot(threshold), steps);
            TakeStep(w, Respawn(again, busy)).check.status == w.check.status
            <==> NothingNewQueued(w)
  {
    hide After, CanRun, Changes, FiredBy, AllHarmless;
    InStepExactly(threshold, steps);
  }

  /** No queued event would change what is known, so a check respawned now takes over the status. */
  predicate NothingNewQueued(w: World) {
    w.queue == [] || w.queue[|w.queue| - 1] == OrUp(w.known)
  }

  /** Every respawn of the run finds no event queued that would change what is known. */
  ghost predicate RespawnsKnowing(threshold: nat, steps: seq<Step>)
    requires CanRun(Boot(threshold), steps)
    decreases |steps|
  {
    steps != [] ==>
      && RespawnsKnowing(threshold, steps[..|steps| - 1])
      && (steps[|steps| - 1].Respawn? ==> NothingNewQueued(After(Boot(threshold), steps[..|steps| - 1])))
  }

  /** The probe results since the last respawn. */
  ghost function ResultsSince(steps: seq<Step>): seq<bool>
    decreases |steps|
  {
    if steps == [] then []
    else match steps[|steps| - 1]
      case Probe(ok) => ResultsSince(steps[..|steps| - 1]) + [ok]
      case Respawn(_, _) => []
      case _ => ResultsSince(steps[..|steps| - 1])
  }

  ghost predicate Carried(w: World, results: seq<bool>) {
    && w.check.status == LastOf(Up, w.statuses)
    && w.check.failures == FailureRun(results)
  }

  lemma ProbeCarries(w: World, results: seq<bool>, ok: bool)
    requires Carried(w, results)
    ensures Carried(TakeStep(w, Probe(ok)), results + [ok])
  {
    assert (results + [ok])[..|results|] == results;
  }

  lemma RespawnCarries(w: World, threshold: nat, busy: bool)
    requires InStep(w) && NothingNewQueued(w)
    ensures Carried(TakeStep(w, Respawn(threshold, busy)), [])
  {
    hide Changes, FiredBy;
  }

  lemma {:induction false} KnowingRunsCarry(threshold: nat, steps: seq<Step>)
    requires CanRun(Boot(threshold), steps) && AllHarmless(Boot(threshold), steps)
    requires RespawnsKnowing(threshold, steps)
    ensures Carried(After(Boot(threshold), steps), ResultsSince(steps))
    decreases |steps|
  {
    hide Probed, EventsOf, Harmless;
    if steps != [] {
      var front, last := steps[..|steps| - 1], steps[|steps| - 1];
      KnowingRunsCarry(threshold, front);
      match last
      case Probe(ok) => ProbeCarries(After(Boot(threshold), front), ResultsSince(front), ok);
      case Respawn(again, busy) =>
        InStepExactly(threshold, front);
        RespawnCarries(After(Boot(threshold), front), again, busy);
      case _ =>
    }
  }

  /**
    When no respawn finds an event queued that would change what is known, a recovery is always that of a successful
    probe, and a check goes down exactly when the run of failures since the last respawn reaches the threshold.
    */
  lemma TransitionsAreEarned(threshold: nat, steps: seq<Step>, ok: bool)
    requires CanRun(Boot(threshold), steps) && AllHarmless(Boot(threshold), steps)
    requires RespawnsKnowing(threshold, steps)
    ensures var w := After(Boot(threshold), steps);
            var before, after := LastOf(Up, w.statuses), LastOf(Up, TakeStep(w, Probe(ok)).statuses);
            && (after == Up <==>
                  ok || (before == Up && FailureRun(ResultsSince(steps) + [ok]) < Needed(w.check.threshold)))
            && (before == Down && after == Up ==> ok)
            && (before == Up && after == Down ==> FailureRun(ResultsSince(steps) + [ok]) >= Needed(w.check.threshold))
  {
    hide After, CanRun;
    KnowingRunsCarry(threshold, steps);
    var results := ResultsSince(steps);
    assert (results + [ok])[..|results|] == results;
  }

  /**
    A failing probe turns Down into Up exactly if the check counts itself up below its threshold while it was last
    reported down, which can only be at its first run.
    */
  lemma UnearnedRecoveryExactly(w: World)
    requires InStep(w)
    ensures var after := LastOf(Up, TakeStep(w, Probe(false)).statuses);
            && (LastOf(Up, w.statuses) == Down && after == Up
                <==> w.check.status == Up && w.check.failures + 1 < w.check.threshold && LastOf(Up, w.statuses) == Down)
            && (LastOf(Up, w.statuses) == Down && after == Up ==> w.check.firstRun)
  {
    hide FiredBy, Changes;
  }

  /**
    After a respawn that is: exactly if the check was last probed down, the alert sender has not handled that yet, and
    the new threshold takes more than one failure.
    */
  lemma RespawnRecoversExactly(w: World, again: nat, busy: bool)
    requires InStep(w)
    ensures var t := TakeStep(w, Respawn(again, busy));
            LastOf(Up, t.statuses) == Down && LastOf(Up, TakeStep(t, Probe(false)).statuses) == Up
            <==> again > 1 && LastOf(Up, w.statuses) == Down && OrUp(w.known) == Up
  {
    hide FiredBy, Changes;
  }

  /** A respawn while a Down is queued: a recovery fires although every probe has failed. */
  lemma SpuriousRecovery()
    ensures var steps := [Probe(false), Respawn(3, false), Probe(false), Handle, Handle, Handle];
            && CanRun(Boot(1), steps)
            && After(Boot(1), steps).fired == [Down, Up]
  {
    hide CanRun, After, TakeStep;
    var front := [Probe(false), Respawn(3, false), Probe(false)];
    DownQueuedAtRespawn();
    var w := After(Boot(1), front);
    HandledOne(w);
    RunOn(Boot(1), front, Handle, front + [Handle]);
    HandledOne(TakeStep(w, Handle));
    RunOn(Boot(1), front + [Handle], Handle, front + [Handle, Handle]);
    HandledOne(TakeStep(TakeStep(w, Handle), Handle));
    RunOn(Boot(1), front + [Handle, Handle], Handle, front + [Handle, Handle, Handle]);
    assert front + [Handle, Handle, Handle]
        == [Probe(false), Respawn(3, false), Probe(false), Handle, Handle, Handle];
  }

  lemma DownQueuedAtRespawn()
    ensures var steps := [Probe(false), Respawn(3, false), Probe(false)];
            && CanRun(Boot(1), steps)
            && After(Boot(1), steps) == World(Check(3, 1, Up, false), [], [Down, Down, Up], None, [], [Down, Up])
  {
    hide CanRun, After;
    RunOnly(Boot(1), Probe(false));
    assert EventsOf(NewCheck(1, Up), false) == [Down, Down];
    RunOn(Boot(1), [Probe(false)], Respawn(3, false), [Probe(false), Respawn(3, false)]);
    assert EventsOf(NewCheck(3, Up), false) == [Up];
    RunOn(Boot(1), [Probe(false), Respawn(3, false)], Probe(false), [Probe(false), Respawn(3, false), Probe(false)]);
  }

  lemma HandledOne(w: World)
    requires w.queue != []
    ensures TakeStep(w, Handle).queue == w.queue[1..] && TakeStep(w, Handle).known == Some(w.queue[0])
    ensures TakeStep(w, Handle).fired == if Fires(w.known, w.queue[0]) then w.fired + [w.queue[0]] else w.fired
  {
  }

  lemma RunOnly(w: World, step: Step)
    requires CanStep(w, step)
    ensures CanRun(w, [step]) && After(w, [step]) == TakeStep(w, step)
  {
    hide TakeStep, CanStep;
    assert [step][..0] == [];
    assert CanRun(w, []) && After(w, []) == w;
  }

  lemma RunOn(w: World, steps: seq<Step>, step: Step, longer: seq<Step>)
    requires CanRun(w, steps) && CanStep(After(w, steps), step) && longer == steps + [step]
    ensures CanRun(w, longer) && After(w, longer) == TakeStep(After(w, steps), step)
  {
    hide TakeStep, CanStep;
    RunFrom(w, steps, step);
  }

  lemma RunFrom(w: World, steps: seq<Step>, step: Step)
    requires CanRun(w, steps) && CanStep(After(w, steps), step)
    ensures CanRun(w, steps + [step]) && After(w, steps + [step]) == TakeStep(After(w, steps), step)
  {
    hide TakeStep, CanStep;
    assert (steps + [step])[..|steps|] == steps;
  }

  /**
    A probe that was under way at a respawn reports after the new check's first run: the alert stays down while
    the check is up, through any number of successful probes.
    */
  lemma {:induction false} StragglerSticks(w: World, n: nat) returns (steps: seq<Step>)
    requires w.check.status == Up && !w.check.firstRun && w.queue == [] && OrUp(w.known) == Up
    requires w.retired == [Check(1, 0, Up, false)]
    ensures |steps| == n + 2 && CanRun(w, steps)
    ensures steps[0] == Straggle(0, false) && steps[1] == Handle
    ensures forall i :: 2 <= i < |steps| ==> steps[i] == Probe(true)
    ensures var t := After(w, steps);
            t.check.status == Up && t.queue == [] && t.known == Some(Down) && t.fired == w.fired + [Down]
            && !t.check.firstRun
    decreases n
  {
    if n == 0 {
      RunFrom(w, [], Straggle(0, false));
      assert [] + [Straggle(0, false)] == [Straggle(0, false)];
      var w1 := TakeStep(w, Straggle(0, false));
      assert w1.queue == [Down];
      RunFrom(w, [Straggle(0, false)], Handle);
      steps := [Straggle(0, false)] + [Handle];
    } else {
      var front := StragglerSticks(w, n - 1);
      var t := After(w, front);
      RunFrom(w, front, Probe(true));
      steps := front + [Probe(true)];
    }
  }

  /** The state it starts from is reached by one respawn with a probe under way. */
  lemma StragglerCanBeLeft() returns (steps: seq<Step>)
    ensures CanRun(Boot(1), steps)
    ensures var w := After(Boot(1), steps);
            && w.check.status == Up && !w.check.firstRun && w.queue == [] && OrUp(w.known) == Up
            && w.retired == [Check(1, 0, Up, false)]
  {
    hide CanRun, After;
    var c := Check(1, 0, Up, false);
    RunOnly(Boot(1), Probe(true));
    assert EventsOf(NewCheck(1, Up), true) == [Up];
    assert After(Boot(1), [Probe(true)]) == World(c, [], [Up], None, [], [Up]);
    RunFrom(Boot(1), [Probe(true)], Handle);
    RunFrom(Boot(1), [Probe(true)] + [Handle], Respawn(1, true));
    RunFrom(Boot(1), [Probe(true)] + [Handle] + [Respawn(1, true)], Probe(true));
    RunFrom(Boot(1), [Probe(true)] + [Handle] + [Respawn(1, true)] + [Probe(true)], Handle);
    steps := [Probe(true)] + [Handle] + [Respawn(1, true)] + [Probe(true)] + [Handle];
  }

  // ---------------------------------------------------------------------
  // Repeated Down events
  // ---------------------------------------------------------------------

  function Downs(events: seq<Status>): nat {
    if events == [] then 0 else Downs(events[..|events| - 1]) + if events[|events| - 1] == Down then 1 else 0
  }

  /**
    The actions a service takes on a failing check are per Down event, not per transition: a probe sends a Down
    beyond the transition itself exactly if it is a check's first and leaves it down.
    */
  lemma FirstProbeRepeatsDown(c: Check, ok: bool)
    ensures var after := Probed(c, ok).status;
            Downs(EventsOf(c, ok)) > (if c.status == Up && after == Down then 1 else 0)
            <==> c.firstRun && after == Down
  {
    var after := Probed(c, ok).status;
    assert Downs([]) == 0;
    assert [after][..0] == [];
    assert Downs([after]) == if after == Down then 1 else 0;
    if |EventsOf(c, ok)| == 2 {
      assert EventsOf(c, ok) == [after, after];
      assert [after, after][..1] == [after];
    } else if |EventsOf(c, ok)| == 1 {
      assert EventsOf(c, ok) == [after];
    }
  }
}
