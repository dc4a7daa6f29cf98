/** What the commands to a service achieve: what they promise in their reply is what the actor then does. */
module ActorCommands {
  import opened Prelude
  import opened ServiceActor
  import opened ActorRuns

  // ---------------------------------------------------------------------
  // Start
  // ---------------------------------------------------------------------

  /** A service that is down is brought up, or ends in Error if the spawn fails; one that is up is left alone. */
  lemma StartBringsUp(a: ActorState, ok: bool)
    requires LoopHead(a) && !a.halted
    ensures var b := Step(a, StartCmd(ok));
            if a.state in {Active, Stopping} then b == a
            else if ok then b.state == Active && b.child == Some(a.spawned) && b.spawned == a.spawned + 1
            else b.state == Error && b.child == a.child && b.spawned == a.spawned
  {
    hide Config.Delay;
  }

  /** The reply is success exactly if the service is then up. */
  lemma StartReplyIsTrue(a: ActorState, ok: bool)
    requires LoopHead(a) && !a.halted
    ensures StartReply(a, ok) <==> Step(a, StartCmd(ok)).state == Active
  {
    hide Config.Delay;
  }

  /** The reply to a Restart is success exactly if the service is then up or coming back once its process is gone. */
  lemma RestartReplyIsTrue(a: ActorState, ok: bool)
    requires LoopHead(a) && !a.halted
    ensures var b := Step(a, RestartCmd(ok));
            RestartReply(a, ok) <==> b.state == Active || (b.state == Stopping && b.pendingRestart && b.child.Some?)
  {
    hide Config.Delay;
  }

  /** The end of a backoff starts the service again, once, or ends in Error. */
  lemma ExpiryBringsUp(a: ActorState, ok: bool)
    requires Clean(a) && !a.halted && a.state == ServiceState.Backoff
    ensures CanHappen(a, BackoffExpired(ok))
    ensures var b := Step(a, BackoffExpired(ok));
            && b.backoffSleep == None
            && b.spawned == a.spawned + (if ok then 1 else 0)
            && b.state == (if ok then Active else Error)
            && b.child == (if ok then Some(a.spawned) else None)
  {
  }

  // ---------------------------------------------------------------------
  // Stop and Restart, up to the exit of the process
  // ---------------------------------------------------------------------

  /** Inputs that ask for nothing new: no Start, no Restart, and the daemon goes on. */
  predicate Undisturbed(inputs: seq<Input>) {
    forall i :: i in inputs ==> !i.StartCmd? && !i.RestartCmd? && !i.ShutdownCmd?
  }

  /** The process is told to stop and has not exited yet. */
  ghost predicate Ending(a: ActorState, restart: bool) {
    Clean(a) && !a.halted && a.state == Stopping && a.pendingRestart == restart
  }

  lemma StillEnding(a: ActorState, i: Input, restart: bool)
    requires Ending(a, restart) && CanHappen(a, i) && Undisturbed([i]) && !i.ChildExit?
    ensures Ending(Step(a, i), restart) && Step(a, i).spawned == a.spawned
  {
    assert i in [i];
    StepKeepsClean(a, i);
  }

  lemma {:induction false} EndingUntilExit(a: ActorState, inputs: seq<Input>, restart: bool)
    requires Ending(a, restart) && Possible(a, inputs) && Undisturbed(inputs)
    requires forall i :: i in inputs ==> !i.ChildExit?
    ensures Ending(Run(a, inputs), restart) && Run(a, inputs).spawned == a.spawned
    decreases |inputs|
  {
    hide Step, CanHappen, Ending;
    if inputs != [] {
      StillEnding(a, inputs[0], restart);
      EndingUntilExit(Step(a, inputs[0]), inputs[1..], restart);
    }
  }

  /** The exit ends the stop: whatever the exit policies say, the service comes back exactly if it is to restart. */
  lemma ExitEndsStop(a: ActorState, success: bool, ok: bool, restart: bool)
    requires Ending(a, restart)
    ensures CanHappen(a, ChildExit(success, ok))
    ensures var b := Step(a, ChildExit(success, ok));
            && b.spawned == a.spawned + (if restart && ok then 1 else 0)
            && b.state == (if !restart then Inactive else if ok then Active else Error)
            && !b.pendingRestart && b.backoffSleep == None
  {
    hide Config.Delay, ApplyPolicy;
  }

  lemma {:induction false} RunSplit(a: ActorState, inputs: seq<Input>, n: nat)
    requires n <= |inputs| && Possible(a, inputs)
    ensures Possible(a, inputs[..n]) && Possible(Run(a, inputs[..n]), inputs[n..])
    ensures Run(Run(a, inputs[..n]), inputs[n..]) == Run(a, inputs)
    decreases n
  {
    hide Step, CanHappen;
    if n > 0 {
      RunSplit(Step(a, inputs[0]), inputs[1..], n - 1);
      assert inputs[1..][..n - 1] == inputs[..n][1..] && inputs[1..][n - 1..] == inputs[n..];
    } else {
      assert inputs[..0] == [] && inputs[0..] == inputs;
    }
  }

  lemma FirstExit(a: ActorState, more: seq<Input>, n: nat, restart: bool)
    requires Ending(a, restart) && Possible(a, more) && Undisturbed(more)
    requires n < |more| && more[n].ChildExit? && forall j :: 0 <= j < n ==> !more[j].ChildExit?
    ensures Possible(a, more[..n]) && Possible(a, more[..n + 1])
    ensures Run(a, more[..n]).spawned == a.spawned && Run(a, more[..n]).state == Stopping
    ensures var b := Run(a, more[..n + 1]);
            && b.spawned == a.spawned + (if restart && more[n].ok then 1 else 0)
            && b.state == (if !restart then Inactive else if more[n].ok then Active else Error)
  {
    hide Step, CanHappen, Clean, Run, Possible;
    RunSplit(a, more, n);
    RunSplit(a, more, n + 1);
    RunSplit(a, more[..n + 1], n);
    assert more[..n + 1][..n] == more[..n] && more[..n + 1][n..] == [more[n]];
    EndingUntilExit(a, more[..n], restart);
    var b := Run(a, more[..n]);
    ExitEndsStop(b, more[n].success, more[n].ok, restart);
    RunOne(b, more[n]);
  }

  lemma RestartEnds(a: ActorState, ok: bool)
    requires Clean(a) && !a.halted && a.state in {Active, Stopping}
    ensures Ending(Step(a, RestartCmd(ok)), true) && Step(a, RestartCmd(ok)).spawned == a.spawned
  {
    StepKeepsClean(a, RestartCmd(ok));
  }

  lemma StopEnds(a: ActorState)
    requires Clean(a) && !a.halted && a.state == Active
    ensures Ending(Step(a, StopCmd), false) && Step(a, StopCmd).spawned == a.spawned
  {
    StepKeepsClean(a, StopCmd);
  }

  /**
    A Restart of a running or stopping service is carried out: in every continuation, with any Stops, signals, kills
    and exit policies, nothing is spawned until the process exits, and that exit starts the service once.
    */
  lemma RestartIsCarriedOut(a: ActorState, ok: bool, more: seq<Input>, n: nat)
    requires Clean(a) && !a.halted && a.state in {Active, Stopping}
    requires Possible(Step(a, RestartCmd(ok)), more) && Undisturbed(more)
    requires n < |more| && more[n].ChildExit? && forall j :: 0 <= j < n ==> !more[j].ChildExit?
    ensures var b := Step(a, RestartCmd(ok));
            && Possible(b, more[..n]) && Possible(b, more[..n + 1])
            && Run(b, more[..n]).spawned == a.spawned && Run(b, more[..n]).state == Stopping
            && Run(b, more[..n + 1]).spawned == a.spawned + (if more[n].ok then 1 else 0)
            && Run(b, more[..n + 1]).state == (if more[n].ok then Active else Error)
  {
    hide Step, Clean, Run, Possible;
    RestartEnds(a, ok);
    FirstExit(Step(a, RestartCmd(ok)), more, n, true);
  }

  /** And there is such a continuation: the process can exit at once. */
  lemma RestartComesBack(a: ActorState, ok: bool, success: bool)
    requires Clean(a) && !a.halted && a.state in {Active, Stopping}
    ensures Possible(a, [RestartCmd(ok), ChildExit(success, true)])
    ensures var b := Run(a, [RestartCmd(ok), ChildExit(success, true)]);
            b.state == Active && b.spawned == a.spawned + 1 && b.child == Some(a.spawned)
  {
    hide Step, Clean;
    var b := Step(a, RestartCmd(ok));
    RestartEnds(a, ok);
    ExitEndsStop(b, success, true, true);
    StartedBy(b, success);
    RunOne(b, ChildExit(success, true));
    assert [RestartCmd(ok), ChildExit(success, true)][1..] == [ChildExit(success, true)];
  }

  lemma StartedBy(a: ActorState, success: bool)
    requires Ending(a, true)
    ensures CanHappen(a, ChildExit(success, true)) && Step(a, ChildExit(success, true)).child == Some(a.spawned)
  {
    hide Config.Delay, ApplyPolicy;
  }

  /** A Restart of a service that is down starts it at once. */
  lemma RestartStartsAtOnce(a: ActorState, ok: bool)
    requires LoopHead(a) && !a.halted && a.state in {Inactive, ServiceState.Backoff, Error}
    ensures var b := Step(a, RestartCmd(ok));
            && b.state == (if ok then Active else Error)
            && b.spawned == a.spawned + (if ok then 1 else 0)
  {
    hide Config.Delay;
  }

  /** A Stop of a running service ends it with the next exit of its process, whatever the exit policies say. */
  lemma StopIsCarriedOut(a: ActorState, more: seq<Input>, n: nat)
    requires Clean(a) && !a.halted && a.state == Active
    requires Possible(Step(a, StopCmd), more) && Undisturbed(more)
    requires n < |more| && more[n].ChildExit? && forall j :: 0 <= j < n ==> !more[j].ChildExit?
    ensures var b := Step(a, StopCmd);
            && Possible(b, more[..n]) && Possible(b, more[..n + 1])
            && Run(b, more[..n]).spawned == a.spawned && Run(b, more[..n]).state == Stopping
            && Run(b, more[..n + 1]).spawned == a.spawned && Run(b, more[..n + 1]).state == Inactive
  {
    hide Step, Clean, Run, Possible;
    StopEnds(a);
    FirstExit(Step(a, StopCmd), more, n, false);
  }

  // ---------------------------------------------------------------------
  // Signals and shutdown
  // ---------------------------------------------------------------------

  /** The signals of a list that were forwarded from outside. */
  function ForwardedIn(signals: seq<(Process, Signal)>): seq<(Process, int)> {
    if signals == [] then []
    else
      var (p, s) := signals[|signals| - 1];
      ForwardedIn(signals[..|signals| - 1]) + match s { case Forwarded(n) => [(p, n)] case _ => [] }
  }

  /** The signals asked for while there was a process to send them to. */
  function ForwardsAsked(a: ActorState, inputs: seq<Input>): seq<(Process, int)>
    requires Possible(a, inputs)
    decreases |inputs|
  {
    if inputs == [] then []
    else
      (if inputs[0].SignalCmd? && a.child.Some? then [(a.child.value, inputs[0].number)] else [])
      + ForwardsAsked(Step(a, inputs[0]), inputs[1..])
  }

  lemma OneMoreSignal(signals: seq<(Process, Signal)>, p: Process, s: Signal)
    ensures ForwardedIn(signals + [(p, s)])
            == ForwardedIn(signals) + match s { case Forwarded(n) => [(p, n)] case _ => [] }
  {
    assert (signals + [(p, s)])[..|signals|] == signals;
  }

  lemma SendForwards(a: ActorState, s: Signal)
    ensures ForwardedIn(Send(a, s).signals)
            == ForwardedIn(a.signals)
               + if s.Forwarded? && a.child.Some? then [(a.child.value, s.number)] else []
  {
    hide ForwardedIn;
    if a.child.Some? {
      OneMoreSignal(a.signals, a.child.value, s);
    }
  }

  lemma StepForwards(a: ActorState, i: Input)
    requires CanHappen(a, i)
    ensures ForwardedIn(Step(a, i).signals)
            == ForwardedIn(a.signals) + if i.SignalCmd? && a.child.Some? then [(a.child.value, i.number)] else []
  {
    hide ForwardedIn, Config.Delay, Config.Limit, Config.NextDelay;
    SendForwards(a, StopSignal);
    SendForwards(Send(a, StopSignal), KillSignal);
    SendForwards(a, KillSignal);
    if i.SignalCmd? {
      SendForwards(a, Forwarded(i.number));
    }
  }

  /** Over any run exactly those reach a process, each the one of its moment, in the order they were asked for. */
  lemma {:induction false} ForwardedExactly(a: ActorState, inputs: seq<Input>)
    requires Possible(a, inputs)
    ensures ForwardedIn(Run(a, inputs).signals) == ForwardedIn(a.signals) + ForwardsAsked(a, inputs)
    decreases |inputs|
  {
    hide Step, CanHappen, ForwardedIn;
    if inputs != [] {
      StepForwards(a, inputs[0]);
      ForwardedExactly(Step(a, inputs[0]), inputs[1..]);
    }
  }

  /** Shutting down stops and then kills the process, if there is one, and nothing can happen afterwards. */
  lemma ShutdownIsFinal(a: ActorState, more: seq<Input>)
    requires Clean(a) && !a.halted
    ensures var b := Step(a, ShutdownCmd);
            && b.alive == {} && b.spawned == a.spawned
            && (a.child.Some? ==> b.signals == a.signals + [(a.child.value, StopSignal), (a.child.value, KillSignal)])
            && (Possible(b, more) ==> more == [])
  {
  }
}
