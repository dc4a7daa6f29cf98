/** What every run of a service actor keeps, over all interleavings of commands, exits and timers. */
module ActorRuns {
  import opened Prelude
  import opened ServiceActor

  // ---------------------------------------------------------------------
  // The invariant at the head of the select loop
  // ---------------------------------------------------------------------

  ghost predicate LoopHead(a: ActorState) {
    && a.state != Starting
    && (a.state == Active || a.state == Stopping ==> a.halted || a.child.Some?)
    && (a.child.Some? ==> !a.halted && a.child.value in a.alive)
    && (forall p :: p in a.alive ==> p < a.spawned)
    && (a.stopDeadline ==> a.state == Stopping)
    && (a.state == Stopping && !a.halted ==> ToldToStop(a, a.child.value))
    && (a.pendingRestart ==> a.state == Stopping && a.backoffSleep.None?)
    && (a.state == Backoff ==> a.backoffSleep.Some?)
  }

  /** The process got the stop signal, and the kill deadline is running or it got SIGKILL as well. */
  ghost predicate ToldToStop(a: ActorState, p: Process) {
    (p, StopSignal) in a.signals && (a.stopDeadline || (p, KillSignal) in a.signals)
  }

  lemma StartKeepsLoopHead(a: ActorState, ok: bool)
    requires LoopHead(a) && !a.halted
    ensures LoopHead(HandleStart(a, ok))
  {
    hide Config.Delay;
  }

  lemma ChildExitKeepsLoopHead(a: ActorState, success: bool, ok: bool)
    requires LoopHead(a) && a.child.Some?
    ensures LoopHead(HandleChildExit(a, success, ok))
  {
    hide Config.Policy, Config.Delay, Config.NextDelay, BackoffLimitExceeded;
  }

  lemma BackoffExpiryKeepsLoopHead(a: ActorState, ok: bool)
    requires LoopHead(a) && !a.halted && a.backoffSleep.Some?
    ensures LoopHead(HandleBackoffExpired(a, ok))
  {
  }

  lemma StepKeepsLoopHead(a: ActorState, i: Input)
    requires LoopHead(a) && CanHappen(a, i)
    ensures LoopHead(Step(a, i))
  {
    hide HandleStart, HandleChildExit, HandleBackoffExpired;
    match i
    case StartCmd(ok) => StartKeepsLoopHead(a, ok);
    case RestartCmd(ok) => StartKeepsLoopHead(a, ok);
    case ChildExit(success, ok) => ChildExitKeepsLoopHead(a, success, ok);
    case BackoffExpired(ok) => BackoffExpiryKeepsLoopHead(a, ok);
    case _ =>
  }

  predicate EndsDaemon(policy: Option<ExitPolicy>) {
    policy in {Some(ShutdownDaemon), Some(FailureShutdown), Some(SuccessShutdown)}
  }

  /**
    The answer to an exit nobody asked for: the daemon is told to end exactly under a shutdown policy, with 0 for a
    success and 10 for a failure unless the policy fixes it; a new restart timer exactly when the service is to come
    back; and no new process at once.
    */
  lemma ExitIsAnswered(a: ActorState, success: bool, ok: bool)
    requires LoopHead(a) && a.child.Some? && a.state != Stopping
    ensures var policy := if success then a.config.onSuccess else a.config.onFailure;
            var b := HandleChildExit(a, success, ok);
            && a.events + [ProcessExited(success)] <= b.events && b.child == None && b.spawned == a.spawned
            && (EndsDaemon(policy) <==> b.events[|b.events| - 1].DaemonShutdown?)
            && (EndsDaemon(policy) ==>
                  b.events[|b.events| - 1].exitCode
                  == if policy == Some(SuccessShutdown) || (policy == Some(ShutdownDaemon) && success) then 0 else 10)
            && (b.state == Backoff <==> !EndsDaemon(policy) && policy != Some(Ignore) && !BackoffLimitExceeded(a))
            && (b.state == Backoff ==> b.backoffSleep == Some(a.currentBackoff))
            && (b.state == Error <==> !EndsDaemon(policy) && policy != Some(Ignore) && BackoffLimitExceeded(a))
            && (b.state == Inactive <==> EndsDaemon(policy) || policy == Some(Ignore))
  {
    hide Config.Limit, Config.NextDelay;
  }

  /** In every run, whatever is sent to the actor and whatever happens to its processes. */
  lemma {:induction false} RunKeepsLoopHead(a: ActorState, inputs: seq<Input>)
    requires LoopHead(a) && Possible(a, inputs)
    ensures LoopHead(Run(a, inputs))
    decreases |inputs|
  {
    hide Step, CanHappen;
    if inputs != [] {
      StepKeepsLoopHead(a, inputs[0]);
      RunKeepsLoopHead(Step(a, inputs[0]), inputs[1..]);
    }
  }

  // ---------------------------------------------------------------------
  // One process at a time, and when that fails
  // ---------------------------------------------------------------------

  /** The backoff timer runs exactly in Backoff, and the processes alive are exactly the child. */
  ghost predicate Clean(a: ActorState) {
    && LoopHead(a)
    && (a.backoffSleep.Some? <==> a.state == Backoff)
    && (a.alive == if a.child.Some? then {a.child.value} else {})
    && (a.child.Some? <==> !a.halted && (a.state == Active || a.state == Stopping))
  }

  /** The actor is at work with no restart pending; a backoff timer may be running. */
  ghost predicate Orderly(a: ActorState) {
    Clean(a) && !a.halted && !a.pendingRestart && a.state in {Inactive, Active, Stopping, Backoff, Error}
  }

  /** No timer and no restart will bring the service back up by itself. */
  ghost predicate Calm(a: ActorState) {
    Orderly(a) && a.state != Backoff
  }

  /** A Start, or a Restart that starts directly, is accepted while a backoff timer is running. */
  predicate StartsInBackoff(a: ActorState, i: Input) {
    a.state == Backoff && (i.StartCmd? || i.RestartCmd?)
  }

  lemma ChildExitKeepsClean(a: ActorState, success: bool, ok: bool)
    requires Clean(a) && a.child.Some?
    ensures Clean(HandleChildExit(a, success, ok))
  {
    ChildExitKeepsLoopHead(a, success, ok);
    hide LoopHead, Config.Policy, Config.Delay, Config.NextDelay, BackoffLimitExceeded;
  }

  lemma StartKeepsClean(a: ActorState, ok: bool)
    requires Clean(a) && !a.halted
    ensures Clean(HandleStart(a, ok)) <==> a.state != Backoff
  {
    StartKeepsLoopHead(a, ok);
    hide Config.Delay;
  }

  /** A step leaves a clean state clean unless it starts the service in Backoff: `handle_start` keeps the timer. */
  lemma StepKeepsClean(a: ActorState, i: Input)
    requires Clean(a) && CanHappen(a, i)
    ensures Clean(Step(a, i)) <==> !StartsInBackoff(a, i)
  {
    hide HandleStart, HandleChildExit;
    StepKeepsLoopHead(a, i);
    match i
    case StartCmd(ok) => StartKeepsClean(a, ok);
    case RestartCmd(ok) => StartKeepsClean(a, ok);
    case ChildExit(success, ok) => ChildExitKeepsClean(a, success, ok);
    case _ =>
  }

  predicate NeverStartsInBackoff(a: ActorState, inputs: seq<Input>)
    requires Possible(a, inputs)
    decreases |inputs|
  {
    inputs == [] || (!StartsInBackoff(a, inputs[0]) && NeverStartsInBackoff(Step(a, inputs[0]), inputs[1..]))
  }

  ghost predicate AlwaysClean(a: ActorState, inputs: seq<Input>)
    requires Possible(a, inputs)
    decreases |inputs|
  {
    Clean(a) && (inputs == [] || AlwaysClean(Step(a, inputs[0]), inputs[1..]))
  }

  lemma {:induction false} CleanThroughout(a: ActorState, inputs: seq<Input>)
    requires Clean(a) && Possible(a, inputs)
    ensures AlwaysClean(a, inputs) <==> NeverStartsInBackoff(a, inputs)
    ensures NeverStartsInBackoff(a, inputs) ==> Clean(Run(a, inputs))
    decreases |inputs|
  {
    hide Step, CanHappen, StartsInBackoff, Clean;
    if inputs != [] {
      StepKeepsClean(a, inputs[0]);
      if !StartsInBackoff(a, inputs[0]) {
        CleanThroughout(Step(a, inputs[0]), inputs[1..]);
      } else {
        NotCleanNow(Step(a, inputs[0]), inputs[1..]);
      }
    }
  }

  lemma NotCleanNow(a: ActorState, inputs: seq<Input>)
    requires !Clean(a) && Possible(a, inputs)
    ensures !AlwaysClean(a, inputs)
  {
    hide Step, Clean;
  }

  /**
    From the start of the actor: every state of a run is clean (so at most one process is alive, exactly one
    in Active and Stopping) if and only if no Start or Restart is accepted in Backoff.
    */
  lemma CleanRunsExactly(config: Config, inputs: seq<Input>)
    requires Possible(New(config), inputs)
    ensures AlwaysClean(New(config), inputs) <==> NeverStartsInBackoff(New(config), inputs)
  {
    CleanThroughout(New(config), inputs);
  }

  lemma CleanMeansOneProcess(a: ActorState)
    requires Clean(a)
    ensures |a.alive| <= 1
    ensures !a.halted ==> (|a.alive| == 1 <==> a.state == Active || a.state == Stopping)
    ensures a.halted ==> a.alive == {}
  {
  }

  /** A continuation after which two processes of the service are alive. */
  function SecondSpawn(i: Input): seq<Input>
    requires i.StartCmd? || i.RestartCmd?
  {
    if i.ok then [BackoffExpired(true)] else [StartCmd(true), BackoffExpired(true)]
  }

  lemma ExpirySpawnsSecond(a: ActorState, first: Process)
    requires a.state == Active && !a.halted && a.backoffSleep.Some?
    requires a.alive == {first} && first < a.spawned
    ensures var b := HandleBackoffExpired(a, true);
            |b.alive| == 2
  {
    assert HandleBackoffExpired(a, true).alive == {first, a.spawned};
  }

  lemma StaleTimerSpawnsSecond(a: ActorState, i: Input)
    requires Clean(a) && CanHappen(a, i) && StartsInBackoff(a, i)
    ensures var b := Step(a, i);
            && Possible(b, SecondSpawn(i))
            && NeverStartsInBackoff(b, SecondSpawn(i))
            && |Run(b, SecondSpawn(i)).alive| == 2
  {
    hide Config.Delay, HandleBackoffExpired, HandleChildExit, HandleStop, HandleShutdown;
    var b := Step(a, i);
    if i.ok {
      ExpirySpawnsSecond(b, a.spawned);
      RunOne(b, BackoffExpired(true));
    } else {
      var c := Step(b, StartCmd(true));
      ExpirySpawnsSecond(c, a.spawned);
      RunOne(c, BackoffExpired(true));
      assert SecondSpawn(i)[1..] == [BackoffExpired(true)];
    }
  }

  lemma RunOne(a: ActorState, i: Input)
    requires CanHappen(a, i)
    ensures Possible(a, [i]) && Run(a, [i]) == Step(a, i)
    ensures NeverStartsInBackoff(a, [i]) == !StartsInBackoff(a, i)
  {
    hide Step, CanHappen, StartsInBackoff;
    assert [i][1..] == [];
  }

  /**
    Exactly the starts accepted in Backoff make a second process possible: after any other step every
    continuation that does not repeat the mistake has at most one process alive.
    */
  lemma SecondProcessExactly(a: ActorState, i: Input)
    requires Clean(a) && CanHappen(a, i)
    ensures StartsInBackoff(a, i) <==>
            exists more :: && Possible(Step(a, i), more)
                           && NeverStartsInBackoff(Step(a, i), more)
                           && |Run(Step(a, i), more).alive| > 1
  {
    hide Step, CanHappen, Clean, StartsInBackoff, SecondSpawn;
    StepKeepsClean(a, i);
    if StartsInBackoff(a, i) {
      StaleTimerSpawnsSecond(a, i);
    } else {
      forall more | Possible(Step(a, i), more) && NeverStartsInBackoff(Step(a, i), more)
        ensures |Run(Step(a, i), more).alive| <= 1
      {
        CleanThroughout(Step(a, i), more);
        CleanMeansOneProcess(Run(Step(a, i), more));
      }
    }
  }

  // ---------------------------------------------------------------------
  // Stop is final
  // ---------------------------------------------------------------------

  ghost predicate Settled(a: ActorState) {
    a.state in {Inactive, Error, Stopping} && a.backoffSleep.None? && !a.pendingRestart
  }

  predicate StartFree(inputs: seq<Input>) {
    forall i :: i in inputs ==> !i.StartCmd? && !i.RestartCmd?
  }

  lemma StepStaysSettled(a: ActorState, i: Input)
    requires Clean(a) && Settled(a) && CanHappen(a, i) && !i.StartCmd? && !i.RestartCmd?
    ensures Settled(Step(a, i)) && Step(a, i).spawned == a.spawned
  {
    hide ApplyPolicy, HandleStart;
  }

  lemma {:induction false} SettledSpawnsNothing(a: ActorState, inputs: seq<Input>)
    requires Clean(a) && Settled(a) && Possible(a, inputs) && StartFree(inputs)
    ensures Run(a, inputs).spawned == a.spawned
    decreases |inputs|
  {
    hide Step, CanHappen, Clean, Settled;
    if inputs != [] {
      StepKeepsClean(a, inputs[0]);
      StepStaysSettled(a, inputs[0]);
      SettledSpawnsNothing(Step(a, inputs[0]), inputs[1..]);
    }
  }

  /**
    After an acknowledged Stop nothing is spawned until the next Start or Restart, whatever the exit policy,
    exactly when no restart was pending: a Stop does not cancel one.
    */
  lemma StopIsFinalExactly(a: ActorState)
    requires Clean(a) && !a.halted
    ensures (forall more :: Possible(HandleStop(a), more) && StartFree(more)
                ==> Run(HandleStop(a), more).spawned == a.spawned)
            <==> !a.pendingRestart
  {
    hide Run, Possible, HandleChildExit, Clean, Settled, HandleStop, ApplyPolicy;
    var b := HandleStop(a);
    StopSettles(a);
    if a.pendingRestart {
      RestartSurvivesStop(a);
    } else {
      forall more | Possible(b, more) && StartFree(more)
        ensures Run(b, more).spawned == a.spawned
      {
        SettledSpawnsNothing(b, more);
      }
    }
  }

  lemma StopSettles(a: ActorState)
    requires Clean(a) && !a.halted
    ensures Clean(HandleStop(a)) && HandleStop(a).spawned == a.spawned
    ensures !a.pendingRestart ==> Settled(HandleStop(a))
  {
    StepKeepsClean(a, StopCmd);
  }

  lemma RestartSurvivesStop(a: ActorState)
    requires Clean(a) && !a.halted && a.pendingRestart
    ensures Possible(HandleStop(a), [ChildExit(true, true)])
    ensures Run(HandleStop(a), [ChildExit(true, true)]).spawned == a.spawned + 1
    ensures StartFree([ChildExit(true, true)])
  {
    hide ApplyPolicy, Config.Delay;
    RunOne(a, ChildExit(true, true));
  }
}
