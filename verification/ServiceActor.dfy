/**
  One supervised service: the actor of crates/vigild/src/service/actor.

  `ActorState` is the whole state of the actor together with what it has done to the outside world so far:
  the processes it spawned, the signals it sent, the restarts it scheduled and the events it emitted.
  The functions say what each handler does to that state; the class `Actor` at the end is the program's
  form, with one method a handler.
  */
module ServiceActor {
  import opened Prelude
  import Durations

  datatype ServiceState = Inactive | Starting | Active | Stopping | Backoff | Error {
    predicate IsRunning() {
      Starting? || Active?
    }
  }

  datatype ExitPolicy = RestartService | ShutdownDaemon | FailureShutdown | SuccessShutdown | Ignore

  /** The part of a service's configuration the actor decides by. */
  datatype Config = Config(
    onSuccess: Option<ExitPolicy>,
    onFailure: Option<ExitPolicy>,
    backoffDelay: Option<string>,
    backoffFactor: Option<real>,
    backoffLimit: Option<string>)
  {
    function Policy(success: bool): Option<ExitPolicy> {
      if success then onSuccess else onFailure
    }

    /** The delay before the first automatic restart, in milliseconds. */
    function Delay(): nat {
      MillisOr(backoffDelay, DEFAULT_BACKOFF_DELAY)
    }

    function Factor(): real {
      if backoffFactor.Some? then backoffFactor.value else DEFAULT_BACKOFF_FACTOR
    }

    function Limit(): nat {
      MillisOr(backoffLimit, DEFAULT_BACKOFF_LIMIT)
    }

    /** The delay after `current`: multiplied, rounded down and capped. */
    function NextDelay(current: nat): (next: nat)
      ensures next <= Limit()
    {
      var scaled := (current as real * Factor()).Floor;
      if scaled < 0 then 0 else if scaled < Limit() then scaled else Limit()
    }
  }

  const DEFAULT_BACKOFF_DELAY: nat := 500
  const DEFAULT_BACKOFF_FACTOR: real := 2.0
  const DEFAULT_BACKOFF_LIMIT: nat := 30_000

  /** A duration text, or the default when it is absent or malformed. */
  function MillisOr(text: Option<string>, default: nat): nat {
    match text
    case None => default
    case Some(s) => match Durations.Parse(s) { case Ok(ms) => ms case Err(_) => default }
  }

  datatype Signal = StopSignal | KillSignal | Forwarded(number: int)

  datatype Event =
    | StateChanged(newState: ServiceState)
    | ProcessExited(success: bool)
    | DaemonShutdown(exitCode: int)

  /** Processes are numbered by the order of their spawns. */
  type Process = nat

  datatype ActorState = ActorState(
    config: Config,
    state: ServiceState,
    child: Option<Process>,
    backoffCount: nat,
    currentBackoff: nat,
    // the timers and the flag that `run` keeps beside the actor
    backoffSleep: Option<nat>,
    stopDeadline: bool,
    pendingRestart: bool,
    halted: bool,
    // the outside world
    spawned: nat,
    alive: set<Process>,
    signals: seq<(Process, Signal)>,
    delays: seq<nat>,
    events: seq<Event>)

  function New(config: Config): ActorState {
    ActorState(config, Inactive, None, 0, DEFAULT_BACKOFF_DELAY, None, false, false, false, 0, {}, [], [], [])
  }

  // ---------------------------------------------------------------------
  // Building blocks
  // ---------------------------------------------------------------------

  function Emit(a: ActorState, e: Event): ActorState {
    a.(events := a.events + [e])
  }

  function Transition(a: ActorState, s: ServiceState): ActorState {
    Emit(a.(state := s), StateChanged(s))
  }

  function Send(a: ActorState, s: Signal): ActorState {
    if a.child.None? then a else a.(signals := a.signals + [(a.child.value, s)])
  }

  /** `ok` is the outcome of resolving the command, the credentials and the spawn itself. */
  function DoStart(a: ActorState, ok: bool): ActorState {
    if !ok then a
    else Transition(a.(child := Some(a.spawned), spawned := a.spawned + 1, alive := a.alive + {a.spawned}), Active)
  }

  function ResetBackoff(a: ActorState): ActorState {
    a.(backoffCount := 0, currentBackoff := a.config.Delay(), delays := [])
  }

  predicate BackoffLimitExceeded(a: ActorState) {
    a.backoffCount > 0 && a.currentBackoff >= a.config.Limit()
  }

  /** Takes the current delay for a restart and prepares the next one. */
  function NextBackoff(a: ActorState): ActorState {
    a.(currentBackoff := a.config.NextDelay(a.currentBackoff),
       backoffCount := a.backoffCount + 1,
       delays := a.delays + [a.currentBackoff])
  }

  // ---------------------------------------------------------------------
  // Handlers
  // ---------------------------------------------------------------------

  function StartReply(a: ActorState, ok: bool): bool {
    a.state.IsRunning() || (a.state != Stopping && ok)
  }

  function HandleStart(a: ActorState, ok: bool): ActorState {
    if a.state.IsRunning() || a.state == Stopping then a
    else
      var b := DoStart(Transition(a, Starting), ok);
      if ok then ResetBackoff(b).(stopDeadline := false) else Transition(b, Error)
  }

  function HandleStop(a: ActorState): ActorState {
    match a.state
    case Inactive | Error | Stopping => a
    case Backoff => Transition(a.(backoffSleep := None), Inactive)
    case Starting | Active => Transition(Send(a, StopSignal), Stopping).(stopDeadline := true)
  }

  function RestartReply(a: ActorState, ok: bool): bool {
    a.state.IsRunning() || a.state == Stopping || ok
  }

  function HandleRestart(a: ActorState, ok: bool): ActorState {
    if a.state.IsRunning() || a.state == Stopping then
      Transition(Send(a, StopSignal), Stopping).(stopDeadline := true, backoffSleep := None, pendingRestart := true)
    else HandleStart(a, ok)
  }

  /** What follows the exit of a process that was not being stopped. */
  function ApplyPolicy(a: ActorState, success: bool): ActorState {
    match a.config.Policy(success)
    case Some(Ignore) => Transition(a, Inactive)
    case Some(ShutdownDaemon) => Emit(Transition(a, Inactive), DaemonShutdown(if success then 0 else 10))
    case Some(FailureShutdown) => Emit(Transition(a, Inactive), DaemonShutdown(10))
    case Some(SuccessShutdown) => Emit(Transition(a, Inactive), DaemonShutdown(0))
    case _ =>
      if BackoffLimitExceeded(a) then Transition(a, Error)
      else Transition(NextBackoff(a), Backoff).(backoffSleep := Some(a.currentBackoff))
  }

  /** What follows the exit of a process that was being stopped. */
  function StopFinished(a: ActorState, ok: bool): ActorState {
    var b := Transition(a, Inactive);
    if !b.pendingRestart then b
    else
      var c := DoStart(Transition(b.(pendingRestart := false), Starting), ok);
      if ok then ResetBackoff(c) else Transition(c, Error)
  }

  function HandleChildExit(a: ActorState, success: bool, ok: bool): ActorState
    requires a.child.Some?
  {
    var b := Emit(a, ProcessExited(success)).(
      alive := a.alive - {a.child.value}, child := None, stopDeadline := false);
    if b.state == Stopping then StopFinished(b, ok) else ApplyPolicy(b, success)
  }

  function HandleKillDeadline(a: ActorState): ActorState {
    Send(a, KillSignal).(stopDeadline := false)
  }

  function HandleBackoffExpired(a: ActorState, ok: bool): ActorState {
    var b := DoStart(Transition(a, Starting), ok);
    (if ok then b else Transition(b, Error)).(stopDeadline := false, backoffSleep := None)
  }

  /** Leaving the loop: the child is told to stop, killed and waited for. */
  function HandleShutdown(a: ActorState): ActorState {
    if a.child.None? then a.(halted := true)
    else Send(Send(a, StopSignal), KillSignal).(halted := true, alive := a.alive - {a.child.value}, child := None)
  }

  // ---------------------------------------------------------------------
  // The select loop
  // ---------------------------------------------------------------------

  /** One branch of the select, or the exit of a process the actor no longer holds. */
  datatype Input =
    | StartCmd(ok: bool)
    | StopCmd
    | RestartCmd(ok: bool)
    | StatusCmd
    | SignalCmd(number: int)
    | ShutdownCmd
    | ChildExit(success: bool, ok: bool)
    | KillDeadline
    | BackoffExpired(ok: bool)
    | OrphanExit(process: Process)

  predicate CanHappen(a: ActorState, i: Input) {
    match i
    case OrphanExit(p) => p in a.alive && a.child != Some(p)
    case ChildExit(_, _) => !a.halted && a.child.Some?
    case KillDeadline => !a.halted && a.stopDeadline
    case BackoffExpired(_) => !a.halted && a.backoffSleep.Some?
    case _ => !a.halted
  }

  function Step(a: ActorState, i: Input): ActorState
    requires CanHappen(a, i)
  {
    match i
    case StartCmd(ok) => HandleStart(a, ok)
    case StopCmd => HandleStop(a)
    case RestartCmd(ok) => HandleRestart(a, ok)
    case StatusCmd => a
    case SignalCmd(n) => Send(a, Forwarded(n))
    case ShutdownCmd => HandleShutdown(a)
    case ChildExit(success, ok) => HandleChildExit(a, success, ok)
    case KillDeadline => HandleKillDeadline(a)
    case BackoffExpired(ok) => HandleBackoffExpired(a, ok)
    case OrphanExit(p) => a.(alive := a.alive - {p})
  }

  /** `inputs` is a possible sequence of inputs from `a`. */
  predicate Possible(a: ActorState, inputs: seq<Input>)
    decreases |inputs|
  {
    inputs == [] || (CanHappen(a, inputs[0]) && Possible(Step(a, inputs[0]), inputs[1..]))
  }

  function Run(a: ActorState, inputs: seq<Input>): ActorState
    requires Possible(a, inputs)
    decreases |inputs|
  {
    if inputs == [] then a else Run(Step(a, inputs[0]), inputs[1..])
  }

  // ---------------------------------------------------------------------
  // The program's form
  // ---------------------------------------------------------------------

  class Actor {
    const config: Config
    var state: ServiceState
    var child: Option<Process>
    var backoffCount: nat
    var currentBackoff: nat
    var backoffSleep: Option<nat>
    var stopDeadline: bool
    var pendingRestart: bool
    var halted: bool
    var spawned: nat
    var alive: set<Process>
    var signals: seq<(Process, Signal)>
    var delays: seq<nat>
    var events: seq<Event>

    ghost function View(): ActorState
      reads this
    {
      ActorState(config, state, child, backoffCount, currentBackoff, backoffSleep, stopDeadline, pendingRestart,
                 halted, spawned, alive, signals, delays, events)
    }

    constructor (config: Config)
      ensures View() == New(config)
    {
      this.config := config;
      state, child := Inactive, None;
      backoffCount, currentBackoff := 0, DEFAULT_BACKOFF_DELAY;
      backoffSleep, stopDeadline, pendingRestart, halted := None, false, false, false;
      spawned, alive, signals, delays, events := 0, {}, [], [], [];
    }

    method SendEvent(e: Event)
      modifies this`events
      ensures View() == Emit(old(View()), e)
    {
      events := events + [e];
    }

    method ChangeState(newState: ServiceState)
      modifies this`state, this`events
      ensures View() == Transition(old(View()), newState)
    {
      state := newState;
      SendEvent(StateChanged(newState));
    }

    method SendSignal(s: Signal)
      modifies this`signals
      ensures View() == Send(old(View()), s)
    {
      if child.Some? {
        signals := signals + [(child.value, s)];
      }
    }

    /** Spawns the process; `ok` says whether the operating system let it. */
    method StartProcess(ok: bool)
      modifies this
      ensures View() == DoStart(old(View()), ok)
    {
      if ok {
        child, spawned, alive := Some(spawned), spawned + 1, alive + {spawned};
        ChangeState(Active);
      }
    }

    method RestartBackoff()
      modifies this
      ensures View() == ResetBackoff(old(View()))
    {
      backoffCount := 0;
      currentBackoff := config.Delay();
      delays := [];
    }

    method AdvanceBackoff() returns (delay: nat)
      modifies this
      ensures delay == old(currentBackoff)
      ensures View() == NextBackoff(old(View()))
    {
      delay := currentBackoff;
      currentBackoff := config.NextDelay(currentBackoff);
      backoffCount := backoffCount + 1;
      delays := delays + [delay];
    }

    predicate BackoffExhausted()
      reads this
      ensures BackoffExhausted() == BackoffLimitExceeded(View())
    {
      backoffCount > 0 && currentBackoff >= config.Limit()
    }

    method OnStart(ok: bool) returns (reply: bool)
      modifies this
      ensures View() == HandleStart(old(View()), ok)
      ensures reply == StartReply(old(View()), ok)
    {
      if state.IsRunning() {
        return true;
      }
      if state == Stopping {
        return false;
      }
      ChangeState(Starting);
      StartProcess(ok);
      if ok {
        RestartBackoff();
        stopDeadline := false;
      } else {
        ChangeState(Error);
      }
      reply := ok;
    }

    method OnStop()
      modifies this
      ensures View() == HandleStop(old(View()))
    {
      match state {
        case Inactive | Error | Stopping =>
          return;
        case Backoff =>
          backoffSleep := None;
          ChangeState(Inactive);
          return;
        case Starting | Active =>
      }
      SendSignal(StopSignal);
      ChangeState(Stopping);
      stopDeadline := true;
    }

    method OnRestart(ok: bool) returns (reply: bool)
      modifies this
      ensures View() == HandleRestart(old(View()), ok)
      ensures reply == RestartReply(old(View()), ok)
    {
      if state.IsRunning() || state == Stopping {
        SendSignal(StopSignal);
        ChangeState(Stopping);
        stopDeadline := true;
        backoffSleep := None;
        pendingRestart := true;
        reply := true;
      } else {
        reply := OnStart(ok);
      }
    }

    method OnChildExit(success: bool, ok: bool)
      requires child.Some?
      modifies this
      ensures View() == HandleChildExit(old(View()), success, ok)
    {
      hide ApplyPolicy, StopFinished;
      SendEvent(ProcessExited(success));
      alive := alive - {child.value};
      child := None;
      stopDeadline := false;
      if state == Stopping {
        FinishStop(ok);
      } else {
        FollowPolicy(success);
      }
    }

    method FinishStop(ok: bool)
      modifies this
      ensures View() == StopFinished(old(View()), ok)
    {
      hide DoStart, ResetBackoff;
      ChangeState(Inactive);
      if pendingRestart {
        pendingRestart := false;
        ChangeState(Starting);
        StartProcess(ok);
        if ok {
          RestartBackoff();
        } else {
          ChangeState(Error);
        }
      }
    }

    method FollowPolicy(success: bool)
      modifies this
      ensures View() == ApplyPolicy(old(View()), success)
    {
      hide Config.Delay, Config.Limit, Config.NextDelay;
      match config.Policy(success) {
        case Some(Ignore) =>
          ChangeState(Inactive);
        case Some(ShutdownDaemon) =>
          ChangeState(Inactive);
          SendEvent(DaemonShutdown(if success then 0 else 10));
        case Some(FailureShutdown) =>
          ChangeState(Inactive);
          SendEvent(DaemonShutdown(10));
        case Some(SuccessShutdown) =>
          ChangeState(Inactive);
          SendEvent(DaemonShutdown(0));
        case _ =>
          if BackoffExhausted() {
            ChangeState(Error);
          } else {
            var delay := AdvanceBackoff();
            ChangeState(Backoff);
            backoffSleep := Some(delay);
          }
      }
    }

    method OnKillDeadline()
      modifies this
      ensures View() == HandleKillDeadline(old(View()))
    {
      if child.Some? {
        SendSignal(KillSignal);
      }
      stopDeadline := false;
    }

    method OnBackoffExpired(ok: bool)
      modifies this
      ensures View() == HandleBackoffExpired(old(View()), ok)
    {
      ChangeState(Starting);
      StartProcess(ok);
      if !ok {
        ChangeState(Error);
      }
      stopDeadline := false;
      backoffSleep := None;
    }

    method OnShutdown()
      modifies this
      ensures View() == HandleShutdown(old(View()))
    {
      halted := true;
      if child.Some? {
        SendSignal(StopSignal);
        SendSignal(KillSignal);
        alive := alive - {child.value};
        child := None;
      }
    }

    method Dispatch(i: Input)
      requires CanHappen(View(), i)
      modifies this
      ensures View() == Step(old(View()), i)
    {
      match i {
        case StartCmd(ok) => var _ := OnStart(ok);
        case StopCmd => OnStop();
        case RestartCmd(ok) => var _ := OnRestart(ok);
        case StatusCmd =>
        case SignalCmd(n) => SendSignal(Forwarded(n));
        case ShutdownCmd => OnShutdown();
        case ChildExit(success, ok) => OnChildExit(success, ok);
        case KillDeadline => OnKillDeadline();
        case BackoffExpired(ok) => OnBackoffExpired(ok);
        case OrphanExit(p) => alive := alive - {p};
      }
    }

    /** The select loop on a sequence of ready branches. */
    method Loop(inputs: seq<Input>)
      requires Possible(View(), inputs)
      modifies this
      ensures View() == Run(old(View()), inputs)
    {
      hide Step, CanHappen;
      for n := 0 to |inputs|
        invariant Possible(View(), inputs[n..])
        invariant Run(View(), inputs[n..]) == Run(old(View()), inputs)
      {
        assert inputs[n..][0] == inputs[n] && inputs[n..][1..] == inputs[n + 1..];
        Dispatch(inputs[n]);
      }
    }
  }
}
