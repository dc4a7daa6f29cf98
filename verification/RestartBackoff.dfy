/** Automatic restarts: how long they wait and when the actor gives up (service/actor/backoff.rs). */
module RestartBackoff {
  import opened Prelude
  import opened ServiceActor
  import opened ActorRuns

  /** The delay of the restart that follows `k` restarts in a row. */
  function BackoffAt(config: Config, k: nat): nat {
    if k == 0 then config.Delay() else config.NextDelay(BackoffAt(config, k - 1))
  }

  /** The delays scheduled since the last reset are the first ones of the sequence, below the limit after the first. */
  ghost predicate Scheduled(a: ActorState) {
    && |a.delays| == a.backoffCount
    && (a.spawned == 0 ==> a.backoffCount == 0 && a.backoffSleep.None? && a.state != Backoff)
    && (a.spawned > 0 ==> a.currentBackoff == BackoffAt(a.config, a.backoffCount))
    && (forall k :: 0 <= k < |a.delays| ==> a.delays[k] == BackoffAt(a.config, k))
    && (forall k :: 0 < k < |a.delays| ==> a.delays[k] < a.config.Limit())
  }

  /** The configuration answers an exit of this kind by a restart; so does saying nothing. */
  predicate Restarts(config: Config, success: bool) {
    (if success then config.onSuccess else config.onFailure) in {None, Some(RestartService)}
  }

  lemma ScheduledFrame(a: ActorState, b: ActorState)
    requires Scheduled(a) && a.spawned > 0 && b.spawned > 0
    requires a.config == b.config && a.delays == b.delays
    requires a.backoffCount == b.backoffCount && a.currentBackoff == b.currentBackoff
    ensures Scheduled(b)
  {
    hide BackoffAt;
  }

  lemma NextBackoffSchedules(a: ActorState)
    requires Scheduled(a) && a.spawned > 0 && !BackoffLimitExceeded(a)
    ensures Scheduled(NextBackoff(a)) && NextBackoff(a).spawned == a.spawned
  {
    hide Config.Delay, Config.NextDelay, Config.Limit;
    assert BackoffAt(a.config, a.backoffCount + 1) == a.config.NextDelay(a.currentBackoff);
  }

  lemma PolicySchedules(a: ActorState, success: bool)
    requires Scheduled(a) && a.spawned > 0
    ensures Scheduled(ApplyPolicy(a, success))
  {
    hide Config.Policy, Scheduled, NextBackoff, BackoffLimitExceeded;
    var b := ApplyPolicy(a, success);
    if b.state == Backoff {
      NextBackoffSchedules(a);
      ScheduledFrame(NextBackoff(a), b);
    } else {
      ScheduledFrame(a, b);
    }
  }

  lemma StartSchedules(a: ActorState, ok: bool)
    requires Scheduled(a) && LoopHead(a)
    ensures Scheduled(HandleStart(a, ok))
  {
    hide Config.Delay, Config.NextDelay, Config.Limit;
    assert BackoffAt(a.config, 0) == a.config.Delay();
  }

  lemma ExpirySchedules(a: ActorState, ok: bool)
    requires Scheduled(a) && a.backoffSleep.Some?
    ensures Scheduled(HandleBackoffExpired(a, ok))
  {
    hide Config.Delay, Config.NextDelay, Config.Limit, BackoffAt;
  }

  lemma StopFinishedSchedules(a: ActorState, ok: bool)
    requires Scheduled(a) && a.spawned > 0
    ensures Scheduled(StopFinished(a, ok))
  {
    hide Config.Delay, Config.NextDelay, Config.Limit;
    assert BackoffAt(a.config, 0) == a.config.Delay();
  }

  lemma StepSchedules(a: ActorState, i: Input)
    requires Scheduled(a) && LoopHead(a) && CanHappen(a, i)
    ensures Scheduled(Step(a, i)) && Step(a, i).config == a.config
  {
    StepKeepsConfig(a, i);
    hide Config.Limit, BackoffAt, ApplyPolicy, HandleStart, HandleBackoffExpired, StopFinished;
    match i
    case StartCmd(ok) => StartSchedules(a, ok);
    case RestartCmd(ok) => StartSchedules(a, ok);
    case ChildExit(success, ok) =>
      var b := Emit(a, ProcessExited(success)).(
        alive := a.alive - {a.child.value}, child := None, stopDeadline := false);
      StopFinishedSchedules(b, ok);
      PolicySchedules(b, success);
    case BackoffExpired(ok) => ExpirySchedules(a, ok);
    case _ =>
  }

  lemma StepKeepsConfig(a: ActorState, i: Input)
    requires CanHappen(a, i)
    ensures Step(a, i).config == a.config
  {
    hide Config.Limit, Config.Delay, Config.NextDelay;
  }

  lemma {:induction false} RunSchedules(a: ActorState, inputs: seq<Input>)
    requires Scheduled(a) && LoopHead(a) && Possible(a, inputs)
    ensures Scheduled(Run(a, inputs)) && LoopHead(Run(a, inputs)) && Run(a, inputs).config == a.config
    decreases |inputs|
  {
    hide Step, CanHappen, LoopHead, Scheduled;
    if inputs != [] {
      StepKeepsLoopHead(a, inputs[0]);
      StepSchedules(a, inputs[0]);
      RunSchedules(Step(a, inputs[0]), inputs[1..]);
    }
  }

  // ---------------------------------------------------------------------
  // Growth of the delays
  // ---------------------------------------------------------------------

  lemma NextDelayAtLeastDoubles(config: Config, current: nat)
    requires config.Factor() >= 2.0
    ensures config.NextDelay(current) >= 2 * current || config.NextDelay(current) == config.Limit()
  {
    hide Config.Factor, Config.Limit;
    var scaled := current as real * config.Factor();
    assert scaled >= current as real * 2.0;
    assert scaled.Floor >= 2 * current;
  }

  lemma NextDelayGrows(config: Config, current: nat)
    requires config.Factor() >= 1.0 && current <= config.Limit()
    ensures config.NextDelay(current) >= current
  {
    hide Config.Factor, Config.Limit;
    var scaled := current as real * config.Factor();
    assert scaled >= current as real * 1.0;
    assert scaled.Floor >= current;
  }

  lemma NextDelayDoubles(config: Config, current: nat)
    requires config.Factor() == 2.0
    ensures config.NextDelay(current) == if 2 * current < config.Limit() then 2 * current else config.Limit()
  {
    hide Config.Factor, Config.Limit;
    assert current as real * config.Factor() == (2 * current) as real;
  }

  lemma {:induction false} GrowsExponentially(config: Config, k: nat)
    requires config.Factor() >= 2.0 && k > 0
    ensures BackoffAt(config, k) >= Pow2(k) * config.Delay() || BackoffAt(config, k) == config.Limit()
  {
    hide Config.Factor, Config.Limit, Config.Delay, Config.NextDelay;
    NextDelayAtLeastDoubles(config, BackoffAt(config, k - 1));
    if k > 1 {
      GrowsExponentially(config, k - 1);
      if BackoffAt(config, k - 1) == config.Limit() {
        NextDelayAtLimit(config);
      } else {
        TwiceTimes(Pow2(k - 1), config.Delay());
      }
    } else {
      assert Pow2(1) == 2 * Pow2(0) == 2;
      assert BackoffAt(config, 0) == config.Delay();
    }
  }

  lemma TwiceTimes(p: nat, d: nat)
    ensures 2 * p * d == 2 * (p * d)
  {
  }

  lemma NextDelayAtLimit(config: Config)
    requires config.Factor() >= 1.0
    ensures config.NextDelay(config.Limit()) == config.Limit()
  {
    NextDelayGrows(config, config.Limit());
  }

  lemma {:induction false} DoublesExactly(config: Config, k: nat)
    requires config.Factor() == 2.0 && k > 0
    ensures BackoffAt(config, k) ==
            if Pow2(k) * config.Delay() < config.Limit() then Pow2(k) * config.Delay() else config.Limit()
  {
    hide Config.Factor, Config.Limit, Config.Delay, Config.NextDelay;
    NextDelayDoubles(config, BackoffAt(config, k - 1));
    TwiceTimes(Pow2(k - 1), config.Delay());
    if k > 1 {
      DoublesExactly(config, k - 1);
    } else {
      assert Pow2(1) == 2 * Pow2(0) == 2;
      assert BackoffAt(config, 0) == config.Delay();
    }
  }

  // ---------------------------------------------------------------------
  // Giving up
  // ---------------------------------------------------------------------

  ghost predicate AtMost(a: ActorState, tries: nat) {
    a.backoffCount <= tries
  }

  lemma StepKeepsAtMost(a: ActorState, i: Input, tries: nat)
    requires Scheduled(a) && LoopHead(a) && CanHappen(a, i)
    requires a.config.Factor() >= 2.0
    requires tries > 0 && Pow2(tries) * a.config.Delay() >= a.config.Limit()
    requires AtMost(a, tries)
    ensures AtMost(Step(a, i), tries)
  {
    GrowsExponentially(a.config, tries);
    hide Config.Factor, Config.Limit, Config.Delay, Config.NextDelay, BackoffAt, Pow2, Config.Policy;
  }

  /**
    Between two resets of the backoff an actor whose delays at least double schedules at most `tries` automatic
    restarts before it gives up, for every `tries` that doubles the first delay up to the limit.
    */
  lemma {:induction false} GivesUp(a: ActorState, inputs: seq<Input>, tries: nat)
    requires Scheduled(a) && LoopHead(a) && Possible(a, inputs)
    requires a.config.Factor() >= 2.0
    requires tries > 0 && Pow2(tries) * a.config.Delay() >= a.config.Limit()
    requires AtMost(a, tries)
    ensures Run(a, inputs).backoffCount <= tries && |Run(a, inputs).delays| <= tries
    decreases |inputs|
  {
    hide Step, CanHappen, LoopHead, Config.Factor, Config.Limit, Config.Delay, Pow2, BackoffAt;
    if inputs != [] {
      StepKeepsAtMost(a, inputs[0], tries);
      StepKeepsLoopHead(a, inputs[0]);
      StepSchedules(a, inputs[0]);
      GivesUp(Step(a, inputs[0]), inputs[1..], tries);
    }
  }

  lemma GivesUpFromStart(config: Config, inputs: seq<Input>, tries: nat)
    requires Possible(New(config), inputs)
    requires config.Factor() >= 2.0
    requires tries > 0 && Pow2(tries) * config.Delay() >= config.Limit()
    ensures Run(New(config), inputs).backoffCount <= tries
  {
    hide Config.Factor, Config.Limit, Config.Delay, Pow2, BackoffAt, Run, Possible;
    GivesUp(New(config), inputs, tries);
  }

  /**
    For every factor: when a process that is to be restarted exits, the actor gives up if and only if it has restarted
    it before and the delay after that many restarts has reached the limit; otherwise it waits for that delay.
    */
  lemma GivesUpExactly(config: Config, inputs: seq<Input>, success: bool, ok: bool)
    requires Possible(New(config), inputs)
    requires Restarts(config, success)
    requires var a := Run(New(config), inputs); a.child.Some? && a.state != Stopping
    ensures var a := Run(New(config), inputs);
            var b := HandleChildExit(a, success, ok);
            && (b.state == Error <==> a.backoffCount > 0 && BackoffAt(config, a.backoffCount) >= config.Limit())
            && (b.state != Error ==> b.state == Backoff && b.backoffSleep == Some(BackoffAt(config, a.backoffCount)))
  {
    hide Config.Factor, Config.Limit, Config.Delay, Config.NextDelay, BackoffAt, Run, Possible;
    RunSchedules(New(config), inputs);
  }

  /** With a factor of two that is when doubling the first delay so often has reached the limit. */
  lemma GivesUpWhenDoubled(config: Config, inputs: seq<Input>, success: bool, ok: bool)
    requires Possible(New(config), inputs)
    requires config.Factor() == 2.0
    requires Restarts(config, success)
    requires var a := Run(New(config), inputs); a.child.Some? && a.state != Stopping
    ensures var a := Run(New(config), inputs);
            HandleChildExit(a, success, ok).state == Error
            <==> a.backoffCount > 0 && Pow2(a.backoffCount) * config.Delay() >= config.Limit()
  {
    hide Config.Factor, Config.Limit, Config.Delay, Config.NextDelay, Config.Policy, Pow2, BackoffAt, Run, Possible,
         HandleChildExit;
    GivesUpExactly(config, inputs, success, ok);
    var a := Run(New(config), inputs);
    if a.backoffCount > 0 {
      DoublesExactly(config, a.backoffCount);
    }
  }

  /** With a factor of at most one and a first delay below the limit it never gives up. */
  lemma NeverGivesUp(config: Config, inputs: seq<Input>, success: bool, ok: bool)
    requires Possible(New(config), inputs)
    requires config.Factor() <= 1.0 && config.Delay() < config.Limit()
    requires Restarts(config, success)
    requires var a := Run(New(config), inputs); a.child.Some? && a.state != Stopping
    ensures HandleChildExit(Run(New(config), inputs), success, ok).state == Backoff
  {
    hide Config.Factor, Config.Limit, Config.Delay, Config.Policy, BackoffAt, Run, Possible, HandleChildExit;
    GivesUpExactly(config, inputs, success, ok);
    StaysBelowLimit(config, Run(New(config), inputs).backoffCount);
  }

  lemma {:induction false} StaysBelowLimit(config: Config, k: nat)
    requires config.Factor() <= 1.0 && config.Delay() < config.Limit()
    ensures BackoffAt(config, k) < config.Limit()
    decreases k
  {
    hide Config.Factor, Config.Limit, Config.Delay;
    if k > 0 {
      StaysBelowLimit(config, k - 1);
      var current := BackoffAt(config, k - 1);
      ScaledDown(current as real, config.Factor());
      NoMoreThan(config, current);
    }
  }

  lemma ScaledDown(x: real, f: real)
    requires x >= 0.0 && f <= 1.0
    ensures x * f <= x
  {
    assert x * (1.0 - f) >= 0.0;
  }

  lemma NoMoreThan(config: Config, current: nat)
    requires current as real * config.Factor() <= current as real
    ensures config.NextDelay(current) <= current
  {
    hide Config.Factor, Config.Limit;
    var scaled := current as real * config.Factor();
    assert scaled.Floor as real <= scaled;
  }

  /** Every delay after the first stays below the limit, and with a factor of at least one they never decrease. */
  lemma DelaysGrow(config: Config, inputs: seq<Input>)
    requires Possible(New(config), inputs)
    ensures var delays := Run(New(config), inputs).delays;
            && (forall k :: 0 < k < |delays| ==> delays[k] < config.Limit())
            && (config.Factor() >= 1.0 ==> forall k :: 0 < k < |delays| ==> delays[k - 1] <= delays[k])
  {
    hide Config.Factor, Config.Limit, Config.Delay, Config.NextDelay, Run, Possible;
    RunSchedules(New(config), inputs);
    var delays := Run(New(config), inputs).delays;
    if config.Factor() >= 1.0 {
      forall k | 0 < k < |delays| ensures delays[k - 1] <= delays[k] {
        assert BackoffAt(config, k) == config.NextDelay(BackoffAt(config, k - 1));
        if delays[k - 1] <= config.Limit() {
          NextDelayGrows(config, delays[k - 1]);
        } else {
          NextDelayAboveLimit(config, delays[k - 1]);
        }
      }
    }
  }

  /** A first delay above the limit is followed by the limit itself. */
  lemma NextDelayAboveLimit(config: Config, current: nat)
    requires config.Factor() >= 1.0 && current > config.Limit()
    ensures config.NextDelay(current) == config.Limit()
  {
    hide Config.Factor, Config.Limit;
    assert current as real * config.Factor() >= current as real * 1.0;
    assert (current as real * config.Factor()).Floor >= current;
  }

  // ---------------------------------------------------------------------
  // What the configuration says
  // ---------------------------------------------------------------------

  /** `text` is a duration of `ms` milliseconds, or it is none and `ms` is the default. */
  ghost predicate Means(text: Option<string>, ms: nat, default: nat) {
    if text.Some? && exists chain :: IsDuration(text.value, chain)
    then exists chain :: IsDuration(text.value, chain) && Durations.Sum(chain) == ms
    else ms == default
  }

  /** A chain of numbers and units that adds up to no more than 64 bits of milliseconds. */
  ghost predicate IsDuration(text: string, chain: seq<Durations.Component>) {
    Durations.Denotes(text, chain) && Durations.Sum(chain) <= Durations.MAX_U64
  }

  lemma TextIsRead(text: Option<string>, ms: nat, default: nat)
    requires Means(text, ms, default)
    ensures MillisOr(text, default) == ms
  {
    hide Durations.Parse, Durations.Sum;
    if text.Some? {
      if Durations.Parse(text.value).Ok? {
        Durations.ParseExact(text.value, Durations.Parse(text.value).value);
        var chain :| Durations.Denotes(text.value, chain)
                     && Durations.Sum(chain) == Durations.Parse(text.value).value <= Durations.MAX_U64;
        assert IsDuration(text.value, chain);
      }
      if chain :| IsDuration(text.value, chain) {
        var same :| IsDuration(text.value, same) && Durations.Sum(same) == ms;
        Durations.ParseExact(text.value, ms);
      }
    }
  }

  /**
    The settings as a user writes them: with delay and limit texts meaning `delay` and `limit` milliseconds (half a
    second and half a minute if they mean nothing) and the factor 2 or none, the restart after `k` earlier ones waits
    `delay` doubled `k` times, capped by the limit; once that has reached the limit the service is given up instead.
    */
  lemma RestartsAsConfigured(config: Config, inputs: seq<Input>, success: bool, ok: bool, delay: nat, limit: nat)
    requires Means(config.backoffDelay, delay, 500) && Means(config.backoffLimit, limit, 30_000)
    requires config.backoffFactor in {None, Some(2.0)}
    requires Possible(New(config), inputs) && Restarts(config, success)
    requires var a := Run(New(config), inputs); a.child.Some? && a.state != Stopping
    ensures var a := Run(New(config), inputs);
            var b := HandleChildExit(a, success, ok);
            var k := a.backoffCount;
            if k > 0 && Pow2(k) * delay >= limit then b.state == Error && b.backoffSleep == a.backoffSleep
            else b.state == Backoff && b.backoffSleep == Some(Pow2(k) * delay)
  {
    hide Config.NextDelay, BackoffAt, Run, Possible, Pow2, Means, MillisOr;
    TextIsRead(config.backoffDelay, delay, 500);
    TextIsRead(config.backoffLimit, limit, 30_000);
    GivesUpExactly(config, inputs, success, ok);
    NoDoubling(config);
    var k := Run(New(config), inputs).backoffCount;
    if k > 0 {
      DoublesExactly(config, k);
    }
  }

  lemma NoDoubling(config: Config)
    ensures Pow2(0) == 1 && BackoffAt(config, 0) == config.Delay()
  {
  }

  /** The next delay is the exact product rounded down, or the limit where that is reached. */
  lemma NextDelayIsRounded(config: Config, current: nat, factor: real, limit: nat)
    requires factor >= 0.0 && factor == (if config.backoffFactor.Some? then config.backoffFactor.value else 2.0)
    requires Means(config.backoffLimit, limit, 30_000)
    ensures var next, exact := config.NextDelay(current), current as real * factor;
            if exact >= limit as real then next == limit else next as real <= exact < next as real + 1.0
  {
    hide Means, MillisOr;
    TextIsRead(config.backoffLimit, limit, 30_000);
    NotNegative(current as real, factor);
    assert limit as real <= current as real * factor ==> limit <= (current as real * factor).Floor;
  }

  lemma NotNegative(x: real, f: real)
    requires x >= 0.0 && f >= 0.0
    ensures x * f >= 0.0
  {
  }

  // ---------------------------------------------------------------------
  // What is counted
  // ---------------------------------------------------------------------

  /** A start from outside that succeeds, directly or after the stop of a restart. */
  predicate Resets(a: ActorState, i: Input) {
    match i
    case StartCmd(ok) => ok && a.state in {Inactive, ServiceState.Backoff, Error}
    case RestartCmd(ok) => ok && a.state in {Inactive, ServiceState.Backoff, Error}
    case ChildExit(_, ok) => ok && a.state == Stopping && a.pendingRestart
    case _ => false
  }

  /** The exits answered by a restart since the last such start, `before` being those of an earlier time. */
  function RestartsSince(a: ActorState, inputs: seq<Input>, before: nat): nat
    requires Possible(a, inputs)
    decreases |inputs|
  {
    if inputs == [] then before
    else
      var i, b := inputs[0], Step(a, inputs[0]);
      RestartsSince(b, inputs[1..],
                    if Resets(a, i) then 0
                    else if i.ChildExit? && b.state == ServiceState.Backoff then before + 1
                    else before)
  }

  lemma StepCounts(a: ActorState, i: Input)
    requires LoopHead(a) && CanHappen(a, i)
    ensures var b := Step(a, i);
            b.backoffCount
            == if Resets(a, i) then 0
               else if i.ChildExit? && b.state == ServiceState.Backoff then a.backoffCount + 1
               else a.backoffCount
  {
    hide Config.Delay, Config.Limit, Config.NextDelay;
  }

  /** The count that decides about giving up is that of the restarts since the last successful start from outside. */
  lemma {:induction false} CountsRestarts(a: ActorState, inputs: seq<Input>)
    requires LoopHead(a) && Possible(a, inputs)
    ensures Run(a, inputs).backoffCount == RestartsSince(a, inputs, a.backoffCount)
    decreases |inputs|
  {
    hide Step, CanHappen, LoopHead, Resets;
    if inputs != [] {
      StepCounts(a, inputs[0]);
      StepKeepsLoopHead(a, inputs[0]);
      CountsRestarts(Step(a, inputs[0]), inputs[1..]);
    }
  }
}
