/** No line is lost, repeated or reordered by the sink, however often its connection fails. */
module SinkDelivery {
  import opened Prelude
  import opened TcpSink

  /** The line in hand: being written, or kept for the next connection. */
  function InHand(s: State): seq<string> {
    if s.phase.Writing? then [s.phase.line] else if s.pending.Some? then [s.pending.value] else []
  }

  /** The wait before the `k`-th attempt to connect in a row. */
  function WaitAt(config: Config, k: nat): nat {
    if k == 0 then config.delay else Least(config.delay * Pow2(k), config.maxDelay)
  }

  ghost predicate Conserved(s: State) {
    && s.written + InHand(s) + s.channel == s.sent
    && (s.pending.Some? ==> s.phase == Connecting)
    && (s.phase == Exited ==> s.channel == [] && s.closed)
    && s.backoff == WaitAt(s.config, |s.waits|)
    && forall k :: 0 <= k < |s.waits| ==> s.waits[k] == WaitAt(s.config, k)
  }

  lemma WaitDoubles(config: Config, k: nat)
    ensures WaitAt(config, k + 1) == Least(WaitAt(config, k) * 2, config.maxDelay)
  {
    hide Pow2;
    PowerDoubles(config.delay, k);
  }

  lemma PowerDoubles(d: nat, k: nat)
    ensures Pow2(0) == 1
    ensures d * Pow2(k + 1) == d * Pow2(k) * 2
  {
    var p := Pow2(k);
    assert d * (2 * p) == d * p * 2;
  }

  lemma StepConserves(s: State, e: Event)
    requires Conserved(s) && CanHappen(s, e)
    ensures Conserved(Step(s, e)) && Step(s, e).config == s.config
  {
    hide WaitAt;
    match e
    case Refused => WaitDoubles(s.config, |s.waits|);
    case Accepted => FirstWait(s.config);
    case Received =>
      assert s.channel == [s.channel[0]] + s.channel[1..];
    case _ =>
  }

  lemma FirstWait(config: Config)
    ensures WaitAt(config, 0) == config.delay
  {
  }

  lemma {:induction false} RunConserves(s: State, events: seq<Event>)
    requires Conserved(s) && Possible(s, events)
    ensures Conserved(Run(s, events)) && Run(s, events).config == s.config
    decreases |events|
  {
    hide Conserved, CanHappen, Step;
    if events != [] {
      StepConserves(s, events[0]);
      RunConserves(Step(s, events[0]), events[1..]);
    }
  }

  lemma StartsConserved(config: Config)
    ensures Conserved(Start(config))
  {
  }

  /** At any moment the written lines are the first of those sent, in order, and at most one line is in hand. */
  lemma LinesAreConserved(config: Config, events: seq<Event>)
    requires Possible(Start(config), events)
    ensures var s := Run(Start(config), events);
            && s.written + InHand(s) + s.channel == s.sent
            && |InHand(s)| <= 1 && s.written <= s.sent
  {
    hide Run, Possible;
    StartsConserved(config);
    RunConserves(Start(config), events);
  }

  /** When the task returns, every line ever sent has been written, once and in order. */
  lemma ExitMeansDelivered(config: Config, events: seq<Event>)
    requires Possible(Start(config), events)
    ensures var s := Run(Start(config), events);
            s.phase == Exited ==> s.written == s.sent
  {
    hide Run, Possible, WaitAt;
    StartsConserved(config);
    RunConserves(Start(config), events);
  }

  /** Between connections the wait starts over and doubles up to its ceiling. */
  lemma WaitsDouble(config: Config, events: seq<Event>, k: nat)
    requires Possible(Start(config), events)
    requires k < |Run(Start(config), events).waits|
    ensures Run(Start(config), events).waits[k] == WaitAt(config, k)
    ensures k > 0 ==> Run(Start(config), events).waits[k] <= config.maxDelay
  {
    hide Run, Possible, WaitAt;
    StartsConserved(config);
    RunConserves(Start(config), events);
    WaitBounded(config, k);
  }

  lemma WaitBounded(config: Config, k: nat)
    ensures k > 0 ==> WaitAt(config, k) <= config.maxDelay
  {
  }

  // ---------------------------------------------------------------------
  // Giving up connections
  // ---------------------------------------------------------------------

  /** How often an event of this kind happens. */
  function Count(events: seq<Event>, kind: Event -> bool): nat {
    if events == [] then 0 else (if kind(events[0]) then 1 else 0) + Count(events[1..], kind)
  }

  lemma {:induction false} ConnectionsAreCounted(s: State, events: seq<Event>)
    requires Possible(s, events)
    ensures var open := (t: State) => if t.phase == Connecting then 0 else 1;
            Count(events, (e: Event) => e.Accepted?)
            == Count(events, (e: Event) => e.Broken?) + Count(events, (e: Event) => e.Idle?)
               + open(Run(s, events)) - open(s)
    ensures s.config.idleTimeout == 0 ==> Count(events, (e: Event) => e.Idle?) == 0
    decreases |events|
  {
    if events != [] {
      ConnectionsAreCounted(Step(s, events[0]), events[1..]);
    }
  }

  /**
    A connection ends only by a failed write, by being idle, or with the task; without an idle timeout only the first
    and the last: then there is one connection more than failed writes at most.
    */
  lemma ConnectionsEndExactly(config: Config, events: seq<Event>)
    requires Possible(Start(config), events)
    ensures var made := Count(events, (e: Event) => e.Accepted?);
            var lost := Count(events, (e: Event) => e.Broken?) + Count(events, (e: Event) => e.Idle?);
            && lost <= made <= lost + 1
            && (made == lost <==> Run(Start(config), events).phase == Connecting)
            && (config.idleTimeout == 0 ==> made <= Count(events, (e: Event) => e.Broken?) + 1)
  {
    hide Run, Possible, Count;
    ConnectionsAreCounted(Start(config), events);
  }

  /** A connection is given up as idle only when every line sent so far has been written. */
  lemma IdleMeansDelivered(config: Config, events: seq<Event>)
    requires Possible(Start(config), events) && CanHappen(Run(Start(config), events), Idle)
    ensures Run(Start(config), events).written == Run(Start(config), events).sent
  {
    hide Run, Possible, WaitAt;
    StartsConserved(config);
    RunConserves(Start(config), events);
  }

  /** The sink can only return from an open connection, with the sources gone and nothing left to write. */
  lemma ReturnsExactly(s: State)
    requires Conserved(s)
    ensures CanHappen(s, Ended) <==> s.phase == Receiving && s.closed && s.written == s.sent
  {
    hide WaitAt;
    if s.written == s.sent {
      assert |s.written + InHand(s) + s.channel| == |s.sent|;
    }
    assert s.channel == [] && InHand(s) == [] ==> s.written + InHand(s) + s.channel == s.written;
  }
}
