/** The log relay's sink: one connection, one retry slot (crates/vigil-log-relay/src/tcp_sink.rs). */
module TcpSink {
  import opened Prelude

  datatype Config = Config(idleTimeout: nat, delay: nat, maxDelay: nat)

  /** What the task is waiting for. */
  datatype Phase = Connecting | Receiving | Writing(line: string) | Exited

  datatype State = State(
    config: Config,
    phase: Phase,
    pending: Option<string>,
    backoff: nat,
    // the channel from the sources, and whether they have all gone
    channel: seq<string>,
    closed: bool,
    // everything ever sent into the channel, everything written, and the waits since the last connection
    sent: seq<string>,
    written: seq<string>,
    waits: seq<nat>)

  /** The sources send and leave at any time; the rest is what the awaited call came back with. */
  datatype Event =
    | Send(line: string)
    | Close
    | Refused
    | Accepted
    | Received
    | Idle
    | Ended
    | Written
    | Broken

  predicate IsOutside(e: Event) {
    e.Send? || e.Close?
  }

  function Start(config: Config): State {
    State(config, Connecting, None, config.delay, [], false, [], [], [])
  }

  predicate CanHappen(s: State, e: Event) {
    match e
    case Send(_) | Close => !s.closed
    case Refused | Accepted => s.phase == Connecting
    case Received => s.phase == Receiving && s.channel != []
    case Idle => s.phase == Receiving && s.config.idleTimeout > 0 && s.channel == [] && !s.closed
    case Ended => s.phase == Receiving && s.channel == [] && s.closed
    case Written | Broken => s.phase.Writing?
  }

  function Least(a: nat, b: nat): nat {
    if a <= b then a else b
  }

  function Step(s: State, e: Event): State
    requires CanHappen(s, e)
  {
    match e
    case Send(line) => s.(channel := s.channel + [line], sent := s.sent + [line])
    case Close => s.(closed := true)
    case Refused => s.(waits := s.waits + [s.backoff], backoff := Least(s.backoff * 2, s.config.maxDelay))
    case Accepted =>
      s.(phase := if s.pending.Some? then Writing(s.pending.value) else Receiving, pending := None,
         backoff := s.config.delay, waits := [])
    case Received => s.(phase := Writing(s.channel[0]), channel := s.channel[1..])
    case Idle => s.(phase := Connecting)
    case Ended => s.(phase := Exited)
    case Written => s.(phase := Receiving, written := s.written + [s.phase.line])
    case Broken => s.(phase := Connecting, pending := Some(s.phase.line))
  }

  predicate Possible(s: State, events: seq<Event>)
    decreases |events|
  {
    events == [] || (CanHappen(s, events[0]) && Possible(Step(s, events[0]), events[1..]))
  }

  function Run(s: State, events: seq<Event>): State
    requires Possible(s, events)
    decreases |events|
  {
    if events == [] then s else Run(Step(s, events[0]), events[1..])
  }

  lemma RunHead(s: State, events: seq<Event>, n: nat)
    requires n < |events| && Possible(s, events[n..])
    ensures CanHappen(s, events[n]) && Possible(Step(s, events[n]), events[n + 1..])
    ensures Run(s, events[n..]) == Run(Step(s, events[n]), events[n + 1..])
  {
    hide CanHappen, Step;
    assert events[n..][0] == events[n] && events[n..][1..] == events[n + 1..];
  }

  lemma RunOver(s: State, events: seq<Event>)
    ensures Possible(s, events[|events|..]) && Run(s, events[|events|..]) == s
  {
  }

  lemma NothingFollows(s: State, events: seq<Event>, n: nat)
    requires n <= |events| && Possible(s, events[n..]) && s.phase == Exited && s.closed
    ensures n == |events|
  {
    if n < |events| {
      RunHead(s, events, n);
      assert false;
    }
  }

  // ---------------------------------------------------------------------
  // The program's form
  // ---------------------------------------------------------------------

  /** What comes of waiting for the next line. */
  datatype Next = Got(line: string) | GivenUp | Over

  class Sink {
    const config: Config
    var pending: Option<string>
    var backoff: nat
    var channel: seq<string>
    var closed: bool
    var written: seq<string>
    ghost var phase: Phase
    ghost var sent: seq<string>
    ghost var waits: seq<nat>

    ghost function View(): State
      reads this
    {
      State(config, phase, pending, backoff, channel, closed, sent, written, waits)
    }

    /** From here on the rest of the events leads to `goal`. */
    ghost predicate Heading(events: seq<Event>, n: nat, goal: State)
      reads this
    {
      n <= |events| && Possible(View(), events[n..]) && Run(View(), events[n..]) == goal
    }

    constructor (config: Config)
      ensures View() == Start(config)
    {
      this.config := config;
      pending, backoff, channel, closed, written := None, config.delay, [], false, [];
      phase, sent, waits := Connecting, [], [];
    }

    /** While the task awaits a call, the sources go on. */
    method Await(events: seq<Event>, from: nat, ghost goal: State) returns (n: nat)
      requires Heading(events, from, goal)
      modifies this`channel, this`closed, this`sent
      ensures from <= n && Heading(events, n, goal)
      ensures n < |events| ==> !IsOutside(events[n]) && CanHappen(View(), events[n])
      ensures n == |events| ==> View() == goal
      ensures old(channel) <= channel
    {
      hide Possible, Run;
      n := from;
      while n < |events| && IsOutside(events[n])
        invariant from <= n && Heading(events, n, goal) && old(channel) <= channel
      {
        RunHead(View(), events, n);
        match events[n] {
          case Send(line) =>
            channel := channel + [line];
            sent := sent + [line];
          case Close =>
            closed := true;
        }
        n := n + 1;
      }
      if n < |events| {
        RunHead(View(), events, n);
      } else {
        RunOver(View(), events);
      }
    }

    /** The line that could not be written, or else the next from the channel. */
    method NextLine(events: seq<Event>, from: nat, ghost goal: State) returns (n: nat, next: Next)
      requires phase == if pending.Some? then Writing(pending.value) else Receiving
      requires from <= |events| && Possible(View().(pending := None), events[from..])
      requires Run(View().(pending := None), events[from..]) == goal
      modifies this`pending, this`channel, this`closed, this`sent, this`phase
      ensures from <= n && pending == None && Heading(events, n, goal)
      ensures next.Got? ==> phase == Writing(next.line)
      ensures next.GivenUp? ==> phase == Connecting && from < n
      ensures next.Over? ==> n == |events| && View() == goal
      ensures old(pending).Some? ==> next == Got(old(pending.value)) && n == from && channel == old(channel)
      ensures old(pending).None? && old(channel) != [] && next.Got? ==> next.line == old(channel)[0]
    {
      hide Possible, Run;
      if pending.Some? {
        var line := pending.value;
        pending := None;
        return from, Got(line);
      }
      assert View() == View().(pending := None);
      n := Await(events, from, goal);
      if n == |events| {
        return n, Over;
      }
      RunHead(View(), events, n);
      match events[n] {
        case Received =>
          next := Got(channel[0]);
          phase := Writing(channel[0]);
          channel := channel[1..];
          n := n + 1;
        case Ended =>
          phase := Exited;
          n := n + 1;
          NothingFollows(View(), events, n);
          RunOver(View(), events);
          next := Over;
        case Idle =>
          phase := Connecting;
          n := n + 1;
          next := GivenUp;
      }
    }

    /** One connection, from its opening until it is given up or the task ends. */
    method Connection(events: seq<Event>, from: nat, ghost goal: State) returns (n: nat, done: bool)
      requires phase == if pending.Some? then Writing(pending.value) else Receiving
      requires from <= |events| && Possible(View().(pending := None), events[from..])
      requires Run(View().(pending := None), events[from..]) == goal
      modifies this
      ensures done ==> View() == goal
      ensures !done ==> from < n && phase == Connecting && Heading(events, n, goal)
    {
      hide Possible, Run;
      n := from;
      while true
        invariant from <= n <= |events|
        invariant phase == if pending.Some? then Writing(pending.value) else Receiving
        invariant Possible(View().(pending := None), events[n..])
        invariant Run(View().(pending := None), events[n..]) == goal
        decreases |events| - n
      {
        var next;
        n, next := NextLine(events, n, goal);
        if next.Over? {
          return n, true;
        }
        if next.GivenUp? {
          return n, false;
        }
        var over, broken;
        n, over, broken := WriteLine(events, n, next.line, goal);
        if over {
          return n, true;
        }
        if broken {
          return n, false;
        }
        assert View() == View().(pending := None);
      }
    }

    /** Writes one line, or keeps it for the next connection. */
    method WriteLine(events: seq<Event>, from: nat, line: string, ghost goal: State)
      returns (n: nat, over: bool, broken: bool)
      requires phase == Writing(line) && pending == None && Heading(events, from, goal)
      modifies this
      ensures over ==> View() == goal
      ensures !over ==> from < n && Heading(events, n, goal)
      ensures !over && broken ==> phase == Connecting && pending == Some(line) && written == old(written)
      ensures !over && !broken ==> phase == Receiving && pending == None && written == old(written) + [line]
    {
      hide Possible, Run;
      n := Await(events, from, goal);
      if n == |events| {
        return n, true, false;
      }
      RunHead(View(), events, n);
      broken := events[n] == Broken;
      if broken {
        pending := Some(line);
        phase := Connecting;
      } else {
        written := written + [line];
        phase := Receiving;
      }
      n := n + 1;
      over := false;
    }

    /** Returns when the channel has ended, or when the events given are used up. */
    method Loop(events: seq<Event>)
      requires Possible(View(), events) && phase == Connecting
      modifies this
      ensures View() == Run(old(View()), events)
    {
      hide Possible, Run;
      ghost var goal := Run(View(), events);
      assert events[0..] == events;
      var n, done := 0, false;
      while !done
        invariant !done ==> phase == Connecting && Heading(events, n, goal)
        invariant done ==> View() == goal
        decreases !done, if done then 0 else |events| - n
      {
        n := Await(events, n, goal);
        if n == |events| {
          return;
        }
        RunHead(View(), events, n);
        if events[n] == Refused {
          waits := waits + [backoff];
          backoff := Least(backoff * 2, config.maxDelay);
          n := n + 1;
        } else {
          backoff := config.delay;
          waits := [];
          phase := if pending.Some? then Writing(pending.value) else Receiving;
          n, done := Connection(events, n + 1, goal);
        }
      }
    }
  }
}
