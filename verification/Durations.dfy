/** Duration strings such as "1m30s" (crates/vigild/src/duration.rs). */
module Durations {
  import opened Prelude

  /** Milliseconds are counted in a 64-bit unsigned integer. */
  const MAX_U64: nat := 0xFFFF_FFFF_FFFF_FFFF

  datatype Unit = Millisecond | Second | Minute | Hour {
    /** `n` of this unit in milliseconds. */
    function Times(n: nat): (ms: nat)
      ensures n <= ms
    {
      match this
      case Millisecond => n
      case Second => 1_000 * n
      case Minute => 60_000 * n
      case Hour => 3_600_000 * n
    }

    function Suffix(): string {
      match this
      case Millisecond => "ms"
      case Second => "s"
      case Minute => "m"
      case Hour => "h"
    }
  }

  datatype ParseError = Empty | ExpectedDigit | NumberOverflow | UnknownSuffix | TotalOverflow

  predicate IsDigit(c: char) {
    '0' <= c <= '9'
  }

  predicate AllDigits(s: string) {
    forall i :: 0 <= i < |s| ==> IsDigit(s[i])
  }

  /** The number a digit string denotes; leading zeros are allowed. */
  function Number(digits: string): nat
    requires AllDigits(digits)
  {
    if digits == "" then 0
    else 10 * Number(digits[..|digits| - 1]) + (digits[|digits| - 1] as int - '0' as int)
  }

  /** Length of the leading run of digits. */
  function DigitRun(s: string): (n: nat)
    ensures n <= |s| && AllDigits(s[..n])
    ensures n < |s| ==> !IsDigit(s[n])
  {
    if s == "" || !IsDigit(s[0]) then 0 else 1 + DigitRun(s[1..])
  }

  /** The unit `s` starts with; "ms" is tried before "m" and "s". */
  function UnitAt(s: string): (u: Option<Unit>)
    ensures u.Some? ==> u.value.Suffix() <= s
  {
    if "ms" <= s then Some(Millisecond)
    else if "s" <= s then Some(Second)
    else if "m" <= s then Some(Minute)
    else if "h" <= s then Some(Hour)
    else None
  }

  /** The component at the front of `rest`: its milliseconds and its length. */
  function ReadComponent(rest: string): (r: Result<(nat, nat), ParseError>)
    ensures r.Ok? ==> 0 < r.value.1 <= |rest|
  {
    var n := DigitRun(rest);
    if n == 0 then Err(ExpectedDigit)
    else
      var num := Number(rest[..n]);
      if num > MAX_U64 then Err(NumberOverflow)
      else match UnitAt(rest[n..])
        case None => Err(UnknownSuffix)
        case Some(u) =>
          if u.Times(num) > MAX_U64 then Err(TotalOverflow)
          else Ok((u.Times(num), n + |u.Suffix()|))
  }

  function ParseFrom(rest: string, total: nat): Result<nat, ParseError>
    decreases |rest|
  {
    if rest == "" then Ok(total)
    else match ReadComponent(rest)
      case Err(e) => Err(e)
      case Ok((millis, length)) =>
        if total + millis > MAX_U64 then Err(TotalOverflow)
        else ParseFrom(rest[length..], total + millis)
  }

  function Parse(s: string): Result<nat, ParseError> {
    if s == "" then Err(Empty) else ParseFrom(s, 0)
  }

  lemma ParseStep(rest: string, total: nat)
    requires rest != ""
    ensures match ReadComponent(rest)
            case Err(e) => ParseFrom(rest, total) == Err(e)
            case Ok((millis, length)) =>
              ParseFrom(rest, total) ==
              if total + millis > MAX_U64 then Err(TotalOverflow) else ParseFrom(rest[length..], total + millis)
  {
    hide DigitRun, UnitAt, Number, ReadComponent;
  }

  lemma ParseNothing(total: nat)
    ensures ParseFrom("", total) == Ok(total)
  {
    hide ReadComponent;
  }

  /** The scanning loop of the program. */
  method ParseDuration(s: string) returns (r: Result<nat, ParseError>)
    ensures r == Parse(s)
  {
    hide ParseFrom, ReadComponent;
    if s == "" {
      return Err(Empty);
    }
    var total: nat, rest := 0, s;
    while rest != ""
      invariant Parse(s) == ParseFrom(rest, total)
      decreases |rest|
    {
      ParseStep(rest, total);
      match ReadComponent(rest) {
        case Err(e) =>
          return Err(e);
        case Ok((millis, length)) =>
          if total + millis > MAX_U64 {
            return Err(TotalOverflow);
          }
          rest, total := rest[length..], total + millis;
      }
    }
    ParseNothing(total);
    r := Ok(total);
  }

  // ---------------------------------------------------------------------
  // What a duration string means: a chain of number and unit components
  // ---------------------------------------------------------------------

  datatype Component = Component(digits: string, unit: Unit) {
    predicate Valid() {
      digits != "" && AllDigits(digits)
    }

    function Millis(): nat
      requires Valid()
    {
      unit.Times(Number(digits))
    }

    function Text(): (text: string)
      ensures digits <= text
    {
      digits + unit.Suffix()
    }
  }

  predicate ValidChain(chain: seq<Component>) {
    forall c :: c in chain ==> c.Valid()
  }

  function Render(chain: seq<Component>): string {
    if chain == [] then "" else chain[0].Text() + Render(chain[1..])
  }

  /** The exact, unbounded sum of a chain. */
  function Sum(chain: seq<Component>): nat
    requires ValidChain(chain)
  {
    if chain == [] then 0 else chain[0].Millis() + Sum(chain[1..])
  }

  ghost predicate Denotes(s: string, chain: seq<Component>) {
    ValidChain(chain) && chain != [] && Render(chain) == s
  }

  lemma {:induction false} DigitRunOfPrefix(digits: string, tail: string)
    requires AllDigits(digits)
    requires tail == "" || !IsDigit(tail[0])
    ensures DigitRun(digits + tail) == |digits|
    decreases |digits|
  {
    if digits == "" {
      assert digits + tail == tail;
    } else {
      assert (digits + tail)[1..] == digits[1..] + tail;
      DigitRunOfPrefix(digits[1..], tail);
    }
  }

  lemma {:induction false} RenderStartsWithDigit(chain: seq<Component>)
    requires ValidChain(chain)
    ensures Render(chain) == "" || IsDigit(Render(chain)[0])
  {
    if chain != [] {
      assert chain[0].Valid();
    }
  }

  lemma {:induction false} UnitAtSuffix(u: Unit, tail: string)
    requires tail == "" || (!(u.Minute? && tail[0] == 's'))
    ensures UnitAt(u.Suffix() + tail) == Some(u)
  {
    var s := u.Suffix() + tail;
    assert s[|u.Suffix()|..] == tail;
    match u
    case Millisecond => assert "ms" <= s;
    case Second => assert s[0] == 's';
    case Minute =>
      assert s[0] == 'm';
      assert tail != "" ==> s[1] == tail[0];
    case Hour => assert s[0] == 'h';
  }

  lemma RenderedParts(c: Component, tail: string)
    requires c.Valid()
    requires tail == "" || !(c.unit.Minute? && tail[0] == 's')
    ensures var s := c.Text() + tail;
            && DigitRun(s) == |c.digits| && s[..|c.digits|] == c.digits && UnitAt(s[|c.digits|..]) == Some(c.unit)
            && s[|c.Text()|..] == tail
  {
    hide UnitAt, Number;
    var s := c.Text() + tail;
    var after := c.unit.Suffix() + tail;
    assert s == c.digits + after;
    DigitRunOfPrefix(c.digits, after);
    assert s[..|c.digits|] == c.digits && s[|c.digits|..] == after;
    UnitAtSuffix(c.unit, tail);
  }

  lemma {:induction false} ReadRendered(c: Component, tail: string)
    requires c.Valid()
    requires tail == "" || !(c.unit.Minute? && tail[0] == 's')
    ensures var s := c.Text() + tail;
            s[|c.Text()|..] == tail &&
            if c.Millis() <= MAX_U64 then ReadComponent(s) == Ok((c.Millis(), |c.Text()|)) else ReadComponent(s).Err?
  {
    hide DigitRun, UnitAt, Number;
    RenderedParts(c, tail);
  }

  lemma {:induction false} ParseChain(chain: seq<Component>, total: nat)
    requires ValidChain(chain) && total <= MAX_U64
    ensures total + Sum(chain) <= MAX_U64 ==> ParseFrom(Render(chain), total) == Ok(total + Sum(chain))
    ensures total + Sum(chain) > MAX_U64 ==> ParseFrom(Render(chain), total).Err?
    decreases |chain|
  {
    hide ParseFrom, ReadComponent, Number, Component.Millis, Component.Text;
    if chain == [] {
      ParseNothing(total);
    } else {
      var c, rest := chain[0], chain[1..];
      RenderStartsWithDigit(rest);
      ReadRendered(c, Render(rest));
      ParseStep(c.Text() + Render(rest), total);
      if total + c.Millis() <= MAX_U64 {
        ParseChain(rest, total + c.Millis());
      }
    }
  }

  lemma ComponentRead(s: string) returns (c: Component)
    requires ReadComponent(s).Ok?
    ensures c.Valid() && c.Text() == s[..ReadComponent(s).value.1]
  {
    hide DigitRun, UnitAt, Number;
    var n := DigitRun(s);
    c := Component(s[..n], UnitAt(s[n..]).value);
    assert s[..n + |c.unit.Suffix()|] == s[..n] + s[n..][..|c.unit.Suffix()|];
  }

  lemma {:induction false} ChainOf(s: string, total: nat) returns (chain: seq<Component>)
    requires ParseFrom(s, total).Ok?
    ensures ValidChain(chain) && Render(chain) == s
    ensures s != "" ==> chain != []
    decreases |s|
  {
    hide ParseFrom, ReadComponent, Number, Component.Millis, Component.Text;
    if s == "" {
      return [];
    }
    ParseStep(s, total);
    var (millis, length) := ReadComponent(s).value;
    var c := ComponentRead(s);
    var tail := ChainOf(s[length..], total + millis);
    chain := [c] + tail;
    assert chain[1..] == tail;
    assert s == s[..length] + s[length..];
  }

  /** Parsing succeeds exactly on the non-empty chains whose exact sum fits, with that sum as the result. */
  lemma ParseExact(s: string, v: nat)
    ensures Parse(s) == Ok(v)
            <==> exists chain: seq<Component> :: Denotes(s, chain) && Sum(chain) == v <= 0xFFFF_FFFF_FFFF_FFFF
  {
    hide ParseFrom;
    if Parse(s) == Ok(v) {
      var chain := ChainOf(s, 0);
      ParseChain(chain, 0);
      assert Denotes(s, chain);
    }
    forall chain: seq<Component> | Denotes(s, chain) && Sum(chain) == v <= MAX_U64
      ensures Parse(s) == Ok(v)
    {
      assert chain[0].Valid();
      ParseChain(chain, 0);
    }
  }

  lemma {:induction false} RenderConcat(a: seq<Component>, b: seq<Component>)
    requires ValidChain(a) && ValidChain(b)
    ensures ValidChain(a + b)
    ensures Render(a + b) == Render(a) + Render(b)
    ensures Sum(a + b) == Sum(a) + Sum(b)
    decreases |a|
  {
    if a == [] {
      assert a + b == b;
    } else {
      assert (a + b)[1..] == a[1..] + b;
      RenderConcat(a[1..], b);
    }
  }

  /** Writing one valid duration after another adds them, unless the sum no longer fits. */
  lemma ParseIsAdditive(a: string, b: string)
    requires Parse(a).Ok? && Parse(b).Ok?
    ensures var sum := Parse(a).value + Parse(b).value;
            if sum <= MAX_U64 then Parse(a + b) == Ok(sum) else Parse(a + b).Err?
  {
    hide ParseFrom;
    var ca := ChainOf(a, 0);
    var cb := ChainOf(b, 0);
    ParseChain(ca, 0);
    ParseChain(cb, 0);
    RenderConcat(ca, cb);
    assert a + b != "";
    ParseChain(ca + cb, 0);
  }

  // ---------------------------------------------------------------------
  // What is wrong with a text that is refused
  // ---------------------------------------------------------------------

  /** `rest` does not turn the unit before it into another one. */
  predicate Follows(chain: seq<Component>, rest: string) {
    chain == [] || rest == "" || !(chain[|chain| - 1].unit.Minute? && rest[0] == 's')
  }

  lemma {:induction false} ParsePrefix(chain: seq<Component>, rest: string, total: nat)
    requires ValidChain(chain) && Follows(chain, rest) && total + Sum(chain) <= MAX_U64
    ensures ParseFrom(Render(chain) + rest, total) == ParseFrom(rest, total + Sum(chain))
    decreases |chain|
  {
    hide ParseFrom, ReadComponent, Number, Component.Millis, Component.Text;
    if chain == [] {
      assert Render(chain) + rest == rest;
    } else {
      var c, others := chain[0], chain[1..];
      var tail := Render(others) + rest;
      RenderStartsWithDigit(others);
      RenderedNotEmpty(others);
      assert tail != "" ==> tail[0] == if others == [] then rest[0] else Render(others)[0];
      ReadRendered(c, tail);
      assert Render(chain) + rest == c.Text() + tail;
      ParseStep(c.Text() + tail, total);
      assert others != [] ==> others[|others| - 1] == chain[|chain| - 1];
      ParsePrefix(others, rest, total + c.Millis());
    }
  }

  lemma RenderedNotEmpty(chain: seq<Component>)
    requires ValidChain(chain)
    ensures chain != [] ==> Render(chain) != ""
  {
    assert chain != [] ==> chain[0].Valid();
  }

  /** The first fault decides; everything before it is a valid duration that still fits. */
  datatype Fault =
    | NoNumber(rest: string)
    | BigNumber(digits: string, rest: string)
    | NoUnit(digits: string, rest: string)
    | TooMuch(component: Component, rest: string)
  {
    predicate Valid(sum: nat) {
      match this
      case NoNumber(rest) => rest != "" && !IsDigit(rest[0])
      case BigNumber(digits, rest) =>
        digits != "" && AllDigits(digits) && (rest == "" || !IsDigit(rest[0])) && Number(digits) > 0xFFFF_FFFF_FFFF_FFFF
      case NoUnit(digits, rest) =>
        && digits != "" && AllDigits(digits) && Number(digits) <= 0xFFFF_FFFF_FFFF_FFFF
        && (rest == "" || (!IsDigit(rest[0]) && rest[0] != 's' && rest[0] != 'm' && rest[0] != 'h'))
      case TooMuch(c, rest) =>
        && c.Valid() && Follows([c], rest) && Number(c.digits) <= 0xFFFF_FFFF_FFFF_FFFF
        && sum + c.Millis() > 0xFFFF_FFFF_FFFF_FFFF
    }

    function Text(): string {
      match this
      case NoNumber(rest) => rest
      case BigNumber(digits, rest) => digits + rest
      case NoUnit(digits, rest) => digits + rest
      case TooMuch(c, rest) => c.Text() + rest
    }

    function Named(): ParseError {
      match this
      case NoNumber(_) => ExpectedDigit
      case BigNumber(_, _) => NumberOverflow
      case NoUnit(_, _) => UnknownSuffix
      case TooMuch(_, _) => TotalOverflow
    }
  }

  /** What is refused is named by its first fault. */
  lemma FaultIsNamed(chain: seq<Component>, fault: Fault)
    requires ValidChain(chain) && Sum(chain) <= 0xFFFF_FFFF_FFFF_FFFF
    requires fault.Valid(Sum(chain)) && Follows(chain, fault.Text())
    ensures Parse(Render(chain) + fault.Text()) == Err(fault.Named())
    ensures Parse("") == Err(Empty)
  {
    hide ParseFrom, ReadComponent, Number, Component.Millis, Component.Text;
    var s := fault.Text();
    ParsePrefix(chain, s, 0);
    FaultIsRead(fault, Sum(chain));
    ParseStep(s, Sum(chain));
    assert Render(chain) + s != "";
  }

  lemma FaultIsRead(fault: Fault, sum: nat)
    requires fault.Valid(sum)
    ensures fault.Text() != ""
    ensures match ReadComponent(fault.Text())
            case Err(e) => e == fault.Named()
            case Ok((millis, _)) => fault.Named() == TotalOverflow && sum + millis > MAX_U64
  {
    hide DigitRun, Number;
    match fault
    case NoNumber(rest) => NoDigits(rest);
    case BigNumber(digits, rest) =>
      DigitRunOfPrefix(digits, rest);
      assert (digits + rest)[..|digits|] == digits;
    case NoUnit(digits, rest) =>
      DigitRunOfPrefix(digits, rest);
      assert (digits + rest)[..|digits|] == digits && (digits + rest)[|digits|..] == rest;
    case TooMuch(c, rest) => RenderedParts(c, rest);
  }

  lemma ComponentFault(s: string, total: nat) returns (fault: Fault)
    requires s != "" && total <= MAX_U64
    requires ReadComponent(s).Err? || total + ReadComponent(s).value.0 > MAX_U64
    ensures fault.Valid(total) && fault.Text() == s
  {
    hide Number, DigitRun, UnitAt;
    var n := DigitRun(s);
    var digits, rest := s[..n], s[n..];
    assert s == digits + rest && (rest == "" || rest[0] == s[n]);
    if n == 0 {
      fault := NoNumber(s);
    } else if Number(digits) > MAX_U64 {
      fault := BigNumber(digits, rest);
    } else if UnitAt(rest).None? {
      fault := NoUnit(digits, rest);
      SuffixStarts(rest);
    } else {
      fault := BigComponent(digits, rest, total);
    }
  }

  lemma BigComponent(digits: string, rest: string, total: nat) returns (fault: Fault)
    requires digits != "" && AllDigits(digits) && Number(digits) <= MAX_U64
    requires UnitAt(rest).Some? && total + UnitAt(rest).value.Times(Number(digits)) > MAX_U64
    ensures fault.Valid(total) && fault.Text() == digits + rest
  {
    hide Number, UnitAt, Unit.Times;
    var u := UnitAt(rest).value;
    var c, tail := Component(digits, u), rest[|u.Suffix()|..];
    fault := TooMuch(c, tail);
    assert rest == u.Suffix() + tail;
    if u.Minute? {
      MinuteStays(rest);
    }
  }

  lemma SuffixStarts(rest: string)
    requires UnitAt(rest).None?
    ensures rest != "" ==> rest[0] != 's' && rest[0] != 'm' && rest[0] != 'h'
  {
    assert rest != "" ==> rest[..1] == [rest[0]];
  }

  lemma MinuteStays(rest: string)
    requires UnitAt(rest) == Some(Minute)
    ensures |rest| > 1 ==> rest[1..][0] != 's' && rest[1] != 's'
  {
    if |rest| > 1 {
      assert "ms" <= rest <==> rest[..2] == "ms";
      assert rest[..2] == [rest[0], rest[1]];
    }
  }

  lemma {:induction false} FaultFrom(s: string, total: nat) returns (chain: seq<Component>, fault: Fault)
    requires total <= MAX_U64 && ParseFrom(s, total).Err?
    ensures ValidChain(chain) && total + Sum(chain) <= MAX_U64
    ensures fault.Valid(total + Sum(chain)) && Follows(chain, fault.Text()) && s == Render(chain) + fault.Text()
    decreases |s|
  {
    hide ParseFrom, ReadComponent, Number, Component.Millis, Component.Text, Fault.Valid, Fault.Text;
    if s == "" {
      ParseNothing(total);
    }
    ParseStep(s, total);
    if ReadComponent(s).Err? || total + ReadComponent(s).value.0 > MAX_U64 {
      chain := [];
      fault := ComponentFault(s, total);
      assert Render(chain) + fault.Text() == fault.Text();
    } else {
      var (millis, length) := ReadComponent(s).value;
      var c := ComponentTaken(s);
      var others;
      others, fault := FaultFrom(s[length..], total + millis);
      chain := [c] + others;
      assert chain[1..] == others && s == s[..length] + s[length..];
      RenderStartsWithDigit(others);
      RenderedNotEmpty(others);
      assert chain[|chain| - 1] == if others == [] then c else others[|others| - 1];
    }
  }

  lemma ComponentTaken(s: string) returns (c: Component)
    requires ReadComponent(s).Ok?
    ensures var (millis, length) := ReadComponent(s).value;
            && c.Valid() && c.Text() == s[..length] && c.Millis() == millis
            && (c.unit.Minute? && length < |s| ==> s[length] != 's')
  {
    hide DigitRun, Number;
    var n := DigitRun(s);
    c := Component(s[..n], UnitAt(s[n..]).value);
    assert s[..n + |c.unit.Suffix()|] == s[..n] + s[n..][..|c.unit.Suffix()|];
    if c.unit.Minute? {
      MinuteStays(s[n..]);
    }
  }

  /** Every text that is refused is empty or has such a fault. */
  lemma RefusedHasFault(s: string)
    requires Parse(s).Err?
    ensures s == "" || exists chain: seq<Component>, fault: Fault ::
              && ValidChain(chain) && Sum(chain) <= 0xFFFF_FFFF_FFFF_FFFF && fault.Valid(Sum(chain))
              && Follows(chain, fault.Text()) && s == Render(chain) + fault.Text()
  {
    hide ParseFrom, Fault.Valid, Fault.Text;
    if s != "" {
      var chain, fault := FaultFrom(s, 0);
    }
  }

  lemma NoDigits(rest: string)
    requires rest != "" && !IsDigit(rest[0])
    ensures DigitRun(rest) == 0
  {
  }

  // ---------------------------------------------------------------------
  // A canonical printer
  // ---------------------------------------------------------------------

  function Decimal(n: nat): (s: string)
    ensures AllDigits(s) && s != ""
  {
    var last := [('0' as int + n % 10) as char];
    if n < 10 then last else Decimal(n / 10) + last
  }

  lemma {:induction false} NumberOfDecimal(n: nat)
    ensures Number(Decimal(n)) == n
  {
    var s := Decimal(n);
    if n < 10 {
      assert s[..|s| - 1] == "";
    } else {
      NumberOfDecimal(n / 10);
      assert s[..|s| - 1] == Decimal(n / 10);
    }
  }

  function Components(v: nat): seq<Component> {
    [Component(Decimal(v / 3_600_000), Hour),
     Component(Decimal(v % 3_600_000 / 60_000), Minute),
     Component(Decimal(v % 60_000 / 1_000), Second),
     Component(Decimal(v % 1_000), Millisecond)]
  }

  /** Hours, minutes, seconds and milliseconds, each written out. */
  function Print(v: nat): string {
    Render(Components(v))
  }

  lemma {:induction false} SumOfComponents(v: nat)
    ensures ValidChain(Components(v))
    ensures Sum(Components(v)) == v
  {
    NumberOfDecimal(v / 3_600_000);
    NumberOfDecimal(v % 3_600_000 / 60_000);
    NumberOfDecimal(v % 60_000 / 1_000);
    NumberOfDecimal(v % 1_000);
    hide Number, Decimal;
    var cs := Components(v);
    assert cs[1..][1..] == cs[2..] && cs[2..][1..] == cs[3..];
    assert Sum(cs[3..]) == cs[3].Millis();
    assert Sum(cs[2..]) == cs[2].Millis() + Sum(cs[3..]);
    assert Sum(cs[1..]) == cs[1].Millis() + Sum(cs[2..]);
    SplitMillis(v);
  }

  lemma SplitMillis(v: nat)
    ensures 3_600_000 * (v / 3_600_000) + 60_000 * (v % 3_600_000 / 60_000)
            + 1_000 * (v % 60_000 / 1_000) + v % 1_000 == v
  {
    var h := v / 3_600_000;
    var r := v % 3_600_000;
    assert v == 3_600_000 * h + r;
    assert v % 60_000 == r % 60_000 by {
      assert v == 60_000 * (60 * h) + r;
    }
    assert v % 1_000 == (r % 60_000) % 1_000;
  }

  /** Every 64-bit millisecond count survives being printed and parsed. */
  lemma ParseInvertsPrint(v: nat)
    requires v <= 0xFFFF_FFFF_FFFF_FFFF
    ensures Parse(Print(v)) == Ok(v)
  {
    hide ParseFrom;
    SumOfComponents(v);
    ParseChain(Components(v), 0);
    assert Components(v)[0].Valid();
    assert Print(v) != "";
  }
}
