/** Which hosts bypass the proxy (crates/vigil-types/src/no_proxy/mod.rs). */
module NoProxy {
  import opened Prelude

  /** An address as its bits, from the most significant on. */
  datatype Address = V4(bits: nat) | V6(bits: nat)

  function Width(a: Address): nat {
    if a.V4? then 32 else 128
  }

  predicate Fits(a: Address) {
    a.bits < Pow2(Width(a))
  }

  /** `x >> n`, one place at a time. */
  function ShiftRight(x: nat, n: nat): nat {
    if n == 0 then x else ShiftRight(x, n - 1) / 2
  }

  /** The arms of the comparison: other lengths than the width allows never match, length 0 always does. */
  function CidrMatches(ip: Address, net: Address, prefix: nat): bool {
    if ip.V4? != net.V4? then false
    else if prefix > Width(ip) then false
    else if prefix == 0 then true
    else ShiftRight(ip.bits, Width(ip) - prefix) == ShiftRight(net.bits, Width(ip) - prefix)
  }

  /** Bit `k` of a number, from the least significant on. */
  function Bit(x: nat, k: nat): bool {
    ShiftRight(x, k) % 2 == 1
  }

  /** Bit `k` of an address, from the most significant on. */
  function AddressBit(a: Address, k: nat): bool
    requires k < Width(a)
  {
    Bit(a.bits, Width(a) - 1 - k)
  }

  // ---------------------------------------------------------------------
  // Shifting compares bits
  // ---------------------------------------------------------------------

  lemma ShiftOneMore(x: nat, n: nat)
    ensures ShiftRight(x, n + 1) == ShiftRight(x, n) / 2
    ensures ShiftRight(x, n) == 2 * ShiftRight(x, n + 1) + if Bit(x, n) then 1 else 0
  {
  }

  /** Numbers below 2^width agree above bit `n` exactly if all their bits from `n` on agree. */
  lemma {:induction false} ShiftAgrees(x: nat, y: nat, n: nat, width: nat)
    requires n <= width && x < Pow2(width) && y < Pow2(width)
    ensures ShiftRight(x, n) == ShiftRight(y, n) <==> forall k :: n <= k < width ==> Bit(x, k) == Bit(y, k)
    decreases width - n
  {
    hide ShiftRight, Bit;
    if n == width {
      ShiftedOut(x, width);
      ShiftedOut(y, width);
    } else {
      ShiftAgrees(x, y, n + 1, width);
      ShiftOneMore(x, n);
      ShiftOneMore(y, n);
    }
  }

  lemma ShiftedOut(x: nat, width: nat)
    requires x < Pow2(width)
    ensures ShiftRight(x, width) == 0
  {
    ShiftShrinks(x, width, width);
    assert Pow2(0) == 1;
  }

  lemma {:induction false} ShiftShrinks(x: nat, n: nat, width: nat)
    requires n <= width && x < Pow2(width)
    ensures ShiftRight(x, n) < Pow2(width - n)
    decreases n
  {
    if n > 0 {
      ShiftShrinks(x, n - 1, width);
      assert Pow2(width - (n - 1)) == 2 * Pow2(width - n);
    }
  }

  /** An address matches a network exactly if they are of one family and their first `prefix` bits agree. */
  lemma MatchesExactly(ip: Address, net: Address, prefix: nat)
    requires Fits(ip) && Fits(net)
    ensures CidrMatches(ip, net, prefix)
            <==> ip.V4? == net.V4? && prefix <= (if ip.V4? then 32 else 128)
                 && forall k :: 0 <= k < prefix ==> AddressBit(ip, k) == AddressBit(net, k)
  {
    hide ShiftRight, Bit, Pow2;
    if ip.V4? == net.V4? && 0 < prefix <= Width(ip) {
      var w := Width(ip);
      ShiftAgrees(ip.bits, net.bits, w - prefix, w);
      assert (forall k :: w - prefix <= k < w ==> Bit(ip.bits, k) == Bit(net.bits, k))
        ==> forall k :: 0 <= k < prefix ==> AddressBit(ip, k) == AddressBit(net, k);
      assert (forall k :: 0 <= k < prefix ==> AddressBit(ip, k) == AddressBit(net, k))
        ==> forall k :: w - prefix <= k < w ==> Bit(ip.bits, k) == Bit(net.bits, k) by {
        if forall k :: 0 <= k < prefix ==> AddressBit(ip, k) == AddressBit(net, k) {
          forall k | w - prefix <= k < w ensures Bit(ip.bits, k) == Bit(net.bits, k) {
            assert AddressBit(ip, w - 1 - k) == AddressBit(net, w - 1 - k);
          }
        }
      }
    }
  }

  /** A shorter prefix keeps every match. */
  lemma ShorterKeepsMatch(ip: Address, net: Address, prefix: nat, shorter: nat)
    requires Fits(ip) && Fits(net) && CidrMatches(ip, net, prefix) && shorter <= prefix
    ensures CidrMatches(ip, net, shorter)
  {
    hide CidrMatches, AddressBit, Fits;
    MatchesExactly(ip, net, prefix);
    MatchesExactly(ip, net, shorter);
  }

  // ---------------------------------------------------------------------
  // Names
  // ---------------------------------------------------------------------

  predicate EndsWith(s: string, tail: string) {
    |tail| <= |s| && s[|s| - |tail|..] == tail
  }

  function NameMatches(host: string, entry: string): bool {
    || host == entry
    || (|host| > |entry| && host[|host| - |entry| - 1] == '.' && EndsWith(host, entry))
  }

  /** A name matches exactly if it is the entry itself or a name under it. */
  lemma NameMatchesExactly(host: string, entry: string)
    ensures NameMatches(host, entry) <==> host == entry || exists front :: host == front + "." + entry
  {
    if |host| > |entry| && host[|host| - |entry| - 1] == '.' && EndsWith(host, entry) {
      var front := host[..|host| - |entry| - 1];
      assert host == front + "." + entry;
    }
    forall front | host == front + "." + entry ensures NameMatches(host, entry) {
      assert host[|host| - |entry| - 1] == '.';
      assert host[|host| - |entry|..] == entry;
    }
  }

  /** The suffix test is transitive: what is under an entry is under whatever the entry is under. */
  lemma NamesNest(host: string, entry: string, outer: string)
    requires NameMatches(host, entry) && NameMatches(entry, outer)
    ensures NameMatches(host, outer)
  {
    hide NameMatches;
    NameMatchesExactly(host, entry);
    NameMatchesExactly(entry, outer);
    NameMatchesExactly(host, outer);
    if host != entry && entry != outer {
      var a :| host == a + "." + entry;
      var b :| entry == b + "." + outer;
      assert host == (a + "." + b) + "." + outer;
    }
  }

  // ---------------------------------------------------------------------
  // Ports
  // ---------------------------------------------------------------------

  /** The first place of `c` from `n` on. */
  function IndexFrom(s: string, c: char, n: nat): (r: Option<nat>)
    requires n <= |s|
    ensures r.Some? ==> n <= r.value < |s| && s[r.value] == c && forall j :: n <= j < r.value ==> s[j] != c
    ensures r.None? ==> forall j :: n <= j < |s| ==> s[j] != c
    decreases |s| - n
  {
    if n == |s| then None else if s[n] == c then Some(n) else IndexFrom(s, c, n + 1)
  }

  predicate AllDigits(s: string) {
    forall i :: 0 <= i < |s| ==> '0' <= s[i] <= '9'
  }

  function StripAfterColon(host: string): string {
    match IndexFrom(host, ':', 0)
    case None => host
    case Some(i) =>
      // a second colon makes it a bare IPv6 address
      if IndexFrom(host, ':', i + 1).Some? then host
      else if AllDigits(host[i + 1..]) then host[..i] else host
  }

  function StripPort(host: string): string {
    if host != "" && host[0] == '[' then
      match IndexFrom(host[1..], ']', 0)
      case Some(close) => host[1..][..close]
      case None => StripAfterColon(host)
    else StripAfterColon(host)
  }

  /** A host is recovered from host and port. */
  lemma PortIsStripped(host: string, port: string)
    requires ':' !in host && (host != "" ==> host[0] != '[') && AllDigits(port)
    ensures StripPort(host + ":" + port) == host
  {
    var s := host + ":" + port;
    assert s[|host|] == ':' && forall j :: |host| < j < |s| ==> s[j] == port[j - |host| - 1];
    assert forall j :: 0 <= j < |host| ==> s[j] == host[j];
    assert s[|host| + 1..] == port && s[..|host|] == host;
  }

  /** An address is recovered from its brackets, whatever follows them. */
  lemma BracketsAreStripped(address: string, rest: string)
    requires ']' !in address
    ensures StripPort("[" + address + "]" + rest) == address
  {
    var inner := address + "]" + rest;
    assert ("[" + address + "]" + rest)[1..] == inner;
    assert inner[|address|] == ']' && forall j :: 0 <= j < |address| ==> inner[j] == address[j];
    assert inner[..|address|] == address;
  }

  /** Host and port, the host without a colon and the port of digits. */
  predicate HostAndPort(host: string, bare: string, port: string) {
    host == bare + ":" + port && ':' !in bare && AllDigits(port)
  }

  predicate InBrackets(host: string, bare: string, rest: string) {
    host == "[" + bare + "]" + rest && ']' !in bare
  }

  /** What is stripped: brackets with what follows them, or else one port; any other host stays as it is. */
  lemma StripPortExactly(host: string)
    ensures var bare := StripPort(host);
            || (exists rest :: InBrackets(host, bare, rest))
            || ((forall b, rest :: !InBrackets(host, b, rest)) && exists port :: HostAndPort(host, bare, port))
            || ((forall b, rest :: !InBrackets(host, b, rest)) && (forall b, port :: !HostAndPort(host, b, port))
                && bare == host)
  {
    forall b, rest | InBrackets(host, b, rest) ensures StripPort(host) == b {
      BracketsAreStripped(b, rest);
    }
    var bare := StripPort(host);
    if b, rest :| InBrackets(host, b, rest) {
      assert b == bare;
    } else {
      if host != "" && host[0] == '[' && IndexFrom(host[1..], ']', 0).Some? {
        var close := IndexFrom(host[1..], ']', 0).value;
        assert host == "[" + host[1..][..close] + "]" + host[1..][close + 1..];
        assert InBrackets(host, host[1..][..close], host[1..][close + 1..]);
      }
      forall b, port | HostAndPort(host, b, port) ensures StripAfterColon(host) == b {
        ColonFound(host, b, port);
      }
      if bare != host {
        var i := IndexFrom(host, ':', 0).value;
        assert host == host[..i] + ":" + host[i + 1..];
        assert HostAndPort(host, bare, host[i + 1..]);
      }
    }
  }

  lemma ColonFound(host: string, bare: string, port: string)
    requires HostAndPort(host, bare, port)
    ensures StripAfterColon(host) == bare
  {
    assert host[|bare|] == ':' && forall j :: |bare| < j < |host| ==> host[j] == port[j - |bare| - 1];
    assert forall j :: 0 <= j < |bare| ==> host[j] == bare[j];
    assert host[|bare| + 1..] == port && host[..|bare|] == bare;
  }

  /** What is left has no port: a second round changes nothing, except inside brackets. */
  lemma StrippedStays(host: string)
    requires host == "" || host[0] != '['
    ensures StripPort(StripPort(host)) == StripPort(host)
  {
    var r := StripPort(host);
    if r != host {
      var i := IndexFrom(host, ':', 0).value;
      assert forall j :: 0 <= j < |r| ==> r[j] == host[j];
      assert IndexFrom(r, ':', 0) == None;
    }
  }

  // ---------------------------------------------------------------------
  // The whole test
  // ---------------------------------------------------------------------

  /** The library's readers of addresses and of prefix lengths. */
  datatype Readers = Readers(address: string -> Option<Address>, number: string -> Option<nat>)
  {
    ghost predicate Valid() {
      forall s :: address(s).Some? ==> Fits(address(s).value)
    }
  }

  function LowerChar(c: char): char {
    if 'A' <= c <= 'Z' then (c as int + 32) as char else c
  }

  function Lower(s: string): string {
    seq(|s|, i requires 0 <= i < |s| => LowerChar(s[i]))
  }

  function StripDot(entry: string): string {
    if entry != "" && entry[0] == '.' then entry[1..] else entry
  }

  /** A network and a prefix length, cut at the first slash. */
  function CidrOf(entry: string, r: Readers): Option<(Address, nat)> {
    match IndexFrom(entry, '/', 0)
    case None => None
    case Some(i) =>
      var prefix, net := r.number(entry[i + 1..]), r.address(entry[..i]);
      if prefix.Some? && net.Some? then Some((net.value, prefix.value)) else None
  }

  /** A network entry decides alone about a host that is an address; every other pair is compared as names. */
  function EntryMatches(bare: string, entry: string, r: Readers): bool {
    var e := StripDot(entry);
    if r.address(bare).Some? && CidrOf(e, r).Some? then
      CidrMatches(r.address(bare).value, CidrOf(e, r).value.0, CidrOf(e, r).value.1)
    else NameMatches(bare, e)
  }

  function AnyMatches(bare: string, entries: seq<string>, r: Readers): bool {
    entries != [] && (EntryMatches(bare, entries[0], r) || AnyMatches(bare, entries[1..], r))
  }

  function Bypasses(host: string, entries: seq<string>, r: Readers): bool {
    AnyMatches(Lower(StripPort(host)), entries, r)
  }

  lemma {:induction false} AnyMatchesExactly(bare: string, entries: seq<string>, r: Readers)
    ensures AnyMatches(bare, entries, r) <==> exists entry :: entry in entries && EntryMatches(bare, entry, r)
    decreases |entries|
  {
    hide EntryMatches;
    if entries != [] {
      AnyMatchesExactly(bare, entries[1..], r);
      assert entries == [entries[0]] + entries[1..];
    }
  }

  /** `e` is written as a network, an address and a prefix length with a slash between. */
  ghost predicate IsNetwork(e: string, r: Readers, net: Address, prefix: nat) {
    exists text, length ::
      IsNetworkText(e, text, length) && r.address(text) == Some(net) && r.number(length) == Some(prefix)
  }

  ghost predicate IsNetworkText(e: string, text: string, length: string) {
    e == text + "/" + length && '/' !in text
  }

  lemma CidrExactly(e: string, r: Readers, net: Address, prefix: nat)
    ensures CidrOf(e, r) == Some((net, prefix)) <==> IsNetwork(e, r, net, prefix)
  {
    if IndexFrom(e, '/', 0).Some? {
      var i := IndexFrom(e, '/', 0).value;
      assert e == e[..i] + "/" + e[i + 1..];
      assert IsNetworkText(e, e[..i], e[i + 1..]);
    }
    forall text, length | IsNetworkText(e, text, length)
      ensures IndexFrom(e, '/', 0) == Some(|text|) && e[..|text|] == text && e[|text| + 1..] == length
    {
      assert e[|text|] == '/' && forall j :: 0 <= j < |text| ==> e[j] == text[j];
    }
  }

  /**
    The entry, without its leading dot, covers the host: as a network if it is one and the host is an address, then
    the first bits of the address decide; otherwise as the name itself or what is under it.
    */
  ghost predicate Covers(e: string, bare: string, r: Readers) {
    if r.address(bare).Some? && exists net, prefix :: IsNetwork(e, r, net, prefix) then
      exists net, prefix :: IsNetwork(e, r, net, prefix) && InNetwork(r.address(bare).value, net, prefix)
    else bare == e || exists front :: bare == front + "." + e
  }

  ghost predicate InNetwork(ip: Address, net: Address, prefix: nat) {
    && ip.V4? == net.V4? && prefix <= Width(ip) && Width(ip) == (if ip.V4? then 32 else 128)
    && forall k :: 0 <= k < prefix ==> AddressBit(ip, k) == AddressBit(net, k)
  }

  /** `e` is what an entry stands for: without its leading dot, if it has one. */
  predicate StandsFor(entry: string, e: string) {
    entry == "." + e || (entry == e && (e == "" || e[0] != '.'))
  }

  lemma DotStripped(entry: string, e: string)
    ensures StripDot(entry) == e <==> StandsFor(entry, e)
  {
    if entry != "" && entry[0] == '.' {
      assert entry == "." + entry[1..];
    }
  }

  /** A host bypasses the proxy exactly if some entry covers what is left of it without its port, in lower case. */
  lemma BypassesExactly(host: string, entries: seq<string>, r: Readers)
    requires r.Valid()
    ensures Bypasses(host, entries, r)
            <==> exists entry, e :: entry in entries && StandsFor(entry, e) && Covers(e, Lower(StripPort(host)), r)
  {
    hide EntryMatches, Covers, AnyMatches, Lower, StripPort, StripDot, StandsFor;
    var bare := Lower(StripPort(host));
    AnyMatchesExactly(bare, entries, r);
    forall entry, e | StandsFor(entry, e) ensures EntryMatches(bare, entry, r) <==> Covers(e, bare, r) {
      DotStripped(entry, e);
      CoversExactly(bare, entry, r);
    }
    if entry :| entry in entries && EntryMatches(bare, entry, r) {
      DotStripped(entry, StripDot(entry));
      assert StandsFor(entry, StripDot(entry));
    }
  }

  lemma CoversExactly(bare: string, entry: string, r: Readers)
    requires r.Valid()
    ensures EntryMatches(bare, entry, r) <==> Covers(StripDot(entry), bare, r)
  {
    hide CidrMatches, NameMatches, StripDot, Fits, AddressBit, IsNetwork, CidrOf;
    var e := StripDot(entry);
    forall net, prefix: nat ensures CidrOf(e, r) == Some((net, prefix)) <==> IsNetwork(e, r, net, prefix) {
      CidrExactly(e, r, net, prefix);
    }
    if r.address(bare).Some? && CidrOf(e, r).Some? {
      var (net, prefix) := CidrOf(e, r).value;
      NetworkFits(e, r);
      MatchesExactly(r.address(bare).value, net, prefix);
      assert IsNetwork(e, r, net, prefix);
    } else {
      NameMatchesExactly(bare, e);
    }
  }

  lemma NetworkFits(e: string, r: Readers)
    requires r.Valid() && CidrOf(e, r).Some?
    ensures Fits(CidrOf(e, r).value.0)
  {
    hide Fits;
  }

  // ---------------------------------------------------------------------
  // Upper and lower case
  // ---------------------------------------------------------------------

  /** The same text but for the case of ASCII letters. */
  predicate SameButCase(s: string, t: string) {
    && |s| == |t|
    && forall i :: 0 <= i < |s| ==>
         || s[i] == t[i]
         || ('A' <= s[i] <= 'Z' && t[i] as int == s[i] as int + 32)
         || ('A' <= t[i] <= 'Z' && s[i] as int == t[i] as int + 32)
  }

  /** Lowering tells apart exactly what differs in more than case, and leaves no capitals. */
  lemma LowerExactly(s: string, t: string)
    ensures Lower(s) == Lower(t) <==> SameButCase(s, t)
    ensures SameButCase(s, Lower(s)) && forall c :: c in Lower(s) ==> !('A' <= c <= 'Z')
  {
    if Lower(s) == Lower(t) {
      assert |Lower(s)| == |s| && |Lower(t)| == |t|;
      forall i | 0 <= i < |s| ensures LowerChar(s[i]) == LowerChar(t[i]) {
        assert Lower(s)[i] == Lower(t)[i];
      }
    }
  }

  lemma LowerAt(s: string, i: nat, j: nat)
    requires i <= j <= |s|
    ensures Lower(s[i..j]) == Lower(s)[i..j]
  {
  }

  lemma {:induction false} IndexIgnoresCase(s: string, c: char, n: nat)
    requires n <= |s| && !('A' <= c <= 'Z') && !('a' <= c <= 'z')
    ensures IndexFrom(Lower(s), c, n) == IndexFrom(s, c, n)
    decreases |s| - n
  {
    if n < |s| {
      assert Lower(s)[n] == c <==> s[n] == c;
      IndexIgnoresCase(s, c, n + 1);
    }
  }

  lemma DigitsIgnoreCase(s: string)
    ensures AllDigits(Lower(s)) == AllDigits(s)
  {
    if AllDigits(Lower(s)) {
      forall i | 0 <= i < |s| ensures '0' <= s[i] <= '9' {
        assert '0' <= Lower(s)[i] <= '9';
      }
    }
  }

  lemma StripAfterColonIgnoresCase(host: string)
    ensures StripAfterColon(Lower(host)) == Lower(StripAfterColon(host))
  {
    hide IndexFrom, AllDigits, Lower;
    LowerLength(host);
    IndexIgnoresCase(host, ':', 0);
    if IndexFrom(host, ':', 0).Some? {
      var i := IndexFrom(host, ':', 0).value;
      IndexIgnoresCase(host, ':', i + 1);
      LowerAt(host, i + 1, |host|);
      LowerAt(host, 0, i);
      DigitsIgnoreCase(host[i + 1..]);
      assert Lower(host)[i + 1..] == Lower(host)[i + 1..|host|] && host[i + 1..] == host[i + 1..|host|];
    }
  }

  lemma LowerLength(s: string)
    ensures |Lower(s)| == |s|
    ensures s != "" ==> (Lower(s)[0] == '[' <==> s[0] == '[')
  {
  }

  /** Stripping the port and lowering the case can be swapped. */
  lemma StripPortIgnoresCase(host: string)
    ensures StripPort(Lower(host)) == Lower(StripPort(host))
  {
    hide IndexFrom, StripAfterColon, Lower;
    LowerLength(host);
    StripAfterColonIgnoresCase(host);
    if host != "" && host[0] == '[' {
      var inner := host[1..];
      LowerAt(host, 1, |host|);
      assert Lower(host)[1..] == Lower(host)[1..|host|] && inner == host[1..|host|];
      IndexIgnoresCase(inner, ']', 0);
      if IndexFrom(inner, ']', 0).Some? {
        LowerAt(inner, 0, IndexFrom(inner, ']', 0).value);
      }
    }
  }

  /** One leading dot of an entry and the case of the host do not matter. */
  lemma DotAndCaseIgnored(host: string, other: string, entry: string, r: Readers)
    requires entry == "" || entry[0] != '.'
    requires SameButCase(host, other)
    ensures Bypasses(host, ["." + entry], r) == Bypasses(other, [entry], r)
  {
    hide Lower, StripPort, EntryMatches, SameButCase;
    LowerExactly(host, other);
    StripPortIgnoresCase(host);
    StripPortIgnoresCase(other);
    DotIgnored(Lower(StripPort(host)), entry, r);
    assert ["." + entry][1..] == [] && [entry][1..] == [];
  }

  lemma DotIgnored(bare: string, entry: string, r: Readers)
    requires entry == "" || entry[0] != '.'
    ensures EntryMatches(bare, "." + entry, r) == EntryMatches(bare, entry, r)
  {
    assert StripDot("." + entry) == entry == StripDot(entry);
  }
}
