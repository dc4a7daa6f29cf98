/** Splitting a service's command text into words (crates/vigild/src/process_util/parse.rs). */
module CommandLine {
  import opened Prelude

  datatype CommandError = UnterminatedQuote | UnmatchedBracket | MalformedDefaults

  type Words = Result<seq<string>, CommandError>

  // ---------------------------------------------------------------------
  // Quoting
  // ---------------------------------------------------------------------

  /** Where in a quoted text we are. */
  datatype Quoting = Quoting(single: bool, double: bool, escaped: bool) {
    predicate Outside() {
      !single && !double
    }
  }

  const PLAIN := Quoting(false, false, false)

  function Next(q: Quoting, c: char): Quoting {
    if q.escaped then q.(escaped := false)
    else if c == '\\' && !q.single then q.(escaped := true)
    else if c == '\'' && !q.double then q.(single := !q.single)
    else if c == '"' && !q.single then q.(double := !q.double)
    else q
  }

  /** The quoting after a text. */
  function Scan(q: Quoting, s: string): Quoting {
    if s == [] then q else Next(Scan(q, s[..|s| - 1]), s[|s| - 1])
  }

  predicate IsMark(c: char) {
    c == '\\' || c == '\'' || c == '"'
  }

  predicate IsBlank(c: char) {
    c == ' ' || c == '\t' || c == '\n' || c == '\r'
  }

  /** `c` is taken as it is: escaped, quoted, or not a mark of its own. */
  predicate IsLiteral(q: Quoting, c: char) {
    Next(q, c) == q || q.escaped
  }

  /** `needle` begins at `i`, outside quotes. */
  predicate BeginsAt(s: string, needle: string, i: nat) {
    && i < |s|
    && Scan(PLAIN, s[..i]) == PLAIN && !IsMark(s[i])
    && needle <= s[i..]
  }

  // ---------------------------------------------------------------------
  // Words
  // ---------------------------------------------------------------------

  datatype Splitter = Splitter(q: Quoting, current: string, words: seq<string>)

  const FRESH := Splitter(PLAIN, "", [])

  function EndWord(l: Splitter): Splitter {
    if l.current == "" then l else l.(current := "", words := l.words + [l.current])
  }

  function Feed(l: Splitter, c: char): Splitter {
    if IsLiteral(l.q, c) && !(IsBlank(c) && l.q == PLAIN) then l.(q := Next(l.q, c), current := l.current + [c])
    else if IsLiteral(l.q, c) then EndWord(l)
    else l.(q := Next(l.q, c))
  }

  function FeedAll(l: Splitter, s: string): Splitter {
    if s == [] then l else Feed(FeedAll(l, s[..|s| - 1]), s[|s| - 1])
  }

  function Finish(l: Splitter): Words {
    if !l.q.Outside() then Err(UnterminatedQuote) else Ok(EndWord(l).words)
  }

  function Split(s: string): Words {
    Finish(FeedAll(FRESH, s))
  }

  // ---------------------------------------------------------------------
  // Library calls
  // ---------------------------------------------------------------------

  /** Unicode white space. */
  predicate IsSpace(c: char) {
    var n := c as int;
    || 9 <= n <= 13 || n == 32 || n == 0x85 || n == 0xA0 || n == 0x1680 || 0x2000 <= n <= 0x200A
    || n == 0x2028 || n == 0x2029 || n == 0x202F || n == 0x205F || n == 0x3000
  }

  function TrimStart(s: string): string {
    if s == [] || !IsSpace(s[0]) then s else TrimStart(s[1..])
  }

  function TrimEnd(s: string): string {
    if s == [] || !IsSpace(s[|s| - 1]) then s else TrimEnd(s[..|s| - 1])
  }

  function Trim(s: string): string {
    TrimEnd(TrimStart(s))
  }

  /** The last place at which `needle` begins. */
  function LastIndex(s: string, needle: string): (r: Option<nat>)
    ensures r.Some? ==> r.value <= |s| && needle <= s[r.value..]
    ensures r.Some? ==> forall j :: r.value < j <= |s| ==> !(needle <= s[j..])
    ensures r.None? ==> forall j :: 0 <= j <= |s| ==> !(needle <= s[j..])
  {
    LastIndexUpTo(s, needle, |s|)
  }

  function LastIndexUpTo(s: string, needle: string, n: nat): (r: Option<nat>)
    requires n <= |s|
    ensures r.Some? ==> r.value <= n && needle <= s[r.value..]
    ensures r.Some? ==> forall j :: r.value < j <= n ==> !(needle <= s[j..])
    ensures r.None? ==> forall j :: 0 <= j <= n ==> !(needle <= s[j..])
  {
    if needle <= s[n..] then Some(n) else if n == 0 then None else LastIndexUpTo(s, needle, n - 1)
  }

  // ---------------------------------------------------------------------
  // The command
  // ---------------------------------------------------------------------

  /** The first place outside quotes where `needle` begins. */
  predicate IsFirst(s: string, needle: string, r: Option<nat>) {
    match r
    case Some(i) => BeginsAt(s, needle, i) && forall j :: 0 <= j < i ==> !BeginsAt(s, needle, j)
    case None => forall j :: 0 <= j < |s| ==> !BeginsAt(s, needle, j)
  }

  function First(s: string, needle: string): (r: Option<nat>)
    ensures IsFirst(s, needle, r)
  {
    FirstFrom(s, needle, 0)
  }

  function FirstFrom(s: string, needle: string, n: nat): (r: Option<nat>)
    requires n <= |s|
    requires forall j :: 0 <= j < n ==> !BeginsAt(s, needle, j)
    ensures IsFirst(s, needle, r)
    decreases |s| - n
  {
    if n == |s| then None else if BeginsAt(s, needle, n) then Some(n) else FirstFrom(s, needle, n + 1)
  }

  lemma FirstIsUnique(s: string, needle: string, r: Option<nat>)
    requires IsFirst(s, needle, r)
    ensures r == First(s, needle)
  {
    hide BeginsAt;
    var f := First(s, needle);
    if r.Some? {
      InRange(s, needle, r.value);
    }
    if f.Some? {
      InRange(s, needle, f.value);
    }
  }

  lemma InRange(s: string, needle: string, i: nat)
    requires BeginsAt(s, needle, i)
    ensures i < |s| && i + |needle| <= |s|
  {
    assert |s[i..]| >= |needle|;
  }

  /** The words of a command whose default arguments open at `open`. */
  function WithDefaults(s: string, open: nat): Words
    requires open + 3 <= |s|
  {
    match LastIndex(s, " ]")
    case None => Err(UnmatchedBracket)
    case Some(close) =>
      if close < open then Err(MalformedDefaults)
      else
        match Split(s[..open]) {
          case Err(e) => Err(e)
          case Ok(base) =>
            match Split(if open + 3 <= close then s[open + 3..close] else "") {
              case Err(e) => Err(e)
              case Ok(defaults) => Ok(base + defaults)
            }
        }
  }

  /** The words of a command text. */
  function Command(text: string): Words {
    var s := Trim(text);
    match First(s, " [ ")
    case None => Split(s)
    case Some(open) =>
      InRange(s, " [ ", open);
      WithDefaults(s, open)
  }

  lemma ScanStep(q: Quoting, s: string, i: nat)
    requires i < |s|
    ensures Scan(q, s[..i + 1]) == Next(Scan(q, s[..i]), s[i])
  {
    assert s[..i + 1][..i] == s[..i];
  }

  lemma FeedStep(l: Splitter, s: string, i: nat)
    requires i < |s|
    ensures FeedAll(l, s[..i + 1]) == Feed(FeedAll(l, s[..i]), s[i])
  {
    assert s[..i + 1][..i] == s[..i];
  }

  method FindUnquoted(s: string, needle: string) returns (r: Option<nat>)
    ensures r == First(s, needle)
  {
    hide Scan, First;
    var inSingle, inDouble, escaped := false, false, false;
    var i := 0;
    ScanNothing(s);
    while i < |s|
      invariant 0 <= i <= |s|
      invariant Scan(PLAIN, s[..i]) == Quoting(inSingle, inDouble, escaped)
      invariant forall j :: 0 <= j < i ==> !BeginsAt(s, needle, j)
    {
      ScanStep(PLAIN, s, i);
      var c := s[i];
      if escaped {
        escaped := false;
      } else if c == '\\' && !inSingle {
        escaped := true;
      } else if c == '\'' && !inDouble {
        inSingle := !inSingle;
      } else if c == '"' && !inSingle {
        inDouble := !inDouble;
      } else if !inSingle && !inDouble && needle <= s[i..] {
        FirstIsUnique(s, needle, Some(i));
        return Some(i);
      }
      i := i + 1;
    }
    FirstIsUnique(s, needle, None);
    return None;
  }

  lemma ScanNothing(s: string)
    ensures Scan(PLAIN, s[..0]) == PLAIN && FeedAll(FRESH, s[..0]) == FRESH
  {
  }

  method ShellWords(s: string) returns (r: Words)
    ensures r == Split(s)
  {
    hide FeedAll;
    var words: seq<string>, current: string := [], "";
    var inSingle, inDouble, escaped := false, false, false;
    ScanNothing(s);
    for i := 0 to |s|
      invariant FeedAll(FRESH, s[..i]) == Splitter(Quoting(inSingle, inDouble, escaped), current, words)
    {
      FeedStep(FRESH, s, i);
      var c := s[i];
      if escaped {
        current := current + [c];
        escaped := false;
      } else if c == '\\' && !inSingle {
        escaped := true;
      } else if c == '\'' && !inDouble {
        inSingle := !inSingle;
      } else if c == '"' && !inSingle {
        inDouble := !inDouble;
      } else if IsBlank(c) && !inSingle && !inDouble {
        if current != "" {
          words := words + [current];
          current := "";
        }
      } else {
        current := current + [c];
      }
    }
    assert s[..|s|] == s;
    if inSingle || inDouble {
      return Err(UnterminatedQuote);
    }
    if current != "" {
      words := words + [current];
    }
    r := Ok(words);
  }

  method ParseCommand(text: string) returns (r: Words)
    ensures r == Command(text)
  {
    hide Scan, Split, Trim, LastIndex;
    var s := Trim(text);
    var found := FindUnquoted(s, " [ ");
    if found == None {
      r := ShellWords(s);
      return;
    }
    var open := found.value;
    InRange(s, " [ ", open);
    var close := LastIndex(s, " ]");
    if close == None {
      return Err(UnmatchedBracket);
    }
    if close.value < open {
      return Err(MalformedDefaults);
    }
    var defaults := if open + 3 <= close.value then s[open + 3..close.value] else "";
    var args := ShellWords(s[..open]);
    if args.Err? {
      return args;
    }
    var more := ShellWords(defaults);
    if more.Err? {
      return more;
    }
    r := Ok(args.value + more.value);
  }
}
