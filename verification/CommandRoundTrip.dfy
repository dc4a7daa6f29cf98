/** What command texts mean: bases are never cut inside a quote, and printed commands read back as their words. */
module CommandRoundTrip {
  import opened Prelude
  import opened CommandLine

  // ---------------------------------------------------------------------
  // One scan and the other
  // ---------------------------------------------------------------------

  /** Looking for a bracket and splitting into words keep the same account of quotes. */
  lemma {:induction false} InLockstep(l: Splitter, s: string)
    ensures FeedAll(l, s).q == Scan(l.q, s)
    decreases |s|
  {
    if s != [] {
      InLockstep(l, s[..|s| - 1]);
    }
  }

  /** The text before the opening bracket never ends inside a quote. */
  lemma BaseIsTerminated(s: string, open: nat)
    requires First(s, " [ ") == Some(open)
    ensures Split(s[..open]).Ok?
  {
    InLockstep(FRESH, s[..open]);
  }

  /**
    A command is refused exactly for a quote left open or for a bracket that closes before it opens or never, and that
    is what it is told.
    */
  lemma RefusedExactly(text: string)
    ensures var s := Trim(text);
            match First(s, " [ ")
            case None => Command(text) == Err(UnterminatedQuote) <==> !Scan(PLAIN, s).Outside()
            case Some(open) =>
              match LastIndex(s, " ]")
              case None => Command(text) == Err(UnmatchedBracket)
              case Some(close) =>
                if close < open then Command(text) == Err(MalformedDefaults)
                else Command(text) == Err(UnterminatedQuote)
                     <==> open + 3 <= close && !Scan(PLAIN, s[open + 3..close]).Outside()
    ensures Command(text) == Err(UnmatchedBracket) <==>
              First(Trim(text), " [ ").Some? && LastIndex(Trim(text), " ]").None?
    ensures Command(text) == Err(MalformedDefaults) <==>
              var s := Trim(text);
              && First(s, " [ ").Some? && LastIndex(s, " ]").Some?
              && LastIndex(s, " ]").value < First(s, " [ ").value
  {
    hide FeedAll, Scan, Trim, First, LastIndex, EndWord;
    var s := Trim(text);
    match First(s, " [ ")
    case None => InLockstep(FRESH, s);
    case Some(open) =>
      InRange(s, " [ ", open);
      BaseIsTerminated(s, open);
      InLockstep(FRESH, "");
      NothingScanned();
      if LastIndex(s, " ]").Some? && open + 3 <= LastIndex(s, " ]").value {
        InLockstep(FRESH, s[open + 3..LastIndex(s, " ]").value]);
      }
  }

  lemma NothingScanned()
    ensures Scan(PLAIN, "") == PLAIN
  {
  }

  // ---------------------------------------------------------------------
  // A printer with single quotes
  // ---------------------------------------------------------------------

  /** A quote inside single quotes: close, escape, open. */
  function Inside(w: string): string {
    if w == [] then ""
    else Inside(w[..|w| - 1]) + if w[|w| - 1] == '\'' then "'\\''" else [w[|w| - 1]]
  }

  function Quoted(w: string): string {
    "'" + Inside(w) + "'"
  }

  function Print(words: seq<string>): string {
    if words == [] then ""
    else if |words| == 1 then Quoted(words[0])
    else Print(words[..|words| - 1]) + " " + Quoted(words[|words| - 1])
  }

  function NonEmpty(words: seq<string>): seq<string> {
    Filter(words, (w: string) => w != "")
  }

  lemma {:induction false} FeedConcat(l: Splitter, a: string, b: string)
    ensures FeedAll(l, a + b) == FeedAll(FeedAll(l, a), b)
    decreases |b|
  {
    if b == [] {
      assert a + b == a;
    } else {
      assert (a + b)[..|a + b| - 1] == a + b[..|b| - 1];
      FeedConcat(l, a, b[..|b| - 1]);
    }
  }

  lemma FeedOne(l: Splitter, c: char)
    ensures FeedAll(l, [c]) == Feed(l, c)
  {
    assert [c][..0] == [];
  }

  const QUOTED := Quoting(true, false, false)

  lemma FeedFour(l: Splitter)
    requires l.q == QUOTED
    ensures FeedAll(l, "'\\''") == l.(current := l.current + "'")
  {
    assert "'\\''" == ((['\''] + ['\\']) + ['\'']) + ['\''];
    FeedConcat(l, (['\''] + ['\\']) + ['\''], ['\'']);
    FeedConcat(l, ['\''] + ['\\'], ['\'']);
    FeedConcat(l, ['\''], ['\\']);
    FeedOne(l, '\'');
    FeedOne(FeedAll(l, ['\'']), '\\');
    FeedOne(FeedAll(l, ['\''] + ['\\']), '\'');
    FeedOne(FeedAll(l, (['\''] + ['\\']) + ['\'']), '\'');
  }

  lemma {:induction false} FeedInside(l: Splitter, w: string)
    requires l.q == QUOTED
    ensures FeedAll(l, Inside(w)) == l.(current := l.current + w)
    decreases |w|
  {
    hide FeedAll, Inside;
    InsideStep(w);
    if w == [] {
      FeedNothing(l);
      assert l.current + w == l.current;
    } else {
      var front, c := w[..|w| - 1], w[|w| - 1];
      FeedInside(l, front);
      assert w == front + [c];
      var m := l.(current := l.current + front);
      assert m.current + [c] == l.current + w;
      FeedConcat(l, Inside(front), if c == '\'' then "'\\''" else [c]);
      if c == '\'' {
        FeedFour(m);
      } else {
        FeedOne(m, c);
      }
    }
  }

  lemma InsideStep(w: string)
    ensures w == [] ==> Inside(w) == ""
    ensures w != [] ==> Inside(w) == Inside(w[..|w| - 1]) + if w[|w| - 1] == '\'' then "'\\''" else [w[|w| - 1]]
  {
  }

  lemma FeedNothing(l: Splitter)
    ensures FeedAll(l, "") == l
  {
  }

  lemma FeedQuoted(l: Splitter, w: string)
    requires l.q == PLAIN
    ensures FeedAll(l, Quoted(w)) == l.(current := l.current + w)
  {
    hide FeedAll, Inside;
    var within := l.(q := QUOTED);
    FeedOne(l, '\'');
    FeedInside(within, w);
    FeedConcat(l, ['\''], Inside(w));
    FeedConcat(l, ['\''] + Inside(w), ['\'']);
    FeedOne(within.(current := l.current + w), '\'');
    assert Quoted(w) == (['\''] + Inside(w)) + ['\''];
  }

  /** After a printed list the last word is still being read. */
  lemma {:induction false} FeedPrinted(l: Splitter, words: seq<string>)
    requires l.q == PLAIN && l.current == "" && words != []
    ensures FeedAll(l, Print(words))
            == Splitter(PLAIN, words[|words| - 1], l.words + NonEmpty(words[..|words| - 1]))
    decreases |words|
  {
    hide FeedAll, Quoted, Filter;
    var front, last := words[..|words| - 1], words[|words| - 1];
    assert "" + last == last;
    if |words| == 1 {
      FeedQuoted(l, last);
      NoWords();
      assert front == [];
      assert l.words + [] == l.words;
    } else {
      FeedPrinted(l, front);
      var m := FeedAll(l, Print(front));
      FeedConcat(l, Print(front), " ");
      FeedOne(m, ' ');
      FeedConcat(l, Print(front) + " ", Quoted(last));
      FeedQuoted(EndWord(m), last);
      WordEnded(l.words, front);
    }
  }

  /** Ending the word being read completes the list. */
  lemma WordEnded(before: seq<string>, words: seq<string>)
    requires words != []
    ensures EndWord(Splitter(PLAIN, words[|words| - 1], before + NonEmpty(words[..|words| - 1])))
            == Splitter(PLAIN, "", before + NonEmpty(words))
  {
    hide Filter;
    var front, last := words[..|words| - 1], words[|words| - 1];
    assert words == front + [last];
    NonEmptyStep(front, last);
    assert NonEmpty(front) + [] == NonEmpty(front);
    assert before + (NonEmpty(front) + [last]) == (before + NonEmpty(front)) + [last];
  }

  lemma NoWords()
    ensures NonEmpty([]) == []
  {
  }

  lemma NonEmptyStep(words: seq<string>, w: string)
    ensures NonEmpty(words + [w]) == NonEmpty(words) + if w != "" then [w] else []
  {
    FilterStep(words, w, (x: string) => x != "");
  }

  /** A printed list of words is split back into its words; empty words are lost. */
  lemma SplitPrinted(words: seq<string>)
    ensures Split(Print(words)) == Ok(NonEmpty(words))
  {
    hide FeedAll, Filter;
    if words == [] {
      FeedNothing(FRESH);
      NoWords();
    } else {
      FeedPrinted(FRESH, words);
      WordEnded([], words);
      assert [] + NonEmpty(words) == NonEmpty(words);
    }
  }

  // ---------------------------------------------------------------------
  // Nothing in a printed list looks like an opening bracket
  // ---------------------------------------------------------------------

  lemma {:induction false} ScanConcat(q: Quoting, a: string, b: string)
    ensures Scan(q, a + b) == Scan(Scan(q, a), b)
    decreases |b|
  {
    if b == [] {
      assert a + b == a;
    } else {
      assert (a + b)[..|a + b| - 1] == a + b[..|b| - 1];
      ScanConcat(q, a, b[..|b| - 1]);
    }
  }

  /** No place in `s`, read from `q` on, is outside quotes and not a mark, except blanks before a mark. */
  ghost predicate Guarded(q: Quoting, s: string) {
    forall i :: 0 <= i < |s| && Scan(q, s[..i]) == PLAIN && !IsMark(s[i]) ==>
      s[i] == ' ' && i + 1 < |s| && s[i + 1] == '\''
  }

  lemma GuardedConcat(q: Quoting, a: string, b: string)
    requires Guarded(q, a) && Guarded(Scan(q, a), b)
    ensures Guarded(q, a + b)
  {
    hide Scan;
    var s := a + b;
    forall i | 0 <= i < |s| && Scan(q, s[..i]) == PLAIN && !IsMark(s[i])
      ensures s[i] == ' ' && i + 1 < |s| && s[i + 1] == '\''
    {
      if i < |a| {
        assert s[..i] == a[..i];
      } else {
        assert s[..i] == a + b[..i - |a|];
        ScanConcat(q, a, b[..i - |a|]);
        assert s[i] == b[i - |a|];
      }
    }
  }

  lemma ScanOne(q: Quoting, c: char)
    ensures Scan(q, [c]) == Next(q, c) && Scan(q, "") == q
  {
    assert [c][..0] == [];
  }

  lemma GuardedOne(q: Quoting, c: char)
    requires q != PLAIN || IsMark(c)
    ensures Guarded(q, [c])
  {
    hide Scan;
    ScanOne(q, c);
    forall i | 0 <= i < 1 ensures [c][..i] == "" {
    }
  }

  lemma GuardedEscape()
    ensures Guarded(QUOTED, "'\\''") && Scan(QUOTED, "'\\''") == QUOTED
  {
    hide Scan, Guarded;
    var escaped := PLAIN.(escaped := true);
    ScanOne(QUOTED, '\'');
    ScanOne(PLAIN, '\\');
    ScanOne(escaped, '\'');
    ScanOne(PLAIN, '\'');
    GuardedOne(QUOTED, '\'');
    GuardedOne(PLAIN, '\\');
    GuardedOne(escaped, '\'');
    GuardedOne(PLAIN, '\'');
    ScanConcat(QUOTED, ['\''], ['\\']);
    GuardedConcat(QUOTED, ['\''], ['\\']);
    ScanConcat(QUOTED, ['\''] + ['\\'], ['\'']);
    GuardedConcat(QUOTED, ['\''] + ['\\'], ['\'']);
    ScanConcat(QUOTED, (['\''] + ['\\']) + ['\''], ['\'']);
    GuardedConcat(QUOTED, (['\''] + ['\\']) + ['\''], ['\'']);
    assert "'\\''" == ((['\''] + ['\\']) + ['\'']) + ['\''];
  }

  lemma {:induction false} GuardedInside(w: string)
    ensures Guarded(QUOTED, Inside(w)) && Scan(QUOTED, Inside(w)) == QUOTED
    decreases |w|
  {
    hide Scan, Guarded, Inside;
    InsideStep(w);
    if w == [] {
      ScanOne(QUOTED, 'x');
      GuardedNothing(QUOTED);
    } else {
      var front, c := w[..|w| - 1], w[|w| - 1];
      GuardedInside(front);
      var tail := if c == '\'' then "'\\''" else [c];
      if c == '\'' {
        GuardedEscape();
      } else {
        GuardedOne(QUOTED, c);
        ScanOne(QUOTED, c);
      }
      ScanConcat(QUOTED, Inside(front), tail);
      GuardedConcat(QUOTED, Inside(front), tail);
    }
  }

  lemma GuardedNothing(q: Quoting)
    ensures Guarded(q, "")
  {
  }

  lemma GuardedQuoted(w: string)
    ensures Guarded(PLAIN, Quoted(w)) && Scan(PLAIN, Quoted(w)) == PLAIN
    ensures |Quoted(w)| >= 2 && Quoted(w)[0] == '\'' && Quoted(w)[|Quoted(w)| - 1] == '\''
  {
    hide Scan, Guarded, Inside;
    GuardedInside(w);
    ScanOne(PLAIN, '\'');
    GuardedOne(PLAIN, '\'');
    ScanConcat(PLAIN, ['\''], Inside(w));
    GuardedConcat(PLAIN, ['\''], Inside(w));
    ScanOne(QUOTED, '\'');
    GuardedOne(QUOTED, '\'');
    ScanConcat(PLAIN, ['\''] + Inside(w), ['\'']);
    GuardedConcat(PLAIN, ['\''] + Inside(w), ['\'']);
    assert Quoted(w) == (['\''] + Inside(w)) + ['\''];
  }

  lemma GuardedBlank(s: string)
    requires Guarded(PLAIN, s) && s != [] && s[0] == '\''
    ensures Guarded(PLAIN, " " + s) && Scan(PLAIN, " " + s) == Scan(PLAIN, s)
  {
    hide Scan;
    ScanOne(PLAIN, ' ');
    ScanConcat(PLAIN, " ", s);
    var t := " " + s;
    forall i | 0 <= i < |t| && Scan(PLAIN, t[..i]) == PLAIN && !IsMark(t[i])
      ensures t[i] == ' ' && i + 1 < |t| && t[i + 1] == '\''
    {
      if i > 0 {
        assert t[..i] == " " + s[..i - 1];
        ScanConcat(PLAIN, " ", s[..i - 1]);
        assert t[i] == s[i - 1];
      }
    }
  }

  lemma {:induction false} GuardedPrint(words: seq<string>)
    requires words != []
    ensures Guarded(PLAIN, Print(words)) && Scan(PLAIN, Print(words)) == PLAIN
    ensures var s := Print(words); |s| >= 2 && s[0] == '\'' && s[|s| - 1] == '\''
    decreases |words|
  {
    hide Scan, Guarded, Quoted;
    var front, last := words[..|words| - 1], words[|words| - 1];
    GuardedQuoted(last);
    if |words| > 1 {
      GuardedPrint(front);
      GuardedBlank(Quoted(last));
      ScanConcat(PLAIN, Print(front), " " + Quoted(last));
      GuardedConcat(PLAIN, Print(front), " " + Quoted(last));
      assert Print(words) == Print(front) + (" " + Quoted(last));
    }
  }

  lemma NoBracketInside(s: string, rest: string, i: nat)
    requires Guarded(PLAIN, s) && i < |s|
    ensures !BeginsAt(s + rest, " [ ", i)
  {
    hide Scan;
    var t := s + rest;
    assert t[..i] == s[..i] && t[i] == s[i];
    if Scan(PLAIN, s[..i]) == PLAIN && !IsMark(s[i]) {
      assert t[i + 1] == s[i + 1] == '\'';
      NoBracketBefore(t, i);
    }
  }

  lemma NoBracketBefore(t: string, i: nat)
    requires i + 1 < |t| && t[i + 1] != '['
    ensures !(" [ " <= t[i..])
  {
    assert t[i..][1] == t[i + 1];
    assert " [ "[1] == '[';
  }

  // ---------------------------------------------------------------------
  // Round trips
  // ---------------------------------------------------------------------

  lemma NothingToTrim(s: string)
    requires s != [] && !IsSpace(s[0]) && !IsSpace(s[|s| - 1])
    ensures Trim(s) == s
  {
  }

  /** A printed command without default arguments reads back as its words. */
  lemma PlainCommandReadsBack(base: seq<string>)
    ensures Command(Print(base)) == Ok(NonEmpty(base))
  {
    hide Scan, Guarded, Split, First;
    var s := Print(base);
    SplitPrinted(base);
    if base == [] {
      assert Trim(s) == "";
      FirstIsUnique("", " [ ", None);
    } else {
      GuardedPrint(base);
      NothingToTrim(s);
      assert s + "" == s;
      forall i | 0 <= i < |s| ensures !BeginsAt(s, " [ ", i) {
        NoBracketInside(s, "", i);
      }
      FirstIsUnique(s, " [ ", None);
    }
  }

  function Bracketed(base: seq<string>, defaults: seq<string>): string {
    Print(base) + " [ " + Print(defaults) + " ]"
  }

  /** In a printed command the bracket opens right after the base and closes at the very end. */
  lemma BracketsFound(base: seq<string>, defaults: seq<string>)
    requires base != []
    ensures var s, open := Bracketed(base, defaults), |Print(base)|;
            && Trim(s) == s && First(s, " [ ") == Some(open) && LastIndex(s, " ]") == Some(|s| - 2)
            && s[..open] == Print(base) && open + 3 <= |s| - 2 && s[open + 3..|s| - 2] == Print(defaults)
  {
    hide Scan, Guarded, First, LastIndex, Print, Trim;
    var s, open := Bracketed(base, defaults), |Print(base)|;
    var rest := " [ " + Print(defaults) + " ]";
    assert s == Print(base) + rest;
    GuardedPrint(base);
    assert s[0] == '\'' && s[|s| - 1] == ']';
    NothingToTrim(s);
    OpensAfter(Print(base), rest);
    ClosesAtEnd(Print(base) + " [ " + Print(defaults));
  }

  lemma OpensAfter(p: string, rest: string)
    requires Guarded(PLAIN, p) && Scan(PLAIN, p) == PLAIN && " [ " <= rest
    ensures First(p + rest, " [ ") == Some(|p|)
  {
    hide Scan, Guarded, First;
    var s := p + rest;
    forall i | 0 <= i < |p| ensures !BeginsAt(s, " [ ", i) {
      NoBracketInside(p, rest, i);
    }
    assert s[..|p|] == p && s[|p|..] == rest && s[|p|] == rest[0] == " [ "[0];
    FirstIsUnique(s, " [ ", Some(|p|));
  }

  lemma ClosesAtEnd(front: string)
    ensures LastIndex(front + " ]", " ]") == Some(|front|)
  {
    var s := front + " ]";
    assert s[|front|..] == " ]";
    var last := LastIndex(s, " ]");
    assert last.Some? && |s[last.value..]| >= 2;
  }

  /** With nothing before it, the opening bracket is a word like any other. */
  lemma BareBracket(defaults: seq<string>)
    ensures Command(Bracketed([], defaults)) == Ok(["["] + NonEmpty(defaults) + ["]"])
  {
    hide Split, First, Print, Filter, BeginsAt;
    var s := "[ " + Print(defaults) + " ]";
    PrintNothing();
    assert Bracketed([], defaults) == " " + s;
    TrimBlank(s);
    forall i | 0 <= i < |s| ensures !BeginsAt(s, " [ ", i) {
      NoBracketAfterBare(defaults, i);
    }
    FirstIsUnique(s, " [ ", None);
    SplitBare(defaults);
  }

  lemma TrimBlank(s: string)
    requires s != [] && !IsSpace(s[0]) && !IsSpace(s[|s| - 1])
    ensures Trim(" " + s) == s
  {
    assert (" " + s)[1..] == s;
    NothingToTrim(s);
    assert TrimStart(" " + s) == TrimStart(s);
  }

  lemma NoBracketAfterBare(defaults: seq<string>, i: nat)
    ensures !BeginsAt("[ " + Print(defaults) + " ]", " [ ", i)
  {
    hide Scan, Print, Guarded;
    var p := Print(defaults);
    var s := "[ " + p + " ]";
    PrintStarts(defaults);
    assert s[0] == '[' && s[2] == (if p == "" then ' ' else p[0]);
    assert s[|p| + 3] == ']';
    if i < |s| && s[i] != ' ' {
      assert " [ "[0] == ' ';
      assert s[i..][0] == s[i];
    } else if i + 1 < |s| && s[i + 1] != '[' {
      NoBracketBefore(s, i);
    } else if i + 3 <= |s| {
      ScanOne(PLAIN, '[');
      ScanOne(PLAIN, ' ');
      ScanConcat(PLAIN, "[", " ");
      assert "[" + " " == "[ ";
      var k := i - 2;
      assert s[i] == p[k] && s[..i] == "[ " + p[..k];
      ScanConcat(PLAIN, "[ ", p[..k]);
      assert Guarded(PLAIN, p);
      GuardedAt(p, k);
      assert k + 1 < |p| ==> s[i + 1] == p[k + 1];
    } else {
      assert i <= |s| ==> |s[i..]| < 3;
    }
  }

  lemma PrintNothing()
    ensures Print([]) == ""
  {
  }

  lemma PrintStarts(words: seq<string>)
    ensures Guarded(PLAIN, Print(words)) && (Print(words) != "" ==> Print(words)[0] == '\'')
  {
    hide Scan, Print, Guarded;
    if words == [] {
      PrintNothing();
      GuardedNothing(PLAIN);
    } else {
      GuardedPrint(words);
    }
  }

  lemma GuardedAt(s: string, k: nat)
    requires Guarded(PLAIN, s) && k < |s| && !IsMark(s[k])
    ensures Scan(PLAIN, s[..k]) == PLAIN ==> k + 1 < |s| && s[k + 1] == '\''
  {
    hide Scan;
  }

  lemma SplitBare(defaults: seq<string>)
    ensures Split("[ " + Print(defaults) + " ]") == Ok(["["] + NonEmpty(defaults) + ["]"])
  {
    hide FeedAll, Print, Filter;
    var p := Print(defaults);
    FeedConcat(FRESH, "[", " ");
    FeedOne(FRESH, '[');
    FeedOne(FRESH.(current := "["), ' ');
    assert "[" + " " == "[ " && "" + ['['] == "[" && FRESH.words + ["["] == ["["];
    var l := Splitter(PLAIN, "", ["["]);
    FeedConcat(FRESH, "[ ", p);
    FeedConcat(FRESH, "[ " + p, " ");
    FeedConcat(FRESH, "[ " + p + " ", "]");
    assert "[ " + p + " ]" == ("[ " + p + " ") + "]";
    PrintedThenBlank(l, defaults);
    var done := Splitter(PLAIN, "", ["["] + NonEmpty(defaults));
    FeedOne(FeedAll(l, p), ' ');
    FeedOne(done, ']');
    assert "" + [']'] == "]";
  }

  lemma PrintedThenBlank(l: Splitter, words: seq<string>)
    requires l.q == PLAIN && l.current == ""
    ensures Feed(FeedAll(l, Print(words)), ' ') == Splitter(PLAIN, "", l.words + NonEmpty(words))
  {
    hide FeedAll, Filter;
    if words == [] {
      FeedNothing(l);
      NoWords();
      assert l.words + [] == l.words;
    } else {
      FeedPrinted(l, words);
      WordEnded(l.words, words);
    }
  }

  /**
    A printed command with default arguments reads back as its words followed by the default ones exactly if there
    are words before the bracket.
    */
  lemma CommandReadsBackExactly(base: seq<string>, defaults: seq<string>)
    ensures Command(Bracketed(base, defaults)) == Ok(NonEmpty(base) + NonEmpty(defaults)) <==> base != []
  {
    hide Split, First, LastIndex, Print, Trim, Filter, Command, Bracketed;
    if base == [] {
      BareBracket(defaults);
      NoWords();
      assert NonEmpty(base) == [];
      assert |["["] + NonEmpty(defaults) + ["]"]| != |NonEmpty(base) + NonEmpty(defaults)|;
    } else {
      BracketedReadsBack(base, defaults);
    }
  }

  lemma BracketedReadsBack(base: seq<string>, defaults: seq<string>)
    requires base != []
    ensures Command(Bracketed(base, defaults)) == Ok(NonEmpty(base) + NonEmpty(defaults))
  {
    hide Split, First, LastIndex, Print, Trim, Filter;
    BracketsFound(base, defaults);
    SplitPrinted(base);
    SplitPrinted(defaults);
  }
}
