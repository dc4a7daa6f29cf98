/**
  Every way to write a word, in single or double quotes, bare, escaped or mixed, and what a command written so reads as.
  */
module CommandQuoting {
  import opened Prelude
  import opened CommandLine
  import opened CommandRoundTrip

  // ---------------------------------------------------------------------
  // Written words
  // ---------------------------------------------------------------------

  /** A character with or without a backslash before it. */
  datatype Letter = Letter(c: char, escaped: bool) {
    function Written(): string {
      if escaped then ['\\'] + [c] else [c]
    }
  }

  /** A part of a word: in single quotes, in double quotes, or one bare character. */
  datatype Piece = Single(text: string) | Double(letters: seq<Letter>) | Bare(letter: Letter) {
    /** Single quotes end at the next one; in double quotes a double quote and a backslash need a backslash. */
    predicate Valid() {
      match this
      case Single(text) => '\'' !in text
      case Double(letters) => forall x :: x in letters ==> x.escaped || (x.c != '"' && x.c != '\\')
      case Bare(x) =>
        x.escaped || (x.c != '\\' && x.c != '\'' && x.c != '"' && x.c != ' ' && x.c != '\t' && x.c != '\n'
                      && x.c != '\r')
    }

    function Written(): (s: string)
      ensures s != ""
    {
      match this
      case Single(text) => (['\''] + text) + ['\'']
      case Double(letters) => (['"'] + WrittenLetters(letters)) + ['"']
      case Bare(x) => x.Written()
    }

    function Meant(): string {
      match this
      case Single(text) => text
      case Double(letters) => MeantLetters(letters)
      case Bare(x) => [x.c]
    }
  }

  function WrittenLetters(letters: seq<Letter>): string {
    if letters == [] then "" else WrittenLetters(letters[..|letters| - 1]) + letters[|letters| - 1].Written()
  }

  function MeantLetters(letters: seq<Letter>): string {
    if letters == [] then "" else MeantLetters(letters[..|letters| - 1]) + [letters[|letters| - 1].c]
  }

  type Word = seq<Piece>

  predicate ValidWord(w: Word) {
    forall p :: p in w ==> p.Valid()
  }

  function WrittenWord(w: Word): string {
    if w == [] then "" else WrittenWord(w[..|w| - 1]) + w[|w| - 1].Written()
  }

  function MeantWord(w: Word): string {
    if w == [] then "" else MeantWord(w[..|w| - 1]) + w[|w| - 1].Meant()
  }

  /** Words with blanks around them: `gaps[i]` stands before word `i`, the last gap at the end. */
  function WrittenLine(words: seq<Word>, gaps: seq<string>): string
    requires |gaps| == |words| + 1
  {
    if words == [] then gaps[0]
    else
      var n := |words| - 1;
      (WrittenLine(words[..n], gaps[..n + 1]) + WrittenWord(words[n])) + gaps[n + 1]
  }

  predicate AllBlank(s: string) {
    forall c :: c in s ==> c == ' ' || c == '\t' || c == '\n' || c == '\r'
  }

  predicate ValidLine(words: seq<Word>, gaps: seq<string>) {
    && |gaps| == |words| + 1
    && (forall w :: w in words ==> ValidWord(w))
    && (forall g :: g in gaps ==> AllBlank(g))
    && (forall i :: 0 < i < |words| ==> gaps[i] != "")
  }

  function Meanings(words: seq<Word>): seq<string> {
    seq(|words|, i requires 0 <= i < |words| => MeantWord(words[i]))
  }

  // ---------------------------------------------------------------------
  // Splitting them
  // ---------------------------------------------------------------------

  const IN_DOUBLE := Quoting(false, true, false)

  lemma FeedLetter(l: Splitter, x: Letter)
    requires l.q == PLAIN || l.q == IN_DOUBLE
    requires if l.q == PLAIN then Bare(x).Valid() else Double([x]).Valid()
    ensures FeedAll(l, x.Written()) == l.(current := l.current + [x.c])
  {
    hide FeedAll;
    assert x in [x];
    if x.escaped {
      FeedConcat(l, ['\\'], [x.c]);
      FeedOne(l, '\\');
      FeedOne(l.(q := l.q.(escaped := true)), x.c);
    } else {
      FeedOne(l, x.c);
    }
  }

  lemma {:induction false} FeedLetters(l: Splitter, letters: seq<Letter>)
    requires l.q == IN_DOUBLE && Double(letters).Valid()
    ensures FeedAll(l, WrittenLetters(letters)) == l.(current := l.current + MeantLetters(letters))
    decreases |letters|
  {
    hide FeedAll;
    if letters == [] {
      FeedNothing(l);
      assert l.current + "" == l.current;
    } else {
      var front, x := letters[..|letters| - 1], letters[|letters| - 1];
      assert letters == front + [x];
      FeedLetters(l, front);
      FeedConcat(l, WrittenLetters(front), x.Written());
      FeedLetter(l.(current := l.current + MeantLetters(front)), x);
      assert (l.current + MeantLetters(front)) + [x.c] == l.current + (MeantLetters(front) + [x.c]);
    }
  }

  lemma {:induction false} FeedText(l: Splitter, text: string)
    requires l.q == QUOTED && '\'' !in text
    ensures FeedAll(l, text) == l.(current := l.current + text)
    decreases |text|
  {
    if text == "" {
      assert l.current + "" == l.current;
    } else {
      var front, c := text[..|text| - 1], text[|text| - 1];
      assert text == front + [c];
      FeedText(l, front);
      assert (l.current + front) + [c] == l.current + text;
    }
  }

  lemma FeedPiece(l: Splitter, p: Piece)
    requires l.q == PLAIN && p.Valid()
    ensures FeedAll(l, p.Written()) == l.(current := l.current + p.Meant())
  {
    hide FeedAll;
    match p
    case Single(text) =>
      FeedConcat(l, ['\''] + text, ['\'']);
      FeedConcat(l, ['\''], text);
      FeedOne(l, '\'');
      FeedText(l.(q := QUOTED), text);
      FeedOne(l.(q := QUOTED, current := l.current + text), '\'');
    case Double(letters) =>
      FeedConcat(l, ['"'] + WrittenLetters(letters), ['"']);
      FeedConcat(l, ['"'], WrittenLetters(letters));
      FeedOne(l, '"');
      FeedLetters(l.(q := IN_DOUBLE), letters);
      FeedOne(l.(q := IN_DOUBLE, current := l.current + MeantLetters(letters)), '"');
    case Bare(x) => FeedLetter(l, x);
  }

  lemma {:induction false} FeedWord(l: Splitter, w: Word)
    requires l.q == PLAIN && ValidWord(w)
    ensures FeedAll(l, WrittenWord(w)) == l.(current := l.current + MeantWord(w))
    decreases |w|
  {
    hide FeedAll, Piece.Written, Piece.Meant, Piece.Valid;
    if w == [] {
      FeedNothing(l);
      assert l.current + "" == l.current;
    } else {
      var front, p := w[..|w| - 1], w[|w| - 1];
      assert w == front + [p];
      FeedWord(l, front);
      FeedConcat(l, WrittenWord(front), p.Written());
      FeedPiece(l.(current := l.current + MeantWord(front)), p);
      assert (l.current + MeantWord(front)) + p.Meant() == l.current + (MeantWord(front) + p.Meant());
    }
  }

  lemma {:induction false} FeedBlanks(l: Splitter, gap: string)
    requires l.q == PLAIN && AllBlank(gap)
    ensures FeedAll(l, gap) == if gap == "" then l else EndWord(l)
    decreases |gap|
  {
    hide FeedAll, EndWord, Feed;
    if gap == "" {
      FeedNothing(l);
    } else {
      var front, c := gap[..|gap| - 1], gap[|gap| - 1];
      assert gap == front + [c];
      assert c in gap && forall x :: x in front ==> x in gap;
      FeedBlanks(l, front);
      var m := if front == "" then l else EndWord(l);
      FeedConcat(l, front, [c]);
      FeedOne(m, c);
      BlankEnds(l, c);
    }
  }

  lemma BlankEnds(l: Splitter, c: char)
    requires l.q == PLAIN && (c == ' ' || c == '\t' || c == '\n' || c == '\r')
    ensures Feed(l, c) == EndWord(l) && EndWord(EndWord(l)) == EndWord(l) && EndWord(l).q == PLAIN
    ensures Feed(EndWord(l), c) == EndWord(l)
  {
  }

  lemma MeaningsStep(words: seq<Word>)
    requires words != []
    ensures NonEmpty(Meanings(words))
            == NonEmpty(Meanings(words[..|words| - 1]))
               + if MeantWord(words[|words| - 1]) != "" then [MeantWord(words[|words| - 1])] else []
  {
    hide MeantWord, Filter;
    var front, w := words[..|words| - 1], words[|words| - 1];
    assert Meanings(words) == Meanings(front) + [MeantWord(w)];
    NonEmptyStep(Meanings(front), MeantWord(w));
  }

  lemma {:induction false} FeedLine(l: Splitter, words: seq<Word>, gaps: seq<string>)
    requires l.q == PLAIN && l.current == "" && ValidLine(words, gaps)
    ensures var m := FeedAll(l, WrittenLine(words, gaps));
            var done := Splitter(PLAIN, "", l.words + NonEmpty(Meanings(words)));
            m.q == PLAIN && EndWord(m) == done && (words == [] || gaps[|words|] != "" ==> m == done)
    decreases |words|
  {
    hide FeedAll, Filter, MeantWord, WrittenWord, ValidWord;
    if words == [] {
      FeedBlanks(l, gaps[0]);
      assert NonEmpty(Meanings(words)) == [] by { NoWords(); }
      assert l.words + [] == l.words;
    } else {
      var n := |words| - 1;
      var front, w := words[..n], words[n];
      ShorterLine(words, gaps);
      FeedLine(l, front, gaps[..n + 1]);
      var m := FeedAll(l, WrittenLine(front, gaps[..n + 1]));
      FeedConcat(l, WrittenLine(front, gaps[..n + 1]) + WrittenWord(w), gaps[n + 1]);
      FeedConcat(l, WrittenLine(front, gaps[..n + 1]), WrittenWord(w));
      FeedWord(m, w);
      FeedBlanks(m.(current := m.current + MeantWord(w)), gaps[n + 1]);
      MeaningsStep(words);
      assert m.current + MeantWord(w) == MeantWord(w);
      var before := NonEmpty(Meanings(front));
      assert l.words + (before + [MeantWord(w)]) == (l.words + before) + [MeantWord(w)];
      assert before + [] == before;
    }
  }

  lemma ShorterLine(words: seq<Word>, gaps: seq<string>)
    requires ValidLine(words, gaps) && words != []
    ensures ValidLine(words[..|words| - 1], gaps[..|words|])
    ensures ValidWord(words[|words| - 1]) && AllBlank(gaps[|words|])
    ensures |words| > 1 ==> gaps[|words| - 1] != ""
  {
    hide ValidWord, AllBlank;
  }

  /** Words written in whatever way, with any blanks around them, are split into what they mean; empty ones are lost. */
  lemma WrittenReadsBack(words: seq<Word>, gaps: seq<string>)
    requires ValidLine(words, gaps)
    ensures Split(WrittenLine(words, gaps)) == Ok(NonEmpty(Meanings(words)))
  {
    hide FeedAll, Filter, WrittenLine, ValidLine;
    FeedLine(FRESH, words, gaps);
    assert [] + NonEmpty(Meanings(words)) == NonEmpty(Meanings(words));
  }

  // ---------------------------------------------------------------------
  // Blanks and brackets in what is written
  // ---------------------------------------------------------------------

  /** No blank of `s`, read from `q` on, is outside quotes. */
  ghost predicate BlanksQuoted(q: Quoting, s: string) {
    forall i :: 0 <= i < |s| && Scan(q, s[..i]) == PLAIN ==> s[i] != ' '
  }

  /** Behind no blank of `s` outside quotes there is an opening bracket. */
  ghost predicate Bracketless(q: Quoting, s: string) {
    forall i :: 0 <= i < |s| - 1 && Scan(q, s[..i]) == PLAIN && s[i] == ' ' ==> s[i + 1] != '['
  }

  lemma QuotedConcat(q: Quoting, a: string, b: string)
    requires BlanksQuoted(q, a) && BlanksQuoted(Scan(q, a), b)
    ensures BlanksQuoted(q, a + b)
  {
    hide Scan;
    forall i | 0 <= i < |a + b| && Scan(q, (a + b)[..i]) == PLAIN ensures (a + b)[i] != ' ' {
      if i < |a| {
        assert (a + b)[..i] == a[..i];
      } else {
        assert (a + b)[..i] == a + b[..i - |a|];
        ScanConcat(q, a, b[..i - |a|]);
      }
    }
  }

  lemma BracketlessConcat(q: Quoting, a: string, b: string)
    requires Bracketless(q, a) && Bracketless(Scan(q, a), b)
    requires b == "" || b[0] != '['
    ensures Bracketless(q, a + b)
  {
    hide Scan;
    var s := a + b;
    forall i | 0 <= i < |s| - 1 && Scan(q, s[..i]) == PLAIN && s[i] == ' ' ensures s[i + 1] != '[' {
      if i < |a| {
        assert s[..i] == a[..i];
      } else {
        assert s[..i] == a + b[..i - |a|];
        ScanConcat(q, a, b[..i - |a|]);
        assert s[i] == b[i - |a|] && s[i + 1] == b[i + 1 - |a|];
      }
    }
  }

  lemma QuotedOne(q: Quoting, c: char)
    requires q != PLAIN || c != ' '
    ensures BlanksQuoted(q, [c]) && Scan(q, [c]) == Next(q, c)
  {
    hide Scan;
    ScanOne(q, c);
    forall i | 0 <= i < 1 ensures [c][..i] == "" {
    }
  }

  lemma QuotedNothing(q: Quoting)
    ensures BlanksQuoted(q, "") && Scan(q, "") == q
  {
  }

  lemma QuotedLetter(q: Quoting, x: Letter)
    requires q == PLAIN || q == IN_DOUBLE
    requires if q == PLAIN then Bare(x).Valid() else Double([x]).Valid()
    ensures BlanksQuoted(q, x.Written()) && Scan(q, x.Written()) == q
  {
    hide Scan, BlanksQuoted;
    assert x in [x];
    if x.escaped {
      var e := q.(escaped := true);
      QuotedOne(q, '\\');
      QuotedOne(e, x.c);
      QuotedConcat(q, ['\\'], [x.c]);
      ScanConcat(q, ['\\'], [x.c]);
    } else {
      QuotedOne(q, x.c);
    }
  }

  lemma {:induction false} QuotedLetters(letters: seq<Letter>)
    requires Double(letters).Valid()
    ensures BlanksQuoted(IN_DOUBLE, WrittenLetters(letters)) && Scan(IN_DOUBLE, WrittenLetters(letters)) == IN_DOUBLE
    decreases |letters|
  {
    hide Scan, BlanksQuoted;
    if letters == [] {
      QuotedNothing(IN_DOUBLE);
    } else {
      var front, x := letters[..|letters| - 1], letters[|letters| - 1];
      assert letters == front + [x];
      QuotedLetters(front);
      QuotedLetter(IN_DOUBLE, x);
      QuotedConcat(IN_DOUBLE, WrittenLetters(front), x.Written());
      ScanConcat(IN_DOUBLE, WrittenLetters(front), x.Written());
    }
  }

  lemma {:induction false} QuotedText(text: string)
    requires '\'' !in text
    ensures BlanksQuoted(QUOTED, text) && Scan(QUOTED, text) == QUOTED
    decreases |text|
  {
    hide Scan, BlanksQuoted;
    if text == "" {
      QuotedNothing(QUOTED);
    } else {
      var front, c := text[..|text| - 1], text[|text| - 1];
      assert text == front + [c];
      QuotedText(front);
      QuotedOne(QUOTED, c);
      QuotedConcat(QUOTED, front, [c]);
      ScanConcat(QUOTED, front, [c]);
    }
  }

  /** Between two equal marks. */
  lemma QuotedBetween(mark: char, within: Quoting, s: string)
    requires mark == '\'' || mark == '"'
    requires within == Next(PLAIN, mark) && BlanksQuoted(within, s) && Scan(within, s) == within
    ensures var w := ([mark] + s) + [mark]; BlanksQuoted(PLAIN, w) && Scan(PLAIN, w) == PLAIN
  {
    hide Scan, BlanksQuoted;
    QuotedOne(PLAIN, mark);
    QuotedOne(within, mark);
    QuotedConcat(PLAIN, [mark], s);
    ScanConcat(PLAIN, [mark], s);
    QuotedConcat(PLAIN, [mark] + s, [mark]);
    ScanConcat(PLAIN, [mark] + s, [mark]);
  }

  lemma QuotedPiece(p: Piece)
    requires p.Valid()
    ensures BlanksQuoted(PLAIN, p.Written()) && Scan(PLAIN, p.Written()) == PLAIN
  {
    hide Scan, BlanksQuoted;
    match p
    case Single(text) =>
      QuotedText(text);
      QuotedBetween('\'', QUOTED, text);
    case Double(letters) =>
      QuotedLetters(letters);
      QuotedBetween('"', IN_DOUBLE, WrittenLetters(letters));
    case Bare(x) => QuotedLetter(PLAIN, x);
  }

  lemma {:induction false} QuotedWord(w: Word)
    requires ValidWord(w)
    ensures BlanksQuoted(PLAIN, WrittenWord(w)) && Scan(PLAIN, WrittenWord(w)) == PLAIN
    decreases |w|
  {
    hide Scan, BlanksQuoted, Piece.Written, Piece.Valid;
    if w == [] {
      QuotedNothing(PLAIN);
    } else {
      var front, p := w[..|w| - 1], w[|w| - 1];
      assert w == front + [p];
      QuotedWord(front);
      QuotedPiece(p);
      QuotedConcat(PLAIN, WrittenWord(front), p.Written());
      ScanConcat(PLAIN, WrittenWord(front), p.Written());
    }
  }

  lemma {:induction false} ScanBlanks(gap: string)
    requires AllBlank(gap)
    ensures Scan(PLAIN, gap) == PLAIN
    decreases |gap|
  {
    if gap != "" {
      var front, c := gap[..|gap| - 1], gap[|gap| - 1];
      assert gap == front + [c];
      assert c in gap && forall x :: x in front ==> x in gap;
      ScanBlanks(front);
    }
  }

  lemma BracketlessBlanks(gap: string)
    requires AllBlank(gap)
    ensures Bracketless(PLAIN, gap) && (gap == "" || gap[0] != '[')
  {
    hide Scan;
    assert forall i :: 0 <= i < |gap| ==> gap[i] in gap;
  }

  /** No word starts with a bare opening bracket. */
  predicate NoneOpens(words: seq<Word>) {
    forall w :: w in words && WrittenWord(w) != "" ==> WrittenWord(w)[0] != '['
  }

  lemma {:induction false} BracketlessLine(words: seq<Word>, gaps: seq<string>)
    requires ValidLine(words, gaps) && NoneOpens(words)
    ensures Bracketless(PLAIN, WrittenLine(words, gaps)) && Scan(PLAIN, WrittenLine(words, gaps)) == PLAIN
    decreases |words|
  {
    hide Scan, Bracketless, BlanksQuoted, WrittenWord, ValidWord, AllBlank;
    if words == [] {
      ScanBlanks(gaps[0]);
      BracketlessBlanks(gaps[0]);
    } else {
      var n := |words| - 1;
      var front, w, gap := WrittenLine(words[..n], gaps[..n + 1]), WrittenWord(words[n]), gaps[n + 1];
      ShorterLine(words, gaps);
      BracketlessLine(words[..n], gaps[..n + 1]);
      QuotedWord(words[n]);
      QuotedIsBracketless(w);
      BracketlessConcat(PLAIN, front, w);
      ScanConcat(PLAIN, front, w);
      ScanBlanks(gap);
      BracketlessBlanks(gap);
      BracketlessConcat(PLAIN, front + w, gap);
      ScanConcat(PLAIN, front + w, gap);
    }
  }

  lemma QuotedIsBracketless(s: string)
    requires BlanksQuoted(PLAIN, s)
    ensures Bracketless(PLAIN, s)
  {
    hide Scan;
  }

  lemma NoBracketIn(s: string, rest: string, i: nat)
    requires Bracketless(PLAIN, s) && i < |s| && (rest == "" || rest[0] != '[')
    ensures !BeginsAt(s + rest, " [ ", i)
  {
    hide Scan;
    var t := s + rest;
    assert t[..i] == s[..i] && t[i] == s[i];
    assert t[i..][0] == s[i] && " [ "[0] == ' ';
    if i + 1 >= |t| {
      assert |t[i..]| < 3;
    } else if Scan(PLAIN, s[..i]) == PLAIN && s[i] == ' ' {
      assert t[i + 1] == if i + 1 < |s| then s[i + 1] else rest[0];
      NoBracketBefore(t, i);
    }
  }

  // ---------------------------------------------------------------------
  // Commands
  // ---------------------------------------------------------------------

  /** Blanks around a command do not matter. */
  lemma {:induction false} TrimPads(before: string, s: string, after: string)
    requires AllBlank(before) && AllBlank(after)
    requires s == "" || (!IsSpace(s[0]) && !IsSpace(s[|s| - 1]))
    ensures Trim((before + s) + after) == s
    decreases |before| + |after|
  {
    hide IsSpace;
    if before != "" {
      var text := (before + s) + after;
      assert before[0] in before && forall c :: c in before[1..] ==> c in before;
      assert text[0] == before[0] && text[1..] == (before[1..] + s) + after;
      BlankIsSpace(before[0]);
      TrimPads(before[1..], s, after);
    } else if s == "" {
      assert (before + s) + after == after;
      TrimBlanks(after);
    } else {
      assert (before + s) + after == s + after;
      assert TrimStart(s + after) == s + after;
      TrimEndPads(s, after);
    }
  }

  lemma BlankIsSpace(c: char)
    requires c == ' ' || c == '\t' || c == '\n' || c == '\r'
    ensures IsSpace(c)
  {
  }

  lemma {:induction false} TrimBlanks(s: string)
    requires AllBlank(s)
    ensures Trim(s) == ""
    decreases |s|
  {
    hide IsSpace;
    if s != "" {
      assert s[0] in s && forall c :: c in s[1..] ==> c in s;
      BlankIsSpace(s[0]);
      TrimBlanks(s[1..]);
    }
  }

  lemma {:induction false} TrimEndPads(s: string, after: string)
    requires AllBlank(after) && s != "" && !IsSpace(s[|s| - 1])
    ensures TrimEnd(s + after) == s
    decreases |after|
  {
    hide IsSpace;
    if after == "" {
      assert s + after == s;
    } else {
      var front, c := after[..|after| - 1], after[|after| - 1];
      assert after == front + [c];
      assert c in after && forall x :: x in front ==> x in after;
      assert (s + after)[..|s + after| - 1] == s + front;
      BlankIsSpace(c);
      TrimEndPads(s, front);
    }
  }

  /** A written line that begins and ends with a character that is not white space, or is empty. */
  predicate Tight(words: seq<Word>, gaps: seq<string>)
    requires |gaps| == |words| + 1
  {
    var s := WrittenLine(words, gaps);
    s == "" || (!IsSpace(s[0]) && !IsSpace(s[|s| - 1]))
  }

  /**
    A command without default arguments, its words written in whatever way: it reads as what they mean. So an opening
    bracket between blanks inside quotes is part of a word.
    */
  lemma WrittenCommandReadsBack(words: seq<Word>, gaps: seq<string>, before: string, after: string)
    requires ValidLine(words, gaps) && NoneOpens(words) && Tight(words, gaps)
    requires AllBlank(before) && AllBlank(after)
    ensures Command((before + WrittenLine(words, gaps)) + after) == Ok(NonEmpty(Meanings(words)))
  {
    hide Scan, Split, First, Bracketless, NoneOpens, ValidWord, WrittenLine, Trim, AllBlank, IsSpace;
    var s := WrittenLine(words, gaps);
    TrimPads(before, s, after);
    WrittenReadsBack(words, gaps);
    BracketlessLine(words, gaps);
    assert s + "" == s;
    forall i | 0 <= i < |s| ensures !BeginsAt(s, " [ ", i) {
      NoBracketIn(s, "", i);
    }
    FirstIsUnique(s, " [ ", None);
  }

  /** With default arguments in brackets: it reads as the words before the bracket, then the default ones. */
  lemma WrittenDefaultsReadBack(words: seq<Word>, gaps: seq<string>, more: seq<Word>, moreGaps: seq<string>,
                                before: string, after: string)
    requires ValidLine(words, gaps) && NoneOpens(words) && Tight(words, gaps) && WrittenLine(words, gaps) != ""
    requires ValidLine(more, moreGaps)
    requires AllBlank(before) && AllBlank(after)
    ensures var s := (WrittenLine(words, gaps) + " [ " + WrittenLine(more, moreGaps)) + " ]";
            Command((before + s) + after) == Ok(NonEmpty(Meanings(words)) + NonEmpty(Meanings(more)))
  {
    hide Scan, Split, First, LastIndex, Bracketless, NoneOpens, ValidWord, WrittenLine, Trim, AllBlank, Filter;
    var base, defaults := WrittenLine(words, gaps), WrittenLine(more, moreGaps);
    var s := (base + " [ " + defaults) + " ]";
    TrimPads(before, s, after);
    WrittenReadsBack(words, gaps);
    WrittenReadsBack(more, moreGaps);
    BracketlessLine(words, gaps);
    var rest := " [ " + defaults + " ]";
    assert s == base + rest;
    BracketOpensAfter(base, rest);
    ClosesAtEnd(base + " [ " + defaults);
    assert s[..|base|] == base && s[|base| + 3..|s| - 2] == defaults;
  }

  lemma BracketOpensAfter(base: string, rest: string)
    requires Bracketless(PLAIN, base) && Scan(PLAIN, base) == PLAIN && " [ " <= rest
    ensures First(base + rest, " [ ") == Some(|base|)
  {
    hide Scan, Bracketless, First;
    var s := base + rest;
    forall i | 0 <= i < |base| ensures !BeginsAt(s, " [ ", i) {
      NoBracketIn(base, rest, i);
    }
    assert s[..|base|] == base && s[|base|..] == rest && s[|base|] == rest[0] == " [ "[0];
    FirstIsUnique(s, " [ ", Some(|base|));
  }

  // ---------------------------------------------------------------------
  // Every text that is split is written so
  // ---------------------------------------------------------------------

  /** What follows the last finished piece of a text. */
  datatype Rest = Nothing | Escape | OpenSingle(text: string) | OpenDouble(letters: seq<Letter>, escaped: bool) {
    predicate Valid() {
      match this
      case OpenSingle(text) => Single(text).Valid()
      case OpenDouble(letters, _) => Double(letters).Valid()
      case _ => true
    }

    function Written(): string {
      match this
      case Nothing => ""
      case Escape => ['\\']
      case OpenSingle(text) => ['\''] + text
      case OpenDouble(letters, escaped) => (['"'] + WrittenLetters(letters)) + if escaped then ['\\'] else []
    }

    function Quote(): Quoting {
      match this
      case Nothing => PLAIN
      case Escape => Quoting(false, false, true)
      case OpenSingle(_) => QUOTED
      case OpenDouble(_, escaped) => Quoting(false, true, escaped)
    }
  }

  /** A piece more: it goes on the last word, or starts one behind a blank. */
  lemma OneMorePiece(words: seq<Word>, gaps: seq<string>, p: Piece) returns (longer: seq<Word>, wider: seq<string>)
    requires ValidLine(words, gaps) && p.Valid()
    ensures ValidLine(longer, wider) && WrittenLine(longer, wider) == WrittenLine(words, gaps) + p.Written()
  {
    hide Piece.Written, Piece.Valid, WrittenLine, WrittenWord, AllBlank;
    var n := |words|;
    if n == 0 || gaps[n] != "" {
      longer, wider := words + [[p]], gaps + [""];
      LastWordOfLine(words, gaps, [p], "");
      WordOfPiece([], p);
      NoBlank();
      assert (WrittenLine(words, gaps) + p.Written()) + "" == WrittenLine(words, gaps) + p.Written();
    } else {
      var w, before, around := words[n - 1], words[..n - 1], gaps[..n];
      longer, wider := before + [w + [p]], gaps;
      assert w in words && words == before + [w] && gaps == around + [""];
      LastWordOfLine(before, around, w, "");
      LastWordOfLine(before, around, w + [p], "");
      WordOfPiece(w, p);
      assert forall v :: v in longer ==> v in words || v == w + [p];
      var front := WrittenLine(before, around);
      assert (front + WrittenWord(w)) + "" + p.Written() == (front + (WrittenWord(w) + p.Written())) + "";
    }
  }

  lemma LastWordOfLine(words: seq<Word>, gaps: seq<string>, w: Word, gap: string)
    requires |gaps| == |words| + 1
    ensures WrittenLine(words + [w], gaps + [gap]) == (WrittenLine(words, gaps) + WrittenWord(w)) + gap
  {
    hide WrittenWord;
    assert (words + [w])[..|words|] == words && (gaps + [gap])[..|gaps|] == gaps;
  }

  lemma WordOfPiece(w: Word, p: Piece)
    ensures WrittenWord(w + [p]) == WrittenWord(w) + p.Written()
    ensures WrittenWord([p]) == p.Written() && [] + [p] == [p]
    ensures ValidWord(w) && p.Valid() ==> ValidWord(w + [p]) && ValidWord([p])
  {
    hide Piece.Written, Piece.Valid;
    assert (w + [p])[..|w|] == w && [p][..0] == [];
    assert WrittenWord([]) + p.Written() == p.Written();
  }

  lemma NoBlank()
    ensures AllBlank("")
  {
  }

  lemma OneMoreBlank(words: seq<Word>, gaps: seq<string>, c: char) returns (wider: seq<string>)
    requires ValidLine(words, gaps) && (c == ' ' || c == '\t' || c == '\n' || c == '\r')
    ensures ValidLine(words, wider) && WrittenLine(words, wider) == WrittenLine(words, gaps) + [c]
  {
    hide ValidWord;
    var n := |words|;
    assert gaps[n] in gaps;
    wider := gaps[n := gaps[n] + [c]];
    assert wider[..n] == gaps[..n];
    if n > 0 {
      var front := WrittenLine(words[..n - 1], gaps[..n]) + WrittenWord(words[n - 1]);
      assert front + (gaps[n] + [c]) == (front + gaps[n]) + [c];
    }
  }

  /** What one more character makes of an unfinished text. */
  lemma OneMoreChar(words: seq<Word>, gaps: seq<string>, rest: Rest, c: char)
    returns (longer: seq<Word>, wider: seq<string>, next: Rest)
    requires ValidLine(words, gaps) && rest.Valid()
    ensures ValidLine(longer, wider) && next.Valid() && next.Quote() == Next(rest.Quote(), c)
    ensures WrittenLine(longer, wider) + next.Written() == WrittenLine(words, gaps) + rest.Written() + [c]
  {
    hide ValidWord, AllBlank, WrittenLine;
    var line := WrittenLine(words, gaps);
    longer, wider, next := words, gaps, Nothing;
    match rest {
      case Nothing =>
        assert line + rest.Written() == line;
        if c == '\\' {
          next := Escape;
        } else if c == '\'' {
          next := OpenSingle("");
          assert next.Written() == ['\''];
        } else if c == '"' {
          next := OpenDouble([], false);
          assert next.Written() == ['"'];
        } else if c == ' ' || c == '\t' || c == '\n' || c == '\r' {
          wider := OneMoreBlank(words, gaps, c);
        } else {
          longer, wider := OneMorePiece(words, gaps, Bare(Letter(c, false)));
        }
      case Escape =>
        longer, wider := OneMorePiece(words, gaps, Bare(Letter(c, true)));
        assert line + ['\\'] + [c] == line + (['\\'] + [c]);
      case OpenSingle(text) =>
        if c == '\'' {
          longer, wider := OneMorePiece(words, gaps, Single(text));
          assert line + (['\''] + text) + [c] == line + ((['\''] + text) + ['\'']);
        } else {
          next := OpenSingle(text + [c]);
          assert line + (['\''] + text) + [c] == line + (['\''] + (text + [c]));
        }
      case OpenDouble(letters, escaped) =>
        longer, wider, next := InDouble(words, gaps, letters, escaped, c);
    }
  }

  lemma InDouble(words: seq<Word>, gaps: seq<string>, letters: seq<Letter>, escaped: bool, c: char)
    returns (longer: seq<Word>, wider: seq<string>, next: Rest)
    requires ValidLine(words, gaps) && Double(letters).Valid()
    ensures var rest := OpenDouble(letters, escaped);
            && ValidLine(longer, wider) && next.Valid() && next.Quote() == Next(rest.Quote(), c)
            && WrittenLine(longer, wider) + next.Written() == WrittenLine(words, gaps) + rest.Written() + [c]
  {
    hide ValidWord, AllBlank, WrittenLine;
    var line := WrittenLine(words, gaps);
    longer, wider := words, gaps;
    var within := ['"'] + WrittenLetters(letters);
    if !escaped && c == '"' {
      longer, wider := OneMorePiece(words, gaps, Double(letters));
      next := Nothing;
      assert line + (within + []) + [c] == (line + (within + ['"'])) + "";
    } else if !escaped && c == '\\' {
      next := OpenDouble(letters, true);
      assert line + (within + []) + [c] == line + (within + ['\\']);
    } else {
      var x := Letter(c, escaped);
      next := OpenDouble(letters + [x], false);
      assert (letters + [x])[..|letters|] == letters;
      assert line + (within + if escaped then ['\\'] else []) + [c]
          == line + ((['"'] + (WrittenLetters(letters) + x.Written())) + []);
    }
  }

  lemma {:induction false} EveryTextIsWritten(s: string) returns (words: seq<Word>, gaps: seq<string>, rest: Rest)
    ensures ValidLine(words, gaps) && rest.Valid()
    ensures s == WrittenLine(words, gaps) + rest.Written() && Scan(PLAIN, s) == rest.Quote()
    decreases |s|
  {
    hide WrittenLine, Rest.Written, Rest.Valid;
    if s == "" {
      words, gaps, rest := [], [""], Nothing;
      NothingWritten();
    } else {
      var front, c := s[..|s| - 1], s[|s| - 1];
      assert s == front + [c];
      words, gaps, rest := EveryTextIsWritten(front);
      words, gaps, rest := OneMoreChar(words, gaps, rest, c);
    }
  }

  lemma NothingWritten()
    ensures WrittenLine([], [""]) == "" && Nothing.Written() == "" && Nothing.Valid() && AllBlank("")
  {
  }

  /** A backslash at the very end is lost. */
  lemma LoneBackslash(s: string)
    requires Scan(PLAIN, s) == PLAIN
    ensures Split(s + ['\\']) == Split(s)
  {
    hide FeedAll, Scan;
    InLockstep(FRESH, s);
    FeedConcat(FRESH, s, ['\\']);
    FeedOne(FeedAll(FRESH, s), '\\');
  }

  /** `s` is these words with these blanks around them, and perhaps one backslash at the very end. */
  ghost predicate Writes(s: string, words: seq<Word>, gaps: seq<string>, lone: bool) {
    ValidLine(words, gaps) && s == WrittenLine(words, gaps) + if lone then ['\\'] else []
  }

  /** A text splits into exactly the words it writes, empty ones left out; and it is refused if it writes none. */
  lemma SplitsExactly(s: string, r: seq<string>)
    ensures Split(s) == Ok(r)
            <==> exists words, gaps, lone :: Writes(s, words, gaps, lone) && r == NonEmpty(Meanings(words))
  {
    hide FeedAll, Scan, Writes, Filter, Split;
    if Split(s) == Ok(r) {
      var words, gaps, rest := EveryTextIsWritten(s);
      OpenIsRefused(s, rest);
      ClosedIsWritten(s, words, gaps, rest);
      WrittenIsSplit(s, words, gaps, rest.Escape?);
    }
    forall words, gaps, lone | Writes(s, words, gaps, lone) && r == NonEmpty(Meanings(words))
      ensures Split(s) == Ok(r)
    {
      WrittenIsSplit(s, words, gaps, lone);
    }
  }

  lemma ClosedIsWritten(s: string, words: seq<Word>, gaps: seq<string>, rest: Rest)
    requires ValidLine(words, gaps) && s == WrittenLine(words, gaps) + rest.Written()
    requires rest.Nothing? || rest.Escape?
    ensures Writes(s, words, gaps, rest.Escape?)
  {
    hide WrittenLine, ValidWord, AllBlank;
  }

  lemma WrittenIsSplit(s: string, words: seq<Word>, gaps: seq<string>, lone: bool)
    requires Writes(s, words, gaps, lone)
    ensures Split(s) == Ok(NonEmpty(Meanings(words)))
  {
    hide Split, Scan, WrittenLine, ValidWord, AllBlank, Filter;
    var line := WrittenLine(words, gaps);
    WrittenReadsBack(words, gaps);
    LineIsClosed(words, gaps);
    LoneBackslash(line);
    assert line + [] == line;
  }

  lemma OpenIsRefused(s: string, rest: Rest)
    requires Split(s).Ok? && Scan(PLAIN, s) == rest.Quote()
    ensures rest.Nothing? || rest.Escape?
  {
    hide FeedAll, Scan;
    InLockstep(FRESH, s);
  }

  lemma LineIsClosed(words: seq<Word>, gaps: seq<string>)
    requires ValidLine(words, gaps)
    ensures Scan(PLAIN, WrittenLine(words, gaps)) == PLAIN
  {
    hide FeedAll, Scan, ValidWord, AllBlank, WrittenLine, Filter;
    FeedLine(FRESH, words, gaps);
    InLockstep(FRESH, WrittenLine(words, gaps));
  }

  // ---------------------------------------------------------------------
  // Where default arguments open
  // ---------------------------------------------------------------------

  /** A bracket between blanks whose text before it is made of whole written words. */
  ghost predicate OpensAt(s: string, i: nat) {
    && i + 3 <= |s| && s[i] == ' ' && s[i + 1] == '[' && s[i + 2] == ' '
    && exists words, gaps :: Writes(s[..i], words, gaps, false)
  }

  lemma OutsideExactly(s: string)
    ensures Scan(PLAIN, s) == PLAIN <==> exists words, gaps :: Writes(s, words, gaps, false)
  {
    hide Scan, WrittenLine, ValidWord, AllBlank;
    if Scan(PLAIN, s) == PLAIN {
      var words, gaps, rest := EveryTextIsWritten(s);
      assert rest.Nothing?;
      assert Writes(s, words, gaps, false);
    }
    forall words, gaps | Writes(s, words, gaps, false) ensures Scan(PLAIN, s) == PLAIN {
      LineIsClosed(words, gaps);
      assert WrittenLine(words, gaps) + [] == WrittenLine(words, gaps);
    }
  }

  lemma OpensWhereItBegins(s: string, i: nat)
    ensures BeginsAt(s, " [ ", i) <==> OpensAt(s, i)
  {
    hide Scan, Writes;
    if i < |s| {
      OutsideExactly(s[..i]);
      if i + 3 <= |s| {
        assert s[i..][..3] == s[i..i + 3];
        assert s[i..i + 3] == " [ " <==> s[i] == ' ' && s[i + 1] == '[' && s[i + 2] == ' ';
        assert " [ " <= s[i..] <==> s[i..][..3] == " [ ";
      } else {
        assert |s[i..]| < 3;
      }
    }
  }

  /** Default arguments open at the first such bracket. */
  lemma OpensAtFirst(s: string, r: Option<nat>)
    ensures First(s, " [ ") == r
            <==> match r
                 case Some(i) => OpensAt(s, i) && forall j :: 0 <= j < i ==> !OpensAt(s, j)
                 case None => forall j :: 0 <= j < |s| ==> !OpensAt(s, j)
  {
    hide BeginsAt, OpensAt, First;
    forall i: nat ensures BeginsAt(s, " [ ", i) <==> OpensAt(s, i) {
      OpensWhereItBegins(s, i);
    }
    assert IsFirst(s, " [ ", First(s, " [ "));
    if IsFirst(s, " [ ", r) {
      FirstIsUnique(s, " [ ", r);
    }
  }
}
