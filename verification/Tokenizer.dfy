/** `tokenize` (`src/harvest/acceptance.ts`): a command text into an argv, with quotes and no shell. */
module Tokenizer {
  import opened Optional

  predicate IsMeta(c: char) {
    c == '|' || c == '&' || c == ';' || c == '<' || c == '>' || c == '`' || c == '$' || c == '(' || c == ')'
    || c == '\\' || c == '*' || c == '?' || c == '~'
  }

  predicate IsBlank(c: char) { c == ' ' || c == '\t' }

  predicate IsMark(c: char) { c == '\'' || c == '"' }

  datatype Result = Tokens(argv: seq<string>) | Metacharacter(c: char) | UnclosedQuote | EmptyCommand

  // ---------------------------------------------------------------- the loop

  /** The loop's variables, or the character it threw on. */
  datatype Scan = Scan(argv: seq<string>, cur: string, started: bool, quote: Option<char>) | Threw(c: char)

  const FRESH := Scan([], "", false, None)

  function Next(s: Scan, ch: char): Scan {
    if s.Threw? then s
    else if s.quote.Some? then
      if ch == s.quote.value then s.(quote := None) else s.(cur := s.cur + [ch])
    else if IsMark(ch) then s.(quote := Some(ch), started := true)
    else if IsBlank(ch) then
      if s.started then s.(argv := s.argv + [s.cur], cur := "", started := false) else s
    else if IsMeta(ch) then Threw(ch)
    else s.(cur := s.cur + [ch], started := true)
  }

  function Feed(s: Scan, cmd: string): Scan
    decreases cmd
  {
    if cmd == "" then s else Feed(Next(s, cmd[0]), cmd[1..])
  }

  function Finish(s: Scan): Result {
    if s.Threw? then Metacharacter(s.c)
    else if s.quote.Some? then UnclosedQuote
    else
      var argv := if s.started then s.argv + [s.cur] else s.argv;
      if argv == [] then EmptyCommand else Tokens(argv)
  }

  function Tokenized(cmd: string): Result { Finish(Feed(FRESH, cmd)) }

  method Tokenize(cmd: string) returns (result: Result)
    ensures result == Tokenized(cmd)
  {
    var argv: seq<string> := [];
    var cur := "";
    var started := false;
    var quote: Option<char> := None;
    for i := 0 to |cmd|
      invariant Feed(FRESH, cmd) == Feed(Scan(argv, cur, started, quote), cmd[i..])
    {
      var ch := cmd[i];
      assert cmd[i..][1..] == cmd[i + 1..];
      if quote.Some? {
        if ch == quote.value {
          quote := None;
        } else {
          cur := cur + [ch];
        }
        continue;
      }
      if ch == '\'' || ch == '"' {
        quote := Some(ch);
        started := true;
        continue;
      }
      if ch == ' ' || ch == '\t' {
        if started {
          argv := argv + [cur];
          cur := "";
          started := false;
        }
        continue;
      }
      if IsMeta(ch) {
        StaysThrown(ch, cmd[i + 1..]);
        return Metacharacter(ch);
      }
      cur := cur + [ch];
      started := true;
    }
    if quote.Some? { return UnclosedQuote; }
    if started { argv := argv + [cur]; }
    if |argv| == 0 { return EmptyCommand; }
    return Tokens(argv);
  }

  lemma {:induction false} StaysThrown(c: char, cmd: string)
    ensures Feed(Threw(c), cmd) == Threw(c)
    decreases cmd
  {
    if cmd != "" {
      StaysThrown(c, cmd[1..]);
    }
  }

  lemma {:induction false} FeedConcat(s: Scan, a: string, b: string)
    ensures Feed(s, a + b) == Feed(Feed(s, a), b)
    decreases a
  {
    if a == "" {
      assert a + b == b;
    } else {
      assert (a + b)[1..] == a[1..] + b;
      FeedConcat(Next(s, a[0]), a[1..], b);
    }
  }

  // ------------------------------------------------- completeness, by spelling

  /** A stretch of a word: plain characters, or anything but the mark between two marks. */
  datatype Piece = Plain(text: string) | Quoted(mark: char, text: string)

  predicate IsPlain(c: char) { !IsMark(c) && !IsBlank(c) && !IsMeta(c) }

  predicate ValidPiece(p: Piece) {
    match p
    case Plain(text) => text != "" && forall i :: 0 <= i < |text| ==> IsPlain(text[i])
    case Quoted(mark, text) => IsMark(mark) && mark !in text
  }

  function PieceText(p: Piece): string {
    match p
    case Plain(text) => text
    case Quoted(mark, text) => [mark] + text + [mark]
  }

  type Word = seq<Piece>

  predicate ValidWord(w: Word) { w != [] && forall i :: 0 <= i < |w| ==> ValidPiece(w[i]) }

  function WordText(w: Word): string { if w == [] then "" else WordText(w[..|w| - 1]) + PieceText(w[|w| - 1]) }

  function WordValue(w: Word): string { if w == [] then "" else WordValue(w[..|w| - 1]) + w[|w| - 1].text }

  /** Words, each after a gap of blanks, and the blanks behind the last one. */
  datatype Spelling = Spelling(words: seq<(string, Word)>, tail: string)

  predicate AllBlank(s: string) { forall i :: 0 <= i < |s| ==> IsBlank(s[i]) }

  predicate ValidSpelling(sp: Spelling) {
    && AllBlank(sp.tail)
    && (forall i :: 0 <= i < |sp.words| ==> AllBlank(sp.words[i].0) && ValidWord(sp.words[i].1))
    && (forall i :: 0 < i < |sp.words| ==> sp.words[i].0 != "")
  }

  function WordsText(words: seq<(string, Word)>): string {
    if words == [] then ""
    else WordsText(words[..|words| - 1]) + words[|words| - 1].0 + WordText(words[|words| - 1].1)
  }

  function CommandText(sp: Spelling): string { WordsText(sp.words) + sp.tail }

  function Values(words: seq<(string, Word)>): seq<string> {
    if words == [] then [] else Values(words[..|words| - 1]) + [WordValue(words[|words| - 1].1)]
  }

  lemma {:induction false} FeedPlain(s: Scan, text: string)
    requires s.Scan? && s.quote.None? && forall i :: 0 <= i < |text| ==> IsPlain(text[i])
    ensures Feed(s, text) == s.(cur := s.cur + text, started := s.started || text != "")
    decreases text
  {
    if text == "" {
      assert s.cur + text == s.cur;
    } else {
      FeedPlain(s.(cur := s.cur + [text[0]], started := true), text[1..]);
      assert s.cur + [text[0]] + text[1..] == s.cur + text;
    }
  }

  lemma {:induction false} FeedQuoted(s: Scan, text: string)
    requires s.Scan? && s.quote.Some? && s.quote.value !in text
    ensures Feed(s, text) == s.(cur := s.cur + text)
    decreases text
  {
    if text == "" {
      assert s.cur + text == s.cur;
    } else {
      FeedQuoted(s.(cur := s.cur + [text[0]]), text[1..]);
      assert s.cur + [text[0]] + text[1..] == s.cur + text;
    }
  }

  lemma FeedPiece(s: Scan, p: Piece)
    requires s.Scan? && s.quote.None? && ValidPiece(p)
    ensures Feed(s, PieceText(p)) == s.(cur := s.cur + p.text, started := true)
  {
    match p
    case Plain(text) => FeedPlain(s, text);
    case Quoted(mark, text) =>
      var within := s.(quote := Some(mark), started := true);
      FeedConcat(s, [mark] + text, [mark]);
      FeedConcat(s, [mark], text);
      FeedOne(s, mark);
      FeedQuoted(within, text);
      FeedOne(within.(cur := within.cur + text), mark);
  }

  lemma FeedOne(s: Scan, c: char)
    ensures Feed(s, [c]) == Next(s, c)
  {
    assert [c][1..] == "";
  }

  lemma {:induction false} FeedWord(s: Scan, w: Word)
    requires s.Scan? && s.quote.None? && forall i :: 0 <= i < |w| ==> ValidPiece(w[i])
    ensures Feed(s, WordText(w)) == s.(cur := s.cur + WordValue(w), started := s.started || w != [])
  {
    hide Feed, Next, PieceText, ValidPiece;
    if w == [] {
      FeedNothing(s);
      assert s.cur + WordValue(w) == s.cur;
    } else {
      var before, last := w[..|w| - 1], w[|w| - 1];
      FeedWord(s, before);
      FeedConcat(s, WordText(before), PieceText(last));
      var middle := s.(cur := s.cur + WordValue(before), started := s.started || before != []);
      FeedPiece(middle, last);
      assert middle.cur + last.text == s.cur + WordValue(w);
    }
  }

  lemma {:induction false} FeedBlanks(s: Scan, gap: string)
    requires s.Scan? && s.quote.None? && AllBlank(gap) && (!s.started ==> s.cur == "")
    ensures Feed(s, gap) ==
            if gap != "" && s.started then s.(argv := s.argv + [s.cur], cur := "", started := false) else s
    decreases gap
  {
    if gap != "" {
      FeedBlanks(Next(s, gap[0]), gap[1..]);
    }
  }

  lemma {:induction false} FeedWords(words: seq<(string, Word)>)
    requires ValidSpelling(Spelling(words, ""))
    ensures var s := Feed(FRESH, WordsText(words));
            if words == [] then s == FRESH
            else s == Scan(Values(words[..|words| - 1]), WordValue(words[|words| - 1].1), true, None)
  {
    hide Next, Feed;
    if words == [] {
      FeedNothing(FRESH);
    } else {
      var before, gap, w := words[..|words| - 1], words[|words| - 1].0, words[|words| - 1].1;
      FeedWords(before);
      FeedConcat(FRESH, WordsText(before) + gap, WordText(w));
      FeedConcat(FRESH, WordsText(before), gap);
      FeedBlanks(Feed(FRESH, WordsText(before)), gap);
      FeedWord(Scan(Values(before), "", false, None), w);
      assert "" + WordValue(w) == WordValue(w);
    }
  }

  lemma FeedNothing(s: Scan)
    ensures Feed(s, "") == s
  {
  }

  /** Every spelling of a command is read as the words it spells. */
  lemma SpellingIsRead(sp: Spelling)
    requires ValidSpelling(sp) && sp.words != []
    ensures Tokenized(CommandText(sp)) == Tokens(Values(sp.words))
  {
    hide Feed, Next;
    FeedConcat(FRESH, WordsText(sp.words), sp.tail);
    FeedWords(sp.words);
    FeedBlanks(Feed(FRESH, WordsText(sp.words)), sp.tail);
  }

  /** One quoted piece for each character, in the mark that the character is not. */
  function QuoteToken(token: string): (w: Word)
    ensures |w| == |token| + 1 && ValidPiece(w[0])
  {
    [Quoted('\'', "")]
    + seq(|token|, i requires 0 <= i < |token| => Quoted(if token[i] == '\'' then '"' else '\'', [token[i]]))
  }

  function Quote(argv: seq<string>): Spelling {
    Spelling(seq(|argv|, i requires 0 <= i < |argv| => (" ", QuoteToken(argv[i]))), "")
  }

  lemma QuoteOneMore(token: string)
    requires token != ""
    ensures var w, last := QuoteToken(token), QuoteToken(token)[|token|];
            w[..|token|] == QuoteToken(token[..|token| - 1]) && last.text == [token[|token| - 1]] && ValidPiece(last)
  {
    assert QuoteToken(token)[..|token|] == QuoteToken(token[..|token| - 1]);
  }

  lemma {:induction false} QuotedTokenIsItself(token: string)
    ensures ValidWord(QuoteToken(token)) && WordValue(QuoteToken(token)) == token
  {
    hide ValidPiece;
    if token == "" {
      assert QuoteToken(token)[..0] == [];
    } else {
      var n := |token| - 1;
      QuotedTokenIsItself(token[..n]);
      QuoteOneMore(token);
      assert token == token[..n] + [token[n]];
    }
  }

  lemma {:induction false} QuotedValues(argv: seq<string>)
    ensures Values(Quote(argv).words) == argv
  {
    hide QuoteToken;
    if argv != [] {
      var n := |argv| - 1;
      QuotedValues(argv[..n]);
      assert Quote(argv).words[..n] == Quote(argv[..n]).words;
      QuotedTokenIsItself(argv[n]);
      assert argv == argv[..n] + [argv[n]];
    }
  }

  /** Every non-empty argv of arbitrary strings, empty ones included, can be written as a command. */
  lemma EveryArgvCanBeQuoted(argv: seq<string>)
    requires argv != []
    ensures Tokenized(CommandText(Quote(argv))) == Tokens(argv)
  {
    hide QuoteToken;
    forall i | 0 <= i < |argv| ensures ValidWord(QuoteToken(argv[i])) {
      QuotedTokenIsItself(argv[i]);
    }
    QuotedValues(argv);
    SpellingIsRead(Quote(argv));
  }

  // -------------------------------------------------------------- conservation

  /** The quote a text leaves open. */
  function OpenAfter(cmd: string): Option<char> {
    if cmd == "" then None
    else
      var open, ch := OpenAfter(cmd[..|cmd| - 1]), cmd[|cmd| - 1];
      if open.Some? then (if ch == open.value then None else open)
      else if IsMark(ch) then Some(ch) else None
  }

  /** The character at `i` opens or closes a quote. */
  predicate IsDelimiter(cmd: string, i: nat)
    requires i < |cmd|
  {
    var open := OpenAfter(cmd[..i]);
    if open.Some? then cmd[i] == open.value else IsMark(cmd[i])
  }

  predicate IsBareAt(cmd: string, i: nat)
    requires i < |cmd|
  {
    OpenAfter(cmd[..i]).None? && !IsMark(cmd[i])
  }

  /** The text without its delimiting quotes and its blanks outside quotes. */
  function Literal(cmd: string): string {
    if cmd == "" then ""
    else
      var n := |cmd| - 1;
      Literal(cmd[..n]) + (if IsDelimiter(cmd, n) || (IsBareAt(cmd, n) && IsBlank(cmd[n])) then "" else [cmd[n]])
  }

  predicate BareMeta(cmd: string, i: nat)
    requires i < |cmd|
  {
    IsBareAt(cmd, i) && IsMeta(cmd[i])
  }

  function Flatten(argv: seq<string>): string {
    if argv == [] then "" else Flatten(argv[..|argv| - 1]) + argv[|argv| - 1]
  }

  ghost predicate NoBareMeta(cmd: string) { forall i: nat | i < |cmd| :: !BareMeta(cmd, i) }

  /** `c` is the first metacharacter outside quotes. */
  ghost predicate FirstBareMeta(cmd: string, c: char) {
    exists i: nat | i < |cmd| :: BareMeta(cmd, i) && cmd[i] == c && forall j: nat | j < i :: !BareMeta(cmd, j)
  }

  /** What the loop knows after a text. */
  ghost predicate Conserves(cmd: string, s: Scan) {
    match s
    case Threw(c) => FirstBareMeta(cmd, c)
    case Scan(argv, cur, started, quote) =>
      && NoBareMeta(cmd)
      && Flatten(argv) + cur == Literal(cmd)
      && quote == OpenAfter(cmd)
      && (quote.Some? ==> started) && (!started ==> cur == "")
      && (argv == [] && !started <==> AllBlank(cmd))
  }

  lemma MetaStep(cmd: string, n: nat, c: char)
    requires n == |cmd| - 1
    ensures NoBareMeta(cmd) <==> NoBareMeta(cmd[..n]) && !BareMeta(cmd, n)
    ensures FirstBareMeta(cmd[..n], c) ==> FirstBareMeta(cmd, c)
    ensures NoBareMeta(cmd[..n]) && BareMeta(cmd, n) ==> FirstBareMeta(cmd, cmd[n])
  {
    assert forall i: nat | i < n :: cmd[..n][..i] == cmd[..i];
    assert forall i: nat | i < n :: BareMeta(cmd[..n], i) <==> BareMeta(cmd, i);
  }

  lemma OpenStep(cmd: string, n: nat)
    requires n == |cmd| - 1
    ensures var open, ch := OpenAfter(cmd[..n]), cmd[n];
            OpenAfter(cmd) == if open.Some? then (if ch == open.value then None else open)
                              else if IsMark(ch) then Some(ch) else None
  {
  }

  lemma LiteralStep(cmd: string, n: nat)
    requires n == |cmd| - 1
    ensures var open, ch := OpenAfter(cmd[..n]), cmd[n];
            && Literal(cmd) == Literal(cmd[..n])
                               + (if (if open.Some? then ch == open.value else IsMark(ch) || IsBlank(ch)) then ""
                                  else [ch])
            && (BareMeta(cmd, n) <==> open.None? && !IsMark(ch) && !IsBlank(ch) && IsMeta(ch))
  {
    hide OpenAfter;
  }

  lemma BlankStep(cmd: string, n: nat)
    requires n == |cmd| - 1
    ensures AllBlank(cmd) <==> AllBlank(cmd[..n]) && IsBlank(cmd[n])
    ensures IsMark(cmd[n]) ==> !IsBlank(cmd[n])
  {
  }

  lemma FlattenStep(argv: seq<string>, token: string)
    ensures Flatten(argv + [token]) == Flatten(argv) + token && argv + [token] != []
  {
    assert (argv + [token])[..|argv|] == argv;
  }

  lemma ConservesStep(cmd: string, n: nat, s: Scan)
    requires n == |cmd| - 1 && Conserves(cmd[..n], s)
    ensures Conserves(cmd, Next(s, cmd[n]))
  {
    hide NoBareMeta, FirstBareMeta, BareMeta, OpenAfter, Literal, Flatten, AllBlank, IsMark, IsBlank, IsMeta;
    MetaStep(cmd, n, if s.Threw? then s.c else cmd[n]);
    OpenStep(cmd, n);
    LiteralStep(cmd, n);
    BlankStep(cmd, n);
    if s.Scan? {
      FlattenStep(s.argv, s.cur);
      assert Flatten(s.argv) + (s.cur + [cmd[n]]) == Flatten(s.argv) + s.cur + [cmd[n]];
    }
  }

  lemma {:induction false} ScanConserves(cmd: string)
    ensures Conserves(cmd, Feed(FRESH, cmd))
  {
    hide Conserves, Next;
    if cmd == "" {
      NothingConserved();
    } else {
      var n := |cmd| - 1;
      ScanConserves(cmd[..n]);
      assert cmd == cmd[..n] + [cmd[n]];
      FeedConcat(FRESH, cmd[..n], [cmd[n]]);
      FeedOne(Feed(FRESH, cmd[..n]), cmd[n]);
      ConservesStep(cmd, n, Feed(FRESH, cmd[..n]));
    }
  }

  lemma NothingConserved()
    ensures Conserves("", FRESH)
  {
  }

  /** The tokens, run together, are the command without its delimiting quotes and unquoted blanks. A
      command is refused exactly for a metacharacter outside quotes (the first one is named), for a
      quote left open, or for holding nothing but blanks. */
  lemma TokensConserve(cmd: string)
    ensures var result := Tokenized(cmd);
            && (result.Metacharacter? ==> FirstBareMeta(cmd, result.c))
            && (result.UnclosedQuote? ==> OpenAfter(cmd).Some? && NoBareMeta(cmd))
            && (result.EmptyCommand? ==> AllBlank(cmd))
            && (result.Tokens? ==>
                  && result.argv != [] && Flatten(result.argv) == Literal(cmd)
                  && OpenAfter(cmd).None? && !AllBlank(cmd) && NoBareMeta(cmd))
  {
    hide Next, BareMeta, Literal;
    ScanConserves(cmd);
    var s := Feed(FRESH, cmd);
    if s.Scan? && s.started {
      assert (s.argv + [s.cur])[..|s.argv|] == s.argv;
    }
  }

  // ------------------------------------------------------------ where it splits

  /** The tokens of a text that may hold none. */
  function TokensOf(r: Result): seq<string> { if r.Tokens? then r.argv else [] }

  lemma {:induction false} FeedBehind(done: seq<string>, s: Scan, cmd: string)
    requires s.Scan?
    ensures var t := Feed(s, cmd);
            Feed(s.(argv := done + s.argv), cmd) == if t.Threw? then t else t.(argv := done + t.argv)
    decreases cmd
  {
    if cmd != "" {
      var t := Next(s, cmd[0]);
      if t.Threw? {
        StaysThrown(t.c, cmd[1..]);
      } else {
        assert done + (s.argv + [s.cur]) == done + s.argv + [s.cur];
        FeedBehind(done, t, cmd[1..]);
      }
    }
  }

  /** A blank outside quotes ends a token, and nothing else does: both sides are read as if alone. */
  lemma SplitsAtBlank(a: string, blank: char, b: string)
    requires IsBlank(blank) && (Tokenized(a).Tokens? || Tokenized(a) == EmptyCommand)
    requires Tokenized(b).Tokens? || Tokenized(b) == EmptyCommand
    ensures TokensOf(Tokenized(a + [blank] + b)) == TokensOf(Tokenized(a)) + TokensOf(Tokenized(b))
  {
    FeedConcat(FRESH, a + [blank], b);
    FeedConcat(FRESH, a, [blank]);
    FeedOne(Feed(FRESH, a), blank);
    ScanConserves(a);
    var s := Feed(FRESH, a);
    var done := TokensOf(Tokenized(a));
    assert Next(s, blank) == Scan(done, "", false, None);
    assert done + [] == done;
    FeedBehind(done, FRESH, b);
    var t := Feed(FRESH, b);
    assert done + (t.argv + [t.cur]) == done + t.argv + [t.cur];
  }
}
