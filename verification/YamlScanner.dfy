/** The token scanner of the YAML library: its queue, simple keys and indentation stack, over the text as bytes. */
module YamlScanner {
  import opened Bytes
  import opened YamlText
  import opened YamlTokens
  import Q = YamlQuoted

  /** What the dispatcher finds at a position. */
  datatype Lexeme =
    | End | DirectiveLine | DocumentMarker(start: bool)
    | FlowOpen(sequence: bool) | FlowClose(isSequence: bool) | Comma | Dash | QuestionMark | Colon
    | AliasName | AnchorName | TagName | BlockScalar(literal: bool) | QuotedScalar(single: bool) | PlainScalar
    | Invalid

  /**
   * Where the scanning of a token whose text another function scans stops, the end of the token, and whether that
   * leaves simple keys allowed.
   */
  datatype Lexed = LexError | Lexed(pos: nat, mark: Mark, end: Mark, allow: bool)

  type Lexer = (Lexeme, nat, Mark, int, nat) -> Lexed

  /**
   * What the scanning functions have in common: a token takes at least one character; anchors and tags stay on their
   * line; only a plain scalar with a line break behind it allows a key; outside flow collections it otherwise stops
   * behind the indentation; and a block scalar takes the rest of its line.
   */
  predicate Fits(s: bytes, x: Lexeme, pos: nat, mark: Mark, indent: int, flow: nat, r: Lexed) {
    r.Lexed? ==>
      && pos < r.pos <= |s| && mark.Precedes(r.mark)
      && (x.AliasName? || x.AnchorName? || x.TagName? ==> r.mark.line == mark.line)
      && (r.allow ==> x.PlainScalar? && r.mark.line > mark.line)
      && (x.PlainScalar? && flow == 0 && r.mark.line > mark.line ==> r.allow || r.mark.column > indent)
      && (x.BlockScalar? ==> r.mark.line > mark.line || At0(s, r.pos) == 0)
  }

  lemma FitsMeans(s: bytes, x: Lexeme, pos: nat, mark: Mark, indent: int, flow: nat, r: Lexed)
    requires Fits(s, x, pos, mark, indent, flow, r) && r.Lexed?
    ensures pos < r.pos <= |s| && mark.Precedes(r.mark)
  {
  }

  ghost predicate Lexes(lexer: Lexer, s: bytes) {
    forall x: Lexeme, pos: nat, mark: Mark, indent: int, flow: nat ::
      Fits(s, x, pos, mark, indent, flow, lexer(x, pos, mark, indent, flow))
  }

  /** Double-quoted scalars are scanned as the scanning function of those scalars says, and counted as the text is. */
  ghost predicate LexesQuoted(lexer: Lexer, s: bytes) {
    forall pos: nat, mark: Mark, indent: int, flow: nat ::
      Agree(s, pos, mark, lexer(QuotedScalar(false), pos, mark, indent, flow), Q.ScanWord(s, pos + 1, mark.column + 1))
  }

  predicate Agree(s: bytes, pos: nat, mark: Mark, r: Lexed, q: Q.Scanned) {
    if q.Scanned? then r.Lexed? && r.pos == q.end && r.mark == Moved(s, mark, pos, q.end, false) else r.LexError?
  }

  // ----- marks -----

  /**
   * The mark at q, from the mark at p: a line break begins a line, and any other byte takes a column; in a gap between
   * tokens a byte order mark at the beginning of a line takes one.
   */
  function Moved(s: bytes, m: Mark, p: nat, q: nat, gap: bool): Mark
    decreases if p < q then q - p else 0
  {
    if p >= q then m
    else if gap && m.column == 0 && IsBom(s, p) then Moved(s, Mark(m.index + 1, m.line, m.column + 1), p + 3, q, gap)
    else if IsBreak(s, p) then Moved(s, NextLine(s, m, p), p + BreakWidth(s, p), q, gap)
    else Moved(s, Mark(m.index + 1, m.line, m.column + 1), p + 1, q, gap)
  }

  /** Behind the line break at p; CR LF counts as two characters. */
  function NextLine(s: bytes, m: Mark, p: nat): Mark {
    Mark(m.index + if At0(s, p) == CR && At0(s, p + 1) == LF then 2 else 1, m.line + 1, 0)
  }

  predicate IsBom(s: bytes, p: nat) {
    At0(s, p) == 0xEF && At0(s, p + 1) == 0xBB && At0(s, p + 2) == 0xBF
  }

  /** Having got from m at p to m' at p' changes nothing for what comes. */
  ghost predicate SameMarks(s: bytes, m: Mark, p: nat, m': Mark, p': nat) {
    p <= p' && forall q: nat | q >= p' :: Moved(s, m, p, q, true) == Moved(s, m', p', q, true)
  }

  lemma SameMarksJoin(s: bytes, m: Mark, p: nat, m': Mark, p': nat, m'': Mark, p'': nat)
    requires SameMarks(s, m, p, m', p') && SameMarks(s, m', p', m'', p'')
    ensures SameMarks(s, m, p, m'', p'')
  {
    hide Moved;
  }

  function Across(m: Mark, n: nat): Mark {
    Mark(m.index + n, m.line, m.column + n)
  }

  /** n bytes of a line. */
  lemma {:induction false} LineMarks(s: bytes, m: Mark, p: nat, n: nat)
    requires (forall i | p <= i < p + n :: !IsBreak(s, i)) && (n > 0 && m.column == 0 ==> !IsBom(s, p))
    ensures SameMarks(s, m, p, Across(m, n), p + n)
    decreases n
  {
    hide IsBreak, IsBom;
    if n > 0 {
      LineMarks(s, Across(m, 1), p + 1, n - 1);
      forall q: nat | q >= p + 1 ensures Moved(s, m, p, q, true) == Moved(s, Across(m, 1), p + 1, q, true) {}
      SameMarksJoin(s, m, p, Across(m, 1), p + 1, Across(m, n), p + n);
    }
  }

  lemma BreakMarks(s: bytes, m: Mark, p: nat)
    requires IsBreak(s, p)
    ensures SameMarks(s, m, p, NextLine(s, m, p), p + BreakWidth(s, p))
  {
  }

  lemma BomMarks(s: bytes, m: Mark, p: nat)
    requires m.column == 0 && IsBom(s, p)
    ensures SameMarks(s, m, p, Across(m, 1), p + 3)
  {
  }

  lemma BreakMoves(s: bytes, p: nat)
    requires IsBreak(s, p)
    ensures 0 < BreakWidth(s, p)
  {
  }

  lemma StartMarks(s: bytes, m: Mark, p: nat)
    ensures SameMarks(s, m, p, m, p) && IsGap(s, p, p)
  {
  }

  lemma EndMarks(s: bytes, m: Mark, p: nat, m': Mark, p': nat)
    requires SameMarks(s, m, p, m', p')
    ensures m' == Moved(s, m, p, p', true)
  {
  }

  lemma BlanksAreNoBreaks(s: bytes, p: nat, q: nat)
    requires forall i | p <= i < q :: IsBlank(s, i)
    ensures (forall i | p <= i < q :: !IsBreak(s, i)) && (p < q ==> !IsBom(s, p))
  {
    forall i | p <= i < q ensures !IsBreak(s, i) {
      assert IsBlank(s, i);
    }
    assert p < q ==> IsBlank(s, p);
  }

  predicate BlankZ(s: bytes, p: nat) {
    IsBlank(s, p) || IsBreak(s, p) || At0(s, p) == 0
  }

  predicate Triple(s: bytes, p: nat, c: byte) {
    At0(s, p) == c && At0(s, p + 1) == c && At0(s, p + 2) == c && BlankZ(s, p + 3)
  }

  const INDICATORS: set<byte> := {45, 63, 58, 44, 91, 93, 123, 125, 35, 38, 42, 33, 124, 62, 39, 34, 37, 64, 96}

  predicate StartsPlain(s: bytes, p: nat, flow: nat) {
    var c := At0(s, p);
    || !(BlankZ(s, p) || c in INDICATORS)
    || (c == 45 && !IsBlank(s, p + 1))
    || (flow == 0 && (c == 63 || c == 58) && !BlankZ(s, p + 1))
  }

  /** The tests of yaml_parser_fetch_next_token, in their order. */
  function Classify(s: bytes, p: nat, column: nat, flow: nat): (x: Lexeme)
    ensures At0(s, p) == 0 <==> x == End
    ensures x.DocumentMarker? ==> p + 3 <= |s|
  {
    var c := At0(s, p);
    if c == 0 then End
    else if column == 0 && c == 37 then DirectiveLine
    else if column == 0 && Triple(s, p, 45) then DocumentMarker(true)
    else if column == 0 && Triple(s, p, 46) then DocumentMarker(false)
    else if c == 91 then FlowOpen(true)
    else if c == 123 then FlowOpen(false)
    else if c == 93 then FlowClose(true)
    else if c == 125 then FlowClose(false)
    else if c == 44 then Comma
    else if c == 45 && BlankZ(s, p + 1) then Dash
    else if c == 63 && (flow > 0 || BlankZ(s, p + 1)) then QuestionMark
    else if c == 58 && (flow > 0 || BlankZ(s, p + 1)) then Colon
    else if c == 42 then AliasName
    else if c == 38 then AnchorName
    else if c == 33 then TagName
    else if c == 124 && flow == 0 then BlockScalar(true)
    else if c == 62 && flow == 0 then BlockScalar(false)
    else if c == 39 then QuotedScalar(true)
    else if c == 34 then QuotedScalar(false)
    else if StartsPlain(s, p, flow) then PlainScalar
    else Invalid
  }

  ghost predicate NoKeyAt(keys: seq<SimpleKey>, number: nat) {
    forall i | 0 <= i < |keys| && keys[i].possible :: keys[i].number != number
  }

  // ----- between tokens -----

  /** The byte at i belongs to a comment that begins behind `from`. */
  predicate InComment(s: bytes, from: nat, i: nat) {
    exists j | from <= j <= i :: At0(s, j) == 35 && forall k | j <= k <= i :: !IsBreak(s, k)
  }

  /** The byte at i belongs to a line break or a byte order mark that begins behind `from`. */
  predicate InBreak(s: bytes, from: nat, i: nat) {
    exists j | from <= j <= i :: i < j + BreakWidth(s, j) || (IsBom(s, j) && i < j + 3)
  }

  /** Nothing but blanks, line breaks and comments. */
  ghost predicate IsGap(s: bytes, p: nat, q: nat) {
    forall i | p <= i < q :: IsBlank(s, i) || InBreak(s, p, i) || InComment(s, p, i)
  }

  lemma GapGrows(s: bytes, p: nat, q: nat, r: nat)
    requires IsGap(s, p, q) && p <= q <= r
    requires (forall i | q <= i < r :: IsBlank(s, i)) || r <= q + BreakWidth(s, q) || (IsBom(s, q) && r <= q + 3)
    ensures IsGap(s, p, r)
  {
    hide IsBlank, BreakWidth, IsBom, InComment;
  }

  lemma CommentGrows(s: bytes, p: nat, q: nat, r: nat)
    requires IsGap(s, p, q) && p <= q <= r && (q < r ==> At0(s, q) == 35) && forall k | q <= k < r :: !IsBreak(s, k)
    ensures IsGap(s, p, r)
  {
    hide IsBlank, BreakWidth, IsBom, InBreak, IsBreak;
  }

  /** A simple key on an earlier line, or too long. */
  predicate Stale(k: SimpleKey, mark: Mark) {
    k.possible && (k.mark.line < mark.line || k.mark.index + 1024 < mark.index)
  }

  function LineEnd(mark: Mark): Mark {
    if mark.column == 0 then mark else Mark(mark.index, mark.line + 1, 0)
  }

  /** n block collections end at the same place. */
  function Ends(n: nat, mark: Mark): (ts: seq<Token>)
    ensures |ts| == n
  {
    seq(n, i => Token(BlockEnd, mark, mark))
  }

  lemma OneMoreEnd(n: nat, mark: Mark)
    ensures Ends(n, mark) + [Token(BlockEnd, mark, mark)] == Ends(n + 1, mark)
  {
  }

  lemma NothingUnrolled(before: seq<int>, level: int, after: seq<int>, indent: int, column: int, all: seq<Token>,
      m: Mark)
    requires |after| <= |before| && before[..|after|] == after && indent == (before + [level])[|after|]
            && level <= column
    requires forall i | |after| < i <= |before| :: (before + [level])[i] > column
    ensures after == before && indent == level && all + Ends(|before| - |after|, m) == all
  {
    assert (before + [level])[|before|] == level;
  }

  lemma NoGapAtEnd(s: bytes, p: nat, q: nat)
    requires IsGap(s, p, q) && At0(s, p) == 0
    ensures q <= p
  {
    assert !IsBlank(s, p) && !InBreak(s, p, p) && !InComment(s, p, p);
  }

  /**
   * Where no block key can begin, the mark is behind the indentation, but for lines that began inside a quoted scalar
   * or a flow collection; on those, outside flow collections, no key is allowed before a stray comma.
   */
  predicate LinesOk(flow: nat, allowed: bool, indent: int, column: nat, inside: bool, comma: bool, atNul: bool) {
    && (flow > 0 || !allowed ==> indent < column || inside)
    && (flow == 0 && inside && !comma && !atNul ==> !allowed)
  }

  class Scanner {
    const buffer: bytes
    const lexer: Lexer
    var pos: nat
    var mark: Mark
    var indent: int
    var indents: seq<int>
    var flowLevel: nat
    var keys: seq<SimpleKey>
    var allowed: bool
    var tokens: seq<Token>
    var parsed: nat
    var available: bool
    var started: bool
    var ended: bool
    var error: bool
    /** All tokens handed out so far. */
    ghost var delivered: seq<Token>
    /** The end of the text has been turned into a token. */
    ghost var atEnd: bool
    /** The line of the mark began inside a quoted scalar, or inside a flow collection; a comma outside flow
        collections has been taken on it. */
    ghost var lineQuoted: bool
    ghost var lineFlow: bool
    ghost var lineComma: bool

    ghost function All(): seq<Token>
      reads `delivered, `tokens
    {
      delivered + tokens
    }

    /** The tokens so far begin as a stream does, and hold its end at most as the last one. */
    ghost predicate StreamOk()
      reads `delivered, `tokens, `atEnd, `ended
    {
      && (All() != [] ==> All()[0].kind == StreamStart)
      && (forall i | 0 <= i < |All()| :: All()[i].kind == StreamEnd <==> atEnd && i == |All()| - 1)
      && (ended <==> atEnd && tokens == [])
    }

    ghost predicate BlocksOk()
      reads `delivered, `tokens, `indents, `indent
    {
      IndentsOk(indents, indent) && Nested(All()) && Depth(All()) == |indents|
    }

    /** Everything but the keys. */
    ghost predicate Core()
      reads `delivered, `tokens, `atEnd, `ended, `indents, `indent, `pos, `parsed, `keys, `started, `flowLevel
    {
      && Lexes(lexer, buffer) && pos <= |buffer| && parsed == |delivered|
      && BlocksOk() && StreamOk()
      && |keys| == (if started then flowLevel + 1 else 0)
      && (started <==> All() != []) && (atEnd ==> started) && (!started ==> flowLevel == 0)
    }

    ghost predicate Valid()
      reads this
    {
      && Core() && KeysOk(keys, parsed, All(), mark)
      && (atEnd ==> forall i | 0 <= i < |keys| && keys[i].possible :: keys[i].mark.line < mark.line)
      && (atEnd && flowLevel == 0 ==> indents == [])
      && (available ==> tokens != [] && NoKeyAt(keys, parsed)) && LineOk()
    }

    /**
     * The line of the mark began inside a token or a flow collection, which are the places where a break allows no key.
     */
    ghost predicate Inside()
      reads `lineQuoted, `lineFlow
    {
      lineQuoted || lineFlow
    }

    /** What `LinesOk` says, of every state in the middle of the text. */
    ghost predicate LineOk()
      reads `flowLevel, `allowed, `indent, `mark, `pos, `started, `atEnd, `lineQuoted, `lineFlow, `lineComma
    {
      && (!started ==> !Inside())
      && (started && !atEnd ==>
        LinesOk(flowLevel, allowed, indent, mark.column, Inside(), lineComma, At0(buffer, pos) == 0))
    }

    /** At a token: collections and keys that its line and column end have been given up. */
    ghost predicate Poised()
      reads this
    {
      && LineOk() && At0(buffer, pos) != 0 && (flowLevel == 0 ==> indent <= mark.column)
      && forall i | 0 <= i < |keys| && keys[i].possible :: keys[i].mark.line == mark.line
    }

    /** In the middle of the text. */
    ghost predicate Working()
      reads `delivered, `tokens, `atEnd, `ended, `indents, `indent, `pos, `parsed, `keys, `started, `flowLevel, `mark,
        `available
    {
      Core() && started && !atEnd && !available && KeysOk(keys, parsed, All(), mark)
    }

    /** The same, when the next token may have been saved as a simple key. */
    ghost predicate Pending()
      reads `delivered, `tokens, `atEnd, `ended, `indents, `indent, `pos, `parsed, `keys, `started, `flowLevel, `mark,
        `available
    {
      Core() && started && !atEnd && !available && PendingOk(keys, parsed, All(), mark)
    }

    lemma IsWorking()
      requires Working() || Pending()
      ensures started && !atEnd && pos <= |buffer| && |keys| == flowLevel + 1
    {
      hide KeysOk, PendingOk;
    }

    /** What is left to do: it falls with every token that is fetched. */
    ghost function Left(): nat
      requires pos <= |buffer|
      reads this
    {
      |buffer| - pos + (if started then 0 else 1) + (if atEnd then 0 else 1)
    }

    constructor (buffer: bytes, lexer: Lexer)
      requires Lexes(lexer, buffer)
      ensures Valid() && !started && !error && !ended && !available && this.buffer == buffer && this.lexer == lexer
      ensures delivered == tokens == [] && pos == 0 && mark == Mark(0, 0, 0) && flowLevel == 0
      ensures !lineQuoted && !lineFlow && !lineComma
    {
      this.buffer, this.lexer := buffer, lexer;
      pos, mark, indent, indents, flowLevel, keys, allowed := 0, Mark(0, 0, 0), -1, [], 0, [], false;
      tokens, parsed, available, started, ended, error := [], 0, false, false, false, false;
      delivered, atEnd, lineQuoted, lineFlow, lineComma := [], false, false, false, false;
      new;
      assert All() == [];
      assert forall n: nat | n <= |All()| :: All()[..n] == [];
    }

    // ----- moving in the text -----

    method Skip()
      requires pos < |buffer|
      modifies `pos, `mark
      ensures pos == old(pos) + 1 && mark == Across(old(mark), 1)
    {
      pos, mark := pos + 1, Mark(mark.index + 1, mark.line, mark.column + 1);
    }

    method SkipLine()
      requires IsBreak(buffer, pos)
      modifies `pos, `mark, `lineQuoted, `lineFlow, `lineComma
      ensures pos == old(pos) + BreakWidth(buffer, old(pos)) <= |buffer|
              && mark == NextLine(buffer, old(mark), old(pos))
      ensures lineFlow == (flowLevel > 0) && !lineQuoted && !lineComma
    {
      var w := BreakWidth(buffer, pos);
      var crlf := At0(buffer, pos) == CR && At0(buffer, pos + 1) == LF;
      pos, mark := pos + w, Mark(mark.index + if crlf then 2 else 1, mark.line + 1, 0);
      lineQuoted, lineFlow, lineComma := false, flowLevel > 0, false;
    }

    /** A line is left for another one outside or inside a flow collection, or within a quoted scalar. */
    twostate predicate LineChanged(quoted: bool)
      reads `mark, `flowLevel, `lineQuoted, `lineFlow, `lineComma
    {
      if mark.line == old(mark).line
      then lineQuoted == old(lineQuoted) && lineFlow == old(lineFlow) && lineComma == old(lineComma)
      else lineQuoted == quoted && lineFlow == (old(flowLevel) > 0) && !lineComma
    }

    /** yaml_parser_scan_to_next_token. */
    method ScanToNextToken()
      requires pos <= |buffer|
      modifies `pos, `mark, `allowed, `lineQuoted, `lineFlow, `lineComma
      ensures old(pos) <= pos <= |buffer| && (mark == old(mark) || old(mark).Precedes(mark))
      ensures IsGap(buffer, old(pos), pos) && mark == Moved(buffer, old(mark), old(pos), pos, true)
      ensures !IsBreak(buffer, pos) && At0(buffer, pos) != SPACE && At0(buffer, pos) != 35
      ensures flowLevel > 0 || !allowed ==> At0(buffer, pos) != TAB
      ensures allowed == (old(allowed) || (flowLevel == 0 && mark.line > old(mark).line))
      ensures LineChanged(false)
    {
      hide IsBreak, IsBom, IsBlank, IsGap, SameMarks, Moved;
      StartMarks(buffer, mark, pos);
      while true
        invariant old(pos) <= pos <= |buffer| && (mark == old(mark) || old(mark).Precedes(mark))
        invariant IsGap(buffer, old(pos), pos) && SameMarks(buffer, old(mark), old(pos), mark, pos)
        invariant mark.line >= old(mark).line
                && allowed == (old(allowed) || (flowLevel == 0 && mark.line > old(mark).line))
        invariant LineChanged(false)
        decreases |buffer| - pos
      {
        ghost var m, here := mark, pos;
        SkipBom();
        GapGrows(buffer, old(pos), here, pos);
        SameMarksJoin(buffer, old(mark), old(pos), m, here, mark, pos);
        ghost var m', blanks := mark, pos;
        SkipBlanks();
        GapGrows(buffer, old(pos), blanks, pos);
        SameMarksJoin(buffer, old(mark), old(pos), m', blanks, mark, pos);
        ghost var m'', comment := mark, pos;
        SkipComment();
        CommentGrows(buffer, old(pos), comment, pos);
        SameMarksJoin(buffer, old(mark), old(pos), m'', comment, mark, pos);
        if !IsBreak(buffer, pos) {
          EndMarks(buffer, old(mark), old(pos), mark, pos);
          return;
        }
        ghost var last, line := mark, pos;
        SkipLine();
        BreakMoves(buffer, line);
        GapGrows(buffer, old(pos), line, pos);
        BreakMarks(buffer, last, line);
        SameMarksJoin(buffer, old(mark), old(pos), last, line, mark, pos);
        if flowLevel == 0 {
          allowed := true;
        }
      }
    }

    /** A byte order mark at the beginning of a line. */
    method SkipBom()
      requires pos <= |buffer|
      modifies `pos, `mark
      ensures pos == old(pos) || (IsBom(buffer, old(pos)) && pos == old(pos) + 3 <= |buffer|)
      ensures mark == old(mark) || (mark == Across(old(mark), 1) && pos > old(pos))
      ensures SameMarks(buffer, old(mark), old(pos), mark, pos) && (mark.column == 0 ==> !IsBom(buffer, pos))
    {
      hide Moved;
      if mark.column == 0 && IsBom(buffer, pos) {
        BomMarks(buffer, mark, pos);
        pos, mark := pos + 3, Mark(mark.index + 1, mark.line, mark.column + 1);
      }
    }

    /** Spaces, and tabs where no simple key can begin. */
    method SkipBlanks()
      requires pos <= |buffer|
      modifies `pos, `mark
      ensures old(pos) <= pos <= |buffer| && forall i | old(pos) <= i < pos :: IsBlank(buffer, i)
      ensures At0(buffer, pos) != SPACE && (flowLevel > 0 || !allowed ==> At0(buffer, pos) != TAB)
      ensures mark == Across(old(mark), pos - old(pos)) && SameMarks(buffer, old(mark), old(pos), mark, pos)
    {
      while At0(buffer, pos) == SPACE || ((flowLevel > 0 || !allowed) && At0(buffer, pos) == TAB)
        invariant old(pos) <= pos <= |buffer| && forall i | old(pos) <= i < pos :: IsBlank(buffer, i)
        invariant mark == Across(old(mark), pos - old(pos))
        decreases |buffer| - pos
      {
        Skip();
      }
      BlanksAreNoBreaks(buffer, old(pos), pos);
      LineMarks(buffer, old(mark), old(pos), pos - old(pos));
    }

    /** A comment, up to the end of its line. */
    method SkipComment()
      requires pos <= |buffer|
      modifies `pos, `mark
      ensures old(pos) <= pos <= |buffer| && forall i | old(pos) <= i < pos :: !IsBreak(buffer, i)
      ensures if old(At0(buffer, pos)) == 35 then IsBreak(buffer, pos) || At0(buffer, pos) == 0 else pos == old(pos)
      ensures mark == Across(old(mark), pos - old(pos)) && SameMarks(buffer, old(mark), old(pos), mark, pos)
    {
      if At0(buffer, pos) == 35 {
        while !IsBreak(buffer, pos) && At0(buffer, pos) != 0
          invariant old(pos) <= pos <= |buffer| && forall i | old(pos) <= i < pos :: !IsBreak(buffer, i)
          invariant mark == Across(old(mark), pos - old(pos))
          decreases |buffer| - pos
        {
          Skip();
        }
      }
      LineMarks(buffer, old(mark), old(pos), pos - old(pos));
    }

    // ----- the queue -----

    lemma Appended(t: Token)
      requires BlocksOk() && StreamOk() && !atEnd && t.kind != StreamEnd && Depth(All()) + Weight(t) >= 0
      requires All() == [] ==> t.kind == StreamStart
      ensures var all := All() + [t];
              && all == delivered + (tokens + [t])
              && Nested(all) && Depth(all) == Depth(All()) + Weight(t)
              && all[0].kind == StreamStart && forall i | 0 <= i < |all| :: all[i].kind != StreamEnd
    {
      NestedAppend(All(), t);
    }

    /** One more token; the scanner then stands behind it. */
    method Append(t: Token, p: nat, m: Mark)
      requires Pending() && t.kind != StreamEnd && Weight(t) == 0 && t.start == mark
      requires p <= |buffer| && mark.Precedes(m)
      modifies `pos, `mark, `tokens
      ensures Working() && pos == p && mark == m && All() == old(All()) + [t]
    {
      hide Nested, KeysOk, PendingOk, Depth, IndentsOk, Lexes, Mark.Precedes;
      ghost var all := All();
      Appended(t);
      TokenAppended(keys, parsed, all, t, mark, m);
      pos, mark, tokens := p, m, tokens + [t];
      assert All() == all + [t];
    }

    /** A one-character token. */
    method TakeIndicator(kind: Kind)
      requires Pending() && pos < |buffer| && kind != StreamEnd && Weight(Token(kind, mark, mark)) == 0
      modifies `pos, `mark, `tokens
      ensures Working() && pos == old(pos) + 1 && mark == Across(old(mark), 1)
      ensures All() == old(All()) + [Token(kind, old(mark), mark)]
    {
      hide Scanner.Working, Scanner.Pending, Scanner.Core;
      Append(Token(kind, mark, Across(mark, 1)), pos + 1, Across(mark, 1));
    }

    /** What the lexer says about a token at the current position. */
    function Lex(x: Lexeme, level: int): Lexed
      reads `pos, `mark, `flowLevel
    {
      lexer(x, pos, mark, level, flowLevel)
    }

    /** A token whose text the lexer has scanned: where the scanner then stands, and whether a key is allowed there. */
    twostate predicate Took(r: Lexed, x: Lexeme, allowedBefore: bool)
      reads this
    {
      && r.Lexed? && pos == r.pos && mark == r.mark && allowed == (allowedBefore || r.allow)
      && LineChanged(x.QuotedScalar?)
    }

    lemma PendingFits(x: Lexeme)
      requires Pending()
      ensures Fits(buffer, x, pos, mark, indent, flowLevel, Lex(x, indent))
    {
      hide PendingOk, Nested, Depth, IndentsOk, Fits;
    }

    /** A token whose text the lexer scans. */
    method TakeLexed(x: Lexeme, kind: Kind) returns (ok: bool)
      requires Pending() && kind != StreamEnd && Weight(Token(kind, mark, mark)) == 0
      modifies `pos, `mark, `tokens, `allowed, `error, `lineQuoted, `lineFlow, `lineComma
      ensures ok <==> old(Lex(x, indent)).Lexed?
      ensures if ok then Working() && pos > old(pos) && error == old(error) else error
      ensures ok ==> Took(old(Lex(x, indent)), x, old(allowed))
      ensures ok ==> Fits(buffer, x, old(pos), old(mark), indent, flowLevel, old(Lex(x, indent)))
      ensures ok ==> All() == old(All()) + [Token(kind, old(mark), old(Lex(x, indent)).end)]
    {
      hide Fits, Mark.Precedes, Scanner.Working, Scanner.Pending, Scanner.Core;
      PendingFits(x);
      var r := lexer(x, pos, mark, indent, flowLevel);
      if r.LexError? {
        error := true;
        return false;
      }
      FitsMeans(buffer, x, pos, mark, indent, flowLevel, r);
      var line := mark.line;
      Append(Token(kind, mark, r.end), r.pos, r.mark);
      if r.allow {
        allowed := true;
      }
      if mark.line != line {
        lineQuoted, lineFlow, lineComma := x.QuotedScalar?, flowLevel > 0, false;
      }
      ok := true;
    }

    // ----- simple keys -----

    /** The innermost simple key is one that must turn out to be a key. */
    predicate KeyIsDue()
      reads `keys
    {
      keys != [] && keys[|keys| - 1].possible && keys[|keys| - 1].required
    }

    /** The keys with the innermost one given up. */
    function Without(): seq<SimpleKey>
      reads `keys
    {
      if keys == [] then [] else keys[|keys| - 1 := keys[|keys| - 1].(possible := false)]
    }

    /** yaml_parser_stale_simple_keys. */
    method StaleSimpleKeys() returns (ok: bool)
      modifies `keys, `error
      ensures ok <==> forall i | 0 <= i < |old(keys)| && Stale(old(keys)[i], mark) :: !old(keys)[i].required
      ensures if ok then error == old(error) else error
      ensures |keys| == |old(keys)| && forall i | 0 <= i < |keys| :: keys[i].possible ==> keys[i] == old(keys)[i]
      ensures ok ==> forall i | 0 <= i < |keys| ::
        keys[i] == if Stale(old(keys)[i], mark) then old(keys)[i].(possible := false) else old(keys)[i]
    {
      for i := 0 to |keys|
        invariant |keys| == |old(keys)| && error == old(error)
        invariant forall j | 0 <= j < i ::
          keys[j] == if Stale(old(keys)[j], mark) then old(keys)[j].(possible := false) else old(keys)[j]
        invariant forall j | i <= j < |keys| :: keys[j] == old(keys)[j]
        invariant forall j | 0 <= j < i && Stale(old(keys)[j], mark) :: !old(keys)[j].required
      {
        var k := keys[i];
        if k.possible && (k.mark.line < mark.line || k.mark.index + 1024 < mark.index) {
          if k.required {
            error := true;
            return false;
          }
          keys := keys[i := k.(possible := false)];
        }
      }
      ok := true;
    }

    /** yaml_parser_remove_simple_key. */
    method RemoveSimpleKey() returns (ok: bool)
      requires Working()
      modifies `keys, `error
      ensures ok <==> !old(KeyIsDue())
      ensures if ok then Working() && error == old(error) && keys == old(Without()) else error
    {
      var top := |keys| - 1;
      var k := keys[top];
      if k.possible && k.required {
        error := true;
        return false;
      }
      FewerKeys(keys, keys[top := k.(possible := false)], parsed, All(), mark);
      keys := keys[top := k.(possible := false)];
      ok := true;
    }

    /**
     * The assertion of the library fails: a token at the column of the block collection, and no key is allowed there.
     */
    predicate AssertionFails()
      reads this
    {
      flowLevel == 0 && indent == mark.column && !allowed
    }

    predicate CanSave()
      reads this
    {
      !AssertionFails() && !(allowed && KeyIsDue())
    }

    /** The keys with the place of the next token saved as the innermost one, if a key is allowed there. */
    ghost function Saved(): seq<SimpleKey>
      reads this
    {
      if !allowed || keys == [] then keys
      else keys[|keys| - 1 := SimpleKey(true, flowLevel == 0 && indent == mark.column, |All()|, mark)]
    }

    /** yaml_parser_save_simple_key; that the assertion fails is told from an error. */
    method SaveSimpleKey() returns (ok: bool, asserted: bool)
      requires Working()
      modifies `keys, `error
      ensures asserted <==> !old(AssertionFails())
      ensures old(Poised()) && !asserted ==> old(Inside())
      ensures old(Poised() && flowLevel == 0 && indent == mark.column && Inside() && !lineComma) ==> !asserted
      ensures ok <==> old(CanSave())
      ensures if ok then Pending() && error == old(error) && keys == old(Saved()) else error
    {
      hide Nested, KeysOk, PendingOk, Depth, IndentsOk, Lexes;
      var required := flowLevel == 0 && indent == mark.column;
      asserted := allowed || !required;
      if !asserted {
        error := true;
        return false, false;
      }
      if allowed {
        var key := SimpleKey(true, required, parsed + |tokens|, mark);
        ok := RemoveSimpleKey();
        if !ok {
          return;
        }
        KeySaved(keys, parsed, All(), mark, required);
        keys := keys[|keys| - 1 := key];
      } else {
        OkIsPending(keys, parsed, All(), mark);
      }
      ok := true;
    }

    // ----- flow levels and indentation -----

    /** yaml_parser_increase_flow_level. */
    method IncreaseFlowLevel()
      requires Pending()
      modifies `keys, `flowLevel
      ensures Pending() && flowLevel == old(flowLevel) + 1 && keys == old(keys) + [NO_KEY]
    {
      LevelAdded(keys, parsed, All(), mark);
      keys, flowLevel := keys + [NO_KEY], flowLevel + 1;
    }

    /** yaml_parser_decrease_flow_level. */
    method DecreaseFlowLevel()
      requires Working()
      modifies `keys, `flowLevel
      ensures Working() && flowLevel == if old(flowLevel) > 0 then old(flowLevel) - 1 else 0
      ensures keys == if old(flowLevel) > 0 then old(keys)[..|old(keys)| - 1] else old(keys)
    {
      if flowLevel > 0 {
        FewerKeys(keys, keys[..|keys| - 1], parsed, All(), mark);
        keys, flowLevel := keys[..|keys| - 1], flowLevel - 1;
      }
    }

    lemma InsertedAt(n: nat, t: Token)
      requires parsed == |delivered| <= n <= |All()|
      ensures delivered + Insert(tokens, n - parsed, t) == Insert(All(), n, t)
    {
    }

    /** yaml_parser_roll_indent at the end of the queue. */
    method RollIndent(kind: Kind)
      requires Working() && (kind == BlockSequenceStart || kind == BlockMappingStart)
      modifies `tokens, `indent, `indents
      ensures Working()
      ensures if flowLevel == 0 && old(indent) < mark.column
              then indents == old(indents) + [old(indent)] && indent == mark.column
              else indents == old(indents) && indent == old(indent)
      ensures All() == old(All()) + if flowLevel == 0 && old(indent) < mark.column then [Token(kind, mark, mark)]
              else []
    {
      hide Nested, KeysOk, Depth, IndentsOk, Lexes;
      if flowLevel == 0 && indent < mark.column {
        ghost var all := All();
        var t := Token(kind, mark, mark);
        IndentPushed(indents, indent, mark.column);
        Appended(t);
        OtherAppended(keys, parsed, all, t, mark);
        indents, indent, tokens := indents + [indent], mark.column, tokens + [t];
        assert All() == all + [t];
      } else {
        assert All() == old(All()) + [];
      }
    }

    /** yaml_parser_unroll_indent. */
    method UnrollIndent(column: int)
      requires Working() && column >= -1
      modifies `tokens, `indent, `indents
      ensures Working()
      ensures flowLevel > 0 ==> unchanged(this)
      ensures flowLevel == 0 ==> |indents| <= |old(indents)| && old(indents)[..|indents|] == indents
                                 && indent == (old(indents) + [old(indent)])[|indents|] <= column
                                 && forall i | |indents| < i <= |old(indents)| ::
                                   (old(indents) + [old(indent)])[i] > column
      ensures flowLevel == 0 ==> All() == old(All()) + Ends(|old(indents)| - |indents|, mark)
      ensures flowLevel == 0 && column == -1 ==> indents == [] && indent == -1
    {
      hide Nested, KeysOk, Depth, IndentsOk, Lexes, Scanner.Core, Ends;
      ghost var levels := indents + [indent];
      if flowLevel > 0 {
        return;
      }
      while indent > column
        invariant Working() && flowLevel == 0
        invariant |indents| <= |old(indents)| && old(indents)[..|indents|] == indents && indent == levels[|indents|]
        invariant forall i | |indents| < i <= |old(indents)| :: levels[i] > column
        invariant All() == old(All()) + Ends(|old(indents)| - |indents|, mark)
        decreases indent
      {
        IndentIsSaved();
        OneMoreEnd(|old(indents)| - |indents|, mark);
        EndBlock();
      }
      IndentIsSaved();
    }

    /** Where a block collection is open the level outside it is saved. */
    lemma IndentIsSaved()
      requires Working()
      ensures indent >= -1 && (indent > -1 <==> indents != [])
    {
      hide KeysOk, Nested, Depth;
    }

    /** The innermost block collection ends. */
    method EndBlock()
      requires Working() && indents != []
      modifies `tokens, `indent, `indents
      ensures Working() && indent == old(indents)[|old(indents)| - 1] < old(indent)
      ensures indents == old(indents)[..|old(indents)| - 1]
      ensures All() == old(All()) + [Token(BlockEnd, mark, mark)]
    {
      hide Nested, KeysOk, Depth, Lexes;
      ghost var all := All();
      var t := Token(BlockEnd, mark, mark);
      IndentPopped(indents, indent);
      Appended(t);
      OtherAppended(keys, parsed, all, t, mark);
      tokens, indent, indents := tokens + [t], indents[|indents| - 1], indents[..|indents| - 1];
      assert All() == all + [t];
    }

    // ----- lines -----

    /**
     * A token that stays on its line, with a key allowed outside flow collections only where one was or behind a comma.
     */
    twostate lemma KeepsLine()
      requires old(Poised() && started && !atEnd) && started && !atEnd
      requires mark.line == old(mark).line && mark.column > old(mark).column && (old(lineComma) ==> lineComma)
      requires unchanged(`lineQuoted, `lineFlow) && (indent == old(indent) || indent < mark.column)
      requires flowLevel == 0 && allowed ==> old(flowLevel) == 0 && (old(allowed) || lineComma)
      ensures LineOk()
    {
    }

    /** A token that the lexer has scanned. */
    twostate lemma KeepsLines(x: Lexeme)
      requires old(Poised() && started && !atEnd) && started && !atEnd && flowLevel == old(flowLevel)
      requires x.AliasName? || x.AnchorName? || x.TagName? || x.QuotedScalar? || x.PlainScalar? || x.BlockScalar?
               || x.DirectiveLine?
      requires indent <= old(indent) && (x.DirectiveLine? && flowLevel == 0 ==> indent == -1)
      requires var r := lexer(x, old(pos), old(mark), indent, flowLevel);
               Took(r, x, x.BlockScalar?) && Fits(buffer, x, old(pos), old(mark), indent, flowLevel, r)
      ensures LineOk()
    {
    }

    lemma WorkingIsValid()
      requires Working() && LineOk()
      ensures Valid() && started && !atEnd && !available
    {
      hide KeysOk, Nested, Depth, IndentsOk, Lexes, LinesOk;
    }

    // ----- the token fetchers -----

    /** The tokens that end all block collections, outside flow collections. */
    function Ending(m: Mark): seq<Token>
      reads this
    {
      if flowLevel == 0 then Ends(|indents|, m) else []
    }

    /** The token that begins a block collection, if the current column is behind the indentation. */
    function Opening(kind: Kind): seq<Token>
      reads this
    {
      if flowLevel == 0 && indent < mark.column then [Token(kind, mark, mark)] else []
    }

    /** The indentation once that collection has begun. */
    twostate predicate Rolled()
      reads this
    {
      if old(flowLevel) == 0 && old(indent) < old(mark).column
      then indents == old(indents) + [old(indent)] && indent == old(mark).column
      else indents == old(indents) && indent == old(indent)
    }

    /** The indentation once all block collections have ended. */
    twostate predicate Unrolled()
      reads this
    {
      if old(flowLevel) == 0 then indents == [] && indent == -1 else indents == old(indents) && indent == old(indent)
    }

    /** All block collections end, outside flow collections. */
    method EndBlocks()
      requires Working()
      modifies `tokens, `indent, `indents
      ensures Working() && Unrolled() && All() == old(All()) + old(Ending(mark))
    {
      hide Lexes, Scanner.Core, Scanner.Working;
      UnrollIndent(-1);
    }

    /** yaml_parser_fetch_stream_start. */
    method FetchStreamStart()
      requires Valid() && !started && !available
      modifies this
      ensures Working() && Left() < old(Left()) && unchanged(`delivered, `error, `ended, `pos, `mark, `flowLevel)
      ensures All() == [Token(StreamStart, mark, mark)] && keys == [NO_KEY] && allowed && indents == []
      ensures indent == -1 && LineOk()
      ensures unchanged(`lineQuoted, `lineFlow, `lineComma)
    {
      hide Lexes, At0, KeysOk, Nested;
      var t := Token(StreamStart, mark, mark);
      assert All() == [];
      Appended(t);
      indent, indents, keys, allowed, started := -1, [], keys + [NO_KEY], true, true;
      tokens := tokens + [t];
      assert All() == [t] && keys == [NO_KEY];
      NoKeys(parsed, All(), mark);
    }

    /** yaml_parser_fetch_stream_end. */
    method FetchStreamEnd() returns (ok: bool)
      requires Working()
      modifies this
      ensures ok <==> !old(KeyIsDue())
      ensures if ok then Valid() && started && atEnd && !available && error == old(error) && Left() < old(Left())
              else error
      ensures ok ==> mark == LineEnd(old(mark)) && Unrolled() && keys == old(Without()) && !allowed
      ensures ok ==> All() == old(All()) + old(Ending(LineEnd(mark))) + [Token(StreamEnd, mark, mark)]
      ensures unchanged(`delivered, `ended)
    {
      hide Nested, Depth, Lexes, PendingOk, Rising, KeysOk, IndentsOk;
      EndLine();
      EndBlocks();
      ok := RemoveSimpleKey();
      if !ok {
        return;
      }
      Finish();
    }

    /** The end of the text ends its last line. */
    method EndLine()
      requires Working()
      modifies `mark
      ensures Working() && KeysBehind() && mark == LineEnd(old(mark))
    {
      hide Nested, Depth, Lexes, PendingOk, Rising;
      if mark.column != 0 {
        KeysAdvance(keys, parsed, All(), mark, Mark(mark.index, mark.line + 1, 0));
        mark := Mark(mark.index, mark.line + 1, 0);
      }
    }

    /** The mark stands at the beginning of a line, so every key is on an earlier one. */
    ghost predicate KeysBehind()
      reads this
    {
      forall i | 0 <= i < |keys| && keys[i].possible :: keys[i].mark.line < mark.line
    }

    /** The last token; no simple key is allowed behind it. */
    method Finish()
      requires Working() && KeysBehind() && (flowLevel == 0 ==> indents == [])
      modifies `tokens, `atEnd, `allowed
      ensures Valid() && atEnd && !allowed && All() == old(All()) + [Token(StreamEnd, mark, mark)]
    {
      hide Nested, Depth, IndentsOk, Lexes, KeysOk;
      ghost var all := All();
      var t := Token(StreamEnd, mark, mark);
      NestedAppend(all, t);
      OtherAppended(keys, parsed, all, t, mark);
      allowed, tokens, atEnd := false, tokens + [t], true;
      assert All() == all + [t];
    }

    /** What the lexer says about a directive, once the block collections have ended. */
    function LexDirective(): Lexed
      reads `pos, `mark, `flowLevel, `indent
    {
      Lex(DirectiveLine, if flowLevel == 0 then -1 else indent)
    }

    /** yaml_parser_fetch_directive. */
    method FetchDirective() returns (ok: bool)
      requires Working()
      modifies this
      ensures ok <==> !old(KeyIsDue()) && old(LexDirective()).Lexed?
      ensures if ok then Working() && error == old(error) && Left() < old(Left()) else error
      ensures ok ==> keys == old(Without()) && Unrolled() && flowLevel == old(flowLevel)
      ensures ok ==> Took(old(LexDirective()), DirectiveLine, false)
      ensures ok ==> All() == old(All()) + old(Ending(mark)) + [Token(Directive, old(mark), old(LexDirective()).end)]
      ensures unchanged(`delivered, `ended)
    {
      hide Lexes, Fits, WithKey, Moved, Q.ScanWord, Mark.Precedes, Scanner.Core, Scanner.Working, Scanner.Pending;
      IsWorking();
      EndBlocks();
      ok := RemoveSimpleKey();
      if !ok {
        return;
      }
      allowed := false;
      BecomePending();
      ok := TakeLexed(DirectiveLine, Directive);
      if ok {
        IsWorking();
      }
    }

    lemma BecomePending()
      requires Working()
      ensures Pending()
    {
      hide KeysOk, PendingOk, Core;
      OkIsPending(keys, parsed, All(), mark);
    }

    /** yaml_parser_fetch_document_indicator; the marker is three characters long. */
    method FetchDocumentIndicator(kind: Kind) returns (ok: bool)
      requires Working() && (kind == DocumentStart || kind == DocumentEnd) && pos + 3 <= |buffer|
      modifies this
      ensures ok || error
      ensures ok ==> Working() && error == old(error) && Left() < old(Left())
      ensures ok <==> !old(KeyIsDue())
      ensures ok ==>
        keys == old(Without()) && Unrolled() && !allowed && flowLevel == old(flowLevel)
        && pos == old(pos) + 3 && mark == Across(old(mark), 3)
      ensures ok ==> All() == old(All()) + old(Ending(mark)) + [Token(kind, old(mark), mark)]
      ensures unchanged(`delivered, `ended, `lineQuoted, `lineFlow)
      ensures lineComma == old(lineComma)
    {
      hide Lexes, Fits, WithKey, Moved, Q.ScanWord, Mark.Precedes, Scanner.Core, Scanner.Working, Scanner.Pending;
      IsWorking();
      EndBlocks();
      ok := RemoveSimpleKey();
      if !ok {
        return;
      }
      allowed := false;
      BecomePending();
      TakeMarker(kind);
      if ok {
        IsWorking();
      }
    }

    /** A three-character token. */
    method TakeMarker(kind: Kind)
      requires Pending() && pos + 3 <= |buffer| && (kind == DocumentStart || kind == DocumentEnd)
      modifies `pos, `mark, `tokens
      ensures Working() && pos == old(pos) + 3 && mark == Across(old(mark), 3)
      ensures All() == old(All()) + [Token(kind, old(mark), mark)]
    {
      hide Scanner.Working, Scanner.Pending, Scanner.Core;
      Append(Token(kind, mark, Across(mark, 3)), pos + 3, Across(mark, 3));
    }

    /** yaml_parser_fetch_flow_collection_start. */
    method FetchFlowCollectionStart(kind: Kind) returns (ok: bool)
      requires Working() && (kind == FlowSequenceStart || kind == FlowMappingStart) && pos < |buffer|
      modifies this
      ensures ok || error
      ensures ok ==> Working() && error == old(error) && Left() < old(Left()) && flowLevel == old(flowLevel) + 1
      ensures ok <==> old(CanSave())
      ensures ok ==> keys == old(Saved()) + [NO_KEY] && allowed && indents == old(indents) && indent == old(indent)
      ensures ok ==> All() == old(All()) + [Token(kind, old(mark), mark)]
      ensures ok ==> pos == old(pos) + 1 && mark == Across(old(mark), 1)
      ensures unchanged(`delivered, `ended, `lineQuoted, `lineFlow)
      ensures lineComma == old(lineComma)
    {
      hide Lexes, Fits, WithKey, Moved, Q.ScanWord, Mark.Precedes, Scanner.Core, Scanner.Working, Scanner.Pending;
      IsWorking();
      var asserted;
      ok, asserted := SaveSimpleKey();
      if !ok {
        return;
      }
      IncreaseFlowLevel();
      allowed := true;
      TakeIndicator(kind);
      if ok {
        IsWorking();
      }
    }

    /** yaml_parser_fetch_flow_collection_end. */
    method FetchFlowCollectionEnd(kind: Kind) returns (ok: bool)
      requires Working() && (kind == FlowSequenceEnd || kind == FlowMappingEnd) && pos < |buffer|
      modifies this
      ensures ok || error
      ensures ok ==> Working() && error == old(error) && Left() < old(Left())
      ensures ok <==> !old(KeyIsDue())
      ensures ok ==> !allowed && indents == old(indents) && indent == old(indent)
      ensures ok ==> if old(flowLevel) == 0 then flowLevel == 0 && keys == old(Without())
                     else flowLevel == old(flowLevel) - 1 && keys == old(Without())[..|old(keys)| - 1]
      ensures ok ==> All() == old(All()) + [Token(kind, old(mark), mark)]
      ensures ok ==> pos == old(pos) + 1 && mark == Across(old(mark), 1)
      ensures unchanged(`delivered, `ended, `lineQuoted, `lineFlow)
      ensures lineComma == old(lineComma)
    {
      hide Lexes, Fits, WithKey, Moved, Q.ScanWord, Mark.Precedes, Scanner.Core, Scanner.Working, Scanner.Pending;
      IsWorking();
      ok := RemoveSimpleKey();
      if !ok {
        return;
      }
      DecreaseFlowLevel();
      allowed := false;
      BecomePending();
      TakeIndicator(kind);
      if ok {
        IsWorking();
      }
    }

    /** An indicator that gives up the innermost key, and whether a key may stand behind it. */
    method TakeWithoutKey(kind: Kind, may: bool) returns (ok: bool)
      requires Working() && pos < |buffer| && kind != StreamEnd && Weight(Token(kind, mark, mark)) == 0
      modifies `keys, `error, `allowed, `pos, `mark, `tokens
      ensures ok <==> !old(KeyIsDue())
      ensures if ok then Working() && error == old(error) && keys == old(Without()) && allowed == may else error
      ensures ok ==> pos == old(pos) + 1 && mark == Across(old(mark), 1)
      ensures ok ==> All() == old(All()) + [Token(kind, old(mark), mark)]
    {
      hide KeysOk, PendingOk, Nested, Depth, IndentsOk, Lexes, Scanner.Core;
      ok := RemoveSimpleKey();
      if !ok {
        return;
      }
      allowed := may;
      BecomePending();
      TakeIndicator(kind);
    }

    /** yaml_parser_fetch_flow_entry. */
    method FetchFlowEntry() returns (ok: bool)
      requires Working() && pos < |buffer|
      modifies this
      ensures ok || error
      ensures ok ==> Working() && error == old(error) && Left() < old(Left())
      ensures ok <==> !old(KeyIsDue())
      ensures ok ==>
        keys == old(Without()) && allowed && flowLevel == old(flowLevel) && indents == old(indents)
        && indent == old(indent)
      ensures ok ==> All() == old(All()) + [Token(FlowEntry, old(mark), mark)]
      ensures ok ==> pos == old(pos) + 1 && mark == Across(old(mark), 1)
      ensures unchanged(`delivered, `ended, `lineQuoted, `lineFlow)
      ensures lineComma == (old(lineComma) || (ok && old(flowLevel) == 0))
    {
      hide Lexes, Fits, WithKey, Moved, Q.ScanWord, Mark.Precedes, Scanner.Core, Scanner.Working, Scanner.Pending;
      IsWorking();
      ok := TakeWithoutKey(FlowEntry, true);
      if ok {
        IsWorking();
        lineComma := lineComma || flowLevel == 0;
      }
    }

    /** yaml_parser_fetch_block_entry. */
    method FetchBlockEntry() returns (ok: bool)
      requires Working() && pos < |buffer|
      modifies this
      ensures ok || error
      ensures ok ==> Working() && error == old(error) && Left() < old(Left())
      ensures ok <==> !old(KeyIsDue()) && (old(flowLevel) == 0 ==> old(allowed))
      ensures ok ==> keys == old(Without()) && allowed && flowLevel == old(flowLevel) && Rolled()
      ensures ok ==> All() == old(All()) + old(Opening(BlockSequenceStart)) + [Token(BlockEntry, old(mark), mark)]
      ensures ok ==> pos == old(pos) + 1 && mark == Across(old(mark), 1)
      ensures unchanged(`delivered, `ended, `lineQuoted, `lineFlow)
      ensures lineComma == old(lineComma)
    {
      hide Lexes, Fits, WithKey, Moved, Q.ScanWord, Mark.Precedes, Scanner.Core, Scanner.Working, Scanner.Pending;
      IsWorking();
      if flowLevel == 0 {
        if !allowed {
          error := true;
          return false;
        }
        RollIndent(BlockSequenceStart);
      }
      ok := TakeWithoutKey(BlockEntry, true);
      if ok {
        IsWorking();
      }
    }

    /** yaml_parser_fetch_key. */
    method FetchKey() returns (ok: bool)
      requires Working() && pos < |buffer|
      modifies this
      ensures ok || error
      ensures ok ==> Working() && error == old(error) && Left() < old(Left())
      ensures ok <==> !old(KeyIsDue()) && (old(flowLevel) == 0 ==> old(allowed))
      ensures ok ==> keys == old(Without()) && allowed == (flowLevel == 0) && flowLevel == old(flowLevel) && Rolled()
      ensures ok ==> All() == old(All()) + old(Opening(BlockMappingStart)) + [Token(Key, old(mark), mark)]
      ensures ok ==> pos == old(pos) + 1 && mark == Across(old(mark), 1)
      ensures unchanged(`delivered, `ended, `lineQuoted, `lineFlow)
      ensures lineComma == old(lineComma)
    {
      hide Lexes, Fits, WithKey, Moved, Q.ScanWord, Mark.Precedes, Scanner.Core, Scanner.Working, Scanner.Pending;
      IsWorking();
      if flowLevel == 0 {
        if !allowed {
          error := true;
          return false;
        }
        RollIndent(BlockMappingStart);
      }
      ok := TakeWithoutKey(Key, flowLevel == 0);
      if ok {
        IsWorking();
      }
    }

    /**
     * The retroactive part of yaml_parser_fetch_value: the KEY token, and the start of a block mapping if the key is
     * indented further, go in front of the token that begins where the key was saved, which has not been handed out.
     */
    method InsertKey()
      requires Working() && keys[|keys| - 1].possible
      modifies `tokens, `indent, `indents, `keys
      ensures Working()
      ensures var k := old(keys[|keys| - 1]); var opens := flowLevel == 0 && old(indent) < k.mark.column;
              && |delivered| <= k.number < |old(All())| && old(All())[k.number].start == k.mark && k.mark.Precedes(mark)
              && All() == WithKey(old(All()), k.number, k.mark, opens)
              && (if opens then indents == old(indents) + [old(indent)] && indent == k.mark.column
                  else indents == old(indents) && indent == old(indent))
      ensures keys == old(Without())
    {
      hide KeysOk, Nested, Depth, IndentsOk, Lexes, WithKey, Mark.Precedes;
      ghost var all := All();
      var top := |keys| - 1;
      var k := keys[top];
      var opens := flowLevel == 0 && indent < k.mark.column;
      KeyTaken(keys, parsed, all, mark, opens);
      WithKeyFramed(all, k.number, k.mark, opens);
      PutKey(k.number, k.mark, opens);
      if opens {
        IndentPushed(indents, indent, k.mark.column);
        indents, indent := indents + [indent], k.mark.column;
      }
      keys := keys[top := k.(possible := false)];
    }

    /** The tokens of a key, into the queue at token number n. */
    method PutKey(n: nat, m: Mark, opens: bool)
      requires parsed == |delivered| <= n <= |All()|
      modifies `tokens
      ensures All() == WithKey(old(All()), n, m, opens)
    {
      hide WithKey, Insert;
      ghost var all := All();
      WithKeyInserted(all, n, m);
      InsertedAt(n, Token(Key, m, m));
      tokens := Insert(tokens, n - parsed, Token(Key, m, m));
      if opens {
        InsertedAt(n, Token(BlockMappingStart, m, m));
        tokens := Insert(tokens, n - parsed, Token(BlockMappingStart, m, m));
      }
    }

    /** yaml_parser_fetch_value. */
    method FetchValue() returns (ok: bool)
      requires Working() && pos < |buffer|
      modifies this
      ensures ok || error
      ensures ok ==> Working() && error == old(error) && Left() < old(Left())
      ensures ok <==> old(keys[|keys| - 1].possible || flowLevel > 0 || allowed)
      ensures ok ==> keys == old(Without()) && flowLevel == old(flowLevel)
      ensures ok ==> allowed == (!old(keys[|keys| - 1].possible) && flowLevel == 0)
      ensures ok && !old(keys[|keys| - 1].possible) ==>
        Rolled() && All() == old(All()) + old(Opening(BlockMappingStart)) + [Token(Value, old(mark), mark)]
      ensures ok && old(keys[|keys| - 1].possible) ==>
        var k := old(keys[|keys| - 1]);
        k.number <= |old(All())| && All()
          == WithKey(old(All()), k.number, k.mark, flowLevel == 0 && old(indent) < k.mark.column)
                                            + [Token(Value, old(mark), mark)]
        && if flowLevel == 0 && old(indent) < k.mark.column
          then indents == old(indents) + [old(indent)] && indent == k.mark.column
           else indents == old(indents) && indent == old(indent)
      ensures ok ==> pos == old(pos) + 1 && mark == Across(old(mark), 1)
      ensures unchanged(`delivered, `ended, `lineQuoted, `lineFlow)
      ensures lineComma == old(lineComma)
    {
      hide Lexes, Fits, WithKey, Moved, Q.ScanWord, Mark.Precedes, Scanner.Core, Scanner.Working, Scanner.Pending;
      IsWorking();
      if keys[|keys| - 1].possible {
        InsertKey();
        allowed := false;
      } else {
        if flowLevel == 0 {
          if !allowed {
            error := true;
            return false;
          }
          RollIndent(BlockMappingStart);
        }
        allowed := flowLevel == 0;
      }
      BecomePending();
      TakeIndicator(Value);
      ok := true;
      if ok {
        IsWorking();
      }
    }

    lemma LexAgrees()
      ensures LexesQuoted(lexer, buffer) ==>
        Agree(buffer, pos, mark, Lex(QuotedScalar(false), indent), Q.ScanWord(buffer, pos + 1, mark.column + 1))
    {
      hide Agree, Q.ScanWord;
    }

    /** yaml_parser_fetch_anchor, _tag, _flow_scalar and _plain_scalar: tokens that may be simple keys. */
    method FetchKeyable(x: Lexeme, kind: Kind) returns (ok: bool)
      requires Working() && (kind == Alias || kind == Anchor || kind == Tag || kind == Scalar)
      requires x.AliasName? || x.AnchorName? || x.TagName? || x.QuotedScalar? || x.PlainScalar?
      modifies this
      ensures ok <==> old(CanSave()) && old(Lex(x, indent)).Lexed?
      ensures if ok then Working() && error == old(error) && Left() < old(Left()) else error
      ensures ok ==> keys == old(Saved()) && flowLevel == old(flowLevel)
      ensures ok ==> Took(old(Lex(x, indent)), x, false) && indents == old(indents) && indent == old(indent)
      ensures ok ==> All() == old(All()) + [Token(kind, old(mark), old(Lex(x, indent)).end)]
      ensures x == QuotedScalar(false) && LexesQuoted(lexer, buffer) ==>
        var q := old(Q.ScanWord(buffer, pos + 1, mark.column + 1));
        && (ok <==> old(CanSave()) && q.Scanned?)
        && (ok ==> pos == q.end && mark == Moved(buffer, old(mark), old(pos), q.end, false))
      ensures unchanged(`delivered, `ended)
    {
      hide Lexes, LexesQuoted, Fits, WithKey, Moved, Q.ScanWord, Mark.Precedes, Scanner.Core, Scanner.Working,
        Scanner.Pending;
      LexAgrees();
      IsWorking();
      var asserted;
      ok, asserted := SaveSimpleKey();
      if !ok {
        return;
      }
      allowed := false;
      ok := TakeLexed(x, kind);
      if ok {
        IsWorking();
      }
    }

    /** yaml_parser_fetch_block_scalar. */
    method FetchBlockScalar(x: Lexeme) returns (ok: bool)
      requires Working() && x.BlockScalar?
      modifies this
      ensures ok <==> !old(KeyIsDue()) && old(Lex(x, indent)).Lexed?
      ensures if ok then Working() && error == old(error) && Left() < old(Left()) else error
      ensures ok ==> keys == old(Without()) && flowLevel == old(flowLevel) && allowed
      ensures ok ==> Took(old(Lex(x, indent)), x, true) && indents == old(indents) && indent == old(indent)
      ensures ok ==> All() == old(All()) + [Token(Scalar, old(mark), old(Lex(x, indent)).end)]
      ensures unchanged(`delivered, `ended)
    {
      hide Lexes, Fits, WithKey, Moved, Q.ScanWord, Mark.Precedes, Scanner.Core, Scanner.Working, Scanner.Pending;
      IsWorking();
      ok := RemoveSimpleKey();
      if !ok {
        return;
      }
      allowed := true;
      BecomePending();
      ok := TakeLexed(x, Scalar);
      if ok {
        IsWorking();
      }
    }

    // ----- the scanner -----

    /** The dispatch on what stands at the current position. */
    method Dispatch() returns (ok: bool)
      requires Working() && LineOk() && (At0(buffer, pos) != 0 ==> Poised())
      modifies this
      ensures ok || error
      ensures ok ==> Valid() && started && !available && error == old(error) && Left() < old(Left())
      ensures unchanged(`delivered, `ended)
    {
      hide KeysOk, PendingOk, Nested, Depth, IndentsOk, Lexes, Classify, LinesOk;
      var x := Classify(buffer, pos, mark.column, flowLevel);
      match x {
        case End => ok := FetchStreamEnd();
        case Invalid => error, ok := true, false;
        case DirectiveLine => ok := DispatchText(x);
        case AliasName => ok := DispatchText(x);
        case AnchorName => ok := DispatchText(x);
        case TagName => ok := DispatchText(x);
        case BlockScalar(_) => ok := DispatchText(x);
        case QuotedScalar(_) => ok := DispatchText(x);
        case PlainScalar => ok := DispatchText(x);
        case _ => ok := DispatchIndicator(x);
      }
    }

    /** The tokens of one or three fixed characters. */
    method DispatchIndicator(x: Lexeme) returns (ok: bool)
      requires Working() && Poised() && (x.DocumentMarker? ==> pos + 3 <= |buffer|)
      requires x.DocumentMarker? || x.FlowOpen? || x.FlowClose? || x.Comma? || x.Dash? || x.QuestionMark? || x.Colon?
      modifies this
      ensures ok || error
      ensures ok ==> Working() && LineOk() && error == old(error) && Left() < old(Left())
      ensures unchanged(`delivered, `ended)
    {
      hide KeysOk, PendingOk, Nested, Depth, IndentsOk, Lexes, LinesOk, At0, WithKey;
      IsWorking();
      TextIsHere();
      KeysAreLeft();
      match x {
        case DocumentMarker(start) => ok := FetchDocumentIndicator(if start then DocumentStart else DocumentEnd);
        case FlowOpen(sequence) =>
          ok := FetchFlowCollectionStart(if sequence then FlowSequenceStart else FlowMappingStart);
        case FlowClose(isSequence) =>
          ok := FetchFlowCollectionEnd(if isSequence then FlowSequenceEnd else FlowMappingEnd);
        case Comma => ok := FetchFlowEntry();
        case Dash => ok := FetchBlockEntry();
        case QuestionMark => ok := FetchKey();
        case Colon => ok := FetchValue();
      }
      if ok {
        KeepsLine();
      }
    }

    /** The possible keys are further left on the line. */
    lemma KeysAreLeft()
      requires Working() && Poised()
      ensures forall i | 0 <= i < |keys| && keys[i].possible :: keys[i].mark.column < mark.column
    {
      hide KeysOk, Nested, Depth, IndentsOk, Lexes, LinesOk;
      KeysPrecede(keys, parsed, All(), mark);
    }

    lemma TextIsHere()
      requires At0(buffer, pos) != 0
      ensures pos < |buffer|
    {
    }

    /** The tokens whose text the lexer scans. */
    method DispatchText(x: Lexeme) returns (ok: bool)
      requires Working() && Poised()
      requires x.AliasName? || x.AnchorName? || x.TagName? || x.QuotedScalar? || x.PlainScalar? || x.BlockScalar?
               || x.DirectiveLine?
      modifies this
      ensures ok || error
      ensures ok ==> Working() && LineOk() && error == old(error) && Left() < old(Left())
      ensures unchanged(`delivered, `ended)
    {
      hide KeysOk, PendingOk, Nested, Depth, IndentsOk, Lexes, LinesOk, At0, Fits;
      IsWorking();
      LexFits(x, if x.DirectiveLine? && flowLevel == 0 then -1 else indent);
      match x {
        case DirectiveLine => ok := FetchDirective();
        case AliasName => ok := FetchKeyable(x, Alias);
        case AnchorName => ok := FetchKeyable(x, Anchor);
        case TagName => ok := FetchKeyable(x, Tag);
        case BlockScalar(_) => ok := FetchBlockScalar(x);
        case QuotedScalar(_) => ok := FetchKeyable(x, Scalar);
        case PlainScalar => ok := FetchKeyable(x, Scalar);
      }
      if ok {
        KeepsLines(x);
      }
    }

    lemma LexFits(x: Lexeme, level: int)
      requires Working()
      ensures Fits(buffer, x, pos, mark, level, flowLevel, Lex(x, level)) && indent >= -1
    {
      hide KeysOk, Nested, Depth, Fits;
    }

    /**
     * The first part of yaml_parser_fetch_next_token: on to the next token, giving up the keys and block collections
     * that its line and column end.
     */
    method Approach() returns (ok: bool)
      requires Valid() && started && !atEnd && !available
      modifies this
      ensures ok <==> forall i | 0 <= i < |old(keys)| && Stale(old(keys)[i], mark) :: !old(keys)[i].required
      ensures if ok then Working() && LineOk() && error == old(error) && Left() <= old(Left()) else error
      ensures ok && At0(buffer, pos) != 0 ==> Poised()
      ensures old(pos) <= pos <= |buffer| && IsGap(buffer, old(pos), pos)
              && mark == Moved(buffer, old(mark), old(pos), pos, true)
      ensures !IsBreak(buffer, pos) && At0(buffer, pos) != SPACE && At0(buffer, pos) != 35
      ensures flowLevel > 0 || !allowed ==> At0(buffer, pos) != TAB
      ensures allowed == (old(allowed) || (flowLevel == 0 && mark.line > old(mark).line)) && LineChanged(false)
      ensures ok ==> |keys| == |old(keys)| && forall i | 0 <= i < |keys| ::
        keys[i] == if Stale(old(keys)[i], mark) then old(keys)[i].(possible := false) else old(keys)[i]
      ensures ok && (flowLevel > 0 || old(indent) <= mark.column) ==>
        indent == old(indent) && indents == old(indents) && All() == old(All())
      ensures unchanged(`delivered, `ended, `flowLevel)
    {
      hide KeysOk, PendingOk, Nested, Depth, IndentsOk, Lexes, IsGap, Moved, IsBreak;
      ghost var mark0 := mark;
      ScanToNextToken();
      if At0(buffer, old(pos)) == 0 {
        NoGapAtEnd(buffer, old(pos), pos);
      }
      KeysAdvance(keys, parsed, All(), mark0, mark);
      ok := GiveUp();
    }

    /** Gives up the simple keys and the block collections that the current line and column end. */
    method GiveUp() returns (ok: bool)
      requires Working() && LineOk()
      modifies `keys, `error, `tokens, `indent, `indents
      ensures ok <==> forall i | 0 <= i < |old(keys)| && Stale(old(keys)[i], mark) :: !old(keys)[i].required
      ensures if ok then Working() && LineOk() && error == old(error) else error
      ensures ok && At0(buffer, pos) != 0 ==> Poised()
      ensures ok ==> |keys| == |old(keys)| && forall i | 0 <= i < |keys| ::
        keys[i] == if Stale(old(keys)[i], mark) then old(keys)[i].(possible := false) else old(keys)[i]
      ensures ok && (flowLevel > 0 || old(indent) <= mark.column) ==>
        indent == old(indent) && indents == old(indents) && All() == old(All())
    {
      hide KeysOk, PendingOk, Nested, Depth, IndentsOk, Lexes;
      ghost var keys0, levels, level, all := keys, indents, indent, All();
      ok := StaleSimpleKeys();
      FewerKeys(keys0, keys, parsed, All(), mark);
      if !ok {
        return;
      }
      KeysPrecede(keys, parsed, All(), mark);
      UnrollIndent(mark.column);
      if flowLevel == 0 && level <= mark.column {
        NothingUnrolled(levels, level, indents, indent, mark.column, all, mark);
      }
    }

    /** yaml_parser_fetch_next_token. */
    method FetchNextToken() returns (ok: bool)
      requires Valid() && !atEnd && !available
      modifies this
      ensures ok || error
      ensures ok ==> Valid() && started && !available && error == old(error) && Left() < old(Left())
      ensures unchanged(`delivered, `ended)
    {
      hide KeysOk, PendingOk, Nested, Depth, IndentsOk, Lexes, IsGap, Moved, IsBreak;
      if !started {
        FetchStreamStart();
        return true;
      }
      ok := Approach();
      if ok {
        ok := Dispatch();
      }
    }

    /** The loop over the simple keys in yaml_parser_fetch_more_tokens. */
    method HeadMayBeKey() returns (b: bool)
      ensures !b <==> NoKeyAt(keys, parsed)
    {
      for i := 0 to |keys|
        invariant NoKeyAt(keys[..i], parsed)
      {
        if keys[i].possible && keys[i].number == parsed {
          return true;
        }
        assert keys[..i + 1] == keys[..i] + [keys[i]];
      }
      assert keys[..|keys|] == keys;
      b := false;
    }

    /**
     * yaml_parser_fetch_more_tokens: the first token of the queue can be handed out, as nothing will be inserted in
     * front of it any more.
     */
    method FetchMoreTokens() returns (ok: bool)
      requires Valid() && !ended && !available
      modifies this
      ensures ok || error
      ensures ok ==> Valid() && started && available && error == old(error)
      ensures ok ==> Left() < old(Left()) || (Left() == old(Left()) && tokens == old(tokens))
      ensures unchanged(`delivered, `ended)
    {
      hide KeysOk, PendingOk, Nested, Depth, IndentsOk, Lexes, LinesOk, Scanner.LineOk, Scanner.BlocksOk;
      while true
        invariant Valid() && !ended && !available && error == old(error)
        invariant unchanged(`delivered, `ended)
        invariant Left() < old(Left()) || (Left() == old(Left()) && tokens == old(tokens))
        decreases Left()
      {
        var need := tokens == [];
        if tokens != [] {
          ghost var keys0 := keys;
          ok := StaleSimpleKeys();
          FewerKeys(keys0, keys, parsed, All(), mark);
          if !ok {
            return;
          }
          need := HeadMayBeKey();
        }
        if !need {
          break;
        }
        ok := FetchNextToken();
        if !ok {
          return;
        }
      }
      available := true;
      ok := true;
    }

    /** yaml_parser_scan: the next token, if the stream goes on. */
    method Scan() returns (ok: bool, token: seq<Token>)
      requires Valid() && !error
      modifies this
      ensures ok <==> !error
      ensures ok ==> Valid() && delivered == old(delivered) + token
      ensures ok && !old(ended) ==> |token| == 1 && (ended <==> token[0].kind == StreamEnd)
      ensures ok && !old(ended) ==> Left() < old(Left()) || (Left() == old(Left()) && |tokens| < old(|tokens|))
      ensures old(ended) ==> ok && token == [] && unchanged(this)
    {
      if ended {
        return true, [];
      }
      if !available {
        ok := FetchMoreTokens();
        if !ok {
          return false, [];
        }
      }
      var t := HandOut();
      return !error, [t];
    }

    /** DEQUEUE, when a token is available. */
    method HandOut() returns (t: Token)
      requires Valid() && available && !ended
      modifies `tokens, `available, `parsed, `ended, `delivered
      ensures Valid() && !available && delivered == old(delivered) + [t] && [t] + tokens == old(tokens)
      ensures All() == old(All()) && (ended <==> t.kind == StreamEnd)
    {
      hide PendingOk, Nested, Depth, IndentsOk, Lexes, Rising;
      ghost var all := All();
      HandedOut(keys, parsed, all, mark);
      t := tokens[0];
      assert all[|delivered|] == t;
      tokens, available, parsed, delivered := tokens[1..], false, parsed + 1, delivered + [t];
      assert All() == all;
      if t.kind == StreamEnd {
        ended := true;
      }
    }

    /**
     * All tokens of a text: a complete stream, framed by its start and its end, in which no block collection is closed
     * before it is opened, and all are closed unless a flow collection is left open.
     */
    method ScanAll() returns (ok: bool, all: seq<Token>)
      requires Valid() && !error && delivered == []
      modifies this
      ensures ok ==> all != [] && all[0].kind == StreamStart && all[|all| - 1].kind == StreamEnd
      ensures ok ==> forall i | 0 <= i < |all| - 1 :: all[i].kind != StreamEnd
      ensures ok ==> Nested(all) && (flowLevel == 0 ==> Depth(all) == 0)
    {
      hide Nested, Depth, KeysOk, Lexes, IndentsOk;
      all := [];
      ok := true;
      while !ended
        invariant Valid() && !error && ok && all == delivered
        decreases Left(), |tokens|
      {
        var token;
        ok, token := Scan();
        if !ok {
          return false, [];
        }
        all := all + token;
      }
      assert All() == all;
    }
  }
}
