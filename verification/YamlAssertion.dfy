/** Texts on which an assertion of the YAML scanner fails that its source calls impossible to fail. */
module YamlAssertion {
  import opened Bytes
  import opened YamlText
  import opened YamlTokens
  import opened YamlScanner
  import Q = YamlQuoted

  /** A gap ends in front of a character that is neither a blank nor a break nor part of a mark or comment. */
  lemma GapStops(s: bytes, p: nat, q: nat, r: nat)
    requires IsGap(s, p, q) && p <= r && At0(s, r) != SPACE && At0(s, r) != TAB
    requires forall j | p <= j <= r :: At0(s, j) != 35 && !IsBom(s, j) && BreakWidth(s, j) <= r - j
    ensures q <= r
  {
    hide IsBom, BreakWidth;
    assert !IsBlank(s, r) && !InBreak(s, p, r) && !InComment(s, p, r);
  }

  // ----- the texts -----

  /** The text ` a: "b\n"c`, with a line break inside the quotes. */
  const QUOTED_TEXT: bytes := [32, 97, 58, 32, 34, 98, 10, 34, 99]

  /** The text ` a: [b\n]c`, with a line break inside the brackets. */
  const FLOW_TEXT: bytes := [32, 97, 58, 32, 91, 98, 10, 93, 99]

  /** A lexer that finds the plain scalar `a` at the second byte of both texts. */
  predicate FindsKey(lexer: Lexer) {
    var r := lexer(PlainScalar, 1, Mark(1, 0, 1), -1, 0);
    r.Lexed? && r.pos == 2 && r.mark == Mark(2, 0, 2)
  }

  lemma TextsBegin(text: bytes)
    requires text == QUOTED_TEXT || text == FLOW_TEXT
    ensures forall q | IsGap(text, 0, q) :: q <= 1
    ensures forall q | IsGap(text, 2, q) :: q <= 2
    ensures forall q | IsGap(text, 3, q) :: q <= 4
    ensures Moved(text, Mark(0, 0, 0), 0, 1, true) == Mark(1, 0, 1)
    ensures Moved(text, Mark(2, 0, 2), 2, 2, true) == Mark(2, 0, 2)
    ensures Moved(text, Mark(3, 0, 3), 3, 4, true) == Mark(4, 0, 4)
    ensures Classify(text, 1, 1, 0) == PlainScalar && Classify(text, 2, 2, 0) == Colon
    ensures At0(text, 0) == At0(text, 3) == SPACE && At0(text, 4) != 0
  {
    hide IsGap, Classify, Moved;
    forall q | IsGap(text, 0, q) ensures q <= 1 {
      GapStops(text, 0, q, 1);
    }
    forall q | IsGap(text, 2, q) ensures q <= 2 {
      GapStops(text, 2, q, 2);
    }
    forall q | IsGap(text, 3, q) ensures q <= 4 {
      GapStops(text, 3, q, 4);
    }
    TextsMarks(text);
    TextsKinds(text);
  }

  lemma TextsMarks(text: bytes)
    requires text == QUOTED_TEXT || text == FLOW_TEXT
    ensures Moved(text, Mark(0, 0, 0), 0, 1, true) == Mark(1, 0, 1)
    ensures Moved(text, Mark(2, 0, 2), 2, 2, true) == Mark(2, 0, 2)
    ensures Moved(text, Mark(3, 0, 3), 3, 4, true) == Mark(4, 0, 4)
  {
  }

  lemma TextsKinds(text: bytes)
    requires text == QUOTED_TEXT || text == FLOW_TEXT
    ensures Classify(text, 1, 1, 0) == PlainScalar && Classify(text, 2, 2, 0) == Colon
  {
  }

  /** Where a run over one of the texts stands. */
  ghost predicate Stands(s: Scanner, text: bytes, lexer: Lexer, pos: nat, mark: Mark, flow: nat, indent: int,
      allowed: bool)
    reads s
  {
    && s.buffer == text && s.lexer == lexer && !s.error && s.Working() && s.LineOk()
    && s.pos == pos && s.mark == mark && s.flowLevel == flow && s.indent == indent && s.allowed == allowed
  }

  /** No line has begun inside a token or a flow collection. */
  ghost predicate Plain(s: Scanner)
    reads s
  {
    !s.lineQuoted && !s.lineFlow && !s.lineComma
  }

  ghost predicate NoKey(s: Scanner)
    reads s
  {
    forall i | 0 <= i < |s.keys| :: !s.keys[i].possible
  }

  /** No possible key is a required one. */
  ghost predicate NoneDue(s: Scanner)
    reads s
  {
    forall i | 0 <= i < |s.keys| && s.keys[i].possible :: !s.keys[i].required
  }

  // Every step takes the branch that the dispatcher takes at that place.

  /** The start of the stream, and the gap in front of the key. */
  method Begin(text: bytes, lexer: Lexer) returns (s: Scanner, ok: bool)
    requires text == QUOTED_TEXT || text == FLOW_TEXT
    requires Lexes(lexer, text)
    ensures fresh(s) && ok && Stands(s, text, lexer, 1, Mark(1, 0, 1), 0, -1, true) && Plain(s) && NoKey(s)
  {
    hide Lexes, IsGap, Moved, Classify, Scanner.Core, Scanner.Working, Scanner.LineOk, Scanner.Valid, At0, IsBreak;
    TextsBegin(text);
    s := new Scanner(text, lexer);
    s.FetchStreamStart();
    s.WorkingIsValid();
    ok := s.Approach();
  }

  /** The key, which is saved as a simple one. */
  method TakeKey(s: Scanner, text: bytes, lexer: Lexer) returns (ok: bool)
    requires text == QUOTED_TEXT || text == FLOW_TEXT
    requires FindsKey(lexer) && Stands(s, text, lexer, 1, Mark(1, 0, 1), 0, -1, true) && Plain(s) && NoKey(s)
    modifies s
    ensures ok && Stands(s, text, lexer, 2, Mark(2, 0, 2), 0, -1, false) && Plain(s)
    ensures |s.keys| == 1 && s.keys[0].possible && !s.keys[0].required && s.keys[0].mark == Mark(1, 0, 1)
  {
    hide Lexes, IsGap, Moved, Classify, Scanner.Core, Scanner.Working, At0, IsBreak;
    TextsBegin(text);
    assert Classify(text, s.pos, s.mark.column, s.flowLevel) == PlainScalar;
    s.IsWorking();
    s.LexFits(PlainScalar, s.indent);
    ok := s.FetchKeyable(PlainScalar, Scalar);
  }

  /** The value indicator, which makes the saved token a mapping key and opens a mapping in column 1. */
  method TakeValue(s: Scanner, text: bytes, lexer: Lexer) returns (ok: bool)
    requires text == QUOTED_TEXT || text == FLOW_TEXT
    requires Stands(s, text, lexer, 2, Mark(2, 0, 2), 0, -1, false) && Plain(s)
    requires |s.keys| == 1 && s.keys[0].possible && !s.keys[0].required && s.keys[0].mark == Mark(1, 0, 1)
    modifies s
    ensures ok && Stands(s, text, lexer, 4, Mark(4, 0, 4), 0, 1, false) && Plain(s) && NoKey(s) && s.Poised()
  {
    hide Lexes, IsGap, Moved, Classify, Scanner.Core, Scanner.Working, Scanner.Valid, At0, IsBreak, WithKey;
    TextsBegin(text);
    s.WorkingIsValid();
    ok := s.Approach();
    assert Classify(text, s.pos, s.mark.column, s.flowLevel) == Colon;
    ok := s.FetchValue();
    s.WorkingIsValid();
    ok := s.Approach();
  }

  lemma NoGapBehind(text: bytes)
    requires text == QUOTED_TEXT || text == FLOW_TEXT
    ensures Classify(text, 8, 1, 0) == PlainScalar
    ensures Moved(text, Mark(8, 1, 1), 8, 8, true) == Mark(8, 1, 1)
    ensures forall q | IsGap(text, 8, q) :: q <= 8
  {
    hide IsGap;
    forall q | IsGap(text, 8, q) ensures q <= 8 {
      GapStops(text, 8, q, 8);
    }
  }

  /** The character in column 1 of the second line, which is at the indentation and where no key is allowed. */
  method Fail(s: Scanner, text: bytes, lexer: Lexer) returns (ok: bool, asserted: bool)
    requires text == QUOTED_TEXT || text == FLOW_TEXT
    requires Stands(s, text, lexer, 8, Mark(8, 1, 1), 0, 1, false) && NoneDue(s)
    modifies s
    ensures s.buffer == text && s.pos == 8 && s.AssertionFails() && !asserted && !ok
    ensures Classify(text, s.pos, s.mark.column, s.flowLevel) == PlainScalar
    ensures s.lineQuoted == old(s.lineQuoted) && s.lineFlow == old(s.lineFlow)
  {
    hide Lexes, IsGap, Moved, Classify, Scanner.Core, Scanner.Working, Scanner.LineOk, Scanner.Poised, At0, IsBreak;
    NoGapBehind(text);
    s.WorkingIsValid();
    ok := s.Approach();
    ok, asserted := s.SaveSimpleKey();
  }

  // ----- a quoted scalar over two lines -----

  lemma QuotedWord()
    ensures Q.ScanWord(QUOTED_TEXT, 5, 5).Scanned? && Q.ScanWord(QUOTED_TEXT, 5, 5).end == 8
  {
    var t := QUOTED_TEXT;
    assert Q.ScanWord(t, 7, 0) == Q.Scanned([], 8);
    assert Q.ScanWord(t, 6, 6) == Q.ScanBlanks(t, 6, 6, Q.NO_BLANKS);
    assert Q.ScanWord(t, 5, 5) == Q.Before([98], Q.ScanWord(t, 6, 6));
  }

  lemma QuotedEnds()
    ensures Classify(QUOTED_TEXT, 4, 4, 0) == QuotedScalar(false)
    ensures Moved(QUOTED_TEXT, Mark(4, 0, 4), 4, 8, false) == Mark(8, 1, 1)
  {
    var t := QUOTED_TEXT;
    assert Moved(t, Mark(6, 0, 6), 6, 8, false) == Moved(t, Mark(7, 1, 0), 7, 8, false) == Mark(8, 1, 1);
  }

  method TakeQuoted(s: Scanner, lexer: Lexer) returns (ok: bool)
    requires Stands(s, QUOTED_TEXT, lexer, 4, Mark(4, 0, 4), 0, 1, false) && Plain(s) && NoKey(s) && s.Poised()
    requires LexesQuoted(lexer, QUOTED_TEXT)
    modifies s
    ensures ok && Stands(s, QUOTED_TEXT, lexer, 8, Mark(8, 1, 1), 0, 1, false) && NoKey(s)
    ensures s.lineQuoted && !s.lineFlow && !s.lineComma
  {
    hide Lexes, IsGap, Moved, Classify, Scanner.Core, Scanner.Working, Scanner.LineOk, Scanner.Poised, At0, IsBreak,
      Q.ScanWord, LexesQuoted;
    QuotedEnds();
    QuotedWord();
    assert Classify(QUOTED_TEXT, s.pos, s.mark.column, s.flowLevel) == QuotedScalar(false);
    s.IsWorking();
    s.LexFits(QuotedScalar(false), s.indent);
    ok := s.FetchKeyable(QuotedScalar(false), Scalar);
    s.IsWorking();
    s.KeepsLines(QuotedScalar(false));
  }

  /** The scanner runs over the text and gets to a token at which the assertion fails. */
  method AssertionIsReached(lexer: Lexer) returns (s: Scanner, ok: bool, asserted: bool)
    requires Lexes(lexer, QUOTED_TEXT) && FindsKey(lexer) && LexesQuoted(lexer, QUOTED_TEXT)
    ensures s.buffer == QUOTED_TEXT && s.pos == 8 && Classify(QUOTED_TEXT, 8, s.mark.column, s.flowLevel) == PlainScalar
    ensures s.AssertionFails() && s.lineQuoted && !s.lineFlow && !asserted && !ok
  {
    hide Lexes, IsGap, Moved, Classify, Scanner.Core, Scanner.Working, Scanner.Valid, Scanner.LineOk, Scanner.Poised,
      At0, IsBreak, LexesQuoted;
    s, ok := Begin(QUOTED_TEXT, lexer);
    ok := TakeKey(s, QUOTED_TEXT, lexer);
    ok := TakeValue(s, QUOTED_TEXT, lexer);
    ok := TakeQuoted(s, lexer);
    ok, asserted := Fail(s, QUOTED_TEXT, lexer);
  }

  // ----- a flow collection over two lines -----

  /** A lexer that finds the plain scalar `b`, with the line break behind it. */
  predicate FindsItem(lexer: Lexer) {
    var r := lexer(PlainScalar, 5, Mark(5, 0, 5), 1, 1);
    r.Lexed? && r.pos == 7 && r.mark == Mark(7, 1, 0)
  }

  lemma FlowEnds()
    ensures Classify(FLOW_TEXT, 4, 4, 0) == FlowOpen(true) && Classify(FLOW_TEXT, 5, 5, 1) == PlainScalar
    ensures Classify(FLOW_TEXT, 7, 0, 1) == FlowClose(true)
    ensures Moved(FLOW_TEXT, Mark(5, 0, 5), 5, 5, true) == Mark(5, 0, 5)
    ensures Moved(FLOW_TEXT, Mark(7, 1, 0), 7, 7, true) == Mark(7, 1, 0)
    ensures At0(FLOW_TEXT, 5) != 0 && At0(FLOW_TEXT, 7) != 0
    ensures forall q | IsGap(FLOW_TEXT, 5, q) :: q <= 5
    ensures forall q | IsGap(FLOW_TEXT, 7, q) :: q <= 7
  {
    hide IsGap;
    forall q | IsGap(FLOW_TEXT, 5, q) ensures q <= 5 {
      GapStops(FLOW_TEXT, 5, q, 5);
    }
    forall q | IsGap(FLOW_TEXT, 7, q) ensures q <= 7 {
      GapStops(FLOW_TEXT, 7, q, 7);
    }
  }

  method TakeBracket(s: Scanner, lexer: Lexer) returns (ok: bool)
    requires Stands(s, FLOW_TEXT, lexer, 4, Mark(4, 0, 4), 0, 1, false) && Plain(s) && NoKey(s) && s.Poised()
    modifies s
    ensures ok && Stands(s, FLOW_TEXT, lexer, 5, Mark(5, 0, 5), 1, 1, true) && Plain(s) && NoneDue(s)
  {
    hide Lexes, IsGap, Moved, Classify, Scanner.Core, Scanner.Working, Scanner.LineOk, Scanner.Poised, At0, IsBreak;
    FlowEnds();
    assert Classify(FLOW_TEXT, s.pos, s.mark.column, s.flowLevel) == FlowOpen(true);
    s.IsWorking();
    ok := s.FetchFlowCollectionStart(FlowSequenceStart);
    s.IsWorking();
    s.KeepsLine();
  }

  /** The item, which takes the line break behind it. */
  method TakeItem(s: Scanner, lexer: Lexer) returns (ok: bool)
    requires Stands(s, FLOW_TEXT, lexer, 5, Mark(5, 0, 5), 1, 1, true) && Plain(s) && NoneDue(s) && FindsItem(lexer)
    modifies s
    ensures ok && Stands(s, FLOW_TEXT, lexer, 7, Mark(7, 1, 0), 1, 1, s.allowed)
    ensures s.lineFlow && !s.lineQuoted && !s.lineComma && NoneDue(s)
  {
    hide Lexes, IsGap, Moved, Classify, Scanner.Core, Scanner.Working, Scanner.LineOk, Scanner.Poised, At0, IsBreak,
      Fits;
    FlowEnds();
    s.WorkingIsValid();
    ok := s.Approach();
    label L:
    assert Classify(FLOW_TEXT, s.pos, s.mark.column, s.flowLevel) == PlainScalar;
    s.IsWorking();
    s.LexFits(PlainScalar, s.indent);
    ok := s.FetchKeyable(PlainScalar, Scalar);
    s.IsWorking();
    s.KeepsLines@L(PlainScalar);
  }

  method TakeEnd(s: Scanner, lexer: Lexer) returns (ok: bool)
    requires Stands(s, FLOW_TEXT, lexer, 7, Mark(7, 1, 0), 1, 1, s.allowed)
    requires s.lineFlow && !s.lineQuoted && !s.lineComma && NoneDue(s)
    modifies s
    ensures ok && Stands(s, FLOW_TEXT, lexer, 8, Mark(8, 1, 1), 0, 1, false) && NoneDue(s)
    ensures s.lineFlow && !s.lineQuoted && !s.lineComma
  {
    hide Lexes, IsGap, Moved, Classify, Scanner.Core, Scanner.Working, Scanner.LineOk, Scanner.Poised, At0, IsBreak;
    FlowEnds();
    s.WorkingIsValid();
    ok := s.Approach();
    label L:
    assert Classify(FLOW_TEXT, s.pos, s.mark.column, s.flowLevel) == FlowClose(true);
    s.IsWorking();
    ok := s.FetchFlowCollectionEnd(FlowSequenceEnd);
    s.IsWorking();
    s.KeepsLine@L();
  }

  /** The same behind a flow collection. */
  method FlowAssertionIsReached(lexer: Lexer) returns (s: Scanner, ok: bool, asserted: bool)
    requires Lexes(lexer, FLOW_TEXT) && FindsKey(lexer) && FindsItem(lexer)
    ensures s.buffer == FLOW_TEXT && s.pos == 8 && Classify(FLOW_TEXT, 8, s.mark.column, s.flowLevel) == PlainScalar
    ensures s.AssertionFails() && s.lineFlow && !s.lineQuoted && !asserted && !ok
  {
    hide Lexes, IsGap, Moved, Classify, Scanner.Core, Scanner.Working, Scanner.Valid, Scanner.LineOk, Scanner.Poised,
      At0, IsBreak;
    s, ok := Begin(FLOW_TEXT, lexer);
    ok := TakeKey(s, FLOW_TEXT, lexer);
    ok := TakeValue(s, FLOW_TEXT, lexer);
    ok := TakeBracket(s, lexer);
    ok := TakeItem(s, lexer);
    ok := TakeEnd(s, lexer);
    ok, asserted := Fail(s, FLOW_TEXT, lexer);
  }

  // ----- lexers -----

  lemma {:induction false} MovedPrecedes(s: bytes, m: Mark, p: nat, q: nat)
    ensures p < q ==> m.Precedes(Moved(s, m, p, q, false))
    decreases if p < q then q - p else 0
  {
    if p < q {
      if IsBreak(s, p) {
        MovedPrecedes(s, NextLine(s, m, p), p + BreakWidth(s, p), q);
      } else {
        MovedPrecedes(s, Mark(m.index + 1, m.line, m.column + 1), p + 1, q);
      }
    }
  }

  lemma {:induction false} WordEnds(s: bytes, p: nat, c: nat)
    ensures Q.ScanWord(s, p, c).Scanned? ==> p < Q.ScanWord(s, p, c).end <= |s|
    decreases Q.Rest(s, p), if Q.BlankOrBreak(s, p) then 2 else 0
  {
    hide Q.Unescape, Q.Marker;
    if (c == 0 && Q.Marker(s, p)) || At0(s, p) == 0 {
    } else if Q.BlankOrBreak(s, p) {
      BlanksEnd(s, p, c, Q.NO_BLANKS);
    } else if At0(s, p) == QUOTE {
    } else if At0(s, p) == BACKSLASH {
      if IsBreak(s, p + 1) {
        BlanksEnd(s, p + 1 + BreakWidth(s, p + 1), 0, Q.Blanks([], true, [], []));
      } else {
        var u := Q.Unescape(s, p);
        if !u.Bad? {
          WordEnds(s, p + u.used, c + u.used);
        }
      }
    } else {
      WordEnds(s, p + 1, c + 1);
    }
  }

  lemma {:induction false} BlanksEnd(s: bytes, p: nat, c: nat, b: Q.Blanks)
    ensures Q.ScanBlanks(s, p, c, b).Scanned? ==> p < Q.ScanBlanks(s, p, c, b).end <= |s|
    decreases Q.Rest(s, p), 1
  {
    if IsBlank(s, p) {
      BlanksEnd(s, p + 1, c + 1, b.Blank(At0(s, p)));
    } else if IsBreak(s, p) {
      BlanksEnd(s, p + BreakWidth(s, p), 0, b.Break(Line(s, p)));
    } else {
      WordEnds(s, p, c);
    }
  }

  function QuotedLexed(s: bytes, pos: nat, mark: Mark): Lexed {
    var q := Q.ScanWord(s, pos + 1, mark.column + 1);
    if q.Failed? then LexError
    else var m := Moved(s, mark, pos, q.end, false); Lexed(q.end, m, m, false)
  }

  /** A lexer that scans double-quoted scalars, and the two plain scalars of the texts. */
  function TextLexer(s: bytes): Lexer {
    (x: Lexeme, pos: nat, mark: Mark, indent: int, flow: nat) =>
      if x == QuotedScalar(false) then QuotedLexed(s, pos, mark)
      else if x == PlainScalar && pos == 1 && mark == Mark(1, 0, 1) then Lexed(2, Mark(2, 0, 2), Mark(2, 0, 2), false)
      else if x == PlainScalar && pos == 5 && mark == Mark(5, 0, 5) && flow > 0 then
        Lexed(7, Mark(7, 1, 0), Mark(6, 0, 6), true)
      else LexError
  }

  lemma TextsAreLexed(s: bytes)
    requires |s| == 9
    ensures var l := TextLexer(s); Lexes(l, s) && LexesQuoted(l, s) && FindsKey(l) && FindsItem(l)
  {
    hide Q.ScanWord, Moved;
    var l := TextLexer(s);
    forall x: Lexeme, pos: nat, mark: Mark, indent: int, flow: nat
      ensures Fits(s, x, pos, mark, indent, flow, l(x, pos, mark, indent, flow))
    {
      WordEnds(s, pos + 1, mark.column + 1);
      if x == QuotedScalar(false) && l(x, pos, mark, indent, flow).Lexed? {
        MovedPrecedes(s, mark, pos, l(x, pos, mark, indent, flow).pos);
      }
    }
    forall pos: nat, mark: Mark, indent: int, flow: nat
      ensures Agree(s, pos, mark, l(QuotedScalar(false), pos, mark, indent, flow),
              Q.ScanWord(s, pos + 1, mark.column + 1))
    {
      assert l(QuotedScalar(false), pos, mark, indent, flow) == QuotedLexed(s, pos, mark);
    }
  }
}
