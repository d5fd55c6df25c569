/** Double-quoted scalars: what the emitter writes, what the scanner reads, and that the two are inverse. */
module YamlQuoted {
  import opened Bytes
  import opened YamlText

  // ----- writing -----

  datatype LineBreak = Cr | Ln | CrLn {
    function Text(): bytes {
      match this
      case Cr => [CR]
      case Ln => [LF]
      case CrLn => [CR, LF]
    }
  }

  /** What the output of a scalar depends on besides its value. */
  datatype Style = Style(unicode: bool, allowBreaks: bool, bestWidth: int, indent: nat, lineBreak: LineBreak)

  function Spaces(n: nat): (b: bytes)
    ensures |b| == n
  {
    if n == 0 then [] else [SPACE] + Spaces(n - 1)
  }

  /** IS_PRINTABLE on a well-formed character. */
  predicate Printable(v: bytes, i: nat)
    requires i < |v| && Width(v, i) > 0
  {
    var b := v[i];
    || b == LF
    || 0x20 <= b <= 0x7E
    || (b == 0xC2 && v[i + 1] >= 0xA0)
    || 0xC2 < b < 0xED
    || (b == 0xED && v[i + 1] < 0xA0)
    || b == 0xEE
    || (b == 0xEF && !(v[i + 1] == 0xBB && v[i + 2] == 0xBF) && !(v[i + 1] == 0xBF && v[i + 2] >= 0xBE))
  }

  predicate Escaped(st: Style, v: bytes, i: nat)
    requires i < |v| && Width(v, i) > 0
  {
    !Printable(v, i) || (!st.unicode && v[i] > 0x7F) || IsBreak(v, i) || v[i] == QUOTE || v[i] == BACKSLASH
  }

  /** The escape sequence for a code point. */
  function EscapeOf(code: nat): (e: bytes)
    ensures |e| >= 2 && e[0] == BACKSLASH
  {
    match code
    case 0 => [BACKSLASH, 48]
    case 7 => [BACKSLASH, 97]
    case 8 => [BACKSLASH, 98]
    case 9 => [BACKSLASH, 116]
    case 10 => [BACKSLASH, 110]
    case 11 => [BACKSLASH, 118]
    case 12 => [BACKSLASH, 102]
    case 13 => [BACKSLASH, 114]
    case 27 => [BACKSLASH, 101]
    case 34 => [BACKSLASH, QUOTE]
    case 92 => [BACKSLASH, BACKSLASH]
    case 0x85 => [BACKSLASH, 78]
    case 0xA0 => [BACKSLASH, 95]
    case 0x2028 => [BACKSLASH, 76]
    case 0x2029 => [BACKSLASH, 80]
    case _ => if code <= 0xFFFF then [BACKSLASH, 117] + Hex(code, 4) else [BACKSLASH, 85] + Hex(code, 8)
  }

  /** The escape sequence for a byte that is not part of a well-formed character. */
  function EscapeByte(b: byte): bytes {
    [BACKSLASH, 120] + Hex(b, 2)
  }

  /** A space is written as a line break if the line is long enough. */
  predicate Folds(st: Style, v: bytes, i: nat, column: int, spaces: bool) {
    st.allowBreaks && !spaces && column > st.bestWidth && i != 0 && i != |v| - 1
  }

  function Fold(st: Style, v: bytes, i: nat): bytes {
    st.lineBreak.Text() + (Spaces(st.indent) + if At0(v, i + 1) == SPACE then [BACKSLASH] else [])
  }

  function ColumnAfterFold(st: Style, v: bytes, i: nat): int {
    st.indent + if At0(v, i + 1) == SPACE then 1 else 0
  }

  /** The value from byte i on, written at the given column, behind a space or not. */
  function Render(st: Style, v: bytes, i: nat, column: int, spaces: bool): bytes
    requires i <= |v|
    decreases |v| - i
  {
    if i == |v| then [] else
      var w := Width(v, i);
      if w == 0 then EscapeByte(v[i]) + Render(st, v, i + 1, column + 4, false)
      else if Escaped(st, v, i) then
        var e := EscapeOf(Code(v, i));
        e + Render(st, v, i + w, column + |e|, false)
      else if v[i] == SPACE then
        if Folds(st, v, i, column, spaces)
        then Fold(st, v, i) + Render(st, v, i + 1, ColumnAfterFold(st, v, i), true)
        else [SPACE] + Render(st, v, i + 1, column + 1, true)
      else v[i..i + w] + Render(st, v, i + w, column + 1, false)
  }

  // ----- reading -----

  datatype Unescaped = Bad | Good(text: bytes, used: nat)

  /** An escape with k hexadecimal digits. */
  function Coded(s: bytes, p: nat, k: nat, raw: bool): Unescaped {
    var n := Unhex(s, p + 2, k);
    if n < 0 || Surrogate(n) || n > 0x10FFFF then Bad
    else Good(if n <= 0x7F || raw then [n % 256] else Utf8(n), 2 + k)
  }

  /** The escape sequence at p, where the backslash stands. */
  function Unescape(s: bytes, p: nat): (r: Unescaped)
    ensures r.Good? ==> r.used >= 2
  {
    match At0(s, p + 1)
    case 48 => Good([0], 2)
    case 97 => Good([7], 2)
    case 98 => Good([8], 2)
    case 116 => Good([9], 2)
    case 9 => Good([9], 2)
    case 110 => Good([10], 2)
    case 118 => Good([11], 2)
    case 102 => Good([12], 2)
    case 114 => Good([13], 2)
    case 101 => Good([27], 2)
    case 32 => Good([32], 2)
    case 34 => Good([34], 2)
    case 39 => Good([39], 2)
    case 92 => Good([92], 2)
    case 78 => Good([0xC2, 0x85], 2)
    case 95 => Good([0xC2, 0xA0], 2)
    case 76 => Good([0xE2, 0x80, 0xA8], 2)
    case 80 => Good([0xE2, 0x80, 0xA9], 2)
    case 120 => Coded(s, p, 2, false)
    case 88 => Coded(s, p, 2, true)
    case 117 => Coded(s, p, 4, false)
    case 85 => Coded(s, p, 8, false)
    case _ => Bad
  }

  datatype Scanned = Failed | Scanned(value: bytes, end: nat)

  function Before(x: bytes, r: Scanned): Scanned {
    if r.Failed? then Failed else Scanned(x + r.value, r.end)
  }

  /** Blanks read so far: spaces on the first line, whether a line break has been met, the first break, later breaks. */
  datatype Blanks = Blanks(spaces: bytes, broken: bool, first: bytes, more: bytes) {
    /** What they stand for: themselves, or a folded line break. */
    function Join(): bytes {
      if !broken then spaces
      else if first != [] && first[0] == LF then (if more == [] then [SPACE] else more)
      else first + more
    }

    function Break(line: bytes): Blanks {
      if broken then this.(more := more + line) else Blanks([], true, line, more)
    }

    function Blank(b: byte): Blanks {
      if broken then this else this.(spaces := spaces + [b])
    }
  }

  const NO_BLANKS := Blanks([], false, [], [])

  predicate BlankOrBreak(s: bytes, p: nat) {
    IsBlank(s, p) || IsBreak(s, p)
  }

  /** A document marker at the beginning of a line. */
  predicate Marker(s: bytes, p: nat) {
    && ((At0(s, p) == 45 && At0(s, p + 1) == 45 && At0(s, p + 2) == 45)
        || (At0(s, p) == 46 && At0(s, p + 1) == 46 && At0(s, p + 2) == 46))
    && (BlankOrBreak(s, p + 3) || At0(s, p + 3) == 0)
  }

  function Rest(s: bytes, p: nat): nat {
    if p < |s| then |s| - p else 0
  }

  /** The rest of a double-quoted scalar at p and column c. */
  function ScanWord(s: bytes, p: nat, c: nat): Scanned
    decreases Rest(s, p), if BlankOrBreak(s, p) then 2 else 0
  {
    if (c == 0 && Marker(s, p)) || At0(s, p) == 0 then Failed
    else if BlankOrBreak(s, p) then ScanBlanks(s, p, c, NO_BLANKS)
    else if At0(s, p) == QUOTE then Scanned([], p + 1)
    else if At0(s, p) == BACKSLASH then
      if IsBreak(s, p + 1) then ScanBlanks(s, p + 1 + BreakWidth(s, p + 1), 0, Blanks([], true, [], []))
      else
        var u := Unescape(s, p);
        if u.Bad? then Failed else Before(u.text, ScanWord(s, p + u.used, c + u.used))
    else Before([At0(s, p)], ScanWord(s, p + 1, c + 1))
  }

  /** The same, inside blanks and line breaks. */
  function ScanBlanks(s: bytes, p: nat, c: nat, b: Blanks): Scanned
    decreases Rest(s, p), 1
  {
    if IsBlank(s, p) then ScanBlanks(s, p + 1, c + 1, b.Blank(At0(s, p)))
    else if IsBreak(s, p) then ScanBlanks(s, p + BreakWidth(s, p), 0, b.Break(Line(s, p)))
    else Before(b.Join(), ScanWord(s, p, c))
  }

  // ----- the value that is read back -----

  datatype Value = Refused | Text(bytes: bytes)

  function Prefixed(x: bytes, r: Value): Value {
    if r.Refused? then Refused else Text(x + r.bytes)
  }

  /**
   * A value after the round trip: a byte that is not part of a well-formed character comes back as the character with
   * that number; a surrogate is refused.
   */
  function Repaired(v: bytes, i: nat): Value
    requires i <= |v|
    decreases |v| - i
  {
    if i == |v| then Text([]) else
      var w := Width(v, i);
      if w == 0 then Prefixed(Utf8(v[i]), Repaired(v, i + 1))
      else if Surrogate(Code(v, i)) then Refused
      else Prefixed(v[i..i + w], Repaired(v, i + w))
  }

  function Expected(v: bytes, i: nat, end: nat): Scanned
    requires i <= |v|
  {
    var r := Repaired(v, i);
    if r.Refused? then Failed else Scanned(r.bytes, end)
  }

  // ----- single characters -----

  lemma BeforeTwice(x: bytes, y: bytes, r: Scanned)
    ensures Before(x, Before(y, r)) == Before(x + y, r)
  {
    if r.Scanned? {
      assert x + (y + r.value) == (x + y) + r.value;
    }
  }

  /** The scanner undoes an escape sequence, except that it refuses surrogates. */
  lemma UnescapeOf(s: bytes, p: nat, code: nat)
    requires code <= 0x10FFFF && At(s, p, EscapeOf(code))
    ensures Unescape(s, p) == if Surrogate(code) then Bad else Good(Utf8(code), |EscapeOf(code)|)
    ensures At0(s, p) == BACKSLASH && !BlankOrBreak(s, p) && !IsBreak(s, p + 1)
  {
    hide *;
    if |EscapeOf(code)| == 2 {
      ShortEscape(s, p, code);
    } else {
      CodedEscape(s, p, code);
      LongEscape(s, p, code);
    }
  }

  lemma ShortEscape(s: bytes, p: nat, code: nat)
    requires code <= 0x10FFFF && At(s, p, EscapeOf(code)) && |EscapeOf(code)| == 2
    ensures Unescape(s, p) == Good(Utf8(code), 2) && !Surrogate(code)
    ensures At0(s, p) == BACKSLASH && !BlankOrBreak(s, p) && !IsBreak(s, p + 1)
  {
    hide Hex, Coded, At;
    AtBytes(s, p, EscapeOf(code), 0);
    AtBytes(s, p, EscapeOf(code), 1);
  }

  lemma LongEscape(s: bytes, p: nat, code: nat)
    requires code <= 0x10FFFF && At(s, p, EscapeOf(code)) && |EscapeOf(code)| != 2
    requires EscapeOf(code)[1] == if code <= 0xFFFF then 117 else 85
    requires Unhex(s, p + 2, if code <= 0xFFFF then 4 else 8) == code
    ensures Unescape(s, p) == if Surrogate(code) then Bad else Good(Utf8(code), |EscapeOf(code)|)
    ensures At0(s, p) == BACKSLASH && !BlankOrBreak(s, p) && !IsBreak(s, p + 1)
  {
    hide Hex, Unhex, At;
    AtBytes(s, p, EscapeOf(code), 0);
    AtBytes(s, p, EscapeOf(code), 1);
  }

  lemma CodedEscape(s: bytes, p: nat, code: nat)
    requires code <= 0x10FFFF && At(s, p, EscapeOf(code)) && |EscapeOf(code)| > 2
    ensures EscapeOf(code)[1] == if code <= 0xFFFF then 117 else 85
    ensures Unhex(s, p + 2, if code <= 0xFFFF then 4 else 8) == code
  {
    hide Hex, Unhex;
    var e := EscapeOf(code);
    var k := if code <= 0xFFFF then 4 else 8;
    AtAppend(s, p, [BACKSLASH, e[1]], Hex(code, k));
    Sixteens();
    HexRoundTrip(s, p + 2, code, k);
  }

  lemma Sixteens()
    ensures Power16(2) == 0x100 && Power16(4) == 0x1_0000 && Power16(8) == 0x1_0000_0000
  {
    assert Power16(1) == 16 && Power16(2) == 0x100 && Power16(3) == 0x1000 && Power16(4) == 0x1_0000;
    assert Power16(5) == 0x10_0000 && Power16(6) == 0x100_0000 && Power16(7) == 0x1000_0000;
  }

  lemma UnescapeByte(s: bytes, p: nat, b: byte)
    requires b >= 0x80 && At(s, p, EscapeByte(b))
    ensures Unescape(s, p) == Good(Utf8(b), 4)
    ensures At0(s, p) == BACKSLASH && !BlankOrBreak(s, p) && !IsBreak(s, p + 1)
  {
    hide Hex, Unhex;
    AtByte(s, p, EscapeByte(b), 0);
    AtByte(s, p, EscapeByte(b), 1);
    AtAppend(s, p, [BACKSLASH, 120], Hex(b, 2));
    Sixteens();
    HexRoundTrip(s, p + 2, b, 2);
  }

  /** A byte the scanner copies. */
  predicate Plain(s: bytes, p: nat) {
    At0(s, p) != 0 && !BlankOrBreak(s, p) && At0(s, p) != QUOTE && At0(s, p) != BACKSLASH
  }

  ghost predicate AllPlain(s: bytes, p: nat, q: nat) {
    forall k: nat | p <= k < q :: Plain(s, k)
  }

  lemma {:induction false} PlainBytes(s: bytes, p: nat, c: nat, x: bytes)
    requires At(s, p, x) && c > 0 && AllPlain(s, p, p + |x|)
    ensures ScanWord(s, p, c) == Before(x, ScanWord(s, p + |x|, c + |x|))
    decreases |x|
  {
    hide Plain, ScanWord, At;
    if x == [] {
      NothingBefore(ScanWord(s, p, c));
    } else {
      var y := x[1..];
      assert x == [x[0]] + y;
      AtAppend(s, p, [x[0]], y);
      AtByte(s, p, x, 0);
      ScanPlain(s, p, c);
      PlainBytes(s, p + 1, c + 1, y);
      BeforeTwice([x[0]], y, ScanWord(s, p + |x|, c + |x|));
      AtIndex(s, p, x);
    }
  }

  lemma NothingBefore(r: Scanned)
    ensures Before([], r) == r
  {
  }

  lemma AtIndex(s: bytes, p: nat, x: bytes)
    requires At(s, p, x) && x != []
    ensures At0(s, p) == x[0]
  {
    AtByte(s, p, x, 0);
  }

  lemma ScanPlain(s: bytes, p: nat, c: nat)
    requires Plain(s, p) && c > 0
    ensures ScanWord(s, p, c) == Before([At0(s, p)], ScanWord(s, p + 1, c + 1))
  {
    hide BlankOrBreak, Before, Unescape, Marker;
  }

  lemma ScanEscape(s: bytes, p: nat, c: nat)
    requires At0(s, p) == BACKSLASH && !BlankOrBreak(s, p) && !IsBreak(s, p + 1) && c > 0
    ensures var u := Unescape(s, p);
            ScanWord(s, p, c) == if u.Bad? then Failed else Before(u.text, ScanWord(s, p + u.used, c + u.used))
  {
    hide BlankOrBreak, Before, Unescape, IsBreak, Marker;
  }

  /** A character the emitter copies is copied by the scanner, byte by byte. */
  lemma RawCharacter(st: Style, v: bytes, i: nat, s: bytes, p: nat)
    requires i < |v| && Width(v, i) > 0 && !Escaped(st, v, i) && v[i] != SPACE && At(s, p, v[i..i + Width(v, i)])
    ensures AllPlain(s, p, p + Width(v, i)) && !Surrogate(Code(v, i))
  {
    hide At;
    var w := Width(v, i);
    forall k: nat | p <= k < p + w ensures At0(s, k) == v[i + k - p] {
      AtBytes(s, p, v[i..i + w], k - p);
    }
    forall k: nat | p <= k < p + w ensures Plain(s, k) {
      assert k > p ==> Continues(v[i + k - p]);
    }
    NotSurrogate(v, i);
  }

  lemma AtBytes(s: bytes, p: nat, x: bytes, k: nat)
    requires At(s, p, x) && k < |x|
    ensures At0(s, p + k) == x[k]
  {
    AtByte(s, p, x, k);
  }

  lemma NotSurrogate(v: bytes, i: nat)
    requires i < |v| && Width(v, i) > 0 && Printable(v, i)
    ensures !Surrogate(Code(v, i))
  {
  }

  // ----- folds -----

  lemma {:induction false} SkipSpaces(s: bytes, p: nat, c: nat, b: Blanks, n: nat)
    requires b.broken && At(s, p, Spaces(n))
    ensures ScanBlanks(s, p, c, b) == ScanBlanks(s, p + n, c + n, b)
    decreases n
  {
    hide ScanWord, At, IsBreak;
    if n > 0 {
      AtAppend(s, p, [SPACE], Spaces(n - 1));
      AtBytes(s, p, [SPACE], 0);
      SkipSpaces(s, p + 1, c + 1, b, n - 1);
    }
  }

  const FOLDED := Blanks([], true, [LF], [])

  /** The scanner turns the line break and the indentation of a fold into one pending space. */
  lemma FoldIsBlank(s: bytes, p: nat, c: nat, br: LineBreak, indent: nat)
    requires indent > 0 && At(s, p, br.Text() + Spaces(indent)) && c > 0
    ensures var q := p + |br.Text()| + indent;
            ScanWord(s, p, c) == ScanBlanks(s, q, indent, FOLDED)
  {
    hide Marker, Unescape, Before;
    AtAppend(s, p, br.Text(), Spaces(indent));
    var q := p + |br.Text()|;
    AtBytes(s, p, br.Text(), 0);
    AtBytes(s, q, Spaces(indent), 0);
    if br.CrLn? {
      AtBytes(s, p, br.Text(), 1);
    }
    assert IsBreak(s, p) && BreakWidth(s, p) == |br.Text()| && Line(s, p) == [LF] && !IsBlank(s, p);
    assert ScanBlanks(s, p, c, NO_BLANKS) == ScanBlanks(s, q, 0, FOLDED);
    SkipSpaces(s, q, 0, FOLDED, indent);
  }

  lemma EndBlanks(s: bytes, p: nat, c: nat, b: Blanks)
    requires !BlankOrBreak(s, p)
    ensures ScanBlanks(s, p, c, b) == Before(b.Join(), ScanWord(s, p, c))
  {
    hide ScanWord, Blanks.Join, IsBlank, IsBreak;
    assert !IsBlank(s, p) && !IsBreak(s, p) by {
      NeitherBlank(s, p);
    }
  }

  lemma NeitherBlank(s: bytes, p: nat)
    requires !BlankOrBreak(s, p)
    ensures !IsBlank(s, p) && !IsBreak(s, p)
  {
  }

  /** An escaped space. */
  lemma EscapedSpace(s: bytes, p: nat, c: nat)
    requires At(s, p, [BACKSLASH, SPACE]) && c > 0
    ensures !BlankOrBreak(s, p) && ScanWord(s, p, c) == Before([SPACE], ScanWord(s, p + 2, c + 2))
  {
    hide Before, Marker, Coded;
    AtBytes(s, p, [BACKSLASH, SPACE], 0);
    AtBytes(s, p, [BACKSLASH, SPACE], 1);
  }

  // ----- the round trip -----

  /** The text from byte i on and the closing quote stand at p. */
  ghost predicate Stands(st: Style, v: bytes, i: nat, column: int, spaces: bool, s: bytes, p: nat)
    requires i <= |v|
  {
    At(s, p, Render(st, v, i, column, spaces) + [QUOTE])
  }

  function End(st: Style, v: bytes, i: nat, column: int, spaces: bool, p: nat): nat
    requires i <= |v|
  {
    p + |Render(st, v, i, column, spaces)| + 1
  }

  predicate RawSpace(v: bytes, i: nat) {
    i < |v| && v[i] == SPACE
  }

  /** What is written for the character at i, when it is not folded. */
  function Piece(st: Style, v: bytes, i: nat): bytes
    requires i < |v|
  {
    var w := Width(v, i);
    if w == 0 then EscapeByte(v[i])
    else if Escaped(st, v, i) then EscapeOf(Code(v, i))
    else v[i..i + w]
  }

  function ColumnAfter(st: Style, v: bytes, i: nat, column: int): int
    requires i < |v|
  {
    if Width(v, i) == 0 || Escaped(st, v, i) then column + |Piece(st, v, i)| else column + 1
  }

  function Next(v: bytes, i: nat): (j: nat)
    requires i < |v|
    ensures i < j <= |v|
  {
    if Width(v, i) == 0 then i + 1 else i + Width(v, i)
  }

  lemma SpaceIsRaw(st: Style, v: bytes, i: nat)
    requires RawSpace(v, i)
    ensures Width(v, i) == 1 && !Escaped(st, v, i) && Piece(st, v, i) == [SPACE] && !Surrogate(Code(v, i))
  {
  }

  lemma UnfoldRender(st: Style, v: bytes, i: nat, column: int, spaces: bool)
    requires i < |v|
    ensures RawSpace(v, i) && Folds(st, v, i, column, spaces)
        ==> Render(st, v, i, column, spaces) == Fold(st, v, i) + Render(st, v, i + 1, ColumnAfterFold(st, v, i), true)
    ensures !(RawSpace(v, i) && Folds(st, v, i, column, spaces))
        ==>
        Render(st, v, i, column, spaces)
        == Piece(st, v, i) + Render(st, v, Next(v, i), ColumnAfter(st, v, i, column), RawSpace(v, i))
  {
    hide Folds, Fold, Printable, IsBreak, Code, EscapeOf, EscapeByte;
    if RawSpace(v, i) {
      SpaceIsRaw(st, v, i);
    }
    assert |EscapeByte(v[i])| == 4 by {
      ByteEscapeLength(v[i]);
    }
  }

  lemma ByteEscapeLength(b: byte)
    ensures |EscapeByte(b)| == 4
  {
    hide Hex;
  }

  /** Where the next text stands, behind a piece of text. */
  lemma StandsNext(st: Style, v: bytes, i: nat, column: int, spaces: bool, s: bytes, p: nat,
                   piece: bytes, j: nat, column': int, spaces': bool)
    requires i < j <= |v| && Stands(st, v, i, column, spaces, s, p)
    requires Render(st, v, i, column, spaces) == piece + Render(st, v, j, column', spaces')
    ensures At(s, p, piece) && Stands(st, v, j, column', spaces', s, p + |piece|)
    ensures End(st, v, i, column, spaces, p) == End(st, v, j, column', spaces', p + |piece|)
  {
    hide Render, At;
    var rest := Render(st, v, j, column', spaces') + [QUOTE];
    assert (piece + Render(st, v, j, column', spaces')) + [QUOTE] == piece + rest;
    AtAppend(s, p, piece, rest);
  }

  lemma StandsAtEnd(st: Style, v: bytes, column: int, spaces: bool, s: bytes, p: nat, c: nat)
    requires Stands(st, v, |v|, column, spaces, s, p) && c > 0
    ensures !BlankOrBreak(s, p) && ScanWord(s, p, c) == Scanned([], p + 1)
    ensures ScanWord(s, p, c) == Expected(v, |v|, End(st, v, |v|, column, spaces, p))
  {
    hide Marker, Unescape, Before;
    AtBytes(s, p, [QUOTE], 0);
  }

  /** What a character comes back as. */
  function Decoded(v: bytes, i: nat): bytes
    requires i < |v|
  {
    if Width(v, i) == 0 then Utf8(v[i]) else v[i..i + Width(v, i)]
  }

  predicate IsSurrogate(v: bytes, i: nat)
    requires i < |v|
  {
    Width(v, i) > 0 && Surrogate(Code(v, i))
  }

  lemma UnfoldExpected(v: bytes, i: nat, end: nat)
    requires i < |v|
    ensures Expected(v, i, end) == if IsSurrogate(v, i) then Failed
            else Before(Decoded(v, i), Expected(v, Next(v, i), end))
  {
    hide Surrogate, Code, Utf8;
  }

  /** The scanner on what is written for one character other than a space. */
  lemma PieceReads(st: Style, v: bytes, i: nat, s: bytes, p: nat, c: nat)
    requires i < |v| && !RawSpace(v, i) && At(s, p, Piece(st, v, i)) && c > 0
    ensures !BlankOrBreak(s, p)
    ensures var n := |Piece(st, v, i)|;
            ScanWord(s, p, c) == if IsSurrogate(v, i) then Failed else Before(Decoded(v, i), ScanWord(s, p + n, c + n))
  {
    hide BlankOrBreak, Before, Unescape, Plain, At, EscapeOf, EscapeByte, IsBreak, Escaped, Surrogate, Code, ScanWord;
    var w := Width(v, i);
    if w == 0 {
      ByteEscapeLength(v[i]);
      UnescapeByte(s, p, v[i]);
      ScanEscape(s, p, c);
    } else if Escaped(st, v, i) {
      Utf8OfCode(v, i);
      UnescapeOf(s, p, Code(v, i));
      ScanEscape(s, p, c);
    } else {
      RawCharacter(st, v, i, s, p);
      PlainBytes(s, p, c, v[i..i + w]);
      PlainIsNoBlank(s, p);
    }
  }

  lemma PlainIsNoBlank(s: bytes, p: nat)
    requires Plain(s, p)
    ensures !BlankOrBreak(s, p)
  {
    hide BlankOrBreak;
  }

  /** Text that does not start with a raw space does not start with a blank or a break. */
  lemma StartsFull(st: Style, v: bytes, i: nat, column: int, spaces: bool, s: bytes, p: nat)
    requires i <= |v| && !RawSpace(v, i) && Stands(st, v, i, column, spaces, s, p)
    ensures !BlankOrBreak(s, p)
  {
    hide *;
    if i == |v| {
      StandsAtEnd(st, v, column, spaces, s, p, 1);
    } else {
      UnfoldRender(st, v, i, column, spaces);
      StandsNext(st, v, i, column, spaces, s, p, Piece(st, v, i), Next(v, i), ColumnAfter(st, v, i, column),
        RawSpace(v, i));
      PieceReads(st, v, i, s, p, 1);
    }
  }

  lemma ScanRawSpace(s: bytes, p: nat, c: nat)
    requires At(s, p, [SPACE])
    ensures IsBlank(s, p) && At0(s, p) == SPACE
    ensures c > 0 ==> ScanWord(s, p, c) == ScanBlanks(s, p, c, NO_BLANKS)
    ensures forall ws: bytes :: ScanBlanks(s, p, c, Blanks(ws, false, [], [])) == ScanBlanks(s, p + 1, c + 1,
            Blanks(ws + [SPACE], false, [], []))
  {
    hide At, IsBreak, Marker, Unescape;
    AtBytes(s, p, [SPACE], 0);
  }

  lemma EndSpaces(s: bytes, p: nat, c: nat, ws: bytes)
    requires !BlankOrBreak(s, p)
    ensures ScanBlanks(s, p, c, Blanks(ws, false, [], [])) == Before(ws, ScanWord(s, p, c))
    ensures ScanBlanks(s, p, c, FOLDED) == Before([SPACE], ScanWord(s, p, c))
  {
    hide ScanBlanks, ScanWord, BlankOrBreak, Before;
    EndBlanks(s, p, c, Blanks(ws, false, [], []));
    EndBlanks(s, p, c, FOLDED);
  }

  lemma {:induction false} WordReadsBack(st: Style, v: bytes, i: nat, column: int, spaces: bool, s: bytes, p: nat,
      c: nat)
    requires st.indent > 0 && c > 0 && i <= |v| && Stands(st, v, i, column, spaces, s, p)
    ensures ScanWord(s, p, c) == Expected(v, i, End(st, v, i, column, spaces, p))
    decreases |v| - i, 0
  {
    hide *;
    if i == |v| {
      StandsAtEnd(st, v, column, spaces, s, p, c);
      return;
    }
    UnfoldRender(st, v, i, column, spaces);
    UnfoldExpected(v, i, End(st, v, i, column, spaces, p));
    if RawSpace(v, i) && Folds(st, v, i, column, spaces) {
      FoldReadsBack(st, v, i, column, spaces, s, p, c);
    } else {
      var piece, column' := Piece(st, v, i), ColumnAfter(st, v, i, column);
      StandsNext(st, v, i, column, spaces, s, p, piece, Next(v, i), column', RawSpace(v, i));
      if RawSpace(v, i) {
        SpaceIsRaw(st, v, i);
        SpaceNext(v, i);
        ScanRawSpace(s, p, c);
        NoBlanksYet();
        BlanksReadBack(st, v, i + 1, column', s, p + 1, c + 1, [SPACE]);
      } else {
        PieceReads(st, v, i, s, p, c);
        WordReadsBack(st, v, Next(v, i), column', RawSpace(v, i), s, p + |piece|, c + |piece|);
      }
    }
  }

  lemma NoBlanksYet()
    ensures NO_BLANKS == Blanks([], false, [], []) && [] + [SPACE] == [SPACE]
  {
  }

  lemma SpaceNext(v: bytes, i: nat)
    requires RawSpace(v, i)
    ensures i < |v| && Next(v, i) == i + 1 && Decoded(v, i) == [SPACE] && !IsSurrogate(v, i)
  {
  }

  lemma {:induction false} BlanksReadBack(st: Style, v: bytes, i: nat, column: int, s: bytes, p: nat, c: nat, ws: bytes)
    requires st.indent > 0 && c > 0 && i <= |v| && Stands(st, v, i, column, true, s, p)
    ensures ScanBlanks(s, p, c, Blanks(ws, false, [], [])) == Before(ws, Expected(v, i, End(st, v, i, column, true, p)))
    decreases |v| - i, 1
  {
    hide *;
    if RawSpace(v, i) {
      SpaceNext(v, i);
      NoFold(st, v, i, column);
      UnfoldRender(st, v, i, column, true);
      UnfoldExpected(v, i, End(st, v, i, column, true, p));
      SpaceIsRaw(st, v, i);
      var column' := ColumnAfter(st, v, i, column);
      StandsNext(st, v, i, column, true, s, p, [SPACE], i + 1, column', true);
      ScanRawSpace(s, p, c);
      BlanksReadBack(st, v, i + 1, column', s, p + 1, c + 1, ws + [SPACE]);
      BeforeTwice(ws, [SPACE], Expected(v, i + 1, End(st, v, i, column, true, p)));
    } else {
      StartsFull(st, v, i, column, true, s, p);
      EndSpaces(s, p, c, ws);
      WordReadsBack(st, v, i, column, true, s, p, c);
    }
  }

  lemma NoFold(st: Style, v: bytes, i: nat, column: int)
    ensures !Folds(st, v, i, column, true)
  {
  }

  lemma {:induction false} FoldReadsBack(st: Style, v: bytes, i: nat, column: int, spaces: bool, s: bytes, p: nat,
      c: nat)
    requires st.indent > 0 && c > 0 && i < |v| && Stands(st, v, i, column, spaces, s, p)
    requires RawSpace(v, i) && Folds(st, v, i, column, spaces)
    ensures ScanWord(s, p, c) == Expected(v, i, End(st, v, i, column, spaces, p))
    decreases |v| - i, 0, 0
  {
    hide *;
    var end, column1 := End(st, v, i, column, spaces, p), ColumnAfterFold(st, v, i);
    UnfoldRender(st, v, i, column, spaces);
    UnfoldExpected(v, i, end);
    SpaceNext(v, i);
    StandsNext(st, v, i, column, spaces, s, p, Fold(st, v, i), i + 1, column1, true);
    UnfoldFold(st, v, i, s, p);
    var q := p + |st.lineBreak.Text()| + st.indent;
    FoldIsBlank(s, p, c, st.lineBreak, st.indent);
    if RawSpace(v, i + 1) {
      SpaceNext(v, i + 1);
      NoFold(st, v, i + 1, column1);
      UnfoldRender(st, v, i + 1, column1, true);
      SpaceIsRaw(st, v, i + 1);
      var column2 := ColumnAfter(st, v, i + 1, column1);
      StandsNext(st, v, i + 1, column1, true, s, q + 1, [SPACE], i + 2, column2, true);
      UnfoldExpected(v, i + 1, end);
      AtPair(s, q);
      EscapedSpace(s, q, st.indent);
      EndSpaces(s, q, st.indent, []);
      WordReadsBack(st, v, i + 2, column2, true, s, q + 2, st.indent + 2);
    } else {
      StartsFull(st, v, i + 1, column1, true, s, q);
      EndSpaces(s, q, st.indent, []);
      WordReadsBack(st, v, i + 1, column1, true, s, q, st.indent);
    }
  }

  lemma AtPair(s: bytes, q: nat)
    requires At(s, q, [BACKSLASH]) && At(s, q + 1, [SPACE])
    ensures At(s, q, [BACKSLASH, SPACE])
  {
    assert [BACKSLASH] + [SPACE] == [BACKSLASH, SPACE];
    AtAppend(s, q, [BACKSLASH], [SPACE]);
  }

  lemma UnfoldFold(st: Style, v: bytes, i: nat, s: bytes, p: nat)
    requires RawSpace(v, i) && At(s, p, Fold(st, v, i))
    ensures At(s, p, st.lineBreak.Text() + Spaces(st.indent))
    ensures var q := p + |st.lineBreak.Text()| + st.indent;
            if RawSpace(v, i + 1) then At(s, q, [BACKSLASH]) && p + |Fold(st, v, i)| == q + 1
              else p + |Fold(st, v, i)| == q
  {
    hide At, LineBreak.Text;
    var a, b, e := st.lineBreak.Text(), Spaces(st.indent), if At0(v, i + 1) == SPACE then [BACKSLASH] else [];
    assert a + (b + e) == (a + b) + e;
    AtAppend(s, p, a + b, e);
  }

  // ----- which values come back unchanged -----

  /** Well-formed UTF-8 without surrogates, from byte i on. */
  predicate WellFormed(v: bytes, i: nat)
    requires i <= |v|
    decreases |v| - i
  {
    i < |v| ==> Width(v, i) > 0 && !Surrogate(Code(v, i)) && WellFormed(v, i + Width(v, i))
  }

  /** Repairing never shortens a value, and lengthens it if there is anything to repair. */
  lemma {:induction false} UnchangedIffWellFormed(v: bytes, i: nat)
    requires i <= |v|
    ensures var r := Repaired(v, i);
            && (r.Text? ==> |r.bytes| >= |v| - i && (|r.bytes| == |v| - i <==> WellFormed(v, i)))
            && (WellFormed(v, i) ==> r == Text(v[i..]))
    decreases |v| - i
  {
    hide Surrogate, Code;
    if i < |v| {
      var w := Width(v, i);
      if w == 0 {
        HighByte(v, i);
        UnchangedIffWellFormed(v, i + 1);
      } else {
        UnchangedIffWellFormed(v, i + w);
        assert v[i..] == v[i..i + w] + v[i + w..];
      }
    }
  }

  lemma HighByte(v: bytes, i: nat)
    requires i < |v| && Width(v, i) == 0
    ensures v[i] >= 0x80 && |Utf8(v[i])| == 2
  {
  }

  /**
   * The round trip of double-quoted scalars. For every value, style and position, the scanner finds in the emitter's
   * text the repaired value and the end of the scalar, or refuses it if the value has a surrogate; so it reads the
   * value itself exactly if that is well-formed UTF-8 without surrogates.
   */
  lemma QuotedScalarReadsBack(st: Style, v: bytes, column: int, s: bytes, p: nat, c: nat)
    requires st.indent > 0 && c > 0 && At(s, p, Render(st, v, 0, column, false) + [QUOTE])
    ensures var end := p + |Render(st, v, 0, column, false)| + 1; var r := Repaired(v, 0);
            && ScanWord(s, p, c) == (if r.Refused? then Failed else Scanned(r.bytes, end))
            && (ScanWord(s, p, c) == Scanned(v, end) <==> WellFormed(v, 0))
  {
    hide Render, ScanWord, Repaired, WellFormed;
    assert Stands(st, v, 0, column, false, s, p);
    WordReadsBack(st, v, 0, column, false, s, p, c);
    UnchangedIffWellFormed(v, 0);
    assert v[0..] == v;
  }
}
