/** The double-quoted scalar writer of the emitter and the scalar scanner of the parser, as they run. */
module YamlQuotedIo {
  import opened Bytes
  import opened YamlText
  import opened YamlQuoted

  /** n shifted right by k hexadecimal digits. */
  function Shifted(n: nat, k: nat): nat {
    if k == 0 then n else Shifted(n, k - 1) / 16
  }

  /** The emitter, as far as quoted scalars need it. */
  class Writer {
    var out: bytes
    var column: int
    var indent: int
    var indents: seq<int>
    var bestIndent: int
    var bestWidth: int
    var unicode: bool
    var lineBreak: LineBreak
    var whitespace: bool
    var indention: bool
    var openEnded: bool

    /** yaml_emitter_emit_stream_start, with the user's settings. */
    constructor (indent: int, width: int, unicode: bool, lineBreak: LineBreak)
      ensures out == [] && column == 0 && this.indent == -1 && indents == [] && whitespace && indention
      ensures 2 <= bestIndent <= 9 && (2 <= indent <= 9 ==> bestIndent == indent)
      ensures this.unicode == unicode && this.lineBreak == lineBreak
    {
      out, column, this.indent, indents := [], 0, -1, [];
      this.unicode, this.lineBreak := unicode, lineBreak;
      whitespace, indention, openEnded := true, true, false;
      var best := if indent < 2 || indent > 9 then 2 else indent;
      bestIndent := best;
      bestWidth := if 0 <= width <= best * 2 then 80 else if width < 0 then 0x7FFF_FFFF else width;
    }

    /** The style of a scalar written now. */
    function Style(allowBreaks: bool): Style
      reads this
    {
      YamlQuoted.Style(unicode, allowBreaks, bestWidth, if indent >= 0 then indent else 0, lineBreak)
    }

    method Put(b: byte)
      modifies `out, `column
      ensures out == old(out) + [b] && column == old(column) + 1
    {
      out, column := out + [b], column + 1;
    }

    /** WRITE and WRITEN: a whole character is one column. */
    method Write(character: bytes)
      modifies `out, `column
      ensures out == old(out) + character && column == old(column) + 1
    {
      out, column := out + character, column + 1;
    }

    method PutBreak()
      modifies `out, `column
      ensures out == old(out) + lineBreak.Text() && column == 0
    {
      out, column := out + lineBreak.Text(), 0;
    }

    /** yaml_emitter_write_indent. */
    method WriteIndent()
      modifies `out, `column, `whitespace, `indention
      ensures var n := if indent >= 0 then indent else 0;
              var breaks := !old(indention) || old(column) > n || (old(column) == n && !old(whitespace));
              var from := if breaks then 0 else old(column);
              && from <= n == column
              && (from >= 0 ==> out == old(out) + (if breaks then lineBreak.Text() else []) + Spaces(n - from))
      ensures whitespace && indention
    {
      var n := if indent >= 0 then indent else 0;
      if !indention || column > n || (column == n && !whitespace) {
        PutBreak();
      }
      ghost var start, from := out, column;
      assert out == start + Spaces(0);
      while column < n
        invariant from <= column <= n && out == start + Spaces(column - from)
      {
        SpacesGrow(column - from);
        assert start + Spaces(column - from) + [SPACE] == start + (Spaces(column - from) + [SPACE]);
        Put(SPACE);
      }
      whitespace, indention := true, true;
    }

    /** yaml_emitter_write_indicator for a quotation mark. */
    method WriteQuote(needWhitespace: bool)
      modifies `out, `column, `whitespace, `indention, `openEnded
      ensures out == old(out) + (if needWhitespace && !old(whitespace) then [SPACE] else []) + [QUOTE]
      ensures column == old(column) + if needWhitespace && !old(whitespace) then 2 else 1
      ensures !whitespace && !indention
    {
      if needWhitespace && !whitespace {
        Put(SPACE);
      }
      Write([QUOTE]);
      whitespace, indention, openEnded := false, false, false;
    }

    /** The loop over the digits of a code point. */
    method PutHex(value: nat, width: nat)
      requires width > 0
      modifies `out, `column
      ensures out == old(out) + Hex(value, width) && column == old(column) + width
    {
      hide HexDigit;
      var k := width;
      ghost var start := out;
      while k > 0
        invariant 0 <= k <= width && column == old(column) + (width - k)
        invariant out == start + Hex(Shifted(value, k), width - k)
      {
        var digit := Shifted(value, k - 1) % 16;
        ghost var high := Hex(Shifted(value, k), width - k);
        assert start + high + [HexDigit(digit)] == start + (high + [HexDigit(digit)]);
        PutDigit(digit);
        k := k - 1;
      }
    }

    method PutDigit(digit: nat)
      requires digit < 16
      modifies `out, `column
      ensures out == old(out) + [HexDigit(digit)] && column == old(column) + 1
    {
      Put(if digit < 10 then digit + 48 else digit + 55);
    }

    /** The code point of a character, digit by digit. */
    method Decode(v: bytes, i: nat, width: nat) returns (value: nat)
      requires i < |v| && width == Width(v, i) > 0
      ensures value == Code(v, i)
    {
      var mask := match width case 1 => 128 case 2 => 32 case 3 => 16 case _ => 8;
      value := v[i] % mask;
      var k := 1;
      while k < width
        invariant 1 <= k <= width <= 4
        invariant k == 1 ==> value == v[i] % mask
        invariant k == 2 ==> value == (v[i] % mask) as int * 64 + v[i + 1] % 64
        invariant k == 3 ==> value == ((v[i] % mask) as int * 64 + v[i + 1] % 64) * 64 + v[i + 2] % 64
        invariant k == 4 ==>
          value
          == (((v[i] % mask) as int * 64 + v[i + 1] % 64) * 64 + v[i + 2] % 64) * 64 + v[i + 3] % 64
      {
        value := value * 64 + v[i + k] % 64;
        k := k + 1;
      }
      assert width == 1 ==> v[i] % 128 == v[i];
    }

    /** The escape sequence of a code point. */
    method PutEscape(value: nat)
      modifies `out, `column
      ensures out == old(out) + EscapeOf(value) && column == old(column) + |EscapeOf(value)|
    {
      hide Hex, EscapeOf;
      Put(BACKSLASH);
      PutEscapeCode(value);
      assert EscapeOf(value) == [BACKSLASH] + EscapeOf(value)[1..];
    }

    method PutEscapeCode(value: nat)
      modifies `out, `column
      ensures out == old(out) + EscapeOf(value)[1..] && column == old(column) + |EscapeOf(value)| - 1
    {
      hide Hex;
      match value
      case 0 => Put(48);
      case 7 => Put(97);
      case 8 => Put(98);
      case 9 => Put(116);
      case 10 => Put(110);
      case 11 => Put(118);
      case 12 => Put(102);
      case 13 => Put(114);
      case 27 => Put(101);
      case 34 => Put(QUOTE);
      case 92 => Put(BACKSLASH);
      case 0x85 => Put(78);
      case 0xA0 => Put(95);
      case 0x2028 => Put(76);
      case 0x2029 => Put(80);
      case _ =>
        if value <= 0xFFFF {
          Put(117);
          PutHex(value, 4);
          assert EscapeOf(value) == [BACKSLASH, 117] + Hex(value, 4);
        } else {
          Put(85);
          PutHex(value, 8);
          assert EscapeOf(value) == [BACKSLASH, 85] + Hex(value, 8);
        }
    }

    /** The escape sequence of a byte that is not part of a character. */
    method PutByte(b: byte)
      modifies `out, `column
      ensures out == old(out) + EscapeByte(b) && column == old(column) + 4
    {
      Put(BACKSLASH);
      Put(120);
      PutDigit(b / 16 % 16);
      PutDigit(b % 16);
      assert Hex(b, 2) == Hex(b / 16, 1) + [HexDigit(b % 16)]
        && Hex(b / 16, 1) == Hex(b / 16 / 16, 0) + [HexDigit(b / 16 % 16)];
      assert out == old(out) + EscapeByte(b);
    }

    /** Indentation has been written, and nothing but spaces behind it, or something else. */
    ghost predicate Behind(allowBreaks: bool, spaces: bool)
      reads this
    {
      indention ==> column >= Style(allowBreaks).indent && (column > Style(allowBreaks).indent || spaces)
    }

    /** A space: folded into a line break if the line is long enough. */
    method WriteSpace(v: bytes, i: nat, allowBreaks: bool, spaces: bool)
      requires RawSpace(v, i) && Behind(allowBreaks, spaces)
      modifies `out, `column, `whitespace, `indention
      ensures Style(allowBreaks) == old(Style(allowBreaks)) && Behind(allowBreaks, true)
      ensures out == old(out) + if old(Folds(Style(allowBreaks), v, i, column, spaces)) then Fold(Style(allowBreaks),
              v, i) else [SPACE]
      ensures column == if old(Folds(Style(allowBreaks), v, i, column,
              spaces)) then ColumnAfterFold(Style(allowBreaks), v, i) else old(column) + 1
    {
      ghost var before := out;
      if allowBreaks && !spaces && column > bestWidth && i != 0 && i != |v| - 1 {
        WriteIndent();
        if v[i + 1] == SPACE {
          Put(BACKSLASH);
        }
        assert out == before + Fold(Style(allowBreaks), v, i);
      } else {
        Write([SPACE]);
      }
    }

    /** A character that is not a space, escaped if need be. */
    method WritePiece(v: bytes, i: nat, allowBreaks: bool)
      requires i < |v| && !RawSpace(v, i)
      modifies `out, `column
      ensures out == old(out) + Piece(Style(allowBreaks), v, i) && column == ColumnAfter(Style(allowBreaks), v, i,
              old(column)) > old(column)
    {
      hide Printable, IsBreak, Code, EscapeOf, EscapeByte;
      ByteEscapeLength(v[i]);
      var width := Width(v, i);
      if width == 0 {
        PutByte(v[i]);
      } else if !Printable(v, i) || (!unicode && v[i] > 0x7F) || IsBreak(v, i) || v[i] == QUOTE || v[i] == BACKSLASH {
        var value := Decode(v, i, width);
        PutEscape(value);
      } else {
        Write(v[i..i + width]);
      }
    }

    /** One character of the value; the loop body of the scalar writer. */
    method WriteCharacter(v: bytes, i: nat, allowBreaks: bool, spaces: bool) returns (j: nat, spaces': bool)
      requires i < |v| && Behind(allowBreaks, spaces)
      modifies `out, `column, `whitespace, `indention
      ensures i < j <= |v| && Style(allowBreaks) == old(Style(allowBreaks)) && Behind(allowBreaks, spaces')
      ensures old(out + Render(Style(allowBreaks), v, i, column, spaces)) == out + Render(Style(allowBreaks), v, j,
              column, spaces')
    {
      hide Render, Piece, Fold, Folds, ColumnAfter, ColumnAfterFold;
      ghost var st, before, column0 := Style(allowBreaks), out, column;
      UnfoldRender(st, v, i, column0, spaces);
      j, spaces' := Next(v, i), v[i] == SPACE;
      if v[i] == SPACE {
        SpaceIsRaw(st, v, i);
        SpaceColumn(st, v, i, column0);
        WriteSpace(v, i, allowBreaks, spaces);
        Glue(before, if Folds(st, v, i, column0, spaces) then Fold(st, v, i) else [SPACE],
          Render(st, v, j, column, true));
      } else {
        WritePiece(v, i, allowBreaks);
        Glue(before, Piece(st, v, i), Render(st, v, j, column, false));
      }
    }

    /** yaml_emitter_write_double_quoted_scalar. */
    method WriteDoubleQuoted(v: bytes, allowBreaks: bool)
      modifies `out, `column, `whitespace, `indention, `openEnded
      ensures var space := if old(whitespace) then [] else [SPACE];
              out == old(out) + space + [QUOTE]
                     + (Render(Style(allowBreaks), v, 0, old(column) + |space| + 1, false) + [QUOTE])
    {
      hide Render;
      WriteQuote(true);
      ghost var st, start, column0 := Style(allowBreaks), out, column;
      var i, spaces := 0, false;
      while i < |v|
        invariant i <= |v| && Style(allowBreaks) == st
        invariant start + Render(st, v, 0, column0, false) == out + Render(st, v, i, column, spaces)
        invariant Behind(allowBreaks, spaces)
      {
        i, spaces := WriteCharacter(v, i, allowBreaks, spaces);
      }
      NothingLeft(st, v, column, spaces);
      WriteQuote(false);
      assert (start + Render(st, v, 0, column0, false)) + [QUOTE]
        == start + (Render(st, v, 0, column0, false) + [QUOTE]);
    }

    /** yaml_emitter_increase_indent. */
    method IncreaseIndent(flow: bool, indentless: bool)
      modifies `indent, `indents
      ensures indents == old(indents) + [old(indent)]
      ensures indent == if old(indent) < 0 then (if flow then bestIndent else 0)
                        else if indentless then old(indent) else old(indent) + bestIndent
    {
      indents := indents + [indent];
      if indent < 0 {
        indent := if flow then bestIndent else 0;
      } else if !indentless {
        indent := indent + bestIndent;
      }
    }

    /**
     * yaml_emitter_emit_scalar, for a double-quoted scalar without anchor and tag: whatever the indentation around it,
     * the scanner reads the repaired value back from the text.
     */
    method EmitDoubleQuoted(v: bytes, simpleKey: bool) returns (ghost text: bytes)
      requires bestIndent >= 2 && column >= 0
      modifies `out, `column, `whitespace, `indention, `openEnded, `indent, `indents
      ensures indent == old(indent) && indents == old(indents)
      ensures out == old(out) + (if old(whitespace) then [] else [SPACE]) + [QUOTE] + text
      ensures forall s: bytes, p: nat, c: nat | At(s, p, text) && c > 0 ::
                ScanWord(s, p, c) == (var r := Repaired(v, 0); if r.Refused? then Failed
                  else Scanned(r.bytes, p + |text|))
    {
      hide Render, ScanWord, Repaired, WellFormed, At;
      ghost var column0 := column + if whitespace then 1 else 2;
      IncreaseIndent(true, false);
      ghost var st := Style(!simpleKey);
      text := Render(st, v, 0, column0, false) + [QUOTE];
      WriteDoubleQuoted(v, !simpleKey);
      indent, indents := indents[|indents| - 1], indents[..|indents| - 1];
      forall s: bytes, p: nat, c: nat | At(s, p, text) && c > 0
        ensures ScanWord(s, p, c)
                == (var r := Repaired(v, 0); if r.Refused? then Failed else Scanned(r.bytes, p + |text|))
      {
        QuotedScalarReadsBack(st, v, column0, s, p, c);
      }
    }
  }

  lemma SpaceColumn(st: Style, v: bytes, i: nat, column: int)
    requires RawSpace(v, i)
    ensures ColumnAfter(st, v, i, column) == column + 1
  {
    SpaceIsRaw(st, v, i);
  }

  lemma Glue(a: bytes, b: bytes, c: bytes)
    ensures a + (b + c) == (a + b) + c
  {
  }

  lemma NothingLeft(st: Style, v: bytes, column: int, spaces: bool)
    ensures forall a: bytes :: a + Render(st, v, |v|, column, spaces) == a
  {
  }

  lemma {:induction false} SpacesGrow(n: nat)
    ensures Spaces(n) + [SPACE] == Spaces(n + 1)
  {
    if n > 0 {
      SpacesGrow(n - 1);
    }
  }

  // ----- scanning -----

  /** The scanner, inside a double-quoted scalar. */
  class Reader {
    const buffer: bytes
    var pos: nat
    var column: nat

    constructor (buffer: bytes, pos: nat, column: nat)
      ensures this.buffer == buffer && this.pos == pos && this.column == column
    {
      this.buffer, this.pos, this.column := buffer, pos, column;
    }

    method Skip()
      modifies this
      ensures pos == old(pos) + 1 && column == old(column) + 1
    {
      pos, column := pos + 1, column + 1;
    }

    /** READ_LINE and SKIP_LINE. */
    method ReadLine() returns (line: bytes)
      requires IsBreak(buffer, pos)
      modifies this
      ensures line == Line(buffer, old(pos)) && pos == old(pos) + BreakWidth(buffer, old(pos)) && column == 0
    {
      var b := At0(buffer, pos);
      if b == CR && At0(buffer, pos + 1) == LF {
        line, pos := [LF], pos + 2;
      } else if b == CR || b == LF {
        line, pos := [LF], pos + 1;
      } else if b == 0xC2 && At0(buffer, pos + 1) == 0x85 {
        line, pos := [LF], pos + 2;
      } else {
        line, pos := buffer[pos..pos + 3], pos + 3;
      }
      column := 0;
    }

    /** The digits of an escape sequence. */
    method ReadHex(length: nat) returns (value: int)
      ensures value == Unhex(buffer, pos + 2, length)
    {
      value := 0;
      var k := 0;
      while k < length
        invariant k <= length && value == Unhex(buffer, pos + 2, k)
      {
        if value >= 0 {
          value := if IsHex(At0(buffer, pos + 2 + k)) then value * 16 + AsHex(At0(buffer, pos + 2 + k)) else -1;
        }
        k := k + 1;
      }
    }

    /** An escape sequence; the backslash is still to be skipped. */
    method ReadEscape() returns (r: Unescaped)
      modifies this
      ensures r == Unescape(buffer, old(pos))
      ensures r.Good? ==> pos == old(pos) + r.used && column == old(column) + r.used
    {
      hide Unhex, Utf8;
      var text, length, raw := [], 0, false;
      var e := At0(buffer, pos + 1);
      match e {
        case 48 => text := [0];
        case 97 => text := [7];
        case 98 => text := [8];
        case 116 => text := [9];
        case 9 => text := [9];
        case 110 => text := [10];
        case 118 => text := [11];
        case 102 => text := [12];
        case 114 => text := [13];
        case 101 => text := [27];
        case 32 => text := [32];
        case 34 => text := [34];
        case 39 => text := [39];
        case 92 => text := [92];
        case 78 => text := [0xC2, 0x85];
        case 95 => text := [0xC2, 0xA0];
        case 76 => text := [0xE2, 0x80, 0xA8];
        case 80 => text := [0xE2, 0x80, 0xA9];
        case 120 => length := 2;
        case 88 => length, raw := 2, true;
        case 117 => length := 4;
        case 85 => length := 8;
        case _ => return Bad;
      }
      if length > 0 {
        var value := ReadHex(length);
        if value < 0 || (0xD800 <= value <= 0xDFFF) || value > 0x10FFFF {
          return Bad;
        }
        text := if value <= 0x7F || raw then [value % 256] else Utf8(value);
      }
      pos, column := pos + 2 + length, column + 2 + length;
      r := Good(text, 2 + length);
    }

    /** The loop over characters that are not blank. */
    method ReadWord() returns (ok: bool, text: bytes, broken: bool)
      requires !(column == 0 && Marker(buffer, pos)) && At0(buffer, pos) != 0
      modifies this
      ensures !ok ==> old(ScanWord(buffer, pos, column)) == Failed
      ensures ok && !broken ==> old(ScanWord(buffer, pos, column)) == Before(text, ScanWord(buffer, pos, column))
      ensures ok && !broken ==> At0(buffer, pos) == 0 || BlankOrBreak(buffer, pos) || At0(buffer, pos) == QUOTE
      ensures ok && broken ==>
        old(ScanWord(buffer, pos, column)) == Before(text, ScanBlanks(buffer, pos, column, Blanks([], true, [], [])))
      ensures ok ==> old(pos) <= pos && (pos == old(pos) ==> BlankOrBreak(buffer, pos) || At0(buffer, pos) == QUOTE)
      ensures ok && pos == old(pos) ==> text == [] && column == old(column) && !broken
    {
      hide Unescape, BlankOrBreak, Marker, Before;
      ghost var result := ScanWord(buffer, pos, column);
      text := [];
      NothingBefore(result);
      while !BlankOrBreak(buffer, pos) && At0(buffer, pos) != 0
        invariant old(pos) <= pos && (pos == old(pos) ==> text == [] && column == old(column) && At0(buffer, pos) != 0)
        invariant column > 0 || pos == old(pos)
        invariant result == Before(text, ScanWord(buffer, pos, column))
        decreases Rest(buffer, pos)
      {
        if At0(buffer, pos) == QUOTE {
          break;
        } else if At0(buffer, pos) == BACKSLASH && IsBreak(buffer, pos + 1) {
          Skip();
          var _ := ReadLine();
          return true, text, true;
        } else if At0(buffer, pos) == BACKSLASH {
          var u := ReadEscape();
          if u.Bad? {
            FailedBefore(text);
            return false, text, false;
          }
          BeforeTwice(text, u.text, ScanWord(buffer, pos, column));
          text := text + u.text;
        } else {
          BeforeTwice(text, [At0(buffer, pos)], ScanWord(buffer, pos + 1, column + 1));
          text := text + [At0(buffer, pos)];
          Skip();
        }
      }
      ok, broken := true, false;
    }

    /** The loop over blanks and line breaks, and what they stand for. */
    method ReadBlanks(broken: bool) returns (text: bytes)
      modifies this
      ensures old(ScanBlanks(buffer, pos, column, Blanks([], broken, [], [])))
              == Before(text, ScanWord(buffer, pos, column))
      ensures old(pos) <= pos && (old(BlankOrBreak(buffer, pos)) ==> old(pos) < pos)
    {
      hide ScanWord, Before;
      var whitespaces, leadingBlanks, leadingBreak, trailingBreaks := [], broken, [], [];
      while IsBlank(buffer, pos) || IsBreak(buffer, pos)
        invariant old(pos) <= pos
        invariant ScanBlanks(buffer, pos, column, Blanks(whitespaces, leadingBlanks, leadingBreak, trailingBreaks))
               == old(ScanBlanks(buffer, pos, column, Blanks([], broken, [], [])))
        decreases Rest(buffer, pos)
      {
        if IsBlank(buffer, pos) {
          if !leadingBlanks {
            whitespaces := whitespaces + [At0(buffer, pos)];
          }
          Skip();
        } else {
          var line := ReadLine();
          if !leadingBlanks {
            whitespaces, leadingBreak, leadingBlanks := [], line, true;
          } else {
            trailingBreaks := trailingBreaks + line;
          }
        }
      }
      if leadingBlanks {
        if leadingBreak != [] && leadingBreak[0] == LF {
          text := if trailingBreaks == [] then [SPACE] else trailingBreaks;
        } else {
          text := leadingBreak + trailingBreaks;
        }
      } else {
        text := whitespaces;
      }
    }

    /** yaml_parser_scan_flow_scalar in double-quoted mode; the opening quote is at the current position. */
    method ScanFlowScalar() returns (ok: bool, value: bytes)
      modifies this
      ensures var r := old(ScanWord(buffer, pos + 1, column + 1));
              ok == r.Scanned? && (ok ==> value == r.value && pos == r.end)
    {
      hide ScanWord, ScanBlanks, BlankOrBreak, Marker;
      ghost var result := ScanWord(buffer, pos + 1, column + 1);
      Skip();
      value := [];
      NothingBefore(result);
      while true
        invariant result == Before(value, ScanWord(buffer, pos, column))
        decreases Rest(buffer, pos)
      {
        if (column == 0 && Marker(buffer, pos)) || At0(buffer, pos) == 0 {
          Refusal(buffer, pos, column);
          return false, [];
        }
        ghost var start := pos;
        var fine, text, broken := ReadWord();
        if !fine {
          return false, [];
        }
        ghost var blanks := Blanks([], broken, [], []);
        if !broken {
          BeforeTwice(value, text, ScanWord(buffer, pos, column));
        } else {
          BeforeTwice(value, text, ScanBlanks(buffer, pos, column, blanks));
        }
        value := value + text;
        if At0(buffer, pos) == QUOTE {
          AtQuote(buffer, pos, column, broken);
          break;
        }
        if !broken {
          EnterBlanks(buffer, pos, column);
        }
        assert result == Before(value, ScanBlanks(buffer, pos, column, blanks));
        ghost var here := pos;
        var more := ReadBlanks(broken);
        BeforeTwice(value, more, ScanWord(buffer, pos, column));
        value := value + more;
        assert pos > start && start < |buffer|;
      }
      Skip();
      ok := true;
    }
  }

  lemma FailedBefore(x: bytes)
    ensures Before(x, Failed) == Failed
  {
  }

  lemma Refusal(s: bytes, p: nat, c: nat)
    requires (c == 0 && Marker(s, p)) || At0(s, p) == 0
    ensures ScanWord(s, p, c) == Failed
  {
  }

  lemma AtQuote(s: bytes, p: nat, c: nat, broken: bool)
    requires At0(s, p) == QUOTE
    ensures ScanWord(s, p, c) == Scanned([], p + 1)
    ensures ScanBlanks(s, p, c, Blanks([], true, [], [])) == Scanned([], p + 1)
  {
  }

  lemma EnterBlanks(s: bytes, p: nat, c: nat)
    requires At0(s, p) == 0 || BlankOrBreak(s, p)
    ensures At0(s, p) == 0 ==> !BlankOrBreak(s, p) && ScanWord(s, p, c) == Failed
    ensures ScanBlanks(s, p, c, NO_BLANKS) == ScanWord(s, p, c)
  {
  }
}
