/** What the codec promises: the reader inverts the writer, and exactly on which trees. */
module AmfLaws {
  import opened Bytes
  import opened Amf

  /** Every list of the tree has a length its 32-bit count can hold. */
  ghost predicate Fits(d: Data)
    decreases d
  {
    match d
    case Object(ms) => forall m | m in ms :: Fits(m.value)
    case EcmaArray(ms) => forall m | m in ms :: Fits(m.value)
    case Array(es) => |es| < 0x1_0000_0000 && forall e | e in es :: Fits(e)
    case _ => true
  }

  /** Every member of every associative array has a name. */
  ghost predicate Named(d: Data)
    decreases d
  {
    match d
    case Object(ms) => forall m | m in ms :: Named(m.value)
    case EcmaArray(ms) => forall m | m in ms :: m.name != [] && Named(m.value)
    case Array(es) => forall e | e in es :: Named(e)
    case _ => true
  }

  ghost predicate MembersFit(ms: seq<Member>) {
    forall m | m in ms :: Fits(m.value)
  }

  ghost predicate MembersNamed(ms: seq<Member>, ecma: bool) {
    forall m | m in ms :: (ecma ==> m.name != []) && Named(m.value)
  }

  /** Reading at c gives back d and stops exactly behind its bytes. */
  ghost predicate ReadsBack(src: Input, c: Cursor, d: Data) {
    ParseData(src, c) == (Ok(d), Cursor(c.pos + |Encode(d)|, c.eof))
  }

  lemma ReadText(src: Input, c: Cursor, s: Text)
    requires At(src.content, c.pos, EncodeText(s))
    ensures ParseText(src, c) == (Ok(s), Cursor(c.pos + 2 + |s|, c.eof))
  {
    hide Be16, U16;
    AtAppend(src.content, c.pos, Be16(|s|), s);
    Be16Inverse(|s|);
  }

  // ----- where the parts of a written tree stand -----

  lemma EnterObject(src: Input, c: Cursor, ms: seq<Member>)
    requires At(src.content, c.pos, Encode(Object(ms)))
    ensures src.Has(c, 1) && src.content[c.pos] == 3
    ensures At(src.content, c.pos + 1, EncodeMembers(ms) + TERMINATOR)
  {
    AtAppend(src.content, c.pos, [3], EncodeMembers(ms) + TERMINATOR);
    AtByte(src.content, c.pos, [3], 0);
  }

  lemma EnterEcmaArray(src: Input, c: Cursor, ms: seq<Member>)
    requires At(src.content, c.pos, Encode(EcmaArray(ms)))
    ensures src.Has(c, 5) && src.content[c.pos] == 8
    ensures At(src.content, c.pos + 5, EncodeMembers(ms) + TERMINATOR)
  {
    EnterCounted(src.content, c.pos, 8, EcmaCount(|ms|), EncodeMembers(ms) + TERMINATOR);
  }

  lemma EnterArray(src: Input, c: Cursor, es: seq<Data>)
    requires At(src.content, c.pos, Encode(Array(es))) && |es| < 0x1_0000_0000
    ensures c.pos + 5 <= |src.content| && src.content[c.pos] == 10 && U32(src.content[c.pos + 1..c.pos + 5]) == |es|
    ensures At(src.content, c.pos + 5, EncodeElements(es))
  {
    hide *;
    UnfoldArray(es);
    ArrayCountInverse(|es|);
    EnterCounted(src.content, c.pos, 10, ArrayCount(|es|), EncodeElements(es));
  }

  lemma UnfoldArray(es: seq<Data>)
    ensures Encode(Array(es)) == [10] + (ArrayCount(|es|) + EncodeElements(es))
  {
  }

  lemma ArrayCountInverse(n: uint32)
    ensures U32(ArrayCount(n)) == n
  {
    Be32Inverse(n);
  }

  lemma EnterCounted(b: bytes, p: nat, kind: byte, field: bytes, rest: bytes)
    requires At(b, p, [kind] + (field + rest)) && |field| == 4
    ensures p + 5 <= |b| && b[p] == kind && b[p + 1..p + 5] == field && At(b, p + 5, rest)
  {
    AtAppend(b, p, [kind], field + rest);
    AtByte(b, p, [kind], 0);
    AtAppend(b, p + 1, field, rest);
  }

  lemma EnterMember(src: Input, c: Cursor, ms: seq<Member>)
    requires ms != [] && At(src.content, c.pos, EncodeMembers(ms) + TERMINATOR)
    ensures ParseText(src, c) == (Ok(ms[0].name), Cursor(c.pos + 2 + |ms[0].name|, c.eof))
    ensures At(src.content, c.pos + 2 + |ms[0].name|, Encode(ms[0].value))
    ensures At(src.content, c.pos + |EncodeMember(ms[0])|, EncodeMembers(ms[1..]) + TERMINATOR)
  {
    hide *;
    var name, value, rest := EncodeText(ms[0].name), Encode(ms[0].value), EncodeMembers(ms[1..]) + TERMINATOR;
    UnfoldMembers(ms);
    AtAppend(src.content, c.pos, name, value + rest);
    AtAppend(src.content, c.pos + |name|, value, rest);
    ReadText(src, c, ms[0].name);
  }

  lemma UnfoldMembers(ms: seq<Member>)
    requires ms != []
    ensures |EncodeText(ms[0].name)| == 2 + |ms[0].name|
    ensures |EncodeMember(ms[0])| == 2 + |ms[0].name| + |Encode(ms[0].value)|
    ensures EncodeMembers(ms) + TERMINATOR
         == EncodeText(ms[0].name) + (Encode(ms[0].value) + (EncodeMembers(ms[1..]) + TERMINATOR))
  {
    Regroup(EncodeText(ms[0].name), Encode(ms[0].value), EncodeMembers(ms[1..]), TERMINATOR);
  }

  lemma Regroup(a: bytes, b: bytes, c: bytes, d: bytes)
    ensures ((a + b) + c) + d == a + (b + (c + d))
  {
  }

  lemma MembersLength(ms: seq<Member>)
    ensures ms == [] ==> EncodeMembers(ms) + TERMINATOR == TERMINATOR
    ensures ms != [] ==> |EncodeMembers(ms)| == |EncodeMember(ms[0])| + |EncodeMembers(ms[1..])|
    ensures ms != [] ==> |EncodeMember(ms[0])| == 2 + |ms[0].name| + |Encode(ms[0].value)|
  {
    hide Encode;
  }

  lemma ReadTerminator(src: Input, c: Cursor, ecma: bool)
    requires At(src.content, c.pos, TERMINATOR)
    ensures ParseMembers(src, c, ecma) == (Ok([]), Cursor(c.pos + 3, c.eof))
  {
    hide ParseText, U16;
    var none: Text := [];
    assert TERMINATOR == EncodeText(none) + [TYPE_END] && |EncodeText(none)| == 2;
    AtAppend(src.content, c.pos, EncodeText(none), [TYPE_END]);
    ReadText(src, c, none);
    AtByte(src.content, c.pos + 2, [TYPE_END], 0);
  }

  /** One turn of the member loop on a member that does not end it. */
  lemma StepMember(src: Input, c: Cursor, c1: Cursor, c2: Cursor, name: Text, value: Data, ecma: bool)
    requires ParseText(src, c) == (Ok(name), c1) && ParseData(src, c1) == (Ok(value), c2)
    requires !(ecma && name == [])
    ensures var rest := ParseMembers(src, c2, ecma);
            ParseMembers(src, c, ecma) == (Prepend([Member(CString(name), value)], rest.0), rest.1)
  {
  }

  lemma ParseObject(src: Input, c: Cursor, ms: Parsed<seq<Member>>, c': Cursor)
    requires src.Has(c, 1) && src.content[c.pos] == 3
    requires ParseMembers(src, Cursor(c.pos + 1, c.eof), false) == (ms, c')
    ensures ParseData(src, c) == (if ms.Ok? then Ok(Object(ms.value)) else Err(ms.error), c')
  {
    hide ParseMembers;
  }

  lemma ParseEcmaArray(src: Input, c: Cursor, ms: Parsed<seq<Member>>, c': Cursor)
    requires src.Has(c, 5) && src.content[c.pos] == 8
    requires ParseMembers(src, Cursor(c.pos + 5, c.eof), true) == (ms, c')
    ensures ParseData(src, c) == (if ms.Ok? then Ok(EcmaArray(ms.value)) else Err(ms.error), c')
  {
    hide ParseMembers;
  }

  lemma ParseArray(src: Input, c: Cursor, n: uint32, es: Parsed<seq<Data>>, c': Cursor)
    requires src.Has(c, 5) && src.content[c.pos] == 10 && U32(src.content[c.pos + 1..c.pos + 5]) == n
    requires ParseElements(src, Cursor(c.pos + 5, c.eof), n) == (es, c')
    ensures ParseData(src, c) == (if es.Ok? then Ok(Array(es.value)) else Err(es.error), c')
  {
    hide ParseElements, U32;
  }

  lemma ReadNumber(src: Input, c: Cursor, bits: Bits64)
    requires At(src.content, c.pos, Encode(Number(bits)))
    ensures ReadsBack(src, c, Number(bits))
  {
    AtAppend(src.content, c.pos, [0], bits);
    AtByte(src.content, c.pos, [0], 0);
  }

  lemma ReadString(src: Input, c: Cursor, s: Text)
    requires At(src.content, c.pos, Encode(String(s)))
    ensures ReadsBack(src, c, String(s))
  {
    AtAppend(src.content, c.pos, [2], EncodeText(s));
    AtByte(src.content, c.pos, [2], 0);
    ReadText(src, Cursor(c.pos + 1, c.eof), s);
  }

  lemma ReadDate(src: Input, c: Cursor, ms: Bits64, tz: uint16)
    requires At(src.content, c.pos, Encode(Date(ms, tz)))
    ensures ReadsBack(src, c, Date(ms, tz))
  {
    hide Be16, U16;
    AtAppend(src.content, c.pos, [11], ms + Be16(tz));
    AtByte(src.content, c.pos, [11], 0);
    AtAppend(src.content, c.pos + 1, ms, Be16(tz));
    Be16Inverse(tz);
  }

  lemma ReadByteSized(src: Input, c: Cursor, d: Data)
    requires At(src.content, c.pos, Encode(d)) && (d.Boolean? || d.Null? || d.Undefined?)
    ensures ReadsBack(src, c, d)
  {
    AtByte(src.content, c.pos, Encode(d), 0);
    if d.Boolean? {
      AtByte(src.content, c.pos, Encode(d), 1);
    }
  }

  // ----- the round trip -----

  /** The reader inverts the writer on every tree without nameless members, wherever its bytes stand. */
  lemma {:induction false} RoundTrip(src: Input, c: Cursor, d: Data)
    requires At(src.content, c.pos, Encode(d)) && Fits(d) && Named(d)
    ensures ReadsBack(src, c, d)
    decreases d, 1
  {
    hide ParseData, ParseMembers, ParseElements, At, EcmaCount, ArrayCount, EncodeText, Be16;
    match d
    case Number(bits) => ReadNumber(src, c, bits);
    case String(s) => ReadString(src, c, s);
    case Date(ms, tz) => ReadDate(src, c, ms, tz);
    case Object(ms) =>
      EnterObject(src, c, ms);
      RoundTripMembers(src, Cursor(c.pos + 1, c.eof), ms, false);
      ParseObject(src, c, Ok(ms), Cursor(c.pos + |Encode(d)|, c.eof));
    case EcmaArray(ms) =>
      EnterEcmaArray(src, c, ms);
      RoundTripMembers(src, Cursor(c.pos + 5, c.eof), ms, true);
      ParseEcmaArray(src, c, Ok(ms), Cursor(c.pos + |Encode(d)|, c.eof));
    case Array(es) =>
      EnterArray(src, c, es);
      RoundTripElements(src, Cursor(c.pos + 5, c.eof), es);
      ParseArray(src, c, |es|, Ok(es), Cursor(c.pos + |Encode(d)|, c.eof));
    case _ => ReadByteSized(src, c, d);
  }

  lemma {:induction false} RoundTripMembers(src: Input, c: Cursor, ms: seq<Member>, ecma: bool)
    requires At(src.content, c.pos, EncodeMembers(ms) + TERMINATOR)
    requires MembersFit(ms) && MembersNamed(ms, ecma)
    ensures ParseMembers(src, c, ecma) == (Ok(ms), Cursor(c.pos + |EncodeMembers(ms)| + 3, c.eof))
    decreases ms, 0
  {
    hide ParseMembers, ParseData, Encode, EncodeMembers, EncodeMember, At;
    MembersLength(ms);
    if ms == [] {
      ReadTerminator(src, c, ecma);
    } else {
      EnterMember(src, c, ms);
      assert ms[0] in ms;
      var c1, c2 := Cursor(c.pos + 2 + |ms[0].name|, c.eof), Cursor(c.pos + |EncodeMember(ms[0])|, c.eof);
      RoundTrip(src, c1, ms[0].value);
      RoundTripMembers(src, c2, ms[1..], ecma);
      StepMember(src, c, c1, c2, ms[0].name, ms[0].value, ecma);
      assert ms == [ms[0]] + ms[1..];
    }
  }

  lemma {:induction false} RoundTripElements(src: Input, c: Cursor, es: seq<Data>)
    requires At(src.content, c.pos, EncodeElements(es))
    requires forall e | e in es :: Fits(e) && Named(e)
    ensures ParseElements(src, c, |es|) == (Ok(es), Cursor(c.pos + |EncodeElements(es)|, c.eof))
    decreases es, 0
  {
    hide ParseData, ParseElements, Encode, EncodeElements, At, Fits, Named;
    UnfoldElements(src, c, es);
    if es != [] {
      assert es[0] in es;
      var c1 := Cursor(c.pos + |Encode(es[0])|, c.eof);
      AtAppend(src.content, c.pos, Encode(es[0]), EncodeElements(es[1..]));
      RoundTrip(src, c, es[0]);
      RoundTripElements(src, c1, es[1..]);
      StepElement(src, c, c1, es[0], |es|);
      assert es == [es[0]] + es[1..];
    }
  }

  lemma UnfoldElements(src: Input, c: Cursor, es: seq<Data>)
    ensures es == [] ==> EncodeElements(es) == [] && ParseElements(src, c, 0) == (Ok([]), c)
    ensures es != [] ==> EncodeElements(es) == Encode(es[0]) + EncodeElements(es[1..])
  {
    hide Encode, ParseData;
  }

  /** One turn of the element loop. */
  lemma StepElement(src: Input, c: Cursor, c1: Cursor, e: Data, n: nat)
    requires n > 0 && ParseData(src, c) == (Ok(e), c1)
    ensures var rest := ParseElements(src, c1, n - 1); ParseElements(src, c, n) == (Prepend([e], rest.0), rest.1)
  {
    hide ParseData;
  }

  /** A nameless member ends its associative array early, so such a tree is never read back. */
  lemma {:induction false} NamelessIsLost(src: Input, c: Cursor, d: Data)
    requires At(src.content, c.pos, Encode(d)) && Fits(d) && !Named(d)
    ensures ParseData(src, c).0 != Ok(d)
    decreases d, 1
  {
    hide ParseData, ParseMembers, ParseElements;
    match d
    case Object(ms) =>
      EnterObject(src, c, ms);
      var c1 := Cursor(c.pos + 1, c.eof);
      NamelessMembersAreLost(src, c1, ms, false);
      ParseObject(src, c, ParseMembers(src, c1, false).0, ParseMembers(src, c1, false).1);
    case EcmaArray(ms) =>
      EnterEcmaArray(src, c, ms);
      var c1 := Cursor(c.pos + 5, c.eof);
      NamelessMembersAreLost(src, c1, ms, true);
      ParseEcmaArray(src, c, ParseMembers(src, c1, true).0, ParseMembers(src, c1, true).1);
    case Array(es) =>
      EnterArray(src, c, es);
      var c1 := Cursor(c.pos + 5, c.eof);
      NamelessElementsAreLost(src, c1, es);
      ParseArray(src, c, |es|, ParseElements(src, c1, |es|).0, ParseElements(src, c1, |es|).1);
  }

  lemma {:induction false} NamelessMembersAreLost(src: Input, c: Cursor, ms: seq<Member>, ecma: bool)
    requires At(src.content, c.pos, EncodeMembers(ms) + TERMINATOR)
    requires MembersFit(ms) && !MembersNamed(ms, ecma)
    ensures ParseMembers(src, c, ecma).0 != Ok(ms)
    decreases ms, 0
  {
    hide ParseData, Encode, EncodeMembers, At;
    EnterMember(src, c, ms);
    var m, c1 := ms[0], Cursor(c.pos + 2 + |ms[0].name|, c.eof);
    assert m in ms;
    assert ms == [m] + ms[1..];
    if ecma && m.name == [] {
      assert ParseMembers(src, c, ecma).0 == Ok([]);
    } else if Named(m.value) {
      RoundTrip(src, c1, m.value);
      NamelessMembersAreLost(src, Cursor(c.pos + |EncodeMember(m)|, c.eof), ms[1..], ecma);
      PrependDiffers(m, ms[1..], m, ParseMembers(src, Cursor(c.pos + |EncodeMember(m)|, c.eof), ecma).0);
    } else {
      NamelessIsLost(src, c1, m.value);
      var (element, c2) := ParseData(src, c1);
      if element.Ok? {
        PrependDiffers(m, ms[1..], Member(CString(m.name), element.value), ParseMembers(src, c2, ecma).0);
      }
    }
  }

  lemma PrependDiffers<T>(x: T, xs: seq<T>, y: T, rest: Parsed<seq<T>>)
    requires x != y || rest != Ok(xs)
    ensures Prepend([y], rest) != Ok([x] + xs)
  {
    var whole := [x] + xs;
    assert whole[0] == x && whole[1..] == xs;
    if rest.Ok? {
      var other := [y] + rest.value;
      assert other[0] == y && other[1..] == rest.value;
    }
  }

  lemma {:induction false} NamelessElementsAreLost(src: Input, c: Cursor, es: seq<Data>)
    requires At(src.content, c.pos, EncodeElements(es))
    requires forall e | e in es :: Fits(e)
    requires exists e | e in es :: !Named(e)
    ensures ParseElements(src, c, |es|).0 != Ok(es)
    decreases es, 0
  {
    hide ParseData, Encode, EncodeElements, At, Fits, Named;
    UnfoldElements(src, c, es);
    assert es[0] in es;
    assert es == [es[0]] + es[1..];
    AtAppend(src.content, c.pos, Encode(es[0]), EncodeElements(es[1..]));
    var (element, c1) := ParseData(src, c);
    if Named(es[0]) {
      RoundTrip(src, c, es[0]);
      NamelessElementsAreLost(src, c1, es[1..]);
    } else {
      NamelessIsLost(src, c, es[0]);
    }
    if element.Ok? {
      PrependDiffers(es[0], es[1..], element.value, ParseElements(src, c1, |es| - 1).0);
    }
  }

  /** A tree survives being written and read exactly when no associative array has a nameless member. */
  lemma RoundTripIffNamed(src: Input, c: Cursor, d: Data)
    requires At(src.content, c.pos, Encode(d)) && Fits(d)
    ensures ReadsBack(src, c, d) <==> Named(d)
  {
    if Named(d) {
      RoundTrip(src, c, d);
    } else {
      NamelessIsLost(src, c, d);
    }
  }

  /** The bytes of an associative array with one member, null, whose stored name is a single NUL. */
  const NUL_NAMED: bytes := [8, 0, 0, 0, 1, 0, 1, 0, 5, 0, 0, 9]

  lemma PartsOfNulNamed()
    ensures var src, nul: Text, empty: Text := Input(NUL_NAMED, false), [0], [];
            && ParseText(src, Cursor(5, false)) == (Ok(nul), Cursor(8, false))
            && ParseData(src, Cursor(8, false)) == (Ok(Null), Cursor(9, false))
            && ParseText(src, Cursor(9, false)) == (Ok(empty), Cursor(11, false))
            && ParseData(src, Cursor(11, false)) == (Err(EndTag), Cursor(12, false))
            && CString(nul) == []
  {
    var src := Input(NUL_NAMED, false);
    var nul: Text := [0];
    assert src.content[5..7] == Be16(1) && src.content[7..8] == nul && src.content[9..11] == Be16(0);
  }

  /** The reader itself can produce a nameless member: a stored name that starts with NUL is cut to nothing. */
  lemma ReaderCanProduceNameless()
    ensures ParseData(Input(NUL_NAMED, false), Cursor(0, false))
            == (Ok(EcmaArray([Member([], Null)])), Cursor(12, false))
    ensures !Named(EcmaArray([Member([], Null)]))
  {
    hide ParseText, CString;
    var src := Input(NUL_NAMED, false);
    var one := Member([], Null);
    var nul: Text := [0];
    PartsOfNulNamed();
    assert ParseMembers(src, Cursor(9, false), true) == (Ok([]), Cursor(12, false));
    StepMember(src, Cursor(5, false), Cursor(8, false), Cursor(9, false), nul, Null, true);
    assert [one] + [] == [one];
    assert ParseMembers(src, Cursor(5, false), true) == (Ok([one]), Cursor(12, false));
    assert one in [one] && one.name == [];
  }

  // ----- sizes and bytes consumed -----

  /** How far a file reader has got, an end-of-file hit counting as one more byte. */
  function Progress(c: Cursor): nat {
    c.pos + if c.eof then 1 else 0
  }

  ghost predicate EofAtEnd(src: Input, c: Cursor) {
    c.eof ==> src.Left(c) == 0
  }

  /**
   * The counted size of what was read never exceeds the bytes it was read from, except by the one byte of an
   * end marker that a truncated file does not have.
   */
  lemma {:induction false} SizeBound(src: Input, c: Cursor)
    requires src.file && EofAtEnd(src, c)
    ensures var (d, c') := ParseData(src, c);
            EofAtEnd(src, c') && Progress(c) <= Progress(c')
              && (d.Ok? ==> Progress(c) + |Encode(d.value)| <= Progress(c'))
    decreases src.Left(c), 0
  {
    hide ParseMembers, ParseElements, Encode, EncodeMembers, EncodeElements;
    if src.Has(c, 1) {
      var c1 := src.Take(c, 1);
      match src.content[c.pos]
      case 3 =>
        MembersBound(src, c1, false);
        SizeOfMembers(ParseMembers(src, c1, false).0);
      case 8 =>
        if src.Has(c1, 4) {
          MembersBound(src, src.Take(c1, 4), true);
          SizeOfMembers(ParseMembers(src, src.Take(c1, 4), true).0);
        }
      case 10 =>
        if src.Has(c1, 4) {
          var n := U32(src.content[c1.pos..c1.pos + 4]);
          ElementsBound(src, src.Take(c1, 4), n);
          SizeOfElements(ParseElements(src, src.Take(c1, 4), n).0);
        }
      case _ =>
        SizeOfLeaf(src, c);
    }
  }

  lemma SizeOfMembers(ms: Parsed<seq<Member>>)
    ensures ms.Ok? ==> |Encode(Object(ms.value))| == |EncodeMembers(ms.value)| + 4
    ensures ms.Ok? ==> |Encode(EcmaArray(ms.value))| == |EncodeMembers(ms.value)| + 8
  {
  }

  lemma SizeOfElements(es: Parsed<seq<Data>>)
    ensures es.Ok? ==> |Encode(Array(es.value))| == 5 + |EncodeElements(es.value)|
  {
  }

  lemma SizeOfLeaf(src: Input, c: Cursor)
    requires src.file && EofAtEnd(src, c) && src.Has(c, 1) && src.content[c.pos] !in {3, 8, 10}
    ensures var (d, c') := ParseData(src, c);
            EofAtEnd(src, c') && Progress(c) <= Progress(c')
              && (d.Ok? ==> Progress(c) + |Encode(d.value)| <= Progress(c'))
  {
  }

  lemma {:induction false} MembersBound(src: Input, c: Cursor, ecma: bool)
    requires src.file && EofAtEnd(src, c)
    ensures var (ms, c') := ParseMembers(src, c, ecma);
            EofAtEnd(src, c') && Progress(c) <= Progress(c')
              && (ms.Ok? ==> Progress(c) + |EncodeMembers(ms.value)| + 3 <= Progress(c'))
    decreases src.Left(c), 1
  {
    hide ParseData, Encode;
    var (name, c1) := ParseText(src, c);
    if name.Ok? {
      SizeBound(src, c1);
      var (element, c2) := ParseData(src, c1);
      if !((ecma && name.value == []) || element in {Err(EndTag), Err(UnknownType)}) && element.Ok? {
        MembersBound(src, c2, ecma);
        var rest := ParseMembers(src, c2, ecma).0;
        if rest.Ok? {
          var m := Member(CString(name.value), element.value);
          MembersLength([m] + rest.value);
          assert ([m] + rest.value)[1..] == rest.value;
        }
      }
    }
  }

  lemma {:induction false} ElementsBound(src: Input, c: Cursor, n: nat)
    requires src.file && EofAtEnd(src, c)
    ensures var (es, c') := ParseElements(src, c, n);
            EofAtEnd(src, c') && Progress(c) <= Progress(c')
              && (es.Ok? ==> Progress(c) + |EncodeElements(es.value)| <= Progress(c'))
    decreases src.Left(c), 1, n
  {
    hide ParseData, Encode;
    if n > 0 {
      SizeBound(src, c);
      var (element, c1) := ParseData(src, c);
      if element.Ok? {
        ElementsBound(src, c1, n - 1);
        var rest := ParseElements(src, c1, n - 1).0;
        if rest.Ok? {
          assert ([element.value] + rest.value)[1..] == rest.value;
        }
      }
    }
  }

  // ----- sizes and stored numbers -----

  /** Two trees that differ at most in the numbers and dates stored at the same places. */
  ghost predicate SameButNumbers(d: Data, e: Data)
    decreases d
  {
    match d
    case Number(_) => e.Number?
    case Date(_, _) => e.Date?
    case Object(ms) => e.Object? && SameMembers(ms, e.members)
    case EcmaArray(ms) => e.EcmaArray? && SameMembers(ms, e.members)
    case Array(es) => e.Array? && SameElements(es, e.elements)
    case _ => d == e
  }

  ghost predicate SameMembers(a: seq<Member>, b: seq<Member>)
    decreases a
  {
    |a| == |b| && forall i | 0 <= i < |a| :: a[i].name == b[i].name && SameButNumbers(a[i].value, b[i].value)
  }

  ghost predicate SameElements(a: seq<Data>, b: seq<Data>)
    decreases a
  {
    |a| == |b| && forall i | 0 <= i < |a| :: SameButNumbers(a[i], b[i])
  }

  /** Setting numbers anywhere in a tree does not change its size. */
  lemma {:induction false} SizeIgnoresNumbers(d: Data, e: Data)
    requires SameButNumbers(d, e)
    ensures |Encode(d)| == |Encode(e)|
    decreases d, 1
  {
    hide EncodeMembers, EncodeElements, EcmaCount, ArrayCount, SameMembers, SameElements;
    match d
    case Object(ms) => MembersSizeIgnoresNumbers(ms, e.members);
    case EcmaArray(ms) => MembersSizeIgnoresNumbers(ms, e.members);
    case Array(es) => ElementsSizeIgnoresNumbers(es, e.elements);
    case _ =>
  }

  lemma {:induction false} MembersSizeIgnoresNumbers(a: seq<Member>, b: seq<Member>)
    requires SameMembers(a, b)
    ensures |EncodeMembers(a)| == |EncodeMembers(b)|
    decreases a, 0
  {
    hide Encode;
    if a != [] {
      SizeIgnoresNumbers(a[0].value, b[0].value);
      assert SameMembers(a[1..], b[1..]);
      MembersSizeIgnoresNumbers(a[1..], b[1..]);
    }
  }

  lemma {:induction false} ElementsSizeIgnoresNumbers(a: seq<Data>, b: seq<Data>)
    requires SameElements(a, b)
    ensures |EncodeElements(a)| == |EncodeElements(b)|
    decreases a, 0
  {
    hide Encode;
    if a != [] {
      SizeIgnoresNumbers(a[0], b[0]);
      assert SameElements(a[1..], b[1..]);
      ElementsSizeIgnoresNumbers(a[1..], b[1..]);
    }
  }

  lemma {:induction false} SameAsItself(d: Data)
    ensures SameButNumbers(d, d)
    decreases d
  {
    match d
    case Object(ms) => SameMembersAsItself(ms);
    case EcmaArray(ms) => SameMembersAsItself(ms);
    case Array(es) =>
      forall i | 0 <= i < |es| ensures SameButNumbers(es[i], es[i]) {
        SameAsItself(es[i]);
      }
    case _ =>
  }

  lemma {:induction false} SameMembersAsItself(ms: seq<Member>)
    ensures SameMembers(ms, ms)
    decreases ms
  {
    forall i | 0 <= i < |ms| ensures SameButNumbers(ms[i].value, ms[i].value) {
      SameAsItself(ms[i].value);
    }
  }

  lemma SameMembersJoin(a: seq<Member>, b: seq<Member>, c: seq<Member>, d: seq<Member>)
    requires SameMembers(a, b) && SameMembers(c, d)
    ensures SameMembers(a + c, b + d)
  {
    hide SameButNumbers;
  }

  /**
   * The written count of an associative array is its number of members exactly when bits 7, 15 and 23 of it are clear.
   */
  lemma EcmaCountExact(n: nat)
    requires n < 0x1_0000_0000 / 2
    ensures EcmaCount(n) == Be32(n) <==> n / 128 % 2 == 0 && n / 32768 % 2 == 0 && n / 8388608 % 2 == 0
  {
    hide *;
    var t := Be32(n);
    var a, b, c, d := t[0], t[1], t[2], t[3];
    Be32Digits(n);
    assert t == [a, b, c, d];
    EcmaCountDigits(n, a, b, c, d);
    SameDigits(a, b, c, d);
    var p := a as int * 256 + b;
    var q := p * 256 + c;
    TopBit(n, q, d);
    TopBit(q, p, c);
    TopBit(p, a, b);
    NestedBits(n, q, p);
  }

  lemma SameDigits(a: byte, b: byte, c: byte, d: byte)
    ensures a as int + c / 128 * 128 < 256 ==>
      ([a as int + c / 128 * 128, b % 128 + d / 128 * 128, c % 128, d % 128] == [a, b, c, d] <==>
        b < 128 && c < 128 && d < 128)
  {
  }

  lemma {:induction false} NestedBits(n: nat, q: nat, p: nat)
    requires n / 256 == q && q / 256 == p
    ensures n / 32768 == q / 128 && n / 8388608 == p / 128
  {
  }

  lemma {:induction false} TopBit(n: nat, q: nat, d: byte)
    requires n == 256 * q + d
    ensures n / 256 == q && n / 128 % 2 == d / 128 && (d / 128 == 0 <==> d < 128)
  {
    assert n / 128 == 2 * q + d / 128;
  }

  lemma {:induction false} EcmaCountDigits(n: nat, a: byte, b: byte, c: byte, d: byte)
    requires n < 0x8000_0000 && n == ((a as int * 256 + b) * 256 + c) * 256 + d
    ensures EcmaCount(n) == [a + c / 128 * 128, b % 128 + d / 128 * 128, c % 128, d % 128]
  {
    hide *;
    var hb, hc, hd, lb, lc, ld := b / 128, c / 128, d / 128, b % 128, c % 128, d % 128;
    // doubling moves the top bit of every digit into the digit before it
    var a', b', c', d' := 2 * a + hb, 2 * lb + hc, 2 * lc + hd, 2 * ld;
    assert b == 128 * hb + lb && c == 128 * hc + lc && d == 128 * hd + ld;
    assert 2 * n == ((a' * 256 + b') * 256 + c') * 256 + d';
    Be32FromDigits(a', b', c', d');
    HalvedDigits(2 * n, a', b', c', d');
    assert a' / 2 == a && b' / 2 == lb && c' / 2 == lc && d' / 2 == ld;
    assert b' % 2 == hc && c' % 2 == hd && d' % 2 == 0;
  }

  lemma {:induction false} HalvedDigits(m: uint32, a: byte, b: byte, c: byte, d: byte)
    requires Be32(m) == [a, b, c, d] && m % 2 == 0
    ensures EcmaCount(m / 2) == [a / 2 + b % 2 * 128, b / 2 + c % 2 * 128, c / 2 + d % 2 * 128, d / 2]
  {
    hide Be32;
    assert 2 * (m / 2) % 0x1_0000_0000 == m;
  }
}
