/** The AMF0 reader and writer as the program runs them: over a moving input position and a growing output. */
module AmfIo {
  import opened Bytes
  import opened Amf

  // ----- reading -----

  /** A file or a memory buffer being read. */
  class Source {
    const content: bytes
    const file: bool
    var pos: nat
    var eof: bool

    constructor (content: bytes, file: bool)
      ensures this.content == content && this.file == file && At() == Cursor(0, false)
    {
      this.content, this.file, pos, eof := content, file, 0, false;
    }

    function At(): Cursor
      reads this
    {
      Cursor(pos, eof)
    }

    function Input(): Input {
      Amf.Input(content, file)
    }

    function Left(): nat
      reads this
    {
      Input().Left(At())
    }

    /** fread for a file, buffer_read for a buffer. */
    method Read(n: nat) returns (ok: bool, chunk: bytes)
      modifies this
      ensures ok == Input().Has(old(At()), n) && At() == Input().Take(old(At()), n)
      ensures chunk == Input().Chunk(old(At()), n)
    {
      if pos + n <= |content| {
        ok, chunk := true, content[pos..pos + n];
        pos := pos + n;
      } else {
        ok, chunk := false, [];
        if file {
          if pos < |content| {
            chunk := content[pos..];
            pos := |content|;
          }
          eof := true;
        }
      }
    }

    /** fseek from the start; it clears the end-of-file flag. */
    method SeekTo(p: nat)
      modifies this
      ensures At() == Cursor(p, false)
    {
      pos, eof := p, false;
    }

    /** fseek backwards; it fails in front of the file. */
    method SeekBack(n: nat)
      modifies this
      ensures At() == if n <= old(pos) then Cursor(old(pos) - n, false) else old(At())
    {
      if n <= pos {
        pos, eof := pos - n, false;
      }
    }

    method ReadText() returns (r: Parsed<Text>)
      modifies this
      ensures (r, At()) == ParseText(Input(), old(At()))
    {
      var ok, b := Read(2);
      if !ok {
        return Err(Eof);
      }
      var size := U16(b);
      if size == 0 {
        return Ok([]);
      }
      ok, b := Read(size);
      if !ok {
        return Err(Eof);
      }
      r := Ok(b);
    }

    method ReadMembers(ecma: bool) returns (r: Parsed<seq<Member>>)
      modifies this
      ensures (r, At()) == ParseMembers(Input(), old(At()), ecma)
      decreases Left(), 1
    {
      ghost var start := At();
      var members: seq<Member> := [];
      hide ParseData;
      PrependNone(ParseMembers(Input(), start, ecma).0);
      while true
        invariant Input().Reaches(start, At()) && Left() <= old(Left())
        invariant MembersFrom(Input(), At(), ecma, members) == ParseMembers(Input(), start, ecma)
        decreases Left()
      {
        var name := ReadText();
        if name.Err? {
          return Err(name.error);
        }
        var element := ReadData();
        if (ecma && name.value == []) || element == Err(EndTag) || element == Err(UnknownType) {
          assert members + [] == members;
          return Ok(members);
        } else if element.Err? {
          return Err(element.error);
        }
        PrependTwice(members, [Member(CString(name.value), element.value)], ParseMembers(Input(), At(), ecma).0);
        members := members + [Member(CString(name.value), element.value)];
      }
    }

    method ReadElements(n: nat) returns (r: Parsed<seq<Data>>)
      modifies this
      ensures (r, At()) == ParseElements(Input(), old(At()), n)
      decreases Left(), 1
    {
      ghost var start := At();
      var elements: seq<Data> := [];
      hide ParseData;
      PrependNone(ParseElements(Input(), start, n).0);
      for i := 0 to n
        invariant Input().Reaches(start, At()) && Left() <= old(Left())
        invariant ElementsFrom(Input(), At(), n - i, elements) == ParseElements(Input(), start, n)
      {
        var element := ReadData();
        if element.Err? {
          return Err(element.error);
        }
        PrependTwice(elements, [element.value], ParseElements(Input(), At(), n - i - 1).0);
        elements := elements + [element.value];
      }
      assert elements + [] == elements;
      r := Ok(elements);
    }

    method ReadData() returns (r: Parsed<Data>)
      modifies this
      ensures (r, At()) == ParseData(Input(), old(At()))
      decreases Left(), 0
    {
      var ok, kind := Read(1);
      if !ok {
        return Err(Eof);
      }
      match kind[0]
      case 0 =>
        var ok, bits := Read(8);
        r := if ok then Ok(Number(bits)) else Err(Eof);
      case 1 =>
        var ok, value := Read(1);
        r := if ok then Ok(Boolean(value[0])) else Err(Eof);
      case 2 =>
        var text := ReadText();
        r := if text.Ok? then Ok(String(text.value)) else Err(text.error);
      case 3 =>
        var members := ReadMembers(false);
        r := if members.Ok? then Ok(Object(members.value)) else Err(members.error);
      case 5 => r := Ok(Null);
      case 6 => r := Ok(Undefined);
      case 8 =>
        var ok, _ := Read(4);
        if !ok {
          return Err(Eof);
        }
        var members := ReadMembers(true);
        r := if members.Ok? then Ok(EcmaArray(members.value)) else Err(members.error);
      case 9 => r := Err(EndTag);
      case 10 =>
        var ok, size := Read(4);
        if !ok {
          return Err(Eof);
        }
        var elements := ReadElements(U32(size));
        r := if elements.Ok? then Ok(Array(elements.value)) else Err(elements.error);
      case 11 =>
        r := ReadDate();
      case 15 => r := Err(Unsupported);
      case 16 => r := Err(Unsupported);
      case _ => r := Err(UnknownType);
    }

    method ReadDate() returns (r: Parsed<Data>)
      modifies this
      ensures var c := old(At()); var c' := Input().Take(c, 8);
              (r, At()) == (if !Input().Has(c, 8) then (Err(Eof), c')
                            else if !Input().Has(c', 2) then (Err(Eof), Input().Take(c', 2))
                            else (Ok(Date(content[c.pos..c.pos + 8], U16(content[c'.pos..c'.pos + 2]))),
                              Input().Take(c', 2)))
    {
      var ok, milliseconds := Read(8);
      if !ok {
        return Err(Eof);
      }
      var ok', timezone := Read(2);
      r := if ok' then Ok(Date(milliseconds, U16(timezone))) else Err(Eof);
    }
  }

  /** What the member loop will return from here, given the members it has already pushed. */
  ghost function MembersFrom(src: Input, c: Cursor, ecma: bool, pushed: seq<Member>): (Parsed<seq<Member>>, Cursor) {
    var r := ParseMembers(src, c, ecma);
    (Prepend(pushed, r.0), r.1)
  }

  ghost function ElementsFrom(src: Input, c: Cursor, n: nat, pushed: seq<Data>): (Parsed<seq<Data>>, Cursor) {
    var r := ParseElements(src, c, n);
    (Prepend(pushed, r.0), r.1)
  }

  lemma PrependNone<T>(rest: Parsed<seq<T>>)
    ensures Prepend([], rest) == rest
  {
    if rest.Ok? {
      assert [] + rest.value == rest.value;
    }
  }

  lemma PrependTwice<T>(a: seq<T>, b: seq<T>, rest: Parsed<seq<T>>)
    ensures Prepend(a, Prepend(b, rest)) == Prepend(a + b, rest)
  {
    if rest.Ok? {
      assert a + (b + rest.value) == (a + b) + rest.value;
    }
  }

  // ----- writing -----

  /** How much an output takes: a file everything, a buffer so many bytes. */
  datatype Limit = Unlimited | UpTo(capacity: nat) {
    predicate Allows(n: nat) {
      UpTo? ==> n <= capacity
    }
  }

  /** Writing `b` behind `before` reported `n` bytes and left `after`: everything was written exactly when it fits. */
  ghost predicate Wrote(limit: Limit, before: bytes, b: bytes, n: nat, after: bytes) {
    && n <= |b| && |after| == |before| + n
    && (limit.Allows(|before|) ==> limit.Allows(|after|))
    && (if limit.Allows(|before| + |b|) then after == before + b else n < |b|)
  }

  lemma WroteBoth(limit: Limit, before: bytes, a: bytes, n: nat, between: bytes, b: bytes, m: nat, after: bytes)
    requires Wrote(limit, before, a, n, between) && Wrote(limit, between, b, m, after)
    ensures Wrote(limit, before, a + b, n + m, after)
  {
    assert before + (a + b) == (before + a) + b;
  }

  lemma WroteNothing(limit: Limit, before: bytes)
    requires limit.Allows(|before|)
    ensures Wrote(limit, before, [], 0, before)
  {
  }

  lemma AppendMember(ms: seq<Member>, i: nat)
    requires i < |ms|
    ensures EncodeMembers(ms[..i + 1]) == EncodeMembers(ms[..i]) + EncodeMember(ms[i])
  {
    hide Encode;
    if i == 0 {
      assert ms[..1][1..] == [];
    } else {
      AppendMember(ms[1..], i - 1);
      assert ms[..i + 1][1..] == ms[1..][..i] && ms[..i][1..] == ms[1..][..i - 1];
    }
  }

  lemma AppendElement(es: seq<Data>, i: nat)
    requires i < |es|
    ensures EncodeElements(es[..i + 1]) == EncodeElements(es[..i]) + Encode(es[i])
  {
    hide Encode;
    if i == 0 {
      assert es[..1][1..] == [];
    } else {
      AppendElement(es[1..], i - 1);
      assert es[..i + 1][1..] == es[1..][..i] && es[..i][1..] == es[1..][..i - 1];
    }
  }

  class Sink {
    const limit: Limit
    var out: bytes

    constructor (limit: Limit)
      ensures this.limit == limit && out == []
    {
      this.limit, out := limit, [];
    }

    /** fwrite for a file, buffer_write for a buffer: a chunk that does not fit is skipped. */
    method Put(chunk: bytes) returns (n: nat)
      requires limit.Allows(|out|)
      modifies this
      ensures Wrote(limit, old(out), chunk, n, out)
    {
      if limit.Allows(|out| + |chunk|) {
        out := out + chunk;
        n := |chunk|;
      } else {
        n := 0;
      }
    }

    method WriteText(s: Text) returns (n: nat)
      requires limit.Allows(|out|)
      modifies this
      ensures Wrote(limit, old(out), EncodeText(s), n, out)
    {
      n := Put(Be16(|s|));
      ghost var between := out;
      if |s| > 0 {
        var w := Put(s);
        WroteBoth(limit, old(out), Be16(|s|), n, between, s, w, out);
        n := n + w;
      } else {
        assert EncodeText(s) == Be16(0);
      }
    }

    method WriteMembers(ms: seq<Member>) returns (n: nat)
      requires limit.Allows(|out|)
      modifies this
      ensures Wrote(limit, old(out), EncodeMembers(ms) + TERMINATOR, n, out)
      decreases ms, 0
    {
      n := 0;
      assert ms[..0] == [];
      WroteNothing(limit, out);
      for i := 0 to |ms|
        invariant Wrote(limit, old(out), EncodeMembers(ms[..i]), n, out)
      {
        ghost var between := out;
        var w := WriteMember(ms[i]);
        WroteBoth(limit, old(out), EncodeMembers(ms[..i]), n, between, EncodeMember(ms[i]), w, out);
        AppendMember(ms, i);
        n := n + w;
      }
      assert ms[..|ms|] == ms;
      ghost var between := out;
      var w := WriteTerminator();
      WroteBoth(limit, old(out), EncodeMembers(ms), n, between, TERMINATOR, w, out);
      n := n + w;
    }

    method WriteMember(m: Member) returns (n: nat)
      requires limit.Allows(|out|)
      modifies this
      ensures Wrote(limit, old(out), EncodeMember(m), n, out)
      decreases m, 2
    {
      n := WriteText(m.name);
      ghost var between := out;
      var w := Write(m.value);
      WroteBoth(limit, old(out), EncodeText(m.name), n, between, Encode(m.value), w, out);
      n := n + w;
    }

    method WriteTerminator() returns (n: nat)
      requires limit.Allows(|out|)
      modifies this
      ensures Wrote(limit, old(out), TERMINATOR, n, out)
    {
      n := Put(Be16(0));
      ghost var between := out;
      var w := Put([TYPE_END]);
      WroteBoth(limit, old(out), Be16(0), n, between, [TYPE_END], w, out);
      assert Be16(0) + [TYPE_END] == TERMINATOR;
      n := n + w;
    }

    method WriteElements(es: seq<Data>) returns (n: nat)
      requires limit.Allows(|out|)
      modifies this
      ensures Wrote(limit, old(out), EncodeElements(es), n, out)
      decreases es, 0
    {
      n := 0;
      assert es[..0] == [];
      WroteNothing(limit, out);
      for i := 0 to |es|
        invariant Wrote(limit, old(out), EncodeElements(es[..i]), n, out)
      {
        ghost var between := out;
        var w := Write(es[i]);
        WroteBoth(limit, old(out), EncodeElements(es[..i]), n, between, Encode(es[i]), w, out);
        AppendElement(es, i);
        n := n + w;
      }
      assert es[..|es|] == es;
    }

    /** The count field and the list behind it. */
    method WriteCounted(count: bytes, d: Data) returns (n: nat)
      requires limit.Allows(|out|) && |count| == 4 && (d.EcmaArray? || d.Array?)
      modifies this
      ensures Wrote(limit, old(out), count + Content(d), n, out)
      decreases d, 0
    {
      n := Put(count);
      ghost var between := out;
      var w: nat;
      if d.EcmaArray? {
        w := WriteMembers(d.members);
      } else {
        w := WriteElements(d.elements);
      }
      WroteBoth(limit, old(out), count, n, between, Content(d), w, out);
      n := n + w;
    }

    method WriteDate(milliseconds: Bits64, timezone: uint16) returns (n: nat)
      requires limit.Allows(|out|)
      modifies this
      ensures Wrote(limit, old(out), milliseconds + Be16(timezone), n, out)
    {
      n := Put(milliseconds);
      ghost var between := out;
      var w := Put(Be16(timezone));
      WroteBoth(limit, old(out), milliseconds, n, between, Be16(timezone), w, out);
      n := n + w;
    }

    /** What follows the type byte; null and undefined have nothing there. */
    method WriteBody(d: Data) returns (n: nat)
      requires limit.Allows(|out|)
      modifies this
      ensures Wrote(limit, old(out), Encode(d)[1..], n, out)
      decreases d, 1
    {
      match d
      case Number(bits) => n := Put(bits);
      case Boolean(value) => n := Put([value]);
      case String(text) => n := WriteText(text);
      case Object(members) => n := WriteMembers(members);
      case Null => n := 0;
      case Undefined => n := 0;
      case EcmaArray(members) => n := WriteCounted(EcmaCount(|members|), d);
      case Array(elements) => n := WriteCounted(ArrayCount(|elements|), d);
      case Date(milliseconds, timezone) => n := WriteDate(milliseconds, timezone);
    }

    /** amf_data_write: the bytes it puts out and the number it reports. */
    method Write(d: Data) returns (n: nat)
      requires limit.Allows(|out|)
      modifies this
      ensures Wrote(limit, old(out), Encode(d), n, out)
      decreases d, 2
    {
      n := Put([TypeOf(d)]);
      ghost var between := out;
      var w := WriteBody(d);
      WroteBoth(limit, old(out), [TypeOf(d)], n, between, Encode(d)[1..], w, out);
      assert [TypeOf(d)] + Encode(d)[1..] == Encode(d);
      n := n + w;
    }
  }

  /** The list of a counted array as it stands behind its count. */
  function Content(d: Data): bytes
    requires d.EcmaArray? || d.Array?
  {
    if d.EcmaArray? then EncodeMembers(d.members) + TERMINATOR else EncodeElements(d.elements)
  }

  /** amf_data_buffer_write: it reports the size of the tree exactly when the buffer holds the tree. */
  method BufferWrite(d: Data, maxBytes: nat) returns (buffer: bytes, n: nat)
    ensures n == |buffer| <= maxBytes && n <= |Encode(d)|
    ensures n == |Encode(d)| <==> |Encode(d)| <= maxBytes
    ensures |Encode(d)| <= maxBytes ==> buffer == Encode(d)
  {
    var sink := new Sink(UpTo(maxBytes));
    n := sink.Write(d);
    buffer := sink.out;
    assert [] + Encode(d) == Encode(d);
  }

  // ----- sizes -----

  /** amf_data_size: it predicts, by its own recursion, the number of bytes the writer puts out. */
  method Size(d: Data) returns (s: nat)
    ensures s == |Encode(d)|
    decreases d, 1
  {
    s := 1;
    match d
    case Number(_) => s := s + 8;
    case Boolean(_) => s := s + 1;
    case String(text) => s := s + 2 + |text|;
    case Object(members) =>
      var m := MembersSize(members);
      s := s + m + 2 + 1;
    case Null =>
    case Undefined =>
    case EcmaArray(members) =>
      s := s + 4;
      var m := MembersSize(members);
      s := s + m + 2 + 1;
    case Array(elements) =>
      s := s + 4;
      var e := ElementsSize(elements);
      s := s + e;
    case Date(_, _) => s := s + 8 + 2;
  }

  method MembersSize(ms: seq<Member>) returns (s: nat)
    ensures s == |EncodeMembers(ms)|
    decreases ms, 0
  {
    s := 0;
    assert ms[..0] == [];
    for i := 0 to |ms|
      invariant s == |EncodeMembers(ms[..i])|
    {
      s := s + 2 + |ms[i].name|;
      var v := Size(ms[i].value);
      s := s + v;
      AppendMember(ms, i);
    }
    assert ms[..|ms|] == ms;
  }

  method ElementsSize(es: seq<Data>) returns (s: nat)
    ensures s == |EncodeElements(es)|
    decreases es, 0
  {
    s := 0;
    assert es[..0] == [];
    for i := 0 to |es|
      invariant s == |EncodeElements(es[..i])|
    {
      var e := Size(es[i]);
      s := s + e;
      AppendElement(es, i);
    }
    assert es[..|es|] == es;
  }
}
