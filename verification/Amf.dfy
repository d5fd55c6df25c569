/** The AMF0 codec as functions: the tree, the bytes it is written as, and what the reader makes of any bytes. */
module Amf {
  import opened Bytes

  /** A 64-bit floating point number, kept as its big-endian bit pattern. */
  type Bits64 = b: bytes | |b| == 8 witness [0, 0, 0, 0, 0, 0, 0, 0]
  /** A string with a 16-bit length. */
  type Text = s: bytes | |s| < 0x1_0000 witness []
  /** A member name: it is stored through strlen, so it holds no NUL. */
  type Name = s: Text | 0 !in s witness []

  datatype Data =
    | Number(bits: Bits64)
    | Boolean(value: byte)
    | String(text: Text)
    | Object(members: seq<Member>)
    | Null
    | Undefined
    | EcmaArray(members: seq<Member>)
    | Array(elements: seq<Data>)
    | Date(milliseconds: Bits64, timezone: uint16)

  datatype Member = Member(name: Name, value: Data)

  const TYPE_END: byte := 9

  /** The empty name and end marker that close objects and associative arrays. */
  const TERMINATOR: bytes := [0, 0, TYPE_END]

  // ----- writing -----

  function EncodeText(s: Text): bytes {
    Be16(|s|) + s
  }

  /**
   * The count field of an associative array of n members on a little-endian host: the list size 2 * n
   * is byte-swapped first and halved afterwards, so every odd byte pushes a carry into the byte before it.
   */
  function EcmaCount(n: nat): (field: bytes)
    ensures |field| == 4
  {
    var b := Be32(2 * n % 0x1_0000_0000);
    [b[0] / 2 + b[1] % 2 * 128, b[1] / 2 + b[2] % 2 * 128, b[2] / 2 + b[3] % 2 * 128, b[3] / 2]
  }

  /** The count field of a strict array of n elements. */
  function ArrayCount(n: nat): (field: bytes)
    ensures |field| == 4
  {
    Be32(n % 0x1_0000_0000)
  }

  function TypeOf(d: Data): byte {
    match d
    case Number(_) => 0
    case Boolean(_) => 1
    case String(_) => 2
    case Object(_) => 3
    case Null => 5
    case Undefined => 6
    case EcmaArray(_) => 8
    case Array(_) => 10
    case Date(_, _) => 11
  }

  function Encode(d: Data): (b: bytes)
    ensures |b| >= 1 && b[0] == TypeOf(d)
    decreases d, 1
  {
    match d
    case Number(bits) => [0] + bits
    case Boolean(value) => [1, value]
    case String(text) => [2] + EncodeText(text)
    case Object(members) => [3] + (EncodeMembers(members) + TERMINATOR)
    case Null => [5]
    case Undefined => [6]
    case EcmaArray(members) => [8] + (EcmaCount(|members|) + (EncodeMembers(members) + TERMINATOR))
    case Array(elements) => [10] + (ArrayCount(|elements|) + EncodeElements(elements))
    case Date(milliseconds, timezone) => [11] + (milliseconds + Be16(timezone))
  }

  function EncodeMember(m: Member): bytes
    decreases m, 2
  {
    EncodeText(m.name) + Encode(m.value)
  }

  function EncodeMembers(ms: seq<Member>): bytes
    decreases ms, 0
  {
    if ms == [] then [] else EncodeMember(ms[0]) + EncodeMembers(ms[1..])
  }

  function EncodeElements(es: seq<Data>): bytes
    decreases es, 0
  {
    if es == [] then [] else Encode(es[0]) + EncodeElements(es[1..])
  }

  // ----- reading -----

  datatype Error = Eof | UnknownType | EndTag | Unsupported

  datatype Parsed<+T> = Ok(value: T) | Err(error: Error)

  /** A read position and whether a short read has hit the end of a file. */
  datatype Cursor = Cursor(pos: nat, eof: bool)

  /** The two sources of bytes: a short read from a file consumes what is left, one from a buffer nothing. */
  datatype Input = Input(content: bytes, file: bool) {
    function Left(c: Cursor): nat {
      if c.pos < |content| then |content| - c.pos else 0
    }

    predicate Has(c: Cursor, n: nat) {
      c.pos + n <= |content|
    }

    /** The cursor after asking for n bytes. */
    function Take(c: Cursor, n: nat): Cursor {
      if Has(c, n) then Cursor(c.pos + n, c.eof)
      else if !file then c
      else Cursor(if c.pos < |content| then |content| else c.pos, true)
    }

    /** The bytes got by asking for n. */
    function Chunk(c: Cursor, n: nat): bytes {
      if Has(c, n) then content[c.pos..c.pos + n] else if file && c.pos < |content| then content[c.pos..] else []
    }

    ghost predicate Reaches(c: Cursor, c': Cursor) {
      c.pos <= c'.pos && (c'.pos <= |content| || c'.pos == c.pos)
    }
  }

  /** The name up to its first NUL, as a C string copy keeps it. */
  function CString(s: Text): (name: Name)
    ensures name <= s && (|name| == |s| || s[|name|] == 0)
    ensures 0 !in s ==> name == s
  {
    if s == [] || s[0] == 0 then [] else
      var rest: Text := s[1..];
      [s[0]] + CString(rest)
  }

  function ParseText(src: Input, c: Cursor): (r: (Parsed<Text>, Cursor))
    ensures src.Reaches(c, r.1) && (r.0.Ok? ==> c.pos + 2 <= r.1.pos) && (r.0.Err? ==> r.0.error == Eof)
  {
    if !src.Has(c, 2) then (Err(Eof), src.Take(c, 2)) else
      var n := U16(src.content[c.pos..c.pos + 2]);
      var c' := src.Take(c, 2);
      if !src.Has(c', n) then (Err(Eof), src.Take(c', n)) else (Ok(src.content[c'.pos..c'.pos + n]), src.Take(c', n))
  }

  function ParseData(src: Input, c: Cursor): (r: (Parsed<Data>, Cursor))
    ensures src.Reaches(c, r.1)
    ensures src.Has(c, 1) ==> c.pos < r.1.pos
    ensures !src.Has(c, 1) ==> r == (Err(Eof), src.Take(c, 1))
    decreases src.Left(c), 0
  {
    if !src.Has(c, 1) then (Err(Eof), src.Take(c, 1)) else
      var c' := src.Take(c, 1);
      match src.content[c.pos]
      case 0 => (if src.Has(c', 8) then Ok(Number(src.content[c'.pos..c'.pos + 8])) else Err(Eof), src.Take(c', 8))
      case 1 => (if src.Has(c', 1) then Ok(Boolean(src.content[c'.pos])) else Err(Eof), src.Take(c', 1))
      case 2 =>
        var (s, c'') := ParseText(src, c');
        (if s.Ok? then Ok(String(s.value)) else Err(s.error), c'')
      case 3 =>
        var (ms, c'') := ParseMembers(src, c', false);
        (if ms.Ok? then Ok(Object(ms.value)) else Err(ms.error), c'')
      case 5 => (Ok(Null), c')
      case 6 => (Ok(Undefined), c')
      case 8 =>
        if !src.Has(c', 4) then (Err(Eof), src.Take(c', 4)) else
          var (ms, c'') := ParseMembers(src, src.Take(c', 4), true);
          (if ms.Ok? then Ok(EcmaArray(ms.value)) else Err(ms.error), c'')
      case 9 => (Err(EndTag), c')
      case 10 =>
        if !src.Has(c', 4) then (Err(Eof), src.Take(c', 4)) else
          var n := U32(src.content[c'.pos..c'.pos + 4]);
          var (es, c'') := ParseElements(src, src.Take(c', 4), n);
          (if es.Ok? then Ok(Array(es.value)) else Err(es.error), c'')
      case 11 =>
        if !src.Has(c', 8) then (Err(Eof), src.Take(c', 8)) else
          var c'' := src.Take(c', 8);
          if !src.Has(c'', 2) then (Err(Eof), src.Take(c'', 2)) else
            (Ok(Date(src.content[c'.pos..c'.pos + 8], U16(src.content[c''.pos..c''.pos + 2]))), src.Take(c'', 2))
      case 15 => (Err(Unsupported), c')
      case 16 => (Err(Unsupported), c')
      case _ => (Err(UnknownType), c')
  }

  /** The members of an object, or of an associative array when `ecma`, up to what ends them. */
  function ParseMembers(src: Input, c: Cursor, ecma: bool): (r: (Parsed<seq<Member>>, Cursor))
    ensures src.Reaches(c, r.1)
    decreases src.Left(c), 1
  {
    var (name, c1) := ParseText(src, c);
    if name.Err? then (Err(name.error), c1) else
      var (element, c2) := ParseData(src, c1);
      if (ecma && name.value == []) || element in {Err(EndTag), Err(UnknownType)} then (Ok([]), c2)
      else if element.Err? then (Err(element.error), c2)
      else
        var (rest, c3) := ParseMembers(src, c2, ecma);
        (Prepend([Member(CString(name.value), element.value)], rest), c3)
  }

  function ParseElements(src: Input, c: Cursor, n: nat): (r: (Parsed<seq<Data>>, Cursor))
    ensures src.Reaches(c, r.1)
    ensures r.0.Ok? ==> |r.0.value| == n
    decreases src.Left(c), 1, n
  {
    if n == 0 then (Ok([]), c) else
      var (element, c1) := ParseData(src, c);
      if element.Err? then (Err(element.error), c1) else
        var (rest, c2) := ParseElements(src, c1, n - 1);
        (Prepend([element.value], rest), c2)
  }

  function Prepend<T>(front: seq<T>, rest: Parsed<seq<T>>): Parsed<seq<T>> {
    if rest.Ok? then Ok(front + rest.value) else rest
  }
}
