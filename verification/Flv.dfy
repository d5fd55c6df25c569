/** The FLV container as a byte format: tag headers, and the tags a file holds. */
module Flv {
  import opened Bytes
  import opened Amf

  const AUDIO: byte := 8
  const VIDEO: byte := 9
  const META: byte := 18

  /** A tag header; the 24-bit timestamp and its extension byte are kept as one 32-bit number. */
  datatype Header = Header(kind: byte, bodyLength: uint24, timestamp: uint32, streamId: uint24) {
    predicate Known() {
      kind == META || kind == AUDIO || kind == VIDEO
    }
  }

  function EncodeHeader(h: Header): (b: bytes)
    ensures |b| == 11
  {
    [h.kind] + Be24(h.bodyLength) + Be24(h.timestamp % 0x100_0000) + [h.timestamp / 0x100_0000] + Be24(h.streamId)
  }

  function DecodeHeader(b: bytes): Header
    requires |b| == 11
  {
    Header(b[0], U24(b[1..4]), U24(b[4..7]) + 0x100_0000 * b[7] as int, U24(b[8..11]))
  }

  lemma HeaderInverse(h: Header)
    ensures DecodeHeader(EncodeHeader(h)) == h
  {
    var b := EncodeHeader(h);
    Be24Inverse(h.bodyLength);
    Be24Inverse(h.timestamp % 0x100_0000);
    Be24Inverse(h.streamId);
    assert b[1..4] == Be24(h.bodyLength) && b[4..7] == Be24(h.timestamp % 0x100_0000) && b[8..11] == Be24(h.streamId);
  }

  /** A tag of a file; `body` is what the file holds of its body. */
  datatype Tag = Tag(offset: nat, header: Header, body: bytes) {
    predicate Complete() {
      |body| == header.bodyLength
    }

    function BodyStart(): nat {
      offset + 11
    }

    /** Where the next tag header is expected: behind the body and the 4 bytes that repeat the tag size. */
    function End(): nat {
      offset + 15 + header.bodyLength
    }
  }

  function TagAt(file: bytes, offset: nat): (t: Tag)
    requires offset + 11 <= |file|
    ensures t.offset == offset && |t.body| <= t.header.bodyLength
  {
    var h := DecodeHeader(file[offset..offset + 11]);
    var end := offset + 11 + h.bodyLength;
    Tag(offset, h, file[offset + 11..if end <= |file| then end else |file|])
  }

  /** The tags of a file from a position on: the chain of headers, as far as whole headers go. */
  function Tags(file: bytes, offset: nat): seq<Tag>
    decreases if offset <= |file| then |file| - offset else 0
  {
    if offset + 11 > |file| then [] else
      var t := TagAt(file, offset);
      [t] + Tags(file, t.End())
  }

  lemma UnfoldTags(file: bytes, offset: nat)
    ensures offset + 11 > |file| ==> Tags(file, offset) == []
    ensures offset + 11 <= |file| ==>
      Tags(file, offset) == [TagAt(file, offset)] + Tags(file, TagAt(file, offset).End())
  {
  }

  /** Behind the 9-byte header and the first, empty, previous tag size. */
  const FIRST_TAG := 13

  // ----- video tags -----

  predicate IsExtended(b: byte) {
    b >= 128
  }

  function VideoHeaderSize(b: byte): nat {
    if IsExtended(b) then 5 else 1
  }

  /** A body of `length` bytes, `inFile` of them present, holds the video header that starts with b. */
  predicate HasVideoHeader(b: byte, length: nat, inFile: nat) {
    VideoHeaderSize(b) <= length && VideoHeaderSize(b) <= inFile
  }

  // ----- script tags -----

  datatype Script =
    | NameEof
    | BadName
    | NoValue
    | ValueEof
    | BadValue
    | Script(name: Data, value: Data)

  /** What reading a script body of `length` bytes at `pos` gives, and where the reader then stands. */
  function ReadScript(file: bytes, pos: nat, length: nat): (Script, Cursor) {
    var src := Input(file, true);
    var (name, c) := ParseData(src, Cursor(pos, false));
    if name == Err(Eof) then (NameEof, c)
    else if name.Err? then (BadName, c)
    else if length <= |Encode(name.value)| then (NoValue, c)
    else
      var (value, c') := ParseData(src, c);
      (if value == Err(Eof) then ValueEof else if value.Err? then BadValue else Script(name.value, value.value), c')
  }

  function ScriptSize(s: Script): nat
    requires s.Script?
  {
    |Encode(s.name)| + |Encode(s.value)|
  }

  /**
   * The script body is read without an error that ends the pass, and leaves the stream so that the next tag is found.
   * The reader counts sizes, not bytes consumed, and steps back by what the sizes exceed the body: the two may differ
   * only while the counted size stays short of the body.
   */
  ghost predicate KeepsStep(file: bytes, pos: nat, length: nat) {
    var (s, c) := ReadScript(file, pos, length);
    match s
    case BadName => !c.eof
    case Script(_, _) =>
      var size := ScriptSize(s);
      if size < length then !c.eof
      else if size == length then !c.eof && c.pos == pos + length
      else c.pos == pos + size
    case _ => false
  }
}
