/** What reads of a tag body leave behind, as functions, and exactly which of them lose the tag that follows. */
module FlvUses {
  import opened Bytes
  import opened Amf
  import opened AmfLaws
  import opened Flv

  datatype State = Start | AtTag | InBody | AtPrevSize

  /** Where the stream stands in a tag: file position, state, and what its counter says is left of the body. */
  datatype Spot = Spot(at: Cursor, state: State, left: nat) {
    /** A body that can be read from. */
    predicate Readable() {
      !at.eof && state == InBody
    }
  }

  /** Anything that can be read of a tag between its header and the next one. */
  datatype BodyUse = FirstByte | Video | Part(n: nat) | Metadata | PrevSize

  function Least(a: nat, b: nat): nat {
    if a < b then a else b
  }

  function Counted(at: Cursor, left: nat): Spot {
    Spot(at, if left == 0 then AtPrevSize else InBody, left)
  }

  /** flv_read_audio_tag, and the first byte of flv_read_video_tag. */
  function AfterFirstByte(src: Input, s: Spot): Spot {
    if !s.Readable() || s.left == 0 then s
    else if !src.Has(s.at, 1) then s.(at := src.Take(s.at, 1))
    else Counted(src.Take(s.at, 1), s.left - 1)
  }

  /** flv_read_tag_body. */
  function AfterPart(src: Input, s: Spot, n: nat): Spot {
    if !s.Readable() then s else
      var got := |src.Chunk(s.at, Least(n, s.left))|;
      Counted(src.Take(s.at, Least(n, s.left)), if got <= s.left then s.left - got else 0)
  }

  /** flv_read_video_tag. */
  function AfterVideo(src: Input, s: Spot): Spot {
    var s' := AfterFirstByte(src, s);
    if s.Readable() && s.left > 0 && src.Has(s.at, 1) && IsExtended(src.content[s.at.pos]) then AfterPart(src, s', 4)
      else s'
  }

  function Back(c: Cursor, n: nat): Cursor {
    if n <= c.pos then Cursor(c.pos - n, false) else c
  }

  /** The value has been read up to c; what its size exceeds the body by is stepped back. */
  function AfterValue(c: Cursor, left: nat, size: nat): Spot {
    if size < left then Spot(c, InBody, left - size)
    else Spot(if size > left then Back(c, size - left) else c, AtPrevSize, 0)
  }

  /**
   * flv_read_metadata. If the name fills the body the length is zeroed before the excess is taken, so that the step
   * back is the whole size of the name.
   */
  function AfterMetadata(src: Input, s: Spot): Spot {
    if !s.Readable() || s.left == 0 then s else
      var (name, c) := ParseData(src, s.at);
      if name.Err? then s.(at := c)
      else if s.left <= |Encode(name.value)| then Spot(Back(c, |Encode(name.value)|), AtPrevSize, 0)
      else
        var (value, c') := ParseData(src, c);
        if value.Err? then Spot(c', InBody, s.left - |Encode(name.value)|)
        else AfterValue(c', s.left - |Encode(name.value)|, |Encode(value.value)|)
  }

  /** flv_read_prev_tag_size. */
  function AfterSize(src: Input, t: Tag, s: Spot): Spot {
    if s.at.eof || (s.state != InBody && s.state != AtPrevSize) then s else
      var at := if s.state == InBody then Cursor(t.End() - 4, false) else s.at;
      Spot(src.Take(at, 4), if src.Has(at, 4) then AtTag else AtPrevSize, s.left)
  }

  function AfterUse(src: Input, t: Tag, s: Spot, use: BodyUse): Spot {
    match use
    case FirstByte => AfterFirstByte(src, s)
    case Video => AfterVideo(src, s)
    case Part(n) => AfterPart(src, s, n)
    case Metadata => AfterMetadata(src, s)
    case PrevSize => AfterSize(src, t, s)
  }

  function AfterUses(src: Input, t: Tag, s: Spot, uses: seq<BodyUse>): Spot {
    if uses == [] then s else AfterUse(src, t, AfterUses(src, t, s, uses[..|uses| - 1]), uses[|uses| - 1])
  }

  /** Behind the header of a tag. */
  function Fresh(t: Tag): Spot {
    Spot(Cursor(t.BodyStart(), false), InBody, t.header.bodyLength)
  }

  /** Where the next header is looked for. */
  function Onward(t: Tag, s: Spot): nat {
    match s.state
    case Start => s.at.pos + 13
    case AtTag => s.at.pos
    case InBody => t.End()
    case AtPrevSize => s.at.pos + 4
  }

  predicate Finds(file: bytes, t: Tag, s: Spot) {
    !s.at.eof && Onward(t, s) + 11 <= |file|
  }

  /** After these uses of tag t the stream finds the tag that follows in the chain, and none if none follows. */
  predicate InStep(file: bytes, t: Tag, uses: seq<BodyUse>) {
    var s := AfterUses(Input(file, true), t, Fresh(t), uses);
    (Finds(file, t, s) <==> t.End() + 11 <= |file|) && (Finds(file, t, s) ==> Onward(t, s) == t.End())
  }

  // ----- the stream never goes back behind a header -----

  /** The position is at most one byte in front of the body. */
  predicate Ahead(t: Tag, s: Spot) {
    match s.state
    case Start => false
    case AtTag => s.at.pos > t.offset
    case InBody => s.at.pos >= t.BodyStart()
    case AtPrevSize => s.at.pos + 1 >= t.BodyStart()
  }

  lemma MetadataAhead(src: Input, t: Tag, s: Spot)
    requires src.file && Ahead(t, s)
    ensures Ahead(t, AfterMetadata(src, s))
  {
    hide Encode, ParseData;
    if s.Readable() && s.left > 0 {
      SizeBound(src, s.at);
      var (name, c) := ParseData(src, s.at);
      SizeBound(src, c);
    }
  }

  lemma UseAhead(src: Input, t: Tag, s: Spot, use: BodyUse)
    requires src.file && Ahead(t, s)
    ensures Ahead(t, AfterUse(src, t, s, use))
  {
    hide AfterMetadata;
    MetadataAhead(src, t, s);
  }

  lemma {:induction false} UsesAhead(src: Input, t: Tag, uses: seq<BodyUse>)
    requires src.file
    ensures Ahead(t, AfterUses(src, t, Fresh(t), uses)) && Onward(t, AfterUses(src, t, Fresh(t), uses)) > t.offset
  {
    hide AfterUse;
    if uses != [] {
      UsesAhead(src, t, uses[..|uses| - 1]);
      UseAhead(src, t, AfterUses(src, t, Fresh(t), uses[..|uses| - 1]), uses[|uses| - 1]);
    }
  }

  // ----- reads that keep in step, and one that does not -----

  /** As long as no metadata is read, the counter agrees with the position, and nothing is lost. */
  predicate Agrees(file: bytes, t: Tag, s: Spot) {
    && s.left <= t.header.bodyLength && (s.at.eof ==> t.End() + 11 > |file|)
    && match s.state
       case Start => false
       case AtTag => s.at.pos == t.End()
       case InBody => s.at.pos == t.End() - 4 - s.left <= |file|
       case AtPrevSize => s.at.pos == t.End() - 4 || (s.at.eof && s.at.pos + 4 + 11 > |file|)
  }

  lemma UseAgrees(file: bytes, t: Tag, s: Spot, use: BodyUse)
    requires Agrees(file, t, s) && !use.Metadata?
    ensures Agrees(file, t, AfterUse(Input(file, true), t, s, use))
  {
  }

  /** Whatever mix of other reads comes between, the stream stays in step. */
  lemma {:induction false} OtherReadsKeepStep(file: bytes, t: Tag, uses: seq<BodyUse>)
    requires t.BodyStart() <= |file| && forall use | use in uses :: !use.Metadata?
    ensures Agrees(file, t, AfterUses(Input(file, true), t, Fresh(t), uses)) && InStep(file, t, uses)
  {
    hide AfterUse;
    if uses != [] {
      OtherReadsKeepStep(file, t, uses[..|uses| - 1]);
      UseAgrees(file, t, AfterUses(Input(file, true), t, Fresh(t), uses[..|uses| - 1]), uses[|uses| - 1]);
    }
  }

  /**
   * A script body that stops neither pass keeps the stream in step exactly if the sizes read fit where the reader
   * stands.
   */
  lemma MetadataStep(file: bytes, t: Tag)
    requires t.header.bodyLength > 0
    ensures var s := AfterMetadata(Input(file, true), Fresh(t));
            var script := ReadScript(file, t.BodyStart(), t.header.bodyLength).0;
            script.BadName? || script.Script? ==>
              (KeepsStep(file, t.BodyStart(), t.header.bodyLength) <==> !s.at.eof && Onward(t, s) == t.End())
  {
    hide Encode, ParseData;
    var src := Input(file, true);
    SizeBound(src, Cursor(t.BodyStart(), false));
    var (name, c) := ParseData(src, Cursor(t.BodyStart(), false));
    SizeBound(src, c);
  }

  /**
   * A script body no longer than its name, of whatever length: the next header is looked for four bytes behind where
   * the name begins, if the name is read as it would be written. The tag behind is lost unless the file ends there.
   */
  lemma ShortBodyIsLost(file: bytes, t: Tag)
    requires t.header.bodyLength > 0 && ReadScript(file, t.BodyStart(), t.header.bodyLength).0.NoValue?
    ensures var (name, c) := ParseData(Input(file, true), Cursor(t.BodyStart(), false));
            && Onward(t, AfterUses(Input(file, true), t, Fresh(t), [Metadata])) == c.pos + 4 - |Encode(name.value)|
            && (c.pos == t.BodyStart() + |Encode(name.value)| ==>
              (InStep(file, t, [Metadata]) <==> |file| < t.offset + 26))
  {
    hide Encode, ParseData;
    assert [Metadata][..0] == [];
    assert AfterUses(Input(file, true), t, Fresh(t), [Metadata]) == AfterMetadata(Input(file, true), Fresh(t));
    SizeBound(Input(file, true), Cursor(t.BodyStart(), false));
  }
}
