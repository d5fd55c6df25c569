/** The stream reader over an FLV file: a state machine that is moved by every read. */
module FlvStream {
  import opened Bytes
  import opened Amf
  import opened AmfIo
  import opened AmfLaws
  import opened Flv
  import opened FlvUses

  datatype Result = Fine | EndOfFile | EmptyTag | NotFlv

  lemma Join(s: bytes, i: nat, j: nat, k: nat)
    requires i <= j <= k <= |s|
    ensures s[i..j] + s[j..k] == s[i..k]
  {
  }

  class Stream {
    const flvin: Source
    var state: State
    var current: Header
    var offset: nat
    var left: nat
    var overflow: nat

    constructor (file: bytes)
      ensures fresh(flvin) && flvin.content == file && flvin.file && flvin.At() == Cursor(0, false)
      ensures state == Start && Synced()
    {
      flvin := new Source(file, true);
      state, current, offset, left, overflow := Start, Header(0, 0, 0, 0), 0, 0, 0;
    }

    /** Where the next tag header will be looked for. */
    function Next(): nat
      reads this, flvin
    {
      match state
      case Start => flvin.pos + 13
      case AtTag => flvin.pos
      case InBody => offset + 15 + current.bodyLength
      case AtPrevSize => flvin.pos + 4
    }

    /** Where the stream stands in its current tag. */
    function Here(): Spot
      reads this, flvin
    {
      Spot(flvin.At(), state, left)
    }

    /** The current tag has been read from where the file has it. */
    ghost predicate OnTag(t: Tag)
      reads this, flvin
    {
      && flvin.file && offset == t.offset && current == t.header
    }

    /** The tags still to come. */
    ghost function Rest(): seq<Tag>
      reads this, flvin
    {
      Tags(flvin.content, Next())
    }

    /** The file position agrees with the counters, and the end-of-file flag is up only when no tag can follow. */
    ghost predicate Synced()
      reads this, flvin
    {
      && flvin.file
      && (state == InBody ==> left <= current.bodyLength && flvin.pos == offset + 11 + (current.bodyLength - left))
      && (state == InBody ==> flvin.pos <= |flvin.content|)
      && (flvin.eof ==> Next() + 11 > |flvin.content|)
    }

    /** flv_read_header. */
    method ReadHeader() returns (r: Result, header: bytes)
      requires state == Start && flvin.At() == Cursor(0, false) && flvin.file
      modifies this, flvin
      ensures r == Fine <==> |flvin.content| >= 9 && flvin.content[..3] == [70, 76, 86]
      ensures r == Fine ==> header == flvin.content[..9] && Synced() && Next() == FIRST_TAG && !flvin.eof
    {
      var ok, signature := flvin.Read(3);
      if !ok {
        return EndOfFile, [];
      }
      var ok1, version := flvin.Read(1);
      if !ok1 {
        return EndOfFile, [];
      }
      var ok2, flags := flvin.Read(1);
      if !ok2 {
        return EndOfFile, [];
      }
      var ok3, dataOffset := flvin.Read(4);
      if !ok3 {
        return EndOfFile, [];
      }
      assert signature == flvin.content[..3];
      if signature[0] != 70 || signature[1] != 76 || signature[2] != 86 {
        assert flvin.content[..3] != [70, 76, 86] by {
          var magic := [70, 76, 86];
          assert magic[0] == 70 && magic[1] == 76 && magic[2] == 86;
        }
        return NotFlv, [];
      }
      assert signature == [70, 76, 86];
      state := AtPrevSize;
      r, header := Fine, signature + version + flags + dataOffset;
    }

    /** flv_reset. */
    method Reset()
      requires flvin.file
      modifies this, flvin
      ensures state == Start && flvin.At() == Cursor(0, false) && Synced() && Next() == FIRST_TAG
    {
      left, offset, state := 0, 0, Start;
      flvin.SeekTo(0);
    }

    /** flv_read_tag: skips what is left of the current tag and reads the next header. */
    method ReadTag() returns (found: bool)
      requires flvin.file
      modifies this, flvin
      ensures found <==> !old(flvin.eof) && old(Next()) + 11 <= |flvin.content|
      ensures found ==> offset == old(Next()) && current == TagAt(flvin.content, offset).header
      ensures found ==> state == InBody && left == current.bodyLength && overflow == 0
      ensures found ==> flvin.At() == Cursor(offset + 11, false) && Synced()
    {
      if flvin.eof {
        return false;
      }
      if state == Start {
        flvin.SeekTo(flvin.pos + 9);
        state := AtPrevSize;
      }
      if state == InBody {
        flvin.SeekTo(offset + 11 + current.bodyLength);
        state := AtPrevSize;
      }
      if state == AtPrevSize {
        flvin.SeekTo(flvin.pos + 4);
        state := AtTag;
      }
      offset := flvin.pos;
      var header := ReadHeaderFields();
      if header == [] {
        return false;
      }
      current := DecodeHeader(header);
      left, overflow, state := current.bodyLength, 0, InBody;
      found := true;
    }

    /** The five reads of a tag header: type, length, timestamp, its extension, stream id. */
    method ReadHeaderFields() returns (header: bytes)
      requires flvin.file && !flvin.eof
      modifies flvin
      ensures header == if old(flvin.pos) + 11 <= |flvin.content|
              then flvin.content[old(flvin.pos)..old(flvin.pos) + 11] else []
      ensures header != [] ==> flvin.At() == Cursor(old(flvin.pos) + 11, false)
    {
      var ok, kind := flvin.Read(1);
      if !ok {
        return [];
      }
      var ok1, length := flvin.Read(3);
      if !ok1 {
        return [];
      }
      var ok2, timestamp := flvin.Read(3);
      if !ok2 {
        return [];
      }
      var ok3, extension := flvin.Read(1);
      if !ok3 {
        return [];
      }
      var ok4, streamId := flvin.Read(3);
      if !ok4 {
        return [];
      }
      ghost var p := old(flvin.pos);
      Join(flvin.content, p, p + 1, p + 4);
      Join(flvin.content, p, p + 4, p + 7);
      Join(flvin.content, p, p + 7, p + 8);
      Join(flvin.content, p, p + 8, p + 11);
      header := kind + length + timestamp + extension + streamId;
    }

    /** One byte has been taken from the body. */
    method CountByte()
      requires state == InBody && left > 0
      modifies this
      ensures left == old(left) - 1 && state == if left == 0 then AtPrevSize else InBody
      ensures unchanged(`current, `offset, `overflow)
    {
      left := left - 1;
      if left == 0 {
        state := AtPrevSize;
      }
    }

    /** flv_read_audio_tag, and the first byte of flv_read_video_tag. */
    method ReadFirstByte() returns (r: Result, b: byte)
      requires flvin.file
      modifies this, flvin
      ensures Here() == AfterFirstByte(flvin.Input(), old(Here()))
      ensures old(Synced()) ==> Synced() && Next() == old(Next()) && (state == old(state) || state == AtPrevSize)
      ensures r == Fine <==> old(state == InBody && !flvin.eof && left > 0 && flvin.pos < |flvin.content|)
      ensures r == EmptyTag <==> old(state == InBody && !flvin.eof && left == 0)
      ensures r == Fine || r == EmptyTag || r == EndOfFile
      ensures r == Fine ==> b == flvin.content[old(flvin.pos)] && left == old(left) - 1 && !flvin.eof
      ensures r == Fine ==> flvin.pos == old(flvin.pos) + 1 && state == (if left == 0 then AtPrevSize else InBody)
      ensures unchanged(`current, `offset)
    {
      b := 0;
      if flvin.eof || state != InBody {
        return EndOfFile, 0;
      }
      if left == 0 {
        return EmptyTag, 0;
      }
      var ok, chunk := flvin.Read(1);
      if !ok {
        return EndOfFile, 0;
      }
      CountByte();
      r, b := Fine, chunk[0];
    }

    /** flv_read_tag_body: up to n bytes of what the tag and the file still hold. */
    method ReadBody(n: nat) returns (b: bytes)
      requires flvin.file
      modifies this, flvin
      ensures Here() == AfterPart(flvin.Input(), old(Here()), n)
      ensures old(Synced()) ==> Synced() && Next() == old(Next()) && (state == old(state) || state == AtPrevSize)
      ensures b == old(if flvin.eof || state != InBody then [] else Available(n))
      ensures old(state == InBody) ==> left == old(left) - |b| && (left > 0 ==> state == InBody)
      ensures old(Synced()) && (old(state != InBody) || |b| == old(if n < left then n else left)) ==>
        flvin.eof == old(flvin.eof)
      ensures unchanged(`current, `offset)
    {
      if flvin.eof || state != InBody {
        return [];
      }
      var wanted := if n > left then left else n;
      var _, chunk := flvin.Read(wanted);
      b := chunk;
      left := left - |b|;
      if left == 0 {
        state := AtPrevSize;
      }
    }

    /** The part of the body that has not been read yet. */
    function Unread(): bytes
      reads this, flvin
    {
      if state == InBody then Available(left) else []
    }

    function Available(n: nat): (b: bytes)
      reads this, flvin
      ensures |b| <= n && |b| <= left
    {
      flvin.Input().Chunk(flvin.At(), if n > left then left else n)
    }

    /** flv_read_prev_tag_size. */
    method ReadPrevTagSize() returns (r: Result, size: uint32)
      requires flvin.file
      modifies this, flvin
      ensures forall t: Tag | t.offset == offset && t.header == current ::
        Here() == AfterSize(flvin.Input(), t, old(Here()))
      ensures old(Synced()) ==> Synced()
      ensures old(Synced() && state in {InBody, AtPrevSize}) ==> Rest() == old(Rest())
      ensures r == Fine <==> old(!flvin.eof && state in {InBody, AtPrevSize} && Next() <= |flvin.content|)
      ensures unchanged(`current, `offset)
      ensures r == Fine ==> size == U32(flvin.content[old(Next()) - 4..old(Next())]) && state == AtTag
    {
      if flvin.eof {
        return EndOfFile, 0;
      }
      if state == InBody {
        flvin.SeekTo(offset + 11 + current.bodyLength);
        state := AtPrevSize;
      }
      if state == AtPrevSize {
        var ok, chunk := flvin.Read(4);
        if !ok {
          return EndOfFile, 0;
        }
        state := AtTag;
        return Fine, U32(chunk);
      }
      return EndOfFile, 0;
    }

    /** flv_read_video_tag: the codec byte and, when it announces an extended header, the four-character code. */
    method ReadVideoTag() returns (r: Result, b: byte, fourcc: bytes)
      requires flvin.file
      modifies this, flvin
      ensures Here() == AfterVideo(flvin.Input(), old(Here()))
      ensures old(Synced()) ==> Synced() && Next() == old(Next()) && (state == old(state) || state == AtPrevSize)
      ensures r == Fine <==>
        old(state == InBody && !flvin.eof && flvin.pos < |flvin.content|
            && HasVideoHeader(flvin.content[flvin.pos], left, |flvin.content| - flvin.pos))
      ensures r == EmptyTag <==> old(state == InBody && !flvin.eof && left == 0)
      ensures r == Fine || r == EmptyTag || r == EndOfFile
      ensures r == Fine ==> b == flvin.content[old(flvin.pos)]
      ensures r == Fine ==> fourcc == flvin.content[old(flvin.pos) + 1..old(flvin.pos) + VideoHeaderSize(b)]
      ensures r == Fine ==> left == old(left) - VideoHeaderSize(b) && (left > 0 ==> state == InBody) && !flvin.eof
      ensures unchanged(`current, `offset)
    {
      fourcc := [];
      r, b := ReadFirstByte();
      if r != Fine {
        return;
      }
      if IsExtended(b) {
        fourcc := ReadBody(4);
        if |fourcc| != 4 {
          return EndOfFile, b, [];
        }
      }
    }

    /** flv_read_metadata: the name and value of a script tag, from wherever in its body the stream stands. */
    method ReadMetadata() returns (r: Result, script: Script)
      requires flvin.file
      modifies this, flvin
      ensures Here() == AfterMetadata(flvin.Input(), old(Here()))
      ensures r == (if old(!Here().Readable()) then EndOfFile else if old(left) == 0 then EmptyTag else Fine)
      ensures r == Fine ==> script == ReadScript(flvin.content, old(flvin.pos), old(left)).0
      ensures unchanged(`current, `offset)
    {
      script := BadName;
      if flvin.eof || state != InBody {
        return EndOfFile, script;
      }
      if left == 0 {
        return EmptyTag, script;
      }
      r := Fine;
      ghost var c := flvin.At();
      var name := flvin.ReadData();
      if name == Err(Eof) {
        return Fine, NameEof;
      } else if name.Err? {
        return Fine, BadName;
      }
      var size := Size(name.value);
      if left > size {
        left := left - size;
      } else {
        // the length is zeroed first, so the step back is the whole size of the name
        left, overflow, state := 0, size, AtPrevSize;
        flvin.SeekBack(size);
        return Fine, NoValue;
      }
      var value := flvin.ReadData();
      if value == Err(Eof) {
        return Fine, ValueEof;
      } else if value.Err? {
        return Fine, BadValue;
      }
      CountValue(value.value);
      script := Script(name.value, value.value);
    }

    /** The value has been read: count its size and step back by what it exceeds the body. */
    method CountValue(value: Data)
      requires state == InBody
      modifies this, flvin
      ensures unchanged(`current, `offset)
      ensures Here() == AfterValue(old(flvin.At()), old(left), |Encode(value)|)
    {
      var size := Size(value);
      if left >= size {
        left := left - size;
        overflow := 0;
      } else {
        overflow, left := size - left, 0;
      }
      if left == 0 {
        state := AtPrevSize;
        if overflow > 0 {
          flvin.SeekBack(overflow);
        }
      }
    }

    /** One read of a body, whichever. */
    method Use(use: BodyUse, ghost t: Tag)
      requires OnTag(t)
      modifies this, flvin
      ensures OnTag(t) && Here() == AfterUse(flvin.Input(), t, old(Here()), use)
    {
      match use
      case FirstByte =>
        var _, _ := ReadFirstByte();
      case Video =>
        var _, _, _ := ReadVideoTag();
      case Part(n) =>
        var _ := ReadBody(n);
      case Metadata =>
        var _, _ := ReadMetadata();
      case PrevSize =>
        var _, _ := ReadPrevTagSize();
    }

    /** Several reads. */
    method UseAll(uses: seq<BodyUse>, ghost t: Tag)
      requires OnTag(t)
      modifies this, flvin
      ensures OnTag(t) && (Here() == AfterUses(flvin.Input(), t, old(Here()), uses))
    {
      hide AfterUse;
      for i := 0 to |uses|
        invariant OnTag(t) && Here() == AfterUses(flvin.Input(), t, old(Here()), uses[..i])
      {
        assert uses[..i + 1][..i] == uses[..i];
        Use(uses[i], t);
      }
      assert uses[..|uses|] == uses;
    }

    /** The stream looks for the next header behind what the reads of its tag have left. */
    lemma NextIsOnward(t: Tag)
      requires OnTag(t)
      ensures Next() == Onward(t, Here())
      ensures Finds(flvin.content, t, Here()) <==> !flvin.eof && Next() + 11 <= |flvin.content|
    {
    }

    lemma FreshOnTag(t: Tag)
      requires offset + 11 <= |flvin.content| && t == TagAt(flvin.content, offset) && current == t.header && flvin.file
      requires state == InBody && left == current.bodyLength && flvin.At() == Cursor(offset + 11, false)
      ensures OnTag(t) && Here() == Fresh(t)
    {
    }

    /**
     * The headers found by successive flv_read_tag calls, whatever is read of each body in between. Their offsets are
     * those of the chain of tags exactly if every tag of the chain is left in step by the reads of it.
     */
    method Walk(plan: seq<seq<BodyUse>>) returns (offsets: seq<nat>, headers: seq<Header>)
      requires flvin.file && Next() == FIRST_TAG && !flvin.eof
      modifies this, flvin
      ensures offsets == Offsets(Tags(flvin.content, FIRST_TAG)) <==> AllInStep(flvin.content, plan)
      ensures AllInStep(flvin.content, plan) ==> headers == Headers(Tags(flvin.content, FIRST_TAG))
    {
      hide Tags, TagAt, AfterUses, Fresh, Onward, Finds, InStep, Lookout, Headers, Offsets, AllInStep, Next, Here,
        Ahead;
      ghost var file, lost := flvin.content, false;
      ghost var src, chain := Input(file, true), Tags(file, FIRST_TAG);
      offsets, headers := [], [];
      NoneYet(file, chain, plan);
      while true
        invariant flvin.file && flvin.content == file && |headers| == |offsets|
        invariant lost ==> !AllInStep(file, plan) && !(offsets <= Offsets(chain))
        invariant !lost ==> |offsets| <= |chain| && offsets == Offsets(chain[..|offsets|])
        invariant !lost ==> headers == Headers(chain[..|offsets|])
        invariant !lost ==> forall j :: 0 <= j < |offsets| - 1 ==> InStep(file, chain[j], PlanAt(plan, j))
        invariant !lost ==> Lookout(file, chain, plan, |offsets|, !flvin.eof && Next() + 11 <= |file|, Next())
        decreases if Next() <= |file| then |file| - Next() + 1 else 0
      {
        ghost var i, next := |offsets|, Next();
        var found := ReadTag();
        if !lost {
          LookoutMeans(file, plan, i, found, next);
        }
        if !found {
          if !lost {
            WalkEnds(file, plan, offsets, headers);
          }
          break;
        }
        ghost var t := TagAt(file, offset);
        FreshOnTag(t);
        if !lost {
          OneMore(file, plan, i, next);
          lost := !(i < |chain| && t == chain[i]);
        }
        offsets, headers := offsets + [offset], headers + [current];
        var uses := PlanAt(plan, |offsets| - 1);
        UseAll(uses, t);
        NextIsOnward(t);
        UsesAhead(src, t, uses);
        if !lost {
          LookoutBehind(file, chain, plan, i, Here());
        }
      }
    }
  }

  /** What is read of the body of tag j of a walk. */
  function PlanAt(plan: seq<seq<BodyUse>>, j: nat): seq<BodyUse> {
    if j < |plan| then plan[j] else []
  }

  ghost predicate AllInStep(file: bytes, plan: seq<seq<BodyUse>>) {
    forall j :: 0 <= j < |Tags(file, FIRST_TAG)| ==> InStep(file, Tags(file, FIRST_TAG)[j], PlanAt(plan, j))
  }

  function Offsets(tags: seq<Tag>): seq<nat> {
    seq(|tags|, i requires 0 <= i < |tags| => tags[i].offset)
  }

  function Headers(tags: seq<Tag>): seq<Header> {
    seq(|tags|, i requires 0 <= i < |tags| => tags[i].header)
  }

  /** What the stream is about to do behind tag i - 1 of the chain, none of the tags so far being lost. */
  ghost predicate Lookout(file: bytes, chain: seq<Tag>, plan: seq<seq<BodyUse>>, i: nat, found: bool, next: nat)
    requires i <= |chain|
  {
    if i == 0 then next == FIRST_TAG && (found <==> next + 11 <= |file|) else
      var t := chain[i - 1];
      var s := AfterUses(Input(file, true), t, Fresh(t), PlanAt(plan, i - 1));
      next == Onward(t, s) && (found <==> Finds(file, t, s))
  }

  lemma {:induction false} ChainLinks(file: bytes, offset: nat, i: nat)
    ensures i == 0 ==> (i < |Tags(file, offset)| <==> offset + 11 <= |file|)
    ensures i == 0 && i < |Tags(file, offset)| ==> Tags(file, offset)[i] == TagAt(file, offset)
    ensures 0 < i <= |Tags(file, offset)| ==>
      (i < |Tags(file, offset)| <==> Tags(file, offset)[i - 1].End() + 11 <= |file|)
    ensures 0 < i < |Tags(file, offset)| ==> Tags(file, offset)[i] == TagAt(file, Tags(file, offset)[i - 1].End())
    decreases i
  {
    hide TagAt, Tag.End;
    UnfoldTags(file, offset);
    if 0 < i <= |Tags(file, offset)| {
      var end := TagAt(file, offset).End();
      assert offset + 11 <= |file|;
      ChainLinks(file, end, i - 1);
      assert Tags(file, offset) == [TagAt(file, offset)] + Tags(file, end);
    }
  }

  /** Tag i - 1 is in step exactly if the right tag, or rightly none, is found behind it. */
  lemma LookoutMeans(file: bytes, plan: seq<seq<BodyUse>>, i: nat, found: bool, next: nat)
    requires i <= |Tags(file, FIRST_TAG)| && Lookout(file, Tags(file, FIRST_TAG), plan, i, found, next)
    requires found ==> next + 11 <= |file|
    ensures var chain := Tags(file, FIRST_TAG);
            i == 0 || InStep(file, chain[i - 1], PlanAt(plan, i - 1))
            <==> (found <==> i < |chain|) && (found && i < |chain| ==> TagAt(file, next) == chain[i])
  {
    hide Tags, AfterUses, Fresh, Onward;
    ChainLinks(file, FIRST_TAG, i);
  }

  lemma NoneYet(file: bytes, chain: seq<Tag>, plan: seq<seq<BodyUse>>)
    ensures [] == Offsets(chain[..0]) && [] == Headers(chain[..0])
    ensures Lookout(file, chain, plan, 0, FIRST_TAG + 11 <= |file|, FIRST_TAG)
  {
  }

  lemma LookoutBehind(file: bytes, chain: seq<Tag>, plan: seq<seq<BodyUse>>, i: nat, s: Spot)
    requires i < |chain| && s == AfterUses(Input(file, true), chain[i], Fresh(chain[i]), PlanAt(plan, i))
    ensures Lookout(file, chain, plan, i + 1, Finds(file, chain[i], s), Onward(chain[i], s))
  {
  }

  /** One more header has been found: it is that of the chain exactly if the tag before was in step. */
  lemma OneMore(file: bytes, plan: seq<seq<BodyUse>>, i: nat, next: nat)
    requires var chain := Tags(file, FIRST_TAG);
             && i <= |chain| && next + 11 <= |file|
             && (i == 0 || InStep(file, chain[i - 1], PlanAt(plan, i - 1)) <==>
               i < |chain| && TagAt(file, next) == chain[i])
    ensures var chain, t := Tags(file, FIRST_TAG), TagAt(file, next);
            && t.offset == next
            && (i < |chain| && t == chain[i] ==>
              && Offsets(chain[..i]) + [next] == Offsets(chain[..i + 1])
              && Headers(chain[..i]) + [t.header] == Headers(chain[..i + 1])
              && (i > 0 ==> InStep(file, chain[i - 1], PlanAt(plan, i - 1))))
            && (!(i < |chain| && t == chain[i]) ==>
              !AllInStep(file, plan) && !(Offsets(chain[..i]) + [next] <= Offsets(chain)))
  {
    hide Tags, InStep;
    var chain, t := Tags(file, FIRST_TAG), TagAt(file, next);
    ChainLinks(file, FIRST_TAG, i);
    if !(i < |chain| && t == chain[i]) {
      assert (Offsets(chain[..i]) + [next])[i] == next;
    }
  }

  lemma WalkEnds(file: bytes, plan: seq<seq<BodyUse>>, offsets: seq<nat>, headers: seq<Header>)
    requires var chain, i := Tags(file, FIRST_TAG), |offsets|;
             && i <= |chain| && offsets == Offsets(chain[..i]) && headers == Headers(chain[..i])
             && (forall j :: 0 <= j < i - 1 ==> InStep(file, chain[j], PlanAt(plan, j)))
             && (i == 0 || InStep(file, chain[i - 1], PlanAt(plan, i - 1)) <==> i == |chain|)
    ensures offsets == Offsets(Tags(file, FIRST_TAG)) <==> AllInStep(file, plan)
    ensures AllInStep(file, plan) ==> headers == Headers(Tags(file, FIRST_TAG))
  {
    hide Tags, InStep;
    var chain := Tags(file, FIRST_TAG);
    assert chain[..|chain|] == chain;
    assert |Offsets(chain)| == |chain|;
  }

  /** A script tag whose body is a null, and the header of an empty audio tag. */
  const LOST: bytes :=
    [70, 76, 86, 1, 0, 0, 0, 0, 9] + [0, 0, 0, 0]
    + EncodeHeader(Header(META, 1, 0, 0)) + [5] + [0, 0, 0, 12]
    + EncodeHeader(Header(AUDIO, 0, 0, 0))

  /** Reading the metadata of that file loses its second tag. */
  lemma MetadataLosesATag()
    ensures |Tags(LOST, FIRST_TAG)| == 2 && !AllInStep(LOST, [[Metadata]])
  {
    hide EncodeHeader, DecodeHeader;
    var t, next := TagAt(LOST, FIRST_TAG), TagAt(LOST, 29);
    assert LOST[13..24] == EncodeHeader(Header(META, 1, 0, 0));
    assert LOST[29..40] == EncodeHeader(Header(AUDIO, 0, 0, 0));
    HeaderInverse(Header(META, 1, 0, 0));
    HeaderInverse(Header(AUDIO, 0, 0, 0));
    assert t.End() == 29 && next.End() == 44;
    UnfoldTags(LOST, 13);
    UnfoldTags(LOST, 29);
    UnfoldTags(LOST, 44);
    assert LOST[24] == 5;
    ShortBodyIsLost(LOST, t);
    assert !InStep(LOST, Tags(LOST, FIRST_TAG)[0], PlanAt([[Metadata]], 0));
  }
}
