/** The first pass over an FLV file: everything the new metadata and the layout of the output depend on. */
module FlvInfo {
  import opened Bytes
  import opened Amf
  import opened AmfIo
  import opened Flv
  import opened FlvClock
  import opened FlvStream
  import opened FlvUses

  // ----- parameters of a run -----

  /** A computed number before it is stored as 64 bits. */
  datatype Number = Finite(value: real) | PlusInfinity | MinusInfinity | NotANumber

  /** The unread part of a video body and the frame size known so far. */
  datatype Frame = Frame(codec: uint32, unread: bytes, length: int, width: uint32, height: uint32)

  /** The frame size found and the number of body bytes looked at, or a body too short for its codec. */
  datatype Probed = Sized(width: uint32, height: uint32, used: nat) | TooShort

  datatype Options = Options(
    insertOnLastSecond: bool,
    resetTimestamps: bool,
    allKeyframes: bool,
    metadata: seq<Member>,
    creator: Text,
    now: Number,
    store: Number -> Bits64,
    probe: Frame -> Probed)

  // ----- what pass 1 sees of a tag -----

  /** A tag with its corrected timestamp and, for a script tag with a body, what its body reads as. */
  datatype Seen = Seen(tag: Tag, time: uint32, script: Script) {
    function Length(): nat {
      tag.header.bodyLength
    }

    function Kind(): byte {
      tag.header.kind
    }
  }

  function ScriptOf(file: bytes, t: Tag): Script {
    if t.header.kind == META && t.header.bodyLength > 0
    then ReadScript(file, t.BodyStart(), t.header.bodyLength).0
    else BadName
  }

  function See(file: bytes, tags: seq<Tag>): (seen: seq<Seen>)
    ensures |seen| == |tags|
  {
    var times := Times(tags);
    seq(|tags|, i requires 0 <= i < |tags| => Seen(tags[i], times[i], ScriptOf(file, tags[i])))
  }

  /** The names of the two injected events. */
  const ON_METADATA: Name := [111, 110, 77, 101, 116, 97, 68, 97, 116, 97]
  const ON_LAST_SECOND: Name := [111, 110, 76, 97, 115, 116, 83, 101, 99, 111, 110, 100]

  /** strncmp(name, literal, |name|) == 0: a NUL-free name matches every literal it is a prefix of. */
  predicate Matches(name: Text, literal: Name) {
    var s := CString(name);
    if |s| == |name| then name <= literal else s == literal
  }

  predicate Named(s: Seen, literal: Name) {
    s.script.Script? && s.script.name.String? && Matches(s.script.name.text, literal)
  }

  // ----- the accumulated information -----

  datatype VideoInfo = VideoInfo(
    present: bool,
    codec: uint32,
    width: uint32,
    height: uint32,
    sized: bool,
    frames: nat,
    dataSize: nat,
    realDataSize: int,
    first: uint32,
    frameDuration: uint32)

  datatype AudioInfo = AudioInfo(
    present: bool,
    header: byte,
    dataSize: nat,
    realDataSize: int,
    first: uint32,
    frameDuration: uint32)

  datatype KeyInfo = KeyInfo(
    present: bool,
    last: uint32,
    canSeekToEnd: bool,
    times: seq<real>,
    positions: seq<int>)

  datatype ScriptInfo = ScriptInfo(
    dataSize: nat,
    onMetadataSize: nat,
    onMetadataOffset: nat,
    haveOnLastSecond: bool)

  datatype Info = Info(
    video: VideoInfo,
    audio: AudioInfo,
    keys: KeyInfo,
    script: ScriptInfo,
    haveFirst: bool,
    first: uint32,
    lastTimestamp: uint32,
    lastMedia: byte,
    biggestBody: nat,
    prevTagsSize: nat)

  const NO_INFO := Info(
    VideoInfo(false, 0, 0, 0, false, 0, 0, 0, 0, 0),
    AudioInfo(false, 0, 0, 0, 0, 0),
    KeyInfo(false, 0, false, [], []),
    ScriptInfo(0, 0, 0, false),
    false, 0, 0, 0, 0, 4)

  function Minus32(a: uint32, b: uint32): uint32 {
    (a as int - b) % 0x1_0000_0000
  }

  /** The timestamp the rest of the program works with: relative to the first media tag if so wanted. */
  function Shift(opts: Options, first: uint32, time: uint32): uint32 {
    if opts.resetTimestamps && time > 0 then Minus32(time, first) else time
  }

  /** The effects every tag has. */
  function StepCommon(opts: Options, info: Info, s: Seen): Info {
    var i := if !info.haveFirst && s.Kind() != META then info.(first := s.time, haveFirst := true) else info;
    i.(biggestBody := if i.biggestBody < s.Length() then s.Length() else i.biggestBody,
       lastTimestamp := Shift(opts, i.first, s.time))
  }

  predicate IsOnMetadata(info: ScriptInfo, s: Seen) {
    info.onMetadataSize == 0 && Named(s, ON_METADATA)
  }

  function StepScript(info: ScriptInfo, s: Seen): ScriptInfo {
    if IsOnMetadata(info, s) then
      info.(onMetadataSize := s.Length() + 15, onMetadataOffset := s.tag.offset)
    else
      info.(haveOnLastSecond := info.haveOnLastSecond || Named(s, ON_LAST_SECOND),
        dataSize := info.dataSize + s.Length() + 11)
  }

  function StepMeta(info: Info, s: Seen): Info {
    info.(script := StepScript(info.script, s),
          prevTagsSize := if IsOnMetadata(info.script, s) then info.prevTagsSize else info.prevTagsSize + 4)
  }

  predicate IsKeyframeByte(b: byte) {
    b / 16 % 8 == 1
  }

  /** The legacy codec number, or the four-character code in host order. */
  function CodecOf(b: byte, fourcc: bytes): uint32
    requires IsExtended(b) ==> |fourcc| == 4
  {
    if IsExtended(b) then U32([fourcc[3], fourcc[2], fourcc[1], fourcc[0]]) else b % 16
  }

  /** A video body that is not empty, with its whole video header. */
  predicate HasVideo(s: Seen) {
    s.Length() > 0 && s.tag.body != [] && VideoHeaderSize(s.tag.body[0]) <= |s.tag.body|
  }

  predicate IsKeyframe(s: Seen) {
    HasVideo(s) && IsKeyframeByte(s.tag.body[0])
  }

  function WithCodec(v: VideoInfo, time: uint32, s: Seen): VideoInfo
    requires HasVideo(s)
  {
    if v.present then v else
      var b := s.tag.body[0];
      v.(present := true, codec := CodecOf(b, s.tag.body[1..VideoHeaderSize(b)]), first := time)
  }

  /** The structure a length is compared with is 8 bytes long, and the difference is unsigned. */
  function FrameOf(v: VideoInfo, s: Seen): Frame
    requires HasVideo(s)
  {
    Frame(v.codec, s.tag.body[VideoHeaderSize(s.tag.body[0])..], (s.Length() - 8) % 0x1_0000_0000, v.width, v.height)
  }

  /** The frame size can be looked for, if it is looked for. */
  predicate FindsSize(opts: Options, v: VideoInfo, s: Seen)
    requires HasVideo(s)
  {
    !v.sized && IsKeyframe(s) ==> opts.probe(FrameOf(v, s)).Sized?
  }

  function WithSize(opts: Options, v: VideoInfo, s: Seen): VideoInfo
    requires HasVideo(s)
  {
    if v.sized || !IsKeyframe(s) then v else
      var p := opts.probe(FrameOf(v, s));
      if p.TooShort? then v else v.(width := p.width, height := p.height, sized := p.width > 0 && p.height > 0)
  }

  function CountVideo(v: VideoInfo, time: uint32, length: nat): VideoInfo {
    v.(frames := (v.frames + 1) % 0x1_0000_0000,
       frameDuration := if v.frameDuration == 0 then Minus32(time, v.first) else v.frameDuration,
       realDataSize := if length == 0 then v.realDataSize else v.realDataSize + length - 1,
       dataSize := v.dataSize + length + 11)
  }

  function StepVideoInfo(opts: Options, v: VideoInfo, time: uint32, s: Seen): VideoInfo {
    CountVideo(if HasVideo(s) then WithSize(opts, WithCodec(v, time, s), s) else v, time, s.Length())
  }

  /** The index takes a keyframe unless the last one taken has the same time. */
  predicate Indexes(opts: Options, k: KeyInfo, time: uint32) {
    !k.present || k.last != time || opts.allKeyframes
  }

  function StepKeys(opts: Options, k: KeyInfo, time: uint32, s: Seen): KeyInfo {
    if !HasVideo(s) then k
    else if !IsKeyframe(s) then k.(canSeekToEnd := false)
    else if Indexes(opts, k, time) then
      KeyInfo(true, time, true, k.times + [time as real / 1000.0], k.positions + [s.tag.offset])
    else k.(canSeekToEnd := true)
  }

  function StepVideo(opts: Options, info: Info, s: Seen): Info {
    info.(video := StepVideoInfo(opts, info.video, info.lastTimestamp, s),
          keys := StepKeys(opts, info.keys, info.lastTimestamp, s),
          lastMedia := VIDEO,
          prevTagsSize := info.prevTagsSize + 4)
  }

  function StepAudioInfo(a: AudioInfo, time: uint32, s: Seen): AudioInfo {
    var a' := if s.Length() == 0 || s.tag.body == [] then a else
                var a'' := if a.present then a else a.(present := true, header := s.tag.body[0], first := time);
                a''.(frameDuration := if a''.frameDuration == 0 then Minus32(time, a''.first) else a''.frameDuration,
                     realDataSize := a''.realDataSize + s.Length() - 1);
    a'.(dataSize := a'.dataSize + s.Length() + 11)
  }

  function StepAudio(info: Info, s: Seen): Info {
    info.(audio := StepAudioInfo(info.audio, info.lastTimestamp, s),
          lastMedia := AUDIO,
          prevTagsSize := info.prevTagsSize + 4)
  }

  /** The effects that depend on the tag type. */
  function StepTyped(opts: Options, info: Info, s: Seen): Info {
    if s.Kind() == META then StepMeta(info, s)
    else if s.Kind() == VIDEO then StepVideo(opts, info, s)
    else StepAudio(info, s)
  }

  function Step(opts: Options, info: Info, s: Seen): Info {
    StepTyped(opts, StepCommon(opts, info, s), s)
  }

  /** The information gathered from a sequence of tags. */
  function Gather(opts: Options, seen: seq<Seen>): Info {
    if seen == [] then NO_INFO else Step(opts, Gather(opts, seen[..|seen| - 1]), seen[|seen| - 1])
  }

  // ----- acceptance -----

  predicate AcceptsVideo(opts: Options, v: VideoInfo, time: uint32, s: Seen) {
    s.Length() == 0 || (HasVideo(s) && FindsSize(opts, WithCodec(v, time, s), s))
  }

  predicate AcceptsScript(s: Seen) {
    s.Length() == 0 || s.script.BadName? || s.script.Script?
  }

  /** A tag the first pass gets over once its common effects are in. */
  predicate AcceptsTyped(opts: Options, info: Info, s: Seen) {
    if s.Kind() == META then AcceptsScript(s)
    else if s.Kind() == VIDEO then AcceptsVideo(opts, info.video, info.lastTimestamp, s)
    else s.Kind() == AUDIO && (s.Length() == 0 || s.tag.body != [])
  }

  /** A tag the first pass gets over, given what it has gathered before. */
  predicate Accepts(opts: Options, info: Info, s: Seen) {
    AcceptsTyped(opts, StepCommon(opts, info, s), s)
  }

  predicate AcceptsAll(opts: Options, seen: seq<Seen>) {
    forall i | 0 <= i < |seen| :: Accepts(opts, Gather(opts, seen[..i]), seen[i])
  }

  // ----- the tags that the first pass meets -----

  /** Where the first pass leaves a tag it gets over: behind the name and value of a script tag that has a body. */
  function Leaves(file: bytes, t: Tag): Spot {
    if t.header.kind == META && t.header.bodyLength > 0 then AfterMetadata(Input(file, true), Fresh(t)) else Fresh(t)
  }

  lemma LeavesAhead(file: bytes, t: Tag)
    ensures Onward(t, Leaves(file, t)) > t.offset
  {
    hide AfterMetadata;
    MetadataAhead(Input(file, true), t, Fresh(t));
  }

  /** The tags the first pass meets from a position on, each where it has been led by the one before. */
  function Met(file: bytes, offset: nat): seq<Tag>
    decreases if offset <= |file| then |file| - offset else 0, 0
  {
    if offset + 11 > |file| then [] else
      var t := TagAt(file, offset);
      LeavesAhead(file, t);
      [t] + MetBehind(file, Onward(t, Leaves(file, t)), Leaves(file, t).at.eof)
  }

  function MetBehind(file: bytes, offset: nat, eof: bool): seq<Tag>
    decreases if offset <= |file| then |file| - offset else 0, 1
  {
    if eof then [] else Met(file, offset)
  }

  /** The tags of the chain are met in step: behind each of them the one that follows is found, or rightly none. */
  ghost predicate ScriptsKeepStep(file: bytes) {
    forall t | t in Tags(file, FIRST_TAG) :: LeadsOn(file, t)
  }

  predicate LeadsOn(file: bytes, t: Tag) {
    var s := Leaves(file, t);
    (Finds(file, t, s) <==> t.End() + 11 <= |file|) && (Finds(file, t, s) ==> Onward(t, s) == t.End())
  }

  /** Script bodies that are read as they stand leave every tag in step. */
  lemma KeptInStep(file: bytes)
    requires forall t | t in Tags(file, FIRST_TAG) && t.header.kind == META && t.header.bodyLength > 0 ::
      KeepsStep(file, t.BodyStart(), t.header.bodyLength)
    ensures ScriptsKeepStep(file)
  {
    hide Tags, KeepsStep, AfterMetadata;
    forall t | t in Tags(file, FIRST_TAG) ensures LeadsOn(file, t) {
      if t.header.kind == META && t.header.bodyLength > 0 {
        MetadataStep(file, t);
        KeptIsRead(file, t.BodyStart(), t.header.bodyLength);
      }
    }
  }

  lemma KeptIsRead(file: bytes, pos: nat, length: nat)
    requires KeepsStep(file, pos, length)
    ensures ReadScript(file, pos, length).0.BadName? || ReadScript(file, pos, length).0.Script?
  {
    hide ReadScript;
  }

  /** The first pass meets the tags of the file exactly if each of them is left in step. */
  lemma MetIffInStep(file: bytes)
    ensures SeenFirst(file) == SeenIn(file) <==> ScriptsKeepStep(file)
  {
    hide Met, Tags, LeadsOn, ScriptOf;
    MetFrom(file, FIRST_TAG);
    if SeenFirst(file) == SeenIn(file) {
      SameTags(file, Met(file, FIRST_TAG), Tags(file, FIRST_TAG));
    }
  }

  lemma SameTags(file: bytes, a: seq<Tag>, b: seq<Tag>)
    requires See(file, a) == See(file, b)
    ensures a == b
  {
    hide ScriptOf, Times;
    assert |See(file, a)| == |a| && |See(file, b)| == |b|;
    forall i | 0 <= i < |a| ensures a[i] == b[i] {
      assert See(file, a)[i].tag == a[i] && See(file, b)[i].tag == b[i];
    }
  }

  lemma {:induction false} MetFrom(file: bytes, offset: nat)
    ensures Met(file, offset) == Tags(file, offset) <==> forall t | t in Tags(file, offset) :: LeadsOn(file, t)
    decreases if offset <= |file| then |file| - offset else 0
  {
    hide Leaves, Onward, TagAt;
    if offset + 11 <= |file| {
      var t := TagAt(file, offset);
      LeavesAhead(file, t);
      var rest := MetBehind(file, Onward(t, Leaves(file, t)), Leaves(file, t).at.eof);
      assert Met(file, offset) == [t] + rest && Tags(file, offset) == [t] + Tags(file, t.End());
      assert rest == Met(file, offset)[1..] && Tags(file, t.End()) == Tags(file, offset)[1..];
      FirstMet(file, Onward(t, Leaves(file, t)));
      FirstMet(file, t.End());
      if LeadsOn(file, t) {
        MetFrom(file, t.End());
      }
    }
  }

  lemma FirstMet(file: bytes, offset: nat)
    ensures offset + 11 > |file| ==> Met(file, offset) == Tags(file, offset) == []
    ensures offset + 11 <= |file| ==> Met(file, offset) != [] && Met(file, offset)[0].offset == offset
    ensures offset + 11 <= |file| ==> Tags(file, offset) != [] && Tags(file, offset)[0].offset == offset
  {
  }

  function SeenIn(file: bytes): seq<Seen> {
    See(file, Tags(file, FIRST_TAG))
  }

  function SeenFirst(file: bytes): seq<Seen> {
    See(file, Met(file, FIRST_TAG))
  }

  // ----- the pass itself -----

  datatype Status = Done | NoFlv | EarlyEnd | InvalidTag

  /** The tag the stream has just read the header of. */
  ghost function Current(stream: Stream, time: uint32): Seen
    requires stream.offset + 11 <= |stream.flvin.content|
    reads stream
  {
    var t := TagAt(stream.flvin.content, stream.offset);
    Seen(t, time, ScriptOf(stream.flvin.content, t))
  }

  ghost predicate AtHeader(stream: Stream)
    reads stream, stream.flvin
  {
    && stream.Synced() && stream.state == InBody && stream.overflow == 0
    && stream.left == stream.current.bodyLength
    && stream.flvin.At() == Cursor(stream.offset + 11, false)
    && stream.offset + 11 <= |stream.flvin.content|
    && stream.current == TagAt(stream.flvin.content, stream.offset).header
  }

  /** The stream is about to look for the tag behind t. */
  ghost predicate Past(stream: Stream, t: Tag)
    reads stream, stream.flvin
  {
    stream.Next() == Onward(t, Leaves(stream.flvin.content, t))
    && stream.flvin.eof == Leaves(stream.flvin.content, t).at.eof
  }

  method MetaTag(stream: Stream, info: ScriptInfo, ghost s: Seen) returns (r: Status, info': ScriptInfo, counted: bool)
    requires AtHeader(stream) && s == Current(stream, s.time) && s.Kind() == META
    modifies stream, stream.flvin
    ensures r != NoFlv && (r == Done <==> AcceptsScript(s))
    ensures r == Done ==> info' == StepScript(info, s) && counted == !IsOnMetadata(info, s)
    ensures r == Done ==> Past(stream, s.tag)
  {
    hide ReadScript, AfterMetadata, Matches;
    var length: nat, offset := stream.current.bodyLength, stream.offset;
    var script := BadName;
    if length > 0 {
      ghost var t := s.tag;
      assert stream.OnTag(t) && stream.Here() == Fresh(t);
      var read;
      read, script := stream.ReadMetadata();
      stream.NextIsOnward(t);
      if script.NameEof? || script.ValueEof? {
        return EarlyEnd, info, false;
      } else if script.NoValue? || script.BadValue? {
        return InvalidTag, info, false;
      }
    }
    r, info', counted := Done, info, true;
    if script.Script? && script.name.String? {
      var name := script.name.text;
      if info.onMetadataSize == 0 && Matches(name, ON_METADATA) {
        info' := info'.(onMetadataSize := length + 11 + 4, onMetadataOffset := offset);
        counted := false;
      } else {
        if Matches(name, ON_LAST_SECOND) {
          info' := info'.(haveOnLastSecond := true);
        }
        info' := info'.(dataSize := info'.dataSize + (length + 11));
      }
    } else {
      info' := info'.(dataSize := info'.dataSize + (length + 11));
    }
  }

  method AudioTag(stream: Stream, info: AudioInfo, time: uint32, ghost s: Seen) returns (r: Status, info': AudioInfo)
    requires AtHeader(stream) && s == Current(stream, s.time) && s.Kind() == AUDIO
    modifies stream, stream.flvin
    ensures r != NoFlv && (r == Done <==> s.Length() == 0 || s.tag.body != [])
    ensures r == Done ==> info' == StepAudioInfo(info, time, s) && !stream.flvin.eof
    ensures stream.Synced() && stream.Next() == old(stream.Next()) && stream.offset == old(stream.offset)
  {
    var length: nat := stream.current.bodyLength;
    info' := info;
    if length > 0 {
      var read, b := stream.ReadFirstByte();
      if read != Fine {
        return EarlyEnd, info;
      }
      if !info'.present {
        info' := info'.(present := true, header := b, first := time);
      }
      if info'.frameDuration == 0 {
        info' := info'.(frameDuration := Minus32(time, info'.first));
      }
      info' := info'.(realDataSize := info'.realDataSize + (length - 1));
    }
    info' := info'.(dataSize := info'.dataSize + (length + 11));
    r := Done;
  }

  /** Reads the video header; what is then unread of the body can be probed without moving the next tag. */
  method ReadHeaderOf(stream: Stream, ghost s: Seen) returns (ok: bool, b: byte, fourcc: bytes, unread: bytes)
    requires AtHeader(stream) && s == Current(stream, s.time) && s.Kind() == VIDEO && stream.left > 0
    modifies stream, stream.flvin
    ensures ok <==> HasVideo(s)
    ensures ok ==> b == s.tag.body[0] && fourcc == s.tag.body[1..VideoHeaderSize(b)] && !stream.flvin.eof
    ensures ok ==> unread == s.tag.body[VideoHeaderSize(b)..] && unread == stream.Unread() && |unread| <= stream.left
    ensures stream.Synced() && stream.Next() == old(stream.Next()) && unchanged(stream`offset, stream`current)
  {
    hide ReadScript, DecodeHeader;
    ghost var p, body := stream.flvin.pos, s.tag.body;
    assert At(stream.flvin.content, p, body);
    unread := [];
    var read;
    read, b, fourcc := stream.ReadVideoTag();
    ok := read == Fine;
    if ok {
      var n := VideoHeaderSize(b);
      AtSlice(stream.flvin.content, p, body, 1, n);
      AtSlice(stream.flvin.content, p, body, n, |body|);
      unread := stream.Unread();
    }
  }

  /** The first byte of a video body, and what the body tells about codec and frame size. */
  method VideoHeader(stream: Stream, opts: Options, info: VideoInfo, time: uint32, ghost s: Seen)
    returns (r: Status, b: byte, info': VideoInfo)
    requires AtHeader(stream) && s == Current(stream, s.time) && s.Kind() == VIDEO && stream.left > 0
    modifies stream, stream.flvin
    ensures r != NoFlv && (r == Done <==> HasVideo(s) && FindsSize(opts, WithCodec(info, time, s), s))
    ensures r == Done ==>
      b == s.tag.body[0] && info' == WithSize(opts, WithCodec(info, time, s), s)
      && !stream.flvin.eof
    ensures stream.Synced() && stream.Next() == old(stream.Next()) && stream.offset == old(stream.offset)
  {
    hide TagAt, ReadScript;
    var length: nat := stream.current.bodyLength;
    var ok, fourcc, unread;
    ok, b, fourcc, unread := ReadHeaderOf(stream, s);
    if !ok {
      return EarlyEnd, 0, info;
    }
    info' := info;
    if !info'.present {
      info' := info'.(present := true, codec := CodecOf(b, fourcc), first := time);
    }
    if !info'.sized && IsKeyframeByte(b) {
      var p := opts.probe(Frame(info'.codec, unread, (length - 8) % 0x1_0000_0000, info'.width, info'.height));
      if p.TooShort? {
        return EarlyEnd, b, info;
      }
      var _ := stream.ReadBody(if p.used <= |unread| then p.used else |unread|);
      info' := info'.(width := p.width, height := p.height, sized := p.width > 0 && p.height > 0);
    }
    r := Done;
  }

  method VideoTag(stream: Stream, opts: Options, video: VideoInfo, keys: KeyInfo, time: uint32, ghost s: Seen)
    returns (r: Status, video': VideoInfo, keys': KeyInfo)
    requires AtHeader(stream) && s == Current(stream, s.time) && s.Kind() == VIDEO
    modifies stream, stream.flvin
    ensures r != NoFlv && (r == Done <==> AcceptsVideo(opts, video, time, s))
    ensures r == Done ==> video' == StepVideoInfo(opts, video, time, s) && keys' == StepKeys(opts, keys, time, s)
    ensures r == Done ==> !stream.flvin.eof
    ensures stream.Synced() && stream.Next() == old(stream.Next()) && stream.offset == old(stream.offset)
  {
    hide TagAt, WithCodec, WithSize, FindsSize;
    var length: nat := stream.current.bodyLength;
    video', keys' := video, keys;
    if length > 0 {
      var b;
      r, b, video' := VideoHeader(stream, opts, video, time, s);
      if r != Done {
        return;
      }
      if IsKeyframeByte(b) {
        if !keys'.present || keys'.last != time || opts.allKeyframes {
          keys' := keys'.(present := true, last := time);
          keys' := keys'.(times := keys'.times + [time as real / 1000.0],
            positions := keys'.positions + [stream.offset]);
        }
        keys' := keys'.(canSeekToEnd := true);
      } else {
        keys' := keys'.(canSeekToEnd := false);
      }
    }
    video' := CountVideo(video', time, length);
    r := Done;
  }

  /** The part of the step that depends on the tag type. */
  method KnownTag(stream: Stream, opts: Options, info: Info, ghost s: Seen) returns (r: Status, info': Info)
    requires AtHeader(stream) && s == Current(stream, s.time)
    modifies stream, stream.flvin
    ensures r != NoFlv && (r == Done <==> AcceptsTyped(opts, info, s))
    ensures r == Done ==> info' == StepTyped(opts, info, s)
    ensures r == Done ==> Past(stream, s.tag)
  {
    hide TagAt, ReadScript, AcceptsVideo, AcceptsScript, StepScript, IsOnMetadata,
      StepVideoInfo, StepAudioInfo, StepKeys;
    info' := info;
    if stream.current.kind == META {
      var counted;
      var script;
      r, script, counted := MetaTag(stream, info.script, s);
      info' := info.(script := script, prevTagsSize := if counted then info.prevTagsSize + 4 else info.prevTagsSize);
    } else if stream.current.kind == VIDEO {
      var video, keys;
      r, video, keys := VideoTag(stream, opts, info.video, info.keys, info.lastTimestamp, s);
      info' := info.(video := video, keys := keys, lastMedia := VIDEO, prevTagsSize := info.prevTagsSize + 4);
    } else if stream.current.kind == AUDIO {
      var audio;
      r, audio := AudioTag(stream, info.audio, info.lastTimestamp, s);
      info' := info.(audio := audio, lastMedia := AUDIO, prevTagsSize := info.prevTagsSize + 4);
    } else {
      r := InvalidTag;
    }
  }

  /** get_flv_info with errors fatal. */
  method GetFlvInfo(stream: Stream, opts: Options) returns (r: Status, info: Info, header: bytes)
    requires stream.state == Start && stream.flvin.At() == Cursor(0, false) && stream.flvin.file
    modifies stream, stream.flvin
    ensures r == NoFlv <==> !(|stream.flvin.content| >= 9 && stream.flvin.content[..3] == [70, 76, 86])
    ensures r == Done ==> header == stream.flvin.content[..9]
    ensures r != NoFlv ==> (r == Done <==> AcceptsAll(opts, SeenFirst(stream.flvin.content)))
    ensures r == Done ==> info == Gather(opts, SeenFirst(stream.flvin.content))
  {
    var headerRead;
    headerRead, header := stream.ReadHeader();
    if headerRead != Fine {
      return NoFlv, NO_INFO, [];
    }
    r, info := ScanTags(stream, opts);
  }

  method ScanTags(stream: Stream, opts: Options) returns (r: Status, info: Info)
    requires stream.flvin.file && stream.Next() == FIRST_TAG && !stream.flvin.eof
    modifies stream, stream.flvin
    ensures r != NoFlv && (r == Done <==> AcceptsAll(opts, SeenFirst(stream.flvin.content)))
    ensures r == Done ==> info == Gather(opts, SeenFirst(stream.flvin.content))
  {
    hide TagAt, Met, MetBehind, Leaves, Onward, ReadScript, Accepts, Step, Gather, Following, AcceptsAll, SeenFirst;
    info := NO_INFO;
    ghost var file := stream.flvin.content;
    ghost var i := 0;
    var clocks := START;
    NothingSeen(opts, file);
    while true
      invariant stream.flvin.file
      invariant Following(opts, file, stream.Next(), stream.flvin.eof, i, clocks, info)
      decreases if stream.Next() <= |file| then |file| - stream.Next() + 1 else 0
    {
      ghost var next, eof := stream.Next(), stream.flvin.eof;
      var found := stream.ReadTag();
      if !found {
        AllSeen(opts, file, next, eof, i, clocks, info);
        break;
      }
      ghost var before, clocksBefore, t := info, clocks, TagAt(file, next);
      clocks := clocks.Advance(stream.current);
      r, info := OneTag(stream, opts, info, clocks.Time(stream.current));
      LeavesAhead(file, t);
      OneSeen(opts, file, next, i, clocksBefore, clocks, before);
      if r != Done {
        return;
      }
      i := i + 1;
    }
    r := Done;
  }

  /** One turn of the loop, behind the tag header. */
  method OneTag(stream: Stream, opts: Options, info: Info, time: uint32) returns (r: Status, info': Info)
    requires AtHeader(stream)
    modifies stream, stream.flvin
    ensures r == Done <==> Accepts(opts, info, old(Current(stream, time)))
    ensures r == Done ==> info' == Step(opts, info, old(Current(stream, time)))
    ensures r != NoFlv
    ensures r == Done ==> Past(stream, TagAt(stream.flvin.content, old(stream.offset)))
  {
    hide TagAt, ReadScript, StepTyped, StepCommon, Leaves;
    ghost var s := Current(stream, time);
    if !stream.current.Known() {
      // the totals are for tags of the known types only
      return InvalidTag, info;
    }
    info' := Common(opts, info, stream.current.kind, stream.current.bodyLength, time);
    assert info' == StepCommon(opts, info, s);
    hide AcceptsTyped;
    r, info' := KnownTag(stream, opts, info', s);
  }

  /** The updates common to all tag types. */
  method Common(opts: Options, info: Info, kind: byte, length: nat, time: uint32) returns (info': Info)
    ensures forall s: Seen | s.Kind() == kind && s.Length() == length && s.time == time ::
      info' == StepCommon(opts, info, s)
  {
    info' := info;
    if !info'.haveFirst && kind != META {
      info' := info'.(first := time, haveFirst := true);
    }
    if info'.biggestBody < length {
      info' := info'.(biggestBody := length);
    }
    info' := info'.(lastTimestamp := Shift(opts, info'.first, time));
  }

  /** The loop has seen the first i tags and stands before the rest. */
  ghost predicate Following(opts: Options, file: bytes, next: nat, eof: bool, i: nat, clocks: Clocks, info: Info) {
    var tags, seen := Met(file, FIRST_TAG), SeenFirst(file);
    && i <= |tags| && tags[i..] == MetBehind(file, next, eof)
    && clocks == After(START, tags[..i]) && info == Gather(opts, seen[..i])
    && forall j | 0 <= j < i :: Accepts(opts, Gather(opts, seen[..j]), seen[j])
  }

  lemma NothingSeen(opts: Options, file: bytes)
    ensures Following(opts, file, FIRST_TAG, false, 0, START, NO_INFO)
  {
    hide Met;
    assert Met(file, FIRST_TAG)[..0] == [] && SeenFirst(file)[..0] == [];
    assert Met(file, FIRST_TAG)[0..] == Met(file, FIRST_TAG);
  }

  lemma AllSeen(opts: Options, file: bytes, next: nat, eof: bool, i: nat, clocks: Clocks, info: Info)
    requires Following(opts, file, next, eof, i, clocks, info) && (eof || next + 11 > |file|)
    ensures AcceptsAll(opts, SeenFirst(file)) && info == Gather(opts, SeenFirst(file))
  {
    hide Accepts, Gather, Leaves;
    assert MetBehind(file, next, eof) == [];
    assert i == |SeenFirst(file)|;
    assert SeenFirst(file)[..i] == SeenFirst(file);
  }

  lemma OneSeen(opts: Options, file: bytes, next: nat, i: nat, before: Clocks, clocks: Clocks, info: Info)
    requires next + 11 <= |file| && clocks == before.Advance(TagAt(file, next).header)
    requires Following(opts, file, next, false, i, before, info)
    ensures var t := TagAt(file, next);
            var s, at := Seen(t, clocks.Time(t.header), ScriptOf(file, t)), Leaves(file, t);
            && (!Accepts(opts, info, s) ==> !AcceptsAll(opts, SeenFirst(file)))
            && (Accepts(opts, info, s) ==>
              Following(opts, file, Onward(t, at), at.at.eof, i + 1, clocks, Step(opts, info, s)))
  {
    hide *;
    var seen, t := SeenFirst(file), TagAt(file, next);
    var at := Leaves(file, t);
    UnfoldFollowing(opts, file, next, false, i, before, info);
    SeenNext(file, next, i, before, clocks);
    var s := seen[i];
    if Accepts(opts, info, s) {
      GatherNext(opts, seen, i);
      FoldFollowing(opts, file, Onward(t, at), at.at.eof, i + 1, clocks, Step(opts, info, s));
    } else {
      NotAccepted(opts, seen, i);
    }
  }

  lemma GatherNext(opts: Options, seen: seq<Seen>, i: nat)
    requires i < |seen|
    ensures Gather(opts, seen[..i + 1]) == Step(opts, Gather(opts, seen[..i]), seen[i])
  {
    hide Step;
    assert seen[..i + 1][..i] == seen[..i];
  }

  lemma NotAccepted(opts: Options, seen: seq<Seen>, i: nat)
    requires i < |seen| && !Accepts(opts, Gather(opts, seen[..i]), seen[i])
    ensures !AcceptsAll(opts, seen)
  {
    hide Accepts, Gather;
  }

  lemma UnfoldFollowing(opts: Options, file: bytes, next: nat, eof: bool, i: nat, clocks: Clocks, info: Info)
    requires Following(opts, file, next, eof, i, clocks, info)
    ensures var tags, seen := Met(file, FIRST_TAG), SeenFirst(file);
            && i <= |tags| && tags[i..] == MetBehind(file, next, eof)
            && clocks == After(START, tags[..i]) && info == Gather(opts, seen[..i])
            && forall j | 0 <= j < i :: Accepts(opts, Gather(opts, seen[..j]), seen[j])
  {
    hide Met, MetBehind, SeenFirst, After, Gather, Accepts;
  }

  lemma FoldFollowing(opts: Options, file: bytes, next: nat, eof: bool, i: nat, clocks: Clocks, info: Info)
    requires var tags, seen := Met(file, FIRST_TAG), SeenFirst(file);
             && i <= |tags| == |seen| && tags[i..] == MetBehind(file, next, eof)
             && clocks == After(START, tags[..i]) && info == Gather(opts, seen[..i])
             && forall j | 0 <= j < i :: Accepts(opts, Gather(opts, seen[..j]), seen[j])
    ensures Following(opts, file, next, eof, i, clocks, info)
  {
    hide Met, MetBehind, SeenFirst, After, Gather, Accepts;
  }

  lemma UnfoldMet(file: bytes, next: nat)
    requires next + 11 <= |file|
    ensures var t := TagAt(file, next); var at := Leaves(file, t);
            MetBehind(file, next, false) == [t] + MetBehind(file, Onward(t, at), at.at.eof)
  {
    hide TagAt, Leaves, Onward;
  }

  lemma SeenNext(file: bytes, next: nat, i: nat, before: Clocks, clocks: Clocks)
    requires next + 11 <= |file| && clocks == before.Advance(TagAt(file, next).header)
    requires i <= |Met(file, FIRST_TAG)| && Met(file, FIRST_TAG)[i..] == MetBehind(file, next, false)
    requires before == After(START, Met(file, FIRST_TAG)[..i])
    ensures var tags, t := Met(file, FIRST_TAG), TagAt(file, next); var at := Leaves(file, t);
            && i < |tags| == |SeenFirst(file)| && tags[i + 1..] == MetBehind(file, Onward(t, at), at.at.eof)
            && clocks == After(START, tags[..i + 1])
            && SeenFirst(file)[i] == Seen(t, clocks.Time(t.header), ScriptOf(file, t))
  {
    hide TagAt, Met, MetBehind, Leaves, Onward, ScriptOf;
    var tags, t := Met(file, FIRST_TAG), TagAt(file, next);
    UnfoldMet(file, next);
    assert tags[i] == tags[i..][0] && tags[i + 1..] == tags[i..][1..];
    assert tags[..i + 1][..i] == tags[..i];
  }
}
