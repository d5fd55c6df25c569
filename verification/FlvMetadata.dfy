/** The new onMetaData tree: the layout of the output, predicted and stored inside the tag that moves it. */
module FlvMetadata {
  import opened Bytes
  import opened Amf
  import opened AmfLaws
  import opened AmfIo
  import opened Flv
  import opened FlvInfo

  // ----- the tree -----

  /** amf_str of a literal. */
  function AmfName(s: string): (name: Name)
    ensures 0 < |s| < 0x1_0000 && s[0] as int % 256 != 0 ==> name != []
    ensures |name| <= |s|
  {
    var chars: Text := seq(|s| % 0x1_0000, i requires 0 <= i < |s| => s[i] as int % 256);
    CString(chars)
  }

  function Entry(name: string, value: Data): seq<Member> {
    [Member(AmfName(name), value)]
  }

  function Flag(b: bool): Data {
    Boolean(if b then 1 else 0)
  }

  function Real(opts: Options, x: real): Data {
    Number(opts.store(Finite(x)))
  }

  function Int(opts: Options, n: int): Data {
    Real(opts, n as real)
  }

  /** Division as the floating point unit does it. */
  function Quotient(x: real, y: real): FlvInfo.Number {
    if y != 0.0 then Finite(x / y) else if x > 0.0 then PlusInfinity else if x < 0.0 then MinusInfinity else NotANumber
  }

  function Ratio(opts: Options, x: real, y: real): Data {
    Number(opts.store(Quotient(x, y)))
  }

  function Duration(opts: Options, info: Info): real {
    var start: int := if opts.resetTimestamps then 0 else info.first;
    if info.lastMedia == AUDIO then (info.lastTimestamp as int - start + info.audio.frameDuration) as real / 1000.0
    else if info.lastMedia == VIDEO then (info.lastTimestamp as int - start + info.video.frameDuration) as real / 1000.0
    else 0.0
  }

  function SampleRate(b: byte): int {
    match b / 4 % 4
    case 0 => 5500
    case 1 => 11000
    case 2 => 22050
    case _ => 44100
  }

  function Signed32(n: uint32): int {
    if n < 0x8000_0000 then n else n - 0x1_0000_0000
  }

  /** What comes before the file size. */
  function Leading(opts: Options, info: Info): seq<Member> {
    var d := Duration(opts, info);
    opts.metadata + GeneralFields(opts, info, d) + VideoFields(opts, info, d)
    + (if info.audio.present then AudioFields(opts, info, d) else [])
  }

  function GeneralFields(opts: Options, info: Info, d: real): seq<Member> {
    Entry("hasMetadata", Flag(true))
    + Entry("hasVideo", Flag(info.video.present))
    + Entry("hasAudio", Flag(info.audio.present))
    + Entry("duration", Real(opts, d))
    + Entry("lasttimestamp", Real(opts, info.lastTimestamp as real / 1000.0))
    + Entry("lastkeyframetimestamp", Real(opts, info.keys.last as real / 1000.0))
  }

  function VideoFields(opts: Options, info: Info, d: real): seq<Member> {
    (if info.video.width > 0 then Entry("width", Int(opts, info.video.width)) else [])
    + (if info.video.height > 0 then Entry("height", Int(opts, info.video.height)) else [])
    + Entry("videodatarate", Ratio(opts, info.video.realDataSize as real / 1024.0 * 8.0, d))
    + Entry("framerate", Ratio(opts, info.video.frames as real, d))
  }

  function AudioFields(opts: Options, info: Info, d: real): seq<Member> {
    Entry("audiodatarate", Ratio(opts, info.audio.realDataSize as real / 1024.0 * 8.0, d))
    + Entry("audiosamplerate", Int(opts, SampleRate(info.audio.header)))
    + Entry("audiosamplesize", Int(opts, if info.audio.header / 2 % 2 == 0 then 8 else 16))
    + Entry("stereo", Flag(info.audio.header % 2 == 1))
  }

  /** What comes between the file size and the data size. */
  function Sizes(opts: Options, info: Info): seq<Member> {
    (if info.video.present then Entry("videosize", Int(opts, info.video.dataSize)) else [])
    + (if info.audio.present then Entry("audiosize", Int(opts, info.audio.dataSize)) else [])
  }

  /** What comes between the data size and the keyframe index. */
  function Trailing(opts: Options, info: Info): seq<Member> {
    Entry("metadatacreator", String(CString(opts.creator)))
    + Entry("metadatadate", Date(opts.store(opts.now), 0))
    + AfterDate(opts, info)
  }

  function AfterDate(opts: Options, info: Info): seq<Member> {
    CodecFields(opts, info)
    + Entry("canSeekToEnd", Flag(info.keys.canSeekToEnd))
    + Entry("hasCuePoints", Flag(false))
    + Entry("cuePoints", Array([]))
    + Entry("hasKeyframes", Flag(info.keys.present))
  }

  function CodecFields(opts: Options, info: Info): seq<Member> {
    (if info.audio.present then Entry("audiocodecid", Int(opts, info.audio.header as int / 16)) else [])
    + (if info.video.present then Entry("videocodecid", Int(opts, info.video.codec)) else [])
    + (if info.audio.present && info.video.present
       then Entry("audiodelay", Real(opts, (Signed32(info.audio.first) - Signed32(info.video.first)) as real / 1000.0))
         else [])
  }

  function Times(opts: Options, info: Info): seq<Data> {
    seq(|info.keys.times|, i requires 0 <= i < |info.keys.times| => Real(opts, info.keys.times[i]))
  }

  function Positions(opts: Options, positions: seq<int>): seq<Data> {
    seq(|positions|, i requires 0 <= i < |positions| => Int(opts, positions[i]))
  }

  function Keyframes(opts: Options, info: Info, positions: seq<int>): Data {
    Object(Entry("times", Array(Times(opts, info))) + Entry("filepositions", Array(Positions(opts, positions))))
  }

  /** The onMetaData value with the given index and totals in it. */
  function OnMetadata(opts: Options, info: Info, positions: seq<int>, fileSize: int, dataSize: int): Data {
    EcmaArray(
      Leading(opts, info)
      + Entry("filesize", Int(opts, fileSize))
      + Sizes(opts, info)
      + Entry("datasize", Int(opts, dataSize))
      + Trailing(opts, info)
      + Entry("keyframes", Keyframes(opts, info, positions)))
  }

  /** The same options at another time of day. */
  ghost predicate SameButClock(o: Options, o': Options) {
    o' == o.(now := o'.now)
  }

  /** The index, the totals and the date are numbers: whatever they are, the tree has the same size. */
  lemma SizeIgnoresLayout(o: Options, o': Options, info: Info, p: seq<int>, f: int, d: int, p': seq<int>, f': int,
      d': int)
    requires |p| == |p'| && SameButClock(o, o')
    ensures |Encode(OnMetadata(o, info, p, f, d))| == |Encode(OnMetadata(o', info, p', f', d'))|
  {
    hide *;
    SameLayout(o, o', info, p, f, d, p', f', d');
    SizeIgnoresNumbers(OnMetadata(o, info, p, f, d), OnMetadata(o', info, p', f', d'));
  }

  lemma SameLayout(o: Options, o': Options, info: Info, p: seq<int>, f: int, d: int, p': seq<int>, f': int, d': int)
    requires |p| == |p'| && SameButClock(o, o')
    ensures SameButNumbers(OnMetadata(o, info, p, f, d), OnMetadata(o', info, p', f', d'))
  {
    hide Leading, Sizes, Trailing, AmfName, Keyframes, SameMembers;
    var a, b, c, c' := Leading(o, info), Sizes(o, info), Trailing(o, info), Trailing(o', info);
    var f0, f1 := Entry("filesize", Int(o, f)), Entry("filesize", Int(o', f'));
    var d0, d1 := Entry("datasize", Int(o, d)), Entry("datasize", Int(o', d'));
    var k0, k1 := Entry("keyframes", Keyframes(o, info, p)), Entry("keyframes", Keyframes(o', info, p'));
    ClockOnlyDates(o, o', info);
    SameMembersAsItself(a);
    SameMembersAsItself(b);
    SameEntry("filesize", Int(o, f), Int(o', f'));
    SameEntry("datasize", Int(o, d), Int(o', d'));
    SameIndex(o, o', info, p, p');
    SameEntry("keyframes", Keyframes(o, info, p), Keyframes(o', info, p'));
    SameMembersJoin(a, a, f0, f1);
    SameMembersJoin(a + f0, a + f1, b, b);
    SameMembersJoin(a + f0 + b, a + f1 + b, d0, d1);
    SameMembersJoin(a + f0 + b + d0, a + f1 + b + d1, c, c');
    SameMembersJoin(a + f0 + b + d0 + c, a + f1 + b + d1 + c', k0, k1);
  }

  lemma ClockOnlyDates(o: Options, o': Options, info: Info)
    requires SameButClock(o, o')
    ensures Leading(o', info) == Leading(o, info) && Sizes(o', info) == Sizes(o, info)
    ensures SameMembers(Trailing(o, info), Trailing(o', info))
  {
    hide AmfName, SameMembers, SameButNumbers, CString, Leading, Sizes, AfterDate;
    UndatedParts(o, o', info);
    var creator := Entry("metadatacreator", String(CString(o.creator)));
    var date, date' := Entry("metadatadate", Date(o.store(o.now), 0)), Entry("metadatadate", Date(o.store(o'.now), 0));
    var rest := AfterDate(o, info);
    assert Trailing(o, info) == creator + date + rest && Trailing(o', info) == creator + date' + AfterDate(o', info);
    SameMembersAsItself(creator);
    SameMembersAsItself(rest);
    SameDate(o.store(o.now), o.store(o'.now));
    SameMembersJoin(creator, creator, date, date');
    SameMembersJoin(creator + date, creator + date', rest, rest);
  }

  lemma UndatedParts(o: Options, o': Options, info: Info)
    requires SameButClock(o, o')
    ensures Leading(o', info) == Leading(o, info) && Sizes(o', info) == Sizes(o, info) && AfterDate(o',
            info) == AfterDate(o, info)
  {
    hide Leading, AfterDate, Entry;
    SameLeading(o, o', info);
    SameAfterDate(o, o', info);
  }

  lemma SameLeading(o: Options, o': Options, info: Info)
    requires SameButClock(o, o')
    ensures Leading(o', info) == Leading(o, info)
  {
    hide AmfName, Entry, Duration, Quotient, AudioFields, GeneralFields, VideoFields;
    SameDuration(o, o', info);
    SameFields(o, o', info, Duration(o, info));
  }

  lemma SameDuration(o: Options, o': Options, info: Info)
    requires SameButClock(o, o')
    ensures Duration(o', info) == Duration(o, info)
  {
  }

  lemma SameFields(o: Options, o': Options, info: Info, d: real)
    requires SameButClock(o, o')
    ensures GeneralFields(o', info, d) == GeneralFields(o, info, d)
            && VideoFields(o', info, d) == VideoFields(o, info, d)
    ensures AudioFields(o', info, d) == AudioFields(o, info, d)
  {
    hide AmfName, Entry, Quotient, SampleRate;
  }

  lemma SameAfterDate(o: Options, o': Options, info: Info)
    requires SameButClock(o, o')
    ensures AfterDate(o', info) == AfterDate(o, info)
  {
    hide AmfName, Entry, Signed32;
  }

  lemma SameDate(a: Bits64, b: Bits64)
    ensures SameMembers(Entry("metadatadate", Date(a, 0)), Entry("metadatadate", Date(b, 0)))
  {
    SameEntry("metadatadate", Date(a, 0), Date(b, 0));
  }

  lemma SameEntry(name: string, d: Data, e: Data)
    requires SameButNumbers(d, e)
    ensures SameMembers(Entry(name, d), Entry(name, e))
  {
    hide SameButNumbers, AmfName;
  }

  lemma SameIndex(o: Options, o': Options, info: Info, p: seq<int>, p': seq<int>)
    requires |p| == |p'| && SameButClock(o, o')
    ensures SameButNumbers(Keyframes(o, info, p), Keyframes(o', info, p'))
  {
    hide AmfName;
    var times := Array(Times(o, info));
    assert Times(o', info) == Times(o, info);
    SameAsItself(times);
    SameEntry("times", times, times);
    assert SameElements(Positions(o, p), Positions(o', p'));
    SameEntry("filepositions", Array(Positions(o, p)), Array(Positions(o', p')));
    SameMembersJoin(Entry("times", times), Entry("times", times),
                    Entry("filepositions", Array(Positions(o, p))), Entry("filepositions", Array(Positions(o', p'))));
  }

  // ----- the layout -----

  const ON_METADATA_NAME := String(ON_METADATA)
  const ON_LAST_SECOND_NAME := String(ON_LAST_SECOND)
  const ON_LAST_SECOND_VALUE := EcmaArray([])

  /** The bodies of the two injected tags. */
  function OnMetadataBody(value: Data): bytes {
    Encode(ON_METADATA_NAME) + Encode(value)
  }

  function OnLastSecondBody(): bytes {
    Encode(ON_LAST_SECOND_NAME) + Encode(ON_LAST_SECOND_VALUE)
  }

  lemma OnLastSecondSize()
    ensures |OnLastSecondBody()| == 23
  {
    assert EncodeMembers([]) == [];
  }

  /** The body size of the onMetaData tag, which its own contents do not change. */
  function BodySize(opts: Options, info: Info): nat {
    |OnMetadataBody(OnMetadata(opts, info, info.keys.positions, 0, 0))|
  }

  lemma BodySizeIsFinal(o: Options, o': Options, info: Info, positions: seq<int>, fileSize: int, dataSize: int)
    requires |positions| == |info.keys.positions| && SameButClock(o, o')
    ensures |OnMetadataBody(OnMetadata(o, info, positions, fileSize, dataSize))| == BodySize(o', info)
  {
    hide OnMetadata;
    SizeIgnoresLayout(o, o', info, positions, fileSize, dataSize, info.keys.positions, 0, 0);
  }

  predicate InsertsLastSecond(opts: Options, info: Info) {
    opts.insertOnLastSecond && !info.script.haveOnLastSecond
  }

  /** The index assumes the onLastSecond tag (38 bytes) in front of every keyframe of the last second. */
  function IndexShift(opts: Options, info: Info, time: real): int {
    if InsertsLastSecond(opts, info) && info.lastTimestamp as real - time * 1000.0 <= 1000.0 then 38 else 0
  }

  /** The tag sizes are kept in 32 bits. */
  function NewTagSize(opts: Options, info: Info): int {
    (15 + BodySize(opts, info) % 0x1_0000_0000) % 0x1_0000_0000
  }

  function PredictedPosition(opts: Options, info: Info, i: nat): int
    requires i < |info.keys.positions| == |info.keys.times|
  {
    info.keys.positions[i] + NewTagSize(opts, info) - info.script.onMetadataSize
      + IndexShift(opts, info, info.keys.times[i])
  }

  function PredictedPositions(opts: Options, info: Info): seq<int>
    requires |info.keys.positions| == |info.keys.times|
  {
    seq(|info.keys.positions|, i requires 0 <= i < |info.keys.positions| => PredictedPosition(opts, info, i))
  }

  function PredictedDataSize(opts: Options, info: Info): int {
    info.script.dataSize + 11 + BodySize(opts, info) % 0x1_0000_0000 + if InsertsLastSecond(opts, info) then 34 else 0
  }

  function PredictedFileSize(opts: Options, info: Info): int {
    9 + info.prevTagsSize + info.video.dataSize + info.audio.dataSize + info.script.dataSize + NewTagSize(opts, info)
    + if InsertsLastSecond(opts, info) then 38 else 0
  }

  /** The tree as it is written: with the predicted index and totals inside. */
  function FinalMetadata(opts: Options, info: Info): Data
    requires |info.keys.positions| == |info.keys.times|
  {
    OnMetadata(opts, info, PredictedPositions(opts, info), PredictedFileSize(opts, info), PredictedDataSize(opts, info))
  }

  /** The two body sizes, as compute_metadata takes them: name and value, cut to 32 bits. */
  method Measure(name: Data, value: Data) returns (size: nat)
    ensures size == |Encode(name) + Encode(value)| % 0x1_0000_0000
  {
    var nameSize := Size(name);
    var valueSize := Size(value);
    size := (nameSize + valueSize) % 0x1_0000_0000;
  }

  /** The loop of compute_metadata over the keyframe index. */
  method ShiftPositions(opts: Options, info: Info, newSize: nat, lastSize: nat) returns (positions: seq<int>)
    requires |info.keys.positions| == |info.keys.times| && newSize == NewTagSize(opts, info) && lastSize == 23
    ensures positions == PredictedPositions(opts, info)
  {
    hide NewTagSize;
    positions := info.keys.positions;
    for i := 0 to |positions|
      invariant |positions| == |info.keys.positions|
      invariant forall j | 0 <= j < i :: positions[j] == PredictedPosition(opts, info, j)
      invariant forall j | i <= j < |positions| :: positions[j] == info.keys.positions[j]
    {
      var offset := positions[i] + newSize - info.script.onMetadataSize;
      var time := info.keys.times[i];
      if opts.insertOnLastSecond && !info.script.haveOnLastSecond
        && info.lastTimestamp as real - time * 1000.0 <= 1000.0 {
        offset := offset + (11 + lastSize + 4);
      }
      positions := positions[i := offset];
    }
  }

  /** compute_metadata. */
  method ComputeMetadata(opts: Options, info: Info) returns (onMetadata: Data)
    requires |info.keys.positions| == |info.keys.times|
    ensures onMetadata == FinalMetadata(opts, info)
  {
    hide *;
    OnLastSecondSize();
    // sizes are taken while the numbers still hold their first values
    var bodySize := Measure(ON_METADATA_NAME, OnMetadata(opts, info, info.keys.positions, 0, 0));
    UnfoldBodySize(opts, info);
    var lastSize := Measure(ON_LAST_SECOND_NAME, ON_LAST_SECOND_VALUE);
    UnfoldOnLastSecond();
    UnfoldPredictions(opts, info);
    var newSize := (11 + 4 + bodySize) % 0x1_0000_0000;
    var positions := ShiftPositions(opts, info, newSize, lastSize);

    var dataSize := info.script.dataSize + 11 + bodySize;
    if !info.script.haveOnLastSecond && opts.insertOnLastSecond {
      dataSize := dataSize + lastSize + 11;
    }
    var fileSize := 9 + info.prevTagsSize + info.video.dataSize + info.audio.dataSize + info.script.dataSize + newSize;
    if !info.script.haveOnLastSecond && opts.insertOnLastSecond {
      fileSize := fileSize + (11 + lastSize + 4);
    }
    onMetadata := OnMetadata(opts, info, positions, fileSize, dataSize);
  }

  lemma UnfoldBodySize(opts: Options, info: Info)
    ensures BodySize(opts, info)
            == |Encode(ON_METADATA_NAME) + Encode(OnMetadata(opts, info, info.keys.positions, 0, 0))|
  {
    hide OnMetadata;
  }

  lemma UnfoldOnLastSecond()
    ensures OnLastSecondBody() == Encode(ON_LAST_SECOND_NAME) + Encode(ON_LAST_SECOND_VALUE)
  {
  }

  lemma UnfoldPredictions(opts: Options, info: Info)
    requires |info.keys.positions| == |info.keys.times|
    ensures var body := BodySize(opts, info) % 0x1_0000_0000;
            var inserts := !info.script.haveOnLastSecond && opts.insertOnLastSecond;
            && NewTagSize(opts, info) == (11 + 4 + body) % 0x1_0000_0000
            && PredictedDataSize(opts, info) == info.script.dataSize + 11 + body + (if inserts then 23 + 11 else 0)
            && PredictedFileSize(opts, info) == 9 + info.prevTagsSize + info.video.dataSize + info.audio.dataSize
                + info.script.dataSize + NewTagSize(opts, info) + (if inserts then 11 + 23 + 4 else 0)
            && FinalMetadata(opts, info) == OnMetadata(opts, info, PredictedPositions(opts, info),
                 PredictedFileSize(opts, info), PredictedDataSize(opts, info))
  {
    hide BodySize, OnMetadata, PredictedPositions;
  }
}
