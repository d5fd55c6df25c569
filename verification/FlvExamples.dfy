/** Files on which the stored layout is not that of the output. */
module FlvExamples {
  import opened Bytes
  import opened Amf
  import opened Flv
  import opened FlvClock
  import opened FlvStream
  import opened FlvInfo
  import opened FlvMetadata
  import opened FlvUpdate
  import opened FlvLayout
  import opened FlvTheorems
  import opened FlvRescan
  import opened FlvUpdater
  import opened FlvPlayer

  /** An old onMetaData tag with nothing in it, which takes 36 bytes. */
  const OLD_TAG := OutTag(META, 0, 0, OnMetadataBody(EcmaArray([])))
  /** A keyframe of one byte, of a codec whose frame size is not looked for, and an empty audio frame. */
  const KEYFRAME := OutTag(VIDEO, 0, 0, [17])
  const SOUND := OutTag(AUDIO, 0, 0, [0])

  /** Any options that leave room for the index of a few tags and know of no frame size for codec 1. */
  ghost predicate Usual(opts: Options) {
    && |EncodeMembers(opts.metadata)| + |opts.creator| < 0xFF_0000
    && forall f: Frame | f.codec == 1 :: opts.probe(f) == Sized(f.width, f.height, 0)
  }

  predicate FlvHeader(header: bytes) {
    |header| == 9 && header[..3] == [70, 76, 86]
  }

  lemma OldBody()
    ensures |OLD_TAG.body| == 21 && Holds(OLD_TAG.body, ON_METADATA_NAME, EcmaArray([]))
  {
    assert EncodeMembers([]) == [];
  }

  /** What the first pass makes of the old tag at any place. */
  predicate IsOldTag(s: Seen) {
    && s.Kind() == META && s.Length() == 21 && s.tag.Complete()
    && s.script == Script(ON_METADATA_NAME, EcmaArray([])) && s.time == 0
  }

  lemma OldTagIsSeen(header: bytes, ts: seq<OutTag>, k: nat)
    requires |header| == 9 && Representable(ts) && Sorted(ts) && k < |ts| && ts[k] == OLD_TAG
    ensures k < |SeenIn(FileBytes(header, ts))| && IsOldTag(SeenIn(FileBytes(header, ts))[k])
  {
    hide SeenIn, FileBytes, ScriptOf, Offset, Holds, OnMetadataBody;
    OldBody();
    WrittenIsSeen(header, ts);
    ScriptOfPlaced(header, ts, k, ON_METADATA_NAME, EcmaArray([]));
  }

  lemma OldTagIsNamed(s: Seen)
    requires IsOldTag(s)
    ensures Named(s, ON_METADATA) && AcceptsScript(s)
  {
    hide Seen.Length;
    assert 0 !in ON_METADATA;
  }

  lemma GatherOf(opts: Options, seen: seq<Seen>)
    requires seen != []
    ensures Gather(opts, []) == NO_INFO
    ensures Gather(opts, seen) == Step(opts, Gather(opts, seen[..|seen| - 1]), seen[|seen| - 1])
  {
    hide Step;
  }

  // ----- a file whose only tag is replaced -----

  lemma LoneTagScript(opts: Options, seen: seq<Seen>)
    requires |seen| == 1 && IsOldTag(seen[0])
    ensures Gather(opts, seen).script == ScriptInfo(0, 36, seen[0].tag.offset, false)
    ensures AcceptsAll(opts, seen)
  {
    hide Step, StepCommon, Named, AcceptsScript;
    assert seen[..0] == [];
    GatherOf(opts, seen);
    OldTagIsNamed(seen[0]);
    ScriptOfStep(opts, NO_INFO, seen[0]);
  }

  /**
   * With onMetaData as the only tag, every update that is to insert an onLastSecond tag counts that tag in the stored
   * sizes and does not write it.
   */
  lemma LoneMetadataIsMiscounted(opts: Options, header: bytes)
    requires Usual(opts) && FlvHeader(header) && opts.insertOnLastSecond
    ensures var file := FileBytes(header, [OLD_TAG]); var p := PlanFor(opts, SeenIn(file));
            && |file| == 49 && Updatable(opts, file) && Ready(p)
            && PredictedFileSize(opts, p.info) == |Output(opts, file)| + 38
            && PredictedDataSize(opts, p.info) == DataBytes(p.All()) + 34
  {
    hide SeenIn, FileBytes, Gather, Named, BodySize, Encode, AllBytes, OnMetadataBody, EncodeMembers, FinalMetadata,
      AcceptsAll, DataBytes, IsOldTag, PredictedFileSize, PredictedDataSize;
    var ts := [OLD_TAG];
    var file := FileBytes(header, ts);
    OldBody();
    OldTagIsSeen(header, ts, 0);
    WrittenIsSeen(header, ts);
    FileOfOne(header, OLD_TAG);
    var p := PlanFor(opts, SeenIn(file));
    LoneTagScript(opts, p.seen);
    UnfoldOldTag(p.seen[0]);
    FewKeys(opts, p.seen);
    IndexIsKeyTags(opts, p.seen);
    MetadataIsSmall(opts, p.info);
    HeaderOfFile(header, ts);
    assert file[..3] == file[..9][..3];
    PlanIsReady(opts, file);
    FileSizeIsExact(p, header);
    DataSizeIsExact(p);
  }

  lemma UnfoldOldTag(s: Seen)
    requires IsOldTag(s)
    ensures s.tag.Complete() && s.Length() == 21 && s.Kind() == META && s.time == 0
  {
  }

  lemma FileOfOne(header: bytes, t: OutTag)
    requires |header| == 9
    ensures |FileBytes(header, [t])| == 28 + |t.body|
  {
    hide TagBytes;
    BytesOfFew(t, t);
  }

  // ----- a keyframe in front of the replaced tag -----

  lemma {:induction false} MembersTakeSpace(ms: seq<Member>)
    ensures |EncodeMembers(ms)| >= 3 * |ms|
  {
    hide Encode;
    if ms != [] {
      MembersTakeSpace(ms[1..]);
    }
  }

  /** New metadata is never as small as the old tag of these examples. */
  lemma NewTagIsBigger(opts: Options, info: Info, positions: seq<int>, fileSize: int, dataSize: int)
    ensures |OnMetadataBody(OnMetadata(opts, info, positions, fileSize, dataSize))| > 21
  {
    hide AmfName, Entry, Duration, Quotient, VideoFields, AudioFields, Sizes, Trailing, Keyframes;
    var d := OnMetadata(opts, info, positions, fileSize, dataSize);
    var general := GeneralFields(opts, info, Duration(opts, info));
    SmallGeneral(opts, info, Duration(opts, info));
    MembersTakeSpace(d.members);
    assert |d.members| >= |general|;
  }

  /** What the first pass makes of the three tags. */
  predicate IsExample(seen: seq<Seen>) {
    && |seen| == 3 && IsOldTag(seen[1])
    && seen[0].Kind() == VIDEO && seen[0].tag.body == [17] && seen[0].Length() == 1 && seen[0].time == 0
    && seen[2].Kind() == AUDIO && seen[2].tag.body == [0] && seen[2].Length() == 1 && seen[2].time == 0
  }

  lemma ExampleIsSeen(header: bytes)
    requires |header| == 9
    ensures IsExample(SeenIn(FileBytes(header, [KEYFRAME, OLD_TAG, SOUND])))
  {
    hide SeenIn, FileBytes, ScriptOf, Offset, Holds, OnMetadataBody, IsOldTag;
    OldBody();
    WrittenIsSeen(header, [KEYFRAME, OLD_TAG, SOUND]);
    OldTagIsSeen(header, [KEYFRAME, OLD_TAG, SOUND], 1);
  }

  lemma ExampleScript(opts: Options, seen: seq<Seen>)
    requires IsExample(seen)
    ensures Gather(opts, seen).script == ScriptInfo(0, 36, seen[1].tag.offset, false)
  {
    hide Step, StepCommon, Named, AcceptsScript;
    GatherOf(opts, seen);
    GatherOf(opts, seen[..2]);
    GatherOf(opts, seen[..2][..1]);
    assert seen[..2][..1][..0] == [];
    OldTagIsNamed(seen[1]);
    ScriptOfStep(opts, NO_INFO, seen[0]);
    ScriptOfStep(opts, Gather(opts, seen[..1]), seen[1]);
    ScriptOfStep(opts, Gather(opts, seen[..2]), seen[2]);
    assert seen[..2][..1] == seen[..1];
  }

  lemma ExampleAccepted(opts: Options, seen: seq<Seen>)
    requires Usual(opts) && IsExample(seen)
    ensures AcceptsAll(opts, seen)
  {
    hide Step, Named, AcceptsScript;
    assert seen[..0] == [];
    OldTagIsNamed(seen[1]);
    assert Accepts(opts, NO_INFO, seen[0]);
  }

  lemma ExampleTimes(p: Plan)
    requires IsExample(p.seen)
    ensures TimesNeverFall(p)
  {
  }

  /** The first keyframe is the first entry of the index. */
  lemma ExampleKey(opts: Options, seen: seq<Seen>)
    requires IsExample(seen)
    ensures 0 < |KeyTags(opts, seen)| <= 3 && KeyTags(opts, seen)[0] == 0
  {
    hide Gather, KeyTags, Shift;
    EveryKeyframeIsIndexed(opts, seen, 0);
    FewKeys(opts, seen);
    IndexIsKeyTags(opts, seen);
  }

  /**
   * With a keyframe in front of an old onMetaData tag with nothing in it, whatever the options, the position stored for
   * that keyframe is not its offset in the output.
   */
  lemma KeyframeIsMisplaced(opts: Options, header: bytes)
    requires Usual(opts) && FlvHeader(header)
    ensures var file := FileBytes(header, [KEYFRAME, OLD_TAG, SOUND]); var p := PlanFor(opts, SeenIn(file));
            && |file| == 81 && Updatable(opts, file) && Ready(p)
            && p.info.keys.positions != [] && OutIndex(p, 0) < |p.All()| && p.All()[OutIndex(p, 0)] == p.Copy(0)
            && PredictedPosition(opts, p.info, 0) != Offset(p.All(), OutIndex(p, 0))
  {
    hide SeenIn, FileBytes, Gather, Named, BodySize, Encode, AllBytes, OnMetadataBody, EncodeMembers, AcceptsAll,
      PredictedPosition, IsOldTag, TimesNeverFall, OutIndex, Plan.All, Plan.Copy, KeyTags, OnMetadata;
    var ts := [KEYFRAME, OLD_TAG, SOUND];
    var file := FileBytes(header, ts);
    OldBody();
    ExampleIsSeen(header);
    FileOfThree(header, KEYFRAME, OLD_TAG, SOUND);
    var p := PlanFor(opts, SeenIn(file));
    UnfoldOldTag(p.seen[1]);
    ExampleScript(opts, p.seen);
    ExampleAccepted(opts, p.seen);
    ExampleKey(opts, p.seen);
    ExampleTimes(p);
    IndexIsKeyTags(opts, p.seen);
    MetadataIsSmall(opts, p.info);
    HeaderOfFile(header, ts);
    assert file[..3] == file[..9][..3];
    PlanIsReady(opts, file);
    EarlyKeyframeIsMisplaced(p, 0, 1);
    NewTagIsBigger(opts, p.info, PredictedPositions(opts, p.info), PredictedFileSize(opts, p.info),
      PredictedDataSize(opts, p.info));
  }

  lemma FileOfThree(header: bytes, s: OutTag, t: OutTag, u: OutTag)
    requires |header| == 9
    ensures |FileBytes(header, [s, t, u])| == 58 + |s.body| + |t.body| + |u.body|
  {
    hide TagBytes;
    BytesOfFew(s, t);
    BytesOfFew(u, u);
    BytesAppend([s, t], [u]);
    assert [s, t] + [u] == [s, t, u];
  }

  // ----- a keyframe that is later than the last tag -----

  const EARLY_SOUND := SOUND.(timestamp := 1)
  const LATE_KEYFRAME := KEYFRAME.(timestamp := 20001)
  const LAST_SOUND := SOUND.(timestamp := 10001)

  /** What the first pass makes of these tags: the times of either type rise, so they are taken as they are. */
  predicate IsFalling(seen: seq<Seen>) {
    && |seen| == 3
    && seen[0].Kind() == AUDIO && seen[0].tag.body == [0] && seen[0].Length() == 1 && seen[0].time == 1
    && seen[1].Kind() == VIDEO && seen[1].tag.body == [17] && seen[1].Length() == 1 && seen[1].time == 20001
    && seen[2].Kind() == AUDIO && seen[2].tag.body == [0] && seen[2].Length() == 1 && seen[2].time == 10001
  }

  lemma FallingTimes(tags: seq<Tag>)
    requires |tags| == 3 && tags[0].header == EARLY_SOUND.Header() && tags[1].header == LATE_KEYFRAME.Header()
    requires tags[2].header == LAST_SOUND.Header()
    ensures FlvClock.Times(tags) == [1, 20001, 10001]
  {
    assert tags[..1][..0] == [] && tags[..2][..1] == tags[..1] && tags[..3][..2] == tags[..2];
    assert After(START, tags[..0]) == START;
    assert After(START, tags[..1]) == START.Advance(tags[0].header);
    assert After(START, tags[..2]) == START.Advance(tags[0].header).Advance(tags[1].header);
  }

  lemma FallingIsSeen(header: bytes)
    requires |header| == 9
    ensures IsFalling(SeenIn(FileBytes(header, [EARLY_SOUND, LATE_KEYFRAME, LAST_SOUND])))
  {
    hide FileBytes, ScriptOf, Offset, FlvClock.Times, Tags;
    var ts := [EARLY_SOUND, LATE_KEYFRAME, LAST_SOUND];
    WrittenIsRead(header, ts);
    FallingTimes(Placed(ts));
  }

  lemma FallingScript(opts: Options, seen: seq<Seen>)
    requires IsFalling(seen)
    ensures Gather(opts, seen).script == ScriptInfo(0, 0, 0, false)
    ensures Gather(opts, seen).first == 1
  {
    hide Step, Gather;
    GatherOf(opts, seen);
    GatherOf(opts, seen[..2]);
    GatherOf(opts, seen[..1]);
    assert seen[..1][..0] == [] && seen[..2][..1] == seen[..1] && seen[..3] == seen;
    FallingStart(opts, seen[0]);
    var a, b := Gather(opts, seen[..1]), Gather(opts, seen[..2]);
    ScriptOfStep(opts, a, seen[1]);
    FirstOfStep(opts, a, seen[1]);
    ScriptOfStep(opts, b, seen[2]);
    FirstOfStep(opts, b, seen[2]);
  }

  lemma FallingStart(opts: Options, s: Seen)
    requires s.Kind() == AUDIO && s.time == 1
    ensures var i := Step(opts, NO_INFO, s);
            i.haveFirst && i.first == 1 && i.script == NO_INFO.script && !i.video.present
  {
    hide StepAudioInfo, Shift;
  }

  lemma FallingAccepted(opts: Options, seen: seq<Seen>)
    requires Usual(opts) && IsFalling(seen)
    ensures AcceptsAll(opts, seen)
  {
    hide StepVideo, StepAudioInfo, Named, Shift;
    assert seen[..1][..0] == [];
    GatherOf(opts, seen[..1]);
    FallingStart(opts, seen[0]);
  }

  /** The position stored for input tag k, which is index entry i, is too big by that much. */
  ghost predicate StoredBeyond(p: Plan, i: nat, k: nat, excess: int) {
    && i < |p.info.keys.positions| == |p.info.keys.times| && k < |p.seen| && OutIndex(p, k) < |p.All()|
    && p.All()[OutIndex(p, k)] == p.Copy(k)
    && PredictedPosition(p.opts, p.info, i) == Offset(p.All(), OutIndex(p, k)) + excess
  }

  /**
   * A keyframe that is later than the last tag: its stored position counts the inserted onLastSecond tag, which is
   * written behind it.
   */
  lemma LateKeyframeIsMisplaced(opts: Options, header: bytes)
    requires Usual(opts) && FlvHeader(header) && opts.insertOnLastSecond
    ensures var file := FileBytes(header, [EARLY_SOUND, LATE_KEYFRAME, LAST_SOUND]);
            var p := PlanFor(opts, SeenIn(file));
            |file| == 61 && Updatable(opts, file) && Ready(p) && StoredBeyond(p, 0, 1, 38)
  {
    hide SeenIn, FileBytes, Gather, Named, BodySize, Encode, AllBytes, OnMetadataBody, EncodeMembers, AcceptsAll,
      PredictedPosition, OutIndex, Plan.All, Plan.Copy, KeyTags, OnMetadata;
    var ts := [EARLY_SOUND, LATE_KEYFRAME, LAST_SOUND];
    var file := FileBytes(header, ts);
    FallingIsSeen(header);
    FileOfThree(header, EARLY_SOUND, LATE_KEYFRAME, LAST_SOUND);
    var p := PlanFor(opts, SeenIn(file));
    FallingScript(opts, p.seen);
    FallingAccepted(opts, p.seen);
    FallingKey(opts, p.seen);
    IndexIsKeyTags(opts, p.seen);
    MetadataIsSmall(opts, p.info);
    HeaderOfFile(header, ts);
    assert file[..3] == file[..9][..3];
    PlanIsReady(opts, file);
    IndexError(p, 0);
    FallingShift(p);
  }

  lemma FallingKey(opts: Options, seen: seq<Seen>)
    requires IsFalling(seen)
    ensures KeyTags(opts, seen) == [1]
  {
    hide Gather, StepCommon, Shift;
    EveryKeyframeIsIndexed(opts, seen, 1);
    assert seen[..2][..1] == seen[..1] && seen[..1][..0] == [];
    assert KeyTags(opts, seen[..1]) == [];
    assert KeyTags(opts, seen) == KeyTags(opts, seen[..2]);
  }

  /** The keyframe is not late, and nothing is inserted in front of it, but it gets the shift for the inserted tag. */
  lemma FallingShift(p: Plan)
    requires IsFalling(p.seen) && p.info == Gather(p.opts, p.seen) && p.opts.insertOnLastSecond
    ensures Misplaced(p, 1) == 38
  {
    hide Gather, NewSize;
    FallingScript(p.opts, p.seen);
    LastTime(p);
  }
}
