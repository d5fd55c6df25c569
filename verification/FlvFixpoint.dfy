/** Updating a second time: the output, read again, gives what is stored in it, and the same output. */
module FlvFixpoint {
  import opened Bytes
  import opened Amf
  import opened Flv
  import opened FlvClock
  import opened FlvStream
  import opened FlvInfo
  import opened FlvMetadata
  import opened FlvUpdate
  import opened FlvLayout
  import opened FlvTheorems
  import opened FlvRescan

  // ----- the second scan follows the first -----

  ghost predicate MirrorsKeys(p: Plan, i: KeyInfo, j: KeyInfo) {
    && j.present == i.present && j.last == i.last && j.canSeekToEnd == i.canSeekToEnd && j.times == i.times
    && |j.positions| == |i.positions| == |i.times|
    && forall n | 0 <= n < |i.times| :: j.positions[n] == i.positions[n] + MovedBy(p, i.times[n])
  }

  function MovedBy(p: Plan, time: real): int {
    NewSize(p) - p.info.script.onMetadataSize + IndexShift(p.opts, p.info, time)
  }

  ghost predicate MirrorsScript(p: Plan, i: ScriptInfo, j: ScriptInfo, inserted: bool) {
    && j.dataSize == i.dataSize + (if inserted then 34 else 0)
    && j.haveOnLastSecond == (i.haveOnLastSecond || inserted)
    && j.onMetadataSize == NewSize(p) && j.onMetadataOffset == 13
  }

  /**
   * What the second scan has gathered, against what the first one has; `inserted`: the onLastSecond tag has been
   * passed.
   */
  ghost predicate Mirrors(p: Plan, i: Info, j: Info, inserted: bool) {
    && j.video == i.video && j.audio == i.audio && j.lastMedia == i.lastMedia
    && MirrorsKeys(p, i.keys, j.keys) && MirrorsScript(p, i.script, j.script, inserted)
    && j.haveFirst == i.haveFirst && j.first == Shift(p.opts, i.first, i.first)
    && j.prevTagsSize == i.prevTagsSize + (if inserted then 4 else 0)
  }

  /** What the second scan sees of the copy of input tag k. */
  ghost predicate CopySeen(p: Plan, k: nat, s: Seen)
    requires k < |p.seen|
  {
    && s.Kind() == p.seen[k].Kind() && s.Length() == p.seen[k].Length() && s.tag.body == p.seen[k].tag.body
    && s.time == p.Time(k) && s.tag.offset == p.seen[k].tag.offset + MovedBy(p, p.Time(k) as real / 1000.0)
    && (s.Kind() == META ==> s.script == p.seen[k].script)
  }

  lemma SameVideo(o: Options, o': Options, v: VideoInfo, time: uint32, s: Seen, s': Seen)
    requires SameButClock(o, o') && s'.Length() == s.Length() && s'.tag.body == s.tag.body
    ensures StepVideoInfo(o', v, time, s') == StepVideoInfo(o, v, time, s)
    ensures AcceptsVideo(o', v, time, s') == AcceptsVideo(o, v, time, s)
  {
    hide CodecOf, IsKeyframeByte, VideoHeaderSize;
  }

  lemma SameKeys(p: Plan, o': Options, i: KeyInfo, j: KeyInfo, k: nat, s': Seen)
    requires k < |p.seen| && SameButClock(p.opts, o') && MirrorsKeys(p, i, j) && CopySeen(p, k, s')
    ensures MirrorsKeys(p, StepKeys(p.opts, i, p.Time(k), p.seen[k]), StepKeys(o', j, p.Time(k), s'))
  {
    hide IsKeyframeByte, VideoHeaderSize, MovedBy, Shift;
  }

  lemma SameScript(p: Plan, i: ScriptInfo, j: ScriptInfo, inserted: bool, k: nat, s': Seen)
    requires k < |p.seen| && MirrorsScript(p, i, j, inserted) && CopySeen(p, k, s') && p.seen[k].Kind() == META
    requires !IsOnMetadata(i, p.seen[k])
    ensures !IsOnMetadata(j, s') && MirrorsScript(p, StepScript(i, p.seen[k]), StepScript(j, s'), inserted)
  {
    hide Matches, MovedBy, Encode;
    assert j.onMetadataSize != 0;
  }

  /** The first media timestamp is final from the first media tag on. */
  lemma FirstIsFinal(p: Plan, k: nat)
    requires p.info == Gather(p.opts, p.seen) && k < |p.seen| && p.seen[k].Kind() != META
    ensures StepCommon(p.opts, Gather(p.opts, p.seen[..k]), p.seen[k]).first == p.info.first
  {
    hide StepTyped;
    var i := Gather(p.opts, p.seen[..k]);
    GatherNext(p.opts, p.seen, k);
    KeepsFirst(p.opts, StepCommon(p.opts, i, p.seen[k]), p.seen[k]);
    FirstKept(p.opts, p.seen, k + 1);
  }

  lemma KeepsFirst(opts: Options, i: Info, s: Seen)
    ensures var j := StepTyped(opts, i, s); j.haveFirst == i.haveFirst && j.first == i.first
    ensures var j := StepTyped(opts, i, s); j.lastTimestamp == i.lastTimestamp
  {
    hide StepScript, StepVideoInfo, StepKeys, StepAudioInfo, IsOnMetadata;
  }

  /** Times that have been shifted once are shifted no further. */
  lemma ShiftTwice(opts: Options, first: uint32, time: uint32)
    ensures Shift(opts, Shift(opts, first, first), time)
            == (if opts.resetTimestamps then time else Shift(opts, first, time))
    ensures Shift(opts, Shift(opts, first, first), Shift(opts, first, time)) == Shift(opts, first, time)
  {
  }

  /** The effects every tag has, in both scans. */
  lemma SameCommon(p: Plan, o': Options, i: Info, j: Info, inserted: bool, k: nat, s': Seen)
    requires k < |p.seen| && SameButClock(p.opts, o') && Mirrors(p, i, j, inserted) && CopySeen(p, k, s')
    requires p.seen[k].Kind() != META ==> StepCommon(p.opts, i, p.seen[k]).first == p.info.first
    ensures var i', j' := StepCommon(p.opts, i, p.seen[k]), StepCommon(o', j, s');
            && Mirrors(p, i', j', inserted)
            && (p.seen[k].Kind() != META ==> i'.lastTimestamp == j'.lastTimestamp == p.Time(k))
  {
    hide MirrorsKeys, MirrorsScript, Shift, MovedBy;
    var s := p.seen[k];
    ShiftIsSame(p.opts, o', j, s');
    if s.Kind() != META {
      ShiftTwice(p.opts, p.info.first, s.time);
      ShiftTwice(p.opts, i.first, s.time);
      if !i.haveFirst {
        assert p.info.first == s.time;
      }
    }
  }

  lemma ShiftIsSame(o: Options, o': Options, j: Info, s: Seen)
    requires SameButClock(o, o')
    ensures StepCommon(o', j, s) == StepCommon(o, j, s)
  {
  }

  lemma SameTyped(p: Plan, o': Options, i: Info, j: Info, inserted: bool, k: nat, s': Seen)
    requires k < |p.seen| && SameButClock(p.opts, o') && Mirrors(p, i, j, inserted) && CopySeen(p, k, s')
    requires p.seen[k].Kind() != META ==> i.lastTimestamp == j.lastTimestamp == p.Time(k)
    requires p.seen[k].Kind() == META ==> !IsOnMetadata(i.script, p.seen[k])
    ensures Mirrors(p, StepTyped(p.opts, i, p.seen[k]), StepTyped(o', j, s'), inserted)
    ensures AcceptsTyped(p.opts, i, p.seen[k]) ==> AcceptsTyped(o', j, s')
  {
    hide MirrorsKeys, MirrorsScript, Shift, MovedBy, StepVideoInfo, StepKeys, StepScript, IsOnMetadata, AcceptsVideo;
    var s := p.seen[k];
    if s.Kind() == META {
      SameScript(p, i.script, j.script, inserted, k, s');
    } else if s.Kind() == VIDEO {
      SameVideo(p.opts, o', i.video, p.Time(k), s, s');
      SameKeys(p, o', i.keys, j.keys, k, s');
    }
  }

  lemma SameStep(p: Plan, o': Options, j: Info, inserted: bool, k: nat, s': Seen)
    requires Ready(p) && k < |p.seen| && !p.Replaced(k) && SameButClock(p.opts, o')
    requires Mirrors(p, Gather(p.opts, p.seen[..k]), j, inserted) && CopySeen(p, k, s')
    ensures Mirrors(p, Gather(p.opts, p.seen[..k + 1]), Step(o', j, s'), inserted)
    ensures Accepts(p.opts, Gather(p.opts, p.seen[..k]), p.seen[k]) ==> Accepts(o', j, s')
  {
    hide Mirrors, Gather, CopySeen, StepTyped, StepCommon, AcceptsTyped, BodySize, Encode, IsOnMetadata, IsReplaced,
      Contiguous, InsertsLastSecond;
    var i, s := Gather(p.opts, p.seen[..k]), p.seen[k];
    GatherNext(p.opts, p.seen, k);
    if s.Kind() != META {
      FirstIsFinal(p, k);
    }
    SameCommon(p, o', i, j, inserted, k, s');
    ReplacedIffFound(p, k);
    CommonKeepsScript(p.opts, i, s);
    SameTyped(p, o', StepCommon(p.opts, i, s), StepCommon(o', j, s'), inserted, k, s');
  }

  lemma CommonKeepsScript(opts: Options, i: Info, s: Seen)
    ensures StepCommon(opts, i, s).script == i.script
  {
  }

  // ----- the injected tags in the second scan -----

  /** What the second scan sees of the onMetaData tag, which it meets first. */
  ghost predicate MetadataSeen(p: Plan, s: Seen) {
    s.Kind() == META && s.Length() == NewSize(p) - 15 && s.tag.offset == 13 && Named(s, ON_METADATA)
  }

  ghost predicate LastSecondSeen(s: Seen) {
    s.Kind() == META && s.Length() == 23 && Named(s, ON_LAST_SECOND)
  }

  lemma MetadataStep(p: Plan, o': Options, s: Seen)
    requires MetadataSeen(p, s)
    ensures Mirrors(p, NO_INFO, Step(o', NO_INFO, s), false) && Accepts(o', NO_INFO, s)
  {
    hide Matches, Encode;
  }

  lemma LastSecondStep(p: Plan, o': Options, i: Info, j: Info, s: Seen)
    requires Mirrors(p, i, j, false) && LastSecondSeen(s)
    ensures Mirrors(p, i, Step(o', j, s), true) && Accepts(o', j, s)
  {
    hide Matches, Encode, MirrorsKeys, Shift;
  }

  /** The first scan, on the old onMetaData tag. */
  lemma ReplacedStep(p: Plan, j: Info, s: Seen)
    requires Mirrors(p, NO_INFO, j, false) && s.Kind() == META && IsOnMetadata(NO_INFO.script, s)
    ensures Mirrors(p, Step(p.opts, NO_INFO, s), j, false)
  {
    hide Named, Encode, MirrorsKeys;
  }

  // ----- a plan that can be repeated -----

  /** Some tag besides the onMetaData tag. */
  predicate HasOther(p: Plan) {
    p.seen != [] && !p.Replaced(|p.seen| - 1)
  }

  ghost predicate Repeatable(p: Plan) {
    && Ready(p) && MetadataLeads(p) && TimesNeverFall(p) && HasOther(p)
    && AllCanonical(p.seen) && Readable(p.opts) && p.onMetadata == FinalMetadata(p.opts, p.info)
  }

  lemma OutputIsSeen(p: Plan, header: bytes)
    requires Repeatable(p) && |header| == 9
    ensures Representable(p.All()) && Sorted(p.All())
    ensures var ts := p.All(); var file := FileBytes(header, ts); var seen := SeenIn(file);
            && |seen| == |ts|
            && forall i | 0 <= i < |ts| ::
              seen[i] == Seen(Placed(ts)[i], ts[i].timestamp, ScriptOf(file, Placed(ts)[i]))
  {
    hide *;
    RepeatableIsReady(p);
    SortedUpto(p, |p.seen|);
    BodiesFit(p, |p.seen|);
    AllIsUpto(p);
    WrittenIsSeen(header, p.All());
  }

  lemma RepeatableIsReady(p: Plan)
    requires Repeatable(p)
    ensures Ready(p) && MetadataLeads(p) && TimesNeverFall(p)
  {
    hide Ready, MetadataLeads, TimesNeverFall;
  }

  /** What the second scan sees of output tag i. */
  ghost predicate TagSeen(header: bytes, ts: seq<OutTag>, i: nat, s: Seen)
    requires i < |ts|
  {
    && s.Kind() == ts[i].kind && s.Length() == |ts[i].body| && s.tag.body == ts[i].body
    && s.time == ts[i].timestamp && s.tag.offset == Offset(ts, i) && s.tag.header.streamId == ts[i].streamId
    && s.script == ScriptOf(FileBytes(header, ts), Placed(ts)[i])
  }

  lemma OutputTagIsSeen(p: Plan, header: bytes, i: nat)
    requires Repeatable(p) && |header| == 9 && i < |p.All()|
    ensures i < |SeenIn(FileBytes(header, p.All()))|
            && TagSeen(header, p.All(), i, SeenIn(FileBytes(header, p.All()))[i])
  {
    hide Repeatable, SeenIn, FileBytes, Offset, ScriptOf;
    OutputIsSeen(p, header);
    assert p.All()[i] in p.All();
  }

  lemma CopyIsSeen(p: Plan, header: bytes, k: nat)
    requires Repeatable(p) && |header| == 9 && k < |p.seen| && !p.Replaced(k)
    ensures OutIndex(p, k) < |SeenIn(FileBytes(header, p.All()))|
    ensures CopySeen(p, k, SeenIn(FileBytes(header, p.All()))[OutIndex(p, k)])
  {
    hide *;
    RepeatableIsReady(p);
    CopyPlace(p, k);
    OutputTagIsSeen(p, header, OutIndex(p, k));
    NothingMisplaced(p, k);
    MovedAt(p, k);
    CopyIsWhole(p, k);
    CopyScript(p, header, k);
    SeenAsCopy(p, header, k, SeenIn(FileBytes(header, p.All()))[OutIndex(p, k)]);
  }

  lemma SeenAsCopy(p: Plan, header: bytes, k: nat, s: Seen)
    requires k < |p.seen| && OutIndex(p, k) < |p.All()| && p.All()[OutIndex(p, k)] == p.Copy(k)
    requires TagSeen(header, p.All(), OutIndex(p, k), s) && |p.seen[k].tag.body| == p.seen[k].Length()
    requires Offset(p.All(), OutIndex(p, k)) == p.seen[k].tag.offset + Moved(p, k + 1)
    requires Moved(p, k + 1)
            == NewSize(p) - p.info.script.onMetadataSize + IndexShift(p.opts, p.info, p.Time(k) as real / 1000.0)
    requires p.seen[k].Kind() == META ==>
      ScriptOf(FileBytes(header, p.All()), Placed(p.All())[OutIndex(p, k)]) == p.seen[k].script
    ensures CopySeen(p, k, s)
  {
    hide Offset, OutIndex, Moved, IndexShift, NewSize, Shift, FileBytes, Placed, ScriptOf, Plan.All;
  }

  /** A canonical script tag reads the same in the output. */
  lemma CopyScript(p: Plan, header: bytes, k: nat)
    requires Repeatable(p) && |header| == 9 && k < |p.seen| && !p.Replaced(k)
    requires OutIndex(p, k) < |p.All()| && p.All()[OutIndex(p, k)] == p.Copy(k)
            && |p.seen[k].tag.body| == p.seen[k].Length()
    ensures p.seen[k].Kind() == META ==>
      ScriptOf(FileBytes(header, p.All()), Placed(p.All())[OutIndex(p, k)]) == p.seen[k].script
    ensures p.seen[k].Kind() == META && p.seen[k].Length() > 0 ==>
      KeepsStep(FileBytes(header, p.All()), Placed(p.All())[OutIndex(p, k)].BodyStart(), p.seen[k].Length())
  {
    hide Ready, MetadataLeads, TimesNeverFall, HasOther, Offset, OutIndex, Shift, FileBytes, Holds, ReadScript,
      KeepsStep, Plan.All, FinalMetadata;
    var s := p.seen[k];
    OutputRepresentable(p, header);
    assert Canonical(s);
    if s.Kind() == META && s.Length() > 0 {
      ScriptOfPlaced(header, p.All(), OutIndex(p, k), s.script.name, s.script.value);
    }
  }

  lemma OutputRepresentable(p: Plan, header: bytes)
    requires Repeatable(p) && |header| == 9
    ensures Representable(p.All())
  {
    hide *;
    OutputIsSeen(p, header);
  }

  lemma CopyIsWhole(p: Plan, k: nat)
    requires Ready(p) && k < |p.seen| && !p.Replaced(k)
    ensures |p.seen[k].tag.body| == p.seen[k].Length()
  {
    hide Gather, BodySize;
  }

  lemma MetadataIsSeen(p: Plan, header: bytes)
    requires Repeatable(p) && |header| == 9
    ensures SeenIn(FileBytes(header, p.All())) != []
    ensures MetadataSeen(p, SeenIn(FileBytes(header, p.All()))[0])
    ensures KeepsStep(FileBytes(header, p.All()), Placed(p.All())[0].BodyStart(), NewSize(p) - 15)
  {
    hide *;
    RepeatableIsReady(p);
    MetadataFirst(p);
    OutputTagIsSeen(p, header, 0);
    OutputRepresentable(p, header);
    StoredHolds(p);
    MetadataTagIs(p);
    ScriptOfPlaced(header, p.All(), 0, ON_METADATA_NAME, p.onMetadata);
    SeenAsMetadata(p, header, SeenIn(FileBytes(header, p.All()))[0]);
  }

  lemma MetadataTagIs(p: Plan)
    ensures p.MetadataTag().kind == META && p.MetadataTag().body == OnMetadataBody(p.onMetadata)
    ensures |p.MetadataTag().body| == NewSize(p) - 15
  {
    hide OnMetadataBody;
  }

  lemma SeenAsMetadata(p: Plan, header: bytes, s: Seen)
    requires p.All() != [] && p.All()[0] == p.MetadataTag() && TagSeen(header, p.All(), 0, s)
    requires ScriptOf(FileBytes(header, p.All()), Placed(p.All())[0]) == Script(ON_METADATA_NAME, p.onMetadata)
    ensures MetadataSeen(p, s)
  {
    hide FileBytes, ScriptOf, Placed, Plan.All, AllBytes, OnMetadataBody;
    NoBytes();
    assert p.All()[..0] == [];
  }

  lemma StoredHolds(p: Plan)
    requires Repeatable(p)
    ensures Holds(OnMetadataBody(p.onMetadata), ON_METADATA_NAME, p.onMetadata)
  {
    hide Gather, Contiguous, TimesNeverFall, MetadataLeads, HasOther, AllCanonical, BodySize, OnMetadata, Holds, Encode;
    MetadataHolds(p.opts, p.info, PredictedPositions(p.opts, p.info), PredictedFileSize(p.opts, p.info),
      PredictedDataSize(p.opts, p.info));
  }

  lemma MetadataFirst(p: Plan)
    requires Ready(p) && MetadataLeads(p)
    ensures p.All() != [] && p.All()[0] == p.MetadataTag()
    ensures p.info.script.onMetadataSize != 0 ==> p.Upto(1) == [p.MetadataTag()]
    ensures p.info.script.onMetadataSize == 0 ==> p.Upto(0) == [p.MetadataTag()]
  {
    hide Gather, BodySize, Encode, Shift, Holds, OnMetadata;
    if p.info.script.onMetadataSize == 0 {
      UptoPrefix(p, 0, |p.seen|);
    } else {
      UptoStep(p, 0);
      UptoPrefix(p, 1, |p.seen|);
    }
  }

  lemma LastSecondIsSeen(p: Plan, header: bytes, k: nat)
    requires Repeatable(p) && |header| == 9 && k < |p.seen| && p.InsertsAt(k)
    ensures |p.Upto(k)| < |SeenIn(FileBytes(header, p.All()))|
    ensures LastSecondSeen(SeenIn(FileBytes(header, p.All()))[|p.Upto(k)|])
    ensures |p.Upto(k)| < |p.All()| && p.All()[|p.Upto(k)|] == p.LastSecondTag(k)
    ensures KeepsStep(FileBytes(header, p.All()), Placed(p.All())[|p.Upto(k)|].BodyStart(), 23)
  {
    hide *;
    RepeatableIsReady(p);
    InsertedPlace(p, k);
    OutputTagIsSeen(p, header, |p.Upto(k)|);
    OutputRepresentable(p, header);
    LastSecondHolds();
    LastSecondTagIs(p, k);
    ScriptOfPlaced(header, p.All(), |p.Upto(k)|, ON_LAST_SECOND_NAME, ON_LAST_SECOND_VALUE);
    SeenAsLastSecond(p, header, |p.Upto(k)|, SeenIn(FileBytes(header, p.All()))[|p.Upto(k)|]);
  }

  lemma LastSecondTagIs(p: Plan, k: nat)
    requires k < |p.seen|
    ensures p.LastSecondTag(k).kind == META && p.LastSecondTag(k).body == OnLastSecondBody()
            && |OnLastSecondBody()| == 23
  {
    hide Encode;
    OnLastSecondSize();
  }

  lemma SeenAsLastSecond(p: Plan, header: bytes, m: nat, s: Seen)
    requires m < |p.All()| && p.All()[m].kind == META && |p.All()[m].body| == 23 && TagSeen(header, p.All(), m, s)
    requires ScriptOf(FileBytes(header, p.All()), Placed(p.All())[m])
            == Script(ON_LAST_SECOND_NAME, ON_LAST_SECOND_VALUE)
    ensures LastSecondSeen(s)
  {
    hide FileBytes, ScriptOf, Placed, Plan.All, Offset;
  }

  // ----- the whole second scan -----

  /** The part of the output that stems from the first n input tags holds the onMetaData tag. */
  predicate PastMetadata(p: Plan, n: nat) {
    p.info.script.onMetadataSize == 0 || n > 0
  }

  ghost predicate AcceptsUpto(opts: Options, seen: seq<Seen>, m: nat)
    requires m <= |seen|
  {
    forall i | 0 <= i < m :: Accepts(opts, Gather(opts, seen[..i]), seen[i])
  }

  lemma AcceptsNext(opts: Options, seen: seq<Seen>, m: nat)
    requires m < |seen| && AcceptsUpto(opts, seen, m) && Accepts(opts, Gather(opts, seen[..m]), seen[m])
    ensures AcceptsUpto(opts, seen, m + 1)
  {
    hide Accepts, Gather;
  }

  lemma FollowsStart(p: Plan, o': Options, header: bytes)
    requires Repeatable(p) && |header| == 9 && SameButClock(p.opts, o')
    ensures var seen := SeenIn(FileBytes(header, p.All()));
            |seen| >= 1 && Mirrors(p, NO_INFO, Gather(o', seen[..1]), false) && AcceptsUpto(o', seen, 1)
  {
    hide Repeatable, SeenIn, FileBytes, Step, Accepts, Mirrors, MetadataSeen, KeepsStep;
    MetadataIsSeen(p, header);
    var seen := SeenIn(FileBytes(header, p.All()));
    MetadataStep(p, o', seen[0]);
    assert seen[..1][..0] == [] == seen[..0];
  }

  lemma ReplacedFollows(p: Plan, j: Info)
    requires Repeatable(p) && p.info.script.onMetadataSize != 0 && Mirrors(p, NO_INFO, j, false)
    ensures p.seen != [] && Mirrors(p, Gather(p.opts, p.seen[..1]), j, false) && !p.InsertedBefore(1)
  {
    hide Mirrors, Step, BodySize, OnMetadata, Encode, Holds, IsOnMetadata, Contiguous;
    ReplacedIffFound(p, 0);
    GatherNext(p.opts, p.seen, 0);
    assert p.seen[..0] == [];
    ReplacedStep(p, j, p.seen[0]);
  }

  /** The second scan, after what stems from the first n input tags. */
  lemma {:induction false} Follows(p: Plan, o': Options, header: bytes, n: nat)
    requires Repeatable(p) && |header| == 9 && SameButClock(p.opts, o') && AcceptsAll(p.opts, p.seen)
    requires n <= |p.seen| && PastMetadata(p, n)
    ensures var seen, m := SeenIn(FileBytes(header, p.All())), |p.Upto(n)|;
            && m <= |seen| && AcceptsUpto(o', seen, m)
            && Mirrors(p, Gather(p.opts, p.seen[..n]), Gather(o', seen[..m]), p.InsertedBefore(n))
    decreases n
  {
    hide *;
    if PastMetadata(p, n) && n > 0 && PastMetadata(p, n - 1) {
      Follows(p, o', header, n - 1);
      FollowsOne(p, o', header, n - 1);
    } else {
      FollowsStart(p, o', header);
      StartsAt(p, n);
      if p.info.script.onMetadataSize != 0 {
        ReplacedFollows(p, Gather(o', SeenIn(FileBytes(header, p.All()))[..1]));
      }
    }
  }

  lemma StartsAt(p: Plan, n: nat)
    requires Repeatable(p) && n <= |p.seen| && PastMetadata(p, n) && !(n > 0 && PastMetadata(p, n - 1))
    ensures |p.Upto(n)| == 1 && n == (if p.info.script.onMetadataSize == 0 then 0 else 1)
    ensures n == 0 ==> Gather(p.opts, p.seen[..n]) == NO_INFO && !p.InsertedBefore(n)
  {
    hide Repeatable, Ready, MetadataLeads, TimesNeverFall, Step, Plan.Becomes, Plan.MetadataTag, Plan.Late;
    RepeatableIsReady(p);
    MetadataFirst(p);
  }

  lemma FollowsOne(p: Plan, o': Options, header: bytes, k: nat)
    requires Repeatable(p) && |header| == 9 && SameButClock(p.opts, o') && AcceptsAll(p.opts, p.seen)
    requires k < |p.seen| && PastMetadata(p, k)
    requires var seen, m := SeenIn(FileBytes(header, p.All())), |p.Upto(k)|;
             && m <= |seen| && AcceptsUpto(o', seen, m)
             && Mirrors(p, Gather(p.opts, p.seen[..k]), Gather(o', seen[..m]), p.InsertedBefore(k))
    ensures var seen, m := SeenIn(FileBytes(header, p.All())), |p.Upto(k + 1)|;
            && m <= |seen| && AcceptsUpto(o', seen, m)
            && Mirrors(p, Gather(p.opts, p.seen[..k + 1]), Gather(o', seen[..m]), p.InsertedBefore(k + 1))
  {
    hide *;
    var seen, m := SeenIn(FileBytes(header, p.All())), |p.Upto(k)|;
    RepeatableIsReady(p);
    FlagsNext(p, k);
    OnlyFirstReplaced(p, k);
    UptoNext(p, k);
    UnfoldOutIndex(p, k);
    IsAccepted(p, k);
    CopyIsSeen(p, header, k);
    if p.InsertsAt(k) {
      LastSecondIsSeen(p, header, k);
      LastSecondStep(p, o', Gather(p.opts, p.seen[..k]), Gather(o', seen[..m]), seen[m]);
      GatherNext(o', seen, m);
      AcceptsNext(o', seen, m);
    }
    var c := OutIndex(p, k);
    SameStep(p, o', Gather(o', seen[..c]), p.InsertedBefore(k + 1), k, seen[c]);
    GatherNext(o', seen, c);
    AcceptsNext(o', seen, c);
  }

  lemma OnlyFirstReplaced(p: Plan, k: nat)
    requires Repeatable(p) && k < |p.seen| && PastMetadata(p, k)
    ensures !p.Replaced(k)
  {
    hide Ready, TimesNeverFall, Shift, OnMetadata, Holds, IsReplaced;
    ReplacedTag(p, k);
    if k > 0 && p.info.script.onMetadataSize != 0 {
      assert p.Replaced(0);
    }
  }

  lemma IsAccepted(p: Plan, k: nat)
    requires AcceptsAll(p.opts, p.seen) && k < |p.seen|
    ensures Accepts(p.opts, Gather(p.opts, p.seen[..k]), p.seen[k])
  {
    hide Accepts, Gather;
  }
}
