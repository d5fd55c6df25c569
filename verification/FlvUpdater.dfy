/** The update as one operation, and what a second update does. */
module FlvUpdater {
  import opened Bytes
  import opened Amf
  import opened AmfIo
  import opened Flv
  import opened FlvClock
  import opened FlvStream
  import opened FlvInfo
  import opened FlvMetadata
  import opened FlvUpdate
  import opened FlvLayout
  import opened FlvTheorems
  import opened FlvRescan
  import opened FlvFixpoint

  // ----- the operation -----

  function PlanFor(opts: Options, seen: seq<Seen>): (p: Plan)
    ensures p.opts == opts && p.seen == seen && p.info == Gather(opts, seen)
    ensures |p.info.keys.positions| == |p.info.keys.times| && p.onMetadata == FinalMetadata(opts, p.info)
  {
    IndexIsKeyTags(opts, seen);
    var info := Gather(opts, seen);
    Plan(opts, info, FinalMetadata(opts, info), seen)
  }

  /** The file an update writes. */
  function Output(opts: Options, file: bytes): bytes
    requires |file| >= 9
  {
    FileBytes(file[..9], PlanFor(opts, SeenIn(file)).All())
  }

  predicate IsFlv(file: bytes) {
    |file| >= 9 && file[..3] == [70, 76, 86]
  }

  /** The files an update accepts, if script bodies leave the stream in step. */
  predicate Updatable(opts: Options, file: bytes) {
    IsFlv(file) && AcceptsAll(opts, SeenIn(file)) && PlanFor(opts, SeenIn(file)).Copyable()
  }

  /** What the second pass goes by: the tags of the file, and the information of the tags the first pass has met. */
  function PlanOf(opts: Options, file: bytes): (p: Plan)
    ensures p.opts == opts && p.seen == SeenIn(file) && p.info == Gather(opts, SeenFirst(file))
  {
    PlanFor(opts, SeenFirst(file)).(seen := SeenIn(file))
  }

  /** update_metadata: the first pass, the layout, the second pass. */
  method Update(file: bytes, opts: Options) returns (r: Status, written: bytes)
    ensures r == Done <==> IsFlv(file) && AcceptsAll(opts, SeenFirst(file)) && PlanOf(opts, file).Writable()
    ensures r == NoFlv <==> !IsFlv(file)
    ensures r == Done ==> written == PlanOf(opts, file).BytesUpto(file[..9], |SeenIn(file)|)
    ensures ScriptsKeepStep(file) ==> (r == Done <==> Updatable(opts, file))
    ensures ScriptsKeepStep(file) && r == Done ==> written == Output(opts, file)
  {
    hide SeenIn, SeenFirst, Gather, AcceptsAll, ScriptsKeepStep, Plan.Copyable, Plan.Writable, Plan.BytesUpto, Plan.All,
      FileBytes, FinalMetadata;
    written := [];
    if |file| >= 9 {
      WritesOutput(opts, file);
    }
    var stream := new Stream(file);
    var info, header;
    r, info, header := GetFlvInfo(stream, opts);
    if r != Done {
      return;
    }
    assert PlanOf(opts, file).info == info;
    var onMetadata := ComputeMetadata(opts, info);
    var out := new Sink(Unlimited);
    r := WriteFlv(stream, out, opts, info, header, onMetadata);
    written := out.out;
  }

  /** If every tag is left in step, both passes see the same tags, and every tag is copied whole. */
  lemma WritesOutput(opts: Options, file: bytes)
    requires |file| >= 9
    ensures ScriptsKeepStep(file) ==>
      && SeenFirst(file) == SeenIn(file) && PlanOf(opts, file) == PlanFor(opts, SeenIn(file))
      && (PlanOf(opts, file).Writable() <==> PlanFor(opts, SeenIn(file)).Copyable())
      && (PlanOf(opts, file).Writable() ==>
        PlanOf(opts, file).BytesUpto(file[..9], |SeenIn(file)|) == Output(opts, file))
  {
    hide SeenIn, SeenFirst, Gather, ScriptsKeepStep, Plan.BytesUpto, FileBytes, FinalMetadata, Plan.Takes, Plan.Upto;
    MetIffInStep(file);
    if ScriptsKeepStep(file) {
      var p := PlanFor(opts, SeenIn(file));
      forall k | 0 <= k < |p.seen|
        ensures p.seen[k].Length() <= p.info.biggestBody && |p.seen[k].tag.body| <= p.seen[k].Length()
      {
        BiggestBody(opts, p.seen, k);
        BodyIsShort(file, k);
      }
      WritableIfCopyable(p);
      if p.Writable() {
        WritesTags(p, file[..9], |p.seen|);
      }
    }
  }

  lemma BodyIsShort(file: bytes, k: nat)
    requires k < |SeenIn(file)|
    ensures |SeenIn(file)[k].tag.body| <= SeenIn(file)[k].Length()
  {
    hide Tags, ScriptOf, TagAt;
    TagOfFile(file, FIRST_TAG, k);
  }

  /**
   * The last step of an update in place: the temporary file is copied over the input in blocks until its end is hit.
   * All bytes are copied, but the result is an error exactly if they fill the last block: then the end is only hit by
   * a read that brings nothing.
   */
  method CopyBack(file: bytes) returns (ok: bool, copied: bytes)
    ensures copied == file && (ok <==> |file| % 4096 != 0)
  {
    copied, ok := [], true;
    var pos, eof := 0, false;
    while !eof
      invariant pos == |copied| <= |file| && copied == file[..pos]
      invariant !eof ==> pos % 4096 == 0
      invariant eof ==> pos == |file| && |file| % 4096 != 0
      decreases |file| - pos, !eof
    {
      var n := if |file| - pos < 4096 then |file| - pos else 4096;
      eof := n < 4096;
      if n == 0 {
        return false, copied;
      }
      copied := copied + file[pos..pos + n];
      pos := pos + n;
    }
  }

  /** Script bodies that read back leave the stream in step. */
  lemma CanonicalKeepsStep(file: bytes)
    requires AllCanonical(SeenIn(file)) && forall s | s in SeenIn(file) :: s.tag.Complete()
    ensures ScriptsKeepStep(file)
  {
    hide Tags, TagAt, ReadScript, KeepsStep, Holds, ScriptsKeepStep;
    var seen := SeenIn(file);
    forall t | t in Tags(file, FIRST_TAG) && t.header.kind == META && t.header.bodyLength > 0
      ensures KeepsStep(file, t.BodyStart(), t.header.bodyLength)
    {
      var k :| 0 <= k < |seen| && Tags(file, FIRST_TAG)[k] == t;
      assert seen[k] in seen && seen[k].tag == t;
      TagOfFile(file, FIRST_TAG, k);
      BodyStands(file, t);
      ScriptReadsBack(file, t.BodyStart(), t.body, seen[k].script.name, seen[k].script.value);
    }
    KeptInStep(file);
  }

  lemma BodyStands(file: bytes, t: Tag)
    requires t.offset + 11 <= |file| && t == TagAt(file, t.offset)
    ensures At(file, t.BodyStart(), t.body)
  {
    hide DecodeHeader;
  }

  // ----- what is stored in the output is true of it -----

  /** The limits within which the promises hold. */
  ghost predicate Regular(opts: Options, file: bytes) {
    var p := PlanFor(opts, SeenIn(file));
    && Updatable(opts, file) && BodySize(opts, p.info) < 0x100_0000
    && MetadataLeads(p) && TimesNeverFall(p) && HasOther(p)
  }

  lemma PlanIsReady(opts: Options, file: bytes)
    requires Updatable(opts, file) && BodySize(opts, Gather(opts, SeenIn(file))) < 0x100_0000
    ensures Ready(PlanFor(opts, SeenIn(file)))
  {
    hide SeenIn, Gather, AcceptsAll, Plan.Copyable, OnMetadata, BodySize, OnMetadataBody, Contiguous;
    var p := PlanFor(opts, SeenIn(file));
    SeenIsContiguous(file);
    BodySizeIsFinal(opts, opts, p.info, PredictedPositions(opts, p.info), PredictedFileSize(opts, p.info),
      PredictedDataSize(opts, p.info));
  }

  /**
   * Every number of the layout stored in the output is true of the output: the positions are those of the
   * keyframe tags, the file size is its length, and the data size is that of its script tags.
   */
  lemma StoredLayoutIsTrue(opts: Options, file: bytes)
    requires Regular(opts, file)
    ensures var p := PlanFor(opts, SeenIn(file)); var out := Output(opts, file); var tags := Tags(out, FIRST_TAG);
            && PredictedFileSize(opts, p.info) == |out|
            && PredictedDataSize(opts, p.info) == DataBytes(p.All())
            && tags == Placed(p.All())
            && IndexPointsAtKeyframes(p, tags)
  {
    hide *;
    RegularPlan(opts, file);
    var p := PlanFor(opts, SeenIn(file));
    FileSizeIsExact(p, file[..9]);
    DataSizeIsExact(p);
    LastTagIsLate(p);
    BodiesFit(p, |p.seen|);
    AllIsUpto(p);
    WrittenIsRead(file[..9], p.All());
    IndexStands(p);
  }

  ghost predicate IndexPointsAtKeyframes(p: Plan, tags: seq<Tag>)
    requires |p.info.keys.positions| == |p.info.keys.times|
  {
    forall i | 0 <= i < |p.info.keys.positions| :: EntryStands(p, i, tags)
  }

  /** The stored position of index entry i is the offset of its keyframe. */
  ghost predicate EntryStands(p: Plan, i: nat, tags: seq<Tag>)
    requires i < |p.info.keys.positions| == |p.info.keys.times|
  {
    exists m | 0 <= m < |tags| :: PredictedPosition(p.opts, p.info, i) == tags[m].offset && IsKeyTag(p, i, tags[m])
  }

  lemma IndexStands(p: Plan)
    requires Ready(p) && MetadataLeads(p) && TimesNeverFall(p)
    ensures IndexPointsAtKeyframes(p, Placed(p.All()))
  {
    hide Gather, Contiguous, Plan.Copyable, BodySize, MetadataLeads, TimesNeverFall, EntryStands, Plan.All,
      Plan.MetadataTag;
    forall i | 0 <= i < |p.info.keys.positions| ensures EntryStands(p, i, Placed(p.All())) {
      KeyTagStands(p, i);
    }
  }

  /** The tag has the time and body of index entry i, and is a keyframe. */
  ghost predicate IsKeyTag(p: Plan, i: nat, t: Tag)
    requires i < |p.info.keys.times|
  {
    && t.header.kind == VIDEO && t.Complete() && t.body != [] && IsKeyframeByte(t.body[0])
    && p.info.keys.times[i] == t.header.timestamp as real / 1000.0
  }

  lemma RegularPlan(opts: Options, file: bytes)
    requires Regular(opts, file)
    ensures var p := PlanFor(opts, SeenIn(file));
            && |file| >= 9 && Ready(p) && MetadataLeads(p) && TimesNeverFall(p) && HasOther(p)
            && p.seen != [] && !p.Replaced(|p.seen| - 1)
            && Output(opts, file) == FileBytes(file[..9], p.All())
  {
    hide SeenIn, Gather, AcceptsAll, Plan.Copyable, BodySize, MetadataLeads, TimesNeverFall, Ready;
    PlanIsReady(opts, file);
  }

  lemma KeyTagStands(p: Plan, i: nat)
    requires Ready(p) && MetadataLeads(p) && TimesNeverFall(p) && i < |p.info.keys.positions|
    ensures EntryStands(p, i, Placed(p.All()))
  {
    hide Gather, Contiguous, MetadataLeads, TimesNeverFall, BodySize, PredictedPosition, Shift, Offset, Plan.All,
      Misplaced, IsKeyframeByte, VideoHeaderSize, Plan.Replaced;
    IndexIsExact(p, i);
    IndexError(p, i);
    var k := KeyTags(p.opts, p.seen)[i];
    CopyIsWhole(p, k);
    IndexIsKeyTags(p.opts, p.seen);
    assert IsKeyTag(p, i, Placed(p.All())[OutIndex(p, k)]);
  }

  // ----- the second update -----

  /** A file whose update can be repeated: its script tags, and the members the user adds, read back. */
  ghost predicate Repeats(opts: Options, file: bytes) {
    Regular(opts, file) && AllCanonical(SeenIn(file)) && Readable(opts)
  }

  lemma RepeatsPlan(opts: Options, file: bytes)
    requires Repeats(opts, file)
    ensures var p := PlanFor(opts, SeenIn(file));
            && |file| >= 9 && Repeatable(p) && AcceptsAll(opts, p.seen)
              && Output(opts, file) == FileBytes(file[..9], p.All())
  {
    hide SeenIn, Gather, AcceptsAll, Plan.Copyable, BodySize, MetadataLeads, TimesNeverFall, Ready, HasOther,
      AllCanonical, Readable, FinalMetadata;
    RegularPlan(opts, file);
  }

  lemma {:induction false} GatherIgnoresClock(o: Options, o': Options, seen: seq<Seen>)
    requires SameButClock(o, o')
    ensures Gather(o', seen) == Gather(o, seen)
  {
    hide Step;
    if seen != [] {
      GatherIgnoresClock(o, o', seen[..|seen| - 1]);
      StepIgnoresClock(o, o', Gather(o, seen[..|seen| - 1]), seen[|seen| - 1]);
    }
  }

  lemma StepIgnoresClock(o: Options, o': Options, i: Info, s: Seen)
    requires SameButClock(o, o')
    ensures Step(o', i, s) == Step(o, i, s)
  {
    hide StepMeta, StepAudio, StepVideoInfo;
    SameVideo(o, o', i.video, StepCommon(o, i, s).lastTimestamp, s, s);
  }

  /** What the second scan gathers, in full. */
  lemma SecondScan(p: Plan, o': Options, header: bytes)
    requires Repeatable(p) && |header| == 9 && SameButClock(p.opts, o') && AcceptsAll(p.opts, p.seen)
    ensures var seen := SeenIn(FileBytes(header, p.All())); var j := Gather(o', seen);
            && AcceptsAll(o', seen) && Mirrors(p, p.info, j, InsertsLastSecond(p.opts, p.info))
            && j.lastTimestamp == p.info.lastTimestamp
  {
    hide *;
    var seen := SeenIn(FileBytes(header, p.All()));
    var last := |p.seen| - 1;
    LastIsCopied(p);
    Follows(p, o', header, |p.seen|);
    OutputIsSeen(p, header);
    AllIsUpto(p);
    assert seen[..|seen|] == seen && p.seen[..|p.seen|] == p.seen;
    AcceptsEverything(o', seen);
    CopyIsSeen(p, header, last);
    UnfoldOutIndex(p, last);
    UptoNext(p, last);
    FirstMirrors(p, p.info, Gather(o', seen), InsertsLastSecond(p.opts, p.info));
    SecondLastTime(p, o', seen);
  }

  lemma LastIsCopied(p: Plan)
    requires Repeatable(p)
    ensures p.seen != [] && !p.Replaced(|p.seen| - 1) && p.info == Gather(p.opts, p.seen)
    ensures p.InsertedBefore(|p.seen|) == InsertsLastSecond(p.opts, p.info) && PastMetadata(p, |p.seen|)
  {
    hide Gather, BodySize, Contiguous, Plan.Copyable, MetadataLeads, TimesNeverFall, AllCanonical, FinalMetadata,
      OnMetadataBody;
    LastTagIsLate(p);
  }

  lemma AcceptsEverything(opts: Options, seen: seq<Seen>)
    requires AcceptsUpto(opts, seen, |seen|)
    ensures AcceptsAll(opts, seen)
  {
    hide Accepts, Gather;
  }

  lemma SecondLastTime(p: Plan, o': Options, seen: seq<Seen>)
    requires SameButClock(p.opts, o') && p.seen != [] && seen != [] && p.info == Gather(p.opts, p.seen)
    requires CopySeen(p, |p.seen| - 1, seen[|seen| - 1])
    requires Gather(o', seen).first == Shift(p.opts, p.info.first, p.info.first)
    ensures Gather(o', seen).lastTimestamp == p.info.lastTimestamp
  {
    hide Step, StepCommon, MovedBy;
    LastTime(p);
    FirstOfStep(o', Gather(o', seen[..|seen| - 1]), seen[|seen| - 1]);
    ShiftTwice(p.opts, p.info.first, p.seen[|p.seen| - 1].time);
  }

  lemma FirstMirrors(p: Plan, i: Info, j: Info, inserted: bool)
    requires Mirrors(p, i, j, inserted)
    ensures j.first == Shift(p.opts, i.first, i.first)
  {
    hide Shift, MirrorsKeys, MirrorsScript;
  }

  /** Two scans that give the same tree apart from the layout. */
  ghost predicate SameContent(o: Options, i: Info, j: Info) {
    && j.video == i.video && j.audio == i.audio && j.lastMedia == i.lastMedia && j.lastTimestamp == i.lastTimestamp
    && j.keys.present == i.keys.present && j.keys.last == i.keys.last && j.keys.canSeekToEnd == i.keys.canSeekToEnd
    && j.keys.times == i.keys.times && (o.resetTimestamps || j.first == i.first)
  }

  lemma SameTree(o: Options, i: Info, j: Info, positions: seq<int>, fileSize: int, dataSize: int)
    requires SameContent(o, i, j)
    ensures OnMetadata(o, j, positions, fileSize, dataSize) == OnMetadata(o, i, positions, fileSize, dataSize)
  {
    hide AmfName, Entry, Leading, Sizes, Trailing, Keyframes;
    SameParts(o, i, j, positions);
  }

  lemma SameParts(o: Options, i: Info, j: Info, positions: seq<int>)
    requires SameContent(o, i, j)
    ensures Leading(o, j) == Leading(o, i) && Sizes(o, j) == Sizes(o, i)
    ensures Trailing(o, j) == Trailing(o, i) && Keyframes(o, j, positions) == Keyframes(o, i, positions)
  {
    hide AmfName, Entry, CString, GeneralFields, VideoFields, AudioFields, CodecFields;
    assert Duration(o, j) == Duration(o, i);
    SameGroups(o, i, j, Duration(o, i));
    assert FlvMetadata.Times(o, j) == FlvMetadata.Times(o, i);
  }

  lemma SameGroups(o: Options, i: Info, j: Info, d: real)
    requires SameContent(o, i, j)
    ensures GeneralFields(o, j, d) == GeneralFields(o, i, d) && VideoFields(o, j, d) == VideoFields(o, i, d)
    ensures AudioFields(o, j, d) == AudioFields(o, i, d) && CodecFields(o, j) == CodecFields(o, i)
  {
    hide AmfName, Entry, Quotient, SampleRate, Signed32;
  }

  lemma SameBodySize(o: Options, o': Options, i: Info, j: Info)
    requires SameContent(o', i, j) && |j.keys.positions| == |i.keys.positions| && SameButClock(o, o')
    ensures BodySize(o', j) == BodySize(o', i) == BodySize(o, i)
  {
    hide OnMetadata, SameContent, Encode;
    SameTree(o', i, j, j.keys.positions, 0, 0);
    BodySizeIsFinal(o', o', i, j.keys.positions, 0, 0);
    BodySizeIsFinal(o', o, i, i.keys.positions, 0, 0);
  }

  lemma MirrorsContent(p: Plan, o': Options, j: Info, inserted: bool)
    requires Mirrors(p, p.info, j, inserted) && j.lastTimestamp == p.info.lastTimestamp && SameButClock(p.opts, o')
    ensures SameContent(o', p.info, j)
            && |j.keys.positions| == |j.keys.times| == |p.info.keys.positions| == |p.info.keys.times|
  {
    hide MovedBy, MirrorsScript;
  }

  /** The second scan finds the positions that the first update has stored. */
  lemma StoredPositionsAreFound(p: Plan, o': Options, j: Info)
    requires Repeatable(p) && SameButClock(p.opts, o') && j.lastTimestamp == p.info.lastTimestamp
    requires Mirrors(p, p.info, j, InsertsLastSecond(p.opts, p.info))
    ensures |j.keys.positions| == |j.keys.times| && |p.info.keys.positions| == |p.info.keys.times|
    ensures j.keys.positions == PredictedPositions(p.opts, p.info) == PredictedPositions(o', p.info)
            == PredictedPositions(o', j)
  {
    hide BodySize, Gather, Contiguous, Plan.Copyable, MetadataLeads, TimesNeverFall, AllCanonical, FinalMetadata,
      Encode, OnMetadata, Shift, SameContent;
    MirrorsContent(p, o', j, InsertsLastSecond(p.opts, p.info));
    SameTagSize(p, o', j);
    ScriptMirrors(p, o', j);
    PositionsFound(p, o', j);
  }

  lemma SameTagSize(p: Plan, o': Options, j: Info)
    requires Repeatable(p) && SameButClock(p.opts, o') && SameContent(o', p.info,
            j) && |j.keys.positions| == |p.info.keys.positions|
    ensures NewTagSize(o', j) == NewTagSize(o', p.info) == NewTagSize(p.opts, p.info) == NewSize(p)
  {
    hide BodySize, Gather, Contiguous, Plan.Copyable, MetadataLeads, TimesNeverFall, AllCanonical, FinalMetadata,
      Encode, OnMetadata, SameContent;
    SameBodySize(p.opts, o', p.info, j);
  }

  lemma PositionsFound(p: Plan, o': Options, j: Info)
    requires Mirrors(p, p.info, j, InsertsLastSecond(p.opts, p.info)) && SameButClock(p.opts, o')
    requires NewTagSize(o', j) == NewTagSize(o', p.info) == NewTagSize(p.opts, p.info) == NewSize(p)
    requires !InsertsLastSecond(o', j) && |p.info.keys.positions| == |p.info.keys.times|
    ensures |j.keys.positions| == |j.keys.times|
    ensures j.keys.positions == PredictedPositions(p.opts, p.info) == PredictedPositions(o', p.info)
            == PredictedPositions(o', j)
  {
    hide NewTagSize, Shift, Plan.MetadataTag;
  }

  lemma TotalsAreFound(p: Plan, o': Options, j: Info)
    requires Repeatable(p) && SameButClock(p.opts, o') && j.lastTimestamp == p.info.lastTimestamp
    requires Mirrors(p, p.info, j, InsertsLastSecond(p.opts, p.info))
    ensures PredictedFileSize(o', j) == PredictedFileSize(o', p.info) == PredictedFileSize(p.opts, p.info)
    ensures PredictedDataSize(o', j) == PredictedDataSize(o', p.info) == PredictedDataSize(p.opts, p.info)
  {
    hide BodySize, Gather, Contiguous, Plan.Copyable, MetadataLeads, TimesNeverFall, AllCanonical, FinalMetadata,
      Encode, OnMetadata, Shift, SameContent, MirrorsKeys;
    MirrorsContent(p, o', j, InsertsLastSecond(p.opts, p.info));
    SameBodySize(p.opts, o', p.info, j);
  }

  lemma SameMetadata(p: Plan, o': Options, j: Info)
    requires Repeatable(p) && SameButClock(p.opts, o') && j.lastTimestamp == p.info.lastTimestamp
    requires Mirrors(p, p.info, j, InsertsLastSecond(p.opts, p.info))
    ensures |j.keys.positions| == |j.keys.times| && |p.info.keys.positions| == |p.info.keys.times|
    ensures FinalMetadata(o', j) == FinalMetadata(o', p.info)
  {
    hide Repeatable, Mirrors, PredictedPositions, PredictedFileSize, PredictedDataSize, OnMetadata, SameContent,
      InsertsLastSecond;
    StoredPositionsAreFound(p, o', j);
    TotalsAreFound(p, o', j);
    MirrorsContent(p, o', j, InsertsLastSecond(p.opts, p.info));
    SameTree(o', p.info, j, PredictedPositions(o', p.info), PredictedFileSize(o', p.info),
      PredictedDataSize(o', p.info));
  }

  // ----- the second output -----

  /** Two plans for the same tags that differ in the stored tree only. */
  ghost predicate SameButStored(p: Plan, q: Plan) {
    q.seen == p.seen && q.info == p.info && SameButClock(p.opts, q.opts)
  }

  lemma SameSteps(p: Plan, q: Plan, k: nat)
    requires SameButStored(p, q) && k < |p.seen| && !p.Replaced(k)
    ensures q.Becomes(k) == p.Becomes(k)
  {
    assert forall j | 0 <= j <= k :: q.Late(j) == p.Late(j);
  }

  lemma {:induction false} OnlyStoredDiffers(p: Plan, q: Plan, n: nat)
    requires Repeatable(p) && SameButStored(p, q) && n <= |p.seen| && PastMetadata(p, n)
    ensures p.Upto(n) != [] && q.Upto(n) == [q.MetadataTag()] + p.Upto(n)[1..]
    decreases n
  {
    hide Repeatable, Ready, MetadataLeads, TimesNeverFall, Plan.Becomes, Plan.InsertsAt, Plan.MetadataTag;
    if n > 0 && PastMetadata(p, n - 1) {
      OnlyFirstReplaced(p, n - 1);
      SameSteps(p, q, n - 1);
      OnlyStoredDiffers(p, q, n - 1);
    } else {
      RepeatableIsReady(p);
      MetadataFirst(p);
      FirstBecomes(p, q);
    }
  }

  lemma FirstBecomes(p: Plan, q: Plan)
    requires Repeatable(p) && SameButStored(p, q)
    ensures q.info.script.onMetadataSize == 0 ==> q.Upto(0) == [q.MetadataTag()]
    ensures q.info.script.onMetadataSize != 0 ==> q.Upto(1) == [q.MetadataTag()]
  {
    hide Ready, TimesNeverFall, AllCanonical, Encode, FinalMetadata;
    if q.info.script.onMetadataSize != 0 {
      UptoStep(q, 0);
    }
  }

  /** The second plan copies every tag of the first output but the stored one. */
  ghost predicate Copies(p: Plan, r: Plan) {
    && |r.seen| == |p.All()| && r.info.script.onMetadataSize != 0 && r.info.script.onMetadataOffset == 13
    && !InsertsLastSecond(r.opts, r.info) && Contiguous(r.seen)
    && forall m | 0 <= m < |r.seen| :: r.Copy(m) == p.All()[m]
  }

  lemma {:induction false} CopiesRest(p: Plan, r: Plan, m: nat)
    requires Copies(p, r) && 0 < m <= |r.seen|
    ensures m <= |p.All()| && r.Upto(m) == [r.MetadataTag()] + p.All()[1..m]
  {
    hide *;
    CopiesStart(p, r);
    UptoStep(r, m - 1);
    if m == 1 {
      assert p.All()[1..1] == [];
    } else {
      CopiesRest(p, r, m - 1);
      CopiesOne(p, r, m - 1);
      assert p.All()[1..m] == p.All()[1..m - 1] + [p.All()[m - 1]];
    }
  }

  lemma CopiesStart(p: Plan, r: Plan)
    requires Copies(p, r) && r.seen != []
    ensures |r.seen| == |p.All()|
    ensures r.Upto(0) == [] && r.Becomes(0) == [r.MetadataTag()]
  {
    hide Plan.MetadataTag, Plan.All, Plan.Copy;
  }

  lemma CopiesOne(p: Plan, r: Plan, m: nat)
    requires Copies(p, r) && 0 < m < |r.seen|
    ensures r.Becomes(m) == [p.All()[m]]
  {
    hide Plan.MetadataTag, Plan.All, Plan.Copy;
    OffsetsRise(r.seen, 0, m);
  }

  lemma SecondCopies(p: Plan, o': Options, header: bytes)
    requires Repeatable(p) && |header| == 9 && SameButClock(p.opts, o') && AcceptsAll(p.opts, p.seen)
    ensures Copies(p, PlanFor(o', SeenIn(FileBytes(header, p.All()))))
    ensures PlanFor(o', SeenIn(FileBytes(header, p.All()))).Copyable()
  {
    hide *;
    var file := FileBytes(header, p.All());
    var r := PlanFor(o', SeenIn(file));
    OutputIsSeen(p, header);
    SecondScan(p, o', header);
    SeenIsContiguous(file);
    FirstMirrors(p, p.info, r.info, InsertsLastSecond(p.opts, p.info));
    ScriptMirrors(p, o', r.info);
    forall m | 0 <= m < |r.seen| ensures r.Copy(m) == p.All()[m] && r.seen[m].tag.Complete() {
      OutputTagIsSeen(p, header, m);
      WrittenTime(p, m);
      CopyOfSeen(p, r, header, m);
    }
    CopiesIntro(p, r);
    CopyableIntro(r);
  }

  lemma ScriptMirrors(p: Plan, o': Options, j: Info)
    requires Mirrors(p, p.info, j, InsertsLastSecond(p.opts, p.info)) && SameButClock(p.opts, o')
    ensures j.script.onMetadataSize != 0 && j.script.onMetadataOffset == 13 && !InsertsLastSecond(o', j)
  {
    hide MirrorsKeys, Encode;
  }

  /** Every time that is written is one that shifting leaves alone. */
  lemma WrittenTime(p: Plan, m: nat)
    requires m < |p.All()|
    ensures Shift(p.opts, Shift(p.opts, p.info.first, p.info.first), p.All()[m].timestamp) == p.All()[m].timestamp
  {
    hide Shift, Encode;
    WrittenTimes(p, |p.seen|);
    var t := p.All()[m];
    assert t in p.Upto(|p.seen|);
    if t.timestamp == 0 {
      ShiftZero(p.opts, Shift(p.opts, p.info.first, p.info.first), p.info.first);
    } else {
      var k :| 0 <= k < |p.seen| && t.timestamp == p.Time(k);
      ShiftTwice(p.opts, p.info.first, p.seen[k].time);
    }
  }

  lemma ShiftZero(opts: Options, a: uint32, b: uint32)
    ensures Shift(opts, a, 0) == 0
  {
  }

  lemma {:induction false} WrittenTimes(p: Plan, n: nat)
    requires n <= |p.seen|
    ensures forall t | t in p.Upto(n) :: t.timestamp == 0 || exists k | 0 <= k < |p.seen| :: t.timestamp == p.Time(k)
  {
    hide Shift, Encode;
    if n > 0 {
      WrittenTimes(p, n - 1);
      forall t | t in p.Becomes(n - 1) ensures t.timestamp == 0 || t.timestamp == p.Time(n - 1) {}
    }
  }

  lemma CopyOfSeen(p: Plan, r: Plan, header: bytes, m: nat)
    requires m < |r.seen| == |p.All()| && TagSeen(header, p.All(), m, r.seen[m]) && SameButClock(p.opts, r.opts)
    requires r.info.first == Shift(p.opts, p.info.first, p.info.first)
    requires Shift(p.opts, Shift(p.opts, p.info.first, p.info.first), p.All()[m].timestamp) == p.All()[m].timestamp
    ensures r.Copy(m) == p.All()[m] && r.seen[m].tag.Complete()
  {
    hide Plan.All, FileBytes, Offset, ScriptOf;
  }

  lemma CopiesIntro(p: Plan, r: Plan)
    requires |r.seen| == |p.All()| && r.info.script.onMetadataSize != 0 && r.info.script.onMetadataOffset == 13
    requires !InsertsLastSecond(r.opts, r.info) && Contiguous(r.seen)
    requires forall m | 0 <= m < |r.seen| :: r.Copy(m) == p.All()[m]
    ensures Copies(p, r)
  {
    hide Plan.All, Contiguous, Plan.Copy;
  }

  lemma CopyableIntro(r: Plan)
    requires forall m | 0 <= m < |r.seen| :: r.seen[m].tag.Complete()
    ensures r.Copyable()
  {
  }

  // ----- the second update is possible -----

  /** Where output tag m comes from. */
  ghost predicate Comes(p: Plan, n: nat, m: nat)
    requires n <= |p.seen|
  {
    || m == 0
    || (exists k | 0 <= k < n :: p.InsertsAt(k) && m == |p.Upto(k)|)
    || (exists k | 0 <= k < n :: !p.Replaced(k) && m == OutIndex(p, k))
  }

  lemma {:induction false} EveryTagComes(p: Plan, n: nat, m: nat)
    requires Ready(p) && MetadataLeads(p) && n <= |p.seen| && m < |p.Upto(n)|
    ensures Comes(p, n, m)
  {
    hide *;
    if n == 0 {
      FirstComes(p, m);
    } else if m < |p.Upto(n - 1)| {
      EveryTagComes(p, n - 1, m);
      ComesLater(p, n - 1, m);
    } else {
      UptoStep(p, n - 1);
      if p.Replaced(n - 1) {
        ReplacedLeads(p, n - 1);
        ComesFirst(p, n);
      } else {
        UnfoldOutIndex(p, n - 1);
        UptoNext(p, n - 1);
        ComesHere(p, n - 1, m);
      }
    }
  }

  lemma FirstComes(p: Plan, m: nat)
    requires m < |p.Upto(0)|
    ensures Comes(p, 0, m)
  {
    hide Encode;
  }

  lemma ComesFirst(p: Plan, n: nat)
    requires n <= |p.seen|
    ensures Comes(p, n, 0)
  {
  }

  lemma ComesLater(p: Plan, n: nat, m: nat)
    requires n < |p.seen| && Comes(p, n, m)
    ensures Comes(p, n + 1, m)
  {
    hide Plan.InsertsAt, Plan.Replaced, Plan.Upto, OutIndex;
  }

  lemma ComesHere(p: Plan, k: nat, m: nat)
    requires k < |p.seen| && !p.Replaced(k) && |p.Upto(k)| <= m <= OutIndex(p, k)
    requires OutIndex(p, k) == |p.Upto(k)| + (if p.InsertsAt(k) then 1 else 0)
    ensures Comes(p, k + 1, m)
  {
    hide Plan.InsertsAt, Plan.Replaced, Plan.Upto, OutIndex;
  }

  lemma ReplacedLeads(p: Plan, k: nat)
    requires Ready(p) && MetadataLeads(p) && k < |p.seen| && p.Replaced(k)
    ensures k == 0 && |p.Upto(0)| == 0 && |p.Becomes(0)| == 1
  {
    hide Gather, BodySize, Encode, IsReplaced;
    ReplacedTag(p, k);
  }

  lemma PlacedKeepsStep(p: Plan, header: bytes, m: nat)
    requires Repeatable(p) && |header| == 9 && m < |p.All()|
    ensures var t := Placed(p.All())[m];
            t.header.kind == META && t.header.bodyLength > 0
            ==> KeepsStep(FileBytes(header, p.All()), t.BodyStart(), t.header.bodyLength)
  {
    hide *;
    AllIsUpto(p);
    RepeatableIsReady(p);
    EveryTagComes(p, |p.seen|, m);
    OutputTagIsSeen(p, header, m);
    OutputIsSeen(p, header);
    PlacedHeader(p, m);
    CasesOf(p, m);
    if m == 0 {
      MetadataFirst(p);
      MetadataTagIs(p);
      MetadataIsSeen(p, header);
    } else if k :| 0 <= k < |p.seen| && p.InsertsAt(k) && m == |p.Upto(k)| {
      LastSecondIsSeen(p, header, k);
      LastSecondTagIs(p, k);
    } else if k :| 0 <= k < |p.seen| && !p.Replaced(k) && m == OutIndex(p, k) {
      CopyPlace(p, k);
      CopyIsWhole(p, k);
      CopyScript(p, header, k);
      CopyIs(p, k);
    }
  }

  lemma CasesOf(p: Plan, m: nat)
    requires Comes(p, |p.seen|, m)
    ensures || m == 0
            || (exists k | 0 <= k < |p.seen| :: p.InsertsAt(k) && m == |p.Upto(k)|)
            || (exists k | 0 <= k < |p.seen| :: !p.Replaced(k) && m == OutIndex(p, k))
  {
    hide Plan.InsertsAt, Plan.Replaced, OutIndex, Plan.Upto;
  }

  lemma PlacedHeader(p: Plan, m: nat)
    requires m < |p.All()| && Representable(p.All())
    ensures Placed(p.All())[m].header.kind == p.All()[m].kind
            && Placed(p.All())[m].header.bodyLength == |p.All()[m].body|
  {
    hide Plan.All, Offset;
    assert p.All()[m] in p.All();
  }

  lemma CopyIs(p: Plan, k: nat)
    requires k < |p.seen|
    ensures p.Copy(k).kind == p.seen[k].Kind() && p.Copy(k).body == p.seen[k].tag.body
  {
    hide Shift;
  }

  lemma OutputKeepsStep(p: Plan, header: bytes)
    requires Repeatable(p) && |header| == 9
    ensures ScriptsKeepStep(FileBytes(header, p.All()))
  {
    hide Repeatable, SeenIn, FileBytes, KeepsStep, Tags, Plan.All, Offset, AllBytes, Representable, Sorted,
      ScriptsKeepStep;
    var file := FileBytes(header, p.All());
    OutputIsSeen(p, header);
    WrittenIsRead(header, p.All());
    forall t | t in Tags(file, FIRST_TAG) && t.header.kind == META && t.header.bodyLength > 0
      ensures KeepsStep(file, t.BodyStart(), t.header.bodyLength)
    {
      var m :| 0 <= m < |p.All()| && Placed(p.All())[m] == t;
      PlacedKeepsStep(p, header, m);
    }
    KeptInStep(file);
  }

  lemma SecondPlanWritesTheSame(p: Plan, o': Options, header: bytes)
    requires Repeatable(p) && |header| == 9 && SameButClock(p.opts, o') && AcceptsAll(p.opts, p.seen)
    ensures PlanFor(o', SeenIn(FileBytes(header, p.All()))).All() == PlanFor(o', p.seen).All()
  {
    hide *;
    var r, q := PlanFor(o', SeenIn(FileBytes(header, p.All()))), PlanFor(o', p.seen);
    GatherIgnoresClock(p.opts, o', p.seen);
    LastIsCopied(p);
    SameButStoredIntro(p, q);
    OnlyStoredDiffers(p, q, |p.seen|);
    AllIsUpto(p);
    SecondCopies(p, o', header);
    CopiesLength(p, r);
    CopiesRest(p, r, |r.seen|);
    SecondScan(p, o', header);
    SameMetadata(p, o', r.info);
    SameStoredTag(q, r);
    AllIsUpto(q);
    AllIsUpto(r);
    assert p.All()[1..|r.seen|] == p.All()[1..];
  }

  lemma SameButStoredIntro(p: Plan, q: Plan)
    requires q.seen == p.seen && q.info == p.info && SameButClock(p.opts, q.opts)
    ensures SameButStored(p, q)
  {
  }

  lemma CopiesLength(p: Plan, r: Plan)
    requires Copies(p, r) && p.All() != []
    ensures |r.seen| == |p.All()| > 0
  {
    hide Plan.All;
  }

  lemma SameStoredTag(q: Plan, r: Plan)
    requires q.onMetadata == r.onMetadata
    ensures q.MetadataTag() == r.MetadataTag()
  {
    hide Encode;
  }

  /**
   * Update is a fixpoint. The output can be updated again; reading it again finds the times, positions and totals
   * stored in it; and the second update writes what the first would have written at the time of the second, so at
   * the same time it changes no byte, and no second onLastSecond appears.
   */
  lemma UpdateIsFixpoint(opts: Options, opts': Options, file: bytes)
    requires Repeats(opts, file) && SameButClock(opts, opts')
    ensures |file| >= 9 && |Output(opts, file)| >= 9
    ensures ScriptsKeepStep(Output(opts, file)) && Updatable(opts', Output(opts, file))
    ensures Output(opts', Output(opts, file)) == Output(opts', file)
    ensures Output(opts, Output(opts, file)) == Output(opts, file)
  {
    hide *;
    RepeatsPlan(opts, file);
    var p, header := PlanFor(opts, SeenIn(file)), file[..9];
    OutputKeepsStep(p, header);
    SecondCopies(p, opts', header);
    SecondScan(p, opts', header);
    SecondPlanWritesTheSame(p, opts', header);
    SelfClock(opts);
    SecondPlanWritesTheSame(p, opts, header);
    RepeatsIsFlv(opts, file);
    HeaderOfOutput(opts, file);
    OutputIs(opts, Output(opts, file));
    OutputIs(opts', Output(opts, file));
    OutputIs(opts', file);
    UpdatableIntro(opts', Output(opts, file));
  }

  lemma SelfClock(o: Options)
    ensures SameButClock(o, o)
  {
  }

  lemma RepeatsIsFlv(opts: Options, file: bytes)
    requires Repeats(opts, file)
    ensures IsFlv(file)
  {
    hide Ready, SeenIn, AcceptsAll;
  }

  lemma HeaderOfOutput(opts: Options, file: bytes)
    requires IsFlv(file)
    ensures |file| >= 9 && |Output(opts, file)| >= 9 && Output(opts, file)[..9] == file[..9]
            && IsFlv(Output(opts, file))
  {
    hide *;
    FlvLength(file);
    OutputIs(opts, file);
    HeaderOfFile(file[..9], PlanFor(opts, SeenIn(file)).All());
    SameHeader(file, Output(opts, file));
  }

  lemma FlvLength(file: bytes)
    requires IsFlv(file)
    ensures |file| >= 9
  {
  }

  lemma SameHeader(file: bytes, out: bytes)
    requires IsFlv(file) && |out| >= 9 && out[..9] == file[..9]
    ensures IsFlv(out)
  {
    assert out[..3] == out[..9][..3] == file[..9][..3] == file[..3];
  }

  lemma HeaderOfFile(header: bytes, ts: seq<OutTag>)
    requires |header| == 9
    ensures |FileBytes(header, ts)| >= 9 && FileBytes(header, ts)[..9] == header
  {
    hide AllBytes;
  }

  lemma OutputIs(opts: Options, file: bytes)
    requires |file| >= 9
    ensures Output(opts, file) == FileBytes(file[..9], PlanFor(opts, SeenIn(file)).All())
  {
    hide SeenIn, FileBytes, Plan.All;
  }

  lemma UpdatableIntro(opts: Options, file: bytes)
    requires IsFlv(file) && AcceptsAll(opts, SeenIn(file)) && PlanFor(opts, SeenIn(file)).Copyable()
    ensures Updatable(opts, file)
  {
    hide SeenIn, AcceptsAll, Plan.Copyable;
  }

  /** Reading the output again finds exactly the index and totals that are stored in it. */
  lemma RescanFindsStored(opts: Options, opts': Options, file: bytes)
    requires Repeats(opts, file) && SameButClock(opts, opts')
    ensures |file| >= 9
    ensures var i, j := Gather(opts, SeenIn(file)), Gather(opts', SeenIn(Output(opts, file)));
            && |i.keys.positions| == |i.keys.times| && |j.keys.positions| == |j.keys.times|
            && j.keys.times == i.keys.times && j.keys.positions == PredictedPositions(opts, i)
            && PredictedFileSize(opts', j) == PredictedFileSize(opts, i) && PredictedDataSize(opts',
              j) == PredictedDataSize(opts, i)
            && !InsertsLastSecond(opts', j)
  {
    hide *;
    RepeatsPlan(opts, file);
    var p, header := PlanFor(opts, SeenIn(file)), file[..9];
    SecondScan(p, opts', header);
    var j := Gather(opts', SeenIn(FileBytes(header, p.All())));
    StoredPositionsAreFound(p, opts', j);
    TotalsAreFound(p, opts', j);
    ScriptMirrors(p, opts', j);
    TimesMirror(p, j);
  }

  lemma TimesMirror(p: Plan, j: Info)
    requires Mirrors(p, p.info, j, InsertsLastSecond(p.opts, p.info))
    ensures j.keys.times == p.info.keys.times
  {
    hide MovedBy;
  }
}
