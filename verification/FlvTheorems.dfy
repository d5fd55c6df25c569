/**
 * What an update promises: the index and the totals that are stored before a byte is written are those of the output.
 */
module FlvTheorems {
  import opened Bytes
  import opened Amf
  import opened Flv
  import opened FlvStream
  import opened FlvInfo
  import opened FlvMetadata
  import opened FlvUpdate
  import opened FlvLayout

  /** A plan made by the first pass, for tags that can all be copied, with metadata that fits a tag. */
  ghost predicate Ready(p: Plan) {
    && p.info == Gather(p.opts, p.seen) && Contiguous(p.seen) && p.Copyable()
    && |p.info.keys.times| == |p.info.keys.positions|
    && |p.MetadataTag().body| == BodySize(p.opts, p.info) < 0x100_0000
  }

  // ----- the tag that is replaced -----

  lemma {:induction false} OffsetsRise(seen: seq<Seen>, j: nat, k: nat)
    requires Contiguous(seen) && j < k < |seen|
    ensures 13 <= seen[j].tag.offset < seen[j].tag.End() <= seen[k].tag.offset
    decreases k
  {
    assert seen[k].tag.offset == seen[k - 1].tag.End();
    if j < k - 1 {
      OffsetsRise(seen, j, k - 1);
    } else if j > 0 {
      OffsetsRise(seen, j - 1, j);
    }
  }

  lemma FirstOffset(seen: seq<Seen>, k: nat)
    requires Contiguous(seen) && k < |seen|
    ensures seen[k].tag.offset >= 13
  {
    if k > 0 {
      OffsetsRise(seen, 0, k);
    }
  }

  /** At most one tag is replaced: an onMetaData tag, whose size has been noted. */
  lemma ReplacedTag(p: Plan, k: nat)
    requires Ready(p) && k < |p.seen|
    ensures p.Replaced(k) ==> IsReplaced(p.info.script, p.seen, k)
    ensures p.info.script.onMetadataSize == 0 ==> !p.Replaced(k)
    ensures forall j | 0 <= j < |p.seen| && j != k :: !(p.Replaced(j) && p.Replaced(k))
  {
    hide Gather, Named, BodySize;
    FoundMetadata(p.opts, p.seen);
    FirstOffset(p.seen, k);
    forall j | 0 <= j < |p.seen| && j != k ensures p.seen[j].tag.offset != p.seen[k].tag.offset {
      OffsetsRise(p.seen, if j < k then j else k, if j < k then k else j);
    }
  }

  lemma SomeReplaced(p: Plan)
    requires Ready(p)
    ensures p.info.script.onMetadataSize != 0 <==> ReplacedBefore(p, |p.seen|)
  {
    hide Gather, Named, BodySize, IsReplaced;
    FoundMetadata(p.opts, p.seen);
    if p.info.script.onMetadataSize != 0 {
      var k :| 0 <= k < |p.seen| && IsReplaced(p.info.script, p.seen, k);
      assert p.Replaced(k) by { IsReplacedOffset(p.info.script, p.seen, k); }
    } else if k :| 0 <= k < |p.seen| && p.Replaced(k) {
      ReplacedTag(p, k);
    }
  }

  lemma IsReplacedOffset(i: ScriptInfo, seen: seq<Seen>, k: nat)
    requires k < |seen| && IsReplaced(i, seen, k)
    ensures seen[k].tag.offset == i.onMetadataOffset && i.onMetadataSize != 0 && seen[k].Kind() == META
  {
  }

  predicate ReplacedBefore(p: Plan, n: nat)
    requires n <= |p.seen|
  {
    exists j | 0 <= j < n :: p.Replaced(j)
  }

  // ----- where the output tags stand -----

  function NewSize(p: Plan): int {
    p.MetadataTag().Size()
  }

  /** By how much the new metadata and the inserted tag move what follows the first n input tags. */
  function Moved(p: Plan, n: nat): int
    requires n <= |p.seen|
  {
    (if p.info.script.onMetadataSize == 0 || ReplacedBefore(p, n) then NewSize(p) - p.info.script.onMetadataSize else 0)
    + (if p.InsertedBefore(n) then 38 else 0)
  }

  lemma SizeOfBecomes(p: Plan, k: nat)
    requires k < |p.seen| && (p.Replaced(k) || p.seen[k].tag.Complete())
    ensures |AllBytes(p.Becomes(k))|
         == if p.Replaced(k) then NewSize(p) else 15 + p.seen[k].Length() + (if p.InsertsAt(k) then 38 else 0)
  {
    hide TagBytes, AllBytes, Encode;
    OnLastSecondSize();
    BytesOfFew(p.MetadataTag(), p.MetadataTag());
    BytesOfFew(p.LastSecondTag(k), p.Copy(k));
    assert [p.LastSecondTag(k)] + [p.Copy(k)] == [p.LastSecondTag(k), p.Copy(k)] && [] + [p.Copy(k)] == [p.Copy(k)];
  }

  lemma {:induction false} Placement(p: Plan, n: nat)
    requires Ready(p) && n <= |p.seen|
    ensures 13 + |AllBytes(p.Upto(n))| == EndOf(p.seen[..n]) + Moved(p, n)
  {
    hide *;
    if n == 0 {
      PlacementStart(p);
    } else {
      var k := n - 1;
      Placement(p, k);
      UptoStep(p, k);
      BytesAppend(p.Upto(k), p.Becomes(k));
      IsReady(p);
      SizeOfBecomes(p, k);
      ReplacedTag(p, k);
      ReplacedSize(p, k);
      EndOfNext(p.seen, k);
      MovedNext(p, k);
    }
  }

  lemma PlacementStart(p: Plan)
    ensures 13 + |AllBytes(p.Upto(0))| == EndOf(p.seen[..0]) + Moved(p, 0)
  {
    hide AllBytes, TagBytes, Encode;
    NoBytes();
    BytesOfFew(p.MetadataTag(), p.MetadataTag());
  }

  lemma UptoStep(p: Plan, k: nat)
    requires k < |p.seen|
    ensures p.Upto(k + 1) == p.Upto(k) + p.Becomes(k)
  {
    hide Plan.Becomes, Plan.MetadataTag;
  }

  lemma ReplacedSize(p: Plan, k: nat)
    requires k < |p.seen|
    ensures IsReplaced(p.info.script, p.seen, k) ==> p.info.script.onMetadataSize == p.seen[k].Length() + 15
    ensures p.Replaced(k) ==> !p.InsertsAt(k)
  {
    hide Named;
  }

  lemma EndOfNext(seen: seq<Seen>, n: nat)
    requires Contiguous(seen) && n < |seen|
    ensures EndOf(seen[..n]) == seen[n].tag.offset && EndOf(seen[..n + 1]) == seen[n].tag.offset + 15 + seen[n].Length()
  {
  }

  lemma MovedNext(p: Plan, n: nat)
    requires Ready(p) && n < |p.seen|
    ensures Moved(p, n + 1) == Moved(p, n) + (if p.Replaced(n) then NewSize(p) - p.info.script.onMetadataSize else 0)
                               + (if p.InsertsAt(n) then 38 else 0)
  {
    hide Gather, Named, BodySize, Encode;
    ReplacedTag(p, n);
    assert ReplacedBefore(p, n + 1) <==> ReplacedBefore(p, n) || p.Replaced(n);
    assert p.InsertedBefore(n + 1) <==> p.InsertedBefore(n) || p.InsertsAt(n);
    assert !(p.InsertedBefore(n) && p.InsertsAt(n));
    assert ReplacedBefore(p, n) && p.Replaced(n) ==> false;
  }

  lemma {:induction false} UptoPrefix(p: Plan, m: nat, n: nat)
    requires m <= n <= |p.seen|
    ensures p.Upto(m) <= p.Upto(n)
  {
    hide Plan.Becomes;
    if m < n {
      UptoPrefix(p, m, n - 1);
    }
  }

  /** The number, in the output, of the copy of input tag k. */
  function OutIndex(p: Plan, k: nat): nat
    requires k < |p.seen|
  {
    |p.Upto(k)| + if p.InsertsAt(k) then 1 else 0
  }

  lemma UptoNext(p: Plan, k: nat)
    requires k < |p.seen| && !p.Replaced(k)
    ensures p.Upto(k + 1) == p.Upto(k) + ((if p.InsertsAt(k) then [p.LastSecondTag(k)] else []) + [p.Copy(k)])
    ensures p.Upto(k + 1) <= p.All()
  {
    hide Plan.InsertsAt, Plan.LastSecondTag, Plan.Copy, Plan.MetadataTag;
    UptoPrefix(p, k + 1, |p.seen|);
  }

  /** The copy of an input tag, and where it stands. */
  lemma CopyPlace(p: Plan, k: nat)
    requires Ready(p) && k < |p.seen| && !p.Replaced(k)
    ensures OutIndex(p, k) < |p.All()| && p.All()[OutIndex(p, k)] == p.Copy(k)
    ensures Offset(p.All(), OutIndex(p, k)) == p.seen[k].tag.offset + Moved(p, k + 1)
    ensures p.InsertsAt(k) ==> p.All()[|p.Upto(k)|] == p.LastSecondTag(k)
  {
    hide *;
    Placement(p, k);
    IsReady(p);
    EndOfNext(p.seen, k);
    MovedNext(p, k);
    UptoNext(p, k);
    UnfoldOutIndex(p, k);
    var a, s, c := p.Upto(k), [p.LastSecondTag(k)], [p.Copy(k)];
    if p.InsertsAt(k) {
      assert p.All()[..|a| + 1] == p.Upto(k + 1)[..|a| + 1] == a + s;
      assert p.All()[|a|] == (a + (s + c))[|a|] && p.All()[|a| + 1] == (a + (s + c))[|a| + 1];
      BytesAppend(a, s);
      BytesOfFew(p.LastSecondTag(k), p.LastSecondTag(k));
      SizeOfLastSecond(p, k);
    } else {
      assert p.All()[..|a|] == p.Upto(k + 1)[..|a|] == a;
      assert p.All()[|a|] == (a + c)[|a|];
    }
    OffsetIs(p.All(), OutIndex(p, k));
  }

  lemma IsReady(p: Plan)
    requires Ready(p)
    ensures Contiguous(p.seen) && forall k | 0 <= k < |p.seen| :: p.Replaced(k) || p.seen[k].tag.Complete()
  {
    hide Gather, Contiguous, BodySize;
  }

  lemma UnfoldOutIndex(p: Plan, k: nat)
    requires k < |p.seen|
    ensures OutIndex(p, k) == |p.Upto(k)| + if p.InsertsAt(k) then 1 else 0
  {
  }

  lemma SizeOfLastSecond(p: Plan, k: nat)
    requires k < |p.seen|
    ensures |TagBytes(p.LastSecondTag(k))| == 38
  {
    hide TagBytes;
    OnLastSecondSize();
  }

  lemma OffsetIs(ts: seq<OutTag>, j: nat)
    requires j <= |ts|
    ensures Offset(ts, j) == 13 + |AllBytes(ts[..j])|
  {
  }

  // ----- the keyframe index -----

  /** By how much the stored position of key tag k is off. */
  function Misplaced(p: Plan, k: nat): int
    requires k < |p.seen|
  {
    (if p.info.script.onMetadataSize != 0 && !ReplacedBefore(p, k) then NewSize(p) - p.info.script.onMetadataSize
      else 0)
    + IndexShift(p.opts, p.info, p.Time(k) as real / 1000.0) - (if p.InsertedBefore(k + 1) then 38 else 0)
  }

  /** Every index entry belongs to a copied keyframe, and this is how far its position is from that tag. */
  lemma IndexError(p: Plan, i: nat)
    requires Ready(p) && i < |p.info.keys.positions|
    ensures |KeyTags(p.opts, p.seen)| == |p.info.keys.positions|
    ensures var k := KeyTags(p.opts, p.seen)[i];
            && k < |p.seen| && !p.Replaced(k) && IsKeyframe(p.seen[k])
            && OutIndex(p, k) < |p.All()| && p.All()[OutIndex(p, k)] == p.Copy(k)
            && p.info.keys.times[i] == p.Time(k) as real / 1000.0
            && PredictedPosition(p.opts, p.info, i) == Offset(p.All(), OutIndex(p, k)) + Misplaced(p, k)
  {
    hide AllBytes, TagBytes, Gather, Named, Encode, IsKeyframe, KeyTags, OnMetadata;
    IndexIsKeyTags(p.opts, p.seen);
    var k := KeyTags(p.opts, p.seen)[i];
    ReplacedTag(p, k);
    CopyPlace(p, k);
    MovedAt(p, k);
  }

  lemma MovedAt(p: Plan, k: nat)
    requires Ready(p) && k < |p.seen| && !p.Replaced(k)
    ensures NewTagSize(p.opts, p.info) == NewSize(p)
    ensures Moved(p, k + 1) + Misplaced(p, k)
         == NewSize(p) - p.info.script.onMetadataSize + IndexShift(p.opts, p.info, p.Time(k) as real / 1000.0)
  {
    hide Gather, Named, BodySize, Encode, IndexShift;
    assert ReplacedBefore(p, k + 1) <==> ReplacedBefore(p, k);
  }

  /** The old onMetaData tag is absent or the first tag. */
  predicate MetadataLeads(p: Plan) {
    p.info.script.onMetadataSize == 0 || (p.seen != [] && p.Replaced(0))
  }

  /** No copied tag is earlier than a copied tag before it. */
  ghost predicate TimesNeverFall(p: Plan) {
    forall j, k | 0 <= j < k < |p.seen| && !p.Replaced(j) && !p.Replaced(k) :: p.Time(j) <= p.Time(k)
  }

  lemma LastTime(p: Plan)
    requires p.info == Gather(p.opts, p.seen) && p.seen != []
    ensures p.info.lastTimestamp == p.Time(|p.seen| - 1)
  {
    hide Step, StepCommon, Shift;
    FirstOfStep(p.opts, Gather(p.opts, p.seen[..|p.seen| - 1]), p.seen[|p.seen| - 1]);
  }

  /** Whatever else happens, the last tag is late enough unless it is the replaced one. */
  lemma LastTagIsLate(p: Plan)
    requires Ready(p) && p.seen != [] && !p.Replaced(|p.seen| - 1)
    ensures p.Late(|p.seen| - 1) && (InsertsLastSecond(p.opts, p.info) ==> p.InsertedBefore(|p.seen|))
  {
    hide Gather, BodySize, Encode, Shift;
    LastTime(p);
  }

  /** The shift for the inserted tag in a position behind which, or in front of which, none is written. */
  function Overshoot(p: Plan, k: nat): int
    requires k < |p.seen|
  {
    if InsertsLastSecond(p.opts, p.info) && p.Time(k) > p.info.lastTimestamp && !p.InsertedBefore(k + 1) then 38 else 0
  }

  /** With times that never fall the inserted tag is accounted for, except at keyframes later than the last tag. */
  lemma MisplacedBy(p: Plan, k: nat)
    requires Ready(p) && (!InsertsLastSecond(p.opts, p.info) || TimesNeverFall(p)) && k < |p.seen| && !p.Replaced(k)
    ensures Misplaced(p, k) == Overshoot(p, k)
      + if p.info.script.onMetadataSize != 0 && !ReplacedBefore(p, k) then NewSize(p) - p.info.script.onMetadataSize
        else 0
  {
    hide Gather, BodySize, Encode, Shift, Named;
    if p.InsertedBefore(k + 1) {
      var j :| 0 <= j < k + 1 && p.Late(j);
      assert p.Time(j) <= p.Time(k);
      assert Minus32(p.info.lastTimestamp, p.Time(j)) <= 1000;
    } else {
      assert !p.Late(k) || !InsertsLastSecond(p.opts, p.info);
    }
  }

  /** No copied tag is later than the last tag, if that one is copied too. */
  lemma NoOvershoot(p: Plan, k: nat)
    requires Ready(p) && TimesNeverFall(p) && k < |p.seen| && !p.Replaced(k) && !p.Replaced(|p.seen| - 1)
    ensures Overshoot(p, k) == 0
  {
    hide Gather, BodySize, Encode, Shift, Named;
    LastTime(p);
  }

  lemma NothingMisplaced(p: Plan, k: nat)
    requires Ready(p) && MetadataLeads(p) && TimesNeverFall(p) && k < |p.seen| && !p.Replaced(k)
    ensures Misplaced(p, k) == 0
  {
    hide Gather, BodySize, Encode, Shift, Named, Misplaced, Overshoot;
    MisplacedBy(p, k);
    ReplacedTag(p, |p.seen| - 1);
    assert p.info.script.onMetadataSize != 0 ==> k > 0 && ReplacedBefore(p, k);
    NoOvershoot(p, k);
  }

  /**
   * The seek index is exact: with the old onMetaData absent or first and times that never fall, every
   * stored position is the offset of its keyframe in the output.
   */
  lemma IndexIsExact(p: Plan, i: nat)
    requires Ready(p) && MetadataLeads(p) && TimesNeverFall(p) && i < |p.info.keys.positions|
    ensures |KeyTags(p.opts, p.seen)| == |p.info.keys.positions|
    ensures var k := KeyTags(p.opts, p.seen)[i];
            && k < |p.seen| && OutIndex(p, k) < |p.All()| && p.All()[OutIndex(p, k)] == p.Copy(k)
            && PredictedPosition(p.opts, p.info, i) == Offset(p.All(), OutIndex(p, k))
  {
    hide *;
    IndexError(p, i);
    NothingMisplaced(p, KeyTags(p.opts, p.seen)[i]);
  }

  /**
   * When an old onMetaData tag is replaced, wherever it stands, a stored position is right exactly if two errors are
   * none or cancel: a keyframe in front of that tag is moved by the growth of the metadata all the same, and one later
   * than the last tag by an onLastSecond tag that is not in front of it.
   */
  lemma PositionIsRight(p: Plan, i: nat, r: nat)
    requires Ready(p) && (!InsertsLastSecond(p.opts, p.info) || TimesNeverFall(p)) && i < |p.info.keys.positions|
    requires r < |p.seen| && p.Replaced(r)
    ensures |KeyTags(p.opts, p.seen)| == |p.info.keys.positions|
    ensures var k := KeyTags(p.opts, p.seen)[i];
            && k < |p.seen| && !p.Replaced(k) && OutIndex(p, k) < |p.All()| && p.All()[OutIndex(p, k)] == p.Copy(k)
            && (PredictedPosition(p.opts, p.info, i) == Offset(p.All(), OutIndex(p, k))
                <==> Overshoot(p, k) + (if k < r then NewSize(p) - (p.seen[r].Length() + 15) else 0) == 0)
  {
    hide Gather, Named, BodySize, Encode, KeyTags, PredictedPosition, AllBytes, Misplaced, Overshoot;
    IndexError(p, i);
    var k := KeyTags(p.opts, p.seen)[i];
    MisplacedBy(p, k);
    ReplacedTag(p, r);
    assert ReplacedBefore(p, k) <==> r < k;
  }

  /**
   * A keyframe in front of the old onMetaData tag, that tag not being the last, with or without an onLastSecond tag:
   * its position is right only if the new tag is as big as the old one.
   */
  lemma EarlyKeyframeIsMisplaced(p: Plan, i: nat, r: nat)
    requires Ready(p) && i < |p.info.keys.positions| && r < |p.seen| && p.Replaced(r)
    requires !InsertsLastSecond(p.opts, p.info) || (TimesNeverFall(p) && r < |p.seen| - 1)
    ensures |KeyTags(p.opts, p.seen)| == |p.info.keys.positions|
    ensures var k := KeyTags(p.opts, p.seen)[i];
            && k < |p.seen| && !p.Replaced(k) && OutIndex(p, k) < |p.All()| && p.All()[OutIndex(p, k)] == p.Copy(k)
            && (PredictedPosition(p.opts, p.info, i) == Offset(p.All(), OutIndex(p, k))
                <==> r < k || NewSize(p) == p.seen[r].Length() + 15)
  {
    hide Gather, Named, BodySize, Encode, KeyTags, PredictedPosition, AllBytes;
    PositionIsRight(p, i, r);
    var k := KeyTags(p.opts, p.seen)[i];
    ReplacedTag(p, r);
    if InsertsLastSecond(p.opts, p.info) {
      NoOvershoot(p, k);
    }
  }

  // ----- totals -----

  lemma TotalsOfAll(p: Plan)
    requires Ready(p)
    ensures 13 + |AllBytes(p.All())| == EndOf(p.seen) + NewSize(p) - p.info.script.onMetadataSize
                                        + (if p.InsertedBefore(|p.seen|) then 38 else 0)
  {
    hide Gather, Named, BodySize, Encode, AllBytes;
    Placement(p, |p.seen|);
    SomeReplaced(p);
    assert p.seen[..|p.seen|] == p.seen;
  }

  /** The stored file size is that of the output exactly if an onLastSecond tag that is counted is also written. */
  lemma FileSizeIsExact(p: Plan, header: bytes)
    requires Ready(p) && |header| == 9
    ensures var counted := InsertsLastSecond(p.opts, p.info); var written := p.InsertedBefore(|p.seen|);
            && PredictedFileSize(p.opts, p.info)
              == |FileBytes(header, p.All())| + (if counted && !written then 38 else 0)
            && (PredictedFileSize(p.opts, p.info) == |FileBytes(header, p.All())|
                <==> counted ==> exists k | 0 <= k < |p.seen| :: p.Late(k))
  {
    hide Gather, Named, BodySize, Encode, AllBytes, EndOf;
    TotalsOfAll(p);
    CountedSizes(p.opts, p.seen);
    assert NewTagSize(p.opts, p.info) == NewSize(p);
  }

  /** 11 bytes of header and the body, of every script tag. */
  function DataBytes(ts: seq<OutTag>): nat {
    if ts == [] then 0 else
      var t := ts[|ts| - 1];
      DataBytes(ts[..|ts| - 1]) + if t.kind == META then 11 + |t.body| else 0
  }

  lemma {:induction false} DataAppend(a: seq<OutTag>, b: seq<OutTag>)
    ensures DataBytes(a + b) == DataBytes(a) + DataBytes(b)
  {
    if b == [] {
      assert a + b == a;
    } else {
      assert (a + b)[..|a + b| - 1] == a + b[..|b| - 1];
      DataAppend(a, b[..|b| - 1]);
    }
  }

  lemma DataOfFew(s: OutTag, t: OutTag)
    ensures DataBytes([]) == 0
    ensures DataBytes([t]) == if t.kind == META then 11 + |t.body| else 0
    ensures DataBytes([s, t]) == DataBytes([s]) + DataBytes([t])
  {
    assert [s, t][..1] == [s] && [t][..0] == [];
  }

  lemma DataOfBecomes(p: Plan, k: nat)
    requires k < |p.seen| && (p.Replaced(k) || p.seen[k].tag.Complete())
    ensures DataBytes(p.Becomes(k))
         == if p.Replaced(k) then 11 + |p.MetadataTag().body|
            else (if p.Copy(k).kind == META then 11 + p.seen[k].Length() else 0) + (if p.InsertsAt(k) then 34 else 0)
  {
    hide DataBytes, Encode, BodySize;
    OnLastSecondSize();
    DataOfFew(p.MetadataTag(), p.MetadataTag());
    DataOfFew(p.LastSecondTag(k), p.Copy(k));
    DataOfFew(p.LastSecondTag(k), p.LastSecondTag(k));
    assert [p.LastSecondTag(k)] + [p.Copy(k)] == [p.LastSecondTag(k), p.Copy(k)] && [] + [p.Copy(k)] == [p.Copy(k)];
  }

  /** Once found, the onMetaData tag stays the one. */
  lemma {:induction false} FoundStays(opts: Options, seen: seq<Seen>, n: nat)
    requires n <= |seen|
    ensures var i, j := Gather(opts, seen[..n]).script, Gather(opts, seen).script;
            i.onMetadataSize != 0 ==> j.onMetadataSize == i.onMetadataSize && j.onMetadataOffset == i.onMetadataOffset
    decreases |seen|
  {
    hide StepCommon, Step, Named;
    if n < |seen| {
      var front := seen[..|seen| - 1];
      FoundStays(opts, front, n);
      assert front[..n] == seen[..n];
      ScriptOfStep(opts, Gather(opts, front), seen[|seen| - 1]);
    } else {
      assert seen[..n] == seen;
    }
  }

  /** The tag that is replaced is the one the first pass has found. */
  lemma ReplacedIffFound(p: Plan, n: nat)
    requires Ready(p) && n < |p.seen|
    ensures p.Replaced(n) <==> p.seen[n].Kind() == META && IsOnMetadata(Gather(p.opts, p.seen[..n]).script, p.seen[n])
    ensures ReplacedBefore(p, n) <==> Gather(p.opts, p.seen[..n]).script.onMetadataSize != 0
  {
    hide Step, Named, BodySize, Encode;
    FoundAt(p, n);
    ReplacedTag(p, n);
    var i := Gather(p.opts, p.seen[..n]).script;
    FoundMetadata(p.opts, p.seen[..n]);
    FoundStays(p.opts, p.seen, n);
    if i.onMetadataSize != 0 {
      var k :| 0 <= k < n && IsReplaced(i, p.seen[..n], k);
      assert p.Replaced(k);
    } else if k :| 0 <= k < n && p.Replaced(k) {
      FoundAt(p, k);
      ReplacedTag(p, k);
      NotFoundBefore(p.opts, p.seen, k, n);
    }
  }

  /** A tag that is taken for onMetaData is the one that is replaced. */
  lemma FoundAt(p: Plan, n: nat)
    requires Ready(p) && n < |p.seen|
    ensures p.seen[n].Kind() == META && IsOnMetadata(Gather(p.opts, p.seen[..n]).script, p.seen[n]) ==> p.Replaced(n)
  {
    hide Step, Named, BodySize, Encode;
    assert p.seen[..n + 1][..n] == p.seen[..n];
    ScriptOfStep(p.opts, Gather(p.opts, p.seen[..n]), p.seen[n]);
    FoundStays(p.opts, p.seen, n + 1);
  }

  /** Nothing found up to n means nothing to find up to n. */
  lemma {:induction false} NotFoundBefore(opts: Options, seen: seq<Seen>, k: nat, n: nat)
    requires k < n <= |seen| && Gather(opts, seen[..n]).script.onMetadataSize == 0
    ensures !(seen[k].Kind() == META && Named(seen[k], ON_METADATA))
  {
    hide Step, Named;
    assert seen[..k + 1][..k] == seen[..k];
    assert seen[..n][..k + 1] == seen[..k + 1];
    ScriptOfStep(opts, Gather(opts, seen[..k]), seen[k]);
    FoundStays(opts, seen[..n], k + 1);
    assert seen[..n][..k] == seen[..k];
    FoundStays(opts, seen[..n], k);
  }

  lemma {:induction false} DataUpto(p: Plan, n: nat)
    requires Ready(p) && n <= |p.seen|
    ensures DataBytes(p.Upto(n)) == Gather(p.opts, p.seen[..n]).script.dataSize
                                    + (if p.info.script.onMetadataSize == 0 || ReplacedBefore(p, n) then NewSize(p) - 4
                                      else 0)
                                    + (if p.InsertedBefore(n) then 34 else 0)
  {
    hide DataBytes, Step, Named, BodySize, Encode;
    if n == 0 {
      DataOfFew(p.MetadataTag(), p.MetadataTag());
    } else {
      var k := n - 1;
      DataUpto(p, k);
      DataAppend(p.Upto(k), p.Becomes(k));
      DataOfBecomes(p, k);
      ReplacedIffFound(p, k);
      assert p.seen[..n][..k] == p.seen[..k];
      ScriptOfStep(p.opts, Gather(p.opts, p.seen[..k]), p.seen[k]);
      FlagsNext(p, k);
    }
  }

  lemma FlagsNext(p: Plan, n: nat)
    requires Ready(p) && n < |p.seen|
    ensures ReplacedBefore(p, n + 1) <==> ReplacedBefore(p, n) || p.Replaced(n)
    ensures p.InsertedBefore(n + 1) <==> p.InsertedBefore(n) || p.InsertsAt(n)
    ensures !(p.InsertedBefore(n) && p.InsertsAt(n)) && !(ReplacedBefore(p, n) && p.Replaced(n))
    ensures p.Replaced(n) ==> p.info.script.onMetadataSize != 0 && !p.InsertsAt(n)
  {
    hide Gather, Named, BodySize, Encode;
    ReplacedTag(p, n);
  }

  /** The stored data size is that of the script tags of the output, under the same condition as the file size. */
  lemma DataSizeIsExact(p: Plan)
    requires Ready(p)
    ensures var counted := InsertsLastSecond(p.opts, p.info); var written := p.InsertedBefore(|p.seen|);
            && PredictedDataSize(p.opts, p.info) == DataBytes(p.All()) + (if counted && !written then 34 else 0)
            && (PredictedDataSize(p.opts, p.info) == DataBytes(p.All())
                <==> counted ==> exists k | 0 <= k < |p.seen| :: p.Late(k))
  {
    hide Gather, Named, BodySize, Encode, DataBytes;
    DataUpto(p, |p.seen|);
    SomeReplaced(p);
    assert p.seen[..|p.seen|] == p.seen;
  }

  // ----- content -----

  /** The number of output tags up to input tag n. */
  lemma {:induction false} CountUpto(p: Plan, n: nat)
    requires Ready(p) && n <= |p.seen|
    ensures |p.Upto(n)|
            == n + (if p.info.script.onMetadataSize == 0 then 1 else 0) + (if p.InsertedBefore(n) then 1 else 0)
  {
    hide Gather, Named, BodySize, Encode;
    if n > 0 {
      CountUpto(p, n - 1);
      FlagsNext(p, n - 1);
    }
  }

  /**
   * Content is kept: the copies of all tags but the replaced one stand in the output in their order, with type,
   * stream and body unchanged and the corrected time; besides them there is one onMetaData tag, in front or in
   * the place of the old one, and at most one onLastSecond tag, in front of the first late tag.
   */
  lemma ContentIsKept(p: Plan)
    requires Ready(p)
    ensures forall k | 0 <= k < |p.seen| && !p.Replaced(k) ::
              OutIndex(p, k) < |p.All()| && p.All()[OutIndex(p, k)] == p.Copy(k)
    ensures forall j, k | 0 <= j < k < |p.seen| :: OutIndex(p, j) < OutIndex(p, k)
    ensures |p.All()| == |p.seen| + (if p.info.script.onMetadataSize == 0 then 1 else 0)
            + (if p.InsertedBefore(|p.seen|) then 1 else 0)
    ensures p.info.script.onMetadataSize == 0 ==> p.All()[0] == p.MetadataTag()
    ensures forall k | 0 <= k < |p.seen| && p.Replaced(k) ::
      |p.Upto(k)| < |p.All()| && p.All()[|p.Upto(k)|] == p.MetadataTag()
    ensures forall k | 0 <= k < |p.seen| && p.InsertsAt(k) ::
              OutIndex(p, k) > 0 && OutIndex(p, k) <= |p.All()| && p.All()[OutIndex(p, k) - 1] == p.LastSecondTag(k)
  {
    hide *;
    CountUpto(p, |p.seen|);
    AllIsUpto(p);
    forall k | 0 <= k < |p.seen| && !p.Replaced(k)
      ensures OutIndex(p, k) < |p.All()| && p.All()[OutIndex(p, k)] == p.Copy(k)
    {
      CopyPlace(p, k);
    }
    forall k | 0 <= k < |p.seen| && p.Replaced(k)
      ensures |p.Upto(k)| < |p.All()| && p.All()[|p.Upto(k)|] == p.MetadataTag()
    {
      ReplacedPlace(p, k);
    }
    forall k | 0 <= k < |p.seen| && p.InsertsAt(k)
      ensures OutIndex(p, k) > 0 && OutIndex(p, k) <= |p.All()| && p.All()[OutIndex(p, k) - 1] == p.LastSecondTag(k)
    {
      InsertedPlace(p, k);
    }
    forall j, k | 0 <= j < k < |p.seen| ensures OutIndex(p, j) < OutIndex(p, k) {
      IndexRises(p, j, k);
    }
    UptoPrefix(p, 0, |p.seen|);
  }

  lemma AllIsUpto(p: Plan)
    ensures p.All() == p.Upto(|p.seen|)
    ensures p.info.script.onMetadataSize == 0 ==> p.Upto(0) == [p.MetadataTag()]
  {
    hide Encode;
  }

  lemma ReplacedPlace(p: Plan, k: nat)
    requires k < |p.seen| && p.Replaced(k)
    ensures |p.Upto(k)| < |p.All()| && p.All()[|p.Upto(k)|] == p.MetadataTag()
  {
    UptoPrefix(p, k + 1, |p.seen|);
    assert p.Upto(k + 1) == p.Upto(k) + p.Becomes(k);
  }

  lemma InsertedPlace(p: Plan, k: nat)
    requires Ready(p) && k < |p.seen| && p.InsertsAt(k)
    ensures OutIndex(p, k) == |p.Upto(k)| + 1 <= |p.All()| && p.All()[|p.Upto(k)|] == p.LastSecondTag(k)
  {
    hide AllBytes, Gather, Encode, BodySize, Named;
    assert !p.Replaced(k);
    CopyPlace(p, k);
  }

  lemma IndexRises(p: Plan, j: nat, k: nat)
    requires Ready(p) && j < k < |p.seen|
    ensures OutIndex(p, j) < OutIndex(p, k)
  {
    hide Gather, Named, BodySize, Encode;
    CountUpto(p, j);
    CountUpto(p, k);
    FlagsNext(p, j);
    assert p.InsertsAt(j) ==> p.InsertedBefore(k);
    assert p.InsertedBefore(j) ==> p.InsertedBefore(k);
  }
}
