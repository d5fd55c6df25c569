/** What the first pass sees when it reads a file the second pass has written. */
module FlvRescan {
  import opened Bytes
  import opened Amf
  import opened Flv
  import opened FlvClock
  import opened FlvStream
  import opened FlvInfo
  import opened FlvMetadata
  import opened FlvUpdate
  import opened FlvLayout
  import opened FlvTheorems
  import Laws = AmfLaws

  // ----- script bodies -----

  /** A script body that starts with a written name and value, which read back. */
  ghost predicate Holds(body: bytes, name: Data, value: Data) {
    && |Encode(name) + Encode(value)| <= |body|
      && body[..|Encode(name) + Encode(value)|] == Encode(name) + Encode(value)
    && Laws.Fits(name) && Laws.Named(name) && Laws.Fits(value) && Laws.Named(value)
  }

  /** Such a body reads the same wherever it stands, and leaves the stream in step. */
  lemma ScriptReadsBack(file: bytes, pos: nat, body: bytes, name: Data, value: Data)
    requires At(file, pos, body) && Holds(body, name, value)
    ensures ReadScript(file, pos, |body|).0 == Script(name, value)
    ensures KeepsStep(file, pos, |body|)
  {
    hide Encode, ParseData, Laws.Fits, Laws.Named;
    var src := Input(file, true);
    var n, v := Encode(name), Encode(value);
    AtSlice(file, pos, body, 0, |n + v|);
    AtAppend(file, pos, n, v);
    Laws.RoundTrip(src, Cursor(pos, false), name);
    Laws.RoundTrip(src, Cursor(pos + |n|, false), value);
  }

  /** A script tag of the input that is empty, so that nothing is read, or whose body reads back. */
  ghost predicate Canonical(s: Seen) {
    s.Kind() == META ==>
      if s.Length() == 0 then s.script.BadName?
      else s.script.Script? && Holds(s.tag.body, s.script.name, s.script.value)
  }

  ghost predicate AllCanonical(seen: seq<Seen>) {
    forall s | s in seen :: Canonical(s)
  }

  /** Members added by the user must be readable. */
  ghost predicate Readable(opts: Options) {
    Laws.MembersNamed(opts.metadata, true)
  }

  // ----- the injected bodies read back -----

  /** A tree that is written in less than 4 GiB fits its own counts. */
  lemma {:induction false} SmallFits(d: Data)
    requires |Encode(d)| < 0x1_0000_0000
    ensures Laws.Fits(d)
    decreases d, 1
  {
    hide EcmaCount, ArrayCount;
    match d
    case Object(ms) => SmallMembersFit(ms);
    case EcmaArray(ms) => SmallMembersFit(ms);
    case Array(es) => SmallElementsFit(es);
    case _ =>
  }

  lemma {:induction false} SmallMembersFit(ms: seq<Member>)
    requires |EncodeMembers(ms)| < 0x1_0000_0000
    ensures Laws.MembersFit(ms)
    decreases ms, 0
  {
    hide Encode, Laws.Fits;
    if ms != [] {
      SmallFits(ms[0].value);
      SmallMembersFit(ms[1..]);
      assert forall m | m in ms :: m == ms[0] || m in ms[1..];
    }
  }

  lemma {:induction false} SmallElementsFit(es: seq<Data>)
    requires |EncodeElements(es)| < 0x1_0000_0000
    ensures |es| <= |EncodeElements(es)| && forall e | e in es :: Laws.Fits(e)
    decreases es, 0
  {
    hide Encode, Laws.Fits;
    if es != [] {
      SmallFits(es[0]);
      SmallElementsFit(es[1..]);
      assert forall e | e in es :: e == es[0] || e in es[1..];
    }
  }

  ghost predicate AllNamed(ms: seq<Member>) {
    Laws.MembersNamed(ms, true)
  }

  lemma NamedJoin(a: seq<Member>, b: seq<Member>)
    requires AllNamed(a) && AllNamed(b)
    ensures AllNamed(a + b)
  {
    hide Laws.Named;
  }

  lemma GeneralNamed(opts: Options, info: Info, d: real)
    ensures AllNamed(GeneralFields(opts, info, d))
  {
    hide AmfName;
  }

  lemma VideoFieldsNamed(opts: Options, info: Info, d: real)
    ensures AllNamed(VideoFields(opts, info, d))
  {
    hide AmfName, Quotient;
  }

  lemma AudioFieldsNamed(opts: Options, info: Info, d: real)
    ensures AllNamed(AudioFields(opts, info, d)) && AllNamed(CodecFields(opts, info))
  {
    hide AmfName, Quotient, SampleRate, Signed32;
  }

  lemma LeadingNamed(opts: Options, info: Info)
    requires Readable(opts)
    ensures AllNamed(Leading(opts, info))
  {
    hide AmfName, Duration, GeneralFields, VideoFields, AudioFields, Laws.Named;
    var d := Duration(opts, info);
    GeneralNamed(opts, info, d);
    VideoFieldsNamed(opts, info, d);
    AudioFieldsNamed(opts, info, d);
  }

  lemma AfterDateNamed(opts: Options, info: Info)
    ensures AllNamed(AfterDate(opts, info))
  {
    hide AmfName, CodecFields, AllNamed;
    AudioFieldsNamed(opts, info, 0.0);
    NamedLeaf("canSeekToEnd", Flag(info.keys.canSeekToEnd));
    NamedLeaf("hasCuePoints", Flag(false));
    NamedLeaf("cuePoints", Array([]));
    NamedLeaf("hasKeyframes", Flag(info.keys.present));
    var a, b, c, d := Entry("canSeekToEnd", Flag(info.keys.canSeekToEnd)), Entry("hasCuePoints", Flag(false)),
      Entry("cuePoints", Array([])), Entry("hasKeyframes", Flag(info.keys.present));
    NamedJoin(CodecFields(opts, info), a);
    NamedJoin(CodecFields(opts, info) + a, b);
    NamedJoin(CodecFields(opts, info) + a + b, c);
    NamedJoin(CodecFields(opts, info) + a + b + c, d);
  }

  lemma NamedLeaf(name: string, value: Data)
    requires 0 < |name| < 0x1_0000 && name[0] as int % 256 != 0
    requires value.Number? || value.Boolean? || value.String? || value.Date? || value == Array([])
    ensures AllNamed(Entry(name, value))
  {
    hide AmfName;
  }

  lemma TrailingNamed(opts: Options, info: Info)
    ensures AllNamed(Trailing(opts, info)) && AllNamed(Sizes(opts, info))
  {
    hide AmfName, CString, AfterDate;
    AfterDateNamed(opts, info);
  }

  lemma KeyframesNamed(opts: Options, info: Info, positions: seq<int>)
    ensures Laws.Named(Keyframes(opts, info, positions))
  {
    hide AmfName;
    var times, offsets := FlvMetadata.Times(opts, info), Positions(opts, positions);
    assert Laws.Named(Array(times)) && Laws.Named(Array(offsets));
    assert AllNamed(Entry("times", Array(times))) && AllNamed(Entry("filepositions", Array(offsets)));
    NamedJoin(Entry("times", Array(times)), Entry("filepositions", Array(offsets)));
  }

  lemma OnMetadataNamed(opts: Options, info: Info, positions: seq<int>, fileSize: int, dataSize: int)
    requires Readable(opts)
    ensures Laws.Named(OnMetadata(opts, info, positions, fileSize, dataSize))
  {
    hide AmfName, Leading, Trailing, Sizes, Keyframes;
    LeadingNamed(opts, info);
    TrailingNamed(opts, info);
    KeyframesNamed(opts, info, positions);
  }

  /** The new onMetaData body reads back as the tree that was stored. */
  lemma MetadataHolds(opts: Options, info: Info, positions: seq<int>, fileSize: int, dataSize: int)
    requires Readable(opts) && |OnMetadataBody(OnMetadata(opts, info, positions, fileSize, dataSize))| < 0x100_0000
    ensures var d := OnMetadata(opts, info, positions, fileSize, dataSize);
            Holds(OnMetadataBody(d), ON_METADATA_NAME, d)
  {
    hide OnMetadata, Encode;
    var d := OnMetadata(opts, info, positions, fileSize, dataSize);
    OnMetadataNamed(opts, info, positions, fileSize, dataSize);
    SmallFits(d);
  }

  lemma LastSecondHolds()
    ensures Holds(OnLastSecondBody(), ON_LAST_SECOND_NAME, ON_LAST_SECOND_VALUE)
  {
    hide Encode;
  }

  // ----- the tags of the output -----

  ghost predicate Sorted(ts: seq<OutTag>) {
    forall i, j | 0 <= i < j < |ts| :: ts[i].timestamp <= ts[j].timestamp
  }

  /** Nothing written so far is later than what is still to be copied. */
  ghost predicate Earlier(ts: seq<OutTag>, p: Plan, n: nat) {
    forall t, k | t in ts && n <= k < |p.seen| && !p.Replaced(k) :: t.timestamp <= p.Time(k)
  }

  lemma {:induction false} SortedUpto(p: Plan, n: nat)
    requires Ready(p) && MetadataLeads(p) && TimesNeverFall(p) && n <= |p.seen|
    ensures Sorted(p.Upto(n)) && Earlier(p.Upto(n), p, n)
  {
    hide Gather, BodySize, Encode, Shift, Named;
    if n > 0 {
      var k := n - 1;
      SortedUpto(p, k);
      ReplacedTag(p, k);
      ReplacedTag(p, 0);
      UptoStep(p, k);
      if p.Replaced(k) {
        assert k == 0;
      } else {
        forall t | t in p.Becomes(k) ensures t.timestamp == p.Time(k) {}
      }
    }
  }

  lemma BodiesFit(p: Plan, n: nat)
    requires Ready(p) && n <= |p.seen|
    ensures Representable(p.Upto(n))
  {
    hide Gather, BodySize, Encode, Shift, Named;
    OnLastSecondSize();
    if n > 0 {
      BodiesFit(p, n - 1);
      UptoStep(p, n - 1);
    }
  }

  lemma {:induction false} TagOfFile(file: bytes, offset: nat, k: nat)
    requires k < |Tags(file, offset)|
    ensures var t := Tags(file, offset)[k]; t.offset + 11 <= |file| && t == TagAt(file, t.offset)
    decreases k
  {
    hide TagAt;
    if k > 0 {
      TagOfFile(file, TagAt(file, offset).End(), k - 1);
    }
  }

  /** A written file is seen as its tags, with the times that were written if those never fall. */
  lemma WrittenIsSeen(header: bytes, ts: seq<OutTag>)
    requires |header| == 9 && Representable(ts) && Sorted(ts)
    ensures var file := FileBytes(header, ts); var seen := SeenIn(file);
            && |seen| == |ts|
            && forall i | 0 <= i < |ts| ::
              seen[i] == Seen(Placed(ts)[i], ts[i].timestamp, ScriptOf(file, Placed(ts)[i]))
  {
    hide Tags, AllBytes, FileBytes, After, ScriptOf, Offset;
    WrittenIsRead(header, ts);
    assert NeverEarlier(Placed(ts));
    RisingIsCorrect(Placed(ts));
  }

  lemma ScriptOfPlaced(header: bytes, ts: seq<OutTag>, i: nat, name: Data, value: Data)
    requires |header| == 9 && Representable(ts) && i < |ts| && ts[i].kind == META
    requires Holds(ts[i].body, name, value)
    ensures var file := FileBytes(header, ts);
            && ScriptOf(file, Placed(ts)[i]) == Script(name, value)
            && KeepsStep(file, Placed(ts)[i].BodyStart(), |ts[i].body|)
  {
    hide Tags, AllBytes, FileBytes, ReadScript, KeepsStep, Offset, Laws.Fits, Laws.Named, Encode, DecodeHeader;
    var file, t := FileBytes(header, ts), Placed(ts)[i];
    WrittenIsRead(header, ts);
    TagOfFile(file, FIRST_TAG, i);
    assert At(file, t.BodyStart(), ts[i].body);
    ScriptReadsBack(file, t.BodyStart(), ts[i].body, name, value);
    assert Encode(name) != [];
  }
}
