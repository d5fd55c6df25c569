/** What a player finds in an updated file, and which files can be updated at all. */
module FlvPlayer {
  import opened Bytes
  import opened Amf
  import opened AmfLaws
  import opened Flv
  import opened FlvStream
  import opened FlvInfo
  import opened FlvMetadata
  import opened FlvUpdate
  import opened FlvLayout
  import opened FlvTheorems
  import opened FlvRescan
  import opened FlvFixpoint
  import opened FlvUpdater

  // ----- the size of the new metadata -----

  lemma {:induction false} MembersAppend(a: seq<Member>, b: seq<Member>)
    ensures |EncodeMembers(a + b)| == |EncodeMembers(a)| + |EncodeMembers(b)|
  {
    hide EncodeMember;
    if a == [] {
      assert a + b == b;
    } else {
      assert (a + b)[1..] == a[1..] + b;
      MembersAppend(a[1..], b);
    }
  }

  /** A member with a short name and a value of at most 11 bytes. */
  predicate Small(m: Member) {
    |m.name| < 30 && (m.value.Number? || m.value.Boolean? || m.value.Date? || m.value == Array([]))
  }

  lemma {:induction false} SmallMembers(ms: seq<Member>)
    requires forall m | m in ms :: Small(m)
    ensures |EncodeMembers(ms)| <= 42 * |ms|
  {
    if ms != [] {
      SmallMember(ms[0]);
      SmallMembers(ms[1..]);
    }
  }

  lemma SmallMember(m: Member)
    requires Small(m)
    ensures |EncodeMember(m)| <= 42
  {
  }

  ghost predicate AllSmall(ms: seq<Member>) {
    forall m | m in ms :: Small(m)
  }

  lemma SmallGeneral(opts: Options, info: Info, d: real)
    ensures AllSmall(GeneralFields(opts, info, d)) && |GeneralFields(opts, info, d)| == 6
  {
    hide AmfName;
  }

  lemma SmallVideo(opts: Options, info: Info, d: real)
    ensures AllSmall(VideoFields(opts, info, d)) && |VideoFields(opts, info, d)| <= 4
  {
    hide AmfName, Quotient;
  }

  lemma SmallAudio(opts: Options, info: Info, d: real)
    ensures AllSmall(AudioFields(opts, info, d)) && |AudioFields(opts, info, d)| == 4
  {
    hide AmfName, Quotient, SampleRate;
  }

  lemma SmallAfterDate(opts: Options, info: Info)
    ensures AllSmall(AfterDate(opts, info)) && |AfterDate(opts, info)| <= 7
  {
    hide AmfName, Signed32;
  }

  lemma SmallSizes(opts: Options, info: Info, fileSize: int, dataSize: int)
    ensures AllSmall(Sizes(opts, info)) && |Sizes(opts, info)| <= 2
    ensures AllSmall(Entry("filesize", Int(opts, fileSize))) && AllSmall(Entry("datasize", Int(opts, dataSize)))
    ensures AllSmall(Entry("metadatadate", Date(opts.store(opts.now), 0)))
  {
    hide AmfName;
  }

  lemma LeadingSize(opts: Options, info: Info)
    ensures |EncodeMembers(Leading(opts, info))| <= |EncodeMembers(opts.metadata)| + 588
  {
    hide EncodeMembers, Duration, GeneralFields, VideoFields, AudioFields, Small;
    var d := Duration(opts, info);
    var a, v, n := GeneralFields(opts, info, d), VideoFields(opts, info, d), AudioFields(opts, info, d);
    SmallGeneral(opts, info, d);
    SmallVideo(opts, info, d);
    SmallAudio(opts, info, d);
    SmallMembers(a);
    SmallMembers(v);
    SmallMembers(n);
    MembersAppend(opts.metadata, a);
    MembersAppend(opts.metadata + a, v);
    MembersAppend(opts.metadata + a + v, n);
    assert opts.metadata + a + v + [] == opts.metadata + a + v;
  }

  lemma TrailingSize(opts: Options, info: Info)
    ensures |EncodeMembers(Trailing(opts, info))| <= |opts.creator| + 356
  {
    hide EncodeMembers, AfterDate, Small, Entry, CString, AmfName;
    var c, t, a := Entry("metadatacreator", String(CString(opts.creator))),
      Entry("metadatadate", Date(opts.store(opts.now), 0)),
      AfterDate(opts, info);
    SmallAfterDate(opts, info);
    SmallSizes(opts, info, 0, 0);
    SmallMembers(a);
    SmallMembers(t);
    EntrySize("metadatacreator", String(CString(opts.creator)));
    EntrySize("metadatadate", Date(opts.store(opts.now), 0));
    MembersAppend(c, t);
    MembersAppend(c + t, a);
  }

  lemma EntrySize(name: string, value: Data)
    requires |name| < 0x1_0000
    ensures |Entry(name, value)| == 1 && |EncodeMembers(Entry(name, value))| <= 2 + |name| + |Encode(value)|
  {
    hide Encode, AmfName;
    assert EncodeMembers([]) == [];
  }

  lemma {:induction false} NumbersSize(es: seq<Data>)
    requires forall e | e in es :: e.Number?
    ensures |EncodeElements(es)| == 9 * |es|
  {
    if es != [] {
      NumbersSize(es[1..]);
    }
  }

  lemma IndexSize(opts: Options, info: Info, positions: seq<int>)
    ensures |Encode(Keyframes(opts, info, positions))| <= 36 + 9 * |info.keys.times| + 9 * |positions|
  {
    hide EncodeMembers, EncodeElements, Entry, AmfName;
    var times, offsets := FlvMetadata.Times(opts, info), Positions(opts, positions);
    NumbersSize(times);
    NumbersSize(offsets);
    EntrySize("times", Array(times));
    EntrySize("filepositions", Array(offsets));
    MembersAppend(Entry("times", Array(times)), Entry("filepositions", Array(offsets)));
  }

  /**
   * The new onMetaData tag is small: besides the user's members, the creator and the index, which takes 18 bytes a
   * keyframe, its body has at most 1200 bytes.
   */
  lemma MetadataIsSmall(opts: Options, info: Info)
    requires |info.keys.positions| == |info.keys.times|
    ensures BodySize(opts, info) <= |EncodeMembers(opts.metadata)| + |opts.creator| + 18 * |info.keys.times| + 1200
  {
    hide EncodeMembers, Leading, Sizes, Trailing, Entry, Keyframes, Small, AmfName;
    var a, f, z := Leading(opts, info), Entry("filesize", Int(opts, 0)), Sizes(opts, info);
    var d, t, k := Entry("datasize", Int(opts, 0)), Trailing(opts, info), Keyframes(opts, info, info.keys.positions);
    LeadingSize(opts, info);
    SmallSizes(opts, info, 0, 0);
    SmallMembers(z);
    SmallMembers(f);
    SmallMembers(d);
    EntrySize("filesize", Int(opts, 0));
    EntrySize("datasize", Int(opts, 0));
    TrailingSize(opts, info);
    IndexSize(opts, info, info.keys.positions);
    EntrySize("keyframes", k);
    MembersAppend(a, f);
    MembersAppend(a + f, z);
    MembersAppend(a + f + z, d);
    MembersAppend(a + f + z + d, t);
    MembersAppend(a + f + z + d + t, Entry("keyframes", k));
    assert OnMetadata(opts, info, info.keys.positions, 0, 0) == EcmaArray(a + f + z + d + t + Entry("keyframes", k));
  }

  // ----- files that can be updated -----

  /** A media tag the first pass gets over whatever came before: audio, or video that shows its frame size. */
  ghost predicate Playable(opts: Options, t: OutTag) {
    || (t.kind == AUDIO && t.body != [])
    || (t.kind == VIDEO && t.body != [] && VideoHeaderSize(t.body[0]) <= |t.body|
        && forall f: Frame | f.unread == t.body[VideoHeaderSize(t.body[0])..] :: opts.probe(f).Sized?)
  }

  /** A framed FLV file of media tags whose times never fall, small enough for its index to fit a tag. */
  ghost predicate Plain(opts: Options, header: bytes, ts: seq<OutTag>) {
    && |header| == 9 && header[..3] == [70, 76, 86] && ts != []
    && Representable(ts) && Sorted(ts) && (forall t | t in ts :: Playable(opts, t))
    && |EncodeMembers(opts.metadata)| + |opts.creator| + 18 * |ts| + 1200 < 0x100_0000
  }

  /** The first pass sees the tags as they were written. */
  ghost predicate SeenAs(opts: Options, ts: seq<OutTag>, seen: seq<Seen>) {
    && |seen| == |ts|
    && forall i | 0 <= i < |ts| ::
         && seen[i].Kind() == ts[i].kind && seen[i].Length() == |ts[i].body| && seen[i].tag.body == ts[i].body
         && seen[i].time == ts[i].timestamp && Playable(opts, ts[i])
  }

  lemma PlainIsSeen(opts: Options, header: bytes, ts: seq<OutTag>)
    requires Plain(opts, header, ts)
    ensures SeenAs(opts, ts, SeenIn(FileBytes(header, ts)))
  {
    hide SeenIn, FileBytes, ScriptOf, Offset, Playable;
    WrittenIsSeen(header, ts);
    var seen := SeenIn(FileBytes(header, ts));
    forall i | 0 <= i < |ts|
      ensures seen[i].Kind() == ts[i].kind && seen[i].Length() == |ts[i].body| && seen[i].tag.body == ts[i].body
      ensures seen[i].time == ts[i].timestamp && Playable(opts, ts[i])
    {
      assert ts[i] in ts;
    }
  }

  lemma PlayableIsAccepted(opts: Options, info: Info, t: OutTag, s: Seen)
    requires Playable(opts, t) && s.Kind() == t.kind && s.Length() == |t.body| && s.tag.body == t.body
    ensures Accepts(opts, info, s) && s.tag.Complete()
  {
    hide VideoHeaderSize, WithCodec, IsKeyframeByte;
  }

  lemma {:induction false} NoScripts(opts: Options, seen: seq<Seen>)
    requires forall s | s in seen :: s.Kind() != META
    ensures Gather(opts, seen).script == NO_INFO.script
  {
    hide Step;
    if seen != [] {
      NoScripts(opts, seen[..|seen| - 1]);
      ScriptOfStep(opts, Gather(opts, seen[..|seen| - 1]), seen[|seen| - 1]);
    }
  }

  lemma {:induction false} FewKeys(opts: Options, seen: seq<Seen>)
    ensures |KeyTags(opts, seen)| <= |seen|
  {
    hide AddsKey;
    if seen != [] {
      FewKeys(opts, seen[..|seen| - 1]);
    }
  }

  lemma ShiftKeepsOrder(opts: Options, first: uint32, a: uint32, b: uint32)
    requires first <= a <= b
    ensures Shift(opts, first, a) <= Shift(opts, first, b)
  {
  }

  lemma PlainTimes(p: Plan, ts: seq<OutTag>)
    requires SeenAs(p.opts, ts, p.seen) && ts != [] && Sorted(ts) && p.info == Gather(p.opts, p.seen)
    ensures TimesNeverFall(p)
  {
    hide Gather, Shift, Playable;
    FirstIsFirst(p, ts);
    forall j, k | 0 <= j < k < |p.seen| ensures p.Time(j) <= p.Time(k) {
      assert ts[0].timestamp <= ts[j].timestamp <= ts[k].timestamp;
      ShiftKeepsOrder(p.opts, p.info.first, p.seen[j].time, p.seen[k].time);
    }
  }

  lemma FirstIsFirst(p: Plan, ts: seq<OutTag>)
    requires SeenAs(p.opts, ts, p.seen) && ts != [] && p.info == Gather(p.opts, p.seen)
    ensures p.info.first == ts[0].timestamp
  {
    hide Step, Shift;
    assert Playable(p.opts, ts[0]) && p.seen[..0] == [];
    FirstIsFinal(p, 0);
  }

  /** The limits within which everything is promised are met by every plain file. */
  lemma PlainRepeats(opts: Options, header: bytes, ts: seq<OutTag>)
    requires Plain(opts, header, ts) && Readable(opts)
    ensures Repeats(opts, FileBytes(header, ts))
  {
    hide *;
    var file := FileBytes(header, ts);
    var p := PlanFor(opts, SeenIn(file));
    PlainIsSeen(opts, header, ts);
    SeenIsContiguous(file);
    PlainHas(opts, header, ts);
    PlainAccepted(p, ts);
    HeaderOfFile(header, ts);
    PlainTimes(p, ts);
    PlainKeys(p, ts);
    MetadataIsSmall(opts, p.info);
    PlainScripts(p, ts);
    RepeatsIntro(opts, header, file);
  }

  lemma PlainHas(opts: Options, header: bytes, ts: seq<OutTag>)
    requires Plain(opts, header, ts)
    ensures |header| == 9 && header[..3] == [70, 76, 86] && ts != [] && Sorted(ts)
    ensures |EncodeMembers(opts.metadata)| + |opts.creator| + 18 * |ts| + 1200 < 0x100_0000
  {
    hide EncodeMembers, Sorted, Representable, Playable;
  }

  lemma PlainAccepted(p: Plan, ts: seq<OutTag>)
    requires SeenAs(p.opts, ts, p.seen)
    ensures AcceptsAll(p.opts, p.seen) && p.Copyable()
  {
    hide Accepts, Gather, Playable;
    forall i | 0 <= i < |p.seen|
      ensures Accepts(p.opts, Gather(p.opts, p.seen[..i]), p.seen[i]) && p.seen[i].tag.Complete() {
      PlayableIsAccepted(p.opts, Gather(p.opts, p.seen[..i]), ts[i], p.seen[i]);
    }
  }

  lemma PlainKeys(p: Plan, ts: seq<OutTag>)
    requires SeenAs(p.opts, ts, p.seen) && p.info == Gather(p.opts, p.seen)
    ensures |p.info.keys.positions| == |p.info.keys.times| <= |ts|
  {
    hide Gather, Playable, KeyTags;
    FewKeys(p.opts, p.seen);
    IndexIsKeyTags(p.opts, p.seen);
  }

  lemma PlainScripts(p: Plan, ts: seq<OutTag>)
    requires SeenAs(p.opts, ts, p.seen) && ts != [] && p.info == Gather(p.opts, p.seen) && Contiguous(p.seen)
    ensures MetadataLeads(p) && HasOther(p) && AllCanonical(p.seen)
  {
    hide Gather, VideoHeaderSize;
    forall s | s in p.seen ensures s.Kind() != META {
      var i :| 0 <= i < |p.seen| && p.seen[i] == s;
      assert Playable(p.opts, ts[i]);
    }
    NoScripts(p.opts, p.seen);
    FirstOffset(p.seen, |p.seen| - 1);
  }

  lemma RepeatsIntro(opts: Options, header: bytes, file: bytes)
    requires |file| >= 9 && file[..9] == header && |header| == 9 && header[..3] == [70, 76, 86]
    requires var p := PlanFor(opts, SeenIn(file));
             && AcceptsAll(opts, p.seen) && p.Copyable() && BodySize(opts, p.info) < 0x100_0000
             && MetadataLeads(p) && TimesNeverFall(p) && HasOther(p) && AllCanonical(p.seen)
    requires Readable(opts)
    ensures Repeats(opts, file)
  {
    hide SeenIn, Gather, AcceptsAll, Plan.Copyable, BodySize, MetadataLeads, TimesNeverFall, HasOther, AllCanonical,
      Readable, FinalMetadata;
    assert file[..3] == file[..9][..3];
  }

  // ----- what a player reads -----

  /** A keyframe of the file with its time, in seconds, and its offset as an index entry gives them. */
  ghost predicate SeekPoint(opts: Options, t: Tag, time: Data, position: Data) {
    && t.header.kind == VIDEO && t.Complete() && t.body != [] && IsKeyframeByte(t.body[0])
    && time == Real(opts, t.header.timestamp as real / 1000.0) && position == Int(opts, t.offset)
  }

  ghost predicate SeekPoints(opts: Options, tags: seq<Tag>, times: seq<Data>, positions: seq<Data>) {
    && |times| == |positions|
    && forall i | 0 <= i < |times| :: Points(opts, tags, times[i], positions[i])
  }

  /** An index entry is a seek point of the file. */
  ghost predicate Points(opts: Options, tags: seq<Tag>, time: Data, position: Data) {
    exists m | 0 <= m < |tags| :: SeekPoint(opts, tags[m], time, position)
  }

  /** A video tag with its whole video header, which says keyframe. */
  predicate ShowsKeyframe(t: Tag) {
    && t.header.kind == VIDEO && t.body != [] && VideoHeaderSize(t.body[0]) <= |t.body| && IsKeyframeByte(t.body[0])
  }

  /** Every keyframe of the file can be found by its time. */
  ghost predicate AllListed(opts: Options, tags: seq<Tag>, times: seq<Data>) {
    forall m | 0 <= m < |tags| && ShowsKeyframe(tags[m]) ::
      exists i | 0 <= i < |times| :: times[i] == Real(opts, tags[m].header.timestamp as real / 1000.0)
  }

  function Index(times: seq<Data>, positions: seq<Data>): Data {
    Object(Entry("times", Array(times)) + Entry("filepositions", Array(positions)))
  }

  /** 11 bytes of header and the body, of every script tag of a file. */
  function ScriptBytes(tags: seq<Tag>): nat {
    if tags == [] then 0 else
      var t := tags[|tags| - 1];
      ScriptBytes(tags[..|tags| - 1]) + if t.header.kind == META then 11 + t.header.bodyLength else 0
  }

  lemma {:induction false} PlacedScriptBytes(ts: seq<OutTag>, n: nat)
    requires Representable(ts) && n <= |ts|
    ensures ScriptBytes(Placed(ts)[..n]) == DataBytes(ts[..n])
  {
    hide Offset;
    if n > 0 {
      PlacedScriptBytes(ts, n - 1);
      assert Placed(ts)[..n][..n - 1] == Placed(ts)[..n - 1] && ts[..n][..n - 1] == ts[..n - 1];
      assert ts[n - 1] in ts;
    }
  }

  predicate Avoids(members: seq<Member>, name: string) {
    forall m | m in members :: m.name != AmfName(name)
  }

  /** The first member of that name has that value, unless the user has added one. */
  ghost predicate Tells(opts: Options, members: seq<Member>, name: string, value: Data) {
    exists i | 0 <= i < |members| ::
      [members[i]] == Entry(name, value) && (Avoids(opts.metadata, name) ==> Avoids(members[..i], name))
  }

  /**
   * The tree says the length of the file and that of its script tags, and has an index of keyframes that are in the
   * file, by all their times.
   */
  ghost predicate TellsLayout(opts: Options, out: bytes, value: Data) {
    && value.EcmaArray?
    && Tells(opts, value.members, "filesize", Int(opts, |out|))
    && Tells(opts, value.members, "datasize", Int(opts, ScriptBytes(Tags(out, FIRST_TAG))))
    && exists times, positions ::
         && Tells(opts, value.members, "keyframes", Index(times, positions))
         && SeekPoints(opts, Tags(out, FIRST_TAG), times, positions) && AllListed(opts, Tags(out, FIRST_TAG), times)
  }

  /** A name that begins like none of filesize, datasize and keyframes. */
  predicate Other(name: Name) {
    |name| >= 2 && name[..2] != [102, 105] && name[..2] != [100, 97] && name[..2] != [107, 101]
  }

  predicate Others(members: seq<Member>) {
    forall m | m in members :: Other(m.name)
  }

  lemma CStringStarts(s: Text)
    requires s != [] && s[0] != 0
    ensures CString(s) == [s[0]] + CString(s[1..])
  {
  }

  lemma NameStart(s: string)
    requires 2 <= |s| < 0x1_0000 && 0 < s[0] as int < 256 && 0 < s[1] as int < 256
    ensures |AmfName(s)| >= 2 && AmfName(s)[..2] == [s[0] as int, s[1] as int]
  {
    hide CString;
    var chars: Text := seq(|s| % 0x1_0000, i requires 0 <= i < |s| => s[i] as int % 256);
    CStringStarts(chars);
    CStringStarts(chars[1..]);
  }

  lemma EntryOther(s: string, value: Data)
    requires 2 <= |s| < 0x1_0000 && 0 < s[0] as int < 256 && 0 < s[1] as int < 256
    requires var start := [s[0] as int, s[1] as int]; start != [102, 105] && start != [100, 97] && start != [107, 101]
    ensures Others(Entry(s, value))
  {
    hide AmfName;
    NameStart(s);
  }

  lemma GeneralOther(opts: Options, info: Info, d: real)
    ensures Others(GeneralFields(opts, info, d)) && Others(VideoFields(opts, info, d))
  {
    hide AmfName, Entry, Other, Quotient;
    EntryOther("hasMetadata", Flag(true));
    EntryOther("hasVideo", Flag(info.video.present));
    EntryOther("hasAudio", Flag(info.audio.present));
    EntryOther("duration", Real(opts, d));
    EntryOther("lasttimestamp", Real(opts, info.lastTimestamp as real / 1000.0));
    EntryOther("lastkeyframetimestamp", Real(opts, info.keys.last as real / 1000.0));
    EntryOther("width", Int(opts, info.video.width));
    EntryOther("height", Int(opts, info.video.height));
    EntryOther("videodatarate", Ratio(opts, info.video.realDataSize as real / 1024.0 * 8.0, d));
    EntryOther("framerate", Ratio(opts, info.video.frames as real, d));
  }

  lemma AudioOther(opts: Options, info: Info, d: real)
    ensures Others(AudioFields(opts, info, d)) && Others(Sizes(opts, info))
  {
    hide AmfName, Entry, Other, Quotient, SampleRate;
    EntryOther("audiodatarate", Ratio(opts, info.audio.realDataSize as real / 1024.0 * 8.0, d));
    EntryOther("audiosamplerate", Int(opts, SampleRate(info.audio.header)));
    EntryOther("audiosamplesize", Int(opts, if info.audio.header / 2 % 2 == 0 then 8 else 16));
    EntryOther("stereo", Flag(info.audio.header % 2 == 1));
    EntryOther("videosize", Int(opts, info.video.dataSize));
    EntryOther("audiosize", Int(opts, info.audio.dataSize));
  }

  lemma CodecOther(opts: Options, info: Info)
    ensures Others(CodecFields(opts, info))
  {
    hide AmfName, Entry, Other, Signed32;
    EntryOther("audiocodecid", Int(opts, info.audio.header as int / 16));
    EntryOther("videocodecid", Int(opts, info.video.codec));
    EntryOther("audiodelay", Real(opts, (Signed32(info.audio.first) - Signed32(info.video.first)) as real / 1000.0));
  }

  lemma TrailingOther(opts: Options, info: Info)
    ensures Others(Trailing(opts, info))
  {
    hide AmfName, Entry, Other, CString, CodecFields;
    CodecOther(opts, info);
    EntryOther("metadatacreator", String(CString(opts.creator)));
    EntryOther("metadatadate", Date(opts.store(opts.now), 0));
    EntryOther("canSeekToEnd", Flag(info.keys.canSeekToEnd));
    EntryOther("hasCuePoints", Flag(false));
    EntryOther("cuePoints", Array([]));
    EntryOther("hasKeyframes", Flag(info.keys.present));
  }

  /** What is added itself before the file size, before the data size and before the index. */
  lemma NamesAreFree(opts: Options, info: Info, fileSize: Data, dataSize: Data)
    ensures var a, f, z := Leading(opts, info), Entry("filesize", fileSize), Sizes(opts, info);
            var d, t := Entry("datasize", dataSize), Trailing(opts, info);
            && (Avoids(opts.metadata, "filesize") ==> Avoids(a, "filesize"))
            && (Avoids(opts.metadata, "datasize") ==> Avoids(a + f + z, "datasize"))
            && (Avoids(opts.metadata, "keyframes") ==> Avoids(a + f + z + d + t, "keyframes"))
  {
    hide AmfName, GeneralFields, VideoFields, AudioFields, Sizes, Trailing, Duration;
    var d := Duration(opts, info);
    GeneralOther(opts, info, d);
    AudioOther(opts, info, d);
    TrailingOther(opts, info);
    NameStart("filesize");
    NameStart("datasize");
    NameStart("keyframes");
  }

  /**
   * The first tag of an updated file is read as onMetaData, and the layout it tells is that of the file it stands in.
   */
  lemma PlayerSeeks(opts: Options, file: bytes)
    requires Regular(opts, file) && Readable(opts)
    ensures |file| >= 9
    ensures var out := Output(opts, file); var tags := Tags(out, FIRST_TAG);
            && tags != [] && tags[0].header.kind == META
            && var s := ScriptOf(out, tags[0]);
               s.Script? && s.name == ON_METADATA_NAME && TellsLayout(opts, out, s.value)
  {
    hide *;
    RegularPlan(opts, file);
    StoredLayoutIsTrue(opts, file);
    var p := PlanFor(opts, SeenIn(file));
    var out := Output(opts, file);
    MetadataFirst(p);
    StoredIsRead(p, file[..9]);
    AllFit(p);
    PlacedScriptBytes(p.All(), |p.All()|);
    assert Placed(p.All())[..|p.All()|] == Placed(p.All()) && p.All()[..|p.All()|] == p.All();
    KeyframesAreListed(p);
    LayoutIsTold(p, out);
  }

  lemma AllFit(p: Plan)
    requires Ready(p)
    ensures Representable(p.All())
  {
    hide *;
    BodiesFit(p, |p.seen|);
    AllIsUpto(p);
  }

  lemma StoredIsRead(p: Plan, header: bytes)
    requires Ready(p) && Readable(p.opts) && |header| == 9 && p.All() != [] && p.All()[0] == p.MetadataTag()
    requires |p.info.keys.positions| == |p.info.keys.times| && p.onMetadata == FinalMetadata(p.opts, p.info)
    ensures var t := Placed(p.All())[0];
            t.header.kind == META && ScriptOf(FileBytes(header, p.All()), t) == Script(ON_METADATA_NAME, p.onMetadata)
  {
    hide Gather, Contiguous, Plan.Copyable, BodySize, OnMetadata, Holds, Encode, ScriptOf, FileBytes, Placed, Plan.All,
      Readable;
    AllFit(p);
    MetadataHolds(p.opts, p.info, PredictedPositions(p.opts, p.info), PredictedFileSize(p.opts, p.info),
      PredictedDataSize(p.opts, p.info));
    ScriptOfPlaced(header, p.All(), 0, ON_METADATA_NAME, p.onMetadata);
    FirstPlaced(p.All());
  }

  lemma FirstPlaced(ts: seq<OutTag>)
    requires ts != []
    ensures Placed(ts)[0].header.kind == ts[0].kind
  {
    hide Offset;
  }

  lemma LayoutIsTold(p: Plan, out: bytes)
    requires |p.info.keys.positions| == |p.info.keys.times| && p.onMetadata == FinalMetadata(p.opts, p.info)
    requires PredictedFileSize(p.opts, p.info) == |out|
            && PredictedDataSize(p.opts, p.info) == ScriptBytes(Tags(out, FIRST_TAG))
    requires IndexPointsAtKeyframes(p, Tags(out, FIRST_TAG))
    requires AllListed(p.opts, Tags(out, FIRST_TAG), FlvMetadata.Times(p.opts, p.info))
    ensures TellsLayout(p.opts, out, p.onMetadata)
  {
    hide Index, FinalMetadata, Int, Positions, PredictedPosition, PredictedFileSize, PredictedDataSize, Tags,
      SeekPoints, AllListed, ScriptBytes, Tells, TellsLayout, IndexPointsAtKeyframes, Entry;
    var times, positions := FlvMetadata.Times(p.opts, p.info), Positions(p.opts, PredictedPositions(p.opts, p.info));
    var f, d := Int(p.opts, |out|), Int(p.opts, ScriptBytes(Tags(out, FIRST_TAG)));
    TreeParts(p, f, d, Index(times, positions));
    IndexIsSeekPoints(p, Tags(out, FIRST_TAG));
    LayoutIntro(p.opts, out, p.onMetadata, times, positions);
  }

  lemma LayoutIntro(opts: Options, out: bytes, value: Data, times: seq<Data>, positions: seq<Data>)
    requires value.EcmaArray? && Tells(opts, value.members, "filesize", Int(opts, |out|))
    requires Tells(opts, value.members, "datasize", Int(opts, ScriptBytes(Tags(out, FIRST_TAG))))
    requires Tells(opts, value.members, "keyframes", Index(times, positions))
    requires SeekPoints(opts, Tags(out, FIRST_TAG), times, positions) && AllListed(opts, Tags(out, FIRST_TAG), times)
    ensures TellsLayout(opts, out, value)
  {
    hide Tells, Index, SeekPoints, AllListed, Tags, ScriptBytes, Int;
  }

  lemma TreeParts(p: Plan, fileSize: Data, dataSize: Data, index: Data)
    requires |p.info.keys.positions| == |p.info.keys.times| && p.onMetadata == FinalMetadata(p.opts, p.info)
    requires fileSize == Int(p.opts, PredictedFileSize(p.opts, p.info))
    requires dataSize == Int(p.opts, PredictedDataSize(p.opts, p.info))
    requires index == Index(FlvMetadata.Times(p.opts, p.info), Positions(p.opts, PredictedPositions(p.opts, p.info)))
    ensures p.onMetadata.EcmaArray?
    ensures Tells(p.opts, p.onMetadata.members, "filesize", fileSize)
    ensures Tells(p.opts, p.onMetadata.members, "datasize", dataSize)
    ensures Tells(p.opts, p.onMetadata.members, "keyframes", index)
  {
    hide Leading, Sizes, Trailing, AmfName, PredictedFileSize, PredictedDataSize, Avoids, FlvMetadata.Times, Positions;
    NamesAreFree(p.opts, p.info, fileSize, dataSize);
    var a, f, z := Leading(p.opts, p.info), Entry("filesize", fileSize), Sizes(p.opts, p.info);
    var d, t, k := Entry("datasize", dataSize), Trailing(p.opts, p.info), Entry("keyframes", index);
    var members := p.onMetadata.members;
    assert members == a + f + z + d + t + k;
    assert members[..|a|] == a && [members[|a|]] == f;
    assert members[..|a + f + z|] == a + f + z && [members[|a + f + z|]] == d;
    assert members[..|a + f + z + d + t|] == a + f + z + d + t && [members[|a + f + z + d + t|]] == k;
  }

  lemma IndexIsSeekPoints(p: Plan, tags: seq<Tag>)
    requires |p.info.keys.positions| == |p.info.keys.times| && IndexPointsAtKeyframes(p, tags)
    ensures SeekPoints(p.opts, tags, FlvMetadata.Times(p.opts, p.info),
            Positions(p.opts, PredictedPositions(p.opts, p.info)))
  {
    hide PredictedPosition, Points, EntryStands, Real, Int;
    var times, positions := FlvMetadata.Times(p.opts, p.info), Positions(p.opts, PredictedPositions(p.opts, p.info));
    forall i | 0 <= i < |times| ensures Points(p.opts, tags, times[i], positions[i]) {
      EntryPoints(p, i, tags);
    }
  }

  lemma EntryPoints(p: Plan, i: nat, tags: seq<Tag>)
    requires i < |p.info.keys.positions| == |p.info.keys.times| && EntryStands(p, i, tags)
    ensures Points(p.opts, tags, Real(p.opts, p.info.keys.times[i]), Int(p.opts, PredictedPosition(p.opts, p.info, i)))
  {
    hide PredictedPosition, IsKeyframeByte, Real, Int;
    var m :| 0 <= m < |tags| && PredictedPosition(p.opts, p.info, i) == tags[m].offset && IsKeyTag(p, i, tags[m]);
    assert SeekPoint(p.opts, tags[m], Real(p.opts, p.info.keys.times[i]),
      Int(p.opts, PredictedPosition(p.opts, p.info, i)));
  }

  lemma KeyframesAreListed(p: Plan)
    requires Ready(p) && MetadataLeads(p)
    ensures AllListed(p.opts, Placed(p.All()), FlvMetadata.Times(p.opts, p.info))
  {
    hide Ready, MetadataLeads, Plan.All, ShowsKeyframe, Real, Offset;
    var tags, times := Placed(p.All()), FlvMetadata.Times(p.opts, p.info);
    forall m | 0 <= m < |tags| && ShowsKeyframe(tags[m])
      ensures exists i | 0 <= i < |times| :: times[i] == Real(p.opts, tags[m].header.timestamp as real / 1000.0)
    {
      KeyframeIsListed(p, m);
      var i :| 0 <= i < |p.info.keys.times| && p.info.keys.times[i] == p.All()[m].timestamp as real / 1000.0;
      assert times[i] == Real(p.opts, tags[m].header.timestamp as real / 1000.0);
    }
  }

  lemma KeyframeIsListed(p: Plan, m: nat)
    requires Ready(p) && MetadataLeads(p) && m < |p.All()| && ShowsKeyframe(Placed(p.All())[m])
    ensures exists i | 0 <= i < |p.info.keys.times| :: p.info.keys.times[i] == p.All()[m].timestamp as real / 1000.0
  {
    hide *;
    AllIsUpto(p);
    EveryTagComes(p, |p.seen|, m);
    CasesOf(p, m);
    ShownByCopy(p, m);
    if m == 0 {
      MetadataFirst(p);
      MetadataTagIs(p);
      NotVideo(p.MetadataTag());
    } else if k :| 0 <= k < |p.seen| && p.InsertsAt(k) && m == |p.Upto(k)| {
      InsertedPlace(p, k);
      LastSecondTagIs(p, k);
      NotVideo(p.LastSecondTag(k));
    } else if k :| 0 <= k < |p.seen| && !p.Replaced(k) && m == OutIndex(p, k) {
      CopyPlace(p, k);
      CopiedIsListed(p, k);
    }
  }

  predicate ShownKeyframe(t: OutTag) {
    t.kind == VIDEO && t.body != [] && VideoHeaderSize(t.body[0]) <= |t.body| && IsKeyframeByte(t.body[0])
  }

  lemma ShownByCopy(p: Plan, m: nat)
    requires m < |p.All()| && ShowsKeyframe(Placed(p.All())[m])
    ensures ShownKeyframe(p.All()[m])
  {
    hide Plan.All, Offset, VideoHeaderSize, IsKeyframeByte;
  }

  lemma NotVideo(t: OutTag)
    requires t.kind == META
    ensures !ShownKeyframe(t)
  {
  }

  lemma CopiedIsListed(p: Plan, k: nat)
    requires Ready(p) && k < |p.seen| && !p.Replaced(k) && ShownKeyframe(p.Copy(k))
    ensures exists i | 0 <= i < |p.info.keys.times| :: p.info.keys.times[i] == p.Copy(k).timestamp as real / 1000.0
  {
    hide Gather, Contiguous, BodySize, KeyTags, VideoHeaderSize, IsKeyframeByte, Shift;
    EveryKeyframeIsIndexed(p.opts, p.seen, k);
    IndexIsKeyTags(p.opts, p.seen);
  }
}
