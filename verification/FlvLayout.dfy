/** Where the tags of a written file stand, and what the first pass has counted. */
module FlvLayout {
  import opened Bytes
  import opened Amf
  import opened Flv
  import opened FlvClock
  import opened FlvStream
  import opened FlvInfo
  import opened FlvMetadata
  import opened FlvUpdate

  // ----- a written file is read back as the tags that were written -----

  /** The offset of output tag j. */
  function Offset(ts: seq<OutTag>, j: nat): nat
    requires j <= |ts|
  {
    13 + |AllBytes(ts[..j])|
  }

  function Placed(ts: seq<OutTag>): (tags: seq<Tag>)
    ensures |tags| == |ts|
  {
    seq(|ts|, j requires 0 <= j < |ts| => Tag(Offset(ts, j), ts[j].Header(), ts[j].body))
  }

  predicate Representable(ts: seq<OutTag>) {
    forall t | t in ts :: |t.body| < 0x100_0000
  }

  lemma NoBytes()
    ensures AllBytes([]) == []
  {
  }

  lemma SplitAt(ts: seq<OutTag>, j: nat)
    requires j < |ts|
    ensures AllBytes(ts) == AllBytes(ts[..j]) + (TagBytes(ts[j]) + AllBytes(ts[j + 1..]))
    ensures AllBytes(ts[..j + 1]) == AllBytes(ts[..j]) + TagBytes(ts[j])
  {
    hide *;
    var a, t, b := ts[..j], [ts[j]], ts[j + 1..];
    assert ts == a + (t + b) && ts[..j + 1] == a + t;
    BytesAppend(a, t + b);
    BytesAppend(t, b);
    BytesAppend(a, t);
    BytesOfFew(ts[j], ts[j]);
  }

  lemma AtTagBytes(file: bytes, p: nat, t: OutTag)
    requires At(file, p, TagBytes(t)) && |t.body| < 0x100_0000
    ensures p + 15 + |t.body| <= |file| && TagAt(file, p) == Tag(p, t.Header(), t.body)
    ensures At(file, p + 11 + |t.body|, Be32(11 + |t.body|))
  {
    hide EncodeHeader, DecodeHeader, Be32;
    var h, size := EncodeHeader(t.Header()), Be32((11 + |t.body|) % 0x1_0000_0000);
    assert TagBytes(t) == h + (t.body + size);
    AtAppend(file, p, h, t.body + size);
    AtAppend(file, p + 11, t.body, size);
    HeaderInverse(t.Header());
  }

  /** The tag chain of a written file, from output tag j on. */
  lemma {:induction false} ChainFrom(file: bytes, ts: seq<OutTag>, j: nat)
    requires |file| == 13 + |AllBytes(ts)| && At(file, 13, AllBytes(ts)) && Representable(ts) && j <= |ts|
    ensures Tags(file, Offset(ts, j)) == Placed(ts)[j..]
    decreases |ts| - j
  {
    hide TagBytes, AllBytes, Tags, TagAt;
    UnfoldTags(file, Offset(ts, j));
    if j == |ts| {
      assert ts[..j] == ts;
    } else {
      SplitAt(ts, j);
      AtAppend(file, 13, AllBytes(ts[..j]), TagBytes(ts[j]) + AllBytes(ts[j + 1..]));
      AtAppend(file, Offset(ts, j), TagBytes(ts[j]), AllBytes(ts[j + 1..]));
      AtTagBytes(file, Offset(ts, j), ts[j]);
      ChainFrom(file, ts, j + 1);
      assert Placed(ts)[j..] == [Placed(ts)[j]] + Placed(ts)[j + 1..];
    }
  }

  /** The next tag follows 15 bytes behind the body of output tag j, and the last 4 of them say its size. */
  ghost predicate Framed(file: bytes, ts: seq<OutTag>, j: nat)
    requires j < |ts| && |ts[j].body| < 0x100_0000
  {
    && Offset(ts, j + 1) == Offset(ts, j) + 15 + |ts[j].body|
    && At(file, Offset(ts, j) + 11 + |ts[j].body|, Be32(11 + |ts[j].body|))
  }

  lemma TagIsFramed(file: bytes, ts: seq<OutTag>, j: nat)
    requires At(file, 13, AllBytes(ts)) && Representable(ts) && j < |ts| && |ts[j].body| < 0x100_0000
    ensures Framed(file, ts, j)
  {
    hide TagBytes, AllBytes, TagAt, Be32, At, EncodeHeader;
    SplitAt(ts, j);
    AtAppend(file, 13, AllBytes(ts[..j]), TagBytes(ts[j]) + AllBytes(ts[j + 1..]));
    AtAppend(file, Offset(ts, j), TagBytes(ts[j]), AllBytes(ts[j + 1..]));
    AtTagBytes(file, Offset(ts, j), ts[j]);
  }

  lemma FileParts(header: bytes, ts: seq<OutTag>)
    requires |header| == 9
    ensures var file := FileBytes(header, ts);
            At(file, 13, AllBytes(ts)) && file[9..13] == Be32(0) && |file| == 13 + |AllBytes(ts)|
  {
    hide AllBytes, Be32;
  }

  /** Reading a written file finds exactly the tags that were written, each followed by its size. */
  lemma WrittenIsRead(header: bytes, ts: seq<OutTag>)
    requires |header| == 9 && Representable(ts)
    ensures var file := FileBytes(header, ts);
            && Tags(file, FIRST_TAG) == Placed(ts)
            && file[9..13] == Be32(0) && |file| == Offset(ts, |ts|)
            && forall j | 0 <= j < |ts| && ts[j] in ts :: Framed(file, ts, j)
  {
    hide TagBytes, AllBytes, Tags, TagAt, Be32, FileBytes, Framed, At, Placed;
    var file := FileBytes(header, ts);
    FileParts(header, ts);
    assert ts[..0] == [] && ts[..|ts|] == ts;
    NoBytes();
    ChainFrom(file, ts, 0);
    assert Placed(ts)[0..] == Placed(ts);
    forall j | 0 <= j < |ts| ensures Framed(file, ts, j) {
      assert ts[j] in ts;
      TagIsFramed(file, ts, j);
    }
  }

  // ----- what the first pass has counted -----

  /** Each tag starts where the one before it ends. */
  ghost predicate Contiguous(seen: seq<Seen>) {
    && (seen != [] ==> seen[0].tag.offset == 13)
    && forall k | 0 < k < |seen| :: seen[k].tag.offset == seen[k - 1].tag.End()
  }

  function EndOf(seen: seq<Seen>): nat {
    if seen == [] then 13 else seen[|seen| - 1].tag.End()
  }

  lemma {:induction false} TagsAreContiguous(file: bytes, offset: nat, k: nat)
    requires k < |Tags(file, offset)|
    ensures var tags := Tags(file, offset);
            tags[k].offset == (if k == 0 then offset else tags[k - 1].End()) && tags[k].offset >= offset
    decreases k
  {
    hide TagAt;
    if k > 0 {
      TagsAreContiguous(file, TagAt(file, offset).End(), k - 1);
    }
  }

  lemma SeenOffset(file: bytes, k: nat)
    requires k < |SeenIn(file)|
    ensures SeenIn(file)[k].tag.offset == if k == 0 then 13 else SeenIn(file)[k - 1].tag.End()
  {
    hide Tags, ReadScript;
    TagsAreContiguous(file, FIRST_TAG, k);
  }

  lemma SeenIsContiguous(file: bytes)
    ensures Contiguous(SeenIn(file))
  {
    hide Tags, ReadScript, See;
    var seen := SeenIn(file);
    if seen != [] {
      SeenOffset(file, 0);
    }
    forall k | 0 < k < |seen| ensures seen[k].tag.offset == seen[k - 1].tag.End() {
      SeenOffset(file, k);
    }
  }

  /** The sizes counted for all tags add up to the file up to its last tag. */
  lemma {:induction false} CountedSizes(opts: Options, seen: seq<Seen>)
    requires Contiguous(seen)
    ensures var i := Gather(opts, seen);
            EndOf(seen) == 9 + i.prevTagsSize + i.video.dataSize + i.audio.dataSize + i.script.dataSize
              + i.script.onMetadataSize
  {
    hide StepCommon, Step;
    if seen != [] {
      var front := seen[..|seen| - 1];
      assert front != [] ==> front[|front| - 1] == seen[|seen| - 2];
      CountedSizes(opts, front);
      StepCounts(opts, Gather(opts, front), seen[|seen| - 1]);
    }
  }

  function Counted(i: Info): nat {
    i.prevTagsSize + i.video.dataSize + i.audio.dataSize + i.script.dataSize + i.script.onMetadataSize
  }

  lemma StepCounts(opts: Options, info: Info, s: Seen)
    ensures Counted(Step(opts, info, s)) == Counted(info) + s.Length() + 15
  {
    hide Named, Matches;
  }

  /** The one script tag that is replaced, if there is one. */
  lemma {:induction false} FoundMetadata(opts: Options, seen: seq<Seen>)
    requires Contiguous(seen)
    ensures var i := Gather(opts, seen).script;
            if i.onMetadataSize == 0 then i.onMetadataOffset == 0
            else exists k :: 0 <= k < |seen| && IsReplaced(i, seen, k)
  {
    hide StepCommon, StepVideo, StepAudio, Named;
    if seen != [] {
      var front, s := seen[..|seen| - 1], seen[|seen| - 1];
      FoundMetadata(opts, front);
      var i, j := Gather(opts, front).script, Gather(opts, seen).script;
      ScriptOfStep(opts, Gather(opts, front), s);
      if i.onMetadataSize != 0 {
        var k :| 0 <= k < |front| && IsReplaced(i, front, k);
        assert IsReplaced(j, seen, k);
      } else if j.onMetadataSize != 0 {
        assert IsReplaced(j, seen, |seen| - 1);
      }
    }
  }

  predicate IsReplaced(i: ScriptInfo, seen: seq<Seen>, k: nat)
    requires k < |seen|
  {
    && seen[k].tag.offset == i.onMetadataOffset && i.onMetadataSize == seen[k].Length() + 15
    && seen[k].Kind() == META && Named(seen[k], ON_METADATA)
  }

  lemma ScriptOfStep(opts: Options, info: Info, s: Seen)
    ensures Step(opts, info, s).script == if s.Kind() == META then StepScript(info.script, s) else info.script
  {
    hide StepScript;
  }

  // ----- the keyframe index -----

  /** The indexed tags, by number. */
  function KeyTags(opts: Options, seen: seq<Seen>): seq<nat> {
    if seen == [] then [] else
      var front, n := seen[..|seen| - 1], |seen| - 1;
      if AddsKey(opts, front, seen[n]) then KeyTags(opts, front) + [n] else KeyTags(opts, front)
  }

  predicate AddsKey(opts: Options, front: seq<Seen>, s: Seen) {
    var i := StepCommon(opts, Gather(opts, front), s);
    s.Kind() == VIDEO && IsKeyframe(s) && Indexes(opts, i.keys, i.lastTimestamp)
  }

  /** The index lists the offsets and times of its tags, which are keyframes in file order. */
  ghost predicate Indexed(opts: Options, seen: seq<Seen>, keys: seq<nat>, i: Info) {
    && |i.keys.times| == |i.keys.positions| == |keys|
    && (forall n | 0 <= n < |keys| :: keys[n] < |seen| && seen[keys[n]].Kind() == VIDEO && IsKeyframe(seen[keys[n]]))
    && (forall m, n | 0 <= m < n < |keys| :: keys[m] < keys[n])
    && (forall n | 0 <= n < |keys| :: i.keys.positions[n] == seen[keys[n]].tag.offset)
    && (forall n | 0 <= n < |keys| :: i.keys.times[n] == Shift(opts, i.first, seen[keys[n]].time) as real / 1000.0)
    && (keys != [] ==> i.haveFirst)
  }

  lemma {:induction false} IndexIsKeyTags(opts: Options, seen: seq<Seen>)
    ensures Indexed(opts, seen, KeyTags(opts, seen), Gather(opts, seen))
  {
    hide StepCommon, StepTyped, IsKeyframe, Shift;
    if seen != [] {
      var front, s := seen[..|seen| - 1], seen[|seen| - 1];
      IndexIsKeyTags(opts, front);
      KeysOfStep(opts, Gather(opts, front), s);
      FirstOfStep(opts, Gather(opts, front), s);
    }
  }

  lemma KeysOfStep(opts: Options, info: Info, s: Seen)
    ensures var i := StepCommon(opts, info, s);
            && i.keys == info.keys
            && var k := Step(opts, info, s).keys;
               if s.Kind() == VIDEO && IsKeyframe(s) && Indexes(opts, i.keys, i.lastTimestamp)
               then k.times == info.keys.times + [i.lastTimestamp as real / 1000.0]
                 && k.positions == info.keys.positions + [s.tag.offset]
               else k.times == info.keys.times && k.positions == info.keys.positions
  {
    hide StepScript, StepAudioInfo, StepVideoInfo, IsOnMetadata, Shift;
  }

  /** The first timestamp is set once, and the last one is that of the last tag. */
  lemma FirstOfStep(opts: Options, info: Info, s: Seen)
    ensures var i := Step(opts, info, s);
            && i.lastTimestamp == StepCommon(opts, info, s).lastTimestamp == Shift(opts, i.first, s.time)
            && (info.haveFirst ==> i.haveFirst && i.first == info.first)
            && (s.Kind() != META ==> i.haveFirst)
  {
    hide StepScript, StepVideoInfo, StepAudioInfo, StepKeys, IsOnMetadata;
  }

  lemma {:induction false} FirstKept(opts: Options, seen: seq<Seen>, n: nat)
    requires n <= |seen|
    ensures Gather(opts, seen[..n]).haveFirst
        ==> Gather(opts, seen).haveFirst && Gather(opts, seen).first == Gather(opts, seen[..n]).first
    decreases |seen|
  {
    hide StepCommon, Step;
    if n < |seen| {
      var front := seen[..|seen| - 1];
      FirstKept(opts, front, n);
      assert front[..n] == seen[..n];
      FirstOfStep(opts, Gather(opts, front), seen[|seen| - 1]);
    } else {
      assert seen[..n] == seen;
    }
  }

  lemma {:induction false} KeyTagsPrefix(opts: Options, seen: seq<Seen>, n: nat)
    requires n <= |seen|
    ensures KeyTags(opts, seen[..n]) <= KeyTags(opts, seen)
    decreases |seen|
  {
    hide AddsKey;
    if n < |seen| {
      var front := seen[..|seen| - 1];
      KeyTagsPrefix(opts, front, n);
      assert front[..n] == seen[..n];
    } else {
      assert seen[..n] == seen;
    }
  }

  /** The time the first pass remembers is that of the last tag in the index. */
  lemma {:induction false} LastKey(opts: Options, seen: seq<Seen>)
    ensures var keys, i := KeyTags(opts, seen), Gather(opts, seen);
            i.keys.present ==> && keys != [] && keys[|keys| - 1] < |seen|
                               && i.keys.last == Shift(opts, i.first, seen[keys[|keys| - 1]].time) && i.haveFirst
  {
    hide StepCommon, StepTyped, IsKeyframe, Shift;
    if seen != [] {
      var front, s := seen[..|seen| - 1], seen[|seen| - 1];
      LastKey(opts, front);
      LastOfStep(opts, Gather(opts, front), s);
      FirstOfStep(opts, Gather(opts, front), s);
    }
  }

  lemma LastOfStep(opts: Options, info: Info, s: Seen)
    ensures var i, k := StepCommon(opts, info, s), Step(opts, info, s).keys;
            && i.keys == info.keys
            && if s.Kind() == VIDEO && IsKeyframe(s) && Indexes(opts, i.keys, i.lastTimestamp)
               then k.present && k.last == i.lastTimestamp
               else k.present == info.keys.present && k.last == info.keys.last
  {
    hide StepScript, StepAudioInfo, StepVideoInfo, IsOnMetadata, Shift;
  }

  /**
   * No keyframe is left out of the index, unless it has the time of the keyframe indexed before it and may be left out.
   */
  lemma EveryKeyframeIsIndexed(opts: Options, seen: seq<Seen>, k: nat)
    requires k < |seen| && seen[k].Kind() == VIDEO && IsKeyframe(seen[k])
    ensures var keys, first := KeyTags(opts, seen), Gather(opts, seen).first;
            exists i | 0 <= i < |keys| ::
              && keys[i] <= k && (opts.allKeyframes ==> keys[i] == k)
              && Shift(opts, first, seen[keys[i]].time) == Shift(opts, first, seen[k].time)
  {
    hide StepCommon, Step, IsKeyframe, Shift;
    var front, upto := seen[..k], seen[..k + 1];
    assert upto == front + [seen[k]];
    NextKey(opts, front, seen[k]);
    KeyTagsPrefix(opts, seen, k + 1);
    FirstKept(opts, seen, k + 1);
    var keys, n := KeyTags(opts, seen), |KeyTags(opts, upto)|;
    assert keys[n - 1] == KeyTags(opts, upto)[n - 1] && seen[keys[n - 1]] == upto[keys[n - 1]];
  }

  /** The index has a tag with the time of the keyframe just met. */
  lemma NextKey(opts: Options, front: seq<Seen>, s: Seen)
    requires s.Kind() == VIDEO && IsKeyframe(s)
    ensures var seen := front + [s]; var keys, first := KeyTags(opts, seen), Gather(opts, seen).first;
            && keys != [] && keys[|keys| - 1] <= |front| && Gather(opts, seen).haveFirst
            && (opts.allKeyframes ==> keys[|keys| - 1] == |front|)
            && Shift(opts, first, seen[keys[|keys| - 1]].time) == Shift(opts, first, s.time)
  {
    hide StepTyped, IsKeyframe, Shift;
    var seen := front + [s];
    assert seen[..|seen| - 1] == front;
    LastKey(opts, front);
    KeysOfStep(opts, Gather(opts, front), s);
    FirstOfStep(opts, Gather(opts, front), s);
  }
}
