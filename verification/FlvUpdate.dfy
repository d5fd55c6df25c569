/** The second pass: the output file, tag by tag. */
module FlvUpdate {
  import opened Bytes
  import opened Amf
  import opened AmfLaws
  import opened AmfIo
  import opened Flv
  import opened FlvClock
  import opened FlvStream
  import opened FlvInfo
  import opened FlvMetadata

  // ----- the output as a sequence of tags -----

  /** A tag to be written; an injected body may be longer than its 24-bit length field can say. */
  datatype OutTag = OutTag(kind: byte, timestamp: uint32, streamId: uint24, body: bytes) {
    function Header(): Header {
      Flv.Header(kind, |body| % 0x100_0000, timestamp, streamId)
    }

    function Size(): nat {
      15 + |body|
    }
  }

  /** Header, body, and the size of both. */
  function TagBytes(t: OutTag): (b: bytes)
    ensures |b| == t.Size()
  {
    EncodeHeader(t.Header()) + t.body + Be32((11 + |t.body|) % 0x1_0000_0000)
  }

  function AllBytes(ts: seq<OutTag>): bytes {
    if ts == [] then [] else AllBytes(ts[..|ts| - 1]) + TagBytes(ts[|ts| - 1])
  }

  function FileBytes(header: bytes, ts: seq<OutTag>): bytes {
    header + Be32(0) + AllBytes(ts)
  }

  // ----- which tags -----

  /** Everything the second pass knows. */
  datatype Plan = Plan(opts: Options, info: Info, onMetadata: Data, seen: seq<Seen>) {
    function Time(k: nat): uint32
      requires k < |seen|
    {
      Shift(opts, info.first, seen[k].time)
    }

    /** The old onMetaData tag, which is not copied. */
    predicate Replaced(k: nat)
      requires k < |seen|
    {
      seen[k].tag.offset == info.script.onMetadataOffset
    }

    predicate Late(k: nat)
      requires k < |seen|
    {
      !Replaced(k) && Minus32(info.lastTimestamp, Time(k)) <= 1000
    }

    /** The onLastSecond tag goes in front of the first copied tag of the last second. */
    predicate InsertsAt(k: nat)
      requires k < |seen|
    {
      InsertsLastSecond(opts, info) && Late(k) && forall j | 0 <= j < k :: !Late(j)
    }

    predicate InsertedBefore(n: nat)
      requires n <= |seen|
    {
      InsertsLastSecond(opts, info) && exists j | 0 <= j < n :: Late(j)
    }

    function MetadataTag(): OutTag {
      OutTag(META, 0, 0, OnMetadataBody(onMetadata))
    }

    function LastSecondTag(k: nat): OutTag
      requires k < |seen|
    {
      OutTag(META, Time(k), 0, OnLastSecondBody())
    }

    function Copy(k: nat): OutTag
      requires k < |seen|
    {
      OutTag(seen[k].Kind(), Time(k), seen[k].tag.header.streamId, seen[k].tag.body)
    }

    /** What tag k of the input becomes. */
    function Becomes(k: nat): seq<OutTag>
      requires k < |seen|
    {
      if Replaced(k) then [MetadataTag()]
      else (if InsertsAt(k) then [LastSecondTag(k)] else []) + [Copy(k)]
    }

    /** The output tags up to the first n input tags. */
    function Upto(n: nat): seq<OutTag>
      requires n <= |seen|
    {
      if n == 0 then (if info.script.onMetadataSize == 0 then [MetadataTag()] else [])
      else Upto(n - 1) + Becomes(n - 1)
    }

    function All(): seq<OutTag> {
      Upto(|seen|)
    }

    /** Every tag that is copied is wholly in the file. */
    predicate Copyable() {
      forall k | 0 <= k < |seen| :: Replaced(k) || seen[k].tag.Complete()
    }

    // The copy buffer is as big as the biggest body the first pass has met, and takes no more of a body.

    function Taken(k: nat): nat
      requires k < |seen|
    {
      if seen[k].Length() > info.biggestBody then info.biggestBody else seen[k].Length()
    }

    /** What is taken of the body is in the file. */
    predicate Takes(k: nat)
      requires k < |seen|
    {
      Replaced(k) || |seen[k].tag.body| >= Taken(k)
    }

    predicate Writable() {
      forall k | 0 <= k < |seen| :: Takes(k)
    }

    /** A copied tag: its header keeps the length of the whole body, and the size behind it is what has been taken. */
    function CopyBytes(k: nat): bytes
      requires k < |seen| && |seen[k].tag.body| >= Taken(k)
    {
      EncodeHeader(seen[k].tag.header.(timestamp := Time(k))) + seen[k].tag.body[..Taken(k)]
      + Be32((11 + Taken(k)) % 0x1_0000_0000)
    }

    function BytesOf(k: nat): bytes
      requires k < |seen| && Takes(k)
    {
      if Replaced(k) then TagBytes(MetadataTag())
      else (if InsertsAt(k) then TagBytes(LastSecondTag(k)) else []) + CopyBytes(k)
    }

    /** The output up to the first n input tags. */
    function BytesUpto(header: bytes, n: nat): bytes
      requires n <= |seen| && forall k | 0 <= k < n :: Takes(k)
    {
      if n == 0 then FileBytes(header, Upto(0)) else BytesUpto(header, n - 1) + BytesOf(n - 1)
    }

    /** No body is bigger than the buffer. */
    predicate BodiesFitBuffer() {
      forall k | 0 <= k < |seen| :: |seen[k].tag.body| <= seen[k].Length() <= info.biggestBody
    }
  }

  // ----- writing -----

  method WriteHeader(out: Sink, h: Header)
    requires out.limit == Unlimited
    modifies out
    ensures out.out == old(out.out) + EncodeHeader(h)
  {
    var n := out.Put([h.kind]);
    n := out.Put(Be24(h.bodyLength));
    n := out.Put(Be24(h.timestamp % 0x100_0000));
    n := out.Put([h.timestamp / 0x100_0000]);
    n := out.Put(Be24(h.streamId));
    assert out.out == old(out.out) + EncodeHeader(h);
  }

  /** A whole injected tag: header, AMF name and value, size. */
  method WriteInjected(out: Sink, timestamp: uint32, name: Data, value: Data, ghost t: OutTag)
    requires out.limit == Unlimited
    requires t == OutTag(META, timestamp, 0, Encode(name) + Encode(value))
    modifies out
    ensures out.out == old(out.out) + TagBytes(t)
  {
    hide Encode, EncodeHeader;
    var nameSize := Size(name);
    var valueSize := Size(value);
    WriteHeader(out, Header(META, (nameSize + valueSize) % 0x100_0000, timestamp, 0));
    var n := out.Write(name);
    n := out.Write(value);
    n := out.Put(Be32((11 + nameSize + valueSize) % 0x1_0000_0000));
    assert out.out == old(out.out) + TagBytes(t);
  }

  /** The loop has dealt with the first n tags and stands before the rest. */
  ghost predicate Written(plan: Plan, file: bytes, header: bytes, next: nat, n: nat, clocks: Clocks, inserted: bool,
      out: bytes) {
    var tags := Tags(file, FIRST_TAG);
    && plan.seen == SeenIn(file) && n <= |tags| && tags[n..] == Tags(file, next)
    && clocks == After(START, tags[..n])
    && inserted == plan.InsertedBefore(n)
    && (forall k | 0 <= k < n :: plan.Takes(k))
    && out == plan.BytesUpto(header, n)
  }

  lemma StartWritten(plan: Plan, file: bytes, header: bytes)
    requires plan.seen == SeenIn(file)
    ensures Written(plan, file, header, FIRST_TAG, 0, START, false, FileBytes(header, plan.Upto(0)))
  {
    hide Tags, FileBytes;
    assert Tags(file, FIRST_TAG)[0..] == Tags(file, FIRST_TAG) && Tags(file, FIRST_TAG)[..0] == [];
  }

  lemma NextWritten(plan: Plan, file: bytes, header: bytes, next: nat, n: nat, clocks: Clocks, inserted: bool,
      out: bytes)
    requires Written(plan, file, header, next, n, clocks, inserted, out) && next + 11 <= |file|
    ensures n < |plan.seen| && plan.seen[n].tag == TagAt(file, next) && inserted == plan.InsertedBefore(n)
    ensures var h := TagAt(file, next).header; plan.seen[n].time == clocks.Advance(h).Time(h)
  {
    hide Tags, TagAt, FileBytes, Plan.BytesOf, Plan.Takes, ReadScript;
    var tags := Tags(file, FIRST_TAG);
    UnfoldTags(file, next);
    assert tags[n] == tags[n..][0];
    assert tags[..n + 1][..n] == tags[..n];
  }

  lemma StepWritten(plan: Plan, file: bytes, header: bytes, next: nat, n: nat, clocks: Clocks, inserted: bool,
      out: bytes)
    requires Written(plan, file, header, next, n, clocks, inserted, out) && next + 11 <= |file| && n < |plan.seen|
    ensures plan.Takes(n)
        ==> Written(plan, file, header, TagAt(file, next).End(), n + 1, clocks.Advance(TagAt(file, next).header),
                    plan.InsertedBefore(n + 1), out + plan.BytesOf(n))
    ensures !plan.Takes(n) ==> !plan.Writable()
  {
    hide Tags, TagAt, FileBytes, Plan.BytesOf, Plan.Takes, Plan.InsertedBefore;
    NextTags(file, next, n);
  }

  lemma NextTags(file: bytes, next: nat, n: nat)
    requires n < |Tags(file, FIRST_TAG)| && Tags(file, FIRST_TAG)[n..] == Tags(file, next) && next + 11 <= |file|
    ensures var tags, h := Tags(file, FIRST_TAG), TagAt(file, next).header;
            && tags[n + 1..] == Tags(file, TagAt(file, next).End())
            && After(START, tags[..n + 1]) == After(START, tags[..n]).Advance(h)
  {
    hide TagAt, Tags;
    var tags := Tags(file, FIRST_TAG);
    UnfoldTags(file, next);
    assert tags[n] == tags[n..][0] && tags[n + 1..] == tags[n..][1..];
    assert tags[..n + 1][..n] == tags[..n];
  }

  lemma EndWritten(plan: Plan, file: bytes, header: bytes, next: nat, n: nat, clocks: Clocks, inserted: bool,
      out: bytes)
    requires Written(plan, file, header, next, n, clocks, inserted, out) && next + 11 > |file|
    ensures plan.Writable() && out == plan.BytesUpto(header, |plan.seen|)
  {
    hide Tags, FileBytes, Plan.Takes, Plan.BytesOf;
    UnfoldTags(file, next);
    assert n == |plan.seen|;
  }

  // ----- tags that are copied whole -----

  /** If no body is too big for the buffer, the output is that of the tags the input tags become. */
  lemma {:induction false} WritesTags(plan: Plan, header: bytes, n: nat)
    requires plan.BodiesFitBuffer() && n <= |plan.seen| && forall k | 0 <= k < n :: plan.Takes(k)
    ensures plan.BytesUpto(header, n) == FileBytes(header, plan.Upto(n))
  {
    hide FileBytes, Plan.Becomes, Plan.BytesOf, Plan.Takes;
    if n > 0 {
      WritesTags(plan, header, n - 1);
      WritesTag(plan, n - 1);
      FileAppend(header, plan.Upto(n - 1), plan.Becomes(n - 1));
    }
  }

  lemma WritesTag(plan: Plan, k: nat)
    requires k < |plan.seen| && plan.BodiesFitBuffer() && plan.Takes(k)
    ensures plan.BytesOf(k) == AllBytes(plan.Becomes(k))
  {
    hide AllBytes, EncodeHeader, Be32, Shift, Plan.InsertsAt;
    BytesOfFew(plan.MetadataTag(), plan.MetadataTag());
    if !plan.Replaced(k) {
      var t := plan.seen[k].tag;
      assert t.Complete() && t.body[..plan.Taken(k)] == t.body;
      assert plan.CopyBytes(k) == TagBytes(plan.Copy(k));
      BytesOfFew(plan.LastSecondTag(k), plan.Copy(k));
      assert plan.Becomes(k) == if plan.InsertsAt(k) then [plan.LastSecondTag(k), plan.Copy(k)] else [plan.Copy(k)];
    }
  }

  lemma WritableIfCopyable(plan: Plan)
    requires plan.BodiesFitBuffer()
    ensures plan.Writable() <==> plan.Copyable()
  {
    forall k | 0 <= k < |plan.seen| ensures plan.Takes(k) <==> plan.Replaced(k) || plan.seen[k].tag.Complete() {}
  }

  lemma FileAppend(header: bytes, a: seq<OutTag>, b: seq<OutTag>)
    ensures FileBytes(header, a + b) == FileBytes(header, a) + AllBytes(b)
  {
    BytesAppend(a, b);
  }

  lemma {:induction false} BytesAppend(a: seq<OutTag>, b: seq<OutTag>)
    ensures AllBytes(a + b) == AllBytes(a) + AllBytes(b)
  {
    hide TagBytes;
    if b == [] {
      assert a + b == a;
    } else {
      var front := b[..|b| - 1];
      assert (a + b)[..|a + b| - 1] == a + front;
      BytesAppend(a, front);
    }
  }

  /** What stands in front of the tags of the input. */
  method WriteStart(out: Sink, info: Info, header: bytes, onMetadata: Data, ghost plan: Plan)
    requires out.limit == Unlimited && out.out == [] && plan.info == info && plan.onMetadata == onMetadata
    modifies out
    ensures out.out == FileBytes(header, plan.Upto(0))
  {
    hide TagBytes, Encode;
    var n := out.Put(header);
    n := out.Put(Be32(0));
    assert out.out == header + Be32(0);
    if info.script.onMetadataSize == 0 {
      WriteInjected(out, 0, ON_METADATA_NAME, onMetadata, plan.MetadataTag());
    }
    BytesOfFew(plan.MetadataTag(), plan.MetadataTag());
  }

  lemma BytesOfFew(s: OutTag, t: OutTag)
    ensures AllBytes([]) == [] && AllBytes([t]) == TagBytes(t) && AllBytes([s, t]) == TagBytes(s) + TagBytes(t)
  {
    hide TagBytes;
    assert [s, t][..1] == [s] && [t][..0] == [];
  }

  /** The body of the loop of write_flv, behind the tag header. */
  method WriteOne(stream: Stream, out: Sink, opts: Options, info: Info, onMetadata: Data, time: uint32, inserted: bool,
                  ghost plan: Plan, ghost n: nat)
    returns (complete: bool, inserted': bool)
    requires AtHeader(stream) && out.limit == Unlimited
    requires plan.opts == opts && plan.info == info && plan.onMetadata == onMetadata && n < |plan.seen|
    requires plan.seen[n].tag == TagAt(stream.flvin.content, stream.offset) && plan.seen[n].time == time
    requires inserted == plan.InsertedBefore(n)
    modifies stream, stream.flvin, out
    ensures complete <==> plan.Takes(n)
    ensures complete ==> out.out == old(out.out) + plan.BytesOf(n) && inserted' == plan.InsertedBefore(n + 1)
    ensures complete ==> stream.Next() == old(stream.Next()) && !stream.flvin.eof
  {
    hide TagBytes, Encode, DecodeHeader, Shift, InsertsLastSecond, Plan.CopyBytes, Plan.Taken;
    var t := Shift(opts, info.first, time);
    inserted' := inserted;
    if info.script.onMetadataOffset == stream.offset {
      WriteInjected(out, 0, ON_METADATA_NAME, onMetadata, plan.MetadataTag());
      return true, inserted;
    }
    inserted' := WriteLastSecond(out, opts, info, t, inserted, plan, n);
    complete := WriteBody(stream, out, info, t, plan, n);
  }

  /** The onLastSecond tag, in front of the first late tag. */
  method WriteLastSecond(out: Sink, opts: Options, info: Info, t: uint32, inserted: bool, ghost plan: Plan,
      ghost n: nat)
    returns (inserted': bool)
    requires out.limit == Unlimited && plan.opts == opts && plan.info == info && n < |plan.seen| && t == plan.Time(n)
    requires !plan.Replaced(n) && inserted == plan.InsertedBefore(n)
    modifies out
    ensures out.out == old(out.out) + (if plan.InsertsAt(n) then TagBytes(plan.LastSecondTag(n)) else [])
    ensures inserted' == plan.InsertedBefore(n + 1)
  {
    hide TagBytes, Encode, Shift;
    inserted' := inserted;
    if opts.insertOnLastSecond && !inserted && !info.script.haveOnLastSecond && Minus32(info.lastTimestamp, t) <= 1000 {
      WriteInjected(out, t, ON_LAST_SECOND_NAME, ON_LAST_SECOND_VALUE, plan.LastSecondTag(n));
      inserted' := true;
    }
  }

  /** The copy of the tag the stream stands at. */
  method WriteBody(stream: Stream, out: Sink, info: Info, t: uint32, ghost plan: Plan,
      ghost n: nat) returns (complete: bool)
    requires AtHeader(stream) && out.limit == Unlimited && n < |plan.seen| && t == plan.Time(n) && plan.info == info
    requires plan.seen[n].tag == TagAt(stream.flvin.content, stream.offset)
    modifies stream, stream.flvin, out
    ensures complete <==> |plan.seen[n].tag.body| >= plan.Taken(n)
    ensures complete ==> out.out == old(out.out) + plan.CopyBytes(n)
    ensures complete ==> stream.Next() == old(stream.Next()) && !stream.flvin.eof
  {
    hide DecodeHeader, Shift, Plan.CopyBytes;
    var h := stream.current;
    var length: nat := h.bodyLength;
    if length > info.biggestBody {
      length := info.biggestBody;
    }
    var body := stream.ReadBody(length);
    if |body| < length {
      return false;
    }
    assert body == plan.seen[n].tag.body[..length];
    WriteCopy(out, h.(timestamp := t), body, plan, n);
    complete := true;
  }

  /** A copied tag: its header, what has been taken of its body, and the size of that. */
  method WriteCopy(out: Sink, h: Header, body: bytes, ghost plan: Plan, ghost n: nat)
    requires out.limit == Unlimited && n < |plan.seen| && |plan.seen[n].tag.body| >= plan.Taken(n)
    requires h == plan.seen[n].tag.header.(timestamp := plan.Time(n)) && body == plan.seen[n].tag.body[..plan.Taken(n)]
    modifies out
    ensures out.out == old(out.out) + plan.CopyBytes(n)
  {
    hide EncodeHeader, Shift, Be32;
    WriteHeader(out, h);
    var m := out.Put(body);
    m := out.Put(Be32((11 + |body|) % 0x1_0000_0000));
    assert out.out == old(out.out) + plan.CopyBytes(n);
  }

  /** write_flv with errors fatal. */
  method WriteFlv(stream: Stream, out: Sink, opts: Options, info: Info, header: bytes,
      onMetadata: Data) returns (r: Status)
    requires stream.flvin.file && out.limit == Unlimited && out.out == []
    modifies stream, stream.flvin, out
    ensures r != NoFlv
    ensures var plan := Plan(opts, info, onMetadata, SeenIn(stream.flvin.content));
            && (r == Done <==> plan.Writable())
            && (r == Done ==> out.out == plan.BytesUpto(header, |plan.seen|))
  {
    hide Tags, TagAt, Written, FileBytes, SeenIn, Plan.BytesUpto, Plan.BytesOf, Plan.Takes;
    ghost var file := stream.flvin.content;
    ghost var plan := Plan(opts, info, onMetadata, SeenIn(file));
    ghost var n := 0;
    WriteStart(out, info, header, onMetadata, plan);
    stream.Reset();
    StartWritten(plan, file, header);
    var clocks, inserted := START, false;
    while true
      invariant stream.flvin.file && !stream.flvin.eof
      invariant Written(plan, file, header, stream.Next(), n, clocks, inserted, out.out)
      decreases if stream.Next() <= |file| then |file| - stream.Next() + 1 else 0
    {
      ghost var next := stream.Next();
      var found := stream.ReadTag();
      if !found {
        EndWritten(plan, file, header, next, n, clocks, inserted, out.out);
        break;
      }
      NextWritten(plan, file, header, next, n, clocks, inserted, out.out);
      StepWritten(plan, file, header, next, n, clocks, inserted, out.out);
      clocks := clocks.Advance(stream.current);
      var complete;
      complete, inserted := WriteOne(stream, out, opts, info, onMetadata, clocks.Time(stream.current), inserted, plan,
        n);
      if !complete {
        return EarlyEnd;
      }
      n := n + 1;
    }
    r := Done;
  }

  /** The first pass has measured the biggest body, so the copy buffer is never too small. */
  lemma {:induction false} BiggestBody(opts: Options, seen: seq<Seen>, k: nat)
    requires k < |seen|
    ensures seen[k].Length() <= Gather(opts, seen).biggestBody
  {
    hide StepMeta, StepVideo, StepAudio;
    if k < |seen| - 1 {
      BiggestBody(opts, seen[..|seen| - 1], k);
    }
    BiggestKept(opts, Gather(opts, seen[..|seen| - 1]), seen[|seen| - 1]);
  }

  lemma BiggestKept(opts: Options, info: Info, s: Seen)
    ensures Step(opts, info, s).biggestBody >= info.biggestBody && Step(opts, info, s).biggestBody >= s.Length()
  {
  }
}
