/** The picture size from an H.264 sequence parameter set: what the reader computes, and what the standard says. */
module Sps {
  import opened Bytes
  import opened Bits
  import opened Wrappers

  // ----- reading -----

  /** An index, or a read behind the end that makes the reader give up. */
  datatype Place = On(next: nat) | Short

  predicate HighProfile(profile: int) {
    profile == 100 || profile == 110 || profile == 122 || profile == 144
  }

  function NextScale(last: int, delta: int): int {
    (last + delta + 256) % 256
  }

  /** parse_scaling_list from one element on. */
  function ScalingList(s: bytes, p: nat, size: nat, last: int, next: int): nat
    decreases size
  {
    if size == 0 then p
    else if next == 0 then ScalingList(s, p, size - 1, last, 0)
    else
      var c := Se(s, p);
      var n := NextScale(last, c.value);
      ScalingList(s, c.next, size - 1, if n != 0 then n else last, n)
  }

  function ListSize(i: nat): nat {
    if i < 6 then 16 else 64
  }

  /** The eight scaling lists, from list i on. */
  function ScalingLists(s: bytes, p: nat, i: nat): Place
    decreases 8 - i
  {
    if i >= 8 then On(p)
    else if BitAt(s, p) == -1 then Short
    else ScalingLists(s, if BitAt(s, p) == 1 then ScalingList(s, p + 1, ListSize(i), 8, 8) else p + 1, i + 1)
  }

  /** The fields of the high profiles. */
  function High(s: bytes, p: nat): Place {
    var chroma := Ue(s, p);
    var q := Ue(s, Ue(s, chroma.next + if chroma.value == 3 then 1 else 0).next).next + 1;
    if BitAt(s, q) == -1 then Short else if BitAt(s, q) == 1 then ScalingLists(s, q + 1, 0) else On(q + 1)
  }

  function Offsets(s: bytes, p: nat, n: nat): nat
    decreases n
  {
    if n == 0 then p else Offsets(s, Se(s, p).next, n - 1)
  }

  /** The fields of the picture order count. */
  function OrderCount(s: bytes, p: nat): nat {
    var kind := Ue(s, p);
    if kind.value == 0 then Ue(s, kind.next).next
    else if kind.value == 1 then
      var size := Ue(s, Se(s, Se(s, kind.next + 1).next).next);
      Offsets(s, size.next, size.value)
    else kind.next
  }

  function U32Of(n: int): uint32 {
    n % 0x1_0000_0000
  }

  datatype Size = Size(width: uint32, height: uint32) | Unknown

  /** From the number of reference frames on. */
  function Dimensions(s: bytes, p: nat): Size {
    var w := Ue(s, Ue(s, p).next + 1);
    var h := Ue(s, w.next);
    var frames := BitAt(s, h.next);
    if frames == -1 then Unknown else
      var q := h.next + 1 + (if frames == 0 then 1 else 0) + 1;
      var cropped := BitAt(s, q);
      if cropped == -1 then Unknown else
        var l := Ue(s, q + 1);
        var r := Ue(s, l.next);
        var t := Ue(s, r.next);
        var b := Ue(s, t.next);
        if cropped == 0 then SizeOf(w.value, h.value, frames == 1, 0, 0, 0, 0)
        else SizeOf(w.value, h.value, frames == 1, l.value, r.value, t.value, b.value)
  }

  /** The arithmetic at the end of parse_sps, in 32 bits. */
  function SizeOf(w: int, h: int, frames: bool, left: int, right: int, top: int, bottom: int): Size {
    Size(U32Of(16 * (w + 1) - 2 * (left + right)),
         if frames then U32Of(16 * (h + 1) - 2 * (top + bottom)) else U32Of(2 * (16 * (h + 1) - 4 * (top + bottom))))
  }

  /** parse_sps. */
  function ParseSps(s: bytes): Size {
    var profile := ReadBits(s, 8, 8);
    if !profile.ok then Unknown else
      var p := Ue(s, profile.next + 16).next;
      var q := if HighProfile(profile.value) then High(s, p) else On(p);
      if q.Short? then Unknown else Dimensions(s, OrderCount(s, Ue(s, q.next).next))
  }

  // ----- the syntax of section 7.3.2.1.1 of ITU-T H.264 -----

  datatype HighFields = HighFields(
    chromaFormat: nat, separatePlanes: bit, lumaDepth: nat, chromaDepth: nat, bypass: bit,
    scaling: Option<seq<Option<seq<int>>>>)

  datatype PicOrder =
    | Lsb(log2: nat)
    | Cycle(alwaysZero: bit, nonRef: int, topToBottom: int, offsets: seq<int>)
    | Implied

  datatype Crop = Crop(left: nat, right: nat, top: nat, bottom: nat)

  datatype Set = Set(
    nal: byte, profile: byte, flags: byte, level: byte, id: nat, high: HighFields,
    log2FrameNum: nat, order: PicOrder, refFrames: nat, gaps: bit,
    width: nat, height: nat, frameMbsOnly: bit, adaptive: bit, inference: bit, crop: Option<Crop>)

  function Join(parts: seq<seq<bit>>): seq<bit> {
    if parts == [] then [] else parts[0] + Join(parts[1..])
  }

  function Deltas(ds: seq<int>): seq<bit> {
    if ds == [] then [] else SeBits(ds[0]) + Deltas(ds[1..])
  }

  function Lists(ls: seq<Option<seq<int>>>): seq<bit> {
    if ls == [] then [] else (if ls[0].None? then [0] else [1] + Deltas(ls[0].value)) + Lists(ls[1..])
  }

  function HighBits(h: HighFields): seq<bit> {
    Join([UeBits(h.chromaFormat), if h.chromaFormat == 3 then [h.separatePlanes] else [], UeBits(h.lumaDepth),
      UeBits(h.chromaDepth),
          [h.bypass], if h.scaling.None? then [0] else [1] + Lists(h.scaling.value)])
  }

  function OrderBits(o: PicOrder): seq<bit> {
    match o
    case Lsb(log2) => UeBits(0) + UeBits(log2)
    case Cycle(z, n, t, offsets) => Join([UeBits(1), [z], SeBits(n), SeBits(t), UeBits(|offsets|), Deltas(offsets)])
    case Implied => UeBits(2)
  }

  function TailBits(x: Set): seq<bit> {
    Join([UeBits(x.refFrames), [x.gaps], UeBits(x.width), UeBits(x.height), [x.frameMbsOnly],
          if x.frameMbsOnly == 0 then [x.adaptive] else [], [x.inference],
          if x.crop.None? then [0] else CropBits(x.crop.value)])
  }

  function CropBits(c: Crop): seq<bit> {
    Join([[1], UeBits(c.left), UeBits(c.right), UeBits(c.top), UeBits(c.bottom)])
  }

  /** The parameter set, its type byte included; what follows the cropping fields does not matter here. */
  function SetBits(x: Set): seq<bit> {
    Join([Binary(x.nal, 8), Binary(x.profile, 8), Binary(x.flags, 8) + Binary(x.level, 8), UeBits(x.id),
          if HighProfile(x.profile) then HighBits(x.high)
            else [], UeBits(x.log2FrameNum), OrderBits(x.order), TailBits(x)])
  }

  /** A list holds a value for every element until the next scale is zero. */
  predicate Complete(ds: seq<int>, size: nat, last: int, next: int) {
    if size == 0 || next == 0 then ds == []
    else ds != [] && var n := NextScale(last, ds[0]); Complete(ds[1..], size - 1, if n != 0 then n else last, n)
  }

  predicate UeOk(k: nat) {
    k < 0x7FFF_FFFF
  }

  predicate AllSeOk(ds: seq<int>) {
    forall d | d in ds :: -0x4000_0000 < d < 0x4000_0000
  }

  predicate ListsOk(ls: seq<Option<seq<int>>>, i: nat) {
    forall j | 0 <= j < |ls| && ls[j].Some? :: AllSeOk(ls[j].value) && Complete(ls[j].value, ListSize(i + j), 8, 8)
  }

  /** A parameter set with codes in the ranges above; a scaling matrix has the eight lists of all but 4:4:4 video. */
  predicate SetOk(x: Set) {
    && UeOk(x.id) && UeOk(x.log2FrameNum) && UeOk(x.refFrames) && UeOk(x.width) && UeOk(x.height)
    && UeOk(x.high.chromaFormat) && UeOk(x.high.lumaDepth) && UeOk(x.high.chromaDepth)
    && (x.high.scaling.Some? ==> |x.high.scaling.value| == 8 && ListsOk(x.high.scaling.value, 0))
    && (match x.order
        case Lsb(log2) => UeOk(log2)
        case Cycle(_, n, t, offsets) => AllSeOk([n, t]) && UeOk(|offsets|) && AllSeOk(offsets)
        case Implied => true)
    && (x.crop.Some? ==>
      UeOk(x.crop.value.left) && UeOk(x.crop.value.right) && UeOk(x.crop.value.top) && UeOk(x.crop.value.bottom))
  }

  // ----- reading what was written -----

  lemma JoinStands(s: bytes, p: nat, parts: seq<seq<bit>>)
    requires Stands(s, p, Join(parts)) && parts != []
    ensures Stands(s, p, parts[0]) && Stands(s, p + |parts[0]|, Join(parts[1..]))
    ensures |Join(parts)| == |parts[0]| + |Join(parts[1..])|
  {
    hide Stands;
    StandsAppend(s, p, parts[0], Join(parts[1..]));
  }

  lemma {:induction false} DeltasRead(s: bytes, p: nat, ds: seq<int>, size: nat, last: int, next: int)
    requires Stands(s, p, Deltas(ds)) && AllSeOk(ds) && Complete(ds, size, last, next)
    ensures ScalingList(s, p, size, last, next) == p + |Deltas(ds)|
    decreases size
  {
    hide Stands, Se, SeBits, NextScale;
    if size > 0 {
      if next == 0 {
        DeltasRead(s, p, ds, size - 1, last, 0);
      } else {
        var n := NextScale(last, ds[0]);
        assert ds[0] in ds && forall d | d in ds[1..] :: d in ds;
        StandsAppend(s, p, SeBits(ds[0]), Deltas(ds[1..]));
        SeReads(s, p, ds[0]);
        DeltasRead(s, p + |SeBits(ds[0])|, ds[1..], size - 1, if n != 0 then n else last, n);
      }
    }
  }

  lemma {:induction false} OffsetsRead(s: bytes, p: nat, ds: seq<int>)
    requires Stands(s, p, Deltas(ds)) && AllSeOk(ds)
    ensures Offsets(s, p, |ds|) == p + |Deltas(ds)|
    decreases |ds|
  {
    hide Stands, Se, SeBits;
    if ds != [] {
      assert ds[0] in ds && forall d | d in ds[1..] :: d in ds;
      StandsAppend(s, p, SeBits(ds[0]), Deltas(ds[1..]));
      SeReads(s, p, ds[0]);
      OffsetsRead(s, p + |SeBits(ds[0])|, ds[1..]);
    }
  }

  lemma {:induction false} ListsRead(s: bytes, p: nat, ls: seq<Option<seq<int>>>, i: nat)
    requires Stands(s, p, Lists(ls)) && i + |ls| == 8 && ListsOk(ls, i)
    ensures ScalingLists(s, p, i) == On(p + |Lists(ls)|)
    decreases |ls|
  {
    hide Stands, BitAt, ScalingList, Complete, AllSeOk, Deltas;
    if ls != [] {
      var head := if ls[0].None? then [0] else [1] + Deltas(ls[0].value);
      StandsAppend(s, p, head, Lists(ls[1..]));
      if ls[0].None? {
        StandsOne(s, p, 0);
      } else {
        StandsAppend(s, p, [1], Deltas(ls[0].value));
        StandsOne(s, p, 1);
        DeltasRead(s, p + 1, ls[0].value, ListSize(i), 8, 8);
      }
      LaterLists(ls, i);
      ListsRead(s, p + |head|, ls[1..], i + 1);
    }
  }

  lemma LaterLists(ls: seq<Option<seq<int>>>, i: nat)
    requires ls != [] && ListsOk(ls, i)
    ensures ListsOk(ls[1..], i + 1)
    ensures ls[0].Some? ==> AllSeOk(ls[0].value) && Complete(ls[0].value, ListSize(i), 8, 8)
  {
    hide AllSeOk, Complete;
    var rest := ls[1..];
    forall j | 0 <= j < |rest| && rest[j].Some?
      ensures AllSeOk(rest[j].value) && Complete(rest[j].value, ListSize(i + 1 + j), 8, 8)
    {
      assert rest[j] == ls[j + 1] && i + 1 + j == i + (j + 1);
    }
  }

  /** The total length of the first n parts. */
  function Before(parts: seq<seq<bit>>, n: nat): nat
    requires n <= |parts|
  {
    if n == 0 then 0 else Before(parts, n - 1) + |parts[n - 1]|
  }

  lemma {:induction false} FirstStand(s: bytes, p: nat, parts: seq<seq<bit>>, n: nat)
    requires n < |parts| && Stands(s, p, Join(parts))
    ensures Stands(s, p + Before(parts, n), parts[n]) && Stands(s, p + Before(parts, n), Join(parts[n..]))
  {
    hide Stands, Join;
    if n == 0 {
      assert parts[0..] == parts;
      JoinStands(s, p, parts);
    } else {
      FirstStand(s, p, parts, n - 1);
      JoinStands(s, p + Before(parts, n - 1), parts[n - 1..]);
      assert parts[n - 1..][1..] == parts[n..] && parts[n - 1..][0] == parts[n - 1];
      JoinStands(s, p + Before(parts, n), parts[n..]);
    }
  }

  lemma {:induction false} JoinLength(parts: seq<seq<bit>>, k: nat)
    requires k <= |parts|
    ensures |Join(parts[k..])| == Before(parts, |parts|) - Before(parts, k)
    decreases |parts| - k
  {
    if k < |parts| {
      JoinLength(parts, k + 1);
      assert parts[k..][0] == parts[k] && parts[k..][1..] == parts[k + 1..];
    }
  }

  /** Where part n stands. */
  lemma PartStands(s: bytes, p: nat, parts: seq<seq<bit>>, n: nat)
    requires n < |parts| && Stands(s, p, Join(parts))
    ensures Stands(s, p + Before(parts, n), parts[n]) && Before(parts, 0) == 0
    ensures Before(parts, n + 1) == Before(parts, n) + |parts[n]|
    ensures n + 1 == |parts| ==> |Join(parts)| == Before(parts, n + 1)
  {
    hide Stands, Join;
    FirstStand(s, p, parts, n);
    JoinLength(parts, 0);
    assert parts[0..] == parts;
  }

  lemma HighRead(s: bytes, p: nat, h: HighFields)
    requires Stands(s, p, HighBits(h)) && UeOk(h.chromaFormat) && UeOk(h.lumaDepth) && UeOk(h.chromaDepth)
    requires h.scaling.Some? ==> |h.scaling.value| == 8 && ListsOk(h.scaling.value, 0)
    ensures High(s, p) == On(p + |HighBits(h)|)
  {
    hide Stands, BitAt, Ue, UeBits, Lists, ScalingLists, ListsOk, Join, Before;
    var parts := [UeBits(h.chromaFormat), if h.chromaFormat == 3 then [h.separatePlanes] else [], UeBits(h.lumaDepth),
      UeBits(h.chromaDepth),
                  [h.bypass], if h.scaling.None? then [0] else [1] + Lists(h.scaling.value)];
    PartStands(s, p, parts, 0);
    PartStands(s, p, parts, 1);
    PartStands(s, p, parts, 2);
    PartStands(s, p, parts, 3);
    PartStands(s, p, parts, 4);
    PartStands(s, p, parts, 5);
    UeReads(s, p + Before(parts, 0), h.chromaFormat);
    UeReads(s, p + Before(parts, 2), h.lumaDepth);
    UeReads(s, p + Before(parts, 3), h.chromaDepth);
    var q := p + Before(parts, 5);
    if h.scaling.None? {
      StandsOne(s, q, 0);
    } else {
      StandsAppend(s, q, [1], Lists(h.scaling.value));
      StandsOne(s, q, 1);
      ListsRead(s, q + 1, h.scaling.value, 0);
    }
  }

  lemma OrderRead(s: bytes, p: nat, o: PicOrder)
    requires Stands(s, p, OrderBits(o))
    requires o.Lsb? ==> UeOk(o.log2)
    requires o.Cycle? ==> AllSeOk([o.nonRef, o.topToBottom]) && UeOk(|o.offsets|) && AllSeOk(o.offsets)
    ensures OrderCount(s, p) == p + |OrderBits(o)|
  {
    hide Stands, Ue, Se, UeBits, SeBits, Deltas, Offsets, Join, Before;
    match o
    case Lsb(log2) =>
      StandsAppend(s, p, UeBits(0), UeBits(log2));
      UeReads(s, p, 0);
      UeReads(s, p + |UeBits(0)|, log2);
    case Cycle(z, n, t, offsets) =>
      var parts := [UeBits(1), [z], SeBits(n), SeBits(t), UeBits(|offsets|), Deltas(offsets)];
      PartStands(s, p, parts, 0);
      PartStands(s, p, parts, 1);
      PartStands(s, p, parts, 2);
      PartStands(s, p, parts, 3);
      PartStands(s, p, parts, 4);
      PartStands(s, p, parts, 5);
      assert n in [n, t] && t in [n, t];
      UeReads(s, p + Before(parts, 0), 1);
      SeReads(s, p + Before(parts, 2), n);
      SeReads(s, p + Before(parts, 3), t);
      UeReads(s, p + Before(parts, 4), |offsets|);
      OffsetsRead(s, p + Before(parts, 5), offsets);
    case Implied =>
      UeReads(s, p, 2);
  }

  /** The size the reader computes for a parameter set. */
  function ReadSize(x: Set): Size {
    var c := if x.crop.None? then Crop(0, 0, 0, 0) else x.crop.value;
    SizeOf(x.width, x.height, x.frameMbsOnly == 1, c.left, c.right, c.top, c.bottom)
  }

  lemma TailRead(s: bytes, p: nat, x: Set)
    requires Stands(s, p, TailBits(x)) && SetOk(x)
    ensures Dimensions(s, p) == ReadSize(x)
  {
    hide Stands, BitAt, Ue, UeBits, CropBits, Join, Before, SizeOf;
    var parts := [UeBits(x.refFrames), [x.gaps], UeBits(x.width), UeBits(x.height), [x.frameMbsOnly],
                  if x.frameMbsOnly == 0 then [x.adaptive] else [], [x.inference],
                    if x.crop.None? then [0] else CropBits(x.crop.value)];
    PartStands(s, p, parts, 0);
    PartStands(s, p, parts, 1);
    PartStands(s, p, parts, 2);
    PartStands(s, p, parts, 3);
    PartStands(s, p, parts, 4);
    PartStands(s, p, parts, 5);
    PartStands(s, p, parts, 6);
    PartStands(s, p, parts, 7);
    UeReads(s, p + Before(parts, 0), x.refFrames);
    UeReads(s, p + Before(parts, 2), x.width);
    UeReads(s, p + Before(parts, 3), x.height);
    StandsOne(s, p + Before(parts, 4), x.frameMbsOnly);
    var q := p + Before(parts, 7);
    if x.crop.None? {
      StandsOne(s, q, 0);
    } else {
      CropRead(s, q, x.crop.value);
    }
  }

  lemma CropRead(s: bytes, p: nat, c: Crop)
    requires Stands(s, p, CropBits(c)) && UeOk(c.left) && UeOk(c.right) && UeOk(c.top) && UeOk(c.bottom)
    ensures BitAt(s, p) == 1
    ensures var l := Ue(s, p + 1); var r := Ue(s, l.next); var t := Ue(s, r.next); var b := Ue(s, t.next);
            l.value == c.left && r.value == c.right && t.value == c.top && b.value == c.bottom
  {
    hide Stands, BitAt, Ue, UeBits, Join, Before;
    var parts := [[1], UeBits(c.left), UeBits(c.right), UeBits(c.top), UeBits(c.bottom)];
    PartStands(s, p, parts, 0);
    PartStands(s, p, parts, 1);
    PartStands(s, p, parts, 2);
    PartStands(s, p, parts, 3);
    PartStands(s, p, parts, 4);
    StandsOne(s, p, 1);
    UeReads(s, p + Before(parts, 1), c.left);
    UeReads(s, p + Before(parts, 2), c.right);
    UeReads(s, p + Before(parts, 3), c.top);
    UeReads(s, p + Before(parts, 4), c.bottom);
  }

  /** Reading any buffer that starts with a parameter set gives the size computed from its fields. */
  lemma SetReads(s: bytes, x: Set)
    requires Stands(s, 0, SetBits(x)) && SetOk(x)
    ensures ParseSps(s) == ReadSize(x)
  {
    hide Stands, Ue, UeBits, High, HighBits, OrderCount, OrderBits, Dimensions, TailBits, Binary, Join, Before,
      ReadSize;
    var parts := [Binary(x.nal, 8), Binary(x.profile, 8), Binary(x.flags, 8) + Binary(x.level, 8), UeBits(x.id),
                  if HighProfile(x.profile) then HighBits(x.high) else [], UeBits(x.log2FrameNum), OrderBits(x.order),
                    TailBits(x)];
    PartStands(s, 0, parts, 0);
    PartStands(s, 0, parts, 1);
    PartStands(s, 0, parts, 2);
    PartStands(s, 0, parts, 3);
    PartStands(s, 0, parts, 4);
    PartStands(s, 0, parts, 5);
    PartStands(s, 0, parts, 6);
    PartStands(s, 0, parts, 7);
    PowersOfTwo();
    BinaryReads(s, 8, x.profile, 8);
    UeReads(s, Before(parts, 3), x.id);
    if HighProfile(x.profile) {
      HighRead(s, Before(parts, 4), x.high);
    }
    UeReads(s, Before(parts, 5), x.log2FrameNum);
    OrderRead(s, Before(parts, 6), x.order);
    TailRead(s, Before(parts, 7), x);
  }

  // ----- the standard's picture size -----

  /** chroma_format_idc: 1 (4:2:0) unless a high profile says otherwise. */
  function ChromaFormat(x: Set): nat {
    if HighProfile(x.profile) then x.high.chromaFormat else 1
  }

  /** Table 6-1: the chroma subsampling factors; cropping counts in chroma samples, or in luma samples without them. */
  function SubWidth(x: Set): nat {
    if ChromaFormat(x) == 1 || ChromaFormat(x) == 2 then 2 else 1
  }

  function SubHeight(x: Set): nat {
    if ChromaFormat(x) == 1 then 2 else 1
  }

  /** Section 7.4.2.1.1: the size of the cropped picture, in frame height. */
  function StandardWidth(x: Set): int {
    var c := if x.crop.None? then Crop(0, 0, 0, 0) else x.crop.value;
    16 * (x.width + 1) - SubWidth(x) * (c.left + c.right)
  }

  function StandardHeight(x: Set): int {
    var c := if x.crop.None? then Crop(0, 0, 0, 0) else x.crop.value;
    (2 - x.frameMbsOnly) * (16 * (x.height + 1)) - SubHeight(x) * (2 - x.frameMbsOnly) * (c.top + c.bottom)
  }

  /** A picture whose cropping, in units of up to eight rows, leaves something, and whose size fits 32 bits. */
  predicate Sensible(x: Set) {
    var c := if x.crop.None? then Crop(0, 0, 0, 0) else x.crop.value;
    && 2 * (c.left + c.right) < 16 * (x.width + 1) < 0x1_0000_0000
    && 8 * (c.top + c.bottom) < 32 * (x.height + 1) < 0x1_0000_0000
  }

  /**
   * The size is the standard's exactly if the video is subsampled horizontally or not cropped at the sides, and is
   * progressive 4:2:0 or not cropped at top and bottom: of interlaced video the reader doubles the cropping twice.
   */
  lemma SizeIsStandard(s: bytes, x: Set)
    requires Stands(s, 0, SetBits(x)) && SetOk(x) && Sensible(x)
    ensures ParseSps(s).Size?
    ensures ParseSps(s).width == StandardWidth(x) <==>
      SubWidth(x) == 2 || x.crop.None? || x.crop.value.left + x.crop.value.right == 0
    ensures ParseSps(s).height == StandardHeight(x)
       <==> (x.frameMbsOnly == 1 && SubHeight(x) == 2) || x.crop.None? || x.crop.value.top + x.crop.value.bottom == 0
  {
    hide Stands, SetBits, ParseSps, SetOk, Sensible, StandardWidth, StandardHeight;
    SetReads(s, x);
    WidthIsStandard(x);
    HeightIsStandard(x);
  }

  lemma WidthIsStandard(x: Set)
    requires Sensible(x)
    ensures ReadSize(x).Size?
    ensures ReadSize(x).width == StandardWidth(x) <==>
      SubWidth(x) == 2 || x.crop.None? || x.crop.value.left + x.crop.value.right == 0
  {
    var c := if x.crop.None? then Crop(0, 0, 0, 0) else x.crop.value;
    var sides: int := c.left + c.right;
    Uncut(16 * (x.width + 1) - 2 * sides);
    assert SubWidth(x) * sides == if SubWidth(x) == 2 then 2 * sides else sides;
  }

  lemma HeightIsStandard(x: Set)
    requires Sensible(x)
    ensures ReadSize(x).height == StandardHeight(x)
       <==> (x.frameMbsOnly == 1 && SubHeight(x) == 2) || x.crop.None? || x.crop.value.top + x.crop.value.bottom == 0
  {
    hide U32Of;
    var c := if x.crop.None? then Crop(0, 0, 0, 0) else x.crop.value;
    var rows: int := c.top + c.bottom;
    if x.frameMbsOnly == 1 {
      Uncut(16 * (x.height + 1) - 2 * rows);
      assert SubHeight(x) * (2 - x.frameMbsOnly) * rows == if SubHeight(x) == 2 then 2 * rows else rows;
    } else {
      Uncut(2 * (16 * (x.height + 1) - 4 * rows));
      assert SubHeight(x) * (2 - x.frameMbsOnly) * rows == if SubHeight(x) == 2 then 4 * rows else 2 * rows;
    }
  }

  lemma Uncut(n: int)
    requires 0 <= n < 0x1_0000_0000
    ensures U32Of(n) == n
  {
  }

  // ----- the reader -----

  method ParseScalingList(size: nat, bb: BitBuffer)
    requires bb.Valid()
    modifies bb
    ensures bb.Valid() && bb.Index() == ScalingList(bb.data, old(bb.Index()), size, 8, 8)
  {
    hide Se;
    var lastScale, nextScale := 8, 8;
    ghost var end := ScalingList(bb.data, bb.Index(), size, 8, 8);
    for i := 0 to size
      invariant bb.Valid() && end == ScalingList(bb.data, bb.Index(), size - i, lastScale, nextScale)
    {
      if nextScale != 0 {
        var delta := bb.ExpGolombSe();
        nextScale := (lastScale + delta + 256) % 256;
      }
      if nextScale != 0 {
        lastScale := nextScale;
      }
    }
  }

  /** The scaling matrix. */
  method ParseScalingLists(bb: BitBuffer) returns (ok: bool)
    requires bb.Valid()
    modifies bb
    ensures bb.Valid() && ScalingLists(bb.data, old(bb.Index()), 0) == if ok then On(bb.Index()) else Short
  {
    hide BitAt, ScalingList;
    ghost var result := ScalingLists(bb.data, bb.Index(), 0);
    for i := 0 to 8
      invariant bb.Valid() && result == ScalingLists(bb.data, bb.Index(), i)
    {
      var bit := bb.GetBit();
      if bit == -1 {
        return false;
      }
      if bit == 1 {
        ParseScalingList(if i < 6 then 16 else 64, bb);
      }
    }
    ok := true;
  }

  method ParseHigh(bb: BitBuffer) returns (ok: bool)
    requires bb.Valid()
    modifies bb
    ensures bb.Valid() && High(bb.data, old(bb.Index())) == if ok then On(bb.Index()) else Short
  {
    hide BitAt, Ue, ScalingLists;
    var chroma := bb.ExpGolombUe();
    if chroma == 3 {
      bb.SkipBits(1);
    }
    var _ := bb.ExpGolombUe();
    var _ := bb.ExpGolombUe();
    bb.SkipBits(1);
    var bit := bb.GetBit();
    if bit == -1 {
      return false;
    }
    ok := true;
    if bit == 1 {
      ok := ParseScalingLists(bb);
    }
  }

  method ParseOrderCount(bb: BitBuffer)
    requires bb.Valid()
    modifies bb
    ensures bb.Valid() && bb.Index() == OrderCount(bb.data, old(bb.Index()))
  {
    hide Ue, Se;
    var kind := bb.ExpGolombUe();
    if kind == 0 {
      var _ := bb.ExpGolombUe();
    } else if kind == 1 {
      bb.SkipBits(1);
      var _ := bb.ExpGolombSe();
      var _ := bb.ExpGolombSe();
      var size := bb.ExpGolombUe();
      ghost var end := Offsets(bb.data, bb.Index(), size);
      for i := 0 to size
        invariant bb.Valid() && end == Offsets(bb.data, bb.Index(), size - i)
      {
        var _ := bb.ExpGolombSe();
      }
    }
  }

  method ParseDimensions(bb: BitBuffer) returns (size: Size)
    requires bb.Valid()
    modifies bb
    ensures bb.Valid() && size == Dimensions(bb.data, old(bb.Index()))
  {
    hide BitAt, Ue;
    var _ := bb.ExpGolombUe();
    bb.SkipBits(1);
    var w := bb.ExpGolombUe();
    var h := bb.ExpGolombUe();
    var frames := bb.GetBit();
    if frames == -1 {
      return Unknown;
    }
    if frames == 0 {
      bb.SkipBits(1);
    }
    bb.SkipBits(1);
    var cropped := bb.GetBit();
    if cropped == -1 {
      return Unknown;
    }
    var left, right, top, bottom := 0, 0, 0, 0;
    if cropped == 1 {
      left := bb.ExpGolombUe();
      right := bb.ExpGolombUe();
      top := bb.ExpGolombUe();
      bottom := bb.ExpGolombUe();
    }
    size := Measure(w, h, frames, left, right, top, bottom);
  }

  /** The arithmetic, each step in 32 bits. */
  method Measure(w: uint32, h: uint32, frames: int, left: uint32, right: uint32, top: uint32,
      bottom: uint32) returns (size: Size)
    requires frames == 0 || frames == 1
    ensures size == SizeOf(w, h, frames == 1, left, right, top, bottom)
  {
    hide U32Of, Wraps;
    var k := if frames == 0 then 2 else 1;
    var width := Extent(w, left, right, 1);
    var height := Extent(h, top, bottom, k);
    if frames == 0 {
      ghost var exact := 16 * (h as int + 1) - 4 * (top as int + bottom);
      Unwrap(exact);
      Wrapped(height as int * 2, 2 * exact, 2 * Wraps(exact));
      height := U32Of(height as int * 2);
    }
    size := Size(width, height);
  }

  function Wraps(n: int): int {
    n / 0x1_0000_0000
  }

  /** Equal up to multiples of 2^32. */
  lemma Wrapped(a: int, b: int, q: int)
    requires a == b - q * 0x1_0000_0000
    ensures U32Of(a) == U32Of(b)
  {
  }

  lemma Unwrap(n: int)
    ensures U32Of(n) == n - Wraps(n) * 0x1_0000_0000
  {
  }

  /** 16 * (n + 1) less the cropping on both sides, doubled k times over. */
  method Extent(n: uint32, before: uint32, after: uint32, k: int) returns (size: uint32)
    requires k == 1 || k == 2
    ensures size == U32Of(16 * (n as int + 1) - 2 * k * (before as int + after))
  {
    hide U32Of, Wraps;
    var units := U32Of(n as int + 1);
    var a, b := U32Of(before as int * 2), U32Of(after as int * 2);
    ghost var qa, qb := Wraps(before as int * 2), Wraps(after as int * 2);
    Unwrap(n as int + 1);
    Unwrap(before as int * 2);
    Unwrap(after as int * 2);
    if k == 2 {
      Unwrap(a as int * 2);
      Unwrap(b as int * 2);
      qa, qb := 2 * qa + Wraps(a as int * 2), 2 * qb + Wraps(b as int * 2);
      a, b := U32Of(a as int * 2), U32Of(b as int * 2);
    }
    var whole, cut := U32Of(units as int * 16), U32Of(a as int + b);
    Unwrap(units as int * 16);
    Unwrap(a as int + b);
    size := U32Of(whole as int - cut);
    Wrapped(whole as int - cut, 16 * (n as int + 1) - 2 * k * (before as int + after),
            16 * Wraps(n as int + 1) + Wraps(units as int * 16) - qa - qb - Wraps(a as int + b));
  }

  /** parse_sps on its own buffer. */
  method Parse(sps: bytes) returns (size: Size)
    ensures size == ParseSps(sps)
  {
    hide Ue, High, OrderCount, Dimensions, ReadBits;
    var bb := new BitBuffer(sps);
    bb.SkipBits(8);
    var ok, profile := bb.GetBits(8);
    if !ok {
      return Unknown;
    }
    bb.SkipBits(16);
    var _ := bb.ExpGolombUe();
    if profile == 100 || profile == 110 || profile == 122 || profile == 144 {
      ok := ParseHigh(bb);
      if !ok {
        return Unknown;
      }
    }
    var _ := bb.ExpGolombUe();
    ParseOrderCount(bb);
    size := ParseDimensions(bb);
  }
}
