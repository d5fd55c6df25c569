/** Timestamp correction: 24-bit timestamps that have wrapped are unwrapped, one register per tag type. */
module FlvClock {
  import opened Bytes
  import opened Flv

  /** The last raw timestamp of a tag type and the number of wraps seen, an 8-bit counter. */
  datatype Clock = Clock(last: uint32, wraps: byte) {
    function Advance(t: uint32): Clock {
      Clock(t, if t < last && last - t > 0xF00000 then (wraps + 1) % 256 else wraps)
    }

    function Time(): uint32 {
      if wraps > 0 then (last + wraps * 0x100_0000) % 0x1_0000_0000 else last
    }
  }

  datatype Clocks = Clocks(meta: Clock, audio: Clock, video: Clock) {
    function Of(kind: byte): Clock {
      if kind == META then meta else if kind == AUDIO then audio else video
    }

    function Advance(h: Header): Clocks {
      if h.kind == META then Clocks(meta.Advance(h.timestamp), audio, video)
      else if h.kind == AUDIO then Clocks(meta, audio.Advance(h.timestamp), video)
      else if h.kind == VIDEO then Clocks(meta, audio, video.Advance(h.timestamp))
      else this
    }

    /** The corrected timestamp of the tag the clocks were just advanced by. */
    function Time(h: Header): uint32 {
      if h.Known() then Of(h.kind).Time() else h.timestamp
    }
  }

  const START := Clocks(Clock(0, 0), Clock(0, 0), Clock(0, 0))

  function After(cs: Clocks, tags: seq<Tag>): Clocks {
    if tags == [] then cs else After(cs, tags[..|tags| - 1]).Advance(tags[|tags| - 1].header)
  }

  /** The corrected timestamp of every tag. */
  function Times(tags: seq<Tag>): (ts: seq<uint32>)
    ensures |ts| == |tags|
  {
    seq(|tags|, i requires 0 <= i < |tags| => After(START, tags[..i + 1]).Time(tags[i].header))
  }

  // ----- one tag type -----

  function Run(c: Clock, ts: seq<uint32>): (out: seq<uint32>)
    ensures |out| == |ts|
    decreases ts
  {
    if ts == [] then [] else
      var c' := c.Advance(ts[0]);
      [c'.Time()] + Run(c', ts[1..])
  }

  /** What is left of true clock values in 24-bit timestamps. */
  function Low(ts: seq<uint32>): (out: seq<uint32>)
    ensures |out| == |ts|
  {
    if ts == [] then [] else [ts[0] % 0x100_0000] + Low(ts[1..])
  }

  ghost predicate Rising(from: uint32, ts: seq<uint32>)
    decreases ts
  {
    ts != [] ==> from <= ts[0] && Rising(ts[0], ts[1..])
  }

  /**
   * A step of the true clock that the correction follows: within one 2^24 ms epoch, or into the next by less than 2^20
   * ms.
   */
  ghost predicate Followed(a: uint32, b: uint32) {
    a / 0x100_0000 == b / 0x100_0000 || (a / 0x100_0000 + 1 == b / 0x100_0000 && b - a < 0x10_0000)
  }

  ghost predicate AllFollowed(from: uint32, ts: seq<uint32>)
    decreases ts
  {
    ts != [] ==> Followed(from, ts[0]) && AllFollowed(ts[0], ts[1..])
  }

  /** A rising true clock is recovered from its low 24 bits exactly when every step is one the correction follows. */
  lemma {:induction false} UnwrapsIffFollowed(c: Clock, now: uint32, ts: seq<uint32>)
    requires c == Clock(now % 0x100_0000, now / 0x100_0000) && Rising(now, ts)
    ensures Run(c, Low(ts)) == ts <==> AllFollowed(now, ts)
    decreases ts
  {
    if ts != [] {
      var c' := c.Advance(ts[0] % 0x100_0000);
      var run, rest := Run(c, Low(ts)), Run(c', Low(ts[1..]));
      assert Low(ts)[1..] == Low(ts[1..]);
      assert run[0] == c'.Time() && run[1..] == rest;
      StepFollowed(now, ts[0]);
      if Followed(now, ts[0]) {
        UnwrapsIffFollowed(c', ts[0], ts[1..]);
      }
      assert ts == [ts[0]] + ts[1..];
    }
  }

  lemma StepFollowed(now: uint32, next: uint32)
    requires now <= next
    ensures var c := Clock(now % 0x100_0000, now / 0x100_0000).Advance(next % 0x100_0000);
            if Followed(now, next) then c == Clock(next % 0x100_0000, next / 0x100_0000) && c.Time() == next
            else c.Time() != next
  {
    var e, l, e', l' := now / 0x100_0000, now % 0x100_0000, next / 0x100_0000, next % 0x100_0000;
    assert now == e * 0x100_0000 + l && next == e' * 0x100_0000 + l';
    var c := Clock(l, e).Advance(l');
    assert c.last == l';
    assert c.wraps in {e, (e + 1) % 256};
    assert c.Time() == c.wraps * 0x100_0000 + l' by {
      EpochTime(c.wraps, l');
    }
  }

  lemma EpochTime(wraps: byte, low: uint24)
    ensures Clock(low, wraps).Time() == wraps * 0x100_0000 + low
  {
  }

  /** Every step is below 2^20 ms. */
  ghost predicate Slow(from: uint32, ts: seq<uint32>)
    decreases ts
  {
    ts != [] ==> ts[0] as int - from < 0x10_0000 && Slow(ts[0], ts[1..])
  }

  /** The property as the file format needs it: from a first value below 2^24, in steps below 2^20 ms. */
  lemma {:induction false} SlowClockUnwraps(now: uint32, ts: seq<uint32>)
    requires Rising(now, ts) && Slow(now, ts)
    ensures Run(Clock(now % 0x100_0000, now / 0x100_0000), Low(ts)) == ts
  {
    AllSlowFollowed(now, ts);
    UnwrapsIffFollowed(Clock(now % 0x100_0000, now / 0x100_0000), now, ts);
  }

  lemma {:induction false} AllSlowFollowed(now: uint32, ts: seq<uint32>)
    requires Rising(now, ts) && Slow(now, ts)
    ensures AllFollowed(now, ts)
    decreases ts
  {
    if ts != [] {
      AllSlowFollowed(ts[0], ts[1..]);
    }
  }

  ghost predicate NoDrop(from: uint32, ts: seq<uint32>)
    decreases ts
  {
    ts != [] ==> from as int - ts[0] <= 0xF00000 && NoDrop(ts[0], ts[1..])
  }

  /** Correction leaves timestamps alone exactly when none falls by more than 0xF00000. */
  lemma {:induction false} UnchangedIffNoDrop(last: uint32, ts: seq<uint32>)
    ensures Run(Clock(last, 0), ts) == ts <==> NoDrop(last, ts)
    decreases ts
  {
    if ts != [] {
      var c' := Clock(last, 0).Advance(ts[0]);
      var run := Run(Clock(last, 0), ts);
      assert run[0] == c'.Time() && run[1..] == Run(c', ts[1..]);
      assert ts == [ts[0]] + ts[1..];
      if last as int - ts[0] <= 0xF00000 {
        UnchangedIffNoDrop(ts[0], ts[1..]);
      } else {
        assert c'.Time() == (ts[0] as int + 0x100_0000) % 0x1_0000_0000;
      }
    }
  }

  // ----- all tag types -----

  /** Every tag is at least as late as all tags before it. */
  ghost predicate NeverEarlier(tags: seq<Tag>) {
    forall i, j | 0 <= i < j < |tags| :: tags[i].header.timestamp <= tags[j].header.timestamp
  }

  /** Rising timestamps are already correct: correcting a second time changes nothing. */
  lemma {:induction false} RisingIsCorrect(tags: seq<Tag>)
    requires NeverEarlier(tags)
    ensures forall i | 0 <= i < |tags| :: Times(tags)[i] == tags[i].header.timestamp
  {
    forall i | 0 <= i < |tags| ensures Times(tags)[i] == tags[i].header.timestamp {
      ClocksOfRising(tags[..i + 1]);
    }
  }

  lemma {:induction false} ClocksOfRising(tags: seq<Tag>)
    requires tags != [] && NeverEarlier(tags)
    ensures var cs, h := After(START, tags), tags[|tags| - 1].header;
            cs.meta.wraps == cs.audio.wraps == cs.video.wraps == 0
            && cs.meta.last <= h.timestamp && cs.audio.last <= h.timestamp && cs.video.last <= h.timestamp
            && cs.Time(h) == h.timestamp
  {
    var front := tags[..|tags| - 1];
    if front != [] {
      ClocksOfRising(front);
      assert front[|front| - 1] == tags[|tags| - 2];
    }
  }

  // ----- one tag type among all tags -----

  /** The timestamps the tags of one type carry. */
  function Carried(tags: seq<Tag>, kind: byte): seq<uint32> {
    if tags == [] then [] else
      var h := tags[|tags| - 1].header;
      Carried(tags[..|tags| - 1], kind) + if h.kind == kind then [h.timestamp] else []
  }

  /** The timestamps the tags of one type are given. */
  function Given(tags: seq<Tag>, kind: byte): seq<uint32> {
    if tags == [] then [] else
      var h := tags[|tags| - 1].header;
      Given(tags[..|tags| - 1], kind) + if h.kind == kind then [Times(tags)[|tags| - 1]] else []
  }

  function EndOfRun(c: Clock, ts: seq<uint32>): Clock
    decreases ts
  {
    if ts == [] then c else EndOfRun(c.Advance(ts[0]), ts[1..])
  }

  lemma {:induction false} RunOn(c: Clock, ts: seq<uint32>, t: uint32)
    ensures var c' := EndOfRun(c, ts).Advance(t);
            Run(c, ts + [t]) == Run(c, ts) + [c'.Time()] && EndOfRun(c, ts + [t]) == c'
    decreases ts
  {
    if ts == [] {
      assert ts + [t] == [t] && [t][1..] == [];
    } else {
      assert (ts + [t])[1..] == ts[1..] + [t];
      RunOn(c.Advance(ts[0]), ts[1..], t);
    }
  }

  /** Every tag type runs on a clock of its own: other tags in between do not matter. */
  lemma {:induction false} TypesAreIndependent(tags: seq<Tag>, kind: byte)
    requires kind == META || kind == AUDIO || kind == VIDEO
    ensures Given(tags, kind) == Run(Clock(0, 0), Carried(tags, kind))
    ensures After(START, tags).Of(kind) == EndOfRun(Clock(0, 0), Carried(tags, kind))
  {
    hide Clock.Advance, Clock.Time, Run;
    if tags == [] {
      EmptyRun();
    } else {
      var front, h := tags[..|tags| - 1], tags[|tags| - 1].header;
      TypesAreIndependent(front, kind);
      assert tags[..|tags|] == tags;
      if h.kind == kind {
        RunOn(Clock(0, 0), Carried(front, kind), h.timestamp);
      } else {
        assert Carried(tags, kind) == Carried(front, kind) && Given(tags, kind) == Given(front, kind);
      }
    }
  }

  lemma EmptyRun()
    ensures Run(Clock(0, 0), []) == []
  {
  }

  /**
   * The timestamps of one tag type are recovered: if its true clock starts below 2^24 ms, never falls and advances by
   * less than 2^20 ms from tag to tag, and the tags carry its low 24 bits, each tag is given its true time.
   */
  lemma TrueTimesAreGiven(tags: seq<Tag>, kind: byte, clock: seq<uint32>)
    requires kind == META || kind == AUDIO || kind == VIDEO
    requires Carried(tags, kind) == Low(clock)
    requires clock != [] ==> clock[0] < 0x100_0000 && Rising(clock[0], clock[1..]) && Slow(clock[0], clock[1..])
    ensures Given(tags, kind) == clock
  {
    hide Run, Low;
    TypesAreIndependent(tags, kind);
    if clock != [] {
      AllSlowFollowed(clock[0], clock[1..]);
    }
    UnwrapsIffFollowed(Clock(0, 0), 0, clock);
  }
}
