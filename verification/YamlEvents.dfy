/** Event streams of the YAML library, and which of them are balanced. */
module YamlEvents {
  datatype Event =
    | StreamStart | StreamEnd | DocumentStart | DocumentEnd
    | Alias | Scalar | SequenceStart | SequenceEnd | MappingStart | MappingEnd

  /** What is open: the stream, a document with or without its node, a sequence, a mapping before a key or a value. */
  datatype Frame = InStream | InDocument(full: bool) | InSequence | InMapping(value: bool) {
    predicate TakesNode() {
      this == InDocument(false) || InSequence? || InMapping?
    }

    /** The frame once a node in it has begun. */
    function Filled(): Frame {
      match this
      case InDocument(_) => InDocument(true)
      case InMapping(value) => InMapping(!value)
      case _ => this
    }
  }

  /** How far an event stream has got. */
  datatype Place = Before | Open(frames: seq<Frame>) | After | Wrong

  function Top(fs: seq<Frame>): Frame
    requires fs != []
  {
    fs[|fs| - 1]
  }

  function Below(fs: seq<Frame>): seq<Frame>
    requires fs != []
  {
    fs[..|fs| - 1]
  }

  /** The place after a node has begun, and another frame opened with it. */
  function WithNode(fs: seq<Frame>, inner: seq<Frame>): Place {
    if fs != [] && Top(fs).TakesNode() then Open(Below(fs) + [Top(fs).Filled()] + inner) else Wrong
  }

  function Closed(fs: seq<Frame>, top: Frame): Place {
    if fs != [] && Top(fs) == top then Open(Below(fs)) else Wrong
  }

  /** One event. */
  function Next(p: Place, e: Event): Place {
    match p
    case Before => if e == StreamStart then Open([InStream]) else Wrong
    case Open(fs) =>
      (match e
       case DocumentStart => if fs == [InStream] then Open([InStream, InDocument(false)]) else Wrong
       case DocumentEnd => if fs == [InStream, InDocument(true)] then Open([InStream]) else Wrong
       case StreamEnd => if fs == [InStream] then After else Wrong
       case Alias => WithNode(fs, [])
       case Scalar => WithNode(fs, [])
       case SequenceStart => WithNode(fs, [InSequence])
       case MappingStart => WithNode(fs, [InMapping(false)])
       case SequenceEnd => Closed(fs, InSequence)
       case MappingEnd => Closed(fs, InMapping(false))
       case StreamStart => Wrong)
    case _ => Wrong
  }

  function Run(p: Place, es: seq<Event>): Place {
    if es == [] then p else Next(Run(p, es[..|es| - 1]), es[|es| - 1])
  }

  /** A whole, balanced stream. */
  predicate Balanced(es: seq<Event>) {
    Run(Before, es) == After
  }

  lemma {:induction false} RunAppend(p: Place, a: seq<Event>, b: seq<Event>)
    ensures Run(p, a + b) == Run(Run(p, a), b)
  {
    if b == [] {
      assert a + b == a;
    } else {
      assert (a + b)[..|a + b| - 1] == a + b[..|b| - 1];
      RunAppend(p, a, b[..|b| - 1]);
    }
  }

  lemma RunOne(p: Place, e: Event)
    ensures Run(p, [e]) == Next(p, e)
  {
    assert [e][..0] == [];
  }

  lemma {:induction false} WrongForGood(es: seq<Event>)
    ensures Run(Wrong, es) == Wrong
  {
    if es != [] {
      WrongForGood(es[..|es| - 1]);
    }
  }

  // ----- every stream that has not gone wrong can be completed -----

  /** Frames as they lie on each other: the stream, one document, and then only collections. */
  predicate Stacked(fs: seq<Frame>) {
    && fs != [] && fs[0] == InStream
    && (|fs| > 1 ==> fs[1].InDocument?) && (|fs| > 2 ==> fs[1] == InDocument(true))
    && forall i | 2 <= i < |fs| :: fs[i].InSequence? || fs[i].InMapping?
  }

  predicate Possible(p: Place) {
    p == Before || p == After || (p.Open? && Stacked(p.frames))
  }

  lemma NextPossible(p: Place, e: Event)
    requires Possible(p)
    ensures Next(p, e) == Wrong || Possible(Next(p, e))
  {
  }

  lemma {:induction false} RunPossible(es: seq<Event>)
    ensures Run(Before, es) == Wrong || Possible(Run(Before, es))
  {
    if es != [] {
      var p := Run(Before, es[..|es| - 1]);
      RunPossible(es[..|es| - 1]);
      if p != Wrong {
        NextPossible(p, es[|es| - 1]);
      }
    }
  }

  /** Events that close everything. */
  function Closing(p: Place): seq<Event>
    requires Possible(p)
    decreases match p case Before => 0 case Open(fs) => 2 * |fs| case _ => 0
  {
    match p
    case Open(fs) =>
      (match Top(fs)
       case InStream => [StreamEnd]
       case InDocument(full) => (if full then [] else [Scalar]) + [DocumentEnd, StreamEnd]
       case InSequence => [SequenceEnd] + Closing(Open(Below(fs)))
       case InMapping(value) => (if value then [Scalar] else []) + [MappingEnd] + Closing(Open(Below(fs))))
    case Before => [StreamStart, StreamEnd]
    case _ => []
  }

  lemma RunTwo(p: Place, e: Event, f: Event)
    ensures Run(p, [e, f]) == Next(Next(p, e), f)
  {
    assert [e, f] == [e] + [f];
    RunAppend(p, [e], [f]);
    RunOne(p, e);
    RunOne(Next(p, e), f);
  }

  lemma UnfoldClosing(fs: seq<Frame>)
    requires Stacked(fs)
    ensures Top(fs) == InStream ==> Closing(Open(fs)) == [StreamEnd] && Next(Open(fs), StreamEnd) == After
    ensures Top(fs).InDocument? ==>
      Closing(Open(fs)) == (if Top(fs).full then [] else [Scalar]) + [DocumentEnd, StreamEnd]
    ensures Top(fs).InSequence? || Top(fs).InMapping? ==> Possible(Open(Below(fs)))
    ensures Top(fs).InSequence? ==> Closing(Open(fs)) == [SequenceEnd] + Closing(Open(Below(fs)))
    ensures Top(fs).InMapping? ==> Closing(Open(fs)) == ClosingMapping(Top(fs).value) + Closing(Open(Below(fs)))
  {
  }

  function ClosingMapping(value: bool): seq<Event> {
    (if value then [Scalar] else []) + [MappingEnd]
  }

  lemma {:induction false} ClosingCloses(p: Place)
    requires Possible(p)
    ensures Run(p, Closing(p)) == After
    decreases if p.Open? then |p.frames| else 0
  {
    hide Run, Closing, Next;
    match p {
      case Before => BeforeCloses();
      case After =>
        BeforeCloses();
        NoEvents(p);
      case Open(fs) =>
        UnfoldClosing(fs);
        match Top(fs) {
          case InStream => RunOne(p, StreamEnd);
          case InDocument(_) => DocumentCloses(fs);
          case _ =>
            ClosingCloses(Open(Below(fs)));
            CollectionCloses(fs);
        }
    }
  }

  lemma BeforeCloses()
    ensures Closing(Before) == [StreamStart, StreamEnd] && Run(Before, [StreamStart, StreamEnd]) == After
    ensures Closing(After) == []
  {
    hide Run;
    RunTwo(Before, StreamStart, StreamEnd);
  }

  lemma DocumentCloses(fs: seq<Frame>)
    requires Stacked(fs) && Top(fs).InDocument?
    ensures Run(Open(fs), (if Top(fs).full then [] else [Scalar]) + [DocumentEnd, StreamEnd]) == After
  {
    hide Run;
    var p, start := Open(fs), if Top(fs).full then [] else [Scalar];
    NoEvents(p);
    RunOne(p, Scalar);
    RunAppend(p, start, [DocumentEnd, StreamEnd]);
    RunTwo(Run(p, start), DocumentEnd, StreamEnd);
  }

  lemma CollectionCloses(fs: seq<Frame>)
    requires Stacked(fs) && (Top(fs).InSequence? || Top(fs).InMapping?) && Possible(Open(Below(fs)))
    requires Run(Open(Below(fs)), Closing(Open(Below(fs)))) == After
    ensures Run(Open(fs), Closing(Open(fs))) == After
  {
    hide Run, Closing;
    UnfoldClosing(fs);
    var p, rest := Open(fs), Closing(Open(Below(fs)));
    if Top(fs) == InSequence {
      RunOne(p, SequenceEnd);
      RunAppend(p, [SequenceEnd], rest);
    } else {
      var start := if Top(fs).value then [Scalar] else [];
      NoEvents(p);
      RunOne(p, Scalar);
      FilledThenBelow(fs);
      RunAppend(p, start, [MappingEnd]);
      RunOne(Run(p, start), MappingEnd);
      RunAppend(p, start + [MappingEnd], rest);
    }
  }

  lemma FilledThenBelow(fs: seq<Frame>)
    requires fs != []
    ensures Below(Below(fs) + [Top(fs).Filled()]) == Below(fs)
    ensures Below(fs) + [Top(fs).Filled()] + [] == Below(fs) + [Top(fs).Filled()]
  {
  }

  lemma NoEvents(p: Place)
    ensures Run(p, []) == p
  {
  }

  predicate OpensCollection(e: Event) {
    e == SequenceStart || e == MappingStart
  }

  /** The frames before and after a node begins. */
  predicate Fills(before: seq<Frame>, after: seq<Frame>) {
    before != [] && Top(before).TakesNode() && after == Below(before) + [Top(before).Filled()]
  }

  lemma FillsOn(lower: seq<Frame>, before: seq<Frame>, after: seq<Frame>)
    requires Fills(before, after)
    ensures Fills(lower + before, lower + after)
  {
  }

  /** Events that have not gone wrong are the beginning of a balanced stream. */
  lemma RightIsPrefix(es: seq<Event>)
    ensures Run(Before, es) != Wrong <==> exists rest :: Balanced(es + rest)
  {
    hide Run, Closing;
    if Run(Before, es) != Wrong {
      RunPossible(es);
      var rest := Closing(Run(Before, es));
      ClosingCloses(Run(Before, es));
      RunAppend(Before, es, rest);
      assert Balanced(es + rest);
    } else if rest :| Balanced(es + rest) {
      RunAppend(Before, es, rest);
      WrongForGood(rest);
    }
  }
}
