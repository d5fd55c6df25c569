/** The event emitter of the YAML library: its automaton, its lookahead queue, and the stacks it keeps. */
module YamlEmitter {
  import opened YamlEvents

  /**
   * An event as far as its text matters: `refused` if an anchor, a tag or the scalar flags fail a check, `flow` for
   * the flow style, `short` if its text can be a simple key, `indention` if only indentation stands before it.
   */
  datatype Item = Item(e: Event, refused: bool, flow: bool, short: bool, indention: bool)

  datatype State =
    | AtStreamStart | FirstDocumentStart | LaterDocumentStart | DocumentContent | AtDocumentEnd | AtEnd
    | FlowSequenceFirst | FlowSequenceItem
    | FlowMappingFirst | FlowMappingKey | FlowMappingSimpleValue | FlowMappingValue
    | BlockSequenceFirst | BlockSequenceItem
    | BlockMappingFirst | BlockMappingKey | BlockMappingSimpleValue | BlockMappingValue

  // ----- what a state stands for -----

  function FramesOf(st: State): seq<Frame> {
    match st
    case AtDocumentEnd => [InDocument(true)]
    case FlowSequenceFirst => [InSequence]
    case FlowSequenceItem => [InSequence]
    case BlockSequenceFirst => [InSequence]
    case BlockSequenceItem => [InSequence]
    case FlowMappingFirst => [InMapping(false)]
    case FlowMappingKey => [InMapping(false)]
    case BlockMappingFirst => [InMapping(false)]
    case BlockMappingKey => [InMapping(false)]
    case FlowMappingSimpleValue => [InMapping(true)]
    case FlowMappingValue => [InMapping(true)]
    case BlockMappingSimpleValue => [InMapping(true)]
    case BlockMappingValue => [InMapping(true)]
    case _ => []
  }

  /** Whether a state is inside a flow collection (true), a block collection (false), or neither. */
  function FlowOf(st: State): seq<bool> {
    match st
    case FlowSequenceFirst => [true]
    case FlowSequenceItem => [true]
    case FlowMappingFirst => [true]
    case FlowMappingKey => [true]
    case FlowMappingSimpleValue => [true]
    case FlowMappingValue => [true]
    case BlockSequenceFirst => [false]
    case BlockSequenceItem => [false]
    case BlockMappingFirst => [false]
    case BlockMappingKey => [false]
    case BlockMappingSimpleValue => [false]
    case BlockMappingValue => [false]
    case _ => []
  }

  /** A collection whose first event is still to come has not been entered. */
  predicate IsFirst(st: State) {
    st == FlowSequenceFirst || st == FlowMappingFirst || st == BlockSequenceFirst || st == BlockMappingFirst
  }

  function StackFrames(states: seq<State>): seq<Frame> {
    if states == [] then [InStream] else StackFrames(states[..|states| - 1]) + FramesOf(states[|states| - 1])
  }

  function StackFlow(states: seq<State>): seq<bool> {
    if states == [] then [] else StackFlow(states[..|states| - 1]) + FlowOf(states[|states| - 1])
  }

  function Flows(fs: seq<bool>): nat {
    if fs == [] then 0 else Flows(fs[..|fs| - 1]) + if fs[|fs| - 1] then 1 else 0
  }

  predicate Stackable(st: State) {
    st == AtDocumentEnd || (FlowOf(st) != [] && !IsFirst(st))
  }

  ghost predicate StackOk(states: seq<State>) {
    forall i | 0 <= i < |states| :: Stackable(states[i]) && (states[i] == AtDocumentEnd <==> i == 0)
  }

  predicate StateOk(st: State, states: seq<State>) {
    if FlowOf(st) != [] then states != [] else states == []
  }

  function PlaceOf(st: State, states: seq<State>): Place {
    match st
    case AtStreamStart => Before
    case AtEnd => After
    case FirstDocumentStart => Open([InStream])
    case LaterDocumentStart => Open([InStream])
    case DocumentContent => Open([InStream, InDocument(false)])
    case _ => Open(StackFrames(states) + FramesOf(st))
  }

  /** The open collections that have been entered: those with a saved indentation. */
  function Entered(st: State, states: seq<State>): seq<bool> {
    StackFlow(states) + if IsFirst(st) then [] else FlowOf(st)
  }

  /** Saved indentation levels begin with the one outside everything. */
  ghost predicate IndentsOk(indents: seq<int>, indent: int) {
    if indents == [] then indent == -1 else indents[0] == -1
  }

  // ----- the stacks, as values -----

  lemma Pushed(states: seq<State>, st: State)
    requires StackOk(states) && Stackable(st) && (st == AtDocumentEnd <==> states == [])
    ensures StackOk(states + [st])
    ensures StackFrames(states + [st]) == StackFrames(states) + FramesOf(st)
    ensures StackFlow(states + [st]) == StackFlow(states) + FlowOf(st)
  {
    hide FramesOf, FlowOf, Stackable;
    assert (states + [st])[..|states|] == states;
  }

  lemma Popped(states: seq<State>)
    requires StackOk(states) && states != []
    ensures var lower, st := states[..|states| - 1], states[|states| - 1];
            && StackOk(lower) && StateOk(st, lower) && !IsFirst(st)
            && PlaceOf(st, lower) == Open(StackFrames(states)) && Entered(st, lower) == StackFlow(states)
  {
  }

  lemma FlowsAppend(fs: seq<bool>, f: bool)
    ensures Flows(fs + [f]) == Flows(fs) + if f then 1 else 0
    ensures Flows(fs + []) == Flows(fs)
  {
    assert (fs + [f])[..|fs|] == fs && fs + [] == fs;
  }

  lemma {:induction false} SomeFlow(fs: seq<bool>)
    ensures Flows(fs) > 0 <==> true in fs
  {
    if fs != [] {
      SomeFlow(fs[..|fs| - 1]);
      assert forall f | f in fs :: f in fs[..|fs| - 1] || f == fs[|fs| - 1];
    }
  }

  // ----- lookahead -----

  function Level(e: Event): int {
    match e
    case StreamStart => 1
    case DocumentStart => 1
    case SequenceStart => 1
    case MappingStart => 1
    case StreamEnd => -1
    case DocumentEnd => -1
    case SequenceEnd => -1
    case MappingEnd => -1
    case _ => 0
  }

  function Levels(q: seq<Item>): int {
    if q == [] then 0 else Levels(q[..|q| - 1]) + Level(q[|q| - 1].e)
  }

  /** How many events an event may have to wait for. */
  function Accumulate(e: Event): nat {
    match e
    case DocumentStart => 1
    case SequenceStart => 2
    case MappingStart => 3
    case _ => 0
  }

  /** What the first event of the queue opens is closed again inside the queue. */
  ghost predicate ClosedWithin(q: seq<Item>) {
    exists n: nat | 0 < n <= |q| :: Levels(q[..n]) == 0
  }

  ghost predicate NeedMore(q: seq<Item>) {
    q == [] || (Accumulate(q[0].e) > 0 && |q| <= Accumulate(q[0].e) && !ClosedWithin(q))
  }

  lemma LevelsNext(q: seq<Item>, n: nat)
    requires n < |q|
    ensures Levels(q[..n + 1]) == Levels(q[..n]) + Level(q[n].e)
  {
    assert q[..n + 1][..n] == q[..n];
  }

  /** The kinds of the open collections when every event is visible. */
  function FlowStack(canonical: bool, s: seq<Item>, n: nat): seq<bool>
    requires n <= |s|
  {
    if n == 0 then [] else
      var fs := FlowStack(canonical, s, n - 1);
      match s[n - 1].e
      case SequenceStart => fs + [ChoosesFlow(canonical, s, n - 1, fs, SequenceEnd)]
      case MappingStart => fs + [ChoosesFlow(canonical, s, n - 1, fs, MappingEnd)]
      case SequenceEnd => if fs == [] then [] else fs[..|fs| - 1]
      case MappingEnd => if fs == [] then [] else fs[..|fs| - 1]
      case _ => fs
  }

  /** A collection is written in flow style inside another one, by request, or if it is empty. */
  predicate ChoosesFlow(canonical: bool, s: seq<Item>, n: nat, fs: seq<bool>, end: Event)
    requires n < |s|
  {
    true in fs || canonical || s[n].flow || (n + 1 < |s| && s[n + 1].e == end)
  }

  /** How an event is written: in flow style if it opens a collection, and as a simple key if it is a key. */
  datatype Style = Style(flow: bool, simple: bool)

  /** A key is to come. */
  predicate AtKey(p: Place) {
    p.Open? && p.frames != [] && Top(p.frames) == InMapping(false)
  }

  /** A key that fits a line: an alias, a scalar or an empty sequence, but no mapping. */
  predicate IsShortKey(s: seq<Item>, n: nat)
    requires n < |s|
  {
    s[n].short && (s[n].e == Alias || s[n].e == Scalar
      || (s[n].e == SequenceStart && n + 1 < |s| && s[n + 1].e == SequenceEnd))
  }

  /** The style of event n when every event is visible; a canonical flow mapping has no simple keys. */
  function StyleAt(canonical: bool, s: seq<Item>, n: nat): Style
    requires n < |s|
  {
    var fs, e := FlowStack(canonical, s, n), s[n].e;
    Style(
      OpensCollection(e) && ChoosesFlow(canonical, s, n, fs, if e == SequenceStart then SequenceEnd else MappingEnd),
      IsShortKey(s, n) && AtKey(Run(Before, Events(s[..n]))) && !(canonical && fs != [] && fs[|fs| - 1]))
  }

  /** The styles of the first n events. */
  function Styles(canonical: bool, s: seq<Item>, n: nat): (styles: seq<Style>)
    requires n <= |s|
    ensures |styles| == n
  {
    seq(n, i requires 0 <= i < n => StyleAt(canonical, s, i))
  }

  /** One more event. */
  lemma FlowStackNext(canonical: bool, s: seq<Item>, n: nat)
    requires n < |s|
    ensures var fs := FlowStack(canonical, s, n);
            FlowStack(canonical, s, n + 1)
            == FlowAfter(fs, s[n].e, ChoosesFlow(canonical, s, n, fs,
              if s[n].e == SequenceStart then SequenceEnd else MappingEnd))
  {
  }

  /** Later events do not change the past, once the event after a start is known. */
  lemma {:induction false} FlowStackExtends(canonical: bool, s: seq<Item>, more: seq<Item>, n: nat)
    requires n <= |s| && (n == |s| && n > 0 ==> !OpensCollection(s[n - 1].e))
    ensures FlowStack(canonical, s + more, n) == FlowStack(canonical, s, n)
  {
    if n > 0 {
      FlowStackExtends(canonical, s, more, n - 1);
    }
  }

  /** Styles do not depend on later events either. */
  lemma StylesExtend(canonical: bool, s: seq<Item>, more: seq<Item>, n: nat)
    requires n <= |s| && (n == |s| && n > 0 ==> !OpensCollection(s[n - 1].e))
    ensures Styles(canonical, s + more, n) == Styles(canonical, s, n)
  {
    hide FlowStack, Run, Events, AtKey;
    forall i | 0 <= i < n ensures StyleAt(canonical, s + more, i) == StyleAt(canonical, s, i) {
      assert (s + more)[..i] == s[..i];
      FlowStackExtends(canonical, s, more, i);
    }
  }

  // ----- why the lookahead ends -----

  function Depth(p: Place): int {
    if p.Open? then |p.frames| else 0
  }

  lemma NextDepth(p: Place, e: Event)
    requires Possible(p) && Next(p, e) != Wrong
    ensures Depth(Next(p, e)) == Depth(p) + Level(e)
  {
  }

  function Events(q: seq<Item>): (es: seq<Event>)
    ensures |es| == |q|
  {
    seq(|q|, i requires 0 <= i < |q| => q[i].e)
  }

  lemma {:induction false} RunDepth(p: Place, q: seq<Item>, n: nat)
    requires Possible(p) && n <= |q| && Run(p, Events(q)[..n]) != Wrong
    ensures Possible(Run(p, Events(q)[..n])) && Depth(Run(p, Events(q)[..n])) == Depth(p) + Levels(q[..n])
  {
    var es := Events(q);
    if n > 0 {
      assert es[..n][..n - 1] == es[..n - 1];
      var before := Run(p, es[..n - 1]);
      assert before != Wrong;
      RunDepth(p, q, n - 1);
      LevelsNext(q, n - 1);
      NextDepth(before, es[n - 1]);
      NextPossible(before, es[n - 1]);
    } else {
      assert es[..0] == [] && q[..0] == [];
    }
  }

  lemma {:induction false} NeverWrongBefore(p: Place, es: seq<Event>, n: nat)
    requires n <= |es| && Run(p, es) != Wrong
    ensures Run(p, es[..n]) != Wrong
  {
    assert es == es[..n] + es[n..];
    RunAppend(p, es[..n], es[n..]);
    WrongForGood(es[n..]);
  }

  /** A sum that steps by at most one from positive to not positive passes through zero. */
  lemma {:induction false} Crosses(q: seq<Item>, n: nat)
    requires 0 < n <= |q| && Levels(q[..n]) <= 0 && Level(q[0].e) == 1
    ensures ClosedWithin(q)
  {
    if Levels(q[..n]) != 0 {
      assert n > 1 by {
        LevelsNext(q, 0);
        assert q[..0] == [];
      }
      LevelsNext(q, n - 1);
      if Levels(q[..n - 1]) <= 0 {
        Crosses(q, n - 1);
      }
    }
  }

  /** At the end of a stream nothing is waited for. */
  lemma NothingWaits(p: Place, q: seq<Item>)
    requires Possible(p) && q != [] && Run(p, Events(q)) == After
    ensures !NeedMore(q)
  {
    hide Run, Levels, ClosedWithin;
    if Accumulate(q[0].e) > 0 {
      assert Events(q)[..|q|] == Events(q) && q[..|q|] == q;
      RunDepth(p, q, |q|);
      NeverWrongBefore(p, Events(q), 1);
      FirstNeedsOpen(p, q);
      Crosses(q, |q|);
    }
  }

  lemma FirstNeedsOpen(p: Place, q: seq<Item>)
    requires Possible(p) && q != [] && Accumulate(q[0].e) > 0 && Run(p, Events(q)[..1]) != Wrong
    ensures Depth(p) >= 1
  {
    assert Events(q)[..1] == [q[0].e];
    RunOne(p, q[0].e);
  }

  predicate IsNode(e: Event) {
    e == Alias || e == Scalar || e == SequenceStart || e == MappingStart
  }

  /** The kinds of the open collections after an event; `flow` is the choice made for a collection that it opens. */
  function FlowAfter(fs: seq<bool>, e: Event, flow: bool): seq<bool> {
    match e
    case SequenceStart => fs + [flow]
    case MappingStart => fs + [flow]
    case SequenceEnd => if fs == [] then [] else fs[..|fs| - 1]
    case MappingEnd => if fs == [] then [] else fs[..|fs| - 1]
    case _ => fs
  }

  /** What emitting a node does: a finished node returns to the state on the stack, a collection stays on top of it. */
  predicate NodeDone(states: seq<State>, e: Event, flow: bool, st: State, states': seq<State>)
    requires states != []
  {
    match e
    case Alias => states' == states[..|states| - 1] && st == states[|states| - 1]
    case Scalar => states' == states[..|states| - 1] && st == states[|states| - 1]
    case SequenceStart => states' == states && st == if flow then FlowSequenceFirst else BlockSequenceFirst
    case MappingStart => states' == states && st == if flow then FlowMappingFirst else BlockMappingFirst
    case _ => false
  }

  lemma NodePlace(fs: seq<Frame>, states: seq<State>, e: Event, flow: bool, st: State, states': seq<State>)
    requires StackOk(states) && states != [] && NodeDone(states, e, flow, st, states')
    requires fs != [] && Top(fs).TakesNode() && StackFrames(states) == Below(fs) + [Top(fs).Filled()]
    ensures StackOk(states') && StateOk(st, states') && PlaceOf(st, states') == Next(Open(fs), e)
    ensures Entered(st, states') == StackFlow(states)
            && StackFlow(states') + FlowOf(st) == FlowAfter(StackFlow(states), e, flow)
  {
    Popped(states);
  }

  lemma OtherThanNode(fs: seq<Frame>, e: Event)
    requires fs != [] && !IsNode(e)
    ensures Top(fs) == InSequence && e != SequenceEnd && |fs| > 1 ==> Next(Open(fs), e) == Wrong
    ensures Top(fs) == InMapping(false) && e != MappingEnd && |fs| > 1 ==> Next(Open(fs), e) == Wrong
    ensures Top(fs) == InMapping(true) && |fs| > 1 ==> Next(Open(fs), e) == Wrong
  {
  }

  lemma ClosePlace(states: seq<State>, st: State, e: Event)
    requires StackOk(states) && states != [] && FlowOf(st) != []
    requires (FramesOf(st) == [InSequence] && e == SequenceEnd)
            || (FramesOf(st) == [InMapping(false)] && e == MappingEnd)
    ensures var lower, back := states[..|states| - 1], states[|states| - 1];
            && StackOk(lower) && StateOk(back, lower)
            && PlaceOf(back, lower) == Next(Open(StackFrames(states) + FramesOf(st)), e)
            && Entered(back, lower) == StackFlow(states)
            && StackFlow(lower) + FlowOf(back) == FlowAfter(StackFlow(states) + FlowOf(st), e, false)
  {
    Popped(states);
    assert Below(StackFrames(states) + FramesOf(st)) == StackFrames(states);
    assert (StackFlow(states) + FlowOf(st))[..|StackFlow(states)|] == StackFlow(states);
  }

  lemma SequenceStates(st: State, back: State, flow: bool)
    requires if flow then st in [FlowSequenceFirst, FlowSequenceItem] && back == FlowSequenceItem
             else st in [BlockSequenceFirst, BlockSequenceItem] && back == BlockSequenceItem
    ensures FlowOf(st) == [flow] == FlowOf(back) && FramesOf(st) == [InSequence] && Stackable(back)
    ensures Fills(FramesOf(st), FramesOf(back)) && (IsFirst(st) <==> st != back) && !IsSimple(back)
  {
  }

  lemma KeyBacks(st: State, back: State, flow: bool)
    requires if flow then st in [FlowMappingFirst, FlowMappingKey] && back in [FlowMappingSimpleValue, FlowMappingValue]
             else st in [BlockMappingFirst, BlockMappingKey] && back in [BlockMappingSimpleValue, BlockMappingValue]
    ensures FlowOf(st) == [flow] == FlowOf(back) && FramesOf(st) == [InMapping(false)] && Stackable(back)
    ensures Fills(FramesOf(st), FramesOf(back)) && (IsFirst(st) <==> st == FlowMappingFirst || st == BlockMappingFirst)
    ensures IsSimple(back) <==> back == FlowMappingSimpleValue || back == BlockMappingSimpleValue
  {
  }

  lemma ValueBacks(st: State, back: State, flow: bool)
    requires if flow then st in [FlowMappingSimpleValue, FlowMappingValue] && back == FlowMappingKey
             else st in [BlockMappingSimpleValue, BlockMappingValue] && back == BlockMappingKey
    ensures FlowOf(st) == [flow] == FlowOf(back) && FramesOf(st) == [InMapping(true)] && Stackable(back)
    ensures Fills(FramesOf(st), FramesOf(back)) && !IsFirst(st) && !IsSimple(back)
  {
  }

  /** A mapping whose value comes behind a simple key. */
  predicate IsSimple(st: State) {
    st == FlowMappingSimpleValue || st == BlockMappingSimpleValue
  }

  class Emitter {
    const canonical: bool
    const bestIndent: int
    var queue: seq<Item>
    var state: State
    var states: seq<State>
    var indents: seq<int>
    var indent: int
    var flowLevel: nat
    var error: bool
    /** The events that have been written. */
    ghost var taken: seq<Item>
    /** How they have been written. */
    ghost var styles: seq<Style>

    ghost function Place(): Place
      reads `state, `states
    {
      PlaceOf(state, states)
    }

    /** The kinds of the open collections. */
    function Kinds(): seq<bool>
      reads `state, `states
    {
      StackFlow(states) + FlowOf(state)
    }

    /** The stacks agree with each other. */
    ghost predicate StacksOk()
      reads `state, `states, `indents, `indent, `flowLevel
    {
      && StackOk(states) && StateOk(state, states) && IndentsOk(indents, indent)
      && |indents| == |Entered(state, states)| && flowLevel == Flows(Entered(state, states))
    }

    /** The same inside a collection that has been entered, whose state is no longer counted. */
    ghost predicate InsideOk(flow: bool)
      reads `states, `indents, `indent, `flowLevel
    {
      && StackOk(states) && states != [] && IndentsOk(indents, indent)
      && |indents| == |StackFlow(states)| + 1 && flowLevel == Flows(StackFlow(states)) + if flow then 1 else 0
    }

    ghost predicate Valid()
      reads this
    {
      && StacksOk() && bestIndent >= 2
      && Place() == Run(Before, Events(taken)) && Place() != Wrong
      && Kinds() == FlowStack(canonical, taken + queue, |taken|)
      && (taken != [] && OpensCollection(taken[|taken| - 1].e) ==> queue != [])
      && styles == Styles(canonical, taken + queue, |taken|)
    }

    constructor (canonical: bool, bestIndent: int)
      ensures Valid() && queue == [] && taken == [] && styles == [] && !error && this.canonical == canonical
    {
      this.canonical := canonical;
      this.bestIndent := if bestIndent < 2 || bestIndent > 9 then 2 else bestIndent;
      queue, state, states, indents, indent, flowLevel, error := [], AtStreamStart, [], [], -1, 0, false;
      taken, styles := [], [];
      new;
      NoEvents(Before);
      assert Events([]) == [];
    }

    // ----- stacks -----

    /** yaml_emitter_increase_indent. */
    method IncreaseIndent(flow: bool, indentless: bool)
      requires IndentsOk(indents, indent)
      modifies `indent, `indents
      ensures IndentsOk(indents, indent) && indents == old(indents) + [old(indent)]
      ensures indent == if old(indent) < 0 then (if flow then bestIndent else 0)
              else old(indent) + (if indentless then 0 else bestIndent)
    {
      indents := indents + [indent];
      if indent < 0 {
        indent := if flow then bestIndent else 0;
      } else if !indentless {
        indent := indent + bestIndent;
      }
    }

    method PopIndent()
      requires IndentsOk(indents, indent) && indents != []
      modifies `indent, `indents
      ensures IndentsOk(indents, indent) && old(indents) == indents + [indent]
    {
      indent, indents := indents[|indents| - 1], indents[..|indents| - 1];
    }

    method PopState()
      requires states != []
      modifies `state, `states
      ensures state == old(states)[|old(states)| - 1] && states == old(states)[..|old(states)| - 1]
    {
      state, states := states[|states| - 1], states[..|states| - 1];
    }

    method Fail() returns (ok: bool)
      modifies `error
      ensures !ok && error
    {
      ok, error := false, true;
    }

    // ----- nodes -----

    /** yaml_emitter_check_empty_sequence and _mapping: the next event closes what the first one opens. */
    predicate NextIs(start: Event, end: Event)
      reads `queue
    {
      |queue| >= 2 && queue[0].e == start && queue[1].e == end
    }

    /** yaml_emitter_check_simple_key; for a mapping it looks for an empty sequence. */
    predicate IsSimpleKey(it: Item)
      reads `queue
    {
      match it.e
      case Alias => it.short
      case Scalar => it.short
      case SequenceStart => it.short && NextIs(SequenceStart, SequenceEnd)
      case MappingStart => it.short && NextIs(SequenceStart, SequenceEnd)
      case _ => false
    }

    /** The choice of a style for a collection that begins. */
    predicate Flow(it: Item)
      reads `flowLevel, `queue
    {
      flowLevel > 0 || canonical || it.flow || NextIs(it.e, if it.e == SequenceStart then SequenceEnd else MappingEnd)
    }

    /** yaml_emitter_emit_node, after the state to return to has been pushed. */
    method EmitNode(it: Item) returns (ok: bool)
      requires states != [] && IndentsOk(indents, indent)
      modifies `state, `states, `indents, `indent, `error
      ensures ok <==> IsNode(it.e)
      ensures !ok ==> error
      ensures ok ==> error == old(error) && NodeDone(old(states), it.e, old(Flow(it)), state, states)
      ensures ok ==> IndentsOk(indents, indent) && |indents| == |old(indents)|
    {
      ok := true;
      match it.e {
        case Alias => PopState();
        case Scalar =>
          IncreaseIndent(true, false);
          PopIndent();
          PopState();
        case SequenceStart =>
          state := if flowLevel > 0 || canonical || it.flow || NextIs(SequenceStart,
            SequenceEnd) then FlowSequenceFirst else BlockSequenceFirst;
        case MappingStart =>
          state := if flowLevel > 0 || canonical || it.flow || NextIs(MappingStart,
            MappingEnd) then FlowMappingFirst else BlockMappingFirst;
        case _ => ok := Fail();
      }
    }

    /** A node in a collection: the state to return to is pushed first. */
    method EmitNodeIn(back: State, it: Item, ghost fs: seq<Frame>) returns (ok: bool)
      requires Stackable(back) && back != AtDocumentEnd && InsideOk(FlowOf(back) == [true]) && Fills(fs, FramesOf(back))
      modifies `state, `states, `indents, `indent, `error
      ensures ok <==> IsNode(it.e)
      ensures !ok ==> error
      ensures ok ==> StacksOk() && error == old(error) && Place() == Next(Open(old(StackFrames(states)) + fs), it.e)
      ensures ok ==> Kinds() == FlowAfter(old(StackFlow(states)) + FlowOf(back), it.e, old(Flow(it)))
      ensures ok ==> Shown(it) == Style(OpensCollection(it.e) && old(Flow(it)), IsSimple(back))
    {
      hide StackFlow, StackFrames, PlaceOf, FramesOf, FlowOf, FlowAfter, Next, Flows, Entered, StackOk, StateOk,
        NodeDone, Stackable;
      ghost var lower := states;
      StackableFlow(back);
      Pushed(states, back);
      KindAdded(StackFlow(lower), back);
      states := states + [back];
      ghost var pushed, flow := states, Flow(it);
      ok := EmitNode(it);
      if ok {
        FillsOn(StackFrames(lower), fs, FramesOf(back));
        NodePlace(StackFrames(lower) + fs, pushed, it.e, flow, state, states);
        NodeShown(pushed, it, flow);
      }
    }

    lemma NodeShown(pushed: seq<State>, it: Item, flow: bool)
      requires pushed != [] && NodeDone(pushed, it.e, flow, state, states)
      ensures Shown(it) == Style(OpensCollection(it.e) && flow, IsSimple(pushed[|pushed| - 1]))
    {
    }

    /** The end of a collection. */
    method EmitEnd(ghost st: State, event: Event, flow: bool) returns (ok: bool)
      requires InsideOk(flow) && FlowOf(st) != []
      requires (FramesOf(st) == [InSequence] && event == SequenceEnd)
              || (FramesOf(st) == [InMapping(false)] && event == MappingEnd)
      modifies `state, `states, `indents, `indent, `flowLevel
      ensures ok && StacksOk() && Place() == Next(Open(old(StackFrames(states)) + FramesOf(st)), event)
      ensures Kinds() == FlowAfter(old(StackFlow(states)) + FlowOf(st), event, false)
    {
      hide StackFlow, StackFrames, PlaceOf, FramesOf, FlowOf, FlowAfter, Next, Flows, Entered, StackOk, StateOk;
      ClosePlace(states, st, event);
      if flow {
        flowLevel := flowLevel - 1;
      }
      PopIndent();
      PopState();
      return true;
    }

    /** The first event of a collection enters it. */
    method Enter(flow: bool, indentless: bool)
      requires StacksOk() && IsFirst(state) && FlowOf(state) == [flow]
      modifies `indents, `indent, `flowLevel
      ensures InsideOk(flow)
    {
      IncreaseIndent(flow, indentless);
      if flow {
        flowLevel := flowLevel + 1;
      }
      assert StackFlow(states) + [] == StackFlow(states);
    }

    lemma IsInside(flow: bool)
      requires StacksOk() && !IsFirst(state) && FlowOf(state) == [flow]
      ensures InsideOk(flow)
    {
      FlowsAppend(StackFlow(states), flow);
    }

    /** How an event has just been written: what collection it has entered, and in which state it goes on behind it. */
    function Shown(it: Item): Style
      reads `state, `states
    {
      var back := if !OpensCollection(it.e) then state else if states == [] then AtEnd else states[|states| - 1];
      Style(OpensCollection(it.e) && FlowOf(state) == [true], IsNode(it.e) && IsSimple(back))
    }

    /** What every step ensures: an event is accepted exactly where it fits. */
    twostate predicate Stepped(ok: bool, it: Item, simple: bool)
      reads this
    {
      && (ok ==> Shown(it) == Style(OpensCollection(it.e) && old(Chooses(it)), IsNode(it.e) && simple))
      && (ok <==> Next(old(Place()), it.e) != Wrong) && (!ok ==> error)
      && (ok ==> StacksOk() && error == old(error) && Place() == Next(old(Place()), it.e))
      && (ok ==> Kinds() == FlowAfter(old(Kinds()), it.e, old(Chooses(it))))
    }

    /** A key that is to be a simple one. */
    predicate Shortens(it: Item)
      reads `state, `queue
    {
      match state
      case FlowMappingFirst => !canonical && IsSimpleKey(it)
      case FlowMappingKey => !canonical && IsSimpleKey(it)
      case BlockMappingFirst => IsSimpleKey(it)
      case BlockMappingKey => IsSimpleKey(it)
      case _ => false
    }

    /** The choice of a style, from the kinds of the open collections and the queue. */
    predicate Chooses(it: Item)
      reads `state, `states, `queue
    {
      true in Kinds() || canonical || it.flow || NextIs(it.e, if it.e == SequenceStart then SequenceEnd else MappingEnd)
    }

    /** Inside a collection the flow level tells whether some open collection is a flow collection. */
    lemma LevelTells(lower: seq<bool>, flow: bool, it: Item)
      requires InsideOk(flow) && lower == StackFlow(states) && FlowOf(state) == [flow]
      ensures Flow(it) == Chooses(it)
    {
      FlowsAppend(lower, flow);
      SomeFlow(lower + [flow]);
    }

    /** An item of a sequence or a value of a mapping, in a collection that has been entered. */
    method EmitInside(back: State, it: Item, flow: bool) returns (ok: bool)
      requires InsideOk(flow) && FlowOf(state) == [flow] == FlowOf(back) && Stackable(back) && Fills(FramesOf(state),
              FramesOf(back))
      requires !(FramesOf(state) == [InSequence] && it.e == SequenceEnd)
              && !(FramesOf(state) == [InMapping(false)] && it.e == MappingEnd)
      modifies `state, `states, `indents, `indent, `error
      ensures Stepped(ok, it, IsSimple(back))
    {
      hide StackFlow, StackFrames, FlowAfter, Flows, Entered, StackOk, StateOk, NodeDone, Next;
      LevelTells(StackFlow(states), flow, it);
      InsidePlace();
      ghost var fs := StackFrames(states) + FramesOf(state);
      StackNotEmpty(states);
      if !IsNode(it.e) {
        OtherThanNode(fs, it.e);
      }
      ok := EmitNodeIn(back, it, FramesOf(state));
      NeverWrong(state, states);
    }

    lemma InsidePlace()
      requires |FlowOf(state)| == 1
      ensures Place() == Open(StackFrames(states) + FramesOf(state)) && |FramesOf(state)| == 1
    {
    }

    /** The end of a collection that has been entered, or something inside it. */
    method EmitItem(it: Item, back: State, end: Event, flow: bool) returns (ok: bool)
      requires InsideOk(flow) && FlowOf(state) == [flow] == FlowOf(back) && Stackable(back) && Fills(FramesOf(state),
              FramesOf(back))
      requires (FramesOf(state) == [InSequence] && end == SequenceEnd)
              || (FramesOf(state) == [InMapping(false)] && end == MappingEnd)
      modifies `state, `states, `indents, `indent, `flowLevel, `error
      ensures Stepped(ok, it, IsSimple(back))
    {
      hide StackFlow, StackFrames, Flows, Entered, StackOk, StateOk, IndentsOk, Next, Emitter.StacksOk,
        Emitter.InsideOk, FlowAfter, Emitter.Chooses;
      if it.e != end {
        ok := EmitInside(back, it, flow);
      } else {
        ok := EmitLast(it, end, flow);
      }
    }

    /** The end of a collection, as a step. */
    method EmitLast(it: Item, end: Event, flow: bool) returns (ok: bool)
      requires InsideOk(flow) && FlowOf(state) == [flow] && it.e == end
      requires (FramesOf(state) == [InSequence] && end == SequenceEnd)
              || (FramesOf(state) == [InMapping(false)] && end == MappingEnd)
      modifies `state, `states, `indents, `indent, `flowLevel
      ensures Stepped(ok, it, false)
    {
      hide StackFlow, StackFrames, PlaceOf, FramesOf, FlowOf, FlowAfter, Next, Flows, Entered, StackOk, StateOk,
        IndentsOk;
      hide Emitter.StacksOk, Emitter.InsideOk, Emitter.Chooses, Emitter.Place, Emitter.Kinds;
      ghost var kinds := Kinds();
      KindsAre();
      InsidePlace();
      EndIgnoresChoice(kinds, end, Chooses(it));
      ok := EmitEnd(state, end, flow);
      NeverWrong(state, states);
      PlaceIs();
      KindsAre();
    }

    lemma KindsAre()
      ensures Kinds() == StackFlow(states) + FlowOf(state)
    {
      hide StackFlow, FlowOf;
    }

    lemma PlaceIs()
      ensures Place() == PlaceOf(state, states)
    {
      hide PlaceOf;
    }

    /** yaml_emitter_emit_flow_sequence_item. */
    method EmitFlowSequenceItem(it: Item, first: bool) returns (ok: bool)
      requires StacksOk() && state == (if first then FlowSequenceFirst else FlowSequenceItem)
      modifies `state, `states, `indents, `indent, `flowLevel, `error
      ensures Stepped(ok, it, false)
    {
      hide StackFlow, StackFrames, Flows, Entered, StackOk, StateOk, IndentsOk, Next, Emitter.StacksOk,
        Emitter.InsideOk, FlowAfter, Emitter.Chooses, Emitter.IsSimpleKey, Emitter.Shown, FlowOf, FramesOf, Stackable,
        Fills, IsFirst, IsSimple;
      SequenceStates(state, FlowSequenceItem, true);
      if first {
        Enter(true, false);
      } else {
        IsInside(true);
      }
      ok := EmitItem(it, FlowSequenceItem, SequenceEnd, true);
    }

    /** yaml_emitter_emit_flow_mapping_key. */
    method EmitFlowMappingKey(it: Item, first: bool) returns (ok: bool)
      requires StacksOk() && state == (if first then FlowMappingFirst else FlowMappingKey)
      modifies `state, `states, `indents, `indent, `flowLevel, `error
      ensures Stepped(ok, it, old(!canonical && IsSimpleKey(it)))
    {
      hide StackFlow, StackFrames, Flows, Entered, StackOk, StateOk, IndentsOk, Next, Emitter.StacksOk,
        Emitter.InsideOk, FlowAfter, Emitter.Chooses, Emitter.IsSimpleKey, Emitter.Shown, FlowOf, FramesOf, Stackable,
        Fills, IsFirst, IsSimple;
      var back := if !canonical && IsSimpleKey(it) then FlowMappingSimpleValue else FlowMappingValue;
      KeyBacks(state, back, true);
      if first {
        Enter(true, false);
      } else {
        IsInside(true);
      }
      ok := EmitItem(it, back, MappingEnd, true);
    }

    /** yaml_emitter_emit_flow_mapping_value. */
    method EmitFlowMappingValue(it: Item, simple: bool) returns (ok: bool)
      requires StacksOk() && state == (if simple then FlowMappingSimpleValue else FlowMappingValue)
      modifies `state, `states, `indents, `indent, `error
      ensures Stepped(ok, it, false)
    {
      hide StackFlow, StackFrames, Flows, Entered, StackOk, StateOk, IndentsOk, Next, Emitter.StacksOk,
        Emitter.InsideOk, FlowAfter, Emitter.Chooses, Emitter.IsSimpleKey, Emitter.Shown, FlowOf, FramesOf, Stackable,
        Fills, IsFirst, IsSimple;
      ValueBacks(state, FlowMappingKey, true);
      IsInside(true);
      ok := EmitInside(FlowMappingKey, it, true);
    }

    /** Whether the collection that begins is a key or a value of a mapping. */
    method InMappingContext() returns (b: bool)
    {
      if states == [] {
        return false;
      }
      var top := states[|states| - 1];
      b := top == FlowMappingSimpleValue || top == FlowMappingValue || top == FlowMappingKey
           || top == BlockMappingSimpleValue || top == BlockMappingValue || top == BlockMappingKey;
    }

    /** yaml_emitter_emit_block_sequence_item. */
    method EmitBlockSequenceItem(it: Item, first: bool) returns (ok: bool)
      requires StacksOk() && state == (if first then BlockSequenceFirst else BlockSequenceItem)
      modifies `state, `states, `indents, `indent, `flowLevel, `error
      ensures Stepped(ok, it, false)
    {
      hide StackFlow, StackFrames, Flows, Entered, StackOk, StateOk, IndentsOk, Next, Emitter.StacksOk,
        Emitter.InsideOk, FlowAfter, Emitter.Chooses, Emitter.IsSimpleKey, Emitter.Shown, FlowOf, FramesOf, Stackable,
        Fills, IsFirst, IsSimple;
      SequenceStates(state, BlockSequenceItem, false);
      if first {
        var inMapping := InMappingContext();
        Enter(false, inMapping && !it.indention);
      } else {
        IsInside(false);
      }
      ok := EmitItem(it, BlockSequenceItem, SequenceEnd, false);
    }

    /** yaml_emitter_emit_block_mapping_key. */
    method EmitBlockMappingKey(it: Item, first: bool) returns (ok: bool)
      requires StacksOk() && state == (if first then BlockMappingFirst else BlockMappingKey)
      modifies `state, `states, `indents, `indent, `flowLevel, `error
      ensures Stepped(ok, it, old(IsSimpleKey(it)))
    {
      hide StackFlow, StackFrames, Flows, Entered, StackOk, StateOk, IndentsOk, Next, Emitter.StacksOk,
        Emitter.InsideOk, FlowAfter, Emitter.Chooses, Emitter.IsSimpleKey, Emitter.Shown, FlowOf, FramesOf, Stackable,
        Fills, IsFirst, IsSimple;
      var back := if IsSimpleKey(it) then BlockMappingSimpleValue else BlockMappingValue;
      KeyBacks(state, back, false);
      if first {
        Enter(false, false);
      } else {
        IsInside(false);
      }
      ok := EmitItem(it, back, MappingEnd, false);
    }

    /** yaml_emitter_emit_block_mapping_value. */
    method EmitBlockMappingValue(it: Item, simple: bool) returns (ok: bool)
      requires StacksOk() && state == (if simple then BlockMappingSimpleValue else BlockMappingValue)
      modifies `state, `states, `indents, `indent, `error
      ensures Stepped(ok, it, false)
    {
      hide StackFlow, StackFrames, Flows, Entered, StackOk, StateOk, IndentsOk, Next, Emitter.StacksOk,
        Emitter.InsideOk, FlowAfter, Emitter.Chooses, Emitter.IsSimpleKey, Emitter.Shown, FlowOf, FramesOf, Stackable,
        Fills, IsFirst, IsSimple;
      ValueBacks(state, BlockMappingKey, false);
      IsInside(false);
      ok := EmitInside(BlockMappingKey, it, false);
    }

    // ----- documents -----

    /** yaml_emitter_emit_document_content. */
    method EmitDocumentContent(it: Item) returns (ok: bool)
      requires StacksOk() && state == DocumentContent
      modifies `state, `states, `indents, `indent, `error
      ensures Stepped(ok, it, false)
    {
      hide Flows, IndentsOk, NodeDone, FlowAfter, StackOk, StackFrames, IsFirst, Next, Emitter.Shown;
      var nothing: seq<State> := [];
      Pushed(nothing, AtDocumentEnd);
      states := states + [AtDocumentEnd];
      ghost var flow := Flow(it);
      assert flow == old(Chooses(it)) by {
        NoFlow();
      }
      ok := EmitNode(it);
      ContentPlace(it.e);
      if ok {
        NodePlace([InStream, InDocument(false)], [AtDocumentEnd], it.e, flow, state, states);
        NodeShown([AtDocumentEnd], it, flow);
        NeverWrong(state, states);
      }
    }

    /** The states outside collections, where no stack changes. */
    method EmitOutside(it: Item) returns (ok: bool)
      requires StacksOk() && FlowOf(state) == [] && state != DocumentContent
      modifies `state, `indent, `error
      ensures Stepped(ok, it, false)
    {
      hide Flows, NodeDone, Chooses;
      ghost var before := state;
      ok := true;
      if state == AtStreamStart && it.e == StreamStart {
        state, indent := FirstDocumentStart, -1;
      } else if state == AtDocumentEnd && it.e == DocumentEnd {
        state := LaterDocumentStart;
      } else if (state == FirstDocumentStart || state == LaterDocumentStart) && it.e == DocumentStart {
        state := DocumentContent;
      } else if (state == FirstDocumentStart || state == LaterDocumentStart) && it.e == StreamEnd {
        state := AtEnd;
      } else {
        ok := Fail();
      }
      OutsideNext(before, it.e);
      assert ok ==> it.e == StreamStart || it.e == DocumentEnd || it.e == DocumentStart || it.e == StreamEnd;
    }

    // ----- the automaton and its queue -----

    lemma ShortensIs(it: Item)
      ensures state == FlowMappingFirst || state == FlowMappingKey ==> Shortens(it) == (!canonical && IsSimpleKey(it))
      ensures state == BlockMappingFirst || state == BlockMappingKey ==> Shortens(it) == IsSimpleKey(it)
      ensures state !in [FlowMappingFirst, FlowMappingKey, BlockMappingFirst, BlockMappingKey] ==> !Shortens(it)
    {
    }

    /** yaml_emitter_analyze_event and yaml_emitter_state_machine. */
    method Dispatch(it: Item) returns (ok: bool)
      requires StacksOk()
      modifies `state, `states, `indents, `indent, `flowLevel, `error
      ensures it.refused ==> !ok && error
      ensures !it.refused ==> Stepped(ok, it, old(Shortens(it)))
    {
      hide *;
      if it.refused {
        ok := Fail();
        return;
      }
      ShortensIs(it);
      match state {
        case FlowSequenceFirst => ok := EmitFlowSequenceItem(it, true);
        case FlowSequenceItem => ok := EmitFlowSequenceItem(it, false);
        case FlowMappingFirst => ok := EmitFlowMappingKey(it, true);
        case FlowMappingKey => ok := EmitFlowMappingKey(it, false);
        case FlowMappingSimpleValue => ok := EmitFlowMappingValue(it, true);
        case FlowMappingValue => ok := EmitFlowMappingValue(it, false);
        case BlockSequenceFirst => ok := EmitBlockSequenceItem(it, true);
        case BlockSequenceItem => ok := EmitBlockSequenceItem(it, false);
        case BlockMappingFirst => ok := EmitBlockMappingKey(it, true);
        case BlockMappingKey => ok := EmitBlockMappingKey(it, false);
        case BlockMappingSimpleValue => ok := EmitBlockMappingValue(it, true);
        case BlockMappingValue => ok := EmitBlockMappingValue(it, false);
        case DocumentContent => ok := EmitDocumentContent(it);
        case _ =>
          OutsideState(state);
          ok := EmitOutside(it);
      }
    }

    /** The first event of the queue, which is not to wait. */
    method EmitHead() returns (ok: bool)
      requires Valid() && !NeedMore(queue)
      modifies this
      ensures ok <==> !old(queue)[0].refused && Next(old(Place()), old(queue)[0].e) != Wrong
      ensures !ok ==> error && taken == old(taken) && queue == old(queue) && styles == old(styles)
      ensures ok ==> Valid() && error == old(error) && taken == old(taken) + [old(queue)[0]] && queue == old(queue)[1..]
    {
      hide StacksOk, FlowStack, Run, FlowAfter, NeedMore, Next, Events, Emitter.Place, Emitter.Kinds, Emitter.Chooses;
      NotEmpty(queue);
      var it := queue[0];
      ghost var chosen := Chooses(it);
      EnoughEvents(queue);
      KindsNext(it, chosen);
      StyleNext(it, chosen);
      PlaceNext(taken, it);
      ok := Dispatch(it);
      if ok {
        assert taken + queue == (taken + [it]) + queue[1..];
        taken, queue, styles := taken + [it], queue[1..], styles + [Shown(it)];
      }
    }

    /** The kinds after an event are those that are chosen with the whole stream visible. */
    lemma KindsNext(it: Item, chosen: bool)
      requires Kinds() == FlowStack(canonical, taken + queue, |taken|) && queue != [] && it == queue[0]
              && chosen == Chooses(it)
      requires OpensCollection(it.e) ==> |queue| >= 2
      ensures FlowStack(canonical, taken + queue, |taken| + 1) == FlowAfter(Kinds(), it.e, chosen)
    {
      hide FlowStack, StackFlow, FlowOf;
      var s, n := taken + queue, |taken|;
      assert s[n] == it && (|queue| >= 2 ==> s[n + 1] == queue[1]);
      FlowStackNext(canonical, s, n);
    }

    /** The state tells whether a key is to come, and in which kind of mapping. */
    lemma KeyStates()
      requires StateOk(state, states)
      ensures AtKey(Place()) <==> state in [FlowMappingFirst, FlowMappingKey, BlockMappingFirst, BlockMappingKey]
      ensures AtKey(Place()) ==>
        Kinds() != [] && (Kinds()[|Kinds()| - 1] <==> state == FlowMappingFirst || state == FlowMappingKey)
    {
      hide StackFrames, StackFlow;
      StackNotEmpty(states);
    }

    /** The style of the next event is the one it has with the whole stream visible. */
    lemma StyleNext(it: Item, chosen: bool)
      requires Valid() && queue != [] && it == queue[0] && chosen == Chooses(it)
      requires OpensCollection(it.e) ==> |queue| >= 2
      ensures Styles(canonical, taken + queue, |taken| + 1)
           == styles + [Style(OpensCollection(it.e) && chosen, IsNode(it.e) && Shortens(it))]
    {
      hide FlowStack, StackFlow, FlowOf, Run, Events, AtKey, Emitter.Place, Emitter.Kinds;
      var s, n := taken + queue, |taken|;
      assert s[n] == it && (|queue| >= 2 ==> s[n + 1] == queue[1]) && s[..n] == taken;
      KeyStates();
    }

    /** yaml_emitter_need_more_events. */
    method NeedMoreEvents() returns (need: bool)
      ensures need <==> NeedMore(queue)
    {
      if queue == [] {
        return true;
      }
      var accumulate := Accumulate(queue[0].e);
      if accumulate == 0 || |queue| > accumulate {
        return false;
      }
      var level, n := 0, 0;
      assert queue[..0] == [];
      while n < |queue|
        invariant n <= |queue| && level == Levels(queue[..n])
        invariant forall k: nat | 0 < k <= n :: Levels(queue[..k]) != 0
      {
        LevelsNext(queue, n);
        level := level + Level(queue[n].e);
        n := n + 1;
        if level == 0 {
          return false;
        }
      }
      return true;
    }

    /**
     * yaml_emitter_emit: events are written in the order in which they come; at most three stay in the queue, and it
     * fails exactly at an event that is refused or does not fit.
     */
    method Emit(it: Item) returns (ok: bool)
      requires Valid() && !error
      modifies this
      ensures taken + queue == old(taken + queue) + [it]
      ensures ok ==> Valid() && !error && NeedMore(queue) && |queue| <= 3 && old(taken) <= taken
      ensures !ok ==>
        error && queue != []
        && (queue[0].refused || Next(Run(Before, Events(taken)), queue[0].e) == Wrong)
    {
      hide *;
      ghost var all := taken + queue + [it];
      Enqueue(it);
      while true
        invariant Valid() && !error && taken + queue == all && old(taken) <= taken
        decreases |queue|
      {
        var need := NeedMoreEvents();
        if need {
          break;
        }
        NotEmpty(queue);
        PlaceIsRun();
        ghost var head := queue[0];
        ok := EmitHead();
        if !ok {
          return;
        }
        assert taken + queue == all;
      }
      FewWait(queue);
      ok := true;
    }

    method Enqueue(it: Item)
      requires Valid()
      modifies `queue
      ensures Valid() && queue == old(queue) + [it] && taken + queue == old(taken + queue) + [it]
    {
      hide StacksOk, FlowStack, Styles, Run, Next, NeedMore;
      MoreEvents(it);
      queue := queue + [it];
      assert taken + queue == old(taken + queue) + [it];
    }

    lemma PlaceIsRun()
      requires Valid()
      ensures Place() == Run(Before, Events(taken))
    {
      hide StacksOk, FlowStack, Run, Events, Emitter.Place;
    }

    lemma StylesAre()
      requires Valid()
      ensures StacksOk() && styles == Styles(canonical, taken + queue, |taken|)
    {
      hide StacksOk, FlowStack, Styles, Run, Events, Emitter.Place, Emitter.Kinds;
    }

    lemma MoreEvents(it: Item)
      requires Valid()
      ensures FlowStack(canonical, taken + (queue + [it]), |taken|) == FlowStack(canonical, taken + queue, |taken|)
      ensures Styles(canonical, taken + (queue + [it]), |taken|) == Styles(canonical, taken + queue, |taken|)
    {
      hide StacksOk, FlowStack, Styles, Run;
      assert (taken + queue) + [it] == taken + (queue + [it]);
      if taken != [] {
        assert (taken + queue)[|taken| - 1] == taken[|taken| - 1];
      }
      FlowStackExtends(canonical, taken + queue, [it], |taken|);
      StylesExtend(canonical, taken + queue, [it], |taken|);
    }

    /**
     * A whole stream. If it is balanced and no event is refused, it is written without error, nothing stays queued, and
     * every stack is back to where it was; if there is no error, all but at most three events have been written, and
     * those are the beginning of a balanced stream. The styles are those that are chosen with the whole stream visible.
     */
    method EmitAll(items: seq<Item>) returns (ok: bool)
      requires Valid() && !error && taken == queue == []
      modifies this
      ensures ok ==> |taken| <= |items| && styles == Styles(canonical, items, |taken|)
      ensures (forall it | it in items :: !it.refused) && Balanced(Events(items)) ==> ok
      ensures ok && Balanced(Events(items)) ==>
        taken == items && queue == [] && states == [] && indents == [] && indent == -1 && flowLevel == 0
      ensures ok ==> !error && (Balanced(Events(items)) <==> queue == [] && state == AtEnd)
      ensures ok ==> taken + queue == items && |queue| <= 3 && exists rest :: Balanced(Events(taken) + rest)
    {
      hide Emitter.Valid, Emitter.Place, StacksOk, FlowStack, Styles, Run, Next, NeedMore, Events;
      var i := 0;
      ok := true;
      while i < |items|
        invariant i <= |items| && ok && Valid() && !error && taken + queue == items[..i]
        invariant |queue| <= 3 && (i > 0 ==> NeedMore(queue))
      {
        ok := Emit(items[i]);
        i := i + 1;
        if !ok {
          Unfit(items, i);
          return;
        }
      }
      assert items[..i] == items;
      PlaceIsRun();
      PlaceIs();
      StylesAre();
      NeverWrong(state, states);
      RightIsPrefix(Events(taken));
      if Balanced(Events(items)) {
        AllTaken(items);
        EndState();
      } else if queue == [] {
        assert taken == items;
        EndIsAfter(state, states);
      }
    }

    /** An event that does not fit spoils the stream. */
    lemma Unfit(items: seq<Item>, i: nat)
      requires i <= |items| && taken + queue == items[..i] && queue != []
      requires queue[0].refused || Next(Run(Before, Events(taken)), queue[0].e) == Wrong
      ensures !((forall it | it in items :: !it.refused) && Balanced(Events(items)))
    {
      hide Run, Next;
      var n := |taken|;
      assert items[n] == queue[0] && items[..n] == taken;
      if !items[n].refused {
        var es := Events(items);
        assert es[..n] == Events(taken) && es[..n + 1] == es[..n] + [es[n]];
        RunAppend(Before, es[..n], [es[n]]);
        RunOne(Run(Before, es[..n]), es[n]);
        if Run(Before, es) != Wrong {
          NeverWrongBefore(Before, es, n + 1);
        }
      }
    }

    lemma AllTaken(items: seq<Item>)
      requires Valid() && taken + queue == items && Balanced(Events(items)) && (items != [] ==> NeedMore(queue))
      ensures queue == [] && Place() == After
    {
      hide StacksOk, FlowStack, Run, ClosedWithin, NeedMore;
      NoEvents(Before);
      assert Events(items) == Events(taken) + Events(queue);
      RunAppend(Before, Events(taken), Events(queue));
      if queue != [] {
        assert items != [];
        RunPossible(Events(taken));
        NothingWaits(Place(), queue);
      }
      NoEvents(Place());
      assert queue == [] ==> Events(queue) == [];
    }

    lemma EndState()
      requires StacksOk() && Place() == After
      ensures state == AtEnd && states == [] && indents == [] && indent == -1 && flowLevel == 0
    {
    }
  }

  lemma EndIsAfter(st: State, states: seq<State>)
    ensures PlaceOf(st, states) == After <==> st == AtEnd
  {
  }

  lemma OutsideState(st: State)
    requires st == AtStreamStart || st == FirstDocumentStart || st == LaterDocumentStart || st == AtDocumentEnd
            || st == AtEnd
    ensures FlowOf(st) == [] && st != DocumentContent
  {
  }

  lemma NotEmpty(q: seq<Item>)
    requires !NeedMore(q)
    ensures q != []
  {
  }

  lemma FewWait(q: seq<Item>)
    requires NeedMore(q)
    ensures |q| <= 3
  {
    hide ClosedWithin;
  }

  /** A start event is only written when the event after it is known. */
  lemma EnoughEvents(q: seq<Item>)
    requires !NeedMore(q)
    ensures q != [] && (OpensCollection(q[0].e) ==> |q| >= 2)
  {
    if |q| == 1 {
      LevelsNext(q, 0);
      assert q[..0] == [] && q[..1] == q;
    }
  }

  lemma PlaceNext(taken: seq<Item>, it: Item)
    ensures Run(Before, Events(taken + [it])) == Next(Run(Before, Events(taken)), it.e)
  {
    hide Next;
    var es := Events(taken + [it]);
    assert es[..|es| - 1] == Events(taken);
  }

  lemma NoFlow()
    ensures Flows([]) == 0
  {
  }

  lemma ContentPlace(e: Event)
    ensures Next(Open([InStream, InDocument(false)]), e) != Wrong <==> IsNode(e)
    ensures StackFrames([AtDocumentEnd]) == [InStream, InDocument(true)] && StackFlow([AtDocumentEnd]) == []
  {
    assert [AtDocumentEnd][..0] == [];
  }

  lemma OutsideNext(st: State, e: Event)
    requires FlowOf(st) == [] && st != DocumentContent
    ensures PlaceOf(st, [])
            == match st
               case AtStreamStart => Before
               case AtEnd => After
               case AtDocumentEnd => Open([InStream, InDocument(true)])
               case _ => Open([InStream])
    ensures Next(PlaceOf(st, []), e) ==
      if st == AtStreamStart && e == StreamStart then Open([InStream])
      else if st == AtDocumentEnd && e == DocumentEnd then Open([InStream])
      else if (st == FirstDocumentStart || st == LaterDocumentStart) && e == DocumentStart
      then Open([InStream, InDocument(false)])
      else if (st == FirstDocumentStart || st == LaterDocumentStart) && e == StreamEnd then After
      else Wrong
  {
    hide StackFrames;
    if st == AtDocumentEnd {
      OnlyStream();
    }
  }

  lemma OnlyStream()
    ensures StackFrames([]) == [InStream]
  {
  }

  lemma EndIgnoresChoice(fs: seq<bool>, e: Event, flow: bool)
    requires e == SequenceEnd || e == MappingEnd
    ensures FlowAfter(fs, e, flow) == FlowAfter(fs, e, false)
  {
  }

  lemma StackNotEmpty(states: seq<State>)
    ensures StackFrames(states) != []
  {
  }

  lemma NeverWrong(st: State, states: seq<State>)
    ensures PlaceOf(st, states) != Wrong
  {
  }

  lemma StackableFlow(st: State)
    requires Stackable(st) && st != AtDocumentEnd
    ensures |FlowOf(st)| == 1
  {
  }

  lemma KindAdded(fs: seq<bool>, back: State)
    requires FlowOf(back) != []
    ensures Flows(fs + FlowOf(back)) == Flows(fs) + if FlowOf(back) == [true] then 1 else 0
  {
    FlowsAppend(fs, FlowOf(back)[0]);
  }
}
