/** Why a run of the YAML event parser that loses the end of a flow sequence cannot end well: the ends are counted. */
module YamlBalance {
  import opened YamlEvents
  import opened YamlMachine
  import opened YamlGrammar
  import opened YamlSentences
  import T = YamlTokens

  // ----- flow sequences are counted -----

  /** By how many the ends of flow sequences outnumber the starts, up to the end of the stream. */
  function Weight(ts: seq<Token>): int {
    if ts == [] || ts[0].kind == T.StreamEnd then 0 else
      var k := ts[0].kind;
      Weight(ts[1..]) + if k == T.FlowSequenceEnd then 1 else if k == T.FlowSequenceStart then -1 else 0
  }

  /** The flow sequences, entered and not left, that a state stands for. */
  function Open(st: State): int {
    match st
    case FlowSequenceEntry => 1
    case FlowPairKey => 1
    case FlowPairValue => 1
    case FlowPairEnd => 1
    case _ => 0
  }

  function OpenIn(states: seq<State>): int {
    if states == [] then 0 else OpenIn(states[..|states| - 1]) + Open(states[|states| - 1])
  }

  /** The ends of flow sequences to come that nothing open and nothing to come calls for. */
  function Balance(c: Config): int {
    if c.state == Finished then 0 else Weight(c.tokens) - OpenIn(c.states) - Open(c.state)
  }

  /** A collection that has begun still has its first token. */
  predicate HeadStands(c: Config) {
    match c.state
    case BlockSequenceFirst => Sees(c.tokens, T.BlockSequenceStart)
    case BlockMappingFirst => Sees(c.tokens, T.BlockMappingStart)
    case FlowSequenceFirst => Sees(c.tokens, T.FlowSequenceStart)
    case FlowMappingFirst => Sees(c.tokens, T.FlowMappingStart)
    case _ => true
  }

  ghost predicate Weighs(out: Outcome, b: int) {
    out.Did? ==> HeadStands(out.next) && Balance(out.next) == b
  }

  ghost predicate AllStackable(states: seq<State>) {
    forall st | st in states :: Stackable(st)
  }

  lemma Push(states: seq<State>, st: State)
    requires AllStackable(states) && Stackable(st)
    ensures AllStackable(states + [st]) && OpenIn(states + [st]) == OpenIn(states) + Open(st)
  {
    hide Stackable, Open;
    assert (states + [st])[..|states|] == states;
  }

  lemma ReturnWeighs(e: Event, tokens: seq<Token>, states: seq<State>, marks: nat)
    requires AllStackable(states)
    ensures Weighs(Return(e, tokens, states, marks), Weight(tokens) - OpenIn(states))
  {
    hide Weight;
    if states != [] {
      assert states[|states| - 1] in states;
    }
  }

  lemma BodyWeighs(tokens: seq<Token>, some: bool, states: seq<State>, marks: nat, block: bool, indentless: bool)
    requires AllStackable(states)
    ensures Weighs(StepBody(tokens, some, states, marks, block, indentless), Weight(tokens) - OpenIn(states))
  {
    hide Return, OpenIn, AllStackable;
    ReturnWeighs(Scalar, tokens, states, marks);
    if tokens != [] {
      ReturnWeighs(Scalar, tokens[1..], states, marks);
    }
  }

  lemma PropertiesWeigh(tokens: seq<Token>)
    ensures Properties(tokens).Props? ==> Weight(Properties(tokens).tokens) == Weight(tokens)
  {
    if |tokens| >= 2 {
      assert tokens[1..][1..] == tokens[2..];
    }
  }

  lemma NodeWeighs(tokens: seq<Token>, states: seq<State>, marks: nat, block: bool, indentless: bool)
    requires AllStackable(states)
    ensures Weighs(StepNode(tokens, states, marks, block, indentless), Weight(tokens) - OpenIn(states))
  {
    hide Return, StepBody, OpenIn, Properties, AllStackable;
    PropertiesWeigh(tokens);
    var p := Properties(tokens);
    if p.Props? {
      BodyWeighs(p.tokens, p.some, states, marks, block, indentless);
    }
    if tokens != [] {
      ReturnWeighs(Alias, tokens[1..], states, marks);
    }
  }

  lemma PushedNodeWeighs(tokens: seq<Token>, back: State, states: seq<State>, marks: nat, block: bool, indentless: bool)
    requires AllStackable(states) && Stackable(back)
    ensures Weighs(StepNode(tokens, states + [back], marks, block, indentless),
            Weight(tokens) - OpenIn(states) - Open(back))
  {
    hide *;
    Push(states, back);
    NodeWeighs(tokens, states + [back], marks, block, indentless);
  }

  lemma OptionalWeighs(tokens: seq<Token>, back: State, states: seq<State>, marks: nat, block: bool, indentless: bool,
                       enders: seq<T.Kind>)
    requires AllStackable(states) && Stackable(back)
    ensures Weighs(StepOptional(tokens, back, states, marks, block, indentless, enders),
            Weight(tokens) - OpenIn(states) - Open(back))
  {
    hide StepNode, Weight, OpenIn, AllStackable;
    PushedNodeWeighs(tokens, back, states, marks, block, indentless);
  }

  lemma BlockItemWeighs(c: Config)
    requires AllStackable(c.states)
    ensures Weighs(StepBlockSequence(c), Weight(c.tokens) - OpenIn(c.states))
    ensures Weighs(StepIndentless(c), Weight(c.tokens) - OpenIn(c.states))
  {
    hide Return, StepOptional, OpenIn, AllStackable;
    ReturnWeighs(SequenceEnd, c.tokens, c.states, c.marks);
    if c.tokens != [] {
      OptionalWeighs(c.tokens[1..], BlockSequenceEntry, c.states, c.marks, true, false, SEQUENCE_ENDERS);
      OptionalWeighs(c.tokens[1..], IndentlessEntry, c.states, c.marks, true, false, INDENTLESS_ENDERS);
      if c.marks > 0 {
        ReturnWeighs(SequenceEnd, c.tokens[1..], c.states, c.marks - 1);
      }
    }
  }

  lemma BlockPairWeighs(c: Config)
    requires AllStackable(c.states)
    ensures Weighs(StepBlockKey(c), Weight(c.tokens) - OpenIn(c.states))
    ensures Weighs(StepBlockValue(c), Weight(c.tokens) - OpenIn(c.states))
  {
    hide Return, StepOptional, OpenIn, AllStackable;
    if c.tokens != [] {
      OptionalWeighs(c.tokens[1..], BlockMappingValue, c.states, c.marks, true, true, MAPPING_ENDERS);
      OptionalWeighs(c.tokens[1..], BlockMappingKey, c.states, c.marks, true, true, MAPPING_ENDERS);
      if c.marks > 0 {
        ReturnWeighs(MappingEnd, c.tokens[1..], c.states, c.marks - 1);
      }
    }
  }

  lemma FlowItemWeighs(tokens: seq<Token>, states: seq<State>, marks: nat)
    requires AllStackable(states)
    ensures Weighs(StepFlowItem(tokens, states, marks), Weight(tokens) - OpenIn(states) - 1)
  {
    hide Return, StepNode, OpenIn, AllStackable;
    PushedNodeWeighs(tokens, FlowSequenceEntry, states, marks, false, false);
    if tokens != [] && marks > 0 {
      ReturnWeighs(SequenceEnd, tokens[1..], states, marks - 1);
    }
  }

  lemma FlowEntryWeighs(tokens: seq<Token>, states: seq<State>, marks: nat)
    requires AllStackable(states)
    ensures Weighs(StepFlowEntry(tokens, states, marks), Weight(tokens) - OpenIn(states))
  {
    hide Return, StepOptional, StepNode, OpenIn, AllStackable, Weighs;
    PushedNodeWeighs(tokens, FlowMappingEmpty, states, marks, false, false);
    NothingFails(states, marks);
    if tokens != [] {
      OptionalWeighs(tokens[1..], FlowMappingValue, states, marks, false, false, FLOW_KEY_ENDERS);
      if marks > 0 {
        ReturnWeighs(MappingEnd, tokens[1..], states, marks - 1);
      }
    } else {
      FailedWeighs(Weight(tokens) - OpenIn(states));
    }
  }

  lemma FailedWeighs(b: int)
    ensures Weighs(Failed, b)
  {
  }

  lemma SeparatedWeighs(tokens: seq<Token>, first: bool, end: T.Kind)
    ensures Separated(tokens, first, end) != [] ==> Weight(Separated(tokens, first, end)) == Weight(tokens)
  {
  }

  lemma FlowWeighs(c: Config, first: bool)
    requires AllStackable(c.states)
    ensures Weighs(StepFlowSequence(c, first), Weight(c.tokens) - OpenIn(c.states) - 1)
    ensures Weighs(StepFlowKey(c, first), Weight(c.tokens) - OpenIn(c.states))
  {
    hide StepFlowItem, StepFlowEntry, Separated, OpenIn, AllStackable;
    SeparatedWeighs(c.tokens, first, T.FlowSequenceEnd);
    SeparatedWeighs(c.tokens, first, T.FlowMappingEnd);
    FlowItemWeighs(Separated(c.tokens, first, T.FlowSequenceEnd), c.states, c.marks);
    FlowEntryWeighs(Separated(c.tokens, first, T.FlowMappingEnd), c.states, c.marks);
    NothingFails(c.states, c.marks);
  }

  lemma NothingFails(states: seq<State>, marks: nat)
    ensures StepFlowItem([], states, marks) == Failed && StepFlowEntry([], states, marks) == Failed
  {
  }

  lemma FlowValueWeighs(c: Config)
    requires AllStackable(c.states)
    ensures Weighs(StepFlowValue(c), Weight(c.tokens) - OpenIn(c.states))
    ensures Weighs(StepFlowNoValue(c), Weight(c.tokens) - OpenIn(c.states))
  {
    hide StepOptional, OpenIn, AllStackable;
    if c.tokens != [] {
      OptionalWeighs(c.tokens[1..], FlowMappingKey, c.states, c.marks, false, false, FLOW_ENDERS);
    }
  }

  lemma PairValueWeighs(c: Config)
    requires AllStackable(c.states)
    ensures Weighs(StepPairValue(c), Weight(c.tokens) - OpenIn(c.states) - 1)
    ensures Weighs(StepPairEnd(c), Weight(c.tokens) - OpenIn(c.states) - 1)
  {
    hide StepOptional, OpenIn, AllStackable;
    if c.tokens != [] {
      OptionalWeighs(c.tokens[1..], FlowPairEnd, c.states, c.marks, false, false, PAIR_ENDERS);
    }
  }

  /** The end of a flow sequence is taken for the token behind a key that is not there. */
  predicate Loses(c: Config) {
    c.state == FlowPairKey && Sees(c.tokens, T.FlowSequenceEnd)
  }

  lemma PairKeyWeighs(c: Config)
    requires AllStackable(c.states) && c.state == FlowPairKey
    ensures Weighs(StepPairKey(c), Weight(c.tokens) - OpenIn(c.states) - 1 - (if Loses(c) then 1 else 0))
  {
    hide StepNode, OpenIn, AllStackable;
    PushedNodeWeighs(c.tokens, FlowPairValue, c.states, c.marks, false, false);
  }

  lemma {:induction false} MarkersWeigh(ts: seq<Token>)
    ensures Weight(DocumentEnds(ts)) == Weight(ts)
    ensures Directives(ts) != [] ==> Weight(Directives(ts)) == Weight(ts)
  {
    if ts != [] {
      MarkersWeigh(ts[1..]);
    }
  }

  lemma DocumentWeighs(c: Config, implicit: bool)
    requires c.states == [] && c.state == (if implicit then BeforeImplicitDocument else BeforeDocument)
    ensures Weighs(StepDocumentStart(c, implicit), Balance(c))
  {
    hide Directives, DocumentEnds, Weight;
    var ts := if implicit then c.tokens else DocumentEnds(c.tokens);
    MarkersWeigh(c.tokens);
    MarkersWeigh(ts);
    OneWeighs(ts);
    OneWeighs(Directives(ts));
    Push([], AfterDocument);
  }

  lemma OneWeighs(ts: seq<Token>)
    ensures Sees(ts, T.StreamEnd) ==> Weight(ts) == 0
    ensures Sees(ts, T.DocumentStart) ==> Weight(ts) == Weight(ts[1..])
  {
  }

  lemma OutsideStacks(c: Config)
    requires Sound(c) && (c.state == BeforeImplicitDocument || c.state == BeforeDocument)
    ensures c.states == []
  {
  }

  lemma ContentWeighs(c: Config, content: bool)
    requires AllStackable(c.states)
    ensures Weighs(StepContent(c, content), Weight(c.tokens) - OpenIn(c.states))
    ensures Weighs(StepDocumentEnd(c), Weight(c.tokens) - OpenIn(c.states))
  {
    hide StepNode, Return, OpenIn, AllStackable;
    NodeWeighs(c.tokens, c.states, c.marks, true, false);
    ReturnWeighs(Scalar, c.tokens, c.states, c.marks);
  }

  /** Every step keeps the balance, but for the one that loses the end of a flow sequence. */
  lemma StepWeighs(c: Config)
    requires Sound(c) && HeadStands(c) && c.state != Finished
    ensures Weighs(Step(c), Balance(c) - (if Loses(c) then 1 else 0))
  {
    hide StepBlockSequence, StepIndentless, StepBlockKey, StepBlockValue, StepFlowSequence, StepPairKey, StepPairValue,
      StepPairEnd;
    hide StepFlowKey, StepFlowValue, StepFlowNoValue, StepDocumentStart, StepContent, StepDocumentEnd, OpenIn, Sound,
      Weighs;
    SoundStacks(c);
    match c.state {
      case BeforeStream => StreamWeighs(c);
      case AfterDocument => ContentWeighs(c, true);
      case BeforeImplicitDocument =>
        OutsideStacks(c);
        DocumentWeighs(c, true);
      case BeforeDocument =>
        OutsideStacks(c);
        DocumentWeighs(c, false);
      case DocumentContent => ContentWeighs(c, true);
      case BlockNode => ContentWeighs(c, false);
      case BlockSequenceEntry => BlockItemWeighs(c);
      case IndentlessEntry => BlockItemWeighs(c);
      case BlockMappingKey => BlockPairWeighs(c);
      case BlockMappingValue => BlockPairWeighs(c);
      case FlowSequenceEntry => FlowWeighs(c, false);
      case FlowPairKey => PairKeyWeighs(c);
      case FlowPairValue => PairValueWeighs(c);
      case FlowPairEnd => PairValueWeighs(c);
      case FlowMappingKey => FlowWeighs(c, false);
      case FlowMappingValue => FlowValueWeighs(c);
      case FlowMappingEmpty => FlowValueWeighs(c);
      case BlockSequenceFirst => BlockItemWeighs(Opened(c));
      case BlockMappingFirst => BlockPairWeighs(Opened(c));
      case FlowSequenceFirst => FlowWeighs(Opened(c), true);
      case FlowMappingFirst => FlowWeighs(Opened(c), true);
    }
  }

  lemma SoundStacks(c: Config)
    requires Sound(c)
    ensures AllStackable(c.states)
  {
    hide StateOk;
    forall st | st in c.states ensures Stackable(st) {
      var i :| 0 <= i < |c.states| && c.states[i] == st;
    }
  }

  lemma StreamWeighs(c: Config)
    requires c.state == BeforeStream
    ensures Weighs(StepStreamStart(c), Balance(c))
  {
  }

  /** A run that ends well uses up all ends of flow sequences for sequences. */
  lemma {:induction false} SuccessBalances(c: Config)
    requires Sound(c) && HeadStands(c) && ParseFrom(c).0
    ensures Balance(c) >= if Loses(c) then 1 else 0
    decreases |c.tokens|, Rank(c.state)
  {
    hide Sound, Step, HeadStands, Weight, OpenIn, Open;
    if c.state != Finished {
      StepIsRight(c);
      StepWeighs(c);
      if Step(c).Did? {
        SuccessBalances(Step(c).next);
      }
    }
  }

  // ----- runs that cannot end well -----

  predicate Stuck(d: Config) {
    (d.state != Finished && Step(d).Failed?) || Loses(d)
  }

  ghost predicate Breaks(c: Config) {
    exists es, d :: Reaches(c, es, d) && Stuck(d)
  }

  ghost predicate BreaksOff(out: Outcome) {
    out.Failed? || Breaks(out.next)
  }

  lemma {:induction false} BreaksFails(c: Config, es: seq<Event>, d: Config)
    requires Sound(c) && HeadStands(c) && Balance(c) <= 0 && Reaches(c, es, d) && Stuck(d)
    ensures !ParseFrom(c).0
    decreases |es|
  {
    hide Sound, Step, HeadStands, Balance;
    if es == [] {
      if ParseFrom(c).0 {
        SuccessBalances(c);
      }
    } else {
      NotFinished(c);
      StepIsRight(c);
      StepWeighs(c);
      BreaksFails(Step(c).next, es[1..], d);
    }
  }

  lemma NotFinished(c: Config)
    ensures c.state == Finished ==> Step(c) == Failed
  {
  }

  lemma StepBreaks(c: Config)
    requires c.state != Finished && BreaksOff(Step(c))
    ensures Breaks(c)
  {
    hide Step;
    if Step(c).Failed? {
      assert Reaches(c, [], c) && Stuck(c);
    } else {
      var es, d :| Reaches(Step(c).next, es, d) && Stuck(d);
      assert ([Step(c).event] + es)[1..] == es;
      assert Reaches(c, [Step(c).event] + es, d);
    }
  }

  lemma ReachedBreaks(c: Config, a: seq<Event>, d: Config)
    requires Reaches(c, a, d) && Breaks(d)
    ensures Breaks(c)
  {
    hide Reaches, Stuck;
    var es, e :| Reaches(d, es, e) && Stuck(e);
    ReachesJoin(c, a, d, es, e);
  }

  /** A run that gets somewhere, and breaks off there. */
  lemma ThenBreaks(out: Outcome, a: seq<Event>, c: Config)
    requires Begins(out, a, c) && c.state != Finished && BreaksOff(Step(c))
    ensures BreaksOff(out)
  {
    hide Step, Reaches, Breaks;
    StepBreaks(c);
    ReachedBreaks(out.next, a[1..], c);
  }

  lemma OpensAndBreaks(e: Event, c: Config)
    requires c.state != Finished && BreaksOff(Step(c))
    ensures BreaksOff(Did(e, c))
  {
    hide Step, Breaks;
    StepBreaks(c);
  }

  // ----- sentences balance -----

  lemma OneMoreWeight(k: T.Kind, rest: seq<Token>)
    requires k != T.StreamEnd
    ensures Weight([Tok(k)] + rest)
         == (if k == T.FlowSequenceEnd then 1 else if k == T.FlowSequenceStart then -1 else 0) + Weight(rest)
  {
    assert ([Tok(k)] + rest)[1..] == rest;
  }

  lemma PropsWeight(props: seq<T.Kind>, rest: seq<Token>)
    requires PropsOk(props)
    ensures Weight(Toks(props) + rest) == Weight(rest)
  {
    if |props| == 2 {
      OneMoreWeight(props[1], rest);
      OneMoreWeight(props[0], [Tok(props[1])] + rest);
      assert Toks(props) + rest == [Tok(props[0])] + ([Tok(props[1])] + rest);
    } else if |props| == 1 {
      OneMoreWeight(props[0], rest);
      assert Toks(props) + rest == [Tok(props[0])] + rest;
    } else {
      assert Toks(props) + rest == rest;
    }
  }

  /** A collection weighs nothing if what is in it weighs nothing. */
  lemma CollectionWeight(props: seq<T.Kind>, start: T.Kind, inner: seq<Token>, end: T.Kind, rest: seq<Token>)
    requires PropsOk(props) && Weight(inner + ([Tok(end)] + rest)) == Weight([Tok(end)] + rest)
    requires start != T.StreamEnd && end != T.StreamEnd && (start == T.FlowSequenceStart <==> end == T.FlowSequenceEnd)
    requires start != T.FlowSequenceEnd && end != T.FlowSequenceStart
    ensures Weight((Toks(props) + ([Tok(start)] + (inner + [Tok(end)]))) + rest) == Weight(rest)
  {
    hide Weight, PropsOk, Tok;
    CollectionTokens(props, Tok(start), inner, Tok(end), rest);
    PropsWeight(props, [Tok(start)] + (inner + ([Tok(end)] + rest)));
    OneMoreWeight(start, inner + ([Tok(end)] + rest));
    OneMoreWeight(end, rest);
  }

  lemma {:induction false} NodeWeight(n: Node, block: bool, indentless: bool, rest: seq<Token>)
    requires IsNode(n, block, indentless)
    ensures Weight(NodeTokens(n) + rest) == Weight(rest)
    decreases n, 1
  {
    hide Weight, PropsOk, ItemTokens, EntryTokens, FlowTokens, AreItems, AreBlockEntries, AreFlowEntries;
    match n {
      case Reference => OneMoreWeight(T.Alias, rest);
      case Leaf(props) =>
        PropsWeight(props, [Tok(T.Scalar)] + rest);
        OneMoreWeight(T.Scalar, rest);
        Shift(Toks(props), [Tok(T.Scalar)], rest);
      case Bare(props) => PropsWeight(props, rest);
      case BlockSequence(props, items) =>
        ItemsWeight(items, [Tok(T.BlockEnd)] + rest);
        CollectionWeight(props, T.BlockSequenceStart, ItemTokens(items), T.BlockEnd, rest);
      case Indentless(props, items) =>
        ItemsWeight(items, rest);
        PropsWeight(props, ItemTokens(items) + rest);
        Shift(Toks(props), ItemTokens(items), rest);
      case BlockMapping(props, es) =>
        EntriesWeight(es, [Tok(T.BlockEnd)] + rest);
        CollectionWeight(props, T.BlockMappingStart, EntryTokens(es), T.BlockEnd, rest);
      case FlowSequence(props, es, trailing) =>
        FlowWeight(es, trailing, [Tok(T.FlowSequenceEnd)] + rest);
        CollectionWeight(props, T.FlowSequenceStart, FlowTokens(es, trailing), T.FlowSequenceEnd, rest);
      case FlowMapping(props, es, trailing) =>
        FlowWeight(es, trailing, [Tok(T.FlowMappingEnd)] + rest);
        CollectionWeight(props, T.FlowMappingStart, FlowTokens(es, trailing), T.FlowMappingEnd, rest);
    }
  }

  lemma {:induction false} OptionalWeight(n: Node, block: bool, indentless: bool, rest: seq<Token>)
    requires IsOptional(n, block, indentless)
    ensures Weight(NodeTokens(n) + rest) == Weight(rest)
    decreases n, 2
  {
    hide Weight, IsNode;
    if n.Empty? {
      assert [] + rest == rest;
    } else {
      NodeWeight(n, block, indentless, rest);
    }
  }

  lemma {:induction false} ItemsWeight(items: seq<Node>, rest: seq<Token>)
    requires AreItems(items)
    ensures Weight(ItemTokens(items) + rest) == Weight(rest)
    decreases items, 0
  {
    hide Weight, NodeTokens, IsOptional;
    if items == [] {
      assert [] + rest == rest;
    } else {
      assert items[0] in items;
      ItemsWeight(items[1..], rest);
      OptionalWeight(items[0], true, false, ItemTokens(items[1..]) + rest);
      OneMoreWeight(T.BlockEntry, NodeTokens(items[0]) + (ItemTokens(items[1..]) + rest));
      Shift([Tok(T.BlockEntry)], NodeTokens(items[0]) + ItemTokens(items[1..]), rest);
      Shift(NodeTokens(items[0]), ItemTokens(items[1..]), rest);
    }
  }

  lemma {:induction false} EntryWeight(e: Entry, rest: seq<Token>)
    requires IsBlockEntry(e) || IsFlowEntry(e)
    ensures Weight(OneEntry(e) + rest) == Weight(rest)
    decreases e, 0
  {
    hide Weight, NodeTokens, IsOptional, IsNode;
    match e {
      case Single(n) => NodeWeight(n, false, false, rest);
      case Pair(key, valued, value) =>
        var b := IsBlockEntry(e);
        var values := ValueTokens(valued, value) + rest;
        ValueWeight(valued, value, b, rest);
        OptionalWeight(key, b, b, values);
        OneMoreWeight(T.Key, NodeTokens(key) + values);
        assert OneEntry(e) + rest == [Tok(T.Key)] + (NodeTokens(key) + values);
      case Unkeyed(value) => ValueWeight(true, value, true, rest);
    }
  }

  lemma {:induction false} ValueWeight(valued: bool, value: Node, block: bool, rest: seq<Token>)
    requires IsOptional(value, block, block)
    ensures Weight(ValueTokens(valued, value) + rest) == Weight(rest)
    decreases value, 3
  {
    hide Weight, NodeTokens, IsOptional;
    if valued {
      OptionalWeight(value, block, block, rest);
      OneMoreWeight(T.Value, NodeTokens(value) + rest);
      Shift([Tok(T.Value)], NodeTokens(value), rest);
    } else {
      assert [] + rest == rest;
    }
  }

  lemma {:induction false} EntriesWeight(es: seq<Entry>, rest: seq<Token>)
    requires AreBlockEntries(es)
    ensures Weight(EntryTokens(es) + rest) == Weight(rest)
    decreases es, 0
  {
    hide Weight, OneEntry, IsBlockEntry;
    if es == [] {
      assert [] + rest == rest;
    } else {
      assert es[0] in es;
      EntriesWeight(es[1..], rest);
      EntryWeight(es[0], EntryTokens(es[1..]) + rest);
      Shift(OneEntry(es[0]), EntryTokens(es[1..]), rest);
    }
  }

  lemma {:induction false} FlowWeight(es: seq<Entry>, trailing: bool, rest: seq<Token>)
    requires AreFlowEntries(es)
    ensures Weight(FlowTokens(es, trailing) + rest) == Weight(rest)
    decreases es, 0
  {
    hide Weight, OneEntry, IsFlowEntry, FlowRest;
    if es == [] {
      assert [] + rest == rest;
    } else {
      assert es[0] in es;
      FlowRestWeight(es[1..], trailing, rest);
      EntryWeight(es[0], FlowRest(es[1..], trailing) + rest);
      Shift(OneEntry(es[0]), FlowRest(es[1..], trailing), rest);
    }
  }

  lemma {:induction false} FlowRestWeight(es: seq<Entry>, trailing: bool, rest: seq<Token>)
    requires AreFlowEntries(es)
    ensures Weight(FlowRest(es, trailing) + rest) == Weight(rest)
    decreases es, 1
  {
    hide Weight, FlowTokens, IsFlowEntry;
    OneMoreWeight(T.FlowEntry, rest);
    if es != [] {
      FlowWeight(es, trailing, rest);
      OneMoreWeight(T.FlowEntry, FlowTokens(es, trailing) + rest);
      Shift([Tok(T.FlowEntry)], FlowTokens(es, trailing), rest);
    } else {
      assert [] + rest == rest;
    }
  }

  lemma {:induction false} ManyWeight(k: T.Kind, n: nat, rest: seq<Token>)
    requires k == T.Directive || k == T.DocumentEnd
    ensures Weight(Many(k, n) + rest) == Weight(rest)
  {
    hide Weight;
    if n == 0 {
      assert Many(k, n) + rest == rest;
    } else {
      ManyWeight(k, n - 1, rest);
      OneMoreWeight(k, Many(k, n - 1) + rest);
      assert Many(k, n) + rest == [Tok(k)] + (Many(k, n - 1) + rest);
    }
  }

  lemma DocumentWeight(d: Document, rest: seq<Token>)
    requires IsDocument(d)
    ensures Weight(DocumentTokens(d) + rest) == Weight(rest)
  {
    hide Weight, NodeTokens, Many, IsNode;
    var inner := NodeTokens(d.root) + (Many(T.DocumentEnd, d.ends) + rest);
    ManyWeight(T.DocumentEnd, d.ends, rest);
    OptionalWeight(d.root, true, false, Many(T.DocumentEnd, d.ends) + rest);
    OneMoreWeight(T.DocumentStart, inner);
    ManyWeight(T.Directive, d.directives, [Tok(T.DocumentStart)] + inner);
    DocumentSplits(d, rest);
  }

  lemma {:induction false} DocumentsWeight(ds: seq<Document>, rest: seq<Token>)
    requires forall d | d in ds :: IsDocument(d)
    ensures Weight(DocumentsTokens(ds) + rest) == Weight(rest)
  {
    hide Weight, DocumentTokens, IsDocument;
    if ds == [] {
      assert [] + rest == rest;
    } else {
      DocumentsWeight(ds[1..], rest);
      DocumentWeight(ds[0], DocumentsTokens(ds[1..]) + rest);
      Shift(DocumentTokens(ds[0]), DocumentsTokens(ds[1..]), rest);
    }
  }

  lemma StreamBalances(ds: seq<Document>)
    requires forall d | d in ds :: IsDocument(d)
    ensures HeadStands(Start(StreamTokens(ds))) && Balance(Start(StreamTokens(ds))) == 0
  {
    hide Weight, DocumentsTokens, IsDocument;
    DocumentsWeight(ds, [Tok(T.StreamEnd)]);
    OneMoreWeight(T.StreamStart, DocumentsTokens(ds) + [Tok(T.StreamEnd)]);
    OneWeighs([Tok(T.StreamEnd)]);
  }
}
