/** The event parser on the sentences of its grammar: it finds exactly the events that they mean. */
module YamlSentences {
  import opened YamlEvents
  import opened YamlMachine
  import opened YamlGrammar
  import T = YamlTokens

  // ----- several steps -----

  /** The parser gets from c to d and puts out es. */
  ghost predicate Reaches(c: Config, es: seq<Event>, d: Config)
    decreases |es|
  {
    if es == [] then c == d else
      var out := Step(c);
      out.Did? && out.event == es[0] && Reaches(out.next, es[1..], d)
  }

  /** The same, behind a first step. */
  ghost predicate Begins(out: Outcome, es: seq<Event>, d: Config) {
    out.Did? && es != [] && out.event == es[0] && Reaches(out.next, es[1..], d)
  }

  lemma {:induction false} ReachesJoin(c: Config, a: seq<Event>, d: Config, b: seq<Event>, e: Config)
    requires Reaches(c, a, d) && Reaches(d, b, e)
    ensures Reaches(c, a + b, e)
    decreases |a|
  {
    hide Step;
    if a == [] {
      assert a + b == b;
    } else {
      ReachesJoin(Step(c).next, a[1..], d, b, e);
      assert (a + b)[1..] == a[1..] + b;
    }
  }

  lemma BeginsJoin(out: Outcome, a: seq<Event>, d: Config, b: seq<Event>, e: Config)
    requires Begins(out, a, d) && Reaches(d, b, e)
    ensures Begins(out, a + b, e)
  {
    hide Reaches;
    ReachesJoin(out.next, a[1..], d, b, e);
    assert (a + b)[1..] == a[1..] + b;
  }

  lemma StepBegins(c: Config, es: seq<Event>, d: Config)
    requires Begins(Step(c), es, d)
    ensures Reaches(c, es, d)
  {
    hide Step;
  }

  lemma DoneBegins(e: Event, d: Config)
    ensures Begins(Did(e, d), [e], d)
  {
  }

  /** A step out of a loop, and the rest of the loop behind it. */
  lemma ThenRuns(out: Outcome, a: seq<Event>, c: Config, b: seq<Event>, e: seq<Event>, d: Config)
    requires Begins(out, a, c) && Begins(Step(c), b + e, d)
    ensures Begins(out, (a + b) + e, d)
  {
    hide Begins, Step;
    StepBegins(c, b + e, d);
    BeginsJoin(out, a, c, b + e, d);
    assert a + (b + e) == (a + b) + e;
  }

  /** A step, and others behind it. */
  lemma FirstBegins(e: Event, c: Config, es: seq<Event>, d: Config)
    requires Reaches(c, es, d)
    ensures Begins(Did(e, c), [e] + es, d)
  {
    hide Reaches;
    assert ([e] + es)[1..] == es;
  }

  // ----- what can stand behind a node -----

  const DELIMITERS := [T.BlockEntry, T.BlockEnd, T.Key, T.Value, T.FlowEntry, T.FlowSequenceEnd, T.FlowMappingEnd,
    T.Directive, T.DocumentStart, T.DocumentEnd, T.StreamEnd]

  predicate Follows(rest: seq<Token>, indentless: bool) {
    rest != [] && if indentless then rest[0].kind in MAPPING_ENDERS else rest[0].kind in DELIMITERS
  }

  const STARTERS := [T.Alias, T.Anchor, T.Tag, T.Scalar, T.FlowSequenceStart, T.FlowMappingStart, T.BlockSequenceStart,
    T.BlockMappingStart]

  /** No node begins with one of these. */
  predicate CanEnd(enders: seq<T.Kind>, indentless: bool) {
    (forall k | k in STARTERS :: k !in enders) && (indentless ==> T.BlockEntry !in enders)
  }

  lemma AllCanEnd()
    ensures CanEnd(SEQUENCE_ENDERS, false) && CanEnd(INDENTLESS_ENDERS, false) && CanEnd(MAPPING_ENDERS, true)
    ensures CanEnd(PAIR_ENDERS, false) && CanEnd(FLOW_ENDERS, false) && CanEnd(FLOW_KEY_ENDERS, false)
  {
  }

  /** The tokens that show a node to be missing can stand behind one. */
  lemma EndersFollow(k: T.Kind)
    ensures k == T.BlockEntry || k == T.BlockEnd ==> k in SEQUENCE_ENDERS && k in DELIMITERS && k in INDENTLESS_ENDERS
    ensures k == T.Key || k == T.Value || k == T.BlockEnd <==> k in MAPPING_ENDERS
    ensures k in MAPPING_ENDERS ==> k in INDENTLESS_ENDERS && k in DELIMITERS
    ensures k == T.FlowEntry || k == T.FlowSequenceEnd ==> k in PAIR_ENDERS && k in DELIMITERS
    ensures k == T.FlowEntry || k == T.FlowMappingEnd ==> k in FLOW_ENDERS && k in DELIMITERS
    ensures k == T.Value || k == T.FlowEntry || k == T.FlowMappingEnd ==> k in FLOW_KEY_ENDERS && k in DELIMITERS
    ensures k == T.Value || k == T.FlowEntry || k == T.FlowSequenceEnd <==> k in PAIR_KEY_ENDERS
  {
  }

  /** A node begins with a token that no delimiter is, but an indentless sequence may begin with an entry. */
  lemma NodeStarts(n: Node, block: bool, indentless: bool)
    requires IsNode(n, block, indentless)
    ensures NodeTokens(n) != []
            && (NodeTokens(n)[0].kind in STARTERS || (indentless && NodeTokens(n)[0].kind == T.BlockEntry))
  {
    hide EntryTokens, FlowTokens, AreBlockEntries, AreFlowEntries, AreItems;
  }

  /** The properties of a node are skipped. */
  lemma PropsSkipped(props: seq<T.Kind>, rest: seq<Token>, states: seq<State>, marks: nat, block: bool,
      indentless: bool)
    requires PropsOk(props) && rest != [] && rest[0].kind != T.Anchor && rest[0].kind != T.Tag
            && rest[0].kind != T.Alias
    ensures StepNode(Toks(props) + rest, states, marks, block, indentless) == StepBody(rest, props != [], states,
            marks, block, indentless)
  {
    hide StepBody;
    var ts := Toks(props) + rest;
    assert ts[|props|..] == rest;
    if |props| == 2 {
      assert ts[0].kind == props[0] && ts[1..][0].kind == props[1];
    } else if |props| == 1 {
      assert ts[0].kind == props[0] && ts[1..][0] == rest[0];
    } else {
      assert ts == rest;
    }
  }

  // ----- single steps -----

  lemma FollowsIs(rest: seq<Token>)
    ensures Follows(rest, true) <==>
      rest != [] && (rest[0].kind == T.Key || rest[0].kind == T.Value || rest[0].kind == T.BlockEnd)
    ensures rest != [] && rest[0].kind in DELIMITERS ==> Follows(rest, false)
  {
  }

  lemma StepAtBlockEntry(c: Config)
    requires c.tokens != [] && c.state == BlockSequenceEntry && c.marks > 0
    ensures c.tokens[0].kind == T.BlockEntry ==>
      Step(c) == StepOptional(c.tokens[1..], BlockSequenceEntry, c.states, c.marks, true, false, SEQUENCE_ENDERS)
    ensures c.tokens[0].kind == T.BlockEnd ==> Step(c) == Return(SequenceEnd, c.tokens[1..], c.states, c.marks - 1)
  {
    hide StepOptional, Return;
  }

  lemma StepAtIndentless(c: Config)
    requires c.tokens != [] && c.state == IndentlessEntry
    ensures Step(c) == if c.tokens[0].kind == T.BlockEntry
                       then StepOptional(c.tokens[1..], IndentlessEntry, c.states, c.marks, true, false,
                         INDENTLESS_ENDERS)
                       else Return(SequenceEnd, c.tokens, c.states, c.marks)
  {
    hide StepOptional, Return;
  }

  lemma StepAtBlockKey(c: Config)
    requires c.tokens != [] && c.state == BlockMappingKey && c.marks > 0
    ensures c.tokens[0].kind == T.Key ==>
      Step(c) == StepOptional(c.tokens[1..], BlockMappingValue, c.states, c.marks, true, true, MAPPING_ENDERS)
    ensures c.tokens[0].kind == T.BlockEnd ==> Step(c) == Return(MappingEnd, c.tokens[1..], c.states, c.marks - 1)
  {
    hide StepOptional, Return;
  }

  lemma StepAtBlockValue(c: Config)
    requires c.tokens != [] && c.state == BlockMappingValue
    ensures Step(c) == if c.tokens[0].kind == T.Value
                       then StepOptional(c.tokens[1..], BlockMappingKey, c.states, c.marks, true, true, MAPPING_ENDERS)
                       else Did(Scalar, Config(c.tokens, BlockMappingKey, c.states, c.marks))
  {
    hide StepOptional;
  }

  lemma StepAtPair(c: Config)
    requires c.tokens != []
    ensures c.state == FlowPairKey ==>
      Step(c) == if c.tokens[0].kind == T.Value || c.tokens[0].kind == T.FlowEntry
        || c.tokens[0].kind == T.FlowSequenceEnd
                 then Did(Scalar, Config(c.tokens[1..], FlowPairValue, c.states, c.marks))
                 else StepNode(c.tokens, c.states + [FlowPairValue], c.marks, false, false)
    ensures c.state == FlowPairValue ==>
      Step(c) == if c.tokens[0].kind == T.Value
                 then StepOptional(c.tokens[1..], FlowPairEnd, c.states, c.marks, false, false, PAIR_ENDERS)
                 else Did(Scalar, Config(c.tokens, FlowPairEnd, c.states, c.marks))
    ensures c.state == FlowPairEnd ==>
      Step(c) == Did(MappingEnd, Config(c.tokens, FlowSequenceEntry, c.states, c.marks))
  {
    hide StepOptional, StepNode;
  }

  lemma StepAtFlowValue(c: Config)
    requires c.tokens != []
    ensures c.state == FlowMappingValue ==>
      Step(c) == if c.tokens[0].kind == T.Value
                 then StepOptional(c.tokens[1..], FlowMappingKey, c.states, c.marks, false, false, FLOW_ENDERS)
                 else Did(Scalar, Config(c.tokens, FlowMappingKey, c.states, c.marks))
    ensures c.state == FlowMappingEmpty ==> Step(c) == Did(Scalar, Config(c.tokens, FlowMappingKey, c.states, c.marks))
  {
    hide StepOptional, StepNode;
  }

  lemma StepAtFlowEntry(tokens: seq<Token>, states: seq<State>, marks: nat)
    requires tokens != []
    ensures tokens[0].kind == T.Key ==>
      && StepFlowItem(tokens, states, marks) == Did(MappingStart, Config(tokens[1..], FlowPairKey, states, marks))
      && StepFlowEntry(tokens, states, marks) == StepOptional(tokens[1..], FlowMappingValue, states, marks, false,
        false, FLOW_KEY_ENDERS)
    ensures tokens[0].kind in STARTERS ==>
      && StepFlowItem(tokens, states, marks) == StepNode(tokens, states + [FlowSequenceEntry], marks, false, false)
      && StepFlowEntry(tokens, states, marks) == StepNode(tokens, states + [FlowMappingEmpty], marks, false, false)
  {
    hide StepOptional, StepNode;
  }

  lemma StepAtFlow(c: Config)
    requires c.tokens != []
    ensures c.state == FlowSequenceEntry && c.tokens[0].kind == T.FlowEntry ==>
      Step(c) == StepFlowItem(c.tokens[1..], c.states, c.marks)
    ensures c.state == FlowSequenceEntry && c.tokens[0].kind == T.FlowSequenceEnd ==>
      Step(c) == StepFlowItem(c.tokens, c.states, c.marks)
    ensures c.state == FlowMappingKey && c.tokens[0].kind == T.FlowEntry ==>
      Step(c) == StepFlowEntry(c.tokens[1..], c.states, c.marks)
    ensures c.state == FlowMappingKey && c.tokens[0].kind == T.FlowMappingEnd ==>
      Step(c) == StepFlowEntry(c.tokens, c.states, c.marks)
  {
    hide StepFlowItem, StepFlowEntry;
  }

  /** A collection is entered by skipping its first token. */
  lemma StepAtFirst(c: Config)
    requires c.tokens != []
    ensures c.state == BlockSequenceFirst ==>
      Step(c) == Step(Config(c.tokens[1..], BlockSequenceEntry, c.states, c.marks + 1))
    ensures c.state == BlockMappingFirst ==>
      Step(c) == Step(Config(c.tokens[1..], BlockMappingKey, c.states, c.marks + 1))
    ensures c.state == FlowSequenceFirst ==> Step(c) == StepFlowItem(c.tokens[1..], c.states, c.marks + 1)
    ensures c.state == FlowMappingFirst ==> Step(c) == StepFlowEntry(c.tokens[1..], c.states, c.marks + 1)
  {
    hide StepOptional, StepFlowItem, StepFlowEntry, Return;
  }

  // ----- the parts of a sentence -----

  lemma NodeParts(n: Node, block: bool, indentless: bool)
    requires NodeOk(n, block, indentless)
    ensures !n.Empty? && (n.Leaf? ==> PropsOk(n.props)) && (n.Bare? ==> PropsOk(n.props) && n.props != [])
    ensures n.BlockSequence? ==> block && PropsOk(n.props) && ItemsOk(n.items)
    ensures n.Indentless? ==> indentless && PropsOk(n.props) && n.items != [] && ItemsOk(n.items)
    ensures n.BlockMapping? ==> block && PropsOk(n.props) && forall e | e in n.entries :: BlockEntryOk(e)
    ensures n.FlowSequence? ==>
      PropsOk(n.props) && SequenceOk(n.entries, n.trailing) && (n.trailing ==> n.entries != [])
    ensures n.FlowMapping? ==>
      PropsOk(n.props) && (n.trailing ==> n.entries != []) && forall e | e in n.entries :: FlowEntryOk(e)
  {
    hide PropsOk, AreItems, ReadsItems, IsBlockEntry, IsFlowEntry, ReadsEntry;
    match n {
      case BlockMapping(_, es) =>
        forall e | e in es ensures BlockEntryOk(e) {
          assert AreBlockEntries(es) && ReadsEntries(es);
        }
      case FlowSequence(_, es, _) => FlowEntriesOk(es);
      case FlowMapping(_, es, _) => FlowEntriesOk(es);
      case _ =>
    }
  }

  lemma FlowEntriesOk(es: seq<Entry>)
    ensures AreFlowEntries(es) && ReadsEntries(es) <==> forall e | e in es :: FlowEntryOk(e)
  {
    hide IsFlowEntry, ReadsEntry;
    if forall e | e in es :: FlowEntryOk(e) {
      forall e | e in es ensures IsFlowEntry(e) && ReadsEntry(e) {
        assert FlowEntryOk(e);
      }
    }
  }

  lemma OkIsNode(n: Node, block: bool, indentless: bool)
    ensures NodeOk(n, block, indentless) <==> IsNode(n, block, indentless) && Reads(n)
    ensures OptionalOk(n, block, indentless) <==> IsOptional(n, block, indentless) && Reads(n)
    ensures IsOptional(n, block, indentless) && !n.Empty? ==> IsNode(n, block, indentless)
    ensures OptionalOk(n, block, indentless) && !n.Empty? ==> NodeOk(n, block, indentless)
    ensures n.Empty? ==> Reads(n) && !IsNode(n, block, indentless)
  {
    hide AreItems, AreBlockEntries, AreFlowEntries;
  }

  lemma ItemsParts(items: seq<Node>)
    requires items != [] && ItemsOk(items)
    ensures OptionalOk(items[0], true, false) && ItemsOk(items[1..])
    ensures ItemEvents(items) == NodeEvents(items[0]) + ItemEvents(items[1..])
  {
    hide IsOptional, Reads, NodeEvents;
    assert items[0] in items;
  }

  lemma BlockParts(es: seq<Entry>)
    requires es != [] && forall e | e in es :: BlockEntryOk(e)
    ensures es[0].Pair? && BlockEntryOk(es[0]) && forall e | e in es[1..] :: BlockEntryOk(e)
    ensures OptionalOk(es[0].key, true, true) && OptionalOk(es[0].value, true, true)
            && (!es[0].valued ==> es[0].value.Empty?)
    ensures PairEvents(es) == (NodeEvents(es[0].key) + NodeEvents(es[0].value)) + PairEvents(es[1..])
  {
    hide IsOptional, Reads, NodeEvents;
    assert es[0] in es;
  }

  lemma FlowParts(e: Entry)
    requires FlowEntryOk(e)
    ensures e.Single? ==> NodeOk(e.node, false, false) && IsNode(e.node, false, false)
    ensures e.Pair? ==>
      OptionalOk(e.key, false, false) && OptionalOk(e.value, false, false)
      && (!e.valued ==> e.value.Empty?)
    ensures !e.Unkeyed?
  {
    hide IsNode, Reads;
    match e {
      case Single(n) =>
      case Pair(key, _, value) =>
        OkIsNode(key, false, false);
        OkIsNode(value, false, false);
      case Unkeyed(_) =>
    }
  }

  lemma FlowShape(e: Entry)
    ensures e.Single? ==> OneEntry(e) == NodeTokens(e.node)
    ensures e.Single? ==> PairOf(e) == NodeEvents(e.node) + [Scalar] && FlowItem(e) == NodeEvents(e.node)
    ensures e.Pair? ==> OneEntry(e) == [Tok(T.Key)] + (NodeTokens(e.key) + ValueTokens(e.valued, e.value))
    ensures e.Pair? ==> PairOf(e) == NodeEvents(e.key) + NodeEvents(e.value)
    ensures e.Pair? ==> FlowItem(e) == [MappingStart] + (NodeEvents(e.key) + (NodeEvents(e.value) + [MappingEnd]))
  {
    hide NodeEvents, NodeTokens, ValueTokens;
  }

  lemma OptionalThere(n: Node, block: bool, indentless: bool)
    requires OptionalOk(n, block, indentless) && !n.Empty?
    ensures NodeOk(n, block, indentless)
  {
    hide IsNode, Reads;
  }

  // ----- nodes -----

  lemma Shift<X>(a: seq<X>, b: seq<X>, c: seq<X>)
    ensures (a + b) + c == a + (b + c)
  {
  }

  /** The tokens of a collection, in front of what follows it. */
  lemma CollectionTokens(props: seq<T.Kind>, start: Token, inner: seq<Token>, end: Token, rest: seq<Token>)
    ensures (Toks(props) + ([start] + (inner + [end]))) + rest == Toks(props) + ([start] + (inner + ([end] + rest)))
    ensures ([start] + (inner + ([end] + rest)))[1..] == inner + ([end] + rest)
  {
  }

  /** A collection: the rest of its events follows its start. */
  lemma CollectionBegins(e: Event, c: Config, inner: seq<Event>, d: Config)
    requires Begins(Step(c), inner, d)
    ensures Begins(Did(e, c), [e] + inner, d)
  {
    hide Step, Begins;
    StepBegins(c, inner, d);
    FirstBegins(e, c, inner, d);
  }

  lemma {:induction false} NodeRuns(n: Node, rest: seq<Token>, lower: seq<State>, back: State, marks: nat, block: bool,
      indentless: bool)
    requires NodeOk(n, block, indentless) && Follows(rest, indentless)
    ensures Begins(StepNode(NodeTokens(n) + rest, lower + [back], marks, block, indentless), NodeEvents(n),
            Config(rest, back, lower, marks))
    decreases n, 1
  {
    hide Begins, Reaches, Step, StepNode, ItemTokens, EntryTokens, FlowTokens, ItemEvents, PairEvents, FlowEvents,
      NodeOk, IsNode, Reads, SequenceOk, BlockEntryOk, FlowEntryOk, ItemsOk, PropsOk;
    NodeParts(n, block, indentless);
    var s, d := lower + [back], Config(rest, back, lower, marks);
    match n {
      case Reference => ReferenceRuns(rest, lower, back, marks, block, indentless);
      case Leaf(props) => LeafRuns(props, rest, lower, back, marks, block, indentless);
      case Bare(props) => BareRuns(props, rest, lower, back, marks, block, indentless);
      case BlockSequence(props, items) =>
        var inner := ItemTokens(items) + ([Tok(T.BlockEnd)] + rest);
        CollectionTokens(props, Tok(T.BlockSequenceStart), ItemTokens(items), Tok(T.BlockEnd), rest);
        BlockSequenceRuns(items, rest, lower, back, marks);
        OpenBlock(props, inner, s, marks, indentless);
        CollectionBegins(SequenceStart, Config([Tok(T.BlockSequenceStart)] + inner, BlockSequenceFirst, s, marks),
          ItemEvents(items) + [SequenceEnd], d);
      case Indentless(props, items) =>
        Shift(Toks(props), ItemTokens(items), rest);
        IndentlessRun(items, rest, lower, back, marks);
        OpenIndentless(props, items, rest, s, marks, block);
        CollectionBegins(SequenceStart, Config(ItemTokens(items) + rest, IndentlessEntry, s, marks),
          ItemEvents(items) + [SequenceEnd], d);
      case BlockMapping(props, es) =>
        var inner := EntryTokens(es) + ([Tok(T.BlockEnd)] + rest);
        CollectionTokens(props, Tok(T.BlockMappingStart), EntryTokens(es), Tok(T.BlockEnd), rest);
        BlockMappingRuns(es, rest, lower, back, marks);
        OpenBlockMapping(props, inner, s, marks, indentless);
        CollectionBegins(MappingStart, Config([Tok(T.BlockMappingStart)] + inner, BlockMappingFirst, s, marks),
          PairEvents(es) + [MappingEnd], d);
      case FlowSequence(props, es, trailing) =>
        var inner := FlowTokens(es, trailing) + ([Tok(T.FlowSequenceEnd)] + rest);
        CollectionTokens(props, Tok(T.FlowSequenceStart), FlowTokens(es, trailing), Tok(T.FlowSequenceEnd), rest);
        FlowSequenceRuns(es, trailing, rest, lower, back, marks);
        OpenFlow(props, inner, s, marks, block, indentless);
        CollectionBegins(SequenceStart, Config([Tok(T.FlowSequenceStart)] + inner, FlowSequenceFirst, s, marks),
          FlowEvents(es) + [SequenceEnd], d);
      case FlowMapping(props, es, trailing) =>
        var inner := FlowTokens(es, trailing) + ([Tok(T.FlowMappingEnd)] + rest);
        CollectionTokens(props, Tok(T.FlowMappingStart), FlowTokens(es, trailing), Tok(T.FlowMappingEnd), rest);
        FlowMappingRuns(es, trailing, rest, lower, back, marks);
        OpenFlowMapping(props, inner, s, marks, block, indentless);
        CollectionBegins(MappingStart, Config([Tok(T.FlowMappingStart)] + inner, FlowMappingFirst, s, marks),
          PairEvents(es) + [MappingEnd], d);
    }
  }

  lemma ReferenceRuns(rest: seq<Token>, lower: seq<State>, back: State, marks: nat, block: bool, indentless: bool)
    ensures Begins(StepNode([Tok(T.Alias)] + rest, lower + [back], marks, block, indentless), [Alias], Config(rest,
            back, lower, marks))
  {
    DoneBegins(Alias, Config(rest, back, lower, marks));
  }

  lemma LeafRuns(props: seq<T.Kind>, rest: seq<Token>, lower: seq<State>, back: State, marks: nat, block: bool,
      indentless: bool)
    requires PropsOk(props)
    ensures Begins(StepNode((Toks(props) + [Tok(T.Scalar)]) + rest, lower + [back], marks, block, indentless),
            [Scalar], Config(rest, back, lower, marks))
  {
    hide StepNode, Begins, PropsOk;
    Shift(Toks(props), [Tok(T.Scalar)], rest);
    PropsSkipped(props, [Tok(T.Scalar)] + rest, lower + [back], marks, block, indentless);
    DoneBegins(Scalar, Config(rest, back, lower, marks));
    assert ([Tok(T.Scalar)] + rest)[1..] == rest;
  }

  /** What stands behind a node is neither a property nor content. */
  lemma FollowerIsNoContent(rest: seq<Token>, indentless: bool)
    requires Follows(rest, indentless)
    ensures rest != [] && rest[0].kind !in STARTERS && (indentless ==> rest[0].kind != T.BlockEntry)
    ensures rest[0].kind != T.Anchor && rest[0].kind != T.Tag && rest[0].kind != T.Alias && rest[0].kind != T.Scalar
    ensures rest[0].kind != T.FlowSequenceStart && rest[0].kind != T.FlowMappingStart
    ensures rest[0].kind != T.BlockSequenceStart && rest[0].kind != T.BlockMappingStart
  {
  }

  lemma BareRuns(props: seq<T.Kind>, rest: seq<Token>, lower: seq<State>, back: State, marks: nat, block: bool,
      indentless: bool)
    requires PropsOk(props) && props != [] && Follows(rest, indentless)
    ensures Begins(StepNode(Toks(props) + rest, lower + [back], marks, block, indentless), [Scalar], Config(rest, back,
            lower, marks))
  {
    hide StepNode, Begins, PropsOk, Follows;
    FollowerIsNoContent(rest, indentless);
    PropsSkipped(props, rest, lower + [back], marks, block, indentless);
    DoneBegins(Scalar, Config(rest, back, lower, marks));
  }

  lemma OpenBlock(props: seq<T.Kind>, inner: seq<Token>, states: seq<State>, marks: nat, indentless: bool)
    requires PropsOk(props)
    ensures var ts := [Tok(T.BlockSequenceStart)] + inner;
            StepNode(Toks(props) + ts, states, marks, true, indentless) == Did(SequenceStart, Config(ts,
              BlockSequenceFirst, states, marks))
  {
    hide StepNode, PropsOk;
    PropsSkipped(props, [Tok(T.BlockSequenceStart)] + inner, states, marks, true, indentless);
  }

  lemma OpenBlockMapping(props: seq<T.Kind>, inner: seq<Token>, states: seq<State>, marks: nat, indentless: bool)
    requires PropsOk(props)
    ensures var ts := [Tok(T.BlockMappingStart)] + inner;
            StepNode(Toks(props) + ts, states, marks, true, indentless) == Did(MappingStart, Config(ts,
              BlockMappingFirst, states, marks))
  {
    hide StepNode, PropsOk;
    PropsSkipped(props, [Tok(T.BlockMappingStart)] + inner, states, marks, true, indentless);
  }

  lemma OpenIndentless(props: seq<T.Kind>, items: seq<Node>, rest: seq<Token>, states: seq<State>, marks: nat,
      block: bool)
    requires PropsOk(props) && items != []
    ensures var ts := ItemTokens(items) + rest;
            StepNode(Toks(props) + ts, states, marks, block, true) == Did(SequenceStart, Config(ts, IndentlessEntry,
              states, marks))
  {
    hide StepNode, PropsOk, NodeTokens;
    assert (ItemTokens(items) + rest)[0] == Tok(T.BlockEntry);
    PropsSkipped(props, ItemTokens(items) + rest, states, marks, block, true);
  }

  lemma OpenFlow(props: seq<T.Kind>, inner: seq<Token>, states: seq<State>, marks: nat, block: bool, indentless: bool)
    requires PropsOk(props)
    ensures var ts := [Tok(T.FlowSequenceStart)] + inner;
            StepNode(Toks(props) + ts, states, marks, block, indentless) == Did(SequenceStart, Config(ts,
              FlowSequenceFirst, states, marks))
  {
    hide StepNode, PropsOk;
    PropsSkipped(props, [Tok(T.FlowSequenceStart)] + inner, states, marks, block, indentless);
  }

  lemma OpenFlowMapping(props: seq<T.Kind>, inner: seq<Token>, states: seq<State>, marks: nat, block: bool,
      indentless: bool)
    requires PropsOk(props)
    ensures var ts := [Tok(T.FlowMappingStart)] + inner;
            StepNode(Toks(props) + ts, states, marks, block, indentless) == Did(MappingStart, Config(ts,
              FlowMappingFirst, states, marks))
  {
    hide StepNode, PropsOk;
    PropsSkipped(props, [Tok(T.FlowMappingStart)] + inner, states, marks, block, indentless);
  }

  /** A node that may be missing, in front of a token that shows whether it is. */
  lemma {:induction false} OptionalRuns(n: Node, rest: seq<Token>, lower: seq<State>, back: State, marks: nat,
      block: bool, indentless: bool,
                                        enders: seq<T.Kind>)
    requires OptionalOk(n, block, indentless) && Follows(rest, indentless) && (n.Empty? ==> rest[0].kind in enders)
    requires CanEnd(enders, indentless)
    ensures Begins(StepOptional(NodeTokens(n) + rest, back, lower, marks, block, indentless, enders), NodeEvents(n),
            Config(rest, back, lower, marks))
    decreases n, 2
  {
    hide Begins, StepNode, NodeOk, OptionalOk, IsNode, Reads;
    OkIsNode(n, block, indentless);
    if n.Empty? {
      assert [] + rest == rest;
      DoneBegins(Scalar, Config(rest, back, lower, marks));
    } else {
      NodeStarts(n, block, indentless);
      NodeRuns(n, rest, lower, back, marks, block, indentless);
      assert (NodeTokens(n) + rest)[0] == NodeTokens(n)[0];
    }
  }

  // ----- block sequences -----

  lemma ReturnsTo(e: Event, tokens: seq<Token>, lower: seq<State>, back: State, marks: nat)
    ensures Return(e, tokens, lower + [back], marks) == Did(e, Config(tokens, back, lower, marks))
    ensures Begins(Return(e, tokens, lower + [back], marks), [e], Config(tokens, back, lower, marks))
  {
    DoneBegins(e, Config(tokens, back, lower, marks));
  }

  lemma BlockSequenceRuns(items: seq<Node>, rest: seq<Token>, lower: seq<State>, back: State, marks: nat)
    requires ItemsOk(items)
    ensures Begins(Step(Config([Tok(T.BlockSequenceStart)] + (ItemTokens(items) + ([Tok(T.BlockEnd)] + rest)),
            BlockSequenceFirst, lower + [back], marks)),
                   ItemEvents(items) + [SequenceEnd], Config(rest, back, lower, marks))
    decreases items, 1
  {
    hide *;
    var inner := ItemTokens(items) + ([Tok(T.BlockEnd)] + rest);
    BlockItemsRun(items, rest, lower, back, marks);
    assert ([Tok(T.BlockSequenceStart)] + inner)[1..] == inner;
    StepAtFirst(Config([Tok(T.BlockSequenceStart)] + inner, BlockSequenceFirst, lower + [back], marks));
  }

  lemma TokIs(k: T.Kind)
    ensures Tok(k).kind == k
  {
  }

  lemma NoEventsIn()
    ensures ItemEvents([]) == [] && PairEvents([]) == [] && FlowEvents([]) == []
  {
  }

  lemma ItemsHead(items: seq<Node>, tail: seq<Token>)
    requires tail != []
    ensures var ts := ItemTokens(items) + tail; ts != [] && ts[0].kind == if items == [] then tail[0].kind
            else T.BlockEntry
    ensures items != [] ==>
      ItemTokens(items) + tail == [Tok(T.BlockEntry)] + (NodeTokens(items[0]) + (ItemTokens(items[1..]) + tail))
    ensures items == [] ==> ItemTokens(items) + tail == tail
  {
    hide NodeTokens;
  }

  /** An entry of a block sequence. */
  lemma {:induction false} BlockItemRuns(n: Node, others: seq<Token>, states: seq<State>, marks: nat)
    requires OptionalOk(n, true, false) && marks > 0
    requires others != [] && (others[0].kind == T.BlockEntry || others[0].kind == T.BlockEnd)
    ensures Begins(Step(Config([Tok(T.BlockEntry)] + (NodeTokens(n) + others), BlockSequenceEntry, states, marks)),
            NodeEvents(n),
                   Config(others, BlockSequenceEntry, states, marks))
    decreases n, 3
  {
    hide *;
    var ts := [Tok(T.BlockEntry)] + (NodeTokens(n) + others);
    TokIs(T.BlockEntry);
    AllCanEnd();
    EndersFollow(others[0].kind);
    FollowsIs(others);
    assert ts[1..] == NodeTokens(n) + others;
    StepAtBlockEntry(Config(ts, BlockSequenceEntry, states, marks));
    OptionalRuns(n, others, states, BlockSequenceEntry, marks, true, false, SEQUENCE_ENDERS);
  }

  lemma BlockEnds(rest: seq<Token>, lower: seq<State>, back: State, marks: nat)
    ensures var tail := [Tok(T.BlockEnd)] + rest;
            && tail != [] && tail[0].kind == T.BlockEnd
            && Begins(Step(Config(tail, BlockSequenceEntry, lower + [back], marks + 1)), [] + [SequenceEnd],
              Config(rest, back, lower, marks))
            && Begins(Step(Config(tail, BlockMappingKey, lower + [back], marks + 1)), [] + [MappingEnd], Config(rest,
              back, lower, marks))
  {
    hide *;
    var tail := [Tok(T.BlockEnd)] + rest;
    TokIs(T.BlockEnd);
    StepAtBlockEntry(Config(tail, BlockSequenceEntry, lower + [back], marks + 1));
    StepAtBlockKey(Config(tail, BlockMappingKey, lower + [back], marks + 1));
    ReturnsTo(SequenceEnd, rest, lower, back, marks);
    ReturnsTo(MappingEnd, rest, lower, back, marks);
    assert tail[1..] == rest && [] + [SequenceEnd] == [SequenceEnd] && [] + [MappingEnd] == [MappingEnd];
  }

  lemma {:induction false} BlockItemsRun(items: seq<Node>, rest: seq<Token>, lower: seq<State>, back: State, marks: nat)
    requires ItemsOk(items)
    ensures Begins(Step(Config(ItemTokens(items) + ([Tok(T.BlockEnd)] + rest), BlockSequenceEntry, lower + [back],
            marks + 1)),
                   ItemEvents(items) + [SequenceEnd], Config(rest, back, lower, marks))
    decreases items, 0
  {
    hide *;
    var tail, s, d := [Tok(T.BlockEnd)] + rest, lower + [back], Config(rest, back, lower, marks);
    BlockEnds(rest, lower, back, marks);
    ItemsHead(items, tail);
    NoEventsIn();
    if items != [] {
      var others := ItemTokens(items[1..]) + tail;
      ItemsHead(items[1..], tail);
      ItemsParts(items);
      BlockItemRuns(items[0], others, s, marks + 1);
      BlockItemsRun(items[1..], rest, lower, back, marks);
      ThenRuns(Step(Config(ItemTokens(items) + tail, BlockSequenceEntry, s, marks + 1)), NodeEvents(items[0]),
        Config(others, BlockSequenceEntry, s, marks + 1), ItemEvents(items[1..]), [SequenceEnd], d);
    }
  }

  /** An entry of an indentless sequence. */
  lemma {:induction false} IndentlessItemRuns(n: Node, others: seq<Token>, states: seq<State>, marks: nat)
    requires OptionalOk(n, true, false)
    requires others != [] && (others[0].kind == T.BlockEntry || others[0].kind in MAPPING_ENDERS)
    ensures Begins(Step(Config([Tok(T.BlockEntry)] + (NodeTokens(n) + others), IndentlessEntry, states, marks)),
            NodeEvents(n),
                   Config(others, IndentlessEntry, states, marks))
    decreases n, 3
  {
    hide *;
    var ts := [Tok(T.BlockEntry)] + (NodeTokens(n) + others);
    TokIs(T.BlockEntry);
    AllCanEnd();
    EndersFollow(others[0].kind);
    FollowsIs(others);
    assert ts[1..] == NodeTokens(n) + others;
    StepAtIndentless(Config(ts, IndentlessEntry, states, marks));
    OptionalRuns(n, others, states, IndentlessEntry, marks, true, false, INDENTLESS_ENDERS);
  }

  lemma IndentlessFollows(rest: seq<Token>)
    requires Follows(rest, true)
    ensures rest != [] && rest[0].kind in MAPPING_ENDERS && rest[0].kind != T.BlockEntry
  {
  }

  lemma IndentlessEnds(rest: seq<Token>, lower: seq<State>, back: State, marks: nat)
    requires rest != [] && rest[0].kind != T.BlockEntry
    ensures Begins(Step(Config(rest, IndentlessEntry, lower + [back], marks)), [SequenceEnd],
            Config(rest, back, lower, marks))
  {
    hide *;
    StepAtIndentless(Config(rest, IndentlessEntry, lower + [back], marks));
    ReturnsTo(SequenceEnd, rest, lower, back, marks);
  }

  lemma {:induction false} IndentlessRun(items: seq<Node>, rest: seq<Token>, lower: seq<State>, back: State, marks: nat)
    requires ItemsOk(items) && Follows(rest, true)
    ensures Begins(Step(Config(ItemTokens(items) + rest, IndentlessEntry, lower + [back], marks)),
                   ItemEvents(items) + [SequenceEnd], Config(rest, back, lower, marks))
    decreases items, 0
  {
    hide *;
    var s, d := lower + [back], Config(rest, back, lower, marks);
    IndentlessFollows(rest);
    ItemsHead(items, rest);
    if items == [] {
      IndentlessEnds(rest, lower, back, marks);
      NoEventsIn();
      assert [] + [SequenceEnd] == [SequenceEnd];
    } else {
      var others := ItemTokens(items[1..]) + rest;
      ItemsHead(items[1..], rest);
      ItemsParts(items);
      IndentlessItemRuns(items[0], others, s, marks);
      IndentlessRun(items[1..], rest, lower, back, marks);
      ThenRuns(Step(Config(ItemTokens(items) + rest, IndentlessEntry, s, marks)), NodeEvents(items[0]),
        Config(others, IndentlessEntry, s, marks), ItemEvents(items[1..]), [SequenceEnd], d);
    }
  }

  // ----- block mappings -----

  lemma BlockMappingRuns(es: seq<Entry>, rest: seq<Token>, lower: seq<State>, back: State, marks: nat)
    requires forall e | e in es :: BlockEntryOk(e)
    ensures Begins(Step(Config([Tok(T.BlockMappingStart)] + (EntryTokens(es) + ([Tok(T.BlockEnd)] + rest)),
            BlockMappingFirst, lower + [back], marks)),
                   PairEvents(es) + [MappingEnd], Config(rest, back, lower, marks))
    decreases es, 2
  {
    hide *;
    var inner := EntryTokens(es) + ([Tok(T.BlockEnd)] + rest);
    BlockEntriesRun(es, rest, lower, back, marks);
    assert ([Tok(T.BlockMappingStart)] + inner)[1..] == inner;
    StepAtFirst(Config([Tok(T.BlockMappingStart)] + inner, BlockMappingFirst, lower + [back], marks));
  }

  lemma EntriesHead(es: seq<Entry>, tail: seq<Token>)
    requires tail != [] && forall e | e in es :: BlockEntryOk(e)
    ensures var ts := EntryTokens(es) + tail; ts != [] && ts[0].kind == if es == [] then tail[0].kind else T.Key
    ensures es != [] ==>
      && es[0].Pair?
      && EntryTokens(es) + tail == [Tok(T.Key)] + (NodeTokens(es[0].key) + (ValueTokens(es[0].valued,
        es[0].value) + (EntryTokens(es[1..]) + tail)))
    ensures es == [] ==> EntryTokens(es) + tail == tail
  {
    hide NodeTokens, ValueTokens, OptionalOk;
    if es != [] {
      assert es[0] in es;
      Shift(OneEntry(es[0]), EntryTokens(es[1..]), tail);
      Shift([Tok(T.Key)], NodeTokens(es[0].key) + ValueTokens(es[0].valued, es[0].value), EntryTokens(es[1..]) + tail);
      Shift(NodeTokens(es[0].key), ValueTokens(es[0].valued, es[0].value), EntryTokens(es[1..]) + tail);
    }
  }

  lemma {:induction false} BlockEntriesRun(es: seq<Entry>, rest: seq<Token>, lower: seq<State>, back: State, marks: nat)
    requires forall e | e in es :: BlockEntryOk(e)
    ensures Begins(Step(Config(EntryTokens(es) + ([Tok(T.BlockEnd)] + rest), BlockMappingKey, lower + [back],
            marks + 1)),
                   PairEvents(es) + [MappingEnd], Config(rest, back, lower, marks))
    decreases es, 1
  {
    hide *;
    var tail, s, d := [Tok(T.BlockEnd)] + rest, lower + [back], Config(rest, back, lower, marks);
    BlockEnds(rest, lower, back, marks);
    EntriesHead(es, tail);
    NoEventsIn();
    if es != [] {
      var others := EntryTokens(es[1..]) + tail;
      BlockParts(es);
      EntriesHead(es[1..], tail);
      BlockPairRuns(es[0], others, s, marks + 1);
      BlockEntriesRun(es[1..], rest, lower, back, marks);
      ThenRuns(Step(Config(EntryTokens(es) + tail, BlockMappingKey, s, marks + 1)),
        NodeEvents(es[0].key) + NodeEvents(es[0].value),
        Config(others, BlockMappingKey, s, marks + 1), PairEvents(es[1..]), [MappingEnd], d);
    }
  }

  /** An entry of a block mapping; only behind a value another VALUE can stand. */
  lemma {:induction false} BlockPairRuns(e: Entry, others: seq<Token>, states: seq<State>, marks: nat)
    requires BlockEntryOk(e) && e.Pair? && marks > 0
    requires others != []
            && (others[0].kind == T.Key || others[0].kind == T.BlockEnd || (e.valued && others[0].kind == T.Value))
    ensures var ts := [Tok(T.Key)] + (NodeTokens(e.key) + (ValueTokens(e.valued, e.value) + others));
            Begins(Step(Config(ts, BlockMappingKey, states, marks)), NodeEvents(e.key) + NodeEvents(e.value),
              Config(others, BlockMappingKey, states, marks))
    decreases e, 4
  {
    hide *;
    assert [e][0] == e;
    BlockParts([e]);
    TokIs(T.Key);
    AllCanEnd();
    var values := ValueTokens(e.valued, e.value) + others;
    var ts := [Tok(T.Key)] + (NodeTokens(e.key) + values);
    assert ts[1..] == NodeTokens(e.key) + values;
    StepAtBlockKey(Config(ts, BlockMappingKey, states, marks));
    BlockValueRuns(e, others, states, marks);
    FollowsIs(values);
    EndersFollow(values[0].kind);
    OptionalRuns(e.key, values, states, BlockMappingValue, marks, true, true, MAPPING_ENDERS);
    BeginsJoin(Step(Config(ts, BlockMappingKey, states, marks)), NodeEvents(e.key), Config(values, BlockMappingValue,
      states, marks),
      NodeEvents(e.value), Config(others, BlockMappingKey, states, marks));
  }

  /** The value of an entry of a block mapping, in front of the next entry or the end. */
  lemma {:induction false} BlockValueRuns(e: Entry, others: seq<Token>, states: seq<State>, marks: nat)
    requires BlockEntryOk(e) && e.Pair?
    requires others != []
            && (others[0].kind == T.Key || others[0].kind == T.BlockEnd || (e.valued && others[0].kind == T.Value))
    ensures e.Pair?
    ensures var values := ValueTokens(e.valued, e.value) + others;
            && Follows(values, true)
            && Reaches(Config(values, BlockMappingValue, states, marks), NodeEvents(e.value), Config(others,
              BlockMappingKey, states, marks))
    decreases e, 3
  {
    hide *;
    assert [e][0] == e;
    BlockParts([e]);
    var values := ValueTokens(e.valued, e.value) + others;
    EndersFollow(others[0].kind);
    ValueHead(e.valued, e.value, others);
    FollowsIs(values);
    FollowsIs(others);
    AllCanEnd();
    StepAtBlockValue(Config(values, BlockMappingValue, states, marks));
    if e.valued {
      OptionalRuns(e.value, others, states, BlockMappingKey, marks, true, true, MAPPING_ENDERS);
    } else {
      MissingValue();
      DoneBegins(Scalar, Config(others, BlockMappingKey, states, marks));
    }
    StepBegins(Config(values, BlockMappingValue, states, marks), NodeEvents(e.value), Config(others, BlockMappingKey,
      states, marks));
  }

  lemma ValueHead(valued: bool, value: Node, others: seq<Token>)
    requires others != []
    ensures var values := ValueTokens(valued,
            value) + others; values != [] && values[0].kind == if valued then T.Value else others[0].kind
    ensures valued ==> (ValueTokens(valued, value) + others)[1..] == NodeTokens(value) + others
    ensures !valued ==> ValueTokens(valued, value) + others == others
  {
    hide NodeTokens;
  }

  // ----- flow sequences -----

  lemma FlowSequenceRuns(es: seq<Entry>, trailing: bool, rest: seq<Token>, lower: seq<State>, back: State, marks: nat)
    requires SequenceOk(es, trailing) && (trailing ==> es != [])
    ensures Begins(Step(Config([Tok(T.FlowSequenceStart)] + (FlowTokens(es,
            trailing) + ([Tok(T.FlowSequenceEnd)] + rest)), FlowSequenceFirst, lower + [back], marks)),
                   FlowEvents(es) + [SequenceEnd], Config(rest, back, lower, marks))
    decreases es, 3
  {
    hide Begins, FlowTokens, FlowEvents, SequenceOk, StepFlowItem;
    var inner := FlowTokens(es, trailing) + ([Tok(T.FlowSequenceEnd)] + rest);
    assert ([Tok(T.FlowSequenceStart)] + inner)[1..] == inner;
    if es == [] {
      NoFlowTokens(trailing, [Tok(T.FlowSequenceEnd)] + rest);
      FlowEnds(rest, lower, back, marks);
    } else {
      FlowFrom(es, trailing, rest, lower, back, marks);
    }
  }

  lemma NoFlowTokens(trailing: bool, tail: seq<Token>)
    ensures FlowTokens([], trailing) == [] && FlowEvents([]) + [SequenceEnd] == [SequenceEnd]
            && PairEvents([]) + [MappingEnd] == [MappingEnd]
    ensures [] + tail == tail
  {
  }

  lemma FlowEnds(rest: seq<Token>, lower: seq<State>, back: State, marks: nat)
    ensures Begins(StepFlowItem([Tok(T.FlowSequenceEnd)] + rest, lower + [back], marks + 1), [SequenceEnd],
            Config(rest, back, lower, marks))
    ensures Begins(StepFlowEntry([Tok(T.FlowMappingEnd)] + rest, lower + [back], marks + 1), [MappingEnd], Config(rest,
            back, lower, marks))
  {
    hide Begins;
    ReturnsTo(SequenceEnd, rest, lower, back, marks);
    ReturnsTo(MappingEnd, rest, lower, back, marks);
  }

  /** A pair without a key and a value swallows the token behind it. */
  predicate Swallows(e: Entry) {
    e.Pair? && e.key.Empty? && !e.valued
  }

  /** What stands behind an item of a flow sequence. */
  predicate Separates(tail: seq<Token>, e: Entry) {
    && tail != [] && (tail[0].kind == T.FlowEntry || tail[0].kind == T.FlowSequenceEnd)
    && (Swallows(e) ==> |tail| >= 2 && tail[0].kind == T.FlowEntry && tail[1].kind == T.FlowSequenceEnd)
  }

  lemma {:induction false} ItemRuns(e: Entry, tail: seq<Token>, states: seq<State>, marks: nat)
    requires FlowEntryOk(e) && (e.Pair? && e.key.Empty? ==> e.value.Empty?) && Separates(tail, e)
    ensures Begins(StepFlowItem(OneEntry(e) + tail, states, marks), FlowItem(e),
                   Config(if Swallows(e) then tail[1..] else tail, FlowSequenceEntry, states, marks))
    decreases e, 5
  {
    hide *;
    FlowParts(e);
    FlowShape(e);
    TailIs(tail, e);
    match e {
      case Single(n) =>
        NodeStarts(n, false, false);
        NodeRuns(n, tail, states, FlowSequenceEntry, marks, false, false);
        assert (NodeTokens(n) + tail)[0] == NodeTokens(n)[0];
        StepAtFlowEntry(NodeTokens(n) + tail, states, marks);
      case Pair(key, valued, value) =>
        var values, left := ValueTokens(valued, value) + tail, if Swallows(e) then tail[1..] else tail;
        TokIs(T.Key);
        assert OneEntry(e) + tail == [Tok(T.Key)] + (NodeTokens(key) + values);
        StepAtFlowEntry([Tok(T.Key)] + (NodeTokens(key) + values), states, marks);
        assert ([Tok(T.Key)] + (NodeTokens(key) + values))[1..] == NodeTokens(key) + values;
        if key.Empty? {
          EmptyKeyRuns(e, tail, states, marks);
        } else {
          KeyRuns(e, tail, states, marks);
        }
        PairEnds(left, states, marks);
        var c := Config(NodeTokens(key) + values, FlowPairKey, states, marks);
        ReachesJoin(c, NodeEvents(key) + NodeEvents(value), Config(left, FlowPairEnd, states, marks), [MappingEnd],
          Config(left, FlowSequenceEntry, states, marks));
        Shift(NodeEvents(key), NodeEvents(value), [MappingEnd]);
        FirstBegins(MappingStart, c, NodeEvents(key) + (NodeEvents(value) + [MappingEnd]), Config(left,
          FlowSequenceEntry, states, marks));
    }
  }

  lemma TailIs(tail: seq<Token>, e: Entry)
    requires Separates(tail, e)
    ensures tail != [] && (tail[0].kind == T.FlowEntry || tail[0].kind == T.FlowSequenceEnd)
            && tail[0].kind in DELIMITERS && Follows(tail, false)
    ensures Swallows(e) <==> e.Pair? && e.key.Empty? && !e.valued
    ensures Swallows(e) ==> |tail| >= 2 && tail[0].kind == T.FlowEntry && tail[1].kind == T.FlowSequenceEnd
  {
  }

  lemma StarterIsNoEnder(k: T.Kind)
    requires k in STARTERS
    ensures k != T.Value && k != T.FlowEntry && k != T.FlowSequenceEnd
  {
  }

  lemma PairEnds(tokens: seq<Token>, states: seq<State>, marks: nat)
    requires tokens != []
    ensures Reaches(Config(tokens, FlowPairEnd, states, marks), [MappingEnd],
            Config(tokens, FlowSequenceEntry, states, marks))
  {
    hide *;
    StepAtPair(Config(tokens, FlowPairEnd, states, marks));
    DoneBegins(MappingEnd, Config(tokens, FlowSequenceEntry, states, marks));
    StepBegins(Config(tokens, FlowPairEnd, states, marks), [MappingEnd],
      Config(tokens, FlowSequenceEntry, states, marks));
  }

  /** The key and the value of a pair that has a key. */
  lemma {:induction false} KeyRuns(e: Entry, tail: seq<Token>, states: seq<State>, marks: nat)
    requires FlowEntryOk(e) && e.Pair? && !e.key.Empty? && Separates(tail, e)
    ensures Reaches(Config(NodeTokens(e.key) + (ValueTokens(e.valued, e.value) + tail), FlowPairKey, states, marks),
                    NodeEvents(e.key) + NodeEvents(e.value), Config(tail, FlowPairEnd, states, marks))
    decreases e, 4
  {
    hide *;
    var values := ValueTokens(e.valued, e.value) + tail;
    FlowParts(e);
    FlowShape(e);
    TailIs(tail, e);
    OptionalThere(e.key, false, false);
    OkIsNode(e.key, false, false);
    NodeStarts(e.key, false, false);
    assert (NodeTokens(e.key) + values)[0] == NodeTokens(e.key)[0];
    ValueFollows(e.valued, e.value, tail);
    StarterIsNoEnder(NodeTokens(e.key)[0].kind);
    StepAtPair(Config(NodeTokens(e.key) + values, FlowPairKey, states, marks));
    NodeRuns(e.key, values, states, FlowPairValue, marks, false, false);
    StepBegins(Config(NodeTokens(e.key) + values, FlowPairKey, states, marks), NodeEvents(e.key), Config(values,
      FlowPairValue, states, marks));
    PairValueRuns(e, tail, states, marks);
    ReachesJoin(Config(NodeTokens(e.key) + values, FlowPairKey, states, marks), NodeEvents(e.key), Config(values,
      FlowPairValue, states, marks),
      NodeEvents(e.value), Config(tail, FlowPairEnd, states, marks));
  }

  lemma ValueFollows(valued: bool, value: Node, tail: seq<Token>)
    requires tail != [] && tail[0].kind in DELIMITERS
    ensures var values := ValueTokens(valued, value) + tail;
            values != [] && values[0].kind == (if valued then T.Value else tail[0].kind) && Follows(values, false)
    ensures valued ==> (ValueTokens(valued, value) + tail)[1..] == NodeTokens(value) + tail
    ensures !valued ==> ValueTokens(valued, value) + tail == tail
  {
    hide NodeTokens;
    ValueHead(valued, value, tail);
  }

  lemma {:induction false} PairValueRuns(e: Entry, tail: seq<Token>, states: seq<State>, marks: nat)
    requires FlowEntryOk(e) && e.Pair? && tail != []
            && (tail[0].kind == T.FlowEntry || tail[0].kind == T.FlowSequenceEnd)
    ensures Reaches(Config(ValueTokens(e.valued, e.value) + tail, FlowPairValue, states, marks), NodeEvents(e.value),
            Config(tail, FlowPairEnd, states, marks))
    decreases e, 3
  {
    hide *;
    FlowParts(e);
    FlowShape(e);
    EndersFollow(tail[0].kind);
    AllCanEnd();
    FollowsIs(tail);
    StepAtPair(Config(ValueTokens(e.valued, e.value) + tail, FlowPairValue, states, marks));
    ValueFollows(e.valued, e.value, tail);
    if e.valued {
      OptionalRuns(e.value, tail, states, FlowPairEnd, marks, false, false, PAIR_ENDERS);
    } else {
      MissingValue();
      DoneBegins(Scalar, Config(tail, FlowPairEnd, states, marks));
    }
    StepBegins(Config(ValueTokens(e.valued, e.value) + tail, FlowPairValue, states, marks), NodeEvents(e.value),
      Config(tail, FlowPairEnd, states, marks));
  }

  lemma MissingValue()
    ensures NodeEvents(Empty) == [Scalar] && NodeTokens(Empty) == []
  {
  }

  /** A pair without a key: the token behind it is skipped. */
  lemma EmptyKeyRuns(e: Entry, tail: seq<Token>, states: seq<State>, marks: nat)
    requires FlowEntryOk(e) && e.Pair? && e.key.Empty? && e.value.Empty? && Separates(tail, e)
    ensures Reaches(Config(NodeTokens(e.key) + (ValueTokens(e.valued, e.value) + tail), FlowPairKey, states, marks),
                    NodeEvents(e.key) + NodeEvents(e.value), Config(if Swallows(e) then tail[1..] else tail,
                      FlowPairEnd, states, marks))
  {
    hide *;
    var values := ValueTokens(e.valued, e.value) + tail;
    TailIs(tail, e);
    MissingValue();
    StepAtPair(Config(values, FlowPairKey, states, marks));
    ValueFollows(e.valued, e.value, tail);
    assert [] + values == values && [] + tail == tail;
    StepAtPair(Config(values[1..], FlowPairValue, states, marks));
    var c, d := Config(values[1..], FlowPairValue, states, marks), Config(values[1..], FlowPairEnd, states, marks);
    DoneBegins(Scalar, c);
    StepBegins(Config(values, FlowPairKey, states, marks), [Scalar], c);
    DoneBegins(Scalar, d);
    StepBegins(c, [Scalar], d);
    ReachesJoin(Config(values, FlowPairKey, states, marks), [Scalar], c, [Scalar], d);
  }

  /** All entries, the first of which stands next. */
  lemma FlowUnfolds(es: seq<Entry>, trailing: bool)
    requires es != []
    ensures FlowTokens(es, trailing) == OneEntry(es[0]) + FlowRest(es[1..], trailing)
    ensures FlowEvents(es) == FlowItem(es[0]) + FlowEvents(es[1..])
            && PairEvents(es) == PairOf(es[0]) + PairEvents(es[1..])
  {
    hide OneEntry, FlowRest, FlowItem, PairOf;
  }

  lemma SeparatesIs(tail: seq<Token>, e: Entry)
    ensures Swallows(e) <==> e.Pair? && e.key.Empty? && !e.valued
    ensures tail != [] && (tail[0].kind == T.FlowEntry || tail[0].kind == T.FlowSequenceEnd)
            && (Swallows(e) ==> |tail| >= 2 && tail[0].kind == T.FlowEntry && tail[1].kind == T.FlowSequenceEnd)
            ==> Separates(tail, e)
  {
  }

  lemma {:induction false} FlowFrom(es: seq<Entry>, trailing: bool, rest: seq<Token>, lower: seq<State>, back: State,
      marks: nat)
    requires es != [] && SequenceOk(es, trailing)
    ensures Begins(StepFlowItem(FlowTokens(es, trailing) + ([Tok(T.FlowSequenceEnd)] + rest), lower + [back],
            marks + 1),
                   FlowEvents(es) + [SequenceEnd], Config(rest, back, lower, marks))
    decreases es, 1
  {
    hide *;
    FlowUnfolds(es, trailing);
    TokIs(T.FlowSequenceEnd);
    TokIs(T.FlowEntry);
    var end, s := [Tok(T.FlowSequenceEnd)] + rest, lower + [back];
    var tail := FlowRest(es[1..], trailing) + end;
    var left := if Swallows(es[0]) then tail[1..] else tail;
    LaterOk(es, trailing);
    SeparatesIs(tail, es[0]);
    RestHead(es[1..], trailing, end);
    ItemRuns(es[0], tail, s, marks + 1);
    if Swallows(es[0]) {
      FlowEnds(rest, lower, back, marks);
      NoFlowTokens(trailing, end);
      NoEventsIn();
      StepAtFlow(Config(end, FlowSequenceEntry, s, marks + 1));
      assert [] + [SequenceEnd] == [SequenceEnd];
    } else {
      FlowNext(es[1..], trailing, rest, lower, back, marks);
    }
    ThenRuns(StepFlowItem(OneEntry(es[0]) + tail, s, marks + 1), FlowItem(es[0]),
      Config(left, FlowSequenceEntry, s, marks + 1),
      FlowEvents(es[1..]), [SequenceEnd], Config(rest, back, lower, marks));
    Shift(OneEntry(es[0]), FlowRest(es[1..], trailing), end);
  }

  lemma RestHead(es: seq<Entry>, trailing: bool, end: seq<Token>)
    requires end != []
    ensures var tail := FlowRest(es, trailing) + end;
            && tail != [] && (es == [] && !trailing ==> tail == end)
              && (es != [] || trailing ==> tail[0] == Tok(T.FlowEntry))
            && (es == [] && trailing ==> tail[1..] == end) && (es != [] ==> tail[1..] == FlowTokens(es, trailing) + end)
  {
    hide FlowTokens;
  }

  lemma LaterOk(es: seq<Entry>, trailing: bool)
    requires es != [] && SequenceOk(es, trailing)
    ensures SequenceOk(es[1..], trailing)
    ensures FlowEntryOk(es[0])
            && (es[0].Pair? && es[0].key.Empty? ==> es[0].value.Empty? && (es[0].valued || (trailing && es[1..] == [])))
  {
    hide FlowEntryOk;
  }

  /** The entries behind another one. */
  lemma {:induction false} FlowNext(es: seq<Entry>, trailing: bool, rest: seq<Token>, lower: seq<State>, back: State,
      marks: nat)
    requires SequenceOk(es, trailing)
    ensures Begins(Step(Config(FlowRest(es, trailing) + ([Tok(T.FlowSequenceEnd)] + rest), FlowSequenceEntry,
            lower + [back], marks + 1)),
                   FlowEvents(es) + [SequenceEnd], Config(rest, back, lower, marks))
    decreases es, 2
  {
    hide *;
    var end := [Tok(T.FlowSequenceEnd)] + rest;
    TokIs(T.FlowSequenceEnd);
    TokIs(T.FlowEntry);
    RestHead(es, trailing, end);
    StepAtFlow(Config(FlowRest(es, trailing) + end, FlowSequenceEntry, lower + [back], marks + 1));
    if es == [] {
      NoFlowTokens(trailing, end);
      FlowEnds(rest, lower, back, marks);
    } else {
      FlowFrom(es, trailing, rest, lower, back, marks);
    }
  }

  // ----- flow mappings -----

  lemma FlowMappingRuns(es: seq<Entry>, trailing: bool, rest: seq<Token>, lower: seq<State>, back: State, marks: nat)
    requires (forall e | e in es :: FlowEntryOk(e)) && (trailing ==> es != [])
    ensures Begins(Step(Config([Tok(T.FlowMappingStart)] + (FlowTokens(es,
            trailing) + ([Tok(T.FlowMappingEnd)] + rest)), FlowMappingFirst, lower + [back], marks)),
                   PairEvents(es) + [MappingEnd], Config(rest, back, lower, marks))
    decreases es, 3
  {
    hide Begins, FlowTokens, PairEvents, FlowEntryOk, StepFlowEntry;
    var inner := FlowTokens(es, trailing) + ([Tok(T.FlowMappingEnd)] + rest);
    assert ([Tok(T.FlowMappingStart)] + inner)[1..] == inner;
    if es == [] {
      NoFlowTokens(trailing, [Tok(T.FlowMappingEnd)] + rest);
      FlowEnds(rest, lower, back, marks);
    } else {
      PairsFrom(es, trailing, rest, lower, back, marks);
    }
  }

  lemma {:induction false} PairRuns(e: Entry, tail: seq<Token>, states: seq<State>, marks: nat)
    requires FlowEntryOk(e) && tail != [] && (tail[0].kind == T.FlowEntry || tail[0].kind == T.FlowMappingEnd)
    ensures Begins(StepFlowEntry(OneEntry(e) + tail, states, marks), PairOf(e),
            Config(tail, FlowMappingKey, states, marks))
    decreases e, 4
  {
    hide *;
    FlowParts(e);
    FlowShape(e);
    EndersFollow(tail[0].kind);
    FollowsIs(tail);
    match e {
      case Single(n) =>
        NodeStarts(n, false, false);
        NodeRuns(n, tail, states, FlowMappingEmpty, marks, false, false);
        assert (NodeTokens(n) + tail)[0] == NodeTokens(n)[0];
        StepAtFlowEntry(NodeTokens(n) + tail, states, marks);
        StepAtFlowValue(Config(tail, FlowMappingEmpty, states, marks));
        DoneBegins(Scalar, Config(tail, FlowMappingKey, states, marks));
        StepBegins(Config(tail, FlowMappingEmpty, states, marks), [Scalar],
          Config(tail, FlowMappingKey, states, marks));
        BeginsJoin(StepNode(NodeTokens(n) + tail, states + [FlowMappingEmpty], marks, false, false), NodeEvents(n),
          Config(tail, FlowMappingEmpty, states, marks),
          [Scalar], Config(tail, FlowMappingKey, states, marks));
      case Pair(key, valued, value) =>
        var values := ValueTokens(valued, value) + tail;
        TokIs(T.Key);
        AllCanEnd();
        assert OneEntry(e) + tail == [Tok(T.Key)] + (NodeTokens(key) + values);
        StepAtFlowEntry([Tok(T.Key)] + (NodeTokens(key) + values), states, marks);
        assert ([Tok(T.Key)] + (NodeTokens(key) + values))[1..] == NodeTokens(key) + values;
        ValueFollows(valued, value, tail);
        EndersFollow(values[0].kind);
        OptionalRuns(key, values, states, FlowMappingValue, marks, false, false, FLOW_KEY_ENDERS);
        FlowValueRuns(e, tail, states, marks);
        BeginsJoin(StepOptional(NodeTokens(key) + values, FlowMappingValue, states, marks, false, false,
          FLOW_KEY_ENDERS), NodeEvents(key),
          Config(values, FlowMappingValue, states, marks), NodeEvents(value),
            Config(tail, FlowMappingKey, states, marks));
    }
  }

  lemma {:induction false} FlowValueRuns(e: Entry, tail: seq<Token>, states: seq<State>, marks: nat)
    requires FlowEntryOk(e) && e.Pair? && tail != []
            && (tail[0].kind == T.FlowEntry || tail[0].kind == T.FlowMappingEnd)
    ensures Reaches(Config(ValueTokens(e.valued, e.value) + tail, FlowMappingValue, states, marks),
            NodeEvents(e.value), Config(tail, FlowMappingKey, states, marks))
    decreases e, 3
  {
    hide *;
    FlowParts(e);
    FlowShape(e);
    EndersFollow(tail[0].kind);
    AllCanEnd();
    FollowsIs(tail);
    StepAtFlowValue(Config(ValueTokens(e.valued, e.value) + tail, FlowMappingValue, states, marks));
    ValueFollows(e.valued, e.value, tail);
    if e.valued {
      OptionalRuns(e.value, tail, states, FlowMappingKey, marks, false, false, FLOW_ENDERS);
    } else {
      MissingValue();
      DoneBegins(Scalar, Config(tail, FlowMappingKey, states, marks));
    }
    StepBegins(Config(ValueTokens(e.valued, e.value) + tail, FlowMappingValue, states, marks), NodeEvents(e.value),
      Config(tail, FlowMappingKey, states, marks));
  }

  lemma {:induction false} PairsFrom(es: seq<Entry>, trailing: bool, rest: seq<Token>, lower: seq<State>, back: State,
      marks: nat)
    requires es != [] && forall e | e in es :: FlowEntryOk(e)
    ensures Begins(StepFlowEntry(FlowTokens(es, trailing) + ([Tok(T.FlowMappingEnd)] + rest), lower + [back],
            marks + 1),
                   PairEvents(es) + [MappingEnd], Config(rest, back, lower, marks))
    decreases es, 1
  {
    hide Begins, Reaches, OneEntry, FlowRest, StepFlowEntry, FlowEntryOk, PairOf;
    var end, s := [Tok(T.FlowMappingEnd)] + rest, lower + [back];
    var tail := FlowRest(es[1..], trailing) + end;
    RestHead(es[1..], trailing, end);
    assert es[0] in es;
    PairRuns(es[0], tail, s, marks + 1);
    PairsNext(es[1..], trailing, rest, lower, back, marks);
    ThenRuns(StepFlowEntry(OneEntry(es[0]) + tail, s, marks + 1), PairOf(es[0]),
      Config(tail, FlowMappingKey, s, marks + 1),
      PairEvents(es[1..]), [MappingEnd], Config(rest, back, lower, marks));
    Shift(OneEntry(es[0]), FlowRest(es[1..], trailing), end);
  }

  lemma {:induction false} PairsNext(es: seq<Entry>, trailing: bool, rest: seq<Token>, lower: seq<State>, back: State,
      marks: nat)
    requires forall e | e in es :: FlowEntryOk(e)
    ensures Begins(Step(Config(FlowRest(es, trailing) + ([Tok(T.FlowMappingEnd)] + rest), FlowMappingKey,
            lower + [back], marks + 1)),
                   PairEvents(es) + [MappingEnd], Config(rest, back, lower, marks))
    decreases es, 2
  {
    hide *;
    var end := [Tok(T.FlowMappingEnd)] + rest;
    TokIs(T.FlowMappingEnd);
    TokIs(T.FlowEntry);
    RestHead(es, trailing, end);
    StepAtFlow(Config(FlowRest(es, trailing) + end, FlowMappingKey, lower + [back], marks + 1));
    if es == [] {
      NoFlowTokens(trailing, end);
      FlowEnds(rest, lower, back, marks);
    } else {
      PairsFrom(es, trailing, rest, lower, back, marks);
    }
  }

  // ----- documents -----

  lemma {:induction false} DirectivesSkipped(n: nat, rest: seq<Token>)
    requires rest != [] && rest[0].kind != T.Directive
    ensures Directives(Many(T.Directive, n) + rest) == rest
    ensures (Many(T.Directive, n) + rest)[0].kind == if n == 0 then rest[0].kind else T.Directive
  {
    if n == 0 {
      assert Many(T.Directive, n) + rest == rest;
    } else {
      DirectivesSkipped(n - 1, rest);
      assert (Many(T.Directive, n) + rest)[1..] == Many(T.Directive, n - 1) + rest;
    }
  }

  lemma {:induction false} EndsSkipped(n: nat, rest: seq<Token>)
    requires rest != [] && rest[0].kind != T.DocumentEnd
    ensures DocumentEnds(Many(T.DocumentEnd, n) + rest) == rest
    ensures (Many(T.DocumentEnd, n) + rest)[0].kind == if n == 0 then rest[0].kind else T.DocumentEnd
    ensures n > 0 ==> (Many(T.DocumentEnd, n) + rest)[1..] == Many(T.DocumentEnd, n - 1) + rest
    ensures Many(T.DocumentEnd, 0) + rest == rest
  {
    if n == 0 {
      assert Many(T.DocumentEnd, n) + rest == rest;
    } else {
      EndsSkipped(n - 1, rest);
      assert (Many(T.DocumentEnd, n) + rest)[1..] == Many(T.DocumentEnd, n - 1) + rest;
    }
  }

  /** What can stand behind a document and its end markers. */
  predicate NextDocument(rest: seq<Token>) {
    rest != [] && (rest[0].kind == T.Directive || rest[0].kind == T.DocumentStart || rest[0].kind == T.StreamEnd)
  }

  /** Between documents: perhaps end markers that are left over. */
  function Between(first: bool, left: nat, tokens: seq<Token>): Config
    requires first ==> left == 0
  {
    Config(Many(T.DocumentEnd, left) + tokens, if first then BeforeImplicitDocument else BeforeDocument, [], 0)
  }

  lemma StepAtRoot(c: Config)
    requires c.tokens != []
    ensures c.state == BlockNode ==> Step(c) == StepNode(c.tokens, c.states, c.marks, true, false)
    ensures c.state == DocumentContent ==>
      Step(c) == if c.tokens[0].kind in CONTENT_ENDERS then Return(Scalar, c.tokens, c.states, c.marks)
                 else StepNode(c.tokens, c.states, c.marks, true, false)
  {
    hide StepNode, Return;
  }

  lemma ContentEnders(k: T.Kind)
    ensures k == T.Directive || k == T.DocumentStart || k == T.StreamEnd || k == T.DocumentEnd ==>
      k in CONTENT_ENDERS && k in DELIMITERS
    ensures k in STARTERS ==> k !in CONTENT_ENDERS
  {
  }

  lemma EndsHead(n: nat, rest: seq<Token>)
    requires NextDocument(rest)
    ensures var ends := Many(T.DocumentEnd, n) + rest;
            ends != [] && (ends[0].kind == T.Directive || ends[0].kind == T.DocumentStart
              || ends[0].kind == T.StreamEnd || ends[0].kind == T.DocumentEnd)
  {
    hide Many;
    EndsSkipped(n, rest);
  }

  lemma RootOk(d: Document)
    requires DocumentOk(d)
    ensures if d.root.Empty? then d.explicit else NodeOk(d.root, true, false) && IsNode(d.root, true, false)
  {
    hide NodeOk, IsNode, IsOptional, Reads;
    OkIsNode(d.root, true, false);
  }

  lemma RootRuns(d: Document, rest: seq<Token>)
    requires DocumentOk(d) && NextDocument(rest)
    ensures var ends := Many(T.DocumentEnd, d.ends) + rest;
            Begins(Step(Config(NodeTokens(d.root) + ends, if d.explicit then DocumentContent else BlockNode,
              [AfterDocument], 0)),
                   NodeEvents(d.root), Config(ends, AfterDocument, [], 0))
  {
    hide *;
    var ends := Many(T.DocumentEnd, d.ends) + rest;
    RootOk(d);
    EndsHead(d.ends, rest);
    ContentEnders(ends[0].kind);
    FollowsIs(ends);
    assert [] + [AfterDocument] == [AfterDocument];
    if d.root.Empty? {
      MissingValue();
      assert [] + ends == ends;
      StepAtRoot(Config(ends, DocumentContent, [AfterDocument], 0));
      ReturnsTo(Scalar, ends, [], AfterDocument, 0);
    } else {
      NodeStarts(d.root, true, false);
      NodeRuns(d.root, ends, [], AfterDocument, 0, true, false);
      assert (NodeTokens(d.root) + ends)[0] == NodeTokens(d.root)[0];
      ContentEnders(NodeTokens(d.root)[0].kind);
      StepAtRoot(Config(NodeTokens(d.root) + ends, if d.explicit then DocumentContent else BlockNode, [AfterDocument],
        0));
    }
  }

  lemma StepAtDocument(c: Config, ts: seq<Token>)
    requires ts != [] && ts == (if c.state == BeforeImplicitDocument then c.tokens else DocumentEnds(c.tokens))
    requires c.state == BeforeImplicitDocument || c.state == BeforeDocument
    ensures c.state == BeforeImplicitDocument && ts[0].kind in STARTERS ==>
      Step(c) == Did(DocumentStart, Config(ts, BlockNode, c.states + [AfterDocument], c.marks))
    ensures (ts[0].kind == T.Directive || ts[0].kind == T.DocumentStart) && Directives(ts) != []
            && Directives(ts)[0].kind == T.DocumentStart ==>
      Step(c) == Did(DocumentStart, Config(Directives(ts)[1..], DocumentContent, c.states + [AfterDocument], c.marks))
  {
    hide Directives, DocumentEnds;
  }

  lemma BetweenIs(first: bool, left: nat, tokens: seq<Token>)
    requires first ==> left == 0
    ensures Between(first, left, tokens)
         == Config(Many(T.DocumentEnd, left) + tokens, if first then BeforeImplicitDocument else BeforeDocument, [], 0)
    ensures Many(T.DocumentEnd, 0) + tokens == tokens
  {
  }

  lemma DocumentHead(d: Document, rest: seq<Token>)
    requires IsDocument(d)
    ensures var ts := DocumentTokens(d) + rest;
            && ts != [] && ts[0].kind != T.DocumentEnd
            && if d.explicit then ts[0].kind == T.Directive || ts[0].kind == T.DocumentStart else ts[0].kind in STARTERS
  {
    hide NodeTokens, IsNode;
    if d.explicit {
      assert (DocumentTokens(d) + rest)[0] == if d.directives > 0 then Tok(T.Directive) else Tok(T.DocumentStart);
    } else {
      NodeStarts(d.root, true, false);
      assert (DocumentTokens(d) + rest)[0] == NodeTokens(d.root)[0];
    }
  }

  lemma StepAtStart(d: Document, rest: seq<Token>, first: bool, left: nat)
    requires IsDocument(d) && (!d.explicit ==> first) && (first ==> left == 0)
    ensures Step(Between(first, left, DocumentTokens(d) + rest))
         == Did(DocumentStart, Config(NodeTokens(d.root) + (Many(T.DocumentEnd, d.ends) + rest),
           if d.explicit then DocumentContent else BlockNode, [AfterDocument], 0))
  {
    hide *;
    var ts, inner := DocumentTokens(d) + rest, NodeTokens(d.root) + (Many(T.DocumentEnd, d.ends) + rest);
    var c := Between(first, left, ts);
    DocumentSplits(d, rest);
    DocumentHead(d, rest);
    EndsSkipped(left, ts);
    BetweenIs(first, left, ts);
    assert [] + [AfterDocument] == [AfterDocument];
    if d.explicit {
      TokIs(T.DocumentStart);
      DirectivesSkipped(d.directives, [Tok(T.DocumentStart)] + inner);
      assert ([Tok(T.DocumentStart)] + inner)[1..] == inner;
    }
    StepAtDocument(c, ts);
  }

  lemma DocumentSplits(d: Document, rest: seq<Token>)
    ensures var inner := NodeTokens(d.root) + (Many(T.DocumentEnd, d.ends) + rest);
            DocumentTokens(d) + rest == if d.explicit then Many(T.Directive,
              d.directives) + ([Tok(T.DocumentStart)] + inner) else inner
  {
    hide NodeTokens, Many;
  }

  lemma DocumentRuns(d: Document, rest: seq<Token>, first: bool, left: nat)
    requires DocumentOk(d) && NextDocument(rest) && (!d.explicit ==> first) && (first ==> left == 0)
    ensures Reaches(Between(first, left, DocumentTokens(d) + rest), DocumentEvents(d), Between(false,
            if d.ends == 0 then 0 else d.ends - 1, rest))
  {
    hide Begins, Reaches, NodeTokens, NodeEvents, Many, DocumentTokens, IsDocument, StepDocumentStart, StepContent;
    var ends := Many(T.DocumentEnd, d.ends) + rest;
    var c := Config(NodeTokens(d.root) + ends, if d.explicit then DocumentContent else BlockNode, [AfterDocument], 0);
    var after, next := Config(ends, AfterDocument, [], 0), Between(false, if d.ends == 0 then 0 else d.ends - 1, rest);
    StepAtStart(d, rest, first, left);
    RootRuns(d, rest);
    EndsSkipped(d.ends, rest);
    DoneBegins(DocumentEnd, next);
    StepBegins(after, [DocumentEnd], next);
    BeginsJoin(Step(c), NodeEvents(d.root), after, [DocumentEnd], next);
    CollectionBegins(DocumentStart, c, NodeEvents(d.root) + [DocumentEnd], next);
    StepBegins(Between(first, left, DocumentTokens(d) + rest), DocumentEvents(d), next);
  }

  lemma DocumentsHead(ds: seq<Document>)
    requires forall d | d in ds :: d.explicit
    ensures NextDocument(DocumentsTokens(ds) + [Tok(T.StreamEnd)])
  {
    hide NodeTokens;
    if ds != [] {
      assert ds[0] in ds;
      if ds[0].directives > 0 {
        assert (DocumentsTokens(ds) + [Tok(T.StreamEnd)])[0] == Tok(T.Directive);
      } else {
        assert (DocumentsTokens(ds) + [Tok(T.StreamEnd)])[0] == Tok(T.DocumentStart);
      }
    }
  }

  const FINISHED := Config([], Finished, [], 0)

  lemma {:induction false} DocumentsRun(ds: seq<Document>, first: bool, left: nat)
    requires (forall d | d in ds :: DocumentOk(d)) && (forall i | 0 <= i < |ds| && !ds[i].explicit :: first && i == 0)
            && (first ==> left == 0)
    ensures Reaches(Between(first, left, DocumentsTokens(ds) + [Tok(T.StreamEnd)]), DocumentsEvents(ds) + [StreamEnd],
            FINISHED)
  {
    hide Begins, Reaches, NodeTokens, NodeEvents, Many, DocumentTokens, DocumentOk, Step, DocumentEvents, NextDocument;
    if ds == [] {
      LastStep(first, left);
      assert DocumentsTokens(ds) + [Tok(T.StreamEnd)] == [Tok(T.StreamEnd)]
        && DocumentsEvents(ds) + [StreamEnd] == [StreamEnd];
    } else {
      var rest, next := DocumentsTokens(ds[1..]) + [Tok(T.StreamEnd)], if ds[0].ends == 0 then 0 else ds[0].ends - 1;
      forall d | d in ds[1..] ensures d.explicit {
        var i :| 0 <= i < |ds[1..]| && ds[1..][i] == d;
        assert ds[i + 1] == d;
      }
      DocumentsHead(ds[1..]);
      assert ds[0] in ds;
      DocumentRuns(ds[0], rest, first, left);
      DocumentsRun(ds[1..], false, next);
      Shift(DocumentTokens(ds[0]), DocumentsTokens(ds[1..]), [Tok(T.StreamEnd)]);
      Shift(DocumentEvents(ds[0]), DocumentsEvents(ds[1..]), [StreamEnd]);
      ReachesJoin(Between(first, left, DocumentTokens(ds[0]) + rest), DocumentEvents(ds[0]), Between(false, next,
        rest), DocumentsEvents(ds[1..]) + [StreamEnd], FINISHED);
    }
  }

  lemma LastStep(first: bool, left: nat)
    requires first ==> left == 0
    ensures Reaches(Between(first, left, [Tok(T.StreamEnd)]), [StreamEnd], FINISHED)
  {
    hide Begins, Many, Reaches;
    EndsSkipped(left, [Tok(T.StreamEnd)]);
    DoneBegins(StreamEnd, FINISHED);
    assert [Tok(T.StreamEnd)][1..] == [];
    StepBegins(Between(first, left, [Tok(T.StreamEnd)]), [StreamEnd], FINISHED);
  }

  lemma {:induction false} ReachesEnd(c: Config, es: seq<Event>, d: Config)
    requires Sound(c) && Reaches(c, es, d) && d.state == Finished
    ensures ParseFrom(c) == (true, es)
    decreases |es|
  {
    hide Sound;
    if es != [] {
      StepIsRight(c);
      ReachesEnd(Step(c).next, es[1..], d);
      assert es == [es[0]] + es[1..];
    }
  }

  /**
   * The parser reads its grammar: of a documented sentence it puts out exactly the events that the sentence means, if
   * every VALUE has its KEY and no flow sequence misses the token behind a pair without a key.
   */
  lemma SentencesParse(ds: seq<Document>)
    requires IsStream(ds) && ReadsStream(ds)
    ensures ParseFrom(Start(StreamTokens(ds))) == (true, StreamEvents(ds))
  {
    hide Begins, Reaches, Many, DocumentsTokens, DocumentsEvents, IsDocument, Reads, Sound, ParseFrom;
    forall d | d in ds ensures DocumentOk(d) {
      var i :| 0 <= i < |ds| && ds[i] == d;
    }
    var rest := DocumentsTokens(ds) + [Tok(T.StreamEnd)];
    DocumentsRun(ds, true, 0);
    assert Many(T.DocumentEnd, 0) + rest == rest by { NothingMany(rest); }
    assert StreamTokens(ds)[1..] == rest;
    var c := Between(true, 0, rest);
    FirstBegins(StreamStart, c, DocumentsEvents(ds) + [StreamEnd], FINISHED);
    StepBegins(Start(StreamTokens(ds)), StreamEvents(ds), FINISHED);
    ReachesEnd(Start(StreamTokens(ds)), StreamEvents(ds), FINISHED);
  }

  lemma NothingMany(rest: seq<Token>)
    ensures Many(T.DocumentEnd, 0) + rest == rest
  {
  }

  // ----- pairs without a key -----

  /** A flow sequence that shows a pair without a key goes on behind the token that follows the pair. */
  lemma KeylessPairLosesToken(ts: seq<Token>, states: seq<State>, marks: nat)
    requires |ts| >= 2 && (ts[0].kind == T.Value || ts[0].kind == T.FlowEntry || ts[0].kind == T.FlowSequenceEnd)
            && ts[1].kind != T.Value
    ensures Reaches(Config(ts, FlowPairKey, states, marks), [Scalar, Scalar, MappingEnd], Config(ts[1..],
            FlowSequenceEntry, states, marks))
  {
    hide *;
    var c, d := Config(ts[1..], FlowPairValue, states, marks), Config(ts[1..], FlowPairEnd, states, marks);
    StepAtPair(Config(ts, FlowPairKey, states, marks));
    StepAtPair(c);
    PairEnds(ts[1..], states, marks);
    FirstBegins(Scalar, d, [MappingEnd], Config(ts[1..], FlowSequenceEntry, states, marks));
    StepBegins(c, [Scalar] + [MappingEnd], Config(ts[1..], FlowSequenceEntry, states, marks));
    FirstBegins(Scalar, c, [Scalar] + [MappingEnd], Config(ts[1..], FlowSequenceEntry, states, marks));
    StepBegins(Config(ts, FlowPairKey, states, marks), [Scalar] + ([Scalar] + [MappingEnd]), Config(ts[1..],
      FlowSequenceEntry, states, marks));
    assert [Scalar] + ([Scalar] + [MappingEnd]) == [Scalar, Scalar, MappingEnd];
  }

  lemma {:induction false} ReachesFailure(c: Config, es: seq<Event>, d: Config)
    requires Sound(c) && Reaches(c, es, d) && Step(d) == Failed && d.state != Finished
    ensures ParseFrom(c) == (false, es)
    decreases |es|
  {
    hide Sound;
    if es != [] {
      StepIsRight(c);
      ReachesFailure(Step(c).next, es[1..], d);
      assert es == [es[0]] + es[1..];
    }
  }

  /** In front of another item or a value nothing more is accepted. */
  lemma NoSeparator(tokens: seq<Token>, states: seq<State>, marks: nat)
    requires tokens != [] && tokens[0].kind in STARTERS
    ensures Step(Config(tokens, FlowSequenceEntry, states, marks)) == Failed
  {
  }

  /** The sentence of a document with nothing but a flow sequence of one pair. */
  function PairSentence(e: Entry): seq<Document> {
    [Document(true, 0, FlowSequence([], [e], false), 0)]
  }

  /** The start of a flow sequence, and in it a pair without a key but with a value. */
  function InPair(v: seq<Token>): seq<Token> {
    [Tok(T.FlowSequenceStart)] + ([Tok(T.Key)] + ([Tok(T.Value)] + v))
  }

  lemma PairSentenceTokens(value: Node)
    ensures StreamTokens(PairSentence(Pair(Empty, true, value)))
         == [Tok(T.StreamStart)] + ([Tok(T.DocumentStart)] + InPair(NodeTokens(value) + [Tok(T.FlowSequenceEnd),
           Tok(T.StreamEnd)]))
  {
    hide NodeTokens;
    var e := Pair(Empty, true, value);
    var n := FlowSequence([], [e], false);
    SequenceTokens(e);
    assert DocumentsTokens(PairSentence(e)) == DocumentTokens(PairSentence(e)[0]) + DocumentsTokens([]);
    assert DocumentsTokens([]) == [];
    assert Many(T.Directive, 0) == [] && Many(T.DocumentEnd, 0) == [];
  }

  lemma SequenceTokens(e: Entry)
    requires e.Pair? && e.key.Empty? && e.valued
    ensures NodeTokens(FlowSequence([], [e], false)) == [Tok(T.FlowSequenceStart), Tok(T.Key),
            Tok(T.Value)] + (NodeTokens(e.value) + [Tok(T.FlowSequenceEnd)])
  {
    hide NodeTokens;
    MissingValue();
    FlowUnfolds([e], false);
    assert [e][1..] == [] && FlowRest([], false) == [];
    OneSequence([e]);
  }

  lemma OneSequence(es: seq<Entry>)
    ensures NodeTokens(FlowSequence([], es, false)) == [Tok(T.FlowSequenceStart)] + (FlowTokens(es,
            false) + [Tok(T.FlowSequenceEnd)])
  {
    hide FlowTokens;
    assert Toks([]) == [];
  }

  /**
   * The documented production KEY flow_node? (VALUE flow_node?)? of flow sequences is not accepted when the key is
   * missing and the value is there, whatever the value.
   */
  lemma KeylessValueIsRefused(value: Node)
    requires IsNode(value, false, false)
    ensures ParseFrom(Start(StreamTokens(PairSentence(Pair(Empty, true, value)))))
         == (false, [StreamStart, DocumentStart, SequenceStart, MappingStart, Scalar, Scalar, MappingEnd])
  {
    hide NodeTokens, IsNode, Sound, ParseFrom, Reaches, Begins, StreamTokens, FlowTokens;
    var v := NodeTokens(value) + [Tok(T.FlowSequenceEnd), Tok(T.StreamEnd)];
    NodeStarts(value, false, false);
    assert v[0] == NodeTokens(value)[0] && |v| >= 2;
    StarterIsNoEnder(v[0].kind);
    PairSentenceTokens(value);
    ToPair(v);
    KeylessPairLosesToken([Tok(T.Value)] + v, [AfterDocument], 1);
    assert ([Tok(T.Value)] + v)[1..] == v;
    ReachesJoin(Start(StreamTokens(PairSentence(Pair(Empty, true, value)))), [StreamStart, DocumentStart,
      SequenceStart, MappingStart],
      Config([Tok(T.Value)] + v, FlowPairKey, [AfterDocument], 1), [Scalar, Scalar, MappingEnd], Config(v,
        FlowSequenceEntry, [AfterDocument], 1));
    assert [StreamStart, DocumentStart, SequenceStart, MappingStart] + [Scalar, Scalar, MappingEnd]
        == [StreamStart, DocumentStart, SequenceStart, MappingStart, Scalar, Scalar, MappingEnd];
    NoSeparator(v, [AfterDocument], 1);
    ReachesFailure(Start(StreamTokens(PairSentence(Pair(Empty, true, value)))),
      [StreamStart, DocumentStart, SequenceStart, MappingStart, Scalar, Scalar, MappingEnd], Config(v,
        FlowSequenceEntry, [AfterDocument], 1));
  }

  lemma ToPair(v: seq<Token>)
    ensures Reaches(Start([Tok(T.StreamStart)] + ([Tok(T.DocumentStart)] + InPair(v))),
                    [StreamStart, DocumentStart, SequenceStart, MappingStart], Config([Tok(T.Value)] + v, FlowPairKey,
                      [AfterDocument], 1))
  {
    hide Begins, Reaches, StepContent, InPair;
    var b := InPair(v);
    var c := [Tok(T.DocumentStart)] + b;
    var d := Config([Tok(T.Value)] + v, FlowPairKey, [AfterDocument], 1);
    assert ([Tok(T.StreamStart)] + c)[1..] == c && c[1..] == b;
    ContentToPair(v);
    FirstBegins(DocumentStart, Config(b, DocumentContent, [AfterDocument], 0), [SequenceStart, MappingStart], d);
    assert [] + [AfterDocument] == [AfterDocument];
    StepBegins(Config(c, BeforeImplicitDocument, [], 0), [DocumentStart] + [SequenceStart, MappingStart], d);
    FirstBegins(StreamStart, Config(c, BeforeImplicitDocument, [], 0), [DocumentStart] + [SequenceStart, MappingStart],
      d);
    StepBegins(Start([Tok(T.StreamStart)] + c), [StreamStart] + ([DocumentStart] + [SequenceStart, MappingStart]), d);
    assert [StreamStart] + ([DocumentStart] + [SequenceStart, MappingStart]) == [StreamStart, DocumentStart,
      SequenceStart, MappingStart];
  }

  lemma SequenceFirst(ts: seq<Token>)
    ensures T.FlowSequenceStart in STARTERS && PropsOk([]) && Toks([]) + ts == ts
  {
  }

  lemma ContentToPair(v: seq<Token>)
    ensures Reaches(Config(InPair(v), DocumentContent, [AfterDocument], 0),
                    [SequenceStart, MappingStart], Config([Tok(T.Value)] + v, FlowPairKey, [AfterDocument], 1))
  {
    hide *;
    InPairIs(v);
    var a, b := InPair(v)[1..], InPair(v);
    var d := Config([Tok(T.Value)] + v, FlowPairKey, [AfterDocument], 1);
    TokIs(T.FlowSequenceStart);
    ContentEnders(T.FlowSequenceStart);
    SequenceFirst(b);
    OpenFlow([], a, [AfterDocument], 0, true, false);
    StepAtRoot(Config(b, DocumentContent, [AfterDocument], 0));
    FirstToPair(v);
    FirstBegins(SequenceStart, Config(b, FlowSequenceFirst, [AfterDocument], 0), [MappingStart], d);
    StepBegins(Config(b, DocumentContent, [AfterDocument], 0), [SequenceStart] + [MappingStart], d);
    assert [SequenceStart] + [MappingStart] == [SequenceStart, MappingStart];
  }

  lemma FirstToPair(v: seq<Token>)
    ensures Reaches(Config(InPair(v), FlowSequenceFirst, [AfterDocument], 0), [MappingStart],
            Config([Tok(T.Value)] + v, FlowPairKey, [AfterDocument], 1))
  {
    hide *;
    var d := Config([Tok(T.Value)] + v, FlowPairKey, [AfterDocument], 1);
    InPairIs(v);
    TokIs(T.Key);
    StepAtFirst(Config(InPair(v), FlowSequenceFirst, [AfterDocument], 0));
    StepAtFlowEntry(InPair(v)[1..], [AfterDocument], 1);
    DoneBegins(MappingStart, d);
    StepBegins(Config(InPair(v), FlowSequenceFirst, [AfterDocument], 0), [MappingStart], d);
  }

  lemma InPairIs(v: seq<Token>)
    ensures var a := [Tok(T.Key)] + ([Tok(T.Value)] + v);
            && InPair(v) == [Tok(T.FlowSequenceStart)] + a && InPair(v)[1..] == a && a[1..] == [Tok(T.Value)] + v
  {
  }
}
