/** Exactly which sentences of its documented grammar the YAML event parser reads. */
module YamlRefused {
  import opened YamlEvents
  import opened YamlMachine
  import opened YamlGrammar
  import opened YamlSentences
  import opened YamlBalance
  import T = YamlTokens

  // ----- nodes -----

  /** A documented node with something in it that is not read: the run breaks off. */
  lemma {:induction false} NodeBreaks(n: Node, rest: seq<Token>, states: seq<State>, marks: nat, block: bool,
      indentless: bool)
    requires IsNode(n, block, indentless) && !Reads(n) && Follows(rest, indentless)
    ensures BreaksOff(StepNode(NodeTokens(n) + rest, states, marks, block, indentless))
    decreases n, 1
  {
    hide BreaksOff, Step, StepNode, ItemTokens, EntryTokens, FlowTokens, AreItems, ReadsItems, AreBlockEntries,
      ReadsEntries, AreFlowEntries, KeysStand, PropsOk, Follows;
    match n {
      case BlockSequence(props, items) => BlockSequenceBreaks(props, items, rest, states, marks, indentless);
      case Indentless(props, items) =>
        Shift(Toks(props), ItemTokens(items), rest);
        OpenIndentless(props, items, rest, states, marks, block);
        IndentlessBreak(items, rest, states, marks);
        OpensAndBreaks(SequenceStart, Config(ItemTokens(items) + rest, IndentlessEntry, states, marks));
      case BlockMapping(props, es) =>
        BlockEntriesBad(es);
        BlockMappingBreaks(props, es, rest, states, marks, indentless);
      case FlowSequence(props, es, trailing) =>
        FlowSequenceBreaks(props, es, trailing, rest, states, marks, block, indentless);
      case FlowMapping(props, es, trailing) =>
        FlowMappingBreaks(props, es, trailing, rest, states, marks, block, indentless);
    }
  }

  /** A collection breaks off behind its start, or in it. */
  lemma {:induction false} BlockSequenceBreaks(props: seq<T.Kind>, items: seq<Node>, rest: seq<Token>,
      states: seq<State>,
                                               marks: nat, indentless: bool)
    requires PropsOk(props) && AreItems(items) && !ReadsItems(items)
    ensures var ts := Toks(props) + ([Tok(T.BlockSequenceStart)] + (ItemTokens(items) + [Tok(T.BlockEnd)]));
            BreaksOff(StepNode(ts + rest, states, marks, true, indentless))
    decreases items, 1
  {
    hide *;
    var ts := [Tok(T.BlockSequenceStart)] + (ItemTokens(items) + ([Tok(T.BlockEnd)] + rest));
    CollectionTokens(props, Tok(T.BlockSequenceStart), ItemTokens(items), Tok(T.BlockEnd), rest);
    OpenBlock(props, ts[1..], states, marks, indentless);
    StepAtFirst(Config(ts, BlockSequenceFirst, states, marks));
    ItemsBreak(items, rest, states, marks + 1);
    OpensAndBreaks(SequenceStart, Config(ts, BlockSequenceFirst, states, marks));
  }

  lemma {:induction false} BlockMappingBreaks(props: seq<T.Kind>, es: seq<Entry>, rest: seq<Token>, states: seq<State>,
                                              marks: nat, indentless: bool)
    requires PropsOk(props) && AreBlockEntries(es) && exists e | e in es :: Bad(e)
    ensures var ts := Toks(props) + ([Tok(T.BlockMappingStart)] + (EntryTokens(es) + [Tok(T.BlockEnd)]));
            BreaksOff(StepNode(ts + rest, states, marks, true, indentless))
    decreases es, 2
  {
    hide *;
    var ts := [Tok(T.BlockMappingStart)] + (EntryTokens(es) + ([Tok(T.BlockEnd)] + rest));
    CollectionTokens(props, Tok(T.BlockMappingStart), EntryTokens(es), Tok(T.BlockEnd), rest);
    OpenBlockMapping(props, ts[1..], states, marks, indentless);
    StepAtFirst(Config(ts, BlockMappingFirst, states, marks));
    EntriesBreak(es, rest, states, marks + 1);
    OpensAndBreaks(MappingStart, Config(ts, BlockMappingFirst, states, marks));
  }

  lemma {:induction false} FlowSequenceBreaks(props: seq<T.Kind>, es: seq<Entry>, trailing: bool, rest: seq<Token>,
                                              states: seq<State>, marks: nat, block: bool, indentless: bool)
    requires PropsOk(props) && AreFlowEntries(es) && !(ReadsEntries(es) && KeysStand(es, trailing))
    ensures var ts := Toks(props)
            + ([Tok(T.FlowSequenceStart)] + (FlowTokens(es, trailing) + [Tok(T.FlowSequenceEnd)]));
            BreaksOff(StepNode(ts + rest, states, marks, block, indentless))
    decreases es, 2
  {
    hide *;
    var ts := [Tok(T.FlowSequenceStart)] + (FlowTokens(es, trailing) + ([Tok(T.FlowSequenceEnd)] + rest));
    CollectionTokens(props, Tok(T.FlowSequenceStart), FlowTokens(es, trailing), Tok(T.FlowSequenceEnd), rest);
    OpenFlow(props, ts[1..], states, marks, block, indentless);
    StepAtFirst(Config(ts, FlowSequenceFirst, states, marks));
    SequenceBreaks(es, trailing, rest, states, marks + 1);
    OpensAndBreaks(SequenceStart, Config(ts, FlowSequenceFirst, states, marks));
  }

  lemma {:induction false} FlowMappingBreaks(props: seq<T.Kind>, es: seq<Entry>, trailing: bool, rest: seq<Token>,
                                             states: seq<State>, marks: nat, block: bool, indentless: bool)
    requires PropsOk(props) && AreFlowEntries(es) && !ReadsEntries(es)
    ensures var ts := Toks(props) + ([Tok(T.FlowMappingStart)] + (FlowTokens(es, trailing) + [Tok(T.FlowMappingEnd)]));
            BreaksOff(StepNode(ts + rest, states, marks, block, indentless))
    decreases es, 2
  {
    hide *;
    var ts := [Tok(T.FlowMappingStart)] + (FlowTokens(es, trailing) + ([Tok(T.FlowMappingEnd)] + rest));
    CollectionTokens(props, Tok(T.FlowMappingStart), FlowTokens(es, trailing), Tok(T.FlowMappingEnd), rest);
    OpenFlowMapping(props, ts[1..], states, marks, block, indentless);
    StepAtFirst(Config(ts, FlowMappingFirst, states, marks));
    PairsBreak(es, trailing, rest, states, marks + 1);
    OpensAndBreaks(MappingStart, Config(ts, FlowMappingFirst, states, marks));
  }

  lemma {:induction false} OptionalBreaks(n: Node, rest: seq<Token>, back: State, states: seq<State>, marks: nat,
      block: bool,
                                          indentless: bool, enders: seq<T.Kind>)
    requires IsOptional(n, block, indentless) && !Reads(n) && Follows(rest, indentless) && CanEnd(enders, indentless)
    ensures BreaksOff(StepOptional(NodeTokens(n) + rest, back, states, marks, block, indentless, enders))
    decreases n, 2
  {
    hide BreaksOff, StepNode, IsNode, Reads, Follows;
    OkIsNode(n, block, indentless);
    NodeStarts(n, block, indentless);
    assert (NodeTokens(n) + rest)[0] == NodeTokens(n)[0];
    NodeBreaks(n, rest, states + [back], marks, block, indentless);
  }

  // ----- block sequences -----

  lemma SplitItems(items: seq<Node>)
    requires AreItems(items) && !ReadsItems(items)
    ensures items != [] && IsOptional(items[0], true, false) && AreItems(items[1..])
    ensures Reads(items[0]) ==> !ReadsItems(items[1..]) && OptionalOk(items[0], true, false)
  {
    hide IsOptional, Reads;
    if items != [] {
      assert items[0] in items;
    }
  }

  lemma {:induction false} ItemsBreak(items: seq<Node>, rest: seq<Token>, states: seq<State>, marks: nat)
    requires AreItems(items) && !ReadsItems(items) && marks > 0
    ensures BreaksOff(Step(Config(ItemTokens(items) + ([Tok(T.BlockEnd)] + rest), BlockSequenceEntry, states, marks)))
    decreases items, 0
  {
    hide *;
    SplitItems(items);
    TokIs(T.BlockEnd);
    TokIs(T.BlockEntry);
    var n, tail := items[0], [Tok(T.BlockEnd)] + rest;
    var others := ItemTokens(items[1..]) + tail;
    var c := Config([Tok(T.BlockEntry)] + (NodeTokens(n) + others), BlockSequenceEntry, states, marks);
    ItemsHead(items, tail);
    ItemsHead(items[1..], tail);
    if Reads(n) {
      BlockItemRuns(n, others, states, marks);
      ItemsBreak(items[1..], rest, states, marks);
      ThenBreaks(Step(c), NodeEvents(n), Config(others, BlockSequenceEntry, states, marks));
    } else {
      AllCanEnd();
      EndersFollow(others[0].kind);
      FollowsIs(others);
      assert c.tokens[1..] == NodeTokens(n) + others;
      StepAtBlockEntry(c);
      OptionalBreaks(n, others, BlockSequenceEntry, states, marks, true, false, SEQUENCE_ENDERS);
    }
  }

  lemma {:induction false} IndentlessBreak(items: seq<Node>, rest: seq<Token>, states: seq<State>, marks: nat)
    requires AreItems(items) && !ReadsItems(items) && Follows(rest, true)
    ensures BreaksOff(Step(Config(ItemTokens(items) + rest, IndentlessEntry, states, marks)))
    decreases items, 0
  {
    hide *;
    SplitItems(items);
    TokIs(T.BlockEntry);
    IndentlessFollows(rest);
    var n := items[0];
    var others := ItemTokens(items[1..]) + rest;
    var c := Config([Tok(T.BlockEntry)] + (NodeTokens(n) + others), IndentlessEntry, states, marks);
    ItemsHead(items, rest);
    ItemsHead(items[1..], rest);
    if Reads(n) {
      IndentlessItemRuns(n, others, states, marks);
      IndentlessBreak(items[1..], rest, states, marks);
      ThenBreaks(Step(c), NodeEvents(n), Config(others, IndentlessEntry, states, marks));
    } else {
      AllCanEnd();
      EndersFollow(others[0].kind);
      FollowsIs(others);
      assert c.tokens[1..] == NodeTokens(n) + others;
      StepAtIndentless(c);
      OptionalBreaks(n, others, IndentlessEntry, states, marks, true, false, INDENTLESS_ENDERS);
    }
  }

  // ----- block mappings -----

  /** An entry that is not read, or a VALUE without its KEY. */
  predicate Bad(e: Entry) {
    e.Unkeyed? || !ReadsEntry(e)
  }

  lemma BlockEntriesBad(es: seq<Entry>)
    requires !(ReadsEntries(es) && forall e | e in es :: !e.Unkeyed?)
    ensures exists e | e in es :: Bad(e)
  {
    hide ReadsEntry;
    if !ReadsEntries(es) {
      var e :| e in es && !ReadsEntry(e);
      assert Bad(e);
    } else {
      var e: Entry :| e in es && e.Unkeyed?;
      assert Bad(e);
    }
  }

  lemma SplitBlockEntries(es: seq<Entry>)
    requires AreBlockEntries(es) && exists e | e in es :: Bad(e)
    ensures es != [] && IsBlockEntry(es[0]) && AreBlockEntries(es[1..])
    ensures !es[0].Unkeyed? ==> es[0].Pair? && IsOptional(es[0].key, true, true) && IsOptional(es[0].value, true, true)
    ensures !es[0].Unkeyed? && Reads(es[0].key) && Reads(es[0].value) ==>
      BlockEntryOk(es[0]) && exists e | e in es[1..] :: Bad(e)
    ensures !es[0].Unkeyed? && !es[0].valued ==> Reads(es[0].value) && !(es[1..] != [] && es[1..][0].Unkeyed?)
  {
    hide IsOptional, Reads;
    var e :| e in es && Bad(e);
    assert es[0] in es;
    if !es[0].Unkeyed? {
      OkIsNode(es[0].value, true, true);
      if Reads(es[0].key) && Reads(es[0].value) {
        assert !Bad(es[0]) && e in es[1..];
      }
    }
  }

  lemma EntryStarts(e: Entry)
    ensures e.Pair? ==> OneEntry(e) != [] && OneEntry(e)[0] == Tok(T.Key)
    ensures e.Unkeyed? ==> OneEntry(e) != [] && OneEntry(e)[0] == Tok(T.Value)
  {
    hide NodeTokens;
    assert e.Unkeyed? ==> OneEntry(e) == ValueTokens(true, e.value);
  }

  lemma BlockTail(es: seq<Entry>, tail: seq<Token>)
    requires AreBlockEntries(es) && tail != [] && tail[0].kind == T.BlockEnd
    ensures var ts := EntryTokens(es) + tail;
            ts != [] && ts[0].kind == if es == [] then T.BlockEnd else if es[0].Unkeyed? then T.Value else T.Key
    ensures es != [] && es[0].Pair? ==>
      EntryTokens(es) + tail
      == [Tok(T.Key)] + (NodeTokens(es[0].key)
        + (ValueTokens(es[0].valued, es[0].value) + (EntryTokens(es[1..]) + tail)))
  {
    hide NodeTokens, IsOptional;
    if es != [] {
      assert es[0] in es;
      Shift(OneEntry(es[0]), EntryTokens(es[1..]), tail);
      EntryStarts(es[0]);
      if es[0].Pair? {
        var others := EntryTokens(es[1..]) + tail;
        Shift([Tok(T.Key)], NodeTokens(es[0].key) + ValueTokens(es[0].valued, es[0].value), others);
        Shift(NodeTokens(es[0].key), ValueTokens(es[0].valued, es[0].value), others);
      }
    }
  }

  lemma NoKey(tokens: seq<Token>, states: seq<State>, marks: nat)
    requires tokens != [] && tokens[0].kind == T.Value
    ensures BreaksOff(Step(Config(tokens, BlockMappingKey, states, marks)))
  {
  }

  lemma {:induction false} EntriesBreak(es: seq<Entry>, rest: seq<Token>, states: seq<State>, marks: nat)
    requires AreBlockEntries(es) && (exists e | e in es :: Bad(e)) && marks > 0
    ensures BreaksOff(Step(Config(EntryTokens(es) + ([Tok(T.BlockEnd)] + rest), BlockMappingKey, states, marks)))
    decreases es, 1
  {
    hide *;
    TokIs(T.BlockEnd);
    var tail := [Tok(T.BlockEnd)] + rest;
    SplitBlockEntries(es);
    BlockTail(es, tail);
    if es[0].Unkeyed? {
      NoKey(EntryTokens(es) + tail, states, marks);
    } else {
      var e, others := es[0], EntryTokens(es[1..]) + tail;
      var ts := [Tok(T.Key)] + (NodeTokens(e.key) + (ValueTokens(e.valued, e.value) + others));
      BlockTail(es[1..], tail);
      if Reads(e.key) && Reads(e.value) {
        BlockPairRuns(e, others, states, marks);
        EntriesBreak(es[1..], rest, states, marks);
        ThenBreaks(Step(Config(ts, BlockMappingKey, states, marks)), NodeEvents(e.key) + NodeEvents(e.value),
          Config(others, BlockMappingKey, states, marks));
      } else {
        BlockPairBreaks(e, others, states, marks);
      }
    }
  }

  lemma {:induction false} BlockPairBreaks(e: Entry, others: seq<Token>, states: seq<State>, marks: nat)
    requires e.Pair? && IsOptional(e.key, true, true) && IsOptional(e.value, true, true) && marks > 0
    requires !(Reads(e.key) && Reads(e.value)) && (!e.valued ==> Reads(e.value))
    requires others != []
            && (others[0].kind == T.Key || others[0].kind == T.BlockEnd || (e.valued && others[0].kind == T.Value))
    ensures var ts := [Tok(T.Key)] + (NodeTokens(e.key) + (ValueTokens(e.valued, e.value) + others));
            BreaksOff(Step(Config(ts, BlockMappingKey, states, marks)))
    decreases e, 1
  {
    hide *;
    TokIs(T.Key);
    AllCanEnd();
    OkIsNode(e.key, true, true);
    var values := ValueTokens(e.valued, e.value) + others;
    var ts := [Tok(T.Key)] + (NodeTokens(e.key) + values);
    var c, d := Config(ts, BlockMappingKey, states, marks), Config(values, BlockMappingValue, states, marks);
    assert ts[1..] == NodeTokens(e.key) + values;
    StepAtBlockKey(c);
    ValueHead(e.valued, e.value, others);
    FollowsIs(values);
    FollowsIs(others);
    EndersFollow(values[0].kind);
    if Reads(e.key) {
      OptionalRuns(e.key, values, states, BlockMappingValue, marks, true, true, MAPPING_ENDERS);
      StepAtBlockValue(d);
      OptionalBreaks(e.value, others, BlockMappingKey, states, marks, true, true, MAPPING_ENDERS);
      ThenBreaks(Step(c), NodeEvents(e.key), d);
    } else {
      OptionalBreaks(e.key, values, BlockMappingValue, states, marks, true, true, MAPPING_ENDERS);
    }
  }

  // ----- flow mappings -----

  lemma SplitFlowEntries(es: seq<Entry>)
    requires AreFlowEntries(es) && es != []
    ensures IsFlowEntry(es[0]) && AreFlowEntries(es[1..])
    ensures ReadsEntry(es[0]) ==> FlowEntryOk(es[0]) && (ReadsEntries(es) <==> ReadsEntries(es[1..]))
  {
    hide IsFlowEntry, ReadsEntry;
    assert es[0] in es;
    if ReadsEntry(es[0]) && ReadsEntries(es[1..]) {
      forall e | e in es ensures ReadsEntry(e) {
        assert e == es[0] || e in es[1..];
      }
    }
  }

  lemma FlowCases(e: Entry)
    requires IsFlowEntry(e)
    ensures e.Single? ==> IsNode(e.node, false, false) && (ReadsEntry(e) <==> Reads(e.node))
    ensures e.Pair? ==> IsOptional(e.key, false, false) && IsOptional(e.value, false, false)
    ensures e.Pair? ==> (ReadsEntry(e) <==> Reads(e.key) && Reads(e.value)) && (!e.valued ==> e.value.Empty?)
    ensures !e.Unkeyed?
  {
    hide IsOptional, IsNode, Reads;
  }

  lemma {:induction false} PairsBreak(es: seq<Entry>, trailing: bool, rest: seq<Token>, states: seq<State>, marks: nat)
    requires AreFlowEntries(es) && !ReadsEntries(es) && marks > 0
    ensures BreaksOff(StepFlowEntry(FlowTokens(es, trailing) + ([Tok(T.FlowMappingEnd)] + rest), states, marks))
    decreases es, 1
  {
    hide *;
    SomeEntries(es);
    SplitFlowEntries(es);
    FlowUnfolds(es, trailing);
    TokIs(T.FlowEntry);
    TokIs(T.FlowMappingEnd);
    var e, end := es[0], [Tok(T.FlowMappingEnd)] + rest;
    var tail := FlowRest(es[1..], trailing) + end;
    RestHead(es[1..], trailing, end);
    Shift(OneEntry(e), FlowRest(es[1..], trailing), end);
    if ReadsEntry(e) {
      var c := Config(tail, FlowMappingKey, states, marks);
      PairRuns(e, tail, states, marks);
      SomeEntries(es[1..]);
      StepAtFlow(c);
      PairsBreak(es[1..], trailing, rest, states, marks);
      ThenBreaks(StepFlowEntry(OneEntry(e) + tail, states, marks), PairOf(e), c);
    } else {
      PairBreaks(e, tail, states, marks);
    }
  }

  lemma SomeEntries(es: seq<Entry>)
    ensures !ReadsEntries(es) ==> es != []
  {
  }

  lemma {:induction false} PairBreaks(e: Entry, tail: seq<Token>, states: seq<State>, marks: nat)
    requires IsFlowEntry(e) && !ReadsEntry(e)
    requires tail != [] && (tail[0].kind == T.FlowEntry || tail[0].kind == T.FlowMappingEnd)
    ensures BreaksOff(StepFlowEntry(OneEntry(e) + tail, states, marks))
    decreases e, 4
  {
    hide *;
    FlowCases(e);
    FlowShape(e);
    EndersFollow(tail[0].kind);
    FollowsIs(tail);
    match e {
      case Single(n) =>
        NodeStarts(n, false, false);
        assert (NodeTokens(n) + tail)[0] == NodeTokens(n)[0];
        StepAtFlowEntry(NodeTokens(n) + tail, states, marks);
        NodeBreaks(n, tail, states + [FlowMappingEmpty], marks, false, false);
      case Pair(key, valued, value) =>
        var values := ValueTokens(valued, value) + tail;
        TokIs(T.Key);
        AllCanEnd();
        OkIsNode(key, false, false);
        OkIsNode(value, false, false);
        assert OneEntry(e) + tail == [Tok(T.Key)] + (NodeTokens(key) + values);
        StepAtFlowEntry([Tok(T.Key)] + (NodeTokens(key) + values), states, marks);
        assert ([Tok(T.Key)] + (NodeTokens(key) + values))[1..] == NodeTokens(key) + values;
        ValueFollows(valued, value, tail);
        EndersFollow(values[0].kind);
        if Reads(key) {
          var d := Config(values, FlowMappingValue, states, marks);
          OptionalRuns(key, values, states, FlowMappingValue, marks, false, false, FLOW_KEY_ENDERS);
          StepAtFlowValue(d);
          OptionalBreaks(value, tail, FlowMappingKey, states, marks, false, false, FLOW_ENDERS);
          ThenBreaks(StepFlowEntry(OneEntry(e) + tail, states, marks), NodeEvents(key), d);
        } else {
          OptionalBreaks(key, values, FlowMappingValue, states, marks, false, false, FLOW_KEY_ENDERS);
        }
    }
  }

  // ----- flow sequences -----

  /** A pair that loses a token it should not, with the entries es behind it. */
  predicate Misses(e: Entry, es: seq<Entry>, trailing: bool) {
    e.Pair? && e.key.Empty? && !(e.value.Empty? && (e.valued || (trailing && es == [])))
  }

  lemma SplitSequence(es: seq<Entry>, trailing: bool)
    requires es != []
    ensures KeysStand(es, trailing) <==> !Misses(es[0], es[1..], trailing) && KeysStand(es[1..], trailing)
  {
    if !Misses(es[0], es[1..], trailing) && KeysStand(es[1..], trailing) {
      forall i | 0 <= i < |es| && es[i].Pair? && es[i].key.Empty?
        ensures es[i].value.Empty? && (es[i].valued || (trailing && i == |es| - 1))
      {
        assert i > 0 ==> es[i] == es[1..][i - 1];
      }
    }
  }

  lemma SomeMiss(es: seq<Entry>, trailing: bool)
    ensures !ReadsEntries(es) || !KeysStand(es, trailing) ==> es != []
  {
  }

  lemma {:induction false} SequenceBreaks(es: seq<Entry>, trailing: bool, rest: seq<Token>, states: seq<State>,
      marks: nat)
    requires AreFlowEntries(es) && !(ReadsEntries(es) && KeysStand(es, trailing)) && marks > 0
    ensures BreaksOff(StepFlowItem(FlowTokens(es, trailing) + ([Tok(T.FlowSequenceEnd)] + rest), states, marks))
    decreases es, 1
  {
    hide *;
    SomeMiss(es, trailing);
    SplitFlowEntries(es);
    SplitSequence(es, trailing);
    FlowUnfolds(es, trailing);
    TokIs(T.FlowEntry);
    TokIs(T.FlowSequenceEnd);
    var e, end := es[0], [Tok(T.FlowSequenceEnd)] + rest;
    var tail := FlowRest(es[1..], trailing) + end;
    RestHead(es[1..], trailing, end);
    Shift(OneEntry(e), FlowRest(es[1..], trailing), end);
    if Misses(e, es[1..], trailing) {
      MissIsPair(e, es[1..], trailing);
      MissBreaks(e, es[1..], trailing, rest, states, marks);
    } else if ReadsEntry(e) {
      var c := Config(tail, FlowSequenceEntry, states, marks);
      SomeMiss(es[1..], trailing);
      NoMiss(e, es[1..], trailing);
      SeparatesIs(tail, e);
      ItemRuns(e, tail, states, marks);
      StepAtFlow(c);
      SequenceBreaks(es[1..], trailing, rest, states, marks);
      ThenBreaks(StepFlowItem(OneEntry(e) + tail, states, marks), FlowItem(e), c);
    } else {
      NoMiss(e, es[1..], trailing);
      ItemBreaks(e, tail, states, marks);
    }
  }

  lemma MissIsPair(e: Entry, es: seq<Entry>, trailing: bool)
    requires Misses(e, es, trailing)
    ensures e.Pair?
  {
  }

  lemma NoMiss(e: Entry, es: seq<Entry>, trailing: bool)
    requires !Misses(e, es, trailing)
    ensures e.Pair? && e.key.Empty? ==> e.value.Empty?
    ensures es != [] ==> !Swallows(e)
  {
  }

  lemma {:induction false} ItemBreaks(e: Entry, tail: seq<Token>, states: seq<State>, marks: nat)
    requires IsFlowEntry(e) && !ReadsEntry(e) && (e.Pair? && e.key.Empty? ==> e.value.Empty?)
    requires tail != [] && (tail[0].kind == T.FlowEntry || tail[0].kind == T.FlowSequenceEnd)
    ensures BreaksOff(StepFlowItem(OneEntry(e) + tail, states, marks))
    decreases e, 4
  {
    hide *;
    FlowCases(e);
    FlowShape(e);
    EndersFollow(tail[0].kind);
    FollowsIs(tail);
    match e {
      case Single(n) =>
        NodeStarts(n, false, false);
        assert (NodeTokens(n) + tail)[0] == NodeTokens(n)[0];
        StepAtFlowEntry(NodeTokens(n) + tail, states, marks);
        NodeBreaks(n, tail, states + [FlowSequenceEntry], marks, false, false);
      case Pair(key, valued, value) =>
        var values := ValueTokens(valued, value) + tail;
        var c := Config(NodeTokens(key) + values, FlowPairKey, states, marks);
        TokIs(T.Key);
        AllCanEnd();
        OkIsNode(key, false, false);
        OkIsNode(value, false, false);
        assert OneEntry(e) + tail == [Tok(T.Key)] + (NodeTokens(key) + values);
        StepAtFlowEntry([Tok(T.Key)] + (NodeTokens(key) + values), states, marks);
        assert ([Tok(T.Key)] + (NodeTokens(key) + values))[1..] == NodeTokens(key) + values;
        ValueFollows(valued, value, tail);
        NodeStarts(key, false, false);
        assert c.tokens[0] == NodeTokens(key)[0];
        StarterIsNoEnder(c.tokens[0].kind);
        StepAtPair(c);
        if Reads(key) {
          var d := Config(values, FlowPairValue, states, marks);
          NodeRuns(key, values, states, FlowPairValue, marks, false, false);
          StepAtPair(d);
          OptionalBreaks(value, tail, FlowPairEnd, states, marks, false, false, PAIR_ENDERS);
          ThenBreaks(Step(c), NodeEvents(key), d);
        } else {
          NodeBreaks(key, values, states + [FlowPairValue], marks, false, false);
        }
        OpensAndBreaks(MappingStart, c);
    }
  }

  /** Neither an entry nor the start of one is what can stand between entries. */
  lemma NoComma(tokens: seq<Token>, states: seq<State>, marks: nat)
    requires tokens != [] && (tokens[0].kind in STARTERS || tokens[0].kind == T.Key)
    ensures BreaksOff(Step(Config(tokens, FlowSequenceEntry, states, marks)))
  {
  }

  lemma EndIsLost(c: Config)
    requires c.state == FlowPairKey && c.tokens != [] && c.tokens[0].kind == T.FlowSequenceEnd
    ensures BreaksOff(Did(MappingStart, c))
  {
    hide Step;
    assert Reaches(c, [], c) && Stuck(c);
  }

  /** The token behind the missing key is skipped, and what stands behind it is no separator. */
  lemma MissBreaks(e: Entry, es: seq<Entry>, trailing: bool, rest: seq<Token>, states: seq<State>, marks: nat)
    requires e.Pair? && IsFlowEntry(e) && AreFlowEntries(es) && Misses(e, es, trailing)
    ensures BreaksOff(StepFlowItem(OneEntry(e) + (FlowRest(es, trailing) + ([Tok(T.FlowSequenceEnd)] + rest)), states,
            marks))
  {
    hide *;
    var end := [Tok(T.FlowSequenceEnd)] + rest;
    var tail := FlowRest(es, trailing) + end;
    var ts := ValueTokens(e.valued, e.value) + tail;
    var c, d := Config(ts, FlowPairKey, states, marks), Config(ts[1..], FlowSequenceEntry, states, marks);
    TokIs(T.Key);
    TokIs(T.FlowSequenceEnd);
    MissTokens(e, es, trailing, tail);
    StepAtFlowEntry(OneEntry(e) + tail, states, marks);
    MissHead(e, es, trailing, end);
    if ts[0].kind == T.FlowSequenceEnd {
      EndIsLost(c);
    } else {
      KeylessPairLosesToken(ts, states, marks);
      NoComma(ts[1..], states, marks);
      FirstBegins(MappingStart, c, [Scalar, Scalar, MappingEnd], d);
      ThenBreaks(Did(MappingStart, c), [MappingStart] + [Scalar, Scalar, MappingEnd], d);
    }
  }

  lemma MissTokens(e: Entry, es: seq<Entry>, trailing: bool, tail: seq<Token>)
    requires Misses(e, es, trailing)
    ensures OneEntry(e) + tail == [Tok(T.Key)] + (ValueTokens(e.valued, e.value) + tail)
    ensures (OneEntry(e) + tail)[1..] == ValueTokens(e.valued, e.value) + tail
  {
    hide NodeTokens, ValueTokens;
    MissingValue();
    FlowShape(e);
    assert [] + ValueTokens(e.valued, e.value) == ValueTokens(e.valued, e.value);
  }

  lemma MissHead(e: Entry, es: seq<Entry>, trailing: bool, end: seq<Token>)
    requires IsFlowEntry(e) && AreFlowEntries(es) && Misses(e, es, trailing) && end != []
            && end[0].kind == T.FlowSequenceEnd
    ensures var ts := ValueTokens(e.valued, e.value) + (FlowRest(es, trailing) + end);
            && ts != []
            && (ts[0].kind != T.FlowSequenceEnd ==>
              && |ts| >= 2 && (ts[0].kind == T.Value || ts[0].kind == T.FlowEntry)
              && (ts[1].kind in STARTERS || ts[1].kind == T.Key) && ts[1].kind != T.Value)
  {
    hide NodeTokens, FlowTokens, FlowRest, IsNode, OneEntry;
    var tail := FlowRest(es, trailing) + end;
    FlowCases(e);
    OkIsNode(e.value, false, false);
    RestHead(es, trailing, end);
    ValueHead(e.valued, e.value, tail);
    if e.valued {
      NodeStarts(e.value, false, false);
      assert (NodeTokens(e.value) + tail)[0] == NodeTokens(e.value)[0];
    } else if es != [] {
      SplitFlowEntries(es);
      FlowCases(es[0]);
      FlowHead(es, trailing, end);
    }
  }

  lemma FlowHead(es: seq<Entry>, trailing: bool, end: seq<Token>)
    requires es != [] && IsFlowEntry(es[0])
    ensures var ts := FlowTokens(es, trailing) + end;
            ts != [] && (ts[0].kind in STARTERS || ts[0].kind == T.Key) && ts[0].kind != T.Value
  {
    hide NodeTokens, FlowRest, IsNode;
    FlowCases(es[0]);
    FlowShape(es[0]);
    if es[0].Single? {
      NodeStarts(es[0].node, false, false);
      assert (FlowTokens(es, trailing) + end)[0] == NodeTokens(es[0].node)[0];
    }
  }

  // ----- streams -----

  lemma RootBreaks(d: Document, rest: seq<Token>)
    requires IsDocument(d) && !Reads(d.root) && NextDocument(rest)
    ensures var ends := Many(T.DocumentEnd, d.ends) + rest;
            BreaksOff(Step(Config(NodeTokens(d.root) + ends, if d.explicit then DocumentContent else BlockNode,
              [AfterDocument], 0)))
  {
    hide BreaksOff, Step, StepNode, NodeTokens, IsNode, Reads, Many, NextDocument;
    var ends := Many(T.DocumentEnd, d.ends) + rest;
    OkIsNode(d.root, true, false);
    EndsHead(d.ends, rest);
    ContentEnders(ends[0].kind);
    FollowsIs(ends);
    NodeStarts(d.root, true, false);
    assert (NodeTokens(d.root) + ends)[0] == NodeTokens(d.root)[0];
    ContentEnders(NodeTokens(d.root)[0].kind);
    StepAtRoot(Config(NodeTokens(d.root) + ends, if d.explicit then DocumentContent else BlockNode, [AfterDocument],
      0));
    NodeBreaks(d.root, ends, [AfterDocument], 0, true, false);
  }

  lemma {:induction false} DocumentsBreak(ds: seq<Document>, first: bool, left: nat)
    requires (forall d | d in ds :: IsDocument(d)) && (forall i | 0 <= i < |ds| && !ds[i].explicit :: first && i == 0)
            && (first ==> left == 0)
    requires !ReadsStream(ds)
    ensures Breaks(Between(first, left, DocumentsTokens(ds) + [Tok(T.StreamEnd)]))
  {
    hide BreaksOff, Breaks, Step, NodeTokens, DocumentTokens, IsDocument, Reads, Many, NextDocument, DocumentEvents,
      Between;
    var d := ds[0];
    assert d in ds;
    var rest, next := DocumentsTokens(ds[1..]) + [Tok(T.StreamEnd)], if d.ends == 0 then 0 else d.ends - 1;
    forall d | d in ds[1..] ensures d.explicit {
      var i :| 0 <= i < |ds[1..]| && ds[1..][i] == d;
      assert ds[i + 1] == d;
    }
    DocumentsHead(ds[1..]);
    Shift(DocumentTokens(d), DocumentsTokens(ds[1..]), [Tok(T.StreamEnd)]);
    var c := Between(first, left, DocumentTokens(d) + rest);
    if Reads(d.root) {
      DocumentRuns(d, rest, first, left);
      DocumentsBreak(ds[1..], false, next);
      ReachedBreaks(c, DocumentEvents(d), Between(false, next, rest));
    } else {
      StepAtStart(d, rest, first, left);
      RootBreaks(d, rest);
      OpensAndBreaks(DocumentStart, Step(c).next);
      BetweenIs(first, left, DocumentTokens(d) + rest);
      StepBreaks(c);
    }
  }

  lemma StreamBreaks(ds: seq<Document>)
    requires (forall d | d in ds :: IsDocument(d)) && (forall i | 0 <= i < |ds| && !ds[i].explicit :: i == 0)
            && !ReadsStream(ds)
    ensures Breaks(Start(StreamTokens(ds)))
  {
    hide BreaksOff, Breaks, DocumentsTokens, IsDocument, ReadsStream, Many;
    var rest := DocumentsTokens(ds) + [Tok(T.StreamEnd)];
    DocumentsBreak(ds, true, 0);
    BetweenIs(true, 0, rest);
    assert StreamTokens(ds)[1..] == rest;
    var c := Between(true, 0, rest);
    assert BreaksOff(Did(StreamStart, c)) by { DidBreaks(StreamStart, c); }
    StepBreaks(Start(StreamTokens(ds)));
  }

  lemma DidBreaks(e: Event, c: Config)
    requires Breaks(c)
    ensures BreaksOff(Did(e, c))
  {
    hide Breaks;
  }

  /**
   * Of the sentences of the documented grammar the parser reads exactly those in which every VALUE of a block mapping
   * has its KEY and every flow sequence can spare the token behind a pair without a key; of those it puts out exactly
   * the events that they mean, and all others it refuses.
   */
  lemma SentenceIsRead(ds: seq<Document>)
    requires IsStream(ds)
    ensures ParseFrom(Start(StreamTokens(ds))) == (true, StreamEvents(ds)) <==> ReadsStream(ds)
    ensures ParseFrom(Start(StreamTokens(ds))).0 <==> ReadsStream(ds)
  {
    hide ParseFrom, Sound, Reads, ReadsStream, IsDocument, StreamTokens, StreamEvents, Breaks, Balance, HeadStands;
    forall d | d in ds ensures IsDocument(d) {
      var i :| 0 <= i < |ds| && ds[i] == d;
    }
    if ReadsStream(ds) {
      SentencesParse(ds);
    } else {
      StreamBreaks(ds);
      StreamBalances(ds);
      BreakingFails(Start(StreamTokens(ds)));
    }
  }

  lemma BreakingFails(c: Config)
    requires Sound(c) && HeadStands(c) && Balance(c) <= 0 && Breaks(c)
    ensures !ParseFrom(c).0
  {
    hide ParseFrom, Sound, Balance, HeadStands, Reaches, Stuck;
    var es, d :| Reaches(c, es, d) && Stuck(d);
    BreaksFails(c, es, d);
  }

  /**
   * The stream of a block mapping whose first entry is a VALUE without a KEY, as `: a` is scanned, is not read any
   * further.
   */
  lemma KeylessEntryIsRefused(rest: seq<Token>)
    ensures ParseFrom(Start([Tok(T.StreamStart), Tok(T.BlockMappingStart), Tok(T.Value)] + rest))
         == (false, [StreamStart, DocumentStart, MappingStart])
  {
    hide ParseFrom, Sound;
    var ts := [Tok(T.StreamStart), Tok(T.BlockMappingStart), Tok(T.Value)] + rest;
    var a := Config(ts[1..], BeforeImplicitDocument, [], 0);
    var b, c := Config(ts[1..], BlockNode, [AfterDocument], 0), Config(ts[1..], BlockMappingFirst, [AfterDocument], 0);
    assert ts[1..][0] == Tok(T.BlockMappingStart);
    assert Step(Start(ts)) == Did(StreamStart, a);
    assert [] + [AfterDocument] == [AfterDocument];
    assert Step(a) == Did(DocumentStart, b);
    assert Step(b) == Did(MappingStart, c);
    assert ts[1..][1..][0] == Tok(T.Value) && Step(c) == Failed;
    assert Reaches(c, [], c) && Reaches(b, [MappingStart], c) && [DocumentStart, MappingStart][1..] == [MappingStart];
    assert Reaches(a, [DocumentStart, MappingStart], c);
    assert [StreamStart, DocumentStart, MappingStart][1..] == [DocumentStart, MappingStart];
    ReachesFailure(Start(ts), [StreamStart, DocumentStart, MappingStart], c);
  }

  lemma NeedsKeys(props: seq<T.Kind>, es: seq<Entry>, e: Entry)
    requires e in es && e.Unkeyed?
    ensures !Reads(BlockMapping(props, es))
  {
    hide ReadsEntries;
  }

  /** The sentence of `: a` is documented. */
  lemma KeylessEntryIsDocumented()
    ensures var ds := [Document(false, 0, BlockMapping([], [Unkeyed(Leaf([]))]), 0)];
            && IsStream(ds) && !ReadsStream(ds)
            && StreamTokens(ds) == [Tok(T.StreamStart), Tok(T.BlockMappingStart), Tok(T.Value)]
                                   + [Tok(T.Scalar), Tok(T.BlockEnd), Tok(T.StreamEnd)]
  {
    var e := Unkeyed(Leaf([]));
    var n := BlockMapping([], [e]);
    var ds := [Document(false, 0, n, 0)];
    assert NodeTokens(Leaf([])) == [Tok(T.Scalar)];
    assert OneEntry(e) == [Tok(T.Value), Tok(T.Scalar)];
    assert EntryTokens([e]) == OneEntry(e) + EntryTokens([]);
    assert NodeTokens(n) == [Tok(T.BlockMappingStart), Tok(T.Value), Tok(T.Scalar), Tok(T.BlockEnd)];
    assert DocumentsTokens(ds) == DocumentTokens(ds[0]) + DocumentsTokens([]);
    assert Many(T.DocumentEnd, 0) == [];
    assert e in n.entries && ds[0] in ds;
    NeedsKeys([], n.entries, e);
  }
}
