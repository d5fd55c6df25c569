/** The event parser of the YAML library as a function: a pushdown automaton from tokens to events. */
module YamlMachine {
  import opened YamlEvents
  import T = YamlTokens

  /** A token; `refused` if its text fails a check the automaton makes (an undefined tag handle, a bad directive). */
  datatype Token = Token(kind: T.Kind, refused: bool)

  /** The states the parser can be in; two states of the library that nothing enters are left out. */
  datatype State =
    | BeforeStream | BeforeImplicitDocument | BeforeDocument | DocumentContent | AfterDocument | Finished
    | BlockNode
    | BlockSequenceFirst | BlockSequenceEntry | IndentlessEntry
    | BlockMappingFirst | BlockMappingKey | BlockMappingValue
    | FlowSequenceFirst | FlowSequenceEntry | FlowPairKey | FlowPairValue | FlowPairEnd
    | FlowMappingFirst | FlowMappingKey | FlowMappingValue | FlowMappingEmpty

  // ----- what a state and a stack of states stand for -----

  function FramesOf(st: State): seq<Frame> {
    match st
    case AfterDocument => [InDocument(true)]
    case BlockSequenceFirst => [InSequence]
    case BlockSequenceEntry => [InSequence]
    case IndentlessEntry => [InSequence]
    case FlowSequenceFirst => [InSequence]
    case FlowSequenceEntry => [InSequence]
    case BlockMappingFirst => [InMapping(false)]
    case BlockMappingKey => [InMapping(false)]
    case FlowMappingFirst => [InMapping(false)]
    case FlowMappingKey => [InMapping(false)]
    case BlockMappingValue => [InMapping(true)]
    case FlowMappingValue => [InMapping(true)]
    case FlowMappingEmpty => [InMapping(true)]
    case FlowPairKey => [InSequence, InMapping(false)]
    case FlowPairValue => [InSequence, InMapping(true)]
    case FlowPairEnd => [InSequence, InMapping(false)]
    case _ => []
  }

  /** The start marks a state keeps on the mark stack. */
  function MarksOf(st: State): nat {
    match st
    case BlockSequenceEntry => 1
    case BlockMappingKey => 1
    case BlockMappingValue => 1
    case FlowSequenceEntry => 1
    case FlowPairKey => 1
    case FlowPairValue => 1
    case FlowPairEnd => 1
    case FlowMappingKey => 1
    case FlowMappingValue => 1
    case FlowMappingEmpty => 1
    case _ => 0
  }

  function StackFrames(states: seq<State>): seq<Frame> {
    if states == [] then [InStream] else StackFrames(states[..|states| - 1]) + FramesOf(states[|states| - 1])
  }

  function StackMarks(states: seq<State>): nat {
    if states == [] then 0 else StackMarks(states[..|states| - 1]) + MarksOf(states[|states| - 1])
  }

  predicate IsMappingState(st: State) {
    st == BlockMappingKey || st == BlockMappingValue
  }

  /** A state to return to. */
  predicate Stackable(st: State) {
    match st
    case AfterDocument => true
    case BlockSequenceEntry => true
    case IndentlessEntry => true
    case BlockMappingKey => true
    case BlockMappingValue => true
    case FlowSequenceEntry => true
    case FlowPairValue => true
    case FlowPairEnd => true
    case FlowMappingKey => true
    case FlowMappingValue => true
    case FlowMappingEmpty => true
    case _ => false
  }

  ghost predicate StackOk(states: seq<State>) {
    forall i | 0 <= i < |states| ::
      && Stackable(states[i])
      && (states[i] == AfterDocument <==> i == 0)
      && (states[i] == IndentlessEntry ==> i > 0 && IsMappingState(states[i - 1]))
  }

  predicate StateOk(st: State, states: seq<State>) {
    match st
    case BeforeStream => states == []
    case BeforeImplicitDocument => states == []
    case BeforeDocument => states == []
    case AfterDocument => states == []
    case Finished => states == []
    case DocumentContent => states == [AfterDocument]
    case BlockNode => states == [AfterDocument]
    case IndentlessEntry => states != [] && IsMappingState(states[|states| - 1])
    case _ => states != []
  }

  /** Where the event stream is. */
  function PlaceOf(st: State, states: seq<State>): Place {
    match st
    case BeforeStream => Before
    case Finished => After
    case BeforeImplicitDocument => Open([InStream])
    case BeforeDocument => Open([InStream])
    case DocumentContent => Open([InStream, InDocument(false)])
    case BlockNode => Open([InStream, InDocument(false)])
    case _ => Open(StackFrames(states) + FramesOf(st))
  }

  /** How many events can come before a token is consumed. */
  function Rank(st: State): nat {
    match st
    case BeforeImplicitDocument => 3
    case DocumentContent => 2
    case BlockNode => 2
    case AfterDocument => 1
    case IndentlessEntry => 2
    case BlockMappingValue => 1
    case FlowMappingValue => 1
    case FlowMappingEmpty => 1
    case FlowPairKey => 3
    case FlowPairValue => 2
    case FlowPairEnd => 1
    case _ => 0
  }

  // ----- the stacks, as values -----

  lemma Pushed(states: seq<State>, st: State)
    requires StackOk(states) && Stackable(st) && (st == AfterDocument <==> states == [])
    requires st == IndentlessEntry ==> states != [] && IsMappingState(states[|states| - 1])
    ensures StackOk(states + [st])
    ensures StackFrames(states + [st]) == StackFrames(states) + FramesOf(st)
    ensures StackMarks(states + [st]) == StackMarks(states) + MarksOf(st)
  {
    hide FramesOf, MarksOf, Stackable;
    assert (states + [st])[..|states|] == states;
    PushedOk(states, st);
  }

  lemma PushedOk(states: seq<State>, st: State)
    requires StackOk(states) && Stackable(st) && (st == AfterDocument <==> states == [])
    requires st == IndentlessEntry ==> states != [] && IsMappingState(states[|states| - 1])
    ensures StackOk(states + [st])
  {
    hide Stackable, IsMappingState;
  }

  lemma Popped(states: seq<State>)
    requires StackOk(states) && states != []
    ensures var lower, st := states[..|states| - 1], states[|states| - 1];
            && StackOk(lower) && StateOk(st, lower) && Stackable(st)
            && PlaceOf(st, lower) == Open(StackFrames(states))
            && StackMarks(states) == StackMarks(lower) + MarksOf(st)
  {
  }

  /** What parsing a node does: a finished node returns to the state on the stack, a collection stays on top of it. */
  predicate NodeDone(states: seq<State>, indentless: bool, e: Event, st: State, states': seq<State>)
    requires states != []
  {
    match e
    case Alias => states' == states[..|states| - 1] && st == states[|states| - 1]
    case Scalar => states' == states[..|states| - 1] && st == states[|states| - 1]
    case SequenceStart =>
      states' == states && (st == BlockSequenceFirst || st == FlowSequenceFirst
        || (indentless && st == IndentlessEntry))
    case MappingStart => states' == states && (st == BlockMappingFirst || st == FlowMappingFirst)
    case _ => false
  }

  /** A node in its frame. */
  lemma NodePlace(fs: seq<Frame>, states: seq<State>, indentless: bool, e: Event, st: State, states': seq<State>)
    requires StackOk(states) && states != [] && NodeDone(states, indentless, e, st, states')
    requires indentless ==> IsMappingState(states[|states| - 1])
    requires fs != [] && Top(fs).TakesNode() && StackFrames(states) == Below(fs) + [Top(fs).Filled()]
    ensures StackOk(states') && StateOk(st, states') && PlaceOf(st, states') == Next(Open(fs), e)
    ensures StackMarks(states') + MarksOf(st) == StackMarks(states)
  {
    Popped(states);
  }

  /** Closing the collection of a state returns to what is below. */
  lemma ClosePlace(states: seq<State>, st: State, e: Event)
    requires StackOk(states) && states != []
    requires (FramesOf(st) == [InSequence] && e == SequenceEnd)
            || (FramesOf(st) == [InMapping(false)] && e == MappingEnd)
    ensures StackOk(states[..|states| - 1]) && StateOk(states[|states| - 1], states[..|states| - 1])
    ensures PlaceOf(states[|states| - 1], states[..|states| - 1]) == Next(Open(StackFrames(states) + FramesOf(st)), e)
    ensures StackMarks(states[..|states| - 1]) + MarksOf(states[|states| - 1]) == StackMarks(states)
  {
    Popped(states);
    assert Below(StackFrames(states) + FramesOf(st)) == StackFrames(states);
  }

  // ----- one step, as a function -----

  /** The parser between two events; of the mark stack only the height matters. */
  datatype Config = Config(tokens: seq<Token>, state: State, states: seq<State>, marks: nat)

  datatype Outcome = Failed | Did(event: Event, next: Config)

  /** The kind of the first token, or a kind that no state looks for when the scanner has failed. */
  predicate Sees(tokens: seq<Token>, kind: T.Kind) {
    tokens != [] && tokens[0].kind == kind
  }

  datatype Props = BadProps | Props(tokens: seq<Token>, some: bool)

  /** An anchor and a tag, in either order; a tag with an unknown handle is refused. */
  function Properties(tokens: seq<Token>): Props {
    if !Sees(tokens, T.Anchor) && !Sees(tokens, T.Tag)
      then (if tokens == [] then BadProps else Props(tokens, false)) else
      var second := if Sees(tokens, T.Anchor) then T.Tag else T.Anchor;
      var n := if Sees(tokens[1..], second) then 2 else 1;
      if |tokens| == n || (exists i | 0 <= i < n :: tokens[i].kind == T.Tag && tokens[i].refused) then BadProps
      else Props(tokens[n..], true)
  }

  /** The innermost state goes on. */
  function Return(e: Event, tokens: seq<Token>, states: seq<State>, marks: nat): Outcome {
    if states == [] then Failed else Did(e, Config(tokens, states[|states| - 1], states[..|states| - 1], marks))
  }

  /** The content of a node behind its properties; it may be missing if there are some. */
  function StepBody(tokens: seq<Token>, some: bool, states: seq<State>, marks: nat, block: bool,
      indentless: bool): Outcome {
    if indentless && Sees(tokens, T.BlockEntry) then Did(SequenceStart, Config(tokens, IndentlessEntry, states, marks))
    else if Sees(tokens, T.Scalar) then Return(Scalar, tokens[1..], states, marks)
    else if Sees(tokens, T.FlowSequenceStart) then Did(SequenceStart, Config(tokens, FlowSequenceFirst, states, marks))
    else if Sees(tokens, T.FlowMappingStart) then Did(MappingStart, Config(tokens, FlowMappingFirst, states, marks))
    else if block && Sees(tokens, T.BlockSequenceStart)
      then Did(SequenceStart, Config(tokens, BlockSequenceFirst, states, marks))
    else if block && Sees(tokens, T.BlockMappingStart)
      then Did(MappingStart, Config(tokens, BlockMappingFirst, states, marks))
    else if some then Return(Scalar, tokens, states, marks)
    else Failed
  }

  /** yaml_parser_parse_node, with the state to return to on the stack. */
  function StepNode(tokens: seq<Token>, states: seq<State>, marks: nat, block: bool, indentless: bool): Outcome {
    if Sees(tokens, T.Alias) then Return(Alias, tokens[1..], states, marks) else
      var p := Properties(tokens);
      if p.BadProps? then Failed else StepBody(p.tokens, p.some, states, marks, block, indentless)
  }

  /** A node, if there is a token and it is none of those that show the node to be empty. */
  function StepOptional(tokens: seq<Token>, back: State, states: seq<State>, marks: nat, block: bool, indentless: bool,
                        enders: seq<T.Kind>): Outcome
  {
    if tokens == [] then Failed
    else if tokens[0].kind in enders then Did(Scalar, Config(tokens, back, states, marks))
    else StepNode(tokens, states + [back], marks, block, indentless)
  }

  const SEQUENCE_ENDERS := [T.BlockEntry, T.BlockEnd]
  const INDENTLESS_ENDERS := [T.BlockEntry, T.Key, T.Value, T.BlockEnd]
  const MAPPING_ENDERS := [T.Key, T.Value, T.BlockEnd]
  const PAIR_ENDERS := [T.FlowEntry, T.FlowSequenceEnd]
  const PAIR_KEY_ENDERS := [T.Value, T.FlowEntry, T.FlowSequenceEnd]
  const FLOW_ENDERS := [T.FlowEntry, T.FlowMappingEnd]
  const FLOW_KEY_ENDERS := [T.Value, T.FlowEntry, T.FlowMappingEnd]

  /** The token that begins a collection is skipped, and its mark kept. */
  function Opened(c: Config): Config {
    if c.tokens == [] then c else c.(tokens := c.tokens[1..], marks := c.marks + 1)
  }

  function StepBlockSequence(c: Config): Outcome {
    if Sees(c.tokens, T.BlockEntry) then StepOptional(c.tokens[1..], BlockSequenceEntry, c.states, c.marks, true,
      false, SEQUENCE_ENDERS)
    else if Sees(c.tokens, T.BlockEnd) && c.marks > 0 then Return(SequenceEnd, c.tokens[1..], c.states, c.marks - 1)
    else Failed
  }

  function StepIndentless(c: Config): Outcome {
    if Sees(c.tokens, T.BlockEntry) then StepOptional(c.tokens[1..], IndentlessEntry, c.states, c.marks, true, false,
      INDENTLESS_ENDERS)
    else if c.tokens == [] then Failed
    else Return(SequenceEnd, c.tokens, c.states, c.marks)
  }

  function StepBlockKey(c: Config): Outcome {
    if Sees(c.tokens, T.Key) then StepOptional(c.tokens[1..], BlockMappingValue, c.states, c.marks, true, true,
      MAPPING_ENDERS)
    else if Sees(c.tokens, T.BlockEnd) && c.marks > 0 then Return(MappingEnd, c.tokens[1..], c.states, c.marks - 1)
    else Failed
  }

  function StepBlockValue(c: Config): Outcome {
    if c.tokens == [] then Failed
    else if Sees(c.tokens, T.Value) then StepOptional(c.tokens[1..], BlockMappingKey, c.states, c.marks, true, true,
      MAPPING_ENDERS)
    else Did(Scalar, c.(state := BlockMappingKey))
  }

  /** What separates the entries of a flow collection: nothing before the first one, and commas. */
  function Separated(tokens: seq<Token>, first: bool, end: T.Kind): (ts: seq<Token>)
    ensures |ts| <= |tokens|
  {
    if first || Sees(tokens, end) then tokens else if Sees(tokens, T.FlowEntry) then tokens[1..] else []
  }

  function StepFlowSequence(c: Config, first: bool): Outcome {
    StepFlowItem(Separated(c.tokens, first, T.FlowSequenceEnd), c.states, c.marks)
  }

  /** An item of a flow sequence, or its end; a pair is a mapping of its own. */
  function StepFlowItem(tokens: seq<Token>, states: seq<State>, marks: nat): Outcome {
    if tokens == [] then Failed
    else if Sees(tokens, T.FlowSequenceEnd) && marks > 0 then Return(SequenceEnd, tokens[1..], states, marks - 1)
    else if Sees(tokens, T.Key) then Did(MappingStart, Config(tokens[1..], FlowPairKey, states, marks))
    else StepNode(tokens, states + [FlowSequenceEntry], marks, false, false)
  }

  /** Where the key is empty the token after it is skipped. */
  function StepPairKey(c: Config): Outcome {
    if c.tokens == [] then Failed
    else if c.tokens[0].kind in PAIR_KEY_ENDERS
      then Did(Scalar, Config(c.tokens[1..], FlowPairValue, c.states, c.marks))
    else StepNode(c.tokens, c.states + [FlowPairValue], c.marks, false, false)
  }

  function StepPairValue(c: Config): Outcome {
    if c.tokens == [] then Failed
    else if Sees(c.tokens, T.Value)
      then StepOptional(c.tokens[1..], FlowPairEnd, c.states, c.marks, false, false, PAIR_ENDERS)
    else Did(Scalar, c.(state := FlowPairEnd))
  }

  function StepPairEnd(c: Config): Outcome {
    if c.tokens == [] then Failed else Did(MappingEnd, c.(state := FlowSequenceEntry))
  }

  function StepFlowKey(c: Config, first: bool): Outcome {
    StepFlowEntry(Separated(c.tokens, first, T.FlowMappingEnd), c.states, c.marks)
  }

  /** An entry of a flow mapping, or its end. */
  function StepFlowEntry(tokens: seq<Token>, states: seq<State>, marks: nat): Outcome {
    if tokens == [] then Failed
    else if Sees(tokens, T.FlowMappingEnd) && marks > 0 then Return(MappingEnd, tokens[1..], states, marks - 1)
    else if Sees(tokens, T.Key)
      then StepOptional(tokens[1..], FlowMappingValue, states, marks, false, false, FLOW_KEY_ENDERS)
    else StepNode(tokens, states + [FlowMappingEmpty], marks, false, false)
  }

  function StepFlowValue(c: Config): Outcome {
    if c.tokens == [] then Failed
    else if Sees(c.tokens, T.Value)
      then StepOptional(c.tokens[1..], FlowMappingKey, c.states, c.marks, false, false, FLOW_ENDERS)
    else Did(Scalar, c.(state := FlowMappingKey))
  }

  function StepFlowNoValue(c: Config): Outcome {
    if c.tokens == [] then Failed else Did(Scalar, c.(state := FlowMappingKey))
  }

  function StepStreamStart(c: Config): Outcome {
    if Sees(c.tokens, T.StreamStart) then Did(StreamStart, c.(tokens := c.tokens[1..],
      state := BeforeImplicitDocument)) else Failed
  }

  /** The tokens behind directives; one that is refused stops everything. */
  function Directives(tokens: seq<Token>): (ts: seq<Token>)
    ensures |ts| <= |tokens|
  {
    if !Sees(tokens, T.Directive) then tokens else if tokens[0].refused then [] else Directives(tokens[1..])
  }

  function DocumentEnds(tokens: seq<Token>): (ts: seq<Token>)
    ensures |ts| <= |tokens|
  {
    if Sees(tokens, T.DocumentEnd) then DocumentEnds(tokens[1..]) else tokens
  }

  function StepDocumentStart(c: Config, implicit: bool): Outcome {
    var ts := if implicit then c.tokens else DocumentEnds(c.tokens);
    if ts == [] then Failed
    else if implicit && !Sees(ts, T.Directive) && !Sees(ts, T.DocumentStart) && !Sees(ts, T.StreamEnd) then
      Did(DocumentStart, Config(ts, BlockNode, c.states + [AfterDocument], c.marks))
    else if Sees(ts, T.StreamEnd) then Did(StreamEnd, Config(ts[1..], Finished, c.states, c.marks))
    else if Sees(Directives(ts), T.DocumentStart) then
      Did(DocumentStart, Config(Directives(ts)[1..], DocumentContent, c.states + [AfterDocument], c.marks))
    else Failed
  }

  const CONTENT_ENDERS := [T.Directive, T.DocumentStart, T.DocumentEnd, T.StreamEnd]

  function StepContent(c: Config, content: bool): Outcome {
    if c.tokens == [] then Failed
    else if content && c.tokens[0].kind in CONTENT_ENDERS then Return(Scalar, c.tokens, c.states, c.marks)
    else StepNode(c.tokens, c.states, c.marks, true, false)
  }

  function StepDocumentEnd(c: Config): Outcome {
    if c.tokens == [] then Failed
    else Did(DocumentEnd, c.(tokens := if Sees(c.tokens, T.DocumentEnd) then c.tokens[1..] else c.tokens,
      state := BeforeDocument))
  }

  /** yaml_parser_state_machine. */
  function Step(c: Config): Outcome {
    match c.state
    case BeforeStream => StepStreamStart(c)
    case BeforeImplicitDocument => StepDocumentStart(c, true)
    case BeforeDocument => StepDocumentStart(c, false)
    case DocumentContent => StepContent(c, true)
    case BlockNode => StepContent(c, false)
    case AfterDocument => StepDocumentEnd(c)
    case BlockSequenceFirst => StepBlockSequence(Opened(c))
    case BlockSequenceEntry => StepBlockSequence(c)
    case IndentlessEntry => StepIndentless(c)
    case BlockMappingFirst => StepBlockKey(Opened(c))
    case BlockMappingKey => StepBlockKey(c)
    case BlockMappingValue => StepBlockValue(c)
    case FlowSequenceFirst => StepFlowSequence(Opened(c), true)
    case FlowSequenceEntry => StepFlowSequence(c, false)
    case FlowPairKey => StepPairKey(c)
    case FlowPairValue => StepPairValue(c)
    case FlowPairEnd => StepPairEnd(c)
    case FlowMappingFirst => StepFlowKey(Opened(c), true)
    case FlowMappingKey => StepFlowKey(c, false)
    case FlowMappingValue => StepFlowValue(c)
    case FlowMappingEmpty => StepFlowNoValue(c)
    case Finished => Failed
  }

  // ----- what a step keeps -----

  ghost predicate Sound(c: Config) {
    StackOk(c.states) && StateOk(c.state, c.states) && c.marks == StackMarks(c.states) + MarksOf(c.state)
  }

  function Where(c: Config): Place {
    PlaceOf(c.state, c.states)
  }

  /** A step has led to the place behind its event, and no tokens have come up. */
  ghost predicate Leads(out: Outcome, place: Place, tokens: nat) {
    out.Did? ==> Sound(out.next) && Where(out.next) == Next(place, out.event) && |out.next.tokens| <= tokens
  }

  /** Fewer tokens are left, or as many, and fewer events can come before the next one is taken. */
  predicate Falls(out: Outcome, c: Config) {
    out.Did? ==>
      |out.next.tokens| < |c.tokens|
      || (|out.next.tokens| == |c.tokens| && Rank(out.next.state) < Rank(c.state))
  }

  /** What a node, or its content, has done with the stack and the tokens. */
  ghost predicate IsDone(out: Outcome, tokens: nat, states: seq<State>, marks: nat, indentless: bool)
    requires states != []
  {
    out.Did? ==> && NodeDone(states, indentless, out.event, out.next.state, out.next.states) && out.next.marks == marks
                 && |out.next.tokens| <= tokens
  }

  lemma BodyIsDone(tokens: seq<Token>, some: bool, states: seq<State>, marks: nat, block: bool, indentless: bool)
    requires states != []
    ensures var out := StepBody(tokens, some, states, marks, block, indentless);
            && IsDone(out, |tokens|, states, marks, indentless)
            && (out.Did? && !OpensCollection(out.event) && !some ==> |out.next.tokens| < |tokens|)
  {
  }

  lemma NodeIsDone(tokens: seq<Token>, states: seq<State>, marks: nat, block: bool, indentless: bool)
    requires states != []
    ensures var out := StepNode(tokens, states, marks, block, indentless);
            IsDone(out, |tokens|, states, marks, indentless)
              && (out.Did? && !OpensCollection(out.event) ==> |out.next.tokens| < |tokens|)
  {
    hide StepBody;
    var p := Properties(tokens);
    if p.Props? {
      BodyIsDone(p.tokens, p.some, states, marks, block, indentless);
    }
  }

  /** A node in a state whose frames it fills. */
  lemma NodeLeads(tokens: seq<Token>, lower: seq<State>, marks: nat, back: State, block: bool, indentless: bool,
      fs: seq<Frame>)
    requires StackOk(lower) && lower != [] && Stackable(back) && back != AfterDocument
    requires back == IndentlessEntry ==> IsMappingState(lower[|lower| - 1])
    requires indentless ==> IsMappingState(back)
    requires Fills(fs, FramesOf(back)) && marks == StackMarks(lower) + MarksOf(back)
    ensures Leads(StepNode(tokens, lower + [back], marks, block, indentless), Open(StackFrames(lower) + fs), |tokens|)
  {
    hide StackFrames, StackMarks, PlaceOf, Next, StackOk, StateOk, Stackable, FramesOf, MarksOf, StepNode, NodeDone;
    var out := StepNode(tokens, lower + [back], marks, block, indentless);
    NodeIsDone(tokens, lower + [back], marks, block, indentless);
    if out.Did? {
      Pushed(lower, back);
      FillsOn(StackFrames(lower), fs, FramesOf(back));
      NodePlace(StackFrames(lower) + fs, lower + [back], indentless, out.event, out.next.state, out.next.states);
    }
  }

  lemma EmptyLeads(tokens: seq<Token>, lower: seq<State>, marks: nat, next: State, fs: seq<Frame>)
    requires StackOk(lower) && StateOk(next, lower) && Fills(fs, FramesOf(next)) && next != AfterDocument
    requires marks == StackMarks(lower) + MarksOf(next)
    ensures Leads(Did(Scalar, Config(tokens, next, lower, marks)), Open(StackFrames(lower) + fs), |tokens|)
  {
    FillsOn(StackFrames(lower), fs, FramesOf(next));
  }

  lemma OptionalLeads(tokens: seq<Token>, lower: seq<State>, marks: nat, back: State, block: bool, indentless: bool,
      enders: seq<T.Kind>,
                      fs: seq<Frame>)
    requires StackOk(lower) && lower != [] && Stackable(back) && back != AfterDocument && StateOk(back, lower)
    requires back == IndentlessEntry ==> IsMappingState(lower[|lower| - 1])
    requires indentless ==> IsMappingState(back)
    requires Fills(fs, FramesOf(back)) && marks == StackMarks(lower) + MarksOf(back)
    ensures Leads(StepOptional(tokens, back, lower, marks, block, indentless, enders), Open(StackFrames(lower) + fs),
            |tokens|)
  {
    hide Leads, StackFrames, StackMarks, StackOk, StateOk, Stackable, FramesOf, MarksOf, StepNode, Fills, Next;
    NodeLeads(tokens, lower, marks, back, block, indentless, fs);
    EmptyLeads(tokens, lower, marks, back, fs);
    NothingLeads(Open(StackFrames(lower) + fs), |tokens|);
  }

  lemma NothingLeads(place: Place, tokens: nat)
    ensures Leads(Failed, place, tokens)
  {
  }

  /** Closing a collection: the state on the stack goes on. */
  lemma CloseLeads(tokens: seq<Token>, states: seq<State>, marks: nat, st: State, e: Event)
    requires StackOk(states) && states != [] && marks == StackMarks(states)
    requires (FramesOf(st) == [InSequence] && e == SequenceEnd)
            || (FramesOf(st) == [InMapping(false)] && e == MappingEnd)
    ensures Leads(Return(e, tokens, states, marks), Open(StackFrames(states) + FramesOf(st)), |tokens|)
  {
    hide StackFrames, PlaceOf, FramesOf, Next;
    ClosePlace(states, st, e);
  }

  /** A collection whose first token has been skipped is one that has been entered. */
  lemma OpenedSound(c: Config, entered: State)
    requires Sound(c) && c.tokens != []
    requires || (c.state == BlockSequenceFirst && entered == BlockSequenceEntry)
             || (c.state == BlockMappingFirst && entered == BlockMappingKey)
             || (c.state == FlowSequenceFirst && entered == FlowSequenceEntry)
             || (c.state == FlowMappingFirst && entered == FlowMappingKey)
    ensures Sound(Opened(c).(state := entered)) && Where(Opened(c).(state := entered)) == Where(c)
    ensures |Opened(c).tokens| < |c.tokens|
  {
    hide StackOk, StackFrames, StackMarks;
  }

  /** The step of a state has been right. */
  ghost predicate Right(out: Outcome, c: Config) {
    Leads(out, Where(c), |c.tokens|) && Falls(out, c)
  }

  lemma BlockSequenceRight(c: Config)
    requires Sound(c) && c.state == BlockSequenceEntry
    ensures Right(StepBlockSequence(c), c)
  {
    hide StackOk, StackFrames, StackMarks, Next, StepNode, StepOptional, Return;
    if c.tokens != [] {
      OptionalLeads(c.tokens[1..], c.states, c.marks, BlockSequenceEntry, true, false, SEQUENCE_ENDERS, [InSequence]);
      CloseLeads(c.tokens[1..], c.states, c.marks - 1, BlockSequenceEntry, SequenceEnd);
    }
  }

  lemma IndentlessRight(c: Config)
    requires Sound(c) && c.state == IndentlessEntry
    ensures Right(StepIndentless(c), c)
  {
    hide StackOk, StackFrames, StackMarks, Next, StepNode, StepOptional, Return;
    CloseLeads(c.tokens, c.states, c.marks, IndentlessEntry, SequenceEnd);
    ReturnFalls(c);
    if c.tokens != [] {
      OptionalLeads(c.tokens[1..], c.states, c.marks, IndentlessEntry, true, false, INDENTLESS_ENDERS, [InSequence]);
    }
  }

  /** An indentless sequence ends without taking a token, but in a mapping, which takes the next one. */
  lemma ReturnFalls(c: Config)
    requires Sound(c) && c.state == IndentlessEntry
    ensures Falls(Return(SequenceEnd, c.tokens, c.states, c.marks), c)
  {
    hide StackOk, StackFrames, StackMarks;
  }

  lemma BlockKeyRight(c: Config)
    requires Sound(c) && c.state == BlockMappingKey
    ensures Right(StepBlockKey(c), c)
  {
    hide StackOk, StackFrames, StackMarks, Next, StepNode, StepOptional, Return;
    if c.tokens != [] {
      OptionalLeads(c.tokens[1..], c.states, c.marks, BlockMappingValue, true, true, MAPPING_ENDERS,
        [InMapping(false)]);
      CloseLeads(c.tokens[1..], c.states, c.marks - 1, BlockMappingKey, MappingEnd);
    }
  }

  lemma BlockValueRight(c: Config)
    requires Sound(c) && c.state == BlockMappingValue
    ensures Right(StepBlockValue(c), c)
  {
    hide StackOk, StackFrames, StackMarks, Next, StepNode, StepOptional, Return;
    EmptyLeads(c.tokens, c.states, c.marks, BlockMappingKey, [InMapping(true)]);
    if c.tokens != [] {
      OptionalLeads(c.tokens[1..], c.states, c.marks, BlockMappingKey, true, true, MAPPING_ENDERS, [InMapping(true)]);
    }
  }

  lemma FlowSequenceRight(c: Config, first: bool)
    requires Sound(c) && c.state == FlowSequenceEntry
    ensures Leads(StepFlowSequence(c, first), Where(c), |c.tokens|)
    ensures StepFlowSequence(c, first).Did? && |StepFlowSequence(c, first).next.tokens| == |c.tokens| ==> first
    ensures Falls(StepFlowSequence(c, false), c)
  {
    hide StackOk, StackFrames, StackMarks, Next, StepNode, StepOptional, Return;
    assert Below(StackFrames(c.states) + [InSequence]) == StackFrames(c.states);
    ItemLeads(c, Separated(c.tokens, first, T.FlowSequenceEnd));
    ItemLeads(c, Separated(c.tokens, false, T.FlowSequenceEnd));
  }

  lemma ItemLeads(c: Config, ts: seq<Token>)
    requires Sound(c) && c.state == FlowSequenceEntry
    ensures ts != [] ==> Leads(Return(SequenceEnd, ts[1..], c.states, c.marks - 1), Where(c), |ts| - 1)
    ensures ts != [] ==> Leads(Did(MappingStart, Config(ts[1..], FlowPairKey, c.states, c.marks)), Where(c), |ts| - 1)
    ensures Leads(StepNode(ts, c.states + [FlowSequenceEntry], c.marks, false, false), Where(c), |ts|)
  {
    hide Leads, StackOk, StackFrames, StackMarks, Next, StepNode, StepOptional, Return;
    NodeLeads(ts, c.states, c.marks, FlowSequenceEntry, false, false, [InSequence]);
    if ts != [] {
      PairLeads(c, ts[1..]);
      CloseLeads(ts[1..], c.states, c.marks - 1, FlowSequenceEntry, SequenceEnd);
    }
  }

  lemma PairLeads(c: Config, ts: seq<Token>)
    requires Sound(c) && c.state == FlowSequenceEntry
    ensures Leads(Did(MappingStart, Config(ts, FlowPairKey, c.states, c.marks)), Where(c), |ts|)
  {
    hide StackOk, StackFrames, StackMarks, Next;
    PairOpens(StackFrames(c.states));
  }
  /** A node that takes no token opens a collection. */
  lemma NodeFalls(tokens: seq<Token>, states: seq<State>, marks: nat, block: bool)
    requires states != []
    ensures var out := StepNode(tokens, states, marks, block, false);
            out.Did? && |out.next.tokens| == |tokens| ==> Rank(out.next.state) == 0
  {
    hide StepNode;
    NodeIsDone(tokens, states, marks, block, false);
  }

  lemma PairKeyRight(c: Config)
    requires Sound(c) && c.state == FlowPairKey
    ensures Right(StepPairKey(c), c)
  {
    hide StackOk, StackFrames, StackMarks, Next, StepNode, StepOptional, Return;
    NodeLeads(c.tokens, c.states, c.marks, FlowPairValue, false, false, [InSequence, InMapping(false)]);
    NodeFalls(c.tokens, c.states + [FlowPairValue], c.marks, false);
    if c.tokens != [] {
      EmptyLeads(c.tokens[1..], c.states, c.marks, FlowPairValue, [InSequence, InMapping(false)]);
    }
  }

  lemma PairValueRight(c: Config)
    requires Sound(c) && c.state == FlowPairValue
    ensures Right(StepPairValue(c), c)
  {
    hide StackOk, StackFrames, StackMarks, Next, StepNode, StepOptional, Return;
    EmptyLeads(c.tokens, c.states, c.marks, FlowPairEnd, [InSequence, InMapping(true)]);
    if c.tokens != [] {
      OptionalLeads(c.tokens[1..], c.states, c.marks, FlowPairEnd, false, false, PAIR_ENDERS,
        [InSequence, InMapping(true)]);
    }
  }

  lemma PairEndRight(c: Config)
    requires Sound(c) && c.state == FlowPairEnd
    ensures Right(StepPairEnd(c), c)
  {
    hide StackOk, StackFrames, StackMarks;
    PairCloses(StackFrames(c.states));
  }

  lemma FlowKeyRight(c: Config, first: bool)
    requires Sound(c) && c.state == FlowMappingKey
    ensures Leads(StepFlowKey(c, first), Where(c), |c.tokens|)
    ensures StepFlowKey(c, first).Did? && |StepFlowKey(c, first).next.tokens| == |c.tokens| ==> first
    ensures Falls(StepFlowKey(c, false), c)
  {
    hide StackOk, StackFrames, StackMarks, Next, StepNode, StepOptional, Return;
    EntryLeads(c, Separated(c.tokens, first, T.FlowMappingEnd));
    EntryLeads(c, Separated(c.tokens, false, T.FlowMappingEnd));
  }

  lemma EntryLeads(c: Config, ts: seq<Token>)
    requires Sound(c) && c.state == FlowMappingKey
    ensures ts != [] ==> Leads(Return(MappingEnd, ts[1..], c.states, c.marks - 1), Where(c), |ts| - 1)
    ensures ts != [] ==> Leads(StepOptional(ts[1..], FlowMappingValue, c.states, c.marks, false, false,
            FLOW_KEY_ENDERS), Where(c), |ts| - 1)
    ensures Leads(StepNode(ts, c.states + [FlowMappingEmpty], c.marks, false, false), Where(c), |ts|)
  {
    hide Leads, StackOk, StackFrames, StackMarks, Next, StepNode, StepOptional, Return;
    NodeLeads(ts, c.states, c.marks, FlowMappingEmpty, false, false, [InMapping(false)]);
    if ts != [] {
      CloseLeads(ts[1..], c.states, c.marks - 1, FlowMappingKey, MappingEnd);
      OptionalLeads(ts[1..], c.states, c.marks, FlowMappingValue, false, false, FLOW_KEY_ENDERS, [InMapping(false)]);
    }
  }

  lemma FlowValueRight(c: Config)
    requires Sound(c) && (c.state == FlowMappingValue || c.state == FlowMappingEmpty)
    ensures Right(StepFlowValue(c), c) && Right(StepFlowNoValue(c), c)
  {
    hide StackOk, StackFrames, StackMarks, Next, StepNode, StepOptional, Return;
    EmptyLeads(c.tokens, c.states, c.marks, FlowMappingKey, [InMapping(true)]);
    if c.tokens != [] {
      OptionalLeads(c.tokens[1..], c.states, c.marks, FlowMappingKey, false, false, FLOW_ENDERS, [InMapping(true)]);
    }
  }

  lemma OneDocument()
    ensures StackOk([]) && StackMarks([]) == 0 && StackOk([AfterDocument]) && StackMarks([AfterDocument]) == 0
    ensures [] + [AfterDocument] == [AfterDocument]
  {
    assert [AfterDocument][..0] == [];
  }

  lemma DocumentLeads(c: Config, ts: seq<Token>, st: State)
    requires Sound(c) && (c.state == BeforeImplicitDocument || c.state == BeforeDocument)
    requires st == BlockNode || st == DocumentContent
    ensures Leads(Did(DocumentStart, Config(ts, st, c.states + [AfterDocument], c.marks)), Where(c), |ts|)
    ensures Leads(Did(StreamEnd, Config(ts, Finished, c.states, c.marks)), Where(c), |ts|)
  {
    hide StackOk, StackFrames, StackMarks;
    OneDocument();
    assert c.states == [] && c.marks == 0;
  }

  lemma DocumentStartRight(c: Config, implicit: bool)
    requires Sound(c) && c.state == (if implicit then BeforeImplicitDocument else BeforeDocument)
    ensures Right(StepDocumentStart(c, implicit), c)
  {
    hide Directives, DocumentEnds, Sound, Where, Next;
    var ts := if implicit then c.tokens else DocumentEnds(c.tokens);
    NothingLeads(Where(c), |c.tokens|);
    DocumentLeads(c, ts, BlockNode);
    if ts != [] {
      DocumentLeads(c, ts[1..], BlockNode);
    }
    if Directives(ts) != [] {
      DocumentLeads(c, Directives(ts)[1..], DocumentContent);
    }
  }

  lemma ContentRight(c: Config, content: bool)
    requires Sound(c) && c.state == (if content then DocumentContent else BlockNode)
    ensures Right(StepContent(c, content), c)
  {
    hide StepNode, NodeDone, Sound, Right;
    OneDocument();
    InDocumentStates(c);
    if StepContent(c, content).Did? {
      if content && c.tokens[0].kind in CONTENT_ENDERS {
        ContentPopped(c);
        ContentDone(c, StepContent(c, content));
      } else {
        NodeIsDone(c.tokens, c.states, c.marks, true, false);
        NodeFalls(c.tokens, c.states, c.marks, true);
        ContentDone(c, StepContent(c, content));
      }
    } else {
      NotRight(StepContent(c, content), c);
    }
  }

  lemma InDocumentStates(c: Config)
    requires Sound(c) && (c.state == DocumentContent || c.state == BlockNode)
    ensures c.states == [AfterDocument] && Rank(c.state) > 0
  {
    hide StackOk, StackMarks;
  }

  lemma ContentPopped(c: Config)
    requires c.states == [AfterDocument] && c.state == DocumentContent
    ensures var d := Return(Scalar, c.tokens, c.states, c.marks);
            d.Did? && NodeDone(c.states, false, d.event, d.next.state, d.next.states)
              && d.next.marks == c.marks && d.next.tokens == c.tokens && Rank(d.next.state) < Rank(c.state)
  {
  }

  lemma NotRight(out: Outcome, c: Config)
    requires !out.Did?
    ensures Right(out, c)
  {
    hide Sound, Next, Where;
  }

  lemma ContentDone(c: Config, out: Outcome)
    requires Sound(c) && (c.state == DocumentContent || c.state == BlockNode) && c.states != []
    requires out.Did? && NodeDone(c.states, false, out.event, out.next.state, out.next.states)
    requires out.next.marks == c.marks && |out.next.tokens| <= |c.tokens|
    requires |out.next.tokens| == |c.tokens| ==> Rank(out.next.state) < Rank(c.state)
    ensures Right(out, c)
  {
    hide NodeDone, StackOk, StateOk, StackMarks, PlaceOf, Next, Rank;
    ContentPlace(c, out.event, out.next.state, out.next.states);
  }

  /** The content of a document. */
  lemma ContentPlace(c: Config, e: Event, st: State, states': seq<State>)
    requires Sound(c) && (c.state == DocumentContent || c.state == BlockNode)
    requires c.states != [] && NodeDone(c.states, false, e, st, states')
    ensures StackOk(states') && StateOk(st, states') && PlaceOf(st, states') == Next(Where(c), e)
    ensures StackMarks(states') + MarksOf(st) == c.marks
  {
    hide NodeDone, Next;
    NodePlace([InStream, InDocument(false)], [AfterDocument], false, e, st, states');
  }

  lemma OutsideRight(c: Config)
    requires Sound(c) && (c.state == BeforeStream || c.state == AfterDocument)
    ensures Right(Step(c), c)
  {
  }

  lemma FirstRight(c: Config)
    requires Sound(c)
    requires c.state == BlockSequenceFirst || c.state == BlockMappingFirst || c.state == FlowSequenceFirst
            || c.state == FlowMappingFirst
    ensures Right(Step(c), c)
  {
    hide StepBlockSequence, StepBlockKey, StepFlowSequence, StepFlowKey, Where, Sound, Opened, Next;
    NothingOpened(c);
    if c.tokens != [] {
      var entered := match c.state
        case BlockSequenceFirst => BlockSequenceEntry
        case BlockMappingFirst => BlockMappingKey
        case FlowSequenceFirst => FlowSequenceEntry
        case _ => FlowMappingKey;
      OpenedSound(c, entered);
      var d := Opened(c).(state := entered);
      StateIsNotRead(Opened(c), entered);
      if entered == BlockSequenceEntry {
        BlockSequenceRight(d);
      } else if entered == BlockMappingKey {
        BlockKeyRight(d);
      } else if entered == FlowSequenceEntry {
        FlowSequenceRight(d, true);
      } else {
        FlowKeyRight(d, true);
      }
    }
  }

  lemma NothingOpened(c: Config)
    ensures c.tokens == [] ==>
      StepBlockSequence(Opened(c)) == StepBlockKey(Opened(c)) == StepFlowSequence(Opened(c), true)
        == StepFlowKey(Opened(c), true) == Failed
  {
  }

  lemma StateIsNotRead(c: Config, st: State)
    ensures StepBlockSequence(c.(state := st)) == StepBlockSequence(c)
            && StepBlockKey(c.(state := st)) == StepBlockKey(c)
    ensures StepFlowSequence(c.(state := st), true) == StepFlowSequence(c, true) && StepFlowKey(c.(state := st),
            true) == StepFlowKey(c, true)
  {
    hide StepOptional, StepNode, Return;
  }

  /** Every step is right: its event fits where the stream is, the stacks agree again, and there is progress. */
  lemma StepIsRight(c: Config)
    requires Sound(c) && c.state != Finished
    ensures var out := Step(c);
            out.Did? ==> && Sound(out.next) && Where(out.next) == Next(Where(c), out.event)
                         && (|out.next.tokens| < |c.tokens|
                           || (|out.next.tokens| == |c.tokens| && Rank(out.next.state) < Rank(c.state)))
  {
    hide Sound, Where, StepBlockSequence, StepIndentless, StepBlockKey, StepBlockValue, StepFlowSequence, StepPairKey,
      StepPairValue, StepPairEnd;
    hide StepFlowKey, StepFlowValue, StepFlowNoValue, StepDocumentStart, StepContent, StepDocumentEnd, StepStreamStart,
      Opened, Next;
    match c.state {
      case BeforeStream => OutsideRight(c);
      case AfterDocument => OutsideRight(c);
      case BeforeImplicitDocument => DocumentStartRight(c, true);
      case BeforeDocument => DocumentStartRight(c, false);
      case DocumentContent => ContentRight(c, true);
      case BlockNode => ContentRight(c, false);
      case BlockSequenceEntry => BlockSequenceRight(c);
      case IndentlessEntry => IndentlessRight(c);
      case BlockMappingKey => BlockKeyRight(c);
      case BlockMappingValue => BlockValueRight(c);
      case FlowSequenceEntry => FlowSequenceRight(c, false);
      case FlowPairKey => PairKeyRight(c);
      case FlowPairValue => PairValueRight(c);
      case FlowPairEnd => PairEndRight(c);
      case FlowMappingKey => FlowKeyRight(c, false);
      case FlowMappingValue => FlowValueRight(c);
      case FlowMappingEmpty => FlowValueRight(c);
      case _ => FirstRight(c);
    }
  }

  // ----- the whole run -----

  /** The events from a configuration to the end of the stream, or to an error. */
  function ParseFrom(c: Config): (bool, seq<Event>)
    requires Sound(c)
    decreases |c.tokens|, Rank(c.state)
  {
    if c.state == Finished then (true, []) else
      StepIsRight(c);
      var out := Step(c);
      if out.Failed? then (false, []) else
        var r := ParseFrom(out.next);
        (r.0, [out.event] + r.1)
  }

  /** From any tokens: the events fit where the stream is, and end it if there is no error. */
  lemma {:induction false} ParseIsRight(c: Config)
    requires Sound(c) && Where(c) != Wrong
    ensures Run(Where(c), ParseFrom(c).1) != Wrong
    ensures ParseFrom(c).0 ==> Run(Where(c), ParseFrom(c).1) == After
    decreases |c.tokens|, Rank(c.state)
  {
    hide Sound, Step, Next, Run, PlaceOf;
    NoEvents(Where(c));
    if c.state == Finished {
      FinishedIsAfter(c);
    } else {
      StepIsRight(c);
      var out := Step(c);
      if out.Did? {
        NeverWrong(out.next);
        ParseIsRight(out.next);
        RunAppend(Where(c), [out.event], ParseFrom(out.next).1);
        RunOne(Where(c), out.event);
      }
    }
  }

  lemma NeverWrong(c: Config)
    ensures Where(c) != Wrong
  {
  }

  lemma FinishedIsAfter(c: Config)
    requires c.state == Finished
    ensures Where(c) == After
  {
  }

  function Start(tokens: seq<Token>): (c: Config)
    ensures Sound(c) && Where(c) == Before && c.tokens == tokens
  {
    Config(tokens, BeforeStream, [], 0)
  }

  lemma PairOpens(fs: seq<Frame>)
    ensures Next(Open(fs + [InSequence]), MappingStart) == Open(fs + [InSequence, InMapping(false)])
  {
    assert Below(fs + [InSequence]) == fs;
  }

  lemma PairCloses(fs: seq<Frame>)
    ensures Next(Open(fs + [InSequence, InMapping(false)]), MappingEnd) == Open(fs + [InSequence])
  {
    assert Below(fs + [InSequence, InMapping(false)]) == fs + [InSequence];
  }
}
