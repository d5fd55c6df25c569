/** The event parser of the YAML library as it runs: tokens, a stack of states and a stack of marks. */
module YamlParser {
  import opened YamlEvents
  import opened YamlMachine
  import T = YamlTokens

  class Parser {
    var tokens: seq<Token>
    var state: State
    var states: seq<State>
    var marks: seq<nat>
    var error: bool

    ghost function At(): Config
      reads `tokens, `state, `states, `marks
    {
      Config(tokens, state, states, |marks|)
    }

    ghost predicate Valid()
      reads `tokens, `state, `states, `marks
    {
      Sound(At())
    }

    constructor (tokens: seq<Token>)
      ensures Valid() && At() == Start(tokens) && !error
    {
      this.tokens, state, states, marks, error := tokens, BeforeStream, [], [], false;
    }

    /** The parser has done what the outcome says. */
    twostate predicate Has(ok: bool, e: Event, out: Outcome)
      reads this
    {
      (ok <==> out.Did?) && if ok then error == old(error) && out == Did(e, At()) else error
    }

    /** PEEK_TOKEN; the scanner may have failed. */
    method Peek() returns (ok: bool, kind: T.Kind)
      modifies `error
      ensures ok <==> tokens != []
      ensures if ok then kind == tokens[0].kind && error == old(error) else error
    {
      if tokens == [] {
        error := true;
        return false, T.StreamEnd;
      }
      return true, tokens[0].kind;
    }

    /** SKIP_TOKEN. */
    method Skip()
      requires tokens != []
      modifies `tokens
      ensures tokens == old(tokens)[1..]
    {
      tokens := tokens[1..];
    }

    /** POP of the state stack. */
    method PopState()
      requires states != []
      modifies `state, `states
      ensures state == old(states)[|old(states)| - 1] && states == old(states)[..|old(states)| - 1]
    {
      state, states := states[|states| - 1], states[..|states| - 1];
    }

    /** POP of the mark stack. */
    method PopMark()
      requires marks != []
      modifies `marks
      ensures marks == old(marks)[..|old(marks)| - 1]
    {
      marks := marks[..|marks| - 1];
    }

    method Fail(e: Event) returns (ok: bool, e': Event)
      modifies `error
      ensures !ok && error
    {
      error := true;
      return false, e;
    }

    /** The properties of a node: an anchor and a tag, in either order. */
    method ParseProperties() returns (ok: bool, some: bool)
      modifies `tokens, `error
      ensures var p := Properties(old(tokens));
              && (ok <==> p.Props?) && if ok then error == old(error) && p == Props(tokens, some) && tokens != []
                else error
    {
      var kind;
      some := false;
      ok, kind := Peek();
      if !ok || (kind != T.Anchor && kind != T.Tag) {
        return;
      }
      some := true;
      var first, tagRefused := kind, kind == T.Tag && tokens[0].refused;
      Skip();
      ok, kind := Peek();
      if !ok {
        return;
      }
      if kind == (if first == T.Anchor then T.Tag else T.Anchor) {
        tagRefused := tagRefused || (kind == T.Tag && tokens[0].refused);
        Skip();
        ok, kind := Peek();
        if !ok {
          return;
        }
      }
      if tagRefused {
        error, ok := true, false;
      }
    }

    /** The content of a node. */
    method ParseBody(some: bool, block: bool, indentless: bool) returns (ok: bool, e: Event)
      requires states != [] && tokens != []
      modifies `tokens, `state, `states, `error
      ensures Has(ok, e, old(StepBody(tokens, some, states, |marks|, block, indentless)))
    {
      var kind := tokens[0].kind;
      if indentless && kind == T.BlockEntry {
        state, e := IndentlessEntry, SequenceStart;
      } else if kind == T.Scalar {
        PopState();
        Skip();
        e := Scalar;
      } else if kind == T.FlowSequenceStart {
        state, e := FlowSequenceFirst, SequenceStart;
      } else if kind == T.FlowMappingStart {
        state, e := FlowMappingFirst, MappingStart;
      } else if block && kind == T.BlockSequenceStart {
        state, e := BlockSequenceFirst, SequenceStart;
      } else if block && kind == T.BlockMappingStart {
        state, e := BlockMappingFirst, MappingStart;
      } else if some {
        PopState();
        e := Scalar;
      } else {
        ok, e := Fail(Scalar);
        return;
      }
      ok := true;
    }

    /** yaml_parser_parse_node, after the state to return to has been pushed. */
    method ParseNode(block: bool, indentless: bool) returns (ok: bool, e: Event)
      requires states != []
      modifies `tokens, `state, `states, `error
      ensures Has(ok, e, old(StepNode(tokens, states, |marks|, block, indentless)))
    {
      hide Properties, StepBody;
      var kind, some;
      ok, kind := Peek();
      if !ok {
        NoProperties();
        return false, Scalar;
      }
      if kind == T.Alias {
        PopState();
        Skip();
        return true, Alias;
      }
      ok, some := ParseProperties();
      if !ok {
        return false, Scalar;
      }
      ok, e := ParseBody(some, block, indentless);
    }

    /** A node behind an indicator: it is empty if the next token is one of those that can follow. */
    method ParseOptional(back: State, block: bool, indentless: bool, enders: seq<T.Kind>) returns (ok: bool, e: Event)
      modifies `tokens, `state, `states, `error
      ensures Has(ok, e, old(StepOptional(tokens, back, states, |marks|, block, indentless, enders)))
    {
      hide StepNode;
      var kind;
      ok, kind := Peek();
      if !ok {
        return false, Scalar;
      }
      if kind in enders {
        ok, e := EmptyScalar(back);
      } else {
        states := states + [back];
        ok, e := ParseNode(block, indentless);
      }
    }

    /** yaml_parser_process_empty_scalar. */
    method EmptyScalar(next: State) returns (ok: bool, e: Event)
      modifies `state
      ensures ok && e == Scalar && state == next
    {
      state := next;
      return true, Scalar;
    }

    /** Closing a collection: the state on the stack goes on, and the mark is dropped. */
    method CloseCollection(event: Event) returns (ok: bool, e: Event)
      requires states != [] && marks != [] && tokens != []
      modifies `tokens, `state, `states, `marks
      ensures ok && old(Return(event, tokens[1..], states, |marks| - 1)) == Did(e, At())
    {
      PopState();
      PopMark();
      Skip();
      return true, event;
    }

    /** The first token of a collection is skipped, and its mark kept. */
    method OpenCollection() returns (ok: bool)
      modifies `tokens, `marks, `error
      ensures ok <==> old(tokens) != []
      ensures if ok then error == old(error) && At() == old(Opened(At())) && marks != [] else error && tokens == []
    {
      var kind;
      ok, kind := Peek();
      if ok {
        marks := marks + [|tokens|];
        Skip();
      }
    }

    /** yaml_parser_parse_block_sequence_entry. */
    method ParseBlockSequenceEntry(first: bool) returns (ok: bool, e: Event)
      requires Valid() && state == (if first then BlockSequenceFirst else BlockSequenceEntry)
      modifies this
      ensures Has(ok, e, Step(old(At())))
    {
      hide StackOk, StackMarks, StackFrames, StepOptional;
      if first {
        ok := OpenCollection();
        if !ok {
          return false, SequenceEnd;
        }
      }
      var kind;
      ok, kind := Peek();
      if !ok {
        return false, SequenceEnd;
      }
      if kind == T.BlockEntry {
        Skip();
        ok, e := ParseOptional(BlockSequenceEntry, true, false, SEQUENCE_ENDERS);
      } else if kind == T.BlockEnd {
        ok, e := CloseCollection(SequenceEnd);
      } else {
        PopMark();
        ok, e := Fail(SequenceEnd);
      }
    }

    /** yaml_parser_parse_indentless_sequence_entry. */
    method ParseIndentlessEntry() returns (ok: bool, e: Event)
      requires Valid() && state == IndentlessEntry
      modifies this
      ensures Has(ok, e, Step(old(At())))
    {
      hide StackOk, StackMarks, StackFrames, StepOptional;
      var kind;
      ok, kind := Peek();
      if !ok {
        return false, SequenceEnd;
      }
      if kind == T.BlockEntry {
        Skip();
        ok, e := ParseOptional(IndentlessEntry, true, false, INDENTLESS_ENDERS);
      } else {
        PopState();
        return true, SequenceEnd;
      }
    }

    /** yaml_parser_parse_block_mapping_key. */
    method ParseBlockMappingKey(first: bool) returns (ok: bool, e: Event)
      requires Valid() && state == (if first then BlockMappingFirst else BlockMappingKey)
      modifies this
      ensures Has(ok, e, Step(old(At())))
    {
      hide StackOk, StackMarks, StackFrames, StepOptional;
      if first {
        ok := OpenCollection();
        if !ok {
          return false, MappingEnd;
        }
      }
      var kind;
      ok, kind := Peek();
      if !ok {
        return false, MappingEnd;
      }
      if kind == T.Key {
        Skip();
        ok, e := ParseOptional(BlockMappingValue, true, true, MAPPING_ENDERS);
      } else if kind == T.BlockEnd {
        ok, e := CloseCollection(MappingEnd);
      } else {
        PopMark();
        ok, e := Fail(MappingEnd);
      }
    }

    /** yaml_parser_parse_block_mapping_value. */
    method ParseBlockMappingValue() returns (ok: bool, e: Event)
      requires Valid() && state == BlockMappingValue
      modifies this
      ensures Has(ok, e, Step(old(At())))
    {
      hide StackOk, StackMarks, StackFrames, StepOptional;
      var kind;
      ok, kind := Peek();
      if !ok {
        return false, Scalar;
      }
      if kind == T.Value {
        Skip();
        ok, e := ParseOptional(BlockMappingKey, true, true, MAPPING_ENDERS);
      } else {
        ok, e := EmptyScalar(BlockMappingKey);
      }
    }

    /** The comma in front of an entry of a flow collection that is not the first one. */
    method ParseSeparator(first: bool, end: T.Kind) returns (ok: bool, kind: T.Kind)
      requires marks != [] && end != T.FlowEntry
      modifies `tokens, `marks, `error
      ensures var ts := Separated(old(tokens), first, end);
              && (ok <==> ts != []) && if ok
                then tokens == ts && kind == ts[0].kind && marks == old(marks) && error == old(error) else error
    {
      ok, kind := Peek();
      if !ok || kind == end || first {
        return;
      }
      if kind != T.FlowEntry {
        PopMark();
        error := true;
        return false, kind;
      }
      Skip();
      ok, kind := Peek();
    }

    /** yaml_parser_parse_flow_sequence_entry; a pair in it is a mapping of its own. */
    method ParseFlowSequenceEntry(first: bool) returns (ok: bool, e: Event)
      requires Valid() && state == (if first then FlowSequenceFirst else FlowSequenceEntry)
      modifies this
      ensures Has(ok, e, Step(old(At())))
    {
      hide StackOk, StackMarks, StackFrames, StepNode, Separated;
      if first {
        ok := OpenCollection();
        if !ok {
          NothingSeparated(T.FlowSequenceEnd);
          return false, SequenceEnd;
        }
      }
      var kind;
      ok, kind := ParseSeparator(first, T.FlowSequenceEnd);
      if !ok {
        return false, SequenceEnd;
      }
      if kind == T.Key {
        state := FlowPairKey;
        Skip();
        return true, MappingStart;
      } else if kind != T.FlowSequenceEnd {
        states := states + [FlowSequenceEntry];
        ok, e := ParseNode(false, false);
      } else {
        ok, e := CloseCollection(SequenceEnd);
      }
    }

    /** yaml_parser_parse_flow_sequence_entry_mapping_key. */
    method ParseFlowPairKey() returns (ok: bool, e: Event)
      requires Valid() && state == FlowPairKey
      modifies this
      ensures Has(ok, e, Step(old(At())))
    {
      hide StackOk, StackMarks, StackFrames, StepNode;
      var kind;
      ok, kind := Peek();
      if !ok {
        return false, Scalar;
      }
      if kind != T.Value && kind != T.FlowEntry && kind != T.FlowSequenceEnd {
        states := states + [FlowPairValue];
        ok, e := ParseNode(false, false);
      } else {
        Skip();
        ok, e := EmptyScalar(FlowPairValue);
      }
    }

    /** yaml_parser_parse_flow_sequence_entry_mapping_value. */
    method ParseFlowPairValue() returns (ok: bool, e: Event)
      requires Valid() && state == FlowPairValue
      modifies this
      ensures Has(ok, e, Step(old(At())))
    {
      hide StackOk, StackMarks, StackFrames, StepOptional;
      var kind;
      ok, kind := Peek();
      if !ok {
        return false, Scalar;
      }
      if kind == T.Value {
        Skip();
        ok, e := ParseOptional(FlowPairEnd, false, false, PAIR_ENDERS);
      } else {
        ok, e := EmptyScalar(FlowPairEnd);
      }
    }

    /** yaml_parser_parse_flow_sequence_entry_mapping_end. */
    method ParseFlowPairEnd() returns (ok: bool, e: Event)
      requires Valid() && state == FlowPairEnd
      modifies this
      ensures Has(ok, e, Step(old(At())))
    {
      var kind;
      ok, kind := Peek();
      if !ok {
        return false, MappingEnd;
      }
      state := FlowSequenceEntry;
      return true, MappingEnd;
    }

    /** yaml_parser_parse_flow_mapping_key. */
    method ParseFlowMappingKey(first: bool) returns (ok: bool, e: Event)
      requires Valid() && state == (if first then FlowMappingFirst else FlowMappingKey)
      modifies this
      ensures Has(ok, e, Step(old(At())))
    {
      hide StackOk, StackMarks, StackFrames, StepNode, StepOptional, Separated;
      if first {
        ok := OpenCollection();
        if !ok {
          NothingSeparated(T.FlowMappingEnd);
          return false, MappingEnd;
        }
      }
      var kind;
      ok, kind := ParseSeparator(first, T.FlowMappingEnd);
      if !ok {
        return false, MappingEnd;
      }
      if kind == T.Key {
        Skip();
        ok, e := ParseOptional(FlowMappingValue, false, false, FLOW_KEY_ENDERS);
      } else if kind != T.FlowMappingEnd {
        states := states + [FlowMappingEmpty];
        ok, e := ParseNode(false, false);
      } else {
        ok, e := CloseCollection(MappingEnd);
      }
    }

    /** yaml_parser_parse_flow_mapping_value. */
    method ParseFlowMappingValue(empty: bool) returns (ok: bool, e: Event)
      requires Valid() && state == (if empty then FlowMappingEmpty else FlowMappingValue)
      modifies this
      ensures Has(ok, e, Step(old(At())))
    {
      hide StackOk, StackMarks, StackFrames, StepOptional;
      var kind;
      ok, kind := Peek();
      if !ok {
        return false, Scalar;
      }
      if !empty && kind == T.Value {
        Skip();
        ok, e := ParseOptional(FlowMappingKey, false, false, FLOW_ENDERS);
      } else {
        ok, e := EmptyScalar(FlowMappingKey);
      }
    }

    // ----- documents -----

    /** yaml_parser_parse_stream_start. */
    method ParseStreamStart() returns (ok: bool, e: Event)
      requires Valid() && state == BeforeStream
      modifies this
      ensures Has(ok, e, Step(old(At())))
    {
      var kind;
      ok, kind := Peek();
      if !ok {
        return false, StreamStart;
      }
      if kind != T.StreamStart {
        ok, e := Fail(StreamStart);
        return;
      }
      state := BeforeImplicitDocument;
      Skip();
      return true, StreamStart;
    }

    /** yaml_parser_process_directives. */
    method ProcessDirectives() returns (ok: bool)
      modifies `tokens, `error
      ensures ok <==> Directives(old(tokens)) != []
      ensures if ok then error == old(error) && tokens == Directives(old(tokens)) else error
    {
      while tokens != [] && tokens[0].kind == T.Directive
        invariant error == old(error) && Directives(tokens) == Directives(old(tokens))
        decreases |tokens|
      {
        if tokens[0].refused {
          error := true;
          return false;
        }
        Skip();
      }
      var kind;
      ok, kind := Peek();
    }

    /** Extra document end markers. */
    method SkipDocumentEnds() returns (ok: bool)
      modifies `tokens, `error
      ensures ok <==> DocumentEnds(old(tokens)) != []
      ensures if ok then error == old(error) && tokens == DocumentEnds(old(tokens)) else error
    {
      while tokens != [] && tokens[0].kind == T.DocumentEnd
        invariant error == old(error) && DocumentEnds(tokens) == DocumentEnds(old(tokens))
        decreases |tokens|
      {
        Skip();
      }
      var kind;
      ok, kind := Peek();
    }

    /** yaml_parser_parse_document_start. */
    method ParseDocumentStart(implicit: bool) returns (ok: bool, e: Event)
      requires Valid() && state == (if implicit then BeforeImplicitDocument else BeforeDocument)
      modifies this
      ensures Has(ok, e, Step(old(At())))
    {
      hide Directives, DocumentEnds, StackOk, StackMarks, StackFrames;
      var kind;
      if implicit {
        ok, kind := Peek();
      } else {
        ok := SkipDocumentEnds();
      }
      if !ok {
        return false, DocumentStart;
      }
      kind := tokens[0].kind;
      if implicit && kind != T.Directive && kind != T.DocumentStart && kind != T.StreamEnd {
        states, state := states + [AfterDocument], BlockNode;
        return true, DocumentStart;
      } else if kind != T.StreamEnd {
        ok := ProcessDirectives();
        if !ok {
          return false, DocumentStart;
        }
        if tokens[0].kind != T.DocumentStart {
          ok, e := Fail(DocumentStart);
          return;
        }
        states, state := states + [AfterDocument], DocumentContent;
        Skip();
        return true, DocumentStart;
      } else {
        state := Finished;
        Skip();
        return true, StreamEnd;
      }
    }

    /** yaml_parser_parse_document_content, and a block node at the top of a document. */
    method ParseDocumentNode(content: bool) returns (ok: bool, e: Event)
      requires Valid() && state == (if content then DocumentContent else BlockNode)
      modifies this
      ensures Has(ok, e, Step(old(At())))
    {
      hide StepNode, StackOk, StackMarks, StackFrames;
      var kind;
      ok, kind := Peek();
      if !ok {
        return false, Scalar;
      }
      if content && (kind == T.Directive || kind == T.DocumentStart || kind == T.DocumentEnd || kind == T.StreamEnd) {
        PopState();
        return true, Scalar;
      }
      ok, e := ParseNode(true, false);
    }

    /** yaml_parser_parse_document_end. */
    method ParseDocumentEnd() returns (ok: bool, e: Event)
      requires Valid() && state == AfterDocument
      modifies this
      ensures Has(ok, e, Step(old(At())))
    {
      var kind;
      ok, kind := Peek();
      if !ok {
        return false, DocumentEnd;
      }
      if kind == T.DocumentEnd {
        Skip();
      }
      state := BeforeDocument;
      return true, DocumentEnd;
    }

    // ----- the automaton -----

    /** yaml_parser_state_machine. */
    method StateMachine() returns (ok: bool, e: Event)
      requires Valid() && state != Finished
      modifies this
      ensures Has(ok, e, Step(old(At())))
    {
      hide Sound, Step;
      match state {
        case BeforeStream => ok, e := ParseStreamStart();
        case BeforeImplicitDocument => ok, e := ParseDocumentStart(true);
        case BeforeDocument => ok, e := ParseDocumentStart(false);
        case DocumentContent => ok, e := ParseDocumentNode(true);
        case BlockNode => ok, e := ParseDocumentNode(false);
        case AfterDocument => ok, e := ParseDocumentEnd();
        case BlockSequenceFirst => ok, e := ParseBlockSequenceEntry(true);
        case BlockSequenceEntry => ok, e := ParseBlockSequenceEntry(false);
        case IndentlessEntry => ok, e := ParseIndentlessEntry();
        case BlockMappingFirst => ok, e := ParseBlockMappingKey(true);
        case BlockMappingKey => ok, e := ParseBlockMappingKey(false);
        case BlockMappingValue => ok, e := ParseBlockMappingValue();
        case FlowSequenceFirst => ok, e := ParseFlowSequenceEntry(true);
        case FlowSequenceEntry => ok, e := ParseFlowSequenceEntry(false);
        case FlowPairKey => ok, e := ParseFlowPairKey();
        case FlowPairValue => ok, e := ParseFlowPairValue();
        case FlowPairEnd => ok, e := ParseFlowPairEnd();
        case FlowMappingFirst => ok, e := ParseFlowMappingKey(true);
        case FlowMappingKey => ok, e := ParseFlowMappingKey(false);
        case FlowMappingValue => ok, e := ParseFlowMappingValue(false);
        case FlowMappingEmpty => ok, e := ParseFlowMappingValue(true);
      }
    }

    /**
     * yaml_parser_parse until the end or an error. Whatever the tokens are, the events are the beginning of a balanced
     * stream, and a balanced stream if there was no error.
     */
    method ParseAll() returns (ok: bool, events: seq<Event>)
      requires Valid() && state == BeforeStream && !error
      modifies this
      ensures (ok, events) == ParseFrom(old(At()))
      ensures exists rest :: Balanced(events + rest)
      ensures ok ==> Balanced(events)
    {
      hide Sound, Step, Next, Run;
      ghost var c := At();
      assert Where(c) == Before;
      events, ok := [], true;
      assert [] + ParseFrom(c).1 == ParseFrom(c).1;
      while state != Finished
        invariant Valid() && !error && ok
        invariant ParseFrom(c) == (ParseFrom(At()).0, events + ParseFrom(At()).1)
        decreases |tokens|, Rank(state)
      {
        ghost var here := At();
        StepIsRight(here);
        var e;
        ok, e := StateMachine();
        if !ok {
          assert ParseFrom(here) == (false, []) && events + [] == events;
          break;
        }
        assert events + ([e] + ParseFrom(At()).1) == (events + [e]) + ParseFrom(At()).1;
        events := events + [e];
      }
      assert events + [] == events;
      ParseIsRight(c);
      RightIsPrefix(events);
    }
  }

  lemma NoProperties()
    ensures Properties([]) == BadProps
  {
  }

  lemma NothingSeparated(end: T.Kind)
    ensures forall first: bool :: Separated([], first, end) == []
  {
  }
}
