/** Parser and emitter together: what one automaton puts out, the other accepts. */
module YamlPipe {
  import opened YamlEvents
  import M = YamlMachine
  import P = YamlParser
  import E = YamlEmitter

  /** What the text of event number n means to the emitter, as long as no check on it fails. */
  type Texts = nat -> (bool, bool, bool)

  function Items(events: seq<Event>, texts: Texts): (items: seq<E.Item>)
    ensures |items| == |events|
  {
    seq(|events|, i requires 0 <= i < |events| => E.Item(events[i], false, texts(i).0, texts(i).1, texts(i).2))
  }

  /**
   * Parsing any tokens and emitting the events: if the parser gets through, the emitter accepts every event, keeps
   * nothing back, and ends with all its stacks as they were.
   */
  method ParseAndEmit(tokens: seq<M.Token>, canonical: bool, bestIndent: int, texts: Texts)
    returns (parsed: bool, emitter: E.Emitter)
    ensures parsed == M.ParseFrom(M.Start(tokens)).0
    ensures parsed ==>
      && E.Events(emitter.taken) == M.ParseFrom(M.Start(tokens)).1
      && !emitter.error && Balanced(E.Events(emitter.taken)) && emitter.queue == []
      && emitter.states == [] && emitter.indents == [] && emitter.indent == -1 && emitter.flowLevel == 0
  {
    hide Balanced, Items, E.Events;
    var parser := new P.Parser(tokens);
    emitter := new E.Emitter(canonical, bestIndent);
    var events;
    parsed, events := parser.ParseAll();
    if parsed {
      var items := Items(events, texts);
      ItemsAreEvents(events, texts);
      var ok := emitter.EmitAll(items);
      assert ok;
    }
  }

  lemma ItemsAreEvents(events: seq<Event>, texts: Texts)
    ensures E.Events(Items(events, texts)) == events
    ensures forall it | it in Items(events, texts) :: !it.refused
  {
  }
}
