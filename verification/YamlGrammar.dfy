/** The productions that the YAML event parser documents, and what it makes of their sentences. */
module YamlGrammar {
  import opened YamlEvents
  import opened YamlMachine
  import T = YamlTokens

  // ----- sentences -----

  /** A node; a missing one is `Empty`, and `Bare` has properties but no content. */
  datatype Node =
    | Empty
    | Reference
    | Leaf(props: seq<T.Kind>)
    | Bare(props: seq<T.Kind>)
    | BlockSequence(props: seq<T.Kind>, items: seq<Node>)
    | Indentless(props: seq<T.Kind>, items: seq<Node>)
    | BlockMapping(props: seq<T.Kind>, entries: seq<Entry>)
    | FlowSequence(props: seq<T.Kind>, entries: seq<Entry>, trailing: bool)
    | FlowMapping(props: seq<T.Kind>, entries: seq<Entry>, trailing: bool)

  /** A node by itself, KEY node? (VALUE node?)?, or, in a block mapping, VALUE node? by itself. */
  datatype Entry = Single(node: Node) | Pair(key: Node, valued: bool, value: Node) | Unkeyed(value: Node)

  /** directive* DOCUMENT-START node? DOCUMENT-END*, or, in front, node DOCUMENT-END*. */
  datatype Document = Document(explicit: bool, directives: nat, root: Node, ends: nat)

  function Tok(k: T.Kind): Token {
    Token(k, false)
  }

  function Toks(ks: seq<T.Kind>): (ts: seq<Token>)
    ensures |ts| == |ks|
  {
    seq(|ks|, i requires 0 <= i < |ks| => Tok(ks[i]))
  }

  function NodeTokens(n: Node): seq<Token>
    decreases n, 1
  {
    match n
    case Empty => []
    case Reference => [Tok(T.Alias)]
    case Leaf(props) => Toks(props) + [Tok(T.Scalar)]
    case Bare(props) => Toks(props)
    case BlockSequence(props, items) => Toks(props)
      + ([Tok(T.BlockSequenceStart)] + (ItemTokens(items) + [Tok(T.BlockEnd)]))
    case Indentless(props, items) => Toks(props) + ItemTokens(items)
    case BlockMapping(props, es) => Toks(props) + ([Tok(T.BlockMappingStart)] + (EntryTokens(es) + [Tok(T.BlockEnd)]))
    case FlowSequence(props, es, trailing) =>
      Toks(props) + ([Tok(T.FlowSequenceStart)] + (FlowTokens(es, trailing) + [Tok(T.FlowSequenceEnd)]))
    case FlowMapping(props, es, trailing) =>
      Toks(props) + ([Tok(T.FlowMappingStart)] + (FlowTokens(es, trailing) + [Tok(T.FlowMappingEnd)]))
  }

  function ItemTokens(items: seq<Node>): seq<Token>
    decreases items, 0
  {
    if items == [] then [] else [Tok(T.BlockEntry)] + (NodeTokens(items[0]) + ItemTokens(items[1..]))
  }

  function OneEntry(e: Entry): seq<Token>
    decreases e, 0
  {
    match e
    case Single(n) => NodeTokens(n)
    case Pair(key, valued, value) => [Tok(T.Key)] + (NodeTokens(key) + ValueTokens(valued, value))
    case Unkeyed(value) => ValueTokens(true, value)
  }

  function ValueTokens(valued: bool, value: Node): seq<Token>
    decreases value, 2
  {
    if valued then [Tok(T.Value)] + NodeTokens(value) else []
  }

  function EntryTokens(es: seq<Entry>): seq<Token>
    decreases es, 0
  {
    if es == [] then [] else OneEntry(es[0]) + EntryTokens(es[1..])
  }

  /** Entries with commas between them, and perhaps one behind the last. */
  function FlowTokens(es: seq<Entry>, trailing: bool): seq<Token>
    decreases es, 0
  {
    if es == [] then [] else OneEntry(es[0]) + FlowRest(es[1..], trailing)
  }

  /** What stands behind an entry: the others, es, each behind a comma. */
  function FlowRest(es: seq<Entry>, trailing: bool): seq<Token>
    decreases es, 1
  {
    if es == [] then (if trailing then [Tok(T.FlowEntry)] else []) else [Tok(T.FlowEntry)] + FlowTokens(es, trailing)
  }

  // ----- what they mean -----

  function NodeEvents(n: Node): (es: seq<Event>)
    ensures es != []
    decreases n, 1
  {
    match n
    case Empty => [Scalar]
    case Reference => [Alias]
    case Leaf(_) => [Scalar]
    case Bare(_) => [Scalar]
    case BlockSequence(_, items) => [SequenceStart] + (ItemEvents(items) + [SequenceEnd])
    case Indentless(_, items) => [SequenceStart] + (ItemEvents(items) + [SequenceEnd])
    case BlockMapping(_, es) => [MappingStart] + (PairEvents(es) + [MappingEnd])
    case FlowSequence(_, es, _) => [SequenceStart] + (FlowEvents(es) + [SequenceEnd])
    case FlowMapping(_, es, _) => [MappingStart] + (PairEvents(es) + [MappingEnd])
  }

  function ItemEvents(items: seq<Node>): seq<Event>
    decreases items, 0
  {
    if items == [] then [] else NodeEvents(items[0]) + ItemEvents(items[1..])
  }

  /** An entry of a mapping: a key and a value. */
  function PairOf(e: Entry): seq<Event>
    decreases e, 0
  {
    match e
    case Single(n) => NodeEvents(n) + [Scalar]
    case Pair(key, _, value) => NodeEvents(key) + NodeEvents(value)
    case Unkeyed(value) => [Scalar] + NodeEvents(value)
  }

  function PairEvents(es: seq<Entry>): seq<Event>
    decreases es, 0
  {
    if es == [] then [] else PairOf(es[0]) + PairEvents(es[1..])
  }

  /** An entry of a flow sequence: a node, or a mapping of one pair. */
  function FlowItem(e: Entry): seq<Event>
    decreases e, 0
  {
    match e
    case Single(n) => NodeEvents(n)
    case Pair(key, _, value) => [MappingStart] + (NodeEvents(key) + (NodeEvents(value) + [MappingEnd]))
    case Unkeyed(value) => [MappingStart] + ([Scalar] + (NodeEvents(value) + [MappingEnd]))
  }

  function FlowEvents(es: seq<Entry>): seq<Event>
    decreases es, 0
  {
    if es == [] then [] else FlowItem(es[0]) + FlowEvents(es[1..])
  }

  // ----- which sentences are documented -----

  predicate PropsOk(ks: seq<T.Kind>) {
    ks == [] || ks == [T.Anchor] || ks == [T.Tag] || ks == [T.Anchor, T.Tag] || ks == [T.Tag, T.Anchor]
  }

  /** A node that is there, among block nodes, block nodes or indentless sequences, or flow nodes. */
  predicate IsNode(n: Node, block: bool, indentless: bool)
    decreases n, 1
  {
    match n
    case Empty => false
    case Reference => true
    case Leaf(props) => PropsOk(props)
    case Bare(props) => PropsOk(props) && props != []
    case BlockSequence(props, items) => block && PropsOk(props) && AreItems(items)
    case Indentless(props, items) => indentless && PropsOk(props) && items != [] && AreItems(items)
    case BlockMapping(props, es) => block && PropsOk(props) && AreBlockEntries(es)
    case FlowSequence(props, es, trailing) => PropsOk(props) && (trailing ==> es != []) && AreFlowEntries(es)
    case FlowMapping(props, es, trailing) => PropsOk(props) && (trailing ==> es != []) && AreFlowEntries(es)
  }

  predicate IsOptional(n: Node, block: bool, indentless: bool)
    decreases n, 2
  {
    n.Empty? || IsNode(n, block, indentless)
  }

  predicate AreItems(items: seq<Node>)
    decreases items, 0
  {
    forall n | n in items :: IsOptional(n, true, false)
  }

  predicate IsBlockEntry(e: Entry)
    decreases e, 0
  {
    match e
    case Single(_) => false
    case Pair(key, valued, value) => IsOptional(key, true, true) && IsOptional(value, true, true)
      && (!valued ==> value.Empty?)
    case Unkeyed(value) => IsOptional(value, true, true)
  }

  /** The entries of a block mapping; a VALUE behind a KEY and its node belongs to them. */
  predicate AreBlockEntries(es: seq<Entry>)
    decreases es, 0
  {
    && (forall e | e in es :: IsBlockEntry(e))
    && forall i | 0 < i < |es| :: es[i].Unkeyed? ==> !(es[i - 1].Pair? && !es[i - 1].valued)
  }

  predicate IsFlowEntry(e: Entry)
    decreases e, 0
  {
    match e
    case Single(n) => IsNode(n, false, false)
    case Pair(key, valued, value) => IsOptional(key, false, false) && IsOptional(value, false, false)
      && (!valued ==> value.Empty?)
    case Unkeyed(_) => false
  }

  predicate AreFlowEntries(es: seq<Entry>)
    decreases es, 0
  {
    forall e | e in es :: IsFlowEntry(e)
  }

  // ----- which of them are read -----

  /**
   * In a flow sequence the parser skips a token behind a pair without a key, so such a pair is only read rightly if
   * that token is a VALUE with nothing behind it, or a comma in front of the end.
   */
  predicate KeysStand(es: seq<Entry>, trailing: bool) {
    forall i | 0 <= i < |es| && es[i].Pair? && es[i].key.Empty? ::
      es[i].value.Empty? && (es[i].valued || (trailing && i == |es| - 1))
  }

  /** In all block mappings every VALUE has its KEY, and in all flow sequences the pairs without a key can stand. */
  predicate Reads(n: Node)
    decreases n, 1
  {
    match n
    case BlockSequence(_, items) => ReadsItems(items)
    case Indentless(_, items) => ReadsItems(items)
    case BlockMapping(_, es) => ReadsEntries(es) && forall e | e in es :: !e.Unkeyed?
    case FlowSequence(_, es, trailing) => ReadsEntries(es) && KeysStand(es, trailing)
    case FlowMapping(_, es, _) => ReadsEntries(es)
    case _ => true
  }

  predicate ReadsItems(items: seq<Node>)
    decreases items, 0
  {
    forall n | n in items :: Reads(n)
  }

  predicate ReadsEntry(e: Entry)
    decreases e, 0
  {
    match e
    case Single(n) => Reads(n)
    case Pair(key, _, value) => Reads(key) && Reads(value)
    case Unkeyed(value) => Reads(value)
  }

  predicate ReadsEntries(es: seq<Entry>)
    decreases es, 0
  {
    forall e | e in es :: ReadsEntry(e)
  }

  // ----- both -----

  predicate NodeOk(n: Node, block: bool, indentless: bool) {
    IsNode(n, block, indentless) && Reads(n)
  }

  predicate OptionalOk(n: Node, block: bool, indentless: bool) {
    IsOptional(n, block, indentless) && Reads(n)
  }

  predicate ItemsOk(items: seq<Node>) {
    AreItems(items) && ReadsItems(items)
  }

  predicate BlockEntryOk(e: Entry) {
    IsBlockEntry(e) && ReadsEntry(e) && !e.Unkeyed?
  }

  predicate FlowEntryOk(e: Entry) {
    IsFlowEntry(e) && ReadsEntry(e)
  }

  predicate SequenceOk(es: seq<Entry>, trailing: bool) {
    (forall e | e in es :: FlowEntryOk(e)) && KeysStand(es, trailing)
  }

  // ----- streams -----

  function Many(k: T.Kind, n: nat): seq<Token> {
    seq(n, i => Tok(k))
  }

  function Heading(d: Document): seq<Token> {
    if d.explicit then Many(T.Directive, d.directives) + [Tok(T.DocumentStart)] else []
  }

  function DocumentTokens(d: Document): seq<Token> {
    Heading(d) + (NodeTokens(d.root) + Many(T.DocumentEnd, d.ends))
  }

  function DocumentsTokens(ds: seq<Document>): seq<Token> {
    if ds == [] then [] else DocumentTokens(ds[0]) + DocumentsTokens(ds[1..])
  }

  function StreamTokens(ds: seq<Document>): seq<Token> {
    [Tok(T.StreamStart)] + (DocumentsTokens(ds) + [Tok(T.StreamEnd)])
  }

  function DocumentEvents(d: Document): seq<Event> {
    [DocumentStart] + (NodeEvents(d.root) + [DocumentEnd])
  }

  function DocumentsEvents(ds: seq<Document>): seq<Event> {
    if ds == [] then [] else DocumentEvents(ds[0]) + DocumentsEvents(ds[1..])
  }

  function StreamEvents(ds: seq<Document>): seq<Event> {
    [StreamStart] + (DocumentsEvents(ds) + [StreamEnd])
  }

  predicate IsDocument(d: Document) {
    if d.explicit then IsOptional(d.root, true, false) else IsNode(d.root, true, false)
  }

  /** A documented sentence; only its first document can do without a start marker. */
  predicate IsStream(ds: seq<Document>) {
    forall i | 0 <= i < |ds| :: IsDocument(ds[i]) && (i > 0 ==> ds[i].explicit)
  }

  predicate ReadsStream(ds: seq<Document>) {
    forall d | d in ds :: Reads(d.root)
  }

  predicate DocumentOk(d: Document) {
    IsDocument(d) && Reads(d.root)
  }
}
