/** What the token stream of the YAML scanner keeps, as facts about values: simple keys, indentation, block nesting. */
module YamlTokens {
  datatype Mark = Mark(index: nat, line: nat, column: nat) {
    /** Further on in the text. */
    predicate Precedes(m: Mark) {
      line < m.line || (line == m.line && column < m.column)
    }
  }

  datatype Kind =
    | StreamStart | StreamEnd | Directive | DocumentStart | DocumentEnd
    | BlockSequenceStart | BlockMappingStart | BlockEnd
    | FlowSequenceStart | FlowSequenceEnd | FlowMappingStart | FlowMappingEnd
    | BlockEntry | FlowEntry | Key | Value
    | Alias | Anchor | Tag | Scalar

  datatype Token = Token(kind: Kind, start: Mark, end: Mark)

  /** A place where a simple key may have begun: `number` counts all tokens of the stream. */
  datatype SimpleKey = SimpleKey(possible: bool, required: bool, number: nat, mark: Mark)

  const NO_KEY := SimpleKey(false, false, 0, Mark(0, 0, 0))

  // ----- simple keys -----

  /**
   * Every possible simple key names a token that has not been handed out, the one that begins at the mark of the key,
   * and keys of inner flow levels name later tokens.
   */
  ghost predicate KeysOk(keys: seq<SimpleKey>, parsed: nat, all: seq<Token>, mark: Mark) {
    && (forall i | 0 <= i < |keys| && keys[i].possible ::
          && 0 < keys[i].number && parsed <= keys[i].number < |all|
          && all[keys[i].number].start == keys[i].mark && keys[i].mark.Precedes(mark))
    && Rising(keys)
  }

  ghost predicate Rising(keys: seq<SimpleKey>) {
    forall i, j | 0 <= i < j < |keys| && keys[i].possible && keys[j].possible :: keys[i].number < keys[j].number
  }

  /** The same, while the innermost key may name the token that is about to be appended. */
  ghost predicate PendingOk(keys: seq<SimpleKey>, parsed: nat, all: seq<Token>, mark: Mark) {
    && (forall i | 0 <= i < |keys| && keys[i].possible && keys[i].number != |all| ::
          && 0 < keys[i].number && parsed <= keys[i].number < |all|
          && all[keys[i].number].start == keys[i].mark && keys[i].mark.Precedes(mark))
    && (forall i | 0 <= i < |keys| && keys[i].possible && keys[i].number == |all| :: 0 < |all| && keys[i].mark == mark)
    && Rising(keys)
  }

  lemma OkIsPending(keys: seq<SimpleKey>, parsed: nat, all: seq<Token>, mark: Mark)
    requires KeysOk(keys, parsed, all, mark)
    ensures PendingOk(keys, parsed, all, mark)
  {
  }

  lemma NoKeys(parsed: nat, all: seq<Token>, mark: Mark)
    ensures KeysOk([NO_KEY], parsed, all, mark)
  {
  }

  lemma KeysPrecede(keys: seq<SimpleKey>, parsed: nat, all: seq<Token>, mark: Mark)
    requires KeysOk(keys, parsed, all, mark)
    ensures forall i | 0 <= i < |keys| && keys[i].possible :: keys[i].mark.Precedes(mark)
  {
  }

  /** Moving on in the text. */
  lemma KeysAdvance(keys: seq<SimpleKey>, parsed: nat, all: seq<Token>, mark: Mark, mark': Mark)
    requires KeysOk(keys, parsed, all, mark) && (mark == mark' || mark.Precedes(mark'))
    ensures KeysOk(keys, parsed, all, mark')
  {
  }

  /** Saving a key for the token that comes next. */
  lemma KeySaved(keys: seq<SimpleKey>, parsed: nat, all: seq<Token>, mark: Mark, required: bool)
    requires KeysOk(keys, parsed, all, mark) && keys != [] && parsed <= |all| && all != []
    ensures PendingOk(keys[|keys| - 1 := SimpleKey(true, required, |all|, mark)], parsed, all, mark)
  {
  }

  /** The token comes: it begins where the key was saved. */
  lemma TokenAppended(keys: seq<SimpleKey>, parsed: nat, all: seq<Token>, t: Token, mark: Mark, mark': Mark)
    requires PendingOk(keys, parsed, all, mark) && parsed <= |all| && mark.Precedes(mark')
    requires t.start == mark || KeysOk(keys, parsed, all, mark)
    ensures KeysOk(keys, parsed, all + [t], mark')
  {
  }

  /** A token that no key can name, at the current mark. */
  lemma OtherAppended(keys: seq<SimpleKey>, parsed: nat, all: seq<Token>, t: Token, mark: Mark)
    requires KeysOk(keys, parsed, all, mark)
    ensures KeysOk(keys, parsed, all + [t], mark)
  {
  }

  /** Taking possible keys away. */
  lemma FewerKeys(keys: seq<SimpleKey>, keys': seq<SimpleKey>, parsed: nat, all: seq<Token>, mark: Mark)
    requires KeysOk(keys, parsed, all, mark) && |keys'| <= |keys|
    requires forall i | 0 <= i < |keys'| :: keys'[i].possible ==> keys'[i] == keys[i]
    ensures KeysOk(keys', parsed, all, mark)
  {
  }

  /** A new flow level has no key yet. */
  lemma LevelAdded(keys: seq<SimpleKey>, parsed: nat, all: seq<Token>, mark: Mark)
    requires PendingOk(keys, parsed, all, mark)
    ensures PendingOk(keys + [NO_KEY], parsed, all, mark)
  {
  }

  function Insert<T>(ts: seq<T>, n: nat, t: T): (r: seq<T>)
    requires n <= |ts|
    ensures |r| == |ts| + 1
  {
    ts[..n] + [t] + ts[n..]
  }

  /** Inserting tokens where the innermost key is leaves the keys of outer levels in place. */
  lemma KeyInserted(keys: seq<SimpleKey>, parsed: nat, all: seq<Token>, t: Token, mark: Mark)
    requires KeysOk(keys, parsed, all, mark) && keys != [] && keys[|keys| - 1].possible
    ensures var n := keys[|keys| - 1].number;
            n < |all| && KeysOk(keys[..|keys| - 1], parsed, Insert(all, n, t), mark)
  {
  }

  lemma LowerInserted(keys: seq<SimpleKey>, n: nat, parsed: nat, all: seq<Token>, t: Token, mark: Mark)
    requires KeysOk(keys, parsed, all, mark) && n <= |all|
    requires forall i | 0 <= i < |keys| && keys[i].possible :: keys[i].number < n
    ensures KeysOk(keys, parsed, Insert(all, n, t), mark)
  {
  }

  lemma ImpossibleAdded(keys: seq<SimpleKey>, k: SimpleKey, parsed: nat, all: seq<Token>, mark: Mark)
    requires KeysOk(keys, parsed, all, mark) && !k.possible
    ensures KeysOk(keys + [k], parsed, all, mark)
  {
  }

  /** The simple key becomes one: a KEY token, and in front of it the start of a block mapping if one begins here. */
  function WithKey(all: seq<Token>, n: nat, mark: Mark, opens: bool): seq<Token>
    requires n <= |all|
  {
    all[..n] + (if opens then [Token(BlockMappingStart, mark, mark)] else []) + [Token(Key, mark, mark)] + all[n..]
  }

  lemma WithKeyInserted(all: seq<Token>, n: nat, mark: Mark)
    requires n <= |all|
    ensures WithKey(all, n, mark, false) == Insert(all, n, Token(Key, mark, mark))
    ensures WithKey(all, n, mark, true)
            == Insert(Insert(all, n, Token(Key, mark, mark)), n, Token(BlockMappingStart, mark, mark))
  {
  }

  lemma WithKeyFramed(all: seq<Token>, n: nat, mark: Mark, opens: bool)
    requires 0 < n <= |all| && all[0].kind == StreamStart && forall i | 0 <= i < |all| :: all[i].kind != StreamEnd
    ensures var r := WithKey(all, n, mark, opens);
            r != [] && r[0].kind == StreamStart && forall i | 0 <= i < |r| :: r[i].kind != StreamEnd
  {
  }

  /** What turning the innermost key into a mapping key keeps. */
  lemma KeyTaken(keys: seq<SimpleKey>, parsed: nat, all: seq<Token>, mark: Mark, opens: bool)
    requires KeysOk(keys, parsed, all, mark) && keys != [] && keys[|keys| - 1].possible && Nested(all)
    ensures var top := |keys| - 1;
            var k := keys[top];
            && 0 < k.number < |all| && parsed <= k.number && all[k.number].start == k.mark && k.mark.Precedes(mark)
            && KeysOk(keys[top := k.(possible := false)], parsed, WithKey(all, k.number, k.mark, opens), mark)
            && Nested(WithKey(all, k.number, k.mark, opens))
            && Depth(WithKey(all, k.number, k.mark, opens)) == Depth(all) + if opens then 1 else 0
  {
    hide Nested, Depth;
    var top := |keys| - 1;
    var k := keys[top];
    var n, lower := k.number, keys[..top];
    var key, start := Token(Key, k.mark, k.mark), Token(BlockMappingStart, k.mark, k.mark);
    WithKeyInserted(all, n, k.mark);
    KeyInserted(keys, parsed, all, key, mark);
    NestedInsert(all, n, key);
    if opens {
      LowerInserted(lower, n, parsed, Insert(all, n, key), start, mark);
      NestedInsert(Insert(all, n, key), n, start);
    }
    ImpossibleAdded(lower, k.(possible := false), parsed, WithKey(all, n, k.mark, opens), mark);
    assert keys[top := k.(possible := false)] == lower + [k.(possible := false)];
  }

  /** Handing out the first token when no key names it. */
  lemma HandedOut(keys: seq<SimpleKey>, parsed: nat, all: seq<Token>, mark: Mark)
    requires KeysOk(keys, parsed, all, mark) && forall i | 0 <= i < |keys| && keys[i].possible ::
      keys[i].number != parsed
    ensures KeysOk(keys, parsed + 1, all, mark)
  {
  }

  // ----- indentation -----

  /** The saved indentation levels rise from -1 up to the current one. */
  ghost predicate IndentsOk(indents: seq<int>, indent: int) {
    && indent >= -1 && (indents == [] <==> indent == -1)
    && (indents != [] ==> indents[0] == -1 && indents[|indents| - 1] < indent)
    && forall i | 0 < i < |indents| :: indents[i - 1] < indents[i]
  }

  lemma IndentPopped(indents: seq<int>, indent: int)
    requires IndentsOk(indents, indent) && indents != []
    ensures IndentsOk(indents[..|indents| - 1], indents[|indents| - 1]) && indents[|indents| - 1] < indent
  {
    if |indents| > 1 {
      RisesFrom(indents, |indents| - 1);
    }
  }

  lemma {:induction false} RisesFrom(indents: seq<int>, k: nat)
    requires k < |indents| && indents[0] == -1 && forall i | 0 < i < |indents| :: indents[i - 1] < indents[i]
    ensures k > 0 ==> indents[k] > -1
  {
    if k > 0 {
      RisesFrom(indents, k - 1);
    }
  }

  lemma IndentPushed(indents: seq<int>, indent: int, column: int)
    requires IndentsOk(indents, indent) && indent < column
    ensures IndentsOk(indents + [indent], column)
  {
  }

  // ----- block nesting -----

  function Weight(t: Token): int {
    match t.kind
    case BlockSequenceStart => 1
    case BlockMappingStart => 1
    case BlockEnd => -1
    case _ => 0
  }

  /** Block collections opened and not closed. */
  function Depth(ts: seq<Token>): int {
    if ts == [] then 0 else Depth(ts[..|ts| - 1]) + Weight(ts[|ts| - 1])
  }

  /** No block collection is closed before it is opened. */
  ghost predicate Nested(ts: seq<Token>) {
    forall n: nat | n <= |ts| :: Depth(ts[..n]) >= 0
  }

  lemma {:induction false} DepthAppend(a: seq<Token>, b: seq<Token>)
    ensures Depth(a + b) == Depth(a) + Depth(b)
  {
    if b == [] {
      assert a + b == a;
    } else {
      assert (a + b)[..|a + b| - 1] == a + b[..|b| - 1];
      DepthAppend(a, b[..|b| - 1]);
    }
  }

  lemma NestedAppend(ts: seq<Token>, t: Token)
    requires Nested(ts) && Depth(ts) + Weight(t) >= 0
    ensures Nested(ts + [t]) && Depth(ts + [t]) == Depth(ts) + Weight(t)
  {
    assert (ts + [t])[..|ts|] == ts;
    forall n: nat | n <= |ts + [t]| ensures Depth((ts + [t])[..n]) >= 0 {
      if n <= |ts| {
        assert (ts + [t])[..n] == ts[..n];
      } else {
        assert (ts + [t])[..n] == ts + [t];
      }
    }
  }

  /** Opening a block collection earlier in the stream keeps the nesting. */
  lemma NestedInsert(ts: seq<Token>, k: nat, t: Token)
    requires Nested(ts) && k <= |ts| && Weight(t) >= 0
    ensures Nested(Insert(ts, k, t)) && Depth(Insert(ts, k, t)) == Depth(ts) + Weight(t)
  {
    var r := Insert(ts, k, t);
    DepthOfInsert(ts, k, t, |r|);
    assert r[..|r|] == r && ts[..|ts|] == ts;
    forall n: nat | n <= |r| ensures Depth(r[..n]) >= 0 {
      DepthOfInsert(ts, k, t, n);
    }
  }

  lemma DepthOfInsert(ts: seq<Token>, k: nat, t: Token, n: nat)
    requires k <= |ts| && n <= |ts| + 1
    ensures Depth(Insert(ts, k, t)[..n]) == if n <= k then Depth(ts[..n]) else Depth(ts[..n - 1]) + Weight(t)
  {
    var r := Insert(ts, k, t);
    if n <= k {
      assert r[..n] == ts[..n];
    } else {
      assert r[..n] == (ts[..k] + [t]) + ts[k..n - 1] && ts[..n - 1] == ts[..k] + ts[k..n - 1];
      DepthAppend(ts[..k] + [t], ts[k..n - 1]);
      DepthAppend(ts[..k], ts[k..n - 1]);
      DepthAppend(ts[..k], [t]);
      assert [t][..0] == [] && Depth([t]) == Weight(t);
    }
  }
}
