/**
 * The scanner's bookkeeping: the token queue that is rewritten after the fact when
 * a `:` turns an earlier token into a simple key, the stack of possible simple keys
 * and the stack of indentation levels. What the characters spell is an input: each
 * lexeme says where a token starts and what it is.
 */
module YamlScanner {
  datatype Mark = Mark(index: nat, line: nat, column: nat)

  datatype Kind =
    | StreamStart | StreamEnd | Directive | DocumentStart | DocumentEnd
    | BlockSequenceStart | BlockMappingStart | BlockEnd
    | FlowSequenceStart | FlowSequenceEnd | FlowMappingStart | FlowMappingEnd
    | BlockEntry | FlowEntry | Key | Value | AliasToken | Anchor | Tag | Scalar

  datatype Token = Token(kind: Kind, start: Mark)

  datatype SimpleKey = SimpleKey(possible: bool, required: bool, number: nat, mark: Mark)

  /**
   * What the dispatcher recognizes at the next token. A node is `broken` if it is a plain scalar
   * and a line break was read after its last character.
   */
  datatype Shape =
    | End | Percent | Document(kind: Kind) | FlowOpen(kind: Kind) | FlowClose(kind: Kind)
    | Comma | Dash | Question | Colon | Node(kind: Kind, broken: bool) | BlockScalar | Unknown

  /**
   * The next token of the text: where it starts once blanks and comments are skipped,
   * whether a line break was among them, what it is, whether it scans, and where it ends.
   */
  datatype Lexeme = Lexeme(start: Mark, newline: bool, shape: Shape, scans: bool, finish: Mark)

  datatype Status = Ok | Error | Panic

  // ------------------------------------------------------------------------------- views

  /** A token that can begin a node, and so a simple key. */
  predicate BeginsNode(k: Kind) {
    k == AliasToken || k == Anchor || k == Tag || k == Scalar || k == FlowSequenceStart || k == FlowMappingStart
  }

  predicate Spelled(x: Shape) {
    match x
    case Document(k) => k == DocumentStart || k == DocumentEnd
    case FlowOpen(k) => k == FlowSequenceStart || k == FlowMappingStart
    case FlowClose(k) => k == FlowSequenceEnd || k == FlowMappingEnd
    case Node(k, broken) => k == Scalar || (!broken && (k == AliasToken || k == Anchor || k == Tag))
    case _ => true
  }

  /** The token that a lexeme ends up as. */
  function KindOf(x: Shape): Kind {
    match x
    case End => StreamEnd
    case Percent => Directive
    case Document(k) => k
    case FlowOpen(k) => k
    case FlowClose(k) => k
    case Comma => FlowEntry
    case Dash => BlockEntry
    case Question => Key
    case Colon => Value
    case Node(k, _) => k
    case _ => Scalar
  }

  /** A text: every lexeme is what it says, and after the end there is only the end. */
  predicate AllSpelled(text: seq<Lexeme>) {
    && (forall i :: 0 <= i < |text| ==> Spelled(text[i].shape))
    && (forall i, j :: 0 <= i < j < |text| && text[i].shape == End ==> text[j].shape == End)
  }

  /** The block start that a column deeper than the indentation brings. */
  function Opened(flow: nat, indent: int, kind: Kind, at: Mark): seq<Token> {
    if flow == 0 && indent < at.column then [Token(kind, at)] else []
  }

  function NoKey(): SimpleKey { SimpleKey(false, false, 0, Mark(0, 0, 0)) }

  /** A key's place in the queue holds the token it was saved for; it may be the one about to be appended at m. */
  predicate Placed(key: SimpleKey, parsed: nat, q: seq<Token>, m: Mark) {
    && parsed <= key.number <= parsed + |q|
    && if key.number < parsed + |q|
       then q[key.number - parsed].start == key.mark && BeginsNode(q[key.number - parsed].kind)
       else key.mark == m
  }

  /** Possible keys are in the queue, or the next to be, in the order of their flow levels. */
  predicate KeysPlaced(keys: seq<SimpleKey>, parsed: nat, q: seq<Token>, m: Mark) {
    && (forall i :: 0 <= i < |keys| && keys[i].possible ==> Placed(keys[i], parsed, q, m))
    && (forall i, j :: 0 <= i < j < |keys| && keys[i].possible && keys[j].possible ==> keys[i].number < keys[j].number)
  }

  /** Every possible key is in the queue already. */
  predicate KeysQueued(keys: seq<SimpleKey>, parsed: nat, q: seq<Token>) {
    forall i :: 0 <= i < |keys| && keys[i].possible ==> keys[i].number < parsed + |q|
  }

  /** Indentation levels grow strictly from -1, the current one on top. */
  predicate Chain(indents: seq<int>, indent: int) {
    && (forall i :: 0 <= i < |indents| - 1 ==> indents[i] < indents[i + 1])
    && (if indents == [] then indent == -1 else indents[0] == -1 && indents[|indents| - 1] < indent)
  }

  function Step(k: Kind): int {
    if k == BlockSequenceStart || k == BlockMappingStart then 1 else if k == BlockEnd then -1 else 0
  }

  /** Block starts minus block ends. */
  function Depth(s: seq<Token>): int {
    if s == [] then 0 else Depth(s[..|s| - 1]) + Step(s[|s| - 1].kind)
  }

  function Ends(n: nat, at: Mark): seq<Token> { seq(n, _ => Token(BlockEnd, at)) }

  lemma MoreEnds(q: seq<Token>, n: nat, at: Mark)
    ensures q + Ends(n, at) + [Token(BlockEnd, at)] == q + Ends(n + 1, at) && q + Ends(0, at) == q
  {
  }

  predicate NoEnd(s: seq<Token>) { forall i :: 0 <= i < |s| ==> s[i].kind != StreamEnd }

  predicate OnlyEnds(text: seq<Lexeme>) { forall i :: 0 <= i < |text| ==> text[i].shape == End }

  /** All blocks are closed at every end of the stream. */
  ghost predicate Settled(s: seq<Token>) {
    forall k :: 0 < k <= |s| && s[k - 1].kind == StreamEnd ==> Depth(s[..k]) == 0
  }

  /** The end of the stream is still to come, or it came: then nothing else follows, and outside flow collections all blocks are closed. */
  ghost predicate Closing(s: seq<Token>, flow: nat, indents: seq<int>, ahead: seq<Lexeme>) {
    NoEnd(s) || (OnlyEnds(ahead) && (flow == 0 ==> indents == [] && Settled(s)))
  }

  lemma NoEndMore(s: seq<Token>, t: seq<Token>)
    ensures NoEnd(s + t) <==> NoEnd(s) && NoEnd(t)
  {
    forall i | 0 <= i < |t| ensures (s + t)[|s| + i] == t[i] { }
    forall i | 0 <= i < |s| ensures (s + t)[i] == s[i] { }
  }

  /** Blocks closed, then a token that does not end the stream. */
  lemma NoEndOutside(q: seq<Token>, flow: nat, n: nat, at: Mark, kind: Kind)
    requires kind != StreamEnd
    ensures NoEnd(q) ==> NoEnd(q + (if flow == 0 then Ends(n, at) else []) + [Token(kind, at)])
  {
    NoEndMore(q, if flow == 0 then Ends(n, at) else []);
    NoEndMore(q + (if flow == 0 then Ends(n, at) else []), [Token(kind, at)]);
  }

  lemma NoEndOne(q: seq<Token>, kind: Kind, at: Mark)
    requires kind != StreamEnd
    ensures NoEnd(q) ==> NoEnd(q + [Token(kind, at)])
  {
  }

  /** A block perhaps opened, then a token that does not end the stream. */
  lemma NoEndOpened(q: seq<Token>, flow: nat, indent: int, opens: Kind, at: Mark, kind: Kind)
    requires kind != StreamEnd && opens != StreamEnd
    ensures NoEnd(q) ==> NoEnd(q + Opened(flow, indent, opens, at) + [Token(kind, at)])
  {
    NoEndMore(q, Opened(flow, indent, opens, at));
    NoEndMore(q + Opened(flow, indent, opens, at), [Token(kind, at)]);
  }

  lemma NoEndKey(q: seq<Token>, pos: nat, at: Mark, opens: bool, m: Mark)
    requires pos <= |q| && NoEnd(q)
    ensures NoEnd(WithKey(q, pos, at, opens) + [Token(Value, m)])
  {
  }

  lemma NoEndEnds(n: nat, at: Mark)
    ensures NoEnd(Ends(n, at)) && NoEnd([])
  {
  }

  lemma StillToCome(s: seq<Token>, flow: nat, indents: seq<int>, ahead: seq<Lexeme>)
    requires NoEnd(s)
    ensures Closing(s, flow, indents, ahead)
  {
  }

  lemma NotEnded(q: seq<Token>, flow: nat, indents: seq<int>, ahead: seq<Lexeme>)
    requires NoEnd(q)
    ensures Closing([] + q, flow, indents, ahead)
  {
    assert [] + q == q;
  }

  lemma TextRest(text: seq<Lexeme>)
    requires AllSpelled(text) && text != []
    ensures AllSpelled(text[1..]) && Spelled(text[0].shape) && text == [text[0]] + text[1..]
  {
  }

  /** Blocks closed and the end of the stream appended. */
  lemma SettledGrows(s: seq<Token>, ends: seq<Token>, t: Token)
    requires (NoEnd(s) || Settled(s)) && NoEnd(ends) && Depth(s + ends + [t]) == 0
    ensures Settled(s + ends + [t])
  {
    var all := s + ends + [t];
    assert forall j :: |s| <= j < |all| - 1 ==> all[j] == ends[j - |s|];
    assert forall j :: |s| <= j < |all| - 1 ==> all[j].kind != StreamEnd;
    forall k | 0 < k <= |all| && all[k - 1].kind == StreamEnd ensures Depth(all[..k]) == 0 {
      if k == |all| {
        assert all[..k] == all;
      } else {
        assert k <= |s|;
        assert all[k - 1] == s[k - 1];
        assert all[..k] == s[..k];
      }
    }
  }

  /** A lexeme before the end of the stream leaves the end to come. */
  lemma ClosingMore(gone: seq<Token>, q: seq<Token>, ends: seq<Token>, flow: nat, indents: seq<int>, ahead: seq<Lexeme>)
    requires Closing(gone + q, flow, indents, ahead) && ahead != [] && ahead[0].shape != End && NoEnd(ends)
    ensures NoEnd(gone) && NoEnd(q + ends)
  {
    assert !OnlyEnds(ahead);
    NoEndMore(gone, q);
    NoEndMore(q, ends);
  }

  /** The end of the stream, with the blocks closed before it. */
  lemma ClosingEnd(gone: seq<Token>, q: seq<Token>, ends: seq<Token>, t: Token, flow: nat, was: seq<int>,
                   indents: seq<int>, indent: int, ahead: seq<Lexeme>)
    requires Closing(gone + q, flow, was, ahead) && ahead != [] && ahead[0].shape == End && AllSpelled(ahead)
    requires NoEnd(ends) && (flow == 0 ==> indents == [] && Sound(gone, q + ends + [t], [], indent))
    ensures Closing(gone + (q + ends + [t]), flow, indents, ahead[1..])
  {
    hide Chain, Nested;
    assert OnlyEnds(ahead[1..]) by { forall i | 0 <= i < |ahead[1..]| ensures ahead[1..][i].shape == End { assert ahead[1..][i] == ahead[i + 1]; } }
    if flow == 0 {
      assert gone + (q + ends + [t]) == (gone + q) + ends + [t];
      SettledGrows(gone + q, ends, t);
    }
  }

  /** No block ends before it starts. */
  ghost predicate Nested(s: seq<Token>) { forall k :: 0 <= k <= |s| ==> Depth(s[..k]) >= 0 }

  // ------------------------------------------------------------------------ about the views

  lemma {:induction false} DepthInsert(a: seq<Token>, t: Token, b: seq<Token>)
    ensures Depth(a + [t] + b) == Depth(a + b) + Step(t.kind)
    decreases |b|
  {
    if b == [] {
      assert a + [t] + b == a + [t] && a + b == a;
      assert (a + [t])[..|a|] == a;
    } else {
      var n := |b| - 1;
      DepthInsert(a, t, b[..n]);
      assert (a + [t] + b)[..|a| + 1 + n] == a + [t] + b[..n];
      assert (a + b)[..|a| + n] == a + b[..n];
    }
  }

  lemma DepthAppend(a: seq<Token>, t: Token)
    ensures Depth(a + [t]) == Depth(a) + Step(t.kind)
  {
    assert (a + [t])[..|a|] == a;
  }

  /** A token that does not end a block can be put anywhere. */
  lemma NestedInsert(a: seq<Token>, t: Token, b: seq<Token>)
    requires Nested(a + b) && Step(t.kind) >= 0
    ensures Nested(a + [t] + b)
  {
    var s := a + [t] + b;
    forall k | 0 <= k <= |s| ensures Depth(s[..k]) >= 0 {
      if k <= |a| {
        assert s[..k] == (a + b)[..k];
      } else {
        var c := b[..k - |a| - 1];
        assert s[..k] == a + [t] + c;
        assert (a + b)[..k - 1] == a + c;
        DepthInsert(a, t, c);
      }
    }
  }

  lemma NestedAppend(a: seq<Token>, t: Token)
    requires Nested(a) && Depth(a) + Step(t.kind) >= 0
    ensures Nested(a + [t])
  {
    var s := a + [t];
    forall k | 0 <= k <= |s| ensures Depth(s[..k]) >= 0 {
      if k <= |a| { assert s[..k] == a[..k]; } else { assert s[..k] == s; DepthAppend(a, t); }
    }
  }

  /** Appending the awaited token puts every key in the queue; appending any token keeps the queued ones. */
  lemma KeysAppend(keys: seq<SimpleKey>, parsed: nat, q: seq<Token>, m: Mark, t: Token, m': Mark)
    requires KeysPlaced(keys, parsed, q, m) && ((t.start == m && BeginsNode(t.kind)) || KeysQueued(keys, parsed, q))
    ensures KeysPlaced(keys, parsed, q + [t], m') && KeysQueued(keys, parsed, q + [t])
  {
  }

  /** A KEY or BLOCK-MAPPING-START put at the place of the top key leaves the keys below it where they are. */
  lemma KeysInsert(keys: seq<SimpleKey>, parsed: nat, q: seq<Token>, m: Mark, t: Token, pos: nat)
    requires KeysPlaced(keys, parsed, q, m) && KeysQueued(keys, parsed, q) && pos <= |q|
    requires forall i :: 0 <= i < |keys| && keys[i].possible ==> keys[i].number < parsed + pos
    ensures var q' := q[..pos] + [t] + q[pos..]; KeysPlaced(keys, parsed, q', m) && KeysQueued(keys, parsed, q')
  {
  }

  /** Once every key is in the queue the current position does not matter. */
  lemma MarkFree(keys: seq<SimpleKey>, parsed: nat, q: seq<Token>, m: Mark, m': Mark)
    requires KeysPlaced(keys, parsed, q, m) && KeysQueued(keys, parsed, q)
    ensures KeysPlaced(keys, parsed, q, m')
  {
  }

  /** Keys may be given up. */
  lemma KeysCleared(keys: seq<SimpleKey>, fewer: seq<SimpleKey>, parsed: nat, q: seq<Token>, m: Mark)
    requires KeysPlaced(keys, parsed, q, m) && KeysQueued(keys, parsed, q)
    requires |fewer| <= |keys| && forall i :: 0 <= i < |fewer| && fewer[i].possible ==> fewer[i] == keys[i]
    ensures KeysPlaced(fewer, parsed, q, m) && KeysQueued(fewer, parsed, q)
  {
  }

  /** A new key at the top, for the token about to be appended, comes after all others. */
  lemma KeysSaved(keys: seq<SimpleKey>, parsed: nat, q: seq<Token>, m: Mark, key: SimpleKey)
    requires keys != [] && KeysPlaced(keys, parsed, q, m) && KeysQueued(keys, parsed, q)
    requires key.number == parsed + |q| && key.mark == m
    ensures KeysPlaced(keys[|keys| - 1 := key], parsed, q, m)
  {
  }

  lemma ChainPush(indents: seq<int>, indent: int, column: int)
    requires Chain(indents, indent) && indent < column
    ensures Chain(indents + [indent], column)
  {
    var s := indents + [indent];
    forall i | 0 <= i < |s| - 1 ensures s[i] < s[i + 1] {
      if i + 1 < |indents| { assert indents[i] < indents[i + 1]; }
    }
  }

  lemma ChainPop(indents: seq<int>, indent: int)
    requires Chain(indents, indent) && indent > -1
    ensures indents != [] && Chain(indents[..|indents| - 1], indents[|indents| - 1])
  {
    var n := |indents| - 1;
    if n > 0 { assert indents[n - 1] < indents[n - 1 + 1]; }
  }

  /** Everything queued so far nests, and the open blocks are the indentation levels. */
  ghost predicate Sound(gone: seq<Token>, q: seq<Token>, indents: seq<int>, indent: int) {
    Chain(indents, indent) && Nested(gone + q) && Depth(gone + q) == |indents|
  }

  lemma SoundAppend(gone: seq<Token>, q: seq<Token>, indents: seq<int>, indent: int, t: Token)
    requires Sound(gone, q, indents, indent) && Step(t.kind) == 0
    ensures Sound(gone, q + [t], indents, indent)
  {
    hide Nested, Depth, Chain;
    NestedStays(gone + q, t);
    assert gone + (q + [t]) == (gone + q) + [t];
  }

  lemma SoundInsert(gone: seq<Token>, q: seq<Token>, indents: seq<int>, indent: int, t: Token, pos: nat)
    requires Sound(gone, q, indents, indent) && Step(t.kind) >= 0 && pos <= |q|
    ensures var q' := q[..pos] + [t] + q[pos..]; Nested(gone + q') && Depth(gone + q') == |indents| + Step(t.kind)
    ensures Step(t.kind) == 0 ==> Sound(gone, q[..pos] + [t] + q[pos..], indents, indent)
  {
    hide Nested, Depth, Chain;
    assert (gone + q[..pos]) + q[pos..] == gone + q;
    NestedInsert(gone + q[..pos], t, q[pos..]);
    DepthInsert(gone + q[..pos], t, q[pos..]);
    assert gone + (q[..pos] + [t] + q[pos..]) == (gone + q[..pos]) + [t] + q[pos..];
  }

  lemma SoundOpen(gone: seq<Token>, q: seq<Token>, indents: seq<int>, indent: int, t: Token, pos: nat, column: int)
    requires Sound(gone, q, indents, indent) && Step(t.kind) == 1 && pos <= |q| && indent < column
    ensures Sound(gone, q[..pos] + [t] + q[pos..], indents + [indent], column)
  {
    SoundInsert(gone, q, indents, indent, t, pos);
    ChainPush(indents, indent, column);
  }

  lemma SoundClose(gone: seq<Token>, q: seq<Token>, indents: seq<int>, indent: int, t: Token)
    requires Sound(gone, q, indents, indent) && t.kind == BlockEnd && indent > -1
    ensures indents != [] && Sound(gone, q + [t], indents[..|indents| - 1], indents[|indents| - 1])
  {
    hide Nested, Depth;
    ChainPop(indents, indent);
    NestedAppend(gone + q, t);
    DepthAppend(gone + q, t);
    assert gone + (q + [t]) == (gone + q) + [t];
  }

  lemma SoundHanded(gone: seq<Token>, q: seq<Token>, indents: seq<int>, indent: int)
    requires Sound(gone, q, indents, indent) && q != []
    ensures Sound(gone + [q[0]], q[1..], indents, indent)
  {
    assert (gone + [q[0]]) + q[1..] == gone + q;
  }

  lemma {:induction false} ChainFloor(indents: seq<int>, indent: int, i: nat)
    requires Chain(indents, indent) && i < |indents|
    ensures indents[i] >= -1
  {
    if i > 0 {
      ChainFloor(indents, indent, i - 1);
      assert indents[i - 1] < indents[i - 1 + 1];
    }
  }

  lemma SoundFloor(gone: seq<Token>, q: seq<Token>, indents: seq<int>, indent: int)
    requires Sound(gone, q, indents, indent) && indent <= -1
    ensures indents == []
  {
    if indents != [] { ChainFloor(indents, indent, |indents| - 1); }
  }

  // ------------------------------------------------------------------------------ scanner

  class Scanner {
    var ahead: seq<Lexeme>
    var mark: Mark
    var started: bool
    var tokens: seq<Token>
    var head: nat
    var cap: nat
    var parsed: nat
    var available: bool
    var keys: seq<SimpleKey>
    var allowed: bool
    var flow: nat
    var indent: int
    var indents: seq<int>
    // The tokens handed to the parser so far.
    ghost var gone: seq<Token>

    function Queue(): seq<Token>
      requires head <= |tokens|
      reads this`tokens, this`head
    {
      tokens[head..]
    }

    /** The queue, and everything ever queued, in order. */
    ghost predicate Books()
      reads this`tokens, this`head, this`cap, this`parsed, this`gone, this`indents, this`indent, this`started
    {
      head <= |tokens| <= cap && parsed == |gone| && (started ==> Sound(gone, Queue(), indents, indent))
    }

    ghost predicate Keys()
      requires head <= |tokens|
      reads this`tokens, this`head, this`parsed, this`keys, this`flow, this`mark
    {
      KeysPlaced(keys, parsed, Queue(), mark) && |keys| == flow + 1
    }

    ghost predicate Valid()
      reads this
    {
      && Books()
      && (started ==> Keys() && KeysQueued(keys, parsed, Queue()))
      && (!started ==> tokens == [] && gone == [] && keys == [] && flow == 0 && indents == [])
      && (available ==> started && Queue() != [] && HeadFree()) && AllSpelled(ahead)
      && Closing(gone + Queue(), flow, indents, ahead)
    }

    /** No possible key stands at the head of the queue. */
    ghost predicate HeadFree()
      reads this`keys, this`parsed
    {
      forall i :: 0 <= i < |keys| && keys[i].possible ==> keys[i].number != parsed
    }

    /** Moves the queue to the front of a full buffer. */
    method Compact()
      requires head <= |tokens| <= cap
      modifies this`tokens, this`head
      ensures head <= |tokens| <= cap && Queue() == old(Queue())
    {
      if head > 0 && |tokens| == cap {
        tokens := tokens[head..];
        head := 0;
      }
    }

    /** yaml_insert_token: appends the token, or shifts the queue from pos on to make room for it there. */
    method InsertToken(pos: int, t: Token)
      requires head <= |tokens| <= cap && pos <= |Queue()|
      modifies this`tokens, this`head, this`cap
      ensures head <= |tokens| <= cap
      ensures Queue() == if pos < 0 then old(Queue()) + [t] else old(Queue())[..pos] + [t] + old(Queue())[pos..]
    {
      Compact();
      if |tokens| == cap { cap := 2 * cap + 1; }
      Shifted(tokens, head, if pos < 0 then 0 else pos, t);
      tokens := tokens + [t];
      if pos < 0 { return; }
      tokens := tokens[..head + pos] + [t] + tokens[head + pos..|tokens| - 1];
    }

    constructor (text: seq<Lexeme>)
      requires AllSpelled(text)
      ensures Valid() && !started && gone == [] && ahead == text
    {
      ahead, mark, started, available, allowed := text, Mark(0, 0, 0), false, false, false;
      tokens, head, cap, parsed, keys, flow, indent, indents, gone := [], 0, 0, 0, [], 0, 0, [], [];
    }

    /** Appends a token that starts at the current position and moves past it. */
    method Emit(kind: Kind, finish: Mark)
      requires started && Books() && Keys() && Step(kind) == 0
      requires BeginsNode(kind) || KeysQueued(keys, parsed, Queue())
      modifies this`mark, this`tokens, this`head, this`cap
      ensures Books() && Keys() && KeysQueued(keys, parsed, Queue())
      ensures Queue() == old(Queue()) + [Token(kind, old(mark))] && mark == finish
    {
      hide KeysPlaced, KeysQueued, Sound;
      var t := Token(kind, mark);
      KeysAppend(keys, parsed, Queue(), mark, t, finish);
      SoundAppend(gone, Queue(), indents, indent, t);
      mark := finish;
      InsertToken(-1, t);
    }

    /** roll_indent: a deeper column in block context opens a block, at the end of the queue or at token `number`. */
    method RollIndent(column: nat, number: int, kind: Kind, at: Mark)
      requires started && Books() && Step(kind) == 1 && (number == -1 || parsed <= number <= parsed + |Queue()|)
      modifies this`indents, this`indent, this`tokens, this`head, this`cap
      ensures Books()
      ensures var t, q := Token(kind, at), old(Queue());
        if flow > 0 || old(indent) >= column then Queue() == q && indent == old(indent) && indents == old(indents)
        else && indent == column && indents == old(indents) + [old(indent)]
             && Queue() == if number == -1 then q + [t] else q[..number - parsed] + [t] + q[number - parsed..]
    {
      hide Sound;
      if flow > 0 { return; }
      if indent < column {
        ghost var q := Queue();
        var t := Token(kind, at);
        SoundOpen(gone, q, indents, indent, t, if number == -1 then |q| else number - parsed, column);
        assert q[..|q|] == q && q[..|q|] + [t] + q[|q|..] == q + [t];
        indents := indents + [indent];
        indent := column;
        InsertToken(if number > -1 then number - parsed else number, t);
      }
    }

    /** unroll_indent: closes the blocks deeper than the column; the stack is never popped when empty. */
    method UnrollIndent(column: int)
      requires started && Books() && Keys() && KeysQueued(keys, parsed, Queue()) && column >= -1
      modifies this`indents, this`indent, this`tokens, this`head, this`cap
      ensures Books() && Keys() && KeysQueued(keys, parsed, Queue())
      ensures flow > 0 ==> Queue() == old(Queue()) && indent == old(indent)
      ensures flow == 0 ==> indent <= column && indents <= old(indents)
      ensures flow == 0 ==> Queue() == old(Queue()) + Ends(|old(indents)| - |indents|, mark)
    {
      hide KeysPlaced, KeysQueued, Sound, Ends;
      MoreEnds(Queue(), 0, mark);
      if flow > 0 { return; }
      while indent > column
        invariant Books() && Keys() && KeysQueued(keys, parsed, Queue()) && indents <= old(indents)
        invariant Queue() == old(Queue()) + Ends(|old(indents)| - |indents|, mark)
        decreases |indents|
      {
        var t := Token(BlockEnd, mark);
        MoreEnds(old(Queue()), |old(indents)| - |indents|, mark);
        SoundClose(gone, Queue(), indents, indent, t);
        KeysAppend(keys, parsed, Queue(), mark, t, mark);
        InsertToken(-1, t);
        indent := indents[|indents| - 1];
        indents := indents[..|indents| - 1];
      }
    }

    /** stale_simple_keys: keys on an earlier line or too far back are given up; a required one is an error. */
    method StaleSimpleKeys() returns (ok: bool)
      requires Books() && Keys() && KeysQueued(keys, parsed, Queue())
      modifies this`keys
      ensures Keys() && KeysQueued(keys, parsed, Queue()) && |keys| == old(|keys|)
      ensures forall i :: 0 <= i < |keys| && keys[i].possible ==> keys[i] == old(keys[i])
      ensures ok ==> forall i :: 0 <= i < |keys| && keys[i].possible ==>
        keys[i].mark.line >= mark.line && keys[i].mark.index + 1024 >= mark.index
    {
      hide KeysPlaced, KeysQueued, Sound;
      ghost var was := keys;
      var i := 0;
      while i < |keys|
        invariant 0 <= i <= |keys| == |was|
        invariant forall j :: 0 <= j < |keys| && keys[j].possible ==> keys[j] == was[j]
        invariant forall j :: i <= j < |keys| ==> keys[j] == was[j]
        invariant forall j :: 0 <= j < i && keys[j].possible ==>
          keys[j].mark.line >= mark.line && keys[j].mark.index + 1024 >= mark.index
      {
        var k := keys[i];
        if k.possible && (k.mark.line < mark.line || k.mark.index + 1024 < mark.index) {
          if k.required {
            KeysCleared(was, keys, parsed, Queue(), mark);
            return false;
          }
          keys := keys[i := k.(possible := false)];
        }
        i := i + 1;
      }
      KeysCleared(was, keys, parsed, Queue(), mark);
      ok := true;
    }

    /** remove_simple_key: gives up the key of the current flow level, unless it is required. */
    method RemoveSimpleKey() returns (ok: bool)
      requires Books() && Keys() && KeysQueued(keys, parsed, Queue())
      modifies this`keys
      ensures Keys() && KeysQueued(keys, parsed, Queue()) && |keys| == old(|keys|)
      ensures ok ==> !keys[|keys| - 1].possible
      ensures forall i :: 0 <= i < |keys| && keys[i].possible ==> keys[i] == old(keys[i])
    {
      hide KeysPlaced, KeysQueued, Sound;
      var i := |keys| - 1;
      if keys[i].possible && keys[i].required { return false; }
      KeysCleared(keys, keys[i := keys[i].(possible := false)], parsed, Queue(), mark);
      keys := keys[i := keys[i].(possible := false)];
      ok := true;
    }

    /** save_simple_key: the token about to be fetched may be a key. */
    method SaveSimpleKey() returns (status: Status)
      requires Books() && Keys() && KeysQueued(keys, parsed, Queue())
      modifies this`keys
      ensures status == Ok ==> Keys() && |keys| == old(|keys|)
      ensures status == Ok ==> if old(allowed)
        then keys[|keys| - 1] == SimpleKey(true, flow == 0 && indent == mark.column, parsed + |Queue()|, mark)
        else keys == old(keys)
      ensures status == Panic <==> flow == 0 && indent == mark.column && !allowed
    {
      hide KeysPlaced, KeysQueued, Sound;
      var required := flow == 0 && indent == mark.column;
      if required && !allowed { return Panic; }
      if allowed {
        var key := SimpleKey(true, required, parsed + (|tokens| - head), mark);
        var ok := RemoveSimpleKey();
        if !ok { return Error; }
        KeysSaved(keys, parsed, Queue(), mark, key);
        keys := keys[|keys| - 1 := key];
      }
      status := Ok;
    }

    /** Keys and queue are right, and the next token may be fetched. */
    ghost predicate Ready()
      reads this
    {
      started && Books() && Keys() && KeysQueued(keys, parsed, Queue())
    }

    method FetchStreamStart()
      requires Valid() && !started
      modifies this
      ensures Ready() && started && ahead == old(ahead) && gone == old(gone) && available == old(available)
      ensures NoEnd(Queue())
    {
      hide KeysPlaced, KeysQueued, Sound;
      FreshStart(mark);
      indent := -1;
      keys := [NoKey()];
      allowed, started := true, true;
      assert Queue() == [];
      Emit(StreamStart, mark);
    }

    /** Directives, document indicators and the end of the stream close all blocks first. */
    method FetchOutside(kind: Kind, scans: bool, finish: Mark) returns (ok: bool)
      requires Ready() && (kind == Directive || kind == DocumentStart || kind == DocumentEnd || kind == StreamEnd)
      modifies this`indents, this`indent, this`tokens, this`head, this`cap, this`keys, this`allowed, this`mark
      ensures ok ==> Ready() && !allowed && mark == finish && (flow == 0 ==> indents == [])
      ensures ok ==> Queue() == old(Queue()) + (if flow == 0 then Ends(|old(indents)|, old(mark)) else []) + [Token(kind, old(mark))]
    {
      hide KeysPlaced, KeysQueued, Sound, Ends;
      UnrollIndent(-1);
      if flow == 0 { SoundFloor(gone, Queue(), indents, indent); }
      ok := RemoveSimpleKey();
      if !ok { return; }
      allowed := false;
      if !scans { return false; }
      Emit(kind, finish);
    }

    method FetchStreamEnd() returns (ok: bool)
      requires Ready()
      modifies this`indents, this`indent, this`tokens, this`head, this`cap, this`keys, this`allowed, this`mark
      ensures ok ==> Ready() && !allowed && (flow == 0 ==> indents == [])
      ensures ok ==> Queue() == old(Queue()) + (if flow == 0 then Ends(|old(indents)|, mark) else []) + [Token(StreamEnd, mark)]
    {
      hide KeysPlaced, KeysQueued, Sound, Ends;
      if mark.column != 0 {
        MarkFree(keys, parsed, Queue(), mark, Mark(mark.index, mark.line + 1, 0));
        mark := Mark(mark.index, mark.line + 1, 0);
      }
      ok := FetchOutside(StreamEnd, true, mark);
    }

    method FetchFlowStart(kind: Kind, finish: Mark) returns (status: Status)
      requires Ready() && (kind == FlowSequenceStart || kind == FlowMappingStart)
      modifies this`keys, this`flow, this`allowed, this`mark, this`tokens, this`head, this`cap
      ensures status == Ok ==> Ready() && allowed && flow == old(flow) + 1 && mark == finish
      ensures status == Ok ==> Queue() == old(Queue()) + [Token(kind, old(mark))]
    {
      hide KeysPlaced, KeysQueued, Sound;
      status := SaveSimpleKey();
      if status != Ok { return; }
      KeysLevel(keys, parsed, Queue(), mark);
      keys := keys + [NoKey()];
      flow := flow + 1;
      allowed := true;
      Emit(kind, finish);
    }

    method FetchFlowEnd(kind: Kind, finish: Mark) returns (ok: bool)
      requires Ready() && (kind == FlowSequenceEnd || kind == FlowMappingEnd)
      modifies this`keys, this`flow, this`allowed, this`mark, this`tokens, this`head, this`cap
      ensures ok ==> Ready() && !allowed && flow == (if old(flow) > 0 then old(flow) - 1 else 0)
      ensures ok ==> Queue() == old(Queue()) + [Token(kind, old(mark))] && mark == finish
    {
      hide KeysPlaced, KeysQueued, Sound;
      ok := RemoveSimpleKey();
      if !ok { return; }
      if flow > 0 {
        KeysCleared(keys, keys[..|keys| - 1], parsed, Queue(), mark);
        flow := flow - 1;
        keys := keys[..|keys| - 1];
      }
      allowed := false;
      Emit(kind, finish);
    }

    method FetchFlowEntry(finish: Mark) returns (ok: bool)
      requires Ready()
      modifies this`keys, this`allowed, this`mark, this`tokens, this`head, this`cap
      ensures ok ==> Ready() && allowed && Queue() == old(Queue()) + [Token(FlowEntry, old(mark))] && mark == finish
    {
      hide KeysPlaced, KeysQueued, Sound;
      ok := RemoveSimpleKey();
      if !ok { return; }
      allowed := true;
      Emit(FlowEntry, finish);
    }

    /** A block start appended in block context. */
    method OpenBlock(kind: Kind)
      requires Ready() && Step(kind) == 1
      modifies this`indents, this`indent, this`tokens, this`head, this`cap
      ensures Ready() && (flow == 0 ==> indent >= mark.column)
      ensures Queue() == old(Queue()) + Opened(flow, old(indent), kind, mark)
    {
      hide KeysPlaced, KeysQueued, Sound;
      KeysAppend(keys, parsed, Queue(), mark, Token(kind, mark), mark);
      RollIndent(mark.column, -1, kind, mark);
    }

    method FetchBlockEntry(finish: Mark) returns (ok: bool)
      requires Ready()
      modifies this`indents, this`indent, this`keys, this`allowed, this`mark, this`tokens, this`head, this`cap
      ensures ok ==> Ready() && allowed && mark == finish
      ensures ok ==> Queue() == old(Queue()) + Opened(flow, old(indent), BlockSequenceStart, old(mark)) + [Token(BlockEntry, old(mark))]
    {
      hide KeysPlaced, KeysQueued, Sound;
      if flow == 0 {
        if !allowed { return false; }
        OpenBlock(BlockSequenceStart);
      }
      ok := RemoveSimpleKey();
      if !ok { return; }
      allowed := true;
      Emit(BlockEntry, finish);
    }

    method FetchKey(finish: Mark) returns (ok: bool)
      requires Ready()
      modifies this`indents, this`indent, this`keys, this`allowed, this`mark, this`tokens, this`head, this`cap
      ensures ok ==> Ready() && allowed == (flow == 0) && mark == finish
      ensures ok ==> Queue() == old(Queue()) + Opened(flow, old(indent), BlockMappingStart, old(mark)) + [Token(Key, old(mark))]
    {
      hide KeysPlaced, KeysQueued, Sound;
      if flow == 0 {
        if !allowed { return false; }
        OpenBlock(BlockMappingStart);
      }
      ok := RemoveSimpleKey();
      if !ok { return; }
      allowed := flow == 0;
      Emit(Key, finish);
    }

    /** An anchor, an alias, a tag, a quoted or a plain scalar; a line break after a plain one allows a key again. */
    method FetchNode(kind: Kind, broken: bool, scans: bool, finish: Mark) returns (status: Status)
      requires Ready() && (kind == AliasToken || kind == Anchor || kind == Tag || kind == Scalar)
      modifies this`keys, this`allowed, this`mark, this`tokens, this`head, this`cap
      ensures status == Ok ==> Ready() && allowed == broken && mark == finish && Queue() == old(Queue()) + [Token(kind, old(mark))]
    {
      hide KeysPlaced, KeysQueued, Sound;
      status := SaveSimpleKey();
      if status != Ok { return; }
      allowed := false;
      if !scans { return Error; }
      if broken { allowed := true; }
      Emit(kind, finish);
    }

    method FetchBlockScalar(scans: bool, finish: Mark) returns (ok: bool)
      requires Ready()
      modifies this`keys, this`allowed, this`mark, this`tokens, this`head, this`cap
      ensures ok ==> Ready() && allowed && mark == finish && Queue() == old(Queue()) + [Token(Scalar, old(mark))]
    {
      hide KeysPlaced, KeysQueued, Sound;
      ok := RemoveSimpleKey();
      if !ok { return; }
      allowed := true;
      if !scans { return false; }
      Emit(Scalar, finish);
    }

    method InsertKey(pos: nat, at: Mark)
      requires started && Books() && pos <= |Queue()|
      modifies this`tokens, this`head, this`cap
      ensures Books() && Queue() == WithKey(old(Queue()), pos, at, false)
    {
      hide Sound, WithKey;
      var t := Token(Key, at);
      SoundInsert(gone, Queue(), indents, indent, t, pos);
      WithKeySteps(Queue(), pos, at);
      InsertToken(pos, t);
    }

    /**
     * A `:` after a possible simple key: KEY goes in directly before the token the
     * key was saved for, BLOCK-MAPPING-START before that if the key opens a block.
     */
    method FetchSimpleValue()
      requires Ready() && keys[flow].possible
      modifies this`indents, this`indent, this`keys, this`allowed, this`tokens, this`head, this`cap
      ensures Ready() && !allowed && !keys[flow].possible
      ensures var k, q := old(keys[flow]), old(Queue());
        var pos := k.number - parsed;
        && 0 <= pos < |q| && q[pos].start == k.mark && BeginsNode(q[pos].kind)
        && Queue() == WithKey(q, pos, k.mark, flow == 0 && old(indent) < k.mark.column)
    {
      hide KeysPlaced, KeysQueued, Sound, WithKey, BeginsNode;
      var k := keys[flow];
      ValueKeys(keys, parsed, Queue(), mark);
      InsertKey(k.number - parsed, k.mark);
      RollIndent(k.mark.column, k.number, BlockMappingStart, k.mark);
      keys := keys[flow := k.(possible := false)];
      allowed := false;
    }

    method FetchValue(finish: Mark) returns (ok: bool)
      requires Ready()
      modifies this`indents, this`indent, this`keys, this`allowed, this`mark, this`tokens, this`head, this`cap
      ensures ok ==> Ready() && mark == finish
      ensures ok && !old(keys[flow].possible) ==>
        Queue() == old(Queue()) + Opened(flow, old(indent), BlockMappingStart, old(mark)) + [Token(Value, old(mark))] && allowed == (flow == 0)
      ensures ok && old(keys[flow].possible) ==>
        var k, q := old(keys[flow]), old(Queue());
        && parsed <= k.number < parsed + |q| && !allowed
        && Queue() == WithKey(q, k.number - parsed, k.mark, flow == 0 && old(indent) < k.mark.column) + [Token(Value, old(mark))]
    {
      hide KeysPlaced, KeysQueued, Sound, WithKey, BeginsNode;
      if keys[flow].possible {
        FetchSimpleValue();
      } else {
        if flow == 0 {
          if !allowed { return false; }
          OpenBlock(BlockMappingStart);
        }
        allowed := flow == 0;
      }
      Emit(Value, finish);
      ok := true;
    }

    /** The dispatcher, once the position is at the next token. */
    method Dispatch(x: Lexeme) returns (status: Status)
      requires Ready() && Spelled(x.shape)
      modifies this`indents, this`indent, this`keys, this`flow, this`allowed, this`mark, this`tokens, this`head, this`cap
      ensures status == Ok ==> Ready() && Queue() != [] && Queue()[|Queue()| - 1].kind == KindOf(x.shape)
      ensures status == Ok && x.shape == End ==> flow == old(flow) && (flow == 0 ==> indents == [])
      ensures status == Ok && x.shape == End ==>
        Queue() == old(Queue()) + (if flow == 0 then Ends(|old(indents)|, mark) else []) + [Token(StreamEnd, mark)]
      ensures status == Ok && x.shape != End && old(NoEnd(Queue())) ==> NoEnd(Queue())
    {
      hide KeysPlaced, KeysQueued, Sound, WithKey, Ends, Opened, NoEnd;
      var ok := true;
      match x.shape {
        case End => ok := FetchStreamEnd();
        case Percent =>
          NoEndOutside(Queue(), flow, |indents|, mark, Directive);
          ok := FetchOutside(Directive, x.scans, x.finish);
        case Document(k) =>
          NoEndOutside(Queue(), flow, |indents|, mark, k);
          ok := FetchOutside(k, true, x.finish);
        case Unknown => ok := false;
        case _ =>
          status := DispatchContent(x);
          return;
      }
      status := if ok then Ok else Error;
    }

    /** Everything inside a document. */
    method DispatchContent(x: Lexeme) returns (status: Status)
      requires Ready() && Spelled(x.shape) && !x.shape.End? && !x.shape.Percent? && !x.shape.Document? && !x.shape.Unknown?
      modifies this`indents, this`indent, this`keys, this`flow, this`allowed, this`mark, this`tokens, this`head, this`cap
      ensures status == Ok ==> Ready() && Queue() != [] && Queue()[|Queue()| - 1].kind == KindOf(x.shape)
      ensures status == Ok && old(NoEnd(Queue())) ==> NoEnd(Queue())
    {
      hide KeysPlaced, KeysQueued, Sound, WithKey, Ends, Opened, NoEnd;
      ghost var q, at := Queue(), mark;
      NoEndOne(q, KindOf(x.shape), at);
      var ok := true;
      match x.shape {
        case FlowOpen(k) =>
          status := FetchFlowStart(k, x.finish);
          return;
        case FlowClose(k) => ok := FetchFlowEnd(k, x.finish);
        case Comma => ok := FetchFlowEntry(x.finish);
        case Dash =>
          NoEndOpened(q, flow, indent, BlockSequenceStart, at, BlockEntry);
          ok := FetchBlockEntry(x.finish);
        case Question =>
          NoEndOpened(q, flow, indent, BlockMappingStart, at, Key);
          ok := FetchKey(x.finish);
        case Colon => ok := FetchColon(x.finish);
        case Node(k, broken) =>
          status := FetchNode(k, broken, x.scans, x.finish);
          return;
        case BlockScalar => ok := FetchBlockScalar(x.scans, x.finish);
      }
      status := if ok then Ok else Error;
    }

    method FetchColon(finish: Mark) returns (ok: bool)
      requires Ready()
      modifies this`indents, this`indent, this`keys, this`allowed, this`mark, this`tokens, this`head, this`cap
      ensures ok ==> Ready() && Queue() != [] && Queue()[|Queue()| - 1].kind == Value
      ensures ok && old(NoEnd(Queue())) ==> NoEnd(Queue())
    {
      hide KeysPlaced, KeysQueued, Sound, WithKey, Opened, NoEnd;
      ghost var q, at, key, was := Queue(), mark, keys[flow], indent;
      NoEndOpened(q, flow, indent, BlockMappingStart, at, Value);
      ok := FetchValue(finish);
      if ok && key.possible && NoEnd(q) {
        NoEndKey(q, key.number - parsed, key.mark, flow == 0 && was < key.mark.column, at);
      }
    }

    /** fetch_next_token: skips to the next token, gives up stale keys, closes deeper blocks, and dispatches. */
    method FetchNextToken() returns (status: Status)
      requires Valid() && !available
      modifies this
      ensures gone == old(gone) && !available
      ensures status == Ok ==> Valid() && started && Rest() < old(Rest())
    {
      hide KeysPlaced, KeysQueued, Sound, Spelled, Closing, AllSpelled;
      if !started {
        FetchStreamStart();
        NotEnded(Queue(), flow, indents, ahead);
        return Ok;
      }
      if ahead == [] { return Error; }
      TextRest(ahead);
      var x := ahead[0];
      ahead := ahead[1..];
      status := FetchLexeme(x, old(ahead));
    }

    /** The next token of the text, once it is found. */
    method FetchLexeme(x: Lexeme, ghost text: seq<Lexeme>) returns (status: Status)
      requires Ready() && Spelled(x.shape) && text == [x] + ahead && AllSpelled(text)
      requires Closing(gone + Queue(), flow, indents, text)
      modifies this`indents, this`indent, this`keys, this`flow, this`allowed, this`mark, this`tokens, this`head, this`cap
      ensures status == Ok ==> Ready() && Closing(gone + Queue(), flow, indents, ahead)
    {
      hide KeysPlaced, KeysQueued, Sound, Spelled, Closing, AllSpelled, Ends, NoEnd;
      MarkFree(keys, parsed, Queue(), mark, x.start);
      mark := x.start;
      if x.newline && flow == 0 { allowed := true; }
      var ok := StaleSimpleKeys();
      if !ok { return Error; }
      ghost var q, was, f := Queue(), indents, flow;
      UnrollIndent(mark.column);
      ghost var ends := if flow == 0 then Ends(|was| - |indents|, mark) else [];
      NoEndEnds(if flow == 0 then |was| - |indents| else 0, mark);
      assert Queue() == q + ends;
      if x.shape != End { ClosingMore(gone, q, ends, flow, was, text); }
      ghost var n := |indents|;
      status := Dispatch(x);
      if status != Ok { return; }
      if x.shape == End {
        ghost var more := if flow == 0 then Ends(n, mark) else [];
        NoEndEnds(n, mark);
        NoEndMore(ends, more);
        assert Queue() == q + (ends + more) + [Token(StreamEnd, mark)];
        ClosingEnd(gone, q, ends + more, Token(StreamEnd, mark), flow, was, indents, indent, text);
        assert text[1..] == ahead;
      } else {
        NoEndMore(gone, Queue());
        StillToCome(gone + Queue(), flow, indents, ahead);
      }
    }

    /** The text that is left, the start of the stream counted in. */
    function Rest(): nat
      reads this`ahead, this`started
    {
      |ahead| + if started then 0 else 1
    }

    /** Whether a possible key stands at the head of the queue. */
    method KeyAtHead() returns (found: bool)
      ensures found <==> !HeadFree()
    {
      var i := 0;
      while i < |keys|
        invariant 0 <= i <= |keys| && forall j :: 0 <= j < i && keys[j].possible ==> keys[j].number != parsed
      {
        if keys[i].possible && keys[i].number == parsed { return true; }
        i := i + 1;
      }
      found := false;
    }

    /** fetch_more_tokens: fetches until the head of the queue can no longer turn out to be a simple key. */
    method FetchMoreTokens() returns (status: Status)
      requires Valid() && !available
      modifies this
      ensures gone == old(gone) && (status == Ok ==> Valid() && available)
      ensures status == Ok ==> Rest() < old(Rest()) || (Rest() == old(Rest()) && Queue() == old(Queue()))
    {
      hide KeysPlaced, KeysQueued, Sound, AllSpelled, HeadFree, Closing;
      while true
        invariant Valid() && !available && gone == old(gone)
        invariant Rest() < old(Rest()) || (Rest() == old(Rest()) && Queue() == old(Queue()))
        decreases Rest()
      {
        var need := true;
        if head != |tokens| {
          var ok := StaleSimpleKeys();
          if !ok { return Error; }
          need := KeyAtHead();
        }
        if !need { break; }
        status := FetchNextToken();
        if status != Ok { return; }
      }
      available := true;
      status := Ok;
    }

    /** skip_token: the head of the queue goes to the parser; what was handed out before is never changed. */
    method SkipToken()
      requires Valid() && available
      modifies this`available, this`parsed, this`head, this`gone
      ensures Valid() && !available && gone == old(gone) + [old(Queue())[0]] && Queue() == old(Queue())[1..]
    {
      ghost var q := Queue();
      KeysHanded(keys, parsed, q, mark);
      SoundHanded(gone, q, indents, indent);
      assert (gone + [q[0]]) + q[1..] == gone + q;
      hide KeysPlaced, KeysQueued, Sound, AllSpelled, HeadFree, Closing;
      gone := gone + [q[0]];
      available := false;
      parsed := parsed + 1;
      head := head + 1;
      assert Queue() == q[1..];
    }

    /** Scanning a whole text ends, the tokens handed out nest, and outside flow collections every block that starts ends. */
    method ScanAll() returns (status: Status)
      requires Valid() && !available
      modifies this
      ensures status == Ok ==> Valid() && Nested(gone) && gone != [] && gone[|gone| - 1].kind == StreamEnd
      ensures status == Ok && flow == 0 ==> Depth(gone) == 0
    {
      hide KeysPlaced, KeysQueued, Sound, AllSpelled, HeadFree, Nested, Closing;
      while true
        invariant Valid() && !available
        decreases Rest(), |Queue()|
      {
        status := FetchMoreTokens();
        if status != Ok { return; }
        var t := Queue()[0];
        SkipToken();
        if t.kind == StreamEnd { break; }
      }
      HandedNests(gone, Queue(), indents, indent);
      if flow == 0 { HandedBalances(gone, Queue(), indents, ahead); }
      status := Ok;
    }
  }

  lemma HandedNests(gone: seq<Token>, q: seq<Token>, indents: seq<int>, indent: int)
    requires Sound(gone, q, indents, indent)
    ensures Nested(gone)
  {
    forall k | 0 <= k <= |gone| ensures Depth(gone[..k]) >= 0 { assert gone[..k] == (gone + q)[..k]; }
  }

  lemma HandedBalances(gone: seq<Token>, q: seq<Token>, indents: seq<int>, ahead: seq<Lexeme>)
    requires Closing(gone + q, 0, indents, ahead) && gone != [] && gone[|gone| - 1].kind == StreamEnd
    ensures Depth(gone) == 0
  {
    var s := gone + q;
    assert s[|gone| - 1].kind == StreamEnd && s[..|gone|] == gone;
  }

  /** With no key at the head, handing the head out leaves every key in the queue. */
  lemma KeysHanded(keys: seq<SimpleKey>, parsed: nat, q: seq<Token>, m: Mark)
    requires KeysPlaced(keys, parsed, q, m) && KeysQueued(keys, parsed, q) && q != []
    requires forall i :: 0 <= i < |keys| && keys[i].possible ==> keys[i].number != parsed
    ensures KeysPlaced(keys, parsed + 1, q[1..], m) && KeysQueued(keys, parsed + 1, q[1..])
  {
  }

  /** The queue with KEY, and perhaps BLOCK-MAPPING-START before it, put in at pos. */
  function WithKey(q: seq<Token>, pos: nat, at: Mark, opens: bool): seq<Token>
    requires pos <= |q|
  {
    q[..pos] + (if opens then [Token(BlockMappingStart, at)] else []) + [Token(Key, at)] + q[pos..]
  }

  lemma WithKeySteps(q: seq<Token>, pos: nat, at: Mark)
    requires pos <= |q|
    ensures WithKey(q, pos, at, false) == q[..pos] + [Token(Key, at)] + q[pos..]
    ensures var q1 := WithKey(q, pos, at, false); WithKey(q, pos, at, true) == q1[..pos] + [Token(BlockMappingStart, at)] + q1[pos..]
  {
  }

  /** What a `:` needs to know of the top key, and what both insertions leave of the others. */
  lemma ValueKeys(keys: seq<SimpleKey>, parsed: nat, q: seq<Token>, m: Mark)
    requires keys != [] && keys[|keys| - 1].possible && KeysPlaced(keys, parsed, q, m) && KeysQueued(keys, parsed, q)
    ensures var k := keys[|keys| - 1];
      && parsed <= k.number < parsed + |q| && q[k.number - parsed].start == k.mark && BeginsNode(q[k.number - parsed].kind)
    ensures var k := keys[|keys| - 1];
      var rest, pos := keys[|keys| - 1 := k.(possible := false)], k.number - parsed;
      var q1, q2 := WithKey(q, pos, k.mark, false), WithKey(q, pos, k.mark, true);
      && q1 == q[..pos] + [Token(Key, k.mark)] + q[pos..] && q2 == q1[..pos] + [Token(BlockMappingStart, k.mark)] + q1[pos..]
      && KeysPlaced(rest, parsed, q1, m) && KeysQueued(rest, parsed, q1)
      && KeysPlaced(rest, parsed, q2, m) && KeysQueued(rest, parsed, q2)
  {
    TopKey(keys, parsed, q, m);
    var k := keys[|keys| - 1];
    var rest, pos := keys[|keys| - 1 := k.(possible := false)], k.number - parsed;
    KeysCleared(keys, rest, parsed, q, m);
    hide KeysPlaced, KeysQueued, BeginsNode;
    WithKeySteps(q, pos, k.mark);
    KeysInsert(rest, parsed, q, m, Token(Key, k.mark), pos);
    KeysInsert(rest, parsed, WithKey(q, pos, k.mark, false), m, Token(BlockMappingStart, k.mark), pos);
  }

  lemma FreshStart(m: Mark)
    ensures Sound([], [], [], -1) && KeysPlaced([NoKey()], 0, [], m) && KeysQueued([NoKey()], 0, [])
  {
    var none: seq<Token> := [];
    assert none + none == none;
  }

  lemma KeysLevel(keys: seq<SimpleKey>, parsed: nat, q: seq<Token>, m: Mark)
    requires KeysPlaced(keys, parsed, q, m)
    ensures KeysPlaced(keys + [NoKey()], parsed, q, m)
  {
  }

  lemma Shifted(tokens: seq<Token>, head: nat, pos: nat, t: Token)
    requires head + pos <= |tokens|
    ensures (tokens + [t])[head..] == tokens[head..] + [t]
    ensures var s := tokens + [t];
      (s[..head + pos] + [t] + s[head + pos..|s| - 1])[head..] == tokens[head..][..pos] + [t] + tokens[head..][pos..]
  {
  }

  /** The key of the current flow level is behind all others. */
  lemma TopKey(keys: seq<SimpleKey>, parsed: nat, q: seq<Token>, m: Mark)
    requires keys != [] && keys[|keys| - 1].possible && KeysPlaced(keys, parsed, q, m) && KeysQueued(keys, parsed, q)
    ensures var k := keys[|keys| - 1];
      && parsed <= k.number < parsed + |q| && q[k.number - parsed].start == k.mark && BeginsNode(q[k.number - parsed].kind)
      && forall i :: 0 <= i < |keys| - 1 && keys[i].possible ==> keys[i].number < k.number
  {
  }

  lemma NestedStays(all: seq<Token>, t: Token)
    requires Nested(all) && Step(t.kind) == 0
    ensures Nested(all + [t]) && Depth(all + [t]) == Depth(all)
  {
    assert all[..|all|] == all;
    DepthAppend(all, t);
    NestedAppend(all, t);
  }
}
