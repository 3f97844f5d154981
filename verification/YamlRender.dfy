/**
 * Tokens that spell out a document, in block or flow form as its events say, and the proof
 * that the parser turns them back into exactly the document's events.
 */
module YamlRender {
  import opened YamlEvents
  import opened YamlMachine

  // -------------------------------------------------------------- what tokens can say

  /** Tokens can say this: whether a tag is implied follows from the tag and the quoting. */
  predicate Sayable(e: Event) {
    match e
    case Alias(_) => true
    case Scalar(_, tag, _, plain, quoted) =>
      if tag == "" then plain != quoted else if tag == "!" then plain && !quoted else !plain && !quoted
    case SequenceStart(_, tag, implicit, _) => implicit == (tag == "")
    case MappingStart(_, tag, implicit, _) => implicit == (tag == "")
    case _ => false
  }

  /** A tree that tokens can say; in a flow collection everything is in flow form. */
  ghost predicate SayableNode(n: Node, flow: bool) {
    match n
    case Leaf(e) => Sayable(e) && (e.Alias? || e.Scalar?)
    case Seq(e, cs) =>
      Sayable(e) && e.SequenceStart? && (flow ==> e.flow) && forall i :: 0 <= i < |cs| ==> SayableNode(cs[i], e.flow)
    case Map(e, cs) =>
      && Sayable(e) && e.MappingStart? && (flow ==> e.flow) && |cs| % 2 == 0
      && forall i :: 0 <= i < |cs| ==> SayableNode(cs[i], e.flow)
  }

  datatype Form = FlowSequence | BlockSequence | FlowMapping | BlockMapping

  function FormOf(e: Event): Form
    requires e.SequenceStart? || e.MappingStart?
  {
    if e.SequenceStart? then (if e.flow then FlowSequence else BlockSequence)
    else if e.flow then FlowMapping else BlockMapping
  }

  function Opening(f: Form): Token {
    match f
    case FlowSequence => TFlowSequenceStart
    case BlockSequence => TBlockSequenceStart
    case FlowMapping => TFlowMappingStart
    case BlockMapping => TBlockMappingStart
  }

  function Ending(f: Form): Token {
    match f
    case FlowSequence => TFlowSequenceEnd
    case BlockSequence => TBlockEnd
    case FlowMapping => TFlowMappingEnd
    case BlockMapping => TBlockEnd
  }

  /** What stands before child number i. */
  function Lead(f: Form, i: nat): seq<Token> {
    match f
    case FlowSequence => if i == 0 then [] else [TFlowEntry]
    case BlockSequence => [TBlockEntry]
    case FlowMapping => if i % 2 == 1 then [TValue] else if i == 0 then [TKey] else [TFlowEntry, TKey]
    case BlockMapping => if i % 2 == 1 then [TValue] else [TKey]
  }

  function PropTokens(anchor: Option<string>, tag: string): seq<Token> {
    (if anchor.Some? then [TAnchor(anchor.value)] else []) + (if tag == "" then [] else [TTag("", tag)])
  }

  function NodeTokens(n: Node): seq<Token> {
    match n
    case Leaf(e) =>
      if e.Alias? then [TAlias(e.name)]
      else if e.Scalar? then PropTokens(e.anchor, e.tag) + [TScalar(e.value, e.plainImplicit)]
      else []
    case Seq(e, cs) => if e.SequenceStart? then CollectionTokens(e.anchor, e.tag, FormOf(e), cs) else []
    case Map(e, cs) => if e.MappingStart? then CollectionTokens(e.anchor, e.tag, FormOf(e), cs) else []
  }

  function CollectionTokens(anchor: Option<string>, tag: string, f: Form, cs: seq<Node>): seq<Token>
    decreases cs, 1
  {
    PropTokens(anchor, tag) + [Opening(f)] + ChildTokens(f, cs) + [Ending(f)]
  }

  function ChildTokens(f: Form, cs: seq<Node>): seq<Token>
    decreases cs, 0
  {
    if cs == [] then [] else ChildTokens(f, cs[..|cs| - 1]) + Lead(f, |cs| - 1) + NodeTokens(cs[|cs| - 1])
  }

  // ------------------------------------------------------------------ places in the tokens

  /** These tokens stand there. */
  ghost predicate Stands(ts: seq<Token>, h: nat, s: seq<Token>) { h + |s| <= |ts| && ts[h..h + |s|] == s }

  lemma StandsSplit(ts: seq<Token>, h: nat, a: seq<Token>, b: seq<Token>)
    requires Stands(ts, h, a + b)
    ensures Stands(ts, h, a) && Stands(ts, h + |a|, b)
  {
    assert ts[h..h + |a|] == (a + b)[..|a|];
    assert ts[h + |a|..h + |a| + |b|] == (a + b)[|a|..];
  }

  lemma StandsPrefix(ts: seq<Token>, h: nat, a: seq<Token>, b: seq<Token>)
    requires Stands(ts, h, a + b) && b != []
    ensures Stands(ts, h, a + [b[0]])
  {
    assert a + b == (a + [b[0]]) + b[1..];
    StandsSplit(ts, h, a + [b[0]], b[1..]);
  }

  lemma StandsFirst(ts: seq<Token>, h: nat, s: seq<Token>)
    requires Stands(ts, h, s) && s != []
    ensures At(ts, h) == Some(s[0])
  {
    assert ts[h..h + |s|][0] == s[0];
  }

  lemma StandsTwo(ts: seq<Token>, h: nat, s: seq<Token>)
    requires Stands(ts, h, s) && |s| >= 2
    ensures At(ts, h + 1) == Some(s[1])
  {
    assert ts[h..h + |s|][1] == s[1];
  }

  predicate NodeStarts(t: Token) {
    || t.TAlias? || t.TAnchor? || t.TTag? || t.TScalar? || t.TFlowSequenceStart? || t.TFlowMappingStart?
    || t.TBlockSequenceStart? || t.TBlockMappingStart?
  }

  lemma NodeStart(n: Node, flow: bool)
    requires SayableNode(n, flow)
    ensures NodeTokens(n) != [] && NodeStarts(NodeTokens(n)[0])
  {
    hide ChildTokens;
  }

  /** Properties are read back. */
  lemma PropsRead(ts: seq<Token>, h: nat, anchor: Option<string>, tag: string, next: Token, tags: seq<(string, string)>)
    requires Stands(ts, h, PropTokens(anchor, tag) + [next]) && !next.TAnchor? && !next.TTag?
    ensures PropsAt(ts, h).anchor == anchor && PropsAt(ts, h).head == h + |PropTokens(anchor, tag)| < |ts|
    ensures TagOf(PropsAt(ts, h), tags) == Some(tag) && At(ts, h).Some?
    ensures next.TAlias? || !At(ts, h).value.TAlias?
    ensures ts[PropsAt(ts, h).head] == next
  {
    var s := PropTokens(anchor, tag) + [next];
    StandsFirst(ts, h, s);
    if |s| >= 2 { StandsTwo(ts, h, s); }
    if |s| >= 3 { assert ts[h..h + |s|][2] == s[2]; }
  }

  // --------------------------------------------------------------------- runs that begin here

  /** An event, and then the rest of them. */
  ghost predicate Begins(ts: seq<Token>, out: Outcome, es: seq<Event>, after: Machine) {
    out.Next? && es != [] && out.event == es[0] && Produces(ts, out.rest, es[1..], after)
  }

  lemma BeginsProduces(ts: seq<Token>, m: Machine, es: seq<Event>, after: Machine)
    requires Begins(ts, EventAt(ts, m), es, after)
    ensures Produces(ts, m, es, after)
  {
  }

  lemma ProducesNothing(ts: seq<Token>, m: Machine)
    ensures Produces(ts, m, [], m)
  {
  }

  lemma ProducesOne(ts: seq<Token>, m: Machine, e: Event, after: Machine)
    requires EventAt(ts, m) == Next(e, after)
    ensures Produces(ts, m, [e], after)
  {
    hide EventAt;
    assert [e][1..] == [];
    ProducesNothing(ts, after);
  }

  /** The state in a collection before child number i. */
  function Waits(f: Form, i: nat): State {
    match f
    case FlowSequence => if i == 0 then FlowSequenceFirstEntryS else FlowSequenceEntryS
    case BlockSequence => if i == 0 then BlockSequenceFirstEntryS else BlockSequenceEntryS
    case FlowMapping => if i % 2 == 1 then FlowMappingValueS else if i == 0 then FlowMappingFirstKeyS else FlowMappingKeyS
    case BlockMapping => if i % 2 == 1 then BlockMappingValueS else if i == 0 then BlockMappingFirstKeyS else BlockMappingKeyS
  }

  predicate InFlow(f: Form) { f == FlowSequence || f == FlowMapping }

  /** The machine in a collection whose opening token is at `o`, after the children so far. */
  function Amid(f: Form, m: Machine, o: nat, cs: seq<Node>): Machine {
    m.(state := Waits(f, |cs|), head := if cs == [] then o else o + 1 + |ChildTokens(f, cs)|)
  }

  /** Before a child the machine goes on to parse a node. */
  lemma ChildBegins(ts: seq<Token>, f: Form, m: Machine, i: nat, h: nat, t: Token)
    requires m.state == Waits(f, i) && h == (if i == 0 then m.head + 1 else m.head)
    requires Stands(ts, h, Lead(f, i) + [t]) && NodeStarts(t)
    ensures EventAt(ts, m) == NodeAt(ts, Into(m, h + |Lead(f, i)|, Waits(f, i + 1)), !InFlow(f), f == BlockMapping)
  {
    hide NodeAt, FlowSequenceEntryAt, BlockSequenceItemAt, FlowMappingValueAt, FlowMappingEntryAt, BlockMappingValueAt,
         BlockMappingItemAt, Stands, NodeStarts;
    SameHead(m);
    match f
    case FlowSequence => FlowItemBegins(ts, m, i, h, t);
    case BlockSequence => BlockItemBegins(ts, m, i, h, t);
    case FlowMapping => if i % 2 == 1 { FlowValueBegins(ts, m, h, t); } else { FlowKeyBegins(ts, m, i, h, t); }
    case BlockMapping => if i % 2 == 1 { BlockValueBegins(ts, m, h, t); } else { BlockKeyBegins(ts, m, i, h, t); }
  }

  lemma SameHead(m: Machine)
    ensures m.(head := m.head) == m
  {
  }

  lemma FlowItemBegins(ts: seq<Token>, m: Machine, i: nat, h: nat, t: Token)
    requires h == (if i == 0 then m.head + 1 else m.head)
    requires Stands(ts, h, Lead(FlowSequence, i) + [t]) && NodeStarts(t)
    ensures FlowSequenceEntryAt(ts, m.(head := h), i == 0) ==
      NodeAt(ts, Into(m, h + |Lead(FlowSequence, i)|, FlowSequenceEntryS), false, false)
  {
    hide NodeAt;
    var s := Lead(FlowSequence, i) + [t];
    StandsFirst(ts, h, s);
    if i > 0 { StandsTwo(ts, h, s); }
  }

  lemma BlockItemBegins(ts: seq<Token>, m: Machine, i: nat, h: nat, t: Token)
    requires Stands(ts, h, [TBlockEntry] + [t]) && NodeStarts(t)
    ensures BlockSequenceItemAt(ts, m.(head := h)) == NodeAt(ts, Into(m, h + 1, BlockSequenceEntryS), true, false)
  {
    hide NodeAt;
    StandsFirst(ts, h, [TBlockEntry] + [t]);
    StandsTwo(ts, h, [TBlockEntry] + [t]);
  }

  lemma FlowValueBegins(ts: seq<Token>, m: Machine, h: nat, t: Token)
    requires Stands(ts, h, [TValue] + [t]) && NodeStarts(t)
    ensures FlowMappingValueAt(ts, m.(head := h), false) == NodeAt(ts, Into(m, h + 1, FlowMappingKeyS), false, false)
  {
    hide NodeAt;
    StandsFirst(ts, h, [TValue] + [t]);
    StandsTwo(ts, h, [TValue] + [t]);
  }

  lemma FlowKeyBegins(ts: seq<Token>, m: Machine, i: nat, h: nat, t: Token)
    requires i % 2 == 0 && Stands(ts, h, Lead(FlowMapping, i) + [t]) && NodeStarts(t)
    ensures FlowMappingEntryAt(ts, m.(head := h), i == 0) ==
      NodeAt(ts, Into(m, h + |Lead(FlowMapping, i)|, FlowMappingValueS), false, false)
  {
    hide NodeAt;
    var s := Lead(FlowMapping, i) + [t];
    StandsFirst(ts, h, s);
    StandsTwo(ts, h, s);
    if i > 0 { assert ts[h..h + |s|][2] == s[2]; }
  }

  lemma BlockValueBegins(ts: seq<Token>, m: Machine, h: nat, t: Token)
    requires Stands(ts, h, [TValue] + [t]) && NodeStarts(t)
    ensures BlockMappingValueAt(ts, m.(head := h)) == NodeAt(ts, Into(m, h + 1, BlockMappingKeyS), true, true)
  {
    hide NodeAt;
    StandsFirst(ts, h, [TValue] + [t]);
    StandsTwo(ts, h, [TValue] + [t]);
  }

  lemma BlockKeyBegins(ts: seq<Token>, m: Machine, i: nat, h: nat, t: Token)
    requires Stands(ts, h, [TKey] + [t]) && NodeStarts(t)
    ensures BlockMappingItemAt(ts, m.(head := h)) == NodeAt(ts, Into(m, h + 1, BlockMappingValueS), true, true)
  {
    hide NodeAt;
    StandsFirst(ts, h, [TKey] + [t]);
    StandsTwo(ts, h, [TKey] + [t]);
  }

  /** After the children the collection ends. */
  lemma CollectionEnds(ts: seq<Token>, f: Form, m: Machine, n: nat, h: nat)
    requires m.state == Waits(f, n) && h == (if n == 0 then m.head + 1 else m.head) && m.states != []
    requires Stands(ts, h, [Ending(f)]) && (f == FlowMapping || f == BlockMapping ==> n % 2 == 0)
    ensures EventAt(ts, m) == Next(if f == FlowSequence || f == BlockSequence then SequenceEnd else MappingEnd, Back(m, h + 1))
  {
    hide NodeAt;
    StandsFirst(ts, h, [Ending(f)]);
  }

  lemma SameBack(m: Machine, n: Machine, h: nat)
    requires m.states == n.states != [] && m.tags == n.tags
    ensures Back(m, h) == Back(n, h)
  {
  }

  // --------------------------------------------------------------------- nodes and children

  /** The tokens of a node give its events, and the machine comes back behind them. */
  lemma {:induction false} NodeParses(ts: seq<Token>, m: Machine, n: Node, block: bool, indentless: bool)
    requires SayableNode(n, !block) && Stands(ts, m.head, NodeTokens(n)) && m.states != []
    ensures Begins(ts, NodeAt(ts, m, block, indentless), Flatten(n), Back(m, m.head + |NodeTokens(n)|))
    decreases n, 2
  {
    hide NodeAt, EventAt, Produces, Begins, Stands, ChildTokens, CollectionTokens, FlattenAll, Back;
    match n
    case Leaf(e) => LeafParses(ts, m, e, block, indentless);
    case Seq(e, cs) => CollectionParses(ts, m, e, cs, block, indentless);
    case Map(e, cs) => CollectionParses(ts, m, e, cs, block, indentless);
  }

  lemma LeafParses(ts: seq<Token>, m: Machine, e: Event, block: bool, indentless: bool)
    requires Sayable(e) && (e.Alias? || e.Scalar?) && Stands(ts, m.head, NodeTokens(Leaf(e))) && m.states != []
    ensures Begins(ts, NodeAt(ts, m, block, indentless), [e], Back(m, m.head + |NodeTokens(Leaf(e))|))
  {
    hide EventAt, PropsAt, TagOf, Back, PropTokens;
    assert [e][1..] == [];
    if e.Alias? {
      StandsFirst(ts, m.head, [TAlias(e.name)]);
      ProducesNothing(ts, Back(m, m.head + 1));
    } else {
      PropsRead(ts, m.head, e.anchor, e.tag, TScalar(e.value, e.plainImplicit), m.tags);
      ProducesNothing(ts, Back(m, PropsAt(ts, m.head).head + 1));
    }
  }

  /** A collection opens. */
  lemma CollectionOpens(ts: seq<Token>, m: Machine, e: Event, block: bool, indentless: bool)
    requires Sayable(e) && (e.SequenceStart? || e.MappingStart?) && (!block ==> e.flow)
    requires Stands(ts, m.head, PropTokens(e.anchor, e.tag) + [Opening(FormOf(e))])
    ensures var o := m.head + |PropTokens(e.anchor, e.tag)|;
      NodeAt(ts, m, block, indentless) == Next(e, Amid(FormOf(e), m, o, []))
  {
    hide PropsAt, TagOf, PropTokens;
    PropsRead(ts, m.head, e.anchor, e.tag, Opening(FormOf(e)), m.tags);
  }

  lemma {:induction false} CollectionParses(ts: seq<Token>, m: Machine, e: Event, cs: seq<Node>, block: bool, indentless: bool)
    requires Sayable(e) && (e.SequenceStart? || e.MappingStart?) && (!block ==> e.flow) && m.states != []
    requires (forall i :: 0 <= i < |cs| ==> SayableNode(cs[i], e.flow)) && (e.MappingStart? ==> |cs| % 2 == 0)
    requires Stands(ts, m.head, CollectionTokens(e.anchor, e.tag, FormOf(e), cs))
    ensures var end := if e.SequenceStart? then SequenceEnd else MappingEnd;
      Begins(ts, NodeAt(ts, m, block, indentless), [e] + FlattenAll(cs) + [end],
             Back(m, m.head + |CollectionTokens(e.anchor, e.tag, FormOf(e), cs)|))
    decreases cs, 1
  {
    hide NodeAt, EventAt, PropTokens, ChildTokens, SayableNode, Back, Produces;
    var f := FormOf(e);
    var props, kids := PropTokens(e.anchor, e.tag), ChildTokens(f, cs);
    var o := m.head + |props|;
    StandsSplit(ts, m.head, props + [Opening(f)] + kids, [Ending(f)]);
    StandsSplit(ts, m.head, props + [Opening(f)], kids);
    CollectionOpens(ts, m, e, block, indentless);
    NoChildren(f);
    var start, last := Amid(f, m, o, []), Amid(f, m, o, cs);
    ChildrenParse(ts, f, m, o, cs);
    var end := if e.SequenceStart? then SequenceEnd else MappingEnd;
    CollectionEnds(ts, f, last, |cs|, o + 1 + |kids|);
    SameBack(m, last, o + 1 + |kids| + 1);
    ProducesOne(ts, last, end, Back(m, o + 1 + |kids| + 1));
    ProducesMore(ts, start, FlattenAll(cs), last, [end], Back(m, o + 1 + |kids| + 1));
    assert ([e] + FlattenAll(cs) + [end])[1..] == FlattenAll(cs) + [end];
  }

  lemma NoChildren(f: Form)
    ensures ChildTokens(f, []) == []
  {
  }

  lemma {:induction false} ChildrenParse(ts: seq<Token>, f: Form, m: Machine, o: nat, cs: seq<Node>)
    requires (forall i :: 0 <= i < |cs| ==> SayableNode(cs[i], InFlow(f))) && m.states != []
    requires Stands(ts, o + 1, ChildTokens(f, cs))
    ensures Produces(ts, Amid(f, m, o, []), FlattenAll(cs), Amid(f, m, o, cs))
    decreases cs, 0
  {
    hide NodeAt, EventAt, SayableNode, Produces, Stands, NodeTokens, Lead, Waits, Flatten, ChildTokens;
    NoChildren(f);
    if cs == [] {
      ProducesNothing(ts, Amid(f, m, o, []));
    } else {
      var n := |cs| - 1;
      var before, child := cs[..n], cs[n];
      assert before + [child] == cs;
      var done := ChildTokens(f, before);
      ChildAdded(f, before, child);
      Associates(done, Lead(f, n), NodeTokens(child));
      StandsSplit(ts, o + 1, done, Lead(f, n) + NodeTokens(child));
      ChildrenParse(ts, f, m, o, before);
      NextChild(ts, f, m, o, before, child);
      FlattenAdded(before, child);
      ProducesMore(ts, Amid(f, m, o, []), FlattenAll(before), Amid(f, m, o, before), Flatten(child), Amid(f, m, o, cs));
    }
  }

  lemma Associates(a: seq<Token>, b: seq<Token>, c: seq<Token>)
    ensures a + b + c == a + (b + c)
  {
  }

  lemma FlattenAdded(cs: seq<Node>, child: Node)
    ensures FlattenAll(cs + [child]) == FlattenAll(cs) + Flatten(child)
  {
    hide Flatten;
    assert (cs + [child])[..|cs|] == cs;
  }

  lemma ChildAdded(f: Form, cs: seq<Node>, child: Node)
    ensures ChildTokens(f, cs + [child]) == ChildTokens(f, cs) + Lead(f, |cs|) + NodeTokens(child)
  {
    hide NodeTokens, Lead;
    assert (cs + [child])[..|cs|] == cs;
  }

  lemma {:induction false} NextChild(ts: seq<Token>, f: Form, m: Machine, o: nat, cs: seq<Node>, child: Node)
    requires SayableNode(child, InFlow(f)) && m.states != []
    requires Stands(ts, o + 1 + |ChildTokens(f, cs)|, Lead(f, |cs|) + NodeTokens(child))
    ensures Produces(ts, Amid(f, m, o, cs), Flatten(child), Amid(f, m, o, cs + [child]))
    decreases child, 3
  {
    hide NodeAt, EventAt, SayableNode, Produces, NodeTokens, Lead, Waits, ChildTokens, Flatten, Stands, Begins, Back;
    var at, i := Amid(f, m, o, cs), |cs|;
    var h, t := o + 1 + |ChildTokens(f, cs)|, NodeTokens(child);
    NoChildren(f);
    NodeStart(child, InFlow(f));
    StandsSplit(ts, h, Lead(f, i), t);
    StandsPrefix(ts, h, Lead(f, i), t);
    ChildBegins(ts, f, at, i, h, t[0]);
    var into := Into(at, h + |Lead(f, i)|, Waits(f, i + 1));
    NodeParses(ts, into, child, !InFlow(f), f == BlockMapping);
    BeginsProduces(ts, at, Flatten(child), Back(into, into.head + |t|));
    ComesBack(f, m, o, cs, child);
  }

  /** Behind the child the machine is where the next one is awaited. */
  lemma ComesBack(f: Form, m: Machine, o: nat, cs: seq<Node>, child: Node)
    ensures var into := Into(Amid(f, m, o, cs), o + 1 + |ChildTokens(f, cs)| + |Lead(f, |cs|)|, Waits(f, |cs| + 1));
      Back(into, into.head + |NodeTokens(child)|) == Amid(f, m, o, cs + [child])
  {
    hide ChildTokens, NodeTokens, Lead, Waits;
    ChildAdded(f, cs, child);
    assert (m.states + [Waits(f, |cs| + 1)])[..|m.states|] == m.states;
  }

  // ------------------------------------------------------------------ documents and streams

  ghost predicate SayableDocument(d: Document) {
    d.first == DocumentStart(false) && SayableNode(d.root, false) && d.last.DocumentEnd?
  }

  function DocumentTokens(d: Document): seq<Token> {
    [TDocumentStart] + NodeTokens(d.root) + if d.last == DocumentEnd(true) then [] else [TDocumentEnd]
  }

  function DocumentsTokens(ds: seq<Document>): seq<Token> {
    if ds == [] then [] else DocumentsTokens(ds[..|ds| - 1]) + DocumentTokens(ds[|ds| - 1])
  }

  function StreamTokens(ds: seq<Document>): seq<Token> { [TStreamStart] + DocumentsTokens(ds) + [TStreamEnd] }

  function DocumentEvents(d: Document): seq<Event> { [d.first] + Flatten(d.root) + [d.last] }

  /** Outside any document. */
  predicate Resting(m: Machine) { (m.state == ImplicitDocumentStartS || m.state == DocumentStartS) && m.states == [] }

  lemma DocumentOpens(ts: seq<Token>, m: Machine)
    requires Resting(m) && At(ts, m.head) == Some(TDocumentStart)
    ensures EventAt(ts, m) ==
      Next(DocumentStart(false), Machine(DocumentContentS, [DocumentEndS], m.head + 1, WithDefaults(m.tags)))
  {
    hide WithDefaults, NodeAt;
    assert [] + [DocumentEndS] == [DocumentEndS];
  }

  lemma ContentOpens(ts: seq<Token>, m: Machine, t: Token)
    requires m.state == DocumentContentS && At(ts, m.head) == Some(t) && NodeStarts(t)
    ensures EventAt(ts, m) == NodeAt(ts, m, true, false)
  {
    hide NodeAt;
  }

  lemma DocumentCloses(ts: seq<Token>, m: Machine, e: Event, next: Token)
    requires m.state == DocumentEndS && m.states == [] && e.DocumentEnd? && !next.TDocumentEnd?
    requires Stands(ts, m.head, (if e == DocumentEnd(true) then [] else [TDocumentEnd]) + [next])
    ensures EventAt(ts, m) == Next(e, Machine(DocumentStartS, [], m.head + if e == DocumentEnd(true) then 0 else 1, []))
  {
    hide NodeAt;
    StandsFirst(ts, m.head, (if e == DocumentEnd(true) then [] else [TDocumentEnd]) + [next]);
  }

  /** A document's tokens, with another document or the end after them, give its events. */
  lemma DocumentParses(ts: seq<Token>, m: Machine, d: Document, next: Token)
    requires SayableDocument(d) && Resting(m) && Stands(ts, m.head, DocumentTokens(d) + [next]) && !next.TDocumentEnd?
    ensures Produces(ts, m, DocumentEvents(d), Machine(DocumentStartS, [], m.head + |DocumentTokens(d)|, []))
  {
    hide EventAt, NodeAt, Produces, SayableNode, NodeTokens, Flatten, WithDefaults, Stands;
    var root, tail := NodeTokens(d.root), if d.last == DocumentEnd(true) then [] else [TDocumentEnd];
    assert DocumentTokens(d) + [next] == [TDocumentStart] + (root + (tail + [next]));
    StandsSplit(ts, m.head, [TDocumentStart], root + (tail + [next]));
    StandsSplit(ts, m.head + 1, root, tail + [next]);
    StandsFirst(ts, m.head, [TDocumentStart]);
    DocumentOpens(ts, m);
    var inside := Machine(DocumentContentS, [DocumentEndS], m.head + 1, WithDefaults(m.tags));
    var behind := Machine(DocumentEndS, [], m.head + 1 + |root|, WithDefaults(m.tags));
    var after := Machine(DocumentStartS, [], m.head + |DocumentTokens(d)|, []);
    ProducesOne(ts, m, d.first, inside);
    RootParses(ts, inside, d.root);
    DocumentCloses(ts, behind, d.last, next);
    ProducesOne(ts, behind, d.last, after);
    ProducesMore(ts, m, [d.first], inside, Flatten(d.root), behind);
    ProducesMore(ts, m, [d.first] + Flatten(d.root), behind, [d.last], after);
  }

  lemma RootParses(ts: seq<Token>, m: Machine, n: Node)
    requires m.state == DocumentContentS && m.states == [DocumentEndS]
    requires SayableNode(n, false) && Stands(ts, m.head, NodeTokens(n))
    ensures Produces(ts, m, Flatten(n), Machine(DocumentEndS, [], m.head + |NodeTokens(n)|, m.tags))
  {
    hide EventAt, NodeAt, Produces, SayableNode, NodeTokens, Flatten;
    NodeStart(n, false);
    StandsFirst(ts, m.head, NodeTokens(n));
    ContentOpens(ts, m, NodeTokens(n)[0]);
    NodeParses(ts, m, n, true, false);
    BeginsProduces(ts, m, Flatten(n), Back(m, m.head + |NodeTokens(n)|));
    assert m.states[..0] == [];
  }

  /** The machine after these documents of a stream. */
  function Between(ds: seq<Document>): Machine {
    Machine(if ds == [] then ImplicitDocumentStartS else DocumentStartS, [], 1 + |DocumentsTokens(ds)|, [])
  }

  lemma DocumentAdded(ds: seq<Document>, d: Document)
    ensures DocumentsTokens(ds + [d]) == DocumentsTokens(ds) + DocumentTokens(d)
    ensures FlattenDocuments(ds + [d]) == FlattenDocuments(ds) + DocumentEvents(d)
  {
    hide DocumentTokens, Flatten;
    assert (ds + [d])[..|ds|] == ds;
  }

  lemma DocumentTokensStart(d: Document)
    ensures DocumentTokens(d) != [] && DocumentTokens(d)[0] == TDocumentStart
  {
  }

  lemma {:induction false} DocumentsParse(ts: seq<Token>, ds: seq<Document>, next: Token)
    requires (forall i :: 0 <= i < |ds| ==> SayableDocument(ds[i])) && At(ts, 0) == Some(TStreamStart)
    requires Stands(ts, 1, DocumentsTokens(ds) + [next]) && !next.TDocumentEnd?
    ensures Produces(ts, Between([]), FlattenDocuments(ds), Between(ds))
    decreases |ds|
  {
    hide EventAt, Produces, SayableDocument, DocumentTokens, Stands, DocumentEvents;
    if ds == [] {
      ProducesNothing(ts, Between([]));
    } else {
      var n := |ds| - 1;
      var before, d := ds[..n], ds[n];
      assert before + [d] == ds;
      DocumentAdded(before, d);
      DocumentTokensStart(d);
      var done, own := DocumentsTokens(before), DocumentTokens(d);
      assert done + own + [next] == done + (own + [next]);
      StandsSplit(ts, 1, done, own + [next]);
      StandsPrefix(ts, 1, done, own + [next]);
      DocumentsParse(ts, before, own[0]);
      DocumentParses(ts, Between(before), d, next);
      ProducesMore(ts, Between([]), FlattenDocuments(before), Between(before), DocumentEvents(d), Between(ds));
    }
  }

  lemma StreamOpens(ts: seq<Token>)
    requires At(ts, 0) == Some(TStreamStart)
    ensures EventAt(ts, INITIAL) == Next(StreamStart, Between([]))
  {
    hide NodeAt;
  }

  lemma StreamCloses(ts: seq<Token>, m: Machine)
    requires Resting(m) && At(ts, m.head) == Some(TStreamEnd)
    ensures EventAt(ts, m) == Next(StreamEnd, m.(state := EndS, head := m.head + 1))
  {
    hide NodeAt;
  }

  lemma EndStops(ts: seq<Token>, m: Machine)
    requires m.state == EndS
    ensures EventAt(ts, m) == Stop
  {
    hide NodeAt;
  }

  /** Every stream that tokens can say is said: its tokens give exactly its events, to the end. */
  lemma StreamParses(ds: seq<Document>) returns (after: Machine)
    requires forall i :: 0 <= i < |ds| ==> SayableDocument(ds[i])
    ensures Produces(StreamTokens(ds), INITIAL, [StreamStart] + FlattenDocuments(ds) + [StreamEnd], after)
    ensures after.state == EndS && EventAt(StreamTokens(ds), after) == Stop
  {
    hide EventAt, Produces, SayableDocument, DocumentsTokens, FlattenDocuments;
    var ts, inner := StreamTokens(ds), DocumentsTokens(ds);
    assert ts == [TStreamStart] + (inner + [TStreamEnd]);
    assert Stands(ts, 0, [TStreamStart] + (inner + [TStreamEnd]));
    StandsSplit(ts, 0, [TStreamStart], inner + [TStreamEnd]);
    StandsSplit(ts, 1, inner, [TStreamEnd]);
    StandsFirst(ts, 1 + |inner|, [TStreamEnd]);
    StreamOpens(ts);
    ProducesOne(ts, INITIAL, StreamStart, Between([]));
    DocumentsParse(ts, ds, TStreamEnd);
    StreamCloses(ts, Between(ds));
    after := Between(ds).(state := EndS, head := Between(ds).head + 1);
    ProducesOne(ts, Between(ds), StreamEnd, after);
    ProducesMore(ts, INITIAL, [StreamStart], Between([]), FlattenDocuments(ds), Between(ds));
    ProducesMore(ts, INITIAL, [StreamStart] + FlattenDocuments(ds), Between(ds), [StreamEnd], after);
    EndStops(ts, after);
  }

  /** Whatever run of the machine is taken to its end over these tokens, it is that one. */
  lemma OnlyParse(ds: seq<Document>, es: seq<Event>, at: Machine)
    requires forall i :: 0 <= i < |ds| ==> SayableDocument(ds[i])
    requires Produces(StreamTokens(ds), INITIAL, es, at) && EventAt(StreamTokens(ds), at) == Stop
    ensures es == [StreamStart] + FlattenDocuments(ds) + [StreamEnd] && at.state == EndS
  {
    hide EventAt, Produces, SayableDocument, StreamTokens, FlattenDocuments;
    var after := StreamParses(ds);
    OneRun(StreamTokens(ds), INITIAL, es, at, [StreamStart] + FlattenDocuments(ds) + [StreamEnd], after);
  }

  lemma {:induction false} SayableIsWellFormed(n: Node, flow: bool)
    requires SayableNode(n, flow)
    ensures WellFormed(n)
  {
    if !n.Leaf? {
      forall i | 0 <= i < |n.children| ensures WellFormed(n.children[i]) {
        SayableIsWellFormed(n.children[i], n.start.flow);
      }
    }
  }
}
