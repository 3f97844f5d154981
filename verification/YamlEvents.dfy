/**
 * Events of a YAML stream, an acceptor for their nesting, and the node trees the
 * accepted streams stand for.
 */
module YamlEvents {

  datatype Option<T> = None | Some(value: T)

  datatype Event =
    | StreamStart
    | StreamEnd
    | DocumentStart(implicitStart: bool)
    | DocumentEnd(implicitEnd: bool)
    | Alias(name: string)
    | Scalar(anchor: Option<string>, tag: string, value: string, plainImplicit: bool, quotedImplicit: bool)
    | SequenceStart(anchor: Option<string>, tag: string, implicitTag: bool, flow: bool)
    | SequenceEnd
    | MappingStart(anchor: Option<string>, tag: string, implicitTag: bool, flow: bool)
    | MappingEnd

  // ----------------------------------------------------------------- the acceptor

  /** What an open construct waits for: a document's root or end, an item, a key, a value. */
  datatype Frame = Root | Close | Item | Key | Val

  datatype Config = Start | Idle | Open(frames: seq<Frame>) | Done

  /** The frame after one more node. */
  function NextFrame(f: Frame): Frame {
    match f
    case Root => Close
    case Close => Close
    case Item => Item
    case Key => Val
    case Val => Key
  }

  predicate WantsNode(c: Config) {
    c.Open? && c.frames != [] && c.frames[|c.frames| - 1] != Close
  }

  function Advance(frames: seq<Frame>): seq<Frame>
    requires frames != []
  {
    frames[..|frames| - 1] + [NextFrame(frames[|frames| - 1])]
  }

  function Accept(c: Config, e: Event): Option<Config> {
    match e
    case StreamStart => if c == Start then Some(Idle) else None
    case StreamEnd => if c == Idle then Some(Done) else None
    case DocumentStart(_) => if c == Idle then Some(Open([Root])) else None
    case DocumentEnd(_) => if c == Open([Close]) then Some(Idle) else None
    case Alias(_) => if WantsNode(c) then Some(Open(Advance(c.frames))) else None
    case Scalar(_, _, _, _, _) => if WantsNode(c) then Some(Open(Advance(c.frames))) else None
    case SequenceStart(_, _, _, _) => if WantsNode(c) then Some(Open(Advance(c.frames) + [Item])) else None
    case MappingStart(_, _, _, _) => if WantsNode(c) then Some(Open(Advance(c.frames) + [Key])) else None
    case SequenceEnd =>
      if c.Open? && c.frames != [] && c.frames[|c.frames| - 1] == Item then Some(Open(c.frames[..|c.frames| - 1])) else None
    case MappingEnd =>
      if c.Open? && c.frames != [] && c.frames[|c.frames| - 1] == Key then Some(Open(c.frames[..|c.frames| - 1])) else None
  }

  function Run(c: Config, es: seq<Event>): Option<Config>
    decreases |es|
  {
    if es == [] then Some(c)
    else match Accept(c, es[0]) case None => None case Some(d) => Run(d, es[1..])
  }

  lemma {:induction false} RunConcat(c: Config, a: seq<Event>, b: seq<Event>)
    ensures Run(c, a + b) == match Run(c, a) case None => None case Some(d) => Run(d, b)
    decreases |a|
  {
    hide Accept;
    if a == [] {
      assert a + b == b;
    } else {
      assert (a + b)[0] == a[0] && (a + b)[1..] == a[1..] + b;
      match Accept(c, a[0])
      case None =>
      case Some(d) => RunConcat(d, a[1..], b);
    }
  }

  // ------------------------------------------------------------------- node trees

  /** A mapping lists its keys and values alternately. */
  datatype Node =
    | Leaf(event: Event)
    | Seq(start: Event, children: seq<Node>)
    | Map(start: Event, children: seq<Node>)

  /** Start events are of the right kind and mappings hold an even number of nodes, throughout. */
  ghost predicate WellFormed(n: Node) {
    match n
    case Leaf(e) => e.Scalar? || e.Alias?
    case Seq(e, children) => e.SequenceStart? && forall i :: 0 <= i < |children| ==> WellFormed(children[i])
    case Map(e, children) =>
      e.MappingStart? && |children| % 2 == 0 && forall i :: 0 <= i < |children| ==> WellFormed(children[i])
  }

  function Flatten(n: Node): seq<Event> {
    match n
    case Leaf(e) => [e]
    case Seq(e, children) => [e] + FlattenAll(children) + [SequenceEnd]
    case Map(e, children) => [e] + FlattenAll(children) + [MappingEnd]
  }

  function FlattenAll(ns: seq<Node>): seq<Event> {
    if ns == [] then [] else FlattenAll(ns[..|ns| - 1]) + Flatten(ns[|ns| - 1])
  }

  function Width(n: Node): nat { if n.Leaf? then 0 else |n.children| }

  datatype Document = Document(first: Event, root: Node, last: Event)

  ghost predicate DocumentFine(d: Document) {
    d.first.DocumentStart? && WellFormed(d.root) && d.last.DocumentEnd?
  }

  function FlattenDocuments(ds: seq<Document>): seq<Event> {
    if ds == [] then []
    else
      var d := ds[|ds| - 1];
      FlattenDocuments(ds[..|ds| - 1]) + [d.first] + Flatten(d.root) + [d.last]
  }

  /** A whole well-nested stream. */
  ghost predicate IsStream(es: seq<Event>) {
    exists ds :: (forall i :: 0 <= i < |ds| ==> DocumentFine(ds[i]))
                 && es == [StreamStart] + FlattenDocuments(ds) + [StreamEnd]
  }

  // ------------------------------------------- trees are accepted, one node at a time

  lemma {:induction false} NodeAccepted(c: Config, n: Node)
    requires WellFormed(n) && WantsNode(c)
    ensures Run(c, Flatten(n)) == Some(Open(Advance(c.frames)))
    decreases n, Width(n) + 1
  {
    match n
    case Leaf(e) =>
      assert Run(c, [e]) == Run(Open(Advance(c.frames)), [e][1..]);
    case Seq(e, children) =>
      var d := Open(Advance(c.frames) + [Item]);
      ChildrenAccepted(d, n, children);
      CollectionAccepted(c, e, d, FlattenAll(children), SequenceEnd);
    case Map(e, children) =>
      var d := Open(Advance(c.frames) + [Key]);
      ChildrenAccepted(d, n, children);
      CollectionAccepted(c, e, d, FlattenAll(children), MappingEnd);
  }

  lemma CollectionAccepted(c: Config, e: Event, d: Config, inner: seq<Event>, end: Event)
    requires WantsNode(c) && Accept(c, e) == Some(d) && Run(d, inner) == Some(d)
    requires Accept(d, end) == Some(Open(Advance(c.frames)))
    ensures Run(c, [e] + inner + [end]) == Some(Open(Advance(c.frames)))
  {
    hide Accept;
    var es := [e] + inner + [end];
    assert es[0] == e && es[1..] == inner + [end];
    RunConcat(d, inner, [end]);
    assert [end][1..] == [];
  }

  /** The top frame after k more nodes. */
  function After(f: Frame, k: nat): Frame { if k % 2 == 0 then f else NextFrame(f) }

  lemma {:induction false} ChildrenAccepted(d: Config, n: Node, ns: seq<Node>)
    requires !n.Leaf? && ns <= n.children && WellFormed(n)
    requires d.Open? && d.frames != [] && d.frames[|d.frames| - 1] == (if n.Seq? then Item else Key)
    ensures Run(d, FlattenAll(ns)) == Some(Open(d.frames[..|d.frames| - 1] + [After(d.frames[|d.frames| - 1], |ns|)]))
    decreases n, |ns|
  {
    hide Accept;
    if ns == [] {
      assert d.frames == d.frames[..|d.frames| - 1] + [After(d.frames[|d.frames| - 1], 0)];
    } else {
      var k := |ns| - 1;
      ChildrenAccepted(d, n, ns[..k]);
      var m := Open(d.frames[..|d.frames| - 1] + [After(d.frames[|d.frames| - 1], k)]);
      assert ns[k] == n.children[k];
      NodeAccepted(m, ns[k]);
      RunConcat(d, FlattenAll(ns[..k]), Flatten(ns[k]));
    }
  }

  lemma {:induction false} DocumentsAccepted(ds: seq<Document>)
    requires forall i :: 0 <= i < |ds| ==> DocumentFine(ds[i])
    ensures Run(Idle, FlattenDocuments(ds)) == Some(Idle)
  {
    if ds != [] {
      var k := |ds| - 1;
      var d := ds[k];
      var before := FlattenDocuments(ds[..k]);
      DocumentsAccepted(ds[..k]);
      NodeAccepted(Open([Root]), d.root);
      assert Advance([Root]) == [Close];
      assert [d.first][1..] == [] && [d.last][1..] == [];
      RunConcat(Idle, before, [d.first]);
      RunConcat(Idle, before + [d.first], Flatten(d.root));
      RunConcat(Idle, before + [d.first] + Flatten(d.root), [d.last]);
    }
  }

  /** Every well-nested stream is accepted to its end. */
  lemma StreamAccepted(es: seq<Event>)
    requires IsStream(es)
    ensures Run(Start, es) == Some(Done)
  {
    var ds :| (forall i :: 0 <= i < |ds| ==> DocumentFine(ds[i])) && es == [StreamStart] + FlattenDocuments(ds) + [StreamEnd];
    DocumentsAccepted(ds);
    assert [StreamStart][1..] == [] && [StreamEnd][1..] == [];
    RunConcat(Start, [StreamStart], FlattenDocuments(ds));
    RunConcat(Start, [StreamStart] + FlattenDocuments(ds), [StreamEnd]);
  }
}
