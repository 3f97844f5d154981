/**
 * The tree builder that turns parser events into nodes, and the equivalence of
 * three views of a stream: accepted, built without surprise, flattened from trees.
 */
module YamlTree {
  import opened YamlEvents

  /**
   * Short: the parser failed before the node was complete. Unexpected: an event the
   * source answers with a panic.
   */
  datatype Built = Got(node: Node, rest: seq<Event>) | Short | Unexpected

  // ---------------------------------------------------------------- the builder

  function BuildNode(es: seq<Event>): (r: Built)
    ensures r.Got? ==> |r.rest| < |es|
    decreases |es|, 0
  {
    if es == [] then Short
    else match es[0]
      case Scalar(_, _, _, _, _) => Got(Leaf(es[0]), es[1..])
      case Alias(_) => Got(Leaf(es[0]), es[1..])
      case SequenceStart(_, _, _, _) => BuildItems(es[0], [], es[1..])
      case MappingStart(_, _, _, _) => BuildPairs(es[0], [], es[1..])
      case _ => Unexpected
  }

  function BuildItems(e: Event, children: seq<Node>, es: seq<Event>): (r: Built)
    ensures r.Got? ==> |r.rest| < |es|
    decreases |es|, 1
  {
    if es == [] then Short
    else if es[0].SequenceEnd? then Got(Seq(e, children), es[1..])
    else match BuildNode(es)
      case Got(n, rest) => BuildItems(e, children + [n], rest)
      case bad => bad
  }

  function BuildPairs(e: Event, children: seq<Node>, es: seq<Event>): (r: Built)
    ensures r.Got? ==> |r.rest| < |es|
    decreases |es|, 1
  {
    if es == [] then Short
    else if es[0].MappingEnd? then Got(Map(e, children), es[1..])
    else match BuildNode(es)
      case Got(k, rest) => (
        match BuildNode(rest)
        case Got(v, rest2) => BuildPairs(e, children + [k, v], rest2)
        case bad => bad)
      case bad => bad
  }

  /** The loop forms of the source. */
  method ParseNode(es: seq<Event>) returns (r: Built)
    ensures r == BuildNode(es)
    decreases |es|, 0
  {
    if es == [] {
      return Short;
    }
    match es[0] {
      case Scalar(_, _, _, _, _) => r := Got(Leaf(es[0]), es[1..]);
      case Alias(_) => r := Got(Leaf(es[0]), es[1..]);
      case SequenceStart(_, _, _, _) => r := ParseSequence(es[0], es[1..]);
      case MappingStart(_, _, _, _) => r := ParseMapping(es[0], es[1..]);
      case _ => r := Unexpected;
    }
  }

  method ParseSequence(e: Event, es: seq<Event>) returns (r: Built)
    ensures r == BuildItems(e, [], es)
    decreases |es|, 1
  {
    var children: seq<Node>, rest := [], es;
    while rest != [] && !rest[0].SequenceEnd?
      invariant |rest| <= |es| && BuildItems(e, children, rest) == BuildItems(e, [], es)
      decreases |rest|
    {
      var item := ParseNode(rest);
      if !item.Got? {
        return item;
      }
      children, rest := children + [item.node], item.rest;
    }
    r := if rest == [] then Short else Got(Seq(e, children), rest[1..]);
  }

  method ParseMapping(e: Event, es: seq<Event>) returns (r: Built)
    ensures r == BuildPairs(e, [], es)
    decreases |es|, 1
  {
    var children: seq<Node>, rest := [], es;
    while rest != [] && !rest[0].MappingEnd?
      invariant |rest| <= |es| && BuildPairs(e, children, rest) == BuildPairs(e, [], es)
      decreases |rest|
    {
      var k := ParseNode(rest);
      if !k.Got? {
        return k;
      }
      var v := ParseNode(k.rest);
      if !v.Got? {
        return v;
      }
      children, rest := children + [k.node, v.node], v.rest;
    }
    r := if rest == [] then Short else Got(Map(e, children), rest[1..]);
  }

  // ------------------------------------------ no surprise on an accepted stream

  /** The stream stops with at least so many constructs open. */
  ghost predicate Within(c: Option<Config>, depth: nat) {
    c.Some? && c.value.Open? && |c.value.frames| >= depth
  }

  /** What building one node from an accepted stream means. */
  ghost predicate Follows(c: Config, es: seq<Event>, r: Built)
    requires WantsNode(c)
  {
    && r != Unexpected
    && (r == Short ==> Within(Run(c, es), |c.frames|))
    && (r.Got? ==> WellFormed(r.node) && es == Flatten(r.node) + r.rest
                   && Run(Open(Advance(c.frames)), r.rest) == Run(c, es))
  }

  lemma {:induction false} NodeFollows(c: Config, es: seq<Event>)
    requires WantsNode(c) && Run(c, es).Some?
    requires es != [] ==> !es[0].SequenceEnd? && !es[0].MappingEnd?
    ensures Follows(c, es, BuildNode(es))
    decreases |es|, 0
  {
    if es != [] {
      match es[0]
      case Scalar(_, _, _, _, _) =>
        assert es == [es[0]] + es[1..];
      case Alias(_) =>
        assert es == [es[0]] + es[1..];
      case SequenceStart(_, _, _, _) =>
        var d := Open(Advance(c.frames) + [Item]);
        ItemsFollow(d, es[0], [], es[1..]);
        Opened(c, es, d, BuildNode(es));
      case MappingStart(_, _, _, _) =>
        var d := Open(Advance(c.frames) + [Key]);
        PairsFollow(d, es[0], [], es[1..]);
        Opened(c, es, d, BuildNode(es));
      case _ =>
    }
  }

  /** The rest of a collection: its tail of children and its end event. */
  ghost predicate Completes(d: Config, e: Event, done: seq<Node>, es: seq<Event>, r: Built)
    requires d.Open? && d.frames != []
  {
    && r != Unexpected
    && (r == Short ==> Within(Run(d, es), |d.frames|))
    && (r.Got? ==>
          && !r.node.Leaf? && r.node.start == e && WellFormed(r.node)
          && Flatten(r.node) + r.rest == [e] + FlattenAll(done) + es
          && Run(Open(d.frames[..|d.frames| - 1]), r.rest) == Run(d, es))
  }

  lemma Opened(c: Config, es: seq<Event>, d: Config, r: Built)
    requires WantsNode(c) && es != [] && Accept(c, es[0]) == Some(d) && d.Open?
    requires |d.frames| > 0 && d.frames[..|d.frames| - 1] == Advance(c.frames)
    requires Completes(d, es[0], [], es[1..], r)
    ensures Follows(c, es, r)
  {
    hide Accept, WellFormed, Flatten;
    assert [es[0]] + FlattenAll([]) + es[1..] == es;
  }

  lemma {:induction false} ItemsFollow(d: Config, e: Event, done: seq<Node>, es: seq<Event>)
    requires e.SequenceStart? && (forall i :: 0 <= i < |done| ==> WellFormed(done[i]))
    requires d.Open? && d.frames != [] && d.frames[|d.frames| - 1] == Item && Run(d, es).Some?
    ensures Completes(d, e, done, es, BuildItems(e, done, es))
    decreases |es|, 2
  {
    if es == [] {
    } else if es[0].SequenceEnd? {
      Ended(e, done, es, Seq(e, done));
    } else {
      NodeFollows(d, es);
      assert Advance(d.frames) == d.frames;
      var b := BuildNode(es);
      if b.Got? {
        OneMore(e, done, b.node, b.rest, es);
        ItemsFollow(d, e, done + [b.node], b.rest);
      }
    }
  }

  lemma {:induction false} PairsFollow(d: Config, e: Event, done: seq<Node>, es: seq<Event>)
    requires e.MappingStart? && |done| % 2 == 0 && (forall i :: 0 <= i < |done| ==> WellFormed(done[i]))
    requires d.Open? && d.frames != [] && d.frames[|d.frames| - 1] == Key && Run(d, es).Some?
    ensures Completes(d, e, done, es, BuildPairs(e, done, es))
    decreases |es|, 2
  {
    hide BuildNode, Flatten, Within;
    if es == [] {
      NothingFollows(d, e, done);
    } else if es[0].MappingEnd? {
      Ended(e, done, es, Map(e, done));
    } else {
      PairFollows(d, es);
      var k := BuildNode(es);
      if k.Got? {
        var v := BuildNode(k.rest);
        if v.Got? {
          BuildPairsStep(e, done, es, k.node, k.rest, v.node, v.rest);
          TwoMore(e, done, k.node, v.node, v.rest, es);
          PairsFollow(d, e, done + [k.node, v.node], v.rest);
        }
      }
    }
  }

  lemma NothingFollows(d: Config, e: Event, done: seq<Node>)
    requires d.Open? && d.frames != []
    ensures Completes(d, e, done, [], Short)
  {
  }

  /** A key is always followed by a value. */
  lemma {:induction false} PairFollows(d: Config, es: seq<Event>)
    requires d.Open? && d.frames != [] && d.frames[|d.frames| - 1] == Key && Run(d, es).Some?
    requires es != [] && !es[0].MappingEnd?
    ensures var k := BuildNode(es);
      && k != Unexpected && (k == Short ==> Within(Run(d, es), |d.frames|))
      && (k.Got? ==>
            var v := BuildNode(k.rest);
            && v != Unexpected && (v == Short ==> Within(Run(d, es), |d.frames|))
            && (v.Got? ==>
                  && WellFormed(k.node) && WellFormed(v.node) && Run(d, v.rest) == Run(d, es)
                  && es == Flatten(k.node) + (Flatten(v.node) + v.rest)))
    decreases |es|, 1
  {
    hide BuildNode, Flatten, WellFormed;
    NodeFollows(d, es);
    var k := BuildNode(es);
    if k.Got? {
      var m := Open(Advance(d.frames));
      NodeFollows(m, k.rest);
      assert Advance(m.frames) == d.frames;
    }
  }

  lemma TwoMore(e: Event, done: seq<Node>, k: Node, v: Node, rest: seq<Event>, es: seq<Event>)
    requires es == Flatten(k) + (Flatten(v) + rest)
    ensures [e] + FlattenAll(done + [k, v]) + rest == [e] + FlattenAll(done) + es
  {
    hide Flatten, FlattenAll;
    OneMore(e, done, k, Flatten(v) + rest, es);
    OneMore(e, done + [k], v, rest, Flatten(v) + rest);
    assert done + [k] + [v] == done + [k, v];
  }

  lemma Ended(e: Event, done: seq<Node>, es: seq<Event>, n: Node)
    requires es != [] && ((n == Seq(e, done) && es[0] == SequenceEnd) || (n == Map(e, done) && es[0] == MappingEnd))
    ensures Flatten(n) + es[1..] == [e] + FlattenAll(done) + es
  {
    assert es == [es[0]] + es[1..];
  }

  lemma OneMore(e: Event, done: seq<Node>, n: Node, rest: seq<Event>, es: seq<Event>)
    requires es == Flatten(n) + rest
    ensures [e] + FlattenAll(done + [n]) + rest == [e] + FlattenAll(done) + es
  {
    hide Flatten;
    assert (done + [n])[..|done|] == done;
  }

  // ---------------------------------------------------------- documents and streams

  /** Building a node back from its own events. */
  lemma BuildUndoesFlatten(n: Node)
    requires WellFormed(n)
    ensures BuildNode(Flatten(n)) == Got(n, [])
  {
    BuildsWith(n, []);
    assert Flatten(n) + [] == Flatten(n);
  }

  lemma {:induction false} BuildsWith(n: Node, rest: seq<Event>)
    requires WellFormed(n)
    ensures BuildNode(Flatten(n) + rest) == Got(n, rest)
    decreases n, Width(n) + 1
  {
    var es := Flatten(n) + rest;
    match n
    case Leaf(e) => assert es[0] == e && es[1..] == rest;
    case Seq(e, children) =>
      assert es[1..] == FlattenAll(children) + ([SequenceEnd] + rest);
      BuildsItems(n, 0, rest);
      assert children[..0] == [] && children[0..] == children;
    case Map(e, children) =>
      assert es[1..] == FlattenAll(children) + ([MappingEnd] + rest);
      BuildsPairs(n, 0, rest);
      assert children[..0] == [] && children[0..] == children;
  }

  lemma {:induction false} FlattenFront(ns: seq<Node>)
    requires ns != []
    ensures FlattenAll(ns) == Flatten(ns[0]) + FlattenAll(ns[1..])
  {
    hide Flatten;
    var k := |ns| - 1;
    if k == 0 {
      assert ns[..0] == [] && ns[1..] == [];
    } else {
      FlattenFront(ns[..k]);
      assert ns[..k][1..] == ns[1..][..k - 1];
    }
  }

  lemma {:induction false} BuildsItems(n: Node, i: nat, rest: seq<Event>)
    requires n.Seq? && WellFormed(n) && i <= |n.children|
    ensures BuildItems(n.start, n.children[..i], FlattenAll(n.children[i..]) + ([SequenceEnd] + rest)) == Got(n, rest)
    decreases n, |n.children| - i
  {
    var tail := n.children[i..];
    var es := FlattenAll(tail) + ([SequenceEnd] + rest);
    if i == |n.children| {
      assert es == [SequenceEnd] + rest && n.children[..i] == n.children;
    } else {
      FlattenFront(tail);
      assert tail[1..] == n.children[i + 1..] && tail[0] == n.children[i];
      var after := FlattenAll(tail[1..]) + ([SequenceEnd] + rest);
      assert es == Flatten(tail[0]) + after;
      BuildsWith(n.children[i], after);
      StartsNode(tail[0], after);
      assert n.children[..i] + [n.children[i]] == n.children[..i + 1];
      BuildsItems(n, i + 1, rest);
    }
  }

  lemma StartsNode(n: Node, rest: seq<Event>)
    requires WellFormed(n)
    ensures var es := Flatten(n) + rest; es != [] && !es[0].SequenceEnd? && !es[0].MappingEnd?
  {
  }

  lemma {:induction false} BuildsPairs(n: Node, i: nat, rest: seq<Event>)
    requires n.Map? && WellFormed(n) && i <= |n.children| && i % 2 == 0
    ensures BuildPairs(n.start, n.children[..i], FlattenAll(n.children[i..]) + ([MappingEnd] + rest)) == Got(n, rest)
    decreases n, |n.children| - i
  {
    hide Flatten, BuildNode, FlattenAll, BuildPairs;
    if i == |n.children| {
      NoPairsLeft(n.start, n.children, rest);
      assert n.children[..i] == n.children && n.children[i..] == [];
    } else {
      var k, v := n.children[i], n.children[i + 1];
      var end := [MappingEnd] + rest;
      var after := FlattenAll(n.children[i + 2..]) + end;
      var mid := Flatten(v) + after;
      var es := FlattenAll(n.children[i..]) + end;
      assert es == Flatten(k) + mid by {
        FlattenTwo(n.children[i..]);
        assert n.children[i..][2..] == n.children[i + 2..];
        Regroup(Flatten(k), Flatten(v), FlattenAll(n.children[i + 2..]), end);
      }
      BuildsWith(k, mid);
      BuildsWith(v, after);
      StartsNode(k, mid);
      BuildPairsStep(n.start, n.children[..i], es, k, mid, v, after);
      assert n.children[..i] + [k, v] == n.children[..i + 2];
      BuildsPairs(n, i + 2, rest);
    }
  }

  lemma Regroup<T>(a: seq<T>, b: seq<T>, c: seq<T>, d: seq<T>)
    ensures (a + (b + c)) + d == a + (b + (c + d))
  {
  }

  lemma NoPairsLeft(e: Event, done: seq<Node>, rest: seq<Event>)
    ensures BuildPairs(e, done, FlattenAll([]) + ([MappingEnd] + rest)) == Got(Map(e, done), rest)
  {
    var es := FlattenAll([]) + ([MappingEnd] + rest);
    assert es[0] == MappingEnd && es[1..] == rest;
  }

  lemma FlattenTwo(ns: seq<Node>)
    requires |ns| >= 2
    ensures FlattenAll(ns) == Flatten(ns[0]) + (Flatten(ns[1]) + FlattenAll(ns[2..]))
  {
    hide Flatten, FlattenAll;
    FlattenFront(ns);
    FlattenFront(ns[1..]);
    assert ns[1..][1..] == ns[2..];
  }

  lemma BuildPairsStep(e: Event, done: seq<Node>, es: seq<Event>, k: Node, mid: seq<Event>, v: Node, after: seq<Event>)
    requires es != [] && !es[0].MappingEnd? && BuildNode(es) == Got(k, mid) && BuildNode(mid) == Got(v, after)
    ensures BuildPairs(e, done, es) == BuildPairs(e, done + [k, v], after)
  {
    hide BuildNode;
  }

  // -------------------------------------------------------------- whole streams

  datatype BuiltDocument = GotDocument(doc: Document, rest: seq<Event>) | ShortDocument | UnexpectedEvent

  /** One document: its start, a node, and an end the source insists on. */
  function BuildDocument(es: seq<Event>): (r: BuiltDocument)
    ensures r.GotDocument? ==> |r.rest| < |es|
  {
    if es == [] then ShortDocument
    else if !es[0].DocumentStart? then UnexpectedEvent
    else match BuildNode(es[1..])
      case Short => ShortDocument
      case Unexpected => UnexpectedEvent
      case Got(n, rest) =>
        if rest == [] then ShortDocument
        else if !rest[0].DocumentEnd? then UnexpectedEvent
        else GotDocument(Document(es[0], n, rest[0]), rest[1..])
  }

  lemma RootFollows(es: seq<Event>)
    requires Run(Open([Root]), es).Some?
    ensures var b := BuildNode(es);
      && b != Unexpected && (b == Short ==> Within(Run(Open([Root]), es), 1))
      && (b.Got? ==> WellFormed(b.node) && es == Flatten(b.node) + b.rest
                     && Run(Open([Close]), b.rest) == Run(Open([Root]), es))
  {
    hide BuildNode, Flatten, WellFormed;
    if es != [] { assert Accept(Open([Root]), es[0]).Some?; }
    NodeFollows(Open([Root]), es);
    assert Advance([Root]) == [Close];
  }

  lemma EndFollows(es: seq<Event>)
    requires es != [] && Run(Open([Close]), es).Some?
    ensures es[0].DocumentEnd? && Run(Idle, es[1..]) == Run(Open([Close]), es)
  {
  }

  /** On an accepted stream a document is built or the stream is cut short; nothing is unexpected. */
  lemma DocumentFollows(es: seq<Event>)
    requires es != [] && es[0].DocumentStart? && Run(Idle, es).Some?
    ensures var r := BuildDocument(es);
      && r != UnexpectedEvent
      && (r == ShortDocument ==> Within(Run(Idle, es), 1))
      && (r.GotDocument? ==>
            && DocumentFine(r.doc) && Run(Idle, r.rest) == Run(Idle, es)
            && es == [r.doc.first] + Flatten(r.doc.root) + [r.doc.last] + r.rest)
  {
    hide BuildNode, Flatten, WellFormed;
    RootFollows(es[1..]);
    var b := BuildNode(es[1..]);
    assert es == [es[0]] + es[1..];
    if b.Got? && b.rest != [] {
      EndFollows(b.rest);
      assert b.rest == [b.rest[0]] + b.rest[1..];
    }
  }

  lemma AfterDone(es: seq<Event>)
    requires Run(Done, es).Some?
    ensures es == []
  {
  }

  lemma {:induction false} DocumentsFollow(done: seq<Document>, es: seq<Event>) returns (ds: seq<Document>)
    requires (forall i :: 0 <= i < |done| ==> DocumentFine(done[i])) && Run(Idle, es) == Some(Done)
    ensures (forall i :: 0 <= i < |ds| ==> DocumentFine(ds[i]))
    ensures FlattenDocuments(done) + es == FlattenDocuments(ds) + [StreamEnd]
    decreases |es|
  {
    hide BuildNode, Flatten, BuildDocument, WellFormed;
    assert es != [];
    if es[0].StreamEnd? {
      AfterDone(es[1..]);
      ds := done;
      assert es == [StreamEnd];
    } else {
      assert es[0].DocumentStart?;
      DocumentFollows(es);
      var r := BuildDocument(es);
      OneMoreDocument(done, r.doc, r.rest);
      ds := DocumentsFollow(done + [r.doc], r.rest);
    }
  }

  lemma OneMoreDocument(done: seq<Document>, d: Document, rest: seq<Event>)
    ensures FlattenDocuments(done + [d]) + rest == FlattenDocuments(done) + ([d.first] + Flatten(d.root) + [d.last] + rest)
  {
    hide Flatten;
    var more := done + [d];
    assert more[..|done|] == done;
  }

  /** A stream is accepted to its end exactly when it is flattened from node trees. */
  lemma AcceptedIsStream(es: seq<Event>)
    ensures Run(Start, es) == Some(Done) <==> IsStream(es)
  {
    hide Run, IsStream, FlattenDocuments, DocumentFine;
    if IsStream(es) { StreamAccepted(es); }
    if Run(Start, es) == Some(Done) {
      StartsStream(es);
      var ds := DocumentsFollow([], es[1..]);
      StreamOf(es, ds);
    }
  }

  lemma StartsStream(es: seq<Event>)
    requires Run(Start, es) == Some(Done)
    ensures es != [] && es[0] == StreamStart && Run(Idle, es[1..]) == Some(Done)
  {
  }

  lemma StreamOf(es: seq<Event>, ds: seq<Document>)
    requires es != [] && es[0] == StreamStart && (forall i :: 0 <= i < |ds| ==> DocumentFine(ds[i]))
    requires FlattenDocuments([]) + es[1..] == FlattenDocuments(ds) + [StreamEnd]
    ensures IsStream(es)
  {
    hide DocumentFine;
    assert FlattenDocuments([]) + es[1..] == es[1..];
    hide FlattenDocuments;
    assert es == [StreamStart] + es[1..];
    assert es == [StreamStart] + FlattenDocuments(ds) + [StreamEnd];
  }

  // ------------------------------------------------------- accepted means completable

  /** Frames an accepted stream can have open: a document below, collections above. */
  ghost predicate Nested(frames: seq<Frame>) {
    && frames != [] && (frames[0] == Root || frames[0] == Close) && (|frames| > 1 ==> frames[0] == Close)
    && forall i :: 1 <= i < |frames| ==> frames[i] != Root && frames[i] != Close
  }

  ghost predicate Reachable(c: Config) { c.Open? ==> Nested(c.frames) }

  lemma AcceptReachable(c: Config, e: Event)
    requires Reachable(c) && Accept(c, e).Some?
    ensures Reachable(Accept(c, e).value)
  {
  }

  lemma {:induction false} RunReachable(c: Config, es: seq<Event>)
    requires Reachable(c) && Run(c, es).Some?
    ensures Reachable(Run(c, es).value)
    decreases |es|
  {
    hide Accept;
    if es != [] {
      AcceptReachable(c, es[0]);
      RunReachable(Accept(c, es[0]).value, es[1..]);
    }
  }

  const EMPTY: Event := Scalar(None, "", "", true, false)

  /** Events that close what is open. */
  function Closing(frames: seq<Frame>): seq<Event> {
    if frames == [] then []
    else match frames[|frames| - 1]
      case Root => [EMPTY, DocumentEnd(true)]
      case Close => [DocumentEnd(true)]
      case Item => [SequenceEnd] + Closing(frames[..|frames| - 1])
      case Key => [MappingEnd] + Closing(frames[..|frames| - 1])
      case Val => [EMPTY, MappingEnd] + Closing(frames[..|frames| - 1])
  }

  lemma {:induction false} ClosingCloses(frames: seq<Frame>)
    requires Nested(frames)
    ensures Run(Open(frames), Closing(frames)) == Some(Idle)
  {
    hide Run;
    var k := |frames| - 1;
    var below := frames[..k];
    match frames[k]
    case Root =>
      assert frames == [Root] && Advance([Root]) == [Close];
      RunCons(Open([Root]), EMPTY, [DocumentEnd(true)]);
      RunLast(Open([Close]), DocumentEnd(true));
      assert [EMPTY] + [DocumentEnd(true)] == Closing(frames);
    case Close =>
      assert frames == [Close];
      RunLast(Open([Close]), DocumentEnd(true));
    case Item =>
      ClosingCloses(below);
      RunCons(Open(frames), SequenceEnd, Closing(below));
    case Key =>
      ClosingCloses(below);
      RunCons(Open(frames), MappingEnd, Closing(below));
    case Val =>
      ClosingCloses(below);
      ValueCloses(frames);
  }

  /** A key without its value: an empty value, then the end of the mapping. */
  lemma {:induction false} ValueCloses(frames: seq<Frame>)
    requires Nested(frames) && frames[|frames| - 1] == Val
    requires Run(Open(frames[..|frames| - 1]), Closing(frames[..|frames| - 1])) == Some(Idle)
    ensures Run(Open(frames), Closing(frames)) == Some(Idle)
  {
    hide Run;
    var k := |frames| - 1;
    var m, below := Advance(frames), Closing(frames[..k]);
    assert m[k] == Key && m[..k] == frames[..k];
    RunCons(Open(m), MappingEnd, below);
    RunCons(Open(frames), EMPTY, [MappingEnd] + below);
    assert [EMPTY] + ([MappingEnd] + below) == Closing(frames);
  }

  lemma RunCons(c: Config, e: Event, rest: seq<Event>)
    requires Accept(c, e).Some?
    ensures Run(c, [e] + rest) == Run(Accept(c, e).value, rest)
  {
    hide Accept;
    assert ([e] + rest)[1..] == rest;
  }

  lemma RunLast(c: Config, e: Event)
    requires Accept(c, e).Some?
    ensures Run(c, [e]) == Some(Accept(c, e).value)
  {
    hide Accept;
    assert [e][1..] == [];
  }

  /**
   * The accepted event sequences are exactly the prefixes of well-nested streams,
   * whose mappings hold an even number of nodes.
   */
  lemma PrefixOfStream(es: seq<Event>)
    ensures Run(Start, es).Some? <==> exists more :: IsStream(es + more)
  {
    hide Accept, IsStream, Closing;
    if exists more :: IsStream(es + more) {
      var more :| IsStream(es + more);
      AcceptedIsStream(es + more);
      RunConcat(Start, es, more);
    }
    if Run(Start, es).Some? {
      var c := Run(Start, es).value;
      RunReachable(Start, es);
      var more := Remainder(c);
      RemainderEnds(c);
      RunConcat(Start, es, more);
      AcceptedIsStream(es + more);
    }
  }

  function Remainder(c: Config): seq<Event> {
    match c
    case Start => [StreamStart, StreamEnd]
    case Idle => [StreamEnd]
    case Open(frames) => Closing(frames) + [StreamEnd]
    case Done => []
  }

  lemma RemainderEnds(c: Config)
    requires Reachable(c)
    ensures Run(c, Remainder(c)) == Some(Done)
  {
    assert [StreamEnd][1..] == [] && [StreamStart, StreamEnd][1..] == [StreamEnd];
    if c.Open? {
      ClosingCloses(c.frames);
      RunConcat(c, Closing(c.frames), [StreamEnd]);
    }
  }
}
