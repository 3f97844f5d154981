/** Tokens to tree: the parser feeding the tree builder, for any token stream. */
module YamlLoad {
  import opened YamlEvents
  import opened YamlTree
  import YamlMachine
  import YamlParser
  import opened YamlRender

  /** Crashed is a panic that reaches the caller. */
  datatype Loaded = NoDocument | Tree(doc: Document) | Refused | Crashed

  /** The first document of an event sequence, as the decoder asks for it; it asks for one event more. */
  function FirstDocument(es: seq<Event>): Loaded {
    if es == [] then Refused
    else if !es[0].StreamStart? then Crashed
    else if |es| == 1 then Refused
    else if es[1].StreamEnd? then NoDocument
    else match BuildDocument(es[1..])
      case GotDocument(d, rest) => if rest == [] then Refused else Tree(d)
      case ShortDocument => Refused
      case UnexpectedEvent => Crashed
  }

  lemma NeverCrashes(es: seq<Event>)
    requires Run(Start, es).Some?
    ensures FirstDocument(es) != Crashed
    ensures FirstDocument(es).Tree? ==>
      var d := FirstDocument(es).doc;
      DocumentFine(d) && [StreamStart, d.first] + Flatten(d.root) + [d.last] < es
  {
    hide BuildDocument, Flatten, WellFormed;
    if |es| > 1 {
      assert Accept(Start, es[0]).Some? && Run(Idle, es[1..]).Some?;
      assert Accept(Idle, es[1]).Some?;
      if !es[1].StreamEnd? {
        DocumentFollows(es[1..]);
        if FirstDocument(es).Tree? {
          var b := BuildDocument(es[1..]);
          assert es == [es[0]] + es[1..];
          assert es == [StreamStart, b.doc.first] + Flatten(b.doc.root) + [b.doc.last] + b.rest;
        }
      }
    }
  }

  /** Parsing and building never panic, and a tree that comes out flattens to the events that went in. */
  method Load(tokens: seq<YamlMachine.Token>) returns (r: Loaded, events: seq<Event>)
    ensures r == FirstDocument(events) && r != Crashed
    ensures exists more :: IsStream(events + more)
    ensures r == NoDocument || r.Tree? ==> events != []
    ensures exists after :: YamlMachine.Produces(tokens, YamlMachine.INITIAL, events, after) && YamlMachine.EventAt(tokens, after) == YamlMachine.Stop
  {
    hide Run, IsStream, FirstDocument, YamlMachine.Produces, YamlMachine.EventAt;
    var p := new YamlParser.Parser(tokens);
    events := p.ParseAll();
    PrefixOfStream(events);
    NeverCrashes(events);
    r := FirstDocument(events);
    if events == [] { NothingLoaded(); }
  }

  lemma NothingLoaded()
    ensures FirstDocument([]) == Refused
  {
  }

  /**
   * The round trip from trees to tokens and back: the tokens that spell out a stream of documents
   * load as its first document, and its events are exactly the stream's.
   */
  method LoadRendered(ds: seq<Document>) returns (r: Loaded, events: seq<Event>)
    requires forall i :: 0 <= i < |ds| ==> SayableDocument(ds[i])
    ensures r == if ds == [] then NoDocument else Tree(ds[0])
    ensures events == [StreamStart] + FlattenDocuments(ds) + [StreamEnd]
  {
    hide IsStream, FirstDocument, YamlMachine.Produces, YamlMachine.EventAt, SayableDocument, StreamTokens, FlattenDocuments;
    r, events := Load(StreamTokens(ds));
    ghost var after :| YamlMachine.Produces(StreamTokens(ds), YamlMachine.INITIAL, events, after)
                       && YamlMachine.EventAt(StreamTokens(ds), after) == YamlMachine.Stop;
    OnlyParse(ds, events, after);
    FirstOfStream(ds);
  }

  lemma FirstOfStream(ds: seq<Document>)
    requires forall i :: 0 <= i < |ds| ==> SayableDocument(ds[i])
    ensures FirstDocument([StreamStart] + FlattenDocuments(ds) + [StreamEnd]) == if ds == [] then NoDocument else Tree(ds[0])
  {
    hide BuildDocument, Flatten, SayableNode;
    if ds == [] {
      NoDocuments();
    } else {
      var d, more := ds[0], FlattenDocuments(ds[1..]) + [StreamEnd];
      FirstFlattened(ds);
      assert SayableDocument(d);
      hide FlattenDocuments;
      DocumentBuilds(d, more);
      StreamBuilds(FlattenDocuments(ds), d.first, Flatten(d.root), d.last, FlattenDocuments(ds[1..]));
    }
  }

  lemma NoDocuments()
    ensures FirstDocument([StreamStart] + FlattenDocuments([]) + [StreamEnd]) == NoDocument
  {
  }

  /** A document's events, with more after them, build the document. */
  lemma DocumentBuilds(d: Document, more: seq<Event>)
    requires SayableDocument(d)
    ensures BuildDocument([d.first] + (Flatten(d.root) + ([d.last] + more))) == GotDocument(d, more)
  {
    hide BuildNode, Flatten, SayableNode, WellFormed;
    SayableIsWellFormed(d.root, false);
    BuildsWith(d.root, [d.last] + more);
    var es := [d.first] + (Flatten(d.root) + ([d.last] + more));
    assert es[1..] == Flatten(d.root) + ([d.last] + more);
    assert ([d.last] + more)[1..] == more;
  }

  lemma StreamBuilds(all: seq<Event>, first: Event, root: seq<Event>, last: Event, others: seq<Event>)
    requires all == [first] + root + [last] + others
    ensures var es := [StreamStart] + all + [StreamEnd];
      |es| > 2 && es[0] == StreamStart && es[1] == first && es[1..] == [first] + (root + ([last] + (others + [StreamEnd])))
  {
    var es := [StreamStart] + all + [StreamEnd];
    assert es[1..] == all + [StreamEnd];
  }

  lemma {:induction false} FirstFlattened(ds: seq<Document>)
    requires ds != []
    ensures FlattenDocuments(ds) == [ds[0].first] + Flatten(ds[0].root) + [ds[0].last] + FlattenDocuments(ds[1..])
    decreases |ds|
  {
    hide Flatten;
    if |ds| > 1 {
      var n := |ds| - 1;
      FirstFlattened(ds[..n]);
      assert ds[1..][..n - 1] == ds[..n][1..] && ds[1..][n - 1] == ds[n];
    } else {
      assert ds[..0] == [] && ds[1..] == [];
    }
  }
}
