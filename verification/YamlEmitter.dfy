/**
 * The emitter's pushdown machine and its lookahead queue, proved to follow the
 * acceptor of event streams: it fails exactly on events that do not fit, and on
 * a well-nested stream it handles every event once and comes to rest.
 */
module YamlEmitter {
  import opened YamlEvents

  datatype State =
    | StreamStartState | FirstDocumentStart | DocumentStartState | DocumentContent | DocumentEndState | EndState
    | FlowSequenceFirst | FlowSequenceItem | FlowMappingFirst | FlowMappingKey | FlowMappingSimpleValue | FlowMappingValue
    | BlockSequenceFirst | BlockSequenceItem | BlockMappingFirst | BlockMappingKey | BlockMappingSimpleValue | BlockMappingValue

  /** An event, and what texts and columns decide when its turn comes: a short one-line key, a sequence that is not indented. */
  datatype Queued = Queued(event: Event, simple: bool, indentless: bool)

  function Plain(q: seq<Queued>): (es: seq<Event>)
    ensures |es| == |q| && forall i :: 0 <= i < |q| ==> es[i] == q[i].event
  {
    seq(|q|, i requires 0 <= i < |q| => q[i].event)
  }

  // ------------------------------------------------------------------------ contents

  predicate NameFine(s: string) {
    s != "" && forall i :: 0 <= i < |s| ==> '0' <= s[i] <= '9' || 'A' <= s[i] <= 'Z' || 'a' <= s[i] <= 'z' || s[i] == '_' || s[i] == '-'
  }

  predicate AnchorFine(a: Option<string>) { a.Some? && a.value != "" ==> NameFine(a.value) }

  /** Names are alphanumerical, and a scalar has a tag or may do without. */
  predicate Fit(e: Event) {
    match e
    case Alias(name) => NameFine(name)
    case Scalar(a, tag, _, plain, quoted) => AnchorFine(a) && (tag != "" || plain || quoted)
    case SequenceStart(a, _, _, _) => AnchorFine(a)
    case MappingStart(a, _, _, _) => AnchorFine(a)
    case _ => true
  }

  // ------------------------------------------------------------- the machine as the acceptor

  function FrameOf(s: State): Frame {
    match s
    case DocumentContent => Root
    case FlowSequenceFirst => Item
    case FlowSequenceItem => Item
    case BlockSequenceFirst => Item
    case BlockSequenceItem => Item
    case FlowMappingFirst => Key
    case FlowMappingKey => Key
    case BlockMappingFirst => Key
    case BlockMappingKey => Key
    case FlowMappingSimpleValue => Val
    case FlowMappingValue => Val
    case BlockMappingSimpleValue => Val
    case BlockMappingValue => Val
    case _ => Close
  }

  function Frames(states: seq<State>): (f: seq<Frame>)
    ensures |f| == |states| && forall i :: 0 <= i < |f| ==> f[i] == FrameOf(states[i])
  {
    seq(|states|, i requires 0 <= i < |states| => FrameOf(states[i]))
  }

  function View(state: State, states: seq<State>): Config {
    match state
    case StreamStartState => Start
    case FirstDocumentStart => Idle
    case DocumentStartState => Idle
    case EndState => Done
    case _ => Open(Frames(states) + [FrameOf(state)])
  }

  predicate IsFirst(s: State) { s.FlowSequenceFirst? || s.FlowMappingFirst? || s.BlockSequenceFirst? || s.BlockMappingFirst? }

  predicate Inside(s: State) {
    s.FlowSequenceItem? || s.FlowMappingKey? || s.FlowMappingSimpleValue? || s.FlowMappingValue?
    || s.BlockSequenceItem? || s.BlockMappingKey? || s.BlockMappingSimpleValue? || s.BlockMappingValue?
  }

  predicate IsFlow(s: State) {
    s.FlowSequenceItem? || s.FlowMappingKey? || s.FlowMappingSimpleValue? || s.FlowMappingValue?
  }

  /** Open collections wait on a stack whose bottom is the end of the document. */
  predicate Stacked(state: State, states: seq<State>) {
    if Inside(state) || IsFirst(state)
    then states != [] && states[0] == DocumentEndState && forall i :: 0 < i < |states| ==> Inside(states[i])
    else states == []
  }

  function FlowCount(states: seq<State>): nat {
    if states == [] then 0 else FlowCount(states[..|states| - 1]) + if IsFlow(states[|states| - 1]) then 1 else 0
  }

  /** The saved indentations: -1 at the bottom, none negative above. */
  predicate Levels(indents: seq<int>, indent: int) {
    if indents == [] then indent == -1
    else indents[0] == -1 && indent >= 0 && forall i :: 0 < i < |indents| ==> indents[i] >= 0
  }

  /** One saved indentation for each collection entered, one flow level for each flow collection. */
  predicate Right(state: State, states: seq<State>, indents: seq<int>, indent: int, flow: nat) {
    && Stacked(state, states) && (state != StreamStartState ==> Levels(indents, indent))
    && |indents| == |states| - (if IsFirst(state) then 1 else 0)
    && flow == FlowCount(states + [state])
  }

  lemma FlowPush(states: seq<State>, s: State)
    ensures FlowCount(states + [s]) == FlowCount(states) + if IsFlow(s) then 1 else 0
  {
    assert (states + [s])[..|states|] == states;
  }

  lemma FramesPush(states: seq<State>, s: State)
    ensures Frames(states + [s]) == Frames(states) + [FrameOf(s)]
  {
  }

  /** The next indentation: the first one depends on the style, later ones on whether the sequence is indented. */
  function Deeper(indent: int, flowStyle: bool, indentless: bool, step: int): int {
    if indent < 0 then (if flowStyle then step else 0) else if indentless then indent else indent + step
  }

  predicate NamesFine(e: Event) {
    match e
    case Alias(name) => NameFine(name)
    case Scalar(a, _, _, _, _) => AnchorFine(a)
    case SequenceStart(a, _, _, _) => AnchorFine(a)
    case MappingStart(a, _, _, _) => AnchorFine(a)
    case _ => true
  }

  predicate IsNode(e: Event) { e.Alias? || e.Scalar? || e.SequenceStart? || e.MappingStart? }

  predicate Tagged(e: Event) { e.Scalar? ==> e.tag != "" || e.plainImplicit || e.quotedImplicit }

  /** The machine did with the event what the acceptor does. */
  predicate Follows(c: Config, e: Event, ok: bool, d: Config) {
    (ok <==> Tagged(e) && Accept(c, e).Some?) && (ok ==> d == Accept(c, e).value)
  }

  /** A state on the stack can be returned to. */
  predicate Waits(states: seq<State>, indents: seq<int>, indent: int, flow: nat) {
    && states != []
    && Right(states[|states| - 1], states[..|states| - 1], indents, indent, flow)
    && (Inside(states[|states| - 1]) || states == [DocumentEndState])
  }

  /** The stack once a collection has been entered and the state to return to is pushed. */
  lemma EnteredWaits(state: State, states: seq<State>, next: State, indents: seq<int>, indent: int, flow: nat)
    requires Stacked(state, states) && Inside(next) && (Inside(state) || IsFirst(state))
    requires Levels(indents, indent) && |indents| == |states|
    requires flow == FlowCount(states) + if IsFlow(next) then 1 else 0
    ensures Waits(states + [next], indents, indent, flow)
  {
    FlowPush(states, next);
    assert (states + [next])[..|states|] == states;
  }

  /** A node in a frame that wants one: the frame advances, and a collection adds its own. */
  lemma NodeAccept(c: Config, e: Event, states: seq<State>, next: State)
    requires c.Open? && |c.frames| == |states| + 1 && c.frames[..|states|] == Frames(states)
    requires c.frames[|states|] != Close && FrameOf(next) == NextFrame(c.frames[|states|])
    ensures IsNode(e) ==> Accept(c, e).Some?
    ensures e.Alias? || e.Scalar? ==> Accept(c, e).value == Open(Frames(states) + [FrameOf(next)])
    ensures e.SequenceStart? ==> Accept(c, e).value == Open(Frames(states + [next]) + [Item])
    ensures e.MappingStart? ==> Accept(c, e).value == Open(Frames(states + [next]) + [Key])
  {
    FramesPush(states, next);
  }

  /** What is on the top of the stack can be returned to. */
  lemma Returned(states: seq<State>, indents: seq<int>, indent: int, flow: nat)
    requires Waits(states, indents, indent, flow)
    ensures Levels(indents, indent) && states != [] && states[|states| - 1] != StreamStartState
    ensures Right(states[|states| - 1], states[..|states| - 1], indents, indent, flow)
  {
  }

  /** A scalar is written with an indentation of at least two. */
  lemma AtLeastTwo(indents: seq<int>, indent: int, step: int)
    requires Levels(indents, indent) && 2 <= step
    ensures Deeper(indent, true, false, step) >= 2
  {
  }

  function Scalars(e: Event): nat { if e.Scalar? then 1 else 0 }

  function ScalarCount(es: seq<Event>): nat {
    if es == [] then 0 else ScalarCount(es[..|es| - 1]) + Scalars(es[|es| - 1])
  }

  lemma ScalarCountMore(es: seq<Event>, e: Event)
    ensures ScalarCount(es + [e]) == ScalarCount(es) + Scalars(e)
  {
    assert (es + [e])[..|es|] == es;
  }

  class Emitter {
    const canonical: bool
    var bestIndent: int
    var state: State
    var states: seq<State>
    var indents: seq<int>
    var indent: int
    var flow: nat

    // The indentation that each scalar so far was written with.
    ghost var margins: seq<int>

    /** The indentation step is settled, and every scalar so far was written with an indentation of two or more. */
    ghost predicate Indenting()
      reads this`bestIndent, this`margins
    {
      2 <= bestIndent <= 9 && forall i :: 0 <= i < |margins| ==> margins[i] >= 2
    }

    ghost predicate Valid()
      reads this`state, this`states, this`indents, this`indent, this`flow, this`bestIndent, this`margins
    {
      Right(state, states, indents, indent, flow) && (if state == StreamStartState then margins == [] else Indenting())
    }

    ghost function Now(): Config
      reads this`state, this`states
    {
      View(state, states)
    }

    method IncreaseIndent(flowStyle: bool, indentless: bool)
      requires Levels(indents, indent) && bestIndent >= 0
      modifies this`indents, this`indent
      ensures Levels(indents, indent) && indents == old(indents) + [old(indent)]
      ensures indent == Deeper(old(indent), flowStyle, indentless, bestIndent)
    {
      indents := indents + [indent];
      if indent < 0 {
        indent := if flowStyle then bestIndent else 0;
      } else if !indentless {
        indent := indent + bestIndent;
      }
    }

    method PopIndent()
      requires indents != []
      modifies this`indents, this`indent
      ensures indents == old(indents)[..|old(indents)| - 1] && indent == old(indents)[|old(indents)| - 1]
    {
      indent := indents[|indents| - 1];
      indents := indents[..|indents| - 1];
    }

    method PopState()
      requires states != []
      modifies this`state, this`states
      ensures state == old(states)[|old(states)| - 1] && states == old(states)[..|old(states)| - 1]
    {
      state := states[|states| - 1];
      states := states[..|states| - 1];
    }

    /** A collection is written in flow style inside another such, in canonical form, on request, or when empty. */
    predicate InFlow(e: Event, empty: bool)
      requires e.SequenceStart? || e.MappingStart?
      reads this`flow
    {
      flow > 0 || canonical || e.flow || empty
    }

    /** Writes a scalar, indented one step deeper than what is around it. */
    method EmitScalar(e: Event) returns (ok: bool, margin: int)
      requires Waits(states, indents, indent, flow) && Indenting() && e.Scalar?
      modifies this`state, this`states, this`indents, this`indent, this`margins
      ensures ok <==> Tagged(e)
      ensures ok ==> margins == old(margins) + [margin] && margin == Deeper(old(indent), true, false, bestIndent) >= 2
      ensures ok ==> Valid() && Indenting() && state == old(states)[|old(states)| - 1] && states == old(states)[..|old(states)| - 1]
    {
      hide Right, Levels, Deeper, Waits;
      if e.tag == "" && !e.plainImplicit && !e.quotedImplicit { return false, 0; }
      Returned(states, indents, indent, flow);
      margin := WriteScalar();
      PopState();
      ok := true;
    }

    /** The text itself, with the indentation increased for it. */
    method WriteScalar() returns (margin: int)
      requires Levels(indents, indent) && Indenting()
      modifies this`indents, this`indent, this`margins
      ensures indents == old(indents) && indent == old(indent) && Indenting()
      ensures margins == old(margins) + [margin] && margin == Deeper(old(indent), true, false, bestIndent) >= 2
    {
      hide Levels, Deeper;
      AtLeastTwo(indents, indent, bestIndent);
      IncreaseIndent(true, false);
      margin := indent;
      margins := margins + [margin];
      PopIndent();
      assert indents == old(indents);
    }

    /** emit_node, with the state to return to on the stack: scalars and aliases return, collections begin. */
    method EmitNode(e: Event, empty: bool) returns (ok: bool)
      requires Waits(states, indents, indent, flow) && Indenting()
      modifies this`state, this`states, this`indents, this`indent, this`margins
      ensures ok <==> IsNode(e) && Tagged(e)
      ensures ok ==> Valid() && |margins| == |old(margins)| + Scalars(e)
      ensures ok && (e.Alias? || e.Scalar?) ==>
        state == old(states)[|old(states)| - 1] && states == old(states)[..|old(states)| - 1]
      ensures ok && e.SequenceStart? ==> states == old(states) && state == if InFlow(e, empty) then FlowSequenceFirst else BlockSequenceFirst
      ensures ok && e.MappingStart? ==> states == old(states) && state == if InFlow(e, empty) then FlowMappingFirst else BlockMappingFirst
    {
      hide Right;
      StartsRight(states, indents, indent, flow);
      match e
      case Alias(_) => PopState(); ok := true;
      case Scalar(_, _, _, _, _) =>
        var margin;
        ok, margin := EmitScalar(e);
      case SequenceStart(_, _, _, flowStyle) =>
        state := if flow > 0 || canonical || flowStyle || empty then FlowSequenceFirst else BlockSequenceFirst;
        ok := true;
      case MappingStart(_, _, _, flowStyle) =>
        state := if flow > 0 || canonical || flowStyle || empty then FlowMappingFirst else BlockMappingFirst;
        ok := true;
      case _ => ok := false;
    }

    /** The next child of the collection the machine is in. */
    method EmitChild(e: Event, next: State, empty: bool) returns (ok: bool)
      requires Entered(state, states, indents, indent, flow, IsFlow(next)) && Inside(next)
      requires FrameOf(next) == NextFrame(FrameOf(state)) && !(e.SequenceEnd? && FrameOf(state) == Item) && !(e.MappingEnd? && FrameOf(state) == Key)
      requires Indenting()
      modifies this`state, this`states, this`indents, this`indent, this`margins
      ensures Follows(old(Now()), e, ok, Now()) && (ok ==> Valid())
      ensures ok ==> |margins| == |old(margins)| + Scalars(e)
    {
      ghost var base, f := states, FrameOf(state);
      EnteredWaits(state, states, next, indents, indent, flow);
      ChildAccept(state, states, next, e);
      FirstsViewed(states + [next]);
      hide Right, Waits, Entered, Accept, View, Frames, FrameOf, Inside;
      states := states + [next];
      assert states[..|states| - 1] == base;
      ok := EmitNode(e, empty);
    }

    /** The first event of a collection: the indentation is saved and the flow level counted. */
    method Enter(first: bool, flowStyle: bool, indentless: bool)
      requires Valid() && (if first then IsFirst(state) else Inside(state) && IsFlow(state) == flowStyle)
      modifies this`indents, this`indent, this`flow
      ensures Entered(state, states, indents, indent, flow, flowStyle) && Indenting()
    {
      FlowPush(states, state);
      hide FlowCount, Stacked, Levels;
      if first {
        IncreaseIndent(flowStyle, indentless);
        if flowStyle { flow := flow + 1; }
      }
    }

    /** The end of a collection: the machine returns to what was going on around it. */
    method Leave(flowStyle: bool)
      requires Entered(state, states, indents, indent, flow, flowStyle) && Indenting()
      modifies this`state, this`states, this`indents, this`indent, this`flow
      ensures Valid() && state == old(states)[|old(states)| - 1] && states == old(states)[..|old(states)| - 1]
    {
      LeaveRight(state, states, indents, indent, flow, flowStyle);
      hide Right;
      if flowStyle { flow := flow - 1; }
      PopIndent();
      PopState();
    }

    method EmitStreamStart(e: Event) returns (ok: bool)
      requires Valid() && state == StreamStartState
      modifies this`state, this`indent, this`bestIndent
      ensures Follows(old(Now()), e, ok, Now()) && (ok ==> Valid())
      ensures ok ==> |margins| == |old(margins)| + Scalars(e)
      ensures ok ==> bestIndent == if 2 <= old(bestIndent) <= 9 then old(bestIndent) else 2
    {
      hide Right, Accept, View;
      StartAccept(e);
      StartRight(states, indents, indent, flow);
      if !e.StreamStart? { return false; }
      if bestIndent < 2 || bestIndent > 9 { bestIndent := 2; }
      indent := -1;
      state := FirstDocumentStart;
      ok := true;
    }

    method EmitDocumentStart(e: Event) returns (ok: bool)
      requires Valid() && (state == FirstDocumentStart || state == DocumentStartState)
      modifies this`state
      ensures Follows(old(Now()), e, ok, Now()) && (ok ==> Valid())
      ensures ok ==> |margins| == |old(margins)| + Scalars(e)
    {
      hide Right, Accept, View;
      OutsideRight(state, states, indents, indent, flow);
      IdleAccept(e);
      if e.DocumentStart? {
        state := DocumentContent;
        return true;
      }
      if e.StreamEnd? {
        state := EndState;
        return true;
      }
      ok := false;
    }

    method EmitDocumentContent(e: Event, empty: bool) returns (ok: bool)
      requires Valid() && state == DocumentContent
      modifies this`state, this`states, this`indents, this`indent, this`margins
      ensures Follows(old(Now()), e, ok, Now()) && (ok ==> Valid())
      ensures ok ==> |margins| == |old(margins)| + Scalars(e)
    {
      ContentWaits(indents, indent, flow);
      ContentAccept(e);
      FirstsViewed([DocumentEndState]);
      hide Right, Waits, Accept, View, Frames, FrameOf, Inside;
      states := states + [DocumentEndState];
      assert states == [DocumentEndState] && states[..0] == [];
      ok := EmitNode(e, empty);
    }

    method EmitDocumentEnd(e: Event) returns (ok: bool)
      requires Valid() && state == DocumentEndState
      modifies this`state
      ensures Follows(old(Now()), e, ok, Now()) && (ok ==> Valid())
      ensures ok ==> |margins| == |old(margins)| + Scalars(e)
    {
      hide Right, Accept, View;
      EndAccept(e);
      EndRight(states, indents, indent, flow);
      if !e.DocumentEnd? { return false; }
      state := DocumentStartState;
      ok := true;
    }

    method EmitFlowSequenceItem(e: Event, first: bool, empty: bool) returns (ok: bool)
      requires Valid() && state == (if first then FlowSequenceFirst else FlowSequenceItem)
      modifies this`state, this`states, this`indents, this`indent, this`flow, this`margins
      ensures Follows(old(Now()), e, ok, Now()) && (ok ==> Valid())
      ensures ok ==> |margins| == |old(margins)| + Scalars(e)
    {
      hide Right, Accept, View, Stacked;
      Enter(first, true, false);
      if e.SequenceEnd? {
        LeaveAccept(state, states, e);
        Leave(true);
        return true;
      }
      ok := EmitChild(e, FlowSequenceItem, empty);
    }

    method EmitFlowMappingKey(e: Event, first: bool, simple: bool, empty: bool) returns (ok: bool)
      requires Valid() && state == (if first then FlowMappingFirst else FlowMappingKey)
      modifies this`state, this`states, this`indents, this`indent, this`flow, this`margins
      ensures Follows(old(Now()), e, ok, Now()) && (ok ==> Valid())
      ensures ok ==> |margins| == |old(margins)| + Scalars(e)
    {
      hide Right, Accept, View, Stacked;
      Enter(first, true, false);
      if e.MappingEnd? {
        LeaveAccept(state, states, e);
        Leave(true);
        return true;
      }
      if !canonical && simple {
        ok := EmitChild(e, FlowMappingSimpleValue, empty);
      } else {
        ok := EmitChild(e, FlowMappingValue, empty);
      }
    }

    method EmitFlowMappingValue(e: Event, empty: bool) returns (ok: bool)
      requires Valid() && (state == FlowMappingSimpleValue || state == FlowMappingValue)
      modifies this`state, this`states, this`indents, this`indent, this`flow, this`margins
      ensures Follows(old(Now()), e, ok, Now()) && (ok ==> Valid())
      ensures ok ==> |margins| == |old(margins)| + Scalars(e)
    {
      hide Right, Accept, View, Stacked;
      Enter(false, true, false);
      ok := EmitChild(e, FlowMappingKey, empty);
    }

    method EmitBlockSequenceItem(e: Event, first: bool, indentless: bool, empty: bool) returns (ok: bool)
      requires Valid() && state == (if first then BlockSequenceFirst else BlockSequenceItem)
      modifies this`state, this`states, this`indents, this`indent, this`flow, this`margins
      ensures Follows(old(Now()), e, ok, Now()) && (ok ==> Valid())
      ensures ok ==> |margins| == |old(margins)| + Scalars(e)
    {
      hide Right, Accept, View, Stacked;
      Enter(first, false, indentless);
      if e.SequenceEnd? {
        LeaveAccept(state, states, e);
        Leave(false);
        return true;
      }
      ok := EmitChild(e, BlockSequenceItem, empty);
    }

    method EmitBlockMappingKey(e: Event, first: bool, simple: bool, empty: bool) returns (ok: bool)
      requires Valid() && state == (if first then BlockMappingFirst else BlockMappingKey)
      modifies this`state, this`states, this`indents, this`indent, this`flow, this`margins
      ensures Follows(old(Now()), e, ok, Now()) && (ok ==> Valid())
      ensures ok ==> |margins| == |old(margins)| + Scalars(e)
    {
      hide Right, Accept, View, Stacked;
      Enter(first, false, false);
      if e.MappingEnd? {
        LeaveAccept(state, states, e);
        Leave(false);
        return true;
      }
      if simple {
        ok := EmitChild(e, BlockMappingSimpleValue, empty);
      } else {
        ok := EmitChild(e, BlockMappingValue, empty);
      }
    }

    method EmitBlockMappingValue(e: Event, empty: bool) returns (ok: bool)
      requires Valid() && (state == BlockMappingSimpleValue || state == BlockMappingValue)
      modifies this`state, this`states, this`indents, this`indent, this`flow, this`margins
      ensures Follows(old(Now()), e, ok, Now()) && (ok ==> Valid())
      ensures ok ==> |margins| == |old(margins)| + Scalars(e)
    {
      hide Right, Accept, View, Stacked;
      Enter(false, false, false);
      ok := EmitChild(e, BlockMappingKey, empty);
    }

    /** The state dispatcher: one event, handled as the acceptor accepts it; no stack is popped when empty. */
    method StateMachine(q: Queued, empty: bool) returns (ok: bool)
      requires Valid()
      modifies this`state, this`states, this`indents, this`indent, this`flow, this`margins, this`bestIndent
      ensures Follows(old(Now()), q.event, ok, Now()) && (ok ==> Valid())
      ensures ok ==> |margins| == |old(margins)| + Scalars(q.event)
    {
      var e := q.event;
      match state
      case StreamStartState => ok := EmitStreamStart(e);
      case FirstDocumentStart => ok := EmitDocumentStart(e);
      case DocumentStartState => ok := EmitDocumentStart(e);
      case DocumentContent => ok := EmitDocumentContent(e, empty);
      case DocumentEndState => ok := EmitDocumentEnd(e);
      case FlowSequenceFirst => ok := EmitFlowSequenceItem(e, true, empty);
      case FlowSequenceItem => ok := EmitFlowSequenceItem(e, false, empty);
      case FlowMappingFirst => ok := EmitFlowMappingKey(e, true, q.simple, empty);
      case FlowMappingKey => ok := EmitFlowMappingKey(e, false, q.simple, empty);
      case FlowMappingSimpleValue => ok := EmitFlowMappingValue(e, empty);
      case FlowMappingValue => ok := EmitFlowMappingValue(e, empty);
      case BlockSequenceFirst => ok := EmitBlockSequenceItem(e, true, q.indentless, empty);
      case BlockSequenceItem => ok := EmitBlockSequenceItem(e, false, false, empty);
      case BlockMappingFirst => ok := EmitBlockMappingKey(e, true, q.simple, empty);
      case BlockMappingKey => ok := EmitBlockMappingKey(e, false, q.simple, empty);
      case BlockMappingSimpleValue => ok := EmitBlockMappingValue(e, empty);
      case BlockMappingValue => ok := EmitBlockMappingValue(e, empty);
      case EndState => ok := false;
    }

    // The lookahead queue.
    var events: seq<Queued>
    var head: nat
    ghost var handled: seq<Event>

    ghost function Waiting(): seq<Event>
      requires head <= |events|
      reads this`events, this`head
    {
      Plain(events[head..])
    }

    /** The machine is where the acceptor is after the events handled so far. */
    ghost predicate Tracks()
      reads this
    {
      && Valid() && head <= |events| && Run(Start, handled) == Some(Now()) && AllFit(handled)
      && |margins| == ScalarCount(handled)
    }

    constructor (canonicalForm: bool, step: int)
      ensures Tracks() && handled == [] && Waiting() == []
    {
      canonical, bestIndent, margins := canonicalForm, step, [];
      state, states, indents, indent, flow := StreamStartState, [], [], 0, 0;
      events, head, handled := [], 0, [];
    }

    /** need_more_events: a document, sequence or mapping start waits for one, two or three events more, or for its end. */
    method NeedMoreEvents() returns (need: bool)
      requires head <= |events|
      ensures need <==> NeedsMore(Waiting())
    {
      ghost var q := Waiting();
      if head == |events| { return true; }
      var accumulate := Accumulate(events[head].event);
      assert q[0] == events[head].event;
      if accumulate == 0 { return false; }
      if |events| - head > accumulate { return false; }
      var level, i := 0, head;
      while i < |events|
        invariant head <= i <= |events| && level == Sum(q[..i - head])
        invariant forall k :: 1 <= k <= i - head ==> Sum(q[..k]) != 0
      {
        assert q[i - head] == events[i].event;
        SumNext(q, i - head);
        level := level + Change(events[i].event);
        if level == 0 { return false; }
        i := i + 1;
      }
      need := true;
    }

    method AnalyzeAnchor(anchor: string) returns (ok: bool)
      ensures ok <==> NameFine(anchor)
    {
      if |anchor| == 0 { return false; }
      var i := 0;
      while i < |anchor|
        invariant 0 <= i <= |anchor|
        invariant forall k :: 0 <= k < i ==>
          '0' <= anchor[k] <= '9' || 'A' <= anchor[k] <= 'Z' || 'a' <= anchor[k] <= 'z' || anchor[k] == '_' || anchor[k] == '-'
      {
        var c := anchor[i];
        if !('0' <= c <= '9' || 'A' <= c <= 'Z' || 'a' <= c <= 'z' || c == '_' || c == '-') { return false; }
        i := i + 1;
      }
      ok := true;
    }

    method AnalyzeEvent(e: Event) returns (ok: bool)
      ensures ok <==> NamesFine(e)
    {
      hide NameFine;
      ok := true;
      match e
      case Alias(name) => ok := AnalyzeAnchor(name);
      case Scalar(a, _, _, _, _) => if a.Some? && a.value != "" { ok := AnalyzeAnchor(a.value); }
      case SequenceStart(a, _, _, _) => if a.Some? && a.value != "" { ok := AnalyzeAnchor(a.value); }
      case MappingStart(a, _, _, _) => if a.Some? && a.value != "" { ok := AnalyzeAnchor(a.value); }
      case _ =>
    }

    /** The next two events open and close a collection at once. */
    method NextIsEmpty() returns (empty: bool)
      requires head < |events|
      ensures empty <==> EmptyNext(Waiting())
    {
      empty := |events| - head >= 2
        && ((events[head].event.SequenceStart? && events[head + 1].event.SequenceEnd?)
            || (events[head].event.MappingStart? && events[head + 1].event.MappingEnd?));
    }

    /** One event is analyzed and goes through the machine. */
    method HandleEvent(q: Queued, empty: bool) returns (ok: bool)
      requires Valid() && Run(Start, handled) == Some(Now()) && AllFit(handled) && |margins| == ScalarCount(handled)
      modifies this`state, this`states, this`indents, this`indent, this`flow, this`margins, this`bestIndent, this`handled
      ensures ok <==> Fit(q.event) && Accept(old(Now()), q.event).Some?
      ensures ok ==> Valid() && Run(Start, handled) == Some(Now()) && AllFit(handled) && handled == old(handled) + [q.event]
      ensures ok ==> |margins| == ScalarCount(handled)
    {
      FitIs(q.event);
      hide Right, Accept, View, NamesFine, Tagged, Fit, AllFit, Run, ScalarCount;
      ok := AnalyzeEvent(q.event);
      if !ok { return; }
      RunMore(handled, Now(), q.event);
      ok := StateMachine(q, empty);
      if !ok { return; }
      AllFitMore(handled, q.event);
      ScalarCountMore(handled, q.event);
      handled := handled + [q.event];
    }

    /** The head of the queue is handled. */
    method HandleHead() returns (ok: bool)
      requires Tracks() && head < |events|
      modifies this
      ensures ok ==> Tracks() && handled + Waiting() == old(handled + Waiting()) && |Waiting()| < |old(Waiting())|
      ensures !ok ==> !Fitting(old(handled + Waiting()))
    {
      hide Right, Accept, View, Fit, AllFit, Fitting, Run, Plain, ScalarCount;
      PlainRest(events, head);
      FitsOn(handled, Waiting(), Now());
      Moved(handled, Waiting());
      var empty := NextIsEmpty();
      ok := HandleEvent(events[head], empty);
      if !ok { return; }
      head := head + 1;
    }

    /**
     * Emits one more event: it is queued, and then as much of the queue is handled as
     * the lookahead allows. Nothing is lost or handled out of order, and a failure means
     * that the events do not fit.
     */
    method Emit(q: Queued) returns (ok: bool)
      requires Tracks()
      modifies this
      ensures ok ==> Tracks() && NeedsMore(Waiting()) && handled + Waiting() == old(handled + Waiting()) + [q.event]
      ensures !ok ==> !Fitting(old(handled + Waiting()) + [q.event])
    {
      hide Right, Accept, View, Fit, AllFit, NeedsMore, Run, Fitting, Plain, ScalarCount;
      ghost var all := handled + Waiting() + [q.event];
      PlainMore(events, head, q);
      Regroup(handled, Waiting(), [q.event]);
      events := events + [q];
      while true
        invariant Tracks() && handled + Waiting() == all
        decreases |Waiting()|
      {
        var need := NeedMoreEvents();
        if need { break; }
        NothingNeedsMore(Waiting());
        PlainLength(events[head..]);
        ok := HandleHead();
        if !ok { return; }
      }
      ok := true;
    }

    /**
     * Emits any events. If they are taken, they are handled in order up to those that wait for
     * more; if not, they do not fit. Every scalar handled was written with an indentation of two
     * or more. A whole stream is handled to its end.
     */
    method EmitAll(all: seq<Queued>) returns (ok: bool)
      requires Tracks() && handled == [] && Waiting() == []
      modifies this
      ensures ok ==> Tracks() && handled + Waiting() == Plain(all)
      ensures !ok ==> !Fitting(Plain(all))
      ensures ok ==> |margins| == ScalarCount(handled) && forall i :: 0 <= i < |margins| ==> margins[i] >= 2
      ensures IsStream(Plain(all)) && AllFit(Plain(all)) ==>
        ok && Tracks() && handled == Plain(all) && Waiting() == [] && state == EndState && states == [] && indents == [] && flow == 0
    {
      hide Right, View, Fit, AllFit, NeedsMore, Run, IsStream, Accept, ScalarCount;
      var i := 0;
      while i < |all|
        invariant 0 <= i <= |all| && Tracks() && handled + Waiting() == Plain(all[..i])
        invariant i == 0 || NeedsMore(Waiting())
      {
        PlainPrefix(all, i);
        ok := Emit(all[i]);
        if !ok {
          FrontFits(Plain(all), i + 1);
          PlainFront(all, i + 1);
          if IsStream(Plain(all)) && AllFit(Plain(all)) { StreamFits(Plain(all)); }
          return;
        }
        i := i + 1;
      }
      assert all[..|all|] == all;
      ok := true;
      if IsStream(Plain(all)) {
        StreamHandled(handled, Waiting(), Now(), Plain(all));
        AtRest(state, states, indents, indent, flow);
      }
    }
  }

  lemma PlainPrefix(all: seq<Queued>, i: nat)
    requires i < |all|
    ensures Plain(all[..i + 1]) == Plain(all[..i]) + [all[i].event]
  {
  }

  /** The front of events that fit fits. */
  lemma FrontFits(es: seq<Event>, n: nat)
    requires n <= |es|
    ensures Fitting(es) ==> Fitting(es[..n])
  {
    assert es == es[..n] + es[n..];
    RunConcat(Start, es[..n], es[n..]);
  }

  lemma PlainFront(all: seq<Queued>, n: nat)
    requires n <= |all|
    ensures Plain(all)[..n] == Plain(all[..n])
  {
  }

  /** A stream with contents in order fits. */
  lemma StreamFits(all: seq<Event>)
    requires IsStream(all) && AllFit(all)
    ensures Fitting(all)
  {
    StreamAccepted(all);
  }

  /** A machine with nothing open: both stacks are empty and the flow level is zero. */
  lemma AtRest(state: State, states: seq<State>, indents: seq<int>, indent: int, flow: nat)
    requires Right(state, states, indents, indent, flow) && !View(state, states).Open?
    ensures states == [] && indents == [] && flow == 0
    ensures state != StreamStartState ==> indent == -1
    ensures View(state, states) == Done ==> state == EndState
  {
    FlowPush(states, state);
  }

  // ----------------------------------------------------------------------- the lookahead ends

  /** How deep the acceptor is. */
  function Level(c: Config): int {
    match c
    case Start => 0
    case Idle => 1
    case Open(frames) => 1 + |frames|
    case Done => 0
  }

  lemma AcceptLevel(c: Config, e: Event)
    requires Accept(c, e).Some?
    ensures Level(Accept(c, e).value) == Level(c) + Change(e)
  {
  }

  lemma {:induction false} RunLevel(c: Config, es: seq<Event>)
    requires Run(c, es).Some?
    ensures Sum(es) == Level(Run(c, es).value) - Level(c)
    decreases |es|
  {
    if es != [] {
      var n := |es| - 1;
      assert es == es[..n] + [es[n]];
      RunConcat(c, es[..n], [es[n]]);
      hide Accept;
      RunLevel(c, es[..n]);
      assert [es[n]][1..] == [];
      AcceptLevel(Run(c, es[..n]).value, es[n]);
    }
  }

  /** A run to the end of the stream passes through every level on its way down. */
  lemma {:induction false} Crosses(c: Config, es: seq<Event>, level: nat) returns (k: nat)
    requires Run(c, es) == Some(Done) && Level(c) > level
    ensures k <= |es| && Run(c, es[..k]).Some? && Level(Run(c, es[..k]).value) == level
    decreases |es|
  {
    hide Accept;
    var d := Accept(c, es[0]).value;
    AcceptLevel(c, es[0]);
    if Level(d) == level {
      k := 1;
      assert es[..1][0] == es[0] && es[..1][1..] == [];
    } else {
      k := Crosses(d, es[1..], level);
      assert es[..k + 1][0] == es[0] && es[..k + 1][1..] == es[1..][..k];
      k := k + 1;
    }
  }

  /** At the end of the stream nothing waits for more. */
  lemma NothingWaits(c: Config, q: seq<Event>)
    requires Run(c, q) == Some(Done) && q != []
    ensures !NeedsMore(q)
  {
    if Accumulate(q[0]) > 0 {
      AcceptLevel(c, q[0]);
      var d := Accept(c, q[0]).value;
      hide Accept;
      NotNegative(c);
      var k := Crosses(d, q[1..], Level(c));
      var es := q[..k + 1];
      assert es[0] == q[0] && es[1..] == q[1..][..k];
      RunLevel(c, es);
      assert Sum(q[..k + 1]) == 0;
    }
  }

  lemma NotNegative(c: Config)
    ensures Level(c) >= 0
  {
  }

  lemma StreamHandled(done: seq<Event>, rest: seq<Event>, c: Config, all: seq<Event>)
    requires Run(Start, done) == Some(c) && done + rest == all && IsStream(all) && (NeedsMore(rest) || all == [])
    ensures rest == [] && done == all && c == Done
  {
    StreamAccepted(all);
    RunConcat(Start, done, rest);
    if rest != [] { NothingWaits(c, rest); }
    assert rest == [] ==> done + rest == done;
  }

  lemma Regroup(a: seq<Event>, b: seq<Event>, c: seq<Event>)
    ensures a + (b + c) == a + b + c
  {
  }

  lemma PlainMore(events: seq<Queued>, head: nat, q: Queued)
    requires head <= |events|
    ensures Plain((events + [q])[head..]) == Plain(events[head..]) + [q.event]
  {
  }

  lemma PlainRest(events: seq<Queued>, head: nat)
    requires head < |events|
    ensures var q := Plain(events[head..]); q != [] && q[0] == events[head].event && Plain(events[head + 1..]) == q[1..]
  {
  }

  lemma PlainLength(q: seq<Queued>)
    ensures |Plain(q)| == |q|
  {
  }

  lemma Moved(done: seq<Event>, rest: seq<Event>)
    requires rest != []
    ensures (done + [rest[0]]) + rest[1..] == done + rest
  {
  }

  predicate EmptyNext(q: seq<Event>) {
    |q| >= 2 && ((q[0].SequenceStart? && q[1].SequenceEnd?) || (q[0].MappingStart? && q[1].MappingEnd?))
  }

  function Accumulate(e: Event): nat {
    if e.DocumentStart? then 1 else if e.SequenceStart? then 2 else if e.MappingStart? then 3 else 0
  }

  function Change(e: Event): int {
    if e.StreamStart? || e.DocumentStart? || e.SequenceStart? || e.MappingStart? then 1
    else if e.StreamEnd? || e.DocumentEnd? || e.SequenceEnd? || e.MappingEnd? then -1 else 0
  }

  function Sum(q: seq<Event>): int { if q == [] then 0 else Sum(q[..|q| - 1]) + Change(q[|q| - 1]) }

  lemma SumNext(q: seq<Event>, k: nat)
    requires k < |q|
    ensures Sum(q[..k + 1]) == Sum(q[..k]) + Change(q[k])
  {
    assert q[..k + 1][..k] == q[..k];
  }

  predicate NeedsMore(q: seq<Event>) {
    q == [] || (0 < |q| <= Accumulate(q[0]) && forall k :: 1 <= k <= |q| ==> Sum(q[..k]) != 0)
  }

  lemma NothingNeedsMore(q: seq<Event>)
    requires !NeedsMore(q)
    ensures q != []
  {
  }

  predicate AllFit(es: seq<Event>) { forall i :: 0 <= i < |es| ==> Fit(es[i]) }

  lemma AllFitMore(es: seq<Event>, e: Event)
    requires AllFit(es) && Fit(e)
    ensures AllFit(es + [e])
  {
  }

  /** Events that nest, with contents in order. */
  ghost predicate Fitting(es: seq<Event>) { Run(Start, es).Some? && AllFit(es) }

  lemma RunMore(es: seq<Event>, c: Config, e: Event)
    requires Run(Start, es) == Some(c)
    ensures Run(Start, es + [e]) == Accept(c, e)
  {
    RunConcat(Start, es, [e]);
    assert [e][1..] == [];
  }

  /** If the whole fits, so does its next event. */
  lemma FitsOn(done: seq<Event>, rest: seq<Event>, c: Config)
    requires Run(Start, done) == Some(c) && rest != []
    ensures Fitting(done + rest) ==> Fit(rest[0]) && Accept(c, rest[0]).Some?
  {
    RunConcat(Start, done, rest);
    if Fitting(done + rest) { assert (done + rest)[|done|] == rest[0]; }
  }

  /** Outside collections only the state itself differs. */
  lemma OutsideRight(state: State, states: seq<State>, indents: seq<int>, indent: int, flow: nat)
    requires Right(state, states, indents, indent, flow) && (state == FirstDocumentStart || state == DocumentStartState)
    ensures states == [] && View(state, states) == Idle
    ensures Right(DocumentContent, states, indents, indent, flow) && Right(EndState, states, indents, indent, flow)
  {
    FlowPush(states, state);
    FlowPush(states, DocumentContent);
    FlowPush(states, EndState);
  }

  lemma EndRight(states: seq<State>, indents: seq<int>, indent: int, flow: nat)
    requires Right(DocumentEndState, states, indents, indent, flow)
    ensures states == [] && Right(DocumentStartState, states, indents, indent, flow)
  {
    FlowPush(states, DocumentEndState);
    FlowPush(states, DocumentStartState);
  }

  lemma StartRight(states: seq<State>, indents: seq<int>, indent: int, flow: nat)
    requires Right(StreamStartState, states, indents, indent, flow)
    ensures states == [] && Right(FirstDocumentStart, states, indents, -1, flow)
  {
    FlowPush(states, StreamStartState);
    FlowPush(states, FirstDocumentStart);
  }

  lemma StartAccept(e: Event)
    ensures Accept(View(StreamStartState, []), e).Some? <==> e.StreamStart?
    ensures e.StreamStart? ==> Accept(View(StreamStartState, []), e) == Some(View(FirstDocumentStart, [])) && Tagged(e)
  {
  }

  lemma EndAccept(e: Event)
    ensures Accept(View(DocumentEndState, []), e).Some? <==> e.DocumentEnd?
    ensures e.DocumentEnd? ==> Accept(View(DocumentEndState, []), e) == Some(View(DocumentStartState, [])) && Tagged(e)
  {
    var none: seq<State> := [];
    assert Frames(none) + [Close] == [Close];
  }

  lemma IdleAccept(e: Event)
    ensures Accept(Idle, e).Some? <==> e.DocumentStart? || e.StreamEnd?
    ensures e.DocumentStart? ==> Accept(Idle, e) == Some(View(DocumentContent, []))
    ensures e.StreamEnd? ==> Accept(Idle, e) == Some(View(EndState, []))
    ensures e.DocumentStart? || e.StreamEnd? ==> Tagged(e)
  {
    var none: seq<State> := [];
    assert Frames(none) + [Root] == [Root];
  }

  lemma FitIs(e: Event)
    ensures Fit(e) <==> NamesFine(e) && Tagged(e)
  {
  }

  lemma ContentWaits(indents: seq<int>, indent: int, flow: nat)
    requires Right(DocumentContent, [], indents, indent, flow)
    ensures Waits([DocumentEndState], indents, indent, flow)
  {
    FlowPush([], DocumentContent);
    FlowPush([], DocumentEndState);
    var base: seq<State> := [];
    assert [DocumentEndState][..0] == base;
  }

  lemma ContentAccept(e: Event)
    ensures var c := View(DocumentContent, []);
      && (Accept(c, e).Some? <==> IsNode(e))
      && (e.Alias? || e.Scalar? ==> Accept(c, e) == Some(View(DocumentEndState, [])))
      && (e.SequenceStart? ==> Accept(c, e) == Some(Open(Frames([DocumentEndState]) + [Item])))
      && (e.MappingStart? ==> Accept(c, e) == Some(Open(Frames([DocumentEndState]) + [Key])))
  {
    var none: seq<State> := [];
    assert Frames(none) + [Root] == [Root] && none + [DocumentEndState] == [DocumentEndState];
    if IsNode(e) { NodeAccept(View(DocumentContent, none), e, none, DocumentEndState); }
  }

  /** The end of a collection closes its frame and shows the one below. */
  lemma LeaveAccept(state: State, states: seq<State>, e: Event)
    requires Stacked(state, states) && (Inside(state) || IsFirst(state))
    requires (e.SequenceEnd? && FrameOf(state) == Item) || (e.MappingEnd? && FrameOf(state) == Key)
    ensures states != []
    ensures var n := |states| - 1; Accept(View(state, states), e) == Some(View(states[n], states[..n]))
  {
    Viewed(state, states);
    BelowViewed(state, states);
    hide View, Frames, Stacked;
    assert (Frames(states) + [FrameOf(state)])[..|states|] == Frames(states);
  }

  lemma BelowViewed(state: State, states: seq<State>)
    requires Stacked(state, states) && (Inside(state) || IsFirst(state))
    ensures states != []
    ensures var n := |states| - 1; View(states[n], states[..n]) == Open(Frames(states))
  {
    var n := |states| - 1;
    assert states == states[..n] + [states[n]];
    FramesPush(states[..n], states[n]);
    if n > 0 { Viewed(states[n], states[..n]); }
  }

  /** Within a collection: as many indentations as states wait, and the flow level counts this one too. */
  predicate Entered(state: State, states: seq<State>, indents: seq<int>, indent: int, flow: nat, flowStyle: bool) {
    && (Inside(state) || IsFirst(state)) && Stacked(state, states) && Levels(indents, indent) && |indents| == |states|
    && flow == FlowCount(states) + if flowStyle then 1 else 0
  }

  lemma LeaveRight(state: State, states: seq<State>, indents: seq<int>, indent: int, flow: nat, flowStyle: bool)
    requires Entered(state, states, indents, indent, flow, flowStyle)
    ensures indents != [] && states != []
    ensures var n := |states| - 1; Right(states[n], states[..n], indents[..n], indents[n], FlowCount(states))
  {
    hide FlowCount, Stacked, Levels, Inside, IsFirst;
    var n := |states| - 1;
    StackedPop(state, states);
    LevelsPop(indents, indent);
    assert states == states[..n] + [states[n]];
  }

  lemma StackedPop(state: State, states: seq<State>)
    requires Stacked(state, states) && (Inside(state) || IsFirst(state))
    ensures states != []
    ensures var n := |states| - 1; Stacked(states[n], states[..n]) && !IsFirst(states[n])
  {
    var n := |states| - 1;
    if n > 0 { assert Inside(states[n]); }
  }

  lemma LevelsPop(indents: seq<int>, indent: int)
    requires Levels(indents, indent) && indents != []
    ensures var n := |indents| - 1; Levels(indents[..n], indents[n])
  {
  }

  lemma Viewed(s: State, states: seq<State>)
    requires Inside(s) || IsFirst(s)
    ensures View(s, states) == Open(Frames(states) + [FrameOf(s)]) && FrameOf(s) != Close
  {
  }

  lemma FirstsViewed(states: seq<State>)
    ensures View(FlowSequenceFirst, states) == Open(Frames(states) + [Item]) == View(BlockSequenceFirst, states)
    ensures View(FlowMappingFirst, states) == Open(Frames(states) + [Key]) == View(BlockMappingFirst, states)
  {
  }

  lemma OtherAccept(c: Config, e: Event)
    requires c.Open? && |c.frames| > 1 && !IsNode(e)
    requires !(e.SequenceEnd? && c.frames[|c.frames| - 1] == Item) && !(e.MappingEnd? && c.frames[|c.frames| - 1] == Key)
    ensures Accept(c, e).None?
  {
  }

  lemma ChildAccept(state: State, states: seq<State>, next: State, e: Event)
    requires (Inside(state) || IsFirst(state)) && FrameOf(next) == NextFrame(FrameOf(state)) && Inside(next)
    requires !(e.SequenceEnd? && FrameOf(state) == Item) && !(e.MappingEnd? && FrameOf(state) == Key) && states != []
    ensures var c := View(state, states);
      && (Accept(c, e).Some? <==> IsNode(e))
      && (e.Alias? || e.Scalar? ==> Accept(c, e) == Some(View(next, states)))
      && (e.SequenceStart? ==> Accept(c, e) == Some(Open(Frames(states + [next]) + [Item])))
      && (e.MappingStart? ==> Accept(c, e) == Some(Open(Frames(states + [next]) + [Key])))
  {
    hide Accept, View, FrameOf;
    Viewed(state, states);
    Viewed(next, states);
    var c := View(state, states);
    if IsNode(e) { NodeAccept(c, e, states, next); } else { OtherAccept(c, e); }
  }

  lemma StartsRight(states: seq<State>, indents: seq<int>, indent: int, flow: nat)
    requires Waits(states, indents, indent, flow)
    ensures forall s :: IsFirst(s) ==> Right(s, states, indents, indent, flow)
  {
    var n := |states| - 1;
    assert states == states[..n] + [states[n]];
    forall s | IsFirst(s) ensures Right(s, states, indents, indent, flow) { FlowPush(states, s); }
  }
}
