/**
 * The event parser: a pushdown machine over scanner tokens. Each call yields one
 * event; the stack of return states and the stack of marks stand for the open
 * productions. Every production gives what YamlMachine says, and never pops an empty stack.
 */
module YamlParser {
  import opened YamlEvents
  import opened YamlMachine
  import opened YamlNesting

  /** Marks held by a state: one per bracketed collection that has been entered. */
  function Marks(s: State): nat {
    match s
    case BlockSequenceEntryS => 1
    case BlockMappingKeyS => 1
    case BlockMappingValueS => 1
    case FlowSequenceEntryS => 1
    case FlowSequenceEntryMappingKeyS => 1
    case FlowSequenceEntryMappingValueS => 1
    case FlowSequenceEntryMappingEndS => 1
    case FlowMappingKeyS => 1
    case FlowMappingValueS => 1
    case FlowMappingEmptyValueS => 1
    case _ => 0
  }

  function StackMarks(ss: seq<State>): nat {
    if ss == [] then 0 else StackMarks(ss[..|ss| - 1]) + Marks(ss[|ss| - 1])
  }

  lemma MarksPush(ss: seq<State>, s: State)
    ensures StackMarks(ss + [s]) == StackMarks(ss) + Marks(s)
    ensures Stacked(ss) && Returns(s) ==> Stacked(ss + [s])
  {
    hide Marks;
    assert (ss + [s])[..|ss|] == ss;
  }

  /** The state on the top of the stack, with its marks; none of those that are never returned to. */
  lemma MarksPop(ss: seq<State>)
    requires Stacked(ss)
    ensures ss != [] && StackMarks(ss[..|ss| - 1]) + Marks(ss[|ss| - 1]) == StackMarks(ss) && ss[|ss| - 1] != EndS
  {
    hide Marks;
  }

  datatype Step = Failed | Got(event: Event)

  class Parser {
    const tokens: seq<Token>
    var head: nat
    var state: State
    var states: seq<State>
    var marks: seq<nat>
    var tagDirectives: seq<(string, string)>
    var streamEndProduced: bool
    var error: bool

    ghost function Now(): Machine
      reads this`state, this`states, this`head, this`tagDirectives
    {
      Machine(state, states, head, tagDirectives)
    }

    ghost function Config(): Config
      reads this`state, this`states
    {
      ConfigOf(state, states)
    }

    ghost predicate Valid()
      reads this
    {
      head <= |tokens| && (!error ==>
        Fine(tokens, Now()) && |marks| == StackMarks(states) + Marks(state) && (streamEndProduced <==> state == EndS))
    }

    /** A production in progress: the stack is in order, marks match it, and nothing has failed. */
    ghost predicate Inside(extra: int)
      reads this
    {
      && head <= |tokens| && !error && !streamEndProduced
      && Stacked(states) && |marks| == StackMarks(states) + extra
    }

    /** The step gave what the machine gives, and the marks and flags fit. */
    ghost predicate Gave(out: Outcome, r: Step)
      reads this
    {
      && out == (if r.Failed? then Stop else Next(r.event, Now())) && (r.Failed? <==> error) && head <= |tokens|
      && (!error ==> |marks| == StackMarks(states) + Marks(state) && (streamEndProduced <==> state == EndS))
    }

    constructor (tokens: seq<Token>)
      ensures Valid() && Now() == INITIAL && !error && this.tokens == tokens
    {
      this.tokens := tokens;
      head, state, states, marks, tagDirectives := 0, StreamStartS, [], [], [];
      streamEndProduced, error := false, false;
    }

    /** The token at the head; the scanner fails when there is none. */
    method Peek() returns (t: Option<Token>)
      modifies this`error
      ensures t == At(tokens, head) && error == (old(error) || t.None?)
    {
      if head < |tokens| {
        t := Some(tokens[head]);
      } else {
        error := true;
        t := None;
      }
    }

    method Skip()
      requires head < |tokens|
      modifies this`head, this`streamEndProduced
      ensures head == old(head) + 1 && streamEndProduced == tokens[old(head)].TStreamEnd?
    {
      streamEndProduced := tokens[head].TStreamEnd?;
      head := head + 1;
    }

    /** parser.state = top of parser.states, popped. */
    method Return()
      requires Stacked(states)
      modifies this`state, this`states
      ensures Now() == Back(old(Now()), head) && old(states) != [] && state != EndS
      ensures StackMarks(states) + Marks(state) == old(StackMarks(states))
    {
      hide StackMarks, Marks;
      MarksPop(states);
      state := states[|states| - 1];
      states := states[..|states| - 1];
    }

    /** A node without children: an alias or a scalar, after which the stack is popped. */
    method LeafNode(e: Event, skip: bool) returns (r: Step)
      requires Inside(0)
      requires skip ==> head < |tokens| && !tokens[head].TStreamEnd?
      modifies this`head, this`streamEndProduced, this`state, this`states
      ensures Gave(Next(e, Back(old(Now()), if skip then old(head) + 1 else old(head))), r)
    {
      hide StackMarks, Marks, Stacked;
      Return();
      if skip {
        Skip();
      }
      r := Got(e);
    }

    /** The start of a collection: the machine moves into it, the stack stays. */
    method OpenNode(e: Event, s: State) returns (r: Step)
      requires Inside(Marks(s)) && s != EndS
      modifies this`state
      ensures Gave(Opens(old(Now()), old(head), e, s), r)
    {
      hide StackMarks, Marks, Stacked;
      state := s;
      r := Got(e);
    }

    /** Anchor and tag before a node, in either order, and the tag resolved. */
    method Properties() returns (ok: bool, anchor: Option<string>, tag: string)
      requires Inside(0)
      modifies this`head, this`streamEndProduced, this`error
      ensures head <= |tokens| && (!ok <==> error) && (ok ==> Inside(0))
      ensures var p := PropsAt(tokens, old(head));
        && (ok <==> p.head < |tokens| && TagOf(p, tagDirectives).Some?)
        && (ok ==> head == p.head && anchor == p.anchor && Some(tag) == TagOf(p, tagDirectives))
    {
      hide Stacked, StackMarks, Lookup;
      anchor, tag, ok := None, "", false;
      var tagToken, handle, suffix := false, "", "";
      var t := Peek();
      if t.None? { return; }
      if t.value.TAnchor? {
        anchor := Some(t.value.name);
        Skip();
        t := Peek();
        if t.None? { return; }
        if t.value.TTag? {
          tagToken, handle, suffix := true, t.value.handle, t.value.suffix;
          Skip();
          t := Peek();
          if t.None? { return; }
        }
      } else if t.value.TTag? {
        tagToken, handle, suffix := true, t.value.handle, t.value.suffix;
        Skip();
        t := Peek();
        if t.None? { return; }
        if t.value.TAnchor? {
          anchor := Some(t.value.name);
          Skip();
          t := Peek();
          if t.None? { return; }
        }
      }
      if tagToken {
        var resolved := ResolveTag(tagDirectives, handle, suffix);
        if resolved.None? {
          error := true;
          return;
        }
        tag := resolved.value;
      }
      ok := true;
    }

    /** A node in any position; `block` and `indentless` say which collections may start here. */
    method ParseNode(block: bool, indentless: bool) returns (r: Step)
      requires Inside(0)
      modifies this`head, this`streamEndProduced, this`state, this`states, this`error
      ensures Gave(NodeAt(tokens, old(Now()), block, indentless), r)
    {
      hide StackMarks, PropsAt, TagOf, Stacked, ContentAt;
      var t := Peek();
      if t.None? { return Failed; }
      if t.value.TAlias? {
        r := LeafNode(Alias(t.value.name), true);
        return;
      }
      var ok, anchor, tag := Properties();
      if !ok { return Failed; }
      r := ParseContent(block, indentless, anchor, tag, old(Now()), PropsAt(tokens, old(head)));
    }

    /** A node whose properties are known. */
    method ParseContent(block: bool, indentless: bool, anchor: Option<string>, tag: string, ghost m: Machine, ghost p: Props)
      returns (r: Step)
      requires Inside(0) && head < |tokens| && m == Now().(head := m.head) && p.head == head && p.anchor == anchor
      modifies this`head, this`streamEndProduced, this`state, this`states, this`error
      ensures Gave(ContentAt(m, tokens[old(head)], p, tag, block, indentless), r)
    {
      hide StackMarks, Stacked;
      MarksPop(states);
      var token := tokens[head];
      var noTag := tag == "";
      if indentless && token.TBlockEntry? {
        r := OpenNode(SequenceStart(anchor, tag, noTag, false), IndentlessSequenceEntryS);
      } else if token.TScalar? {
        var plainImplicit := (noTag && token.plain) || tag == "!";
        var quotedImplicit := !plainImplicit && noTag;
        r := LeafNode(Scalar(anchor, tag, token.text, plainImplicit, quotedImplicit), true);
      } else if token.TFlowSequenceStart? {
        r := OpenNode(SequenceStart(anchor, tag, noTag, true), FlowSequenceFirstEntryS);
      } else if token.TFlowMappingStart? {
        r := OpenNode(MappingStart(anchor, tag, noTag, true), FlowMappingFirstKeyS);
      } else if block && token.TBlockSequenceStart? {
        r := OpenNode(SequenceStart(anchor, tag, noTag, false), BlockSequenceFirstEntryS);
      } else if block && token.TBlockMappingStart? {
        r := OpenNode(MappingStart(anchor, tag, noTag, false), BlockMappingFirstKeyS);
      } else if (anchor.Some? && anchor.value != "") || tag != "" {
        r := LeafNode(Scalar(anchor, tag, "", noTag, false), false);
      } else {
        error := true;
        r := Failed;
      }
    }

    // ---------------------------------------------------------------- building blocks

    /** Pushes the state to come back to and parses a node. */
    method Descend(ret: State, block: bool, indentless: bool) returns (r: Step)
      requires Inside(Marks(ret)) && Returns(ret)
      modifies this`head, this`streamEndProduced, this`state, this`states, this`error
      ensures Gave(NodeAt(tokens, Into(old(Now()), old(head), ret), block, indentless), r)
    {
      hide StackMarks, Marks, Stacked, NodeAt, Returns;
      MarksPush(states, ret);
      states := states + [ret];
      r := ParseNode(block, indentless);
    }

    /** An empty scalar stands for a node that is not there. */
    method Empty(next: State) returns (r: Step)
      requires Inside(Marks(next)) && next != EndS
      modifies this`state
      ensures Gave(Blank(old(Now()), old(head), next), r)
    {
      hide StackMarks, Marks, Stacked;
      state := next;
      r := Got(EMPTY_SCALAR);
    }

    /** Leaves a collection for the state below it. */
    method Leave(e: Event, marked: bool, skip: bool) returns (r: Step)
      requires Inside(if marked then 1 else 0)
      requires skip ==> head < |tokens| && !tokens[head].TStreamEnd?
      modifies this`head, this`streamEndProduced, this`state, this`states, this`marks
      ensures Gave(Next(e, Back(old(Now()), if skip then old(head) + 1 else old(head))), r)
    {
      hide StackMarks, Marks, Stacked;
      Return();
      if marked {
        marks := marks[..|marks| - 1];
      }
      if skip {
        Skip();
      }
      r := Got(e);
    }

    /** Marks where a bracketed collection started and steps over its opening token. */
    method Enter(s: State)
      requires Ready(s) && s in {BlockSequenceFirstEntryS, BlockMappingFirstKeyS, FlowSequenceFirstEntryS, FlowMappingFirstKeyS}
      modifies this`marks, this`head, this`streamEndProduced
      ensures Inside(1) && head == old(head) + 1
    {
      hide StackMarks;
      var t := tokens[head];
      marks := marks + [head];
      Skip();
    }

    method Fail() returns (r: Step)
      modifies this`error
      ensures error && r == Failed
    {
      error := true;
      r := Failed;
    }

    /** A missing indicator: the collection's mark is given up and the parser stops. */
    method FailMarked() returns (r: Step)
      requires Inside(1)
      modifies this`error, this`marks
      ensures error && r == Failed
    {
      marks := marks[..|marks| - 1];
      error := true;
      r := Failed;
    }

    // ------------------------------------------------------------------ block productions

    ghost predicate Ready(s: State)
      reads this
    {
      Valid() && !error && !streamEndProduced && state == s
    }

    /** Inside a collection, before its next part. */
    lemma Begun(s: State)
      requires Ready(s) && InCollection(s)
      ensures Inside(Marks(s))
    {
      hide StackMarks, Stacked;
    }

    method BlockSequenceEntry(first: bool) returns (r: Step)
      requires Ready(if first then BlockSequenceFirstEntryS else BlockSequenceEntryS)
      modifies this
      ensures Gave(BlockSequenceItemAt(tokens, if first then old(Now()).(head := old(head) + 1) else old(Now())), r)
    {
      hide StackMarks, Stacked, Fine, BlockSequenceItemAt, BlockMappingItemAt, FlowSequenceEntryAt;
      if first {
        Enter(BlockSequenceFirstEntryS);
      } else {
        Begun(BlockSequenceEntryS);
      }
      r := BlockSequenceItem();
    }

    /** The next entry of a block sequence, or its end. */
    method BlockSequenceItem() returns (r: Step)
      requires Inside(1)
      modifies this`head, this`streamEndProduced, this`state, this`states, this`marks, this`error
      ensures Gave(BlockSequenceItemAt(tokens, old(Now())), r)
    {
      hide StackMarks, Stacked, NodeAt;
      var t := Peek();
      if t.None? { return Failed; }
      if t.value.TBlockEntry? {
        Skip();
        t := Peek();
        if t.None? { return Failed; }
        if !t.value.TBlockEntry? && !t.value.TBlockEnd? {
          r := Descend(BlockSequenceEntryS, true, false);
        } else {
          r := Empty(BlockSequenceEntryS);
        }
      } else if t.value.TBlockEnd? {
        r := Leave(SequenceEnd, true, true);
      } else {
        r := FailMarked();
      }
    }

    method IndentlessSequenceEntry() returns (r: Step)
      requires Ready(IndentlessSequenceEntryS)
      modifies this
      ensures Gave(IndentlessItemAt(tokens, old(Now())), r)
    {
      hide StackMarks, Stacked, NodeAt, Fine;
      Begun(IndentlessSequenceEntryS);
      var t := Peek();
      if t.None? { return Failed; }
      if t.value.TBlockEntry? {
        Skip();
        t := Peek();
        if t.None? { return Failed; }
        if !t.value.TBlockEntry? && !t.value.TKey? && !t.value.TValue? && !t.value.TBlockEnd? {
          r := Descend(IndentlessSequenceEntryS, true, false);
        } else {
          r := Empty(IndentlessSequenceEntryS);
        }
      } else {
        r := Leave(SequenceEnd, false, false);
      }
    }

    method BlockMappingKey(first: bool) returns (r: Step)
      requires Ready(if first then BlockMappingFirstKeyS else BlockMappingKeyS)
      modifies this
      ensures Gave(BlockMappingItemAt(tokens, if first then old(Now()).(head := old(head) + 1) else old(Now())), r)
    {
      hide StackMarks, Stacked, Fine, BlockSequenceItemAt, BlockMappingItemAt, FlowSequenceEntryAt;
      if first {
        Enter(BlockMappingFirstKeyS);
      } else {
        Begun(BlockMappingKeyS);
      }
      r := BlockMappingItem();
    }

    /** The next key of a block mapping, or its end. */
    method BlockMappingItem() returns (r: Step)
      requires Inside(1)
      modifies this`head, this`streamEndProduced, this`state, this`states, this`marks, this`error
      ensures Gave(BlockMappingItemAt(tokens, old(Now())), r)
    {
      hide StackMarks, Stacked, NodeAt;
      var t := Peek();
      if t.None? { return Failed; }
      if t.value.TKey? {
        Skip();
        t := Peek();
        if t.None? { return Failed; }
        if !t.value.TKey? && !t.value.TValue? && !t.value.TBlockEnd? {
          r := Descend(BlockMappingValueS, true, true);
        } else {
          r := Empty(BlockMappingValueS);
        }
      } else if t.value.TBlockEnd? {
        r := Leave(MappingEnd, true, true);
      } else {
        r := FailMarked();
      }
    }

    method BlockMappingValue() returns (r: Step)
      requires Ready(BlockMappingValueS)
      modifies this
      ensures Gave(BlockMappingValueAt(tokens, old(Now())), r)
    {
      hide StackMarks, Stacked, NodeAt, Fine;
      Begun(BlockMappingValueS);
      var t := Peek();
      if t.None? { return Failed; }
      if t.value.TValue? {
        Skip();
        t := Peek();
        if t.None? { return Failed; }
        if !t.value.TKey? && !t.value.TValue? && !t.value.TBlockEnd? {
          r := Descend(BlockMappingKeyS, true, true);
          return;
        }
      }
      r := Empty(BlockMappingKeyS);
    }

    // ------------------------------------------------------------------- flow productions

    /** The token an entry starts with, after the comma that every entry but the first needs. */
    method Separator(first: bool, close: Token) returns (t: Option<Token>)
      requires Inside(1)
      modifies this`head, this`streamEndProduced, this`error, this`marks
      ensures SeparatorAt(tokens, old(head), first, close) == if t.Some? then Some(head) else None
      ensures head <= |tokens| && (t.None? <==> error)
      ensures t.Some? ==> Inside(1) && t == At(tokens, head)
    {
      hide Stacked, StackMarks;
      t := Peek();
      if t.Some? && t.value != close && !first {
        if t.value.TFlowEntry? {
          Skip();
          t := Peek();
        } else {
          var r := FailMarked();
          t := None;
        }
      }
    }

    method FlowSequenceEntry(first: bool) returns (r: Step)
      requires Ready(if first then FlowSequenceFirstEntryS else FlowSequenceEntryS)
      modifies this
      ensures Gave(FlowSequenceEntryAt(tokens, if first then old(Now()).(head := old(head) + 1) else old(Now()), first), r)
    {
      hide StackMarks, Stacked, Fine, BlockSequenceItemAt, BlockMappingItemAt, FlowSequenceEntryAt;
      if first {
        Enter(FlowSequenceFirstEntryS);
      } else {
        Begun(FlowSequenceEntryS);
      }
      r := FlowSequenceItem(first);
    }

    /** The next entry of a flow sequence: a node, a single pair, or the end. */
    method FlowSequenceItem(first: bool) returns (r: Step)
      requires Inside(1)
      modifies this`head, this`streamEndProduced, this`state, this`states, this`marks, this`error
      ensures Gave(FlowSequenceEntryAt(tokens, old(Now()), first), r)
    {
      hide StackMarks, Stacked, NodeAt;
      MarksPop(states);
      var t := Separator(first, TFlowSequenceEnd);
      if t.None? { return Failed; }
      if t.value.TFlowSequenceEnd? {
        r := Leave(SequenceEnd, true, true);
      } else if t.value.TKey? {
        state := FlowSequenceEntryMappingKeyS;
        Skip();
        r := Got(MappingStart(None, "", true, true));
      } else {
        r := Descend(FlowSequenceEntryS, false, false);
      }
    }

    method FlowSequenceEntryMappingKey() returns (r: Step)
      requires Ready(FlowSequenceEntryMappingKeyS)
      modifies this
      ensures Gave(PairKeyAt(tokens, old(Now())), r)
    {
      hide StackMarks, Stacked, NodeAt, Fine;
      Begun(FlowSequenceEntryMappingKeyS);
      var t := Peek();
      if t.None? { return Failed; }
      if !t.value.TValue? && !t.value.TFlowEntry? && !t.value.TFlowSequenceEnd? {
        r := Descend(FlowSequenceEntryMappingValueS, false, false);
      } else {
        Skip();
        r := Empty(FlowSequenceEntryMappingValueS);
      }
    }

    method FlowSequenceEntryMappingValue() returns (r: Step)
      requires Ready(FlowSequenceEntryMappingValueS)
      modifies this
      ensures Gave(PairValueAt(tokens, old(Now())), r)
    {
      hide StackMarks, Stacked, NodeAt, Fine;
      Begun(FlowSequenceEntryMappingValueS);
      var t := Peek();
      if t.None? { return Failed; }
      if t.value.TValue? {
        Skip();
        t := Peek();
        if t.None? { return Failed; }
        if !t.value.TFlowEntry? && !t.value.TFlowSequenceEnd? {
          r := Descend(FlowSequenceEntryMappingEndS, false, false);
          return;
        }
      }
      r := Empty(FlowSequenceEntryMappingEndS);
    }

    method FlowSequenceEntryMappingEnd() returns (r: Step)
      requires Ready(FlowSequenceEntryMappingEndS)
      modifies this
      ensures Gave(PairEndAt(tokens, old(Now())), r)
    {
      hide StackMarks, Stacked;
      var t := Peek();
      if t.None? { return Failed; }
      state := FlowSequenceEntryS;
      r := Got(MappingEnd);
    }

    method FlowMappingKey(first: bool) returns (r: Step)
      requires Ready(if first then FlowMappingFirstKeyS else FlowMappingKeyS)
      modifies this
      ensures Gave(FlowMappingEntryAt(tokens, if first then old(Now()).(head := old(head) + 1) else old(Now()), first), r)
    {
      hide StackMarks, Stacked, FlowKeyAt, Fine;
      if first {
        Enter(FlowMappingFirstKeyS);
      } else {
        Begun(FlowMappingKeyS);
      }
      MarksPop(states);
      var t := Separator(first, TFlowMappingEnd);
      if t.None? { return Failed; }
      if t.value.TFlowMappingEnd? {
        r := Leave(MappingEnd, true, true);
      } else {
        r := FlowMappingItem(t.value);
      }
    }

    /** A key of a flow mapping; without an indicator its value will be empty. */
    method FlowMappingItem(t: Token) returns (r: Step)
      requires Inside(1) && At(tokens, head) == Some(t)
      modifies this`head, this`streamEndProduced, this`state, this`states, this`error
      ensures Gave(FlowKeyAt(tokens, old(Now())), r)
    {
      hide StackMarks, Stacked, NodeAt;
      if t.TKey? {
        Skip();
        var u := Peek();
        if u.None? { return Failed; }
        if !u.value.TValue? && !u.value.TFlowEntry? && !u.value.TFlowMappingEnd? {
          r := Descend(FlowMappingValueS, false, false);
        } else {
          r := Empty(FlowMappingValueS);
        }
      } else {
        r := Descend(FlowMappingEmptyValueS, false, false);
      }
    }

    method FlowMappingValue(empty: bool) returns (r: Step)
      requires Ready(if empty then FlowMappingEmptyValueS else FlowMappingValueS)
      modifies this
      ensures Gave(FlowMappingValueAt(tokens, old(Now()), empty), r)
    {
      hide StackMarks, Stacked, NodeAt, Fine;
      Begun(if empty then FlowMappingEmptyValueS else FlowMappingValueS);
      var t := Peek();
      if t.None? { return Failed; }
      if !empty && t.value.TValue? {
        Skip();
        t := Peek();
        if t.None? { return Failed; }
        if !t.value.TFlowEntry? && !t.value.TFlowMappingEnd? {
          r := Descend(FlowMappingKeyS, false, false);
          return;
        }
      }
      r := Empty(FlowMappingKeyS);
    }

    // ----------------------------------------------------------- streams and documents

    method StreamStartProduction() returns (r: Step)
      requires Ready(StreamStartS)
      modifies this
      ensures Gave(StreamStartAt(tokens, old(Now())), r)
    {
      var t := Peek();
      if t.None? { return Failed; }
      if !t.value.TStreamStart? {
        r := Fail();
        return;
      }
      state := ImplicitDocumentStartS;
      r := Got(StreamStart);
      Skip();
    }

    /** Registers a tag directive; a second one for the same handle is an error unless it is a default. */
    method AppendTagDirective(value: (string, string), allowDuplicates: bool) returns (ok: bool)
      modifies this`tagDirectives, this`error
      ensures ok <==> allowDuplicates || !Handled(old(tagDirectives), value.0)
      ensures error == (old(error) || !ok)
      ensures tagDirectives == if Handled(old(tagDirectives), value.0) then old(tagDirectives) else old(tagDirectives) + [value]
    {
      for i := 0 to |tagDirectives|
        invariant error == old(error) && tagDirectives == old(tagDirectives)
        invariant forall k :: 0 <= k < i ==> tagDirectives[k].0 != value.0
      {
        if value.0 == tagDirectives[i].0 {
          if allowDuplicates {
            return true;
          }
          error := true;
          return false;
        }
      }
      tagDirectives := tagDirectives + [value];
      return true;
    }

    /**
     * Directives before a document: at most one version, which must be 1.1, and no tag handle twice.
     * All directives that stand there are taken and their tags registered, the defaults after them;
     * or the first that does not fit, or the end of the tokens, is an error.
     */
    method ProcessDirectives() returns (ok: bool)
      requires head <= |tokens| && !error && !streamEndProduced
      modifies this`head, this`streamEndProduced, this`tagDirectives, this`error
      ensures old(head) <= head <= |tokens| && (!ok ==> error)
      ensures Directives(tokens[old(head)..head], old(tagDirectives))
      ensures ok ==> !error && !streamEndProduced && head < |tokens| && !IsDirective(tokens[head])
      ensures ok ==> old(tagDirectives) + TagsOf(tokens[old(head)..head]) <= tagDirectives
      ensures match TakenDirectives(tokens, old(head), old(tagDirectives), false)
        case None => !ok
        case Some((h, tags)) => ok && head == h && tagDirectives == WithDefaults(tags)
      ensures ok ==> forall i :: 0 <= i < |DEFAULT_TAGS| ==> Handled(tagDirectives, DEFAULT_TAGS[i].0)
      ensures !ok && head < |tokens| ==> IsDirective(tokens[head]) && !Directives(tokens[old(head)..head + 1], old(tagDirectives))
    {
      hide Handled, TagsOf;
      ok := TakeDirectives();
      if !ok { return; }
      AddDefaults();
    }

    method AddDefaults()
      modifies this`tagDirectives, this`error
      ensures error == old(error) && old(tagDirectives) <= tagDirectives && tagDirectives == WithDefaults(old(tagDirectives))
      ensures forall i :: 0 <= i < |DEFAULT_TAGS| ==> Handled(tagDirectives, DEFAULT_TAGS[i].0)
    {
      hide Handled;
      for i := 0 to |DEFAULT_TAGS|
        invariant error == old(error) && old(tagDirectives) <= tagDirectives
        invariant tagDirectives == DefaultsUpTo(old(tagDirectives), i)
        invariant forall k :: 0 <= k < i ==> Handled(tagDirectives, DEFAULT_TAGS[k].0)
      {
        StillHandled(tagDirectives, DEFAULT_TAGS[i]);
        var added := AppendTagDirective(DEFAULT_TAGS[i], true);
      }
    }

    method TakeDirectives() returns (ok: bool)
      requires head <= |tokens| && !error && !streamEndProduced
      modifies this`head, this`streamEndProduced, this`tagDirectives, this`error
      ensures old(head) <= head <= |tokens| && (!ok ==> error)
      ensures Directives(tokens[old(head)..head], old(tagDirectives))
      ensures ok ==> !error && !streamEndProduced && head < |tokens| && !IsDirective(tokens[head])
      ensures ok ==> tagDirectives == old(tagDirectives) + TagsOf(tokens[old(head)..head])
      ensures TakenDirectives(tokens, old(head), old(tagDirectives), false) == if ok then Some((head, tagDirectives)) else None
      ensures !ok && head < |tokens| ==> IsDirective(tokens[head]) && !Directives(tokens[old(head)..head + 1], old(tagDirectives))
    {
      hide Handled, TagsOf, Directives;
      ok := false;
      var version := false;
      ghost var known, from := tagDirectives, head;
      NoDirectives(known);
      assert tokens[from..from] == [] && known + [] == known;
      var t := Peek();
      if t.None? { return; }
      while t.value.TVersion? || t.value.TTagDirective?
        invariant from <= head < |tokens| && !error && !streamEndProduced
        invariant t.Some? && t.value == tokens[head]
        invariant Directives(tokens[from..head], known) && tagDirectives == known + TagsOf(tokens[from..head])
        invariant version <==> Versioned(tokens[from..head])
        invariant TakenDirectives(tokens, from, known, false) == TakenDirectives(tokens, head, tagDirectives, version)
        decreases |tokens| - head
      {
        ghost var ts := tokens[from..head];
        assert tokens[from..head + 1] == ts + [t.value];
        OneMore(ts, t.value, known);
        if t.value.TVersion? {
          if version || t.value.major != 1 || t.value.minor != 1 {
            error := true;
            return;
          }
          version := true;
        } else {
          var added := AppendTagDirective((t.value.handle, t.value.prefix), false);
          if !added { return; }
        }
        Skip();
        t := Peek();
        if t.None? { return; }
      }
      ok := true;
    }

    method SkipDocumentEnds() returns (t: Option<Token>)
      requires head <= |tokens| && !error && !streamEndProduced
      modifies this`head, this`streamEndProduced, this`error
      ensures head <= |tokens| && old(head) <= head && (t.None? ==> error && head == |tokens|)
      ensures t.Some? ==> !error && !streamEndProduced && head < |tokens| && t.value == tokens[head]
      ensures head == DocumentEndsFrom(tokens, old(head))
    {
      t := Peek();
      while t.Some? && t.value.TDocumentEnd?
        invariant head <= |tokens| && old(head) <= head && (t.None? ==> error && head == |tokens|)
        invariant DocumentEndsFrom(tokens, old(head)) == DocumentEndsFrom(tokens, head)
        invariant t.Some? ==> !error && !streamEndProduced && head < |tokens| && t.value == tokens[head]
        decreases |tokens| - head, t.Some?
      {
        Skip();
        t := Peek();
      }
    }

    /** Outside any document, in the middle of a step. */
    ghost predicate Between()
      reads this`head, this`error, this`streamEndProduced, this`states, this`marks
    {
      head <= |tokens| && !error && !streamEndProduced && states == [] && marks == []
    }

    method DocumentStartProduction(implicit: bool) returns (r: Step)
      requires Ready(if implicit then ImplicitDocumentStartS else DocumentStartS)
      modifies this
      ensures Gave(DocumentStartAt(tokens, old(Now()), implicit), r)
    {
      hide ImplicitDocumentAt, ExplicitDocumentAt;
      var t: Option<Token>;
      if implicit {
        t := Peek();
      } else {
        t := SkipDocumentEnds();
      }
      if t.None? { return Failed; }
      if implicit && !t.value.TVersion? && !t.value.TTagDirective? && !t.value.TDocumentStart? && !t.value.TStreamEnd? {
        r := ImplicitDocument();
      } else if !t.value.TStreamEnd? {
        r := ExplicitDocument();
      } else {
        state := EndS;
        r := Got(StreamEnd);
        Skip();
      }
    }

    method ImplicitDocument() returns (r: Step)
      requires Between() && head < |tokens|
      modifies this`head, this`streamEndProduced, this`tagDirectives, this`error, this`state, this`states
      ensures Gave(ImplicitDocumentAt(tokens, old(Now())), r)
    {
      hide TakenDirectives, WithDefaults;
      MarksPush(states, DocumentEndS);
      var ok := ProcessDirectives();
      if !ok { return Failed; }
      states := states + [DocumentEndS];
      state := BlockNodeS;
      r := Got(DocumentStart(false));
    }

    method ExplicitDocument() returns (r: Step)
      requires Between() && head < |tokens|
      modifies this`head, this`streamEndProduced, this`tagDirectives, this`error, this`state, this`states
      ensures Gave(ExplicitDocumentAt(tokens, old(Now())), r)
    {
      hide TakenDirectives, WithDefaults;
      MarksPush(states, DocumentEndS);
      var ok := ProcessDirectives();
      if !ok { return Failed; }
      var t := Peek();
      if t.None? { return Failed; }
      if !t.value.TDocumentStart? {
        r := Fail();
        return;
      }
      states := states + [DocumentEndS];
      state := DocumentContentS;
      r := Got(DocumentStart(false));
      Skip();
    }

    method DocumentContent() returns (r: Step)
      requires Ready(DocumentContentS)
      modifies this
      ensures Gave(ContentStartAt(tokens, old(Now())), r)
    {
      hide NodeAt;
      var t := Peek();
      if t.None? { return Failed; }
      if t.value.TVersion? || t.value.TTagDirective? || t.value.TDocumentStart? || t.value.TDocumentEnd? || t.value.TStreamEnd? {
        r := LeafNode(EMPTY_SCALAR, false);
      } else {
        r := ParseNode(true, false);
      }
    }

    method BlockNode() returns (r: Step)
      requires Ready(BlockNodeS)
      modifies this
      ensures Gave(NodeAt(tokens, old(Now()), true, false), r)
    {
      hide NodeAt;
      r := ParseNode(true, false);
    }

    method DocumentEndProduction() returns (r: Step)
      requires Ready(DocumentEndS)
      modifies this
      ensures Gave(DocumentEndAt(tokens, old(Now())), r)
    {
      var t := Peek();
      if t.None? { return Failed; }
      var implicit := true;
      if t.value.TDocumentEnd? {
        Skip();
        implicit := false;
      }
      tagDirectives := [];
      state := DocumentStartS;
      r := Got(DocumentEnd(implicit));
    }

    /**
     * One event; None after the end of the stream or an error. The event is the machine's, is
     * accepted where the parser stood, and leaves fewer to come.
     */
    method Parse() returns (r: Option<Step>)
      requires Valid()
      modifies this
      ensures Valid() && (r.None? <==> old(error) || old(state) == EndS) && (r.None? ==> unchanged(this))
      ensures r.Some? ==> Gave(EventAt(tokens, old(Now())), r.value)
      ensures r.Some? && r.value.Got? ==>
        && Accept(old(Config()), r.value.event) == Some(Config())
        && Budget(tokens, Now()) + Weight(state) < old(Budget(tokens, Now()) + Weight(state))
    {
      hide StackFrames, StackMarks, StackWeight, Stacked, Accept, Weight, Marks, NodeAt;
      if streamEndProduced || error || state == EndS {
        return None;
      }
      ghost var m := Now();
      EventKeeps(tokens, m);
      var e := Dispatch();
      r := Some(e);
    }

    method Dispatch() returns (e: Step)
      requires Valid() && !error && state != EndS
      modifies this
      ensures Gave(EventAt(tokens, old(Now())), e)
    {
      hide StackFrames, StackMarks, Stacked, Gave, Fine, NodeAt;
      match state {
        case StreamStartS => e := StreamStartProduction();
        case ImplicitDocumentStartS => e := DocumentStartProduction(true);
        case DocumentStartS => e := DocumentStartProduction(false);
        case DocumentContentS => e := DocumentContent();
        case DocumentEndS => e := DocumentEndProduction();
        case BlockNodeS => e := BlockNode();
        case BlockSequenceFirstEntryS => e := BlockSequenceEntry(true);
        case BlockSequenceEntryS => e := BlockSequenceEntry(false);
        case IndentlessSequenceEntryS => e := IndentlessSequenceEntry();
        case BlockMappingFirstKeyS => e := BlockMappingKey(true);
        case BlockMappingKeyS => e := BlockMappingKey(false);
        case BlockMappingValueS => e := BlockMappingValue();
        case FlowSequenceFirstEntryS => e := FlowSequenceEntry(true);
        case FlowSequenceEntryS => e := FlowSequenceEntry(false);
        case FlowSequenceEntryMappingKeyS => e := FlowSequenceEntryMappingKey();
        case FlowSequenceEntryMappingValueS => e := FlowSequenceEntryMappingValue();
        case FlowSequenceEntryMappingEndS => e := FlowSequenceEntryMappingEnd();
        case FlowMappingFirstKeyS => e := FlowMappingKey(true);
        case FlowMappingKeyS => e := FlowMappingKey(false);
        case FlowMappingValueS => e := FlowMappingValue(false);
        case FlowMappingEmptyValueS => e := FlowMappingValue(true);
      }
    }

    /**
     * All events of a token stream, up to its end or the first error. Whatever the
     * tokens are, the events are a prefix of a well-nested stream, they are a whole
     * one unless the parser failed, and there are at most eight per token. They are
     * the machine's, up to where it stops.
     */
    method ParseAll() returns (events: seq<Event>)
      requires Valid() && !error && Now() == INITIAL
      modifies this
      ensures Run(Start, events).Some? && (!error ==> Run(Start, events) == Some(Done))
      ensures |events| <= 8 * |tokens|
      ensures exists after :: Produces(tokens, INITIAL, events, after) && EventAt(tokens, after) == Stop && (error <==> after.state != EndS)
    {
      hide Valid, Accept, ConfigOf, Gave, EventAt, Produces, Budget;
      events := [];
      ghost var at := Now();
      Started();
      while state != EndS && !error
        invariant Valid()
        invariant !error ==> Run(Start, events) == Some(Config()) && at == Now()
        invariant !error ==> |events| <= 8 * |tokens| - Budget(tokens, Now()) - Weight(state)
        invariant Run(Start, events).Some? && |events| <= 8 * |tokens|
        invariant Produces(tokens, INITIAL, events, at)
        invariant error ==> EventAt(tokens, at) == Stop && at.state != EndS
        decreases !error, Budget(tokens, Now()) + Weight(state)
      {
        BudgetThere();
        ghost var before := Config();
        var r := Parse();
        GaveMeans(EventAt(tokens, at), r.value);
        if r.value.Got? {
          BudgetThere();
          RunConcat(Start, events, [r.value.event]);
          OneEvent(before, r.value.event);
          OneMoreEvent(tokens, INITIAL, events, at);
          at := Now();
          events := events + [r.value.event];
        }
      }
      if !error { Ended(at); }
    }

    lemma Started()
      requires Valid() && !error && Now() == INITIAL
      ensures Config() == Start && Budget(tokens, Now()) + Weight(state) == 8 * |tokens| && Produces(tokens, INITIAL, [], INITIAL)
    {
    }

    lemma Ended(at: Machine)
      requires state == EndS && at == Now()
      ensures Config() == Done && EventAt(tokens, at) == Stop && at.state == EndS
    {
    }

    lemma BudgetThere()
      requires Valid() && !error
      ensures Budget(tokens, Now()) + Weight(state) >= 0
    {
    }

    lemma GaveMeans(out: Outcome, r: Step)
      requires Gave(out, r)
      ensures r.Failed? <==> error
      ensures out == if r.Failed? then Stop else Next(r.event, Now())
    {
    }
  }

  lemma OneEvent(c: Config, e: Event)
    ensures Run(c, [e]) == Accept(c, e)
  {
    assert [e][1..] == [];
  }

  lemma OneMoreEvent(ts: seq<Token>, m: Machine, es: seq<Event>, at: Machine)
    requires Produces(ts, m, es, at) && EventAt(ts, at).Next?
    ensures Produces(ts, m, es + [EventAt(ts, at).event], EventAt(ts, at).rest)
  {
    var e, next := EventAt(ts, at).event, EventAt(ts, at).rest;
    hide EventAt;
    assert [e][1..] == [];
    assert Produces(ts, next, [], next);
    assert Produces(ts, at, [e], next);
    ProducesMore(ts, m, es, at, [e], next);
  }
}
