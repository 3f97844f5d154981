/**
 * What the parser's machine keeps: its states and stack stand for an open place of a
 * stream, every event is accepted there, and the events that can still come are bounded.
 */
module YamlNesting {
  import opened YamlEvents
  import opened YamlMachine

  // ------------------------------------------------- what states and stacks stand for

  /** The frames a state stands for. A pair inside a flow sequence is a mapping of its own. */
  function Frames(s: State): seq<Frame> {
    match s
    case DocumentEndS => [Close]
    case BlockSequenceFirstEntryS => [Item]
    case BlockSequenceEntryS => [Item]
    case IndentlessSequenceEntryS => [Item]
    case BlockMappingFirstKeyS => [Key]
    case BlockMappingKeyS => [Key]
    case BlockMappingValueS => [Val]
    case FlowSequenceFirstEntryS => [Item]
    case FlowSequenceEntryS => [Item]
    case FlowSequenceEntryMappingKeyS => [Item, Key]
    case FlowSequenceEntryMappingValueS => [Item, Val]
    case FlowSequenceEntryMappingEndS => [Item, Key]
    case FlowMappingFirstKeyS => [Key]
    case FlowMappingKeyS => [Key]
    case FlowMappingValueS => [Val]
    case FlowMappingEmptyValueS => [Val]
    case _ => []
  }

  function StackFrames(ss: seq<State>): seq<Frame> {
    if ss == [] then [] else StackFrames(ss[..|ss| - 1]) + Frames(ss[|ss| - 1])
  }

  function ConfigOf(s: State, ss: seq<State>): Config {
    match s
    case StreamStartS => Start
    case ImplicitDocumentStartS => Idle
    case DocumentStartS => Idle
    case BlockNodeS => Open([Root])
    case DocumentContentS => Open([Root])
    case EndS => Done
    case _ => Open(StackFrames(ss) + Frames(s))
  }

  /** How many more events a state can give without another token, at most. */
  function Weight(s: State): nat {
    match s
    case StreamStartS => 0
    case EndS => 0
    case ImplicitDocumentStartS => 5
    case BlockNodeS => 2
    case DocumentContentS => 2
    case DocumentEndS => 2
    case BlockMappingValueS => 2
    case FlowMappingValueS => 2
    case FlowMappingEmptyValueS => 2
    case FlowSequenceEntryMappingEndS => 2
    case FlowSequenceEntryMappingValueS => 3
    case FlowSequenceEntryMappingKeyS => 5
    case _ => 1
  }

  function StackWeight(ss: seq<State>): nat {
    if ss == [] then 0 else StackWeight(ss[..|ss| - 1]) + Weight(ss[|ss| - 1])
  }

  /** States that are pushed to be returned to, inside a document. */
  predicate Returns(s: State) {
    s in {BlockSequenceEntryS, IndentlessSequenceEntryS, BlockMappingKeyS, BlockMappingValueS, FlowSequenceEntryS,
          FlowSequenceEntryMappingValueS, FlowSequenceEntryMappingEndS, FlowMappingKeyS, FlowMappingValueS,
          FlowMappingEmptyValueS}
  }

  /** A stack of return states: the document's end below everything else. */
  ghost predicate Stacked(ss: seq<State>) {
    ss != [] && ss[0] == DocumentEndS && forall i :: 1 <= i < |ss| ==> Returns(ss[i])
  }

  ghost predicate Shaped(s: State, ss: seq<State>) {
    match s
    case StreamStartS => ss == []
    case ImplicitDocumentStartS => ss == []
    case DocumentStartS => ss == []
    case DocumentEndS => ss == []
    case EndS => ss == []
    case BlockNodeS => ss == [DocumentEndS]
    case DocumentContentS => ss == [DocumentEndS]
    case _ => Stacked(ss)
  }

  lemma Push(ss: seq<State>, s: State)
    ensures (ss + [s])[..|ss|] == ss
    ensures StackFrames(ss + [s]) == StackFrames(ss) + Frames(s)
    ensures StackWeight(ss + [s]) == StackWeight(ss) + Weight(s)
    ensures Stacked(ss) && Returns(s) ==> Stacked(ss + [s])
  {
    hide Frames, Weight, Returns;
    assert (ss + [s])[..|ss|] == ss;
  }

  /** Returning to the top of the stack. */
  lemma Pop(ss: seq<State>)
    requires Stacked(ss)
    ensures var top, rest := ss[|ss| - 1], ss[..|ss| - 1];
      && Shaped(top, rest) && ConfigOf(top, rest) == Open(StackFrames(ss))
      && StackWeight(rest) + Weight(top) == StackWeight(ss)
      && top !in {BlockSequenceFirstEntryS, BlockMappingFirstKeyS, FlowSequenceFirstEntryS, FlowMappingFirstKeyS, EndS}
  {
  }

  // ------------------------------------------------------------------ what every step keeps

  /** The token that a first-entry state has already seen is still there. */
  ghost predicate FirstTokenSeen(ts: seq<Token>, m: Machine) {
    match m.state
    case BlockSequenceFirstEntryS => At(ts, m.head) == Some(TBlockSequenceStart)
    case BlockMappingFirstKeyS => At(ts, m.head) == Some(TBlockMappingStart)
    case FlowSequenceFirstEntryS => At(ts, m.head) == Some(TFlowSequenceStart)
    case FlowMappingFirstKeyS => At(ts, m.head) == Some(TFlowMappingStart)
    case _ => true
  }

  ghost predicate Fine(ts: seq<Token>, m: Machine) {
    m.head <= |ts| && Shaped(m.state, m.states) && FirstTokenSeen(ts, m)
  }

  function ConfigAt(m: Machine): Config { ConfigOf(m.state, m.states) }

  /** Bounds the events still to come, but for those of the current state. */
  function Budget(ts: seq<Token>, m: Machine): int { 8 * (|ts| - m.head) + StackWeight(m.states) }

  /** What a step keeps: its event is accepted where the machine stood, and there is less to come. */
  ghost predicate Keeps(ts: seq<Token>, before: Config, out: Outcome, budget: int) {
    out.Next? ==>
      && Fine(ts, out.rest) && Accept(before, out.event) == Some(ConfigAt(out.rest))
      && Budget(ts, out.rest) + Weight(out.rest.state) <= budget
  }

  lemma Larger(ts: seq<Token>, c: Config, out: Outcome, small: int, large: int)
    requires Keeps(ts, c, out, small) && small <= large
    ensures Keeps(ts, c, out, large)
  {
  }

  /** In the middle of a production: the stack is in order and a node is awaited above it. */
  ghost predicate NodeComing(ts: seq<Token>, m: Machine, pre: seq<Frame>) {
    m.head <= |ts| && Stacked(m.states) && WantsNode(Open(pre)) && Advance(pre) == StackFrames(m.states)
  }

  /** A node without children, after which the stack is popped. */
  lemma LeafKeeps(ts: seq<Token>, m: Machine, pre: seq<Frame>, e: Event, head: nat)
    requires NodeComing(ts, m, pre) && (e.Alias? || e.Scalar?) && m.head <= head <= |ts|
    ensures Keeps(ts, Open(pre), Next(e, Back(m, head)), Budget(ts, m))
  {
    hide StackFrames, StackWeight, Advance, WantsNode, Weight, ConfigOf;
    Pop(m.states);
  }

  /** The start of a collection: the machine moves into it, the stack stays. */
  lemma OpensKeeps(ts: seq<Token>, m: Machine, pre: seq<Frame>, head: nat, e: Event, s: State)
    requires NodeComing(ts, m, pre) && m.head <= head < |ts|
    requires match s
      case IndentlessSequenceEntryS => e.SequenceStart?
      case BlockSequenceFirstEntryS => e.SequenceStart? && ts[head] == TBlockSequenceStart
      case FlowSequenceFirstEntryS => e.SequenceStart? && ts[head] == TFlowSequenceStart
      case BlockMappingFirstKeyS => e.MappingStart? && ts[head] == TBlockMappingStart
      case FlowMappingFirstKeyS => e.MappingStart? && ts[head] == TFlowMappingStart
      case _ => false
    ensures Keeps(ts, Open(pre), Opens(m, head, e, s), Budget(ts, m) + 1)
  {
    hide StackFrames, StackWeight, Advance, WantsNode, Stacked;
  }

  lemma PropsAhead(ts: seq<Token>, head: nat)
    requires head < |ts|
    ensures head <= PropsAt(ts, head).head <= |ts|
  {
  }

  lemma NodeKeeps(ts: seq<Token>, m: Machine, pre: seq<Frame>, block: bool, indentless: bool)
    requires NodeComing(ts, m, pre)
    ensures Keeps(ts, Open(pre), NodeAt(ts, m, block, indentless), Budget(ts, m) + 1)
  {
    hide PropsAt, TagOf, Keeps, NodeComing, Back, Opens, Budget;
    ComingInside(ts, m, pre);
    match At(ts, m.head)
    case None => StopKeeps(ts, Open(pre), Budget(ts, m) + 1);
    case Some(TAlias(name)) =>
      LeafKeeps(ts, m, pre, Alias(name), m.head + 1);
      Larger(ts, Open(pre), Next(Alias(name), Back(m, m.head + 1)), Budget(ts, m), Budget(ts, m) + 1);
    case Some(_) =>
      PropsAhead(ts, m.head);
      var p := PropsAt(ts, m.head);
      StopKeeps(ts, Open(pre), Budget(ts, m) + 1);
      if p.head < |ts| && TagOf(p, m.tags).Some? {
        ContentKeeps(ts, m, pre, p, TagOf(p, m.tags).value, block, indentless);
      }
  }

  lemma StopKeeps(ts: seq<Token>, c: Config, budget: int)
    ensures Keeps(ts, c, Stop, budget)
  {
  }

  lemma ComingInside(ts: seq<Token>, m: Machine, pre: seq<Frame>)
    requires NodeComing(ts, m, pre)
    ensures m.head <= |ts|
  {
  }

  lemma ContentKeeps(ts: seq<Token>, m: Machine, pre: seq<Frame>, p: Props, tag: string, block: bool, indentless: bool)
    requires NodeComing(ts, m, pre) && m.head <= p.head < |ts|
    ensures Keeps(ts, Open(pre), ContentAt(m, ts[p.head], p, tag, block, indentless), Budget(ts, m) + 1)
  {
    hide Keeps, NodeComing, Back, Opens, Budget;
    var none, t := tag == "", ts[p.head];
    StopKeeps(ts, Open(pre), Budget(ts, m) + 1);
    if t.TScalar? {
      var plain := (none && t.plain) || tag == "!";
      LeafGives(ts, m, pre, Scalar(p.anchor, tag, t.text, plain, !plain && none), p.head + 1);
    } else if t.TFlowSequenceStart? {
      OpensKeeps(ts, m, pre, p.head, SequenceStart(p.anchor, tag, none, true), FlowSequenceFirstEntryS);
    } else if t.TFlowMappingStart? {
      OpensKeeps(ts, m, pre, p.head, MappingStart(p.anchor, tag, none, true), FlowMappingFirstKeyS);
    } else {
      LeafGives(ts, m, pre, Scalar(p.anchor, tag, "", none, false), p.head);
      OpensKeeps(ts, m, pre, p.head, SequenceStart(p.anchor, tag, none, false), IndentlessSequenceEntryS);
      if t.TBlockSequenceStart? {
        OpensKeeps(ts, m, pre, p.head, SequenceStart(p.anchor, tag, none, false), BlockSequenceFirstEntryS);
      } else if t.TBlockMappingStart? {
        OpensKeeps(ts, m, pre, p.head, MappingStart(p.anchor, tag, none, false), BlockMappingFirstKeyS);
      }
    }
  }

  lemma LeafGives(ts: seq<Token>, m: Machine, pre: seq<Frame>, e: Event, head: nat)
    requires NodeComing(ts, m, pre) && (e.Alias? || e.Scalar?) && m.head <= head <= |ts|
    ensures Keeps(ts, Open(pre), Next(e, Back(m, head)), Budget(ts, m) + 1)
  {
    hide Keeps, NodeComing, Back, Budget;
    LeafKeeps(ts, m, pre, e, head);
    Larger(ts, Open(pre), Next(e, Back(m, head)), Budget(ts, m), Budget(ts, m) + 1);
  }

  /** Between the parts of a collection. */
  ghost predicate Inside(ts: seq<Token>, m: Machine, pre: seq<Frame>, ret: State) {
    && m.head <= |ts| && Stacked(m.states) && Returns(ret)
    && WantsNode(Open(pre)) && Advance(pre) == StackFrames(m.states) + Frames(ret)
  }

  /** A node after `head`, coming back to `ret`. */
  lemma IntoKeeps(ts: seq<Token>, m: Machine, pre: seq<Frame>, head: nat, ret: State, block: bool, indentless: bool, budget: int)
    requires Inside(ts, m, pre, ret) && m.head <= head <= |ts|
    requires 8 * (|ts| - head) + StackWeight(m.states) + Weight(ret) + 1 <= budget
    ensures Keeps(ts, Open(pre), NodeAt(ts, Into(m, head, ret), block, indentless), budget)
  {
    hide StackFrames, StackWeight, Advance, WantsNode, Weight, NodeAt, Stacked, Returns, Frames, Keeps;
    Push(m.states, ret);
    NodeKeeps(ts, Into(m, head, ret), pre, block, indentless);
    Larger(ts, Open(pre), NodeAt(ts, Into(m, head, ret), block, indentless), Budget(ts, Into(m, head, ret)) + 1, budget);
  }

  /** An empty scalar in place of a node. */
  lemma BlankKeeps(ts: seq<Token>, m: Machine, pre: seq<Frame>, head: nat, next: State, budget: int)
    requires Inside(ts, m, pre, next) && head <= |ts|
    requires 8 * (|ts| - head) + StackWeight(m.states) + Weight(next) <= budget
    ensures Keeps(ts, Open(pre), Blank(m, head, next), budget)
  {
    hide StackFrames, StackWeight, Advance, WantsNode, Stacked;
  }

  /** The end of a collection. */
  lemma CloseKeeps(ts: seq<Token>, m: Machine, e: Event, head: nat, budget: int)
    requires Stacked(m.states) && (e == SequenceEnd || e == MappingEnd) && m.head <= head <= |ts| && Budget(ts, m) <= budget
    ensures Keeps(ts, Open(StackFrames(m.states) + [if e == SequenceEnd then Item else Key]), Next(e, Back(m, head)), budget)
  {
    hide StackFrames, StackWeight, Weight, ConfigOf;
    Pop(m.states);
    var top := StackFrames(m.states) + [if e == SequenceEnd then Item else Key];
    assert top[..|top| - 1] == StackFrames(m.states);
  }

  lemma ItemComing(ts: seq<Token>, m: Machine, ret: State)
    requires m.head <= |ts| && Stacked(m.states) && ret in {BlockSequenceEntryS, IndentlessSequenceEntryS, FlowSequenceEntryS}
    ensures Inside(ts, m, StackFrames(m.states) + [Item], ret)
  {
    hide StackFrames, Stacked;
    var pre := StackFrames(m.states) + [Item];
    assert pre[..|pre| - 1] == StackFrames(m.states);
  }

  lemma KeyComing(ts: seq<Token>, m: Machine, ret: State)
    requires m.head <= |ts| && Stacked(m.states) && ret in {BlockMappingValueS, FlowMappingValueS, FlowMappingEmptyValueS}
    ensures Inside(ts, m, StackFrames(m.states) + [Key], ret)
  {
    hide StackFrames, Stacked;
    var pre := StackFrames(m.states) + [Key];
    assert pre[..|pre| - 1] == StackFrames(m.states);
  }

  lemma ValueComing(ts: seq<Token>, m: Machine, ret: State)
    requires m.head <= |ts| && Stacked(m.states) && ret in {BlockMappingKeyS, FlowMappingKeyS}
    ensures Inside(ts, m, StackFrames(m.states) + [Val], ret)
  {
    hide StackFrames, Stacked;
    var pre := StackFrames(m.states) + [Val];
    assert pre[..|pre| - 1] == StackFrames(m.states);
  }

  lemma PairComing(ts: seq<Token>, m: Machine)
    requires m.head <= |ts| && Stacked(m.states)
    ensures Inside(ts, m, StackFrames(m.states) + [Item, Key], FlowSequenceEntryMappingValueS)
    ensures Inside(ts, m, StackFrames(m.states) + [Item, Val], FlowSequenceEntryMappingEndS)
  {
    hide StackFrames, Stacked;
    var pre := StackFrames(m.states) + [Item, Key];
    assert pre[..|pre| - 1] + [Val] == StackFrames(m.states) + [Item, Val];
    var post := StackFrames(m.states) + [Item, Val];
    assert post[..|post| - 1] + [Key] == StackFrames(m.states) + [Item, Key];
  }

  lemma BlockSequenceKeeps(ts: seq<Token>, m: Machine)
    requires m.head <= |ts| && Stacked(m.states)
    ensures Keeps(ts, Open(StackFrames(m.states) + [Item]), BlockSequenceItemAt(ts, m), Budget(ts, m))
  {
    hide StackFrames, StackWeight, Stacked, NodeAt, Inside, Keeps, Back, Blank, Into;
    var pre, budget := StackFrames(m.states) + [Item], Budget(ts, m);
    ItemComing(ts, m, BlockSequenceEntryS);
    StopKeeps(ts, Open(pre), budget);
    if m.head < |ts| { CloseKeeps(ts, m, SequenceEnd, m.head + 1, budget); }
    if m.head + 1 <= |ts| {
      IntoKeeps(ts, m, pre, m.head + 1, BlockSequenceEntryS, true, false, budget);
      BlankKeeps(ts, m, pre, m.head + 1, BlockSequenceEntryS, budget);
    }
  }

  lemma IndentlessKeeps(ts: seq<Token>, m: Machine)
    requires m.head <= |ts| && Stacked(m.states)
    ensures Keeps(ts, Open(StackFrames(m.states) + [Item]), IndentlessItemAt(ts, m), Budget(ts, m))
  {
    hide StackFrames, StackWeight, Stacked, NodeAt, Inside, Keeps, Back, Blank, Into;
    var pre, budget := StackFrames(m.states) + [Item], Budget(ts, m);
    ItemComing(ts, m, IndentlessSequenceEntryS);
    StopKeeps(ts, Open(pre), budget);
    CloseKeeps(ts, m, SequenceEnd, m.head, budget);
    if m.head + 1 <= |ts| {
      IntoKeeps(ts, m, pre, m.head + 1, IndentlessSequenceEntryS, true, false, budget);
      BlankKeeps(ts, m, pre, m.head + 1, IndentlessSequenceEntryS, budget);
    }
  }

  lemma BlockKeyKeeps(ts: seq<Token>, m: Machine)
    requires m.head <= |ts| && Stacked(m.states)
    ensures Keeps(ts, Open(StackFrames(m.states) + [Key]), BlockMappingItemAt(ts, m), Budget(ts, m))
  {
    hide StackFrames, StackWeight, Stacked, NodeAt, Inside, Keeps, Back, Blank, Into;
    var pre, budget := StackFrames(m.states) + [Key], Budget(ts, m);
    KeyComing(ts, m, BlockMappingValueS);
    StopKeeps(ts, Open(pre), budget);
    if m.head < |ts| { CloseKeeps(ts, m, MappingEnd, m.head + 1, budget); }
    if m.head + 1 <= |ts| {
      IntoKeeps(ts, m, pre, m.head + 1, BlockMappingValueS, true, true, budget);
      BlankKeeps(ts, m, pre, m.head + 1, BlockMappingValueS, budget);
    }
  }

  lemma BlockValueKeeps(ts: seq<Token>, m: Machine)
    requires m.head <= |ts| && Stacked(m.states)
    ensures Keeps(ts, Open(StackFrames(m.states) + [Val]), BlockMappingValueAt(ts, m), Budget(ts, m) + 1)
  {
    hide StackFrames, StackWeight, Stacked, NodeAt, Inside, Keeps, Back, Blank, Into;
    var pre, budget := StackFrames(m.states) + [Val], Budget(ts, m) + 1;
    ValueComing(ts, m, BlockMappingKeyS);
    StopKeeps(ts, Open(pre), budget);
    BlankKeeps(ts, m, pre, m.head, BlockMappingKeyS, budget);
    if m.head + 1 <= |ts| {
      IntoKeeps(ts, m, pre, m.head + 1, BlockMappingKeyS, true, true, budget);
      BlankKeeps(ts, m, pre, m.head + 1, BlockMappingKeyS, budget);
    }
  }

  lemma FlowSequenceKeeps(ts: seq<Token>, m: Machine, first: bool)
    requires m.head <= |ts| && Stacked(m.states)
    ensures Keeps(ts, Open(StackFrames(m.states) + [Item]), FlowSequenceEntryAt(ts, m, first),
                  if first then Budget(ts, m) + 8 else Budget(ts, m))
  {
    hide StackFrames, StackWeight, Stacked, NodeAt, Inside, Keeps, Back, Into, Opens;
    var pre, budget := StackFrames(m.states) + [Item], if first then Budget(ts, m) + 8 else Budget(ts, m);
    ItemComing(ts, m, FlowSequenceEntryS);
    StopKeeps(ts, Open(pre), budget);
    var sep := SeparatorAt(ts, m.head, first, TFlowSequenceEnd);
    if sep.Some? {
      var h := sep.value;
      if ts[h].TFlowSequenceEnd? {
        CloseKeeps(ts, m, SequenceEnd, h + 1, budget);
      } else if ts[h].TKey? {
        PairKeeps(ts, m, h + 1, budget);
      } else {
        IntoKeeps(ts, m, pre, h, FlowSequenceEntryS, false, false, budget);
      }
    }
  }

  /** A single pair in a flow sequence opens a mapping of its own. */
  lemma PairKeeps(ts: seq<Token>, m: Machine, head: nat, budget: int)
    requires Stacked(m.states) && head <= |ts| && 8 * (|ts| - head) + StackWeight(m.states) + 5 <= budget
    ensures Keeps(ts, Open(StackFrames(m.states) + [Item]),
                  Opens(m, head, MappingStart(None, "", true, true), FlowSequenceEntryMappingKeyS), budget)
  {
    hide StackFrames, StackWeight, Stacked;
    var pre := StackFrames(m.states) + [Item];
    assert Advance(pre) + [Key] == StackFrames(m.states) + [Item, Key];
  }

  lemma PairKeyKeeps(ts: seq<Token>, m: Machine)
    requires m.head <= |ts| && Stacked(m.states)
    ensures Keeps(ts, Open(StackFrames(m.states) + [Item, Key]), PairKeyAt(ts, m), Budget(ts, m) + 4)
  {
    hide StackFrames, StackWeight, Stacked, NodeAt, Inside, Keeps, Back, Blank, Into;
    var pre, budget := StackFrames(m.states) + [Item, Key], Budget(ts, m) + 4;
    PairComing(ts, m);
    StopKeeps(ts, Open(pre), budget);
    IntoKeeps(ts, m, pre, m.head, FlowSequenceEntryMappingValueS, false, false, budget);
    if m.head + 1 <= |ts| { BlankKeeps(ts, m, pre, m.head + 1, FlowSequenceEntryMappingValueS, budget); }
  }

  lemma PairValueKeeps(ts: seq<Token>, m: Machine)
    requires m.head <= |ts| && Stacked(m.states)
    ensures Keeps(ts, Open(StackFrames(m.states) + [Item, Val]), PairValueAt(ts, m), Budget(ts, m) + 2)
  {
    hide StackFrames, StackWeight, Stacked, NodeAt, Inside, Keeps, Back, Blank, Into;
    var pre, budget := StackFrames(m.states) + [Item, Val], Budget(ts, m) + 2;
    PairComing(ts, m);
    StopKeeps(ts, Open(pre), budget);
    BlankKeeps(ts, m, pre, m.head, FlowSequenceEntryMappingEndS, budget);
    if m.head + 1 <= |ts| {
      IntoKeeps(ts, m, pre, m.head + 1, FlowSequenceEntryMappingEndS, false, false, budget);
      BlankKeeps(ts, m, pre, m.head + 1, FlowSequenceEntryMappingEndS, budget);
    }
  }

  lemma PairEndKeeps(ts: seq<Token>, m: Machine)
    requires m.head <= |ts| && Stacked(m.states)
    ensures Keeps(ts, Open(StackFrames(m.states) + [Item, Key]), PairEndAt(ts, m), Budget(ts, m) + 1)
  {
    hide StackFrames, StackWeight, Stacked;
    var pre := StackFrames(m.states) + [Item, Key];
    assert pre[..|pre| - 1] == StackFrames(m.states) + [Item];
  }

  lemma FlowKeyKeeps(ts: seq<Token>, m: Machine)
    requires m.head <= |ts| && Stacked(m.states)
    ensures Keeps(ts, Open(StackFrames(m.states) + [Key]), FlowKeyAt(ts, m), Budget(ts, m) + 3)
  {
    hide StackFrames, StackWeight, Stacked, NodeAt, Inside, Keeps, Back, Blank, Into;
    var pre, budget := StackFrames(m.states) + [Key], Budget(ts, m) + 3;
    KeyComing(ts, m, FlowMappingValueS);
    KeyComing(ts, m, FlowMappingEmptyValueS);
    StopKeeps(ts, Open(pre), budget);
    IntoKeeps(ts, m, pre, m.head, FlowMappingEmptyValueS, false, false, budget);
    if m.head + 1 <= |ts| {
      IntoKeeps(ts, m, pre, m.head + 1, FlowMappingValueS, false, false, budget);
      BlankKeeps(ts, m, pre, m.head + 1, FlowMappingValueS, budget);
    }
  }

  lemma FlowMappingKeeps(ts: seq<Token>, m: Machine, first: bool)
    requires m.head <= |ts| && Stacked(m.states)
    ensures Keeps(ts, Open(StackFrames(m.states) + [Key]), FlowMappingEntryAt(ts, m, first),
                  if first then Budget(ts, m) + 8 else Budget(ts, m))
  {
    hide StackFrames, StackWeight, Stacked, FlowKeyAt, Keeps, Back;
    var pre, budget := StackFrames(m.states) + [Key], if first then Budget(ts, m) + 8 else Budget(ts, m);
    StopKeeps(ts, Open(pre), budget);
    var sep := SeparatorAt(ts, m.head, first, TFlowMappingEnd);
    if sep.Some? {
      var h := sep.value;
      CloseKeeps(ts, m, MappingEnd, h + 1, budget);
      FlowKeyKeeps(ts, m.(head := h));
      if ts[h] != TFlowMappingEnd {
        Larger(ts, Open(pre), FlowKeyAt(ts, m.(head := h)), Budget(ts, m.(head := h)) + 3, budget);
      }
    }
  }

  lemma FlowValueKeeps(ts: seq<Token>, m: Machine, empty: bool)
    requires m.head <= |ts| && Stacked(m.states)
    ensures Keeps(ts, Open(StackFrames(m.states) + [Val]), FlowMappingValueAt(ts, m, empty), Budget(ts, m) + 1)
  {
    hide StackFrames, StackWeight, Stacked, NodeAt, Inside, Keeps, Back, Blank, Into;
    var pre, budget := StackFrames(m.states) + [Val], Budget(ts, m) + 1;
    ValueComing(ts, m, FlowMappingKeyS);
    StopKeeps(ts, Open(pre), budget);
    BlankKeeps(ts, m, pre, m.head, FlowMappingKeyS, budget);
    if m.head + 1 <= |ts| {
      IntoKeeps(ts, m, pre, m.head + 1, FlowMappingKeyS, false, false, budget);
      BlankKeeps(ts, m, pre, m.head + 1, FlowMappingKeyS, budget);
    }
  }

  lemma {:induction false} DirectivesAhead(ts: seq<Token>, head: nat, tags: seq<(string, string)>, version: bool)
    ensures var r := TakenDirectives(ts, head, tags, version); r.Some? ==> head <= r.value.0 < |ts| && !IsDirective(ts[r.value.0])
    decreases |ts| - head
  {
    hide Handled;
    if head < |ts| {
      match ts[head]
      case TVersion(_, _) => DirectivesAhead(ts, head + 1, tags, true);
      case TTagDirective(h, p) => DirectivesAhead(ts, head + 1, tags + [(h, p)], version);
      case _ =>
    }
  }

  lemma {:induction false} DocumentEndsAhead(ts: seq<Token>, head: nat)
    requires head <= |ts|
    ensures head <= DocumentEndsFrom(ts, head) <= |ts|
    decreases |ts| - head
  {
    if head < |ts| && ts[head].TDocumentEnd? { DocumentEndsAhead(ts, head + 1); }
  }

  lemma DocumentStartKeeps(ts: seq<Token>, m: Machine, implicit: bool)
    requires m.head <= |ts| && m.states == []
    ensures Keeps(ts, Idle, DocumentStartAt(ts, m, implicit), if implicit then Budget(ts, m) + 4 else Budget(ts, m))
  {
    hide TakenDirectives, WithDefaults, Handled;
    DocumentEndsAhead(ts, m.head);
    DirectivesAhead(ts, m.head, m.tags, false);
    DirectivesAhead(ts, DocumentEndsFrom(ts, m.head), m.tags, false);
    Push([], DocumentEndS);
    assert [] + [DocumentEndS] == [DocumentEndS];
  }

  lemma RootComing(ts: seq<Token>, m: Machine)
    requires m.head <= |ts| && m.states == [DocumentEndS]
    ensures NodeComing(ts, m, [Root]) && StackWeight(m.states) == 2
  {
    assert m.states[..0] == [];
  }

  lemma ContentStartKeeps(ts: seq<Token>, m: Machine)
    requires m.head <= |ts| && m.states == [DocumentEndS]
    ensures Keeps(ts, Open([Root]), ContentStartAt(ts, m), Budget(ts, m) + 1)
  {
    hide NodeAt, Keeps, NodeComing, Back, StackWeight;
    RootComing(ts, m);
    StopKeeps(ts, Open([Root]), Budget(ts, m) + 1);
    LeafGives(ts, m, [Root], EMPTY_SCALAR, m.head);
    NodeKeeps(ts, m, [Root], true, false);
  }

  /**
   * Every event of the machine is accepted where it stood, leads to a place where its state and
   * stack stand for what the acceptor expects, and leaves fewer events to come.
   */
  lemma EventKeeps(ts: seq<Token>, m: Machine)
    requires Fine(ts, m)
    ensures Keeps(ts, ConfigAt(m), EventAt(ts, m), Budget(ts, m) + Weight(m.state) - 1)
  {
    match m.state
    case StreamStartS => StreamStartKeeps(ts, m);
    case ImplicitDocumentStartS => DocumentStartKeeps(ts, m, true);
    case DocumentStartS => DocumentStartKeeps(ts, m, false);
    case DocumentContentS => ContentStartKeeps(ts, m);
    case DocumentEndS => DocumentEndKeeps(ts, m);
    case BlockNodeS =>
      RootComing(ts, m);
      NodeKeeps(ts, m, [Root], true, false);
    case EndS =>
    case _ => CollectionKeeps(ts, m);
  }

  lemma StreamStartKeeps(ts: seq<Token>, m: Machine)
    requires m.head <= |ts| && m.states == []
    ensures Keeps(ts, Start, StreamStartAt(ts, m), Budget(ts, m) - 1)
  {
  }

  lemma DocumentEndKeeps(ts: seq<Token>, m: Machine)
    requires m.head <= |ts| && m.states == []
    ensures Keeps(ts, Open([Close]), DocumentEndAt(ts, m), Budget(ts, m) + 1)
  {
  }

  predicate InCollection(s: State) {
    s !in {StreamStartS, ImplicitDocumentStartS, DocumentStartS, DocumentContentS, DocumentEndS, BlockNodeS, EndS}
  }

  lemma CollectionKeeps(ts: seq<Token>, m: Machine)
    requires Fine(ts, m) && InCollection(m.state)
    ensures Keeps(ts, ConfigAt(m), EventAt(ts, m), Budget(ts, m) + Weight(m.state) - 1)
  {
    hide StackFrames, StackWeight, Stacked, Keeps, NodeAt, BlockSequenceItemAt, IndentlessItemAt, BlockMappingItemAt,
         BlockMappingValueAt, FlowSequenceEntryAt, PairKeyAt, PairValueAt, PairEndAt, FlowMappingEntryAt, FlowMappingValueAt;
    var next := m.(head := m.head + 1);
    match m.state
    case BlockSequenceFirstEntryS =>
      BlockSequenceKeeps(ts, next);
      Larger(ts, ConfigAt(m), EventAt(ts, m), Budget(ts, next), Budget(ts, m));
    case BlockSequenceEntryS => BlockSequenceKeeps(ts, m);
    case IndentlessSequenceEntryS => IndentlessKeeps(ts, m);
    case BlockMappingFirstKeyS =>
      BlockKeyKeeps(ts, next);
      Larger(ts, ConfigAt(m), EventAt(ts, m), Budget(ts, next), Budget(ts, m));
    case BlockMappingKeyS => BlockKeyKeeps(ts, m);
    case BlockMappingValueS => BlockValueKeeps(ts, m);
    case FlowSequenceFirstEntryS => FlowSequenceKeeps(ts, next, true);
    case FlowSequenceEntryS => FlowSequenceKeeps(ts, m, false);
    case FlowSequenceEntryMappingKeyS => PairKeyKeeps(ts, m);
    case FlowSequenceEntryMappingValueS => PairValueKeeps(ts, m);
    case FlowSequenceEntryMappingEndS => PairEndKeeps(ts, m);
    case FlowMappingFirstKeyS => FlowMappingKeeps(ts, next, true);
    case FlowMappingKeyS => FlowMappingKeeps(ts, m, false);
    case FlowMappingValueS => FlowValueKeeps(ts, m, false);
    case FlowMappingEmptyValueS => FlowValueKeeps(ts, m, true);
  }
}
