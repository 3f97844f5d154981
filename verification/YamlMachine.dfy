/**
 * What the event parser computes, as a function of the tokens: one event and the next
 * state of a pushdown machine. Two states that the source lists but never enters are
 * left out.
 */
module YamlMachine {
  import opened YamlEvents

  datatype Token =
    | TStreamStart
    | TStreamEnd
    | TVersion(major: int, minor: int)
    | TTagDirective(handle: string, prefix: string)
    | TDocumentStart
    | TDocumentEnd
    | TBlockSequenceStart
    | TBlockMappingStart
    | TBlockEnd
    | TFlowSequenceStart
    | TFlowSequenceEnd
    | TFlowMappingStart
    | TFlowMappingEnd
    | TBlockEntry
    | TFlowEntry
    | TKey
    | TValue
    | TAlias(name: string)
    | TAnchor(name: string)
    | TTag(handle: string, suffix: string)
    | TScalar(text: string, plain: bool)

  datatype State =
    | StreamStartS
    | ImplicitDocumentStartS
    | DocumentStartS
    | DocumentContentS
    | DocumentEndS
    | BlockNodeS
    | BlockSequenceFirstEntryS
    | BlockSequenceEntryS
    | IndentlessSequenceEntryS
    | BlockMappingFirstKeyS
    | BlockMappingKeyS
    | BlockMappingValueS
    | FlowSequenceFirstEntryS
    | FlowSequenceEntryS
    | FlowSequenceEntryMappingKeyS
    | FlowSequenceEntryMappingValueS
    | FlowSequenceEntryMappingEndS
    | FlowMappingFirstKeyS
    | FlowMappingKeyS
    | FlowMappingValueS
    | FlowMappingEmptyValueS
    | EndS

  const EMPTY_SCALAR: Event := Scalar(None, "", "", true, false)

  // ------------------------------------------------------------------------- directives

  predicate IsDirective(t: Token) { t.TVersion? || t.TTagDirective? }

  /** The handle has a prefix registered for it. */
  predicate Handled(tags: seq<(string, string)>, handle: string) {
    exists i :: 0 <= i < |tags| && tags[i].0 == handle
  }

  predicate Versioned(ts: seq<Token>) { exists i :: 0 <= i < |ts| && ts[i].TVersion? }

  /** Two version directives, or two tag directives for one handle. */
  predicate Clash(a: Token, b: Token) {
    (a.TVersion? && b.TVersion?) || (a.TTagDirective? && b.TTagDirective? && a.handle == b.handle)
  }

  /** Directives that may stand before one document: version 1.1, once, and no tag handle twice. */
  ghost predicate Directives(ts: seq<Token>, known: seq<(string, string)>) {
    && (forall i :: 0 <= i < |ts| ==> match ts[i]
         case TVersion(major, minor) => major == 1 && minor == 1
         case TTagDirective(handle, _) => !Handled(known, handle)
         case _ => false)
    && (forall i, j :: 0 <= i < j < |ts| ==> !Clash(ts[i], ts[j]))
  }

  /** The tags that directives register, in order. */
  function TagsOf(ts: seq<Token>): seq<(string, string)> {
    if ts == [] then []
    else
      var t := ts[|ts| - 1];
      TagsOf(ts[..|ts| - 1]) + if t.TTagDirective? then [(t.handle, t.prefix)] else []
  }

  lemma NoDirectives(known: seq<(string, string)>)
    ensures Directives([], known) && TagsOf([]) == [] && !Versioned([])
  {
  }

  lemma StillHandled(tags: seq<(string, string)>, value: (string, string))
    ensures Handled(tags + [value], value.0) && forall h :: Handled(tags, h) ==> Handled(tags + [value], h)
  {
    assert (tags + [value])[|tags|] == value;
    forall h | Handled(tags, h) ensures Handled(tags + [value], h) {
      var i :| 0 <= i < |tags| && tags[i].0 == h;
      assert (tags + [value])[i].0 == h;
    }
  }

  lemma {:induction false} HandledBy(known: seq<(string, string)>, ts: seq<Token>, handle: string)
    ensures Handled(known + TagsOf(ts), handle) <==>
      Handled(known, handle) || exists i :: 0 <= i < |ts| && ts[i].TTagDirective? && ts[i].handle == handle
  {
    if ts == [] {
      assert known + [] == known;
    } else {
      var n := |ts| - 1;
      HandledBy(known, ts[..n], handle);
      var more := if ts[n].TTagDirective? then [(ts[n].handle, ts[n].prefix)] else [];
      assert known + TagsOf(ts) == (known + TagsOf(ts[..n])) + more;
      HandledMore(known + TagsOf(ts[..n]), more, handle);
      LastTag(ts, handle);
      assert Handled(more, handle) <==> ts[n].TTagDirective? && ts[n].handle == handle by {
        if ts[n].TTagDirective? { assert more[0].0 == ts[n].handle; }
      }
    }
  }

  lemma LastTag(ts: seq<Token>, handle: string)
    requires ts != []
    ensures (exists i :: 0 <= i < |ts| && ts[i].TTagDirective? && ts[i].handle == handle) <==>
      var n := |ts| - 1;
      || (exists i :: 0 <= i < n && ts[..n][i].TTagDirective? && ts[..n][i].handle == handle)
      || (ts[n].TTagDirective? && ts[n].handle == handle)
  {
    var n := |ts| - 1;
    assert forall i :: 0 <= i < n ==> ts[i] == ts[..n][i];
    if exists i :: 0 <= i < n && ts[..n][i].TTagDirective? && ts[..n][i].handle == handle {
      var i :| 0 <= i < n && ts[..n][i].TTagDirective? && ts[..n][i].handle == handle;
      assert ts[i].TTagDirective? && ts[i].handle == handle;
    }
  }

  lemma HandledMore(a: seq<(string, string)>, b: seq<(string, string)>, handle: string)
    ensures Handled(a + b, handle) <==> Handled(a, handle) || Handled(b, handle)
  {
    if Handled(a, handle) {
      var i :| 0 <= i < |a| && a[i].0 == handle;
      assert (a + b)[i].0 == handle;
    }
    if Handled(b, handle) {
      var i :| 0 <= i < |b| && b[i].0 == handle;
      assert (a + b)[|a| + i].0 == handle;
    }
  }

  /** One directive more fits exactly if it is a first version 1.1, or a tag for a handle not registered yet. */
  lemma OneMore(ts: seq<Token>, t: Token, known: seq<(string, string)>)
    requires Directives(ts, known) && IsDirective(t)
    ensures Directives(ts + [t], known) <==>
      if t.TVersion? then !Versioned(ts) && t.major == 1 && t.minor == 1 else !Handled(known + TagsOf(ts), t.handle)
    ensures TagsOf(ts + [t]) == TagsOf(ts) + if t.TTagDirective? then [(t.handle, t.prefix)] else []
    ensures Versioned(ts + [t]) <==> Versioned(ts) || t.TVersion?
  {
    hide Handled;
    var all := ts + [t];
    assert all[..|ts|] == ts && all[|ts|] == t;
    assert forall i :: 0 <= i < |ts| ==> all[i] == ts[i];
    if t.TTagDirective? { HandledBy(known, ts, t.handle); }
    if exists i :: 0 <= i < |ts| && Clash(ts[i], t) {
      var i :| 0 <= i < |ts| && Clash(ts[i], t);
      assert Clash(all[i], all[|ts|]);
    }
  }

  const DEFAULT_TAGS: seq<(string, string)> := [("!", "!"), ("!!", "tag:yaml.org,2002:")]

  function AddTag(tags: seq<(string, string)>, value: (string, string)): seq<(string, string)> {
    if Handled(tags, value.0) then tags else tags + [value]
  }

  function DefaultsUpTo(tags: seq<(string, string)>, i: nat): seq<(string, string)>
    requires i <= |DEFAULT_TAGS|
  {
    if i == 0 then tags else AddTag(DefaultsUpTo(tags, i - 1), DEFAULT_TAGS[i - 1])
  }

  function WithDefaults(tags: seq<(string, string)>): seq<(string, string)> { DefaultsUpTo(tags, |DEFAULT_TAGS|) }

  /** Steps over the directives from here on; None when one of them does not fit. */
  function TakenDirectives(ts: seq<Token>, head: nat, tags: seq<(string, string)>, version: bool): Option<(nat, seq<(string, string)>)>
    decreases |ts| - head
  {
    if head >= |ts| then None
    else match ts[head]
      case TVersion(major, minor) =>
        if version || major != 1 || minor != 1 then None else TakenDirectives(ts, head + 1, tags, true)
      case TTagDirective(handle, prefix) =>
        if Handled(tags, handle) then None else TakenDirectives(ts, head + 1, tags + [(handle, prefix)], version)
      case _ => Some((head, tags))
  }

  function Lookup(ds: seq<(string, string)>, handle: string, suffix: string): string {
    if ds == [] then "" else if ds[0].0 == handle then ds[0].1 + suffix else Lookup(ds[1..], handle, suffix)
  }

  /** Tag of a node: a suffix alone, or the prefix registered for its handle; None when the handle is unknown. */
  function ResolveTag(tags: seq<(string, string)>, handle: string, suffix: string): Option<string> {
    if handle == "" then Some(suffix)
    else
      var tag := Lookup(tags, handle, suffix);
      if tag == "" then None else Some(tag)
  }

  // ------------------------------------------------------------------------ the machine

  datatype Machine = Machine(state: State, states: seq<State>, head: nat, tags: seq<(string, string)>)

  datatype Outcome = Stop | Next(event: Event, rest: Machine)

  function At(ts: seq<Token>, head: nat): Option<Token> { if head < |ts| then Some(ts[head]) else None }

  /** Comes back to the state on the top of the stack. */
  function Back(m: Machine, head: nat): Machine {
    if m.states == [] then m
    else Machine(m.states[|m.states| - 1], m.states[..|m.states| - 1], head, m.tags)
  }

  function Into(m: Machine, head: nat, ret: State): Machine { m.(head := head, states := m.states + [ret]) }

  function Blank(m: Machine, head: nat, next: State): Outcome { Next(EMPTY_SCALAR, m.(head := head, state := next)) }

  datatype Props = Props(anchor: Option<string>, tag: Option<(string, string)>, head: nat)

  /** Anchor and tag before a node, in either order. */
  function PropsAt(ts: seq<Token>, head: nat): Props {
    match At(ts, head)
    case Some(TAnchor(name)) =>
      (match At(ts, head + 1)
       case Some(TTag(handle, suffix)) => Props(Some(name), Some((handle, suffix)), head + 2)
       case _ => Props(Some(name), None, head + 1))
    case Some(TTag(handle, suffix)) =>
      (match At(ts, head + 1)
       case Some(TAnchor(name)) => Props(Some(name), Some((handle, suffix)), head + 2)
       case _ => Props(None, Some((handle, suffix)), head + 1))
    case _ => Props(None, None, head)
  }

  function TagOf(p: Props, tags: seq<(string, string)>): Option<string> {
    if p.tag.None? then Some("") else ResolveTag(tags, p.tag.value.0, p.tag.value.1)
  }

  function Opens(m: Machine, head: nat, e: Event, s: State): Outcome { Next(e, m.(head := head, state := s)) }

  /** A node whose properties are known. */
  function ContentAt(m: Machine, t: Token, p: Props, tag: string, block: bool, indentless: bool): Outcome {
    var none := tag == "";
    match t
    case TScalar(text, plain) =>
      var plainImplicit := (none && plain) || tag == "!";
      Next(Scalar(p.anchor, tag, text, plainImplicit, !plainImplicit && none), Back(m, p.head + 1))
    case TFlowSequenceStart => Opens(m, p.head, SequenceStart(p.anchor, tag, none, true), FlowSequenceFirstEntryS)
    case TFlowMappingStart => Opens(m, p.head, MappingStart(p.anchor, tag, none, true), FlowMappingFirstKeyS)
    case _ =>
      if indentless && t.TBlockEntry? then Opens(m, p.head, SequenceStart(p.anchor, tag, none, false), IndentlessSequenceEntryS)
      else if block && t.TBlockSequenceStart? then Opens(m, p.head, SequenceStart(p.anchor, tag, none, false), BlockSequenceFirstEntryS)
      else if block && t.TBlockMappingStart? then Opens(m, p.head, MappingStart(p.anchor, tag, none, false), BlockMappingFirstKeyS)
      else if (p.anchor.Some? && p.anchor.value != "") || tag != "" then
        Next(Scalar(p.anchor, tag, "", none, false), Back(m, p.head))
      else Stop
  }

  /** A node; the state to come back to is on the stack. */
  function NodeAt(ts: seq<Token>, m: Machine, block: bool, indentless: bool): Outcome {
    match At(ts, m.head)
    case None => Stop
    case Some(TAlias(name)) => Next(Alias(name), Back(m, m.head + 1))
    case Some(_) =>
      var p := PropsAt(ts, m.head);
      if p.head >= |ts| then Stop
      else match TagOf(p, m.tags)
        case None => Stop
        case Some(tag) => ContentAt(m, ts[p.head], p, tag, block, indentless)
  }

  // ------------------------------------------------------------------- the productions

  function BlockSequenceItemAt(ts: seq<Token>, m: Machine): Outcome {
    match At(ts, m.head)
    case Some(TBlockEntry) =>
      (match At(ts, m.head + 1)
       case None => Stop
       case Some(u) =>
         if !u.TBlockEntry? && !u.TBlockEnd? then NodeAt(ts, Into(m, m.head + 1, BlockSequenceEntryS), true, false)
         else Blank(m, m.head + 1, BlockSequenceEntryS))
    case Some(TBlockEnd) => Next(SequenceEnd, Back(m, m.head + 1))
    case _ => Stop
  }

  function IndentlessItemAt(ts: seq<Token>, m: Machine): Outcome {
    match At(ts, m.head)
    case None => Stop
    case Some(TBlockEntry) =>
      (match At(ts, m.head + 1)
       case None => Stop
       case Some(u) =>
         if !u.TBlockEntry? && !u.TKey? && !u.TValue? && !u.TBlockEnd?
         then NodeAt(ts, Into(m, m.head + 1, IndentlessSequenceEntryS), true, false)
         else Blank(m, m.head + 1, IndentlessSequenceEntryS))
    case Some(_) => Next(SequenceEnd, Back(m, m.head))
  }

  function BlockMappingItemAt(ts: seq<Token>, m: Machine): Outcome {
    match At(ts, m.head)
    case Some(TKey) =>
      (match At(ts, m.head + 1)
       case None => Stop
       case Some(u) =>
         if !u.TKey? && !u.TValue? && !u.TBlockEnd? then NodeAt(ts, Into(m, m.head + 1, BlockMappingValueS), true, true)
         else Blank(m, m.head + 1, BlockMappingValueS))
    case Some(TBlockEnd) => Next(MappingEnd, Back(m, m.head + 1))
    case _ => Stop
  }

  function BlockMappingValueAt(ts: seq<Token>, m: Machine): Outcome {
    match At(ts, m.head)
    case None => Stop
    case Some(TValue) =>
      (match At(ts, m.head + 1)
       case None => Stop
       case Some(u) =>
         if !u.TKey? && !u.TValue? && !u.TBlockEnd? then NodeAt(ts, Into(m, m.head + 1, BlockMappingKeyS), true, true)
         else Blank(m, m.head + 1, BlockMappingKeyS))
    case Some(_) => Blank(m, m.head, BlockMappingKeyS)
  }

  /** Where an entry starts, after the comma that every entry but the first needs. */
  function SeparatorAt(ts: seq<Token>, head: nat, first: bool, close: Token): Option<nat> {
    if head >= |ts| then None
    else if first || ts[head] == close then Some(head)
    else if ts[head].TFlowEntry? && head + 1 < |ts| then Some(head + 1)
    else None
  }

  function FlowSequenceEntryAt(ts: seq<Token>, m: Machine, first: bool): Outcome {
    match SeparatorAt(ts, m.head, first, TFlowSequenceEnd)
    case None => Stop
    case Some(h) =>
      match At(ts, h)
      case None => Stop
      case Some(TFlowSequenceEnd) => Next(SequenceEnd, Back(m, h + 1))
      case Some(TKey) => Opens(m, h + 1, MappingStart(None, "", true, true), FlowSequenceEntryMappingKeyS)
      case Some(_) => NodeAt(ts, Into(m, h, FlowSequenceEntryS), false, false)
  }

  function PairKeyAt(ts: seq<Token>, m: Machine): Outcome {
    match At(ts, m.head)
    case None => Stop
    case Some(t) =>
      if !t.TValue? && !t.TFlowEntry? && !t.TFlowSequenceEnd?
      then NodeAt(ts, Into(m, m.head, FlowSequenceEntryMappingValueS), false, false)
      else Blank(m, m.head + 1, FlowSequenceEntryMappingValueS)
  }

  function PairValueAt(ts: seq<Token>, m: Machine): Outcome {
    match At(ts, m.head)
    case None => Stop
    case Some(TValue) =>
      (match At(ts, m.head + 1)
       case None => Stop
       case Some(u) =>
         if !u.TFlowEntry? && !u.TFlowSequenceEnd? then NodeAt(ts, Into(m, m.head + 1, FlowSequenceEntryMappingEndS), false, false)
         else Blank(m, m.head + 1, FlowSequenceEntryMappingEndS))
    case Some(_) => Blank(m, m.head, FlowSequenceEntryMappingEndS)
  }

  function PairEndAt(ts: seq<Token>, m: Machine): Outcome {
    if m.head < |ts| then Next(MappingEnd, m.(state := FlowSequenceEntryS)) else Stop
  }

  /** A key of a flow mapping; without an indicator its value will be empty. */
  function FlowKeyAt(ts: seq<Token>, m: Machine): Outcome {
    match At(ts, m.head)
    case None => Stop
    case Some(TKey) =>
      (match At(ts, m.head + 1)
       case None => Stop
       case Some(u) =>
         if !u.TValue? && !u.TFlowEntry? && !u.TFlowMappingEnd? then NodeAt(ts, Into(m, m.head + 1, FlowMappingValueS), false, false)
         else Blank(m, m.head + 1, FlowMappingValueS))
    case Some(_) => NodeAt(ts, Into(m, m.head, FlowMappingEmptyValueS), false, false)
  }

  function FlowMappingEntryAt(ts: seq<Token>, m: Machine, first: bool): Outcome {
    match SeparatorAt(ts, m.head, first, TFlowMappingEnd)
    case None => Stop
    case Some(h) => if At(ts, h) == Some(TFlowMappingEnd) then Next(MappingEnd, Back(m, h + 1)) else FlowKeyAt(ts, m.(head := h))
  }

  function FlowMappingValueAt(ts: seq<Token>, m: Machine, empty: bool): Outcome {
    match At(ts, m.head)
    case None => Stop
    case Some(t) =>
      if empty || !t.TValue? then Blank(m, m.head, FlowMappingKeyS)
      else match At(ts, m.head + 1)
        case None => Stop
        case Some(u) =>
          if !u.TFlowEntry? && !u.TFlowMappingEnd? then NodeAt(ts, Into(m, m.head + 1, FlowMappingKeyS), false, false)
          else Blank(m, m.head + 1, FlowMappingKeyS)
  }

  function DocumentEndsFrom(ts: seq<Token>, head: nat): nat
    decreases |ts| - head
  {
    if head < |ts| && ts[head].TDocumentEnd? then DocumentEndsFrom(ts, head + 1) else head
  }

  /** A document without its start indicator. Its event does not say so. */
  function ImplicitDocumentAt(ts: seq<Token>, m: Machine): Outcome {
    match TakenDirectives(ts, m.head, m.tags, false)
    case None => Stop
    case Some((h, tags)) => Next(DocumentStart(false), Machine(BlockNodeS, m.states + [DocumentEndS], h, WithDefaults(tags)))
  }

  function ExplicitDocumentAt(ts: seq<Token>, m: Machine): Outcome {
    match TakenDirectives(ts, m.head, m.tags, false)
    case None => Stop
    case Some((h, tags)) =>
      if At(ts, h) == Some(TDocumentStart)
      then Next(DocumentStart(false), Machine(DocumentContentS, m.states + [DocumentEndS], h + 1, WithDefaults(tags)))
      else Stop
  }

  function DocumentStartAt(ts: seq<Token>, m: Machine, implicit: bool): Outcome {
    var h := if implicit then m.head else DocumentEndsFrom(ts, m.head);
    match At(ts, h)
    case None => Stop
    case Some(t) =>
      if implicit && !IsDirective(t) && !t.TDocumentStart? && !t.TStreamEnd? then ImplicitDocumentAt(ts, m.(head := h))
      else if !t.TStreamEnd? then ExplicitDocumentAt(ts, m.(head := h))
      else Next(StreamEnd, m.(head := h + 1, state := EndS))
  }

  function ContentStartAt(ts: seq<Token>, m: Machine): Outcome {
    match At(ts, m.head)
    case None => Stop
    case Some(t) =>
      if IsDirective(t) || t.TDocumentStart? || t.TDocumentEnd? || t.TStreamEnd? then Next(EMPTY_SCALAR, Back(m, m.head))
      else NodeAt(ts, m, true, false)
  }

  function DocumentEndAt(ts: seq<Token>, m: Machine): Outcome {
    match At(ts, m.head)
    case None => Stop
    case Some(t) => Next(DocumentEnd(!t.TDocumentEnd?),
                         Machine(DocumentStartS, m.states, if t.TDocumentEnd? then m.head + 1 else m.head, []))
  }

  function StreamStartAt(ts: seq<Token>, m: Machine): Outcome {
    if At(ts, m.head) == Some(TStreamStart) then Next(StreamStart, m.(head := m.head + 1, state := ImplicitDocumentStartS)) else Stop
  }

  function EventAt(ts: seq<Token>, m: Machine): Outcome {
    match m.state
    case StreamStartS => StreamStartAt(ts, m)
    case ImplicitDocumentStartS => DocumentStartAt(ts, m, true)
    case DocumentStartS => DocumentStartAt(ts, m, false)
    case DocumentContentS => ContentStartAt(ts, m)
    case DocumentEndS => DocumentEndAt(ts, m)
    case BlockNodeS => NodeAt(ts, m, true, false)
    case BlockSequenceFirstEntryS => BlockSequenceItemAt(ts, m.(head := m.head + 1))
    case BlockSequenceEntryS => BlockSequenceItemAt(ts, m)
    case IndentlessSequenceEntryS => IndentlessItemAt(ts, m)
    case BlockMappingFirstKeyS => BlockMappingItemAt(ts, m.(head := m.head + 1))
    case BlockMappingKeyS => BlockMappingItemAt(ts, m)
    case BlockMappingValueS => BlockMappingValueAt(ts, m)
    case FlowSequenceFirstEntryS => FlowSequenceEntryAt(ts, m.(head := m.head + 1), true)
    case FlowSequenceEntryS => FlowSequenceEntryAt(ts, m, false)
    case FlowSequenceEntryMappingKeyS => PairKeyAt(ts, m)
    case FlowSequenceEntryMappingValueS => PairValueAt(ts, m)
    case FlowSequenceEntryMappingEndS => PairEndAt(ts, m)
    case FlowMappingFirstKeyS => FlowMappingEntryAt(ts, m.(head := m.head + 1), true)
    case FlowMappingKeyS => FlowMappingEntryAt(ts, m, false)
    case FlowMappingValueS => FlowMappingValueAt(ts, m, false)
    case FlowMappingEmptyValueS => FlowMappingValueAt(ts, m, true)
    case EndS => Stop
  }

  const INITIAL: Machine := Machine(StreamStartS, [], 0, [])

  // --------------------------------------------------------------------- runs

  /** The machine gives these events one after the other and then stands there. */
  ghost predicate Produces(ts: seq<Token>, m: Machine, es: seq<Event>, after: Machine)
    decreases |es|
  {
    if es == [] then after == m
    else
      var r := EventAt(ts, m);
      r.Next? && r.event == es[0] && Produces(ts, r.rest, es[1..], after)
  }

  lemma {:induction false} ProducesMore(ts: seq<Token>, m: Machine, a: seq<Event>, n: Machine, b: seq<Event>, after: Machine)
    requires Produces(ts, m, a, n) && Produces(ts, n, b, after)
    ensures Produces(ts, m, a + b, after)
    decreases |a|
  {
    hide EventAt;
    if a == [] {
      assert a + b == b;
    } else {
      ProducesMore(ts, EventAt(ts, m).rest, a[1..], n, b, after);
      assert (a + b)[1..] == a[1..] + b;
    }
  }

  /** There is one run: events that cannot be continued are all there are. */
  lemma {:induction false} OneRun(ts: seq<Token>, m: Machine, a: seq<Event>, n: Machine, b: seq<Event>, o: Machine)
    requires Produces(ts, m, a, n) && EventAt(ts, n) == Stop && Produces(ts, m, b, o) && EventAt(ts, o) == Stop
    ensures a == b && n == o
    decreases |a|
  {
    hide EventAt;
    if a != [] && b != [] {
      OneRun(ts, EventAt(ts, m).rest, a[1..], n, b[1..], o);
    }
  }
}
