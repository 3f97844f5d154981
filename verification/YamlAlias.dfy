/**
 * Decoding a node tree with anchors, aliases and merge keys into generic values.
 * The decoder follows an alias into the anchored node, keeping the set of anchors
 * it is inside of; the reference replaces every alias by what it stands for and
 * decodes a tree without aliases.
 */
module YamlAlias {
  type Name = string

  datatype Option<T> = None | Some(value: T)

  /** A scalar carries what it resolves to (or that it does not) and whether it is the merge key. */
  datatype Node =
    | Scalar(merge: bool, resolved: Option<int>)
    | Alias(name: Name)
    | Sequence(items: seq<Node>)
    | Mapping(pairs: seq<Pair>)

  datatype Pair = Pair(key: Node, value: Node)

  datatype Value = Atom(atom: int) | List(items: seq<Value>) | Dict(entries: map<Value, Value>)

  type Anchors = map<Name, Node>

  function Size(n: Node): nat {
    match n
    case Scalar(_, _) => 1
    case Alias(_) => 1
    case Sequence(items) => 1 + SizeAll(items)
    case Mapping(pairs) => 1 + SizePairs(pairs)
  }

  function SizeAll(ns: seq<Node>): nat {
    if ns == [] then 0 else SizeAll(ns[..|ns| - 1]) + 1 + Size(ns[|ns| - 1])
  }

  function SizePairs(ps: seq<Pair>): nat {
    if ps == [] then 0 else SizePairs(ps[..|ps| - 1]) + 2 + SizePair(ps[|ps| - 1])
  }

  function SizePair(p: Pair): (s: nat)
    ensures s > Size(p.key) + Size(p.value)
  {
    1 + Size(p.key) + Size(p.value)
  }

  lemma Descends(open: set<Name>, anchors: Anchors, x: Name)
    requires x in anchors && x !in open
    ensures |anchors.Keys - (open + {x})| < |anchors.Keys - open|
  {
    assert anchors.Keys - open == (anchors.Keys - (open + {x})) + {x};
  }

  ghost function Left(anchors: Anchors, open: set<Name>): nat { |anchors.Keys - open| }

  // ---------------------------------------------------------------------------- decoding

  /** unmarshal into a generic target; None is a failure of the whole decoding. */
  ghost function Decode(anchors: Anchors, open: set<Name>, n: Node): Option<Value>
    decreases Left(anchors, open), Size(n), 0
  {
    match n
    case Scalar(_, resolved) => if resolved.Some? then Some(Atom(resolved.value)) else None
    case Alias(x) =>
      if x !in anchors || x in open then None
      else
        Descends(open, anchors, x);
        Decode(anchors, open + {x}, anchors[x])
    case Sequence(items) =>
      var r := DecodeAll(anchors, open, items);
      if r.Some? then Some(List(r.value)) else None
    case Mapping(pairs) =>
      var r := DecodePairs(anchors, open, pairs, map[]);
      if r.Some? then Some(Dict(r.value)) else None
  }

  ghost function DecodeAll(anchors: Anchors, open: set<Name>, ns: seq<Node>): Option<seq<Value>>
    decreases Left(anchors, open), SizeAll(ns), 0
  {
    if ns == [] then Some([])
    else
      var r := DecodeAll(anchors, open, ns[..|ns| - 1]);
      if r.None? then None
      else
        var v := Decode(anchors, open, ns[|ns| - 1]);
        if v.Some? then Some(r.value + [v.value]) else None
  }

  /** The entries of a mapping, set into m one after the other. */
  ghost function DecodePairs(anchors: Anchors, open: set<Name>, ps: seq<Pair>, m: map<Value, Value>): Option<map<Value, Value>>
    decreases Left(anchors, open), SizePairs(ps), 0
  {
    if ps == [] then Some(m)
    else
      var r := DecodePairs(anchors, open, ps[..|ps| - 1], m);
      if r.None? then None
      else
        var p := ps[|ps| - 1];
        if p.key.Scalar? && p.key.merge then Merge(anchors, open, p.value, r.value)
        else
          var k := Decode(anchors, open, p.key);
          if k.None? || !k.value.Atom? then None
          else
            var v := Decode(anchors, open, p.value);
            if v.Some? then Some(r.value[k.value := v.value]) else None
  }

  /** merge: a mapping, an alias of one, or a sequence of these, last first. */
  ghost function Merge(anchors: Anchors, open: set<Name>, n: Node, m: map<Value, Value>): Option<map<Value, Value>>
    decreases Left(anchors, open), Size(n), 2
  {
    match n
    case Scalar(_, _) => None
    case Sequence(items) => MergeAll(anchors, open, items, m)
    case _ => MergeOne(anchors, open, n, m)
  }

  ghost function MergeOne(anchors: Anchors, open: set<Name>, n: Node, m: map<Value, Value>): Option<map<Value, Value>>
    decreases Left(anchors, open), Size(n), 1
  {
    match n
    case Mapping(_) => Into(anchors, open, n, m)
    case Alias(x) => if x in anchors && !anchors[x].Mapping? then None else Into(anchors, open, n, m)
    case _ => None
  }

  ghost function MergeAll(anchors: Anchors, open: set<Name>, ns: seq<Node>, m: map<Value, Value>): Option<map<Value, Value>>
    decreases Left(anchors, open), SizeAll(ns), 0
  {
    if ns == [] then Some(m)
    else
      var r := MergeOne(anchors, open, ns[|ns| - 1], m);
      if r.Some? then MergeAll(anchors, open, ns[..|ns| - 1], r.value) else None
  }

  /** unmarshal into a map that is there already. */
  ghost function Into(anchors: Anchors, open: set<Name>, n: Node, m: map<Value, Value>): Option<map<Value, Value>>
    decreases Left(anchors, open), Size(n), 0
  {
    match n
    case Mapping(pairs) => DecodePairs(anchors, open, pairs, m)
    case Alias(x) =>
      if x !in anchors || x in open then None
      else
        Descends(open, anchors, x);
        Into(anchors, open + {x}, anchors[x], m)
    case _ => None
  }

  // --------------------------------------------------------------------------- unfolding

  /** An alias of the scalar `<<` is not a merge key. */
  function Ordinary(u: Option<Node>): Option<Node> {
    if u.Some? && u.value.Scalar? then Some(Scalar(false, u.value.resolved)) else u
  }

  /** The tree with every alias replaced by what it stands for; None if that does not end. */
  ghost function Unfold(anchors: Anchors, open: set<Name>, n: Node): Option<Node>
    decreases Left(anchors, open), Size(n), 0
  {
    match n
    case Scalar(_, _) => Some(n)
    case Alias(x) =>
      if x !in anchors || x in open then None
      else
        Descends(open, anchors, x);
        Ordinary(Unfold(anchors, open + {x}, anchors[x]))
    case Sequence(items) =>
      var r := UnfoldAll(anchors, open, items);
      if r.Some? then Some(Sequence(r.value)) else None
    case Mapping(pairs) =>
      var r := UnfoldPairs(anchors, open, pairs);
      if r.Some? then Some(Mapping(r.value)) else None
  }

  ghost function UnfoldAll(anchors: Anchors, open: set<Name>, ns: seq<Node>): Option<seq<Node>>
    decreases Left(anchors, open), SizeAll(ns), 0
  {
    if ns == [] then Some([])
    else
      var r := UnfoldAll(anchors, open, ns[..|ns| - 1]);
      var u := Unfold(anchors, open, ns[|ns| - 1]);
      if r.Some? && u.Some? then Some(r.value + [u.value]) else None
  }

  ghost function UnfoldPairs(anchors: Anchors, open: set<Name>, ps: seq<Pair>): Option<seq<Pair>>
    decreases Left(anchors, open), SizePairs(ps), 0
  {
    if ps == [] then Some([])
    else
      var r := UnfoldPairs(anchors, open, ps[..|ps| - 1]);
      var k := Unfold(anchors, open, ps[|ps| - 1].key);
      var v := Unfold(anchors, open, ps[|ps| - 1].value);
      if r.Some? && k.Some? && v.Some? then Some(r.value + [Pair(k.value, v.value)]) else None
  }

  /** Anchors stand on scalars, sequences and mappings, never on an alias. */
  predicate Plain(anchors: Anchors) { forall x :: x in anchors ==> !anchors[x].Alias? }

  /** Decoding with no anchors at all: the meaning of a tree without aliases. */
  ghost function Meaning(u: Option<Node>): Option<Value> { if u.Some? then Decode(map[], {}, u.value) else None }

  /** No merge key on the way has an alias of a sequence as its value. */
  ghost predicate Direct(anchors: Anchors, open: set<Name>, n: Node)
    decreases Left(anchors, open), Size(n), 0
  {
    match n
    case Scalar(_, _) => true
    case Alias(x) =>
      if x !in anchors || x in open then true
      else
        Descends(open, anchors, x);
        Direct(anchors, open + {x}, anchors[x])
    case Sequence(items) => DirectAll(anchors, open, items)
    case Mapping(pairs) => DirectPairs(anchors, open, pairs)
  }

  ghost predicate DirectAll(anchors: Anchors, open: set<Name>, ns: seq<Node>)
    decreases Left(anchors, open), SizeAll(ns), 0
  {
    ns == [] || (DirectAll(anchors, open, ns[..|ns| - 1]) && Direct(anchors, open, ns[|ns| - 1]))
  }

  ghost predicate DirectPairs(anchors: Anchors, open: set<Name>, ps: seq<Pair>)
    decreases Left(anchors, open), SizePairs(ps), 0
  {
    ps == [] ||
    (&& DirectPairs(anchors, open, ps[..|ps| - 1])
     && Direct(anchors, open, ps[|ps| - 1].key) && Direct(anchors, open, ps[|ps| - 1].value)
     && !ListMerge(anchors, ps[|ps| - 1]))
  }

  predicate IsMerge(n: Node) { n.Scalar? && n.merge }

  predicate ListMerge(anchors: Anchors, p: Pair) {
    IsMerge(p.key) && p.value.Alias? && p.value.name in anchors && anchors[p.value.name].Sequence?
  }

  /**
   * Following aliases is decoding the unfolded tree, except that a merge key
   * refuses an alias of a sequence although it takes the sequence itself.
   */
  lemma {:induction false} DecodeExact(anchors: Anchors, open: set<Name>, n: Node)
    requires Plain(anchors)
    ensures Decode(anchors, open, n) == if Direct(anchors, open, n) then Meaning(Unfold(anchors, open, n)) else None
    ensures Decode(anchors, open, n) == Meaning(Unfold(anchors, open, n)) <==>
      Direct(anchors, open, n) || Meaning(Unfold(anchors, open, n)) == None
    decreases Left(anchors, open), Size(n), 1
  {
    hide DecodeAll, DecodePairs, UnfoldAll, UnfoldPairs, DirectAll, DirectPairs;
    match n
    case Scalar(_, _) =>
    case Alias(x) => AliasExact(anchors, open, x);
    case Sequence(items) => AllExact(anchors, open, items);
    case Mapping(pairs) => PairsExact(anchors, open, pairs, map[]);
  }

  lemma {:induction false} AliasExact(anchors: Anchors, open: set<Name>, x: Name)
    requires Plain(anchors)
    ensures var n := Alias(x);
      Decode(anchors, open, n) == if Direct(anchors, open, n) then Meaning(Unfold(anchors, open, n)) else None
    decreases Left(anchors, open), 1, 0
  {
    AliasStep(anchors, open, x, map[]);
    hide Decode, Unfold, Direct;
    if x in anchors && x !in open {
      Descends(open, anchors, x);
      DecodeExact(anchors, open + {x}, anchors[x]);
      OrdinaryMeansSame(Unfold(anchors, open + {x}, anchors[x]));
    }
  }

  lemma OrdinaryMeansSame(u: Option<Node>)
    ensures Meaning(Ordinary(u)) == Meaning(u)
  {
  }

  /** What following an alias comes to. */
  lemma AliasStep(anchors: Anchors, open: set<Name>, x: Name, m: map<Value, Value>)
    ensures var n := Alias(x);
      if x in anchors && x !in open then
        && Decode(anchors, open, n) == Decode(anchors, open + {x}, anchors[x])
        && Into(anchors, open, n, m) == Into(anchors, open + {x}, anchors[x], m)
        && Unfold(anchors, open, n) == Ordinary(Unfold(anchors, open + {x}, anchors[x]))
        && Direct(anchors, open, n) == Direct(anchors, open + {x}, anchors[x])
      else
        Decode(anchors, open, n).None? && Into(anchors, open, n, m).None? && Unfold(anchors, open, n).None?
  {
    hide DecodeAll, DecodePairs, UnfoldAll, UnfoldPairs, DirectAll, DirectPairs;
  }

  lemma {:induction false} AllExact(anchors: Anchors, open: set<Name>, ns: seq<Node>)
    requires Plain(anchors)
    ensures var u := UnfoldAll(anchors, open, ns);
      DecodeAll(anchors, open, ns) == if DirectAll(anchors, open, ns) && u.Some? then DecodeAll(map[], {}, u.value) else None
    decreases Left(anchors, open), SizeAll(ns), 0
  {
    if ns != [] {
      AllExact(anchors, open, ns[..|ns| - 1]);
      DecodeExact(anchors, open, ns[|ns| - 1]);
      var u := UnfoldAll(anchors, open, ns);
      if u.Some? { assert u.value[..|u.value| - 1] == UnfoldAll(anchors, open, ns[..|ns| - 1]).value; }
    }
  }

  lemma {:induction false} PairsExact(anchors: Anchors, open: set<Name>, ps: seq<Pair>, m: map<Value, Value>)
    requires Plain(anchors)
    ensures var u := UnfoldPairs(anchors, open, ps);
      DecodePairs(anchors, open, ps, m) == if DirectPairs(anchors, open, ps) && u.Some? then DecodePairs(map[], {}, u.value, m) else None
    decreases Left(anchors, open), SizePairs(ps), 0
  {
    if ps != [] {
      var front, p := ps[..|ps| - 1], ps[|ps| - 1];
      PairsExact(anchors, open, front, m);
      DecodeExact(anchors, open, p.key);
      DecodeExact(anchors, open, p.value);
      KeyKept(anchors, open, p.key);
      hide Decode, Unfold, Merge, Direct, Size;
      var r := DecodePairs(anchors, open, front, m);
      if r.Some? && IsMerge(p.key) {
        if ListMerge(anchors, p) { ListMergeFails(anchors, open, p.value, r.value); } else { MergeExact(anchors, open, p.value, r.value); }
      }
      var u := UnfoldPairs(anchors, open, ps);
      if u.Some? { assert u.value[..|u.value| - 1] == UnfoldPairs(anchors, open, front).value; }
    }
  }

  lemma ListMergeFails(anchors: Anchors, open: set<Name>, n: Node, m: map<Value, Value>)
    requires n.Alias? && n.name in anchors && anchors[n.name].Sequence?
    ensures Merge(anchors, open, n, m).None?
  {
  }

  /** A key is a merge key exactly if it still is one in the unfolded tree. */
  lemma KeyKept(anchors: Anchors, open: set<Name>, n: Node)
    ensures var u := Unfold(anchors, open, n); u.Some? ==> IsMerge(u.value) == IsMerge(n)
  {
    hide UnfoldAll, UnfoldPairs;
  }

  lemma {:induction false} MergeExact(anchors: Anchors, open: set<Name>, n: Node, m: map<Value, Value>)
    requires Plain(anchors) && !(n.Alias? && n.name in anchors && anchors[n.name].Sequence?)
    ensures var u := Unfold(anchors, open, n);
      Merge(anchors, open, n, m) == if Direct(anchors, open, n) && u.Some? then Merge(map[], {}, u.value, m) else None
    decreases Left(anchors, open), Size(n), 2
  {
    match n
    case Scalar(_, _) =>
    case Sequence(items) => MergeAllExact(anchors, open, items, m);
    case _ => MergeOneExact(anchors, open, n, m);
  }

  lemma {:induction false} MergeOneExact(anchors: Anchors, open: set<Name>, n: Node, m: map<Value, Value>)
    requires Plain(anchors)
    ensures var u := Unfold(anchors, open, n);
      MergeOne(anchors, open, n, m) == if Direct(anchors, open, n) && u.Some? then MergeOne(map[], {}, u.value, m) else None
    decreases Left(anchors, open), Size(n), 1
  {
    match n
    case Mapping(pairs) => IntoExact(anchors, open, pairs, m);
    case Alias(x) =>
      AliasStep(anchors, open, x, m);
      hide Decode, Unfold, Direct, Into;
      if x in anchors && x !in open {
        Descends(open, anchors, x);
        if Unfold(anchors, open + {x}, anchors[x]).Some? { KeepsKind(anchors, open + {x}, anchors[x]); }
        if anchors[x].Mapping? { IntoExact(anchors, open + {x}, anchors[x].pairs, m); }
      }
    case _ => if Unfold(anchors, open, n).Some? { KeepsKind(anchors, open, n); }
  }

  lemma {:induction false} IntoExact(anchors: Anchors, open: set<Name>, ps: seq<Pair>, m: map<Value, Value>)
    requires Plain(anchors)
    ensures var n := Mapping(ps);
      var u := Unfold(anchors, open, n);
      && (u.Some? ==> u.value.Mapping?)
      && Into(anchors, open, n, m) == if Direct(anchors, open, n) && u.Some? then Into(map[], {}, u.value, m) else None
    decreases Left(anchors, open), 1 + SizePairs(ps), 0
  {
    hide DecodePairs, UnfoldPairs, DirectPairs;
    PairsExact(anchors, open, ps, m);
  }

  /** Unfolding keeps the kind of a node that is not an alias. */
  lemma KeepsKind(anchors: Anchors, open: set<Name>, n: Node)
    requires !n.Alias? && Unfold(anchors, open, n).Some?
    ensures var u := Unfold(anchors, open, n).value; u.Scalar? == n.Scalar? && u.Sequence? == n.Sequence? && u.Mapping? == n.Mapping?
  {
  }

  lemma {:induction false} MergeAllExact(anchors: Anchors, open: set<Name>, ns: seq<Node>, m: map<Value, Value>)
    requires Plain(anchors)
    ensures var u := UnfoldAll(anchors, open, ns);
      MergeAll(anchors, open, ns, m) == if DirectAll(anchors, open, ns) && u.Some? then MergeAll(map[], {}, u.value, m) else None
    decreases Left(anchors, open), SizeAll(ns), 0
  {
    if ns != [] {
      var front, last := ns[..|ns| - 1], ns[|ns| - 1];
      MergeOneExact(anchors, open, last, m);
      var r := MergeOne(anchors, open, last, m);
      if r.Some? { MergeAllExact(anchors, open, front, r.value); }
      var u := UnfoldAll(anchors, open, ns);
      if u.Some? { assert u.value[..|u.value| - 1] == UnfoldAll(anchors, open, front).value; }
    }
  }

  /** A merge of an alias of a sequence of mappings fails, while the sequence written out merges. */
  lemma ListMergeExample()
    ensures var list := Sequence([Mapping([Pair(Scalar(false, Some(1)), Scalar(false, Some(2)))])]);
      var merge := Scalar(true, Some(0));
      && Decode(map["a" := list], {}, Mapping([Pair(merge, Alias("a"))])).None?
      && Decode(map["a" := list], {}, Mapping([Pair(merge, list)])) == Some(Dict(map[Atom(1) := Atom(2)]))
  {
    var one := Pair(Scalar(false, Some(1)), Scalar(false, Some(2)));
    var list, merge := Sequence([Mapping([one])]), Scalar(true, Some(0));
    var anchors := map["a" := list];
    assert DecodePairs(anchors, {}, [one], map[]) == Some(map[Atom(1) := Atom(2)]) by {
      assert [one][..0] == [];
      assert DecodePairs(anchors, {}, [], map[]) == Some(map[]);
    }
    assert MergeOne(anchors, {}, Mapping([one]), map[]) == Some(map[Atom(1) := Atom(2)]);
    assert MergeAll(anchors, {}, [Mapping([one])], map[]) == Some(map[Atom(1) := Atom(2)]) by {
      assert [Mapping([one])][..0] == [];
    }
    assert Merge(anchors, {}, list, map[]) == Some(map[Atom(1) := Atom(2)]);
    var written, named := [Pair(merge, list)], [Pair(merge, Alias("a"))];
    assert DecodePairs(anchors, {}, written, map[]) == Some(map[Atom(1) := Atom(2)]) by {
      assert written[..0] == [];
      assert DecodePairs(anchors, {}, [], map[]) == Some(map[]);
    }
    ListMergeFails(anchors, {}, Alias("a"), map[]);
    assert DecodePairs(anchors, {}, named, map[]).None? by {
      assert named[..0] == [];
      assert DecodePairs(anchors, {}, [], map[]) == Some(map[]);
    }
  }

  // ------------------------------------------------------------- when unfolding does not end

  /** The names a node refers to. */
  function Names(n: Node): set<Name>
    decreases Size(n)
  {
    match n
    case Scalar(_, _) => {}
    case Alias(x) => {x}
    case Sequence(items) => NamesAll(items)
    case Mapping(pairs) => NamesPairs(pairs)
  }

  function NamesAll(ns: seq<Node>): set<Name>
    decreases SizeAll(ns)
  {
    if ns == [] then {} else NamesAll(ns[..|ns| - 1]) + Names(ns[|ns| - 1])
  }

  function NamesPairs(ps: seq<Pair>): set<Name>
    decreases SizePairs(ps)
  {
    if ps == [] then {} else NamesPairs(ps[..|ps| - 1]) + Names(ps[|ps| - 1].key) + Names(ps[|ps| - 1].value)
  }

  /** A chain of references that starts in `from` and ends at an unknown anchor or at one it is already inside of. */
  predicate Astray(anchors: Anchors, open: set<Name>, from: set<Name>, path: seq<Name>)
    decreases |path|
  {
    && path != [] && path[0] in from
    && if path[0] !in anchors || path[0] in open then |path| == 1
       else Astray(anchors, open + {path[0]}, Names(anchors[path[0]]), path[1..])
  }

  lemma AstrayWider(anchors: Anchors, open: set<Name>, from: set<Name>, wider: set<Name>, path: seq<Name>)
    requires Astray(anchors, open, from, path) && from <= wider
    ensures Astray(anchors, open, wider, path)
  {
  }

  /** Unfolding fails only if some chain of references goes astray. */
  lemma {:induction false} FailsAstray(anchors: Anchors, open: set<Name>, n: Node) returns (path: seq<Name>)
    requires Unfold(anchors, open, n).None?
    ensures Astray(anchors, open, Names(n), path)
    decreases Left(anchors, open), Size(n), 0
  {
    match n
    case Alias(x) =>
      if x !in anchors || x in open {
        path := [x];
      } else {
        Descends(open, anchors, x);
        var rest := FailsAstray(anchors, open + {x}, anchors[x]);
        path := [x] + rest;
        assert path[1..] == rest;
      }
    case Sequence(items) => path := FailsAstrayAll(anchors, open, items);
    case Mapping(pairs) => path := FailsAstrayPairs(anchors, open, pairs);
  }

  lemma {:induction false} FailsAstrayAll(anchors: Anchors, open: set<Name>, ns: seq<Node>) returns (path: seq<Name>)
    requires UnfoldAll(anchors, open, ns).None?
    ensures Astray(anchors, open, NamesAll(ns), path)
    decreases Left(anchors, open), SizeAll(ns), 0
  {
    var front, last := ns[..|ns| - 1], ns[|ns| - 1];
    hide Astray;
    if UnfoldAll(anchors, open, front).None? {
      path := FailsAstrayAll(anchors, open, front);
      AstrayWider(anchors, open, NamesAll(front), NamesAll(ns), path);
    } else {
      path := FailsAstray(anchors, open, last);
      AstrayWider(anchors, open, Names(last), NamesAll(ns), path);
    }
  }

  lemma {:induction false} FailsAstrayPairs(anchors: Anchors, open: set<Name>, ps: seq<Pair>) returns (path: seq<Name>)
    requires UnfoldPairs(anchors, open, ps).None?
    ensures Astray(anchors, open, NamesPairs(ps), path)
    decreases Left(anchors, open), SizePairs(ps), 0
  {
    var front, p := ps[..|ps| - 1], ps[|ps| - 1];
    hide Astray;
    if UnfoldPairs(anchors, open, front).None? {
      path := FailsAstrayPairs(anchors, open, front);
      AstrayWider(anchors, open, NamesPairs(front), NamesPairs(ps), path);
    } else if Unfold(anchors, open, p.key).None? {
      path := FailsAstray(anchors, open, p.key);
      AstrayWider(anchors, open, Names(p.key), NamesPairs(ps), path);
    } else {
      path := FailsAstray(anchors, open, p.value);
      AstrayWider(anchors, open, Names(p.value), NamesPairs(ps), path);
    }
  }

  /** And it does fail if one goes astray. */
  lemma {:induction false} AstrayFails(anchors: Anchors, open: set<Name>, n: Node, path: seq<Name>)
    requires Astray(anchors, open, Names(n), path)
    ensures Unfold(anchors, open, n).None?
    decreases Left(anchors, open), Size(n), 0
  {
    match n
    case Alias(x) =>
      if x in anchors && x !in open {
        Descends(open, anchors, x);
        AstrayFails(anchors, open + {x}, anchors[x], path[1..]);
      }
    case Sequence(items) => AstrayFailsAll(anchors, open, items, path);
    case Mapping(pairs) => AstrayFailsPairs(anchors, open, pairs, path);
    case _ =>
  }

  lemma {:induction false} AstrayFailsAll(anchors: Anchors, open: set<Name>, ns: seq<Node>, path: seq<Name>)
    requires Astray(anchors, open, NamesAll(ns), path)
    ensures UnfoldAll(anchors, open, ns).None?
    decreases Left(anchors, open), SizeAll(ns), 0
  {
    var front, last := ns[..|ns| - 1], ns[|ns| - 1];
    AstrayFrom(anchors, open, NamesAll(ns), if path[0] in Names(last) then Names(last) else NamesAll(front), path);
    if path[0] in Names(last) { AstrayFails(anchors, open, last, path); } else { AstrayFailsAll(anchors, open, front, path); }
  }

  lemma {:induction false} AstrayFailsPairs(anchors: Anchors, open: set<Name>, ps: seq<Pair>, path: seq<Name>)
    requires Astray(anchors, open, NamesPairs(ps), path)
    ensures UnfoldPairs(anchors, open, ps).None?
    decreases Left(anchors, open), SizePairs(ps), 0
  {
    var front, p, x := ps[..|ps| - 1], ps[|ps| - 1], path[0];
    var from := if x in Names(p.key) then Names(p.key) else if x in Names(p.value) then Names(p.value) else NamesPairs(front);
    AstrayFrom(anchors, open, NamesPairs(ps), from, path);
    if x in Names(p.key) { AstrayFails(anchors, open, p.key, path); }
    else if x in Names(p.value) { AstrayFails(anchors, open, p.value, path); }
    else { AstrayFailsPairs(anchors, open, front, path); }
  }

  lemma AstrayFrom(anchors: Anchors, open: set<Name>, from: set<Name>, part: set<Name>, path: seq<Name>)
    requires Astray(anchors, open, from, path) && path[0] in part
    ensures Astray(anchors, open, part, path)
  {
  }

  // -------------------------------------------------------------------------- the decoder

  lemma {:induction false} ItemSmaller(ns: seq<Node>, i: nat)
    requires i < |ns|
    ensures Size(ns[i]) < SizeAll(ns)
    decreases |ns|
  {
    if i < |ns| - 1 { ItemSmaller(ns[..|ns| - 1], i); }
  }

  lemma {:induction false} PairSmaller(ps: seq<Pair>, i: nat)
    requires i < |ps|
    ensures Size(ps[i].key) + Size(ps[i].value) < SizePairs(ps)
    ensures Size(ps[i].key) < SizePairs(ps) && Size(ps[i].value) < SizePairs(ps)
    decreases |ps|
  {
    if i < |ps| - 1 { PairSmaller(ps[..|ps| - 1], i); }
  }

  lemma {:induction false} AllFails(anchors: Anchors, open: set<Name>, ns: seq<Node>, i: nat)
    requires i <= |ns| && DecodeAll(anchors, open, ns[..i]).None?
    ensures DecodeAll(anchors, open, ns).None?
    decreases |ns|
  {
    if i == |ns| {
      assert ns[..i] == ns;
    } else {
      assert ns[..|ns| - 1][..i] == ns[..i];
      AllFails(anchors, open, ns[..|ns| - 1], i);
    }
  }

  lemma {:induction false} PairsFail(anchors: Anchors, open: set<Name>, ps: seq<Pair>, i: nat, m: map<Value, Value>)
    requires i <= |ps| && DecodePairs(anchors, open, ps[..i], m).None?
    ensures DecodePairs(anchors, open, ps, m).None?
    decreases |ps|
  {
    if i == |ps| {
      assert ps[..i] == ps;
    } else {
      assert ps[..|ps| - 1][..i] == ps[..i];
      PairsFail(anchors, open, ps[..|ps| - 1], i, m);
    }
  }

  /** One more item, one more pair. */
  lemma AllStep(anchors: Anchors, open: set<Name>, ns: seq<Node>, i: nat)
    requires i < |ns|
    ensures var r, v := DecodeAll(anchors, open, ns[..i]), Decode(anchors, open, ns[i]);
      DecodeAll(anchors, open, ns[..i + 1]) == if r.Some? && v.Some? then Some(r.value + [v.value]) else None
  {
    var t := ns[..i + 1];
    assert t[..|t| - 1] == ns[..i] && t[|t| - 1] == ns[i];
  }

  ghost function SetPair(anchors: Anchors, open: set<Name>, p: Pair, m: map<Value, Value>): Option<map<Value, Value>> {
    if IsMerge(p.key) then Merge(anchors, open, p.value, m)
    else
      var k, v := Decode(anchors, open, p.key), Decode(anchors, open, p.value);
      if k.Some? && k.value.Atom? && v.Some? then Some(m[k.value := v.value]) else None
  }

  lemma PairsStep(anchors: Anchors, open: set<Name>, ps: seq<Pair>, i: nat, m: map<Value, Value>)
    requires i < |ps|
    ensures var r := DecodePairs(anchors, open, ps[..i], m);
      DecodePairs(anchors, open, ps[..i + 1], m) == if r.Some? then SetPair(anchors, open, ps[i], r.value) else None
  {
    var t := ps[..i + 1];
    assert t[..|t| - 1] == ps[..i] && t[|t| - 1] == ps[i];
  }

  lemma MergeStep(anchors: Anchors, open: set<Name>, ns: seq<Node>, i: nat, m: map<Value, Value>)
    requires i < |ns|
    ensures var r := MergeOne(anchors, open, ns[i], m);
      MergeAll(anchors, open, ns[..i + 1], m) == if r.Some? then MergeAll(anchors, open, ns[..i], r.value) else None
  {
    var t := ns[..i + 1];
    assert t[..|t| - 1] == ns[..i] && t[|t| - 1] == ns[i];
  }

  /** `active` holds the anchors being decoded; it is as it was whenever a call returns without failing. */
  class Decoder {
    const anchors: Anchors
    var active: set<Name>

    constructor (given: Anchors)
      ensures anchors == given && active == {}
    {
      anchors, active := given, {};
    }

    method Unmarshal(n: Node) returns (r: Option<Value>)
      modifies this
      ensures r == Decode(anchors, old(active), n) && (r.Some? ==> active == old(active))
      decreases Left(anchors, active), Size(n), 3
    {
      hide DecodeAll, DecodePairs;
      match n
      case Scalar(_, resolved) => r := if resolved.Some? then Some(Atom(resolved.value)) else None;
      case Alias(x) =>
        if x !in anchors || x in active { return None; }
        Descends(active, anchors, x);
        ghost var was := active;
        active := active + {x};
        r := Unmarshal(anchors[x]);
        active := active - {x};
        assert r.Some? ==> active == was;
      case Sequence(items) =>
        var vs := DecodeSequence(items);
        r := if vs.Some? then Some(List(vs.value)) else None;
      case Mapping(pairs) =>
        var m := DecodeMapping(pairs, map[]);
        r := if m.Some? then Some(Dict(m.value)) else None;
    }

    method DecodeSequence(items: seq<Node>) returns (r: Option<seq<Value>>)
      modifies this
      ensures r == DecodeAll(anchors, old(active), items) && (r.Some? ==> active == old(active))
      decreases Left(anchors, active), SizeAll(items), 4
    {
      hide Decode;
      var vs := [];
      assert items[..0] == [];
      for i := 0 to |items|
        invariant active == old(active) && DecodeAll(anchors, active, items[..i]) == Some(vs)
      {
        ItemSmaller(items, i);
        AllStep(anchors, active, items, i);
        var v := Unmarshal(items[i]);
        if v.None? {
          AllFails(anchors, old(active), items, i + 1);
          return None;
        }
        vs := vs + [v.value];
      }
      assert items[..|items|] == items;
      r := Some(vs);
    }

    /** The entries in order, later ones over earlier ones, merge keys where they stand. */
    method DecodeMapping(pairs: seq<Pair>, start: map<Value, Value>) returns (r: Option<map<Value, Value>>)
      modifies this
      ensures r == DecodePairs(anchors, old(active), pairs, start) && (r.Some? ==> active == old(active))
      decreases Left(anchors, active), SizePairs(pairs), 4
    {
      assert pairs[..0] == [] && DecodePairs(anchors, active, [], start) == Some(start);
      hide Decode, Merge, DecodePairs, SetPair, Size, SizePairs, Left;
      var m := start;
      for i := 0 to |pairs|
        invariant active == old(active) && DecodePairs(anchors, active, pairs[..i], start) == Some(m)
      {
        PairSmaller(pairs, i);
        PairsStep(anchors, active, pairs, i, start);
        var next := DecodePair(pairs[i], m);
        if next.None? {
          PairsFail(anchors, old(active), pairs, i + 1, start);
          return None;
        }
        m := next.value;
      }
      assert pairs[..|pairs|] == pairs;
      r := Some(m);
    }

    /** One entry: a merge, or a key and its value. */
    method DecodePair(p: Pair, m: map<Value, Value>) returns (r: Option<map<Value, Value>>)
      modifies this
      ensures r == SetPair(anchors, old(active), p, m) && (r.Some? ==> active == old(active))
      decreases Left(anchors, active), Size(p.key) + Size(p.value), 6
    {
      hide Decode, Merge, Left;
      if IsMerge(p.key) {
        r := MergeInto(p.value, m);
        return;
      }
      var k := Unmarshal(p.key);
      if k.None? || !k.value.Atom? { return None; }
      var v := Unmarshal(p.value);
      if v.None? { return None; }
      r := Some(m[k.value := v.value]);
    }

    method MergeInto(n: Node, m: map<Value, Value>) returns (r: Option<map<Value, Value>>)
      modifies this
      ensures r == Merge(anchors, old(active), n, m) && (r.Some? ==> active == old(active))
      decreases Left(anchors, active), Size(n), 5
    {
      hide MergeAll, MergeOne;
      match n
      case Scalar(_, _) => r := None;
      case Sequence(items) => r := MergeBackwards(items, m);
      case _ => r := MergeSingle(n, m);
    }

    /** From the last item to the first, so that earlier items take precedence. */
    method MergeBackwards(items: seq<Node>, start: map<Value, Value>) returns (r: Option<map<Value, Value>>)
      modifies this
      ensures r == MergeAll(anchors, old(active), items, start) && (r.Some? ==> active == old(active))
      decreases Left(anchors, active), SizeAll(items), 4
    {
      hide MergeOne;
      var m, i := start, |items|;
      assert items[..|items|] == items;
      while i > 0
        invariant 0 <= i <= |items| && active == old(active)
        invariant MergeAll(anchors, active, items[..i], m) == MergeAll(anchors, active, items, start)
      {
        i := i - 1;
        ItemSmaller(items, i);
        MergeStep(anchors, active, items, i, m);
        var one := MergeSingle(items[i], m);
        if one.None? { return None; }
        m := one.value;
      }
      r := Some(m);
    }

    method MergeSingle(n: Node, m: map<Value, Value>) returns (r: Option<map<Value, Value>>)
      modifies this
      ensures r == MergeOne(anchors, old(active), n, m) && (r.Some? ==> active == old(active))
      decreases Left(anchors, active), Size(n), 4
    {
      hide Into;
      if n.Alias? {
        if n.name in anchors && !anchors[n.name].Mapping? { return None; }
      } else if !n.Mapping? {
        return None;
      }
      r := UnmarshalInto(n, m);
    }

    method UnmarshalInto(n: Node, m: map<Value, Value>) returns (r: Option<map<Value, Value>>)
      modifies this
      ensures r == Into(anchors, old(active), n, m) && (r.Some? ==> active == old(active))
      decreases Left(anchors, active), Size(n), 3
    {
      hide DecodePairs;
      match n
      case Alias(x) =>
        if x !in anchors || x in active { return None; }
        Descends(active, anchors, x);
        ghost var was := active;
        active := active + {x};
        r := UnmarshalInto(anchors[x], m);
        active := active - {x};
        assert r.Some? ==> active == was;
      case Mapping(pairs) => r := DecodeMapping(pairs, m);
      case _ => r := None;
    }
  }
}
