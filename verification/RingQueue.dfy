/**
 * The growing ring buffer: an array with a count and two cursors, proved to be a
 * first-in first-out queue across wrap-around and growth.
 */
module RingQueue {
  datatype Slot<T> = Nil | Elem(value: T)

  /** The slot k places after p in a ring of n slots. */
  function Around(p: nat, k: nat, n: nat): nat {
    if p + k < n then p + k else p + k - n
  }

  ghost predicate Filled<T>(ring: seq<Slot<T>>, popi: nat, count: nat) {
    && count <= |ring| && (count > 0 ==> popi < |ring|)
    && forall k :: 0 <= k < count ==> ring[Around(popi, k, |ring|)].Elem?
  }

  /** The queued values, oldest first. */
  ghost function Items<T>(ring: seq<Slot<T>>, popi: nat, count: nat): (s: seq<T>)
    requires Filled(ring, popi, count)
    ensures |s| == count
    ensures forall k :: 0 <= k < count ==> s[k] == ring[Around(popi, k, |ring|)].value
  {
    seq(count, k requires 0 <= k < count => ring[Around(popi, k, |ring|)].value)
  }

  lemma NextSlot(p: nat, n: nat)
    requires p < n
    ensures (p + 1) % n == Around(p, 1, n)
  {
    if p + 1 < n { WithinModulus(p + 1, n); }
  }

  lemma WithinModulus(x: nat, n: nat)
    requires x < n
    ensures x % n == x
  {
  }

  lemma PushItems<T>(ring: seq<Slot<T>>, popi: nat, count: nat, x: T)
    requires Filled(ring, popi, count) && count < |ring| && popi < |ring|
    ensures var ring' := ring[Around(popi, count, |ring|) := Elem(x)];
      Filled(ring', popi, count + 1) && Items(ring', popi, count + 1) == Items(ring, popi, count) + [x]
  {
    var last, n := Around(popi, count, |ring|), |ring|;
    var ring' := ring[last := Elem(x)];
    forall k | 0 <= k < count ensures ring'[Around(popi, k, n)] == ring[Around(popi, k, n)] {}
  }

  lemma PopItems<T>(ring: seq<Slot<T>>, popi: nat, count: nat)
    requires Filled(ring, popi, count) && count > 0
    ensures ring[popi].Elem?
    ensures var ring', p' := ring[popi := Nil], Around(popi, 1, |ring|);
      && Filled(ring', p', count - 1)
      && Items(ring, popi, count)[0] == ring[popi].value
      && Items(ring', p', count - 1) == Items(ring, popi, count)[1..]
  {
    var n, p' := |ring|, Around(popi, 1, |ring|);
    assert ring[popi] == ring[Around(popi, 0, n)];
    var ring' := ring[popi := Nil];
    forall k | 0 <= k < count - 1 ensures ring'[Around(p', k, n)] == ring[Around(popi, k + 1, n)] {}
  }

  /** A full ring laid out in a longer one: the part after the read cursor moves to the end. */
  lemma GrowItems<T>(ring: seq<Slot<T>>, popi: nat, grown: seq<Slot<T>>, popi': nat)
    requires Filled(ring, popi, |ring|) && |grown| > |ring| && popi <= |ring|
    requires popi' == if popi == 0 then 0 else |grown| - (|ring| - popi)
    requires forall k :: 0 <= k < (if popi == 0 then |ring| else popi) ==> grown[k] == ring[k]
    requires forall k :: popi' <= k < |grown| && popi > 0 ==> grown[k] == ring[k - (|grown| - |ring|)]
    ensures Filled(grown, popi', |ring|) && Items(grown, popi', |ring|) == Items(ring, popi, |ring|)
  {
    forall k | 0 <= k < |ring|
      ensures Around(popi', k, |grown|) < |grown| && grown[Around(popi', k, |grown|)] == ring[Around(popi, k, |ring|)]
    {
    }
  }

  class Queue<T> {
    var elems: array<Slot<T>>
    var nelems: nat
    var popi: nat
    var pushi: nat

    ghost predicate Valid()
      reads this, elems
    {
      && nelems <= elems.Length && Filled(elems[..], popi, nelems)
      && (elems.Length == 0 ==> popi == 0 && pushi == 0)
      && (elems.Length > 0 ==> popi < elems.Length && pushi == Around(popi, nelems, elems.Length))
    }

    ghost function Contents(): seq<T>
      requires Valid()
      reads this, elems
    {
      Items(elems[..], popi, nelems)
    }

    constructor ()
      ensures Valid() && Contents() == [] && fresh(elems)
    {
      elems := new Slot<T>[0];
      nelems, popi, pushi := 0, 0, 0;
    }

    method Len() returns (n: nat)
      requires Valid()
      ensures n == |Contents()|
    {
      n := nelems;
    }

    method Push(x: T)
      requires Valid()
      modifies this, elems
      ensures Valid() && Contents() == old(Contents()) + [x]
      ensures elems == old(elems) || fresh(elems)
    {
      hide Filled, Items;
      if nelems == elems.Length { Expand(); }
      ghost var was := elems[..];
      PushItems(was, popi, nelems, x);
      NextSlot(pushi, elems.Length);
      elems[pushi] := Elem(x);
      assert elems[..] == was[pushi := Elem(x)];
      nelems := nelems + 1;
      pushi := (pushi + 1) % elems.Length;
    }

    method Pop() returns (x: Slot<T>)
      requires Valid()
      modifies this, elems
      ensures Valid() && elems == old(elems)
      ensures old(Contents()) == [] ==> x == Nil && Contents() == []
      ensures old(Contents()) != [] ==> x == Elem(old(Contents())[0]) && Contents() == old(Contents())[1..]
    {
      if nelems == 0 { return Nil; }
      hide Filled, Items;
      ghost var was, p := elems[..], popi;
      PopItems(was, popi, nelems);
      NextSlot(popi, elems.Length);
      x := elems[popi];
      elems[popi] := Nil;
      assert elems[..] == was[p := Nil];
      nelems := nelems - 1;
      popi := (popi + 1) % elems.Length;
    }

    /** Growth keeps the queue and makes room; the old array is not used again. */
    method Expand()
      requires Valid() && nelems == elems.Length
      modifies this
      ensures Valid() && Contents() == old(Contents()) && nelems == old(nelems)
      ensures fresh(elems) && elems.Length > nelems
    {
      hide Filled, Items;
      ghost var was := elems[..];
      var cap := elems.Length;
      var newcap := if cap == 0 then 8 else if cap < 1024 then cap * 2 else cap + cap / 4;
      var grown := new Slot<T>[newcap](_ => Nil);
      var newpopi := if popi == 0 then 0 else newcap - (cap - popi);
      if popi == 0 {
        forall k | 0 <= k < cap { grown[k] := elems[k]; }
        pushi := cap;
      } else {
        forall k | 0 <= k < popi { grown[k] := elems[k]; }
        forall k | newpopi <= k < newcap { grown[k] := elems[k - (newcap - cap)]; }
      }
      GrowItems(was, popi, grown[..], newpopi);
      popi := newpopi;
      elems := grown;
    }
  }
}
