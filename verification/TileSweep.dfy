/**
 * The greedy sweep that takes melds (triplets and runs) out of a sorted hand by
 * writing zeros into it, and what it does to the multiset of tiles left.
 */
module TileSweep {
  import opened TileSort

  /** What a sweep reports: were all tiles taken, and was any run taken. */
  datatype Outcome = Outcome(cleared: bool, run: bool)

  // ---------------------------------------------------------------- reference

  lemma MinExists(m: multiset<int>)
    requires m != multiset{}
    ensures exists x :: x in m && forall y :: y in m ==> x <= y
    decreases |m|
  {
    var x :| x in m;
    var rest := m[x := 0];
    assert forall y :: y in m <==> y == x || y in rest;
    if rest == multiset{} {
      assert forall y :: y in m ==> x <= y;
    } else {
      MinExists(rest);
      var z :| z in rest && forall y :: y in rest ==> z <= y;
      var least := if z < x then z else x;
      assert least in m && forall y :: y in m ==> least <= y;
    }
  }

  ghost function Min(m: multiset<int>): (x: int)
    requires m != multiset{}
    ensures x in m && forall y :: y in m ==> x <= y
  {
    MinExists(m);
    var x :| x in m && forall y :: y in m ==> x <= y;
    x
  }

  /**
   * After the triplet 1,1,1 is taken its cleared first slot reads as a 0, so
   * every later 1 is matched against it and a 2 as the "run" 0,1,2.
   */
  ghost function Phantoms(m: multiset<int>, x: int): nat
    requires m[x] >= 3
  {
    if x != 1 then 0 else if m[1] - 3 < m[2] then m[1] - 3 else m[2]
  }

  ghost function TakeTriplet(m: multiset<int>, x: int): multiset<int>
    requires m[x] >= 3
  {
    var f := Phantoms(m, x);
    if x == 1 then m[1 := m[1] - 3 - f][2 := m[2] - f] else m[x := m[x] - 3]
  }

  ghost function TakeRun(m: multiset<int>, x: int): multiset<int>
    requires x in m && x + 1 in m && x + 2 in m
  {
    m[x := m[x] - 1][x + 1 := m[x + 1] - 1][x + 2 := m[x + 2] - 1]
  }

  ghost function Dec(m: multiset<int>, x: int): multiset<int> {
    m - multiset{x}
  }

  /** The sweep on a multiset of tiles: smallest tile first, triplet before run. */
  ghost function Sweep(m: multiset<int>): Outcome
    decreases |m|
  {
    if m == multiset{} then Outcome(true, false)
    else
      var x := Min(m);
      if m[x] >= 3 then
        var r := Sweep(TakeTriplet(m, x));
        Outcome(r.cleared, Phantoms(m, x) > 0 || r.run)
      else if x + 1 in m && x + 2 in m then
        Outcome(Sweep(TakeRun(m, x)).cleared, true)
      else
        Outcome(false, Sweep(Dec(m, x)).run)
  }

  // ------------------------------------------------------- tiles still on hand

  /** The tiles of a slice whose cleared slots hold zero. */
  ghost function Live(s: seq<Byte>): multiset<int> {
    multiset(s)[0 := 0]
  }

  ghost predicate Ordered(s: seq<Byte>) {
    forall a, b :: 0 <= a < b < |s| && s[a] > 0 && s[b] > 0 ==> s[a] <= s[b]
  }

  lemma LiveStep(s: seq<Byte>, i: nat)
    requires i < |s|
    ensures Live(s[i..]) == if s[i] > 0 then Live(s[i + 1..])[s[i] := Live(s[i + 1..])[s[i]] + 1] else Live(s[i + 1..])
  {
    assert s[i..] == [s[i]] + s[i + 1..];
  }

  lemma LiveClear(s: seq<Byte>, i: nat, j: nat)
    requires i <= j < |s| && s[j] > 0
    ensures s[j] in Live(s[i..])
    ensures Live(s[j := 0][i..]) == Dec(Live(s[i..]), s[j])
  {
    assert s[j := 0][i..] == s[i..][j - i := 0];
    assert s[i..][j - i] == s[j];
    assert s[j] in s[i..];
  }

  lemma LiveIn(s: seq<Byte>, i: nat, j: nat)
    requires i <= j < |s| && s[j] > 0
    ensures s[j] in Live(s[i..])
  {
    assert s[i..][j - i] == s[j];
  }

  lemma NotLive(s: seq<Byte>, i: nat, x: Byte)
    requires i <= |s| && forall k :: i <= k < |s| ==> s[k] != x
    ensures Live(s[i..])[x] == 0
  {
    assert x !in s[i..] by { forall q | 0 <= q < |s[i..]| ensures s[i..][q] != x { assert s[i..][q] == s[i + q]; } }
  }

  lemma LiveAt(s: seq<Byte>, i: nat, x: Byte) returns (j: nat)
    requires i <= |s| && x > 0 && x in Live(s[i..])
    ensures i <= j < |s| && s[j] == x
  {
    assert x in s[i..];
    var q :| 0 <= q < |s[i..]| && s[i..][q] == x;
    j := i + q;
  }

  lemma {:induction false} TwoAt(s: seq<Byte>, i: nat, x: Byte) returns (j: nat, k: nat)
    requires i <= |s| && x > 0 && Live(s[i..])[x] >= 2
    ensures i <= j < k < |s| && s[j] == s[k] == x
    decreases |s| - i
  {
    LiveStep(s, i);
    if s[i] == x {
      j := i;
      k := LiveAt(s, i + 1, x);
    } else {
      j, k := TwoAt(s, i + 1, x);
    }
  }

  // ------------------------------------------------------------- the loop nest

  /** Byte addition wraps. */
  function Next(x: Byte): Byte { (x + 1) % 256 }

  ghost predicate RunAt(s: seq<Byte>, i: nat, j: nat, k: nat)
    requires i < |s| && j < |s| && k < |s|
  {
    Next(s[i]) == s[j] && Next(s[j]) == s[k]
  }

  ghost predicate MeldAt(s: seq<Byte>, i: nat, j: nat, k: nat)
    requires i < |s| && j < |s| && k < |s|
  {
    s[k] > 0 && (RunAt(s, i, j, k) || (s[i] == s[j] && s[j] == s[k]))
  }

  ghost function Zeroed(s: seq<Byte>, i: nat, j: nat, k: nat): seq<Byte>
    requires i < |s| && j < |s| && k < |s|
  {
    s[i := 0][j := 0][k := 0]
  }

  /** The innermost loop: the first later slot that completes a meld with i and j. */
  method ClearThird(list: array<Byte>, i: nat, j: nat) returns (hit: bool, run: bool, ghost at: nat)
    requires i < j < list.Length
    modifies list
    ensures hit ==> j < at < list.Length && MeldAt(old(list[..]), i, j, at)
    ensures hit ==> list[..] == Zeroed(old(list[..]), i, j, at) && run == RunAt(old(list[..]), i, j, at)
    ensures !hit ==> !run && list[..] == old(list[..])
    ensures !hit ==> forall k :: j < k < list.Length ==> !MeldAt(old(list[..]), i, j, k)
  {
    hit, run, at := false, false, j;
    var k := j + 1;
    while k < list.Length
      invariant j < k <= list.Length
      invariant list[..] == old(list[..])
      invariant forall q :: j < q < k ==> !MeldAt(old(list[..]), i, j, q)
    {
      if list[k] > 0 {
        if Next(list[i]) == list[j] && Next(list[j]) == list[k] {
          list[i] := 0; list[j] := 0; list[k] := 0;
          return true, true, k;
        } else if list[i] == list[j] && list[j] == list[k] {
          list[i] := 0; list[j] := 0; list[k] := 0;
          return true, false, k;
        }
      }
      k := k + 1;
    }
  }

  /** No meld starts at slot i with a second slot before j. */
  ghost predicate NoMeld(s: seq<Byte>, i: nat, j: nat)
    requires i < j <= |s|
  {
    forall p, k :: i < p < j && p < k < |s| && s[p] > 0 ==> !MeldAt(s, i, p, k)
  }

  lemma HeadIsMin(s: seq<Byte>, i: nat)
    requires i < |s| && s[i] > 0 && Ordered(s)
    ensures Live(s[i..]) != multiset{} && Min(Live(s[i..])) == s[i]
  {
    assert s[i] == s[i..][0];
    assert s[i] in s[i..];
    var m := Live(s[i..]);
    assert s[i] in m;
    forall y | y in m ensures s[i] <= y {
      var p := LiveAt(s, i, y);
    }
  }

  lemma LiveZeroed(s: seq<Byte>, i: nat, j: nat, k: nat)
    requires i < j < k < |s| && s[i] > 0 && s[j] > 0 && s[k] > 0
    ensures Live(Zeroed(s, i, j, k)[i..]) == Dec(Dec(Dec(Live(s[i..]), s[i]), s[j]), s[k])
  {
    LiveClear(s, i, i);
    LiveClear(s[i := 0], i, j);
    LiveClear(s[i := 0][j := 0], i, k);
  }

  lemma TripletOff(m: multiset<int>, x: int)
    requires m[x] >= 3
    ensures Dec(Dec(Dec(m, x), x), x) == m[x := m[x] - 3]
  {
  }

  lemma RunOff(m: multiset<int>, x: int)
    requires x in m && x + 1 in m && x + 2 in m
    ensures Dec(Dec(Dec(m, x), x + 1), x + 2) == TakeRun(m, x)
  {
    assert Dec(Dec(m, x), x + 1) == m[x := m[x] - 1][x + 1 := m[x + 1] - 1];
  }

  /** A meld that comes up at slots i, j, k is the one the reference takes. */
  lemma FirstMeld(s: seq<Byte>, i: nat, j: nat, k: nat)
    requires i < j < k < |s| && s[i] > 0 && s[j] > 0 && Ordered(s)
    requires NoMeld(s, i, j) && MeldAt(s, i, j, k)
    ensures Progress(Live(s[i..]), s[i], Live(Zeroed(s, i, j, k)[i..]), 0, RunAt(s, i, j, k))
  {
    hide Live, Dec, TakeRun;
    LiveZeroed(s, i, j, k);
    if RunAt(s, i, j, k) {
      LiveIn(s, i, i);
      LiveIn(s, i, j);
      LiveIn(s, i, k);
      RunOff(Live(s[i..]), s[i]);
      RunMeansFew(s, i, j);
    } else {
      ThreeAt(s, i, j, k);
      TripletOff(Live(s[i..]), s[i]);
    }
  }

  lemma RunMeansFew(s: seq<Byte>, i: nat, j: nat)
    requires i < j < |s| && s[i] > 0 && s[j] > s[i] && Ordered(s) && NoMeld(s, i, j)
    ensures Live(s[i..])[s[i]] < 3
  {
    if Live(s[i..])[s[i]] >= 3 {
      LiveStep(s, i);
      var p, q := TwoAt(s, i + 1, s[i]);
      assert p < j && MeldAt(s, i, p, q);
      assert false;
    }
  }

  lemma ThreeAt(s: seq<Byte>, i: nat, j: nat, k: nat)
    requires i < j < k < |s| && s[i] == s[j] == s[k] > 0
    ensures Live(s[i..])[s[i]] >= 3
  {
    var x := s[i];
    assert s[i..] == [x] + s[i + 1..j] + [x] + s[j + 1..k] + [x] + s[k + 1..];
  }

  /** When no meld starts at slot i the reference finds none either. */
  lemma NoFirstMeld(s: seq<Byte>, i: nat)
    requires i + 1 < |s| && s[i] > 0 && Ordered(s) && NoMeld(s, i, |s| - 1)
    ensures var m := Live(s[i..]); var x: int := s[i]; m[x] < 3 && !(x + 1 in m && x + 2 in m)
  {
    var m := Live(s[i..]);
    var x: int := s[i];
    if m[x] >= 3 {
      LiveStep(s, i);
      var p, q := TwoAt(s, i + 1, x);
      assert MeldAt(s, i, p, q);
    }
    if x + 1 in m && x + 2 in m {
      assert x + 2 in s[i..];
      var p := LiveAt(s, i, x + 1);
      var q := LiveAt(s, i, x + 2);
      assert MeldAt(s, i, p, q);
    }
  }

  /** What is left of m once the meld of tile x and f phantom runs are out. */
  ghost predicate Progress(m: multiset<int>, x: int, left: multiset<int>, f: nat, run: bool) {
    if m[x] >= 3 then
      && run == (f > 0)
      && (if x == 1 then f <= m[1] - 3 && f <= m[2] && left == m[1 := m[1] - 3 - f][2 := m[2] - f]
          else f == 0 && left == m[x := m[x] - 3])
    else
      f == 0 && run && x in m && x + 1 in m && x + 2 in m && left == TakeRun(m, x)
  }

  /** State of the middle loop once a meld has been taken at slot i. */
  ghost predicate AfterMeld(s0: seq<Byte>, s: seq<Byte>, i: nat, j: nat, f: nat, run: bool)
    requires i < |s0| == |s| && i < j
  {
    var m := Live(s0[i..]);
    && Ordered(s) && s[i] == 0
    && Progress(m, s0[i], Live(s[i..]), f, run)
    && (forall p :: j <= p < |s| && s[p] == 1 ==> m[s0[i]] >= 3 && s0[i] == 1)
    && (m[s0[i]] >= 3 ==> forall p :: i < p < j && p < |s| && s[p] == 1 ==> m[2] == f)
  }

  lemma MeldTaken(s0: seq<Byte>, s: seq<Byte>, i: nat, j: nat, k: nat)
    requires i < j < k < |s0| && s0[i] > 0 && s0[j] > 0 && Ordered(s0)
    requires NoMeld(s0, i, j) && MeldAt(s0, i, j, k)
    requires s == Zeroed(s0, i, j, k)
    ensures AfterMeld(s0, s, i, j + 1, 0, RunAt(s0, i, j, k))
  {
    FirstMeld(s0, i, j, k);
    if RunAt(s0, i, j, k) {
      forall p | j + 1 <= p < |s| ensures s[p] != 1 { assert s[p] == s0[p] || s[p] == 0; }
    } else {
      forall p | i < p < j ensures s0[p] != s0[i] { assert s0[p] == 0 || !MeldAt(s0, i, p, j); }
      forall p | j + 1 <= p < |s| && s[p] == 1 ensures s0[i] == 1 { assert s[p] == s0[p]; }
    }
  }

  lemma PhantomProgress(m: multiset<int>, left: multiset<int>, f: nat, run: bool)
    requires m[1] >= 3 && Progress(m, 1, left, f, run) && 1 in left && 2 in left
    ensures Progress(m, 1, Dec(Dec(left, 1), 2), f + 1, true)
  {
    assert Dec(Dec(left, 1), 2) == m[1 := m[1] - 3 - (f + 1)][2 := m[2] - (f + 1)];
  }

  lemma PhantomCleared(s: seq<Byte>, i: nat, j: nat, k: nat)
    requires i < j < k < |s| && s[i] == 0 && s[j] == 1 && s[k] == 2
    ensures 1 in Live(s[i..]) && 2 in Live(s[i..])
    ensures Live(Zeroed(s, i, j, k)[i..]) == Dec(Dec(Live(s[i..]), 1), 2)
  {
    assert s[i := 0] == s;
    LiveIn(s, i, k);
    LiveClear(s, i, j);
    LiveClear(s[j := 0], i, k);
  }

  lemma PhantomTaken(s0: seq<Byte>, s: seq<Byte>, t: seq<Byte>, i: nat, j: nat, k: nat, f: nat, run: bool)
    requires i < j < k < |s0| == |s| && s0[i] > 0
    requires AfterMeld(s0, s, i, j, f, run)
    requires s[j] > 0 && MeldAt(s, i, j, k) && t == Zeroed(s, i, j, k)
    ensures RunAt(s, i, j, k) && AfterMeld(s0, t, i, j + 1, f + 1, true)
  {
    assert s[j] == 1 && s[k] == 2;
    PhantomCleared(s, i, j, k);
    PhantomProgress(Live(s0[i..]), Live(s[i..]), f, run);
    forall p | i < p < j ensures s[p] != 1 { assert Live(s[i..])[2] > 0; }
  }

  lemma NoPhantom(s0: seq<Byte>, s: seq<Byte>, i: nat, j: nat, f: nat, run: bool)
    requires i < j < |s0| == |s| && s0[i] > 0
    requires AfterMeld(s0, s, i, j, f, run)
    requires s[j] > 0 ==> forall k :: j < k < |s| ==> !MeldAt(s, i, j, k)
    ensures AfterMeld(s0, s, i, j + 1, f, run)
  {
    if s[j] == 1 {
      forall k | i <= k < |s| ensures s[k] != 2 {
        if k > j { assert !MeldAt(s, i, j, k); } else if k < j { assert s[k] == 0 || s[k] <= s[j]; }
      }
      NotLive(s, i, 2);
    }
  }

  /** Phantom runs are taken until the 1s or the 2s are used up. */
  lemma PhantomsDone(s0: seq<Byte>, s: seq<Byte>, i: nat, f: nat, run: bool)
    requires i + 2 < |s0| == |s| && s0[i] == 1
    requires AfterMeld(s0, s, i, |s| - 1, f, run) && Live(s0[i..])[1] >= 3
    ensures f >= Live(s0[i..])[1] - 3 || f >= Live(s0[i..])[2]
  {
    if f < Live(s0[i..])[1] - 3 {
      var p := LiveAt(s, i, 1);
      if p == |s| - 1 {
        forall q | i <= q < |s| ensures s[q] != 2 { if q != p { assert s[q] == 0 || s[q] <= s[p]; } }
        NotLive(s, i, 2);
      }
    }
  }

  lemma SweptFrom(s0: seq<Byte>, s: seq<Byte>, i: nat, f: nat, run: bool)
    requires i + 2 < |s0| == |s| && s0[i] > 0
    requires AfterMeld(s0, s, i, |s| - 1, f, run)
    ensures SlotSwept(s0, s, i, run) && Ordered(s)
  {
    var m := Live(s0[i..]);
    if m[s0[i]] >= 3 && s0[i] == 1 {
      PhantomsDone(s0, s, i, f, run);
    }
  }

  /** The effect of the two inner loops for slot i, against the reference. */
  ghost predicate SlotSwept(s0: seq<Byte>, s: seq<Byte>, i: nat, run: bool)
    requires i < |s0| == |s|
  {
    var m := Live(s0[i..]);
    var x: int := s0[i];
    if m[x] >= 3 then s[i] == 0 && Live(s[i..]) == TakeTriplet(m, x) && run == (Phantoms(m, x) > 0)
    else if x in m && x + 1 in m && x + 2 in m then s[i] == 0 && Live(s[i..]) == TakeRun(m, x) && run
    else s == s0 && !run
  }

  lemma NothingTaken(s: seq<Byte>, i: nat)
    requires i + 1 < |s| && s[i] > 0 && Ordered(s) && NoMeld(s, i, |s| - 1)
    ensures SlotSwept(s, s, i, false)
  {
    NoFirstMeld(s, i);
  }

  /**
   * The middle loop for one occupied slot i. It goes on after the slot has been
   * cleared, exactly as the source does.
   */
  method ClearFrom(list: array<Byte>, i: nat) returns (run: bool)
    requires i + 2 < list.Length && list[i] > 0 && Ordered(list[..])
    modifies list
    ensures Ordered(list[..]) && list[..i] == old(list[..i])
    ensures SlotSwept(old(list[..]), list[..], i, run)
  {
    hide AfterMeld, SlotSwept;
    run := false;
    ghost var s0 := list[..];
    ghost var taken, f := false, 0;
    var j := i + 1;
    while j < list.Length - 1
      invariant i < j <= list.Length - 1
      invariant list[..i] == s0[..i]
      invariant !taken ==> !run && f == 0 && list[..] == s0 && NoMeld(s0, i, j)
      invariant taken ==> AfterMeld(s0, list[..], i, j, f, run)
    {
      if list[j] > 0 {
        ghost var s := list[..];
        var hit, r, at := ClearThird(list, i, j);
        if hit && taken {
          PhantomTaken(s0, s, list[..], i, j, at, f, run);
          f := f + 1;
        } else if hit {
          MeldTaken(s0, list[..], i, j, at);
          taken := true;
        } else if taken {
          NoPhantom(s0, s, i, j, f, run);
        }
        run := run || r;
      } else if taken {
        NoPhantom(s0, list[..], i, j, f, run);
      }
      j := j + 1;
    }
    if taken {
      SweptFrom(s0, list[..], i, f, run);
    } else {
      NothingTaken(s0, i);
    }
  }

  /**
   * The outer loop: sweeps a sorted hand in place and reports what happened.
   */
  method ClearMelds(list: array<Byte>) returns (cleared: bool, run: bool)
    requires Ordered(list[..])
    modifies list
    ensures Outcome(cleared, run) == Sweep(Live(old(list[..])))
  {
    hide Sweep, SlotSwept, Pending;
    run := false;
    ghost var goal := Sweep(Live(list[..]));
    var i := 0;
    PendingStart(list[..]);
    while i < list.Length - 2
      invariant 0 <= i && (i <= list.Length - 2 || i == 0)
      invariant Ordered(list[..])
      invariant goal == Pending(list[..], i, run)
    {
      ghost var s0 := list[..];
      if list[i] > 0 {
        var r := ClearFrom(list, i);
        PendingStep(s0, list[..], i, run, r);
        run := run || r;
      } else {
        PendingSkip(s0, i, run);
      }
      i := i + 1;
    }
    PendingEnd(list[..], i, run);
    cleared := AllTaken(list);
  }

  /** The final scan for a tile that is left. */
  method AllTaken(list: array<Byte>) returns (cleared: bool)
    ensures cleared == forall q :: 0 <= q < list.Length ==> list[q] == 0
  {
    for i := 0 to list.Length
      invariant forall q :: 0 <= q < i ==> list[q] == 0
    {
      if list[i] > 0 {
        return false;
      }
    }
    return true;
  }

  /** What the sweep will report when slots before i are done. */
  ghost function Pending(s: seq<Byte>, i: nat, run: bool): Outcome
    requires i <= |s|
  {
    var r := Sweep(Live(s[i..]));
    Outcome(r.cleared && forall q :: 0 <= q < i ==> s[q] == 0, run || r.run)
  }

  lemma PendingStart(s: seq<Byte>)
    ensures Pending(s, 0, false) == Sweep(Live(s))
  {
    assert s[0..] == s;
  }

  lemma PendingSkip(s: seq<Byte>, i: nat, run: bool)
    requires i < |s| && s[i] == 0
    ensures Pending(s, i, run) == Pending(s, i + 1, run)
  {
    LiveStep(s, i);
  }

  lemma PendingEnd(s: seq<Byte>, i: nat, run: bool)
    requires i <= |s| <= i + 2
    ensures Pending(s, i, run) == Outcome(forall q :: 0 <= q < |s| ==> s[q] == 0, run)
  {
    FewTiles(s[i..]);
    forall q | i <= q < |s| ensures s[q] == s[i..][q - i] { }
  }

  lemma PendingStep(s0: seq<Byte>, s: seq<Byte>, i: nat, run: bool, r: bool)
    requires i < |s0| == |s| && s0[i] > 0 && Ordered(s0)
    requires SlotSwept(s0, s, i, r) && s[..i] == s0[..i]
    ensures Pending(s0, i, run) == Pending(s, i + 1, run || r)
  {
    SlotStep(s0, s, i, r);
    forall q | 0 <= q < i ensures s[q] == s0[q] { assert s[..i][q] == s0[..i][q]; }
  }

  lemma SweepUnfold(m: multiset<int>)
    requires m != multiset{}
    ensures var x := Min(m);
            if m[x] >= 3 then
              Sweep(m) == Outcome(Sweep(TakeTriplet(m, x)).cleared, Phantoms(m, x) > 0 || Sweep(TakeTriplet(m, x)).run)
            else if x + 1 in m && x + 2 in m then Sweep(m) == Outcome(Sweep(TakeRun(m, x)).cleared, true)
            else Sweep(m) == Outcome(false, Sweep(Dec(m, x)).run)
  {
    hide TakeTriplet, TakeRun, Phantoms;
  }

  lemma SlotStep(s0: seq<Byte>, s: seq<Byte>, i: nat, r: bool)
    requires i < |s0| == |s| && s0[i] > 0 && Ordered(s0)
    requires SlotSwept(s0, s, i, r)
    ensures Sweep(Live(s0[i..])) == Outcome(s[i] == 0 && Sweep(Live(s[i + 1..])).cleared, r || Sweep(Live(s[i + 1..])).run)
  {
    hide Sweep, Live;
    HeadIsMin(s0, i);
    var m := Live(s0[i..]);
    var x: int := s0[i];
    SweepUnfold(m);
    LiveStep(s, i);
    if m[x] < 3 && !(x + 1 in m && x + 2 in m) {
      assert Live(s[i + 1..]) == Dec(m, x);
    }
  }

  /** Fewer than three tiles never form a meld. */
  lemma FewTiles(s: seq<Byte>)
    requires |s| <= 2
    ensures Sweep(Live(s)) == Outcome(forall q :: 0 <= q < |s| ==> s[q] == 0, false)
  {
    if |s| == 1 {
      assert s == [s[0]];
      assert multiset(s) == multiset{s[0]};
    } else if |s| == 2 {
      assert s == [s[0], s[1]];
      assert multiset(s) == multiset{s[0], s[1]};
    }
    SmallSweep(Live(s));
    assert Live(s) == multiset{} <==> forall q :: 0 <= q < |s| ==> s[q] == 0;
  }

  lemma ThreeDistinct(m: multiset<int>, x: int)
    requires x in m && x + 1 in m && x + 2 in m
    ensures |m| >= 3
  {
    assert |Dec(Dec(Dec(m, x), x + 1), x + 2)| == |m| - 3;
  }

  lemma {:induction false} SmallSweep(m: multiset<int>)
    requires |m| <= 2
    ensures Sweep(m) == Outcome(m == multiset{}, false)
    decreases |m|
  {
    if m != multiset{} {
      var x := Min(m);
      assert |m[x := 0]| == |m| - m[x];
      if x + 1 in m && x + 2 in m {
        ThreeDistinct(m, x);
        assert false;
      }
      SmallSweep(Dec(m, x));
    }
  }
}
