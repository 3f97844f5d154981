/**
 * Which sets of tiles can be split into runs and triplets, independently of any
 * way of finding the split, and exactly when the greedy sweep agrees.
 */
module TileMelds {
  import opened TileSweep

  datatype Meld = Run(x: int) | Triplet(x: int)

  function MeldTiles(d: Meld): multiset<int> {
    match d
    case Run(x) => multiset{x, x + 1, x + 2}
    case Triplet(x) => multiset{x, x, x}
  }

  function Tiles(ms: seq<Meld>): multiset<int> {
    if ms == [] then multiset{} else MeldTiles(ms[0]) + Tiles(ms[1..])
  }

  /** The tiles can be laid out as runs and triplets. */
  ghost predicate Splits(m: multiset<int>) {
    exists ms :: Tiles(ms) == m
  }

  lemma TilesCons(d: Meld, ms: seq<Meld>)
    ensures Tiles([d] + ms) == MeldTiles(d) + Tiles(ms)
  {
    hide MeldTiles;
    assert ([d] + ms)[1..] == ms;
  }

  lemma {:induction false} TilesDrop(ms: seq<Meld>, i: nat)
    requires i < |ms|
    ensures Tiles(ms) == MeldTiles(ms[i]) + Tiles(ms[..i] + ms[i + 1..])
  {
    hide Tiles, MeldTiles;
    var rest := ms[1..];
    HeadTail(ms);
    TilesCons(ms[0], rest);
    if i == 0 {
      assert ms[..0] + ms[1..] == rest;
    } else {
      TilesDrop(rest, i - 1);
      var less := rest[..i - 1] + rest[i..];
      WithoutTail(ms, i);
      TilesCons(ms[0], less);
      assert rest[i - 1] == ms[i];
      Regroup(MeldTiles(ms[0]), MeldTiles(ms[i]), Tiles(less));
    }
  }

  lemma HeadTail(ms: seq<Meld>)
    requires ms != []
    ensures ms == [ms[0]] + ms[1..]
  {
  }

  lemma WithoutTail(ms: seq<Meld>, i: nat)
    requires 0 < i < |ms|
    ensures ms[..i] + ms[i + 1..] == [ms[0]] + (ms[1..][..i - 1] + ms[1..][i..])
  {
  }

  lemma Regroup(a: multiset<int>, b: multiset<int>, c: multiset<int>)
    ensures a + (b + c) == b + (a + c)
  {
  }

  lemma {:induction false} TilesCount(ms: seq<Meld>)
    ensures |Tiles(ms)| == 3 * |ms|
  {
    if ms != [] { TilesCount(ms[1..]); }
  }

  lemma SplitCount(m: multiset<int>)
    requires Splits(m)
    ensures |m| % 3 == 0
  {
    hide Tiles;
    var ms :| Tiles(ms) == m;
    TilesCount(ms);
  }

  lemma AddMeld(m: multiset<int>, d: Meld)
    requires Splits(m)
    ensures Splits(m + MeldTiles(d))
  {
    hide Tiles, MeldTiles;
    var ms :| Tiles(ms) == m;
    TilesCons(d, ms);
  }

  lemma {:induction false} AddTriplets(m: multiset<int>, x: int, n: nat)
    requires Splits(m) && n % 3 == 0
    ensures Splits(m[x := m[x] + n])
  {
    hide Tiles;
    if n == 0 {
      assert m[x := m[x] + 0] == m;
    } else {
      AddTriplets(m, x, n - 3);
      AddMeld(m[x := m[x] + (n - 3)], Triplet(x));
      assert m[x := m[x] + n] == m[x := m[x] + (n - 3)] + MeldTiles(Triplet(x));
    }
  }

  /** Some meld of a layout holds the given tile. */
  lemma {:induction false} MeldWith(ms: seq<Meld>, x: int) returns (i: nat)
    requires x in Tiles(ms)
    ensures i < |ms| && x in MeldTiles(ms[i])
  {
    hide MeldTiles;
    if x in MeldTiles(ms[0]) {
      i := 0;
    } else {
      assert x in Tiles(ms[1..]);
      var k := MeldWith(ms[1..], x);
      i := k + 1;
    }
  }

  /** In any layout, the smallest tile starts its meld. */
  lemma MinStartsMeld(ms: seq<Meld>) returns (d: Meld, rest: seq<Meld>)
    requires Tiles(ms) != multiset{}
    ensures d.x == Min(Tiles(ms)) && Tiles(ms) == MeldTiles(d) + Tiles(rest)
  {
    hide Tiles;
    var x := Min(Tiles(ms));
    var i := MeldWith(ms, x);
    TilesDrop(ms, i);
    d, rest := ms[i], ms[..i] + ms[i + 1..];
    assert d.x in MeldTiles(d);
    assert d.x in Tiles(ms);
  }

  /**
   * The exchange step: a set with three or more of its smallest tile still splits
   * without three of them. Three equal runs are turned into three triplets.
   */
  lemma TripletFirst(m: multiset<int>)
    requires Splits(m) && m != multiset{} && m[Min(m)] >= 3
    ensures Splits(m[Min(m) := m[Min(m)] - 3])
  {
    hide Tiles;
    var x := Min(m);
    var ms :| Tiles(ms) == m;
    var d1, r1 := MinStartsMeld(ms);
    if d1.Triplet? {
      assert Tiles(r1) == m[x := m[x] - 3];
    } else {
      SecondOfThree(m, x, r1);
    }
  }

  lemma MinOfRest(m: multiset<int>, rest: multiset<int>, x: int)
    requires m != multiset{} && x == Min(m) && rest <= m && x in rest
    ensures rest != multiset{} && Min(rest) == x
  {
    assert Min(rest) in rest;
    assert Min(rest) in m;
  }

  lemma SecondOfThree(m: multiset<int>, x: int, r1: seq<Meld>)
    requires m != multiset{} && x == Min(m) && m[x] >= 3
    requires m == MeldTiles(Run(x)) + Tiles(r1)
    ensures Splits(m[x := m[x] - 3])
  {
    hide Tiles;
    MinOfRest(m, Tiles(r1), x);
    var d2, r2 := MinStartsMeld(r1);
    if d2.Triplet? {
      // A run and a triplet of x: trade places, the run stays.
      TilesCons(Run(x), r2);
      assert Tiles([Run(x)] + r2) == m[x := m[x] - 3];
    } else {
      ThirdOfThree(m, x, r2);
    }
  }

  lemma ThirdOfThree(m: multiset<int>, x: int, r2: seq<Meld>)
    requires m != multiset{} && x == Min(m) && m[x] >= 3
    requires m == MeldTiles(Run(x)) + MeldTiles(Run(x)) + Tiles(r2)
    ensures Splits(m[x := m[x] - 3])
  {
    hide Tiles;
    MinOfRest(m, Tiles(r2), x);
    var d3, r3 := MinStartsMeld(r2);
    AddMeld(Tiles(r3), if d3.Triplet? then Run(x) else Triplet(x + 1));
    if d3.Triplet? {
      AddMeld(Tiles(r3) + MeldTiles(Run(x)), Run(x));
      RunsStay(Tiles(r3), x);
    } else {
      AddMeld(Tiles(r3) + MeldTiles(Triplet(x + 1)), Triplet(x + 2));
      RunsToTriplets(Tiles(r3), x);
    }
  }

  lemma RunsStay(m: multiset<int>, x: int)
    ensures var all := MeldTiles(Run(x)) + MeldTiles(Run(x)) + (MeldTiles(Triplet(x)) + m);
      all[x] >= 3 && m + MeldTiles(Run(x)) + MeldTiles(Run(x)) == all[x := all[x] - 3]
  {
  }

  /** Three equal runs hold the same tiles as three triplets. */
  lemma RunsToTriplets(m: multiset<int>, x: int)
    ensures var all := MeldTiles(Run(x)) + MeldTiles(Run(x)) + (MeldTiles(Run(x)) + m);
      all[x] >= 3 && m + MeldTiles(Triplet(x + 1)) + MeldTiles(Triplet(x + 2)) == all[x := all[x] - 3]
  {
  }

  /** With fewer than three of the smallest tile, a run must start there. */
  lemma RunForced(m: multiset<int>)
    requires Splits(m) && m != multiset{} && m[Min(m)] < 3
    ensures var x := Min(m); x + 1 in m && x + 2 in m && Splits(TakeRun(m, x))
  {
    hide Tiles;
    var x := Min(m);
    var ms :| Tiles(ms) == m;
    var d, rest := MinStartsMeld(ms);
    assert d == Run(x) by {
      assert MeldTiles(Triplet(x))[x] == 3;
    }
    assert TakeRun(m, x) == Tiles(rest);
  }

  lemma RunBack(m: multiset<int>, x: int)
    requires x in m && x + 1 in m && x + 2 in m && Splits(TakeRun(m, x))
    ensures Splits(m)
  {
    hide Tiles;
    AddMeld(TakeRun(m, x), Run(x));
    assert TakeRun(m, x) + MeldTiles(Run(x)) == m;
  }

  ghost predicate Positive(m: multiset<int>) {
    forall x :: x in m ==> x >= 1
  }

  lemma SweepEmpty()
    ensures Sweep(multiset{}) == Outcome(true, false) && Tiles([]) == multiset{}
  {
  }

  /** One step of the sweep where no phantom run follows. */
  lemma SweepStep(m: multiset<int>)
    requires m != multiset{} && (m[1] < 4 || m[2] == 0 || Min(m) != 1)
    ensures var x := Min(m);
            if m[x] >= 3 then Sweep(m) == Sweep(m[x := m[x] - 3])
            else if x + 1 in m && x + 2 in m then Sweep(m) == Outcome(Sweep(TakeRun(m, x)).cleared, true)
            else Sweep(m) == Outcome(false, Sweep(Dec(m, x)).run)
  {
    var x := Min(m);
    if m[x] >= 3 {
      assert Phantoms(m, x) == 0 by { assert x == 1 ==> m[1] == m[x]; }
      assert TakeTriplet(m, x) == m[x := m[x] - 3];
    }
  }

  /** Without phantom runs the greedy sweep decides splitting, for any number of tiles. */
  lemma {:induction false} SweepDecides(m: multiset<int>)
    requires Positive(m) && (m[1] < 4 || m[2] == 0)
    ensures Sweep(m).cleared <==> Splits(m)
    decreases |m|
  {
    hide Sweep, Tiles;
    SweepEmpty();
    if m != multiset{} {
      SweepStep(m);
      var x := Min(m);
      if m[x] >= 3 {
        var rest := m[x := m[x] - 3];
        SweepDecides(rest);
        if Splits(m) { TripletFirst(m); }
        if Splits(rest) {
          AddTriplets(rest, x, 3);
          assert rest[x := rest[x] + 3] == m;
        }
      } else {
        if Splits(m) { RunForced(m); }
        if x + 1 in m && x + 2 in m {
          SweepDecides(TakeRun(m, x));
          if Splits(TakeRun(m, x)) { RunBack(m, x); }
        }
      }
    }
  }

  /** Tiles with no tile one higher only split into triplets. */
  lemma {:induction false} LoneOnes(m: multiset<int>)
    requires Positive(m) && Splits(m) && m[2] == 0
    ensures m[1] % 3 == 0
    decreases |m|
  {
    hide Tiles;
    if 1 in m {
      assert Min(m) == 1;
      if m[1] >= 3 {
        TripletFirst(m);
        LoneOnes(m[1 := m[1] - 3]);
      } else {
        RunForced(m);
        assert false;
      }
    }
  }

  /** All copies of the smallest tile, or any multiple of three of them, can be put aside. */
  lemma {:induction false} DropTriplets(m: multiset<int>, x: int, n: nat)
    requires Splits(m) && n % 3 == 0 && n <= m[x] && forall y :: y in m ==> x <= y
    ensures Splits(m[x := m[x] - n])
    decreases n
  {
    hide Tiles;
    if n == 0 {
      assert m[x := m[x]] == m;
    } else {
      assert x in m && Min(m) == x;
      TripletFirst(m);
      var rest := m[x := m[x] - 3];
      DropTriplets(rest, x, n - 3);
      assert rest[x := rest[x] - (n - 3)] == m[x := m[x] - n];
    }
  }

  /**
   * What a caller can check of the tiles beside the pair: with four or more 1s
   * the sweep is right only when both the 1s and the phantom runs come in threes.
   */
  predicate Safe(m: multiset<int>) {
    m[1] < 4 || (m[1] % 3 == 0 && (m[2] >= m[1] - 3 || m[2] % 3 == 0))
  }

  /** If what the sweep leaves after 1,1,1 and its phantom runs splits, so did all of it. */
  lemma PhantomsBack(m: multiset<int>)
    requires Positive(m) && |m| % 3 == 0 && m[1] >= 4 && Splits(TakeTriplet(m, 1))
    ensures Splits(m) && Safe(m)
  {
    hide Splits;
    var f := Phantoms(m, 1);
    var rest := TakeTriplet(m, 1);
    PhantomSize(m);
    SplitCount(rest);
    assert f % 3 == 0;
    if rest[2] == 0 { LoneOnes(rest); }
    AddTriplets(rest, 2, f);
    var twos := rest[2 := rest[2] + f];
    AddTriplets(twos, 1, f + 3);
    PhantomsPutBack(m);
  }

  lemma PhantomsPutBack(m: multiset<int>)
    requires m[1] >= 3
    ensures var f := Phantoms(m, 1);
      var rest := TakeTriplet(m, 1);
      var twos := rest[2 := rest[2] + f];
      twos[1 := twos[1] + (f + 3)] == m
  {
  }

  lemma PhantomsForth(m: multiset<int>)
    requires Positive(m) && m[1] >= 4 && Splits(m) && Safe(m)
    ensures Splits(TakeTriplet(m, 1))
  {
    hide Splits;
    var f := Phantoms(m, 1);
    DropTriplets(m, 1, m[1]);
    var ones := m[1 := 0];
    assert m[1 := m[1] - m[1]] == ones;
    assert forall y :: y in ones ==> 2 <= y by { assert forall y :: y in ones ==> y in m && y != 1; }
    DropTriplets(ones, 2, f);
    var both := ones[2 := ones[2] - f];
    AddTriplets(both, 1, m[1] - 3 - f);
    assert both[1 := both[1] + (m[1] - 3 - f)] == TakeTriplet(m, 1);
  }

  /**
   * What the sweep clears of any number of tiles: with four or more 1s, a triplet of them and
   * the phantom runs go first, and what is left has to split.
   */
  ghost predicate Clearable(m: multiset<int>) {
    if m[1] < 4 then Splits(m) else Splits(TakeTriplet(m, 1))
  }

  /** The greedy sweep in full: no condition on the number of tiles. */
  lemma SweepClears(m: multiset<int>)
    requires Positive(m)
    ensures Sweep(m).cleared <==> Clearable(m)
  {
    hide Sweep, Splits;
    if m[1] < 4 {
      SweepDecides(m);
    } else {
      OnesFirst(m);
      SweepDecides(TakeTriplet(m, 1));
    }
  }

  lemma OnesFirst(m: multiset<int>)
    requires Positive(m) && m[1] >= 4
    ensures Sweep(m).cleared == Sweep(TakeTriplet(m, 1)).cleared
    ensures Positive(TakeTriplet(m, 1)) && (TakeTriplet(m, 1)[1] == 0 || TakeTriplet(m, 1)[2] == 0)
  {
    assert Min(m) == 1;
    assert forall x :: x in TakeTriplet(m, 1) ==> x in m;
  }

  /** For a number of tiles divisible by three, clearing is splitting with safe 1s. */
  lemma ClearableExact(m: multiset<int>)
    requires Positive(m) && |m| % 3 == 0
    ensures Clearable(m) <==> Splits(m) && Safe(m)
  {
    hide Splits;
    if m[1] >= 4 {
      if Splits(TakeTriplet(m, 1)) { PhantomsBack(m); }
      if Splits(m) && Safe(m) { PhantomsForth(m); }
    }
  }

  /**
   * The greedy sweep against the existential meaning, in both directions: for any
   * number of tiles divisible by three it clears them exactly when they split and
   * the 1s are safe. In particular a cleared hand always really splits.
   */
  lemma SweepExact(m: multiset<int>)
    requires Positive(m) && |m| % 3 == 0
    ensures Sweep(m).cleared <==> Splits(m) && Safe(m)
  {
    hide Sweep, Splits, Safe, Clearable;
    SweepClears(m);
    ClearableExact(m);
  }

  /** Phantom runs whose number is no multiple of three, and a rest that splits. */
  ghost predicate OddPhantoms(m: multiset<int>) {
    m[1] >= 4 && m[2] > 0 && Phantoms(m, 1) % 3 != 0 && Splits(TakeTriplet(m, 1))
  }

  /** A number of tiles not divisible by three never splits, but phantom runs can clear it: exactly then. */
  lemma PhantomExact(m: multiset<int>)
    requires Positive(m) && |m| % 3 != 0
    ensures !Splits(m) && (Clearable(m) <==> OddPhantoms(m))
  {
    hide Splits;
    if Splits(m) { SplitCount(m); }
    if m[1] >= 4 && Splits(TakeTriplet(m, 1)) {
      PhantomSize(m);
      SplitCount(TakeTriplet(m, 1));
    }
  }

  lemma PhantomSize(m: multiset<int>)
    requires m[1] >= 3
    ensures |TakeTriplet(m, 1)| == |m| - 3 - 2 * Phantoms(m, 1)
  {
  }

  // ------------------------------------------------------------ triplets only

  ghost predicate SplitsInTriplets(m: multiset<int>) {
    exists ms: seq<Meld> :: Tiles(ms) == m && forall i :: 0 <= i < |ms| ==> ms[i].Triplet?
  }

  /** A sweep that clears everything and saw no run took triplets only. */
  lemma {:induction false} NoRunMeansTriplets(m: multiset<int>)
    requires Sweep(m) == Outcome(true, false)
    ensures SplitsInTriplets(m)
    decreases |m|
  {
    hide SplitsInTriplets;
    if m == multiset{} {
      NoTiles();
    } else {
      var x := Min(m);
      var rest := m[x := m[x] - 3];
      NoRunStep(m);
      NoRunMeansTriplets(rest);
      OneMoreTriplet(rest, x);
      assert rest + MeldTiles(Triplet(x)) == m;
    }
  }

  lemma NoTiles()
    ensures SplitsInTriplets(multiset{})
  {
    assert Tiles([]) == multiset{};
  }

  lemma NoRunStep(m: multiset<int>)
    requires m != multiset{} && Sweep(m) == Outcome(true, false)
    ensures m[Min(m)] >= 3 && Sweep(m[Min(m) := m[Min(m)] - 3]) == Outcome(true, false)
  {
    var x := Min(m);
    if m[x] >= 3 { assert TakeTriplet(m, x) == m[x := m[x] - 3]; }
  }

  lemma OneMoreTriplet(m: multiset<int>, x: int)
    requires SplitsInTriplets(m)
    ensures SplitsInTriplets(m + MeldTiles(Triplet(x)))
  {
    hide Tiles, MeldTiles;
    var ms: seq<Meld> :| Tiles(ms) == m && forall i :: 0 <= i < |ms| ==> ms[i].Triplet?;
    TilesCons(Triplet(x), ms);
    var ns := [Triplet(x)] + ms;
    assert Tiles(ns) == m + MeldTiles(Triplet(x));
  }

  lemma TripletsInThrees(m: multiset<int>, x: int)
    requires SplitsInTriplets(m)
    ensures m[x] % 3 == 0
  {
    hide Tiles;
    var ms: seq<Meld> :| Tiles(ms) == m && forall i :: 0 <= i < |ms| ==> ms[i].Triplet?;
    TripletCounts(ms, x);
  }

  lemma {:induction false} TripletCounts(ms: seq<Meld>, x: int)
    requires forall i :: 0 <= i < |ms| ==> ms[i].Triplet?
    ensures Tiles(ms)[x] % 3 == 0
  {
    hide MeldTiles;
    if ms != [] {
      TripletCounts(ms[1..], x);
      ThreeOrNone(ms[0], x);
    }
  }

  lemma ThreeOrNone(d: Meld, x: int)
    requires d.Triplet?
    ensures MeldTiles(d)[x] % 3 == 0
  {
  }

  /** How many copies of a tile are left over when it is put in threes. */
  function Spare(m: multiset<int>, x: int): nat { m[x] % 3 }

  /** Every tile other than p comes in threes. */
  ghost predicate ThreesBut(m: multiset<int>, p: int) {
    forall x :: x != p ==> Spare(m, x) == 0
  }

  /** Every tile comes in threes. */
  ghost predicate Threes(m: multiset<int>) { forall x :: Spare(m, x) == 0 }

  /** The 1s and 2s make no phantom run. */
  predicate NoPhantoms(m: multiset<int>) { m[1] < 4 || m[2] == 0 }

  lemma PhantomsRun(m: multiset<int>)
    requires Positive(m) && !NoPhantoms(m)
    ensures Sweep(m).run
  {
    assert Min(m) == 1;
  }

  lemma SpareOf(m: multiset<int>, x: int, n: nat, k: nat)
    requires k <= m[x] && n == m[x] - k
    ensures var rest := m[x := n];
      && (k == 3 ==> Spare(rest, x) == Spare(m, x)) && (forall y :: y != x ==> Spare(rest, y) == Spare(m, y))
      && (forall y :: y > x ==> (y in rest <==> y in m)) && |rest| == |m| - k
      && (NoPhantoms(m) ==> NoPhantoms(rest))
  {
    var rest := m[x := n];
    assert forall y :: y != x ==> rest[y] == m[y];
    assert rest[x] == n;
  }

  /** Three of the smallest tile are taken: the sweep goes on with the same spares. */
  lemma ThreeOff(m: multiset<int>) returns (rest: multiset<int>)
    requires m != multiset{} && NoPhantoms(m) && m[Min(m)] >= 3
    ensures |rest| < |m| && NoPhantoms(rest) && Sweep(m) == Sweep(rest)
    ensures forall y :: Spare(rest, y) == Spare(m, y)
    ensures forall y :: y > Min(m) ==> (y in rest <==> y in m)
  {
    hide Sweep, Spare;
    var x := Min(m);
    SweepStep(m);
    rest := m[x := m[x] - 3];
    SpareOf(m, x, m[x] - 3, 3);
  }

  /** The only copies of the smallest tile are spare: a run is seen, or one is dropped. */
  lemma SpareOff(m: multiset<int>) returns (rest: multiset<int>)
    requires m != multiset{} && NoPhantoms(m) && m[Min(m)] < 3
    ensures |rest| < |m| && NoPhantoms(rest) && Spare(m, Min(m)) > 0
    ensures Sweep(m).run <==> (Min(m) + 1 in m && Min(m) + 2 in m) || Sweep(rest).run
    ensures Spare(rest, Min(m)) == Spare(m, Min(m)) - 1
    ensures forall y :: y != Min(m) ==> Spare(rest, y) == Spare(m, y)
    ensures forall y :: y > Min(m) ==> (y in rest <==> y in m)
  {
    hide Sweep;
    var x := Min(m);
    SpareStep(m);
    rest := m[x := m[x] - 1];
    SpareOf(m, x, m[x] - 1, 1);
  }

  lemma SpareStep(m: multiset<int>)
    requires m != multiset{} && NoPhantoms(m) && m[Min(m)] < 3
    ensures var x := Min(m); Sweep(m).run <==> (x + 1 in m && x + 2 in m) || Sweep(m[x := m[x] - 1]).run
  {
    hide Sweep;
    SweepStep(m);
    DecIsUpdate(m, Min(m));
  }

  lemma DecIsUpdate(m: multiset<int>, x: int)
    requires x in m
    ensures Dec(m, x) == m[x := m[x] - 1]
  {
  }

  lemma {:induction false} ThreesSweep(m: multiset<int>)
    requires NoPhantoms(m) && Threes(m)
    ensures Sweep(m) == Outcome(true, false)
    decreases |m|
  {
    hide Sweep, NoPhantoms;
    SweepEmpty();
    if m != multiset{} {
      assert Spare(m, Min(m)) == 0;
      var rest := ThreeOff(m);
      ThreesSweep(rest);
    }
  }

  lemma SpareIn(m: multiset<int>, p: int)
    requires Spare(m, p) != 0
    ensures p in m && m != multiset{} && Min(m) <= p
  {
    assert p in m;
  }

  /** One or two spare copies of p among triplets: a run is seen exactly when p + 1 and p + 2 are there. */
  lemma {:induction false} SpareSweep(m: multiset<int>, p: int)
    requires NoPhantoms(m) && ThreesBut(m, p) && Spare(m, p) != 0
    ensures Sweep(m).run <==> p + 1 in m && p + 2 in m
    decreases |m|
  {
    hide Sweep, NoPhantoms, Spare;
    SpareIn(m, p);
    if m[Min(m)] >= 3 {
      var rest := ThreeOff(m);
      SpareSweep(rest, p);
    } else {
      var rest := SpareOff(m);
      assert Min(m) == p;
      if Spare(rest, p) == 0 { ThreesSweep(rest); } else { SpareSweep(rest, p); }
    }
  }

  /** As above with a single spare v below the pair p. */
  lemma {:induction false} TwoSparesSweep(m: multiset<int>, v: int, p: int)
    requires NoPhantoms(m) && v < p && Spare(m, v) == 1 && Spare(m, p) == 2
    requires forall x :: x != p && x != v ==> Spare(m, x) == 0
    ensures Sweep(m).run <==> (v + 1 in m && v + 2 in m) || (p + 1 in m && p + 2 in m)
    decreases |m|
  {
    hide Sweep, NoPhantoms, Spare;
    SpareIn(m, v);
    if m[Min(m)] >= 3 {
      var rest := ThreeOff(m);
      TwoSparesSweep(rest, v, p);
    } else {
      var rest := SpareOff(m);
      assert Min(m) == v;
      SpareSweep(rest, p);
    }
  }
}
