/**
 * Win detection: the in-place method that classifies a hand, what its flags say
 * about the multiset of tiles, and when they agree with the rules of the game.
 */
module WinCheck {
  import opened TileSort
  import opened TileSweep
  import opened TileMelds

  const HU: bv32 := 2 << 6
  const PING_HU: bv32 := 2 << 8
  const HU_BIG_PAIR: bv32 := 2 << 9
  const HU_SEVEN_PAIR: bv32 := 2 << 10
  const HU_ALL_OF_ONE: bv32 := 2 << 11
  const HU_ONE_SUIT_BIG_PAIR: bv32 := 2 << 12
  const HU_ONE_SUIT_SEVEN_PAIR: bv32 := 2 << 13
  const HU_LONG_SEVEN_PAIR: bv32 := 2 << 14
  const HU_ONE_SUIT_LONG_SEVEN_PAIR: bv32 := 2 << 15
  const LONG: bv32 := 2 << 16

  predicate Has(huType: bv32, flag: bv32) { huType & flag != 0 }

  // ---------------------------------------------------- four of a kind, seven pairs

  ghost predicate FourOfAKind(m: multiset<int>) { exists x :: m[x] >= 4 }

  ghost predicate AllEven(m: multiset<int>) { forall x :: m[x] % 2 == 0 }

  /** Number of places in s[from..] holding x. */
  ghost function CountFrom(s: seq<Byte>, from: nat, x: int): nat
    requires from <= |s|
  {
    multiset(s[from..])[x]
  }

  lemma CountStep(s: seq<Byte>, from: nat, x: int)
    requires from < |s|
    ensures CountFrom(s, from, x) == CountFrom(s, from + 1, x) + (if s[from] == x then 1 else 0)
  {
    assert s[from..] == [s[from]] + s[from + 1..];
  }

  lemma {:induction false} CountShrinks(s: seq<Byte>, from: nat, to: nat, x: int)
    requires from <= to <= |s|
    ensures CountFrom(s, to, x) <= CountFrom(s, from, x)
    decreases |s| - from
  {
    if from < to {
      CountShrinks(s, from + 1, to, x);
      CountStep(s, from, x);
    }
  }

  /** Whether a tile has three more copies behind it; the source counts them one by one. */
  method ExistFour(cards: seq<Byte>) returns (found: bool)
    ensures found == FourOfAKind(multiset(cards))
  {
    assert cards[0..] == cards;
    var j := 0;
    while j < |cards| - 3
      invariant 0 <= j <= |cards| && (j <= |cards| - 3 || j == 0)
      invariant forall x :: multiset(cards)[x] >= 4 ==> CountFrom(cards, j, x) >= 4
    {
      var count := 0;
      var i := j + 1;
      while i < |cards|
        invariant j < i <= |cards|
        invariant 0 <= count < 3
        invariant count + CountFrom(cards, i, cards[j]) == CountFrom(cards, j + 1, cards[j])
      {
        CountStep(cards, i, cards[j]);
        if cards[j] == cards[i] {
          count := count + 1;
          if count == 3 {
            CountStep(cards, j, cards[j]);
            CountShrinks(cards, 0, j, cards[j]);
            assert multiset(cards)[cards[j]] >= 4;
            return true;
          }
        }
        i := i + 1;
      }
      assert cards[|cards|..] == [];
      forall x | multiset(cards)[x] >= 4 ensures CountFrom(cards, j + 1, x) >= 4 {
        CountStep(cards, j, x);
      }
      j := j + 1;
    }
    forall x ensures multiset(cards)[x] < 4 {
      CountBound(cards, j, x);
    }
    return false;
  }

  lemma CountBound(s: seq<Byte>, from: nat, x: int)
    requires from <= |s|
    ensures CountFrom(s, from, x) <= |s| - from
  {
    var m := multiset(s[from..]);
    assert |m[x := 0]| == |m| - m[x];
  }

  /** Neighbours pair up at every even place. */
  ghost predicate Paired(s: seq<Byte>) {
    forall n :: 0 <= n < |s| - 1 && n % 2 == 0 ==> s[n] == s[n + 1]
  }

  lemma {:induction false} PairedMeansEven(s: seq<Byte>)
    requires |s| % 2 == 0 && Sorted(s)
    ensures Paired(s) <==> AllEven(multiset(s))
    decreases |s|
  {
    if s != [] {
      PairedMeansEven(s[2..]);
      if s[0] == s[1] {
        PairedTail(s);
        EvenTail(s);
      } else {
        OddHead(s);
        assert !Paired(s) by { assert s[0] != s[0 + 1]; }
      }
    }
  }

  lemma EvenTail(s: seq<Byte>)
    requires |s| >= 2 && s[0] == s[1]
    ensures AllEven(multiset(s)) <==> AllEven(multiset(s[2..]))
  {
    assert s == [s[0]] + [s[1]] + s[2..];
    assert forall x :: multiset(s)[x] == multiset(s[2..])[x] + if x == s[0] then 2 else 0;
  }

  lemma OddHead(s: seq<Byte>)
    requires |s| >= 2 && s[0] != s[1] && Sorted(s)
    ensures multiset(s)[s[0]] == 1
  {
    assert s == [s[0]] + s[1..];
    forall k | 0 <= k < |s[1..]| ensures s[1..][k] > s[0] { assert s[1] <= s[k + 1] || k == 0; }
    assert s[0] !in s[1..];
  }

  lemma PairedTail(s: seq<Byte>)
    requires |s| >= 2 && s[0] == s[1]
    ensures Paired(s) <==> Paired(s[2..])
  {
    var t := s[2..];
    if Paired(t) {
      forall n | 0 <= n < |s| - 1 && n % 2 == 0 ensures s[n] == s[n + 1] {
        if n >= 2 { assert t[n - 2] == t[n - 2 + 1]; }
      }
    }
    if Paired(s) {
      forall n | 0 <= n < |t| - 1 && n % 2 == 0 ensures t[n] == t[n + 1] {
        assert s[n + 2] == s[n + 2 + 1];
      }
    }
  }

  // -------------------------------------------------------------- the n-loop

  /** What is left when the neighbours at n and n + 1 are put aside as the pair. */
  ghost function Rest(s: seq<Byte>, n: nat): multiset<int>
    requires n + 1 < |s|
  {
    Live(s[n := 0][n + 1 := 0])
  }

  datatype Tally = Tally(ping: bool, big: bool, shun: bool)

  /** The source's flags after the pair choices before n; the run flag is never reset. */
  ghost function Scan(s: seq<Byte>, n: nat): Tally
    requires n == 0 || n < |s|
  {
    if n == 0 then Tally(false, false, false)
    else
      var t := Scan(s, n - 1);
      if s[n - 1] != s[n] then t
      else
        var o := Sweep(Rest(s, n - 1));
        Tally(t.ping || o.cleared, t.big || (o.cleared && !t.shun && !o.run), t.shun || o.run)
  }

  ghost function ScanAll(s: seq<Byte>): Tally {
    Scan(s, if s == [] then 0 else |s| - 1)
  }

  function TallyFlags(t: Tally, oneColor: bool): bv32 { PlainFlags(t.ping, t.big, oneColor) }

  function PlainFlags(ping: bool, big: bool, oneColor: bool): bv32 {
    if !ping then 0
    else HU | PING_HU
         | (if big then HU_BIG_PAIR | (if oneColor then HU_ONE_SUIT_BIG_PAIR else 0) else 0)
         | (if oneColor then HU_ALL_OF_ONE else 0)
  }

  function SevenPairFlags(long: bool, oneColor: bool): bv32 {
    HU | HU_SEVEN_PAIR
    | (if oneColor then HU_ALL_OF_ONE else 0)
    | (if long then LONG else 0)
    | (if long && oneColor then HU_ONE_SUIT_LONG_SEVEN_PAIR
       else if long then HU_LONG_SEVEN_PAIR
       else if oneColor then HU_ONE_SUIT_SEVEN_PAIR else 0)
  }

  /** One pair choice: a copy of the hand with the pair cleared is swept. */
  method TryPair(cs: array<Byte>, n: nat) returns (cleared: bool, run: bool)
    requires n + 1 < cs.Length && Sorted(cs[..])
    ensures Outcome(cleared, run) == Sweep(Rest(cs[..], n))
  {
    hide Sweep;
    var list := new Byte[cs.Length];
    forall k | 0 <= k < cs.Length { list[k] := cs[k]; }
    assert list[..] == cs[..];
    list[n] := 0;
    list[n + 1] := 0;
    assert list[..] == cs[..][n := 0][n + 1 := 0];
    cleared, run := ClearMelds(list);
  }

  /** The 3n + 2 part: every adjacent equal pair is tried in turn. */
  method PlainHu(cs: array<Byte>, oneColor: bool) returns (huType: bv32)
    requires Sorted(cs[..])
    ensures huType == TallyFlags(ScanAll(cs[..]), oneColor)
  {
    hide Sweep, Rest;
    huType := 0;
    var existShun := false;
    var n := 0;
    ghost var t := Tally(false, false, false);
    while n < cs.Length - 1
      invariant 0 <= n && (n <= cs.Length - 1 || n == 0)
      invariant t == Scan(cs[..], n) && (t.big ==> t.ping)
      invariant existShun == t.shun && huType == PlainFlags(t.ping, t.big, oneColor)
    {
      if cs[n] == cs[n + 1] {
        var cleared, run := TryPair(cs, n);
        existShun := existShun || run;
        if cleared {
          huType := huType | HU;
          huType := huType | PING_HU;
          if !existShun {
            huType := huType | HU_BIG_PAIR;
            if oneColor { huType := huType | HU_ONE_SUIT_BIG_PAIR; }
          }
          if oneColor { huType := huType | HU_ALL_OF_ONE; }
        }
        t := Tally(t.ping || cleared, t.big || (cleared && !existShun), existShun);
      }
      n := n + 1;
    }
  }

  /** Whether the sorted hand is made of pairs at even places. */
  method SevenPairs(cs: array<Byte>) returns (hasHu: bool)
    requires cs.Length == 14
    ensures hasHu == Paired(cs[..])
  {
    hasHu := true;
    var n := 0;
    while n < 13
      invariant 0 <= n <= 14 && n % 2 == 0
      invariant forall k :: 0 <= k < n && k % 2 == 0 ==> cs[k] == cs[k + 1]
    {
      if cs[n] != cs[n + 1] {
        return false;
      }
      n := n + 2;
    }
  }

  // --------------------------------------------- what the flags mean for the tiles

  /** The tiles beside the pair p; a zero byte counts as no tile. */
  ghost function Beside(m: multiset<int>, p: int): multiset<int> {
    (m - multiset{p, p})[0 := 0]
  }

  ghost predicate PairClears(m: multiset<int>, p: int) {
    m[p] >= 2 && Sweep(Beside(m, p)).cleared
  }

  ghost predicate PairRuns(m: multiset<int>, p: int) {
    m[p] >= 2 && Sweep(Beside(m, p)).run
  }

  ghost predicate Ping(m: multiset<int>) { exists p :: PairClears(m, p) }

  ghost predicate Big(m: multiset<int>) {
    exists p :: PairClears(m, p) && forall q :: q <= p ==> !PairRuns(m, q)
  }

  /** The flags of a hand as a function of its multiset of tiles alone. */
  ghost function HuOf(m: multiset<int>, oneColor: bool): bv32 {
    if |m| == 2 && AllEven(m) then HU | HU_BIG_PAIR | (if oneColor then HU_ALL_OF_ONE else 0)
    else if |m| == 14 && AllEven(m) then SevenPairFlags(FourOfAKind(m), oneColor)
    else PlainFlags(Ping(m), Big(m), oneColor)
  }

  lemma RestIsBeside(s: seq<Byte>, n: nat)
    requires n + 1 < |s| && s[n] == s[n + 1]
    ensures multiset(s)[s[n]] >= 2 && Rest(s, n) == Beside(multiset(s), s[n])
  {
    var t := s[n := 0][n + 1 := 0];
    PairBetween(s, n, s[n], s[n + 1]);
    PairBetween(t, n, 0, 0);
    SameAround(s, n, t);
    var around := multiset(s[..n]) + multiset(s[n + 2..]);
    assert multiset(s) == around + multiset{s[n], s[n]};
    assert multiset(t) == around + multiset{0, 0};
    PairForBlanks(around, s[n]);
  }

  /** A slice is what is before two places, the tiles there, and what is after. */
  lemma PairBetween(s: seq<Byte>, n: nat, x: Byte, y: Byte)
    requires n + 1 < |s| && s[n] == x && s[n + 1] == y
    ensures multiset(s) == multiset(s[..n]) + multiset(s[n + 2..]) + multiset{x, y}
  {
    assert s == s[..n] + [x, y] + s[n + 2..];
    assert multiset([x, y]) == multiset{x, y};
  }

  lemma SameAround(s: seq<Byte>, n: nat, t: seq<Byte>)
    requires n + 1 < |s| && t == s[n := 0][n + 1 := 0]
    ensures t[..n] == s[..n] && t[n + 2..] == s[n + 2..]
  {
  }

  lemma PairForBlanks(around: multiset<int>, p: int)
    ensures (around + multiset{0, 0})[0 := 0] == (around + multiset{p, p} - multiset{p, p})[0 := 0]
  {
    assert around + multiset{p, p} - multiset{p, p} == around;
  }

  lemma {:induction false} PairPlace(s: seq<Byte>, p: Byte) returns (n: nat)
    requires Sorted(s) && multiset(s)[p] >= 2
    ensures n + 1 < |s| && s[n] == s[n + 1] == p
    decreases |s|
  {
    assert s == [s[0]] + s[1..];
    if s[0] == p {
      n := 0;
      assert p in s[1..];
      var k :| 0 <= k < |s[1..]| && s[1..][k] == p;
      assert s[0] <= s[1] && (k == 0 || s[1] <= s[k + 1]);
    } else {
      var k := PairPlace(s[1..], p);
      n := k + 1;
    }
  }

  /** Place a starts a pair. */
  ghost predicate PairAt(s: seq<Byte>, a: int) { 0 <= a < |s| - 1 && s[a] == s[a + 1] }

  /** No pair choice up to place a makes the sweep see a run. */
  ghost predicate NoRunUpTo(s: seq<Byte>, a: int) {
    forall b :: PairAt(s, b) && b <= a ==> !Sweep(Rest(s, b)).run
  }

  lemma {:induction false} ScanMeaning(s: seq<Byte>, n: nat)
    requires n == 0 || n < |s|
    ensures Scan(s, n).ping <==> exists a :: PairAt(s, a) && a < n && Sweep(Rest(s, a)).cleared
    ensures Scan(s, n).shun <==> !NoRunUpTo(s, n - 1)
    ensures Scan(s, n).big <==> exists a :: PairAt(s, a) && a < n && Sweep(Rest(s, a)).cleared && NoRunUpTo(s, a)
  {
    hide Sweep, Rest;
    if n > 0 { ScanMeaning(s, n - 1); }
  }

  lemma ScanIsPing(s: seq<Byte>)
    requires Sorted(s) && |s| > 0
    ensures Scan(s, |s| - 1).ping <==> Ping(multiset(s))
  {
    hide Sweep, Rest, Beside, Scan;
    var m := multiset(s);
    ScanMeaning(s, |s| - 1);
    if Ping(m) {
      var p :| PairClears(m, p);
      assert p in s;
      var n := PairPlace(s, p);
      RestIsBeside(s, n);
      assert PairAt(s, n);
    }
    if Scan(s, |s| - 1).ping {
      var a :| PairAt(s, a) && Sweep(Rest(s, a)).cleared;
      RestIsBeside(s, a);
      assert PairClears(m, s[a]);
    }
  }

  lemma ScanIsBig(s: seq<Byte>)
    requires Sorted(s) && |s| > 0
    ensures Scan(s, |s| - 1).big <==> Big(multiset(s))
  {
    hide Sweep, Rest, Beside, Scan;
    var m := multiset(s);
    ScanMeaning(s, |s| - 1);
    if Big(m) {
      var p :| PairClears(m, p) && forall q :: q <= p ==> !PairRuns(m, q);
      assert p in s;
      var n := PairPlace(s, p);
      RestIsBeside(s, n);
      assert PairAt(s, n);
      forall b | PairAt(s, b) && b <= n ensures !Sweep(Rest(s, b)).run {
        RestIsBeside(s, b);
        assert s[b] <= p && !PairRuns(m, s[b]);
      }
    }
    if Scan(s, |s| - 1).big {
      var a :| PairAt(s, a) && Sweep(Rest(s, a)).cleared && NoRunUpTo(s, a);
      RestIsBeside(s, a);
      assert PairClears(m, s[a]);
      forall q | q <= s[a] ensures !PairRuns(m, q) {
        if m[q] >= 2 {
          EarlierPair(s, a, q);
        }
      }
    }
  }

  lemma EarlierPair(s: seq<Byte>, a: nat, q: int)
    requires Sorted(s) && PairAt(s, a) && q <= s[a] && multiset(s)[q] >= 2 && NoRunUpTo(s, a)
    ensures !Sweep(Beside(multiset(s), q)).run
  {
    hide Sweep, Rest, Beside;
    if q == s[a] {
      RestIsBeside(s, a);
    } else {
      assert q in s;
      var n := PairPlace(s, q);
      RestIsBeside(s, n);
      assert PairAt(s, n) && n <= a;
    }
  }

  /**
   * Win detection. The hand is sorted in place; the flags depend only on the
   * multiset of tiles.
   */
  method ExistHu(cs: array<Byte>, oneColor: bool) returns (huType: bv32)
    modifies cs
    ensures huType == HuOf(multiset(old(cs[..])), oneColor)
    ensures multiset(cs[..]) == multiset(old(cs[..]))
  {
    hide Sweep, Scan, Ping, Big;
    huType := 0;
    ghost var m := multiset(cs[..]);
    assert |m| == cs.Length;
    if cs.Length == 2 {
      TwoTiles(cs[..]);
      if cs[0] == cs[1] {
        huType := huType | HU;
        huType := huType | HU_BIG_PAIR;
        if oneColor { huType := huType | HU_ALL_OF_ONE; }
        return;
      }
    }
    assert cs[0..cs.Length] == cs[..];
    Sort(cs, 0, cs.Length - 1);
    assert cs[0..cs.Length] == cs[..] && multiset(cs[..]) == m;
    if cs.Length == 14 {
      PairedMeansEven(cs[..]);
      var hasHu := SevenPairs(cs);
      if hasHu {
        var long := ExistFour(cs[..]);
        huType := SevenPairHu(long, oneColor);
        return;
      }
    }
    if cs.Length > 0 {
      ScanIsPing(cs[..]);
      ScanIsBig(cs[..]);
    } else {
      NoTiles(m);
    }
    huType := PlainHu(cs, oneColor);
  }

  method SevenPairHu(long: bool, oneColor: bool) returns (huType: bv32)
    ensures huType == SevenPairFlags(long, oneColor)
  {
    huType := HU;
    huType := huType | HU_SEVEN_PAIR;
    if oneColor { huType := huType | HU_ALL_OF_ONE; }
    if long { huType := huType | LONG; }
    if long && oneColor {
      huType := huType | HU_ONE_SUIT_LONG_SEVEN_PAIR;
    } else if long {
      huType := huType | HU_LONG_SEVEN_PAIR;
    } else if oneColor {
      huType := huType | HU_ONE_SUIT_SEVEN_PAIR;
    }
  }

  lemma TwoTiles(s: seq<Byte>)
    requires |s| == 2
    ensures s[0] == s[1] <==> AllEven(multiset(s))
  {
    var a, b := s[0], s[1];
    assert s == [a] + [b];
    assert multiset(s) == multiset{a} + multiset{b};
    if a != b { assert multiset(s)[a] == 1; }
  }

  lemma NoTiles(m: multiset<int>)
    requires |m| == 0
    ensures !Ping(m) && Scan([], 0) == Tally(false, false, false)
  {
    assert forall p :: m[p] == 0;
  }

}
