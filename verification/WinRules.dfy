/** What the win flags promise about the game, and the fan value they are worth. */
module WinRules {
  import opened TileSweep
  import opened TileMelds
  import opened WinCheck

  /** A pair and melds make up the hand. */
  ghost predicate WinsWith(m: multiset<int>, p: int) {
    m[p] >= 2 && Splits(m - multiset{p, p})
  }

  ghost predicate Winning(m: multiset<int>) { exists p :: WinsWith(m, p) }

  lemma PlainHas(ping: bool, big: bool, oneColor: bool)
    ensures Has(PlainFlags(ping, big, oneColor), HU) == ping
    ensures Has(PlainFlags(ping, big, oneColor), PING_HU) == ping
    ensures Has(PlainFlags(ping, big, oneColor), HU_BIG_PAIR) == (ping && big)
    ensures !Has(PlainFlags(ping, big, oneColor), HU_SEVEN_PAIR)
    ensures !Has(PlainFlags(ping, big, oneColor), LONG)
  {
  }

  lemma SevenHas(long: bool, oneColor: bool)
    ensures Has(SevenPairFlags(long, oneColor), HU) && Has(SevenPairFlags(long, oneColor), HU_SEVEN_PAIR)
    ensures Has(SevenPairFlags(long, oneColor), LONG) == long
    ensures !Has(SevenPairFlags(long, oneColor), PING_HU) && !Has(SevenPairFlags(long, oneColor), HU_BIG_PAIR)
  {
  }

  lemma TwoHas(oneColor: bool)
    ensures var h := HU | HU_BIG_PAIR | (if oneColor then HU_ALL_OF_ONE else 0);
            Has(h, HU) && Has(h, HU_BIG_PAIR) && !Has(h, PING_HU) && !Has(h, HU_SEVEN_PAIR) && !Has(h, LONG)
  {
  }

  /** Beside the pair p the sweep clears everything. */
  ghost predicate ClearsBeside(m: multiset<int>, p: int) {
    m[p] >= 2 && Clearable(m - multiset{p, p})
  }

  lemma BesidePair(m: multiset<int>, p: int)
    requires Positive(m) && m[p] >= 2
    ensures Beside(m, p) == m - multiset{p, p} && |m - multiset{p, p}| == |m| - 2 && Positive(m - multiset{p, p})
  {
    var rest := m - multiset{p, p};
    assert m == rest + multiset{p, p};
    assert rest[0] == 0 by { assert 0 !in m; }
    assert forall x :: x in rest ==> x in m;
  }

  /** A pair choice clears the table exactly when the tiles beside it are clearable, for any number of tiles. */
  lemma PairExact(m: multiset<int>, p: int)
    requires Positive(m)
    ensures PairClears(m, p) <==> ClearsBeside(m, p)
  {
    hide Sweep, Clearable, Beside;
    if m[p] >= 2 {
      BesidePair(m, p);
      SweepClears(m - multiset{p, p});
    }
  }

  /**
   * The win flag in full, for every hand of any size: seven pairs, or some pair
   * beside which the tiles are clearable. Both directions.
   */
  lemma WinFlagExact(m: multiset<int>, oneColor: bool)
    requires Positive(m)
    ensures Has(HuOf(m, oneColor), HU) <==> (|m| == 14 && AllEven(m)) || exists p :: ClearsBeside(m, p)
  {
    hide Sweep, PairClears, ClearsBeside, AllEven;
    forall p ensures PairClears(m, p) <==> ClearsBeside(m, p) { PairExact(m, p); }
    PlainHas(Ping(m), Big(m), oneColor);
    SevenHas(FourOfAKind(m), oneColor);
    TwoHas(oneColor);
    if |m| == 2 && AllEven(m) { PairWins(m); }
  }

  lemma PairWins(m: multiset<int>)
    requires |m| == 2 && AllEven(m)
    ensures exists p :: ClearsBeside(m, p)
  {
    var p := TwoAreOnePair(m);
    SweepEmpty();
    assert Splits(multiset{});
    assert ClearsBeside(m, p);
  }

  lemma TwoAreOnePair(m: multiset<int>) returns (p: int)
    requires |m| == 2 && AllEven(m)
    ensures m[p] == 2 && m == multiset{p, p} && m - multiset{p, p} == multiset{}
  {
    assert m != multiset{};
    p := Min(m);
    assert m[p] % 2 == 0;
    assert |m[p := 0]| == |m| - m[p];
    assert m[p := 0] == multiset{};
    assert m == multiset{p, p} by { assert forall x :: x != p ==> m[x] == m[p := 0][x]; }
  }

  /** For 3n + 2 tiles a pair clears exactly when it wins and the tiles beside it are safe. */
  lemma RightSizePair(m: multiset<int>, p: int)
    requires Positive(m) && |m| % 3 == 2
    ensures ClearsBeside(m, p) <==> WinsWith(m, p) && Safe(m - multiset{p, p})
  {
    hide Splits, Safe, Clearable;
    if m[p] >= 2 {
      BesidePair(m, p);
      ClearableExact(m - multiset{p, p});
    }
  }

  /** For 3n + 2 tiles the win flag is seven pairs, or a winning pair beside which the tiles are safe. */
  lemma RightSizeExact(m: multiset<int>, oneColor: bool)
    requires Positive(m) && |m| % 3 == 2
    ensures Has(HuOf(m, oneColor), HU) <==>
      (|m| == 14 && AllEven(m)) || exists p :: WinsWith(m, p) && Safe(m - multiset{p, p})
  {
    hide HuOf, ClearsBeside, WinsWith, Safe, AllEven;
    WinFlagExact(m, oneColor);
    forall p ensures ClearsBeside(m, p) <==> WinsWith(m, p) && Safe(m - multiset{p, p}) { RightSizePair(m, p); }
  }

  /**
   * No hand of another size wins, yet the win flag is set on some of them: exactly where beside
   * a pair there are four or more 1s and a 2, the phantom runs are no multiple of three, and
   * what they leave splits.
   */
  lemma WrongSizeExact(m: multiset<int>, oneColor: bool)
    requires Positive(m) && |m| % 3 != 2
    ensures !Winning(m)
    ensures Has(HuOf(m, oneColor), HU) <==> exists p :: m[p] >= 2 && OddPhantoms(m - multiset{p, p})
  {
    hide HuOf, AllEven, Splits, Clearable, OddPhantoms;
    WinFlagExact(m, oneColor);
    forall p | m[p] >= 2 ensures !WinsWith(m, p) && (ClearsBeside(m, p) <==> OddPhantoms(m - multiset{p, p})) {
      BesidePair(m, p);
      PhantomExact(m - multiset{p, p});
    }
  }

  /** Soundness: a plain win is a pair with runs and triplets, whatever the copies of any tile. */
  lemma PlainWinIsReal(m: multiset<int>, oneColor: bool)
    requires Positive(m) && |m| % 3 == 2 && Has(HuOf(m, oneColor), PING_HU)
    ensures Winning(m)
  {
    hide Sweep, PairClears, Splits, Safe, AllEven;
    PlainHas(Ping(m), Big(m), oneColor);
    SevenHas(FourOfAKind(m), oneColor);
    TwoHas(oneColor);
    var p :| PairClears(m, p);
    PairExact(m, p);
    RightSizePair(m, p);
    assert WinsWith(m, p);
  }

  /** Completeness: with at most three 1s no winning hand is missed. */
  lemma NoWinMissed(m: multiset<int>, oneColor: bool)
    requires Positive(m) && |m| % 3 == 2 && m[1] <= 3
    ensures Has(HuOf(m, oneColor), HU) <==> (|m| == 14 && AllEven(m)) || Winning(m)
  {
    hide Sweep, Splits, AllEven, HuOf;
    RightSizeExact(m, oneColor);
    forall p | WinsWith(m, p) ensures Safe(m - multiset{p, p}) { }
  }

  /** With all four 1s in the hand it is called a win exactly when the pair can be made of 1s. */
  lemma FourOnes(m: multiset<int>, oneColor: bool)
    requires Positive(m) && |m| % 3 == 2 && m[1] == 4
    ensures Has(HuOf(m, oneColor), HU) <==> (|m| == 14 && AllEven(m)) || WinsWith(m, 1)
  {
    hide Sweep, Splits, AllEven, HuOf;
    RightSizeExact(m, oneColor);
    forall p | WinsWith(m, p) ensures Safe(m - multiset{p, p}) <==> p == 1 { }
  }

  /** A winning hand that is missed: 1,1,1 and 1,2,3 beside the pair 5,5. */
  lemma MissedWin(oneColor: bool)
    ensures var m := multiset{1, 1, 1, 1, 2, 3, 5, 5};
            Winning(m) && !Has(HuOf(m, oneColor), HU)
  {
    hide Sweep, HuOf, Splits;
    var m := multiset{1, 1, 1, 1, 2, 3, 5, 5};
    assert |m| == 8 && m[1] == 4 && m[2] == 1 && m[5] == 2;
    TripletAndRun();
    assert m - multiset{5, 5} == multiset{1, 1, 1, 1, 2, 3};
    assert WinsWith(m, 5);
    FourOnes(m, oneColor);
    if WinsWith(m, 1) { LoneOne(m - multiset{1, 1}); }
  }

  lemma TripletAndRun()
    ensures Splits(multiset{1, 1, 1, 1, 2, 3})
  {
    SweepEmpty();
    AddMeld(multiset{}, Triplet(1));
    AddMeld(multiset{} + MeldTiles(Triplet(1)), Run(1));
    assert multiset{} + MeldTiles(Triplet(1)) + MeldTiles(Run(1)) == multiset{1, 1, 1, 1, 2, 3};
  }

  /** Two 1s and a single 2 never split. */
  lemma LoneOne(m: multiset<int>)
    requires Positive(m) && m[1] == 2 && m[2] == 1
    ensures !Splits(m)
  {
    hide Splits;
    assert Min(m) == 1;
    if Splits(m) {
      RunForced(m);
      var rest := TakeRun(m, 1);
      assert rest[1] == 1 && rest[2] == 0 && Positive(rest);
      assert Min(rest) == 1;
      RunForced(rest);
    }
  }

  /** A hand of the wrong size that is called a win: the phantom run 0,1,2 takes the last 1 and the 2. */
  lemma PhantomWin(oneColor: bool)
    ensures var m := multiset{1, 1, 1, 1, 2, 5, 5};
            Has(HuOf(m, oneColor), HU) && !Winning(m)
  {
    hide HuOf, Winning, OddPhantoms;
    var m := multiset{1, 1, 1, 1, 2, 5, 5};
    assert |m| == 7 && m[5] == 2;
    assert m - multiset{5, 5} == multiset{1, 1, 1, 1, 2};
    OnePhantom();
    WrongSizeExact(m, oneColor);
  }

  lemma OnePhantom()
    ensures OddPhantoms(multiset{1, 1, 1, 1, 2})
  {
    var m := multiset{1, 1, 1, 1, 2};
    assert m[1] == 4 && m[2] == 1;
    assert TakeTriplet(m, 1) == multiset{};
    SweepEmpty();
  }

  // --------------------------------------------------------------- big pair

  lemma TwoIsBig(m: multiset<int>)
    requires |m| == 2 && AllEven(m)
    ensures exists p :: BigAt(m, p)
  {
    var p := TwoAreOnePair(m);
    assert Tiles([]) == multiset{};
    assert SplitsInTriplets(m - multiset{p, p});
    assert forall v :: v in m ==> v == p;
    assert BigAt(m, p);
  }

  /**
   * What hides a big pair: a pair choice v up to p whose sweep sees a run. That is a phantom run,
   * or below p a triplet that starts a run, or a run above the pair.
   */
  predicate Hidden(m: multiset<int>, p: int, v: int) {
    v <= p && m[v] >= 2 && (
      || !NoPhantoms(m - multiset{v, v})
      || (v < p && ((v + 1 in m && v + 2 in m) || (p + 1 in m && p + 2 in m))))
  }

  /** A pair with triplets, and nothing hides it. */
  ghost predicate BigAt(m: multiset<int>, p: int) {
    m[p] >= 2 && SplitsInTriplets(m - multiset{p, p}) && forall v :: !Hidden(m, p, v)
  }

  /** Beside p all tiles come in threes, so p is the only tile with two to spare. */
  lemma PairAmongThrees(m: multiset<int>, p: int)
    requires m[p] >= 2 && SplitsInTriplets(m - multiset{p, p})
    ensures Spare(m, p) == 2 && ThreesBut(m, p) && Threes(m - multiset{p, p})
  {
    hide SplitsInTriplets;
    var rest := m - multiset{p, p};
    forall x ensures Spare(rest, x) == 0 { TripletsInThrees(rest, x); }
    TwoOff(m, p);
    assert rest[p] == m[p] - 2;
  }

  /** Two copies taken away: the spares of that tile change from 2 to 0 or from 0 to 1. */
  lemma TwoOff(m: multiset<int>, v: int)
    requires m[v] >= 2
    ensures var rest := m - multiset{v, v};
      && (forall x :: x != v ==> rest[x] == m[x] && Spare(rest, x) == Spare(m, x))
      && (Spare(m, v) == 2 ==> Spare(rest, v) == 0) && (Spare(m, v) == 0 ==> Spare(rest, v) == 1)
  {
    hide Spare;
    var rest := m - multiset{v, v};
    assert rest[v] == m[v] - 2;
    SpareTwoLess(m, rest, v);
    forall x | x != v ensures rest[x] == m[x] && Spare(rest, x) == Spare(m, x) { SpareSame(m, rest, x); }
  }

  lemma SpareTwoLess(m: multiset<int>, rest: multiset<int>, v: int)
    requires m[v] >= 2 && rest[v] == m[v] - 2
    ensures (Spare(m, v) == 2 ==> Spare(rest, v) == 0) && (Spare(m, v) == 0 ==> Spare(rest, v) == 1)
  {
  }

  lemma SpareSame(m: multiset<int>, rest: multiset<int>, x: int)
    requires rest[x] == m[x]
    ensures Spare(rest, x) == Spare(m, x)
  {
  }

  lemma HiddenRuns(m: multiset<int>, p: int, v: int)
    requires Positive(m) && Spare(m, p) == 2 && ThreesBut(m, p) && v <= p
    ensures PairRuns(m, v) <==> Hidden(m, p, v)
  {
    hide Sweep, Beside, NoPhantoms, Spare;
    if m[v] >= 2 {
      var rest := m - multiset{v, v};
      BesidePair(m, v);
      TwoOff(m, v);
      if !NoPhantoms(rest) {
        PhantomsRun(rest);
      } else if v == p {
        ThreesSweep(rest);
      } else {
        TwoSparesSweep(rest, v, p);
      }
    }
  }

  /** A pair that clears without a run seen so far is a pair with triplets that nothing hides, and the converse. */
  lemma BigChoice(m: multiset<int>, p: int)
    requires Positive(m)
    ensures BigAt(m, p) <==> PairClears(m, p) && forall q :: q <= p ==> !PairRuns(m, q)
  {
    hide Sweep, Beside, SplitsInTriplets, Hidden;
    if m[p] >= 2 {
      var rest := m - multiset{p, p};
      BesidePair(m, p);
      if SplitsInTriplets(rest) {
        PairAmongThrees(m, p);
        forall q | q <= p ensures PairRuns(m, q) <==> Hidden(m, p, q) { HiddenRuns(m, p, q); }
        HiddenAbove(m, p);
        if !PairRuns(m, p) { ThreesClear(m, p); }
      } else if PairClears(m, p) && !PairRuns(m, p) {
        NoRunMeansTriplets(rest);
        assert false;
      }
    }
  }

  lemma HiddenAbove(m: multiset<int>, p: int)
    ensures forall v :: v > p ==> !Hidden(m, p, v)
  {
  }

  lemma ThreesClear(m: multiset<int>, p: int)
    requires Positive(m) && m[p] >= 2 && Threes(m - multiset{p, p}) && !PairRuns(m, p)
    ensures PairClears(m, p)
  {
    hide Sweep, Beside;
    var rest := m - multiset{p, p};
    BesidePair(m, p);
    if NoPhantoms(rest) { ThreesSweep(rest); } else { PhantomsRun(rest); }
  }

  /**
   * Exactly when a hand gets the big-pair flag, for every hand of any size: it is a pair with
   * triplets, no pair choice up to the pair makes the sweep see a run, and it is not seven pairs.
   */
  lemma BigPairExact(m: multiset<int>, oneColor: bool)
    requires Positive(m)
    ensures Has(HuOf(m, oneColor), HU_BIG_PAIR) <==> !(|m| == 14 && AllEven(m)) && exists p :: BigAt(m, p)
  {
    hide BigAt, PairClears, PairRuns, AllEven;
    PlainHas(Ping(m), Big(m), oneColor);
    SevenHas(FourOfAKind(m), oneColor);
    TwoHas(oneColor);
    forall p ensures BigAt(m, p) <==> PairClears(m, p) && forall q :: q <= p ==> !PairRuns(m, q) { BigChoice(m, p); }
    if |m| == 2 && AllEven(m) { TwoIsBig(m); }
  }

  /** The big-pair flag is sound: the hand is a pair with triplets only. */
  lemma BigPairIsReal(m: multiset<int>, oneColor: bool)
    requires Positive(m) && Has(HuOf(m, oneColor), HU_BIG_PAIR)
    ensures exists p :: m[p] >= 2 && SplitsInTriplets(m - multiset{p, p})
  {
    hide HuOf, AllEven;
    BigPairExact(m, oneColor);
    var p :| BigAt(m, p);
    assert m[p] >= 2 && SplitsInTriplets(m - multiset{p, p});
  }

  // ---------------------------------------------------------- seven pairs, fan value

  /** The seven-pair and long flags, exactly. */
  lemma SevenPairExact(m: multiset<int>, oneColor: bool)
    ensures Has(HuOf(m, oneColor), HU_SEVEN_PAIR) <==> |m| == 14 && AllEven(m)
    ensures Has(HuOf(m, oneColor), LONG) <==> |m| == 14 && AllEven(m) && FourOfAKind(m)
  {
    hide AllEven, FourOfAKind, Ping, Big;
    PlainHas(Ping(m), Big(m), oneColor);
    SevenHas(FourOfAKind(m), oneColor);
    TwoHas(oneColor);
  }

  /** The fan value of a set of flags: the first that applies. */
  function Type2Fan(huType: bv32): int {
    if Has(huType, HU_ONE_SUIT_LONG_SEVEN_PAIR) then 30
    else if Has(huType, HU_LONG_SEVEN_PAIR) then 20
    else if Has(huType, HU_ONE_SUIT_SEVEN_PAIR) then 20
    else if Has(huType, HU_ONE_SUIT_BIG_PAIR) then 15
    else if Has(huType, HU_ALL_OF_ONE) then 10
    else if Has(huType, HU_SEVEN_PAIR) then 10
    else if Has(huType, HU_BIG_PAIR) then 5
    else 1
  }

  /** Fan values over the tiles: every hand, every colour. */
  lemma FanOfHand(m: multiset<int>, oneColor: bool)
    ensures var fan := Type2Fan(HuOf(m, oneColor));
      if |m| == 14 && AllEven(m) then
        fan == 10 + (if FourOfAKind(m) then 10 else 0) + (if oneColor then 10 else 0)
      else if |m| == 2 && AllEven(m) then fan == if oneColor then 10 else 5
      else if !Ping(m) then fan == 1
      else if Big(m) then fan == if oneColor then 15 else 5
      else fan == if oneColor then 10 else 1
  {
    hide AllEven, FourOfAKind, Ping, Big;
    PlainFan(Ping(m), Big(m), oneColor);
    SevenFan(FourOfAKind(m), oneColor);
    TwoFan(oneColor);
  }

  lemma PlainFan(ping: bool, big: bool, oneColor: bool)
    ensures Type2Fan(PlainFlags(ping, big, oneColor)) ==
      if !ping then 1 else if big then (if oneColor then 15 else 5) else if oneColor then 10 else 1
  {
  }

  lemma SevenFan(long: bool, oneColor: bool)
    ensures Type2Fan(SevenPairFlags(long, oneColor)) == 10 + (if long then 10 else 0) + (if oneColor then 10 else 0)
  {
  }

  lemma TwoFan(oneColor: bool)
    ensures Type2Fan(HU | HU_BIG_PAIR | (if oneColor then HU_ALL_OF_ONE else 0)) == if oneColor then 10 else 5
  {
  }
}
