/**
 * When the firing loop ends without a limit. Deadlines are added up in 64 bits, so a periodic
 * alarm can jump back again and again; the loop ends exactly if each of them gets past `now`.
 */
module TimerEnds {
  import opened TimerOwed

  /** The alarm after k more firings. */
  function Nth(a: Alarm, k: nat): Alarm
    decreases k
  {
    if k == 0 then a else Nth(Next(a), k - 1)
  }

  /** After some number of firings the alarm is due later than `now`. */
  ghost predicate Comes(a: Alarm, now: int) { a.interval <= 0 || exists k: nat :: Nth(a, k).end > now }

  ghost predicate AllCome(m: multiset<Alarm>, now: int) { forall a :: a in m ==> Comes(a, now) }

  /** The k-th firing is the first after which the alarm is due later. */
  ghost predicate FirstLater(a: Alarm, now: int, k: nat) {
    Nth(a, k).end > now && forall j: nat :: j < k ==> Nth(a, j).end <= now
  }

  lemma {:induction false} FirstLaterExists(a: Alarm, now: int, k: nat)
    requires Nth(a, k).end > now
    ensures exists n: nat :: FirstLater(a, now, n)
    decreases k
  {
    if exists j: nat :: j < k && Nth(a, j).end > now {
      var j: nat :| j < k && Nth(a, j).end > now;
      FirstLaterExists(a, now, j);
    } else {
      assert FirstLater(a, now, k);
    }
  }

  /** How often the alarm fires before it is due later, or is gone. */
  ghost function Turns(a: Alarm, now: int): (n: nat)
    requires Comes(a, now)
    ensures a.interval > 0 ==> FirstLater(a, now, n)
  {
    if a.interval <= 0 then
      if a.end <= now then 1 else 0
    else
      var k: nat :| Nth(a, k).end > now;
      FirstLaterExists(a, now, k);
      var n: nat :| FirstLater(a, now, n);
      n
  }

  lemma TurnsAre(a: Alarm, now: int, n: nat)
    requires a.interval > 0 && FirstLater(a, now, n)
    ensures Comes(a, now) && Turns(a, now) == n
  {
    assert Nth(a, n).end > now;
    var k := Turns(a, now);
    assert FirstLater(a, now, k);
  }

  lemma LaterTurns(a: Alarm, now: int)
    requires a.end > now
    ensures Comes(a, now) && Turns(a, now) == 0
  {
    if a.interval > 0 {
      assert Nth(a, 0) == a;
      TurnsAre(a, now, 0);
    }
  }

  /** One firing of a due periodic alarm. */
  lemma TurnTaken(a: Alarm, now: int)
    requires a.interval > 0 && a.end <= now
    ensures Comes(a, now) <==> Comes(Next(a), now)
    ensures Comes(a, now) ==> Turns(a, now) == Turns(Next(a), now) + 1
  {
    if Comes(Next(a), now) {
      var n := Turns(Next(a), now);
      assert Nth(a, n + 1) == Nth(Next(a), n);
      assert FirstLater(a, now, n + 1) by {
        forall j: nat | j < n + 1 ensures Nth(a, j).end <= now {
          if j > 0 { assert Nth(a, j) == Nth(Next(a), j - 1); }
        }
      }
      TurnsAre(a, now, n + 1);
    }
    if Comes(a, now) {
      var k := Turns(a, now);
      assert Nth(a, 0) == a;
      assert Nth(a, k) == Nth(Next(a), k - 1);
    }
  }

  // ------------------------------------------------------------------ all pending alarms

  /** How many calls are made until nothing is due. */
  ghost function Total(m: multiset<Alarm>, now: int): nat
    requires AllCome(m, now)
    decreases |m|
  {
    if m == multiset{} then 0 else Total(m - multiset{Pick(m)}, now) + Turns(Pick(m), now)
  }

  lemma TotalPick(m: multiset<Alarm>, now: int)
    requires m != multiset{} && AllCome(m, now)
    ensures AllCome(m - multiset{Pick(m)}, now) && Comes(Pick(m), now)
    ensures Total(m, now) == Total(m - multiset{Pick(m)}, now) + Turns(Pick(m), now)
  {
  }

  lemma {:induction false} TotalOne(m: multiset<Alarm>, a: Alarm, now: int)
    requires a in m && AllCome(m, now)
    ensures AllCome(m - multiset{a}, now) && Comes(a, now)
    ensures Total(m, now) == Total(m - multiset{a}, now) + Turns(a, now)
    decreases |m|
  {
    hide Total, Comes, Turns;
    TotalPick(m, now);
    var b := Pick(m);
    if a != b {
      var rest := m - multiset{b} - multiset{a};
      TotalOne(m - multiset{b}, a, now);
      TotalOne(m - multiset{a}, b, now);
      assert rest == m - multiset{a} - multiset{b};
    }
  }

  lemma TotalMore(m: multiset<Alarm>, a: Alarm, now: int)
    requires AllCome(m, now) && Comes(a, now)
    ensures AllCome(m + multiset{a}, now) && Total(m + multiset{a}, now) == Total(m, now) + Turns(a, now)
  {
    hide Total, Comes, Turns;
    TotalOne(m + multiset{a}, a, now);
    assert m + multiset{a} - multiset{a} == m;
  }

  /** Firing the first alarm uses up one call. */
  lemma AfterComes(m: multiset<Alarm>, a: Alarm, now: int)
    requires AllCome(m, now) && FiresFirst(m, a, now)
    ensures AllCome(After(m, a), now) && Total(m, now) == Total(After(m, a), now) + 1
  {
    hide Total, After;
    AfterCases(m, a);
    TotalOne(m, a, now);
    if a.interval > 0 {
      TurnTaken(a, now);
      TotalMore(m - multiset{a}, Next(a), now);
    }
  }

  /** And back: what comes after the firing came before it. */
  lemma BeforeComes(m: multiset<Alarm>, a: Alarm, now: int)
    requires AllCome(After(m, a), now) && FiresFirst(m, a, now)
    ensures AllCome(m, now)
  {
    hide Comes;
    AfterCases(m, a);
    OneShotComes(a, now);
    if a.interval > 0 {
      TurnTaken(a, now);
      assert Next(a) in After(m, a);
    }
    forall b | b in m ensures Comes(b, now) {
      if b != a { assert b in After(m, a); }
    }
  }

  lemma OneShotComes(a: Alarm, now: int)
    ensures a.interval <= 0 ==> Comes(a, now)
  {
  }

  /** Every firing uses up one call, in whatever order alarms due at the same time are taken. */
  lemma {:induction false} ChainSpends(start: multiset<Alarm>, fired: seq<Alarm>, left: multiset<Alarm>, now: int)
    requires Chain(start, fired, left, now) && AllCome(start, now)
    ensures AllCome(left, now) && Total(start, now) == Total(left, now) + |fired|
    decreases |fired|
  {
    hide Total, After, AllCome, FiresFirst;
    if fired != [] {
      AfterComes(start, fired[0], now);
      ChainSpends(After(start, fired[0]), fired[1..], left, now);
    }
  }

  ghost predicate NothingDue(m: multiset<Alarm>, now: int) { forall a :: a in m ==> a.end > now }

  lemma {:induction false} NothingDueTotal(m: multiset<Alarm>, now: int)
    requires NothingDue(m, now)
    ensures AllCome(m, now) && Total(m, now) == 0
    decreases |m|
  {
    hide Comes, Turns;
    forall a | a in m ensures Comes(a, now) { LaterTurns(a, now); }
    if m != multiset{} {
      LaterTurns(Pick(m), now);
      NothingDueTotal(m - multiset{Pick(m)}, now);
    }
  }

  lemma {:induction false} FirstDue(m: multiset<Alarm>, now: int) returns (a: Alarm)
    requires !NothingDue(m, now)
    ensures FiresFirst(m, a, now)
    decreases |m|
  {
    var b :| b in m && b.end <= now;
    var rest := m - multiset{b};
    a := b;
    if !NothingDue(rest, now) {
      var c := FirstDue(rest, now);
      if c.end < b.end { a := c; }
    }
    forall x | x in m ensures a.end <= x.end { if x != b { assert x in rest; } }
  }

  /** A run to the end exists wherever every alarm comes, and is as long as the calls add up to. */
  lemma {:induction false} RunToEnd(start: multiset<Alarm>, now: int) returns (fired: seq<Alarm>, left: multiset<Alarm>)
    requires AllCome(start, now)
    ensures Chain(start, fired, left, now) && NothingDue(left, now)
    decreases Total(start, now)
  {
    hide Total, AllCome, After;
    if NothingDue(start, now) {
      fired, left := [], start;
    } else {
      var a := FirstDue(start, now);
      AfterComes(start, a, now);
      var more;
      more, left := RunToEnd(After(start, a), now);
      fired := [a] + more;
      assert fired[1..] == more;
    }
  }

  lemma {:induction false} EndMeansCome(start: multiset<Alarm>, fired: seq<Alarm>, left: multiset<Alarm>, now: int)
    requires Chain(start, fired, left, now) && NothingDue(left, now)
    ensures AllCome(start, now)
    decreases |fired|
  {
    hide AllCome, After, NothingDue, FiresFirst;
    if fired == [] {
      NothingDueTotal(left, now);
    } else {
      EndMeansCome(After(start, fired[0]), fired[1..], left, now);
      BeforeComes(start, fired[0], now);
    }
  }

  // ------------------------------------------------------ the condition on end and interval

  /** The largest power of two that divides a number. */
  function Twos(i: int): (g: int)
    requires i > 0
    ensures 0 < g <= i
  {
    if i % 2 == 1 then 1 else 2 * Twos(i / 2)
  }

  /**
   * What a caller can check: the deadlines an alarm goes through are those that differ from
   * its own by a multiple of Twos(interval), and the latest of these must be after `now`.
   */
  predicate Ends(a: Alarm, now: int) {
    a.interval <= 0 || MAX_INT64 - (MAX_INT64 - a.end) % Twos(a.interval) > now
  }

  ghost predicate AllEnd(m: multiset<Alarm>, now: int) { forall a :: a in m ==> Ends(a, now) }

  function Pow2(n: nat): nat { if n == 0 then 1 else 2 * Pow2(n - 1) }

  lemma {:induction false} OddPart(i: int) returns (o: int)
    requires i > 0
    ensures i == Twos(i) * o && o > 0 && o % 2 == 1
  {
    if i % 2 == 1 {
      o := i;
    } else {
      o := OddPart(i / 2);
      Doubled(Twos(i / 2), o, i / 2);
    }
  }

  lemma Doubled(g: int, o: int, h: int)
    requires g * o == h
    ensures (2 * g) * o == 2 * h
  {
  }

  lemma {:induction false} TwosDivides(i: int, n: nat) returns (h: int)
    requires 0 < i < Pow2(n)
    ensures Pow2(n) == Twos(i) * h
  {
    if i % 2 == 1 {
      h := Pow2(n);
    } else {
      h := TwosDivides(i / 2, n - 1);
      Doubled(Twos(i / 2), h, Pow2(n - 1));
    }
  }

  lemma WordSize()
    ensures Pow2(64) == TWO_TO_64
  {
    assert Pow2(8) == 0x100;
    assert Pow2(16) == 0x1_0000;
    assert Pow2(24) == 0x100_0000;
    assert Pow2(32) == 0x1_0000_0000;
    assert Pow2(40) == 0x100_0000_0000;
    assert Pow2(48) == 0x1_0000_0000_0000;
    assert Pow2(56) == 0x100_0000_0000_0000;
  }

  /** An odd number has an inverse modulo every power of two. */
  lemma {:induction false} OddInverse(o: int, n: nat) returns (v: nat, t: int)
    requires o > 0 && o % 2 == 1
    ensures o * v == 1 + Pow2(n) * t
  {
    if n == 0 {
      v, t := 1, o - 1;
    } else {
      var w, s := OddInverse(o, n - 1);
      var p := Pow2(n - 1);
      if s % 2 == 0 {
        v, t := w, s / 2;
        Halved(p, s);
      } else {
        v, t := w + p, (s + o) / 2;
        Spread(o, w, p);
        Gathered(p, s, o);
        Halved(p, s + o);
      }
    }
  }

  lemma Halved(p: int, s: int)
    requires s % 2 == 0
    ensures p * s == (2 * p) * (s / 2)
  {
    var h := s / 2;
    assert s == 2 * h;
  }

  lemma Spread(o: int, w: int, p: int)
    ensures o * (w + p) == o * w + p * o
  {
  }

  lemma Gathered(p: int, s: int, o: int)
    ensures p * s + p * o == p * (s + o)
  {
  }

  /** Deadlines are sums modulo 2^64. */
  lemma {:induction false} NthSum(a: Alarm, k: nat) returns (w: int)
    requires Words(a) && a.interval > 0
    ensures Words(Nth(a, k)) && Nth(a, k).end == a.end + k * a.interval - TWO_TO_64 * w
    decreases k
  {
    if k == 0 {
      w := 0;
    } else {
      var u := NthSum(Next(a), k - 1);
      w := if a.end + a.interval > MAX_INT64 then u + 1 else u;
      Times(k, a.interval);
    }
  }

  lemma Times(k: int, i: int)
    ensures k * i == (k - 1) * i + i
  {
  }

  /** A multiple of g more or less does not change the remainder. */
  lemma SameRemainder(x: int, y: int, g: int, q: int)
    requires g > 0 && x == y + g * q
    ensures x % g == y % g
  {
    var d := y / g;
    assert y == g * d + y % g;
    Gathered(g, d, q);
    QuotientIs(x, d + q, y % g, g);
  }

  lemma QuotientIs(x: int, q: int, r: int, g: int)
    requires g > 0 && 0 <= r < g && x == g * q + r
    ensures x % g == r && x / g == q
  {
    var k := x / g;
    assert x == g * k + x % g;
    Apart(g, k, q);
  }

  lemma Apart(g: int, k: int, q: int)
    requires g > 0
    ensures k < q ==> g * k + g <= g * q
    ensures q < k ==> g * q + g <= g * k
  {
    if k < q { Gathered(g, k, q - k); AtLeast(g, q - k); }
    if q < k { Gathered(g, q, k - q); AtLeast(g, k - q); }
  }

  lemma AtLeast(g: int, n: int)
    requires g > 0 && n >= 1
    ensures g * n >= g
  {
    Gathered(g, 1, n - 1);
    if n > 1 { assert g * (n - 1) >= 0; }
  }

  lemma ComesEnds(a: Alarm, now: Int64)
    requires Words(a) && a.interval > 0 && Comes(a, now)
    ensures Ends(a, now)
  {
    hide Twos, Pow2, Nth, Words;
    var k: nat :| Nth(a, k).end > now;
    var w := NthSum(a, k);
    var g := Twos(a.interval);
    var o := OddPart(a.interval);
    WordSize();
    InRange(a);
    InRange(Nth(a, k));
    var h := TwosDivides(a.interval, 64);
    StaysApart(a.end, Nth(a, k).end, k, g, o, h, w);
    var x, y := MAX_INT64 - Nth(a, k).end, MAX_INT64 - a.end;
    SameRemainder(x, y, g, h * w - k * o);
    assert x == g * (x / g) + x % g;
    NotBelow(g, x / g, x);
  }

  lemma InRange(a: Alarm)
    requires Words(a)
    ensures -0x8000_0000_0000_0000 <= a.end <= MAX_INT64 && a.interval <= MAX_INT64
  {
  }

  lemma NotBelow(g: int, q: int, x: int)
    requires g > 0 && x >= 0 && q == x / g
    ensures g * q >= 0 && q >= 0
  {
  }

  lemma StaysApart(e: int, x: int, k: int, g: int, o: int, h: int, w: int)
    requires x == e + k * (g * o) - (g * h) * w
    ensures e - x == g * (h * w - k * o)
  {
    assert k * (g * o) == g * (k * o);
    assert (g * h) * w == g * (h * w);
    assert g * (h * w - k * o) == g * (h * w) - g * (k * o);
  }

  lemma EndsComes(a: Alarm, now: Int64)
    requires Words(a) && a.interval > 0 && Ends(a, now)
    ensures Comes(a, now)
  {
    hide Twos, Pow2, Nth, Words;
    var g := Twos(a.interval);
    var o := OddPart(a.interval);
    WordSize();
    InRange(a);
    var y := MAX_INT64 - a.end;
    var d, last := y / g, MAX_INT64 - y % g;
    assert y == g * d + y % g;
    NotBelow(g, d, y);
    var v, t := OddInverse(o, 64);
    var k := d * v;
    assert k >= 0 by { Product(d, v); }
    Lands(a.interval, g, o, v, t, d);
    var w := NthSum(a, k);
    InRange(Nth(a, k));
    OneWord(Nth(a, k).end, last, t * (g * d) - w);
    assert Nth(a, k).end == last;
  }

  lemma Product(d: int, v: int)
    requires d >= 0 && v >= 0
    ensures d * v >= 0
  {
  }

  lemma Lands(i: int, g: int, o: int, v: int, t: int, d: int)
    requires i == g * o && o * v == 1 + TWO_TO_64 * t
    ensures (d * v) * i == g * d + TWO_TO_64 * (t * (g * d))
  {
    assert (d * v) * (g * o) == (g * d) * (o * v);
    assert (g * d) * (1 + TWO_TO_64 * t) == g * d + (g * d) * (TWO_TO_64 * t);
    assert (g * d) * (TWO_TO_64 * t) == TWO_TO_64 * (t * (g * d));
  }

  lemma OneWord(x: int, y: int, n: int)
    requires -0x8000_0000_0000_0000 <= x <= MAX_INT64 && -0x8000_0000_0000_0000 <= y <= MAX_INT64
    requires x == y + TWO_TO_64 * n
    ensures x == y
  {
  }

  /** Both forms of the condition are the same. */
  lemma EndsExactly(a: Alarm, now: Int64)
    requires Words(a)
    ensures Comes(a, now) <==> Ends(a, now)
  {
    hide Comes, Words;
    OneShotComes(a, now);
    if a.interval > 0 {
      if Comes(a, now) { ComesEnds(a, now); }
      if Ends(a, now) { EndsComes(a, now); }
    }
  }

  lemma AllEndExactly(m: multiset<Alarm>, now: Int64)
    requires AllWords(m)
    ensures AllCome(m, now) <==> AllEnd(m, now)
  {
    hide Comes, Ends, Words;
    forall a | a in m ensures Comes(a, now) <==> Ends(a, now) { EndsExactly(a, now); }
  }

  /** Without a limit the firing loop can come to an end exactly if every alarm ends. */
  lemma LoopEndsExactly(start: multiset<Alarm>, now: Int64)
    requires AllWords(start)
    ensures (exists fired, left :: Chain(start, fired, left, now) && NothingDue(left, now)) <==> AllEnd(start, now)
  {
    hide AllCome, AllEnd, Chain, NothingDue;
    AllEndExactly(start, now);
    if AllEnd(start, now) { var fired, left := RunToEnd(start, now); }
    if exists fired, left :: Chain(start, fired, left, now) && NothingDue(left, now) {
      var fired, left :| Chain(start, fired, left, now) && NothingDue(left, now);
      EndMeansCome(start, fired, left, now);
    }
  }

  /** And if one does not, the loop can always go on. */
  lemma GoesOn(start: multiset<Alarm>, fired: seq<Alarm>, left: multiset<Alarm>, now: Int64) returns (a: Alarm)
    requires AllWords(start) && !AllEnd(start, now) && Chain(start, fired, left, now)
    ensures Chain(start, fired + [a], After(left, a), now)
  {
    hide AllCome, AllEnd, Chain, NothingDue, After;
    AllEndExactly(start, now);
    if NothingDue(left, now) { EndMeansCome(start, fired, left, now); }
    a := FirstDue(left, now);
    ChainMore(start, fired, left, a, now);
  }

  /** At the last moment there is, any periodic alarm keeps the loop going. */
  lemma EndlessInput(a: Alarm, start: multiset<Alarm>)
    requires Words(a) && a.interval > 0 && a in start
    ensures !AllEnd(start, MAX_INT64)
  {
  }

  /** Where every next deadline fits the loop ends. */
  lemma FineEnds(m: multiset<Alarm>, now: Int64)
    requires AllFine(m, now) && AllWords(m)
    ensures AllEnd(m, now)
  {
    hide Ends, Words;
    forall a | a in m ensures Ends(a, now) {
      assert Words(a) && Fine(a, now);
      FineComes(a, now);
      EndsExactly(a, now);
    }
  }

  lemma {:induction false} FineComes(a: Alarm, now: int)
    requires Fine(a, now)
    ensures Comes(a, now)
    decreases if a.end > now then 0 else now - a.end + 1
  {
    hide Comes;
    OneShotComes(a, now);
    if a.end > now {
      LaterTurns(a, now);
    } else if a.interval > 0 {
      FineComes(Again(a), now);
      assert Next(a) == Again(a);
      TurnTaken(a, now);
    }
  }
}
