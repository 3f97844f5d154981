/**
 * What the pending alarms are owed at a given time, what a run of the firing loop pays
 * of it, and what goes wrong when a next deadline does not fit in 64 bits.
 */
module TimerOwed {
  const MAX_INT64 := 0x7FFF_FFFF_FFFF_FFFF
  const TWO_TO_64 := 0x1_0000_0000_0000_0000

  type Int64 = x: int | -0x8000_0000_0000_0000 <= x <= 0x7FFF_FFFF_FFFF_FFFF

  /** What the caller asked for: whom to call, when, and how often again. */
  datatype Alarm = Alarm(who: int, id: nat, end: int, interval: int)

  /** int64 addition. */
  function Wrapped(x: int): int { if x > MAX_INT64 then x - TWO_TO_64 else x }

  // -------------------------------------------------------------------- what a run owes

  datatype Effect = Fires(alarm: Alarm) | Stays(alarm: Alarm)

  function Again(a: Alarm): Alarm { a.(end := a.end + a.interval) }

  /** One alarm at `now`: due ones fire, periodic ones again for every period that has passed, and wait for the next. */
  function Effects(a: Alarm, now: int): (e: multiset<Effect>)
    ensures |e| >= 1
    decreases if a.end > now then 0 else now - a.end + 1
  {
    if a.end > now then multiset{Stays(a)}
    else if a.interval <= 0 then multiset{Fires(a)}
    else multiset{Fires(a)} + Effects(Again(a), now)
  }

  /** The next deadline after `now` can be written in 64 bits. */
  predicate Fine(a: Alarm, now: int)
    decreases if a.end > now then 0 else now - a.end + 1
  {
    a.end <= now && a.interval > 0 ==> a.end + a.interval <= MAX_INT64 && Fine(Again(a), now)
  }

  ghost function Pick(m: multiset<Alarm>): (a: Alarm)
    requires m != multiset{}
    ensures a in m
  {
    var a :| a in m; a
  }

  ghost function Owed(m: multiset<Alarm>, now: int): (e: multiset<Effect>)
    ensures |e| >= |m|
    decreases |m|
  {
    if m == multiset{} then multiset{} else Owed(m - multiset{Pick(m)}, now) + Effects(Pick(m), now)
  }

  lemma OwedPick(m: multiset<Alarm>, now: int)
    requires m != multiset{}
    ensures Owed(m, now) == Owed(m - multiset{Pick(m)}, now) + Effects(Pick(m), now)
  {
  }

  lemma Regroup(x: multiset<Effect>, y: multiset<Effect>, z: multiset<Effect>)
    ensures (x + y) + z == (x + z) + y
  {
  }

  lemma {:induction false} OwedOne(m: multiset<Alarm>, a: Alarm, now: int)
    requires a in m
    ensures Owed(m, now) == Owed(m - multiset{a}, now) + Effects(a, now)
    decreases |m|
  {
    hide Effects, Owed;
    OwedPick(m, now);
    var b := Pick(m);
    if a != b {
      var rest := m - multiset{b} - multiset{a};
      OwedOne(m - multiset{b}, a, now);
      OwedOne(m - multiset{a}, b, now);
      assert rest == m - multiset{a} - multiset{b};
      Regroup(Owed(rest, now), Effects(a, now), Effects(b, now));
    }
  }

  lemma OwedMore(m: multiset<Alarm>, a: Alarm, now: int)
    ensures Owed(m + multiset{a}, now) == Owed(m, now) + Effects(a, now)
  {
    hide Owed, Effects;
    OwedOne(m + multiset{a}, a, now);
    assert m + multiset{a} - multiset{a} == m;
  }

  /** Firing the alarm that is due first pays one effect of what is owed. */
  lemma FirePays(m: multiset<Alarm>, a: Alarm, now: int)
    requires a in m && a.end <= now
    ensures var m' := m - multiset{a} + (if a.interval > 0 then multiset{Again(a)} else multiset{});
      Owed(m, now) == Owed(m', now) + multiset{Fires(a)}
  {
    hide Owed;
    OwedOne(m, a, now);
    var rest := m - multiset{a};
    if a.interval > 0 {
      OwedMore(rest, Again(a), now);
    } else {
      assert rest + multiset{} == rest;
    }
  }

  function Firings(fired: seq<Alarm>): (e: multiset<Effect>)
    ensures |e| == |fired|
  {
    if fired == [] then multiset{} else multiset{Fires(fired[0])} + Firings(fired[1..])
  }

  predicate Ordered(fired: seq<Alarm>) {
    forall i, j :: 0 <= i < j < |fired| ==> fired[i].end <= fired[j].end
  }

  function Callbacks(fired: seq<Alarm>): seq<int> { seq(|fired|, k requires 0 <= k < |fired| => fired[k].who) }

  /** A periodic alarm k periods later. */
  function Later(a: Alarm, k: nat): Alarm { a.(end := a.end + k * a.interval) }

  lemma LaterSteps(a: Alarm, k: nat)
    ensures Later(a, 0) == a && Later(Again(a), k) == Later(a, k + 1)
    ensures a.interval > 0 ==> Later(a, k).end >= a.end && Later(a, k + 1).end > a.end
  {
    assert (k + 1) * a.interval == k * a.interval + a.interval;
    if a.interval > 0 { assert 0 <= k * a.interval; }
  }

  /** The alarm is owed a call as x: at its deadline, or periodic at each deadline that has passed. */
  ghost predicate Owes(a: Alarm, x: Alarm, now: int) {
    x.end <= now && if a.interval > 0 then exists k: nat :: x == Later(a, k) else x == a
  }

  lemma OwesStep(a: Alarm, x: Alarm, now: int)
    requires a.interval > 0 && a.end <= now
    ensures Owes(a, x, now) <==> x == a || Owes(Again(a), x, now)
    ensures !Owes(Again(a), a, now)
  {
    hide Later;
    LaterSteps(a, 0);
    if Owes(a, x, now) && x != a {
      var k: nat :| x == Later(a, k);
      LaterSteps(a, k - 1);
    }
    if Owes(Again(a), x, now) {
      var k: nat :| x == Later(Again(a), k);
      LaterSteps(a, k);
    }
    if Owes(Again(a), a, now) {
      var k: nat :| a == Later(Again(a), k);
      LaterSteps(a, k);
      assert false;
    }
  }

  /** The calls among the effects, exactly: one for each deadline that has passed and no other. */
  lemma {:induction false} EffectsExact(a: Alarm, x: Alarm, now: int)
    ensures Effects(a, now)[Fires(x)] == if Owes(a, x, now) then 1 else 0
    decreases if a.end > now then 0 else now - a.end + 1
  {
    hide Owes;
    if a.end > now {
      NotYet(a, x, now);
    } else if a.interval > 0 {
      EffectsExact(Again(a), x, now);
      OwesStep(a, x, now);
    } else {
      OnceOnly(a, x, now);
    }
  }

  lemma NotYet(a: Alarm, x: Alarm, now: int)
    requires a.end > now
    ensures !Owes(a, x, now)
  {
    hide Later;
    if Owes(a, x, now) && a.interval > 0 {
      var k: nat :| x == Later(a, k);
      LaterSteps(a, k);
      assert false;
    }
  }

  lemma OnceOnly(a: Alarm, x: Alarm, now: int)
    requires a.end <= now && a.interval <= 0
    ensures Owes(a, x, now) <==> x == a
  {
  }

  /** A due periodic alarm fires once at each of the deadlines that have passed, and stays for the next. */
  lemma {:induction false} PeriodicCount(a: Alarm, now: int, q: nat)
    requires a.interval > 0 && Later(a, q).end <= now < Later(a, q + 1).end
    ensures |Effects(a, now)| == q + 2
    ensures forall k: nat :: k <= q ==> Effects(a, now)[Fires(Later(a, k))] == 1
    ensures Effects(a, now)[Stays(Later(a, q + 1))] == 1
    ensures Fine(a, now) <==> Later(a, q + 1).end <= MAX_INT64
    decreases q
  {
    hide Later;
    LaterSteps(a, q);
    PeriodicFires(a, now, q);
    LaterSteps(a, 0);
    LaterSteps(Again(a), 0);
    if q > 0 {
      LaterSteps(a, q - 1);
      PeriodicCount(Again(a), now, q - 1);
    }
  }

  lemma PeriodicFires(a: Alarm, now: int, q: nat)
    requires a.interval > 0 && Later(a, q).end <= now
    ensures forall k: nat :: k <= q ==> Effects(a, now)[Fires(Later(a, k))] == 1
  {
    hide Effects;
    forall k: nat | k <= q ensures Effects(a, now)[Fires(Later(a, k))] == 1 {
      assert q * a.interval == k * a.interval + (q - k) * a.interval;
      assert 0 <= (q - k) * a.interval;
      assert Owes(a, Later(a, k), now);
      EffectsExact(a, Later(a, k), now);
    }
  }

  /**
   * The calls as a quotient: one for a one-shot; for a periodic alarm floor((now - end) / interval) + 1,
   * one at each of its deadlines.
   */
  lemma CallCount(a: Alarm, now: int)
    requires a.end <= now
    ensures a.interval <= 0 ==> Effects(a, now) == multiset{Fires(a)}
    ensures a.interval > 0 ==>
      var q := (now - a.end) / a.interval;
      && |Effects(a, now)| == q + 2 && Effects(a, now)[Stays(Later(a, q + 1))] == 1
      && forall k: nat :: k <= q ==> Effects(a, now)[Fires(Later(a, k))] == 1
  {
    if a.interval > 0 {
      var q := (now - a.end) / a.interval;
      DivisionSpan(now - a.end, a.interval);
      PeriodicCount(a, now, q);
    }
  }

  lemma DivisionSpan(x: nat, d: nat)
    requires d > 0
    ensures x / d >= 0 && (x / d) * d <= x < (x / d + 1) * d
  {
    assert x == d * (x / d) + x % d;
    assert (x / d + 1) * d == (x / d) * d + d;
  }

  lemma DueStays(a: Alarm, now: int)
    requires a.end > now
    ensures Effects(a, now) == multiset{Stays(a)}
  {
  }

  lemma OneMore(e: multiset<Effect>, b: Alarm, x: Alarm)
    ensures (e + multiset{Stays(b)})[Fires(x)] == e[Fires(x)]
    ensures (e + multiset{Stays(b)})[Stays(x)] == e[Stays(x)] + if b == x then 1 else 0
  {
  }

  /** Alarms due later owe nothing but themselves. */
  lemma {:induction false} LaterOnlyStay(m: multiset<Alarm>, now: int, x: Alarm)
    requires forall a :: a in m ==> a.end > now
    ensures Owed(m, now)[Fires(x)] == 0 && Owed(m, now)[Stays(x)] == m[x]
    decreases |m|
  {
    hide Effects;
    if m != multiset{} {
      var b := Pick(m);
      DueStays(b, now);
      OwedPick(m, now);
      LaterOnlyStay(m - multiset{b}, now, x);
      OneMore(Owed(m - multiset{b}, now), b, x);
    }
  }

  lemma {:induction false} FiringsCount(fired: seq<Alarm>, x: Alarm)
    ensures Firings(fired)[Fires(x)] == multiset(fired)[x] && Firings(fired)[Stays(x)] == 0
    decreases |fired|
  {
    if fired != [] {
      FiringsCount(fired[1..], x);
      assert fired == [fired[0]] + fired[1..];
    }
  }

  /** A run that leaves nothing due has made exactly the owed calls and kept exactly the owed alarms. */
  lemma RunSettles(start: multiset<Alarm>, left: multiset<Alarm>, fired: seq<Alarm>, now: int, x: Alarm)
    requires Owed(start, now) == Owed(left, now) + Firings(fired) && forall a :: a in left ==> a.end > now
    ensures multiset(fired)[x] == Owed(start, now)[Fires(x)] && left[x] == Owed(start, now)[Stays(x)]
  {
    hide Owed, Firings;
    LaterOnlyStay(left, now, x);
    FiringsCount(fired, x);
  }

  function Next(a: Alarm): Alarm { a.(end := Wrapped(a.end + a.interval)) }

  /** What is pending once the alarm has fired. */
  function After(left: multiset<Alarm>, a: Alarm): multiset<Alarm> {
    left - multiset{a} + (if a.interval > 0 then multiset{Next(a)} else multiset{})
  }

  lemma AfterCases(left: multiset<Alarm>, a: Alarm)
    ensures After(left, a) == if a.interval > 0 then (left - multiset{a}) + multiset{Next(a)} else left - multiset{a}
  {
    assert left - multiset{a} + multiset{} == left - multiset{a};
  }

  /** The alarm is due and none is due before it. */
  ghost predicate FiresFirst(m: multiset<Alarm>, a: Alarm, now: int) {
    a in m && a.end <= now && forall b :: b in m ==> a.end <= b.end
  }

  /** A run of the firing loop: what fired, one after the other, between two sets of pending alarms. */
  ghost predicate Chain(start: multiset<Alarm>, fired: seq<Alarm>, left: multiset<Alarm>, now: int)
    decreases |fired|
  {
    if fired == [] then left == start
    else FiresFirst(start, fired[0], now) && Chain(After(start, fired[0]), fired[1..], left, now)
  }

  lemma {:induction false} ChainMore(start: multiset<Alarm>, fired: seq<Alarm>, mid: multiset<Alarm>, a: Alarm, now: int)
    requires Chain(start, fired, mid, now) && FiresFirst(mid, a, now)
    ensures Chain(start, fired + [a], After(mid, a), now)
    decreases |fired|
  {
    hide After, FiresFirst;
    if fired == [] {
      assert [a][1..] == [];
    } else {
      ChainMore(After(start, fired[0]), fired[1..], mid, a, now);
      assert (fired + [a])[1..] == fired[1..] + [a];
    }
  }

  ghost predicate AllFine(m: multiset<Alarm>, now: int) { forall a :: a in m ==> Fine(a, now) }

  lemma AfterIs(left: multiset<Alarm>, a: Alarm)
    requires a.interval > 0 ==> a.end + a.interval <= MAX_INT64
    ensures After(left, a) == left - multiset{a} + (if a.interval > 0 then multiset{Again(a)} else multiset{})
  {
  }

  lemma AfterFine(m: multiset<Alarm>, a: Alarm, now: int)
    requires AllFine(m, now) && FiresFirst(m, a, now)
    ensures AllFine(After(m, a), now) && (forall b :: b in After(m, a) ==> a.end <= b.end)
    ensures Owed(m, now) == Owed(After(m, a), now) + multiset{Fires(a)}
  {
    hide Owed;
    assert Fine(a, now);
    FirePays(m, a, now);
    AfterIs(m, a);
    assert forall b :: b in After(m, a) ==> b in m || (a.interval > 0 && b == Again(a));
  }

  /** Where every next deadline fits, what fired and what is still owed make up what was owed. */
  lemma {:induction false} ChainPays(start: multiset<Alarm>, fired: seq<Alarm>, left: multiset<Alarm>, now: int)
    requires Chain(start, fired, left, now) && AllFine(start, now)
    ensures AllFine(left, now) && Owed(start, now) == Owed(left, now) + Firings(fired)
    ensures |fired| <= |Owed(start, now)|
    decreases |fired|
  {
    hide Owed, After, AllFine, FiresFirst;
    if fired == [] {
      assert Owed(start, now) + multiset{} == Owed(start, now);
    } else {
      AfterFine(start, fired[0], now);
      ChainPays(After(start, fired[0]), fired[1..], left, now);
      PayOne(Owed(left, now), Firings(fired[1..]), multiset{Fires(fired[0])});
    }
  }

  lemma PayOne(x: multiset<Effect>, y: multiset<Effect>, z: multiset<Effect>)
    ensures (x + y) + z == x + (z + y)
  {
  }

  /** Where every next deadline fits, calls are made in deadline order and none is overtaken by what stays. */
  lemma {:induction false} ChainInOrder(start: multiset<Alarm>, fired: seq<Alarm>, left: multiset<Alarm>, now: int, t: int)
    requires Chain(start, fired, left, now) && AllFine(start, now) && forall a :: a in start ==> t <= a.end
    ensures Ordered(fired) && (forall k :: 0 <= k < |fired| ==> t <= fired[k].end)
    ensures forall a :: a in left ==> t <= a.end
    ensures forall a, k :: a in left && 0 <= k < |fired| ==> fired[k].end <= a.end
    decreases |fired|
  {
    hide Owed, After, AllFine, Fine;
    if fired != [] {
      AfterFine(start, fired[0], now);
      ChainInOrder(After(start, fired[0]), fired[1..], left, now, fired[0].end);
      assert forall k :: 0 < k < |fired| ==> fired[k] == fired[1..][k - 1];
    }
  }

  /** Midway through a run: what fired so far and what is still owed make up the debt, in order. */
  ghost predicate Paid(start: multiset<Alarm>, left: multiset<Alarm>, fired: seq<Alarm>, now: int) {
    && Owed(start, now) == Owed(left, now) + Firings(fired) && AllFine(left, now)
    && Ordered(fired) && forall a, k :: a in left && 0 <= k < |fired| ==> fired[k].end <= a.end
  }

  lemma EmptyChain(start: multiset<Alarm>, now: int)
    ensures Chain(start, [], start, now)
  {
  }

  lemma ChainPaid(start: multiset<Alarm>, fired: seq<Alarm>, left: multiset<Alarm>, now: int)
    requires Chain(start, fired, left, now) && AllFine(start, now)
    ensures Paid(start, left, fired, now)
  {
    hide Owed, Firings, AllFine;
    ChainPays(start, fired, left, now);
    if fired != [] { ChainInOrder(start, fired, left, now, fired[0].end); }
  }

  // ------------------------------------------------------------ when the next deadline does not fit

  /** Deadlines and intervals are 64-bit words. */
  predicate Words(a: Alarm) {
    -0x8000_0000_0000_0000 <= a.end <= MAX_INT64 && -0x8000_0000_0000_0000 <= a.interval <= MAX_INT64
  }

  ghost predicate AllWords(m: multiset<Alarm>) { forall a :: a in m ==> Words(a) }

  lemma AfterWords(m: multiset<Alarm>, a: Alarm)
    requires AllWords(m) && a in m
    ensures AllWords(After(m, a))
  {
    assert forall b :: b in After(m, a) ==> b in m || (a.interval > 0 && b == Next(a));
  }

  /** The lost promises: alarms kept for a deadline that cannot be written. */
  ghost predicate OutOfRange(lost: multiset<Effect>) {
    forall e :: e in lost ==> e.Stays? && e.alarm.end > MAX_INT64
  }

  /** Firing an alarm whose next deadline does not fit puts an alarm in its place that is due again at once. */
  lemma WrapStep(m: multiset<Alarm>, a: Alarm, now: Int64)
    requires AllWords(m) && FiresFirst(m, a, now) && a.interval > 0 && a.end + a.interval > MAX_INT64
    ensures Next(a).end < a.end <= now
    ensures Owed(m, now) + Effects(Next(a), now) == Owed(After(m, a), now) + multiset{Fires(a)} + multiset{Stays(Again(a))}
  {
    hide Owed;
    var rest := m - multiset{a};
    assert Words(a);
    OwedOne(m, a, now);
    hide Effects;
    LastPeriod(a, now);
    OwedMore(rest, Next(a), now);
    AfterCases(m, a);
    Exchange(Owed(rest, now), Effects(Next(a), now), multiset{Fires(a)}, multiset{Stays(Again(a))});
  }

  lemma LastPeriod(a: Alarm, now: Int64)
    requires a.end <= now && a.interval > 0 && a.end + a.interval > MAX_INT64
    ensures Effects(a, now) == multiset{Fires(a)} + multiset{Stays(Again(a))}
  {
    assert Effects(Again(a), now) == multiset{Stays(Again(a))};
  }

  lemma Exchange(r: multiset<Effect>, n: multiset<Effect>, f: multiset<Effect>, l: multiset<Effect>)
    ensures (r + (f + l)) + n == (r + n) + f + l
  {
  }

  /** What was owed and what the wrapped alarms owe besides is what is left to pay, what fired, and what was lost. */
  ghost predicate Balanced(start: multiset<Alarm>, extra: multiset<Alarm>, left: multiset<Alarm>, fired: seq<Alarm>,
                           lost: multiset<Effect>, now: int) {
    && OutOfRange(lost) && |extra| == |lost| && (forall b :: b in extra ==> b.end <= now)
    && Owed(start, now) + Owed(extra, now) == Owed(left, now) + Firings(fired) + lost
  }

  /** Any run: the alarms that wrapped around owe calls on top of what was owed. */
  lemma {:induction false} ChainDebt(start: multiset<Alarm>, fired: seq<Alarm>, left: multiset<Alarm>, now: Int64)
    returns (extra: multiset<Alarm>, lost: multiset<Effect>)
    requires Chain(start, fired, left, now) && AllWords(start)
    ensures AllWords(left) && Balanced(start, extra, left, fired, lost, now)
    decreases |fired|
  {
    hide Balanced, After, AllWords, Words, Wrapped;
    if fired == [] {
      extra, lost := multiset{}, multiset{};
      BalancedEmpty(start, now);
    } else {
      var a := fired[0];
      AfterWords(start, a);
      extra, lost := ChainDebt(After(start, a), fired[1..], left, now);
      if a.interval > 0 && a.end + a.interval > MAX_INT64 {
        BalancedWrap(start, extra, left, fired, lost, now);
        extra, lost := extra + multiset{Next(a)}, lost + multiset{Stays(Again(a))};
      } else {
        BalancedPlain(start, extra, left, fired, lost, now);
      }
    }
  }

  lemma BalancedEmpty(start: multiset<Alarm>, now: int)
    ensures Balanced(start, multiset{}, start, [], multiset{}, now)
  {
    hide Owed;
    NothingExtra(Owed(start, now), now);
  }

  lemma BalancedWrap(start: multiset<Alarm>, extra: multiset<Alarm>, left: multiset<Alarm>, fired: seq<Alarm>,
                     lost: multiset<Effect>, now: Int64)
    requires fired != [] && FiresFirst(start, fired[0], now) && AllWords(start)
    requires fired[0].interval > 0 && fired[0].end + fired[0].interval > MAX_INT64
    requires Balanced(After(start, fired[0]), extra, left, fired[1..], lost, now)
    ensures Balanced(start, extra + multiset{Next(fired[0])}, left, fired, lost + multiset{Stays(Again(fired[0]))}, now)
  {
    hide Owed, Effects, After, AllWords, Words, Wrapped;
    var a := fired[0];
    WrapStep(start, a, now);
    OwedMore(extra, Next(a), now);
    DebtGrows(Owed(start, now), Owed(After(start, a), now), Owed(extra, now), Effects(Next(a), now),
              Owed(left, now), Firings(fired[1..]), lost, multiset{Fires(a)}, multiset{Stays(Again(a))});
  }

  lemma BalancedPlain(start: multiset<Alarm>, extra: multiset<Alarm>, left: multiset<Alarm>, fired: seq<Alarm>,
                      lost: multiset<Effect>, now: Int64)
    requires fired != [] && FiresFirst(start, fired[0], now)
    requires fired[0].interval > 0 ==> fired[0].end + fired[0].interval <= MAX_INT64
    requires Balanced(After(start, fired[0]), extra, left, fired[1..], lost, now)
    ensures Balanced(start, extra, left, fired, lost, now)
  {
    hide Owed, Effects, After, Wrapped;
    var a := fired[0];
    AfterIs(start, a);
    FirePays(start, a, now);
    DebtShrinks(Owed(start, now), Owed(After(start, a), now), Owed(extra, now), Owed(left, now),
                Firings(fired[1..]), lost, multiset{Fires(a)});
  }

  lemma NothingExtra(e: multiset<Effect>, now: int)
    ensures e + Owed(multiset{}, now) == e + Firings([]) + multiset{}
  {
  }

  lemma DebtShrinks(m: multiset<Effect>, m': multiset<Effect>, x: multiset<Effect>, l: multiset<Effect>,
                    f: multiset<Effect>, o: multiset<Effect>, p: multiset<Effect>)
    requires m == m' + p && m' + x == l + f + o
    ensures m + x == l + (p + f) + o
  {
    assert m + x == (m' + x) + p;
  }

  lemma DebtGrows(m: multiset<Effect>, m': multiset<Effect>, x: multiset<Effect>, n: multiset<Effect>,
                  l: multiset<Effect>, f: multiset<Effect>, o: multiset<Effect>, p: multiset<Effect>, s: multiset<Effect>)
    requires m + n == m' + p + s && m' + x == l + f + o
    ensures m + (x + n) == l + (p + f) + (o + s)
  {
    assert m + (x + n) == (m + n) + x;
    assert (m' + p + s) + x == (m' + x) + p + s;
  }

  /** An alarm whose later deadlines do not all fit is owed a place at one that does not. */
  lemma {:induction false} NotFineLost(a: Alarm, now: Int64) returns (y: Alarm)
    requires !Fine(a, now)
    ensures y.end > MAX_INT64 && Effects(a, now)[Stays(y)] > 0
    decreases if a.end > now then 0 else now - a.end + 1
  {
    if a.end + a.interval > MAX_INT64 {
      y := Again(a);
      LastPeriod(a, now);
    } else {
      y := NotFineLost(Again(a), now);
    }
  }

  /** The calls made are the calls owed, each as often. */
  ghost predicate ExactCalls(start: multiset<Alarm>, fired: seq<Alarm>, now: int) {
    forall x :: multiset(fired)[x] == Owed(start, now)[Fires(x)]
  }

  /**
   * A run that leaves nothing due makes every owed call, and makes no other exactly if every
   * next deadline fits in 64 bits.
   */
  lemma CallsExactly(start: multiset<Alarm>, fired: seq<Alarm>, left: multiset<Alarm>, now: Int64)
    requires Chain(start, fired, left, now) && AllWords(start) && forall a :: a in left ==> a.end > now
    ensures forall x :: multiset(fired)[x] >= Owed(start, now)[Fires(x)]
    ensures ExactCalls(start, fired, now) <==> AllFine(start, now)
  {
    hide Owed, Firings, Chain, Fine;
    var extra, lost := ChainDebt(start, fired, left, now);
    forall x ensures multiset(fired)[x] == Owed(start, now)[Fires(x)] + Owed(extra, now)[Fires(x)] {
      SettledCount(start, extra, left, fired, lost, now, x);
    }
    if AllFine(start, now) {
      ChainPays(start, fired, left, now);
      forall x ensures multiset(fired)[x] == Owed(start, now)[Fires(x)] { RunSettles(start, left, fired, now, x); }
    } else {
      var a :| a in start && !Fine(a, now);
      SomethingExtra(start, extra, left, fired, lost, a, now);
      var b :| b in extra;
      OwedDue(extra, b, now);
      assert multiset(fired)[b] > Owed(start, now)[Fires(b)];
    }
  }

  lemma SettledCount(start: multiset<Alarm>, extra: multiset<Alarm>, left: multiset<Alarm>, fired: seq<Alarm>,
                     lost: multiset<Effect>, now: int, x: Alarm)
    requires Balanced(start, extra, left, fired, lost, now) && forall a :: a in left ==> a.end > now
    ensures multiset(fired)[x] == Owed(start, now)[Fires(x)] + Owed(extra, now)[Fires(x)]
  {
    hide Owed, Firings;
    LaterOnlyStay(left, now, x);
    FiringsCount(fired, x);
    assert Fires(x) !in lost;
    assert (Owed(start, now) + Owed(extra, now))[Fires(x)] == (Owed(left, now) + Firings(fired) + lost)[Fires(x)];
  }

  lemma SomethingExtra(start: multiset<Alarm>, extra: multiset<Alarm>, left: multiset<Alarm>, fired: seq<Alarm>,
                       lost: multiset<Effect>, a: Alarm, now: Int64)
    requires Balanced(start, extra, left, fired, lost, now) && AllWords(left) && (forall b :: b in left ==> b.end > now) && a in start && !Fine(a, now)
    ensures exists b :: b in extra
  {
    hide Owed, Firings, Fine;
    var y := NotFineLost(a, now);
    OwedOne(start, a, now);
    hide Effects;
    LaterOnlyStay(left, now, y);
    FiringsCount(fired, y);
    NotAWord(left, y);
    assert (Owed(start, now) + Owed(extra, now))[Stays(y)] == (Owed(left, now) + Firings(fired) + lost)[Stays(y)];
    assert lost[Stays(y)] > 0;
    assert |lost| > 0;
    assert extra != multiset{};
  }

  lemma NotAWord(m: multiset<Alarm>, y: Alarm)
    requires AllWords(m) && y.end > MAX_INT64
    ensures m[y] == 0
  {
    assert !Words(y);
  }

  lemma OwedDue(m: multiset<Alarm>, b: Alarm, now: int)
    requires b in m && b.end <= now
    ensures Owed(m, now)[Fires(b)] > 0
  {
    hide Owed;
    OwedOne(m, b, now);
  }

  /** An alarm with an id of its own is called once at each of its deadlines that have passed, and not otherwise. */
  lemma OwnCalls(start: multiset<Alarm>, fired: seq<Alarm>, left: multiset<Alarm>, now: int, a: Alarm, x: Alarm)
    requires Chain(start, fired, left, now) && AllFine(start, now) && forall b :: b in left ==> b.end > now
    requires start[a] == 1 && (forall b :: b in start && b != a ==> b.id != a.id) && x.id == a.id
    ensures multiset(fired)[x] == if Owes(a, x, now) then 1 else 0
    ensures a.interval > 0 ==> forall k: nat :: Later(a, k).end <= now ==> multiset(fired)[Later(a, k)] == 1
  {
    hide Owed, Chain, Firings, AllFine, Effects, Later, Owes;
    ChainPays(start, fired, left, now);
    OwnCount(start, fired, left, now, a, x);
    if a.interval > 0 {
      forall k: nat | Later(a, k).end <= now ensures multiset(fired)[Later(a, k)] == 1 {
        LaterOwed(a, k, now);
        OwnCount(start, fired, left, now, a, Later(a, k));
      }
    }
  }

  lemma LaterOwed(a: Alarm, k: nat, now: int)
    requires a.interval > 0 && Later(a, k).end <= now
    ensures Owes(a, Later(a, k), now) && Later(a, k).id == a.id
  {
  }

  lemma OwnCount(start: multiset<Alarm>, fired: seq<Alarm>, left: multiset<Alarm>, now: int, a: Alarm, x: Alarm)
    requires Owed(start, now) == Owed(left, now) + Firings(fired) && forall b :: b in left ==> b.end > now
    requires start[a] == 1 && (forall b :: b in start && b != a ==> b.id != a.id) && x.id == a.id
    ensures multiset(fired)[x] == if Owes(a, x, now) then 1 else 0
  {
    hide Owed, Firings, Effects, Owes;
    RunSettles(start, left, fired, now, x);
    OwedOne(start, a, now);
    EffectsExact(a, x, now);
    OtherIds(start - multiset{a}, x, now);
  }

  lemma {:induction false} OtherIds(m: multiset<Alarm>, x: Alarm, now: int)
    requires forall b :: b in m ==> b.id != x.id
    ensures Owed(m, now)[Fires(x)] == 0
    decreases |m|
  {
    hide Effects, Owes;
    if m != multiset{} {
      OwedPick(m, now);
      OtherIds(m - multiset{Pick(m)}, x, now);
      EffectsExact(Pick(m), x, now);
      OwesId(Pick(m), x, now);
    }
  }

  lemma OwesId(a: Alarm, x: Alarm, now: int)
    ensures Owes(a, x, now) ==> x.id == a.id
  {
  }

  /**
   * One alarm at time 1 with the longest interval there is. One call is owed; the sum 1 + interval
   * wraps around to the least integer, so the alarm is called three times before it is due later.
   */
  lemma ThreeForOne(who: int, id: nat, fired: seq<Alarm>, left: multiset<Alarm>)
    requires var a := Alarm(who, id, 1, MAX_INT64); Chain(multiset{a}, fired, left, 1)
    requires forall b :: b in left ==> b.end > 1
    ensures var a := Alarm(who, id, 1, MAX_INT64);
      && fired == [a, a.(end := -0x8000_0000_0000_0000), a.(end := -1)]
      && left == multiset{a.(end := MAX_INT64 - 1)} && Owed(multiset{a}, 1) == multiset{Fires(a), Stays(Again(a))}
  {
    hide Chain, Owed;
    var a := Alarm(who, id, 1, MAX_INT64);
    var b, c := Next(a), Next(Next(a));
    OneOwed(a);
    ThreeSteps(a, b, c, fired, left, 1);
  }

  lemma ThreeSteps(a: Alarm, b: Alarm, c: Alarm, fired: seq<Alarm>, left: multiset<Alarm>, now: int)
    requires Chain(multiset{a}, fired, left, now) && b == Next(a) && c == Next(b) && a.interval > 0
    requires a.end <= now && b.end <= now && c.end <= now < Next(c).end && forall b :: b in left ==> b.end > now
    ensures fired == [a, b, c] && left == multiset{Next(c)}
  {
    hide Chain, Wrapped;
    OneStep(a, fired, left, now);
    OneStep(b, fired[1..], left, now);
    OneStep(c, fired[1..][1..], left, now);
    NoStep(Next(c), fired[1..][1..][1..], left, now);
    assert fired == [fired[0], fired[1..][0], fired[1..][1..][0]];
  }

  lemma FirstStep(a: Alarm, fired: seq<Alarm>, left: multiset<Alarm>, now: int)
    requires Chain(multiset{a}, fired, left, now) && a.interval > 0 && fired != []
    ensures fired[0] == a && Chain(multiset{Next(a)}, fired[1..], left, now)
  {
    assert multiset{a} - multiset{a} + multiset{Next(a)} == multiset{Next(a)};
  }

  lemma OneOwed(a: Alarm)
    requires a.end == 1 && a.interval == MAX_INT64
    ensures Owed(multiset{a}, 1) == multiset{Fires(a), Stays(Again(a))}
  {
    LastPeriod(a, 1);
    OwedOne(multiset{a}, a, 1);
    assert multiset{a} - multiset{a} == multiset{};
  }

  lemma OneStep(a: Alarm, fired: seq<Alarm>, left: multiset<Alarm>, now: int)
    requires Chain(multiset{a}, fired, left, now) && a.interval > 0 && a.end <= now && forall b :: b in left ==> b.end > now
    ensures fired != [] && fired[0] == a && Chain(multiset{Next(a)}, fired[1..], left, now)
  {
    assert fired == [] ==> a in left;
    FirstStep(a, fired, left, now);
  }

  lemma NoStep(a: Alarm, fired: seq<Alarm>, left: multiset<Alarm>, now: int)
    requires Chain(multiset{a}, fired, left, now) && a.end > now
    ensures fired == [] && left == multiset{a}
  {
  }
}
