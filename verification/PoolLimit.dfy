/**
 * The pool limit. A request is refused only in the first section of AcquireSocket, and a new
 * connection is counted only in the second, so requests that connect at the same time can
 * exceed the limit; by how much is exactly how many of them overlap.
 */
module PoolLimit {
  import opened SocketPool

  /**
   * `connecting` are the acquires between their two sections, those that are still connecting
   * and those that have connected; `peak` is the most there have been at once.
   */
  datatype Limited = Limited(pool: Pool, connecting: nat, peak: nat)

  /** Passes: an acquire is not refused and finds no unused socket. Fails: it could not connect. */
  datatype Move = Passes | Fails | Does(action: Action)

  /** Every acquire is made with the same limit. */
  predicate Allowed(s: Limited, limit: nat, m: Move) {
    match m
    case Passes => !s.pool.server.closed && s.pool.server.unused == [] && |s.pool.server.live| < limit
    case Fails => s.connecting > |s.pool.carried.unlisted|
    case Does(a) =>
      && Enabled(s.pool, a)
      && (a.Take? ==> |s.pool.server.live| - |s.pool.server.unused| < limit)
      && (a.Connect? ==> s.connecting > |s.pool.carried.unlisted|)
  }

  function Less(n: nat): nat { if n > 0 then n - 1 else 0 }

  function Moved(s: Limited, limit: nat, m: Move): Limited
    requires Allowed(s, limit, m)
  {
    match m
    case Passes => Limited(s.pool, s.connecting + 1, if s.connecting + 1 > s.peak then s.connecting + 1 else s.peak)
    case Fails => s.(connecting := Less(s.connecting))
    case Does(a) => Limited(Apply(s.pool, a), if a.List? then Less(s.connecting) else s.connecting, s.peak)
  }

  ghost predicate Plays(s: Limited, limit: nat, moves: seq<Move>)
    decreases |moves|
  {
    moves == [] || (Allowed(s, limit, moves[0]) && Plays(Moved(s, limit, moves[0]), limit, moves[1..]))
  }

  ghost function Played(s: Limited, limit: nat, moves: seq<Move>): Limited
    requires Plays(s, limit, moves)
    decreases |moves|
  {
    if moves == [] then s else Played(Moved(s, limit, moves[0]), limit, moves[1..])
  }

  const FRESH: Limited := Limited(Empty(), 0, 0)

  /** The listed sockets and those still to be listed. */
  function Load(s: Limited): nat { |s.pool.server.live| + s.connecting }

  /** Sockets are to be closed only after the server is. */
  ghost predicate Bounded(s: Limited, limit: nat) {
    && |s.pool.carried.unlisted| <= s.connecting <= s.peak
    && Load(s) <= (if s.peak == 0 then 0 else limit - 1 + s.peak)
    && (!s.pool.server.closed ==> s.pool.carried.closing == multiset{})
  }

  lemma {:induction false} WithoutShorter(s: seq<Id>, x: Id)
    ensures |Without(s, x)| <= |s|
    decreases |s|
  {
    if s != [] && s[0] != x { WithoutShorter(s[1..], x); }
  }

  /** Only a listing lengthens the list, and only a connection makes one more to be listed. */
  lemma ActionLoad(p: Pool, a: Action)
    requires Enabled(p, a)
    ensures |Apply(p, a).server.live| <= |p.server.live| + (if a.List? then 1 else 0)
    ensures p.server.closed ==> Apply(p, a).server.closed
  {
    hide Without;
    if a.Abend? { WithoutShorter(p.server.live, a.x); }
  }

  lemma ActionUnlisted(p: Pool, a: Action)
    requires Enabled(p, a)
    ensures |Apply(p, a).carried.unlisted| == |p.carried.unlisted| + (if a.Connect? then 1 else if a.List? then -1 else 0)
  {
    hide Without;
    if a.List? { assert |p.carried.unlisted - multiset{a.x}| == |p.carried.unlisted| - 1; }
  }

  lemma ActionClosing(p: Pool, a: Action)
    requires Enabled(p, a)
    ensures !Apply(p, a).server.closed && p.carried.closing == multiset{} ==> Apply(p, a).carried.closing == multiset{}
  {
    hide Without;
  }

  lemma MovedKeeps(s: Limited, limit: nat, m: Move)
    requires limit > 0 && Bounded(s, limit) && Allowed(s, limit, m)
    ensures Bounded(Moved(s, limit, m), limit)
  {
    hide Apply, Enabled;
    if m.Does? {
      ActionLoad(s.pool, m.action);
      ActionUnlisted(s.pool, m.action);
      ActionClosing(s.pool, m.action);
    }
  }

  lemma {:induction false} PlayedKeeps(s: Limited, limit: nat, moves: seq<Move>)
    requires limit > 0 && Bounded(s, limit) && Inv(s.pool) && Plays(s, limit, moves)
    ensures Bounded(Played(s, limit, moves), limit) && Inv(Played(s, limit, moves).pool)
    decreases |moves|
  {
    hide Bounded, Inv, Apply, Enabled;
    if moves != [] {
      MovedKeeps(s, limit, moves[0]);
      if moves[0].Does? { KeepsInv(s.pool, moves[0].action); }
      PlayedKeeps(Moved(s, limit, moves[0]), limit, moves[1..]);
    }
  }

  /** The working sockets with references. */
  ghost function Working(p: Pool): set<Id> { set x | x in p.sockets.refs && p.sockets.refs[x] > 0 && x !in p.sockets.dead }

  /**
   * In every interleaving with the limit: the listed sockets and those to be listed, and so the
   * working sockets in use while the server is open, are at most the limit less one and as many
   * as have been connecting at once. One at a time keeps the limit.
   */
  lemma LimitBound(limit: nat, moves: seq<Move>)
    requires limit > 0 && Plays(FRESH, limit, moves)
    ensures var s := Played(FRESH, limit, moves);
      && |s.pool.server.live| + s.connecting <= (if s.peak == 0 then 0 else limit - 1 + s.peak)
      && (!s.pool.server.closed ==> |Working(s.pool)| <= (if s.peak == 0 then 0 else limit - 1 + s.peak))
  {
    hide Plays, Played, Working, Inv;
    EmptyInv();
    PlayedKeeps(FRESH, limit, moves);
    var s := Played(FRESH, limit, moves);
    if !s.pool.server.closed { WorkingListed(s.pool); }
  }

  /** While the server is open a working socket in use is listed or about to be. */
  lemma WorkingListed(p: Pool)
    requires Inv(p) && p.carried.closing == multiset{}
    ensures |Working(p)| <= |p.server.live| + |p.carried.unlisted|
  {
    var all := multiset(p.server.live) + p.carried.unlisted;
    forall x | x in Working(p) ensures x in all {
      assert ClosersRight(p, x);
    }
    SubsetSize(Working(p), all);
  }

  lemma {:induction false} SubsetSize(s: set<Id>, m: multiset<Id>)
    requires forall x :: x in s ==> x in m
    ensures |s| <= |m|
    decreases |s|
  {
    if s != {} {
      var x :| x in s;
      var rest := m - multiset{x};
      forall y | y in s - {x} ensures y in rest { assert m[y] > 0; }
      SubsetSize(s - {x}, m[x := 0]);
      assert |m[x := 0]| == |m| - m[x];
    }
  }

  // ------------------------------------------------------------------ the bound is reached

  ghost predicate Reaches(s: Limited, limit: nat, t: Limited) {
    exists moves :: Plays(s, limit, moves) && Played(s, limit, moves) == t
  }

  lemma ReachesItself(s: Limited, limit: nat)
    ensures Reaches(s, limit, s)
  {
    assert Plays(s, limit, []) && Played(s, limit, []) == s;
  }

  lemma OneMove(s: Limited, limit: nat, m: Move, t: Limited)
    requires Allowed(s, limit, m) && Reaches(Moved(s, limit, m), limit, t)
    ensures Reaches(s, limit, t)
  {
    hide Allowed, Moved;
    var moves :| Plays(Moved(s, limit, m), limit, moves) && Played(Moved(s, limit, m), limit, moves) == t;
    var all := [m] + moves;
    assert all[1..] == moves;
    assert Plays(s, limit, all) && Played(s, limit, all) == t;
  }

  /** Sockets 0 to n - 1 with one reference each. */
  ghost function OnceEach(n: nat): (refs: map<Id, nat>)
    ensures forall x: Id :: x in refs <==> x < n
  {
    if n == 0 then map[] else OnceEach(n - 1)[n - 1 := 1]
  }

  /** n sockets connected, listed and in use, and nothing else. */
  ghost function Full(n: nat): Pool {
    Pool(Server([], seq(n, i => i), false), Sockets(OnceEach(n), {}),
         Carried(multiset{}, multiset{}, multiset{}, multiset{}, multiset{}), multiset(seq(n, i => i)), false)
  }

  lemma OneMore(n: nat)
    ensures Enabled(Full(n), Connect(n)) && Enabled(ConnectStep(Full(n), n), List(n))
    ensures Apply(ConnectStep(Full(n), n), List(n)) == Full(n + 1)
  {
    var p := Apply(ConnectStep(Full(n), n), List(n));
    assert seq(n + 1, i => i) == seq(n, i => i) + [n];
    assert p.sockets.refs == Full(n + 1).sockets.refs;
    assert p.carried.unlisted == multiset{};
  }

  /** An acquire that has passed connects and lists its socket. */
  lemma Finishes(n: nat, limit: nat, c: nat, peak: nat, t: Limited)
    requires c > 0 && Reaches(Limited(Full(n + 1), c - 1, peak), limit, t)
    ensures Reaches(Limited(Full(n), c, peak), limit, t)
  {
    hide Reaches, Full;
    OneMore(n);
    var s := Limited(Full(n), c, peak);
    FullIs(n);
    var mid := Moved(s, limit, Does(Connect(n)));
    assert mid.pool == ConnectStep(Full(n), n);
    OneMove(mid, limit, Does(List(n)), t);
    OneMove(s, limit, Does(Connect(n)), t);
  }

  lemma FullIs(n: nat)
    ensures var p := Full(n);
      && p.carried.unlisted == multiset{} && |p.server.live| == n && p.server.unused == [] && !p.server.closed
  {
  }

  /** All that have passed finish. */
  lemma {:induction false} AllFinish(n: nat, limit: nat, c: nat, peak: nat)
    ensures Reaches(Limited(Full(n), c, peak), limit, Limited(Full(n + c), 0, peak))
    decreases c
  {
    hide Reaches, Full;
    if c == 0 {
      ReachesItself(Limited(Full(n), 0, peak), limit);
    } else {
      AllFinish(n + 1, limit, c - 1, peak);
      Finishes(n, limit, c, peak, Limited(Full(n + c), 0, peak));
    }
  }

  /** Below the limit any number of acquires can pass before the first of them lists its socket. */
  lemma {:induction false} AllPass(n: nat, limit: nat, c: nat, target: nat, t: Limited)
    requires n < limit && c <= target && target > 0
    requires Reaches(Limited(Full(n), target, target), limit, t)
    ensures c > 0 ==> Reaches(Limited(Full(n), c, c), limit, t)
    ensures c == 0 ==> Reaches(Limited(Full(n), 0, 0), limit, t) && Reaches(Limited(Full(n), 0, 1), limit, t)
    decreases target - c
  {
    hide Reaches, Full;
    FullIs(n);
    if c < target {
      AllPass(n, limit, c + 1, target, t);
      if c > 0 {
        OneMove(Limited(Full(n), c, c), limit, Passes, t);
      } else {
        OneMove(Limited(Full(n), 0, 0), limit, Passes, t);
        OneMove(Limited(Full(n), 0, 1), limit, Passes, t);
      }
    }
  }

  /** One at a time the list fills up to the limit less one. */
  lemma {:induction false} FillsUp(n: nat, limit: nat, peak: nat, t: Limited)
    requires n < limit && peak <= 1 && (n > 0 ==> peak == 1)
    requires Reaches(Limited(Full(limit - 1), 0, 1), limit, t) && (limit == 1 ==> Reaches(Limited(Full(0), 0, 0), limit, t))
    ensures Reaches(Limited(Full(n), 0, peak), limit, t)
    decreases limit - n
  {
    hide Reaches, Full;
    if n < limit - 1 {
      FullIs(n);
      FillsUp(n + 1, limit, 1, t);
      Finishes(n, limit, 1, 1, t);
      OneMove(Limited(Full(n), 0, peak), limit, Passes, t);
    }
  }

  /** For every limit and every number of overlapping acquires there is an interleaving that reaches the bound. */
  lemma LimitReached(limit: nat, overlap: nat)
    requires limit > 0 && overlap > 0
    ensures exists moves :: Plays(FRESH, limit, moves) && (var s := Played(FRESH, limit, moves);
      s.peak == overlap && s.connecting == 0 && |s.pool.server.live| == limit - 1 + overlap && !s.pool.server.closed)
  {
    var t := Limited(Full(limit - 1 + overlap), 0, overlap);
    FullIs(limit - 1 + overlap);
    assert Empty() == Full(0);
    hide Full, Plays, Played;
    AllFinish(limit - 1, limit, overlap, overlap);
    AllPass(limit - 1, limit, 0, overlap, t);
    FillsUp(0, limit, 0, t);
    var moves :| Plays(FRESH, limit, moves) && Played(FRESH, limit, moves) == t;
  }
}
