/**
 * A server's socket pool. Each section under the server's lock or a socket's lock
 * is one action; what a goroutine carries from one section to the next is kept in
 * the state, so actions of any number of goroutines may come in any order.
 */
module SocketPool {
  type Id = nat

  /** Under the server's lock. */
  datatype Server = Server(unused: seq<Id>, live: seq<Id>, closed: bool)

  /** Under each socket's lock. */
  datatype Sockets = Sockets(refs: map<Id, nat>, dead: set<Id>)

  /**
   * Carried between two sections: popped but not acquired, released but not
   * recycled, killed but not reported, to be closed, connected but not listed.
   */
  datatype Carried = Carried(taken: multiset<Id>, recycling: multiset<Id>, abending: multiset<Id>,
                             closing: multiset<Id>, unlisted: multiset<Id>)

  /** `held` counts the references handed out and not given back. */
  datatype Pool = Pool(server: Server, sockets: Sockets, carried: Carried, held: multiset<Id>, panicked: bool)

  datatype Action =
    | Take
    | InitialAcquire(x: Id)
    | Connect(x: Id)
    | List(x: Id)
    | Acquire(x: Id)
    | Release(x: Id)
    | Recycle(x: Id)
    | Kill(x: Id, abend: bool)
    | CloseSocket(x: Id)
    | Abend(x: Id)
    | CloseServer

  function Without(s: seq<Id>, x: Id): seq<Id> {
    if s == [] then [] else if s[0] == x then s[1..] else [s[0]] + Without(s[1..], x)
  }

  /** Sockets are acquired and released only through references in hand. */
  predicate Enabled(p: Pool, a: Action) {
    match a
    case Take => !p.server.closed && p.server.unused != []
    case InitialAcquire(x) => x in p.carried.taken && x in p.sockets.refs
    case Connect(x) => x !in p.sockets.refs
    case List(x) => x in p.carried.unlisted
    case Acquire(x) => x in p.held && x in p.sockets.refs
    case Release(x) => x in p.held && x in p.sockets.refs
    case Recycle(x) => x in p.carried.recycling
    case Kill(x, _) => x in p.sockets.refs
    case CloseSocket(x) => x in p.carried.closing
    case Abend(x) => x in p.carried.abending
    case CloseServer => true
  }

  function TakeStep(p: Pool): Pool
    requires p.server.unused != []
  {
    var n := |p.server.unused| - 1;
    p.(server := p.server.(unused := p.server.unused[..n]),
       carried := p.carried.(taken := p.carried.taken + multiset{p.server.unused[n]}))
  }

  /** InitialAcquire; a popped socket with references would be the panic, a dead one is dropped. */
  function InitialStep(p: Pool, x: Id): Pool
    requires x in p.sockets.refs
  {
    var c := p.carried.(taken := p.carried.taken - multiset{x});
    if p.sockets.refs[x] > 0 then p.(panicked := true)
    else if x in p.sockets.dead then p.(carried := c)
    else p.(carried := c, sockets := p.sockets.(refs := p.sockets.refs[x := 1]), held := p.held + multiset{x})
  }

  function ConnectStep(p: Pool, x: Id): Pool {
    p.(sockets := p.sockets.(refs := p.sockets.refs[x := 1]), held := p.held + multiset{x},
       carried := p.carried.(unlisted := p.carried.unlisted + multiset{x}))
  }

  /** After connecting: on the list of live sockets, or to be closed if the server was closed meanwhile. */
  function ListStep(p: Pool, x: Id): Pool {
    var c := p.carried.(unlisted := p.carried.unlisted - multiset{x});
    if p.server.closed then p.(carried := c.(closing := c.closing + multiset{x}))
    else p.(carried := c, server := p.server.(live := p.server.live + [x]))
  }

  function AcquireStep(p: Pool, x: Id): Pool
    requires x in p.sockets.refs
  {
    if p.sockets.refs[x] == 0 then p.(panicked := true)
    else p.(sockets := p.sockets.(refs := p.sockets.refs[x := p.sockets.refs[x] + 1]), held := p.held + multiset{x})
  }

  /** The last reference to a working socket sends it back to its server. */
  function ReleaseStep(p: Pool, x: Id): Pool
    requires x in p.sockets.refs
  {
    var n := p.sockets.refs[x];
    if n == 0 then p.(panicked := true)
    else
      var q := p.(sockets := p.sockets.(refs := p.sockets.refs[x := n - 1]), held := p.held - multiset{x});
      if n == 1 && x !in p.sockets.dead then q.(carried := p.carried.(recycling := p.carried.recycling + multiset{x})) else q
  }

  function RecycleStep(p: Pool, x: Id): Pool {
    var q := p.(carried := p.carried.(recycling := p.carried.recycling - multiset{x}));
    if p.server.closed then q else q.(server := p.server.(unused := p.server.unused + [x]))
  }

  /** A second kill does nothing; the first takes the socket's server away, so a later release does not recycle. */
  function KillStep(p: Pool, x: Id, abend: bool): Pool {
    if x in p.sockets.dead then p
    else
      var q := p.(sockets := p.sockets.(dead := p.sockets.dead + {x}));
      if abend then q.(carried := p.carried.(abending := p.carried.abending + multiset{x})) else q
  }

  function AbendStep(p: Pool, x: Id): Pool {
    var q := p.(carried := p.carried.(abending := p.carried.abending - multiset{x}));
    if p.server.closed then q
    else q.(server := p.server.(live := Without(p.server.live, x), unused := Without(p.server.unused, x)))
  }

  function CloseStep(p: Pool): Pool {
    p.(server := Server([], [], true), carried := p.carried.(closing := p.carried.closing + multiset(p.server.live)))
  }

  function Apply(p: Pool, a: Action): Pool
    requires Enabled(p, a)
  {
    match a
    case Take => TakeStep(p)
    case InitialAcquire(x) => InitialStep(p, x)
    case Connect(x) => ConnectStep(p, x)
    case List(x) => ListStep(p, x)
    case Acquire(x) => AcquireStep(p, x)
    case Release(x) => ReleaseStep(p, x)
    case Recycle(x) => RecycleStep(p, x)
    case Kill(x, abend) => KillStep(p, x, abend)
    case CloseSocket(x) => KillStep(p.(carried := p.carried.(closing := p.carried.closing - multiset{x})), x, false)
    case Abend(x) => AbendStep(p, x)
    case CloseServer => CloseStep(p)
  }

  ghost predicate Runs(p: Pool, acts: seq<Action>)
    decreases |acts|
  {
    acts == [] || (Enabled(p, acts[0]) && Runs(Apply(p, acts[0]), acts[1..]))
  }

  ghost function Run(p: Pool, acts: seq<Action>): Pool
    requires Runs(p, acts)
    decreases |acts|
  {
    if acts == [] then p else Run(Apply(p, acts[0]), acts[1..])
  }

  function Empty(): Pool {
    Pool(Server([], [], false), Sockets(map[], {}),
         Carried(multiset{}, multiset{}, multiset{}, multiset{}, multiset{}), multiset{}, false)
  }

  // --------------------------------------------------------------------------- invariant

  ghost predicate InUse(k: Sockets, x: Id) { x in k.refs && k.refs[x] > 0 }

  /** The places a socket can be idle in, or in use: one token for each. */
  ghost function Tokens(p: Pool, x: Id): nat {
    multiset(p.server.unused)[x] + p.carried.taken[x] + p.carried.recycling[x] + (if InUse(p.sockets, x) then 1 else 0)
  }

  /** One socket is in one place at most; while the server is open a working socket is never lost. */
  ghost predicate TokenRight(p: Pool, x: Id) {
    && Tokens(p, x) <= (if x in p.sockets.refs then 1 else 0)
    && (!p.server.closed && x in p.sockets.refs && x !in p.sockets.dead ==> Tokens(p, x) == 1)
  }

  ghost predicate RefsRight(p: Pool, x: Id) {
    p.held[x] == if x in p.sockets.refs then p.sockets.refs[x] else 0
  }

  ghost function Closers(p: Pool, x: Id): nat {
    multiset(p.server.live)[x] + p.carried.closing[x] + p.carried.unlisted[x]
  }

  /** Who may still have to close a socket: the list, the closer, or the one who connected. */
  ghost predicate ClosersRight(p: Pool, x: Id) {
    && Closers(p, x) <= (if x in p.sockets.refs then 1 else 0)
    && (x in p.sockets.refs && x !in p.sockets.dead ==> Closers(p, x) == 1)
  }

  ghost predicate DeadRight(p: Pool, x: Id) {
    && (x in p.sockets.dead ==> x in p.sockets.refs)
    && (x in p.carried.abending ==> x in p.sockets.dead)
  }

  ghost predicate ServerRight(v: Server) { v.closed ==> v.unused == [] && v.live == [] }

  ghost predicate Inv(p: Pool) {
    && !p.panicked && ServerRight(p.server)
    && forall x :: TokenRight(p, x) && RefsRight(p, x) && ClosersRight(p, x) && DeadRight(p, x)
  }

  lemma {:induction false} WithoutCounts(s: seq<Id>, x: Id, y: Id)
    ensures multiset(Without(s, x))[y] == if x == y && x in s then multiset(s)[y] - 1 else multiset(s)[y]
    decreases |s|
  {
    if s != [] {
      assert s == [s[0]] + s[1..];
      if s[0] != x { WithoutCounts(s[1..], x, y); }
    }
  }

  lemma WithoutStep(s: seq<Id>, x: Id, i: nat)
    requires i < |s|
    ensures s[i] == x ==> Without(s[i..], x) == s[i + 1..]
    ensures s[i] != x ==> s[..i] + Without(s[i..], x) == s[..i + 1] + Without(s[i + 1..], x)
  {
    assert s[i..][1..] == s[i + 1..] && s[i..][0] == s[i];
    if s[i] != x {
      var rest := Without(s[i + 1..], x);
      assert Without(s[i..], x) == [s[i]] + rest;
      assert s[..i] + ([s[i]] + rest) == s[..i + 1] + rest;
    }
  }

  lemma WithoutNone(s: seq<Id>, x: Id)
    ensures s[..|s|] + Without(s[|s|..], x) == s
  {
    assert s[|s|..] == [] && s[..|s|] == s;
  }

  lemma LastCounts(s: seq<Id>, y: Id)
    requires s != []
    ensures var n := |s| - 1; multiset(s[..n])[y] == multiset(s)[y] - if s[n] == y then 1 else 0
  {
    var n := |s| - 1;
    assert s == s[..n] + [s[n]];
  }

  // ------------------------------------------------------------------ every action keeps it

  lemma TakeKeeps(p: Pool, y: Id)
    requires p.server.unused != [] && TokenRight(p, y)
    ensures TokenRight(TakeStep(p), y)
  {
    hide InUse;
    LastCounts(p.server.unused, y);
  }

  lemma InitialKeeps(p: Pool, x: Id, y: Id)
    requires x in p.sockets.refs && x in p.carried.taken && TokenRight(p, y) && TokenRight(p, x)
    ensures TokenRight(InitialStep(p, x), y) && !InUse(p.sockets, x)
  {
  }

  lemma AcquireKeeps(p: Pool, x: Id, y: Id)
    requires x in p.sockets.refs && TokenRight(p, y)
    ensures TokenRight(AcquireStep(p, x), y)
  {
  }

  lemma ReleaseKeeps(p: Pool, x: Id, y: Id)
    requires x in p.sockets.refs && TokenRight(p, y)
    ensures TokenRight(ReleaseStep(p, x), y)
  {
  }

  lemma RecycleKeeps(p: Pool, x: Id, y: Id)
    requires x in p.carried.recycling && TokenRight(p, y)
    ensures TokenRight(RecycleStep(p, x), y)
  {
    hide InUse;
  }

  lemma ListKeeps(p: Pool, x: Id, y: Id)
    requires TokenRight(p, y)
    ensures TokenRight(ListStep(p, x), y)
  {
    hide InUse;
  }

  lemma KillKeeps(p: Pool, x: Id, abend: bool, y: Id)
    requires TokenRight(p, y)
    ensures TokenRight(KillStep(p, x, abend), y)
  {
  }

  /** Only a dead socket is taken off the lists. */
  lemma AbendKeeps(p: Pool, x: Id, y: Id)
    requires TokenRight(p, y) && x in p.sockets.dead
    ensures TokenRight(AbendStep(p, x), y)
  {
    hide InUse;
    WithoutCounts(p.server.unused, x, y);
  }

  lemma CloseKeeps(p: Pool, y: Id)
    requires TokenRight(p, y)
    ensures TokenRight(CloseStep(p), y)
  {
    hide InUse;
  }

  lemma ConnectKeeps(p: Pool, x: Id, y: Id)
    requires x !in p.sockets.refs && TokenRight(p, y)
    ensures TokenRight(ConnectStep(p, x), y)
  {
  }

  lemma KeepsTokens(p: Pool, a: Action, y: Id)
    requires Enabled(p, a) && Inv(p)
    ensures TokenRight(Apply(p, a), y)
  {
    assert TokenRight(p, y);
    hide TokenRight, TakeStep, InitialStep, ListStep, AcquireStep, ReleaseStep, RecycleStep, KillStep, AbendStep, CloseStep, ConnectStep;
    match a
    case Take => TakeKeeps(p, y);
    case InitialAcquire(x) =>
      assert TokenRight(p, x);
      InitialKeeps(p, x, y);
    case Connect(x) => ConnectKeeps(p, x, y);
    case List(x) => ListKeeps(p, x, y);
    case Acquire(x) => AcquireKeeps(p, x, y);
    case Release(x) => ReleaseKeeps(p, x, y);
    case Recycle(x) => RecycleKeeps(p, x, y);
    case Kill(x, abend) => KillKeeps(p, x, abend, y);
    case CloseSocket(x) =>
      UnclosingKeeps(p, x, y);
      KillKeeps(p.(carried := p.carried.(closing := p.carried.closing - multiset{x})), x, false, y);
    case Abend(x) =>
      assert DeadRight(p, x);
      AbendKeeps(p, x, y);
    case CloseServer => CloseKeeps(p, y);
  }

  lemma UnclosingKeeps(p: Pool, x: Id, y: Id)
    requires TokenRight(p, y)
    ensures TokenRight(p.(carried := p.carried.(closing := p.carried.closing - multiset{x})), y)
  {
    hide InUse;
  }

  /** References stay equal to the holders, so neither panic of the reference count happens. */
  lemma KeepsRefs(p: Pool, a: Action, y: Id)
    requires Enabled(p, a) && RefsRight(p, y)
    ensures RefsRight(Apply(p, a), y)
  {
    hide Without;
  }

  /** Steps that list, kill and close nothing. */
  lemma SameClosers(p: Pool, q: Pool, y: Id)
    requires ClosersRight(p, y) && Closers(q, y) == Closers(p, y)
    requires (y in q.sockets.refs <==> y in p.sockets.refs) && (y in p.sockets.dead ==> y in q.sockets.dead)
    ensures ClosersRight(q, y)
  {
    hide Closers;
  }

  lemma ListCloses(p: Pool, x: Id, y: Id)
    requires x in p.carried.unlisted
    ensures Closers(ListStep(p, x), y) == Closers(p, y)
  {
  }

  lemma AbendCloses(p: Pool, x: Id, y: Id)
    requires ClosersRight(p, y) && x in p.sockets.dead
    ensures ClosersRight(AbendStep(p, x), y)
  {
    WithoutCounts(p.server.live, x, y);
  }

  lemma KillCloses(p: Pool, x: Id, y: Id)
    requires ClosersRight(p, y)
    ensures ClosersRight(KillStep(p.(carried := p.carried.(closing := p.carried.closing - multiset{x})), x, false), y)
  {
  }

  lemma ConnectCloses(p: Pool, x: Id, y: Id)
    requires ClosersRight(p, y) && x !in p.sockets.refs && DeadRight(p, x)
    ensures ClosersRight(ConnectStep(p, x), y)
  {
  }

  lemma KeepsClosers(p: Pool, a: Action, y: Id)
    requires Enabled(p, a) && ClosersRight(p, y) && forall x :: DeadRight(p, x)
    ensures ClosersRight(Apply(p, a), y)
  {
    hide ClosersRight, ListStep, AbendStep, ConnectStep, Without;
    match a
    case Connect(x) => ConnectCloses(p, x, y);
    case List(x) =>
      ListCloses(p, x, y);
      ListFrame(p, x);
      SameClosers(p, Apply(p, a), y);
    case CloseSocket(x) => KillCloses(p, x, y);
    case Abend(x) =>
      assert DeadRight(p, x);
      AbendCloses(p, x, y);
    case Kill(x, abend) => SameClosers(p, KillStep(p, x, abend), y);
    case CloseServer => SameClosers(p, CloseStep(p), y);
    case _ => QuietCloses(p, a, y);
  }

  lemma QuietCloses(p: Pool, a: Action, y: Id)
    requires Enabled(p, a) && ClosersRight(p, y)
    requires a.Take? || a.InitialAcquire? || a.Acquire? || a.Release? || a.Recycle?
    ensures ClosersRight(Apply(p, a), y)
  {
    hide ClosersRight, ListStep, AbendStep, ConnectStep, Without, KillStep, CloseStep;
    SameClosers(p, Apply(p, a), y);
  }

  lemma ListFrame(p: Pool, x: Id)
    ensures ListStep(p, x).sockets == p.sockets
  {
  }

  lemma KeepsDead(p: Pool, a: Action, y: Id)
    requires Enabled(p, a) && DeadRight(p, y) && ClosersRight(p, y)
    ensures DeadRight(Apply(p, a), y)
  {
    hide Without;
  }

  lemma KeepsServer(p: Pool, a: Action)
    requires Enabled(p, a) && ServerRight(p.server)
    ensures ServerRight(Apply(p, a).server)
  {
  }

  lemma NoPanic(p: Pool, a: Action)
    requires Enabled(p, a) && Inv(p)
    ensures !Apply(p, a).panicked
  {
    hide Without;
    match a
    case InitialAcquire(x) =>
      assert TokenRight(p, x);
      InitialKeeps(p, x, x);
    case Acquire(x) => assert RefsRight(p, x);
    case Release(x) => assert RefsRight(p, x);
    case _ =>
  }

  lemma KeepsInv(p: Pool, a: Action)
    requires Inv(p) && Enabled(p, a)
    ensures Inv(Apply(p, a))
  {
    var q := Apply(p, a);
    NoPanic(p, a);
    KeepsServer(p, a);
    assert forall x :: TokenRight(p, x) && RefsRight(p, x) && ClosersRight(p, x) && DeadRight(p, x);
    hide TokenRight, RefsRight, ClosersRight, DeadRight, Apply, Enabled, ServerRight;
    forall y ensures TokenRight(q, y) && RefsRight(q, y) && ClosersRight(q, y) && DeadRight(q, y) {
      KeepsTokens(p, a, y);
      KeepsRefs(p, a, y);
      KeepsClosers(p, a, y);
      KeepsDead(p, a, y);
    }
  }

  // ------------------------------------------------------------------------- whole runs

  lemma EmptyInv()
    ensures Inv(Empty())
  {
  }

  lemma {:induction false} RunKeepsInv(p: Pool, acts: seq<Action>)
    requires Inv(p) && Runs(p, acts)
    ensures Inv(Run(p, acts))
    decreases |acts|
  {
    hide Inv, Apply, Enabled;
    if acts != [] {
      KeepsInv(p, acts[0]);
      RunKeepsInv(Apply(p, acts[0]), acts[1..]);
    }
  }

  /**
   * In every interleaving: none of the three reference panics has happened, a
   * socket is in the unused list at most once and only without references, and
   * references equal the holders.
   */
  lemma PoolIsSafe(acts: seq<Action>, x: Id)
    requires Runs(Empty(), acts)
    ensures var p := Run(Empty(), acts);
      && !p.panicked && multiset(p.server.unused)[x] <= 1
      && (x in p.server.unused ==> p.held[x] == 0)
      && (x in p.sockets.refs ==> p.sockets.refs[x] == p.held[x])
  {
    hide Runs, Run, Empty;
    EmptyInv();
    RunKeepsInv(Empty(), acts);
    var p := Run(Empty(), acts);
    assert TokenRight(p, x) && RefsRight(p, x);
  }

  /** While the server is open, a working socket is in use, idle in the list, or on its way in or out of it. */
  lemma NothingLost(acts: seq<Action>, x: Id)
    requires Runs(Empty(), acts)
    ensures var p := Run(Empty(), acts);
      x in p.sockets.refs && x !in p.sockets.dead && !p.server.closed ==>
        p.held[x] > 0 || x in p.server.unused || x in p.carried.taken || x in p.carried.recycling
  {
    hide Runs, Run, Empty;
    EmptyInv();
    RunKeepsInv(Empty(), acts);
    var p := Run(Empty(), acts);
    assert TokenRight(p, x) && RefsRight(p, x);
  }

  /** Once a closed server's closers are done, every socket is dead and none can be taken from it. */
  lemma CloseReachesAll(acts: seq<Action>, x: Id)
    requires Runs(Empty(), acts)
    ensures var p := Run(Empty(), acts);
      p.server.closed && p.carried.closing == multiset{} && p.carried.unlisted == multiset{} ==>
        p.server.unused == [] && (x in p.sockets.refs ==> x in p.sockets.dead)
  {
    hide Runs, Run, Empty;
    EmptyInv();
    RunKeepsInv(Empty(), acts);
    var p := Run(Empty(), acts);
    assert ClosersRight(p, x);
  }

  // ----------------------------------------------- the objects that take these steps in place

  datatype Taken = Nothing | Refused | Socket(x: Id)

  /** A server's lists, changed in place under its lock. */
  class ServerObject {
    var unusedSockets: seq<Id>
    var liveSockets: seq<Id>
    var closed: bool

    /** The object stands for the server of a pool state. */
    ghost predicate Is(v: Server)
      reads this
    {
      Server(unusedSockets, liveSockets, closed) == v
    }

    /** The first section of AcquireSocket: refuses after close or at the limit, pops the last unused socket, or finds none. */
    method TakeUnused(poolLimit: int, ghost p: Pool) returns (t: Taken)
      requires Is(p.server)
      modifies this
      ensures t == Refused <==> closed || (poolLimit > 0 && |p.server.live| - |p.server.unused| >= poolLimit)
      ensures t == Nothing ==> p.server.unused == []
      ensures t.Socket? ==> Enabled(p, Take) && Is(TakeStep(p).server) && t.x == p.server.unused[|p.server.unused| - 1]
      ensures !t.Socket? ==> Is(p.server)
    {
      if closed { return Refused; }
      var n := |unusedSockets|;
      if poolLimit > 0 && |liveSockets| - n >= poolLimit { return Refused; }
      if n == 0 { return Nothing; }
      t := Socket(unusedSockets[n - 1]);
      unusedSockets := unusedSockets[..n - 1];
    }

    /** The second section of AcquireSocket, after connecting. */
    method ListSocket(x: Id, ghost p: Pool) returns (ok: bool)
      requires Is(p.server)
      modifies this
      ensures Is(ListStep(p, x).server) && (ok <==> !p.server.closed)
    {
      if closed { return false; }
      liveSockets := liveSockets + [x];
      ok := true;
    }

    method RecycleSocket(x: Id, ghost p: Pool)
      requires Is(p.server)
      modifies this
      ensures Is(RecycleStep(p, x).server)
    {
      if !closed { unusedSockets := unusedSockets + [x]; }
    }

    /** removeSocket: closes the gap over the first occurrence. */
    static method RemoveSocket(sockets: seq<Id>, x: Id) returns (r: seq<Id>)
      ensures r == Without(sockets, x)
    {
      hide Without;
      var i := 0;
      assert sockets[..0] + Without(sockets[0..], x) == Without(sockets, x) by { assert sockets[0..] == sockets; }
      while i < |sockets|
        invariant 0 <= i <= |sockets| && Without(sockets, x) == sockets[..i] + Without(sockets[i..], x)
      {
        WithoutStep(sockets, x, i);
        if sockets[i] == x {
          return sockets[..i] + sockets[i + 1..];
        }
        i := i + 1;
      }
      WithoutNone(sockets, x);
      r := sockets;
    }

    method AbendSocket(x: Id, ghost p: Pool)
      requires Is(p.server)
      modifies this
      ensures Is(AbendStep(p, x).server)
    {
      if closed { return; }
      liveSockets := RemoveSocket(liveSockets, x);
      unusedSockets := RemoveSocket(unusedSockets, x);
    }

    /** Close under the lock; the sockets it returns are closed one by one afterwards. */
    method Close(ghost p: Pool) returns (live: seq<Id>)
      requires Is(p.server)
      modifies this
      ensures Is(CloseStep(p).server) && live == p.server.live
    {
      live := liveSockets;
      closed, liveSockets, unusedSockets := true, [], [];
    }
  }

  /** One socket, changed in place under its own lock; `attached` is its reference to the server. */
  class SocketObject {
    var references: nat
    var dead: bool
    var attached: bool

    ghost predicate Is(k: Sockets, x: Id)
      reads this
    {
      x in k.refs && k.refs[x] == references && (dead <==> x in k.dead) && attached == !dead
    }

    method InitialAcquire(x: Id, ghost p: Pool) returns (panicked: bool, failed: bool)
      requires Is(p.sockets, x) && !p.panicked
      modifies this
      ensures panicked == InitialStep(p, x).panicked && (!panicked ==> Is(InitialStep(p, x).sockets, x) && failed == dead)
    {
      if references > 0 { return true, true; }
      if dead { return false, true; }
      references := references + 1;
      panicked, failed := false, false;
    }

    method Acquire(x: Id, ghost p: Pool) returns (panicked: bool)
      requires Is(p.sockets, x) && !p.panicked
      modifies this
      ensures panicked == AcquireStep(p, x).panicked && (!panicked ==> Is(AcquireStep(p, x).sockets, x))
    {
      if references == 0 { return true; }
      references := references + 1;
      panicked := false;
    }

    /** Says whether the server is to recycle the socket. */
    method Release(x: Id, ghost p: Pool) returns (panicked: bool, recycle: bool)
      requires Is(p.sockets, x) && !p.panicked
      modifies this
      ensures panicked == ReleaseStep(p, x).panicked && (!panicked ==> Is(ReleaseStep(p, x).sockets, x))
      ensures !panicked ==> ReleaseStep(p, x).carried.recycling == p.carried.recycling + if recycle then multiset{x} else multiset{}
    {
      if references == 0 { return true, false; }
      references := references - 1;
      panicked, recycle := false, references == 0 && attached;
      assert p.carried.recycling + multiset{} == p.carried.recycling;
    }

    /** Says whether the server is to be told; by then the socket has let go of it. */
    method Kill(x: Id, abend: bool, ghost p: Pool) returns (report: bool)
      requires Is(p.sockets, x)
      modifies this
      ensures Is(KillStep(p, x, abend).sockets, x)
      ensures KillStep(p, x, abend).carried.abending == p.carried.abending + if report then multiset{x} else multiset{}
    {
      assert p.carried.abending + multiset{} == p.carried.abending;
      if dead { return false; }
      dead := true;
      attached := false;
      report := abend;
    }
  }
}
