/**
 * One iteration of the cluster's topology synchronization. Every goroutine is a
 * task that moves through phases; each critical section of the source is one
 * action, and actions of different tasks, and removals from outside the
 * iteration, may come in any order.
 */
module ClusterSync {
  type Addr = int

  /** A server object; two objects can exist for one address over time. */
  datatype Server = Server(addr: Addr, id: nat)

  /**
   * A goroutine of the iteration. Contact, Found, Synced and Adding hold the claim
   * on their address; Promoting adds a server that had been put aside.
   */
  datatype Task =
    | Resolving(byMaster: bool)
    | Resolved(addr: Addr, byMaster: bool)
    | Contact(addr: Addr)
    | Found(server: Server)
    | Failing(server: Server)
    | Synced(server: Server, master: bool, hosts: nat)
    | Adding(server: Server, master: bool, hosts: nat)
    | Spawning(master: bool, hosts: nat)
    | Promoting(server: Server, master: bool)
    | Finished

  datatype Pending = Pending(server: Server, master: bool)

  /** Under the cluster lock. `masters` is a list that could hold a server twice. */
  datatype Cluster = Cluster(servers: map<Addr, Server>, masters: multiset<Addr>, info: map<Server, bool>, panicked: bool)

  /** Under the iteration's own lock. */
  datatype Book = Book(notYetAdded: map<Addr, Pending>, addIfFound: set<Addr>, seen: set<Addr>, complete: bool)

  /** What has happened so far. */
  datatype Past = Past(reported: set<Addr>, contacted: multiset<Addr>, added: multiset<Addr>, failed: set<Addr>, swept: set<Addr>)

  datatype State = State(direct: bool, cluster: Cluster, book: Book, tasks: seq<Task>, nextId: nat, past: Past)

  datatype Action =
    | Resolve(i: nat, addr: Addr)
    | NoAddress(i: nat)
    | Claim(i: nat)
    | Find(i: nat)
    | AnswerFails(i: nat)
    | Answers(i: nat, isMaster: bool, count: nat)
    | Remove(i: nat)
    | Decide(i: nat)
    | Add(i: nat)
    | Spawn(i: nat)
    | Promote(i: nat)
    | Sweep(left: Addr)
    | RemoveFromOutside(gone: Addr)

  /** A fresh server object counts as a slave until its info is set. */
  predicate IsMaster(c: Cluster, v: Server) { v in c.info && c.info[v] }

  /** removeServer: by address, whichever object is there. */
  function Drop(c: Cluster, a: Addr): Cluster {
    c.(servers := c.servers - {a}, masters := c.masters - multiset{a})
  }

  /** addServer; meeting another object for the address is the panic. */
  function AddServer(c: Cluster, v: Server, master: bool, complete: bool): Cluster {
    if v.addr !in c.servers then
      if !complete then c
      else
        c.(servers := c.servers[v.addr := v],
           masters := if master then c.masters + multiset{v.addr} else c.masters,
           info := c.info[v := master])
    else if c.servers[v.addr] != v then c.(panicked := true)
    else
      c.(masters := if IsMaster(c, v) == master then c.masters
                    else if master then c.masters + multiset{v.addr}
                    else c.masters - multiset{v.addr},
         info := c.info[v := master])
  }

  predicate AllFinished(s: State) { forall i :: 0 <= i < |s.tasks| ==> s.tasks[i].Finished? }

  /** The iteration is over: every task has finished and nothing is left for the cleanup. */
  ghost predicate Done(s: State) { AllFinished(s) && forall r :: r !in s.book.notYetAdded }

  /** What an action needs: the goroutine is there and in the right phase; the cleanup waits for all tasks. */
  predicate Enabled(s: State, a: Action) {
    match a
    case Resolve(i, _) => i < |s.tasks| && s.tasks[i].Resolving?
    case NoAddress(i) => i < |s.tasks| && s.tasks[i].Resolving?
    case Claim(i) => i < |s.tasks| && s.tasks[i].Resolved?
    case Find(i) => i < |s.tasks| && s.tasks[i].Contact?
    case AnswerFails(i) => i < |s.tasks| && s.tasks[i].Found?
    case Answers(i, _, _) => i < |s.tasks| && s.tasks[i].Found?
    case Remove(i) => i < |s.tasks| && s.tasks[i].Failing?
    case Decide(i) => i < |s.tasks| && s.tasks[i].Synced?
    case Add(i) => i < |s.tasks| && s.tasks[i].Adding?
    case Spawn(i) => i < |s.tasks| && s.tasks[i].Spawning?
    case Promote(i) => i < |s.tasks| && s.tasks[i].Promoting?
    case Sweep(r) => r in s.book.notYetAdded && AllFinished(s)
    case RemoveFromOutside(_) => true
  }

  /** The claim section: a report by a master promotes or earmarks; the first to come contacts the server. */
  function ClaimStep(s: State, i: nat): State
    requires i < |s.tasks| && s.tasks[i].Resolved?
  {
    var a, byMaster, k := s.tasks[i].addr, s.tasks[i].byMaster, s.book;
    var past := if byMaster then s.past.(reported := s.past.reported + {a}) else s.past;
    if byMaster && a in k.notYetAdded then
      var p := k.notYetAdded[a];
      s.(book := k.(notYetAdded := k.notYetAdded - {a}), past := past, tasks := s.tasks[i := Promoting(p.server, p.master)])
    else
      var marked := if byMaster then k.addIfFound + {a} else k.addIfFound;
      if a in k.seen then
        s.(book := k.(addIfFound := marked), past := past, tasks := s.tasks[i := Finished])
      else
        s.(book := k.(addIfFound := marked, seen := k.seen + {a}), past := past, tasks := s.tasks[i := Contact(a)])
  }

  function FindStep(s: State, i: nat): State
    requires i < |s.tasks| && s.tasks[i].Contact?
  {
    var r := s.tasks[i].addr;
    var past := s.past.(contacted := s.past.contacted + multiset{r});
    if r in s.cluster.servers then s.(tasks := s.tasks[i := Found(s.cluster.servers[r])], past := past)
    else s.(tasks := s.tasks[i := Found(Server(r, s.nextId))], nextId := s.nextId + 1, past := past)
  }

  function FailStep(s: State, i: nat): State
    requires i < |s.tasks| && s.tasks[i].Found?
  {
    var v := s.tasks[i].server;
    s.(past := s.past.(failed := s.past.failed + {v.addr}), tasks := s.tasks[i := Failing(v)])
  }

  function DecideStep(s: State, i: nat): State
    requires i < |s.tasks| && s.tasks[i].Synced?
  {
    var t, k := s.tasks[i], s.book;
    if s.direct || t.master || t.server.addr in k.addIfFound then
      s.(book := k.(complete := true), tasks := s.tasks[i := Adding(t.server, t.master, t.hosts)])
    else
      s.(book := k.(notYetAdded := k.notYetAdded[t.server.addr := Pending(t.server, t.master)]),
         tasks := s.tasks[i := Spawning(t.master, t.hosts)])
  }

  /** A complete addition of the server in hand. */
  function AddStep(s: State, i: nat): State
    requires i < |s.tasks| && (s.tasks[i].Adding? || s.tasks[i].Promoting?)
  {
    var t := s.tasks[i];
    s.(cluster := AddServer(s.cluster, t.server, t.master, true),
       past := s.past.(added := s.past.added + multiset{t.server.addr}),
       tasks := s.tasks[i := if t.Adding? then Spawning(t.master, t.hosts) else Finished])
  }

  function SpawnStep(s: State, i: nat): State
    requires i < |s.tasks| && s.tasks[i].Spawning?
  {
    var t := s.tasks[i];
    var rest := s.tasks[i := Finished];
    s.(tasks := if s.direct then rest else rest + seq(t.hosts, _ => Resolving(t.master)))
  }

  /** The cleanup of one entry left aside: removed after a complete iteration, offered after a partial one. */
  function SweepStep(s: State, r: Addr): State
    requires r in s.book.notYetAdded
  {
    var p := s.book.notYetAdded[r];
    s.(book := s.book.(notYetAdded := s.book.notYetAdded - {r}), past := s.past.(swept := s.past.swept + {r}),
       cluster := if s.book.complete then Drop(s.cluster, p.server.addr) else AddServer(s.cluster, p.server, p.master, false))
  }

  function Apply(s: State, a: Action): State
    requires Enabled(s, a)
  {
    match a
    case Resolve(i, addr) => s.(tasks := s.tasks[i := Resolved(addr, s.tasks[i].byMaster)])
    case NoAddress(i) => s.(tasks := s.tasks[i := Finished])
    case Claim(i) => ClaimStep(s, i)
    case Find(i) => FindStep(s, i)
    case AnswerFails(i) => FailStep(s, i)
    case Answers(i, master, hosts) => s.(tasks := s.tasks[i := Synced(s.tasks[i].server, master, hosts)])
    case Remove(i) => s.(cluster := Drop(s.cluster, s.tasks[i].server.addr), tasks := s.tasks[i := Finished])
    case Decide(i) => DecideStep(s, i)
    case Add(i) => AddStep(s, i)
    case Spawn(i) => SpawnStep(s, i)
    case Promote(i) => AddStep(s, i)
    case Sweep(r) => SweepStep(s, r)
    case RemoveFromOutside(r) => s.(cluster := Drop(s.cluster, r))
  }

  ghost predicate Runs(s: State, acts: seq<Action>)
    decreases |acts|
  {
    acts == [] || (Enabled(s, acts[0]) && Runs(Apply(s, acts[0]), acts[1..]))
  }

  ghost function Run(s: State, acts: seq<Action>): State
    requires Runs(s, acts)
    decreases |acts|
  {
    if acts == [] then s else Run(Apply(s, acts[0]), acts[1..])
  }

  /** Start of an iteration over the known addresses, with whatever servers earlier iterations left. */
  ghost predicate Initial(s: State) {
    && s.book == Book(map[], {}, {}, false)
    && s.past == Past({}, multiset{}, multiset{}, {}, {})
    && (forall i :: 0 <= i < |s.tasks| ==> s.tasks[i] == Resolving(false))
    && ServersKeyed(s.cluster) && MastersRight(s.cluster) && !s.cluster.panicked
  }

  // ----------------------------------------------------------------------- safety

  /** `masters` is exactly the members of `servers` whose info says master, each once. */
  ghost predicate MastersRight(c: Cluster) {
    forall r :: c.masters[r] == if r in c.servers && IsMaster(c, c.servers[r]) then 1 else 0
  }

  /** The address a task has claimed and not yet settled. */
  predicate Holds(t: Task, r: Addr) {
    match t
    case Contact(a) => a == r
    case Found(v) => v.addr == r
    case Synced(v, _, _) => v.addr == r
    case Adding(v, _, _) => v.addr == r
    case Promoting(v, _) => v.addr == r
    case _ => false
  }

  function Held(ts: seq<Task>, r: Addr): nat {
    if ts == [] then 0 else Held(ts[..|ts| - 1], r) + if Holds(ts[|ts| - 1], r) then 1 else 0
  }

  /** Where the claims on an address went: held by tasks, put aside, added, failed or swept. */
  ghost function Settled(s: State, r: Addr): nat {
    Held(s.tasks, r) + (if r in s.book.notYetAdded then 1 else 0) + Left(s.past, r)
  }

  ghost function Left(p: Past, r: Addr): nat {
    p.added[r] + (if r in p.failed then 1 else 0) + (if r in p.swept then 1 else 0)
  }

  /** There is one claim on a seen address and none on another. */
  ghost predicate ConservedAt(s: State, r: Addr) {
    Settled(s, r) == if r in s.book.seen then 1 else 0
  }

  /** Goroutines that have claimed an address and not contacted it yet. */
  predicate Waiting(t: Task, r: Addr) { t.Contact? && t.addr == r }

  /** The server object a task has in hand. */
  function TaskServer(t: Task): set<Server> {
    match t
    case Found(v) => {v}
    case Synced(v, _, _) => {v}
    case Adding(v, _, _) => {v}
    case Promoting(v, _) => {v}
    case _ => {}
  }

  /** No other object stands at the address of a server in hand. */
  ghost predicate Fits(c: Cluster, v: Server) {
    v.addr in c.servers ==> c.servers[v.addr] == v
  }

  ghost predicate Keyed(s: State) { ServersKeyed(s.cluster) && PendingKeyed(s.book) }

  ghost predicate ServersKeyed(c: Cluster) { forall r :: r in c.servers ==> c.servers[r].addr == r }

  ghost predicate PendingKeyed(k: Book) { forall r :: r in k.notYetAdded ==> k.notYetAdded[r].server.addr == r }

  ghost predicate TasksFit(c: Cluster, ts: seq<Task>) {
    forall i, v :: 0 <= i < |ts| && v in TaskServer(ts[i]) ==> Fits(c, v)
  }

  ghost predicate PendingFit(c: Cluster, k: Book) {
    forall r :: r in k.notYetAdded ==> Fits(c, k.notYetAdded[r].server)
  }

  /** A task whose work rests on a complete sync. */
  ghost predicate Certain(t: Task) {
    (t.Resolving? && t.byMaster) || (t.Resolved? && t.byMaster) || (t.Spawning? && t.master) || t.Adding?
  }

  /** A task that may still put its address aside. */
  ghost predicate Undecided(t: Task, r: Addr) { Holds(t, r) && (t.Contact? || t.Found? || t.Synced?) }

  /** What a master reported is neither put aside nor swept, and a report implies a complete sync. */
  ghost predicate ReportsHonoured(k: Book, p: Past, ts: seq<Task>) {
    && (forall r :: r in p.reported ==> r in k.seen && r !in k.notYetAdded && r !in p.swept)
    && k.addIfFound <= p.reported
    && (forall i, r :: 0 <= i < |ts| && r in p.reported && r !in k.addIfFound ==> !Undecided(ts[i], r))
    && (forall i :: 0 <= i < |ts| && Certain(ts[i]) ==> k.complete)
    && (p.reported != {} ==> k.complete)
    && (forall i :: 0 <= i < |ts| && !ts[i].Finished? ==> p.swept == {})
  }

  /** Contacts: none of an unseen address, none while its claimant waits, one at most. */
  ghost predicate ContactsRight(k: Book, p: Past, ts: seq<Task>) {
    && (forall r :: p.contacted[r] <= if r in k.seen then 1 else 0)
    && (forall i, r :: 0 <= i < |ts| && Waiting(ts[i], r) ==> p.contacted[r] == 0)
  }

  ghost predicate Inv(s: State) {
    && !s.cluster.panicked && MastersRight(s.cluster)
    && Keyed(s) && TasksFit(s.cluster, s.tasks) && PendingFit(s.cluster, s.book)
    && ReportsHonoured(s.book, s.past, s.tasks) && ContactsRight(s.book, s.past, s.tasks)
    && forall r :: ConservedAt(s, r)
  }

  // ---------------------------------------------------------------- claims are conserved

  lemma {:induction false} HeldUpdate(ts: seq<Task>, i: nat, t: Task, r: Addr)
    requires i < |ts|
    ensures Held(ts[i := t], r) == Held(ts, r) - (if Holds(ts[i], r) then 1 else 0) + (if Holds(t, r) then 1 else 0)
    ensures Holds(ts[i], r) ==> Held(ts, r) > 0
    decreases |ts|
  {
    hide Holds;
    var k := |ts| - 1;
    if i == k {
      assert ts[i := t][..k] == ts[..k];
    } else {
      HeldUpdate(ts[..k], i, t, r);
      assert ts[i := t][..k] == ts[..k][i := t];
    }
  }

  lemma {:induction false} HeldAppend(ts: seq<Task>, n: nat, byMaster: bool, r: Addr)
    ensures Held(ts + seq(n, _ => Resolving(byMaster)), r) == Held(ts, r)
    decreases n
  {
    var more := ts + seq(n, _ => Resolving(byMaster));
    if n == 0 {
      assert more == ts;
    } else {
      HeldAppend(ts, n - 1, byMaster, r);
      assert more[..|more| - 1] == ts + seq(n - 1, _ => Resolving(byMaster));
    }
  }

  lemma {:induction false} NoneHeld(ts: seq<Task>, r: Addr)
    requires forall i :: 0 <= i < |ts| ==> ts[i] == Resolving(false)
    ensures Held(ts, r) == 0
    decreases |ts|
  {
    if ts != [] { NoneHeld(ts[..|ts| - 1], r); }
  }

  lemma InitialInv(s: State)
    requires Initial(s)
    ensures Inv(s)
  {
    forall r ensures Held(s.tasks, r) == 0 { NoneHeld(s.tasks, r); }
  }

  /** A step of one goroutine conserves the claims if what it lets go of turns up elsewhere. */
  lemma TaskConserves(s: State, s': State, i: nat, t: Task, r: Addr)
    requires i < |s.tasks| && s'.tasks == s.tasks[i := t] && ConservedAt(s, r)
    requires
      Left(s'.past, r) - Left(s.past, r)
      + (if r in s'.book.notYetAdded then 1 else 0) - (if r in s.book.notYetAdded then 1 else 0)
      + (if Holds(t, r) then 1 else 0) - (if Holds(s.tasks[i], r) then 1 else 0)
      == (if r in s'.book.seen then 1 else 0) - (if r in s.book.seen then 1 else 0)
    ensures ConservedAt(s', r)
  {
    hide Held, Holds, Left;
    HeldUpdate(s.tasks, i, t, r);
  }

  /** Nobody else holds, keeps or has settled an address that a task holds. */
  lemma OnlyHolder(s: State, i: nat, r: Addr)
    requires ConservedAt(s, r) && i < |s.tasks| && Holds(s.tasks[i], r)
    ensures r in s.book.seen && r !in s.book.notYetAdded && Left(s.past, r) == 0
    ensures forall j :: 0 <= j < |s.tasks| && j != i ==> !Holds(s.tasks[j], r)
  {
    hide Held, Left;
    HeldUpdate(s.tasks, i, Finished, r);
    forall j | 0 <= j < |s.tasks| && j != i ensures !Holds(s.tasks[j], r) {
      HeldUpdate(s.tasks[i := Finished], j, Finished, r);
    }
  }

  lemma NobodyHolds(s: State, r: Addr)
    requires ConservedAt(s, r) && (r in s.book.notYetAdded || r !in s.book.seen)
    ensures Left(s.past, r) == 0
    ensures forall j :: 0 <= j < |s.tasks| ==> !Holds(s.tasks[j], r)
  {
    hide Held, Holds;
    forall j | 0 <= j < |s.tasks| ensures !Holds(s.tasks[j], r) { HeldUpdate(s.tasks, j, Finished, r); }
  }

  /** The claim section passes a claim on, or takes the first one. */
  lemma ClaimConserves(s: State, i: nat, r: Addr)
    requires i < |s.tasks| && s.tasks[i].Resolved? && ConservedAt(s, r) && Keyed(s)
    ensures ConservedAt(ClaimStep(s, i), r)
  {
    hide ConservedAt;
    var s' := ClaimStep(s, i);
    TaskConserves(s, s', i, s'.tasks[i], r);
  }

  lemma FindConserves(s: State, i: nat, r: Addr)
    requires i < |s.tasks| && s.tasks[i].Contact? && ConservedAt(s, r) && Keyed(s)
    ensures ConservedAt(FindStep(s, i), r)
  {
    hide ConservedAt;
    var s' := FindStep(s, i);
    TaskConserves(s, s', i, s'.tasks[i], r);
  }

  lemma FailConserves(s: State, i: nat, r: Addr)
    requires i < |s.tasks| && s.tasks[i].Found? && ConservedAt(s, r)
    ensures ConservedAt(FailStep(s, i), r)
  {
    hide ConservedAt;
    if Holds(s.tasks[i], r) { OnlyHolder(s, i, r); }
    TaskConserves(s, FailStep(s, i), i, Failing(s.tasks[i].server), r);
  }

  lemma DecideConserves(s: State, i: nat, r: Addr)
    requires i < |s.tasks| && s.tasks[i].Synced? && ConservedAt(s, r)
    ensures ConservedAt(DecideStep(s, i), r)
  {
    hide ConservedAt;
    var s' := DecideStep(s, i);
    if Holds(s.tasks[i], r) { OnlyHolder(s, i, r); }
    TaskConserves(s, s', i, s'.tasks[i], r);
  }

  lemma AddConserves(s: State, i: nat, r: Addr)
    requires i < |s.tasks| && (s.tasks[i].Adding? || s.tasks[i].Promoting?) && ConservedAt(s, r)
    ensures ConservedAt(AddStep(s, i), r)
  {
    hide ConservedAt, AddServer;
    var s' := AddStep(s, i);
    TaskConserves(s, s', i, s'.tasks[i], r);
  }

  lemma SpawnConserves(s: State, i: nat, r: Addr)
    requires i < |s.tasks| && s.tasks[i].Spawning? && ConservedAt(s, r)
    ensures ConservedAt(SpawnStep(s, i), r)
  {
    hide Held, Left;
    HeldUpdate(s.tasks, i, Finished, r);
    HeldAppend(s.tasks[i := Finished], s.tasks[i].hosts, s.tasks[i].master, r);
  }

  lemma SweepConserves(s: State, q: Addr, r: Addr)
    requires q in s.book.notYetAdded && ConservedAt(s, r)
    ensures ConservedAt(SweepStep(s, q), r)
  {
    hide Held, AddServer;
  }

  lemma OutsideConserves(s: State, a: Action, r: Addr)
    requires a.RemoveFromOutside? && ConservedAt(s, r)
    ensures ConservedAt(Apply(s, a), r)
  {
    hide Held;
  }

  /** Conservation of the claim on every address. */
  lemma Conserves(s: State, a: Action, r: Addr)
    requires Enabled(s, a) && ConservedAt(s, r) && Keyed(s)
    ensures ConservedAt(Apply(s, a), r)
  {
    hide ConservedAt, ClaimStep, FailStep, DecideStep, FindStep, AddStep, SpawnStep, SweepStep, Keyed;
    match a
    case Resolve(i, addr) => TaskConserves(s, Apply(s, a), i, Resolved(addr, s.tasks[i].byMaster), r);
    case NoAddress(i) => TaskConserves(s, Apply(s, a), i, Finished, r);
    case Claim(i) => ClaimConserves(s, i, r);
    case Find(i) => FindConserves(s, i, r);
    case AnswerFails(i) => FailConserves(s, i, r);
    case Answers(i, m, n) => TaskConserves(s, Apply(s, a), i, Synced(s.tasks[i].server, m, n), r);
    case Remove(i) => TaskConserves(s, Apply(s, a), i, Finished, r);
    case Decide(i) => DecideConserves(s, i, r);
    case Add(i) => AddConserves(s, i, r);
    case Spawn(i) => SpawnConserves(s, i, r);
    case Promote(i) => AddConserves(s, i, r);
    case Sweep(q) => SweepConserves(s, q, r);
    case RemoveFromOutside(_) => OutsideConserves(s, a, r);
  }

  // ------------------------------------------------------------------ servers and masters

  lemma DropKeeps(c: Cluster, a: Addr)
    requires MastersRight(c) && ServersKeyed(c)
    ensures var c' := Drop(c, a); MastersRight(c') && ServersKeyed(c') && c'.panicked == c.panicked
    ensures forall v :: Fits(c, v) ==> Fits(Drop(c, a), v)
  {
  }

  /** Adding a server that fits does not panic and keeps the masters exact. */
  lemma AddKeeps(c: Cluster, v: Server, master: bool, complete: bool)
    requires MastersRight(c) && ServersKeyed(c) && Fits(c, v)
    ensures var c' := AddServer(c, v, master, complete); MastersRight(c') && ServersKeyed(c') && c'.panicked == c.panicked
    ensures var c' := AddServer(c, v, master, complete); c'.servers == if complete then c.servers[v.addr := v] else c.servers
    ensures forall w :: Fits(c, w) && (w.addr != v.addr || w == v) ==> Fits(AddServer(c, v, master, complete), w)
  {
    var c' := AddServer(c, v, master, complete);
    if v.addr in c.servers { assert c.servers[v.addr := v] == c.servers; }
    forall r ensures c'.masters[r] == if r in c'.servers && IsMaster(c', c'.servers[r]) then 1 else 0 {
      if r != v.addr && r in c.servers { assert c.servers[r] != v; }
    }
  }

  lemma InHand(s: State, i: nat)
    requires TasksFit(s.cluster, s.tasks) && i < |s.tasks| && TaskServer(s.tasks[i]) != {}
    ensures Fits(s.cluster, s.tasks[i].server) && Holds(s.tasks[i], s.tasks[i].server.addr)
  {
    assert s.tasks[i].server in TaskServer(s.tasks[i]);
  }

  /** The masters stay exact and the duplicate panic does not happen. */
  lemma KeepsCluster(s: State, a: Action)
    requires Enabled(s, a) && MastersRight(s.cluster) && ServersKeyed(s.cluster)
    requires TasksFit(s.cluster, s.tasks) && PendingFit(s.cluster, s.book)
    ensures var c' := Apply(s, a).cluster; MastersRight(c') && ServersKeyed(c') && c'.panicked == s.cluster.panicked
  {
    hide MastersRight, ServersKeyed, AddServer, Drop, TasksFit, Fits;
    match a
    case Remove(i) => DropKeeps(s.cluster, s.tasks[i].server.addr);
    case RemoveFromOutside(r) => DropKeeps(s.cluster, r);
    case Add(i) =>
      InHand(s, i);
      AddKeeps(s.cluster, s.tasks[i].server, s.tasks[i].master, true);
    case Promote(i) =>
      InHand(s, i);
      AddKeeps(s.cluster, s.tasks[i].server, s.tasks[i].master, true);
    case Sweep(r) =>
      var p := s.book.notYetAdded[r];
      DropKeeps(s.cluster, p.server.addr);
      AddKeeps(s.cluster, p.server, p.master, false);
    case _ =>
  }

  lemma TasksFitUpdate(c: Cluster, c': Cluster, ts: seq<Task>, i: nat, t: Task)
    requires i < |ts| && TasksFit(c, ts)
    requires forall j, v :: 0 <= j < |ts| && j != i && v in TaskServer(ts[j]) && Fits(c, v) ==> Fits(c', v)
    requires forall v :: v in TaskServer(t) ==> Fits(c', v)
    ensures TasksFit(c', ts[i := t])
  {
    hide Fits, TaskServer;
  }

  lemma AddTasksFit(s: State, i: nat)
    requires i < |s.tasks| && (s.tasks[i].Adding? || s.tasks[i].Promoting?)
    requires MastersRight(s.cluster) && ServersKeyed(s.cluster) && TasksFit(s.cluster, s.tasks) && PendingFit(s.cluster, s.book)
    requires PendingKeyed(s.book) && ConservedAt(s, s.tasks[i].server.addr)
    ensures TasksFit(AddStep(s, i).cluster, AddStep(s, i).tasks) && PendingFit(AddStep(s, i).cluster, s.book)
  {
    hide ConservedAt, MastersRight, ServersKeyed, AddServer, TasksFit, Fits, Left;
    var t := s.tasks[i];
    InHand(s, i);
    OnlyHolder(s, i, t.server.addr);
    AddKeeps(s.cluster, t.server, t.master, true);
    forall j, v | 0 <= j < |s.tasks| && j != i && v in TaskServer(s.tasks[j]) ensures v.addr != t.server.addr {
      assert Holds(s.tasks[j], v.addr);
    }
    TasksFitUpdate(s.cluster, AddStep(s, i).cluster, s.tasks, i, AddStep(s, i).tasks[i]);
  }

  lemma ClaimTasksFit(s: State, i: nat)
    requires i < |s.tasks| && s.tasks[i].Resolved? && TasksFit(s.cluster, s.tasks) && PendingFit(s.cluster, s.book)
    ensures TasksFit(s.cluster, ClaimStep(s, i).tasks) && PendingFit(s.cluster, ClaimStep(s, i).book)
  {
    hide TasksFit, Fits;
    TasksFitUpdate(s.cluster, s.cluster, s.tasks, i, ClaimStep(s, i).tasks[i]);
  }

  lemma FindTasksFit(s: State, i: nat)
    requires i < |s.tasks| && s.tasks[i].Contact? && TasksFit(s.cluster, s.tasks) && ServersKeyed(s.cluster)
    ensures TasksFit(s.cluster, FindStep(s, i).tasks)
  {
    hide TasksFit;
    TasksFitUpdate(s.cluster, s.cluster, s.tasks, i, FindStep(s, i).tasks[i]);
  }

  lemma DecideTasksFit(s: State, i: nat)
    requires i < |s.tasks| && s.tasks[i].Synced? && TasksFit(s.cluster, s.tasks) && PendingFit(s.cluster, s.book)
    ensures TasksFit(s.cluster, DecideStep(s, i).tasks) && PendingFit(s.cluster, DecideStep(s, i).book)
  {
    hide TasksFit, Fits;
    InHand(s, i);
    TasksFitUpdate(s.cluster, s.cluster, s.tasks, i, DecideStep(s, i).tasks[i]);
  }

  lemma SweepTasksFit(s: State, r: Addr)
    requires r in s.book.notYetAdded && AllFinished(s) && MastersRight(s.cluster) && Keyed(s) && PendingFit(s.cluster, s.book)
    ensures TasksFit(SweepStep(s, r).cluster, s.tasks) && PendingFit(SweepStep(s, r).cluster, SweepStep(s, r).book)
  {
    hide MastersRight, ServersKeyed, AddServer, Drop, Fits;
    var p := s.book.notYetAdded[r];
    DropKeeps(s.cluster, p.server.addr);
    AddKeeps(s.cluster, p.server, p.master, false);
  }

  lemma DropTasksFit(c: Cluster, a: Addr, k: Book, ts: seq<Task>)
    requires MastersRight(c) && ServersKeyed(c) && TasksFit(c, ts) && PendingFit(c, k)
    ensures TasksFit(Drop(c, a), ts) && PendingFit(Drop(c, a), k)
  {
    hide MastersRight, ServersKeyed, Drop, Fits;
    DropKeeps(c, a);
  }

  lemma SpawnTasksFit(s: State, i: nat)
    requires i < |s.tasks| && s.tasks[i].Spawning? && TasksFit(s.cluster, s.tasks)
    ensures TasksFit(s.cluster, SpawnStep(s, i).tasks)
  {
    hide Fits;
  }

  /** Whoever holds a server object holds the one that stands at its address, if any does. */
  lemma KeepsFits(s: State, a: Action)
    requires Enabled(s, a) && MastersRight(s.cluster) && Keyed(s) && TasksFit(s.cluster, s.tasks) && PendingFit(s.cluster, s.book)
    requires forall r :: ConservedAt(s, r)
    ensures var s' := Apply(s, a); TasksFit(s'.cluster, s'.tasks) && PendingFit(s'.cluster, s'.book)
  {
    hide ConservedAt, MastersRight, ServersKeyed, AddServer, Drop, Fits, TasksFit, PendingFit;
    hide ClaimStep, DecideStep, FindStep, SpawnStep;
    match a
    case Resolve(i, addr) => TasksFitUpdate(s.cluster, s.cluster, s.tasks, i, Resolved(addr, s.tasks[i].byMaster));
    case NoAddress(i) => TasksFitUpdate(s.cluster, s.cluster, s.tasks, i, Finished);
    case Claim(i) => ClaimTasksFit(s, i); ClaimFrame(s, i);
    case Find(i) => FindTasksFit(s, i); FindFrame(s, i);
    case AnswerFails(i) => TasksFitUpdate(s.cluster, s.cluster, s.tasks, i, Failing(s.tasks[i].server));
    case Answers(i, m, n) =>
      InHand(s, i);
      TasksFitUpdate(s.cluster, s.cluster, s.tasks, i, Synced(s.tasks[i].server, m, n));
    case Remove(i) =>
      TasksFitUpdate(s.cluster, s.cluster, s.tasks, i, Finished);
      DropTasksFit(s.cluster, s.tasks[i].server.addr, s.book, s.tasks[i := Finished]);
    case Decide(i) => DecideTasksFit(s, i); DecideFrame(s, i);
    case Add(i) => AddTasksFit(s, i);
    case Spawn(i) => SpawnTasksFit(s, i); SpawnFrame(s, i);
    case Promote(i) => AddTasksFit(s, i);
    case Sweep(r) => SweepTasksFit(s, r);
    case RemoveFromOutside(r) => DropTasksFit(s.cluster, r, s.book, s.tasks);
  }

  lemma ClaimFrame(s: State, i: nat)
    requires i < |s.tasks| && s.tasks[i].Resolved?
    ensures ClaimStep(s, i).cluster == s.cluster
  {
  }

  lemma FindFrame(s: State, i: nat)
    requires i < |s.tasks| && s.tasks[i].Contact?
    ensures FindStep(s, i).cluster == s.cluster && FindStep(s, i).book == s.book
  {
  }

  lemma DecideFrame(s: State, i: nat)
    requires i < |s.tasks| && s.tasks[i].Synced?
    ensures DecideStep(s, i).cluster == s.cluster
  {
  }

  lemma SpawnFrame(s: State, i: nat)
    requires i < |s.tasks| && s.tasks[i].Spawning?
    ensures SpawnStep(s, i).cluster == s.cluster && SpawnStep(s, i).book == s.book
  {
  }

  lemma KeepsPendingKeyed(s: State, a: Action)
    requires Enabled(s, a) && PendingKeyed(s.book)
    ensures PendingKeyed(Apply(s, a).book)
  {
    hide AddServer, Drop;
  }

  // ------------------------------------------------------------------- reports and contacts

  /** A step of one task that reports nothing and puts nothing aside. */
  lemma ReportsUpdate(k: Book, k': Book, p: Past, p': Past, ts: seq<Task>, i: nat, t: Task)
    requires i < |ts| && !ts[i].Finished? && ReportsHonoured(k, p, ts)
    requires p'.reported == p.reported && p'.swept == p.swept && k'.addIfFound == k.addIfFound
    requires k'.notYetAdded == k.notYetAdded && k'.seen == k.seen && (k.complete ==> k'.complete)
    requires forall r :: Undecided(t, r) ==> Undecided(ts[i], r)
    requires Certain(t) ==> k'.complete
    ensures ReportsHonoured(k', p', ts[i := t])
  {
    hide Undecided, Certain;
  }

  /** A master's report: of an address put aside, seen, or new. */
  lemma ClaimReports(s: State, i: nat)
    requires i < |s.tasks| && s.tasks[i].Resolved? && ReportsHonoured(s.book, s.past, s.tasks)
    requires ConservedAt(s, s.tasks[i].addr)
    ensures var s' := ClaimStep(s, i); ReportsHonoured(s'.book, s'.past, s'.tasks)
  {
    hide ConservedAt;
    var s', a := ClaimStep(s, i), s.tasks[i].addr;
    if a in s.book.notYetAdded || a !in s.book.seen { NobodyHolds(s, a); }
    if a in s.book.notYetAdded { AsideIsSeen(s, a); }
    ClaimBooked(s, i);
    assert s.tasks[i].byMaster ==> Certain(s.tasks[i]);
    forall j, r | 0 <= j < |s'.tasks| && r in s'.past.reported && r !in s'.book.addIfFound ensures !Undecided(s'.tasks[j], r) {
      if j != i { assert s'.tasks[j] == s.tasks[j]; }
    }
  }

  lemma AsideIsSeen(s: State, r: Addr)
    requires ConservedAt(s, r) && r in s.book.notYetAdded
    ensures r in s.book.seen
  {
    hide Held, Left;
  }

  lemma ClaimBooked(s: State, i: nat)
    requires i < |s.tasks| && s.tasks[i].Resolved? && ReportsHonoured(s.book, s.past, s.tasks)
    requires s.tasks[i].addr in s.book.notYetAdded ==> s.tasks[i].addr in s.book.seen
    ensures var s' := ClaimStep(s, i);
      && s'.book.addIfFound <= s'.past.reported && (s'.past.reported != {} ==> s'.book.complete)
      && (forall r :: r in s'.past.reported ==> r in s'.book.seen && r !in s'.book.notYetAdded)
  {
    hide Undecided;
    assert s.tasks[i].byMaster ==> Certain(s.tasks[i]);
  }

  lemma FindReports(s: State, i: nat)
    requires i < |s.tasks| && s.tasks[i].Contact? && ReportsHonoured(s.book, s.past, s.tasks) && ServersKeyed(s.cluster)
    ensures var s' := FindStep(s, i); ReportsHonoured(s'.book, s'.past, s'.tasks)
  {
    hide ReportsHonoured;
    var s' := FindStep(s, i);
    ReportsUpdate(s.book, s.book, s.past, s'.past, s.tasks, i, s'.tasks[i]);
  }

  lemma AddReports(s: State, i: nat)
    requires i < |s.tasks| && (s.tasks[i].Adding? || s.tasks[i].Promoting?) && ReportsHonoured(s.book, s.past, s.tasks)
    ensures var s' := AddStep(s, i); ReportsHonoured(s'.book, s'.past, s'.tasks)
  {
    hide ReportsHonoured, AddServer;
    var s' := AddStep(s, i);
    CertainMeansComplete(s.book, s.past, s.tasks, i);
    ReportsUpdate(s.book, s.book, s.past, s'.past, s.tasks, i, s'.tasks[i]);
  }

  /** A server is put aside only if no master has reported its address. */
  lemma DecideReports(s: State, i: nat)
    requires i < |s.tasks| && s.tasks[i].Synced? && ReportsHonoured(s.book, s.past, s.tasks)
    ensures var s' := DecideStep(s, i); ReportsHonoured(s'.book, s'.past, s'.tasks)
  {
    var a := s.tasks[i].server.addr;
    assert Undecided(s.tasks[i], a);
  }

  lemma SpawnReports(s: State, i: nat)
    requires i < |s.tasks| && s.tasks[i].Spawning? && ReportsHonoured(s.book, s.past, s.tasks)
    ensures var s' := SpawnStep(s, i); ReportsHonoured(s'.book, s'.past, s'.tasks)
  {
    var ts' := SpawnStep(s, i).tasks;
    assert s.tasks[i].master ==> Certain(s.tasks[i]);
    forall j | 0 <= j < |ts'|
      ensures (Certain(ts'[j]) ==> s.book.complete) && (forall r :: Undecided(ts'[j], r) ==> j < |s.tasks| && Undecided(s.tasks[j], r))
    {
      if j < |s.tasks| && j != i { assert ts'[j] == s.tasks[j]; }
    }
  }

  lemma SweepReports(s: State, q: Addr)
    requires q in s.book.notYetAdded && AllFinished(s) && ReportsHonoured(s.book, s.past, s.tasks)
    ensures var s' := SweepStep(s, q); ReportsHonoured(s'.book, s'.past, s'.tasks)
  {
    hide AddServer, Drop;
  }

  lemma KeepsReports(s: State, a: Action)
    requires Enabled(s, a) && ReportsHonoured(s.book, s.past, s.tasks) && ServersKeyed(s.cluster)
    requires forall r :: ConservedAt(s, r)
    ensures var s' := Apply(s, a); ReportsHonoured(s'.book, s'.past, s'.tasks)
  {
    hide ConservedAt, ReportsHonoured, ClaimStep, FindStep, DecideStep, AddStep, SpawnStep, SweepStep, Drop;
    var s', k, p, ts := Apply(s, a), s.book, s.past, s.tasks;
    match a
    case Resolve(i, addr) =>
      CertainMeansComplete(k, p, ts, i);
      ReportsUpdate(k, k, p, p, ts, i, Resolved(addr, ts[i].byMaster));
    case NoAddress(i) => ReportsUpdate(k, k, p, p, ts, i, Finished);
    case Claim(i) => ClaimReports(s, i);
    case Find(i) => FindReports(s, i);
    case AnswerFails(i) => ReportsUpdate(k, k, p, s'.past, ts, i, Failing(ts[i].server));
    case Answers(i, m, n) => ReportsUpdate(k, k, p, p, ts, i, Synced(ts[i].server, m, n));
    case Remove(i) => ReportsUpdate(k, k, p, p, ts, i, Finished);
    case Decide(i) => DecideReports(s, i);
    case Add(i) => AddReports(s, i);
    case Spawn(i) => SpawnReports(s, i);
    case Promote(i) => AddReports(s, i);
    case Sweep(q) => SweepReports(s, q);
    case RemoveFromOutside(_) =>
  }

  lemma CertainMeansComplete(k: Book, p: Past, ts: seq<Task>, i: nat)
    requires i < |ts| && ReportsHonoured(k, p, ts)
    ensures Certain(ts[i]) ==> k.complete
  {
  }

  lemma ContactsUpdate(k: Book, p: Past, p': Past, ts: seq<Task>, i: nat, t: Task)
    requires i < |ts| && ContactsRight(k, p, ts) && p'.contacted == p.contacted
    requires forall r :: Waiting(t, r) ==> Waiting(ts[i], r)
    ensures ContactsRight(k, p', ts[i := t])
  {
    hide Waiting;
  }

  lemma ClaimContacts(s: State, i: nat)
    requires i < |s.tasks| && s.tasks[i].Resolved? && ContactsRight(s.book, s.past, s.tasks)
    ensures var s' := ClaimStep(s, i); ContactsRight(s'.book, s'.past, s'.tasks)
  {
  }

  /** The only waiting claimant contacts the server, once. */
  lemma FindContacts(s: State, i: nat)
    requires i < |s.tasks| && s.tasks[i].Contact? && ContactsRight(s.book, s.past, s.tasks)
    requires ConservedAt(s, s.tasks[i].addr)
    ensures var s' := FindStep(s, i); ContactsRight(s'.book, s'.past, s'.tasks)
  {
    hide ConservedAt, Left;
    var r := s.tasks[i].addr;
    assert Waiting(s.tasks[i], r);
    OnlyHolder(s, i, r);
    forall j | 0 <= j < |s.tasks| && j != i ensures !Waiting(s.tasks[j], r) { assert !Holds(s.tasks[j], r); }
  }

  lemma SpawnContacts(s: State, i: nat)
    requires i < |s.tasks| && s.tasks[i].Spawning? && ContactsRight(s.book, s.past, s.tasks)
    ensures var s' := SpawnStep(s, i); ContactsRight(s'.book, s'.past, s'.tasks)
  {
  }

  lemma KeepsContacts(s: State, a: Action)
    requires Enabled(s, a) && ContactsRight(s.book, s.past, s.tasks) && forall r :: ConservedAt(s, r)
    ensures var s' := Apply(s, a); ContactsRight(s'.book, s'.past, s'.tasks)
  {
    hide ConservedAt, ContactsRight, ClaimStep, FindStep, SpawnStep, AddServer, Drop;
    var s', k, p, ts := Apply(s, a), s.book, s.past, s.tasks;
    match a
    case Claim(i) => ClaimContacts(s, i);
    case Find(i) => FindContacts(s, i);
    case Spawn(i) => SpawnContacts(s, i);
    case Sweep(q) => SweepContacts(s, q);
    case RemoveFromOutside(_) =>
    case Decide(i) => DecideContacts(s, i);
    case _ => ContactsUpdate(k, p, s'.past, ts, a.i, s'.tasks[a.i]);
  }

  lemma DecideContacts(s: State, i: nat)
    requires i < |s.tasks| && s.tasks[i].Synced? && ContactsRight(s.book, s.past, s.tasks)
    ensures var s' := DecideStep(s, i); ContactsRight(s'.book, s'.past, s'.tasks)
  {
  }

  lemma SweepContacts(s: State, q: Addr)
    requires q in s.book.notYetAdded && ContactsRight(s.book, s.past, s.tasks)
    ensures var s' := SweepStep(s, q); ContactsRight(s'.book, s'.past, s'.tasks)
  {
    hide AddServer, Drop;
  }

  // ------------------------------------------------------------------------- whole runs

  lemma KeepsInv(s: State, a: Action)
    requires Inv(s) && Enabled(s, a)
    ensures Inv(Apply(s, a))
  {
    hide MastersRight, TasksFit, PendingFit, ReportsHonoured, ContactsRight, ConservedAt, Apply, Enabled;
    KeepsCluster(s, a);
    KeepsFits(s, a);
    KeepsPendingKeyed(s, a);
    KeepsReports(s, a);
    KeepsContacts(s, a);
    forall r ensures ConservedAt(Apply(s, a), r) { Conserves(s, a, r); }
  }

  lemma {:induction false} RunKeepsInv(s: State, acts: seq<Action>)
    requires Inv(s) && Runs(s, acts)
    ensures Inv(Run(s, acts))
    decreases |acts|
  {
    hide Inv, Apply, Enabled;
    if acts != [] {
      KeepsInv(s, acts[0]);
      RunKeepsInv(Apply(s, acts[0]), acts[1..]);
    }
  }

  /**
   * At every moment of every interleaving: the duplicate-server panic has not
   * happened, `masters` is exactly the servers whose info says master, and no
   * resolved address was contacted or added more than once.
   */
  lemma SafeThroughout(s: State, acts: seq<Action>)
    requires Initial(s) && Runs(s, acts)
    ensures var s' := Run(s, acts);
      && !s'.cluster.panicked && MastersRight(s'.cluster)
      && (forall r :: s'.past.contacted[r] <= 1 && s'.past.added[r] <= 1)
  {
    hide Initial, MastersRight, Held, Apply, Enabled;
    InitialInv(s);
    RunKeepsInv(s, acts);
    var s' := Run(s, acts);
    forall r ensures s'.past.contacted[r] <= 1 && s'.past.added[r] <= 1 { assert ConservedAt(s', r); }
  }

  /**
   * At the end of the iteration every seen address has one outcome, and a server
   * that a master reported and that answered was added, once, and not swept.
   */
  lemma ReportedIsAdded(s: State, acts: seq<Action>, r: Addr)
    requires Initial(s) && Runs(s, acts) && Done(Run(s, acts))
    ensures var s' := Run(s, acts);
      && Left(s'.past, r) == (if r in s'.book.seen then 1 else 0)
      && (r in s'.past.reported && r !in s'.past.failed ==> s'.past.added[r] == 1 && r !in s'.past.swept)
      && (s'.past.reported != {} ==> s'.book.complete)
  {
    hide Initial, Held, Apply, Enabled;
    InitialInv(s);
    RunKeepsInv(s, acts);
    var s' := Run(s, acts);
    assert ConservedAt(s', r);
    NoneHeldAtEnd(s'.tasks, r);
  }

  lemma {:induction false} NoneHeldAtEnd(ts: seq<Task>, r: Addr)
    requires forall i :: 0 <= i < |ts| ==> ts[i].Finished?
    ensures Held(ts, r) == 0
    decreases |ts|
  {
    if ts != [] { NoneHeldAtEnd(ts[..|ts| - 1], r); }
  }

  // ------------------------------------------------------------------------ termination

  /** The addresses come from a finite set, and no server reports more than `most` hosts. */
  predicate InScope(a: Action, all: set<Addr>, most: nat) {
    (a.Resolve? ==> a.addr in all) && (a.Answers? ==> a.count <= most)
  }

  /** How many steps a task may still take, its own spawned tasks included. */
  function Rank(t: Task, most: nat): nat {
    match t
    case Resolving(_) => 3
    case Resolved(_, _) => 2
    case Contact(_) => 3 * most + 5
    case Found(_) => 3 * most + 4
    case Synced(_, _, hosts) => 3 * hosts + 3
    case Adding(_, _, hosts) => 3 * hosts + 2
    case Spawning(_, hosts) => 3 * hosts + 1
    case Failing(_) => 1
    case Promoting(_, _) => 1
    case Finished => 0
  }

  function Ranks(ts: seq<Task>, most: nat): nat {
    if ts == [] then 0 else Ranks(ts[..|ts| - 1], most) + Rank(ts[|ts| - 1], most)
  }

  function Times(w: nat, n: nat): nat { if n == 0 then 0 else w + Times(w, n - 1) }

  ghost function Potential(s: State, all: set<Addr>, most: nat): nat {
    Times(3 * most + 5, |all - s.book.seen|) + Ranks(s.tasks, most) + |s.book.notYetAdded|
  }

  ghost predicate Known(ts: seq<Task>, all: set<Addr>) {
    forall i :: 0 <= i < |ts| && ts[i].Resolved? ==> ts[i].addr in all
  }

  lemma {:induction false} RanksUpdate(ts: seq<Task>, i: nat, t: Task, most: nat)
    requires i < |ts|
    ensures Ranks(ts[i := t], most) == Ranks(ts, most) - Rank(ts[i], most) + Rank(t, most)
    decreases |ts|
  {
    hide Rank;
    var k := |ts| - 1;
    if i == k {
      assert ts[i := t][..k] == ts[..k];
    } else {
      RanksUpdate(ts[..k], i, t, most);
      assert ts[i := t][..k] == ts[..k][i := t];
    }
  }

  lemma {:induction false} RanksAppend(ts: seq<Task>, n: nat, byMaster: bool, most: nat)
    ensures Ranks(ts + seq(n, _ => Resolving(byMaster)), most) == Ranks(ts, most) + 3 * n
    decreases n
  {
    var more := ts + seq(n, _ => Resolving(byMaster));
    if n == 0 {
      assert more == ts;
    } else {
      RanksAppend(ts, n - 1, byMaster, most);
      assert more[..|more| - 1] == ts + seq(n - 1, _ => Resolving(byMaster));
    }
  }

  /** A task's step to a lower rank, the book unchanged. */
  lemma TaskSpends(s: State, s': State, i: nat, t: Task, all: set<Addr>, most: nat)
    requires i < |s.tasks| && s'.tasks == s.tasks[i := t]
    requires s'.book.seen == s.book.seen && |s'.book.notYetAdded| + Rank(t, most) < |s.book.notYetAdded| + Rank(s.tasks[i], most)
    ensures Potential(s', all, most) < Potential(s, all, most)
  {
    hide Ranks, Rank;
    RanksUpdate(s.tasks, i, t, most);
  }

  lemma ClaimSpends(s: State, i: nat, all: set<Addr>, most: nat)
    requires i < |s.tasks| && s.tasks[i].Resolved? && s.tasks[i].addr in all
    ensures Potential(ClaimStep(s, i), all, most) < Potential(s, all, most)
  {
    hide Potential;
    var a, k, s' := s.tasks[i].addr, s.book, ClaimStep(s, i);
    if s.tasks[i].byMaster && a in k.notYetAdded {
      assert k.notYetAdded == (k.notYetAdded - {a})[a := k.notYetAdded[a]];
      TaskSpends(s, s', i, Promoting(k.notYetAdded[a].server, k.notYetAdded[a].master), all, most);
    } else if a in k.seen {
      TaskSpends(s, s', i, Finished, all, most);
    } else {
      FirstClaimSpends(s, s', i, all, most);
    }
  }

  lemma FirstClaimSpends(s: State, s': State, i: nat, all: set<Addr>, most: nat)
    requires i < |s.tasks| && s.tasks[i].Resolved? && s.tasks[i].addr in all - s.book.seen
    requires s'.tasks == s.tasks[i := Contact(s.tasks[i].addr)] && s'.book.seen == s.book.seen + {s.tasks[i].addr}
    requires s'.book.notYetAdded == s.book.notYetAdded
    ensures Potential(s', all, most) < Potential(s, all, most)
  {
    hide Ranks;
    RanksUpdate(s.tasks, i, Contact(s.tasks[i].addr), most);
    assert all - s.book.seen == (all - s'.book.seen) + {s.tasks[i].addr};
  }

  lemma DecideSpends(s: State, i: nat, all: set<Addr>, most: nat)
    requires i < |s.tasks| && s.tasks[i].Synced?
    ensures Potential(DecideStep(s, i), all, most) < Potential(s, all, most)
  {
    hide Potential;
    var s', t := DecideStep(s, i), s.tasks[i];
    TaskSpends(s, s', i, s'.tasks[i], all, most);
  }

  lemma SpawnSpends(s: State, i: nat, all: set<Addr>, most: nat)
    requires i < |s.tasks| && s.tasks[i].Spawning?
    ensures Potential(SpawnStep(s, i), all, most) < Potential(s, all, most)
  {
    hide Ranks;
    var t := s.tasks[i];
    RanksUpdate(s.tasks, i, Finished, most);
    RanksAppend(s.tasks[i := Finished], t.hosts, t.master, most);
  }

  lemma SweepSpends(s: State, q: Addr, all: set<Addr>, most: nat)
    requires q in s.book.notYetAdded
    ensures Potential(SweepStep(s, q), all, most) < Potential(s, all, most)
  {
    hide Ranks, AddServer, Drop;
    assert s.book.notYetAdded == (s.book.notYetAdded - {q})[q := s.book.notYetAdded[q]];
  }

  lemma OutsideSpendsNothing(s: State, r: Addr, all: set<Addr>, most: nat)
    ensures Potential(Apply(s, RemoveFromOutside(r)), all, most) == Potential(s, all, most)
  {
    hide Ranks;
  }

  lemma StepSpends(s: State, a: Action, all: set<Addr>, most: nat)
    requires Enabled(s, a) && InScope(a, all, most) && Known(s.tasks, all)
    ensures Potential(Apply(s, a), all, most) + (if a.RemoveFromOutside? then 0 else 1) <= Potential(s, all, most)
  {
    hide Potential, ClaimStep, DecideStep, SpawnStep, SweepStep, AddServer, Drop;
    match a
    case Claim(i) => ClaimSpends(s, i, all, most);
    case Decide(i) => DecideSpends(s, i, all, most);
    case Spawn(i) => SpawnSpends(s, i, all, most);
    case Sweep(q) => SweepSpends(s, q, all, most);
    case RemoveFromOutside(r) => OutsideSpendsNothing(s, r, all, most);
    case _ => TaskSpends(s, Apply(s, a), a.i, Apply(s, a).tasks[a.i], all, most);
  }

  lemma KeepsKnown(s: State, a: Action, all: set<Addr>, most: nat)
    requires Enabled(s, a) && InScope(a, all, most) && Known(s.tasks, all)
    ensures Known(Apply(s, a).tasks, all)
  {
    hide AddServer, Drop;
  }

  /** The iteration's own actions in a run. */
  function Own(acts: seq<Action>): nat {
    if acts == [] then 0 else (if acts[0].RemoveFromOutside? then 0 else 1) + Own(acts[1..])
  }

  lemma {:induction false} RunSpends(s: State, acts: seq<Action>, all: set<Addr>, most: nat)
    requires Runs(s, acts) && Known(s.tasks, all) && forall k :: 0 <= k < |acts| ==> InScope(acts[k], all, most)
    ensures Own(acts) + Potential(Run(s, acts), all, most) <= Potential(s, all, most)
    decreases |acts|
  {
    hide Potential, Known, Enabled, Apply, InScope;
    if acts != [] {
      var a := acts[0];
      KeepsKnown(s, a, all, most);
      StepSpends(s, a, all, most);
      RunSpends(Apply(s, a), acts[1..], all, most);
    }
  }

  lemma {:induction false} InitialRanks(ts: seq<Task>, most: nat)
    requires forall i :: 0 <= i < |ts| ==> ts[i] == Resolving(false)
    ensures Ranks(ts, most) == 3 * |ts|
    decreases |ts|
  {
    if ts != [] { InitialRanks(ts[..|ts| - 1], most); }
  }

  /** Under every interleaving the iteration takes a bounded number of steps of its own. */
  lemma IterationTerminates(s: State, acts: seq<Action>, all: set<Addr>, most: nat)
    requires Initial(s) && Runs(s, acts) && forall k :: 0 <= k < |acts| ==> InScope(acts[k], all, most)
    ensures Own(acts) <= (3 * most + 5) * |all| + 3 * |s.tasks|
  {
    hide Ranks, Own, InScope, Run, Runs, Times;
    RunSpends(s, acts, all, most);
    InitialRanks(s.tasks, most);
    assert all - s.book.seen == all;
    TimesIsProduct(3 * most + 5, |all|);
  }

  lemma {:induction false} TimesIsProduct(w: nat, n: nat)
    ensures Times(w, n) == w * n
  {
    if n > 0 { TimesIsProduct(w, n - 1); }
  }

  /** Until every task has finished and nothing is left aside, some step of the iteration can be taken. */
  lemma NeverStuck(s: State) returns (a: Action)
    requires !Done(s)
    ensures Enabled(s, a) && !a.RemoveFromOutside?
  {
    if !AllFinished(s) {
      var i :| 0 <= i < |s.tasks| && !s.tasks[i].Finished?;
      match s.tasks[i]
      case Resolving(_) => a := NoAddress(i);
      case Resolved(_, _) => a := Claim(i);
      case Contact(_) => a := Find(i);
      case Found(_) => a := AnswerFails(i);
      case Failing(_) => a := Remove(i);
      case Synced(_, _, _) => a := Decide(i);
      case Adding(_, _, _) => a := Add(i);
      case Spawning(_, _) => a := Spawn(i);
      case Promoting(_, _) => a := Promote(i);
    } else {
      var r :| r in s.book.notYetAdded;
      a := Sweep(r);
    }
  }
}
