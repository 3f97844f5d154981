/**
 * Sessions reserve sockets to give consistency guarantees. Every method of a
 * session is one section under its lock; the cluster is an oracle that answers
 * with a socket or fails. The methods are proved against functions on the session's
 * fields, and the guarantees against runs over any number of sessions.
 */
module Session {
  /** A socket, and whether its server was a master when the socket was first acquired. */
  datatype Socket = Socket(id: nat, master: bool)

  datatype Option<T> = None | Some(value: T)

  datatype Mode = Eventual | Monotonic | Strong | PrimaryPreferred | Secondary | SecondaryPreferred | Nearest

  /** What the cluster and the login make of a request for a new socket. */
  datatype Answer = Fails | LoginFails(refused: Socket) | Gives(socket: Socket)

  datatype View = View(master: Option<Socket>, slave: Option<Socket>, slaveOk: bool, mode: Mode, open: bool)

  /** The outcome of one request: what the caller gets, and the session and reference counts after it. */
  datatype Acquired = Acquired(view: View, refs: multiset<Socket>, got: Option<Socket>, panicked: bool)

  /** The reserved socket a request would be served with. */
  function Reserved(v: View, slaveOk: bool): Option<Socket> {
    if v.slave.Some? && v.slaveOk && slaveOk && (v.master.None? || (v.mode != PrimaryPreferred && v.mode != Monotonic)) then v.slave
    else v.master
  }

  /** The two reservations of a session, as references. */
  function Kept(v: View): multiset<Socket> {
    (if v.master.Some? then multiset{v.master.value} else multiset{}) + (if v.slave.Some? then multiset{v.slave.value} else multiset{})
  }

  lemma BothKept(refs: multiset<Socket>, v: View)
    ensures refs - Kept(v) == (var r := if v.master.Some? then refs - multiset{v.master.value} else refs;
                               if v.slave.Some? then r - multiset{v.slave.value} else r)
  {
    if v.master.Some? && v.slave.Some? { MinusBoth(refs, v.master.value, v.slave.value); }
  }

  lemma MinusBoth(refs: multiset<Socket>, a: Socket, b: Socket)
    ensures refs - (multiset{a} + multiset{b}) == (refs - multiset{a}) - multiset{b}
  {
  }

  /** setSocket: binds the socket, or panics over a reservation that is already there. */
  function Bind(v: View, refs: multiset<Socket>, s: Socket): Acquired {
    var refs' := refs + multiset{s};
    if s.master then
      if v.master.Some? then Acquired(v, refs', None, true) else Acquired(v.(master := Some(s)), refs', Some(s), false)
    else
      if v.slave.Some? then Acquired(v, refs', None, true) else Acquired(v.(slave := Some(s)), refs', Some(s), false)
  }

  /** acquireSocket. */
  function Acquire(v: View, refs: multiset<Socket>, slaveOk: bool, answer: Answer): Acquired {
    var r := Reserved(v, slaveOk);
    if r.Some? then Acquired(v, refs + multiset{r.value}, r, false)
    else match answer
      case Fails => Acquired(v, refs, None, false)
      case LoginFails(s) => Acquired(v, (refs + multiset{s}) - multiset{s}, None, false)
      case Gives(s) =>
        var b := if v.mode != Eventual || v.slave.Some? then Bind(v, refs + multiset{s}, s)
                 else Acquired(v, refs + multiset{s}, Some(s), false);
        if !b.panicked && !slaveOk && v.mode == Monotonic then b.(view := b.view.(slaveOk := false)) else b
  }

  /** What the cluster promises: a request that must not be served by a slave is not. */
  predicate Trusted(v: View, slaveOk: bool, answer: Answer) {
    answer.Gives? && !(slaveOk && v.slaveOk) ==> answer.socket.master
  }

  function Unset(v: View): View { v.(master := None, slave := None) }

  /** SetMode. */
  function Set(v: View, mode: Mode, refresh: bool): View {
    if refresh then Unset(v.(mode := mode, slaveOk := mode != Strong))
    else if mode == Strong then v.(mode := mode, slaveOk := false)
    else if v.master.None? then v.(mode := mode, slaveOk := true)
    else v.(mode := mode)
  }

  function Refreshed(v: View): View { Unset(v.(slaveOk := v.mode != Strong)) }

  // ------------------------------------------------------------------------ one session

  /** A session's reservations are what they are called, and a Strong session asks for no slave. */
  predicate Sound(v: View) {
    && (v.master.Some? ==> v.master.value.master) && (v.slave.Some? ==> !v.slave.value.master)
    && (v.mode == Strong ==> !v.slaveOk) && (!v.open ==> v.master.None? && v.slave.None?)
  }

  /** setSocket panics exactly when the cluster breaks its promise to a session with a slave reserved. */
  lemma PanicExact(v: View, refs: multiset<Socket>, slaveOk: bool, answer: Answer)
    requires Sound(v)
    ensures Acquire(v, refs, slaveOk, answer).panicked <==>
      v.slave.Some? && v.master.None? && !(slaveOk && v.slaveOk) && answer.Gives? && !answer.socket.master
  {
    hide Kept;
  }

  /** A Strong session hands out only master sockets. */
  lemma StrongGetsMaster(v: View, refs: multiset<Socket>, slaveOk: bool, answer: Answer)
    requires Sound(v) && v.open && Trusted(v, slaveOk, answer)
    ensures var a := Acquire(v, refs, slaveOk, answer);
      Sound(a.view) && !a.panicked && (v.mode == Strong && a.got.Some? ==> a.got.value.master)
  {
    hide Kept;
  }

  predicate Pinned(v: View, m: Socket) { v.master == Some(m) && (v.mode == Strong || v.mode == Monotonic) }

  /** A write in a Monotonic or Strong session pins it to the master socket it got. */
  lemma WritePins(v: View, refs: multiset<Socket>, answer: Answer)
    requires Sound(v) && Trusted(v, false, answer) && (v.mode == Strong || v.mode == Monotonic)
    ensures var a := Acquire(v, refs, false, answer); a.got.Some? ==> a.got.value.master && Pinned(a.view, a.got.value)
  {
    hide Kept;
  }

  /** A pinned session gets that socket for every request, and stays pinned. */
  lemma PinnedGets(v: View, m: Socket, refs: multiset<Socket>, slaveOk: bool, answer: Answer)
    requires Sound(v) && Pinned(v, m)
    ensures var a := Acquire(v, refs, slaveOk, answer); a.got == Some(m) && a.view == v
  {
    hide Kept;
  }

  // ---------------------------------------------------------------------- the session class

  /** The reference counts of all sockets; its owner is the pool. */
  class Counts {
    var refs: multiset<Socket>

    constructor ()
      ensures refs == multiset{}
    {
      refs := multiset{};
    }
  }

  class Session {
    var masterSocket: Option<Socket>
    var slaveSocket: Option<Socket>
    var slaveOk: bool
    var consistency: Mode
    var open: bool

    function Now(): View
      reads this
    {
      View(masterSocket, slaveSocket, slaveOk, consistency, open)
    }

    constructor (mode: Mode)
      ensures Now() == View(None, None, mode != Strong, mode, true)
    {
      masterSocket, slaveSocket, slaveOk, consistency, open := None, None, mode != Strong, mode, true;
    }

    /** copySession, for Clone: the copy shares the reserved sockets and counts for itself. */
    constructor Clone(s: Session, c: Counts)
      requires s.open
      modifies c
      ensures Now() == old(s.Now()) && c.refs == old(c.refs) + Kept(old(s.Now()))
    {
      masterSocket, slaveSocket, slaveOk, consistency, open := s.masterSocket, s.slaveSocket, s.slaveOk, s.consistency, true;
      new;
      var more := c.refs;
      if masterSocket.Some? { more := more + multiset{masterSocket.value}; }
      if slaveSocket.Some? { more := more + multiset{slaveSocket.value}; }
      c.refs := more;
    }

    method AcquireSocket(c: Counts, ok: bool, answer: Answer) returns (got: Option<Socket>, panicked: bool)
      requires open
      modifies this, c
      ensures Acquired(Now(), c.refs, got, panicked) == Acquire(old(Now()), old(c.refs), ok, answer)
    {
      if slaveSocket.Some? && slaveOk && ok && (masterSocket.None? || (consistency != PrimaryPreferred && consistency != Monotonic)) {
        c.refs := c.refs + multiset{slaveSocket.value};
        return slaveSocket, false;
      }
      if masterSocket.Some? {
        c.refs := c.refs + multiset{masterSocket.value};
        return masterSocket, false;
      }
      match answer
      case Fails =>
        return None, false;
      case LoginFails(s) =>
        c.refs := c.refs + multiset{s};
        c.refs := c.refs - multiset{s};
        return None, false;
      case Gives(s) =>
        c.refs := c.refs + multiset{s};
        if consistency != Eventual || slaveSocket.Some? {
          panicked := SetSocket(c, s);
          if panicked { return None, true; }
        }
        if !ok && consistency == Monotonic { slaveOk := false; }
        return Some(s), false;
    }

    method SetSocket(c: Counts, s: Socket) returns (panicked: bool)
      modifies this`masterSocket, this`slaveSocket, c
      ensures var b := Bind(old(Now()), old(c.refs), s); Now() == b.view && c.refs == b.refs && panicked == b.panicked
    {
      c.refs := c.refs + multiset{s};
      if s.master {
        if masterSocket.Some? { return true; }
        masterSocket := Some(s);
      } else {
        if slaveSocket.Some? { return true; }
        slaveSocket := Some(s);
      }
      panicked := false;
    }

    method UnsetSocket(c: Counts)
      modifies this`masterSocket, this`slaveSocket, c
      ensures Now() == Unset(old(Now())) && c.refs == old(c.refs) - Kept(old(Now()))
    {
      BothKept(c.refs, Now());
      hide Kept;
      if masterSocket.Some? { c.refs := c.refs - multiset{masterSocket.value}; }
      if slaveSocket.Some? { c.refs := c.refs - multiset{slaveSocket.value}; }
      masterSocket, slaveSocket := None, None;
    }

    method SetMode(c: Counts, mode: Mode, refresh: bool)
      modifies this, c
      ensures Now() == Set(old(Now()), mode, refresh)
      ensures c.refs == if refresh then old(c.refs) - Kept(old(Now())) else old(c.refs)
    {
      consistency := mode;
      if refresh {
        slaveOk := consistency != Strong;
        UnsetSocket(c);
      } else if consistency == Strong {
        slaveOk := false;
      } else if masterSocket.None? {
        slaveOk := true;
      }
    }

    method Refresh(c: Counts)
      modifies this, c
      ensures Now() == Refreshed(old(Now())) && c.refs == old(c.refs) - Kept(old(Now()))
    {
      slaveOk := consistency != Strong;
      UnsetSocket(c);
    }

    /** A second Close does nothing. */
    method Close(c: Counts)
      modifies this, c
      ensures Now() == if old(open) then Unset(old(Now())).(open := false) else old(Now())
      ensures c.refs == if old(open) then old(c.refs) - Kept(old(Now())) else old(c.refs)
    {
      if open {
        UnsetSocket(c);
        open := false;
      }
    }
  }

  // ------------------------------------------------------------------- runs of many sessions

  /** All sessions, the reference counts, and the references handed out to callers. */
  datatype System = System(sessions: seq<View>, refs: multiset<Socket>, out: multiset<Socket>)

  datatype Action =
    | Request(i: nat, slaveOk: bool, answer: Answer)
    | GiveBack(socket: Socket)
    | ChangeMode(i: nat, mode: Mode, refresh: bool)
    | RefreshOf(i: nat)
    | CloneOf(i: nat)
    | CloseOf(i: nat)

  predicate Enabled(y: System, a: Action) {
    match a
    case Request(i, ok, answer) => i < |y.sessions| && y.sessions[i].open && Trusted(y.sessions[i], ok, answer)
    case GiveBack(s) => s in y.out
    case CloneOf(i) => i < |y.sessions| && y.sessions[i].open
    case ChangeMode(i, _, _) => i < |y.sessions|
    case RefreshOf(i) => i < |y.sessions|
    case CloseOf(i) => i < |y.sessions|
  }

  function Apply(y: System, a: Action): System
    requires Enabled(y, a)
  {
    match a
    case Request(i, ok, answer) =>
      var r := Acquire(y.sessions[i], y.refs, ok, answer);
      System(y.sessions[i := r.view], r.refs, if r.got.Some? then y.out + multiset{r.got.value} else y.out)
    case GiveBack(s) => y.(refs := y.refs - multiset{s}, out := y.out - multiset{s})
    case ChangeMode(i, mode, refresh) =>
      y.(sessions := y.sessions[i := Set(y.sessions[i], mode, refresh)],
         refs := if refresh then y.refs - Kept(y.sessions[i]) else y.refs)
    case RefreshOf(i) => y.(sessions := y.sessions[i := Refreshed(y.sessions[i])], refs := y.refs - Kept(y.sessions[i]))
    case CloneOf(i) => y.(sessions := y.sessions + [y.sessions[i]], refs := y.refs + Kept(y.sessions[i]))
    case CloseOf(i) =>
      y.(sessions := y.sessions[i := Unset(y.sessions[i]).(open := false)], refs := y.refs - Kept(y.sessions[i]))
  }

  ghost predicate Runs(y: System, acts: seq<Action>)
    decreases |acts|
  {
    acts == [] || (Enabled(y, acts[0]) && Runs(Apply(y, acts[0]), acts[1..]))
  }

  ghost function Run(y: System, acts: seq<Action>): System
    requires Runs(y, acts)
    decreases |acts|
  {
    if acts == [] then y else Run(Apply(y, acts[0]), acts[1..])
  }

  /** The references all sessions keep. */
  ghost function AllKept(vs: seq<View>): multiset<Socket> {
    if vs == [] then multiset{} else AllKept(vs[..|vs| - 1]) + Kept(vs[|vs| - 1])
  }

  ghost predicate AllSound(vs: seq<View>) { forall i :: 0 <= i < |vs| ==> Sound(vs[i]) }

  /** Every reference is either a reservation of some session or with a caller. */
  ghost predicate Inv(y: System) { AllSound(y.sessions) && y.refs == AllKept(y.sessions) + y.out }

  lemma Regroup(x: multiset<Socket>, y: multiset<Socket>, z: multiset<Socket>)
    ensures (x + y) + z == (x + z) + y
  {
  }

  lemma {:induction false} KeptUpdate(vs: seq<View>, i: nat, v: View)
    requires i < |vs|
    ensures AllKept(vs[i := v]) + Kept(vs[i]) == AllKept(vs) + Kept(v)
    decreases |vs|
  {
    hide Kept;
    var k := |vs| - 1;
    var rest := vs[..k];
    if i == k {
      assert vs[i := v][..k] == rest;
      Regroup(AllKept(rest), Kept(v), Kept(vs[k]));
    } else {
      KeptUpdate(rest, i, v);
      assert vs[i := v][..k] == rest[i := v];
      Regroup(AllKept(rest[i := v]), Kept(vs[k]), Kept(vs[i]));
      Regroup(AllKept(rest), Kept(v), Kept(vs[k]));
    }
  }

  function One(o: Option<Socket>, x: Socket): nat { if o == Some(x) then 1 else 0 }

  lemma KeptCount(v: View, x: Socket)
    ensures Kept(v)[x] == One(v.master, x) + One(v.slave, x)
  {
  }

  lemma BindCount(v: View, refs: multiset<Socket>, s: Socket, x: Socket)
    requires !Bind(v, refs, s).panicked
    ensures var b := Bind(v, refs, s);
      && b.got == Some(s)
      && b.refs[x] + One(v.master, x) + One(v.slave, x) == refs[x] + One(b.view.master, x) + One(b.view.slave, x)
  {
  }

  lemma AcquireCount(v: View, refs: multiset<Socket>, slaveOk: bool, answer: Answer, x: Socket)
    requires !Acquire(v, refs, slaveOk, answer).panicked
    ensures var a := Acquire(v, refs, slaveOk, answer);
      a.refs[x] + One(v.master, x) + One(v.slave, x) == refs[x] + One(a.view.master, x) + One(a.view.slave, x) + One(a.got, x)
  {
    hide Bind;
    if Reserved(v, slaveOk).None? && answer.Gives? && (v.mode != Eventual || v.slave.Some?) {
      var s := answer.socket;
      assert !Bind(v, refs + multiset{s}, s).panicked;
      BindCount(v, refs + multiset{s}, s, x);
    }
  }

  /** A request adds what it reserves and what it hands out. */
  lemma AcquireCounts(v: View, refs: multiset<Socket>, slaveOk: bool, answer: Answer)
    requires !Acquire(v, refs, slaveOk, answer).panicked
    ensures var a := Acquire(v, refs, slaveOk, answer);
      a.refs + Kept(v) == (refs + Kept(a.view)) + (if a.got.Some? then multiset{a.got.value} else multiset{})
  {
    hide Acquire, Kept;
    var a := Acquire(v, refs, slaveOk, answer);
    var got := if a.got.Some? then multiset{a.got.value} else multiset{};
    forall x ensures (a.refs + Kept(v))[x] == ((refs + Kept(a.view)) + got)[x] {
      AcquireCount(v, refs, slaveOk, answer, x);
      KeptCount(v, x);
      KeptCount(a.view, x);
      assert got[x] == One(a.got, x);
    }
    assert a.refs + Kept(v) == (refs + Kept(a.view)) + got;
  }

  /** Books balance when a session's reservations change by what the counts and the callers gain. */
  lemma Balances(y: System, i: nat, v: View, refs: multiset<Socket>, out: multiset<Socket>)
    requires Inv(y) && i < |y.sessions| && Sound(v)
    requires refs + Kept(y.sessions[i]) + y.out == (y.refs + Kept(v)) + out
    ensures Inv(System(y.sessions[i := v], refs, out))
  {
    hide Kept, Sound, AllKept;
    KeptUpdate(y.sessions, i, v);
    var before, after, old1 := AllKept(y.sessions), AllKept(y.sessions[i := v]), Kept(y.sessions[i]);
    forall x ensures refs[x] == (after + out)[x] {
      assert (after + old1)[x] == (before + Kept(v))[x];
      assert (refs + old1 + y.out)[x] == ((y.refs + Kept(v)) + out)[x];
      assert y.refs[x] == (before + y.out)[x];
    }
    assert refs == after + out;
  }

  lemma ReleaseBalances(y: System, i: nat, v: View)
    requires Inv(y) && i < |y.sessions| && Sound(v) && Kept(v) == multiset{}
    ensures Inv(System(y.sessions[i := v], y.refs - Kept(y.sessions[i]), y.out))
  {
    hide Sound, AllKept;
    KeptInRefs(y.sessions, i);
    var k := Kept(y.sessions[i]);
    assert k <= y.refs;
    assert (y.refs - k) + k == y.refs;
    assert y.refs + Kept(v) == y.refs;
    Balances(y, i, v, y.refs - k, y.out);
  }

  lemma {:induction false} KeptInRefs(vs: seq<View>, i: nat)
    requires i < |vs|
    ensures Kept(vs[i]) <= AllKept(vs)
    decreases |vs|
  {
    hide Kept;
    if i < |vs| - 1 { KeptInRefs(vs[..|vs| - 1], i); }
  }

  lemma RequestKeeps(y: System, a: Action)
    requires Inv(y) && a.Request? && Enabled(y, a)
    ensures Inv(Apply(y, a))
  {
    hide Kept, AllKept, Acquire, Sound;
    var v := y.sessions[a.i];
    StrongGetsMaster(v, y.refs, a.slaveOk, a.answer);
    AcquireCounts(v, y.refs, a.slaveOk, a.answer);
    var r := Acquire(v, y.refs, a.slaveOk, a.answer);
    var out' := Apply(y, a).out;
    var gain := if r.got.Some? then multiset{r.got.value} else multiset{};
    assert out' == y.out + gain;
    Regroup(y.refs + Kept(r.view), gain, y.out);
    assert r.refs + Kept(v) + y.out == (y.refs + Kept(r.view)) + out';
    Balances(y, a.i, r.view, r.refs, out');
  }

  lemma CloneKeeps(y: System, i: nat)
    requires Inv(y) && Enabled(y, CloneOf(i))
    ensures Inv(Apply(y, CloneOf(i)))
  {
    hide Kept, Sound;
    var vs := y.sessions + [y.sessions[i]];
    assert vs[..|vs| - 1] == y.sessions;
    Regroup(AllKept(y.sessions), y.out, Kept(y.sessions[i]));
  }

  lemma GiveBackKeeps(y: System, s: Socket)
    requires Inv(y) && s in y.out
    ensures Inv(Apply(y, GiveBack(s)))
  {
    hide Kept, Sound, AllKept;
  }

  lemma SetKeeps(y: System, a: Action)
    requires Inv(y) && a.ChangeMode? && Enabled(y, a)
    ensures Inv(Apply(y, a))
  {
    hide AllKept, Kept;
    var v := y.sessions[a.i];
    var v' := Set(v, a.mode, a.refresh);
    UnsetKeepsNone(v');
    if a.refresh {
      ReleaseBalances(y, a.i, v');
    } else {
      SameKept(v, v');
      Balances(y, a.i, v', y.refs, y.out);
    }
  }

  lemma SameKept(v: View, w: View)
    requires v.master == w.master && v.slave == w.slave
    ensures Kept(v) == Kept(w)
  {
  }

  lemma UnsetKeepsNone(v: View)
    ensures v.master.None? && v.slave.None? ==> Kept(v) == multiset{}
  {
  }

  lemma KeepsInv(y: System, a: Action)
    requires Inv(y) && Enabled(y, a)
    ensures Inv(Apply(y, a))
  {
    match a
    case Request(_, _, _) => RequestKeeps(y, a);
    case GiveBack(s) => GiveBackKeeps(y, s);
    case ChangeMode(_, _, _) => SetKeeps(y, a);
    case RefreshOf(i) =>
      UnsetKeepsNone(Refreshed(y.sessions[i]));
      ReleaseBalances(y, i, Refreshed(y.sessions[i]));
    case CloneOf(i) => CloneKeeps(y, i);
    case CloseOf(i) =>
      UnsetKeepsNone(Unset(y.sessions[i]).(open := false));
      ReleaseBalances(y, i, Unset(y.sessions[i]).(open := false));
  }

  /** Over every run the counts are the reservations plus the references with callers. */
  lemma {:induction false} RunKeepsInv(y: System, acts: seq<Action>)
    requires Inv(y) && Runs(y, acts)
    ensures Inv(Run(y, acts))
    decreases |acts|
  {
    hide Inv, Apply, Enabled;
    if acts != [] {
      KeepsInv(y, acts[0]);
      RunKeepsInv(Apply(y, acts[0]), acts[1..]);
    }
  }

  // ------------------------------------------------------------------------ consistency

  /** What a step hands out. */
  ghost function Got(y: System, a: Action): Option<Socket> {
    if a.Request? && a.i < |y.sessions| then Acquire(y.sessions[a.i], y.refs, a.slaveOk, a.answer).got else None
  }

  /** In every run, a session that is Strong at the moment gets only master sockets, and nothing panics. */
  lemma StrongIsConsistent(y: System, acts: seq<Action>, a: Action)
    requires Inv(y) && Runs(y, acts) && Enabled(Run(y, acts), a) && a.Request?
    ensures var v := Run(y, acts).sessions[a.i];
      && !Acquire(v, Run(y, acts).refs, a.slaveOk, a.answer).panicked
      && (v.mode == Strong && Got(Run(y, acts), a).Some? ==> Got(Run(y, acts), a).value.master)
  {
    hide Acquire, Apply, Runs, Run, AllKept;
    RunKeepsInv(y, acts);
    var z := Run(y, acts);
    StrongGetsMaster(z.sessions[a.i], z.refs, a.slaveOk, a.answer);
  }

  /** A step that neither refreshes nor closes a session of the family, nor takes it out of the two modes. */
  predicate Gentle(a: Action, family: set<nat>) {
    match a
    case ChangeMode(i, mode, refresh) => i in family ==> !refresh && (mode == Strong || mode == Monotonic)
    case RefreshOf(i) => i !in family
    case CloseOf(i) => i !in family
    case _ => true
  }

  /** Clones of the family's sessions join it. */
  function Grown(y: System, a: Action, family: set<nat>): set<nat> {
    if a.CloneOf? && a.i in family then family + {|y.sessions|} else family
  }

  ghost predicate GentleRun(y: System, acts: seq<Action>, family: set<nat>)
    requires Runs(y, acts)
    decreases |acts|
  {
    acts == [] || (Gentle(acts[0], family) && GentleRun(Apply(y, acts[0]), acts[1..], Grown(y, acts[0], family)))
  }

  /** Every socket handed to the family during the run is m. */
  ghost predicate AlwaysGets(y: System, acts: seq<Action>, family: set<nat>, m: Socket)
    requires Runs(y, acts)
    decreases |acts|
  {
    acts == [] ||
    (&& (acts[0].Request? && acts[0].i in family ==> Got(y, acts[0]) == Some(m))
     && AlwaysGets(Apply(y, acts[0]), acts[1..], Grown(y, acts[0], family), m))
  }

  ghost predicate FamilyPinned(y: System, family: set<nat>, m: Socket) {
    forall i :: i in family ==> i < |y.sessions| && Pinned(y.sessions[i], m)
  }

  lemma StepPinned(y: System, a: Action, family: set<nat>, m: Socket)
    requires Inv(y) && Enabled(y, a) && FamilyPinned(y, family, m) && Gentle(a, family)
    ensures FamilyPinned(Apply(y, a), Grown(y, a, family), m)
    ensures a.Request? && a.i in family ==> Got(y, a) == Some(m)
  {
    hide Acquire, Kept, AllKept, Sound;
    if a.Request? && a.i in family {
      PinnedGets(y.sessions[a.i], m, y.refs, a.slaveOk, a.answer);
    }
  }

  /**
   * After a write acquire, whatever mode changes between Monotonic and Strong and
   * whatever clones follow, the session and its clones get that same master socket.
   */
  lemma {:induction false} PinnedRun(y: System, acts: seq<Action>, family: set<nat>, m: Socket)
    requires Inv(y) && Runs(y, acts) && FamilyPinned(y, family, m) && GentleRun(y, acts, family)
    ensures AlwaysGets(y, acts, family, m)
    decreases |acts|
  {
    hide Inv, Apply, Enabled, FamilyPinned, Got, Gentle, Grown;
    if acts != [] {
      var a := acts[0];
      KeepsInv(y, a);
      StepPinned(y, a, family, m);
      PinnedRun(Apply(y, a), acts[1..], Grown(y, a, family), m);
    }
  }

  lemma ReadYourWrites(y: System, w: Action, acts: seq<Action>)
    requires Inv(y) && w.Request? && !w.slaveOk && Enabled(y, w) && Got(y, w).Some?
    requires y.sessions[w.i].mode == Strong || y.sessions[w.i].mode == Monotonic
    requires Runs(Apply(y, w), acts) && GentleRun(Apply(y, w), acts, {w.i})
    ensures var m := Got(y, w).value; m.master && AlwaysGets(Apply(y, w), acts, {w.i}, m)
  {
    hide Acquire, AlwaysGets, GentleRun, Runs, Kept, AllKept;
    WritePins(y.sessions[w.i], y.refs, w.answer);
    KeepsInv(y, w);
    PinnedRun(Apply(y, w), acts, {w.i}, Got(y, w).value);
  }

  // ------------------------------------------------------------------------ one switch only

  /** The sockets session i is handed during a run, in order. */
  ghost function Handed(y: System, acts: seq<Action>, i: nat): seq<Socket>
    requires Runs(y, acts)
    decreases |acts|
  {
    if acts == [] then []
    else
      var rest := Handed(Apply(y, acts[0]), acts[1..], i);
      if acts[0].Request? && acts[0].i == i && Got(y, acts[0]).Some? then [Got(y, acts[0]).value] + rest else rest
  }

  /** One slave socket first, perhaps, then one master socket for good. */
  predicate OneSwitch(h: seq<Socket>) {
    forall j, k :: 0 <= j < k < |h| ==> if h[j].master then h[k] == h[j] else !h[k].master ==> h[k] == h[j]
  }

  predicate Follows(v: View, h: seq<Socket>) {
    && (v.master.Some? ==> forall k :: 0 <= k < |h| ==> h[k] == v.master.value)
    && (v.slave.Some? ==> forall k :: 0 <= k < |h| && !h[k].master ==> h[k] == v.slave.value)
  }

  /** What a request hands out is reserved from then on, and reservations only grow. */
  lemma RequestReserves(v: View, refs: multiset<Socket>, slaveOk: bool, answer: Answer)
    requires Sound(v) && v.open && Trusted(v, slaveOk, answer) && (v.mode == Strong || v.mode == Monotonic)
    ensures var a := Acquire(v, refs, slaveOk, answer);
      && (v.master.Some? ==> a.view.master == v.master) && (v.slave.Some? ==> a.view.slave == v.slave)
      && (a.got.Some? ==> if a.got.value.master then a.view.master == a.got else a.view.slave == a.got)
      && (a.got.Some? && v.master.Some? ==> a.got == v.master)
      && a.view.mode == v.mode && a.view.open == v.open
  {
    hide Kept;
  }

  /** A session kept in the two modes and never refreshed changes sockets once at most, from a slave to a master. */
  lemma {:induction false} SwitchesOnce(y: System, acts: seq<Action>, i: nat)
    requires Inv(y) && Runs(y, acts) && GentleFor(acts, i) && i < |y.sessions| && y.sessions[i].open
    requires y.sessions[i].mode == Strong || y.sessions[i].mode == Monotonic
    ensures OneSwitch(Handed(y, acts, i)) && Follows(y.sessions[i], Handed(y, acts, i))
    decreases |acts|
  {
    hide Acquire, Kept, AllKept, OneSwitch, Follows;
    if acts == [] {
      NothingHanded(y.sessions[i]);
    } else {
      var a, y' := acts[0], Apply(y, acts[0]);
      assert Gentle(a, {i});
      KeepsInv(y, a);
      var rest := Handed(y', acts[1..], i);
      if a.Request? && a.i == i {
        RequestReserves(y.sessions[i], y.refs, a.slaveOk, a.answer);
        SwitchesOnce(y', acts[1..], i);
        HandOne(y.sessions[i], y'.sessions[i], Got(y, a), rest);
      } else {
        SwitchesOnce(y', acts[1..], i);
        SameFollows(y.sessions[i], y'.sessions[i], rest);
      }
    }
  }

  predicate GentleFor(acts: seq<Action>, i: nat) { forall k :: 0 <= k < |acts| ==> Gentle(acts[k], {i}) }

  lemma NothingHanded(v: View)
    ensures OneSwitch([]) && Follows(v, [])
  {
  }

  lemma SameFollows(v: View, w: View, h: seq<Socket>)
    requires v.master == w.master && v.slave == w.slave && Follows(w, h)
    ensures Follows(v, h)
  {
  }

  lemma HandOne(v: View, w: View, got: Option<Socket>, rest: seq<Socket>)
    requires (v.master.Some? ==> w.master == v.master) && (v.slave.Some? ==> w.slave == v.slave)
    requires got.Some? ==> if got.value.master then w.master == got else w.slave == got
    requires got.Some? && v.master.Some? ==> got == v.master
    requires OneSwitch(rest) && Follows(w, rest)
    ensures var h := if got.Some? then [got.value] + rest else rest; OneSwitch(h) && Follows(v, h)
  {
  }
}
