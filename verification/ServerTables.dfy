/**
 * The cluster's server lists as the source keeps them, sorted by address and searched
 * by halving, and the two operations on them that the synchronization uses, proved to
 * take the steps of the synchronization model in place.
 */
module ServerTables {
  import opened ClusterSync

  datatype Option<T> = None | Some(value: T)

  predicate Ordered(s: seq<Server>) { forall i, j :: 0 <= i < j < |s| ==> s[i].addr <= s[j].addr }

  /** How often an address is in a list. */
  function Count(s: seq<Server>, a: Addr): nat {
    if s == [] then 0 else Count(s[..|s| - 1], a) + if s[|s| - 1].addr == a then 1 else 0
  }

  function Inserted(s: seq<Server>, i: nat, v: Server): seq<Server>
    requires i <= |s|
  {
    s[..i] + [v] + s[i..]
  }

  lemma {:induction false} CountInserted(s: seq<Server>, i: nat, v: Server, a: Addr)
    requires i <= |s|
    ensures Count(Inserted(s, i, v), a) == Count(s, a) + if v.addr == a then 1 else 0
    decreases |s|
  {
    var r, n := Inserted(s, i, v), |s| - 1;
    if i == |s| {
      assert r[..|s|] == s;
    } else {
      CountInserted(s[..n], i, v, a);
      assert r[..|s|] == Inserted(s[..n], i, v);
    }
  }

  lemma {:induction false} CountIn(s: seq<Server>, a: Addr)
    ensures Count(s, a) > 0 <==> exists i :: 0 <= i < |s| && s[i].addr == a
    decreases |s|
  {
    if s != [] {
      var n := |s| - 1;
      CountIn(s[..n], a);
      if Count(s[..n], a) > 0 {
        var i :| 0 <= i < n && s[..n][i].addr == a;
        assert s[i].addr == a;
      }
      forall i | 0 <= i < |s| && s[i].addr == a ensures Count(s, a) > 0 {
        if i < n { assert s[..n][i].addr == a; }
      }
    }
  }

  lemma OrderedInserted(s: seq<Server>, i: nat, v: Server)
    requires i <= |s| && Ordered(s) && (forall k :: 0 <= k < i ==> s[k].addr <= v.addr) && (forall k :: i <= k < |s| ==> v.addr <= s[k].addr)
    ensures Ordered(Inserted(s, i, v))
  {
  }

  lemma OrderedLess(s: seq<Server>, i: nat)
    requires i < |s| && Ordered(s)
    ensures var r := s[..i] + s[i + 1..]; Ordered(r) && s == Inserted(r, i, s[i])
  {
  }

  class Servers {
    var slice: seq<Server>

    constructor ()
      ensures slice == []
    {
      slice := [];
    }

    /** Search by halving: the first place that is not before the address. */
    method Find(a: Addr) returns (i: nat, ok: bool)
      requires Ordered(slice)
      ensures i <= |slice| && (forall k :: 0 <= k < i ==> slice[k].addr < a) && (forall k :: i <= k < |slice| ==> a <= slice[k].addr)
      ensures ok <==> i < |slice| && slice[i].addr == a
      ensures ok <==> Count(slice, a) > 0
    {
      i := 0;
      var j := |slice|;
      while i < j
        invariant 0 <= i <= j <= |slice|
        invariant (forall k :: 0 <= k < i ==> slice[k].addr < a) && (forall k :: j <= k < |slice| ==> a <= slice[k].addr)
      {
        var h := (i + j) / 2;
        if slice[h].addr >= a { j := h; } else { i := h + 1; }
      }
      ok := i != |slice| && slice[i].addr == a;
      CountIn(slice, a);
    }

    /** The server joins the list, which is in order again afterwards. */
    method Add(v: Server) returns (ghost at: nat)
      requires Ordered(slice)
      modifies this
      ensures Ordered(slice) && at <= |old(slice)| && slice == Inserted(old(slice), at, v)
    {
      var i := |slice|;
      while i > 0 && v.addr < slice[i - 1].addr
        invariant 0 <= i <= |slice| && forall k :: i <= k < |slice| ==> v.addr <= slice[k].addr
      {
        i := i - 1;
      }
      OrderedInserted(slice, i, v);
      slice := slice[..i] + [v] + slice[i..];
      at := i;
    }

    /** One server with the address leaves, if there is one. */
    method Remove(a: Addr) returns (r: Option<Server>, ghost at: nat)
      requires Ordered(slice)
      modifies this
      ensures Ordered(slice) && (r.Some? <==> Count(old(slice), a) > 0)
      ensures r.Some? ==> r.value.addr == a && at <= |slice| && old(slice) == Inserted(slice, at, r.value)
      ensures r.None? ==> slice == old(slice)
    {
      hide Count, Ordered, Inserted;
      var i, ok := Find(a);
      at := i;
      if ok {
        OrderedLess(slice, i);
        r := Some(slice[i]);
        slice := slice[..i] + slice[i + 1..];
      } else {
        r := None;
      }
    }
  }

  /** The list holds exactly the servers of the table, each once. */
  ghost predicate Lists(s: seq<Server>, t: map<Addr, Server>) {
    && (forall a :: Count(s, a) == if a in t then 1 else 0)
    && (forall i :: 0 <= i < |s| ==> s[i].addr in t && t[s[i].addr] == s[i])
  }

  ghost predicate Counts(s: seq<Server>, m: multiset<Addr>) { forall a :: Count(s, a) == m[a] }

  lemma ListsMore(s: seq<Server>, at: nat, t: map<Addr, Server>, v: Server)
    requires at <= |s| && Lists(s, t) && v.addr !in t
    ensures Lists(Inserted(s, at, v), t[v.addr := v])
  {
    var r := Inserted(s, at, v);
    forall a ensures Count(r, a) == if a in t[v.addr := v] then 1 else 0 { CountInserted(s, at, v, a); }
    hide Count;
    forall i | 0 <= i < |r| ensures r[i].addr in t[v.addr := v] && t[v.addr := v][r[i].addr] == r[i] {
      assert r[i] == if i < at then s[i] else if i == at then v else s[i - 1];
    }
  }

  lemma ListsLess(s: seq<Server>, at: nat, t: map<Addr, Server>, v: Server)
    requires at <= |s| && Lists(Inserted(s, at, v), t)
    ensures Lists(s, t - {v.addr})
  {
    var r := Inserted(s, at, v);
    assert r[at] == v;
    forall a ensures Count(s, a) == if a in t - {v.addr} then 1 else 0 { CountInserted(s, at, v, a); }
    forall i | 0 <= i < |s| ensures s[i].addr in t - {v.addr} && t[s[i].addr] == s[i] {
      CountIn(s, s[i].addr);
      assert s[i] == r[if i < at then i else i + 1];
    }
  }

  lemma CountsMore(s: seq<Server>, at: nat, m: multiset<Addr>, v: Server)
    requires at <= |s| && Counts(s, m)
    ensures Counts(Inserted(s, at, v), m + multiset{v.addr})
  {
    forall a ensures Count(Inserted(s, at, v), a) == (m + multiset{v.addr})[a] { CountInserted(s, at, v, a); }
  }

  lemma CountsLess(s: seq<Server>, at: nat, m: multiset<Addr>, v: Server)
    requires at <= |s| && Counts(Inserted(s, at, v), m)
    ensures Counts(s, m - multiset{v.addr})
  {
    forall a ensures Count(s, a) == (m - multiset{v.addr})[a] { CountInserted(s, at, v, a); }
  }

  lemma CountsNone(s: seq<Server>, m: multiset<Addr>, a: Addr)
    requires Counts(s, m) && Count(s, a) == 0
    ensures m - multiset{a} == m
  {
    assert m[a] == 0;
  }

  lemma TableHas(s: seq<Server>, t: map<Addr, Server>, a: Addr)
    requires Lists(s, t)
    ensures Count(s, a) > 0 <==> a in t
    ensures a !in t ==> t - {a} == t
  {
  }

  /** The part of a cluster under its lock. */
  class Tables {
    const servers: Servers
    const masters: Servers
    var info: map<Server, bool>

    /** The tables stand for a cluster state. */
    ghost predicate Is(c: Cluster)
      reads this, servers, masters
    {
      && servers != masters && Ordered(servers.slice) && Ordered(masters.slice)
      && Lists(servers.slice, c.servers) && Counts(masters.slice, c.masters) && info == c.info
    }

    constructor ()
      ensures Is(Cluster(map[], multiset{}, map[], false)) && fresh(servers) && fresh(masters)
    {
      servers := new Servers();
      masters := new Servers();
      info := map[];
    }

    method RemoveMaster(a: Addr, ghost m: multiset<Addr>)
      requires Ordered(masters.slice) && Counts(masters.slice, m)
      modifies masters
      ensures Ordered(masters.slice) && Counts(masters.slice, m - multiset{a})
    {
      hide Count, Counts, Ordered, Inserted;
      ghost var was := masters.slice;
      var r, at := masters.Remove(a);
      if r.Some? {
        CountsLess(masters.slice, at, m, r.value);
      } else {
        CountsNone(was, m, a);
      }
    }

    method AddMaster(v: Server, ghost m: multiset<Addr>)
      requires Ordered(masters.slice) && Counts(masters.slice, m)
      modifies masters
      ensures Ordered(masters.slice) && Counts(masters.slice, m + multiset{v.addr})
    {
      hide Count, Counts, Ordered, Inserted;
      ghost var was := masters.slice;
      ghost var at := masters.Add(v);
      CountsMore(was, at, m, v);
    }

    /** removeServer takes the removal step of the model. */
    method RemoveServer(a: Addr, ghost c: Cluster)
      requires Is(c)
      modifies this, servers, masters
      ensures Is(Drop(c, a))
    {
      hide Lists, Counts, Count, Ordered, Inserted;
      RemoveMaster(a, c.masters);
      ghost var was := servers.slice;
      TableHas(was, c.servers, a);
      var other, at := servers.Remove(a);
      if other.Some? { ListsLess(servers.slice, at, c.servers, other.value); }
    }

    /** addServer takes the addition step of the model; another object at the address is the panic. */
    method AddServer(v: Server, master: bool, complete: bool, ghost c: Cluster) returns (panicked: bool)
      requires Is(c) && !c.panicked
      modifies this, servers, masters
      ensures panicked == ClusterSync.AddServer(c, v, master, complete).panicked
      ensures !panicked ==> Is(ClusterSync.AddServer(c, v, master, complete))
    {
      hide Counts, Count, Ordered, Inserted;
      ghost var was := servers.slice;
      var i, found := servers.Find(v.addr);
      TableHas(was, c.servers, v.addr);
      if !found {
        if !complete { return false; }
        ghost var at := servers.Add(v);
        ListsMore(was, at, c.servers, v);
        if master { AddMaster(v, c.masters); }
      } else {
        if v != servers.slice[i] { return true; }
        if (v in info && info[v]) != master {
          if master { AddMaster(v, c.masters); } else { RemoveMaster(v.addr, c.masters); }
        }
      }
      info := info[v := master];
      panicked := false;
    }
  }
}
