/**
 * The timer scheduler: a binary heap kept in a fixed array by sifting up and
 * down, and the run that fires due timers through the ring buffer. Timers are
 * values here: each lives in one slot, so the shared pointers of the source are
 * not observable.
 */
module TimerHeap {
  import opened RingQueue
  import opened TimerOwed
  import opened TimerEnds

  const TWO_TO_32 := 0x1_0000_0000

  datatype Timer = Timer(alarm: Alarm, index: int)

  // ------------------------------------------------------------------ the heap in the array

  function Parent(k: nat): (p: nat)
    requires k > 0
    ensures p < k
  {
    (k - 1) / 2
  }

  /** The timer at k is not due before its parent. */
  predicate Edge(s: seq<Timer>, k: nat)
    requires 0 < k < |s|
  {
    s[Parent(k)].alarm.end <= s[k].alarm.end
  }

  predicate Heap(s: seq<Timer>, n: nat)
    requires n <= |s|
  {
    forall k :: 0 < k < n ==> Edge(s, k)
  }

  /** A heap but for the timer at i: only the edges from and to it may be wrong. */
  predicate HeapBut(s: seq<Timer>, n: nat, i: nat)
    requires n <= |s|
  {
    && (forall k :: 0 < k < n && k != i && Parent(k) != i ==> Edge(s, k))
    && (forall k :: 0 < k < n && Parent(k) == i && i > 0 ==> s[Parent(i)].alarm.end <= s[k].alarm.end)
  }

  predicate ChildrenRight(s: seq<Timer>, n: nat, i: nat)
    requires n <= |s|
  {
    forall k :: 0 < k < n && Parent(k) == i ==> Edge(s, k)
  }

  predicate Indexed(s: seq<Timer>, n: nat)
    requires n <= |s|
  {
    forall k :: 0 <= k < n ==> s[k].index == k
  }

  function Swapped(s: seq<Timer>, i: nat, j: nat): (r: seq<Timer>)
    requires i < |s| && j < |s|
    ensures |r| == |s| && r[i].alarm == s[j].alarm && r[j].alarm == s[i].alarm
    ensures forall k :: 0 <= k < |s| && k != i && k != j ==> r[k] == s[k]
  {
    s[i := Timer(s[j].alarm, i)][j := Timer(s[i].alarm, j)]
  }

  /** The alarms in the first n slots. */
  function Alarms(s: seq<Timer>, n: nat): (m: multiset<Alarm>)
    requires n <= |s|
    ensures |m| == n
  {
    if n == 0 then multiset{} else Alarms(s, n - 1) + multiset{s[n - 1].alarm}
  }

  lemma {:induction false} AlarmsFrame(s: seq<Timer>, r: seq<Timer>, n: nat)
    requires n <= |s| && n <= |r| && forall k :: 0 <= k < n ==> s[k].alarm == r[k].alarm
    ensures Alarms(s, n) == Alarms(r, n)
    decreases n
  {
    if n > 0 { AlarmsFrame(s, r, n - 1); }
  }

  lemma {:induction false} AlarmsUpdate(s: seq<Timer>, i: nat, t: Timer, n: nat)
    requires i < n <= |s|
    ensures Alarms(s[i := t], n) + multiset{s[i].alarm} == Alarms(s, n) + multiset{t.alarm}
    decreases n
  {
    var r := s[i := t];
    if i == n - 1 {
      AlarmsFrame(s, r, n - 1);
    } else {
      AlarmsUpdate(s, i, t, n - 1);
      AddSame(Alarms(r, n - 1), Alarms(s, n - 1), s[i].alarm, t.alarm, s[n - 1].alarm);
    }
  }

  lemma AddSame(x: multiset<Alarm>, y: multiset<Alarm>, a: Alarm, b: Alarm, c: Alarm)
    requires x + multiset{a} == y + multiset{b}
    ensures (x + multiset{c}) + multiset{a} == (y + multiset{c}) + multiset{b}
  {
    assert (x + multiset{c}) + multiset{a} == (x + multiset{a}) + multiset{c};
  }

  lemma SwapKeepsAlarms(s: seq<Timer>, i: nat, j: nat, n: nat)
    requires i < n <= |s| && j < n
    ensures Alarms(Swapped(s, i, j), n) == Alarms(s, n)
  {
    hide Alarms;
    var t := s[i := Timer(s[j].alarm, i)];
    AlarmsUpdate(s, i, Timer(s[j].alarm, i), n);
    AlarmsUpdate(t, j, Timer(s[i].alarm, j), n);
    var a, b, c := Alarms(s, n), Alarms(t, n), Alarms(Swapped(s, i, j), n);
    assert b + multiset{s[i].alarm} == a + multiset{s[j].alarm};
    assert c + multiset{t[j].alarm} == b + multiset{s[i].alarm};
    assert t[j].alarm == s[j].alarm;
    assert c + multiset{s[j].alarm} == a + multiset{s[j].alarm};
    assert c == a by { assert c == (c + multiset{s[j].alarm}) - multiset{s[j].alarm}; }
  }

  lemma {:induction false} AlarmIn(s: seq<Timer>, n: nat, k: nat)
    requires k < n <= |s|
    ensures s[k].alarm in Alarms(s, n)
    decreases n
  {
    if k < n - 1 { AlarmIn(s, n - 1, k); }
  }

  lemma {:induction false} AlarmAt(s: seq<Timer>, n: nat, a: Alarm) returns (k: nat)
    requires n <= |s| && a in Alarms(s, n)
    ensures k < n && s[k].alarm == a
    decreases n
  {
    if s[n - 1].alarm == a { k := n - 1; } else { k := AlarmAt(s, n - 1, a); }
  }

  /** The root of a heap is due first. */
  lemma {:induction false} RootFirst(s: seq<Timer>, n: nat, k: nat)
    requires k < n <= |s| && Heap(s, n)
    ensures s[0].alarm.end <= s[k].alarm.end
    decreases k
  {
    if k > 0 {
      RootFirst(s, n, Parent(k));
      assert Edge(s, k);
    }
  }

  lemma RootIsLeast(s: seq<Timer>, n: nat)
    requires 0 < n <= |s| && Heap(s, n)
    ensures s[0].alarm in Alarms(s, n)
    ensures forall a :: a in Alarms(s, n) ==> s[0].alarm.end <= a.end
  {
    hide Alarms, Heap;
    AlarmIn(s, n, 0);
    forall a | a in Alarms(s, n) ensures s[0].alarm.end <= a.end {
      var k := AlarmAt(s, n, a);
      RootFirst(s, n, k);
    }
  }

  /** Exchanging a timer with its earlier child moves the disorder one level down. */
  lemma DownStep(s: seq<Timer>, n: nat, i: nat, j: nat)
    requires 0 < j < n <= |s| && i == Parent(j) && HeapBut(s, n, i) && s[j].alarm.end < s[i].alarm.end
    requires forall k :: 0 < k < n && Parent(k) == i ==> s[j].alarm.end <= s[k].alarm.end
    ensures HeapBut(Swapped(s, i, j), n, j) && Edge(Swapped(s, i, j), j)
  {
    var r := Swapped(s, i, j);
    forall k | 0 < k < n && k != j && Parent(k) != j ensures Edge(r, k) {
      if k == i {
        assert s[Parent(i)].alarm.end <= s[j].alarm.end;
      } else if Parent(k) != i {
        assert Edge(s, k);
      }
    }
    forall k | 0 < k < n && Parent(k) == j ensures r[Parent(j)].alarm.end <= r[k].alarm.end { assert Edge(s, k); }
  }

  /** Exchanging a timer with its later parent moves the disorder one level up. */
  lemma UpStep(s: seq<Timer>, n: nat, i: nat, j: nat)
    requires 0 < j < n <= |s| && i == Parent(j) && HeapBut(s, n, j) && ChildrenRight(s, n, j)
    requires s[j].alarm.end < s[i].alarm.end
    ensures HeapBut(Swapped(s, i, j), n, i) && ChildrenRight(Swapped(s, i, j), n, i)
  {
    var r := Swapped(s, i, j);
    forall k | 0 < k < n && k != i && Parent(k) != i ensures Edge(r, k) {
      if Parent(k) != j { assert Edge(s, k); }
    }
    if i > 0 { assert Edge(s, i); }
    forall k | 0 < k < n && Parent(k) == i ensures Edge(r, k) && (i > 0 ==> r[Parent(i)].alarm.end <= r[k].alarm.end) {
      if k != j { assert Edge(s, k); }
    }
  }

  lemma HeapButIsHeap(s: seq<Timer>, n: nat, i: nat)
    requires n <= |s| && HeapBut(s, n, i) && ChildrenRight(s, n, i) && (0 < i < n ==> Edge(s, i))
    ensures Heap(s, n)
  {
  }

  /** Taking the last slot away, or filling it, leaves the rest a heap. */
  lemma HeapIsHeapBut(s: seq<Timer>, n: nat, i: nat, r: seq<Timer>)
    requires n <= |s| && Heap(s, n) && |r| == |s| && (forall k :: 0 <= k < n && k != i ==> r[k].alarm == s[k].alarm)
    ensures HeapBut(r, n, i)
  {
    forall k | 0 < k < n && k != i && Parent(k) != i ensures Edge(r, k) { assert Edge(s, k); }
    forall k | 0 < k < n && Parent(k) == i && i > 0 ensures r[Parent(i)].alarm.end <= r[k].alarm.end {
      assert Edge(s, k) && Edge(s, i);
    }
  }

  // ------------------------------------------------------------------------ the manager

  class TimerManager {
    var id: nat
    const tq: array<Timer>
    var len: nat

    ghost predicate Valid()
      reads this`len, tq
    {
      len <= tq.Length && Heap(tq[..], len) && Indexed(tq[..], len) && AllWords(Alarms(tq[..], len))
    }

    ghost function Pending(): multiset<Alarm>
      requires len <= tq.Length
      reads this`len, tq
    {
      Alarms(tq[..], len)
    }

    lemma Fits()
      requires Valid()
      ensures len <= tq.Length && |Pending()| == len
    {
      hide Heap, Indexed, AllWords;
      AlarmsNumber(tq[..], len);
    }

    constructor (size: nat)
      ensures Valid() && Pending() == multiset{} && id == 0 && fresh(tq)
      ensures tq.Length == if size == 0 then 1024 else size
    {
      var n := if size == 0 then 1024 else size;
      tq := new Timer[n](_ => Timer(Alarm(0, 0, 0, 0), -1));
      len, id := 0, 0;
    }

    method Swap(i: nat, j: nat)
      requires i < tq.Length && j < tq.Length
      modifies tq
      ensures tq[..] == Swapped(old(tq[..]), i, j)
    {
      tq[i], tq[j] := tq[j], tq[i];
      tq[i] := tq[i].(index := i);
      tq[j] := tq[j].(index := j);
      assert tq[..] == Swapped(old(tq[..]), i, j);
    }

    /** Sifts the timer at `from` down among the first n; says whether it moved. */
    method Down(from: nat, n: nat) returns (moved: bool)
      requires from < tq.Length && n <= tq.Length && HeapBut(tq[..], n, from) && Indexed(tq[..], n)
      modifies tq
      ensures Indexed(tq[..], n) && Alarms(tq[..], n) == old(Alarms(tq[..], n))
      ensures forall k :: n <= k < tq.Length ==> tq[k] == old(tq[k])
      ensures moved ==> Heap(tq[..], n)
      ensures !moved ==> tq[..] == old(tq[..]) && ChildrenRight(tq[..], n, from)
    {
      hide Alarms, HeapBut, Heap, Swapped;
      var i := from;
      while true
        invariant from <= i < tq.Length && (i == from || i < n)
        invariant HeapBut(tq[..], n, i) && Indexed(tq[..], n) && Alarms(tq[..], n) == old(Alarms(tq[..], n))
        invariant forall k :: n <= k < tq.Length ==> tq[k] == old(tq[k])
        invariant if i == from then tq[..] == old(tq[..]) else Edge(tq[..], i)
        decreases n - i
      {
        var j := 2 * i + 1;
        if j >= n {
          NoChildren(tq[..], n, i);
          break;
        }
        if j + 1 < n && tq[j + 1].alarm.end < tq[j].alarm.end { j := j + 1; }
        LeastChild(tq[..], n, i, j);
        if tq[j].alarm.end >= tq[i].alarm.end { break; }
        DownStep(tq[..], n, i, j);
        SwapKeepsAlarms(tq[..], i, j, n);
        SwapIndexed(tq[..], i, j, n);
        Swap(i, j);
        i := j;
      }
      moved := i > from;
      if moved { HeapButIsHeap(tq[..], n, i); }
    }

    /** Sifts the timer at `from` up. */
    method Up(from: nat, n: nat)
      requires from < n <= tq.Length && HeapBut(tq[..], n, from) && ChildrenRight(tq[..], n, from) && Indexed(tq[..], n)
      modifies tq
      ensures Heap(tq[..], n) && Indexed(tq[..], n) && Alarms(tq[..], n) == old(Alarms(tq[..], n))
      ensures forall k :: n <= k < tq.Length ==> tq[k] == old(tq[k])
    {
      hide Alarms, HeapBut, Heap, Swapped, ChildrenRight;
      var j: nat := from;
      while j > 0
        invariant j < n && HeapBut(tq[..], n, j) && ChildrenRight(tq[..], n, j)
        invariant Indexed(tq[..], n) && Alarms(tq[..], n) == old(Alarms(tq[..], n))
        invariant forall k :: n <= k < tq.Length ==> tq[k] == old(tq[k])
      {
        var i := (j - 1) / 2;
        if tq[j].alarm.end >= tq[i].alarm.end { break; }
        UpStep(tq[..], n, i, j);
        SwapKeepsAlarms(tq[..], i, j, n);
        SwapIndexed(tq[..], i, j, n);
        Swap(i, j);
        j := i;
      }
      HeapButIsHeap(tq[..], n, j);
    }

    /** container/heap's Push. */
    method HeapPush(a: Alarm)
      requires Valid() && len < tq.Length && Words(a)
      modifies this`len, tq
      ensures Valid() && len == old(len) + 1 && Pending() == old(Pending()) + multiset{a}
    {
      hide Alarms, HeapBut, Heap, Swapped, ChildrenRight;
      ghost var was := tq[..];
      tq[len] := Timer(a, len);
      len := len + 1;
      LastSlot(was, tq[..], len - 1);
      Up(len - 1, len);
    }

    /** container/heap's Pop: the timer due first leaves. */
    method HeapPop() returns (t: Timer)
      requires Valid() && len > 0
      modifies this`len, tq
      ensures Valid() && len == old(len) - 1 && t.index == -1 && t.alarm == old(tq[0].alarm)
      ensures t.alarm in old(Pending()) && Pending() == old(Pending()) - multiset{t.alarm}
      ensures forall a :: a in old(Pending()) ==> t.alarm.end <= a.end
    {
      hide Alarms, HeapBut, Heap, Swapped, ChildrenRight;
      ghost var was := tq[..];
      RootIsLeast(was, len);
      var n := len - 1;
      SwapOut(was, 0, n);
      Swap(0, n);
      var moved := Down(0, n);
      if !moved { HeapButIsHeap(tq[..], n, 0); }
      t := Timer(tq[n].alarm, -1);
      len := n;
    }

    /** container/heap's Remove of the timer at position i. */
    method HeapRemove(i: nat)
      requires Valid() && i < len
      modifies this`len, tq
      ensures Valid() && len == old(len) - 1 && Pending() == old(Pending()) - multiset{old(tq[i].alarm)}
    {
      hide Alarms, HeapBut, Heap, Swapped, ChildrenRight;
      ghost var was := tq[..];
      var n := len - 1;
      SwapOut(was, i, n);
      if n != i {
        Swap(i, n);
        var moved := Down(i, n);
        if !moved { Up(i, n); }
      }
      len := n;
    }

    /** Refuses with 0 when the queue is full; otherwise the id is the counter, modulo 2^32. */
    method AddTimer(who: int, e: Int64, iv: Int64) returns (given: nat)
      requires Valid() && id < TWO_TO_32
      modifies this, tq
      ensures Valid() && id < TWO_TO_32
      ensures old(len) == tq.Length ==> given == 0 && Pending() == old(Pending()) && id == old(id)
      ensures old(len) < tq.Length ==>
        given == id == (old(id) + 1) % TWO_TO_32 && Pending() == old(Pending()) + multiset{Alarm(who, given, e, iv)}
    {
      hide Alarms, Heap, Indexed;
      if tq.Length <= len { return 0; }
      id := (id + 1) % TWO_TO_32;
      HeapPush(Alarm(who, id, e, iv));
      given := id;
    }

    /** Removes one timer with this id if there is one, and nothing else. */
    method RemoveTimer(which: nat)
      requires Valid()
      modifies this`len, tq
      ensures Valid()
      ensures (forall a :: a in old(Pending()) ==> a.id != which) ==> Pending() == old(Pending())
      ensures (exists a :: a in old(Pending()) && a.id == which) ==>
        exists a :: a in old(Pending()) && a.id == which && Pending() == old(Pending()) - multiset{a}
    {
      hide Alarms, Heap;
      var k := 0;
      while k < len
        invariant k <= len <= tq.Length && Valid() && Pending() == old(Pending()) && len == old(len) && tq[..] == old(tq[..])
        invariant forall j :: 0 <= j < k ==> tq[j].alarm.id != which
      {
        if tq[k].alarm.id == which {
          ghost var a := tq[k].alarm;
          AlarmIn(tq[..], len, k);
          HeapRemove(tq[k].index);
          assert a in old(Pending()) && a.id == which && Pending() == old(Pending()) - multiset{a};
          return;
        }
        k := k + 1;
      }
      forall a | a in Pending() ensures a.id != which {
        var j := AlarmAt(tq[..], len, a);
      }
    }

    /** One round of the firing loop: the timer due first fires and, if periodic, goes back with its next deadline. */
    method FireFirst() returns (a: Alarm)
      requires Valid() && len > 0
      modifies this`len, tq
      ensures Valid() && a == old(tq[0].alarm) && a in old(Pending())
      ensures forall b :: b in old(Pending()) ==> a.end <= b.end
      ensures Pending() == After(old(Pending()), a)
    {
      hide Alarms, Heap, Indexed, After;
      var t := HeapPop();
      a := t.alarm;
      AfterCases(old(Pending()), a);
      if a.interval > 0 { HeapPush(a.(end := Wrapped(a.end + a.interval))); }
    }

    /** The timer due first fires and its callback enters the queue. */
    method FireInto(queue: Queue<int>) returns (a: Alarm)
      requires Valid() && len > 0 && queue.Valid()
      modifies this`len, tq, queue, queue.elems
      ensures Valid() && queue.Valid() && (queue.elems == old(queue.elems) || fresh(queue.elems))
      ensures queue.Contents() == old(queue.Contents()) + [a.who]
      ensures a == old(tq[0].alarm) && a in old(Pending()) && (forall b :: b in old(Pending()) ==> a.end <= b.end)
      ensures Pending() == After(old(Pending()), a)
    {
      hide Alarms, Heap, Indexed, After, AllWords, Filled, Items;
      a := FireFirst();
      queue.Push(a.who);
    }

    /**
     * The firing loop of Run: due timers leave the heap, their callbacks enter the queue. Without a
     * limit it ends exactly if every alarm does (LoopEndsExactly). If nothing due is left, every
     * owed call is made, and no other exactly if every next deadline fits.
     */
    method FireDue(queue: Queue<int>, now: Int64, limit: int) returns (ghost fired: seq<Alarm>)
      requires Valid() && queue.Valid() && queue.Contents() == []
      requires limit > 0 || AllEnd(Pending(), now)
      modifies this`len, tq, queue, queue.elems
      ensures Valid() && queue.Valid() && (queue.elems == old(queue.elems) || fresh(queue.elems))
      ensures queue.Contents() == Callbacks(fired) && (limit > 0 ==> |fired| <= limit)
      ensures Chain(old(Pending()), fired, Pending(), now)
      ensures limit <= 0 || |fired| < limit ==>
        && (forall a :: a in Pending() ==> a.end > now)
        && (forall x :: multiset(fired)[x] >= Owed(old(Pending()), now)[Fires(x)])
        && (ExactCalls(old(Pending()), fired, now) <==> AllFine(old(Pending()), now))
      ensures AllFine(old(Pending()), now) ==> Paid(old(Pending()), Pending(), fired, now)
    {
      hide Alarms, Heap, Indexed, Owed, Filled, Items, After, AllWords, AllFine, AllEnd, Paid, Chain, ExactCalls;
      ghost var start := Pending();
      fired := FireLoop(queue, now, limit);
      if AllFine(start, now) { ChainPaid(start, fired, Pending(), now); }
      if limit <= 0 || |fired| < limit { CallsExactly(start, fired, Pending(), now); }
    }

    method FireLoop(queue: Queue<int>, now: Int64, limit: int) returns (ghost fired: seq<Alarm>)
      requires Valid() && queue.Valid() && queue.Contents() == []
      requires limit > 0 || AllEnd(Pending(), now)
      modifies this`len, tq, queue, queue.elems
      ensures Valid() && queue.Valid() && (queue.elems == old(queue.elems) || fresh(queue.elems))
      ensures queue.Contents() == Callbacks(fired) && (limit > 0 ==> |fired| <= limit)
      ensures Chain(old(Pending()), fired, Pending(), now)
      ensures limit <= 0 || |fired| < limit ==> forall a :: a in Pending() ==> a.end > now
    {
      hide Alarms, Heap, Indexed, Total, Filled, Items, After, AllWords, AllEnd, AllCome, Chain;
      ghost var start := Pending();
      if limit <= 0 { AllEndExactly(start, now); }
      fired := [];
      EmptyChain(start, now);
      while len > 0
        invariant Valid() && queue.Valid() && (queue.elems == old(queue.elems) || fresh(queue.elems))
        invariant queue.Contents() == Callbacks(fired) && (limit > 0 ==> |fired| < limit)
        invariant Chain(start, fired, Pending(), now)
        decreases (if limit > 0 then limit else Total(start, now)) - |fired|
      {
        RootIsLeast(tq[..], len);
        if tq[0].alarm.end > now { return; }
        ghost var before := Pending();
        var a := FireInto(queue);
        ChainMore(start, fired, before, a, now);
        fired := fired + [a];
        if limit <= 0 { ChainSpends(start, fired, Pending(), now); }
        var n := queue.Len();
        if limit > 0 && n >= limit { return; }
      }
      NonePending(tq[..]);
    }

    /**
     * Fires what is due. Without a limit everything owed is paid and only later
     * deadlines stay; with one, at most that many calls are made. The callbacks
     * are made through the ring buffer, in deadline order.
     */
    method Run(queue: Queue<int>, now: Int64, limit: int) returns (called: seq<int>, ghost fired: seq<Alarm>)
      requires Valid() && queue.Valid() && queue.Contents() == []
      requires limit > 0 || AllEnd(Pending(), now)
      modifies this`len, tq, queue, queue.elems
      ensures Valid() && queue.Valid() && queue.Contents() == []
      ensures called == Callbacks(fired) && (limit > 0 ==> |called| <= limit)
      ensures Chain(old(Pending()), fired, Pending(), now)
      ensures limit <= 0 || |called| < limit ==>
        && (forall a :: a in Pending() ==> a.end > now)
        && (ExactCalls(old(Pending()), fired, now) <==> AllFine(old(Pending()), now))
      ensures AllFine(old(Pending()), now) ==>
        Ordered(fired) && Owed(old(Pending()), now) == Owed(Pending(), now) + Firings(fired)
    {
      hide Alarms, Heap, Indexed, Owed, Firings, Filled, Items, AllWords, AllFine, AllEnd, Chain, ExactCalls;
      fired := FireDue(queue, now, limit);
      called := Drain(queue);
    }

    /** Makes the calls that wait in the queue, first in, first out. */
    method Drain(queue: Queue<int>) returns (called: seq<int>)
      requires queue.Valid()
      modifies queue, queue.elems
      ensures queue.Valid() && queue.Contents() == [] && called == old(queue.Contents())
      ensures queue.elems == old(queue.elems) || fresh(queue.elems)
    {
      hide Queue.Valid, Queue.Contents;
      called := [];
      ghost var rest := queue.Contents();
      var n := queue.Len();
      while n > 0
        invariant queue.Valid() && (queue.elems == old(queue.elems) || fresh(queue.elems))
        invariant rest == queue.Contents() && n == |rest| && called + rest == old(queue.Contents())
      {
        var x := queue.Pop();
        called := called + [x.value];
        rest := rest[1..];
        n := queue.Len();
      }
    }
  }

  /** One alarm at time 1 with the longest interval: one call is owed and three are made. */
  method ThreeCalls() returns (called: seq<int>)
    ensures called == [7, 7, 7]
    ensures Owed(multiset{Alarm(7, 1, 1, MAX_INT64)}, 1) == multiset{Fires(Alarm(7, 1, 1, MAX_INT64)), Stays(Again(Alarm(7, 1, 1, MAX_INT64)))}
  {
    hide Owed, Chain, ExactCalls, AllFine, AllEnd, Ordered, TimerManager.Valid, Queue.Valid, Queue.Contents;
    var manager := OneAlarm();
    ghost var fired;
    var queue := new Queue<int>();
    manager.Fits();
    ItEnds(7, 1);
    called, fired := manager.Run(queue, 1, 0);
    manager.Fits();
    ThreeForOne(7, 1, fired, manager.Pending());
  }

  lemma ItEnds(who: int, id: nat)
    ensures AllEnd(multiset{Alarm(who, id, 1, MAX_INT64)}, 1)
  {
    assert Twos(MAX_INT64) == 1;
  }

  method OneAlarm() returns (manager: TimerManager)
    ensures fresh(manager) && fresh(manager.tq) && manager.Valid()
    ensures manager.Pending() == multiset{Alarm(7, 1, 1, MAX_INT64)}
  {
    hide Heap, Indexed, AllWords, Alarms;
    manager := new TimerManager(1);
    manager.Fits();
    var id := manager.AddTimer(7, 1, MAX_INT64);
  }

  lemma {:induction false} AlarmsNumber(s: seq<Timer>, n: nat)
    requires n <= |s|
    ensures |Alarms(s, n)| == n
  {
    if n > 0 { AlarmsNumber(s, n - 1); }
  }

  lemma NonePending(s: seq<Timer>)
    ensures Alarms(s, 0) == multiset{}
  {
  }

  lemma LastSlot(was: seq<Timer>, now: seq<Timer>, n: nat)
    requires n < |was| == |now| && Heap(was, n) && Indexed(was, n) && now == was[n := Timer(now[n].alarm, n)]
    ensures HeapBut(now, n + 1, n) && ChildrenRight(now, n + 1, n) && Indexed(now, n + 1)
    ensures Alarms(now, n + 1) == Alarms(was, n) + multiset{now[n].alarm}
  {
    hide Alarms;
    AlarmsFrame(was, now, n);
    forall k | 0 < k < n + 1 && k != n && Parent(k) != n ensures Edge(now, k) { assert Edge(was, k); }
    AlarmsStep(now, n);
  }

  lemma AlarmsStep(s: seq<Timer>, n: nat)
    requires n < |s|
    ensures Alarms(s, n + 1) == Alarms(s, n) + multiset{s[n].alarm}
  {
  }

  /** After exchanging position i with the last position n, the first n slots hold all but the alarm of i. */
  lemma SwapOut(s: seq<Timer>, i: nat, n: nat)
    requires i <= n < |s| && Heap(s, n + 1) && Indexed(s, n + 1)
    ensures var r := Swapped(s, i, n);
      HeapBut(r, n, i) && Indexed(r, n) && Alarms(r, n) == Alarms(s, n + 1) - multiset{s[i].alarm}
    ensures Heap(s, n) && Indexed(s, n) && (i == n ==> Alarms(s, n) == Alarms(s, n + 1) - multiset{s[i].alarm})
  {
    hide Alarms;
    var r := Swapped(s, i, n);
    assert Heap(s, n);
    HeapIsHeapBut(s, n, i, r);
    SwapKeepsAlarms(s, i, n, n + 1);
    AlarmsStep(r, n);
    AlarmsStep(s, n);
  }

  lemma NoChildren(s: seq<Timer>, n: nat, i: nat)
    requires n <= |s| && 2 * i + 1 >= n
    ensures ChildrenRight(s, n, i)
  {
  }

  /** Of the two children the code compares, j is due first, so nothing below i is due before it. */
  lemma LeastChild(s: seq<Timer>, n: nat, i: nat, j: nat)
    requires 0 < j < n <= |s| && (j == 2 * i + 1 || j == 2 * i + 2)
    requires j == 2 * i + 1 && j + 1 < n ==> s[j].alarm.end <= s[j + 1].alarm.end
    requires j == 2 * i + 2 ==> s[j].alarm.end < s[j - 1].alarm.end
    ensures Parent(j) == i
    ensures forall k :: 0 < k < n && Parent(k) == i ==> s[j].alarm.end <= s[k].alarm.end
    ensures s[i].alarm.end <= s[j].alarm.end ==> ChildrenRight(s, n, i)
  {
    forall k | 0 < k < n && Parent(k) == i ensures s[j].alarm.end <= s[k].alarm.end {
      assert k == 2 * i + 1 || k == 2 * i + 2;
    }
  }

  lemma SwapIndexed(s: seq<Timer>, i: nat, j: nat, n: nat)
    requires i < n <= |s| && j < n && Indexed(s, n)
    ensures Indexed(Swapped(s, i, j), n)
  {
  }
}
