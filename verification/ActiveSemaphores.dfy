/** The active semaphore list of phase2/asl.c, refining a map from semaphore address to queue. */
module ActiveSemaphores {
  import opened Sequences
  import opened ProcessQueues

  class Semd {
    var next: Semd?
    var semAdd: int
    var procQ: Pcb?

    constructor ()
      ensures next == null && procQ == null
    {
      next, semAdd, procQ := null, 0, null;
    }
  }

  ghost predicate LegalAddress(a: int) {
    0 < a < NULLADDR
  }

  // ---------- the abstract map ----------

  ghost function QueueAt(queues: map<int, seq<Pcb>>, a: int): seq<Pcb> {
    if a in queues then queues[a] else []
  }

  /** The map with the queue at a replaced; an empty queue leaves no entry behind. */
  ghost function WithQueue(queues: map<int, seq<Pcb>>, a: int, q: seq<Pcb>): map<int, seq<Pcb>> {
    if q == [] then queues - {a} else queues[a := q]
  }

  // ---------- the list of active descriptors ----------

  /** succ maps every address but the last to the next larger one; all lie between the sentinels. */
  ghost predicate InOrder(desc: map<int, Semd>, succ: map<int, int>) {
    && 0 in desc && NULLADDR in desc && (forall c | c in desc :: 0 <= c <= NULLADDR)
    && (forall c {:trigger c in succ} | c in desc && c != NULLADDR :: c in succ)
    && (forall c | c in succ :: c in desc)
    && (forall c {:trigger succ[c]} | c in succ :: c < succ[c] && succ[c] in desc)
    && (forall c, e {:trigger succ[c], e in desc} | c in succ && e in desc :: e <= c || succ[c] <= e)
  }

  /** The next pointers from the first sentinel run through desc in address order. */
  ghost predicate Chained(active: Semd, desc: map<int, Semd>, succ: map<int, int>, act: set<Semd>)
    reads act`next, act`semAdd
  {
    && InOrder(desc, succ)
    && active == desc[0]
    && (forall a | a in desc :: desc[a] in act && desc[a].semAdd == a)
    && (forall a {:trigger desc[a].next} | a in succ :: desc[a].next == desc[succ[a]])
  }

  lemma LinkedIn(active: Semd, desc: map<int, Semd>, succ: map<int, int>, act: set<Semd>, a: int, x: int, d: Semd)
    requires InOrder(desc, succ) && a in succ && a < x < succ[a] && active == desc[0]
    requires forall c | c in desc :: desc[c] in act && desc[c].semAdd == c
    requires forall c {:trigger desc[c].next} | c in succ && c != a :: desc[c].next == desc[succ[c]]
    requires desc[a].next == d && d.next == desc[succ[a]] && d.semAdd == x
    ensures x !in desc && Chained(active, desc[x := d], succ[a := x][x := succ[a]], act + {d})
  {
  }

  lemma LinkedOut(active: Semd, desc: map<int, Semd>, succ: map<int, int>, act: set<Semd>, a: int)
    requires InOrder(desc, succ) && a in succ && succ[a] in succ && active == desc[0]
    requires forall c | c in desc :: desc[c] in act && desc[c].semAdd == c
    requires forall c {:trigger desc[c].next} | c in succ && c != a :: desc[c].next == desc[succ[c]]
    requires desc[a].next == desc[succ[succ[a]]]
    ensures Chained(active, desc - {succ[a]}, (succ - {succ[a]})[a := succ[succ[a]]], act - {desc[succ[a]]})
  {
  }

  method Sentinels() returns (low: Semd, high: Semd)
    ensures fresh(low) && fresh(high) && low != high
    ensures Chained(low, map[0 := low, NULLADDR := high], map[0 := NULLADDR], {low, high})
  {
    low := new Semd();
    high := new Semd();
    low.next := high;
    high.next := null;
    low.semAdd := 0;
    high.semAdd := NULLADDR;
  }

  // ---------- the free descriptors ----------

  ghost predicate Spares(free: Semd?, spare: seq<Semd>)
    reads spare`next
  {
    && NoDup(spare)
    && free == (if spare == [] then null else spare[0])
    && (forall i {:trigger spare[i].next} | 0 <= i < |spare| - 1 :: spare[i].next == spare[i + 1])
    && (spare != [] ==> spare[|spare| - 1].next == null)
  }

  /** Active and free descriptors are disjoint, and together they are all there are. */
  ghost predicate Apart(desc: map<int, Semd>, spare: seq<Semd>, act: set<Semd>, table: set<Semd>, size: nat) {
    && Within(spare, table - act)
    && act <= table
    && |desc| + |spare| == size + 2
  }

  lemma MovedIn(desc: map<int, Semd>, spare: seq<Semd>, act: set<Semd>, table: set<Semd>, size: nat, a: int)
    requires Apart(desc, spare, act, table, size) && NoDup(spare) && spare != [] && a !in desc
    ensures Apart(desc[a := spare[0]], spare[1..], act + {spare[0]}, table, size)
  {
    var d := spare[0];
    assert d in spare;
    forall s | s in spare[1..]
      ensures s in table && s !in act && s != d
    {
      assert s in spare;
    }
  }

  /** The first MAXPROC entries of semdTable, chained in index order. */
  method ChainedSemds(n: nat) returns (t: seq<Semd>)
    requires n > 0
    ensures |t| == n && fresh(t) && Spares(t[0], t)
  {
    t := [];
    for i := 0 to n
      invariant |t| == i && NoDup(t) && fresh(t)
      invariant forall s | s in t :: s.next == null
    {
      var s := new Semd();
      t := t + [s];
    }
    for i := 1 to n
      invariant forall j {:trigger t[j].next} | 0 <= j < i - 1 :: t[j].next == t[j + 1]
      invariant forall j {:trigger t[j].next} | i - 1 <= j < n :: t[j].next == null
    {
      t[i - 1].next := t[i];
    }
  }

  // ---------- the queues ----------

  /** Descriptor d owns the nonempty queue q of processes blocked on a. */
  ghost predicate Holds(d: Semd, a: int, q: seq<Pcb>)
    reads d`procQ, q`next, q`prev, q`semAdd
  {
    q != [] && IsQueue(d.procQ, q) && forall p | p in q :: p.semAdd == a
  }

  lemma HeadOnce(d: Semd, a: int, q: seq<Pcb>)
    requires Holds(d, a, q)
    ensures forall p | p in q[1..] :: p in q && p != q[0]
    ensures forall p | p in q && p != q[0] :: p in q[1..]
  {
  }

  ghost predicate Within<T>(q: seq<T>, members: set<T>) {
    forall p | p in q :: p in members
  }

  /** Every queue of the map is held by its descriptor; members are the blocked processes. */
  ghost predicate AllHold(desc: map<int, Semd>, queues: map<int, seq<Pcb>>, members: set<Pcb>, act: set<Semd>)
    reads act`procQ, members`next, members`prev, members`semAdd
  {
    && (forall a | a in queues ::
          a in desc && desc[a] in act && Within(queues[a], members) && Holds(desc[a], a, queues[a]))
    && (forall p | p in members :: p.semAdd in queues && p in queues[p.semAdd])
  }

  ghost predicate Disjoint(b: seq<Pcb>, q: seq<Pcb>) {
    forall x | x in b :: x !in q
  }

  /** No process waits in two queues: its semAdd field names the only one. */
  lemma QueuesDisjoint(desc: map<int, Semd>, queues: map<int, seq<Pcb>>, members: set<Pcb>, act: set<Semd>, a: int)
    requires AllHold(desc, queues, members, act)
    ensures forall b | b in queues && b != a :: Disjoint(queues[b], QueueAt(queues, a))
  {
    forall b | b in queues && b != a
      ensures Disjoint(queues[b], QueueAt(queues, a))
    {
      assert Holds(desc[b], b, queues[b]);
      assert a in queues ==> Holds(desc[a], a, queues[a]);
    }
  }

  lemma AddedHolds(desc: map<int, Semd>, queues: map<int, seq<Pcb>>, members: set<Pcb>, act: set<Semd>, a: int, p: Pcb)
    requires forall b | b in queues && b != a ::
      b in desc && desc[b] in act && Within(queues[b], members) && Holds(desc[b], b, queues[b])
    requires a in desc && desc[a] in act && Within(QueueAt(queues, a), members)
    requires Holds(desc[a], a, QueueAt(queues, a) + [p])
    requires forall x | x in members && x.semAdd != a :: x.semAdd in queues && x in queues[x.semAdd]
    requires forall x | x in members && x.semAdd == a :: x in QueueAt(queues, a)
    ensures AllHold(desc, queues[a := QueueAt(queues, a) + [p]], members + {p}, act)
  {
  }

  /** A descriptor without a queue does not disturb the others. */
  lemma MoreHolds(desc: map<int, Semd>, queues: map<int, seq<Pcb>>, members: set<Pcb>, act: set<Semd>, a: int, d: Semd)
    requires AllHold(desc, queues, members, act) && a !in desc
    ensures AllHold(desc[a := d], queues, members, act + {d})
  {
  }

  /** What is left of the queue at a is q'; p has gone. */
  lemma RemovedHolds(desc: map<int, Semd>, queues: map<int, seq<Pcb>>, members: set<Pcb>, act: set<Semd>,
                     a: int, p: Pcb, q': seq<Pcb>)
    requires forall b | b in queues && b != a ::
      b in desc && desc[b] in act && Within(queues[b], members - {p}) && Holds(desc[b], b, queues[b])
    requires a in desc && desc[a] in act && a in queues
    requires q' != [] ==> Holds(desc[a], a, q') && Within(q', members - {p})
    requires forall x | x in members && x != p && x.semAdd != a :: x.semAdd in queues && x in queues[x.semAdd]
    requires forall x | x in members && x.semAdd == a && x != p :: x in q'
    ensures AllHold(desc, WithQueue(queues, a, q'), members - {p}, act)
  {
  }

  /** A descriptor whose queue has gone may leave. */
  lemma FewerHolds(desc: map<int, Semd>, queues: map<int, seq<Pcb>>, members: set<Pcb>, act: set<Semd>, a: int)
    requires AllHold(desc, queues, members, act) && a in desc && a !in queues
    requires forall b | b in desc && b != a :: desc[b] != desc[a]
    ensures AllHold(desc - {a}, queues, members, act - {desc[a]})
  {
  }

  method Enqueue(d: Semd, a: int, p: Pcb, ghost q: seq<Pcb>)
    requires IsQueue(d.procQ, q) && p !in q && forall x | x in q :: x.semAdd == a
    modifies d`procQ, p`next, p`prev, p`semAdd, q`next, q`prev
    ensures Holds(d, a, q + [p])
  {
    d.procQ := InsertProcQ(d.procQ, p, q);
    p.semAdd := a;
  }

  method DequeueFirst(d: Semd, a: int, ghost q: seq<Pcb>) returns (p: Pcb)
    requires Holds(d, a, q)
    modifies d`procQ, q`next, q`prev, q`semAdd
    ensures p == q[0] && p.semAdd == NULLADDR
    ensures |q| > 1 ==> Holds(d, a, q[1..])
    ensures d.procQ == null <==> |q| == 1
    ensures forall x | x in q && x != p :: x.semAdd == a
  {
    ghost var first := q[0];
    assert forall x | x in q[1..] :: x != first;
    var tail, head := RemoveProcQ(d.procQ, q);
    d.procQ, p := tail, head;
    p.semAdd := NULLADDR;
  }

  method DequeueOut(d: Semd, a: int, p: Pcb, ghost q: seq<Pcb>) returns (r: Pcb?)
    requires Holds(d, a, q) && p in q
    modifies d`procQ, q`next, q`prev, p`semAdd
    ensures r == p && p.semAdd == NULLADDR
    ensures Minus(q, {p}) != [] ==> Holds(d, a, Minus(q, {p}))
    ensures d.procQ == null <==> Minus(q, {p}) == []
  {
    MinusElements(q, {p});
    d.procQ, r := OutProcQ(d.procQ, p, q);
    r.semAdd := NULLADDR;
  }

  class Asl {
    var active: Semd
    var free: Semd?
    const size: nat
    ghost const table: set<Semd>
    ghost var spare: seq<Semd>
    ghost var desc: map<int, Semd>
    ghost var succ: map<int, int>
    ghost var act: set<Semd>
    ghost var queues: map<int, seq<Pcb>>
    ghost var members: set<Pcb>

    ghost predicate KeysOk()
      reads this`desc, this`queues
    {
      && (forall a | a in desc && LegalAddress(a) :: a in queues)
      && (forall a | a in queues :: a in desc && LegalAddress(a))
    }

    /** Everything but the agreement between descriptors and queues. */
    ghost predicate ListsOk()
      reads this, act, spare`next, members`next, members`prev, members`semAdd
    {
      && Chained(active, desc, succ, act) && Spares(free, spare)
      && Apart(desc, spare, act, table, size) && AllHold(desc, queues, members, act)
    }

    ghost predicate Valid()
      reads this, act, spare`next, members`next, members`prev, members`semAdd
    {
      ListsOk() && KeysOk()
    }

    constructor (n: nat)
      requires n > 0
      ensures Valid() && size == n && queues == map[] && members == {} && fresh(table)
    {
      var t := ChainedSemds(n);
      var low, high := Sentinels();
      active, free := low, t[0];
      size := n;
      act := {low, high};
      table := (set s | s in t) + {low, high};
      spare := t;
      succ := map[0 := NULLADDR];
      desc, queues, members := map[0 := low, NULLADDR := high], map[], {};
    }

    /** The last descriptor before a, and its address. */
    method Traverse(a: int) returns (s: Semd, ghost lo: int)
      requires Chained(active, desc, succ, act) && LegalAddress(a)
      ensures lo in succ && lo in desc && desc[lo] == s && lo < a <= succ[lo]
      ensures succ[lo] in desc && s.next == desc[succ[lo]] && s.next.semAdd == succ[lo]
      ensures s in act && s.next in act && (a in desc <==> succ[lo] == a)
    {
      s := active;
      lo := 0;
      while s.next.semAdd < a
        invariant lo in succ && lo in desc && desc[lo] == s && lo < a
        invariant s.next == desc[succ[lo]] && s.next.semAdd == succ[lo]
        decreases NULLADDR - lo
      {
        s := s.next;
        lo := succ[lo];
      }
    }

    ghost function FirstSpare(): set<Semd>
      reads this`spare
    {
      if spare == [] then {} else {spare[0]}
    }

    method SemdAlloc(a: int) returns (s: Semd?)
      requires Spares(free, spare)
      modifies this`free, this`spare, FirstSpare()`semAdd, FirstSpare()`procQ
      ensures old(spare) == [] ==> s == null && unchanged(this)
      ensures old(spare) != [] ==>
        && s == old(spare[0]) && s.semAdd == a && s.procQ == null
        && spare == old(spare[1..]) && Spares(free, spare)
    {
      if free == null {
        return null;
      }
      s := free;
      free := free.next;
      s.semAdd := a;
      s.procQ := MkEmptyProcQ();
      spare := spare[1..];
    }

    /** Hang d into the active list behind s. */
    method Link(s: Semd, d: Semd, ghost a: int, ghost x: int)
      requires Chained(active, desc, succ, act) && a in succ && desc[a] == s && d !in act
      requires d.semAdd == x && a < x < succ[a]
      modifies s`next, d`next, this`desc, this`act, this`succ
      ensures Chained(active, desc, succ, act)
      ensures x !in old(desc) && desc == old(desc)[x := d] && act == old(act) + {d} && s.next == d
    {
      ghost var desc0, succ0, act0 := desc, succ, act;
      desc := desc[x := d];
      succ := succ[a := x][x := succ[a]];
      act := act + {d};
      d.next := s.next;
      s.next := d;
      assert forall c {:trigger desc0[c].next} | c in succ0 && c != a ::
        desc0[c] != s && desc0[c].next == old(desc0[c].next);
      LinkedIn(active, desc0, succ0, act0, a, x, d);
    }

    /** Take the descriptor behind s out of the active list. */
    method Unlink(s: Semd, ghost a: int) returns (d: Semd)
      requires Chained(active, desc, succ, act) && a in succ && desc[a] == s && succ[a] in succ
      modifies s`next, this`desc, this`act, this`succ
      ensures Chained(active, desc, succ, act)
      ensures d == old(desc[succ[a]]) && desc == old(desc - {succ[a]}) && act == old(act) - {d}
    {
      ghost var desc0, succ0, act0 := desc, succ, act;
      desc := desc - {succ[a]};
      succ := (succ - {succ[a]})[a := succ[succ[a]]];
      d := s.next;
      act := act - {d};
      s.next := d.next;
      assert forall c {:trigger desc0[c].next} | c in succ0 && c != a ::
        desc0[c] != s && desc0[c].next == old(desc0[c].next);
      LinkedOut(active, desc0, succ0, act0, a);
    }

    method Release(d: Semd)
      requires Spares(free, spare) && forall i | 0 <= i < |spare| :: spare[i] != d
      modifies this`free, this`spare, d
      ensures Spares(free, spare) && spare == [d] + old(spare)
    {
      d.next := free;
      free := d;
      free.semAdd := NULLADDR;
      free.procQ := MkEmptyProcQ();
      spare := [d] + spare;
    }

    method SemdDealloc(s: Semd, ghost a: int)
      requires Chained(active, desc, succ, act) && Spares(free, spare) && Apart(desc, spare, act, table, size)
      requires a in succ && desc[a] == s && succ[a] in succ
      modifies this`free, this`spare, this`desc, this`act, this`succ, s`next, desc[succ[a]]
      ensures Chained(active, desc, succ, act) && Spares(free, spare) && Apart(desc, spare, act, table, size)
      ensures desc == old(desc - {succ[a]}) && act == old(act - {desc[succ[a]]})
      ensures spare == [old(desc[succ[a]])] + old(spare) && free == old(desc[succ[a]])
    {
      ghost var b := succ[a];
      assert s in act && desc[b] in act;
      var d := Unlink(s, a);
      Release(d);
    }

    /** Put the freshly allocated d behind s; its queue is still empty. */
    method Activate(s: Semd, d: Semd, ghost a: int, ghost lo: int)
      requires Chained(active, desc, succ, act) && AllHold(desc, queues, members, act)
      requires lo in succ && desc[lo] == s && lo < a < succ[lo]
      requires d !in act && d.semAdd == a
      modifies this`desc, this`act, this`succ, s`next, d`next
      ensures Chained(active, desc, succ, act) && AllHold(desc, queues, members, act)
      ensures a !in old(desc) && desc == old(desc)[a := d] && act == old(act) + {d} && s.next == d
    {
      ghost var before, act0 := desc, act;
      Link(s, d, lo, a);
      MoreHolds(before, queues, members, act0, a, d);
    }

    /** Put p at the tail of the queue of an active descriptor. */
    method Append(d: Semd, a: int, p: Pcb)
      requires AllHold(desc, queues, members, act) && a in desc && desc[a] == d && d in act && p !in members
      requires IsQueue(d.procQ, QueueAt(queues, a))
      requires forall b | b in desc && b != a :: desc[b] != d
      modifies d`procQ, this`queues, this`members, p`next, p`prev, p`semAdd
      modifies QueueAt(queues, a)`next, QueueAt(queues, a)`prev
      ensures AllHold(desc, queues, members, act) && p.semAdd == a
      ensures queues == old(queues)[a := old(QueueAt(queues, a)) + [p]]
      ensures members == old(members) + {p}
    {
      hide IsQueue;
      ghost var q, qs, ms := QueueAt(queues, a), queues, members;
      QueuesDisjoint(desc, queues, members, act, a);
      queues := queues[a := q + [p]];
      members := members + {p};
      Enqueue(d, a, p, q);
      forall b | b in qs && b != a
        ensures Holds(desc[b], b, qs[b])
      {
        assert old(Holds(desc[b], b, queues[b]));
        assert Disjoint(qs[b], q) && Within(qs[b], ms);
      }
      AddedHolds(desc, qs, ms, act, a, p);
    }

    /** Take the oldest process from the queue of an active descriptor. */
    method TakeFirst(d: Semd, a: int) returns (p: Pcb)
      requires AllHold(desc, queues, members, act) && a in queues && desc[a] == d
      requires forall b | b in desc && b != a :: desc[b] != d
      modifies d`procQ, this`queues, this`members, queues[a]`next, queues[a]`prev, queues[a]`semAdd
      ensures p == old(queues[a][0]) && p.semAdd == NULLADDR && p in old(members)
      ensures AllHold(desc, queues, members, act)
      ensures queues == WithQueue(old(queues), a, old(queues[a][1..]))
      ensures members == old(members) - {p}
      ensures d.procQ == null <==> a !in queues
    {
      hide IsQueue;
      ghost var q, qs, ms := queues[a], queues, members;
      QueuesDisjoint(desc, queues, members, act, a);
      assert Holds(d, a, q) && Within(q, ms);
      ghost var x := q[0];
      HeadOnce(d, a, q);
      queues := WithQueue(queues, a, q[1..]);
      members := members - {x};
      p := DequeueFirst(d, a, q);
      forall b | b in qs && b != a
        ensures Holds(desc[b], b, qs[b]) && Within(qs[b], ms - {x})
      {
        assert old(Holds(desc[b], b, queues[b]));
        assert x in q && Disjoint(qs[b], q) && Within(qs[b], ms);
      }
      RemovedHolds(desc, qs, ms, act, a, x, q[1..]);
    }

    /** Take p out of the queue of an active descriptor, wherever it stands. */
    method TakeOut(d: Semd, a: int, p: Pcb) returns (r: Pcb?)
      requires AllHold(desc, queues, members, act) && a in queues && desc[a] == d && p in queues[a]
      requires forall b | b in desc && b != a :: desc[b] != d
      modifies d`procQ, this`queues, this`members, queues[a]`next, queues[a]`prev, p`semAdd
      ensures AllHold(desc, queues, members, act)
      ensures queues == WithQueue(old(queues), a, Minus(old(queues[a]), {p}))
      ensures members == old(members) - {p}
      ensures r == p && p.semAdd == NULLADDR && (d.procQ == null <==> a !in queues)
    {
      ghost var q, qs, ms := queues[a], queues, members;
      ghost var q' := Minus(q, {p});
      MinusElements(q, {p});
      QueuesDisjoint(desc, queues, members, act, a);
      assert Holds(d, a, q) && Within(q, ms);
      queues := WithQueue(queues, a, q');
      members := members - {p};
      r := DequeueOut(d, a, p, q);
      forall b | b in qs && b != a
        ensures Holds(desc[b], b, qs[b]) && Within(qs[b], ms - {p})
      {
        assert old(Holds(desc[b], b, queues[b]));
        assert Disjoint(qs[b], q) && Within(qs[b], ms);
      }
      RemovedHolds(desc, qs, ms, act, a, p, q');
    }

    lemma Sizes()
      requires KeysOk() && 0 in desc && NULLADDR in desc && forall a | a in desc :: 0 <= a <= NULLADDR
      ensures |desc| == |queues| + 2
    {
      forall a
        ensures a in desc.Keys <==> a in queues.Keys + {0, NULLADDR}
      {
        if a in desc && a !in {0, NULLADDR} {
          assert LegalAddress(a);
        }
      }
      assert desc.Keys == queues.Keys + {0, NULLADDR};
      assert queues.Keys !! {0, NULLADDR};
      assert |queues.Keys + {0, NULLADDR}| == |queues.Keys| + |{0, NULLADDR}|;
    }

    /** Every active descriptor has a queue, so one is spare while fewer semaphores have waiters. */
    lemma SpareLeft()
      requires Valid() && |queues| < size
      ensures spare != []
    {
      Sizes();
    }

    lemma InTable()
      requires Valid()
      ensures act <= table && FirstSpare() <= table
    {
      assert spare != [] ==> spare[0] in spare;
    }

    lemma WaitsHere(a: int, p: Pcb)
      requires Valid() && a in queues && p in queues[a]
      ensures p in members && p.semAdd == a
    {
      assert Holds(desc[a], a, queues[a]);
    }

    /** The descriptor of a is active, and no other semaphore's. */
    lemma OwnDescriptor(a: int)
      requires Chained(active, desc, succ, act) && a in desc
      ensures desc[a] in act && forall b | b in desc && b != a :: desc[b] != desc[a]
    {
    }

    /** asl.c, lines 62-73: allocate a descriptor for a and put it behind s. */
    method NewDescriptor(s: Semd, a: int, ghost lo: int) returns (d: Semd?)
      requires ListsOk()
      requires lo in succ && desc[lo] == s && lo < a < succ[lo]
      modifies this`free, this`spare, this`desc, this`succ, this`act, s`next, FirstSpare()
      ensures ListsOk()
      ensures old(spare) == [] ==> d == null && desc == old(desc)
      ensures old(spare) != [] ==>
        d == old(spare[0]) && a !in old(desc) && desc == old(desc)[a := d] && d.procQ == null && s.next == d
    {
      ghost var first, desc0, spare0, act0 := free, desc, spare, act;
      assert spare != [] ==> first in table - act;
      d := SemdAlloc(a);
      if d != null {
        Activate(s, d, a, lo);
        MovedIn(desc0, spare0, act0, table, size, a);
      }
    }

    /** asl.c, lines 58-73: the active descriptor for a, made on the spot if need be; null when none is free. */
    method Descriptor(a: int) returns (d: Semd?)
      requires Valid() && LegalAddress(a)
      modifies this`free, this`spare, this`desc, this`succ, this`act, act`next, FirstSpare()
      ensures ListsOk()
      ensures d == null <==> a !in queues && old(spare) == []
      ensures d == null ==> desc == old(desc)
      ensures d != null ==> d in old(act + FirstSpare())
      ensures d != null ==>
        a in desc && d == desc[a] && desc == old(desc)[a := d] && IsQueue(d.procQ, QueueAt(queues, a))
    {
      var s, lo := Traverse(a);
      ghost var hi := succ[lo];
      if s.next.semAdd == a {
        assert a in queues && Holds(desc[a], a, queues[a]);
        return s.next;
      }
      assert lo in desc && s in act;
      d := NewDescriptor(s, a, lo);
    }

    /** Put p behind the processes blocked on a; fails only for want of a free descriptor. */
    method InsertBlocked(a: int, p: Pcb) returns (failed: bool)
      requires Valid() && LegalAddress(a) && p !in members
      modifies this`free, this`spare, this`desc, this`succ, this`act, this`queues, this`members, act, FirstSpare()
      modifies p`next, p`prev, p`semAdd, QueueAt(queues, a)`next, QueueAt(queues, a)`prev
      ensures Valid()
      ensures failed <==> a !in old(queues) && old(spare) == []
      ensures failed ==> queues == old(queues) && members == old(members) && p.semAdd == old(p.semAdd)
      ensures !failed ==> queues == WithQueue(old(queues), a, QueueAt(old(queues), a) + [p])
      ensures !failed ==> members == old(members) + {p} && p.semAdd == a
    {
      hide Chained, Spares, Apart, AllHold, IsQueue;
      var d := Descriptor(a);
      if d == null {
        return true;
      }
      OwnDescriptor(a);
      Append(d, a, p);
      assert Chained(active, desc, succ, act);
      assert Spares(free, spare);
      return false;
    }

    /** asl.c, lines 96-100: give back the descriptor behind s if its queue has run empty. */
    method DropIfEmpty(s: Semd, child: Semd, ghost lo: int, ghost a: int)
      requires ListsOk() && lo in succ && desc[lo] == s && succ[lo] == a && desc[a] == child && LegalAddress(a)
      requires child.procQ == null <==> a !in queues
      modifies this`free, this`spare, this`desc, this`succ, this`act, s`next, child
      ensures ListsOk() && desc == if a in queues then old(desc) else old(desc) - {a}
    {
      if EmptyProcQ(child.procQ) {
        ghost var desc0, act0 := desc, act;
        assert lo in desc && a in succ && s in act && child in act && child !in spare;
        SemdDealloc(s, lo);
        FewerHolds(desc0, queues, members, act0, a);
      }
    }

    /** Wake the oldest process blocked on a; null when there is none. */
    method RemoveBlocked(a: int) returns (p: Pcb?)
      requires Valid() && LegalAddress(a)
      modifies this`free, this`spare, this`desc, this`succ, this`act, this`queues, this`members, act
      modifies QueueAt(queues, a)`next, QueueAt(queues, a)`prev, QueueAt(queues, a)`semAdd
      ensures Valid()
      ensures a !in old(queues) ==> p == null && queues == old(queues) && members == old(members)
      ensures a in old(queues) ==>
        && p == old(queues[a][0]) && p.semAdd == NULLADDR
        && queues == WithQueue(old(queues), a, old(queues[a][1..])) && members == old(members) - {p}
    {
      hide Chained, Spares, Apart, AllHold, IsQueue;
      var s, lo := Traverse(a);
      p := null;
      var child := s.next;
      if child.semAdd == a {
        OwnDescriptor(a);
        p := TakeFirst(child, a);
        assert Chained(active, desc, succ, act);
        assert Spares(free, spare);
        DropIfEmpty(s, child, lo, a);
      }
    }

    /** Take p out of the queue its semAdd names; null when that semaphore is not active. */
    method OutBlocked(p: Pcb) returns (r: Pcb?)
      requires Valid() && LegalAddress(p.semAdd)
      requires p.semAdd in queues ==> p in queues[p.semAdd]
      modifies this`free, this`spare, this`desc, this`succ, this`act, this`queues, this`members, act
      modifies QueueAt(queues, p.semAdd)`next, QueueAt(queues, p.semAdd)`prev, p`semAdd
      ensures Valid()
      ensures old(p.semAdd) !in old(queues) ==> r == null && queues == old(queues) && members == old(members)
      ensures old(p.semAdd) in old(queues) ==>
        && r == p && p.semAdd == NULLADDR && members == old(members) - {p}
        && queues == WithQueue(old(queues), old(p.semAdd), Minus(old(queues[p.semAdd]), {p}))
    {
      hide Chained, Spares, Apart, AllHold, IsQueue;
      var a := p.semAdd;
      var s, lo := Traverse(a);
      r := null;
      var child := s.next;
      if child.semAdd == a {
        OwnDescriptor(a);
        r := TakeOut(child, a, p);
        assert Chained(active, desc, succ, act);
        assert Spares(free, spare);
        DropIfEmpty(s, child, lo, a);
      }
    }

    /** The oldest process blocked on a, left where it is. */
    method HeadBlocked(a: int) returns (p: Pcb?)
      requires Valid() && LegalAddress(a)
      ensures p == if a in queues then queues[a][0] else null
    {
      var s, _ := Traverse(a);
      var child := s.next;
      if child.semAdd == a {
        assert a in queues && Holds(desc[a], a, queues[a]);
        if !EmptyProcQ(child.procQ) {
          return HeadProcQ(child.procQ, queues[a]);
        }
      }
      return null;
    }
  }
}
