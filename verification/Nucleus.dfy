/** The nucleus itself: the global variables of phase2, updated in place, refining NucleusSpec.Step. */
module Nucleus {
  import opened Sequences
  import opened ProcessQueues
  import opened ProcessTree
  import opened ActiveSemaphores
  import opened NucleusSpec
  import opened NucleusInvariant
  import opened NucleusExceptions
  import opened NucleusKill
  import opened NucleusSemaphores
  import opened NucleusAccounting
  import opened NucleusRuns

  /** p_semAdd names the semaphore a process waits on; NULL if there is none. */
  ghost predicate SemAdds(procs: set<Pcb>, semAdd: map<Pcb, int>)
    reads procs`semAdd
  {
    forall p | p in procs :: p.semAdd == NameIn(semAdd, p)
  }

  ghost function NameIn(semAdd: map<Pcb, int>, p: Pcb): int {
    if p in semAdd then semAdd[p] else NULLADDR
  }

  ghost predicate Times(procs: set<Pcb>, time: map<Pcb, int>)
    reads procs`time
  {
    time.Keys == procs && forall p | p in procs :: p.time == time[p]
  }

  ghost predicate Supports(procs: set<Pcb>, support: set<Pcb>)
    reads procs`support
  {
    forall p | p in procs :: p.support <==> p in support
  }

  ghost predicate Leaves(free: set<Pcb>)
    reads free`child
  {
    forall p | p in free :: p.child == null
  }

  /** Everything in the pcbs but the queue links, the tree links and p_semAdd. */
  ghost predicate Others(procs: set<Pcb>, free: set<Pcb>, time: map<Pcb, int>, support: set<Pcb>)
    reads procs`time, procs`support, free`child
  {
    Times(procs, time) && Supports(procs, support) && Leaves(free)
  }

  /** The ready queue, the semaphores and the free list share no pcb. */
  ghost predicate Placed(s: State, freeQ: seq<Pcb>) {
    && (forall p | p in s.ready :: p in s.procs && p !in s.semAdd && p !in s.free)
    && (forall p | p in s.semAdd :: p in s.procs && p !in s.free)
    && (forall p | p in s.free :: p in s.procs && p in freeQ)
    && (forall p | p in freeQ :: p in s.free)
    && BlockedOk(s.queues, s.semAdd)
  }

  /** Every queue belongs to a word of memory with a legal address. */
  ghost predicate Addressed(mem: map<int, int>, queues: map<int, seq<Pcb>>) {
    && (forall a | a in queues :: a in mem)
    && (forall a | a in mem :: LegalAddress(a))
  }

  lemma StoreAddressed(mem: map<int, int>, queues: map<int, seq<Pcb>>, a: int, v: int)
    requires Addressed(mem, queues) && a in mem
    ensures Addressed(mem[a := v], queues)
  {
  }

  lemma AddressedWith(mem: map<int, int>, queues: map<int, seq<Pcb>>, a: int, q: seq<Pcb>)
    requires Addressed(mem, queues) && a in mem
    ensures Addressed(mem, WithQueue(queues, a, q)) && LegalAddress(a)
  {
  }

  lemma AddressedWoken(s: State, a: int)
    requires Addressed(s.mem, s.queues) && a in s.mem
    ensures Addressed(s.mem, Woken(s, a).queues) && LegalAddress(a)
  {
  }

  lemma AddressedOut(s: State, a: int, p: Pcb)
    requires Addressed(s.mem, s.queues) && a in s.queues
    ensures Addressed(s.mem, WithQueue(s.queues, a, Minus(s.queues[a], {p}))) && LegalAddress(a)
  {
  }

  lemma OthersFree(s: State, p: Pcb)
    requires Others(s.procs, s.free, s.time, s.support)
    ensures p.child == null ==> Others(s.procs, s.free + {p}, s.time, s.support)
    ensures Others(s.procs, s.free - {p}, s.time, s.support)
  {
  }

  lemma PlacedFree(s: State, freeQ: seq<Pcb>, p: Pcb) returns (s': State, q: seq<Pcb>)
    requires Placed(s, freeQ) && p in s.procs && p !in s.ready && p !in s.semAdd
    ensures s' == s.(free := s.free + {p}) && q == freeQ + [p] && Placed(s', q)
    ensures p !in s.free ==> p !in freeQ
  {
    hide BlockedOk;
    s', q := s.(free := s.free + {p}), freeQ + [p];
  }

  lemma PlacedUsed(s: State, tail: Pcb?, freeQ: seq<Pcb>) returns (s': State, rest: seq<Pcb>)
    requires Placed(s, freeQ) && freeQ != [] && IsQueue(tail, freeQ)
    ensures s' == s.(free := s.free - {freeQ[0]}) && rest == freeQ[1..]
    ensures Placed(s', rest) && freeQ[0] in s.free && freeQ[0] !in rest
  {
    hide BlockedOk;
    s', rest := s.(free := s.free - {freeQ[0]}), freeQ[1..];
    QueueHead(tail, freeQ);
    assert forall p | p in rest :: p in freeQ;
  }

  lemma PlacedReady(s: State, freeQ: seq<Pcb>, ready: seq<Pcb>)
    requires Placed(s, freeQ)
    requires forall p | p in ready :: p in s.ready || (p in s.procs && p !in s.semAdd && p !in s.free)
    ensures Placed(s.(ready := ready), freeQ)
  {
    hide BlockedOk;
  }

  lemma PlacedRest(s: State, freeQ: seq<Pcb>) returns (s': State)
    requires Placed(s, freeQ) && s.ready != []
    ensures s' == s.(ready := s.ready[1..]) && Placed(s', freeQ)
  {
    hide BlockedOk;
    s' := s.(ready := s.ready[1..]);
    assert forall p | p in s.ready[1..] :: p in s.ready;
  }

  lemma PlacedMinus(s: State, freeQ: seq<Pcb>, p: Pcb)
    requires Placed(s, freeQ)
    ensures Placed(s.(ready := Minus(s.ready, {p})), freeQ)
    ensures p !in s.ready ==> Minus(s.ready, {p}) == s.ready
  {
    hide BlockedOk;
    MinusElements(s.ready, {p});
    if p !in s.ready {
      MinusNone(s.ready, {p});
    }
  }

  /** Who is where does not depend on times, counters and the like. */
  lemma PlacedSame(s: State, s': State, freeQ: seq<Pcb>)
    requires Placed(s, freeQ) && s'.ready == s.ready && s'.semAdd == s.semAdd && s'.queues == s.queues
    requires s'.free == s.free && s'.procs == s.procs
    ensures Placed(s', freeQ)
  {
    hide BlockedOk;
  }

  /** The state without the longest waiting process at a, if there is one. */
  ghost function Woken(s: State, a: int): State {
    var q := Queue(s, a);
    if q == [] then s else s.(queues := WithQueue(s.queues, a, q[1..]), semAdd := s.semAdd - {q[0]})
  }

  lemma PlacedWoken(s: State, freeQ: seq<Pcb>, a: int)
    requires Placed(s, freeQ)
    ensures Placed(Woken(s, a), freeQ) && BlockedOk(Woken(s, a).queues, Woken(s, a).semAdd)
    ensures a in s.queues <==> Queue(s, a) != []
    ensures Queue(s, a) != [] ==> Queue(s, a)[0] in s.semAdd && Queue(s, a)[0] in Queue(s, a)
  {
    hide BlockedOk;
    NonEmpty(s, freeQ, a);
    if Queue(s, a) != [] {
      PlacedWake(s, freeQ, a);
    }
  }

  lemma PlacedBlock(s: State, freeQ: seq<Pcb>, a: int, p: Pcb)
    requires Placed(s, freeQ)
    requires p in s.procs && p !in s.ready && p !in s.semAdd && p !in s.free
    ensures Placed(s.(queues := WithQueue(s.queues, a, Queue(s, a) + [p]), semAdd := s.semAdd[p := a]), freeQ)
    ensures BlockedOk(WithQueue(s.queues, a, Queue(s, a) + [p]), s.semAdd[p := a])
  {
    hide BlockedOk;
    BlockOk(s.queues, s.semAdd, a, p);
  }

  lemma PlacedWake(s: State, freeQ: seq<Pcb>, a: int)
    requires Placed(s, freeQ) && Queue(s, a) != []
    ensures Queue(s, a)[0] in s.semAdd && s.semAdd[Queue(s, a)[0]] == a
    ensures Placed(s.(queues := WithQueue(s.queues, a, Queue(s, a)[1..]), semAdd := s.semAdd - {Queue(s, a)[0]}), freeQ)
    ensures BlockedOk(WithQueue(s.queues, a, Queue(s, a)[1..]), s.semAdd - {Queue(s, a)[0]})
  {
    hide BlockedOk;
    HeadBlocked(s.queues, s.semAdd, a);
    WakeOk(s.queues, s.semAdd, a);
  }

  lemma PlacedOut(s: State, freeQ: seq<Pcb>, a: int, p: Pcb)
    requires Placed(s, freeQ) && p in s.semAdd && s.semAdd[p] == a
    ensures a in s.queues && p in s.queues[a]
    ensures Placed(s.(queues := WithQueue(s.queues, a, Minus(s.queues[a], {p})), semAdd := s.semAdd - {p}), freeQ)
    ensures BlockedOk(s.queues, s.semAdd) && BlockedOk(WithQueue(s.queues, a, Minus(s.queues[a], {p})), s.semAdd - {p})
  {
    hide BlockedOk, KillQueues, Minus;
    KillOneQueue(s.queues, s.semAdd, p, a);
    KillBlocked(s.queues, s.semAdd, {p});
  }

  /** Whoever stands in a queue of the active semaphore list names that queue. */
  lemma NamesWait(asl: Asl, semAdd: map<Pcb, int>)
    requires asl.Valid() && BlockedOk(asl.queues, semAdd)
    ensures forall p | p in semAdd :: p.semAdd == semAdd[p]
  {
    hide Asl.Valid;
    forall p | p in semAdd
      ensures p.semAdd == semAdd[p]
    {
      var a := semAdd[p];
      assert p in QueueAt(asl.queues, a);
      asl.WaitsHere(a, p);
    }
  }

  lemma QueueHead(tail: Pcb?, q: seq<Pcb>)
    requires IsQueue(tail, q)
    ensures tail == null <==> q == []
    ensures q != [] ==> q[0] in q && q[0] !in q[1..] && forall p | p in q && p != q[0] :: p in q[1..]
  {
  }

  lemma NoneFree(s: State, freeQ: seq<Pcb>)
    requires Placed(s, freeQ)
    ensures freeQ == [] <==> s.free == {}
    ensures forall p | p in freeQ :: p in s.free && p !in s.ready && p !in s.semAdd && p in s.procs
  {
    if freeQ != [] {
      assert freeQ[0] in freeQ;
    }
  }

  lemma NonEmpty(s: State, freeQ: seq<Pcb>, a: int)
    requires Placed(s, freeQ)
    ensures (a in s.queues <==> Queue(s, a) != []) && BlockedOk(s.queues, s.semAdd)
  {
    assert a in s.queues ==> QueueOf(s.semAdd, a, s.queues[a]);
  }

  lemma QueueInside(s: State, freeQ: seq<Pcb>, a: int)
    requires Placed(s, freeQ)
    ensures forall p | p in Queue(s, a) :: p in s.procs && p in s.semAdd && s.semAdd[p] == a
    ensures forall p | p in Queue(s, a) :: p !in s.ready && p !in s.free && p !in freeQ
    ensures forall p | p in freeQ :: p in s.free
  {
    hide BlockedOk;
    QueueFacts(s.queues, s.semAdd, a);
  }

  ghost predicate Fresh(p: Pcb)
    reads p`child, p`nextSib, p`semAdd, p`time, p`support
  {
    p.child == null && p.nextSib == null && p.semAdd == NULLADDR && p.time == 0 && !p.support
  }

  /** The state before main has put any pcb on the free list. */
  ghost function PowerOn(table: seq<Pcb>, base: int, words: map<int, int>, tod: int): State
    requires table != []
  {
    var procs := set p | p in table;
    State(procs, table[0], base, {}, [], map[], map[], null, Cons(table[0], Nil, Nil), words, 0, 0, tod,
          map p | p in procs :: 0, {}, Returned)
  }

  ghost predicate SameTree(s: State, s': State) {
    s'.root == s.root && s'.tree == s.tree && s'.procs == s.procs
  }

  // ---------- the drain loop of itInterrupt ----------

  /** The first n processes waiting at a have left its queue, and the first k of them are ready. */
  ghost function Drained(s: State, a: int, n: nat, k: nat): State
    requires k <= n <= |Queue(s, a)|
  {
    var q := Queue(s, a);
    s.(queues := WithQueue(s.queues, a, q[n..]), semAdd := s.semAdd - (set p | p in q[..n]),
       ready := s.ready + q[..k], softBlockCount := s.softBlockCount - k)
  }

  lemma NoneDrained(s: State, a: int)
    requires BlockedOk(s.queues, s.semAdd)
    ensures Drained(s, a, 0, 0) == s
  {
    assert a in s.queues ==> QueueOf(s.semAdd, a, s.queues[a]);
    assert s.ready + Queue(s, a)[..0] == s.ready;
    assert Queue(s, a)[0..] == Queue(s, a);
    assert s.semAdd - {} == s.semAdd;
  }

  /** removeBlocked takes the next one. */
  lemma DrainOne(s: State, a: int, k: nat)
    requires k <= |Queue(s, a)|
    ensures var q, s' := Queue(s, a), Drained(s, a, k, k);
      && Queue(s', a) == q[k..]
      && (k == |q| || Drained(s, a, k + 1, k) ==
           s'.(queues := WithQueue(s'.queues, a, q[k..][1..]), semAdd := s'.semAdd - {q[k]}))
  {
    var q := Queue(s, a);
    if k < |q| {
      var before, after := q[..k], q[..k + 1];
      assert q[k..][1..] == q[k + 1..];
      assert after == before + [q[k]];
      assert (set p | p in after) == (set p | p in before) + {q[k]};
    }
  }

  /** insertProcQ hands it over. */
  lemma HandOver(s: State, a: int, k: nat)
    requires k < |Queue(s, a)|
    ensures var q, s' := Queue(s, a), Drained(s, a, k + 1, k);
      Drained(s, a, k + 1, k + 1) == s'.(ready := s'.ready + [q[k]], softBlockCount := s'.softBlockCount - 1)
  {
    var q := Queue(s, a);
    assert s.ready + q[..k + 1] == (s.ready + q[..k]) + [q[k]];
  }

  lemma DrainedFrame(s: State, a: int, n: nat, k: nat)
    requires k <= n <= |Queue(s, a)| && NoDup(Queue(s, a))
    ensures var q, s' := Queue(s, a), Drained(s, a, n, k);
      && SameTree(s, s') && s'.free == s.free && s'.mem == s.mem && s'.base == s.base && s'.running == s.running
      && (k < n ==> q[k] !in s'.semAdd && (q[k] !in s.ready ==> q[k] !in s'.ready))
  {
    var q := Queue(s, a);
    if k < n {
      assert q[k] in q[..n];
    }
  }

  lemma AllDrained(s: State, a: int)
    requires a == DevAddr(s.base, CLOCK)
    ensures Drained(s, a, |Queue(s, a)|, |Queue(s, a)|).(mem := s.mem[a := 0]) == Ticked(s)
  {
    var q := Queue(s, a);
    assert q[..|q|] == q && q[|q|..] == [];
  }

  class Machine {
    var processCount: int
    var softBlockCount: int
    var readyQ: Pcb?
    var currentProc: Pcb?
    var startTod: int
    var mem: map<int, int>
    var pcbFree: Pcb?
    var mode: Mode
    const deviceSema4s: int
    const asl: Asl
    ghost var st: State
    ghost var freeQ: seq<Pcb>

    ghost predicate Words()
      reads this
    {
      && processCount == st.processCount && softBlockCount == st.softBlockCount
      && currentProc == st.running && startTod == st.startTod
      && mem == st.mem && mode == st.mode && deviceSema4s == st.base
    }

    /** The queues and the pcb fields hold what s says; the tree is Linked separately. */
    ghost predicate Heap(s: State, readyQ: Pcb?, pcbFree: Pcb?, freeQ: seq<Pcb>)
      reads asl, asl.act, asl.spare`next, asl.members`next, asl.members`prev, asl.members`semAdd
      reads s.procs`next, s.procs`prev, s.procs`semAdd, s.procs`time, s.procs`support, s.free`child
    {
      && Placed(s, freeQ)
      && asl.Valid() && asl.queues == s.queues && asl.members == s.semAdd.Keys && asl.size == |s.procs|
      && IsQueue(readyQ, s.ready) && IsQueue(pcbFree, freeQ)
      && SemAdds(s.procs, s.semAdd) && Others(s.procs, s.free, s.time, s.support)
    }

    ghost predicate Rep()
      reads this, asl, asl.act, asl.spare`next, asl.members`next, asl.members`prev, asl.members`semAdd
      reads st.procs`next, st.procs`prev, st.procs`semAdd, st.procs`time, st.procs`support, st.free`child
    {
      Words() && Addressed(mem, st.queues) && Heap(st, readyQ, pcbFree, freeQ)
    }

    /** The counters, the mode and the like do not matter to the heap. */
    lemma SameHeap(s: State)
      requires Heap(s, readyQ, pcbFree, freeQ)
      requires s == st.(processCount := s.processCount, softBlockCount := s.softBlockCount, startTod := s.startTod,
                        mem := s.mem, mode := s.mode, running := s.running, tree := s.tree)
      ensures Heap(st, readyQ, pcbFree, freeQ)
    {
      hide IsQueue, Asl.Valid, SemAdds, Others, BlockedOk;
    }

    /** Every variable is empty or zero; the pcbs of the table are not yet on the free list. */
    constructor (table: seq<Pcb>, base: int, words: map<int, int>, bootTod: int)
      requires table != [] && NoDup(table) && forall p | p in table :: Fresh(p)
      requires Addressed(words, map[])
      ensures Rep() && freeQ == [] && fresh(asl) && fresh(asl.table)
      ensures st == PowerOn(table, base, words, bootTod)
    {
      processCount, softBlockCount, readyQ, currentProc := 0, 0, null, null;
      startTod, mem, pcbFree, mode := bootTod, words, null, Returned;
      deviceSema4s := base;
      asl := new Asl(|table|);
      st := PowerOn(table, base, words, bootTod);
      freeQ := [];
      new;
      SeqAsSet(table);
    }

    /** What Heap is made of, and that nobody is in two of its queues. */
    lemma Pieces()
      requires Rep()
      ensures Placed(st, freeQ) && SemAdds(st.procs, st.semAdd) && Others(st.procs, st.free, st.time, st.support)
      ensures asl.Valid() && asl.queues == st.queues && asl.members == st.semAdd.Keys && asl.size == |st.procs|
      ensures IsQueue(readyQ, st.ready) && IsQueue(pcbFree, freeQ)
      ensures forall p | p in st.ready :: p in st.procs && p !in asl.members && p !in freeQ && p !in st.free
      ensures forall p | p in freeQ :: p in st.procs && p !in asl.members && p !in st.ready
    {
      hide IsQueue, Asl.Valid, SemAdds, Others, BlockedOk;
    }

    lemma Assemble(s: State, readyQ: Pcb?, pcbFree: Pcb?, freeQ: seq<Pcb>)
      requires Placed(s, freeQ) && SemAdds(s.procs, s.semAdd) && Others(s.procs, s.free, s.time, s.support)
      requires asl.Valid() && asl.queues == s.queues && asl.members == s.semAdd.Keys && asl.size == |s.procs|
      requires IsQueue(readyQ, s.ready) && IsQueue(pcbFree, freeQ)
      ensures Heap(s, readyQ, pcbFree, freeQ)
    {
      hide IsQueue, Asl.Valid, SemAdds, Others, Placed;
    }

    method ReadyInsert(p: Pcb)
      requires Rep() && p in st.procs && p !in st.ready && p !in st.semAdd && p !in st.free
      modifies this`readyQ, this`st, p`next, p`prev, st.ready`next, st.ready`prev
      ensures Rep() && st == old(st).(ready := old(st.ready) + [p])
    {
      hide Heap, IsQueue, Asl.Valid, SemAdds, Others, Placed, Addressed;
      ghost var s := st.(ready := st.ready + [p]);
      Pieces();
      PlacedReady(st, freeQ, s.ready);
      NotFree(p);
      var tail := InsertProcQ(readyQ, p, st.ready);
      Assemble(s, tail, pcbFree, freeQ);
      readyQ, st := tail, s;
    }

    lemma NotFree(p: Pcb)
      requires Placed(st, freeQ) && p !in st.free
      ensures p !in freeQ
    {
    }

    method ReadyRemove() returns (p: Pcb?)
      requires Rep() && st.ready != []
      modifies this`readyQ, this`st, st.ready`next, st.ready`prev
      ensures Rep() && p == old(st.ready[0]) && st == old(st).(ready := old(st.ready[1..]))
    {
      hide Heap, IsQueue, Asl.Valid, SemAdds, Others, Placed, Addressed;
      Pieces();
      ghost var s := PlacedRest(st, freeQ);
      var tail, head := RemoveProcQ(readyQ, st.ready);
      Assemble(s, tail, pcbFree, freeQ);
      readyQ, st, p := tail, s, head;
    }

    method ReadyOut(p: Pcb) returns (r: Pcb?)
      requires Rep()
      modifies this`readyQ, this`st, st.ready`next, st.ready`prev
      ensures Rep() && r == (if p in old(st.ready) then p else null)
      ensures st == old(st).(ready := Minus(old(st.ready), {p}))
    {
      hide Heap, IsQueue, Asl.Valid, SemAdds, Others, Placed, Addressed, Minus;
      ghost var s := st.(ready := Minus(st.ready, {p}));
      Pieces();
      PlacedMinus(st, freeQ, p);
      var tail, out := OutProcQ(readyQ, p, st.ready);
      Assemble(s, tail, pcbFree, freeQ);
      readyQ, st, r := tail, s, out;
    }

    method FreePcb(p: Pcb)
      requires Rep() && p in st.procs && p !in st.ready && p !in st.semAdd && p !in st.free && p.child == null
      modifies this`pcbFree, this`freeQ, this`st, p`next, p`prev, freeQ`next, freeQ`prev
      ensures Rep() && st == old(st).(free := old(st.free) + {p}) && freeQ == old(freeQ) + [p]
    {
      hide Heap, IsQueue, Asl.Valid, SemAdds, Others, Placed, Addressed;
      Pieces();
      ghost var s, q := PlacedFree(st, freeQ, p);
      var tail := InsertProcQ(pcbFree, p, freeQ);
      OthersFree(st, p);
      Assemble(s, readyQ, tail, q);
      pcbFree, freeQ, st := tail, q, s;
    }

    /** insertBlocked and the p_semAdd fields, whatever else the machine holds. */
    method InsertNamed(a: int, p: Pcb, ghost queues: map<int, seq<Pcb>>, ghost semAdd: map<Pcb, int>,
                       ghost procs: set<Pcb>)
      requires asl.Valid() && asl.queues == queues && asl.members == semAdd.Keys && |queues| < asl.size
      requires LegalAddress(a) && SemAdds(procs, semAdd) && p in procs && p !in semAdd
      modifies asl, asl.table, p`next, p`prev, p`semAdd, QueueAt(queues, a)`next, QueueAt(queues, a)`prev
      ensures asl.Valid() && asl.queues == WithQueue(queues, a, QueueAt(queues, a) + [p])
      ensures asl.members == semAdd.Keys + {p} && SemAdds(procs, semAdd[p := a])
    {
      hide Asl.Valid;
      asl.SpareLeft();
      asl.InTable();
      var failed := asl.InsertBlocked(a, p);
    }

    /** removeBlocked and the p_semAdd fields. */
    method RemoveNamed(a: int, ghost s: State) returns (p: Pcb?)
      requires asl.Valid() && asl.queues == s.queues && asl.members == s.semAdd.Keys
      requires LegalAddress(a) && SemAdds(s.procs, s.semAdd) && BlockedOk(Woken(s, a).queues, Woken(s, a).semAdd)
      requires (a in s.queues <==> Queue(s, a) != []) && forall x | x in Queue(s, a) :: x in s.semAdd
      modifies asl, asl.table, Queue(s, a)`next, Queue(s, a)`prev, Queue(s, a)`semAdd
      ensures asl.Valid() && asl.queues == Woken(s, a).queues && asl.members == Woken(s, a).semAdd.Keys
      ensures SemAdds(s.procs, Woken(s, a).semAdd) && p == if Queue(s, a) == [] then null else Queue(s, a)[0]
    {
      hide Asl.Valid, BlockedOk, WithQueue;
      asl.InTable();
      p := asl.RemoveBlocked(a);
      NamesWait(asl, Woken(s, a).semAdd);
    }

    /** outBlocked and the p_semAdd fields. */
    method OutNamed(p: Pcb, ghost queues: map<int, seq<Pcb>>, ghost semAdd: map<Pcb, int>, ghost procs: set<Pcb>)
      returns (r: Pcb?)
      requires asl.Valid() && asl.queues == queues && asl.members == semAdd.Keys
      requires p in semAdd && LegalAddress(semAdd[p]) && SemAdds(procs, semAdd) && p in procs
      requires semAdd[p] in queues && p in queues[semAdd[p]]
      modifies asl, asl.table, p`semAdd, QueueAt(queues, semAdd[p])`next, QueueAt(queues, semAdd[p])`prev
      ensures asl.Valid() && r == p && asl.members == semAdd.Keys - {p} && SemAdds(procs, semAdd - {p})
      ensures asl.queues == WithQueue(queues, semAdd[p], Minus(queues[semAdd[p]], {p}))
    {
      hide Asl.Valid, Minus;
      asl.InTable();
      r := asl.OutBlocked(p);
    }

    method AslInsert(a: int, p: Pcb)
      requires Rep() && a in st.mem && |st.queues| < |st.procs|
      requires p in st.procs && p !in st.ready && p !in st.semAdd && p !in st.free
      modifies this`st, asl, asl.table, p`next, p`prev, p`semAdd, Queue(st, a)`next, Queue(st, a)`prev
      ensures Rep()
      ensures st == old(st).(queues := WithQueue(old(st.queues), a, Queue(old(st), a) + [p]),
                             semAdd := old(st.semAdd)[p := a])
    {
      hide Heap, IsQueue, Asl.Valid, SemAdds, Others, Placed, Addressed, WithQueue, QueueAt;
      ghost var s := st.(queues := WithQueue(st.queues, a, Queue(st, a) + [p]), semAdd := st.semAdd[p := a]);
      Pieces();
      NotFree(p);
      QueueInside(st, freeQ, a);
      PlacedBlock(st, freeQ, a, p);
      AddressedWith(mem, st.queues, a, Queue(st, a) + [p]);
      InsertNamed(a, p, st.queues, st.semAdd, st.procs);
      Assemble(s, readyQ, pcbFree, freeQ);
      st := s;
    }

    method AslRemove(a: int) returns (p: Pcb?)
      requires Rep() && a in st.mem
      modifies this`st, asl, asl.table
      modifies Queue(st, a)`next, Queue(st, a)`prev, Queue(st, a)`semAdd
      ensures Rep() && st == Woken(old(st), a)
      ensures Queue(old(st), a) == [] ==> p == null
      ensures Queue(old(st), a) != [] ==> p == Queue(old(st), a)[0] && p in old(st.semAdd)
    {
      hide Heap, IsQueue, Asl.Valid, SemAdds, Others, Placed, Addressed, WithQueue, BlockedOk;
      ghost var s := Woken(st, a);
      Pieces();
      QueueInside(st, freeQ, a);
      PlacedWoken(st, freeQ, a);
      AddressedWoken(st, a);
      p := RemoveNamed(a, st);
      Assemble(s, readyQ, pcbFree, freeQ);
      st := s;
    }

    method AslOut(p: Pcb) returns (r: Pcb?)
      requires Rep() && p in st.semAdd
      modifies this`st, asl, asl.table, p`semAdd, Queue(st, st.semAdd[p])`next, Queue(st, st.semAdd[p])`prev
      ensures Rep() && r == p && old(st.semAdd[p]) in old(st.queues)
      ensures var a := old(st.semAdd[p]);
        st == old(st).(queues := WithQueue(old(st.queues), a, Minus(old(st.queues[a]), {p})),
                       semAdd := old(st.semAdd) - {p})
    {
      hide Heap, IsQueue, Asl.Valid, SemAdds, Others, Placed, Addressed, WithQueue, BlockedOk, Minus;
      ghost var a := st.semAdd[p];
      Pieces();
      QueueInside(st, freeQ, a);
      PlacedOut(st, freeQ, a, p);
      ghost var s := st.(queues := WithQueue(st.queues, a, Minus(st.queues[a], {p})), semAdd := st.semAdd - {p});
      AddressedOut(st, a, p);
      r := OutNamed(p, st.queues, st.semAdd, st.procs);
      Assemble(s, readyQ, pcbFree, freeQ);
      st := s;
    }

    method FreeRemove() returns (p: Pcb)
      requires Rep() && freeQ != []
      modifies this`pcbFree, this`freeQ, this`st, freeQ`next, freeQ`prev
      ensures Rep() && p == old(freeQ[0]) && freeQ == old(freeQ[1..]) && st == old(st).(free := old(st.free) - {p})
      ensures p in old(st.free) && p !in freeQ
    {
      hide Heap, IsQueue, Asl.Valid, SemAdds, Others, Placed, Addressed;
      Pieces();
      ghost var s, rest := PlacedUsed(st, pcbFree, freeQ);
      var tail, head := RemoveProcQ(pcbFree, freeQ);
      OthersFree(st, head);
      Assemble(s, readyQ, tail, rest);
      pcbFree, freeQ, st, p := tail, rest, s, head;
    }

    static method ClearNamed(p: Pcb, ghost s: State)
      requires SemAdds(s.procs, s.semAdd) && Others(s.procs, s.free, s.time, s.support)
      requires p in s.procs && p !in s.semAdd
      modifies p
      ensures SemAdds(s.procs, s.semAdd) && Others(s.procs, s.free, s.time[p := 0], s.support - {p})
      ensures p.child == null && p.nextSib == null
    {
      p.Clear();
    }

    method ClearPcb(p: Pcb)
      requires Rep() && p in st.procs && p !in st.ready && p !in st.semAdd && p !in st.free
      modifies this`st, p
      ensures Rep() && st == old(st).(time := old(st.time)[p := 0], support := old(st.support) - {p})
      ensures p.child == null && p.nextSib == null
    {
      hide Heap, IsQueue, Asl.Valid, SemAdds, Others, Placed, Addressed;
      ghost var s := st.(time := st.time[p := 0], support := st.support - {p});
      Pieces();
      NotFree(p);
      PlacedSame(st, s, freeQ);
      ClearNamed(p, st);
      Assemble(s, readyQ, pcbFree, freeQ);
      st := s;
    }

    /** The oldest free pcb; only one that leaves others behind is initialised. */
    method AllocPcb() returns (p: Pcb?)
      requires Rep()
      modifies this`pcbFree, this`freeQ, this`st, freeQ
      ensures Rep()
      ensures old(freeQ) == [] ==> p == null && st == old(st) && freeQ == []
      ensures old(freeQ) != [] ==>
        && p == old(freeQ[0]) && freeQ == old(freeQ[1..]) && p in old(st.free) && p.child == null
        && (p.nextSib == null || p.nextSib == old(freeQ[0].nextSib))
        && st == old(st).(
             free := old(st.free) - {p},
             time := if freeQ == [] then old(st.time) else old(st.time)[p := 0],
             support := if freeQ == [] then old(st.support) else old(st.support) - {p})
    {
      hide IsQueue, Asl.Valid, BlockedOk, SemAdds, Times, Supports;
      QueueHead(pcbFree, freeQ);
      if pcbFree == null {
        return null;
      }
      p := FreeRemove();
      QueueHead(pcbFree, freeQ);
      if pcbFree != null {
        ClearPcb(p);
      }
    }

    lemma ReadyEmpty()
      requires Rep()
      ensures EmptyProcQ(readyQ) <==> st.ready == []
    {
      hide Asl.Valid, SemAdds, Others, Placed;
    }

    method Scheduler(tod: int)
      requires Rep()
      modifies this`readyQ, this`currentProc, this`startTod, this`mode, this`st, st.ready`next, st.ready`prev
      ensures Rep() && st == Schedule(old(st), tod)
      ensures SameTree(old(st), st)
    {
      hide Heap, Placed, Addressed;
      ReadyEmpty();
      if !EmptyProcQ(readyQ) {
        var p := ReadyRemove();
        currentProc, startTod, mode := p, tod, Running;
      } else if processCount == 0 {
        mode := Halted;
      } else if softBlockCount > 0 {
        mode := Waiting;
      } else if processCount > 0 && softBlockCount <= 0 {
        mode := Panicked;
      } else {
        mode := Returned;
      }
      ghost var s := st;
      st := st.(running := currentProc, startTod := startTod, mode := mode);
      SameHeap(s);
    }

    /** exceptions.c, lines 165-182: a process that waits on a semaphore leaves its queue. */
    method DequeueWaiter(current: Pcb)
      requires Rep() && current in st.semAdd && current !in st.free
      modifies this`softBlockCount, this`mem, this`processCount, this`st
      modifies asl, asl.table, st.procs`next, st.procs`prev, st.procs`semAdd
      ensures Rep() && st == Kill(old(st), {current}).(free := old(st.free))
    {
      hide Rep, Kill, Minus, KillMem, BlockedOk, WithQueue, QueueAt;
      ghost var s := st;
      WaiterFacts(current);
      KillWaiter(s, current, current.semAdd);
      Refund(current.semAdd);
      var p := AslOut(current);
      if p != null {
        Count(-1);
      }
    }

    /** exceptions.c, lines 166-175: a killed waiter gives an ordinary semaphore its unit back. */
    method Refund(sem: int)
      requires Rep() && sem in st.mem
      modifies this`softBlockCount, this`mem, this`st
      ensures Rep()
      ensures st == if IsDev(old(st.base), sem)
        then old(st).(softBlockCount := old(st.softBlockCount) - 1)
        else old(st).(mem := old(st.mem)[sem := old(st.mem[sem]) + 1])
    {
      hide Heap;
      ghost var s := st;
      if DevAddr(deviceSema4s, 0) <= sem <= DevAddr(deviceSema4s, CLOCK) {
        softBlockCount := softBlockCount - 1;
      } else {
        StoreAddressed(mem, st.queues, sem, mem[sem] + 1);
        mem := mem[sem := mem[sem] + 1];
      }
      st := st.(softBlockCount := softBlockCount, mem := mem);
      SameHeap(s);
    }

    method Count(d: int)
      requires Rep()
      modifies this`processCount, this`st
      ensures Rep() && st == old(st).(processCount := old(st.processCount) + d)
    {
      hide Heap, Addressed;
      ghost var s := st;
      processCount := processCount + d;
      st := st.(processCount := processCount);
      SameHeap(s);
    }

    lemma WaiterFacts(p: Pcb)
      requires Rep() && p in st.semAdd
      ensures p in st.procs && p !in st.ready && BlockedOk(st.queues, st.semAdd)
      ensures p.semAdd == st.semAdd[p] && p.semAdd in st.mem && p.semAdd in st.queues
      ensures forall x | x in Queue(st, p.semAdd) :: x in st.procs
    {
      hide IsQueue, Asl.Valid, Others;
      var a := st.semAdd[p];
      QueueInside(st, freeQ, a);
      assert p in QueueAt(st.queues, a);
    }

    /** exceptions.c, lines 187-192: a process that waits on no semaphore leaves the ready queue, if it is there. */
    method DequeueReady(current: Pcb)
      requires Rep() && current in st.procs && current !in st.semAdd && current !in st.free
      modifies this`readyQ, this`processCount, this`st, st.ready`next, st.ready`prev
      ensures Rep() && st == Kill(old(st), {current}).(free := old(st.free))
      ensures current !in old(st.ready) ==> st == old(st)
    {
      hide Heap, Placed, Kill, Minus, BlockedOk, Addressed;
      UnblockedFacts(current);
      KillUnblocked(st, {current});
      OneFewer(st.ready, current);
      var p := ReadyOut(current);
      if p != null {
        Count(-1);
      }
    }

    lemma Inside()
      requires Rep()
      ensures forall p | p in st.ready || p in st.semAdd || p in freeQ :: p in st.procs
    {
      hide IsQueue, Asl.Valid, Others, SemAdds, BlockedOk;
    }

    lemma UnblockedFacts(p: Pcb)
      requires Rep() && p in st.procs && p !in st.semAdd
      ensures p.semAdd == NULLADDR && NoDup(st.ready) && BlockedOk(st.queues, st.semAdd)
    {
      hide Asl.Valid, Others;
    }

    lemma WaiterNames(p: Pcb)
      requires Rep() && p in st.procs
      ensures p.semAdd != NULLADDR <==> p in st.semAdd
    {
      if p in st.semAdd {
        WaiterFacts(p);
        assert LegalAddress(p.semAdd);
      }
    }

    ghost predicate Doomed(p: Pcb, kids: Forest)
      reads this, st.procs
    {
      && Distinct(Cons(p, kids, Nil)) && Nodes(kids) <= st.procs
      && p in st.procs && p !in st.free && Nodes(kids) !! st.free
      && (currentProc != null ==> currentProc !in Nodes(kids))
      && Linked(p.child, kids)
    }

    /** exceptions.c, lines 159-164: terminate the children of current, youngest first. */
    method TerminateChildren(current: Pcb, ghost kids: Forest, tod: int)
      requires Rep() && Doomed(current, kids)
      modifies this, asl, asl.table, st.procs`next, st.procs`prev, st.procs`semAdd, (Nodes(kids) + {current})`child
      ensures Rep() && current.child == null && st == Kill(old(st), Nodes(kids))
      ensures freeQ == old(freeQ) + PostOrder(kids)
      decreases kids, 1
    {
      hide Heap, Placed, Kill, Addressed, PostOrder;
      ghost var s, q, rest := st, freeQ, kids;
      NobodyYet();
      assert Nodes(kids) - Nodes(rest) == {};
      while !EmptyChild(current)
        invariant Rep() && Doomed(current, rest) && (rest == kids || rest < kids)
        invariant Nodes(rest) <= Nodes(kids) && st == Kill(s, Nodes(kids) - Nodes(rest)) && st.procs == s.procs
        invariant freeQ + PostOrder(rest) == q + PostOrder(kids)
        decreases rest
      {
        ghost var gone := Nodes(kids) - Nodes(rest);
        Split(kids, rest);
        NextFreed(freeQ, rest);
        TerminateChild(current, rest, tod);
        KillTwice(s, gone, Nodes(rest.kids) + {rest.pcb});
        rest := rest.sibs;
      }
      assert Nodes(kids) - Nodes(rest) == Nodes(kids);
      NextFreed(freeQ, rest);
    }

    static lemma NextFreed(q: seq<Pcb>, rest: Forest)
      ensures rest == Nil ==> q + PostOrder(rest) == q
      ensures rest != Nil ==>
        q + PostOrder(rest.kids) + [rest.pcb] + PostOrder(rest.sibs) == q + PostOrder(rest)
    {
    }

    static lemma Split(kids: Forest, rest: Forest)
      requires Distinct(rest) && rest != Nil && Nodes(rest) <= Nodes(kids)
      ensures Nodes(kids) - Nodes(rest) + (Nodes(rest.kids) + {rest.pcb}) == Nodes(kids) - Nodes(rest.sibs)
    {
    }

    /** One turn of the loop: the youngest child goes, with its own children. */
    method TerminateChild(current: Pcb, ghost kids: Forest, tod: int)
      requires Rep() && Doomed(current, kids) && kids != Nil
      modifies this, asl, asl.table, st.procs`next, st.procs`prev, st.procs`semAdd, (Nodes(kids) + {current})`child
      ensures Rep() && Doomed(current, kids.sibs) && st.procs == old(st.procs)
      ensures st == Kill(old(st), Nodes(kids.kids) + {kids.pcb})
      ensures freeQ == old(freeQ) + PostOrder(kids.kids) + [kids.pcb]
      decreases kids, 0
    {
      hide Heap, Placed, Kill, Addressed;
      KillFrame(st, Nodes(kids.kids) + {kids.pcb});
      var child := RemoveChild(current, kids);
      TerminateProcess(child, kids.kids, tod);
    }

    lemma NobodyYet()
      requires Rep()
      ensures Kill(st, {}) == st
    {
      hide IsQueue, Asl.Valid, Others, SemAdds, BlockedOk;
      KillNobody(st);
    }

    /** Terminate current and everything below it; control does not come back if it was running. */
    method TerminateProcess(current: Pcb, ghost kids: Forest, tod: int)
      requires Rep() && Doomed(current, kids)
      requires current == currentProc ==> current !in st.ready && current !in st.semAdd
      modifies this, asl, asl.table, st.procs`next, st.procs`prev, st.procs`semAdd, (Nodes(kids) + {current})`child
      ensures Rep() && current.child == null
      ensures current != old(currentProc) ==> st == Kill(old(st), Nodes(kids) + {current})
      ensures current == old(currentProc) ==> st == Schedule(Ended(Kill(old(st), Nodes(kids))), tod)
      ensures freeQ == old(freeQ) + PostOrder(kids) + if current == old(currentProc) then [] else [current]
      decreases kids, 2
    {
      hide Heap, Placed, Kill, Addressed, Schedule, Ended;
      ghost var s := st;
      TerminateChildren(current, kids, tod);
      Survivors(s, Nodes(kids));
      KillFrame(st, {current});
      Dequeue(current);
      if current == currentProc {
        EndRunning(tod);
        return;
      }
      Inside();
      FreePcb(current);
      KillTwice(s, Nodes(kids), {current});
    }

    lemma Survivors(s: State, d: set<Pcb>)
      ensures var s' := Kill(s, d);
        && s'.procs == s.procs && s'.running == s.running && s'.free == s.free + d
        && (forall p | p in s'.ready :: p in s.ready) && (forall p | p in s'.semAdd :: p in s.semAdd)
        && (forall p | p in d :: p !in s'.ready && p !in s'.semAdd)
    {
      hide Kill;
      KillFrame(s, d);
      MinusElements(s.ready, d);
    }

    /** exceptions.c, lines 165-196: off whatever queue it is in. */
    method Dequeue(current: Pcb)
      requires Rep() && current in st.procs && current !in st.free
      modifies this`softBlockCount, this`mem, this`processCount, this`st, this`readyQ
      modifies asl, asl.table, st.procs`next, st.procs`prev, st.procs`semAdd
      ensures Rep() && st == Kill(old(st), {current}).(free := old(st.free))
      ensures st.procs == old(st.procs) && st.running == old(st.running) && st.free == old(st.free)
      ensures current !in st.ready && current !in st.semAdd
      ensures current !in old(st.ready) && current !in old(st.semAdd) ==> st == old(st)
    {
      hide Rep, Kill;
      Survivors(st, {current});
      WaiterNames(current);
      Inside();
      if current.semAdd != NULLADDR {
        DequeueWaiter(current);
      } else {
        DequeueReady(current);
      }
    }

    /** exceptions.c, lines 204-207; the running process has no children left, so outChild is never reached. */
    method EndRunning(tod: int)
      requires Rep()
      modifies this`readyQ, this`currentProc, this`startTod, this`mode, this`st, this`processCount
      modifies st.procs`next, st.procs`prev
      ensures Rep() && st == Schedule(Ended(old(st)), tod)
    {
      hide Rep, Schedule;
      Vacate();
      Count(-1);
      Inside();
      Scheduler(tod);
    }

    // ---------- the handlers ----------

    ghost predicate Valid()
      reads this, asl, asl.act, asl.spare`next, asl.members, st.procs
    {
      Inv(st) && Rep() && Linked(st.root, st.tree)
    }

    /** insertBlocked on the running process, which then no longer runs. */
    method BlockCurrent(a: int)
      requires Rep() && a in st.mem && |st.queues| < |st.procs| && currentProc != null
      requires currentProc in st.procs && currentProc !in st.free
      requires currentProc !in st.ready && currentProc !in st.semAdd
      modifies this`currentProc, this`st, asl, asl.table, st.procs`next, st.procs`prev, st.procs`semAdd
      ensures Rep() && st == Block(old(st), a, old(currentProc))
    {
      hide Heap, Placed, Addressed;
      QueueAsleep(a);
      AslInsert(a, currentProc);
      Vacate();
    }

    lemma QueueAsleep(a: int)
      requires Rep()
      ensures forall x | x in Queue(st, a) :: x in st.procs && x in st.semAdd && x !in st.ready && x !in st.free
    {
      hide IsQueue, Asl.Valid, Others;
      QueueInside(st, freeQ, a);
    }

    lemma Runs()
      requires Valid() && st.running != null
      ensures |st.queues| < |st.procs|
      ensures st.running in st.procs && st.running in Nodes(st.tree)
      ensures st.running !in st.ready && st.running !in st.semAdd && st.running !in st.free
      ensures Nodes(st.tree) <= st.procs && currentProc == st.running && mem == st.mem && deviceSema4s == st.base
    {
      hide Heap, Addressed;
      DescriptorLeft(st);
    }

    /** Add d to the semaphore at a. */
    method Add(a: int, d: int)
      requires Rep() && a in st.mem
      modifies this`mem, this`st
      ensures Rep() && st == Store(old(st), a, d) && mem == st.mem
    {
      hide Heap;
      ghost var s := st;
      StoreAddressed(mem, st.queues, a, mem[a] + d);
      mem := mem[a := mem[a] + d];
      st := Store(st, a, d);
      SameHeap(s);
    }

    /** insertBlocked for the running process, which then gives up the processor. */
    method Sleep(a: int, tod: int)
      requires Rep() && a in st.mem && |st.queues| < |st.procs| && currentProc != null
      requires currentProc in st.procs && currentProc !in st.free
      requires currentProc !in st.ready && currentProc !in st.semAdd
      modifies this, asl, asl.table, st.procs`next, st.procs`prev, st.procs`semAdd
      ensures Rep() && st == Schedule(Block(old(st), a, old(currentProc)), tod)
      ensures SameTree(old(st), st)
    {
      hide Heap, Placed, Addressed, Schedule;
      BlockCurrent(a);
      Inside();
      Scheduler(tod);
    }

    /** P on any word. */
    static ghost function PAfter(s: State, a: int, t: Tod): State
      requires a in s.mem && s.running != null
    {
      var s' := Store(s, a, -1);
      if s'.mem[a] < 0 then Schedule(Block(s', a, s.running), t.dispatch) else s'
    }

    lemma PasserenStep(s: State, a: int, t: Tod)
      requires Enabled(s, Event.Passeren(a))
      ensures a in s.mem && s.running != null && Step(s, Event.Passeren(a), t) == PAfter(s, a, t)
    {
    }

    lemma PLowers(s: State, a: int, t: Tod)
      requires Inv(s) && s.running != null && a in s.mem
      ensures Lowers(s, PAfter(s, a, t), a, false, t)
    {
      hide Inv;
      NextIsAnother(s);
    }

    /** P, on whatever word the caller names; on an ordinary semaphore it is the step of the specification. */
    method Passeren(a: int, t: Tod)
      requires Valid() && currentProc != null && a in mem
      modifies this, asl, asl.table, st.procs
      ensures Rep() && Linked(st.root, st.tree) && a in old(st.mem) && old(st.running) != null
      ensures st == PAfter(old(st), a, t) && Lowers(old(st), st, a, false, t)
      ensures Enabled(old(st), Event.Passeren(a)) ==> Valid() && st == Step(old(st), Event.Passeren(a), t)
    {
      hide Heap, Addressed, Inv, Schedule, Step, Enabled, Block, Lowers;
      ghost var s := st;
      Runs();
      PLowers(s, a, t);
      Add(a, -1);
      if mem[a] < 0 {
        Sleep(a, t.dispatch);
      }
      if Enabled(s, Event.Passeren(a)) {
        PasserenStep(s, a, t);
        StepOk(s, Event.Passeren(a), t);
      }
    }

    /** removeBlocked, and the process it returns, if any, joins the ready queue. */
    method WakeFirst(a: int) returns (p: Pcb?)
      requires Rep() && a in st.mem
      modifies this, asl, asl.table, st.procs`next, st.procs`prev, st.procs`semAdd
      ensures Rep() && (p == null <==> Queue(old(st), a) == [])
      ensures st == (if Queue(old(st), a) == [] then old(st) else Wake(old(st), a)) && SameTree(old(st), st)
    {
      hide Heap, Placed, Addressed;
      QueueAsleep(a);
      Inside();
      p := AslRemove(a);
      if p != null {
        Inside();
        ReadyInsert(p);
      }
    }

    /** V on any word. */
    static ghost function VAfter(s: State, a: int): State
      requires a in s.mem
    {
      var s' := Store(s, a, 1);
      if s'.mem[a] <= 0 && Queue(s', a) != [] then Wake(s', a) else s'
    }

    lemma VerhogenStep(s: State, a: int, t: Tod)
      requires Enabled(s, Event.Verhogen(a))
      ensures a in s.mem && Step(s, Event.Verhogen(a), t) == VAfter(s, a)
    {
    }

    lemma VRaises(s: State, a: int)
      requires Inv(s) && s.running != null && a in s.mem
      ensures Raises(s, VAfter(s, a), a)
    {
      hide Inv;
      ValuesHold(s, a);
    }

    /** V, on whatever word the caller names; on an ordinary semaphore it is the step of the specification. */
    method Verhogen(a: int, t: Tod)
      requires Valid() && currentProc != null && a in mem
      modifies this, asl, asl.table, st.procs
      ensures Rep() && Linked(st.root, st.tree) && a in old(st.mem)
      ensures st == VAfter(old(st), a) && Raises(old(st), st, a)
      ensures Enabled(old(st), Event.Verhogen(a)) ==> Valid() && st == Step(old(st), Event.Verhogen(a), t)
    {
      hide Heap, Addressed, Inv, Schedule, Step, Enabled, Wake, Queue, Raises;
      ghost var s := st;
      Runs();
      VRaises(s, a);
      Add(a, 1);
      if mem[a] <= 0 {
        var p := WakeFirst(a);
      }
      if Enabled(s, Event.Verhogen(a)) {
        VerhogenStep(s, a, t);
        StepOk(s, Event.Verhogen(a), t);
      }
    }

    /** Charge the running process for its time since startTod. */
    method Charge(stopTod: int)
      requires Rep() && currentProc != null && currentProc in st.procs
      modifies this`st, currentProc`time
      ensures Rep() && currentProc in old(st.time)
      ensures st == AddTime(old(st), currentProc, stopTod - startTod)
    {
      hide Heap, IsQueue, Asl.Valid, Supports, Leaves, SemAdds, Placed, Addressed;
      var p := currentProc;
      Pieces();
      ghost var s := AddTime(st, p, stopTod - startTod);
      PlacedSame(st, s, freeQ);
      p.time := p.time + (stopTod - startTod);
      Assemble(s, readyQ, pcbFree, freeQ);
      st := s;
    }

    /** Nobody runs any more. */
    method Vacate()
      requires Rep()
      modifies this`currentProc, this`st
      ensures Rep() && st == old(st).(running := null)
    {
      hide Heap, Addressed;
      ghost var s := st;
      currentProc, st := null, st.(running := null);
      SameHeap(s);
    }

    method SoftAdd(d: int)
      requires Rep()
      modifies this`softBlockCount, this`st
      ensures Rep() && st == old(st).(softBlockCount := old(st.softBlockCount) + d)
    {
      hide Heap;
      ghost var s := st;
      softBlockCount := softBlockCount + d;
      st := st.(softBlockCount := softBlockCount);
      SameHeap(s);
    }

    method Restart(tod: int)
      requires Rep()
      modifies this`startTod, this`st
      ensures Rep() && st == old(st).(startTod := tod)
    {
      hide Heap;
      ghost var s := st;
      startTod := tod;
      st := st.(startTod := tod);
      SameHeap(s);
    }

    /** insertBlocked for the running process on a device or the clock. */
    method SoftBlock(a: int)
      requires Rep() && a in st.mem && |st.queues| < |st.procs| && currentProc != null
      requires currentProc in st.procs && currentProc !in st.free
      requires currentProc !in st.ready && currentProc !in st.semAdd
      modifies this, asl, asl.table, st.procs`next, st.procs`prev, st.procs`semAdd
      ensures Rep() && SameTree(old(st), st) && startTod == old(startTod) && mem == old(mem)
      ensures st == Block(old(st), a, old(currentProc)).(softBlockCount := old(st.softBlockCount) + 1)
    {
      hide Heap, Placed, Addressed;
      BlockCurrent(a);
      SoftAdd(1);
    }

    /** exceptions.c, lines 283-289: charge the running process, block it on its device, and dispatch another. */
    method SleepOnDevice(a: int, t: Tod)
      requires Rep() && a in st.mem && |st.queues| < |st.procs| && currentProc != null
      requires currentProc in st.procs && currentProc !in st.free
      requires currentProc !in st.ready && currentProc !in st.semAdd
      modifies this, asl, asl.table, st.procs`next, st.procs`prev, st.procs`semAdd, currentProc`time
      ensures Rep() && SameTree(old(st), st) && old(currentProc) in old(st.time)
      ensures st == Schedule(Block(AddTime(old(st), old(currentProc), t.stop - old(startTod)), a, old(currentProc))
                               .(softBlockCount := old(st.softBlockCount) + 1), t.dispatch)
    {
      hide Heap, Placed, Addressed, Schedule, Block;
      Charge(t.stop);
      SoftBlock(a);
      Inside();
      Scheduler(t.dispatch);
    }

    /** P on a device semaphore, up to the dispatch of another process if it blocks. */
    static ghost function DeviceDown(s: State, a: int, p: Pcb, t: Tod): State
      requires a in s.mem && p in s.time
    {
      var s' := Store(s, a, -1);
      if s'.mem[a] >= 0 then s' else
        Schedule(Block(AddTime(s', p, t.stop - s.startTod), a, p).(softBlockCount := s.softBlockCount + 1), t.dispatch)
    }

    method LowerDevice(a: int, t: Tod)
      requires Rep() && a in st.mem && |st.queues| < |st.procs| && currentProc != null
      requires currentProc in st.procs && currentProc !in st.free
      requires currentProc !in st.ready && currentProc !in st.semAdd
      modifies this, asl, asl.table, st.procs`next, st.procs`prev, st.procs`semAdd, currentProc`time
      ensures Rep() && SameTree(old(st), st) && old(currentProc) in old(st.time)
      ensures st == DeviceDown(old(st), a, old(currentProc), t)
    {
      hide Heap, Placed, Addressed, Block, Schedule;
      TimeKeys();
      Add(a, -1);
      if mem[a] < 0 {
        SleepOnDevice(a, t);
      }
    }

    lemma WaitDeviceStep(s: State, line: int, dev: int, read: bool, t: Tod)
      requires Enabled(s, WaitDevice(line, dev, read))
      ensures var a := DevAddr(s.base, DevIndex(line, dev, read));
        && a in s.mem && s.running != null && s.running in s.time
        && Step(s, WaitDevice(line, dev, read), t) == DeviceDown(s, a, s.running, t)
    {
      ClockIsLast(s.base, line, dev, read);
    }

    static lemma DeviceLowered(s: State, line: int, dev: int, read: bool, t: Tod)
      requires Inv(s) && Enabled(s, WaitDevice(line, dev, read))
      ensures var a := s.base + 4 * ((line - 3) * 8 + dev + if read then 8 else 0);
        Lowers(s, Step(s, WaitDevice(line, dev, read), t), a, true, t)
    {
      hide Inv, Step, Enabled, Lowers;
      DeviceWaitServed(s, WaitDevice(line, dev, read), t);
    }

    method WaitForDevice(line: int, dev: int, read: bool, t: Tod)
      requires Valid() && Enabled(st, WaitDevice(line, dev, read))
      modifies this, asl, asl.table, st.procs
      ensures Valid() && st == Step(old(st), WaitDevice(line, dev, read), t)
      ensures Lowers(old(st), st, old(st.base) + 4 * ((line - 3) * 8 + dev + if read then 8 else 0), true, t)
    {
      hide Rep, Inv, Step, Enabled, DevAddr, DevIndex, DeviceDown, Lowers;
      ghost var s := st;
      DeviceLowered(s, line, dev, read, t);
      WaitDeviceStep(s, line, dev, read, t);
      Runs();
      LowerDevice(DevAddr(deviceSema4s, DevIndex(line, dev, read)), t);
      StepOk(s, WaitDevice(line, dev, read), t);
    }

    /** Start a new interval and call the scheduler. */
    method Reschedule(t: Tod)
      requires Rep()
      modifies this, st.procs`next, st.procs`prev
      ensures Rep() && SameTree(old(st), st) && st == Schedule(old(st).(startTod := t.restart), t.dispatch)
    {
      hide Heap, Placed, Addressed, Schedule;
      Restart(t.restart);
      Inside();
      Scheduler(t.dispatch);
    }

    /** P on the clock by a process that is charged first, whether it blocks or not. */
    static ghost function ClockDown(s: State, p: Pcb, stopTod: int): State
      requires p in s.time && DevAddr(s.base, CLOCK) in s.mem
    {
      var a := DevAddr(s.base, CLOCK);
      var s' := Store(AddTime(s, p, stopTod - s.startTod), a, -1);
      if s'.mem[a] < 0 then Block(s', a, p).(softBlockCount := s.softBlockCount + 1) else s'
    }

    /** exceptions.c, lines 297-309: charge the caller and perform P on the clock. */
    method LowerClock(stopTod: int)
      requires Rep() && DevAddr(deviceSema4s, CLOCK) in st.mem && |st.queues| < |st.procs| && currentProc != null
      requires currentProc in st.procs && currentProc !in st.free
      requires currentProc !in st.ready && currentProc !in st.semAdd
      modifies this, asl, asl.table, st.procs`next, st.procs`prev, st.procs`semAdd, currentProc`time
      ensures Rep() && SameTree(old(st), st) && old(currentProc) in old(st.time) && old(st.base) == deviceSema4s
      ensures st == ClockDown(old(st), old(currentProc), stopTod)
    {
      hide Heap, Placed, Addressed, Block, DevAddr;
      Charge(stopTod);
      var a := DevAddr(deviceSema4s, CLOCK);
      Add(a, -1);
      if mem[a] < 0 {
        SoftBlock(a);
      }
    }

    lemma WaitClockStep(s: State, t: Tod)
      requires Enabled(s, Event.WaitClock)
      ensures DevAddr(s.base, CLOCK) in s.mem && s.running != null && s.running in s.time
      ensures Step(s, Event.WaitClock, t) ==
        Schedule(ClockDown(s, s.running, t.stop).(startTod := t.restart), t.dispatch)
    {
    }

    static lemma ClockLowered(s: State, t: Tod)
      requires Inv(s) && Enabled(s, Event.WaitClock)
      ensures var s' := Step(s, Event.WaitClock, t); Lowers(s, s', s.base + 4 * 48, true, t) && s'.running != s.running
    {
      hide Inv, Step, Enabled, Lowers;
      ClockWaitServed(s, t);
    }

    method WaitForClock(t: Tod)
      requires Valid() && Enabled(st, Event.WaitClock)
      modifies this, asl, asl.table, st.procs
      ensures Valid() && st == Step(old(st), Event.WaitClock, t)
      ensures Lowers(old(st), st, old(st.base) + 4 * 48, true, t) && st.running != old(st.running)
    {
      hide Heap, Addressed, Inv, Schedule, Step, Enabled, DevAddr, Block, ClockDown, Lowers;
      ghost var s := st;
      ClockLowered(s, t);
      WaitClockStep(s, t);
      Runs();
      LowerClock(t.stop);
      Reschedule(t);
      StepOk(s, Event.WaitClock, t);
    }

    /** The interrupted device's V, before anybody is dispatched. */
    static ghost function DeviceUp(s: State, a: int): State
      requires a in s.mem
    {
      var s' := Store(s, a, 1);
      if s'.mem[a] <= 0 && Queue(s', a) != [] then Wake(s', a).(softBlockCount := s.softBlockCount - 1) else s'
    }

    /** interrupts.c, lines 110-120: V on the device's semaphore. */
    method SignalDevice(a: int)
      requires Rep() && a in st.mem
      modifies this, asl, asl.table, st.procs`next, st.procs`prev, st.procs`semAdd
      ensures Rep() && SameTree(old(st), st) && st == DeviceUp(old(st), a)
    {
      hide Heap, Placed, Addressed, Queue;
      Add(a, 1);
      if mem[a] <= 0 {
        var p := WakeFirst(a);
        if p != null {
          SoftAdd(-1);
        }
      }
    }

    lemma DeviceInterruptStep(s: State, line: int, dev: int, read: bool, t: Tod)
      requires Enabled(s, DeviceInterrupt(line, dev, read))
      ensures var a := DevAddr(s.base, DevIndex(line, dev, read));
        && a in s.mem
        && Step(s, DeviceInterrupt(line, dev, read), t) ==
           if s.running == null then Schedule(DeviceUp(s, a), t.dispatch) else DeviceUp(s, a)
      ensures forall a | a in s.mem :: DeviceUp(s, a).running == s.running
    {
      ClockIsLast(s.base, line, dev, read);
    }

    /** A terminal whose transmitter is ready was interrupting as a receiver. */
    method NonTimerInterrupt(line: int, devices: set<int>, transmStatus: int, t: Tod)
      requires Valid()
      requires Enabled(st, DeviceInterrupt(line, DecodedDevice(devices), line == 7 && transmStatus == READY))
      modifies this, asl, asl.table, st.procs
      ensures Valid()
      ensures st == Step(old(st), DeviceInterrupt(line, DecodedDevice(devices), line == 7 && transmStatus == READY), t)
      ensures exists d :: Decoded(devices, d) && Signals(old(st), st, line, d, transmStatus)
    {
      hide Heap, Addressed, Inv, Schedule, Step, Enabled, DevAddr, DevIndex, DeviceUp, Signals, Decoded;
      ghost var s := st;
      DeviceServed(s, line, devices, transmStatus, t);
      var devNo := DecodedDevice(devices);
      var read := line == 7 && transmStatus == READY;
      DeviceInterruptStep(s, line, devNo, read, t);
      TreeInside();
      var devIndex := DevIndex(line, devNo, read);
      SignalDevice(DevAddr(deviceSema4s, devIndex));
      if currentProc == null {
        Inside();
        Scheduler(t.dispatch);
      }
      StepOk(s, DeviceInterrupt(line, devNo, read), t);
    }

    lemma TreeInside()
      requires Valid()
      ensures Nodes(st.tree) <= st.procs
    {
    }

    static ghost function Preempted(s: State, stopTod: int): State
      requires s.running != null ==> s.running in s.time
    {
      if s.running == null then s else
        AddTime(s, s.running, stopTod - s.startTod).(ready := s.ready + [s.running], running := null)
    }

    /** interrupts.c, lines 139-145: the running process, if any, is charged and goes to the back of the ready queue. */
    method Preempt(stopTod: int)
      requires Rep()
      requires currentProc != null ==>
        currentProc in st.procs && currentProc !in st.ready && currentProc !in st.semAdd && currentProc !in st.free
      modifies this, st.procs`next, st.procs`prev, st.procs`time
      ensures old(st.running) != null ==> old(st.running) in old(st.time)
      ensures Rep() && SameTree(old(st), st) && st == Preempted(old(st), stopTod)
    {
      hide Heap, Placed, Addressed;
      if currentProc != null {
        Charge(stopTod);
        Inside();
        ReadyInsert(currentProc);
        Vacate();
      }
    }

    lemma TimeSliceStep(s: State, t: Tod)
      requires Enabled(s, TimeSlice)
      ensures s.running != null ==> s.running in s.time
      ensures Step(s, TimeSlice, t) == Schedule(Preempted(s, t.stop).(startTod := t.restart), t.dispatch)
    {
    }

    method PltInterrupt(t: Tod)
      requires Valid() && Enabled(st, TimeSlice)
      modifies this, asl, asl.table, st.procs
      ensures Valid() && st == Step(old(st), TimeSlice, t) && SliceEnds(old(st), st, t)
    {
      hide Heap, Addressed, Inv, Schedule, Step, Enabled, Preempted, SliceEnds;
      ghost var s := st;
      SliceServed(s, t);
      TimeSliceStep(s, t);
      if st.running != null {
        Runs();
      }
      TreeInside();
      Preempt(t.stop);
      Reschedule(t);
      StepOk(s, TimeSlice, t);
    }

    /** removeBlocked on a semaphore whose first k waiters are already ready. */
    method DrainNext(a: int, ghost s: State, ghost k: nat) returns (p: Pcb?)
      requires Rep() && a in st.mem && k <= |Queue(s, a)| && st == Drained(s, a, k, k)
      modifies this, asl, asl.table, st.procs`next, st.procs`prev, st.procs`semAdd
      ensures Rep() && (p == null <==> k == |Queue(s, a)|)
      ensures p != null ==> p == Queue(s, a)[k] && st == Drained(s, a, k + 1, k)
      ensures p == null ==> st == Drained(s, a, k, k)
    {
      hide Heap, Placed, Addressed, WithQueue, Drained;
      DrainOne(s, a, k);
      QueueAsleep(a);
      p := AslRemove(a);
    }

    /** The process just taken off becomes ready. */
    method DrainHand(p: Pcb, ghost a: int, ghost s: State, ghost k: nat)
      requires Rep() && k < |Queue(s, a)| && p == Queue(s, a)[k] && st == Drained(s, a, k + 1, k)
      requires NoDup(Queue(s, a)) && p in s.procs && p !in s.ready && p !in s.free
      modifies this, st.procs`next, st.procs`prev
      ensures Rep() && st == Drained(s, a, k + 1, k + 1)
    {
      hide Heap, Placed, Addressed, WithQueue, Drained, Queue;
      DrainedFrame(s, a, k + 1, k);
      HandOver(s, a, k);
      Inside();
      ReadyInsert(p);
      SoftAdd(-1);
    }

    /** interrupts.c, lines 160-168: wake everybody waiting for the clock, oldest first, and reset it. */
    method DrainClock()
      requires Rep() && DevAddr(deviceSema4s, CLOCK) in st.mem
      modifies this, asl, asl.table, st.procs`next, st.procs`prev, st.procs`semAdd
      ensures Rep() && SameTree(old(st), st) && st == Ticked(old(st))
    {
      hide Rep, Queue, WithQueue, Drained, NoDup, DevAddr, Ticked, BlockedOk;
      var a := DevAddr(deviceSema4s, CLOCK);
      ghost var s, q, k := st, Queue(st, a), 0;
      ClockQueue(a);
      NoneDrained(s, a);
      var p := DrainNext(a, s, 0);
      while p != null
        invariant Rep() && k <= |q| && (p == null <==> k == |q|)
        invariant p != null ==> p == q[k] && st == Drained(s, a, k + 1, k)
        invariant p == null ==> st == Drained(s, a, k, k)
        decreases |q| - k
      {
        DrainedFrame(s, a, k + 1, k);
        DrainHand(p, a, s, k);
        k := k + 1;
        DrainedFrame(s, a, k, k);
        p := DrainNext(a, s, k);
      }
      ClearClock(a, s);
    }

    method ClearClock(a: int, ghost s: State)
      requires Rep() && a in s.mem && a == DevAddr(s.base, CLOCK) && st == Drained(s, a, |Queue(s, a)|, |Queue(s, a)|)
      requires NoDup(Queue(s, a))
      modifies this`mem, this`st
      ensures Rep() && SameTree(s, st) && st == Ticked(s)
    {
      hide Heap, Queue, WithQueue, Drained;
      DrainedFrame(s, a, |Queue(s, a)|, |Queue(s, a)|);
      AllDrained(s, a);
      StoreAddressed(mem, st.queues, a, 0);
      mem := mem[a := 0];
      ghost var s' := st;
      st := st.(mem := mem);
      SameHeap(s');
    }

    lemma ClockQueue(a: int)
      requires Rep()
      ensures BlockedOk(st.queues, st.semAdd) && NoDup(Queue(st, a)) && st.base == deviceSema4s
      ensures forall p | p in Queue(st, a) :: p in st.procs && p in st.semAdd && p !in st.ready && p !in st.free
    {
      hide IsQueue, Asl.Valid, Others, SemAdds;
      QueueInside(st, freeQ, a);
      QueueFacts(st.queues, st.semAdd, a);
    }

    lemma TickStep(s: State, t: Tod)
      requires Enabled(s, ClockTick)
      ensures DevAddr(s.base, CLOCK) in s.mem && Ticked(s).running == s.running
      ensures Step(s, ClockTick, t) ==
        if s.running == null then Schedule(Ticked(s), t.dispatch)
        else Schedule(Ticked(s).(ready := Ticked(s).ready + [s.running]), t.dispatch)
    {
    }

    /** The running process is still in no queue once the clock's waiters are ready. */
    lemma TickedApart(s: State)
      requires Inv(s) && s.running != null
      ensures s.running !in Ticked(s).ready && s.running !in Ticked(s).semAdd && s.running !in Ticked(s).free
      ensures s.running in s.procs
    {
      hide ValuesOk, MemoryShape, CountsOk;
      QueueFacts(s.queues, s.semAdd, DevAddr(s.base, CLOCK));
    }

    /** The running process joins the ready queue, uncharged and without giving up currentProc. */
    method ItInterrupt(t: Tod)
      requires Valid() && Enabled(st, ClockTick)
      modifies this, asl, asl.table, st.procs
      ensures Valid() && st == Step(old(st), ClockTick, t) && Ticks(old(st), st)
    {
      hide Heap, Addressed, Inv, Schedule, Step, Enabled, DevAddr, Ticked, Ticks;
      ghost var s := st;
      TickServed(s, t);
      TickStep(s, t);
      TreeInside();
      if st.running != null {
        TickedApart(s);
      }
      DrainClock();
      if currentProc != null {
        Inside();
        ReadyInsert(currentProc);
      }
      Inside();
      Scheduler(t.dispatch);
      StepOk(s, ClockTick, t);
    }

    lemma TerminateStep(s: State, e: Event, t: Tod)
      requires Enabled(s, e) && Dies(s, e)
      ensures s.running != null && Step(s, e, t) ==
        Schedule(Ended(Kill(s, Below(s, s.running))), t.dispatch).(tree := SetKids(s.tree, s.running, Nil))
    {
      hide Kill, SetKids, Below;
    }

    lemma KidsPlaced(s: State)
      requires Inv(s) && s.running != null
      ensures var kids := KidsOf(s.tree, s.running);
        && Distinct(Cons(s.running, kids, Nil)) && Nodes(kids) <= s.procs && Nodes(kids) !! s.free
      ensures Distinct(s.tree) && s.running in Nodes(s.tree) && s.running in s.procs && s.running !in s.free
    {
      hide BlockedOk, CountsOk, MemoryShape, ValuesOk, ReadyOk;
    }

    lemma Dooms()
      requires Valid() && st.running != null
      ensures Doomed(st.running, KidsOf(st.tree, st.running)) && Distinct(st.tree)
      ensures LinkedAround(st.root, st.tree, st.running)
    {
      hide Heap, Addressed, Inv, KidsOf, LinkedAround;
      KidsPlaced(st);
      KidsLinked(st.root, st.tree, st.running);
      LeaveHole(st.root, st.tree, st.running);
    }

    /** terminateProcess(currentProc), which leaves the rest of the tree alone. */
    method EndAround(tod: int)
      requires Valid() && currentProc != null
      modifies this, asl, asl.table, st.procs
      ensures Rep() && old(st.running) != null && old(st.running).child == null
      ensures st == Schedule(Ended(Kill(old(st), Below(old(st), old(st.running)))), tod)
      ensures freeQ == old(freeQ) + PostOrder(KidsOf(old(st.tree), old(st.running)))
      ensures Distinct(old(st.tree)) && old(st.running) in Nodes(old(st.tree))
      ensures LinkedAround(old(st.root), old(st.tree), old(st.running))
    {
      hide Heap, Addressed, Inv, Schedule, Kill, LinkedAround, KidsOf, Outside, Linked;
      ghost var s, r := st, st.running;
      Runs();
      Dooms();
      ghost var out := Outside(s.tree, r);
      OutsideIs(s, r);
      TerminateProcess(currentProc, KidsOf(s.tree, r), tod);
      assert forall x | x in out :: x.nextSib == old(x.nextSib) && (x != r ==> x.child == old(x.child));
    }

    /** The tree has lost the descendants of the process that ran. */
    method EndCurrent(tod: int)
      requires Valid() && currentProc != null
      modifies this, asl, asl.table, st.procs
      ensures Rep() && Linked(st.root, st.tree)
      ensures old(st.running) != null
      ensures var s, r := old(st), old(st.running);
        st == Schedule(Ended(Kill(s, Below(s, r))), tod).(tree := SetKids(s.tree, r, Nil))
      ensures freeQ == old(freeQ) + PostOrder(KidsOf(old(st.tree), old(st.running)))
    {
      hide Heap, Addressed, Inv, Schedule, Kill, LinkedAround, Below, SetKids, Nodes, Distinct;
      ghost var s, r := st, st.running;
      EndAround(tod);
      FillHole(s.root, s.tree, r, Nil);
      EndFrame(s, tod);
      SetTree(SetKids(s.tree, r, Nil));
    }

    lemma OutsideIs(s: State, r: Pcb)
      requires Nodes(s.tree) <= s.procs
      ensures Outside(s.tree, r) !! Nodes(KidsOf(s.tree, r)) && Outside(s.tree, r) <= s.procs
    {
    }

    lemma EndFrame(s: State, tod: int)
      requires s.running != null
      ensures Schedule(Ended(Kill(s, Below(s, s.running))), tod).root == s.root
    {
      hide Below, Kill;
      KillFrame(s, Below(s, s.running));
    }

    /** SYS2, or an exception that nobody handles: e says which. The descendants become free children before
        parents, and younger siblings with all their own before older ones. */
    method TerminateCurrent(ghost e: Event, t: Tod)
      requires Valid() && Enabled(st, e) && Dies(st, e)
      modifies this, asl, asl.table, st.procs
      ensures Valid() && st == Step(old(st), e, t)
      ensures old(st.running) != null && freeQ == old(freeQ) + PostOrder(KidsOf(old(st.tree), old(st.running)))
    {
      hide Heap, Addressed, Inv, Schedule, Step, Enabled, Dies, Kill, Below, SetKids, Ended;
      ghost var s := st;
      TerminateStep(s, e, t);
      EndCurrent(t.dispatch);
      StepOk(s, e, t);
    }

    /** exceptions.c, lines 131-136: the new process starts with no CPU time, on no semaphore. */
    method SetUp(p: Pcb, sup: bool)
      requires Rep() && p in st.procs && p !in st.ready && p !in st.semAdd && p !in st.free
      modifies this`processCount, this`st, p`time, p`support, p`semAdd
      ensures Rep() && mem == old(mem)
      ensures st == old(st).(processCount := old(st.processCount) + 1, time := old(st.time)[p := 0],
                             support := if sup then old(st.support) + {p} else old(st.support) - {p})
    {
      hide Heap, IsQueue, Asl.Valid, SemAdds, Others, Placed, Addressed;
      ghost var s := st.(processCount := st.processCount + 1, time := st.time[p := 0],
                         support := if sup then st.support + {p} else st.support - {p});
      Pieces();
      PlacedSame(st, s, freeQ);
      PrepareNamed(p, sup, st);
      Assemble(s, readyQ, pcbFree, freeQ);
      processCount, st := processCount + 1, s;
    }

    /** createProcess's own fields, whatever else the machine holds. */
    static method PrepareNamed(p: Pcb, sup: bool, ghost s: State)
      requires SemAdds(s.procs, s.semAdd) && Others(s.procs, s.free, s.time, s.support)
      requires p in s.procs && p !in s.semAdd
      modifies p`time, p`support, p`semAdd
      ensures SemAdds(s.procs, s.semAdd)
      ensures Others(s.procs, s.free, s.time[p := 0], if sup then s.support + {p} else s.support - {p})
    {
      p.Prepare(sup);
    }

    /** insertChild under the running process. */
    method Adopt(p: Pcb)
      requires Rep() && Linked(st.root, st.tree) && Distinct(st.tree)
      requires currentProc != null && currentProc in Nodes(st.tree)
      requires Nodes(st.tree) <= st.procs && Nodes(st.tree) !! st.free
      requires p in st.procs && p !in Nodes(st.tree) && p !in st.free && p.child == null
      modifies this`st, st.procs
      ensures Rep() && Linked(st.root, st.tree) && Nodes(st.tree) <= st.procs
      ensures st == old(st).(
        tree := SetKids(old(st.tree), currentProc, Cons(p, Nil, KidsOf(old(st.tree), currentProc))))
    {
      hide Rep, KidsOf, SetKids, Distinct;
      ghost var tree, r := st.tree, currentProc;
      KidsLinked(st.root, tree, r);
      HeadInside(tree, r);
      Childless(p);
      InsertChild(currentProc, p, st.root, tree, Nil);
      GrownInside(tree, r, p);
      SetTree(SetKids(tree, r, Cons(p, Nil, KidsOf(tree, r))));
    }

    ghost method SetTree(f: Forest)
      requires Rep()
      modifies this`st
      ensures Rep() && st == old(st).(tree := f)
    {
      hide Heap, Addressed;
      var s := st;
      st := st.(tree := f);
      SameHeap(s);
    }

    static lemma Childless(p: Pcb)
      requires p.child == null
      ensures Linked(p.child, Nil) && Distinct(Cons(p, Nil, Nil)) && Nodes(Nil) == {}
    {
    }

    lemma GrownInside(f: Forest, r: Pcb, p: Pcb)
      requires Distinct(f) && r in Nodes(f) && p !in Nodes(f)
      ensures Nodes(SetKids(f, r, Cons(p, Nil, KidsOf(f, r)))) == Nodes(f) + {p}
    {
      SetKidsNodes(f, r, Cons(p, Nil, KidsOf(f, r)));
    }

    lemma HeadInside(f: Forest, p: Pcb)
      requires Linked(p.child, KidsOf(f, p))
      ensures KidsHead(p) <= Nodes(f)
    {
    }

    lemma CreateStep(s: State, c: Pcb, sup: bool, t: Tod)
      requires WellFormed(s) && s.mode == Running && s.running != null && c in s.free
      ensures Enabled(s, Create(c, sup)) && Step(s, Create(c, sup), t) == CreateChild(s, c, sup)
    {
    }

    lemma CanRun()
      requires Valid() && st.running != null
      ensures WellFormed(st) && st.mode == Running && Placed(st, freeQ)
      ensures Distinct(st.tree) && Nodes(st.tree) !! st.free && st.running in Nodes(st.tree)
    {
      hide IsQueue, Asl.Valid, SemAdds, Others, Addressed, Placed;
    }

    /** exceptions.c, lines 131-140: the new process joins the tree and the ready queue. */
    method NewChild(p: Pcb, sup: bool)
      requires Rep() && Linked(st.root, st.tree) && Distinct(st.tree)
      requires currentProc != null && currentProc in Nodes(st.tree)
      requires Nodes(st.tree) <= st.procs && Nodes(st.tree) !! st.free
      requires p in st.procs && p !in Nodes(st.tree) && p.child == null
      requires p !in st.free && p !in st.ready && p !in st.semAdd
      modifies this, st.procs
      ensures Rep() && Linked(st.root, st.tree)
      ensures st == CreateChild(old(st), p, sup)
    {
      hide Heap, Placed, Addressed, Distinct, SetKids, KidsOf;
      ghost var s := st;
      SetUp(p, sup);
      Adopt(p);
      Inside();
      ReadyInsert(p);
      assert s.free - {p} == s.free;
    }

    /** SYS1: -1 when no pcb is free; otherwise the oldest free one becomes the youngest child. */
    method CreateProcess(sup: bool, t: Tod) returns (result: int)
      requires Valid() && currentProc != null
      modifies this, asl, asl.table, st.procs
      ensures Valid() && (result == -1 <==> old(freeQ) == []) && (result == 0 <==> old(freeQ) != [])
      ensures var c := if old(freeQ) == [] then null else old(freeQ[0]);
        Enabled(old(st), Create(c, sup)) && st == Step(old(st), Create(c, sup), t)
      ensures if old(freeQ) == [] then st == old(st) else Adopts(old(st), st, old(freeQ[0]), sup)
    {
      hide Heap, Addressed, Inv, Step, Placed, Distinct, SetKids, Enabled, Adopts;
      ghost var s, q := st, freeQ;
      CanRun();
      Runs();
      NoneFree(s, q);
      result := -1;
      var newProc := AllocPcb();
      if newProc == null {
        CreateNone(s, sup, t);
      } else {
        CreateStep(s, newProc, sup, t);
        CreateServed(s, newProc, sup, t);
        CreateTwice(s, st, newProc, sup);
        NewChild(newProc, sup);
        result := 0;
      }
      StepOk(s, Create(newProc, sup), t);
    }

    /** What allocPcb cleared is set again. */
    lemma CreateTwice(s: State, s': State, p: Pcb, sup: bool)
      requires s.running != null && s' == s.(free := s.free - {p}, time := s'.time, support := s'.support)
      requires s'.time == s.time || s'.time == s.time[p := 0]
      requires s'.support == s.support || s'.support == s.support - {p}
      ensures CreateChild(s', p, sup) == CreateChild(s, p, sup)
    {
      hide KidsOf, SetKids;
    }

    lemma CreateNone(s: State, sup: bool, t: Tod)
      requires WellFormed(s) && s.mode == Running && s.running != null && s.free == {}
      ensures Enabled(s, Create(null, sup)) && Step(s, Create(null, sup), t) == s
    {
    }

    /** initPcbs */
    method InitPcbs(table: seq<Pcb>)
      requires Rep() && NoDup(table) && freeQ == [] && st.free == {} && st.ready == [] && st.semAdd == map[]
      requires (forall p | p in table :: p in st.procs && Fresh(p))
      modifies this`pcbFree, this`freeQ, this`st, table`next, table`prev
      ensures Rep() && freeQ == table && st == old(st).(free := set p | p in table)
    {
      hide Heap, Addressed;
      ghost var s := st;
      for i := 0 to |table|
        invariant Rep() && freeQ == table[..i] && st == s.(free := set p | p in freeQ)
      {
        assert table[i] !in table[..i];
        FreePcb(table[i]);
        assert st.free == set p | p in freeQ;
      }
      assert table[..|table|] == table;
    }

    /** initial.c, lines 78-90: the first process becomes ready. */
    method AdmitFirst()
      requires Rep() && freeQ != [] && st.ready == [] && freeQ[0] !in st.semAdd && freeQ[0].nextSib == null
      modifies this, freeQ
      ensures Rep() && old(freeQ[0]).child == null && old(freeQ[0]).nextSib == null
      ensures st == old(st).(free := old(st.free) - {old(freeQ[0])}, ready := [old(freeQ[0])],
                             processCount := old(st.processCount) + 1, time := st.time, support := st.support)
      ensures st.time == old(st.time) || st.time == old(st.time)[old(freeQ[0]) := 0]
      ensures st.support == old(st.support) || st.support == old(st.support) - {old(freeQ[0])}
    {
      hide Heap, Addressed;
      Inside();
      ghost var q := freeQ;
      FreeApart();
      var tempPcb := AllocPcb();
      ReadyInsert(tempPcb);
      Count(1);
    }

    lemma FreeApart()
      requires Rep()
      ensures forall p | p in freeQ :: p in st.procs && p !in st.ready && p !in st.semAdd
      ensures NoDup(freeQ)
    {
      hide Asl.Valid, SemAdds, Others, BlockedOk;
    }

    lemma TimeKeys()
      requires Rep()
      ensures st.time.Keys == st.procs
    {
      hide Asl.Valid, SemAdds, Supports, Leaves, BlockedOk, IsQueue;
    }

    /** main, from the first allocPcb on. */
    method Launch(table: seq<Pcb>, ghost base: int, ghost words: map<int, int>, ghost bootTod: int, tod: int)
      returns (ghost boot: State)
      requires table != [] && (forall p | p in table :: Fresh(p)) && MemoryShape(words.Keys, base)
      requires forall a | a in words :: if IsDev(base, a) then words[a] == 0 else words[a] >= 0
      requires Rep() && freeQ == table && st == PowerOn(table, base, words, bootTod).(free := set p | p in table)
      modifies this, table
      ensures Valid() && st == Schedule(boot, tod)
      ensures IsBoot(boot) && boot.startTod == bootTod && boot.mem == words && boot.base == base
      ensures boot.procs == (set p | p in table) && boot.root == table[0] && boot.root !in boot.support
    {
      hide Heap, Addressed, Schedule, MemoryShape, IsBoot, Inv;
      assert table[0] in table && Fresh(table[0]);
      AdmitFirst();
      TimeKeys();
      boot := st;
      FirstBoot(table, base, words, bootTod, boot);
      Scheduler(tod);
      assert st.tree == Cons(table[0], Nil, Nil);
      assert Linked(st.root, st.tree);
      BootOk(boot, tod);
    }

    static lemma FirstBoot(table: seq<Pcb>, base: int, words: map<int, int>, bootTod: int, boot: State)
      requires table != [] && MemoryShape(words.Keys, base)
      requires forall a | a in words :: if IsDev(base, a) then words[a] == 0 else words[a] >= 0
      requires boot == PowerOn(table, base, words, bootTod).(free := boot.procs - {table[0]}, ready := [table[0]],
                                                             processCount := 1, time := boot.time)
      requires boot.time.Keys == boot.procs && forall p | p in boot.time :: boot.time[p] == 0
      ensures IsBoot(boot)
    {
      hide MemoryShape;
    }

    // ---------- which step is taken ----------

    /** passUpOrDie: a process without a support structure dies with its descendants. */
    method PassUpOrDie(t: Tod)
      requires Valid() && currentProc != null
      modifies this, asl, asl.table, st.procs
      ensures Valid() && Enabled(old(st), Trap) && st == Step(old(st), Trap, t) && PassedUpOrDied(old(st), st)
    {
      hide Heap, Addressed, Inv, Placed, Schedule, PassedUpOrDied;
      CanRun();
      TrapServed(st, t);
      Supported();
      if !currentProc.support {
        TerminateCurrent(Trap, t);
      }
    }

    lemma Supported()
      requires Valid() && st.running != null
      ensures currentProc == st.running && st.running in st.procs
      ensures st.running.support <==> st.running in st.support
    {
      hide Asl.Valid, SemAdds, Times, Leaves, BlockedOk, IsQueue;
    }

    ghost function NextFree(): Pcb?
      reads this`freeQ
    {
      if freeQ == [] then null else freeQ[0]
    }

    /** syscallHandler */
    method SyscallHandler(x: Exception, t: Tod)
      requires Valid() && currentProc != null && Enabled(st, SyscallEvent(x, NextFree()))
      modifies this, asl, asl.table, st.procs
      ensures Valid() && st == Step(old(st), SyscallEvent(x, old(NextFree())), t)
      ensures Called(old(st), st, x, old(NextFree()), t)
    {
      hide Valid, Step, Enabled, Inv, Called, Lowers, Raises, Adopts, PassedUpOrDied;
      Invariant();
      CallServed(st, x, NextFree(), t);
      if x.user && x.code <= 8 {
        PassUpOrDie(t);
      } else if x.code == 1 {
        var _ := CreateProcess(x.a2 != NULLADDR, t);
      } else if x.code == 2 {
        Mortal();
        TerminateCurrent(Event.Terminate, t);
      } else if x.code == 3 {
        WordThere(x.a1);
        Passeren(x.a1, t);
      } else if x.code == 4 {
        WordThere(x.a1);
        Verhogen(x.a1, t);
      } else if x.code == 5 {
        WaitForDevice(x.a1, x.a2, x.a3 == 1, t);
      } else if x.code == 7 {
        WaitForClock(t);
      } else if x.code != 6 && x.code != 8 {
        PassUpOrDie(t);
      } else {
        ResumeStep(st, t);
      }
    }

    lemma Invariant()
      requires Valid()
      ensures Inv(st)
    {
      hide Heap, Inv, Addressed;
    }

    lemma WordThere(a: int)
      requires Valid() && (Enabled(st, Event.Passeren(a)) || Enabled(st, Event.Verhogen(a)))
      ensures a in mem
    {
      hide Heap, Inv, Addressed;
    }

    lemma Mortal()
      requires Valid() && currentProc != null
      ensures Dies(st, Event.Terminate)
    {
      hide Heap, Inv, Addressed;
    }

    lemma ResumeStep(s: State, t: Tod)
      requires Enabled(s, Resume)
      ensures Step(s, Resume, t) == s
    {
    }

    /** genExceptionHandler */
    method GenExceptionHandler(x: Exception, t: Tod)
      requires Valid() && Enabled(st, EventOf(x, NextFree()))
      modifies this, asl, asl.table, st.procs
      ensures Valid() && st == Step(old(st), EventOf(x, old(NextFree())), t)
      ensures Served(old(st), st, x, old(NextFree()), t)
    {
      hide Valid, Step, Enabled, Inv, Served, Called, PassedUpOrDied, SliceEnds, Ticks, Signals, Decoded;
      Invariant();
      ExceptionServed(st, x, NextFree(), t);
      Runnable(EventOf(x, NextFree()));
      if x.excCode == 0 {
        var line := FirstLine(x.pending);
        if line == 1 {
          PltInterrupt(t);
        } else if line == 2 {
          ItInterrupt(t);
        } else if line == 0 {
          PassUpOrDie(t);
        } else {
          NonTimerInterrupt(line, x.devices, x.transmStatus, t);
        }
      } else if x.excCode <= 3 {
        PassUpOrDie(t);
      } else if x.excCode == 8 {
        SyscallHandler(x, t);
      } else {
        PassUpOrDie(t);
      }
    }

    lemma Runnable(e: Event)
      requires Valid() && Enabled(st, e)
      ensures !e.DeviceInterrupt? && !e.ClockTick? && !e.TimeSlice? ==> currentProc != null
    {
      hide Heap, Inv, Addressed;
    }
  }

  // ---------- main ----------

  method ProcTable(n: nat) returns (table: seq<Pcb>)
    ensures |table| == n && NoDup(table) && fresh(table) && forall p | p in table :: Fresh(p)
  {
    table := [];
    for i := 0 to n
      invariant |table| == i && NoDup(table) && fresh(table) && forall p | p in table :: Fresh(p)
    {
      var p := new Pcb();
      table := table + [p];
    }
  }

  /** initial.c, lines 67-71: the semaphores of deviceSema4s start at zero. */
  method ClearSemaphores(base: int, user: map<int, int>) returns (mem: map<int, int>)
    requires 0 < base && DevAddr(base, CLOCK) < NULLADDR
    requires forall a | a in user :: LegalAddress(a) && !IsDev(base, a) && user[a] >= 0
    ensures MemoryShape(mem.Keys, base)
    ensures forall a | a in mem :: if IsDev(base, a) then mem[a] == 0 else a in user && mem[a] == user[a]
    ensures forall a | a in user :: a in mem
  {
    mem := user;
    for i := 0 to SEMCOUNT
      invariant forall j | 0 <= j < i :: DevAddr(base, j) in mem
      invariant forall a | a in mem && IsDev(base, a) :: mem[a] == 0 && DevWord(base, a)
      invariant forall a | a in mem && !IsDev(base, a) :: a in user && mem[a] == user[a]
      invariant forall a | a in mem :: LegalAddress(a)
      invariant forall a | a in user :: a in mem
    {
      mem := mem[DevAddr(base, i) := 0];
    }
  }

  /** main: a machine whose abstract state is the first state of a run. */
  method Boot(n: nat, base: int, user: map<int, int>, bootTod: int, tod: int) returns (m: Machine, ghost boot: State)
    requires n > 0 && 0 < base && DevAddr(base, CLOCK) < NULLADDR
    requires forall a | a in user :: LegalAddress(a) && !IsDev(base, a) && user[a] >= 0
    ensures m.Valid() && m.st == Schedule(boot, tod) && fresh(m)
    ensures IsBoot(boot) && boot.startTod == bootTod && |boot.procs| == n && boot.base == base
    ensures IsRun(Run(boot, tod, [m.st], [], []))
    ensures forall a | a in user :: a in boot.mem && boot.mem[a] == user[a]
  {
    hide MemoryShape, IsBoot, Schedule, Machine.Heap, Machine.Valid;
    var table := ProcTable(n);
    var mem := ClearSemaphores(base, user);
    m := new Machine(table, base, mem, bootTod);
    m.InitPcbs(table);
    SeqAsSet(table);
    boot := m.Launch(table, base, mem, bootTod, tod);
  }

  /** Whatever exception the machine serves next, its history remains a run. */
  method Serve(m: Machine, x: Exception, t: Tod, ghost r: Run) returns (ghost r': Run)
    requires m.Valid() && Enabled(m.st, EventOf(x, m.NextFree()))
    requires IsRun(r) && r.states[|r.events|] == m.st
    modifies m, m.asl, m.asl.table, m.st.procs
    ensures m.Valid() && IsRun(r') && r'.states[|r'.events|] == m.st
    ensures r'.events == r.events + [EventOf(x, old(m.NextFree()))] && r'.states[..|r.states|] == r.states
  {
    hide Enabled, Step, IsBoot, Machine.Valid, EventOf;
    ghost var e := EventOf(x, m.NextFree());
    ExtendRun(r, e, t);
    r' := Extended(r, e, t);
    m.GenExceptionHandler(x, t);
  }
}
