/** The process queues of phase2/pcb.c: circular, doubly linked, addressed by their tail. */
module ProcessQueues {
  import opened Sequences

  const NULLADDR := 0xFFFF_FFFF

  /** pcb_t without the saved processor state; support says whether p_supportStruct is set. */
  class Pcb {
    var next: Pcb?
    var prev: Pcb?
    var parent: Pcb?
    var child: Pcb?
    var nextSib: Pcb?
    var prevSib: Pcb?
    var time: int
    var semAdd: int
    var support: bool

    constructor ()
      ensures child == null && parent == null && nextSib == null && semAdd == NULLADDR && time == 0 && !support
    {
      next, prev, parent, child, nextSib, prevSib := null, null, null, null, null, null;
      time, semAdd, support := 0, NULLADDR, false;
    }

    /** What createProcess sets in the pcb it has allocated. */
    method Prepare(sup: bool)
      modifies this`support, this`time, this`semAdd
      ensures support == sup && time == 0 && semAdd == NULLADDR
    {
      support := sup;
      time := 0;
      semAdd := NULLADDR;
    }

    /** The initialisation in allocPcb. */
    method Clear()
      modifies this
      ensures next == null && prev == null && child == null && parent == null && nextSib == null && prevSib == null
      ensures semAdd == NULLADDR && time == 0 && !support
    {
      next := null;
      prev := null;
      semAdd := NULLADDR;
      child := null;
      parent := null;
      nextSib := null;
      prevSib := null;
      time := 0;
      support := false;
    }
  }

  /** Neighbours in q, oldest first, point at each other. */
  ghost predicate Chain(q: seq<Pcb>)
    reads (set p | p in q)`next, (set p | p in q)`prev
  {
    && (forall i {:trigger q[i].prev} | 0 <= i < |q| - 1 :: q[i].prev == q[i + 1])
    && (forall i {:trigger q[i].next} | 0 < i < |q| :: q[i].next == q[i - 1])
  }

  ghost predicate IsQueue(tail: Pcb?, q: seq<Pcb>)
    reads (set p | p in q)`next, (set p | p in q)`prev
  {
    && NoDup(q)
    && Chain(q)
    && (q == [] ==> tail == null)
    && (q != [] ==> tail == q[|q| - 1] && tail.prev == q[0] && q[0].next == tail)
  }

  lemma Joined(a: seq<Pcb>, b: seq<Pcb>, tail: Pcb?)
    requires NoDup(a + b) && Chain(a) && Chain(b)
    requires a != [] && b != [] ==> a[|a| - 1].prev == b[0] && b[0].next == a[|a| - 1]
    requires a + b == [] ==> tail == null
    requires a + b != [] ==>
      var first, last := if a == [] then b[0] else a[0], if b == [] then a[|a| - 1] else b[|b| - 1];
      tail == last && last.prev == first && first.next == last
    ensures IsQueue(tail, a + b)
  {
  }

  function MkEmptyProcQ(): Pcb? {
    null
  }

  predicate EmptyProcQ(tail: Pcb?) {
    tail == null
  }

  method InsertProcQ(tail: Pcb?, p: Pcb, ghost q: seq<Pcb>) returns (tail': Pcb)
    requires IsQueue(tail, q) && p !in q
    modifies q`next, q`prev, p`next, p`prev
    ensures IsQueue(tail', q + [p])
  {
    if tail == null {
      p.next := p;
      p.prev := p;
    } else {
      p.next := tail;
      p.prev := tail.prev;
      tail.prev := p;
      p.prev.next := p;
    }
    tail' := p;
  }

  method RemoveProcQ(tail: Pcb?, ghost q: seq<Pcb>) returns (tail': Pcb?, p: Pcb?)
    requires IsQueue(tail, q)
    modifies q`next, q`prev
    ensures q == [] ==> p == null && tail' == null
    ensures q != [] ==> p == q[0] && IsQueue(tail', q[1..])
  {
    if tail == null {
      return tail, null;
    }
    if tail.prev == tail {
      assert |q| == 1;
      return null, tail;
    }
    var remove := tail.prev;
    assert remove.prev == q[1] && remove.next == q[|q| - 1];
    remove.prev.next := remove.next;
    remove.next.prev := remove.prev;
    return tail, remove;
  }

  method Unlink(tail: Pcb, p: Pcb, ghost q: seq<Pcb>, ghost k: nat) returns (tail': Pcb?)
    requires IsQueue(tail, q) && k < |q| && p == q[k]
    modifies q`next, q`prev
    ensures IsQueue(tail', q[..k] + q[k + 1..])
  {
    ghost var a, b := q[..k], q[k + 1..];
    Parts(tail, q, k);
    p.next.prev := p.prev;
    p.prev.next := p.next;
    tail' := tail;
    if p == tail && tail.next == tail {
      tail' := null;
    } else if p == tail {
      tail' := tail.next;
    }
    assert Chain(a);
    assert Chain(b);
    Joined(a, b, tail');
  }

  lemma Parts(tail: Pcb, q: seq<Pcb>, k: nat)
    requires IsQueue(tail, q) && k < |q|
    ensures q[k].next == q[if k == 0 then |q| - 1 else k - 1]
    ensures q[k].prev == q[if k == |q| - 1 then 0 else k + 1]
    ensures k > 0 ==> q[k - 1].prev == q[k]
    ensures k < |q| - 1 ==> q[k + 1].next == q[k]
    ensures Chain(q[..k]) && Chain(q[k + 1..])
    ensures NoDup(q[..k] + q[k + 1..])
  {
    assert forall i | 0 <= i < k :: q[..k][i] == q[i];
  }

  method OutProcQ(tail: Pcb?, p: Pcb?, ghost q: seq<Pcb>) returns (tail': Pcb?, r: Pcb?)
    requires IsQueue(tail, q)
    modifies q`next, q`prev
    ensures p == null || p !in q ==>
      && r == null && tail' == tail
      && (forall x | x in q :: x.next == old(x.next) && x.prev == old(x.prev))
    ensures p != null && p in q ==> r == p && IsQueue(tail', Minus<Pcb>(q, {p}))
  {
    if p == null || tail == null {
      return tail, null;
    }
    var temp := tail.next;
    ghost var k := if |q| > 1 then |q| - 2 else 0;
    while temp != p && temp != tail
      invariant 0 <= k < |q| && temp == q[k]
      invariant forall i | k < i < |q| - 1 :: q[i] != p
      invariant k == |q| - 1 ==> forall i | 0 <= i < |q| - 1 :: q[i] != p
      decreases if k == |q| - 1 then 0 else k + 1
    {
      temp := temp.next;
      k := if k == 0 then |q| - 1 else k - 1;
    }
    if temp == p {
      MinusOne(q, k);
      tail' := Unlink(tail, p, q, k);
      return tail', temp;
    }
    return tail, null;
  }

  /** The oldest process, left in the queue. */
  function HeadProcQ(tail: Pcb?, ghost q: seq<Pcb>): (p: Pcb?)
    requires IsQueue(tail, q)
    reads (set p | p in q)`next, (set p | p in q)`prev
    ensures p == if q == [] then null else q[0]
  {
    if EmptyProcQ(tail) then null else tail.prev
  }
}
