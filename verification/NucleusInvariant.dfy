/** What every reachable state of the nucleus satisfies. */
module NucleusInvariant {
  import opened Sequences
  import opened ProcessQueues
  import opened ProcessTree
  import opened ActiveSemaphores
  import opened NucleusSpec

  ghost predicate QueueOf(semAdd: map<Pcb, int>, a: int, q: seq<Pcb>) {
    q != [] && NoDup(q) && forall p | p in q :: p in semAdd && semAdd[p] == a
  }

  /** semAdd names the one queue each blocked process stands in. */
  ghost predicate BlockedOk(queues: map<int, seq<Pcb>>, semAdd: map<Pcb, int>) {
    && (forall a | a in queues :: QueueOf(semAdd, a, queues[a]))
    && (forall p | p in semAdd :: p in QueueAt(queues, semAdd[p]))
  }

  ghost predicate ReadyOk(ready: seq<Pcb>, semAdd: map<Pcb, int>, running: Pcb?) {
    && NoDup(ready)
    && (forall p | p in ready :: p !in semAdd && p != running)
    && (running != null ==> running !in semAdd)
  }

  ghost predicate Live(ready: seq<Pcb>, semAdd: map<Pcb, int>, running: Pcb?, p: Pcb) {
    p in ready || p in semAdd || p == running
  }

  /** Every pcb is free or in the one tree, which hangs off the first process. */
  ghost predicate TreeShape(tree: Forest, root: Pcb, procs: set<Pcb>, free: set<Pcb>) {
    && Distinct(tree)
    && Nodes(tree) !! free && Nodes(tree) + free == procs
    && tree.Cons? && tree.pcb == root && tree.sibs == Nil
  }

  /** Every live process is in the tree; the pcbs there that are not live have no children. */
  ghost predicate TreeLive(tree: Forest, ready: seq<Pcb>, semAdd: map<Pcb, int>, running: Pcb?) {
    && (forall p | p in ready :: p in Nodes(tree))
    && (forall p | p in semAdd :: p in Nodes(tree))
    && (running != null ==> running in Nodes(tree))
    && (forall p | p in Nodes(tree) && !Live(ready, semAdd, running, p) :: KidsOf(tree, p) == Nil)
  }

  ghost predicate CountsOk(s: State) {
    && s.processCount == |s.ready| + |s.semAdd| + (if s.running == null then 0 else 1)
    && s.softBlockCount == |Soft(s.base, s.semAdd)|
  }

  /** The words of memory that hold semaphores: deviceSema4s and, outside it, any others. */
  ghost predicate MemoryShape(words: set<int>, base: int) {
    && (forall a | a in words :: LegalAddress(a))
    && (forall i | 0 <= i < SEMCOUNT :: DevAddr(base, i) in words)
    && (forall a | a in words && IsDev(base, a) :: DevWord(base, a))
  }

  ghost predicate DevWord(base: int, a: int) {
    exists i | 0 <= i < SEMCOUNT :: a == DevAddr(base, i)
  }

  ghost function Max0(x: int): int {
    if x < 0 then 0 else x
  }

  /** An ordinary semaphore knows exactly how many processes wait on it; a device semaphore may
      promise more than are left, and the clock is never positive. */
  ghost predicate ValuesOk(mem: map<int, int>, base: int, queues: map<int, seq<Pcb>>) {
    && (forall a | a in queues :: a in mem)
    && (forall a | a in mem :: ValueOk(base, a, mem[a], |QueueAt(queues, a)|))
  }

  ghost predicate ValueOk(base: int, a: int, value: int, waiting: int) {
    && (!IsDev(base, a) ==> waiting == Max0(-value))
    && (IsDev(base, a) ==> waiting <= Max0(-value))
    && (a == DevAddr(base, CLOCK) ==> value <= 0)
  }

  ghost predicate ModeOk(s: State) {
    match s.mode
    case Running => s.running != null
    case Waiting => s.running == null && s.ready == [] && s.softBlockCount > 0
    case Halted => s.running == null && s.ready == [] && s.processCount == 0
    case Panicked => s.running == null && s.ready == [] && s.processCount > 0 && s.softBlockCount == 0
    case Returned => false
  }

  /** All of it but the processor mode. */
  ghost predicate Core(s: State) {
    && BlockedOk(s.queues, s.semAdd)
    && ReadyOk(s.ready, s.semAdd, s.running)
    && TreeShape(s.tree, s.root, s.procs, s.free)
    && TreeLive(s.tree, s.ready, s.semAdd, s.running)
    && CountsOk(s)
    && MemoryShape(s.mem.Keys, s.base)
    && ValuesOk(s.mem, s.base, s.queues)
    && s.time.Keys == s.procs
  }

  ghost predicate Inv(s: State) {
    Core(s) && ModeOk(s)
  }

  // ---------- blocking ----------

  lemma BlockOk(queues: map<int, seq<Pcb>>, semAdd: map<Pcb, int>, a: int, p: Pcb)
    requires BlockedOk(queues, semAdd) && p !in semAdd
    ensures BlockedOk(WithQueue(queues, a, QueueAt(queues, a) + [p]), semAdd[p := a])
  {
    var q := QueueAt(queues, a);
    forall x | x in q
      ensures x in semAdd && semAdd[x] == a && x != p
    {
    }
    assert NoDup(q + [p]);
    assert QueueOf(semAdd[p := a], a, q + [p]);
    forall b | b in queues && b != a
      ensures QueueOf(semAdd[p := a], b, queues[b])
    {
      assert QueueOf(semAdd, b, queues[b]);
    }
  }

  lemma WakeOk(queues: map<int, seq<Pcb>>, semAdd: map<Pcb, int>, a: int)
    requires BlockedOk(queues, semAdd) && QueueAt(queues, a) != []
    ensures BlockedOk(WithQueue(queues, a, QueueAt(queues, a)[1..]), semAdd - {QueueAt(queues, a)[0]})
  {
    var q := QueueAt(queues, a);
    var p := q[0];
    assert QueueOf(semAdd, a, q);
    assert p in q;
    forall x | x in q[1..]
      ensures x in semAdd && semAdd[x] == a && x != p
    {
      assert x in q;
    }
    assert q[1..] != [] ==> QueueOf(semAdd - {p}, a, q[1..]);
    forall b | b in queues && b != a
      ensures QueueOf(semAdd - {p}, b, queues[b])
    {
      assert QueueOf(semAdd, b, queues[b]);
    }
  }

  lemma WakeAllOk(queues: map<int, seq<Pcb>>, semAdd: map<Pcb, int>, a: int)
    requires BlockedOk(queues, semAdd)
    ensures BlockedOk(queues - {a}, semAdd - (set p | p in QueueAt(queues, a)))
  {
    var woken := set p | p in QueueAt(queues, a);
    forall b | b in queues && b != a
      ensures QueueOf(semAdd - woken, b, queues[b])
    {
      assert QueueOf(semAdd, b, queues[b]);
      assert a in queues ==> QueueOf(semAdd, a, queues[a]);
    }
  }

  lemma KillQueueAt(queues: map<int, seq<Pcb>>, d: set<Pcb>, a: int)
    ensures QueueAt(KillQueues(queues, d), a) == Minus(QueueAt(queues, a), d)
  {
  }

  lemma KillBlocked(queues: map<int, seq<Pcb>>, semAdd: map<Pcb, int>, d: set<Pcb>)
    requires BlockedOk(queues, semAdd)
    ensures BlockedOk(KillQueues(queues, d), semAdd - d)
  {
    forall a | a in queues && Minus(queues[a], d) != []
      ensures QueueOf(semAdd - d, a, Minus(queues[a], d))
    {
      assert QueueOf(semAdd, a, queues[a]);
      MinusNoDup(queues[a], d);
      MinusElements(queues[a], d);
    }
    forall p | p in semAdd && p !in d
      ensures p in QueueAt(KillQueues(queues, d), semAdd[p])
    {
      var a := semAdd[p];
      KillQueueAt(queues, d, a);
      MinusElements(QueueAt(queues, a), d);
    }
  }

  // ---------- counting ----------

  lemma SoftAdd(base: int, semAdd: map<Pcb, int>, p: Pcb, a: int)
    requires p !in semAdd
    ensures |Soft(base, semAdd[p := a])| == |Soft(base, semAdd)| + if IsDev(base, a) then 1 else 0
  {
    assert Soft(base, semAdd[p := a]) == Soft(base, semAdd) + if IsDev(base, a) then {p} else {};
  }

  lemma SoftRemove(base: int, semAdd: map<Pcb, int>, p: Pcb, a: int)
    requires p in semAdd && semAdd[p] == a
    ensures |Soft(base, semAdd - {p})| == |Soft(base, semAdd)| - if IsDev(base, a) then 1 else 0
    ensures |semAdd - {p}| == |semAdd| - 1
  {
    assert Soft(base, semAdd - {p}) == Soft(base, semAdd) - if IsDev(base, a) then {p} else {};
    assert (semAdd - {p}).Keys == semAdd.Keys - {p};
  }

  lemma SoftRemoveAll(base: int, semAdd: map<Pcb, int>, a: int, q: seq<Pcb>)
    requires IsDev(base, a) && NoDup(q) && forall p | p in q :: p in semAdd && semAdd[p] == a
    ensures |Soft(base, semAdd - set p | p in q)| == |Soft(base, semAdd)| - |q|
    ensures |semAdd - set p | p in q| == |semAdd| - |q|
  {
    var d := set p | p in q;
    SeqAsSet(q);
    assert Soft(base, semAdd - d) == Soft(base, semAdd) - d;
    assert d <= Soft(base, semAdd);
    assert (semAdd - d).Keys == semAdd.Keys - d;
  }

  // ---------- one handler at a time ----------

  /** What a handler leaves for the scheduler, whose dispatch forgets the old currentProc. */
  ghost predicate MidOk(s: State, resched: bool) {
    && (resched ==> Core(s.(running := null)) && (s.running != null ==> s.ready != []))
    && (!resched ==> Core(s) && s.mode == Running && s.running != null)
  }

  lemma DispatchLive(tree: Forest, ready: seq<Pcb>, semAdd: map<Pcb, int>)
    requires TreeLive(tree, ready, semAdd, null) && ready != [] && ReadyOk(ready, semAdd, null)
    ensures TreeLive(tree, ready[1..], semAdd, ready[0]) && ReadyOk(ready[1..], semAdd, ready[0])
  {
    var p := ready[0];
    assert p in ready;
    assert forall x | x in ready :: x == p || x in ready[1..];
  }

  lemma ScheduleOk(s: State, tod: int)
    requires MidOk(s, true)
    ensures Inv(Schedule(s, tod))
  {
    if s.ready != [] {
      DispatchLive(s.tree, s.ready, s.semAdd);
    }
  }

  lemma RunningApart(ready: seq<Pcb>, semAdd: map<Pcb, int>, p: Pcb)
    requires ReadyOk(ready, semAdd, p)
    ensures p !in semAdd && p !in ready
  {
  }

  lemma BlockLive(tree: Forest, ready: seq<Pcb>, semAdd: map<Pcb, int>, p: Pcb, a: int)
    requires TreeLive(tree, ready, semAdd, p) && ReadyOk(ready, semAdd, p)
    ensures TreeLive(tree, ready, semAdd[p := a], null) && ReadyOk(ready, semAdd[p := a], null)
  {
  }

  lemma BlockValues(mem: map<int, int>, base: int, queues: map<int, seq<Pcb>>, a: int, p: Pcb)
    requires ValuesOk(mem, base, queues) && a in mem && mem[a] <= 0
    ensures ValuesOk(mem[a := mem[a] - 1], base, WithQueue(queues, a, QueueAt(queues, a) + [p]))
    ensures mem[a := mem[a] - 1].Keys == mem.Keys
  {
    var queues' := WithQueue(queues, a, QueueAt(queues, a) + [p]);
    forall b | b in mem
      ensures ValueOk(base, b, mem[a := mem[a] - 1][b], |QueueAt(queues', b)|)
    {
      assert ValueOk(base, b, mem[b], |QueueAt(queues, b)|);
    }
  }

  lemma BlockCore(s: State, s': State, a: int)
    requires Core(s) && s.running != null && a in s.mem && s.mem[a] <= 0
    requires s' == Block(Store(s, a, -1), a, s.running)
      .(softBlockCount := s'.softBlockCount, time := s'.time, startTod := s'.startTod)
    requires s'.softBlockCount == s.softBlockCount + if IsDev(s.base, a) then 1 else 0
    requires s'.time.Keys == s.time.Keys
    ensures MidOk(s', true)
  {
    hide BlockedOk, ReadyOk, TreeShape, TreeLive, MemoryShape, ValuesOk;
    var p := s.running;
    RunningApart(s.ready, s.semAdd, p);
    BlockOk(s.queues, s.semAdd, a, p);
    SoftAdd(s.base, s.semAdd, p, a);
    BlockLive(s.tree, s.ready, s.semAdd, p, a);
    BlockValues(s.mem, s.base, s.queues, a, p);
  }

  /** A semaphore operation that blocks and wakes no one. */
  lemma StoreValues(mem: map<int, int>, base: int, queues: map<int, seq<Pcb>>, a: int, v: int)
    requires ValuesOk(mem, base, queues) && a in mem
    requires ValueOk(base, a, v, |QueueAt(queues, a)|)
    ensures ValuesOk(mem[a := v], base, queues) && mem[a := v].Keys == mem.Keys
  {
  }

  lemma StoreCore(s: State, a: int, v: int)
    requires Core(s) && a in s.mem && ValueOk(s.base, a, v, |Queue(s, a)|)
    ensures Core(s.(mem := s.mem[a := v]))
  {
    hide BlockedOk, ReadyOk, TreeShape, TreeLive, MemoryShape, ValuesOk;
    StoreValues(s.mem, s.base, s.queues, a, v);
  }

  lemma ValueAt(mem: map<int, int>, base: int, queues: map<int, seq<Pcb>>, a: int)
    requires ValuesOk(mem, base, queues) && a in mem
    ensures ValueOk(base, a, mem[a], |QueueAt(queues, a)|)
  {
  }

  // ---------- waking ----------

  lemma WakeLive(tree: Forest, ready: seq<Pcb>, semAdd: map<Pcb, int>, running: Pcb?, p: Pcb)
    requires TreeLive(tree, ready, semAdd, running) && ReadyOk(ready, semAdd, running) && p in semAdd
    ensures TreeLive(tree, ready + [p], semAdd - {p}, running) && ReadyOk(ready + [p], semAdd - {p}, running)
  {
    assert forall x | Live(ready, semAdd, running, x) :: Live(ready + [p], semAdd - {p}, running, x);
  }

  lemma WakeValues(mem: map<int, int>, base: int, queues: map<int, seq<Pcb>>, a: int)
    requires ValuesOk(mem, base, queues) && a in mem && QueueAt(queues, a) != []
    ensures ValuesOk(mem[a := mem[a] + 1], base, WithQueue(queues, a, QueueAt(queues, a)[1..]))
    ensures mem[a := mem[a] + 1].Keys == mem.Keys && mem[a] < 0
  {
    var queues' := WithQueue(queues, a, QueueAt(queues, a)[1..]);
    forall b | b in mem
      ensures ValueOk(base, b, mem[a := mem[a] + 1][b], |QueueAt(queues', b)|)
    {
      assert ValueOk(base, b, mem[b], |QueueAt(queues, b)|);
    }
  }

  lemma HeadBlocked(queues: map<int, seq<Pcb>>, semAdd: map<Pcb, int>, a: int)
    requires BlockedOk(queues, semAdd) && QueueAt(queues, a) != []
    ensures QueueAt(queues, a)[0] in semAdd && semAdd[QueueAt(queues, a)[0]] == a
  {
    var p := QueueAt(queues, a)[0];
    assert QueueOf(semAdd, a, queues[a]);
    assert p in queues[a];
  }

  lemma WakeCore(s: State, a: int)
    requires Core(s) && a in s.mem && Queue(s, a) != []
    ensures s.mem[a] < 0
    ensures var s' := Wake(Store(s, a, 1), a);
      Core(s'.(softBlockCount := s.softBlockCount - if IsDev(s.base, a) then 1 else 0))
  {
    hide BlockedOk, ReadyOk, TreeShape, TreeLive, MemoryShape, ValuesOk;
    var p := Queue(s, a)[0];
    HeadBlocked(s.queues, s.semAdd, a);
    WakeOk(s.queues, s.semAdd, a);
    WakeLive(s.tree, s.ready, s.semAdd, s.running, p);
    SoftRemove(s.base, s.semAdd, p, a);
    WakeValues(s.mem, s.base, s.queues, a);
  }

  lemma RaiseValue(base: int, a: int, value: int, waiting: nat)
    requires ValueOk(base, a, value, waiting) && a != DevAddr(base, CLOCK)
    requires value >= 0 || waiting == 0
    ensures ValueOk(base, a, value + 1, waiting)
  {
  }

  /** V finds a waiter whenever an ordinary semaphore is below zero: no wakeup is lost. */
  lemma SignalCore(s: State, a: int)
    requires Core(s) && a in s.mem && a != DevAddr(s.base, CLOCK)
    ensures var woken := s.mem[a] < 0 && Queue(s, a) != [];
      Core(Signal(s, a).(softBlockCount := s.softBlockCount - if woken && IsDev(s.base, a) then 1 else 0))
    ensures !IsDev(s.base, a) && s.mem[a] < 0 ==> Queue(s, a) != []
  {
    hide BlockedOk, ReadyOk, TreeShape, TreeLive, MemoryShape, ValuesOk;
    ValueAt(s.mem, s.base, s.queues, a);
    if s.mem[a] < 0 && Queue(s, a) != [] {
      WakeCore(s, a);
      assert Signal(s, a) == Wake(Store(s, a, 1), a);
    } else {
      assert Signal(s, a) == s.(mem := s.mem[a := s.mem[a] + 1]);
      RaiseValue(s.base, a, s.mem[a], |Queue(s, a)|);
      StoreCore(s, a, s.mem[a] + 1);
    }
  }

  // ---------- the clock and the time slice ----------

  lemma WakeAllLive(tree: Forest, ready: seq<Pcb>, semAdd: map<Pcb, int>, running: Pcb?, q: seq<Pcb>)
    requires TreeLive(tree, ready, semAdd, running) && ReadyOk(ready, semAdd, running)
    requires NoDup(q) && forall p | p in q :: p in semAdd
    ensures TreeLive(tree, ready + q, semAdd - (set p | p in q), running)
    ensures ReadyOk(ready + q, semAdd - (set p | p in q), running)
  {
    var semAdd' := semAdd - (set p | p in q);
    assert forall i | 0 <= i < |ready| :: ready[i] in ready;
    assert forall i | 0 <= i < |q| :: q[i] in q;
    assert forall x | Live(ready, semAdd, running, x) :: Live(ready + q, semAdd', running, x);
  }

  lemma YieldLive(tree: Forest, ready: seq<Pcb>, semAdd: map<Pcb, int>, p: Pcb)
    requires TreeLive(tree, ready, semAdd, p) && ReadyOk(ready, semAdd, p)
    ensures TreeLive(tree, ready + [p], semAdd, null) && ReadyOk(ready + [p], semAdd, null)
  {
    assert forall x | Live(ready, semAdd, p, x) :: Live(ready + [p], semAdd, null, x);
  }

  /** Putting currentProc at the back of the ready queue. */
  lemma YieldCore(s: State)
    requires Core(s) && s.running != null
    ensures Core(s.(ready := s.ready + [s.running], running := null))
  {
    hide BlockedOk, ReadyOk, TreeShape, TreeLive, MemoryShape, ValuesOk;
    YieldLive(s.tree, s.ready, s.semAdd, s.running);
  }

  lemma ResetValues(mem: map<int, int>, base: int, queues: map<int, seq<Pcb>>)
    requires ValuesOk(mem, base, queues) && DevAddr(base, CLOCK) in mem
    ensures ValuesOk(mem[DevAddr(base, CLOCK) := 0], base, queues - {DevAddr(base, CLOCK)})
    ensures mem[DevAddr(base, CLOCK) := 0].Keys == mem.Keys
  {
    var a := DevAddr(base, CLOCK);
    forall b | b in mem
      ensures ValueOk(base, b, mem[a := 0][b], |QueueAt(queues - {a}, b)|)
    {
      assert ValueOk(base, b, mem[b], |QueueAt(queues, b)|);
    }
  }

  lemma QueueFacts(queues: map<int, seq<Pcb>>, semAdd: map<Pcb, int>, a: int)
    requires BlockedOk(queues, semAdd)
    ensures NoDup(QueueAt(queues, a)) && forall p | p in QueueAt(queues, a) :: p in semAdd && semAdd[p] == a
  {
    assert a in queues ==> QueueOf(semAdd, a, queues[a]);
  }

  ghost function Ticked(s: State): State {
    var a := DevAddr(s.base, CLOCK);
    WakeAll(s, a).(softBlockCount := s.softBlockCount - |Queue(s, a)|, mem := s.mem[a := 0])
  }

  lemma TickCore(s: State)
    requires Core(s) && DevAddr(s.base, CLOCK) in s.mem
    ensures Core(Ticked(s))
  {
    hide BlockedOk, ReadyOk, TreeShape, TreeLive, MemoryShape, ValuesOk;
    var a := DevAddr(s.base, CLOCK);
    var q := Queue(s, a);
    QueueFacts(s.queues, s.semAdd, a);
    WakeAllOk(s.queues, s.semAdd, a);
    WakeAllLive(s.tree, s.ready, s.semAdd, s.running, q);
    SoftRemoveAll(s.base, s.semAdd, a, q);
    ResetValues(s.mem, s.base, s.queues);
  }

  // ---------- creating and terminating ----------

  lemma CreateTree(tree: Forest, root: Pcb, procs: set<Pcb>, free: set<Pcb>, ready: seq<Pcb>,
                   semAdd: map<Pcb, int>, r: Pcb, c: Pcb)
    requires TreeShape(tree, root, procs, free) && TreeLive(tree, ready, semAdd, r) && ReadyOk(ready, semAdd, r)
    requires c in free
    ensures var tree' := SetKids(tree, r, Cons(c, Nil, KidsOf(tree, r)));
      && TreeShape(tree', root, procs, free - {c})
      && TreeLive(tree', ready + [c], semAdd, r)
      && ReadyOk(ready + [c], semAdd, r)
  {
    var k' := Cons(c, Nil, KidsOf(tree, r));
    var tree' := SetKids(tree, r, k');
    SetKidsNodes(tree, r, k');
    forall p | p in Nodes(tree') && !Live(ready + [c], semAdd, r, p)
      ensures KidsOf(tree', p) == Nil
    {
      assert c in ready + [c];
      assert !Live(ready, semAdd, r, p);
      LeafBelow(tree, r, p);
      LeafKept(tree, r, k', p);
    }
  }

  /** A leaf of the tree is a leaf of every child list it occurs in. */
  lemma {:induction false} LeafBelow(f: Forest, r: Pcb, p: Pcb)
    requires Distinct(f) && KidsOf(f, p) == Nil
    ensures KidsOf(KidsOf(f, r), p) == Nil
  {
    match f
    case Nil =>
    case Cons(x, k, s) =>
      if x != r {
        if p != x {
          LeafBelow(s, r, p);
        }
        LeafBelow(k, r, p);
      }
  }

  lemma KillLive(tree: Forest, root: Pcb, procs: set<Pcb>, free: set<Pcb>, ready: seq<Pcb>,
                 semAdd: map<Pcb, int>, r: Pcb)
    requires TreeShape(tree, root, procs, free) && TreeLive(tree, ready, semAdd, r) && ReadyOk(ready, semAdd, r)
    ensures var d := Nodes(KidsOf(tree, r));
      && TreeShape(SetKids(tree, r, Nil), root, procs, free + d)
      && TreeLive(SetKids(tree, r, Nil), Minus(ready, d), semAdd - d, null)
      && ReadyOk(Minus(ready, d), semAdd - d, null)
  {
    var d := Nodes(KidsOf(tree, r));
    var tree' := SetKids(tree, r, Nil);
    SetKidsNodes(tree, r, Nil);
    MinusElements(ready, d);
    MinusNoDup(ready, d);
    forall p | p in Nodes(tree') && !Live(Minus(ready, d), semAdd - d, null, p)
      ensures KidsOf(tree', p) == Nil
    {
      if p != r {
        assert !Live(ready, semAdd, r, p);
        LeafKept(tree, r, Nil, p);
      }
    }
  }

  lemma KillValues(s: State, d: set<Pcb>)
    requires ValuesOk(s.mem, s.base, s.queues)
    ensures ValuesOk(Kill(s, d).mem, s.base, Kill(s, d).queues) && Kill(s, d).mem.Keys == s.mem.Keys
  {
    var s' := Kill(s, d);
    forall a | a in s.mem
      ensures ValueOk(s.base, a, s'.mem[a], |Queue(s', a)|)
    {
      assert ValueOk(s.base, a, s.mem[a], |Queue(s, a)|);
      KillQueueAt(s.queues, d, a);
      MinusElements(Queue(s, a), d);
    }
  }

  lemma TerminateCore(s: State)
    requires Core(s) && s.running != null
    ensures Core(TerminateRunning(s))
  {
    hide BlockedOk, ReadyOk, TreeShape, TreeLive, MemoryShape, ValuesOk;
    var d := Below(s, s.running);
    KillBlocked(s.queues, s.semAdd, d);
    KillLive(s.tree, s.root, s.procs, s.free, s.ready, s.semAdd, s.running);
    KillValues(s, d);
  }

  lemma CreateCore(s: State, c: Pcb, sup: bool)
    requires Core(s) && s.running != null && c in s.free
    ensures Core(CreateChild(s, c, sup))
  {
    CreateTree(s.tree, s.root, s.procs, s.free, s.ready, s.semAdd, s.running, c);
    assert c in s.procs;
  }

  // ---------- every step ----------

  lemma ClockIsLast(base: int, line: int, dev: int, read: bool)
    requires DeviceRequest(line, dev, read)
    ensures 0 <= DevIndex(line, dev, read) < CLOCK
    ensures IsDev(base, DevAddr(base, DevIndex(line, dev, read)))
    ensures DevAddr(base, DevIndex(line, dev, read)) != DevAddr(base, CLOCK)
  {
  }

  lemma LowerValue(base: int, a: int, value: int, waiting: nat)
    requires ValueOk(base, a, value, waiting) && value > 0
    ensures waiting == 0 && ValueOk(base, a, value - 1, waiting)
  {
  }

  /** P: blocks on a semaphore at or below zero, and only then. */
  lemma PasserenOk(s: State, a: int)
    requires Core(s) && s.running != null && s.mode == Running && a in s.mem && !IsDev(s.base, a)
    ensures var s' := Store(s, a, -1);
      if s'.mem[a] < 0 then MidOk(Block(s', a, s.running), true) else MidOk(s', false)
  {
    hide Core;
    if s.mem[a] <= 0 {
      BlockCore(s, Block(Store(s, a, -1), a, s.running), a);
    } else {
      DownCore(s, a);
    }
  }

  lemma DownCore(s: State, a: int)
    requires Core(s) && a in s.mem && s.mem[a] > 0
    ensures Core(Store(s, a, -1))
  {
    ValueAt(s.mem, s.base, s.queues, a);
    LowerValue(s.base, a, s.mem[a], |Queue(s, a)|);
    StoreCore(s, a, s.mem[a] - 1);
  }

  lemma WaitDeviceOk(s: State, e: Event, t: Tod)
    requires Core(s) && e.WaitDevice? && Enabled(s, e)
    ensures MidOk(Handle(s, e, t).0, Handle(s, e, t).1)
  {
    hide Core;
    var a := DevAddr(s.base, DevIndex(e.line, e.dev, e.read));
    ClockIsLast(s.base, e.line, e.dev, e.read);
    if s.mem[a] <= 0 {
      BlockCore(s, Handle(s, e, t).0, a);
    } else {
      DownCore(s, a);
    }
  }

  /** The clock is never positive, so its P always blocks. */
  lemma WaitClockOk(s: State, e: Event, t: Tod)
    requires Core(s) && e.WaitClock? && Enabled(s, e)
    ensures MidOk(Handle(s, e, t).0, true) && Handle(s, e, t).1
    ensures Handle(s, e, t).0.running == null
  {
    var a := DevAddr(s.base, CLOCK);
    ValueAt(s.mem, s.base, s.queues, a);
    WaitClockBlocks(s, e, t);
  }

  lemma WaitClockBlocks(s: State, e: Event, t: Tod)
    requires Core(s) && e.WaitClock? && Enabled(s, e) && s.mem[DevAddr(s.base, CLOCK)] <= 0
    ensures MidOk(Handle(s, e, t).0, true) && Handle(s, e, t).1
    ensures Handle(s, e, t).0.running == null
  {
    hide Core;
    BlockCore(s, Handle(s, e, t).0, DevAddr(s.base, CLOCK));
  }

  lemma DeviceInterruptOk(s: State, e: Event, t: Tod)
    requires Core(s) && e.DeviceInterrupt? && Enabled(s, e) && (s.running != null <==> s.mode == Running)
    ensures MidOk(Handle(s, e, t).0, Handle(s, e, t).1)
  {
    hide Core;
    var a := DevAddr(s.base, DevIndex(e.line, e.dev, e.read));
    ClockIsLast(s.base, e.line, e.dev, e.read);
    SignalCore(s, a);
    var s' := Handle(s, e, t).0;
    assert s'.(running := null) == s' || s'.running != null;
  }

  lemma TimedCore(s: State, time: map<Pcb, int>, tod: int)
    requires Core(s) && time.Keys == s.time.Keys
    ensures Core(s.(time := time, startTod := tod))
  {
    hide BlockedOk, ReadyOk, TreeShape, TreeLive, MemoryShape, ValuesOk;
  }

  lemma TickOk(s: State, t: Tod)
    requires Core(s) && WellFormed(s) && s.mode in {Running, Waiting}
    ensures MidOk(Handle(s, ClockTick, t).0, true)
  {
    TickCore(s);
    var s1 := Ticked(s);
    if s.running != null {
      YieldCore(s1);
      assert Handle(s, ClockTick, t).0.(running := null) == s1.(ready := s1.ready + [s.running], running := null);
    } else {
      assert Handle(s, ClockTick, t).0.(running := null) == s1;
    }
  }

  lemma SliceOk(s: State, t: Tod)
    requires Core(s) && WellFormed(s) && s.mode in {Running, Waiting}
    ensures MidOk(Handle(s, TimeSlice, t).0, true)
  {
    hide Core;
    var s' := Handle(s, TimeSlice, t).0;
    assert s'.(running := null) == s';
    TimedCore(s, s'.time, t.restart);
    if s.running != null {
      YieldCore(s.(time := s'.time, startTod := t.restart));
    }
  }

  lemma HandleOk(s: State, e: Event, t: Tod)
    requires Inv(s) && Enabled(s, e)
    ensures MidOk(Handle(s, e, t).0, Handle(s, e, t).1)
  {
    hide Core;
    match e
    case Create(c, sup) =>
      if c != null {
        CreateCore(s, c, sup);
      }
    case Terminate => TerminateCore(s);
    case Trap =>
      if s.running !in s.support {
        TerminateCore(s);
      }
    case Passeren(a) => PasserenOk(s, a);
    case Verhogen(a) => SignalCore(s, a);
    case WaitDevice(_, _, _) => WaitDeviceOk(s, e, t);
    case WaitClock => WaitClockOk(s, e, t);
    case Resume =>
    case DeviceInterrupt(_, _, _) => DeviceInterruptOk(s, e, t);
    case ClockTick => TickOk(s, t);
    case TimeSlice => SliceOk(s, t);
  }

  lemma StepOk(s: State, e: Event, t: Tod)
    requires Inv(s) && Enabled(s, e)
    ensures Inv(Step(s, e, t))
  {
    hide Core;
    HandleOk(s, e, t);
    if Handle(s, e, t).1 {
      ScheduleOk(Handle(s, e, t).0, t.dispatch);
    }
  }
}
