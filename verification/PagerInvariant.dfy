/** Every step of the pager keeps its invariant. */
module PagerInvariant {
  import opened Sequences
  import opened Semaphores
  import opened PagerSpec

  // ---------- arithmetic of the round-robin index ----------

  lemma SlotAfter(n: nat, size: nat)
    requires size > 0
    ensures NextVictim(n % size, size) == Slot(n, size)
    ensures 0 <= Slot(n, size) < size
  {
    var q, r := n / size, n % size;
    assert n == q * size + r;
    if r + 1 == size {
      assert n + 1 == (q + 1) * size;
      ModIs(n + 1, q + 1, 0, size);
      ModIs(size, 1, 0, size);
    } else {
      ModIs(n + 1, q, r + 1, size);
      ModIs(r + 1, 0, r + 1, size);
    }
  }

  lemma Multiple(d: int, m: int)
    requires m > 0
    ensures d >= 1 ==> d * m >= m
    ensures d <= -1 ==> d * m <= -m
  {
    if d >= 1 {
      assert (d - 1) * m >= 0;
    } else if d <= -1 {
      assert (-d - 1) * m >= 0;
    }
  }

  lemma ModIs(n: int, q: int, r: int, size: nat)
    requires size > 0 && n == q * size + r && 0 <= r < size
    ensures n % size == r
  {
    var q', r' := n / size, n % size;
    var d := q' - q;
    assert d * size == q' * size - q * size;
    Multiple(d, size);
  }

  lemma SlotsDiffer(j: nat, k: nat, size: nat)
    requires size > 0 && j < k < j + size
    ensures Slot(j, size) != Slot(k, size)
  {
    var q, q' := (j + 1) / size, (k + 1) / size;
    var d := q' - q;
    assert d * size == q' * size - q * size;
    Multiple(d, size);
  }

  lemma SlotRange(size: nat)
    requires size > 0
    ensures forall k: nat :: 0 <= Slot(k, size) < size
  {
  }

  // ---------- the mutex ----------

  lemma FaultMutex(s: State, p: int, g: int)
    requires MutexOk(s.sem, s.pc, s.alive) && Alive(s, p) && s.pc[p].User?
    ensures MutexOk(Down(s.sem, p), s.pc[p := if s.sem.value - 1 < 0 then Waiting(g) else Entered(g)], s.alive)
  {
    var l := if s.sem.value - 1 < 0 then Waiting(g) else Entered(g);
    assert Inside(s.pc[p := l]) == if Critical(l) then Inside(s.pc) + {p} else Inside(s.pc);
  }

  /** Moving from one label inside to another. */
  lemma InsideMutex(s: State, p: int, l: Label)
    requires MutexOk(s.sem, s.pc, s.alive) && p in s.pc && Critical(s.pc[p]) && Critical(l)
    ensures MutexOk(s.sem, s.pc[p := l], s.alive)
  {
    assert Inside(s.pc[p := l]) == Inside(s.pc);
  }

  lemma ReleaseMutex(s: State, p: int)
    requires MutexOk(s.sem, s.pc, s.alive) && Enabled(s, Release(p))
    ensures MutexOk(Up(s.sem), Step(s, Release(p)).pc, s.alive)
  {
    var pc' := s.pc[p := User];
    var q := s.sem.queue;
    OnlyInside(s, p);
    assert forall x | x in pc' :: !Critical(pc'[x]);
    assert Inside(pc') == {};
    if s.sem.value + 1 <= 0 && q != [] {
      assert q[0] in q;
      assert Inside(Woken(pc', q[0])) == {q[0]};
    } else {
      assert q == [] && s.sem.value == 0;
    }
  }

  lemma KillMutex(s: State, d: set<int>)
    requires MutexOk(s.sem, s.pc, s.alive)
    ensures MutexOk(Reap(s.sem, d, true), Reaped(s.pc, d), s.alive - d)
    ensures Inside(Reaped(s.pc, d)) == Inside(s.pc)
  {
    MinusElements(s.sem.queue, d);
    MinusNoDup(s.sem.queue, d);
    assert forall p | p in s.pc :: Critical(Reaped(s.pc, d)[p]) <==> Critical(s.pc[p]);
    assert Inside(Reaped(s.pc, d)) == Inside(s.pc);
  }

  // ---------- one event at a time ----------

  lemma FaultOk(s: State, p: int, g: int)
    requires Inv(s) && Enabled(s, Fault(p, g))
    ensures Inv(Step(s, Fault(p, g)))
  {
    hide MutexOk;
    FaultMutex(s, p, g);
    Outsider(s.pc, p, Step(s, Fault(p, g)).pc[p]);
  }

  /** A label that has not chosen a frame replaces another one. */
  lemma Outsider(pc: map<int, Label>, p: int, l: Label)
    requires p in pc && !Chosen(pc[p]) && !Chosen(l)
    ensures UnderWay(pc[p := l]) <==> UnderWay(pc)
    ensures forall f :: Replacing(pc[p := l], f) <==> Replacing(pc, f)
  {
    var pc' := pc[p := l];
    if UnderWay(pc) {
      var q :| q in pc && Chosen(pc[q]);
      assert q in pc' && Chosen(pc'[q]);
    }
    forall f
      ensures Replacing(pc', f) <==> Replacing(pc, f)
    {
      if Replacing(pc, f) {
        var q :| q in pc && (pc[q].Writing? || pc[q].Reading?) && pc[q].f == f;
        assert q in pc' && pc'[q].f == f;
      }
    }
  }

  /** Only the process inside can have chosen a frame. */
  lemma OnlyInside(s: State, p: int)
    requires MutexOk(s.sem, s.pc, s.alive) && p in s.pc && Critical(s.pc[p])
    ensures p in Inside(s.pc) && forall q | q in s.pc && q != p :: !Critical(s.pc[q])
    ensures UnderWay(s.pc) <==> Chosen(s.pc[p])
    ensures forall f :: Replacing(s.pc, f) <==> (s.pc[p].Writing? || s.pc[p].Reading?) && s.pc[p].f == f
  {
    assert p in Inside(s.pc);
    assert forall q | q in s.pc && Critical(s.pc[q]) :: q in Inside(s.pc);
  }

  lemma PickOk(s: State, p: int)
    requires Inv(s) && Enabled(s, Pick(p))
    ensures Inv(Step(s, Pick(p)))
  {
    hide MutexOk, LoadsOk, Slot, NextVictim;
    var s' := Step(s, Pick(p));
    OnlyInside(s, p);
    InsideMutex(s, p, s'.pc[p]);
    OnlyInside(s', p);
    SlotAfter(|s.loads|, s.size);
  }

  lemma EvictOk(s: State, p: int)
    requires Inv(s) && Enabled(s, Evict(p))
    ensures Inv(Step(s, Evict(p)))
  {
    hide MutexOk, LoadsOk, Slot;
    var s' := Step(s, Evict(p));
    OnlyInside(s, p);
    InsideMutex(s, p, s'.pc[p]);
    OnlyInside(s', p);
  }

  lemma WrittenOk(s: State, p: int)
    requires Inv(s) && Enabled(s, Written(p))
    ensures Inv(Step(s, Written(p)))
  {
    hide MutexOk, LoadsOk, Slot;
    var s' := Step(s, Written(p));
    OnlyInside(s, p);
    InsideMutex(s, p, s'.pc[p]);
    OnlyInside(s', p);
  }

  lemma InstallLoads(loads: seq<Page>, frames: seq<Frame>, size: nat, x: Page)
    requires size > 0 && |frames| == size && LoadsOk(loads, frames, size)
    ensures 0 <= Slot(|loads|, size) < size
    ensures LoadsOk(loads + [x], frames[Slot(|loads|, size) := Holding(x)], size)
  {
    hide Slot;
    var n, loads' := |loads|, loads + [x];
    SlotRange(size);
    var frames' := frames[Slot(n, size) := Holding(x)];
    forall k | 0 <= k < |loads'| && |loads'| - size <= k
      ensures frames'[Slot(k, size)] == Holding(loads'[k])
    {
      if k < n {
        SlotsDiffer(k, n, size);
        assert loads'[k] == loads[k];
      }
    }
    forall k | |loads'| <= k < size
      ensures frames'[Slot(k, size)].Empty?
    {
      SlotsDiffer(n, k, size);
    }
  }

  lemma InstallTables(s: State, p: int)
    requires Inv(s) && Enabled(s, Install(p))
    ensures var s' := Step(s, Install(p));
      && TablesOk(s'.frames, s'.valid) && LabelsOk(s'.pc, s'.victim, s'.frames, s'.valid)
      && StaleOk(s'.pc, s'.frames, s'.valid)
  {
    hide MutexOk, LoadsOk, Slot;
    OnlyInside(s, p);
  }

  lemma InstallOk(s: State, p: int)
    requires Inv(s) && Enabled(s, Install(p))
    ensures Inv(Step(s, Install(p)))
  {
    hide MutexOk, LoadsOk, TablesOk, StaleOk;
    var s' := Step(s, Install(p));
    InstallTables(s, p);
    OnlyInside(s, p);
    InsideMutex(s, p, s'.pc[p]);
    OnlyInside(s', p);
    assert LabelOk(s.pc[p], p, s.victim, s.frames, s.valid);
    InstallLoads(s.loads, s.frames, s.size, Page(p, s.pc[p].g));
  }

  lemma ReleaseOk(s: State, p: int)
    requires Inv(s) && Enabled(s, Release(p))
    ensures Inv(Step(s, Release(p)))
  {
    hide MutexOk, LoadsOk, Slot;
    OnlyInside(s, p);
    ReleaseMutex(s, p);
    assert !UnderWay(Step(s, Release(p)).pc);
  }

  lemma KillOk(s: State, d: set<int>)
    requires Inv(s) && Enabled(s, Kill(d))
    ensures Inv(Step(s, Kill(d)))
  {
    hide MutexOk, LoadsOk, Slot;
    KillMutex(s, d);
    KillLabels(s.pc, d);
  }

  lemma KillLabels(pc: map<int, Label>, d: set<int>)
    ensures UnderWay(Reaped(pc, d)) <==> UnderWay(pc)
    ensures forall f :: Replacing(Reaped(pc, d), f) <==> Replacing(pc, f)
  {
    var pc' := Reaped(pc, d);
    if UnderWay(pc) {
      var q :| q in pc && Chosen(pc[q]);
      assert q in pc' && Chosen(pc'[q]);
    }
    forall f
      ensures Replacing(pc', f) <==> Replacing(pc, f)
    {
      if Replacing(pc, f) {
        var q :| q in pc && (pc[q].Writing? || pc[q].Reading?) && pc[q].f == f;
        assert q in pc' && pc'[q].f == f;
      }
    }
  }

  lemma StepOk(s: State, e: Event)
    requires Inv(s) && Enabled(s, e)
    ensures Inv(Step(s, e))
  {
    hide Inv, Step;
    match e
    case Fault(p, g) => FaultOk(s, p, g);
    case Pick(p) => PickOk(s, p);
    case Evict(p) => EvictOk(s, p);
    case Written(p) => WrittenOk(s, p);
    case Install(p) => InstallOk(s, p);
    case Release(p) => ReleaseOk(s, p);
    case Kill(d) => KillOk(s, d);
  }
}
