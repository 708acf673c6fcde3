/** Killing one process after another amounts to killing them all at once. */
module NucleusKill {
  import opened Sequences
  import opened ProcessQueues
  import opened ActiveSemaphores
  import opened NucleusSpec
  import opened NucleusInvariant

  lemma KillQueuesTwice(queues: map<int, seq<Pcb>>, d: set<Pcb>, e: set<Pcb>)
    ensures KillQueues(KillQueues(queues, d), e) == KillQueues(queues, d + e)
  {
    forall a | a in queues
      ensures Minus(Minus(queues[a], d), e) == Minus(queues[a], d + e)
    {
      MinusMinus(queues[a], d, e);
    }
  }

  lemma KillMemTwice(base: int, mem: map<int, int>, queues: map<int, seq<Pcb>>, d: set<Pcb>, e: set<Pcb>)
    ensures KillMem(base, KillMem(base, mem, queues, d), KillQueues(queues, d), e) == KillMem(base, mem, queues, d + e)
  {
    hide Minus, KillQueues, IsDev, QueueAt;
    forall a
      ensures QueueAt(KillQueues(queues, d), a) == Minus(QueueAt(queues, a), d)
      ensures Minus(QueueAt(KillQueues(queues, d), a), e) == Minus(QueueAt(queues, a), d + e)
    {
      KillQueueAt(queues, d, a);
      MinusMinus(QueueAt(queues, a), d, e);
    }
  }

  /** Kills compose: the order in which a subtree is taken down does not matter. */
  lemma KillTwice(s: State, d: set<Pcb>, e: set<Pcb>)
    ensures Kill(Kill(s, d), e) == Kill(s, d + e)
  {
    hide Minus, KillQueues, KillMem, Soft;
    KillMemTwice(s.base, s.mem, s.queues, d, e);
    KillQueuesTwice(s.queues, d, e);
    MinusMinus(s.ready, d, e);
    LeaveTwice(s.semAdd, d, e);
    assert s.free + d + e == s.free + (d + e);
  }

  lemma LeaveTwice<K, V>(m: map<K, V>, d: set<K>, e: set<K>)
    ensures m - d - e == m - (d + e)
  {
  }

  lemma WaitsThere(queues: map<int, seq<Pcb>>, semAdd: map<Pcb, int>, a: int)
    requires BlockedOk(queues, semAdd) && a in queues
    ensures queues[a] != [] && NoDup(queues[a]) && forall p | p in queues[a] :: p in semAdd && semAdd[p] == a
  {
    assert QueueOf(semAdd, a, queues[a]);
  }

  /** A queue without members of d is left alone. */
  lemma Untouched(queues: map<int, seq<Pcb>>, semAdd: map<Pcb, int>, d: set<Pcb>, a: int)
    requires BlockedOk(queues, semAdd) && forall p | p in d && p in semAdd :: semAdd[p] != a
    ensures Minus(QueueAt(queues, a), d) == QueueAt(queues, a)
    ensures a in queues ==> queues[a] != []
  {
    hide BlockedOk, Minus;
    if a in queues {
      WaitsThere(queues, semAdd, a);
    }
    MinusNone(QueueAt(queues, a), d);
  }

  /** Nobody in d waits on a semaphore. */
  lemma KillElsewhere(s: State, d: set<Pcb>)
    requires BlockedOk(s.queues, s.semAdd) && forall p | p in d :: p !in s.semAdd
    ensures KillQueues(s.queues, d) == s.queues && KillMem(s.base, s.mem, s.queues, d) == s.mem
    ensures s.semAdd - d == s.semAdd
  {
    hide BlockedOk, Minus, KillQueues, KillMem;
    forall a
      ensures Minus(QueueAt(s.queues, a), d) == QueueAt(s.queues, a)
      ensures a in s.queues ==> s.queues[a] != []
    {
      Untouched(s.queues, s.semAdd, d, a);
    }
    SameQueues(s.queues, d);
    SameMem(s.base, s.mem, s.queues, d);
    hide *;
    assert s.semAdd - d == s.semAdd;
  }

  lemma SameQueues(queues: map<int, seq<Pcb>>, d: set<Pcb>)
    requires forall a | a in queues :: queues[a] != []
    requires forall a :: Minus(QueueAt(queues, a), d) == QueueAt(queues, a)
    ensures KillQueues(queues, d) == queues
  {
    hide Minus;
    forall a | a in queues
      ensures Minus(queues[a], d) == queues[a] && queues[a] != []
    {
      assert queues[a] == QueueAt(queues, a);
    }
  }

  lemma SameMem(base: int, mem: map<int, int>, queues: map<int, seq<Pcb>>, d: set<Pcb>)
    requires forall a :: Minus(QueueAt(queues, a), d) == QueueAt(queues, a)
    ensures KillMem(base, mem, queues, d) == mem
  {
    hide Minus, IsDev, QueueAt;
    assert forall a | a in mem :: |Minus(QueueAt(queues, a), d)| == |QueueAt(queues, a)|;
  }

  lemma KillFrame(s: State, d: set<Pcb>)
    ensures var s' := Kill(s, d);
      && s'.procs == s.procs && s'.running == s.running && s'.free == s.free + d
      && s'.ready == Minus(s.ready, d) && s'.semAdd == s.semAdd - d
      && s'.root == s.root && s'.tree == s.tree
  {
  }

  lemma KillNobody(s: State)
    requires BlockedOk(s.queues, s.semAdd)
    ensures Kill(s, {}) == s
  {
    hide BlockedOk, Minus, KillQueues, KillMem, Soft;
    MinusNone(s.ready, {});
    KillElsewhere(s, {});
  }

  /** Killing processes that wait on no semaphore takes them off the ready queue, if they are there. */
  lemma KillUnblocked(s: State, d: set<Pcb>)
    requires BlockedOk(s.queues, s.semAdd) && forall p | p in d :: p !in s.semAdd
    ensures Kill(s, d) == s.(
      free := s.free + d,
      ready := Minus(s.ready, d),
      processCount := s.processCount - (|s.ready| - |Minus(s.ready, d)|))
  {
    hide BlockedOk, Minus, KillQueues, KillMem, Soft;
    KillElsewhere(s, d);
  }

  /** Killing a process that waits on a takes it out of that queue, and gives an ordinary semaphore
      its unit back. */
  lemma KillWaiter(s: State, c: Pcb, a: int)
    requires BlockedOk(s.queues, s.semAdd) && c in s.semAdd && s.semAdd[c] == a && c !in s.ready && a in s.mem
    ensures a in s.queues && c in s.queues[a]
    ensures Kill(s, {c}) == s.(
      free := s.free + {c},
      semAdd := s.semAdd - {c},
      queues := WithQueue(s.queues, a, Minus(s.queues[a], {c})),
      mem := if IsDev(s.base, a) then s.mem else s.mem[a := s.mem[a] + 1],
      processCount := s.processCount - 1,
      softBlockCount := s.softBlockCount - if IsDev(s.base, a) then 1 else 0)
  {
    hide BlockedOk, Minus, KillQueues, KillMem, IsDev, Soft;
    MinusNone(s.ready, {c});
    SoftRemove(s.base, s.semAdd, c, a);
    KillOneQueue(s.queues, s.semAdd, c, a);
    KillOneValue(s, c, a);
  }

  lemma StandsThere(queues: map<int, seq<Pcb>>, semAdd: map<Pcb, int>, c: Pcb, a: int)
    requires BlockedOk(queues, semAdd) && c in semAdd && semAdd[c] == a
    ensures a in queues && c in queues[a] && NoDup(queues[a])
  {
    assert c in QueueAt(queues, semAdd[c]);
    assert QueueOf(semAdd, a, queues[a]);
  }

  lemma KillOneQueue(queues: map<int, seq<Pcb>>, semAdd: map<Pcb, int>, c: Pcb, a: int)
    requires BlockedOk(queues, semAdd) && c in semAdd && semAdd[c] == a
    ensures a in queues && c in queues[a] && |Minus(queues[a], {c})| == |queues[a]| - 1
    ensures forall b | b != a :: Minus(QueueAt(queues, b), {c}) == QueueAt(queues, b)
    ensures KillQueues(queues, {c}) == WithQueue(queues, a, Minus(queues[a], {c}))
  {
    hide BlockedOk, Minus;
    StandsThere(queues, semAdd, c, a);
    OneFewer(queues[a], c);
    forall b | b != a
      ensures Minus(QueueAt(queues, b), {c}) == QueueAt(queues, b)
      ensures b in queues ==> queues[b] != []
    {
      Untouched(queues, semAdd, {c}, b);
    }
    forall b | b in queues && b != a
      ensures Minus(queues[b], {c}) == queues[b] && queues[b] != []
    {
      assert queues[b] == QueueAt(queues, b);
    }
  }

  lemma KillOneValue(s: State, c: Pcb, a: int)
    requires BlockedOk(s.queues, s.semAdd) && c in s.semAdd && s.semAdd[c] == a && a in s.mem
    ensures Kill(s, {c}).mem == if IsDev(s.base, a) then s.mem else s.mem[a := s.mem[a] + 1]
  {
    hide BlockedOk, Minus, IsDev, Soft, KillQueues;
    KillOneQueue(s.queues, s.semAdd, c, a);
  }
}
