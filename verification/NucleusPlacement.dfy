/** Where processes are in a reachable state, and what the scheduler therefore decides. */
module NucleusPlacement {
  import opened Sequences
  import opened ProcessQueues
  import opened ProcessTree
  import opened ActiveSemaphores
  import opened NucleusSpec
  import opened NucleusInvariant
  import opened NucleusRuns

  datatype Place = Free | Ready | Blocked(a: int) | Current | Retired

  ghost function Alive(s: State): set<Pcb> {
    set p | p in s.procs && Live(s.ready, s.semAdd, s.running, p)
  }

  /** Terminated, but still in its parent's child list and not yet on the free list. */
  ghost function RetiredPcbs(s: State): set<Pcb> {
    set p | p in Nodes(s.tree) && !Live(s.ready, s.semAdd, s.running, p)
  }

  ghost function Places(s: State, p: Pcb): set<Place> {
    PlacesIf(p in s.free, p in s.ready, set a | a in s.queues && p in s.queues[a] :: Blocked(a),
             p == s.running, p in RetiredPcbs(s))
  }

  ghost function PlacesIf(free: bool, ready: bool, blocked: set<Place>, current: bool, retired: bool): set<Place> {
    (if free then {Free} else {}) + (if ready then {Ready} else {}) + blocked
    + (if current then {Current} else {}) + (if retired then {Retired} else {})
  }

  lemma QueuesOf(queues: map<int, seq<Pcb>>, semAdd: map<Pcb, int>, p: Pcb)
    requires BlockedOk(queues, semAdd)
    ensures (set a | a in queues && p in queues[a] :: Blocked(a)) == if p in semAdd then {Blocked(semAdd[p])} else {}
  {
    forall a | a in queues && p in queues[a]
      ensures p in semAdd && semAdd[p] == a
    {
      assert QueueOf(semAdd, a, queues[a]);
    }
    if p in semAdd {
      var a := semAdd[p];
      assert p in QueueAt(queues, a);
    }
  }

  /** Every pcb is in exactly one place; a blocked one in the queue its semAdd names. */
  lemma OnePlace(r: Run, i: nat, p: Pcb)
    requires IsRun(r) && i < |r.states| && p in r.states[i].procs
    ensures |Places(r.states[i], p)| == 1
    ensures var s := r.states[i];
      p in s.semAdd ==> Places(s, p) == {Blocked(s.semAdd[p])}
  {
    hide IsRun;
    var s := r.states[i];
    Always(r, i);
    InOnePlace(s, p);
  }

  /** The places exclude one another and cover the table. */
  lemma Exclusive(s: State, p: Pcb)
    requires Inv(s) && p in s.procs
    ensures p in s.free ==> p !in Nodes(s.tree) && !Live(s.ready, s.semAdd, s.running, p)
    ensures p !in s.free ==> p in Nodes(s.tree)
    ensures p in s.ready ==> p !in s.semAdd && p != s.running
    ensures p in s.semAdd ==> p != s.running
    ensures BlockedOk(s.queues, s.semAdd)
  {
  }

  lemma OneOf(free: bool, ready: bool, a: int, blocked: bool, current: bool, retired: bool)
    requires free ==> !ready && !blocked && !current && !retired
    requires ready ==> !blocked && !current && !retired
    requires blocked ==> !current && !retired
    requires current ==> !retired
    requires free || ready || blocked || current || retired
    ensures |PlacesIf(free, ready, if blocked then {Blocked(a)} else {}, current, retired)| == 1
    ensures blocked ==> PlacesIf(free, ready, {Blocked(a)}, current, retired) == {Blocked(a)}
  {
    assert PlacesIf(free, ready, if blocked then {Blocked(a)} else {}, current, retired) == {
      if free then Free else if ready then Ready else if blocked then Blocked(a)
      else if current then Current else Retired};
  }

  lemma InOnePlace(s: State, p: Pcb)
    requires Inv(s) && p in s.procs
    ensures |Places(s, p)| == 1
    ensures p in s.semAdd ==> Places(s, p) == {Blocked(s.semAdd[p])}
  {
    hide Inv, BlockedOk, Distinct, Nodes, PlacesIf;
    Exclusive(s, p);
    QueuesOf(s.queues, s.semAdd, p);
    var blocked := p in s.semAdd;
    OneOf(p in s.free, p in s.ready, if blocked then s.semAdd[p] else 0, blocked, p == s.running, p in RetiredPcbs(s));
  }

  ghost function Running1(s: State): nat {
    if s.running == null then 0 else 1
  }

  /** The five kinds of places account for the whole process table. */
  lemma SizesAddUp(r: Run, i: nat)
    requires IsRun(r) && i < |r.states|
    ensures var s := r.states[i];
      |s.free| + |s.ready| + |s.semAdd| + Running1(s) + |RetiredPcbs(s)| == |s.procs|
    ensures |Alive(r.states[i])| == r.states[i].processCount
  {
    hide IsRun;
    Always(r, i);
    CountPlaces(r.states[i]);
  }

  lemma DisjointUnion<T>(a: set<T>, b: set<T>, c: set<T>)
    requires a !! b && a + b !! c
    ensures |a + b + c| == |a| + |b| + |c|
  {
  }

  lemma LiveCount(procs: set<Pcb>, ready: seq<Pcb>, semAdd: map<Pcb, int>, running: Pcb?)
    requires ReadyOk(ready, semAdd, running) && forall p | Live(ready, semAdd, running, p) :: p in procs
    ensures |set p | p in procs && Live(ready, semAdd, running, p)|
      == |ready| + |semAdd| + if running == null then 0 else 1
  {
    var blocked, queued := semAdd.Keys, (set p | p in ready);
    var run: set<Pcb> := if running == null then {} else {running};
    SeqAsSet(ready);
    assert queued !! blocked && queued + blocked !! run;
    assert (set p | p in procs && Live(ready, semAdd, running, p)) == queued + blocked + run by {
      LiveParts(procs, ready, semAdd, running);
    }
    hide *;
    DisjointUnion(queued, blocked, run);
  }

  lemma LiveParts(procs: set<Pcb>, ready: seq<Pcb>, semAdd: map<Pcb, int>, running: Pcb?)
    requires forall p | Live(ready, semAdd, running, p) :: p in procs
    ensures (set p | p in procs && Live(ready, semAdd, running, p))
      == (set p | p in ready) + semAdd.Keys + if running == null then {} else {running}
  {
  }

  lemma CountPlaces(s: State)
    requires Inv(s)
    ensures |s.free| + |s.ready| + |s.semAdd| + Running1(s) + |RetiredPcbs(s)| == |s.procs|
    ensures |Alive(s)| == s.processCount
  {
    hide BlockedOk, ReadyOk, TreeShape, TreeLive, MemoryShape, ValuesOk, Live;
    LiveInTree(s);
    LiveCount(s.procs, s.ready, s.semAdd, s.running);
    assert Nodes(s.tree) == Alive(s) + RetiredPcbs(s);
    assert |Nodes(s.tree)| == |Alive(s)| + |RetiredPcbs(s)|;
    assert |Nodes(s.tree) + s.free| == |Nodes(s.tree)| + |s.free|;
  }

  lemma LiveInTree(s: State)
    requires Inv(s)
    ensures forall p | Live(s.ready, s.semAdd, s.running, p) :: p in Nodes(s.tree)
    ensures Nodes(s.tree) !! s.free && Nodes(s.tree) + s.free == s.procs
    ensures Alive(s) !! RetiredPcbs(s) && Nodes(s.tree) <= s.procs
  {
    hide BlockedOk, MemoryShape, ValuesOk, Nodes, Distinct;
  }

  // ---------- the scheduler's decision ----------

  /** HALT exactly when nothing is alive, WAIT exactly when the only hope is a device or the clock,
      PANIC exactly when everyone left waits on ordinary semaphores; no other outcome exists. */
  lemma SchedulerIsExact(r: Run, i: nat)
    requires IsRun(r) && i < |r.states|
    ensures var s := r.states[i];
      && (s.mode == Halted <==> Alive(s) == {})
      && (s.mode == Running <==> s.running != null)
      && (s.mode == Waiting <==> s.running == null && s.ready == [] && Soft(s.base, s.semAdd) != {})
      && (s.mode == Panicked <==> s.running == null && Alive(s) != {} && forall p | p in Alive(s) :: OnOrdinary(s, p))
      && s.mode != Returned
  {
    hide IsRun;
    Always(r, i);
    CountPlaces(r.states[i]);
    Decision(r.states[i]);
  }

  ghost predicate OnOrdinary(s: State, p: Pcb) {
    p in s.semAdd && !IsDev(s.base, s.semAdd[p])
  }

  lemma Decision(s: State)
    requires Inv(s) && |Alive(s)| == s.processCount
    ensures
      && (s.mode == Halted <==> Alive(s) == {})
      && (s.mode == Running <==> s.running != null)
      && (s.mode == Waiting <==> s.running == null && s.ready == [] && Soft(s.base, s.semAdd) != {})
      && (s.mode == Panicked <==> s.running == null && Alive(s) != {} && forall p | p in Alive(s) :: OnOrdinary(s, p))
      && s.mode != Returned
  {
    if s.ready != [] {
      var p := s.ready[0];
      assert p in s.ready && p in Alive(s) && !OnOrdinary(s, p);
    }
    if s.mode == Panicked {
      forall p | p in Alive(s)
        ensures OnOrdinary(s, p)
      {
        assert p !in Soft(s.base, s.semAdd);
      }
    }
    if Soft(s.base, s.semAdd) != {} {
      var p :| p in Soft(s.base, s.semAdd);
      assert p in Alive(s) && !OnOrdinary(s, p);
    }
  }
}
