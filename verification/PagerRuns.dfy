/** Safety of the pager over whole runs, with any number of processes and kills at any point. */
module PagerRuns {
  import opened Semaphores
  import opened PagerSpec
  import opened PagerInvariant

  datatype Run = Run(states: seq<State>, events: seq<Event>)

  ghost predicate IsBoot(s: State) {
    && s.size > 0 && s.victim == 0 && s.sem == Sem(1, []) && s.valid == map[]
    && s.loads == [] && s.written == []
    && |s.frames| == s.size && (forall f | 0 <= f < s.size :: s.frames[f].Empty?)
    && (forall p | p in s.pc :: s.pc[p].User?)
  }

  ghost predicate Next(r: Run, i: int)
    requires 0 <= i && |r.states| > i + 1 && |r.events| > i
  {
    Enabled(r.states[i], r.events[i]) && r.states[i + 1] == Step(r.states[i], r.events[i])
  }

  ghost predicate IsRun(r: Run) {
    && |r.states| == |r.events| + 1
    && IsBoot(r.states[0])
    && forall i | 0 <= i < |r.events| :: Next(r, i)
  }

  lemma BootOk(s: State)
    requires IsBoot(s)
    ensures Inv(s)
  {
    assert forall p | p in s.pc :: !Critical(s.pc[p]);
    assert Inside(s.pc) == {};
    assert !UnderWay(s.pc);
    SlotRange(s.size);
  }

  lemma {:induction false} Always(r: Run, i: nat)
    requires IsRun(r) && i < |r.states|
    ensures Inv(r.states[i])
  {
    hide Inv, Step, Enabled, IsBoot;
    if i == 0 {
      BootOk(r.states[0]);
    } else {
      Always(r, i - 1);
      assert Next(r, i - 1);
      StepOk(r.states[i - 1], r.events[i - 1]);
    }
  }

  lemma StepAt(r: Run, i: nat)
    requires IsRun(r) && i < |r.events|
    ensures |r.states| == |r.events| + 1
    ensures Enabled(r.states[i], r.events[i]) && r.states[i + 1] == Step(r.states[i], r.events[i])
  {
    assert Next(r, i);
  }

  /** A run goes on with any enabled event. */
  lemma ExtendRun(r: Run, e: Event)
    requires IsRun(r) && Enabled(r.states[|r.events|], e)
    ensures IsRun(Extended(r, e))
  {
    hide Enabled, Step, IsBoot;
    var r' := Extended(r, e);
    forall i | 0 <= i < |r'.events|
      ensures Next(r', i)
    {
      if i < |r.events| {
        assert Next(r, i);
      }
    }
  }

  ghost function Extended(r: Run, e: Event): Run
    requires |r.states| == |r.events| + 1 && Enabled(r.states[|r.events|], e)
  {
    Run(r.states + [Step(r.states[|r.events|], e)], r.events + [e])
  }

  // ---------- tables and mutex ----------

  /** The only process inside has chosen f and not yet recorded its page there. */
  ghost predicate BeingReplaced(s: State, f: int) {
    exists p | p in s.pc :: (s.pc[p].Writing? || s.pc[p].Reading?) && s.pc[p].f == f && Inside(s.pc) == {p}
  }

  /** A valid entry names the frame that records it, and no two frames record the same page. A frame
      whose page has no valid entry is being replaced by the only process inside. */
  lemma TablesAgree(r: Run, i: nat)
    requires IsRun(r) && i < |r.states|
    ensures var s := r.states[i];
      && (forall x | x in s.valid :: 0 <= s.valid[x] < |s.frames| && s.frames[s.valid[x]] == Holding(x))
      && (forall f, f' | 0 <= f < f' < |s.frames| && s.frames[f].Holding? && s.frames[f'].Holding? ::
            s.frames[f].page != s.frames[f'].page)
      && (forall f | 0 <= f < |s.frames| && s.frames[f].Holding? && s.frames[f].page !in s.valid ::
            BeingReplaced(s, f))
  {
    hide IsRun;
    Always(r, i);
    var s := r.states[i];
    forall f | 0 <= f < |s.frames| && s.frames[f].Holding? && s.frames[f].page !in s.valid
      ensures BeingReplaced(s, f)
    {
      assert Replacing(s.pc, f);
      var p :| p in s.pc && (s.pc[p].Writing? || s.pc[p].Reading?) && s.pc[p].f == f;
      Alone(s, p);
    }
  }

  lemma Alone(s: State, p: int)
    requires Inv(s) && p in s.pc && Critical(s.pc[p])
    ensures Inside(s.pc) == {p}
  {
    OnlyInside(s, p);
  }

  /** At most one process is between a completed P on swapSem and its V; the mutex is free exactly
      when nobody is, and the processes blocked on it are as many as its value is below zero. */
  lemma PagerMutex(r: Run, i: nat)
    requires IsRun(r) && i < |r.states|
    ensures var s := r.states[i];
      && |Inside(s.pc)| <= 1
      && (s.sem.value == 1 <==> Inside(s.pc) == {}) && s.sem.value <= 1
      && |s.sem.queue| == if s.sem.value < 0 then -s.sem.value else 0
  {
    hide IsRun;
    Always(r, i);
    var s := r.states[i];
    if p :| p in s.pc && Critical(s.pc[p]) {
      Alone(s, p);
    } else {
      assert forall p | p in s.pc :: !Critical(s.pc[p]);
      assert Inside(s.pc) == {};
    }
  }

  // ---------- first in, first out ----------

  /** Load k is one of the last size loads. */
  ghost predicate Recent(s: State, k: int) {
    0 <= k < |s.loads| && |s.loads| - s.size <= k
  }

  /** Every frame is the slot of one of any size successive loads. */
  lemma SlotOnto(f: int, n: nat, size: nat) returns (k: nat)
    requires size > 0 && 0 <= f < size
    ensures n - size <= k < (if n < size then size else n) && Slot(k, size) == f
  {
    var lo := if n < size then 0 else n - size;
    var q, b := (lo + 1) / size, Slot(lo, size);
    assert lo + 1 == q * size + b;
    if b <= f {
      k := lo + f - b;
      ModIs(k + 1, q, f, size);
    } else {
      k := lo + f - b + size;
      assert (q + 1) * size == q * size + size;
      ModIs(k + 1, q + 1, f, size);
    }
  }

  /** The resident pages are the last size pages loaded, each once and each in its own slot; only
      the oldest of them can be missing, while its frame is being replaced. */
  lemma ResidentAreRecent(r: Run, i: nat)
    requires IsRun(r) && i < |r.states|
    ensures var s := r.states[i];
      && s.size > 0
      && (forall k | Recent(s, k) :: s.loads[k] in s.valid <==> !Replacing(s.pc, Slot(k, s.size)))
      && (forall k | Recent(s, k) && s.loads[k] in s.valid :: s.valid[s.loads[k]] == Slot(k, s.size))
      && (forall k | Recent(s, k) && k > |s.loads| - s.size :: s.loads[k] in s.valid)
      && (forall j, k | Recent(s, j) && Recent(s, k) && j < k :: s.loads[j] != s.loads[k])
      && (forall x | x in s.valid :: exists k | Recent(s, k) :: s.loads[k] == x)
  {
    hide IsRun, Slot;
    Always(r, i);
    var s := r.states[i];
    SlotRange(s.size);
    forall k | Recent(s, k)
      ensures s.loads[k] in s.valid <==> !Replacing(s.pc, Slot(k, s.size))
      ensures s.loads[k] in s.valid ==> s.valid[s.loads[k]] == Slot(k, s.size)
      ensures k > |s.loads| - s.size ==> s.loads[k] in s.valid
    {
      RecentLoad(s, k);
    }
    forall j, k | Recent(s, j) && Recent(s, k) && j < k
      ensures s.loads[j] != s.loads[k]
    {
      SlotsDiffer(j, k, s.size);
    }
    forall x | x in s.valid
      ensures exists k | Recent(s, k) :: s.loads[k] == x
    {
      var k := SlotOnto(s.valid[x], |s.loads|, s.size);
      ResidentLoad(s, x, k);
    }
  }

  lemma ResidentLoad(s: State, x: Page, k: nat)
    requires Inv(s) && x in s.valid && Slot(k, s.size) == s.valid[x]
    requires |s.loads| - s.size <= k < if |s.loads| < s.size then s.size else |s.loads|
    ensures Recent(s, k) && s.loads[k] == x
  {
  }

  lemma RecentLoad(s: State, k: nat)
    requires Inv(s) && Recent(s, k)
    ensures 0 <= Slot(k, s.size) < s.size && s.frames[Slot(k, s.size)] == Holding(s.loads[k])
    ensures s.loads[k] in s.valid <==> !Replacing(s.pc, Slot(k, s.size))
    ensures s.loads[k] in s.valid ==> s.valid[s.loads[k]] == Slot(k, s.size)
    ensures k > |s.loads| - s.size ==> s.loads[k] in s.valid
  {
    hide MutexOk;
    SlotRange(s.size);
    var f := Slot(k, s.size);
    assert s.frames[f] == Holding(s.loads[k]);
    if Replacing(s.pc, f) {
      var p :| p in s.pc && (s.pc[p].Writing? || s.pc[p].Reading?) && s.pc[p].f == f;
      assert LabelOk(s.pc[p], p, s.victim, s.frames, s.valid);
      assert UnderWay(s.pc);
      if k > |s.loads| - s.size {
        SlotsDiffer(k, |s.loads|, s.size);
      }
    }
  }

  /** Once the pool is full every fault evicts the page loaded size loads earlier; before that, none. */
  lemma EvictsOldest(r: Run, i: nat)
    requires IsRun(r) && i < |r.events| && r.events[i].Evict?
    ensures var s, s' := r.states[i], r.states[i + 1]; var n := |s.loads|;
      && s.size > 0 && s'.loads == s.loads
      && (n < s.size ==> s'.valid == s.valid)
      && (n >= s.size ==> s.loads[n - s.size] in s.valid && s'.valid == s.valid - {s.loads[n - s.size]})
  {
    hide IsRun, Slot, Inv;
    StepAt(r, i);
    Always(r, i);
    EvictOldest(r.states[i], r.events[i].p);
  }

  lemma EvictOldest(s: State, p: int)
    requires Inv(s) && Enabled(s, Evict(p))
    ensures var n, f := |s.loads|, s.pc[p].f;
      && (n < s.size ==> s.frames[f].Empty?)
      && (n >= s.size ==> s.frames[f] == Holding(s.loads[n - s.size]) && s.loads[n - s.size] in s.valid)
  {
    hide Slot;
    OnlyInside(s, p);
    assert LabelOk(s.pc[p], p, s.victim, s.frames, s.valid);
    var n := |s.loads|;
    if n >= s.size {
      SlotAgain(n, s.size);
      RecentLoad(s, n - s.size);
    }
  }

  lemma SlotAgain(n: nat, size: nat)
    requires 0 < size <= n
    ensures Slot(n - size, size) == Slot(n, size)
  {
    var q, b := (n - size + 1) / size, Slot(n - size, size);
    assert (q + 1) * size == q * size + size;
    ModIs(n + 1, q + 1, b, size);
  }

  // ---------- writing back ----------

  ghost predicate SomeReading(pc: map<int, Label>) {
    exists p | p in pc :: pc[p].Reading?
  }

  /** How many loads have been overwritten, counting the page that the process inside is about to replace
      once its frame has been written back. */
  ghost function Replaced(s: State): (w: nat)
    requires PoolOk(s)
    ensures w <= |s.loads|
  {
    if |s.loads| < s.size then 0 else |s.loads| - s.size + if SomeReading(s.pc) then 1 else 0
  }

  lemma ReadingHere(s: State, p: int)
    requires Inv(s) && p in s.pc && Critical(s.pc[p])
    ensures SomeReading(s.pc) <==> s.pc[p].Reading?
  {
    OnlyInside(s, p);
  }

  /** Steps of processes that are not about to replace a page. */
  lemma ReadingElsewhere(pc: map<int, Label>, pc': map<int, Label>)
    requires pc'.Keys == pc.Keys && forall p | p in pc :: pc'[p].Reading? <==> pc[p].Reading?
    ensures SomeReading(pc') <==> SomeReading(pc)
  {
    if SomeReading(pc) {
      var p :| p in pc && pc[p].Reading?;
      assert p in pc' && pc'[p].Reading?;
    }
  }

  lemma WrittenPage(s: State, p: int)
    requires Inv(s) && p in s.pc && (s.pc[p].Writing? || s.pc[p].Reading?)
    ensures var n, f := |s.loads|, s.pc[p].f;
      && 0 <= f < s.size
      && (s.frames[f].Holding? ==> n >= s.size && s.frames[f].page == s.loads[n - s.size])
      && (n >= s.size ==> s.frames[f].Holding?)
  {
    hide Slot;
    SlotRange(s.size);
    OnlyInside(s, p);
    assert LabelOk(s.pc[p], p, s.victim, s.frames, s.valid);
    var n := |s.loads|;
    if n >= s.size {
      SlotAgain(n, s.size);
      RecentLoad(s, n - s.size);
    }
  }

  lemma WrittenStep(s: State, e: Event)
    requires Inv(s) && Enabled(s, e) && s.written == s.loads[..Replaced(s)]
    ensures Inv(Step(s, e))
    ensures var s' := Step(s, e); s'.written == s'.loads[..Replaced(s')]
  {
    hide Inv, SomeReading;
    StepOk(s, e);
    match e
    case Evict(p) =>
      EvictOldest(s, p);
      ReadingHere(s, p);
      ReadingHere(Step(s, e), p);
    case Written(p) =>
      WrittenPage(s, p);
      ReadingHere(s, p);
      ReadingHere(Step(s, e), p);
    case Install(p) =>
      ReadingHere(s, p);
      ReadingHere(Step(s, e), p);
    case _ =>
      ReadingElsewhere(s.pc, Step(s, e).pc);
  }

  /** Every page that leaves the pool is written back once, in the order in which the pages were loaded, and
      no other page is ever written. */
  lemma {:induction false} WrittenInOrder(r: Run, i: nat)
    requires IsRun(r) && i < |r.states|
    ensures Inv(r.states[i]) && r.states[i].written == r.states[i].loads[..Replaced(r.states[i])]
  {
    hide Inv, Step, Enabled, SomeReading;
    if i == 0 {
      BootOk(r.states[0]);
    } else {
      WrittenInOrder(r, i - 1);
      assert Next(r, i - 1);
      WrittenStep(r.states[i - 1], r.events[i - 1]);
    }
  }

  /** How many of the steps i, ..., j - 1 end a write-back by p. */
  ghost function Writes(r: Run, p: int, i: nat, j: nat): nat
    requires i <= j <= |r.events|
  {
    if i == j then 0 else Writes(r, p, i, j - 1) + if r.events[j - 1] == Written(p) then 1 else 0
  }

  /** Until p has read its page in, only p itself can do anything to the frames. */
  lemma HeldStep(s: State, e: Event, p: int)
    requires Inv(s) && Enabled(s, e) && p in s.pc && (s.pc[p].Writing? || s.pc[p].Reading?) && e != Install(p)
    ensures 0 <= s.pc[p].f < |s.frames|
    ensures var s', g, f := Step(s, e), s.pc[p].g, s.pc[p].f;
      && p in s'.pc && s'.frames == s.frames
      && (e == Written(p) ==> s.pc[p].Writing? && s.frames[f].Holding?)
      && s'.pc[p] == (if e == Written(p) then Reading(g, f) else s.pc[p])
      && s'.written == s.written + if e == Written(p) then [s.frames[f].page] else []
  {
    hide MutexOk, OrderOk, StaleOk, TablesOk;
    OnlyInside(s, p);
    assert LabelOk(s.pc[p], p, s.victim, s.frames, s.valid);
  }

  lemma ChosenFrame(s: State, p: int)
    requires Inv(s) && p in s.pc && (s.pc[p].Writing? || s.pc[p].Reading?)
    ensures 0 <= s.pc[p].f < |s.frames|
  {
    assert LabelOk(s.pc[p], p, s.victim, s.frames, s.valid);
  }

  lemma StepCount(r: Run)
    requires IsRun(r)
    ensures |r.states| == |r.events| + 1
  {
  }

  lemma {:induction false} WritesFrom(r: Run, p: int, i: nat, j: nat)
    requires i < j <= |r.events|
    ensures Writes(r, p, i, j) == Writes(r, p, i + 1, j) + if r.events[i] == Written(p) then 1 else 0
  {
    if i + 1 < j {
      WritesFrom(r, p, i, j - 1);
    }
  }

  lemma {:induction false} HeldUntil(r: Run, p: int, i: nat, j: nat)
    requires IsRun(r) && i <= j < |r.states| && (forall k | i <= k < j :: r.events[k] != Install(p))
    requires p in r.states[i].pc && (r.states[i].pc[p].Writing? || r.states[i].pc[p].Reading?)
    ensures var s, s' := r.states[i], r.states[j]; var g, f := s.pc[p].g, s.pc[p].f;
      && p in s'.pc && s'.frames == s.frames && 0 <= f < |s.frames|
      && (s'.pc[p] == s.pc[p] || (s.pc[p].Writing? && s.frames[f].Holding? && s'.pc[p] == Reading(g, f)))
      && Writes(r, p, i, j) == (if s'.pc[p] == s.pc[p] then 0 else 1)
      && s'.written == s.written + if s'.pc[p] == s.pc[p] then [] else [s.frames[f].page]
  {
    hide Inv, Step, Enabled, IsRun;
    Always(r, i);
    StepCount(r);
    if i == j {
      ChosenFrame(r.states[i], p);
    } else {
      HeldUntil(r, p, i, j - 1);
      StepAt(r, j - 1);
      Always(r, j - 1);
      HeldStep(r.states[j - 1], r.events[j - 1], p);
    }
  }

  /** From the invalidation of its victim to its next load, a process writes back exactly one page if the
      frame it chose was in use, namely the page recorded there, and none if it was empty. */
  lemma WrittenOnce(r: Run, p: int, i: nat, j: nat)
    requires IsRun(r) && i < j < |r.events| && r.events[i] == Evict(p) && r.events[j] == Install(p)
    requires forall k | i < k < j :: r.events[k] != Install(p)
    ensures p in r.states[i].pc && r.states[i].pc[p].Picked? && 0 <= r.states[i].pc[p].f < |r.states[i].frames|
    ensures var s, s' := r.states[i], r.states[j]; var frame := s.frames[s.pc[p].f];
      && Writes(r, p, i, j) == (if frame.Holding? then 1 else 0)
      && s'.written == s.written + if frame.Holding? then [frame.page] else []
  {
    hide Inv, IsRun;
    StepAt(r, i);
    StepAt(r, j);
    HeldUntil(r, p, i + 1, j);
    WritesFrom(r, p, i, j);
  }

  // ---------- who gets out of the handler ----------

  /** The events happen one after the other, each enabled when its turn comes. */
  ghost predicate Feasible(s: State, es: seq<Event>)
    decreases |es|
  {
    es == [] || (Enabled(s, es[0]) && Feasible(Step(s, es[0]), es[1..]))
  }

  ghost function After(s: State, es: seq<Event>): State
    requires Feasible(s, es)
    decreases |es|
  {
    if es == [] then s else After(Step(s, es[0]), es[1..])
  }

  /** A step of p itself through the rest of the handler. */
  ghost predicate Own(e: Event, p: int) {
    e == Pick(p) || e == Evict(p) || e == Written(p) || e == Install(p) || e == Release(p)
  }

  /** How many labels p has still to pass. */
  ghost function Remaining(l: Label): nat {
    match l
    case User => 0
    case Waiting(_) => 6
    case Entered(_) => 5
    case Picked(_, _) => 4
    case Writing(_, _) => 3
    case Reading(_, _) => 2
    case Loaded => 1
  }

  ghost function NextOwn(s: State, p: int): Event
    requires p in s.pc
  {
    match s.pc[p]
    case Entered(_) => Pick(p)
    case Picked(_, _) => Evict(p)
    case Writing(_, _) => Written(p)
    case Reading(_, _) => Install(p)
    case _ => Release(p)
  }

  lemma NextOwnOk(s: State, p: int)
    requires Inv(s) && p in Inside(s.pc) && p in s.alive
    ensures Enabled(s, NextOwn(s, p)) && Own(NextOwn(s, p), p)
    ensures var s' := Step(s, NextOwn(s, p));
      && p in s'.pc && p in s'.alive && Remaining(s'.pc[p]) < Remaining(s.pc[p])
      && (s'.pc[p].User? || p in Inside(s'.pc))
  {
    OnlyInside(s, p);
    assert LabelOk(s.pc[p], p, s.victim, s.frames, s.valid);
  }

  /** A live process inside can finish by its own steps alone, one for each label it has still to pass. */
  lemma {:induction false} WayOut(s: State, p: int) returns (es: seq<Event>)
    requires Inv(s) && p in Inside(s.pc) && p in s.alive
    ensures Feasible(s, es) && (forall e | e in es :: Own(e, p))
    ensures p in After(s, es).pc && After(s, es).pc[p].User?
    ensures |es| <= Remaining(s.pc[p]) <= 5
    decreases Remaining(s.pc[p])
  {
    hide Inv, Step, Enabled, NextOwn;
    var e := NextOwn(s, p);
    NextOwnOk(s, p);
    StepOk(s, e);
    var rest := [];
    if !Step(s, e).pc[p].User? {
      rest := WayOut(Step(s, e), p);
    }
    es := [e] + rest;
    assert es[1..] == rest;
  }

  lemma {:induction false} NoWayOut(s: State, es: seq<Event>, p: int)
    requires Inv(s) && Feasible(s, es) && p in Inside(s.pc) && p !in s.alive
    ensures p in Inside(After(s, es).pc) && p !in After(s, es).alive
    ensures After(s, es).loads == s.loads && After(s, es).frames == s.frames && After(s, es).valid == s.valid
    decreases |es|
  {
    hide Inv, Step, Enabled;
    if es != [] {
      FrozenStep(s, es[0], p);
      StepOk(s, es[0]);
      NoWayOut(Step(s, es[0]), es[1..], p);
    }
  }

  /** The process inside the handler can still leave it if and only if it is alive. */
  lemma LeavesIffAlive(r: Run, i: nat, p: int)
    requires IsRun(r) && i < |r.states| && p in Inside(r.states[i].pc)
    ensures var s := r.states[i];
      p in s.alive <==> exists es :: Feasible(s, es) && p !in Inside(After(s, es).pc)
  {
    hide Inv, Step, Enabled;
    Always(r, i);
    var s := r.states[i];
    if p in s.alive {
      var es := WayOut(s, p);
      assert Feasible(s, es) && p !in Inside(After(s, es).pc);
    } else {
      forall es | Feasible(s, es)
        ensures p in Inside(After(s, es).pc)
      {
        NoWayOut(s, es, p);
      }
    }
  }

  // ---------- what a dying holder costs ----------

  /** A dead process inside is reached from every initial state: one fault, and the process is killed. */
  lemma DeadHolderReached(s: State, p: int, g: int) returns (r: Run)
    requires IsBoot(s) && p in s.pc && p in s.alive && 0 <= g < s.pages
    ensures IsRun(r) && r.states[0] == s && r.events == [Fault(p, g), Kill({p})]
    ensures p in Inside(r.states[2].pc) && p !in r.states[2].alive
  {
    var s1 := Step(s, Fault(p, g));
    var s2 := Step(s1, Kill({p}));
    r := Run([s, s1, s2], [Fault(p, g), Kill({p})]);
    assert Next(r, 0) && Next(r, 1);
  }

  /** Nothing but deaths and new faults can follow once the process inside is dead: the handler never
      releases swapSem on its behalf, so no page is ever loaded again. */
  lemma {:induction false} DeadHolderFreezes(r: Run, p: int, i: nat, j: nat)
    requires IsRun(r) && i <= j < |r.states|
    requires p in Inside(r.states[i].pc) && p !in r.states[i].alive
    ensures var s, s' := r.states[i], r.states[j];
      && p in Inside(s'.pc) && p !in s'.alive
      && s'.loads == s.loads && s'.frames == s.frames && s'.valid == s.valid && s'.victim == s.victim
      && s'.written == s.written
    decreases j - i
  {
    hide Inv, Step, Enabled, IsBoot;
    if i < j {
      Always(r, i);
      assert Next(r, i);
      FrozenStep(r.states[i], r.events[i], p);
      DeadHolderFreezes(r, p, i + 1, j);
    }
  }

  lemma FrozenStep(s: State, e: Event, p: int)
    requires Inv(s) && Enabled(s, e) && p in Inside(s.pc) && p !in s.alive
    ensures var s' := Step(s, e);
      && p in Inside(s'.pc) && p !in s'.alive
      && s'.loads == s.loads && s'.frames == s.frames && s'.valid == s.valid && s'.victim == s.victim
      && s'.written == s.written
  {
    OnlyInside(s, p);
  }
}
