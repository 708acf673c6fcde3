/** A semaphore initialised to m admits at most m processes between P and V, kills included. */
module NucleusMutex {
  import opened Sequences
  import opened ProcessQueues
  import opened ActiveSemaphores
  import opened NucleusSpec
  import opened NucleusInvariant
  import opened NucleusQueues
  import opened NucleusRuns
  import opened NucleusAccounting
  import opened Semaphores

  /** The processes a step ends: killed descendants, and a running process that terminates. */
  ghost function Ends(s: State, e: Event): set<Pcb> {
    if Dies(s, e) then Kills(s, e) + {s.running} else {}
  }

  /** Who is between a completed P on a and the matching V, after the step. */
  ghost function HoldersAfter(s: State, e: Event, a: int, h: set<Pcb>): set<Pcb>
    requires a in s.mem
  {
    match e
    case Passeren(b) => if b == a && s.running != null && s.mem[a] - 1 >= 0 then h + {s.running} else h
    case Verhogen(b) =>
      if b == a && s.running != null then
        (h - {s.running}) + if s.mem[a] + 1 <= 0 && Queue(s, a) != [] then {Queue(s, a)[0]} else {}
      else h
    case _ => h - Ends(s, e)
  }

  /** The processes that have issued P on a and no V since, whether or not the P has completed. */
  ghost function IssuedAfter(s: State, e: Event, a: int, u: set<Pcb>): set<Pcb> {
    match e
    case Passeren(b) => if b == a && s.running != null then u + {s.running} else u
    case Verhogen(b) => if b == a && s.running != null then u - {s.running} else u
    case _ => u - Ends(s, e)
  }

  /** Each process alternates its own P's and V's on a, starting with P. */
  ghost predicate Alternating(s: State, e: Event, a: int, u: set<Pcb>) {
    && (e == Verhogen(a) ==> s.running != null && s.running in u)
    && (e == Passeren(a) ==> s.running != null && s.running !in u)
  }

  /** Free units, holders, and units lost with terminated holders add up to m. */
  ghost predicate Conserved(s: State, a: int, h: set<Pcb>, lost: nat, m: nat)
    requires a in s.mem
  {
    Max0(s.mem[a]) + |h| + lost == m && forall p | p in h :: p !in Queue(s, a)
  }

  /** Conserved, and whoever has issued P either holds a unit or waits for one. */
  ghost predicate Accounted(sem: Sem<Pcb>, h: set<Pcb>, u: set<Pcb>, lost: nat, m: nat) {
    && NoDup(sem.queue) && |sem.queue| == Max0(-sem.value)
    && Max0(sem.value) + |h| + lost == m
    && (forall p | p in h :: p !in sem.queue)
    && (forall p | p in u :: p in h || p in sem.queue)
    && (forall p | p in h :: p in u) && (forall p | p in sem.queue :: p in u)
  }

  lemma DownAccounted(sem: Sem<Pcb>, p: Pcb, h: set<Pcb>, u: set<Pcb>, lost: nat, m: nat)
    requires Accounted(sem, h, u, lost, m) && p !in u
    ensures Accounted(Down(sem, p), if sem.value > 0 then h + {p} else h, u + {p}, lost, m)
  {
    assert p !in sem.queue;
  }

  lemma UpAccounted(sem: Sem<Pcb>, p: Pcb, h: set<Pcb>, u: set<Pcb>, lost: nat, m: nat)
    requires Accounted(sem, h, u, lost, m) && p in h
    ensures Accounted(Up(sem), h - {p} + if sem.value < 0 then {sem.queue[0]} else {}, u - {p}, lost, m)
  {
    if sem.value < 0 {
      var q := sem.queue[0];
      assert q in sem.queue && q !in h - {p};
      assert forall x | x in sem.queue :: x == q || x in sem.queue[1..];
      assert forall x | x in sem.queue[1..] :: x in sem.queue && x != q;
    }
  }

  lemma ReapAccounted(sem: Sem<Pcb>, d: set<Pcb>, ends: set<Pcb>, h: set<Pcb>, u: set<Pcb>, lost: nat, m: nat)
    requires Accounted(sem, h, u, lost, m) && d <= ends && forall p | p in ends && p in sem.queue :: p in d
    ensures Accounted(Reap(sem, d, true), h - ends, u - ends, lost + |h * ends|, m)
  {
    MinusElements(sem.queue, d);
    MinusNoDup(sem.queue, d);
    assert h == (h - ends) + (h * ends);
  }

  lemma MutexStep(s: State, e: Event, t: Tod, a: int, h: set<Pcb>, u: set<Pcb>, lost: nat, m: nat)
    requires Inv(s) && Enabled(s, e) && UserSem(s, a)
    requires Accounted(View(s, a), h, u, lost, m) && Alternating(s, e, a, u)
    ensures a in Step(s, e, t).mem && (e == Verhogen(a) ==> s.running in h)
    ensures Accounted(View(Step(s, e, t), a), HoldersAfter(s, e, a, h), IssuedAfter(s, e, a, u),
                      lost + |h * Ends(s, e)|, m)
  {
    hide Inv, Enabled, Step, Kills, Reap, Accounted, Up, Down;
    InWords(s, a);
    ViewStep(s, e, t, a);
    QueueDistinct(s, a);
    if e == Verhogen(a) || e == Passeren(a) {
      OnTarget(s, e, a);
      HolderRuns(View(s, a), s.running, h, u, lost, m);
      assert h * {} == {};
      if e == Passeren(a) {
        DownAccounted(View(s, a), s.running, h, u, lost, m);
      } else {
        UpAccounted(View(s, a), s.running, h, u, lost, m);
      }
    } else {
      OffTarget(s, e, a);
      QuietAccounted(s, e, a, h, u, lost, m);
    }
  }

  /** A process that runs waits for nothing: if it has issued P, it holds a unit. */
  lemma HolderRuns(sem: Sem<Pcb>, p: Pcb, h: set<Pcb>, u: set<Pcb>, lost: nat, m: nat)
    requires Accounted(sem, h, u, lost, m) && p !in sem.queue
    ensures p in u <==> p in h
    ensures sem.value < 0 <==> sem.queue != []
  {
  }

  /** A step that is no P or V on a only takes away the processes it ends. */
  lemma QuietAccounted(s: State, e: Event, a: int, h: set<Pcb>, u: set<Pcb>, lost: nat, m: nat)
    requires a in s.mem && Accounted(View(s, a), h, u, lost, m)
    requires s.running != null ==> s.running !in Queue(s, a)
    ensures Accounted(if Kills(s, e) == {} then View(s, a) else Reap(View(s, a), Kills(s, e), true),
                      h - Ends(s, e), u - Ends(s, e), lost + |h * Ends(s, e)|, m)
  {
    hide Accounted, Reap, Below;
    ReapAccounted(View(s, a), Kills(s, e), Ends(s, e), h, u, lost, m);
    NobodyReaped(View(s, a));
  }

  lemma NobodyReaped(sem: Sem<Pcb>)
    ensures Reap(sem, {}, true) == sem
  {
    MinusNone(sem.queue, {});
  }

  lemma KillConserves(sem: Sem<Pcb>, d: set<Pcb>)
    requires |sem.queue| == Max0(-sem.value)
    ensures Max0(Reap(sem, d, true).value) == Max0(sem.value)
  {
    MinusElements(sem.queue, d);
  }

  lemma OnTarget(s: State, e: Event, a: int)
    requires Enabled(s, e) && a in s.mem && (e == Verhogen(a) || e == Passeren(a))
    ensures a == Target(s, e) && Ends(s, e) == {} && s.running != null
  {
  }

  lemma OffTarget(s: State, e: Event, a: int)
    requires Enabled(s, e) && UserSem(s, a) && LegalAddress(a) && e != Verhogen(a) && e != Passeren(a)
    ensures a != Target(s, e)
    ensures Kills(s, e) <= Ends(s, e)
    ensures e.Passeren? || e.Verhogen? ==> Ends(s, e) == {}
  {
    if e.WaitDevice? || e.DeviceInterrupt? {
      ClockIsLast(s.base, e.line, e.dev, e.read);
    }
  }

  lemma QueueDistinct(s: State, a: int)
    requires Inv(s)
    ensures NoDup(Queue(s, a))
    ensures Queue(s, a) != [] ==> forall p | p in Queue(s, a)[1..] :: p != Queue(s, a)[0] && p in Queue(s, a)
    ensures s.running != null ==> s.running !in Queue(s, a)
  {
    QueueFacts(s.queues, s.semAdd, a);
  }

  // ---------- whole runs ----------

  ghost function Holders(r: Run, a: int, i: nat): set<Pcb>
    requires IsRun(r) && i <= |r.events| && a in r.boot.mem
  {
    if i == 0 then {} else
      assert a in r.states[i - 1].mem by { MemoryKept(r, a, 0, i - 1); }
      HoldersAfter(r.states[i - 1], r.events[i - 1], a, Holders(r, a, i - 1))
  }

  ghost function Issued(r: Run, a: int, i: nat): set<Pcb>
    requires IsRun(r) && i <= |r.events|
  {
    if i == 0 then {} else IssuedAfter(r.states[i - 1], r.events[i - 1], a, Issued(r, a, i - 1))
  }

  ghost function Lost(r: Run, a: int, i: nat): nat
    requires IsRun(r) && i <= |r.events| && a in r.boot.mem
  {
    if i == 0 then 0 else Lost(r, a, i - 1) + |Holders(r, a, i - 1) * Ends(r.states[i - 1], r.events[i - 1])|
  }

  lemma {:induction false} AccountedAlways(r: Run, a: int, i: nat)
    requires IsRun(r) && i <= |r.events| && UserSem(r.boot, a)
    requires forall k | 0 <= k < i :: Alternating(r.states[k], r.events[k], a, Issued(r, a, k))
    ensures a in r.states[i].mem && r.states[i].base == r.boot.base && r.boot.mem[a] >= 0
    ensures Accounted(View(r.states[i], a), Holders(r, a, i), Issued(r, a, i), Lost(r, a, i), r.boot.mem[a])
  {
    hide Inv, Enabled, Step, HoldersAfter, IssuedAfter, Alternating, Ends;
    MemoryKept(r, a, 0, i);
    if i > 0 {
      var k := i - 1;
      AccountedAlways(r, a, k);
      StepAt(r, k);
      MutexStep(r.states[k], r.events[k], r.tods[k], a, Holders(r, a, k), Issued(r, a, k), Lost(r, a, k),
                r.boot.mem[a]);
    }
  }

  lemma ReleasedByHolder(r: Run, a: int, k: nat)
    requires IsRun(r) && k < |r.events| && UserSem(r.boot, a)
    requires forall j | 0 <= j <= k :: Alternating(r.states[j], r.events[j], a, Issued(r, a, j))
    ensures r.events[k] == Verhogen(a) ==> r.states[k].running in Holders(r, a, k)
  {
    hide Inv, Enabled, Step, HoldersAfter, IssuedAfter, Alternating, Ends;
    AccountedAlways(r, a, k);
    StepAt(r, k);
    MutexStep(r.states[k], r.events[k], r.tods[k], a, Holders(r, a, k), Issued(r, a, k), Lost(r, a, k),
                r.boot.mem[a]);
  }

  /** In every run in which each process alternates its P's and V's on an ordinary semaphore, V is
      performed only by processes whose P has completed, and no more processes are between a completed P
      and their V than the semaphore started with, kills at any point included. */
  lemma MutualExclusion(r: Run, a: int, i: nat)
    requires IsRun(r) && i <= |r.events| && UserSem(r.boot, a)
    requires forall k | 0 <= k < i :: Alternating(r.states[k], r.events[k], a, Issued(r, a, k))
    ensures a in r.states[i].mem && r.boot.mem[a] >= 0
    ensures Conserved(r.states[i], a, Holders(r, a, i), Lost(r, a, i), r.boot.mem[a])
    ensures |Holders(r, a, i)| <= r.boot.mem[a]
    ensures forall p :: p in Issued(r, a, i) <==> p in Holders(r, a, i) || p in Queue(r.states[i], a)
    ensures forall k | 0 <= k < i && r.events[k] == Verhogen(a) :: r.states[k].running in Holders(r, a, k)
  {
    hide Inv, Enabled, Step, HoldersAfter, IssuedAfter, Alternating;
    AccountedAlways(r, a, i);
    forall k | 0 <= k < i && r.events[k] == Verhogen(a)
      ensures r.states[k].running in Holders(r, a, k)
    {
      ReleasedByHolder(r, a, k);
    }
  }

  // ---------- grants and signals, with no discipline assumed ----------

  /** The step completes a P on a: at once for its caller, or for the waiter that a V wakes. */
  ghost predicate Grants(s: State, e: Event, a: int) {
    a in s.mem && ((e == Passeren(a) && s.mem[a] > 0) || (e == Verhogen(a) && s.mem[a] < 0 && Queue(s, a) != []))
  }

  ghost function Granted(r: Run, a: int, i: nat): nat
    requires IsRun(r) && i <= |r.events|
  {
    if i == 0 then 0 else Granted(r, a, i - 1) + if Grants(r.states[i - 1], r.events[i - 1], a) then 1 else 0
  }

  ghost function Signalled(r: Run, a: int, i: nat): nat
    requires IsRun(r) && i <= |r.events|
  {
    if i == 0 then 0 else Signalled(r, a, i - 1) + if r.events[i - 1] == Verhogen(a) then 1 else 0
  }

  lemma GrantStep(s: State, e: Event, t: Tod, a: int)
    requires Inv(s) && Enabled(s, e) && UserSem(s, a)
    ensures a in Step(s, e, t).mem
    ensures Max0(Step(s, e, t).mem[a]) + (if Grants(s, e, a) then 1 else 0)
      == Max0(s.mem[a]) + if e == Verhogen(a) then 1 else 0
  {
    hide Inv, Enabled, Step, Kills, Reap;
    InWords(s, a);
    ViewStep(s, e, t, a);
    ValuesHold(s, a);
    if e == Verhogen(a) || e == Passeren(a) {
      OnTarget(s, e, a);
    } else {
      OffTarget(s, e, a);
      KillConserves(View(s, a), Kills(s, e));
    }
  }

  /** However an ordinary semaphore is used, the P's completed on it are its initial value and the V's
      performed, less the units still free: no V is lost and no P completes for nothing, kills included. */
  lemma {:induction false} GrantsMatchSignals(r: Run, a: int, i: nat)
    requires IsRun(r) && i <= |r.events| && UserSem(r.boot, a)
    ensures a in r.states[i].mem
    ensures Granted(r, a, i) + Max0(r.states[i].mem[a]) == r.boot.mem[a] + Signalled(r, a, i)
  {
    hide Inv, Enabled, Step, Grants;
    MemoryKept(r, a, 0, i);
    if i > 0 {
      GrantsMatchSignals(r, a, i - 1);
      StepAt(r, i - 1);
      MemoryKept(r, a, 0, i - 1);
      GrantStep(r.states[i - 1], r.events[i - 1], r.tods[i - 1], a);
    }
  }
}
