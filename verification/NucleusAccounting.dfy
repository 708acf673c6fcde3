/** What the nucleus adds up over a run: CPU time, and the claims left on device semaphores. */
module NucleusAccounting {
  import opened Sequences
  import opened ProcessQueues
  import opened ActiveSemaphores
  import opened NucleusSpec
  import opened NucleusInvariant
  import opened NucleusQueues
  import opened NucleusRuns
  import opened Semaphores

  // ---------- CPU time ----------

  datatype Interval = Interval(from: int, to: int)

  /** The interval, if any, that a step adds to the p_time of the running process. */
  ghost function Charged(s: State, e: Event, t: Tod): seq<Interval>
    requires Enabled(s, e)
  {
    if e.WaitClock?
      || (e.TimeSlice? && s.running != null)
      || (e.WaitDevice? && s.mem[DevAddr(s.base, DevIndex(e.line, e.dev, e.read))] <= 0)
    then [Interval(s.startTod, t.stop)] else []
  }

  ghost function Total(c: seq<Interval>): int {
    if c == [] then 0 else Total(c[..|c| - 1]) + c[|c| - 1].to - c[|c| - 1].from
  }

  lemma DeviceWord(s: State, e: Event)
    requires Enabled(s, e) && (e.WaitDevice? || e.DeviceInterrupt?)
    ensures DevAddr(s.base, DevIndex(e.line, e.dev, e.read)) in s.mem
  {
    ClockIsLast(s.base, e.line, e.dev, e.read);
  }

  /** Killing, waking and blocking are not timed. */
  ghost predicate SameTimes(s: State, s': State) {
    && s'.time == s.time && s'.startTod == s.startTod && s'.running == s.running
    && s'.base == s.base && s'.procs == s.procs && s'.root == s.root
  }

  lemma Untimed(s: State, a: int)
    requires a in s.mem
    ensures SameTimes(s, Signal(s, a)) && SameTimes(s, WakeAll(s, a))
  {
  }

  lemma UntimedKill(s: State, d: set<Pcb>)
    ensures SameTimes(s, Kill(s, d))
  {
  }

  lemma HandleTimes(s: State, e: Event, t: Tod)
    requires Enabled(s, e)
    ensures var (mid, resched) := Handle(s, e, t);
      && (mid.startTod == s.startTod || mid.startTod == t.restart)
      && (Charged(s, e, t) != [] ==> resched && s.running != null)
      && (!resched ==> mid.startTod == s.startTod && mid.running == s.running)
  {
    hide Signal, Kill, WakeAll, Queue, DevIndex, Below;
    if e.DeviceInterrupt? {
      DeviceWord(s, e);
    }
    if Target(s, e) in s.mem {
      Untimed(s, Target(s, e));
    }
    if s.running != null {
      UntimedKill(s, Below(s, s.running));
    }
  }

  lemma HandleTime(s: State, e: Event, t: Tod)
    requires Enabled(s, e)
    ensures Handle(s, e, t).0.time ==
      if e.Create? && e.child != null then s.time[e.child := 0]
      else if Charged(s, e, t) != [] then s.time[s.running := s.time[s.running] + t.stop - s.startTod]
      else s.time
  {
    hide Signal, Kill, WakeAll, Queue, DevIndex, Below;
    if e.DeviceInterrupt? {
      DeviceWord(s, e);
    }
    if Target(s, e) in s.mem {
      Untimed(s, Target(s, e));
    }
    if s.running != null {
      UntimedKill(s, Below(s, s.running));
    }
  }

  /** p_time changes by exactly what is charged, and only creation resets it. */
  lemma TimeIsCharged(s: State, e: Event, t: Tod, p: Pcb)
    requires Enabled(s, e) && p in s.time
    ensures var s' := Step(s, e, t);
      && p in s'.time
      && s'.time[p] ==
        if e.Create? && p == e.child then 0
        else if p == s.running then s.time[p] + Total(Charged(s, e, t))
        else s.time[p]
  {
    hide Handle;
    HandleTimes(s, e, t);
    HandleTime(s, e, t);
    assert Charged(s, e, t) != [] ==> Charged(s, e, t)[..0] == [];
  }

  /** The readings of the time-of-day clock never decrease. */
  ghost predicate ClockMonotone(r: Run)
    requires IsRun(r)
  {
    && r.boot.startTod <= r.bootTod
    && forall i | 0 <= i < |r.tods| ::
      Latest(r, i) <= r.tods[i].stop <= r.tods[i].restart <= r.tods[i].dispatch
  }

  /** The last reading taken before state i. */
  ghost function Latest(r: Run, i: nat): int
    requires i <= |r.tods|
  {
    if i == 0 then r.bootTod else r.tods[i - 1].dispatch
  }

  ghost function ChargesUpTo(r: Run, i: nat): seq<Interval>
    requires IsRun(r) && i <= |r.events|
  {
    if i == 0 then [] else
      assert Next(r, i - 1);
      ChargesUpTo(r, i - 1) + Charged(r.states[i - 1], r.events[i - 1], r.tods[i - 1])
  }

  /** Proper intervals, one after the other, between lo and hi. */
  ghost predicate Successive(c: seq<Interval>, lo: int, hi: int) {
    && (forall k | 0 <= k < |c| :: lo <= c[k].from <= c[k].to <= hi)
    && (forall j, k | 0 <= j < k < |c| :: c[j].to <= c[k].from)
  }

  lemma {:induction false} TotalBounded(c: seq<Interval>, lo: int, hi: int)
    requires Successive(c, lo, hi) && lo <= hi
    ensures Total(c) <= hi - lo
  {
    if c != [] {
      var last := c[|c| - 1];
      assert forall j | 0 <= j < |c| - 1 :: c[j].to <= last.from;
      TotalBounded(c[..|c| - 1], lo, last.from);
    }
  }

  /** A running process is charged from its dispatch on, so no instant is charged twice. */
  lemma StepCharges(s: State, e: Event, t: Tod, c: seq<Interval>, lo: int, now: int)
    requires Inv(s) && Enabled(s, e) && now <= t.stop <= t.restart <= t.dispatch
    requires Successive(c, lo, now) && lo <= s.startTod <= now
    requires s.running != null ==> Successive(c, lo, s.startTod)
    ensures var s', c' := Step(s, e, t), c + Charged(s, e, t);
      && Successive(c', lo, t.dispatch) && lo <= s'.startTod <= t.dispatch
      && (s'.running != null ==> Successive(c', lo, s'.startTod))
  {
    hide Inv, Enabled, Handle, Core;
    HandleTimes(s, e, t);
    HandleOk(s, e, t);
  }

  /** The intervals charged over a whole run never overlap, and add up to no more than the time since boot. */
  lemma {:induction false} NeverChargedTwice(r: Run, i: nat)
    requires IsRun(r) && ClockMonotone(r) && i <= |r.events|
    ensures Successive(ChargesUpTo(r, i), r.boot.startTod, Latest(r, i))
    ensures Total(ChargesUpTo(r, i)) <= Latest(r, i) - r.boot.startTod
  {
    ChargedSoFar(r, i);
    TotalBounded(ChargesUpTo(r, i), r.boot.startTod, Latest(r, i));
  }

  lemma {:induction false} ChargedSoFar(r: Run, i: nat)
    requires IsRun(r) && ClockMonotone(r) && i <= |r.events|
    ensures var c, s := ChargesUpTo(r, i), r.states[i];
      && Successive(c, r.boot.startTod, Latest(r, i))
      && r.boot.startTod <= s.startTod <= Latest(r, i)
      && (s.running != null ==> Successive(c, r.boot.startTod, s.startTod))
  {
    hide Inv, Enabled, Step, Successive, Charged;
    if i == 0 {
      NothingCharged(r);
    } else {
      ChargedSoFar(r, i - 1);
      StepAt(r, i - 1);
      var k := i - 1;
      StepCharges(r.states[k], r.events[k], r.tods[k], ChargesUpTo(r, k), r.boot.startTod, Latest(r, k));
    }
  }

  lemma NothingCharged(r: Run)
    requires IsRun(r) && ClockMonotone(r)
    ensures Successive([], r.boot.startTod, r.bootTod) && Successive([], r.boot.startTod, r.states[0].startTod)
    ensures r.boot.startTod <= r.states[0].startTod <= r.bootTod
  {
  }

  /** What p has been charged up to state i, since it was last created. */
  ghost function ChargedTo(r: Run, p: Pcb, i: nat): int
    requires IsRun(r) && i <= |r.events|
  {
    if i == 0 then 0 else
      assert Next(r, i - 1);
      var s, e := r.states[i - 1], r.events[i - 1];
      if e.Create? && e.child == p then 0
      else ChargedTo(r, p, i - 1) + if s.running == p then Total(Charged(s, e, r.tods[i - 1])) else 0
  }

  /** In every state p_time is the sum of the intervals charged to that pcb since it was last created. */
  lemma {:induction false} TimeIsSum(r: Run, p: Pcb, i: nat)
    requires IsRun(r) && i <= |r.events| && p in r.boot.procs
    ensures p in r.states[i].time && r.states[i].time[p] == ChargedTo(r, p, i)
  {
    hide Inv, Enabled, Step, Charged;
    if i > 0 {
      TimeIsSum(r, p, i - 1);
      StepAt(r, i - 1);
      TimeIsCharged(r.states[i - 1], r.events[i - 1], r.tods[i - 1], p);
    }
  }

  lemma TotalAppend(c: seq<Interval>, d: seq<Interval>)
    requires |d| <= 1
    ensures Total(c + d) == Total(c) + Total(d)
  {
    if d == [] {
      assert c + d == c;
    } else {
      assert (c + d)[..|c|] == c && d[..0] == [];
    }
  }

  lemma AtMostOne(s: State, e: Event, t: Tod)
    requires Enabled(s, e)
    ensures |Charged(s, e, t)| <= 1
  {
  }

  lemma NonNegative(c: seq<Interval>, d: seq<Interval>, lo: int, hi: int)
    requires Successive(c + d, lo, hi) && |d| <= 1
    ensures Total(d) >= 0
  {
    if d != [] {
      assert (c + d)[|c|] == d[0] && d[..0] == [];
    }
  }

  lemma {:induction false} SharesTotal(r: Run, p: Pcb, i: nat)
    requires IsRun(r) && ClockMonotone(r) && i <= |r.events|
    ensures 0 <= ChargedTo(r, p, i) <= Total(ChargesUpTo(r, i))
  {
    hide Inv, Enabled, Step, Charged, Successive, Total, Latest;
    if i == 0 {
      NothingTotal();
    } else {
      SharesTotal(r, p, i - 1);
      StepAt(r, i - 1);
      var s, e, t := r.states[i - 1], r.events[i - 1], r.tods[i - 1];
      ChargedSoFar(r, i);
      AtMostOne(s, e, t);
      TotalAppend(ChargesUpTo(r, i - 1), Charged(s, e, t));
      NonNegative(ChargesUpTo(r, i - 1), Charged(s, e, t), r.boot.startTod, Latest(r, i));
    }
  }

  lemma NothingTotal()
    ensures Total([]) == 0
  {
  }

  /** No process is ever credited with more CPU time than has passed since boot. */
  lemma TimeWithinElapsed(r: Run, p: Pcb, i: nat)
    requires IsRun(r) && ClockMonotone(r) && i <= |r.events| && p in r.boot.procs
    ensures p in r.states[i].time && 0 <= r.states[i].time[p] <= Latest(r, i) - r.boot.startTod
  {
    TimeIsSum(r, p, i);
    SharesTotal(r, p, i);
    NeverChargedTwice(r, i);
  }

  // ---------- device semaphores ----------

  /** Claims on a semaphore that nobody waits to collect. */
  ghost function Gap(sem: Sem<Pcb>): int {
    Max0(-sem.value) - |sem.queue|
  }

  ghost function WaitersKilled(s: State, e: Event, a: int): int {
    |Queue(s, a)| - |Minus(Queue(s, a), Kills(s, e))|
  }

  /** An interrupt that leaves the value at or below zero but finds nobody to wake. */
  ghost predicate FindsNobody(s: State, e: Event, a: int) {
    e.DeviceInterrupt? && a == Target(s, e) && a in s.mem && s.mem[a] + 1 <= 0 && Queue(s, a) == []
  }

  ghost function KilledSoFar(r: Run, a: int, i: nat): int
    requires IsRun(r) && i <= |r.events|
  {
    if i == 0 then 0 else KilledSoFar(r, a, i - 1) + WaitersKilled(r.states[i - 1], r.events[i - 1], a)
  }

  ghost function UnclaimedSoFar(r: Run, a: int, i: nat): int
    requires IsRun(r) && i <= |r.events|
  {
    if i == 0 then 0 else
      UnclaimedSoFar(r, a, i - 1) + if FindsNobody(r.states[i - 1], r.events[i - 1], a) then 1 else 0
  }

  lemma NobodyKilled(s: State, e: Event, a: int)
    requires Kills(s, e) == {}
    ensures WaitersKilled(s, e, a) == 0
  {
    MinusNone(Queue(s, a), {});
  }

  lemma OnlyInterruptsSignal(s: State, e: Event, a: int)
    requires Enabled(s, e) && LegalAddress(a) && IsDev(s.base, a) && a != DevAddr(s.base, CLOCK) && a == Target(s, e)
    ensures (e.WaitDevice? || e.DeviceInterrupt?) && Kills(s, e) == {}
  {
  }

  lemma GapStep(s: State, e: Event, t: Tod, a: int)
    requires Inv(s) && Enabled(s, e) && a in s.mem && IsDev(s.base, a) && a != DevAddr(s.base, CLOCK)
    ensures var s' := Step(s, e, t);
      && a in s'.mem
      && Gap(View(s', a)) == Gap(View(s, a)) + WaitersKilled(s, e, a) - if FindsNobody(s, e, a) then 1 else 0
  {
    hide Inv, Enabled, Step, Kills, Target;
    InWords(s, a);
    ViewStep(s, e, t, a);
    ValuesHold(s, a);
    if a == Target(s, e) {
      OnlyInterruptsSignal(s, e, a);
    }
    if Kills(s, e) == {} {
      NobodyKilled(s, e, a);
    }
  }

  lemma ValuesHold(s: State, a: int)
    requires Inv(s) && a in s.mem
    ensures ValueOk(s.base, a, s.mem[a], |Queue(s, a)|)
  {
    ValueAt(s.mem, s.base, s.queues, a);
  }

  /** A device semaphore's unmet claims are its killed waiters less the interrupts that found nobody. */
  lemma {:induction false} DeviceGap(r: Run, a: int, i: nat)
    requires IsRun(r) && i <= |r.events|
    requires a in r.boot.mem && IsDev(r.boot.base, a) && a != DevAddr(r.boot.base, CLOCK)
    ensures var s := r.states[i];
      && a in s.mem && s.base == r.boot.base
      && Gap(View(s, a)) == KilledSoFar(r, a, i) - UnclaimedSoFar(r, a, i)
      && Gap(View(s, a)) >= 0
  {
    hide Inv, Enabled, Step, FindsNobody, WaitersKilled;
    if i == 0 {
    } else {
      DeviceGap(r, a, i - 1);
      StepAt(r, i - 1);
      var k := i - 1;
      GapStep(r.states[k], r.events[k], r.tods[k], a);
      SameBase(r.states[k], r.events[k], r.tods[k]);
    }
    Always(r, i);
    ValuesHold(r.states[i], a);
  }

  lemma SameBase(s: State, e: Event, t: Tod)
    requires Enabled(s, e)
    ensures Step(s, e, t).base == s.base && Step(s, e, t).procs == s.procs && Step(s, e, t).root == s.root
  {
    hide Handle;
    HandleFixed(s, e, t);
  }

  lemma HandleFixed(s: State, e: Event, t: Tod)
    requires Enabled(s, e)
    ensures var s' := Handle(s, e, t).0; s'.base == s.base && s'.procs == s.procs && s'.root == s.root
  {
    hide Signal, Kill, WakeAll, Queue, DevIndex, Below;
    if e.DeviceInterrupt? {
      DeviceWord(s, e);
    }
    if Target(s, e) in s.mem {
      Untimed(s, Target(s, e));
    }
    if s.running != null {
      UntimedKill(s, Below(s, s.running));
    }
  }

  /** No word of memory comes or goes, and deviceSema4s stays where it is. */
  lemma {:induction false} MemoryKept(r: Run, a: int, i: nat, j: nat)
    requires IsRun(r) && i <= j < |r.states| && a in r.states[i].mem
    ensures a in r.states[j].mem && r.states[j].base == r.states[i].base
    decreases j - i
  {
    hide Enabled, Step, Inv;
    if i < j {
      StepAt(r, i);
      InWords(r.states[i], a);
      ViewStep(r.states[i], r.events[i], r.tods[i], a);
      SameBase(r.states[i], r.events[i], r.tods[i]);
      MemoryKept(r, a, i + 1, j);
    }
  }
}
