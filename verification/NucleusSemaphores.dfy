/** What every semaphore promises in every reachable state. */
module NucleusSemaphores {
  import opened Sequences
  import opened ProcessQueues
  import opened ActiveSemaphores
  import opened NucleusSpec
  import opened NucleusInvariant
  import opened NucleusQueues
  import opened NucleusRuns
  import opened NucleusAccounting

  // ---------- ordinary semaphores ----------

  /** As many processes wait on an ordinary semaphore as its value is below zero. */
  lemma WaitersMatchValue(r: Run, i: nat, a: int)
    requires IsRun(r) && i < |r.states| && UserSem(r.states[i], a)
    ensures |Queue(r.states[i], a)| == Max0(-r.states[i].mem[a])
  {
    hide Inv;
    Always(r, i);
    ValuesHold(r.states[i], a);
  }

  /** P blocks the caller behind the earlier waiters exactly when no unit is left; otherwise it runs on
      and nobody moves. */
  lemma PasserenBlocks(r: Run, i: nat, a: int)
    requires IsRun(r) && i < |r.events| && r.events[i] == Passeren(a)
    ensures var s, s', p := r.states[i], r.states[i + 1], r.states[i].running; var q := Queue(s, a);
      && p != null && a in s.mem && a in s'.mem && s'.mem[a] == s.mem[a] - 1
      && (s.mem[a] <= 0 ==> Queue(s', a) == q + [p] && p in s'.semAdd && s'.semAdd[p] == a && s'.running != p)
      && (s.mem[a] > 0 ==> q == [] && s' == s.(mem := s'.mem))
  {
    hide Inv;
    StepAt(r, i);
    ValuesHold(r.states[i], a);
    NextIsAnother(r.states[i]);
  }

  lemma NextIsAnother(s: State)
    requires Inv(s) && s.running != null
    ensures (s.ready != [] ==> s.ready[0] != s.running) && s.running in s.time
  {
    assert s.ready != [] ==> s.ready[0] in s.ready;
  }

  /** No wakeup is lost: V makes the longest waiting process ready whenever one is owed a unit,
      and otherwise nobody was waiting. */
  lemma VerhogenWakes(r: Run, i: nat, a: int)
    requires IsRun(r) && i < |r.events| && r.events[i] == Verhogen(a)
    ensures var s, s' := r.states[i], r.states[i + 1]; var q := Queue(s, a);
      && a in s.mem && a in s'.mem && s'.mem[a] == s.mem[a] + 1 && s'.running == s.running
      && (s.mem[a] < 0 ==> q != [] && s'.ready == s.ready + [q[0]] && Queue(s', a) == q[1..] && q[0] !in s'.semAdd)
      && (s.mem[a] >= 0 ==> q == [] && s'.ready == s.ready && Queue(s', a) == [])
  {
    hide Inv;
    StepAt(r, i);
    ValuesHold(r.states[i], a);
  }

  /** A device interrupt makes the process that has waited longest for that device ready, if one waits;
      an idle processor runs it at once. */
  lemma InterruptWakes(r: Run, i: nat)
    requires IsRun(r) && i < |r.events| && r.events[i].DeviceInterrupt?
    ensures var s, s', e := r.states[i], r.states[i + 1], r.events[i];
      var a := DevAddr(s.base, DevIndex(e.line, e.dev, e.read)); var q := Queue(s, a);
      && a in s.mem && a in s'.mem && s'.mem[a] == s.mem[a] + 1
      && (q != [] ==> Queue(s', a) == q[1..] && s'.softBlockCount == s.softBlockCount - 1)
      && (q == [] ==> s'.queues == s.queues && s'.softBlockCount == s.softBlockCount)
      && (s.running != null ==> s'.running == s.running && s'.ready == s.ready + q[..if q == [] then 0 else 1])
      && (s.running == null ==> s'.running == (if q == [] then null else q[0]) && s'.ready == [])
  {
    hide Inv;
    StepAt(r, i);
    var s, e := r.states[i], r.events[i];
    ClockIsLast(s.base, e.line, e.dev, e.read);
    ValuesHold(s, DevAddr(s.base, DevIndex(e.line, e.dev, e.read)));
    IdleIsEmpty(s, e);
  }

  lemma IdleIsEmpty(s: State, e: Event)
    requires Inv(s) && Enabled(s, e)
    ensures s.running == null ==> s.ready == []
  {
  }

  /** P or V by system call on a word of deviceSema4s keeps softBlockCount right exactly when it neither
      blocks nor wakes anybody; that is why such calls are not part of a run. */
  lemma DeviceByHand(s: State, a: int)
    requires Inv(s) && s.running != null && a in s.mem && IsDev(s.base, a)
    ensures var s1 := Store(s, a, -1); var s' := if s.mem[a] <= 0 then Block(s1, a, s.running) else s1;
      s'.softBlockCount == |Soft(s'.base, s'.semAdd)| <==> s.mem[a] > 0
    ensures Signal(s, a).softBlockCount == |Soft(s.base, Signal(s, a).semAdd)| <==> s.mem[a] >= 0 || Queue(s, a) == []
  {
    hide Soft;
    var p := s.running;
    Counted(s);
    SoftAdd(s.base, s.semAdd, p, a);
    if Queue(s, a) != [] {
      HeadBlocked(s.queues, s.semAdd, a);
      SoftRemove(s.base, s.semAdd, Queue(s, a)[0], a);
    }
  }

  lemma Counted(s: State)
    requires Inv(s) && s.running != null
    ensures s.running !in s.semAdd && s.softBlockCount == |Soft(s.base, s.semAdd)| && BlockedOk(s.queues, s.semAdd)
  {
  }

  // ---------- the pseudo-clock ----------

  /** The clock is never positive, so whoever waits for it is blocked behind the earlier waiters:
      the step never reaches the scheduler with the process in no queue at all. */
  lemma WaitClockAlwaysBlocks(r: Run, i: nat)
    requires IsRun(r) && i < |r.events| && r.events[i].WaitClock?
    ensures var s, s', a := r.states[i], r.states[i + 1], DevAddr(r.states[i].base, CLOCK);
      && a in s.mem && s.mem[a] <= 0 && s.running != null
      && Queue(s', a) == Queue(s, a) + [s.running] && s.running in s'.semAdd && s'.semAdd[s.running] == a
      && s'.softBlockCount == s.softBlockCount + 1
  {
    hide Inv;
    StepAt(r, i);
    ValuesHold(r.states[i], DevAddr(r.states[i].base, CLOCK));
  }

  ghost function Released(s: State): seq<Pcb> {
    s.ready + Queue(s, DevAddr(s.base, CLOCK)) + if s.running == null then [] else [s.running]
  }

  lemma TickSchedules(s: State, t: Tod)
    requires Enabled(s, ClockTick)
    ensures var a := DevAddr(s.base, CLOCK); var woken := set p | p in Queue(s, a);
      Step(s, ClockTick, t) ==
        Schedule(s.(queues := s.queues - {a}, semAdd := s.semAdd - woken, ready := Released(s),
                    softBlockCount := s.softBlockCount - |Queue(s, a)|, mem := s.mem[a := 0]), t.dispatch)
  {
    hide Schedule, Queue, DevAddr;
    assert s.ready + Queue(s, DevAddr(s.base, CLOCK)) + [] == s.ready + Queue(s, DevAddr(s.base, CLOCK));
  }

  /** A tick moves exactly the clock's waiters to the ready queue, in the order in which they blocked. */
  lemma TickReleasesAll(s: State, e: Event, t: Tod)
    requires Enabled(s, e) && e.ClockTick?
    ensures var s', a := Step(s, e, t), DevAddr(s.base, CLOCK);
      var woken := Queue(s, a);
      var line := s.ready + woken + if s.running == null then [] else [s.running];
      && s'.mem == s.mem[a := 0] && Queue(s', a) == []
      && s'.semAdd == s.semAdd - (set p | p in woken) && s'.queues == s.queues - {a}
      && s'.softBlockCount == s.softBlockCount - |woken|
      && (line != [] ==> s'.running == line[0] && s'.ready == line[1..])
      && (line == [] ==> s'.running == null && s'.ready == [])
  {
    hide Step, DevAddr;
    TickSchedules(s, t);
  }

  /** Nothing but a tick or a kill takes a process out of the clock's queue. */
  lemma StaysAsleep(s: State, e: Event, t: Tod, p: Pcb)
    requires Inv(s) && Enabled(s, e) && !e.ClockTick? && p in Queue(s, DevAddr(s.base, CLOCK)) && p !in Kills(s, e)
    ensures p in Queue(Step(s, e, t), DevAddr(s.base, CLOCK))
  {
    hide Inv, Step, Kills;
    var a := DevAddr(s.base, CLOCK);
    ClockLegal(s, e);
    ViewStep(s, e, t, a);
    MinusElements(Queue(s, a), Kills(s, e));
  }

  lemma ClockLegal(s: State, e: Event)
    requires Inv(s) && Enabled(s, e)
    ensures DevAddr(s.base, CLOCK) in s.mem && LegalAddress(DevAddr(s.base, CLOCK))
    ensures e.WaitDevice? || e.DeviceInterrupt? || e.Passeren? || e.Verhogen? ==> Target(s, e) != DevAddr(s.base, CLOCK)
  {
    InWords(s, DevAddr(s.base, CLOCK));
    if e.WaitDevice? || e.DeviceInterrupt? {
      ClockIsLast(s.base, e.line, e.dev, e.read);
    }
  }

  lemma TickPlaces(ready: seq<Pcb>, w: seq<Pcb>, last: seq<Pcb>, p: Pcb)
    requires p in w
    ensures var line := ready + w + last;
      && line != [] && (line[0] == p || p in line[1..])
      && forall k | 0 <= k < |w| && w[k] == p ::
           if |ready| + k == 0 then line[0] == p
           else |ready| + k - 1 < |line[1..]| && line[1..][|ready| + k - 1] == p
  {
    var line := ready + w + last;
    var k :| 0 <= k < |w| && w[k] == p;
    assert line[|ready| + k] == p;
    assert forall j | 0 <= j < |w| :: line[|ready| + j] == w[j];
  }

  /** A process that waits for the clock is released by the very next tick, unless it is killed first:
      then it runs, or is ready behind exactly those that were ready or had waited longer. */
  lemma {:induction false} SleeperWakes(r: Run, i: nat, j: nat, p: Pcb)
    requires IsRun(r) && i <= j < |r.events|
    requires p in Queue(r.states[i], DevAddr(r.states[i].base, CLOCK)) && r.events[j].ClockTick?
    requires forall k | i <= k < j :: !r.events[k].ClockTick? && p !in Kills(r.states[k], r.events[k])
    ensures var s, s' := r.states[j], r.states[j + 1]; var w := Queue(s, DevAddr(s.base, CLOCK));
      && p in w && p !in s'.semAdd
      && (s'.running == p || p in s'.ready)
      && forall k | 0 <= k < |w| && w[k] == p ::
           if |s.ready| + k == 0 then s'.running == p
           else |s.ready| + k - 1 < |s'.ready| && s'.ready[|s.ready| + k - 1] == p
    decreases j - i
  {
    hide Inv, Step, Enabled, Kills;
    StepAt(r, i);
    if i < j {
      StaysAsleep(r.states[i], r.events[i], r.tods[i], p);
      SameBase(r.states[i], r.events[i], r.tods[i]);
      SleeperWakes(r, i + 1, j, p);
    } else {
      var s, s' := r.states[i], r.states[i + 1];
      TickReleasesAll(s, r.events[i], r.tods[i]);
      TickPlaces(s.ready, Queue(s, DevAddr(s.base, CLOCK)), if s.running == null then [] else [s.running], p);
    }
  }

  // ---------- the device table ----------

  /** Waiting and interrupting agree on one semaphore per device, and none of them is the clock. */
  lemma DeviceIndexInjective(base: int, l: int, d: int, w: bool, l': int, d': int, w': bool)
    requires DeviceRequest(l, d, w) && DeviceRequest(l', d', w')
    ensures DevAddr(base, 0) <= DevAddr(base, DevIndex(l, d, w)) < DevAddr(base, CLOCK)
    ensures DevAddr(base, DevIndex(l, d, w)) == DevAddr(base, DevIndex(l', d', w')) <==> (l, d, w) == (l', d', w')
  {
  }

  /** The interrupt of the first device pending on a line reaches the semaphore on which that device's
      requests wait if and only if the device is neither number 1 nor number 2; those two are exchanged. */
  lemma InterruptReachesItsDevice(base: int, l: int, bits: set<int>, k: int, w: bool)
    requires 3 <= l <= 7 && (w ==> l == 7) && 0 <= k <= 7 && k in bits && forall j | j in bits :: k <= j
    ensures DeviceRequest(l, DecodedDevice(bits), w)
    ensures DevAddr(base, DevIndex(l, DecodedDevice(bits), w)) == DevAddr(base, DevIndex(l, k, w)) <==> k !in {1, 2}
    ensures k in {1, 2} ==> DecodedDevice(bits) == 3 - k
  {
    assert forall j | 0 <= j < k :: j !in bits;
  }

  /** Every semaphore of the table but the clock belongs to a device. */
  lemma DeviceIndexOnto(k: int) returns (l: int, d: int, w: bool)
    requires 0 <= k < CLOCK
    ensures DeviceRequest(l, d, w) && DevIndex(l, d, w) == k
  {
    w := k >= 40;
    l, d := if w then 7 else 3 + k / 8, if w then k - 40 else k % 8;
  }

  // ---------- descriptors ----------

  /** The semaphores on which somebody waits. */
  ghost function Named<K>(semAdd: map<K, int>): set<int> {
    set p | p in semAdd :: semAdd[p]
  }

  lemma {:induction false} NamedSize<K>(m: map<K, int>)
    ensures |Named(m)| <= |m|
  {
    var keys := m.Keys;
    if keys == {} {
      assert Named(m) == {};
    } else {
      var k :| k in keys;
      var m' := m - {k};
      assert m'.Keys == keys - {k};
      NamedSize(m');
      NamedBut(m, k);
      FewerElements(Named(m), Named(m') + {m[k]});
    }
  }

  lemma NamedBut<K>(m: map<K, int>, k: K)
    requires k in m
    ensures Named(m) <= Named(m - {k}) + {m[k]}
  {
    forall a | a in Named(m) && a != m[k]
      ensures a in Named(m - {k})
    {
      var p :| p in m && m[p] == a;
      assert p in m - {k} && (m - {k})[p] == a;
    }
  }

  lemma {:induction false} FewerElements<T>(a: set<T>, b: set<T>)
    requires a <= b
    ensures |a| <= |b|
  {
    assert b == a + (b - a);
  }

  lemma HeadNamesQueue(queues: map<int, seq<Pcb>>, semAdd: map<Pcb, int>, a: int)
    requires BlockedOk(queues, semAdd) && a in queues
    ensures a in Named(semAdd)
  {
    assert QueueOf(semAdd, a, queues[a]);
    var p := queues[a][0];
    assert p in queues[a];
    assert p in semAdd && semAdd[p] == a;
  }

  lemma FewerQueuesThanWaiters(queues: map<int, seq<Pcb>>, semAdd: map<Pcb, int>)
    requires BlockedOk(queues, semAdd)
    ensures |queues| <= |semAdd|
  {
    hide BlockedOk, Named;
    forall a | a in queues
      ensures a in Named(semAdd)
    {
      HeadNamesQueue(queues, semAdd, a);
    }
    NamedSize(semAdd);
    FewerElements(queues.Keys, Named(semAdd));
  }

  lemma WaitersInTable(s: State)
    requires Inv(s) && s.running != null
    ensures s.semAdd.Keys + {s.running} <= s.procs && s.running !in s.semAdd && BlockedOk(s.queues, s.semAdd)
  {
    assert s.running in s.procs && s.running !in s.semAdd;
  }

  /** While a process runs, fewer semaphores have waiters than there are descriptors, so the next
      process to block finds a descriptor. */
  lemma DescriptorLeft(s: State)
    requires Inv(s) && s.running != null
    ensures |s.queues| < |s.procs|
  {
    hide Inv, BlockedOk;
    var p := s.running;
    WaitersInTable(s);
    FewerQueuesThanWaiters(s.queues, s.semAdd);
    FewerElements(s.semAdd.Keys + {p}, s.procs);
    assert |s.semAdd.Keys + {p}| == |s.semAdd.Keys| + 1;
  }
}
