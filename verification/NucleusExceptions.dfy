/** Exceptions: which step of the nucleus each one is, and what it does to whoever is involved. */
module NucleusExceptions {
  import opened Sequences
  import opened ProcessQueues
  import opened ProcessTree
  import opened NucleusSpec
  import opened NucleusInvariant
  import opened NucleusQueues
  import opened NucleusRuns
  import opened NucleusAccounting
  import opened NucleusSemaphores
  import opened NucleusFamily

  /** The cause code, the pending interrupt lines, the devices pending on the line served, the transmitter
      status of a terminal, and the system call registers. */
  datatype Exception = Exception(excCode: nat, pending: set<int>, devices: set<int>, transmStatus: int,
                                 code: int, user: bool, a1: int, a2: int, a3: int)

  /** The line interruptHandler serves, 0 if none: timers first, and network before flash. */
  function FirstLine(pending: set<int>): int {
    if 1 in pending then 1 else if 2 in pending then 2 else if 3 in pending then 3
    else if 5 in pending then 5 else if 4 in pending then 4 else if 6 in pending then 6
    else if 7 in pending then 7 else 0
  }

  ghost function EventOf(x: Exception, c: Pcb?): Event {
    if x.excCode == 0 then
      var line := FirstLine(x.pending);
      if line == 0 then Trap else if line == 1 then TimeSlice else if line == 2 then ClockTick
      else DeviceInterrupt(line, DecodedDevice(x.devices), line == 7 && x.transmStatus == READY)
    else if x.excCode == 8 then SyscallEvent(x, c)
    else Trap
  }

  /** c is the pcb that a creation would take. */
  ghost function SyscallEvent(x: Exception, c: Pcb?): Event {
    if x.user && x.code <= 8 then Trap
    else match x.code
      case 1 => Create(c, x.a2 != NULLADDR)
      case 2 => Event.Terminate
      case 3 => Event.Passeren(x.a1)
      case 4 => Event.Verhogen(x.a1)
      case 5 => WaitDevice(x.a1, x.a2, x.a3 == 1)
      case 6 => Resume
      case 7 => Event.WaitClock
      case 8 => Resume
      case _ => Trap
  }

  // ---------- what may happen to the processes ----------

  /** The process that runs, then those that are ready. */
  ghost function Order(s: State): seq<Pcb> {
    (if s.running == null then [] else [s.running]) + s.ready
  }

  /** The running process has ended: its descendants are free, and every other process lives on. */
  ghost predicate Ends(s: State, s': State) {
    && s.running != null
    && s'.free == s.free + Below(s, s.running)
    && !Live(s'.ready, s'.semAdd, s'.running, s.running)
    && forall p | p in s.procs && p != s.running ::
         Live(s'.ready, s'.semAdd, s'.running, p) <==>
         Live(s.ready, s.semAdd, s.running, p) && p !in Below(s, s.running)
  }

  /** Without a support structure the running process dies; with one nothing changes here. */
  ghost predicate PassedUpOrDied(s: State, s': State) {
    s.running != null && if s.running in s.support then s' == s else Ends(s, s')
  }

  /** c, the youngest child of the running process, is ready, and has a support structure if sup says so. */
  ghost predicate Adopts(s: State, s': State, c: Pcb, sup: bool) {
    && s.running != null && s'.running == s.running && c in s.free
    && s'.free == s.free - {c} && s'.ready == s.ready + [c] && s'.mem == s.mem && s'.queues == s.queues
    && KidsOf(s'.tree, s.running) == Cons(c, Nil, KidsOf(s.tree, s.running)) && KidsOf(s'.tree, c) == Nil
    && c in s'.time && s'.time[c] == 0
    && (c in s'.support <==> sup) && s'.support - {c} == s.support - {c}
  }

  /** The word at a falls by one; a running process that finds no unit waits there behind the others, charged
      since its dispatch if charge says so, and the next ready process runs from t.dispatch on. */
  ghost predicate Lowers(s: State, s': State, a: int, charge: bool, t: Tod) {
    && s.running != null && a in s.mem && s'.mem == s.mem[a := s.mem[a] - 1]
    && (s.mem[a] > 0 ==> s' == s.(mem := s'.mem))
    && (s.mem[a] <= 0 ==>
          && Queue(s', a) == Queue(s, a) + [s.running] && s'.running != s.running && Order(s') == s.ready
          && (s.ready != [] ==> s'.running == s.ready[0] && s'.startTod == t.dispatch)
          && s.running in s.time
          && s'.time == s.time[s.running := s.time[s.running] + if charge then t.stop - s.startTod else 0])
  }

  /** The word at a rises by one, and the process that has waited there longest joins the ready queue. */
  ghost predicate Raises(s: State, s': State, a: int) {
    && a in s.mem && s'.mem == s.mem[a := s.mem[a] + 1]
    && (Queue(s, a) == [] ==> s'.queues == s.queues && Order(s') == Order(s))
    && (Queue(s, a) != [] ==>
          && Queue(s', a) == Queue(s, a)[1..] && Queue(s, a)[0] !in s'.semAdd
          && Order(s') == Order(s) + [Queue(s, a)[0]])
  }

  /** The running process, charged since its dispatch, goes behind the ready ones, and the first of them all
      runs from t.dispatch on. */
  ghost predicate SliceEnds(s: State, s': State, t: Tod) {
    && s'.mem == s.mem && s'.queues == s.queues
    && (s.running == null ==> s'.time == s.time && Order(s') == s.ready)
    && (s'.running == null ==> s'.startTod == t.restart)
    && (s.running != null ==>
          && s.running in s.time && s'.time == s.time[s.running := s.time[s.running] + t.stop - s.startTod]
          && Order(s') == s.ready + [s.running] && s'.startTod == t.dispatch)
  }

  /** The clock's word is zero, and nobody waits for it. */
  ghost predicate Ticks(s: State, s': State) {
    var a := s.base + 4 * 48;
    && s'.mem == s.mem[a := 0] && s'.queues == s.queues - {a}
    && Order(s') == s.ready + Queue(s, a) + if s.running == null then [] else [s.running]
  }

  // ---------- interrupts ----------

  /** Of the lines below the timers, l is the first pending one in the order 3, 5, 4, 6, 7. */
  ghost predicate ServedNext(pending: set<int>, l: int) {
    l in pending && match l
      case 3 => true
      case 5 => 3 !in pending
      case 4 => 3 !in pending && 5 !in pending
      case 6 => 3 !in pending && 5 !in pending && 4 !in pending
      case 7 => 3 !in pending && 5 !in pending && 4 !in pending && 6 !in pending
      case _ => false
  }

  /** d is the number of the first pending device, 7 if none of the others is, but 1 and 2 are exchanged. */
  ghost predicate Decoded(devices: set<int>, d: int) {
    var k := if d == 1 then 2 else if d == 2 then 1 else d;
    0 <= k <= 7 && (k in devices || k == 7) && forall j | 0 <= j < k :: j !in devices
  }

  /** V on the semaphore on which requests to device d of line l wait: the receiver's, if the line is that of
      the terminals and the transmitter is ready, which is status 1. */
  ghost predicate Signals(s: State, s': State, l: int, d: int, status: int) {
    var w := l == 7 && status == 1;
    var a := s.base + 4 * ((l - 3) * 8 + d + if w then 8 else 0);
    && a == Target(s, WaitDevice(l, d, w)) && Raises(s, s', a)
    && s'.softBlockCount == s.softBlockCount - if Queue(s, a) == [] then 0 else 1
  }

  ghost predicate Interrupted(s: State, s': State, x: Exception, t: Tod) {
    if 1 in x.pending then SliceEnds(s, s', t)
    else if 2 in x.pending then Ticks(s, s')
    else if x.pending !! {3, 4, 5, 6, 7} then PassedUpOrDied(s, s')
    else exists l, d :: ServedNext(x.pending, l) && Decoded(x.devices, d) && Signals(s, s', l, d, x.transmStatus)
  }

  // ---------- system calls ----------

  /** What each number does, for a caller in kernel mode; c is the pcb a creation would take. */
  ghost predicate Called(s: State, s': State, x: Exception, c: Pcb?, t: Tod) {
    if x.user || x.code < 1 || x.code > 8 then PassedUpOrDied(s, s')
    else match x.code
      case 1 => if c == null then s.free == {} && s' == s else Adopts(s, s', c, x.a2 != 0xFFFF_FFFF)
      case 2 => Ends(s, s')
      case 3 => Lowers(s, s', x.a1, false, t)
      case 4 => Raises(s, s', x.a1) && (Queue(s, x.a1) != [] <==> s.mem[x.a1] < 0)
      case 5 => Lowers(s, s', s.base + 4 * ((x.a1 - 3) * 8 + x.a2 + if x.a3 == 1 then 8 else 0), true, t)
      case 7 =>
        && Lowers(s, s', s.base + 4 * 48, true, t) && s'.running != s.running
        && (s'.running == null ==> s'.startTod == t.restart)
      case _ => s' == s
  }

  ghost predicate Served(s: State, s': State, x: Exception, c: Pcb?, t: Tod) {
    if x.excCode == 0 then Interrupted(s, s', x, t)
    else if x.excCode == 8 then Called(s, s', x, c, t)
    else PassedUpOrDied(s, s')
  }

  // ---------- which exceptions are served ----------

  /** Some interrupt line is pending, a timer's or a device's. */
  ghost predicate Pending(pending: set<int>) {
    !(pending !! {1, 2, 3, 4, 5, 6, 7})
  }

  /** What a system call's arguments must be: P and V take a word of memory outside deviceSema4s, and a device
      request a line, a device of it, and the receiving direction only of a terminal. */
  ghost predicate Acceptable(s: State, x: Exception) {
    !x.user ==>
      && (x.code == 3 || x.code == 4 ==> x.a1 in s.mem && !(s.base <= x.a1 <= s.base + 4 * 48))
      && (x.code == 5 ==> 3 <= x.a1 <= 7 && 0 <= x.a2 <= 7 && (x.a3 == 1 ==> x.a1 == 7))
  }

  /** In every reachable state an interrupt is served unless the machine has stopped, and any other exception
      unless nobody runs or a system call has arguments that the specification does not cover. */
  lemma ServedExactlyWhen(r: Run, i: nat, x: Exception, c: Pcb?)
    requires IsRun(r) && i < |r.states|
    requires if c == null then r.states[i].free == {} else c in r.states[i].free
    ensures var s := r.states[i];
      Enabled(s, EventOf(x, c)) <==>
      if x.excCode == 0 && Pending(x.pending) then s.mode == Running || s.mode == Waiting
      else s.running != null && (x.excCode == 8 ==> Acceptable(s, x))
  {
    hide Inv, IsRun;
    Always(r, i);
    CanServe(r.states[i]);
  }

  lemma CanServe(s: State)
    requires Inv(s)
    ensures WellFormed(s) && (s.mode == Running <==> s.running != null)
  {
    hide BlockedOk, ReadyOk, ValuesOk, CountsOk;
  }

  // ---------- the steps do it ----------

  lemma DiesEnds(s: State, e: Event, t: Tod)
    requires Inv(s) && Enabled(s, e) && Dies(s, e)
    ensures Ends(s, Step(s, e, t))
  {
    var d := Below(s, s.running);
    SubtreeFacts(s);
    MinusElements(s.ready, d);
    AfterKill(s, d, Handle(s, e, t).0, t.dispatch);
  }

  lemma AfterKill(s: State, d: set<Pcb>, mid: State, tod: int)
    requires mid.ready == Minus(s.ready, d) && mid.semAdd == s.semAdd - d && mid.running == null
    requires forall p | p in Minus(s.ready, d) :: p in s.ready && p !in d
    requires forall p | p in s.ready && p !in d :: p in Minus(s.ready, d)
    requires ReadyOk(s.ready, s.semAdd, s.running)
    ensures var s' := Schedule(mid, tod);
      && s'.free == mid.free && (s.running != null ==> !Live(s'.ready, s'.semAdd, s'.running, s.running))
      && forall p | p != s.running ::
           Live(s'.ready, s'.semAdd, s'.running, p) <==> Live(s.ready, s.semAdd, s.running, p) && p !in d
  {
    hide Minus;
    var s' := Schedule(mid, tod);
    forall p
      ensures Live(s'.ready, s'.semAdd, s'.running, p) <==> p in mid.ready || p in mid.semAdd
    {
      if mid.ready != [] {
        assert mid.ready == [mid.ready[0]] + mid.ready[1..];
      }
    }
  }

  lemma TrapServed(s: State, t: Tod)
    requires Inv(s) && Enabled(s, Trap)
    ensures PassedUpOrDied(s, Step(s, Trap, t))
  {
    hide Inv, Ends;
    if s.running !in s.support {
      DiesEnds(s, Trap, t);
    }
  }

  lemma CreateServed(s: State, c: Pcb, sup: bool, t: Tod)
    requires Inv(s) && Enabled(s, Create(c, sup))
    ensures Adopts(s, Step(s, Create(c, sup), t), c, sup)
  {
    hide Inv, KidsOf, SetKids, Nodes, Distinct;
    RunningInTree(s);
    ChildAdded(s, c, sup);
    assert Step(s, Create(c, sup), t) == CreateChild(s, c, sup);
  }

  lemma ChildAdded(s: State, c: Pcb, sup: bool)
    requires s.running != null && Distinct(s.tree) && s.running in Nodes(s.tree) && c !in Nodes(s.tree)
    ensures var f := CreateChild(s, c, sup).tree;
      KidsOf(f, s.running) == Cons(c, Nil, KidsOf(s.tree, s.running)) && KidsOf(f, c) == Nil
  {
    SetKidsNodes(s.tree, s.running, Cons(c, Nil, KidsOf(s.tree, s.running)));
    NewLeaf(s.tree, s.running, c);
  }

  lemma WordsDown(s: State, e: Event)
    requires Inv(s) && Enabled(s, e) && (e.Passeren? || e.WaitDevice? || e.WaitClock?)
    ensures s.running != null && Target(s, e) in s.mem && (s.ready != [] ==> s.ready[0] != s.running)
    ensures s.running in s.time
    ensures e.WaitClock? ==> s.mem[Target(s, e)] <= 0
  {
    NextIsAnother(s);
    if e.WaitDevice? {
      DeviceWord(s, e);
    } else {
      ValuesHold(s, Target(s, e));
    }
  }

  lemma PasserenServed(s: State, a: int, t: Tod)
    requires Inv(s) && Enabled(s, Event.Passeren(a))
    ensures Lowers(s, Step(s, Event.Passeren(a), t), a, false, t)
  {
    hide Inv, IsDev;
    WordsDown(s, Event.Passeren(a));
  }

  lemma DeviceWaitServed(s: State, e: Event, t: Tod)
    requires Inv(s) && Enabled(s, e) && e.WaitDevice?
    ensures Lowers(s, Step(s, e, t), Target(s, e), true, t)
  {
    hide Inv, DevIndex, DevAddr;
    WordsDown(s, e);
  }

  lemma ClockWaitServed(s: State, t: Tod)
    requires Inv(s) && Enabled(s, Event.WaitClock)
    ensures var s' := Step(s, Event.WaitClock, t);
      && Lowers(s, s', DevAddr(s.base, CLOCK), true, t) && s'.running != s.running
      && (s'.running == null ==> s'.startTod == t.restart)
  {
    hide Inv, DevAddr;
    WordsDown(s, Event.WaitClock);
  }

  lemma WordsUp(s: State, e: Event)
    requires Inv(s) && Enabled(s, e) && (e.Verhogen? || e.DeviceInterrupt?)
    ensures var a := Target(s, e);
      a in s.mem && (Queue(s, a) != [] ==> s.mem[a] < 0) && (e.Verhogen? && s.mem[a] < 0 ==> Queue(s, a) != [])
    ensures s.running == null ==> s.ready == []
  {
    if e.DeviceInterrupt? {
      DeviceWord(s, e);
    }
    ValuesHold(s, Target(s, e));
    IdleIsEmpty(s, e);
  }

  lemma UpServed(s: State, e: Event, t: Tod)
    requires Inv(s) && Enabled(s, e) && (e.Verhogen? || e.DeviceInterrupt?)
    ensures Raises(s, Step(s, e, t), Target(s, e))
    ensures e.Verhogen? ==> (Queue(s, Target(s, e)) != [] <==> s.mem[Target(s, e)] < 0)
    ensures e.DeviceInterrupt? ==>
      Step(s, e, t).softBlockCount == s.softBlockCount - if Queue(s, Target(s, e)) == [] then 0 else 1
  {
    hide Inv, DevIndex, DevAddr, IsDev;
    WordsUp(s, e);
  }

  lemma SliceServed(s: State, t: Tod)
    requires Inv(s) && Enabled(s, TimeSlice)
    ensures SliceEnds(s, Step(s, TimeSlice, t), t)
  {
    hide Inv;
    IdleIsEmpty(s, TimeSlice);
  }

  lemma TickServed(s: State, t: Tod)
    requires Enabled(s, ClockTick)
    ensures Ticks(s, Step(s, ClockTick, t))
  {
    hide Step, Queue;
    TickReleasesAll(s, ClockTick, t);
  }

  /** Every system call does what its number says. */
  lemma CallServed(s: State, x: Exception, c: Pcb?, t: Tod)
    requires Inv(s) && Enabled(s, SyscallEvent(x, c))
    ensures Called(s, Step(s, SyscallEvent(x, c), t), x, c, t)
  {
    hide Inv, Step, Ends, Lowers, Raises, Adopts, PassedUpOrDied;
    var e := SyscallEvent(x, c);
    match e
    case Trap => TrapServed(s, t);
    case Create(_, sup) =>
      if c == null {
        NothingServed(s, e, t);
      } else {
        CreateServed(s, c, sup, t);
      }
    case Terminate => DiesEnds(s, e, t);
    case Passeren(a) => PasserenServed(s, a, t);
    case Verhogen(_) => UpServed(s, e, t);
    case WaitDevice(_, _, _) => DeviceWaitServed(s, e, t);
    case WaitClock => ClockWaitServed(s, t);
    case Resume => NothingServed(s, e, t);
  }

  lemma NothingServed(s: State, e: Event, t: Tod)
    requires Enabled(s, e) && (e.Resume? || (e.Create? && e.child == null))
    ensures Step(s, e, t) == s && (e.Create? ==> s.free == {})
  {
  }

  /** Every exception is served as its cause says: an interrupt as its line and device say. */
  lemma ExceptionServed(s: State, x: Exception, c: Pcb?, t: Tod)
    requires Inv(s) && Enabled(s, EventOf(x, c))
    ensures Served(s, Step(s, EventOf(x, c), t), x, c, t)
  {
    hide Inv, Step, SyscallEvent, Called, Ends, PassedUpOrDied, SliceEnds, Ticks, Signals;
    if x.excCode == 8 {
      CallServed(s, x, c, t);
    } else if x.excCode != 0 || x.pending !! {1, 2, 3, 4, 5, 6, 7} {
      TrapServed(s, t);
    } else if 1 in x.pending {
      SliceServed(s, t);
    } else if 2 in x.pending {
      TickServed(s, t);
    } else {
      DeviceServed(s, FirstLine(x.pending), x.devices, x.transmStatus, t);
      assert ServedNext(x.pending, FirstLine(x.pending));
      assert Decoded(x.devices, DecodedDevice(x.devices));
    }
  }

  lemma DeviceServed(s: State, l: int, devices: set<int>, status: int, t: Tod)
    requires Inv(s) && Enabled(s, DeviceInterrupt(l, DecodedDevice(devices), l == 7 && status == READY))
    ensures Decoded(devices, DecodedDevice(devices))
    ensures var e := DeviceInterrupt(l, DecodedDevice(devices), l == 7 && status == READY);
      Signals(s, Step(s, e, t), l, DecodedDevice(devices), status)
  {
    hide Inv, Step, Raises;
    UpServed(s, DeviceInterrupt(l, DecodedDevice(devices), l == 7 && status == READY), t);
  }
}
