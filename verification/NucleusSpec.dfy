/** The nucleus as a state machine over placements: one function per system call or interrupt. */
module NucleusSpec {
  import opened Sequences
  import opened ProcessQueues
  import opened ProcessTree
  import opened ActiveSemaphores

  const SEMCOUNT: int := 49
  const CLOCK: int := SEMCOUNT - 1

  /** What the processor does after the step: run currentProc, or one of the scheduler's idle choices. */
  datatype Mode = Running | Waiting | Halted | Panicked | Returned

  datatype State = State(
    procs: set<Pcb>,
    root: Pcb,
    base: int,
    free: set<Pcb>,
    ready: seq<Pcb>,
    queues: map<int, seq<Pcb>>,
    semAdd: map<Pcb, int>,
    running: Pcb?,
    tree: Forest,
    mem: map<int, int>,
    processCount: int,
    softBlockCount: int,
    startTod: int,
    time: map<Pcb, int>,
    support: set<Pcb>,
    mode: Mode)

  datatype Event =
    | Create(child: Pcb?, sup: bool)
    | Terminate
    | Trap
    | Passeren(a: int)
    | Verhogen(a: int)
    | WaitDevice(line: int, dev: int, read: bool)
    | WaitClock
    | Resume
    | DeviceInterrupt(line: int, dev: int, read: bool)
    | ClockTick
    | TimeSlice

  /** The readings of the time-of-day clock a step may take, in order. */
  datatype Tod = Tod(stop: int, restart: int, dispatch: int)

  // ---------- addresses ----------

  function DevAddr(base: int, i: int): int {
    base + 4 * i
  }

  /** The range test of terminateProcess. */
  predicate IsDev(base: int, a: int) {
    DevAddr(base, 0) <= a <= DevAddr(base, CLOCK)
  }

  ghost predicate DeviceRequest(line: int, dev: int, read: bool) {
    3 <= line <= 7 && 0 <= dev <= 7 && (read ==> line == 7)
  }

  function DevIndex(line: int, dev: int, read: bool): int {
    (line - 3) * 8 + dev + if read then 8 else 0
  }

  /** The number nonTimerInterrupt reads off the bits of the interrupting devices of a line: bits 1 and 2
      give each other's number. */
  function DecodedDevice(bits: set<int>): int {
    if 0 in bits then 0 else if 1 in bits then 2 else if 2 in bits then 1
    else if 3 in bits then 3 else if 4 in bits then 4 else if 5 in bits then 5
    else if 6 in bits then 6 else 7
  }

  const READY: int := 1

  ghost predicate UserSem(s: State, a: int) {
    a in s.mem && !IsDev(s.base, a)
  }

  // ---------- placement changes ----------

  ghost function Queue(s: State, a: int): seq<Pcb> {
    QueueAt(s.queues, a)
  }

  /** The processes waiting for a device or the clock. */
  ghost function Soft(base: int, semAdd: map<Pcb, int>): set<Pcb> {
    set p | p in semAdd && IsDev(base, semAdd[p])
  }

  ghost function Block(s: State, a: int, p: Pcb): State {
    s.(queues := WithQueue(s.queues, a, Queue(s, a) + [p]), semAdd := s.semAdd[p := a], running := null)
  }

  ghost function Wake(s: State, a: int): State
    requires Queue(s, a) != []
  {
    var p := Queue(s, a)[0];
    s.(queues := WithQueue(s.queues, a, Queue(s, a)[1..]), semAdd := s.semAdd - {p}, ready := s.ready + [p])
  }

  /** Everyone waiting at a becomes ready, in the order in which they blocked. */
  ghost function WakeAll(s: State, a: int): State {
    var woken := set p | p in Queue(s, a);
    s.(queues := s.queues - {a}, semAdd := s.semAdd - woken, ready := s.ready + Queue(s, a))
  }

  ghost function KillQueues(queues: map<int, seq<Pcb>>, d: set<Pcb>): map<int, seq<Pcb>> {
    map a | a in queues && Minus(queues[a], d) != [] :: Minus(queues[a], d)
  }

  /** An ordinary semaphore gets one unit back for each of its waiters killed. */
  ghost function KillMem(base: int, mem: map<int, int>, queues: map<int, seq<Pcb>>, d: set<Pcb>): map<int, int> {
    map a | a in mem ::
      if IsDev(base, a) then mem[a] else mem[a] + |QueueAt(queues, a)| - |Minus(QueueAt(queues, a), d)|
  }

  /** The processes in d vanish from every queue, all at once; the others keep their order. */
  ghost function Kill(s: State, d: set<Pcb>): State {
    var ready := Minus(s.ready, d);
    var semAdd := s.semAdd - d;
    s.(
      free := s.free + d,
      ready := ready,
      semAdd := semAdd,
      queues := KillQueues(s.queues, d),
      mem := KillMem(s.base, s.mem, s.queues, d),
      processCount := s.processCount - (|s.ready| - |ready|) - (|s.semAdd| - |semAdd|),
      softBlockCount := s.softBlockCount - (|Soft(s.base, s.semAdd)| - |Soft(s.base, semAdd)|))
  }

  ghost function Store(s: State, a: int, delta: int): State
    requires a in s.mem
  {
    s.(mem := s.mem[a := s.mem[a] + delta])
  }

  ghost function AddTime(s: State, p: Pcb, d: int): State
    requires p in s.time
  {
    s.(time := s.time[p := s.time[p] + d])
  }

  // ---------- the scheduler ----------

  ghost function Schedule(s: State, tod: int): State {
    if s.ready != [] then
      s.(running := s.ready[0], ready := s.ready[1..], startTod := tod, mode := Running)
    else if s.processCount == 0 then s.(mode := Halted)
    else if s.softBlockCount > 0 then s.(mode := Waiting)
    else if s.processCount > 0 && s.softBlockCount <= 0 then s.(mode := Panicked)
    else s.(mode := Returned)
  }

  // ---------- one step ----------

  /** The descendants of p. */
  ghost function Below(s: State, p: Pcb): set<Pcb> {
    Nodes(KidsOf(s.tree, p))
  }

  ghost predicate WellFormed(s: State) {
    && s.time.Keys == s.procs
    && (forall i | 0 <= i < SEMCOUNT :: DevAddr(s.base, i) in s.mem)
    && (s.running != null ==> s.running in s.procs)
  }

  ghost predicate Enabled(s: State, e: Event) {
    && WellFormed(s)
    && match e
       case Create(c, _) => s.mode == Running && s.running != null &&
         if c == null then s.free == {} else c in s.free
       case Passeren(a) => s.mode == Running && s.running != null && UserSem(s, a)
       case Verhogen(a) => s.mode == Running && s.running != null && UserSem(s, a)
       case WaitDevice(line, dev, read) => s.mode == Running && s.running != null && DeviceRequest(line, dev, read)
       case DeviceInterrupt(line, dev, read) => s.mode in {Running, Waiting} && DeviceRequest(line, dev, read)
       case ClockTick => s.mode in {Running, Waiting}
       case TimeSlice => s.mode in {Running, Waiting}
       case _ => s.mode == Running && s.running != null
  }

  /** The running process asks to end, or traps without a support structure to pass up to. */
  ghost predicate Dies(s: State, e: Event) {
    s.running != null && (e.Terminate? || (e.Trap? && s.running !in s.support))
  }

  ghost function Kills(s: State, e: Event): set<Pcb> {
    if Dies(s, e) then Below(s, s.running) else {}
  }

  /** The running process takes its descendants with it; its own pcb stays in its parent's child list. */
  ghost function TerminateRunning(s: State): State
    requires s.running != null
  {
    Ended(Kill(s, Below(s, s.running))).(tree := SetKids(s.tree, s.running, Nil))
  }

  /** The running process, childless and in no queue, gives up the processor. */
  ghost function Ended(s: State): State {
    s.(running := null, processCount := s.processCount - 1)
  }

  ghost function CreateChild(s: State, c: Pcb, sup: bool): State
    requires s.running != null
  {
    s.(
      free := s.free - {c},
      ready := s.ready + [c],
      tree := SetKids(s.tree, s.running, Cons(c, Nil, KidsOf(s.tree, s.running))),
      processCount := s.processCount + 1,
      time := s.time[c := 0],
      support := if sup then s.support + {c} else s.support - {c})
  }

  ghost function Signal(s: State, a: int): State
    requires a in s.mem
  {
    var s' := Store(s, a, 1);
    if s'.mem[a] <= 0 && Queue(s, a) != [] then Wake(s', a) else s'
  }

  /** What the handler does before it resumes currentProc or, if the flag is set, calls the scheduler. */
  ghost function Handle(s: State, e: Event, t: Tod): (State, bool)
    requires Enabled(s, e)
  {
    match e
    case Create(c, sup) =>
      if c == null then (s, false) else (CreateChild(s, c, sup), false)
    case Terminate => (TerminateRunning(s), true)
    case Trap => if s.running in s.support then (s, false) else (TerminateRunning(s), true)
    case Passeren(a) =>
      var s' := Store(s, a, -1);
      if s'.mem[a] < 0 then (Block(s', a, s.running), true) else (s', false)
    case Verhogen(a) => (Signal(s, a), false)
    case WaitDevice(line, dev, read) =>
      var a := DevAddr(s.base, DevIndex(line, dev, read));
      var s' := Store(s, a, -1);
      if s'.mem[a] < 0 then
        var s'' := Block(AddTime(s', s.running, t.stop - s.startTod), a, s.running);
        (s''.(softBlockCount := s''.softBlockCount + 1), true)
      else (s', false)
    case WaitClock =>
      var a := DevAddr(s.base, CLOCK);
      var s' := Store(AddTime(s, s.running, t.stop - s.startTod), a, -1);
      var s'' := if s'.mem[a] < 0
        then Block(s', a, s.running).(softBlockCount := s.softBlockCount + 1)
        else s';
      (s''.(startTod := t.restart), true)
    case Resume => (s, false)
    case DeviceInterrupt(line, dev, read) =>
      var a := DevAddr(s.base, DevIndex(line, dev, read));
      var s' := Signal(s, a);
      var woken := s.mem[a] < 0 && Queue(s, a) != [];
      (if woken then s'.(softBlockCount := s'.softBlockCount - 1) else s', s.running == null)
    case ClockTick =>
      var a := DevAddr(s.base, CLOCK);
      var s' := WakeAll(s, a);
      var s'' := s'.(softBlockCount := s.softBlockCount - |Queue(s, a)|, mem := s.mem[a := 0]);
      (if s.running == null then s'' else s''.(ready := s''.ready + [s.running]), true)
    case TimeSlice =>
      var s' := if s.running == null then s else
        AddTime(s, s.running, t.stop - s.startTod).(ready := s.ready + [s.running], running := null);
      (s'.(startTod := t.restart), true)
  }

  ghost function Step(s: State, e: Event, t: Tod): State
    requires Enabled(s, e)
  {
    var (s', resched) := Handle(s, e, t);
    if resched then Schedule(s', t.dispatch) else s'
  }
}
