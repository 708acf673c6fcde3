/** The swap pool as a state machine: page faults of any number of processes, interleaved label by label. */
module PagerSpec {
  import opened Sequences
  import opened Semaphores

  datatype Page = Page(asid: int, no: int)

  datatype Frame = Empty | Holding(page: Page)

  /** Where a process is in tlbExceptionHandler; g is the missing page, f the chosen frame. */
  datatype Label =
    | User
    | Waiting(g: int)
    | Entered(g: int)
    | Picked(g: int, f: int)
    | Writing(g: int, f: int)
    | Reading(g: int, f: int)
    | Loaded

  /** valid maps each page whose entry has the valid bit to the frame the entry names; loads and written list
      the pages read from backing store and written back to it so far. */
  datatype State = State(
    size: nat,
    pages: nat,
    victim: int,
    sem: Sem<int>,
    pc: map<int, Label>,
    alive: set<int>,
    frames: seq<Frame>,
    valid: map<Page, int>,
    loads: seq<Page>,
    written: seq<Page>)

  datatype Event =
    | Fault(p: int, g: int)
    | Pick(p: int)
    | Evict(p: int)
    | Written(p: int)
    | Install(p: int)
    | Release(p: int)
    | Kill(d: set<int>)

  /** Between a completed P and the V on swapSem. */
  ghost predicate Critical(l: Label) {
    !l.User? && !l.Waiting?
  }

  ghost predicate Alive(s: State, p: int) {
    p in s.alive && p in s.pc
  }

  ghost predicate Enabled(s: State, e: Event) {
    s.size > 0 && |s.frames| == s.size && 0 <= s.victim < s.size &&
    match e
    case Fault(p, g) => Alive(s, p) && s.pc[p].User? && 0 <= g < s.pages && Page(p, g) !in s.valid
    case Pick(p) => Alive(s, p) && s.pc[p].Entered?
    case Evict(p) => Alive(s, p) && s.pc[p].Picked? && 0 <= s.pc[p].f < s.size
    case Written(p) =>
      Alive(s, p) && s.pc[p].Writing? && 0 <= s.pc[p].f < s.size && s.frames[s.pc[p].f].Holding?
    case Install(p) => Alive(s, p) && s.pc[p].Reading? && 0 <= s.pc[p].f < s.size
    case Release(p) => Alive(s, p) && s.pc[p].Loaded?
    case Kill(d) => true
  }

  /** pickVictim */
  function NextVictim(i: int, size: int): int
    requires size > 0
  {
    (i + 1) % size
  }

  ghost function Woken(pc: map<int, Label>, q: int): map<int, Label> {
    if q in pc && pc[q].Waiting? then pc[q := Entered(pc[q].g)] else pc
  }

  /** A process killed while it waits is no longer in the queue. */
  ghost function Reaped(pc: map<int, Label>, d: set<int>): map<int, Label> {
    map p | p in pc :: if p in d && pc[p].Waiting? then User else pc[p]
  }

  ghost function Step(s: State, e: Event): State
    requires Enabled(s, e)
  {
    match e
    case Fault(p, g) =>
      s.(sem := Down(s.sem, p), pc := s.pc[p := if s.sem.value - 1 < 0 then Waiting(g) else Entered(g)])
    case Pick(p) =>
      var v := NextVictim(s.victim, s.size);
      s.(victim := v, pc := s.pc[p := Picked(s.pc[p].g, v)])
    case Evict(p) =>
      var g, f := s.pc[p].g, s.pc[p].f;
      if s.frames[f].Holding? then
        s.(valid := s.valid - {s.frames[f].page}, pc := s.pc[p := Writing(g, f)])
      else s.(pc := s.pc[p := Reading(g, f)])
    case Written(p) =>
      var g, f := s.pc[p].g, s.pc[p].f;
      s.(pc := s.pc[p := Reading(g, f)], written := s.written + [s.frames[f].page])
    case Install(p) =>
      var page, f := Page(p, s.pc[p].g), s.pc[p].f;
      s.(frames := s.frames[f := Holding(page)], valid := s.valid[page := f],
         pc := s.pc[p := Loaded], loads := s.loads + [page])
    case Release(p) =>
      var pc := s.pc[p := User];
      s.(sem := Up(s.sem),
         pc := if s.sem.value + 1 <= 0 && s.sem.queue != [] then Woken(pc, s.sem.queue[0]) else pc)
    case Kill(d) =>
      s.(sem := Reap(s.sem, d, true), alive := s.alive - d, pc := Reaped(s.pc, d))
  }

  // ---------- what every step keeps ----------

  ghost function Inside(pc: map<int, Label>): set<int> {
    set p | p in pc && Critical(pc[p])
  }

  /** The mutex: queue, value and labels agree, and at most one process is inside, dead or alive. */
  ghost predicate MutexOk(sem: Sem<int>, pc: map<int, Label>, alive: set<int>) {
    && NoDup(sem.queue)
    && (forall p | p in sem.queue :: p in pc && pc[p].Waiting? && p in alive)
    && (forall p | p in pc && pc[p].Waiting? :: p in sem.queue)
    && |sem.queue| == (if sem.value < 0 then -sem.value else 0)
    && sem.value <= 1
    && (sem.value == 1 <==> Inside(pc) == {})
    && (forall p, q | p in Inside(pc) && q in Inside(pc) :: p == q)
  }

  /** Every valid entry names a frame that records it; no two frames record the same page. */
  ghost predicate TablesOk(frames: seq<Frame>, valid: map<Page, int>) {
    && (forall x | x in valid :: 0 <= valid[x] < |frames| && frames[valid[x]] == Holding(x))
    && (forall i, j | 0 <= i < j < |frames| && frames[i].Holding? && frames[j].Holding? :: frames[i] != frames[j])
  }

  /** What a process inside knows about the page it misses and the frame it has chosen. */
  ghost predicate LabelOk(l: Label, p: int, victim: int, frames: seq<Frame>, valid: map<Page, int>) {
    && (l.Waiting? || l.Entered? || l.Picked? || l.Writing? || l.Reading? ==> Page(p, l.g) !in valid)
    && (l.Picked? || l.Writing? || l.Reading? ==> l.f == victim)
    && (l.Writing? || l.Reading? ==>
          0 <= l.f < |frames| && (frames[l.f].Holding? ==> frames[l.f].page !in valid))
    && (l.Writing? ==> frames[l.f].Holding?)
  }

  ghost predicate LabelsOk(pc: map<int, Label>, victim: int, frames: seq<Frame>, valid: map<Page, int>) {
    forall p | p in pc :: LabelOk(pc[p], p, victim, frames, valid)
  }

  /** Frame f is being replaced: its old page is invalid and its new one not yet recorded. */
  ghost predicate Replacing(pc: map<int, Label>, f: int) {
    exists p | p in pc :: (pc[p].Writing? || pc[p].Reading?) && pc[p].f == f
  }

  /** A frame whose recorded page has no valid entry is the one being replaced. */
  ghost predicate StaleOk(pc: map<int, Label>, frames: seq<Frame>, valid: map<Page, int>) {
    forall f | 0 <= f < |frames| && frames[f].Holding? :: frames[f].page in valid || Replacing(pc, f)
  }

  ghost predicate PoolOk(s: State) {
    s.size > 0 && |s.frames| == s.size && 0 <= s.victim < s.size
  }

  /** The pick under way, if any, has no load yet. */
  ghost predicate Chosen(l: Label) {
    l.Picked? || l.Writing? || l.Reading?
  }

  ghost predicate UnderWay(pc: map<int, Label>) {
    exists p | p in pc :: Chosen(pc[p])
  }

  ghost function Slot(k: int, size: int): int
    requires size > 0
  {
    (k + 1) % size
  }

  /** Load k went to frame k + 1 modulo the pool size; frames nobody has loaded yet are empty. */
  ghost predicate LoadsOk(loads: seq<Page>, frames: seq<Frame>, size: nat)
    requires size > 0 && |frames| == size
  {
    && (forall k {:trigger loads[k]} | 0 <= k < |loads| && |loads| - size <= k ::
          frames[Slot(k, size)] == Holding(loads[k]))
    && (forall k {:trigger Slot(k, size)} | |loads| <= k < size :: frames[Slot(k, size)].Empty?)
  }

  ghost predicate OrderOk(s: State)
    requires PoolOk(s)
  {
    && s.victim == (if UnderWay(s.pc) then Slot(|s.loads|, s.size) else |s.loads| % s.size)
    && LoadsOk(s.loads, s.frames, s.size)
  }

  ghost predicate Inv(s: State) {
    && PoolOk(s)
    && MutexOk(s.sem, s.pc, s.alive)
    && TablesOk(s.frames, s.valid)
    && LabelsOk(s.pc, s.victim, s.frames, s.valid)
    && StaleOk(s.pc, s.frames, s.valid)
    && OrderOk(s)
  }
}
