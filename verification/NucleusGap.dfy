/** A terminated waiter's claim on a device semaphore survives it, and wakes the next waiter too early. */
module NucleusGap {
  import opened Sequences
  import opened ProcessQueues
  import opened ProcessTree
  import opened NucleusSpec
  import opened NucleusInvariant
  import opened NucleusQueues
  import opened NucleusRuns
  import opened NucleusAccounting

  const DISK0: Event := WaitDevice(3, 0, false)
  const DISK0DONE: Event := DeviceInterrupt(3, 0, false)

  lemma Sound(s: State)
    requires Inv(s)
    ensures WellFormed(s) && (s.running != null ==> s.mode == Running)
  {
  }

  lemma Created(s: State, c: Pcb, t: Tod)
    requires Inv(s) && s.running != null && c in s.free
    ensures Enabled(s, Create(c, false)) && Step(s, Create(c, false), t) == CreateChild(s, c, false)
    ensures Inv(Step(s, Create(c, false), t))
  {
    hide Inv, KidsOf, SetKids;
    Sound(s);
    StepOk(s, Create(c, false), t);
  }

  /** The running process has gone behind the ready ones, and the first of them runs. */
  ghost predicate Rotated(s: State, s': State) {
    s.ready != [] && s.running != null &&
    s' == s.(running := s.ready[0], ready := s.ready[1..] + [s.running], time := s'.time,
             startTod := s'.startTod, mode := Running)
  }

  lemma Sliced(s: State, t: Tod)
    requires Inv(s) && s.running != null && s.ready != []
    ensures Enabled(s, TimeSlice) && Rotated(s, Step(s, TimeSlice, t)) && Inv(Step(s, TimeSlice, t))
  {
    hide Inv;
    Sound(s);
    StepOk(s, TimeSlice, t);
    assert (s.ready + [s.running])[1..] == s.ready[1..] + [s.running];
  }

  ghost function Disk0(s: State): int {
    DevAddr(s.base, 0)
  }

  /** The running process asks for the first disk and blocks. */
  lemma Waited(s: State, t: Tod)
    requires Inv(s) && s.running != null && Disk0(s) in s.mem && s.mem[Disk0(s)] <= 0
    ensures Enabled(s, DISK0) && Inv(Step(s, DISK0, t))
    ensures var s', a := Step(s, DISK0, t), Disk0(s);
      && s'.tree == s.tree && s'.root == s.root && s'.base == s.base
      && s'.semAdd == s.semAdd[s.running := a] && s'.mem == s.mem[a := s.mem[a] - 1]
      && Queue(s', a) == Queue(s, a) + [s.running]
      && (if s.ready == [] then s'.running == null && s'.ready == []
          else s'.running == s.ready[0] && s'.ready == s.ready[1..])
  {
    hide Inv;
    Sound(s);
    StepOk(s, DISK0, t);
  }

  /** The running process ends, and with it the only process waiting for the disk. */
  lemma Died(s: State, b: Pcb, t: Tod)
    requires Inv(s) && s.running != null && s.ready != [] && Disk0(s) in s.mem
    requires Below(s, s.running) == {b} && Queue(s, Disk0(s)) == [b] && b !in s.ready
    ensures Enabled(s, Terminate) && Inv(Step(s, Terminate, t)) && Kills(s, Terminate) == {b}
    ensures var s', a := Step(s, Terminate, t), Disk0(s);
      && s'.root == s.root && s'.base == s.base && a in s'.mem && s'.mem[a] == s.mem[a] && Queue(s', a) == []
      && s'.running == s.ready[0] && s'.ready == s.ready[1..]
  {
    hide Inv, Below, SetKids;
    Sound(s);
    StepOk(s, Terminate, t);
    MinusNone(s.ready, {b});
    KillQueueAt(s.queues, {b}, Disk0(s));
    assert Minus([b], {b}) == [] by { MinusOne([b], 0); }
  }

  /** The disk finishes a request; the oldest waiter, on an otherwise idle machine, runs. */
  lemma Answered(s: State, t: Tod)
    requires Inv(s) && s.running == null && s.mode == Waiting && Disk0(s) in s.mem && s.mem[Disk0(s)] < 0
    requires Queue(s, Disk0(s)) != []
    ensures Enabled(s, DISK0DONE) && Inv(Step(s, DISK0DONE, t))
    ensures var s', a := Step(s, DISK0DONE, t), Disk0(s);
      && s'.base == s.base && a in s'.mem && s'.mem[a] == s.mem[a] + 1 && Queue(s', a) == Queue(s, a)[1..]
      && s'.running == (s.ready + [Queue(s, a)[0]])[0]
  {
    hide Inv;
    Sound(s);
    StepOk(s, DISK0DONE, t);
  }

  lemma Began(boot: State, tod: int, a: Pcb, b: Pcb)
    requires IsBoot(boot) && a in boot.free && b in boot.free && a != b
    ensures var s := Schedule(boot, tod);
      && Inv(s) && s.running == s.root && s.ready == [] && s.tree == Cons(s.root, Nil, Nil) && s.semAdd == map[]
      && s.queues == map[] && s.base == boot.base && s.root == boot.root && a in s.free && b in s.free
      && a != s.root && b != s.root && Disk0(s) in s.mem && s.mem[Disk0(s)] == 0
  {
    BootOk(boot, tod);
  }

  /** The first process creates a, a creates b, and b gets to run. */
  lemma Opening(boot: State, tod: int, a: Pcb, b: Pcb, t: Tod) returns (r: Run)
    requires IsBoot(boot) && a in boot.free && b in boot.free && a != b
    ensures IsRun(r) && r.boot == boot && |r.events| == 5
    ensures var s := r.states[5];
      && Inv(s) && s.root == boot.root && s.base == boot.base && Disk0(s) in s.mem && s.mem[Disk0(s)] == 0
      && s.running == b && s.ready == [a, s.root] && s.queues == map[] && a != s.root && b != s.root
      && s.tree == Cons(s.root, Cons(a, Cons(b, Nil, Nil), Nil), Nil)
  {
    hide Inv, Step, Enabled, IsBoot, Schedule, Distinct, SetKids, KidsOf;
    Began(boot, tod, a, b);
    var s0 := Schedule(boot, tod);
    var root := s0.root;
    TreeOfThree(root, a, b);
    r := Run(boot, tod, [s0], [], []);
    Created(s0, a, t);
    ExtendRun(r, Create(a, false), t);
    r := Extended(r, Create(a, false), t);
    Sliced(r.states[1], t);
    ExtendRun(r, TimeSlice, t);
    r := Extended(r, TimeSlice, t);
    Created(r.states[2], b, t);
    ExtendRun(r, Create(b, false), t);
    r := Extended(r, Create(b, false), t);
    assert r.states[3].ready == [root, b];
    Sliced(r.states[3], t);
    ExtendRun(r, TimeSlice, t);
    r := Extended(r, TimeSlice, t);
    assert r.states[4].ready == [b, a];
    Sliced(r.states[4], t);
    ExtendRun(r, TimeSlice, t);
    r := Extended(r, TimeSlice, t);
    assert r.states[5].ready == [a, root];
  }

  lemma TreeOfThree(root: Pcb, a: Pcb, b: Pcb)
    requires root != a && root != b && a != b
    ensures var f0 := Cons(root, Nil, Nil); var f1 := Cons(root, Cons(a, Nil, Nil), Nil);
      var f2 := Cons(root, Cons(a, Cons(b, Nil, Nil), Nil), Nil);
      && SetKids(f0, root, Cons(a, Nil, KidsOf(f0, root))) == f1
      && SetKids(f1, a, Cons(b, Nil, KidsOf(f1, a))) == f2
      && Nodes(KidsOf(f2, a)) == {b}
  {
    var k1, k2 := Cons(a, Nil, Nil), Cons(a, Cons(b, Nil, Nil), Nil);
    assert Nodes(k1) == {a} && Nodes(k2) == {a, b};
    assert KidsOf(k1, a) == Nil && KidsOf(k2, a) == Cons(b, Nil, Nil);
  }

  /** From every boot state with two free pcbs there is a run in which a process waiting for the disk is
      killed, its claim stays on the semaphore, and the interrupt that answers it wakes the next process to
      wait there: the root runs again while the value still says that its own request is outstanding. */
  lemma ClaimOutlivesWaiter(boot: State, tod: int, a: Pcb, b: Pcb, t: Tod) returns (r: Run)
    requires IsBoot(boot) && a in boot.free && b in boot.free && a != b
    ensures IsRun(r) && r.boot == boot && |r.events| == 9 && r.events[8] == DISK0DONE
    ensures var d, s := Disk0(boot), r.states;
      && d in s[7].mem && Gap(View(s[7], d)) == 1
      && d in s[8].mem && s[8].mem[d] == -2 && Queue(s[8], d) == [boot.root]
      && d in s[9].mem && s[9].mem[d] == -1 && Queue(s[9], d) == [] && s[9].running == boot.root
  {
    hide Inv, Step, Enabled, IsBoot, Schedule, Distinct, KidsOf;
    r := Opening(boot, tod, a, b, t);
    TreeOfThree(boot.root, a, b);
    Waited(r.states[5], t);
    ExtendRun(r, DISK0, t);
    r := Extended(r, DISK0, t);
    assert r.states[6].ready == [boot.root];
    Died(r.states[6], b, t);
    ExtendRun(r, Terminate, t);
    r := Extended(r, Terminate, t);
    Waited(r.states[7], t);
    ExtendRun(r, DISK0, t);
    r := Extended(r, DISK0, t);
    Idle(r.states[8]);
    Answered(r.states[8], t);
    ExtendRun(r, DISK0DONE, t);
    r := Extended(r, DISK0DONE, t);
  }

  lemma Idle(s: State)
    requires Inv(s) && s.running == null && Queue(s, Disk0(s)) != []
    ensures s.mode == Waiting && s.ready == []
  {
    var p := Queue(s, Disk0(s))[0];
    QueueFacts(s.queues, s.semAdd, Disk0(s));
    assert p in Queue(s, Disk0(s)) && p in Soft(s.base, s.semAdd);
    assert |Soft(s.base, s.semAdd)| > 0;
  }
}
