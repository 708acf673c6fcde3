/** Safety of whole runs, from power-on through any sequence of system calls and interrupts. */
module NucleusRuns {
  import opened ProcessTree
  import opened NucleusSpec
  import opened NucleusInvariant

  /** boot is the state in which main first calls the scheduler. */
  datatype Run = Run(boot: State, bootTod: int, states: seq<State>, events: seq<Event>, tods: seq<Tod>)

  ghost predicate IsBoot(s: State) {
    && s.root in s.procs && s.free == s.procs - {s.root} && s.tree == Cons(s.root, Nil, Nil)
    && s.ready == [s.root] && s.queues == map[] && s.semAdd == map[] && s.running == null
    && MemoryShape(s.mem.Keys, s.base)
    && (forall a | a in s.mem :: if IsDev(s.base, a) then s.mem[a] == 0 else s.mem[a] >= 0)
    && s.processCount == 1 && s.softBlockCount == 0
    && s.time.Keys == s.procs && (forall p | p in s.time :: s.time[p] == 0)
    && s.support == {}
  }

  ghost predicate Next(r: Run, i: int)
    requires 0 <= i && |r.states| > i + 1 && |r.events| > i && |r.tods| > i
  {
    Enabled(r.states[i], r.events[i]) && r.states[i + 1] == Step(r.states[i], r.events[i], r.tods[i])
  }

  ghost predicate IsRun(r: Run) {
    && |r.states| == |r.events| + 1 == |r.tods| + 1
    && IsBoot(r.boot) && r.states[0] == Schedule(r.boot, r.bootTod)
    && forall i | 0 <= i < |r.events| :: Next(r, i)
  }

  lemma BootOk(s: State, tod: int)
    requires IsBoot(s)
    ensures Inv(Schedule(s, tod))
  {
    assert KidsOf(s.tree, s.root) == Nil;
    assert Soft(s.base, s.semAdd) == {};
    assert s.(running := null) == s;
    assert Core(s);
    ScheduleOk(s, tod);
  }

  /** The invariant holds after every step of every run. */
  lemma {:induction false} Always(r: Run, i: nat)
    requires IsRun(r) && i < |r.states|
    ensures Inv(r.states[i])
  {
    hide Inv, Step, Enabled;
    if i == 0 {
      BootOk(r.boot, r.bootTod);
    } else {
      Always(r, i - 1);
      assert Next(r, i - 1);
      StepOk(r.states[i - 1], r.events[i - 1], r.tods[i - 1]);
    }
  }

  lemma StepAt(r: Run, i: nat)
    requires IsRun(r) && i < |r.events|
    ensures Enabled(r.states[i], r.events[i])
    ensures r.states[i + 1] == Step(r.states[i], r.events[i], r.tods[i])
    ensures Inv(r.states[i]) && Inv(r.states[i + 1])
  {
    hide Inv, Step, Enabled;
    Always(r, i);
    Always(r, i + 1);
    assert Next(r, i);
  }

  /** A run goes on with any enabled event. */
  lemma ExtendRun(r: Run, e: Event, t: Tod)
    requires IsRun(r) && Enabled(r.states[|r.events|], e)
    ensures IsRun(Extended(r, e, t))
  {
    hide Enabled, Step, IsBoot;
    var r' := Extended(r, e, t);
    forall i | 0 <= i < |r'.events|
      ensures Next(r', i)
    {
      if i < |r.events| {
        assert Next(r, i);
      }
    }
  }

  ghost function Extended(r: Run, e: Event, t: Tod): Run
    requires |r.states| == |r.events| + 1 && Enabled(r.states[|r.events|], e)
  {
    Run(r.boot, r.bootTod, r.states + [Step(r.states[|r.events|], e, t)], r.events + [e], r.tods + [t])
  }
}
