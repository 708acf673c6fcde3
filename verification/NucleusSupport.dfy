/** Support structures over whole runs: who has one, and whom a trap therefore kills. */
module NucleusSupport {
  import opened ProcessQueues
  import opened NucleusSpec
  import opened NucleusInvariant
  import opened NucleusRuns
  import opened NucleusAccounting
  import opened NucleusExceptions

  /** The latest creation of p before state i passed a support structure; the first process is given none. */
  ghost predicate Given(r: Run, p: Pcb, i: nat)
    requires IsRun(r) && i <= |r.events|
  {
    i > 0 &&
    var e := r.events[i - 1];
    if e.Create? && e.child == p then e.sup else Given(r, p, i - 1)
  }

  /** Only creation gives or takes a support structure. */
  lemma HandleSupport(s: State, e: Event, t: Tod)
    requires Enabled(s, e)
    ensures var s' := Handle(s, e, t).0;
      if e.Create? && e.child != null
      then s'.support == if e.sup then s.support + {e.child} else s.support - {e.child}
      else s'.support == s.support
  {
    hide Queue, DevIndex, Below, KillQueues, KillMem;
    if e.DeviceInterrupt? {
      DeviceWord(s, e);
    }
  }

  lemma StepSupport(s: State, e: Event, t: Tod, p: Pcb)
    requires Enabled(s, e)
    ensures p in Step(s, e, t).support <==> if e.Create? && e.child == p then e.sup else p in s.support
  {
    hide Handle;
    HandleSupport(s, e, t);
  }

  /** In every state exactly those pcbs have a support structure whose latest creation passed one. */
  lemma {:induction false} SupportAsGiven(r: Run, p: Pcb, i: nat)
    requires IsRun(r) && i <= |r.events|
    ensures p in r.states[i].support <==> Given(r, p, i)
  {
    hide Inv, Enabled, Step;
    if i > 0 {
      SupportAsGiven(r, p, i - 1);
      StepAt(r, i - 1);
      StepSupport(r.states[i - 1], r.events[i - 1], r.tods[i - 1], p);
    }
  }

  lemma RootNotFree(s: State)
    requires Inv(s)
    ensures s.root !in s.free
  {
  }

  /** The first process never has a support structure. */
  lemma {:induction false} FirstHasNone(r: Run, i: nat)
    requires IsRun(r) && i <= |r.events|
    ensures r.states[i].root == r.boot.root && r.boot.root !in r.states[i].support
  {
    hide Inv, Step;
    if i > 0 {
      FirstHasNone(r, i - 1);
      StepAt(r, i - 1);
      var s, e, t := r.states[i - 1], r.events[i - 1], r.tods[i - 1];
      RootNotFree(s);
      StepSupport(s, e, t, s.root);
      SameBase(s, e, t);
    }
  }

  /** A trap kills the running process, with its descendants, exactly when its creation passed no support
      structure; otherwise the nucleus leaves everything as it was. */
  lemma TrapKillsTheUnsupported(r: Run, i: nat)
    requires IsRun(r) && i < |r.events| && r.events[i].Trap?
    ensures var s, s' := r.states[i], r.states[i + 1];
      s.running != null && if Given(r, s.running, i) then s' == s else Ends(s, s')
  {
    hide Inv, Enabled, Step, Ends;
    StepAt(r, i);
    TrapServed(r.states[i], r.tods[i]);
    SupportAsGiven(r, r.states[i].running, i);
  }
}
