/** Dispatches over whole runs: since when the running process has run, and from when it is charged. */
module NucleusDispatch {
  import opened NucleusSpec
  import opened NucleusInvariant
  import opened NucleusQueues
  import opened NucleusRuns
  import opened NucleusAccounting
  import opened NucleusFairness

  /** The state in which the process dispatched last, up to state i, began to run: state 0 if no step has
      dispatched anybody since main. */
  ghost function LastDispatch(r: Run, i: nat): (k: nat)
    requires IsRun(r) && i <= |r.events|
    ensures k <= i
  {
    if i == 0 || DispatchAt(r, i - 1) then i else LastDispatch(r, i - 1)
  }

  /** The reading of the clock that the dispatch leading to state k took. */
  ghost function Reading(r: Run, k: nat): int
    requires IsRun(r) && k <= |r.events|
  {
    if k == 0 then r.bootTod else r.tods[k - 1].dispatch
  }

  lemma StepDispatches(s: State, e: Event, t: Tod)
    requires Inv(s) && Enabled(s, e)
    ensures var s' := Step(s, e, t);
      if Dispatches(s, e, t) then s'.running != null && s'.startTod == t.dispatch
      else s'.running != null ==> s'.running == s.running && s'.startTod == s.startTod
  {
    hide Inv, Handle, Core;
    HandleOk(s, e, t);
    HandleTimes(s, e, t);
  }

  /** Whoever runs has run without a break since the last dispatch, and startTod is the reading taken then. */
  lemma {:induction false} RunsSinceDispatch(r: Run, i: nat)
    requires IsRun(r) && i <= |r.events| && r.states[i].running != null
    ensures var k := LastDispatch(r, i);
      && r.states[i].startTod == Reading(r, k)
      && forall j | k <= j <= i :: r.states[j].running == r.states[i].running
  {
    hide Inv, Enabled, Step, Dispatches;
    if i > 0 {
      StepAt(r, i - 1);
      StepDispatches(r.states[i - 1], r.events[i - 1], r.tods[i - 1]);
      if !DispatchAt(r, i - 1) {
        RunsSinceDispatch(r, i - 1);
      }
    }
  }

  /** Whatever is charged is charged to the running process, from its own latest dispatch on: nothing that
      another process used is in it. */
  lemma ChargedSinceDispatch(r: Run, i: nat)
    requires IsRun(r) && i < |r.events|
    ensures Enabled(r.states[i], r.events[i])
    ensures var s, k := r.states[i], LastDispatch(r, i); var c := Charged(s, r.events[i], r.tods[i]);
      c != [] ==>
        && s.running != null && c == [Interval(Reading(r, k), r.tods[i].stop)]
        && forall j | k <= j <= i :: r.states[j].running == s.running
  {
    hide Inv, Enabled, Step;
    StepAt(r, i);
    HandleTimes(r.states[i], r.events[i], r.tods[i]);
    if r.states[i].running != null {
      RunsSinceDispatch(r, i);
    }
  }
}
