/** Order and progress over whole runs: waiting is bounded, and nobody overtakes. */
module NucleusFairness {
  import opened ProcessQueues
  import opened NucleusSpec
  import opened NucleusInvariant
  import opened NucleusQueues
  import opened NucleusRuns
  import opened NucleusAccounting
  import opened Semaphores

  /** p is killed by one of the steps i, ..., j - 1. */
  ghost predicate KilledDuring(r: Run, p: Pcb, i: nat, j: nat)
    requires |r.events| <= |r.states| && j <= |r.events|
  {
    exists k | i <= k < j :: p in Kills(r.states[k], r.events[k])
  }

  ghost predicate DispatchAt(r: Run, k: nat)
    requires IsRun(r) && k < |r.events|
  {
    StepAt(r, k);
    Dispatches(r.states[k], r.events[k], r.tods[k])
  }

  /** How many of the steps i, ..., j - 1 dispatch a process. */
  ghost function DispatchCount(r: Run, i: nat, j: nat): nat
    requires IsRun(r) && i <= j <= |r.events|
    decreases j - i
  {
    if i == j then 0 else (if DispatchAt(r, i) then 1 else 0) + DispatchCount(r, i + 1, j)
  }

  /** p is the process dispatched by one of the steps i, ..., j - 1. */
  ghost predicate DispatchedDuring(r: Run, p: Pcb, i: nat, j: nat)
    requires IsRun(r) && j <= |r.events|
  {
    exists k | i <= k < j :: DispatchAt(r, k) && r.states[k + 1].running == p
  }

  /** A process with n others ahead of it in the ready queue is among the next n + 1 dispatched,
      unless it is killed first. */
  lemma {:induction false} BoundedWaiting(r: Run, p: Pcb, i: nat, j: nat)
    requires IsRun(r) && i <= j <= |r.events| && p in r.states[i].ready
    requires DispatchCount(r, i, j) > IndexOf(r.states[i].ready, p)
    ensures DispatchedDuring(r, p, i, j) || KilledDuring(r, p, i, j)
    decreases j - i
  {
    hide Enabled, Step, Inv, Next, IsBoot, Schedule, Dispatches, IndexOf;
    StepAt(r, i);
    if p !in Kills(r.states[i], r.events[i]) {
      MovesUp(r.states[i], r.events[i], r.tods[i], p);
      if !(DispatchAt(r, i) && r.states[i + 1].running == p) {
        BoundedWaiting(r, p, i + 1, j);
      }
    }
  }

  /** If p blocks on a semaphore ahead of q, then as long as p waits there q waits behind it or is killed. */
  lemma {:induction false} NoOvertaking(r: Run, a: int, p: Pcb, q: Pcb, i: nat, j: nat)
    requires IsRun(r) && i <= j < |r.states| && a in r.states[i].mem && Ahead(Queue(r.states[i], a), p, q)
    requires forall k | i <= k <= j :: p in Queue(r.states[k], a)
    requires !KilledDuring(r, p, i, j)
    ensures a in r.states[j].mem
    ensures Ahead(Queue(r.states[j], a), p, q) || KilledDuring(r, q, i, j)
    decreases j - i
  {
    hide Enabled, Step, Inv;
    if i < j {
      StepAt(r, i);
      InWords(r.states[i], a);
      ViewStep(r.states[i], r.events[i], r.tods[i], a);
      if q in Kills(r.states[i], r.events[i]) {
        MemoryKept(r, a, i, j);
      } else {
        StepKeepsOrder(r.states[i], r.events[i], r.tods[i], a, p, q);
        assert p in Queue(r.states[i + 1], a);
        NoOvertaking(r, a, p, q, i + 1, j);
      }
    }
  }

  /** The step that releases q, without killing it, leaves p already served or served along with it. */
  lemma ReleasedInOrder(r: Run, a: int, p: Pcb, q: Pcb, i: nat, j: nat)
    requires IsRun(r) && i <= j < |r.events| && a in r.states[i].mem && Ahead(Queue(r.states[i], a), p, q)
    requires forall k | i <= k <= j :: p in Queue(r.states[k], a)
    requires !KilledDuring(r, p, i, j + 1) && !KilledDuring(r, q, i, j + 1)
    requires q !in Queue(r.states[j + 1], a)
    ensures p !in Queue(r.states[j + 1], a) && ServedFirst(r.states[j + 1], p, q)
  {
    hide Enabled, Step, Inv, ServedFirst;
    assert !KilledDuring(r, p, i, j) && !KilledDuring(r, q, i, j);
    NoOvertaking(r, a, p, q, i, j);
    StepAt(r, j);
    assert p !in Kills(r.states[j], r.events[j]) && q !in Kills(r.states[j], r.events[j]);
    StepKeepsOrder(r.states[j], r.events[j], r.tods[j], a, p, q);
  }

  // ---------- the round robin ----------

  /** The running process and those that are ready, in the order in which they will run. */
  ghost function Line(s: State): seq<Pcb>
    requires s.running != null
  {
    [s.running] + s.ready
  }

  lemma SliceYields(s: State, e: Event, t: Tod)
    requires Enabled(s, e) && e.TimeSlice? && s.running != null
    ensures var s' := Step(s, e, t); s'.running != null && Line(s') == s.ready + [s.running]
  {
    assert (s.ready + [s.running])[..1] + (s.ready + [s.running])[1..] == s.ready + [s.running];
  }

  lemma Rotate<T>(line: seq<T>, k: nat)
    requires 0 < k <= |line|
    ensures var l := line[k - 1..] + line[..k - 1];
      l[1..] + [l[0]] == line[k..] + line[..k]
    ensures k < |line| ==> (line[k..] + line[..k])[0] == line[k]
    ensures k == |line| ==> line[k..] + line[..k] == line
  {
    var l := line[k - 1..] + line[..k - 1];
    assert l[1..] == line[k..] + line[..k - 1];
    assert line[..k] == line[..k - 1] + [line[k - 1]];
  }

  /** While only time slices end, the line goes round: after k slices the first k processes have moved
      behind the others, so after as many slices as processes each has run once and the line is as before. */
  lemma {:induction false} RoundRobin(r: Run, i: nat, k: nat)
    requires IsRun(r) && i + k <= |r.events| && r.states[i].running != null
    requires forall j | i <= j < i + k :: r.events[j].TimeSlice?
    requires k <= |Line(r.states[i])|
    ensures r.states[i + k].running != null
    ensures Line(r.states[i + k]) == Line(r.states[i])[k..] + Line(r.states[i])[..k]
    ensures k < |Line(r.states[i])| ==> r.states[i + k].running == Line(r.states[i])[k]
    ensures k == |Line(r.states[i])| ==> Line(r.states[i + k]) == Line(r.states[i])
  {
    hide Inv, Enabled, Step;
    var line := Line(r.states[i]);
    if k == 0 {
      assert line[0..] + line[..0] == line;
      assert line[..|line|] == line;
    } else {
      RoundRobin(r, i, k - 1);
      StepAt(r, i + k - 1);
      var s := r.states[i + k - 1];
      SliceYields(s, r.events[i + k - 1], r.tods[i + k - 1]);
      assert Line(s)[0] == s.running && Line(s)[1..] == s.ready;
      Rotate(line, k);
    }
  }
}
