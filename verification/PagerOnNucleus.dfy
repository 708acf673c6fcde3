/** The pager running on the nucleus: swapSem is one of the nucleus's semaphores, and the processes the
    pager knows by asid are the nucleus's pcbs. */
module PagerOnNucleus {
  import opened Sequences
  import opened ProcessQueues
  import opened Semaphores
  import opened NucleusQueues
  import NucleusSpec
  import NucleusInvariant
  import NucleusRuns
  import NucleusAccounting
  import NucleusMutex
  import PagerSpec
  import PagerRuns

  /** a is the address of swapSem; asid says which address space each user process runs in. */
  datatype Wiring = Wiring(a: int, asid: map<Pcb, int>)

  /** The nucleus and the pager together. */
  datatype Joint = Joint(n: NucleusSpec.State, q: PagerSpec.State)

  /** A step of the nucleus, with the page missing if it is the P of a page fault, or a step of the
      handler between its system calls. */
  datatype Move =
    | Call(e: NucleusSpec.Event, t: NucleusSpec.Tod, g: int)
    | Local(pe: PagerSpec.Event)

  ghost predicate OneToOne(asid: map<Pcb, int>) {
    forall p, p' | p in asid && p' in asid && p != p' :: asid[p] != asid[p']
  }

  /** A queue of pcbs by asid. */
  ghost function Asids(q: seq<Pcb>, asid: map<Pcb, int>): seq<int>
    requires forall p | p in q :: p in asid
  {
    seq(|q|, i requires 0 <= i < |q| => asid[q[i]])
  }

  ghost function AsidSet(d: set<Pcb>, asid: map<Pcb, int>): set<int> {
    set p | p in d && p in asid :: asid[p]
  }

  /** What a step of the nucleus is to the pager. */
  ghost function Seen(s: NucleusSpec.State, e: NucleusSpec.Event, g: int, w: Wiring): seq<PagerSpec.Event> {
    if s.running != null && s.running in w.asid && e == NucleusSpec.Passeren(w.a) then
      [PagerSpec.Fault(w.asid[s.running], g)]
    else if s.running != null && s.running in w.asid && e == NucleusSpec.Verhogen(w.a) then
      [PagerSpec.Release(w.asid[s.running])]
    else if NucleusMutex.Ends(s, e) != {} then [PagerSpec.Kill(AsidSet(NucleusMutex.Ends(s, e), w.asid))]
    else []
  }

  /** Only the page fault handler of the user processes uses swapSem, and its order of steps is the pager's. */
  ghost predicate Enabled(j: Joint, m: Move, w: Wiring) {
    match m
    case Call(e, t, g) =>
      && NucleusSpec.Enabled(j.n, e)
      && (e == NucleusSpec.Passeren(w.a) || e == NucleusSpec.Verhogen(w.a) ==>
            j.n.running != null && j.n.running in w.asid)
      && forall pe | pe in Seen(j.n, e, g, w) :: PagerSpec.Enabled(j.q, pe)
    case Local(pe) => (pe.Pick? || pe.Evict? || pe.Written? || pe.Install?) && PagerSpec.Enabled(j.q, pe)
  }

  ghost function Step(j: Joint, m: Move, w: Wiring): Joint
    requires Enabled(j, m, w)
  {
    match m
    case Call(e, t, g) =>
      var seen := Seen(j.n, e, g, w);
      Joint(NucleusSpec.Step(j.n, e, t), if seen == [] then j.q else PagerSpec.Step(j.q, seen[0]))
    case Local(pe) => Joint(j.n, PagerSpec.Step(j.q, pe))
  }

  /** swapSem in the nucleus is the pager's semaphore, process by process. */
  ghost predicate Tied(j: Joint, w: Wiring) {
    && NucleusSpec.UserSem(j.n, w.a)
    && (forall p | p in NucleusSpec.Queue(j.n, w.a) :: p in w.asid)
    && j.q.sem == Sem(j.n.mem[w.a], Asids(NucleusSpec.Queue(j.n, w.a), w.asid))
  }

  // ---------- one step ----------

  lemma {:induction false} AsidsMinus(q: seq<Pcb>, asid: map<Pcb, int>, d: set<Pcb>, d': set<int>)
    requires forall p | p in q :: p in asid && (p in d <==> asid[p] in d')
    ensures forall p | p in Minus(q, d) :: p in asid
    ensures Asids(Minus(q, d), asid) == Minus(Asids(q, asid), d')
  {
    MinusElements(q, d);
    if q != [] {
      var rest := q[1..];
      MinusElements(rest, d);
      assert forall p | p in rest :: p in q;
      AsidsMinus(rest, asid, d, d');
      assert Asids(q, asid)[1..] == Asids(rest, asid);
      if q[0] !in d {
        assert Asids([q[0]] + Minus(rest, d), asid) == [asid[q[0]]] + Asids(Minus(rest, d), asid);
      }
    }
  }

  /** A kill, seen by asid: the running process waits nowhere, so ending it too changes no queue. */
  lemma EndsSeen(s: NucleusSpec.State, e: NucleusSpec.Event, w: Wiring)
    requires w.a in s.mem && OneToOne(w.asid) && forall p | p in NucleusSpec.Queue(s, w.a) :: p in w.asid
    requires s.running != null ==> s.running !in NucleusSpec.Queue(s, w.a)
    ensures var d, q := NucleusSpec.Kills(s, e), NucleusSpec.Queue(s, w.a);
      && (forall p | p in Minus(q, d) :: p in w.asid)
      && Asids(Minus(q, d), w.asid) == Minus(Asids(q, w.asid), AsidSet(NucleusMutex.Ends(s, e), w.asid))
  {
    hide NucleusSpec.Below;
    var d, q, d' := NucleusSpec.Kills(s, e), NucleusSpec.Queue(s, w.a), AsidSet(NucleusMutex.Ends(s, e), w.asid);
    if NucleusMutex.Ends(s, e) == {} {
      assert d' == {};
    }
    forall p | p in q
      ensures p in d <==> w.asid[p] in d'
    {
    }
    AsidsMinus(q, w.asid, d, d');
  }

  /** What the nucleus does to swapSem, as seen through the asids. */
  lemma CallTied(j: Joint, e: NucleusSpec.Event, t: NucleusSpec.Tod, g: int, w: Wiring)
    requires NucleusInvariant.Inv(j.n) && Tied(j, w) && OneToOne(w.asid) && Enabled(j, Call(e, t, g), w)
    ensures Tied(Step(j, Call(e, t, g), w), w)
  {
    hide NucleusInvariant.Inv, NucleusSpec.Step, NucleusSpec.Enabled, NucleusSpec.Kills, NucleusMutex.Ends;
    var s, a := j.n, w.a;
    InWords(s, a);
    ViewStep(s, e, t, a);
    NucleusAccounting.SameBase(s, e, t);
    NucleusMutex.QueueDistinct(s, a);
    if e == NucleusSpec.Passeren(a) || e == NucleusSpec.Verhogen(a) {
      NucleusMutex.OnTarget(s, e, a);
    } else {
      NucleusMutex.OffTarget(s, e, a);
      EndsSeen(s, e, w);
      MinusNone(NucleusSpec.Queue(s, a), {});
      MinusNone(Asids(NucleusSpec.Queue(s, a), w.asid), {});
    }
  }

  lemma LocalTied(j: Joint, pe: PagerSpec.Event, w: Wiring)
    requires Tied(j, w) && Enabled(j, Local(pe), w)
    ensures Tied(Step(j, Local(pe), w), w)
  {
  }

  // ---------- whole histories ----------

  datatype History = History(boot: NucleusSpec.State, bootTod: int, states: seq<Joint>, moves: seq<Move>)

  ghost predicate Next(h: History, w: Wiring, i: int)
    requires 0 <= i && |h.states| > i + 1 && |h.moves| > i
  {
    Enabled(h.states[i], h.moves[i], w) && h.states[i + 1] == Step(h.states[i], h.moves[i], w)
  }

  ghost predicate IsHistory(h: History, w: Wiring) {
    && |h.states| == |h.moves| + 1 && OneToOne(w.asid)
    && NucleusRuns.IsBoot(h.boot) && h.states[0].n == NucleusSpec.Schedule(h.boot, h.bootTod)
    && NucleusSpec.UserSem(h.boot, w.a) && h.boot.mem[w.a] == 1
    && PagerRuns.IsBoot(h.states[0].q)
    && forall i | 0 <= i < |h.moves| :: Next(h, w, i)
  }

  /** In every joint history the nucleus makes a run of the nucleus, the pager makes a run of the pager,
      and swapSem as the nucleus keeps it is the semaphore of that pager run. */
  lemma {:induction false} HistoryIsBothRuns(h: History, w: Wiring, i: nat)
    returns (r: NucleusRuns.Run, pr: PagerRuns.Run)
    requires IsHistory(h, w) && i < |h.states|
    ensures NucleusRuns.IsRun(r) && r.boot == h.boot && r.states[|r.events|] == h.states[i].n
    ensures PagerRuns.IsRun(pr) && pr.states[0] == h.states[0].q && pr.states[|pr.events|] == h.states[i].q
    ensures Tied(h.states[i], w)
  {
    hide NucleusInvariant.Inv, PagerRuns.IsBoot, NucleusRuns.IsBoot, Enabled, Step, Tied;
    if i == 0 {
      r := NucleusRuns.Run(h.boot, h.bootTod, [h.states[0].n], [], []);
      pr := PagerRuns.Run([h.states[0].q], []);
      TiedAtBoot(h.boot, h.bootTod, h.states[0], w);
    } else {
      r, pr := HistoryIsBothRuns(h, w, i - 1);
      assert Next(h, w, i - 1);
      NucleusRuns.Always(r, |r.events|);
      r, pr := ExtendBoth(h.states[i - 1], h.moves[i - 1], w, r, pr);
    }
  }

  lemma TiedAtBoot(boot: NucleusSpec.State, tod: int, j: Joint, w: Wiring)
    requires NucleusRuns.IsBoot(boot) && j.n == NucleusSpec.Schedule(boot, tod) && PagerRuns.IsBoot(j.q)
    requires NucleusSpec.UserSem(boot, w.a) && boot.mem[w.a] == 1
    ensures Tied(j, w)
  {
    assert NucleusSpec.Queue(j.n, w.a) == [];
  }

  lemma ExtendBoth(j: Joint, m: Move, w: Wiring, r: NucleusRuns.Run, pr: PagerRuns.Run)
    returns (r': NucleusRuns.Run, pr': PagerRuns.Run)
    requires Enabled(j, m, w) && Tied(j, w) && OneToOne(w.asid) && NucleusInvariant.Inv(j.n)
    requires NucleusRuns.IsRun(r) && r.states[|r.events|] == j.n
    requires PagerRuns.IsRun(pr) && pr.states[|pr.events|] == j.q
    ensures Tied(Step(j, m, w), w)
    ensures NucleusRuns.IsRun(r') && r'.boot == r.boot && r'.states[|r'.events|] == Step(j, m, w).n
    ensures PagerRuns.IsRun(pr') && pr'.states[0] == pr.states[0] && pr'.states[|pr'.events|] == Step(j, m, w).q
  {
    hide NucleusInvariant.Inv, PagerRuns.IsBoot, NucleusRuns.IsBoot, Tied, Seen, NucleusSpec.Enabled, NucleusSpec.Step,
         PagerSpec.Enabled, PagerSpec.Step;
    r', pr' := r, pr;
    match m
    case Call(e, t, g) =>
      CallTied(j, e, t, g, w);
      NucleusRuns.ExtendRun(r, e, t);
      r' := NucleusRuns.Extended(r, e, t);
      var seen := Seen(j.n, e, g, w);
      if seen != [] {
        assert seen[0] in seen;
        PagerRuns.ExtendRun(pr, seen[0]);
        pr' := PagerRuns.Extended(pr, seen[0]);
      }
    case Local(pe) =>
      LocalTied(j, pe, w);
      PagerRuns.ExtendRun(pr, pe);
      pr' := PagerRuns.Extended(pr, pe);
  }

  /** A user process is blocked on swapSem in the nucleus exactly when it waits there for the pager. */
  lemma WaitersAgree(h: History, w: Wiring, i: nat, p: Pcb)
    requires IsHistory(h, w) && i < |h.states| && p in w.asid && w.asid[p] in h.states[i].q.pc
    ensures p in NucleusSpec.Queue(h.states[i].n, w.a) <==> h.states[i].q.pc[w.asid[p]].Waiting?
  {
    hide NucleusRuns.IsRun, PagerRuns.IsRun;
    var r, pr := HistoryIsBothRuns(h, w, i);
    assert |pr.states| == |pr.events| + 1 by { LastState(pr); }
    PagerRuns.Always(pr, |pr.events|);
    var j, x := h.states[i], w.asid[p];
    var q := NucleusSpec.Queue(j.n, w.a);
    assert Asids(q, w.asid) == j.q.sem.queue;
    if p in q {
      var k :| 0 <= k < |q| && q[k] == p;
      assert j.q.sem.queue[k] == x;
    }
    if j.q.pc[x].Waiting? {
      assert x in j.q.sem.queue;
      var k :| 0 <= k < |q| && Asids(q, w.asid)[k] == x;
      assert q[k] in q && w.asid[q[k]] == x;
    }
  }

  lemma LastState(pr: PagerRuns.Run)
    requires PagerRuns.IsRun(pr)
    ensures |pr.states| == |pr.events| + 1
  {
  }
}
