/** Families of processes: who descends from whom, and what termination takes away. */
module NucleusFamily {
  import opened Sequences
  import opened ProcessQueues
  import opened ProcessTree
  import opened NucleusSpec
  import opened NucleusInvariant
  import opened NucleusRuns
  import opened NucleusPlacement

  // ---------- one tree ----------

  /** Every pcb that is not free, except the first process, is in exactly one child list. */
  lemma OneParent(r: Run, i: nat, c: Pcb) returns (p: Pcb)
    requires IsRun(r) && i < |r.states|
    requires c in r.states[i].procs && c !in r.states[i].free && c != r.states[i].root
    ensures var f := r.states[i].tree;
      ChildOf(f, c, p) && c !in Nodes(KidsOf(f, c)) && forall p' | ChildOf(f, c, p') :: p' == p
  {
    hide IsRun;
    Always(r, i);
    var f := r.states[i].tree;
    InTree(r.states[i], c);
    p := ParentExists(f, c);
    forall p' | ChildOf(f, c, p')
      ensures p' == p
    {
      ParentUnique(f, c, p, p');
    }
  }

  lemma InTree(s: State, c: Pcb)
    requires Inv(s) && c in s.procs && c !in s.free
    ensures Distinct(s.tree) && c in Nodes(s.tree) && Tops(s.tree) == {s.root}
    ensures c !in Nodes(KidsOf(s.tree, c))
  {
    hide BlockedOk, ReadyOk, TreeLive, MemoryShape, ValuesOk, CountsOk, ModeOk;
    assert Tops(s.tree.sibs) == {};
  }

  /** A new process comes off the free list, joins the ready queue last, and is the youngest child of
      its creator; the rest of the tree is as it was. It has a support structure exactly when the call passed
      one, and starts with no CPU time. */
  lemma CreateAdopts(r: Run, i: nat, c: Pcb, sup: bool)
    requires IsRun(r) && i < |r.events| && r.events[i] == Create(c, sup)
    ensures var s, s' := r.states[i], r.states[i + 1];
      && s.running != null && c in s.free && s'.free == s.free - {c} && s'.ready == s.ready + [c]
      && s'.running == s.running && s'.processCount == s.processCount + 1
      && KidsOf(s'.tree, s.running) == Cons(c, Nil, KidsOf(s.tree, s.running))
      && Nodes(s'.tree) == Nodes(s.tree) + {c} && KidsOf(s'.tree, c) == Nil
      && (forall x, y | x in Nodes(s'.tree) && y in Nodes(s'.tree) ::
            ChildOf(s'.tree, x, y) <==> ChildOf(s.tree, x, y) || (x == c && y == s.running))
      && (c in s'.support <==> sup) && (forall p | p in s.procs && p != c :: p in s'.support <==> p in s.support)
      && c in s'.time && s'.time[c] == 0
  {
    hide Inv;
    StepAt(r, i);
    var s := r.states[i];
    RunningInTree(s);
    SetKidsNodes(s.tree, s.running, Cons(c, Nil, KidsOf(s.tree, s.running)));
    NewLeaf(s.tree, s.running, c);
    forall x, y | x in Nodes(r.states[i + 1].tree) && y in Nodes(r.states[i + 1].tree)
      ensures ChildOf(r.states[i + 1].tree, x, y) <==> ChildOf(s.tree, x, y) || (x == c && y == s.running)
    {
      OnlyNewChild(s.tree, s.running, c, x, y);
    }
  }

  /** Adding c below r changes no other parent or child. */
  lemma OnlyNewChild(f: Forest, r: Pcb, c: Pcb, x: Pcb, y: Pcb)
    requires Distinct(f) && r in Nodes(f) && c !in Nodes(f)
    ensures var f' := SetKids(f, r, Cons(c, Nil, KidsOf(f, r)));
      ChildOf(f', x, y) <==> ChildOf(f, x, y) || (x == c && y == r)
  {
    SetKidsNodes(f, r, Cons(c, Nil, KidsOf(f, r)));
    if y in Nodes(f) {
      GrownKids(f, r, c, y);
    } else {
      NewLeaf(f, r, c);
    }
  }

  lemma TopsKept(f: Forest, r: Pcb, k': Forest)
    ensures Tops(SetKids(f, r, k')) == Tops(f)
  {
  }

  lemma {:induction false} GrownKids(f: Forest, r: Pcb, c: Pcb, y: Pcb)
    requires Distinct(f) && r in Nodes(f) && c !in Nodes(f) && y in Nodes(f)
    ensures Tops(KidsOf(SetKids(f, r, Cons(c, Nil, KidsOf(f, r))), y)) ==
      (if y == r then {c} else {}) + Tops(KidsOf(f, y))
  {
    match f
    case Cons(x, k, s) =>
      if x == r {
      } else if r in Nodes(k) {
        var k' := Cons(c, Nil, KidsOf(k, r));
        TopsKept(k, r, k');
        SetKidsNodes(k, r, k');
        if y in Nodes(k) {
          GrownKids(k, r, c, y);
        }
      } else {
        if y in Nodes(s) {
          GrownKids(s, r, c, y);
        }
      }
  }

  lemma RunningInTree(s: State)
    requires Inv(s) && s.running != null
    ensures Distinct(s.tree) && s.running in Nodes(s.tree) && Nodes(s.tree) !! s.free
  {
  }

  lemma {:induction false} NewLeaf(f: Forest, r: Pcb, c: Pcb)
    requires Distinct(f) && r in Nodes(f) && c !in Nodes(f)
    ensures KidsOf(SetKids(f, r, Cons(c, Nil, KidsOf(f, r))), c) == Nil
  {
    match f
    case Cons(x, k, s) =>
      if x != r {
        if r in Nodes(k) {
          NewLeaf(k, r, c);
          SetKidsNodes(k, r, Cons(c, Nil, KidsOf(k, r)));
        } else {
          NewLeaf(s, r, c);
        }
      }
  }

  /** A line of descent: each pcb is a child of the one before. */
  ghost predicate Descent(f: Forest, line: seq<Pcb>) {
    forall k | 0 < k < |line| :: ChildOf(f, line[k], line[k - 1])
  }

  lemma {:induction false} ChildInside(f: Forest, x: Pcb, c: Pcb, p: Pcb)
    requires Distinct(f) && x in Nodes(f) && ChildOf(KidsOf(f, x), c, p)
    ensures ChildOf(f, c, p)
  {
    match f
    case Cons(y, k, s) =>
      if y == x {
        KidsInside(f, p);
      } else if x in Nodes(k) {
        ChildInside(k, x, c, p);
        KidsInside(f, p);
      } else {
        ChildInside(s, x, c, p);
        KidsInside(f, p);
      }
  }

  lemma KidsInside(f: Forest, p: Pcb)
    requires Distinct(f) && f.Cons? && p in Nodes(f) && p != f.pcb
    ensures KidsOf(f, p) == if p in Nodes(f.kids) then KidsOf(f.kids, p) else KidsOf(f.sibs, p)
  {
  }

  /** Every pcb of a child list is reached from a top of that list. */
  lemma {:induction false} LineFrom(f: Forest, c: Pcb) returns (line: seq<Pcb>)
    requires Distinct(f) && c in Nodes(f)
    ensures line != [] && line[0] in Tops(f) && line[|line| - 1] == c && Descent(f, line)
  {
    match f
    case Cons(x, k, s) =>
      if c == x {
        line := [c];
      } else if c in Nodes(k) {
        var rest := LineFrom(k, c);
        line := [x] + rest;
        forall j | 0 < j < |line|
          ensures ChildOf(f, line[j], line[j - 1])
        {
          if j > 1 {
            assert ChildOf(k, rest[j - 1], rest[j - 2]);
            ChildInside(f, x, rest[j - 1], rest[j - 2]);
          }
        }
      } else {
        line := LineFrom(s, c);
        forall j | 0 < j < |line|
          ensures ChildOf(f, line[j], line[j - 1])
        {
          assert ChildOf(s, line[j], line[j - 1]);
          KidsInside(f, line[j - 1]);
        }
      }
  }

  /** Every live process descends from the first one. */
  lemma FirstIsAncestor(r: Run, i: nat, c: Pcb) returns (line: seq<Pcb>)
    requires IsRun(r) && i < |r.states| && c in Alive(r.states[i])
    ensures line != [] && line[0] == r.states[i].root && line[|line| - 1] == c && Descent(r.states[i].tree, line)
  {
    hide IsRun;
    Always(r, i);
    var s := r.states[i];
    LiveNotFree(s, c);
    InTree(s, c);
    line := LineFrom(s.tree, c);
  }

  lemma LiveNotFree(s: State, c: Pcb)
    requires Inv(s) && c in Alive(s)
    ensures c in s.procs && c !in s.free
  {
    LiveInTree(s);
  }

  // ---------- termination ----------

  /** Termination frees every descendant of the running process, and touches no one else: the others
      keep their queue and their order, and an ordinary semaphore rises by its waiters killed. */
  lemma TerminateKillsTheSubtree(s: State, e: Event, t: Tod)
    requires Inv(s) && Enabled(s, e) && Dies(s, e)
    ensures var (mid, d) := (Handle(s, e, t).0, Below(s, s.running));
      && mid.free == s.free + d && d !! s.free && s.running !in d
      && (forall p | p in d :: !Live(mid.ready, mid.semAdd, mid.running, p))
      && mid.ready == Minus(s.ready, d)
      && (forall a | a in s.mem ::
            && Queue(mid, a) == Minus(Queue(s, a), d)
            && mid.mem[a] == s.mem[a] + if IsDev(s.base, a) then 0 else |set p | p in Queue(s, a) && p in d|)
      && mid.processCount == s.processCount - 1 - |set p | p in d && p in Alive(s)|
      && mid.tree == SetKids(s.tree, s.running, Nil)
  {
    var d := Below(s, s.running);
    SubtreeFacts(s);
    MinusElements(s.ready, d);
    forall a | a in s.mem
      ensures Queue(Kill(s, d), a) == Minus(Queue(s, a), d)
      ensures |Queue(s, a)| - |Minus(Queue(s, a), d)| == |set p | p in Queue(s, a) && p in d|
    {
      KillQueueAt(s.queues, d, a);
      QueueFacts(s.queues, s.semAdd, a);
      MinusCount(Queue(s, a), d);
    }
    LiveKilled(s, d);
  }

  lemma SubtreeFacts(s: State)
    requires Inv(s) && s.running != null
    ensures Below(s, s.running) !! s.free && s.running !in Below(s, s.running) && Below(s, s.running) <= s.procs
    ensures BlockedOk(s.queues, s.semAdd) && ReadyOk(s.ready, s.semAdd, s.running)
  {
  }

  lemma LiveKilled(s: State, d: set<Pcb>)
    requires ReadyOk(s.ready, s.semAdd, s.running) && d <= s.procs && (s.running == null || s.running !in d)
    ensures |s.ready| - |Minus(s.ready, d)| + |s.semAdd| - |s.semAdd - d| == |set p | p in d && p in Alive(s)|
  {
    hide Minus;
    MinusCount(s.ready, d);
    MapCount(s.semAdd, d);
    LiveParts2(s, d);
    DisjointUnion((set p | p in s.ready && p in d), s.semAdd.Keys * d, {});
  }

  lemma MapCount<K, V>(m: map<K, V>, d: set<K>)
    ensures |m| - |m - d| == |m.Keys * d|
  {
    assert (m - d).Keys == m.Keys - d;
    assert m.Keys == (m.Keys - d) + (m.Keys * d);
  }

  lemma LiveParts2(s: State, d: set<Pcb>)
    requires ReadyOk(s.ready, s.semAdd, s.running) && d <= s.procs && (s.running == null || s.running !in d)
    ensures (set p | p in d && p in Alive(s)) == (set p | p in s.ready && p in d) + (s.semAdd.Keys * d) + {}
    ensures (set p | p in s.ready && p in d) !! s.semAdd.Keys * d
  {
  }

  /** When the first process terminates nothing is left, and the machine halts. */
  lemma FirstTerminatesHalts(r: Run, i: nat)
    requires IsRun(r) && i < |r.events| && r.states[i].running == r.states[i].root && Dies(r.states[i], r.events[i])
    ensures var s := r.states[i + 1];
      && s.mode == Halted && s.processCount == 0 && s.softBlockCount == 0
      && s.ready == [] && s.queues == map[] && s.semAdd == map[] && s.running == null
      && s.free == s.procs - {s.root}
  {
    StepAt(r, i);
    RootGone(r.states[i], r.events[i], r.tods[i]);
  }

  lemma RootGone(s: State, e: Event, t: Tod)
    requires Inv(s) && Enabled(s, e) && Dies(s, e) && s.running == s.root && Inv(Step(s, e, t))
    ensures var s' := Step(s, e, t);
      && s'.mode == Halted && s'.processCount == 0 && s'.softBlockCount == 0
      && s'.ready == [] && s'.queues == map[] && s'.semAdd == map[] && s'.running == null
      && s'.free == s'.procs - {s'.root}
  {
    TerminateCore(s);
    RootAlone(s);
    OnlyRoot(TerminateRunning(s));
  }

  lemma RootAlone(s: State)
    requires Inv(s) && s.running == s.root
    ensures var s' := TerminateRunning(s);
      s'.tree == Cons(s.root, Nil, Nil) && s.root !in s'.ready && s.root !in s'.semAdd
  {
    MinusElements(s.ready, Below(s, s.running));
  }

  lemma HeadWaits(queues: map<int, seq<Pcb>>, semAdd: map<Pcb, int>, a: int)
    requires BlockedOk(queues, semAdd) && a in queues
    ensures semAdd.Keys != {}
  {
    assert QueueOf(semAdd, a, queues[a]);
    assert queues[a][0] in queues[a];
  }

  lemma NoWaiters(queues: map<int, seq<Pcb>>, semAdd: map<Pcb, int>)
    requires BlockedOk(queues, semAdd) && semAdd == map[]
    ensures queues == map[]
  {
    hide BlockedOk;
    forall a
      ensures a !in queues
    {
      if a in queues {
        HeadWaits(queues, semAdd, a);
      }
    }
  }

  lemma OnlyInTree(s: State)
    requires Core(s)
    ensures s.ready != [] ==> s.ready[0] in s.ready && s.ready[0] in Nodes(s.tree)
    ensures BlockedOk(s.queues, s.semAdd)
    ensures forall p | p in s.semAdd :: p in Nodes(s.tree)
  {
  }

  /** With the first process gone from every queue and nothing below it, every queue is empty. */
  lemma OnlyRoot(s: State)
    requires Core(s) && s.tree == Cons(s.root, Nil, Nil)
    requires s.root !in s.ready && s.root !in s.semAdd
    ensures s.ready == [] && s.semAdd == map[] && s.queues == map[] && s.free == s.procs - {s.root}
  {
    hide Core;
    OnlyInTree(s);
    FreeRest(s);
    assert s.semAdd.Keys == {};
    NoWaiters(s.queues, s.semAdd);
  }

  lemma FreeRest(s: State)
    requires Core(s) && s.tree == Cons(s.root, Nil, Nil)
    ensures Nodes(s.tree) == {s.root} && s.free == s.procs - {s.root}
  {
  }
}
