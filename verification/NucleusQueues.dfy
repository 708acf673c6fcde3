/** How one step moves processes: on each semaphore, and through the ready queue. */
module NucleusQueues {
  import opened Sequences
  import opened ProcessQueues
  import opened ActiveSemaphores
  import opened NucleusSpec
  import opened NucleusInvariant
  import opened Semaphores

  ghost function View(s: State, a: int): Sem<Pcb>
    requires a in s.mem
  {
    Sem(s.mem[a], Queue(s, a))
  }

  /** The semaphore a step performs P on, V on, or resets; 0 if none. */
  ghost function Target(s: State, e: Event): int {
    match e
    case Passeren(a) => a
    case Verhogen(a) => a
    case WaitDevice(line, dev, read) => DevAddr(s.base, DevIndex(line, dev, read))
    case WaitClock => DevAddr(s.base, CLOCK)
    case DeviceInterrupt(line, dev, read) => DevAddr(s.base, DevIndex(line, dev, read))
    case ClockTick => DevAddr(s.base, CLOCK)
    case _ => 0
  }

  ghost function ViewAfter(s: State, e: Event, a: int): Sem<Pcb>
    requires a in s.mem && Enabled(s, e)
  {
    if a == Target(s, e) && e.ClockTick? then Sem(0, [])
    else if a == Target(s, e) && (e.Verhogen? || e.DeviceInterrupt?) then Up(View(s, a))
    else if a == Target(s, e) && (e.Passeren? || e.WaitDevice? || e.WaitClock?) then Down(View(s, a), s.running)
    else if Kills(s, e) != {} then Reap(View(s, a), Kills(s, e), !IsDev(s.base, a))
    else View(s, a)
  }

  lemma KillView(s: State, d: set<Pcb>, a: int)
    requires a in s.mem
    ensures View(Kill(s, d), a) == Reap(View(s, a), d, !IsDev(s.base, a))
  {
    KillQueueAt(s.queues, d, a);
  }

  lemma NoKillView(s: State, a: int)
    requires a in s.mem
    ensures View(Kill(s, {}), a) == View(s, a)
  {
    KillView(s, {}, a);
    MinusNone(Queue(s, a), {});
  }

  lemma KillRunningView(s: State, a: int)
    requires a in s.mem && s.running != null
    ensures a in TerminateRunning(s).mem
    ensures var d := Below(s, s.running);
      View(TerminateRunning(s), a) == if d == {} then View(s, a) else Reap(View(s, a), d, !IsDev(s.base, a))
  {
    KillView(s, Below(s, s.running), a);
    NoKillView(s, a);
  }

  lemma BlockView(s: State, b: int, p: Pcb, a: int)
    requires a in s.mem && b in s.mem
    ensures var s' := Store(s, b, -1);
      && View(Block(s', b, p), a) == (if a == b then Sem(s.mem[a] - 1, Queue(s, a) + [p]) else View(s, a))
      && View(s', a) == if a == b then Sem(s.mem[a] - 1, Queue(s, a)) else View(s, a)
  {
  }

  lemma SignalView(s: State, b: int, a: int)
    requires a in s.mem && b in s.mem
    ensures a in Signal(s, b).mem
    ensures View(Signal(s, b), a) == if a == b then Up(View(s, a)) else View(s, a)
  {
  }

  lemma ViewHandle(s: State, e: Event, t: Tod, a: int)
    requires Enabled(s, e) && a in s.mem && LegalAddress(a)
    ensures a in Handle(s, e, t).0.mem && View(Handle(s, e, t).0, a) == ViewAfter(s, e, a)
  {
    hide Signal, Kill, TerminateRunning, Reap, Up, DevIndex, Below;
    var b := Target(s, e);
    if e.WaitDevice? || e.DeviceInterrupt? {
      ClockIsLast(s.base, e.line, e.dev, e.read);
    }
    if e.Terminate? || e.Trap? {
      KillRunningView(s, a);
    } else if e.Verhogen? || e.DeviceInterrupt? {
      SignalView(s, b, a);
    } else if e.Passeren? {
      BlockView(s, b, s.running, a);
    } else if e.WaitDevice? || e.WaitClock? {
      BlockView(AddTime(s, s.running, t.stop - s.startTod), b, s.running, a);
      BlockView(s, b, s.running, a);
    }
  }

  /** Every step treats every semaphore as one P, one V, one reset, one kill, or nothing. */
  lemma ViewStep(s: State, e: Event, t: Tod, a: int)
    requires Enabled(s, e) && a in s.mem && LegalAddress(a)
    ensures a in Step(s, e, t).mem && View(Step(s, e, t), a) == ViewAfter(s, e, a)
  {
    hide Handle, ViewAfter;
    ViewHandle(s, e, t, a);
  }

  // ---------- the ready queue ----------

  ghost function IndexOf<T>(q: seq<T>, p: T): nat
    requires p in q
  {
    if q[0] == p then 0 else 1 + IndexOf(q[1..], p)
  }

  lemma {:induction false} IndexInMinus<T>(q: seq<T>, d: set<T>, p: T)
    requires p in q && p !in d
    ensures p in Minus(q, d) && IndexOf(Minus(q, d), p) <= IndexOf(q, p)
  {
    MinusElements(q, d);
    if q[0] != p {
      IndexInMinus(q[1..], d, p);
      if q[0] !in d {
        assert Minus(q, d)[1..] == Minus(q[1..], d);
      }
    }
  }

  lemma {:induction false} IndexInPrefix<T>(q: seq<T>, r: seq<T>, p: T)
    requires p in q && q <= r
    ensures p in r && IndexOf(r, p) == IndexOf(q, p)
  {
    assert r == q + r[|q|..];
    if q[0] != p {
      IndexInPrefix(q[1..], r[1..], p);
    }
  }

  /** Before it reaches the scheduler, a step only deletes killed processes and appends. */
  lemma HandleReady(s: State, e: Event, t: Tod)
    requires Enabled(s, e)
    ensures Minus(s.ready, Kills(s, e)) <= Handle(s, e, t).0.ready
  {
    hide Kills, Reap, Up, DevIndex, Below, ValueOk, Soft, KillQueues;
    if Kills(s, e) == {} {
      MinusNone(s.ready, {});
      SurvivorsKept(s, e, t);
    } else {
      KillersKept(s, e, t);
    }
  }

  lemma KillersKept(s: State, e: Event, t: Tod)
    requires Enabled(s, e) && Kills(s, e) != {}
    ensures Handle(s, e, t).0.ready == Minus(s.ready, Kills(s, e))
  {
  }

  lemma SurvivorsKept(s: State, e: Event, t: Tod)
    requires Enabled(s, e) && Kills(s, e) == {}
    ensures s.ready <= Handle(s, e, t).0.ready
  {
    MinusNone(s.ready, {});
  }

  ghost predicate Dispatches(s: State, e: Event, t: Tod)
    requires Enabled(s, e)
  {
    Handle(s, e, t).1 && Handle(s, e, t).0.ready != []
  }

  /** A process in the ready queue moves up with every dispatch and never moves back. */
  lemma MovesUp(s: State, e: Event, t: Tod, p: Pcb)
    requires Enabled(s, e) && p in s.ready && p !in Kills(s, e)
    ensures var s' := Step(s, e, t);
      || (Dispatches(s, e, t) && s'.running == p)
      || (p in s'.ready && IndexOf(s'.ready, p) <= IndexOf(s.ready, p) - if Dispatches(s, e, t) then 1 else 0)
  {
    hide Handle, Kills;
    var mid := Handle(s, e, t).0;
    IndexInMinus(s.ready, Kills(s, e), p);
    HandleReady(s, e, t);
    IndexInPrefix(Minus(s.ready, Kills(s, e)), mid.ready, p);
  }

  // ---------- no overtaking ----------

  /** p has been served no later than q: it runs, or stands ahead of q in the ready queue. */
  ghost predicate ServedFirst(s: State, p: Pcb, q: Pcb) {
    s.running == p || Ahead(s.ready, p, q)
  }

  lemma TickServes(s: State, e: Event, t: Tod, p: Pcb, q: Pcb)
    requires Enabled(s, e) && e.ClockTick? && Ahead(Queue(s, Target(s, e)), p, q)
    ensures ServedFirst(Step(s, e, t), p, q)
  {
    var w := Queue(s, DevAddr(s.base, CLOCK));
    var n := |s.ready|;
    var r := Handle(s, e, t).0.ready;
    var i, j :| 0 <= i < j < |w| && w[i] == p && w[j] == q;
    assert r[n + i] == p && r[n + j] == q;
    if n + i > 0 {
      assert r[1..][n + i - 1] == p && r[1..][n + j - 1] == q;
    }
  }

  /** Neither a V, nor an interrupt, nor a tick, nor a kill elsewhere releases q before p. */
  lemma StepKeepsOrder(s: State, e: Event, t: Tod, a: int, p: Pcb, q: Pcb)
    requires Inv(s) && Enabled(s, e) && a in s.mem && Ahead(Queue(s, a), p, q)
    requires p !in Kills(s, e) && q !in Kills(s, e)
    ensures var s' := Step(s, e, t); var w := Queue(s', a);
      || Ahead(w, p, q)
      || (p !in w && q in w)
      || (p !in w && q !in w && ServedFirst(s', p, q))
  {
    hide Step, Handle, Inv, Kills, ServedFirst;
    var s' := Step(s, e, t);
    assert LegalAddress(a) by { InWords(s, a); }
    ViewStep(s, e, t, a);
    assert Queue(s', a) == ViewAfter(s, e, a).queue;
    var w := Queue(s, a);
    var i, j :| 0 <= i < j < |w| && w[i] == p && w[j] == q;
    if a == Target(s, e) && e.ClockTick? {
      TickServes(s, e, t, p, q);
    } else if a == Target(s, e) && (e.Verhogen? || e.DeviceInterrupt?) {
      TailOrder(s, a, w, i, j);
    } else if a == Target(s, e) && (e.Passeren? || e.WaitDevice? || e.WaitClock?) {
      assert (w + [s.running])[i] == p && (w + [s.running])[j] == q;
    } else {
      MinusAhead(w, Kills(s, e), p, q);
    }
  }

  lemma InWords(s: State, a: int)
    requires Inv(s) && a in s.mem
    ensures LegalAddress(a)
  {
  }

  lemma TailOrder(s: State, a: int, w: seq<Pcb>, i: nat, j: nat)
    requires Inv(s) && w == Queue(s, a) && i < j < |w|
    ensures i > 0 ==> Ahead(w[1..], w[i], w[j])
    ensures i == 0 ==> w[i] !in w[1..] && w[j] in w[1..]
  {
    QueueFacts(s.queues, s.semAdd, a);
    assert w[1..][j - 1] == w[j];
    if i > 0 {
      assert w[1..][i - 1] == w[i];
    }
  }
}
