/** The pager itself: swap pool, page tables and victim index, updated in place, refining PagerSpec.Step. */
module Pager {
  import opened Sequences
  import opened Semaphores
  import opened PagerSpec
  import opened PagerInvariant
  import opened PagerRuns

  /** An entry of sup_privatePgTbl: the valid bit and the frame number of entryLO. */
  class PageEntry {
    var valid: bool
    var frame: int

    constructor ()
      ensures !valid
    {
      valid, frame := false, 0;
    }
  }

  /** swap_t */
  class SwapFrame {
    var id: int
    var pageNo: int
    var pgptr: PageEntry?

    constructor ()
    {
      id, pageNo, pgptr := 0, 0, null;
    }
  }

  /** The entries of all page tables, asid by asid from 1 on. */
  ghost predicate Tables(tables: seq<seq<PageEntry>>, pages: nat) {
    && (forall a | 0 <= a < |tables| :: |tables[a]| == pages)
    && (forall a, g, a', g' {:trigger tables[a][g], tables[a'][g']} |
          0 <= a < |tables| && 0 <= g < pages && 0 <= a' < |tables| && 0 <= g' < pages && (a, g) != (a', g') ::
          tables[a][g] != tables[a'][g'])
  }

  ghost predicate IsAsid(p: int, n: int) {
    1 <= p <= n
  }

  ghost predicate InTables(tables: seq<seq<PageEntry>>, pages: nat, x: Page) {
    1 <= x.asid <= |tables| && 0 <= x.no < pages
  }

  function EntryOf(tables: seq<seq<PageEntry>>, ghost pages: nat, x: Page): PageEntry
    requires Tables(tables, pages) && InTables(tables, pages, x)
  {
    tables[x.asid - 1][x.no]
  }

  ghost function Entries(tables: seq<seq<PageEntry>>): set<PageEntry> {
    set a, g | 0 <= a < |tables| && 0 <= g < |tables[a]| :: tables[a][g]
  }

  /** Pages that exist have entries of their own, whose valid bits and frame numbers are as in valid. */
  ghost predicate EntriesOk(tables: seq<seq<PageEntry>>, pages: nat, valid: map<Page, int>)
    requires Tables(tables, pages)
    reads Entries(tables)
  {
    && (forall x | x in valid :: InTables(tables, pages, x))
    && (forall x {:trigger InTables(tables, pages, x)} | InTables(tables, pages, x) ::
          EntryOk(EntryOf(tables, pages, x), valid, x))
  }

  ghost predicate EntryOk(entry: PageEntry, valid: map<Page, int>, x: Page)
    reads entry
  {
    (entry.valid <==> x in valid) && (x in valid ==> entry.frame == valid[x])
  }

  /** Frame records say which page they hold; one in use points back at that page's entry. */
  ghost predicate RecordsOk(pool: seq<SwapFrame>, tables: seq<seq<PageEntry>>, pages: nat, frames: seq<Frame>)
    requires Tables(tables, pages)
    reads pool
  {
    |frames| == |pool| && forall f | 0 <= f < |pool| :: RecordOk(pool[f], tables, pages, frames[f])
  }

  ghost predicate RecordOk(r: SwapFrame, tables: seq<seq<PageEntry>>, pages: nat, frame: Frame)
    requires Tables(tables, pages)
    reads r
  {
    match frame
    case Empty => r.id == -1
    case Holding(x) =>
      InTables(tables, pages, x) && r.id == x.asid && r.pageNo == x.no && r.pgptr == EntryOf(tables, pages, x)
  }

  method Invalidate(entry: PageEntry, ghost tables: seq<seq<PageEntry>>, ghost pages: nat,
                    ghost valid: map<Page, int>, ghost x: Page)
    requires Tables(tables, pages) && EntriesOk(tables, pages, valid)
    requires InTables(tables, pages, x) && entry == EntryOf(tables, pages, x)
    modifies entry
    ensures EntriesOk(tables, pages, valid - {x})
  {
    entry.valid := false;
    forall y | InTables(tables, pages, y)
      ensures EntryOk(EntryOf(tables, pages, y), valid - {x}, y)
    {
      assert y != x ==> tables[y.asid - 1][y.no] != tables[x.asid - 1][x.no];
      assert old(EntryOk(EntryOf(tables, pages, y), valid, y));
    }
  }

  method Validate(entry: PageEntry, v: int, ghost tables: seq<seq<PageEntry>>, ghost pages: nat,
                  ghost valid: map<Page, int>, ghost x: Page)
    requires Tables(tables, pages) && EntriesOk(tables, pages, valid)
    requires InTables(tables, pages, x) && entry == EntryOf(tables, pages, x)
    modifies entry
    ensures EntriesOk(tables, pages, valid[x := v])
  {
    entry.frame := v;
    entry.valid := true;
    forall y | InTables(tables, pages, y)
      ensures EntryOk(EntryOf(tables, pages, y), valid[x := v], y)
    {
      assert y != x ==> tables[y.asid - 1][y.no] != tables[x.asid - 1][x.no];
      assert old(EntryOk(EntryOf(tables, pages, y), valid, y));
    }
  }

  /** swapPool[v] takes down that it now holds page x. */
  method Record(pool: seq<SwapFrame>, v: int, asid: int, missingNo: int, entry: PageEntry,
                ghost tables: seq<seq<PageEntry>>, ghost pages: nat, ghost frames: seq<Frame>)
    requires Tables(tables, pages) && RecordsOk(pool, tables, pages, frames) && NoDup(pool) && 0 <= v < |pool|
    requires InTables(tables, pages, Page(asid, missingNo)) && entry == EntryOf(tables, pages, Page(asid, missingNo))
    modifies pool[v]
    ensures RecordsOk(pool, tables, pages, frames[v := Holding(Page(asid, missingNo))])
  {
    var frame := pool[v];
    frame.id := asid;
    frame.pageNo := missingNo;
    frame.pgptr := entry;
    forall f | 0 <= f < |pool| && f != v
      ensures RecordOk(pool[f], tables, pages, frames[f])
    {
      assert old(RecordOk(pool[f], tables, pages, frames[f]));
    }
  }

  class Pager {
    var i: int
    var swapSem: int
    /** The queue the nucleus keeps for swapSem, by asid. */
    var waiting: seq<int>
    const swapPool: seq<SwapFrame>
    const tables: seq<seq<PageEntry>>
    const pages: nat
    ghost var st: State

    ghost predicate Valid()
      reads this, swapPool, Entries(tables)
    {
      && NoDup(swapPool) && Tables(tables, pages)
      && i == st.victim && swapSem == st.sem.value && waiting == st.sem.queue
      && st.size == |swapPool| && st.pages == pages
      && (forall p | p in st.pc :: IsAsid(p, |tables|))
      && EntriesOk(tables, pages, st.valid)
      && RecordsOk(swapPool, tables, pages, st.frames)
      && Inv(st)
    }

    /** main's static initialisers, and the loops of test. */
    constructor (poolSize: nat, asids: nat, pageCount: nat)
      requires poolSize > 0
      ensures Valid() && IsBoot(st) && st.size == poolSize && st.pages == pageCount
      ensures |tables| == asids && forall p | IsAsid(p, asids) :: p in st.pc && p in st.alive
      ensures fresh(swapPool) && fresh(Entries(tables))
    {
      var pool := EmptyPool(poolSize);
      var entries := EmptyTables(asids, pageCount);
      i, swapSem, waiting := 0, 1, [];
      swapPool, tables, pages := pool, entries, pageCount;
      var users := set p | 0 <= p <= asids && IsAsid(p, asids);
      st := State(poolSize, pageCount, 0, Sem(1, []), map p | p in users :: User, users,
                  seq(poolSize, _ => Empty), map[], [], []);
      new;
      BootOk(st);
    }

    /** pickVictim */
    method PickVictim(ghost p: int) returns (v: int)
      requires Valid() && Enabled(st, Pick(p))
      modifies this
      ensures Valid() && st == Step(old(st), Pick(p)) && v == st.victim && v == st.pc[p].f
      ensures v == (old(i) + 1) % |swapPool|
    {
      hide Inv, RecordsOk;
      PickOk(st, p);
      i := NextVictim(i, |swapPool|);
      st := Step(st, Pick(p));
      v := i;
    }

    /** vmSupport.c, lines 38-45: the page in the chosen frame, if any, becomes invalid before it is written back. */
    method InvalidateVictim(ghost p: int, v: int) returns (occupied: bool)
      requires Valid() && Enabled(st, Evict(p)) && v == st.pc[p].f
      modifies this, Entries(tables)
      ensures Valid() && st == Step(old(st), Evict(p))
      ensures 0 <= v < |swapPool| && (occupied <==> swapPool[v].id != -1)
      ensures occupied <==> |st.loads| >= |swapPool|
      ensures old(st).frames[v] == if occupied then Holding(st.loads[|st.loads| - |swapPool|]) else Empty
    {
      hide Inv, EntriesOk;
      EvictOk(st, p);
      EvictOldest(st, p);
      ghost var s := st;
      var frame := swapPool[v];
      assert RecordOk(frame, tables, pages, s.frames[v]);
      occupied := frame.id != -1;
      st := Step(st, Evict(p));
      if occupied {
        Invalidate(frame.pgptr, tables, pages, s.valid, s.frames[v].page);
      }
    }

    /** vmSupport.c, lines 53-59: the frame record and the page table entry of the missing page, with interrupts off. */
    method InstallPage(asid: int, missingNo: int, v: int)
      requires Valid() && Enabled(st, Install(asid)) && st.pc[asid] == Reading(missingNo, v)
      requires 0 <= missingNo < pages
      modifies this, swapPool, Entries(tables)
      ensures Valid() && st == Step(old(st), Install(asid))
    {
      hide Inv, EntriesOk, RecordsOk;
      InstallOk(st, asid);
      ghost var s := st;
      st := Step(st, Install(asid));
      var entry := tables[asid - 1][missingNo];
      Record(swapPool, v, asid, missingNo, entry, tables, pages, s.frames);
      Validate(entry, v, tables, pages, s.valid, Page(asid, missingNo));
    }

    /** vmSupport.c, line 32: P on swapSem; the process waits unless the mutex was free. */
    method Enter(p: int, ghost g: int) returns (blocked: bool)
      requires Valid() && Enabled(st, Fault(p, g))
      modifies this
      ensures Valid() && st == Step(old(st), Fault(p, g))
      ensures blocked <==> old(st.sem.value) <= 0
      ensures blocked ==> st.pc[p] == Waiting(g) && st.sem.queue == old(st.sem.queue) + [p]
      ensures !blocked ==> st.pc[p] == Entered(g) && Inside(st.pc) == {p} && st.sem == Sem(0, [])
    {
      hide RecordsOk, TablesOk, LabelsOk, StaleOk, OrderOk;
      FaultOk(st, p, g);
      swapSem := swapSem - 1;
      blocked := swapSem < 0;
      if blocked {
        waiting := waiting + [p];
      }
      st := Step(st, Fault(p, g));
      if !blocked {
        Alone(st, p);
      }
    }

    lemma RecordAt(v: int)
      requires Valid() && 0 <= v < |swapPool|
      ensures v < |st.frames| && match st.frames[v]
        case Empty => swapPool[v].id == -1
        case Holding(x) => x == Page(swapPool[v].id, swapPool[v].pageNo)
    {
      hide Inv, EntriesOk;
      assert RecordOk(swapPool[v], tables, pages, st.frames[v]);
    }

    /** vmSupport.c, line 45: the page that the record of frame v names has reached the backing store. */
    ghost method WriteBackDone(p: int, v: int) returns (x: Page)
      requires Valid() && Enabled(st, Written(p)) && v == st.pc[p].f
      modifies this`st
      ensures Valid() && st == Step(old(st), Written(p)) && st.written == old(st.written) + [x]
      ensures 0 <= v < |swapPool| && x == Page(swapPool[v].id, swapPool[v].pageNo)
    {
      hide Inv, RecordsOk;
      WrittenOk(st, p);
      RecordAt(v);
      x := st.frames[v].page;
      st := Step(st, Written(p));
    }

    /** vmSupport.c, line 61: V on swapSem, which lets the longest waiting process in; 0 if nobody waits. */
    method Leave(p: int) returns (next: int)
      requires Valid() && Enabled(st, Release(p))
      modifies this
      ensures Valid() && st == Step(old(st), Release(p)) && st.pc[p].User?
      ensures old(st.sem.queue) == [] ==> next == 0 && st.sem == Sem(1, []) && Inside(st.pc) == {}
      ensures old(st.sem.queue) != [] ==>
        && next == old(st.sem.queue[0]) && next > 0 && next in st.pc && st.pc[next].Entered? && Inside(st.pc) == {next}
        && st.sem.queue == old(st.sem.queue[1..])
    {
      hide RecordsOk, TablesOk, LabelsOk, StaleOk, OrderOk;
      ReleaseOk(st, p);
      HolderFacts(st, p);
      swapSem := swapSem + 1;
      next := 0;
      if swapSem <= 0 && waiting != [] {
        next := waiting[0];
        waiting := waiting[1..];
      }
      st := Step(st, Release(p));
      if next != 0 {
        Alone(st, next);
      }
    }

    lemma HolderFacts(s: State, p: int)
      requires Inv(s) && p in s.pc && Critical(s.pc[p])
      ensures s.sem.value <= 0 && (s.sem.value < 0 <==> s.sem.queue != [])
      ensures forall q | q in s.sem.queue :: q != p && q in s.pc && s.pc[q].Waiting?
      ensures s.sem.queue != [] ==> s.sem.queue[0] in s.sem.queue
    {
      OnlyInside(s, p);
    }

    /** terminateProcess of the processes in d: each one that waits leaves the queue and gives its unit
        back, a holder's unit stays lost. */
    method Terminated(d: set<int>)
      requires Valid()
      modifies this
      ensures Valid() && Enabled(old(st), Kill(d)) && st == Step(old(st), Kill(d))
      ensures swapSem == old(swapSem) + |set p | p in old(waiting) && p in d|
    {
      hide RecordsOk, TablesOk, LabelsOk, StaleOk, OrderOk;
      KillOk(st, d);
      var killed, left := Sift(waiting, d);
      swapSem, waiting, st := swapSem + killed, left, Step(st, Kill(d));
    }

    /** How many of q are in d, and the others in their order. */
    static method Sift(q: seq<int>, d: set<int>) returns (killed: nat, left: seq<int>)
      requires NoDup(q)
      ensures left == Minus(q, d) && killed == |q| - |left| && killed == |set p | p in q && p in d|
    {
      killed, left := 0, [];
      for k := 0 to |q|
        invariant left == Minus(q[..k], d) && killed == k - |left|
      {
        MinusSnoc(q[..k], q[k], d);
        assert q[..k + 1] == q[..k] + [q[k]];
        if q[k] in d {
          killed := killed + 1;
        } else {
          left := left + [q[k]];
        }
      }
      assert q[..|q|] == q;
      MinusCount(q, d);
    }

    lemma Sizes()
      requires Valid()
      ensures st.pages == pages && st.size == |swapPool|
    {
    }

    lemma ChosenSlot(p: int)
      requires Valid() && p in st.pc && st.pc[p].Picked?
      ensures st.pc[p].f == Slot(|st.loads|, |swapPool|)
    {
      OnlyInside(st, p);
    }

    /** tlbExceptionHandler: the process blocks on a mutex that is taken; otherwise, if nothing interrupts
        it, the missing page becomes resident in the next slot and the process leaves again. */
    method HandlePageFault(asid: int, missingNo: int) returns (blocked: bool)
      requires Valid() && Enabled(st, Fault(asid, missingNo))
      modifies this, swapPool, Entries(tables)
      ensures Valid() && (blocked <==> old(st.sem.value) <= 0)
      ensures blocked ==> st == Step(old(st), Fault(asid, missingNo))
      ensures !blocked ==> Served(old(st), st, asid, missingNo) && st.sem == Sem(1, [])
    {
      hide RecordsOk, EntriesOk, Inv, Slot;
      Sizes();
      blocked := Enter(asid, missingNo);
      if !blocked {
        var _, _ := ServeFault(asid, missingNo);
      }
    }

    /** vmSupport.c, lines 34-62: what a process does once it is inside, at once or after it was woken. */
    method ServeFault(asid: int, missingNo: int) returns (next: int, ghost wrote: seq<Page>)
      requires Valid() && Enabled(st, Pick(asid)) && st.pc[asid] == Entered(missingNo)
      requires 0 <= missingNo < pages
      modifies this, swapPool, Entries(tables)
      ensures Valid() && Served(old(st), st, asid, missingNo)
      ensures st.sem == Up(old(st.sem)) && (next == 0 <==> old(st.sem.queue) == [])
      ensures next != 0 ==> next == old(st.sem.queue[0]) && Inside(st.pc) == {next}
      ensures st.written == old(st.written) + wrote && |swapPool| > 0
      ensures var frame := swapPool[(old(i) + 1) % |swapPool|];
        wrote == if old(frame.id) != -1 then [Page(old(frame.id), old(frame.pageNo))] else []
    {
      hide RecordsOk, EntriesOk, Inv, Slot, Valid;
      Sizes();
      wrote := [];
      var victimIndex := PickVictim(asid);
      ChosenSlot(asid);
      var occupied := InvalidateVictim(asid, victimIndex);
      if occupied {
        ghost var x := WriteBackDone(asid, victimIndex);
        wrote := [x];
      }
      InstallPage(asid, missingNo, victimIndex);
      next := Leave(asid);
    }
  }

  /** The page missing in s is the latest one loaded in s', in the next slot, the oldest page of a full pool
      has been written back, and the process is back. */
  ghost predicate Served(s: State, s': State, asid: int, g: int) {
    && s'.loads == s.loads + [Page(asid, g)] && s'.size == s.size && s.size > 0
    && s'.written == s.written + (if |s.loads| < s.size then [] else [s.loads[|s.loads| - s.size]])
    && Page(asid, g) in s'.valid && s'.valid[Page(asid, g)] == Slot(|s.loads|, s.size)
    && asid in s'.pc && s'.pc[asid].User?
  }

  method EmptyPool(n: nat) returns (pool: seq<SwapFrame>)
    ensures |pool| == n && NoDup(pool) && fresh(pool) && forall f | f in pool :: f.id == -1
  {
    pool := [];
    for k := 0 to n
      invariant |pool| == k && NoDup(pool) && fresh(pool) && forall f | f in pool :: f.id == -1
    {
      var f := new SwapFrame();
      f.id := -1;
      f.pageNo := k;
      f.pgptr := null;
      pool := pool + [f];
    }
  }

  method EmptyTable(pages: nat) returns (table: seq<PageEntry>)
    ensures |table| == pages && NoDup(table) && fresh(table) && forall e | e in table :: !e.valid
  {
    table := [];
    for j := 0 to pages
      invariant |table| == j && NoDup(table) && fresh(table) && forall e | e in table :: !e.valid
    {
      var e := new PageEntry();
      table := table + [e];
    }
  }

  method EmptyTables(n: nat, pages: nat) returns (tables: seq<seq<PageEntry>>)
    ensures |tables| == n && Tables(tables, pages) && fresh(Entries(tables)) && EntriesOk(tables, pages, map[])
  {
    tables := [];
    for k := 0 to n
      invariant |tables| == k && Tables(tables, pages)
      invariant forall a, g {:trigger tables[a][g]} | 0 <= a < k && 0 <= g < pages ::
        fresh(tables[a][g]) && !tables[a][g].valid
    {
      var table := EmptyTable(pages);
      tables := tables + [table];
    }
  }
}
