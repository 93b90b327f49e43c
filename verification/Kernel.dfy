/** The kernel's data and service routines in place (isr.c, main.c): arrays, queues and tables
    updated step by step, each routine proved to change the abstract state as KernelState says. */
module Kernel {
  import opened Params
  import opened Port
  import opened KernelState
  import opened Partition
  import opened Pages
  import opened Invariant
  import opened Lifecycle
  import opened Runs
  import opened Queues
  import opened Tables
  import Paging
  import ChildMemory
  import opened PageTables

  /** A loop of InitKernelData that fills a queue with 0, 1, ..., n - 1. */
  method FillWithIndices(q: IntQueue, n: nat)
    requires q.Holds([]) && n <= Q_LEN
    modifies q, q.q
    ensures q.Holds(Interval(0, n))
  {
    for i := 0 to n
      invariant q.Holds(Interval(0, i))
    {
      q.EnQ(i);
      assert Interval(0, i) + [i] == Interval(0, i + 1);
    }
  }

  /** The kernel after InitKernelData and n process starts. */
  function Started(t: int, n: nat): State
    requires n <= MAX_PROC_NUM
  {
    State(
      seq(MAX_PROC_NUM, k requires 0 <= k < MAX_PROC_NUM =>
        if k < n then BLANK_PCB.(state := Ready, table := t) else BLANK_PCB),
      0, if n == 0 then [] else Interval(1, n - 1), Interval(n, MAX_PROC_NUM - n), [],
      seq(Q_LEN, _ => Sem(0, [])), Interval(0, Q_LEN),
      seq(MAX_PROC_NUM, _ => Mailbox([], [])), seq(MAX_PROC_NUM, _ => BLANK_MSG),
      seq(DRAM_PAGE_COUNT, _ => -1), 0,
      Port([], [], [], 0, 0, false, false, []), t)
  }

  function NoProcesses(): seq<Pcb> {
    seq(MAX_PROC_NUM, _ => BLANK_PCB)
  }

  function NoMail(): seq<Mailbox> {
    seq(MAX_PROC_NUM, _ => Mailbox([], []))
  }

  function NoOwners(): seq<int> {
    seq(DRAM_PAGE_COUNT, _ => -1)
  }

  /** The kernel as loaded, its globals zeroed; the page owners are set by InitKernelData. */
  function Empty(t: int, owner: seq<int>): State {
    State(
      NoProcesses(), 0, [], [], [],
      seq(Q_LEN, _ => Sem(0, [])), [], NoMail(), seq(MAX_PROC_NUM, _ => BLANK_MSG),
      owner, 0, Port([], [], [], 0, 0, false, false, []), t)
  }

  /** What InitKernelData makes of any kernel data. */
  function Initialised(s: State, cr3: int): State {
    s.(pcb := NoProcesses(), running := 0, ready := [], free := Interval(0, MAX_PROC_NUM), asleep := [],
       semFree := Interval(0, Q_LEN), mbox := NoMail(), owner := NoOwners(), clock := 0, osTable := cr3)
  }

  lemma InitialisedIsStarted(s: State, t: int)
    requires s == Empty(s.osTable, s.owner)
    ensures Initialised(s, t) == Started(t, 0)
  {
    assert NoProcesses() == Started(t, 0).pcb;
  }

  /** One process start during boot. */
  lemma StartsNext(t: int, n: nat)
    requires n < MAX_PROC_NUM
    ensures StartProcCall(Started(t, n)) == Started(t, n + 1)
    ensures Started(t, n).free[0] == n && Started(t, n).free[1..] == Started(t, n + 1).free
  {
    var s, s' := Started(t, n), Started(t, n + 1);
    assert s.free == [n] + Interval(n + 1, MAX_PROC_NUM - n - 1);
    assert StartProcCall(s).ready == s'.ready;
    assert StartProcCall(s).pcb == s'.pcb;
    assert StartProcCall(s).mbox == s'.mbox;
  }

  lemma ChildOwns(s: State, p: int)
    requires Inv(s) && IsPid(p) && s.pcb[p].ppid != 0
    ensures Blocks(s.owner) && Owns(s.owner, p)
  {
  }

  lemma OwnBlockOnly(owner: seq<int>, p: int, j: int)
    requires Blocks(owner) && 0 <= j < BLOCK_COUNT && Head(owner, j) == p && p != -1
    ensures forall k :: 0 <= k < DRAM_PAGE_COUNT ==> (owner[k] == p <==> BLOCK * j <= k < BLOCK * j + BLOCK)
  {
    forall k | 0 <= k < DRAM_PAGE_COUNT ensures owner[k] == p <==> BLOCK * j <= k < BLOCK * j + BLOCK {
      assert PageOwner(owner, k / BLOCK, k % BLOCK) == Head(owner, k / BLOCK);
      assert k / BLOCK == j || Head(owner, k / BLOCK) != p;
    }
  }

  // The pass over the sleep queue, part way

  /** The first n sleepers have been dealt with: those due are in the ready queue, the rest at the
      back of the sleep queue. */
  function PassedOver(s: State, n: nat): State
    requires n <= |s.asleep|
  {
    var due := Due(s.pcb, s.clock, s.asleep[..n], true);
    s.(pcb := MarkReady(s.pcb, due), ready := s.ready + due,
       asleep := s.asleep[n..] + Due(s.pcb, s.clock, s.asleep[..n], false))
  }

  /** One sleeper dealt with. */
  function Turned(m: State): State
    requires m.asleep != []
  {
    var x := m.asleep[0];
    if At(m.pcb, x).wake == m.clock
    then m.(asleep := m.asleep[1..], ready := m.ready + [x], pcb := SetState(m.pcb, x, Ready))
    else m.(asleep := m.asleep[1..] + [x])
  }

  lemma PutTwice(t: seq<Pcb>, p: int, a: Pcb, b: Pcb)
    ensures Put(Put(t, p, a), p, b) == Put(t, p, b)
  {
  }

  lemma {:induction false} DueSnoc(t: seq<Pcb>, clock: int, q: seq<int>, x: int, due: bool)
    ensures Due(t, clock, q + [x], due) ==
      if (At(t, x).wake == clock) == due then Due(t, clock, q, due) + [x] else Due(t, clock, q, due)
    ensures |Due(t, clock, q, due)| <= |q|
  {
    if q == [] {
      assert q + [x] == [x];
    } else {
      var r := q[1..];
      assert (q + [x])[1..] == r + [x] && (q + [x])[0] == q[0];
      DueSnoc(t, clock, r, x, due);
      assert [q[0]] + (Due(t, clock, r, due) + [x]) == ([q[0]] + Due(t, clock, r, due)) + [x];
    }
  }

  lemma MarkReadySnoc(t: seq<Pcb>, ps: seq<int>, x: int)
    requires 0 <= x < |t|
    ensures MarkReady(t, ps + [x]) == SetState(MarkReady(t, ps), x, Ready)
    ensures At(MarkReady(t, ps), x).wake == At(t, x).wake
  {
  }

  /** Ready and sleeping processes together fit one queue with room to spare. */
  lemma PassRoom(s: State)
    requires Partitioned(s)
    ensures |s.ready| + |s.asleep| < Q_LEN
    ensures forall k :: 0 <= k < |s.asleep| ==> IsPid(s.asleep[k])
  {
    assert NoDup(Q(s, InReady)) && NoDup(Q(s, InAsleep));
    forall p | p in s.ready ensures p !in s.asleep && IsPid(p) {
      assert p in Q(s, InReady);
      assert p in s.asleep ==> p in Q(s, InAsleep);
    }
    forall p | p in s.asleep ensures IsPid(p) {
      assert p in Q(s, InAsleep);
    }
    NoDupConcat(s.ready, s.asleep);
    Pigeonhole(s.ready + s.asleep, MAX_PROC_NUM);
  }

  lemma PassStart(s: State)
    requires Shape(s)
    ensures PassedOver(s, 0) == s
  {
    assert MarkReady(s.pcb, []) == s.pcb;
    assert s.asleep[..0] == [];
  }

  lemma PassEnd(s: State)
    ensures PassedOver(s, |s.asleep|) == WakeDue(s)
  {
    assert s.asleep[..|s.asleep|] == s.asleep;
  }

  lemma PassStep(s: State, n: nat)
    requires Shape(s) && n < |s.asleep| && |s.ready| + |s.asleep| < Q_LEN && IsPid(s.asleep[n])
    ensures var m := PassedOver(s, n);
      Shape(m) && m.asleep != [] && IsPid(m.asleep[0]) && |m.ready| < Q_LEN && |m.asleep| <= Q_LEN
      && PassedOver(s, n + 1) == Turned(m)
  {
    hide Due, MarkReady, SetState;
    var x, q := s.asleep[n], s.asleep[..n];
    var woken, others := Due(s.pcb, s.clock, q, true), Due(s.pcb, s.clock, q, false);
    assert s.asleep[..n + 1] == q + [x] && s.asleep[n..] == [x] + s.asleep[n + 1..];
    DueSnoc(s.pcb, s.clock, q, x, true);
    DueSnoc(s.pcb, s.clock, q, x, false);
    MarkReadySnoc(s.pcb, woken, x);
    MarkReadySize(s.pcb, woken);
    DueSplit(s.pcb, s.clock, q);
    var m, m' := PassedOver(s, n), PassedOver(s, n + 1);
    assert m.asleep == [x] + (s.asleep[n + 1..] + others);
    assert woken + [] == woken && others + [] == others;
    assert m'.asleep == Turned(m).asleep;
    assert m'.ready == Turned(m).ready;
  }

  lemma MarkReadySize(t: seq<Pcb>, ps: seq<int>)
    ensures |MarkReady(t, ps)| == |t|
  {
  }

  lemma {:induction false} DueSplit(t: seq<Pcb>, clock: int, q: seq<int>)
    ensures |Due(t, clock, q, true)| + |Due(t, clock, q, false)| == |q|
  {
    if q != [] {
      DueSplit(t, clock, q[1..]);
    }
  }

  lemma ScanStep(s: State, below: Pcb, i: nat)
    requires i < |s.owner|
    ensures ZombiePage(s, below, i) == if ShowsZombie(s, below, i) then i else ZombiePage(s, below, i + 1)
  {
  }

  lemma ScanEnd(s: State, below: Pcb)
    ensures ZombiePage(s, below, |s.owner|) == |s.owner|
  {
  }

  /** No page before the first match has the same owner, unless it is unowned. */
  lemma ReapedOwner(s: State, below: Pcb, d: nat)
    requires d == ZombiePage(s, below, 0) && d < |s.owner|
    ensures forall k :: 0 <= k < d ==> s.owner[k] == s.owner[d] ==> s.owner[d] == -1
    ensures s.owner[d] != -1 ==> s.owner[d] != s.running || At(s.pcb, s.running).state == Zombie
  {
    forall k | 0 <= k < d ensures s.owner[k] == s.owner[d] ==> s.owner[d] == -1 {
      assert !ShowsZombie(s, below, k) && ShowsZombie(s, below, d);
    }
  }

  /** The state once child c has pages, record, mailbox and a place in the ready queue. */
  function WithChild(s: State, c: int, pages: seq<int>): State
    requires |pages| == BLOCK
  {
    var r := At(s.pcb, s.running);
    s.(owner := Claim(s.owner, pages, c),
       mbox := Put(s.mbox, c, Mailbox([], [])),
       ready := s.ready + [c],
       pcb := Put(Put(s.pcb, s.running, r.(frame := r.frame.(ecx := c))), c,
                  BLANK_PCB.(state := Ready, ppid := s.running, table := PageAddr(pages[0]))))
  }

  lemma WithChildIsFork(s: State)
    requires !ForkFails(s)
    ensures ForkCall(s) == WithChild(s.(free := s.free[1..]), s.free[0], FreePages(s.owner, 0)[..BLOCK])
  {
  }

  /** All that ForkISR needs of the invariant. */
  lemma ForkRoom(s: State)
    requires Inv(s) && 1 <= s.running
    ensures Shape(s) && s.running < MAX_PROC_NUM && |s.ready| < Q_LEN
    ensures s.free != [] ==> 0 <= s.free[0] < MAX_PROC_NUM
    ensures forall k :: 0 <= k < |FreePages(s.owner, 0)| ==> 0 <= FreePages(s.owner, 0)[k] < DRAM_PAGE_COUNT
  {
    hide PagesOk, ExitOk, SemsOk, BoxesOk, QuantaOk;
    QueueNeverFull(s, InReady);
    FreePagesInPool(s.owner, 0);
    if s.free != [] {
      HeadFits(s, InFree);
    }
  }

  /** The running process is gone: record, pages and PID given back. */
  function Buried(m: State): State {
    m.(owner := Release(m.owner, m.running), pcb := Put(m.pcb, m.running, BLANK_PCB),
       free := m.free + [m.running], running := -1)
  }

  lemma BuriedIsExit(s: State)
    requires At(s.pcb, At(s.pcb, s.running).ppid).state == ForkWaiting
    ensures ExitCall(s) == Buried(ExitMid(s))
  {
  }

  lemma FreeStep(owner: seq<int>, page: nat)
    requires page < |owner|
    ensures FreePages(owner, page) ==
      if owner[page] == -1 then [page] + FreePages(owner, page + 1) else FreePages(owner, page + 1)
  {
  }

  lemma Gather(found: seq<int>, p: int, rest: seq<int>)
    ensures found + ([p] + rest) == (found + [p]) + rest
  {
  }

  lemma FreeEnd(owner: seq<int>)
    ensures FreePages(owner, |owner|) == []
  {
  }

  lemma {:induction false} FreePagesInPool(owner: seq<int>, from: nat)
    requires from <= |owner|
    ensures forall k :: 0 <= k < |FreePages(owner, from)| ==> from <= FreePages(owner, from)[k] < |owner|
    decreases |owner| - from
  {
    if from < |owner| {
      FreePagesInPool(owner, from + 1);
    }
  }

  // What a Fork of the image at frame.eax, frame.ebx bytes long, does to memory

  predicate ImageFits(s: State, frame: Frame, m: seq<Paging.Byte>, g: Paging.Segments) {
    !ForkFails(s) ==> Paging.ForkFits(m, ChildMemory.FivePages(s.owner), frame.eax, frame.ebx, s.osTable, g)
  }

  function AfterFork(s: State, frame: Frame, m: seq<Paging.Byte>, g: Paging.Segments): seq<Paging.Byte>
    requires ImageFits(s, frame, m, g)
  {
    if ForkFails(s) then m
    else Paging.ForkMemory(m, ChildMemory.FivePages(s.owner), frame.eax, frame.ebx, s.osTable, g)
  }

  lemma FitsAgain(s: State, s': State, f: Frame, f': Frame, m: seq<Paging.Byte>, g: Paging.Segments)
    requires ImageFits(s, f, m, g) && s'.owner == s.owner && s'.free == s.free && s'.osTable == s.osTable
    requires f'.eax == f.eax && f'.ebx == f.ebx
    ensures ImageFits(s', f', m, g) && AfterFork(s', f', m, g) == AfterFork(s, f, m, g)
  {
  }

  // Allocation, in three lots

  method NewTables() returns (st: SemTable, mt: MailTable, pd: PortData)
    ensures st.Valid() && mt.Valid() && pd.Valid()
    ensures fresh(st.Repr) && fresh(mt.Repr) && fresh(pd.Repr) && st.Repr !! mt.Repr !! pd.Repr
    ensures st.contents == seq(Q_LEN, _ => Sem(0, [])) && mt.contents == seq(MAX_PROC_NUM, _ => Mailbox([], []))
    ensures pd.Now() == Port([], [], [], 0, 0, false, false, [])
  {
    st := new SemTable();
    mt := new MailTable();
    pd := new PortData();
  }

  method NewQueues() returns (r: IntQueue, f: IntQueue, s: IntQueue, q: IntQueue, ghost objects: set<object>)
    ensures r.Holds([]) && f.Holds([]) && s.Holds([]) && q.Holds([])
    ensures fresh(objects) && objects == {r, r.q, f, f.q, s, s.q, q, q.q}
    ensures r != f && r != s && r != q && f != s && f != q && s != q
    ensures r.q != f.q && r.q != s.q && r.q != q.q && f.q != s.q && f.q != q.q && s.q != q.q
  {
    r := new IntQueue();
    f := new IntQueue();
    s := new IntQueue();
    q := new IntQueue();
    objects := {r, r.q, f, f.q, s, s.q, q, q.q};
  }

  method NewArrays() returns (p: array<Pcb>, i: array<Msg>, o: array<int>, a: array<int>, ghost objects: set<object>)
    ensures fresh(objects) && objects == {p as object, i, o, a} && o != a
    ensures p.Length == MAX_PROC_NUM && i.Length == MAX_PROC_NUM
    ensures o.Length == DRAM_PAGE_COUNT && a.Length == DRAM_PAGE_COUNT
    ensures forall k :: 0 <= k < MAX_PROC_NUM ==> p[k] == BLANK_PCB && i[k] == BLANK_MSG
    ensures forall k :: 0 <= k < DRAM_PAGE_COUNT ==> a[k] == PageAddr(k)
  {
    p := new Pcb[MAX_PROC_NUM](_ => BLANK_PCB);
    i := new Msg[MAX_PROC_NUM](_ => BLANK_MSG);
    o := new int[DRAM_PAGE_COUNT](_ => 0);
    a := new int[DRAM_PAGE_COUNT](k => PageAddr(k));
    objects := {p as object, i, o, a};
  }

  class Kernel {
    const pcb: array<Pcb>
    var running: int
    const ready: IntQueue
    const free: IntQueue
    const asleep: IntQueue
    const sems: SemTable
    const semQ: IntQueue
    const mail: MailTable
    const inbox: array<Msg>
    const owner: array<int>
    const addr: array<int>
    var clock: int
    const port: PortData
    var osTable: int
    var below: Pcb                      // what lies just under pcb[0] in memory
    const segs: Paging.Segments         // get_cs() and the rest
    const mem: array<Paging.Byte>       // physical memory
    ghost const core: set<object>       // the arrays and the four queues
    ghost const Repr: set<object>

    /** The parts share no memory. Nothing here can change. */
    ghost predicate Apart() {
      pcb.Length == MAX_PROC_NUM && inbox.Length == MAX_PROC_NUM
      && owner.Length == DRAM_PAGE_COUNT && addr.Length == DRAM_PAGE_COUNT && owner != addr
      && sems in sems.Repr && mail in mail.Repr && port in port.Repr
      && pcb in core && inbox in core && owner in core && addr in core
      && ready in core && free in core && asleep in core && semQ in core
      && ready.q in core && free.q in core && asleep.q in core && semQ.q in core
      && core !! sems.Repr !! mail.Repr !! port.Repr
      && this !in core && this !in sems.Repr && this !in mail.Repr && this !in port.Repr
      && Repr == {this} + core + sems.Repr + mail.Repr + port.Repr
      && ready != free && ready != asleep && ready != semQ && free != asleep && free != semQ && asleep != semQ
      && ready.q != free.q && ready.q != asleep.q && ready.q != semQ.q
      && free.q != asleep.q && free.q != semQ.q && asleep.q != semQ.q
      && owner != ready.q && owner != free.q && owner != asleep.q && owner != semQ.q
      && addr != ready.q && addr != free.q && addr != asleep.q && addr != semQ.q
      && mem !in Repr
    }

    ghost predicate Valid()
      reads this, Repr
    {
      Apart() && ready.Valid() && free.Valid() && asleep.Valid() && semQ.Valid()
      && sems.Valid() && mail.Valid() && port.Valid()
      && (forall k :: 0 <= k < DRAM_PAGE_COUNT ==> addr[k] == PageAddr(k))
    }

    /** The state this memory stands for. */
    ghost function Now(): State
      requires Valid()
      reads this, Repr
    {
      State(pcb[..], running, ready.Contents(), free.Contents(), asleep.Contents(),
            sems.contents, semQ.Contents(), mail.contents, inbox[..], owner[..], clock, port.Now(), osTable)
    }

    /** Zeroed memory, as the kernel's globals are when it is loaded. */
    constructor (t: int, segs: Paging.Segments, mem: array<Paging.Byte>, st: SemTable, mt: MailTable, pd: PortData)
      requires st.Valid() && mt.Valid() && pd.Valid() && st.Repr !! mt.Repr !! pd.Repr
      requires mem !in st.Repr && mem !in mt.Repr && mem !in pd.Repr
      ensures Valid() && fresh(Repr - st.Repr - mt.Repr - pd.Repr)
      ensures sems == st && mail == mt && port == pd && this.segs == segs && this.mem == mem
      ensures osTable == t && Idle()
    {
      var r, f, s, q, queues := NewQueues();
      var p, i, o, a, arrays := NewArrays();
      pcb, inbox, owner, addr := p, i, o, a;
      ready, free, asleep, semQ, sems, mail, port := r, f, s, q, st, mt, pd;
      running, clock, osTable := 0, 0, t;
      this.segs, this.mem := segs, mem;
      core := arrays + queues;
      Repr := {this} + (arrays + queues) + st.Repr + mt.Repr + pd.Repr;
    }

    /** No process, queue or clock has been touched yet. */
    ghost predicate Idle()
      requires Valid()
      reads this, Repr
    {
      running == 0 && clock == 0 && ready.Contents() == [] && free.Contents() == [] && asleep.Contents() == []
      && semQ.Contents() == [] && forall k :: 0 <= k < MAX_PROC_NUM ==> pcb[k] == BLANK_PCB && inbox[k] == BLANK_MSG
    }

    lemma IdleIsEmpty()
      requires Valid() && Idle() && Tables()
      ensures Now() == Empty(osTable, owner[..])
    {
      assert Now().pcb == Empty(osTable, owner[..]).pcb;
      assert Now().inbox == Empty(osTable, owner[..]).inbox;
    }

    ghost predicate Tables()
      requires Valid()
      reads this, Repr
    {
      sems.contents == seq(Q_LEN, _ => Sem(0, [])) && mail.contents == seq(MAX_PROC_NUM, _ => Mailbox([], []))
      && port.Now() == Port([], [], [], 0, 0, false, false, [])
    }

    /** What the fields and arrays say, the abstract state says. */
    lemma Reads()
      requires Valid()
      ensures running == Now().running && clock == Now().clock && osTable == Now().osTable
      ensures pcb[..] == Now().pcb && inbox[..] == Now().inbox && owner[..] == Now().owner
      ensures pcb.Length == MAX_PROC_NUM && owner.Length == DRAM_PAGE_COUNT
    {
    }

    // Single moves, each on one part of the kernel's memory

    method SetRunning(p: int)
      requires Valid()
      modifies Repr
      ensures Valid() && Now() == old(Now()).(running := p) && below == old(below)
    {
      running := p;
    }

    method SetPcb(p: int, r: Pcb)
      requires Valid() && 0 <= p < MAX_PROC_NUM
      modifies Repr
      ensures Valid() && Now() == old(Now()).(pcb := Put(old(Now()).pcb, p, r)) && below == old(below)
    {
      pcb[p] := r;
    }

    method SetOwner(page: int, p: int)
      requires Valid() && 0 <= page < DRAM_PAGE_COUNT
      modifies Repr
      ensures Valid() && Now() == old(Now()).(owner := old(Now()).owner[page := p]) && below == old(below)
    {
      owner[page] := p;
    }

    method Deliver(p: int, m: Msg)
      requires Valid() && 0 <= p < MAX_PROC_NUM
      modifies Repr
      ensures Valid() && Now() == old(Now()).(inbox := Put(old(Now()).inbox, p, m))
    {
      inbox[p] := m;
    }

    method SetBelow(r: Pcb)
      requires Valid()
      modifies Repr
      ensures Valid() && Now() == old(Now()) && below == r
    {
      below := r;
    }

    method EnReady(p: int)
      requires Valid() && |Now().ready| < Q_LEN
      modifies Repr
      ensures Valid() && Now() == old(Now()).(ready := old(Now()).ready + [p])
    {
      ready.EnQ(p);
    }

    method DeReady() returns (p: int)
      requires Valid()
      modifies Repr
      ensures Valid() && p == First(old(Now()).ready) && Now() == old(Now()).(ready := Rest(old(Now()).ready))
    {
      p := ready.DeQ();
    }

    method EnFree(p: int)
      requires Valid() && |Now().free| < Q_LEN
      modifies Repr
      ensures Valid() && Now() == old(Now()).(free := old(Now()).free + [p]) && below == old(below)
    {
      free.EnQ(p);
    }

    method DeFree() returns (p: int)
      requires Valid()
      modifies Repr
      ensures Valid() && p == First(old(Now()).free) && Now() == old(Now()).(free := Rest(old(Now()).free))
    {
      p := free.DeQ();
    }

    method EnAsleep(p: int)
      requires Valid() && |Now().asleep| < Q_LEN
      modifies Repr
      ensures Valid() && Now() == old(Now()).(asleep := old(Now()).asleep + [p])
    {
      asleep.EnQ(p);
    }

    method DeAsleep() returns (p: int)
      requires Valid()
      modifies Repr
      ensures Valid() && p == First(old(Now()).asleep) && Now() == old(Now()).(asleep := Rest(old(Now()).asleep))
    {
      p := asleep.DeQ();
    }

    method DeSemQ() returns (id: int)
      requires Valid()
      modifies Repr
      ensures Valid() && id == First(old(Now()).semFree) && Now() == old(Now()).(semFree := Rest(old(Now()).semFree))
    {
      id := semQ.DeQ();
    }

    method SemEnQ(id: int, p: int)
      requires Valid() && 0 <= id < Q_LEN && |Now().sem[id].waiters| < Q_LEN
      modifies Repr
      ensures Valid()
      ensures var s, m := old(Now()), old(Now()).sem[id];
        Now() == s.(sem := Put(s.sem, id, m.(waiters := m.waiters + [p])))
    {
      sems.EnQ(id, p);
    }

    method SemDeQ(id: int) returns (p: int)
      requires Valid() && 0 <= id < Q_LEN && Now().sem[id].waiters != []
      modifies Repr
      ensures Valid() && p == old(Now()).sem[id].waiters[0]
      ensures var s, m := old(Now()), old(Now()).sem[id];
        Now() == s.(sem := Put(s.sem, id, m.(waiters := m.waiters[1..])))
    {
      p := sems.DeQ(id);
    }

    method SetLimit(id: int, n: int)
      requires Valid() && 0 <= id < Q_LEN
      modifies Repr
      ensures Valid() && Now() == old(Now()).(sem := Put(old(Now()).sem, id, old(Now()).sem[id].(limit := n)))
    {
      sems.SetLimit(id, n);
    }

    method ResetSem(id: int, n: int)
      requires Valid() && 0 <= id < Q_LEN && Now().sem[id].waiters == []
      modifies Repr
      ensures Valid() && Now() == old(Now()).(sem := Put(old(Now()).sem, id, Sem(n, [])))
    {
      sems.Reset(id, n);
    }

    method BoxEnQ(p: int)
      requires Valid() && 0 <= p < MAX_PROC_NUM && |Now().mbox[p].waiters| < Q_LEN
      modifies Repr
      ensures Valid()
      ensures var s, b := old(Now()), old(Now()).mbox[p];
        Now() == s.(mbox := Put(s.mbox, p, b.(waiters := b.waiters + [p])))
    {
      mail.EnQ(p);
    }

    method BoxDeQ(i: int) returns (p: int)
      requires Valid() && 0 <= i < MAX_PROC_NUM && Now().mbox[i].waiters != []
      modifies Repr
      ensures Valid() && p == old(Now()).mbox[i].waiters[0]
      ensures var s, b := old(Now()), old(Now()).mbox[i];
        Now() == s.(mbox := Put(s.mbox, i, b.(waiters := b.waiters[1..])))
    {
      p := mail.DeQ(i);
    }

    method BoxMsgEnQ(i: int, m: Msg)
      requires Valid() && 0 <= i < MAX_PROC_NUM
      modifies Repr
      ensures Valid()
      ensures var s, b := old(Now()), old(Now()).mbox[i];
        Now() == s.(mbox := Put(s.mbox, i, b.(msgs := Push(b.msgs, m))))
    {
      mail.MsgEnQ(i, m);
    }

    method BoxMsgDeQ(i: int) returns (m: Msg)
      requires Valid() && 0 <= i < MAX_PROC_NUM && Now().mbox[i].msgs != []
      modifies Repr
      ensures Valid() && m == old(Now()).mbox[i].msgs[0]
      ensures var s, b := old(Now()), old(Now()).mbox[i];
        Now() == s.(mbox := Put(s.mbox, i, b.(msgs := b.msgs[1..])))
    {
      m := mail.MsgDeQ(i);
    }

    method ResetBox(i: int)
      requires Valid() && 0 <= i < MAX_PROC_NUM
      modifies Repr
      ensures Valid() && Now() == old(Now()).(mbox := Put(old(Now()).mbox, i, Mailbox([], [])))
    {
      mail.Reset(i);
    }

    method AdvanceClock()
      requires Valid()
      modifies Repr
      ensures Valid() && Now() == Advance(old(Now()))
    {
      clock := (clock + 1) % CLOCK_WRAP;
    }

    method TxPart() returns (posts: bool)
      requires Valid()
      modifies Repr
      ensures Valid() && posts == TxPosts(old(Now()).port)
      ensures Now() == old(Now()).(port := TxPort(old(Now()).port))
    {
      posts := port.TxChar();
    }

    method RxPart(data: int)
      requires Valid()
      modifies Repr
      ensures Valid() && Now() == old(Now()).(port := RxPort(old(Now()).port, data))
    {
      port.RxChar(data);
    }

    method FillSemQ()
      requires Valid() && Now().semFree == []
      modifies Repr
      ensures Valid() && Now() == old(Now()).(semFree := Interval(0, Q_LEN))
    {
      FillWithIndices(semQ, Q_LEN);
    }

    method ClearReady()
      requires Valid()
      modifies Repr
      ensures Valid() && Now() == old(Now()).(ready := [])
    {
      ready.Clear();
    }

    method ClearFree()
      requires Valid()
      modifies Repr
      ensures Valid() && Now() == old(Now()).(free := [])
    {
      free.Clear();
    }

    method ClearAsleep()
      requires Valid()
      modifies Repr
      ensures Valid() && Now() == old(Now()).(asleep := [])
    {
      asleep.Clear();
    }

    method ClearSemQ()
      requires Valid()
      modifies Repr
      ensures Valid() && Now() == old(Now()).(semFree := [])
    {
      semQ.Clear();
    }

    method SetPage(page: int, a: int)
      requires Valid() && 0 <= page < DRAM_PAGE_COUNT && a == PageAddr(page)
      modifies Repr
      ensures Valid() && Now() == old(Now()).(owner := old(Now()).owner[page := -1])
    {
      addr[page] := a;
      owner[page] := -1;
    }

    method StartClock(cr3: int)
      requires Valid()
      modifies Repr
      ensures Valid() && Now() == old(Now()).(clock := 0, osTable := cr3)
    {
      clock := 0;
      osTable := cr3;
    }

    /** InitKernelData: whatever the kernel's data held, the clock, the queues, the process table, the
        mailboxes and the page owners are set up; semaphores and port stay as they are. */
    method InitKernelData(cr3: int)
      requires Valid()
      modifies Repr
      ensures Valid() && Now() == Initialised(old(Now()), cr3)
    {
      hide Valid, Now;
      StartClock(cr3);
      ClearAsleep();
      ClearFree();
      ClearReady();
      ClearSemQ();
      FillSemQ();
      ClearBoxes();
      ClearProcesses();
      FreeThePages();
      SetRunning(0);
    }

    lemma Sizes()
      requires Valid()
      ensures |Now().pcb| == MAX_PROC_NUM && |Now().mbox| == MAX_PROC_NUM && |Now().owner| == DRAM_PAGE_COUNT
    {
    }

    /** MyBzero of the whole of msg_q. */
    method ClearBoxes()
      requires Valid()
      modifies Repr
      ensures Valid() && Now() == old(Now()).(mbox := NoMail())
    {
      hide Valid, Now;
      ghost var s := Now();
      Sizes();
      for i := 0 to MAX_PROC_NUM
        invariant Valid() && |Now().mbox| == MAX_PROC_NUM && Now() == s.(mbox := Now().mbox)
        invariant forall k :: 0 <= k < i ==> Now().mbox[k] == Mailbox([], [])
      {
        ResetBox(i);
      }
      assert Now().mbox == NoMail();
    }

    /** The loop over the processes: each PID is free, with a blank record and mailbox. */
    method ClearProcesses()
      requires Valid() && Now().free == [] && Now().mbox == NoMail()
      modifies Repr
      ensures Valid() && Now() == old(Now()).(free := Interval(0, MAX_PROC_NUM), pcb := NoProcesses())
    {
      hide Valid, Now;
      ghost var s := Now();
      Sizes();
      for i := 0 to MAX_PROC_NUM
        invariant Valid() && |Now().pcb| == MAX_PROC_NUM
        invariant Now() == s.(free := Interval(0, i), pcb := Now().pcb)
        invariant forall k :: 0 <= k < i ==> Now().pcb[k] == BLANK_PCB
      {
        EnFree(i);
        assert Interval(0, i) + [i] == Interval(0, i + 1);
        SetPcb(i, BLANK_PCB);
        ResetBox(i);
        assert Now().mbox == NoMail();
      }
      assert Now().pcb == NoProcesses();
    }

    /** The loop over the pages, each a page's length above the last. */
    method FreeThePages()
      requires Valid()
      modifies Repr
      ensures Valid() && Now() == old(Now()).(owner := NoOwners())
    {
      hide Valid, Now;
      ghost var s := Now();
      Sizes();
      var dram_addr := DRAM_BASE;
      for i := 0 to DRAM_PAGE_COUNT
        invariant Valid() && |Now().owner| == DRAM_PAGE_COUNT && dram_addr == PageAddr(i)
        invariant Now() == s.(owner := Now().owner)
        invariant forall k :: 0 <= k < i ==> Now().owner[k] == -1
      {
        SetPage(i, dram_addr);
        dram_addr := dram_addr + PAGE_SIZE;
      }
      assert Now().owner == NoOwners();
    }

    /** DeQ and StartProcISR, as main() does for each of the first processes. */
    method StartNext(ghost t: int, ghost n: nat)
      requires Valid() && n < 6 && Now() == Started(t, n)
      modifies Repr
      ensures Valid() && Now() == Started(t, n + 1)
    {
      hide Valid, Now, StartAt;
      StartsNext(t, n);
      var pid := DeFree();
      StartProcISR(pid);
    }

    /** The process starts of main(): PIDs 0 to 5. */
    method StartFirst(ghost t: int)
      requires Valid() && Now() == Started(t, 0)
      modifies Repr
      ensures Valid() && Now() == Boot(t) && Inv(Now())
    {
      hide Valid, Now, Inv;
      StartNext(t, 0);
      StartNext(t, 1);
      StartNext(t, 2);
      StartNext(t, 3);
      StartNext(t, 4);
      StartNext(t, 5);
      assert Started(t, 6) == Boot(t);
      BootInv(t);
    }

    // Service routines (isr.c)

    method TimerISR()
      requires Valid() && Inv(Now())
      modifies Repr
      ensures Valid() && Now() == Preempt(old(Now()))
    {
      hide Valid, Now, Partitioned, PagesOk, ExitOk, SemsOk, BoxesOk;
      QueueNeverFull(Now(), InReady);
      Reads();
      if running < 1 {
        return;
      }
      SetPcb(running, pcb[running].(runtime := pcb[running].runtime + 1, total := pcb[running].total + 1));
      Reads();
      if pcb[running].runtime >= TIME_LIMIT {
        SetPcb(running, pcb[running].(runtime := 0, state := Ready));
        Reads();
        EnReady(running);
        SetRunning(-1);
      }
    }

    method SleepISR()
      requires Valid() && Inv(Now()) && 1 <= running
      modifies Repr
      ensures Valid() && Now() == SleepCall(old(Now()))
    {
      hide Valid, Now, Partitioned, PagesOk, ExitOk, SemsOk, BoxesOk;
      QueueNeverFull(Now(), InAsleep);
      Reads();
      SetPcb(running, pcb[running].(wake := (clock + pcb[running].frame.eax * 100) % CLOCK_WRAP));
      Reads();
      EnAsleep(running);
      Reads();
      SetPcb(running, pcb[running].(state := Sleeping));
      SetRunning(-1);
    }

    method GetPidISR()
      requires Valid() && Inv(Now()) && 1 <= running
      modifies Repr
      ensures Valid() && Now() == GetPidCall(old(Now()))
    {
      hide Valid, Now, Partitioned, PagesOk, ExitOk, SemsOk, BoxesOk;
      Reads();
      SetPcb(running, pcb[running].(frame := pcb[running].frame.(eax := running)));
    }

    /** StartProcISR; at boot it runs before the kernel invariant holds. */
    method StartProcISR(p: int)
      requires Valid() && Shape(Now()) && 0 <= p < MAX_PROC_NUM && |Now().ready| < Q_LEN
      modifies Repr
      ensures Valid() && Now() == StartAt(old(Now()), p)
    {
      hide Valid, Now;
      Reads();
      SetPcb(p, pcb[p].(runtime := 0, total := 0, table := osTable, state := Ready));
      if p != 0 {
        EnReady(p);
      }
      ResetBox(p);
      Reads();
      SetPcb(p, pcb[p].(frame := Frame(0, 0, 0)));
    }

    method SemGetISR(limit: int)
      requires Valid() && Inv(Now()) && 1 <= running && limit == At(Now().pcb, running).frame.eax
      modifies Repr
      ensures Valid() && Now() == SemGetCall(old(Now()))
    {
      hide Valid, Now, Partitioned, PagesOk, ExitOk, BoxesOk;
      Reads();
      ghost var ids := Now().semFree;
      assert ids != [] ==> ids[0] in ids;
      var id := DeSemQ();
      Reads();
      if id == -1 {
        SetPcb(running, pcb[running].(frame := pcb[running].frame.(ebx := -1)));
        return;
      }
      ResetSem(id, limit);
      Reads();
      SetPcb(running, pcb[running].(frame := pcb[running].frame.(ebx := id)));
    }

    method SemWaitISR(id: int)
      requires Valid() && Inv(Now()) && 1 <= running && 0 <= id < Q_LEN
      modifies Repr
      ensures Valid() && Now() == SemWaitCall(old(Now()), id)
    {
      hide Now, Partitioned, PagesOk, ExitOk, SemsOk, BoxesOk, Apart;
      QueueNeverFull(Now(), InSem(id));
      Reads();
      SemReads(id);
      if sems.limit[id] > 0 {
        SetLimit(id, sems.limit[id] - 1);
        return;
      }
      SemEnQ(id, running);
      Reads();
      SetPcb(running, pcb[running].(state := Waiting));
      SetRunning(-1);
    }

    lemma SemReads(id: int)
      requires Valid() && 0 <= id < Q_LEN
      ensures |sems.waitQ| == Q_LEN && sems.limit.Length == Q_LEN && |Now().sem| == Q_LEN
      ensures sems.limit[id] == Now().sem[id].limit && sems.waitQ[id].len == |Now().sem[id].waiters|
    {
    }

    method SemPostISR(id: int)
      requires Valid() && Inv(Now()) && 0 <= id < Q_LEN
      modifies Repr
      ensures Valid() && Now() == SemPostCall(old(Now()), id)
    {
      hide Valid, Now, Partitioned, PagesOk, ExitOk, SemsOk, BoxesOk;
      QueueNeverFull(Now(), InReady);
      SemReads(id);
      if sems.waitQ[id].len == 0 {
        SetLimit(id, sems.limit[id] + 1);
      } else {
        HeadFits(Now(), InSem(id));
        var p := SemDeQ(id);
        Reads();
        SetPcb(p, pcb[p].(state := Ready));
        EnReady(p);
      }
    }

    lemma BoxReads(i: int)
      requires Valid() && 0 <= i < MAX_PROC_NUM
      ensures |mail.waitQ| == MAX_PROC_NUM && |mail.ring| == MAX_PROC_NUM && |Now().mbox| == MAX_PROC_NUM
      ensures mail.waitQ[i].len == |Now().mbox[i].waiters| && mail.ring[i].len == |Now().mbox[i].msgs|
    {
    }

    method MsgSndISR(msg: Msg)
      requires Valid() && Inv(Now()) && 0 <= msg.recipient < MAX_PROC_NUM
      modifies Repr
      ensures Valid() && Now() == MsgSndCall(old(Now()), msg)
    {
      hide Valid, Now, Partitioned, PagesOk, ExitOk, SemsOk, BoxesOk;
      QueueNeverFull(Now(), InReady);
      Reads();
      var m := msg.(stamp := clock, sender := running);
      var i := m.recipient;
      BoxReads(i);
      if mail.waitQ[i].len == 0 {
        BoxMsgEnQ(i, m);
      } else {
        HeadFits(Now(), InBox(i));
        var p := BoxDeQ(i);
        EnReady(p);
        Reads();
        SetPcb(p, pcb[p].(state := Ready));
        Deliver(p, m);
      }
    }

    method MsgRcvISR()
      requires Valid() && Inv(Now()) && 1 <= running
      modifies Repr
      ensures Valid() && Now() == MsgRcvCall(old(Now()))
    {
      hide Valid, Now, Partitioned, PagesOk, ExitOk, SemsOk, BoxesOk;
      Reads();
      QueueNeverFull(Now(), InBox(running));
      BoxReads(running);
      if mail.ring[running].len > 0 {
        var m := BoxMsgDeQ(running);
        Reads();
        Deliver(running, m);
      } else {
        BoxEnQ(running);
        Reads();
        SetPcb(running, pcb[running].(state := Waiting));
        SetRunning(-1);
      }
    }

    lemma PortReads()
      requires Valid()
      ensures port.txSem == Now().port.txSem && port.rxSem == Now().port.rxSem && port.txReady == Now().port.txReady
    {
    }

    method TX()
      requires Valid() && Inv(Now())
      modifies Repr
      ensures Valid() && Now() == Tx(old(Now()))
    {
      hide Valid, Now, Partitioned, PagesOk, ExitOk, SemsOk, BoxesOk;
      PortKeeps(Now(), TxPort(Now().port));
      var posts := TxPart();
      PortReads();
      if posts {
        SemPostISR(port.txSem);
      }
    }

    method RX(data: int)
      requires Valid() && Inv(Now())
      modifies Repr
      ensures Valid() && Now() == Rx(old(Now()), data)
    {
      hide Valid, Now, Partitioned, PagesOk, ExitOk, SemsOk, BoxesOk;
      PortKeeps(Now(), RxPort(Now().port, data));
      RxPart(data);
      PortReads();
      SemPostISR(port.rxSem);
    }

    method IRQ3ISR(cause: Cause, data: int)
      requires Valid() && Inv(Now())
      modifies Repr
      ensures Valid() && Now() == Irq3Call(old(Now()), cause, data)
    {
      hide Valid, Now, Inv, Tx, Rx;
      ghost var s := Now();
      match cause {
        case TxReady =>
          TxKeeps(s);
          TX();
        case RxReady =>
          RxKeeps(s, data);
          RX(data);
        case OtherCause =>
      }
      PortReads();
      if port.txReady {
        TX();
      }
    }

    // Fork, Wait, Exit

    lemma FreeReads()
      requires Valid()
      ensures free.len == |Now().free| && mem !in Repr
    {
    }

    /** The search for five free pages; five is the array five_idx, page where the search stopped. */
    method FindFive() returns (five: array<int>, page: int)
      requires Valid() && |Now().owner| == DRAM_PAGE_COUNT
      ensures Valid() && Now() == old(Now()) && fresh(five) && five.Length == BLOCK
      ensures 0 <= page <= DRAM_PAGE_COUNT
      ensures page == DRAM_PAGE_COUNT <==> |FreePages(Now().owner, 0)| < BLOCK
      ensures page < DRAM_PAGE_COUNT ==> five[..] == FreePages(Now().owner, 0)[..BLOCK]
    {
      hide Valid, Now, FreePages;
      five := new int[BLOCK](_ => -1);
      ghost var o, found := Now().owner, [];
      var i := 0;
      page := 0;
      while page < DRAM_PAGE_COUNT
        invariant 0 <= page <= DRAM_PAGE_COUNT && 0 <= i < BLOCK
        invariant Valid() && Now() == old(Now()) && o == Now().owner
        invariant five[..i] == found && found + FreePages(o, page) == FreePages(o, 0)
      {
        Reads();
        FreeStep(o, page);
        if owner[page] == -1 {
          five[i] := page;
          i := i + 1;
          Gather(found, page, FreePages(o, page + 1));
          found := found + [page];
          assert five[..i] == found;
          if i == BLOCK {
            assert five[..] == found;
            break;
          }
        }
        page := page + 1;
      }
      if page == DRAM_PAGE_COUNT {
        FreeEnd(o);
      }
    }

    method ClaimPages(five: array<int>, c: int)
      requires Valid() && |Now().owner| == DRAM_PAGE_COUNT && five.Length == BLOCK && five !in Repr
      requires forall k :: 0 <= k < BLOCK ==> 0 <= five[k] < DRAM_PAGE_COUNT
      modifies Repr
      ensures Valid() && Now() == old(Now()).(owner := Claim(old(Now()).owner, old(five[..]), c))
    {
      hide Valid, Now;
      ghost var s, pages := Now(), five[..];
      assert Claim(s.owner, pages[..0], c) == s.owner;
      for i := 0 to BLOCK
        invariant Valid() && five[..] == pages && Now() == s.(owner := Claim(s.owner, pages[..i], c))
      {
        assert five[i] == pages[i];
        SetOwner(five[i], c);
        assert pages[..i + 1] == pages[..i] + [pages[i]];
        assert Claim(s.owner, pages[..i + 1], c) == Claim(s.owner, pages[..i], c)[pages[i] := c];
      }
      assert pages[..BLOCK] == pages;
    }

    /** The child's pages, mailbox, queue place and record, once its PID is off the free queue. */
    method MakeChild(c: int, five: array<int>)
      requires Valid() && Shape(Now()) && 1 <= running < MAX_PROC_NUM && 0 <= c < MAX_PROC_NUM && |Now().ready| < Q_LEN
      requires five.Length == BLOCK && five !in Repr && forall k :: 0 <= k < BLOCK ==> 0 <= five[k] < DRAM_PAGE_COUNT
      modifies Repr
      ensures Valid() && Now() == WithChild(old(Now()), c, old(five[..]))
    {
      hide Valid, Now, Claim;
      Reads();
      SetPcb(running, pcb[running].(frame := pcb[running].frame.(ecx := c)));
      ClaimPages(five, c);
      ResetBox(c);
      EnReady(c);
      Reads();
      SetPcb(c, BLANK_PCB.(state := Ready, ppid := running, table := PageAddr(five[0])));
    }

    method ForkISR(data: int, size: int)
      requires Valid() && Inv(Now()) && 1 <= running
      requires ImageFits(Now(), Frame(data, size, 0), mem[..], segs)
      modifies Repr, mem
      ensures Valid() && Now() == ForkCall(old(Now()))
      ensures mem[..] == AfterFork(old(Now()), Frame(data, size, 0), old(mem[..]), segs)
    {
      hide Valid, Now, Inv, WithChild, FreePages, Claim, Paging.ForkMemory, Paging.ForkFits;
      ghost var s := Now();
      Reads();
      ForkRoom(s);
      FreeReads();
      if free.len == 0 {
        SetPcb(running, pcb[running].(frame := pcb[running].frame.(ecx := -1)));
        return;
      }
      var five, page := FindFive();
      Reads();
      if page >= DRAM_PAGE_COUNT {
        SetPcb(running, pcb[running].(frame := pcb[running].frame.(ecx := -1)));
        return;
      }
      ghost var pages := FreePages(s.owner, 0);
      assert forall k :: 0 <= k < BLOCK ==> five[k] == pages[..BLOCK][k] == pages[k];
      var f := Paging.Five(
        PageAddr(five[0]), PageAddr(five[1]), PageAddr(five[2]), PageAddr(five[3]), PageAddr(five[4]));
      var c := DeFree();
      Reads();
      MakeChild(c, five);
      Reads();
      WithChildIsFork(s);
      Paging.BuildChild(mem, f, data, size, osTable, segs);
    }

    lemma OwnerReads(page: int)
      requires Valid() && Inv(Now()) && 0 <= page < DRAM_PAGE_COUNT
      ensures Now().owner[page] == -1 || IsPid(Now().owner[page])
    {
      assert PageOwner(Now().owner, page / BLOCK, page % BLOCK) == Head(Now().owner, page / BLOCK);
    }

    /** WaitISR's scan: the first page whose owner looks like a dead child of the caller, or -1.
        Reading pcb[-1] reads `below`. */
    method ScanForZombie(below: Pcb) returns (d: int)
      requires Valid() && Inv(Now()) && 1 <= running
      ensures Valid() && Now() == old(Now())
      ensures var z := ZombiePage(Now(), below, 0); d == if z == DRAM_PAGE_COUNT then -1 else z
    {
      hide Valid, Now, Partitioned, PagesOk, ExitOk, SemsOk, BoxesOk, ZombiePage;
      d := -1;
      for i := 0 to DRAM_PAGE_COUNT
        invariant Valid() && Now() == old(Now())
        invariant ZombiePage(Now(), below, 0) == ZombiePage(Now(), below, i)
      {
        Reads();
        OwnerReads(i);
        ScanStep(Now(), below, i);
        var r := if owner[i] == -1 then below else pcb[owner[i]];
        if r.ppid == running && r.state == Zombie {
          return i;
        }
      }
      ScanEnd(Now(), below);
    }

    /** WaitISR as written. If it reaps, the record it clears is the one below the table. */
    method WaitISR()
      requires Valid() && Inv(Now()) && 1 <= running
      modifies Repr
      ensures Valid() && Now() == WaitCall(old(Now()), old(below), AsWritten)
      ensures below == if ZombiePage(old(Now()), old(below), 0) == DRAM_PAGE_COUNT then old(below) else BLANK_PCB
    {
      hide Valid, Now, Partitioned, ExitOk, SemsOk, BoxesOk, ZombiePage, ShowsZombie;
      ghost var s := Now();
      Reads();
      QueueNeverFull(s, InFree);
      var d := ScanForZombie(below);
      Reads();
      if d == -1 {
        SetPcb(running, pcb[running].(state := ForkWaiting));
        SetRunning(-1);
        return;
      }
      OwnerReads(d);
      ReapedOwner(s, below, d);
      var tmp := owner[d];
      var code := if tmp == -1 then below.frame.eax else pcb[tmp].frame.eax;
      SetPcb(running, pcb[running].(frame := pcb[running].frame.(ebx := tmp, eax := code)));
      ReapLoop(d);
      EnFree(tmp);
    }

    /** The reap loop: once page d is given back, the comparison is with -1, and the record cleared,
        pcb[owner[d]], is pcb[-1]. */
    method ReapLoop(d: int)
      requires Valid() && |Now().owner| == DRAM_PAGE_COUNT && 0 <= d < DRAM_PAGE_COUNT
      requires forall k :: 0 <= k < d ==> Now().owner[k] == Now().owner[d] ==> Now().owner[d] == -1
      modifies Repr
      ensures Valid() && Now() == old(Now()).(owner := old(Now()).owner[d := -1]) && below == BLANK_PCB
    {
      hide Valid, Now;
      ghost var s := Now();
      var count := 0;
      var i := 0;
      while i < DRAM_PAGE_COUNT
        invariant 0 <= i <= DRAM_PAGE_COUNT && Valid() && 0 <= count < BLOCK
        invariant Now() == s.(owner := if i <= d then s.owner else s.owner[d := -1]) || s.owner[d] == -1
        invariant Now() == s.(owner := Now().owner) && (s.owner[d] == -1 ==> Now().owner == s.owner)
        invariant i > d ==> below == BLANK_PCB
      {
        Reads();
        if owner[i] == owner[d] {
          SetOwner(i, -1);
          Reads();
          assert owner[d] == -1;
          SetBelow(BLANK_PCB);
          count := count + 1;
          if count >= BLOCK {
            break;
          }
        }
        i := i + 1;
      }
    }

    /** The loop that gives back p's pages, stopping at the fifth (ExitISR, and WaitISR repaired). */
    method GiveBackPages(p: int)
      requires Valid() && |Now().owner| == DRAM_PAGE_COUNT && Blocks(Now().owner) && Owns(Now().owner, p) && p != -1
      modifies Repr
      ensures Valid() && Now() == old(Now()).(owner := Release(old(Now()).owner, p))
    {
      hide Valid, Now;
      ghost var s := Now();
      ghost var j :| 0 <= j < BLOCK_COUNT && Head(s.owner, j) == p;
      OwnBlockOnly(s.owner, p, j);
      var count := 0;
      var i := 0;
      while i < DRAM_PAGE_COUNT
        invariant 0 <= i <= DRAM_PAGE_COUNT && Valid()
        invariant |Now().owner| == DRAM_PAGE_COUNT && Now() == s.(owner := Now().owner)
        invariant count == if i <= BLOCK * j then 0 else if i >= BLOCK * j + BLOCK then BLOCK else i - BLOCK * j
        invariant count < BLOCK || i >= BLOCK * j + BLOCK
        invariant forall k :: 0 <= k < DRAM_PAGE_COUNT ==>
          Now().owner[k] == if k < i && s.owner[k] == p then -1 else s.owner[k]
      {
        Reads();
        if owner[i] == p {
          SetOwner(i, -1);
          count := count + 1;
          if count == BLOCK {
            i := i + 1;
            break;
          }
        }
        i := i + 1;
      }
      assert Now().owner == Release(s.owner, p);
    }

    /** WaitISR with the scan guarded and the loop comparing with the saved PID. */
    method WaitISRRepaired(below: Pcb)
      requires Valid() && Inv(Now()) && 1 <= running
      modifies Repr
      ensures Valid() && Now() == WaitCall(old(Now()), below, Repaired)
    {
      hide Valid, Now, Partitioned, ExitOk, SemsOk, BoxesOk, ZombiePage, Release;
      ghost var s := Now();
      Reads();
      QueueNeverFull(s, InFree);
      var d := ScanForZombie(BLANK_PCB);
      Reads();
      if d == -1 {
        SetPcb(running, pcb[running].(state := ForkWaiting));
        SetRunning(-1);
        return;
      }
      FoundChild(s, d);
      var tmp := owner[d];
      SetPcb(running, pcb[running].(frame := pcb[running].frame.(ebx := tmp, eax := pcb[tmp].frame.eax)));
      ChildOwns(s, tmp);
      GiveBackPages(tmp);
      SetPcb(tmp, BLANK_PCB);
      EnFree(tmp);
    }

    method ExitISR()
      requires Valid() && Inv(Now()) && 1 <= running
      modifies Repr
      ensures Valid() && Now() == ExitCall(old(Now()))
    {
      hide Valid, Now, Partitioned, ExitOk, SemsOk, BoxesOk, Release;
      ghost var s := Now();
      Reads();
      QueueNeverFull(s, InFree);
      QueueNeverFull(s, InReady);
      var parent := pcb[running].ppid;
      if pcb[parent].state != ForkWaiting {
        SetPcb(running, pcb[running].(state := Zombie));
        SetRunning(-1);
        return;
      }
      ChildOwns(s, running);
      SetPcb(parent, pcb[parent].(state := Ready));
      EnReady(parent);
      Reads();
      SetPcb(parent, pcb[parent].(frame := pcb[parent].frame.(ebx := running, eax := pcb[running].frame.eax)));
      ghost var w := s.pcb[parent];
      ghost var f := w.frame.(ebx := s.running, eax := s.pcb[s.running].frame.eax);
      PutTwice(s.pcb, parent, w.(state := Ready), w.(state := Ready, frame := f));
      assert Now() == ExitMid(s);
      BuriedIsExit(s);
      Reads();
      Bury();
    }

    /** The rest of ExitISR: the dead process gives back its pages, its record and its PID. */
    method Bury()
      requires Valid() && Shape(Now()) && 1 <= running < MAX_PROC_NUM && |Now().free| < Q_LEN
      requires Blocks(Now().owner) && Owns(Now().owner, running)
      modifies Repr
      ensures Valid() && Now() == Buried(old(Now()))
    {
      hide Valid, Now, Release;
      Reads();
      GiveBackPages(running);
      Reads();
      SetPcb(running, BLANK_PCB);
      Reads();
      EnFree(running);
      SetRunning(-1);
    }

    // main.c

    method Schedule()
      requires Valid() && Shape(Now()) && -1 <= running < MAX_PROC_NUM
      requires running <= 0 && Now().ready != [] ==> 0 <= Now().ready[0] < MAX_PROC_NUM
      modifies Repr
      ensures Valid() && Now() == Scheduler(old(Now()))
    {
      hide Valid, Now;
      Reads();
      if running > 0 {
        return;
      }
      if running == 0 {
        SetPcb(running, pcb[running].(state := Ready));
      }
      Reads();
      var p := DeReady();
      SetRunning(p);
      Reads();
      if running == -1 {
        SetRunning(0);
      }
      Reads();
      SetPcb(running, pcb[running].(state := Running));
    }

    lemma AsleepReads()
      requires Valid()
      ensures asleep.len == |Now().asleep|
    {
    }

    /** One sleeper goes round: to the ready queue if its time has come, else to the back. */
    method TurnSleeper()
      requires Valid() && Shape(Now()) && Now().asleep != [] && IsPid(Now().asleep[0])
      requires |Now().ready| < Q_LEN && |Now().asleep| <= Q_LEN
      modifies Repr
      ensures Valid() && Now() == Turned(old(Now()))
    {
      hide Valid, Now;
      var pid := DeAsleep();
      Reads();
      if clock == pcb[pid].wake {
        EnReady(pid);
        Reads();
        SetPcb(pid, pcb[pid].(state := Ready));
      } else {
        EnAsleep(pid);
      }
    }

    /** KernelMain's pass over the sleep queue: each sleeper goes round once. */
    method WakePass()
      requires Valid() && Inv(Now())
      modifies Repr
      ensures Valid() && Now() == WakeDue(old(Now()))
    {
      hide Valid, Now, PassedOver, Turned, WakeDue, Partitioned, PagesOk, ExitOk, SemsOk, BoxesOk;
      ghost var s := Now();
      PassRoom(s);
      AsleepReads();
      PassStart(s);
      var sleepers := asleep.len;
      for idx := 0 to sleepers
        invariant Valid() && Now() == PassedOver(s, idx)
      {
        PassStep(s, idx);
        TurnSleeper();
      }
      PassEnd(s);
    }

    /** KernelMain before the switch: the running process's registers are saved. */
    method SaveRegisters(frame: Frame)
      requires Valid() && Inv(Now()) && 0 <= running
      modifies Repr
      ensures Valid() && Now() == SaveFrame(old(Now()), frame) && Inv(Now())
    {
      hide Valid, Now, Partitioned, PagesOk, ExitOk, SemsOk, BoxesOk;
      Reads();
      SaveFrameKeeps(Now(), frame);
      SetPcb(running, pcb[running].(frame := frame));
    }

    /** The timer case: preemption, the clock, the sleepers. */
    method TimerCase()
      requires Valid() && Inv(Now())
      modifies Repr
      ensures Valid() && Now() == Tick(old(Now()))
    {
      hide Valid, Now, Inv, Preempt, Advance, WakeDue;
      PreemptKeeps(Now());
      TimerISR();
      AdvanceKeeps(Now());
      AdvanceClock();
      WakePass();
    }

    method StartProcCase()
      requires Valid() && Inv(Now())
      modifies Repr
      ensures Valid() && Now() == StartProcCall(old(Now()))
    {
      hide Valid, Now, Partitioned, PagesOk, ExitOk, SemsOk, BoxesOk, StartAt;
      QueueNeverFull(Now(), InReady);
      if Now().free != [] {
        HeadFits(Now(), InFree);
      }
      var p := DeFree();
      if p != -1 {
        StartProcISR(p);
      }
    }

    lemma InRange()
      requires Valid() && Inv(Now()) && 0 <= running
      ensures running == Now().running < |Now().pcb| == pcb.Length
      ensures pcb[running] == At(Now().pcb, Now().running) == Now().pcb[Now().running]
      ensures mem !in Repr
    {
    }

    /** KernelMain's switch. */
    method Dispatch(intr: Interrupt, v: Variant)
      requires Valid() && Inv(Now()) && 0 <= running && Enabled(Now(), Entry(intr, Now().pcb[Now().running].frame))
      requires intr.Fork? ==> ImageFits(Now(), Now().pcb[Now().running].frame, mem[..], segs)
      modifies Repr, mem
      ensures Valid() && Now() == Serve(old(Now()), intr, v)
      ensures var s := old(Now());
        intr.Fork? ==> mem[..] == AfterFork(s, s.pcb[s.running].frame, old(mem[..]), segs)
      ensures !intr.Fork? ==> mem[..] == old(mem[..])
    {
      hide Valid, Now, Inv, ImageFits, AfterFork, SemPostCall, SemWaitCall, SemGetCall, ForkCall, WaitCall, ExitCall;
      InRange();
      var frame := pcb[running].frame;
      if intr.Fork? {
        FitsAgain(Now(), Now(), frame, Frame(frame.eax, frame.ebx, 0), mem[..], segs);
      }
      match intr {
        case Timer => TimerCase();
        case Irq3(cause, data) => IRQ3ISR(cause, data);
        case Irq7 => SemPostISR(0);
        case GetPid => GetPidISR();
        case Sleep => SleepISR();
        case StartProc => StartProcCase();
        case SemGet => SemGetISR(frame.eax);
        case SemWait => SemWaitISR(frame.eax);
        case SemPost => SemPostISR(frame.eax);
        case MsgSnd(msg) => MsgSndISR(msg);
        case MsgRcv => MsgRcvISR();
        case Fork => ForkISR(frame.eax, frame.ebx);
        case Wait(b) =>
          if v == Repaired {
            WaitISRRepaired(b);
          } else {
            SetBelow(b);
            Reads();
            WaitISR();
          }
        case Exit => ExitISR();
        case Unknown =>
      }
    }

    /** Where the scheduler will find its next process, even after a Wait that reaps as written. */
    lemma ServeFits(s: State, intr: Interrupt, v: Variant)
      requires Inv(s) && 0 <= s.running && Enabled(s, Entry(intr, s.pcb[s.running].frame))
      ensures var s' := Serve(s, intr, v);
        Shape(s') && -1 <= s'.running < MAX_PROC_NUM
        && (s'.running <= 0 && s'.ready != [] ==> 0 <= s'.ready[0] < MAX_PROC_NUM)
    {
      hide Partitioned, ExitOk, SemsOk, BoxesOk, PagesOk, QuantaOk;
      if !(v == AsWritten && intr.Wait?) || ZombiePage(s, intr.below, 0) == DRAM_PAGE_COUNT {
        ServeKeeps(s, intr, v);
        var s' := Serve(s, intr, v);
        if s'.ready != [] {
          HeadFits(s', InReady);
        }
      }
    }

    /** One kernel entry: save the registers, serve the interrupt, schedule. The kernel moves as the
        step function says and memory as a step of a memory run says; `v` picks the WaitISR. */
    method KernelMain(intr: Interrupt, frame: Frame, v: Variant)
      requires Valid() && Inv(Now()) && 0 <= running && Enabled(Now(), Entry(intr, frame))
      requires intr.Fork? ==> ImageFits(Now(), frame, mem[..], segs)
      modifies Repr, mem
      ensures Valid() && Now() == Step(old(Now()), Entry(intr, frame), v)
      ensures |old(Now()).owner| == DRAM_PAGE_COUNT
      ensures !intr.Fork? || frame.ebx <= MAX_SPILL ==>
        ChildMemory.MemStep(old(Now()), Entry(intr, frame), old(mem[..]), mem[..], segs)
    {
      hide Valid, Now, Inv, ImageFits, AfterFork, Serve, Scheduler;
      InRange();
      ghost var s, m := Now(), mem[..];
      SavedFacts(s, intr, frame);
      if intr.Fork? {
        FitsAgain(s, SaveFrame(s, frame), frame, frame, m, segs);
      }
      SaveRegisters(frame);
      Reads();
      ServeFits(Now(), intr, v);
      Dispatch(intr, v);
      Reads();
      Schedule();
      ForkIsMemStep(s, intr, frame, m, mem[..], segs);
    }
  }

  lemma SavedFacts(s: State, intr: Interrupt, f: Frame)
    requires Inv(s) && 0 <= s.running
    ensures |s.owner| == DRAM_PAGE_COUNT
    ensures var s' := SaveFrame(s, f); s'.running == s.running < |s'.pcb| && s'.pcb[s.running].frame == f
    ensures Enabled(s, Entry(intr, f)) ==> Enabled(SaveFrame(s, f), Entry(intr, f))
  {
  }

  lemma ForkIsMemStep(s: State, intr: Interrupt, f: Frame, m: seq<Paging.Byte>, m': seq<Paging.Byte>,
                      g: Paging.Segments)
    requires |s.owner| == DRAM_PAGE_COUNT
    requires if intr.Fork? then ImageFits(s, f, m, g) && m' == AfterFork(s, f, m, g) else m' == m
    ensures !intr.Fork? || f.ebx <= MAX_SPILL ==> ChildMemory.MemStep(s, Entry(intr, f), m, m', g)
  {
  }

  /** A kernel in fresh, zeroed memory. */
  method Load(t: int, segs: Paging.Segments, mem: array<Paging.Byte>) returns (k: Kernel)
    ensures fresh(k) && fresh(k.Repr) && k.Valid() && k.Now() == Empty(t, k.Now().owner) && Shape(k.Now())
    ensures k.segs == segs && k.mem == mem
  {
    var st, mt, pd := NewTables();
    k := new Kernel(t, segs, mem, st, mt, pd);
    k.IdleIsEmpty();
  }

  /** main() up to the first process switch: PIDs 0 to 5 started. */
  method StartUp(t: int, segs: Paging.Segments, mem: array<Paging.Byte>) returns (k: Kernel)
    ensures fresh(k) && fresh(k.Repr) && k.Valid() && k.Now() == Boot(t) && Inv(k.Now())
    ensures k.segs == segs && k.mem == mem
  {
    hide Inv;
    k := Load(t, segs, mem);
    hide k.Valid, k.Now;
    InitialisedIsStarted(k.Now(), t);
    k.InitKernelData(t);
    k.StartFirst(t);
  }
}
