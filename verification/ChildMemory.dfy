/** Page tables over whole runs: in every reachable state, each live child's address space means its
    own pages, whatever the processes write outside the page tables. */
module ChildMemory {
  import opened Params
  import opened KernelState
  import opened Partition
  import opened Pages
  import opened Invariant
  import opened Lifecycle
  import opened Bystanders
  import opened Runs
  import opened ChildExit
  import Paging
  import opened PageTables

  type Memory = seq<Paging.Byte>

  function BaseOf(j: int): int {
    PageAddr(BLOCK * j)
  }

  /** The kernel's directory is page-aligned and lies outside the pool; the pool lies in memory. */
  predicate LayoutOk(m: Memory, os: int) {
    0 <= os && os % PAGE_SIZE == 0 && os + PAGE_SIZE <= |m|
    && (os + PAGE_SIZE <= DRAM_BASE || PageAddr(DRAM_PAGE_COUNT) <= os)
    && PageAddr(DRAM_PAGE_COUNT) <= |m|
  }

  predicate InTables(j: int, a: int) {
    BaseOf(j) <= a < BaseOf(j) + 3 * PAGE_SIZE
  }

  /** Addresses that processes are taken never to write: the kernel's page directory and the
      first three pages of every owned block. */
  ghost predicate Protected(s: State, a: int)
    requires |s.owner| == DRAM_PAGE_COUNT
  {
    s.osTable <= a < s.osTable + PAGE_SIZE
    || exists j :: 0 <= j < BLOCK_COUNT && Head(s.owner, j) != -1 && InTables(j, a)
  }

  predicate Forks(s: State, e: Event) {
    e.Entry? && e.intr.Fork? && !ForkFails(s)
  }

  function FivePages(owner: seq<int>): Paging.Five
    requires |FreePages(owner, 0)| >= BLOCK
  {
    var p := FreePages(owner, 0);
    Paging.Five(PageAddr(p[0]), PageAddr(p[1]), PageAddr(p[2]), PageAddr(p[3]), PageAddr(p[4]))
  }

  /** Memory over one step: a successful Fork writes what ForkISR writes, for an image that does not
      overrun the block; any other step leaves protected addresses alone. */
  ghost predicate MemStep(s: State, e: Event, m: Memory, m': Memory, g: Paging.Segments)
    requires |s.owner| == DRAM_PAGE_COUNT
  {
    |m'| == |m|
    && if Forks(s, e) then
         Paging.ForkFits(m, FivePages(s.owner), e.frame.eax, e.frame.ebx, s.osTable, g)
         && e.frame.ebx <= MAX_SPILL
         && m' == Paging.ForkMemory(m, FivePages(s.owner), e.frame.eax, e.frame.ebx, s.osTable, g)
       else
         forall a :: 0 <= a < |m| && Protected(s, a) ==> m'[a] == m[a]
  }

  /** Every owned block holds its owner's tables, and the owner's record names them. */
  ghost predicate SpacesOk(s: State, m: Memory)
    requires Shape(s)
  {
    LayoutOk(m, s.osTable)
    && (forall j :: 0 <= j < BLOCK_COUNT && Head(s.owner, j) != -1 ==> TablesOk(m, BaseOf(j), s.osTable))
    && (forall j :: 0 <= j < BLOCK_COUNT && IsPid(Head(s.owner, j)) ==> s.pcb[Head(s.owner, j)].table == BaseOf(j))
  }

  /** Blocks change hands only by Fork claiming the lowest free one, or by being given back. */
  ghost predicate BlocksAfter(s: State, s': State, forked: bool)
    requires |s.owner| == DRAM_PAGE_COUNT && |s'.owner| == DRAM_PAGE_COUNT
  {
    forall j :: 0 <= j < BLOCK_COUNT ==>
      (Head(s'.owner, j) == Head(s.owner, j) || Head(s'.owner, j) == -1
       || (forked && j == FreeBlock(s.owner, 0) && s.free != [] && Head(s'.owner, j) == s.free[0]))
  }

  lemma ServeBlocks(s: State, intr: Interrupt, v: Variant)
    requires Inv(s) && 0 <= s.running && Enabled(s, Entry(intr, s.pcb[s.running].frame))
    requires v == AsWritten && intr.Wait? ==> ZombiePage(s, intr.below, 0) == DRAM_PAGE_COUNT
    ensures |Serve(s, intr, v).owner| == DRAM_PAGE_COUNT && Serve(s, intr, v).osTable == s.osTable
    ensures BlocksAfter(s, Serve(s, intr, v), intr.Fork? && !ForkFails(s))
    ensures !intr.Fork? && !intr.Wait? && !intr.Exit? ==> Serve(s, intr, v).owner == s.owner
  {
    hide Partitioned, ExitOk, SemsOk, BoxesOk, QuantaOk, Irq3Call, SemPostCall, WakeDue, ForkCall, WaitCall, ExitCall;
    match intr {
      case Irq3(cause, data) => Irq3Blocks(s, cause, data);
      case Irq7 => PostBlocks(s, 0);
      case SemPost => PostBlocks(s, s.pcb[s.running].frame.eax);
      case Timer => TickBlocks(s);
      case Fork => ForkBlocks(s);
      case Wait(below) => WaitBlocks(s, below, v);
      case Exit => ExitBlocks(s);
      case _ =>
    }
  }

  lemma TickBlocks(s: State)
    ensures Tick(s).owner == s.owner && Tick(s).osTable == s.osTable
  {
  }

  lemma PostBlocks(s: State, id: int)
    ensures SemPostCall(s, id).owner == s.owner && SemPostCall(s, id).osTable == s.osTable
  {
  }

  lemma Irq3Blocks(s: State, cause: Port.Cause, data: int)
    ensures Irq3Call(s, cause, data).owner == s.owner && Irq3Call(s, cause, data).osTable == s.osTable
  {
  }

  lemma ForkBlocks(s: State)
    requires Inv(s) && 1 <= s.running
    ensures |ForkCall(s).owner| == DRAM_PAGE_COUNT && ForkCall(s).osTable == s.osTable
    ensures BlocksAfter(s, ForkCall(s), !ForkFails(s))
  {
    if s.free != [] {
      ForkGives(s);
      ClaimBlock(s.owner, FreeBlock(s.owner, 0), s.free[0]);
    }
  }

  lemma WaitBlocks(s: State, below: Pcb, v: Variant)
    requires Inv(s) && 1 <= s.running
    requires v == AsWritten ==> ZombiePage(s, below, 0) == DRAM_PAGE_COUNT
    ensures |WaitCall(s, below, v).owner| == DRAM_PAGE_COUNT && WaitCall(s, below, v).osTable == s.osTable
    ensures BlocksAfter(s, WaitCall(s, below, v), false)
  {
    var d := ZombiePage(s, Below(below, v), 0);
    if d < DRAM_PAGE_COUNT {
      FoundChild(s, d);
      ReleaseBlock(s.owner, s.owner[d]);
    }
  }

  lemma ExitBlocks(s: State)
    requires Inv(s) && 1 <= s.running
    ensures |ExitCall(s).owner| == DRAM_PAGE_COUNT && ExitCall(s).osTable == s.osTable
    ensures BlocksAfter(s, ExitCall(s), false)
  {
    ReleaseBlock(s.owner, s.running);
  }

  lemma StepBlocks(s: State, e: Event, v: Variant)
    requires Inv(s) && 0 <= s.running && Sound(s, e, v)
    ensures |Step(s, e, v).owner| == DRAM_PAGE_COUNT && Step(s, e, v).osTable == s.osTable
    ensures BlocksAfter(s, Step(s, e, v), Forks(s, e))
  {
    hide Serve, Partitioned, PagesOk, ExitOk, SemsOk, BoxesOk, QuantaOk;
    match e {
      case UserPort(_) =>
      case Entry(intr, f) =>
        SaveFrameKeeps(s, f);
        ServeBlocks(SaveFrame(s, f), intr, v);
    }
  }

  // Tables

  /** The lowest five free pages are the pages of the block at BaseOf(FreeBlock). */
  lemma FiveAreBlock(s: State)
    requires Inv(s) && s.free != []
    ensures |FreePages(s.owner, 0)| >= BLOCK && FreeBlock(s.owner, 0) < BLOCK_COUNT
    ensures FivePages(s.owner) == BlockAt(BaseOf(FreeBlock(s.owner, 0)))
  {
    PoolOutlastsPids(s);
    LowestFiveAreABlock(s.owner, 0);
    var p, j := FreePages(s.owner, 0), FreeBlock(s.owner, 0);
    assert p[..BLOCK] == BlockPages(j);
    assert p[0] == p[..BLOCK][0] && p[1] == p[..BLOCK][1] && p[2] == p[..BLOCK][2]
        && p[3] == p[..BLOCK][3] && p[4] == p[..BLOCK][4];
  }

  lemma BaseFacts(j: int)
    requires 0 <= j < BLOCK_COUNT
    ensures IsBase(BaseOf(j)) && DRAM_BASE <= BaseOf(j) && BaseOf(j) + BLOCK_BYTES <= PageAddr(DRAM_PAGE_COUNT)
    ensures forall i :: 0 <= i < BLOCK_COUNT && i != j ==>
      BaseOf(i) + BLOCK_BYTES <= BaseOf(j) || BaseOf(j) + BLOCK_BYTES <= BaseOf(i)
  {
  }

  lemma ForkTables(s: State, e: Event, m: Memory, m': Memory, g: Paging.Segments, j: int)
    requires Inv(s) && SpacesOk(s, m) && MemStep(s, e, m, m', g) && Forks(s, e)
    requires 0 <= j < BLOCK_COUNT && (Head(s.owner, j) != -1 || j == FreeBlock(s.owner, 0))
    ensures TablesOk(m', BaseOf(j), s.osTable)
  {
    hide TablesOk, Partitioned, ExitOk, SemsOk, BoxesOk, QuantaOk, Paging.ForkMemory;
    FiveAreBlock(s);
    var b := FreeBlock(s.owner, 0);
    BaseFacts(b);
    if j == b {
      ForkBuildsTables(m, BaseOf(b), e.frame.eax, e.frame.ebx, s.osTable, g);
    } else {
      BaseFacts(j);
      forall k | 0 <= k < |m| && !InBlock(BaseOf(b), k) ensures m'[k] == m[k] {
        ForkBytes(m, BaseOf(b), e.frame.eax, e.frame.ebx, s.osTable, g, k);
      }
      TablesKept(m, m', BaseOf(j), s.osTable);
    }
  }

  lemma OtherTables(s: State, e: Event, m: Memory, m': Memory, g: Paging.Segments, j: int)
    requires Inv(s) && SpacesOk(s, m) && MemStep(s, e, m, m', g) && !Forks(s, e)
    requires 0 <= j < BLOCK_COUNT && Head(s.owner, j) != -1
    ensures TablesOk(m', BaseOf(j), s.osTable)
  {
    hide Partitioned, ExitOk, SemsOk, BoxesOk, QuantaOk, Paging.Word;
    BaseFacts(j);
    forall k | BaseOf(j) <= k < BaseOf(j) + 3 * PAGE_SIZE ensures m'[k] == m[k] {
      assert InTables(j, k) && Protected(s, k);
    }
    forall k | s.osTable <= k < s.osTable + PAGE_SIZE ensures m'[k] == m[k] {
      assert Protected(s, k);
    }
    TablesKept(m, m', BaseOf(j), s.osTable);
  }

  // Records

  /** A live owner's record keeps the address of its tables. */
  lemma ServeTable(s: State, intr: Interrupt, v: Variant, p: int)
    requires Inv(s) && 0 <= s.running && Enabled(s, Entry(intr, s.pcb[s.running].frame))
    requires v == AsWritten && intr.Wait? ==> ZombiePage(s, intr.below, 0) == DRAM_PAGE_COUNT
    requires IsPid(p) && s.pcb[p].ppid != 0
    ensures At(Serve(s, intr, v).pcb, p).table == s.pcb[p].table || At(Serve(s, intr, v).pcb, p) == BLANK_PCB
  {
    hide Partitioned, ExitOk, SemsOk, BoxesOk, QuantaOk;
    hide Irq3Call, SemPostCall, MsgSndCall, WakeDue;
    if p != s.running {
      ServeBystander(s, intr, v, p);
    } else {
      match intr {
        case Timer =>
          assert Partitioned(Advance(Preempt(s))) by {
            PreemptKeeps(s);
            AdvanceKeeps(Preempt(s));
          }
          PassBystander(Advance(Preempt(s)), p);
        case Irq3(cause, data) => Irq3Bystander(s, cause, data, p);
        case Irq7 => PostBystander(s, 0, p);
        case SemPost => PostBystander(s, s.pcb[p].frame.eax, p);
        case MsgSnd(msg) => SndBystander(s, msg, p);
        case StartProc => StartBystander(s, p);
        case Fork => ForkOwnTable(s);
        case Wait(below) => WaitOwnTable(s, below, v);
        case _ =>
      }
    }
  }

  lemma ForkOwnTable(s: State)
    requires Inv(s) && 1 <= s.running
    ensures At(ForkCall(s).pcb, s.running).table == s.pcb[s.running].table
  {
    if s.free != [] {
      ForkGives(s);
    }
  }

  lemma WaitOwnTable(s: State, below: Pcb, v: Variant)
    requires Inv(s) && 1 <= s.running
    ensures At(WaitCall(s, below, v).pcb, s.running).table == s.pcb[s.running].table
  {
    var d := ZombiePage(s, Below(below, v), 0);
    if d < DRAM_PAGE_COUNT && v == Repaired {
      FoundChild(s, d);
    }
  }

  lemma StepTable(s: State, e: Event, v: Variant, p: int)
    requires Inv(s) && 0 <= s.running && Sound(s, e, v) && IsPid(p) && s.pcb[p].ppid != 0
    requires At(Step(s, e, v).pcb, p).ppid != 0
    ensures At(Step(s, e, v).pcb, p).table == s.pcb[p].table
  {
    hide Serve, Scheduler, Partitioned, PagesOk, ExitOk, SemsOk, BoxesOk, QuantaOk;
    match e {
      case UserPort(_) =>
      case Entry(intr, f) =>
        SaveFrameKeeps(s, f);
        ServeTable(SaveFrame(s, f), intr, v, p);
        ServeKeeps(SaveFrame(s, f), intr, v);
        SchedulerTouches(Serve(SaveFrame(s, f), intr, v));
    }
  }

  lemma NewTable(s: State, e: Event, v: Variant)
    requires Inv(s) && 0 <= s.running && Sound(s, e, v) && Forks(s, e)
    ensures IsPid(s.free[0]) && !Owns(s.owner, s.free[0])
    ensures At(Step(s, e, v).pcb, s.free[0]).table == BaseOf(FreeBlock(s.owner, 0))
  {
    hide Partitioned, PagesOk, ExitOk, SemsOk, BoxesOk, QuantaOk;
    SaveFrameKeeps(s, e.frame);
    ForkGives(SaveFrame(s, e.frame));
  }

  /** One step of the kernel and of memory keeps every live child's address space right. */
  lemma StepSpaces(s: State, e: Event, v: Variant, m: Memory, m': Memory, g: Paging.Segments)
    requires Inv(s) && 0 <= s.running && Sound(s, e, v) && SpacesOk(s, m) && MemStep(s, e, m, m', g)
    ensures Shape(Step(s, e, v)) && SpacesOk(Step(s, e, v), m')
  {
    hide Step, TablesOk, MemStep, Forks, Partitioned, ExitOk, SemsOk, BoxesOk, QuantaOk, BaseOf;
    var s' := Step(s, e, v);
    StepKeeps(s, e, v);
    StepBlocks(s, e, v);
    MemSize(s, e, m, m', g);
    forall j | 0 <= j < BLOCK_COUNT && Head(s'.owner, j) != -1 ensures TablesOk(m', BaseOf(j), s'.osTable) {
      if Forks(s, e) {
        ForkTables(s, e, m, m', g, j);
      } else {
        OtherTables(s, e, m, m', g, j);
      }
    }
    forall j | 0 <= j < BLOCK_COUNT && IsPid(Head(s'.owner, j)) ensures s'.pcb[Head(s'.owner, j)].table == BaseOf(j) {
      var p := Head(s'.owner, j);
      assert Owns(s'.owner, p);
      if p == Head(s.owner, j) {
        assert Owns(s.owner, p);
        StepTable(s, e, v, p);
      } else {
        NewTable(s, e, v);
      }
    }
  }

  lemma MemSize(s: State, e: Event, m: Memory, m': Memory, g: Paging.Segments)
    requires |s.owner| == DRAM_PAGE_COUNT && MemStep(s, e, m, m', g)
    ensures |m'| == |m|
  {
  }

  // Runs of kernel and memory together

  ghost predicate MemRun(s: State, es: seq<Event>, v: Variant, ms: seq<Memory>, g: Paging.Segments)
    decreases |es|
  {
    |ms| == |es| + 1 &&
    (es == [] ||
     (|s.owner| == DRAM_PAGE_COUNT && MemStep(s, es[0], ms[0], ms[1], g)
      && MemRun(Step(s, es[0], v), es[1..], v, ms[1..], g)))
  }

  lemma {:induction false} RunSpaces(s: State, es: seq<Event>, v: Variant, ms: seq<Memory>, g: Paging.Segments)
    requires Inv(s) && 0 <= s.running && SoundRun(s, es, v)
    requires MemRun(s, es, v, ms, g) && SpacesOk(s, ms[0])
    ensures Inv(Run(s, es, v)) && SpacesOk(Run(s, es, v), ms[|es|])
    decreases |es|
  {
    hide Step, SpacesOk, MemStep, Partitioned, PagesOk, ExitOk, SemsOk, BoxesOk, QuantaOk, Sound;
    if es != [] {
      StepKeeps(s, es[0], v);
      StepSpaces(s, es[0], v, ms[0], ms[1], g);
      RunSpaces(Step(s, es[0], v), es[1..], v, ms[1..], g);
      assert ms[1..][|es[1..]|] == ms[|es|];
    }
  }

  /** Outside the two windows, but under their directory entries, a child's space is unspecified. */
  predicate Specified(va: int) {
    InWindows(va) || (va / Paging.DIR_SPAN != Paging.CODE_DIR && va / Paging.DIR_SPAN != Paging.STACK_DIR)
  }

  /** What an address should mean to the owner of block j: the block's fourth page in the code
      window, its fifth in the stack window, what the kernel's directory says elsewhere. */
  function Meaning(m: Memory, os: int, j: int, va: int): Paging.Option<int>
    requires 0 <= va < Paging.WORD_LIMIT
  {
    if Paging.CODE_VA <= va < Paging.CODE_VA + PAGE_SIZE then
      Paging.Some(PageAddr(BLOCK * j + 3) + (va - Paging.CODE_VA))
    else if Paging.STACK_VA <= va < Paging.STACK_VA + PAGE_SIZE then
      Paging.Some(PageAddr(BLOCK * j + 4) + (va - Paging.STACK_VA))
    else
      Paging.Walk(m, os, va)
  }

  /** p owns block j, and the directory c gives every specified address its meaning. */
  ghost predicate OwnSpace(m: Memory, s: State, p: int, j: int, c: int)
    requires |s.owner| == DRAM_PAGE_COUNT
  {
    0 <= j < BLOCK_COUNT && Head(s.owner, j) == p
    && forall va :: 0 <= va < Paging.WORD_LIMIT && Specified(va) ==>
      Paging.Walk(m, c, va) == Meaning(m, s.osTable, j, va)
  }

  /** From boot: the windows of every live forked process mean its own pages, and the rest of its
      space is the kernel's. */
  lemma OwnPagesSeen(t: int, es: seq<Event>, v: Variant, ms: seq<Memory>, g: Paging.Segments, p: int)
    requires SoundRun(Boot(t), es, v) && MemRun(Boot(t), es, v, ms, g) && LayoutOk(ms[0], t)
    requires IsPid(p) && At(Run(Boot(t), es, v).pcb, p).ppid != 0
    ensures var r := Run(Boot(t), es, v);
      Inv(r) && exists j :: OwnSpace(ms[|es|], r, p, j, r.pcb[p].table)
  {
    hide Partitioned, ExitOk, SemsOk, BoxesOk, QuantaOk, TablesOk, Paging.Walk, BaseOf;
    BootInv(t);
    assert SpacesOk(Boot(t), ms[0]);
    RunSpaces(Boot(t), es, v, ms, g);
    var r, m := Run(Boot(t), es, v), ms[|es|];
    assert Owns(r.owner, p);
    var j :| 0 <= j < BLOCK_COUNT && Head(r.owner, j) == p;
    hide LayoutOk, Meaning, Specified;
    forall va | 0 <= va < Paging.WORD_LIMIT && Specified(va)
      ensures Paging.Walk(m, r.pcb[p].table, va) == Meaning(m, r.osTable, j, va)
    {
      SpaceMeans(m, r.osTable, j, va);
    }
    assert OwnSpace(m, r, p, j, r.pcb[p].table);
  }

  lemma SpaceMeans(m: Memory, os: int, j: int, va: int)
    requires 0 <= j < BLOCK_COUNT && LayoutOk(m, os) && TablesOk(m, BaseOf(j), os)
    requires 0 <= va < Paging.WORD_LIMIT && Specified(va)
    ensures Paging.Walk(m, BaseOf(j), va) == Meaning(m, os, j, va)
  {
    hide TablesOk, Paging.Walk;
    if Paging.CODE_VA <= va < Paging.CODE_VA + PAGE_SIZE {
      WindowsMean(m, BaseOf(j), os, va - Paging.CODE_VA);
    } else if Paging.STACK_VA <= va < Paging.STACK_VA + PAGE_SIZE {
      WindowsMean(m, BaseOf(j), os, va - Paging.STACK_VA);
    } else {
      ElsewhereAsKernel(m, BaseOf(j), os, va);
    }
  }

  /** From boot: two live forked processes never share a byte of their code or stack windows. */
  lemma ChildrenIsolated(t: int, es: seq<Event>, v: Variant, ms: seq<Memory>, g: Paging.Segments,
                         p: int, q: int, va1: int, va2: int)
    requires SoundRun(Boot(t), es, v) && MemRun(Boot(t), es, v, ms, g) && LayoutOk(ms[0], t)
    requires IsPid(p) && IsPid(q) && p != q
    requires At(Run(Boot(t), es, v).pcb, p).ppid != 0 && At(Run(Boot(t), es, v).pcb, q).ppid != 0
    requires InWindows(va1) && InWindows(va2)
    ensures var m, r := ms[|es|], Run(Boot(t), es, v);
      var c1, c2 := At(r.pcb, p).table, At(r.pcb, q).table;
      Paging.Walk(m, c1, va1).Some? && Paging.Walk(m, c2, va2).Some?
      && Paging.Walk(m, c1, va1) != Paging.Walk(m, c2, va2)
  {
    hide Partitioned, ExitOk, SemsOk, BoxesOk, QuantaOk, TablesOk, Paging.Walk, BaseOf;
    BootInv(t);
    assert SpacesOk(Boot(t), ms[0]);
    RunSpaces(Boot(t), es, v, ms, g);
    var r, m := Run(Boot(t), es, v), ms[|es|];
    assert Owns(r.owner, p) && Owns(r.owner, q);
    var j :| 0 <= j < BLOCK_COUNT && Head(r.owner, j) == p;
    var k :| 0 <= k < BLOCK_COUNT && Head(r.owner, k) == q;
    BaseFacts(j);
    WindowsDisjoint(m, BaseOf(j), BaseOf(k), r.osTable, va1, va2);
  }

  predicate InWindows(va: int) {
    Paging.CODE_VA <= va < Paging.CODE_VA + PAGE_SIZE || Paging.STACK_VA <= va < Paging.STACK_VA + PAGE_SIZE
  }
}
