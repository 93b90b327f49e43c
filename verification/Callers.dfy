/** What a kernel entry does for the process that makes it: the registers it gets back, whether it
    keeps the processor, and what its record counts. */
module Callers {
  import opened Params
  import opened Port
  import opened KernelState
  import opened Partition
  import opened Pages
  import opened Invariant
  import opened Lifecycle
  import Bystanders
  import ChildExit
  import opened Runs
  import opened Fairness

  // Registers

  /** c was unused and is now the ready child of p, in the block that changed hands. */
  ghost predicate NewChild(s: State, s': State, p: int, c: int)
    requires Shape(s) && Shape(s')
  {
    IsPid(c) && s.pcb[c].state == Free && s'.pcb[c].state == Ready && s'.pcb[c].ppid == p
    && !Owns(s.owner, c)
    && exists j :: GivenBlock(s.owner, s'.owner, j, c) && s'.pcb[c].table == PageAddr(BLOCK * j)
  }

  /** Block j, free before, is c's, and no other block changed hands. */
  predicate GivenBlock(owner: seq<int>, owner': seq<int>, j: int, c: int)
    requires |owner| == DRAM_PAGE_COUNT && |owner'| == DRAM_PAGE_COUNT
  {
    0 <= j < BLOCK_COUNT && Head(owner, j) == -1 && Head(owner', j) == c
    && forall k :: 0 <= k < BLOCK_COUNT && k != j ==> Head(owner', k) == Head(owner, k)
  }

  /** c was p's dead child, exited with this value, and its record is blank now. */
  predicate Collected(s: State, s': State, p: int, c: int, value: int)
    requires Shape(s) && Shape(s')
  {
    IsPid(c) && s.pcb[c].state == Zombie && s.pcb[c].ppid == p && s.pcb[c].frame.eax == value
    && s'.pcb[c] == BLANK_PCB
  }

  /** p's call left it the registers f', having come with f. A call answers in the registers its
      service names and leaves the others alone. */
  ghost predicate Answered(s: State, s': State, intr: Interrupt, p: int, f: Frame, f': Frame)
    requires Shape(s) && Shape(s') && 0 <= p < MAX_PROC_NUM
  {
    match intr
    case GetPid => f' == f.(eax := p)
    case SemGet => f' == f.(ebx := if s.semFree == [] then -1 else s.semFree[0])
    case Fork =>
      f'.eax == f.eax && f'.ebx == f.ebx && (f'.ecx == -1 <==> s.free == [])
      && (f'.ecx != -1 ==> NewChild(s, s', p, f'.ecx))
    case Wait(_) =>
      if s'.pcb[p].state == ForkWaiting then f' == f else f'.ecx == f.ecx && Collected(s, s', p, f'.ebx, f'.eax)
    case _ => f' == f
  }

  /** The rest of the caller's record: its parent and directory stay, only a tick counts its time,
      only Sleep sets its alarm. */
  predicate SameRecord(intr: Interrupt, r: Pcb, r': Pcb) {
    r'.ppid == r.ppid && r'.table == r.table && (!intr.Sleep? ==> r'.wake == r.wake)
    && (!intr.Timer? ==> r'.runtime == r.runtime && r'.total == r.total)
    && (intr.Timer? ==> r'.total == r.total + 1)
  }

  lemma PlainAnswers(s: State, intr: Interrupt, v: Variant)
    requires Inv(s) && 1 <= s.running && Enabled(s, Entry(intr, s.pcb[s.running].frame))
    requires !intr.Fork? && !intr.Wait? && !intr.Exit?
    ensures var s', p := Serve(s, intr, v), s.running;
      SameRecord(intr, s.pcb[p], At(s'.pcb, p))
      && At(s'.pcb, p).frame == (match intr
         case GetPid => s.pcb[p].frame.(eax := p)
         case SemGet => s.pcb[p].frame.(ebx := if s.semFree == [] then -1 else s.semFree[0])
         case _ => s.pcb[p].frame)
  {
    hide Partitioned, PagesOk, ExitOk, SemsOk, BoxesOk, QuantaOk;
    hide Irq3Call, SemPostCall, MsgSndCall, WakeDue;
    var p := s.running;
    match intr {
      case Timer =>
        assert Partitioned(Advance(Preempt(s))) by {
          PreemptKeeps(s);
          AdvanceKeeps(Preempt(s));
        }
        Bystanders.PassBystander(Advance(Preempt(s)), p);
      case Irq3(cause, data) => Bystanders.Irq3Bystander(s, cause, data, p);
      case Irq7 => Bystanders.PostBystander(s, 0, p);
      case SemPost => Bystanders.PostBystander(s, s.pcb[p].frame.eax, p);
      case MsgSnd(msg) => Bystanders.SndBystander(s, msg, p);
      case StartProc => Bystanders.StartBystander(s, p);
      case _ =>
    }
  }

  lemma ForkAnswered(s: State)
    requires Inv(s) && 1 <= s.running
    ensures var s', p := ForkCall(s), s.running;
      Shape(s') && SameRecord(Fork, s.pcb[p], s'.pcb[p])
      && Answered(s, s', Fork, p, s.pcb[p].frame, s'.pcb[p].frame)
  {
    hide Partitioned, ExitOk, SemsOk, BoxesOk, QuantaOk;
    PoolOutlastsPids(s);
    if s.free != [] {
      var c, s', j := s.free[0], ForkCall(s), FreeBlock(s.owner, 0);
      ForkGives(s);
      assert Blocks(s.owner);
      ClaimBlock(s.owner, j, c);
      assert GivenBlock(s.owner, s'.owner, j, c);
    }
  }

  lemma WaitAnswered(s: State, below: Pcb)
    requires Inv(s) && 1 <= s.running
    ensures var s', p := WaitCall(s, below, Repaired), s.running;
      Shape(s') && SameRecord(Wait(below), s.pcb[p], s'.pcb[p])
      && Answered(s, s', Wait(below), p, s.pcb[p].frame, s'.pcb[p].frame)
  {
    hide Partitioned, ExitOk, SemsOk, BoxesOk, QuantaOk, PagesOk;
    var d := ZombiePage(s, BLANK_PCB, 0);
    if d < DRAM_PAGE_COUNT {
      FoundChild(s, d);
    }
  }

  lemma BlockedAnswered(s: State, below: Pcb)
    requires Inv(s) && 1 <= s.running && ZombiePage(s, below, 0) == DRAM_PAGE_COUNT
    ensures var s', p := WaitCall(s, below, AsWritten), s.running;
      Shape(s') && SameRecord(Wait(below), s.pcb[p], s'.pcb[p])
      && Answered(s, s', Wait(below), p, s.pcb[p].frame, s'.pcb[p].frame)
  {
    hide Partitioned, ExitOk, SemsOk, BoxesOk, QuantaOk, PagesOk;
  }

  lemma ServeAnswers(s: State, intr: Interrupt, v: Variant)
    requires Inv(s) && 1 <= s.running && Enabled(s, Entry(intr, s.pcb[s.running].frame)) && !intr.Exit?
    requires v == AsWritten && intr.Wait? ==> ZombiePage(s, intr.below, 0) == DRAM_PAGE_COUNT
    requires Inv(Serve(s, intr, v))
    ensures var s', p := Serve(s, intr, v), s.running;
      SameRecord(intr, s.pcb[p], s'.pcb[p]) && Answered(s, s', intr, p, s.pcb[p].frame, s'.pcb[p].frame)
  {
    hide Partitioned, PagesOk, ExitOk, SemsOk, BoxesOk, QuantaOk, NewChild;
    hide Tick, Irq3Call, SemPostCall, MsgSndCall, ForkCall, WaitCall;
    match intr {
      case Fork => ForkAnswered(s);
      case Wait(below) =>
        if v == Repaired {
          WaitAnswered(s, below);
        } else {
          BlockedAnswered(s, below);
        }
      case _ => PlainAnswers(s, intr, v);
    }
  }

  /** Whoever runs after a Fork or a reaping Wait, it is the caller. */
  lemma StaysOn(s: State, intr: Interrupt, v: Variant)
    requires Inv(s) && 1 <= s.running && Enabled(s, Entry(intr, s.pcb[s.running].frame))
    ensures intr.Fork? ==> Serve(s, intr, v).running == s.running
    ensures intr.Wait? && At(Serve(s, intr, v).pcb, s.running).state != ForkWaiting ==>
      Serve(s, intr, v).running == s.running
  {
    hide Partitioned, PagesOk, ExitOk, SemsOk, BoxesOk, QuantaOk;
  }

  /** What any call but Exit gives its caller, over one kernel entry. */
  lemma StepAnswers(s: State, e: Event, v: Variant)
    requires Inv(s) && 1 <= s.running && Sound(s, e, v) && e.Entry? && !e.intr.Exit?
    ensures var s', p := Step(s, e, v), s.running;
      Shape(s') && SameRecord(e.intr, s.pcb[p], s'.pcb[p])
      && Answered(s, s', e.intr, p, e.frame, s'.pcb[p].frame)
  {
    hide Partitioned, PagesOk, ExitOk, SemsOk, BoxesOk, QuantaOk, Serve;
    var s1 := SaveFrame(s, e.frame);
    var s2 := Serve(s1, e.intr, v);
    SaveFrameKeeps(s, e.frame);
    ServeKeeps(s1, e.intr, v);
    ServeAnswers(s1, e.intr, v);
    StaysOn(s1, e.intr, v);
    SchedulerTouches(s2);
  }

  /** Fork answers -1 exactly when no PID is free, and otherwise the PID of a child of the caller
      that did not exist before. */
  lemma ForkAnswers(s: State, f: Frame, v: Variant)
    requires Inv(s) && 1 <= s.running && Sound(s, Entry(Fork, f), v)
    ensures var s', p := Step(s, Entry(Fork, f), v), s.running;
      Shape(s') && s'.running == p
      && var c := s'.pcb[p].frame.ecx;
         (c == -1 <==> s.free == []) && (c != -1 ==> NewChild(s, s', p, c))
  {
    hide Partitioned, PagesOk, ExitOk, SemsOk, BoxesOk, QuantaOk, Serve;
    var s1 := SaveFrame(s, f);
    SaveFrameKeeps(s, f);
    StaysOn(s1, Fork, v);
    StepAnswers(s, Entry(Fork, f), v);
  }

  // Children, over runs

  /** The PID a Fork of p returns in this step, if it returns one. */
  function ForkedAt(s: State, e: Event, s': State, p: int): seq<int> {
    var c := At(s'.pcb, p).frame.ecx;
    if e.Entry? && e.intr.Fork? && s.running == p && c != -1 then [c] else []
  }

  /** c comes to life in this step as a child of p. */
  predicate IsBorn(s: State, s': State, p: int, c: int) {
    At(s.pcb, c).state == Free && At(s'.pcb, c).state != Free && At(s'.pcb, c).ppid == p
  }

  /** The PIDs from `from` on that do. */
  function BornAt(s: State, s': State, p: int, from: nat): seq<int>
    decreases MAX_PROC_NUM - from
  {
    if from >= MAX_PROC_NUM then []
    else if IsBorn(s, s', p, from) then [from] + BornAt(s, s', p, from + 1)
    else BornAt(s, s', p, from + 1)
  }

  lemma {:induction false} BornOne(s: State, s': State, p: int, from: nat, c: int)
    requires forall k :: from <= k < MAX_PROC_NUM ==> (IsBorn(s, s', p, k) <==> k == c)
    ensures BornAt(s, s', p, from) == if from <= c < MAX_PROC_NUM then [c] else []
    decreases MAX_PROC_NUM - from
  {
    hide IsBorn;
    if from < MAX_PROC_NUM {
      BornOne(s, s', p, from + 1, c);
    }
  }

  lemma OnlyOneChild(s: State, q: int)
    requires Inv(s) && 1 <= s.running && IsPid(q) && s.pcb[q].state == Free
    ensures At(ForkCall(s).pcb, q).state != Free ==>
      s.free != [] && q == s.free[0] && At(ForkCall(s).pcb, s.running).frame.ecx == q
  {
    hide PagesOk, ExitOk, SemsOk, BoxesOk, QuantaOk;
    if s.free != [] {
      HeadFits(s, InFree);
    }
  }

  lemma ServeBirths(s: State, intr: Interrupt, v: Variant, p: int, q: int)
    requires Inv(s) && 0 <= s.running && Enabled(s, Entry(intr, s.pcb[s.running].frame))
    requires IsPid(p) && IsPid(q) && IsBorn(s, Serve(s, intr, v), p, q)
    ensures intr.Fork? && s.running == p && At(Serve(s, intr, v).pcb, p).frame.ecx == q
  {
    hide Partitioned, PagesOk, ExitOk, SemsOk, BoxesOk, QuantaOk, Serve;
    Bystanders.ServeBystander(s, intr, v, q);
    if intr.Fork? {
      OnlyOneChild(s, q);
      ServeFork(s, v);
    }
  }

  lemma ServeFork(s: State, v: Variant)
    ensures Serve(s, Fork, v) == ForkCall(s)
  {
  }

  lemma StepBirths(s: State, e: Event, v: Variant, p: int)
    requires Inv(s) && 0 <= s.running && Sound(s, e, v) && IsPid(p)
    ensures ForkedAt(s, e, Step(s, e, v), p) == BornAt(s, Step(s, e, v), p, 1)
  {
    hide Partitioned, PagesOk, ExitOk, SemsOk, BoxesOk, QuantaOk, Serve, NewChild;
    var s' := Step(s, e, v);
    var c := At(s'.pcb, p).frame.ecx;
    var forks := ForkedAt(s, e, s', p) != [];
    if forks {
      ForkAnswers(s, e.frame, v);
      assert NewChild(s, s', p, c);
      ChildIsBorn(s, s', p, c);
    }
    forall k | 1 <= k < MAX_PROC_NUM ensures IsBorn(s, s', p, k) <==> forks && k == c {
      if IsBorn(s, s', p, k) {
        BornByFork(s, e, v, p, k);
      }
    }
    BornOne(s, s', p, 1, if forks then c else 0);
  }

  lemma ChildIsBorn(s: State, s': State, p: int, c: int)
    requires Shape(s) && Shape(s') && NewChild(s, s', p, c)
    ensures IsBorn(s, s', p, c) && IsPid(c)
  {
  }

  lemma BornByFork(s: State, e: Event, v: Variant, p: int, q: int)
    requires Inv(s) && 0 <= s.running && Sound(s, e, v) && IsPid(p) && IsPid(q)
    requires IsBorn(s, Step(s, e, v), p, q)
    ensures ForkedAt(s, e, Step(s, e, v), p) == [q]
  {
    hide Partitioned, PagesOk, ExitOk, SemsOk, BoxesOk, QuantaOk, Serve;
    if e.Entry? {
      var s1 := SaveFrame(s, e.frame);
      SaveFrameKeeps(s, e.frame);
      ServeKeeps(s1, e.intr, v);
      SchedulerTouches(Serve(s1, e.intr, v));
      ServeBirths(s1, e.intr, v, p, q);
    }
  }

  function Forked(s: State, es: seq<Event>, v: Variant, p: int): seq<int>
    decreases |es|
  {
    if es == [] then []
    else ForkedAt(s, es[0], Step(s, es[0], v), p) + Forked(Step(s, es[0], v), es[1..], v, p)
  }

  function Born(s: State, es: seq<Event>, v: Variant, p: int): seq<int>
    decreases |es|
  {
    if es == [] then []
    else BornAt(s, Step(s, es[0], v), p, 1) + Born(Step(s, es[0], v), es[1..], v, p)
  }

  /** Over every run: the PIDs that p's Forks return are the children born to p, in order. */
  lemma {:induction false} ForksAreBirths(s: State, es: seq<Event>, v: Variant, p: int)
    requires Inv(s) && 0 <= s.running && SoundRun(s, es, v) && IsPid(p)
    ensures Forked(s, es, v, p) == Born(s, es, v, p)
    decreases |es|
  {
    hide Step, Inv, Sound, ForkedAt, BornAt;
    if es != [] {
      StepKeeps(s, es[0], v);
      StepBirths(s, es[0], v, p);
      ForksAreBirths(Step(s, es[0], v), es[1..], v, p);
    }
  }

  // Who keeps the processor

  /** The caller cannot go on: its quantum is used up, or its call blocks or ends it. */
  ghost predicate GivesUp(s: State, intr: Interrupt, f: Frame)
    requires Shape(s) && 1 <= s.running < MAX_PROC_NUM
  {
    match intr
    case Timer => s.pcb[s.running].runtime == TIME_LIMIT - 1
    case Sleep => true
    case Exit => true
    case SemWait => SemAt(s.sem, f.eax).limit <= 0
    case MsgRcv => s.mbox[s.running].msgs == []
    case Wait(_) => forall c :: IsPid(c) && s.pcb[c].state == Zombie ==> s.pcb[c].ppid != s.running
    case _ => false
  }

  lemma WaitYields(s: State, below: Pcb, v: Variant)
    requires Inv(s) && 1 <= s.running
    requires v == AsWritten ==> ZombiePage(s, below, 0) == DRAM_PAGE_COUNT
    ensures WaitCall(s, below, v).running
      == if GivesUp(s, Wait(below), s.pcb[s.running].frame) then -1 else s.running
  {
    hide Partitioned, PagesOk, ExitOk, SemsOk, BoxesOk, QuantaOk;
    var d := ZombiePage(s, Below(below, v), 0);
    if d < DRAM_PAGE_COUNT {
      FoundChild(s, d);
    }
    if c :| IsPid(c) && s.pcb[c].state == Zombie && s.pcb[c].ppid == s.running {
      ScanFindsZombies(s, Below(below, v), c);
    }
  }

  lemma ServeYields(s: State, intr: Interrupt, v: Variant)
    requires Inv(s) && 1 <= s.running && Enabled(s, Entry(intr, s.pcb[s.running].frame))
    requires v == AsWritten && intr.Wait? ==> ZombiePage(s, intr.below, 0) == DRAM_PAGE_COUNT
    ensures Serve(s, intr, v).running == if GivesUp(s, intr, s.pcb[s.running].frame) then -1 else s.running
  {
    hide Partitioned, PagesOk, ExitOk, SemsOk, BoxesOk, Irq3Call, SemPostCall, MarkReady, Due;
    match intr {
      case Irq3(cause, data) => Irq3Keeps(s, cause, data);
      case Irq7 => SemPostKeeps(s, 0);
      case SemPost => SemPostKeeps(s, s.pcb[s.running].frame.eax);
      case Wait(below) => WaitYields(s, below, v);
      case _ =>
    }
  }

  /** Exactly when the running process loses the processor, and to whom: it keeps it if and only if
      it can go on; otherwise the head of the ready queue runs, if there was one. */
  lemma YieldsExactly(s: State, e: Event, v: Variant)
    requires Inv(s) && 1 <= s.running && Sound(s, e, v) && e.Entry?
    ensures !GivesUp(s, e.intr, e.frame) ==> Step(s, e, v).running == s.running
    ensures GivesUp(s, e.intr, e.frame) && s.ready != [] ==> Step(s, e, v).running == s.ready[0] != s.running
  {
    hide Partitioned, PagesOk, ExitOk, SemsOk, BoxesOk, QuantaOk, Serve;
    var s1 := SaveFrame(s, e.frame);
    SaveFrameKeeps(s, e.frame);
    ServeYields(s1, e.intr, v);
    ServeOrderly(s1, e.intr, v);
    SameGivesUp(s, e.intr, e.frame);
    if s.ready != [] {
      HeadFits(s, InReady);
    }
  }

  lemma SameGivesUp(s: State, intr: Interrupt, f: Frame)
    requires Shape(s) && 1 <= s.running < MAX_PROC_NUM
    ensures GivesUp(SaveFrame(s, f), intr, f) <==> GivesUp(s, intr, f)
  {
    var s1 := SaveFrame(s, f);
    assert forall c :: IsPid(c) ==> s1.pcb[c].state == s.pcb[c].state && s1.pcb[c].ppid == s.pcb[c].ppid;
  }

  // Time used

  /** Ticks that came while p was running. */
  function Served(s: State, es: seq<Event>, v: Variant, p: int): nat
    decreases |es|
  {
    if es == [] then 0
    else (if IsTick(es[0]) && s.running == p then 1 else 0) + Served(Step(s, es[0], v), es[1..], v, p)
  }

  /** p is a process throughout the run. */
  predicate Lives(s: State, es: seq<Event>, v: Variant, p: int)
    decreases |es|
  {
    At(s.pcb, p).state != Free && (es == [] || Lives(Step(s, es[0], v), es[1..], v, p))
  }

  /** What stays of p's record while p is a process, whoever makes the entry. */
  predicate Continues(r: Pcb, r': Pcb, ticked: bool) {
    r'.total == r.total + (if ticked then 1 else 0) && r'.ppid == r.ppid && r'.table == r.table
  }

  lemma CallerContinues(s: State, e: Event, v: Variant)
    requires Inv(s) && 1 <= s.running && Sound(s, e, v) && e.Entry?
    requires At(Step(s, e, v).pcb, s.running).state != Free
    ensures Continues(s.pcb[s.running], At(Step(s, e, v).pcb, s.running), IsTick(e))
  {
    hide Partitioned, PagesOk, ExitOk, SemsOk, BoxesOk, QuantaOk, Serve, Answered;
    if e.intr.Exit? {
      var s1 := SaveFrame(s, e.frame);
      SaveFrameKeeps(s, e.frame);
      ServeKeeps(s1, e.intr, v);
      SchedulerTouches(Serve(s1, e.intr, v));
      ChildExit.CallerAfter(s1, e.intr, v);
    } else {
      StepAnswers(s, e, v);
    }
  }

  lemma OtherContinues(s: State, e: Event, v: Variant, p: int)
    requires Inv(s) && 0 <= s.running && Sound(s, e, v) && e.Entry? && IsPid(p) && p != s.running
    requires At(Step(s, e, v).pcb, p).state != Free
    ensures if s.pcb[p].state != Free then Continues(s.pcb[p], At(Step(s, e, v).pcb, p), false)
      else At(Step(s, e, v).pcb, p).ppid == 0 ==> At(Step(s, e, v).pcb, p).table == s.osTable
  {
    hide Partitioned, PagesOk, ExitOk, SemsOk, BoxesOk, QuantaOk, Serve, Bystanders.Affected;
    var s1 := SaveFrame(s, e.frame);
    SaveFrameKeeps(s, e.frame);
    ServeKeeps(s1, e.intr, v);
    SchedulerTouches(Serve(s1, e.intr, v));
    Bystanders.ServeBystander(s1, e.intr, v, p);
    AffectedContinues(s1, Serve(s1, e.intr, v), p, e.intr, v);
  }

  lemma AffectedContinues(s: State, s': State, p: int, intr: Interrupt, v: Variant)
    requires Bystanders.Affected(s, s', p, intr, v) && (intr.Fork? ==> 1 <= s.running)
    requires At(s'.pcb, p).state != Free
    ensures if At(s.pcb, p).state != Free then Continues(At(s.pcb, p), At(s'.pcb, p), false)
      else At(s'.pcb, p).ppid == 0 ==> At(s'.pcb, p).table == s.osTable
  {
  }

  lemma StepTotal(s: State, e: Event, v: Variant, p: int)
    requires Inv(s) && 0 <= s.running && Sound(s, e, v) && IsPid(p)
    requires s.pcb[p].state != Free && At(Step(s, e, v).pcb, p).state != Free
    ensures At(Step(s, e, v).pcb, p).total == s.pcb[p].total + (if IsTick(e) && s.running == p then 1 else 0)
  {
    hide Inv, Step, Sound;
    if e.Entry? {
      if p == s.running {
        CallerContinues(s, e, v);
      } else {
        OtherContinues(s, e, v, p);
      }
    } else {
      PortAlone(s, e, v);
    }
  }

  lemma PortAlone(s: State, e: Event, v: Variant)
    requires e.UserPort?
    ensures Step(s, e, v).pcb == s.pcb && Step(s, e, v).osTable == s.osTable
  {
  }

  /** total_runtime counts exactly the ticks a process was running. */
  lemma {:induction false} TotalCounts(s: State, es: seq<Event>, v: Variant, p: int)
    requires Inv(s) && 0 <= s.running && SoundRun(s, es, v) && IsPid(p) && Lives(s, es, v, p)
    ensures At(Run(s, es, v).pcb, p).total == s.pcb[p].total + Served(s, es, v, p)
    decreases |es|
  {
    hide Step, Inv, Sound, IsTick;
    if es != [] {
      LivesNow(Step(s, es[0], v), es[1..], v, p);
      InTable(s, p);
      StepKeeps(s, es[0], v);
      StepTotal(s, es[0], v, p);
      InTable(Step(s, es[0], v), p);
      TotalCounts(Step(s, es[0], v), es[1..], v, p);
    }
  }

  lemma LivesNow(s: State, es: seq<Event>, v: Variant, p: int)
    requires Lives(s, es, v, p)
    ensures At(s.pcb, p).state != Free
  {
  }

  lemma InTable(s: State, p: int)
    requires Inv(s) && IsPid(p)
    ensures p < |s.pcb| && s.pcb[p] == At(s.pcb, p)
  {
  }

  // Directories of started processes

  /** Processes that were started, not forked, use the kernel's page directory. */
  ghost predicate StartedSpaces(s: State) {
    forall p :: IsPid(p) && At(s.pcb, p).state != Free && At(s.pcb, p).ppid == 0 ==> At(s.pcb, p).table == s.osTable
  }

  lemma ServeOs(s: State, intr: Interrupt, v: Variant)
    ensures Serve(s, intr, v).osTable == s.osTable
  {
    hide ZombiePage, ForkFails;
  }

  lemma StepSpace(s: State, e: Event, v: Variant, p: int)
    requires Inv(s) && 0 <= s.running && Sound(s, e, v) && StartedSpaces(s) && IsPid(p)
    requires At(Step(s, e, v).pcb, p).state != Free && At(Step(s, e, v).pcb, p).ppid == 0
    ensures At(Step(s, e, v).pcb, p).table == s.osTable
  {
    hide Inv, Step, Sound;
    InTable(s, p);
    if e.Entry? {
      if p == s.running {
        RunnerIsProcess(s);
        CallerContinues(s, e, v);
      } else {
        OtherContinues(s, e, v, p);
      }
    } else {
      PortAlone(s, e, v);
    }
  }

  lemma RunnerIsProcess(s: State)
    requires Inv(s) && 1 <= s.running
    ensures At(s.pcb, s.running).state == Running
  {
  }

  lemma {:induction false} RunStartedSpaces(s: State, es: seq<Event>, v: Variant)
    requires Inv(s) && 0 <= s.running && SoundRun(s, es, v) && StartedSpaces(s)
    ensures StartedSpaces(Run(s, es, v)) && Run(s, es, v).osTable == s.osTable
    decreases |es|
  {
    hide Step, Inv, Sound;
    if es != [] {
      var s' := Step(s, es[0], v);
      StepKeeps(s, es[0], v);
      forall p | IsPid(p) && At(s'.pcb, p).state != Free && At(s'.pcb, p).ppid == 0
        ensures At(s'.pcb, p).table == s'.osTable
      {
        StepSpace(s, es[0], v, p);
        StepOs(s, es[0], v);
      }
      StepOs(s, es[0], v);
      RunStartedSpaces(s', es[1..], v);
    }
  }

  lemma StepOs(s: State, e: Event, v: Variant)
    ensures Step(s, e, v).osTable == s.osTable
  {
    hide Serve;
    if e.Entry? {
      ServeOs(SaveFrame(s, e.frame), e.intr, v);
    }
  }

  /** In every reachable state, a live process without a parent uses the directory found at boot. */
  lemma StartedSeeKernel(t: int, es: seq<Event>, v: Variant, p: int)
    requires SoundRun(Boot(t), es, v) && IsPid(p)
    requires At(Run(Boot(t), es, v).pcb, p).state != Free && At(Run(Boot(t), es, v).pcb, p).ppid == 0
    ensures At(Run(Boot(t), es, v).pcb, p).table == t
  {
    hide Inv;
    BootInv(t);
    RunStartedSpaces(Boot(t), es, v);
  }

  // Starting a process

  /** StartProc makes the first free PID a ready process without a parent, under the kernel's
      directory and last in the ready queue; with no free PID it changes nothing but the registers
      saved. */
  lemma StartStarts(s: State, f: Frame, v: Variant)
    requires Inv(s) && 1 <= s.running && Sound(s, Entry(StartProc, f), v)
    ensures var s' := Step(s, Entry(StartProc, f), v);
      Shape(s') && s'.running == s.running
      && (s.free == [] ==> s' == SaveFrame(s, f))
      && (s.free != [] ==>
            IsPid(s.free[0]) && s'.free == s.free[1..] && s'.ready == s.ready + [s.free[0]]
            && s'.pcb[s.free[0]] == BLANK_PCB.(state := Ready, table := s.osTable))
  {
    hide ExitOk, SemsOk, BoxesOk, QuantaOk;
    if s.free != [] {
      HeadFits(s, InFree);
    }
  }

  // What stays out of it

  /** Only the serial interrupt and user code touch the port. */
  lemma PortKept(s: State, e: Event, v: Variant)
    requires e.Entry? && !e.intr.Irq3?
    ensures Step(s, e, v).port == s.port
  {
    hide Serve;
    ServePort(SaveFrame(s, e.frame), e.intr, v);
  }

  lemma ServePort(s: State, intr: Interrupt, v: Variant)
    requires !intr.Irq3?
    ensures Serve(s, intr, v).port == s.port
  {
    hide At, Put, SetState, SemAt, BoxAt, ZombiePage, ForkFails, FreePages, Claim, Release, Due, MarkReady, Push;
  }

  /** The idle process's record keeps everything but its state. */
  lemma ServeIdle(s: State, intr: Interrupt, v: Variant)
    requires Inv(s) && 0 <= s.running && Enabled(s, Entry(intr, s.pcb[s.running].frame))
    requires v == AsWritten && intr.Wait? ==> ZombiePage(s, intr.below, 0) == DRAM_PAGE_COUNT
    ensures At(Serve(s, intr, v).pcb, 0) == s.pcb[0]
  {
    hide Partitioned, PagesOk, ExitOk, SemsOk, BoxesOk, QuantaOk;
    hide Tick, Irq3Call, SemPostCall, MsgSndCall, ForkCall, WaitCall, StartProcCall;
    match intr {
      case Timer => TickIdle(s);
      case Irq3(cause, data) => Irq3Idle(s, cause, data);
      case Irq7 => PostIdle(s, 0);
      case SemPost => PostIdle(s, s.pcb[s.running].frame.eax);
      case MsgSnd(msg) => SndIdle(s, msg);
      case StartProc => StartIdle(s);
      case Fork => ForkIdle(s);
      case Wait(below) => WaitIdle(s, below, v);
      case _ =>
    }
  }

  lemma TickIdle(s: State)
    requires Inv(s) && 0 <= s.running
    ensures At(Tick(s).pcb, 0) == s.pcb[0]
  {
    hide PagesOk, ExitOk, SemsOk, BoxesOk, QuantaOk, MarkReady, Due, Calm;
    PreemptKeeps(s);
    AdvanceKeeps(Preempt(s));
    WakeStates(Advance(Preempt(s)));
  }

  lemma PostIdle(s: State, id: int)
    requires Partitioned(s) && 0 <= id < Q_LEN
    ensures At(SemPostCall(s, id).pcb, 0) == s.pcb[0]
  {
    if Q(s, InSem(id)) != [] {
      HeadFits(s, InSem(id));
    }
  }

  lemma TxIdle(s: State)
    requires Inv(s)
    ensures At(Tx(s).pcb, 0) == s.pcb[0]
  {
    hide SemPostCall;
    PortKeeps(s, TxPort(s.port));
    PostIdle(s.(port := TxPort(s.port)), s.port.txSem);
  }

  lemma RxIdle(s: State, data: int)
    requires Inv(s)
    ensures At(Rx(s, data).pcb, 0) == s.pcb[0]
  {
    hide SemPostCall;
    PortKeeps(s, RxPort(s.port, data));
    PostIdle(s.(port := RxPort(s.port, data)), s.port.rxSem);
  }

  lemma Irq3Idle(s: State, cause: Cause, data: int)
    requires Inv(s)
    ensures At(Irq3Call(s, cause, data).pcb, 0) == s.pcb[0]
  {
    hide Tx, Rx, Partitioned, PagesOk, ExitOk, SemsOk, BoxesOk;
    match cause {
      case TxReady =>
        TxKeeps(s);
        TxIdle(s);
        TxIdle(Tx(s));
      case RxReady =>
        RxKeeps(s, data);
        RxIdle(s, data);
        TxIdle(Rx(s, data));
      case OtherCause =>
        TxIdle(s);
    }
  }

  lemma SndIdle(s: State, msg: Msg)
    requires Partitioned(s) && 0 <= msg.recipient < MAX_PROC_NUM
    ensures At(MsgSndCall(s, msg).pcb, 0) == s.pcb[0]
  {
    if Q(s, InBox(msg.recipient)) != [] {
      HeadFits(s, InBox(msg.recipient));
    }
  }

  lemma StartIdle(s: State)
    requires Partitioned(s)
    ensures At(StartProcCall(s).pcb, 0) == s.pcb[0]
  {
    if Q(s, InFree) != [] {
      HeadFits(s, InFree);
    }
  }

  lemma ForkIdle(s: State)
    requires Inv(s) && 1 <= s.running
    ensures At(ForkCall(s).pcb, 0) == s.pcb[0]
  {
    if s.free != [] {
      ForkGives(s);
    }
  }

  lemma WaitIdle(s: State, below: Pcb, v: Variant)
    requires Inv(s) && 1 <= s.running
    ensures At(WaitCall(s, below, v).pcb, 0) == s.pcb[0]
  {
    hide Partitioned, PagesOk, ExitOk, SemsOk, BoxesOk, QuantaOk;
    var d := ZombiePage(s, Below(below, v), 0);
    if d < DRAM_PAGE_COUNT && v == Repaired {
      FoundChild(s, d);
    }
  }

  /** Over one kernel entry PID 0 keeps its record, but for its state and, if it was running, the
      registers just saved. */
  lemma IdleKept(s: State, e: Event, v: Variant)
    requires Inv(s) && 0 <= s.running && Sound(s, e, v) && e.Entry?
    ensures var r, r' := s.pcb[0], At(Step(s, e, v).pcb, 0);
      r' == r.(state := r'.state, frame := if s.running == 0 then e.frame else r.frame)
  {
    hide Partitioned, PagesOk, ExitOk, SemsOk, BoxesOk, QuantaOk, Serve;
    var s1 := SaveFrame(s, e.frame);
    SaveFrameKeeps(s, e.frame);
    ServeKeeps(s1, e.intr, v);
    ServeIdle(s1, e.intr, v);
    if Serve(s1, e.intr, v).ready != [] {
      HeadFits(Serve(s1, e.intr, v), InReady);
    }
  }

  // First come, first served

  /** The free queue loses its head, or gains one PID at its end, or stays. */
  predicate FreeStep(q: seq<int>, q': seq<int>) {
    q' == q || (q != [] && q' == q[1..]) || (|q'| == |q| + 1 && q' == q + [q'[|q|]])
  }

  lemma PostsFree(s: State, id: int, cause: Cause, data: int)
    ensures SemPostCall(s, id).free == s.free && Irq3Call(s, cause, data).free == s.free
  {
    hide At, Put, SetState, SemAt, Push, TxPort, RxPort;
  }

  lemma CallsFree(s: State, below: Pcb, v: Variant)
    ensures FreeStep(s.free, ForkCall(s).free) && FreeStep(s.free, ExitCall(s).free)
    ensures FreeStep(s.free, WaitCall(s, below, v).free) && FreeStep(s.free, StartProcCall(s).free)
  {
    hide At, Put, SetState, ZombiePage, FreePages, Claim, Release;
  }

  lemma ServeFree(s: State, intr: Interrupt, v: Variant)
    ensures FreeStep(s.free, Serve(s, intr, v).free)
  {
    hide FreeStep, At, Put, SetState, SemAt, BoxAt, Due, MarkReady, Push;
    hide Irq3Call, SemPostCall, ForkCall, ExitCall, WaitCall, StartProcCall;
    CallsFree(s, if intr.Wait? then intr.below else BLANK_PCB, v);
    SameFree(s.free);
    match intr {
      case Irq3(cause, data) => PostsFree(s, 0, cause, data);
      case Irq7 => PostsFree(s, 0, OtherCause, 0);
      case SemPost => PostsFree(s, At(s.pcb, s.running).frame.eax, OtherCause, 0);
      case _ =>
    }
  }

  lemma SameFree(q: seq<int>)
    ensures FreeStep(q, q)
  {
  }

  lemma ServeAsleep(s: State, intr: Interrupt, v: Variant)
    requires !intr.Timer?
    ensures Serve(s, intr, v).asleep == if intr.Sleep? then s.asleep + [s.running] else s.asleep
  {
    hide At, Put, SetState, SemAt, BoxAt, ZombiePage, ForkFails, FreePages, Claim, Release, Due, MarkReady, Push;
  }

  /** PIDs are reused in the order they were given back, and sleepers queue in the order they went
      to sleep. */
  lemma QueuesInOrder(s: State, e: Event, v: Variant)
    requires e.Entry?
    ensures FreeStep(s.free, Step(s, e, v).free)
    ensures !e.intr.Timer? ==>
      Step(s, e, v).asleep == if e.intr.Sleep? then s.asleep + [s.running] else s.asleep
  {
    hide Serve;
    ServeFree(SaveFrame(s, e.frame), e.intr, v);
    if !e.intr.Timer? {
      ServeAsleep(SaveFrame(s, e.frame), e.intr, v);
    }
  }
}
