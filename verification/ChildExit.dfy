/** Fork, Exit and Wait as a protocol: every exit is reported exactly once, to the process named as
    its parent, with the child's own PID and exit value. */
module ChildExit {
  import opened Params
  import opened Sequences
  import opened Port
  import opened KernelState
  import opened Partition
  import opened Pages
  import opened Invariant
  import opened Lifecycle
  import opened Bystanders
  import opened Runs

  datatype Report = Report(parent: int, child: int, code: int)

  /** p's Wait call completes in this step. */
  predicate Returns(s: State, e: Event, s': State, p: int) {
    At(s'.pcb, p).state != ForkWaiting
    && ((e.Entry? && e.intr.Wait? && p == s.running) || At(s.pcb, p).state == ForkWaiting)
  }

  /** The only process whose Wait can complete in this step. */
  function Returner(s: State, e: Event): int {
    if e.Entry? && e.intr.Wait? then s.running
    else if e.Entry? && e.intr.Exit? then At(s.pcb, s.running).ppid
    else 0
  }

  /** What completed Waits say about child c in this step, read from the returner's registers. */
  function ReportsAt(s: State, e: Event, s': State, c: int): seq<Report> {
    var p := Returner(s, e);
    var f := At(s'.pcb, p).frame;
    if IsPid(p) && Returns(s, e, s', p) && f.ebx == c then [Report(p, c, f.eax)] else []
  }

  function ExitsAt(s: State, e: Event, c: int): seq<Report> {
    if e.Entry? && e.intr.Exit? && c == s.running then [Report(At(s.pcb, c).ppid, c, e.frame.eax)] else []
  }

  /** The exit of c that nobody has been told of. */
  function Pending(s: State, c: int): seq<Report> {
    var r := At(s.pcb, c);
    if r.state == Zombie then [Report(r.ppid, c, r.frame.eax)] else []
  }

  function Exits(s: State, es: seq<Event>, v: Variant, c: int): seq<Report>
    decreases |es|
  {
    if es == [] then [] else ExitsAt(s, es[0], c) + Exits(Step(s, es[0], v), es[1..], v, c)
  }

  function Reports(s: State, es: seq<Event>, v: Variant, c: int): seq<Report>
    decreases |es|
  {
    if es == [] then []
    else ReportsAt(s, es[0], Step(s, es[0], v), c) + Reports(Step(s, es[0], v), es[1..], v, c)
  }

  /** The caller's own record after its service. */
  lemma CallerAfter(s: State, intr: Interrupt, v: Variant)
    requires Inv(s) && 1 <= s.running && Enabled(s, Entry(intr, s.pcb[s.running].frame))
    ensures var r, r' := s.pcb[s.running], At(Serve(s, intr, v).pcb, s.running);
      var told := At(s.pcb, r.ppid).state == ForkWaiting;
      if intr.Exit? then r' == if told then BLANK_PCB else r.(state := Zombie)
      else r'.state != Zombie && (r'.state == ForkWaiting ==> intr.Wait?)
  {
    hide Partitioned, ExitOk, SemsOk, BoxesOk, QuantaOk;
    hide Irq3Call, SemPostCall, MsgSndCall, WakeDue;
    match intr {
      case Timer =>
        assert Partitioned(Advance(Preempt(s))) by {
          PreemptKeeps(s);
          AdvanceKeeps(Preempt(s));
        }
        PassBystander(Advance(Preempt(s)), s.running);
      case Irq3(cause, data) => Irq3Bystander(s, cause, data, s.running);
      case Irq7 => PostBystander(s, 0, s.running);
      case SemPost => PostBystander(s, s.pcb[s.running].frame.eax, s.running);
      case MsgSnd(msg) => SndBystander(s, msg, s.running);
      case StartProc => StartBystander(s, s.running);
      case Fork => CallerForks(s);
      case Wait(below) => CallerWaits(s, below, v);
      case _ =>
    }
  }

  lemma CallerForks(s: State)
    requires Inv(s) && 1 <= s.running
    ensures At(ForkCall(s).pcb, s.running).state == Running
  {
    if s.free != [] {
      ForkGives(s);
    }
  }

  lemma CallerWaits(s: State, below: Pcb, v: Variant)
    requires Inv(s) && 1 <= s.running
    ensures var r' := At(WaitCall(s, below, v).pcb, s.running);
      r'.state == if ZombiePage(s, Below(below, v), 0) == DRAM_PAGE_COUNT then ForkWaiting else Running
  {
    var d := ZombiePage(s, Below(below, v), 0);
    if d < DRAM_PAGE_COUNT && v == Repaired {
      FoundChild(s, d);
    }
  }

  /** A repaired Wait blocks exactly when the caller has no dead child. */
  lemma WaitBlocksExactly(s: State, below: Pcb)
    requires Inv(s) && 1 <= s.running
    ensures At(WaitCall(s, below, Repaired).pcb, s.running).state == ForkWaiting
      <==> forall c :: IsPid(c) && s.pcb[c].state == Zombie ==> s.pcb[c].ppid != s.running
  {
    CallerWaits(s, below, Repaired);
    var d := ZombiePage(s, BLANK_PCB, 0);
    if d < DRAM_PAGE_COUNT {
      FoundChild(s, d);
    }
    if c :| IsPid(c) && s.pcb[c].state == Zombie && s.pcb[c].ppid == s.running {
      ScanFindsZombies(s, BLANK_PCB, c);
    }
  }

  /** A Wait that returns names a child it has just reaped. */
  lemma WaitReturnsChild(s: State, below: Pcb)
    requires Inv(s) && 1 <= s.running && ZombiePage(s, BLANK_PCB, 0) < DRAM_PAGE_COUNT
    ensures var s' := WaitCall(s, below, Repaired);
      var o := At(s'.pcb, s.running).frame.ebx;
      IsPid(o) && o != s.running && Reaped(s, s', o)
  {
    FoundChild(s, ZombiePage(s, BLANK_PCB, 0));
  }

  lemma ExitConserves(s: State, f: Frame, v: Variant, c: int)
    requires Inv(s) && 1 <= s.running && s.pcb[s.running].frame == f && IsPid(c)
    ensures Pending(s, c) + ExitsAt(s, Entry(Exit, f), c)
         == ReportsAt(s, Entry(Exit, f), ExitCall(s), c) + Pending(ExitCall(s), c)
  {
    hide Partitioned, PagesOk, SemsOk, BoxesOk, QuantaOk;
    var w := s.pcb[s.running].ppid;
    ParentInTable(s);
    if c != s.running {
      ExitBystander(s, c);
    }
  }

  lemma ParentInTable(s: State)
    requires Inv(s) && 1 <= s.running
    ensures 0 <= s.pcb[s.running].ppid < MAX_PROC_NUM
  {
  }

  lemma WaitConserves(s: State, below: Pcb, f: Frame, v: Variant, c: int)
    requires Inv(s) && 1 <= s.running && s.pcb[s.running].frame == f && IsPid(c)
    requires v == AsWritten ==> ZombiePage(s, below, 0) == DRAM_PAGE_COUNT
    ensures Pending(s, c)
         == ReportsAt(s, Entry(Wait(below), f), WaitCall(s, below, v), c) + Pending(WaitCall(s, below, v), c)
  {
    hide WaitCall, Partitioned, PagesOk, SemsOk, BoxesOk, QuantaOk, ExitOk;
    CallerWaits(s, below, v);
    if c != s.running {
      WaitBystander(s, below, v, c);
    }
    var s' := WaitCall(s, below, v);
    if ZombiePage(s, Below(below, v), 0) < DRAM_PAGE_COUNT {
      WaitReturnsChild(s, below);
      assert c == At(s'.pcb, s.running).frame.ebx ==> Reaped(s, s', c);
    } else {
      assert !Returns(s, Entry(Wait(below), f), s', s.running);
    }
  }

  lemma ServeConserves(s: State, intr: Interrupt, f: Frame, v: Variant, c: int)
    requires Inv(s) && 0 <= s.running && s.pcb[s.running].frame == f && IsPid(c)
    requires Enabled(s, Entry(intr, f))
    requires v == AsWritten && intr.Wait? ==> ZombiePage(s, intr.below, 0) == DRAM_PAGE_COUNT
    ensures Pending(s, c) + ExitsAt(s, Entry(intr, f), c)
         == ReportsAt(s, Entry(intr, f), Serve(s, intr, v), c) + Pending(Serve(s, intr, v), c)
  {
    hide Partitioned, PagesOk, SemsOk, BoxesOk, QuantaOk, ExitOk;
    hide ExitCall, WaitCall, Irq3Call, SemPostCall, MsgSndCall, Tick, ForkCall, StartProcCall;
    if intr.Exit? {
      ExitConserves(s, f, v, c);
    } else if intr.Wait? {
      WaitConserves(s, intr.below, f, v, c);
    } else if c != s.running {
      ServeBystander(s, intr, v, c);
    } else {
      CallerAfter(s, intr, v);
    }
  }

  lemma StepConserves(s: State, e: Event, v: Variant, c: int)
    requires Inv(s) && 0 <= s.running && Sound(s, e, v) && IsPid(c)
    ensures Pending(s, c) + ExitsAt(s, e, c) == ReportsAt(s, e, Step(s, e, v), c) + Pending(Step(s, e, v), c)
  {
    hide Partitioned, PagesOk, SemsOk, BoxesOk, QuantaOk, ExitOk, Serve;
    match e {
      case UserPort(_) =>
      case Entry(intr, f) =>
        var s1 := SaveFrame(s, f);
        SaveFrameKeeps(s, f);
        ServeConserves(s1, intr, f, v, c);
        ServeKeeps(s1, intr, v);
        SchedulerTouches(Serve(s1, intr, v));
        FrameReports(s, e, v, c);
    }
  }

  /** Saving the frame and rescheduling change neither side of the account. */
  lemma FrameReports(s: State, e: Event, v: Variant, c: int)
    requires Inv(s) && 0 <= s.running && Sound(s, e, v) && IsPid(c) && e.Entry?
    requires var s1 := SaveFrame(s, e.frame); Inv(s1) && Inv(Serve(s1, e.intr, v))
    ensures var s1 := SaveFrame(s, e.frame);
      Pending(s1, c) == Pending(s, c) && ExitsAt(s1, e, c) == ExitsAt(s, e, c)
      && ReportsAt(s, e, Step(s, e, v), c) == ReportsAt(s1, e, Serve(s1, e.intr, v), c)
  {
    hide Partitioned, PagesOk, SemsOk, BoxesOk, QuantaOk, ExitOk, Serve, Scheduler;
    SchedulerTouches(Serve(SaveFrame(s, e.frame), e.intr, v));
  }

  /** Over every run: the exits of c are the reports naming c, in order, plus the one still
      pending while c is a zombie. */
  lemma {:induction false} EveryExitReportedOnce(s: State, es: seq<Event>, v: Variant, c: int)
    requires Inv(s) && 0 <= s.running && SoundRun(s, es, v) && IsPid(c)
    ensures Pending(s, c) + Exits(s, es, v, c) == Reports(s, es, v, c) + Pending(Run(s, es, v), c)
    decreases |es|
  {
    hide Step, Inv, Pending, ExitsAt, ReportsAt;
    if es != [] {
      StepKeeps(s, es[0], v);
      StepConserves(s, es[0], v, c);
      EveryExitReportedOnce(Step(s, es[0], v), es[1..], v, c);
      var s' := Step(s, es[0], v);
      Rebracket(Pending(s, c), ExitsAt(s, es[0], c), Exits(s', es[1..], v, c),
                ReportsAt(s, es[0], s', c), Pending(s', c), Reports(s', es[1..], v, c), Pending(Run(s, es, v), c));
    }
  }

  /** From boot nothing is pending, so every report is of one exit and no exit is reported twice. */
  lemma ReportsFollowExits(t: int, es: seq<Event>, v: Variant, c: int)
    requires SoundRun(Boot(t), es, v) && IsPid(c)
    ensures Reports(Boot(t), es, v, c) <= Exits(Boot(t), es, v, c)
    ensures |Exits(Boot(t), es, v, c)| <= |Reports(Boot(t), es, v, c)| + 1
  {
    BootInv(t);
    EveryExitReportedOnce(Boot(t), es, v, c);
    assert Pending(Boot(t), c) == [];
    assert Exits(Boot(t), es, v, c) == [] + Exits(Boot(t), es, v, c);
  }

  /** As written the account breaks: a Wait that reaps child c leaves it a zombie that still owns
      pages, so the caller's next Wait reports the same exit again, and c is free twice over. The
      first Wait clears the record below the table, so the second finds a blank one there. */
  lemma AsWrittenReportsTwice(s: State, below: Pcb)
    requires Inv(s) && 1 <= s.running && ZombiePage(s, below, 0) < DRAM_PAGE_COUNT
    requires !(below.ppid == s.running && below.state == Zombie)
    ensures var s1 := WaitCall(s, below, AsWritten);
      var s2 := WaitCall(s1, BLANK_PCB, AsWritten);
      var c := At(s1.pcb, s.running).frame.ebx;
      IsPid(c) && s.pcb[c].state == Zombie && s.pcb[c].ppid == s.running
      && At(s1.pcb, s.running).frame.eax == s.pcb[c].frame.eax && At(s1.pcb, c) == s.pcb[c]
      && (exists d :: 0 <= d < |s.owner| && s.owner[d] == c && s1.owner == s.owner[d := -1])
      && s2.running == s.running && At(s2.pcb, s.running).frame == At(s1.pcb, s.running).frame
      && s2.free == s.free + [c, c]
  {
    hide Partitioned, PagesOk, ExitOk, SemsOk, BoxesOk, QuantaOk, ShowsZombie;
    var d := ZombiePage(s, below, 0);
    SecondScan(s, below, d);
    Shown(s, below, d);
    assert [s.owner[d]] + [s.owner[d]] == [s.owner[d], s.owner[d]];
  }

  lemma Shown(s: State, below: Pcb, d: nat)
    requires Inv(s) && 1 <= s.running && d < DRAM_PAGE_COUNT && ShowsZombie(s, below, d)
    requires !(below.ppid == s.running && below.state == Zombie)
    ensures IsPid(s.owner[d]) && s.pcb[s.owner[d]].state == Zombie && s.pcb[s.owner[d]].ppid == s.running
  {
    hide Partitioned, ExitOk, SemsOk, BoxesOk, QuantaOk;
    FoundChild(s, d);
  }

  /** And if what lies below the table looks like a dead child of the caller, the first unowned page
      the scan meets is taken for one of its pages: the PID -1 is reported, with the exit value
      found there, and put in the free queue. */
  lemma AsWrittenReapsNobody(s: State, below: Pcb)
    requires Inv(s) && 1 <= s.running && below.ppid == s.running && below.state == Zombie
    requires ZombiePage(s, below, 0) < DRAM_PAGE_COUNT && s.owner[ZombiePage(s, below, 0)] == -1
    ensures var s1 := WaitCall(s, below, AsWritten);
      var f := At(s1.pcb, s.running).frame;
      f.ebx == -1 && f.eax == below.frame.eax && s1.free == s.free + [-1] && s1.owner == s.owner
      && s1.running == s.running
  {
    hide Partitioned, PagesOk, ExitOk, SemsOk, BoxesOk, QuantaOk;
    var d := ZombiePage(s, below, 0);
    assert s.owner[d := -1] == s.owner;
  }

  /** After that Wait the scan finds the child's next page. */
  lemma SecondScan(s: State, below: Pcb, d: nat)
    requires Inv(s) && 1 <= s.running && d == ZombiePage(s, below, 0) && d < DRAM_PAGE_COUNT
    requires !(below.ppid == s.running && below.state == Zombie)
    ensures var s1 := WaitCall(s, below, AsWritten);
      d + 1 < DRAM_PAGE_COUNT && ZombiePage(s1, BLANK_PCB, 0) == d + 1
      && s1.owner[d + 1] == s.owner[d] && s.owner[d] != -1 && s.owner[d] != s.running
      && At(s1.pcb, s.owner[d]) == At(s.pcb, s.owner[d])
  {
    hide Partitioned, ExitOk, SemsOk, BoxesOk, QuantaOk;
    FoundChild(s, d);
    var c, s1 := s.owner[d], WaitCall(s, below, AsWritten);
    FirstOfBlock(s, below, d);
    assert PageOwner(s.owner, d / BLOCK, 1) == c;
    forall i | 0 <= i < d ensures !ShowsZombie(s1, BLANK_PCB, i) {
      assert !ShowsZombie(s, below, i);
    }
    assert !ShowsZombie(s1, BLANK_PCB, d) && ShowsZombie(s1, BLANK_PCB, d + 1);
    NextZombiePage(s1, BLANK_PCB, d);
  }

  /** The first page that shows a zombie is the first of its block. */
  lemma FirstOfBlock(s: State, below: Pcb, d: nat)
    requires Inv(s) && 1 <= s.running && d == ZombiePage(s, below, 0) && d < DRAM_PAGE_COUNT && s.owner[d] != -1
    ensures d % BLOCK == 0 && Head(s.owner, d / BLOCK) == s.owner[d]
  {
    var j, k := d / BLOCK, d % BLOCK;
    assert PageOwner(s.owner, j, k) == Head(s.owner, j);
    if k > 0 {
      assert ShowsZombie(s, below, BLOCK * j);
    }
  }

  lemma NextZombiePage(s1: State, below: Pcb, d: nat)
    requires |s1.owner| == DRAM_PAGE_COUNT && d + 1 < DRAM_PAGE_COUNT
    requires forall i :: 0 <= i < d ==> !ShowsZombie(s1, below, i)
    ensures ShowsZombie(s1, below, d + 1) && !ShowsZombie(s1, below, d) ==> ZombiePage(s1, below, 0) == d + 1
  {
  }
}
