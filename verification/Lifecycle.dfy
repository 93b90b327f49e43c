/** Fork, Wait and Exit keep the kernel invariant, and the step theorem that follows. */
module Lifecycle {
  import opened Params
  import opened Port
  import opened KernelState
  import opened Partition
  import opened Pages
  import opened Invariant

  // Fork

  lemma ForkEffect(s: State, c: int)
    requires Shape(s) && !ForkFails(s) && s.free[0] == c && IsPid(c) && c != s.running && s.mbox[c].waiters == []
    requires s.running >= 1
    ensures OnlyMoved(s, ForkCall(s), c, InFree, InReady)
    ensures Q(ForkCall(s), InFree) == Q(s, InFree)[1..]
    ensures Q(ForkCall(s), InReady) == Q(s, InReady) + [c]
    ensures ForkCall(s).pcb[c].state == Ready && ForkCall(s).pcb[c].ppid == s.running
  {
  }

  /** The child, and what it is given: the first free PID and the lowest free block. */
  lemma ForkGives(s: State)
    requires Inv(s) && 1 <= s.running && s.free != []
    ensures !ForkFails(s) && IsPid(s.free[0]) && s.pcb[s.free[0]] == BLANK_PCB && s.free[0] != s.running
    ensures s.mbox[s.free[0]].waiters == [] && !Owns(s.owner, s.free[0])
    ensures FreeBlock(s.owner, 0) < BLOCK_COUNT
    ensures ForkCall(s).owner == Claim(s.owner, BlockPages(FreeBlock(s.owner, 0)), s.free[0])
    ensures ForkCall(s).pcb[s.free[0]].table == PageAddr(BLOCK * FreeBlock(s.owner, 0))
  {
    PoolOutlastsPids(s);
    HeadFits(s, InFree);
    NoBoxWaiter(s, s.free[0]);
    LowestFiveAreABlock(s.owner, 0);
  }

  lemma ForkPages(s: State, c: int)
    requires Inv(s) && 1 <= s.running && s.free != [] && s.free[0] == c
    ensures PagesOk(ForkCall(s)) && ExitOk(ForkCall(s))
  {
    hide Partitioned;
    ForkGives(s);
    var s', j := ForkCall(s), FreeBlock(s.owner, 0);
    ClaimBlock(s.owner, j, c);
    assert Head(s'.owner, j) == c;
    forall p | IsPid(p) ensures Owns(s'.owner, p) <==> s'.pcb[p].ppid != 0 {
      if p != c && Owns(s.owner, p) {
        var k :| 0 <= k < BLOCK_COUNT && Head(s.owner, k) == p;
        assert Head(s'.owner, k) == p;
      }
    }
  }

  lemma ForkPartition(s: State, c: int)
    requires Inv(s) && 1 <= s.running && s.free != [] && s.free[0] == c
    ensures Partitioned(ForkCall(s))
  {
    ForkGives(s);
    ForkEffect(s, c);
    Moves(s, ForkCall(s), c, InFree, InReady);
  }

  lemma ForkKeeps(s: State)
    requires Inv(s) && 1 <= s.running
    ensures Inv(ForkCall(s))
  {
    hide Partitioned, PagesOk, ExitOk;
    var s' := ForkCall(s);
    if s.free == [] {
      assert Partitioned(s') by { Stays(s, s'); }
      assert PagesOk(s') && ExitOk(s') by { CalmKeeps(s, s'); }
    } else {
      assert PagesOk(s') && ExitOk(s') by { ForkPages(s, s.free[0]); }
      assert Partitioned(s') by { ForkPartition(s, s.free[0]); }
      ForkGives(s);
    }
  }

  // Wait

  /** Every dead child of the caller shows on some page, so a scan that finds none is right. */
  lemma ScanFindsZombies(s: State, below: Pcb, c: int)
    requires Inv(s) && 1 <= s.running && IsPid(c)
    requires s.pcb[c].state == Zombie && s.pcb[c].ppid == s.running
    ensures ZombiePage(s, below, 0) < DRAM_PAGE_COUNT
  {
    assert Owns(s.owner, c);
    var j :| 0 <= j < BLOCK_COUNT && Head(s.owner, j) == c;
    assert ShowsZombie(s, below, BLOCK * j);
  }

  lemma BlockedWaitKeeps(s: State, below: Pcb)
    requires Inv(s) && 1 <= s.running && ZombiePage(s, below, 0) == DRAM_PAGE_COUNT
    ensures Inv(s.(pcb := SetState(s.pcb, s.running, ForkWaiting), running := -1))
  {
    hide Partitioned;
    var s' := s.(pcb := SetState(s.pcb, s.running, ForkWaiting), running := -1);
    assert Partitioned(s') by { Stays(s, s'); }
    assert PagesOk(s') by { SamePages(s, s'); }
    forall c | IsPid(c) && s'.pcb[c].state == Zombie ensures At(s'.pcb, s'.pcb[c].ppid).state != ForkWaiting {
      if s.pcb[c].ppid == s.running {
        ScanFindsZombies(s, below, c);
      }
    }
  }

  /** The page a guarded scan finds belongs to a zombie child. */
  lemma FoundChild(s: State, d: nat)
    requires Inv(s) && 1 <= s.running && d < DRAM_PAGE_COUNT && ShowsZombie(s, BLANK_PCB, d)
    ensures IsPid(s.owner[d]) && s.owner[d] != s.running
    ensures s.pcb[s.owner[d]].state == Zombie && s.pcb[s.owner[d]].ppid == s.running
  {
    assert PageOwner(s.owner, d / BLOCK, d % BLOCK) == Head(s.owner, d / BLOCK);
  }

  lemma ReleaseKeeps(s: State, s': State, o: int)
    requires Shape(s) && Shape(s') && PagesOk(s) && IsPid(o) && s'.owner == Release(s.owner, o)
    requires s'.pcb[o] == BLANK_PCB
    requires forall p :: 0 <= p < MAX_PROC_NUM ==> p == o || s'.pcb[p].ppid == s.pcb[p].ppid
    requires forall p :: IsPid(p) && p != o && s'.pcb[p].state == Free ==> s'.pcb[p] == s.pcb[p]
    ensures PagesOk(s')
  {
    ReleaseBlock(s.owner, o);
    forall p | IsPid(p) ensures Owns(s'.owner, p) <==> s'.pcb[p].ppid != 0 {
      if p != o && Owns(s.owner, p) {
        var k :| 0 <= k < BLOCK_COUNT && Head(s.owner, k) == p;
        assert Head(s'.owner, k) == p;
      }
    }
  }

  lemma ReapKeeps(s: State, d: nat)
    requires Inv(s) && 1 <= s.running && d < DRAM_PAGE_COUNT && ShowsZombie(s, BLANK_PCB, d)
    ensures Inv(Reap(s, BLANK_PCB, d, Repaired))
  {
    hide Partitioned;
    var s', o := Reap(s, BLANK_PCB, d, Repaired), s.owner[d];
    FoundChild(s, d);
    assert PagesOk(s') by { ReleaseKeeps(s, s', o); }
    assert Partitioned(s') by { Joins(s, s', o, InFree); }
  }

  lemma WaitKeeps(s: State, below: Pcb)
    requires Inv(s) && 1 <= s.running
    ensures Inv(WaitCall(s, below, Repaired))
    ensures ZombiePage(s, below, 0) == DRAM_PAGE_COUNT ==> Inv(WaitCall(s, below, AsWritten))
  {
    hide Partitioned;
    var d := ZombiePage(s, BLANK_PCB, 0);
    if d < DRAM_PAGE_COUNT {
      ReapKeeps(s, d);
    } else {
      BlockedWaitKeeps(s, BLANK_PCB);
    }
    if ZombiePage(s, below, 0) == DRAM_PAGE_COUNT {
      BlockedWaitKeeps(s, below);
    }
  }

  /** As written, the reaped PID is put in the free queue while it is still a zombie (or is the
      -1 of an unowned page): the partition is gone. */
  lemma ReapAsWrittenBreaks(s: State, below: Pcb, d: nat)
    requires Inv(s) && 1 <= s.running && d < DRAM_PAGE_COUNT && ShowsZombie(s, below, d)
    ensures !Housed(Reap(s, below, d, AsWritten))
  {
    var s', o := Reap(s, below, d, AsWritten), s.owner[d];
    assert Q(s', InFree)[|s.free|] == o;
    if o != -1 {
      FoundChild(s, d);
    }
    assert !(IsPid(o) && Fits(s'.pcb[o].state, InFree, o)) && IsPlace(InFree) && o in Q(s', InFree);
  }

  // Exit

  lemma ExitToZombieKeeps(s: State)
    requires Inv(s) && 1 <= s.running && s.pcb[s.pcb[s.running].ppid].state != ForkWaiting
    ensures Inv(ExitCall(s))
  {
    hide Partitioned;
    var s' := ExitCall(s);
    assert Partitioned(s') by { Stays(s, s'); }
    assert PagesOk(s') by { SamePages(s, s'); }
  }

  lemma SamePages(s: State, s': State)
    requires Shape(s) && Shape(s') && PagesOk(s) && s'.owner == s.owner
    requires forall p :: 0 <= p < MAX_PROC_NUM ==> s'.pcb[p].ppid == s.pcb[p].ppid
    requires forall p :: IsPid(p) && s'.pcb[p].state == Free ==> s'.pcb[p] == s.pcb[p]
    ensures PagesOk(s')
  {
  }

  /** The waiting parent is woken first; `mid` is the state at that point. */
  function ExitMid(s: State): State {
    var r := At(s.pcb, s.running);
    var w := At(s.pcb, r.ppid);
    s.(pcb := Put(s.pcb, r.ppid, w.(state := Ready, frame := w.frame.(ebx := s.running, eax := r.frame.eax))),
       ready := s.ready + [r.ppid])
  }

  lemma ExitPartition(s: State)
    requires Inv(s) && 1 <= s.running && s.pcb[s.pcb[s.running].ppid].state == ForkWaiting
    ensures Partitioned(ExitCall(s))
  {
    hide SemsOk, BoxesOk, QuantaOk, ExitOk, Partitioned;
    var mid, s', p, w := ExitMid(s), ExitCall(s), s.running, s.pcb[s.running].ppid;
    assert IsPid(w) && w != p;
    assert Partitioned(mid) by { Joins(s, mid, w, InReady); }
    Joins(mid, s', p, InFree);
  }

  lemma ExitToParentKeeps(s: State)
    requires Inv(s) && 1 <= s.running && s.pcb[s.pcb[s.running].ppid].state == ForkWaiting
    ensures Inv(ExitCall(s))
  {
    hide Partitioned;
    var s' := ExitCall(s);
    assert Partitioned(s') by { ExitPartition(s); }
    assert s.pcb[s.running].ppid != s.running;
    assert PagesOk(s') by { ReleaseKeeps(s, s', s.running); }
  }

  lemma ExitKeeps(s: State)
    requires Inv(s) && 1 <= s.running
    ensures Inv(ExitCall(s))
  {
    hide Partitioned;
    if s.pcb[s.pcb[s.running].ppid].state == ForkWaiting {
      ExitToParentKeeps(s);
    } else {
      ExitToZombieKeeps(s);
    }
  }

  // The step theorem

  lemma ServeKeeps(s: State, intr: Interrupt, v: Variant)
    requires Inv(s) && 0 <= s.running && Enabled(s, Entry(intr, s.pcb[s.running].frame))
    requires v == AsWritten && intr.Wait? ==> ZombiePage(s, intr.below, 0) == DRAM_PAGE_COUNT
    ensures Inv(Serve(s, intr, v))
  {
    match intr {
      case Timer => TickKeeps(s);
      case Irq3(cause, data) => Irq3Keeps(s, cause, data);
      case Irq7 => SemPostKeeps(s, 0);
      case GetPid => GetPidKeeps(s);
      case Sleep => SleepKeeps(s);
      case StartProc => StartProcKeeps(s);
      case SemGet => SemGetKeeps(s);
      case SemWait => SemWaitKeeps(s, s.pcb[s.running].frame.eax);
      case SemPost => SemPostKeeps(s, s.pcb[s.running].frame.eax);
      case MsgSnd(msg) => MsgSndKeeps(s, msg);
      case MsgRcv => MsgRcvKeeps(s);
      case Fork => ForkKeeps(s);
      case Wait(below) => WaitKeeps(s, below);
      case Exit => ExitKeeps(s);
      case Unknown =>
    }
  }

  /** Events after which the invariant is known to hold. */
  predicate Sound(s: State, e: Event, v: Variant) {
    Enabled(s, e) && (v == Repaired || !Reaps(s, e))
  }

  lemma StepKeeps(s: State, e: Event, v: Variant)
    requires Inv(s) && 0 <= s.running && Sound(s, e, v)
    ensures Inv(Step(s, e, v)) && 0 <= Step(s, e, v).running
    ensures e.Entry? ==> Settled(Step(s, e, v))
  {
    match e {
      case UserPort(port) => PortKeeps(s, port);
      case Entry(intr, frame) =>
        var s1 := SaveFrame(s, frame);
        SaveFrameKeeps(s, frame);
        ServeKeeps(s1, intr, v);
        SchedulerKeeps(Serve(s1, intr, v));
    }
  }

  /** Exactly when WaitISR as written is safe: the invariant survives a kernel entry if and only
      if the entry is not a Wait whose scan finds a page. */
  lemma AsWrittenExactly(s: State, e: Event)
    requires Inv(s) && 0 <= s.running && Enabled(s, e)
    ensures Inv(Step(s, e, AsWritten)) <==> !Reaps(s, e)
  {
    if Reaps(s, e) {
      var s1 := SaveFrame(s, e.frame);
      SaveFrameKeeps(s, e.frame);
      var d := ZombiePage(s1, e.intr.below, 0);
      ReapAsWrittenBreaks(s1, e.intr.below, d);
      assert Step(s, e, AsWritten) == Reap(s1, e.intr.below, d, AsWritten);
    } else {
      StepKeeps(s, e, AsWritten);
    }
  }
}
