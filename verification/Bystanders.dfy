/** What one kernel entry can do to a process other than the one that caused it. */
module Bystanders {
  import opened Params
  import opened Port
  import opened KernelState
  import opened Partition
  import opened Pages
  import opened Invariant
  import opened Lifecycle

  predicate Untouched(s: State, s': State, p: int) {
    At(s'.pcb, p) == At(s.pcb, p)
  }

  /** A blocked process was granted its semaphore or message. */
  predicate Granted(s: State, s': State, p: int) {
    At(s.pcb, p).state == Waiting && At(s'.pcb, p) == At(s.pcb, p).(state := Ready)
  }

  /** An unused PID was given to a new process, forked by `parent` or started (parent 0); a started
      one uses the kernel's own page directory. */
  predicate Born(s: State, s': State, p: int, parent: int) {
    At(s.pcb, p) == BLANK_PCB && At(s'.pcb, p).state == Ready && At(s'.pcb, p).ppid == parent
    && At(s'.pcb, p).runtime == 0 && At(s'.pcb, p).total == 0 && At(s'.pcb, p).frame == Frame(0, 0, 0)
    && (parent == 0 ==> At(s'.pcb, p).table == s.osTable)
  }

  /** A dead child of the caller was reported to it and its record given back. */
  predicate Reaped(s: State, s': State, p: int) {
    At(s.pcb, p).state == Zombie && At(s.pcb, p).ppid == s.running && At(s'.pcb, p) == BLANK_PCB
    && At(s'.pcb, s.running).frame.ebx == p && At(s'.pcb, s.running).frame.eax == At(s.pcb, p).frame.eax
  }

  /** A parent blocked in Wait was handed the PID and exit value of the exiting caller. */
  predicate Informed(s: State, s': State, p: int) {
    var w := At(s.pcb, p);
    w.state == ForkWaiting && At(s.pcb, s.running).ppid == p
    && At(s'.pcb, p) == w.(state := Ready, frame := w.frame.(ebx := s.running, eax := At(s.pcb, s.running).frame.eax))
  }

  /** A sleeper's wake time came. */
  predicate Awoken(s: State, s': State, p: int) {
    At(s.pcb, p).state == Sleeping && At(s.pcb, p).wake == s'.clock
    && At(s'.pcb, p) == At(s.pcb, p).(state := Ready)
  }

  predicate Affected(s: State, s': State, p: int, intr: Interrupt, v: Variant) {
    Untouched(s, s', p)
    || Granted(s, s', p)
    || (intr.Fork? && Born(s, s', p, s.running))
    || (intr.StartProc? && Born(s, s', p, 0))
    || (intr.Wait? && v == Repaired && Reaped(s, s', p))
    || (intr.Exit? && Informed(s, s', p))
    || (intr.Timer? && Awoken(s, s', p))
  }

  lemma PostBystander(s: State, id: int, p: int)
    requires Inv(s) && 0 <= id < Q_LEN && IsPid(p)
    ensures Untouched(s, SemPostCall(s, id), p) || Granted(s, SemPostCall(s, id), p)
    ensures SemPostCall(s, id).clock == s.clock
  {
    if s.sem[id].waiters != [] {
      HeadFits(s, InSem(id));
    }
  }

  lemma TxBystander(s: State, p: int)
    requires Inv(s) && IsPid(p)
    ensures Untouched(s, Tx(s), p) || Granted(s, Tx(s), p)
    ensures Tx(s).clock == s.clock
  {
    PortKeeps(s, TxPort(s.port));
    PostBystander(s.(port := TxPort(s.port)), s.port.txSem, p);
  }

  lemma Irq3Bystander(s: State, cause: Cause, data: int, p: int)
    requires Inv(s) && IsPid(p)
    ensures Untouched(s, Irq3Call(s, cause, data), p) || Granted(s, Irq3Call(s, cause, data), p)
    ensures Irq3Call(s, cause, data).clock == s.clock
  {
    hide Tx, Partitioned, PagesOk, ExitOk, SemsOk, BoxesOk, QuantaOk;
    match cause {
      case TxReady =>
        TxBystander(s, p);
        TxKeeps(s);
        TxBystander(Tx(s), p);
      case RxReady =>
        RxBystander(s, data, p);
        TxBystander(Rx(s, data), p);
      case OtherCause =>
        TxBystander(s, p);
    }
  }

  lemma RxBystander(s: State, data: int, p: int)
    requires Inv(s) && IsPid(p)
    ensures Inv(Rx(s, data)) && Rx(s, data).clock == s.clock
    ensures Untouched(s, Rx(s, data), p) || Granted(s, Rx(s, data), p)
  {
    PortKeeps(s, RxPort(s.port, data));
    PostBystander(s.(port := RxPort(s.port, data)), s.port.rxSem, p);
    SemPostKeeps(s.(port := RxPort(s.port, data)), s.port.rxSem);
  }

  lemma SndBystander(s: State, msg: Msg, p: int)
    requires Inv(s) && 0 <= msg.recipient < MAX_PROC_NUM && IsPid(p)
    ensures Untouched(s, MsgSndCall(s, msg), p) || Granted(s, MsgSndCall(s, msg), p)
    ensures MsgSndCall(s, msg).clock == s.clock
  {
    if s.mbox[msg.recipient].waiters != [] {
      HeadFits(s, InBox(msg.recipient));
    }
  }

  lemma StartBystander(s: State, p: int)
    requires Inv(s) && IsPid(p)
    ensures Untouched(s, StartProcCall(s), p) || Born(s, StartProcCall(s), p, 0)
  {
    if s.free != [] {
      HeadFits(s, InFree);
    }
  }

  lemma ForkBystander(s: State, p: int)
    requires Inv(s) && 1 <= s.running && IsPid(p) && p != s.running
    ensures Untouched(s, ForkCall(s), p) || Born(s, ForkCall(s), p, s.running)
  {
    if s.free != [] {
      ForkGives(s);
    }
  }

  lemma WaitBystander(s: State, below: Pcb, v: Variant, p: int)
    requires Inv(s) && 1 <= s.running && IsPid(p) && p != s.running
    ensures Untouched(s, WaitCall(s, below, v), p)
      || (v == Repaired && ZombiePage(s, BLANK_PCB, 0) < DRAM_PAGE_COUNT && Reaped(s, WaitCall(s, below, v), p))
  {
    var d := ZombiePage(s, Below(below, v), 0);
    if d < DRAM_PAGE_COUNT && v == Repaired {
      FoundChild(s, d);
    }
  }

  lemma ExitBystander(s: State, p: int)
    requires Inv(s) && 1 <= s.running && IsPid(p) && p != s.running
    ensures Untouched(s, ExitCall(s), p) || Informed(s, ExitCall(s), p)
  {
  }

  lemma PassBystander(s: State, p: int)
    requires Partitioned(s) && IsPid(p)
    ensures Untouched(s, WakeDue(s), p) || Awoken(s, WakeDue(s), p)
    ensures s.pcb[p].state == Sleeping ==>
      (Awoken(s, WakeDue(s), p) <==> s.pcb[p].wake == s.clock)
    ensures WakeDue(s).clock == s.clock
  {
    WokenFromSleep(s);
    WakeEffect(s);
    if s.pcb[p].state == Sleeping {
      assert PlaceOf(s, p) == InAsleep && p in s.asleep;
    }
  }

  lemma TickBystander(s: State, p: int)
    requires Inv(s) && IsPid(p) && p != s.running
    ensures Untouched(s, Tick(s), p) || Awoken(s, Tick(s), p)
    ensures s.pcb[p].state == Sleeping ==>
      (Awoken(s, Tick(s), p) <==> s.pcb[p].wake == (s.clock + 1) % CLOCK_WRAP)
    ensures Tick(s).clock == (s.clock + 1) % CLOCK_WRAP
  {
    hide Partitioned, PagesOk, ExitOk, SemsOk, BoxesOk, WakeDue;
    assert Partitioned(Advance(Preempt(s))) by {
      PreemptKeeps(s);
      AdvanceKeeps(Preempt(s));
    }
    PassBystander(Advance(Preempt(s)), p);
  }

  /** Every effect of one service on another process, for every service. */
  lemma ServeBystander(s: State, intr: Interrupt, v: Variant, p: int)
    requires Inv(s) && 0 <= s.running && Enabled(s, Entry(intr, s.pcb[s.running].frame))
    requires IsPid(p) && p != s.running
    ensures Affected(s, Serve(s, intr, v), p, intr, v)
    ensures !intr.Timer? ==> Serve(s, intr, v).clock == s.clock
  {
    hide Partitioned, PagesOk, ExitOk, SemsOk, BoxesOk, QuantaOk;
    hide Tick, Irq3Call, SemPostCall, MsgSndCall, Granted, Born, Reaped, Informed, Awoken;
    match intr {
      case Timer => TickBystander(s, p);
      case Irq3(cause, data) => Irq3Bystander(s, cause, data, p);
      case Irq7 => PostBystander(s, 0, p);
      case SemPost => PostBystander(s, s.pcb[s.running].frame.eax, p);
      case MsgSnd(msg) => SndBystander(s, msg, p);
      case StartProc => StartBystander(s, p);
      case Fork => ForkBystander(s, p);
      case Wait(below) => WaitBystander(s, below, v, p);
      case Exit => ExitBystander(s, p);
      case _ =>
    }
  }
}
