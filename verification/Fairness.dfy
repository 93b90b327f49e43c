/** Round robin without starvation: a process at index k of the ready queue runs within
    (k + 1) * TIME_LIMIT timer ticks, whatever else happens. */
module Fairness {
  import opened Params
  import opened Port
  import opened KernelState
  import opened Partition
  import opened Pages
  import opened Invariant
  import opened Lifecycle
  import opened Runs

  predicate IsTick(e: Event) {
    e.Entry? && e.intr.Timer?
  }

  function Ticks(es: seq<Event>): nat {
    if es == [] then 0 else (if IsTick(es[0]) then 1 else 0) + Ticks(es[1..])
  }

  /** Ticks the process at index k of the ready queue can still be kept waiting. */
  function Patience(s: State, k: nat): int {
    k * TIME_LIMIT + (TIME_LIMIT - At(s.pcb, s.running).runtime)
  }

  /** p runs now or at some later point of the run. */
  predicate Dispatched(s: State, es: seq<Event>, v: Variant, p: int)
    decreases |es|
  {
    s.running == p || (es != [] && Dispatched(Step(s, es[0], v), es[1..], v, p))
  }

  /** A service only appends to the ready queue, and either the caller stays on the processor with
      its quantum advanced by the tick, if there was one, or nobody is running. */
  predicate Orderly(s: State, s': State, tick: bool) {
    s.ready <= s'.ready
    && (s'.running == -1
        || (s'.running == s.running
            && At(s'.pcb, s.running).runtime
               == At(s.pcb, s.running).runtime + (if tick && s.running >= 1 then 1 else 0)))
  }

  lemma SemPostOrderly(s: State, id: int)
    requires Inv(s)
    ensures Orderly(s, SemPostCall(s, id), false) && SemPostCall(s, id).running == s.running
  {
  }

  lemma TxOrderly(s: State)
    requires Inv(s)
    ensures Orderly(s, Tx(s), false) && Tx(s).running == s.running
  {
    PortKeeps(s, TxPort(s.port));
    SemPostOrderly(s.(port := TxPort(s.port)), s.port.txSem);
  }

  lemma Irq3Orderly(s: State, cause: Cause, data: int)
    requires Inv(s)
    ensures Orderly(s, Irq3Call(s, cause, data), false)
  {
    match cause {
      case TxReady =>
        TxOrderly(s);
        TxKeeps(s);
        TxOrderly(Tx(s));
      case RxReady =>
        var s1 := s.(port := RxPort(s.port, data));
        PortKeeps(s, RxPort(s.port, data));
        SemPostOrderly(s1, s.port.rxSem);
        SemPostKeeps(s1, s.port.rxSem);
        TxOrderly(Rx(s, data));
      case OtherCause =>
        TxOrderly(s);
    }
  }

  lemma TickOrderly(s: State)
    requires Inv(s) && 0 <= s.running
    ensures Orderly(s, Tick(s), true)
  {
    hide Partitioned, PagesOk, ExitOk, SemsOk, BoxesOk, Calm, MarkReady, Due;
    PreemptKeeps(s);
    AdvanceKeeps(Preempt(s));
    WakeStates(Advance(Preempt(s)));
  }

  lemma ForkOrderly(s: State)
    requires Inv(s) && 1 <= s.running
    ensures Orderly(s, ForkCall(s), false)
  {
    if s.free != [] {
      ForkGives(s);
    }
  }

  lemma WaitOrderly(s: State, below: Pcb, v: Variant)
    requires Inv(s) && 1 <= s.running
    ensures Orderly(s, WaitCall(s, below, v), false)
  {
    var d := ZombiePage(s, Below(below, v), 0);
    if d < DRAM_PAGE_COUNT && v == Repaired {
      FoundChild(s, d);
    }
  }

  lemma StartProcOrderly(s: State)
    requires Inv(s) && 1 <= s.running
    ensures Orderly(s, StartProcCall(s), false)
  {
    if s.free != [] {
      HeadFits(s, InFree);
    }
  }

  lemma MsgOrderly(s: State, msg: Msg)
    requires Inv(s)
    ensures Orderly(s, MsgSndCall(s, msg), false)
  {
  }

  lemma ServeOrderly(s: State, intr: Interrupt, v: Variant)
    requires Inv(s) && 0 <= s.running && Enabled(s, Entry(intr, s.pcb[s.running].frame))
    ensures Orderly(s, Serve(s, intr, v), intr.Timer?)
  {
    match intr {
      case Timer => TickOrderly(s);
      case Irq3(cause, data) => Irq3Orderly(s, cause, data);
      case Irq7 => SemPostOrderly(s, 0);
      case SemPost => SemPostOrderly(s, s.pcb[s.running].frame.eax);
      case MsgSnd(msg) => MsgOrderly(s, msg);
      case StartProc => StartProcOrderly(s);
      case Fork => ForkOrderly(s);
      case Wait(below) => WaitOrderly(s, below, v);
      case _ =>
    }
  }

  /** One step: p is dispatched, or it is nearer the head and its patience has dropped. */
  lemma StepProgress(s: State, e: Event, v: Variant, k: nat, p: int)
    requires Inv(s) && Settled(s) && Sound(s, e, v) && k < |s.ready| && s.ready[k] == p
    ensures var s' := Step(s, e, v);
      s'.running == p
      || exists k': nat :: k' < |s'.ready| && s'.ready[k'] == p
           && Patience(s', k') + (if IsTick(e) then 1 else 0) <= Patience(s, k)
  {
    hide Serve, Partitioned, PagesOk, ExitOk, SemsOk, BoxesOk;
    StepKeeps(s, e, v);
    var s' := Step(s, e, v);
    match e {
      case UserPort(_) =>
        assert s'.ready[k] == p && Patience(s', k) == Patience(s, k);
      case Entry(intr, frame) =>
        var s1 := SaveFrame(s, frame);
        SaveFrameKeeps(s, frame);
        ServeOrderly(s1, intr, v);
        var s2 := Serve(s1, intr, v);
        assert s2.ready[k] == p && s2.ready[0] == s.ready[0];
        if s2.running == -1 {
          if k > 0 {
            assert s'.ready[k - 1] == p;
            assert Patience(s', k - 1) <= k * TIME_LIMIT < Patience(s, k);
          }
        } else {
          assert s'.ready[k] == p;
        }
    }
  }

  lemma {:induction false} PatienceRunsOut(s: State, es: seq<Event>, v: Variant, k: nat, p: int)
    requires Inv(s) && Settled(s) && SoundRun(s, es, v) && k < |s.ready| && s.ready[k] == p
    requires Ticks(es) >= Patience(s, k)
    ensures Dispatched(s, es, v, p)
    decreases |es|
  {
    if es != [] && s.running != p {
      var s' := Step(s, es[0], v);
      StepKeeps(s, es[0], v);
      StepProgress(s, es[0], v, k, p);
      if s'.running != p {
        var k': nat :| k' < |s'.ready| && s'.ready[k'] == p
          && Patience(s', k') + (if IsTick(es[0]) then 1 else 0) <= Patience(s, k);
        PatienceRunsOut(s', es[1..], v, k', p);
      }
    }
  }

  /** Bounded waiting: after (k + 1) * TIME_LIMIT ticks the process at index k has run. */
  lemma BoundedWaiting(s: State, es: seq<Event>, v: Variant, k: nat, p: int)
    requires Inv(s) && Settled(s) && SoundRun(s, es, v) && k < |s.ready| && s.ready[k] == p
    requires Ticks(es) >= (k + 1) * TIME_LIMIT
    ensures Dispatched(s, es, v, p)
  {
    assert Patience(s, k) <= (k + 1) * TIME_LIMIT;
    PatienceRunsOut(s, es, v, k, p);
  }

  // The quantum

  /** Events that are not calls of the running process. */
  predicate Outside(e: Event) {
    e.UserPort? || e.intr.Timer? || e.intr.Irq3? || e.intr.Irq7?
  }

  lemma OutsideStep(s: State, e: Event, v: Variant)
    requires Inv(s) && 1 <= s.running && Sound(s, e, v) && Outside(e)
    requires IsTick(e) ==> s.pcb[s.running].runtime + 1 < TIME_LIMIT
    ensures Step(s, e, v).running == s.running
    ensures At(Step(s, e, v).pcb, s.running).runtime == s.pcb[s.running].runtime + (if IsTick(e) then 1 else 0)
  {
    hide Partitioned, PagesOk, ExitOk, SemsOk, BoxesOk, Irq3Call, SemPostCall, MarkReady, Due;
    if e.Entry? {
      var s1 := SaveFrame(s, e.frame);
      SaveFrameKeeps(s, e.frame);
      ServeOrderly(s1, e.intr, v);
      match e.intr {
        case Irq3(cause, data) => Irq3Keeps(s1, cause, data);
        case Irq7 => SemPostKeeps(s1, 0);
        case _ =>
      }
    }
  }

  /** A process that makes no call keeps the processor until its quantum is used up. */
  lemma {:induction false} FullQuantum(s: State, es: seq<Event>, v: Variant)
    requires Inv(s) && 1 <= s.running && SoundRun(s, es, v) && (forall e :: e in es ==> Outside(e))
    requires Ticks(es) < TIME_LIMIT - s.pcb[s.running].runtime
    ensures Run(s, es, v).running == s.running
    ensures At(Run(s, es, v).pcb, s.running).runtime == s.pcb[s.running].runtime + Ticks(es)
    decreases |es|
  {
    hide Step, Outside, Partitioned, PagesOk, ExitOk, SemsOk, BoxesOk;
    if es != [] {
      assert es[0] in es && forall e :: e in es[1..] ==> e in es;
      StepKeeps(s, es[0], v);
      OutsideStep(s, es[0], v);
      FullQuantum(Step(s, es[0], v), es[1..], v);
    }
  }

  /** The tick that uses it up sends the process to the back of the ready queue, ahead of the
      sleepers that tick wakes, with a new quantum, and the head of that queue runs. */
  lemma QuantumEnds(s: State, e: Event, v: Variant)
    requires Inv(s) && 1 <= s.running && Sound(s, e, v) && IsTick(e)
    requires s.pcb[s.running].runtime == TIME_LIMIT - 1
    ensures var s', woken := Step(s, e, v), Due(s.pcb, (s.clock + 1) % CLOCK_WRAP, s.asleep, true);
      [s'.running] + s'.ready == s.ready + [s.running] + woken && At(s'.pcb, s.running).runtime == 0
  {
    hide Partitioned, PagesOk, ExitOk, SemsOk, BoxesOk, MarkReady, Due;
    var s1 := SaveFrame(s, e.frame);
    var s2 := Advance(Preempt(s1));
    SaveFrameKeeps(s, e.frame);
    PreemptKeeps(s1);
    AdvanceKeeps(Preempt(s1));
    WakeKeeps(s2);
    WakeStates(s2);
    SchedulerTouches(WakeDue(s2));
    SameDue(s.pcb, s2.pcb, s2.clock, s.asleep);
  }

  lemma {:induction false} SameDue(t: seq<Pcb>, t': seq<Pcb>, clock: int, q: seq<int>)
    requires |t| == |t'| && forall k :: 0 <= k < |t| ==> t'[k].wake == t[k].wake
    ensures Due(t', clock, q, true) == Due(t, clock, q, true)
  {
    if q != [] {
      SameDue(t, t', clock, q[1..]);
    }
  }
}
