/** The kernel invariant, and the proof that every kernel entry keeps it: unrestrictedly with
    WaitISR's reap loop repaired, and as the source has it exactly when no page is reaped. */
module Invariant {
  import opened Params
  import opened Port
  import opened KernelState
  import opened Partition
  import opened Pages

  /** PID 0 is in no queue: it is the fallback, never blocked. */
  ghost predicate RunningOk(s: State)
    requires Shape(s)
  {
    -1 <= s.running < MAX_PROC_NUM
    && (forall p :: IsPid(p) ==> (s.pcb[p].state == Running <==> s.running == p))
    && (s.pcb[0].state == Ready || s.pcb[0].state == Running)
  }

  ghost predicate QuantaOk(s: State)
    requires Shape(s)
  {
    forall p :: 0 <= p < MAX_PROC_NUM ==>
      0 <= s.pcb[p].runtime < TIME_LIMIT && 0 <= s.pcb[p].wake < CLOCK_WRAP
  }

  ghost predicate SemsOk(s: State)
    requires Shape(s)
  {
    NoDup(s.semFree)
    && (forall i :: i in s.semFree ==> 0 <= i < Q_LEN && s.sem[i].waiters == [])
    && (forall i :: 0 <= i < Q_LEN && s.sem[i].limit > 0 ==> s.sem[i].waiters == [])
  }

  /** A process waits for a message only while its mailbox is empty. */
  ghost predicate BoxesOk(s: State)
    requires Shape(s)
  {
    forall p :: 0 <= p < MAX_PROC_NUM ==>
      |s.mbox[p].msgs| <= Q_LEN && (s.mbox[p].waiters != [] ==> s.mbox[p].msgs == [])
  }

  predicate PortOk(p: Port) {
    |p.tx| <= Q_LEN && |p.rx| <= Q_LEN && |p.echo| <= Q_LEN
    && 0 <= p.txSem < Q_LEN && 0 <= p.rxSem < Q_LEN
  }

  /** No process sits in Wait while a child of its own is a zombie. */
  ghost predicate ExitOk(s: State)
    requires Shape(s)
  {
    forall c :: IsPid(c) && s.pcb[c].state == Zombie ==> At(s.pcb, s.pcb[c].ppid).state != ForkWaiting
  }

  ghost predicate Inv(s: State) {
    Shape(s) && Partitioned(s) && RunningOk(s) && QuantaOk(s) && SemsOk(s) && BoxesOk(s)
    && PortOk(s.port) && PagesOk(s) && ExitOk(s) && 0 <= s.clock < CLOCK_WRAP
  }

  /** Between kernel entries some process runs, and PID 0 only when no other can (boot excepted). */
  predicate Settled(s: State)
    requires Shape(s)
  {
    0 <= s.running < MAX_PROC_NUM && (s.running == 0 ==> s.ready == [])
  }

  /** What the environment promises of an event: system calls come from a process other than the
      idle one, semaphore ids were handed out by SemGet, recipients are process numbers, and user
      code keeps the port record well formed. */
  predicate Enabled(s: State, e: Event) {
    match e
    case UserPort(port) => PortOk(port)
    case Entry(intr, frame) =>
      (intr.Timer? || intr.Irq3? || intr.Irq7? || intr.Unknown? || 1 <= s.running)
      && (intr.SemWait? || intr.SemPost? ==> 0 <= frame.eax < Q_LEN && frame.eax !in s.semFree)
      && (intr.MsgSnd? ==> 0 <= intr.msg.recipient < MAX_PROC_NUM)
  }

  /** The entry is a Wait whose scan finds a page to reap. */
  predicate Reaps(s: State, e: Event) {
    e.Entry? && e.intr.Wait? && ZombiePage(SaveFrame(s, e.frame), e.intr.below, 0) < |s.owner|
  }

  // The parts of the invariant that most services leave alone.

  /** No process enters or leaves the states Free, Zombie and ForkWaiting; parents and pages stay. */
  ghost predicate Calm(s: State, s': State)
    requires Shape(s) && Shape(s')
  {
    s'.owner == s.owner
    && (forall p :: 0 <= p < MAX_PROC_NUM ==> s'.pcb[p].ppid == s.pcb[p].ppid)
    && (forall p :: IsPid(p) && (s'.pcb[p].state == Free || s.pcb[p].state == Free) ==> s'.pcb[p] == s.pcb[p])
    && (forall p :: IsPid(p) ==> (s'.pcb[p].state == Zombie <==> s.pcb[p].state == Zombie))
    && (forall p :: 0 <= p < MAX_PROC_NUM ==> (s'.pcb[p].state == ForkWaiting <==> s.pcb[p].state == ForkWaiting))
  }

  lemma CalmKeeps(s: State, s': State)
    requires Shape(s) && Shape(s') && PagesOk(s) && ExitOk(s) && Calm(s, s')
    ensures PagesOk(s') && ExitOk(s')
  {
  }

  // One lemma per service routine.

  lemma SaveFrameKeeps(s: State, f: Frame)
    requires Inv(s) && 0 <= s.running
    ensures Inv(SaveFrame(s, f))
  {
    hide Partitioned;
    var s' := SaveFrame(s, f);
    assert Partitioned(s') by { Stays(s, s'); }
    assert PagesOk(s') && ExitOk(s') by { CalmKeeps(s, s'); }
  }

  lemma SchedulerEffect(s: State, p: int)
    requires Shape(s) && s.running <= 0 && s.ready != [] && s.ready[0] == p && IsPid(p)
    ensures OnlyMoved(s, Scheduler(s), p, InReady, InReady)
    ensures Q(Scheduler(s), InReady) == Q(s, InReady)[1..]
    ensures Scheduler(s).pcb[p].state == Running
  {
  }

  lemma SchedulerMoves(s: State)
    requires Partitioned(s) && RunningOk(s)
    ensures Partitioned(Scheduler(s)) && RunningOk(Scheduler(s)) && Settled(Scheduler(s))
    ensures Calm(s, Scheduler(s))
  {
    var s' := Scheduler(s);
    if s.running <= 0 && s.ready != [] {
      HeadFits(s, InReady);
      SchedulerEffect(s, s.ready[0]);
      Leaves(s, s', s.ready[0], InReady);
    } else if s.running <= 0 {
      assert Partitioned(s') by { Stays(s, s'); }
    }
  }

  /** The scheduler changes no process but one it takes from the ready queue (and PID 0). */
  lemma SchedulerTouches(s: State)
    requires Partitioned(s)
    ensures forall p :: IsPid(p) ==>
      (Scheduler(s).pcb[p] == s.pcb[p]
       || (s.pcb[p].state == Ready && Scheduler(s).pcb[p] == s.pcb[p].(state := Running)))
    ensures Scheduler(s).clock == s.clock && |Scheduler(s).pcb| == |s.pcb|
  {
    if s.ready != [] {
      HeadFits(s, InReady);
    }
  }

  lemma SchedulerKeeps(s: State)
    requires Inv(s)
    ensures Inv(Scheduler(s)) && Settled(Scheduler(s))
  {
    hide Partitioned;
    SchedulerMoves(s);
    CalmKeeps(s, Scheduler(s));
  }

  lemma PreemptKeeps(s: State)
    requires Inv(s)
    ensures Inv(Preempt(s))
  {
    hide Partitioned;
    var s' := Preempt(s);
    if s.running >= 1 {
      if s'.running == -1 {
        assert Partitioned(s') by { Joins(s, s', s.running, InReady); }
      } else {
        assert Partitioned(s') by { Stays(s, s'); }
      }
      assert PagesOk(s') && ExitOk(s') by { CalmKeeps(s, s'); }
    }
  }

  lemma SleepKeeps(s: State)
    requires Inv(s) && 1 <= s.running
    ensures Inv(SleepCall(s))
  {
    hide Partitioned;
    var s' := SleepCall(s);
    assert Partitioned(s') by { Joins(s, s', s.running, InAsleep); }
    assert PagesOk(s') && ExitOk(s') by { CalmKeeps(s, s'); }
  }

  lemma GetPidKeeps(s: State)
    requires Inv(s) && 1 <= s.running
    ensures Inv(GetPidCall(s))
  {
    hide Partitioned;
    var s' := GetPidCall(s);
    assert Partitioned(s') by { Stays(s, s'); }
    assert PagesOk(s') && ExitOk(s') by { CalmKeeps(s, s'); }
  }

  lemma NoBoxWaiter(s: State, p: int)
    requires Partitioned(s) && IsPid(p) && s.pcb[p].state != Waiting
    ensures s.mbox[p].waiters == []
  {
    if Q(s, InBox(p)) != [] {
      HeadFits(s, InBox(p));
    }
  }

  lemma StartProcEffect(s: State, p: int)
    requires Shape(s) && s.free != [] && s.free[0] == p && IsPid(p) && s.mbox[p].waiters == []
    ensures OnlyMoved(s, StartProcCall(s), p, InFree, InReady)
    ensures Q(StartProcCall(s), InFree) == Q(s, InFree)[1..]
    ensures Q(StartProcCall(s), InReady) == Q(s, InReady) + [p]
    ensures StartProcCall(s).pcb[p].state == Ready
  {
  }

  lemma StartProcKeeps(s: State)
    requires Inv(s)
    ensures Inv(StartProcCall(s))
  {
    hide Partitioned;
    if s.free != [] {
      var s', p := StartProcCall(s), s.free[0];
      HeadFits(s, InFree);
      NoBoxWaiter(s, p);
      StartProcEffect(s, p);
      assert Partitioned(s') by { Moves(s, s', p, InFree, InReady); }
    }
  }

  lemma SemGetKeeps(s: State)
    requires Inv(s) && 1 <= s.running
    ensures Inv(SemGetCall(s))
  {
    hide Partitioned;
    var s' := SemGetCall(s);
    if s.semFree != [] {
      assert s.semFree[0] in s.semFree;
      TailMembers(s.semFree);
    }
    assert Partitioned(s') by { Stays(s, s'); }
    assert PagesOk(s') && ExitOk(s') by { CalmKeeps(s, s'); }
  }

  lemma SemWaitKeeps(s: State, id: int)
    requires Inv(s) && 1 <= s.running && 0 <= id < Q_LEN && id !in s.semFree
    ensures Inv(SemWaitCall(s, id))
  {
    hide Partitioned;
    var s' := SemWaitCall(s, id);
    if s.sem[id].limit > 0 {
      assert Partitioned(s') by { Stays(s, s'); }
    } else {
      assert Partitioned(s') by { Joins(s, s', s.running, InSem(id)); }
    }
    assert PagesOk(s') && ExitOk(s') by { CalmKeeps(s, s'); }
  }

  lemma SemPostEffect(s: State, id: int, p: int)
    requires Shape(s) && 0 <= id < Q_LEN && s.sem[id].waiters != [] && s.sem[id].waiters[0] == p && IsPid(p)
    ensures OnlyMoved(s, SemPostCall(s, id), p, InSem(id), InReady)
    ensures Q(SemPostCall(s, id), InSem(id)) == Q(s, InSem(id))[1..]
    ensures Q(SemPostCall(s, id), InReady) == Q(s, InReady) + [p]
    ensures SemPostCall(s, id).pcb[p].state == Ready
  {
  }

  lemma SemPostMoves(s: State, id: int)
    requires Partitioned(s) && RunningOk(s) && 0 <= id < Q_LEN
    ensures Partitioned(SemPostCall(s, id)) && RunningOk(SemPostCall(s, id)) && Calm(s, SemPostCall(s, id))
  {
    var s', w := SemPostCall(s, id), s.sem[id].waiters;
    if w == [] {
      assert Partitioned(s') by { Stays(s, s'); }
    } else {
      HeadFits(s, InSem(id));
      SemPostEffect(s, id, w[0]);
      Moves(s, s', w[0], InSem(id), InReady);
    }
  }

  lemma SemPostKeeps(s: State, id: int)
    requires Inv(s) && 0 <= id < Q_LEN
    ensures Inv(SemPostCall(s, id)) && SemPostCall(s, id).running == s.running
  {
    hide Partitioned;
    SemPostMoves(s, id);
    CalmKeeps(s, SemPostCall(s, id));
  }

  lemma MsgSndEffect(s: State, msg: Msg, p: int)
    requires Shape(s) && 0 <= msg.recipient < MAX_PROC_NUM && IsPid(p)
    requires s.mbox[msg.recipient].waiters != [] && s.mbox[msg.recipient].waiters[0] == p
    ensures OnlyMoved(s, MsgSndCall(s, msg), p, InBox(msg.recipient), InReady)
    ensures Q(MsgSndCall(s, msg), InBox(msg.recipient)) == Q(s, InBox(msg.recipient))[1..]
    ensures Q(MsgSndCall(s, msg), InReady) == Q(s, InReady) + [p]
    ensures MsgSndCall(s, msg).pcb[p].state == Ready
  {
  }

  lemma MsgSndMoves(s: State, msg: Msg)
    requires Partitioned(s) && RunningOk(s) && 0 <= msg.recipient < MAX_PROC_NUM
    ensures Partitioned(MsgSndCall(s, msg)) && RunningOk(MsgSndCall(s, msg)) && Calm(s, MsgSndCall(s, msg))
  {
    var s', w := MsgSndCall(s, msg), s.mbox[msg.recipient].waiters;
    if w == [] {
      assert Partitioned(s') by { Stays(s, s'); }
    } else {
      HeadFits(s, InBox(msg.recipient));
      MsgSndEffect(s, msg, w[0]);
      Moves(s, s', w[0], InBox(msg.recipient), InReady);
    }
  }

  lemma MsgSndKeeps(s: State, msg: Msg)
    requires Inv(s) && 0 <= msg.recipient < MAX_PROC_NUM
    ensures Inv(MsgSndCall(s, msg))
  {
    hide Partitioned;
    MsgSndMoves(s, msg);
    CalmKeeps(s, MsgSndCall(s, msg));
  }

  lemma MsgRcvKeeps(s: State)
    requires Inv(s) && 1 <= s.running
    ensures Inv(MsgRcvCall(s))
  {
    hide Partitioned;
    var s' := MsgRcvCall(s);
    if |s.mbox[s.running].msgs| > 0 {
      assert Partitioned(s') by { Stays(s, s'); }
    } else {
      assert Partitioned(s') by { Joins(s, s', s.running, InBox(s.running)); }
    }
    assert PagesOk(s') && ExitOk(s') by { CalmKeeps(s, s'); }
  }

  lemma PortKeeps(s: State, port: Port)
    requires Inv(s) && PortOk(port)
    ensures Inv(s.(port := port))
  {
    hide Partitioned;
    var s' := s.(port := port);
    assert Partitioned(s') by { Stays(s, s'); }
    assert PagesOk(s') && ExitOk(s') by { CalmKeeps(s, s'); }
  }

  lemma TxKeeps(s: State)
    requires Inv(s)
    ensures Inv(Tx(s)) && Tx(s).running == s.running
  {
    hide Partitioned;
    PortKeeps(s, TxPort(s.port));
    if TxPosts(s.port) {
      SemPostKeeps(s.(port := TxPort(s.port)), s.port.txSem);
    }
  }

  lemma RxKeeps(s: State, data: int)
    requires Inv(s)
    ensures Inv(Rx(s, data)) && Rx(s, data).running == s.running
  {
    hide Partitioned;
    PortKeeps(s, RxPort(s.port, data));
    SemPostKeeps(s.(port := RxPort(s.port, data)), s.port.rxSem);
  }

  lemma Irq3Keeps(s: State, cause: Cause, data: int)
    requires Inv(s)
    ensures Inv(Irq3Call(s, cause, data)) && Irq3Call(s, cause, data).running == s.running
  {
    hide Partitioned;
    match cause {
      case TxReady =>
        TxKeeps(s);
        TxKeeps(Tx(s));
      case RxReady =>
        RxKeeps(s, data);
        TxKeeps(Rx(s, data));
      case OtherCause =>
        TxKeeps(s);
    }
  }

  // The timer's pass over the sleep queue

  lemma {:induction false} DueMembers(t: seq<Pcb>, clock: int, q: seq<int>, due: bool)
    ensures forall p :: p in Due(t, clock, q, due) <==> p in q && (At(t, p).wake == clock) == due
    ensures NoDup(q) ==> NoDup(Due(t, clock, q, due))
  {
    if q != [] {
      DueMembers(t, clock, q[1..], due);
      assert q == [q[0]] + q[1..];
      if NoDup(q) {
        TailMembers(q);
      }
    }
  }

  lemma NoDupConcat(a: seq<int>, b: seq<int>)
    requires NoDup(a) && NoDup(b) && forall p :: p in a ==> p !in b
    ensures NoDup(a + b)
  {
    forall j, k | 0 <= j < k < |a + b| ensures (a + b)[j] != (a + b)[k] {
      if j < |a| <= k {
        assert a[j] in a && b[k - |a|] in b;
      }
    }
  }

  /** The sleepers the pass wakes. */
  ghost function Woken(s: State): set<int> {
    set p | p in s.asleep && At(s.pcb, p).wake == s.clock
  }

  lemma WokenFromSleep(s: State)
    requires Partitioned(s)
    ensures forall p :: p in Woken(s) ==> IsPid(p) && s.pcb[p].state == Sleeping && s.pcb[p].wake == s.clock
    ensures forall pl, p :: IsPlace(pl) && pl != InAsleep && p in Woken(s) ==> p !in Q(s, pl)
    ensures NoDup(s.ready) && NoDup(s.asleep)
  {
    assert forall p :: p in Woken(s) ==> p in Q(s, InAsleep);
    assert NoDup(Q(s, InReady)) && NoDup(Q(s, InAsleep));
  }

  lemma WakeEffect(s: State)
    requires Shape(s) && NoDup(s.ready) && NoDup(s.asleep)
    requires forall pl, p :: IsPlace(pl) && pl != InAsleep && p in Woken(s) ==> p !in Q(s, pl)
    ensures NoDup(WakeDue(s).ready) && NoDup(WakeDue(s).asleep)
    ensures forall pl, p :: IsPlace(pl) ==>
      (p in Q(WakeDue(s), pl) <==> (if p in Woken(s) then pl == InReady else p in Q(s, pl)))
    ensures forall p :: 0 <= p < MAX_PROC_NUM ==>
      (WakeDue(s).pcb[p] == if p in Woken(s) then s.pcb[p].(state := Ready) else s.pcb[p])
  {
    var due := Due(s.pcb, s.clock, s.asleep, true);
    DueMembers(s.pcb, s.clock, s.asleep, true);
    DueMembers(s.pcb, s.clock, s.asleep, false);
    assert forall p :: p in due <==> p in Woken(s);
    forall p | p in s.ready ensures p !in due {
      assert p in Q(s, InReady);
    }
    NoDupConcat(s.ready, due);
  }

  lemma WakePartition(s: State)
    requires Partitioned(s)
    ensures Partitioned(WakeDue(s))
  {
    var s', w := WakeDue(s), Woken(s);
    WokenFromSleep(s);
    WakeEffect(s);
    assert forall pl :: IsPlace(pl) ==> NoDup(Q(s, pl));
    RehousedPartition(s, s', w, InReady, true);
  }

  lemma AdvanceKeeps(s: State)
    requires Inv(s)
    ensures Inv(Advance(s))
  {
    hide Partitioned;
    assert Partitioned(Advance(s)) by { Stays(s, Advance(s)); }
    CalmKeeps(s, Advance(s));
  }

  lemma TickKeeps(s: State)
    requires Inv(s)
    ensures Inv(Tick(s))
  {
    hide Partitioned;
    assert Inv(Preempt(s)) by { PreemptKeeps(s); }
    assert Inv(Advance(Preempt(s))) by { AdvanceKeeps(Preempt(s)); }
    WakeKeeps(Advance(Preempt(s)));
  }

  lemma WakeKeeps(s: State)
    requires Inv(s)
    ensures Inv(WakeDue(s)) && WakeDue(s).running == s.running
  {
    hide Partitioned, PagesOk, ExitOk, Due, MarkReady, Calm;
    var s' := WakeDue(s);
    assert Partitioned(s') by { WakePartition(s); }
    WakeStates(s);
    CalmKeeps(s, s');
  }

  /** The pass only turns sleepers into ready processes. */
  lemma WakeStates(s: State)
    requires Partitioned(s)
    ensures Shape(WakeDue(s)) && Calm(s, WakeDue(s))
    ensures forall p :: 0 <= p < MAX_PROC_NUM ==>
      WakeDue(s).pcb[p] == s.pcb[p]
      || (IsPid(p) && s.pcb[p].state == Sleeping && WakeDue(s).pcb[p] == s.pcb[p].(state := Ready))
  {
    WokenFromSleep(s);
    WakeEffect(s);
  }
}
