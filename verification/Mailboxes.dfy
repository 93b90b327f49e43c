/** Messages over whole runs: delivered exactly once, in the order they were sent. */
module Mailboxes {
  import opened Params
  import opened Sequences
  import opened Port
  import opened KernelState
  import opened Partition
  import opened Pages
  import opened Invariant
  import opened Lifecycle
  import opened Bystanders
  import opened Runs

  /** The message this step sends to p, stamped, unless p's ring is full and it is dropped. */
  function AcceptedAt(s: State, e: Event, p: int): seq<Msg> {
    if e.Entry? && e.intr.MsgSnd? && e.intr.msg.recipient == p && |BoxAt(s.mbox, p).msgs| < Q_LEN then
      [e.intr.msg.(stamp := s.clock, sender := s.running)]
    else []
  }

  /** A receive by p completes in this step: p calls MsgRcv, or was blocked in it, and is not
      waiting afterwards. */
  predicate Receives(s: State, e: Event, s': State, p: int) {
    At(s'.pcb, p).state != Waiting
    && ((e.Entry? && e.intr.MsgRcv? && s.running == p) || p in BoxAt(s.mbox, p).waiters)
  }

  /** What p finds in its message buffer when a receive completes. */
  function DeliveredAt(s: State, e: Event, s': State, p: int): seq<Msg> {
    if Receives(s, e, s', p) && 0 <= p < |s'.inbox| then [s'.inbox[p]] else []
  }

  /** PID p is given to a new process in this step. */
  predicate Reborn(s: State, s': State, p: int) {
    At(s.pcb, p).state == Free && At(s'.pcb, p).state != Free
  }

  lemma BoxWaiterIsOwner(s: State, p: int)
    requires Inv(s) && 0 <= p < MAX_PROC_NUM && s.mbox[p].waiters != []
    ensures s.mbox[p].waiters == [p] && IsPid(p) && s.pcb[p].state == Waiting && s.mbox[p].msgs == []
  {
    var w := s.mbox[p].waiters;
    forall y | y in w ensures y == p && IsPid(p) && s.pcb[p].state == Waiting {
      assert y in Q(s, InBox(p));
    }
    assert NoDup(Q(s, InBox(p))) && w[0] in w;
    assert forall k :: 0 <= k < |w| ==> w[k] in w;
    OnlyCopy(w, p);
  }

  lemma FirstTwoDiffer(q: seq<int>)
    requires NoDup(q)
    ensures |q| > 1 ==> q[0] != q[1]
  {
  }

  lemma OnlyCopy(q: seq<int>, x: int)
    requires NoDup(q) && q != [] && forall k :: 0 <= k < |q| ==> q[k] == x
    ensures q == [x]
  {
    FirstTwoDiffer(q);
  }

  /** A process still queued at its mailbox after the step has not received. */
  lemma StillWaiting(s: State, e: Event, s': State, p: int)
    requires Inv(s) && Inv(s') && 0 <= p < MAX_PROC_NUM && s'.mbox[p] == s.mbox[p]
    requires !(e.Entry? && e.intr.MsgRcv? && s.running == p)
    ensures DeliveredAt(s, e, s', p) == []
  {
    if s.mbox[p].waiters != [] {
      BoxWaiterIsOwner(s, p);
      BoxWaiterIsOwner(s', p);
    }
  }

  lemma SendConserves(s: State, e: Event, v: Variant, p: int)
    requires Inv(s) && 0 <= s.running && Sound(s, e, v) && Inv(Step(s, e, v))
    requires e.Entry? && e.intr.MsgSnd? && e.intr.msg.recipient == p
    ensures s.mbox[p].msgs + AcceptedAt(s, e, p)
         == DeliveredAt(s, e, Step(s, e, v), p) + BoxAt(Step(s, e, v).mbox, p).msgs
  {
    hide Partitioned, PagesOk, ExitOk, SemsOk, QuantaOk;
    var s' := Step(s, e, v);
    if s.mbox[p].waiters != [] {
      BoxWaiterIsOwner(s, p);
      assert s'.pcb[p].state != Waiting;
      assert s'.inbox[p] == e.intr.msg.(stamp := s.clock, sender := s.running);
    } else {
      assert !Receives(s, e, s', p);
    }
  }

  lemma ReceiveConserves(s: State, e: Event, v: Variant, p: int)
    requires Inv(s) && 0 <= s.running && Sound(s, e, v) && Inv(Step(s, e, v))
    requires e.Entry? && e.intr.MsgRcv? && s.running == p
    ensures s.mbox[p].msgs == DeliveredAt(s, e, Step(s, e, v), p) + BoxAt(Step(s, e, v).mbox, p).msgs
  {
    hide Partitioned, PagesOk, ExitOk, SemsOk, QuantaOk;
    var s', m := Step(s, e, v), s.mbox[p].msgs;
    if m != [] {
      assert m == [m[0]] + m[1..];
      assert s'.pcb[p].state == Running;
    } else {
      var s2 := MsgRcvCall(SaveFrame(s, e.frame));
      assert s2.mbox[p].waiters == s.mbox[p].waiters + [p];
      assert s'.mbox == s2.mbox;
      BoxWaiterIsOwner(s', p);
    }
  }

  /** Every other step leaves p's mailbox alone, unless it gives p's PID to a new process. */
  lemma OtherBoxes(s: State, e: Event, v: Variant, p: int)
    requires Inv(s) && 0 <= s.running && Sound(s, e, v) && 0 <= p < MAX_PROC_NUM
    requires !(e.Entry? && e.intr.MsgSnd? && e.intr.msg.recipient == p)
    requires !(e.Entry? && e.intr.MsgRcv? && s.running == p)
    requires !Reborn(s, Step(s, e, v), p)
    ensures BoxAt(Step(s, e, v).mbox, p) == BoxAt(s.mbox, p)
  {
    hide Partitioned, PagesOk, ExitOk, SemsOk, QuantaOk, BoxesOk;
    hide Irq3Call, SemPostCall, SemWaitCall, WakeDue, StartProcCall, ForkCall;
    if e.Entry? {
      var s1 := SaveFrame(s, e.frame);
      SaveFrameKeeps(s, e.frame);
      match e.intr {
        case Irq3(cause, data) => Irq3Boxes(s1, cause, data);
        case Irq7 => PostBoxes(s1, 0);
        case SemPost => PostBoxes(s1, e.frame.eax);
        case SemWait => WaitBoxes(s1, e.frame.eax);
        case Timer => TickBoxes(s1);
        case StartProc => StartBoxes(s1, p);
        case Fork => ForkBoxes(s1, p);
        case _ =>
      }
    }
  }

  lemma TickBoxes(s: State)
    ensures Tick(s).mbox == s.mbox
  {
  }

  lemma PostBoxes(s: State, id: int)
    ensures SemPostCall(s, id).mbox == s.mbox
  {
  }

  lemma WaitBoxes(s: State, id: int)
    ensures SemWaitCall(s, id).mbox == s.mbox
  {
  }

  lemma Irq3Boxes(s: State, cause: Cause, data: int)
    ensures Irq3Call(s, cause, data).mbox == s.mbox
  {
  }

  lemma StartBoxes(s: State, p: int)
    requires Inv(s) && 1 <= s.running && 0 <= p < MAX_PROC_NUM
    ensures Scheduler(StartProcCall(s)) == StartProcCall(s)
    ensures var s' := StartProcCall(s);
      BoxAt(s'.mbox, p) == if Reborn(s, s', p) then Mailbox([], []) else BoxAt(s.mbox, p)
  {
    if s.free != [] {
      HeadFits(s, InFree);
    }
  }

  lemma ForkBoxes(s: State, p: int)
    requires Inv(s) && 1 <= s.running && 0 <= p < MAX_PROC_NUM
    ensures Scheduler(ForkCall(s)) == ForkCall(s)
    ensures BoxAt(ForkCall(s).mbox, p) == if Reborn(s, ForkCall(s), p) then Mailbox([], []) else BoxAt(s.mbox, p)
  {
    if s.free != [] {
      ForkGives(s);
    }
  }

  /** One step: the ring's contents and what was accepted are, in order, what was delivered and
      the ring's new contents. */
  lemma StepConserves(s: State, e: Event, v: Variant, p: int)
    requires Inv(s) && 0 <= s.running && Sound(s, e, v) && 0 <= p < MAX_PROC_NUM
    requires !Reborn(s, Step(s, e, v), p)
    ensures BoxAt(s.mbox, p).msgs + AcceptedAt(s, e, p)
         == DeliveredAt(s, e, Step(s, e, v), p) + BoxAt(Step(s, e, v).mbox, p).msgs
  {
    hide Partitioned, PagesOk, ExitOk, SemsOk, QuantaOk, BoxesOk, Step, Reborn;
    StepKeeps(s, e, v);
    if e.Entry? && e.intr.MsgSnd? && e.intr.msg.recipient == p {
      SendConserves(s, e, v, p);
    } else if e.Entry? && e.intr.MsgRcv? && s.running == p {
      ReceiveConserves(s, e, v, p);
    } else {
      OtherBoxes(s, e, v, p);
      StillWaiting(s, e, Step(s, e, v), p);
    }
  }

  lemma ServeReborn(s: State, intr: Interrupt, v: Variant, p: int)
    requires Inv(s) && 0 <= s.running && Enabled(s, Entry(intr, s.pcb[s.running].frame)) && IsPid(p)
    requires Reborn(s, Serve(s, intr, v), p)
    ensures BoxAt(Serve(s, intr, v).mbox, p) == Mailbox([], [])
  {
    hide Partitioned, PagesOk, ExitOk, SemsOk, QuantaOk, BoxesOk;
    hide Irq3Call, SemPostCall, MsgSndCall, Tick, StartProcCall, ForkCall;
    if 1 <= s.running {
      StartBoxes(s, p);
      ForkBoxes(s, p);
    }
    ServeBystander(s, intr, v, p);
  }

  /** A new process starts with an empty mailbox. */
  lemma RebornEmpty(s: State, e: Event, v: Variant, p: int)
    requires Inv(s) && 0 <= s.running && Sound(s, e, v) && IsPid(p) && Reborn(s, Step(s, e, v), p)
    ensures BoxAt(Step(s, e, v).mbox, p) == Mailbox([], [])
  {
    hide Partitioned, PagesOk, ExitOk, SemsOk, QuantaOk, BoxesOk, Serve;
    var s1 := SaveFrame(s, e.frame);
    SaveFrameKeeps(s, e.frame);
    ServeKeeps(s1, e.intr, v);
    SchedulerTouches(Serve(s1, e.intr, v));
    ServeReborn(s1, e.intr, v, p);
  }

  lemma ServeInbox(s: State, intr: Interrupt, v: Variant, p: int)
    requires Inv(s) && 0 <= s.running && Enabled(s, Entry(intr, s.pcb[s.running].frame)) && IsPid(p)
    requires Shape(Serve(s, intr, v)) && Serve(s, intr, v).inbox[p] != s.inbox[p]
    ensures At(Serve(s, intr, v).pcb, p).state != Waiting
    ensures (intr.MsgRcv? && s.running == p) || p in BoxAt(s.mbox, p).waiters
  {
    hide Partitioned, PagesOk, ExitOk, SemsOk, QuantaOk;
    hide Irq3Call, SemPostCall, Tick, WaitCall, ForkCall, StartAt;
    InboxAlone(s, intr, v);
    if intr.MsgSnd? && s.mbox[intr.msg.recipient].waiters != [] {
      BoxWaiterIsOwner(s, intr.msg.recipient);
    }
  }

  lemma InboxAlone(s: State, intr: Interrupt, v: Variant)
    ensures !intr.MsgSnd? && !intr.MsgRcv? ==> Serve(s, intr, v).inbox == s.inbox
  {
    hide ZombiePage, ForkFails;
  }

  /** A message buffer changes only when its process receives. */
  lemma InboxKept(s: State, e: Event, v: Variant, p: int)
    requires Inv(s) && 0 <= s.running && Sound(s, e, v) && IsPid(p)
    ensures Shape(Step(s, e, v))
    ensures !Receives(s, e, Step(s, e, v), p) ==> Step(s, e, v).inbox[p] == s.inbox[p]
  {
    hide Partitioned, PagesOk, ExitOk, SemsOk, QuantaOk, BoxesOk, Serve;
    if e.Entry? {
      var s1 := SaveFrame(s, e.frame);
      SaveFrameKeeps(s, e.frame);
      ServeKeeps(s1, e.intr, v);
      SchedulerTouches(Serve(s1, e.intr, v));
      if Serve(s1, e.intr, v).inbox[p] != s1.inbox[p] {
        ServeInbox(s1, e.intr, v, p);
      }
    }
  }

  // Over runs

  function Accepted(s: State, es: seq<Event>, v: Variant, p: int): seq<Msg>
    decreases |es|
  {
    if es == [] then [] else AcceptedAt(s, es[0], p) + Accepted(Step(s, es[0], v), es[1..], v, p)
  }

  function Delivered(s: State, es: seq<Event>, v: Variant, p: int): seq<Msg>
    decreases |es|
  {
    if es == [] then []
    else DeliveredAt(s, es[0], Step(s, es[0], v), p) + Delivered(Step(s, es[0], v), es[1..], v, p)
  }

  /** p is the same process throughout the run. */
  predicate SameProcess(s: State, es: seq<Event>, v: Variant, p: int)
    decreases |es|
  {
    es == [] || (!Reborn(s, Step(s, es[0], v), p) && SameProcess(Step(s, es[0], v), es[1..], v, p))
  }

  /** Exactly once and in order, for each life of a process. */
  lemma {:induction false} ExactlyOnceInOrder(s: State, es: seq<Event>, v: Variant, p: int)
    requires Inv(s) && 0 <= s.running && SoundRun(s, es, v) && 0 <= p < MAX_PROC_NUM
    requires SameProcess(s, es, v, p)
    ensures BoxAt(s.mbox, p).msgs + Accepted(s, es, v, p)
         == Delivered(s, es, v, p) + BoxAt(Run(s, es, v).mbox, p).msgs
    decreases |es|
  {
    hide Step, Inv, AcceptedAt, DeliveredAt, Sound, Reborn;
    if es != [] {
      var s' := Step(s, es[0], v);
      StepKeeps(s, es[0], v);
      StepConserves(s, es[0], v, p);
      ExactlyOnceInOrder(s', es[1..], v, p);
      Rebracket(BoxAt(s.mbox, p).msgs, AcceptedAt(s, es[0], p), Accepted(s', es[1..], v, p),
                DeliveredAt(s, es[0], s', p), BoxAt(s'.mbox, p).msgs,
                Delivered(s', es[1..], v, p), BoxAt(Run(s, es, v).mbox, p).msgs);
    }
  }
}
