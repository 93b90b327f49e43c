/** Semaphores over whole runs: first come, first granted, and nothing lost or invented. */
module Semaphores {
  import opened Params
  import opened Sequences
  import opened Port
  import opened KernelState
  import opened Partition
  import opened Pages
  import opened Invariant
  import opened Lifecycle
  import opened Bystanders
  import opened Runs

  /** The process that asks for semaphore id in this step. */
  function RequestsAt(s: State, e: Event, id: int): seq<int> {
    if e.Entry? && e.intr.SemWait? && e.frame.eax == id then [s.running] else []
  }

  /** Posts to semaphore id in this step: by SemPost, by the printer interrupt (which posts
      semaphore 0), one for each character taken from TX_buffer and one for each received. */
  function PostsAt(s: State, e: Event, s': State, id: int): int {
    if !e.Entry? then 0
    else match e.intr
      case SemPost => if e.frame.eax == id then 1 else 0
      case Irq7 => if id == 0 then 1 else 0
      case Irq3(cause, data) =>
        (if id == s.port.txSem then |s.port.tx| - |s'.port.tx| else 0)
        + (if cause == RxReady && id == s.port.rxSem then 1 else 0)
      case _ => 0
  }

  /** The front of the line that is no longer waiting. */
  function Freed(t: seq<Pcb>, line: seq<int>): seq<int> {
    if line == [] || At(t, line[0]).state == Waiting then [] else [line[0]] + Freed(t, line[1..])
  }

  function Line(s: State, e: Event, id: int): seq<int> {
    SemAt(s.sem, id).waiters + RequestsAt(s, e, id)
  }

  /** The processes granted semaphore id in this step. */
  function GrantsAt(s: State, e: Event, s': State, id: int): seq<int> {
    Freed(s'.pcb, Line(s, e, id))
  }

  /** In s' the first n of the line have stopped waiting, the rest are the queue, and the count is
      `count` with the posts added and the grants taken off. */
  predicate Advanced(count: int, s': State, line: seq<int>, n: nat, id: int, posts: int) {
    n <= |line| && SemAt(s'.sem, id).waiters == line[n..]
    && SemAt(s'.sem, id).limit + n == count + posts
    && (forall k :: 0 <= k < n ==> At(s'.pcb, line[k]).state != Waiting)
  }

  ghost predicate Advances(count: int, s': State, line: seq<int>, id: int, posts: int) {
    exists n: nat :: Advanced(count, s', line, n, id, posts)
  }

  lemma PostAdvances(s: State, at: int, id: int)
    requires Inv(s) && 0 <= at < Q_LEN && 0 <= id < Q_LEN
    ensures Advances(SemAt(s.sem, id).limit, SemPostCall(s, at), s.sem[id].waiters, id, if at == id then 1 else 0)
  {
    var s', w := SemPostCall(s, at), s.sem[id].waiters;
    var n := if at == id && w != [] then 1 else 0;
    if n == 1 {
      HeadFits(s, InSem(id));
    }
    assert Advanced(SemAt(s.sem, id).limit, s', w, n, id, if at == id then 1 else 0);
  }

  /** Two stretches of progress on one line make one, when those freed first stay freed. */
  lemma AdvancesTrans(s: State, s1: State, s2: State, id: int, p1: int, p2: int)
    requires Advances(SemAt(s.sem, id).limit, s1, SemAt(s.sem, id).waiters, id, p1)
    requires Advances(SemAt(s1.sem, id).limit, s2, SemAt(s1.sem, id).waiters, id, p2)
    requires forall p :: p in SemAt(s.sem, id).waiters && At(s1.pcb, p).state != Waiting ==>
      At(s2.pcb, p).state != Waiting
    ensures Advances(SemAt(s.sem, id).limit, s2, SemAt(s.sem, id).waiters, id, p1 + p2)
  {
    hide SemAt, At;
    var w, w1 := SemAt(s.sem, id).waiters, SemAt(s1.sem, id).waiters;
    var n1: nat :| Advanced(SemAt(s.sem, id).limit, s1, w, n1, id, p1);
    var n2: nat :| Advanced(SemAt(s1.sem, id).limit, s2, w1, n2, id, p2);
    DropTwice(w, n1, w1, n2);
    forall k | 0 <= k < n1 + n2 ensures At(s2.pcb, w[k]).state != Waiting {
      if n1 <= k {
        assert w1[k - n1] == w[k];
      } else {
        assert w[k] in w;
      }
    }
    assert Advanced(SemAt(s.sem, id).limit, s2, w, n1 + n2, id, p1 + p2);
  }

  lemma DropTwice(w: seq<int>, n: nat, r: seq<int>, m: nat)
    requires n <= |w| && r == w[n..] && m <= |r|
    ensures r[m..] == w[n + m..]
    ensures forall k :: n <= k < |w| ==> r[k - n] == w[k]
  {
  }

  lemma TxAdvances(s: State, id: int)
    requires Inv(s) && 0 <= id < Q_LEN
    ensures var posts := if id == s.port.txSem then |s.port.tx| - |Tx(s).port.tx| else 0;
      Advances(SemAt(s.sem, id).limit, Tx(s), s.sem[id].waiters, id, posts)
    ensures Tx(s).port.txSem == s.port.txSem && Tx(s).port.rxSem == s.port.rxSem
  {
    hide Partitioned, PagesOk, ExitOk, SemsOk, BoxesOk, QuantaOk, Advances;
    var s1 := s.(port := TxPort(s.port));
    PortKeeps(s, TxPort(s.port));
    if TxPosts(s.port) {
      PostAdvances(s1, s.port.txSem, id);
    } else {
      NoAdvance(s, Tx(s), id);
    }
  }

  lemma RxAdvances(s: State, data: int, id: int)
    requires Inv(s) && 0 <= id < Q_LEN
    ensures Advances(SemAt(s.sem, id).limit, Rx(s, data), s.sem[id].waiters, id, if id == s.port.rxSem then 1 else 0)
    ensures Rx(s, data).port.txSem == s.port.txSem && Rx(s, data).port.tx == s.port.tx
  {
    hide Partitioned, PagesOk, ExitOk, SemsOk, BoxesOk, QuantaOk, Advances, RxPort;
    var s1 := s.(port := RxPort(s.port, data));
    RxPortOk(s.port, data);
    PortKeeps(s, RxPort(s.port, data));
    PostAdvances(s1, s.port.rxSem, id);
  }

  lemma RxPortOk(p: Port, data: int)
    requires PortOk(p)
    ensures PortOk(RxPort(p, data)) && RxPort(p, data).txSem == p.txSem && RxPort(p, data).tx == p.tx
  {
  }

  lemma TxAgain(s: State, s1: State, id: int, posts: int)
    requires Inv(s) && Inv(s1) && 0 <= id < Q_LEN
    requires Advances(SemAt(s.sem, id).limit, s1, s.sem[id].waiters, id, posts)
    ensures var more := if id == s1.port.txSem then |s1.port.tx| - |Tx(s1).port.tx| else 0;
      Advances(SemAt(s.sem, id).limit, Tx(s1), s.sem[id].waiters, id, posts + more)
  {
    hide Tx, Advances, PagesOk, ExitOk, SemsOk, BoxesOk, QuantaOk;
    var more := if id == s1.port.txSem then |s1.port.tx| - |Tx(s1).port.tx| else 0;
    TxAdvances(s1, id);
    forall p | p in s.sem[id].waiters && At(s1.pcb, p).state != Waiting ensures At(Tx(s1).pcb, p).state != Waiting {
      assert p in Q(s, InSem(id));
      TxBystander(s1, p);
    }
    AdvancesTrans(s, s1, Tx(s1), id, posts, more);
  }

  lemma Irq3Advances(s: State, cause: Cause, data: int, f: Frame, id: int)
    requires Inv(s) && 0 <= id < Q_LEN
    ensures var s' := Irq3Call(s, cause, data);
      Advances(SemAt(s.sem, id).limit, s', s.sem[id].waiters, id, PostsAt(s, Entry(Irq3(cause, data), f), s', id))
  {
    hide Tx, Rx, Advances, Partitioned, PagesOk, ExitOk, SemsOk, BoxesOk, QuantaOk;
    match cause {
      case TxReady =>
        TxAdvances(s, id);
        TxKeeps(s);
        TxAgain(s, Tx(s), id, if id == s.port.txSem then |s.port.tx| - |Tx(s).port.tx| else 0);
      case RxReady =>
        RxAdvances(s, data, id);
        RxBystander(s, data, 1);
        TxAgain(s, Rx(s, data), id, if id == s.port.rxSem then 1 else 0);
      case OtherCause =>
        TxAdvances(s, id);
        NoAdvance(s, s, id);
    }
  }

  lemma LinePids(s: State, e: Event, id: int)
    requires Inv(s) && Enabled(s, e) && 0 <= id < Q_LEN
    ensures forall p :: p in Line(s, e, id) ==> IsPid(p)
  {
    forall p | p in Line(s, e, id) ensures IsPid(p) {
      assert p in Q(s, InSem(id)) || p == s.running;
    }
  }

  lemma NoAdvance(s: State, s': State, id: int)
    requires SemAt(s'.sem, id) == SemAt(s.sem, id)
    ensures Advances(SemAt(s.sem, id).limit, s', SemAt(s.sem, id).waiters, id, 0)
  {
    assert Advanced(SemAt(s.sem, id).limit, s', SemAt(s.sem, id).waiters, 0, id, 0);
  }

  lemma SemWaitAdvances(s: State, at: int, id: int)
    requires Inv(s) && 1 <= s.running && 0 <= at < Q_LEN && 0 <= id < Q_LEN
    ensures var line := s.sem[id].waiters + (if at == id then [s.running] else []);
      Advances(SemAt(s.sem, id).limit, SemWaitCall(s, at), line, id, 0)
  {
    var s', line := SemWaitCall(s, at), s.sem[id].waiters + (if at == id then [s.running] else []);
    var n := if at == id && s.sem[id].limit > 0 then 1 else 0;
    assert Advanced(SemAt(s.sem, id).limit, s', line, n, id, 0);
  }

  lemma ServeAdvances(s: State, intr: Interrupt, f: Frame, v: Variant, id: int)
    requires Inv(s) && 0 <= s.running && s.pcb[s.running].frame == f
    requires Enabled(s, Entry(intr, f)) && 0 <= id < Q_LEN && id !in s.semFree
    ensures var e, s' := Entry(intr, f), Serve(s, intr, v);
      Advances(SemAt(s.sem, id).limit, s', Line(s, e, id), id, PostsAt(s, e, s', id)) && id !in s'.semFree
  {
    hide Advances, Partitioned, PagesOk, ExitOk, BoxesOk, QuantaOk;
    hide Irq3Call, SemPostCall, SemWaitCall, WakeDue;
    assert Line(s, Entry(intr, f), id) == s.sem[id].waiters || intr.SemWait?;
    match intr {
      case Irq3(cause, data) =>
        Irq3Advances(s, cause, data, f, id);
        Irq3Sems(s, cause, data);
      case Irq7 =>
        PostAdvances(s, 0, id);
        PostSems(s, 0);
      case SemPost =>
        PostAdvances(s, f.eax, id);
        PostSems(s, f.eax);
      case SemWait =>
        SemWaitAdvances(s, f.eax, id);
        WaitSems(s, f.eax);
      case Timer =>
        TickSems(s);
        NoAdvance(s, Tick(s), id);
      case _ => NoAdvance(s, Serve(s, intr, v), id);
    }
  }

  lemma TickSems(s: State)
    ensures Tick(s).sem == s.sem && Tick(s).semFree == s.semFree
  {
  }

  lemma PostSems(s: State, at: int)
    ensures SemPostCall(s, at).semFree == s.semFree
  {
  }

  lemma WaitSems(s: State, at: int)
    ensures SemWaitCall(s, at).semFree == s.semFree
  {
  }

  lemma Irq3Sems(s: State, cause: Cause, data: int)
    ensures Irq3Call(s, cause, data).semFree == s.semFree
  {
  }

  /** In a state where the rest of the line is queued, "no longer waiting" picks out exactly n. */
  lemma {:induction false} FreedPrefix(t: seq<Pcb>, line: seq<int>, n: nat)
    requires n <= |line|
    requires forall k :: 0 <= k < n ==> At(t, line[k]).state != Waiting
    requires n < |line| ==> At(t, line[n]).state == Waiting
    ensures Freed(t, line) == line[..n]
  {
    if n > 0 {
      FreedPrefix(t, line[1..], n - 1);
      assert line[..n] == [line[0]] + line[1..][..n - 1];
    }
  }

  /** One step: the line for the semaphore is the processes granted, in order, followed by the new
      queue; and the count moves by posts less grants. */
  lemma StepConserves(s: State, e: Event, v: Variant, id: int)
    requires Inv(s) && 0 <= s.running && Sound(s, e, v) && 0 <= id < Q_LEN && id !in s.semFree
    ensures var s' := Step(s, e, v);
      Line(s, e, id) == GrantsAt(s, e, s', id) + SemAt(s'.sem, id).waiters
      && SemAt(s'.sem, id).limit + |GrantsAt(s, e, s', id)| == SemAt(s.sem, id).limit + PostsAt(s, e, s', id)
      && id !in s'.semFree
  {
    hide Advances, Serve, Scheduler, Partitioned, PagesOk, ExitOk, SemsOk, BoxesOk, QuantaOk;
    StepKeeps(s, e, v);
    match e {
      case UserPort(_) =>
        NoAdvance(s, Step(s, e, v), id);
        assert Line(s, e, id) == SemAt(s.sem, id).waiters;
        AdvancedIsFreed(s, e, Step(s, e, v), id, 0);
      case Entry(intr, f) =>
        var s1 := SaveFrame(s, f);
        SaveFrameKeeps(s, f);
        ServeAdvances(s1, intr, f, v, id);
        ServeKeeps(s1, intr, v);
        StepPosts(s, e, v, id);
        LinePids(s, e, id);
        SchedulerAdvances(s1, Serve(s1, intr, v), Line(s, e, id), id, PostsAt(s1, e, Serve(s1, intr, v), id));
        AdvancedIsFreed(s, e, Step(s, e, v), id, PostsAt(s, e, Step(s, e, v), id));
    }
  }

  lemma StepPosts(s: State, e: Event, v: Variant, id: int)
    requires e.Entry?
    ensures var s1 := SaveFrame(s, e.frame);
      PostsAt(s1, e, Serve(s1, e.intr, v), id) == PostsAt(s, e, Step(s, e, v), id)
      && SemAt(s1.sem, id) == SemAt(s.sem, id) && Line(s1, e, id) == Line(s, e, id)
  {
    hide Serve;
  }

  lemma SchedulerAdvances(s: State, s2: State, line: seq<int>, id: int, posts: int)
    requires Partitioned(s2) && Advances(SemAt(s.sem, id).limit, s2, line, id, posts)
    requires forall p :: p in line ==> IsPid(p)
    ensures Advances(SemAt(s.sem, id).limit, Scheduler(s2), line, id, posts) && Scheduler(s2).semFree == s2.semFree
  {
    hide Partitioned;
    SchedulerTouches(s2);
    var n: nat :| Advanced(SemAt(s.sem, id).limit, s2, line, n, id, posts);
    assert Advanced(SemAt(s.sem, id).limit, Scheduler(s2), line, n, id, posts);
  }

  lemma AdvancedIsFreed(s: State, e: Event, s': State, id: int, posts: int)
    requires Inv(s') && 0 <= id < Q_LEN && Advances(SemAt(s.sem, id).limit, s', Line(s, e, id), id, posts)
    ensures Line(s, e, id) == GrantsAt(s, e, s', id) + SemAt(s'.sem, id).waiters
    ensures SemAt(s'.sem, id).limit + |GrantsAt(s, e, s', id)| == SemAt(s.sem, id).limit + posts
  {
    hide Inv, At, SemAt, Line;
    var line, w := Line(s, e, id), SemAt(s'.sem, id).waiters;
    var n: nat :| Advanced(SemAt(s.sem, id).limit, s', line, n, id, posts);
    QueueWaits(s', id);
    DropTwice(line, n, w, 0);
    FreedPrefix(s'.pcb, line, n);
    assert line == line[..n] + line[n..];
  }

  lemma QueueWaits(s: State, id: int)
    requires Inv(s) && 0 <= id < Q_LEN
    ensures var w := SemAt(s.sem, id).waiters; w != [] ==> At(s.pcb, w[0]).state == Waiting
  {
    hide PagesOk, ExitOk, SemsOk, BoxesOk, QuantaOk;
    if Q(s, InSem(id)) != [] {
      HeadFits(s, InSem(id));
    }
  }

  // Over runs

  function Requests(s: State, es: seq<Event>, v: Variant, id: int): seq<int>
    decreases |es|
  {
    if es == [] then [] else RequestsAt(s, es[0], id) + Requests(Step(s, es[0], v), es[1..], v, id)
  }

  function Grants(s: State, es: seq<Event>, v: Variant, id: int): seq<int>
    decreases |es|
  {
    if es == [] then []
    else GrantsAt(s, es[0], Step(s, es[0], v), id) + Grants(Step(s, es[0], v), es[1..], v, id)
  }

  function Posts(s: State, es: seq<Event>, v: Variant, id: int): int
    decreases |es|
  {
    if es == [] then 0
    else PostsAt(s, es[0], Step(s, es[0], v), id) + Posts(Step(s, es[0], v), es[1..], v, id)
  }

  /** Conservation and order over every run: the waiters at the start and the requests made since
      are, in order, the grants followed by the waiters now; count + grants == count + posts. */
  lemma {:induction false} FirstComeFirstGranted(s: State, es: seq<Event>, v: Variant, id: int)
    requires Inv(s) && 0 <= s.running && SoundRun(s, es, v) && 0 <= id < Q_LEN && id !in s.semFree
    ensures SemAt(s.sem, id).waiters + Requests(s, es, v, id)
         == Grants(s, es, v, id) + SemAt(Run(s, es, v).sem, id).waiters
    ensures SemAt(Run(s, es, v).sem, id).limit + |Grants(s, es, v, id)|
         == SemAt(s.sem, id).limit + Posts(s, es, v, id)
    decreases |es|
  {
    hide Step, Inv, GrantsAt, RequestsAt, PostsAt, Sound;
    if es != [] {
      var s' := Step(s, es[0], v);
      StepKeeps(s, es[0], v);
      StepConserves(s, es[0], v, id);
      FirstComeFirstGranted(s', es[1..], v, id);
      Rebracket(SemAt(s.sem, id).waiters, RequestsAt(s, es[0], id), Requests(s', es[1..], v, id),
                GrantsAt(s, es[0], s', id), SemAt(s'.sem, id).waiters,
                Grants(s', es[1..], v, id), SemAt(Run(s, es, v).sem, id).waiters);
    }
  }

  // Identifiers

  /** The id a SemGet call returns in this step, if it returns one. */
  function IdsAt(s: State, e: Event, s': State): seq<int> {
    var id := At(s'.pcb, s.running).frame.ebx;
    if e.Entry? && e.intr.SemGet? && id != -1 then [id] else []
  }

  function Ids(s: State, es: seq<Event>, v: Variant): seq<int>
    decreases |es|
  {
    if es == [] then [] else IdsAt(s, es[0], Step(s, es[0], v)) + Ids(Step(s, es[0], v), es[1..], v)
  }

  lemma StepIds(s: State, e: Event, v: Variant)
    requires Inv(s) && 0 <= s.running && Sound(s, e, v)
    ensures s.semFree == IdsAt(s, e, Step(s, e, v)) + Step(s, e, v).semFree
  {
    hide Partitioned, PagesOk, ExitOk, BoxesOk, QuantaOk, Irq3Call, SemPostCall, SemWaitCall, WakeDue;
    if e.Entry? {
      match e.intr {
        case Irq3(cause, data) => Irq3Sems(SaveFrame(s, e.frame), cause, data);
        case Irq7 => PostSems(SaveFrame(s, e.frame), 0);
        case SemPost => PostSems(SaveFrame(s, e.frame), e.frame.eax);
        case SemWait => WaitSems(SaveFrame(s, e.frame), e.frame.eax);
        case Timer => TickSems(SaveFrame(s, e.frame));
        case SemGet =>
          if s.semFree != [] {
            assert s.semFree[0] in s.semFree;
          }
        case _ =>
      }
    }
  }

  /** The ids still free at the start are those handed out since, in order, then those free now. */
  lemma {:induction false} IdsAreDistinct(s: State, es: seq<Event>, v: Variant)
    requires Inv(s) && 0 <= s.running && SoundRun(s, es, v)
    ensures s.semFree == Ids(s, es, v) + Run(s, es, v).semFree
    decreases |es|
  {
    hide Step, Inv, IdsAt, Sound;
    if es != [] {
      StepKeeps(s, es[0], v);
      StepIds(s, es[0], v);
      IdsAreDistinct(Step(s, es[0], v), es[1..], v);
    }
  }

  /** From boot SemGet hands out 0, 1, 2, ... up to 19, each once. */
  lemma IdsFromBoot(t: int, es: seq<Event>, v: Variant)
    requires SoundRun(Boot(t), es, v)
    ensures |Ids(Boot(t), es, v)| <= Q_LEN && Ids(Boot(t), es, v) == Interval(0, |Ids(Boot(t), es, v)|)
  {
    hide Ids, Run;
    BootInv(t);
    IdsAreDistinct(Boot(t), es, v);
    assert Boot(t).semFree == Interval(0, Q_LEN);
    var ids := Ids(Boot(t), es, v);
    assert ids == Interval(0, Q_LEN)[..|ids|];
  }
}
