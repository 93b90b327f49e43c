/** Kernel runs in which processes 4 and 5 follow StdinProc and StdoutProc: each is a run of the
    terminal protocol, so what is proved of the protocol holds of the kernel. */
module TerminalRuns {
  import opened Params
  import opened Port
  import opened KernelState
  import opened Partition
  import opened Pages
  import opened Invariant
  import opened Lifecycle
  import opened Runs
  import opened Semaphores
  import opened Serial
  import opened SerialTraffic
  import opened TerminalLink

  /** What may happen next: a kernel entry that does not concern the terminal, a serial interrupt,
      the next step of either process, or the shell switching the echo. */
  datatype Move =
    | Elsewhere(intr: Interrupt, frame: Frame)
    | Device(cause: Cause, data: int, frame: Frame)
    | Out(text: seq<int>, cause: Cause, data: int, frame: Frame)
    | In(frame: Frame)
    | SwitchEcho(on: bool)

  /** The entry touches neither the port nor its semaphores. The printer interrupt does, where the
      port has semaphore 0. */
  predicate Aside(p: Port, intr: Interrupt, frame: Frame) {
    !intr.Irq3?
    && (intr.SemWait? || intr.SemPost? ==> frame.eax != p.txSem && frame.eax != p.rxSem)
    && (intr.Irq7? ==> 0 != p.txSem && 0 != p.rxSem)
  }

  /** The protocol action of a move. */
  function ActOf(m: Move): seq<Action> {
    match m
    case Elsewhere(_, _) => []
    case Device(cause, data, _) => [Interrupt(cause, data)]
    case Out(text, cause, data, _) => [OutStep(text, cause, data)]
    case In(_) => [InStep]
    case SwitchEcho(on) => [SetEcho(on)]
  }

  /** What the kernel sees of a move: a system call, an interrupt, a write to the port record, or
      nothing where a process only works on its own memory. */
  function EventOf(k: State, s: Serial, m: Move): seq<Event> {
    match m
    case Elsewhere(intr, frame) => [Entry(intr, frame)]
    case Device(cause, data, frame) => [Entry(Irq3(cause, data), frame)]
    case Out(_, cause, data, frame) =>
      (match s.out
       case OutWait => [Entry(SemWait, frame)]
       case OutWaitCr => [Entry(SemWait, frame)]
       case OutPut => [UserPort(k.port.(tx := Push(k.port.tx, if s.rest == [] then 0 else s.rest[0])))]
       case OutPutCr => [UserPort(k.port.(tx := Push(k.port.tx, CR)))]
       case OutTip => [Entry(Irq3(cause, data), frame)]
       case _ => [])
    case In(frame) =>
      (match s.inp
       case InWait => [Entry(SemWait, frame)]
       case InGet => [UserPort(k.port.(rx := if k.port.rx == [] then [] else k.port.rx[1..]))]
       case _ => [])
    case SwitchEcho(on) => [UserPort(k.port.(echoOn := on))]
  }

  /** A process moves only while it runs, and its waits name the port's semaphores. */
  predicate Legal(k: State, s: Serial, m: Move, v: Variant) {
    match m
    case Elsewhere(intr, frame) => Sound(k, Entry(intr, frame), v) && Aside(k.port, intr, frame)
    case Out(text, _, _, frame) =>
      k.running == STDOUT && NonNul(text)
      && (s.out == OutWait || s.out == OutWaitCr ==> frame.eax == k.port.txSem)
    case In(frame) => k.running == STDIN && (s.inp == InWait ==> frame.eax == k.port.rxSem)
    case _ => true
  }

  function Acts(ms: seq<Move>): seq<Action> {
    if ms == [] then [] else ActOf(ms[0]) + Acts(ms[1..])
  }

  function Events(k: State, s: Serial, ms: seq<Move>, v: Variant): seq<Event>
    decreases |ms|
  {
    if ms == [] then []
    else
      var es := EventOf(k, s, ms[0]);
      es + Events(Run(k, es, v), RunAll(s, ActOf(ms[0])), ms[1..], v)
  }

  predicate LegalRun(k: State, s: Serial, ms: seq<Move>, v: Variant)
    decreases |ms|
  {
    ms == [] ||
    (Legal(k, s, ms[0], v)
     && LegalRun(Run(k, EventOf(k, s, ms[0]), v), RunAll(s, ActOf(ms[0])), ms[1..], v))
  }

  /** Kernel and protocol agree, and the port's semaphores are allocated. */
  ghost predicate Joint(k: State, s: Serial) {
    Inv(k) && 0 <= k.running && Shows(k, s) && k.port.txSem !in k.semFree && k.port.rxSem !in k.semFree
  }

  /** The parts of the kernel that the protocol shows. */
  predicate SameView(k: State, k': State) {
    k'.port == k.port && |k'.sem| == |k.sem|
    && SemAt(k'.sem, k.port.txSem) == SemAt(k.sem, k.port.txSem)
    && SemAt(k'.sem, k.port.rxSem) == SemAt(k.sem, k.port.rxSem)
  }

  lemma ServeAside(k: State, intr: Interrupt, v: Variant)
    requires Inv(k) && 0 <= k.running && Enabled(k, Entry(intr, k.pcb[k.running].frame))
    requires Aside(k.port, intr, k.pcb[k.running].frame)
    requires k.port.txSem !in k.semFree && k.port.rxSem !in k.semFree
    ensures SameView(k, Serve(k, intr, v))
  {
    hide Partitioned, PagesOk, ExitOk, SemsOk, BoxesOk, QuantaOk;
    match intr {
      case Timer => TickView(k);
      case SemGet => assert k.semFree != [] ==> k.semFree[0] in k.semFree;
      case Wait(below) => WaitView(k, below, v);
      case _ =>
    }
  }

  lemma TickView(k: State)
    ensures Tick(k).port == k.port && Tick(k).sem == k.sem
  {
  }

  lemma WaitView(k: State, below: Pcb, v: Variant)
    requires |k.owner| == DRAM_PAGE_COUNT
    ensures WaitCall(k, below, v).port == k.port && WaitCall(k, below, v).sem == k.sem
  {
  }

  lemma EntryView(k: State, frame: Frame)
    ensures SaveFrame(k, frame).port == k.port && SaveFrame(k, frame).sem == k.sem
    ensures SaveFrame(k, frame).semFree == k.semFree && SaveFrame(k, frame).running == k.running
    ensures Scheduler(k).port == k.port && Scheduler(k).sem == k.sem
  {
  }

  /** A running process waits for nothing. */
  lemma RunnerWaitsNot(k: State, id: int)
    requires Inv(k) && 1 <= k.running && 0 <= id < Q_LEN
    ensures k.running !in k.sem[id].waiters
  {
    hide PagesOk, ExitOk, SemsOk, BoxesOk, QuantaOk;
    var p := k.running;
    assert p in Q(k, InSem(id)) ==> Fits(k.pcb[p].state, InSem(id), p);
  }

  /** A step of the kernel, and what is left of the joint invariant to show. */
  lemma StepJoint(k: State, e: Event, v: Variant, s': Serial)
    requires Inv(k) && 0 <= k.running && Sound(k, e, v)
    requires k.port.txSem !in k.semFree && k.port.rxSem !in k.semFree
    requires Shows(Step(k, e, v), s') && s'.port.txSem == k.port.txSem && s'.port.rxSem == k.port.rxSem
    ensures Joint(Step(k, e, v), s')
  {
    hide Inv, Step, Sound;
    StepKeeps(k, e, v);
    StepIds(k, e, v);
  }

  lemma ElsewhereShows(k: State, s: Serial, intr: Interrupt, frame: Frame, v: Variant)
    requires Joint(k, s) && Sound(k, Entry(intr, frame), v) && Aside(k.port, intr, frame)
    ensures Joint(Step(k, Entry(intr, frame), v), s)
  {
    hide Partitioned, PagesOk, ExitOk, SemsOk, BoxesOk, QuantaOk, Serve, Scheduler;
    var k1 := SaveFrame(k, frame);
    SaveFrameKeeps(k, frame);
    EntryView(k, frame);
    ServeAside(k1, intr, v);
    EntryView(Serve(k1, intr, v), frame);
    StepJoint(k, Entry(intr, frame), v, s);
  }

  lemma HandlerPort(s: Serial, cause: Cause, data: int)
    ensures Irq(s, cause, data).port.txSem == s.port.txSem && Irq(s, cause, data).port.rxSem == s.port.rxSem
  {
    hide TxPort, RxPort;
    SamePorts(s.port, data);
    SamePorts(AfterCause(s, cause, data).port, data);
  }

  lemma SamePorts(p: Port, data: int)
    ensures TxPort(p).txSem == p.txSem && TxPort(p).rxSem == p.rxSem
    ensures RxPort(p, data).txSem == p.txSem && RxPort(p, data).rxSem == p.rxSem
  {
  }

  lemma DeviceShows(k: State, s: Serial, cause: Cause, data: int, frame: Frame, v: Variant)
    requires Joint(k, s)
    ensures Joint(Step(k, Entry(Irq3(cause, data), frame), v), Irq(s, cause, data))
    ensures Sound(k, Entry(Irq3(cause, data), frame), v)
  {
    hide Inv, Irq, Irq3Call, Scheduler;
    var k1 := SaveFrame(k, frame);
    EntryView(k, frame);
    Irq3Shows(k1, s, cause, data);
    EntryView(Irq3Call(k1, cause, data), frame);
    HandlerPort(s, cause, data);
    StepJoint(k, Entry(Irq3(cause, data), frame), v, Irq(s, cause, data));
  }

  lemma WaitMoves(k: State, s: Serial, frame: Frame, v: Variant)
    requires Joint(k, s) && (k.running == STDOUT || k.running == STDIN)
    requires frame.eax == if k.running == STDOUT then k.port.txSem else k.port.rxSem
    ensures Sound(k, Entry(SemWait, frame), v)
    ensures Joint(Step(k, Entry(SemWait, frame), v),
      if k.running == STDOUT then s.(txSem := WaitOn(s.txSem, STDOUT)) else s.(rxSem := WaitOn(s.rxSem, STDIN)))
  {
    hide Partitioned, PagesOk, ExitOk, SemsOk, BoxesOk, QuantaOk, Scheduler, SemWaitCall;
    var k1 := SaveFrame(k, frame);
    EntryView(k, frame);
    WaitShows(k1, s);
    EntryView(SemWaitCall(k1, frame.eax), frame);
    StepJoint(k, Entry(SemWait, frame), v,
      if k.running == STDOUT then s.(txSem := WaitOn(s.txSem, STDOUT)) else s.(rxSem := WaitOn(s.rxSem, STDIN)));
  }

  lemma PortMoves(k: State, s: Serial, port: Port, v: Variant)
    requires Joint(k, s) && PortOk(port) && port.txSem == k.port.txSem && port.rxSem == k.port.rxSem
    ensures Sound(k, UserPort(port), v) && Joint(Step(k, UserPort(port), v), s.(port := port))
  {
    hide Inv;
    StepJoint(k, UserPort(port), v, s.(port := port));
  }

  /** Agreement says nothing of a process's own memory. */
  lemma OwnMemory(k: State, s: Serial, s': Serial)
    requires Joint(k, s) && s'.port == s.port && s'.txSem == s.txSem && s'.rxSem == s.rxSem
    ensures Joint(k, s')
  {
  }

  lemma RunOfOne(k: State, e: Event, s: Serial, a: Action, v: Variant)
    ensures Run(k, [e], v) == Step(k, e, v) && (SoundRun(k, [e], v) <==> Sound(k, e, v))
    ensures RunAll(s, [a]) == Act(s, a) && (PossibleRun(s, [a]) <==> Possible(s, a))
  {
    hide Step, Sound, Act, Possible;
    assert [e][1..] == [] && [a][1..] == [];
    assert Run(Step(k, e, v), [], v) == Step(k, e, v) && RunAll(Act(s, a), []) == Act(s, a);
  }

  /** One move: it causes at most one event, which the kernel may take; the protocol action is
      possible; and kernel and protocol agree afterwards. */
  lemma MoveShows(k: State, s: Serial, m: Move, v: Variant)
    requires Joint(k, s) && Legal(k, s, m, v)
    ensures SoundRun(k, EventOf(k, s, m), v) && PossibleRun(s, ActOf(m))
    ensures Joint(Run(k, EventOf(k, s, m), v), RunAll(s, ActOf(m)))
  {
    hide Inv, Step, Irq, Sound, Run, RunAll, SoundRun, PossibleRun;
    match m {
      case Elsewhere(intr, frame) =>
        ElsewhereShows(k, s, intr, frame, v);
        RunOfOne(k, Entry(intr, frame), s, SetEcho(true), v);
        NoActions(s);
      case Device(cause, data, frame) =>
        DeviceShows(k, s, cause, data, frame, v);
        RunOfOne(k, Entry(Irq3(cause, data), frame), s, Interrupt(cause, data), v);
      case Out(text, cause, data, frame) => OutShows(k, s, text, cause, data, frame, v);
      case In(frame) => InShows(k, s, frame, v);
      case SwitchEcho(on) =>
        var port := k.port.(echoOn := on);
        PortFits(k);
        PortMoves(k, s, port, v);
        RunOfOne(k, UserPort(port), s, SetEcho(on), v);
    }
  }

  lemma PortFits(k: State)
    requires Inv(k)
    ensures PortOk(k.port)
  {
  }

  lemma NoActions(s: Serial)
    ensures RunAll(s, []) == s && PossibleRun(s, [])
  {
  }

  lemma NoEvents(k: State, v: Variant)
    ensures Run(k, [], v) == k && SoundRun(k, [], v)
  {
  }

  /** A step of StdoutProc that the kernel sees. */
  lemma OutSeen(k: State, s: Serial, text: seq<int>, cause: Cause, data: int, frame: Frame, v: Variant)
    requires Joint(k, s) && Legal(k, s, Out(text, cause, data, frame), v)
    requires EventOf(k, s, Out(text, cause, data, frame)) != []
    ensures var e := EventOf(k, s, Out(text, cause, data, frame))[0];
      Sound(k, e, v) && Joint(Step(k, e, v), Act(s, OutStep(text, cause, data)))
  {
    hide Inv, Step, Irq, Sound, PortOk;
    var e, s' := EventOf(k, s, Out(text, cause, data, frame))[0], Act(s, OutStep(text, cause, data));
    match s.out {
      case OutWait =>
        WaitMoves(k, s, frame, v);
        OwnMemory(Step(k, e, v), s.(txSem := WaitOn(s.txSem, STDOUT)), s');
      case OutWaitCr =>
        WaitMoves(k, s, frame, v);
        OwnMemory(Step(k, e, v), s.(txSem := WaitOn(s.txSem, STDOUT)), s');
      case OutPut => OutPuts(k, s, if s.rest == [] then 0 else s.rest[0], s', v);
      case OutPutCr => OutPuts(k, s, CR, s', v);
      case OutTip =>
        DeviceShows(k, s, cause, data, frame, v);
        OwnMemory(Step(k, e, v), Irq(s, cause, data), s');
      case _ =>
    }
  }

  lemma OutPuts(k: State, s: Serial, c: int, s': Serial, v: Variant)
    requires Joint(k, s) && s'.port == s.port.(tx := Push(s.port.tx, c)) && s'.txSem == s.txSem && s'.rxSem == s.rxSem
    ensures var e := UserPort(k.port.(tx := Push(k.port.tx, c)));
      Sound(k, e, v) && Joint(Step(k, e, v), s')
  {
    hide Step, Sound;
    var port := k.port.(tx := Push(k.port.tx, c));
    PortMoves(k, s, port, v);
    OwnMemory(Step(k, UserPort(port), v), s.(port := port), s');
  }

  lemma OutShows(k: State, s: Serial, text: seq<int>, cause: Cause, data: int, frame: Frame, v: Variant)
    requires Joint(k, s) && Legal(k, s, Out(text, cause, data, frame), v)
    ensures var m := Out(text, cause, data, frame);
      SoundRun(k, EventOf(k, s, m), v) && PossibleRun(s, ActOf(m))
      && Joint(Run(k, EventOf(k, s, m), v), RunAll(s, ActOf(m)))
  {
    hide Inv, Step, Irq, Sound, Run, RunAll, SoundRun, PossibleRun, WaitOn;
    var m, a := Out(text, cause, data, frame), OutStep(text, cause, data);
    var es := EventOf(k, s, m);
    SemCount(k);
    RunnerWaitsNot(k, k.port.txSem);
    PortFits(k);
    assert Possible(s, a);
    if es != [] {
      OutSeen(k, s, text, cause, data, frame, v);
      RunOfOne(k, es[0], s, a, v);
      assert es == [es[0]];
    } else {
      RunOfOne(k, Entry(Timer, frame), s, a, v);
      NoEvents(k, v);
      OwnMemory(k, s, Act(s, a));
    }
  }

  /** A step of StdinProc that the kernel sees. */
  lemma InSeen(k: State, s: Serial, frame: Frame, v: Variant)
    requires Joint(k, s) && Legal(k, s, In(frame), v) && EventOf(k, s, In(frame)) != []
    ensures var e := EventOf(k, s, In(frame))[0];
      Sound(k, e, v) && Joint(Step(k, e, v), Act(s, InStep))
  {
    hide Inv, Step, Sound;
    var e, s' := EventOf(k, s, In(frame))[0], Act(s, InStep);
    if s.inp == InWait {
      WaitMoves(k, s, frame, v);
      OwnMemory(Step(k, e, v), s.(rxSem := WaitOn(s.rxSem, STDIN)), s');
    } else {
      PortFits(k);
      PortMoves(k, s, e.port, v);
      OwnMemory(Step(k, e, v), s.(port := e.port), s');
    }
  }

  lemma InShows(k: State, s: Serial, frame: Frame, v: Variant)
    requires Joint(k, s) && Legal(k, s, In(frame), v)
    ensures var m := In(frame);
      SoundRun(k, EventOf(k, s, m), v) && PossibleRun(s, ActOf(m))
      && Joint(Run(k, EventOf(k, s, m), v), RunAll(s, ActOf(m)))
  {
    hide Inv, Step, Sound, Run, RunAll, SoundRun, PossibleRun, WaitOn;
    var m := In(frame);
    var es := EventOf(k, s, m);
    SemCount(k);
    RunnerWaitsNot(k, k.port.rxSem);
    PortFits(k);
    assert Possible(s, InStep);
    if es != [] {
      InSeen(k, s, frame, v);
      RunOfOne(k, es[0], s, InStep, v);
      assert es == [es[0]];
    } else {
      RunOfOne(k, Entry(Timer, frame), s, InStep, v);
      NoEvents(k, v);
      OwnMemory(k, s, Act(s, InStep));
    }
  }

  // Runs

  lemma {:induction false} RunsJoin(k: State, es: seq<Event>, es': seq<Event>, v: Variant)
    ensures Run(k, es + es', v) == Run(Run(k, es, v), es', v)
    ensures SoundRun(k, es, v) && SoundRun(Run(k, es, v), es', v) ==> SoundRun(k, es + es', v)
    decreases |es|
  {
    hide Step, Sound;
    if es == [] {
      assert es + es' == es';
    } else {
      assert (es + es')[0] == es[0] && (es + es')[1..] == es[1..] + es';
      RunsJoin(Step(k, es[0], v), es[1..], es', v);
    }
  }

  lemma {:induction false} ActsJoin(s: Serial, acts: seq<Action>, more: seq<Action>)
    ensures RunAll(s, acts + more) == RunAll(RunAll(s, acts), more)
    ensures PossibleRun(s, acts) && PossibleRun(RunAll(s, acts), more) ==> PossibleRun(s, acts + more)
    decreases |acts|
  {
    hide Act, Possible;
    if acts == [] {
      assert acts + more == more;
    } else {
      assert (acts + more)[0] == acts[0] && (acts + more)[1..] == acts[1..] + more;
      ActsJoin(Act(s, acts[0]), acts[1..], more);
    }
  }

  /** Simulation: a kernel run whose terminal processes follow their programs is a run the kernel
      may take, and it shows a possible run of the protocol. */
  lemma {:induction false} KernelRunsShow(k: State, s: Serial, ms: seq<Move>, v: Variant)
    requires Joint(k, s) && LegalRun(k, s, ms, v)
    ensures SoundRun(k, Events(k, s, ms, v), v) && PossibleRun(s, Acts(ms))
    ensures Joint(Run(k, Events(k, s, ms, v), v), RunAll(s, Acts(ms)))
    decreases |ms|
  {
    hide Joint, Legal, EventOf, ActOf, Run, SoundRun, RunAll, PossibleRun;
    if ms == [] {
      NoEvents(k, v);
      NoActions(s);
    } else {
      var es, acts := EventOf(k, s, ms[0]), ActOf(ms[0]);
      var k', s' := Run(k, es, v), RunAll(s, acts);
      MoveShows(k, s, ms[0], v);
      KernelRunsShow(k', s', ms[1..], v);
      RunsJoin(k, es, Events(k', s', ms[1..], v), v);
      ActsJoin(s, acts, Acts(ms[1..]));
    }
  }

  /** ShellProc's preparations: the first two semaphores, and the port record. */
  function Prepared(k: State, f: Frame, f': Frame, v: Variant): State {
    Step(Step(Step(k, Entry(SemGet, f), v), Entry(SemGet, f'), v), UserPort(Start().port), v)
  }

  lemma SemGetGives(k: State, f: Frame, v: Variant)
    requires Inv(k) && 1 <= k.running && k.semFree != []
    ensures var k', id := Step(k, Entry(SemGet, f), v), k.semFree[0];
      Sound(k, Entry(SemGet, f), v) && Inv(k') && k'.running == k.running && 0 <= id < Q_LEN
      && k'.sem == k.sem[id := Sem(f.eax, [])] && k'.semFree == k.semFree[1..]
      && At(k'.pcb, k.running).frame.ebx == id
  {
    hide Partitioned, PagesOk, ExitOk, BoxesOk, QuantaOk;
    assert k.semFree[0] in k.semFree;
    StepKeeps(k, Entry(SemGet, f), v);
  }

  /** After them kernel and protocol agree on the protocol's start. */
  lemma ShellPrepares(k: State, f: Frame, f': Frame, v: Variant)
    requires Inv(k) && 1 <= k.running && k.semFree == Interval(0, Q_LEN) && f.eax == Q_LEN && f'.eax == 0
    ensures Joint(Prepared(k, f, f', v), Start())
  {
    hide Inv, Sound;
    var k1 := Step(k, Entry(SemGet, f), v);
    var k2 := Step(k1, Entry(SemGet, f'), v);
    SemGetGives(k, f, v);
    SemGetGives(k1, f', v);
    hide Step;
    assert k2.semFree == Interval(2, Q_LEN - 2);
    assert |k2.sem| == Q_LEN by { SemCount(k2); }
    StartPort(k2, v);
  }

  lemma SemCount(k: State)
    requires Inv(k)
    ensures |k.sem| == Q_LEN
  {
  }

  lemma StartPort(k: State, v: Variant)
    requires Inv(k) && 1 <= k.running && k.semFree == Interval(2, Q_LEN - 2)
    requires |k.sem| == Q_LEN && k.sem[0] == Sem(Q_LEN, []) && k.sem[1] == Sem(0, [])
    ensures Joint(Step(k, UserPort(Start().port), v), Start())
  {
    hide Inv;
    assert PortOk(Start().port);
    assert Enabled(k, UserPort(Start().port));
    StepKeeps(k, UserPort(Start().port), v);
  }

  /** So in every such kernel run from there. Output: what is on the wire for StdoutProc, then what is
      queued, is the front part of the texts it was given, each '\n' as "\n\r", and a blocked
      StdoutProc means a busy port unless the last serial handler call stranded something. Echo:
      without an overrun of its buffer, just the characters that were to be echoed. Input: without an
      overrun, the lines StdinProc has sent back are the characters that came in. */
  lemma TerminalWorks(k: State, ms: seq<Move>, v: Variant)
    requires Joint(k, Start()) && LegalRun(k, Start(), ms, v)
    ensures var k', s' := Run(k, Events(k, Start(), ms, v), v), RunAll(Start(), Acts(ms));
      Inv(k') && Shows(k', s') && PossibleRun(Start(), Acts(ms))
      && Texts(k'.port.wire) + k'.port.tx == Expand(s'.done) + InHand(s')
      && s'.done + s'.rest == GivenText(Start(), Acts(ms)) && RestOk(s')
      && (STDOUT in k'.sem[k'.port.txSem].waiters ==>
            |k'.port.tx| == Q_LEN && (k'.port.txReady <==> LastStrands(Start(), Acts(ms), false)))
      && (EchoFits(Start(), Acts(ms), true) ==>
            Echoes(k'.port.wire) + Visible(k'.port.echo) == EchoText(Start(), Acts(ms), true))
      && (s'.dropped == 0 ==>
            LinesOk(s') && Joined(s'.replies) + Gathered(s') + k'.port.rx == Received(Start(), Acts(ms)))
  {
    hide Inv, Run, RunAll, LegalRun, Events, Acts, PossibleRun, Texts, Expand, Joined, Gathered, InHand, LastStrands;
    hide EchoFits, EchoText, GivenText, Received, LinesOk, RestOk, Echoes, Visible;
    KernelRunsShow(k, Start(), ms, v);
    var s' := RunAll(Start(), Acts(ms));
    OutputIsGiven(Acts(ms));
    if STDOUT in s'.txSem.waiters {
      StallsExactly(Acts(ms));
    }
    if EchoFits(Start(), Acts(ms), true) {
      EchoIsInput(Acts(ms));
    }
    if s'.dropped == 0 {
      InputIsLines(Acts(ms));
    }
  }
}
