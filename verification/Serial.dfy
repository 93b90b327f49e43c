/** The terminal protocol: the IRQ3 handler on one side, StdoutProc and StdinProc on the other, two
    semaphores of credits between them. Each process is a step machine with an explicit program
    point; any unblocked process, or an interrupt, may take the next step. */
module Serial {
  import opened Params
  import opened Port
  import opened KernelState

  const STDIN := 4   // PROC_STDIN
  const STDOUT := 5  // PROC_STDOUT

  /** Where StdoutProc is: about to receive a message, to test `*p`, to wait for space for the
      character, to queue it, the same for the '\r' after a '\n', to tip IRQ3, or to reply. */
  datatype OutPoint = OutFetch | OutTest | OutWait | OutPut | OutWaitCr | OutPutCr | OutTip | OutReply

  /** Where StdinProc is: about to receive a request, to wait for a character, to take it, to reply. */
  datatype InPoint = InFetch | InWait | InGet | InReply

  /** `rest` is the text from p on; `done` the text p has passed, over all messages; `got` every
      value StdinProc took from RX_buffer, -1 included; `accepted` every character that entered
      RX_buffer, `dropped` how many found it full; `due` says a transmit interrupt is still owed
      by the hardware for a character written to it. */
  datatype Serial = Serial(
    port: Port, txSem: Sem, rxSem: Sem, due: bool,
    out: OutPoint, rest: seq<int>, done: seq<int>,
    inp: InPoint, line: seq<int>, replies: seq<seq<int>>,
    got: seq<int>, accepted: seq<int>, dropped: nat)

  datatype Action =
    | Interrupt(cause: Cause, data: int)
    | OutStep(text: seq<int>, cause: Cause, data: int) // a message's text, or what a tipped IRQ3 reads
    | InStep
    | SetEcho(on: bool)

  function WaitOn(m: Sem, p: int): Sem {
    if m.limit > 0 then m.(limit := m.limit - 1) else m.(waiters := m.waiters + [p])
  }

  function PostOn(m: Sem): Sem {
    if m.waiters == [] then m.(limit := m.limit + 1) else m.(waiters := m.waiters[1..])
  }

  // The interrupt handler

  function TxStep(s: Serial): Serial {
    s.(port := TxPort(s.port), txSem := if TxPosts(s.port) then PostOn(s.txSem) else s.txSem)
  }

  function RxStep(s: Serial, data: int): Serial {
    var full := |s.port.rx| >= Q_LEN;
    s.(port := RxPort(s.port, data), rxSem := PostOn(s.rxSem),
       accepted := if full then s.accepted else s.accepted + [data % 128],
       dropped := if full then s.dropped + 1 else s.dropped)
  }

  function AfterCause(s: Serial, cause: Cause, data: int): Serial {
    match cause
    case TxReady => TxStep(s)
    case RxReady => RxStep(s, data)
    case OtherCause => s
  }

  function Handle(s: Serial, cause: Cause, data: int): Serial {
    var s1 := AfterCause(s, cause, data);
    if s1.port.txReady then TxStep(s1) else s1
  }

  /** IRQ3ISR, with the hardware's side: reading a transmit cause settles what was owed, and each
      character written to the port makes a new transmit interrupt due. */
  function Irq(s: Serial, cause: Cause, data: int): Serial {
    var s' := Handle(s, cause, data);
    s'.(due := (s.due && cause != TxReady) || |s'.port.wire| > |s.port.wire|)
  }

  // The processes

  function OutNext(s: Serial, text: seq<int>, cause: Cause, data: int): Serial {
    match s.out
    case OutFetch => s.(rest := text, out := OutTest)
    case OutTest => s.(out := if s.rest == [] then OutReply else OutWait)
    case OutWait => s.(txSem := WaitOn(s.txSem, STDOUT), out := OutPut)
    case OutPut =>
      var c := if s.rest == [] then 0 else s.rest[0];
      s.(port := s.port.(tx := Push(s.port.tx, c)), out := if c == LF then OutWaitCr else OutTip)
    case OutWaitCr => s.(txSem := WaitOn(s.txSem, STDOUT), out := OutPutCr)
    case OutPutCr => s.(port := s.port.(tx := Push(s.port.tx, CR)), out := OutTip)
    case OutTip =>
      var s1 := Irq(s, cause, data);
      if s.rest == [] then s1 else s1.(out := OutTest, done := s.done + [s.rest[0]], rest := s.rest[1..])
    case OutReply => s.(out := OutFetch)
  }

  function InNext(s: Serial): Serial {
    match s.inp
    case InFetch => s.(line := [], inp := InWait)
    case InWait => s.(rxSem := WaitOn(s.rxSem, STDIN), inp := InGet)
    case InGet =>
      var ch := if s.port.rx == [] then -1 else s.port.rx[0];
      var s1 := s.(port := s.port.(rx := if s.port.rx == [] then [] else s.port.rx[1..]), got := s.got + [ch]);
      if ch == CR then s1.(inp := InReply) else s1.(line := s.line + [ch], inp := InWait)
    case InReply => s.(replies := s.replies + [s.line], inp := InFetch)
  }

  function Act(s: Serial, a: Action): Serial {
    match a
    case Interrupt(cause, data) => Irq(s, cause, data)
    case OutStep(text, cause, data) => OutNext(s, text, cause, data)
    case InStep => InNext(s)
    case SetEcho(on) => s.(port := s.port.(echoOn := on))
  }

  predicate NonNul(text: seq<int>) {
    forall k :: 0 <= k < |text| ==> text[k] != 0
  }

  /** A blocked process takes no step; message texts are C strings. */
  predicate Possible(s: Serial, a: Action) {
    match a
    case OutStep(text, _, _) => STDOUT !in s.txSem.waiters && NonNul(text)
    case InStep => STDIN !in s.rxSem.waiters
    case _ => true
  }

  /** No NUL is received while characters are echoed. */
  predicate NoNulEcho(s: Serial, a: Action) {
    match a
    case Interrupt(cause, data) => cause == RxReady && s.port.echoOn ==> data % 128 != 0
    case OutStep(_, cause, data) => s.out == OutTip && cause == RxReady && s.port.echoOn ==> data % 128 != 0
    case _ => true
  }

  /** The port as ShellProc sets it up. */
  function Start(): Serial {
    Serial(Port([], [], [], 0, 1, true, true, []), Sem(Q_LEN, []), Sem(0, []), false,
           OutFetch, [], [], InFetch, [], [], [], [], 0)
  }

  function RunAll(s: Serial, acts: seq<Action>): Serial
    decreases |acts|
  {
    if acts == [] then s else RunAll(Act(s, acts[0]), acts[1..])
  }

  predicate PossibleRun(s: Serial, acts: seq<Action>)
    decreases |acts|
  {
    acts == [] || (Possible(s, acts[0]) && PossibleRun(Act(s, acts[0]), acts[1..]))
  }

  predicate NoNulRun(s: Serial, acts: seq<Action>)
    decreases |acts|
  {
    acts == [] || (NoNulEcho(s, acts[0]) && NoNulRun(Act(s, acts[0]), acts[1..]))
  }

  // Transmission

  /** Text as the terminal needs it: every '\n' followed by '\r'. */
  function OnWire(c: int): seq<int> {
    if c == LF then [LF, CR] else [c]
  }

  function Expand(text: seq<int>): seq<int> {
    if text == [] then [] else OnWire(text[0]) + Expand(text[1..])
  }

  /** Text characters on the wire, echoes left out. */
  function Texts(wire: seq<Sent>): seq<int> {
    if wire == [] then []
    else if wire[0].Text? then [wire[0].ch] + Texts(wire[1..])
    else Texts(wire[1..])
  }

  /** What StdoutProc has queued of the character it is working on. */
  function InHand(s: Serial): seq<int> {
    if s.out == OutWaitCr || s.out == OutPutCr then [LF]
    else if s.out == OutTip && s.rest != [] then Expand([s.rest[0]])
    else []
  }

  /** Space StdoutProc has been granted and not yet filled. */
  function Credit(s: Serial): int {
    if (s.out == OutPut || s.out == OutPutCr) && s.txSem.waiters == [] then 1 else 0
  }

  predicate OutOk(s: Serial) {
    NonNul(s.rest) && NonNul(s.port.tx)
    && (s.out != OutFetch && s.out != OutTest && s.out != OutReply ==> s.rest != [])
    && (s.out == OutWaitCr || s.out == OutPutCr ==> s.rest[0] == LF)
  }

  /** Free places, queued characters and the unused grant always add up to the buffer's size. */
  predicate FlowOk(s: Serial) {
    s.txSem.limit >= 0
    && s.txSem.limit + |s.port.tx| + Credit(s) == Q_LEN
    && (s.txSem.waiters == []
        || (s.txSem.waiters == [STDOUT] && s.txSem.limit == 0 && (s.out == OutPut || s.out == OutPutCr)))
  }

  /** What was written for StdoutProc, with what is still queued, is its text so far, expanded. */
  predicate WireOk(s: Serial) {
    Texts(s.port.wire) + s.port.tx == Expand(s.done) + InHand(s)
  }

  predicate SendOk(s: Serial) {
    OutOk(s) && FlowOk(s) && WireOk(s)
  }

  lemma {:induction false} ExpandAppend(a: seq<int>, b: seq<int>)
    ensures Expand(a + b) == Expand(a) + Expand(b)
  {
    hide OnWire;
    if a == [] {
      assert a + b == b;
    } else {
      ExpandAppend(a[1..], b);
      assert (a + b)[1..] == a[1..] + b && (a + b)[0] == a[0];
      assert Expand(a + b) == OnWire(a[0]) + (Expand(a[1..]) + Expand(b));
    }
  }

  lemma {:induction false} TextsAppend(a: seq<Sent>, c: Sent)
    ensures Texts(a + [c]) == Texts(a) + (if c.Text? then [c.ch] else [])
  {
    if a == [] {
      assert a + [c] == [c];
    } else {
      TextsAppend(a[1..], c);
      assert (a + [c])[1..] == a[1..] + [c] && (a + [c])[0] == a[0];
    }
  }

  lemma TxKeepsWire(s: Serial)
    requires WireOk(s) && NonNul(s.port.tx)
    ensures WireOk(TxStep(s)) && NonNul(TxStep(s).port.tx)
  {
    hide Expand, Texts;
    var s', p := TxStep(s), s.port;
    if |p.echo| > 0 {
      TextsAppend(p.wire, Echo(p.echo[0]));
      assert Texts(p.wire) + [] == Texts(p.wire);
    } else if |p.tx| > 0 {
      TextsAppend(p.wire, Text(p.tx[0]));
      assert p.tx == [p.tx[0]] + p.tx[1..];
      assert Texts(s'.port.wire) + s'.port.tx == Texts(p.wire) + p.tx;
    }
  }

  lemma TxKeepsFlow(s: Serial)
    requires FlowOk(s)
    ensures FlowOk(TxStep(s)) && (s.out == OutTip ==> TxStep(s).txSem.waiters == [])
  {
  }

  lemma TxKeepsSend(s: Serial)
    requires SendOk(s)
    ensures SendOk(TxStep(s)) && TxStep(s).out == s.out && TxStep(s).rest == s.rest && TxStep(s).done == s.done
    ensures s.out == OutTip ==> TxStep(s).txSem.waiters == []
  {
    hide WireOk, FlowOk;
    TxKeepsWire(s);
    TxKeepsFlow(s);
  }

  lemma IrqKeepsSend(s: Serial, cause: Cause, data: int)
    requires SendOk(s)
    ensures SendOk(Irq(s, cause, data))
    ensures Irq(s, cause, data).out == s.out && Irq(s, cause, data).rest == s.rest && Irq(s, cause, data).done == s.done
    ensures s.out == OutTip ==> Irq(s, cause, data).txSem.waiters == []
  {
    hide WireOk, FlowOk;
    var s1 := AfterCause(s, cause, data);
    assert SendOk(s1) && s1.out == s.out && s1.rest == s.rest && s1.done == s.done by {
      if cause == TxReady {
        TxKeepsSend(s);
      } else if cause == RxReady {
        RxKeepsSend(s, data);
      }
    }
    TxKeepsSend(s1);
    DueKeepsSend(s, cause, data);
  }

  lemma RxKeepsSend(s: Serial, data: int)
    requires SendOk(s)
    ensures SendOk(RxStep(s, data))
  {
  }

  lemma DueKeepsSend(s: Serial, cause: Cause, data: int)
    ensures SendOk(Handle(s, cause, data)) ==> SendOk(Irq(s, cause, data))
    ensures FlowOk(Handle(s, cause, data)) && s.out == OutTip && Handle(s, cause, data).out == s.out
      ==> Irq(s, cause, data).txSem.waiters == []
  {
  }

  lemma PutKeepsSend(s: Serial, text: seq<int>, cause: Cause, data: int)
    requires SendOk(s) && STDOUT !in s.txSem.waiters && (s.out == OutPut || s.out == OutPutCr)
    ensures SendOk(OutNext(s, text, cause, data))
  {
    hide Irq, Texts;
    var c := if s.out == OutPut then s.rest[0] else CR;
    var w := Texts(s.port.wire);
    assert w + (s.port.tx + [c]) == (w + s.port.tx) + [c];
    assert (Expand(s.done) + [LF]) + [CR] == Expand(s.done) + [LF, CR];
    assert Expand(s.done) + [] == Expand(s.done);
    assert Expand([s.rest[0]]) == if s.rest[0] == LF then [LF, CR] else [s.rest[0]];
  }

  lemma TipKeepsSend(s: Serial, text: seq<int>, cause: Cause, data: int)
    requires SendOk(s) && s.out == OutTip
    ensures SendOk(OutNext(s, text, cause, data))
  {
    hide Irq, Texts, Expand;
    IrqKeepsSend(s, cause, data);
    ExpandAppend(s.done, [s.rest[0]]);
    assert Expand(s.done + [s.rest[0]]) + [] == Expand(s.done + [s.rest[0]]);
  }

  lemma OutKeepsSend(s: Serial, text: seq<int>, cause: Cause, data: int)
    requires SendOk(s) && STDOUT !in s.txSem.waiters && NonNul(text)
    ensures SendOk(OutNext(s, text, cause, data))
  {
    hide Irq, Texts, Expand;
    match s.out {
      case OutPut => PutKeepsSend(s, text, cause, data);
      case OutPutCr => PutKeepsSend(s, text, cause, data);
      case OutTip => TipKeepsSend(s, text, cause, data);
      case _ =>
    }
  }

  /** Flow control and the text on the wire, through any step. */
  lemma ActKeepsSend(s: Serial, a: Action)
    requires SendOk(s) && Possible(s, a)
    ensures SendOk(Act(s, a))
  {
    hide Irq, Texts, Expand, OutNext;
    match a {
      case Interrupt(cause, data) => IrqKeepsSend(s, cause, data);
      case OutStep(text, cause, data) => OutKeepsSend(s, text, cause, data);
      case _ =>
    }
  }

  /** StdoutProc's EnQ always finds room. */
  lemma NeverDrops(s: Serial)
    requires SendOk(s) && STDOUT !in s.txSem.waiters && (s.out == OutPut || s.out == OutPutCr)
    ensures |s.port.tx| < Q_LEN
  {
  }

  // Idle and busy

  /** Marked idle, with both transmit buffers empty. */
  predicate IdleIsEmpty(p: Port) {
    p.txReady ==> p.echo == [] && p.tx == []
  }

  /** The NUL characters that defeat it, as seen in the port before the handler runs: handling a
      transmit cause swallows two NULs in a row and gives up before what follows; otherwise one is
      enough. Text that StdoutProc has queued and will tip itself, up to `hand` characters, does
      not count as stranded. */
  predicate Strands(p: Port, cause: Cause, data: int, hand: nat) {
    var echo := if cause == RxReady then RxPort(p, data).echo else p.echo;
    var q := echo + p.tx;
    if cause == TxReady then |q| > 1 && q[0] == 0 && q[1] == 0 && (|echo| > 2 || |q| > hand + 2)
    else p.txReady && |q| > 0 && q[0] == 0 && (|echo| > 1 || |q| > hand + 1)
  }

  /** Marked idle with something other than the text in hand left to send. */
  predicate Left(p: Port, hand: nat) {
    p.txReady && (p.echo != [] || |p.tx| > hand)
  }

  /** An interrupt leaves something behind on an idle port exactly when NULs strand it. */
  lemma LeftExactly(s: Serial, cause: Cause, data: int, hand: nat)
    ensures Left(Irq(s, cause, data).port, hand) <==> Strands(s.port, cause, data, hand)
  {
    match cause {
      case TxReady => TwoTx(s.port, hand);
      case RxReady => OneTx(RxPort(s.port, data), hand);
      case OtherCause => OneTx(s.port, hand);
    }
  }

  lemma OneTx(p: Port, hand: nat)
    ensures var q := p.echo + p.tx;
      Left(TxPort(p), hand) <==> |q| > 0 && q[0] == 0 && (|p.echo| > 1 || |q| > hand + 1)
  {
    var q := p.echo + p.tx;
    if |p.echo| > 0 {
      assert q[0] == p.echo[0];
    } else if |p.tx| > 0 {
      assert q == p.tx;
    }
  }

  lemma TwoTx(p: Port, hand: nat)
    ensures var q, p1 := p.echo + p.tx, TxPort(p);
      Left(if p1.txReady then TxPort(p1) else p1, hand)
      <==> |q| > 1 && q[0] == 0 && q[1] == 0 && (|p.echo| > 2 || |q| > hand + 2)
  {
    var q, p1 := p.echo + p.tx, TxPort(p);
    if q != [] {
      assert p1.echo + p1.tx == q[1..];
      OneTx(p1, hand);
    }
  }

  /** Whenever IRQ3ISR returns, "idle" means nothing is left to send: exactly unless NULs at the
      front of the queue strand what is behind them. */
  lemma IdleExactly(s: Serial, cause: Cause, data: int)
    ensures IdleIsEmpty(Irq(s, cause, data).port) <==> !Strands(s.port, cause, data, 0)
  {
    LeftExactly(s, cause, data, 0);
  }

  /** A transmit interrupt is due exactly while the port is marked busy. */
  predicate DueOk(s: Serial) {
    s.due <==> !s.port.txReady
  }

  lemma TxWrites(p: Port)
    ensures |TxPort(p).wire| >= |p.wire|
    ensures !TxPort(p).txReady <==> |TxPort(p).wire| > |p.wire|
  {
  }

  lemma IrqKeepsDue(s: Serial, cause: Cause, data: int)
    requires DueOk(s)
    ensures DueOk(Irq(s, cause, data))
  {
    hide TxPort;
    TxWrites(s.port);
    TxWrites(AfterCause(s, cause, data).port);
  }

  // When output stalls

  /** The step runs IRQ3ISR: the device interrupts, or StdoutProc tips. */
  predicate RunsHandler(s: Serial, a: Action) {
    a.Interrupt? || (a.OutStep? && s.out == OutTip)
  }

  /** It does, and strands something. A tip leaves StdoutProc with nothing in hand. */
  predicate StepStrands(s: Serial, a: Action) {
    match a
    case Interrupt(cause, data) => Strands(s.port, cause, data, |InHand(s)|)
    case OutStep(_, cause, data) => s.out == OutTip && Strands(s.port, cause, data, 0)
    case _ => false
  }

  /** Did the last step of the run that ran the handler strand something? If none did, `before`. */
  predicate LastStrands(s: Serial, acts: seq<Action>, before: bool)
    decreases |acts|
  {
    if acts == [] then before
    else LastStrands(Act(s, acts[0]), acts[1..], if RunsHandler(s, acts[0]) then StepStrands(s, acts[0]) else before)
  }

  predicate Stuck(s: Serial) {
    Left(s.port, |InHand(s)|)
  }

  /** Only the handler makes output stuck or unstuck; queueing text never does. */
  lemma ActStuck(s: Serial, a: Action)
    requires SendOk(s) && DueOk(s) && Possible(s, a)
    ensures Stuck(Act(s, a)) <==> if RunsHandler(s, a) then StepStrands(s, a) else Stuck(s)
    ensures DueOk(Act(s, a))
  {
    hide Irq, Texts, WireOk, Strands;
    match a {
      case Interrupt(cause, data) =>
        IrqKeepsSend(s, cause, data);
        IrqKeepsDue(s, cause, data);
        LeftExactly(s, cause, data, |InHand(s)|);
      case OutStep(text, cause, data) =>
        if s.out == OutTip {
          IrqKeepsDue(s, cause, data);
          LeftExactly(s, cause, data, 0);
        } else {
          OutStuck(s, text, cause, data);
        }
      case _ =>
    }
  }

  lemma OutStuck(s: Serial, text: seq<int>, cause: Cause, data: int)
    requires SendOk(s) && STDOUT !in s.txSem.waiters && s.out != OutTip
    ensures Stuck(OutNext(s, text, cause, data)) <==> Stuck(s)
    ensures DueOk(s) ==> DueOk(OutNext(s, text, cause, data))
  {
    hide Irq, WireOk;
    if s.out == OutPut || s.out == OutPutCr {
      NeverDrops(s);
      var c := s.rest[0];
      assert Expand([c]) == OnWire(c) + Expand([c][1..]);
    }
  }

  lemma {:induction false} StuckExactly(s: Serial, acts: seq<Action>)
    requires SendOk(s) && DueOk(s) && PossibleRun(s, acts)
    ensures var r := RunAll(s, acts);
      SendOk(r) && DueOk(r) && (Stuck(r) <==> LastStrands(s, acts, Stuck(s)))
    decreases |acts|
  {
    hide Act, SendOk, DueOk, Stuck, Possible, RunsHandler, StepStrands;
    if acts != [] {
      ActKeepsSend(s, acts[0]);
      ActStuck(s, acts[0]);
      StuckExactly(Act(s, acts[0]), acts[1..]);
    }
  }

  // Reception

  /** The lines sent back, each with the '\r' that ended it, then the line being gathered. */
  function Joined(lines: seq<seq<int>>): seq<int> {
    if lines == [] then [] else lines[0] + [CR] + Joined(lines[1..])
  }

  /** Characters StdinProc has taken since its last reply. */
  function Gathered(s: Serial): seq<int> {
    if s.inp == InReply then s.line + [CR]
    else if s.inp == InFetch then []
    else s.line
  }

  function Phantoms(got: seq<int>): nat {
    if got == [] then 0 else (if got[0] == -1 then 1 else 0) + Phantoms(got[1..])
  }

  function Real(got: seq<int>): seq<int> {
    if got == [] then []
    else if got[0] == -1 then Real(got[1..])
    else [got[0]] + Real(got[1..])
  }

  function InCredit(s: Serial): int {
    if s.inp == InGet && s.rxSem.waiters == [] then 1 else 0
  }

  predicate SevenBit(q: seq<int>) {
    forall k :: 0 <= k < |q| ==> 0 <= q[k] < 128
  }

  /** Receive credits count the buffered characters and, should the buffer have overrun, the
      dropped ones that StdinProc has not yet been misled about. */
  predicate CreditOk(s: Serial) {
    s.rxSem.limit >= 0 && Phantoms(s.got) <= s.dropped
    && s.rxSem.limit + InCredit(s) == |s.port.rx| + s.dropped - Phantoms(s.got)
    && (s.rxSem.waiters == [] || (s.rxSem.waiters == [STDIN] && s.rxSem.limit == 0 && s.inp == InGet))
  }

  /** Nothing buffered is lost or reordered: taken characters, then the buffer, are those accepted;
      and the lines sent back, with what is gathered, are everything taken. */
  predicate StreamOk(s: Serial) {
    Real(s.got) + s.port.rx == s.accepted
    && Joined(s.replies) + Gathered(s) == s.got
  }

  predicate RecvOk(s: Serial) {
    CreditOk(s) && StreamOk(s) && SevenBit(s.port.rx)
  }

  lemma {:induction false} JoinedAppend(ls: seq<seq<int>>, l: seq<int>)
    ensures Joined(ls + [l]) == Joined(ls) + l + [CR]
  {
    if ls == [] {
      assert ls + [l] == [l];
      assert [l][1..] == [];
    } else {
      JoinedAppend(ls[1..], l);
      assert (ls + [l])[1..] == ls[1..] + [l] && (ls + [l])[0] == ls[0];
      assert ls[0] + [CR] + (Joined(ls[1..]) + l + [CR]) == (ls[0] + [CR] + Joined(ls[1..])) + l + [CR];
    }
  }

  lemma {:induction false} GotAppend(got: seq<int>, c: int)
    ensures Real(got + [c]) == if c == -1 then Real(got) else Real(got) + [c]
    ensures Phantoms(got + [c]) == Phantoms(got) + (if c == -1 then 1 else 0)
  {
    if got == [] {
      assert got + [c] == [c] && [c][1..] == [];
    } else {
      var r := got[1..];
      GotAppend(r, c);
      assert (got + [c])[1..] == r + [c] && (got + [c])[0] == got[0];
      assert [got[0]] + (Real(r) + [c]) == ([got[0]] + Real(r)) + [c];
    }
  }

  lemma {:induction false} NoPhantoms(got: seq<int>)
    requires Phantoms(got) == 0
    ensures Real(got) == got
  {
    if got != [] {
      NoPhantoms(got[1..]);
    }
  }

  lemma TxKeepsRecv(s: Serial)
    requires RecvOk(s)
    ensures RecvOk(TxStep(s))
  {
    hide Joined, Real, Phantoms;
  }

  lemma RxKeepsRecv(s: Serial, data: int)
    requires RecvOk(s)
    ensures RecvOk(RxStep(s, data))
  {
    hide Joined, Real, Phantoms;
    var c := data % 128;
    assert Real(s.got) + (s.port.rx + [c]) == (Real(s.got) + s.port.rx) + [c];
  }

  lemma IrqKeepsRecv(s: Serial, cause: Cause, data: int)
    requires RecvOk(s)
    ensures RecvOk(Irq(s, cause, data))
  {
    hide TxStep, RxStep, StreamOk, CreditOk;
    if cause == TxReady {
      TxKeepsRecv(s);
    } else if cause == RxReady {
      RxKeepsRecv(s, data);
    }
    TxKeepsRecv(AfterCause(s, cause, data));
    DueKeepsRecv(s, cause, data);
  }

  lemma DueKeepsRecv(s: Serial, cause: Cause, data: int)
    requires RecvOk(Handle(s, cause, data))
    ensures RecvOk(Irq(s, cause, data))
  {
    hide Joined, Real, Phantoms, Handle;
  }

  lemma GetKeepsStream(s: Serial)
    requires StreamOk(s) && SevenBit(s.port.rx) && s.inp == InGet
    ensures StreamOk(InNext(s))
  {
    hide Joined, Real;
    var rx := s.port.rx;
    var ch := if rx == [] then -1 else rx[0];
    GotAppend(s.got, ch);
    Taken(Real(s.got), rx);
    Gather(Joined(s.replies), s.line, ch);
  }

  lemma Taken(w: seq<int>, rx: seq<int>)
    ensures if rx == [] then w + rx == w else (w + [rx[0]]) + rx[1..] == w + rx
  {
  }

  lemma Gather(w: seq<int>, line: seq<int>, ch: int)
    ensures w + (line + [ch]) == (w + line) + [ch]
  {
  }

  lemma GetKeepsRecv(s: Serial)
    requires RecvOk(s) && s.inp == InGet && STDIN !in s.rxSem.waiters
    ensures RecvOk(InNext(s))
  {
    hide StreamOk, Real, Phantoms;
    GetKeepsStream(s);
    GotAppend(s.got, if s.port.rx == [] then -1 else s.port.rx[0]);
  }

  lemma InKeepsRecv(s: Serial)
    requires RecvOk(s) && STDIN !in s.rxSem.waiters
    ensures RecvOk(InNext(s))
  {
    hide Joined, Real, Phantoms;
    match s.inp {
      case InGet => GetKeepsRecv(s);
      case InReply =>
        JoinedAppend(s.replies, s.line);
        assert Joined(s.replies) + (s.line + [CR]) == Joined(s.replies) + s.line + [CR];
        assert Joined(s.replies + [s.line]) + [] == Joined(s.replies + [s.line]);
      case _ =>
    }
  }

  lemma OutKeepsRecv(s: Serial, text: seq<int>, cause: Cause, data: int)
    requires RecvOk(s)
    ensures RecvOk(OutNext(s, text, cause, data))
  {
    hide Joined, Real, Phantoms, Irq;
    if s.out == OutTip {
      IrqKeepsRecv(s, cause, data);
    }
  }

  lemma ActKeepsRecv(s: Serial, a: Action)
    requires RecvOk(s) && Possible(s, a)
    ensures RecvOk(Act(s, a))
  {
    hide Joined, Real, Phantoms, Irq, InNext, OutNext;
    match a {
      case Interrupt(cause, data) => IrqKeepsRecv(s, cause, data);
      case OutStep(text, cause, data) => OutKeepsRecv(s, text, cause, data);
      case InStep => InKeepsRecv(s);
      case _ =>
    }
  }

  /** StdinProc can take -1 from its buffer only if the buffer has overrun. */
  lemma GetFindsCharacter(s: Serial)
    requires RecvOk(s) && STDIN !in s.rxSem.waiters && s.inp == InGet
    ensures s.port.rx == [] ==> s.dropped > Phantoms(s.got)
  {
    hide Phantoms;
  }

  // Over runs

  /** Through every run: the wire and the account of credits stay right. */
  lemma {:induction false} OutputFaithful(s: Serial, acts: seq<Action>)
    requires SendOk(s) && PossibleRun(s, acts)
    ensures SendOk(RunAll(s, acts))
    decreases |acts|
  {
    hide Act, SendOk, Possible;
    if acts != [] {
      ActKeepsSend(s, acts[0]);
      OutputFaithful(Act(s, acts[0]), acts[1..]);
    }
  }

  /** Output, over every run from start-up: what has been put on the wire for StdoutProc, followed
      by TX_buffer, is the text it has worked through with every '\n' made "\n\r"; and free places,
      queued characters and the unused grant make up the buffer. */
  lemma OutputIsText(acts: seq<Action>)
    requires PossibleRun(Start(), acts)
    ensures var s := RunAll(Start(), acts);
      Texts(s.port.wire) + s.port.tx == Expand(s.done) + InHand(s)
      && s.txSem.limit + |s.port.tx| + Credit(s) == Q_LEN
  {
    StartSend();
    OutputFaithful(Start(), acts);
  }

  lemma StartSend()
    ensures SendOk(Start()) && DueOk(Start()) && !Stuck(Start())
  {
  }

  lemma {:induction false} InputFaithful(s: Serial, acts: seq<Action>)
    requires RecvOk(s) && PossibleRun(s, acts)
    ensures RecvOk(RunAll(s, acts))
    decreases |acts|
  {
    hide Act, RecvOk, Possible;
    if acts != [] {
      ActKeepsRecv(s, acts[0]);
      InputFaithful(Act(s, acts[0]), acts[1..]);
    }
  }

  /** When output stalls, exactly: after any run from start-up that leaves StdoutProc blocked for
      space, the port is idle with no interrupt to come if and only if the last handler call of the
      run stranded something; if not, it is busy and an interrupt is due. */
  lemma StallsExactly(acts: seq<Action>)
    requires PossibleRun(Start(), acts) && STDOUT in RunAll(Start(), acts).txSem.waiters
    ensures var s := RunAll(Start(), acts);
      |s.port.tx| == Q_LEN
      && (s.port.txReady && !s.due <==> LastStrands(Start(), acts, false))
      && (!s.port.txReady && s.due <==> !LastStrands(Start(), acts, false))
  {
    hide WireOk;
    StartSend();
    StuckExactly(Start(), acts);
  }

  /** No step of the run strands anything. */
  predicate NeverStrands(s: Serial, acts: seq<Action>)
    decreases |acts|
  {
    acts == [] || (!StepStrands(s, acts[0]) && NeverStrands(Act(s, acts[0]), acts[1..]))
  }

  lemma {:induction false} NeverIsNotLast(s: Serial, acts: seq<Action>)
    requires NeverStrands(s, acts)
    ensures !LastStrands(s, acts, false)
    decreases |acts|
  {
    hide Act, StepStrands, RunsHandler;
    if acts != [] {
      NeverIsNotLast(Act(s, acts[0]), acts[1..]);
    }
  }

  /** No stall: from start-up, as long as no handler call strands anything, whenever StdoutProc is
      blocked for space the port is busy and a transmit interrupt is still to come. */
  lemma NoStall(acts: seq<Action>)
    requires PossibleRun(Start(), acts) && NeverStrands(Start(), acts)
    ensures var s := RunAll(Start(), acts);
      STDOUT in s.txSem.waiters ==> !s.port.txReady && s.due && |s.port.tx| == Q_LEN
  {
    if STDOUT in RunAll(Start(), acts).txSem.waiters {
      NeverIsNotLast(Start(), acts);
      StallsExactly(acts);
    }
  }

  /** And nothing is stranded while no NUL is received with the echo on. */
  lemma {:induction false} NoNulsNoStrand(s: Serial, acts: seq<Action>)
    requires SendOk(s) && NonNul(s.port.echo) && PossibleRun(s, acts) && NoNulRun(s, acts)
    ensures NeverStrands(s, acts)
    decreases |acts|
  {
    hide Act, SendOk, NonNul, Possible, StepStrands, NoNulEcho;
    if acts != [] {
      ActKeepsSend(s, acts[0]);
      NoNulStep(s, acts[0]);
      NoNulsNoStrand(Act(s, acts[0]), acts[1..]);
    }
  }

  lemma NoNulStep(s: Serial, a: Action)
    requires SendOk(s) && NonNul(s.port.echo) && Possible(s, a) && NoNulEcho(s, a)
    ensures !StepStrands(s, a) && NonNul(Act(s, a).port.echo)
  {
    hide Irq, Texts, WireOk, FlowOk, Strands;
    match a {
      case Interrupt(cause, data) =>
        EchoStaysNonNul(s, cause, data);
        NonNulDoesNotStrand(s.port, cause, data, |InHand(s)|);
      case OutStep(text, cause, data) =>
        if s.out == OutTip {
          EchoStaysNonNul(s, cause, data);
          NonNulDoesNotStrand(s.port, cause, data, 0);
        }
      case _ =>
    }
  }

  lemma NonNulDoesNotStrand(p: Port, cause: Cause, data: int, hand: nat)
    requires NonNul(p.tx) && NonNul(if cause == RxReady then RxPort(p, data).echo else p.echo)
    ensures !Strands(p, cause, data, hand)
  {
    var echo := if cause == RxReady then RxPort(p, data).echo else p.echo;
    var q := echo + p.tx;
    if q != [] {
      assert q[0] == if echo != [] then echo[0] else p.tx[0];
    }
  }

  lemma TxEchoNonNul(p: Port)
    requires NonNul(p.echo)
    ensures NonNul(TxPort(p).echo)
  {
  }

  lemma RxEchoNonNul(p: Port, data: int)
    requires NonNul(p.echo) && (p.echoOn ==> data % 128 != 0)
    ensures NonNul(RxPort(p, data).echo)
  {
  }

  lemma EchoStaysNonNul(s: Serial, cause: Cause, data: int)
    requires NonNul(s.port.echo)
    requires cause == RxReady && s.port.echoOn ==> data % 128 != 0
    ensures NonNul(Irq(s, cause, data).port.echo)
    ensures cause == RxReady ==> NonNul(RxPort(s.port, data).echo)
  {
    hide TxPort, RxPort, NonNul;
    if cause == RxReady {
      RxEchoNonNul(s.port, data);
    } else {
      TxEchoNonNul(s.port);
    }
    TxEchoNonNul(AfterCause(s, cause, data).port);
  }

  /** Receive round trip: from start-up, if the buffer never overran, the lines sent back, each with
      its '\r', then the line being gathered and the buffer, are exactly the characters received. */
  lemma LinesAreInput(acts: seq<Action>)
    requires PossibleRun(Start(), acts) && RunAll(Start(), acts).dropped == 0
    ensures var s := RunAll(Start(), acts);
      Joined(s.replies) + Gathered(s) + s.port.rx == s.accepted && -1 !in s.got
  {
    hide Joined, Real, Gathered;
    var s := RunAll(Start(), acts);
    StartRecv();
    InputFaithful(Start(), acts);
    NoPhantoms(s.got);
    NoPhantomValue(s.got);
  }

  lemma StartRecv()
    ensures RecvOk(Start())
  {
  }

  lemma {:induction false} NoPhantomValue(got: seq<int>)
    requires Phantoms(got) == 0
    ensures -1 !in got
  {
    if got != [] {
      NoPhantomValue(got[1..]);
      assert got == [got[0]] + got[1..];
    }
  }
}
