/** The terminal's traffic in terms of what goes in: the characters received, the texts to print and
    the echo mode, read off the actions of a run. */
module SerialTraffic {
  import opened Params
  import opened Port
  import opened KernelState
  import opened Sequences
  import opened Serial

  /** The step takes a character from the line. */
  predicate TakesChar(s: Serial, a: Action) {
    RunsHandler(s, a) && a.cause == RxReady
  }

  // What is echoed

  /** A '\r' is always echoed, as "\r\n"; any other character if and only if the echo is on. */
  function EchoOf(c: int, on: bool): seq<int> {
    if c == CR then [CR, LF] else if on then [c] else []
  }

  /** The terminal shows no NUL. */
  function Visible(q: seq<int>): seq<int> {
    if q == [] then []
    else if q[0] != 0 then [q[0]] + Visible(q[1..])
    else Visible(q[1..])
  }

  /** Echoed characters on the wire. */
  function Echoes(wire: seq<Sent>): seq<int> {
    if wire == [] then []
    else if wire[0].Echo? then [wire[0].ch] + Echoes(wire[1..])
    else Echoes(wire[1..])
  }

  function EchoDue(s: Serial, a: Action, on: bool): seq<int> {
    if TakesChar(s, a) then Visible(EchoOf(a.data % 128, on)) else []
  }

  function ModeAfter(a: Action, on: bool): bool {
    if a.SetEcho? then a.on else on
  }

  /** What a run that begins with this echo mode should echo. */
  function EchoText(s: Serial, acts: seq<Action>, on: bool): seq<int>
    decreases |acts|
  {
    if acts == [] then []
    else EchoDue(s, acts[0], on) + EchoText(Act(s, acts[0]), acts[1..], ModeAfter(acts[0], on))
  }

  /** The echo buffer has room for what each received character adds. */
  predicate EchoFits(s: Serial, acts: seq<Action>, on: bool)
    decreases |acts|
  {
    acts == []
    || ((TakesChar(s, acts[0]) ==> |s.port.echo| + |EchoOf(acts[0].data % 128, on)| <= Q_LEN)
        && EchoFits(Act(s, acts[0]), acts[1..], ModeAfter(acts[0], on)))
  }

  /** Echoed so far and still to be echoed. */
  function Echoed(p: Port): seq<int> {
    Echoes(p.wire) + Visible(p.echo)
  }

  lemma {:induction false} VisibleAppend(a: seq<int>, b: seq<int>)
    ensures Visible(a + b) == Visible(a) + Visible(b)
  {
    if a == [] {
      assert a + b == b;
    } else {
      VisibleAppend(a[1..], b);
      assert (a + b)[1..] == a[1..] + b && (a + b)[0] == a[0];
      assert [a[0]] + (Visible(a[1..]) + Visible(b)) == ([a[0]] + Visible(a[1..])) + Visible(b);
    }
  }

  lemma {:induction false} EchoesAppend(a: seq<Sent>, c: Sent)
    ensures Echoes(a + [c]) == if c.Echo? then Echoes(a) + [c.ch] else Echoes(a)
  {
    if a == [] {
      assert a + [c] == [c] && [c][1..] == [];
    } else {
      EchoesAppend(a[1..], c);
      assert (a + [c])[1..] == a[1..] + [c] && (a + [c])[0] == a[0];
    }
  }

  /** TX moves an echo from buffer to wire, or leaves both. */
  lemma TxEchoes(p: Port)
    ensures Echoed(TxPort(p)) == Echoed(p) && TxPort(p).echoOn == p.echoOn
  {
    if |p.echo| > 0 {
      var c := p.echo[0];
      assert p.echo == [c] + p.echo[1..];
      EchoesAppend(p.wire, Echo(c));
      if c != 0 {
        assert (Echoes(p.wire) + [c]) + Visible(p.echo[1..]) == Echoes(p.wire) + ([c] + Visible(p.echo[1..]));
      }
    } else if |p.tx| > 0 {
      EchoesAppend(p.wire, Text(p.tx[0]));
    }
  }

  lemma RxEchoes(p: Port, data: int)
    requires |p.echo| + |EchoOf(data % 128, p.echoOn)| <= Q_LEN
    ensures Echoed(RxPort(p, data)) == Echoed(p) + Visible(EchoOf(data % 128, p.echoOn))
    ensures RxPort(p, data).echoOn == p.echoOn
  {
    hide Visible, Echoes;
    var e := EchoOf(data % 128, p.echoOn);
    assert RxPort(p, data).echo == p.echo + e;
    VisibleAppend(p.echo, e);
    assert Echoes(p.wire) + (Visible(p.echo) + Visible(e)) == (Echoes(p.wire) + Visible(p.echo)) + Visible(e);
  }

  lemma HandlerEchoes(s: Serial, cause: Cause, data: int)
    requires cause == RxReady ==> |s.port.echo| + |EchoOf(data % 128, s.port.echoOn)| <= Q_LEN
    ensures var due := if cause == RxReady then Visible(EchoOf(data % 128, s.port.echoOn)) else [];
      Echoed(Irq(s, cause, data).port) == Echoed(s.port) + due
    ensures Irq(s, cause, data).port.echoOn == s.port.echoOn
  {
    hide TxPort, RxPort, Echoed, Visible, EchoOf;
    if cause == RxReady {
      RxEchoes(s.port, data);
    } else {
      TxEchoes(s.port);
      assert Echoed(s.port) + [] == Echoed(s.port);
    }
    TxEchoes(AfterCause(s, cause, data).port);
  }

  lemma ActEchoes(s: Serial, a: Action)
    requires TakesChar(s, a) ==> |s.port.echo| + |EchoOf(a.data % 128, s.port.echoOn)| <= Q_LEN
    ensures Echoed(Act(s, a).port) == Echoed(s.port) + EchoDue(s, a, s.port.echoOn)
    ensures Act(s, a).port.echoOn == ModeAfter(a, s.port.echoOn)
  {
    hide Irq, Visible, EchoOf, Echoes;
    match a {
      case Interrupt(cause, data) => HandlerEchoes(s, cause, data);
      case OutStep(_, cause, data) =>
        if s.out == OutTip {
          HandlerEchoes(s, cause, data);
        } else {
          assert Echoed(s.port) + [] == Echoed(s.port);
        }
      case _ => assert Echoed(s.port) + [] == Echoed(s.port);
    }
  }

  lemma {:induction false} RunEchoes(s: Serial, acts: seq<Action>)
    requires EchoFits(s, acts, s.port.echoOn)
    ensures Echoed(RunAll(s, acts).port) == Echoed(s.port) + EchoText(s, acts, s.port.echoOn)
    decreases |acts|
  {
    hide Act, Echoed, EchoDue, EchoOf, TakesChar;
    if acts != [] {
      ActEchoes(s, acts[0]);
      RunEchoes(Act(s, acts[0]), acts[1..]);
    }
  }

  /** Echo, over every run from start-up in which the echo buffer does not overrun: the echoes on the
      wire, then those in the buffer, are the received characters that were to be echoed, in order. */
  lemma EchoIsInput(acts: seq<Action>)
    requires EchoFits(Start(), acts, true)
    ensures var p := RunAll(Start(), acts).port;
      Echoes(p.wire) + Visible(p.echo) == EchoText(Start(), acts, true)
  {
    hide RunAll, EchoText, EchoFits;
    RunEchoes(Start(), acts);
    assert Echoed(Start().port) == [];
  }

  // What is received

  function ReceivedAt(s: Serial, a: Action): seq<int> {
    if TakesChar(s, a) then [a.data % 128] else []
  }

  /** The characters that came in on the line, seven bits each. */
  function Received(s: Serial, acts: seq<Action>): seq<int>
    decreases |acts|
  {
    if acts == [] then [] else ReceivedAt(s, acts[0]) + Received(Act(s, acts[0]), acts[1..])
  }

  /** The handler's account of characters received; it keeps away from StdinProc's memory. */
  lemma HandlerAccepts(s: Serial, cause: Cause, data: int)
    ensures var s', c := Irq(s, cause, data), if cause == RxReady then [data % 128] else [];
      s'.dropped >= s.dropped && (s'.dropped == s.dropped ==> s'.accepted == s.accepted + c)
      && s'.line == s.line && s'.replies == s.replies
  {
    hide TxPort, RxPort;
    assert s.accepted + [] == s.accepted;
  }

  lemma ActAccepts(s: Serial, a: Action)
    ensures Act(s, a).dropped >= s.dropped
    ensures Act(s, a).dropped == s.dropped ==> Act(s, a).accepted == s.accepted + ReceivedAt(s, a)
  {
    hide Irq;
    assert s.accepted + [] == s.accepted;
    match a {
      case Interrupt(cause, data) => HandlerAccepts(s, cause, data);
      case OutStep(_, cause, data) => HandlerAccepts(s, cause, data);
      case _ =>
    }
  }

  lemma {:induction false} RunAccepts(s: Serial, acts: seq<Action>)
    ensures RunAll(s, acts).dropped >= s.dropped
    ensures RunAll(s, acts).dropped == s.dropped ==> RunAll(s, acts).accepted == s.accepted + Received(s, acts)
    decreases |acts|
  {
    hide Act, ReceivedAt;
    if acts != [] {
      ActAccepts(s, acts[0]);
      RunAccepts(Act(s, acts[0]), acts[1..]);
    }
  }

  /** No line holds the '\r' that would have ended it. */
  predicate LinesOk(s: Serial) {
    CR !in s.line && forall k :: 0 <= k < |s.replies| ==> CR !in s.replies[k]
  }

  lemma ActLines(s: Serial, a: Action)
    requires LinesOk(s)
    ensures LinesOk(Act(s, a))
  {
    hide Irq;
    match a {
      case Interrupt(cause, data) => HandlerAccepts(s, cause, data);
      case OutStep(_, cause, data) => HandlerAccepts(s, cause, data);
      case _ =>
    }
  }

  lemma {:induction false} RunLines(s: Serial, acts: seq<Action>)
    requires LinesOk(s)
    ensures LinesOk(RunAll(s, acts))
    decreases |acts|
  {
    hide Act, LinesOk;
    if acts != [] {
      ActLines(s, acts[0]);
      RunLines(Act(s, acts[0]), acts[1..]);
    }
  }

  /** Input, over every run from start-up in which the receive buffer does not overrun: the lines sent
      back, which hold no '\r', each with one, then the line being gathered and the buffer, are the
      characters that came in. */
  lemma InputIsLines(acts: seq<Action>)
    requires PossibleRun(Start(), acts) && RunAll(Start(), acts).dropped == 0
    ensures var s := RunAll(Start(), acts);
      LinesOk(s) && Joined(s.replies) + Gathered(s) + s.port.rx == Received(Start(), acts)
  {
    hide RunAll, Received, PossibleRun, Joined, Gathered;
    LinesAreInput(acts);
    RunAccepts(Start(), acts);
    RunLines(Start(), acts);
  }

  // What is printed

  function TextAt(s: Serial, a: Action): seq<int> {
    if a.OutStep? && s.out == OutFetch then a.text else []
  }

  /** The texts StdoutProc was given, one after another. */
  function GivenText(s: Serial, acts: seq<Action>): seq<int>
    decreases |acts|
  {
    if acts == [] then [] else TextAt(s, acts[0]) + GivenText(Act(s, acts[0]), acts[1..])
  }

  /** Between texts nothing is left of the last one. */
  predicate RestOk(s: Serial) {
    s.out == OutFetch || s.out == OutReply ==> s.rest == []
  }

  lemma ActText(s: Serial, a: Action)
    requires SendOk(s) && RestOk(s)
    ensures RestOk(Act(s, a)) && Act(s, a).done + Act(s, a).rest == s.done + s.rest + TextAt(s, a)
  {
    hide Irq, WireOk, FlowOk;
    var d, r := s.done, s.rest;
    assert d + r + [] == d + r && d + [] == d;
    match a {
      case Interrupt(cause, data) => IrqKeepsSend(s, cause, data);
      case OutStep(_, cause, data) =>
        IrqKeepsSend(s, cause, data);
        if s.out == OutTip {
          assert (d + [r[0]]) + r[1..] == d + r;
        }
      case _ =>
    }
  }

  lemma {:induction false} RunText(s: Serial, acts: seq<Action>)
    requires SendOk(s) && RestOk(s) && PossibleRun(s, acts)
    ensures var r := RunAll(s, acts); RestOk(r) && r.done + r.rest == s.done + s.rest + GivenText(s, acts)
    decreases |acts|
  {
    hide Act, SendOk, RestOk, TextAt, Possible;
    if acts != [] {
      ActText(s, acts[0]);
      ActKeepsSend(s, acts[0]);
      RunText(Act(s, acts[0]), acts[1..]);
    }
  }

  /** Output, over every run from start-up: what is on the wire for StdoutProc, then TX_buffer, is the
      front part of the texts given to it, each '\n' as "\n\r" - all of them when it waits for
      the next. */
  lemma OutputIsGiven(acts: seq<Action>)
    requires PossibleRun(Start(), acts)
    ensures var s := RunAll(Start(), acts);
      Texts(s.port.wire) + s.port.tx == Expand(s.done) + InHand(s)
      && s.done + s.rest == GivenText(Start(), acts) && RestOk(s)
  {
    hide RunAll, GivenText, PossibleRun, Texts, Expand, InHand;
    StartSend();
    OutputIsText(acts);
    RunText(Start(), acts);
  }
}
