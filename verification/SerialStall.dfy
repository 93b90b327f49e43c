/** A run that stalls: 22 letters are sent, which fill the buffer behind the first and block
    StdoutProc; two NULs are received and echoed; one transmit interrupt comes, and no more is due. */
module SerialStall {
  import opened Params
  import opened Port
  import opened KernelState
  import opened Serial

  const LETTER := 97

  function Letters(n: nat): seq<int> {
    seq(n, _ => LETTER)
  }

  const STEP := OutStep([], OtherCause, 0)

  function OneLetter(): seq<Action> {
    [STEP, STEP, STEP, STEP]
  }

  function FillBuffer(n: nat): seq<Action> {
    if n == 0 then [] else OneLetter() + FillBuffer(n - 1)
  }

  function BlockThenNuls(): seq<Action> {
    [STEP] + ([STEP] + ([Interrupt(RxReady, 0)] + ([Interrupt(RxReady, 0)] + ([Interrupt(TxReady, 0)] + []))))
  }

  function StallRun(): seq<Action> {
    [OutStep(Letters(22), OtherCause, 0)] + (OneLetter() + (FillBuffer(20) + BlockThenNuls()))
  }

  /** n letters queued behind the one being sent, r more to come. */
  predicate Filling(s: Serial, n: nat, r: nat) {
    n <= Q_LEN && s.out == OutTest && s.rest == Letters(r) && s.txSem == Sem(Q_LEN - n, [])
    && s.port.tx == Letters(n) && s.port.echo == [] && s.port.rx == [] && s.port.echoOn && !s.port.txReady
  }

  lemma RunCons(s: Serial, a: Action, acts: seq<Action>)
    ensures RunAll(s, [a] + acts) == RunAll(Act(s, a), acts)
    ensures PossibleRun(s, [a] + acts) <==> Possible(s, a) && PossibleRun(Act(s, a), acts)
  {
    assert ([a] + acts)[1..] == acts;
  }

  /** Four steps of StdoutProc come before `acts`. */
  lemma RunFour(s: Serial, acts: seq<Action>) returns (s1: Serial, s2: Serial, s3: Serial, s': Serial)
    ensures s1 == Act(s, STEP) && s2 == Act(s1, STEP) && s3 == Act(s2, STEP) && s' == Act(s3, STEP)
    ensures RunAll(s, OneLetter() + acts) == RunAll(s', acts)
    ensures PossibleRun(s, OneLetter() + acts)
      <==> Possible(s, STEP) && Possible(s1, STEP) && Possible(s2, STEP) && Possible(s3, STEP) && PossibleRun(s', acts)
  {
    hide Act, Possible, RunAll, PossibleRun;
    s1 := Act(s, STEP);
    s2 := Act(s1, STEP);
    s3 := Act(s2, STEP);
    s' := Act(s3, STEP);
    RunCons(s, STEP, [STEP] + ([STEP] + ([STEP] + acts)));
    RunCons(s1, STEP, [STEP] + ([STEP] + acts));
    RunCons(s2, STEP, [STEP] + acts);
    RunCons(s3, STEP, acts);
    assert OneLetter() + acts == [STEP] + ([STEP] + ([STEP] + ([STEP] + acts)));
  }

  lemma FillOne(s: Serial, n: nat, r: nat, acts: seq<Action>) returns (s': Serial)
    requires Filling(s, n, r) && n < Q_LEN && r > 0
    ensures Filling(s', n + 1, r - 1) && RunAll(s, OneLetter() + acts) == RunAll(s', acts)
    ensures PossibleRun(s', acts) ==> PossibleRun(s, OneLetter() + acts)
  {
    hide RunAll, PossibleRun;
    var s1, s2, s3;
    s1, s2, s3, s' := RunFour(s, acts);
    assert s.rest[0] == LETTER && s.rest[1..] == Letters(r - 1) && Letters(n) + [LETTER] == Letters(n + 1);
  }

  lemma {:induction false} FillMany(s: Serial, n: nat, r: nat, count: nat, acts: seq<Action>) returns (s': Serial)
    requires Filling(s, n, r) && n + count <= Q_LEN && count <= r
    ensures Filling(s', n + count, r - count) && RunAll(s, FillBuffer(count) + acts) == RunAll(s', acts)
    ensures PossibleRun(s', acts) ==> PossibleRun(s, FillBuffer(count) + acts)
    decreases count
  {
    hide Filling, OneLetter, RunAll, PossibleRun;
    if count == 0 {
      s' := s;
      assert FillBuffer(0) + acts == acts;
    } else {
      var more := FillBuffer(count - 1) + acts;
      assert FillBuffer(count) + acts == OneLetter() + more;
      var s1 := FillOne(s, n, r, more);
      s' := FillMany(s1, n + 1, r - 1, count - 1, acts);
    }
  }

  /** The first letter goes straight to the idle port. */
  lemma FirstLetter(acts: seq<Action>) returns (s': Serial)
    ensures Filling(s', 0, 21)
    ensures RunAll(Start(), [OutStep(Letters(22), OtherCause, 0)] + (OneLetter() + acts)) == RunAll(s', acts)
    ensures PossibleRun(s', acts) ==> PossibleRun(Start(), [OutStep(Letters(22), OtherCause, 0)] + (OneLetter() + acts))
  {
    hide RunAll, PossibleRun;
    var first := OutStep(Letters(22), OtherCause, 0);
    RunCons(Start(), first, OneLetter() + acts);
    var s1, s2, s3, s4;
    s1 := Act(Start(), first);
    s2, s3, s4, s' := RunFour(s1, acts);
    assert s1.rest[0] == LETTER && s1.rest[1..] == Letters(21);
  }

  lemma BlockSteps(s: Serial) returns (s1: Serial, s2: Serial)
    requires Filling(s, 20, 1)
    ensures s1 == Act(s, STEP) && s2 == Act(s1, STEP) && Possible(s, STEP) && Possible(s1, STEP)
    ensures s2.txSem == Sem(0, [STDOUT]) && |s2.port.tx| == Q_LEN
    ensures s2.port.echo == [] && s2.port.rx == [] && s2.port.echoOn && !s2.port.txReady
  {
    s1 := Act(s, STEP);
    s2 := Act(s1, STEP);
  }

  lemma NulReceived(s: Serial)
    requires s.port.echoOn && !s.port.txReady && |s.port.echo| < Q_LEN && |s.port.rx| < Q_LEN
    ensures var s' := Irq(s, RxReady, 0);
      s'.port.echo == s.port.echo + [0] && |s'.port.rx| == |s.port.rx| + 1 && s'.port.tx == s.port.tx
      && s'.txSem == s.txSem && s'.port.echoOn && !s'.port.txReady
  {
  }

  lemma NulsStrand(s: Serial)
    requires Filling(s, 20, 1)
    ensures PossibleRun(s, BlockThenNuls())
    ensures var s' := RunAll(s, BlockThenNuls());
      STDOUT in s'.txSem.waiters && s'.port.txReady && !s'.due && |s'.port.tx| == Q_LEN
  {
    hide Irq, OutNext, Filling;
    var s1, s2 := BlockSteps(s);
    var nul, tx := Interrupt(RxReady, 0), Interrupt(TxReady, 0);
    NulReceived(s2);
    var s3 := Act(s2, nul);
    NulReceived(s3);
    var s4 := Act(s3, nul);
    TwoNuls(s4);
    FiveRun(s, STEP, STEP, nul, nul, tx);
  }

  lemma FiveRun(s: Serial, a: Action, b: Action, c: Action, d: Action, e: Action)
    ensures var s1 := Act(s, a);
      var s2 := Act(s1, b);
      var s3 := Act(s2, c);
      var s4 := Act(s3, d);
      var acts := [a] + ([b] + ([c] + ([d] + ([e] + []))));
      RunAll(s, acts) == Act(s4, e)
      && (PossibleRun(s, acts)
          <==> Possible(s, a) && Possible(s1, b) && Possible(s2, c) && Possible(s3, d) && Possible(s4, e))
  {
    hide Act, Possible;
    var s1 := Act(s, a);
    var s2 := Act(s1, b);
    var s3 := Act(s2, c);
    var s4 := Act(s3, d);
    RunCons(s, a, [b] + ([c] + ([d] + ([e] + []))));
    RunCons(s1, b, [c] + ([d] + ([e] + [])));
    RunCons(s2, c, [d] + ([e] + []));
    RunCons(s3, d, [e] + []);
    RunCons(s4, e, []);
  }

  lemma TwoNuls(s: Serial)
    requires s.port.echo == [0, 0]
    ensures var s' := Irq(s, TxReady, 0);
      s'.port.txReady && !s'.due && s'.port.echo == [] && s'.port.tx == s.port.tx && s'.txSem == s.txSem
  {
    var p1 := TxPort(s.port);
    assert p1.echo == [0] && p1.txReady;
    assert TxPort(p1).echo == [];
  }

  /** With NULs echoed the property fails: a possible run from start-up that ends with StdoutProc
      blocked, the port idle and no interrupt due. */
  lemma NulsStall()
    ensures PossibleRun(Start(), StallRun())
    ensures var s := RunAll(Start(), StallRun());
      STDOUT in s.txSem.waiters && s.port.txReady && !s.due && |s.port.tx| == Q_LEN
  {
    hide Filling, OneLetter, RunAll, PossibleRun, FillBuffer, BlockThenNuls;
    var s1 := FirstLetter(FillBuffer(20) + BlockThenNuls());
    var s2 := FillMany(s1, 0, 21, 20, BlockThenNuls());
    NulsStrand(s2);
  }

  /** What ends such a stall: the next character received, unless it is itself an echoed NUL, has
      the handler send again. */
  lemma CharacterRevives(s: Serial, data: int)
    requires OutOk(s) && s.port.txReady && s.port.echo == [] && s.port.tx != []
    ensures s.port.echoOn && data % 128 == 0 ==> Irq(s, RxReady, data).port.txReady
    ensures !(s.port.echoOn && data % 128 == 0) ==>
      !Irq(s, RxReady, data).port.txReady && Irq(s, RxReady, data).due
  {
    assert s.port.tx[0] != 0;
    var p := RxPort(s.port, data);
    assert p.tx == s.port.tx && (p.echo == [] || p.echo[0] == data % 128);
  }
}
