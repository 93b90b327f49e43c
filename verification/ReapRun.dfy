/** A run from boot in which WaitISR as written breaks the kernel: one process forks, its child
    writes to it and exits, and it waits for the child. */
module ReapRun {
  import opened Params
  import opened KernelState
  import opened Partition
  import opened Pages
  import opened Invariant
  import opened Lifecycle
  import opened Runs

  const F := Frame(0, 0, 0)
  const RCV := Entry(MsgRcv, F)
  const WAKE := Entry(MsgSnd(Msg(0, 1, 0, [], [])), F)   // a message to PID 1

  function Call(s: State, i: Interrupt): State {
    Step(s, Entry(i, F), AsWritten)
  }

  /** Who runs, who is next, and that nobody has mail. */
  ghost predicate At6(s: State, running: int, ready: seq<int>) {
    Inv(s) && s.running == running && s.ready == ready
    && (forall p :: 1 <= p <= 6 ==> s.mbox[p].msgs == [])
  }

  /** PID 6 is a child of PID 1 and owns page 0. */
  predicate Child(s: State)
    requires Shape(s)
  {
    s.owner[0] == 6 && s.pcb[6].ppid == 1
  }

  lemma FirstTick(t: int)
    ensures At6(Call(Boot(t), Timer), 1, [2, 3, 4, 5]) && Call(Boot(t), Timer).mbox[1].waiters == []
    ensures Sound(Boot(t), Entry(Timer, F), AsWritten)
    ensures Call(Boot(t), Timer).free == Interval(6, 14) && Call(Boot(t), Timer).owner == Boot(t).owner
  {
    hide Inv;
    var s := Boot(t);
    BootInv(t);
    assert Inv(Call(s, Timer)) by { StepKeeps(s, Entry(Timer, F), AsWritten); }
    assert Interval(1, 5) == [1, 2, 3, 4, 5];
  }

  lemma Forked(s: State)
    requires At6(s, 1, [2, 3, 4, 5]) && s.free == Interval(6, 14) && s.owner[0] == -1
    ensures At6(Call(s, Fork), 1, [2, 3, 4, 5, 6]) && Child(Call(s, Fork))
    ensures Call(s, Fork).mbox[1] == s.mbox[1] && Sound(s, Entry(Fork, F), AsWritten)
  {
    hide Partitioned, PagesOk, ExitOk, SemsOk, BoxesOk, QuantaOk;
    var s1 := SaveFrame(s, F);
    SaveFrameKeeps(s, F);
    ForkGives(s1);
    StepKeeps(s, Entry(Fork, F), AsWritten);
    IntervalMembers(0, BLOCK);
    assert Head(s1.owner, 0) == -1;
    assert BlockPages(0)[0] == 0;
  }

  /** A process without mail waits for some, and the next one runs. */
  lemma Receives(s: State, running: int, ready: seq<int>)
    requires At6(s, running, ready) && 1 <= running <= 6 && ready != [] && Child(s)
    ensures At6(Step(s, RCV, AsWritten), ready[0], ready[1..]) && Child(Step(s, RCV, AsWritten))
    ensures Sound(s, RCV, AsWritten)
    ensures var s' := Step(s, RCV, AsWritten);
      s'.mbox[1].waiters == if running == 1 then s.mbox[1].waiters + [1] else s.mbox[1].waiters
  {
    hide Partitioned, PagesOk, ExitOk, SemsOk, BoxesOk, QuantaOk;
    StepKeeps(s, RCV, AsWritten);
    HeadFits(s, InReady);
  }

  lemma Wakes(s: State)
    requires At6(s, 6, []) && Child(s) && s.mbox[1].waiters == [1]
    ensures At6(Step(s, WAKE, AsWritten), 6, [1]) && Child(Step(s, WAKE, AsWritten))
    ensures Sound(s, WAKE, AsWritten)
  {
    hide Partitioned, PagesOk, ExitOk, SemsOk, BoxesOk, QuantaOk;
    StepKeeps(s, WAKE, AsWritten);
  }

  lemma Exits(s: State)
    requires At6(s, 6, [1]) && Child(s)
    ensures At6(Call(s, Exit), 1, []) && Child(Call(s, Exit)) && Call(s, Exit).pcb[6].state == Zombie
    ensures Sound(s, Entry(Exit, F), AsWritten)
  {
    hide PagesOk, ExitOk, SemsOk, BoxesOk, QuantaOk;
    StepKeeps(s, Entry(Exit, F), AsWritten);
    HeadFits(s, InReady);
  }

  /** One more event of a run. */
  lemma {:induction false} OneMore(s: State, es: seq<Event>, e: Event)
    requires SoundRun(s, es, AsWritten) && Sound(Run(s, es, AsWritten), e, AsWritten)
    ensures SoundRun(s, es + [e], AsWritten)
    ensures Run(s, es + [e], AsWritten) == Step(Run(s, es, AsWritten), e, AsWritten)
    decreases |es|
  {
    hide Step, Sound;
    if es == [] {
      assert es + [e] == [e] && [e][1..] == [];
    } else {
      assert (es + [e])[1..] == es[1..] + [e];
      OneMore(Step(s, es[0], AsWritten), es[1..], e);
    }
  }

  const STORY: seq<Event> :=
    [Entry(Timer, F), Entry(Fork, F), RCV, RCV, RCV, RCV, RCV, WAKE, Entry(Exit, F)]

  /** The state after n events of the story. */
  function After(t: int, n: nat): State
    requires n <= |STORY|
  {
    Run(Boot(t), STORY[..n], AsWritten)
  }

  lemma Turn(t: int, n: nat)
    requires n < |STORY| && SoundRun(Boot(t), STORY[..n], AsWritten) && Sound(After(t, n), STORY[n], AsWritten)
    ensures SoundRun(Boot(t), STORY[..n + 1], AsWritten)
    ensures After(t, n + 1) == Step(After(t, n), STORY[n], AsWritten)
  {
    hide Step, Boot, Sound;
    OneMore(Boot(t), STORY[..n], STORY[n]);
    assert STORY[..n + 1] == STORY[..n] + [STORY[n]];
  }

  lemma Beginning(t: int)
    ensures SoundRun(Boot(t), STORY[..2], AsWritten)
    ensures At6(After(t, 2), 1, [2, 3, 4, 5, 6]) && Child(After(t, 2)) && After(t, 2).mbox[1].waiters == []
  {
    hide At6, Step, Boot, Sound, Child;
    assert STORY[..0] == [];
    FirstTick(t);
    Turn(t, 0);
    assert After(t, 1).owner[0] == -1 by { BootOwner(t); }
    Forked(After(t, 1));
    Turn(t, 1);
  }

  lemma BootOwner(t: int)
    ensures |Boot(t).owner| == DRAM_PAGE_COUNT && Boot(t).owner[0] == -1
  {
  }

  lemma FirstMeet(t: int)
    requires SoundRun(Boot(t), STORY[..2], AsWritten)
    requires At6(After(t, 2), 1, [2, 3, 4, 5, 6]) && Child(After(t, 2)) && After(t, 2).mbox[1].waiters == []
    ensures SoundRun(Boot(t), STORY[..5], AsWritten)
    ensures At6(After(t, 5), 4, [5, 6]) && Child(After(t, 5)) && After(t, 5).mbox[1].waiters == [1]
  {
    hide At6, Step, Boot, Sound, Child, After, Shape;
    assert [4, 5, 6][1..] == [5, 6];
    assert [3, 4, 5, 6][1..] == [4, 5, 6] && [2, 3, 4, 5, 6][1..] == [3, 4, 5, 6];
    Receives(After(t, 2), 1, [2, 3, 4, 5, 6]);
    Turn(t, 2);
    Receives(After(t, 3), 2, [3, 4, 5, 6]);
    Turn(t, 3);
    Receives(After(t, 4), 3, [4, 5, 6]);
    Turn(t, 4);
  }

  lemma Meeting(t: int)
    requires SoundRun(Boot(t), STORY[..5], AsWritten)
    requires At6(After(t, 5), 4, [5, 6]) && Child(After(t, 5)) && After(t, 5).mbox[1].waiters == [1]
    ensures SoundRun(Boot(t), STORY[..7], AsWritten)
    ensures At6(After(t, 7), 6, []) && Child(After(t, 7)) && After(t, 7).mbox[1].waiters == [1]
  {
    hide At6, Step, Boot, Sound, Child, After, Shape;
    assert [6][1..] == [] && [5, 6][1..] == [6];
    Receives(After(t, 5), 4, [5, 6]);
    Turn(t, 5);
    Receives(After(t, 6), 5, [6]);
    Turn(t, 6);
  }

  lemma Ending(t: int)
    requires SoundRun(Boot(t), STORY[..7], AsWritten)
    requires At6(After(t, 7), 6, []) && Child(After(t, 7)) && After(t, 7).mbox[1].waiters == [1]
    ensures SoundRun(Boot(t), STORY, AsWritten)
    ensures At6(After(t, 9), 1, []) && Child(After(t, 9)) && After(t, 9).pcb[6].state == Zombie
  {
    hide At6, Step, Boot, Sound, Child, After;
    Wakes(After(t, 7));
    Turn(t, 7);
    Exits(After(t, 8));
    Turn(t, 8);
    assert STORY[..9] == STORY;
  }

  lemma Reaped(r: State, below: Pcb)
    requires At6(r, 1, []) && Child(r) && r.pcb[6].state == Zombie
    ensures var b := Step(r, Entry(Wait(below), F), AsWritten);
      |b.pcb| == MAX_PROC_NUM && 6 in b.free && b.pcb[6].state == Zombie
  {
    hide Partitioned, PagesOk, ExitOk, SemsOk, BoxesOk, QuantaOk;
    var s := SaveFrame(r, F);
    assert ShowsZombie(s, below, 0);
    assert Step(r, Entry(Wait(below), F), AsWritten) == Reap(s, below, 0, AsWritten);
    assert Reap(s, below, 0, AsWritten).free[|r.free|] == 6;
  }

  /** From boot, through events the environment may cause and in none of which a Wait reaps, the
      kernel comes to a Wait that does, whatever lies below the process table; after it a
      zombie's PID is in the free queue and the invariant is gone. */
  lemma ReachableBreak(t: int, below: Pcb)
    ensures SoundRun(Boot(t), STORY, AsWritten)
    ensures var b := Step(Run(Boot(t), STORY, AsWritten), Entry(Wait(below), F), AsWritten);
      |b.pcb| == MAX_PROC_NUM && 6 in b.free && b.pcb[6].state == Zombie
    ensures var r := Run(Boot(t), STORY, AsWritten);
      Inv(r) && Enabled(r, Entry(Wait(below), F)) && Reaps(r, Entry(Wait(below), F))
      && !Inv(Step(r, Entry(Wait(below), F), AsWritten))
  {
    hide Step, Boot, Partitioned, PagesOk, ExitOk, SemsOk, BoxesOk, QuantaOk;
    Beginning(t);
    FirstMeet(t);
    Meeting(t);
    Ending(t);
    assert STORY[..9] == STORY;
    var r := After(t, 9);
    assert ShowsZombie(SaveFrame(r, F), below, 0);
    AsWrittenExactly(r, Entry(Wait(below), F));
    Reaped(r, below);
  }
}
