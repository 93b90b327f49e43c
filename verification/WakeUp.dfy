/** Sleepers wake on exactly the tick they asked for, in the order they went to sleep. */
module WakeUp {
  import opened Params
  import opened Port
  import opened KernelState
  import opened Partition
  import opened Pages
  import opened Invariant
  import opened Lifecycle
  import opened Bystanders
  import opened Runs
  import opened Fairness

  /** Ticks until the 32-bit clock next equals a wake time: 1 to 2^32. */
  function Left(wake: int, clock: int): (r: int)
    ensures 1 <= r <= CLOCK_WRAP
  {
    var r := (wake - clock) % CLOCK_WRAP;
    if r == 0 then CLOCK_WRAP else r
  }

  function Remaining(s: State, p: int): int {
    Left(At(s.pcb, p).wake, s.clock)
  }

  /** Ticks slept by a Sleep call whose argument register holds n. */
  function Delay(n: int): int {
    var r := n * 100 % CLOCK_WRAP;
    if r == 0 then CLOCK_WRAP else r
  }

  /** Sleep(n) lasts 100 n ticks exactly for these n; Sleep(0) lasts a whole turn of the clock. */
  lemma SleepLasts(n: int)
    requires 0 <= n < CLOCK_WRAP
    ensures Delay(n) == 100 * n <==> 1 <= n <= 42949672
  {
    if n == 0 {
      assert Delay(n) == CLOCK_WRAP;
    } else if n <= 42949672 {
      assert n * 100 % CLOCK_WRAP == n * 100;
    } else {
      assert 100 * n > CLOCK_WRAP;
    }
  }

  lemma SleepCallStarts(s: State)
    requires Inv(s) && 1 <= s.running
    ensures Partitioned(SleepCall(s)) && At(SleepCall(s).pcb, s.running).state == Sleeping
    ensures Remaining(SleepCall(s), s.running) == Delay(At(s.pcb, s.running).frame.eax)
  {
    SleepKeeps(s);
    ModShift(At(s.pcb, s.running).frame.eax * 100, s.clock);
  }

  lemma SleepStarts(s: State, f: Frame, v: Variant)
    requires Inv(s) && Settled(s) && 1 <= s.running
    ensures At(AfterSleep(s, f, v).pcb, s.running).state == Sleeping
    ensures Remaining(AfterSleep(s, f, v), s.running) == Delay(f.eax)
  {
    hide Partitioned, PagesOk, SemsOk, BoxesOk, QuantaOk, ExitOk;
    SaveFrameKeeps(s, f);
    SleepCallStarts(SaveFrame(s, f));
    SchedulerTouches(SleepCall(SaveFrame(s, f)));
  }

  lemma ModShift(x: int, c: int)
    requires 0 <= c < CLOCK_WRAP
    ensures ((c + x) % CLOCK_WRAP - c) % CLOCK_WRAP == x % CLOCK_WRAP
  {
    var q, r := x / CLOCK_WRAP, x % CLOCK_WRAP;
    assert x == q * CLOCK_WRAP + r;
    if c + r < CLOCK_WRAP {
      ModUnique(c + x, q, c + r);
    } else {
      ModUnique(c + x, q + 1, c + r - CLOCK_WRAP);
      ModUnique(r - CLOCK_WRAP, -1, r);
    }
  }

  lemma ModUnique(x: int, q: int, r: int)
    requires x == q * CLOCK_WRAP + r && 0 <= r < CLOCK_WRAP
    ensures x % CLOCK_WRAP == r
  {
  }

  lemma LeftStep(w: int, c: int)
    requires 0 <= c < CLOCK_WRAP && 0 <= w < CLOCK_WRAP
    ensures Left(w, c) == 1 <==> w == (c + 1) % CLOCK_WRAP
    ensures Left(w, c) != 1 ==> Left(w, (c + 1) % CLOCK_WRAP) == Left(w, c) - 1
  {
    var c' := if c + 1 == CLOCK_WRAP then 0 else c + 1;
    assert (c + 1) % CLOCK_WRAP == c';
    ModUnique(w - c, if w < c then -1 else 0, if w < c then w - c + CLOCK_WRAP else w - c);
    ModUnique(w - c', if w < c' then -1 else 0, if w < c' then w - c' + CLOCK_WRAP else w - c');
  }

  /** What one step does to a sleeper: nothing, or one tick less to wait, or awake. */
  predicate SleptOn(s: State, s': State, p: int, tick: bool) {
    if tick && Remaining(s, p) == 1 then At(s'.pcb, p).state == Ready || At(s'.pcb, p).state == Running
    else At(s'.pcb, p).state == Sleeping && Remaining(s', p) == Remaining(s, p) - (if tick then 1 else 0)
  }

  lemma ServeSleeper(s: State, intr: Interrupt, v: Variant, p: int)
    requires Inv(s) && 0 <= s.running && Enabled(s, Entry(intr, s.pcb[s.running].frame))
    requires IsPid(p) && s.pcb[p].state == Sleeping
    ensures SleptOn(s, Serve(s, intr, v), p, intr.Timer?)
  {
    hide Left, Tick, Partitioned, PagesOk, SemsOk, BoxesOk, ExitOk;
    if intr == Timer {
      TickBystander(s, p);
      LeftStep(s.pcb[p].wake, s.clock);
    } else {
      ServeBystander(s, intr, v, p);
    }
  }

  lemma StepSleeper(s: State, e: Event, v: Variant, p: int)
    requires Inv(s) && 0 <= s.running && Sound(s, e, v) && IsPid(p) && s.pcb[p].state == Sleeping
    ensures SleptOn(s, Step(s, e, v), p, IsTick(e))
  {
    hide Left, Serve, Scheduler, Partitioned, PagesOk, SemsOk, BoxesOk, QuantaOk, ExitOk;
    match e {
      case UserPort(_) =>
      case Entry(intr, frame) =>
        SaveFrameKeeps(s, frame);
        ServeSleeper(SaveFrame(s, frame), intr, v, p);
        ServeKeeps(SaveFrame(s, frame), intr, v);
        SchedulerTouches(Serve(SaveFrame(s, frame), intr, v));
    }
  }

  lemma {:induction false} StillAsleep(s: State, es: seq<Event>, v: Variant, p: int)
    requires Inv(s) && 0 <= s.running && SoundRun(s, es, v)
    requires IsPid(p) && s.pcb[p].state == Sleeping && Ticks(es) < Remaining(s, p)
    ensures Inv(Run(s, es, v)) && Run(s, es, v).pcb[p].state == Sleeping
    ensures Remaining(Run(s, es, v), p) == Remaining(s, p) - Ticks(es)
    decreases |es|
  {
    if es != [] {
      StepKeeps(s, es[0], v);
      StepSleeper(s, es[0], v, p);
      StillAsleep(Step(s, es[0], v), es[1..], v, p);
    }
  }

  /** Exact wake-up. p has just called Sleep(n). After any run with fewer than Delay(n) ticks it is
      still asleep; the tick that makes them Delay(n) makes it ready (or dispatches it at once). */
  lemma ExactWakeUp(s: State, f: Frame, es: seq<Event>, e: Event, v: Variant, p: int)
    requires Inv(s) && Settled(s) && s.running == p && 1 <= p && Sound(s, Entry(Sleep, f), v)
    requires SoundRun(AfterSleep(s, f, v), es, v) && Ticks(es) < Delay(f.eax)
    requires IsTick(e) && Sound(Run(AfterSleep(s, f, v), es, v), e, v)
    ensures At(Run(AfterSleep(s, f, v), es, v).pcb, p).state == Sleeping
    ensures Ticks(es) + 1 == Delay(f.eax) <==>
      At(Step(Run(AfterSleep(s, f, v), es, v), e, v).pcb, p).state != Sleeping
  {
    StepKeeps(s, Entry(Sleep, f), v);
    SleepStarts(s, f, v);
    StillAsleep(AfterSleep(s, f, v), es, v, p);
    RunKeeps(AfterSleep(s, f, v), es, v);
    StepSleeper(Run(AfterSleep(s, f, v), es, v), e, v, p);
  }

  function AfterSleep(s: State, f: Frame, v: Variant): State {
    Step(s, Entry(Sleep, f), v)
  }

  /** The pass is stable: those it wakes, and those it leaves asleep, keep their order. */
  lemma {:induction false} DueKeepsOrder(t: seq<Pcb>, clock: int, q: seq<int>, due: bool, j: int, k: int)
    requires 0 <= j < k < |Due(t, clock, q, due)|
    ensures exists j', k' ::
      0 <= j' < k' < |q| && q[j'] == Due(t, clock, q, due)[j] && q[k'] == Due(t, clock, q, due)[k]
  {
    var d, rest := Due(t, clock, q, due), Due(t, clock, q[1..], due);
    if d == rest {
      DueKeepsOrder(t, clock, q[1..], due, j, k);
      var j', k' :| 0 <= j' < k' < |q[1..]| && q[1..][j'] == d[j] && q[1..][k'] == d[k];
      assert q[j' + 1] == d[j] && q[k' + 1] == d[k];
    } else if j == 0 {
      DueMembers(t, clock, q[1..], due);
      assert d[k] == rest[k - 1] && rest[k - 1] in rest;
      var k' :| 0 <= k' < |q[1..]| && q[1..][k'] == d[k];
      assert q[0] == d[0] && q[k' + 1] == d[k];
    } else {
      assert d == [q[0]] + rest;
      DueKeepsOrder(t, clock, q[1..], due, j - 1, k - 1);
      var j', k' :| 0 <= j' < k' < |q[1..]| && q[1..][j'] == rest[j - 1] && q[1..][k'] == rest[k - 1];
      assert q[j' + 1] == d[j] && q[k' + 1] == d[k];
    }
  }
}
