/** The kernel's state as a value, and every kernel entry as a function on it.
    One step is KernelMain (main.c): save the trap frame, run one service routine, then Scheduler. */
module KernelState {
  import opened Params
  import opened Port

  datatype ProcState = Free | Ready | Running | Sleeping | Waiting | Zombie | ForkWaiting

  /** The trap-frame registers the kernel reads or writes. */
  datatype Frame = Frame(eax: int, ebx: int, ecx: int)

  datatype Pcb = Pcb(
    state: ProcState, runtime: int, total: int, wake: int,
    ppid: int, table: int, frame: Frame)

  const BLANK_PCB := Pcb(Free, 0, 0, 0, 0, 0, Frame(0, 0, 0))

  datatype Msg = Msg(sender: int, recipient: int, stamp: int, data: seq<int>, code: seq<int>)

  const BLANK_MSG := Msg(0, 0, 0, [], [])

  datatype Sem = Sem(limit: int, waiters: seq<int>)

  datatype Mailbox = Mailbox(msgs: seq<Msg>, waiters: seq<int>)

  /** `running` is -1 only inside a kernel entry. `inbox[p]` is the message buffer that
      process p passed to MsgRcv; `osTable` is the kernel's own page directory. */
  datatype State = State(
    pcb: seq<Pcb>, running: int,
    ready: seq<int>, free: seq<int>, asleep: seq<int>,
    sem: seq<Sem>, semFree: seq<int>,
    mbox: seq<Mailbox>, inbox: seq<Msg>,
    owner: seq<int>, clock: int, port: Port, osTable: int)

  /** Arguments a service routine finds behind a pointer come with the interrupt; register
      arguments are in the trap frame. `below` is whatever lies just under pcb[0] in memory,
      which WaitISR reads as pcb[-1] whenever it meets an unowned page. */
  datatype Interrupt =
    | Timer | Irq3(cause: Cause, data: int) | Irq7
    | GetPid | Sleep | StartProc
    | SemGet | SemWait | SemPost
    | MsgSnd(msg: Msg) | MsgRcv
    | Fork | Wait(below: Pcb) | Exit
    | Unknown

  datatype Event =
    | Entry(intr: Interrupt, frame: Frame)   // a kernel entry of the running process
    | UserPort(port: Port)                   // user code rewrites the shared port record

  /** The reap loop of WaitISR as the source has it, or as it evidently should be. */
  datatype Variant = AsWritten | Repaired

  // Table access. An index outside the table reads and writes memory this model does not hold.

  function At(t: seq<Pcb>, p: int): Pcb {
    if 0 <= p < |t| then t[p] else BLANK_PCB
  }

  /** A write at an index; outside the table it changes nothing the model holds. */
  function Put<T>(t: seq<T>, p: int, r: T): (t': seq<T>)
    ensures |t'| == |t|
    ensures forall k :: 0 <= k < |t| ==> t'[k] == if k == p then r else t[k]
  {
    if 0 <= p < |t| then t[p := r] else t
  }

  function SetState(t: seq<Pcb>, p: int, st: ProcState): seq<Pcb> {
    Put(t, p, At(t, p).(state := st))
  }

  function SemAt(t: seq<Sem>, i: int): Sem {
    if 0 <= i < |t| then t[i] else Sem(0, [])
  }

  function BoxAt(t: seq<Mailbox>, i: int): Mailbox {
    if 0 <= i < |t| then t[i] else Mailbox([], [])
  }

  // Timer: preemption, then the pass over the sleep queue.

  function Preempt(s: State): State {
    if s.running < 1 then s
    else
      var r := At(s.pcb, s.running);
      var r' := r.(runtime := r.runtime + 1, total := r.total + 1);
      if r'.runtime >= TIME_LIMIT then
        s.(pcb := Put(s.pcb, s.running, r'.(runtime := 0, state := Ready)),
           ready := s.ready + [s.running],
           running := -1)
      else
        s.(pcb := Put(s.pcb, s.running, r'))
  }

  /** The members of q that are due now, or those that are not, in queue order. */
  function Due(t: seq<Pcb>, clock: int, q: seq<int>, due: bool): seq<int> {
    if q == [] then []
    else if (At(t, q[0]).wake == clock) == due then [q[0]] + Due(t, clock, q[1..], due)
    else Due(t, clock, q[1..], due)
  }

  function MarkReady(t: seq<Pcb>, ps: seq<int>): seq<Pcb> {
    seq(|t|, k requires 0 <= k < |t| => if k in ps then t[k].(state := Ready) else t[k])
  }

  function WakeDue(s: State): State {
    var due := Due(s.pcb, s.clock, s.asleep, true);
    s.(pcb := MarkReady(s.pcb, due),
       ready := s.ready + due,
       asleep := Due(s.pcb, s.clock, s.asleep, false))
  }

  function Advance(s: State): State {
    s.(clock := (s.clock + 1) % CLOCK_WRAP)
  }

  function Tick(s: State): State {
    WakeDue(Advance(Preempt(s)))
  }

  function SleepCall(s: State): State {
    var r := At(s.pcb, s.running);
    s.(pcb := Put(s.pcb, s.running, r.(wake := (s.clock + r.frame.eax * 100) % CLOCK_WRAP, state := Sleeping)),
       asleep := s.asleep + [s.running],
       running := -1)
  }

  function GetPidCall(s: State): State {
    var r := At(s.pcb, s.running);
    s.(pcb := Put(s.pcb, s.running, r.(frame := r.frame.(eax := s.running))))
  }

  /** StartProcISR: PID 0 runs without ever being queued. */
  function StartAt(s: State, p: int): State {
    var r := At(s.pcb, p);
    s.(pcb := Put(s.pcb, p, r.(runtime := 0, total := 0, table := s.osTable, state := Ready, frame := Frame(0, 0, 0))),
       ready := if p != 0 then s.ready + [p] else s.ready,
       mbox := Put(s.mbox, p, Mailbox([], [])))
  }

  function StartProcCall(s: State): State {
    if s.free == [] then s else StartAt(s.(free := s.free[1..]), s.free[0])
  }

  // Semaphores

  function SemGetCall(s: State): State {
    var r := At(s.pcb, s.running);
    if s.semFree == [] then
      s.(pcb := Put(s.pcb, s.running, r.(frame := r.frame.(ebx := -1))))
    else
      var id := s.semFree[0];
      s.(semFree := s.semFree[1..],
         sem := Put(s.sem, id, Sem(r.frame.eax, [])),
         pcb := Put(s.pcb, s.running, r.(frame := r.frame.(ebx := id))))
  }

  function SemWaitCall(s: State, id: int): State {
    var m := SemAt(s.sem, id);
    if m.limit > 0 then
      s.(sem := Put(s.sem, id, m.(limit := m.limit - 1)))
    else
      s.(sem := Put(s.sem, id, m.(waiters := m.waiters + [s.running])),
         pcb := SetState(s.pcb, s.running, Waiting),
         running := -1)
  }

  function SemPostCall(s: State, id: int): State {
    var m := SemAt(s.sem, id);
    if m.waiters == [] then
      s.(sem := Put(s.sem, id, m.(limit := m.limit + 1)))
    else
      s.(sem := Put(s.sem, id, m.(waiters := m.waiters[1..])),
         pcb := SetState(s.pcb, m.waiters[0], Ready),
         ready := s.ready + [m.waiters[0]])
  }

  // Mailboxes

  function MsgSndCall(s: State, msg: Msg): State {
    var m := msg.(stamp := s.clock, sender := s.running);
    var b := BoxAt(s.mbox, m.recipient);
    if b.waiters == [] then
      s.(mbox := Put(s.mbox, m.recipient, b.(msgs := Push(b.msgs, m))))
    else
      s.(mbox := Put(s.mbox, m.recipient, b.(waiters := b.waiters[1..])),
         ready := s.ready + [b.waiters[0]],
         pcb := SetState(s.pcb, b.waiters[0], Ready),
         inbox := Put(s.inbox, b.waiters[0], m))
  }

  function MsgRcvCall(s: State): State {
    var b := BoxAt(s.mbox, s.running);
    if |b.msgs| > 0 then
      s.(mbox := Put(s.mbox, s.running, b.(msgs := b.msgs[1..])),
         inbox := Put(s.inbox, s.running, b.msgs[0]))
    else
      s.(mbox := Put(s.mbox, s.running, b.(waiters := b.waiters + [s.running])),
         pcb := SetState(s.pcb, s.running, Waiting),
         running := -1)
  }

  // The serial interrupt

  function Tx(s: State): State {
    var s1 := s.(port := TxPort(s.port));
    if TxPosts(s.port) then SemPostCall(s1, s.port.txSem) else s1
  }

  function Rx(s: State, data: int): State {
    SemPostCall(s.(port := RxPort(s.port, data)), s.port.rxSem)
  }

  function Irq3Call(s: State, cause: Cause, data: int): State {
    var s1 := match cause
      case TxReady => Tx(s)
      case RxReady => Rx(s, data)
      case OtherCause => s;
    if s1.port.txReady then Tx(s1) else s1
  }

  // Fork, Wait, Exit

  /** The unowned pages with index at least `from`, ascending. */
  function FreePages(owner: seq<int>, from: nat): (r: seq<int>)
    requires from <= |owner|
    decreases |owner| - from
  {
    if from == |owner| then []
    else if owner[from] == -1 then [from] + FreePages(owner, from + 1)
    else FreePages(owner, from + 1)
  }

  function Claim(owner: seq<int>, pages: seq<int>, p: int): seq<int> {
    seq(|owner|, k requires 0 <= k < |owner| => if k in pages then p else owner[k])
  }

  function Release(owner: seq<int>, p: int): seq<int> {
    seq(|owner|, k requires 0 <= k < |owner| => if owner[k] == p then -1 else owner[k])
  }

  function PageAddr(page: int): int {
    DRAM_BASE + page * PAGE_SIZE
  }

  predicate ForkFails(s: State) {
    s.free == [] || |FreePages(s.owner, 0)| < BLOCK
  }

  function ForkCall(s: State): State {
    var r := At(s.pcb, s.running);
    if ForkFails(s) then
      s.(pcb := Put(s.pcb, s.running, r.(frame := r.frame.(ecx := -1))))
    else
      var pages := FreePages(s.owner, 0)[..BLOCK];
      var c := s.free[0];
      var t1 := Put(s.pcb, s.running, r.(frame := r.frame.(ecx := c)));
      s.(free := s.free[1..],
         owner := Claim(s.owner, pages, c),
         mbox := Put(s.mbox, c, Mailbox([], [])),
         ready := s.ready + [c],
         pcb := Put(t1, c, BLANK_PCB.(state := Ready, ppid := s.running, table := PageAddr(pages[0]))))
  }

  function OwnerPcb(s: State, below: Pcb, page: int): Pcb {
    var o := if 0 <= page < |s.owner| then s.owner[page] else -1;
    if o == -1 then below else At(s.pcb, o)
  }

  /** The test of WaitISR's scan: does this page's owner look like a dead child of the caller? */
  predicate ShowsZombie(s: State, below: Pcb, page: int) {
    var r := OwnerPcb(s, below, page);
    r.ppid == s.running && r.state == Zombie
  }

  /** First page at or after `from` that passes the test; |s.owner| if none does. */
  function ZombiePage(s: State, below: Pcb, from: nat): (d: nat)
    requires from <= |s.owner|
    ensures from <= d <= |s.owner|
    ensures d < |s.owner| ==> ShowsZombie(s, below, d)
    ensures forall k :: from <= k < d ==> !ShowsZombie(s, below, k)
    decreases |s.owner| - from
  {
    if from == |s.owner| || ShowsZombie(s, below, from) then from else ZombiePage(s, below, from + 1)
  }

  /** Wait with a page found: the caller's frame gets the child's PID and exit value. As written,
      the loop compares with an owner field it has just overwritten, so it gives back that one
      page and blanks the record at index -1; as repaired it gives back every page of the child
      and blanks the child's record. Either way the PID joins the free queue. */
  function Reap(s: State, below: Pcb, d: nat, v: Variant): State
    requires d < |s.owner|
  {
    var o := s.owner[d];
    var r := At(s.pcb, s.running);
    var t := Put(s.pcb, s.running, r.(frame := r.frame.(ebx := o, eax := OwnerPcb(s, below, d).frame.eax)));
    var s1 := s.(pcb := t, free := s.free + [o]);
    match v
    case AsWritten => s1.(owner := s.owner[d := -1])
    case Repaired => s1.(owner := Release(s.owner, o), pcb := Put(t, o, BLANK_PCB))
  }

  /** The repaired scan skips unowned pages, which is to see a blank record behind them. */
  function Below(below: Pcb, v: Variant): Pcb {
    if v == Repaired then BLANK_PCB else below
  }

  function WaitCall(s: State, below: Pcb, v: Variant): State {
    var d := ZombiePage(s, Below(below, v), 0);
    if d == |s.owner| then
      s.(pcb := SetState(s.pcb, s.running, ForkWaiting), running := -1)
    else
      Reap(s, Below(below, v), d, v)
  }

  function ExitCall(s: State): State {
    var r := At(s.pcb, s.running);
    var w := At(s.pcb, r.ppid);
    if w.state != ForkWaiting then
      s.(pcb := SetState(s.pcb, s.running, Zombie), running := -1)
    else
      var t := Put(s.pcb, r.ppid, w.(state := Ready, frame := w.frame.(ebx := s.running, eax := r.frame.eax)));
      s.(ready := s.ready + [r.ppid],
         owner := Release(s.owner, s.running),
         pcb := Put(t, s.running, BLANK_PCB),
         free := s.free + [s.running],
         running := -1)
  }

  // KernelMain

  function Scheduler(s: State): State {
    if s.running > 0 then s
    else
      var t := if s.running == 0 then SetState(s.pcb, 0, Ready) else s.pcb;
      if s.ready == [] then s.(pcb := SetState(t, 0, Running), running := 0)
      else s.(pcb := SetState(t, s.ready[0], Running), running := s.ready[0], ready := s.ready[1..])
  }

  function SaveFrame(s: State, f: Frame): State {
    s.(pcb := Put(s.pcb, s.running, At(s.pcb, s.running).(frame := f)))
  }

  function Serve(s: State, intr: Interrupt, v: Variant): State {
    var eax := At(s.pcb, s.running).frame.eax;
    match intr
    case Timer => Tick(s)
    case Irq3(cause, data) => Irq3Call(s, cause, data)
    case Irq7 => SemPostCall(s, 0)
    case GetPid => GetPidCall(s)
    case Sleep => SleepCall(s)
    case StartProc => StartProcCall(s)
    case SemGet => SemGetCall(s)
    case SemWait => SemWaitCall(s, eax)
    case SemPost => SemPostCall(s, eax)
    case MsgSnd(msg) => MsgSndCall(s, msg)
    case MsgRcv => MsgRcvCall(s)
    case Fork => ForkCall(s)
    case Wait(below) => WaitCall(s, below, v)
    case Exit => ExitCall(s)
    case Unknown => s
  }

  function Step(s: State, e: Event, v: Variant): State {
    match e
    case Entry(intr, frame) => Scheduler(Serve(SaveFrame(s, frame), intr, v))
    case UserPort(port) => s.(port := port)
  }

  /** The state main() hands to the first process: PIDs 0..5 started, the rest free. */
  function Boot(osTable: int): State {
    State(
      seq(MAX_PROC_NUM, k requires 0 <= k < MAX_PROC_NUM =>
        if k < 6 then BLANK_PCB.(state := Ready, table := osTable) else BLANK_PCB),
      0,
      Interval(1, 5),
      Interval(6, 14),
      [],
      seq(Q_LEN, _ => Sem(0, [])),
      Interval(0, Q_LEN),
      seq(MAX_PROC_NUM, _ => Mailbox([], [])),
      seq(MAX_PROC_NUM, _ => BLANK_MSG),
      seq(DRAM_PAGE_COUNT, _ => -1),
      0,
      Port([], [], [], 0, 0, false, false, []),
      osTable)
  }
}
