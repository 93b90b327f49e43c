/** Where every process is. Each PID from 1 to 19 is in exactly one queue position or in none,
    and its process-table state says which kind of place that is. */
module Partition {
  import opened Params
  import opened KernelState

  datatype Place = InFree | InReady | InAsleep | InSem(id: int) | InBox(id: int)

  predicate IsPid(p: int) {
    1 <= p < MAX_PROC_NUM
  }

  predicate IsPlace(pl: Place) {
    (pl.InSem? ==> 0 <= pl.id < Q_LEN) && (pl.InBox? ==> 0 <= pl.id < MAX_PROC_NUM)
  }

  predicate Shape(s: State) {
    |s.pcb| == MAX_PROC_NUM && |s.sem| == Q_LEN && |s.mbox| == MAX_PROC_NUM
    && |s.inbox| == MAX_PROC_NUM && |s.owner| == DRAM_PAGE_COUNT
  }

  function Q(s: State, pl: Place): seq<int> {
    match pl
    case InFree => s.free
    case InReady => s.ready
    case InAsleep => s.asleep
    case InSem(i) => SemAt(s.sem, i).waiters
    case InBox(i) => BoxAt(s.mbox, i).waiters
  }

  predicate Fits(st: ProcState, pl: Place, p: int) {
    match pl
    case InFree => st == Free
    case InReady => st == Ready
    case InAsleep => st == Sleeping
    case InSem(_) => st == Waiting
    case InBox(i) => st == Waiting && i == p
  }

  predicate Queued(st: ProcState) {
    st == Free || st == Ready || st == Sleeping || st == Waiting
  }

  predicate NoDup(q: seq<int>) {
    forall j, k :: 0 <= j < k < |q| ==> q[j] != q[k]
  }

  ghost predicate Housed(s: State)
    requires Shape(s)
  {
    forall pl, p {:trigger p in Q(s, pl)} :: IsPlace(pl) && p in Q(s, pl) ==> IsPid(p) && Fits(s.pcb[p].state, pl, p)
  }

  ghost predicate Unique(s: State) {
    (forall pl :: IsPlace(pl) ==> NoDup(Q(s, pl)))
    && (forall pl, pl', p :: IsPlace(pl) && IsPlace(pl') && p in Q(s, pl) && p in Q(s, pl') ==> pl == pl')
  }

  ghost predicate Complete(s: State)
    requires Shape(s)
  {
    forall p :: IsPid(p) && Queued(s.pcb[p].state) ==> exists pl :: IsPlace(pl) && p in Q(s, pl)
  }

  ghost predicate Partitioned(s: State) {
    Shape(s) && Housed(s) && Unique(s) && Complete(s)
  }

  /** Only p's state differs, and only the queues of a and b. */
  ghost predicate OnlyMoved(s: State, s': State, p: int, a: Place, b: Place) {
    Shape(s) && Shape(s')
    && (forall q :: IsPid(q) && q != p ==> s'.pcb[q].state == s.pcb[q].state)
    && (forall pl :: IsPlace(pl) && pl != a && pl != b ==> Q(s', pl) == Q(s, pl))
  }

  /** The place of a queued process. */
  ghost function PlaceOf(s: State, p: int): (pl: Place)
    requires Partitioned(s) && IsPid(p) && Queued(s.pcb[p].state)
    ensures IsPlace(pl) && p in Q(s, pl)
  {
    var pl :| IsPlace(pl) && p in Q(s, pl);
    pl
  }

  /** The head of a non-empty queue is a process in the matching state. */
  lemma HeadFits(s: State, pl: Place)
    requires Partitioned(s) && IsPlace(pl) && |Q(s, pl)| > 0
    ensures IsPid(Q(s, pl)[0]) && Fits(s.pcb[Q(s, pl)[0]].state, pl, Q(s, pl)[0])
  {
    assert Q(s, pl)[0] in Q(s, pl);
  }

  lemma TailMembers(q: seq<int>)
    requires NoDup(q) && |q| > 0
    ensures NoDup(q[1..])
    ensures forall p :: p in q[1..] <==> p in q && p != q[0]
  {
    assert q == [q[0]] + q[1..];
  }

  /** After the processes in `moved` are re-housed, every place holds what it held before less
      those, and they are all in `to`, or in no queue. */
  ghost predicate Rehoused(s: State, s': State, moved: set<int>, to: Place, queued: bool) {
    (forall pl :: IsPlace(pl) ==> NoDup(Q(s', pl)))
    && (forall pl, q :: IsPlace(pl) ==>
          (q in Q(s', pl) <==> (if q in moved then queued && pl == to else q in Q(s, pl))))
  }

  lemma RehousedPartition(s: State, s': State, moved: set<int>, to: Place, queued: bool)
    requires Partitioned(s) && Shape(s') && IsPlace(to)
    requires Rehoused(s, s', moved, to, queued)
    requires forall q :: IsPid(q) && q !in moved ==> s'.pcb[q].state == s.pcb[q].state
    requires forall q :: q in moved ==>
      (IsPid(q) && if queued then Fits(s'.pcb[q].state, to, q) else !Queued(s'.pcb[q].state))
    ensures Partitioned(s')
  {
    forall pl, pl', q | IsPlace(pl) && IsPlace(pl') && q in Q(s', pl) && q in Q(s', pl') ensures pl == pl' {
      assert q !in moved ==> q in Q(s, pl) && q in Q(s, pl');
    }
    forall q | IsPid(q) && Queued(s'.pcb[q].state) ensures exists pl :: IsPlace(pl) && q in Q(s', pl) {
      var pl := if q in moved then to else PlaceOf(s, q);
      assert q in Q(s', pl);
    }
  }

  /** A process that was in no queue joins the end of one. */
  lemma Joins(s: State, s': State, p: int, to: Place)
    requires Partitioned(s) && IsPid(p) && IsPlace(to) && !Queued(s.pcb[p].state)
    requires OnlyMoved(s, s', p, to, to)
    requires Q(s', to) == Q(s, to) + [p] && Fits(s'.pcb[p].state, to, p)
    ensures Partitioned(s')
  {
    assert forall pl :: IsPlace(pl) ==> p !in Q(s, pl);
    RehousedPartition(s, s', {p}, to, true);
  }

  /** The head of a queue leaves for no queue. */
  lemma Leaves(s: State, s': State, p: int, from: Place)
    requires Partitioned(s) && IsPid(p) && IsPlace(from) && |Q(s, from)| > 0 && Q(s, from)[0] == p
    requires OnlyMoved(s, s', p, from, from)
    requires Q(s', from) == Q(s, from)[1..] && !Queued(s'.pcb[p].state)
    ensures Partitioned(s')
  {
    TailMembers(Q(s, from));
    assert p in Q(s, from);
    RehousedPartition(s, s', {p}, from, false);
  }

  /** The head of one queue joins the end of another. */
  lemma Moves(s: State, s': State, p: int, from: Place, to: Place)
    requires Partitioned(s) && IsPid(p) && IsPlace(from) && IsPlace(to) && from != to
    requires |Q(s, from)| > 0 && Q(s, from)[0] == p
    requires OnlyMoved(s, s', p, from, to)
    requires Q(s', from) == Q(s, from)[1..] && Q(s', to) == Q(s, to) + [p]
    requires Fits(s'.pcb[p].state, to, p)
    ensures Partitioned(s')
  {
    TailMembers(Q(s, from));
    assert p in Q(s, from);
    RehousedPartition(s, s', {p}, to, true);
  }

  /** No queue changed, and no state did except between states without a queue. */
  lemma Stays(s: State, s': State)
    requires Partitioned(s) && Shape(s')
    requires forall p :: IsPid(p) ==>
      s'.pcb[p].state == s.pcb[p].state || !(Queued(s'.pcb[p].state) || Queued(s.pcb[p].state))
    requires forall pl :: IsPlace(pl) ==> Q(s', pl) == Q(s, pl)
    ensures Partitioned(s')
  {
    forall q | IsPid(q) && Queued(s'.pcb[q].state) ensures exists pl :: IsPlace(pl) && q in Q(s', pl) {
      assert q in Q(s', PlaceOf(s, q));
    }
  }

  /** Pigeonhole: distinct numbers from 1 to n - 1 are at most n - 1 many. */
  lemma {:induction false} Pigeonhole(q: seq<int>, n: int)
    requires n >= 1 && NoDup(q)
    requires forall p :: p in q ==> 1 <= p < n
    ensures |q| < n
  {
    if q != [] {
      assert q[0] in q;
      if k :| 0 <= k < |q| && q[k] == n - 1 {
        var r := q[..k] + q[k + 1..];
        forall p | p in r ensures 1 <= p < n - 1 {
          assert p in q;
        }
        Pigeonhole(r, n - 1);
      } else {
        Pigeonhole(q, n - 1);
      }
    }
  }

  /** No queue of PIDs ever fills: the "queue is already full" branch of EnQ is dead for PIDs. */
  lemma QueueNeverFull(s: State, pl: Place)
    requires Partitioned(s) && IsPlace(pl)
    ensures |Q(s, pl)| < Q_LEN
  {
    assert forall p :: p in Q(s, pl) ==> IsPid(p);
    Pigeonhole(Q(s, pl), MAX_PROC_NUM);
  }
}
