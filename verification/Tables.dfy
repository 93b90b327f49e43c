/** The kernel's arrays of structures: semaphores, message queues, and the port record. Each holds
    a value of the corresponding part of the abstract state. */
module Tables {
  import opened Params
  import opened Port
  import opened KernelState
  import opened Queues

  method MakeQueues(n: nat) returns (qs: seq<IntQueue>, ghost objects: set<object>)
    ensures |qs| == n && fresh(objects)
    ensures forall i :: 0 <= i < n ==> qs[i] in objects && qs[i].q in objects && qs[i].Holds([])
    ensures forall i, j :: 0 <= i < j < n ==> qs[i] != qs[j] && qs[i].q != qs[j].q
  {
    qs, objects := [], {};
    for k := 0 to n
      invariant |qs| == k && fresh(objects)
      invariant forall i :: 0 <= i < k ==> qs[i] in objects && qs[i].q in objects && qs[i].Holds([])
      invariant forall i, j :: 0 <= i < j < k ==> qs[i] != qs[j] && qs[i].q != qs[j].q
    {
      var q := new IntQueue();
      qs, objects := qs + [q], objects + {q, q.q};
    }
  }

  method MakeRings(n: nat) returns (rs: seq<MsgRing>, ghost objects: set<object>)
    ensures |rs| == n && fresh(objects)
    ensures forall i :: 0 <= i < n ==> rs[i] in objects && rs[i].msg in objects && rs[i].Holds([])
    ensures forall i, j :: 0 <= i < j < n ==> rs[i] != rs[j] && rs[i].msg != rs[j].msg
  {
    rs, objects := [], {};
    for k := 0 to n
      invariant |rs| == k && fresh(objects)
      invariant forall i :: 0 <= i < k ==> rs[i] in objects && rs[i].msg in objects && rs[i].Holds([])
      invariant forall i, j :: 0 <= i < j < k ==> rs[i] != rs[j] && rs[i].msg != rs[j].msg
    {
      var r := new MsgRing();
      rs, objects := rs + [r], objects + {r, r.msg};
    }
  }

  /** sem[]: a count and a wait queue each. */
  class SemTable {
    const limit: array<int>
    const waitQ: seq<IntQueue>
    ghost var contents: seq<Sem>
    ghost const Repr: set<object>

    /** The queues and arrays are distinct objects, all in Repr. */
    ghost predicate Apart() {
      |waitQ| == Q_LEN && limit.Length == Q_LEN && limit in Repr && this in Repr
      && (forall i :: 0 <= i < Q_LEN ==> waitQ[i] in Repr && waitQ[i].q in Repr && waitQ[i].q != limit)
      && (forall i, j :: 0 <= i < j < Q_LEN ==> waitQ[i] != waitQ[j] && waitQ[i].q != waitQ[j].q)
    }

    ghost predicate Valid()
      reads this, Repr
    {
      Apart() && |contents| == Q_LEN
      && (forall i :: 0 <= i < Q_LEN ==> waitQ[i].Holds(contents[i].waiters))
      && (forall i :: 0 <= i < Q_LEN ==> limit[i] == contents[i].limit)
    }

    constructor ()
      ensures Valid() && fresh(Repr) && contents == seq(Q_LEN, _ => Sem(0, []))
    {
      var qs, objects := MakeQueues(Q_LEN);
      waitQ := qs;
      var counts := new int[Q_LEN](_ => 0);
      limit := counts;
      contents := seq(Q_LEN, _ => Sem(0, []));
      Repr := {this, counts} + objects;
    }

    method EnQ(id: int, p: int)
      requires Valid() && 0 <= id < Q_LEN && |contents[id].waiters| < Q_LEN
      modifies Repr
      ensures Valid()
      ensures contents == Put(old(contents), id, old(contents)[id].(waiters := old(contents)[id].waiters + [p]))
    {
      hide IntQueue.Valid, IntQueue.Contents;
      waitQ[id].EnQ(p);
      contents := Put(contents, id, contents[id].(waiters := contents[id].waiters + [p]));
    }

    method DeQ(id: int) returns (p: int)
      requires Valid() && 0 <= id < Q_LEN && contents[id].waiters != []
      modifies Repr
      ensures Valid() && p == old(contents)[id].waiters[0]
      ensures contents == Put(old(contents), id, old(contents)[id].(waiters := old(contents)[id].waiters[1..]))
    {
      hide IntQueue.Valid, IntQueue.Contents;
      ghost var w := contents[id].waiters;
      assert waitQ[id].Contents() == w;
      p := waitQ[id].DeQ();
      assert waitQ[id].Holds(w[1..]);
      contents := Put(contents, id, contents[id].(waiters := contents[id].waiters[1..]));
    }

    method SetLimit(id: int, n: int)
      requires Valid() && 0 <= id < Q_LEN
      modifies Repr
      ensures Valid() && contents == Put(old(contents), id, old(contents)[id].(limit := n))
    {
      limit[id] := n;
      contents := Put(contents, id, contents[id].(limit := n));
    }

    /** MyBzero of one semaphore, then its limit. The wait queue is empty when this is called. */
    method Reset(id: int, n: int)
      requires Valid() && 0 <= id < Q_LEN && contents[id].waiters == []
      modifies Repr
      ensures Valid() && contents == Put(old(contents), id, Sem(n, []))
    {
      hide IntQueue.Valid, IntQueue.Contents;
      waitQ[id].Clear();
      limit[id] := n;
      contents := Put(contents, id, Sem(n, []));
    }
  }

  /** msg_q[]: a message ring and a wait queue each. */
  class MailTable {
    const ring: seq<MsgRing>
    const waitQ: seq<IntQueue>
    ghost var contents: seq<Mailbox>
    ghost const Repr: set<object>

    ghost predicate Apart() {
      |waitQ| == MAX_PROC_NUM && |ring| == MAX_PROC_NUM && this in Repr
      && (forall i :: 0 <= i < MAX_PROC_NUM ==> waitQ[i] in Repr && waitQ[i].q in Repr)
      && (forall i :: 0 <= i < MAX_PROC_NUM ==> ring[i] in Repr && ring[i].msg in Repr)
      && (forall i, j :: 0 <= i < j < MAX_PROC_NUM ==> waitQ[i] != waitQ[j] && waitQ[i].q != waitQ[j].q)
      && (forall i, j :: 0 <= i < j < MAX_PROC_NUM ==> ring[i] != ring[j] && ring[i].msg != ring[j].msg)
    }

    ghost predicate Valid()
      reads this, Repr
    {
      Apart() && |contents| == MAX_PROC_NUM
      && (forall i :: 0 <= i < MAX_PROC_NUM ==> waitQ[i].Holds(contents[i].waiters))
      && (forall i :: 0 <= i < MAX_PROC_NUM ==> ring[i].Holds(contents[i].msgs))
    }

    constructor ()
      ensures Valid() && fresh(Repr) && contents == seq(MAX_PROC_NUM, _ => Mailbox([], []))
    {
      var rs, rings := MakeRings(MAX_PROC_NUM);
      var qs, queues := MakeQueues(MAX_PROC_NUM);
      ring, waitQ := rs, qs;
      contents := seq(MAX_PROC_NUM, _ => Mailbox([], []));
      Repr := {this} + queues + rings;
    }

    method EnQ(p: int)
      requires Valid() && 0 <= p < MAX_PROC_NUM && |contents[p].waiters| < Q_LEN
      modifies Repr
      ensures Valid()
      ensures contents == Put(old(contents), p, old(contents)[p].(waiters := old(contents)[p].waiters + [p]))
    {
      hide IntQueue.Valid, IntQueue.Contents, MsgRing.Valid, MsgRing.Contents;
      waitQ[p].EnQ(p);
      contents := Put(contents, p, contents[p].(waiters := contents[p].waiters + [p]));
    }

    method DeQ(i: int) returns (p: int)
      requires Valid() && 0 <= i < MAX_PROC_NUM && contents[i].waiters != []
      modifies Repr
      ensures Valid() && p == old(contents)[i].waiters[0]
      ensures contents == Put(old(contents), i, old(contents)[i].(waiters := old(contents)[i].waiters[1..]))
    {
      hide IntQueue.Valid, IntQueue.Contents, MsgRing.Valid, MsgRing.Contents;
      ghost var w := contents[i].waiters;
      assert waitQ[i].Contents() == w;
      p := waitQ[i].DeQ();
      assert waitQ[i].Holds(w[1..]);
      contents := Put(contents, i, contents[i].(waiters := contents[i].waiters[1..]));
    }

    method MsgEnQ(i: int, m: Msg)
      requires Valid() && 0 <= i < MAX_PROC_NUM
      modifies Repr
      ensures Valid()
      ensures contents == Put(old(contents), i, old(contents)[i].(msgs := Push(old(contents)[i].msgs, m)))
    {
      hide IntQueue.Valid, IntQueue.Contents, MsgRing.Valid, MsgRing.Contents;
      ring[i].MsgEnQ(m);
      contents := Put(contents, i, contents[i].(msgs := Push(contents[i].msgs, m)));
    }

    method MsgDeQ(i: int) returns (m: Msg)
      requires Valid() && 0 <= i < MAX_PROC_NUM && contents[i].msgs != []
      modifies Repr
      ensures Valid() && m == old(contents)[i].msgs[0]
      ensures contents == Put(old(contents), i, old(contents)[i].(msgs := old(contents)[i].msgs[1..]))
    {
      hide IntQueue.Valid, IntQueue.Contents, MsgRing.Valid, MsgRing.Contents;
      var found;
      found, m := ring[i].MsgDeQ();
      contents := Put(contents, i, contents[i].(msgs := contents[i].msgs[1..]));
    }

    /** MyBzero of one message queue. */
    method Reset(i: int)
      requires Valid() && 0 <= i < MAX_PROC_NUM
      modifies Repr
      ensures Valid() && contents == Put(old(contents), i, Mailbox([], []))
    {
      hide IntQueue.Valid, IntQueue.Contents, MsgRing.Valid, MsgRing.Contents;
      waitQ[i].Clear();
      ring[i].Clear();
      contents := Put(contents, i, Mailbox([], []));
    }
  }

  /** port_data, and the line it drives. */
  class PortData {
    const tx: IntQueue
    const rx: IntQueue
    const echo: IntQueue
    var txSem: int
    var rxSem: int
    var echoOn: bool
    var txReady: bool
    var wire: seq<Sent> // what outportb has written to the data register
    ghost const Repr: set<object>

    ghost predicate Valid()
      reads this, Repr
    {
      this in Repr && tx in Repr && tx.q in Repr && rx in Repr && rx.q in Repr && echo in Repr && echo.q in Repr
      && tx != rx && tx != echo && rx != echo && tx.q != rx.q && tx.q != echo.q && rx.q != echo.q
      && tx.Valid() && rx.Valid() && echo.Valid()
    }

    ghost function Now(): Port
      requires Valid()
      reads this, Repr
    {
      Port(tx.Contents(), rx.Contents(), echo.Contents(), txSem, rxSem, echoOn, txReady, wire)
    }

    constructor ()
      ensures Valid() && fresh(Repr) && Now() == Port([], [], [], 0, 0, false, false, [])
    {
      var t := new IntQueue();
      var r := new IntQueue();
      var e := new IntQueue();
      tx, rx, echo := t, r, e;
      txSem, rxSem, echoOn, txReady, wire := 0, 0, false, false, [];
      Repr := {this, t, t.q, r, r.q, e, e.q};
    }

    /** TX up to its SemPost: says whether the post is owed. */
    method TxChar() returns (posts: bool)
      requires Valid()
      modifies Repr
      ensures Valid() && Now() == TxPort(old(Now())) && posts == TxPosts(old(Now()))
    {
      var ch := 0;
      var out: Sent := Echo(0);
      posts := false;
      if echo.len > 0 {
        ch := echo.DeQ();
        out := Echo(ch);
      } else if tx.len > 0 {
        ch := tx.DeQ();
        out := Text(ch);
        posts := true;
      }
      if ch != 0 {
        wire := wire + [out];
        txReady := false;
      } else {
        txReady := true;
      }
    }

    /** RX without its SemPost. */
    method RxChar(data: int)
      requires Valid()
      modifies Repr
      ensures Valid() && Now() == RxPort(old(Now()), data)
    {
      var ch := data % 128;
      rx.EnQ(ch);
      if ch == CR {
        echo.EnQ(CR);
        echo.EnQ(LF);
      } else if echoOn {
        echo.EnQ(ch);
      }
    }
  }
}
