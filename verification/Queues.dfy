/** The kernel's queues as they are laid out in memory (typedef.h q_t and msg_q_t, toolfunc.c). */
module Queues {
  import opened Params
  import opened Port
  import opened KernelState

  function First(s: seq<int>): int {
    if s == [] then -1 else s[0]
  }

  function Rest(s: seq<int>): seq<int> {
    if s == [] then [] else s[1..]
  }

  /** q_t: an array kept left-aligned. Elements are PIDs, semaphore ids or characters. */
  class IntQueue {
    var head: int
    var tail: int
    var len: int
    const q: array<int>

    ghost predicate Valid()
      reads this, q
    {
      q.Length == Q_LEN && head == 0 && 0 <= len <= Q_LEN && tail == len
    }

    ghost function Contents(): (s: seq<int>)
      requires Valid()
      reads this, q
    {
      q[..len]
    }

    /** Valid, with exactly these contents. */
    ghost predicate Holds(s: seq<int>)
      reads this, q
    {
      Valid() && Contents() == s
    }

    /** Places not in use hold -1. */
    ghost predicate Swept()
      reads this, q
    {
      forall k :: 0 <= len <= k < q.Length ==> q[k] == -1
    }

    constructor ()
      ensures Holds([]) && fresh(q)
    {
      q := new int[Q_LEN];
      head, tail, len := 0, 0, 0;
    }

    /** MyBzero of the queue. */
    method Clear()
      requires Valid()
      modifies this, q
      ensures Holds([])
    {
      head, tail, len := 0, 0, 0;
      for i := 0 to Q_LEN
        invariant head == 0 && tail == 0 && len == 0
      {
        q[i] := 0;
      }
    }

    /** EnQ: appends, or leaves a full queue as it was. */
    method EnQ(x: int)
      requires Valid()
      modifies this, q
      ensures Holds(Push(old(Contents()), x))
    {
      if len < Q_LEN {
        q[tail] := x;
        tail := tail + 1;
        len := len + 1;
      }
    }

    /** DeQ: removes and returns the first element, shifting the rest down and filling the unused
        end with -1; returns -1 if there is none. */
    method DeQ() returns (val: int)
      requires Valid()
      modifies this, q
      ensures val == First(old(Contents())) && Holds(Rest(old(Contents())))
      ensures old(len) > 0 ==> Swept()
    {
      if len == 0 {
        return -1;
      }
      ghost var was := Contents();
      val := q[0];
      len := len - 1;
      tail := tail - 1;
      var i := 0;
      while i < len
        invariant 0 <= i <= len && len == |was| - 1 && tail == len && head == 0
        invariant forall k :: 0 <= k < i ==> q[k] == was[k + 1]
        invariant forall k :: i <= k < |was| ==> q[k] == was[k]
      {
        q[i] := q[i + 1];
        i := i + 1;
      }
      i := len;
      while i < Q_LEN
        invariant len <= i <= Q_LEN && len == |was| - 1 && tail == len && head == 0
        invariant forall k :: 0 <= k < len ==> q[k] == was[k + 1]
        invariant forall k :: len <= k < i ==> q[k] == -1
      {
        q[i] := -1;
        i := i + 1;
      }
      assert Contents() == was[1..];
    }
  }

  /** Index of the i-th element of a ring whose first element is at `head`. */
  function RingIndex(head: int, i: int): (r: int)
    requires 0 <= head < Q_LEN && 0 <= i <= Q_LEN
    ensures 0 <= r < Q_LEN
    ensures r == (head + i) % Q_LEN
  {
    if head + i < Q_LEN then head + i else head + i - Q_LEN
  }

  /** msg_q_t without its wait queue: a ring of messages. */
  class MsgRing {
    var head: int
    var tail: int
    var len: int
    const msg: array<Msg>

    ghost predicate Valid()
      reads this, msg
    {
      msg.Length == Q_LEN && 0 <= head < Q_LEN && 0 <= len <= Q_LEN && tail == RingIndex(head, len)
    }

    ghost function Contents(): (s: seq<Msg>)
      requires Valid()
      reads this, msg
      ensures |s| == len
      ensures forall i :: 0 <= i < len ==> s[i] == msg[RingIndex(head, i)]
    {
      seq(len, i requires 0 <= i < len && Valid() reads this, msg => msg[RingIndex(head, i)])
    }

    ghost predicate Holds(s: seq<Msg>)
      reads this, msg
    {
      Valid() && Contents() == s
    }

    constructor ()
      ensures Holds([]) && fresh(msg)
    {
      msg := new Msg[Q_LEN](_ => BLANK_MSG);
      head, tail, len := 0, 0, 0;
    }

    /** The MyBzero of a whole mailbox. */
    method Clear()
      requires Valid()
      modifies this, msg
      ensures Holds([])
    {
      head, tail, len := 0, 0, 0;
      for i := 0 to Q_LEN
        invariant head == 0 && tail == 0 && len == 0
      {
        msg[i] := BLANK_MSG;
      }
    }

    method MsgEnQ(m: Msg)
      requires Valid()
      modifies this, msg
      ensures Holds(Push(old(Contents()), m))
    {
      if len >= Q_LEN {
        return;
      }
      ghost var was := Contents();
      msg[tail] := m;
      tail := tail + 1;
      len := len + 1;
      if tail >= Q_LEN {
        tail := 0;
      }
      assert tail == RingIndex(head, len);
      forall i | 0 <= i < len - 1 ensures msg[RingIndex(head, i)] == was[i] {
        assert RingIndex(head, i) != RingIndex(head, len - 1);
      }
      assert Contents() == was + [m];
    }

    /** MsgDeQ: the oldest message; nothing from an empty ring. */
    method MsgDeQ() returns (found: bool, m: Msg)
      requires Valid()
      modifies this
      ensures Valid() && found == (old(Contents()) != [])
      ensures if found then m == old(Contents())[0] && Contents() == old(Contents())[1..] else Contents() == []
    {
      if len <= 0 {
        return false, BLANK_MSG;
      }
      ghost var was := Contents();
      m := msg[head];
      head := head + 1;
      len := len - 1;
      if head == Q_LEN {
        head := 0;
      }
      found := true;
      forall i | 0 <= i < len ensures RingIndex(head, i) == RingIndex(old(head), i + 1) {}
      assert Contents() == was[1..];
    }
  }
}
