/** Runs of the kernel from boot. */
module Runs {
  import opened Params
  import opened KernelState
  import opened Partition
  import opened Pages
  import opened Invariant
  import opened Lifecycle

  function Run(s: State, es: seq<Event>, v: Variant): State
    decreases |es|
  {
    if es == [] then s else Run(Step(s, es[0], v), es[1..], v)
  }

  /** Every event of the run is one the environment may cause, and, as written, no Wait reaps. */
  predicate SoundRun(s: State, es: seq<Event>, v: Variant)
    decreases |es|
  {
    es == [] || (Sound(s, es[0], v) && SoundRun(Step(s, es[0], v), es[1..], v))
  }

  lemma BootPartitioned(t: int)
    ensures Partitioned(Boot(t))
  {
    var s := Boot(t);
    IntervalMembers(1, 5);
    IntervalMembers(6, 14);
    forall p | IsPid(p) && Queued(s.pcb[p].state) ensures exists pl :: IsPlace(pl) && p in Q(s, pl) {
      var pl := if p < 6 then InReady else InFree;
      assert p in Q(s, pl);
    }
  }

  lemma BootPages(t: int)
    ensures PagesOk(Boot(t))
  {
    var s := Boot(t);
    forall j, k | 0 <= j < BLOCK_COUNT && 0 <= k < BLOCK
      ensures PageOwner(s.owner, j, k) == Head(s.owner, j) == -1 {}
    assert forall p :: IsPid(p) ==> !Owns(s.owner, p);
  }

  lemma BootInv(t: int)
    ensures Inv(Boot(t)) && Boot(t).running == 0
  {
    assert Partitioned(Boot(t)) by { BootPartitioned(t); }
    assert PagesOk(Boot(t)) by { BootPages(t); }
    IntervalMembers(0, Q_LEN);
  }

  /** The invariant holds in every state of every run. */
  lemma {:induction false} RunKeeps(s: State, es: seq<Event>, v: Variant)
    requires Inv(s) && 0 <= s.running && SoundRun(s, es, v)
    ensures Inv(Run(s, es, v)) && 0 <= Run(s, es, v).running
    decreases |es|
  {
    if es != [] {
      StepKeeps(s, es[0], v);
      RunKeeps(Step(s, es[0], v), es[1..], v);
    }
  }

  /** Reachable states of the kernel. */
  lemma ReachableInv(t: int, es: seq<Event>, v: Variant)
    requires SoundRun(Boot(t), es, v)
    ensures Inv(Run(Boot(t), es, v)) && 0 <= Run(Boot(t), es, v).running
  {
    BootInv(t);
    RunKeeps(Boot(t), es, v);
  }
}
