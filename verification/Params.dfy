/** The kernel's compile-time constants (typedef.h, FileService.h) and the width of its clock. */
module Params {
  const TIME_LIMIT := 10        // timer ticks a process may run before it is preempted
  const MAX_PROC_NUM := 20      // size of the process table
  const Q_LEN := 20             // capacity of every queue, and number of semaphores
  const DRAM_PAGE_COUNT := 100  // pages in the pool that Fork draws from
  const BLOCK := 5              // pages given to one forked process
  const BLOCK_COUNT := 20       // DRAM_PAGE_COUNT / BLOCK
  const CLOCK_WRAP := 0x1_0000_0000 // the clock and wake times are 32-bit words

  const DRAM_BASE := 0xe00000   // address of the first pool page
  const PAGE_SIZE := 0x1000
  const TF_SIZE := 68           // bytes of a trap frame

  const CR := 13                // '\r'
  const LF := 10                // '\n'

  function Min(a: int, b: int): (m: int) {
    if a < b then a else b
  }

  /** n consecutive numbers from i. */
  function Interval(i: int, n: nat): (r: seq<int>)
    ensures |r| == n && forall k :: 0 <= k < n ==> r[k] == i + k
  {
    seq(n, k requires 0 <= k < n => i + k)
  }

  lemma IntervalMembers(i: int, n: nat)
    ensures forall x :: x in Interval(i, n) <==> i <= x < i + n
  {
    forall x | i <= x < i + n ensures x in Interval(i, n) {
      assert Interval(i, n)[x - i] == x;
    }
  }
}
