/** The page pool. Forked processes own aligned blocks of five pages, so the lowest five free
    pages are always one block, and the pool cannot run out while a PID is free. */
module Pages {
  import opened Params
  import opened KernelState
  import opened Partition

  /** Owner of block j, read off its first page. */
  function Head(owner: seq<int>, j: int): int
    requires |owner| == DRAM_PAGE_COUNT && 0 <= j < BLOCK_COUNT
  {
    owner[BLOCK * j]
  }

  /** Owner of page k of block j. */
  function PageOwner(owner: seq<int>, j: int, k: int): int
    requires |owner| == DRAM_PAGE_COUNT && 0 <= j < BLOCK_COUNT && 0 <= k < BLOCK
  {
    owner[BLOCK * j + k]
  }

  /** Every page has its block's owner, and no process owns two blocks. */
  predicate Blocks(owner: seq<int>) {
    |owner| == DRAM_PAGE_COUNT
    && (forall j, k :: 0 <= j < BLOCK_COUNT && 0 <= k < BLOCK ==> PageOwner(owner, j, k) == Head(owner, j))
    && (forall j, k :: 0 <= j < k < BLOCK_COUNT && Head(owner, j) == Head(owner, k) ==> Head(owner, j) == -1)
  }

  predicate Owns(owner: seq<int>, p: int)
    requires |owner| == DRAM_PAGE_COUNT
  {
    exists j :: 0 <= j < BLOCK_COUNT && Head(owner, j) == p
  }

  /** A process owns a block exactly when it was forked and has not been reaped; unused
      process-table records are blank. */
  ghost predicate PagesOk(s: State)
    requires Shape(s)
  {
    Blocks(s.owner)
    && (forall j :: 0 <= j < BLOCK_COUNT && Head(s.owner, j) != -1 ==> IsPid(Head(s.owner, j)))
    && (forall p :: IsPid(p) ==> (Owns(s.owner, p) <==> s.pcb[p].ppid != 0))
    && (forall p :: 0 <= p < MAX_PROC_NUM ==> 0 <= s.pcb[p].ppid < MAX_PROC_NUM)
    && (forall p :: IsPid(p) && s.pcb[p].state == Free ==> s.pcb[p] == BLANK_PCB)
    && s.pcb[0].ppid == 0
  }

  /** The lowest unowned block at or after j; BLOCK_COUNT if there is none. */
  function FreeBlock(owner: seq<int>, j: nat): (r: nat)
    requires |owner| == DRAM_PAGE_COUNT && j <= BLOCK_COUNT
    ensures j <= r <= BLOCK_COUNT
    ensures r < BLOCK_COUNT ==> Head(owner, r) == -1
    ensures forall k :: j <= k < r ==> Head(owner, k) != -1
    decreases BLOCK_COUNT - j
  {
    if j == BLOCK_COUNT || Head(owner, j) == -1 then j else FreeBlock(owner, j + 1)
  }

  function BlockPages(j: nat): seq<int> {
    Interval(BLOCK * j, BLOCK)
  }

  lemma {:induction false} FreePagesOfRun(owner: seq<int>, i: nat, n: nat, h: int)
    requires i + n <= |owner| && forall k :: i <= k < i + n ==> owner[k] == h
    ensures FreePages(owner, i) == (if h == -1 then Interval(i, n) else []) + FreePages(owner, i + n)
    decreases n
  {
    if n > 0 {
      FreePagesOfRun(owner, i + 1, n - 1, h);
      var rest := FreePages(owner, i + n);
      assert Interval(i, n) == [i] + Interval(i + 1, n - 1);
      assert ([i] + Interval(i + 1, n - 1)) + rest == [i] + (Interval(i + 1, n - 1) + rest);
    }
  }

  lemma FreePagesOfBlock(owner: seq<int>, j: nat)
    requires Blocks(owner) && j < BLOCK_COUNT
    ensures FreePages(owner, BLOCK * j)
         == (if Head(owner, j) == -1 then BlockPages(j) else []) + FreePages(owner, BLOCK * j + BLOCK)
  {
    forall k | BLOCK * j <= k < BLOCK * j + BLOCK ensures owner[k] == Head(owner, j) {
      assert PageOwner(owner, j, k - BLOCK * j) == Head(owner, j);
    }
    FreePagesOfRun(owner, BLOCK * j, BLOCK, Head(owner, j));
  }

  /** "Lowest five free pages" means "the lowest free block". */
  lemma {:induction false} LowestFiveAreABlock(owner: seq<int>, j: nat)
    requires Blocks(owner) && j <= BLOCK_COUNT
    ensures |FreePages(owner, BLOCK * j)| >= BLOCK <==> FreeBlock(owner, j) < BLOCK_COUNT
    ensures FreeBlock(owner, j) < BLOCK_COUNT ==>
      FreePages(owner, BLOCK * j)[..BLOCK] == BlockPages(FreeBlock(owner, j))
    ensures FreeBlock(owner, j) == BLOCK_COUNT ==> FreePages(owner, BLOCK * j) == []
    decreases BLOCK_COUNT - j
  {
    if j < BLOCK_COUNT {
      FreePagesOfBlock(owner, j);
      if Head(owner, j) != -1 {
        LowestFiveAreABlock(owner, j + 1);
      }
    }
  }

  /** The owners of the blocks below n, all owned. */
  function Heads(owner: seq<int>, n: nat): (r: seq<int>)
    requires |owner| == DRAM_PAGE_COUNT && n <= BLOCK_COUNT
    ensures |r| == n && forall j :: 0 <= j < n ==> r[j] == Head(owner, j)
  {
    seq(n, j requires 0 <= j < n => Head(owner, j))
  }

  /** Some block is always free, so Fork fails exactly when no PID is left: its
      "no free DRAM space" branch is dead. */
  lemma PoolOutlastsPids(s: State)
    requires Shape(s) && PagesOk(s)
    ensures FreeBlock(s.owner, 0) < BLOCK_COUNT
    ensures |FreePages(s.owner, 0)| >= BLOCK
    ensures ForkFails(s) <==> s.free == []
  {
    LowestFiveAreABlock(s.owner, 0);
    if FreeBlock(s.owner, 0) == BLOCK_COUNT {
      var hs := Heads(s.owner, BLOCK_COUNT);
      forall p | p in hs ensures IsPid(p) {
        var j :| 0 <= j < BLOCK_COUNT && hs[j] == p;
        assert Head(s.owner, j) != -1;
      }
      assert NoDup(hs);
      Pigeonhole(hs, MAX_PROC_NUM);
    }
  }

  /** Claiming the lowest free block gives its pages, and only those, to c. */
  lemma ClaimBlock(owner: seq<int>, j: nat, c: int)
    requires Blocks(owner) && j < BLOCK_COUNT && Head(owner, j) == -1 && IsPid(c) && !Owns(owner, c)
    ensures Blocks(Claim(owner, BlockPages(j), c))
    ensures forall k :: 0 <= k < BLOCK_COUNT ==>
      Head(Claim(owner, BlockPages(j), c), k) == if k == j then c else Head(owner, k)
  {
    var o := Claim(owner, BlockPages(j), c);
    IntervalMembers(BLOCK * j, BLOCK);
    forall b, k | 0 <= b < BLOCK_COUNT && 0 <= k < BLOCK ensures PageOwner(o, b, k) == Head(o, b) {
      assert PageOwner(owner, b, k) == Head(owner, b);
      assert BLOCK * b + k in BlockPages(j) <==> b == j;
      assert BLOCK * b in BlockPages(j) <==> b == j;
    }
    forall b | 0 <= b < BLOCK_COUNT ensures Head(o, b) == if b == j then c else Head(owner, b) {
      assert PageOwner(o, b, 0) == Head(o, b);
    }
  }

  lemma ReleaseBlock(owner: seq<int>, p: int)
    requires Blocks(owner) && p != -1
    ensures Blocks(Release(owner, p))
    ensures forall k :: 0 <= k < BLOCK_COUNT ==>
      Head(Release(owner, p), k) == if Head(owner, k) == p then -1 else Head(owner, k)
  {
    var o := Release(owner, p);
    forall k | 0 <= k < BLOCK_COUNT ensures Head(o, k) == if Head(owner, k) == p then -1 else Head(owner, k) {}
    forall b, k | 0 <= b < BLOCK_COUNT && 0 <= k < BLOCK ensures PageOwner(o, b, k) == Head(o, b) {
      assert PageOwner(owner, b, k) == Head(owner, b);
    }
  }
}
