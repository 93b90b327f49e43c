/** What the tables and frames built by ForkISR mean to the processor, for a child whose five pages
    are one block starting at `base`. */
module PageTables {
  import opened Params
  import opened Paging

  function BlockAt(base: int): Five {
    Five(base, base + PAGE_SIZE, base + 2 * PAGE_SIZE, base + 3 * PAGE_SIZE, base + 4 * PAGE_SIZE)
  }

  const BLOCK_BYTES := 5 * PAGE_SIZE
  const MAX_SPILL := 2 * PAGE_SIZE - 2  // largest image whose copy stays inside the block

  predicate IsBase(base: int) {
    0 <= base && base % PAGE_SIZE == 0 && base + BLOCK_BYTES < WORD_LIMIT
  }

  predicate InBlock(base: int, a: int) {
    base <= a < base + BLOCK_BYTES
  }

  /** The kernel's directory lies outside the block. */
  predicate OsOutside(base: int, os: int) {
    os + PAGE_SIZE <= base || base + BLOCK_BYTES <= os
  }

  /** The words a child's tables must hold, given the kernel's directory at os. */
  ghost predicate TablesOk(m: seq<Byte>, base: int, os: int) {
    IsBase(base) && base + BLOCK_BYTES <= |m| && 0 <= os && os + PAGE_SIZE <= |m|
    && Word(m, base + 4 * CODE_DIR) == Mapped(base + PAGE_SIZE)
    && Word(m, base + 4 * STACK_DIR) == Mapped(base + 2 * PAGE_SIZE)
    && Word(m, base + PAGE_SIZE) == Mapped(base + 3 * PAGE_SIZE)
    && Word(m, base + 2 * PAGE_SIZE + 4 * 1023) == Mapped(base + 4 * PAGE_SIZE)
    && (forall i :: 0 <= i < 1024 && i != CODE_DIR && i != STACK_DIR ==> Word(m, base + 4 * i) == Word(m, os + 4 * i))
  }

  /** Tables are unchanged where the table pages and the kernel's directory are. */
  lemma TablesKept(m: seq<Byte>, m': seq<Byte>, base: int, os: int)
    requires TablesOk(m, base, os) && |m'| == |m|
    requires forall k :: base <= k < base + 3 * PAGE_SIZE ==> m'[k] == m[k]
    requires forall k :: os <= k < os + PAGE_SIZE ==> m'[k] == m[k]
    ensures TablesOk(m', base, os)
  {
    WordSame(m, m', base + 4 * CODE_DIR);
    WordSame(m, m', base + 4 * STACK_DIR);
    WordSame(m, m', base + PAGE_SIZE);
    WordSame(m, m', base + 2 * PAGE_SIZE + 4 * 1023);
    forall i | 0 <= i < 1024 && i != CODE_DIR && i != STACK_DIR ensures Word(m', base + 4 * i) == Word(m', os + 4 * i) {
      WordSame(m, m', base + 4 * i);
      WordSame(m, m', os + 4 * i);
    }
  }

  lemma MappedPage(page: int)
    requires page % PAGE_SIZE == 0
    ensures Mapped(page) == page + 3 && PageOf(Mapped(page)) == page && Mapped(page) % 2 == 1
  {
    assert page % 4 == 0;
  }

  lemma EntryIs(m: seq<Byte>, table: int, i: int, page: int)
    requires InMemory(m, PageOf(table) + 4 * i) && page % PAGE_SIZE == 0
    requires Word(m, PageOf(table) + 4 * i) == Mapped(page)
    ensures Entry(m, table, i) == Some(Mapped(page))
  {
    hide Word, PageOf;
    MappedPage(page);
  }

  lemma WalkIs(m: seq<Byte>, cr3: int, va: int, table: int, page: int)
    requires 0 <= va < WORD_LIMIT && page % PAGE_SIZE == 0
    requires Entry(m, cr3, va / DIR_SPAN) == Some(Mapped(table))
    requires Entry(m, Mapped(table), va / PAGE_SIZE % 1024) == Some(Mapped(page))
    ensures Walk(m, cr3, va) == Some(page + va % PAGE_SIZE)
  {
    hide Entry;
    MappedPage(page);
  }

  lemma CodeAddress(off: int)
    requires 0 <= off < PAGE_SIZE
    ensures (CODE_VA + off) / DIR_SPAN == CODE_DIR
    ensures (CODE_VA + off) / PAGE_SIZE % 1024 == 0 && (CODE_VA + off) % PAGE_SIZE == off
  {
  }

  lemma StackAddress(off: int)
    requires 0 <= off < PAGE_SIZE
    ensures (STACK_VA + off) / DIR_SPAN == STACK_DIR
    ensures (STACK_VA + off) / PAGE_SIZE % 1024 == 1023 && (STACK_VA + off) % PAGE_SIZE == off
  {
  }

  /** The two windows mean the child's own code page and stack page, offset for offset. */
  lemma WindowsMean(m: seq<Byte>, base: int, os: int, off: int)
    requires TablesOk(m, base, os) && 0 <= off < PAGE_SIZE
    ensures Walk(m, base, CODE_VA + off) == Some(base + 3 * PAGE_SIZE + off)
    ensures Walk(m, base, STACK_VA + off) == Some(base + 4 * PAGE_SIZE + off)
  {
    hide Walk, Entry, Word, Mapped, PageOf;
    TablesAligned(base);
    CodeAddress(off);
    StackAddress(off);
    EntryIs(m, base, CODE_DIR, base + PAGE_SIZE);
    EntryIs(m, Mapped(base + PAGE_SIZE), 0, base + 3 * PAGE_SIZE);
    WalkIs(m, base, CODE_VA + off, base + PAGE_SIZE, base + 3 * PAGE_SIZE);
    EntryIs(m, base, STACK_DIR, base + 2 * PAGE_SIZE);
    EntryIs(m, Mapped(base + 2 * PAGE_SIZE), 1023, base + 4 * PAGE_SIZE);
    WalkIs(m, base, STACK_VA + off, base + 2 * PAGE_SIZE, base + 4 * PAGE_SIZE);
  }

  lemma TablesAligned(base: int)
    requires IsBase(base)
    ensures PageOf(base) == base
    ensures PageOf(Mapped(base + PAGE_SIZE)) == base + PAGE_SIZE
    ensures PageOf(Mapped(base + 2 * PAGE_SIZE)) == base + 2 * PAGE_SIZE
    ensures (base + PAGE_SIZE) % PAGE_SIZE == 0 && (base + 2 * PAGE_SIZE) % PAGE_SIZE == 0
    ensures (base + 3 * PAGE_SIZE) % PAGE_SIZE == 0 && (base + 4 * PAGE_SIZE) % PAGE_SIZE == 0
  {
    MappedPage(base + PAGE_SIZE);
    MappedPage(base + 2 * PAGE_SIZE);
  }

  /** Everywhere else the child sees what the kernel's directory maps. */
  lemma ElsewhereAsKernel(m: seq<Byte>, base: int, os: int, va: int)
    requires TablesOk(m, base, os) && os % PAGE_SIZE == 0 && 0 <= va < WORD_LIMIT
    requires va / DIR_SPAN != CODE_DIR && va / DIR_SPAN != STACK_DIR
    ensures Walk(m, base, va) == Walk(m, os, va)
  {
    hide Word;
    var i := va / DIR_SPAN;
    assert PageOf(base) == base && PageOf(os) == os;
    assert Word(m, base + 4 * i) == Word(m, os + 4 * i);
    assert Entry(m, base, i) == Entry(m, os, i);
  }

  /** Windows of children in different blocks share no byte of memory. */
  lemma WindowsDisjoint(m: seq<Byte>, b1: int, b2: int, os: int, va1: int, va2: int)
    requires TablesOk(m, b1, os) && TablesOk(m, b2, os) && (b1 + BLOCK_BYTES <= b2 || b2 + BLOCK_BYTES <= b1)
    requires CODE_VA <= va1 < CODE_VA + PAGE_SIZE || STACK_VA <= va1 < STACK_VA + PAGE_SIZE
    requires CODE_VA <= va2 < CODE_VA + PAGE_SIZE || STACK_VA <= va2 < STACK_VA + PAGE_SIZE
    ensures Walk(m, b1, va1).Some? && Walk(m, b2, va2).Some? && Walk(m, b1, va1) != Walk(m, b2, va2)
  {
    hide Walk, TablesOk, Word;
    WindowsMean(m, b1, os, if va1 < STACK_VA then va1 - CODE_VA else va1 - STACK_VA);
    WindowsMean(m, b2, os, if va2 < STACK_VA then va2 - CODE_VA else va2 - STACK_VA);
  }

  /** A frame on a child's stack, at the address va that its record saves, as read under another
      directory: the kernel's, or that of a process in another block. It reaches the child's own
      frame only under the kernel's, and then exactly if that directory maps va to the child's
      stack page. WaitISR reads a dead child's exit value so, under its caller's directory. */
  lemma FrameSeenFrom(m: seq<Byte>, child: int, reader: int, os: int, va: int)
    requires TablesOk(m, child, os) && STACK_VA <= va < STACK_VA + PAGE_SIZE
    requires reader == os
      || (TablesOk(m, reader, os) && (reader + BLOCK_BYTES <= child || child + BLOCK_BYTES <= reader))
    ensures Walk(m, reader, va) == Walk(m, child, va) <==>
      reader == os && Walk(m, os, va) == Some(child + 4 * PAGE_SIZE + (va - STACK_VA))
  {
    hide Walk, TablesOk;
    WindowsMean(m, child, os, va - STACK_VA);
    if reader != os {
      WindowsMean(m, reader, os, va - STACK_VA);
    }
  }

  // Fork builds them

  lemma BuildEntriesOutside(m: seq<Byte>, base: int, k: int)
    requires IsBase(base) && base + BLOCK_BYTES <= |m| && 0 <= k < |m|
    requires !(base + 4 * CODE_DIR <= k < base + 4 * CODE_DIR + 4)
    requires !(base + 4 * STACK_DIR <= k < base + 4 * STACK_DIR + 4)
    requires !(base + PAGE_SIZE <= k < base + PAGE_SIZE + 4)
    requires !(base + 2 * PAGE_SIZE + 4 * 1023 <= k < base + 3 * PAGE_SIZE)
    ensures BuildEntries(m, BlockAt(base))[k] == m[k]
  {
  }

  lemma BuildEntriesWords(m: seq<Byte>, base: int)
    requires IsBase(base) && base + BLOCK_BYTES <= |m|
    ensures var m' := BuildEntries(m, BlockAt(base));
      Word(m', base + 4 * CODE_DIR) == Mapped(base + PAGE_SIZE)
      && Word(m', base + 4 * STACK_DIR) == Mapped(base + 2 * PAGE_SIZE)
      && Word(m', base + PAGE_SIZE) == Mapped(base + 3 * PAGE_SIZE)
      && Word(m', base + 2 * PAGE_SIZE + 4 * 1023) == Mapped(base + 4 * PAGE_SIZE)
  {
    hide Word, WordBytes;
    var f := BlockAt(base);
    assert PagesFit(m, f);
    var m1 := Store(m, f.main + 4 * CODE_DIR, WordBytes(Mapped(f.codeTable)));
    var m2 := Store(m1, f.main + 4 * STACK_DIR, WordBytes(Mapped(f.stackTable)));
    var m3 := Store(m2, f.codeTable, WordBytes(Mapped(f.codePage)));
    var m4 := Store(m3, f.stackTable + 4 * 1023, WordBytes(Mapped(f.stackPage)));
    WordStored(m, f.main + 4 * CODE_DIR, Mapped(f.codeTable));
    WordStored(m1, f.main + 4 * STACK_DIR, Mapped(f.stackTable));
    WordStored(m2, f.codeTable, Mapped(f.codePage));
    WordStored(m3, f.stackTable + 4 * 1023, Mapped(f.stackPage));
    WordSame(m1, m2, f.main + 4 * CODE_DIR);
    WordSame(m2, m3, f.main + 4 * CODE_DIR);
    WordSame(m3, m4, f.main + 4 * CODE_DIR);
    WordSame(m2, m3, f.main + 4 * STACK_DIR);
    WordSame(m3, m4, f.main + 4 * STACK_DIR);
    WordSame(m3, m4, f.codeTable);
  }

  /** In the child's directory page, but not in the two entries Fork sets. */
  predicate InDirectory(base: int, k: int) {
    base <= k < base + PAGE_SIZE && !(base + 4 * CODE_DIR <= k < base + 4 * CODE_DIR + 4)
    && !(base + 4 * STACK_DIR <= k < base + 4 * STACK_DIR + 4)
  }

  /** Bytes of a Fork's result, by where they lie: the child's directory, its code page, and
      everything outside the block. The stray zero behind the copied directory falls on the first
      code sub-table entry, which is written afterwards. */
  lemma ForkBytes(m: seq<Byte>, base: int, data: int, size: int, os: int, g: Segments, k: int)
    requires IsBase(base) && ForkFits(m, BlockAt(base), data, size, os, g) && 0 <= k < |m|
    requires size <= MAX_SPILL && OsOutside(base, os)
    ensures var m' := ForkMemory(m, BlockAt(base), data, size, os, g);
      (InDirectory(base, k) ==> m'[k] == m[os + k - base])
      && (Unsmeared(base + 3 * PAGE_SIZE, data, Max0(size))
          && base + 3 * PAGE_SIZE <= k < base + 4 * PAGE_SIZE && k < base + 3 * PAGE_SIZE + size ==>
            m'[k] == m[data + k - (base + 3 * PAGE_SIZE)])
      && (!InBlock(base, k) ==> m'[k] == m[k])
  {
    hide BuildFrame, BuildEntries;
    var f := BlockAt(base);
    var m1 := Memcpy(m, f.codePage, data, size);
    var m2 := BuildFrame(m1, f.stackPage, g);
    var m3 := Memcpy(m2, f.main, os, PAGE_SIZE);
    if !(base + 4 * CODE_DIR <= k < base + 4 * CODE_DIR + 4) && !(base + 4 * STACK_DIR <= k < base + 4 * STACK_DIR + 4)
      && !(base + PAGE_SIZE <= k < base + PAGE_SIZE + 4)
      && !(base + 2 * PAGE_SIZE + 4 * 1023 <= k < base + 3 * PAGE_SIZE) {
      BuildEntriesOutside(m3, base, k);
      if base <= k < base + PAGE_SIZE {
        assert m3[k] == m2[os + k - base];
        assert m2[os + k - base] == m1[os + k - base];
      }
    }
  }

  /** After a Fork whose image does not overrun the block, the child's tables are right. */
  lemma ForkBuildsTables(m: seq<Byte>, base: int, data: int, size: int, os: int, g: Segments)
    requires IsBase(base) && ForkFits(m, BlockAt(base), data, size, os, g)
    requires size <= MAX_SPILL && OsOutside(base, os)
    ensures TablesOk(ForkMemory(m, BlockAt(base), data, size, os, g), base, os)
  {
    hide BuildFrame, BuildEntries, Word, Mapped;
    var f := BlockAt(base);
    var m' := ForkMemory(m, f, data, size, os, g);
    var m2 := BuildFrame(Memcpy(m, f.codePage, data, size), f.stackPage, g);
    BuildEntriesWords(Memcpy(m2, f.main, os, PAGE_SIZE), base);
    forall i | 0 <= i < 1024 && i != CODE_DIR && i != STACK_DIR ensures Word(m', base + 4 * i) == Word(m', os + 4 * i) {
      DirectoryCopied(m, base, data, size, os, g, i);
    }
  }

  lemma DirectoryCopied(m: seq<Byte>, base: int, data: int, size: int, os: int, g: Segments, i: int)
    requires IsBase(base) && ForkFits(m, BlockAt(base), data, size, os, g)
    requires size <= MAX_SPILL && OsOutside(base, os)
    requires 0 <= i < 1024 && i != CODE_DIR && i != STACK_DIR
    ensures var m' := ForkMemory(m, BlockAt(base), data, size, os, g);
      Word(m', base + 4 * i) == Word(m', os + 4 * i)
  {
    hide ForkMemory;
    var m' := ForkMemory(m, BlockAt(base), data, size, os, g);
    CopiedByte(m, base, data, size, os, g, 4 * i);
    CopiedByte(m, base, data, size, os, g, 4 * i + 1);
    CopiedByte(m, base, data, size, os, g, 4 * i + 2);
    CopiedByte(m, base, data, size, os, g, 4 * i + 3);
  }

  lemma CopiedByte(m: seq<Byte>, base: int, data: int, size: int, os: int, g: Segments, d: int)
    requires IsBase(base) && ForkFits(m, BlockAt(base), data, size, os, g)
    requires size <= MAX_SPILL && OsOutside(base, os) && 0 <= d < PAGE_SIZE
    requires d / 4 != CODE_DIR && d / 4 != STACK_DIR
    ensures var m' := ForkMemory(m, BlockAt(base), data, size, os, g); m'[base + d] == m'[os + d]
  {
    hide ForkMemory;
    ForkBytes(m, base, data, size, os, g, base + d);
    ForkBytes(m, base, data, size, os, g, os + d);
  }

  /** The image appears in the code window, byte for byte, unless it begins before the code page
      and reaches into it. */
  lemma ImageLoaded(m: seq<Byte>, base: int, data: int, size: int, os: int, g: Segments, k: int)
    requires IsBase(base) && ForkFits(m, BlockAt(base), data, size, os, g)
    requires size <= PAGE_SIZE && OsOutside(base, os) && 0 <= k < size
    requires Unsmeared(base + 3 * PAGE_SIZE, data, size)
    ensures var m' := ForkMemory(m, BlockAt(base), data, size, os, g);
      Walk(m', base, CODE_VA + k) == Some(base + 3 * PAGE_SIZE + k) && m'[base + 3 * PAGE_SIZE + k] == m[data + k]
  {
    hide ForkMemory, TablesOk;
    ForkBuildsTables(m, base, data, size, os, g);
    WindowsMean(ForkMemory(m, BlockAt(base), data, size, os, g), base, os, k);
    ForkBytes(m, base, data, size, os, g, base + 3 * PAGE_SIZE + k);
  }

  const TF_VA := 0xbfff_ffbc  // the trap-frame address ForkISR saves for the child

  lemma FrameBytes(m: seq<Byte>, base: int, data: int, size: int, os: int, g: Segments, k: int)
    requires IsBase(base) && ForkFits(m, BlockAt(base), data, size, os, g) && OsOutside(base, os)
    requires base + BLOCK_BYTES - TF_SIZE <= k < base + BLOCK_BYTES
    ensures ForkMemory(m, BlockAt(base), data, size, os, g)[k]
         == BuildFrame(Memcpy(m, base + 3 * PAGE_SIZE, data, size), base + 4 * PAGE_SIZE, g)[k]
  {
    hide BuildFrame, BuildEntries;
    var f := BlockAt(base);
    var m3 := Memcpy(BuildFrame(Memcpy(m, f.codePage, data, size), f.stackPage, g), f.main, os, PAGE_SIZE);
    BuildEntriesOutside(m3, base, k);
  }

  lemma FrameWords(m: seq<Byte>, stackPage: int, g: Segments)
    requires 0 <= stackPage && stackPage + PAGE_SIZE <= |m| && SegmentsOk(g)
    ensures var m', tf := BuildFrame(m, stackPage, g), stackPage + PAGE_SIZE - TF_SIZE;
      Word(m', tf + 56) == ENTRY_POINT && Word(m', tf + 60) == g.cs && Word(m', tf + 64) == g.eflags
  {
    hide Word, WordBytes, HalfBytes;
    var tf := stackPage + PAGE_SIZE - TF_SIZE;
    var m1 := Store(m, tf + 56, WordBytes(ENTRY_POINT));
    var m2 := Store(m1, tf + 64, WordBytes(g.eflags));
    var m3 := Store(m2, tf + 60, WordBytes(g.cs));
    WordStored(m, tf + 56, ENTRY_POINT);
    WordStored(m1, tf + 64, g.eflags);
    WordStored(m2, tf + 60, g.cs);
    var m' := BuildFrame(m, stackPage, g);
    WordSame(m1, m', tf + 56);
    WordSame(m2, m', tf + 64);
    WordSame(m3, m', tf + 60);
  }

  lemma FrameHalves(m: seq<Byte>, stackPage: int, g: Segments)
    requires 0 <= stackPage && stackPage + PAGE_SIZE <= |m| && SegmentsOk(g)
    ensures HoldsSegments(BuildFrame(m, stackPage, g), stackPage + PAGE_SIZE - TF_SIZE, g)
  {
    hide Half, HalfBytes, WordBytes;
    var tf := stackPage + PAGE_SIZE - TF_SIZE;
    var m1 := Store(m, tf + 56, WordBytes(ENTRY_POINT));
    var m2 := Store(m1, tf + 64, WordBytes(g.eflags));
    var m3 := Store(m2, tf + 60, WordBytes(g.cs));
    var m4 := Store(m3, tf + 12, HalfBytes(g.ds));
    var m5 := Store(m4, tf + 8, HalfBytes(g.es));
    var m6 := Store(m5, tf + 4, HalfBytes(g.fs));
    var m' := Store(m6, tf, HalfBytes(g.gs));
    HalfStored(m3, tf + 12, g.ds);
    HalfStored(m4, tf + 8, g.es);
    HalfStored(m5, tf + 4, g.fs);
    HalfStored(m6, tf, g.gs);
    HalfSame(m4, m', tf + 12);
    HalfSame(m5, m', tf + 8);
    HalfSame(m6, m', tf + 4);
  }

  /** The data segment registers of the frame at tf. */
  predicate HoldsSegments(m: seq<Byte>, tf: int, g: Segments)
    requires 0 <= tf && tf + TF_SIZE <= |m|
  {
    Half(m, tf) == g.gs && Half(m, tf + 4) == g.fs && Half(m, tf + 8) == g.es && Half(m, tf + 12) == g.ds
  }

  /** The saved trap-frame address means the frame that was built, and the frame starts the child
      at its entry point. */
  lemma FrameFound(m: seq<Byte>, base: int, data: int, size: int, os: int, g: Segments)
    requires IsBase(base) && ForkFits(m, BlockAt(base), data, size, os, g)
    requires size <= MAX_SPILL && OsOutside(base, os)
    ensures var m' := ForkMemory(m, BlockAt(base), data, size, os, g);
      var tf := base + BLOCK_BYTES - TF_SIZE;
      Walk(m', base, TF_VA) == Some(tf) && Walk(m', base, TF_VA + TF_SIZE - 1) == Some(tf + TF_SIZE - 1)
      && Word(m', tf + 56) == ENTRY_POINT && Word(m', tf + 60) == g.cs && Word(m', tf + 64) == g.eflags
      && HoldsSegments(m', tf, g)
  {
    hide ForkMemory, TablesOk, Word, Half, BuildFrame;
    var m', tf := ForkMemory(m, BlockAt(base), data, size, os, g), base + BLOCK_BYTES - TF_SIZE;
    ForkBuildsTables(m, base, data, size, os, g);
    WindowsMean(m', base, os, TF_VA - STACK_VA);
    WindowsMean(m', base, os, PAGE_SIZE - 1);
    var m2 := BuildFrame(Memcpy(m, base + 3 * PAGE_SIZE, data, size), base + 4 * PAGE_SIZE, g);
    FrameWords(Memcpy(m, base + 3 * PAGE_SIZE, data, size), base + 4 * PAGE_SIZE, g);
    forall k | tf <= k < tf + TF_SIZE ensures m'[k] == m2[k] {
      FrameBytes(m, base, data, size, os, g, k);
    }
    WordSame(m2, m', tf + 56);
    WordSame(m2, m', tf + 60);
    WordSame(m2, m', tf + 64);
    FrameHalves(Memcpy(m, base + 3 * PAGE_SIZE, data, size), base + 4 * PAGE_SIZE, g);
    HalfSame(m2, m', tf);
    HalfSame(m2, m', tf + 4);
    HalfSame(m2, m', tf + 8);
    HalfSame(m2, m', tf + 12);
  }

  /** On memory m, Fork changes no byte outside the block. */
  ghost predicate KeepsOthers(m: seq<Byte>, base: int, data: int, size: int, os: int, g: Segments)
    requires ForkFits(m, BlockAt(base), data, size, os, g)
  {
    forall k :: 0 <= k < |m| && !InBlock(base, k) ==> ForkMemory(m, BlockAt(base), data, size, os, g)[k] == m[k]
  }

  /** The images that can never touch a byte outside the child's block are exactly those of at most
      8190 bytes: a longer one does so on the memory of all ones. */
  lemma SpillsExactly(m: seq<Byte>, base: int, data: int, size: int, os: int, g: Segments)
    requires IsBase(base) && ForkFits(m, BlockAt(base), data, size, os, g) && OsOutside(base, os)
    ensures size <= MAX_SPILL ==> KeepsOthers(m, base, data, size, os, g)
    ensures size > MAX_SPILL ==> !KeepsOthers(seq(|m|, _ => 1 as Byte), base, data, size, os, g)
  {
    hide ForkMemory;
    if size <= MAX_SPILL {
      forall k | 0 <= k < |m| && !InBlock(base, k)
        ensures ForkMemory(m, BlockAt(base), data, size, os, g)[k] == m[k] {
        ForkBytes(m, base, data, size, os, g, k);
      }
    } else {
      var ones: seq<Byte> := seq(|m|, _ => 1 as Byte);
      var k := base + 3 * PAGE_SIZE + size + 1;
      StrayZero(ones, base, data, size, os, g);
      assert ones[k] == 1 && !InBlock(base, k);
    }
  }

  lemma StrayZero(m: seq<Byte>, base: int, data: int, size: int, os: int, g: Segments)
    requires IsBase(base) && ForkFits(m, BlockAt(base), data, size, os, g) && OsOutside(base, os)
    requires size > MAX_SPILL
    ensures ForkMemory(m, BlockAt(base), data, size, os, g)[base + 3 * PAGE_SIZE + size + 1] == 0
  {
    hide BuildFrame, BuildEntries;
    var f, k := BlockAt(base), base + 3 * PAGE_SIZE + size + 1;
    var m3 := Memcpy(BuildFrame(Memcpy(m, f.codePage, data, size), f.stackPage, g), f.main, os, PAGE_SIZE);
    BuildEntriesOutside(m3, base, k);
  }
}
