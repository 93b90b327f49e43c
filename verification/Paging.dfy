/** Physical memory, the processor's two-level page walk, and the page tables ForkISR builds. */
module Paging {
  import opened Params

  type Byte = b: int | 0 <= b < 256

  datatype Option<T> = None | Some(value: T)

  const WORD_LIMIT := 0x1_0000_0000
  const DIR_SPAN := 0x40_0000        // bytes mapped by one page-directory entry
  const CODE_DIR := 512              // directory index of 0x80000000
  const STACK_DIR := 767             // directory index of 0xbffff000
  const CODE_VA := 0x8000_0000
  const STACK_VA := 0xbfff_f000

  // Bytes and words

  /** The little-endian 32-bit word at address a. */
  function Word(m: seq<Byte>, a: int): int
    requires 0 <= a && a + 4 <= |m|
  {
    m[a] as int + 0x100 * m[a + 1] as int + 0x1_0000 * m[a + 2] as int + 0x100_0000 * m[a + 3] as int
  }

  function WordBytes(w: int): (bs: seq<Byte>)
    requires 0 <= w < WORD_LIMIT
    ensures |bs| == 4
  {
    [w % 0x100, w / 0x100 % 0x100, w / 0x1_0000 % 0x100, w / 0x100_0000]
  }

  /** Memory with bs written at a. */
  function Store(m: seq<Byte>, a: int, bs: seq<Byte>): (m': seq<Byte>)
    requires 0 <= a && a + |bs| <= |m|
    ensures |m'| == |m|
    ensures forall k :: 0 <= k < |m| ==> m'[k] == if a <= k < a + |bs| then bs[k - a] else m[k]
  {
    seq(|m|, k requires 0 <= k < |m| => if a <= k < a + |bs| then bs[k - a] else m[k])
  }

  lemma WordStored(m: seq<Byte>, a: int, w: int)
    requires 0 <= a && a + 4 <= |m| && 0 <= w < WORD_LIMIT
    ensures Word(Store(m, a, WordBytes(w)), a) == w
  {
    var m', bs := Store(m, a, WordBytes(w)), WordBytes(w);
    assert m'[a] == bs[0] && m'[a + 1] == bs[1] && m'[a + 2] == bs[2] && m'[a + 3] == bs[3];
    var w1, w2, w3 := w / 0x100, w / 0x1_0000, w / 0x100_0000;
    assert w2 == w1 / 0x100 && w3 == w2 / 0x100;
  }

  /** The little-endian 16-bit half word at address a. */
  function Half(m: seq<Byte>, a: int): int
    requires 0 <= a && a + 2 <= |m|
  {
    m[a] as int + 0x100 * m[a + 1] as int
  }

  lemma HalfStored(m: seq<Byte>, a: int, h: int)
    requires 0 <= a && a + 2 <= |m| && 0 <= h < 0x1_0000
    ensures Half(Store(m, a, HalfBytes(h)), a) == h
  {
    var m', bs := Store(m, a, HalfBytes(h)), HalfBytes(h);
    assert m'[a] == bs[0] && m'[a + 1] == bs[1];
  }

  lemma HalfSame(m: seq<Byte>, m': seq<Byte>, a: int)
    requires 0 <= a && a + 2 <= |m| && |m'| == |m|
    requires forall k :: a <= k < a + 2 ==> m'[k] == m[k]
    ensures Half(m', a) == Half(m, a)
  {
  }

  /** Words agree where their bytes do. */
  lemma WordSame(m: seq<Byte>, m': seq<Byte>, a: int)
    requires 0 <= a && a + 4 <= |m| && |m'| == |m|
    requires forall k :: a <= k < a + 4 ==> m'[k] == m[k]
    ensures Word(m', a) == Word(m, a)
  {
  }

  // The page walk (Intel SDM volume 3A, section 4.3: 32-bit paging, 4-KByte pages)

  function PageOf(x: int): int {
    x / PAGE_SIZE * PAGE_SIZE
  }

  predicate InMemory(m: seq<Byte>, a: int) {
    0 <= a && a + 4 <= |m|
  }

  /** The entry at index i of the table whose page is `table`, if it is present. */
  function Entry(m: seq<Byte>, table: int, i: int): Option<int> {
    var a := PageOf(table) + 4 * i;
    if InMemory(m, a) && Word(m, a) % 2 == 1 then Some(Word(m, a)) else None
  }

  /** The physical address that virtual address va means under page directory cr3. */
  function Walk(m: seq<Byte>, cr3: int, va: int): Option<int>
    requires 0 <= va < WORD_LIMIT
  {
    match Entry(m, cr3, va / DIR_SPAN)
    case None => None
    case Some(dir) =>
      match Entry(m, dir, va / PAGE_SIZE % 1024)
      case None => None
      case Some(page) => Some(PageOf(page) + va % PAGE_SIZE)
  }

  // What ForkISR writes

  /** Bytes copied one at a time, first to last, each read after those before it are written. */
  function CopyBytes(m: seq<Byte>, dest: int, src: int, n: nat): (m': seq<Byte>)
    requires 0 <= dest && dest + n <= |m| && 0 <= src && src + n <= |m|
    ensures |m'| == |m|
    ensures forall k :: 0 <= k < |m| && !(dest <= k < dest + n) ==> m'[k] == m[k]
    ensures Unsmeared(dest, src, n) ==> forall k :: dest <= k < dest + n ==> m'[k] == m[src + k - dest]
  {
    if n == 0 then m
    else
      var m1 := CopyBytes(m, dest, src, n - 1);
      m1[dest + n - 1 := m1[src + n - 1]]
  }

  /** No byte is overwritten before it is read. */
  predicate Unsmeared(dest: int, src: int, n: nat) {
    src + n <= dest || dest <= src
  }

  /** MyMemcpy: size bytes from src to dest, then, as its loop counter ends one too far, a zero at
      dest + size + 1 (leaving the byte between untouched). */
  function Memcpy(m: seq<Byte>, dest: int, src: int, size: int): (m': seq<Byte>)
    requires CopyFits(m, dest, src, size)
    ensures |m'| == |m|
    ensures m'[dest + Max0(size) + 1] == 0
    ensures forall k :: 0 <= k < |m| && !(dest <= k < dest + Max0(size)) && k != dest + Max0(size) + 1 ==>
      m'[k] == m[k]
    ensures Unsmeared(dest, src, Max0(size)) ==>
      forall k :: dest <= k < dest + Max0(size) ==> m'[k] == m[src + k - dest]
  {
    CopyBytes(m, dest, src, Max0(size))[dest + Max0(size) + 1 := 0]
  }

  function Max0(x: int): nat {
    if x < 0 then 0 else x
  }

  /** Both ranges, with the stray zero, lie in memory. */
  predicate CopyFits(m: seq<Byte>, dest: int, src: int, size: int) {
    var n := Max0(size);
    0 <= dest && dest + n + 2 <= |m| && 0 <= src && src + n <= |m|
  }

  /** Addresses of the five pages of a child: directory, code sub-table, stack sub-table, code
      page, stack page. */
  datatype Five = Five(main: int, codeTable: int, stackTable: int, codePage: int, stackPage: int)

  /** Register contents ForkISR takes from elsewhere: the kernel's segments and initial flags. */
  datatype Segments = Segments(cs: int, ds: int, es: int, fs: int, gs: int, eflags: int)

  predicate SegmentsOk(g: Segments) {
    0 <= g.cs < WORD_LIMIT && 0 <= g.eflags < WORD_LIMIT
    && 0 <= g.ds < 0x1_0000 && 0 <= g.es < 0x1_0000 && 0 <= g.fs < 0x1_0000 && 0 <= g.gs < 0x1_0000
  }

  function HalfBytes(h: int): (bs: seq<Byte>)
    requires 0 <= h < 0x1_0000
    ensures |bs| == 2
  {
    [h % 0x100, h / 0x100]
  }

  /** Entry value for a page: its address with the present and writable bits set (|= 0x3). */
  function Mapped(page: int): int {
    page - page % 4 + 3
  }

  predicate PageFits(m: seq<Byte>, a: int) {
    0 <= a && a + PAGE_SIZE <= |m| && a + PAGE_SIZE < WORD_LIMIT
  }

  predicate PagesFit(m: seq<Byte>, f: Five) {
    PageFits(m, f.main) && PageFits(m, f.codeTable) && PageFits(m, f.stackTable)
    && PageFits(m, f.codePage) && PageFits(m, f.stackPage)
  }

  const ENTRY_POINT := 0x8000_0080

  /** The trap frame ForkISR builds at the top of the stack page. */
  function BuildFrame(m: seq<Byte>, stackPage: int, g: Segments): (m': seq<Byte>)
    requires 0 <= stackPage && stackPage + PAGE_SIZE <= |m| && SegmentsOk(g)
    ensures |m'| == |m|
    ensures forall k :: 0 <= k < |m| && !(stackPage + PAGE_SIZE - TF_SIZE <= k < stackPage + PAGE_SIZE) ==>
      m'[k] == m[k]
  {
    var tf := stackPage + PAGE_SIZE - TF_SIZE;
    var m1 := Store(m, tf + 56, WordBytes(ENTRY_POINT));
    var m2 := Store(m1, tf + 64, WordBytes(g.eflags));
    var m3 := Store(m2, tf + 60, WordBytes(g.cs));
    var m4 := Store(m3, tf + 12, HalfBytes(g.ds));
    var m5 := Store(m4, tf + 8, HalfBytes(g.es));
    var m6 := Store(m5, tf + 4, HalfBytes(g.fs));
    Store(m6, tf, HalfBytes(g.gs))
  }

  /** The two directory entries and the two sub-table entries. */
  function BuildEntries(m: seq<Byte>, f: Five): (m': seq<Byte>)
    requires PagesFit(m, f)
    ensures |m'| == |m|
  {
    var m1 := Store(m, f.main + 4 * CODE_DIR, WordBytes(Mapped(f.codeTable)));
    var m2 := Store(m1, f.main + 4 * STACK_DIR, WordBytes(Mapped(f.stackTable)));
    var m3 := Store(m2, f.codeTable, WordBytes(Mapped(f.codePage)));
    Store(m3, f.stackTable + 4 * 1023, WordBytes(Mapped(f.stackPage)))
  }

  predicate ForkFits(m: seq<Byte>, f: Five, data: int, size: int, os: int, g: Segments) {
    PagesFit(m, f) && SegmentsOk(g) && CopyFits(m, f.codePage, data, size) && CopyFits(m, f.main, os, PAGE_SIZE)
  }

  /** Everything ForkISR writes to memory, in its order. */
  function ForkMemory(m: seq<Byte>, f: Five, data: int, size: int, os: int, g: Segments): (m': seq<Byte>)
    requires ForkFits(m, f, data, size, os, g)
    ensures |m'| == |m|
  {
    var m1 := Memcpy(m, f.codePage, data, size);
    var m2 := BuildFrame(m1, f.stackPage, g);
    var m3 := Memcpy(m2, f.main, os, PAGE_SIZE);
    BuildEntries(m3, f)
  }

  // The code that does it, in place

  method MyMemcpy(mem: array<Byte>, dest: int, src: int, size: int)
    requires CopyFits(mem[..], dest, src, size)
    modifies mem
    ensures mem[..] == Memcpy(old(mem[..]), dest, src, size)
  {
    ghost var was := mem[..];
    var i := 0;
    while i < size
      invariant 0 <= i <= Max0(size) && mem[..] == CopyBytes(was, dest, src, i)
    {
      mem[dest + i] := mem[src + i];
      i := i + 1;
    }
    i := i + 1;
    mem[dest + i] := 0;
  }

  method StoreWord(mem: array<Byte>, a: int, w: int)
    requires 0 <= a && a + 4 <= mem.Length && 0 <= w < WORD_LIMIT
    modifies mem
    ensures mem[..] == Store(old(mem[..]), a, WordBytes(w))
  {
    ghost var was := mem[..];
    mem[a], mem[a + 1], mem[a + 2], mem[a + 3] := w % 0x100, w / 0x100 % 0x100, w / 0x1_0000 % 0x100, w / 0x100_0000;
    assert mem[..] == Store(was, a, WordBytes(w));
  }

  method StoreHalf(mem: array<Byte>, a: int, h: int)
    requires 0 <= a && a + 2 <= mem.Length && 0 <= h < 0x1_0000
    modifies mem
    ensures mem[..] == Store(old(mem[..]), a, HalfBytes(h))
  {
    ghost var was := mem[..];
    mem[a], mem[a + 1] := h % 0x100, h / 0x100;
    assert mem[..] == Store(was, a, HalfBytes(h));
  }

  method BuildFrameAt(mem: array<Byte>, stackPage: int, g: Segments)
    requires 0 <= stackPage && stackPage + PAGE_SIZE <= mem.Length && SegmentsOk(g)
    modifies mem
    ensures mem[..] == BuildFrame(old(mem[..]), stackPage, g)
  {
    hide Store, WordBytes, HalfBytes;
    var tf := stackPage + PAGE_SIZE - TF_SIZE;
    StoreWord(mem, tf + 56, ENTRY_POINT);
    StoreWord(mem, tf + 64, g.eflags);
    StoreWord(mem, tf + 60, g.cs);
    StoreHalf(mem, tf + 12, g.ds);
    StoreHalf(mem, tf + 8, g.es);
    StoreHalf(mem, tf + 4, g.fs);
    StoreHalf(mem, tf, g.gs);
  }

  method BuildEntriesAt(mem: array<Byte>, f: Five)
    requires PagesFit(mem[..], f)
    modifies mem
    ensures mem[..] == BuildEntries(old(mem[..]), f)
  {
    hide Store, WordBytes;
    StoreWord(mem, f.main + 4 * CODE_DIR, Mapped(f.codeTable));
    StoreWord(mem, f.main + 4 * STACK_DIR, Mapped(f.stackTable));
    StoreWord(mem, f.codeTable, Mapped(f.codePage));
    StoreWord(mem, f.stackTable + 4 * 1023, Mapped(f.stackPage));
  }

  method BuildChild(mem: array<Byte>, f: Five, data: int, size: int, os: int, g: Segments)
    requires ForkFits(mem[..], f, data, size, os, g)
    modifies mem
    ensures mem[..] == ForkMemory(old(mem[..]), f, data, size, os, g)
  {
    hide Memcpy, BuildFrame, BuildEntries;
    MyMemcpy(mem, f.codePage, data, size);
    BuildFrameAt(mem, f.stackPage, g);
    MyMemcpy(mem, f.main, os, PAGE_SIZE);
    BuildEntriesAt(mem, f);
  }
}
