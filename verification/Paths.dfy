/** Path resolution in the memory-based file service (FileService.c). Strings are NUL-free and
    reading one at its length gives NUL. */
module Paths {
  const NUL := 0 as char
  const SLASH := '/'
  const END_DIR_INODE := 0xffff_ffff
  const MAX_NAME := 76         // longest name whose listing fits a message

  /** What an entry's data pointer points to: one of the directories, or a file's bytes. */
  datatype Target = Dir(dir: nat) | Bytes(bytes: string) | NoTarget

  datatype Name = NoName | Named(text: string)

  datatype Entry = Entry(inode: int, mode: nat, size: int, name: Name, target: Target)

  /** The directory tables. Directory 0 is root_dir; "." and ".." make the graph cyclic. */
  type Disk = seq<seq<Entry>>

  /** A resolved name is a position in a directory. Wild: the code takes the bytes of a regular
      file for a directory table and goes on from there. */
  datatype Result = Found(dir: nat, pos: nat) | NotFound | Wild

  /** A_ISDIR */
  predicate IsDirMode(mode: nat) {
    mode / 0x1000 % 0x10 == 4
  }

  predicate Text(s: string) {
    NUL !in s
  }

  function CharAt(s: string, i: nat): char
    requires i <= |s|
  {
    if i < |s| then s[i] else NUL
  }

  predicate Prefix(p: string, s: string) {
    |p| <= |s| && s[..|p|] == p
  }

  predicate EntryOk(e: Entry, dirs: nat) {
    match e.name
    case NoName => true
    case Named(text) =>
      Text(text) && |text| <= MAX_NAME && e.inode != END_DIR_INODE
      && (IsDirMode(e.mode) <==> e.target.Dir?)
      && match e.target
         case Dir(d) => d < dirs
         case Bytes(b) => e.size == |b|
         case NoTarget => false
  }

  /** A name list ends at a nameless entry, and the table at the end marker. */
  ghost predicate DirOk(es: seq<Entry>, dirs: nat) {
    |es| > 0 && (forall i :: 0 <= i < |es| ==> EntryOk(es[i], dirs))
    && (exists i :: 0 <= i < |es| && es[i].inode == END_DIR_INODE)
  }

  ghost predicate DiskOk(fs: Disk) {
    |fs| > 0 && (forall d :: 0 <= d < |fs| ==> DirOk(fs[d], |fs|))
    && (fs[0][0].name.Named? && fs[0][0].target == Dir(0))
  }

  const MODE_DIR := 0x41ff
  const MODE_FILE := 0x81b6
  const MODE_EXEC := 0x81ff
  const END_ENTRY := Entry(END_DIR_INODE, 0, 0, NoName, NoTarget)
  const BLANK_ENTRY := Entry(0, 0, 0, NoName, NoTarget)

  function DirEntry(inode: int, size: int, name: string, d: nat): Entry {
    Entry(inode, MODE_DIR, size, Named(name), Dir(d))
  }

  function FileEntry(inode: int, mode: nat, name: string, bytes: string): Entry {
    Entry(inode, mode, |bytes|, Named(name), Bytes(bytes))
  }

  function RootDir(help: string, note: string): seq<Entry> {
    [DirEntry(1, 220, ".", 0), DirEntry(2, 120, "bin", 1), DirEntry(3, 160, "www", 2),
     FileEntry(4, MODE_FILE, "help.txt", help), FileEntry(5, MODE_FILE, "note.txt", note),
     DirEntry(6, 120, "1 (bin dir)", 1), DirEntry(7, 160, "2 (www dir)", 2),
     FileEntry(8, MODE_FILE, "3 (help.txt)", help), FileEntry(9, MODE_FILE, "4 (note.txt)", note),
     BLANK_ENTRY, END_ENTRY]
  }

  function BinDir(take5: string, say: string, fault: string): seq<Entry> {
    [DirEntry(16, 120, ".", 1), DirEntry(17, 220, "..", 0), FileEntry(18, MODE_EXEC, "take5", take5),
     FileEntry(19, MODE_EXEC, "say_hello", say), FileEntry(20, MODE_EXEC, "test", fault), END_ENTRY]
  }

  function WwwDir(hello: string, index: string): seq<Entry> {
    [DirEntry(10, 160, ".", 2), DirEntry(11, 220, "..", 0), FileEntry(12, MODE_FILE, "hello.html", hello),
     FileEntry(13, MODE_FILE, "index.html", index), FileEntry(14, MODE_FILE, "1 (hello.html)", hello),
     FileEntry(15, MODE_FILE, "2 (index.html)", index), BLANK_ENTRY, END_ENTRY]
  }

  /** Directories 0, 1 and 2 as FileService() leaves them, over any file contents. */
  function Preloaded(help: string, note: string, hello: string, index: string,
                     take5: string, say: string, fault: string): Disk {
    [RootDir(help, note), BinDir(take5, say, fault), WwwDir(hello, index)]
  }

  lemma DirEntryOk(inode: int, size: int, name: string, d: nat)
    requires Text(name) && |name| <= MAX_NAME && inode != END_DIR_INODE && d < 3
    ensures EntryOk(DirEntry(inode, size, name, d), 3)
  {
  }

  lemma FileEntryOk(inode: int, mode: nat, name: string, bytes: string)
    requires Text(name) && |name| <= MAX_NAME && inode != END_DIR_INODE && (mode == MODE_FILE || mode == MODE_EXEC)
    ensures EntryOk(FileEntry(inode, mode, name, bytes), 3)
  {
  }

  lemma RootDirOk(help: string, note: string)
    ensures DirOk(RootDir(help, note), 3)
  {
    hide EntryOk;
    DirEntryOk(1, 220, ".", 0);
    DirEntryOk(2, 120, "bin", 1);
    DirEntryOk(3, 160, "www", 2);
    FileEntryOk(4, MODE_FILE, "help.txt", help);
    FileEntryOk(5, MODE_FILE, "note.txt", note);
    DirEntryOk(6, 120, "1 (bin dir)", 1);
    DirEntryOk(7, 160, "2 (www dir)", 2);
    FileEntryOk(8, MODE_FILE, "3 (help.txt)", help);
    FileEntryOk(9, MODE_FILE, "4 (note.txt)", note);
    BlanksOk();
    assert RootDir(help, note)[10] == END_ENTRY;
  }

  lemma BinDirOk(take5: string, say: string, fault: string)
    ensures DirOk(BinDir(take5, say, fault), 3)
  {
    hide EntryOk;
    DirEntryOk(16, 120, ".", 1);
    DirEntryOk(17, 220, "..", 0);
    FileEntryOk(18, MODE_EXEC, "take5", take5);
    FileEntryOk(19, MODE_EXEC, "say_hello", say);
    FileEntryOk(20, MODE_EXEC, "test", fault);
    BlanksOk();
    assert BinDir(take5, say, fault)[5] == END_ENTRY;
  }

  lemma WwwDirOk(hello: string, index: string)
    ensures DirOk(WwwDir(hello, index), 3)
  {
    hide EntryOk;
    DirEntryOk(10, 160, ".", 2);
    DirEntryOk(11, 220, "..", 0);
    FileEntryOk(12, MODE_FILE, "hello.html", hello);
    FileEntryOk(13, MODE_FILE, "index.html", index);
    FileEntryOk(14, MODE_FILE, "1 (hello.html)", hello);
    FileEntryOk(15, MODE_FILE, "2 (index.html)", index);
    BlanksOk();
    assert WwwDir(hello, index)[7] == END_ENTRY;
  }

  lemma BlanksOk()
    ensures EntryOk(BLANK_ENTRY, 3) && EntryOk(END_ENTRY, 3)
  {
  }

  /** The tables the kernel ships with meet every condition assumed of a disk. */
  lemma PreloadedOk(help: string, note: string, hello: string, index: string,
                    take5: string, say: string, fault: string)
    ensures DiskOk(Preloaded(help, note, hello, index, take5, say, fault))
  {
    hide DirOk;
    RootDirOk(help, note);
    BinDirOk(take5, say, fault);
    WwwDirOk(hello, index);
  }

  // What resolution means

  /** Characters before the first slash. */
  function Cut(s: string): (n: nat)
    ensures n <= |s| && SLASH !in s[..n]
    ensures n < |s| ==> s[n] == SLASH
  {
    if s == "" || s[0] == SLASH then 0
    else
      assert s[..1 + Cut(s[1..])] == [s[0]] + s[1..][..Cut(s[1..])];
      1 + Cut(s[1..])
  }

  /** The non-empty pieces between slashes. */
  function Components(s: string): (cs: seq<string>)
    ensures forall i :: 0 <= i < |cs| ==> cs[i] != "" && SLASH !in cs[i]
    decreases |s|
  {
    if s == "" then []
    else if s[0] == SLASH then Components(s[1..])
    else [s[..Cut(s)]] + Components(s[Cut(s)..])
  }

  /** The first entry that has c as a prefix, before the name list ends. */
  function Lookup(es: seq<Entry>, c: string): (i: nat)
    ensures i <= |es|
    ensures i < |es| && es[i].name.Named? ==> Prefix(c, es[i].name.text)
    ensures forall k :: 0 <= k < i ==> es[k].name.Named? && !Prefix(c, es[k].name.text)
  {
    if es == [] || es[0].name.NoName? || Prefix(c, es[0].name.text) then 0
    else 1 + Lookup(es[1..], c)
  }

  /** One directory after another, each the target of the component before. */
  function Descend(fs: Disk, d: nat, cs: seq<string>): Result
    requires cs != []
    decreases |cs|
  {
    if d >= |fs| then Wild
    else
      var i := Lookup(fs[d], cs[0]);
      if i == |fs[d]| then Wild
      else if fs[d][i].name.NoName? then NotFound
      else if |cs| == 1 then Found(d, i)
      else if fs[d][i].target.Dir? then Descend(fs, fs[d][i].target.dir, cs[1..])
      else Wild
  }

  /** The empty name denotes nothing, one of slashes only denotes the root. */
  function Resolve(fs: Disk, s: string): Result {
    if Components(s) != [] then Descend(fs, 0, Components(s))
    else if s == "" then NotFound
    else Found(0, 0)
  }

  // Facts about components

  lemma {:induction false} ComponentsAppend(a: string, b: string)
    ensures Components(a + "/" + b) == Components(a) + Components(b)
    decreases |a|
  {
    var s := a + "/" + b;
    if a == "" {
      assert s[1..] == b && s[0] == SLASH;
    } else if a[0] == SLASH {
      assert s[1..] == a[1..] + "/" + b;
      ComponentsAppend(a[1..], b);
    } else {
      CutAppend(a, b);
      var n := Cut(a);
      assert s[..n] == a[..n];
      assert s[n..] == a[n..] + "/" + b;
      if n == |a| {
        assert a[n..] == "";
        assert s[n..][1..] == b && s[n..][0] == SLASH;
      } else {
        ComponentsAppend(a[n..], b);
      }
    }
  }

  lemma {:induction false} CutAppend(a: string, b: string)
    ensures Cut(a + "/" + b) == Cut(a)
  {
    var s := a + "/" + b;
    if a == "" {
      assert s[0] == SLASH;
    } else {
      assert s[0] == a[0] && s[1..] == a[1..] + "/" + b;
      CutAppend(a[1..], b);
    }
  }

  /** Repeating a slash, or ending with one, never changes what a name denotes. */
  lemma SlashesDoNotMatter(fs: Disk, a: string, b: string)
    requires Components(a) != [] || Components(b) != []
    ensures Resolve(fs, a + "//" + b) == Resolve(fs, a + "/" + b)
    ensures Components(b) == [] ==> Resolve(fs, a + "/" + b) == Resolve(fs, a)
    ensures Components(a) == [] ==> Resolve(fs, a + "/" + b) == Resolve(fs, b)
  {
    hide Components, Resolve;
    Rebracketed(a, b);
    ComponentsAppend(a, "");
    ComponentsAppend(a + "/", b);
    ComponentsAppend(a, b);
    NoComponents();
    SameComponents(fs, a + "//" + b, a + "/" + b);
    if Components(b) == [] {
      SameComponents(fs, a + "/" + b, a);
    }
    if Components(a) == [] {
      SameComponents(fs, a + "/" + b, b);
    }
  }

  /** Names with the same components, and at least one, denote the same. */
  lemma SameComponents(fs: Disk, a: string, b: string)
    requires Components(a) == Components(b) != []
    ensures Resolve(fs, a) == Resolve(fs, b)
  {
  }

  lemma Rebracketed(a: string, b: string)
    ensures a + "//" + b == (a + "/") + "/" + b && a + "/" == a + "/" + ""
  {
  }

  lemma NoComponents()
    ensures Components("") == []
  {
  }

  function Join(cs: seq<string>): string {
    if cs == [] then "" else cs[0] + "/" + Join(cs[1..])
  }

  /** Every list of non-empty slash-free pieces is the components of some name. */
  lemma {:induction false} ComponentsOfJoin(cs: seq<string>)
    requires forall i :: 0 <= i < |cs| ==> cs[i] != "" && SLASH !in cs[i]
    ensures Components(Join(cs)) == cs
  {
    if cs != [] {
      ComponentsAppend(cs[0], Join(cs[1..]));
      CutAll(cs[0]);
      assert cs[0][..Cut(cs[0])] == cs[0] && cs[0][Cut(cs[0])..] == "";
      assert Components(cs[0]) == [cs[0]];
      ComponentsOfJoin(cs[1..]);
    }
  }

  lemma CutAll(s: string)
    requires SLASH !in s
    ensures Cut(s) == |s|
  {
    assert Cut(s) < |s| ==> SLASH in s;
  }

  /** A component "." that is not the last is skipped, in a directory that begins with an
      entry "." for itself. */
  lemma DotIsHere(fs: Disk, d: nat, cs: seq<string>)
    requires d < |fs| && |fs[d]| > 0 && cs != []
    requires fs[d][0].name == Named(".") && fs[d][0].target == Dir(d)
    ensures Descend(fs, d, ["."] + cs) == Descend(fs, d, cs)
  {
    assert Prefix(".", ".");
    assert (["."] + cs)[1..] == cs;
  }

  // What a name denotes, said of its characters

  predicate AllSlash(s: string) {
    forall i :: 0 <= i < |s| ==> s[i] == SLASH
  }

  /** After slashes only, the piece c stands at s[i..j] and ends at a slash or the end of s. */
  predicate FirstPiece(s: string, i: int, j: int, c: string) {
    0 <= i < j <= |s| && AllSlash(s[..i]) && s[i..j] == c && SLASH !in c && (j < |s| ==> s[j] == SLASH)
  }

  /** s is the pieces cs, each after any number of slashes, and slashes. */
  ghost predicate Spells(s: string, cs: seq<string>)
    decreases |cs|
  {
    if cs == [] then AllSlash(s)
    else exists i, j :: FirstPiece(s, i, j, cs[0]) && Spells(s[j..], cs[1..])
  }

  /** Entry i is the first that begins with c, and every entry before it is named. */
  predicate Picks(es: seq<Entry>, c: string, i: nat) {
    i < |es| && es[i].name.Named? && Prefix(c, es[i].name.text)
    && forall k :: 0 <= k < i ==> es[k].name.Named? && !Prefix(c, es[k].name.text)
  }

  datatype Spot = Spot(dir: nat, pos: nat)

  predicate PicksAt(fs: Disk, c: string, x: Spot) {
    x.dir < |fs| && Picks(fs[x.dir], c, x.pos)
  }

  /** The entry picked at x is the directory d. */
  predicate Enters(fs: Disk, x: Spot, d: nat) {
    x.dir < |fs| && x.pos < |fs[x.dir]| && fs[x.dir][x.pos].target == Dir(d)
  }

  /** xs are the entries that the pieces pick, from directory d on, each in the directory the
      one before it is. */
  predicate Trail(fs: Disk, d: nat, cs: seq<string>, xs: seq<Spot>) {
    |xs| == |cs| > 0 && xs[0].dir == d
    && (forall k :: 0 <= k < |xs| ==> PicksAt(fs, cs[k], xs[k]))
    && (forall k :: 0 < k < |xs| ==> Enters(fs, xs[k - 1], xs[k].dir))
  }

  /** s denotes the entry at position p of directory d. */
  ghost predicate Denotes(fs: Disk, s: string, d: nat, p: nat) {
    (s != "" && AllSlash(s) && d == 0 && p == 0)
    || exists cs, xs :: Spells(s, cs) && Trail(fs, 0, cs, xs) && xs[|xs| - 1] == Spot(d, p)
  }

  lemma {:induction false} SlashesHaveNone(s: string)
    ensures AllSlash(s) <==> Components(s) == []
  {
    if s != "" {
      if s[0] == SLASH {
        SlashesHaveNone(s[1..]);
        assert s == [s[0]] + s[1..];
      }
    }
  }

  lemma {:induction false} SkipSlashes(s: string, i: nat)
    requires i <= |s| && AllSlash(s[..i])
    ensures Components(s) == Components(s[i..])
    decreases i
  {
    if i == 0 {
      assert s[0..] == s;
    } else {
      assert s[..i][0] == SLASH && s[..i][1..] == s[1..][..i - 1];
      SkipSlashes(s[1..], i - 1);
      assert s[1..][i - 1..] == s[i..];
    }
  }

  lemma {:induction false} CutIs(s: string, n: nat)
    requires n <= |s| && SLASH !in s[..n] && (n < |s| ==> s[n] == SLASH)
    ensures Cut(s) == n
  {
    if n > 0 {
      assert s[..n] == [s[0]] + s[1..][..n - 1];
      CutIs(s[1..], n - 1);
    }
  }

  lemma PieceIsFirst(s: string, i: nat, j: nat, c: string)
    requires FirstPiece(s, i, j, c)
    ensures Components(s) == [c] + Components(s[j..])
  {
    SkipSlashes(s, i);
    var r := s[i..];
    assert r[..j - i] == c && r[j - i..] == s[j..];
    assert r[0] == c[0] && c[0] in c;
    CutIs(r, j - i);
  }

  lemma {:induction false} FirstIsPiece(s: string) returns (i: nat, j: nat)
    requires Components(s) != []
    ensures FirstPiece(s, i, j, Components(s)[0])
  {
    if s[0] == SLASH {
      i, j := FirstIsPiece(s[1..]);
      i, j := i + 1, j + 1;
      assert s[..i] == [s[0]] + s[1..][..i - 1] && s[i..j] == s[1..][i - 1..j - 1];
    } else {
      i, j := 0, Cut(s);
      assert s[0..j] == s[..j];
    }
  }

  /** The components of a name are the one list of pieces that spells it. */
  lemma {:induction false} SpellsExactly(s: string, cs: seq<string>)
    ensures Spells(s, cs) <==> Components(s) == cs
    decreases |cs|
  {
    if cs == [] {
      SlashesHaveNone(s);
    } else {
      if i, j :| FirstPiece(s, i, j, cs[0]) && Spells(s[j..], cs[1..]) {
        PieceIsFirst(s, i, j, cs[0]);
        SpellsExactly(s[j..], cs[1..]);
        assert cs == [cs[0]] + cs[1..];
      }
      if Components(s) == cs {
        var i, j := FirstIsPiece(s);
        PieceIsFirst(s, i, j, cs[0]);
        assert cs == [cs[0]] + Components(s[j..]);
        SpellsExactly(s[j..], cs[1..]);
      }
    }
  }

  lemma PicksIsLookup(es: seq<Entry>, c: string, i: nat)
    ensures Picks(es, c, i) <==> i < |es| && es[i].name.Named? && Lookup(es, c) == i
  {
    var l := Lookup(es, c);
    if Picks(es, c, i) {
      assert l <= i;
    }
  }

  lemma {:induction false} TrailIsDescent(fs: Disk, d: nat, cs: seq<string>, xs: seq<Spot>)
    requires Trail(fs, d, cs, xs)
    ensures Descend(fs, d, cs) == Found(xs[|xs| - 1].dir, xs[|xs| - 1].pos)
    decreases |cs|
  {
    assert PicksAt(fs, cs[0], xs[0]);
    PicksIsLookup(fs[d], cs[0], xs[0].pos);
    if |cs| > 1 {
      assert Enters(fs, xs[0], xs[1].dir);
      forall k | 0 < k < |xs[1..]| ensures Enters(fs, xs[1..][k - 1], xs[1..][k].dir) {
        assert xs[1..][k - 1] == xs[k] && xs[1..][k] == xs[k + 1];
        assert Enters(fs, xs[k + 1 - 1], xs[k + 1].dir);
      }
      TrailIsDescent(fs, xs[1].dir, cs[1..], xs[1..]);
    }
  }

  lemma {:induction false} DescentHasTrail(fs: Disk, d: nat, cs: seq<string>) returns (xs: seq<Spot>)
    requires cs != [] && Descend(fs, d, cs).Found?
    ensures Trail(fs, d, cs, xs)
    ensures Descend(fs, d, cs) == Found(xs[|xs| - 1].dir, xs[|xs| - 1].pos)
    decreases |cs|
  {
    var i := Lookup(fs[d], cs[0]);
    PicksIsLookup(fs[d], cs[0], i);
    assert PicksAt(fs, cs[0], Spot(d, i));
    if |cs| == 1 {
      xs := [Spot(d, i)];
    } else {
      var rest := DescentHasTrail(fs, fs[d][i].target.dir, cs[1..]);
      xs := [Spot(d, i)] + rest;
      assert Enters(fs, xs[0], xs[1].dir);
      forall k | 0 < k < |xs| ensures Enters(fs, xs[k - 1], xs[k].dir) {
        if k > 1 {
          assert Enters(fs, rest[k - 1 - 1], rest[k - 1].dir);
        }
      }
      forall k | 0 <= k < |xs| ensures PicksAt(fs, cs[k], xs[k]) {
        if k > 0 {
          assert PicksAt(fs, cs[1..][k - 1], rest[k - 1]);
        }
      }
    }
  }

  /** Resolution finds exactly what a name denotes. */
  lemma ResolveExactly(fs: Disk, s: string, d: nat, p: nat)
    ensures Resolve(fs, s) == Found(d, p) <==> Denotes(fs, s, d, p)
  {
    var cs := Components(s);
    SlashesHaveNone(s);
    SpellsExactly(s, cs);
    if Resolve(fs, s) == Found(d, p) && cs != [] {
      var xs := DescentHasTrail(fs, 0, cs);
      assert Spells(s, cs) && Trail(fs, 0, cs, xs) && xs[|xs| - 1] == Spot(d, p);
    }
    if cs', xs :| Spells(s, cs') && Trail(fs, 0, cs', xs) && xs[|xs| - 1] == Spot(d, p) {
      SpellsExactly(s, cs');
      TrailIsDescent(fs, 0, cs', xs);
    }
  }

  /** A name of slashes is the root's own entry; the empty name is nothing. */
  lemma RootNames(fs: Disk, s: string)
    requires DiskOk(fs) && AllSlash(s)
    ensures s != "" ==> Resolve(fs, s) == Found(0, 0) && fs[0][0].target == Dir(0)
    ensures s == "" ==> Resolve(fs, s) == NotFound
  {
    SlashesHaveNone(s);
    assert DirOk(fs[0], |fs|);
  }

  // When resolution leaves the directories

  lemma LookupEnds(fs: Disk, d: nat, c: string)
    requires DiskOk(fs) && d < |fs|
    ensures Lookup(fs[d], c) < |fs[d]|
  {
    assert DirOk(fs[d], |fs|);
    var i :| 0 <= i < |fs[d]| && fs[d][i].inode == END_DIR_INODE;
    assert EntryOk(fs[d][i], |fs|);
  }

  /** Some component before the last names a regular file. */
  ghost predicate ThroughFile(fs: Disk, d: nat, cs: seq<string>) {
    exists k :: 0 < k < |cs| && NamesFile(fs, Descend(fs, d, cs[..k]))
  }

  predicate NamesFile(fs: Disk, r: Result) {
    r.Found? && r.dir < |fs| && r.pos < |fs[r.dir]| && !fs[r.dir][r.pos].target.Dir?
  }

  lemma LaterFile(fs: Disk, d: nat, cs: seq<string>, i: nat)
    requires d < |fs| && |cs| > 1 && i == Lookup(fs[d], cs[0]) < |fs[d]|
    requires fs[d][i].name.Named? && fs[d][i].target.Dir?
    ensures ThroughFile(fs, d, cs) <==> ThroughFile(fs, fs[d][i].target.dir, cs[1..])
  {
    var d' := fs[d][i].target.dir;
    forall k | 1 <= k < |cs| - 1 ensures Descend(fs, d, cs[..k + 1]) == Descend(fs, d', cs[1..][..k]) {
      assert cs[..k + 1][1..] == cs[1..][..k];
    }
    if ThroughFile(fs, d, cs) {
      var k :| 0 < k < |cs| && NamesFile(fs, Descend(fs, d, cs[..k]));
      FirstFound(fs, d, cs, i);
      assert k > 1;
      assert NamesFile(fs, Descend(fs, d', cs[1..][..k - 1]));
    }
    if ThroughFile(fs, d', cs[1..]) {
      var k :| 0 < k < |cs[1..]| && NamesFile(fs, Descend(fs, d', cs[1..][..k]));
      assert NamesFile(fs, Descend(fs, d, cs[..k + 1]));
    }
  }

  /** Resolution stays within the directory tables exactly when no component but the last names
      a regular file. */
  lemma {:induction false} WildExactly(fs: Disk, d: nat, cs: seq<string>)
    requires DiskOk(fs) && d < |fs| && cs != []
    ensures Descend(fs, d, cs) == Wild <==> ThroughFile(fs, d, cs)
    ensures Descend(fs, d, cs).Found? ==>
      Descend(fs, d, cs).dir < |fs| && Descend(fs, d, cs).pos < |fs[Descend(fs, d, cs).dir]|
      && fs[Descend(fs, d, cs).dir][Descend(fs, d, cs).pos].name.Named?
    decreases |cs|
  {
    var i := Lookup(fs[d], cs[0]);
    LookupEnds(fs, d, cs[0]);
    assert DirOk(fs[d], |fs|) && EntryOk(fs[d][i], |fs|);
    if fs[d][i].name.NoName? {
      forall k | 0 < k < |cs| ensures Descend(fs, d, cs[..k]) == NotFound {
        assert cs[..k][0] == cs[0];
      }
    } else if |cs| > 1 {
      if fs[d][i].target.Dir? {
        LaterFile(fs, d, cs, i);
        WildExactly(fs, fs[d][i].target.dir, cs[1..]);
      } else {
        FirstFound(fs, d, cs, i);
      }
    }
  }

  lemma FirstFound(fs: Disk, d: nat, cs: seq<string>, i: nat)
    requires d < |fs| && |cs| > 1 && i == Lookup(fs[d], cs[0]) < |fs[d]| && fs[d][i].name.Named?
    ensures Descend(fs, d, cs[..1]) == Found(d, i)
    ensures !fs[d][i].target.Dir? ==> ThroughFile(fs, d, cs)
  {
    assert Descend(fs, d, cs[..1]) == Found(d, i);
  }

  // The code

  method MyStrlen(s: string, at: nat) returns (n: nat)
    requires Text(s) && at <= |s|
    ensures n == |s| - at
  {
    n := 0;
    while CharAt(s, at + n) != NUL
      invariant at + n <= |s|
      decreases |s| - n
    {
      n := n + 1;
    }
  }

  /** strchr(s + at, '/'): the index of the slash, or |s| for a null result. */
  method StrchrSlash(s: string, at: nat) returns (p: nat)
    requires Text(s) && at <= |s|
    ensures p == at + Cut(s[at..])
  {
    p := at;
    while CharAt(s, p) != NUL && s[p] != SLASH
      invariant at <= p <= |s|
      invariant at + Cut(s[at..]) == p + Cut(s[p..])
      decreases |s| - p
    {
      assert s[p..][1..] == s[p + 1..];
      p := p + 1;
    }
  }

  /** Whether the size characters of p from `at` begin q. It never reads past q's NUL. */
  method MyStrcmp(p: string, at: nat, q: string, size: nat) returns (same: int)
    requires Text(p) && Text(q) && at + size <= |p|
    ensures same == 0 || same == 1
    ensures same == 1 <==> Prefix(p[at..at + size], q)
  {
    same := 1;
    var i := 0;
    while i < size
      invariant 0 <= i <= size && i <= |q|
      invariant same == 1 && p[at..at + i] == q[..i]
    {
      if CharAt(p, at + i) != CharAt(q, i) {
        same := 0;
        assert p[at..at + size][i] == p[at + i];
        break;
      }
      i := i + 1;
    }
  }

  lemma FirstComponent(s: string, at: nat, p: nat)
    requires at < |s| && s[at] != SLASH && p == at + Cut(s[at..])
    ensures Components(s[at..]) == [s[at..p]] + Components(s[p..]) && p <= |s|
    ensures p == |s| || (s[p] == SLASH && p == |s| - 1) ==> Components(s[p..]) == []
  {
    assert s[at..][..p - at] == s[at..p] && s[at..][p - at..] == s[p..];
    if p == |s| - 1 {
      assert s[p..][1..] == "";
    }
  }

  lemma SkipSlash(s: string, p: nat)
    requires p < |s| && s[p] == SLASH
    ensures Components(s[p..]) == Components(s[p + 1..])
    ensures p + 1 == |s| ==> Components(s[p..]) == []
  {
    assert s[p..][1..] == s[p + 1..];
  }

  lemma Descends(fs: Disk, d: nat, c: string, cs: seq<string>)
    requires d < |fs| && Lookup(fs[d], c) < |fs[d]|
    ensures var e := fs[d][Lookup(fs[d], c)];
      Descend(fs, d, [c] + cs) ==
      if e.name.NoName? then NotFound
      else if cs == [] then Found(d, Lookup(fs[d], c))
      else if e.target.Dir? then Descend(fs, e.target.dir, cs)
      else Wild
  {
    assert ([c] + cs)[1..] == cs;
  }

  /** FindNameSub resolves the name from position `at` in directory d. Each call is on a shorter
      name that begins with a component, so the cycles of the graph do no harm. */
  method FindNameSub(fs: Disk, s: string, at: nat, d: nat) returns (r: Result)
    requires DiskOk(fs) && Text(s) && d < |fs| && at < |s| && s[at] != SLASH
    ensures Components(s[at..]) != [] && r == Descend(fs, d, Components(s[at..]))
    decreases |s| - at
  {
    hide Descend, Components, Lookup, Prefix, Cut;
    var len := MyStrlen(s, at);
    var p := StrchrSlash(s, at);
    if p < |s| {
      len := p - at;
    }
    ghost var c, rest := s[at..p], Components(s[p..]);
    FirstComponent(s, at, p);
    LookupEnds(fs, d, c);
    Descends(fs, d, c, rest);
    assert DirOk(fs[d], |fs|);
    var i := 0;
    while fs[d][i].name.Named?
      invariant 0 <= i <= Lookup(fs[d], c)
      decreases |fs[d]| - i
    {
      assert EntryOk(fs[d][i], |fs|);
      var same := MyStrcmp(s, at, fs[d][i].name.text, len);
      if same == 1 {
        if p < |s| && CharAt(s, p + 1) != NUL {
          while CharAt(s, p) == SLASH
            invariant at < p < |s| && Components(s[p..]) == rest
            decreases |s| - p
          {
            SkipSlash(s, p);
            p := p + 1;
            if p == |s| {
              return Found(d, i);
            }
          }
          ComponentsStart(s, p);
          if !fs[d][i].target.Dir? {
            return Wild;
          }
          r := FindNameSub(fs, s, p, fs[d][i].target.dir);
          return;
        }
        return Found(d, i);
      }
      i := i + 1;
    }
    return NotFound;
  }

  lemma ComponentsStart(s: string, p: nat)
    requires p < |s| && s[p] != SLASH
    ensures Components(s[p..]) != []
  {
  }

  method FindName(fs: Disk, s: string) returns (r: Result)
    requires DiskOk(fs) && Text(s)
    ensures r == Resolve(fs, s)
    ensures s != "" && (forall i :: 0 <= i < |s| ==> s[i] == SLASH) ==> r == Found(0, 0) && fs[0][0].target == Dir(0)
    ensures s == "" ==> r == NotFound
    ensures r.Found? ==> Denotes(fs, s, r.dir, r.pos)
    ensures forall d, p :: Denotes(fs, s, d, p) ==> r == Found(d, p)
  {
    forall d, p ensures Resolve(fs, s) == Found(d, p) <==> Denotes(fs, s, d, p) {
      ResolveExactly(fs, s, d, p);
    }
    if AllSlash(s) {
      RootNames(fs, s);
    }
    hide Denotes;
    var at := 0;
    if CharAt(s, at) == SLASH {
      while CharAt(s, at) == SLASH
        invariant 0 <= at <= |s|
        invariant Components(s) == Components(s[at..])
        decreases |s| - at
      {
        assert s[at..][1..] == s[at + 1..];
        at := at + 1;
      }
      if CharAt(s, at) == NUL {
        return Found(0, 0);
      }
    }
    if CharAt(s, at) == NUL {
      return NotFound;
    }
    assert s[0..] == s;
    r := FindNameSub(fs, s, at, 0);
  }
}
