/** The file service on the directories the kernel ships with: names that are found, and its two
    failures, misses that use up the descriptor table and a name through a regular file. */
module ShippedFiles {
  import opened Params
  import opened Paths
  import opened Descriptors

  /** File contents that play no part. */
  function Shipped(): Disk {
    Preloaded("", "", "", "", "", "", "")
  }

  lemma ShippedOk()
    ensures DiskOk(Shipped())
  {
    PreloadedOk("", "", "", "", "", "", "");
  }

  /** No name in the root directory begins with an x. */
  lemma UnknownName()
    ensures Resolve(Shipped(), "x") == NotFound && Text("x")
  {
    var es := RootDir("", "");
    OnePiece("x");
    assert es[9].name.NoName?;
    forall i | 0 <= i < |es| && es[i].name.Named? ensures !Prefix("x", es[i].name.text) {
      assert es[i].name.text[0] != 'x';
    }
  }

  lemma OnePiece(s: string)
    requires s != "" && SLASH !in s
    ensures Components(s) == [s]
  {
    CutAll(s);
    assert s[..|s|] == s && s[|s|..] == "";
  }

  lemma HelpPieces()
    ensures Components("help.txt/x") == ["help.txt", "x"]
  {
    hide Components, Cut;
    var name := "help.txt/x";
    assert name == "help.txt" + "/" + "x";
    ComponentsAppend("help.txt", "x");
    OnePiece("help.txt");
    OnePiece("x");
  }

  /** help.txt is a regular file, and anything below it leads out of the directory tables. */
  lemma ThroughHelp()
    ensures Resolve(Shipped(), "help.txt/x") == Wild
  {
    hide Components, Lookup;
    HelpPieces();
    HelpIsFourth("", "");
    var cs := ["help.txt", "x"];
    assert Descend(Shipped(), 0, cs) == Wild;
  }

  lemma HelpIsFourth(help: string, note: string)
    ensures Lookup(RootDir(help, note), "help.txt") == 3
  {
    var es := RootDir(help, note);
    assert es[3].name.text == "help.txt" && Prefix("help.txt", "help.txt");
    assert es[0].name.text[0] != 'h' && es[1].name.text[0] != 'h' && es[2].name.text[0] != 'h';
  }

  /** A check of "help.txt" answers with that file, whatever the files hold: its inode, size and bytes. */
  lemma HelpChecked(help: string, note: string, hello: string, index: string,
                    take5: string, say: string, fault: string, t: Fds, o: int)
    requires DiskOk(Preloaded(help, note, hello, index, take5, say, fault)) && 0 <= o
    requires TableOk(Preloaded(help, note, hello, index, take5, say, fault), t)
    ensures var fs, c := Preloaded(help, note, hello, index, take5, say, fault), Call(o, Check("help.txt"));
      Tame(fs, t, c)
      && Serve(fs, t, c) == (t, Reply(GOOD, Attr(Entry(4, MODE_FILE, |help|, Named("help.txt"), Bytes(help)))))
  {
    hide DiskOk, TableOk, Resolve, Preloaded, Text, OpenObj, ReadObj, CloseObj;
    HelpFound(help, note, hello, index, take5, say, fault);
  }

  lemma HelpFound(help: string, note: string, hello: string, index: string,
                  take5: string, say: string, fault: string)
    ensures var fs := Preloaded(help, note, hello, index, take5, say, fault);
      Resolve(fs, "help.txt") == Found(0, 3) && |fs| == 3 && |fs[0]| == 11 && Text("help.txt")
      && fs[0][3] == Entry(4, MODE_FILE, |help|, Named("help.txt"), Bytes(help))
  {
    hide Lookup, Prefix, Components;
    OnePiece("help.txt");
    HelpIsFourth(help, note);
  }

  /** "/" and any longer run of slashes is the root directory; so a plain "dir" lists it. */
  lemma RootFound()
    ensures Resolve(Shipped(), "/") == Resolve(Shipped(), "///") == Found(0, 0)
    ensures Shipped()[0][0].target == Dir(0) && Resolve(Shipped(), "") == NotFound
  {
    ShippedOk();
    hide Resolve, DiskOk;
    RootNames(Shipped(), "/");
    RootNames(Shipped(), "///");
    RootNames(Shipped(), "");
  }

  const FIRST_MISS := Call(3, Open("x"))  // from the shell

  function Misses(n: nat): seq<Call> {
    seq(n, _ => FIRST_MISS)
  }

  lemma MissStep(fs: Disk, t: Fds)
    requires DiskOk(fs) && TableOk(fs, t) && Unused(t) > 0 && Text("x") && Resolve(fs, "x") == NotFound
    ensures Tame(fs, t, FIRST_MISS) && Serve(fs, t, FIRST_MISS).1 == Reply(UNFOUND, Nothing)
    ensures TableOk(fs, Serve(fs, t, FIRST_MISS).0)
    ensures Unused(Serve(fs, t, FIRST_MISS).0) == Unused(t) - 1
  {
    hide Resolve, DiskOk;
    var i := FirstUnused(t, 0);
    NoneUnused(t);
    UnusedUpdate(t, i, Fd(3, 0, NoItem));
  }

  /** n opens of the unknown name, with n descriptors free, are n misses. */
  lemma {:induction false} AllMiss(fs: Disk, t: Fds, n: nat)
    requires DiskOk(fs) && TableOk(fs, t) && Unused(t) >= n && Text("x") && Resolve(fs, "x") == NotFound
    ensures TameRun(fs, t, Misses(n))
    ensures Answers(fs, t, Misses(n), true, UNFOUND) == n && Answers(fs, t, Misses(n), false, GOOD) == 0
    decreases n
  {
    hide Serve, Tame, DiskOk, TableOk, Resolve, Unused;
    if n > 0 {
      assert Misses(n)[0] == FIRST_MISS && Misses(n)[1..] == Misses(n - 1);
      MissStep(fs, t);
      AllMiss(fs, Serve(fs, t, FIRST_MISS).0, n - 1);
    }
  }

  function AllFree(n: nat): Fds {
    seq(n, _ => Fd(UNUSED, 0, NoItem))
  }

  lemma {:induction false} AllFreeCount(n: nat)
    ensures Unused(AllFree(n)) == n
  {
    if n > 0 {
      assert AllFree(n)[1..] == AllFree(n - 1);
      AllFreeCount(n - 1);
    }
  }

  /** The shell mistypes a name twenty times; from then on even "bin" cannot be opened. */
  lemma TwentyMisses()
    ensures DiskOk(Shipped()) && TableOk(Shipped(), AllFree(MAX_FD))
    ensures TameRun(Shipped(), AllFree(MAX_FD), Misses(MAX_FD))
    ensures Resolve(Shipped(), "bin").Found?
    ensures var t := Run(Shipped(), AllFree(MAX_FD), Misses(MAX_FD));
      TableOk(Shipped(), t) && Serve(Shipped(), t, Call(3, Open("bin"))).1 == Reply(NO_FD, Nothing)
  {
    ShippedOk();
    BinFound();
    hide Shipped, DiskOk, Resolve;
    AllFreeCount(MAX_FD);
    UnknownName();
    AllMiss(Shipped(), AllFree(MAX_FD), MAX_FD);
    MissesExhaust(Shipped(), AllFree(MAX_FD), Misses(MAX_FD), Call(3, Open("bin")));
  }

  lemma BinFound()
    ensures Resolve(Shipped(), "bin") == Found(0, 1)
  {
    var es := RootDir("", "");
    OnePiece("bin");
    assert es[1].name.text == "bin" && Prefix("bin", "bin");
    assert es[0].name.text[0] != 'b';
  }
}
