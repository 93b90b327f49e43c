/** The file service's descriptor table and its requests as functions (FileService.c), and what
    holds of every sequence of requests from several clients. */
module Descriptors {
  import opened Params
  import opened Paths

  const MAX_FD := 20
  const CHUNK := 100           // bytes of a file per reply
  const GOOD := 1
  const UNUSED := -100
  const UNFOUND := -101
  const UNKNOWN := -102
  const NO_FD := -103
  const FM_EOF := -104
  const ILL_PARAM := -105

  datatype Item = NoItem | Obj(dir: nat, pos: nat)

  datatype Fd = Fd(owner: int, offset: int, item: Item)

  type Fds = seq<Fd>

  datatype Request = Check(name: string) | Open(name: string) | Read(fd: int) | Close(fd: int) | Other

  datatype Call = Call(sender: int, req: Request)

  /** What a reply carries beside its code. */
  datatype Body = Nothing | Attr(entry: Entry) | Opened(fd: int) | Chunk(bytes: string) | Listing(entry: Entry)

  datatype Reply = Reply(code: int, body: Body)

  predicate ItemOk(fs: Disk, x: Fd) {
    x.item.Obj? ==>
      x.item.dir < |fs| && x.item.pos < |fs[x.item.dir]| && fs[x.item.dir][x.item.pos].name.Named?
      && 0 <= x.offset
      && var e := fs[x.item.dir][x.item.pos];
         if IsDirMode(e.mode) then e.target.Dir? && e.target.dir < |fs| && x.offset <= End(fs[e.target.dir])
         else e.target.Bytes? && e.size == |e.target.bytes| && x.offset <= e.size
  }

  /** Every descriptor's offset is inside its object. */
  predicate TableOk(fs: Disk, t: Fds) {
    |t| == MAX_FD && forall i :: 0 <= i < MAX_FD ==> ItemOk(fs, t[i])
  }

  predicate CanAccess(t: Fds, fd: int, owner: int) {
    0 <= fd < |t| && t[fd].owner == owner
  }

  /** Calls whose effect the model knows: no name that leads through a regular file, and no read
      of a descriptor that a failed open left without an object. */
  predicate Tame(fs: Disk, t: Fds, c: Call) {
    0 <= c.sender
    && match c.req
       case Check(name) => Text(name) && Resolve(fs, name) != Wild
       case Open(name) => Text(name) && Resolve(fs, name) != Wild
       case Read(fd) => CanAccess(t, fd, c.sender) ==> t[fd].item != NoItem
       case _ => true
  }

  /** The lowest unused descriptor at or after i; |t| if none. */
  function FirstUnused(t: Fds, i: nat): (r: nat)
    requires i <= |t|
    ensures i <= r <= |t|
    ensures r < |t| ==> t[r].owner == UNUSED
    ensures forall k :: i <= k < r ==> t[k].owner != UNUSED
    decreases |t| - i
  {
    if i == |t| || t[i].owner == UNUSED then i else FirstUnused(t, i + 1)
  }

  /** Position of the end marker. */
  function End(es: seq<Entry>): (n: nat)
    ensures n <= |es|
    ensures n < |es| ==> es[n].inode == END_DIR_INODE
    ensures forall k :: 0 <= k < n ==> es[k].inode != END_DIR_INODE
  {
    if es == [] || es[0].inode == END_DIR_INODE then 0 else 1 + End(es[1..])
  }

  /** The first named entry at or after i, or the end marker. */
  function NextNamed(es: seq<Entry>, i: nat): (n: nat)
    requires i <= End(es)
    ensures i <= n <= End(es)
    ensures n < End(es) ==> es[n].name.Named?
    ensures forall k :: i <= k < n ==> es[k].name.NoName?
    decreases |es| - i
  {
    if i == End(es) || es[i].name.Named? then i else NextNamed(es, i + 1)
  }

  // The requests

  function OpenObj(fs: Disk, t: Fds, name: string, owner: int): (Fds, Reply) {
    var i := FirstUnused(t, 0);
    if i == |t| then (t, Reply(NO_FD, Nothing))
    else match Resolve(fs, name)
      case Found(d, p) => (t[i := Fd(owner, 0, Obj(d, p))], Reply(GOOD, Opened(i)))
      case _ => (t[i := Fd(owner, 0, NoItem)], Reply(UNFOUND, Nothing))
  }

  function CloseObj(t: Fds, fd: int, owner: int): (Fds, Reply) {
    if CanAccess(t, fd, owner) then (t[fd := t[fd].(owner := UNUSED)], Reply(GOOD, Nothing))
    else (t, Reply(ILL_PARAM, Nothing))
  }

  /** One read: the descriptor's new offset and the reply. */
  function ReadItem(fs: Disk, x: Fd): (int, Reply)
    requires ItemOk(fs, x) && x.item.Obj?
  {
    var e := fs[x.item.dir][x.item.pos];
    if IsDirMode(e.mode) then
      var es := fs[e.target.dir];
      var n := NextNamed(es, x.offset);
      if n == End(es) then (n, Reply(FM_EOF, Nothing)) else (n + 1, Reply(GOOD, Listing(es[n])))
    else if x.offset == e.size then (x.offset, Reply(FM_EOF, Nothing))
    else
      var n := Min(e.size - x.offset, CHUNK);
      (x.offset + n, Reply(GOOD, Chunk(e.target.bytes[x.offset..x.offset + n])))
  }

  function ReadObj(fs: Disk, t: Fds, fd: int, owner: int): (Fds, Reply)
    requires TableOk(fs, t) && (CanAccess(t, fd, owner) ==> t[fd].item != NoItem)
  {
    if !CanAccess(t, fd, owner) then (t, Reply(ILL_PARAM, Nothing))
    else
      var r := ReadItem(fs, t[fd]);
      (t[fd := t[fd].(offset := r.0)], r.1)
  }

  function CheckObj(fs: Disk, t: Fds, name: string): (Fds, Reply)
    requires DiskOk(fs)
  {
    match Resolve(fs, name)
    case Found(d, p) =>
      if d < |fs| && p < |fs[d]| then (t, Reply(GOOD, Attr(fs[d][p]))) else (t, Reply(UNFOUND, Nothing))
    case _ => (t, Reply(UNFOUND, Nothing))
  }

  function Serve(fs: Disk, t: Fds, c: Call): (Fds, Reply)
    requires DiskOk(fs) && TableOk(fs, t) && Tame(fs, t, c)
  {
    match c.req
    case Check(name) => CheckObj(fs, t, name)
    case Open(name) => OpenObj(fs, t, name, c.sender)
    case Read(fd) => ReadObj(fs, t, fd, c.sender)
    case Close(fd) => CloseObj(t, fd, c.sender)
    case Other => (t, Reply(UNKNOWN, Nothing))
  }

  // One request

  /** What a found name denotes is an object a descriptor may hold. */
  lemma FoundItem(fs: Disk, name: string, x: Fd)
    requires DiskOk(fs) && Resolve(fs, name).Found?
    requires x.offset == 0 && x.item == Obj(Resolve(fs, name).dir, Resolve(fs, name).pos)
    ensures ItemOk(fs, x)
  {
    var cs := Components(name);
    if cs != [] {
      WildExactly(fs, 0, cs);
    }
    assert DirOk(fs[x.item.dir], |fs|) && EntryOk(fs[x.item.dir][x.item.pos], |fs|);
  }

  lemma ServeKeeps(fs: Disk, t: Fds, c: Call)
    requires DiskOk(fs) && TableOk(fs, t) && Tame(fs, t, c)
    ensures TableOk(fs, Serve(fs, t, c).0)
  {
    match c.req {
      case Open(name) =>
        if Resolve(fs, name).Found? && FirstUnused(t, 0) < |t| {
          FoundItem(fs, name, Fd(c.sender, 0, Obj(Resolve(fs, name).dir, Resolve(fs, name).pos)));
        }
      case _ =>
    }
  }

  /** No request changes a descriptor in another client's hands. */
  lemma OthersUntouched(fs: Disk, t: Fds, c: Call, f: nat)
    requires DiskOk(fs) && TableOk(fs, t) && Tame(fs, t, c) && f < MAX_FD
    requires t[f].owner != UNUSED && t[f].owner != c.sender
    ensures Serve(fs, t, c).0[f] == t[f]
  {
  }

  /** Of its holder's own requests, only reading and closing it do. */
  lemma OwnUntouched(fs: Disk, t: Fds, c: Call, f: nat)
    requires DiskOk(fs) && TableOk(fs, t) && Tame(fs, t, c) && f < MAX_FD
    requires t[f].owner != UNUSED && c.req != Read(f) && c.req != Close(f)
    ensures Serve(fs, t, c).0[f] == t[f]
  {
  }

  /** An open that fails still takes a descriptor exactly when the name is unknown and one was
      free: the descriptor is then its client's, without an object. */
  lemma OpenLeaksExactly(fs: Disk, t: Fds, name: string, owner: int)
    requires DiskOk(fs) && TableOk(fs, t) && Text(name) && Resolve(fs, name) != Wild && 0 <= owner
    ensures var r := OpenObj(fs, t, name, owner);
      (r.1.code != GOOD && r.0 != t)
      <==> (Resolve(fs, name) == NotFound && exists i :: 0 <= i < |t| && t[i].owner == UNUSED)
  {
    var i := FirstUnused(t, 0);
    if i < |t| {
      assert OpenObj(fs, t, name, owner).0[i].owner == owner;
    }
  }

  // The answers

  predicate SomeUnused(t: Fds) {
    exists i :: 0 <= i < |t| && t[i].owner == UNUSED
  }

  /** Only descriptor f differs. */
  predicate OnlyAt(t: Fds, t': Fds, f: int) {
    |t'| == |t| && forall i :: 0 <= i < |t| && i != f ==> t'[i] == t[i]
  }

  /** f was the first unused and is o's now, at the beginning of the object, or of none. */
  predicate NewAt(t: Fds, t': Fds, f: int, o: int, item: Item) {
    0 <= f < |t| && t[f].owner == UNUSED && (forall i :: 0 <= i < f ==> t[i].owner != UNUSED)
    && OnlyAt(t, t', f) && t'[f] == Fd(o, 0, item)
  }

  /** An open answers NO_FD if and only if no descriptor is unused; otherwise GOOD with the number of
      a descriptor now the client's and at the beginning of what the name denotes, if it denotes
      anything, and UNFOUND if not. */
  lemma OpenAnswers(fs: Disk, t: Fds, name: string, o: int)
    requires DiskOk(fs) && TableOk(fs, t) && Tame(fs, t, Call(o, Open(name)))
    ensures var r := Serve(fs, t, Call(o, Open(name)));
      (!SomeUnused(t) ==> r == (t, Reply(NO_FD, Nothing)))
      && (SomeUnused(t) && (forall d, p :: !Denotes(fs, name, d, p)) ==>
            r.1 == Reply(UNFOUND, Nothing) && exists f :: NewAt(t, r.0, f, o, NoItem))
      && (forall d, p :: SomeUnused(t) && Denotes(fs, name, d, p) ==>
            r.1.code == GOOD && r.1.body.Opened? && NewAt(t, r.0, r.1.body.fd, o, Obj(d, p)))
  {
    hide Denotes, DiskOk, Tame;
    var r, i, n := Serve(fs, t, Call(o, Open(name))), FirstUnused(t, 0), Resolve(fs, name);
    TameName(fs, t, Call(o, Open(name)), name);
    forall d, p ensures n == Found(d, p) <==> Denotes(fs, name, d, p) {
      ResolveExactly(fs, name, d, p);
    }
    if i < |t| {
      assert r.0[i].owner == o;
      if n.NotFound? {
        assert NewAt(t, r.0, i, o, NoItem);
      } else {
        assert Denotes(fs, name, n.dir, n.pos);
      }
    }
  }

  lemma TameName(fs: Disk, t: Fds, c: Call, name: string)
    requires Tame(fs, t, c) && (c.req == Open(name) || c.req == Check(name))
    ensures Resolve(fs, name) != Wild && 0 <= c.sender
  {
  }

  /** A check answers with the entry the name denotes, if there is one, and changes nothing. */
  lemma CheckAnswers(fs: Disk, t: Fds, name: string, o: int)
    requires DiskOk(fs) && TableOk(fs, t) && Tame(fs, t, Call(o, Check(name)))
    ensures var r := Serve(fs, t, Call(o, Check(name)));
      r.0 == t
      && ((forall d, p :: !Denotes(fs, name, d, p)) ==> r.1 == Reply(UNFOUND, Nothing))
      && (forall d: nat, p: nat :: Denotes(fs, name, d, p) ==>
            d < |fs| && p < |fs[d]| && r.1 == Reply(GOOD, Attr(fs[d][p])))
  {
    hide Denotes;
    var n := Resolve(fs, name);
    TameName(fs, t, Call(o, Check(name)), name);
    if n.Found? {
      FoundItem(fs, name, Fd(o, 0, Obj(n.dir, n.pos)));
      ResolveExactly(fs, name, n.dir, n.pos);
    }
    forall d, p ensures n == Found(d, p) <==> Denotes(fs, name, d, p) {
      ResolveExactly(fs, name, d, p);
    }
  }

  /** The reply carries the entry that the item is. */
  predicate ShowsItem(fs: Disk, body: Body, item: Item) {
    item.Obj? && item.dir < |fs| && item.pos < |fs[item.dir]| && body == Attr(fs[item.dir][item.pos])
  }

  /** A check finds a name exactly when an open of it would, and shows the entry that the opened
      descriptor holds. */
  lemma CheckAgreesWithOpen(fs: Disk, t: Fds, t': Fds, name: string, o: int, o': int)
    requires DiskOk(fs) && TableOk(fs, t) && Tame(fs, t, Call(o, Check(name)))
    requires TableOk(fs, t') && Tame(fs, t', Call(o', Open(name))) && SomeUnused(t')
    ensures var c, r := Serve(fs, t, Call(o, Check(name))).1, Serve(fs, t', Call(o', Open(name)));
      (c.code == GOOD <==> r.1.code == GOOD)
      && (r.1.code == GOOD ==>
            r.1.body.Opened? && 0 <= r.1.body.fd < |r.0| && ShowsItem(fs, c.body, r.0[r.1.body.fd].item))
  {
    hide Denotes, DiskOk, Tame, Serve;
    CheckAnswers(fs, t, name, o);
    OpenAnswers(fs, t', name, o');
  }

  /** A close answers GOOD if and only if the descriptor is the client's, and then only gives it up. */
  lemma CloseAnswers(fs: Disk, t: Fds, fd: int, o: int)
    requires DiskOk(fs) && TableOk(fs, t) && 0 <= o
    ensures var r := Serve(fs, t, Call(o, Close(fd)));
      if 0 <= fd < MAX_FD && t[fd].owner == o
      then r.1 == Reply(GOOD, Nothing) && OnlyAt(t, r.0, fd) && r.0[fd] == t[fd].(owner := UNUSED)
      else r == (t, Reply(ILL_PARAM, Nothing))
  {
  }

  /** A read of a descriptor that is not the client's is refused; any other moves at most its offset. */
  lemma ReadAnswers(fs: Disk, t: Fds, fd: int, o: int)
    requires DiskOk(fs) && TableOk(fs, t) && Tame(fs, t, Call(o, Read(fd)))
    ensures var r := Serve(fs, t, Call(o, Read(fd)));
      if 0 <= fd < MAX_FD && t[fd].owner == o
      then OnlyAt(t, r.0, fd) && r.0[fd] == t[fd].(offset := r.0[fd].offset)
        && (r.1.code == GOOD || r.1 == Reply(FM_EOF, Nothing))
      else r == (t, Reply(ILL_PARAM, Nothing))
  {
  }

  lemma OtherAnswers(fs: Disk, t: Fds, o: int)
    requires DiskOk(fs) && TableOk(fs, t) && 0 <= o
    ensures Serve(fs, t, Call(o, Other)) == (t, Reply(UNKNOWN, Nothing))
  {
  }

  // Sequences of requests

  function Run(fs: Disk, t: Fds, cs: seq<Call>): Fds
    requires DiskOk(fs) && TableOk(fs, t) && TameRun(fs, t, cs)
    decreases |cs|
  {
    if cs == [] then t
    else
      ServeKeeps(fs, t, cs[0]);
      Run(fs, Serve(fs, t, cs[0]).0, cs[1..])
  }

  predicate TameRun(fs: Disk, t: Fds, cs: seq<Call>)
    requires DiskOk(fs) && TableOk(fs, t)
    decreases |cs|
  {
    cs == [] ||
    (Tame(fs, t, cs[0]) &&
     (ServeKeeps(fs, t, cs[0]);
      TameRun(fs, Serve(fs, t, cs[0]).0, cs[1..])))
  }

  /** The replies to client o's reads of descriptor f. */
  function ReadsBy(fs: Disk, t: Fds, cs: seq<Call>, f: int, o: int): seq<Reply>
    requires DiskOk(fs) && TableOk(fs, t) && TameRun(fs, t, cs)
    decreases |cs|
  {
    if cs == [] then []
    else
      ServeKeeps(fs, t, cs[0]);
      (if cs[0] == Call(o, Read(f)) then [Serve(fs, t, cs[0]).1] else [])
      + ReadsBy(fs, Serve(fs, t, cs[0]).0, cs[1..], f, o)
  }

  function Chunks(bytes: string, offset: nat): seq<Body>
    decreases |bytes| - offset
  {
    if offset >= |bytes| then []
    else
      var n := Min(|bytes| - offset, CHUNK);
      [Chunk(bytes[offset..offset + n])] + Chunks(bytes, offset + n)
  }

  function Listings(es: seq<Entry>, i: nat): seq<Body>
    requires i <= End(es)
    decreases |es| - i
  {
    if i == End(es) then []
    else if es[i].name.Named? then [Listing(es[i])] + Listings(es, i + 1)
    else Listings(es, i + 1)
  }

  /** What reads of a descriptor have yet to return. */
  function Left(fs: Disk, x: Fd): seq<Body>
    requires ItemOk(fs, x) && x.item.Obj?
  {
    var e := fs[x.item.dir][x.item.pos];
    if IsDirMode(e.mode) then Listings(fs[e.target.dir], x.offset) else Chunks(e.target.bytes, x.offset)
  }

  lemma {:induction false} ListingsSkip(es: seq<Entry>, i: nat)
    requires i <= End(es)
    ensures var n := NextNamed(es, i);
      Listings(es, i) == if n == End(es) then [] else [Listing(es[n])] + Listings(es, n + 1)
    ensures Listings(es, NextNamed(es, i)) == Listings(es, i)
    decreases |es| - i
  {
    hide End;
    if i < End(es) && es[i].name.NoName? {
      ListingsSkip(es, i + 1);
    }
  }

  /** A read returns the first thing left and takes it off; with nothing left it says so. */
  lemma ReadTakesFirst(fs: Disk, x: Fd)
    requires DiskOk(fs) && ItemOk(fs, x) && x.item.Obj?
    ensures var r := ReadItem(fs, x); var x' := x.(offset := r.0);
      ItemOk(fs, x')
      && if Left(fs, x) == [] then r.1 == Reply(FM_EOF, Nothing) && Left(fs, x') == []
         else r.1 == Reply(GOOD, Left(fs, x)[0]) && Left(fs, x') == Left(fs, x)[1..]
  {
    var e := fs[x.item.dir][x.item.pos];
    if IsDirMode(e.mode) {
      ListingsSkip(fs[e.target.dir], x.offset);
    }
  }

  function Tail(s: seq<Body>, n: nat): seq<Body> {
    if n <= |s| then s[n..] else []
  }

  /** Nobody closes descriptor f on behalf of its holder o. */
  predicate Holds(cs: seq<Call>, f: int, o: int) {
    Call(o, Close(f)) !in cs
  }

  /** One request, whoever makes it, seen from an open descriptor of client o. */
  lemma SeenFrom(fs: Disk, t: Fds, c: Call, f: nat, o: int)
    requires DiskOk(fs) && TableOk(fs, t) && Tame(fs, t, c) && c != Call(o, Close(f))
    requires f < MAX_FD && 0 <= o && t[f].owner == o && t[f].item.Obj?
    ensures var r := Serve(fs, t, c);
      TableOk(fs, r.0) && r.0[f].owner == o && r.0[f].item == t[f].item
      && (c != Call(o, Read(f)) ==> r.0[f] == t[f])
      && (c == Call(o, Read(f)) ==> Left(fs, r.0[f]) == Tail(Left(fs, t[f]), 1) && r.1 == Answer(Left(fs, t[f]), 0))
  {
    hide Left, ReadItem;
    ServeKeeps(fs, t, c);
    if c == Call(o, Read(f)) {
      ReadTakesFirst(fs, t[f]);
    } else if c.sender == o {
      OwnUntouched(fs, t, c, f);
    } else {
      OthersUntouched(fs, t, c, f);
    }
  }

  /** The j-th answer of a descriptor that had `left` to return. */
  function Answer(left: seq<Body>, j: nat): Reply {
    if j < |left| then Reply(GOOD, left[j]) else Reply(FM_EOF, Nothing)
  }

  lemma TailOfTail(s: seq<Body>, n: nat)
    ensures Tail(Tail(s, 1), n) == Tail(s, n + 1)
    ensures forall j: nat :: Answer(Tail(s, 1), j) == Answer(s, j + 1)
  {
  }

  /** Whatever all clients ask for meanwhile, the reads of one open descriptor return what it had
      left, in order, each piece once, and then only end-of-file. */
  lemma {:induction false} ReadsInOrder(fs: Disk, t: Fds, cs: seq<Call>, f: nat, o: int)
    requires DiskOk(fs) && TableOk(fs, t) && TameRun(fs, t, cs) && Holds(cs, f, o)
    requires f < MAX_FD && 0 <= o && t[f].owner == o && t[f].item.Obj?
    ensures forall j :: 0 <= j < |ReadsBy(fs, t, cs, f, o)| ==>
      ReadsBy(fs, t, cs, f, o)[j] == Answer(Left(fs, t[f]), j)
    ensures TableOk(fs, Run(fs, t, cs))
    ensures var x := Run(fs, t, cs)[f];
      x.owner == o && x.item == t[f].item && Left(fs, x) == Tail(Left(fs, t[f]), |ReadsBy(fs, t, cs, f, o)|)
    decreases |cs|
  {
    hide Left, Serve, DiskOk, Tame;
    if cs != [] {
      assert cs[0] in cs;
      assert Holds(cs[1..], f, o);
      SeenFrom(fs, t, cs[0], f, o);
      ReadsInOrder(fs, Serve(fs, t, cs[0]).0, cs[1..], f, o);
      TailOfTail(Left(fs, t[f]), |ReadsBy(fs, Serve(fs, t, cs[0]).0, cs[1..], f, o)|);
    }
  }

  function BytesOf(b: Body): string {
    if b.Chunk? then b.bytes else ""
  }

  function Flatten(bs: seq<Body>): string {
    if bs == [] then "" else BytesOf(bs[0]) + Flatten(bs[1..])
  }

  /** The j-th piece of a file from offset on. */
  function Piece(bytes: string, offset: nat, j: nat): Body
    requires offset + CHUNK * j <= |bytes|
  {
    Chunk(bytes[offset + CHUNK * j..Min(|bytes|, offset + CHUNK * j + CHUNK)])
  }

  /** The text a client has been given. */
  function Shown(rs: seq<Reply>): string {
    if rs == [] then "" else BytesOf(rs[0].body) + Shown(rs[1..])
  }

  lemma FlattenTail(left: seq<Body>)
    ensures Flatten(left) == BytesOf(Answer(left, 0).body) + Flatten(Tail(left, 1))
  {
  }

  lemma {:induction false} AnswersShow(rs: seq<Reply>, left: seq<Body>)
    requires forall j :: 0 <= j < |rs| ==> rs[j] == Answer(left, j)
    ensures Shown(rs) + Flatten(Tail(left, |rs|)) == Flatten(left)
  {
    if rs != [] {
      hide Answer, BytesOf;
      TailOfTail(left, |rs| - 1);
      AnswersShow(rs[1..], Tail(left, 1));
      FlattenTail(left);
      assert rs[0] == Answer(left, 0);
      var a, b, c := BytesOf(rs[0].body), Shown(rs[1..]), Flatten(Tail(left, |rs|));
      assert (a + b) + c == a + (b + c);
    } else {
      assert left[0..] == left;
    }
  }

  lemma {:induction false} ChunksFlatten(bytes: string, offset: nat)
    requires offset <= |bytes|
    ensures Flatten(Chunks(bytes, offset)) == bytes[offset..]
    decreases |bytes| - offset
  {
    if offset < |bytes| {
      var n := Min(|bytes| - offset, CHUNK);
      ChunksFlatten(bytes, offset + n);
      assert bytes[offset..] == bytes[offset..offset + n] + bytes[offset + n..];
    }
  }

  lemma {:induction false} ChunksCount(bytes: string, offset: nat)
    requires offset <= |bytes|
    ensures |Chunks(bytes, offset)| == (|bytes| - offset + CHUNK - 1) / CHUNK
    decreases |bytes| - offset
  {
    if offset < |bytes| {
      ChunksCount(bytes, offset + Min(|bytes| - offset, CHUNK));
    }
  }

  lemma {:induction false} ChunkAt(bytes: string, offset: nat, j: nat)
    requires offset <= |bytes| && j < |Chunks(bytes, offset)|
    ensures offset + CHUNK * j <= |bytes| && Chunks(bytes, offset)[j] == Piece(bytes, offset, j)
    decreases j
  {
    if j > 0 {
      ChunkAt(bytes, offset + Min(|bytes| - offset, CHUNK), j - 1);
    }
  }

  /** The pieces of a file make up the file; there are ceil(n / 100) of them, none empty. */
  lemma ChunksMakeFile(bytes: string)
    ensures Flatten(Chunks(bytes, 0)) == bytes
    ensures |Chunks(bytes, 0)| == (|bytes| + CHUNK - 1) / CHUNK
    ensures forall j :: 0 <= j < |Chunks(bytes, 0)| ==>
      CHUNK * j <= |bytes| && Chunks(bytes, 0)[j] == Piece(bytes, 0, j)
  {
    ChunksFlatten(bytes, 0);
    ChunksCount(bytes, 0);
    forall j | 0 <= j < |Chunks(bytes, 0)| ensures CHUNK * j <= |bytes| && Chunks(bytes, 0)[j] == Piece(bytes, 0, j) {
      ChunkAt(bytes, 0, j);
    }
  }

  /** Positions of the named entries from i to the end marker. */
  function Positions(es: seq<Entry>, i: nat): (r: seq<nat>)
    requires i <= End(es)
    ensures forall j :: 0 <= j < |r| ==> i <= r[j] < End(es) && es[r[j]].name.Named?
    ensures forall j, k :: 0 <= j < k < |r| ==> r[j] < r[k]
    ensures forall k :: i <= k < End(es) && es[k].name.Named? ==> k in r
    decreases |es| - i
  {
    if i == End(es) then []
    else if es[i].name.Named? then [i] + Positions(es, i + 1)
    else Positions(es, i + 1)
  }

  /** The listings of a directory are its named entries before the end marker, in order. */
  lemma {:induction false} ListingsInOrder(es: seq<Entry>, i: nat)
    requires i <= End(es)
    ensures |Listings(es, i)| == |Positions(es, i)|
    ensures forall j :: 0 <= j < |Listings(es, i)| ==> Listings(es, i)[j] == Listing(es[Positions(es, i)[j]])
    decreases |es| - i
  {
    hide End;
    if i < End(es) {
      ListingsInOrder(es, i + 1);
    }
  }

  predicate IsFile(fs: Disk, r: Result) {
    r.Found? && r.dir < |fs| && r.pos < |fs[r.dir]| && fs[r.dir][r.pos].target.Bytes?
  }

  /** After a file is opened, reads of the descriptor its client was told, in any company, return
      the file cut into hundreds, ceil(size / 100) pieces, and then end-of-file. */
  lemma WholeFileRead(fs: Disk, t: Fds, name: string, o: int, f: int, cs: seq<Call>)
    requires DiskOk(fs) && TableOk(fs, t) && TameRun(fs, t, [Call(o, Open(name))] + cs)
    requires Serve(fs, t, Call(o, Open(name))).1 == Reply(GOOD, Opened(f)) && Holds(cs, f, o)
    requires IsFile(fs, Resolve(fs, name))
    ensures var r, t' := Resolve(fs, name), Serve(fs, t, Call(o, Open(name))).0;
      TableOk(fs, t') && TameRun(fs, t', cs)
      && (var rs, bytes := ReadsBy(fs, t', cs, f, o), fs[r.dir][r.pos].target.bytes;
          forall j :: 0 <= j < |rs| ==>
            if j < (|bytes| + CHUNK - 1) / CHUNK
            then CHUNK * j <= |bytes| && rs[j] == Reply(GOOD, Piece(bytes, 0, j))
            else rs[j] == Reply(FM_EOF, Nothing))
    ensures var r, t' := Resolve(fs, name), Serve(fs, t, Call(o, Open(name))).0;
      (var rs, bytes := ReadsBy(fs, t', cs, f, o), fs[r.dir][r.pos].target.bytes;
       Shown(rs) <= bytes && (|rs| >= (|bytes| + CHUNK - 1) / CHUNK ==> Shown(rs) == bytes))
  {
    var r, t' := Resolve(fs, name), Serve(fs, t, Call(o, Open(name))).0;
    Opening(fs, t, name, o, f, cs);
    FileLeft(fs, t'[f]);
    hide Left, Serve, DiskOk, Tame, Resolve, TableOk;
    ReadsInOrder(fs, t', cs, f, o);
    var bytes, rs := fs[r.dir][r.pos].target.bytes, ReadsBy(fs, t', cs, f, o);
    ChunksMakeFile(bytes);
    AnswersShow(rs, Chunks(bytes, 0));
  }

  /** And after a directory is opened, its named entries before the end marker, in order. */
  lemma WholeListing(fs: Disk, t: Fds, name: string, o: int, f: int, cs: seq<Call>)
    requires DiskOk(fs) && TableOk(fs, t) && TameRun(fs, t, [Call(o, Open(name))] + cs)
    requires Serve(fs, t, Call(o, Open(name))).1 == Reply(GOOD, Opened(f)) && Holds(cs, f, o)
    requires IsDirectory(fs, Resolve(fs, name))
    ensures var r, t' := Resolve(fs, name), Serve(fs, t, Call(o, Open(name))).0;
      TableOk(fs, t') && TameRun(fs, t', cs)
      && (var rs, es := ReadsBy(fs, t', cs, f, o), fs[fs[r.dir][r.pos].target.dir];
          forall j :: 0 <= j < |rs| ==>
            rs[j] == if j < |Positions(es, 0)| then Reply(GOOD, Listing(es[Positions(es, 0)[j]]))
                     else Reply(FM_EOF, Nothing))
  {
    var r, t' := Resolve(fs, name), Serve(fs, t, Call(o, Open(name))).0;
    Opening(fs, t, name, o, f, cs);
    DirectoryLeft(fs, t'[f]);
    hide Left, Serve, DiskOk, Tame, Resolve, TableOk;
    ReadsInOrder(fs, t', cs, f, o);
    ListingsInOrder(fs[fs[r.dir][r.pos].target.dir], 0);
  }

  predicate IsDirectory(fs: Disk, r: Result) {
    r.Found? && r.dir < |fs| && r.pos < |fs[r.dir]|
    && fs[r.dir][r.pos].target.Dir? && fs[r.dir][r.pos].target.dir < |fs|
  }

  /** The state in which the reads after a successful open begin. */
  lemma Opening(fs: Disk, t: Fds, name: string, o: int, f: int, cs: seq<Call>)
    requires DiskOk(fs) && TableOk(fs, t) && TameRun(fs, t, [Call(o, Open(name))] + cs)
    requires Serve(fs, t, Call(o, Open(name))).1 == Reply(GOOD, Opened(f))
    ensures var r, t' := Resolve(fs, name), Serve(fs, t, Call(o, Open(name))).0;
      r.Found? && 0 <= f < MAX_FD && 0 <= o && TableOk(fs, t') && TameRun(fs, t', cs)
      && t'[f] == Fd(o, 0, Obj(r.dir, r.pos)) && ItemOk(fs, t'[f])
  {
    var c, r := Call(o, Open(name)), Resolve(fs, name);
    assert ([c] + cs)[0] == c && ([c] + cs)[1..] == cs;
    ServeKeeps(fs, t, c);
    hide DiskOk, Resolve, TableOk;
    if r.Found? {
      FoundItem(fs, name, Fd(o, 0, Obj(r.dir, r.pos)));
    }
  }

  lemma DirectoryLeft(fs: Disk, x: Fd)
    requires ItemOk(fs, x) && x.item.Obj? && fs[x.item.dir][x.item.pos].target.Dir?
    ensures Left(fs, x) == Listings(fs[fs[x.item.dir][x.item.pos].target.dir], x.offset)
  {
  }

  lemma FileLeft(fs: Disk, x: Fd)
    requires ItemOk(fs, x) && x.item.Obj? && fs[x.item.dir][x.item.pos].target.Bytes?
    ensures Left(fs, x) == Chunks(fs[x.item.dir][x.item.pos].target.bytes, x.offset)
  {
  }

  // Counting descriptors

  function Unused(t: Fds): nat {
    if t == [] then 0 else (if t[0].owner == UNUSED then 1 else 0) + Unused(t[1..])
  }

  function Int(b: bool): int {
    if b then 1 else 0
  }

  lemma {:induction false} UnusedUpdate(t: Fds, i: nat, x: Fd)
    requires i < |t|
    ensures Unused(t[i := x]) == Unused(t) - Int(t[i].owner == UNUSED) + Int(x.owner == UNUSED)
  {
    if i == 0 {
      assert t[0 := x][1..] == t[1..];
    } else {
      assert t[i := x][1..] == t[1..][i - 1 := x];
      UnusedUpdate(t[1..], i - 1, x);
    }
  }

  lemma {:induction false} NoneUnused(t: Fds)
    ensures Unused(t) == 0 <==> forall k :: 0 <= k < |t| ==> t[k].owner != UNUSED
  {
    if t != [] {
      NoneUnused(t[1..]);
      assert t == [t[0]] + t[1..];
    }
  }

  /** How many replies in the run answer an open or a close with the given code. */
  function Answers(fs: Disk, t: Fds, cs: seq<Call>, opens: bool, code: int): nat
    requires DiskOk(fs) && TableOk(fs, t) && TameRun(fs, t, cs)
    decreases |cs|
  {
    if cs == [] then 0
    else
      ServeKeeps(fs, t, cs[0]);
      (if (if opens then cs[0].req.Open? else cs[0].req.Close?) && Serve(fs, t, cs[0]).1.code == code then 1 else 0)
      + Answers(fs, Serve(fs, t, cs[0]).0, cs[1..], opens, code)
  }

  /** Descriptors are conserved, and every open that misses its name costs one: over any run the
      free descriptors fall by the opens that found or missed a name and rise by the closes. */
  lemma {:induction false} DescriptorsConserved(fs: Disk, t: Fds, cs: seq<Call>)
    requires DiskOk(fs) && TableOk(fs, t) && TameRun(fs, t, cs)
    ensures Unused(Run(fs, t, cs)) + Answers(fs, t, cs, true, GOOD) + Answers(fs, t, cs, true, UNFOUND)
         == Unused(t) + Answers(fs, t, cs, false, GOOD)
    decreases |cs|
  {
    if cs != [] {
      var c, t' := cs[0], Serve(fs, t, cs[0]).0;
      ServeKeeps(fs, t, c);
      if c.req.Open? && FirstUnused(t, 0) < |t| {
        UnusedUpdate(t, FirstUnused(t, 0), t'[FirstUnused(t, 0)]);
      } else if c.req.Close? && CanAccess(t, c.req.fd, c.sender) {
        UnusedUpdate(t, c.req.fd, t'[c.req.fd]);
      } else if c.req.Read? && CanAccess(t, c.req.fd, c.sender) {
        UnusedUpdate(t, c.req.fd, t'[c.req.fd]);
      }
      DescriptorsConserved(fs, t', cs[1..]);
    }
  }

  /** Twenty misses, and no name can be opened any more until a client closes a descriptor
      number it was never given. */
  lemma MissesExhaust(fs: Disk, t: Fds, cs: seq<Call>, c: Call)
    requires DiskOk(fs) && TableOk(fs, t) && TameRun(fs, t, cs)
    requires Answers(fs, t, cs, true, UNFOUND) >= Unused(t) + Answers(fs, t, cs, false, GOOD)
    requires c.req.Open? && 0 <= c.sender && Text(c.req.name) && Resolve(fs, c.req.name) != Wild
    ensures TableOk(fs, Run(fs, t, cs)) && Serve(fs, Run(fs, t, cs), c).1.code == NO_FD
  {
    RunKeeps(fs, t, cs);
    DescriptorsConserved(fs, t, cs);
    NoneUnused(Run(fs, t, cs));
  }

  lemma {:induction false} RunKeeps(fs: Disk, t: Fds, cs: seq<Call>)
    requires DiskOk(fs) && TableOk(fs, t) && TameRun(fs, t, cs)
    ensures TableOk(fs, Run(fs, t, cs))
    decreases |cs|
  {
    if cs != [] {
      ServeKeeps(fs, t, cs[0]);
      RunKeeps(fs, Serve(fs, t, cs[0]).0, cs[1..]);
    }
  }
}
