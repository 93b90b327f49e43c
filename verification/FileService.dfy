/** The file service in place (FileService.c): the descriptor array and the message buffer,
    each routine proved against the request functions of Descriptors. */
module FileService {
  import opened Params
  import opened Paths
  import D = Descriptors

  const TEXT := 101       // bytes of message text that MyBzero clears
  const BUFFER := 104     // the text and the padding before the message's code words
  const ATTR := 24        // sizeof(attr_t): a name follows it in the text

  function Zeros(n: nat): string {
    seq(n, _ => NUL)
  }

  /** What MyMemcpy leaves of d: the copy, and a stray zero one place after the next. */
  function Copied(d: string, at: nat, src: string, size: nat): string
    requires size <= |src| + 1 && at + size + 1 < |d|
  {
    seq(|d|, k requires 0 <= k < |d| =>
      if at <= k < at + size then CharAt(src, k - at) else if k == at + size + 1 then NUL else d[k])
  }

  /** The text of a reply: the piece or the name, ended by a NUL. */
  predicate Carries(text: string, body: D.Body)
    requires |text| == BUFFER
  {
    match body
    case Chunk(bytes) => |bytes| < TEXT && text[..TEXT] == bytes + Zeros(TEXT - |bytes|)
    case Listing(e) =>
      e.name.Named? && ATTR + |e.name.text| < TEXT
      && text[ATTR..TEXT] == e.name.text + Zeros(TEXT - ATTR - |e.name.text|)
    case Attr(e) =>
      e.name.Named? && ATTR + |e.name.text| < TEXT
      && text[ATTR..ATTR + |e.name.text| + 1] == e.name.text + Zeros(1)
    case _ => true
  }

  /** code[2] of a reply: the bytes a read returns. */
  function Count(body: D.Body): int {
    match body
    case Chunk(bytes) => |bytes|
    case Listing(e) => if e.name.Named? then ATTR + |e.name.text| + 1 else 0
    case _ => 0
  }

  /** The first n characters of the text are the reply's: the bytes of a file, or the attributes and
      a name with its NUL. */
  predicate Uses(text: string, body: D.Body, n: int)
    requires |text| == BUFFER
  {
    match body
    case Chunk(bytes) => 0 <= n <= TEXT && text[..n] == bytes
    case Listing(e) => ATTR < n <= TEXT && text[n - 1] == NUL && e.name == Named(text[ATTR..n - 1])
    case _ => n == 0
  }

  lemma NothingCarried(text: string)
    requires |text| == BUFFER
    ensures Carries(text, D.Nothing)
  {
  }

  lemma CountMeans(text: string, body: D.Body)
    requires |text| == BUFFER && Carries(text, body)
    ensures Uses(text, body, Count(body))
  {
    match body {
      case Chunk(bytes) =>
        assert text[..TEXT][..|bytes|] == bytes && text[..|bytes|] == text[..TEXT][..|bytes|];
      case Listing(e) =>
        var n := |e.name.text|;
        assert text[ATTR..TEXT][..n] == e.name.text && text[ATTR..ATTR + n] == text[ATTR..TEXT][..n];
        assert text[ATTR + n] == text[ATTR..TEXT][n];
      case _ =>
    }
  }

  method MyBzero(p: array<char>, size: nat)
    requires size <= p.Length
    modifies p
    ensures p[..] == Zeros(size) + old(p[size..])
  {
    for i := 0 to size
      invariant p[..i] == Zeros(i) && p[size..] == old(p[size..])
    {
      p[i] := NUL;
    }
    assert p[..] == p[..size] + p[size..];
  }

  method MyMemcpy(dest: array<char>, at: nat, src: string, size: nat)
    requires size <= |src| + 1 && at + size + 1 < dest.Length
    modifies dest
    ensures dest[..] == Copied(old(dest[..]), at, src, size)
  {
    var i := 0;
    while i < size
      invariant 0 <= i <= size
      invariant forall k :: 0 <= k < dest.Length ==>
        dest[k] == if at <= k < at + i then CharAt(src, k - at) else old(dest[..])[k]
    {
      dest[at + i] := CharAt(src, i);
      i := i + 1;
    }
    i := i + 1;
    dest[at + i] := NUL;
  }

  /** ReadObj's filling of the message with a listing; the text is cleared first. */
  method FillName(buff: array<char>, e: Entry) returns (len: nat)
    requires buff.Length == BUFFER && e.name.Named? && Text(e.name.text) && |e.name.text| <= MAX_NAME
    modifies buff
    ensures len == |e.name.text| && Carries(buff[..], D.Listing(e))
  {
    MyBzero(buff, TEXT);
    len := MyStrlen(e.name.text, 0);
    MyMemcpy(buff, ATTR, e.name.text, len + 1);
  }

  /** And with n bytes of a file. MyMemcpy ends nothing at n: that NUL is MyBzero's. */
  method FillChunk(buff: array<char>, bytes: string, offset: nat, n: nat)
    requires buff.Length == BUFFER && offset + n <= |bytes| && n <= D.CHUNK
    modifies buff
    ensures Carries(buff[..], D.Chunk(bytes[offset..offset + n]))
  {
    MyBzero(buff, TEXT);
    MyMemcpy(buff, 0, bytes[offset..], n);
  }

  class Service {
    const fs: Disk
    const fd_array: array<D.Fd>

    ghost predicate Valid()
      reads fd_array
    {
      fd_array.Length == D.MAX_FD && DiskOk(fs) && D.TableOk(fs, fd_array[..])
    }

    /** FileService()'s preparations. */
    constructor (fs: Disk)
      requires DiskOk(fs)
      ensures Valid() && fresh(fd_array) && this.fs == fs
      ensures forall i :: 0 <= i < D.MAX_FD ==> fd_array[i].owner == D.UNUSED
    {
      var t := new D.Fd[D.MAX_FD](_ => D.Fd(0, 0, D.NoItem));
      for i := 0 to D.MAX_FD
        invariant forall k :: 0 <= k < D.MAX_FD ==> t[k] == D.Fd(if k < i then D.UNUSED else 0, 0, D.NoItem)
      {
        t[i] := t[i].(owner := D.UNUSED);
      }
      this.fs, fd_array := fs, t;
    }

    method CanAccessFD(fd: int, owner: int) returns (code: int)
      requires Valid()
      ensures code == if D.CanAccess(fd_array[..], fd, owner) then D.GOOD else D.ILL_PARAM
    {
      if -1 < fd && fd < D.MAX_FD && fd_array[fd].owner == owner {
        return D.GOOD;
      }
      return D.ILL_PARAM;
    }

    method AllocFD(owner: int) returns (fd: int)
      requires Valid()
      modifies fd_array
      ensures Valid()
      ensures var i := D.FirstUnused(old(fd_array[..]), 0);
        if i == D.MAX_FD then fd == D.NO_FD && fd_array[..] == old(fd_array[..])
        else fd == i && fd_array[..] == old(fd_array[..])[i := D.Fd(owner, 0, D.NoItem)]
    {
      for i := 0 to D.MAX_FD
        invariant fd_array[..] == old(fd_array[..])
        invariant D.FirstUnused(fd_array[..], 0) == D.FirstUnused(fd_array[..], i)
      {
        if D.UNUSED == fd_array[i].owner {
          fd_array[i] := D.Fd(owner, 0, D.NoItem);
          return i;
        }
      }
      return D.NO_FD;
    }

    method FreeFD(fd: nat)
      requires Valid() && fd < D.MAX_FD
      modifies fd_array
      ensures Valid() && fd_array[..] == old(fd_array[..])[fd := old(fd_array[fd]).(owner := D.UNUSED)]
    {
      fd_array[fd] := fd_array[fd].(owner := D.UNUSED);
    }

    method ChkObj(name: string, buff: array<char>) returns (reply: D.Reply)
      requires Valid() && Text(name) && Resolve(fs, name) != Wild && buff.Length == BUFFER
      modifies buff
      ensures fd_array[..] == old(fd_array[..])
      ensures D.CheckObj(fs, fd_array[..], name).1 == reply && Carries(buff[..], reply.body)
    {
      var r := FindName(fs, name);
      if r.NotFound? {
        return D.Reply(D.UNFOUND, D.Nothing);
      }
      D.FoundItem(fs, name, D.Fd(0, 0, D.Obj(r.dir, r.pos)));
      var e := fs[r.dir][r.pos];
      NameFits(fs, r.dir, r.pos);
      var len := MyStrlen(e.name.text, 0);
      MyMemcpy(buff, ATTR, e.name.text, len + 1);
      return D.Reply(D.GOOD, D.Attr(e));
    }

    /** The open that keeps its descriptor when the name is not found. */
    method OpenObj(name: string, owner: int) returns (reply: D.Reply)
      requires Valid() && Text(name) && Resolve(fs, name) != Wild
      modifies fd_array
      ensures Valid() && (fd_array[..], reply) == D.OpenObj(fs, old(fd_array[..]), name, owner)
    {
      var fd := AllocFD(owner);
      if fd == D.NO_FD {
        return D.Reply(D.NO_FD, D.Nothing);
      }
      var r := FindName(fs, name);
      if r.NotFound? {
        return D.Reply(D.UNFOUND, D.Nothing);
      }
      fd_array[fd] := fd_array[fd].(item := D.Obj(r.dir, r.pos));
      D.FoundItem(fs, name, fd_array[fd]);
      assert fd_array[..] == old(fd_array[..])[fd := D.Fd(owner, 0, D.Obj(r.dir, r.pos))];
      return D.Reply(D.GOOD, D.Opened(fd));
    }

    method CloseObj(fd: int, owner: int) returns (reply: D.Reply)
      requires Valid()
      modifies fd_array
      ensures Valid() && (fd_array[..], reply) == D.CloseObj(old(fd_array[..]), fd, owner)
    {
      var result := CanAccessFD(fd, owner);
      if result == D.GOOD {
        FreeFD(fd);
      }
      return D.Reply(result, D.Nothing);
    }

    /** The next entry of an open directory, or false at the end marker. */
    method ReadDir(fd: nat) returns (more: bool, e: Entry)
      requires Valid() && fd < D.MAX_FD && fd_array[fd].item.Obj?
      requires IsDirMode(fs[fd_array[fd].item.dir][fd_array[fd].item.pos].mode)
      modifies fd_array
      ensures Valid()
      ensures var r := D.ReadItem(fs, old(fd_array[fd]));
        fd_array[..] == old(fd_array[..])[fd := old(fd_array[fd]).(offset := r.0)]
        && r.1 == if more then D.Reply(D.GOOD, D.Listing(e)) else D.Reply(D.FM_EOF, D.Nothing)
      ensures more ==> e.name.Named? && Text(e.name.text) && |e.name.text| <= MAX_NAME
    {
      var item := fd_array[fd].item;
      var d := fs[item.dir][item.pos].target.dir;
      var es := fs[d];
      assert DirOk(es, |fs|);
      ghost var was, x := fd_array[..], fd_array[fd];
      while true
        invariant fd_array[..] == was[fd := x.(offset := fd_array[fd].offset)]
        invariant 0 <= fd_array[fd].offset <= D.End(es)
        invariant D.NextNamed(es, fd_array[fd].offset) == D.NextNamed(es, x.offset)
        decreases |es| - fd_array[fd].offset
      {
        e := es[fd_array[fd].offset];
        if e.inode == END_DIR_INODE {
          return false, e;
        }
        fd_array[fd] := fd_array[fd].(offset := fd_array[fd].offset + 1);
        if e.name != NoName {
          return true, e;
        }
      }
    }

    method ReadObj(fd: int, buff: array<char>, owner: int) returns (reply: D.Reply, actual: int)
      requires Valid() && buff.Length == BUFFER
      requires D.CanAccess(fd_array[..], fd, owner) ==> fd_array[fd].item != D.NoItem
      modifies fd_array, buff
      ensures Valid() && (fd_array[..], reply) == D.ReadObj(fs, old(fd_array[..]), fd, owner)
      ensures actual == Count(reply.body) && Carries(buff[..], reply.body)
      ensures reply.code != D.GOOD ==> buff[..] == old(buff[..]) && actual == 0
      ensures Uses(buff[..], reply.body, actual)
      ensures reply.body.Chunk? ==> actual == fd_array[fd].offset - old(fd_array[fd]).offset
    {
      hide Carries;
      NothingCarried(buff[..]);
      actual := 0;
      var result := CanAccessFD(fd, owner);
      if result != D.GOOD {
        return D.Reply(result, D.Nothing), actual;
      }
      var x := fd_array[fd];
      var e := fs[x.item.dir][x.item.pos];
      if IsDirMode(e.mode) {
        var more, entry := ReadDir(fd);
        if !more {
          return D.Reply(D.FM_EOF, D.Nothing), actual;
        }
        var len := FillName(buff, entry);
        actual := ATTR + len + 1;
        CountMeans(buff[..], D.Listing(entry));
        return D.Reply(D.GOOD, D.Listing(entry)), actual;
      }
      var remaining := e.size - x.offset;
      if remaining == 0 {
        assert fd_array[..] == fd_array[..][fd := x];
        return D.Reply(D.FM_EOF, D.Nothing), actual;
      }
      result := if remaining < D.CHUNK then remaining else D.CHUNK;
      FillChunk(buff, e.target.bytes, x.offset, result);
      fd_array[fd] := fd_array[fd].(offset := x.offset + result);
      actual := result;
      CountMeans(buff[..], D.Chunk(e.target.bytes[x.offset..x.offset + result]));
      return D.Reply(D.GOOD, D.Chunk(e.target.bytes[x.offset..x.offset + result])), actual;
    }

    /** One turn of the service's loop. */
    method Request(c: D.Call, buff: array<char>) returns (reply: D.Reply)
      requires Valid() && buff.Length == BUFFER && D.Tame(fs, fd_array[..], c)
      modifies fd_array, buff
      ensures Valid() && (fd_array[..], reply) == D.Serve(fs, old(fd_array[..]), c)
      ensures Carries(buff[..], reply.body)
    {
      match c.req {
        case Check(name) => reply := ChkObj(name, buff);
        case Open(name) => reply := OpenObj(name, c.sender);
        case Read(fd) =>
          var count;
          reply, count := ReadObj(fd, buff, c.sender);
        case Close(fd) => reply := CloseObj(fd, c.sender);
        case Other => reply := D.Reply(D.UNKNOWN, D.Nothing);
      }
    }
  }

  lemma NameFits(fs: Disk, d: nat, p: nat)
    requires DiskOk(fs) && d < |fs| && p < |fs[d]| && fs[d][p].name.Named?
    ensures Text(fs[d][p].name.text) && |fs[d][p].name.text| <= MAX_NAME
  {
    assert DirOk(fs[d], |fs|) && EntryOk(fs[d][p], |fs|);
  }
}
