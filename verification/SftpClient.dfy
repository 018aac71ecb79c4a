/** The SFTP client over the wire (src/sftp/client.rs): uploads, downloads and listings as loops of
requests and replies, each of them bytes there and bytes back. */
module SftpClient {
  import opened Bytes
  import opened Wire
  import opened SftpWire
  import opened Sftp

  /** A request sent as bytes is served as the request it is, if it is below the ceiling; else the server
  takes it for no packet. */
  lemma Serves(w: World, longName: LongName, r: Request, short: nat)
    requires WorldOk(w) && w.nextHandle < U64 - 1 && Short(r) && IsUtf8(Subject(r))
    ensures Sound(Answer(w, longName, r, short).1)
    ensures var (w', a) := Answer(w, longName, r, short);
      Served(w, longName, EncodePacket(RequestPacket(r)), short)
        == if Fits(RequestPacket(r)) then (w', Some(EncodePacket(ReplyPacket(a)))) else (w, None)
  {
    hide WorldOk, Answer, TakePacket, EncodePacket, RequestPacket, ParseRequest, ReplyPacket, IsUtf8, Short, Subject;
    AnswerOk(w, longName, r, short);
    RequestReadsBack(r);
    var bytes := EncodePacket(RequestPacket(r));
    PacketReadsBack(RequestPacket(r), []);
    assert bytes + [] == bytes;
  }

  function BatchSize(left: nat): nat { Min(BATCH, left) }

  /** The next batch, with the id and the count before it, is below the ceiling. */
  ghost predicate FirstFits(entries: seq<Entry>)
    requires AllSendable(entries)
  {
    entries == [] || 8 + |EncodeEntries(entries[..BatchSize(|entries|)])| < MAX_PACKET
  }

  /** So is every batch of 64. */
  ghost predicate AllFit(entries: seq<Entry>)
    requires AllSendable(entries)
    decreases |entries|
  {
    entries == [] || (FirstFits(entries) && AllFit(entries[BatchSize(|entries|)..]))
  }

  function Batches(left: nat): nat {
    if left == 0 then 0 else 1 + Batches(left - BatchSize(left))
  }

  lemma {:induction false} BatchesCount(left: nat)
    ensures Batches(left) == (left + BATCH - 1) / BATCH
  {
    if left > 0 { BatchesCount(left - BatchSize(left)); }
  }

  /** The packet is the reply, to one who takes it apart. */
  ghost predicate Reads(p: Packet, a: Reply) {
    match a
    case Status(_, code, _) => p.kind == STATUS && StatusIn(p.payload) == Ok(code)
    case Handle(_, handle) => p.kind == HANDLE && StringIn(p.payload) == Ok(handle)
    case Data(_, data) => p.kind == DATA && StringIn(p.payload) == Ok(data)
    case Name(_, entries) => p.kind == NAME && NamesIn(p.payload) == Ok(entries)
  }

  /** A reply arrives, unless it is a batch of names over the ceiling: then the stream is of no more use. */
  ghost predicate Arrives(a: Reply, p: Option<Packet>, broken: bool) {
    && Sound(a) && (broken <==> p.None?) && (p.Some? ==> Reads(p.value, a))
    && (p.None? <==> a.Name? && 8 + |EncodeEntries(a.entries)| >= MAX_PACKET)
  }

  lemma Received(w: World, longName: LongName, r: Request, short: nat, a: Reply)
    requires WorldOk(w) && w.nextHandle < U64 - 1 && a == Answer(w, longName, r, short).1
    ensures Sound(a)
    ensures var got := TakePacket(EncodePacket(ReplyPacket(a)));
      Arrives(a, if got.Some? then Some(got.value.value) else None, got.None?)
  {
    hide WorldOk, Answer, TakePacket, EncodePacket, ReplyPacket, StatusIn, StringIn, NamesIn, EncodeEntries, Sound;
    OnlyNamesOverflow(w, longName, r, short);
    PacketReadsBack(ReplyPacket(a), []);
    assert EncodePacket(ReplyPacket(a)) + [] == EncodePacket(ReplyPacket(a));
    ReplyReadsBack(a);
    Pieces(a);
  }

  /** What a round trip comes to: the world after, what was read back, and whether the stream is of use
  any more. */
  ghost predicate Trip(w: World, longName: LongName, broken: bool, r: Request, short: nat, w': World, broken': bool, p: Option<Packet>)
    requires Short(r)
  {
    if broken || !Fits(RequestPacket(r)) then p == None && w' == w && broken'
    else var (v, a) := Answer(w, longName, r, short); w' == v && Arrives(a, p, broken')
  }

  function Downloading(id: u32, path: seq<byte>): Request {
    Open(id, path, READING, NO_ATTRS)
  }

  function Uploading(id: u32, path: seq<byte>, mode: u32): Request {
    Open(id, path, WRITING + CREAT + TRUNC, NO_ATTRS.(permissions := Some(mode % 0x1000)))
  }

  lemma FlagsMean()
    ensures Openable(READING) && Has(READING, READING) && !Has(READING, WRITING) && !Has(READING, APPEND)
    ensures !Has(READING, CREAT) && !Has(READING, TRUNC) && !Has(READING, EXCL)
    ensures var up := WRITING + CREAT + TRUNC;
      && Openable(up) && !Has(up, READING) && Has(up, WRITING) && !Has(up, APPEND)
      && Has(up, CREAT) && Has(up, TRUNC) && !Has(up, EXCL)
  {
  }

  lemma WritesOn(source: seq<byte>, offset: nat, n: nat)
    requires offset + n <= |source|
    ensures WriteAt(source[..offset], offset, source[offset..offset + n]) == source[..offset + n]
  {
    hide WriteAt;
    AtEnd(source[..offset], source[offset..offset + n]);
    assert source[..offset] + source[offset..offset + n] == source[..offset + n];
  }

  /** How much the source yields next, of what is left. */
  function Portion(portions: seq<nat>, i: nat, left: nat): (n: nat)
    requires left > 0
    ensures 0 < n <= left && n <= CHUNK
  {
    var asked := if i < |portions| then portions[i] else CHUNK;
    Min(Min(if asked == 0 then 1 else asked, CHUNK), left)
  }

  /** A handle on a file that is there, open for writing where one says. */
  predicate Writable(w: World, h: seq<byte>) {
    h in w.handles && w.handles[h].Opened? && w.handles[h].writable && !w.handles[h].appends && w.handles[h].path in w.files
  }

  predicate Readable(w: World, h: seq<byte>) {
    h in w.handles && w.handles[h].Opened? && w.handles[h].readable && w.handles[h].path in w.files
  }

  /** A handle as the server gives them out. */
  predicate Token(h: seq<byte>) {
    |h| <= 20 && IsUtf8(h)
  }

  class Client {
    const server: Session
    var nextId: u32
    var broken: bool

    constructor (server: Session)
      ensures this.server == server && nextId == 0 && !broken
    {
      this.server, nextId, broken := server, 0, false;
    }

    method NextId() returns (id: u32)
      modifies this`nextId
      ensures id == old(nextId) && nextId == Inc32(id)
    {
      id := nextId;
      nextId := Inc32(nextId);
    }

    /** Bytes there, bytes back. */
    method RoundTrip(r: Request, short: nat) returns (p: Option<Packet>)
      requires server.Valid() && server.nextHandle < U64 - 1 && Short(r) && IsUtf8(Subject(r))
      modifies this`broken, server
      ensures server.Valid()
      ensures Trip(old(server.View()), server.longName, old(broken), r, short, server.View(), broken, p)
    {
      hide WorldOk, Answer, TakePacket, EncodePacket, RequestPacket, ReplyPacket, IsUtf8, Short, Subject, Served, Arrives;
      if broken {
        return None;
      }
      Serves(server.View(), server.longName, r, short);
      ghost var a := Answer(server.View(), server.longName, r, short).1;
      var output := server.Turn(EncodePacket(RequestPacket(r)), short);
      if output.None? {
        broken := true;
        return None;
      }
      Received(old(server.View()), server.longName, r, short, a);
      var got := TakePacket(output.value);
      if got.None? {
        broken := true;
        return None;
      }
      return Some(got.value.value);
    }

    /** A HANDLE is a new handle; anything else is an error. */
    method OpenHandle(r: Request) returns (h: Option<seq<byte>>)
      requires server.Valid() && server.nextHandle < U64 - 1 && Short(r) && IsUtf8(Subject(r)) && (r.Open? || r.OpenDir?)
      modifies this`broken, server
      ensures server.Valid()
      ensures var (w, a) := Answer(old(server.View()), server.longName, r, 0);
        if old(broken) || !Fits(RequestPacket(r)) then h == None && broken && server.View() == old(server.View())
        else !broken && server.View() == w && h == if a.Handle? then Some(a.handle) else None
      ensures h.Some? ==> Token(h.value) && h.value !in old(server.handles)
    {
      hide WorldOk, Answer, RequestPacket, IsUtf8, Short, Subject, StringIn, StatusIn, NamesIn, Sound, Token;
      OpenedToken(server.View(), server.longName, r);
      var p := RoundTrip(r, 0);
      if p.None? || p.value.kind != HANDLE {
        return None;
      }
      var text := StringIn(p.value.payload);
      return if text.Ok? then Some(text.value) else None;
    }

    method CloseHandle(h: seq<byte>) returns (ok: bool)
      requires server.Valid() && server.nextHandle < U64 - 1 && Token(h)
      modifies this, server
      ensures server.Valid() && broken == old(broken)
      ensures if broken then !ok && server.View() == old(server.View())
        else ok == (h in old(server.handles)) && server.View() == old(server.View()).(handles := old(server.handles) - {h})
    {
      hide WorldOk, RequestPacket, IsUtf8, Sound, StatusIn, NamesIn, Said;
      var id := NextId();
      var r := Close(id, h);
      var p := RoundTrip(r, 0);
      assert h !in old(server.handles) ==> old(server.handles) - {h} == old(server.handles);
      return p.Some? && StatusIn(p.value.payload) == Ok(OK);
    }

    /** Portion after portion, each at the offset the last one ended; a failed write closes the handle. */
    method WriteAll(h: seq<byte>, source: seq<byte>, portions: seq<nat>) returns (ok: bool)
      requires server.Valid() && server.nextHandle < U64 - 1 && Token(h) && |source| < U64
      modifies this, server
      ensures server.Valid() && server.nextHandle == old(server.nextHandle) && broken == old(broken)
      ensures var w := old(server.View());
        !broken && Writable(w, h) && w.files[w.handles[h].path] == [] ==>
          ok && server.View() == w.(files := w.files[w.handles[h].path := source])
      ensures broken ==> server.View() == old(server.View())
    {
      hide WorldOk, RequestPacket, IsUtf8, Sound, StatusIn, NamesIn, StringIn, Answer, Portion;
      ghost var w := server.View();
      ghost var good := !broken && Writable(w, h) && w.files[w.handles[h].path] == [];
      var offset, i := 0, 0;
      assert source[..0] == [];
      assert good ==> w.files[w.handles[h].path := []] == w.files;
      while offset < |source|
        invariant offset <= |source| && server.Valid() && server.nextHandle == w.nextHandle && broken == old(broken)
        invariant good ==> server.View() == w.(files := w.files[w.handles[h].path := source[..offset]])
        invariant broken ==> server.View() == w
        decreases |source| - offset
      {
        var n := Portion(portions, i, |source| - offset);
        var id := NextId();
        WriteStep(server.View(), server.longName, id, h, source, offset, n);
        var r := Put(id, h, offset, source[offset..offset + n]);
        var p := RoundTrip(r, 0);
        if p.None? {
          return false;
        }
        if StatusIn(p.value.payload) != Ok(OK) {
          var _ := CloseHandle(h);
          return false;
        }
        offset, i := offset + n, i + 1;
      }
      assert source[..|source|] == source;
      return true;
    }

    /** Read after read from where the last one ended, until the end of the file. Whatever comes back
    short, the bytes are the file's. */
    method ReadAll(h: seq<byte>, shorts: seq<nat>) returns (got: Option<seq<byte>>)
      requires server.Valid() && server.nextHandle < U64 - 1 && Token(h)
      modifies this, server
      ensures server.Valid() && server.nextHandle == old(server.nextHandle) && broken == old(broken)
      ensures var w := old(server.View());
        if !broken && Readable(w, h) then got == Some(w.files[w.handles[h].path]) && server.View() == w else got == None
    {
      hide WorldOk, RequestPacket, IsUtf8, Sound, StatusIn, NamesIn, StringIn, Answer;
      ghost var w := server.View();
      ghost var file := if Readable(w, h) then w.files[w.handles[h].path] else [];
      FileSize(w, h);
      var offset, i, sink: seq<byte> := 0, 0, [];
      while true
        invariant server.Valid() && server.View() == w && broken == old(broken)
        invariant offset <= |file| && sink == file[..offset]
        decreases |file| - offset
      {
        var id := NextId();
        var r := Get(id, h, offset, CHUNK);
        var short := if i < |shorts| then shorts[i] else 0;
        ReadStep(w, server.longName, id, h, offset, short);
        var p := RoundTrip(r, short);
        if p.None? {
          return None;
        }
        var data, code := StringIn(p.value.payload), StatusIn(p.value.payload);
        if p.value.kind == DATA && data.Ok? {
          assert file[..offset] + data.value == file[..offset + |data.value|];
          sink, offset, i := sink + data.value, offset + |data.value|, i + 1;
        } else if p.value.kind == STATUS && code == Ok(EOF) {
          assert file[..|file|] == file;
          return Some(sink);
        } else {
          var _ := CloseHandle(h);
          return None;
        }
      }
    }

    /** Upload: the file is the source, whatever the portions the source yields, and the handle is given
    back. It fails exactly at the cap, on a directory, or for a path too long to send. */
    method Upload(path: seq<byte>, source: seq<byte>, mode: u32, portions: seq<nat>) returns (ok: bool)
      requires server.Valid() && server.nextHandle < U64 / 2 && |path| < U32 - 1024 && IsUtf8(path) && |source| < U64
      modifies this, server
      ensures server.Valid() && server.nextHandle <= old(server.nextHandle) + 1
      ensures ok <==> !old(broken) && UploadFits(path) && |old(server.handles)| < MAX_HANDLES && path !in old(server.dirs)
      ensures broken == (old(broken) || !UploadFits(path))
      ensures server.View() == old(server.View()).(nextHandle := server.nextHandle,
        files := if ok then old(server.files)[path := source] else old(server.files))
    {
      hide WorldOk, IsUtf8, Answer, RequestPacket;
      var id := NextId();
      PathFits(id, path, mode);
      UploadOpens(server.View(), server.longName, id, path, mode);
      var h := OpenHandle(Uploading(id, path, mode));
      if h.None? {
        return false;
      }
      ok := WriteAll(h.value, source, portions);
      if ok {
        ok := CloseHandle(h.value);
        assert server.handles == old(server.handles);
      }
      assert old(server.files)[path := []][path := source] == old(server.files)[path := source];
    }

    /** Download. */
    method Download(path: seq<byte>, shorts: seq<nat>) returns (got: Option<seq<byte>>)
      requires server.Valid() && server.nextHandle < U64 - 2 && |path| < U32 - 1024 && IsUtf8(path)
      modifies this, server
      ensures server.Valid()
      ensures got == if !old(broken) && DownloadFits(path) && |old(server.handles)| < MAX_HANDLES
                        && path in old(server.files) && path !in old(server.dirs)
                     then Some(old(server.files)[path]) else None
      ensures server.View() == old(server.View()).(nextHandle := server.nextHandle) && broken == (old(broken) || !DownloadFits(path))
    {
      hide WorldOk, IsUtf8, Answer, RequestPacket;
      var id := NextId();
      PathFits(id, path, 0);
      DownloadOpens(server.View(), server.longName, id, path);
      var h := OpenHandle(Downloading(id, path));
      if h.None? {
        return None;
      }
      got := ReadAll(h.value, shorts);
      if got.Some? {
        var closed := CloseHandle(h.value);
        assert server.handles == old(server.handles);
        if !closed {
          got := None;
        }
      }
    }

    /** One READDIR. */
    method ReadBatch(h: seq<byte>) returns (r: Batch)
      requires server.Valid() && server.nextHandle < U64 - 1 && Token(h)
      modifies this, server
      ensures server.Valid()
      ensures var w := old(server.View());
        if old(broken) then r == Lost && server.View() == w && broken
        else if !Listing(w, h) then r == Refused && server.View() == w && !broken
        else
          var entries := Remaining(w, server.longName, h);
          var n := BatchSize(|entries|);
          && server.View() == Further(w, h, n)
          && (broken <==> r == Lost) && (r == Lost <==> !FirstFits(entries))
          && (r != Lost ==> r == if entries == [] then End else Names(entries[..n]))
    {
      hide WorldOk, IsUtf8, RequestPacket, Sound, StatusIn, NamesIn, StringIn, Remaining, OnReadDir, EncodeEntries, Listing, Further, Said;
      var id := NextId();
      BatchStep(server.View(), server.longName, id, h);
      var p := RoundTrip(ReadDir(id, h), 0);
      if p.None? {
        return Lost;
      }
      var batch, code := NamesIn(p.value.payload), StatusIn(p.value.payload);
      return if p.value.kind == NAME && batch.Ok? then Names(batch.value)
             else if p.value.kind == STATUS && code == Ok(EOF) then End
             else Refused;
    }

    /** READDIR after READDIR, until the end: every entry that remains, once and in order, in one request a
    batch and one for the end. It succeeds exactly when every batch is below the ceiling. */
    method ListAll(h: seq<byte>) returns (names: Option<seq<Entry>>, ghost requests: nat)
      requires server.Valid() && server.nextHandle < U64 - 1 && Token(h)
      modifies this, server
      ensures server.Valid() && server.nextHandle == old(server.nextHandle)
      ensures if old(broken) || !Listing(old(server.View()), h) then names == None
        else Listed(old(server.View()), server.longName, h, server.View(), broken, names, requests)
    {
      hide WorldOk, Listing, Listed, ListInv, Remaining, FirstFits, Further, Token;
      ghost var w, good := server.View(), !broken && Listing(server.View(), h);
      var out: seq<Entry> := [];
      requests := 0;
      if good { ListStart(w, server.longName, h); }
      ghost var left := if good then |Remaining(w, server.longName, h)| else 0;
      while true
        invariant server.Valid() && server.nextHandle == w.nextHandle && broken == old(broken)
        invariant if good then ListInv(w, server.longName, h, server.View(), out, requests) else server.View() == w
        invariant good ==> Listing(server.View(), h) && left == |Remaining(server.View(), server.longName, h)|
        decreases left
      {
        if good { ListNext(w, server.longName, h, server.View(), out, requests); }
        var r := ReadBatch(h);
        match r {
          case Lost => return None, requests;
          case Names(batch) => out, requests, left := out + batch, requests + 1, left - |batch|;
          case End => return Some(out), requests + 1;
          case Refused =>
            var _ := CloseHandle(h);
            return None, requests;
        }
      }
    }

    /** A listing: the directory's entries with their long names and attributes, if every batch of them is
    below the ceiling, and the handle given back. Otherwise nothing; the handle stays with the server. */
    method List(path: seq<byte>) returns (names: Option<seq<Entry>>, ghost requests: nat)
      requires server.Valid() && server.nextHandle < U64 - 2 && |path| < U32 - 1024 && IsUtf8(path)
      modifies this, server
      ensures server.Valid()
      ensures var w := old(server.View());
        if !old(broken) && ListFits(path) && |w.handles| < MAX_HANDLES && path in w.dirs then
          var entries := EntriesOf(w, server.longName, path);
          && (names.Some? <==> AllFit(entries)) && (broken <==> !AllFit(entries))
          && (names.Some? ==> names.value == entries && server.View() == w.(nextHandle := server.nextHandle)
                              && requests == (|entries| + BATCH - 1) / BATCH + 1)
          && (names.None? ==> server.handles.Keys == w.handles.Keys + {Decimal(w.nextHandle)})
        else names == None && server.View() == w && broken == (old(broken) || !ListFits(path))
    {
      hide WorldOk, IsUtf8, Answer, RequestPacket, Remaining, EntriesOf, AllFit, Decimal, Listed, Listing, Token;
      requests := 0;
      ghost var w := server.View();
      var id := NextId();
      ListOpens(w, server.longName, id, path);
      var h := OpenHandle(OpenDir(id, path));
      if h.None? {
        return None, 0;
      }
      ghost var begun := server.View();
      names, requests := ListAll(h.value);
      ListEnds(w, begun, server.longName, path, h.value, server.View(), broken, names, requests);
      if names.Some? {
        var closed := CloseHandle(h.value);
        if !closed {
          names := None;
        }
      }
    }

    /** What goes up comes down: for contents of any size an offset can say, in any portions and with any
    short reads. */
    method Transfer(path: seq<byte>, source: seq<byte>, mode: u32, portions: seq<nat>, shorts: seq<nat>) returns (got: Option<seq<byte>>)
      requires server.Valid() && server.nextHandle < U64 / 2 && |path| < U32 - 1024 && IsUtf8(path) && |source| < U64
      modifies this, server
      ensures server.Valid()
      ensures got == if !old(broken) && UploadFits(path) && |old(server.handles)| < MAX_HANDLES && path !in old(server.dirs)
                     then Some(source) else None
      ensures server.View() == old(server.View()).(nextHandle := server.nextHandle,
        files := if got.Some? then old(server.files)[path := source] else old(server.files))
    {
      hide WorldOk, IsUtf8;
      var ok := Upload(path, source, mode, portions);
      if !ok {
        return None;
      }
      got := Download(path, shorts);
    }
  }

  datatype Batch = Names(entries: seq<Entry>) | End | Lost | Refused

  predicate Listing(w: World, h: seq<byte>) {
    h in w.handles && w.handles[h].Dir? && w.handles[h].next <= |w.handles[h].names|
  }

  /** The entries a listing has still to return, as they stand. */
  ghost function Remaining(w: World, longName: LongName, h: seq<byte>): (r: seq<Entry>)
    requires Listing(w, h)
    ensures AllSendable(r) && |r| == |w.handles[h].names| - w.handles[h].next
  {
    var d := w.handles[h];
    AllDescribed(w.stats, longName, d.path, d.names[d.next..]);
    Described(w.stats, longName, d.path, d.names[d.next..])
  }

  /** The listing at another place, and `done` entries further on. */
  ghost function Seek(w: World, h: seq<byte>, next: nat): World
    requires Listing(w, h)
  {
    w.(handles := w.handles[h := w.handles[h].(next := next)])
  }

  ghost function Further(w: World, h: seq<byte>, done: nat): World
    requires Listing(w, h)
  {
    Seek(w, h, w.handles[h].next + done)
  }

  lemma DescribedPart(stats: Stats, longName: LongName, dir: seq<byte>, names: seq<Text>, n: nat)
    requires n <= |names|
    ensures Described(stats, longName, dir, names[..n]) == Described(stats, longName, dir, names)[..n]
    ensures Described(stats, longName, dir, names[n..]) == Described(stats, longName, dir, names)[n..]
  {
    hide Describe;
  }

  /** One READDIR: the next batch of what remains, or the end. */
  lemma BatchStep(w: World, longName: LongName, id: u32, h: seq<byte>)
    requires WorldOk(w)
    ensures var (w', a) := OnReadDir(w, longName, id, h);
      if !Listing(w, h) then w' == w && a.Status? && a.code == FAILURE
      else
        var entries := Remaining(w, longName, h);
        var n := BatchSize(|entries|);
        && w' == Further(w, h, n)
        && if entries == [] then a.Status? && a.code == EOF else a == Name(id, entries[..n])
  {
    hide Said, IsText, Described, Decimal, Number;
    if Listing(w, h) {
      var d := w.handles[h];
      var left := d.names[d.next..];
      DescribedPart(w.stats, longName, d.path, left, BatchSize(|left|));
      assert d.names[d.next..Min(d.next + BATCH, |d.names|)] == left[..BatchSize(|left|)];
      assert w.handles[h := d] == w.handles;
    }
  }

  /** What remains after a batch. */
  lemma BatchNext(w: World, longName: LongName, h: seq<byte>)
    requires Listing(w, h)
    ensures var entries := Remaining(w, longName, h);
      var n := BatchSize(|entries|);
      Listing(Further(w, h, n), h) && Remaining(Further(w, h, n), longName, h) == entries[n..]
  {
    hide IsText, Described;
    var d := w.handles[h];
    var left := d.names[d.next..];
    var n := BatchSize(|left|);
    DescribedPart(w.stats, longName, d.path, left, n);
    assert d.names[d.next + n..] == left[n..];
  }

  /** What a listing from `w` comes to: all that remained and as many requests as that takes, or, when a
  batch is over the ceiling, nothing and a stream of no more use. */
  ghost predicate Listed(w: World, longName: LongName, h: seq<byte>, v: World, broken: bool, names: Option<seq<Entry>>, requests: nat)
    requires Listing(w, h)
  {
    var entries := Remaining(w, longName, h);
    && (broken <==> !AllFit(entries))
    && names == (if AllFit(entries) then Some(entries) else None)
    && Listing(v, h) && v == Seek(w, h, v.handles[h].next)
    && (names.Some? ==> requests == (|entries| + BATCH - 1) / BATCH + 1)
  }

  /** Between two requests: what is out and what remains are the whole. */
  ghost predicate ListInv(w: World, longName: LongName, h: seq<byte>, v: World, out: seq<Entry>, requests: nat) {
    && Listing(w, h) && Listing(v, h) && v == Seek(w, h, v.handles[h].next)
    && var entries, rest := Remaining(w, longName, h), Remaining(v, longName, h);
       entries == out + rest && AllFit(entries) == AllFit(rest) && requests + Batches(|rest|) == Batches(|entries|)
  }

  lemma ListStart(w: World, longName: LongName, h: seq<byte>)
    requires Listing(w, h)
    ensures ListInv(w, longName, h, w, [], 0)
  {
    hide Remaining;
    assert w.handles[h := w.handles[h]] == w.handles;
  }

  lemma ListNext(w: World, longName: LongName, h: seq<byte>, v: World, out: seq<Entry>, requests: nat)
    requires ListInv(w, longName, h, v, out, requests)
    ensures Listing(v, h)
    ensures var rest := Remaining(v, longName, h);
      var n := BatchSize(|rest|);
      var v' := Further(v, h, n);
      && v'.nextHandle == v.nextHandle && Listing(v', h)
      && if !FirstFits(rest) then Listed(w, longName, h, v', true, None, requests)
         else if rest == [] then Listed(w, longName, h, v', false, Some(out), requests + 1)
         else ListInv(w, longName, h, v', out + rest[..n], requests + 1) && |Remaining(v', longName, h)| == |rest| - n
  {
    hide Remaining, EncodeEntries;
    BatchNext(v, longName, h);
    var entries, rest := Remaining(w, longName, h), Remaining(v, longName, h);
    var n := BatchSize(|rest|);
    BatchesCount(|entries|);
    assert out + rest == out + rest[..n] + rest[n..];
    var d := v.handles[h];
    assert w.handles[h := d][h := d.(next := d.next + n)] == w.handles[h := d.(next := d.next + n)];
    if rest == [] { assert out + rest == out; }
  }

  /** A path that an open for writing, or for reading, can name in a packet below the ceiling. */
  predicate UploadFits(path: seq<byte>) {
    |path| + 20 < MAX_PACKET
  }

  predicate DownloadFits(path: seq<byte>) {
    |path| + 16 < MAX_PACKET
  }

  predicate ListFits(path: seq<byte>) {
    |path| + 8 < MAX_PACKET
  }

  /** The entries of a directory, as they stand: its names in order, each with what the file system says of
  it, or nothing, and shown in full by that. */
  ghost function EntriesOf(w: World, longName: LongName, path: seq<byte>): (r: seq<Entry>)
    requires path in w.dirs
    ensures AllSendable(r) && |r| == |w.dirs[path]|
    ensures forall i :: 0 <= i < |r| ==>
      && r[i].name == w.dirs[path][i] && r[i].longName == longName(r[i].name, r[i].attrs)
      && r[i].attrs == if (path, r[i].name) in w.stats then w.stats[(path, r[i].name)] else Attrs(None, None, None, None)
  {
    AllDescribed(w.stats, longName, path, w.dirs[path]);
    Described(w.stats, longName, path, w.dirs[path])
  }

  lemma ListOpens(w: World, longName: LongName, id: u32, path: seq<byte>)
    requires WorldOk(w) && w.nextHandle < U64 - 1 && |path| < U32 - 1024
    ensures Fits(RequestPacket(OpenDir(id, path))) <==> ListFits(path)
    ensures var (w', a) := Answer(w, longName, OpenDir(id, path), 0);
      if |w.handles| < MAX_HANDLES && path in w.dirs then
        && a == Handle(id, Decimal(w.nextHandle)) && a.handle !in w.handles && Token(a.handle)
        && w' == w.(handles := w.handles[a.handle := Dir(path, w.dirs[path], 0)], nextHandle := w.nextHandle + 1)
        && Listing(w', a.handle) && Remaining(w', longName, a.handle) == EntriesOf(w, longName, path)
      else !a.Handle? && w' == w
  {
    hide WorldOk, Decimal, IsUtf8, IsText, Described;
    OpenedToken(w, longName, OpenDir(id, path));
    if path in w.dirs { assert w.dirs[path][0..] == w.dirs[path]; }
  }

  lemma PathFits(id: u32, path: seq<byte>, mode: u32)
    requires |path| < U32 - 1024
    ensures Fits(RequestPacket(Uploading(id, path, mode))) <==> UploadFits(path)
    ensures Fits(RequestPacket(Downloading(id, path))) <==> DownloadFits(path)
  {
  }

  lemma FileSize(w: World, h: seq<byte>)
    requires WorldOk(w)
    ensures Readable(w, h) ==> |w.files[w.handles[h].path]| < U64
  {
    hide Decimal, Number;
  }

  /** One READ: bytes from the offset on, or the end. */
  lemma ReadStep(w: World, longName: LongName, id: u32, h: seq<byte>, offset: u64, short: nat)
    ensures var (w', a) := Answer(w, longName, Get(id, h, offset, CHUNK), short);
      && w' == w
      && if !Readable(w, h) then a.Status? && a.code == FAILURE
         else
           var f := w.files[w.handles[h].path];
           if offset >= |f| then a.Status? && a.code == EOF
           else a.Data? && a.data != [] && offset + |a.data| <= |f| && a.data == f[offset..offset + |a.data|]
  {
    hide Said, ReadAt;
  }

  /** One WRITE at the end of what is there so far. */
  lemma WriteStep(w: World, longName: LongName, id: u32, h: seq<byte>, source: seq<byte>, offset: u64, n: nat)
    requires offset + n <= |source| < U64
    ensures var (w', a) := Answer(w, longName, Put(id, h, offset, source[offset..offset + n]), 0);
      && w' == w.(files := w'.files) && a.Status?
      && (Writable(w, h) && w.files[w.handles[h].path] == source[..offset] ==>
            a.code == OK && w'.files == w.files[w.handles[h].path := source[..offset + n]])
  {
    hide Said, WriteAt;
    WritesOn(source, offset, n);
  }

  /** The handle an open gives is new, and a token. */
  lemma OpenedToken(w: World, longName: LongName, r: Request)
    requires WorldOk(w) && w.nextHandle < U64 - 1 && (r.Open? || r.OpenDir?)
    ensures var a := Answer(w, longName, r, 0).1; !a.Name? && (a.Handle? ==> Token(a.handle) && a.handle !in w.handles)
  {
    hide WorldOk, Decimal, IsUtf8, Has, Openable;
    HandleText(w.nextHandle);
    if r.Open? { OpenOk(w, r.id, r.path, r.pflags); } else { OpenDirOk(w, r.id, r.path); }
  }

  lemma UploadOpens(w: World, longName: LongName, id: u32, path: seq<byte>, mode: u32)
    requires WorldOk(w) && w.nextHandle < U64 - 1
    ensures var (w', a) := Answer(w, longName, Uploading(id, path, mode), 0);
      if |w.handles| < MAX_HANDLES && path !in w.dirs then
        && a.Handle? && a.handle !in w.handles && Token(a.handle)
        && w' == w.(files := w.files[path := []], handles := w.handles[a.handle := Opened(path, false, true, false)], nextHandle := w.nextHandle + 1)
      else !a.Handle? && w' == w
  {
    hide WorldOk, Decimal, IsUtf8, Has, Openable;
    FlagsMean();
    OpenedToken(w, longName, Uploading(id, path, mode));
  }

  lemma DownloadOpens(w: World, longName: LongName, id: u32, path: seq<byte>)
    requires WorldOk(w) && w.nextHandle < U64 - 1
    ensures var (w', a) := Answer(w, longName, Downloading(id, path), 0);
      if |w.handles| < MAX_HANDLES && path in w.files && path !in w.dirs then
        && a.Handle? && a.handle !in w.handles && Token(a.handle)
        && w' == w.(handles := w.handles[a.handle := Opened(path, true, false, false)], nextHandle := w.nextHandle + 1)
      else !a.Handle? && w' == w
  {
    hide WorldOk, Decimal, IsUtf8, Has, Openable;
    FlagsMean();
    OpenedToken(w, longName, Downloading(id, path));
  }

  /** What a listing leaves, once its handle is closed. */
  lemma ListEnds(w: World, w1: World, longName: LongName, path: seq<byte>, h: seq<byte>, v: World, broken: bool, names: Option<seq<Entry>>, requests: nat)
    requires path in w.dirs && h !in w.handles
    requires w1 == w.(handles := w.handles[h := Dir(path, w.dirs[path], 0)], nextHandle := w1.nextHandle)
    requires Listing(w1, h) && Remaining(w1, longName, h) == EntriesOf(w, longName, path)
    requires Listed(w1, longName, h, v, broken, names, requests)
    ensures var entries := EntriesOf(w, longName, path);
      && (names.Some? <==> AllFit(entries)) && (broken <==> !AllFit(entries))
      && (names.Some? ==> names.value == entries && requests == (|entries| + BATCH - 1) / BATCH + 1)
    ensures h in v.handles && v.handles.Keys == w.handles.Keys + {h}
    ensures v.(handles := v.handles - {h}) == w.(nextHandle := v.nextHandle)
  {
    hide Remaining, EntriesOf, AllFit;
    assert v.handles - {h} == w.handles;
  }

  // ------------------------------------------------------------ which directories can be listed

  predicate AtMost(e: Entry) { |e.name| <= 765 && |e.longName| <= 1024 }
  predicate AtLeast(e: Entry) { |e.name| >= 4096 }

  lemma OneSize(e: Entry)
    requires SftpWire.Sendable(e)
    ensures AtMost(e) ==> |EncodeEntry(e)| <= 1829
    ensures AtLeast(e) ==> |EncodeEntry(e)| >= 4096
  {
    hide IsUtf8, EncodeAttrs;
    AttrsSize(e.attrs);
  }

  lemma {:induction false} SizeAtMost(entries: seq<Entry>)
    requires AllSendable(entries) && forall k :: 0 <= k < |entries| ==> AtMost(entries[k])
    ensures |EncodeEntries(entries)| <= |entries| * 1829
  {
    hide EncodeEntry, SftpWire.Sendable, AtMost, AtLeast;
    if entries != [] {
      OneSize(entries[0]);
      SizeAtMost(entries[1..]);
    }
  }

  lemma {:induction false} SizeAtLeast(entries: seq<Entry>)
    requires AllSendable(entries) && forall k :: 0 <= k < |entries| ==> AtLeast(entries[k])
    ensures |EncodeEntries(entries)| >= |entries| * 4096
  {
    hide EncodeEntry, SftpWire.Sendable, AtMost, AtLeast;
    if entries != [] {
      OneSize(entries[0]);
      SizeAtLeast(entries[1..]);
    }
  }

  /** Where a name is 255 bytes at most, each of them three at worst once made UTF-8, every directory can
  be listed. */
  lemma {:induction false} ShortNamesFit(entries: seq<Entry>)
    requires AllSendable(entries) && forall k :: 0 <= k < |entries| ==> AtMost(entries[k])
    ensures AllFit(entries)
    decreases |entries|
  {
    hide SftpWire.Sendable, AtMost, EncodeEntries;
    if entries != [] {
      var n := BatchSize(|entries|);
      SizeAtMost(entries[..n]);
      ShortNamesFit(entries[n..]);
    }
  }

  /** A directory of 64 names of 4096 bytes cannot be. */
  lemma LongNamesDoNot(entries: seq<Entry>)
    requires AllSendable(entries) && |entries| == BATCH && forall k :: 0 <= k < |entries| ==> AtLeast(entries[k])
    ensures !AllFit(entries)
  {
    hide SftpWire.Sendable, AtLeast, EncodeEntries;
    SizeAtLeast(entries[..BATCH]);
  }
}
