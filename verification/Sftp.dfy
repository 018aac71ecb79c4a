/** An SFTP version 3 session (src/sftp/server.rs, src/sftp/client.rs): the server's handle table and
file operations, and the client's transfers and listings, over encoded packets.

A request leaves the client as bytes and reaches the server as bytes; so does the reply. Files are byte
sequences by path; a directory is the names in it. How many bytes a read yields when it yields fewer
than asked, and in what portions a source yields its bytes, are parameters. */
module Sftp {
  import opened Bytes
  import opened Wire
  import opened SftpWire

  const MAX_HANDLES: nat := 256
  const CHUNK: nat := 0x8000
  const BATCH: nat := 64

  const OK: u32 := 0
  const EOF: u32 := 1
  const NO_SUCH_FILE: u32 := 2
  const FAILURE: u32 := 4
  const BAD_MESSAGE: u32 := 5
  const OP_UNSUPPORTED: u32 := 8

  const READING: nat := 1
  const WRITING: nat := 2
  const APPEND: nat := 4
  const CREAT: nat := 8
  const TRUNC: nat := 16
  const EXCL: nat := 32

  type File = seq<byte>
  type Text = s: seq<byte> | IsText(s) witness []
  /** What the file system says of a name in a directory. */
  type Stats = map<(seq<byte>, seq<byte>), Attrs>
  /** How an entry is shown in full; a text whatever the entry. */
  type LongName = (seq<byte>, Attrs) -> Text

  datatype Node =
    | Opened(path: seq<byte>, readable: bool, writable: bool, appends: bool)
    | Dir(path: seq<byte>, names: seq<Text>, next: nat)

  /** The file system, as far as a session sees it, and the session's handles. */
  datatype World = World(
    files: map<seq<byte>, File>, dirs: map<seq<byte>, seq<Text>>, stats: Stats,
    handles: map<seq<byte>, Node>, nextHandle: u64)

  const NO_ATTRS := Attrs(None, None, None, None)

  function Min(a: nat, b: nat): nat { if a <= b then a else b }

  /** The text of a status: printable, and short. */
  function Said(s: string): (b: seq<byte>)
    ensures |b| <= 64 && IsText(b)
  {
    var b := seq(Min(|s|, 64), i requires 0 <= i < Min(|s|, 64) => (s[i] as int) % 128);
    AsciiIsUtf8(b);
    b
  }

  // ------------------------------------------------------------ handles as decimal text

  function Decimal(n: nat): (s: seq<byte>)
    ensures s != []
  {
    if n < 10 then [48 + n] else Decimal(n / 10) + [48 + n % 10]
  }

  function Number(s: seq<byte>): nat {
    if s == [] then 0 else Number(s[..|s| - 1]) * 10 + if s[|s| - 1] >= 48 then s[|s| - 1] - 48 else 0
  }

  /** Different handles have different texts: the text says the number. */
  lemma {:induction false} DecimalReadsBack(n: nat)
    ensures Number(Decimal(n)) == n
  {
    if n < 10 {
      assert [48 + n][..0] == [];
    } else {
      DecimalReadsBack(n / 10);
      var s := Decimal(n);
      assert s[..|s| - 1] == Decimal(n / 10);
    }
  }

  function Pow10(k: nat): nat { if k == 0 then 1 else 10 * Pow10(k - 1) }

  lemma {:induction false} DecimalShort(n: nat, k: nat)
    requires k > 0 && n < Pow10(k)
    ensures |Decimal(n)| <= k && forall i :: 0 <= i < |Decimal(n)| ==> Decimal(n)[i] < 0x80
  {
    if n >= 10 {
      DecimalShort(n / 10, k - 1);
    }
  }

  lemma HandleText(n: u64)
    ensures |Decimal(n)| <= 20 && IsText(Decimal(n))
  {
    assert Pow10(10) == 1_0000_0000_00;
    assert Pow10(20) >= U64;
    DecimalShort(n, 20);
    AsciiIsUtf8(Decimal(n));
  }

  // ------------------------------------------------------------ positioned reading and writing

  function Zeros(n: nat): seq<byte> { seq(n, _ => 0) }

  /** Positioned writing: a gap before the offset fills with zeros. */
  function WriteAt(f: File, offset: nat, data: seq<byte>): File {
    if data == [] then f
    else
      var grown := if |f| < offset then f + Zeros(offset - |f|) else f;
      grown[..offset] + data + (if |grown| <= offset + |data| then [] else grown[offset + |data|..])
  }

  /** What is there after a write: the data where it was put, what was there before elsewhere, and zeros
  in a gap. */
  lemma WrittenAt(f: File, offset: nat, data: seq<byte>)
    ensures var w := WriteAt(f, offset, data);
      && |w| == (if data == [] || offset + |data| <= |f| then |f| else offset + |data|)
      && forall i :: 0 <= i < |w| ==>
           w[i] == if offset <= i < offset + |data| then data[i - offset] else if i < |f| then f[i] else 0
  {
  }

  /** Positioned reading of at most `len` bytes; `short` is how many come, when not all do. */
  function ReadAt(f: File, offset: nat, len: nat, short: nat): (r: seq<byte>)
    ensures |r| <= len && (offset < |f| && len > 0 ==> r != [] && offset + |r| <= |f| && r == f[offset..offset + |r|])
    ensures offset >= |f| ==> r == []
  {
    if offset >= |f| || len == 0 then []
    else
      var most := Min(len, |f| - offset);
      var n := if 0 < short < most then short else most;
      f[offset..offset + n]
  }

  // ------------------------------------------------------------ the server, request by request

  function Refuse(w: World, id: u32, code: u32, why: string): (World, Reply) {
    (w, Status(id, code, Said(why)))
  }

  function Inserted(w: World, node: Node): World {
    w.(handles := w.handles[Decimal(w.nextHandle) := node], nextHandle := (w.nextHandle + 1) % U64)
  }

  /** Flags the operating system takes: some access, and nothing created or cut off without writing. */
  predicate Openable(pflags: u32) {
    && (Has(pflags, READING) || Has(pflags, WRITING) || Has(pflags, APPEND))
    && (Has(pflags, CREAT) || Has(pflags, TRUNC) || Has(pflags, EXCL) ==> Has(pflags, WRITING) || Has(pflags, APPEND))
    && (Has(pflags, APPEND) && Has(pflags, TRUNC) ==> Has(pflags, EXCL))
  }

  /** The cap is checked before the file is touched. */
  function OnOpen(w: World, id: u32, path: seq<byte>, pflags: u32): (World, Reply) {
    if |w.handles| >= MAX_HANDLES then Refuse(w, id, FAILURE, "too many open handles")
    else if !Openable(pflags) || path in w.dirs || (Has(pflags, EXCL) && path in w.files) then
      Refuse(w, id, FAILURE, "invalid argument")
    else if path !in w.files && !Has(pflags, CREAT) && !Has(pflags, EXCL) then
      Refuse(w, id, NO_SUCH_FILE, "no such file")
    else
      var files := if path !in w.files || Has(pflags, TRUNC) then w.files[path := []] else w.files;
      var node := Opened(path, Has(pflags, READING), Has(pflags, WRITING) || Has(pflags, APPEND), Has(pflags, APPEND));
      (Inserted(w.(files := files), node), Handle(id, Decimal(w.nextHandle)))
  }

  function OnClose(w: World, id: u32, h: seq<byte>): (World, Reply) {
    if h in w.handles then (w.(handles := w.handles - {h}), Status(id, OK, Said("closed")))
    else Refuse(w, id, FAILURE, "no such handle")
  }

  function OnGet(w: World, id: u32, h: seq<byte>, offset: u64, len: u32, short: nat): Reply {
    if h !in w.handles || !w.handles[h].Opened? || w.handles[h].path !in w.files then
      Status(id, FAILURE, Said("not an open file"))
    else if !w.handles[h].readable then Status(id, FAILURE, Said("bad file descriptor"))
    else
      var got := ReadAt(w.files[w.handles[h].path], offset, Min(len, MAX_PACKET - 1024), short);
      if got == [] then Status(id, EOF, Said("end of file")) else Data(id, got)
  }

  /** A file ends where its offsets do. */
  function OnPut(w: World, id: u32, h: seq<byte>, offset: u64, data: seq<byte>): (World, Reply) {
    if h !in w.handles || !w.handles[h].Opened? || w.handles[h].path !in w.files then
      Refuse(w, id, FAILURE, "not an open file")
    else
      var node := w.handles[h];
      var f := w.files[node.path];
      var at := if node.appends then |f| else offset;
      if !node.writable || at + |data| >= U64 then Refuse(w, id, FAILURE, "cannot write")
      else (w.(files := w.files[node.path := WriteAt(f, at, data)]), Status(id, OK, Said("written")))
  }

  /** The names are taken once, when the directory is opened. */
  function OnOpenDir(w: World, id: u32, path: seq<byte>): (World, Reply) {
    if |w.handles| >= MAX_HANDLES then Refuse(w, id, FAILURE, "too many open handles")
    else if path !in w.dirs then Refuse(w, id, NO_SUCH_FILE, "no such file")
    else (Inserted(w, Dir(path, w.dirs[path], 0)), Handle(id, Decimal(w.nextHandle)))
  }

  function Describe(stats: Stats, longName: LongName, dir: seq<byte>, name: Text): Entry {
    var attrs := if (dir, name) in stats then stats[(dir, name)] else NO_ATTRS;
    Entry(name, longName(name, attrs), attrs)
  }

  function Described(stats: Stats, longName: LongName, dir: seq<byte>, names: seq<Text>): (r: seq<Entry>)
    ensures |r| == |names| && forall i :: 0 <= i < |names| ==> r[i] == Describe(stats, longName, dir, names[i])
  {
    if names == [] then [] else [Describe(stats, longName, dir, names[0])] + Described(stats, longName, dir, names[1..])
  }

  /** Up to 64 of the entries not yet returned, in order; an end of file once there are none. */
  function OnReadDir(w: World, longName: LongName, id: u32, h: seq<byte>): (World, Reply) {
    if h !in w.handles || !w.handles[h].Dir? then Refuse(w, id, FAILURE, "not an open directory")
    else
      var d := w.handles[h];
      if d.next >= |d.names| then Refuse(w, id, EOF, "end of directory")
      else
        var end := Min(d.next + BATCH, |d.names|);
        (w.(handles := w.handles[h := d.(next := end)]), Name(id, Described(w.stats, longName, d.path, d.names[d.next..end])))
  }

  function Answer(w: World, longName: LongName, r: Request, short: nat): (World, Reply) {
    match r
    case Open(id, path, pflags, _) => OnOpen(w, id, path, pflags)
    case Close(id, h) => OnClose(w, id, h)
    case Get(id, h, offset, len) => (w, OnGet(w, id, h, offset, len, short))
    case Put(id, h, offset, data) => OnPut(w, id, h, offset, data)
    case OpenDir(id, path) => OnOpenDir(w, id, path)
    case ReadDir(id, h) => OnReadDir(w, longName, id, h)
  }

  // ------------------------------------------------------------ what every request keeps

  /** Handles are the texts of numbers already given out, at most 256 of them; a file that is open is
  there, no listing is past its end, and no file is longer than an offset can say. */
  ghost predicate WorldOk(w: World) {
    && |w.handles| <= MAX_HANDLES
    && (forall h <- w.handles :: h == Decimal(Number(h)) && Number(h) < w.nextHandle)
    && (forall h <- w.handles :: if w.handles[h].Opened? then w.handles[h].path in w.files else w.handles[h].next <= |w.handles[h].names|)
    && (forall p <- w.files :: |w.files[p]| < U64)
  }

  /** A new handle is none in use. */
  lemma InsertedOk(w: World, node: Node)
    requires WorldOk(w) && w.nextHandle < U64 - 1 && |w.handles| < MAX_HANDLES
    requires if node.Opened? then node.path in w.files else node.next <= |node.names|
    ensures Decimal(w.nextHandle) !in w.handles && WorldOk(Inserted(w, node))
  {
    hide Decimal, Number;
    DecimalReadsBack(w.nextHandle);
    var h := Decimal(w.nextHandle);
    assert Inserted(w, node).handles.Keys == w.handles.Keys + {h};
  }

  lemma AllDescribed(stats: Stats, longName: LongName, dir: seq<byte>, names: seq<Text>)
    ensures AllSendable(Described(stats, longName, dir, names))
  {
    hide IsText;
  }

  lemma OpenOk(w: World, id: u32, path: seq<byte>, pflags: u32)
    requires WorldOk(w) && w.nextHandle < U64 - 1
    ensures var (w', r) := OnOpen(w, id, path, pflags); WorldOk(w') && Sound(r) && r.id == id
    ensures var (w', r) := OnOpen(w, id, path, pflags); r.Handle? ==> r.handle !in w.handles
  {
    hide Has, Openable, Decimal, Number, IsText;
    HandleText(w.nextHandle);
    var (w', r) := OnOpen(w, id, path, pflags);
    if r.Handle? {
      InsertedOk(w.(files := w'.files), w'.handles[r.handle]);
    }
  }

  lemma CloseOk(w: World, id: u32, h: seq<byte>)
    requires WorldOk(w)
    ensures var (w', r) := OnClose(w, id, h); WorldOk(w') && Sound(r) && r.id == id
  {
    hide Decimal, Number, IsText;
    if h in w.handles {
      assert (w.handles - {h}).Keys == w.handles.Keys - {h};
    }
  }

  lemma WriteSize(f: File, offset: nat, data: seq<byte>)
    ensures |WriteAt(f, offset, data)| <= if data == [] || offset + |data| <= |f| then |f| else offset + |data|
  {
  }

  lemma PutOk(w: World, id: u32, h: seq<byte>, offset: u64, data: seq<byte>)
    requires WorldOk(w)
    ensures var (w', r) := OnPut(w, id, h, offset, data); WorldOk(w') && Sound(r) && r.id == id
  {
    hide Decimal, Number, IsText, WriteAt;
    if h in w.handles && w.handles[h].Opened? {
      var f := w.files[w.handles[h].path];
      WriteSize(f, if w.handles[h].appends then |f| else offset, data);
    }
  }

  lemma OpenDirOk(w: World, id: u32, path: seq<byte>)
    requires WorldOk(w) && w.nextHandle < U64 - 1
    ensures var (w', r) := OnOpenDir(w, id, path); WorldOk(w') && Sound(r) && r.id == id
    ensures var (w', r) := OnOpenDir(w, id, path); r.Handle? ==> r.handle !in w.handles
  {
    hide Decimal, Number, IsText;
    HandleText(w.nextHandle);
    if |w.handles| < MAX_HANDLES && path in w.dirs {
      InsertedOk(w, Dir(path, w.dirs[path], 0));
    }
  }

  lemma ReadDirOk(w: World, longName: LongName, id: u32, h: seq<byte>)
    requires WorldOk(w)
    ensures var (w', r) := OnReadDir(w, longName, id, h); WorldOk(w') && Sound(r) && r.id == id
  {
    hide Decimal, Number, IsText, Described;
    if h in w.handles && w.handles[h].Dir? && w.handles[h].next < |w.handles[h].names| {
      var d := w.handles[h];
      var end := Min(d.next + BATCH, |d.names|);
      AllDescribed(w.stats, longName, d.path, d.names[d.next..end]);
      assert w.handles[h := d.(next := end)].Keys == w.handles.Keys;
    }
  }

  /** Whatever is asked, the world stays in order, and the reply can be sent and carries the id asked
  with. */
  lemma AnswerOk(w: World, longName: LongName, r: Request, short: nat)
    requires WorldOk(w) && w.nextHandle < U64 - 1
    ensures var (w', a) := Answer(w, longName, r, short); WorldOk(w') && Sound(a) && a.id == r.id
  {
    hide WorldOk, OnOpen, OnClose, OnPut, OnOpenDir, OnReadDir, IsText;
    match r
    case Open(id, path, pflags, _) => OpenOk(w, id, path, pflags);
    case Close(id, h) => CloseOk(w, id, h);
    case Get(_, _, _, _) =>
    case Put(id, h, offset, data) => PutOk(w, id, h, offset, data);
    case OpenDir(id, path) => OpenDirOk(w, id, path);
    case ReadDir(id, h) => ReadDirOk(w, longName, id, h);
  }

  /** What a status tells: OK for a close of a handle there was and for a write that was made; an end of file
  where a read or a listing has nothing more; no such file for an open of what is not there and not to be
  made. All else that is refused is a failure. */
  lemma StatusMeans(w: World, longName: LongName, r: Request, short: nat)
    ensures var (w', a) := Answer(w, longName, r, short);
      a.Status? ==>
        && (a.code == OK <==> (r.Close? && r.handle in w.handles) || (r.Put? && Writes(w, r)))
        && (a.code == EOF <==> (r.Get? && ReadsOver(w, r)) || (r.ReadDir? && ListsOver(w, r)))
        && (a.code == NO_SUCH_FILE ==> (r.Open? && r.path !in w.files) || (r.OpenDir? && r.path !in w.dirs))
        && (a.code in {OK, EOF, NO_SUCH_FILE} || a.code == FAILURE) && (a.code != OK ==> w' == w)
  {
    hide Has, Openable, Decimal, Said, Described, WriteAt;
  }

  predicate Writes(w: World, r: Request)
    requires r.Put?
  {
    && r.handle in w.handles && w.handles[r.handle].Opened? && w.handles[r.handle].writable
    && var node := w.handles[r.handle];
       node.path in w.files && (if node.appends then |w.files[node.path]| else r.offset) + |r.data| < U64
  }

  predicate ReadsOver(w: World, r: Request)
    requires r.Get?
  {
    && r.handle in w.handles && w.handles[r.handle].Opened? && w.handles[r.handle].readable
    && w.handles[r.handle].path in w.files && (r.len == 0 || r.offset >= |w.files[w.handles[r.handle].path]|)
  }

  predicate ListsOver(w: World, r: Request)
    requires r.ReadDir?
  {
    r.handle in w.handles && w.handles[r.handle].Dir? && w.handles[r.handle].next >= |w.handles[r.handle].names|
  }

  /** What an open may be granted: not at the cap, nor on a directory, nor without some access; not on a
  file that is there when it is to be new, nor on one that is not when none is to be made; and nothing is
  made or cut off without the right to write. Refused, it changes nothing. */
  lemma OpenRefuses(w: World, id: u32, path: seq<byte>, pflags: u32)
    ensures var (w', r) := OnOpen(w, id, path, pflags);
      if !r.Handle? then w' == w
      else
        && |w.handles| < MAX_HANDLES && path !in w.dirs
        && (Has(pflags, READING) || Has(pflags, WRITING) || Has(pflags, APPEND))
        && (path in w.files ==> !Has(pflags, EXCL)) && (path !in w.files ==> Has(pflags, CREAT) || Has(pflags, EXCL))
        && (path !in w.files || Has(pflags, TRUNC) ==> Has(pflags, WRITING) || Has(pflags, APPEND))
  {
    hide Has, Decimal, Said, Inserted;
  }

  /** What a granted open does: the file is made, cut off or left as it is, as asked; no other file is
  touched; and the new handle has the rights asked for. */
  lemma OpenRespects(w: World, id: u32, path: seq<byte>, pflags: u32)
    requires OnOpen(w, id, path, pflags).1.Handle?
    ensures var (w', r) := OnOpen(w, id, path, pflags);
      && w' == w.(files := w'.files, handles := w'.handles, nextHandle := w'.nextHandle)
      && w'.files == w.files[path := if path in w.files && !Has(pflags, TRUNC) then w.files[path] else []]
      && w'.handles == w.handles[r.handle :=
           Opened(path, Has(pflags, READING), Has(pflags, WRITING) || Has(pflags, APPEND), Has(pflags, APPEND))]
  {
    hide Has, Decimal, Said, Openable;
    if path in w.files { assert w.files[path := w.files[path]] == w.files; }
  }

  /** Below the cap, an open without EXCL or APPEND is granted, of a file that is there or is to be made, with
  the access its flags need. */
  lemma OpenGranted(w: World, id: u32, path: seq<byte>, pflags: u32)
    requires |w.handles| < MAX_HANDLES && path !in w.dirs && (path in w.files || Has(pflags, CREAT))
    requires !Has(pflags, EXCL) && !Has(pflags, APPEND) && (Has(pflags, WRITING) || (Has(pflags, READING) && !Has(pflags, CREAT) && !Has(pflags, TRUNC)))
    ensures OnOpen(w, id, path, pflags).1.Handle?
  {
    hide Has, Decimal;
  }

  /** A handle's rights are kept to: only one open for writing writes, and only its own file, at the offset
  or, when it appends, at the end; only one open for reading reads, and what it reads is there: all that
  was asked for and a reply can carry, unless the read itself came short. */
  lemma RightsRespected(w: World, id: u32, h: seq<byte>, offset: u64, data: seq<byte>, len: u32, short: nat)
    ensures var (w', r) := OnPut(w, id, h, offset, data);
      if w'.files == w.files then w' == w
      else
        && h in w.handles && w.handles[h].Opened? && w.handles[h].writable && w.handles[h].path in w.files
        && var path := w.handles[h].path;
           && w' == w.(files := w.files[path := w'.files[path]])
           && w'.files[path] == if w.handles[h].appends then w.files[path] + data else WriteAt(w.files[path], offset, data)
    ensures var r := OnGet(w, id, h, offset, len, short);
      r.Data? ==>
        && h in w.handles && w.handles[h].Opened? && w.handles[h].readable && w.handles[h].path in w.files
        && var f := w.files[w.handles[h].path];
           && 0 < |r.data| <= len && offset + |r.data| <= |f| && r.data == f[offset..offset + |r.data|]
           && (short == 0 ==> |r.data| == Min(Min(len, 261120), |f| - offset))
  {
    hide Said, WriteAt;
    if h in w.handles && w.handles[h].Opened? && w.handles[h].path in w.files {
      var path := w.handles[h].path;
      AtEnd(w.files[path], data);
      var (w', r) := OnPut(w, id, h, offset, data);
      if w'.files == w.files { assert w'.files[path] == w.files[path]; }
    }
  }

  lemma AtEnd(f: File, data: seq<byte>)
    ensures WriteAt(f, |f|, data) == f + data
  {
    if data != [] {
      assert f[..|f|] == f && f + data + [] == f + data;
    } else {
      assert f + data == f;
    }
  }

  lemma Pieces(r: Reply)
    requires Sound(r)
    ensures match r
      case Status(_, _, message) => |ReplyPacket(r).payload| == 16 + |message|
      case Handle(_, handle) => |ReplyPacket(r).payload| == 8 + |handle|
      case Data(_, data) => |ReplyPacket(r).payload| == 8 + |data|
      case Name(_, entries) => |ReplyPacket(r).payload| == 8 + |EncodeEntries(entries)|
  {
    hide EncodeEntries, IsText;
  }

  /** Every reply but a batch of names is below the ceiling. */
  lemma OnlyNamesOverflow(w: World, longName: LongName, r: Request, short: nat)
    requires WorldOk(w) && w.nextHandle < U64 - 1
    ensures var a := Answer(w, longName, r, short).1; Sound(a) && (!a.Name? ==> Fits(ReplyPacket(a)))
  {
    hide WorldOk, ReplyPacket, IsText, Has, Openable, ReadAt, WriteAt, Decimal, Described, Said;
    AnswerOk(w, longName, r, short);
    HandleText(w.nextHandle);
    Pieces(Answer(w, longName, r, short).1);
  }

  // ------------------------------------------------------------ the server, bytes to bytes

  function Complaint(p: Parsed): Reply
    requires !p.Asks?
  {
    match p
    case NoId => Status(0, BAD_MESSAGE, Said("truncated request"))
    case Malformed(id) => Status(id, BAD_MESSAGE, Said("malformed request"))
    case Unsupported(id) => Status(id, OP_UNSUPPORTED, Said("operation not supported"))
  }

  function Replied(w: World, longName: LongName, p: Parsed, short: nat): (World, Reply) {
    if p.Asks? then Answer(w, longName, p.request, short) else (w, Complaint(p))
  }

  lemma RepliedOk(w: World, longName: LongName, p: Parsed, short: nat)
    requires WorldOk(w) && w.nextHandle < U64 - 1
    ensures var (w', a) := Replied(w, longName, p, short); WorldOk(w') && Sound(a)
  {
    hide WorldOk, Answer, IsText;
    if p.Asks? { AnswerOk(w, longName, p.request, short); }
  }

  /** One turn of the server's loop: the bytes of a reply, or none when what came in is no packet. */
  ghost function Served(w: World, longName: LongName, input: seq<byte>, short: nat): (World, Option<seq<byte>>)
    requires WorldOk(w) && w.nextHandle < U64 - 1
  {
    match TakePacket(input)
    case None => (w, None)
    case Some(p) =>
      var (w', a) := Replied(w, longName, ParseRequest(p.value), short);
      RepliedOk(w, longName, ParseRequest(p.value), short);
      (w', Some(EncodePacket(ReplyPacket(a))))
  }

  class Session {
    var files: map<seq<byte>, File>
    var dirs: map<seq<byte>, seq<Text>>
    var stats: Stats
    var handles: map<seq<byte>, Node>
    var nextHandle: u64
    const longName: LongName

    ghost function View(): World
      reads this
    {
      World(files, dirs, stats, handles, nextHandle)
    }

    ghost predicate Valid()
      reads this
    {
      WorldOk(View())
    }

    constructor (files: map<seq<byte>, File>, dirs: map<seq<byte>, seq<Text>>, stats: Stats, longName: LongName)
      requires forall p <- files :: |files[p]| < U64
      ensures Valid() && View() == World(files, dirs, stats, map[], 0) && this.longName == longName
    {
      this.files, this.dirs, this.stats, this.longName := files, dirs, stats, longName;
      handles, nextHandle := map[], 0;
    }

    /** A new handle, never one in use; none past the cap. */
    method Insert(node: Node) returns (h: Option<seq<byte>>)
      requires Valid() && nextHandle < U64 - 1 && if node.Opened? then node.path in files else node.next <= |node.names|
      modifies this`handles, this`nextHandle
      ensures Valid() && (h.None? <==> |old(handles)| >= MAX_HANDLES)
      ensures h.None? ==> View() == old(View())
      ensures h.Some? ==> h.value !in old(handles) && h.value == Decimal(old(nextHandle)) && View() == Inserted(old(View()), node)
    {
      if |handles| >= MAX_HANDLES {
        return None;
      }
      InsertedOk(View(), node);
      h := Some(Decimal(nextHandle));
      nextHandle := (nextHandle + 1) % U64;
      handles := handles[h.value := node];
    }

    method OpenFile(id: u32, path: seq<byte>, pflags: u32) returns (r: Reply)
      requires Valid() && nextHandle < U64 - 1
      modifies this
      ensures (View(), r) == OnOpen(old(View()), id, path, pflags)
      ensures if r.Handle? then r.handle !in old(handles) && r.handle in handles else View() == old(View())
    {
      hide Has, Openable, Decimal;
      if |handles| >= MAX_HANDLES {
        return Status(id, FAILURE, Said("too many open handles"));
      }
      if !Openable(pflags) || path in dirs || (Has(pflags, EXCL) && path in files) {
        return Status(id, FAILURE, Said("invalid argument"));
      }
      if path !in files && !Has(pflags, CREAT) && !Has(pflags, EXCL) {
        return Status(id, NO_SUCH_FILE, Said("no such file"));
      }
      if path !in files || Has(pflags, TRUNC) {
        files := files[path := []];
      }
      var node := Opened(path, Has(pflags, READING), Has(pflags, WRITING) || Has(pflags, APPEND), Has(pflags, APPEND));
      var h := Insert(node);
      return Handle(id, h.value);
    }

    method Close(id: u32, h: seq<byte>) returns (r: Reply)
      modifies this`handles
      ensures (View(), r) == OnClose(old(View()), id, h)
      ensures h !in handles && r.Status? && (r.code == OK <==> h in old(handles))
    {
      if h !in handles {
        return Status(id, FAILURE, Said("no such handle"));
      }
      handles := handles - {h};
      return Status(id, OK, Said("closed"));
    }

    method Write(id: u32, h: seq<byte>, offset: u64, data: seq<byte>) returns (r: Reply)
      modifies this`files
      ensures (View(), r) == OnPut(old(View()), id, h, offset, data)
      ensures r.Status? && (r.code != OK ==> files == old(files))
    {
      hide WriteAt;
      if h !in handles || !handles[h].Opened? || handles[h].path !in files {
        return Status(id, FAILURE, Said("not an open file"));
      }
      var node := handles[h];
      var at := if node.appends then |files[node.path]| else offset;
      if !node.writable || at + |data| >= U64 {
        return Status(id, FAILURE, Said("cannot write"));
      }
      files := files[node.path := WriteAt(files[node.path], at, data)];
      return Status(id, OK, Said("written"));
    }

    method OpenDir(id: u32, path: seq<byte>) returns (r: Reply)
      requires Valid() && nextHandle < U64 - 1
      modifies this`handles, this`nextHandle
      ensures (View(), r) == OnOpenDir(old(View()), id, path)
      ensures if r.Handle? then r.handle !in old(handles) && r.handle in handles else View() == old(View())
    {
      hide Decimal;
      if |handles| >= MAX_HANDLES {
        return Status(id, FAILURE, Said("too many open handles"));
      }
      if path !in dirs {
        return Status(id, NO_SUCH_FILE, Said("no such file"));
      }
      var h := Insert(Dir(path, dirs[path], 0));
      return Handle(id, h.value);
    }

    method ReadDir(id: u32, h: seq<byte>) returns (r: Reply)
      modifies this`handles
      ensures (View(), r) == OnReadDir(old(View()), longName, id, h)
    {
      hide Described;
      if h !in handles || !handles[h].Dir? {
        return Status(id, FAILURE, Said("not an open directory"));
      }
      var d := handles[h];
      if d.next >= |d.names| {
        return Status(id, EOF, Said("end of directory"));
      }
      var end := Min(d.next + BATCH, |d.names|);
      handles := handles[h := d.(next := end)];
      var batch := [];
      for k := d.next to end
        invariant handles == old(handles)[h := d.(next := end)]
        invariant batch == Described(stats, longName, d.path, d.names[d.next..k])
      {
        var name := d.names[k];
        DescribedPush(stats, longName, d.path, d.names[d.next..k], name);
        assert d.names[d.next..k] + [name] == d.names[d.next..k + 1];
        var attrs := if (d.path, name) in stats then stats[(d.path, name)] else NO_ATTRS;
        batch := batch + [Entry(name, longName(name, attrs), attrs)];
      }
      return Name(id, batch);
    }

    method Dispatch(r: Request, short: nat) returns (a: Reply)
      requires Valid() && nextHandle < U64 - 1
      modifies this
      ensures (View(), a) == Answer(old(View()), longName, r, short)
    {
      hide OnOpen, OnClose, OnGet, OnPut, OnOpenDir, OnReadDir;
      match r {
        case Open(id, path, pflags, _) => a := OpenFile(id, path, pflags);
        case Close(id, h) => a := Close(id, h);
        case Get(id, h, offset, len) => a := OnGet(World(files, dirs, stats, handles, nextHandle), id, h, offset, len, short);
        case Put(id, h, offset, data) => a := Write(id, h, offset, data);
        case OpenDir(id, path) => a := OpenDir(id, path);
        case ReadDir(id, h) => a := ReadDir(id, h);
      }
    }

    /** One turn of the loop: a packet's bytes in, a packet's bytes out. */
    method Turn(input: seq<byte>, short: nat) returns (output: Option<seq<byte>>)
      requires Valid() && nextHandle < U64 - 1
      modifies this
      ensures Valid() && (View(), output) == Served(old(View()), longName, input, short)
    {
      hide WorldOk, Answer, TakePacket, EncodePacket, ParseRequest, ReplyPacket, Complaint;
      var p := TakePacket(input);
      if p.None? {
        return None;
      }
      var asked := ParseRequest(p.value.value);
      RepliedOk(View(), longName, asked, short);
      var a;
      if asked.Asks? {
        a := Dispatch(asked.request, short);
      } else {
        a := Complaint(asked);
      }
      return Some(EncodePacket(ReplyPacket(a)));
    }
  }

  lemma {:induction false} DescribedPush(stats: Stats, longName: LongName, dir: seq<byte>, names: seq<Text>, name: Text)
    ensures Described(stats, longName, dir, names + [name]) == Described(stats, longName, dir, names) + [Describe(stats, longName, dir, name)]
  {
  }
}
