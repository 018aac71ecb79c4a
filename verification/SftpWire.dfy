/** SFTP version 3 on the wire (src/sftp/mod.rs, src/sftp/server.rs, src/sftp/client.rs): packets,
attributes, and the requests and replies of opening, reading, writing, listing and closing.

Each is written by a function and taken apart by another, and what is written is read back. A packet
is framed by its length; the writer does not check the ceiling that the reader enforces. */
module SftpWire {
  import opened Bytes
  import opened Wire

  const MAX_PACKET: nat := 0x4_0000

  /** Names and texts a host sends: UTF-8, and far below what a length can say. */
  const MAX_TEXT: nat := 0x100_0000

  predicate IsText(s: seq<byte>) {
    |s| < MAX_TEXT && IsUtf8(s)
  }

  // ------------------------------------------------------------ attributes

  /** A file's attributes, as many as were sent. */
  datatype Attrs = Attrs(size: Option<u64>, ids: Option<(u32, u32)>, permissions: Option<u32>, times: Option<(u32, u32)>)

  const SIZE: nat := 1
  const UIDGID: nat := 2
  const PERMISSIONS: nat := 4
  const ACMODTIME: nat := 8
  const EXTENDED: nat := 0x8000_0000

  predicate Has(flags: u32, bit: nat)
    requires bit > 0
  {
    flags / bit % 2 == 1
  }

  function Bit<T>(v: Option<T>, bit: nat): nat { if v.Some? then bit else 0 }

  function Flags(a: Attrs): u32 {
    Bit(a.size, 1) + Bit(a.ids, 2) + Bit(a.permissions, 4) + Bit(a.times, 8)
  }

  function Pair(p: (u32, u32)): seq<byte> { EncodeU32(p.0) + EncodeU32(p.1) }

  function EncodeAttrs(a: Attrs): seq<byte> {
    EncodeU32(Flags(a))
    + ((if a.size.Some? then EncodeU64(a.size.value) else [])
       + ((if a.ids.Some? then Pair(a.ids.value) else [])
          + ((if a.permissions.Some? then EncodeU32(a.permissions.value) else [])
             + (if a.times.Some? then Pair(a.times.value) else []))))
  }

  function TakePair(s: seq<byte>): Result<Read<(u32, u32)>> {
    var a :- TakeU32(s);
    var b :- TakeU32(a.rest);
    Ok(Read((a.value, b.value), b.rest))
  }

  function TakeSize(flags: u32, s: seq<byte>): Result<Read<Option<u64>>> {
    if !Has(flags, SIZE) then Ok(Read(None, s))
    else
      var v :- TakeU64(s);
      Ok(Read(Some(v.value), v.rest))
  }

  function TakePairIf(flags: u32, bit: nat, s: seq<byte>): Result<Read<Option<(u32, u32)>>>
    requires bit > 0
  {
    if !Has(flags, bit) then Ok(Read(None, s))
    else
      var v :- TakePair(s);
      Ok(Read(Some(v.value), v.rest))
  }

  function TakePermissions(flags: u32, s: seq<byte>): Result<Read<Option<u32>>> {
    if !Has(flags, PERMISSIONS) then Ok(Read(None, s))
    else
      var v :- TakeU32(s);
      Ok(Read(Some(v.value), v.rest))
  }

  /** Extended attributes are skipped: pairs of strings. */
  function SkipPairs(count: nat, s: seq<byte>): Result<seq<byte>> {
    if count == 0 then Ok(s)
    else
      var name :- TakeString(s);
      var value :- TakeString(name.rest);
      SkipPairs(count - 1, value.rest)
  }

  function SkipExtended(flags: u32, s: seq<byte>): Result<seq<byte>> {
    if !Has(flags, EXTENDED) then Ok(s)
    else
      var count :- TakeU32(s);
      SkipPairs(count.value, count.rest)
  }

  function TakeAttrs(s: seq<byte>): Result<Read<Attrs>> {
    var flags :- TakeU32(s);
    var size :- TakeSize(flags.value, flags.rest);
    var ids :- TakePairIf(flags.value, UIDGID, size.rest);
    var permissions :- TakePermissions(flags.value, ids.rest);
    var times :- TakePairIf(flags.value, ACMODTIME, permissions.rest);
    var rest :- SkipExtended(flags.value, times.rest);
    Ok(Read(Attrs(size.value, ids.value, permissions.value, times.value), rest))
  }

  /** Each bit of the flags says whether its part is there. */
  lemma FlagsTell(a: Attrs)
    ensures Has(Flags(a), SIZE) == a.size.Some? && Has(Flags(a), UIDGID) == a.ids.Some?
    ensures Has(Flags(a), PERMISSIONS) == a.permissions.Some? && Has(Flags(a), ACMODTIME) == a.times.Some?
    ensures !Has(Flags(a), EXTENDED)
  {
  }

  lemma TakesPair(p: (u32, u32), rest: seq<byte>)
    ensures TakePair(Pair(p) + rest) == Ok(Read(p, rest))
  {
    hide EncodeU32, TakeU32;
    Associative(EncodeU32(p.0), EncodeU32(p.1), rest);
    TakesU32(p.0, EncodeU32(p.1) + rest);
    TakesU32(p.1, rest);
  }

  /** What is written of a file's attributes is read back, whichever are present. */
  lemma AttrsReadBack(a: Attrs, rest: seq<byte>)
    ensures TakeAttrs(EncodeAttrs(a) + rest) == Ok(Read(a, rest))
  {
    hide EncodeU32, TakeU32, EncodeU64, TakeU64, Pair, TakePair, Has, Flags;
    FlagsTell(a);
    var t := if a.times.Some? then Pair(a.times.value) else [];
    var p := if a.permissions.Some? then EncodeU32(a.permissions.value) else [];
    var i := if a.ids.Some? then Pair(a.ids.value) else [];
    var z := if a.size.Some? then EncodeU64(a.size.value) else [];
    Associative(EncodeU32(Flags(a)), z + (i + (p + t)), rest);
    Associative(z, i + (p + t), rest);
    Associative(i, p + t, rest);
    Associative(p, t, rest);
    assert [] + rest == rest && [] + (t + rest) == t + rest;
    assert [] + (p + (t + rest)) == p + (t + rest) && [] + (i + (p + (t + rest))) == i + (p + (t + rest));
    TakesU32(Flags(a), z + (i + (p + (t + rest))));
    if a.size.Some? { TakesU64(a.size.value, i + (p + (t + rest))); }
    if a.ids.Some? { TakesPair(a.ids.value, p + (t + rest)); }
    if a.permissions.Some? { TakesU32(a.permissions.value, t + rest); }
    if a.times.Some? { TakesPair(a.times.value, rest); }
  }

  lemma AttrsSize(a: Attrs)
    ensures |EncodeAttrs(a)| <= 32
  {
  }

  // ------------------------------------------------------------ packets

  datatype Packet = Packet(kind: byte, payload: seq<byte>)

  /** Length, type and payload. The length is a 32-bit word, whatever the payload. */
  function EncodePacket(p: Packet): seq<byte> {
    EncodeU32((|p.payload| + 1) % 0x1_0000_0000) + ([p.kind] + p.payload)
  }

  /** A length of none, or over the ceiling, is refused. */
  function TakePacket(s: seq<byte>): Option<Read<Packet>> {
    match TakeU32(s)
    case Err(_) => None
    case Ok(len) =>
      if len.value == 0 || len.value > MAX_PACKET || |len.rest| < len.value then None
      else Some(Read(Packet(len.rest[0], len.rest[1..len.value]), len.rest[len.value..]))
  }

  predicate Fits(p: Packet) {
    |p.payload| < MAX_PACKET
  }

  /** A packet is read back off the stream exactly when it is below the ceiling. */
  lemma PacketReadsBack(p: Packet, rest: seq<byte>)
    requires |p.payload| < U32 - 1
    ensures TakePacket(EncodePacket(p) + rest) == if Fits(p) then Some(Read(p, rest)) else None
  {
    hide EncodeU32, TakeU32;
    var body := [p.kind] + p.payload;
    Associative(EncodeU32(|p.payload| + 1), body, rest);
    TakesU32(|p.payload| + 1, body + rest);
    if Fits(p) {
      assert (body + rest)[1..|body|] == p.payload && (body + rest)[|body|..] == rest;
    }
  }

  // ------------------------------------------------------------ requests

  const OPEN: byte := 3
  const CLOSE: byte := 4
  const READ: byte := 5
  const WRITE: byte := 6
  const OPENDIR: byte := 11
  const READDIR: byte := 12

  datatype Request =
    | Open(id: u32, path: seq<byte>, pflags: u32, attrs: Attrs)
    | Close(id: u32, handle: seq<byte>)
    | Get(id: u32, handle: seq<byte>, offset: u64, len: u32)
    | Put(id: u32, handle: seq<byte>, offset: u64, data: seq<byte>)
    | OpenDir(id: u32, path: seq<byte>)
    | ReadDir(id: u32, handle: seq<byte>)

  function KindOf(r: Request): byte {
    match r
    case Open(_, _, _, _) => OPEN
    case Close(_, _) => CLOSE
    case Get(_, _, _, _) => READ
    case Put(_, _, _, _) => WRITE
    case OpenDir(_, _) => OPENDIR
    case ReadDir(_, _) => READDIR
  }

  /** The path or the handle a request is about. */
  function Subject(r: Request): seq<byte> {
    if r.Open? || r.OpenDir? then r.path else r.handle
  }

  /** Lengths that their 32-bit fields, and the packet's, can say. */
  predicate Short(r: Request) {
    |Subject(r)| + (if r.Put? then |r.data| else 0) < U32 - 1024
  }

  /** What follows the subject. */
  function Tail(r: Request): (b: seq<byte>)
    requires Short(r)
    ensures |b| <= 36 + if r.Put? then |r.data| else 0
  {
    match r
    case Open(_, _, pflags, attrs) => AttrsSize(attrs); EncodeU32(pflags) + EncodeAttrs(attrs)
    case Get(_, _, offset, len) => EncodeU64(offset) + EncodeU32(len)
    case Put(_, _, offset, data) => EncodeU64(offset) + EncodeString(data)
    case _ => []
  }

  function RequestPacket(r: Request): (p: Packet)
    requires Short(r)
    ensures |p.payload| == 8 + |Subject(r)| + |Tail(r)| < U32 - 1
  {
    Packet(KindOf(r), EncodeU32(r.id) + (EncodeString(Subject(r)) + Tail(r)))
  }

  /** What the server makes of a packet. */
  datatype Parsed = Asks(request: Request) | NoId | Malformed(id: u32) | Unsupported(id: u32)

  predicate Known(kind: byte) {
    kind in {OPEN, CLOSE, READ, WRITE, OPENDIR, READDIR}
  }

  function TakeTail(kind: byte, id: u32, subject: seq<byte>, s: seq<byte>): Result<Request>
    requires Known(kind)
  {
    if kind == OPEN then
      var pflags :- TakeU32(s);
      var attrs :- TakeAttrs(pflags.rest);
      Ok(Open(id, subject, pflags.value, attrs.value))
    else if kind == CLOSE then Ok(Close(id, subject))
    else if kind == READ then
      var offset :- TakeU64(s);
      var len :- TakeU32(offset.rest);
      Ok(Get(id, subject, offset.value, len.value))
    else if kind == WRITE then
      var offset :- TakeU64(s);
      var data :- TakeString(offset.rest);
      Ok(Put(id, subject, offset.value, data.value))
    else if kind == OPENDIR then Ok(OpenDir(id, subject))
    else Ok(ReadDir(id, subject))
  }

  function ParseRequest(p: Packet): Parsed {
    match TakeU32(p.payload)
    case Err(_) => NoId
    case Ok(id) =>
      if !Known(p.kind) then Unsupported(id.value)
      else match TakeUtf8(id.rest)
        case Err(_) => Malformed(id.value)
        case Ok(subject) =>
          match TakeTail(p.kind, id.value, subject.value, subject.rest)
          case Err(_) => Malformed(id.value)
          case Ok(r) => Asks(r)
  }

  lemma TailReadsBack(r: Request)
    requires Short(r)
    ensures TakeTail(KindOf(r), r.id, Subject(r), Tail(r)) == Ok(r)
  {
    hide EncodeU32, TakeU32, EncodeU64, TakeU64, EncodeString, TakeString, EncodeAttrs, TakeAttrs;
    match r
    case Open(_, _, pflags, attrs) =>
      assert EncodeAttrs(attrs) + [] == EncodeAttrs(attrs);
      TakesU32(pflags, EncodeAttrs(attrs));
      AttrsReadBack(attrs, []);
    case Get(_, _, offset, len) =>
      assert EncodeU32(len) + [] == EncodeU32(len);
      TakesU64(offset, EncodeU32(len));
      TakesU32(len, []);
    case Put(_, _, offset, data) =>
      assert EncodeString(data) + [] == EncodeString(data);
      TakesU64(offset, EncodeString(data));
      TakesString(data, []);
    case _ =>
  }

  /** A request is read as it was written; one whose subject is not UTF-8 is malformed. */
  lemma RequestReadsBack(r: Request)
    requires Short(r)
    ensures ParseRequest(RequestPacket(r)) == if IsUtf8(Subject(r)) then Asks(r) else Malformed(r.id)
  {
    hide EncodeU32, TakeU32, EncodeString, TakeString, IsUtf8, Tail, TakeTail;
    TakesU32(r.id, EncodeString(Subject(r)) + Tail(r));
    TakesString(Subject(r), Tail(r));
    TailReadsBack(r);
  }

  // ------------------------------------------------------------ entries of a listing

  /** One name of a listing. */
  datatype Entry = Entry(name: seq<byte>, longName: seq<byte>, attrs: Attrs)

  predicate Sendable(e: Entry) {
    IsText(e.name) && IsText(e.longName)
  }

  predicate AllSendable(entries: seq<Entry>) {
    forall k :: 0 <= k < |entries| ==> Sendable(entries[k])
  }

  function EncodeEntry(e: Entry): seq<byte>
    requires Sendable(e)
  {
    EncodeString(e.name) + (EncodeString(e.longName) + EncodeAttrs(e.attrs))
  }

  function EncodeEntries(entries: seq<Entry>): seq<byte>
    requires AllSendable(entries)
  {
    if entries == [] then [] else EncodeEntry(entries[0]) + EncodeEntries(entries[1..])
  }

  function TakeEntry(s: seq<byte>): Result<Read<Entry>> {
    var name :- TakeUtf8(s);
    var longName :- TakeUtf8(name.rest);
    var attrs :- TakeAttrs(longName.rest);
    Ok(Read(Entry(name.value, longName.value, attrs.value), attrs.rest))
  }

  function TakeEntries(count: nat, s: seq<byte>): Result<Read<seq<Entry>>> {
    if count == 0 then Ok(Read([], s))
    else
      var first :- TakeEntry(s);
      var more :- TakeEntries(count - 1, first.rest);
      Ok(Read([first.value] + more.value, more.rest))
  }

  lemma EntryReadsBack(e: Entry, rest: seq<byte>)
    requires Sendable(e)
    ensures TakeEntry(EncodeEntry(e) + rest) == Ok(Read(e, rest))
  {
    hide EncodeString, TakeUtf8, IsUtf8, EncodeAttrs, TakeAttrs;
    var attrs := EncodeAttrs(e.attrs);
    Associative(EncodeString(e.name), EncodeString(e.longName) + attrs, rest);
    Associative(EncodeString(e.longName), attrs, rest);
    TakesString(e.name, EncodeString(e.longName) + (attrs + rest));
    TakesString(e.longName, attrs + rest);
    AttrsReadBack(e.attrs, rest);
  }

  /** A batch of names, with their attributes, is read as it was written. */
  lemma {:induction false} EntriesReadBack(entries: seq<Entry>, rest: seq<byte>)
    requires AllSendable(entries)
    ensures TakeEntries(|entries|, EncodeEntries(entries) + rest) == Ok(Read(entries, rest))
  {
    hide TakeEntry, EncodeEntry, Sendable;
    if entries == [] {
      assert [] + rest == rest;
    } else {
      var more := entries[1..];
      EntryReadsBack(entries[0], EncodeEntries(more) + rest);
      Associative(EncodeEntry(entries[0]), EncodeEntries(more), rest);
      EntriesReadBack(more, rest);
      assert entries == [entries[0]] + more;
    }
  }

  const ENTRY_MAX: nat := 2 * MAX_TEXT + 40

  lemma EntrySize(e: Entry)
    requires Sendable(e)
    ensures |EncodeEntry(e)| <= ENTRY_MAX
  {
    hide IsUtf8, EncodeAttrs;
    AttrsSize(e.attrs);
  }

  lemma {:induction false} EntriesSize(entries: seq<Entry>)
    requires AllSendable(entries)
    ensures |EncodeEntries(entries)| <= |entries| * ENTRY_MAX
  {
    hide EncodeEntry, Sendable;
    if entries != [] {
      EntrySize(entries[0]);
      EntriesSize(entries[1..]);
    }
  }

  // ------------------------------------------------------------ replies

  const STATUS: byte := 101
  const HANDLE: byte := 102
  const DATA: byte := 103
  const NAME: byte := 104

  datatype Reply =
    | Status(id: u32, code: u32, message: seq<byte>)
    | Handle(id: u32, handle: seq<byte>)
    | Data(id: u32, data: seq<byte>)
    | Name(id: u32, entries: seq<Entry>)

  /** Texts are texts, data is below the ceiling, and a batch is 64 names at most. */
  predicate Sound(r: Reply) {
    match r
    case Status(_, _, message) => IsText(message)
    case Handle(_, handle) => IsText(handle)
    case Data(_, data) => |data| < MAX_PACKET
    case Name(_, entries) => |entries| <= 64 && AllSendable(entries)
  }

  function ReplyPacket(r: Reply): (p: Packet)
    requires Sound(r)
    ensures |p.payload| < U32 - 1
  {
    match r
    case Status(id, code, message) =>
      Packet(STATUS, EncodeU32(id) + (EncodeU32(code) + (EncodeString(message) + EncodeString([]))))
    case Handle(id, handle) => Packet(HANDLE, EncodeU32(id) + EncodeString(handle))
    case Data(id, data) => Packet(DATA, EncodeU32(id) + EncodeString(data))
    case Name(id, entries) =>
      EntriesSize(entries);
      Packet(NAME, EncodeU32(id) + (EncodeU32(|entries|) + EncodeEntries(entries)))
  }

  /** What a client takes out of a reply; the id is skipped. */
  function StatusIn(payload: seq<byte>): Result<u32> {
    var id :- TakeU32(payload);
    var code :- TakeU32(id.rest);
    Ok(code.value)
  }

  function StringIn(payload: seq<byte>): Result<seq<byte>> {
    var id :- TakeU32(payload);
    var text :- TakeString(id.rest);
    Ok(text.value)
  }

  function NamesIn(payload: seq<byte>): Result<seq<Entry>> {
    var id :- TakeU32(payload);
    var count :- TakeU32(id.rest);
    var entries :- TakeEntries(count.value, count.rest);
    Ok(entries.value)
  }

  /** A reply is read as it was written. */
  lemma ReplyReadsBack(r: Reply)
    requires Sound(r)
    ensures var p := ReplyPacket(r);
      match r
      case Status(_, code, _) => p.kind == STATUS && StatusIn(p.payload) == Ok(code)
      case Handle(_, handle) => p.kind == HANDLE && StringIn(p.payload) == Ok(handle)
      case Data(_, data) => p.kind == DATA && StringIn(p.payload) == Ok(data)
      case Name(_, entries) => p.kind == NAME && NamesIn(p.payload) == Ok(entries)
  {
    hide EncodeU32, TakeU32, EncodeString, TakeString, TakeEntries, EncodeEntries, IsUtf8;
    match r
    case Status(id, code, message) =>
      var rest := EncodeString(message) + EncodeString([]);
      TakesU32(id, EncodeU32(code) + rest);
      TakesU32(code, rest);
    case Handle(id, handle) =>
      assert EncodeString(handle) + [] == EncodeString(handle);
      TakesU32(id, EncodeString(handle));
      TakesString(handle, []);
    case Data(id, data) =>
      assert EncodeString(data) + [] == EncodeString(data);
      TakesU32(id, EncodeString(data));
      TakesString(data, []);
    case Name(id, entries) =>
      assert EncodeEntries(entries) + [] == EncodeEntries(entries);
      TakesU32(id, EncodeU32(|entries|) + EncodeEntries(entries));
      TakesU32(|entries|, EncodeEntries(entries));
      EntriesReadBack(entries, []);
  }
}
