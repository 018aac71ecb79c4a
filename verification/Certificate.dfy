/** Certificates (src/crypto/cert.rs): signing one and parsing it back, with the CA's signature checked
over exactly the bytes it was made on. */
module Certificate {
  import opened Bytes
  import opened Wire

  type Text = seq<byte>

  function Ascii(s: string): Text {
    seq(|s|, i requires 0 <= i < |s| => if s[i] as int < 128 then s[i] as int else 0)
  }

  const CERT_ALGO: Text := Ascii("ssh-ed25519-cert-v01@openssh.com")
  const SK_CERT_ALGO: Text := Ascii("sk-ssh-ed25519-cert-v01@openssh.com")
  const KEY_ALGO: Text := Ascii("ssh-ed25519")
  const FORCE_COMMAND: Text := Ascii("force-command")
  const SOURCE_ADDRESS: Text := Ascii("source-address")
  const CERT_TYPE_USER: u32 := 1
  const CERT_TYPE_HOST: u32 := 2

  const EXTENSIONS: seq<Text> := [
    Ascii("permit-X11-forwarding"), Ascii("permit-agent-forwarding"), Ascii("permit-port-forwarding"),
    Ascii("permit-pty"), Ascii("permit-user-rc")]

  /** The signature scheme: which 32 bytes are a point, the point of a CA's key, and its signatures. */
  datatype Scheme = Scheme(
    isPoint: seq<byte> -> bool,
    point: nat -> seq<byte>,
    sign: (nat, seq<byte>) -> seq<byte>,
    verify: (seq<byte>, seq<byte>, seq<byte>) -> bool)

  /** A CA's point is a point, and what it signs verifies. */
  ghost predicate Lawful(c: Scheme) {
    && (forall ca: nat :: |c.point(ca)| == 32 && c.isPoint(c.point(ca)))
    && (forall ca: nat, m: seq<byte> :: |c.sign(ca, m)| < U32 && c.verify(c.point(ca), m, c.sign(ca, m)))
  }

  datatype Options = Options(force: Option<Text>, source: Option<Text>)

  /** What a certificate says. */
  datatype Fields = Fields(
    key: seq<byte>, application: Option<Text>, serial: u64, certType: u32, keyId: Text,
    principals: seq<Text>, after: u64, before: u64, options: Options)

  datatype Certificate = Certificate(fields: Fields, ca: seq<byte>, blob: seq<byte>)

  // ------------------------------------------------------------ lists and options

  /** A text that a string field can carry. */
  predicate Writable(t: Text) { |t| < U32 && IsUtf8(t) }

  predicate AllWritable(items: seq<Text>) {
    forall k :: 0 <= k < |items| ==> Writable(items[k])
  }

  function Pack(items: seq<Text>): seq<byte>
    requires AllWritable(items)
  {
    if items == [] then [] else EncodeString(items[0]) + Pack(items[1..])
  }

  function ReadList(s: seq<byte>): Option<seq<Text>>
    decreases |s|
  {
    if s == [] then Some([])
    else match TakeUtf8(s)
      case Err(_) => None
      case Ok(item) =>
        var more :- ReadList(item.rest);
        Some([item.value] + more)
  }

  lemma {:induction false} ListReadsBack(items: seq<Text>)
    requires AllWritable(items)
    ensures ReadList(Pack(items)) == Some(items)
  {
    hide IsUtf8, TakeUtf8, EncodeString;
    if items != [] {
      ListReadsBack(items[1..]);
      TakesString(items[0], Pack(items[1..]));
      assert |EncodeString(items[0])| > 0;
      assert items == [items[0]] + items[1..];
    }
  }

  /** Bytewise order of texts, as Rust orders its strings. */
  predicate Less(a: Text, b: Text) {
    b != [] && (a == [] || a[0] < b[0] || (a[0] == b[0] && Less(a[1..], b[1..])))
  }

  /** An option's value is one string inside its data, and nothing more. */
  function OptionValue(data: seq<byte>): Option<Text> {
    match TakeUtf8(data)
    case Err(_) => None
    case Ok(v) => if v.rest == [] then Some(v.value) else None
  }

  /** Options in strictly ascending order of name; any but the two known refuses the certificate. */
  function ParseOptions(s: seq<byte>, last: Option<Text>, so: Options): Option<Options>
    decreases |s|
  {
    if s == [] then Some(so)
    else match TakeUtf8(s)
      case Err(_) => None
      case Ok(name) =>
        if last.Some? && !Less(last.value, name.value) then None
        else match TakeString(name.rest)
          case Err(_) => None
          case Ok(data) =>
            var v :- OptionValue(data.value);
            if name.value == FORCE_COMMAND then ParseOptions(data.rest, Some(name.value), so.(force := Some(v)))
            else if name.value == SOURCE_ADDRESS then ParseOptions(data.rest, Some(name.value), so.(source := Some(v)))
            else None
  }

  function EncodeOption(name: Text, value: Option<Text>): seq<byte>
    requires |name| < U32 && (value.Some? ==> |value.value| < U32 - 4)
  {
    if value.None? then [] else EncodeString(name) + EncodeString(EncodeString(value.value))
  }

  predicate WritableOption(v: Option<Text>) { v.Some? ==> IsUtf8(v.value) && |v.value| < U32 - 4 }

  function EncodeOptions(o: Options): seq<byte>
    requires WritableOption(o.force) && WritableOption(o.source)
  {
    EncodeOption(FORCE_COMMAND, o.force) + EncodeOption(SOURCE_ADDRESS, o.source)
  }

  lemma AsciiWritable(s: string)
    requires |s| < U32
    ensures Writable(Ascii(s))
  {
    AsciiIsUtf8(Ascii(s));
  }

  /** One option written is one option read. */
  lemma OptionReadsBack(name: Text, value: Text, rest: seq<byte>)
    requires Writable(name) && IsUtf8(value) && |value| < U32 - 4
    ensures var s := EncodeOption(name, Some(value)) + rest;
      && s != [] && TakeUtf8(s) == Ok(Read(name, EncodeString(EncodeString(value)) + rest))
      && TakeString(EncodeString(EncodeString(value)) + rest) == Ok(Read(EncodeString(value), rest))
      && OptionValue(EncodeString(value)) == Some(value)
  {
    hide IsUtf8, TakeUtf8, TakeString, EncodeString;
    var data := EncodeString(value);
    Associative(EncodeString(name), EncodeString(data), rest);
    TakesString(name, EncodeString(data) + rest);
    TakesString(data, rest);
    TakesString(value, []);
    assert data + [] == data;
    assert |EncodeString(name)| > 0;
  }

  lemma NamesOrdered()
    ensures Writable(FORCE_COMMAND) && Writable(SOURCE_ADDRESS)
    ensures Less(FORCE_COMMAND, SOURCE_ADDRESS) && FORCE_COMMAND != SOURCE_ADDRESS
  {
    AsciiWritable("force-command");
    AsciiWritable("source-address");
    assert FORCE_COMMAND[0] == 'f' as int && SOURCE_ADDRESS[0] == 's' as int;
  }

  lemma SourceReadsBack(last: Option<Text>, so: Options, source: Option<Text>)
    requires WritableOption(source) && (last.None? || last.value == FORCE_COMMAND)
    ensures ParseOptions(EncodeOption(SOURCE_ADDRESS, source), last, so)
      == Some(if source.None? then so else so.(source := source))
  {
    hide IsUtf8, TakeUtf8, TakeString, EncodeString, OptionValue, Less;
    NamesOrdered();
    if source.Some? {
      var s := EncodeOption(SOURCE_ADDRESS, source);
      assert s + [] == s;
      OptionReadsBack(SOURCE_ADDRESS, source.value, []);
    }
  }

  lemma OptionsReadBack(o: Options)
    requires WritableOption(o.force) && WritableOption(o.source)
    ensures ParseOptions(EncodeOptions(o), None, Options(None, None)) == Some(o)
  {
    hide IsUtf8, TakeUtf8, TakeString, EncodeString, OptionValue, Less;
    NamesOrdered();
    var rest := EncodeOption(SOURCE_ADDRESS, o.source);
    if o.force.Some? {
      OptionReadsBack(FORCE_COMMAND, o.force.value, rest);
      SourceReadsBack(Some(FORCE_COMMAND), Options(o.force, None), o.source);
    } else {
      assert EncodeOptions(o) == rest;
      SourceReadsBack(None, Options(None, None), o.source);
    }
  }

  // ------------------------------------------------------------ the certificate, part by part

  function ToOption<T>(r: Result<T>): Option<T> { if r.Ok? then Some(r.value) else None }

  function KeyBlob(point: seq<byte>): seq<byte>
    requires |point| < U32
  {
    EncodeString(KEY_ALGO) + EncodeString(point)
  }

  function ParseKeyBlob(c: Scheme, s: seq<byte>): Option<seq<byte>> {
    var algo :- ToOption(TakeUtf8(s));
    if algo.value != KEY_ALGO then None
    else
      var raw :- ToOption(TakeString(algo.rest));
      if |raw.value| == 32 && raw.rest == [] && c.isPoint(raw.value) then Some(raw.value) else None
  }

  /** The key and, for a security key, its application. */
  datatype Head = Head(key: seq<byte>, application: Option<Text>)

  function EncodeHead(h: Head, nonce: seq<byte>): seq<byte>
    requires |nonce| < U32 && |h.key| < U32 && (h.application.Some? ==> |h.application.value| < U32)
  {
    EncodeString(if h.application.Some? then SK_CERT_ALGO else CERT_ALGO)
    + (EncodeString(nonce)
       + (EncodeString(h.key) + (if h.application.Some? then EncodeString(h.application.value) else [])))
  }

  function TakeHead(c: Scheme, s: seq<byte>): (r: Option<Read<Head>>)
    ensures r.Some? ==> |r.value.rest| <= |s|
  {
    var algo :- ToOption(TakeUtf8(s));
    if algo.value != CERT_ALGO && algo.value != SK_CERT_ALGO then None
    else
      var nonce :- ToOption(TakeString(algo.rest));
      var key :- ToOption(TakeString(nonce.rest));
      if |key.value| != 32 || !c.isPoint(key.value) then None
      else if algo.value == CERT_ALGO then Some(Read(Head(key.value, None), key.rest))
      else
        var app :- ToOption(TakeUtf8(key.rest));
        Some(Read(Head(key.value, Some(app.value)), app.rest))
  }

  /** Serial, type, id, principals and validity. */
  datatype Middle = Middle(serial: u64, certType: u32, keyId: Text, principals: seq<byte>, after: u64, before: u64)

  function EncodeMiddle(m: Middle): seq<byte>
    requires |m.keyId| < U32 && |m.principals| < U32
  {
    EncodeU64(m.serial) + (EncodeU32(m.certType) + (EncodeString(m.keyId)
      + (EncodeString(m.principals) + (EncodeU64(m.after) + EncodeU64(m.before)))))
  }

  function TakeMiddle(s: seq<byte>): (r: Option<Read<Middle>>)
    ensures r.Some? ==> |r.value.rest| <= |s|
  {
    var serial :- ToOption(TakeU64(s));
    var certType :- ToOption(TakeU32(serial.rest));
    var keyId :- ToOption(TakeUtf8(certType.rest));
    var principals :- ToOption(TakeString(keyId.rest));
    var after :- ToOption(TakeU64(principals.rest));
    var before :- ToOption(TakeU64(after.rest));
    Some(Read(Middle(serial.value, certType.value, keyId.value, principals.value, after.value, before.value), before.rest))
  }

  /** Critical options, extensions, a reserved string, and the CA's key. */
  datatype Tail = Tail(critical: seq<byte>, extensions: seq<byte>, ca: seq<byte>)

  function EncodeTail(t: Tail): seq<byte>
    requires |t.critical| < U32 && |t.extensions| < U32 && |t.ca| < U32
  {
    EncodeString(t.critical) + (EncodeString(t.extensions) + (EncodeString([]) + EncodeString(t.ca)))
  }

  function TakeTail(s: seq<byte>): (r: Option<Read<Tail>>)
    ensures r.Some? ==> |r.value.rest| <= |s|
  {
    var critical :- ToOption(TakeString(s));
    var extensions :- ToOption(TakeString(critical.rest));
    var reserved :- ToOption(TakeString(extensions.rest));
    var ca :- ToOption(TakeString(reserved.rest));
    Some(Read(Tail(critical.value, extensions.value, ca.value), ca.rest))
  }

  /** Everything the CA signs. */
  datatype Body = Body(head: Head, middle: Middle, tail: Tail)

  function TakeBody(c: Scheme, s: seq<byte>): (r: Option<Read<Body>>)
    ensures r.Some? ==> |r.value.rest| <= |s|
  {
    var head :- TakeHead(c, s);
    var middle :- TakeMiddle(head.rest);
    var tail :- TakeTail(middle.rest);
    Some(Read(Body(head.value, middle.value, tail.value), tail.rest))
  }

  /** The fields of a certificate whose CA's signature over `signed` holds; `None` refuses it. */
  function Judged(c: Scheme, b: Body, signed: seq<byte>, signature: seq<byte>, blob: seq<byte>): Option<Certificate> {
    var principals :- ReadList(b.middle.principals);
    var ca :- ParseKeyBlob(c, b.tail.ca);
    if !c.verify(ca, signed, signature) then None
    else
      var options :- ParseOptions(b.tail.critical, None, Options(None, None));
      var m := b.middle;
      Some(Certificate(
        Fields(b.head.key, b.head.application, m.serial, m.certType, m.keyId, principals, m.after, m.before, options), ca, blob))
  }

  /** Parse a certificate and check its CA's signature over the bytes before it. */
  function ParseAndVerify(c: Scheme, blob: seq<byte>): Option<Certificate> {
    var body :- TakeBody(c, blob);
    var signature :- TakeSignature(body.rest);
    Judged(c, body.value, blob[..|blob| - |body.rest|], signature, blob)
  }

  // ------------------------------------------------------------ signing

  function Extensions(names: seq<Text>): seq<byte>
    requires forall k :: 0 <= k < |names| ==> |names[k]| < U32
  {
    if names == [] then [] else EncodeString(names[0]) + (EncodeString([]) + Extensions(names[1..]))
  }

  lemma ExtensionsShort()
    ensures forall k :: 0 <= k < |EXTENSIONS| ==> |EXTENSIONS[k]| < U32
    ensures |Extensions(EXTENSIONS)| < U32
  {
    var e := EXTENSIONS;
    assert |e[0]| < 32 && |e[1]| < 32 && |e[2]| < 32 && |e[3]| < 32 && |e[4]| < 32;
    assert e[1..] == [e[1], e[2], e[3], e[4]] && e[1..][1..] == [e[2], e[3], e[4]];
    ExtensionsLength(e);
  }

  lemma {:induction false} ExtensionsLength(names: seq<Text>)
    requires forall k :: 0 <= k < |names| ==> |names[k]| < 32
    ensures |Extensions(names)| <= 40 * |names|
  {
    if names != [] { ExtensionsLength(names[1..]); }
  }

  /** Fields whose every part fits its length prefix; what texts they hold are texts. */
  predicate Signable(c: Scheme, f: Fields) {
    && |f.key| == 32 && c.isPoint(f.key)
    && (f.application.Some? ==> Writable(f.application.value))
    && Writable(f.keyId) && AllWritable(f.principals) && |Pack(f.principals)| < U32
    && WritableOption(f.options.force) && WritableOption(f.options.source) && |EncodeOptions(f.options)| < U32
  }

  function HeadOf(f: Fields): Head { Head(f.key, f.application) }

  function MiddleOf(f: Fields): Middle
    requires AllWritable(f.principals)
  {
    Middle(f.serial, f.certType, f.keyId, Pack(f.principals), f.after, f.before)
  }

  function TailOf(f: Fields, ca: seq<byte>): Tail
    requires WritableOption(f.options.force) && WritableOption(f.options.source) && |ca| == 32
  {
    ExtensionsShort();
    Tail(EncodeOptions(f.options), if f.certType == CERT_TYPE_USER then Extensions(EXTENSIONS) else [], KeyBlob(ca))
  }

  /** The bytes a CA signs. */
  function SignedBody(c: Scheme, ca: seq<byte>, f: Fields, nonce: seq<byte>): seq<byte>
    requires Signable(c, f) && |nonce| == 32 && |ca| == 32
  {
    ExtensionsShort();
    EncodeHead(HeadOf(f), nonce) + (EncodeMiddle(MiddleOf(f)) + EncodeTail(TailOf(f, ca)))
  }

  function SignCert(c: Scheme, ca: nat, f: Fields, nonce: seq<byte>): seq<byte>
    requires Signable(c, f) && |nonce| == 32 && |c.point(ca)| == 32
    requires |c.sign(ca, SignedBody(c, c.point(ca), f, nonce))| < U32
  {
    var body := SignedBody(c, c.point(ca), f, nonce);
    body + EncodeString(c.sign(ca, body))
  }

  // ------------------------------------------------------------ round trip

  lemma HeadReadsBack(c: Scheme, h: Head, nonce: seq<byte>, rest: seq<byte>)
    requires |nonce| == 32 && |h.key| == 32 && c.isPoint(h.key) && (h.application.Some? ==> Writable(h.application.value))
    ensures TakeHead(c, EncodeHead(h, nonce) + rest) == Some(Read(h, rest))
  {
    hide IsUtf8, TakeUtf8, TakeString, EncodeString;
    AlgosDiffer();
    var algo := if h.application.Some? then SK_CERT_ALGO else CERT_ALGO;
    var app := if h.application.Some? then EncodeString(h.application.value) else [];
    Associative(EncodeString(algo), EncodeString(nonce) + (EncodeString(h.key) + app), rest);
    Associative(EncodeString(nonce), EncodeString(h.key) + app, rest);
    Associative(EncodeString(h.key), app, rest);
    TakesString(algo, EncodeString(nonce) + (EncodeString(h.key) + (app + rest)));
    TakesString(nonce, EncodeString(h.key) + (app + rest));
    TakesString(h.key, app + rest);
    if h.application.Some? { TakesString(h.application.value, rest); } else { assert app + rest == rest; }
  }

  lemma AlgosDiffer()
    ensures Writable(CERT_ALGO) && Writable(SK_CERT_ALGO) && Writable(KEY_ALGO) && CERT_ALGO != SK_CERT_ALGO
  {
    AsciiWritable("ssh-ed25519-cert-v01@openssh.com");
    AsciiWritable("sk-ssh-ed25519-cert-v01@openssh.com");
    AsciiWritable("ssh-ed25519");
    assert |CERT_ALGO| == 32 && |SK_CERT_ALGO| == 35;
  }

  lemma MiddleReadsBack(m: Middle, rest: seq<byte>)
    requires Writable(m.keyId) && |m.principals| < U32
    ensures TakeMiddle(EncodeMiddle(m) + rest) == Some(Read(m, rest))
  {
    hide IsUtf8, TakeUtf8, TakeString, EncodeString, TakeU64, EncodeU64, TakeU32, EncodeU32;
    var d := EncodeU64(m.after) + EncodeU64(m.before);
    var b := EncodeString(m.keyId) + (EncodeString(m.principals) + d);
    Associative(EncodeU64(m.serial), EncodeU32(m.certType) + b, rest);
    Associative(EncodeU32(m.certType), b, rest);
    Associative(EncodeString(m.keyId), EncodeString(m.principals) + d, rest);
    Associative(EncodeString(m.principals), d, rest);
    Associative(EncodeU64(m.after), EncodeU64(m.before), rest);
    TakesU64(m.serial, EncodeU32(m.certType) + (b + rest));
    TakesU32(m.certType, b + rest);
    TakesString(m.keyId, EncodeString(m.principals) + (d + rest));
    TakesString(m.principals, d + rest);
    TakesU64(m.after, EncodeU64(m.before) + rest);
    TakesU64(m.before, rest);
  }

  lemma TailReadsBack(t: Tail, rest: seq<byte>)
    requires |t.critical| < U32 && |t.extensions| < U32 && |t.ca| < U32
    ensures TakeTail(EncodeTail(t) + rest) == Some(Read(t, rest))
  {
    hide TakeString, EncodeString;
    var last := EncodeString([]) + EncodeString(t.ca);
    Associative(EncodeString(t.critical), EncodeString(t.extensions) + last, rest);
    Associative(EncodeString(t.extensions), last, rest);
    Associative(EncodeString([]), EncodeString(t.ca), rest);
    TakesString(t.critical, EncodeString(t.extensions) + (last + rest));
    TakesString(t.extensions, last + rest);
    TakesString([], EncodeString(t.ca) + rest);
    TakesString(t.ca, rest);
  }

  lemma KeyReadsBack(c: Scheme, point: seq<byte>)
    requires |point| == 32 && c.isPoint(point)
    ensures ParseKeyBlob(c, KeyBlob(point)) == Some(point)
  {
    hide IsUtf8, TakeUtf8, TakeString, EncodeString;
    AlgosDiffer();
    TakesString(KEY_ALGO, EncodeString(point));
    TakesString(point, []);
    assert EncodeString(point) + [] == EncodeString(point);
  }

  lemma BodyReadsBack(c: Scheme, ca: seq<byte>, f: Fields, nonce: seq<byte>, rest: seq<byte>)
    requires Signable(c, f) && |nonce| == 32 && |ca| == 32
    ensures TakeBody(c, SignedBody(c, ca, f, nonce) + rest) == Some(Read(Body(HeadOf(f), MiddleOf(f), TailOf(f, ca)), rest))
  {
    hide EncodeHead, EncodeMiddle, EncodeTail, TakeHead, TakeMiddle, TakeTail, Pack, EncodeOptions, Extensions;
    ExtensionsShort();
    var h, m, t := HeadOf(f), MiddleOf(f), TailOf(f, ca);
    Associative(EncodeHead(h, nonce), EncodeMiddle(m) + EncodeTail(t), rest);
    Associative(EncodeMiddle(m), EncodeTail(t), rest);
    HeadReadsBack(c, h, nonce, EncodeMiddle(m) + (EncodeTail(t) + rest));
    MiddleReadsBack(m, EncodeTail(t) + rest);
    TailReadsBack(t, rest);
  }

  /** Signing and parsing undo each other: every field comes back, for either kind of key, and the bytes
  whose signature is checked are exactly those the CA signed. */
  lemma SignedReadsBack(c: Scheme, ca: nat, f: Fields, nonce: seq<byte>)
    requires Lawful(c) && Signable(c, f) && |nonce| == 32
    ensures |c.point(ca)| == 32 && |c.sign(ca, SignedBody(c, c.point(ca), f, nonce))| < U32
    ensures var blob := SignCert(c, ca, f, nonce);
      && ParseAndVerify(c, blob) == Some(Certificate(f, c.point(ca), blob))
      && TakeBody(c, blob).Some?
      && blob[..|blob| - |TakeBody(c, blob).value.rest|] == SignedBody(c, c.point(ca), f, nonce)
  {
    hide Signable, SignedBody, TakeBody, ParseOptions, ReadList, ParseKeyBlob, TakeString, EncodeString, KeyBlob;
    var point := c.point(ca);
    assert |point| == 32 && c.isPoint(point);
    var body := SignedBody(c, point, f, nonce);
    var sig := c.sign(ca, body);
    var blob := SignCert(c, ca, f, nonce);
    BodyReadsBack(c, point, f, nonce, EncodeString(sig));
    TakesString(sig, []);
    assert EncodeString(sig) + [] == EncodeString(sig);
    assert blob[..|blob| - |EncodeString(sig)|] == body;
    SignableParts(c, f);
    ListReadsBack(f.principals);
    OptionsReadBack(f.options);
    KeyReadsBack(c, point);
  }

  lemma SignableParts(c: Scheme, f: Fields)
    requires Signable(c, f)
    ensures AllWritable(f.principals) && WritableOption(f.options.force) && WritableOption(f.options.source)
  {
  }

  // ------------------------------------------------------------ off a cursor, and into a buffer

  /** What was read is what `spec` reads, and the cursor stands after it. */
  ghost predicate Got<T>(r: Reader, v: Option<T>, spec: Option<Read<T>>)
    reads r
  {
    r.Valid() && (v.Some? <==> spec.Some?) && (v.Some? ==> v.value == spec.value.value && r.Left() == spec.value.rest)
  }

  method ReadListRun(r: Reader) returns (items: Option<seq<Text>>)
    requires r.Valid()
    modifies r
    ensures items == ReadList(old(r.Left()))
  {
    hide TakeUtf8, ReadList;
    var got: seq<Text> := [];
    Onto([], [], ReadList(r.Left()));
    while r.pos < |r.buf|
      invariant r.Valid() && ReadList(old(r.Left())) == After(got, ReadList(r.Left()))
      decreases |r.Left()|
    {
      ListStep(r.Left());
      var item := r.ReadUtf8();
      if item.Err? {
        return None;
      }
      Onto(got, item.value, ReadList(r.Left()));
      got := got + [item.value];
    }
    ListEnd();
    assert got + [] == got;
    return Some(got);
  }

  method ReadStringList(s: seq<byte>) returns (items: Option<seq<Text>>)
    ensures items == ReadList(s)
  {
    var r := new Reader(s);
    items := ReadListRun(r);
  }

  function After(front: seq<Text>, back: Option<seq<Text>>): Option<seq<Text>> {
    if back.None? then None else Some(front + back.value)
  }

  lemma Onto(front: seq<Text>, x: Text, back: Option<seq<Text>>)
    ensures After(front, After([x], back)) == After(front + [x], back) && After([], back) == back
  {
    if back.Some? {
      Associative(front, [x], back.value);
      assert [] + back.value == back.value;
    }
  }

  lemma ListStep(s: seq<byte>)
    requires s != []
    ensures var item := TakeUtf8(s);
      if item.Err? then ReadList(s).None?
      else ReadList(s) == After([item.value.value], ReadList(item.value.rest)) && |item.value.rest| < |s|
  {
  }

  lemma ListEnd()
    ensures ReadList([]) == Some([])
  {
  }

  /** Pack a list of strings. */
  method PackStringList(items: seq<Text>) returns (b: seq<byte>)
    requires AllWritable(items)
    ensures b == Pack(items)
  {
    hide IsUtf8, EncodeString;
    var w := new Writer();
    assert items[0..] == items;
    for k := 0 to |items|
      invariant fresh(w) && AllWritable(items[k..]) && w.buf + Pack(items[k..]) == Pack(items)
    {
      assert items[k..][0] == items[k] && items[k..][1..] == items[k + 1..];
      Associative(w.buf, EncodeString(items[k]), Pack(items[k + 1..]));
      w.WriteString(items[k]);
    }
    assert items[|items|..] == [];
    return w.buf;
  }

  method ReadOptionValue(data: seq<byte>) returns (v: Option<Text>)
    ensures v == OptionValue(data)
  {
    hide TakeUtf8;
    var r := new Reader(data);
    var value := r.ReadUtf8();
    if value.Err? {
      return None;
    }
    var end := r.Finish();
    return if end.Ok? then Some(value.value) else None;
  }

  /** One turn of the options loop. */
  lemma OptionStep(s: seq<byte>, last: Option<Text>, so: Options)
    requires s != []
    ensures var name := TakeUtf8(s);
      if name.Err? || (last.Some? && !Less(last.value, name.value.value)) then ParseOptions(s, last, so).None?
      else
        var data := TakeString(name.value.rest);
        if data.Err? then ParseOptions(s, last, so).None?
        else
          var v := OptionValue(data.value.value);
          && |data.value.rest| < |s|
          && (v.None? ==> ParseOptions(s, last, so).None?)
          && (v.Some? && name.value.value == FORCE_COMMAND ==>
                ParseOptions(s, last, so) == ParseOptions(data.value.rest, Some(name.value.value), so.(force := v)))
          && (v.Some? && name.value.value == SOURCE_ADDRESS && name.value.value != FORCE_COMMAND ==>
                ParseOptions(s, last, so) == ParseOptions(data.value.rest, Some(name.value.value), so.(source := v)))
          && (name.value.value != FORCE_COMMAND && name.value.value != SOURCE_ADDRESS ==> ParseOptions(s, last, so).None?)
  {
    hide OptionValue, Less;
  }

  method ReadOptionRun(r: Reader) returns (o: Option<Options>)
    requires r.Valid()
    modifies r
    ensures o == ParseOptions(old(r.Left()), None, Options(None, None))
  {
    hide TakeUtf8, TakeString, OptionValue, Less, ParseOptions;
    var so, last: Option<Text> := Options(None, None), None;
    while r.pos < |r.buf|
      invariant r.Valid() && ParseOptions(old(r.Left()), None, Options(None, None)) == ParseOptions(r.Left(), last, so)
      decreases |r.Left()|
    {
      OptionStep(r.Left(), last, so);
      var name := r.ReadUtf8();
      if name.Err? || (last.Some? && !Less(last.value, name.value)) {
        return None;
      }
      var data := r.ReadString();
      if data.Err? {
        return None;
      }
      var v := ReadOptionValue(data.value);
      if v.None? {
        return None;
      }
      if name.value == FORCE_COMMAND {
        so := so.(force := v);
      } else if name.value == SOURCE_ADDRESS {
        so := so.(source := v);
      } else {
        return None;
      }
      last := Some(name.value);
    }
    OptionsEnd(last, so);
    return Some(so);
  }

  method ParseCriticalOptions(s: seq<byte>) returns (o: Option<Options>)
    ensures o == ParseOptions(s, None, Options(None, None))
  {
    var r := new Reader(s);
    o := ReadOptionRun(r);
  }

  lemma OptionsEnd(last: Option<Text>, so: Options)
    ensures ParseOptions([], last, so) == Some(so)
  {
  }

  method ReadHead(c: Scheme, r: Reader) returns (h: Option<Head>)
    requires r.Valid()
    modifies r
    ensures Got(r, h, TakeHead(c, old(r.Left())))
  {
    hide TakeUtf8, TakeString;
    var algo := r.ReadUtf8();
    if algo.Err? || (algo.value != CERT_ALGO && algo.value != SK_CERT_ALGO) { return None; }
    var nonce := r.ReadString();
    if nonce.Err? { return None; }
    var key := r.ReadString();
    if key.Err? || |key.value| != 32 || !c.isPoint(key.value) { return None; }
    if algo.value == CERT_ALGO { return Some(Head(key.value, None)); }
    var app := r.ReadUtf8();
    if app.Err? { return None; }
    return Some(Head(key.value, Some(app.value)));
  }

  method ReadMiddle(r: Reader) returns (m: Option<Middle>)
    requires r.Valid()
    modifies r
    ensures Got(r, m, TakeMiddle(old(r.Left())))
  {
    hide TakeUtf8, TakeString, TakeU64, TakeU32;
    var serial := r.ReadU64();
    if serial.Err? { return None; }
    var certType := r.ReadU32();
    if certType.Err? { return None; }
    var keyId := r.ReadUtf8();
    if keyId.Err? { return None; }
    var principals := r.ReadString();
    if principals.Err? { return None; }
    var after := r.ReadU64();
    if after.Err? { return None; }
    var before := r.ReadU64();
    if before.Err? { return None; }
    return Some(Middle(serial.value, certType.value, keyId.value, principals.value, after.value, before.value));
  }

  method ReadTail(r: Reader) returns (t: Option<Tail>)
    requires r.Valid()
    modifies r
    ensures Got(r, t, TakeTail(old(r.Left())))
  {
    hide TakeString;
    var critical := r.ReadString();
    if critical.Err? { return None; }
    var extensions := r.ReadString();
    if extensions.Err? { return None; }
    var reserved := r.ReadString();
    if reserved.Err? { return None; }
    var ca := r.ReadString();
    if ca.Err? { return None; }
    return Some(Tail(critical.value, extensions.value, ca.value));
  }

  method ReadKey(c: Scheme, r: Reader) returns (point: Option<seq<byte>>)
    requires r.Valid()
    modifies r
    ensures point == ParseKeyBlob(c, old(r.Left()))
  {
    hide TakeUtf8, TakeString;
    var algo := r.ReadUtf8();
    if algo.Err? || algo.value != KEY_ALGO { return None; }
    var raw := r.ReadString();
    if raw.Err? || |raw.value| != 32 { return None; }
    var end := r.Finish();
    if end.Err? || !c.isPoint(raw.value) { return None; }
    return Some(raw.value);
  }

  method ReadKeyBlob(c: Scheme, s: seq<byte>) returns (point: Option<seq<byte>>)
    ensures point == ParseKeyBlob(c, s)
  {
    hide ParseKeyBlob;
    var r := new Reader(s);
    point := ReadKey(c, r);
  }

  /** The signed part, off the front of a certificate. */
  method ReadBody(c: Scheme, r: Reader) returns (b: Option<Body>)
    requires r.Valid()
    modifies r
    ensures Got(r, b, TakeBody(c, old(r.Left())))
  {
    hide TakeHead, TakeMiddle, TakeTail;
    var head := ReadHead(c, r);
    if head.None? { return None; }
    var middle := ReadMiddle(r);
    if middle.None? { return None; }
    var tail := ReadTail(r);
    if tail.None? { return None; }
    return Some(Body(head.value, middle.value, tail.value));
  }

  /** The signature after the signed part, and nothing after it. */
  function TakeSignature(s: seq<byte>): Option<seq<byte>> {
    var signature :- ToOption(TakeString(s));
    if signature.rest != [] then None else Some(signature.value)
  }

  method ReadSignature(r: Reader) returns (sig: Option<seq<byte>>)
    requires r.Valid()
    modifies r
    ensures sig == TakeSignature(old(r.Left()))
  {
    hide TakeString;
    var signature := r.ReadString();
    if signature.Err? { return None; }
    var end := r.Finish();
    return if end.Ok? then Some(signature.value) else None;
  }

  /** What the fields come to, once the parts are parsed and the signature holds. */
  method Judge(c: Scheme, b: Body, signed: seq<byte>, signature: seq<byte>, blob: seq<byte>) returns (cert: Option<Certificate>)
    ensures cert == Judged(c, b, signed, signature, blob)
  {
    hide ReadList, ParseKeyBlob, ParseOptions;
    var m := b.middle;
    var principals := ReadStringList(m.principals);
    if principals.None? { return None; }
    var ca := ReadKeyBlob(c, b.tail.ca);
    if ca.None? || !c.verify(ca.value, signed, signature) { return None; }
    var options := ParseCriticalOptions(b.tail.critical);
    if options.None? { return None; }
    return Some(Certificate(
      Fields(b.head.key, b.head.application, m.serial, m.certType, m.keyId, principals.value, m.after, m.before, options.value),
      ca.value, blob));
  }

  method ParseFrom(c: Scheme, r: Reader) returns (cert: Option<Certificate>)
    requires r.Valid() && r.pos == 0
    modifies r
    ensures cert == ParseAndVerify(c, r.buf)
  {
    hide TakeBody, TakeSignature, Judged;
    assert r.Left() == r.buf;
    var body := ReadBody(c, r);
    if body.None? { return None; }
    var signedLen := r.pos;
    assert signedLen == |r.buf| - |r.Left()|;
    var signature := ReadSignature(r);
    if signature.None? { return None; }
    cert := Judge(c, body.value, r.buf[..signedLen], signature.value, r.buf);
  }

  /** The signature covers what was read before it; the options are interpreted only once it holds. */
  method Parse(c: Scheme, blob: seq<byte>) returns (cert: Option<Certificate>)
    ensures cert == ParseAndVerify(c, blob)
  {
    hide ParseAndVerify;
    var r := new Reader(blob);
    assert r.pos == 0;
    cert := ParseFrom(c, r);
  }

  method WriteHead(w: Writer, h: Head, nonce: seq<byte>)
    requires |nonce| < U32 && |h.key| < U32 && (h.application.Some? ==> |h.application.value| < U32)
    modifies w
    ensures w.buf == old(w.buf) + EncodeHead(h, nonce)
  {
    hide EncodeString;
    ghost var was := w.buf;
    AlgosDiffer();
    var algo := if h.application.Some? then SK_CERT_ALGO else CERT_ALGO;
    w.WriteString(algo);
    w.WriteString(nonce);
    w.WriteString(h.key);
    if h.application.Some? {
      w.WriteString(h.application.value);
    }
    ghost var app := if h.application.Some? then EncodeString(h.application.value) else [];
    assert w.buf == was + EncodeString(algo) + EncodeString(nonce) + EncodeString(h.key) + app;
    Fourfold(was, EncodeString(algo), EncodeString(nonce), EncodeString(h.key), app);
  }

  lemma Fourfold(was: seq<byte>, a: seq<byte>, b: seq<byte>, c: seq<byte>, d: seq<byte>)
    ensures was + a + b + c + d == was + (a + (b + (c + d)))
  {
  }

  method WriteMiddle(w: Writer, m: Middle)
    requires |m.keyId| < U32 && |m.principals| < U32
    modifies w
    ensures w.buf == old(w.buf) + EncodeMiddle(m)
  {
    hide EncodeString, EncodeU64, EncodeU32;
    ghost var was := w.buf;
    w.WriteU64(m.serial);
    w.WriteU32(m.certType);
    ghost var half := w.buf;
    Associative(was, EncodeU64(m.serial), EncodeU32(m.certType));
    w.WriteString(m.keyId);
    w.WriteString(m.principals);
    w.WriteU64(m.after);
    w.WriteU64(m.before);
    ghost var later := EncodeString(m.keyId) + (EncodeString(m.principals) + (EncodeU64(m.after) + EncodeU64(m.before)));
    Fourfold(half, EncodeString(m.keyId), EncodeString(m.principals), EncodeU64(m.after), EncodeU64(m.before));
    Associative(was + EncodeU64(m.serial), EncodeU32(m.certType), later);
    Associative(was, EncodeU64(m.serial), EncodeU32(m.certType) + later);
  }

  method WriteTail(w: Writer, t: Tail)
    requires |t.critical| < U32 && |t.extensions| < U32 && |t.ca| < U32
    modifies w
    ensures w.buf == old(w.buf) + EncodeTail(t)
  {
    hide EncodeString;
    ghost var was := w.buf;
    w.WriteString(t.critical);
    w.WriteString(t.extensions);
    w.WriteString([]);
    w.WriteString(t.ca);
    Fourfold(was, EncodeString(t.critical), EncodeString(t.extensions), EncodeString([]), EncodeString(t.ca));
  }

  /** The CA signs what was written, and the signature follows it. */
  method Sign(c: Scheme, ca: nat, f: Fields, nonce: seq<byte>) returns (blob: seq<byte>)
    requires Signable(c, f) && |nonce| == 32 && |c.point(ca)| == 32
    requires |c.sign(ca, SignedBody(c, c.point(ca), f, nonce))| < U32
    ensures blob == SignCert(c, ca, f, nonce)
  {
    hide EncodeHead, EncodeMiddle, EncodeTail, Pack, EncodeOptions, Extensions, EncodeString, IsUtf8;
    ExtensionsShort();
    AlgosDiffer();
    var w := new Writer();
    WriteHead(w, HeadOf(f), nonce);
    WriteMiddle(w, MiddleOf(f));
    WriteTail(w, TailOf(f, c.point(ca)));
    var body := w.buf;
    Associative(EncodeHead(HeadOf(f), nonce), EncodeMiddle(MiddleOf(f)), EncodeTail(TailOf(f, c.point(ca))));
    assert body == SignedBody(c, c.point(ca), f, nonce);
    w.WriteString(c.sign(ca, body));
    return w.buf;
  }
}
