/** Where an accepted certificate comes from (src/crypto/cert.rs).

A blob is accepted exactly when it is a certificate laid out field by field with a signature at its
end, and the signature verifies under the CA's key inside it, over every byte before it. So what the
certificate says is what was signed, and nothing that does not verify is accepted. */
module CertOrigin {
  import opened Bytes
  import opened Wire
  import opened Certificate

  /** The parts of a certificate that are read and not kept. */
  datatype Unkept = Unkept(nonce: seq<byte>, extensions: seq<byte>, reserved: seq<byte>)

  predicate Short(u: Unkept) {
    |u.nonce| < U32 && |u.extensions| < U32 && |u.reserved| < U32
  }

  /** A certificate's signed bytes, in the order of the format, and then `rest`. */
  function LaidBefore(f: Fields, ca: seq<byte>, u: Unkept, rest: seq<byte>): seq<byte>
    requires Layable(f) && Short(u) && |ca| == 32
  {
    EncodeString(if f.application.Some? then SK_CERT_ALGO else CERT_ALGO)
    + (EncodeString(u.nonce)
    + (EncodeString(f.key)
    + (Optional(f.application)
    + (EncodeU64(f.serial)
    + (EncodeU32(f.certType)
    + (EncodeString(f.keyId)
    + (EncodeString(Pack(f.principals))
    + (EncodeU64(f.after)
    + (EncodeU64(f.before)
    + (EncodeString(EncodeOptions(f.options))
    + (EncodeString(u.extensions)
    + (EncodeString(u.reserved)
    + (EncodeString(EncodeString(KEY_ALGO) + EncodeString(ca))
    + rest)))))))))))))
  }

  function Optional(t: Option<Text>): seq<byte>
    requires t.Some? ==> |t.value| < U32
  {
    if t.Some? then EncodeString(t.value) else []
  }

  /** Fields that a certificate can hold. */
  predicate Layable(f: Fields) {
    && |f.key| == 32
    && (f.application.Some? ==> Writable(f.application.value))
    && Writable(f.keyId) && AllWritable(f.principals) && |Pack(f.principals)| < U32
    && WritableOption(f.options.force) && WritableOption(f.options.source) && |EncodeOptions(f.options)| < U32
  }

  // ------------------------------------------------------------ reading undone

  lemma U32Inverse(s: seq<byte>)
    requires TakeU32(s).Ok?
    ensures s == EncodeU32(TakeU32(s).value.value) + TakeU32(s).value.rest
  {
    EncodesU32(s[..4]);
  }

  lemma U64Inverse(s: seq<byte>)
    requires TakeU64(s).Ok?
    ensures s == EncodeU64(TakeU64(s).value.value) + TakeU64(s).value.rest
  {
    hide EncodeU32, DecodeU32;
    var b := s[..8];
    EncodesU32(b[..4]);
    EncodesU32(b[4..]);
    Halves(DecodeU32(b[..4]), DecodeU32(b[4..]));
    assert s == b[..4] + b[4..] + s[8..];
  }

  lemma Halves(a: u32, b: u32)
    ensures (a * U32 + b) / U32 == a && (a * U32 + b) % U32 == b
  {
  }

  lemma Utf8Inverse(s: seq<byte>)
    requires TakeUtf8(s).Ok?
    ensures var r := TakeUtf8(s).value; Writable(r.value) && s == EncodeString(r.value) + r.rest
  {
    hide IsUtf8;
    StringInverse(s);
  }

  lemma {:induction false} ListInverse(s: seq<byte>)
    requires ReadList(s).Some?
    ensures AllWritable(ReadList(s).value) && Pack(ReadList(s).value) == s
    decreases |s|
  {
    hide TakeUtf8, EncodeString, Writable;
    if s != [] {
      Utf8Inverse(s);
      var item := TakeUtf8(s).value;
      ListInverse(item.rest);
      var more := ReadList(item.rest).value;
      assert ([item.value] + more)[1..] == more;
    }
  }

  lemma ValueInverse(data: seq<byte>)
    requires OptionValue(data).Some? && |data| < U32
    ensures var v := OptionValue(data).value; IsUtf8(v) && |v| < U32 - 4 && data == EncodeString(v)
  {
    hide IsUtf8, TakeUtf8, EncodeString;
    Utf8Inverse(data);
    var v := TakeUtf8(data).value;
    assert EncodeString(v.value) + [] == EncodeString(v.value);
  }

  /** The first option of a list that parses. */
  lemma OptionInverse(s: seq<byte>, last: Option<Text>, so: Options) returns (name: Text, value: Text, rest: seq<byte>)
    requires s != [] && ParseOptions(s, last, so).Some?
    ensures name == FORCE_COMMAND || name == SOURCE_ADDRESS
    ensures Writable(name) && IsUtf8(value) && |value| < U32 - 4 && s == EncodeOption(name, Some(value)) + rest
    ensures last.Some? ==> Less(last.value, name)
    ensures ParseOptions(s, last, so) ==
      ParseOptions(rest, Some(name), if name == FORCE_COMMAND then so.(force := Some(value)) else so.(source := Some(value)))
  {
    hide IsUtf8, TakeUtf8, TakeString, EncodeString, OptionValue, Less;
    Utf8Inverse(s);
    var n := TakeUtf8(s).value;
    StringInverse(n.rest);
    var d := TakeString(n.rest).value;
    ValueInverse(d.value);
    name, value, rest := n.value, OptionValue(d.value).value, d.rest;
    Associative(EncodeString(name), EncodeString(d.value), rest);
  }

  lemma NoneAfterSource(s: seq<byte>, so: Options)
    requires ParseOptions(s, Some(SOURCE_ADDRESS), so).Some?
    ensures s == [] && ParseOptions(s, Some(SOURCE_ADDRESS), so) == Some(so)
  {
    hide ParseOptions, Less;
    if s != [] {
      var name, value, rest := OptionInverse(s, Some(SOURCE_ADDRESS), so);
      NotLess(name);
      assert false;
    }
    Ended(Some(SOURCE_ADDRESS), so);
  }

  lemma Ended(last: Option<Text>, so: Options)
    ensures ParseOptions([], last, so) == Some(so)
  {
  }

  lemma NotLess(name: Text)
    requires name == FORCE_COMMAND || name == SOURCE_ADDRESS
    ensures !Less(SOURCE_ADDRESS, name)
  {
    assert FORCE_COMMAND[0] == 'f' as int && SOURCE_ADDRESS[0] == 's' as int;
    Irreflexive(SOURCE_ADDRESS);
  }

  lemma {:induction false} Irreflexive(t: Text)
    ensures !Less(t, t)
  {
    if t != [] { Irreflexive(t[1..]); }
  }

  lemma SourceInverse(s: seq<byte>, so: Options)
    requires so.source.None? && ParseOptions(s, Some(FORCE_COMMAND), so).Some?
    ensures var o := ParseOptions(s, Some(FORCE_COMMAND), so).value;
      o.force == so.force && WritableOption(o.source) && s == EncodeOption(SOURCE_ADDRESS, o.source)
  {
    hide ParseOptions, Less, EncodeString;
    NamesOrdered();
    Ended(Some(FORCE_COMMAND), so);
    if s != [] {
      var name, value, rest := OptionInverse(s, Some(FORCE_COMMAND), so);
      Irreflexive(FORCE_COMMAND);
      NoneAfterSource(rest, so.(source := Some(value)));
      assert EncodeOption(name, Some(value)) + [] == EncodeOption(name, Some(value));
    }
  }

  /** Options that parse are the encoding of what they parse to, and of nothing else. */
  lemma OptionsInverse(s: seq<byte>)
    requires ParseOptions(s, None, Options(None, None)).Some?
    ensures var o := ParseOptions(s, None, Options(None, None)).value;
      WritableOption(o.force) && WritableOption(o.source) && s == EncodeOptions(o)
  {
    hide ParseOptions, Less, EncodeString;
    NamesOrdered();
    Ended(None, Options(None, None));
    if s == [] {
      assert [] + [] == s;
    } else {
      var name, value, rest := OptionInverse(s, None, Options(None, None));
      if name == FORCE_COMMAND {
        SourceInverse(rest, Options(Some(value), None));
      } else {
        NoneAfterSource(rest, Options(None, Some(value)));
        assert EncodeOption(name, Some(value)) + [] == [] + EncodeOption(name, Some(value));
      }
    }
  }

  lemma KeyInverse(c: Scheme, s: seq<byte>)
    requires ParseKeyBlob(c, s).Some?
    ensures var p := ParseKeyBlob(c, s).value;
      |p| == 32 && c.isPoint(p) && s == EncodeString(KEY_ALGO) + EncodeString(p)
  {
    hide IsUtf8, TakeUtf8, TakeString, EncodeString;
    Utf8Inverse(s);
    var algo := TakeUtf8(s).value;
    StringInverse(algo.rest);
    var raw := TakeString(algo.rest).value;
    assert EncodeString(raw.value) + [] == EncodeString(raw.value);
  }

  lemma HeadInverse(c: Scheme, s: seq<byte>) returns (nonce: seq<byte>)
    requires TakeHead(c, s).Some?
    ensures |nonce| < U32
    ensures var r := TakeHead(c, s).value; var h := r.value;
      && |h.key| == 32 && c.isPoint(h.key) && (h.application.Some? ==> Writable(h.application.value))
      && s == EncodeString(if h.application.Some? then SK_CERT_ALGO else CERT_ALGO)
           + (EncodeString(nonce) + (EncodeString(h.key) + (Optional(h.application) + r.rest)))
  {
    hide IsUtf8, TakeUtf8, TakeString, EncodeString;
    Utf8Inverse(s);
    var algo := TakeUtf8(s).value;
    StringInverse(algo.rest);
    var n := TakeString(algo.rest).value;
    nonce := n.value;
    StringInverse(n.rest);
    var key := TakeString(n.rest).value;
    if algo.value == SK_CERT_ALGO && algo.value != CERT_ALGO {
      Utf8Inverse(key.rest);
    } else {
      assert [] + key.rest == key.rest;
    }
  }

  lemma MiddleInverse(s: seq<byte>)
    requires TakeMiddle(s).Some?
    ensures var r := TakeMiddle(s).value; var m := r.value;
      && Writable(m.keyId) && |m.principals| < U32
      && s == EncodeU64(m.serial) + (EncodeU32(m.certType) + (EncodeString(m.keyId)
           + (EncodeString(m.principals) + (EncodeU64(m.after) + (EncodeU64(m.before) + r.rest)))))
  {
    hide IsUtf8, TakeUtf8, TakeString, EncodeString, TakeU64, EncodeU64, TakeU32, EncodeU32;
    U64Inverse(s);
    var serial := TakeU64(s).value;
    U32Inverse(serial.rest);
    var certType := TakeU32(serial.rest).value;
    Utf8Inverse(certType.rest);
    var keyId := TakeUtf8(certType.rest).value;
    StringInverse(keyId.rest);
    var principals := TakeString(keyId.rest).value;
    U64Inverse(principals.rest);
    var after := TakeU64(principals.rest).value;
    U64Inverse(after.rest);
  }

  lemma TailInverse(s: seq<byte>) returns (reserved: seq<byte>)
    requires TakeTail(s).Some?
    ensures |reserved| < U32
    ensures var r := TakeTail(s).value; var t := r.value;
      && |t.critical| < U32 && |t.extensions| < U32 && |t.ca| < U32
      && s == EncodeString(t.critical) + (EncodeString(t.extensions) + (EncodeString(reserved) + (EncodeString(t.ca) + r.rest)))
  {
    hide TakeString, EncodeString;
    StringInverse(s);
    var critical := TakeString(s).value;
    StringInverse(critical.rest);
    var extensions := TakeString(critical.rest).value;
    StringInverse(extensions.rest);
    var res := TakeString(extensions.rest).value;
    reserved := res.value;
    StringInverse(res.rest);
  }

  // ------------------------------------------------------------ reading what is laid out

  lemma HeadReads(c: Scheme, h: Head, nonce: seq<byte>, rest: seq<byte>)
    requires |nonce| < U32 && |h.key| == 32 && c.isPoint(h.key) && (h.application.Some? ==> Writable(h.application.value))
    ensures TakeHead(c, EncodeString(if h.application.Some? then SK_CERT_ALGO else CERT_ALGO)
      + (EncodeString(nonce) + (EncodeString(h.key) + (Optional(h.application) + rest)))) == Some(Read(h, rest))
  {
    hide IsUtf8, TakeUtf8, TakeString, EncodeString;
    AlgosDiffer();
    var app := Optional(h.application);
    TakesString(if h.application.Some? then SK_CERT_ALGO else CERT_ALGO, EncodeString(nonce) + (EncodeString(h.key) + (app + rest)));
    TakesString(nonce, EncodeString(h.key) + (app + rest));
    TakesString(h.key, app + rest);
    if h.application.Some? { TakesString(h.application.value, rest); } else { assert app + rest == rest; }
  }

  lemma MiddleReads(m: Middle, rest: seq<byte>)
    requires Writable(m.keyId) && |m.principals| < U32
    ensures TakeMiddle(EncodeU64(m.serial) + (EncodeU32(m.certType) + (EncodeString(m.keyId)
      + (EncodeString(m.principals) + (EncodeU64(m.after) + (EncodeU64(m.before) + rest)))))) == Some(Read(m, rest))
  {
    hide IsUtf8, TakeUtf8, TakeString, EncodeString, TakeU64, EncodeU64, TakeU32, EncodeU32;
    var d := EncodeU64(m.after) + (EncodeU64(m.before) + rest);
    var b := EncodeString(m.keyId) + (EncodeString(m.principals) + d);
    TakesU64(m.serial, EncodeU32(m.certType) + b);
    TakesU32(m.certType, b);
    TakesString(m.keyId, EncodeString(m.principals) + d);
    TakesString(m.principals, d);
    TakesU64(m.after, EncodeU64(m.before) + rest);
    TakesU64(m.before, rest);
  }

  lemma TailReads(t: Tail, reserved: seq<byte>, rest: seq<byte>)
    requires |t.critical| < U32 && |t.extensions| < U32 && |t.ca| < U32 && |reserved| < U32
    ensures TakeTail(EncodeString(t.critical) + (EncodeString(t.extensions) + (EncodeString(reserved) + (EncodeString(t.ca) + rest))))
      == Some(Read(t, rest))
  {
    hide TakeString, EncodeString;
    var last := EncodeString(reserved) + (EncodeString(t.ca) + rest);
    TakesString(t.critical, EncodeString(t.extensions) + last);
    TakesString(t.extensions, last);
    TakesString(reserved, EncodeString(t.ca) + rest);
    TakesString(t.ca, rest);
  }

  /** What is laid out before something stands before it. */
  lemma LaidThen(f: Fields, ca: seq<byte>, u: Unkept, rest: seq<byte>)
    requires Layable(f) && Short(u) && |ca| == 32
    ensures LaidBefore(f, ca, u, rest) == LaidBefore(f, ca, u, []) + rest
  {
    hide EncodeString, EncodeU64, EncodeU32, Pack, EncodeOptions, IsUtf8, WritableOption, AllWritable, Optional;
    var e13 := EncodeString(EncodeString(KEY_ALGO) + EncodeString(ca));
    var t12 := EncodeString(u.reserved) + e13;
    var t11 := EncodeString(u.extensions) + t12;
    var t10 := EncodeString(EncodeOptions(f.options)) + t11;
    var t9 := EncodeU64(f.before) + t10;
    var t8 := EncodeU64(f.after) + t9;
    var t7 := EncodeString(Pack(f.principals)) + t8;
    var t6 := EncodeString(f.keyId) + t7;
    var t5 := EncodeU32(f.certType) + t6;
    var t4 := EncodeU64(f.serial) + t5;
    var t3 := Optional(f.application) + t4;
    var t2 := EncodeString(f.key) + t3;
    var t1 := EncodeString(u.nonce) + t2;
    assert e13 + [] == e13;
    Associative(EncodeString(if f.application.Some? then SK_CERT_ALGO else CERT_ALGO), t1, rest);
    Associative(EncodeString(u.nonce), t2, rest);
    Associative(EncodeString(f.key), t3, rest);
    Associative(Optional(f.application), t4, rest);
    Associative(EncodeU64(f.serial), t5, rest);
    Associative(EncodeU32(f.certType), t6, rest);
    Associative(EncodeString(f.keyId), t7, rest);
    Associative(EncodeString(Pack(f.principals)), t8, rest);
    Associative(EncodeU64(f.after), t9, rest);
    Associative(EncodeU64(f.before), t10, rest);
    Associative(EncodeString(EncodeOptions(f.options)), t11, rest);
    Associative(EncodeString(u.extensions), t12, rest);
    Associative(EncodeString(u.reserved), e13, rest);
  }

  // ------------------------------------------------------------ accepted, if and only if vouched for

  /** The blob is this certificate, laid out and signed: the signature at its end verifies under the CA's
  key inside it, over all the bytes before. */
  predicate Vouched(c: Scheme, blob: seq<byte>, cert: Certificate, u: Unkept, sig: seq<byte>) {
    && Layable(cert.fields) && Short(u) && |sig| < U32 && cert.blob == blob
    && c.isPoint(cert.fields.key) && |cert.ca| == 32 && c.isPoint(cert.ca)
    && var signed := LaidBefore(cert.fields, cert.ca, u, []);
       blob == signed + EncodeString(sig) && c.verify(cert.ca, signed, sig)
  }

  /** The fields of what was read, put back in their places. */
  lemma BodyInverse(c: Scheme, s: seq<byte>, f: Fields, ca: seq<byte>) returns (u: Unkept)
    requires TakeBody(c, s).Some?
    requires var b := TakeBody(c, s).value.value;
      && ReadList(b.middle.principals) == Some(f.principals) && ParseKeyBlob(c, b.tail.ca) == Some(ca)
      && ParseOptions(b.tail.critical, None, Options(None, None)) == Some(f.options)
      && f == Fields(b.head.key, b.head.application, b.middle.serial, b.middle.certType, b.middle.keyId, f.principals,
                     b.middle.after, b.middle.before, f.options)
    ensures Layable(f) && Short(u) && c.isPoint(f.key) && |ca| == 32 && c.isPoint(ca)
    ensures s == LaidBefore(f, ca, u, TakeBody(c, s).value.rest)
  {
    hide IsUtf8, TakeHead, TakeMiddle, TakeTail, ReadList, ParseKeyBlob, ParseOptions, EncodeString, EncodeU64, EncodeU32, EncodeOptions, Pack;
    var nonce := HeadInverse(c, s);
    var head := TakeHead(c, s).value;
    MiddleInverse(head.rest);
    var middle := TakeMiddle(head.rest).value;
    var reserved := TailInverse(middle.rest);
    var tail := TakeTail(middle.rest).value;
    ListInverse(middle.value.principals);
    OptionsInverse(tail.value.critical);
    KeyInverse(c, tail.value.ca);
    u := Unkept(nonce, tail.value.extensions, reserved);
  }

  lemma AcceptedVouched(c: Scheme, blob: seq<byte>) returns (u: Unkept, sig: seq<byte>)
    requires ParseAndVerify(c, blob).Some?
    ensures Vouched(c, blob, ParseAndVerify(c, blob).value, u, sig)
  {
    hide TakeBody, ReadList, ParseKeyBlob, ParseOptions, TakeString, EncodeString, Layable, LaidBefore;
    var cert, body := ParseAndVerify(c, blob).value, TakeBody(c, blob).value;
    u := BodyInverse(c, blob, cert.fields, cert.ca);
    StringInverse(body.rest);
    sig := TakeString(body.rest).value.value;
    assert EncodeString(sig) + [] == EncodeString(sig);
    LaidThen(cert.fields, cert.ca, u, body.rest);
    var signed := LaidBefore(cert.fields, cert.ca, u, []);
    assert blob[..|blob| - |body.rest|] == signed;
  }

  lemma BodyReads(c: Scheme, f: Fields, ca: seq<byte>, u: Unkept, rest: seq<byte>)
    requires Layable(f) && Short(u) && c.isPoint(f.key) && |ca| == 32
    ensures var principals, options, key := Pack(f.principals), EncodeOptions(f.options), EncodeString(KEY_ALGO) + EncodeString(ca);
      TakeBody(c, LaidBefore(f, ca, u, rest)) ==
        Some(Read(Body(Head(f.key, f.application), Middle(f.serial, f.certType, f.keyId, principals, f.after, f.before),
                       Tail(options, u.extensions, key)), rest))
  {
    hide IsUtf8, TakeHead, TakeMiddle, TakeTail, EncodeString, EncodeU64, EncodeU32, EncodeOptions, Pack, Optional;
    var key := EncodeString(KEY_ALGO) + EncodeString(ca);
    var h, m, t := Head(f.key, f.application), Middle(f.serial, f.certType, f.keyId, Pack(f.principals), f.after, f.before),
      Tail(EncodeOptions(f.options), u.extensions, key);
    var t0 := EncodeString(t.critical) + (EncodeString(t.extensions) + (EncodeString(u.reserved) + (EncodeString(t.ca) + rest)));
    var m0 := EncodeU64(m.serial) + (EncodeU32(m.certType) + (EncodeString(m.keyId)
      + (EncodeString(m.principals) + (EncodeU64(m.after) + (EncodeU64(m.before) + t0)))));
    HeadReads(c, h, u.nonce, m0);
    MiddleReads(m, t0);
    TailReads(t, u.reserved, rest);
  }

  lemma VouchedAccepted(c: Scheme, blob: seq<byte>, cert: Certificate, u: Unkept, sig: seq<byte>)
    requires Vouched(c, blob, cert, u, sig)
    ensures ParseAndVerify(c, blob) == Some(cert)
  {
    hide TakeBody, ReadList, ParseKeyBlob, ParseOptions, TakeString, EncodeString, LaidBefore, Pack, EncodeOptions;
    var f := cert.fields;
    var signed, rest := LaidBefore(f, cert.ca, u, []), EncodeString(sig);
    LaidThen(f, cert.ca, u, rest);
    BodyReads(c, f, cert.ca, u, rest);
    TakesString(sig, []);
    assert rest + [] == rest;
    assert blob[..|blob| - |rest|] == signed;
    ListReadsBack(f.principals);
    OptionsReadBack(f.options);
    KeyReadsBack(c, cert.ca);
  }

  /** A certificate is accepted if and only if the blob is that certificate, laid out and vouched for. */
  lemma AcceptedIffVouched(c: Scheme, blob: seq<byte>, cert: Certificate)
    ensures ParseAndVerify(c, blob) == Some(cert) <==> exists u, sig :: Vouched(c, blob, cert, u, sig)
  {
    hide ParseAndVerify, Vouched;
    if ParseAndVerify(c, blob) == Some(cert) {
      var u, sig := AcceptedVouched(c, blob);
    }
    if u, sig :| Vouched(c, blob, cert, u, sig) {
      VouchedAccepted(c, blob, cert, u, sig);
    }
  }

  /** `issued` says which messages the holders of the keys have signed; nothing else verifies. */
  ghost predicate Unforgeable(c: Scheme, issued: (seq<byte>, seq<byte>) -> bool) {
    forall ca, m, sig :: c.verify(ca, m, sig) ==> issued(ca, m)
  }

  /** So what is accepted was signed by the CA it names, word for word. */
  lemma AcceptedWasIssued(c: Scheme, issued: (seq<byte>, seq<byte>) -> bool, blob: seq<byte>)
    requires Unforgeable(c, issued) && ParseAndVerify(c, blob).Some?
    ensures var cert := ParseAndVerify(c, blob).value;
      Layable(cert.fields) && |cert.ca| == 32 && exists u :: Short(u) && issued(cert.ca, LaidBefore(cert.fields, cert.ca, u, []))
  {
    hide ParseAndVerify, LaidBefore;
    var u, sig := AcceptedVouched(c, blob);
    assert Short(u);
  }

  /** And what a CA signs is laid out so, with a nonce of its own and nothing reserved. */
  lemma SignedIsLaid(c: Scheme, ca: seq<byte>, f: Fields, nonce: seq<byte>)
    requires Signable(c, f) && |nonce| == 32 && |ca| == 32
    ensures Layable(f)
    ensures exists extensions :: |extensions| < U32 && SignedBody(c, ca, f, nonce) == LaidBefore(f, ca, Unkept(nonce, extensions, []), [])
  {
    hide EncodeString, EncodeU64, EncodeU32, Pack, EncodeOptions, Extensions, IsUtf8, WritableOption, AllWritable;
    ExtensionsShort();
    var extensions := if f.certType == CERT_TYPE_USER then Extensions(EXTENSIONS) else [];
    var tail := EncodeTail(TailOf(f, ca));
    var last := EncodeString(KeyBlob(ca));
    assert last + [] == last;
    MiddleJoins(MiddleOf(f), tail);
    HeadJoins(HeadOf(f), nonce, EncodeMiddle(MiddleOf(f)) + tail);
    assert SignedBody(c, ca, f, nonce) == LaidBefore(f, ca, Unkept(nonce, extensions, []), []);
  }

  lemma HeadJoins(h: Head, nonce: seq<byte>, rest: seq<byte>)
    requires |nonce| < U32 && |h.key| < U32 && (h.application.Some? ==> |h.application.value| < U32)
    ensures EncodeHead(h, nonce) + rest == EncodeString(if h.application.Some? then SK_CERT_ALGO else CERT_ALGO)
      + (EncodeString(nonce) + (EncodeString(h.key) + (Optional(h.application) + rest)))
  {
    hide EncodeString;
    var app := Optional(h.application);
    Associative(EncodeString(if h.application.Some? then SK_CERT_ALGO else CERT_ALGO), EncodeString(nonce) + (EncodeString(h.key) + app), rest);
    Associative(EncodeString(nonce), EncodeString(h.key) + app, rest);
    Associative(EncodeString(h.key), app, rest);
  }

  lemma MiddleJoins(m: Middle, rest: seq<byte>)
    requires |m.keyId| < U32 && |m.principals| < U32
    ensures EncodeMiddle(m) + rest == EncodeU64(m.serial) + (EncodeU32(m.certType) + (EncodeString(m.keyId)
      + (EncodeString(m.principals) + (EncodeU64(m.after) + (EncodeU64(m.before) + rest)))))
  {
    hide EncodeString, EncodeU64, EncodeU32;
    var d := EncodeU64(m.after) + EncodeU64(m.before);
    var b := EncodeString(m.keyId) + (EncodeString(m.principals) + d);
    Associative(EncodeU64(m.serial), EncodeU32(m.certType) + b, rest);
    Associative(EncodeU32(m.certType), b, rest);
    Associative(EncodeString(m.keyId), EncodeString(m.principals) + d, rest);
    Associative(EncodeString(m.principals), d, rest);
    Associative(EncodeU64(m.after), EncodeU64(m.before), rest);
  }
}
