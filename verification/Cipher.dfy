/** Packet framing and the two AEAD ciphers (src/crypto/cipher.rs; section 6 of RFC 4253).

ChaCha20, Poly1305 and AES-GCM are parameters: any functions at all, with only the laws the framing
uses. The padding, the lengths, the in-place decryption and the block-by-block MAC are the source's. */
module Cipher {
  import opened Bytes
  import opened Wire

  const MAX_PACKET: nat := 256 * 1024
  const TAG_LEN: nat := 16
  const MIN_PAD: nat := 4

  /** The primitives. Poly1305 is an accumulator fed 16-byte blocks, then a shorter tail. */
  datatype Suite = Suite(
    xor: (byte, byte) -> byte,
    stream: (seq<byte>, nat, nat) -> byte,
    absorb: (seq<byte>, nat, seq<byte>) -> nat,
    finish: (seq<byte>, nat, seq<byte>) -> seq<byte>,
    gcmSeal: (seq<byte>, seq<byte>, seq<byte>, seq<byte>) -> (seq<byte>, seq<byte>),
    gcmOpen: (seq<byte>, seq<byte>, seq<byte>, seq<byte>, seq<byte>) -> Option<seq<byte>>)

  ghost predicate Lawful(s: Suite) {
    && (forall a, b :: s.xor(s.xor(a, b), b) == a)
    && (forall key, acc, tail :: |s.finish(key, acc, tail)| == TAG_LEN)
    && (forall key, nonce, aad, plain ::
          var c := s.gcmSeal(key, nonce, aad, plain);
          |c.0| == |plain| && |c.1| == TAG_LEN && s.gcmOpen(key, nonce, aad, c.0, c.1) == Some(plain))
  }

  // ------------------------------------------------------------ padding

  /** `n` modulo one of the two block sizes in use. */
  function Over(n: nat, align: nat): nat {
    if align == 16 then n % 16 else n % 8
  }

  lemma Fills(base: nat, align: nat)
    requires align == 8 || align == 16
    ensures 0 <= Over(base, align) < align
    ensures Over(base + (align - Over(base, align)), align) == 0
    ensures Over(base + (align - Over(base, align)) + align, align) == 0
  {
    if align == 16 {
      assert base + (16 - base % 16) == 16 * (base / 16 + 1);
    } else {
      assert base + (8 - base % 8) == 8 * (base / 8 + 1);
    }
  }

  function PadLen(n: nat, align: nat, lengthCounts: bool): (pad: nat)
    requires align == 8 || align == 16
    ensures MIN_PAD <= pad <= align + 3
    ensures Over((if lengthCounts then 4 else 0) + 1 + n + pad, align) == 0
  {
    hide Over;
    var base := (if lengthCounts then 4 else 0) + 1 + n;
    var short := align - Over(base, align);
    Fills(base, align);
    if short < MIN_PAD then short + align else short
  }

  /** The padding length, the payload, then random padding (`fill`). */
  function Padded(payload: seq<byte>, align: nat, lengthCounts: bool, fill: nat -> byte): (b: seq<byte>)
    requires align == 8 || align == 16
    ensures |b| == 1 + |payload| + PadLen(|payload|, align, lengthCounts)
  {
    var pad := PadLen(|payload|, align, lengthCounts);
    [pad] + payload + seq<byte>(pad, i requires 0 <= i < pad => fill(i))
  }

  function Unpad(block: seq<byte>): Option<seq<byte>> {
    if block == [] then None
    else
      var rest := block[1..];
      if block[0] < MIN_PAD || block[0] > |rest| then None else Some(rest[..|rest| - block[0]])
  }

  lemma UnpadsPadded(payload: seq<byte>, align: nat, lengthCounts: bool, fill: nat -> byte)
    requires align == 8 || align == 16
    ensures Unpad(Padded(payload, align, lengthCounts, fill)) == Some(payload)
  {
    var b := Padded(payload, align, lengthCounts, fill);
    assert b[1..][..|payload|] == payload;
  }

  function CheckLength(len: nat, align: nat): Option<nat> {
    if 1 + MIN_PAD <= len <= MAX_PACKET && Over(len, align) == 0 then Some(len) else None
  }

  // ------------------------------------------------------------ the ciphers

  datatype Cipher = Plain | ChaChaPoly(kMain: seq<byte>, kLen: seq<byte>) | Gcm(key: seq<byte>, iv: seq<byte>) {
    predicate Valid() {
      Gcm? ==> |iv| == 12
    }
  }

  /** Xor with the keystream from `start` on. */
  function Apply(s: Suite, key: seq<byte>, nonce: nat, start: nat, data: seq<byte>): (r: seq<byte>)
    ensures |r| == |data|
  {
    seq(|data|, i requires 0 <= i < |data| => s.xor(data[i], s.stream(key, nonce, start + i)))
  }

  lemma AppliedTwice(s: Suite, key: seq<byte>, nonce: nat, start: nat, data: seq<byte>)
    requires Lawful(s)
    ensures Apply(s, key, nonce, start, Apply(s, key, nonce, start, data)) == data
  {
  }

  function PolyKey(s: Suite, key: seq<byte>, nonce: nat): seq<byte> {
    seq<byte>(32, i requires 0 <= i < 32 => s.stream(key, nonce, i))
  }

  function Absorbed(s: Suite, key: seq<byte>, acc: nat, data: seq<byte>): nat
    decreases |data|
  {
    if |data| < 16 then acc else Absorbed(s, key, s.absorb(key, acc, data[..16]), data[16..])
  }

  function Leftover(data: seq<byte>): seq<byte>
    decreases |data|
  {
    if |data| < 16 then data else Leftover(data[16..])
  }

  /** The one-shot tag from an accumulator: whole blocks, then the tail. */
  function ComputeUnpadded(s: Suite, key: seq<byte>, acc: nat, data: seq<byte>): seq<byte> {
    s.finish(key, Absorbed(s, key, acc, data), Leftover(data))
  }

  function Counter(iv: seq<byte>): u64
    requires |iv| == 12
  {
    DecodeU32(iv[4..8]) * U32 + DecodeU32(iv[8..])
  }

  function Bumped(iv: seq<byte>): (r: seq<byte>)
    requires |iv| == 12
    ensures |r| == 12 && r[..4] == iv[..4]
  {
    iv[..4] + EncodeU64((Counter(iv) + 1) % U64)
  }

  lemma CounterBumps(iv: seq<byte>)
    requires |iv| == 12
    ensures Counter(Bumped(iv)) == (Counter(iv) + 1) % U64
  {
    hide EncodeU32, DecodeU32;
    var n := (Counter(iv) + 1) % U64;
    var r := Bumped(iv);
    assert r[4..8] == EncodeU32(n / U32) && r[8..] == EncodeU32(n % U32);
    DecodesU32(n / U32);
    DecodesU32(n % U32);
  }

  /** Sealing a packet: the wire bytes and the cipher for the next packet. */
  function Seal(s: Suite, c: Cipher, seqno: nat, payload: seq<byte>, fill: nat -> byte): (seq<byte>, Cipher)
    requires c.Valid() && |payload| < U32 - 64
  {
    match c
    case Plain =>
      var block := Padded(payload, 8, true, fill);
      (EncodeU32(|block|) + block, c)
    case ChaChaPoly(kMain, kLen) =>
      var block := Padded(payload, 8, false, fill);
      var out := Apply(s, kLen, seqno, 0, EncodeU32(|block|)) + Apply(s, kMain, seqno, 64, block);
      (out + ComputeUnpadded(s, PolyKey(s, kMain, seqno), 0, out), c)
    case Gcm(key, iv) =>
      var block := Padded(payload, 16, false, fill);
      var len := EncodeU32(|block|);
      var sealed := s.gcmSeal(key, iv, len, block);
      (len + sealed.0 + sealed.1, Gcm(key, Bumped(iv)))
  }

  /** The length field behind the first four wire bytes, if it is one a packet may have. */
  function PacketLength(s: Suite, c: Cipher, seqno: nat, first4: seq<byte>): Option<nat>
    requires |first4| == 4
  {
    match c
    case Plain =>
      var len := DecodeU32(first4);
      if 1 + MIN_PAD <= len <= MAX_PACKET && Over(len + 4, 8) == 0 then Some(len) else None
    case ChaChaPoly(_, kLen) => CheckLength(DecodeU32(Apply(s, kLen, seqno, 0, first4)), 8)
    case Gcm(_, _) => CheckLength(DecodeU32(first4), 16)
  }

  function BodyLen(c: Cipher, len: nat): nat {
    if c.Plain? then len else len + TAG_LEN
  }

  /** Authenticating and decrypting a body. AES-GCM's counter moves only when the tag is right. */
  function Open(s: Suite, c: Cipher, seqno: nat, first4: seq<byte>, body: seq<byte>): (Option<seq<byte>>, Cipher)
    requires c.Valid() && |first4| == 4 && (c.Plain? || |body| >= TAG_LEN)
  {
    match c
    case Plain => (Unpad(body), c)
    case ChaChaPoly(kMain, _) => (OpenChaCha(s, kMain, seqno, first4, body), c)
    case Gcm(key, iv) =>
      var n := |body| - TAG_LEN;
      match s.gcmOpen(key, iv, first4, body[..n], body[n..])
      case None => (None, c)
      case Some(block) => (Unpad(block), Gcm(key, Bumped(iv)))
  }

  function OpenChaCha(s: Suite, kMain: seq<byte>, seqno: nat, first4: seq<byte>, body: seq<byte>): Option<seq<byte>>
    requires |body| >= TAG_LEN
  {
    var n := |body| - TAG_LEN;
    if ComputeUnpadded(s, PolyKey(s, kMain, seqno), 0, first4 + body[..n]) != body[n..] then None
    else Unpad(Apply(s, kMain, seqno, 64, body[..n]))
  }

  function Align(c: Cipher): nat {
    if c.Gcm? then 16 else 8
  }

  /** The length field of a sealed packet. */
  function SealedLength(c: Cipher, payload: seq<byte>): nat {
    1 + |payload| + PadLen(|payload|, Align(c), c.Plain?)
  }

  /** A sealed packet opens to its payload, with both sides' ciphers in step, and the receiver takes
  its length exactly when the padded packet is within the limit. */
  lemma SealThenOpen(s: Suite, c: Cipher, seqno: nat, payload: seq<byte>, fill: nat -> byte)
    requires Lawful(s) && c.Valid() && |payload| < U32 - 64
    ensures var (wire, c') := Seal(s, c, seqno, payload, fill); var len := SealedLength(c, payload);
      && |wire| == 4 + BodyLen(c, len) && c'.Valid()
      && PacketLength(s, c, seqno, wire[..4]) == (if len <= MAX_PACKET then Some(len) else None)
      && Open(s, c, seqno, wire[..4], wire[4..]) == (Some(payload), c')
  {
    match c
    case Plain => SealPlain(s, seqno, payload, fill);
    case ChaChaPoly(_, _) => SealChaCha(s, c, seqno, payload, fill);
    case Gcm(_, _) => SealGcm(s, c, seqno, payload, fill);
  }

  lemma SealPlain(s: Suite, seqno: nat, payload: seq<byte>, fill: nat -> byte)
    requires |payload| < U32 - 64
    ensures var (wire, c') := Seal(s, Plain, seqno, payload, fill); var len := SealedLength(Plain, payload);
      && |wire| == 4 + len && c' == Plain
      && PacketLength(s, Plain, seqno, wire[..4]) == (if len <= MAX_PACKET then Some(len) else None)
      && Open(s, Plain, seqno, wire[..4], wire[4..]) == (Some(payload), c')
  {
    hide EncodeU32, DecodeU32, PadLen, Unpad;
    var block := Padded(payload, 8, true, fill);
    var wire := EncodeU32(|block|) + block;
    assert wire[..4] == EncodeU32(|block|) && wire[4..] == block;
    DecodesU32(|block|);
    UnpadsPadded(payload, 8, true, fill);
  }

  lemma SealChaCha(s: Suite, c: Cipher, seqno: nat, payload: seq<byte>, fill: nat -> byte)
    requires Lawful(s) && c.ChaChaPoly? && |payload| < U32 - 64
    ensures var (wire, c') := Seal(s, c, seqno, payload, fill); var len := SealedLength(c, payload);
      && |wire| == 4 + BodyLen(c, len) && c' == c
      && PacketLength(s, c, seqno, wire[..4]) == (if len <= MAX_PACKET then Some(len) else None)
      && Open(s, c, seqno, wire[..4], wire[4..]) == (Some(payload), c')
  {
    hide EncodeU32, DecodeU32, PadLen, Unpad, Apply, PolyKey, Absorbed, Leftover;
    var block := Padded(payload, 8, false, fill);
    var head := Apply(s, c.kLen, seqno, 0, EncodeU32(|block|));
    var ct := Apply(s, c.kMain, seqno, 64, block);
    var tag := ComputeUnpadded(s, PolyKey(s, c.kMain, seqno), 0, head + ct);
    var wire := head + ct + tag;
    assert wire[..4] == head && wire[4..] == ct + tag;
    assert wire[4..][..|ct|] == ct && wire[4..][|ct|..] == tag;
    AppliedTwice(s, c.kLen, seqno, 0, EncodeU32(|block|));
    AppliedTwice(s, c.kMain, seqno, 64, block);
    DecodesU32(|block|);
    UnpadsPadded(payload, 8, false, fill);
  }

  lemma SealGcm(s: Suite, c: Cipher, seqno: nat, payload: seq<byte>, fill: nat -> byte)
    requires Lawful(s) && c.Gcm? && c.Valid() && |payload| < U32 - 64
    ensures var (wire, c') := Seal(s, c, seqno, payload, fill); var len := SealedLength(c, payload);
      && |wire| == 4 + BodyLen(c, len) && c' == Gcm(c.key, Bumped(c.iv))
      && PacketLength(s, c, seqno, wire[..4]) == (if len <= MAX_PACKET then Some(len) else None)
      && Open(s, c, seqno, wire[..4], wire[4..]) == (Some(payload), c')
  {
    hide EncodeU32, DecodeU32, PadLen, Unpad, Bumped;
    var block := Padded(payload, 16, false, fill);
    var len := EncodeU32(|block|);
    var sealed := s.gcmSeal(c.key, c.iv, len, block);
    var wire := len + sealed.0 + sealed.1;
    assert wire[..4] == len && wire[4..] == sealed.0 + sealed.1;
    assert wire[4..][..|block|] == sealed.0 && wire[4..][|block|..] == sealed.1;
    DecodesU32(|block|);
    UnpadsPadded(payload, 16, false, fill);
  }

  // ------------------------------------------------------------ which lengths are taken

  /** A length is taken exactly when it leaves room for padding, is within the limit, and makes whole
  blocks: with its own four bytes in the clear, without them under a cipher. */
  lemma LengthMeans(s: Suite, c: Cipher, seqno: nat, first4: seq<byte>)
    requires |first4| == 4
    ensures var len := DecodeU32(if c.ChaChaPoly? then Apply(s, c.kLen, seqno, 0, first4) else first4);
      var blocks := if c.Gcm? then len % 16 == 0 else if c.ChaChaPoly? then len % 8 == 0 else (len + 4) % 8 == 0;
      PacketLength(s, c, seqno, first4) == if 5 <= len <= 262144 && blocks then Some(len) else None
  {
    hide DecodeU32, Apply;
  }

  // ------------------------------------------------------------ what opens was sealed

  /** AES-GCM opens nothing but what it sealed. */
  ghost predicate Authentic(s: Suite) {
    forall key, nonce, aad, ct, tag, plain :: s.gcmOpen(key, nonce, aad, ct, tag) == Some(plain) ==> s.gcmSeal(key, nonce, aad, plain) == (ct, tag)
  }

  /** A padded block, sealed behind its four length bytes: the ciphertext, and the tag over both. */
  function SealedBlock(s: Suite, c: Cipher, seqno: nat, first4: seq<byte>, block: seq<byte>): seq<byte> {
    match c
    case Plain => block
    case ChaChaPoly(kMain, _) =>
      var ct := Apply(s, kMain, seqno, 64, block);
      ct + ComputeUnpadded(s, PolyKey(s, kMain, seqno), 0, first4 + ct)
    case Gcm(key, iv) => var sealed := s.gcmSeal(key, iv, first4, block); sealed.0 + sealed.1
  }

  /** The padding's length, the payload, and at least four bytes of padding. */
  predicate IsBlock(block: seq<byte>, payload: seq<byte>, pad: seq<byte>) {
    |pad| >= MIN_PAD && |pad| < 256 && block == [|pad|] + payload + pad
  }

  lemma UnpadInverse(block: seq<byte>) returns (pad: seq<byte>)
    requires Unpad(block).Some?
    ensures IsBlock(block, Unpad(block).value, pad)
  {
    var rest := block[1..];
    pad := rest[|rest| - block[0]..];
    assert block == [block[0]] + rest;
  }

  lemma ChaChaBlock(s: Suite, c: Cipher, seqno: nat, first4: seq<byte>, body: seq<byte>) returns (block: seq<byte>)
    requires Lawful(s) && c.ChaChaPoly? && |first4| == 4 && |body| >= TAG_LEN && OpenChaCha(s, c.kMain, seqno, first4, body).Some?
    ensures Unpad(block) == OpenChaCha(s, c.kMain, seqno, first4, body) && SealedBlock(s, c, seqno, first4, block) == body
  {
    hide Unpad, Apply, ComputeUnpadded, PolyKey;
    var n := |body| - TAG_LEN;
    assert body == body[..n] + body[n..];
    block := Apply(s, c.kMain, seqno, 64, body[..n]);
    AppliedTwice(s, c.kMain, seqno, 64, body[..n]);
  }

  lemma GcmBlock(s: Suite, c: Cipher, first4: seq<byte>, body: seq<byte>) returns (block: seq<byte>)
    requires Authentic(s) && c.Gcm? && c.Valid() && |first4| == 4 && |body| >= TAG_LEN && Open(s, c, 0, first4, body).0.Some?
    ensures Unpad(block) == Open(s, c, 0, first4, body).0 && SealedBlock(s, c, 0, first4, block) == body
  {
    hide Unpad, Bumped;
    var n := |body| - TAG_LEN;
    assert body == body[..n] + body[n..];
    block := s.gcmOpen(c.key, c.iv, first4, body[..n], body[n..]).value;
  }

  /** Nothing opens but what was sealed, bit for bit, under this cipher, this number and these length
  bytes: so a body whose tag is not that of its bytes yields no payload. */
  lemma OpenedWasSealed(s: Suite, c: Cipher, seqno: nat, first4: seq<byte>, body: seq<byte>)
    requires Lawful(s) && Authentic(s) && c.Valid() && |first4| == 4 && (c.Plain? || |body| >= TAG_LEN)
    ensures var payload := Open(s, c, seqno, first4, body).0;
      payload.Some? ==> exists pad, block :: IsBlock(block, payload.value, pad) && SealedBlock(s, c, seqno, first4, block) == body
  {
    hide Unpad, Apply, ComputeUnpadded, PolyKey, IsBlock, Lawful, Authentic, Bumped;
    var payload := Open(s, c, seqno, first4, body).0;
    if payload.Some? {
      var block;
      match c {
        case Plain => block := body;
        case ChaChaPoly(_, _) => block := ChaChaBlock(s, c, seqno, first4, body);
        case Gcm(_, _) => block := GcmBlock(s, c, first4, body);
      }
      var pad := UnpadInverse(block);
      assert IsBlock(block, payload.value, pad) && SealedBlock(s, c, seqno, first4, block) == body;
    }
  }

  /** What is refused leaves the cipher as it was. */
  lemma RefusedUnchanged(s: Suite, c: Cipher, seqno: nat, first4: seq<byte>, body: seq<byte>)
    requires c.Gcm? && c.Valid() && |first4| == 4 && |body| >= TAG_LEN
    ensures var (payload, c') := Open(s, c, seqno, first4, body);
      if s.gcmOpen(c.key, c.iv, first4, body[..|body| - TAG_LEN], body[|body| - TAG_LEN..]).None? then payload.None? && c' == c
      else c' == Gcm(c.key, Bumped(c.iv))
  {
  }

  // ------------------------------------------------------------ what is on the wire

  ghost function Joined(blocks: seq<seq<byte>>): seq<byte> {
    if blocks == [] then [] else blocks[0] + Joined(blocks[1..])
  }

  ghost function Fed(s: Suite, key: seq<byte>, acc: nat, blocks: seq<seq<byte>>): nat
    decreases |blocks|
  {
    if blocks == [] then acc else Fed(s, key, s.absorb(key, acc, blocks[0]), blocks[1..])
  }

  /** A tag is taken over every whole block in order, and then over what is left. */
  lemma {:induction false} TagMeans(s: Suite, key: seq<byte>, acc: nat, blocks: seq<seq<byte>>, tail: seq<byte>)
    requires |tail| < 16 && forall k :: 0 <= k < |blocks| ==> |blocks[k]| == 16
    ensures ComputeUnpadded(s, key, acc, Joined(blocks) + tail) == s.finish(key, Fed(s, key, acc, blocks), tail)
    decreases |blocks|
  {
    if blocks == [] {
      assert Joined(blocks) + tail == tail;
    } else {
      var data := Joined(blocks) + tail;
      assert data[..16] == blocks[0] && data[16..] == Joined(blocks[1..]) + tail;
      TagMeans(s, key, s.absorb(key, acc, blocks[0]), blocks[1..], tail);
    }
  }

  /** A sealed packet, byte by byte. In the clear: its length and its block. ChaCha20-Poly1305: the length
  under the second key; the block under the first, from the second 64 bytes of its keystream on; the tag
  over both, under the first 32 bytes of that keystream. AES-GCM: the length in the clear, and the block
  sealed with it under the IV. */
  ghost predicate OnWire(s: Suite, c: Cipher, seqno: nat, block: seq<byte>, wire: seq<byte>)
    requires |block| < U32
  {
    match c
    case Plain => wire == EncodeU32(|block|) + block
    case ChaChaPoly(kMain, kLen) =>
      var n := 4 + |block|;
      && |wire| == n + 16
      && (forall i :: 0 <= i < 4 ==> wire[i] == s.xor(EncodeU32(|block|)[i], s.stream(kLen, seqno, i)))
      && (forall i :: 4 <= i < n ==> wire[i] == s.xor(block[i - 4], s.stream(kMain, seqno, 60 + i)))
      && wire[n..] == ComputeUnpadded(s, seq<byte>(32, i requires 0 <= i < 32 => s.stream(kMain, seqno, i)), 0, wire[..n])
    case Gcm(key, iv) =>
      var (text, tag) := s.gcmSeal(key, iv, EncodeU32(|block|), block);
      wire == EncodeU32(|block|) + text + tag
  }

  lemma ChaChaOnWire(s: Suite, c: Cipher, seqno: nat, block: seq<byte>)
    requires Lawful(s) && c.ChaChaPoly? && |block| < U32
    ensures var out := Apply(s, c.kLen, seqno, 0, EncodeU32(|block|)) + Apply(s, c.kMain, seqno, 64, block);
      OnWire(s, c, seqno, block, out + ComputeUnpadded(s, PolyKey(s, c.kMain, seqno), 0, out))
  {
    hide EncodeU32, Absorbed, Leftover;
    var out := Apply(s, c.kLen, seqno, 0, EncodeU32(|block|)) + Apply(s, c.kMain, seqno, 64, block);
    var tag := ComputeUnpadded(s, PolyKey(s, c.kMain, seqno), 0, out);
    assert (out + tag)[..4 + |block|] == out && (out + tag)[4 + |block|..] == tag;
  }

  /** What sealing puts on the wire is the payload behind the length of its padding, sealed so. */
  lemma SealedOnWire(s: Suite, c: Cipher, seqno: nat, payload: seq<byte>, fill: nat -> byte)
    requires Lawful(s) && c.Valid() && |payload| < U32 - 64
    ensures exists pad, block ::
      IsBlock(block, payload, pad) && |block| < U32 && OnWire(s, c, seqno, block, Seal(s, c, seqno, payload, fill).0)
  {
    hide EncodeU32, PadLen, ComputeUnpadded, Apply, PolyKey, IsBlock, Bumped, Lawful;
    var block := Padded(payload, Align(c), c.Plain?, fill);
    var pad := PaddedBlock(payload, Align(c), c.Plain?, fill);
    if c.ChaChaPoly? {
      hide OnWire;
      ChaChaOnWire(s, c, seqno, block);
    }
    assert IsBlock(block, payload, pad) && OnWire(s, c, seqno, block, Seal(s, c, seqno, payload, fill).0);
  }

  lemma PaddedBlock(payload: seq<byte>, align: nat, lengthCounts: bool, fill: nat -> byte) returns (pad: seq<byte>)
    requires align == 8 || align == 16
    ensures IsBlock(Padded(payload, align, lengthCounts, fill), payload, pad)
  {
    var n := PadLen(|payload|, align, lengthCounts);
    pad := seq<byte>(n, i requires 0 <= i < n => fill(i));
  }

  // ------------------------------------------------------------ opening in place

  lemma AbsorbBlock(s: Suite, key: seq<byte>, acc: nat, data: seq<byte>)
    requires |data| >= 16
    ensures ComputeUnpadded(s, key, acc, data) == ComputeUnpadded(s, key, s.absorb(key, acc, data[..16]), data[16..])
  {
  }

  /** The tag of `first4` followed by `ct`, without joining the two: one mixed block, then the blocks
  of the ciphertext, then its tail. */
  method IncrementalTag(s: Suite, key: seq<byte>, first4: seq<byte>, ct: seq<byte>) returns (tag: seq<byte>)
    requires |first4| == 4
    ensures tag == ComputeUnpadded(s, key, 0, first4 + ct)
  {
    hide Absorbed, Leftover;
    if |ct| < 12 {
      var block := first4 + ct;
      tag := ComputeUnpadded(s, key, 0, block[..4 + |ct|]);
      assert block[..4 + |ct|] == block;
      return;
    }
    var whole := first4 + ct;
    AbsorbBlock(s, key, 0, whole);
    assert whole[..16] == first4 + ct[..12] && whole[16..] == ct[12..];
    var acc := s.absorb(key, 0, first4 + ct[..12]);
    var rest := ct[12..];
    var aligned := |rest| / 16 * 16;
    var i := 0;
    while i < aligned
      invariant 0 <= i <= aligned && i % 16 == 0
      invariant ComputeUnpadded(s, key, acc, rest[i..]) == ComputeUnpadded(s, key, 0, whole)
    {
      AbsorbBlock(s, key, acc, rest[i..]);
      assert rest[i..][..16] == rest[i..i + 16] && rest[i..][16..] == rest[i + 16..];
      acc := s.absorb(key, acc, rest[i..i + 16]);
      i := i + 16;
    }
    tag := ComputeUnpadded(s, key, acc, rest[aligned..]);
  }

  /** Xor the first `n` bytes of `a` with the keystream, in place. */
  method ApplyInPlace(s: Suite, key: seq<byte>, nonce: nat, start: nat, a: array<byte>, n: nat)
    requires n <= a.Length
    modifies a
    ensures a[..n] == Apply(s, key, nonce, start, old(a[..n])) && a[n..] == old(a[n..])
  {
    var i := 0;
    while i < n
      invariant 0 <= i <= n
      invariant forall k :: 0 <= k < i ==> a[k] == s.xor(old(a[k]), s.stream(key, nonce, start + k))
      invariant forall k :: i <= k < a.Length ==> a[k] == old(a[k])
    {
      a[i] := s.xor(a[i], s.stream(key, nonce, start + i));
      i := i + 1;
    }
  }

  class ChaChaPolyCipher {
    const suite: Suite
    const kMain: seq<byte>
    const kLen: seq<byte>

    constructor (suite: Suite, key: seq<byte>)
      requires |key| == 64
      ensures this.suite == suite && kMain == key[..32] && kLen == key[32..]
    {
      this.suite, kMain, kLen := suite, key[..32], key[32..];
    }

    ghost predicate Genuine(seqno: nat, first4: seq<byte>, body: seq<byte>)
      requires |body| >= TAG_LEN
    {
      var n := |body| - TAG_LEN;
      ComputeUnpadded(suite, PolyKey(suite, kMain, seqno), 0, first4 + body[..n]) == body[n..]
    }

    /** Opens a body in place. A body whose tag is wrong is left as it came. */
    method OpenInPlace(seqno: nat, first4: seq<byte>, body: array<byte>) returns (payload: Option<seq<byte>>)
      requires |first4| == 4 && body.Length >= TAG_LEN
      modifies body
      ensures payload == OpenChaCha(suite, kMain, seqno, first4, old(body[..]))
      ensures Genuine(seqno, first4, old(body[..])) || (payload.None? && body[..] == old(body[..]))
    {
      hide Absorbed, Leftover, Unpad, Apply;
      var n := body.Length - TAG_LEN;
      assert body[..][..n] == body[..n] && body[..][n..] == body[n..];
      var tag := IncrementalTag(suite, PolyKey(suite, kMain, seqno), first4, body[..n]);
      if tag != body[n..] {
        return None;
      }
      ApplyInPlace(suite, kMain, seqno, 64, body, n);
      payload := Unpad(body[..n]);
    }
  }

  class GcmCipher {
    const suite: Suite
    const key: seq<byte>
    var iv: seq<byte>

    ghost predicate Valid()
      reads this
    {
      |iv| == 12
    }

    ghost function View(): Cipher
      reads this
    {
      Gcm(key, iv)
    }

    constructor (suite: Suite, key: seq<byte>, iv: seq<byte>)
      requires |key| == 32 && |iv| == 12
      ensures Valid() && this.suite == suite && View() == Gcm(key, iv)
    {
      this.suite, this.key, this.iv := suite, key, iv;
    }

    /** Hands out the current nonce and moves the invocation counter on by one. */
    method Bump() returns (nonce: seq<byte>)
      requires Valid()
      modifies this
      ensures Valid() && nonce == old(iv) && iv == Bumped(old(iv))
      ensures iv[..4] == old(iv)[..4] && Counter(iv) == (Counter(old(iv)) + 1) % U64
    {
      nonce := iv;
      CounterBumps(iv);
      iv := iv[..4] + EncodeU64((Counter(iv) + 1) % U64);
    }

    method SealPacket(seqno: nat, payload: seq<byte>, fill: nat -> byte) returns (wire: seq<byte>)
      requires Valid() && |payload| < U32 - 64
      modifies this
      ensures Valid() && (wire, View()) == Seal(suite, old(View()), seqno, payload, fill)
    {
      var block := Padded(payload, 16, false, fill);
      var len := EncodeU32(|block|);
      var nonce := Bump();
      var sealed := suite.gcmSeal(key, nonce, len, block);
      wire := len + sealed.0 + sealed.1;
    }

    method OpenPacket(seqno: nat, first4: seq<byte>, body: seq<byte>) returns (payload: Option<seq<byte>>)
      requires Valid() && |first4| == 4 && |body| >= TAG_LEN
      modifies this
      ensures Valid() && (payload, View()) == Open(suite, old(View()), seqno, first4, body)
    {
      var n := |body| - TAG_LEN;
      var block := suite.gcmOpen(key, iv, first4, body[..n], body[n..]);
      if block.None? {
        return None;
      }
      var _ := Bump();
      payload := Unpad(block.value);
    }
  }
}
