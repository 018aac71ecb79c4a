/** The incremental, cancel-safe packet reader (src/transport/mod.rs, `recv_raw`).

The reader takes whatever the socket yields, a few bytes at a time, and keeps its progress in the
transport, so a call may be dropped at any wait and issued again. It is proved to return exactly the
packets of an atomic reader that sees the whole stream. */
module PacketReader {
  import opened Bytes
  import opened Wire
  import opened Cipher

  datatype ReadState =
    | Idle
    | Header(first4: seq<byte>, got: nat)
    | Body(first4: seq<byte>, buf: seq<byte>, got: nat)

  datatype Fault = Closed | BadLength | BadPacket | EmptyPayload

  datatype Poll = Pending | Ready(payload: seq<byte>) | Failed(fault: Fault)

  // ------------------------------------------------------------ the atomic reader

  datatype Atomic = NeedMore | Bad(fault: Fault) | Got(payload: seq<byte>, next: Cipher, used: nat)

  /** One packet off the front of `input`, all at once. */
  function AtomicRead(s: Suite, c: Cipher, seqno: nat, input: seq<byte>): (r: Atomic)
    requires c.Valid()
    ensures r.Got? ==> 4 <= r.used <= |input| && r.next.Valid() && r.payload != []
  {
    if |input| < 4 then NeedMore
    else match PacketLength(s, c, seqno, input[..4])
      case None => Bad(BadLength)
      case Some(len) =>
        var n := BodyLen(c, len);
        if |input| < 4 + n then NeedMore
        else
          var (payload, c') := Open(s, c, seqno, input[..4], input[4..4 + n]);
          if payload.None? then Bad(BadPacket)
          else if payload.value == [] then Bad(EmptyPayload)
          else Got(payload.value, c', 4 + n)
  }

  /** Where an atomic reader stands after some packets. */
  datatype Place = Place(packets: seq<seq<byte>>, cipher: Cipher, seqno: nat, offset: nat)

  /** Reading `k` packets of `input` one after the other. */
  function AtomicRun(s: Suite, c: Cipher, seqno: nat, input: seq<byte>, k: nat): (r: Option<Place>)
    requires c.Valid()
    ensures r.Some? ==> r.value.cipher.Valid() && r.value.offset <= |input| && |r.value.packets| == k
  {
    if k == 0 then Some(Place([], c, seqno, 0))
    else
      var at :- AtomicRun(s, c, seqno, input, k - 1);
      match AtomicRead(s, at.cipher, at.seqno, input[at.offset..])
      case Got(payload, next, used) =>
        Some(Place(at.packets + [payload], next, Inc32(at.seqno), at.offset + used))
      case _ => None
  }

  // ------------------------------------------------------------ the reader

  class Reader {
    const suite: Suite
    /** Everything the socket will ever yield; `pos` of it has been read. */
    const input: seq<byte>
    var pos: nat
    var rx: Cipher
    var rxSeq: nat
    var state: ReadState
    /** Where the packet being read begins. */
    ghost var start: nat

    ghost predicate Valid()
      reads this
    {
      && start <= pos <= |input| && rx.Valid()
      && match state
         case Idle => pos == start
         case Header(first4, got) =>
           |first4| == 4 && got <= 4 && pos == start + got && first4[..got] == input[start..pos]
         case Body(first4, buf, got) =>
           && start + 4 <= |input| && first4 == input[start..start + 4]
           && PacketLength(suite, rx, rxSeq, first4).Some?
           && |buf| == BodyLen(rx, PacketLength(suite, rx, rxSeq, first4).value)
           && got <= |buf| && pos == start + 4 + got && buf[..got] == input[start + 4..pos]
    }

    constructor (suite: Suite, input: seq<byte>, rx: Cipher, rxSeq: nat)
      requires rx.Valid()
      ensures Valid() && this.suite == suite && this.input == input
      ensures this.rx == rx && this.rxSeq == rxSeq && start == 0 && pos == 0
    {
      this.suite, this.input, this.rx, this.rxSeq := suite, input, rx, rxSeq;
      pos, start, state := 0, 0, Idle;
    }

    /** What the atomic reader would find at the packet being read. */
    ghost function Ahead(): Atomic
      reads this
      requires Valid()
    {
      AtomicRead(suite, rx, rxSeq, input[start..])
    }

    /** A read into a buffer with room for `room` bytes: the socket offers `offer` of them. */
    function Arriving(offer: nat, room: nat): (n: nat)
      reads this
      ensures n <= room && n <= offer && (pos <= |input| ==> pos + n <= |input|)
    {
      var left := if pos <= |input| then |input| - pos else 0;
      if offer <= room && offer <= left then offer else if room <= left then room else left
    }

    /** Still waiting for bytes of the header or of the body. */
    predicate Hungry()
      reads this
    {
      (state.Header? && state.got < 4) || (state.Body? && state.got < |state.buf|)
    }

    /** `n` more bytes come in. */
    method Fill(n: nat)
      requires Valid() && Hungry() && 0 < n && pos + n <= |input|
      requires n <= if state.Header? then 4 - state.got else |state.buf| - state.got
      modifies this
      ensures Valid() && pos == old(pos) + n && start == old(start) && rx == old(rx) && rxSeq == old(rxSeq)
      ensures state.Header? == old(state.Header?) && state.Body? == old(state.Body?)
    {
      hide PacketLength, BodyLen;
      match state {
        case Header(first4, got) =>
          var filled := first4[..got] + input[pos..pos + n] + first4[got + n..];
          assert filled[..got + n] == input[start..pos + n];
          state := Header(filled, got + n);
        case Body(first4, buf, got) =>
          var filled := buf[..got] + input[pos..pos + n] + buf[got + n..];
          assert filled[..got + n] == input[start + 4..pos + n];
          state := Body(first4, filled, got + n);
      }
      pos := pos + n;
    }

    /** A hungry reader that has had every byte cannot have a whole packet. */
    lemma HungryNeedsMore()
      requires Valid() && Hungry() && pos == |input|
      ensures Ahead() == NeedMore
    {
      if state.Body? {
        assert state.first4 == input[start..][..4];
      }
    }

    /** One call. `offers` is what the socket yields at each read, 0 being its end; when it runs out,
    or no byte has arrived, the call is dropped where it waits. */
    method RecvRaw(offers: seq<nat>) returns (r: Poll)
      requires Valid()
      modifies this
      ensures r.Pending? ==>
        && Valid() && start == old(start) && rx == old(rx) && rxSeq == old(rxSeq) && pos >= old(pos)
        && (pos == |input| ==> Ahead() == NeedMore)
      ensures r.Ready? ==>
        && Valid() && state.Idle? && rxSeq == Inc32(old(rxSeq))
        && start > old(start) && old(Ahead()) == Got(r.payload, rx, start - old(start))
      ensures r.Failed? ==> r.fault == Closed || old(Ahead()) == Bad(r.fault)
    {
      hide PacketLength, Open, BodyLen, AtomicRead;
      var i := 0;
      while true
        invariant 0 <= i <= |offers| && Valid() && pos >= old(pos)
        invariant start == old(start) && rx == old(rx) && rxSeq == old(rxSeq)
        decreases |offers| - i, if state.Idle? then 2 else if state.Header? then 1 else 0
      {
        if Hungry() {
          if i < |offers| && offers[i] == 0 {
            return Failed(Closed);
          }
          var n := if i == |offers| then 0
                   else Arriving(offers[i], if state.Header? then 4 - state.got else |state.buf| - state.got);
          if n == 0 {
            if pos == |input| { HungryNeedsMore(); }
            return Pending;
          }
          Fill(n);
          i := i + 1;
        } else if state.Idle? {
          state := Header([0, 0, 0, 0], 0);
        } else if state.Header? {
          var first4 := state.first4;
          assert first4 == input[start..start + 4];
          var len := PacketLength(suite, rx, rxSeq, first4);
          if len.None? {
            LengthRefused();
            return Failed(BadLength);
          }
          state := Body(first4, seq(BodyLen(rx, len.value), _ => 0), 0);
        } else {
          r := OpenBody(state.first4, state.buf);
          return;
        }
      }
    }

    lemma LengthRefused()
      requires Valid() && state.Header? && state.got == 4
      requires PacketLength(suite, rx, rxSeq, state.first4).None?
      ensures Ahead() == Bad(BadLength)
    {
      assert state.first4 == input[start..][..4];
    }

    /** A whole packet has been read. */
    method OpenBody(first4: seq<byte>, buf: seq<byte>) returns (r: Poll)
      requires Valid() && state == Body(first4, buf, |buf|)
      modifies this
      ensures !r.Pending?
      ensures r.Ready? ==>
        && Valid() && state.Idle? && rxSeq == Inc32(old(rxSeq)) && pos == old(pos) && start > old(start)
        && old(Ahead()) == Got(r.payload, rx, start - old(start))
      ensures r.Failed? ==> old(Ahead()) == Bad(r.fault)
    {
      hide PacketLength, Open;
      assert first4 == input[start..][..4];
      assert buf == input[start + 4..pos] == input[start..][4..4 + |buf|];
      state := Idle;
      var (payload, next) := Open(suite, rx, rxSeq, first4, buf);
      if payload.None? {
        return Failed(BadPacket);
      }
      rxSeq := Inc32(rxSeq);
      if payload.value == [] {
        return Failed(EmptyPayload);
      }
      OpenKeepsValid(suite, rx, old(rxSeq), first4, buf);
      rx := next;
      start := pos;
      return Ready(payload.value);
    }
  }

  lemma OpenKeepsValid(s: Suite, c: Cipher, seqno: nat, first4: seq<byte>, body: seq<byte>)
    requires c.Valid() && |first4| == 4 && (c.Plain? || |body| >= TAG_LEN)
    ensures Open(s, c, seqno, first4, body).1.Valid()
  {
  }

  /** Any number of calls, each dropped anywhere: the packets returned are those of the atomic reader,
  from the first on, and once every byte has arrived there is no further packet to be had. */
  method ReadAll(s: Suite, c: Cipher, seqno: nat, input: seq<byte>, calls: seq<seq<nat>>)
      returns (packets: seq<seq<byte>>, failed: Option<Fault>, drained: bool)
    requires c.Valid()
    ensures AtomicRun(s, c, seqno, input, |packets|).Some?
    ensures var at := AtomicRun(s, c, seqno, input, |packets|).value;
      var ahead := AtomicRead(s, at.cipher, at.seqno, input[at.offset..]);
      && at.packets == packets
      && (failed.Some? && failed.value != Closed ==> ahead == Bad(failed.value))
      && (drained ==> ahead == NeedMore)
  {
    hide AtomicRead, Inc32;
    var reader := new Reader(s, input, c, seqno);
    packets, failed, drained := [], None, false;
    ghost var at := Place([], c, seqno, 0);
    for i := 0 to |calls|
      invariant fresh(reader) && reader.Valid() && reader.suite == s && reader.input == input
      invariant failed.None? && AtomicRun(s, c, seqno, input, |packets|) == Some(at) && at.packets == packets
      invariant at == Place(packets, reader.rx, reader.rxSeq, reader.start)
      invariant drained ==> reader.Ahead() == NeedMore
    {
      var r := reader.RecvRaw(calls[i]);
      match r {
        case Pending => drained := reader.pos == |input|;
        case Ready(payload) =>
          packets := packets + [payload];
          at := Place(packets, reader.rx, reader.rxSeq, reader.start);
          drained := false;
        case Failed(fault) =>
          failed, drained := Some(fault), false;
          return;
      }
    }
  }

  // ------------------------------------------------------------ a sealed stream reads back

  lemma ReadExtends(s: Suite, c: Cipher, seqno: nat, a: seq<byte>, b: seq<byte>)
    requires c.Valid() && AtomicRead(s, c, seqno, a).Got?
    ensures AtomicRead(s, c, seqno, a + b) == AtomicRead(s, c, seqno, a)
  {
    hide PacketLength, Open;
    assert (a + b)[..4] == a[..4];
    var n := AtomicRead(s, c, seqno, a).used;
    assert (a + b)[4..n] == a[4..n];
  }

  predicate Sendable(c: Cipher, payload: seq<byte>) {
    payload != [] && |payload| < U32 - 64 && SealedLength(c, payload) <= MAX_PACKET
  }

  predicate AllSendable(c: Cipher, payloads: seq<seq<byte>>) {
    payloads == [] || (Sendable(c, payloads[0]) && AllSendable(c, payloads[1..]))
  }

  /** The sender's side: each payload sealed in turn. */
  function SealAll(s: Suite, c: Cipher, seqno: nat, payloads: seq<seq<byte>>, fill: nat -> byte): seq<byte>
    requires c.Valid() && AllSendable(c, payloads)
    decreases |payloads|
  {
    if payloads == [] then []
    else
      var (wire, next) := Seal(s, c, seqno, payloads[0], fill);
      SameKind(c, next, payloads[1..]);
      wire + SealAll(s, next, Inc32(seqno), payloads[1..], fill)
  }

  lemma {:induction false} SameKind(a: Cipher, b: Cipher, payloads: seq<seq<byte>>)
    requires a.Plain? == b.Plain? && a.Gcm? == b.Gcm?
    ensures AllSendable(a, payloads) == AllSendable(b, payloads)
    decreases |payloads|
  {
    if payloads != [] { SameKind(a, b, payloads[1..]); }
  }

  /** The atomic reader takes exactly `packets` off `input`, one after the other, and nothing is left. */
  ghost predicate Yields(s: Suite, c: Cipher, seqno: nat, input: seq<byte>, packets: seq<seq<byte>>)
    requires c.Valid()
    decreases |packets|
  {
    if packets == [] then input == []
    else match AtomicRead(s, c, seqno, input)
      case Got(payload, next, used) =>
        payload == packets[0] && Yields(s, next, Inc32(seqno), input[used..], packets[1..])
      case _ => false
  }

  lemma OneReadsBack(s: Suite, c: Cipher, seqno: nat, payload: seq<byte>, fill: nat -> byte)
    requires Lawful(s) && c.Valid() && Sendable(c, payload)
    ensures var (wire, next) := Seal(s, c, seqno, payload, fill);
      AtomicRead(s, c, seqno, wire) == Got(payload, next, |wire|)
  {
    hide Seal, Lawful, PacketLength, Open, SealedLength;
    SealThenOpen(s, c, seqno, payload, fill);
    var wire := Seal(s, c, seqno, payload, fill).0;
    assert wire[4..|wire|] == wire[4..];
  }

  lemma SealKeepsKind(s: Suite, c: Cipher, seqno: nat, payload: seq<byte>, fill: nat -> byte)
    requires c.Valid() && |payload| < U32 - 64
    ensures var next := Seal(s, c, seqno, payload, fill).1; next.Valid() && c.Plain? == next.Plain? && c.Gcm? == next.Gcm?
  {
  }

  /** What is sealed in turn, the atomic reader takes off the stream in turn. */
  lemma {:induction false} StreamReadsBack(s: Suite, c: Cipher, seqno: nat, payloads: seq<seq<byte>>, fill: nat -> byte)
    requires Lawful(s) && c.Valid() && AllSendable(c, payloads)
    ensures Yields(s, c, seqno, SealAll(s, c, seqno, payloads, fill), payloads)
    decreases |payloads|
  {
    hide Lawful, SealedLength, Seal, AtomicRead, Inc32;
    if payloads != [] {
      var first, rest := payloads[0], payloads[1..];
      OneReadsBack(s, c, seqno, first, fill);
      var (wire, next) := Seal(s, c, seqno, first, fill);
      SealKeepsKind(s, c, seqno, first, fill);
      SameKind(c, next, rest);
      var later := SealAll(s, next, Inc32(seqno), rest, fill);
      ReadExtends(s, c, seqno, wire, later);
      assert (wire + later)[|wire|..] == later;
      StreamReadsBack(s, next, Inc32(seqno), rest, fill);
    }
  }

  lemma YieldsNext(s: Suite, c: Cipher, seqno: nat, input: seq<byte>, packets: seq<seq<byte>>)
    requires c.Valid() && Yields(s, c, seqno, input, packets) && packets != []
    ensures var r := AtomicRead(s, c, seqno, input);
      r.Got? && r.payload == packets[0] && Yields(s, r.next, Inc32(seqno), input[r.used..], packets[1..])
  {
    hide AtomicRead, Inc32;
  }

  lemma RunNext(s: Suite, c: Cipher, seqno: nat, input: seq<byte>, k: nat)
    requires c.Valid() && AtomicRun(s, c, seqno, input, k).Some?
    ensures var at := AtomicRun(s, c, seqno, input, k).value;
      var r := AtomicRead(s, at.cipher, at.seqno, input[at.offset..]);
      if r.Got? then
        AtomicRun(s, c, seqno, input, k + 1) == Some(Place(at.packets + [r.payload], r.next, Inc32(at.seqno), at.offset + r.used))
      else AtomicRun(s, c, seqno, input, k + 1).None?
  {
    hide AtomicRead, Inc32;
  }

  /** After `k` of the packets a stream yields, the reader has those and the rest is still to come; so
  the calls of `ReadAll` over a sealed stream return the sent payloads, in order. */
  lemma {:induction false} RunYields(s: Suite, c: Cipher, seqno: nat, input: seq<byte>, packets: seq<seq<byte>>, k: nat)
    requires c.Valid() && Yields(s, c, seqno, input, packets) && k <= |packets|
    ensures var r := AtomicRun(s, c, seqno, input, k);
      && r.Some? && r.value.packets == packets[..k]
      && Yields(s, r.value.cipher, r.value.seqno, input[r.value.offset..], packets[k..])
  {
    if k == 0 {
      hide AtomicRead, Inc32, Yields;
      assert input[0..] == input && packets[0..] == packets;
    } else {
      hide AtomicRead, Inc32, Yields, AtomicRun;
      RunYields(s, c, seqno, input, packets, k - 1);
      var at := AtomicRun(s, c, seqno, input, k - 1).value;
      var rest := packets[k - 1..];
      assert rest[0] == packets[k - 1] && rest[1..] == packets[k..];
      YieldsNext(s, at.cipher, at.seqno, input[at.offset..], rest);
      RunNext(s, c, seqno, input, k - 1);
      var used := AtomicRead(s, at.cipher, at.seqno, input[at.offset..]).used;
      assert input[at.offset..][used..] == input[at.offset + used..];
    }
  }

  /** The reader over a sealed stream, however its calls are dropped, hands out the sent payloads in
  order, all of them once it has drained the stream, and never refuses a packet. */
  method ReceiveSealed(s: Suite, c: Cipher, seqno: nat, payloads: seq<seq<byte>>, fill: nat -> byte, calls: seq<seq<nat>>)
      returns (packets: seq<seq<byte>>, failed: Option<Fault>, drained: bool)
    requires Lawful(s) && c.Valid() && AllSendable(c, payloads)
    ensures packets <= payloads
    ensures failed.None? || failed.value == Closed
    ensures drained ==> packets == payloads
  {
    hide Lawful, AllSendable, SealAll, AtomicRead, Inc32;
    var wire := SealAll(s, c, seqno, payloads, fill);
    StreamReadsBack(s, c, seqno, payloads, fill);
    packets, failed, drained := ReadAll(s, c, seqno, wire, calls);
    ghost var at := AtomicRun(s, c, seqno, wire, |packets|).value;
    NoMoreThan(s, c, seqno, wire, payloads, |packets|);
    RunYields(s, c, seqno, wire, payloads, |packets|);
    NothingShort(s, at.cipher, at.seqno, wire[at.offset..], payloads[|packets|..]);
  }

  lemma NothingShort(s: Suite, c: Cipher, seqno: nat, input: seq<byte>, packets: seq<seq<byte>>)
    requires c.Valid() && Yields(s, c, seqno, input, packets)
    ensures !AtomicRead(s, c, seqno, input).Bad?
    ensures AtomicRead(s, c, seqno, input).NeedMore? == (packets == [])
  {
    hide PacketLength, Open, Inc32;
  }

  lemma {:induction false} NoMoreThan(s: Suite, c: Cipher, seqno: nat, input: seq<byte>, packets: seq<seq<byte>>, k: nat)
    requires c.Valid() && Yields(s, c, seqno, input, packets) && AtomicRun(s, c, seqno, input, k).Some?
    ensures k <= |packets|
  {
    hide AtomicRead, Inc32, Yields;
    if k > 0 {
      NoMoreThan(s, c, seqno, input, packets, k - 1);
      RunYields(s, c, seqno, input, packets, k - 1);
      var at := AtomicRun(s, c, seqno, input, k - 1).value;
      NothingShort(s, at.cipher, at.seqno, input[at.offset..], packets[k - 1..]);
    }
  }
}
