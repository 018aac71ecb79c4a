/** No nonce is used twice (src/transport/mod.rs, src/crypto/cipher.rs; section 9 of RFC 4253).

One end against a peer that may send anything, in any order: whatever arrives, what this end seals
within one key epoch carries strictly increasing sequence numbers that pass the rekey threshold by a
few packets at most, so the 32-bit sequence number never comes round. The cipher that seals them is
followed from packet to packet: the IV of AES-GCM has been bumped as often as the epoch has packets,
so it does not come round either. */
module Nonces {
  import opened Bytes
  import opened KexInit
  import opened Transport
  import opened Rekey
  import Cipher

  /** What an end may do or meet. `Leave` is the DISCONNECT that ends the connection. */
  datatype Event =
    | SendBody(body: seq<byte>)
    | Initiate(cookie: seq<byte>)
    | Pop
    | Meet(pkt: Packet, choice: Choice)
    | Leave

  predicate Allowed(e: End, ev: Event) {
    && e.fault.None?
    && match ev
       case SendBody(_) => e.phase.Idle? && e.txSeq < REKEY_PACKETS && e.rxSeq < REKEY_PACKETS
       case Initiate(_) => e.phase.Idle?
       case Pop => e.phase.Idle? && e.queued != []
       case Meet(_, _) => true
       case Leave => true
  }

  function React(e: End, ev: Event): Outcome
    requires Allowed(e, ev)
  {
    match ev
    case SendBody(body) => SendApp(e, body)
    case Initiate(cookie) => BeginRekey(e, cookie, false)
    case Pop => Outcome(e.(queued := e.queued[1..]), [], [])
    case Meet(pkt, choice) => Receive(e, pkt, choice)
    case Leave => Outcome(Sent(e, Disconnect).(fault := Some(PeerLeft)), [Sealed(e, Disconnect)], [])
  }

  /** An end together with everything it has sealed. */
  datatype Lone = Lone(end: End, log: Log)

  function Alone(side: Side, hostAlgos: seq<string>, hostKey: nat, cookie: seq<byte>): Lone {
    var o := BeginRekey(Fresh(side, hostAlgos, hostKey), cookie, true);
    Lone(o.end, o.sent)
  }

  function Lives(l: Lone, events: seq<Event>): Lone {
    if events == [] then l
    else
      var l' := Lives(l, events[..|events| - 1]);
      var ev := events[|events| - 1];
      if !Allowed(l'.end, ev) then l' else var o := React(l'.end, ev); Lone(o.end, l'.log + o.sent)
  }

  /** The key epoch of the next packet: how many NEWKEYS have been sealed. */
  function Epoch(log: Log): nat {
    if log == [] then 0
    else Epoch(log[..|log| - 1]) + if log[|log| - 1].payload.NewKeys? then 1 else 0
  }

  /** The most packets an end in this phase can have sealed in its epoch. */
  function Ceiling(p: Phase): nat {
    match p
    case Idle => REKEY_PACKETS
    case AwaitInit(_, _) => REKEY_PACKETS + 1
    case AwaitGuess(_, _, _) => REKEY_PACKETS + 1
    case AwaitEcdh(_, _, _) => REKEY_PACKETS + 1
    case AwaitReply(_, _, _, _) => REKEY_PACKETS + 2
    case AwaitNewKeys(_, _, _) => 0
  }

  const TOP: nat := REKEY_PACKETS + 4

  ghost predicate Tight(log: Log) {
    forall k :: 0 <= k < |log| ==> log[k].seqno == Since(log[..k]) <= TOP
  }

  ghost predicate LoneOk(l: Lone) {
    && Tight(l.log) && l.end.txSeq == Since(l.log) <= TOP
    && (l.end.fault.None? ==> l.end.txSeq <= Ceiling(l.end.phase))
  }

  lemma TightSnoc(log: Log, e: End, p: Payload)
    requires Tight(log) && e.txSeq == Since(log) <= TOP
    ensures Tight(log + [Sealed(e, p)])
    ensures Since(log + [Sealed(e, p)]) == if p.NewKeys? then 0 else e.txSeq + 1
  {
    var log' := log + [Sealed(e, p)];
    Snoc(log, Sealed(e, p));
    forall k | 0 <= k < |log'| ensures log'[k].seqno == Since(log'[..k]) <= TOP {
      assert log'[..k] == if k < |log| then log[..k] else log;
    }
  }

  /** What one wait to the next adds to the history keeps it tight. */
  ghost predicate Adds(log: Log, o: Outcome) {
    LoneOk(Lone(o.end, log + o.sent))
  }

  lemma InstallAdds(log: Log, e: End, neg: Negotiated, hash: Hash)
    requires Tight(log) && e.txSeq == Since(log) < TOP && e.fault.None?
    ensures Adds(log, Install(e, neg, hash))
  {
    hide Since, Tight;
    TightSnoc(log, e, NewKeys);
  }

  lemma OpenAdds(log: Log, e: End, ours: Init, theirs: Init, neg: Negotiated, secret: nat)
    requires Tight(log) && e.txSeq == Since(log) <= REKEY_PACKETS + 1 && e.fault.None?
    ensures Adds(log, OpenExchange(e, ours, theirs, neg, secret))
  {
    hide Since, Tight;
    TightSnoc(log, e, EcdhInit(ClientShare(secret)));
    assert log + [] == log;
  }

  lemma RunAdds(log: Log, e: End, ours: Init, theirs: Init, secret: nat)
    requires Tight(log) && e.txSeq == Since(log) <= REKEY_PACKETS + 1 && e.fault.None?
    ensures Adds(log, RunKex(e, ours, theirs, secret))
  {
    hide Negotiate;
    assert log + [] == log;
    var neg := Negotiate(e.side, ours, theirs);
    if neg.Some? {
      OpenAdds(log, e, ours, theirs, neg.value, secret);
    }
  }

  lemma IdleAdds(log: Log, e: End, p: Payload, c: Choice)
    requires Tight(log) && e.txSeq == Since(log) <= REKEY_PACKETS && e.fault.None? && e.phase.Idle?
    ensures Adds(log, WhileIdle(e, p, c))
  {
    hide RunKex, Local, Since, Tight;
    assert log + [] == log;
    if p.KexInitMsg? {
      var ours := Local(e.side, e.hostAlgos, c.cookie);
      var pkt, e1 := Sealed(e, KexInitMsg(ours)), Sent(e, KexInitMsg(ours));
      TightSnoc(log, e, KexInitMsg(ours));
      RunAdds(log + [pkt], e1, ours, p.init, c.secret);
      var rest := RunKex(e1, ours, p.init, c.secret);
      assert log + ([pkt] + rest.sent) == log + [pkt] + rest.sent;
    }
  }

  lemma ShareAdds(log: Log, e: End, ours: Init, theirs: Init, neg: Negotiated, qc: ClientShare, secret: nat)
    requires Tight(log) && e.txSeq == Since(log) <= REKEY_PACKETS + 1 && e.fault.None?
    ensures Adds(log, OnEcdh(e, ours, theirs, neg, qc, secret))
  {
    hide Install, Since, Tight;
    var o := OnEcdh(e, ours, theirs, neg, qc, secret);
    var pkt := o.sent[0];
    TightSnoc(log, e, pkt.payload);
    InstallAdds(log + [pkt], Sent(e, pkt.payload), neg, pkt.payload.sig.over);
    assert log + o.sent == log + [pkt] + o.sent[1..];
  }

  lemma PayloadAdds(log: Log, e: End, p: Payload, c: Choice)
    requires LoneOk(Lone(e, log)) && e.fault.None?
    ensures Adds(log, OnPayload(e, p, c))
  {
    hide RunKex, OpenExchange, WhileIdle, OnEcdh, Install, Since, Tight, Accepts;
    assert log + [] == log;
    match e.phase
    case Idle => IdleAdds(log, e, p, c);
    case AwaitInit(ours, first) => if p.KexInitMsg? { RunAdds(log, e, ours, p.init, c.secret); }
    case AwaitGuess(ours, theirs, neg) => OpenAdds(log, e, ours, theirs, neg, c.secret);
    case AwaitReply(ours, theirs, neg, secret) =>
      if p.EcdhReply? {
        var hash := Hash(ours, theirs, p.host, ClientShare(secret), p.qs, Secret(secret, p.qs.secret));
        InstallAdds(log, e.(peerKey := Some(p.host.key)), neg, hash);
      }
    case AwaitEcdh(ours, theirs, neg) => if p.EcdhInit? { ShareAdds(log, e, ours, theirs, neg, p.qc, c.secret); }
    case AwaitNewKeys(neg, hash, first) =>
      var e' := OnNewKeys(e, neg, hash, false).end;
      TightSnoc(log, e', ExtInfo);
  }

  lemma ReactAdds(log: Log, e: End, ev: Event)
    requires LoneOk(Lone(e, log)) && Allowed(e, ev)
    ensures Adds(log, React(e, ev))
  {
    hide OnPayload, Local, Since, Tight;
    assert log + [] == log;
    match ev
    case SendBody(body) => TightSnoc(log, e, App(body));
    case Initiate(cookie) => TightSnoc(log, e, KexInitMsg(Local(e.side, e.hostAlgos, cookie)));
    case Pop =>
    case Meet(pkt, c) => PayloadAdds(log, e.(rxSeq := (e.rxSeq + 1) % U32), pkt.payload, c);
    case Leave => TightSnoc(log, e, Disconnect);
  }

  lemma {:induction false} LivesOk(side: Side, hostAlgos: seq<string>, hostKey: nat, cookie: seq<byte>, events: seq<Event>)
    ensures LoneOk(Lives(Alone(side, hostAlgos, hostKey, cookie), events))
    decreases |events|
  {
    hide LoneOk, React;
    if events == [] {
      AloneOk(side, hostAlgos, hostKey, cookie);
    } else {
      LivesOk(side, hostAlgos, hostKey, cookie, events[..|events| - 1]);
      var l := Lives(Alone(side, hostAlgos, hostKey, cookie), events[..|events| - 1]);
      var ev := events[|events| - 1];
      if Allowed(l.end, ev) {
        ReactAdds(l.log, l.end, ev);
      }
    }
  }

  lemma AloneOk(side: Side, hostAlgos: seq<string>, hostKey: nat, cookie: seq<byte>)
    ensures LoneOk(Alone(side, hostAlgos, hostKey, cookie))
  {
    var e, init := Fresh(side, hostAlgos, hostKey), KexInitMsg(Local(side, hostAlgos, cookie));
    TightSnoc([], e, init);
    assert [] + [Sealed(e, init)] == [Sealed(e, init)];
  }

  lemma {:induction false} EpochGrows(log: Log, i: nat, j: nat)
    requires i <= j <= |log|
    ensures Epoch(log[..i]) <= Epoch(log[..j])
    ensures Epoch(log[..i]) == Epoch(log[..j]) ==> Since(log[..j]) == Since(log[..i]) + (j - i)
    decreases j - i
  {
    if i < j {
      EpochGrows(log, i, j - 1);
      assert log[..j][..j - 1] == log[..j - 1];
    }
  }

  // ------------------------------------------------------------ the queue of a rekey

  /** What arrives during a rekey is queued up to the cap; the fault says that the cap was reached. */
  predicate Queued(e: End) {
    |e.queued| <= MAX_REKEY_QUEUE && (e.fault == Some(QueueFull) ==> |e.queued| == MAX_REKEY_QUEUE)
  }

  lemma ReactQueues(e: End, ev: Event)
    requires Queued(e) && Allowed(e, ev)
    ensures Queued(React(e, ev).end)
  {
    hide Negotiate, Local, MakeKeys, Accepts;
  }

  /** Against every peer: never more than 256 messages wait out a rekey, and none is refused before. */
  lemma {:induction false} QueueBounded(side: Side, hostAlgos: seq<string>, hostKey: nat, cookie: seq<byte>, events: seq<Event>)
    ensures Queued(Lives(Alone(side, hostAlgos, hostKey, cookie), events).end)
    decreases |events|
  {
    hide React, Queued;
    if events == [] {
      AloneQueues(side, hostAlgos, hostKey, cookie);
    } else {
      QueueBounded(side, hostAlgos, hostKey, cookie, events[..|events| - 1]);
      var l := Lives(Alone(side, hostAlgos, hostKey, cookie), events[..|events| - 1]);
      var ev := events[|events| - 1];
      if Allowed(l.end, ev) { ReactQueues(l.end, ev); }
    }
  }

  lemma AloneQueues(side: Side, hostAlgos: seq<string>, hostKey: nat, cookie: seq<byte>)
    ensures Queued(Alone(side, hostAlgos, hostKey, cookie).end)
  {
  }

  // ------------------------------------------------------------ the cipher that seals

  predicate CanSeal(b: seq<byte>) {
    |b| < U32 - 64
  }

  predicate IsKeyed(c: Cipher.Cipher) {
    c.Valid() && !c.Plain?
  }

  type Body = b: seq<byte> | CanSeal(b) witness []
  type Made = c: Cipher.Cipher | IsKeyed(c) witness Cipher.ChaChaPoly([], [])

  /** The cipher made at the start of each epoch, and how payloads are written and padded: any at all. */
  datatype Sealer = Sealer(suite: Cipher.Suite, made: nat -> Made, bytes: Payload -> Body, fill: nat -> byte)

  /** The cipher after all of `log` was sealed: replaced at NEWKEYS, else what sealing made of it. */
  function CipherAfter(w: Sealer, log: Log): (c: Cipher.Cipher)
    ensures c.Valid()
  {
    if log == [] then Cipher.Plain
    else
      var c, last := CipherAfter(w, log[..|log| - 1]), log[|log| - 1];
      if last.payload.NewKeys? then w.made(Epoch(log))
      else Cipher.Seal(w.suite, c, last.seqno, w.bytes(last.payload), w.fill).1
  }

  function EpochCipher(w: Sealer, epoch: nat): (c: Cipher.Cipher)
    ensures c.Valid()
  {
    if epoch == 0 then Cipher.Plain else w.made(epoch)
  }

  function BumpedTimes(iv: seq<byte>, k: nat): (r: seq<byte>)
    requires |iv| == 12
    ensures |r| == 12 && r[..4] == iv[..4]
  {
    if k == 0 then iv else Cipher.Bumped(BumpedTimes(iv, k - 1))
  }

  lemma ModNext(a: nat, k: nat)
    ensures ((a + k) % U64 + 1) % U64 == (a + k + 1) % U64
  {
  }

  /** Bumping `k` times moves the counter on by `k`, around 2^64. */
  lemma {:induction false} CounterBumpsTimes(iv: seq<byte>, k: nat)
    requires |iv| == 12
    ensures Cipher.Counter(BumpedTimes(iv, k)) == (Cipher.Counter(iv) + k) % U64
  {
    hide Cipher.Counter, Cipher.Bumped;
    if k > 0 {
      CounterBumpsTimes(iv, k - 1);
      Cipher.CounterBumps(BumpedTimes(iv, k - 1));
      ModNext(Cipher.Counter(iv), k - 1);
    }
  }

  /** The cipher that will seal the next packet is its epoch's, and an IV in it has been bumped once
  for each packet of the epoch so far. */
  lemma {:induction false} CipherInEpoch(w: Sealer, log: Log)
    ensures var c, made := CipherAfter(w, log), EpochCipher(w, Epoch(log));
      if made.Gcm? then c == Cipher.Gcm(made.key, BumpedTimes(made.iv, Since(log))) else c == made
  {
    hide Cipher.Padded, Cipher.Apply, Cipher.Bumped, Cipher.PolyKey, Cipher.ComputeUnpadded;
    if log != [] {
      CipherInEpoch(w, log[..|log| - 1]);
    }
  }

  /** What the cipher is keyed by besides its key, for the packet that follows `log`. */
  datatype Nonce = NoNonce | Sequence(seqno: nat) | Invocation(iv: seq<byte>)

  function NonceOf(c: Cipher.Cipher, seqno: nat): Nonce {
    match c
    case Plain => NoNonce
    case ChaChaPoly(_, _) => Sequence(seqno)
    case Gcm(_, iv) => Invocation(iv)
  }

  function NonceAt(w: Sealer, log: Log, k: nat): Nonce
    requires k < |log|
  {
    NonceOf(CipherAfter(w, log[..k]), log[k].seqno)
  }

  lemma ModApart(a: nat, x: nat, y: nat)
    requires x < y < U64
    ensures x < y && (a + x) % U64 != (a + y) % U64
  {
  }

  /** Two packets of one epoch are not sealed under one nonce. */
  lemma NoncesApart(w: Sealer, log: Log, i: nat, j: nat)
    requires i < j < |log| && Tight(log)
    requires Epoch(log[..i]) == Epoch(log[..j]) > 0
    ensures NonceAt(w, log, i) != NonceAt(w, log, j)
  {
    hide Cipher.Counter, Since, Epoch, CipherAfter;
    EpochGrows(log, i, j);
    CipherInEpoch(w, log[..i]);
    CipherInEpoch(w, log[..j]);
    var made := w.made(Epoch(log[..i]));
    if made.Gcm? {
      CounterBumpsTimes(made.iv, log[i].seqno);
      CounterBumpsTimes(made.iv, log[j].seqno);
      ModApart(Cipher.Counter(made.iv), log[i].seqno, log[j].seqno);
    }
  }

  /** Against every peer and whatever the ciphers, the sequence number never wraps, it grows within an
  epoch, an AES-GCM packet's counter is its epoch's first counter plus its sequence number, and no two
  packets of one epoch of keys share a nonce. */
  lemma NeverReused(side: Side, hostAlgos: seq<string>, hostKey: nat, cookie: seq<byte>, events: seq<Event>, w: Sealer, i: nat, j: nat)
    requires i < j < |Lives(Alone(side, hostAlgos, hostKey, cookie), events).log|
    ensures var log := Lives(Alone(side, hostAlgos, hostKey, cookie), events).log;
      && log[j].seqno <= TOP < U32 - 1
      && (Epoch(log[..i]) == Epoch(log[..j]) ==> log[i].seqno < log[j].seqno)
      && (var made, c := EpochCipher(w, Epoch(log[..j])), CipherAfter(w, log[..j]);
          made.Gcm? ==> (
            && c.Gcm? && c.key == made.key && c.iv[..4] == made.iv[..4]
            && Cipher.Counter(c.iv) == (Cipher.Counter(made.iv) + log[j].seqno) % U64))
      && (Epoch(log[..i]) == Epoch(log[..j]) > 0 ==> NonceAt(w, log, i) != NonceAt(w, log, j))
  {
    hide Lives, Alone, Since, Epoch, CipherAfter, Cipher.Counter, BumpedTimes, NonceAt;
    LivesOk(side, hostAlgos, hostKey, cookie, events);
    var log := Lives(Alone(side, hostAlgos, hostKey, cookie), events).log;
    EpochGrows(log, i, j);
    var made := EpochCipher(w, Epoch(log[..j]));
    CipherInEpoch(w, log[..j]);
    if made.Gcm? {
      CounterBumpsTimes(made.iv, log[j].seqno);
    }
    if Epoch(log[..i]) == Epoch(log[..j]) > 0 {
      NoncesApart(w, log, i, j);
    }
  }
}
