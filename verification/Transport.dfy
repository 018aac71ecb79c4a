/** The transport's key-exchange state machine (src/transport/mod.rs; sections 7.3 and 9 of RFC 4253,
with OpenSSH's strict key exchange).

Cryptography is symbolic: a share, a secret, a hash and a set of keys are terms over what went into
them, so two keys are equal exactly when the two ends derived them from the same exchange. What an
end does between two waits is one function of its state; `Transport` is the object that does it in
place. Randomness and the host-key trust decision are arguments. */
module Transport {
  import opened Bytes
  import opened KexInit

  const REKEY_PACKETS: nat := 0x1000_0000
  const MAX_REKEY_QUEUE: nat := 256

  datatype ClientShare = ClientShare(secret: nat)
  datatype ServerShare = ServerShare(peer: ClientShare, secret: nat)
  datatype Secret = Secret(client: nat, server: nat)
  /** A host key as the server presents it: bare, or inside a certificate. */
  datatype Host = BareKey(key: nat) | Certified(key: nat)
  datatype Hash = Hash(clientInit: Init, serverInit: Init, host: Host, qc: ClientShare, qs: ServerShare, secret: Secret)
  datatype Signature = Signature(key: nat, over: Hash)
  datatype Keys = Plain | Keys(cipher: string, secret: Secret, hash: Hash, session: Hash, toServer: bool)

  datatype Payload =
    | KexInitMsg(init: Init)
    | EcdhInit(qc: ClientShare)
    | EcdhReply(host: Host, qs: ServerShare, sig: Signature)
    | NewKeys
    | App(body: seq<byte>)
    | ExtInfo
    | Chatter  // IGNORE, DEBUG, UNIMPLEMENTED
    | Disconnect

  datatype Packet = Packet(keys: Keys, seqno: nat, payload: Payload)

  datatype Phase =
    | Idle
    | AwaitInit(ours: Init, first: bool)
    | AwaitGuess(ours: Init, theirs: Init, neg: Negotiated)
    | AwaitReply(ours: Init, theirs: Init, neg: Negotiated, secret: nat)
    | AwaitEcdh(ours: Init, theirs: Init, neg: Negotiated)
    | AwaitNewKeys(neg: Negotiated, hash: Hash, first: bool)

  datatype Fault = AuthFailed | OutOfPlace | NegotiationFailed | HostRejected | BadSignature | QueueFull | PeerLeft

  datatype End = End(
    side: Side,
    hostAlgos: seq<string>,
    hostKey: nat,
    tx: Keys,
    rx: Keys,
    txSeq: nat,
    rxSeq: nat,
    session: Option<Hash>,
    peerKey: Option<nat>,
    queued: seq<Payload>,
    phase: Phase,
    fault: Option<Fault>)

  /** The choices an end makes while handling a packet: its cookie, its ephemeral secret, and
  whether its host-key policy accepts the host it was shown. */
  datatype Choice = Choice(cookie: seq<byte>, secret: nat, trusted: bool)

  /** The new state, the packets sent, and the application messages handed up. */
  datatype Outcome = Outcome(end: End, sent: seq<Packet>, delivered: seq<seq<byte>>)

  function Sealed(e: End, p: Payload): Packet {
    Packet(e.tx, e.txSeq, p)
  }

  function Sent(e: End, p: Payload): End {
    e.(txSeq := (e.txSeq + 1) % U32)
  }

  function Fail(e: End, f: Fault): Outcome {
    Outcome(e.(fault := Some(f)), [], [])
  }

  function Then(first: Packet, rest: Outcome): Outcome {
    Outcome(rest.end, [first] + rest.sent, rest.delivered)
  }

  function SendApp(e: End, body: seq<byte>): Outcome {
    Outcome(Sent(e, App(body)), [Sealed(e, App(body))], [])
  }

  /** Send our KEXINIT and wait for the peer's. */
  function BeginRekey(e: End, cookie: seq<byte>, first: bool): Outcome {
    var ours := Local(e.side, e.hostAlgos, cookie);
    Outcome(Sent(e, KexInitMsg(ours)).(phase := AwaitInit(ours, first)), [Sealed(e, KexInitMsg(ours))], [])
  }

  /** Both KEXINITs are known: negotiate. */
  function RunKex(e: End, ours: Init, theirs: Init, secret: nat): Outcome {
    match Negotiate(e.side, ours, theirs)
    case None => Fail(e, NegotiationFailed)
    case Some(neg) =>
      if neg.discardGuess then Outcome(e.(phase := AwaitGuess(ours, theirs, neg)), [], [])
      else OpenExchange(e, ours, theirs, neg, secret)
  }

  function OpenExchange(e: End, ours: Init, theirs: Init, neg: Negotiated, secret: nat): Outcome {
    if e.side.Client? then
      var init := EcdhInit(ClientShare(secret));
      Outcome(Sent(e, init).(phase := AwaitReply(ours, theirs, neg, secret)), [Sealed(e, init)], [])
    else Outcome(e.(phase := AwaitEcdh(ours, theirs, neg)), [], [])
  }

  function Presented(key: nat, alg: Algorithms): Host {
    if alg.hostKey == CERT_ALGO then Certified(key) else BareKey(key)
  }

  /** The client's trust decision. A certificate is judged every time; a bare key only at the first
  exchange; after the first exchange the key must be the one already known. */
  predicate Accepts(e: End, neg: Negotiated, host: Host, trusted: bool) {
    && (if neg.algorithms.hostKey == CERT_ALGO then host.Certified? && trusted
        else host.BareKey? && (e.session.None? ==> trusted))
    && (e.session.Some? ==> e.peerKey == Some(host.key))
  }

  function OnReply(e: End, ours: Init, theirs: Init, neg: Negotiated, secret: nat,
                   host: Host, qs: ServerShare, sig: Signature, trusted: bool): Outcome {
    if !Accepts(e, neg, host, trusted) then Fail(e, HostRejected) else
    var hash := Hash(ours, theirs, host, ClientShare(secret), qs, Secret(secret, qs.secret));
    if sig != Signature(host.key, hash) then Fail(e, BadSignature)
    else Install(e.(peerKey := Some(host.key)), neg, hash)
  }

  function OnEcdh(e: End, ours: Init, theirs: Init, neg: Negotiated, qc: ClientShare, secret: nat): Outcome {
    var qs := ServerShare(qc, secret);
    var host := Presented(e.hostKey, neg.algorithms);
    var hash := Hash(theirs, ours, host, qc, qs, Secret(qc.secret, secret));
    var reply := EcdhReply(host, qs, Signature(e.hostKey, hash));
    Then(Sealed(e, reply), Install(Sent(e, reply), neg, hash))
  }

  function MakeKeys(neg: Negotiated, hash: Hash, session: Hash, toServer: bool): Keys {
    Keys(if toServer then neg.algorithms.cipherC2s else neg.algorithms.cipherS2c, hash.secret, hash, session, toServer)
  }

  /** NEWKEYS, then the sending direction switches and its sequence number restarts. */
  function Install(e: End, neg: Negotiated, hash: Hash): Outcome {
    var session := if e.session.Some? then e.session.value else hash;
    var e' := Sent(e, NewKeys).(
      session := Some(session), tx := MakeKeys(neg, hash, session, e.side.Client?), txSeq := 0,
      phase := AwaitNewKeys(neg, hash, e.session.None?));
    Outcome(e', [Sealed(e, NewKeys)], [])
  }

  /** The peer's NEWKEYS: the receiving direction switches too. */
  function OnNewKeys(e: End, neg: Negotiated, hash: Hash, first: bool): Outcome {
    var session := if e.session.Some? then e.session.value else hash;
    var e' := e.(rx := MakeKeys(neg, hash, session, e.side.Server?), rxSeq := 0, phase := Idle);
    if first && e.side.Server? && neg.peerExtInfo
    then Outcome(Sent(e', ExtInfo), [Sealed(e', ExtInfo)], [])
    else Outcome(e', [], [])
  }

  function WhileIdle(e: End, p: Payload, c: Choice): Outcome {
    match p
    case App(body) => Outcome(e, [], [body])
    case ExtInfo => Outcome(e, [], [])
    case Chatter => Outcome(e, [], [])
    case Disconnect => Fail(e, PeerLeft)
    case KexInitMsg(theirs) =>
      var ours := Local(e.side, e.hostAlgos, c.cookie);
      Then(Sealed(e, KexInitMsg(ours)), RunKex(Sent(e, KexInitMsg(ours)), ours, theirs, c.secret))
    case _ => Fail(e, OutOfPlace)
  }

  /** Waiting for the peer's KEXINIT. In-flight application packets are queued, up to a bound; at the
  very first exchange nothing but a KEXINIT may arrive. */
  function WhileAwaitingInit(e: End, ours: Init, first: bool, p: Payload, c: Choice): Outcome {
    if p.KexInitMsg? then RunKex(e, ours, p.init, c.secret)
    else if first then Fail(e, OutOfPlace)
    else if p.Chatter? then Outcome(e, [], [])
    else if p.Disconnect? then Fail(e, PeerLeft)
    else if p.App? || p.ExtInfo? then
      if |e.queued| >= MAX_REKEY_QUEUE then Fail(e, QueueFull)
      else Outcome(e.(queued := e.queued + [p]), [], [])
    else Fail(e, OutOfPlace)
  }

  function OnPayload(e: End, p: Payload, c: Choice): Outcome {
    match e.phase
    case Idle => WhileIdle(e, p, c)
    case AwaitInit(ours, first) => WhileAwaitingInit(e, ours, first, p, c)
    case AwaitGuess(ours, theirs, neg) => OpenExchange(e, ours, theirs, neg, c.secret)
    case AwaitReply(ours, theirs, neg, secret) =>
      if p.EcdhReply? then OnReply(e, ours, theirs, neg, secret, p.host, p.qs, p.sig, c.trusted)
      else Fail(e, OutOfPlace)
    case AwaitEcdh(ours, theirs, neg) =>
      if p.EcdhInit? then OnEcdh(e, ours, theirs, neg, p.qc, c.secret) else Fail(e, OutOfPlace)
    case AwaitNewKeys(neg, hash, first) =>
      if p.NewKeys? then OnNewKeys(e, neg, hash, first) else Fail(e, OutOfPlace)
  }

  /** Take one packet off the wire. It opens only under the current keys and sequence number. */
  function Receive(e: End, pkt: Packet, c: Choice): Outcome {
    if pkt.keys != e.rx || pkt.seqno != e.rxSeq then Fail(e, AuthFailed)
    else OnPayload(e.(rxSeq := (e.rxSeq + 1) % U32), pkt.payload, c)
  }

  /** A transport before its first exchange. */
  function Fresh(side: Side, hostAlgos: seq<string>, hostKey: nat): End {
    End(side, hostAlgos, hostKey, Plain, Plain, 0, 0, None, None, [], Idle, None)
  }

  /** The transport object. `View` is its state as a value, `wire` all it has ever sealed. Each method
  does in place, field by field, what the function of its contract says. */
  class Transport {
    const side: Side
    const hostAlgos: seq<string>
    const hostKey: nat
    var tx: Keys
    var rx: Keys
    var txSeq: nat
    var rxSeq: nat
    var session: Option<Hash>
    var peerKey: Option<nat>
    var queued: seq<Payload>
    var phase: Phase
    var fault: Option<Fault>
    var wire: seq<Packet>

    ghost function View(): End
      reads this
    {
      End(side, hostAlgos, hostKey, tx, rx, txSeq, rxSeq, session, peerKey, queued, phase, fault)
    }

    constructor (side: Side, hostAlgos: seq<string>, hostKey: nat)
      ensures View() == Fresh(side, hostAlgos, hostKey) && wire == []
    {
      this.side, this.hostAlgos, this.hostKey := side, hostAlgos, hostKey;
      tx, rx, txSeq, rxSeq := Plain, Plain, 0, 0;
      session, peerKey, queued, phase, fault := None, None, [], Idle, None;
      wire := [];
    }

    method SendRaw(p: Payload)
      modifies this
      ensures View() == Sent(old(View()), p) && wire == old(wire) + [Sealed(old(View()), p)]
    {
      wire := wire + [Packet(tx, txSeq, p)];
      txSeq := (txSeq + 1) % U32;
    }

    /** `due` is the traffic or the time threshold; the sequence numbers are the third. */
    predicate ShouldRekey(due: bool)
      reads this
    {
      due || txSeq >= REKEY_PACKETS || rxSeq >= REKEY_PACKETS
    }

    /** Sends at once, or starts the rekey that must come first; then the caller sends after it. */
    method Send(body: seq<byte>, due: bool, cookie: seq<byte>) returns (sent: bool)
      modifies this
      ensures sent == !old(ShouldRekey(due))
      ensures var o := if sent then SendApp(old(View()), body) else BeginRekey(old(View()), cookie, false);
        View() == o.end && wire == old(wire) + o.sent
    {
      if ShouldRekey(due) {
        RekeyInitiate(cookie, false);
        return false;
      }
      SendRaw(App(body));
      return true;
    }

    method RekeyInitiate(cookie: seq<byte>, first: bool)
      modifies this
      ensures var o := BeginRekey(old(View()), cookie, first); View() == o.end && wire == old(wire) + o.sent
    {
      var ours := Local(side, hostAlgos, cookie);
      SendRaw(KexInitMsg(ours));
      phase := AwaitInit(ours, first);
    }

    method Negotiating(ours: Init, theirs: Init, secret: nat)
      modifies this
      ensures var o := RunKex(old(View()), ours, theirs, secret); View() == o.end && wire == old(wire) + o.sent
    {
      match Negotiate(side, ours, theirs)
      case None => fault := Some(NegotiationFailed);
      case Some(neg) =>
        if neg.discardGuess {
          phase := AwaitGuess(ours, theirs, neg);
        } else {
          Exchange(ours, theirs, neg, secret);
        }
    }

    method Exchange(ours: Init, theirs: Init, neg: Negotiated, secret: nat)
      modifies this
      ensures var o := OpenExchange(old(View()), ours, theirs, neg, secret); View() == o.end && wire == old(wire) + o.sent
    {
      if side == Client {
        SendRaw(EcdhInit(ClientShare(secret)));
        phase := AwaitReply(ours, theirs, neg, secret);
      } else {
        phase := AwaitEcdh(ours, theirs, neg);
      }
    }

    method SwitchSending(neg: Negotiated, hash: Hash)
      modifies this
      ensures var o := Install(old(View()), neg, hash); View() == o.end && wire == old(wire) + o.sent
    {
      var first := session.None?;
      if first {
        session := Some(hash);
      }
      SendRaw(NewKeys);
      tx := MakeKeys(neg, hash, session.value, side == Client);
      txSeq := 0;
      phase := AwaitNewKeys(neg, hash, first);
    }

    method SwitchReceiving(neg: Negotiated, hash: Hash, first: bool)
      modifies this
      ensures var o := OnNewKeys(old(View()), neg, hash, first); View() == o.end && wire == old(wire) + o.sent
    {
      rx := MakeKeys(neg, hash, if session.Some? then session.value else hash, side == Server);
      rxSeq := 0;
      phase := Idle;
      if first && side == Server && neg.peerExtInfo {
        SendRaw(ExtInfo);
      }
    }

    /** One packet off the wire, handled up to the next wait. */
    method Recv(pkt: Packet, c: Choice) returns (delivered: seq<seq<byte>>)
      modifies this
      ensures var o := Receive(old(View()), pkt, c);
        View() == o.end && wire == old(wire) + o.sent && delivered == o.delivered
    {
      delivered := [];
      if pkt.keys != rx || pkt.seqno != rxSeq {
        fault := Some(AuthFailed);
        return;
      }
      rxSeq := (rxSeq + 1) % U32;
      var p := pkt.payload;
      match phase {
        case Idle => delivered := RecvIdle(p, c);
        case AwaitInit(ours, first) => RecvAwaitingInit(ours, first, p, c);
        case AwaitGuess(ours, theirs, neg) => Exchange(ours, theirs, neg, c.secret);
        case AwaitReply(ours, theirs, neg, secret) => RecvReply(ours, theirs, neg, secret, p, c.trusted);
        case AwaitEcdh(ours, theirs, neg) => RecvShare(ours, theirs, neg, p, c.secret);
        case AwaitNewKeys(neg, hash, first) =>
          if p == NewKeys {
            SwitchReceiving(neg, hash, first);
          } else {
            fault := Some(OutOfPlace);
          }
      }
    }

    method RecvIdle(p: Payload, c: Choice) returns (delivered: seq<seq<byte>>)
      modifies this
      ensures var o := WhileIdle(old(View()), p, c);
        View() == o.end && wire == old(wire) + o.sent && delivered == o.delivered
    {
      delivered := [];
      match p {
        case App(body) => delivered := [body];
        case ExtInfo =>
        case Chatter =>
        case Disconnect => fault := Some(PeerLeft);
        case KexInitMsg(theirs) =>
          var ours := Local(side, hostAlgos, c.cookie);
          SendRaw(KexInitMsg(ours));
          Negotiating(ours, theirs, c.secret);
        case _ => fault := Some(OutOfPlace);
      }
    }

    method RecvAwaitingInit(ours: Init, first: bool, p: Payload, c: Choice)
      modifies this
      ensures var o := WhileAwaitingInit(old(View()), ours, first, p, c); View() == o.end && wire == old(wire) + o.sent
    {
      if p.KexInitMsg? {
        Negotiating(ours, p.init, c.secret);
      } else if first {
        fault := Some(OutOfPlace);
      } else if p.Disconnect? {
        fault := Some(PeerLeft);
      } else if p.App? || p.ExtInfo? {
        if |queued| >= MAX_REKEY_QUEUE {
          fault := Some(QueueFull);
        } else {
          queued := queued + [p];
        }
      } else if !p.Chatter? {
        fault := Some(OutOfPlace);
      }
    }

    method RecvReply(ours: Init, theirs: Init, neg: Negotiated, secret: nat, p: Payload, trusted: bool)
      modifies this
      ensures var o := if p.EcdhReply? then OnReply(old(View()), ours, theirs, neg, secret, p.host, p.qs, p.sig, trusted)
                       else Fail(old(View()), OutOfPlace);
        View() == o.end && wire == old(wire) + o.sent
    {
      if !p.EcdhReply? {
        fault := Some(OutOfPlace);
        return;
      }
      var certified := neg.algorithms.hostKey == CERT_ALGO;
      if (certified && (!p.host.Certified? || !trusted)) || (!certified && (!p.host.BareKey? || (session.None? && !trusted))) {
        fault := Some(HostRejected);
        return;
      }
      if session.Some? && peerKey != Some(p.host.key) {
        fault := Some(HostRejected);
        return;
      }
      var hash := Hash(ours, theirs, p.host, ClientShare(secret), p.qs, Secret(secret, p.qs.secret));
      if p.sig != Signature(p.host.key, hash) {
        fault := Some(BadSignature);
        return;
      }
      peerKey := Some(p.host.key);
      SwitchSending(neg, hash);
    }

    method RecvShare(ours: Init, theirs: Init, neg: Negotiated, p: Payload, secret: nat)
      modifies this
      ensures var o := if p.EcdhInit? then OnEcdh(old(View()), ours, theirs, neg, p.qc, secret) else Fail(old(View()), OutOfPlace);
        View() == o.end && wire == old(wire) + o.sent
    {
      if !p.EcdhInit? {
        fault := Some(OutOfPlace);
        return;
      }
      var qs := ServerShare(p.qc, secret);
      var host := if neg.algorithms.hostKey == CERT_ALGO then Certified(hostKey) else BareKey(hostKey);
      var hash := Hash(theirs, ours, host, p.qc, qs, Secret(p.qc.secret, secret));
      SendRaw(EcdhReply(host, qs, Signature(hostKey, hash)));
      SwitchSending(neg, hash);
    }
  }
}
