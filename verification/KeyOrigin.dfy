/** Where an end's keys come from, whatever its peer does (src/transport/mod.rs; sections 7.1 and 8 of
RFC 4253).

One end against a peer that may send anything: it never seals or opens under keys but those of an
exchange made of a KEXINIT it sent and one it took, negotiated with a peer that is strict; a client's
only after a reply it took that the presented host key signed over that very exchange, the first of them
trusted, and every later one by the same host key. */
module KeyOrigin {
  import opened Bytes
  import opened KexInit
  import opened Transport
  import opened Rekey
  import opened Nonces
  import KeySchedule

  /** A payload off the wire, and whether the host-key policy would trust the host it shows. */
  datatype Taken = Taken(payload: Payload, trusted: bool)

  /** What an end took off the wire in a life: the packets that opened. */
  function Met(l: Lone, events: seq<Event>): seq<Taken> {
    if events == [] then []
    else
      var before, ev := events[..|events| - 1], events[|events| - 1];
      Met(l, before) + Takes(Lives(l, before).end, ev)
  }

  function Takes(e: End, ev: Event): seq<Taken> {
    if Allowed(e, ev) && ev.Meet? && ev.pkt.keys == e.rx && ev.pkt.seqno == e.rxSeq
    then [Taken(ev.pkt.payload, ev.choice.trusted)] else []
  }

  predicate Said(log: Log, p: Payload) {
    exists k :: 0 <= k < |log| && log[k].payload == p
  }

  predicate Took(met: seq<Taken>, p: Payload) {
    exists k :: 0 <= k < |met| && met[k].payload == p
  }

  /** A reply the host key itself signed over this exchange. */
  function SignedReply(x: Hash): Payload {
    EcdhReply(x.host, x.qs, Signature(x.host.key, x))
  }

  predicate TookTrusted(met: seq<Taken>, p: Payload) {
    exists k :: 0 <= k < |met| && met[k].payload == p && met[k].trusted
  }

  function Own(side: Side, x: Hash): Init { if side.Client? then x.clientInit else x.serverInit }
  function Theirs(side: Side, x: Hash): Init { if side.Client? then x.serverInit else x.clientInit }

  /** An exchange this end took part in, with the host of its first. */
  predicate Authentic(side: Side, hostKey: nat, session: Hash, x: Hash, log: Log, met: seq<Taken>) {
    && Said(log, KexInitMsg(Own(side, x))) && Took(met, KexInitMsg(Theirs(side, x)))
    && Negotiate(side, Own(side, x), Theirs(side, x)).Some?
    && x.secret == Secret(x.qc.secret, x.qs.secret) && x.host.key == session.host.key
    && if side.Client? then Said(log, EcdhInit(x.qc)) && Shown(side, x, met)
       else Took(met, EcdhInit(x.qc)) && x.qs.peer == x.qc && x.host.key == hostKey && Said(log, SignedReply(x))
  }

  /** A client took the signed reply: with a certificate, and trusted, where one was negotiated; else with
  a bare key. */
  predicate Shown(side: Side, x: Hash, met: seq<Taken>)
    requires Negotiate(side, Own(side, x), Theirs(side, x)).Some?
  {
    var certified := Negotiate(side, Own(side, x), Theirs(side, x)).value.algorithms.hostKey == CERT_ALGO;
    && x.host.Certified? == certified && Took(met, SignedReply(x)) && (certified ==> TookTrusted(met, SignedReply(x)))
  }

  /** No keys, or the keys of such an exchange in one direction, bound to the session. */
  predicate Keyed(side: Side, hostKey: nat, session: Hash, keys: Keys, toServer: bool, log: Log, met: seq<Taken>) {
    keys.Plain? || (
      && keys.session == session && Authentic(side, hostKey, session, keys.hash, log, met)
      && keys.secret == keys.hash.secret && keys.toServer == toServer
      && Some(keys.cipher) == KeySchedule.CipherOf(keys.hash, toServer))
  }

  ghost predicate AllKeyed(side: Side, hostKey: nat, session: Hash, log: Log, met: seq<Taken>) {
    forall k :: 0 <= k < |log| ==> Keyed(side, hostKey, session, log[k].keys, side.Client?, log, met)
  }

  /** What an end holds once it has a session. */
  ghost predicate Sessioned(e: End, s: Hash, log: Log, met: seq<Taken>) {
    && Authentic(e.side, e.hostKey, s, s, log, met)
    && (e.side.Client? ==> TookTrusted(met, SignedReply(s)) && e.peerKey == Some(s.host.key))
    && Keyed(e.side, e.hostKey, s, e.tx, e.side.Client?, log, met) && Keyed(e.side, e.hostKey, s, e.rx, e.side.Server?, log, met)
    && AllKeyed(e.side, e.hostKey, s, log, met)
  }

  ghost predicate Clear(e: End, log: Log) {
    e.tx.Plain? && e.rx.Plain? && forall k :: 0 <= k < |log| ==> log[k].keys.Plain?
  }

  predicate Agreeing(side: Side, ours: Init, theirs: Init, neg: Negotiated, log: Log, met: seq<Taken>) {
    Said(log, KexInitMsg(ours)) && Took(met, KexInitMsg(theirs)) && Negotiate(side, ours, theirs) == Some(neg)
  }

  /** What an end is waiting with is what it said and took. */
  predicate PhaseTrue(e: End, log: Log, met: seq<Taken>) {
    match e.phase
    case Idle => true
    case AwaitInit(ours, _) => Said(log, KexInitMsg(ours))
    case AwaitGuess(ours, theirs, neg) => Agreeing(e.side, ours, theirs, neg, log, met)
    case AwaitReply(ours, theirs, neg, secret) =>
      e.side.Client? && Agreeing(e.side, ours, theirs, neg, log, met) && Said(log, EcdhInit(ClientShare(secret)))
    case AwaitEcdh(ours, theirs, neg) => e.side.Server? && Agreeing(e.side, ours, theirs, neg, log, met)
    case AwaitNewKeys(neg, hash, _) =>
      && e.session.Some? && Authentic(e.side, e.hostKey, e.session.value, hash, log, met)
      && Negotiate(e.side, Own(e.side, hash), Theirs(e.side, hash)) == Some(neg)
  }

  ghost predicate Origin(e: End, log: Log, met: seq<Taken>) {
    && (if e.session.Some? then Sessioned(e, e.session.value, log, met) else Clear(e, log))
    && PhaseTrue(e, log, met)
  }

  // ------------------------------------------------------------ histories grow

  lemma SaidOn(log: Log, log': Log, p: Payload)
    requires log <= log' && Said(log, p)
    ensures Said(log', p)
  {
    var k :| 0 <= k < |log| && log[k].payload == p;
    assert log'[k].payload == p;
  }

  lemma TookOn(met: seq<Taken>, met': seq<Taken>, p: Payload)
    requires met <= met'
    ensures Took(met, p) ==> Took(met', p)
    ensures TookTrusted(met, p) ==> TookTrusted(met', p)
  {
    if Took(met, p) {
      var k :| 0 <= k < |met| && met[k].payload == p;
      assert met'[k].payload == p;
    }
    if TookTrusted(met, p) {
      var k :| 0 <= k < |met| && met[k].payload == p && met[k].trusted;
      assert met'[k].payload == p;
    }
  }

  lemma AuthenticOn(side: Side, hostKey: nat, session: Hash, x: Hash, log: Log, met: seq<Taken>, log': Log, met': seq<Taken>)
    requires Authentic(side, hostKey, session, x, log, met) && log <= log' && met <= met'
    ensures Authentic(side, hostKey, session, x, log', met')
  {
    hide Said, Took, TookTrusted, Negotiate;
    SaidOn(log, log', KexInitMsg(Own(side, x)));
    TookOn(met, met', KexInitMsg(Theirs(side, x)));
    TookOn(met, met', SignedReply(x));
    TookOn(met, met', EcdhInit(x.qc));
    SaidOn(log, log', if side.Client? then EcdhInit(x.qc) else SignedReply(x));
  }

  lemma KeyedOn(side: Side, hostKey: nat, s: Hash, keys: Keys, toServer: bool, log: Log, met: seq<Taken>, log': Log, met': seq<Taken>)
    requires Keyed(side, hostKey, s, keys, toServer, log, met) && log <= log' && met <= met'
    ensures Keyed(side, hostKey, s, keys, toServer, log', met')
  {
    hide Authentic;
    if keys.Keys? { AuthenticOn(side, hostKey, s, keys.hash, log, met, log', met'); }
  }

  lemma AgreeingOn(side: Side, ours: Init, theirs: Init, neg: Negotiated, log: Log, met: seq<Taken>, log': Log, met': seq<Taken>)
    requires Agreeing(side, ours, theirs, neg, log, met) && log <= log' && met <= met'
    ensures Agreeing(side, ours, theirs, neg, log', met')
  {
    hide Said, Took, Negotiate;
    SaidOn(log, log', KexInitMsg(ours));
    TookOn(met, met', KexInitMsg(theirs));
  }

  lemma PhaseOn(e: End, log: Log, met: seq<Taken>, log': Log, met': seq<Taken>)
    requires PhaseTrue(e, log, met) && log <= log' && met <= met'
    ensures PhaseTrue(e, log', met')
  {
    hide Said, Took, Negotiate, Authentic, Agreeing;
    match e.phase
    case Idle =>
    case AwaitInit(ours, _) => SaidOn(log, log', KexInitMsg(ours));
    case AwaitGuess(ours, theirs, neg) => AgreeingOn(e.side, ours, theirs, neg, log, met, log', met');
    case AwaitReply(ours, theirs, neg, secret) =>
      AgreeingOn(e.side, ours, theirs, neg, log, met, log', met');
      SaidOn(log, log', EcdhInit(ClientShare(secret)));
    case AwaitEcdh(ours, theirs, neg) => AgreeingOn(e.side, ours, theirs, neg, log, met, log', met');
    case AwaitNewKeys(_, hash, _) => AuthenticOn(e.side, e.hostKey, e.session.value, hash, log, met, log', met');
  }

  /** A packet more on the wire, sealed under this end's keys; or one taken off it. */
  lemma SessionedOn(e: End, s: Hash, log: Log, met: seq<Taken>, sent: seq<Packet>, taken: seq<Taken>)
    requires Sessioned(e, s, log, met) && |sent| <= 1 && (sent != [] ==> sent[0].keys == e.tx)
    ensures Sessioned(e, s, log + sent, met + taken)
  {
    hide Keyed, Authentic, TookTrusted;
    var log', met' := log + sent, met + taken;
    AuthenticOn(e.side, e.hostKey, s, s, log, met, log', met');
    TookOn(met, met', SignedReply(s));
    KeyedOn(e.side, e.hostKey, s, e.tx, e.side.Client?, log, met, log', met');
    KeyedOn(e.side, e.hostKey, s, e.rx, e.side.Server?, log, met, log', met');
    forall k | 0 <= k < |log'| ensures Keyed(e.side, e.hostKey, s, log'[k].keys, e.side.Client?, log', met') {
      if k < |log| { KeyedOn(e.side, e.hostKey, s, log[k].keys, e.side.Client?, log, met, log', met'); }
    }
  }

  lemma OriginOn(e: End, log: Log, met: seq<Taken>, sent: seq<Packet>, taken: seq<Taken>)
    requires Origin(e, log, met) && |sent| <= 1 && (sent != [] ==> sent[0].keys == e.tx)
    ensures Origin(e, log + sent, met + taken)
  {
    hide Sessioned, PhaseTrue;
    PhaseOn(e, log, met, log + sent, met + taken);
    if e.session.Some? { SessionedOn(e, e.session.value, log, met, sent, taken); }
  }

  /** Counters and the queue are nothing to it. */
  lemma OriginSame(e: End, e': End, log: Log, met: seq<Taken>)
    requires Origin(e, log, met)
    requires e' == e.(txSeq := e'.txSeq, rxSeq := e'.rxSeq, queued := e'.queued, fault := e'.fault)
    ensures Origin(e', log, met)
  {
    hide Keyed, Authentic, Agreeing, Said;
  }

  lemma Sealing(e: End, log: Log, met: seq<Taken>, p: Payload)
    requires Origin(e, log, met)
    ensures Origin(Sent(e, p), log + [Sealed(e, p)], met) && Said(log + [Sealed(e, p)], p)
  {
    hide Origin, Inc32;
    OriginOn(e, log, met, [Sealed(e, p)], []);
    assert met + [] == met;
    OriginSame(e, Sent(e, p), log + [Sealed(e, p)], met);
    assert (log + [Sealed(e, p)])[|log|].payload == p;
  }

  // ------------------------------------------------------------ every step

  lemma OpenOrigin(e: End, ours: Init, theirs: Init, neg: Negotiated, secret: nat, log: Log, met: seq<Taken>)
    requires Origin(e, log, met) && Agreeing(e.side, ours, theirs, neg, log, met)
    ensures var o := OpenExchange(e, ours, theirs, neg, secret); Origin(o.end, log + o.sent, met)
  {
    hide Sessioned, Negotiate, Said, Took;
    if e.side.Client? {
      var init := EcdhInit(ClientShare(secret));
      var log' := log + [Sealed(e, init)];
      Sealing(e, log, met, init);
      SaidOn(log, log', KexInitMsg(ours));
      Rephased(Sent(e, init), AwaitReply(ours, theirs, neg, secret), log', met);
    } else {
      assert log + [] == log;
      Rephased(e, AwaitEcdh(ours, theirs, neg), log, met);
    }
  }

  lemma Rephased(e: End, phase: Phase, log: Log, met: seq<Taken>)
    requires Origin(e, log, met) && PhaseTrue(e.(phase := phase), log, met)
    ensures Origin(e.(phase := phase), log, met)
  {
    hide Keyed, Authentic, PhaseTrue;
  }

  lemma RunOrigin(e: End, ours: Init, theirs: Init, secret: nat, log: Log, met: seq<Taken>)
    requires Origin(e, log, met) && Said(log, KexInitMsg(ours)) && Took(met, KexInitMsg(theirs))
    ensures var o := RunKex(e, ours, theirs, secret); Origin(o.end, log + o.sent, met)
  {
    hide Origin, Negotiate, Said, Took, OpenExchange;
    assert log + [] == log;
    match Negotiate(e.side, ours, theirs)
    case None => OriginSame(e, e.(fault := Some(NegotiationFailed)), log, met);
    case Some(neg) =>
      if neg.discardGuess { Rephased(e, AwaitGuess(ours, theirs, neg), log, met); }
      else { OpenOrigin(e, ours, theirs, neg, secret, log, met); }
  }

  /** The cipher of each direction is the one negotiated for it. */
  lemma CipherNegotiated(side: Side, x: Hash, neg: Negotiated, toServer: bool)
    requires Negotiate(side, Own(side, x), Theirs(side, x)) == Some(neg)
    ensures KeySchedule.CipherOf(x, toServer) == Some(if toServer then neg.algorithms.cipherC2s else neg.algorithms.cipherS2c)
  {
    hide Choose;
  }

  lemma MadeKeyed(side: Side, hostKey: nat, s: Hash, x: Hash, neg: Negotiated, toServer: bool, log: Log, met: seq<Taken>)
    requires Authentic(side, hostKey, s, x, log, met) && Negotiate(side, Own(side, x), Theirs(side, x)) == Some(neg)
    ensures Keyed(side, hostKey, s, MakeKeys(neg, x, s, toServer), toServer, log, met)
  {
    hide Authentic, Negotiate, KeySchedule.CipherOf;
    CipherNegotiated(side, x, neg, toServer);
  }

  /** Before the first session all is in the clear, whichever session there will be. */
  lemma ClearKeyed(e: End, s: Hash, log: Log, met: seq<Taken>)
    requires Clear(e, log)
    ensures Keyed(e.side, e.hostKey, s, e.tx, e.side.Client?, log, met) && Keyed(e.side, e.hostKey, s, e.rx, e.side.Server?, log, met)
    ensures AllKeyed(e.side, e.hostKey, s, log, met)
  {
  }

  ghost predicate Proven(e: End, neg: Negotiated, x: Hash, log: Log, met: seq<Taken>) {
    var s := if e.session.Some? then e.session.value else x;
    && Authentic(e.side, e.hostKey, s, x, log, met) && Negotiate(e.side, Own(e.side, x), Theirs(e.side, x)) == Some(neg)
    && (e.side.Client? ==> e.peerKey == Some(x.host.key) && (e.session.None? ==> TookTrusted(met, SignedReply(x))))
  }

  lemma InstallOrigin(e: End, neg: Negotiated, x: Hash, log: Log, met: seq<Taken>)
    requires (if e.session.Some? then Sessioned(e, e.session.value, log, met) else Clear(e, log)) && Proven(e, neg, x, log, met)
    ensures var o := Install(e, neg, x); Origin(o.end, log + o.sent, met)
  {
    hide Keyed, Authentic, Negotiate, MakeKeys, TookTrusted, AllKeyed;
    var s := if e.session.Some? then e.session.value else x;
    var e0, sent := e.(session := Some(s)), [Sealed(e, NewKeys)];
    if e.session.None? { ClearKeyed(e, s, log, met); }
    assert Sessioned(e0, s, log, met);
    SessionedOn(e0, s, log, met, sent, []);
    assert met + [] == met;
    var log' := log + sent;
    AuthenticOn(e.side, e.hostKey, s, x, log, met, log', met);
    MadeKeyed(e.side, e.hostKey, s, x, neg, e.side.Client?, log', met);
  }

  lemma ReplyOrigin(e: End, ours: Init, theirs: Init, neg: Negotiated, secret: nat, p: Payload, trusted: bool, log: Log, met: seq<Taken>)
    requires Origin(e, log, met) && e.phase == AwaitReply(ours, theirs, neg, secret) && p.EcdhReply?
    requires met != [] && met[|met| - 1] == Taken(p, trusted)
    ensures var o := OnReply(e, ours, theirs, neg, secret, p.host, p.qs, p.sig, trusted); Origin(o.end, log + o.sent, met)
  {
    hide Install, Negotiate, Said, Sessioned, Clear;
    assert log + [] == log;
    var x := Hash(ours, theirs, p.host, ClientShare(secret), p.qs, Secret(secret, p.qs.secret));
    if Accepts(e, neg, p.host, trusted) && p.sig == Signature(p.host.key, x) {
      assert p == SignedReply(x) && Took(met, p) && (trusted ==> TookTrusted(met, p));
      var e' := e.(peerKey := Some(p.host.key));
      if e.session.Some? { SessionHost(e, log, met); }
      assert Proven(e', neg, x, log, met);
      PeerKept(e, p.host.key, log, met);
      InstallOrigin(e', neg, x, log, met);
    } else {
      OriginSame(e, OnReply(e, ours, theirs, neg, secret, p.host, p.qs, p.sig, trusted).end, log, met);
    }
  }

  lemma SessionHost(e: End, log: Log, met: seq<Taken>)
    requires Origin(e, log, met) && e.session.Some?
    ensures if e.side.Client? then e.peerKey == Some(e.session.value.host.key) else e.session.value.host.key == e.hostKey
  {
    hide Keyed, AllKeyed, PhaseTrue, Negotiate;
  }

  lemma PeerKept(e: End, key: nat, log: Log, met: seq<Taken>)
    requires Origin(e, log, met) && (e.session.Some? && e.side.Client? ==> e.peerKey == Some(key))
    ensures var e' := e.(peerKey := Some(key)); if e.session.Some? then Sessioned(e', e.session.value, log, met) else Clear(e', log)
  {
    hide Keyed, AllKeyed, PhaseTrue, Authentic;
  }

  lemma ShareOrigin(e: End, ours: Init, theirs: Init, neg: Negotiated, qc: ClientShare, secret: nat, log: Log, met: seq<Taken>)
    requires Origin(e, log, met) && e.phase == AwaitEcdh(ours, theirs, neg) && Took(met, EcdhInit(qc))
    ensures var o := OnEcdh(e, ours, theirs, neg, qc, secret); Origin(o.end, log + o.sent, met)
  {
    hide Install, Negotiate, Said, Took, Sessioned, Clear;
    var o := OnEcdh(e, ours, theirs, neg, qc, secret);
    var reply := o.sent[0].payload;
    var x := reply.sig.over;
    var e', log' := Sent(e, reply), log + [Sealed(e, reply)];
    Sealing(e, log, met, reply);
    SaidOn(log, log', KexInitMsg(ours));
    assert reply == SignedReply(x);
    if e.session.Some? { SessionHost(e, log, met); }
    assert Proven(e', neg, x, log', met);
    InstallOrigin(e', neg, x, log', met);
    assert log + o.sent == log' + o.sent[1..];
  }

  lemma NewKeysOrigin(e: End, neg: Negotiated, x: Hash, first: bool, log: Log, met: seq<Taken>)
    requires Origin(e, log, met) && e.phase == AwaitNewKeys(neg, x, first)
    ensures var o := OnNewKeys(e, neg, x, first); Origin(o.end, log + o.sent, met)
  {
    hide Negotiate, MakeKeys, Keyed, Authentic, AllKeyed, TookTrusted;
    var s := e.session.value;
    MadeKeyed(e.side, e.hostKey, s, x, neg, e.side.Server?, log, met);
    var e' := e.(rx := MakeKeys(neg, x, s, e.side.Server?), rxSeq := 0, phase := Idle);
    assert Origin(e', log, met);
    assert log + [] == log;
    Sealing(e', log, met, ExtInfo);
  }

  lemma PayloadOrigin(e: End, p: Payload, c: Choice, log: Log, met: seq<Taken>)
    requires Origin(e, log, met) && met != [] && met[|met| - 1] == Taken(p, c.trusted)
    ensures var o := OnPayload(e, p, c); Origin(o.end, log + o.sent, met)
  {
    hide Origin, RunKex, OpenExchange, OnReply, OnEcdh, OnNewKeys, Said, Agreeing, Local;
    assert log + [] == log;
    assert Took(met, p);
    PhaseOf(e, log, met);
    var o := OnPayload(e, p, c);
    match e.phase
    case Idle =>
      if p.KexInitMsg? { AnswerOrigin(e, p.init, c, log, met); } else { OriginSame(e, o.end, log, met); }
    case AwaitInit(ours, first) =>
      if p.KexInitMsg? { RunOrigin(e, ours, p.init, c.secret, log, met); } else { OriginSame(e, o.end, log, met); }
    case AwaitGuess(ours, theirs, neg) => OpenOrigin(e, ours, theirs, neg, c.secret, log, met);
    case AwaitReply(ours, theirs, neg, secret) =>
      if p.EcdhReply? { ReplyOrigin(e, ours, theirs, neg, secret, p, c.trusted, log, met); } else { OriginSame(e, o.end, log, met); }
    case AwaitEcdh(ours, theirs, neg) =>
      if p.EcdhInit? { ShareOrigin(e, ours, theirs, neg, p.qc, c.secret, log, met); } else { OriginSame(e, o.end, log, met); }
    case AwaitNewKeys(neg, x, first) =>
      if p.NewKeys? { NewKeysOrigin(e, neg, x, first, log, met); } else { OriginSame(e, o.end, log, met); }
  }

  lemma PhaseOf(e: End, log: Log, met: seq<Taken>)
    requires Origin(e, log, met)
    ensures PhaseTrue(e, log, met)
  {
  }

  /** The peer's KEXINIT, met with our own. */
  lemma AnswerOrigin(e: End, theirs: Init, c: Choice, log: Log, met: seq<Taken>)
    requires Origin(e, log, met) && e.phase.Idle? && Took(met, KexInitMsg(theirs))
    ensures var o := WhileIdle(e, KexInitMsg(theirs), c); Origin(o.end, log + o.sent, met)
  {
    hide Origin, RunKex, Said, Took, Local;
    var ours := Local(e.side, e.hostAlgos, c.cookie);
    var pkt, e1 := Sealed(e, KexInitMsg(ours)), Sent(e, KexInitMsg(ours));
    Sealing(e, log, met, KexInitMsg(ours));
    RunOrigin(e1, ours, theirs, c.secret, log + [pkt], met);
    var rest := RunKex(e1, ours, theirs, c.secret);
    assert log + ([pkt] + rest.sent) == log + [pkt] + rest.sent;
  }

  lemma ReactOrigin(e: End, ev: Event, log: Log, met: seq<Taken>)
    requires Origin(e, log, met) && Allowed(e, ev)
    ensures var o := React(e, ev); Origin(o.end, log + o.sent, met + Takes(e, ev))
  {
    hide Origin, OnPayload, Local;
    assert log + [] == log && met + [] == met;
    var o := React(e, ev);
    match ev
    case SendBody(body) => Sealing(e, log, met, App(body));
    case Initiate(cookie) =>
      var ours := Local(e.side, e.hostAlgos, cookie);
      Sealing(e, log, met, KexInitMsg(ours));
      Rephased(Sent(e, KexInitMsg(ours)), AwaitInit(ours, false), log + o.sent, met);
    case Pop => OriginSame(e, o.end, log, met);
    case Meet(pkt, c) =>
      if pkt.keys != e.rx || pkt.seqno != e.rxSeq {
        OriginSame(e, o.end, log, met);
      } else {
        OriginOn(e, log, met, [], Takes(e, ev));
        var e' := e.(rxSeq := (e.rxSeq + 1) % U32);
        OriginSame(e, e', log, met + Takes(e, ev));
        PayloadOrigin(e', pkt.payload, c, log, met + Takes(e, ev));
      }
    case Leave =>
      Sealing(e, log, met, Disconnect);
      OriginSame(Sent(e, Disconnect), o.end, log + o.sent, met);
  }

  // ------------------------------------------------------------ what may be taken when

  /** What may come in each phase: nothing but its own next message in an exchange, and before the first one
  nothing but a KEXINIT; while a rekey is awaited, what was in flight as well; and between exchanges no
  message of one but the KEXINIT that opens it. */
  predicate InPlace(phase: Phase, p: Payload) {
    match phase
    case Idle => !p.EcdhInit? && !p.EcdhReply? && !p.NewKeys? && !p.Disconnect?
    case AwaitInit(_, first) => p.KexInitMsg? || (!first && (p.App? || p.ExtInfo? || p.Chatter?))
    case AwaitGuess(_, _, _) => true
    case AwaitReply(_, _, _, _) => p.EcdhReply?
    case AwaitEcdh(_, _, _) => p.EcdhInit?
    case AwaitNewKeys(_, _, _) => p.NewKeys?
  }

  /** What more a packet in its place must do: a KEXINIT must settle the algorithms; a message in flight must
  find room; a reply must show a host of the kind agreed on, trusted if it is a certificate or the first,
  the same as before if it is not, and signed for by its key. */
  predicate Meets(e: End, p: Payload, c: Choice) {
    match e.phase
    case Idle => p.KexInitMsg? ==> Negotiate(e.side, Local(e.side, e.hostAlgos, c.cookie), p.init).Some?
    case AwaitInit(ours, _) => if p.KexInitMsg? then Negotiate(e.side, ours, p.init).Some? else p.Chatter? || |e.queued| < 256
    case AwaitReply(ours, theirs, neg, secret) => p.EcdhReply? ==>
      && (p.host.Certified? <==> neg.algorithms.hostKey == CERT_ALGO)
      && (p.host.Certified? || e.session.None? ==> c.trusted)
      && (e.session.Some? ==> e.peerKey == Some(p.host.key))
      && p.sig == Signature(p.host.key, Hash(ours, theirs, p.host, ClientShare(secret), p.qs, Secret(secret, p.qs.secret)))
    case _ => true
  }

  /** A packet ends the connection exactly when it does not open, is out of place, or does not do what its
  place asks of it; and a message is handed up exactly between exchanges. */
  lemma StraysEnd(e: End, pkt: Packet, c: Choice)
    requires e.fault.None?
    ensures var o := Receive(e, pkt, c);
      var opens := pkt.keys == e.rx && pkt.seqno == e.rxSeq;
      && (o.end.fault.None? <==> opens && InPlace(e.phase, pkt.payload) && Meets(e, pkt.payload, c))
      && o.delivered == if opens && e.phase.Idle? && pkt.payload.App? then [pkt.payload.body] else []
  {
    hide Negotiate, Local, MakeKeys;
  }

  /** A KEXINIT that settles the algorithms is followed by a guess to discard exactly when the peer said it
  guessed and its first choices are not ours. */
  lemma GuessAwaited(e: End, pkt: Packet, c: Choice)
    requires e.fault.None? && pkt.payload.KexInitMsg? && (e.phase.Idle? || e.phase.AwaitInit?)
    ensures var o, theirs := Receive(e, pkt, c), pkt.payload.init;
      var ours := if e.phase.Idle? then Local(e.side, e.hostAlgos, c.cookie) else e.phase.ours;
      o.end.fault.None? ==>
        && ours.kex != [] && ours.hostKeys != [] && theirs.kex != [] && theirs.hostKeys != []
        && (o.end.phase.AwaitGuess? <==>
              theirs.firstPacketFollows && !(theirs.kex[0] == ours.kex[0] && theirs.hostKeys[0] == ours.hostKeys[0]))
  {
    var ours := if e.phase.Idle? then Local(e.side, e.hostAlgos, c.cookie) else e.phase.ours;
    NegotiateMeans(e.side, ours, pkt.payload.init);
    hide Negotiate, Local, MakeKeys, Settles, Share, FirstShared;
  }

  /** A guess is dropped unread: whatever it is, the exchange opens as it would have without it. */
  lemma GuessDropped(e: End, pkt: Packet, other: Payload, c: Choice)
    requires e.fault.None? && e.phase.AwaitGuess? && pkt.keys == e.rx && pkt.seqno == e.rxSeq
    ensures var o := Receive(e, pkt, c);
      && o == Receive(e, pkt.(payload := other), c) && o.delivered == []
      && o.end.queued == e.queued && o.end.session == e.session && o.end.rx == e.rx
      && o.end.phase == (if e.side.Client? then AwaitReply(e.phase.ours, e.phase.theirs, e.phase.neg, c.secret)
                         else AwaitEcdh(e.phase.ours, e.phase.theirs, e.phase.neg))
  {
  }

  // ------------------------------------------------------------ every life

  lemma AloneOrigin(side: Side, hostAlgos: seq<string>, hostKey: nat, cookie: seq<byte>)
    ensures var l := Alone(side, hostAlgos, hostKey, cookie); Origin(l.end, l.log, [])
  {
    hide Local;
    var e, ours := Fresh(side, hostAlgos, hostKey), Local(side, hostAlgos, cookie);
    assert Origin(e, [], []);
    Sealing(e, [], [], KexInitMsg(ours));
    assert [] + [Sealed(e, KexInitMsg(ours))] == [Sealed(e, KexInitMsg(ours))];
    Rephased(Sent(e, KexInitMsg(ours)), AwaitInit(ours, true), [Sealed(e, KexInitMsg(ours))], []);
  }

  lemma {:induction false} EveryOrigin(side: Side, hostAlgos: seq<string>, hostKey: nat, cookie: seq<byte>, events: seq<Event>)
    ensures var l0 := Alone(side, hostAlgos, hostKey, cookie); var l := Lives(l0, events);
      Origin(l.end, l.log, Met(l0, events)) && l.end.side == side && l.end.hostKey == hostKey
    decreases |events|
  {
    hide Origin, React;
    var l0 := Alone(side, hostAlgos, hostKey, cookie);
    if events == [] {
      AloneOrigin(side, hostAlgos, hostKey, cookie);
    } else {
      var before, ev := events[..|events| - 1], events[|events| - 1];
      EveryOrigin(side, hostAlgos, hostKey, cookie, before);
      var l := Lives(l0, before);
      if Allowed(l.end, ev) {
        ReactOrigin(l.end, ev, l.log, Met(l0, before));
        SameSelf(l.end, ev);
      } else {
        assert Met(l0, before) + [] == Met(l0, before);
      }
    }
  }

  lemma SameSelf(e: End, ev: Event)
    requires Allowed(e, ev)
    ensures React(e, ev).end.side == e.side && React(e, ev).end.hostKey == e.hostKey
  {
    hide Negotiate, Local, MakeKeys;
  }

  /** Against every peer, every packet an end ever sealed, and the keys it opens with, are in the clear or
  of an exchange of its own: of its first session, negotiated with a strict peer, in the right direction;
  a client's replied to under the host key's signature over that exchange, the session's own reply trusted,
  and every other by the session's host key. */
  lemma KeysEarned(side: Side, hostAlgos: seq<string>, hostKey: nat, cookie: seq<byte>, events: seq<Event>, k: nat)
    requires k < |Lives(Alone(side, hostAlgos, hostKey, cookie), events).log|
    ensures var l0 := Alone(side, hostAlgos, hostKey, cookie);
      var l, met := Lives(l0, events), Met(l0, events);
      if l.end.session.None? then l.log[k].keys.Plain? && l.end.rx.Plain?
      else
        var s := l.end.session.value;
        && Keyed(side, hostKey, s, l.log[k].keys, side.Client?, l.log, met) && Keyed(side, hostKey, s, l.end.rx, side.Server?, l.log, met)
        && Authentic(side, hostKey, s, s, l.log, met) && (side.Client? ==> TookTrusted(met, SignedReply(s)))
  {
    hide Lives, Alone, Met, Keyed, Authentic, PhaseTrue, TookTrusted;
    EveryOrigin(side, hostAlgos, hostKey, cookie, events);
  }
}
