/** Two SHH transports joined by FIFO wires, rekeying at will (src/transport/mod.rs).

Each wire is the whole history of what was sealed on it; an end's position in the other end's
history is how far it has read. Either end may start a rekey at any time, both may start at once
with their KEXINITs crossing, and application messages may be in flight throughout. The exchange
counts modulo three: every third key-exchange message of a history is a NEWKEYS, and each phase of
an end fixes how many such messages it has sent and read. */
module Rekey {
  import opened Bytes
  import opened KexInit
  import opened Transport

  type Log = seq<Packet>

  datatype Config = Config(clientAlgos: seq<string>, serverAlgos: seq<string>, hostKey: nat) {
    predicate Valid() {
      OfferedHostKeys(clientAlgos) && OfferedHostKeys(serverAlgos)
    }
    function Algos(side: Side): seq<string> {
      if side.Client? then clientAlgos else serverAlgos
    }
  }

  datatype Logs = Logs(c: Log, s: Log) {
    function By(side: Side): Log {
      if side.Client? then c else s
    }
    function Append(side: Side, p: Packet): Logs {
      if side.Client? then Logs(c + [p], s) else Logs(c, s + [p])
    }
    function AppendAll(side: Side, ps: seq<Packet>): Logs {
      if side.Client? then Logs(c + ps, s) else Logs(c, s + ps)
    }
  }

  function Other(side: Side): Side {
    if side.Client? then Server else Client
  }

  datatype System = System(c: End, s: End, logs: Logs, readByC: nat, readByS: nat, gotC: seq<seq<byte>>, gotS: seq<seq<byte>>) {
    function At(side: Side): End {
      if side.Client? then c else s
    }
    /** How much of the other end's history `side` has read. */
    function Read(side: Side): nat {
      if side.Client? then readByC else readByS
    }
    function Incoming(side: Side): Log {
      logs.By(Other(side))
    }
    function Got(side: Side): seq<seq<byte>> {
      if side.Client? then gotC else gotS
    }
    predicate Faulted() {
      c.fault.Some? || s.fault.Some?
    }
    function Took(side: Side, read: nat, o: Outcome): System {
      if side.Client?
      then this.(c := o.end, logs := logs.AppendAll(side, o.sent), readByC := read, gotC := gotC + o.delivered)
      else this.(s := o.end, logs := logs.AppendAll(side, o.sent), readByS := read, gotS := gotS + o.delivered)
    }
  }

  /** One atomic step of one end. `Deliver` hands up the oldest packet queued during a rekey; the
  wire is read only once that queue is empty. */
  datatype Step =
    | Send(side: Side, body: seq<byte>)
    | Start(side: Side, cookie: seq<byte>)
    | Deliver(side: Side)
    | Take(side: Side, choice: Choice)

  predicate Enabled(y: System, step: Step) {
    && !y.Faulted()
    && var e := y.At(step.side);
       match step
       case Send(_, _) => e.phase.Idle?
       case Start(_, _) => e.phase.Idle?
       case Deliver(_) => e.phase.Idle? && e.queued != []
       case Take(side, _) => y.Read(side) < |y.Incoming(side)| && (e.phase.Idle? ==> e.queued == [])
  }

  function BodyOf(p: Payload): seq<seq<byte>> {
    if p.App? then [p.body] else []
  }

  function Effect(y: System, step: Step): Outcome
    requires Enabled(y, step)
  {
    var e := y.At(step.side);
    match step
    case Send(_, body) => SendApp(e, body)
    case Start(_, cookie) => BeginRekey(e, cookie, false)
    case Deliver(_) => Outcome(e.(queued := e.queued[1..]), [], BodyOf(e.queued[0]))
    case Take(side, choice) => Receive(e, y.Incoming(side)[y.Read(side)], choice)
  }

  function Next(y: System, step: Step): System {
    if !Enabled(y, step) then y
    else y.Took(step.side, if step.Take? then y.Read(step.side) + 1 else y.Read(step.side), Effect(y, step))
  }

  function Run(y: System, steps: seq<Step>): System {
    if steps == [] then y else Next(Run(y, steps[..|steps| - 1]), steps[|steps| - 1])
  }

  /** Both ends have sent the KEXINIT of the first exchange. */
  function Boot(cfg: Config, cookieC: seq<byte>, cookieS: seq<byte>): System {
    var c := BeginRekey(Fresh(Client, cfg.clientAlgos, 0), cookieC, true);
    var s := BeginRekey(Fresh(Server, cfg.serverAlgos, cfg.hostKey), cookieS, true);
    System(c.end, s.end, Logs(c.sent, s.sent), 0, 0, [], [])
  }

  // ------------------------------------------------------------ histories

  predicate IsKex(p: Payload) {
    p.KexInitMsg? || p.EcdhInit? || p.EcdhReply? || p.NewKeys?
  }

  /** How many key-exchange messages a history holds. */
  function KexCount(log: Log): nat {
    if log == [] then 0
    else KexCount(log[..|log| - 1]) + if IsKex(log[|log| - 1].payload) then 1 else 0
  }

  /** How many packets follow the last NEWKEYS: the sequence number of the next one. */
  function Since(log: Log): nat {
    if log == [] || log[|log| - 1].payload.NewKeys? then 0 else Since(log[..|log| - 1]) + 1
  }

  /** The application messages of a history, in order. */
  function Apps(log: Log): seq<seq<byte>> {
    if log == [] then [] else Apps(log[..|log| - 1]) + BodyOf(log[|log| - 1].payload)
  }

  /** The `m`-th key-exchange message of a history. */
  function NthKex(log: Log, m: nat): Payload {
    if log == [] then Chatter
    else if IsKex(log[|log| - 1].payload) && KexCount(log[..|log| - 1]) == m then log[|log| - 1].payload
    else NthKex(log[..|log| - 1], m)
  }

  function InitOf(p: Payload): Init {
    if p.KexInitMsg? then p.init else Local(Client, [], [])
  }

  function ShareOf(p: Payload): ClientShare {
    if p.EcdhInit? then p.qc else ClientShare(0)
  }

  function HostOf(p: Payload): Host {
    if p.EcdhReply? then p.host else BareKey(0)
  }

  function AnswerOf(p: Payload): ServerShare {
    if p.EcdhReply? then p.qs else ServerShare(ClientShare(0), 0)
  }

  /** The hash of exchange `n`, read off the two histories. */
  function HashOf(logs: Logs, n: nat): Hash {
    var qc := ShareOf(NthKex(logs.c, 3 * n + 1));
    var reply := NthKex(logs.s, 3 * n + 1);
    Hash(InitOf(NthKex(logs.c, 3 * n)), InitOf(NthKex(logs.s, 3 * n)), HostOf(reply), qc, AnswerOf(reply),
         Secret(qc.secret, AnswerOf(reply).secret))
  }

  /** What any two SHH ends with this configuration negotiate. */
  function Agreed(cfg: Config): Negotiated {
    var hk := if CERT_ALGO in cfg.clientAlgos && CERT_ALGO in cfg.serverAlgos then CERT_ALGO else KEY_ALGO;
    Negotiated(Algorithms(MLKEM, hk, CHACHA, CHACHA), true, false)
  }

  /** The keys of epoch `n` in one direction: plain at first, then those of exchange `n - 1`. */
  function EpochKeys(cfg: Config, logs: Logs, n: nat, toServer: bool): Keys {
    if n == 0 then Plain else MakeKeys(Agreed(cfg), HashOf(logs, n - 1), HashOf(logs, 0), toServer)
  }

  /** Both histories reach far enough to fix the keys of epoch `n`. */
  predicate Ready(logs: Logs, n: nat) {
    n == 0 || (KexCount(logs.c) >= 3 * n - 1 && KexCount(logs.s) >= 3 * n - 1)
  }

  // ------------------------------------------------------------ invariant

  /** What may stand in a history after `m` key-exchange messages. */
  predicate KindOk(cfg: Config, logs: Logs, side: Side, p: Payload, m: nat) {
    if !IsKex(p) then (p.App? || p.ExtInfo?) && m % 3 == 0 && m >= 3
    else if m % 3 == 0 then p.KexInitMsg? && p.init == Local(side, cfg.Algos(side), p.init.cookie)
    else if m % 3 == 2 then p.NewKeys?
    else if side.Client? then p.EcdhInit?
    else
      && p.EcdhReply? && Ready(logs, m / 3 + 1)
      && p.host == Presented(cfg.hostKey, Agreed(cfg).algorithms)
      && p.qs.peer == ShareOf(NthKex(logs.c, m))
      && p.sig == Signature(cfg.hostKey, HashOf(logs, m / 3))
  }

  /** The `k`-th packet was sealed under the keys and sequence number its place calls for. */
  predicate PacketOk(cfg: Config, logs: Logs, side: Side, k: nat)
    requires k < |logs.By(side)|
  {
    var log := logs.By(side);
    var m := KexCount(log[..k]);
    && Ready(logs, m / 3)
    && log[k].keys == EpochKeys(cfg, logs, m / 3, side.Client?)
    && log[k].seqno == Since(log[..k]) % U32
    && KindOk(cfg, logs, side, log[k].payload, m)
  }

  ghost predicate LogOk(cfg: Config, logs: Logs, side: Side) {
    forall k :: 0 <= k < |logs.By(side)| ==> PacketOk(cfg, logs, side, k)
  }

  /** What an end is waiting for fixes how many key-exchange messages it has sent and read. */
  predicate PhaseOk(cfg: Config, logs: Logs, e: End, sent: nat, read: nat) {
    var mine := logs.By(e.side);
    match e.phase
    case Idle => read % 3 == 0 && sent == read && read >= 3
    case AwaitInit(ours, first) =>
      read % 3 == 0 && sent == read + 1 && ours == InitOf(NthKex(mine, read)) && (first <==> read == 0)
    case AwaitGuess(_, _, _) => false
    case AwaitReply(ours, theirs, neg, secret) =>
      && e.side.Client? && read % 3 == 1 && sent == read + 1 && neg == Agreed(cfg)
      && ours == InitOf(NthKex(logs.c, read - 1)) && theirs == InitOf(NthKex(logs.s, read - 1))
      && ClientShare(secret) == ShareOf(NthKex(logs.c, read))
    case AwaitEcdh(ours, theirs, neg) =>
      && e.side.Server? && read % 3 == 1 && sent == read && neg == Agreed(cfg)
      && ours == InitOf(NthKex(logs.s, read - 1)) && theirs == InitOf(NthKex(logs.c, read - 1))
    case AwaitNewKeys(neg, hash, first) =>
      && read % 3 == 2 && sent == read + 1 && neg == Agreed(cfg)
      && hash == HashOf(logs, read / 3) && (first <==> read == 2)
  }

  /** The sending half of an end stands where its history ends. */
  predicate TxOk(cfg: Config, logs: Logs, e: End, side: Side) {
    var log := logs.By(side);
    && e.tx == EpochKeys(cfg, logs, KexCount(log) / 3, side.Client?)
    && e.txSeq == Since(log) % U32
    && Ready(logs, KexCount(log) / 3)
  }

  /** The receiving half stands where it has read to. */
  predicate RxOk(cfg: Config, logs: Logs, e: End, side: Side, read: nat)
    requires read <= |logs.By(Other(side))|
  {
    var seen := logs.By(Other(side))[..read];
    && e.rx == EpochKeys(cfg, logs, KexCount(seen) / 3, side.Server?)
    && e.rxSeq == Since(seen) % U32
    && Ready(logs, KexCount(seen) / 3)
  }

  predicate SelfOk(cfg: Config, logs: Logs, e: End, side: Side) {
    var n := KexCount(logs.By(side));
    && e.side == side && e.hostAlgos == cfg.Algos(side) && (side.Server? ==> e.hostKey == cfg.hostKey)
    && (n >= 3 ==> Ready(logs, 1))
    && e.session == (if n >= 3 then Some(HashOf(logs, 0)) else None)
    && (side.Client? ==> e.peerKey == if n >= 3 then Some(cfg.hostKey) else None)
  }

  predicate EndOk(cfg: Config, logs: Logs, e: End, side: Side, read: nat)
    requires read <= |logs.By(Other(side))|
  {
    && SelfOk(cfg, logs, e, side)
    && TxOk(cfg, logs, e, side)
    && RxOk(cfg, logs, e, side, read)
    && PhaseOk(cfg, logs, e, KexCount(logs.By(side)), KexCount(logs.By(Other(side))[..read]))
  }

  function Bodies(queued: seq<Payload>): seq<seq<byte>> {
    if queued == [] then [] else BodyOf(queued[0]) + Bodies(queued[1..])
  }

  ghost predicate SideOk(cfg: Config, y: System, side: Side) {
    && y.Read(side) <= |y.Incoming(side)|
    && LogOk(cfg, y.logs, side)
    && EndOk(cfg, y.logs, y.At(side), side, y.Read(side))
    && y.Got(side) + Bodies(y.At(side).queued) == Apps(y.Incoming(side)[..y.Read(side)])
  }

  ghost predicate Inv(cfg: Config, y: System) {
    SideOk(cfg, y, Client) && SideOk(cfg, y, Server)
  }

  // ------------------------------------------------------------ facts about histories

  lemma Snoc(log: Log, p: Packet)
    ensures KexCount(log + [p]) == KexCount(log) + if IsKex(p.payload) then 1 else 0
    ensures Since(log + [p]) == if p.payload.NewKeys? then 0 else Since(log) + 1
    ensures Apps(log + [p]) == Apps(log) + BodyOf(p.payload)
    ensures IsKex(p.payload) ==> NthKex(log + [p], KexCount(log)) == p.payload
    ensures forall m: nat :: m < KexCount(log) ==> NthKex(log + [p], m) == NthKex(log, m)
  {
    assert (log + [p])[..|log|] == log;
  }

  lemma {:induction false} CountPrefix(log: Log, k: nat)
    requires k <= |log|
    ensures KexCount(log[..k]) <= KexCount(log)
    ensures forall m: nat :: m < KexCount(log[..k]) ==> NthKex(log, m) == NthKex(log[..k], m)
    decreases |log|
  {
    if k < |log| {
      var init := log[..|log| - 1];
      CountPrefix(init, k);
      assert init[..k] == log[..k];
    } else {
      assert log[..k] == log;
    }
  }

  /** The next unread packet, seen as the end of what will have been read. */
  lemma NextPacket(log: Log, k: nat)
    requires k < |log|
    ensures log[..k + 1] == log[..k] + [log[k]]
    ensures IsKex(log[k].payload) ==> KexCount(log) > KexCount(log[..k]) && NthKex(log, KexCount(log[..k])) == log[k].payload
  {
    assert log[..k + 1] == log[..k] + [log[k]];
    Snoc(log[..k], log[k]);
    CountPrefix(log, k + 1);
  }

  lemma {:induction false} FindKex(log: Log, m: nat) returns (k: nat)
    requires m < KexCount(log)
    ensures k < |log| && IsKex(log[k].payload) && KexCount(log[..k]) == m && log[k].payload == NthKex(log, m)
    decreases |log|
  {
    var init := log[..|log| - 1];
    if IsKex(log[|log| - 1].payload) && KexCount(init) == m {
      k := |log| - 1;
    } else {
      k := FindKex(init, m);
      assert init[..k] == log[..k];
    }
  }

  lemma KexKind(cfg: Config, logs: Logs, side: Side, m: nat)
    requires LogOk(cfg, logs, side) && m < KexCount(logs.By(side))
    ensures IsKex(NthKex(logs.By(side), m)) && KindOk(cfg, logs, side, NthKex(logs.By(side), m), m)
  {
    var k := FindKex(logs.By(side), m);
    assert PacketOk(cfg, logs, side, k);
  }

  // ------------------------------------------------------------ appending

  lemma HashStable(logs: Logs, side: Side, p: Packet, n: nat)
    requires Ready(logs, n + 1)
    ensures HashOf(logs.Append(side, p), n) == HashOf(logs, n)
  {
    Snoc(logs.By(side), p);
  }

  lemma ReadyStable(logs: Logs, side: Side, p: Packet, n: nat)
    requires Ready(logs, n)
    ensures Ready(logs.Append(side, p), n)
  {
    Snoc(logs.By(side), p);
  }

  lemma EpochStable(cfg: Config, logs: Logs, side: Side, p: Packet, n: nat, toServer: bool)
    requires Ready(logs, n)
    ensures Ready(logs.Append(side, p), n)
    ensures EpochKeys(cfg, logs.Append(side, p), n, toServer) == EpochKeys(cfg, logs, n, toServer)
  {
    ReadyStable(logs, side, p, n);
    if n > 0 {
      HashStable(logs, side, p, n - 1);
      HashStable(logs, side, p, 0);
    }
  }

  lemma KindStable(cfg: Config, logs: Logs, side: Side, p: Packet, who: Side, q: Payload, m: nat)
    requires KindOk(cfg, logs, who, q, m)
    ensures KindOk(cfg, logs.Append(side, p), who, q, m)
  {
    if q.EcdhReply? && m % 3 == 1 && who.Server? {
      ReadyStable(logs, side, p, m / 3 + 1);
      HashStable(logs, side, p, m / 3);
      Snoc(logs.By(side), p);
    }
  }

  lemma PacketStable(cfg: Config, logs: Logs, side: Side, p: Packet, who: Side, k: nat)
    requires k < |logs.By(who)| && PacketOk(cfg, logs, who, k)
    ensures PacketOk(cfg, logs.Append(side, p), who, k)
  {
    var log, log' := logs.By(who), logs.Append(side, p).By(who);
    assert log'[k] == log[k] && log'[..k] == log[..k];
    var m := KexCount(log[..k]);
    EpochStable(cfg, logs, side, p, m / 3, who.Client?);
    KindStable(cfg, logs, side, p, who, log[k].payload, m);
  }

  /** Sealing one more packet keeps every packet of both histories in order. */
  lemma SealOne(cfg: Config, logs: Logs, e: End, side: Side, p: Payload)
    requires LogOk(cfg, logs, Client) && LogOk(cfg, logs, Server) && TxOk(cfg, logs, e, side)
    requires KindOk(cfg, logs.Append(side, Sealed(e, p)), side, p, KexCount(logs.By(side)))
    ensures var logs' := logs.Append(side, Sealed(e, p));
      && LogOk(cfg, logs', Client) && LogOk(cfg, logs', Server)
      && (!p.NewKeys? ==> TxOk(cfg, logs', Sent(e, p), side))
  {
    hide KindOk, EpochKeys, Ready, KexCount, Since;
    var pkt := Sealed(e, p);
    var log, logs' := logs.By(side), logs.Append(side, pkt);
    var m := KexCount(log);
    forall who: Side, k: nat | k < |logs'.By(who)| ensures PacketOk(cfg, logs', who, k) {
      if k < |logs.By(who)| {
        PacketStable(cfg, logs, side, pkt, who, k);
      } else {
        assert logs'.By(who)[..k] == log;
        EpochStable(cfg, logs, side, pkt, m / 3, side.Client?);
      }
    }
    Snoc(log, pkt);
    EpochStable(cfg, logs, side, pkt, m / 3, side.Client?);
    if !p.NewKeys? {
      SameEpoch(cfg, logs', side, p, m);
      SeqStep(Since(log));
    }
  }

  lemma SameEpoch(cfg: Config, logs: Logs, side: Side, p: Payload, m: nat)
    requires KindOk(cfg, logs, side, p, m) && !p.NewKeys?
    ensures (m + if IsKex(p) then 1 else 0) / 3 == m / 3
  {
  }

  lemma SeqStep(n: nat)
    ensures (n % U32 + 1) % U32 == (n + 1) % U32
  {
  }

  lemma PhaseStable(cfg: Config, logs: Logs, side: Side, p: Packet, e: End, sent: nat, read: nat)
    requires PhaseOk(cfg, logs, e, sent, read)
    requires sent <= KexCount(logs.By(e.side)) && read <= KexCount(logs.By(Other(e.side)))
    ensures PhaseOk(cfg, logs.Append(side, p), e, sent, read)
  {
    hide KexCount, NthKex, HashOf, Agreed, InitOf, ShareOf;
    Snoc(logs.By(side), p);
    if e.phase.AwaitNewKeys? {
      assert Ready(logs, read / 3 + 1);
      HashStable(logs, side, p, read / 3);
    }
  }

  /** What one end sends leaves the other end's part of the invariant as it was. */
  lemma OtherStable(cfg: Config, logs: Logs, side: Side, p: Packet, e: End, read: nat)
    requires read <= |logs.By(side)| && EndOk(cfg, logs, e, Other(side), read)
    ensures EndOk(cfg, logs.Append(side, p), e, Other(side), read)
  {
    hide KexCount, NthKex, Since, HashOf, PhaseOk, EpochKeys, Ready;
    var me := Other(side);
    var seen := logs.By(side)[..read];
    assert logs.Append(side, p).By(side)[..read] == seen;
    EpochStable(cfg, logs, side, p, KexCount(logs.By(me)) / 3, me.Client?);
    EpochStable(cfg, logs, side, p, KexCount(seen) / 3, me.Server?);
    if KexCount(logs.By(me)) >= 3 {
      ReadyStable(logs, side, p, 1);
      HashStable(logs, side, p, 0);
    }
    CountPrefix(logs.By(side), read);
    PhaseStable(cfg, logs, side, p, e, KexCount(logs.By(me)), KexCount(seen));
  }

  lemma {:induction false} OtherStableAll(cfg: Config, logs: Logs, side: Side, ps: seq<Packet>, e: End, read: nat)
    requires read <= |logs.By(side)| && EndOk(cfg, logs, e, Other(side), read)
    ensures EndOk(cfg, logs.AppendAll(side, ps), e, Other(side), read)
    decreases |ps|
  {
    hide EndOk;
    if ps == [] {
      assert logs.By(side) + ps == logs.By(side);
    } else {
      var init, last := ps[..|ps| - 1], ps[|ps| - 1];
      OtherStableAll(cfg, logs, side, init, e, read);
      OtherStable(cfg, logs.AppendAll(side, init), side, last, e, read);
      assert logs.By(side) + ps == logs.By(side) + init + [last];
    }
  }

  // ------------------------------------------------------------ one end's moves

  /** Everything about an end but its phase. */
  ghost predicate Poised(cfg: Config, logs: Logs, e: End, side: Side, read: nat) {
    && read <= |logs.By(Other(side))|
    && LogOk(cfg, logs, Client) && LogOk(cfg, logs, Server)
    && SelfOk(cfg, logs, e, side) && TxOk(cfg, logs, e, side) && RxOk(cfg, logs, e, side, read)
  }

  lemma RxStable(cfg: Config, logs: Logs, side: Side, p: Packet, e: End, read: nat)
    requires read <= |logs.By(Other(side))| && RxOk(cfg, logs, e, side, read)
    ensures RxOk(cfg, logs.Append(side, p), e, side, read)
  {
    EpochStable(cfg, logs, side, p, KexCount(logs.By(Other(side))[..read]) / 3, side.Server?);
  }

  /** Any packet but NEWKEYS leaves the end poised. */
  lemma SendPoised(cfg: Config, logs: Logs, e: End, side: Side, read: nat, p: Payload)
    requires Poised(cfg, logs, e, side, read) && !p.NewKeys?
    requires KindOk(cfg, logs.Append(side, Sealed(e, p)), side, p, KexCount(logs.By(side)))
    ensures Poised(cfg, logs.Append(side, Sealed(e, p)), Sent(e, p), side, read)
  {
    hide KexCount, NthKex, Since, HashOf, EpochKeys, Ready, LogOk, TxOk, RxOk;
    SealOne(cfg, logs, e, side, p);
    NotThird(cfg, logs.Append(side, Sealed(e, p)), side, p, KexCount(logs.By(side)));
    Snoc(logs.By(side), Sealed(e, p));
    SelfStable(cfg, logs, side, Sealed(e, p), e, p);
    RxStable(cfg, logs, side, Sealed(e, p), e, read);
    RxSame(cfg, logs.Append(side, Sealed(e, p)), e, Sent(e, p), side, read);
  }

  lemma NotThird(cfg: Config, logs: Logs, side: Side, p: Payload, m: nat)
    requires KindOk(cfg, logs, side, p, m) && !p.NewKeys?
    ensures IsKex(p) ==> m % 3 != 2
  {
  }

  lemma RxSame(cfg: Config, logs: Logs, e: End, e': End, side: Side, read: nat)
    requires read <= |logs.By(Other(side))| && RxOk(cfg, logs, e, side, read) && e'.rx == e.rx && e'.rxSeq == e.rxSeq
    ensures RxOk(cfg, logs, e', side, read)
  {
  }

  lemma SelfStable(cfg: Config, logs: Logs, side: Side, pkt: Packet, e: End, p: Payload)
    requires SelfOk(cfg, logs, e, side) && pkt.payload == p
    requires IsKex(p) ==> KexCount(logs.By(side)) % 3 != 2
    ensures SelfOk(cfg, logs.Append(side, pkt), Sent(e, p), side)
  {
    Snoc(logs.By(side), pkt);
    if KexCount(logs.By(side)) >= 3 {
      HashStable(logs, side, pkt, 0);
      ReadyStable(logs, side, pkt, 1);
    }
  }

  /** Every packet opens: it was sealed under the keys and the sequence number the reader expects. */
  lemma Opens(cfg: Config, logs: Logs, e: End, side: Side, read: nat)
    requires read < |logs.By(Other(side))| && LogOk(cfg, logs, Other(side)) && EndOk(cfg, logs, e, side, read)
    ensures var log := logs.By(Other(side)); var pkt := log[read];
      && pkt.keys == e.rx && pkt.seqno == e.rxSeq
      && KindOk(cfg, logs, Other(side), pkt.payload, KexCount(log[..read]))
  {
    hide KexCount, Since, EpochKeys, KindOk, Ready, SelfOk, TxOk, PhaseOk;
    assert PacketOk(cfg, logs, Other(side), read);
  }

  lemma ReadPoised(cfg: Config, logs: Logs, e: End, side: Side, read: nat)
    requires read < |logs.By(Other(side))| && EndOk(cfg, logs, e, side, read)
    requires LogOk(cfg, logs, Client) && LogOk(cfg, logs, Server)
    requires !logs.By(Other(side))[read].payload.NewKeys?
    ensures Poised(cfg, logs, e.(rxSeq := (e.rxSeq + 1) % U32), side, read + 1)
  {
    hide KexCount, Since, EpochKeys, KindOk, Ready, PhaseOk, HashOf;
    var log := logs.By(Other(side));
    Opens(cfg, logs, e, side, read);
    NextPacket(log, read);
    Snoc(log[..read], log[read]);
    SameEpoch(cfg, logs, Other(side), log[read].payload, KexCount(log[..read]));
    SeqStep(Since(log[..read]));
  }

  lemma Negotiates(cfg: Config, logs: Logs, side: Side, n: nat)
    requires cfg.Valid() && LogOk(cfg, logs, Client) && LogOk(cfg, logs, Server)
    requires KexCount(logs.c) > 3 * n && KexCount(logs.s) > 3 * n
    ensures Negotiate(side, InitOf(NthKex(logs.By(side), 3 * n)), InitOf(NthKex(logs.By(Other(side)), 3 * n))) == Some(Agreed(cfg))
  {
    hide Negotiate, Local, KexCount, NthKex, LogOk;
    KexKind(cfg, logs, Client, 3 * n);
    KexKind(cfg, logs, Server, 3 * n);
    var ci, si := InitOf(NthKex(logs.c, 3 * n)), InitOf(NthKex(logs.s, 3 * n));
    LocalAgrees(cfg.clientAlgos, cfg.serverAlgos, ci.cookie, si.cookie);
  }

  lemma ExchangeOpens(cfg: Config, logs: Logs, e: End, side: Side, read: nat, n: nat, ours: Init, theirs: Init, secret: nat)
    requires Poised(cfg, logs, e, side, read) && e.side == side
    requires KexCount(logs.By(side)) == 3 * n + 1 && KexCount(logs.By(Other(side))[..read]) == 3 * n + 1
    requires ours == InitOf(NthKex(logs.By(side), 3 * n)) && theirs == InitOf(NthKex(logs.By(Other(side)), 3 * n))
    ensures var o := OpenExchange(e, ours, theirs, Agreed(cfg), secret); var logs' := logs.AppendAll(side, o.sent);
      Poised(cfg, logs', o.end, side, read) && EndOk(cfg, logs', o.end, side, read)
  {
    hide KexCount, NthKex, LogOk, TxOk, RxOk, SelfOk, Agreed, InitOf, KindOk, Poised;
    var o := OpenExchange(e, ours, theirs, Agreed(cfg), secret);
    if side.Client? {
      var init := EcdhInit(ClientShare(secret));
      var pkt := Sealed(e, init);
      assert logs.AppendAll(side, [pkt]) == logs.Append(side, pkt);
      ShareKind(cfg, logs.Append(side, pkt), init, 3 * n + 1);
      SendPoised(cfg, logs, e, side, read, init);
      Snoc(logs.c, pkt);
      PoisedSame(cfg, logs.Append(side, pkt), Sent(e, init), o.end, side, read);
      PoisedParts(cfg, logs.Append(side, pkt), o.end, side, read);
    } else {
      EmptyAppend(logs, side);
      PoisedSame(cfg, logs, e, o.end, side, read);
      PoisedParts(cfg, logs, o.end, side, read);
    }
  }

  lemma ShareKind(cfg: Config, logs: Logs, p: Payload, m: nat)
    requires p.EcdhInit? && m % 3 == 1
    ensures KindOk(cfg, logs, Client, p, m)
  {
  }

  lemma PoisedParts(cfg: Config, logs: Logs, e: End, side: Side, read: nat)
    requires Poised(cfg, logs, e, side, read)
    ensures read <= |logs.By(Other(side))|
    ensures SelfOk(cfg, logs, e, side) && TxOk(cfg, logs, e, side) && RxOk(cfg, logs, e, side, read)
    ensures LogOk(cfg, logs, Client) && LogOk(cfg, logs, Server) && e.side == side
  {
  }

  /** Both KEXINITs of exchange `n` are out and the peer's has been read: the exchange opens. */
  lemma KexOpened(cfg: Config, logs: Logs, e: End, side: Side, read: nat, n: nat, ours: Init, theirs: Init, secret: nat)
    requires cfg.Valid() && Poised(cfg, logs, e, side, read)
    requires KexCount(logs.By(side)) == 3 * n + 1 && KexCount(logs.By(Other(side))[..read]) == 3 * n + 1
    requires ours == InitOf(NthKex(logs.By(side), 3 * n)) && theirs == InitOf(NthKex(logs.By(Other(side)), 3 * n))
    ensures var o := RunKex(e, ours, theirs, secret); var logs' := logs.AppendAll(side, o.sent);
      && o.end.fault == e.fault && o.delivered == [] && o.end.queued == e.queued
      && Poised(cfg, logs', o.end, side, read) && EndOk(cfg, logs', o.end, side, read)
  {
    hide KexCount, NthKex, LogOk, TxOk, RxOk, SelfOk, Negotiate, EndOk, Poised;
    PoisedParts(cfg, logs, e, side, read);
    CountPrefix(logs.By(Other(side)), read);
    Negotiates(cfg, logs, side, n);
    ExchangeOpens(cfg, logs, e, side, read, n, ours, theirs, secret);
  }

  lemma PoisedSame(cfg: Config, logs: Logs, e: End, e': End, side: Side, read: nat)
    requires Poised(cfg, logs, e, side, read)
    requires e' == e.(phase := e'.phase, queued := e'.queued)
    ensures Poised(cfg, logs, e', side, read)
  {
    hide LogOk, EpochKeys, KexCount, Since, HashOf;
  }

  /** The client has recorded the server's key; the server records nothing. */
  function KnowsHost(cfg: Config, e: End, side: Side): End {
    if side.Client? then e.(peerKey := Some(cfg.hostKey)) else e
  }

  lemma InstallSelf(cfg: Config, logs: Logs, e: End, side: Side, pkt: Packet, n: nat)
    requires SelfOk(cfg, logs, e, side) && KexCount(logs.By(side)) == 3 * n + 2 && Ready(logs, n + 1) && pkt.payload.NewKeys?
    ensures var o := Install(KnowsHost(cfg, e, side), Agreed(cfg), HashOf(logs, n));
      && o.end.session == Some(HashOf(logs, 0)) && (o.end.phase.first <==> n == 0)
      && SelfOk(cfg, logs.Append(side, pkt), o.end, side)
  {
    hide KexCount, NthKex, HashOf, MakeKeys, Agreed;
    Snoc(logs.By(side), pkt);
    FirstReady(logs, n);
    HashStable(logs, side, pkt, 0);
    ReadyStable(logs, side, pkt, 1);
  }

  lemma InstallTx(cfg: Config, logs: Logs, e: End, side: Side, pkt: Packet, n: nat)
    requires KexCount(logs.By(side)) == 3 * n + 2 && Ready(logs, n + 1) && pkt.payload.NewKeys?
    requires e.tx == MakeKeys(Agreed(cfg), HashOf(logs, n), HashOf(logs, 0), side.Client?) && e.txSeq == 0
    ensures TxOk(cfg, logs.Append(side, pkt), e, side)
  {
    hide KexCount, NthKex, HashOf, MakeKeys, Agreed, Since, Ready;
    Snoc(logs.By(side), pkt);
    assert logs.Append(side, pkt).By(side) == logs.By(side) + [pkt];
    EpochStable(cfg, logs, side, pkt, n + 1, side.Client?);
    assert (3 * n + 3) / 3 == n + 1;
  }

  lemma InstallPhase(cfg: Config, logs: Logs, e: End, side: Side, pkt: Packet, n: nat)
    requires KexCount(logs.By(side)) == 3 * n + 2 && Ready(logs, n + 1) && pkt.payload.NewKeys? && e.side == side
    requires e.phase == AwaitNewKeys(Agreed(cfg), HashOf(logs, n), n == 0)
    ensures PhaseOk(cfg, logs.Append(side, pkt), e, KexCount(logs.Append(side, pkt).By(side)), 3 * n + 2)
  {
    hide KexCount, NthKex, HashOf, Agreed, Ready;
    Snoc(logs.By(side), pkt);
    HashStable(logs, side, pkt, n);
    assert (3 * n + 2) / 3 == n;
  }

  /** The keys an end installs for exchange `n` are the keys of epoch `n + 1`. */
  lemma InstallKeys(cfg: Config, logs: Logs, e: End, side: Side, read: nat, n: nat)
    requires Poised(cfg, logs, e, side, read) && KexCount(logs.By(side)) == 3 * n + 2 && Ready(logs, n + 1)
    requires KexCount(logs.By(Other(side))[..read]) == 3 * n + 2
    ensures var o := Install(KnowsHost(cfg, e, side), Agreed(cfg), HashOf(logs, n)); var logs' := logs.AppendAll(side, o.sent);
      Poised(cfg, logs', o.end, side, read) && EndOk(cfg, logs', o.end, side, read)
  {
    hide KexCount, NthKex, Since, LogOk, RxOk, HashOf, TxOk, PhaseOk, Ready, MakeKeys, Agreed;
    var o := Install(KnowsHost(cfg, e, side), Agreed(cfg), HashOf(logs, n));
    var pkt := Sealed(e, NewKeys);
    var logs' := logs.Append(side, pkt);
    assert o.sent == [pkt] && logs.AppendAll(side, [pkt]) == logs';
    SealOne(cfg, logs, e, side, NewKeys);
    InstallSelf(cfg, logs, e, side, pkt, n);
    InstallTx(cfg, logs, o.end, side, pkt, n);
    InstallPhase(cfg, logs, o.end, side, pkt, n);
    RxStable(cfg, logs, side, pkt, e, read);
    RxSame(cfg, logs', e, o.end, side, read);
  }

  lemma FirstReady(logs: Logs, n: nat)
    requires Ready(logs, n + 1)
    ensures Ready(logs, 1)
  {
  }

  lemma ReplyFacts(cfg: Config, logs: Logs, e: End, read: nat, n: nat)
    requires LogOk(cfg, logs, Server) && read < |logs.s| && EndOk(cfg, logs, e, Client, read) && e.phase.AwaitReply?
    requires n == KexCount(logs.s[..read]) / 3
    ensures KexCount(logs.s[..read + 1]) == 3 * n + 2 && KexCount(logs.c) == 3 * n + 2 && Ready(logs, n + 1)
    ensures var p := logs.s[read].payload;
      && logs.s[read].keys == e.rx && logs.s[read].seqno == e.rxSeq
      && p.EcdhReply? && p.host.key == cfg.hostKey && p.sig == Signature(cfg.hostKey, HashOf(logs, n)) && e.phase.neg == Agreed(cfg)
      && HashOf(logs, n) == Hash(e.phase.ours, e.phase.theirs, p.host, ClientShare(e.phase.secret), p.qs,
                                 Secret(e.phase.secret, p.qs.secret))
  {
    hide KexCount, NthKex, Since, LogOk, TxOk, RxOk, EpochKeys, SelfOk;
    var m := KexCount(logs.s[..read]);
    Opens(cfg, logs, e, Client, read);
    NextPacket(logs.s, read);
    Snoc(logs.s[..read], logs.s[read]);
    assert m == 3 * n + 1 && KexCount(logs.c) == 3 * n + 2;
    assert NthKex(logs.s, m) == logs.s[read].payload;
  }

  /** A client that trusts the host it is shown accepts the reply, at the first exchange and after. */
  lemma TrustSuffices(cfg: Config, logs: Logs, e: End, read: nat, trusted: bool)
    requires LogOk(cfg, logs, Server) && read < |logs.s| && EndOk(cfg, logs, e, Client, read) && e.phase.AwaitReply?
    ensures logs.s[read].payload.EcdhReply?
    ensures trusted ==> Accepts(e.(rxSeq := (e.rxSeq + 1) % U32), e.phase.neg, logs.s[read].payload.host, trusted)
  {
    hide KexCount, NthKex, Since, LogOk, TxOk, RxOk, EpochKeys, HashOf, Ready;
    Opens(cfg, logs, e, Client, read);
  }

  /** The client reads the reply. It is the server's answer to this very exchange, so the host's
  signature verifies and the client installs the keys the server did. */
  lemma ReplyTaken(cfg: Config, logs: Logs, e: End, read: nat, c: Choice)
    requires cfg.Valid() && LogOk(cfg, logs, Client) && LogOk(cfg, logs, Server)
    requires read < |logs.s| && EndOk(cfg, logs, e, Client, read) && e.phase.AwaitReply? && e.fault.None?
    ensures var o := Receive(e, logs.s[read], c); var logs' := logs.AppendAll(Client, o.sent);
      && logs.s[read].payload.EcdhReply? && o.delivered == [] && o.end.queued == e.queued
      && (o.end.fault == e.fault || (o.end.fault == Some(HostRejected) && !c.trusted))
      && (o.end.fault == e.fault ==> Poised(cfg, logs', o.end, Client, read + 1) && EndOk(cfg, logs', o.end, Client, read + 1))
  {
    hide KexCount, NthKex, Since, LogOk, TxOk, RxOk, EpochKeys, PhaseOk, SelfOk, KindOk, HashOf, Ready, Accepts, EndOk, Poised;
    var n := KexCount(logs.s[..read]) / 3;
    ReplyFacts(cfg, logs, e, read, n);
    ReadPoised(cfg, logs, e, Client, read);
    var e1 := e.(rxSeq := (e.rxSeq + 1) % U32);
    InstallKeys(cfg, logs, e1, Client, read + 1, n);
    var p := logs.s[read].payload;
    TrustSuffices(cfg, logs, e, read, c.trusted);
    if !Accepts(e1, e.phase.neg, p.host, c.trusted) {
      assert Receive(e, logs.s[read], c).end.fault == Some(HostRejected);
    } else {
      assert Receive(e, logs.s[read], c) == Install(KnowsHost(cfg, e1, Client), Agreed(cfg), HashOf(logs, n));
    }
  }

  lemma EcdhFacts(cfg: Config, logs: Logs, e: End, read: nat, n: nat)
    requires LogOk(cfg, logs, Client) && read < |logs.c| && EndOk(cfg, logs, e, Server, read) && e.phase.AwaitEcdh?
    requires n == KexCount(logs.c[..read]) / 3
    ensures logs.c[read].keys == e.rx && logs.c[read].seqno == e.rxSeq && e.phase.neg == Agreed(cfg)
    ensures logs.c[read].payload.EcdhInit? && NthKex(logs.c, 3 * n + 1) == logs.c[read].payload
    ensures KexCount(logs.c[..read + 1]) == 3 * n + 2 && KexCount(logs.c) >= 3 * n + 2 && KexCount(logs.s) == 3 * n + 1
    ensures e.phase.ours == InitOf(NthKex(logs.s, 3 * n)) && e.phase.theirs == InitOf(NthKex(logs.c, 3 * n))
    ensures e.hostKey == cfg.hostKey
  {
    hide KexCount, NthKex, Since, LogOk, TxOk, RxOk, EpochKeys, HashOf, Ready, Agreed, InitOf, ShareOf, Presented;
    var m := KexCount(logs.c[..read]);
    assert m == 3 * n + 1 && KexCount(logs.s) == m;
    Opens(cfg, logs, e, Server, read);
    NextPacket(logs.c, read);
    Snoc(logs.c[..read], logs.c[read]);
  }

  /** The reply the server seals names its own exchange. */
  lemma ReplyKind(cfg: Config, logs: Logs, n: nat, qc: ClientShare, secret: nat, pkt: Packet)
    requires KexCount(logs.c) >= 3 * n + 2 && KexCount(logs.s) == 3 * n + 1
    requires NthKex(logs.c, 3 * n + 1) == EcdhInit(qc)
    requires var qs := ServerShare(qc, secret); var host := Presented(cfg.hostKey, Agreed(cfg).algorithms);
      pkt.payload == EcdhReply(host, qs, Signature(cfg.hostKey,
        Hash(InitOf(NthKex(logs.c, 3 * n)), InitOf(NthKex(logs.s, 3 * n)), host, qc, qs, Secret(qc.secret, secret))))
    ensures KindOk(cfg, logs.Append(Server, pkt), Server, pkt.payload, 3 * n + 1)
    ensures HashOf(logs.Append(Server, pkt), n) == pkt.payload.sig.over && Ready(logs.Append(Server, pkt), n + 1)
    ensures KexCount(logs.Append(Server, pkt).s) == 3 * n + 2
  {
    hide KexCount, NthKex, Presented, InitOf, Agreed;
    Snoc(logs.s, pkt);
    assert (3 * n + 1) / 3 == n;
  }

  /** The server reads the client's share, replies, and installs the keys of this exchange. */
  lemma EcdhTaken(cfg: Config, logs: Logs, e: End, read: nat, c: Choice)
    requires cfg.Valid() && LogOk(cfg, logs, Client) && LogOk(cfg, logs, Server)
    requires read < |logs.c| && EndOk(cfg, logs, e, Server, read) && e.phase.AwaitEcdh?
    ensures var o := Receive(e, logs.c[read], c); var logs' := logs.AppendAll(Server, o.sent);
      && logs.c[read].payload.EcdhInit? && o.delivered == [] && o.end.queued == e.queued && o.end.fault == e.fault
      && Poised(cfg, logs', o.end, Server, read + 1) && EndOk(cfg, logs', o.end, Server, read + 1)
  {
    hide KexCount, NthKex, Since, LogOk, TxOk, RxOk, EpochKeys, PhaseOk, SelfOk, KindOk, HashOf, Ready, EndOk, Poised, Agreed, Presented;
    var n := KexCount(logs.c[..read]) / 3;
    EcdhFacts(cfg, logs, e, read, n);
    ReadPoised(cfg, logs, e, Server, read);
    var e1 := e.(rxSeq := (e.rxSeq + 1) % U32);
    var o := OnEcdh(e1, e.phase.ours, e.phase.theirs, e.phase.neg, logs.c[read].payload.qc, c.secret);
    assert Receive(e, logs.c[read], c) == o;
    var pkt := o.sent[0];
    ReplyKind(cfg, logs, n, logs.c[read].payload.qc, c.secret, pkt);
    SendPoised(cfg, logs, e1, Server, read + 1, pkt.payload);
    var logs1 := logs.Append(Server, pkt);
    InstallKeys(cfg, logs1, Sent(e1, pkt.payload), Server, read + 1, n);
    assert logs.AppendAll(Server, o.sent) == logs1.AppendAll(Server, o.sent[1..]) by {
      assert logs.s + o.sent == logs.s + [pkt] + o.sent[1..];
    }
  }

  lemma NewKeysFacts(cfg: Config, logs: Logs, e: End, side: Side, read: nat, n: nat)
    requires LogOk(cfg, logs, Other(side)) && read < |logs.By(Other(side))|
    requires EndOk(cfg, logs, e, side, read) && e.phase.AwaitNewKeys?
    requires n == KexCount(logs.By(Other(side))[..read]) / 3
    ensures var log := logs.By(Other(side));
      && log[read].keys == e.rx && log[read].seqno == e.rxSeq && log[read].payload.NewKeys?
      && KexCount(log[..read + 1]) == 3 * n + 3 && Since(log[..read + 1]) == 0
      && KexCount(logs.By(side)) == 3 * n + 3 && Ready(logs, n + 1)
      && e.session == Some(HashOf(logs, 0)) && e.phase.neg == Agreed(cfg) && e.phase.hash == HashOf(logs, n)
  {
    hide KexCount, NthKex, Since, LogOk, HashOf, EpochKeys, RxOk;
    var log := logs.By(Other(side));
    Opens(cfg, logs, e, side, read);
    NextPacket(log, read);
    Snoc(log[..read], log[read]);
  }

  lemma RxSwitched(cfg: Config, logs: Logs, e: End, side: Side, read: nat, n: nat)
    requires LogOk(cfg, logs, Client) && LogOk(cfg, logs, Server)
    requires read < |logs.By(Other(side))| && EndOk(cfg, logs, e, side, read) && Ready(logs, n + 1)
    requires KexCount(logs.By(Other(side))[..read + 1]) == 3 * n + 3 && Since(logs.By(Other(side))[..read + 1]) == 0
    ensures var rx := MakeKeys(Agreed(cfg), HashOf(logs, n), HashOf(logs, 0), side.Server?);
      Poised(cfg, logs, e.(rx := rx, rxSeq := 0, phase := Idle), side, read + 1)
  {
    hide KexCount, NthKex, Since, LogOk, HashOf, PhaseOk, Ready, Agreed, MakeKeys;
    assert (3 * n + 3) / 3 == n + 1;
  }

  /** The peer's NEWKEYS is read: both halves of the end are in the new epoch. */
  lemma NewKeysTaken(cfg: Config, logs: Logs, e: End, side: Side, read: nat, c: Choice)
    requires cfg.Valid() && LogOk(cfg, logs, Client) && LogOk(cfg, logs, Server)
    requires read < |logs.By(Other(side))| && EndOk(cfg, logs, e, side, read) && e.phase.AwaitNewKeys?
    ensures var o := Receive(e, logs.By(Other(side))[read], c); var logs' := logs.AppendAll(side, o.sent);
      && logs.By(Other(side))[read].payload.NewKeys? && o.delivered == [] && o.end.queued == e.queued && o.end.fault == e.fault
      && Poised(cfg, logs', o.end, side, read + 1) && EndOk(cfg, logs', o.end, side, read + 1)
  {
    hide KexCount, NthKex, Since, LogOk, TxOk, RxOk, EpochKeys, PhaseOk, KindOk, HashOf, Ready, Poised, MakeKeys;
    var log := logs.By(Other(side));
    var n := KexCount(log[..read]) / 3;
    NewKeysFacts(cfg, logs, e, side, read, n);
    RxSwitched(cfg, logs, e, side, read, n);
    var e2 := e.(rx := MakeKeys(Agreed(cfg), HashOf(logs, n), HashOf(logs, 0), side.Server?), rxSeq := 0, phase := Idle);
    ExtInfoSent(cfg, logs, e2, side, read + 1, e.phase.first && side.Server?);
  }

  lemma ExtInfoSent(cfg: Config, logs: Logs, e: End, side: Side, read: nat, send: bool)
    requires Poised(cfg, logs, e, side, read) && e.phase.Idle?
    requires KexCount(logs.By(side)) >= 3 && KexCount(logs.By(side)) % 3 == 0
    requires KexCount(logs.By(Other(side))[..read]) == KexCount(logs.By(side))
    ensures var e' := if send then Sent(e, ExtInfo) else e;
      var logs' := logs.AppendAll(side, if send then [Sealed(e, ExtInfo)] else []);
      Poised(cfg, logs', e', side, read) && EndOk(cfg, logs', e', side, read)
  {
    hide KexCount, NthKex, Since, LogOk, HashOf, Ready;
    if send {
      var pkt := Sealed(e, ExtInfo);
      assert logs.AppendAll(side, [pkt]) == logs.Append(side, pkt);
      SendPoised(cfg, logs, e, side, read, ExtInfo);
      Snoc(logs.By(side), pkt);
    } else {
      assert logs.AppendAll(side, []) == logs by { assert logs.By(side) + [] == logs.By(side); }
    }
  }

  lemma InitKind(cfg: Config, logs: Logs, e: End, side: Side, cookie: seq<byte>, m: nat)
    requires e.side == side && e.hostAlgos == cfg.Algos(side) && m % 3 == 0
    ensures KindOk(cfg, logs, side, KexInitMsg(Local(e.side, e.hostAlgos, cookie)), m)
  {
  }

  /** Reading anything but a key-exchange message leaves the phase as it was. */
  lemma StaysIdle(cfg: Config, logs: Logs, e: End, side: Side, read: nat)
    requires read < |logs.By(Other(side))| && EndOk(cfg, logs, e, side, read)
    requires LogOk(cfg, logs, Client) && LogOk(cfg, logs, Server)
    requires !IsKex(logs.By(Other(side))[read].payload)
    ensures EndOk(cfg, logs, e.(rxSeq := (e.rxSeq + 1) % U32), side, read + 1)
  {
    hide KexCount, NthKex, Since, LogOk, HashOf, Ready, EpochKeys, PhaseOk, SelfOk, TxOk, RxOk;
    ReadPoised(cfg, logs, e, side, read);
    var log := logs.By(Other(side));
    NextPacket(log, read);
    Snoc(log[..read], log[read]);
    PhaseSame(cfg, logs, e, e.(rxSeq := (e.rxSeq + 1) % U32), KexCount(logs.By(side)), KexCount(log[..read]));
  }

  lemma PhaseSame(cfg: Config, logs: Logs, e: End, e': End, sent: nat, read: nat)
    requires PhaseOk(cfg, logs, e, sent, read) && e'.phase == e.phase && e'.side == e.side
    ensures PhaseOk(cfg, logs, e', sent, read)
  {
    hide NthKex, HashOf, Agreed;
  }

  /** The shape of the next packet when the reader is between exchanges. */
  lemma BetweenKinds(cfg: Config, logs: Logs, e: End, side: Side, read: nat)
    requires read < |logs.By(Other(side))| && LogOk(cfg, logs, Other(side)) && EndOk(cfg, logs, e, side, read)
    requires e.phase.Idle? || e.phase.AwaitInit?
    ensures var log := logs.By(Other(side)); var p := log[read].payload; var m := KexCount(log[..read]);
      && log[read].keys == e.rx && log[read].seqno == e.rxSeq
      && (if IsKex(p) then p.KexInitMsg? && KexCount(log[..read + 1]) == m + 1 && NthKex(log, m) == p
          else p.App? || p.ExtInfo?)
      && m % 3 == 0 && KexCount(logs.By(side)) == (if e.phase.Idle? then m else m + 1)
      && (e.phase.AwaitInit? ==> e.phase.ours == InitOf(NthKex(logs.By(side), m)))
      && (e.phase.AwaitInit? && e.phase.first ==> IsKex(p))
      && e.side == side && e.hostAlgos == cfg.Algos(side)
  {
    hide KexCount, NthKex, Since, LogOk, HashOf, Ready, EpochKeys, TxOk, RxOk;
    var log := logs.By(Other(side));
    Opens(cfg, logs, e, side, read);
    NextPacket(log, read);
    Snoc(log[..read], log[read]);
  }

  lemma EmptyAppend(logs: Logs, side: Side)
    ensures logs.AppendAll(side, []) == logs
  {
    assert logs.By(side) + [] == logs.By(side);
  }

  /** An idle end answers the peer's KEXINIT with its own. */
  lemma Responds(cfg: Config, logs: Logs, e: End, side: Side, read: nat, n: nat, theirs: Init, c: Choice)
    requires cfg.Valid() && Poised(cfg, logs, e, side, read) && e.side == side && e.hostAlgos == cfg.Algos(side)
    requires KexCount(logs.By(side)) == 3 * n && KexCount(logs.By(Other(side))[..read]) == 3 * n + 1
    requires theirs == InitOf(NthKex(logs.By(Other(side)), 3 * n)) && e.phase.Idle?
    ensures var o := WhileIdle(e, KexInitMsg(theirs), c); var logs' := logs.AppendAll(side, o.sent);
      && o.end.fault == e.fault && o.delivered == [] && o.end.queued == e.queued
      && LogOk(cfg, logs', Client) && LogOk(cfg, logs', Server) && EndOk(cfg, logs', o.end, side, read)
  {
    hide KexCount, NthKex, LogOk, SelfOk, TxOk, RxOk, EndOk, KindOk, RunKex, Local;
    var ours := Local(e.side, e.hostAlgos, c.cookie);
    var pkt := Sealed(e, KexInitMsg(ours));
    var e1 := Sent(e, KexInitMsg(ours));
    var logs1 := logs.Append(side, pkt);
    InitKind(cfg, logs1, e, side, c.cookie, 3 * n);
    SendPoised(cfg, logs, e, side, read, KexInitMsg(ours));
    Snoc(logs.By(side), pkt);
    KexOpened(cfg, logs1, e1, side, read, n, ours, theirs, c.secret);
    var rest := RunKex(e1, ours, theirs, c.secret);
    assert logs.AppendAll(side, [pkt] + rest.sent) == logs1.AppendAll(side, rest.sent) by {
      assert logs.By(side) + ([pkt] + rest.sent) == logs.By(side) + [pkt] + rest.sent;
    }
  }

  /** An idle end reads an application message, or goes into the exchange the peer opens. */
  lemma IdleTaken(cfg: Config, logs: Logs, e: End, side: Side, read: nat, c: Choice)
    requires cfg.Valid() && LogOk(cfg, logs, Client) && LogOk(cfg, logs, Server)
    requires read < |logs.By(Other(side))| && EndOk(cfg, logs, e, side, read) && e.phase.Idle?
    ensures var p := logs.By(Other(side))[read].payload; var o := Receive(e, logs.By(Other(side))[read], c);
      var logs' := logs.AppendAll(side, o.sent);
      && o.end.fault == e.fault && o.delivered == BodyOf(p) && o.end.queued == e.queued
      && LogOk(cfg, logs', Client) && LogOk(cfg, logs', Server) && EndOk(cfg, logs', o.end, side, read + 1)
  {
    hide KexCount, NthKex, LogOk, EndOk, Poised, RunKex, Local;
    var log := logs.By(Other(side));
    BetweenKinds(cfg, logs, e, side, read);
    EmptyAppend(logs, side);
    if !IsKex(log[read].payload) {
      StaysIdle(cfg, logs, e, side, read);
    } else {
      ReadPoised(cfg, logs, e, side, read);
      var e1 := e.(rxSeq := (e.rxSeq + 1) % U32);
      var n := KexCount(log[..read]) / 3;
      Responds(cfg, logs, e1, side, read + 1, n, log[read].payload.init, c);
    }
  }

  /** An end waiting for the peer's KEXINIT queues what was in flight, or goes on with the exchange. */
  lemma AwaitInitTaken(cfg: Config, logs: Logs, e: End, side: Side, read: nat, c: Choice)
    requires cfg.Valid() && LogOk(cfg, logs, Client) && LogOk(cfg, logs, Server) && e.fault.None?
    requires read < |logs.By(Other(side))| && EndOk(cfg, logs, e, side, read) && e.phase.AwaitInit?
    ensures var p := logs.By(Other(side))[read].payload; var o := Receive(e, logs.By(Other(side))[read], c);
      var logs' := logs.AppendAll(side, o.sent);
      && o.delivered == [] && o.end.fault in {None, Some(QueueFull)}
      && (o.end.fault.None? ==>
          && o.end.queued == e.queued + (if IsKex(p) then [] else [p])
          && LogOk(cfg, logs', Client) && LogOk(cfg, logs', Server) && EndOk(cfg, logs', o.end, side, read + 1))
      && (o.end.fault.Some? ==> o.end.queued == e.queued)
  {
    hide KexCount, NthKex, Since, LogOk, TxOk, RxOk, EpochKeys, SelfOk, KindOk, HashOf, Ready, RunKex, PhaseOk, EndOk;
    var log := logs.By(Other(side));
    var p := log[read].payload;
    BetweenKinds(cfg, logs, e, side, read);
    EmptyAppend(logs, side);
    var e1 := e.(rxSeq := (e.rxSeq + 1) % U32);
    if IsKex(p) {
      var m := KexCount(log[..read]);
      ReadPoised(cfg, logs, e, side, read);
      var n := m / 3;
      KexOpened(cfg, logs, e1, side, read + 1, n, e.phase.ours, p.init, c.secret);
    } else {
      StaysIdle(cfg, logs, e, side, read);
      QueueIrrelevant(cfg, logs, e1, e1.(queued := e.queued + [p]), side, read + 1);
    }
  }

  lemma QueueIrrelevant(cfg: Config, logs: Logs, e: End, e': End, side: Side, read: nat)
    requires read <= |logs.By(Other(side))| && EndOk(cfg, logs, e, side, read) && e' == e.(queued := e'.queued)
    ensures EndOk(cfg, logs, e', side, read)
  {
    hide KexCount, NthKex, Since, EpochKeys, HashOf, Ready;
  }

  lemma {:induction false} BodiesSnoc(q: seq<Payload>, p: Payload)
    ensures Bodies(q + [p]) == Bodies(q) + BodyOf(p)
  {
    if q == [] {
      assert [p][1..] == [];
    } else {
      assert (q + [p])[1..] == q[1..] + [p];
      BodiesSnoc(q[1..], p);
    }
  }

  // ------------------------------------------------------------ every step keeps the invariant

  /** Reading the next packet either keeps the reader in order or ends the run with one of two named
  errors; nothing that was read is lost between what is handed up and what is queued. */
  lemma TakeCases(cfg: Config, logs: Logs, e: End, side: Side, k: nat, c: Choice)
    requires cfg.Valid() && LogOk(cfg, logs, Client) && LogOk(cfg, logs, Server) && e.fault.None?
    requires k < |logs.By(Other(side))| && EndOk(cfg, logs, e, side, k) && (e.phase.Idle? ==> e.queued == [])
    ensures var p := logs.By(Other(side))[k].payload;
      var o := Receive(e, logs.By(Other(side))[k], c); var logs' := logs.AppendAll(side, o.sent);
      && o.end.fault in {None, Some(QueueFull), Some(HostRejected)}
      && (o.end.fault == Some(HostRejected) ==> side.Client? && !c.trusted)
      && (o.end.fault.Some? ==> o.delivered == [] && o.end.queued == e.queued)
      && (o.end.fault.None? ==>
          && LogOk(cfg, logs', Client) && LogOk(cfg, logs', Server) && EndOk(cfg, logs', o.end, side, k + 1)
          && o.delivered + Bodies(o.end.queued) == Bodies(e.queued) + BodyOf(p))
  {
    hide LogOk, EndOk, Receive, Bodies;
    var p := logs.By(Other(side))[k].payload;
    PhaseCases(cfg, logs, e, side, k);
    if e.phase.Idle? {
      IdleTaken(cfg, logs, e, side, k, c);
      NoBodies();
    } else if e.phase.AwaitInit? {
      AwaitInitTaken(cfg, logs, e, side, k, c);
      BodiesSnoc(e.queued, p);
      assert e.queued + [] == e.queued;
      assert IsKex(p) ==> BodyOf(p) == [];
    } else if e.phase.AwaitReply? {
      ReplyTaken(cfg, logs, e, k, c);
    } else if e.phase.AwaitEcdh? {
      EcdhTaken(cfg, logs, e, k, c);
    } else {
      NewKeysTaken(cfg, logs, e, side, k, c);
    }
  }

  lemma NoBodies()
    ensures Bodies([]) == []
  {
  }

  lemma TakeKeeps(cfg: Config, y: System, side: Side, c: Choice)
    requires cfg.Valid() && Inv(cfg, y) && Enabled(y, Take(side, c))
    ensures var log := y.Incoming(side); var k := y.Read(side);
      var o := Receive(y.At(side), log[k], c); var logs' := y.logs.AppendAll(side, o.sent);
      && o.end.fault in {None, Some(QueueFull), Some(HostRejected)}
      && (o.end.fault == Some(HostRejected) ==> side.Client? && !c.trusted)
      && (o.end.fault.Some? ==> o.delivered == [] && o.end.queued == y.At(side).queued)
      && (o.end.fault.None? ==>
          && LogOk(cfg, logs', Client) && LogOk(cfg, logs', Server) && EndOk(cfg, logs', o.end, side, k + 1)
          && y.Got(side) + o.delivered + Bodies(o.end.queued) == Apps(log[..k + 1]))
  {
    hide LogOk, EndOk, Receive, Bodies, Apps, KexCount, Since, NthKex;
    var log, k, e := y.Incoming(side), y.Read(side), y.At(side);
    var o := Receive(e, log[k], c);
    TakeCases(cfg, y.logs, e, side, k, c);
    NextPacket(log, k);
    Snoc(log[..k], log[k]);
    if o.end.fault.None? {
      assert y.Got(side) + o.delivered + Bodies(o.end.queued) == y.Got(side) + (o.delivered + Bodies(o.end.queued));
      assert y.Got(side) + Bodies(e.queued) + BodyOf(log[k].payload) == y.Got(side) + (Bodies(e.queued) + BodyOf(log[k].payload));
    }
  }

  lemma PhaseCases(cfg: Config, logs: Logs, e: End, side: Side, read: nat)
    requires read <= |logs.By(Other(side))| && EndOk(cfg, logs, e, side, read)
    ensures !e.phase.AwaitGuess? && (e.phase.AwaitReply? ==> side.Client?) && (e.phase.AwaitEcdh? ==> side.Server?)
  {
    hide KexCount, NthKex, Since, EpochKeys, HashOf;
  }

  /** An idle end sends an application message or a KEXINIT. */
  lemma IdleSends(cfg: Config, logs: Logs, e: End, side: Side, read: nat, p: Payload)
    requires LogOk(cfg, logs, Client) && LogOk(cfg, logs, Server)
    requires read <= |logs.By(Other(side))| && EndOk(cfg, logs, e, side, read) && e.phase.Idle?
    requires p.App? || (p.KexInitMsg? && p.init == Local(e.side, e.hostAlgos, p.init.cookie))
    ensures var e' := if p.App? then Sent(e, p) else Sent(e, p).(phase := AwaitInit(p.init, false));
      var logs' := logs.AppendAll(side, [Sealed(e, p)]);
      LogOk(cfg, logs', Client) && LogOk(cfg, logs', Server) && EndOk(cfg, logs', e', side, read)
  {
    hide KexCount, NthKex, Since, LogOk, HashOf, EpochKeys, Ready, TxOk, RxOk, Local;
    var pkt := Sealed(e, p);
    assert logs.AppendAll(side, [pkt]) == logs.Append(side, pkt);
    Snoc(logs.By(side), pkt);
    SendPoised(cfg, logs, e, side, read, p);
    var e' := if p.App? then Sent(e, p) else Sent(e, p).(phase := AwaitInit(p.init, false));
    PoisedSame(cfg, logs.Append(side, pkt), Sent(e, p), e', side, read);
  }

  /** The other end's part of the invariant survives whatever this end sends. */
  lemma OtherKeeps(cfg: Config, y: System, side: Side, read: nat, o: Outcome)
    requires SideOk(cfg, y, Other(side)) && LogOk(cfg, y.logs.AppendAll(side, o.sent), Other(side))
    ensures SideOk(cfg, y.Took(side, read, o), Other(side))
  {
    hide LogOk, EndOk, Apps, Bodies;
    var me := Other(side);
    assert Other(me) == side;
    OtherStableAll(cfg, y.logs, side, o.sent, y.At(me), y.Read(me));
    assert (y.logs.By(side) + o.sent)[..y.Read(me)] == y.logs.By(side)[..y.Read(me)];
  }

  lemma StepKeeps(cfg: Config, y: System, step: Step)
    requires cfg.Valid() && Inv(cfg, y) && Enabled(y, step)
    ensures var y' := Next(y, step);
      && (!y'.Faulted() ==> Inv(cfg, y'))
      && (y'.Faulted() ==> OnlyAllowedFaults(y') && Prefixes(y'))
  {
    hide LogOk, EndOk, Apps, Receive, Bodies;
    var side := step.side;
    var e, k := y.At(side), y.Read(side);
    var o := Effect(y, step);
    match step
    case Send(_, body) =>
      IdleSends(cfg, y.logs, e, side, k, App(body));
      OwnKeeps(cfg, y, step);
    case Start(_, cookie) =>
      IdleSends(cfg, y.logs, e, side, k, KexInitMsg(Local(e.side, e.hostAlgos, cookie)));
      OwnKeeps(cfg, y, step);
    case Deliver(_) =>
      EmptyAppend(y.logs, side);
      QueueIrrelevant(cfg, y.logs, e, e.(queued := e.queued[1..]), side, k);
      DeliverKeeps(e.queued, y.Got(side));
      OwnKeeps(cfg, y, step);
    case Take(_, c) =>
      TakeKeeps(cfg, y, side, c);
      if o.end.fault.None? {
        OwnKeeps(cfg, y, step);
      } else {
        FaultKeepsPrefixes(cfg, y, step);
      }
  }

  lemma {:induction false} AppsPrefix(log: Log, k: nat)
    requires k <= |log|
    ensures Apps(log[..k]) <= Apps(log)
    decreases |log|
  {
    if k < |log| {
      AppsPrefix(log[..|log| - 1], k);
      assert log[..|log| - 1][..k] == log[..k];
    } else {
      assert log[..k] == log;
    }
  }

  lemma SidePrefix(cfg: Config, y: System, side: Side)
    requires SideOk(cfg, y, side)
    ensures y.Got(side) <= Apps(y.Incoming(side))
  {
    hide LogOk, EndOk, Bodies, Apps;
    AppsPrefix(y.Incoming(side), y.Read(side));
  }

  lemma FaultKeepsPrefixes(cfg: Config, y: System, step: Step)
    requires Inv(cfg, y) && Enabled(y, step)
    requires Effect(y, step).delivered == [] && Effect(y, step).end.fault.Some?
    ensures Prefixes(Next(y, step))
  {
    hide LogOk, EndOk, Bodies, Apps, Effect;
    var side, y' := step.side, Next(y, step);
    SidePrefix(cfg, y, side);
    SidePrefix(cfg, y, Other(side));
    AppsPrefix(y.logs.By(side) + Effect(y, step).sent, |y.logs.By(side)|);
    assert (y.logs.By(side) + Effect(y, step).sent)[..|y.logs.By(side)|] == y.logs.By(side);
  }

  lemma DeliverKeeps(q: seq<Payload>, got: seq<seq<byte>>)
    requires q != []
    ensures got + BodyOf(q[0]) + Bodies(q[1..]) == got + Bodies(q)
  {
    assert Bodies(q) == BodyOf(q[0]) + Bodies(q[1..]);
    Associative(got, BodyOf(q[0]), Bodies(q[1..]));
  }

  lemma OwnKeeps(cfg: Config, y: System, step: Step)
    requires Inv(cfg, y) && Enabled(y, step)
    requires var o := Effect(y, step); var side := step.side;
      var k := if step.Take? then y.Read(side) + 1 else y.Read(side);
      var logs' := y.logs.AppendAll(side, o.sent);
      && o.end.fault.None?
      && LogOk(cfg, logs', Client) && LogOk(cfg, logs', Server) && EndOk(cfg, logs', o.end, side, k)
      && y.Got(side) + o.delivered + Bodies(o.end.queued) == Apps(y.Incoming(side)[..k])
    ensures !Next(y, step).Faulted() && Inv(cfg, Next(y, step))
  {
    hide LogOk, EndOk, Apps, Receive, Bodies, Effect;
    var side := step.side;
    OtherKeeps(cfg, y, side, if step.Take? then y.Read(side) + 1 else y.Read(side), Effect(y, step));
  }

  /** The only errors two SHH ends can run into: a full rekey queue, or a host key the client's
  policy turns down. */
  predicate OnlyAllowedFaults(y: System) {
    && y.c.fault in {None, Some(QueueFull), Some(HostRejected)}
    && y.s.fault in {None, Some(QueueFull)}
  }

  /** What each end was handed is a prefix of what the other sent. */
  ghost predicate Prefixes(y: System) {
    forall side: Side :: y.Got(side) <= Apps(y.Incoming(side))
  }

  lemma BootSide(cfg: Config, y: System, side: Side, cookie: seq<byte>, peer: seq<byte>)
    requires cfg.Valid()
    requires y == if side.Client? then Boot(cfg, cookie, peer) else Boot(cfg, peer, cookie)
    ensures SideOk(cfg, y, side)
  {
    hide Negotiate, Agreed, HashOf;
    var log, init := y.logs.By(side), Local(side, cfg.Algos(side), cookie);
    assert log == [Packet(Plain, 0, KexInitMsg(init))];
    assert log[..0] == [] && init.cookie == cookie;
    assert KexCount(log) == 1 && Since(log) == 1 && NthKex(log, 0) == KexInitMsg(init);
    assert PacketOk(cfg, y.logs, side, 0);
    assert y.Incoming(side)[..0] == [];
    assert EndOk(cfg, y.logs, y.At(side), side, 0);
    assert y.Got(side) + Bodies([]) == Apps([]);
  }

  lemma BootOk(cfg: Config, cookieC: seq<byte>, cookieS: seq<byte>)
    requires cfg.Valid()
    ensures !Boot(cfg, cookieC, cookieS).Faulted() && Inv(cfg, Boot(cfg, cookieC, cookieS))
  {
    hide SideOk;
    BootSide(cfg, Boot(cfg, cookieC, cookieS), Client, cookieC, cookieS);
    BootSide(cfg, Boot(cfg, cookieC, cookieS), Server, cookieS, cookieC);
  }

  /** The state after any run of steps from the start. */
  lemma {:induction false} EveryRun(cfg: Config, cookieC: seq<byte>, cookieS: seq<byte>, steps: seq<Step>)
    requires cfg.Valid()
    ensures var y := Run(Boot(cfg, cookieC, cookieS), steps);
      && (!y.Faulted() ==> Inv(cfg, y))
      && OnlyAllowedFaults(y) && Prefixes(y)
      && (y.Faulted() && (forall i :: 0 <= i < |steps| && steps[i].Take? ==> steps[i].choice.trusted) ==>
          y.c.fault != Some(HostRejected))
    decreases |steps|
  {
    hide Inv, Boot, Prefixes, Next;
    var y0 := Boot(cfg, cookieC, cookieS);
    if steps == [] {
      BootOk(cfg, cookieC, cookieS);
      InvPrefixes(cfg, y0);
    } else {
      var init, last := steps[..|steps| - 1], steps[|steps| - 1];
      EveryRun(cfg, cookieC, cookieS, init);
      var y := Run(y0, init);
      assert forall i :: 0 <= i < |init| ==> init[i] == steps[i];
      LastStep(cfg, y, last);
    }
  }

  lemma InvPrefixes(cfg: Config, y: System)
    requires Inv(cfg, y)
    ensures Prefixes(y)
  {
    hide SideOk;
    SidePrefix(cfg, y, Client);
    SidePrefix(cfg, y, Server);
  }

  lemma LastStep(cfg: Config, y: System, step: Step)
    requires cfg.Valid() && OnlyAllowedFaults(y) && Prefixes(y) && (!y.Faulted() ==> Inv(cfg, y))
    ensures var y' := Next(y, step);
      && (!y'.Faulted() ==> Inv(cfg, y')) && OnlyAllowedFaults(y') && Prefixes(y')
      && (y'.c.fault == Some(HostRejected) ==> y.c.fault == Some(HostRejected) || (step.Take? && !step.choice.trusted))
  {
    hide Inv, Prefixes, SideOk;
    if Enabled(y, step) {
      StepKeeps(cfg, y, step);
      if !Next(y, step).Faulted() {
        InvPrefixes(cfg, Next(y, step));
      } else if step.Take? {
        TakeKeeps(cfg, y, step.side, step.choice);
      }
    }
  }

  // ------------------------------------------------------------ the main results

  /** No reachable state has an end waiting while both wires are empty: once everything sent has been
  read, both ends are idle. */
  lemma NoDeadlock(cfg: Config, cookieC: seq<byte>, cookieS: seq<byte>, steps: seq<Step>)
    requires cfg.Valid()
    ensures var y := Run(Boot(cfg, cookieC, cookieS), steps);
      !y.Faulted() && y.readByC == |y.logs.s| && y.readByS == |y.logs.c| ==> y.c.phase.Idle? && y.s.phase.Idle?
  {
    hide Run, Boot, KexCount, NthKex, Since, LogOk, Apps, HashOf, EpochKeys, Ready, Bodies;
    EveryRun(cfg, cookieC, cookieS, steps);
    var y := Run(Boot(cfg, cookieC, cookieS), steps);
    if !y.Faulted() && y.readByC == |y.logs.s| && y.readByS == |y.logs.c| {
      assert y.logs.s[..y.readByC] == y.logs.s && y.logs.c[..y.readByS] == y.logs.c;
      var c, s := KexCount(y.logs.c), KexCount(y.logs.s);
      assert PhaseOk(cfg, y.logs, y.c, c, s) && PhaseOk(cfg, y.logs, y.s, s, c);
      CountsMeet(cfg, y.logs, y.c, y.s, c, s);
    }
  }

  /** Two waiting phases never fit together when each end has read all the other sent. */
  lemma CountsMeet(cfg: Config, logs: Logs, c: End, s: End, m: nat, n: nat)
    requires PhaseOk(cfg, logs, c, m, n) && PhaseOk(cfg, logs, s, n, m) && c.side.Client? && s.side.Server?
    ensures c.phase.Idle? && s.phase.Idle?
  {
    hide NthKex, HashOf;
  }

  /** At every moment the next packet on either wire opens: it was sealed under exactly the keys and
  the sequence number its reader now holds. */
  lemma EveryPacketOpens(cfg: Config, cookieC: seq<byte>, cookieS: seq<byte>, steps: seq<Step>, side: Side)
    requires cfg.Valid()
    ensures var y := Run(Boot(cfg, cookieC, cookieS), steps);
      !y.Faulted() && y.Read(side) < |y.Incoming(side)| ==>
        var pkt := y.Incoming(side)[y.Read(side)]; pkt.keys == y.At(side).rx && pkt.seqno == y.At(side).rxSeq
  {
    hide Run, Boot, LogOk, EndOk, Apps, Bodies;
    EveryRun(cfg, cookieC, cookieS, steps);
    var y := Run(Boot(cfg, cookieC, cookieS), steps);
    if !y.Faulted() && y.Read(side) < |y.Incoming(side)| {
      assert SideOk(cfg, y, side) && SideOk(cfg, y, Other(side));
      Opens(cfg, y.logs, y.At(side), side, y.Read(side));
    }
  }

  /** Whenever the reader of a direction has come as far as its writer, the two hold the same keys,
  algorithm included, and whenever both ends have a session they have the same one. */
  lemma SameKeys(cfg: Config, cookieC: seq<byte>, cookieS: seq<byte>, steps: seq<Step>, side: Side)
    requires cfg.Valid()
    ensures var y := Run(Boot(cfg, cookieC, cookieS), steps); var them := Other(side);
      !y.Faulted() ==>
        && (y.Read(side) == |y.Incoming(side)| ==> y.At(side).rx == y.At(them).tx && y.At(side).rxSeq == y.At(them).txSeq)
        && (y.c.session.Some? && y.s.session.Some? ==> y.c.session == y.s.session)
  {
    hide Run, Boot, LogOk, Apps, Bodies, KexCount, Since, NthKex, HashOf, EpochKeys, PhaseOk, Ready;
    EveryRun(cfg, cookieC, cookieS, steps);
    var y := Run(Boot(cfg, cookieC, cookieS), steps);
    if !y.Faulted() {
      assert SideOk(cfg, y, side) && SideOk(cfg, y, Other(side));
      if y.Read(side) == |y.Incoming(side)| {
        assert y.Incoming(side)[..y.Read(side)] == y.Incoming(side);
      }
    }
  }

  /** Application messages survive any number of rekeys: each end is handed a prefix of what the
  other sent, in order and without repetition, and all of it once the wire and the queue are empty. */
  lemma DeliveredInOrder(cfg: Config, cookieC: seq<byte>, cookieS: seq<byte>, steps: seq<Step>, side: Side)
    requires cfg.Valid()
    ensures var y := Run(Boot(cfg, cookieC, cookieS), steps);
      && y.Got(side) <= Apps(y.Incoming(side))
      && (!y.Faulted() && y.Read(side) == |y.Incoming(side)| && y.At(side).queued == [] ==>
          y.Got(side) == Apps(y.Incoming(side)))
  {
    hide Run, Boot, LogOk, EndOk, Apps, Bodies;
    EveryRun(cfg, cookieC, cookieS, steps);
    var y := Run(Boot(cfg, cookieC, cookieS), steps);
    if !y.Faulted() && y.Read(side) == |y.Incoming(side)| && y.At(side).queued == [] {
      assert SideOk(cfg, y, side);
      assert y.Incoming(side)[..y.Read(side)] == y.Incoming(side);
      NoBodies();
    }
  }
}
