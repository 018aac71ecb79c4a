/** Which keys seal what, between two SHH transports (src/transport/mod.rs; section 7.2 of RFC 4253).

The exchanges are read off the two wires: the n-th KEXINIT of either end, the client's n-th share and
the server's n-th answer. A packet is sealed under the keys of the exchange its sender last completed,
in its sender's direction, and every key is bound to the first exchange. */
module KeySchedule {
  import opened Bytes
  import opened KexInit
  import opened Transport
  import opened Rekey

  function Inits(log: Log): seq<Init> {
    if log == [] then []
    else Inits(log[..|log| - 1]) + if log[|log| - 1].payload.KexInitMsg? then [log[|log| - 1].payload.init] else []
  }

  function Shares(log: Log): seq<ClientShare> {
    if log == [] then []
    else Shares(log[..|log| - 1]) + if log[|log| - 1].payload.EcdhInit? then [log[|log| - 1].payload.qc] else []
  }

  datatype Answer = Answer(host: Host, qs: ServerShare)

  function Answers(log: Log): seq<Answer> {
    if log == [] then []
    else
      var p := log[|log| - 1].payload;
      Answers(log[..|log| - 1]) + if p.EcdhReply? then [Answer(p.host, p.qs)] else []
  }

  /** The epoch of the next packet: how often its sender has switched keys. */
  function Switches(log: Log): nat {
    if log == [] then 0 else Switches(log[..|log| - 1]) + if log[|log| - 1].payload.NewKeys? then 1 else 0
  }

  /** Exchange `n` has its KEXINITs, its share and its answer on the wires. */
  predicate Exchanged(logs: Logs, n: nat) {
    n < |Inits(logs.c)| && n < |Inits(logs.s)| && n < |Shares(logs.c)| && n < |Answers(logs.s)|
  }

  /** What exchange `n` was, in full. */
  function Exchange(logs: Logs, n: nat): Hash
    requires Exchanged(logs, n)
  {
    var qc, answer := Shares(logs.c)[n], Answers(logs.s)[n];
    Hash(Inits(logs.c)[n], Inits(logs.s)[n], answer.host, qc, answer.qs, Secret(qc.secret, answer.qs.secret))
  }

  /** The cipher two KEXINITs settle on in one direction: the first the client lists that the server does. */
  function CipherOf(x: Hash, toServer: bool): Option<string> {
    if toServer then Choose(x.clientInit.encC2s, x.serverInit.encC2s) else Choose(x.clientInit.encS2c, x.serverInit.encS2c)
  }

  // ------------------------------------------------------------ exchanges, and messages counted by threes

  ghost predicate InitsPlaced(log: Log) {
    && |Inits(log)| == (KexCount(log) + 2) / 3 && Switches(log) == KexCount(log) / 3
    && forall n :: 0 <= n < |Inits(log)| ==> Inits(log)[n] == InitOf(NthKex(log, 3 * n))
  }

  ghost predicate SharesPlaced(log: Log) {
    && |Shares(log)| == (KexCount(log) + 1) / 3
    && forall n :: 0 <= n < |Shares(log)| ==> Shares(log)[n] == ShareOf(NthKex(log, 3 * n + 1))
  }

  ghost predicate AnswersPlaced(log: Log) {
    && |Answers(log)| == (KexCount(log) + 1) / 3
    && forall n :: 0 <= n < |Answers(log)| ==>
         Answers(log)[n] == Answer(HostOf(NthKex(log, 3 * n + 1)), AnswerOf(NthKex(log, 3 * n + 1)))
  }

  ghost predicate Placed(log: Log, side: Side) {
    InitsPlaced(log) && if side.Client? then SharesPlaced(log) else AnswersPlaced(log)
  }

  /** The message after `m` others is of the kind its place calls for. */
  predicate Fitting(side: Side, p: Payload, m: nat) {
    if !IsKex(p) then true
    else if m % 3 == 0 then p.KexInitMsg?
    else if m % 3 == 2 then p.NewKeys?
    else if side.Client? then p.EcdhInit? else p.EcdhReply?
  }

  lemma Pushed(log: Log, p: Packet)
    ensures Inits(log + [p]) == Inits(log) + if p.payload.KexInitMsg? then [p.payload.init] else []
    ensures Shares(log + [p]) == Shares(log) + if p.payload.EcdhInit? then [p.payload.qc] else []
    ensures Answers(log + [p]) == Answers(log) + if p.payload.EcdhReply? then [Answer(p.payload.host, p.payload.qs)] else []
    ensures Switches(log + [p]) == Switches(log) + if p.payload.NewKeys? then 1 else 0
  {
    assert (log + [p])[..|log|] == log;
  }

  lemma InitsOn(log: Log, p: Packet, side: Side)
    requires InitsPlaced(log) && Fitting(side, p.payload, KexCount(log))
    ensures InitsPlaced(log + [p])
  {
    hide KexCount, NthKex, Inits, Switches;
    Pushed(log, p);
    Snoc(log, p);
  }

  lemma SharesOn(log: Log, p: Packet)
    requires SharesPlaced(log) && Fitting(Client, p.payload, KexCount(log))
    ensures SharesPlaced(log + [p])
  {
    hide KexCount, NthKex, Shares;
    Pushed(log, p);
    Snoc(log, p);
  }

  lemma AnswersOn(log: Log, p: Packet)
    requires AnswersPlaced(log) && Fitting(Server, p.payload, KexCount(log))
    ensures AnswersPlaced(log + [p])
  {
    hide KexCount, NthKex, Answers;
    Pushed(log, p);
    Snoc(log, p);
  }

  lemma PlacedOn(log: Log, p: Packet, side: Side)
    requires Placed(log, side) && Fitting(side, p.payload, KexCount(log))
    ensures Placed(log + [p], side)
  {
    hide InitsPlaced, SharesPlaced, AnswersPlaced, Fitting;
    InitsOn(log, p, side);
    if side.Client? { SharesOn(log, p); } else { AnswersOn(log, p); }
  }

  lemma {:induction false} AllPlaced(cfg: Config, logs: Logs, side: Side, j: nat)
    requires LogOk(cfg, logs, side) && j <= |logs.By(side)|
    ensures Placed(logs.By(side)[..j], side)
  {
    hide Placed, KexCount, EpochKeys, Ready;
    var log := logs.By(side);
    if j == 0 {
      NonePlaced(side);
      assert log[..0] == [];
    } else {
      AllPlaced(cfg, logs, side, j - 1);
      assert PacketOk(cfg, logs, side, j - 1);
      assert log[..j] == log[..j - 1] + [log[j - 1]];
      PlacedOn(log[..j - 1], log[j - 1], side);
    }
  }

  lemma NonePlaced(side: Side)
    ensures Placed([], side)
  {
  }

  /** Once both wires reach far enough, the exchange is there, and is what its hash says. */
  lemma ExchangeIs(cfg: Config, logs: Logs, n: nat)
    requires LogOk(cfg, logs, Client) && LogOk(cfg, logs, Server) && Ready(logs, n + 1)
    ensures Exchanged(logs, n) && Exchange(logs, n) == HashOf(logs, n)
  {
    hide KexCount, NthKex, LogOk, Inits, Shares, Answers, Switches;
    AllPlaced(cfg, logs, Client, |logs.c|);
    AllPlaced(cfg, logs, Server, |logs.s|);
    assert logs.c[..|logs.c|] == logs.c && logs.s[..|logs.s|] == logs.s;
  }

  /** Two SHH ends settle on the first cipher each way. */
  lemma CiphersAgreed(cfg: Config, logs: Logs, n: nat, toServer: bool)
    requires LogOk(cfg, logs, Client) && LogOk(cfg, logs, Server) && Ready(logs, n + 1)
    ensures CipherOf(HashOf(logs, n), toServer) == Some(CHACHA)
  {
    hide KexCount, NthKex, LogOk, EpochKeys;
    KexKind(cfg, logs, Client, 3 * n);
    KexKind(cfg, logs, Server, 3 * n);
    var x := HashOf(logs, n);
    assert x.clientInit.encC2s[0] == CHACHA && x.clientInit.encS2c[0] == CHACHA;
    assert x.serverInit.encC2s[0] == CHACHA && x.serverInit.encS2c[0] == CHACHA;
  }

  /** The keys of one packet, by what is on the wires. */
  ghost predicate KeyedBy(logs: Logs, side: Side, k: nat)
    requires k < |logs.By(side)|
  {
    var keys, n := logs.By(side)[k].keys, Switches(logs.By(side)[..k]);
    if n == 0 then keys.Plain?
    else
      && Exchanged(logs, n - 1) && Exchanged(logs, 0) && keys.Keys?
      && keys.hash == Exchange(logs, n - 1) && keys.secret == Exchange(logs, n - 1).secret
      && keys.session == Exchange(logs, 0)
      && Some(keys.cipher) == CipherOf(Exchange(logs, n - 1), side.Client?)
      && keys.toServer == side.Client?
  }

  lemma PacketKeyed(cfg: Config, logs: Logs, side: Side, k: nat)
    requires LogOk(cfg, logs, Client) && LogOk(cfg, logs, Server) && k < |logs.By(side)|
    ensures KeyedBy(logs, side, k)
  {
    hide KexCount, NthKex, HashOf, KindOk, CipherOf, Exchange, Exchanged, Inits, Shares, Answers, Switches;
    AllPlaced(cfg, logs, side, k);
    assert PacketOk(cfg, logs, side, k);
    var n := KexCount(logs.By(side)[..k]) / 3;
    if n > 0 {
      FirstToo(logs, n);
      ExchangeIs(cfg, logs, n - 1);
      ExchangeIs(cfg, logs, 0);
      CiphersAgreed(cfg, logs, n - 1, side.Client?);
    }
  }

  lemma FirstToo(logs: Logs, n: nat)
    requires n > 0 && Ready(logs, n)
    ensures Ready(logs, 1)
  {
  }

  /** On every run up to its first error: before its sender's first switch a packet is in the clear; after
  the n-th it is sealed under the n-th exchange's secret and hash, the first exchange's as the session,
  the cipher negotiated for its direction, and its sender's direction. */
  lemma EveryPacketKeyed(cfg: Config, cookieC: seq<byte>, cookieS: seq<byte>, steps: seq<Step>, side: Side, k: nat)
    requires cfg.Valid() && !Run(Boot(cfg, cookieC, cookieS), steps).Faulted()
    requires k < |Run(Boot(cfg, cookieC, cookieS), steps).logs.By(side)|
    ensures KeyedBy(Run(Boot(cfg, cookieC, cookieS), steps).logs, side, k)
  {
    hide Run, Boot, LogOk, EndOk, Apps, Bodies, KeyedBy;
    EveryRun(cfg, cookieC, cookieS, steps);
    var y := Run(Boot(cfg, cookieC, cookieS), steps);
    assert SideOk(cfg, y, Client) && SideOk(cfg, y, Server);
    PacketKeyed(cfg, y.logs, side, k);
  }

  /** Packets of the two directions never share keys, and packets of two epochs of one direction only if
  the two exchanges were the same to the last bit. */
  lemma KeysApart(cfg: Config, cookieC: seq<byte>, cookieS: seq<byte>, steps: seq<Step>, a: Side, j: nat, b: Side, k: nat)
    requires cfg.Valid() && !Run(Boot(cfg, cookieC, cookieS), steps).Faulted()
    requires j < |Run(Boot(cfg, cookieC, cookieS), steps).logs.By(a)| && k < |Run(Boot(cfg, cookieC, cookieS), steps).logs.By(b)|
    ensures var logs := Run(Boot(cfg, cookieC, cookieS), steps).logs;
      var m, n := Switches(logs.By(a)[..j]), Switches(logs.By(b)[..k]);
      logs.By(a)[j].keys == logs.By(b)[k].keys ==>
        if m == 0 || n == 0 then m == n
        else a == b && Exchanged(logs, m - 1) && Exchanged(logs, n - 1) && Exchange(logs, m - 1) == Exchange(logs, n - 1)
  {
    hide Run, Boot, Exchange, Exchanged, CipherOf, Switches;
    EveryPacketKeyed(cfg, cookieC, cookieS, steps, a, j);
    EveryPacketKeyed(cfg, cookieC, cookieS, steps, b, k);
  }

  // ------------------------------------------------------------ the server's extensions

  function Exts(log: Log): nat {
    if log == [] then 0 else Exts(log[..|log| - 1]) + if log[|log| - 1].payload.ExtInfo? then 1 else 0
  }

  lemma {:induction false} ExtsJoin(a: Log, b: Log)
    ensures Exts(a + b) == Exts(a) + Exts(b)
  {
    if b == [] {
      assert a + b == a;
    } else {
      ExtsJoin(a, b[..|b| - 1]);
      assert (a + b)[..|a + b| - 1] == a + b[..|b| - 1];
    }
  }

  /** The server tells its extensions once, as soon as it has read the client's first NEWKEYS; the client
  tells none. */
  ghost predicate ToldOnce(y: System)
    requires y.readByS <= |y.logs.c|
  {
    Exts(y.logs.c) == 0 && Exts(y.logs.s) == if KexCount(y.logs.c[..y.readByS]) >= 3 then 1 else 0
  }

  lemma One(p: Packet)
    ensures Exts([p]) == if p.payload.ExtInfo? then 1 else 0
  {
    assert [p][..0] == [];
  }

  lemma Two(p: Packet, q: Packet)
    ensures Exts([p, q]) == Exts([p]) + Exts([q])
  {
    ExtsJoin([p], [q]);
    assert [p] + [q] == [p, q];
  }

  lemma RunTells(e: End, ours: Init, theirs: Init, secret: nat)
    ensures var o := RunKex(e, ours, theirs, secret); |o.sent| <= 1 && Exts(o.sent) == 0
  {
    hide Negotiate;
    One(Sealed(e, EcdhInit(ClientShare(secret))));
  }

  lemma PayloadTells(e: End, p: Payload, c: Choice)
    ensures Exts(OnPayload(e, p, c).sent) ==
      if e.phase.AwaitNewKeys? && e.phase.first && p.NewKeys? && e.side.Server? && e.phase.neg.peerExtInfo then 1 else 0
  {
    hide Negotiate, RunKex, Local, MakeKeys, Accepts, Exts, Presented;
    var o := OnPayload(e, p, c);
    NoExts();
    match e.phase
    case Idle =>
      if p.KexInitMsg? {
        var ours := Local(e.side, e.hostAlgos, c.cookie);
        var first := Sealed(e, KexInitMsg(ours));
        var rest := RunKex(Sent(e, KexInitMsg(ours)), ours, p.init, c.secret);
        RunTells(Sent(e, KexInitMsg(ours)), ours, p.init, c.secret);
        One(first);
        ExtsJoin([first], rest.sent);
      }
    case AwaitInit(ours, _) => if p.KexInitMsg? { RunTells(e, ours, p.init, c.secret); }
    case AwaitGuess(_, _, _) => One(Sealed(e, EcdhInit(ClientShare(c.secret))));
    case AwaitReply(_, _, _, _) => One(Sealed(e, NewKeys));
    case AwaitEcdh(_, _, _) =>
      if p.EcdhInit? {
        One(o.sent[0]);
        One(o.sent[1]);
        Two(o.sent[0], o.sent[1]);
        assert o.sent == [o.sent[0], o.sent[1]];
      }
    case AwaitNewKeys(_, _, _) => if o.sent != [] { One(o.sent[0]); assert o.sent == [o.sent[0]]; }
  }

  lemma StepTells(cfg: Config, y: System, step: Step)
    requires cfg.Valid() && Inv(cfg, y) && Enabled(y, step) && !Next(y, step).Faulted()
    requires y.readByS <= |y.logs.c| && ToldOnce(y)
    ensures Next(y, step).readByS <= |Next(y, step).logs.c| && ToldOnce(Next(y, step))
  {
    hide OnPayload, EpochKeys, HashOf, Since, NthKex, KexCount, Local, Exts, Ready, Agreed, Apps, Bodies;
    var o := Effect(y, step);
    var mine := y.logs.By(step.side);
    ExtsJoin(mine, o.sent);
    NoExts();
    var e := y.At(step.side);
    match step
    case Send(_, body) => One(Sealed(e, App(body))); SameRead(y, step);
    case Start(_, cookie) => One(Sealed(e, KexInitMsg(Local(e.side, e.hostAlgos, cookie)))); SameRead(y, step);
    case Deliver(_) => SameRead(y, step);
    case Take(side, c) =>
      var pkt := y.Incoming(side)[y.Read(side)];
      PayloadTells(e.(rxSeq := (e.rxSeq + 1) % U32), pkt.payload, c);
      TakeTells(cfg, y, side, c);
  }

  lemma NoExts()
    ensures Exts([]) == 0
  {
  }

  /** What was read before is still what was read. */
  lemma SameRead(y: System, step: Step)
    requires Enabled(y, step) && !step.Take? && y.readByS <= |y.logs.c|
    ensures var y' := Next(y, step); y'.readByS == y.readByS && y'.logs.c[..y.readByS] == y.logs.c[..y.readByS]
  {
    hide OnPayload, Local;
  }

  /** The read that completes the client's first NEWKEYS is the one at which the server tells. */
  lemma TakeTells(cfg: Config, y: System, side: Side, c: Choice)
    requires cfg.Valid() && Inv(cfg, y) && Enabled(y, Take(side, c)) && y.readByS <= |y.logs.c|
    requires !Next(y, Take(side, c)).Faulted()
    ensures var y' := Next(y, Take(side, c)); var e, p := y.At(side), y.Incoming(side)[y.Read(side)].payload;
      && e.side == side && y'.readByS <= |y'.logs.c|
      && (if side.Client? then y'.logs.c[..y'.readByS] == y.logs.c[..y.readByS]
          else
            var was, now := KexCount(y.logs.c[..y.readByS]), KexCount(y'.logs.c[..y'.readByS]);
            (was < 3 <= now <==> e.phase.AwaitNewKeys? && e.phase.first && p.NewKeys? && e.phase.neg.peerExtInfo) && was <= now)
  {
    hide OnPayload, EpochKeys, HashOf, Since, NthKex, KexCount, Local, Exts, Ready, Apps, Bodies;
    assert SideOk(cfg, y, Client) && SideOk(cfg, y, Server);
    if side.Server? {
      NextPacket(y.logs.c, y.readByS);
      Snoc(y.logs.c[..y.readByS], y.logs.c[y.readByS]);
      assert PacketOk(cfg, y.logs, Client, y.readByS);
    }
  }

  /** On every run up to its first error. */
  lemma {:induction false} ExtensionsOnce(cfg: Config, cookieC: seq<byte>, cookieS: seq<byte>, steps: seq<Step>)
    requires cfg.Valid()
    ensures var y := Run(Boot(cfg, cookieC, cookieS), steps); !y.Faulted() ==> y.readByS <= |y.logs.c| && ToldOnce(y)
    decreases |steps|
  {
    hide Inv, Boot, Next, Effect, ToldOnce;
    var y0 := Boot(cfg, cookieC, cookieS);
    if steps == [] {
      BootTells(cfg, cookieC, cookieS);
    } else {
      var init, last := steps[..|steps| - 1], steps[|steps| - 1];
      ExtensionsOnce(cfg, cookieC, cookieS, init);
      EveryRun(cfg, cookieC, cookieS, init);
      var y := Run(y0, init);
      if !Next(y, last).Faulted() { LastTells(cfg, y, last); }
    }
  }

  lemma LastTells(cfg: Config, y: System, step: Step)
    requires cfg.Valid() && (!y.Faulted() ==> Inv(cfg, y) && y.readByS <= |y.logs.c| && ToldOnce(y)) && !Next(y, step).Faulted()
    ensures Next(y, step).readByS <= |Next(y, step).logs.c| && ToldOnce(Next(y, step))
  {
    hide Inv, Effect, ToldOnce;
    if Enabled(y, step) { StepTells(cfg, y, step); }
  }

  lemma BootTells(cfg: Config, cookieC: seq<byte>, cookieS: seq<byte>)
    ensures var y := Boot(cfg, cookieC, cookieS); y.readByS <= |y.logs.c| && ToldOnce(y)
  {
    var y := Boot(cfg, cookieC, cookieS);
    One(y.logs.c[0]);
    One(y.logs.s[0]);
    assert y.logs.c[..0] == [];
  }
}
