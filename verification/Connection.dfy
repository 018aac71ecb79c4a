/** The connection loop itself (src/connect/mux.rs, `Connection`): the fields it updates in place and a
method per handler, each proved to do what the handler functions of Mux.dfy and Forwards.dfy say. */
module Connection {
  import opened Bytes
  import opened Channel
  import opened Mux
  import Forwards

  /** The kinds of channel a peer may open. */
  datatype Kind =
    | Session
    | DirectTcpip(host: string, port: u16)
    | ForwardedTcpip(host: string, port: u16)
    | AuthAgent
    | Unknown(name: string)

  /** Where a connect goes. */
  datatype Target = Address(place: Forwards.Place) | AgentSocket

  function Notes(id: u32, tell: seq<Event>): seq<(u32, Event)> {
    if tell == [] then [] else [(id, tell[0])] + Notes(id, tell[1..])
  }

  function Spawns(s: Spawn): seq<Spawn> { if s.Nothing? then [] else [s] }

  lemma Wired(peer: u32, id: u32, m: Msg)
    ensures Addressed(peer, id, [m]) == [To(peer, id, m)]
  {
    assert [m][1..] == [];
  }

  lemma OneNote(id: u32, e: Event)
    ensures Notes(id, [e]) == [(id, e)]
  {
    assert [e][1..] == [];
  }

  /** What a peer's close comes to. */
  lemma Unheld(t: Table, id: u32)
    requires id !in t.channels
    ensures OnTo(t, id, Msg.Close) == Quiet(t)
  {
  }

  lemma Closed(t: Table, id: u32)
    requires id in t.channels
    ensures var c, eff := t.channels[id], OnTo(t, id, Msg.Close);
      && eff == Effect(t.(channels := t.channels - {id}, done := t.done || c.endOnClose), eff.sent, [Event.Close], Nothing)
      && eff.sent == (if c.sentClose then [] else [To(c.peer, id, Msg.Close)])
                             + (if c.endOnClose then [Packet.Disconnect] else [])
  {
    Wired(t.channels[id].peer, id, Msg.Close);
  }

  /** What a task's close comes to. */
  lemma TaskClosed(t: Table, id: u32)
    requires id in t.channels
    ensures var c, eff := t.channels[id], OnOrder(t, Order.Of(id, Cmd.Close));
      && eff == Effect(
           if c.peerClosed then t.(channels := t.channels - {id}, done := t.done || c.endOnClose)
           else t.(channels := t.channels[id := c.(sentClose := true)]), eff.sent, [], Nothing)
      && eff.sent == (if c.sentClose then [] else [To(c.peer, id, Msg.Close)])
                     + (if c.peerClosed && c.endOnClose then [Packet.Disconnect] else [])
  {
    Wired(t.channels[id].peer, id, Msg.Close);
  }

  const WILDCARDS: seq<string> := ["", "0.0.0.0", "::", "*"]

  /** A forwarded open finds a forward exactly when its own place, or a wildcard bind on its port, is
  registered. */
  lemma RemoteMeans(g: Forwards.Globals, addr: string, port: u16)
    ensures var r := Forwards.LookupRemote(g, addr, port);
      && (r.Some? <==> exists bind :: bind in [addr] + WILDCARDS && (bind, port) in g.forwards)
      && (r.Some? ==> exists bind :: bind in [addr] + WILDCARDS && (bind, port) in g.forwards && r.value == g.forwards[(bind, port)])
  {
    var binds := [addr] + WILDCARDS;
    assert binds[0] == addr && binds[1] == "" && binds[2] == "0.0.0.0" && binds[3] == "::" && binds[4] == "*" && |binds| == 5;
    assert forall b :: b in binds ==> b == binds[0] || b == binds[1] || b == binds[2] || b == binds[3] || b == binds[4];
  }

  class Connection {
    var channels: map<u32, Chan>
    var pending: map<u32, Pending>
    var pendingConnects: nat
    var nextId: u32
    var done: bool
    var pendingGlobal: seq<Forwards.Pending>
    var remoteForwards: map<Forwards.Place, Forwards.Place>
    var listeners: map<Forwards.Place, nat>
    var keepaliveOutstanding: nat
    var recvSinceTick: bool
    const keepaliveMaxMissed: nat
    const policy: Forwards.Policy
    const listenPolicy: Forwards.Policy
    const agent: bool

    /** What was sent, what the channel tasks were told, and what was started, so far. */
    var out: seq<Packet>
    var globalOut: seq<Forwards.Packet>
    var told: seq<(u32, Event)>
    var spawned: seq<Spawn>
    var listening: seq<Forwards.Listener>
    var dialed: seq<(Dial, Target)>

    function Tables(): Table
      reads this
    {
      Table(channels, pending, pendingConnects, nextId, done)
    }

    /** The cap on channels, pending opens and connects in flight, together. */
    ghost predicate Valid()
      reads this
    {
      Capped(Tables())
    }

    function Globals(): Forwards.Globals
      reads this
    {
      Forwards.Globals(pendingGlobal, remoteForwards, listeners, keepaliveOutstanding, recvSinceTick, keepaliveMaxMissed, listenPolicy)
    }

    /** The tables, the wire and the channel tasks changed as a handler says; the globals did not. */
    twostate predicate Did(eff: Effect, id: u32)
      reads this
    {
      && eff.Effect? && Tables() == eff.table
      && out == old(out) + eff.sent && told == old(told) + Notes(id, eff.tell)
      && spawned == old(spawned) + Spawns(eff.spawn)
      && Globals() == old(Globals()) && listening == old(listening) && globalOut == old(globalOut)
      && (dialed == old(dialed) || eff.spawn.Dialer?)
    }

    /** The globals and the wire changed as a handler says; the tables did not. */
    twostate predicate DidGlobally(d: Forwards.Done)
      reads this
    {
      && d.Done? && Globals() == d.globals && globalOut == old(globalOut) + d.sent
      && listening == old(listening) + (if d.spawn.Some? then [d.spawn.value] else [])
      && Tables() == old(Tables()) && out == old(out) && told == old(told) && spawned == old(spawned) && dialed == old(dialed)
    }

    constructor (maxMissed: nat, policy: Forwards.Policy, listenPolicy: Forwards.Policy, agent: bool)
      ensures Valid() && Tables() == EMPTY && out == [] && globalOut == [] && told == [] && spawned == [] && listening == []
      ensures Globals() == Forwards.Fresh(maxMissed, listenPolicy).globals
      ensures this.policy == policy && this.agent == agent
    {
      channels, pending, pendingConnects, nextId, done := map[], map[], 0, 0, false;
      pendingGlobal, remoteForwards, listeners, keepaliveOutstanding, recvSinceTick := [], map[], map[], 0, true;
      keepaliveMaxMissed, this.policy, this.listenPolicy, this.agent := maxMissed, policy, listenPolicy, agent;
      out, globalOut, told, spawned, listening, dialed := [], [], [], [], [], [];
    }

    method AllocId() returns (id: u32)
      modifies this`nextId
      ensures id == old(nextId) && nextId == Inc32(id)
    {
      id := nextId;
      nextId := Inc32(nextId);
    }

    method Send(p: Packet)
      modifies this`out
      ensures out == old(out) + [p]
    {
      out := out + [p];
    }

    method InsertChan(id: u32, peer: u32, window: u32, max: u32, session: bool, endOnClose: bool)
      modifies this`channels, this`spawned
      ensures channels == old(channels)[id := NewChan(peer, window, max, session, endOnClose)]
      ensures spawned == old(spawned) + [Worker(id)]
    {
      channels := channels[id := NewChan(peer, window, max, session, endOnClose)];
      spawned := spawned + [Worker(id)];
    }

    /** The exact place, then a wildcard bind on that port. */
    method LookupRemote(addr: string, port: u16) returns (r: Option<Forwards.Place>)
      ensures r == Forwards.LookupRemote(Globals(), addr, port)
    {
      if (addr, port) in remoteForwards {
        return Some(remoteForwards[(addr, port)]);
      }
      assert WILDCARDS[0] == "" && WILDCARDS[1] == "0.0.0.0" && WILDCARDS[2] == "::" && WILDCARDS[3] == "*";
      for k := 0 to |WILDCARDS|
        invariant forall j :: 0 <= j < k ==> (WILDCARDS[j], port) !in remoteForwards
      {
        assert k == 0 || k == 1 || k == 2 || k == 3;
        if (WILDCARDS[k], port) in remoteForwards {
          return Some(remoteForwards[(WILDCARDS[k], port)]);
        }
      }
      return None;
    }

    /** What is to become of an open: a session is served; a connect is made where the policy allows it,
    for a forward that was asked for, or to an agent that was offered; all else is refused. */
    function Verdict(kind: Kind): (v: Verdict)
      reads this
      ensures v.Serve? <==> kind.Session?
      ensures kind.DirectTcpip? ==> (v.Connect? <==> Forwards.Allowed(policy, kind.host, kind.port))
      ensures kind.ForwardedTcpip? ==>
        (v.Connect? <==> exists bind :: bind in [kind.host] + WILDCARDS && (bind, kind.port) in remoteForwards)
      ensures kind.AuthAgent? ==> (v.Connect? <==> agent)
      ensures kind.Unknown? ==> v.Refuse?
    {
      match kind
      case Session => Serve
      case DirectTcpip(host, port) =>
        Forwards.PermitsMeans(policy, host, port);
        if Forwards.Permits(policy, host, port) then Connect else Refuse
      case ForwardedTcpip(addr, port) =>
        RemoteMeans(Globals(), addr, port);
        if Forwards.LookupRemote(Globals(), addr, port).Some? then Connect else Refuse
      case AuthAgent => if agent then Connect else Refuse
      case Unknown(_) => Refuse
    }

    /** Where the connect for an open goes. */
    function TargetOf(kind: Kind): (t: Target)
      requires Verdict(kind).Connect?
      reads this
      ensures kind.DirectTcpip? ==> t == Address((kind.host, kind.port))
      ensures kind.ForwardedTcpip? ==>
        t.Address? && exists bind :: bind in [kind.host] + WILDCARDS && (bind, kind.port) in remoteForwards && t.place == remoteForwards[(bind, kind.port)]
      ensures kind.ForwardedTcpip? && (kind.host, kind.port) in remoteForwards ==> t == Address(remoteForwards[(kind.host, kind.port)])
      ensures kind.AuthAgent? ==> t == AgentSocket
    {
      match kind
      case DirectTcpip(host, port) => Address((host, port))
      case ForwardedTcpip(addr, port) =>
        RemoteMeans(Globals(), addr, port);
        Address(Forwards.LookupRemote(Globals(), addr, port).value)
      case AuthAgent => AgentSocket
    }

    method Judge(kind: Kind) returns (v: Verdict, t: Option<Target>)
      ensures v == Verdict(kind) && t == if v.Connect? then Some(TargetOf(kind)) else None
    {
      v, t := Refuse, None;
      match kind {
        case Session => v := Serve;
        case DirectTcpip(host, port) =>
          if Forwards.Permits(policy, host, port) {
            v, t := Connect, Some(Address((host, port)));
          }
        case ForwardedTcpip(addr, port) =>
          var target := LookupRemote(addr, port);
          if target.Some? {
            v, t := Connect, Some(Address(target.value));
          }
        case AuthAgent =>
          if agent {
            v, t := Connect, Some(AgentSocket);
          }
        case Unknown(_) =>
      }
    }

    /** An id is given out, the open confirmed, and a task started. */
    method Accept(peer: u32, window: u32, max: u32, session: bool)
      modifies this`channels, this`nextId, this`out, this`spawned
      ensures channels == old(channels)[old(nextId) := NewChan(peer, window, max, session, false)]
      ensures nextId == Inc32(old(nextId)) && out == old(out) + [Confirmation(peer, old(nextId))]
      ensures spawned == old(spawned) + [Worker(old(nextId))]
    {
      hide NewChan, Inc32;
      var id := AllocId();
      Send(Confirmation(peer, id));
      InsertChan(id, peer, window, max, session, false);
    }

    method OnChannelOpen(kind: Kind, sender: u32, window: u32, max: u32)
      modifies this
      ensures Did(OnOpen(old(Tables()), old(Verdict(kind)), sender, window, max), 0)
      ensures dialed == old(dialed) + if old(Full(Tables()) || !Verdict(kind).Connect?) then [] else [(Dial(sender, window, max), old(TargetOf(kind)))]
    {
      hide Verdict, TargetOf, OnOpen, Full;
      var v, t := Judge(kind);
      Admit(v, t, sender, window, max);
    }

    /** The cap first, then what the open was judged to come to. */
    method Admit(v: Verdict, t: Option<Target>, sender: u32, window: u32, max: u32)
      requires v.Connect? ==> t.Some?
      modifies this
      ensures Did(OnOpen(old(Tables()), v, sender, window, max), 0)
      ensures dialed == old(dialed) + if old(Full(Tables())) || !v.Connect? then [] else [(Dial(sender, window, max), t.value)]
    {
      hide NewChan, Inc32;
      if |channels| + |pending| + pendingConnects >= MAX_CHANNELS {
        Send(Refused(sender));
      } else if v.Serve? {
        Accept(sender, window, max, true);
      } else if v.Connect? {
        SpawnConnect(sender, window, max, t.value);
      } else {
        Send(Refused(sender));
      }
    }

    method SpawnConnect(peer: u32, window: u32, max: u32, target: Target)
      modifies this`pendingConnects, this`spawned, this`dialed
      ensures pendingConnects == old(pendingConnects) + 1
      ensures spawned == old(spawned) + [Dialer(Dial(peer, window, max))]
      ensures dialed == old(dialed) + [(Dial(peer, window, max), target)]
    {
      dialed := dialed + [(Dial(peer, window, max), target)];
      pendingConnects := pendingConnects + 1;
      spawned := spawned + [Dialer(Dial(peer, window, max))];
    }

    method OnOpenConfirm(ours: u32, peer: u32, window: u32, max: u32) returns (r: Option<Fault>)
      modifies this
      ensures var eff := OnTo(old(Tables()), ours, Confirm(peer, window, max));
        if r.None? then Did(eff, ours) else eff == Error(r.value) && unchanged(this)
    {
      if ours !in pending {
        return Some(UnknownConfirmation);
      }
      var was := pending[ours];
      pending := pending - {ours};
      match was {
        case Direct => InsertChan(ours, peer, window, max, false, false);
        case Session(endOnClose) => InsertChan(ours, peer, window, max, true, endOnClose);
      }
      return None;
    }

    method OnOpenFailure(ours: u32)
      modifies this
      ensures Did(OnRefused(old(Tables()), ours), ours)
    {
      if ours in pending {
        var was := pending[ours];
        pending := pending - {ours};
        if was.Session? && was.endOnClose {
          done := true;
        }
      }
    }

    /** Channel data and extended data alike. */
    method OnData(id: u32, chunk: Chunk) returns (r: Option<Fault>)
      modifies this
      ensures var eff := OnTo(old(Tables()), id, Msg.Data(chunk));
        if r.None? then Did(eff, id) else eff == Error(r.value) && unchanged(this)
    {
      if id !in channels {
        return None;
      }
      var ch := channels[id];
      if |chunk.bytes| >= U32 {
        return Some(TooLarge);
      }
      if |chunk.bytes| > ch.localWindow {
        return Some(Overflowed);
      }
      ch := ch.(localWindow := ch.localWindow - |chunk.bytes|);
      channels := channels[id := ch];
      told := told + [(id, Event.Data(chunk))];
      return None;
    }

    method OnWindowAdjust(id: u32, add: u32)
      modifies this
      ensures Did(OnTo(old(Tables()), id, Adjust(add)), id)
    {
      if id in channels {
        var ch := channels[id];
        var ceiling := Min(WINDOW_MAX, MAX_PERMITS);
        var headroom := if ch.credit <= ceiling then ceiling - ch.credit else 0;
        var grant := Min(add, headroom);
        if grant > 0 {
          ch := ch.(credit := ch.credit + grant);
        }
        channels := channels[id := ch];
      }
    }

    method OnEof(id: u32)
      modifies this
      ensures Did(OnTo(old(Tables()), id, Msg.Eof), id)
    {
      if id in channels {
        told := told + [(id, Event.Eof)];
        assert channels[id := channels[id]] == channels;
      }
    }

    /** The peer's close is answered with ours, unless ours was sent before. */
    method AnswerClose(id: u32)
      requires id in channels
      modifies this`channels, this`told, this`out
      ensures channels == old(channels)[id := old(channels)[id].(peerClosed := true, sentClose := true)]
      ensures told == old(told) + [(id, Event.Close)]
      ensures out == old(out) + if old(channels)[id].sentClose then [] else [To(old(channels)[id].peer, id, Msg.Close)]
    {
      var ch := channels[id].(peerClosed := true);
      told := told + [(id, Event.Close)];
      if !ch.sentClose {
        ch := ch.(sentClose := true);
        Send(To(ch.peer, id, Msg.Close));
      }
      channels := channels[id := ch];
    }

    method OnClose(id: u32)
      modifies this
      ensures Did(OnTo(old(Tables()), id, Msg.Close), id)
    {
      hide OnTo, OnMsg, Settle;
      if id !in channels {
        Unheld(Tables(), id);
      } else {
        Closed(Tables(), id);
        OneNote(id, Event.Close);
        AnswerClose(id);
        CloseIfDone(id);
        assert channels == old(channels) - {id};
      }
    }

    /** Whether both sides have closed. */
    predicate BothClosed(id: u32)
      reads this
    {
      id in channels && channels[id].sentClose && channels[id].peerClosed
    }

    predicate Terminal(id: u32)
      reads this
    {
      id in channels && channels[id].endOnClose
    }

    /** Out of the table once both sides have closed; a terminal channel takes the connection with it. */
    method CloseIfDone(id: u32)
      modifies this`channels, this`out, this`done
      ensures channels == if old(BothClosed(id)) then old(channels) - {id} else old(channels)
      ensures out == old(out) + if old(BothClosed(id) && Terminal(id)) then [Packet.Disconnect] else []
      ensures done == (old(done) || old(BothClosed(id) && Terminal(id)))
    {
      if id in channels && channels[id].sentClose && channels[id].peerClosed {
        var terminal := channels[id].endOnClose;
        channels := channels - {id};
        if terminal {
          Send(Packet.Disconnect);
          done := true;
        }
      }
    }

    method OnChannelRequest(id: u32, wantReply: bool)
      modifies this
      ensures Did(OnTo(old(Tables()), id, Msg.Request(wantReply)), id)
    {
      if id in channels {
        assert channels[id := channels[id]] == channels;
        if channels[id].session {
          told := told + [(id, Event.Request(wantReply))];
        } else if wantReply {
          Wired(channels[id].peer, id, Msg.Reply(false));
          Send(To(channels[id].peer, id, Msg.Reply(false)));
        }
      }
    }

    method OnRequestReply(id: u32, ok: bool)
      modifies this
      ensures Did(OnTo(old(Tables()), id, Msg.Reply(ok)), id)
    {
      if id in channels {
        told := told + [(id, Event.Reply(ok))];
        assert channels[id := channels[id]] == channels;
      }
    }

    /** One packet about channels, to its handler. */
    method OnPacket(p: Packet, kind: Kind) returns (r: Option<Fault>)
      modifies this
      ensures var eff := Mux.OnPacket(old(Tables()), p, old(Verdict(kind)));
        if r.None? then Did(eff, if p.To? then p.id else 0) else eff == Error(r.value) && unchanged(this)
      ensures p.Open? ==>
        dialed == old(dialed) + if old(Full(Tables()) || !Verdict(kind).Connect?) then [] else [(Dial(p.sender, p.window, p.max), old(TargetOf(kind)))]
      ensures old(Valid()) ==> Valid()
    {
      hide OnTo, OnOpen, OnRefused, Verdict, TargetOf, Capped, Full;
      ghost var t, eff := Tables(), Mux.OnPacket(Tables(), p, Verdict(kind));
      if Capped(t) && eff.Effect? { PacketCapped(t, p, Verdict(kind)); }
      r := None;
      match p {
        case Open(sender, window, max) => OnChannelOpen(kind, sender, window, max);
        case Refused(ours) => Drop(ours);
        case Disconnect => done := true;
        case To(id, _, m) => r := OnMessage(id, m);
      }
    }

    /** A refused open tells no task anything. */
    method Drop(ours: u32)
      modifies this
      ensures Did(OnRefused(old(Tables()), ours), 0)
    {
      OnOpenFailure(ours);
    }

    method OnMessage(id: u32, m: Msg) returns (r: Option<Fault>)
      modifies this
      ensures var eff := OnTo(old(Tables()), id, m);
        if r.None? then Did(eff, id) else eff == Error(r.value) && unchanged(this)
    {
      hide OnTo;
      r := None;
      match m {
        case Confirm(peer, window, max) => r := OnOpenConfirm(id, peer, window, max);
        case Data(chunk) => r := OnData(id, chunk);
        case Adjust(add) => OnWindowAdjust(id, add);
        case Eof => OnEof(id);
        case Close => OnClose(id);
        case Request(wantReply) => OnChannelRequest(id, wantReply);
        case Reply(ok) => OnRequestReply(id, ok);
      }
    }

    // ---------------------------------------------------------- commands

    /** A tunnel or a session of our own: dropped at the cap. */
    method OpenChannel(p: Pending)
      modifies this
      ensures Did(OnOrder(old(Tables()), if p.Direct? then OpenTunnel else OpenSession(p.endOnClose)), 0)
      ensures old(Valid()) ==> Valid()
    {
      hide Capped;
      if Capped(Tables()) { OrderCapped(Tables(), if p.Direct? then OpenTunnel else OpenSession(p.endOnClose)); }
      if |channels| + |pending| + pendingConnects >= MAX_CHANNELS {
        return;
      }
      var id := AllocId();
      pending := pending[id := p];
      Send(Packet.Open(id, LOCAL_WINDOW, MAX_CHUNK));
    }

    method OnConnected(d: Dial, ok: bool)
      modifies this
      ensures Did(OnOrder(old(Tables()), Connected(d, ok)), 0)
      ensures old(Valid() && pendingConnects > 0) ==> Valid()
    {
      hide Capped;
      if Capped(Tables()) && pendingConnects > 0 { OrderCapped(Tables(), Connected(d, ok)); }
      hide NewChan, Inc32;
      pendingConnects := if pendingConnects == 0 then 0 else pendingConnects - 1;
      if ok {
        Accept(d.peer, d.window, d.max, false);
      } else {
        Send(Refused(d.peer));
      }
    }

    /** Data, extended data, requests and replies cleared to send. */
    method Relay(id: u32, cmd: Cmd)
      requires cmd.Data? || cmd.Request? || cmd.Reply?
      modifies this
      ensures Did(OnOrder(old(Tables()), Order.Of(id, cmd)), id)
      ensures old(Valid()) ==> Valid()
    {
      hide Capped;
      if Capped(Tables()) { OrderCapped(Tables(), Order.Of(id, cmd)); }
      if id in channels {
        var m := match cmd
          case Data(chunk) => Msg.Data(chunk)
          case Request(wantReply) => Msg.Request(wantReply)
          case Reply(ok) => Msg.Reply(ok);
        Wired(channels[id].peer, id, m);
        assert channels[id := channels[id]] == channels;
        Send(To(channels[id].peer, id, m));
      }
    }

    method TaskEof(id: u32)
      modifies this
      ensures Did(OnOrder(old(Tables()), Order.Of(id, Cmd.Eof)), id)
      ensures old(Valid()) ==> Valid()
    {
      hide Capped;
      if Capped(Tables()) { OrderCapped(Tables(), Order.Of(id, Cmd.Eof)); }
      if id in channels {
        Wired(channels[id].peer, id, Msg.Eof);
        assert channels[id := channels[id]] == channels;
        if !channels[id].sentEof {
          channels := channels[id := channels[id].(sentEof := true)];
          Send(To(channels[id].peer, id, Msg.Eof));
        }
      }
    }

    method TaskClose(id: u32)
      modifies this
      ensures Did(OnOrder(old(Tables()), Order.Of(id, Cmd.Close)), id)
      ensures old(Valid()) ==> Valid()
    {
      hide Capped;
      if Capped(Tables()) { OrderCapped(Tables(), Order.Of(id, Cmd.Close)); }
      if id in channels {
        hide OnOrder, OnCmd, Settle;
        TaskClosed(Tables(), id);
        MarkClose(id);
        CloseIfDone(id);
        assert old(channels)[id].peerClosed ==> channels == old(channels) - {id};
      }
    }

    method MarkClose(id: u32)
      requires id in channels
      modifies this`channels, this`out
      ensures channels == old(channels)[id := old(channels)[id].(sentClose := true)]
      ensures out == old(out) + if old(channels)[id].sentClose then [] else [To(old(channels)[id].peer, id, Msg.Close)]
    {
      var ch := channels[id];
      if !ch.sentClose {
        ch := ch.(sentClose := true);
        Send(To(ch.peer, id, Msg.Close));
      }
      channels := channels[id := ch];
    }

    /** Half a window consumed is granted anew at once. */
    method OnConsumed(id: u32, n: u32)
      modifies this
      ensures Did(OnOrder(old(Tables()), Order.Of(id, Consumed(n))), id)
      ensures old(Valid()) ==> Valid()
    {
      hide Capped;
      if Capped(Tables()) { OrderCapped(Tables(), Order.Of(id, Consumed(n))); }
      if id in channels {
        var ch := channels[id];
        var sum: u32 := (ch.pendingConsumed + n) % 0x1_0000_0000;
        ch := ch.(pendingConsumed := sum);
        if ch.pendingConsumed >= WINDOW_REFILL {
          var add := ch.pendingConsumed;
          ch := ch.(pendingConsumed := 0, localWindow := Min(ch.localWindow + add, WINDOW_MAX));
          Wired(ch.peer, id, Adjust(add));
          Send(To(ch.peer, id, Adjust(add)));
        }
        channels := channels[id := ch];
      }
    }

    /** One command, to its handler. */
    method OnCommand(o: Order)
      modifies this
      ensures Did(OnOrder(old(Tables()), o), 0)
      ensures old(Valid() && (o.Connected? ==> pendingConnects > 0)) ==> Valid()
    {
      hide OnOrder, Capped;
      match o {
        case OpenTunnel => OpenChannel(Direct);
        case OpenSession(endOnClose) => OpenChannel(Pending.Session(endOnClose));
        case Connected(dial, ok) => OnConnected(dial, ok);
        case Of(id, cmd) =>
          match cmd {
            case Eof => TaskEof(id);
            case Close => TaskClose(id);
            case Consumed(n) => OnConsumed(id, n);
            case _ => Relay(id, cmd);
          }
      }
    }

    // ---------------------------------------------------------- global requests

    method OnKeepaliveTick() returns (alive: bool)
      modifies this
      ensures var d := Forwards.OnKeepaliveTick(old(Globals()));
        if alive then DidGlobally(d) else d.Unresponsive? && unchanged(this)
    {
      if recvSinceTick {
        recvSinceTick, keepaliveOutstanding := false, 0;
        return true;
      }
      if keepaliveOutstanding >= keepaliveMaxMissed {
        return false;
      }
      keepaliveOutstanding := keepaliveOutstanding + 1;
      pendingGlobal := pendingGlobal + [Forwards.Keepalive];
      globalOut := globalOut + [Forwards.Ask(Forwards.Named(Forwards.KEEPALIVE), true)];
      return true;
    }

    method RemoteForward(bind: string, port: u16, target: Forwards.Place)
      modifies this
      ensures DidGlobally(Forwards.OnRemoteForward(old(Globals()), bind, port, target))
    {
      pendingGlobal := pendingGlobal + [Forwards.Forward(bind, port, target)];
      globalOut := globalOut + [Forwards.Ask(Forwards.TcpipForward(bind, port), true)];
    }

    method Reply(want: bool, p: Forwards.Packet)
      modifies this`globalOut
      ensures globalOut == old(globalOut) + Forwards.Replies(want, p)
    {
      if want {
        globalOut := globalOut + [p];
      }
    }

    /** `bound` is what binding the socket comes to. The reply is sent before the listener starts. */
    method HandleTcpipForward(bind: string, wide: u32, want: bool, bound: Option<u16>, handle: nat)
      modifies this
      ensures DidGlobally(Forwards.OnTcpipForward(old(Globals()), bind, wide, want, bound, handle))
    {
      hide Forwards.Permits;
      var port: u16 := if wide < U16 then wide else 0;
      var addr := Forwards.NormalizeBind(bind);
      if !Forwards.Permits(listenPolicy, bind, port) && !Forwards.Permits(listenPolicy, addr, port) {
        Reply(want, Forwards.Denied);
        return;
      }
      if bound.None? {
        Reply(want, Forwards.Denied);
        return;
      }
      var actual := bound.value;
      Reply(want, Forwards.Granted(if port == 0 then Some(actual) else None));
      listening := listening + [Forwards.Listener(bind, actual)];
      if port != actual {
        listeners := listeners[(addr, port) := handle];
      }
      listeners := listeners[(addr, actual) := handle];
    }

    method OnGlobalRequest(r: Forwards.Request, want: bool, bound: Option<u16>, handle: nat)
      modifies this
      ensures DidGlobally(Forwards.OnRequest(old(Globals()), r, want, bound, handle))
    {
      match r {
        case TcpipForward(bind, port) => HandleTcpipForward(bind, port, want, bound, handle);
        case CancelForward(bind, port) =>
          listeners := listeners - {(Forwards.NormalizeBind(bind), Forwards.Narrow(port))};
          Reply(want, Forwards.Granted(None));
        case Named(_) => Reply(want, Forwards.Denied);
      }
    }

    /** Replies come in the order of the requests: this one answers the head of the queue. */
    method OnGlobalReply(success: bool, carried: Option<u32>)
      modifies this
      ensures DidGlobally(Forwards.Done(Forwards.OnReply(old(Globals()), success, carried), [], None))
    {
      if pendingGlobal == [] {
        return;
      }
      var head := pendingGlobal[0];
      pendingGlobal := pendingGlobal[1..];
      match head {
        case Keepalive => keepaliveOutstanding := 0;
        case Forward(bind, asked, target) =>
          if success {
            var port := if asked != 0 then asked else if carried.Some? && carried.value < U16 then carried.value else 0;
            remoteForwards := remoteForwards[(bind, port) := target];
          }
      }
    }
  }
}
