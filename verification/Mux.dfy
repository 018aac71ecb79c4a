/** The connection loop's tables (src/connect/mux.rs, `Connection`): channels, pending opens, connects
in flight and the id counter, with a handler for every packet and command that concerns them. */
module Mux {
  import opened Bytes
  import opened Channel

  const MAX_CHANNELS: nat := 256

  /** An open this end sent and the peer has not answered. */
  datatype Pending = Direct | Session(endOnClose: bool)

  datatype Table = Table(
    channels: map<u32, Chan>, pending: map<u32, Pending>,
    connects: nat, nextId: u32, done: bool)

  const EMPTY := Table(map[], map[], 0, 0, false)

  /** Packets of the connection protocol. `from` is the sender's own id for the channel: a confirmation
  carries it, the other messages do not, and no handler but a confirmation's looks at it. */
  datatype Packet =
    | Open(sender: u32, window: u32, max: u32)
    | Refused(ours: u32)
    | To(id: u32, from: u32, msg: Msg)
    | Disconnect

  /** A local connect for an open of the peer's. */
  datatype Dial = Dial(peer: u32, window: u32, max: u32)

  datatype Order =
    | OpenTunnel
    | OpenSession(endOnClose: bool)
    | Connected(dial: Dial, ok: bool)
    | Of(id: u32, cmd: Cmd)

  /** What becomes of an open, by its kind, the policies and the forwards registered. */
  datatype Verdict = Serve | Connect | Refuse

  datatype Spawn = Nothing | Worker(id: u32) | Dialer(dial: Dial)

  datatype Effect =
    | Effect(table: Table, sent: seq<Packet>, tell: seq<Event>, spawn: Spawn)
    | Error(fault: Fault)

  function Quiet(t: Table): Effect { Effect(t, [], [], Nothing) }

  predicate Full(t: Table) {
    |t.channels| + |t.pending| + t.connects >= MAX_CHANNELS
  }

  function Confirmation(peer: u32, id: u32): Packet {
    To(peer, id, Confirm(id, LOCAL_WINDOW, MAX_CHUNK))
  }

  function OnOpen(t: Table, verdict: Verdict, sender: u32, window: u32, max: u32): Effect {
    if Full(t) then Effect(t, [Refused(sender)], [], Nothing)
    else match verdict
      case Serve =>
        var id := t.nextId;
        Effect(t.(channels := t.channels[id := NewChan(sender, window, max, true, false)], nextId := Inc32(id)),
               [Confirmation(sender, id)], [], Worker(id))
      case Connect => Effect(t.(connects := t.connects + 1), [], [], Dialer(Dial(sender, window, max)))
      case Refuse => Effect(t, [Refused(sender)], [], Nothing)
  }

  function OnRefused(t: Table, ours: u32): Effect {
    if ours !in t.pending then Quiet(t)
    else
      var was := t.pending[ours];
      Quiet(t.(pending := t.pending - {ours}, done := t.done || (was.Session? && was.endOnClose)))
  }

  function PendingStage(p: Pending): Stage {
    Opening(p.Session?, p.Session? && p.endOnClose)
  }

  /** The messages of a turn, as packets to the peer's end of channel `id`. */
  function Addressed(peer: u32, id: u32, sent: seq<Msg>): seq<Packet> {
    if sent == [] then [] else [To(peer, id, sent[0])] + Addressed(peer, id, sent[1..])
  }

  /** Write a turn on channel `id` back; the end of a terminal channel ends the connection. */
  function Settle(t: Table, id: u32, turn: Turn): Effect
    requires id in t.channels
  {
    match turn
    case Failed(fault) => Error(fault)
    case Turn(stage, sent, tell) =>
      var c := t.channels[id];
      var packets := Addressed(c.peer, id, sent);
      if stage.Held? then Effect(t.(channels := t.channels[id := stage.chan]), packets, tell, Nothing)
      else if c.endOnClose then
        Effect(t.(channels := t.channels - {id}, done := true), packets + [Disconnect], tell, Nothing)
      else Effect(t.(channels := t.channels - {id}), packets, tell, Nothing)
  }

  function OnTo(t: Table, id: u32, m: Msg): Effect {
    if m.Confirm? then
      if id !in t.pending then Error(UnknownConfirmation)
      else
        var s := PendingStage(t.pending[id]);
        Effect(t.(pending := t.pending - {id}, channels := t.channels[id := NewChan(m.peer, m.window, m.max, s.session, s.endOnClose)]),
               [], [], Worker(id))
    else if id !in t.channels then Quiet(t)
    else Settle(t, id, OnMsg(Held(t.channels[id]), m))
  }

  function OnPacket(t: Table, p: Packet, verdict: Verdict): Effect {
    match p
    case Open(sender, window, max) => OnOpen(t, verdict, sender, window, max)
    case Refused(ours) => OnRefused(t, ours)
    case To(id, _, m) => OnTo(t, id, m)
    case Disconnect => Quiet(t.(done := true))
  }

  function Opens(t: Table, p: Pending): Effect {
    if Full(t) then Quiet(t)
    else
      var id := t.nextId;
      Effect(t.(pending := t.pending[id := p], nextId := Inc32(id)), [Packet.Open(id, LOCAL_WINDOW, MAX_CHUNK)], [], Nothing)
  }

  function OnConnected(t: Table, d: Dial, ok: bool): Effect {
    var fewer := t.(connects := if t.connects == 0 then 0 else t.connects - 1);
    if !ok then Effect(fewer, [Refused(d.peer)], [], Nothing)
    else
      var id := t.nextId;
      Effect(fewer.(channels := t.channels[id := NewChan(d.peer, d.window, d.max, false, false)], nextId := Inc32(id)),
             [Confirmation(d.peer, id)], [], Worker(id))
  }

  function OnOrder(t: Table, order: Order): (r: Effect)
    ensures r.Effect? && r.tell == []
  {
    match order
    case OpenTunnel => Opens(t, Direct)
    case OpenSession(endOnClose) => Opens(t, Session(endOnClose))
    case Connected(dial, ok) => OnConnected(t, dial, ok)
    case Of(id, cmd) =>
      if id !in t.channels then Quiet(t) else Settle(t, id, OnCmd(Held(t.channels[id]), cmd))
  }

  /** The cap, whatever the packet: an order of `Connected` only ever answers a connect in flight. */
  predicate Capped(t: Table) {
    |t.channels| + |t.pending| + t.connects <= MAX_CHANNELS
  }

  lemma Grown<V>(m: map<u32, V>, id: u32, v: V)
    ensures |m[id := v]| == if id in m then |m| else |m| + 1
  {
    var m' := m[id := v];
    assert m'.Keys == m.Keys + {id};
  }

  lemma Shrunk<V>(m: map<u32, V>, id: u32)
    requires id in m
    ensures |m - {id}| == |m| - 1
  {
    assert (m - {id}).Keys == m.Keys - {id};
  }

  lemma SettleCapped(t: Table, id: u32, turn: Turn)
    requires Capped(t) && id in t.channels && turn.Turn?
    ensures Capped(Settle(t, id, turn).table)
  {
    if turn.stage.Held? {
      Grown(t.channels, id, turn.stage.chan);
    } else {
      Shrunk(t.channels, id);
    }
  }

  lemma OpenCapped(t: Table, verdict: Verdict, sender: u32, window: u32, max: u32)
    requires Capped(t)
    ensures Capped(OnOpen(t, verdict, sender, window, max).table)
  {
    Grown(t.channels, t.nextId, NewChan(sender, window, max, true, false));
  }

  lemma ConfirmCapped(t: Table, id: u32, m: Msg)
    requires Capped(t) && m.Confirm? && id in t.pending
    ensures Capped(OnTo(t, id, m).table)
  {
    Shrunk(t.pending, id);
    Grown(t.channels, id, OnTo(t, id, m).table.channels[id]);
  }

  /** The cap holds after every packet a peer can send. */
  lemma PacketCapped(t: Table, p: Packet, verdict: Verdict)
    requires Capped(t) && OnPacket(t, p, verdict).Effect?
    ensures Capped(OnPacket(t, p, verdict).table)
  {
    hide OnMsg, OnOpen, Settle;
    match p
    case Open(sender, window, max) => OpenCapped(t, verdict, sender, window, max);
    case Refused(ours) => if ours in t.pending { Shrunk(t.pending, ours); }
    case Disconnect =>
    case To(id, _, m) =>
      if m.Confirm? { ConfirmCapped(t, id, m); }
      else if id in t.channels { SettleTurn(t, id, OnMsg(Held(t.channels[id]), m)); }
  }

  lemma SettleTurn(t: Table, id: u32, turn: Turn)
    requires Capped(t) && id in t.channels && Settle(t, id, turn).Effect?
    ensures Capped(Settle(t, id, turn).table)
  {
    SettleCapped(t, id, turn);
  }

  lemma OrderCapped(t: Table, order: Order)
    requires Capped(t) && (order.Connected? ==> t.connects > 0)
    ensures Capped(OnOrder(t, order).table)
  {
    hide OnCmd, Settle;
    match order
    case OpenTunnel => Grown(t.pending, t.nextId, Direct);
    case OpenSession(endOnClose) => Grown(t.pending, t.nextId, Session(endOnClose));
    case Connected(d, ok) => Grown(t.channels, t.nextId, NewChan(d.peer, d.window, d.max, false, false));
    case Of(id, cmd) => if id in t.channels { SettleCapped(t, id, OnCmd(Held(t.channels[id]), cmd)); }
  }
}
