/** One end of a connection, against any peer: the loop's tables, the channel tasks, the connects in
flight, and the logs of what was asked of the loop, what it sent and what it received.

Seen from a single channel id the end is a `Half` of Channel.dfy: every step of the end is one move of
one channel, a birth, or nothing at all. So what holds of a half against any peer holds of every
channel of every connection at once. */
module MuxEnd {
  import opened Bytes
  import opened Logs
  import opened Channel
  import opened Mux

  datatype End = End(
    table: Table, tasks: map<u32, Task>, dialing: seq<Dial>,
    log: seq<Order>, ran: nat, out: seq<Packet>, heard: seq<Packet>,
    // Ids given out so far; the counter itself is a 32-bit word.
    ids: nat)

  const START := End(EMPTY, map[], [], [], 0, [], [], 0)

  datatype Input =
    | Arrives(packet: Packet, verdict: Verdict)
    | RunsOrder
    | Resolves(k: nat, ok: bool)
    | Submits(order: Order)
    | TaskActs(id: u32, act: Act)

  // ------------------------------------------------------------ one channel of it

  function HeardBy(id: u32): Packet -> seq<Msg> { (p: Packet) => if p.To? && p.id == id then [p.msg] else [] }
  function SaidBy(id: u32): Packet -> seq<Msg> { (p: Packet) => if p.To? && p.from == id then [p.msg] else [] }
  function AskedBy(id: u32): Order -> seq<Cmd> { (o: Order) => if o.Of? && o.id == id then [o.cmd] else [] }

  function StageOf(e: End, id: u32): Stage {
    if id in e.table.channels then Held(e.table.channels[id])
    else if id in e.table.pending then PendingStage(e.table.pending[id])
    else if id in e.tasks then Gone
    else Absent
  }

  function TaskOf(e: End, id: u32): Task { if id in e.tasks then e.tasks[id] else NEW_TASK }

  ghost function HalfOf(e: End, id: u32): Half
    requires e.ran <= |e.log|
  {
    Half(StageOf(e, id), Gather(e.heard, HeardBy(id)), Gather(e.out, SaidBy(id)),
         Gather(e.log, AskedBy(id)), |Gather(e.log[..e.ran], AskedBy(id))|, TaskOf(e, id))
  }

  // ------------------------------------------------------------ steps

  function Told(tasks: map<u32, Task>, id: u32, tell: seq<Event>): map<u32, Task> {
    if tell == [] || id !in tasks then tasks else tasks[id := tasks[id].(told := tasks[id].told + tell)]
  }

  /** Carry out what a handler came to; `id` is the channel it concerned. */
  function Applied(e: End, id: u32, eff: Effect): End
    requires eff.Effect?
  {
    e.(table := eff.table, out := e.out + eff.sent,
       tasks := if eff.spawn.Worker? then e.tasks[eff.spawn.id := NEW_TASK] else Told(e.tasks, id, eff.tell),
       dialing := if eff.spawn.Dialer? then e.dialing + [eff.spawn.dial] else e.dialing,
       ids := if eff.table.nextId == e.table.nextId then e.ids else e.ids + 1)
  }

  function Orders(id: u32, cmds: seq<Cmd>): seq<Order> {
    if cmds == [] then [] else [Of(id, cmds[0])] + Orders(id, cmds[1..])
  }

  ghost predicate Enabled(e: End, i: Input) {
    && e.ran <= |e.log|
    && match i
       case Arrives(p, verdict) => !e.table.done && OnPacket(e.table, p, verdict).Effect?
       case RunsOrder => !e.table.done && e.ran < |e.log|
       case Resolves(k, _) => k < |e.dialing|
       case Submits(order) => order.OpenTunnel? || order.OpenSession?
       case TaskActs(id, act) => id in e.tasks && CanAct(HalfOf(e, id), act)
  }

  function ChannelOf(p: Packet): u32 { if p.To? then p.id else 0 }

  function ActedTable(t: Table, id: u32, act: Act): Table {
    if act.Spend? && id in t.channels && t.channels[id].credit >= |act.chunk.bytes|
    then t.(channels := t.channels[id := t.channels[id].(credit := t.channels[id].credit - |act.chunk.bytes|)])
    else t
  }

  function ActedTask(t: Task, act: Act): Task
    requires act.Take? ==> t.taken < |t.told|
  {
    match act
    case Take(report) => t.(taken := t.taken + 1, discarded := t.discarded + if report then 0 else EventBytes(t.told[t.taken]))
    case Finish => t.(finished := true)
    case _ => t
  }

  ghost function Step(e: End, i: Input): End
    requires Enabled(e, i)
  {
    match i
    case Arrives(p, verdict) => Applied(e.(heard := e.heard + [p]), ChannelOf(p), OnPacket(e.table, p, verdict))
    case RunsOrder => Applied(e.(ran := e.ran + 1), 0, OnOrder(e.table, e.log[e.ran]))
    case Resolves(k, ok) =>
      e.(dialing := e.dialing[..k] + e.dialing[k + 1..], log := e.log + [Connected(e.dialing[k], ok)])
    case Submits(order) => e.(log := e.log + [order])
    case TaskActs(id, act) =>
      e.(table := ActedTable(e.table, id, act), tasks := e.tasks[id := ActedTask(e.tasks[id], act)],
         log := e.log + Orders(id, Issues(e.tasks[id], act)))
  }

  // ------------------------------------------------------------ the invariant

  ghost predicate TablesOk(e: End) {
    && e.ran <= |e.log|
    && (forall id <- e.table.channels :: id in e.tasks)
    && (forall id <- e.table.pending :: id !in e.tasks && id < e.ids)
    && (forall id <- e.tasks :: id < e.ids)
    && e.ids <= U32 && e.table.nextId == e.ids % 0x1_0000_0000
  }

  function Answers(o: Order): nat { if o.Connected? then 1 else 0 }

  /** The connects counted are those in flight and those answered in the queue. */
  ghost predicate DialsOk(e: End)
    requires e.ran <= |e.log|
  {
    e.table.connects + Total(e.log[..e.ran], Answers) == |e.dialing| + Total(e.log, Answers)
  }

  ghost predicate HalvesOk(e: End)
    requires e.ran <= |e.log|
  {
    forall id: u32 :: LocalOk(HalfOf(e, id))
  }

  ghost predicate EndOk(e: End) {
    TablesOk(e) && Capped(e.table) && DialsOk(e) && HalvesOk(e)
  }

  // ------------------------------------------------------------ what a step is to each channel

  /** What one step is, channel by channel: nothing; a move of one channel; an id taken into use; or a
  pending open given up. */
  datatype Change = Still | Moves(id: u32, move: Move) | Births(id: u32, half: Half) | Drops(id: u32)

  ghost predicate Changed(e: End, e': End, c: Change)
    requires e.ran <= |e.log| && e'.ran <= |e'.log|
  {
    && (forall k: u32 :: (c.Still? || k != c.id) ==> HalfOf(e', k) == HalfOf(e, k))
    && match c
       case Still => true
       case Moves(id, move) => Can(HalfOf(e, id), move) && HalfOf(e', id) == Moved(HalfOf(e, id), move)
       case Births(id, half) =>
         HalfOf(e, id).stage.Absent? && HalfOf(e', id) == half.(heard := HalfOf(e, id).heard)
       case Drops(id) => HalfOf(e, id).stage.Opening? && HalfOf(e', id) == HalfOf(e, id).(stage := Absent)
  }

  ghost function PacketChange(e: End, p: Packet, verdict: Verdict): Change {
    match p
    case Open(sender, window, max) =>
      if Full(e.table) || !verdict.Serve? then Still
      else Births(e.table.nextId, Accepted(e.table.nextId, sender, window, max, true))
    case Refused(ours) => if ours in e.table.pending then Drops(ours) else Still
    case To(id, _, m) => Moves(id, Hear(m))
    case Disconnect => Still
  }

  ghost function OrderChange(e: End, order: Order): Change {
    match order
    case OpenTunnel => if Full(e.table) then Still else Births(e.table.nextId, Opened(false, false))
    case OpenSession(endOnClose) => if Full(e.table) then Still else Births(e.table.nextId, Opened(true, endOnClose))
    case Connected(d, ok) => if ok then Births(e.table.nextId, Accepted(e.table.nextId, d.peer, d.window, d.max, false)) else Still
    case Of(id, _) => Moves(id, Run)
  }

  ghost function ChangeOf(e: End, i: Input): Change
    requires Enabled(e, i)
  {
    match i
    case Arrives(p, verdict) => PacketChange(e, p, verdict)
    case RunsOrder => OrderChange(e, e.log[e.ran])
    case Resolves(_, _) => Still
    case Submits(_) => Still
    case TaskActs(id, act) => Moves(id, Move.Act(act))
  }

  lemma OrdersGather(id: u32, cmds: seq<Cmd>, k: u32)
    requires |cmds| <= 1
    ensures Gather(Orders(id, cmds), AskedBy(k)) == if k == id then cmds else []
  {
    hide Gather;
    GatherOne(Of(id, if cmds == [] then Cmd.Eof else cmds[0]), AskedBy(k));
    if cmds != [] {
      assert cmds[1..] == [];
      assert Orders(id, cmds) == [Of(id, cmds[0])];
    }
  }

  /** Orders added for one channel are commands issued there and nowhere else. */
  lemma LogGrows(log: seq<Order>, ran: nat, id: u32, cmds: seq<Cmd>, k: u32)
    requires ran <= |log| && |cmds| <= 1
    ensures var log' := log + Orders(id, cmds);
      && Gather(log', AskedBy(k)) == Gather(log, AskedBy(k)) + (if k == id then cmds else [])
      && log'[..ran] == log[..ran]
  {
    GatherJoin(log, Orders(id, cmds), AskedBy(k));
    OrdersGather(id, cmds, k);
  }

  lemma ActsHere(e: End, id: u32, act: Act)
    requires Enabled(e, TaskActs(id, act))
    ensures HalfOf(Step(e, TaskActs(id, act)), id) == Acted(HalfOf(e, id), act)
  {
    hide Issues, Gather;
    LogGrows(e.log, e.ran, id, Issues(e.tasks[id], act), id);
  }

  lemma ActsElsewhere(e: End, id: u32, act: Act, k: u32)
    requires Enabled(e, TaskActs(id, act)) && k != id
    ensures HalfOf(Step(e, TaskActs(id, act)), k) == HalfOf(e, k)
  {
    hide Issues, Gather;
    LogGrows(e.log, e.ran, id, Issues(e.tasks[id], act), k);
    assert Gather(e.log, AskedBy(k)) + [] == Gather(e.log, AskedBy(k));
  }

  lemma ActChanges(e: End, id: u32, act: Act)
    requires EndOk(e) && Enabled(e, TaskActs(id, act))
    ensures Changed(e, Step(e, TaskActs(id, act)), Moves(id, Move.Act(act)))
  {
    hide LocalOk, HalfOf, EndOk, CanAct, Acted, Issues;
    ActsHere(e, id, act);
    forall k: u32 | k != id ensures HalfOf(Step(e, TaskActs(id, act)), k) == HalfOf(e, k) {
      ActsElsewhere(e, id, act, k);
    }
  }

  /** The loop's next order is the next command of the channel it is for. */
  lemma RanOn(log: seq<Order>, ran: nat, k: u32)
    requires ran < |log|
    ensures var was, asked := |Gather(log[..ran], AskedBy(k))|, Gather(log, AskedBy(k));
      && was <= |asked|
      && (if log[ran].Of? && log[ran].id == k
          then was < |asked| && asked[was] == log[ran].cmd && |Gather(log[..ran + 1], AskedBy(k))| == was + 1
          else |Gather(log[..ran + 1], AskedBy(k))| == was)
  {
    Advance(log, ran);
    GatherPush(log[..ran], log[ran], AskedBy(k));
    GatherPrefix(log[..ran + 1], log, AskedBy(k));
  }

  lemma SaidGather(peer: u32, id: u32, sent: seq<Msg>, k: u32)
    requires |sent| <= 1
    ensures Gather(Addressed(peer, id, sent), SaidBy(k)) == if k == id then sent else []
    ensures Gather(Addressed(peer, id, sent) + [Packet.Disconnect], SaidBy(k)) == if k == id then sent else []
  {
    hide Gather;
    GatherPush(Addressed(peer, id, sent), Packet.Disconnect, SaidBy(k));
    GatherOne(To(peer, id, if sent == [] then Msg.Eof else sent[0]), SaidBy(k));
    if sent != [] {
      assert sent[1..] == [];
      assert Addressed(peer, id, sent) == [To(peer, id, sent[0])];
    }
  }

  /** A turn written back, channel by channel. */
  lemma Settled(e: End, id: u32, at: u32, turn: Turn, k: u32)
    requires id in e.table.channels && id in e.tasks && id !in e.table.pending
    requires turn.Turn? && |turn.sent| <= 1 && (turn.stage.Held? || turn.stage.Gone?) && (turn.tell == [] || at == id)
    ensures var e' := Applied(e, at, Settle(e.table, id, turn));
      && e'.log == e.log && e'.ran == e.ran && e'.heard == e.heard && e'.ids == e.ids
      && StageOf(e', k) == (if k == id then turn.stage else StageOf(e, k))
      && TaskOf(e', k) == (if k == id then TaskOf(e, k).(told := TaskOf(e, k).told + turn.tell) else TaskOf(e, k))
      && Gather(e'.out, SaidBy(k)) == Gather(e.out, SaidBy(k)) + (if k == id then turn.sent else [])
  {
    hide Gather;
    var peer := e.table.channels[id].peer;
    SaidGather(peer, id, turn.sent, k);
    GatherJoin(e.out, Addressed(peer, id, turn.sent), SaidBy(k));
    GatherJoin(e.out, Addressed(peer, id, turn.sent) + [Packet.Disconnect], SaidBy(k));
    assert TaskOf(e, k).told + [] == TaskOf(e, k).told;
  }

  lemma RunsHere(e: End, id: u32, cmd: Cmd, k: u32)
    requires TablesOk(e) && Enabled(e, RunsOrder) && e.log[e.ran] == Of(id, cmd) && id in e.table.channels
    ensures Can(HalfOf(e, id), Run)
    ensures HalfOf(Step(e, RunsOrder), k) == if k == id then Moved(HalfOf(e, id), Run) else HalfOf(e, k)
  {
    hide Gather;
    RanOn(e.log, e.ran, id);
    RanOn(e.log, e.ran, k);
    Settled(e.(ran := e.ran + 1), id, 0, OnCmd(Held(e.table.channels[id]), cmd), k);
    assert Gather(e.out, SaidBy(k)) + [] == Gather(e.out, SaidBy(k));
  }

  /** A command for a channel that is gone is dropped. */
  lemma RunsNowhere(e: End, id: u32, cmd: Cmd, k: u32)
    requires TablesOk(e) && Enabled(e, RunsOrder) && e.log[e.ran] == Of(id, cmd) && id !in e.table.channels
    requires LocalOk(HalfOf(e, id))
    ensures Can(HalfOf(e, id), Run)
    ensures HalfOf(Step(e, RunsOrder), k) == if k == id then Moved(HalfOf(e, id), Run) else HalfOf(e, k)
  {
    hide Gather, Windows, Streams, Flags, Orderly, DataFirst, WellSpoken;
    RanOn(e.log, e.ran, id);
    RanOn(e.log, e.ran, k);
    assert e.out + [] == e.out;
    assert TaskOf(e, id).told + [] == TaskOf(e, id).told;
    assert HalfOf(e, id).out + [] == HalfOf(e, id).out;
  }

  lemma RunChanges(e: End, id: u32, cmd: Cmd)
    requires TablesOk(e) && HalvesOk(e) && Enabled(e, RunsOrder) && e.log[e.ran] == Of(id, cmd)
    ensures Changed(e, Step(e, RunsOrder), Moves(id, Run))
  {
    hide HalfOf, LocalOk, Moved, Can;
    forall k: u32
      ensures Can(HalfOf(e, id), Run)
      ensures HalfOf(Step(e, RunsOrder), k) == if k == id then Moved(HalfOf(e, id), Run) else HalfOf(e, k)
    {
      if id in e.table.channels { RunsHere(e, id, cmd, k); } else { RunsNowhere(e, id, cmd, k); }
    }
    assert HalfOf(Step(e, RunsOrder), id) == Moved(HalfOf(e, id), Run);
  }

  /** The id the loop takes next has never been used. */
  lemma NextUnused(e: End)
    requires TablesOk(e) && HalvesOk(e) && e.ids < U32
    ensures e.table.nextId == e.ids && StageOf(e, e.table.nextId).Absent? && Untouched(HalfOf(e, e.table.nextId))
  {
    hide Gather;
    assert LocalOk(HalfOf(e, e.table.nextId));
  }

  /** An open sent, or a channel accepted, is a birth. */
  lemma BornPending(e: End, p: Pending, k: u32)
    requires TablesOk(e) && HalvesOk(e) && e.ids < U32 && !Full(e.table) && Enabled(e, RunsOrder)
    requires e.log[e.ran] == if p.Direct? then OpenTunnel else OpenSession(p.endOnClose)
    ensures var id, h := e.table.nextId, HalfOf(Step(e, RunsOrder), k);
      h == if k == id then Opened(PendingStage(p).session, PendingStage(p).endOnClose).(heard := HalfOf(e, id).heard) else HalfOf(e, k)
  {
    hide Gather, HalvesOk;
    NextUnused(e);
    RanOn(e.log, e.ran, k);
    SentElse(e.out, Packet.Open(e.table.nextId, LOCAL_WINDOW, MAX_CHUNK), k);
  }

  /** A packet that is not from one of this end's channels. */
  lemma SentElse(out: seq<Packet>, p: Packet, k: u32)
    requires !p.To?
    ensures Gather(out + [p], SaidBy(k)) == Gather(out, SaidBy(k))
  {
    GatherPush(out, p, SaidBy(k));
  }

  lemma SentFrom(out: seq<Packet>, peer: u32, id: u32, k: u32)
    ensures Gather(out + [Confirmation(peer, id)], SaidBy(k))
      == Gather(out, SaidBy(k)) + if k == id then [Confirm(id, LOCAL_WINDOW, MAX_CHUNK)] else []
  {
    GatherPush(out, Confirmation(peer, id), SaidBy(k));
  }

  lemma BornAccepted(e: End, d: Dial, k: u32)
    requires TablesOk(e) && HalvesOk(e) && e.ids < U32 && Enabled(e, RunsOrder) && e.log[e.ran] == Connected(d, true)
    ensures var id, h := e.table.nextId, HalfOf(Step(e, RunsOrder), k);
      h == if k == id then Accepted(id, d.peer, d.window, d.max, false).(heard := HalfOf(e, id).heard) else HalfOf(e, k)
  {
    hide Gather, HalvesOk;
    NextUnused(e);
    RanOn(e.log, e.ran, k);
    SentFrom(e.out, d.peer, e.table.nextId, k);
    assert Gather(e.out, SaidBy(k)) + [] == Gather(e.out, SaidBy(k));
  }

  lemma BornServing(e: End, sender: u32, window: u32, max: u32, k: u32)
    requires TablesOk(e) && HalvesOk(e) && e.ids < U32 && !Full(e.table)
    requires Enabled(e, Arrives(Packet.Open(sender, window, max), Serve))
    ensures var id, h := e.table.nextId, HalfOf(Step(e, Arrives(Packet.Open(sender, window, max), Serve)), k);
      h == if k == id then Accepted(id, sender, window, max, true).(heard := HalfOf(e, id).heard) else HalfOf(e, k)
  {
    hide Gather, HalvesOk;
    NextUnused(e);
    HeardElse(e.heard, Packet.Open(sender, window, max), k);
    SentFrom(e.out, sender, e.table.nextId, k);
    assert Gather(e.out, SaidBy(k)) + [] == Gather(e.out, SaidBy(k));
  }

  lemma HeardElse(heard: seq<Packet>, p: Packet, k: u32)
    requires !p.To? || p.id != k
    ensures Gather(heard + [p], HeardBy(k)) == Gather(heard, HeardBy(k))
  {
    GatherPush(heard, p, HeardBy(k));
  }

  lemma HeardMine(heard: seq<Packet>, id: u32, from: u32, m: Msg)
    ensures Gather(heard + [To(id, from, m)], HeardBy(id)) == Gather(heard, HeardBy(id)) + [m]
  {
    GatherPush(heard, To(id, from, m), HeardBy(id));
  }

  lemma HearsConfirm(e: End, id: u32, from: u32, m: Msg, v: Verdict, k: u32)
    requires TablesOk(e) && LocalOk(HalfOf(e, id)) && Enabled(e, Arrives(To(id, from, m), v)) && m.Confirm?
    ensures Can(HalfOf(e, id), Hear(m))
    ensures HalfOf(Step(e, Arrives(To(id, from, m), v)), k) == if k == id then Moved(HalfOf(e, id), Hear(m)) else HalfOf(e, k)
  {
    hide Gather, Windows, Streams, Flags, Orderly, DataFirst, WellSpoken;
    HeardMine(e.heard, id, from, m);
    if k != id { HeardElse(e.heard, To(id, from, m), k); }
    assert e.out + [] == e.out;
    assert HalfOf(e, id).out + [] == HalfOf(e, id).out;
  }

  lemma HearsHere(e: End, id: u32, from: u32, m: Msg, v: Verdict, k: u32)
    requires TablesOk(e) && Enabled(e, Arrives(To(id, from, m), v)) && !m.Confirm? && id in e.table.channels
    ensures Can(HalfOf(e, id), Hear(m))
    ensures HalfOf(Step(e, Arrives(To(id, from, m), v)), k) == if k == id then Moved(HalfOf(e, id), Hear(m)) else HalfOf(e, k)
  {
    hide Gather, OnMsg;
    HeardMine(e.heard, id, from, m);
    if k != id { HeardElse(e.heard, To(id, from, m), k); }
    var turn := OnMsg(Held(e.table.channels[id]), m);
    OneTurn(e.table.channels[id], m);
    Settled(e.(heard := e.heard + [To(id, from, m)]), id, id, turn, k);
    assert Gather(e.out, SaidBy(k)) + [] == Gather(e.out, SaidBy(k));
  }

  lemma OneTurn(c: Chan, m: Msg)
    requires OnMsg(Held(c), m).Turn?
    ensures var t := OnMsg(Held(c), m); |t.sent| <= 1 && (t.stage.Held? || t.stage.Gone?)
  {
  }

  lemma HearsNowhere(e: End, id: u32, from: u32, m: Msg, v: Verdict, k: u32)
    requires TablesOk(e) && Enabled(e, Arrives(To(id, from, m), v)) && !m.Confirm? && id !in e.table.channels
    ensures Can(HalfOf(e, id), Hear(m))
    ensures HalfOf(Step(e, Arrives(To(id, from, m), v)), k) == if k == id then Moved(HalfOf(e, id), Hear(m)) else HalfOf(e, k)
  {
    hide Gather;
    HeardMine(e.heard, id, from, m);
    if k != id { HeardElse(e.heard, To(id, from, m), k); }
    assert e.out + [] == e.out;
    assert HalfOf(e, id).out + [] == HalfOf(e, id).out && TaskOf(e, id).told + [] == TaskOf(e, id).told;
  }

  lemma HearChanges(e: End, id: u32, from: u32, m: Msg, v: Verdict)
    requires TablesOk(e) && HalvesOk(e) && Enabled(e, Arrives(To(id, from, m), v))
    ensures Changed(e, Step(e, Arrives(To(id, from, m), v)), Moves(id, Hear(m)))
  {
    hide HalfOf, LocalOk, Moved, Can, OnTo;
    var e' := Step(e, Arrives(To(id, from, m), v));
    forall k: u32
      ensures Can(HalfOf(e, id), Hear(m))
      ensures HalfOf(e', k) == if k == id then Moved(HalfOf(e, id), Hear(m)) else HalfOf(e, k)
    {
      if m.Confirm? { HearsConfirm(e, id, from, m, v, k); }
      else if id in e.table.channels { HearsHere(e, id, from, m, v, k); }
      else { HearsNowhere(e, id, from, m, v, k); }
    }
    assert HalfOf(e', id) == Moved(HalfOf(e, id), Hear(m));
  }

  /** The steps that are nothing to any channel, and the end of a refused open. */
  lemma HearsElse(e: End, p: Packet, v: Verdict, k: u32)
    requires TablesOk(e) && Enabled(e, Arrives(p, v)) && !p.To? && !PacketChange(e, p, v).Births?
    ensures var h := HalfOf(e, k);
      HalfOf(Step(e, Arrives(p, v)), k) == if PacketChange(e, p, v) == Drops(k) then h.(stage := Absent) else h
  {
    hide Gather, OnTo, NewChan, Accepted, Full, Inc32;
    HeardElse(e.heard, p, k);
    assert e.out + [] == e.out;
    if p.Open? { SentElse(e.out, Refused(p.sender), k); }
  }

  lemma PacketChanges(e: End, p: Packet, v: Verdict)
    requires TablesOk(e) && HalvesOk(e) && Enabled(e, Arrives(p, v)) && (PacketChange(e, p, v).Births? ==> e.ids < U32)
    ensures Changed(e, Step(e, Arrives(p, v)), PacketChange(e, p, v))
  {
    hide LocalOk, Moved, Can, Gather, Applied;
    if p.To? {
      HearChanges(e, p.id, p.from, p.msg, v);
    } else if PacketChange(e, p, v).Births? {
      forall k: u32 { BornServing(e, p.sender, p.window, p.max, k); }
      BornServing(e, p.sender, p.window, p.max, e.table.nextId);
      NextUnused(e);
    } else {
      forall k: u32 { HearsElse(e, p, v, k); }
    }
  }

  /** An order that comes to nothing for any channel. */
  lemma RunsStill(e: End, k: u32)
    requires TablesOk(e) && Enabled(e, RunsOrder) && OrderChange(e, e.log[e.ran]).Still?
    ensures HalfOf(Step(e, RunsOrder), k) == HalfOf(e, k)
  {
    hide Gather;
    RanOn(e.log, e.ran, k);
    assert e.out + [] == e.out;
    var o := e.log[e.ran];
    if o.Connected? { SentElse(e.out, Refused(o.dial.peer), k); }
  }

  lemma OrderChanges(e: End)
    requires TablesOk(e) && HalvesOk(e) && Enabled(e, RunsOrder)
    requires OrderChange(e, e.log[e.ran]).Births? ==> e.ids < U32
    ensures Changed(e, Step(e, RunsOrder), OrderChange(e, e.log[e.ran]))
  {
    hide LocalOk, Moved, Can, Gather, Applied;
    var o := e.log[e.ran];
    if o.Of? {
      RunChanges(e, o.id, o.cmd);
    } else if OrderChange(e, o).Still? {
      forall k: u32 { RunsStill(e, k); }
    } else {
      NextUnused(e);
      forall k: u32 { Born(e, k); }
      Born(e, e.table.nextId);
    }
  }

  lemma Born(e: End, k: u32)
    requires TablesOk(e) && HalvesOk(e) && Enabled(e, RunsOrder) && e.ids < U32
    requires OrderChange(e, e.log[e.ran]).Births?
    ensures var c := OrderChange(e, e.log[e.ran]);
      HalfOf(Step(e, RunsOrder), k) == if k == c.id then c.half.(heard := HalfOf(e, k).heard) else HalfOf(e, k)
  {
    hide HalfOf, HalvesOk, TablesOk, Applied;
    match e.log[e.ran]
    case OpenTunnel => BornPending(e, Direct, k);
    case OpenSession(endOnClose) => BornPending(e, Session(endOnClose), k);
    case Connected(d, _) => BornAccepted(e, d, k);
  }

  lemma QueuesStill(e: End, o: Order, k: u32)
    requires e.ran <= |e.log| && !o.Of?
    ensures Gather(e.log + [o], AskedBy(k)) == Gather(e.log, AskedBy(k)) && (e.log + [o])[..e.ran] == e.log[..e.ran]
  {
    GatherPush(e.log, o, AskedBy(k));
  }

  /** Ids left for whatever this step takes into use. */
  ghost predicate Room(e: End, i: Input)
    requires Enabled(e, i)
  {
    ChangeOf(e, i).Births? ==> e.ids < U32
  }

  lemma StepRan(e: End, i: Input)
    requires Enabled(e, i)
    ensures Step(e, i).ran <= |Step(e, i).log|
  {
    hide OnPacket, OnOrder, CanAct;
  }

  lemma StepChanges(e: End, i: Input)
    requires EndOk(e) && Enabled(e, i) && Room(e, i)
    ensures Step(e, i).ran <= |Step(e, i).log| && Changed(e, Step(e, i), ChangeOf(e, i))
  {
    hide LocalOk, Gather, PacketChange, OrderChange, Applied, CanAct, OnPacket, OnOrder;
    StepRan(e, i);
    match i
    case Arrives(p, v) => PacketChanges(e, p, v);
    case RunsOrder => OrderChanges(e);
    case Resolves(j, ok) => forall k: u32 { QueuesStill(e, Connected(e.dialing[j], ok), k); }
    case Submits(order) => forall k: u32 { QueuesStill(e, order, k); }
    case TaskActs(id, act) => ActChanges(e, id, act);
  }

  // ------------------------------------------------------------ every step keeps the invariant

  lemma BirthsOk(e: End, i: Input)
    requires Enabled(e, i) && ChangeOf(e, i).Births?
    ensures LocalOk(ChangeOf(e, i).half)
  {
    hide LocalOk, OnPacket, OnOrder, CanAct;
    if i.Arrives? {
      AcceptedOk(e.table.nextId, i.packet.sender, i.packet.window, i.packet.max, true);
    } else {
      var o := e.log[e.ran];
      match o
      case Connected(d, _) => AcceptedOk(e.table.nextId, d.peer, d.window, d.max, false);
      case OpenTunnel => OpenedOk(false, false);
      case OpenSession(endOnClose) => OpenedOk(true, endOnClose);
    }
  }

  lemma OpenedOk(session: bool, endOnClose: bool)
    ensures LocalOk(Opened(session, endOnClose))
  {
  }

  lemma ChangedKeeps(e: End, e': End, c: Change)
    requires e.ran <= |e.log| && e'.ran <= |e'.log| && HalvesOk(e) && Changed(e, e', c) && !c.Still?
    requires c.Births? ==> LocalOk(c.half)
    ensures LocalOk(HalfOf(e', c.id))
  {
    hide Moved, Can, HalfOf;
    match c
    case Moves(id, move) => MoveKeeps(HalfOf(e, id), move);
    case Births(id, half) =>
    case Drops(id) => assert LocalOk(HalfOf(e, id));
  }

  lemma HalvesKept(e: End, i: Input)
    requires EndOk(e) && Enabled(e, i) && Room(e, i)
    ensures Step(e, i).ran <= |Step(e, i).log| && HalvesOk(Step(e, i))
  {
    hide LocalOk, HalfOf, Step, Enabled, ChangeOf, Moved, Can;
    StepChanges(e, i);
    var e', c := Step(e, i), ChangeOf(e, i);
    if c.Births? { BirthsOk(e, i); }
    forall k: u32 ensures LocalOk(HalfOf(e', k)) {
      if !c.Still? && k == c.id { ChangedKeeps(e, e', c); }
    }
  }

  /** What a handler does to the tables' keys, the counter and the connects. */
  ghost predicate Tidy(t: Table, eff: Effect) {
    && eff.Effect?
    && (forall id <- eff.table.channels :: id in t.channels || eff.spawn == Worker(id))
    && (forall id <- eff.table.pending :: id in t.pending || (id == t.nextId && eff.table.nextId != t.nextId))
    && (eff.table.nextId == t.nextId || eff.table.nextId == Inc32(t.nextId))
    && (eff.spawn.Worker? ==>
        if eff.table.nextId == t.nextId
        then eff.spawn.id in t.pending && eff.spawn.id !in eff.table.pending
        else eff.spawn.id == t.nextId && eff.table.pending == t.pending)
  }

  lemma PacketTidy(t: Table, p: Packet, v: Verdict)
    requires OnPacket(t, p, v).Effect?
    ensures Tidy(t, OnPacket(t, p, v))
  {
    hide OnMsg;
    if p.To? && !p.msg.Confirm? && p.id in t.channels { SettleTidy(t, p.id, OnMsg(Held(t.channels[p.id]), p.msg)); }
  }

  lemma OrderTidy(t: Table, o: Order)
    ensures Tidy(t, OnOrder(t, o))
  {
    hide OnCmd;
    if o.Of? && o.id in t.channels { SettleTidy(t, o.id, OnCmd(Held(t.channels[o.id]), o.cmd)); }
  }

  lemma SettleTidy(t: Table, id: u32, turn: Turn)
    requires id in t.channels && Settle(t, id, turn).Effect?
    ensures Tidy(t, Settle(t, id, turn))
  {
    hide Addressed;
  }

  lemma TidyApplied(e: End, id: u32, eff: Effect)
    requires TablesOk(e) && Tidy(e.table, eff) && (eff.table.nextId != e.table.nextId ==> e.ids < U32)
    ensures TablesOk(Applied(e, id, eff))
  {
  }

  lemma ActTables(e: End, id: u32, act: Act)
    requires TablesOk(e) && Enabled(e, TaskActs(id, act))
    ensures TablesOk(Step(e, TaskActs(id, act)))
  {
    hide Issues, HalfOf, ActedTask;
  }

  lemma NextMoves(n: u32)
    ensures Inc32(n) != n
  {
  }

  /** An id is taken into use only by a birth. */
  lemma PacketTakes(e: End, p: Packet, v: Verdict)
    requires OnPacket(e.table, p, v).Effect?
    ensures PacketChange(e, p, v).Births? <==> OnPacket(e.table, p, v).table.nextId != e.table.nextId
  {
    hide OnMsg, Inc32;
    NextMoves(e.table.nextId);
  }

  lemma OrderTakes(e: End, o: Order)
    ensures OrderChange(e, o).Births? <==> OnOrder(e.table, o).table.nextId != e.table.nextId
  {
    hide OnCmd, Inc32;
    NextMoves(e.table.nextId);
  }

  lemma TablesKept(e: End, i: Input)
    requires EndOk(e) && Enabled(e, i) && Room(e, i)
    ensures TablesOk(Step(e, i))
  {
    hide HalvesOk, DialsOk, Capped, OnPacket, OnOrder, Applied, PacketChange, OrderChange, CanAct, HalfOf, Tidy;
    match i
    case Arrives(p, v) =>
      PacketTidy(e.table, p, v);
      PacketTakes(e, p, v);
      TidyApplied(e.(heard := e.heard + [p]), ChannelOf(p), OnPacket(e.table, p, v));
    case RunsOrder =>
      OrderTidy(e.table, e.log[e.ran]);
      OrderTakes(e, e.log[e.ran]);
      TidyApplied(e.(ran := e.ran + 1), 0, OnOrder(e.table, e.log[e.ran]));
    case TaskActs(id, act) => ActTables(e, id, act);
    case Resolves(_, _) =>
    case Submits(_) =>
  }

  /** Connects come and go with the dialers spawned and the answers run. */
  lemma PacketDials(t: Table, p: Packet, v: Verdict)
    requires OnPacket(t, p, v).Effect?
    ensures var eff := OnPacket(t, p, v); eff.table.connects == t.connects + if eff.spawn.Dialer? then 1 else 0
  {
    hide OnMsg;
  }

  lemma OrderDials(t: Table, o: Order)
    requires o.Connected? ==> t.connects > 0
    ensures var eff := OnOrder(t, o); eff.table.connects + Answers(o) == t.connects && !eff.spawn.Dialer?
  {
    hide OnCmd;
  }

  /** The saturating subtraction never saturates: an answer in the queue is a connect still counted. */
  lemma AnswerCounted(e: End)
    requires e.ran < |e.log| && DialsOk(e) && e.log[e.ran].Connected?
    ensures e.table.connects > 0
  {
    Advance(e.log, e.ran);
    TotalPush(e.log[..e.ran], e.log[e.ran], Answers);
    TotalPrefix(e.log[..e.ran + 1], e.log, Answers);
  }

  lemma DialsKept(e: End, i: Input)
    requires e.ran <= |e.log| && DialsOk(e) && Enabled(e, i)
    ensures Step(e, i).ran <= |Step(e, i).log| && DialsOk(Step(e, i))
  {
    hide OnPacket, OnOrder, CanAct, HalfOf, Total, Issues;
    StepRan(e, i);
    match i
    case Arrives(p, v) => PacketDials(e.table, p, v);
    case RunsOrder =>
      if e.log[e.ran].Connected? { AnswerCounted(e); }
      OrderDials(e.table, e.log[e.ran]);
      Advance(e.log, e.ran);
      TotalPush(e.log[..e.ran], e.log[e.ran], Answers);
    case TaskActs(id, act) => ActDials(e, id, act);
    case Resolves(k, ok) =>
      TotalPush(e.log, Connected(e.dialing[k], ok), Answers);
      assert (e.log + [Connected(e.dialing[k], ok)])[..e.ran] == e.log[..e.ran];
    case Submits(order) =>
      TotalPush(e.log, order, Answers);
      assert (e.log + [order])[..e.ran] == e.log[..e.ran];
  }

  lemma ActDials(e: End, id: u32, act: Act)
    requires e.ran <= |e.log| && DialsOk(e) && Enabled(e, TaskActs(id, act))
    ensures DialsOk(Step(e, TaskActs(id, act)))
  {
    hide Gather, Total, Issues;
    var cmds := Issues(e.tasks[id], act);
    TotalJoin(e.log, Orders(id, cmds), Answers);
    OrdersAnswer(id, cmds);
    assert (e.log + Orders(id, cmds))[..e.ran] == e.log[..e.ran];
  }

  lemma OrdersAnswer(id: u32, cmds: seq<Cmd>)
    requires |cmds| <= 1
    ensures Total(Orders(id, cmds), Answers) == 0
  {
    if cmds != [] {
      assert cmds[1..] == [] && Orders(id, cmds) == [Of(id, cmds[0])];
    }
  }

  lemma CapKept(e: End, i: Input)
    requires EndOk(e) && Enabled(e, i)
    ensures Capped(Step(e, i).table)
  {
    hide HalvesOk, OnPacket, OnOrder, CanAct, HalfOf, DialsOk;
    match i
    case Arrives(p, v) => PacketCapped(e.table, p, v);
    case RunsOrder =>
      if e.log[e.ran].Connected? { AnswerCounted(e); }
      OrderCapped(e.table, e.log[e.ran]);
    case TaskActs(id, act) => if id in e.table.channels { ActCapped(e.table, id, act); }
    case Resolves(_, _) =>
    case Submits(_) =>
  }

  lemma ActCapped(t: Table, id: u32, act: Act)
    requires Capped(t) && id in t.channels
    ensures Capped(ActedTable(t, id, act))
  {
    if act.Spend? && t.channels[id].credit >= |act.chunk.bytes| {
      Grown(t.channels, id, t.channels[id].(credit := t.channels[id].credit - |act.chunk.bytes|));
    }
  }

  /** Every step of an end, against any peer, keeps its invariant. */
  lemma EndKeeps(e: End, i: Input)
    requires EndOk(e) && Enabled(e, i) && Room(e, i)
    ensures EndOk(Step(e, i))
  {
    hide TablesOk, Capped, DialsOk, HalvesOk, Step, Enabled, Room;
    TablesKept(e, i);
    HalvesKept(e, i);
    CapKept(e, i);
    TablesRan(e);
    DialsKept(e, i);
  }

  lemma TablesRan(e: End)
    requires TablesOk(e)
    ensures e.ran <= |e.log|
  {
  }

  // ------------------------------------------------------------ every run

  ghost predicate IsRun(states: seq<End>, inputs: seq<Input>) {
    && |states| == |inputs| + 1 && states[0] == START
    && forall k :: 0 <= k < |inputs| ==> Enabled(states[k], inputs[k]) && states[k + 1] == Step(states[k], inputs[k])
  }

  lemma StartOk()
    ensures EndOk(START)
  {
    forall id: u32 ensures LocalOk(HalfOf(START, id)) {
      assert Untouched(HalfOf(START, id));
    }
  }

  lemma IdsGrow(e: End, i: Input)
    requires Enabled(e, i)
    ensures Step(e, i).ids == e.ids + if ChangeOf(e, i).Births? then 1 else 0
  {
    hide OnPacket, OnOrder, PacketChange, OrderChange, CanAct, HalfOf, Issues;
    match i
    case Arrives(p, v) => PacketTakes(e, p, v);
    case RunsOrder => OrderTakes(e, e.log[e.ran]);
    case _ =>
  }

  lemma {:induction false} IdsGrowOn(states: seq<End>, inputs: seq<Input>, k: nat)
    requires IsRun(states, inputs) && k <= |inputs|
    ensures states[k].ids <= states[|inputs|].ids
    decreases |inputs| - k
  {
    hide Enabled, Step, ChangeOf;
    if k < |inputs| {
      IdsGrow(states[k], inputs[k]);
      IdsGrowOn(states, inputs, k + 1);
    }
  }

  /** On every run against any peer, while no more than 2^32 ids are given out, the invariant holds. */
  lemma {:induction false} EveryRun(states: seq<End>, inputs: seq<Input>, k: nat)
    requires IsRun(states, inputs) && states[|inputs|].ids <= U32 && k <= |inputs|
    ensures EndOk(states[k])
  {
    hide Enabled, Step, ChangeOf, EndOk;
    if k == 0 {
      StartOk();
    } else {
      EveryRun(states, inputs, k - 1);
      IdsGrow(states[k - 1], inputs[k - 1]);
      IdsGrowOn(states, inputs, k);
      EndKeeps(states[k - 1], inputs[k - 1]);
    }
  }

  /** A terminal channel that was in the table and is no more. */
  ghost predicate EndsTerminal(t: Table, t': Table) {
    exists id <- t.channels :: t.channels[id].endOnClose && id !in t'.channels
  }

  predicate SaysGoodbye(sent: seq<Packet>) {
    sent != [] && sent[|sent| - 1] == Packet.Disconnect
  }

  lemma SettleEnds(t: Table, id: u32, turn: Turn)
    requires id in t.channels && Settle(t, id, turn).Effect? && !t.done
    ensures var eff := Settle(t, id, turn);
      (eff.table.done <==> EndsTerminal(t, eff.table)) && (EndsTerminal(t, eff.table) ==> SaysGoodbye(eff.sent))
  {
    hide Addressed;
    var eff := Settle(t, id, turn);
    assert forall k <- t.channels :: k != id ==> k in eff.table.channels;
  }

  lemma PacketEnds(t: Table, p: Packet, v: Verdict)
    requires OnPacket(t, p, v).Effect? && !t.done
    ensures var eff := OnPacket(t, p, v);
      && (eff.table.done <==>
            p.Disconnect? || (p.Refused? && p.ours in t.pending && t.pending[p.ours] == Session(true)) || EndsTerminal(t, eff.table))
      && (EndsTerminal(t, eff.table) ==> SaysGoodbye(eff.sent))
  {
    hide OnMsg, Settle, Inc32, NewChan;
    if p.To? && !p.msg.Confirm? && p.id in t.channels { SettleEnds(t, p.id, OnMsg(Held(t.channels[p.id]), p.msg)); }
  }

  lemma OrderEnds(t: Table, o: Order)
    requires !t.done
    ensures var eff := OnOrder(t, o);
      (eff.table.done <==> EndsTerminal(t, eff.table)) && (EndsTerminal(t, eff.table) ==> SaysGoodbye(eff.sent))
  {
    hide OnCmd, Settle, Inc32, NewChan;
    if o.Of? && o.id in t.channels {
      assert OnOrder(t, o).Effect?;
      SettleEnds(t, o.id, OnCmd(Held(t.channels[o.id]), o.cmd));
    }
  }

  /** A connection ends exactly when its peer disconnects, when the peer refuses the session it was made
  for, or when that session's channel is closed on both sides, and then it says so. */
  lemma EndsExactlyWhen(e: End, i: Input)
    requires Enabled(e, i) && !e.table.done
    ensures var e' := Step(e, i);
      && (e'.table.done <==>
            || (i.Arrives? && i.packet.Disconnect?)
            || (i.Arrives? && i.packet.Refused? && i.packet.ours in e.table.pending && e.table.pending[i.packet.ours] == Session(true))
            || EndsTerminal(e.table, e'.table))
      && (EndsTerminal(e.table, e'.table) ==> SaysGoodbye(e'.out))
  {
    hide OnPacket, OnOrder, HalfOf, CanAct, Issues;
    match i
    case Arrives(p, v) => PacketEnds(e.table, p, v);
    case RunsOrder => OrderEnds(e.table, e.log[e.ran]);
    case _ =>
  }

  lemma AnswersJoin(log: seq<Order>, ran: nat)
    requires ran <= |log|
    ensures Total(log, Answers) == Total(log[..ran], Answers) + Total(log[ran..], Answers)
  {
    assert log == log[..ran] + log[ran..];
    TotalJoin(log[..ran], log[ran..], Answers);
  }

  /** The cap: channels, pending opens and connects in flight. The connects counted are exactly those
  still dialing or answered in the queue, and the next id never belongs to a live or pending channel. */
  lemma CapHolds(states: seq<End>, inputs: seq<Input>, k: nat)
    requires IsRun(states, inputs) && states[|inputs|].ids <= U32 && k <= |inputs|
    ensures var e := states[k];
      && |e.table.channels| + |e.table.pending| + e.table.connects <= MAX_CHANNELS
      && e.ran <= |e.log| && e.table.connects == |e.dialing| + Total(e.log[e.ran..], Answers)
      && (e.ids < U32 ==> e.table.nextId !in e.table.channels && e.table.nextId !in e.table.pending)
  {
    EveryRun(states, inputs, k);
    hide HalvesOk;
    AnswersJoin(states[k].log, states[k].ran);
  }

  /** Of every channel a run ever has in its table, against any peer: the window is conserved, its task's
  backlog stays within it, and what it said keeps the order of an end of file and a close. */
  lemma ChannelsHold(states: seq<End>, inputs: seq<Input>, k: nat, id: u32)
    requires IsRun(states, inputs) && states[|inputs|].ids <= U32 && k <= |inputs|
    ensures states[k].ran <= |states[k].log|
    ensures var e := states[k]; var h := HalfOf(e, id);
      && WellSpoken(h.out)
      && (id in e.tasks ==> e.tasks[id].taken <= |e.tasks[id].told|
                            && Handed(e.tasks[id].told[e.tasks[id].taken..]) + e.tasks[id].discarded <= LOCAL_WINDOW)
      && (id in e.table.channels ==>
          var c, t := e.table.channels[id], h.task;
          && h.ran <= |h.issued| && t.taken <= |t.told|
          && c.localWindow + c.pendingConsumed + Reported(h.issued[h.ran..]) + Handed(t.told[t.taken..]) + t.discarded == LOCAL_WINDOW)
  {
    EveryRun(states, inputs, k);
    HalfHolds(states[k], id);
  }

  lemma HalfHolds(e: End, id: u32)
    requires EndOk(e)
    ensures var h := HalfOf(e, id);
      && WellSpoken(h.out)
      && (id in e.tasks ==> e.tasks[id].taken <= |e.tasks[id].told|
                            && Handed(e.tasks[id].told[e.tasks[id].taken..]) + e.tasks[id].discarded <= LOCAL_WINDOW)
      && (id in e.table.channels ==>
          var c, t := e.table.channels[id], h.task;
          && h.ran <= |h.issued| && t.taken <= |t.told|
          && c.localWindow + c.pendingConsumed + Reported(h.issued[h.ran..]) + Handed(t.told[t.taken..]) + t.discarded == LOCAL_WINDOW)
  {
    hide Gather, Handed, Reported, Windows, Flags, Streams, Orderly;
    var h := HalfOf(e, id);
    assert LocalOk(h);
    if h.stage.Held? { WindowConserved(h); }
    else if h.stage.Gone? { BacklogBounded(h); }
  }

  /** An open is refused on arrival exactly when it is not to be had, or 256 are in use: held, asked for,
  or waiting for a local connect or for its answer to be run. */
  lemma RefusesExactlyWhen(states: seq<End>, inputs: seq<Input>, k: nat, p: Packet, v: Verdict)
    requires IsRun(states, inputs) && states[|inputs|].ids <= U32 && k < |inputs|
    requires inputs[k] == Arrives(p, v) && p.Open?
    ensures var e := states[k];
      && e.ran <= |e.log|
      && (states[k + 1].out == e.out + [Refused(p.sender)] <==>
            v.Refuse? || |e.table.channels| + |e.table.pending| + |e.dialing| + Total(e.log[e.ran..], Answers) == 256)
  {
    EveryRun(states, inputs, k);
    hide HalvesOk, Total, OnMsg;
    var e := states[k];
    AnswersJoin(e.log, e.ran);
    assert Enabled(e, inputs[k]) && states[k + 1] == Step(e, inputs[k]);
    assert |e.out + [Confirmation(p.sender, e.table.nextId)]| == |e.out| + 1;
    assert (e.out + [Confirmation(p.sender, e.table.nextId)])[|e.out|] == Confirmation(p.sender, e.table.nextId);
  }

  /** Against any peer, a channel that is no session never grants a request. */
  lemma ForwardsRefuse(states: seq<End>, inputs: seq<Input>, k: nat, id: u32)
    requires IsRun(states, inputs) && states[|inputs|].ids <= U32 && k <= |inputs|
    requires id in states[k].table.channels && !states[k].table.channels[id].session
    ensures Msg.Reply(true) !in Gather(states[k].out, SaidBy(id))
  {
    EveryRun(states, inputs, k);
    hide Gather, LocalOk;
    var h := HalfOf(states[k], id);
    assert LocalOk(h);
    OnlyRefuses(h);
  }

  // ------------------------------------------------------------ what kind of channel each is

  /** A channel stays the kind it is, with the peer it has. One that was pending is what it was opened as,
  and its peer's end is the one that confirmed it. One the peer opened is a session if it is served, and
  never one the connection was made for. */
  ghost predicate KindKept(t: Table, t': Table, id: u32, p: Option<Packet>)
    requires id in t'.channels
  {
    var c := t'.channels[id];
    if id in t.channels then c.session == t.channels[id].session && c.endOnClose == t.channels[id].endOnClose && c.peer == t.channels[id].peer
    else if id in t.pending then
      && (c.session <==> t.pending[id].Session?) && (c.endOnClose <==> t.pending[id] == Session(true))
      && p.Some? && p.value.To? && p.value.id == id && p.value.msg.Confirm? && p.value.msg.peer == c.peer
    else
      && id == t.nextId && !c.endOnClose && (c.session <==> p.Some?)
      && (p.Some? ==> p.value.Open? && p.value.sender == c.peer)
  }

  lemma TurnKind(c: Chan, m: Msg, k: Cmd)
    requires OnMsg(Held(c), m).Turn?
    ensures var a, b := OnMsg(Held(c), m).stage, OnCmd(Held(c), k).stage;
      && (a.Held? ==> a.chan.session == c.session && a.chan.endOnClose == c.endOnClose && a.chan.peer == c.peer)
      && (b.Held? ==> b.chan.session == c.session && b.chan.endOnClose == c.endOnClose && b.chan.peer == c.peer)
  {
  }

  lemma PacketKinds(t: Table, p: Packet, v: Verdict, id: u32)
    requires OnPacket(t, p, v).Effect? && id in OnPacket(t, p, v).table.channels && t.nextId !in t.channels && t.nextId !in t.pending
    requires forall k <- t.pending :: k !in t.channels
    ensures KindKept(t, OnPacket(t, p, v).table, id, Some(p))
  {
    hide OnTo, Inc32, Full, Largest, Min;
    if p.To? { ToKinds(t, p, id); }
  }

  lemma ToKinds(t: Table, p: Packet, id: u32)
    requires p.To? && OnTo(t, p.id, p.msg).Effect? && id in OnTo(t, p.id, p.msg).table.channels
    requires forall k <- t.pending :: k !in t.channels
    ensures KindKept(t, OnTo(t, p.id, p.msg).table, id, Some(p))
  {
    hide OnMsg, Addressed, Largest, Min;
    if !p.msg.Confirm? && p.id in t.channels { TurnKind(t.channels[p.id], p.msg, Cmd.Eof); }
  }

  lemma OrderKinds(t: Table, o: Order, id: u32)
    requires id in OnOrder(t, o).table.channels && t.nextId !in t.channels && t.nextId !in t.pending
    ensures KindKept(t, OnOrder(t, o).table, id, None)
  {
    hide OnCmd, Inc32;
    if o.Of? && o.id in t.channels { TurnKind(t.channels[o.id], Msg.Eof, o.cmd); }
  }

  /** An open of ours is pending as what it was ordered to be. */
  lemma PendingKinds(t: Table, o: Order, id: u32)
    requires id in OnOrder(t, o).table.pending && id !in t.pending
    ensures id == t.nextId
    ensures o.OpenTunnel? || o.OpenSession?
    ensures OnOrder(t, o).table.pending[id] == if o.OpenTunnel? then Direct else Session(o.endOnClose)
  {
    hide OnCmd, Inc32;
  }

  /** So on every run, step by step, while ids last. */
  lemma EveryKindKept(states: seq<End>, inputs: seq<Input>, k: nat, id: u32)
    requires IsRun(states, inputs) && states[|inputs|].ids <= U32 && k < |inputs| && states[k].ids < U32
    requires id in states[k + 1].table.channels
    ensures KindKept(states[k].table, states[k + 1].table, id, if inputs[k].Arrives? then Some(inputs[k].packet) else None)
  {
    EveryRun(states, inputs, k);
    CapHolds(states, inputs, k);
    hide OnPacket, OnOrder, HalfOf, CanAct, Issues, HalvesOk, DialsOk, Capped;
    var e, i := states[k], inputs[k];
    match i
    case Arrives(p, v) => PacketKinds(e.table, p, v, id);
    case RunsOrder => OrderKinds(e.table, e.log[e.ran], id);
    case _ =>
  }
}
