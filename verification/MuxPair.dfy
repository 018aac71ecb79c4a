/** Two ends of one connection, joined by a wire each way (src/connect/mux.rs on both sides).

Any number of channels are opened by either end, accepted, refused, used and closed at once, their
packets interleaved on the wires and their commands in the queues. Each accepted channel joins an id of
one end to an id of the other; seen from that link the run is a run of the two halves of
ChannelPair.dfy, so its window, closing and delivery laws hold of every channel of every run. */
module MuxPair {
  import opened Bytes
  import opened Logs
  import opened Channel
  import opened ChannelPair
  import opened Mux
  import opened MuxEnd

  datatype Who = Left | Right

  function Other(w: Who): Who { if w.Left? then Right else Left }

  /** The other end's id for a channel, and whether this end opened it. */
  datatype Link = Link(peer: u32, mine: bool)

  datatype System = System(left: End, right: End, leftLinks: map<u32, Link>, rightLinks: map<u32, Link>)

  const BEGIN := System(START, START, map[], map[])

  function At(s: System, w: Who): End { if w.Left? then s.left else s.right }

  function Links(s: System, w: Who): map<u32, Link> { if w.Left? then s.leftLinks else s.rightLinks }

  // ------------------------------------------------------------ steps

  /** One end takes a step; a packet it reads is the next the other sent. */
  ghost predicate Ready(s: System, w: Who, i: Input) {
    && Enabled(At(s, w), i)
    && (i.Arrives? ==> |At(s, w).heard| < |At(s, Other(w)).out| && At(s, Other(w)).out[|At(s, w).heard|] == i.packet)
  }

  /** Accepting a channel joins its two ids. */
  ghost function Joined(s: System, w: Who, c: Change): System {
    if c.Births? && c.half.stage.Held? then
      var id, peer := c.id, c.half.stage.chan.peer;
      if w.Left? then s.(leftLinks := s.leftLinks[id := Link(peer, false)], rightLinks := s.rightLinks[peer := Link(id, true)])
      else s.(rightLinks := s.rightLinks[id := Link(peer, false)], leftLinks := s.leftLinks[peer := Link(id, true)])
    else s
  }

  ghost function Next(s: System, w: Who, i: Input): System
    requires Ready(s, w, i)
  {
    var s' := Joined(s, w, ChangeOf(At(s, w), i));
    if w.Left? then s'.(left := Step(s.left, i)) else s'.(right := Step(s.right, i))
  }

  // ------------------------------------------------------------ the invariant

  /** The two ends name each other's ids alike. */
  ghost predicate Mutual(mine: map<u32, Link>, theirs: map<u32, Link>) {
    forall i <- mine :: mine[i].peer in theirs && theirs[mine[i].peer] == Link(i, !mine[i].mine)
  }

  /** A packet about a channel goes from one end of a link to the other. */
  predicate Linked(p: Packet, links: map<u32, Link>) {
    p.To? ==> p.from in links && links[p.from].peer == p.id && (p.msg.Confirm? ==> p.msg.peer == p.from)
  }

  ghost predicate SaysLinked(e: End, links: map<u32, Link>) {
    forall k :: 0 <= k < |e.out| ==> Linked(e.out[k], links)
  }

  ghost predicate KeepsLinked(e: End, links: map<u32, Link>) {
    && (forall id <- e.tasks :: id in links)
    && (forall id <- e.table.channels :: id in links && e.table.channels[id].peer == links[id].peer)
    && (forall id <- links :: id < e.ids)
  }

  /** Opens offer the whole window, and are remembered so. */
  ghost predicate OffersWhole(e: End) {
    && (forall k :: 0 <= k < |e.out| && e.out[k].Open? ==> e.out[k].window == LOCAL_WINDOW && e.out[k].max == MAX_CHUNK)
    && (forall k :: 0 <= k < |e.heard| && e.heard[k].Open? ==> e.heard[k].window == LOCAL_WINDOW && e.heard[k].max == MAX_CHUNK)
    && (forall k :: 0 <= k < |e.dialing| ==> e.dialing[k].window == LOCAL_WINDOW && e.dialing[k].max == MAX_CHUNK)
    && (forall k :: 0 <= k < |e.log| && e.log[k].Connected? ==> e.log[k].dial.window == LOCAL_WINDOW && e.log[k].dial.max == MAX_CHUNK)
  }

  // The opens of one id, wherever the answer to them may be: asked and not yet heard, being dialed,
  // dialed and queued, or refused and not yet heard.
  function OpenOf(i: u32): Packet -> nat { (p: Packet) => if p.Open? && p.sender == i then 1 else 0 }
  function RefusalOf(i: u32): Packet -> nat { (p: Packet) => if p.Refused? && p.ours == i then 1 else 0 }
  function DialOf(i: u32): Dial -> nat { (d: Dial) => if d.peer == i then 1 else 0 }
  function AnswerOf(i: u32): Order -> nat { (o: Order) => if o.Connected? && o.dial.peer == i then 1 else 0 }

  ghost function Asks(e: End, i: u32): nat { Total(e.out, OpenOf(i)) }
  ghost function Refusals(e: End, i: u32): nat { Total(e.heard, RefusalOf(i)) }
  ghost function Pool(e: End, i: u32): int
    requires e.ran <= |e.log|
  {
    Total(e.dialing, DialOf(i)) + Total(e.log, AnswerOf(i)) - Total(e.log[..e.ran], AnswerOf(i))
    + Total(e.out, RefusalOf(i)) - Total(e.heard, OpenOf(i))
  }

  /** An open not yet answered is in exactly one place; any other id is in none. */
  ghost predicate Balance(x: End, y: End, links: map<u32, Link>, i: u32)
    requires y.ran <= |y.log|
  {
    Asks(x, i) + Pool(y, i) - Refusals(x, i) == if i in x.table.pending && i !in links then 1 else 0
  }

  /** What holds of one end towards the other. */
  ghost predicate Facing(x: End, y: End, mine: map<u32, Link>, theirs: map<u32, Link>) {
    && EndOk(x) && x.ran <= |x.log| && y.ran <= |y.log|
    && x.heard <= y.out
    && Mutual(mine, theirs) && SaysLinked(x, mine) && KeepsLinked(x, mine) && OffersWhole(x)
    && (forall i: u32 :: Balance(x, y, mine, i))
    && (forall i <- mine :: Joint(HalfOf(x, i), HalfOf(y, mine[i].peer), mine[i].mine))
  }

  ghost predicate Inv(s: System) {
    && Facing(s.left, s.right, s.leftLinks, s.rightLinks)
    && Facing(s.right, s.left, s.rightLinks, s.leftLinks)
  }

  // ------------------------------------------------------------ tokens: where an open is

  /** Packets that ask for no channel and refuse none. */
  predicate Plain(p: Packet) { p.To? || p.Disconnect? }

  lemma {:induction false} PlainCounts(log: seq<Packet>, sent: seq<Packet>, id: u32)
    requires forall k :: 0 <= k < |sent| ==> Plain(sent[k])
    ensures Total(log + sent, OpenOf(id)) == Total(log, OpenOf(id)) && Total(log + sent, RefusalOf(id)) == Total(log, RefusalOf(id))
  {
    if sent == [] {
      assert log + sent == log;
    } else {
      var before, last := sent[..|sent| - 1], sent[|sent| - 1];
      assert log + sent == (log + before) + [last];
      PlainCounts(log, before, id);
      TotalPush(log + before, last, OpenOf(id));
      TotalPush(log + before, last, RefusalOf(id));
    }
  }

  lemma {:induction false} AddressedPlain(peer: u32, id: u32, sent: seq<Msg>)
    ensures forall k :: 0 <= k < |Addressed(peer, id, sent)| ==> Plain(Addressed(peer, id, sent)[k])
  {
    if sent != [] { AddressedPlain(peer, id, sent[1..]); }
  }

  lemma SettlePlain(t: Table, id: u32, turn: Turn)
    requires id in t.channels && Settle(t, id, turn).Effect?
    ensures forall k :: 0 <= k < |Settle(t, id, turn).sent| ==> Plain(Settle(t, id, turn).sent[k])
  {
    AddressedPlain(t.channels[id].peer, id, turn.sent);
  }

  /** Whose open a birth answers. */
  ghost predicate Answered(c: Change, i: u32) {
    c.Births? && c.half.stage.Held? && c.half.stage.chan.peer == i
  }

  ghost predicate AskedFor(c: Change, i: u32) {
    c.Births? && c.half.stage.Opening? && c.id == i
  }

  /** A step moves an open from place to place; only an acceptance ends it here. */
  ghost predicate Tokens(e: End, e': End, i: Input, c: Change, id: u32)
    requires e.ran <= |e.log| && e'.ran <= |e'.log|
  {
    && Asks(e', id) == Asks(e, id) + (if AskedFor(c, id) then 1 else 0)
    && Refusals(e', id) == Refusals(e, id) + (if i.Arrives? && i.packet == Refused(id) then 1 else 0)
    && Pool(e', id) == Pool(e, id) - (if Answered(c, id) then 1 else 0)
  }

  lemma OneCounts(log: seq<Packet>, p: Packet, id: u32)
    ensures Total(log + [p], OpenOf(id)) == Total(log, OpenOf(id)) + if p.Open? && p.sender == id then 1 else 0
    ensures Total(log + [p], RefusalOf(id)) == Total(log, RefusalOf(id)) + if p.Refused? && p.ours == id then 1 else 0
  {
    TotalPush(log, p, OpenOf(id));
    TotalPush(log, p, RefusalOf(id));
  }

  lemma OpenTokens(e: End, sender: u32, window: u32, max: u32, v: Verdict, id: u32)
    requires Enabled(e, Arrives(Packet.Open(sender, window, max), v))
    ensures var i := Arrives(Packet.Open(sender, window, max), v); Tokens(e, Step(e, i), i, ChangeOf(e, i), id)
  {
    hide Total;
    OneCounts(e.heard, Packet.Open(sender, window, max), id);
    OneCounts(e.out, Refused(sender), id);
    OneCounts(e.out, Confirmation(sender, e.table.nextId), id);
    TotalPush(e.dialing, Dial(sender, window, max), DialOf(id));
    assert e.out + [] == e.out;
  }

  lemma HearTokens(e: End, p: Packet, v: Verdict, id: u32)
    requires Enabled(e, Arrives(p, v)) && !p.Open?
    ensures var i := Arrives(p, v); Tokens(e, Step(e, i), i, ChangeOf(e, i), id)
  {
    hide Total, OnMsg, Settle;
    OneCounts(e.heard, p, id);
    assert e.out + [] == e.out;
    if p.To? && !p.msg.Confirm? && p.id in e.table.channels {
      SettleCounts(e, p.id, OnMsg(Held(e.table.channels[p.id]), p.msg), id);
    }
  }

  /** A turn on a channel concerns no open. */
  lemma SettleCounts(e: End, at: u32, turn: Turn, id: u32)
    requires at in e.table.channels && Settle(e.table, at, turn).Effect?
    ensures var sent := Settle(e.table, at, turn).sent;
      Total(e.out + sent, OpenOf(id)) == Total(e.out, OpenOf(id)) && Total(e.out + sent, RefusalOf(id)) == Total(e.out, RefusalOf(id))
    ensures !Settle(e.table, at, turn).spawn.Dialer?
  {
    SettlePlain(e.table, at, turn);
    PlainCounts(e.out, Settle(e.table, at, turn).sent, id);
  }

  lemma RunTokens(e: End, at: u32, cmd: Cmd, id: u32)
    requires Enabled(e, RunsOrder) && e.log[e.ran] == Of(at, cmd)
    ensures Tokens(e, Step(e, RunsOrder), RunsOrder, ChangeOf(e, RunsOrder), id)
  {
    hide Total, OnCmd;
    Advance(e.log, e.ran);
    TotalPush(e.log[..e.ran], Of(at, cmd), AnswerOf(id));
    assert e.out + [] == e.out;
    if at in e.table.channels { SettleCounts(e, at, OnCmd(Held(e.table.channels[at]), cmd), id); }
  }

  lemma OrderTokens(e: End, id: u32)
    requires Enabled(e, RunsOrder) && !e.log[e.ran].Of?
    ensures Tokens(e, Step(e, RunsOrder), RunsOrder, ChangeOf(e, RunsOrder), id)
  {
    hide Total;
    var o := e.log[e.ran];
    Advance(e.log, e.ran);
    TotalPush(e.log[..e.ran], o, AnswerOf(id));
    assert e.out + [] == e.out;
    OneCounts(e.out, Packet.Open(e.table.nextId, LOCAL_WINDOW, MAX_CHUNK), id);
    if o.Connected? {
      OneCounts(e.out, Refused(o.dial.peer), id);
      OneCounts(e.out, Confirmation(o.dial.peer, e.table.nextId), id);
    }
  }

  lemma ResolveTokens(e: End, k: nat, ok: bool, id: u32)
    requires Enabled(e, Resolves(k, ok))
    ensures Tokens(e, Step(e, Resolves(k, ok)), Resolves(k, ok), Still, id)
  {
    hide Total;
    var d := e.dialing;
    assert d == d[..k] + ([d[k]] + d[k + 1..]);
    TotalJoin(d[..k], [d[k]] + d[k + 1..], DialOf(id));
    TotalJoin([d[k]], d[k + 1..], DialOf(id));
    TotalJoin(d[..k], d[k + 1..], DialOf(id));
    TotalPush([], d[k], DialOf(id));
    assert [] + [d[k]] == [d[k]];
    assert Total([], DialOf(id)) == 0 by { NoDials(id); }
    TotalPush(e.log, Connected(d[k], ok), AnswerOf(id));
    assert (e.log + [Connected(d[k], ok)])[..e.ran] == e.log[..e.ran];
  }

  lemma NoDials(id: u32)
    ensures Total([], DialOf(id)) == 0
  {
  }

  lemma ActTokens(e: End, at: u32, act: Act, id: u32)
    requires Enabled(e, TaskActs(at, act))
    ensures Tokens(e, Step(e, TaskActs(at, act)), TaskActs(at, act), ChangeOf(e, TaskActs(at, act)), id)
  {
    hide Total, Issues, Gather;
    var cmds := Issues(e.tasks[at], act);
    TotalJoin(e.log, Orders(at, cmds), AnswerOf(id));
    OrdersNoAnswer(at, cmds, id);
    assert (e.log + Orders(at, cmds))[..e.ran] == e.log[..e.ran];
  }

  lemma OrdersNoAnswer(at: u32, cmds: seq<Cmd>, id: u32)
    requires |cmds| <= 1
    ensures Total(Orders(at, cmds), AnswerOf(id)) == 0
  {
    if cmds != [] {
      assert cmds[1..] == [] && Orders(at, cmds) == [Of(at, cmds[0])];
    }
  }

  lemma StepTokens(e: End, i: Input, id: u32)
    requires Enabled(e, i)
    ensures Step(e, i).ran <= |Step(e, i).log| && Tokens(e, Step(e, i), i, ChangeOf(e, i), id)
  {
    hide Tokens, PacketChange, OrderChange, Total;
    StepRan(e, i);
    match i
    case Arrives(p, v) =>
      if p.Open? { OpenTokens(e, p.sender, p.window, p.max, v, id); } else { HearTokens(e, p, v, id); }
    case RunsOrder =>
      var o := e.log[e.ran];
      if o.Of? { RunTokens(e, o.id, o.cmd, id); } else { OrderTokens(e, id); }
    case Resolves(k, ok) => ResolveTokens(e, k, ok, id);
    case Submits(order) => SubmitTokens(e, order, id);
    case TaskActs(at, act) => ActTokens(e, at, act, id);
  }

  lemma SubmitTokens(e: End, order: Order, id: u32)
    requires Enabled(e, Submits(order))
    ensures Tokens(e, Step(e, Submits(order)), Submits(order), Still, id)
  {
    hide Total;
    TotalPush(e.log, order, AnswerOf(id));
    assert (e.log + [order])[..e.ran] == e.log[..e.ran];
  }

  // ------------------------------------------------------------ one end steps

  ghost predicate Stepping(x: End, y: End, mine: map<u32, Link>, theirs: map<u32, Link>, i: Input) {
    && Facing(x, y, mine, theirs) && Facing(y, x, theirs, mine)
    && Enabled(x, i) && Room(x, i)
    && (i.Arrives? ==> |x.heard| < |y.out| && y.out[|x.heard|] == i.packet)
  }

  predicate Accepts(c: Change) { c.Births? && c.half.stage.Held? }

  function Mine(links: map<u32, Link>, c: Change): map<u32, Link> {
    if Accepts(c) then links[c.id := Link(c.half.stage.chan.peer, false)] else links
  }

  function Theirs(links: map<u32, Link>, c: Change): map<u32, Link> {
    if Accepts(c) then links[c.half.stage.chan.peer := Link(c.id, true)] else links
  }

  /** Something of an open that is still on its way counts for at least one, and nothing counts for less
  than none: so the open is pending, and not yet linked. */
  lemma TokenShows(y: End, x: End, theirs: map<u32, Link>, id: u32)
    requires x.ran <= |x.log| && x.heard <= y.out && y.heard <= x.out && Balance(y, x, theirs, id)
    requires
      || Total(x.heard, OpenOf(id)) < Total(y.out, OpenOf(id))
      || Total(x.log[..x.ran], AnswerOf(id)) < Total(x.log, AnswerOf(id))
      || Total(y.heard, RefusalOf(id)) < Total(x.out, RefusalOf(id))
    ensures id in y.table.pending && id !in theirs
  {
    hide Total;
    TotalPrefix(x.heard, y.out, OpenOf(id));
    TotalPrefix(y.heard, x.out, RefusalOf(id));
    TotalPrefix(x.log[..x.ran], x.log, AnswerOf(id));
  }

  lemma OpenShows(x: End, y: End, theirs: map<u32, Link>, p: Packet)
    requires x.ran <= |x.log| && x.heard <= y.out && y.heard <= x.out && p.Open? && Balance(y, x, theirs, p.sender)
    requires |x.heard| < |y.out| && y.out[|x.heard|] == p
    ensures p.sender in y.table.pending && p.sender !in theirs
  {
    hide Total, Balance;
    OneCounts(x.heard, p, p.sender);
    TotalPrefix(x.heard + [p], y.out, OpenOf(p.sender));
    TokenShows(y, x, theirs, p.sender);
  }

  lemma AnswerShows(x: End, y: End, theirs: map<u32, Link>)
    requires x.ran < |x.log| && x.heard <= y.out && y.heard <= x.out
    requires x.log[x.ran].Connected? && Balance(y, x, theirs, x.log[x.ran].dial.peer)
    ensures x.log[x.ran].dial.peer in y.table.pending && x.log[x.ran].dial.peer !in theirs
  {
    hide Total, Balance;
    var o := x.log[x.ran];
    Advance(x.log, x.ran);
    TotalPush(x.log[..x.ran], o, AnswerOf(o.dial.peer));
    TotalPrefix(x.log[..x.ran + 1], x.log, AnswerOf(o.dial.peer));
    TokenShows(y, x, theirs, o.dial.peer);
  }

  lemma RefusalShows(x: End, y: End, mine: map<u32, Link>, id: u32)
    requires y.ran <= |y.log| && x.heard <= y.out && y.heard <= x.out && Balance(x, y, mine, id)
    requires |x.heard| < |y.out| && y.out[|x.heard|] == Refused(id)
    ensures id in x.table.pending && id !in mine
  {
    hide Total, Balance;
    OneCounts(x.heard, Refused(id), id);
    TotalPrefix(x.heard + [Refused(id)], y.out, RefusalOf(id));
    TokenShows(x, y, mine, id);
  }

  /** The shape of an acceptance. */
  lemma AcceptShape(x: End, i: Input)
    requires Enabled(x, i) && Accepts(ChangeOf(x, i))
    ensures var c := ChangeOf(x, i);
      && c.id == x.table.nextId
      && (if i.Arrives? then i.packet.Open? && c.half == Accepted(c.id, i.packet.sender, i.packet.window, i.packet.max, true)
          else i.RunsOrder? && x.log[x.ran].Connected?
               && c.half == Accepted(c.id, x.log[x.ran].dial.peer, x.log[x.ran].dial.window, x.log[x.ran].dial.max, false))
  {
    hide OnPacket, OnOrder, CanAct, HalfOf;
  }

  predicate AcceptedWhole(c: Change) {
    exists serving :: c.Births? && c.half.stage.Held? && c.half == Accepted(c.id, c.half.stage.chan.peer, LOCAL_WINDOW, MAX_CHUNK, serving)
  }

  /** A channel is accepted only for an open that is still pending, and offered the whole window. */
  lemma AcceptsPending(x: End, y: End, mine: map<u32, Link>, theirs: map<u32, Link>, i: Input)
    requires Stepping(x, y, mine, theirs, i) && Accepts(ChangeOf(x, i))
    ensures var c := ChangeOf(x, i); var peer := c.half.stage.chan.peer;
      peer in y.table.pending && peer !in theirs && c.id !in mine && c.id == x.ids && AcceptedWhole(c)
  {
    hide Total, Joint, HalvesOk, LocalOk, Balance, ChangeOf, OnPacket, OnOrder, HalfOf, SaysLinked, Mutual;
    NextUnused(x);
    AcceptShape(x, i);
    if i.Arrives? {
      OpenShows(x, y, theirs, i.packet);
      WholeOpen(ChangeOf(x, i), i.packet.sender, true);
    } else {
      AnswerShows(x, y, theirs);
      WholeOpen(ChangeOf(x, i), x.log[x.ran].dial.peer, false);
    }
  }

  lemma WholeOpen(c: Change, peer: u32, serving: bool)
    requires c.Births? && c.half == Accepted(c.id, peer, LOCAL_WINDOW, MAX_CHUNK, serving)
    ensures AcceptedWhole(c) && c.half.stage.chan.peer == peer
  {
  }

  lemma MutualJoin(mine: map<u32, Link>, theirs: map<u32, Link>, id: u32, peer: u32)
    requires Mutual(mine, theirs) && Mutual(theirs, mine) && id !in mine && peer !in theirs
    ensures Mutual(mine[id := Link(peer, false)], theirs[peer := Link(id, true)])
    ensures Mutual(theirs[peer := Link(id, true)], mine[id := Link(peer, false)])
  {
  }

  lemma StillMutual(x: End, y: End, mine: map<u32, Link>, theirs: map<u32, Link>, i: Input)
    requires Stepping(x, y, mine, theirs, i)
    ensures var c := ChangeOf(x, i); Mutual(Mine(mine, c), Theirs(theirs, c)) && Mutual(Theirs(theirs, c), Mine(mine, c))
  {
    hide EndOk, Balance, Joint, SaysLinked, KeepsLinked, OffersWhole, ChangeOf, Enabled, Room, Mutual;
    var c := ChangeOf(x, i);
    if Accepts(c) {
      AcceptsPending(x, y, mine, theirs, i);
      MutualJoin(mine, theirs, c.id, c.half.stage.chan.peer);
    }
  }

  // What is said stays within the links.

  lemma {:induction false} AddressedLinked(peer: u32, id: u32, sent: seq<Msg>, links: map<u32, Link>)
    requires id in links && links[id].peer == peer
    requires forall k :: 0 <= k < |sent| ==> !sent[k].Confirm?
    ensures forall k :: 0 <= k < |Addressed(peer, id, sent)| ==> Linked(Addressed(peer, id, sent)[k], links)
  {
    if sent != [] { AddressedLinked(peer, id, sent[1..], links); }
  }

  lemma SettleLinked(t: Table, id: u32, turn: Turn, links: map<u32, Link>)
    requires id in t.channels && Settle(t, id, turn).Effect?
    requires id in links && links[id].peer == t.channels[id].peer
    requires turn.Turn? && forall k :: 0 <= k < |turn.sent| ==> !turn.sent[k].Confirm?
    ensures AllLinked(Settle(t, id, turn).sent, links)
  {
    AddressedLinked(t.channels[id].peer, id, turn.sent, links);
  }

  ghost predicate AllLinked(sent: seq<Packet>, links: map<u32, Link>) {
    forall k :: 0 <= k < |sent| ==> Linked(sent[k], links)
  }

  /** What one step sends. */
  ghost function SentIn(e: End, i: Input): seq<Packet>
    requires Enabled(e, i)
  {
    match i
    case Arrives(p, v) => OnPacket(e.table, p, v).sent
    case RunsOrder => OnOrder(e.table, e.log[e.ran]).sent
    case _ => []
  }

  lemma StepOut(e: End, i: Input)
    requires Enabled(e, i)
    ensures Step(e, i).out == e.out + SentIn(e, i)
    ensures Step(e, i).heard == if i.Arrives? then e.heard + [i.packet] else e.heard
  {
    hide OnPacket, OnOrder, CanAct, HalfOf, Issues;
  }

  lemma SentLinked(e: End, i: Input, links: map<u32, Link>)
    requires Enabled(e, i) && KeepsLinked(e, links)
    ensures AllLinked(SentIn(e, i), Mine(links, ChangeOf(e, i)))
  {
    match i
    case Arrives(p, v) =>
      hide OnMsg, Settle;
      if p.To? && !p.msg.Confirm? && p.id in e.table.channels {
        NoConfirms(Held(e.table.channels[p.id]), p.msg);
        SettleTurns(e.table, p.id, OnMsg(Held(e.table.channels[p.id]), p.msg), links);
      }
    case RunsOrder =>
      hide OnCmd, Settle;
      var o := e.log[e.ran];
      if o.Of? && o.id in e.table.channels {
        NoConfirmsRun(Held(e.table.channels[o.id]), o.cmd);
        SettleTurns(e.table, o.id, OnCmd(Held(e.table.channels[o.id]), o.cmd), links);
      }
    case _ =>
  }

  lemma SettleTurns(t: Table, id: u32, turn: Turn, links: map<u32, Link>)
    requires id in t.channels && id in links && links[id].peer == t.channels[id].peer
    requires turn.Turn? ==> forall k :: 0 <= k < |turn.sent| ==> !turn.sent[k].Confirm?
    ensures Settle(t, id, turn).Effect? ==> AllLinked(Settle(t, id, turn).sent, links)
  {
    hide AllLinked;
    if turn.Turn? { SettleLinked(t, id, turn, links); }
  }

  lemma NoConfirms(s: Stage, m: Msg)
    ensures OnMsg(s, m).Turn? ==> forall k :: 0 <= k < |OnMsg(s, m).sent| ==> !OnMsg(s, m).sent[k].Confirm?
  {
  }

  lemma NoConfirmsRun(s: Stage, k: Cmd)
    ensures forall j :: 0 <= j < |OnCmd(s, k).sent| ==> !OnCmd(s, k).sent[j].Confirm?
  {
  }

  lemma StillSaysLinked(x: End, y: End, mine: map<u32, Link>, theirs: map<u32, Link>, i: Input)
    requires Stepping(x, y, mine, theirs, i)
    ensures var c := ChangeOf(x, i); SaysLinked(Step(x, i), Mine(mine, c)) && SaysLinked(y, Theirs(theirs, c))
  {
    hide EndOk, Balance, Joint, KeepsLinked, OffersWhole, ChangeOf, Enabled, Room, Mutual, Step, SentIn, AllLinked;
    var c := ChangeOf(x, i);
    if Accepts(c) { AcceptsPending(x, y, mine, theirs, i); }
    StepOut(x, i);
    SentLinked(x, i, mine);
    JoinLinked(x.out, SentIn(x, i), mine, Mine(mine, c));
  }

  lemma JoinLinked(a: seq<Packet>, b: seq<Packet>, links: map<u32, Link>, links': map<u32, Link>)
    requires (forall k :: 0 <= k < |a| ==> Linked(a[k], links)) && AllLinked(b, links')
    requires forall id <- links :: id in links' && links'[id] == links[id]
    ensures forall k :: 0 <= k < |a + b| ==> Linked((a + b)[k], links')
  {
  }

  // What is kept stays within the links.

  lemma SamePeer(c: Chan, m: Msg, k: Cmd)
    ensures var t := OnMsg(Held(c), m); t.Turn? && t.stage.Held? ==> t.stage.chan.peer == c.peer
    ensures var t := OnCmd(Held(c), k); t.stage.Held? ==> t.stage.chan.peer == c.peer
  {
  }

  lemma SettleKeeps(e: End, at: u32, id: u32, turn: Turn, links: map<u32, Link>)
    requires KeepsLinked(e, links) && id in e.table.channels && Settle(e.table, id, turn).Effect?
    requires turn.Turn? && (turn.stage.Held? ==> turn.stage.chan.peer == e.table.channels[id].peer)
    ensures KeepsLinked(Applied(e, at, Settle(e.table, id, turn)), links)
  {
    hide Addressed;
  }

  /** A new entry, for an id the links know. */
  lemma EntryKeeps(e: End, at: u32, eff: Effect, id: u32, c: Chan, links: map<u32, Link>, links': map<u32, Link>)
    requires KeepsLinked(e, links) && eff.Effect? && eff.spawn == Worker(id) && eff.table.channels == e.table.channels[id := c]
    requires id in links' && links'[id].peer == c.peer && links' == links[id := links'[id]]
    requires id < Applied(e, at, eff).ids
    ensures KeepsLinked(Applied(e, at, eff), links')
  {
  }

  /** No entry changed, and no id was taken back. */
  lemma SameKeeps(e: End, e': End, links: map<u32, Link>)
    requires KeepsLinked(e, links) && e'.table.channels == e.table.channels && e'.tasks == e.tasks && e'.ids >= e.ids
    ensures KeepsLinked(e', links)
  {
  }

  lemma PacketKeepsLinked(x: End, p: Packet, v: Verdict, links: map<u32, Link>)
    requires TablesOk(x) && KeepsLinked(x, links) && Enabled(x, Arrives(p, v)) && Room(x, Arrives(p, v))
    requires p.To? && p.msg.Confirm? ==> p.id in links && links[p.id].peer == p.msg.peer
    ensures KeepsLinked(Step(x, Arrives(p, v)), Mine(links, PacketChange(x, p, v)))
  {
    hide KeepsLinked, OnOpen, OnTo, Applied, TablesOk;
    if p.To? {
      ToKeepsLinked(x, p, v, links);
    } else if PacketChange(x, p, v).Births? {
      ServeKeepsLinked(x, p, v, links);
    } else {
      SameKeepsLinked(x, p, v, links);
    }
  }

  lemma ServeKeepsLinked(x: End, p: Packet, v: Verdict, links: map<u32, Link>)
    requires TablesOk(x) && KeepsLinked(x, links) && Enabled(x, Arrives(p, v)) && x.ids < U32
    requires PacketChange(x, p, v).Births?
    ensures KeepsLinked(Step(x, Arrives(p, v)), Mine(links, PacketChange(x, p, v)))
  {
    hide Inc32, KeepsLinked;
    var e := x.(heard := x.heard + [p]);
    SameKeeps(x, e, links);
    NextMoves(x.table.nextId);
    EntryKeeps(e, 0, OnPacket(x.table, p, v), x.table.nextId, NewChan(p.sender, p.window, p.max, true, false),
               links, Mine(links, PacketChange(x, p, v)));
  }

  lemma SameKeepsLinked(x: End, p: Packet, v: Verdict, links: map<u32, Link>)
    requires KeepsLinked(x, links) && Enabled(x, Arrives(p, v)) && !p.To? && !PacketChange(x, p, v).Births?
    ensures KeepsLinked(Step(x, Arrives(p, v)), links)
  {
    hide KeepsLinked;
    SameKeeps(x, Step(x, Arrives(p, v)), links);
  }

  lemma ToKeepsLinked(x: End, p: Packet, v: Verdict, links: map<u32, Link>)
    requires TablesOk(x) && KeepsLinked(x, links) && Enabled(x, Arrives(p, v)) && p.To?
    requires p.msg.Confirm? ==> p.id in links && links[p.id].peer == p.msg.peer
    ensures KeepsLinked(Step(x, Arrives(p, v)), links)
  {
    hide OnMsg, Settle, KeepsLinked, Applied;
    var e := x.(heard := x.heard + [p]);
    SameKeeps(x, e, links);
    if p.msg.Confirm? {
      ConfirmKeeps(e, p.id, p.msg, links);
    } else if p.id in x.table.channels {
      SamePeer(x.table.channels[p.id], p.msg, Cmd.Eof);
      SettleKeepsTurn(e, p.id, p.id, OnMsg(Held(x.table.channels[p.id]), p.msg), links);
    } else {
      QuietKeeps(e, p.id, links);
    }
  }

  lemma QuietKeeps(e: End, at: u32, links: map<u32, Link>)
    requires KeepsLinked(e, links)
    ensures KeepsLinked(Applied(e, at, Quiet(e.table)), links)
  {
    hide KeepsLinked;
    SameKeeps(e, Applied(e, at, Quiet(e.table)), links);
  }

  lemma ConfirmKeeps(e: End, id: u32, m: Msg, links: map<u32, Link>)
    requires TablesOk(e) && KeepsLinked(e, links) && m.Confirm? && id in e.table.pending
    requires id in links && links[id].peer == m.peer
    ensures KeepsLinked(Applied(e, id, OnTo(e.table, id, m)), links)
  {
    hide KeepsLinked;
    var s := PendingStage(e.table.pending[id]);
    assert links[id := links[id]] == links;
    EntryKeeps(e, id, OnTo(e.table, id, m), id, NewChan(m.peer, m.window, m.max, s.session, s.endOnClose), links, links);
  }

  lemma SettleKeepsTurn(e: End, at: u32, id: u32, turn: Turn, links: map<u32, Link>)
    requires KeepsLinked(e, links) && id in e.table.channels && Settle(e.table, id, turn).Effect?
    requires turn.Turn? && turn.stage.Held? ==> turn.stage.chan.peer == e.table.channels[id].peer
    ensures KeepsLinked(Applied(e, at, Settle(e.table, id, turn)), links)
  {
    hide KeepsLinked, Applied;
    SettleKeeps(e, at, id, turn, links);
  }

  lemma OrderKeepsLinked(x: End, links: map<u32, Link>)
    requires TablesOk(x) && KeepsLinked(x, links) && Enabled(x, RunsOrder) && Room(x, RunsOrder)
    ensures KeepsLinked(Step(x, RunsOrder), Mine(links, OrderChange(x, x.log[x.ran])))
  {
    hide OnCmd, Settle, Inc32, KeepsLinked;
    var e, o := x.(ran := x.ran + 1), x.log[x.ran];
    SameKeeps(x, e, links);
    if o.Connected? && o.ok {
      NextMoves(x.table.nextId);
      EntryKeeps(e, 0, OnOrder(x.table, o), x.table.nextId, NewChan(o.dial.peer, o.dial.window, o.dial.max, false, false),
                 links, Mine(links, OrderChange(x, o)));
    } else if o.Of? && o.id in x.table.channels {
      SamePeer(x.table.channels[o.id], Msg.Eof, o.cmd);
      assert OnOrder(x.table, o).Effect?;
      SettleKeepsTurn(e, 0, o.id, OnCmd(Held(x.table.channels[o.id]), o.cmd), links);
    } else {
      SameKeeps(e, Step(x, RunsOrder), links);
    }
  }

  /** A confirmation names the id at the other end of its link. */
  lemma ConfirmLinked(x: End, y: End, mine: map<u32, Link>, theirs: map<u32, Link>, p: Packet)
    requires Facing(x, y, mine, theirs) && Facing(y, x, theirs, mine)
    requires |x.heard| < |y.out| && y.out[|x.heard|] == p && p.To?
    ensures p.id in mine && mine[p.id].peer == p.from && (p.msg.Confirm? ==> p.msg.peer == p.from)
  {
    hide EndOk, Balance, Joint, KeepsLinked, OffersWhole;
    assert Linked(p, theirs);
  }

  lemma StillKeepsLinked(x: End, y: End, mine: map<u32, Link>, theirs: map<u32, Link>, i: Input)
    requires Stepping(x, y, mine, theirs, i)
    ensures var c := ChangeOf(x, i); KeepsLinked(Step(x, i), Mine(mine, c)) && KeepsLinked(y, Theirs(theirs, c))
  {
    hide HalvesOk, DialsOk, Capped, Balance, Joint, OffersWhole, Mutual, SaysLinked, OnPacket, OnOrder, OrderChange, PacketChange, Applied;
    match i
    case Arrives(p, v) =>
      if p.To? { ConfirmLinked(x, y, mine, theirs, p); }
      PacketKeepsLinked(x, p, v, mine);
      PeerKeepsLinked(x, y, mine, theirs, i);
    case RunsOrder =>
      OrderKeepsLinked(x, mine);
      PeerKeepsLinked(x, y, mine, theirs, i);
    case TaskActs(id, act) => ActKeepsLinked(x, id, act, mine);
    case _ =>
  }

  lemma PeerKeepsLinked(x: End, y: End, mine: map<u32, Link>, theirs: map<u32, Link>, i: Input)
    requires Stepping(x, y, mine, theirs, i)
    ensures KeepsLinked(y, Theirs(theirs, ChangeOf(x, i)))
  {
    hide EndOk, KeepsLinked, Balance, Joint, OffersWhole, Mutual, SaysLinked, ChangeOf, Enabled, Room;
    var c := ChangeOf(x, i);
    if Accepts(c) {
      AcceptsPending(x, y, mine, theirs, i);
      NewLinkKeeps(y, theirs, c.half.stage.chan.peer, Link(c.id, true));
    }
  }

  lemma NewLinkKeeps(y: End, links: map<u32, Link>, id: u32, link: Link)
    requires EndOk(y) && KeepsLinked(y, links) && id in y.table.pending && id !in links
    ensures KeepsLinked(y, links[id := link])
  {
    hide HalvesOk, DialsOk, Capped;
  }

  lemma ActKeepsLinked(x: End, id: u32, act: Act, links: map<u32, Link>)
    requires KeepsLinked(x, links) && Enabled(x, TaskActs(id, act))
    ensures KeepsLinked(Step(x, TaskActs(id, act)), links)
  {
    hide HalfOf, Issues;
  }

  // Every open offers the whole window.

  lemma SentWhole(e: End, i: Input)
    requires Enabled(e, i)
    ensures forall k :: 0 <= k < |SentIn(e, i)| && SentIn(e, i)[k].Open? ==> SentIn(e, i)[k].window == LOCAL_WINDOW && SentIn(e, i)[k].max == MAX_CHUNK
  {
    match i
    case Arrives(p, v) =>
      hide OnMsg, Settle;
      if p.To? && p.id in e.table.channels && !p.msg.Confirm? {
        SettlePlain(e.table, p.id, OnMsg(Held(e.table.channels[p.id]), p.msg));
      }
    case RunsOrder =>
      hide OnCmd, Settle;
      var o := e.log[e.ran];
      if o.Of? && o.id in e.table.channels { SettlePlain(e.table, o.id, OnCmd(Held(e.table.channels[o.id]), o.cmd)); }
    case _ =>
  }

  lemma StepDialing(e: End, i: Input)
    requires Enabled(e, i) && (forall k :: 0 <= k < |e.dialing| ==> e.dialing[k].window == LOCAL_WINDOW && e.dialing[k].max == MAX_CHUNK)
    requires i.Arrives? && i.packet.Open? ==> i.packet.window == LOCAL_WINDOW && i.packet.max == MAX_CHUNK
    ensures var e' := Step(e, i); forall k :: 0 <= k < |e'.dialing| ==> e'.dialing[k].window == LOCAL_WINDOW && e'.dialing[k].max == MAX_CHUNK
  {
    hide OnMsg, OnCmd, CanAct, HalfOf, Issues;
  }

  lemma StepLog(e: End, i: Input)
    requires Enabled(e, i) && OffersWhole(e)
    ensures var e' := Step(e, i); forall k :: 0 <= k < |e'.log| && e'.log[k].Connected? ==> e'.log[k].dial.window == LOCAL_WINDOW && e'.log[k].dial.max == MAX_CHUNK
  {
    hide OnPacket, OnOrder, Gather, Issues;
    if i.TaskActs? { OrdersNone(i.id, Issues(e.tasks[i.id], i.act)); }
  }

  lemma {:induction false} OrdersNone(id: u32, cmds: seq<Cmd>)
    ensures forall k :: 0 <= k < |Orders(id, cmds)| ==> !Orders(id, cmds)[k].Connected?
  {
    if cmds != [] { OrdersNone(id, cmds[1..]); }
  }

  lemma StillOffersWhole(x: End, y: End, i: Input)
    requires Enabled(x, i) && OffersWhole(x) && OffersWhole(y)
    requires i.Arrives? ==> |x.heard| < |y.out| && y.out[|x.heard|] == i.packet
    ensures OffersWhole(Step(x, i))
  {
    hide Enabled, Step, SentIn;
    StepOut(x, i);
    SentWhole(x, i);
    StepDialing(x, i);
    StepLog(x, i);
  }

  // Every open is in one place.

  predicate Settles(i: Input, id: u32) {
    i.Arrives? && (i.packet == Refused(id) || (i.packet.To? && i.packet.id == id && i.packet.msg.Confirm?))
  }

  lemma PendingStep(e: End, i: Input, id: u32)
    requires Enabled(e, i)
    ensures id in Step(e, i).table.pending <==> (id in e.table.pending && !Settles(i, id)) || AskedFor(ChangeOf(e, i), id)
  {
    hide OnPacket, OnOrder, OnOpen, OnTo, CanAct, HalfOf, Issues, PacketChange, OrderChange;
    match i
    case Arrives(p, v) => PendingPacket(e, p, v, id);
    case RunsOrder => PendingOrder(e, id);
    case _ =>
  }

  lemma PendingPacket(e: End, p: Packet, v: Verdict, id: u32)
    requires OnPacket(e.table, p, v).Effect?
    ensures id in OnPacket(e.table, p, v).table.pending <==> id in e.table.pending && !Settles(Arrives(p, v), id)
    ensures !AskedFor(PacketChange(e, p, v), id)
  {
    hide OnMsg, Addressed;
  }

  lemma PendingOrder(e: End, id: u32)
    requires e.ran < |e.log|
    ensures id in OnOrder(e.table, e.log[e.ran]).table.pending <==> id in e.table.pending || AskedFor(OrderChange(e, e.log[e.ran]), id)
  {
    hide OnCmd, Addressed;
  }

  lemma StillBalanced(x: End, y: End, mine: map<u32, Link>, theirs: map<u32, Link>, i: Input, id: u32)
    requires Stepping(x, y, mine, theirs, i)
    ensures Balance(Step(x, i), y, Mine(mine, ChangeOf(x, i)), id)
  {
    hide EndOk, Joint, OffersWhole, Mutual, SaysLinked, KeepsLinked, ChangeOf, Step, Enabled, Room, Asks, Refusals, Pool;
    var c := ChangeOf(x, i);
    assert Balance(x, y, mine, id);
    StepTokens(x, i, id);
    PendingStep(x, i, id);
    if Accepts(c) { AcceptsPending(x, y, mine, theirs, i); }
    if c.Births? { FreshId(x, i, mine); }
    if i.Arrives? && i.packet == Refused(id) { RefusalShows(x, y, mine, id); NoBirth(x, i); }
    if i.Arrives? && i.packet.To? { ConfirmLinked(x, y, mine, theirs, i.packet); NoBirth(x, i); }
  }

  lemma FreshId(x: End, i: Input, links: map<u32, Link>)
    requires EndOk(x) && Enabled(x, i) && Room(x, i) && KeepsLinked(x, links) && ChangeOf(x, i).Births?
    ensures ChangeOf(x, i).id !in x.table.pending && ChangeOf(x, i).id !in links
  {
    hide LocalOk, OnPacket, OnOrder, CanAct, HalfOf, Capped, DialsOk;
    NextUnused(x);
  }

  lemma NoBirth(x: End, i: Input)
    requires Enabled(x, i) && i.Arrives? && !i.packet.Open?
    ensures !ChangeOf(x, i).Births?
  {
    hide OnPacket;
  }

  lemma PeerBalanced(x: End, y: End, mine: map<u32, Link>, theirs: map<u32, Link>, i: Input, id: u32)
    requires Stepping(x, y, mine, theirs, i)
    ensures Step(x, i).ran <= |Step(x, i).log| && Balance(y, Step(x, i), Theirs(theirs, ChangeOf(x, i)), id)
  {
    hide EndOk, Joint, OffersWhole, Mutual, SaysLinked, KeepsLinked, ChangeOf, Step, Enabled, Room, Asks, Refusals, Pool;
    assert Balance(y, x, theirs, id);
    StepTokens(x, i, id);
    if Accepts(ChangeOf(x, i)) { AcceptsPending(x, y, mine, theirs, i); }
  }

  // The two halves of each link.

  /** What one end heard for its id is what the other said from its own. */
  lemma {:induction false} SameTalk(log: seq<Packet>, theirs: map<u32, Link>, mine: map<u32, Link>, id: u32)
    requires AllLinked(log, theirs) && Mutual(theirs, mine) && Mutual(mine, theirs) && id in mine
    ensures Gather(log, HeardBy(id)) == Gather(log, SaidBy(mine[id].peer))
  {
    if log != [] {
      var before, p := log[..|log| - 1], log[|log| - 1];
      assert forall k :: 0 <= k < |before| ==> before[k] == log[k];
      SameTalk(before, theirs, mine, id);
      assert Linked(p, theirs);
      assert p.To? ==> (p.id == id <==> p.from == mine[id].peer);
    }
  }

  /** The next packet is the next message of its channel. */
  lemma NextTalk(x: End, y: End, mine: map<u32, Link>, theirs: map<u32, Link>, p: Packet)
    requires Facing(x, y, mine, theirs) && Facing(y, x, theirs, mine)
    requires |x.heard| < |y.out| && y.out[|x.heard|] == p && p.To?
    ensures p.id in mine && Awaits(HalfOf(x, p.id), HalfOf(y, mine[p.id].peer), p.msg)
  {
    hide EndOk, Balance, Joint, KeepsLinked, OffersWhole, Mutual, Gather;
    ConfirmLinked(x, y, mine, theirs, p);
    var j := mine[p.id].peer;
    assert x.heard + [p] <= y.out;
    assert AllLinked(x.heard, theirs);
    SameTalk(x.heard, theirs, mine, p.id);
    GatherPush(x.heard, p, SaidBy(j));
    GatherPrefix(x.heard + [p], y.out, SaidBy(j));
  }

  /** A channel that moves is linked. */
  lemma MoverLinked(x: End, y: End, mine: map<u32, Link>, theirs: map<u32, Link>, i: Input)
    requires Stepping(x, y, mine, theirs, i) && ChangeOf(x, i).Moves?
    ensures ChangeOf(x, i).id in mine
    ensures var c := ChangeOf(x, i); c.move.Hear? ==> Awaits(HalfOf(x, c.id), HalfOf(y, mine[c.id].peer), c.move.msg)
  {
    hide Balance, Joint, OffersWhole, Mutual, SaysLinked, Capped, DialsOk, Awaits, Gather, OnPacket, OnOrder, LocalOk;
    match i
    case Arrives(p, v) => NextTalk(x, y, mine, theirs, p);
    case RunsOrder => RunnerKnown(x);
    case TaskActs(_, _) =>
  }

  lemma RunnerKnown(x: End)
    requires TablesOk(x) && HalvesOk(x) && x.ran < |x.log| && x.log[x.ran].Of?
    ensures x.log[x.ran].id in x.tasks
  {
    hide Gather, Windows, Streams, Flags, Orderly, DataFirst, WellSpoken;
    var id := x.log[x.ran].id;
    RanOn(x.log, x.ran, id);
    assert LocalOk(HalfOf(x, id));
  }

  lemma MovesJoint(x: End, y: End, mine: map<u32, Link>, theirs: map<u32, Link>, i: Input)
    requires Stepping(x, y, mine, theirs, i) && ChangeOf(x, i).Moves?
    ensures Step(x, i).ran <= |Step(x, i).log|
    ensures var id, x' := ChangeOf(x, i).id, Step(x, i);
      && id in mine
      && Joint(HalfOf(x', id), HalfOf(y, mine[id].peer), mine[id].mine)
      && Joint(HalfOf(y, mine[id].peer), HalfOf(x', id), !mine[id].mine)
  {
    hide EndOk, Balance, Joint, OffersWhole, SaysLinked, KeepsLinked, ChangeOf, Step, Enabled, Room, HalfOf, Moved, Can, Awaits;
    StepChanges(x, i);
    MoverLinked(x, y, mine, theirs, i);
    var c := ChangeOf(x, i);
    EndMoves(HalfOf(x, c.id), HalfOf(y, mine[c.id].peer), mine[c.id].mine, c.move);
  }

  /** A channel just accepted meets an open still pending. */
  lemma BirthJoint(x: End, y: End, mine: map<u32, Link>, theirs: map<u32, Link>, i: Input)
    requires Stepping(x, y, mine, theirs, i) && Accepts(ChangeOf(x, i))
    ensures Step(x, i).ran <= |Step(x, i).log|
    ensures var c, x' := ChangeOf(x, i), Step(x, i);
      && Joint(HalfOf(x', c.id), HalfOf(y, c.half.stage.chan.peer), false)
      && Joint(HalfOf(y, c.half.stage.chan.peer), HalfOf(x', c.id), true)
  {
    hide Balance, Joint, OffersWhole, Mutual, ChangeOf, Step, Enabled, Room, LocalOk, DialsOk, Capped, Gather;
    StepChanges(x, i);
    AcceptsPending(x, y, mine, theirs, i);
    var c := ChangeOf(x, i);
    var peer := c.half.stage.chan.peer;
    var serving :| c.half == Accepted(c.id, peer, LOCAL_WINDOW, MAX_CHUNK, serving);
    UnlinkedHeard(x, y, mine, theirs, c.id);
    UnlinkedHeard(y, x, theirs, mine, peer);
    PendingHalf(y, peer);
    var s := PendingStage(y.table.pending[peer]);
    ChannelPair.StartOk(c.id, peer, s.session, serving, s.endOnClose);
  }

  lemma PendingHalf(y: End, id: u32)
    requires EndOk(y) && id in y.table.pending && HalfOf(y, id).heard == []
    ensures var s := PendingStage(y.table.pending[id]); HalfOf(y, id) == Opened(s.session, s.endOnClose)
  {
    hide Gather, Windows, Streams, Flags, Orderly, DataFirst, WellSpoken, Capped, DialsOk;
    assert LocalOk(HalfOf(y, id));
  }

  /** Nothing was ever said to an id that no link names. */
  lemma UnlinkedHeard(x: End, y: End, mine: map<u32, Link>, theirs: map<u32, Link>, id: u32)
    requires Facing(x, y, mine, theirs) && Facing(y, x, theirs, mine) && id !in mine
    ensures HalfOf(x, id).heard == []
  {
    hide EndOk, Balance, Joint, KeepsLinked, OffersWhole;
    assert AllLinked(x.heard, theirs);
    NoneHeard(x.heard, theirs, mine, id);
  }

  lemma {:induction false} NoneHeard(log: seq<Packet>, theirs: map<u32, Link>, mine: map<u32, Link>, id: u32)
    requires AllLinked(log, theirs) && Mutual(theirs, mine) && id !in mine
    ensures Gather(log, HeardBy(id)) == []
  {
    if log != [] {
      var before, p := log[..|log| - 1], log[|log| - 1];
      assert forall k :: 0 <= k < |before| ==> before[k] == log[k];
      NoneHeard(before, theirs, mine, id);
      assert Linked(p, theirs);
    }
  }

  /** After a step, each link of the mover's side, and each of the other's. */
  lemma StillJointMine(x: End, y: End, mine: map<u32, Link>, theirs: map<u32, Link>, i: Input, k: u32)
    requires Stepping(x, y, mine, theirs, i) && k in Mine(mine, ChangeOf(x, i))
    ensures Step(x, i).ran <= |Step(x, i).log|
    ensures var link := Mine(mine, ChangeOf(x, i))[k]; Joint(HalfOf(Step(x, i), k), HalfOf(y, link.peer), link.mine)
  {
    hide EndOk, Balance, Joint, OffersWhole, SaysLinked, KeepsLinked, ChangeOf, Step, Enabled, Room, HalfOf, Moved, Can, Awaits, Mutual;
    StepChanges(x, i);
    var c := ChangeOf(x, i);
    if Accepts(c) && k == c.id { BirthJoint(x, y, mine, theirs, i); }
    else if c.Moves? && k == c.id { MovesJoint(x, y, mine, theirs, i); }
    else { ElsewhereSame(x, y, mine, theirs, i, k); }
  }

  /** Any other step leaves the linked channels alone. */
  lemma ElsewhereSame(x: End, y: End, mine: map<u32, Link>, theirs: map<u32, Link>, i: Input, k: u32)
    requires Stepping(x, y, mine, theirs, i) && k in mine && !(ChangeOf(x, i).Moves? && k == ChangeOf(x, i).id)
    ensures Step(x, i).ran <= |Step(x, i).log| && HalfOf(Step(x, i), k) == HalfOf(x, k)
  {
    hide EndOk, Balance, Joint, OffersWhole, SaysLinked, KeepsLinked, ChangeOf, Step, Enabled, Room, HalfOf, Moved, Can, Mutual;
    StepChanges(x, i);
    var c := ChangeOf(x, i);
    if c.Births? { FreshId(x, i, mine); }
    if c.Drops? { DropShape(x, i); RefusalShows(x, y, mine, c.id); }
  }

  lemma DropShape(x: End, i: Input)
    requires Enabled(x, i) && ChangeOf(x, i).Drops?
    ensures i.Arrives? && i.packet == Refused(ChangeOf(x, i).id)
  {
    hide OnPacket, OnOrder, CanAct, HalfOf;
  }

  lemma StillJointTheirs(x: End, y: End, mine: map<u32, Link>, theirs: map<u32, Link>, i: Input, k: u32)
    requires Stepping(x, y, mine, theirs, i) && k in Theirs(theirs, ChangeOf(x, i))
    ensures Step(x, i).ran <= |Step(x, i).log|
    ensures var link := Theirs(theirs, ChangeOf(x, i))[k]; Joint(HalfOf(y, k), HalfOf(Step(x, i), link.peer), link.mine)
  {
    hide EndOk, Balance, Joint, OffersWhole, SaysLinked, KeepsLinked, ChangeOf, Step, Enabled, Room, HalfOf, Moved, Can, Awaits;
    StepChanges(x, i);
    var c := ChangeOf(x, i);
    if Accepts(c) && k == c.half.stage.chan.peer { BirthJoint(x, y, mine, theirs, i); }
    else if c.Moves? && theirs[k].peer == c.id { MovesJoint(x, y, mine, theirs, i); }
    else { ElsewhereSame(x, y, mine, theirs, i, theirs[k].peer); }
  }

  lemma StillPrefix(x: End, y: End, mine: map<u32, Link>, theirs: map<u32, Link>, i: Input)
    requires Stepping(x, y, mine, theirs, i)
    ensures Step(x, i).heard <= y.out && y.heard <= Step(x, i).out
  {
    hide EndOk, Balance, Joint, OffersWhole, SaysLinked, KeepsLinked, ChangeOf, Step, Enabled, Room, Mutual, SentIn;
    StepOut(x, i);
  }

  /** Whichever end steps, both still face each other as they did. */
  lemma StepFaces(x: End, y: End, mine: map<u32, Link>, theirs: map<u32, Link>, i: Input)
    requires Stepping(x, y, mine, theirs, i)
    ensures var x', c := Step(x, i), ChangeOf(x, i);
      Facing(x', y, Mine(mine, c), Theirs(theirs, c)) && Facing(y, x', Theirs(theirs, c), Mine(mine, c))
  {
    hide EndOk, Balance, Joint, OffersWhole, SaysLinked, KeepsLinked, ChangeOf, Step, Enabled, Room, HalfOf, Mutual, Mine, Theirs;
    var x', c := Step(x, i), ChangeOf(x, i);
    EndKeeps(x, i);
    StepRan(x, i);
    StillPrefix(x, y, mine, theirs, i);
    StillMutual(x, y, mine, theirs, i);
    StillSaysLinked(x, y, mine, theirs, i);
    StillKeepsLinked(x, y, mine, theirs, i);
    StillOffersWhole(x, y, i);
    forall id: u32 ensures Balance(x', y, Mine(mine, c), id) { StillBalanced(x, y, mine, theirs, i, id); }
    forall id: u32 ensures Balance(y, x', Theirs(theirs, c), id) { PeerBalanced(x, y, mine, theirs, i, id); }
    forall k <- Mine(mine, c) ensures Joint(HalfOf(x', k), HalfOf(y, Mine(mine, c)[k].peer), Mine(mine, c)[k].mine) {
      StillJointMine(x, y, mine, theirs, i, k);
    }
    forall k <- Theirs(theirs, c) ensures Joint(HalfOf(y, k), HalfOf(x', Theirs(theirs, c)[k].peer), Theirs(theirs, c)[k].mine) {
      StillJointTheirs(x, y, mine, theirs, i, k);
    }
  }

  lemma NextKeeps(s: System, w: Who, i: Input)
    requires Inv(s) && Ready(s, w, i) && Room(At(s, w), i)
    ensures Inv(Next(s, w, i))
  {
    hide Facing, ChangeOf, Step, Enabled, Room;
    if w.Left? { StepFaces(s.left, s.right, s.leftLinks, s.rightLinks, i); }
    else { StepFaces(s.right, s.left, s.rightLinks, s.leftLinks, i); }
  }

  // ------------------------------------------------------------ every run

  ghost predicate SystemRun(states: seq<System>, steps: seq<(Who, Input)>) {
    && |states| == |steps| + 1 && states[0] == BEGIN
    && forall k :: 0 <= k < |steps| ==>
         Ready(states[k], steps[k].0, steps[k].1) && states[k + 1] == Next(states[k], steps[k].0, steps[k].1)
  }

  predicate IdsLast(s: System) { s.left.ids <= U32 && s.right.ids <= U32 }

  lemma BeginOk()
    ensures Inv(BEGIN)
  {
    hide EndOk, HalfOf, Joint;
    MuxEnd.StartOk();
    forall id: u32 ensures Balance(START, START, map[], id) {
      assert Asks(START, id) == 0 && Refusals(START, id) == 0 && Pool(START, id) == 0;
    }
  }

  lemma NextIds(s: System, w: Who, i: Input)
    requires Ready(s, w, i)
    ensures s.left.ids <= Next(s, w, i).left.ids && s.right.ids <= Next(s, w, i).right.ids
    ensures IdsLast(Next(s, w, i)) ==> Room(At(s, w), i)
  {
    hide ChangeOf, Step, Enabled;
    IdsGrow(At(s, w), i);
  }

  lemma {:induction false} IdsLastBefore(states: seq<System>, steps: seq<(Who, Input)>, k: nat)
    requires SystemRun(states, steps) && IdsLast(states[|steps|]) && k <= |steps|
    ensures IdsLast(states[k])
    decreases |steps| - k
  {
    hide Ready, Next;
    if k < |steps| {
      IdsLastBefore(states, steps, k + 1);
      NextIds(states[k], steps[k].0, steps[k].1);
    }
  }

  /** Every reachable state of the two ends, while neither has given out more than 2^32 ids. */
  lemma {:induction false} EverySystem(states: seq<System>, steps: seq<(Who, Input)>, k: nat)
    requires SystemRun(states, steps) && IdsLast(states[|steps|]) && k <= |steps|
    ensures Inv(states[k])
  {
    hide Ready, Next, Inv;
    if k == 0 {
      BeginOk();
    } else {
      EverySystem(states, steps, k - 1);
      IdsLastBefore(states, steps, k);
      NextIds(states[k - 1], steps[k - 1].0, steps[k - 1].1);
      NextKeeps(states[k - 1], steps[k - 1].0, steps[k - 1].1);
    }
  }

  ghost predicate Reachable(s: System) {
    exists states: seq<System>, steps: seq<(Who, Input)> ::
      SystemRun(states, steps) && s == states[|steps|] && IdsLast(s)
  }

  lemma ReachableOk(s: System)
    requires Reachable(s)
    ensures Inv(s)
  {
    hide Inv, Ready, Next;
    var states: seq<System>, steps: seq<(Who, Input)> :| SystemRun(states, steps) && s == states[|steps|] && IdsLast(s);
    EverySystem(states, steps, |steps|);
  }

  /** Both ends' queues are read no further than they reach. */
  predicate Sound(s: System) {
    s.left.ran <= |s.left.log| && s.right.ran <= |s.right.log|
  }

  /** One end of a link, and the other. */
  ghost function Near(s: System, w: Who, id: u32): Half
    requires Sound(s)
  {
    HalfOf(At(s, w), id)
  }

  ghost function Far(s: System, w: Who, id: u32): Half
    requires Sound(s) && id in Links(s, w)
  {
    HalfOf(At(s, Other(w)), Links(s, w)[id].peer)
  }

  lemma LinkJoint(s: System, w: Who, id: u32)
    requires Reachable(s) && id in Links(s, w)
    ensures Sound(s)
    ensures var mine := Links(s, w)[id].mine;
      Joint(Near(s, w, id), Far(s, w, id), mine) && Joint(Far(s, w, id), Near(s, w, id), !mine)
  {
    hide Joint, HalfOf, Reachable, EndOk, Balance, SaysLinked, KeepsLinked, OffersWhole;
    ReachableOk(s);
  }

  /** No packet one end sends is ever an error at the other: no window is overflowed, no confirmation is
  for an unknown channel. */
  lemma NothingRefused(s: System, w: Who, v: Verdict)
    requires Reachable(s) && |At(s, w).heard| < |At(s, Other(w)).out|
    ensures OnPacket(At(s, w).table, At(s, Other(w)).out[|At(s, w).heard|], v).Effect?
  {
    hide Reachable, Facing, OnPacket;
    ReachableOk(s);
    if w.Left? { PacketFine(s.left, s.right, s.leftLinks, s.rightLinks, v); }
    else { PacketFine(s.right, s.left, s.rightLinks, s.leftLinks, v); }
  }

  lemma PacketFine(x: End, y: End, mine: map<u32, Link>, theirs: map<u32, Link>, v: Verdict)
    requires Facing(x, y, mine, theirs) && Facing(y, x, theirs, mine) && |x.heard| < |y.out|
    ensures OnPacket(x.table, y.out[|x.heard|], v).Effect?
  {
    hide EndOk, Balance, SaysLinked, KeepsLinked, OffersWhole, Mutual, Gather, Joint, OnMsg, Awaits;
    var p := y.out[|x.heard|];
    if p.To? {
      NextTalk(x, y, mine, theirs, p);
      var j := mine[p.id].peer;
      MutualAt(mine, theirs, p.id);
      NeverRefused(HalfOf(x, p.id), HalfOf(y, j), mine[p.id].mine, p.msg);
      StageTells(x, p.id, p.msg);
    }
  }

  lemma MutualAt(mine: map<u32, Link>, theirs: map<u32, Link>, id: u32)
    requires Mutual(mine, theirs) && id in mine
    ensures mine[id].peer in theirs && theirs[mine[id].peer] == Link(id, !mine[id].mine)
  {
  }

  lemma StageTells(x: End, id: u32, m: Msg)
    requires x.ran <= |x.log| && OnMsg(StageOf(x, id), m).Turn?
    ensures OnTo(x.table, id, m).Effect?
  {
  }

  /** Window conservation: for every channel of every run, in each direction, from the moment it is
  accepted until one end lets go of it. */
  lemma WindowsConserved(s: System, w: Who, id: u32)
    requires Reachable(s) && id in Links(s, w)
    requires Links(s, w)[id].peer in At(s, Other(w)).table.channels
    requires id in At(s, w).table.channels || id in At(s, w).table.pending
    ensures Sound(s)
    ensures var x, y := Near(s, w, id), Far(s, w, id);
      && x.ran <= |x.issued| && |y.heard| <= |x.out| && y.task.taken <= |y.task.told| && y.ran <= |y.issued| && |x.heard| <= |y.out|
      && y.stage.Held?
      && Credit(x)
         + Charged(x.issued[x.ran..]) + Carried(x.out[|y.heard|..])
         + Handed(y.task.told[y.task.taken..]) + y.task.discarded
         + Reported(y.issued[y.ran..]) + y.stage.chan.pendingConsumed
         + Offered(y.out[|x.heard|..])
         == LOCAL_WINDOW
  {
    hide Joint, Reachable, Gather, Charged, Carried, Handed, Reported, Offered;
    LinkJoint(s, w, id);
    Conserved(Near(s, w, id), Far(s, w, id), Links(s, w)[id].mine);
  }

  /** No sender is left waiting for credit: with the channel's commands run, its packets read, and what
  was delivered consumed, any chunk it can ask for is granted. */
  lemma NoStall(s: System, w: Who, id: u32, chunk: Chunk)
    requires Reachable(s) && id in Links(s, w)
    ensures Sound(s)
    ensures var x, y := Near(s, w, id), Far(s, w, id);
      x.stage.Held? && y.stage.Held? && Drained(x, y) && y.task.taken == |y.task.told| && y.task.discarded == 0 ==>
        && x.stage.chan.credit > LOCAL_WINDOW - WINDOW_REFILL >= MAX_CHUNK
        && (0 < |chunk.bytes| <= MAX_CHUNK && !x.task.finished && Cmd.Eof !in x.issued ==> CanAct(x, Spend(chunk)))
  {
    hide Joint, Reachable, HalfOf, Drained, CanAct;
    LinkJoint(s, w, id);
    var x, y := Near(s, w, id), Far(s, w, id);
    if x.stage.Held? && y.stage.Held? && Drained(x, y) && y.task.taken == |y.task.told| && y.task.discarded == 0 {
      NeverStalls(x, y, Links(s, w)[id].mine, chunk);
    }
  }

  /** Closing: an end lets go of a channel exactly when it has both said and heard a close; and when
  either has said one and the wires are empty, neither holds the channel. */
  lemma ClosesTogether(s: System, w: Who, id: u32)
    requires Reachable(s) && id in Links(s, w)
    ensures Sound(s)
    ensures var x, y := Near(s, w, id), Far(s, w, id);
      && (x.stage.Gone? <==> Msg.Close in x.out && Msg.Close in x.heard)
      && ((Msg.Close in x.out || Msg.Close in y.out) && |y.heard| == |x.out| && |x.heard| == |y.out| ==>
            x.stage.Gone? && y.stage.Gone?)
  {
    hide Joint, Reachable, HalfOf;
    LinkJoint(s, w, id);
    var x, y, mine := Near(s, w, id), Far(s, w, id), Links(s, w)[id].mine;
    GoneWhenBothClose(x, y, mine);
    if (Msg.Close in x.out || Msg.Close in y.out) && |y.heard| == |x.out| && |x.heard| == |y.out| {
      CloseReachesBoth(x, y, mine);
    }
  }

  /** What one task sent is what the other is told, in order and each chunk once. */
  lemma ChunksInOrder(s: System, w: Who, id: u32)
    requires Reachable(s) && id in Links(s, w)
    ensures Sound(s)
    ensures var x, y := Near(s, w, id), Far(s, w, id);
      && Gather(y.task.told, EventChunk) <= Gather(x.issued, CmdChunk)
      && (!x.stage.Gone? && Drained(x, y) ==> Gather(y.task.told, EventChunk) == Gather(x.issued, CmdChunk))
  {
    hide Joint, Reachable, HalfOf, Gather, Drained;
    LinkJoint(s, w, id);
    Delivered(Near(s, w, id), Far(s, w, id), Links(s, w)[id].mine);
  }

  /** The success or failure a session's task gives reaches the other task as given, in order. */
  lemma RepliesAsGiven(s: System, w: Who, id: u32)
    requires Reachable(s) && id in Links(s, w)
    ensures Sound(s)
    ensures var x, y := Near(s, w, id), Far(s, w, id);
      x.stage.Held? && x.stage.chan.session ==>
        && Gather(y.task.told, EventReply) <= Gather(x.issued, CmdReply)
        && (y.stage.Held? && Drained(x, y) ==> Gather(y.task.told, EventReply) == Gather(x.issued, CmdReply))
  {
    hide Joint, Reachable, HalfOf, Gather, Drained;
    LinkJoint(s, w, id);
    var x, y := Near(s, w, id), Far(s, w, id);
    if x.stage.Held? && x.stage.chan.session { RepliesReach(x, y, Links(s, w)[id].mine); }
  }

  /** Requests on a forwarded stream: the channel task that sent them is told a refusal for each that wants a
  reply, and no other. */
  lemma RefusalsAsAsked(s: System, w: Who, id: u32)
    requires Reachable(s) && id in Links(s, w)
    ensures Sound(s)
    ensures var x, y := Near(s, w, id), Far(s, w, id);
      x.stage.Held? && !x.stage.chan.session ==>
        && Gather(y.task.told, EventReply) <= Gather(x.heard, Declines) <= Gather(y.out, Declines)
        && (y.stage.Held? && Drained(x, y) ==> Gather(y.task.told, EventReply) == Gather(y.out, Declines))
  {
    hide Joint, Reachable, HalfOf, Gather, Drained;
    LinkJoint(s, w, id);
    var x, y := Near(s, w, id), Far(s, w, id);
    if x.stage.Held? && !x.stage.chan.session { RefusalsReach(x, y, Links(s, w)[id].mine); }
  }

  /** No task is told of data after an end of file. */
  lemma NoDataAfterEof(s: System, w: Who, id: u32)
    requires Reachable(s) && id in Links(s, w)
    ensures Sound(s) && DataThenEof(Far(s, w, id).task.told)
  {
    hide Joint, Reachable, HalfOf, DataThenEof;
    LinkJoint(s, w, id);
    ToldInOrder(Near(s, w, id), Far(s, w, id), Links(s, w)[id].mine);
  }

  /** With nothing between the ends of a channel both still hold, an end of file has arrived exactly when
  it was asked for, and on a session every request, in its place among the data. */
  lemma EofArrives(s: System, w: Who, id: u32)
    requires Reachable(s) && id in Links(s, w)
    ensures Sound(s)
    ensures var x, y := Near(s, w, id), Far(s, w, id);
      x.stage.Held? && y.stage.Held? && Drained(x, y) ==>
        && (Event.Eof in y.task.told <==> Cmd.Eof in x.issued)
        && (y.stage.chan.session ==> Gather(y.task.told, EventTalk) == Gather(x.issued, CmdTalk))
  {
    hide Joint, Reachable, HalfOf, Gather, Drained;
    LinkJoint(s, w, id);
    var x, y := Near(s, w, id), Far(s, w, id);
    if x.stage.Held? && y.stage.Held? && Drained(x, y) { EofReaches(x, y, Links(s, w)[id].mine); }
  }

  /** Every open is answered: with the wires read, the connects resolved and the queue run, none of an
  end's opens is still pending. */
  lemma OpensAnswered(s: System, w: Who)
    requires Reachable(s)
    requires var x, y := At(s, w), At(s, Other(w));
      |x.heard| == |y.out| && |y.heard| == |x.out| && y.dialing == [] && y.ran == |y.log|
    ensures At(s, w).table.pending == map[]
  {
    hide Reachable, Facing, HalfOf;
    ReachableOk(s);
    var x, y := At(s, w), At(s, Other(w));
    forall id <- x.table.pending ensures false {
      Unanswered(x, y, Links(s, w), Links(s, Other(w)), id);
    }
  }

  lemma Unanswered(x: End, y: End, mine: map<u32, Link>, theirs: map<u32, Link>, id: u32)
    requires Facing(x, y, mine, theirs) && Facing(y, x, theirs, mine)
    requires |x.heard| == |y.out| && |y.heard| == |x.out| && y.dialing == [] && y.ran == |y.log|
    ensures id !in x.table.pending
  {
    hide EndOk, Joint, SaysLinked, KeepsLinked, OffersWhole, Mutual, Total, HalfOf;
    assert x.heard == y.out && y.heard == x.out && y.log[..y.ran] == y.log;
    if id in mine {
      LinkedAnswered(x, y, mine, theirs, id);
    } else {
      assert Balance(x, y, mine, id);
      NoDials(id);
    }
  }

  /** A link whose packets are all read is confirmed. */
  lemma LinkedAnswered(x: End, y: End, mine: map<u32, Link>, theirs: map<u32, Link>, id: u32)
    requires Facing(x, y, mine, theirs) && Facing(y, x, theirs, mine) && id in mine && x.heard == y.out
    ensures id !in x.table.pending
  {
    hide Balance, OffersWhole, Gather, LocalOk, Capped, DialsOk, Relayed, Notified, Answered, Credited;
    assert AllLinked(y.out, theirs);
    SameTalk(y.out, theirs, mine, id);
  }
}
