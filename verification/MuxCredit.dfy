/** What a peer granted is all that is spent (src/connect/mux.rs; section 5.2 of RFC 4254).

One end against any peer: the credit of a channel, with all its task has spent of it, is the window in
the packet by which the peer opened the channel or confirmed it, and the adjustments heard since. The
grants are read off the packets received, not off the tables. */
module MuxCredit {
  import opened Bytes
  import opened Logs
  import opened Channel
  import opened Mux
  import opened MuxEnd

  /** An open of the peer's with its own id, window and packet size, or its confirmation of our open of `id`. */
  predicate Grants(p: Packet, id: u32, peer: u32, window: u32, max: u32) {
    if p.Open? then p == Packet.Open(peer, window, max)
    else p.To? && p.id == id && p.msg == Confirm(peer, window, max)
  }

  /** Where in what was received a channel's window was granted, and from where on it hears adjustments:
  at once, but for an open that a local connect came before. */
  datatype Grant = Grant(at: nat, born: nat, peer: u32, window: u32, max: u32)

  predicate Live(h: Half) { h.stage.Held? || h.stage.Gone? }

  predicate NoneLarger(issued: seq<Cmd>, most: nat) {
    forall k :: 0 <= k < |issued| && issued[k].Data? ==> |issued[k].chunk.bytes| <= most
  }

  /** Credit and spending come to what was granted, to less only once more was granted than credit can
  hold; and no chunk is larger than `most`. */
  ghost predicate Within(h: Half, granted: nat, most: nat) {
    && NoneLarger(h.issued, most)
    && match h.stage
       case Held(c) =>
         && c.largest == most
         && c.credit + Charged(h.issued) <= granted
         && (granted <= WINDOW_MAX ==> c.credit + Charged(h.issued) == granted)
       case _ => Charged(h.issued) <= granted
  }

  ghost function Granted(heard: seq<Packet>, id: u32, g: Grant): nat
    requires g.born <= |heard|
  {
    g.window + Adjusted(Gather(heard[g.born..], HeardBy(id)))
  }

  ghost predicate Entered(heard: seq<Packet>, h: Half, id: u32, g: Grant) {
    && g.at < g.born <= |heard| && Grants(heard[g.at], id, g.peer, g.window, g.max)
    && (heard[g.at].To? ==> g.born == g.at + 1)
    && (h.stage.Held? ==> h.stage.chan.peer == g.peer)
    && Within(h, Granted(heard, id, g), Largest(g.max))
  }

  ghost predicate Backed(heard: seq<Packet>, h: Half, id: u32) {
    exists g :: Entered(heard, h, id, g)
  }

  predicate AskedFor(heard: seq<Packet>, d: Dial) {
    Packet.Open(d.peer, d.window, d.max) in heard
  }

  /** Every connect, in flight or answered, is for an open received. */
  ghost predicate DialsAsked(e: End) {
    && (forall k :: 0 <= k < |e.dialing| ==> AskedFor(e.heard, e.dialing[k]))
    && (forall k :: 0 <= k < |e.log| && e.log[k].Connected? ==> AskedFor(e.heard, e.log[k].dial))
  }

  ghost predicate CreditOk(e: End)
    requires e.ran <= |e.log|
  {
    DialsAsked(e) && forall id: u32 :: Live(HalfOf(e, id)) ==> Backed(e.heard, HalfOf(e, id), id)
  }

  // ------------------------------------------------------------ one channel

  function Adds(move: Move): nat { if move.Hear? then MsgAdjust(move.msg) else 0 }

  lemma ActWithin(h: Half, act: Act, granted: nat, most: nat)
    requires Within(h, granted, most) && CanAct(h, act)
    ensures Within(Acted(h, act), granted, most)
  {
    hide Charged;
    var cmds := Issues(h.task, act);
    if cmds == [] {
      assert h.issued + cmds == h.issued;
    } else {
      assert cmds == [cmds[0]];
      CmdPush(h.issued, cmds[0]);
    }
  }

  /** Whatever happens on a channel that is open, its account stands, adjustments counted in. */
  lemma MoveWithin(h: Half, move: Move, granted: nat, most: nat)
    requires Live(h) && Within(h, granted, most) && Can(h, move)
    ensures Live(Moved(h, move)) && Within(Moved(h, move), granted + Adds(move), most)
    ensures Moved(h, move).stage.Held? ==> h.stage.Held? && Moved(h, move).stage.chan.peer == h.stage.chan.peer
  {
    hide Charged;
    if move.Act? { ActWithin(h, move.act, granted, most); }
  }

  // ------------------------------------------------------------ what was received grows

  lemma GrantedOn(heard: seq<Packet>, p: Packet, id: u32, g: Grant)
    requires g.born <= |heard|
    ensures Granted(heard + [p], id, g) == Granted(heard, id, g) + if p.To? && p.id == id then MsgAdjust(p.msg) else 0
  {
    hide Gather, Adjusted;
    assert (heard + [p])[g.born..] == heard[g.born..] + [p];
    GatherPush(heard[g.born..], p, HeardBy(id));
    var had := Gather(heard[g.born..], HeardBy(id));
    if p.To? && p.id == id { MsgPush(had, p.msg); } else { assert had + [] == had; }
  }

  /** A grant just made: nothing has been adjusted since. */
  lemma GrantedNow(heard: seq<Packet>, id: u32, g: Grant)
    requires g.born == |heard|
    ensures Granted(heard, id, g) == g.window
  {
    assert heard[g.born..] == [];
  }

  /** A channel that moved, or did not, while one packet more or none was received. */
  lemma StaysBacked(heard: seq<Packet>, heard': seq<Packet>, h: Half, h': Half, id: u32)
    requires Backed(heard, h, id) && (h'.stage.Held? ==> h.stage.Held? && h'.stage.chan.peer == h.stage.chan.peer)
    requires heard' == heard || exists p :: heard' == heard + [p]
    requires forall granted: nat, most: nat :: Within(h, granted, most) ==>
      Within(h', granted + if |heard'| == |heard| then 0 else Gives(heard'[|heard|], id), most)
    ensures Backed(heard', h', id)
  {
    hide Within, Granted;
    var g :| Entered(heard, h, id, g);
    if |heard'| > |heard| { GrantedOn(heard, heard'[|heard|], id, g); }
    assert Within(h, Granted(heard, id, g), Largest(g.max));
    assert Entered(heard', h', id, g);
  }

  function Gives(p: Packet, id: u32): nat { if p.To? && p.id == id then MsgAdjust(p.msg) else 0 }

  lemma SameBacked(heard: seq<Packet>, heard': seq<Packet>, h: Half, id: u32)
    requires Backed(heard, h, id)
    requires heard' == heard || exists p :: heard' == heard + [p] && Gives(p, id) == 0
    ensures Backed(heard', h, id)
  {
    hide Within;
    StaysBacked(heard, heard', h, h, id);
  }

  /** A channel born of an open received, or of the confirmation just received. */
  lemma BornBacked(heard: seq<Packet>, at: nat, h: Half, id: u32, peer: u32, window: u32, max: u32)
    requires at < |heard| && Grants(heard[at], id, peer, window, max) && (heard[at].To? ==> at == |heard| - 1)
    requires h.stage.Held? && h.stage.chan.peer == peer && h.stage.chan.credit == window
    requires h.stage.chan.largest == Largest(max) && h.issued == []
    ensures Backed(heard, h, id)
  {
    var g := Grant(at, |heard|, peer, window, max);
    GrantedNow(heard, id, g);
    assert Entered(heard, h, id, g);
  }

  // ------------------------------------------------------------ every step

  /** A message for this channel: heard by it, or the confirmation it was born of. */
  lemma HearBacked(heard: seq<Packet>, h: Half, id: u32, from: u32, m: Msg)
    requires LocalOk(h) && (Live(h) ==> Backed(heard, h, id)) && Can(h, Hear(m)) && Live(Moved(h, Hear(m)))
    ensures Backed(heard + [To(id, from, m)], Moved(h, Hear(m)), id)
  {
    hide Within, LocalOk, Moved, Can;
    var heard' := heard + [To(id, from, m)];
    if Live(h) {
      forall granted: nat, most: nat | Within(h, granted, most) ensures Within(Moved(h, Hear(m)), granted + MsgAdjust(m), most) {
        MoveWithin(h, Hear(m), granted, most);
      }
      StaysLive(h, Hear(m));
      StaysBacked(heard, heard', h, Moved(h, Hear(m)), id);
    } else {
      OpeningHears(h, m);
      BornBacked(heard', |heard|, Moved(h, Hear(m)), id, m.peer, m.window, m.max);
    }
  }

  lemma StaysLive(h: Half, move: Move)
    requires Live(h) && Can(h, move)
    ensures Moved(h, move).stage.Held? ==> h.stage.Held? && Moved(h, move).stage.chan.peer == h.stage.chan.peer
  {
  }

  lemma OpeningHears(h: Half, m: Msg)
    requires LocalOk(h) && !Live(h) && Can(h, Hear(m)) && Live(Moved(h, Hear(m)))
    ensures m.Confirm? && var h' := Moved(h, Hear(m)); h'.stage.Held? && h'.stage.chan.peer == m.peer && h'.stage.chan.credit == m.window && h'.stage.chan.largest == Largest(m.max) && h'.issued == []
  {
    hide Faithful, Windows, Streams, Flags, WellSpoken;
  }

  lemma WorkBacked(heard: seq<Packet>, h: Half, id: u32, move: Move)
    requires LocalOk(h) && (Live(h) ==> Backed(heard, h, id)) && !move.Hear? && Can(h, move) && Live(Moved(h, move))
    ensures Backed(heard, Moved(h, move), id)
  {
    hide Within, LocalOk, Moved, Can;
    LiveBefore(h, move);
    forall granted: nat, most: nat | Within(h, granted, most) ensures Within(Moved(h, move), granted + 0, most) {
      MoveWithin(h, move, granted, most);
    }
    StaysLive(h, move);
    StaysBacked(heard, heard, h, Moved(h, move), id);
  }

  lemma LiveBefore(h: Half, move: Move)
    requires LocalOk(h) && !move.Hear? && Can(h, move) && Live(Moved(h, move))
    ensures Live(h)
  {
    hide Faithful, Windows, Streams, Flags, WellSpoken;
  }

  lemma StepHeard(e: End, i: Input)
    requires Enabled(e, i)
    ensures Step(e, i).heard == e.heard + if i.Arrives? then [i.packet] else []
  {
    hide OnPacket, OnOrder, CanAct, HalfOf, Issues;
  }

  /** A channel accepted, against the open it answers. */
  lemma BirthBacked(e: End, i: Input)
    requires EndOk(e) && CreditOk(e) && Enabled(e, i) && ChangeOf(e, i).Births? && Live(ChangeOf(e, i).half)
    ensures Backed(Step(e, i).heard, ChangeOf(e, i).half.(heard := HalfOf(e, ChangeOf(e, i).id).heard), ChangeOf(e, i).id)
  {
    hide OnPacket, OnOrder, CanAct, HalfOf, HalvesOk;
    StepHeard(e, i);
    var c := ChangeOf(e, i);
    var h := c.half.(heard := HalfOf(e, c.id).heard);
    if i.Arrives? {
      BornBacked(e.heard + [i.packet], |e.heard|, h, c.id, i.packet.sender, i.packet.window, i.packet.max);
    } else {
      var d := e.log[e.ran].dial;
      assert AskedFor(e.heard, d);
      var at :| 0 <= at < |e.heard| && e.heard[at] == Packet.Open(d.peer, d.window, d.max);
      assert Step(e, i).heard == e.heard;
      BornBacked(e.heard, at, h, c.id, d.peer, d.window, d.max);
    }
  }

  lemma StepBacked(e: End, i: Input, id: u32)
    requires EndOk(e) && CreditOk(e) && Enabled(e, i) && Room(e, i)
    requires Step(e, i).ran <= |Step(e, i).log| && Live(HalfOf(Step(e, i), id))
    ensures Backed(Step(e, i).heard, HalfOf(Step(e, i), id), id)
  {
    hide OnPacket, OnOrder, CanAct, HalfOf, HalvesOk, Moved, Can, Step, Enabled, Room, LocalOk, TablesOk, DialsOk, Capped;
    HalfOk(e, id);
    StepChanges(e, i);
    StepHeard(e, i);
    var c := ChangeOf(e, i);
    if c.Still? || c.id != id {
      Elsewhere(e, i, id);
      SameBacked(e.heard, Step(e, i).heard, HalfOf(e, id), id);
    } else if c.Births? {
      BirthBacked(e, i);
    } else if c.Moves? {
      MovesBacked(e, i, c.move);
    }
  }

  lemma HalfOk(e: End, id: u32)
    requires EndOk(e)
    ensures e.ran <= |e.log| && LocalOk(HalfOf(e, id))
  {
    hide HalfOf, LocalOk;
  }

  lemma MovesBacked(e: End, i: Input, move: Move)
    requires EndOk(e) && CreditOk(e) && Enabled(e, i) && ChangeOf(e, i).Moves? && ChangeOf(e, i).move == move
    requires Can(HalfOf(e, ChangeOf(e, i).id), move) && Live(Moved(HalfOf(e, ChangeOf(e, i).id), move))
    ensures Backed(Step(e, i).heard, Moved(HalfOf(e, ChangeOf(e, i).id), move), ChangeOf(e, i).id)
  {
    hide OnPacket, OnOrder, CanAct, HalfOf, HalvesOk, Moved, Can, Step, LocalOk, TablesOk, DialsOk, Capped;
    StepHeard(e, i);
    var id := ChangeOf(e, i).id;
    HalfOk(e, id);
    if i.Arrives? {
      HearBacked(e.heard, HalfOf(e, id), id, i.packet.from, i.packet.msg);
    } else {
      assert e.heard + [] == e.heard;
      WorkBacked(e.heard, HalfOf(e, id), id, move);
    }
  }

  /** A step that is nothing to `id` brings it no adjustment. */
  lemma Elsewhere(e: End, i: Input, id: u32)
    requires Enabled(e, i) && (ChangeOf(e, i).Still? || ChangeOf(e, i).id != id)
    ensures Step(e, i).heard == e.heard || (i.Arrives? && Step(e, i).heard == e.heard + [i.packet] && Gives(i.packet, id) == 0)
  {
    hide OnPacket, OnOrder, CanAct, HalfOf, Step;
    StepHeard(e, i);
    assert e.heard + [] == e.heard;
  }

  lemma DialsAskedOn(e: End, i: Input)
    requires Enabled(e, i) && DialsAsked(e)
    ensures DialsAsked(Step(e, i))
  {
    hide OnPacket, OnOrder, HalfOf, Issues;
    StepHeard(e, i);
    match i
    case Arrives(p, v) => DialerAsked(e.table, p, v);
    case RunsOrder => NoDialer(e.table, e.log[e.ran]);
    case TaskActs(id, act) => ActAsked(e, id, act);
    case _ =>
  }

  lemma ActAsked(e: End, id: u32, act: Act)
    requires Enabled(e, TaskActs(id, act)) && DialsAsked(e)
    ensures DialsAsked(Step(e, TaskActs(id, act)))
  {
    hide Gather, Issues;
    OrdersOf(id, Issues(e.tasks[id], act));
  }

  lemma DialerAsked(t: Table, p: Packet, v: Verdict)
    requires OnPacket(t, p, v).Effect?
    ensures OnPacket(t, p, v).spawn.Dialer? ==> var d := OnPacket(t, p, v).spawn.dial; p == Packet.Open(d.peer, d.window, d.max)
  {
    hide OnMsg;
  }

  lemma NoDialer(t: Table, o: Order)
    ensures !OnOrder(t, o).spawn.Dialer?
  {
    hide OnCmd;
  }

  lemma OrdersOf(id: u32, cmds: seq<Cmd>)
    requires |cmds| <= 1
    ensures forall k :: 0 <= k < |Orders(id, cmds)| ==> Orders(id, cmds)[k].Of?
  {
    if cmds != [] { assert cmds[1..] == []; }
  }

  lemma CreditKept(e: End, i: Input)
    requires EndOk(e) && CreditOk(e) && Enabled(e, i) && Room(e, i)
    ensures Step(e, i).ran <= |Step(e, i).log| && CreditOk(Step(e, i))
  {
    hide EndOk, Enabled, Step, Room, HalfOf, Backed, DialsAsked, Live;
    StepRan(e, i);
    DialsAskedOn(e, i);
    forall id: u32 | Live(HalfOf(Step(e, i), id)) ensures Backed(Step(e, i).heard, HalfOf(Step(e, i), id), id) {
      StepBacked(e, i, id);
    }
  }

  lemma CreditStarts()
    ensures CreditOk(START)
  {
  }

  // ------------------------------------------------------------ every run

  lemma {:induction false} EveryCredit(states: seq<End>, inputs: seq<Input>, k: nat)
    requires IsRun(states, inputs) && states[|inputs|].ids <= U32 && k <= |inputs|
    ensures states[k].ran <= |states[k].log| && CreditOk(states[k])
  {
    hide Enabled, Step, ChangeOf, EndOk, CreditOk;
    if k == 0 {
      CreditStarts();
    } else {
      EveryRun(states, inputs, k - 1);
      EveryCredit(states, inputs, k - 1);
      IdsGrow(states[k - 1], inputs[k - 1]);
      IdsGrowOn(states, inputs, k);
      RoomLeft(states[k - 1], inputs[k - 1]);
      CreditKept(states[k - 1], inputs[k - 1]);
    }
  }

  lemma RoomLeft(e: End, i: Input)
    requires Enabled(e, i) && Step(e, i).ids <= U32
    ensures Room(e, i)
  {
    hide Enabled, Step, ChangeOf;
    IdsGrow(e, i);
  }

  /** Of every channel there is or was, in every state of every run against any peer: some packet received
  granted its window, and its credit and all its task issued come to that window and the adjustments
  received since, or to less once that is more than credit can hold. */
  lemma CreditGranted(states: seq<End>, inputs: seq<Input>, k: nat, id: u32)
    requires IsRun(states, inputs) && states[|inputs|].ids <= U32 && k <= |inputs| && id in states[k].tasks
    ensures states[k].ran <= |states[k].log|
    ensures exists g :: Entered(states[k].heard, HalfOf(states[k], id), id, g)
  {
    EveryRun(states, inputs, k);
    EveryCredit(states, inputs, k);
    hide Gather, HalvesOk, DialsOk, Entered;
    assert Live(HalfOf(states[k], id));
  }

  /** The bytes an end says on a channel never exceed what its peer granted there, and no chunk of them
  exceeds the packet size the peer named: but for a size of nought, where chunks are of one byte. */
  lemma BytesGranted(states: seq<End>, inputs: seq<Input>, k: nat, id: u32)
    requires IsRun(states, inputs) && states[|inputs|].ids <= U32 && k <= |inputs| && id in states[k].tasks
    ensures exists g: Grant ::
      && g.at < g.born <= |states[k].heard| && Grants(states[k].heard[g.at], id, g.peer, g.window, g.max)
      && Carried(Gather(states[k].out, SaidBy(id))) <= g.window + Adjusted(Gather(states[k].heard[g.born..], HeardBy(id)))
      && forall m :: m in Gather(states[k].out, SaidBy(id)) && m.Data? ==> |m.chunk.bytes| <= g.max || |m.chunk.bytes| == 1
  {
    CreditGranted(states, inputs, k, id);
    EveryRun(states, inputs, k);
    hide HalfOf, EndOk, Carried, Charged, Adjusted, Gather, IsRun, LocalOk, Within;
    var e := states[k];
    HalfOk(e, id);
    HalfSays(e, id);
    var h := HalfOf(e, id);
    var g :| Entered(e.heard, h, id, g);
    OnceEntered(e.heard, h, id, g);
  }

  lemma OnceEntered(heard: seq<Packet>, h: Half, id: u32, g: Grant)
    requires LocalOk(h) && Entered(heard, h, id, g)
    ensures Carried(h.out) <= g.window + Adjusted(Gather(heard[g.born..], HeardBy(id)))
    ensures forall m :: m in h.out && m.Data? ==> |m.chunk.bytes| <= g.max || |m.chunk.bytes| == 1
  {
    hide LocalOk, Carried, Charged, Adjusted, Gather;
    SaidWithin(h);
    forall m | m in h.out && m.Data? ensures |m.chunk.bytes| <= g.max || |m.chunk.bytes| == 1 {
      SaidSmall(h, Largest(g.max), m);
    }
  }

  lemma HalfSays(e: End, id: u32)
    requires e.ran <= |e.log|
    ensures HalfOf(e, id).out == Gather(e.out, SaidBy(id))
  {
  }

  lemma SaidWithin(h: Half)
    requires LocalOk(h)
    ensures Carried(h.out) <= Charged(h.issued)
  {
    hide Windows, Flags, WellSpoken, Orderly, DataFirst;
    if h.stage.Held? || h.stage.Gone? {
      TotalPrefix(Gather(h.out, MsgChunk), Gather(h.issued[..h.ran], CmdChunk), ChunkLen);
      CmdPrefix(h.issued[..h.ran], h.issued);
    } else {
      assert Gather<Msg, Chunk>([], MsgChunk) == [];
    }
  }

  /** What is said of a chunk was issued. */
  lemma SaidSmall(h: Half, most: nat, m: Msg)
    requires LocalOk(h) && NoneLarger(h.issued, most) && m in h.out && m.Data?
    ensures |m.chunk.bytes| <= most
  {
    hide Windows, Flags, WellSpoken, Orderly, DataFirst;
    InGather(h.out, m);
    InIssued(h.issued[..h.ran], m.chunk);
  }

  lemma {:induction false} InGather(log: seq<Msg>, m: Msg)
    requires m in log && m.Data?
    ensures m.chunk in Gather(log, MsgChunk)
  {
    if m != log[|log| - 1] { InGather(log[..|log| - 1], m); }
  }

  lemma {:induction false} InIssued(log: seq<Cmd>, c: Chunk)
    requires c in Gather(log, CmdChunk)
    ensures Cmd.Data(c) in log
  {
    if !(log[|log| - 1].Data? && log[|log| - 1].chunk == c) { InIssued(log[..|log| - 1], c); }
  }
}
