/** The two ends of one channel (src/connect/mux.rs; sections 5.1 to 5.3 of RFC 4254).

Each end hears what the other said, in order. The window accounts of the two ends, which each keeps
against any peer, then add up across the pair: credit, bytes and grants always make up one window in
each direction. */
module ChannelPair {
  import opened Bytes
  import opened Logs
  import opened Channel

  /** The end that opened the channel, and the end that accepted it. */
  datatype Pair = Pair(opener: Half, acceptor: Half)

  /** Credit a message brings. */
  function MsgOffer(m: Msg): nat {
    match m
    case Confirm(_, window, _) => window
    case Adjust(add) => add
    case _ => 0
  }

  ghost function Offered(log: seq<Msg>): nat { Total(log, MsgOffer) }

  /** The credit an end starts with: the accepting end has it from the open itself. */
  function Base(mine: bool): nat { if mine then 0 else LOCAL_WINDOW }

  // ------------------------------------------------------------ the invariant

  ghost predicate Heard(x: Half, y: Half, mine: bool) {
    && x.heard <= y.out
    && (if mine then y.out != [] && y.out[0].Confirm? && y.out[0].max == MAX_CHUNK else y.out == [] || !y.out[0].Confirm?)
    && match x.stage
       case Absent => false
       case Opening(_, _) => mine && x.heard == []
       case Held(c) => Msg.Close !in x.heard && (mine ==> x.heard != []) && c.largest == MAX_CHUNK
       case Gone => Msg.Close in x.heard && (mine ==> x.heard != [])
  }

  /** Every chunk heard was handed to the channel task, in order. */
  ghost predicate Relayed(x: Half) {
    Gather(x.task.told, EventChunk) == Gather(x.heard, MsgChunk)
  }

  /** What the channel task is told of a message: requests only on a session. */
  function Heralds(session: bool): Msg -> seq<Event> {
    (m: Msg) =>
      match m
      case Data(chunk) => [Event.Data(chunk)]
      case Eof => [Event.Eof]
      case Close => [Event.Close]
      case Request(wantReply) => if session then [Event.Request(wantReply)] else []
      case Reply(ok) => [Event.Reply(ok)]
      case _ => []
  }

  /** The channel task is told every message heard, in order, up to the close. */
  ghost predicate Notified(x: Half) {
    match x.stage
    case Held(c) => x.task.told == Gather(x.heard, Heralds(c.session))
    case Gone =>
      && x.task.told != [] && x.task.told[|x.task.told| - 1] == Event.Close
      && exists session: bool :: x.task.told <= Gather(x.heard, Heralds(session))
    case _ => true
  }

  /** One refusal for a request that wants a reply. */
  function Declines(m: Msg): seq<bool> { if m.Request? && m.wantReply then [false] else [] }

  /** On a channel that is no session, the replies said are the refusals of what was asked. */
  ghost predicate Answered(x: Half) {
    x.stage.Held? && !x.stage.chan.session ==> Gather(x.out, MsgReply) == Gather(x.heard, Declines)
  }

  ghost predicate Credited(x: Half, y: Half, mine: bool) {
    && Base(mine) + Offered(y.out) == LOCAL_WINDOW + Adjusted(y.out)
    && match x.stage
       case Held(c) => c.credit + Charged(x.issued) == Base(mine) + Offered(x.heard)
       case _ => Charged(x.issued) <= Base(mine) + Offered(x.heard)
  }

  /** How end `x` stands to end `y`. */
  ghost predicate Joint(x: Half, y: Half, mine: bool) {
    LocalOk(x) && Heard(x, y, mine) && Relayed(x) && Notified(x) && Answered(x) && Credited(x, y, mine)
  }

  ghost predicate PairInv(p: Pair) {
    Joint(p.opener, p.acceptor, true) && Joint(p.acceptor, p.opener, false)
  }

  lemma StartOk(id: u32, peer: u32, session: bool, serving: bool, endOnClose: bool)
    ensures PairInv(Pair(Opened(session, endOnClose), Accepted(id, peer, LOCAL_WINDOW, MAX_CHUNK, serving)))
  {
    AcceptedOk(id, peer, LOCAL_WINDOW, MAX_CHUNK, serving);
    NothingHeard(serving);
    var out := Accepted(id, peer, LOCAL_WINDOW, MAX_CHUNK, serving).out;
    MsgPush([], out[0]);
    TotalPush([], out[0], MsgOffer);
    assert [] + [out[0]] == out;
  }

  lemma NothingHeard(session: bool)
    ensures Gather([], Heralds(session)) == []
  {
  }

  // ------------------------------------------------------------ bounds across the pair

  lemma OfferPush(log: seq<Msg>, m: Msg)
    ensures Offered(log + [m]) == Offered(log) + MsgOffer(m)
  {
    TotalPush(log, m, MsgOffer);
  }

  lemma OfferPrefix(a: seq<Msg>, b: seq<Msg>)
    requires a <= b
    ensures Offered(a) <= Offered(b)
  {
    TotalPrefix(a, b, MsgOffer);
  }

  /** An end never gives back more than it was handed. */
  lemma GivesBack(y: Half)
    requires LocalOk(y) && Relayed(y)
    ensures Adjusted(y.out) <= Carried(y.heard)
  {
    hide WellSpoken, Orderly, DataFirst, Flags, Streams;
    if !y.stage.Absent? && !y.stage.Opening? {
      CmdPrefix(y.issued[..y.ran], y.issued);
      EventPrefix(y.task.told[..y.task.taken], y.task.told);
    }
  }

  /** Nor says more than its task paid for. */
  lemma SaysWithin(x: Half)
    requires LocalOk(x)
    ensures Carried(x.out) <= Charged(x.issued)
  {
    hide WellSpoken, Orderly, DataFirst, Flags, Windows;
    if !x.stage.Absent? && !x.stage.Opening? {
      CmdPrefix(x.issued[..x.ran], x.issued);
      TotalPrefix(Gather(x.out, MsgChunk), Gather(x.issued[..x.ran], CmdChunk), ChunkLen);
    }
  }

  /** Credit, with what is still to be heard of it, is at most one window more than was spent. */
  lemma CreditWithin(x: Half, y: Half, mine: bool)
    requires Joint(x, y, mine) && Joint(y, x, !mine)
    ensures Base(mine) + Offered(y.out) <= LOCAL_WINDOW + Charged(x.issued)
  {
    hide LocalOk, Relayed, Notified, Answered, Carried, Charged, Adjusted, Offered;
    GivesBack(y);
    SaysWithin(x);
    MsgPrefix(y.heard, x.out);
  }

  /** What the other end has yet to hear fits the window it has granted. */
  lemma DataWithin(x: Half, y: Half, mine: bool)
    requires Joint(x, y, mine) && Joint(y, x, !mine) && x.stage.Held?
    ensures x.stage.chan.localWindow + Carried(x.heard) >= Carried(y.out)
  {
    hide WellSpoken, Orderly, DataFirst, Flags, Streams, Adjusted, Offered, Reported;
    SaysWithin(y);
    OfferPrefix(y.heard, x.out);
  }

  /** The next message for `x`. */
  predicate Awaits(x: Half, y: Half, m: Msg) {
    |x.heard| < |y.out| && y.out[|x.heard|] == m
  }

  /** No message between the two ends is ever refused: not for its size, not for overflowing the window,
  not for confirming a channel that was not opened. */
  lemma NeverRefused(x: Half, y: Half, mine: bool, m: Msg)
    requires Joint(x, y, mine) && Joint(y, x, !mine) && Awaits(x, y, m)
    ensures OnMsg(x.stage, m).Turn?
  {
    hide Joint;
    if m.Confirm? {
      ConfirmFirst(x, y, mine, m);
    } else if m.Data? && x.stage.Held? {
      DataFits(x, y, mine, m);
    }
  }

  lemma DataFits(x: Half, y: Half, mine: bool, m: Msg)
    requires Joint(x, y, mine) && Joint(y, x, !mine) && Awaits(x, y, m) && m.Data? && x.stage.Held?
    ensures |m.chunk.bytes| <= x.stage.chan.localWindow
  {
    hide LocalOk, Relayed, Notified, Answered, Credited, Carried, Adjusted;
    var heard := x.heard + [m];
    DataWithin(x, y, mine);
    MsgPush(x.heard, m);
    MsgPrefix(heard, y.out);
  }

  lemma ConfirmFirst(x: Half, y: Half, mine: bool, m: Msg)
    requires Joint(x, y, mine) && Joint(y, x, !mine) && Awaits(x, y, m) && m.Confirm?
    ensures x.stage.Opening? && x.heard == []
  {
    hide Orderly, DataFirst, Flags, Streams, Windows, Relayed, Notified, Answered, Credited;
    if x.heard != [] { SpokenOrder(y.out, 0, |x.heard|); }
  }

  // ------------------------------------------------------------ every move keeps it

  /** One end speaks: at most one message, and never a confirmation. */
  lemma Speaks(h: Half, move: Move)
    requires Can(h, move)
    ensures var h' := Moved(h, move);
      h'.out == h.out || exists m :: h'.out == h.out + [m] && !m.Confirm?
  {
    match move
    case Act(act) =>
    case Hear(m) => SpeaksOne(h.out, OnMsg(h.stage, m).sent);
    case Run => SpeaksOne(h.out, OnCmd(h.stage, h.issued[h.ran]).sent);
  }

  lemma SpeaksOne(out: seq<Msg>, sent: seq<Msg>)
    requires |sent| <= 1 && (sent != [] ==> !sent[0].Confirm?)
    ensures out + sent == out || exists m :: out + sent == out + [m] && !m.Confirm?
  {
    if sent != [] { assert sent == [sent[0]]; }
  }

  /** The end that did not move sees only that the other may have said one thing more. */
  lemma OtherKeeps(y: Half, x: Half, out: seq<Msg>, mine: bool)
    requires Joint(y, x, mine) && (out == x.out || exists m :: out == x.out + [m] && !m.Confirm?)
    ensures Joint(y, x.(out := out), mine)
  {
    hide LocalOk, Relayed, Notified, Answered, Adjusted, Offered, Charged;
    if out != x.out {
      var m :| out == x.out + [m] && !m.Confirm?;
      MsgPush(x.out, m);
      OfferPush(x.out, m);
    }
  }

  lemma JointOut(y: Half, x: Half, x': Half, mine: bool)
    requires Joint(y, x, mine) && x.out == x'.out
    ensures Joint(y, x', mine)
  {
    hide LocalOk, Relayed, Notified, Answered, Adjusted, Offered, Charged;
  }

  /** The credit and what it was spent on, together; the kind of channel and its largest chunk; whether it is
  held. */
  ghost predicate Alike(x: Half, x': Half) {
    && x'.heard == x.heard && x'.task.told == x.task.told
    && (if x.stage.Held?
        then x'.stage.Held? && x'.stage.chan.session == x.stage.chan.session && x'.stage.chan.largest == x.stage.chan.largest
             && x'.stage.chan.credit + Charged(x'.issued) == x.stage.chan.credit + Charged(x.issued)
        else x'.stage == x.stage && Charged(x'.issued) == Charged(x.issued))
    && (x.stage.Held? && !x.stage.chan.session ==> Gather(x'.out, MsgReply) == Gather(x.out, MsgReply))
  }

  lemma AlikeJoint(x: Half, x': Half, y: Half, mine: bool)
    requires Joint(x, y, mine) && LocalOk(x') && Alike(x, x')
    ensures Joint(x', y, mine)
  {
    hide LocalOk, Offered, Adjusted, Charged, Gather;
  }

  lemma RunJoint(x: Half, y: Half, mine: bool)
    requires Joint(x, y, mine) && Can(x, Run)
    ensures Joint(Moved(x, Run), y, mine)
  {
    hide LocalOk, Moved, Can, Alike, Heard, Relayed, Notified, Answered, Credited;
    MoveKeeps(x, Run);
    RunAlike(x);
    AlikeJoint(x, Moved(x, Run), y, mine);
  }

  /** Running a command leaves what was heard, the channel task and its credit alone. */
  lemma RunAlike(x: Half)
    requires LocalOk(x) && Can(x, Run)
    ensures Alike(x, Moved(x, Run))
  {
    hide WellSpoken, Orderly, DataFirst, Windows, Streams, Faithful, Charged, Gather;
    assert x.task.told + [] == x.task.told;
    CmdReplies(x.stage, x.issued[x.ran]);
    RepliedOne(x.out, OnCmd(x.stage, x.issued[x.ran]).sent);
  }

  lemma ActJoint(x: Half, y: Half, mine: bool, act: Act)
    requires Joint(x, y, mine) && Can(x, Act(act))
    ensures Joint(Moved(x, Act(act)), y, mine)
  {
    hide LocalOk, Moved, Can, Alike, Heard, Relayed, Notified, Answered, Credited;
    MoveKeeps(x, Act(act));
    ActAlike(x, act);
    AlikeJoint(x, Moved(x, Act(act)), y, mine);
  }

  /** What a task spends, its credit pays. */
  lemma ActAlike(x: Half, act: Act)
    requires Can(x, Act(act))
    ensures Alike(x, Moved(x, Act(act)))
  {
    hide Charged;
    var x' := Moved(x, Act(act));
    if x'.issued != x.issued {
      var k := x'.issued[|x.issued|];
      assert x'.issued == x.issued + [k];
      CmdPush(x.issued, k);
    }
  }

  /** Nothing that matters follows a close. */
  lemma AfterClose(x: Half, y: Half, mine: bool, m: Msg)
    requires Joint(x, y, mine) && Joint(y, x, !mine) && Awaits(x, y, m) && x.stage.Gone?
    ensures m == Msg.Reply(false)
  {
    hide Orderly, DataFirst, Flags, Streams, Windows, Relayed, Notified, Answered, Credited;
    var k :| 0 <= k < |x.heard| && x.heard[k] == Msg.Close;
    assert y.out[k] == Msg.Close;
    SpokenOrder(y.out, k, |x.heard|);
  }

  /** Hearing a message: the logs it adds to. */
  lemma Hearing(x: Half, y: Half, mine: bool, m: Msg)
    requires Joint(x, y, mine) && Awaits(x, y, m)
    ensures x.heard + [m] <= y.out
    ensures Offered(x.heard + [m]) == Offered(x.heard) + MsgOffer(m) <= Offered(y.out)
    ensures Gather(x.heard + [m], MsgChunk) == Gather(x.heard, MsgChunk) + MsgChunk(m)
    ensures Msg.Close in x.heard + [m] <==> m.Close? || Msg.Close in x.heard
  {
    hide LocalOk, Relayed, Notified, Answered, Credited, Offered, Adjusted, Carried;
    OfferPush(x.heard, m);
    MsgPush(x.heard, m);
    OfferPrefix(x.heard + [m], y.out);
  }

  /** What is heard of a chunk goes to the channel task, unless the channel is not held. */
  lemma HearRelayed(x: Half, m: Msg)
    requires Relayed(x) && Can(x, Hear(m)) && (m.Data? ==> x.stage.Held?)
    ensures Relayed(Moved(x, Hear(m)))
  {
    hide OnMsg;
    var t := OnMsg(x.stage, m);
    GatherPush(x.heard, m, MsgChunk);
    Tellings(x.stage, m);
    if t.tell == [] {
      assert x.task.told + t.tell == x.task.told;
    } else {
      assert t.tell == [t.tell[0]];
      GatherPush(x.task.told, t.tell[0], EventChunk);
    }
  }

  lemma Tellings(s: Stage, m: Msg)
    requires OnMsg(s, m).Turn? && (m.Data? ==> s.Held?)
    ensures var tell := OnMsg(s, m).tell;
      |tell| <= 1 && MsgChunk(m) == if tell == [] then [] else EventChunk(tell[0])
  {
  }

  /** Where hearing a message leads, and what it does to credit that stays below the ceiling. */
  lemma Leads(s: Stage, m: Msg)
    requires OnMsg(s, m).Turn?
    ensures var s' := OnMsg(s, m).stage;
      match s
      case Held(c) =>
        if m.Close? then s'.Gone?
        else s'.Held? && s'.chan.largest == c.largest && (c.credit + MsgOffer(m) <= WINDOW_MAX ==> s'.chan.credit == c.credit + MsgOffer(m))
      case Opening(_, _) => if m.Confirm? then s'.Held? && s'.chan.credit == MsgOffer(m) && s'.chan.largest == Largest(m.max) else s' == s
      case _ => s' == s
  {
  }

  lemma ToldOf(c: Chan, m: Msg)
    requires OnMsg(Held(c), m).Turn?
    ensures var t := OnMsg(Held(c), m);
      && t.tell == Heralds(c.session)(m)
      && (t.stage.Held? ==> t.stage.chan.session == c.session)
      && (t.stage.Gone? <==> m.Close?) && (t.stage.Held? || t.stage.Gone?)
  {
  }

  lemma HearNotified(x: Half, m: Msg)
    requires LocalOk(x) && Notified(x) && Can(x, Hear(m)) && (x.stage.Gone? ==> m.Reply?)
    requires x.stage.Opening? ==> x.heard == []
    ensures Notified(Moved(x, Hear(m)))
  {
    match x.stage
    case Held(c) => HearHeldNotified(x, m);
    case Gone => HearGoneNotified(x, m);
    case Opening(session, _) => HearOpeningNotified(x, m);
    case Absent =>
  }

  lemma HearHeldNotified(x: Half, m: Msg)
    requires x.stage.Held? && Notified(x) && Can(x, Hear(m))
    ensures Notified(Moved(x, Hear(m)))
  {
    hide OnMsg, Gather;
    ToldOf(x.stage.chan, m);
    GatherPush(x.heard, m, Heralds(x.stage.chan.session));
  }

  lemma HearGoneNotified(x: Half, m: Msg)
    requires x.stage.Gone? && Notified(x) && Can(x, Hear(m)) && m.Reply?
    ensures Notified(Moved(x, Hear(m)))
  {
    hide Gather;
    var session: bool :| x.task.told <= Gather(x.heard, Heralds(session));
    GatherPush(x.heard, m, Heralds(session));
    assert x.task.told + [] == x.task.told;
    assert x.task.told <= Gather(x.heard + [m], Heralds(session));
  }

  lemma HearOpeningNotified(x: Half, m: Msg)
    requires x.stage.Opening? && LocalOk(x) && Can(x, Hear(m)) && x.heard == []
    ensures Notified(Moved(x, Hear(m)))
  {
    hide Gather, Faithful;
    if m.Confirm? {
      GatherOne(m, Heralds(x.stage.session));
      assert [] + [m] == [m];
      assert x.task.told + [] == x.task.told;
    }
  }

  /** A request that wants a reply is refused at once; nothing else is replied to. */
  lemma HearAnswered(x: Half, m: Msg)
    requires LocalOk(x) && Answered(x) && Can(x, Hear(m)) && (x.stage.Opening? ==> x.heard == [])
    ensures Answered(Moved(x, Hear(m)))
  {
    hide Gather, Faithful, Windows, Streams, WellSpoken, Orderly, DataFirst;
    RepliedOne(x.out, OnMsg(x.stage, m).sent);
    GatherPush(x.heard, m, Declines);
    NoReplies();
    NoRefusals();
  }

  lemma NoRefusals()
    ensures Gather<Msg, bool>([], Declines) == []
  {
  }

  lemma HearShape(x: Half, m: Msg)
    requires Can(x, Hear(m))
    ensures Moved(x, Hear(m)).heard == x.heard + [m] && Moved(x, Hear(m)).stage == OnMsg(x.stage, m).stage
  {
    hide OnMsg;
  }

  lemma HearHeard(x: Half, y: Half, mine: bool, m: Msg)
    requires Joint(x, y, mine) && Joint(y, x, !mine) && Awaits(x, y, m) && Can(x, Hear(m))
    ensures Heard(Moved(x, Hear(m)), y, mine)
  {
    hide LocalOk, Relayed, Notified, Answered, Credited, OnMsg, Moved, Offered;
    HearShape(x, m);
    Hearing(x, y, mine, m);
    Leads(x.stage, m);
  }

  lemma HearCredited(x: Half, y: Half, mine: bool, m: Msg)
    requires Joint(x, y, mine) && Joint(y, x, !mine) && Awaits(x, y, m) && Can(x, Hear(m))
    ensures Credited(Moved(x, Hear(m)), y, mine)
  {
    hide LocalOk, Relayed, Notified, Answered, Offered, Adjusted, Charged, OnMsg;
    Hearing(x, y, mine, m);
    CreditWithin(x, y, mine);
    Leads(x.stage, m);
    if x.stage.Opening? {
      Fresh(x);
      assert Offered([]) == 0 by { NothingOffered(); }
    }
  }

  lemma NothingOffered()
    ensures Offered([]) == 0
  {
  }

  lemma Fresh(x: Half)
    requires LocalOk(x) && x.stage.Opening?
    ensures Charged(x.issued) == 0
  {
  }

  lemma HearJoint(x: Half, y: Half, mine: bool, m: Msg)
    requires Joint(x, y, mine) && Joint(y, x, !mine) && Awaits(x, y, m) && Can(x, Hear(m))
    ensures Joint(Moved(x, Hear(m)), y, mine)
  {
    MoveKeeps(x, Hear(m));
    if x.stage.Gone? { AfterClose(x, y, mine, m); }
    hide LocalOk, Moved, Can, Relayed, Notified, Answered, Credited;
    HearRelayed(x, m);
    NotifiedOn(x, y, mine, m);
    HearHeard(x, y, mine, m);
    HearAnswered(x, m);
    HearCredited(x, y, mine, m);
  }

  lemma NotifiedOn(x: Half, y: Half, mine: bool, m: Msg)
    requires Joint(x, y, mine) && Joint(y, x, !mine) && Awaits(x, y, m) && Can(x, Hear(m))
    ensures Notified(Moved(x, Hear(m)))
  {
    hide LocalOk, Moved, Can, Relayed, Credited, Notified, Answered;
    if x.stage.Gone? { AfterClose(x, y, mine, m); }
    HearNotified(x, m);
  }

  /** Any move of either end keeps the pair. */
  lemma EndMoves(x: Half, y: Half, mine: bool, move: Move)
    requires Joint(x, y, mine) && Joint(y, x, !mine)
    requires move.Hear? ==> Awaits(x, y, move.msg)
    requires Can(x, move)
    ensures Joint(Moved(x, move), y, mine) && Joint(y, Moved(x, move), !mine)
  {
    hide Joint, Moved, Can;
    var x' := Moved(x, move);
    Speaks(x, move);
    OtherKeeps(y, x, x'.out, !mine);
    JointOut(y, x.(out := x'.out), x', !mine);
    match move
    case Run => RunJoint(x, y, mine);
    case Act(act) => ActJoint(x, y, mine, act);
    case Hear(m) => HearJoint(x, y, mine, m);
  }

  // ------------------------------------------------------------ what the pair promises

  function Credit(x: Half): nat { if x.stage.Held? then x.stage.chan.credit else 0 }

  /** Everything between the two ends of a channel has been dealt with. */
  predicate Drained(x: Half, y: Half) {
    x.ran == |x.issued| && |y.heard| == |x.out| && y.ran == |y.issued| && |x.heard| == |y.out|
  }

  lemma CarriedJoin(log: seq<Msg>, k: nat)
    requires k <= |log|
    ensures Carried(log) == Carried(log[..k]) + Carried(log[k..])
  {
    assert log == log[..k] + log[k..];
    GatherJoin(log[..k], log[k..], MsgChunk);
    TotalJoin(Gather(log[..k], MsgChunk), Gather(log[k..], MsgChunk), ChunkLen);
  }

  lemma ChargedJoin(log: seq<Cmd>, k: nat)
    requires k <= |log|
    ensures Charged(log) == Charged(log[..k]) + Charged(log[k..])
  {
    assert log == log[..k] + log[k..];
    GatherJoin(log[..k], log[k..], CmdChunk);
    TotalJoin(Gather(log[..k], CmdChunk), Gather(log[k..], CmdChunk), ChunkLen);
  }

  lemma OfferedJoin(log: seq<Msg>, k: nat)
    requires k <= |log|
    ensures Offered(log) == Offered(log[..k]) + Offered(log[k..])
  {
    assert log == log[..k] + log[k..];
    TotalJoin(log[..k], log[k..], MsgOffer);
  }

  /** The sender's books: credit left, chunks queued, chunks said, against what it was granted. */
  lemma SenderBooks(x: Half, y: Half, mine: bool)
    requires Joint(x, y, mine) && (x.stage.Held? || x.stage.Opening?)
    ensures x.ran <= |x.issued|
    ensures Credit(x) + Charged(x.issued[x.ran..]) + Carried(x.out) == Base(mine) + Offered(x.heard)
  {
    hide Relayed, Notified, Answered, WellSpoken, Orderly, DataFirst, Flags, Windows, Adjusted;
    ChargedJoin(x.issued, x.ran);
  }

  /** The receiver's books: window left is what it ever granted less what it heard. */
  lemma ReceiverBooks(y: Half)
    requires LocalOk(y) && Relayed(y) && y.stage.Held?
    ensures y.stage.chan.localWindow + Carried(y.heard) == LOCAL_WINDOW + Adjusted(y.out)
  {
    hide WellSpoken, Orderly, DataFirst, Flags, Streams, Adjusted;
  }

  /** Window conservation, in each direction: the sender's credit; the chunks paid for and queued, and
  those on the wire; the bytes with the receiving task, and those it dropped unreported; the reports
  queued, and the batch not yet granted anew; and the grants on the wire, a confirmation's included. */
  lemma Conserved(x: Half, y: Half, mine: bool)
    requires Joint(x, y, mine) && Joint(y, x, !mine) && y.stage.Held? && (x.stage.Held? || x.stage.Opening?)
    ensures x.ran <= |x.issued| && |y.heard| <= |x.out| && y.task.taken <= |y.task.told|
    ensures y.ran <= |y.issued| && |x.heard| <= |y.out|
    ensures
      Credit(x)
      + Charged(x.issued[x.ran..]) + Carried(x.out[|y.heard|..])
      + Handed(y.task.told[y.task.taken..]) + y.task.discarded
      + Reported(y.issued[y.ran..]) + y.stage.chan.pendingConsumed
      + Offered(y.out[|x.heard|..])
      == LOCAL_WINDOW
  {
    hide LocalOk, Relayed, Notified, Answered, Charged, Carried, Handed, Reported, Offered, Adjusted;
    SenderBooks(x, y, mine);
    ReceiverBooks(y);
    WindowConserved(y);
    CarriedJoin(x.out, |y.heard|);
    assert x.out[..|y.heard|] == y.heard;
    OfferedJoin(y.out, |x.heard|);
    assert y.out[..|x.heard|] == x.heard;
  }

  /** Batched refills never stall a sender: with nothing between the ends and nothing left unreported,
  the credit is more than half a window, and more than any chunk asks for. */
  lemma NeverStalls(x: Half, y: Half, mine: bool, chunk: Chunk)
    requires Joint(x, y, mine) && Joint(y, x, !mine) && x.stage.Held? && y.stage.Held?
    requires Drained(x, y) && y.task.taken == |y.task.told| && y.task.discarded == 0
    ensures x.stage.chan.credit > LOCAL_WINDOW - WINDOW_REFILL >= MAX_CHUNK
    ensures 0 < |chunk.bytes| <= MAX_CHUNK && !x.task.finished && Cmd.Eof !in x.issued ==> CanAct(x, Spend(chunk))
  {
    Conserved(x, y, mine);
    hide LocalOk, Joint;
    Empties(x, y);
    WindowConserved(y);
  }

  lemma Empties(x: Half, y: Half)
    requires Drained(x, y) && y.task.taken == |y.task.told|
    ensures Charged(x.issued[x.ran..]) == 0 && Carried(x.out[|y.heard|..]) == 0 && Offered(y.out[|x.heard|..]) == 0
    ensures Handed(y.task.told[y.task.taken..]) == 0 && Reported(y.issued[y.ran..]) == 0
  {
  }

  /** An end lets go of a channel exactly when it has both said and heard a close. */
  lemma GoneWhenBothClose(x: Half, y: Half, mine: bool)
    requires Joint(x, y, mine)
    ensures x.stage.Gone? <==> Msg.Close in x.out && Msg.Close in x.heard
  {
    hide WellSpoken, Orderly, DataFirst, Windows, Streams, Relayed, Notified, Answered, Credited;
  }

  /** Once either end has said close and the wires are empty, neither holds the channel. */
  lemma CloseReachesBoth(x: Half, y: Half, mine: bool)
    requires Joint(x, y, mine) && Joint(y, x, !mine)
    requires Msg.Close in x.out || Msg.Close in y.out
    requires |y.heard| == |x.out| && |x.heard| == |y.out|
    ensures x.stage.Gone? && y.stage.Gone?
  {
    hide LocalOk, Relayed, Notified, Answered, Credited;
    assert y.heard == x.out && x.heard == y.out;
    GoneWhenBothClose(x, y, mine);
    GoneWhenBothClose(y, x, !mine);
  }

  /** The channel task at one end is told the chunks the channel task at the other end sent, in order, each once; all of
  them that the loop has run, once they are heard. */
  lemma Delivered(x: Half, y: Half, mine: bool)
    requires Joint(x, y, mine) && Joint(y, x, !mine)
    ensures Gather(y.task.told, EventChunk) <= Gather(x.issued, CmdChunk)
    ensures !x.stage.Gone? && Drained(x, y) ==> Gather(y.task.told, EventChunk) == Gather(x.issued, CmdChunk)
  {
    hide WellSpoken, Orderly, DataFirst, Windows, Flags, Credited, Faithful, Notified, Answered;
    GatherPrefix(y.heard, x.out, MsgChunk);
    if x.stage.Held? || x.stage.Gone? {
      GatherPrefix(x.issued[..x.ran], x.issued, CmdChunk);
      if x.ran == |x.issued| { assert x.issued[..x.ran] == x.issued; }
    }
    if |y.heard| == |x.out| { assert y.heard == x.out; }
  }

  /** While both hold the channel and nothing is between them, the receiving task has been told of an end
  of file exactly when the sending one asked for it, and on a session of each request in its place. */
  lemma EofReaches(x: Half, y: Half, mine: bool)
    requires Joint(x, y, mine) && Joint(y, x, !mine) && x.stage.Held? && y.stage.Held? && Drained(x, y)
    ensures Event.Eof in y.task.told <==> Cmd.Eof in x.issued
    ensures y.stage.chan.session ==> Gather(y.task.told, EventTalk) == Gather(x.issued, CmdTalk)
  {
    hide WellSpoken, Orderly, DataFirst, Windows, Streams, Credited, Relayed;
    assert y.heard == x.out && x.issued[..x.ran] == x.issued;
    EofHeralded(y.heard, y.stage.chan.session);
    if y.stage.chan.session { TalkHeralded(y.heard); }
  }

  function EventReply(e: Event): seq<bool> { if e.Reply? then [e.ok] else [] }

  lemma {:induction false} RepliesHeralded(heard: seq<Msg>, session: bool)
    ensures Gather(Gather(heard, Heralds(session)), EventReply) == Gather(heard, MsgReply)
  {
    if heard != [] {
      var before, last := heard[..|heard| - 1], heard[|heard| - 1];
      RepliesHeralded(before, session);
      assert heard == before + [last];
      GatherPush(before, last, Heralds(session));
      GatherPush(before, last, MsgReply);
      GatherJoin(Gather(before, Heralds(session)), Heralds(session)(last), EventReply);
      ReplyHeralded(last, session);
    }
  }

  lemma ReplyHeralded(m: Msg, session: bool)
    ensures Gather(Heralds(session)(m), EventReply) == MsgReply(m)
  {
    var told := Heralds(session)(m);
    if told != [] {
      assert told == [told[0]];
      GatherOne(told[0], EventReply);
    }
  }

  /** While a session is held, the other task is told the replies its task gave, each as given, in order;
  all of them, once the loop has run them and they are heard. */
  lemma RepliesReach(x: Half, y: Half, mine: bool)
    requires Joint(x, y, mine) && Joint(y, x, !mine) && x.stage.Held? && x.stage.chan.session
    ensures Gather(y.task.told, EventReply) <= Gather(x.issued, CmdReply)
    ensures y.stage.Held? && Drained(x, y) ==> Gather(y.task.told, EventReply) == Gather(x.issued, CmdReply)
  {
    hide WellSpoken, Orderly, DataFirst, Windows, Flags, Credited, Faithful, Relayed, Streams, Gather;
    GatherPrefix(x.issued[..x.ran], x.issued, CmdReply);
    GatherPrefix(y.heard, x.out, MsgReply);
    if y.stage.Held? || y.stage.Gone? {
      var session :| y.task.told <= Gather(y.heard, Heralds(session)) && (y.stage.Held? ==> y.task.told == Gather(y.heard, Heralds(session)));
      RepliesHeralded(y.heard, session);
      GatherPrefix(y.task.told, Gather(y.heard, Heralds(session)), EventReply);
      if Drained(x, y) { assert y.heard == x.out && x.issued[..x.ran] == x.issued; }
    } else {
      NoneTold();
    }
  }

  /** Of a channel that is no session, the other task is told a refusal for each request it sent that
  wants a reply, and no other reply; all of them, once they are heard. */
  lemma RefusalsReach(x: Half, y: Half, mine: bool)
    requires Joint(x, y, mine) && Joint(y, x, !mine) && x.stage.Held? && !x.stage.chan.session
    ensures Gather(y.task.told, EventReply) <= Gather(x.heard, Declines) <= Gather(y.out, Declines)
    ensures y.stage.Held? && Drained(x, y) ==> Gather(y.task.told, EventReply) == Gather(y.out, Declines)
  {
    hide LocalOk, Credited, Relayed, Gather;
    GatherPrefix(x.heard, y.out, Declines);
    GatherPrefix(y.heard, x.out, MsgReply);
    if y.stage.Held? || y.stage.Gone? {
      var session :| y.task.told <= Gather(y.heard, Heralds(session)) && (y.stage.Held? ==> y.task.told == Gather(y.heard, Heralds(session)));
      RepliesHeralded(y.heard, session);
      GatherPrefix(y.task.told, Gather(y.heard, Heralds(session)), EventReply);
      if Drained(x, y) { assert y.heard == x.out && x.heard == y.out; }
    } else {
      OpeningUntold(y);
      NoneTold();
    }
  }

  lemma OpeningUntold(y: Half)
    requires LocalOk(y) && !y.stage.Held? && !y.stage.Gone?
    ensures y.task.told == []
  {
    hide Faithful, Windows, Streams, WellSpoken, Orderly, DataFirst, Replied;
  }

  lemma NoneTold()
    ensures Gather<Event, bool>([], EventReply) == []
  {
  }

  /** What a task is told: its data comes before the end of file. */
  ghost predicate DataThenEof(told: seq<Event>) {
    forall p, q :: 0 <= p < q < |told| && told[q].Data? ==> told[p] != Event.Eof
  }

  lemma {:induction false} SpokenPrefix(out: seq<Msg>, k: nat)
    requires WellSpoken(out) && k <= |out|
    ensures WellSpoken(out[..k])
    decreases |out|
  {
    if k == |out| {
      assert out[..k] == out;
    } else {
      SpokenPrefix(out[..|out| - 1], k);
      assert out[..|out| - 1][..k] == out[..k];
    }
  }

  lemma {:induction false} HeraldsInOrder(heard: seq<Msg>, session: bool)
    requires WellSpoken(heard)
    ensures DataThenEof(Gather(heard, Heralds(session)))
  {
    if heard != [] {
      var before, last := heard[..|heard| - 1], heard[|heard| - 1];
      HeraldsInOrder(before, session);
      EofHeralded(before, session);
      assert heard == before + [last];
      GatherPush(before, last, Heralds(session));
    }
  }

  /** The receiving task is told of no data after an end of file, whoever holds the channel still. */
  lemma ToldInOrder(x: Half, y: Half, mine: bool)
    requires Joint(x, y, mine) && Joint(y, x, !mine)
    ensures DataThenEof(y.task.told)
  {
    hide WellSpoken, Orderly, DataFirst, Windows, Flags, Credited, Faithful, Relayed, Gather;
    if y.stage.Held? || y.stage.Gone? {
      var session :| y.task.told <= Gather(y.heard, Heralds(session));
      SpokenHeard(x, y, mine);
      HeraldsInOrder(y.heard, session);
    }
  }

  lemma SpokenHeard(x: Half, y: Half, mine: bool)
    requires Joint(x, y, mine) && Joint(y, x, !mine)
    ensures WellSpoken(y.heard)
  {
    hide Orderly, DataFirst, Windows, Flags, Credited, Faithful, Relayed, Notified, Answered;
    SpokenPrefix(x.out, |y.heard|);
    assert x.out[..|y.heard|] == y.heard;
  }

  function EventTalk(e: Event): seq<Talk> {
    if e.Data? then [Bytes(e.chunk)] else if e.Request? then [Ask(e.wantReply)] else []
  }

  lemma {:induction false} EofHeralded(heard: seq<Msg>, session: bool)
    ensures Event.Eof in Gather(heard, Heralds(session)) <==> Msg.Eof in heard
  {
    if heard != [] {
      var before, last := heard[..|heard| - 1], heard[|heard| - 1];
      EofHeralded(before, session);
      assert heard == before + [last];
      GatherPush(before, last, Heralds(session));
    }
  }

  lemma {:induction false} TalkHeralded(heard: seq<Msg>)
    ensures Gather(Gather(heard, Heralds(true)), EventTalk) == Gather(heard, MsgTalk)
  {
    if heard != [] {
      var before, last := heard[..|heard| - 1], heard[|heard| - 1];
      TalkHeralded(before);
      assert heard == before + [last];
      GatherPush(before, last, Heralds(true));
      GatherPush(before, last, MsgTalk);
      GatherJoin(Gather(before, Heralds(true)), Heralds(true)(last), EventTalk);
      OneHeralded(last);
    }
  }

  lemma OneHeralded(m: Msg)
    ensures Gather(Heralds(true)(m), EventTalk) == MsgTalk(m)
  {
    var told := Heralds(true)(m);
    if told != [] {
      assert told == [told[0]];
      GatherOne(told[0], EventTalk);
    }
  }
}
