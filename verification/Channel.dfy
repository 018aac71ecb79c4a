/** One end of one channel (src/connect/mux.rs, with the channel tasks of forward.rs and session.rs).

The connection loop keeps an entry per channel; the channel's task is told what arrives, spends
send-window credit, and issues commands that the loop runs in order. Logs are kept whole, with a
position for what has been dealt with, so that every account below is a total over a log. */
module Channel {
  import opened Bytes
  import opened Logs

  const LOCAL_WINDOW: nat := 0x20_0000
  const MAX_CHUNK: nat := 0x8000
  const WINDOW_REFILL: nat := 0x10_0000
  const WINDOW_MAX: nat := 0xFFFF_FFFF
  /** What a semaphore can hold, on a 64-bit target. */
  const MAX_PERMITS: nat := 0x1FFF_FFFF_FFFF_FFFF

  /** Channel data, or extended data of some kind. */
  datatype Chunk = Chunk(ext: Option<u32>, bytes: seq<byte>)

  /** What one end says to the other about a channel. */
  datatype Msg =
    | Confirm(peer: u32, window: u32, max: u32)
    | Data(chunk: Chunk)
    | Adjust(add: u32)
    | Eof
    | Close
    | Request(wantReply: bool)
    | Reply(ok: bool)

  /** What a task asks of the loop. */
  datatype Cmd =
    | Data(chunk: Chunk)
    | Request(wantReply: bool)
    | Reply(ok: bool)
    | Eof
    | Close
    | Consumed(n: u32)

  /** What the loop tells a task. */
  datatype Event =
    | Data(chunk: Chunk)
    | Eof
    | Close
    | Request(wantReply: bool)
    | Reply(ok: bool)

  /** `largest` is the most its task may put in one chunk. */
  datatype Chan = Chan(
    peer: u32, session: bool, endOnClose: bool,
    credit: nat, largest: nat, localWindow: u32, pendingConsumed: u32,
    sentEof: bool, sentClose: bool, peerClosed: bool)

  /** Where a channel id stands in the loop's tables: not in use (or its open was refused), opened and
  not yet confirmed, in the channel table, or taken out of it. */
  datatype Stage = Absent | Opening(session: bool, endOnClose: bool) | Held(chan: Chan) | Gone

  datatype Fault = TooLarge | Overflowed | UnknownConfirmation

  /** What handling one message or command comes to. */
  datatype Turn =
    | Turn(stage: Stage, sent: seq<Msg>, tell: seq<Event>)
    | Failed(fault: Fault)

  function Min(a: nat, b: nat): nat { if a <= b then a else b }

  // ------------------------------------------------------------ the loop's handlers, one channel

  /** The peer's maximum packet size, held between one byte and a chunk. */
  function Largest(max: u32): nat { if max == 0 then 1 else Min(max, MAX_CHUNK) }

  function NewChan(peer: u32, window: u32, max: u32, session: bool, endOnClose: bool): Chan {
    Chan(peer, session, endOnClose, Min(window, MAX_PERMITS), Largest(max), LOCAL_WINDOW, 0, false, false, false)
  }

  /** A WINDOW_ADJUST: credit grows, but never past the ceiling. */
  function Granted(c: Chan, add: nat): Chan {
    var ceiling := Min(WINDOW_MAX, MAX_PERMITS);
    var headroom := if c.credit <= ceiling then ceiling - c.credit else 0;
    c.(credit := c.credit + Min(add, headroom))
  }

  /** Out of the table once both sides have closed. */
  function CloseIfDone(c: Chan): Stage {
    if c.sentClose && c.peerClosed then Gone else Held(c)
  }

  function OnMsg(s: Stage, m: Msg): Turn {
    if m.Confirm? then
      if s.Opening? then Turn(Held(NewChan(m.peer, m.window, m.max, s.session, s.endOnClose)), [], [])
      else Failed(UnknownConfirmation)
    else if !s.Held? then Turn(s, [], [])
    else
      var c := s.chan;
      match m
      case Data(chunk) =>
        if |chunk.bytes| >= U32 then Failed(TooLarge)
        else if |chunk.bytes| > c.localWindow then Failed(Overflowed)
        else Turn(Held(c.(localWindow := c.localWindow - |chunk.bytes|)), [], [Event.Data(chunk)])
      case Adjust(add) => Turn(Held(Granted(c, add)), [], [])
      case Eof => Turn(s, [], [Event.Eof])
      case Close =>
        var c' := c.(peerClosed := true, sentClose := true);
        Turn(CloseIfDone(c'), if c.sentClose then [] else [Msg.Close], [Event.Close])
      case Request(wantReply) =>
        if c.session then Turn(s, [], [Event.Request(wantReply)])
        else Turn(s, if wantReply then [Msg.Reply(false)] else [], [])
      case Reply(ok) => Turn(s, [], [Event.Reply(ok)])
  }

  /** `n` bytes were consumed: a batch of half the window is granted anew. The additions are those of
  32-bit words, the first wrapping and the second saturating. */
  function Refilled(c: Chan, n: u32): (Chan, seq<Msg>) {
    var pending: u32 := (c.pendingConsumed + n) % 0x1_0000_0000;
    if pending >= WINDOW_REFILL then
      (c.(pendingConsumed := 0, localWindow := Min(c.localWindow + pending, WINDOW_MAX)), [Adjust(pending)])
    else (c.(pendingConsumed := pending), [])
  }

  function OnCmd(s: Stage, k: Cmd): (r: Turn)
    ensures r.Turn? && r.tell == []
  {
    if !s.Held? then Turn(s, [], [])
    else
      var c := s.chan;
      match k
      case Data(chunk) => Turn(s, [Msg.Data(chunk)], [])
      case Request(wantReply) => Turn(s, [Msg.Request(wantReply)], [])
      case Reply(ok) => Turn(s, [Msg.Reply(ok)], [])
      case Eof => if c.sentEof then Turn(s, [], []) else Turn(Held(c.(sentEof := true)), [Msg.Eof], [])
      case Close =>
        Turn(CloseIfDone(c.(sentClose := true)), if c.sentClose then [] else [Msg.Close], [])
      case Consumed(n) => var (c', sent) := Refilled(c, n); Turn(Held(c'), sent, [])
  }

  // ------------------------------------------------------------ one end, with its task

  /** The channel task: what it was ever told and how much of that it has taken; how many of the bytes it took
  it never reported; whether it has issued its last command. */
  datatype Task = Task(told: seq<Event>, taken: nat, discarded: nat, finished: bool)

  datatype Half = Half(stage: Stage, heard: seq<Msg>, out: seq<Msg>, issued: seq<Cmd>, ran: nat, task: Task)

  const NEW_TASK := Task([], 0, 0, false)

  datatype Act =
    /** Credit is acquired and forgotten, and the chunk handed to the loop; not after an end of file. */
    | Spend(chunk: Chunk)
    /** The next event is taken; a chunk's bytes are reported as consumed, or dropped unreported. */
    | Take(report: bool)
    /** A request, a reply or an end of file. */
    | Say(cmd: Cmd)
    /** The channel task's last command: tear the channel down. */
    | Finish

  datatype Move = Hear(msg: Msg) | Run | Act(act: Act)

  /** The channel task has taken a request: only then has it anything to reply to. */
  predicate WasAsked(t: Task) {
    exists k :: 0 <= k < t.taken && k < |t.told| && t.told[k].Request?
  }

  predicate CanAct(h: Half, act: Act) {
    && !h.task.finished && (h.stage.Held? || h.stage.Gone?)
    && match act
       case Spend(chunk) =>
         && h.stage.Held? && 0 < |chunk.bytes| <= MAX_CHUNK && |chunk.bytes| <= h.stage.chan.largest && |chunk.bytes| <= h.stage.chan.credit
         && Cmd.Eof !in h.issued
       case Take(report) => h.task.taken < |h.task.told|
       case Say(cmd) => cmd.Request? || cmd.Eof? || (cmd.Reply? && WasAsked(h.task))
       case Finish => true
  }

  function EventBytes(e: Event): nat { if e.Data? then |e.chunk.bytes| else 0 }

  /** The command an act issues, if any. */
  function Issues(t: Task, act: Act): (r: seq<Cmd>)
    requires act.Take? ==> t.taken < |t.told|
    ensures |r| <= 1
  {
    match act
    case Spend(chunk) => [Cmd.Data(chunk)]
    case Take(report) =>
      var e := t.told[t.taken];
      if e.Data? && report then [Consumed(|e.chunk.bytes| % 0x1_0000_0000)] else []
    case Say(cmd) => [cmd]
    case Finish => [Cmd.Close]
  }

  function Acted(h: Half, act: Act): Half
    requires CanAct(h, act)
  {
    var h' := h.(issued := h.issued + Issues(h.task, act));
    match act
    case Spend(chunk) => h'.(stage := Held(h.stage.chan.(credit := h.stage.chan.credit - |chunk.bytes|)))
    case Take(report) =>
      var t := h.task;
      var e := t.told[t.taken];
      h'.(task := t.(taken := t.taken + 1, discarded := t.discarded + if report then 0 else EventBytes(e)))
    case Say(_) => h'
    case Finish => h'.(task := h.task.(finished := true))
  }

  function Turned(h: Half, t: Turn): Half
    requires t.Turn?
  {
    h.(stage := t.stage, out := h.out + t.sent, task := h.task.(told := h.task.told + t.tell))
  }

  predicate Can(h: Half, move: Move) {
    match move
    case Hear(m) => OnMsg(h.stage, m).Turn?
    case Run => h.ran < |h.issued|
    case Act(act) => CanAct(h, act)
  }

  function Moved(h: Half, move: Move): Half
    requires Can(h, move)
  {
    match move
    case Hear(m) => Turned(h.(heard := h.heard + [m]), OnMsg(h.stage, m))
    case Run => Turned(h.(ran := h.ran + 1), OnCmd(h.stage, h.issued[h.ran]))
    case Act(act) => Acted(h, act)
  }

  /** An id is given out for a channel this end opens, or for one it accepts. */
  function Opened(session: bool, endOnClose: bool): Half {
    Half(Opening(session, endOnClose), [], [], [], 0, NEW_TASK)
  }

  function Accepted(id: u32, peer: u32, window: u32, max: u32, session: bool): Half {
    Half(Held(NewChan(peer, window, max, session, false)), [], [Confirm(id, LOCAL_WINDOW, MAX_CHUNK)], [], 0, NEW_TASK)
  }

  // ------------------------------------------------------------ accounts

  function ChunkLen(c: Chunk): nat { |c.bytes| }
  function MsgChunk(m: Msg): seq<Chunk> { if m.Data? then [m.chunk] else [] }
  function CmdChunk(k: Cmd): seq<Chunk> { if k.Data? then [k.chunk] else [] }
  function EventChunk(e: Event): seq<Chunk> { if e.Data? then [e.chunk] else [] }
  function MsgAdjust(m: Msg): nat { if m.Adjust? then m.add else 0 }
  function CmdReport(k: Cmd): nat { if k.Consumed? then k.n else 0 }

  ghost function Size(chunks: seq<Chunk>): nat { Total(chunks, ChunkLen) }
  /** Bytes of channel data in a log of each kind. */
  ghost function Carried(log: seq<Msg>): nat { Size(Gather(log, MsgChunk)) }
  ghost function Charged(log: seq<Cmd>): nat { Size(Gather(log, CmdChunk)) }
  ghost function Handed(log: seq<Event>): nat { Size(Gather(log, EventChunk)) }
  /** Window given back, and bytes reported consumed. */
  ghost function Adjusted(log: seq<Msg>): nat { Total(log, MsgAdjust) }
  ghost function Reported(log: seq<Cmd>): nat { Total(log, CmdReport) }

  lemma SizePush(chunks: seq<Chunk>, c: Chunk)
    ensures Size(chunks + [c]) == Size(chunks) + |c.bytes|
  {
    TotalPush(chunks, c, ChunkLen);
  }

  lemma MsgPush(log: seq<Msg>, m: Msg)
    ensures Gather(log + [m], MsgChunk) == Gather(log, MsgChunk) + MsgChunk(m)
    ensures Carried(log + [m]) == Carried(log) + if m.Data? then |m.chunk.bytes| else 0
    ensures Adjusted(log + [m]) == Adjusted(log) + MsgAdjust(m)
  {
    GatherPush(log, m, MsgChunk);
    TotalPush(log, m, MsgAdjust);
    var had := Gather(log, MsgChunk);
    if m.Data? { SizePush(had, m.chunk); } else { assert had + [] == had; }
  }

  lemma CmdPush(log: seq<Cmd>, k: Cmd)
    ensures Gather(log + [k], CmdChunk) == Gather(log, CmdChunk) + CmdChunk(k)
    ensures Charged(log + [k]) == Charged(log) + if k.Data? then |k.chunk.bytes| else 0
    ensures Reported(log + [k]) == Reported(log) + CmdReport(k)
  {
    GatherPush(log, k, CmdChunk);
    TotalPush(log, k, CmdReport);
    var had := Gather(log, CmdChunk);
    if k.Data? { SizePush(had, k.chunk); } else { assert had + [] == had; }
  }

  lemma EventPush(log: seq<Event>, e: Event)
    ensures Gather(log + [e], EventChunk) == Gather(log, EventChunk) + EventChunk(e)
    ensures Handed(log + [e]) == Handed(log) + EventBytes(e)
  {
    GatherPush(log, e, EventChunk);
    var had := Gather(log, EventChunk);
    if e.Data? { SizePush(had, e.chunk); } else { assert had + [] == had; }
  }

  lemma MsgPrefix(a: seq<Msg>, b: seq<Msg>)
    requires a <= b
    ensures Carried(a) <= Carried(b) && Adjusted(a) <= Adjusted(b)
  {
    GatherPrefix(a, b, MsgChunk);
    TotalPrefix(Gather(a, MsgChunk), Gather(b, MsgChunk), ChunkLen);
    TotalPrefix(a, b, MsgAdjust);
  }

  lemma CmdPrefix(a: seq<Cmd>, b: seq<Cmd>)
    requires a <= b
    ensures Charged(a) <= Charged(b) && Reported(a) <= Reported(b)
  {
    GatherPrefix(a, b, CmdChunk);
    TotalPrefix(Gather(a, CmdChunk), Gather(b, CmdChunk), ChunkLen);
    TotalPrefix(a, b, CmdReport);
  }

  lemma EventPrefix(a: seq<Event>, b: seq<Event>)
    requires a <= b
    ensures Handed(a) <= Handed(b)
  {
    GatherPrefix(a, b, EventChunk);
    TotalPrefix(Gather(a, EventChunk), Gather(b, EventChunk), ChunkLen);
  }

  // ------------------------------------------------------------ what holds against any peer

  /** The order in which an end speaks about a channel: a confirmation comes first or not at all; one end
  of file and one close at most; no data after the end of file; after the close nothing but refusals of
  requests. */
  predicate WellSpoken(out: seq<Msg>) {
    out == [] || (
      var before, last := out[..|out| - 1], out[|out| - 1];
      && WellSpoken(before)
      && (last.Confirm? ==> before == [])
      && (last.Eof? || last.Data? ==> Msg.Eof !in before)
      && (Msg.Close in before ==> last == Msg.Reply(false)))
  }

  /** A task's close is its last command. */
  ghost predicate Orderly(issued: seq<Cmd>, finished: bool) {
    && (finished ==> issued != [] && issued[|issued| - 1] == Cmd.Close)
    && (forall k :: 0 <= k < |issued| && issued[k] == Cmd.Close ==> finished && k == |issued| - 1)
  }

  /** A task's data comes before its end of file. */
  ghost predicate DataFirst(issued: seq<Cmd>) {
    forall p, q :: 0 <= p < q < |issued| && issued[q].Data? ==> issued[p] != Cmd.Eof
  }

  ghost predicate Flags(h: Half)
    requires Bounds(h)
  {
    match h.stage
    case Held(c) =>
      && !c.peerClosed && (c.sentEof ==> Cmd.Eof in h.issued[..h.ran])
      && (c.sentEof <==> Msg.Eof in h.out) && (c.sentClose <==> Msg.Close in h.out)
      && (c.sentClose ==> h.task.finished && h.ran == |h.issued|)
    case Gone => Msg.Close in h.out
    case _ => true
  }

  ghost predicate Windows(h: Half)
    requires Bounds(h)
  {
    && Reported(h.issued) + h.task.discarded == Handed(h.task.told[..h.task.taken])
    && match h.stage
       case Held(c) =>
         && c.localWindow + Handed(h.task.told) == LOCAL_WINDOW + Adjusted(h.out)
         && c.pendingConsumed + Adjusted(h.out) == Reported(h.issued[..h.ran])
         && c.pendingConsumed < WINDOW_REFILL && c.credit <= WINDOW_MAX
       case _ => Handed(h.task.told) <= LOCAL_WINDOW + Adjusted(h.out) && Adjusted(h.out) <= Reported(h.issued)
  }

  ghost predicate Streams(h: Half)
    requires Bounds(h)
  {
    var said, asked := Gather(h.out, MsgChunk), Gather(h.issued[..h.ran], CmdChunk);
    if h.stage.Gone? then said <= asked else said == asked
  }

  /** No task yet: nothing was said, asked or told. */
  predicate Untouched(h: Half) {
    h.out == [] && h.issued == [] && h.ran == 0 && h.task == NEW_TASK
  }

  predicate Bounds(h: Half) {
    h.ran <= |h.issued| && h.task.taken <= |h.task.told|
  }

  /** The accounts and the order of speech. */
  ghost predicate Kept(h: Half) {
    if h.stage.Absent? || h.stage.Opening? then Untouched(h)
    else Bounds(h) && Orderly(h.issued, h.task.finished) && DataFirst(h.issued) && WellSpoken(h.out) && Flags(h) && Windows(h) && Streams(h)
  }

  /** What an end says for its task: data and requests, in the order they were asked for. */
  datatype Talk = Bytes(chunk: Chunk) | Ask(wantReply: bool)

  function MsgTalk(m: Msg): seq<Talk> { if m.Data? then [Bytes(m.chunk)] else if m.Request? then [Ask(m.wantReply)] else [] }
  function CmdTalk(k: Cmd): seq<Talk> { if k.Data? then [Bytes(k.chunk)] else if k.Request? then [Ask(k.wantReply)] else [] }

  /** All the channel task asked to be said was said, up to where the loop has come; once the channel is gone,
  what was said is where that began. An end of file was said exactly when one was asked for. */
  ghost predicate Faithful(h: Half) {
    && h.ran <= |h.issued|
    && var said, asked := Gather(h.out, MsgTalk), Gather(h.issued[..h.ran], CmdTalk);
       match h.stage
       case Held(c) => said == asked && (c.sentEof <==> Cmd.Eof in h.issued[..h.ran])
       case _ => said <= asked
  }

  function MsgReply(m: Msg): seq<bool> { if m.Reply? then [m.ok] else [] }
  function CmdReply(k: Cmd): seq<bool> { if k.Reply? then [k.ok] else [] }

  /** On a session the replies said are the channel task's own, in order: the loop answers nothing for it. On any
  other channel the loop refuses whatever is asked. */
  ghost predicate Replied(h: Half) {
    && h.ran <= |h.issued|
    && (h.stage.Held? ==>
          if h.stage.chan.session then Gather(h.out, MsgReply) == Gather(h.issued[..h.ran], CmdReply) else Refusing(h))
  }

  /** On a forwarded stream no request reaches the channel task, and every one that wants a reply is refused. */
  ghost predicate Refusing(h: Half) {
    && (forall k :: 0 <= k < |h.task.told| ==> !h.task.told[k].Request?)
    && (forall k :: 0 <= k < |h.issued| ==> !h.issued[k].Reply?)
    && (forall k :: 0 <= k < |h.out| && h.out[k].Reply? ==> !h.out[k].ok)
  }

  /** What one end of a channel keeps, whatever its peer says. */
  ghost predicate LocalOk(h: Half) {
    Kept(h) && Faithful(h) && Replied(h)
  }

  lemma SpokenOn(out: seq<Msg>, m: Msg)
    requires WellSpoken(out)
    requires m.Confirm? ==> out == []
    requires m.Eof? || m.Data? ==> Msg.Eof !in out
    requires Msg.Close in out ==> m == Msg.Reply(false)
    ensures WellSpoken(out + [m])
  {
    assert (out + [m])[..|out|] == out;
  }

  lemma OrderlyOn(issued: seq<Cmd>, cmd: Cmd)
    requires Orderly(issued, false)
    ensures Orderly(issued + [cmd], cmd == Cmd.Close)
  {
  }

  lemma DataFirstOn(issued: seq<Cmd>, cmd: Cmd)
    requires DataFirst(issued) && (cmd.Data? ==> Cmd.Eof !in issued)
    ensures DataFirst(issued + [cmd])
  {
  }

  lemma SpendKeeps(h: Half, chunk: Chunk)
    requires Kept(h) && CanAct(h, Spend(chunk))
    ensures Kept(Acted(h, Spend(chunk)))
  {
    hide WellSpoken, Orderly, DataFirst, Adjusted, Reported, Handed, Charged, Gather;
    var h' := Acted(h, Spend(chunk));
    OrderlyOn(h.issued, Cmd.Data(chunk));
    DataFirstOn(h.issued, Cmd.Data(chunk));
    CmdPush(h.issued, Cmd.Data(chunk));
    assert h'.issued[..h'.ran] == h.issued[..h.ran];
  }

  lemma SayKeeps(h: Half, cmd: Cmd)
    requires Kept(h) && CanAct(h, Say(cmd))
    ensures Kept(Acted(h, Say(cmd)))
  {
    hide WellSpoken, Orderly, DataFirst, Adjusted, Reported, Handed, Charged, Gather;
    var h' := Acted(h, Say(cmd));
    OrderlyOn(h.issued, cmd);
    DataFirstOn(h.issued, cmd);
    CmdPush(h.issued, cmd);
    assert h'.issued[..h'.ran] == h.issued[..h.ran];
  }

  lemma FinishKeeps(h: Half)
    requires Kept(h) && CanAct(h, Finish)
    ensures Kept(Acted(h, Finish))
  {
    hide WellSpoken, Orderly, DataFirst, Adjusted, Reported, Handed, Charged, Gather;
    var h' := Acted(h, Finish);
    OrderlyOn(h.issued, Cmd.Close);
    DataFirstOn(h.issued, Cmd.Close);
    CmdPush(h.issued, Cmd.Close);
    assert h'.issued[..h'.ran] == h.issued[..h.ran];
  }

  /** Nothing a task is still to take is larger than the window. */
  lemma NextFits(h: Half)
    requires Kept(h) && (h.stage.Held? || h.stage.Gone?) && h.task.taken < |h.task.told|
    ensures EventBytes(h.task.told[h.task.taken]) <= LOCAL_WINDOW
  {
    hide WellSpoken, Streams, Flags, Orderly, Adjusted, Reported, Handed;
    var t := h.task;
    Advance(t.told, t.taken);
    EventPush(t.told[..t.taken], t.told[t.taken]);
    EventPrefix(t.told[..t.taken + 1], t.told);
    CmdPrefix(h.issued[..h.ran], h.issued);
  }

  lemma TakeKeeps(h: Half, report: bool)
    requires Kept(h) && CanAct(h, Take(report))
    ensures Kept(Acted(h, Take(report)))
  {
    hide WellSpoken, Orderly, DataFirst, Adjusted, Reported, Handed, Charged, Gather;
    var h', t := Acted(h, Take(report)), h.task;
    var e := t.told[t.taken];
    NextFits(h);
    Advance(t.told, t.taken);
    EventPush(t.told[..t.taken], e);
    if e.Data? && report {
      CmdPush(h.issued, Consumed(|e.chunk.bytes| % 0x1_0000_0000));
      OrderlyOn(h.issued, Consumed(|e.chunk.bytes| % 0x1_0000_0000));
      DataFirstOn(h.issued, Consumed(|e.chunk.bytes| % 0x1_0000_0000));
    } else {
      assert h.issued + [] == h.issued;
    }
    assert h'.issued[..h'.ran] == h.issued[..h.ran];
  }

  lemma ActKeeps(h: Half, act: Act)
    requires Kept(h) && CanAct(h, act)
    ensures Kept(Acted(h, act))
  {
    hide Kept, Acted, CanAct;
    match act
    case Spend(chunk) => SpendKeeps(h, chunk);
    case Take(report) => TakeKeeps(h, report);
    case Say(cmd) => SayKeeps(h, cmd);
    case Finish => FinishKeeps(h);
  }

  /** The loop turns to the next command of a channel it still holds: its own account of the logs. */
  lemma RunLogs(h: Half)
    requires Kept(h) && h.ran < |h.issued|
    ensures h.issued[..h.ran + 1] == h.issued[..h.ran] + [h.issued[h.ran]]
    ensures Reported(h.issued[..h.ran + 1]) == Reported(h.issued[..h.ran]) + CmdReport(h.issued[h.ran]) <= Reported(h.issued)
    ensures Gather(h.issued[..h.ran + 1], CmdChunk) == Gather(h.issued[..h.ran], CmdChunk) + CmdChunk(h.issued[h.ran])
  {
    hide Kept, Reported, Charged;
    Advance(h.issued, h.ran);
    CmdPush(h.issued[..h.ran], h.issued[h.ran]);
    CmdPrefix(h.issued[..h.ran + 1], h.issued);
  }

  lemma RunGoneKeeps(h: Half)
    requires Kept(h) && h.ran < |h.issued| && !h.stage.Held?
    ensures Kept(Moved(h, Run))
  {
    hide WellSpoken, Orderly, DataFirst, Adjusted, Reported, Handed, Gather;
    RunLogs(h);
    assert h.out + [] == h.out && h.task.told + [] == h.task.told;
  }

  /** What one more message does to an end's own accounts. */
  lemma Says(out: seq<Msg>, m: Msg)
    requires WellSpoken(out)
    requires m.Confirm? ==> out == []
    requires m.Eof? || m.Data? ==> Msg.Eof !in out
    requires Msg.Close in out ==> m == Msg.Reply(false)
    ensures WellSpoken(out + [m])
    ensures Gather(out + [m], MsgChunk) == Gather(out, MsgChunk) + MsgChunk(m)
    ensures Adjusted(out + [m]) == Adjusted(out) + MsgAdjust(m)
    ensures Msg.Eof in out + [m] <==> m.Eof? || Msg.Eof in out
    ensures Msg.Close in out + [m] <==> m.Close? || Msg.Close in out
  {
    hide WellSpoken, Adjusted, Carried;
    SpokenOn(out, m);
    MsgPush(out, m);
  }

  lemma RunTalk(h: Half, m: Msg)
    requires Kept(h) && h.ran < |h.issued| && h.stage.Held? && OnCmd(h.stage, h.issued[h.ran]).sent == [m]
    requires m.Data? || m.Request? || m.Reply?
    ensures Kept(Moved(h, Run))
  {
    hide WellSpoken, Orderly, Adjusted, Reported, Handed, Gather;
    RunLogs(h);
    Says(h.out, m);
    assert h.task.told + [] == h.task.told;
  }

  lemma RunEof(h: Half)
    requires Kept(h) && h.ran < |h.issued| && h.stage.Held? && h.issued[h.ran].Eof?
    ensures Kept(Moved(h, Run))
  {
    hide WellSpoken, Orderly, DataFirst, Adjusted, Reported, Handed, Gather;
    RunLogs(h);
    assert h.task.told + [] == h.task.told;
    if h.stage.chan.sentEof {
      assert h.out + [] == h.out;
    } else {
      Says(h.out, Msg.Eof);
    }
  }

  lemma RunClose(h: Half)
    requires Kept(h) && h.ran < |h.issued| && h.stage.Held? && h.issued[h.ran].Close?
    ensures Kept(Moved(h, Run))
  {
    hide WellSpoken, Adjusted, Reported, Handed, Gather;
    RunLogs(h);
    Says(h.out, Msg.Close);
    assert h.task.told + [] == h.task.told;
  }

  /** Against any peer the word-sized additions of a refill are exact. */
  lemma RefillExact(h: Half, n: u32)
    requires Kept(h) && h.ran < |h.issued| && h.stage.Held? && h.issued[h.ran] == Consumed(n)
    ensures var c := h.stage.chan; c.pendingConsumed + n <= LOCAL_WINDOW && c.localWindow + c.pendingConsumed + n <= LOCAL_WINDOW
  {
    hide WellSpoken, Orderly, DataFirst, Flags, Streams, Adjusted, Reported, Handed;
    RunLogs(h);
    EventPrefix(h.task.told[..h.task.taken], h.task.told);
  }

  lemma RunConsumed(h: Half, n: u32)
    requires Kept(h) && h.ran < |h.issued| && h.stage.Held? && h.issued[h.ran] == Consumed(n)
    ensures Kept(Moved(h, Run))
  {
    hide WellSpoken, Orderly, DataFirst, Adjusted, Reported, Handed, Gather;
    RunLogs(h);
    RefillExact(h, n);
    var pending := h.stage.chan.pendingConsumed + n;
    assert h.task.told + [] == h.task.told;
    if pending < WINDOW_REFILL {
      assert h.out + [] == h.out;
    } else {
      Says(h.out, Adjust(pending));
    }
  }

  lemma RunKeeps(h: Half)
    requires Kept(h) && h.ran < |h.issued|
    ensures Kept(Moved(h, Run))
  {
    hide Kept, Moved;
    var k := h.issued[h.ran];
    if !h.stage.Held? { RunGoneKeeps(h); }
    else if k.Close? { RunClose(h); }
    else if k.Consumed? { RunConsumed(h, k.n); }
    else if k.Eof? { RunEof(h); }
    else { RunTalk(h, OnCmd(h.stage, k).sent[0]); }
  }

  /** The channel task is told one more thing. */
  lemma Tells(h: Half, e: Event)
    requires Bounds(h)
    ensures var told := h.task.told + [e];
      && told[..h.task.taken] == h.task.told[..h.task.taken]
      && Handed(told) == Handed(h.task.told) + EventBytes(e)
  {
    hide Handed;
    EventPush(h.task.told, e);
  }

  lemma HearClose(h: Half)
    requires Kept(h) && h.stage.Held?
    ensures Kept(Moved(h, Hear(Msg.Close)))
  {
    hide WellSpoken, Orderly, DataFirst, Adjusted, Reported, Handed, Gather;
    Tells(h, Event.Close);
    if h.stage.chan.sentClose {
      assert h.out + [] == h.out;
    } else {
      Says(h.out, Msg.Close);
    }
    CmdPrefix(h.issued[..h.ran], h.issued);
  }

  lemma HearHeld(h: Half, m: Msg)
    requires Kept(h) && h.stage.Held? && !m.Close? && Can(h, Hear(m))
    ensures Kept(Moved(h, Hear(m)))
  {
    hide WellSpoken, Orderly, DataFirst, Adjusted, Reported, Handed, Gather;
    var t := OnMsg(h.stage, m);
    if t.tell == [] {
      assert h.task.told + t.tell == h.task.told;
    } else {
      Tells(h, t.tell[0]);
    }
    if t.sent == [] {
      assert h.out + t.sent == h.out;
    } else {
      Says(h.out, t.sent[0]);
    }
  }

  lemma HearElse(h: Half, m: Msg)
    requires Kept(h) && !h.stage.Held? && Can(h, Hear(m))
    ensures Kept(Moved(h, Hear(m)))
  {
    assert h.out + [] == h.out && h.task.told + [] == h.task.told;
    if !m.Confirm? {
      hide WellSpoken, Orderly, DataFirst, Adjusted, Reported, Handed, Gather;
    }
  }

  lemma KeptOn(h: Half, move: Move)
    requires Kept(h) && Can(h, move)
    ensures Kept(Moved(h, move))
  {
    hide Kept, Moved, CanAct;
    match move
    case Run => RunKeeps(h);
    case Act(act) => ActMoves(h, act);
    case Hear(m) =>
      if !h.stage.Held? { HearElse(h, m); } else if m.Close? { HearClose(h); } else { HearHeld(h, m); }
  }

  lemma ActMoves(h: Half, act: Act)
    requires Kept(h) && CanAct(h, act)
    ensures Kept(Moved(h, Act(act)))
  {
    hide Kept;
    ActKeeps(h, act);
  }

  /** What a turn says of the channel task's talk. */
  function TalkOf(sent: seq<Msg>): seq<Talk> { if sent == [] then [] else MsgTalk(sent[0]) }

  lemma CmdSays(s: Stage, k: Cmd)
    ensures var t := OnCmd(s, k);
      && |t.sent| <= 1
      && (if s.Held?
          then TalkOf(t.sent) == CmdTalk(k)
               && (t.stage.Gone? || (t.stage.Held? && t.stage.chan.sentEof == (s.chan.sentEof || k.Eof?)))
          else t.sent == [] && t.stage == s)
  {
  }

  lemma MsgSays(s: Stage, m: Msg)
    requires OnMsg(s, m).Turn?
    ensures var t := OnMsg(s, m);
      && |t.sent| <= 1 && TalkOf(t.sent) == []
      && (t.stage.Held? ==> if s.Held? then t.stage.chan.sentEof == s.chan.sentEof else s.Opening? && !t.stage.chan.sentEof)
  {
  }

  lemma SentTalk(out: seq<Msg>, sent: seq<Msg>)
    requires |sent| <= 1
    ensures Gather(out + sent, MsgTalk) == Gather(out, MsgTalk) + TalkOf(sent)
  {
    if sent == [] {
      assert out + sent == out;
    } else {
      assert sent == [sent[0]];
      GatherPush(out, sent[0], MsgTalk);
    }
  }

  lemma RanTalk(log: seq<Cmd>, k: nat)
    requires k < |log|
    ensures Gather(log[..k + 1], CmdTalk) == Gather(log[..k], CmdTalk) + CmdTalk(log[k])
    ensures Cmd.Eof in log[..k + 1] <==> log[k].Eof? || Cmd.Eof in log[..k]
  {
    Advance(log, k);
    GatherPush(log[..k], log[k], CmdTalk);
  }

  lemma FaithfulRun(h: Half)
    requires Faithful(h) && h.ran < |h.issued|
    ensures Faithful(Moved(h, Run))
  {
    hide OnCmd, Gather;
    var k := h.issued[h.ran];
    CmdSays(h.stage, k);
    RanTalk(h.issued, h.ran);
    SentTalk(h.out, OnCmd(h.stage, k).sent);
  }

  lemma FaithfulHear(h: Half, m: Msg)
    requires Kept(h) && Faithful(h) && Can(h, Hear(m))
    ensures Faithful(Moved(h, Hear(m)))
  {
    hide OnMsg, Windows, Streams, Orderly, WellSpoken, Flags;
    MsgSays(h.stage, m);
    SentTalk(h.out, OnMsg(h.stage, m).sent);
  }

  lemma FaithfulAct(h: Half, act: Act)
    requires Faithful(h) && CanAct(h, act)
    ensures Faithful(Moved(h, Act(act)))
  {
    hide Issues;
    assert (h.issued + Issues(h.task, act))[..h.ran] == h.issued[..h.ran];
  }

  lemma RepliedOne(out: seq<Msg>, sent: seq<Msg>)
    requires |sent| <= 1
    ensures Gather(out + sent, MsgReply) == Gather(out, MsgReply) + if sent == [] then [] else MsgReply(sent[0])
  {
    if sent == [] {
      assert out + sent == out;
    } else {
      assert sent == [sent[0]];
      GatherPush(out, sent[0], MsgReply);
    }
  }

  lemma CmdReplies(s: Stage, k: Cmd)
    ensures var t := OnCmd(s, k);
      && |t.sent| <= 1
      && (t.stage.Held? ==> s.Held? && t.stage.chan.session == s.chan.session)
      && (s.Held? ==> (if t.sent == [] then [] else MsgReply(t.sent[0])) == CmdReply(k))
  {
  }

  lemma MsgReplies(s: Stage, m: Msg)
    requires OnMsg(s, m).Turn?
    ensures var t := OnMsg(s, m);
      && |t.sent| <= 1
      && (t.stage.Held? ==> s.Opening? || (s.Held? && t.stage.chan.session == s.chan.session))
      && (s.Held? && s.chan.session ==> t.sent == [] || !t.sent[0].Reply?) && (!s.Held? ==> t.sent == [] && t.tell == [])
      && (s.Held? && !s.chan.session ==>
            (t.sent == [] || !t.sent[0].Reply? || !t.sent[0].ok) && |t.tell| <= 1 && (t.tell == [] || !t.tell[0].Request?))
  {
  }

  lemma RepliedOn(h: Half, move: Move)
    requires Kept(h) && Replied(h) && Can(h, move)
    ensures Replied(Moved(h, move))
  {
    hide OnCmd, OnMsg, Windows, Streams, Flags, WellSpoken, Orderly, DataFirst, Gather, Issues;
    match move
    case Run =>
      CmdReplies(h.stage, h.issued[h.ran]);
      RepliedOne(h.out, OnCmd(h.stage, h.issued[h.ran]).sent);
      Advance(h.issued, h.ran);
      GatherPush(h.issued[..h.ran], h.issued[h.ran], CmdReply);
    case Hear(m) =>
      MsgReplies(h.stage, m);
      RepliedOne(h.out, OnMsg(h.stage, m).sent);
      NoReplies();
      if h.stage.Opening? { assert h.out + [] == [] && h.issued[..h.ran] == [] && h.task.told + [] == []; }
    case Act(act) => RepliedAct(h, act);
  }

  lemma RepliedAct(h: Half, act: Act)
    requires Replied(h) && CanAct(h, act)
    ensures Replied(Moved(h, Act(act)))
  {
    hide Gather;
    assert (h.issued + Issues(h.task, act))[..h.ran] == h.issued[..h.ran];
  }

  /** What that means: a forwarded stream never grants a request, whatever a peer asks. */
  lemma OnlyRefuses(h: Half)
    requires LocalOk(h) && h.stage.Held? && !h.stage.chan.session
    ensures forall k :: 0 <= k < |h.out| && h.out[k].Reply? ==> h.out[k] == Msg.Reply(false)
  {
    hide Kept, Faithful;
  }

  lemma NoReplies()
    ensures Gather<Msg, bool>([], MsgReply) == [] && Gather<Cmd, bool>([], CmdReply) == []
  {
  }

  /** Whatever a peer says and whatever the channel task does, the accounts, the order of speech and the
  streams hold. */
  lemma MoveKeeps(h: Half, move: Move)
    requires LocalOk(h) && Can(h, move)
    ensures LocalOk(Moved(h, move))
  {
    hide Kept, Faithful, Replied, Moved, CanAct;
    RepliedOn(h, move);
    KeptOn(h, move);
    match move
    case Run => FaithfulRun(h);
    case Act(act) => FaithfulAct(h, act);
    case Hear(m) => FaithfulHear(h, m);
  }

  /** A channel just accepted, whatever window and packet size the peer offers. */
  lemma AcceptedOk(id: u32, peer: u32, window: u32, max: u32, session: bool)
    ensures LocalOk(Accepted(id, peer, window, max, session))
  {
    var h := Accepted(id, peer, window, max, session);
    Says([], h.out[0]);
    assert [] + [h.out[0]] == h.out;
    assert h.issued[..0] == [] && h.task.told[..0] == [];
    assert Gather<Msg, Chunk>([], MsgChunk) == [] && Adjusted([]) == 0;
    GatherPush([], h.out[0], MsgReply);
  }

  // ------------------------------------------------------------ what that means

  /** Against any peer: the window still granted, the batch not yet granted anew, the reports still
  queued, and the bytes with the channel task always make up the whole window. So no addition of `Refilled` wraps
  or saturates, and a task's backlog never exceeds the window. */
  lemma WindowConserved(h: Half)
    requires LocalOk(h) && h.stage.Held?
    ensures var c, t := h.stage.chan, h.task;
      && h.ran <= |h.issued| && t.taken <= |t.told|
      && c.localWindow + c.pendingConsumed + Reported(h.issued[h.ran..]) + Handed(t.told[t.taken..]) + t.discarded == LOCAL_WINDOW
      && c.pendingConsumed < WINDOW_REFILL
  {
    hide WellSpoken, Orderly, DataFirst, Flags, Streams;
    assert h.issued == h.issued[..h.ran] + h.issued[h.ran..];
    TotalJoin(h.issued[..h.ran], h.issued[h.ran..], CmdReport);
    HandedJoin(h.task.told, h.task.taken);
  }

  lemma HandedJoin(told: seq<Event>, k: nat)
    requires k <= |told|
    ensures Handed(told) == Handed(told[..k]) + Handed(told[k..])
  {
    assert told == told[..k] + told[k..];
    GatherJoin(told[..k], told[k..], EventChunk);
    TotalJoin(Gather(told[..k], EventChunk), Gather(told[k..], EventChunk), ChunkLen);
  }

  /** Once a channel is gone its task's backlog is still no more than the window. */
  lemma BacklogBounded(h: Half)
    requires LocalOk(h) && h.stage.Gone?
    ensures h.task.taken <= |h.task.told| && Handed(h.task.told[h.task.taken..]) + h.task.discarded <= LOCAL_WINDOW
  {
    hide WellSpoken, Orderly, DataFirst, Flags, Streams, Reported, Adjusted, Handed;
    HandedJoin(h.task.told, h.task.taken);
  }

  /** What `WellSpoken` says, position by position. */
  lemma {:induction false} SpokenOrder(out: seq<Msg>, p: nat, q: nat)
    requires WellSpoken(out) && p < q < |out|
    ensures out[p].Close? ==> out[q] == Msg.Reply(false)
    ensures out[p].Eof? ==> !out[q].Data?
    ensures !(out[p].Eof? && out[q].Eof?) && !(out[p].Close? && out[q].Close?)
    ensures !out[q].Confirm?
  {
    var before := out[..|out| - 1];
    if q < |out| - 1 {
      SpokenOrder(before, p, q);
    } else {
      assert before[p] == out[p];
    }
  }

  // ------------------------------------------------------------ spending credit

  function CmdBytes(k: Cmd): seq<byte> { if k.Data? then k.chunk.bytes else [] }

  /** Chunks of one kind, none empty and none above the limit. */
  predicate Chunked(issued: seq<Cmd>, ext: Option<u32>, limit: nat) {
    forall k :: 0 <= k < |issued| ==>
      issued[k].Data? && issued[k].chunk.ext == ext && 0 < |issued[k].chunk.bytes| <= limit
  }

  /** Split what a read yielded into chunks, acquiring credit for each. `acquires` says of each wait
  for credit whether it was granted or found the semaphore closed; when it runs out the channel task is still
  waiting. What was issued is a prefix of the data, byte for byte, and costs its length in credit. */
  method SendCredited(data: seq<byte>, ext: Option<u32>, remoteMax: nat, acquires: seq<bool>)
      returns (issued: seq<Cmd>, spent: nat, sent: Option<bool>)
    requires |data| <= MAX_CHUNK && 1 <= remoteMax <= MAX_CHUNK
    ensures Chunked(issued, ext, remoteMax) && spent <= |data|
    ensures Gather(issued, CmdBytes) == data[..spent]
    ensures sent == Some(true) ==> spent == |data|
    ensures sent == Some(false) ==> |issued| < |acquires| && !acquires[|issued|]
    ensures sent == None ==> spent < |data| && |issued| == |acquires|
    ensures forall k :: 0 <= k < |issued| ==> k < |acquires| && acquires[k]
  {
    issued, spent := [], 0;
    while spent < |data|
      invariant spent <= |data| && Chunked(issued, ext, remoteMax)
      invariant Gather(issued, CmdBytes) == data[..spent]
      invariant |issued| <= |acquires| && forall k :: 0 <= k < |issued| ==> acquires[k]
    {
      if |issued| == |acquires| {
        return issued, spent, None;
      }
      if !acquires[|issued|] {
        return issued, spent, Some(false);
      }
      var take := Min(|data| - spent, remoteMax);
      var cmd := Cmd.Data(Chunk(ext, data[spent..spent + take]));
      GatherPush(issued, cmd, CmdBytes);
      assert data[..spent] + data[spent..spent + take] == data[..spent + take];
      issued, spent := issued + [cmd], spent + take;
    }
    return issued, spent, Some(true);
  }
}
