/** A running connection (src/connect/mux.rs, `run`): the loop's object together with what it talks to,
the channel tasks, the connects in flight and the command queue.

`Loop` is driven by whatever happens: packets from any peer, commands, connects that finish, tasks that
act. Its object goes through exactly the states the end of MuxEnd.dfy goes through, so every law proved
there of every run is a law of the object. */
module EventLoop {
  import opened Bytes
  import opened Logs
  import opened Channel
  import opened Mux
  import opened MuxEnd
  import MuxCredit
  import Connection
  import Forwards

  datatype Stimulus =
    | Packet(packet: Mux.Packet, kind: Connection.Kind)
    | Turn
    | Dialed(k: nat, ok: bool)
    | Wants(order: Order)
    | Does(id: u32, act: Act)
    | Asked(request: Forwards.Request, want: bool, bound: Option<u16>, handle: nat)
    | Answered(success: bool, carried: Option<u32>)
    | Binds(bind: string, port: u16, target: Forwards.Place)
    | Tick

  type Note = (u32, Event)

  function TellOne(tasks: map<u32, Task>, n: Note): map<u32, Task> {
    Told(tasks, n.0, [n.1])
  }

  function TellAll(tasks: map<u32, Task>, notes: seq<Note>): map<u32, Task> {
    if notes == [] then tasks else TellOne(TellAll(tasks, notes[..|notes| - 1]), notes[|notes| - 1])
  }

  lemma {:induction false} NotesSnoc(id: u32, tell: seq<Event>)
    requires tell != []
    ensures Connection.Notes(id, tell) == Connection.Notes(id, tell[..|tell| - 1]) + [(id, tell[|tell| - 1])]
  {
    if |tell| > 1 {
      NotesSnoc(id, tell[1..]);
      assert tell[1..][..|tell| - 2] == tell[..|tell| - 1][1..];
    }
  }

  lemma TellTwice(tasks: map<u32, Task>, id: u32, before: seq<Event>, last: Event)
    ensures Told(Told(tasks, id, before), id, [last]) == Told(tasks, id, before + [last])
  {
    if before == [] {
      assert before + [last] == [last];
    } else if id in tasks {
      var t := tasks[id];
      assert t.told + before + [last] == t.told + (before + [last]);
    }
  }

  /** Telling a task one thing after another is telling it all of them. */
  lemma {:induction false} TellsAll(tasks: map<u32, Task>, id: u32, tell: seq<Event>)
    ensures TellAll(tasks, Connection.Notes(id, tell)) == Told(tasks, id, tell)
  {
    hide Told;
    if tell == [] {
      NoneTold(tasks, id);
    } else {
      var before, last := tell[..|tell| - 1], tell[|tell| - 1];
      NotesSnoc(id, tell);
      TellsAll(tasks, id, before);
      assert tell == before + [last];
      var notes := Connection.Notes(id, tell);
      assert notes[..|notes| - 1] == Connection.Notes(id, before);
      TellTwice(tasks, id, before, last);
    }
  }

  lemma NoneTold(tasks: map<u32, Task>, id: u32)
    ensures Told(tasks, id, []) == tasks
  {
  }

  /** A handler that starts a task tells none. */
  lemma StartsInSilence(t: Table, p: Mux.Packet, verdict: Verdict)
    requires OnPacket(t, p, verdict).Effect?
    ensures OnPacket(t, p, verdict).spawn.Worker? ==> OnPacket(t, p, verdict).tell == []
  {
  }

  lemma {:induction false} AskedEof(log: seq<Order>, id: u32)
    ensures Cmd.Eof in Gather(log, AskedBy(id)) <==> Order.Of(id, Cmd.Eof) in log
  {
    if log != [] {
      var before, last := log[..|log| - 1], log[|log| - 1];
      AskedEof(before, id);
      assert log == before + [last];
      GatherPush(before, last, AskedBy(id));
    }
  }

  /** What the channel task of `id` can do now, by what is at hand. */
  predicate Ready(e: End, id: u32, act: Act) {
    && id in e.tasks && !e.tasks[id].finished && (id in e.table.channels || id !in e.table.pending)
    && match act
       case Spend(chunk) =>
         && id in e.table.channels && 0 < |chunk.bytes| <= MAX_CHUNK && |chunk.bytes| <= e.table.channels[id].largest
         && |chunk.bytes| <= e.table.channels[id].credit
         && Order.Of(id, Cmd.Eof) !in e.log
       case Take(_) => e.tasks[id].taken < |e.tasks[id].told|
       case Say(cmd) => cmd.Request? || cmd.Eof? || (cmd.Reply? && WasAsked(e.tasks[id]))
       case Finish => true
  }

  lemma ReadyIsEnabled(e: End, id: u32, act: Act)
    requires e.ran <= |e.log|
    ensures Ready(e, id, act) <==> Enabled(e, TaskActs(id, act))
  {
    hide Gather;
    AskedEof(e.log, id);
  }

  lemma RunGoesOn(states: seq<End>, inputs: seq<Input>, i: Input)
    requires IsRun(states, inputs) && Enabled(states[|inputs|], i)
    ensures IsRun(states + [Step(states[|inputs|], i)], inputs + [i])
  {
    hide Enabled, Step;
    var states', inputs' := states + [Step(states[|inputs|], i)], inputs + [i];
    forall k | 0 <= k < |inputs'| ensures Enabled(states'[k], inputs'[k]) && states'[k + 1] == Step(states'[k], inputs'[k]) {
      if k < |inputs| {
        assert states'[k] == states[k] && states'[k + 1] == states[k + 1] && inputs'[k] == inputs[k];
      }
    }
  }

  class Loop {
    const conn: Connection.Connection
    var tasks: map<u32, Task>
    var dialing: seq<Dial>
    var log: seq<Order>
    var ran: nat
    var heard: seq<Mux.Packet>
    var ids: nat

    /** The run so far. */
    ghost var states: seq<End>
    ghost var inputs: seq<Input>

    function View(): End
      reads this, conn
    {
      End(conn.Tables(), tasks, dialing, log, ran, conn.out, heard, ids)
    }

    ghost predicate Valid()
      reads this, conn
    {
      ran <= |log| && IsRun(states, inputs) && states[|inputs|] == View()
    }

    constructor (conn: Connection.Connection)
      requires conn.Tables() == EMPTY && conn.out == []
      ensures Valid() && View() == START && this.conn == conn && inputs == []
    {
      this.conn := conn;
      tasks, dialing, log, ran, heard, ids := map[], [], [], 0, [], 0;
      states, inputs := [START], [];
    }

    /** What is true of every run is true of the object: with no more than 2^32 ids given out, the cap,
    the accounts of every channel, the next id unused, and no credit but what the peer granted. */
    lemma Holds()
      requires Valid() && ids <= U32
      ensures EndOk(View()) && conn.Valid() && MuxCredit.CreditOk(View())
    {
      hide Enabled, Step, HalvesOk, DialsOk, MuxCredit.CreditOk;
      EveryRun(states, inputs, |inputs|);
      MuxCredit.EveryCredit(states, inputs, |inputs|);
    }

    ghost method Record(e: End, i: Input)
      requires IsRun(states, inputs) && states[|inputs|] == e && Enabled(e, i) && View() == Step(e, i)
      modifies this`states, this`inputs
      ensures Valid() && inputs == old(inputs) + [i] && old(states) <= states
    {
      hide Step;
      RunGoesOn(states, inputs, i);
      StepRan(e, i);
      states, inputs := states + [Step(e, i)], inputs + [i];
    }

    /** Hands out what the handlers told and started. */
    method Distribute(notes: seq<Note>, spawns: seq<Spawn>)
      requires |spawns| <= 1
      modifies this`tasks, this`dialing
      ensures tasks == (var told := TellAll(old(tasks), notes);
                        if spawns != [] && spawns[0].Worker? then told[spawns[0].id := NEW_TASK] else told)
      ensures dialing == old(dialing) + if spawns != [] && spawns[0].Dialer? then [spawns[0].dial] else []
    {
      for k := 0 to |notes|
        invariant tasks == TellAll(old(tasks), notes[..k]) && dialing == old(dialing)
      {
        assert notes[..k + 1][..k] == notes[..k];
        tasks := TellOne(tasks, notes[k]);
      }
      assert notes[..|notes|] == notes;
      if spawns != [] {
        match spawns[0] {
          case Worker(id) => tasks := tasks[id := NEW_TASK];
          case Dialer(dial) => dialing := dialing + [dial];
          case Nothing =>
        }
      }
    }

    /** After a handler ran, everything else follows: the end is as the handler's effect says. */
    method Follow(ghost e: End, ghost id: u32, ghost eff: Effect, nextId: u32, notes: seq<Note>, spawns: seq<Spawn>)
      requires eff.Effect? && (eff.spawn.Worker? ==> eff.tell == [])
      requires View() == e.(table := eff.table, out := e.out + eff.sent)
      requires nextId == e.table.nextId
      requires notes == Connection.Notes(id, eff.tell) && spawns == Connection.Spawns(eff.spawn)
      modifies this`tasks, this`dialing, this`ids
      ensures View() == Applied(e, id, eff)
    {
      TellsAll(tasks, id, eff.tell);
      Distribute(notes, spawns);
      if conn.nextId != nextId {
        ids := ids + 1;
      }
      assert dialing + [] == dialing;
    }

    /** One packet, whatever it is. A fault ends the connection, and changes nothing. */
    method Arrive(p: Mux.Packet, kind: Connection.Kind) returns (fault: Option<Fault>)
      requires Valid() && !conn.done
      modifies this, conn
      ensures Valid() && old(states) <= states
      ensures var v := old(conn.Verdict(kind));
        if fault.None? then OnPacket(old(conn.Tables()), p, v).Effect? && inputs == old(inputs) + [Arrives(p, v)]
        else OnPacket(old(conn.Tables()), p, v) == Error(fault.value) && View() == old(View()) && inputs == old(inputs)
    {
      hide OnPacket, IsRun, Connection.Notes, Applied;
      ghost var e, v := View(), conn.Verdict(kind);
      ghost var eff := OnPacket(e.table, p, v);
      var nextId, notes, spawns := conn.nextId, |conn.told|, |conn.spawned|;
      fault := conn.OnPacket(p, kind);
      if fault.Some? {
        return;
      }
      StartsInSilence(e.table, p, v);
      heard := heard + [p];
      Follow(e.(heard := e.heard + [p]), ChannelOf(p), eff, nextId, conn.told[notes..], conn.spawned[spawns..]);
      Record(e, Arrives(p, v));
    }

    /** The next command of the queue. */
    method RunNext()
      requires Valid() && !conn.done && ran < |log|
      modifies this, conn
      ensures Valid() && inputs == old(inputs) + [RunsOrder] && old(states) <= states
    {
      hide OnOrder, IsRun, Connection.Notes, Applied;
      ghost var e := View();
      ghost var eff := OnOrder(e.table, log[ran]);
      var nextId, notes, spawns := conn.nextId, |conn.told|, |conn.spawned|;
      conn.OnCommand(log[ran]);
      ran := ran + 1;
      Follow(e.(ran := e.ran + 1), 0, eff, nextId, conn.told[notes..], conn.spawned[spawns..]);
      Record(e, RunsOrder);
    }

    /** A connect in flight came through, or did not. */
    method Resolve(k: nat, ok: bool)
      requires Valid() && k < |dialing|
      modifies this
      ensures Valid() && inputs == old(inputs) + [Resolves(k, ok)] && old(states) <= states
    {
      hide IsRun;
      ghost var e := View();
      log, dialing := log + [Connected(dialing[k], ok)], dialing[..k] + dialing[k + 1..];
      Record(e, Resolves(k, ok));
    }

    method Submit(order: Order)
      requires Valid() && (order.OpenTunnel? || order.OpenSession?)
      modifies this
      ensures Valid() && inputs == old(inputs) + [Submits(order)] && old(states) <= states
    {
      hide IsRun;
      ghost var e := View();
      log := log + [order];
      Record(e, Submits(order));
    }

    /** A task spends credit, takes what it was told, speaks, or finishes. */
    method Act(id: u32, act: Act)
      requires Valid() && Ready(View(), id, act)
      modifies this, conn
      ensures Valid() && inputs == old(inputs) + [TaskActs(id, act)] && old(states) <= states
    {
      hide IsRun, Enabled, Issues;
      ghost var e := View();
      ReadyIsEnabled(e, id, act);
      log := log + Orders(id, Issues(tasks[id], act));
      match act {
        case Spend(chunk) =>
          var c := conn.channels[id];
          conn.channels := conn.channels[id := c.(credit := c.credit - |chunk.bytes|)];
        case Take(report) =>
          var t := tasks[id];
          var left := if report then 0 else EventBytes(t.told[t.taken]);
          tasks := tasks[id := t.(taken := t.taken + 1, discarded := t.discarded + left)];
        case Say(_) =>
        case Finish => tasks := tasks[id := tasks[id].(finished := true)];
      }
      ActIsStep(e, View(), id, act);
      Record(e, TaskActs(id, act));
    }

    /** One thing happens, if it may; else it is passed over. A fault, or a silent peer, is the end. */
    method Happen(s: Stimulus) returns (fault: Option<Fault>, alive: bool)
      requires Valid()
      modifies this, conn
      ensures Valid() && old(states) <= states
      ensures inputs == old(inputs) + Becomes(old(View()), s, if s.Packet? then old(conn.Verdict(s.kind)) else Refuse)
    {
      hide IsRun, Ready, OnPacket;
      fault, alive := None, true;
      assert inputs == inputs + [];
      match s {
        case Packet(p, kind) => if !conn.done { fault := Arrive(p, kind); }
        case Turn => if !conn.done && ran < |log| { RunNext(); }
        case Dialed(d, ok) => if d < |dialing| { Resolve(d, ok); }
        case Wants(order) => if order.OpenTunnel? || order.OpenSession? { Submit(order); }
        case Does(id, act) => if Ready(View(), id, act) { Act(id, act); }
        case Asked(request, want, bound, handle) => if !conn.done { conn.OnGlobalRequest(request, want, bound, handle); }
        case Answered(success, carried) => if !conn.done { conn.OnGlobalReply(success, carried); }
        case Binds(bind, port, target) => if !conn.done { conn.RemoteForward(bind, port, target); }
        case Tick => if !conn.done { alive := conn.OnKeepaliveTick(); }
      }
    }

    /** All of them in turn, up to the end: the run is what each of them became, one after another, and what
    is true of every run is true of the object. */
    method Run(stimuli: seq<Stimulus>) returns (fault: Option<Fault>, alive: bool, ghost cuts: seq<nat>)
      requires Valid()
      modifies this, conn
      ensures Valid() && old(states) <= states && old(inputs) <= inputs
      ensures 1 <= |cuts| <= |stimuli| + 1 && cuts[0] == |old(inputs)| && cuts[|cuts| - 1] == |inputs|
      ensures forall k :: 0 <= k < |cuts| - 1 ==> Came(states, inputs, cuts[k], cuts[k + 1], stimuli[k])
      ensures fault.None? && alive ==> |cuts| == |stimuli| + 1
      ensures ids <= U32 ==> EndOk(View()) && conn.Valid() && MuxCredit.CreditOk(View())
    {
      hide IsRun, EndOk, MuxCredit.CreditOk, Came, Becomes, Connection.Connection.Valid;
      fault, alive, cuts := None, true, [|inputs|];
      for k := 0 to |stimuli|
        invariant Valid() && old(states) <= states && old(inputs) <= inputs && fault.None? && alive
        invariant |cuts| == k + 1 && cuts[0] == |old(inputs)| && cuts[k] == |inputs|
        invariant forall j :: 0 <= j < k ==> Came(states, inputs, cuts[j], cuts[j + 1], stimuli[j])
      {
        ghost var states0, inputs0, cuts0 := states, inputs, cuts;
        ghost var v := if stimuli[k].Packet? then conn.Verdict(stimuli[k].kind) else Refuse;
        RunLengths(states, inputs);
        fault, alive := Happen(stimuli[k]);
        CameNow(states0, inputs0, states, inputs, stimuli[k], v);
        cuts := cuts0 + [|inputs|];
        forall j | 0 <= j < k ensures Came(states, inputs, cuts[j], cuts[j + 1], stimuli[j]) {
          CameStays(states0, inputs0, states, inputs, cuts0[j], cuts0[j + 1], stimuli[j]);
        }
        if fault.Some? || !alive { break; }
      }
      if ids <= U32 { Holds(); }
    }
  }

  /** The input a stimulus is to the end as it stands, if it may happen; requests about forwards are none. */
  ghost function Becomes(e: End, s: Stimulus, v: Verdict): seq<Input> {
    match s
    case Packet(p, _) => if !e.table.done && OnPacket(e.table, p, v).Effect? then [Arrives(p, v)] else []
    case Turn => if !e.table.done && e.ran < |e.log| then [RunsOrder] else []
    case Dialed(k, ok) => if k < |e.dialing| then [Resolves(k, ok)] else []
    case Wants(order) => if order.OpenTunnel? || order.OpenSession? then [Submits(order)] else []
    case Does(id, act) => if Ready(e, id, act) then [TaskActs(id, act)] else []
    case _ => []
  }

  /** From `a` to `b` the run is what the stimulus became, on some verdict. */
  ghost predicate Came(states: seq<End>, inputs: seq<Input>, a: nat, b: nat, s: Stimulus) {
    a <= b <= |inputs| && a < |states| && exists v :: inputs[a..b] == Becomes(states[a], s, v)
  }

  lemma RunLengths(states: seq<End>, inputs: seq<Input>)
    requires IsRun(states, inputs)
    ensures |states| == |inputs| + 1
  {
  }

  lemma CameNow(states: seq<End>, inputs: seq<Input>, states': seq<End>, inputs': seq<Input>, s: Stimulus, v: Verdict)
    requires |states| == |inputs| + 1 && states <= states' && inputs' == inputs + Becomes(states[|inputs|], s, v)
    ensures Came(states', inputs', |inputs|, |inputs'|, s)
  {
    hide Becomes;
    assert inputs'[|inputs|..] == Becomes(states'[|inputs|], s, v);
  }

  lemma CameStays(states: seq<End>, inputs: seq<Input>, states': seq<End>, inputs': seq<Input>, a: nat, b: nat, s: Stimulus)
    requires Came(states, inputs, a, b, s) && states <= states' && inputs <= inputs'
    ensures Came(states', inputs', a, b, s)
  {
    hide Becomes;
    var v :| inputs[a..b] == Becomes(states[a], s, v);
    assert inputs'[a..b] == inputs[a..b];
  }

  lemma ActIsStep(e: End, e': End, id: u32, act: Act)
    requires e.ran <= |e.log| && Ready(e, id, act) && Enabled(e, TaskActs(id, act))
    requires e' == e.(table := ActedTable(e.table, id, act), tasks := e.tasks[id := ActedTask(e.tasks[id], act)],
                      log := e.log + Orders(id, Issues(e.tasks[id], act)))
    ensures e' == Step(e, TaskActs(id, act))
  {
  }
}
