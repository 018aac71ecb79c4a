/** Global requests and remote forwards (src/connect/mux.rs: keepalives, tcpip-forward, and the opens a
forwarded listener sends; sections 4 and 7 of RFC 4254). */
module Forwards {
  import opened Bytes
  import opened Logs

  type Place = (string, u16)

  datatype Policy = DenyAll | AllowAll | Allow(list: seq<Place>)

  predicate Permits(p: Policy, host: string, port: u16) {
    match p
    case DenyAll => false
    case AllowAll => true
    case Allow(list) => exists k :: 0 <= k < |list| && (list[k].0 == "*" || list[k].0 == host) && (list[k].1 == 0 || list[k].1 == port)
  }

  function NormalizeBind(bind: string): string {
    if bind == "" || bind == "*" then "0.0.0.0" else if bind == "localhost" then "127.0.0.1" else bind
  }

  datatype Request = TcpipForward(bind: string, port: u32) | CancelForward(bind: string, port: u32) | Named(name: string)

  datatype Packet =
    | Ask(request: Request, wantReply: bool)
    | Granted(carried: Option<u32>)
    | Denied
    | Forwarded(addr: string, port: u16)

  /** A request sent and not yet answered. */
  datatype Pending = Forward(bind: string, port: u16, target: Place) | Keepalive

  datatype Globals = Globals(
    pending: seq<Pending>, forwards: map<Place, Place>, listeners: map<Place, nat>,
    outstanding: nat, recvSinceTick: bool, maxMissed: nat, listenPolicy: Policy)

  /** A socket listening for a remote forward, as the client asked for it, at its actual port. */
  datatype Listener = Listener(bind: string, actual: u16)

  datatype Done = Done(globals: Globals, sent: seq<Packet>, spawn: Option<Listener>) | Unresponsive

  const KEEPALIVE := "keepalive@openssh.com"

  // ------------------------------------------------------------ handlers

  function OnKeepaliveTick(g: Globals): Done {
    if g.recvSinceTick then Done(g.(recvSinceTick := false, outstanding := 0), [], None)
    else if g.outstanding >= g.maxMissed then Unresponsive
    else Done(g.(outstanding := g.outstanding + 1, pending := g.pending + [Keepalive]), [Ask(Named(KEEPALIVE), true)], None)
  }

  function OnRemoteForward(g: Globals, bind: string, port: u16, target: Place): Done {
    Done(g.(pending := g.pending + [Forward(bind, port, target)]), [Ask(TcpipForward(bind, port), true)], None)
  }

  function Replies(want: bool, p: Packet): seq<Packet> { if want then [p] else [] }

  function Narrow(port: u32): u16 { if port < U16 then port else 0 }

  /** `bound` is what binding a socket there came to, and `handle` names the listener it would be. */
  function OnTcpipForward(g: Globals, bind: string, wide: u32, want: bool, bound: Option<u16>, handle: nat): Done {
    var port := Narrow(wide);
    var addr := NormalizeBind(bind);
    if !Permits(g.listenPolicy, bind, port) && !Permits(g.listenPolicy, addr, port) then Done(g, Replies(want, Denied), None)
    else match bound
      case None => Done(g, Replies(want, Denied), None)
      case Some(actual) =>
        var listeners := if port != actual then g.listeners[(addr, port) := handle] else g.listeners;
        Done(g.(listeners := listeners[(addr, actual) := handle]),
             Replies(want, Granted(if port == 0 then Some(actual) else None)), Some(Listener(bind, actual)))
  }

  function OnRequest(g: Globals, r: Request, want: bool, bound: Option<u16>, handle: nat): Done {
    match r
    case TcpipForward(bind, port) => OnTcpipForward(g, bind, port, want, bound, handle)
    case CancelForward(bind, port) =>
      Done(g.(listeners := g.listeners - {(NormalizeBind(bind), Narrow(port))}), Replies(want, Granted(None)), None)
    case Named(_) => Done(g, Replies(want, Denied), None)
  }

  /** The port a granted forward is registered under. */
  function GrantedPort(asked: u16, reply: Option<u32>): u16 {
    if asked != 0 then asked else if reply.Some? then Narrow(reply.value) else 0
  }

  function OnReply(g: Globals, success: bool, port: Option<u32>): Globals {
    if g.pending == [] then g
    else
      var rest := g.(pending := g.pending[1..]);
      match g.pending[0]
      case Keepalive => rest.(outstanding := 0)
      case Forward(bind, asked, target) =>
        if success then rest.(forwards := g.forwards[(bind, GrantedPort(asked, port)) := target]) else rest
  }

  /** The target of a forwarded open: the exact place asked for, or a wildcard bind on that port. */
  function LookupRemote(g: Globals, addr: string, port: u16): Option<Place> {
    if (addr, port) in g.forwards then Some(g.forwards[(addr, port)])
    else if ("", port) in g.forwards then Some(g.forwards[("", port)])
    else if ("0.0.0.0", port) in g.forwards then Some(g.forwards[("0.0.0.0", port)])
    else if ("::", port) in g.forwards then Some(g.forwards[("::", port)])
    else if ("*", port) in g.forwards then Some(g.forwards[("*", port)])
    else None
  }

  // ------------------------------------------------------------ two ends

  /** One end: its globals; every request it ever sent; what it sent and received; the listeners it
  has, each under the number of the request that made it; and the opens they queued. With it, the policy
  it was set up with, and what binding a socket came to for each request received. */
  datatype End = End(
    globals: Globals, asked: seq<Pending>, out: seq<Packet>, heard: seq<Packet>,
    live: map<nat, Listener>, opens: seq<Listener>, ran: nat, policy: Policy, bounds: seq<Option<u16>>)

  datatype Input =
    | Hears(bound: Option<u16>)
    | Ticks
    | Forwards(bind: string, port: u16, target: Place)
    /** A listener accepts a connection and queues an open. */
    | Accepts(handle: nat)
    /** The loop comes to a queued open, and sends it unless the channel table is full. */
    | RunsOpen(full: bool)

  function RequestsIn(p: Packet): seq<Request> { if p.Ask? then [p.request] else [] }
  function RepliesIn(p: Packet): seq<Packet> { if p.Granted? || p.Denied? then [p] else [] }

  ghost function Requests(log: seq<Packet>): seq<Request> { Gather(log, RequestsIn) }
  ghost function Answers(log: seq<Packet>): seq<Packet> { Gather(log, RepliesIn) }

  /** A socket is bound where it was asked for, or at any port when port 0 was; and never where one of
  this end's listeners still is. */
  ghost predicate Binds(e: End, r: Request, bound: Option<u16>) {
    bound.Some? && r.TcpipForward? ==>
      && (Narrow(r.port) != 0 ==> bound.value == Narrow(r.port))
      && bound.value != 0
      && forall k <- e.live :: (NormalizeBind(e.live[k].bind), e.live[k].actual) != (NormalizeBind(r.bind), bound.value)
  }

  function HearPacket(e: End, p: Packet, bound: Option<u16>, handle: nat): Done {
    var g := e.globals.(recvSinceTick := true);
    match p
    case Ask(request, want) => OnRequest(g, request, want, bound, handle)
    case Granted(port) => Done(OnReply(g, true, port), [], None)
    case Denied => Done(OnReply(g, false, None), [], None)
    case Forwarded(_, _) => Done(g, [], None)
  }

  /** The packet `x` reads next. */
  function Coming(x: End, y: End): Packet
    requires |x.heard| < |y.out|
  {
    y.out[|x.heard|]
  }

  ghost predicate Enabled(x: End, y: End, i: Input) {
    match i
    case Hears(bound) => |x.heard| < |y.out| && (Coming(x, y).Ask? ==> Binds(x, Coming(x, y).request, bound))
    case Ticks => OnKeepaliveTick(x.globals).Done?
    case Forwards(_, _, _) => true
    case Accepts(handle) => handle in x.live
    case RunsOpen(_) => x.ran < |x.opens|
  }

  ghost function Step(x: End, y: End, i: Input): End
    requires Enabled(x, y, i)
  {
    match i
    case Hears(bound) =>
      var p, handle := Coming(x, y), |Requests(x.heard)|;
      var done := HearPacket(x, p, bound, handle);
      x.(globals := done.globals, out := x.out + done.sent, heard := x.heard + [p],
         live := if done.spawn.Some? then x.live[handle := done.spawn.value] else x.live,
         bounds := if p.Ask? then x.bounds + [bound] else x.bounds)
    case Ticks =>
      var done := OnKeepaliveTick(x.globals);
      x.(globals := done.globals, out := x.out + done.sent, asked := if done.sent == [] then x.asked else x.asked + [Keepalive])
    case Forwards(bind, port, target) =>
      var done := OnRemoteForward(x.globals, bind, port, target);
      x.(globals := done.globals, out := x.out + done.sent, asked := x.asked + [Forward(bind, port, target)])
    case Accepts(handle) => x.(opens := x.opens + [x.live[handle]])
    case RunsOpen(full) =>
      var l := x.opens[x.ran];
      x.(ran := x.ran + 1, out := if full then x.out else x.out + [Forwarded(l.bind, l.actual)])
  }

  // ------------------------------------------------------------ the invariant

  function AsRequest(p: Pending): Request {
    match p
    case Forward(bind, port, _) => TcpipForward(bind, port)
    case Keepalive => Named(KEEPALIVE)
  }

  /** The requests on the wire are those remembered, one for one; all want a reply. */
  ghost predicate Asked(x: End) {
    && |Requests(x.out)| == |x.asked|
    && (forall k :: 0 <= k < |x.asked| ==> Requests(x.out)[k] == AsRequest(x.asked[k]))
    && (forall k :: 0 <= k < |x.out| && x.out[k].Ask? ==> x.out[k].wantReply)
  }

  /** Each listener's request was granted, at its port; each forward granted has its listener. */
  ghost predicate Listening(x: End) {
    var requests, answers := Requests(x.heard), Answers(x.out);
    && |answers| == |requests|
    && (forall k <- x.live ::
          && k < |requests| && requests[k].TcpipForward? && requests[k].bind == x.live[k].bind && x.live[k].actual != 0
          && (if Narrow(requests[k].port) == 0 then answers[k] == Granted(Some(x.live[k].actual))
              else answers[k] == Granted(None) && x.live[k].actual == Narrow(requests[k].port)))
    && (forall k :: 0 <= k < |requests| && requests[k].TcpipForward? && answers[k].Granted? ==> k in x.live)
    && (forall k <- x.live, l <- x.live :: k != l ==> x.live[k] != x.live[l])
  }

  /** An open follows the answer that granted its listener. */
  ghost predicate Follows(x: End, l: Listener, answered: nat) {
    exists k <- x.live :: x.live[k] == l && k < answered
  }

  ghost predicate Opening(x: End) {
    && x.ran <= |x.opens|
    && (forall q :: 0 <= q < |x.opens| ==> Follows(x, x.opens[q], |Answers(x.out)|))
    && (forall q :: 0 <= q < |x.out| && x.out[q].Forwarded? ==>
          Follows(x, Listener(x.out[q].addr, x.out[q].port), |Answers(x.out[..q])|))
  }

  /** What an end still waits for is what it asked and has not heard answered. */
  ghost predicate Waiting(x: End) {
    var n := |Answers(x.heard)|;
    n <= |x.asked| && x.globals.pending == x.asked[n..]
  }

  /** Every granted forward whose answer was heard is registered, to its own target. */
  ghost predicate Registered(x: End, y: End) {
    forall k <- y.live :: k < |Answers(x.heard)| ==>
      && k < |x.asked| && x.asked[k].Forward?
      && (y.live[k].bind, y.live[k].actual) in x.globals.forwards
      && x.globals.forwards[(y.live[k].bind, y.live[k].actual)] == x.asked[k].target
  }

  ghost predicate Facing(x: End, y: End) {
    x.heard <= y.out && Asked(x) && Listening(x) && Opening(x) && Waiting(x) && Registered(x, y)
  }

  lemma Pushed(log: seq<Packet>, p: Packet)
    ensures Requests(log + [p]) == Requests(log) + RequestsIn(p) && Answers(log + [p]) == Answers(log) + RepliesIn(p)
  {
    GatherPush(log, p, RequestsIn);
    GatherPush(log, p, RepliesIn);
  }

  lemma Prefixes(a: seq<Packet>, b: seq<Packet>)
    requires a <= b
    ensures Requests(a) <= Requests(b) && Answers(a) <= Answers(b)
  {
    GatherPrefix(a, b, RequestsIn);
    GatherPrefix(a, b, RepliesIn);
  }

  /** The answer heard next, its request, and the listener it granted, if any. */
  lemma AnswerMatches(x: End, y: End)
    requires Facing(x, y) && Facing(y, x) && |x.heard| < |y.out| && RepliesIn(Coming(x, y)) != []
    ensures var n := |Answers(x.heard)|;
      && n < |x.asked| && x.globals.pending != [] && x.globals.pending[0] == x.asked[n] && x.globals.pending[1..] == x.asked[n + 1..]
      && n < |Answers(y.out)| && Answers(y.out)[n] == Coming(x, y)
      && n < |Requests(y.heard)| && Requests(y.heard)[n] == AsRequest(x.asked[n])
  {
    hide Registered, Opening;
    var p := Coming(x, y);
    Pushed(x.heard, p);
    Prefixes(x.heard + [p], y.out);
    Prefixes(y.heard, x.out);
  }

  // ------------------------------------------------------------ every step keeps it

  /** An end that only says more, and keeps its listeners or adds one not yet answered, is faced alike. */
  lemma FacedAlike(y: End, x: End, x': End)
    requires Facing(y, x) && Listening(x) && x.out <= x'.out
    requires forall k <- x'.live :: k >= |Answers(x.out)| || (k in x.live && x'.live[k] == x.live[k])
    ensures Facing(y, x')
  {
    hide Asked, Listening, Opening, Waiting;
    Prefixes(y.heard, x.out);
  }

  /** What was said stays said: an open still follows its answer, whatever is added. */
  lemma OpeningGrows(x: End, x': End, p: Packet)
    requires Opening(x) && x'.opens == x.opens && x'.ran == x.ran && x'.out == x.out + [p]
    requires forall k <- x.live :: k in x'.live && x'.live[k] == x.live[k]
    requires p.Forwarded? ==> Follows(x', Listener(p.addr, p.port), |Answers(x.out)|)
    ensures Opening(x')
  {
    hide Requests, Answers;
    Prefixes(x.out, x'.out);
    forall q | 0 <= q < |x'.opens| ensures Follows(x', x'.opens[q], |Answers(x'.out)|) {
      assert Follows(x, x.opens[q], |Answers(x.out)|);
      var k :| k in x.live && x.live[k] == x.opens[q] && k < |Answers(x.out)|;
      assert x'.live[k] == x'.opens[q];
    }
    forall q | 0 <= q < |x'.out| && x'.out[q].Forwarded?
      ensures Follows(x', Listener(x'.out[q].addr, x'.out[q].port), |Answers(x'.out[..q])|)
    {
      assert x'.out[..q] == x.out[..q];
      if q < |x.out| {
        var l := Listener(x.out[q].addr, x.out[q].port);
        assert Follows(x, l, |Answers(x.out[..q])|);
        var k :| k in x.live && x.live[k] == l && k < |Answers(x.out[..q])|;
        assert x'.live[k] == l;
      } else {
        assert x.out[..q] == x.out;
      }
    }
  }

  /** A request is sent: a keepalive, or a forward to be made. */
  lemma AskKeeps(x: End, y: End, p: Pending, x': End)
    requires Facing(x, y) && Facing(y, x)
    requires x' == x.(globals := x'.globals, out := x.out + [Ask(AsRequest(p), true)], asked := x.asked + [p])
    requires x'.globals.pending == x.globals.pending + [p] && x'.globals.forwards == x.globals.forwards
    ensures Facing(x', y) && Facing(y, x')
  {
    hide Requests, Answers, Follows;
    Pushed(x.out, Ask(AsRequest(p), true));
    OpeningGrows(x, x', Ask(AsRequest(p), true));
    FacedAlike(y, x, x');
    var n := |Answers(x.heard)|;
    assert x'.asked[n..] == x.asked[n..] + [p];
  }

  lemma TickKeeps(x: End, y: End)
    requires Facing(x, y) && Facing(y, x) && Enabled(x, y, Ticks)
    ensures var x' := Step(x, y, Ticks); Facing(x', y) && Facing(y, x')
  {
    hide Facing;
    var x' := Step(x, y, Ticks);
    if x.globals.recvSinceTick {
      assert x.out + [] == x.out;
      SameBut(x, y, x');
    } else {
      AskKeeps(x, y, Keepalive, x');
    }
  }

  /** Fields the invariant does not speak of. */
  lemma SameBut(x: End, y: End, x': End)
    requires Facing(x, y) && Facing(y, x)
    requires x' == x.(globals := x'.globals) && x'.globals.pending == x.globals.pending && x'.globals.forwards == x.globals.forwards
    ensures Facing(x', y) && Facing(y, x')
  {
    hide Requests, Answers, Follows;
    FollowsSame(x, x');
    FacedAlike(y, x, x');
  }

  lemma ForwardKeeps(x: End, y: End, bind: string, port: u16, target: Place)
    requires Facing(x, y) && Facing(y, x)
    ensures var x' := Step(x, y, Forwards(bind, port, target)); Facing(x', y) && Facing(y, x')
  {
    hide Facing;
    AskKeeps(x, y, Forward(bind, port, target), Step(x, y, Forwards(bind, port, target)));
  }

  lemma AcceptKeeps(x: End, y: End, handle: nat)
    requires Facing(x, y) && Facing(y, x) && Enabled(x, y, Accepts(handle))
    ensures var x' := Step(x, y, Accepts(handle)); Facing(x', y) && Facing(y, x')
  {
    hide Requests, Answers;
    var x' := Step(x, y, Accepts(handle));
    FacedAlike(y, x, x');
    assert Follows(x', x.live[handle], |Answers(x.out)|);
    forall l: Listener, n: nat | Follows(x, l, n) ensures Follows(x', l, n) {
      var k :| k in x.live && x.live[k] == l && k < n;
      assert x'.live[k] == l;
    }
  }

  lemma OpenKeeps(x: End, y: End, full: bool)
    requires Facing(x, y) && Facing(y, x) && Enabled(x, y, RunsOpen(full))
    ensures var x' := Step(x, y, RunsOpen(full)); Facing(x', y) && Facing(y, x')
  {
    hide Requests, Answers, Follows;
    var x', l := Step(x, y, RunsOpen(full)), x.opens[x.ran];
    FacedAlike(y, x, x');
    Pushed(x.out, Forwarded(l.bind, l.actual));
    FollowsSame(x, x.(ran := x.ran + 1));
    assert Opening(x.(ran := x.ran + 1));
    if !full {
      assert Follows(x, l, |Answers(x.out)|);
      FollowsSame(x, x');
      OpeningGrows(x.(ran := x.ran + 1), x', Forwarded(l.bind, l.actual));
    }
  }

  lemma FollowsSame(x: End, x': End)
    requires x.live == x'.live
    ensures forall l: Listener, n: nat :: Follows(x, l, n) == Follows(x', l, n)
  {
  }

  /** What a request comes to: one answer, and a listener exactly when a forward is granted. */
  lemma OneAnswer(g: Globals, r: Request, bound: Option<u16>, handle: nat)
    ensures var done := OnRequest(g, r, true, bound, handle);
      && done.Done? && done.globals.pending == g.pending && done.globals.forwards == g.forwards
      && |done.sent| == 1 && (done.sent[0].Granted? || done.sent[0].Denied?)
      && (done.spawn.Some? <==> r.TcpipForward? && done.sent[0].Granted?)
      && (done.spawn.Some? ==>
            && bound.Some? && done.spawn.value == Listener(r.bind, bound.value)
            && done.sent[0] == Granted(if Narrow(r.port) == 0 then Some(bound.value) else None))
  {
    hide Permits;
  }

  lemma ListeningGrows(x: End, y: End, bound: Option<u16>)
    requires Listening(x) && Asked(y) && Enabled(x, y, Hears(bound)) && Coming(x, y).Ask?
    ensures Listening(Step(x, y, Hears(bound)))
  {
    hide Requests, Answers, OnRequest;
    var p, n := Coming(x, y), |Requests(x.heard)|;
    var g := x.globals.(recvSinceTick := true);
    var done := OnRequest(g, p.request, true, bound, n);
    OneAnswer(g, p.request, bound, n);
    assert done.sent == [done.sent[0]];
    Pushed(x.out, done.sent[0]);
    Pushed(x.heard, p);
  }

  /** A request is heard and answered. */
  lemma AnswerKeeps(x: End, y: End, bound: Option<u16>)
    requires Facing(x, y) && Facing(y, x) && Enabled(x, y, Hears(bound)) && Coming(x, y).Ask?
    ensures var x' := Step(x, y, Hears(bound)); Facing(x', y) && Facing(y, x')
  {
    hide Requests, Answers, Follows, OnRequest;
    var x', p, n := Step(x, y, Hears(bound)), Coming(x, y), |Requests(x.heard)|;
    var g := x.globals.(recvSinceTick := true);
    var done := OnRequest(g, p.request, true, bound, n);
    OneAnswer(g, p.request, bound, n);
    var reply := done.sent[0];
    assert done.sent == [reply];
    ListeningGrows(x, y, bound);
    assert x'.out == x.out + [reply];
    hide Listening;
    ListeningCounts(x);
    Pushed(x.out, reply);
    Pushed(x.heard, p);
    FacedAlike(y, x, x');
    OpeningGrows(x, x', reply);
  }

  lemma ListeningCounts(x: End)
    requires Listening(x)
    ensures |Answers(x.out)| == |Requests(x.heard)| && forall k <- x.live :: k < |Answers(x.out)|
  {
  }

  /** A granted forward is registered under its listener's own place, beside those registered before. */
  lemma RegisteredGrows(x: End, y: End, bound: Option<u16>)
    requires Facing(x, y) && Facing(y, x) && Enabled(x, y, Hears(bound)) && RepliesIn(Coming(x, y)) != []
    ensures Registered(Step(x, y, Hears(bound)), y)
  {
    hide Requests, Answers, Opening, Waiting, Asked;
    Pushed(x.heard, Coming(x, y));
    AnswerMatches(x, y);
  }

  lemma WaitingOn(x: End, y: End, bound: Option<u16>)
    requires Facing(x, y) && Facing(y, x) && Enabled(x, y, Hears(bound)) && RepliesIn(Coming(x, y)) != []
    ensures Waiting(Step(x, y, Hears(bound)))
  {
    hide Requests, Answers, Opening, Registered, Asked, Listening;
    Pushed(x.heard, Coming(x, y));
    AnswerMatches(x, y);
  }

  /** Hearing anything but a request changes nothing of what this end said or listens to. */
  lemma SameSide(x: End, y: End, p: Packet, x': End)
    requires Asked(x) && Listening(x) && Opening(x) && !p.Ask?
    requires x' == x.(globals := x'.globals, heard := x.heard + [p])
    ensures Asked(x') && Listening(x') && Opening(x')
  {
    hide Requests, Answers, Follows;
    Pushed(x.heard, p);
    FollowsSame(x, x');
  }

  lemma HeardForwarded(x: End, y: End, p: Packet, x': End)
    requires Waiting(x) && Registered(x, y) && p.Forwarded?
    requires x' == x.(globals := x.globals.(recvSinceTick := true), heard := x.heard + [p])
    ensures Waiting(x') && Registered(x', y)
  {
    hide Requests, Answers;
    Pushed(x.heard, p);
  }

  /** An answer is heard, or a forwarded open. */
  lemma HearKeeps(x: End, y: End, bound: Option<u16>)
    requires Facing(x, y) && Facing(y, x) && Enabled(x, y, Hears(bound)) && !Coming(x, y).Ask?
    ensures var x' := Step(x, y, Hears(bound)); Facing(x', y) && Facing(y, x')
  {
    hide Requests, Answers, Registered, Waiting, Asked, Listening, Opening, OnReply;
    var x', p := Step(x, y, Hears(bound)), Coming(x, y);
    assert x.out + [] == x.out;
    if p.Forwarded? {
      HeardForwarded(x, y, p, x');
    } else {
      RegisteredGrows(x, y, bound);
      WaitingOn(x, y, bound);
    }
    SameSide(x, y, p, x');
    FacedAlike(y, x, x');
  }

  lemma StepKeeps(x: End, y: End, i: Input)
    requires Facing(x, y) && Facing(y, x) && Enabled(x, y, i)
    ensures Facing(Step(x, y, i), y) && Facing(y, Step(x, y, i))
  {
    hide Facing, Step, Binds;
    match i
    case Hears(bound) => if Coming(x, y).Ask? { AnswerKeeps(x, y, bound); } else { HearKeeps(x, y, bound); }
    case Ticks => TickKeeps(x, y);
    case Forwards(bind, port, target) => ForwardKeeps(x, y, bind, port, target);
    case Accepts(handle) => AcceptKeeps(x, y, handle);
    case RunsOpen(full) => OpenKeeps(x, y, full);
  }

  // ------------------------------------------------------------ every run

  datatype System = System(left: End, right: End)

  /** A fresh connection's globals, with its settings. */
  function Fresh(maxMissed: nat, policy: Policy): End {
    End(Globals([], map[], map[], 0, true, maxMissed, policy), [], [], [], map[], [], 0, policy, [])
  }

  ghost predicate Starts(s: System) {
    exists m: nat, n: nat, p: Policy, q: Policy :: s == System(Fresh(m, p), Fresh(n, q))
  }

  /** Which end steps, and how. */
  datatype Turn = Turn(leftSteps: bool, input: Input)

  ghost predicate Ready(s: System, t: Turn) {
    if t.leftSteps then Enabled(s.left, s.right, t.input) else Enabled(s.right, s.left, t.input)
  }

  ghost function Next(s: System, t: Turn): System
    requires Ready(s, t)
  {
    if t.leftSteps then s.(left := Step(s.left, s.right, t.input)) else s.(right := Step(s.right, s.left, t.input))
  }

  ghost predicate Reached(s: System, turns: seq<Turn>)
    decreases |turns|
  {
    if turns == [] then Starts(s)
    else exists before: System {:trigger Reached(before, turns[..|turns| - 1])} ::
      Reached(before, turns[..|turns| - 1]) && Ready(before, turns[|turns| - 1]) && s == Next(before, turns[|turns| - 1])
  }

  lemma FreshFaces(m: nat, n: nat, p: Policy, q: Policy)
    ensures Facing(Fresh(m, p), Fresh(n, q))
  {
  }

  lemma {:induction false} EveryRun(s: System, turns: seq<Turn>)
    requires Reached(s, turns)
    ensures Facing(s.left, s.right) && Facing(s.right, s.left)
    decreases |turns|
  {
    hide Facing, Ready, Next, Enabled;
    if turns == [] {
      var m: nat, n: nat, p: Policy, q: Policy :| s == System(Fresh(m, p), Fresh(n, q));
      FreshFaces(m, n, p, q);
      FreshFaces(n, m, q, p);
    } else {
      var last := turns[|turns| - 1];
      var before: System :| Reached(before, turns[..|turns| - 1]) && Ready(before, last) && s == Next(before, last);
      EveryRun(before, turns[..|turns| - 1]);
      NextKeeps(before, last);
    }
  }

  lemma NextKeeps(s: System, t: Turn)
    requires Facing(s.left, s.right) && Facing(s.right, s.left) && Ready(s, t)
    ensures Facing(Next(s, t).left, Next(s, t).right) && Facing(Next(s, t).right, Next(s, t).left)
  {
    hide Facing, Enabled, Step;
    if t.leftSteps { StepKeeps(s.left, s.right, t.input); } else { StepKeeps(s.right, s.left, t.input); }
  }

  function This(s: System, left: bool): End { if left then s.left else s.right }

  /** Replies and requests correlate by position: the reply an end reads next is the other's answer to the
  request at the head of its queue, keepalives included; and none ever comes that it did not ask for. */
  lemma RepliesCorrelate(s: System, turns: seq<Turn>, left: bool)
    requires Reached(s, turns)
    ensures var x, y := This(s, left), This(s, !left);
      |x.heard| < |y.out| && RepliesIn(Coming(x, y)) != [] ==>
        var n := |Answers(x.heard)|;
        && x.globals.pending != []
        && n < |Requests(y.heard)| && Requests(y.heard)[n] == AsRequest(x.globals.pending[0])
        && n < |Answers(y.out)| && Answers(y.out)[n] == Coming(x, y)
  {
    hide Reached, Facing;
    EveryRun(s, turns);
    var x, y := This(s, left), This(s, !left);
    if |x.heard| < |y.out| && RepliesIn(Coming(x, y)) != [] { AnswerMatches(x, y); }
  }

  /** Every forwarded open finds its place registered, with the target of the request that made the
  listener: the request of that number, which the listener's end granted. */
  lemma OpensFindTheirTarget(s: System, turns: seq<Turn>, left: bool)
    requires Reached(s, turns)
    ensures var x, y := This(s, left), This(s, !left);
      |x.heard| < |y.out| && Coming(x, y).Forwarded? ==>
        var p := Coming(x, y);
        exists k <- y.live ::
          && y.live[k] == Listener(p.addr, p.port)
          && k < |x.asked| && x.asked[k].Forward? && x.asked[k].bind == p.addr
          && (x.asked[k].port == p.port || x.asked[k].port == 0)
          && LookupRemote(x.globals, p.addr, p.port) == Some(x.asked[k].target)
  {
    hide Reached, Facing;
    EveryRun(s, turns);
    var x, y := This(s, left), This(s, !left);
    if |x.heard| < |y.out| && Coming(x, y).Forwarded? { OpenFinds(x, y); }
  }

  lemma OpenFinds(x: End, y: End)
    requires Facing(x, y) && Facing(y, x) && |x.heard| < |y.out| && Coming(x, y).Forwarded?
    ensures var p := Coming(x, y);
      exists k <- y.live ::
        && y.live[k] == Listener(p.addr, p.port)
        && k < |x.asked| && x.asked[k].Forward? && x.asked[k].bind == p.addr
        && (x.asked[k].port == p.port || x.asked[k].port == 0)
        && LookupRemote(x.globals, p.addr, p.port) == Some(x.asked[k].target)
  {
    hide Requests, Answers, Waiting;
    var p := Coming(x, y);
    assert y.out[..|x.heard|] == x.heard;
    var k :| k in y.live && y.live[k] == Listener(p.addr, p.port) && k < |Answers(x.heard)|;
    Prefixes(y.heard, x.out);
    assert Requests(y.heard)[k] == AsRequest(x.asked[k]);
  }

  // ------------------------------------------------------------ the listen policy

  /** An entry of a policy names a host: by name, or any. */
  predicate Covers(entry: Place, host: string, port: u16) {
    (entry.0 == "*" || entry.0 == host) && (entry.1 == 0 || entry.1 == port)
  }

  /** A policy allows a place: it allows all, or an entry of its list covers the place. */
  predicate Allowed(p: Policy, host: string, port: u16) {
    p.AllowAll? || (p.Allow? && exists entry <- p.list :: Covers(entry, host, port))
  }

  /** The address a bind stands for: a wildcard is every interface, `localhost` the loopback. */
  predicate StandsFor(bind: string, addr: string) {
    if bind in {"", "*"} then addr == "0.0.0.0" else if bind == "localhost" then addr == "127.0.0.1" else addr == bind
  }

  /** Listening on `bind` is allowed, as asked or as what it stands for. */
  predicate MayListen(p: Policy, bind: string, port: u16) {
    Allowed(p, bind, port) || exists addr :: addr in {bind, "0.0.0.0", "127.0.0.1"} && StandsFor(bind, addr) && Allowed(p, addr, port)
  }

  lemma PermitsMeans(p: Policy, host: string, port: u16)
    ensures Permits(p, host, port) <==> Allowed(p, host, port)
  {
    if Permits(p, host, port) && p.Allow? {
      var k :| 0 <= k < |p.list| && (p.list[k].0 == "*" || p.list[k].0 == host) && (p.list[k].1 == 0 || p.list[k].1 == port);
      assert Covers(p.list[k], host, port);
    }
    if Allowed(p, host, port) && p.Allow? {
      var entry :| entry in p.list && Covers(entry, host, port);
      var k :| 0 <= k < |p.list| && p.list[k] == entry;
    }
  }

  lemma ListenMeans(p: Policy, bind: string, port: u16)
    ensures Permits(p, bind, port) || Permits(p, NormalizeBind(bind), port) <==> MayListen(p, bind, port)
  {
    hide Permits, Allowed;
    var addr := NormalizeBind(bind);
    PermitsMeans(p, bind, port);
    PermitsMeans(p, addr, port);
    assert StandsFor(bind, addr);
    forall a | StandsFor(bind, a) ensures a == addr {
    }
  }

  /** What is refused: a listener the policy does not allow, or whose socket cannot be bound; and any
  request that is not about forwards. */
  predicate Refusable(p: Policy, r: Request, bound: Option<u16>) {
    match r
    case TcpipForward(bind, port) => !MayListen(p, bind, if port < U16 then port else 0) || bound.None?
    case CancelForward(_, _) => false
    case Named(_) => true
  }

  lemma AnswerMeans(g: Globals, r: Request, bound: Option<u16>, handle: nat)
    ensures var done := OnRequest(g, r, true, bound, handle);
      && done.globals.listenPolicy == g.listenPolicy && |done.sent| == 1
      && (done.sent[0] == Denied <==> Refusable(g.listenPolicy, r, bound))
  {
    hide Permits, MayListen, NormalizeBind;
    if r.TcpipForward? { ListenMeans(g.listenPolicy, r.bind, Narrow(r.port)); }
  }

  /** Every request received has been denied if it was to be, and granted if not. */
  ghost predicate Policed(x: End) {
    var requests, answers := Requests(x.heard), Answers(x.out);
    && x.globals.listenPolicy == x.policy && |x.bounds| == |requests| == |answers|
    && (forall k :: 0 <= k < |requests| ==> (answers[k] == Denied <==> Refusable(x.policy, requests[k], x.bounds[k])))
    && (forall k <- x.live :: k < |requests| && x.bounds[k] == Some(x.live[k].actual))
  }

  lemma AnswerPoliced(x: End, y: End, bound: Option<u16>)
    requires Policed(x) && Asked(y) && Enabled(x, y, Hears(bound)) && Coming(x, y).Ask?
    ensures Policed(Step(x, y, Hears(bound)))
  {
    hide Requests, Answers, OnRequest, Refusable;
    var p, n := Coming(x, y), |Requests(x.heard)|;
    var g := x.globals.(recvSinceTick := true);
    var done := OnRequest(g, p.request, true, bound, n);
    AnswerMeans(g, p.request, bound, n);
    OneAnswer(g, p.request, bound, n);
    assert done.sent == [done.sent[0]];
    Pushed(x.out, done.sent[0]);
    Pushed(x.heard, p);
  }

  lemma StepPoliced(x: End, y: End, i: Input)
    requires Policed(x) && Asked(y) && Enabled(x, y, i)
    ensures Policed(Step(x, y, i))
  {
    hide Requests, Answers, Refusable, OnRequest;
    match i
    case Hears(bound) =>
      if Coming(x, y).Ask? {
        AnswerPoliced(x, y, bound);
      } else {
        assert x.out + [] == x.out;
        Pushed(x.heard, Coming(x, y));
      }
    case Ticks =>
      assert x.out + [] == x.out;
      Pushed(x.out, Ask(Named(KEEPALIVE), true));
    case Forwards(bind, port, _) => Pushed(x.out, Ask(TcpipForward(bind, port), true));
    case Accepts(_) =>
    case RunsOpen(_) => Pushed(x.out, Forwarded(x.opens[x.ran].bind, x.opens[x.ran].actual));
  }

  lemma FreshPoliced(m: nat, p: Policy)
    ensures Policed(Fresh(m, p))
  {
  }

  lemma NextPoliced(s: System, t: Turn)
    requires Facing(s.left, s.right) && Facing(s.right, s.left) && Ready(s, t) && Policed(s.left) && Policed(s.right)
    ensures Policed(Next(s, t).left) && Policed(Next(s, t).right)
  {
    hide Policed, Enabled, Step, Listening, Opening, Waiting, Registered, Asked;
    if t.leftSteps { StepPoliced(s.left, s.right, t.input); } else { StepPoliced(s.right, s.left, t.input); }
  }

  lemma {:induction false} EveryPoliced(s: System, turns: seq<Turn>)
    requires Reached(s, turns)
    ensures Policed(s.left) && Policed(s.right)
    decreases |turns|
  {
    hide Facing, Ready, Next, Enabled, Policed;
    if turns == [] {
      var m: nat, n: nat, p: Policy, q: Policy :| s == System(Fresh(m, p), Fresh(n, q));
      FreshPoliced(m, p);
      FreshPoliced(n, q);
    } else {
      var last := turns[|turns| - 1];
      var before: System :| Reached(before, turns[..|turns| - 1]) && Ready(before, last) && s == Next(before, last);
      EveryRun(before, turns[..|turns| - 1]);
      EveryPoliced(before, turns[..|turns| - 1]);
      NextPoliced(before, last);
    }
  }

  /** On every run: an end listens only where the policy it was set up with allows it, as asked for or as
  what that stands for, and at the port asked for; and it denies a forward exactly when the policy does
  not allow it or the socket could not be bound. */
  lemma ListensAsAllowed(s: System, turns: seq<Turn>, left: bool)
    requires Reached(s, turns)
    ensures var x := This(s, left);
      var requests, answers := Requests(x.heard), Answers(x.out);
      && |x.bounds| == |requests| == |answers|
      && (forall k <- x.live ::
            && k < |requests| && requests[k].TcpipForward? && x.live[k].bind == requests[k].bind
            && MayListen(x.policy, requests[k].bind, if requests[k].port < U16 then requests[k].port else 0))
      && (forall k :: 0 <= k < |requests| && requests[k].TcpipForward? ==>
            (answers[k] == Denied <==>
               !MayListen(x.policy, requests[k].bind, if requests[k].port < U16 then requests[k].port else 0) || x.bounds[k].None?))
  {
    hide Reached, Requests, Answers, MayListen, Asked, Opening, Waiting, Registered;
    EveryRun(s, turns);
    EveryPoliced(s, turns);
    var x := This(s, left);
    assert Listening(x) && Policed(x);
  }

  // ------------------------------------------------------------ the listeners, by place

  /** A live listener is found under the address it is bound to and its actual port. */
  ghost predicate Indexed(x: End) {
    forall k <- x.live ::
      var place := (NormalizeBind(x.live[k].bind), x.live[k].actual);
      place in x.globals.listeners && x.globals.listeners[place] == k && k < |Requests(x.heard)|
  }

  /** No SHH end asks to cancel. */
  lemma NeverCancels(y: End, n: nat)
    requires Asked(y) && n < |y.out| && y.out[n].Ask?
    ensures !y.out[n].request.CancelForward?
  {
    hide Requests, Answers;
    var a := y.out[..n];
    Pushed(a, y.out[n]);
    assert a + [y.out[n]] == y.out[..n + 1];
    Prefixes(y.out[..n + 1], y.out);
    var k := |Requests(a)|;
    assert Requests(y.out)[k] == y.out[n].request;
  }

  lemma HearIndexed(x: End, y: End, bound: Option<u16>)
    requires Indexed(x) && Listening(x) && Asked(y) && Enabled(x, y, Hears(bound)) && Coming(x, y).Ask?
    ensures Indexed(Step(x, y, Hears(bound)))
  {
    hide Requests, Answers, NormalizeBind, Permits, Asked;
    NeverCancels(y, |x.heard|);
    Pushed(x.heard, Coming(x, y));
  }

  lemma StepIndexed(x: End, y: End, i: Input)
    requires Indexed(x) && Listening(x) && Asked(y) && Enabled(x, y, i)
    ensures Indexed(Step(x, y, i))
  {
    hide Requests, Answers, NormalizeBind, OnRequest, Asked, Listening;
    match i
    case Hears(bound) => if Coming(x, y).Ask? { HearIndexed(x, y, bound); } else { Pushed(x.heard, Coming(x, y)); }
    case _ =>
  }

  lemma NextIndexed(s: System, t: Turn)
    requires Facing(s.left, s.right) && Facing(s.right, s.left) && Ready(s, t) && Indexed(s.left) && Indexed(s.right)
    ensures Indexed(Next(s, t).left) && Indexed(Next(s, t).right)
  {
    hide Indexed, Enabled, Step, Listening, Opening, Waiting, Registered, Asked;
    if t.leftSteps { StepIndexed(s.left, s.right, t.input); } else { StepIndexed(s.right, s.left, t.input); }
  }

  /** On every run a live listener is the one its place finds, so that cancelling there would end it. */
  lemma {:induction false} EveryIndexed(s: System, turns: seq<Turn>)
    requires Reached(s, turns)
    ensures Indexed(s.left) && Indexed(s.right)
    decreases |turns|
  {
    hide Facing, Ready, Next, Enabled;
    if turns != [] {
      var last := turns[|turns| - 1];
      var before: System :| Reached(before, turns[..|turns| - 1]) && Ready(before, last) && s == Next(before, last);
      EveryRun(before, turns[..|turns| - 1]);
      EveryIndexed(before, turns[..|turns| - 1]);
      NextIndexed(before, last);
    }
  }

  /** Cancelling where a live listener is bound takes that listener out, and no other; it is always granted. */
  lemma CancelFinds(x: End, k: nat, handle: nat)
    requires Indexed(x) && k in x.live
    ensures var l := x.live[k];
      var place := (NormalizeBind(l.bind), l.actual);
      var done := OnRequest(x.globals, CancelForward(l.bind, l.actual), true, None, handle);
      && x.globals.listeners[place] == k
      && done == Done(x.globals.(listeners := done.globals.listeners), [Granted(None)], None)
      && done.globals.listeners.Keys == x.globals.listeners.Keys - {place}
      && forall p <- done.globals.listeners :: done.globals.listeners[p] == x.globals.listeners[p]
  {
  }

  /** A forward granted can be cancelled by the port that was asked for as well as by the port it has: both
  find its listener, and no other place is touched. A port past 16 bits counts as 0. */
  lemma GrantIndexes(g: Globals, bind: string, port: u32, want: bool, actual: u16, handle: nat, addr: string, at: u16)
    requires MayListen(g.listenPolicy, bind, if port < U16 then port else 0) && (StandsFor(bind, addr) || addr == bind)
    ensures var done := OnRequest(g, TcpipForward(bind, port), want, Some(actual), handle);
      var place := (NormalizeBind(addr), at);
      && done.Done? && done.spawn.Some?
      && (if at == actual || at == (if port < U16 then port else 0)
          then place in done.globals.listeners && done.globals.listeners[place] == handle
          else place in done.globals.listeners <==> place in g.listeners)
      && (forall p <- g.listeners :: p.0 != NormalizeBind(bind) ==> p in done.globals.listeners && done.globals.listeners[p] == g.listeners[p])
  {
    ListenMeans(g.listenPolicy, bind, if port < U16 then port else 0);
  }

  /** A reply settles the oldest request and no other: a probe's clears the count of those missed; a
  forward's, if it was granted, registers its target under the place asked for, the port given to it
  standing in for port 0. */
  lemma ReplyMeans(g: Globals, success: bool, carried: Option<u32>)
    requires g.pending != []
    ensures var h := OnReply(g, success, carried);
      && h == g.(pending := g.pending[1..], outstanding := h.outstanding, forwards := h.forwards)
      && match g.pending[0]
         case Keepalive => h.outstanding == 0 && h.forwards == g.forwards
         case Forward(bind, asked, target) =>
           && h.outstanding == g.outstanding
           && (!success ==> h.forwards == g.forwards)
           && (success && asked != 0 ==> h.forwards == g.forwards[(bind, asked) := target])
           && (success && asked == 0 && carried.Some? && carried.value < U16 ==> h.forwards == g.forwards[(bind, carried.value) := target])
  {
  }

  // ------------------------------------------------------------ a silent peer

  /** The globals after `n` ticks in a row with nothing received; none once the peer is given up. */
  function AfterTicks(g: Globals, n: nat): Option<Globals> {
    if n == 0 then Some(g)
    else
      var before :- AfterTicks(g, n - 1);
      match OnKeepaliveTick(before)
      case Done(after, _, _) => Some(after)
      case Unresponsive => None
  }

  /** A peer is given up at the tick after its last chance and no sooner: heard from before, it lasts one
  tick, and one more for each probe it may miss; and each of those ticks but the first sends a probe. */
  lemma {:induction false} SilenceEnds(g: Globals, n: nat)
    requires g.recvSinceTick
    ensures AfterTicks(g, n).Some? <==> n <= g.maxMissed + 1
    ensures 0 < n <= g.maxMissed + 1 ==>
      var h := AfterTicks(g, n).value;
      !h.recvSinceTick && h.outstanding == n - 1 && h.maxMissed == g.maxMissed && |h.pending| == |g.pending| + n - 1
  {
    if n > 0 { SilenceEnds(g, n - 1); }
  }
}
