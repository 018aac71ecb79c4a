/** The transport object in a run (src/transport/mod.rs): driven through any events, it is the end of
Nonces.dfy, so every law of that end is a law of the object. */
module TransportRun {
  import opened Bytes
  import opened KexInit
  import opened Transport
  import opened Rekey
  import opened Nonces

  /** The object is where the run is, and its wire holds what the run sealed. */
  ghost predicate Mirrors(t: Transport, l: Lone)
    reads t
  {
    t.View() == l.end && t.wire == l.log
  }

  /** The transport object, driven through any events: its state and its wire are those of which
  `NeverReused` speaks. Events that are not allowed are passed over. */
  method Drive(t: Transport, cookie: seq<byte>, events: seq<Event>)
    requires t.View() == Fresh(t.side, t.hostAlgos, t.hostKey) && t.wire == []
    modifies t
    ensures Mirrors(t, Lives(Alone(t.side, t.hostAlgos, t.hostKey, cookie), events))
    ensures LoneOk(Lives(Alone(t.side, t.hostAlgos, t.hostKey, cookie), events))
  {
    hide LoneOk, Receive;
    t.RekeyInitiate(cookie, true);
    assert [] + t.wire == t.wire;
    for k := 0 to |events|
      invariant Mirrors(t, Lives(Alone(t.side, t.hostAlgos, t.hostKey, cookie), events[..k]))
    {
      assert events[..k + 1][..k] == events[..k];
      DriveOne(t, events[k]);
    }
    assert events[..|events|] == events;
    LivesOk(t.side, t.hostAlgos, t.hostKey, cookie, events);
  }

  method DriveOne(t: Transport, ev: Event)
    modifies t
    ensures if !old(Allowed(t.View(), ev)) then t.View() == old(t.View()) && t.wire == old(t.wire)
      else var o := React(old(t.View()), ev); t.View() == o.end && t.wire == old(t.wire) + o.sent
  {
    hide Receive;
    if t.fault.Some? {
      return;
    }
    match ev {
      case SendBody(body) =>
        if t.phase.Idle? && !t.ShouldRekey(false) {
          var _ := t.Send(body, false, []);
        }
      case Initiate(cookie) =>
        if t.phase.Idle? {
          t.RekeyInitiate(cookie, false);
        }
      case Pop =>
        if t.phase.Idle? && t.queued != [] {
          t.queued := t.queued[1..];
          assert t.wire == old(t.wire) + [];
        }
      case Meet(pkt, choice) =>
        var _ := t.Recv(pkt, choice);
      case Leave =>
        t.SendRaw(Disconnect);
        t.fault := Some(PeerLeft);
    }
  }
}
