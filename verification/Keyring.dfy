/** The agent's key store (src/agent/server.rs): identities that are added, replaced, expire, are removed
or locked away, and that sign only for a connection whose session bindings their constraints permit.

Requests are taken as parsed; a frame that does not parse is `Malformed`. */
module Keyring {
  import opened Bytes
  import opened AgentPath

  const LOCK_MAX_LEN: nat := 256

  type Blob = seq<byte>

  datatype Stored = Stored(blob: Blob, comment: seq<byte>, expires: Option<nat>, constraints: seq<Constraint>)

  datatype Binding = Binding(hostKey: Blob, sessionId: Blob, forwarding: bool)

  /** A constraint on an identity, as it comes in an add. */
  datatype Limit = Lifetime(secs: nat) | Restrict(payload: seq<byte>) | Unsupported

  datatype Request =
    | List
    | Sign(blob: Blob, data: seq<byte>)
    /** `sound`: the public copies match the seed, and a certificate certifies the key. */
    | Add(blob: Blob, comment: seq<byte>, sound: bool, limits: seq<Limit>)
    | Remove(blob: Blob)
    | RemoveAll
    | Lock(pass: seq<byte>)
    | Unlock(pass: seq<byte>)
    /** `proven`: the host's signature over the session id verifies. */
    | Bind(hostKey: Blob, sessionId: Blob, proven: bool, forwarding: bool)
    | Malformed

  datatype Response = Failure | Success | Identities(names: seq<(Blob, seq<byte>)>) | Signature(blob: Blob, data: seq<byte>)

  datatype Ring = Ring(keys: seq<Stored>, lock: Option<seq<byte>>)

  // ------------------------------------------------------------ the store

  predicate Alive(k: Stored, now: nat) { k.expires.None? || k.expires.value > now }

  function Purged(keys: seq<Stored>, now: nat): seq<Stored> {
    if keys == [] then [] else (if Alive(keys[0], now) then [keys[0]] else []) + Purged(keys[1..], now)
  }

  function Without(keys: seq<Stored>, blob: Blob): seq<Stored> {
    if keys == [] then [] else (if keys[0].blob != blob then [keys[0]] else []) + Without(keys[1..], blob)
  }

  function Find(keys: seq<Stored>, blob: Blob): Option<Stored> {
    if keys == [] then None else if keys[0].blob == blob then Some(keys[0]) else Find(keys[1..], blob)
  }

  function Names(keys: seq<Stored>): seq<(Blob, seq<byte>)> {
    if keys == [] then [] else [(keys[0].blob, keys[0].comment)] + Names(keys[1..])
  }

  /** What an add's limits come to: the last lifetime counts, the restrictions add up, and a limit that
  cannot be honoured refuses the add. */
  datatype Terms = Terms(expires: Option<nat>, constraints: seq<Constraint>)

  function Limited(limits: seq<Limit>, now: nat, so: Terms): Option<Terms> {
    if limits == [] then Some(so)
    else match limits[0]
      case Lifetime(secs) => if secs == 0 then None else Limited(limits[1..], now, so.(expires := Some(now + secs)))
      case Restrict(payload) =>
        var more :- ParseConstraints(payload);
        Limited(limits[1..], now, so.(constraints := so.constraints + more))
      case Unsupported => None
  }

  function Hosts(bindings: seq<Binding>): seq<Blob> {
    if bindings == [] then [] else [bindings[0].hostKey] + Hosts(bindings[1..])
  }

  predicate Bound(bindings: seq<Binding>, sessionId: Blob) {
    exists k :: 0 <= k < |bindings| && bindings[k].sessionId == sessionId
  }

  /** A session may be bound on top of a chain that does not hold it yet and still forwards. */
  predicate MayBind(bindings: seq<Binding>, sessionId: Blob) {
    !Bound(bindings, sessionId) && (bindings == [] || bindings[|bindings| - 1].forwarding)
  }

  /** A request's effect on the store and on the connection's chain, and its answer. */
  datatype Outcome = Outcome(ring: Ring, chain: seq<Binding>, response: Response)

  function Handle(o: Judge, ring: Ring, chain: seq<Binding>, now: nat, req: Request): Outcome {
    var keys := Purged(ring.keys, now);
    var kept := Ring(keys, ring.lock);
    if ring.lock.Some? && !req.Unlock? && !req.List? then Outcome(kept, chain, Failure)
    else match req
      case List => Outcome(kept, chain, Identities(if ring.lock.Some? then [] else Names(keys)))
      case Sign(blob, data) =>
        var found := Find(keys, blob);
        Outcome(kept, chain,
                if found.Some? && Permitted(o.At(now), found.value.constraints, Hosts(chain)) then Signature(blob, data) else Failure)
      case Add(blob, comment, sound, limits) =>
        var terms := Limited(limits, now, Terms(None, []));
        if !sound || terms.None? then Outcome(kept, chain, Failure)
        else
          var added := Stored(blob, comment, terms.value.expires, terms.value.constraints);
          Outcome(Ring(Without(keys, blob) + [added], ring.lock), chain, Success)
      case Remove(blob) =>
        if Find(keys, blob).None? then Outcome(kept, chain, Failure)
        else Outcome(Ring(Without(keys, blob), ring.lock), chain, Success)
      case RemoveAll => Outcome(Ring([], ring.lock), chain, Success)
      case Lock(pass) =>
        if |pass| > LOCK_MAX_LEN then Outcome(kept, chain, Failure) else Outcome(Ring(keys, Some(pass)), chain, Success)
      case Unlock(pass) =>
        if ring.lock == Some(pass) && |pass| <= LOCK_MAX_LEN then Outcome(Ring(keys, None), chain, Success)
        else Outcome(kept, chain, Failure)
      case Bind(hostKey, sessionId, proven, forwarding) =>
        if proven && MayBind(chain, sessionId)
        then Outcome(kept, chain + [Binding(hostKey, sessionId, forwarding)], Success)
        else Outcome(kept, chain, Failure)
      case Malformed => Outcome(kept, chain, Failure)
  }

  // ------------------------------------------------------------ runs

  /** A request on some connection at some time. */
  datatype Call = Call(conn: nat, now: nat, req: Request)

  datatype Sys = Sys(ring: Ring, chains: map<nat, seq<Binding>>)

  function ChainIn(s: Sys, conn: nat): seq<Binding> { if conn in s.chains then s.chains[conn] else [] }

  function Handled(o: Judge, s: Sys, c: Call): Outcome { Handle(o, s.ring, ChainIn(s, c.conn), c.now, c.req) }

  /** The store and the connections after the first `n` calls of a run. */
  function After(o: Judge, calls: seq<Call>, n: nat): Sys
    requires n <= |calls|
  {
    if n == 0 then Sys(Ring([], None), map[])
    else
      var s, c := After(o, calls, n - 1), calls[n - 1];
      var out := Handled(o, s, c);
      Sys(out.ring, s.chains[c.conn := out.chain])
  }

  function Answer(o: Judge, calls: seq<Call>, i: nat): Response
    requires i < |calls|
  {
    Handled(o, After(o, calls, i), calls[i]).response
  }

  /** Time does not run backwards. */
  predicate Timely(calls: seq<Call>) {
    forall i, j :: 0 <= i < j < |calls| ==> calls[i].now <= calls[j].now
  }

  // The history of a run, told by its requests and their answers alone.

  predicate Adds(o: Judge, calls: seq<Call>, i: nat, blob: Blob)
    requires i < |calls|
  {
    Answer(o, calls, i).Success? && calls[i].req.Add? && calls[i].req.blob == blob
  }

  predicate Drops(o: Judge, calls: seq<Call>, i: nat, blob: Blob)
    requires i < |calls|
  {
    Answer(o, calls, i).Success? && (calls[i].req.RemoveAll? || calls[i].req == Remove(blob))
  }

  /** The latest add of an identity that no removal has followed, among the first `n` calls. */
  function Standing(o: Judge, calls: seq<Call>, n: nat, blob: Blob): (r: Option<nat>)
    requires n <= |calls|
    ensures r.Some? ==> r.value < n
  {
    if n == 0 then None
    else if Adds(o, calls, n - 1, blob) then Some(n - 1)
    else if Drops(o, calls, n - 1, blob) then None
    else Standing(o, calls, n - 1, blob)
  }

  /** What it is: the latest add, with no add and no removal since. */
  lemma {:induction false} StandingMeans(o: Judge, calls: seq<Call>, n: nat, blob: Blob)
    requires n <= |calls|
    ensures match Standing(o, calls, n, blob)
      case Some(j) =>
        && Adds(o, calls, j, blob)
        && (forall k :: j < k < n ==> !Adds(o, calls, k, blob) && !Drops(o, calls, k, blob))
      case None =>
        forall j :: 0 <= j < n && Adds(o, calls, j, blob) ==> exists k :: j < k < n && Drops(o, calls, k, blob)
  {
    hide Adds, Drops;
    if n > 0 {
      StandingMeans(o, calls, n - 1, blob);
      if Standing(o, calls, n, blob).None? && !Drops(o, calls, n - 1, blob) {
        forall j | 0 <= j < n && Adds(o, calls, j, blob) ensures exists k :: j < k < n && Drops(o, calls, k, blob) {
          var k :| j < k < n - 1 && Drops(o, calls, k, blob);
        }
      }
    }
  }

  /** The passphrase of the latest lock not yet undone. */
  function LockHeld(o: Judge, calls: seq<Call>, n: nat): Option<seq<byte>>
    requires n <= |calls|
  {
    if n == 0 then None
    else if Answer(o, calls, n - 1).Success? && calls[n - 1].req.Lock? then Some(calls[n - 1].req.pass)
    else if Answer(o, calls, n - 1).Success? && calls[n - 1].req.Unlock? then None
    else LockHeld(o, calls, n - 1)
  }

  /** The sessions bound on a connection, in order. */
  function BoundOn(o: Judge, calls: seq<Call>, n: nat, conn: nat): seq<Binding>
    requires n <= |calls|
  {
    if n == 0 then []
    else
      var before, c := BoundOn(o, calls, n - 1, conn), calls[n - 1];
      if c.conn == conn && Answer(o, calls, n - 1).Success? && c.req.Bind?
      then before + [Binding(c.req.hostKey, c.req.sessionId, c.req.forwarding)]
      else before
  }

  /** What an add put in the store. */
  function StoredBy(c: Call): Option<Stored> {
    if !c.req.Add? then None
    else
      var terms :- Limited(c.req.limits, c.now, Terms(None, []));
      Some(Stored(c.req.blob, c.req.comment, terms.expires, terms.constraints))
  }

  // ------------------------------------------------------------ the store follows the history

  predicate Holds(keys: seq<Stored>, blob: Blob) { Find(keys, blob).Some? }

  /** No identity twice. */
  predicate Distinct(keys: seq<Stored>) {
    keys == [] || (!Holds(keys[1..], keys[0].blob) && Distinct(keys[1..]))
  }

  lemma {:induction false} FindPurged(keys: seq<Stored>, now: nat, blob: Blob)
    requires Distinct(keys)
    ensures Distinct(Purged(keys, now))
    ensures var f := Find(keys, blob); Find(Purged(keys, now), blob) == if f.Some? && Alive(f.value, now) then f else None
  {
    if keys != [] {
      FindPurged(keys[1..], now, blob);
      FindPurged(keys[1..], now, keys[0].blob);
      var rest := Purged(keys[1..], now);
      assert [keys[0]] + rest == Purged(keys, now) || rest == Purged(keys, now);
      assert ([keys[0]] + rest)[1..] == rest;
    }
  }

  lemma {:induction false} FindWithout(keys: seq<Stored>, gone: Blob, blob: Blob)
    requires Distinct(keys)
    ensures Distinct(Without(keys, gone))
    ensures Find(Without(keys, gone), blob) == if blob == gone then None else Find(keys, blob)
  {
    if keys != [] {
      FindWithout(keys[1..], gone, blob);
      FindWithout(keys[1..], gone, keys[0].blob);
      var rest := Without(keys[1..], gone);
      assert [keys[0]] + rest == Without(keys, gone) || rest == Without(keys, gone);
      assert ([keys[0]] + rest)[1..] == rest;
    }
  }

  lemma {:induction false} FindPushed(keys: seq<Stored>, k: Stored, blob: Blob)
    requires Distinct(keys) && !Holds(keys, k.blob)
    ensures Distinct(keys + [k])
    ensures Find(keys + [k], blob) == if blob == k.blob then Some(k) else Find(keys, blob)
  {
    if keys == [] {
      assert keys + [k] == [k] && [k][1..] == [];
    } else {
      FindPushed(keys[1..], k, blob);
      FindPushed(keys[1..], k, keys[0].blob);
      assert (keys + [k])[1..] == keys[1..] + [k] && (keys + [k])[0] == keys[0];
    }
  }

  /** What the store should hold of an identity after `n` calls. */
  function Expected(o: Judge, calls: seq<Call>, n: nat, blob: Blob): Option<Stored>
    requires n <= |calls|
  {
    var j :- Standing(o, calls, n, blob);
    var k :- StoredBy(calls[j]);
    if Alive(k, calls[n - 1].now) then Some(k) else None
  }

  /** What one request does to the store, identity by identity. */
  lemma HandleKeys(o: Judge, ring: Ring, chain: seq<Binding>, now: nat, req: Request, blob: Blob)
    requires Distinct(ring.keys)
    ensures var out := Handle(o, ring, chain, now, req);
      var f := Find(ring.keys, blob);
      var kept := if f.Some? && Alive(f.value, now) then f else None;
      && Distinct(out.ring.keys)
      && Find(out.ring.keys, blob) ==
         if out.response.Success? && req.Add? && req.blob == blob then StoredBy(Call(0, now, req))
         else if out.response.Success? && (req.RemoveAll? || req == Remove(blob)) then None
         else kept
  {
    hide Permitted, Limited, MayBind;
    var keys := Purged(ring.keys, now);
    FindPurged(ring.keys, now, blob);
    if req.Add? || req.Remove? {
      FindWithout(keys, req.blob, blob);
      FindWithout(keys, req.blob, req.blob);
      var terms := if req.Add? then Limited(req.limits, now, Terms(None, [])) else None;
      if req.Add? && terms.Some? {
        FindPushed(Without(keys, req.blob), Stored(req.blob, req.comment, terms.value.expires, terms.value.constraints), blob);
      }
    }
  }

  /** An identity just added has not expired. */
  lemma {:induction false} LimitsAhead(limits: seq<Limit>, now: nat, so: Terms)
    requires so.expires.None? || so.expires.value > now
    ensures var r := Limited(limits, now, so); r.Some? ==> r.value.expires.None? || r.value.expires.value > now
  {
    hide ParseConstraints;
    if limits != [] {
      match limits[0]
      case Lifetime(secs) => if secs > 0 { LimitsAhead(limits[1..], now, so.(expires := Some(now + secs))); }
      case Restrict(payload) =>
        var more := ParseConstraints(payload);
        if more.Some? { LimitsAhead(limits[1..], now, so.(constraints := so.constraints + more.value)); }
      case Unsupported =>
    }
  }

  lemma {:induction false} StoreFollows(o: Judge, calls: seq<Call>, n: nat, blob: Blob)
    requires n <= |calls| && Timely(calls)
    ensures Distinct(After(o, calls, n).ring.keys)
    ensures Find(After(o, calls, n).ring.keys, blob) == Expected(o, calls, n, blob)
  {
    hide Handle, Find, Distinct, Limited;
    if n == 0 {
      Nothing(blob);
    } else {
      StoreFollows(o, calls, n - 1, blob);
      var s, c := After(o, calls, n - 1), calls[n - 1];
      HandleKeys(o, s.ring, ChainIn(s, c.conn), c.now, c.req, blob);
      if c.req.Add? { LimitsAhead(c.req.limits, c.now, Terms(None, [])); }
      if n > 1 { assert calls[n - 2].now <= c.now; }
    }
  }

  lemma Nothing(blob: Blob)
    ensures Distinct([]) && Find([], blob) == None
  {
  }

  // ------------------------------------------------------------ the lock and the chains follow it too

  lemma HandleLock(o: Judge, ring: Ring, chain: seq<Binding>, now: nat, req: Request)
    ensures var out := Handle(o, ring, chain, now, req);
      out.ring.lock ==
        if out.response.Success? && req.Lock? then Some(req.pass)
        else if out.response.Success? && req.Unlock? then None
        else ring.lock
  {
    hide Permitted, Limited, MayBind, Purged, Find, Without;
  }

  lemma {:induction false} LockFollows(o: Judge, calls: seq<Call>, n: nat)
    requires n <= |calls|
    ensures After(o, calls, n).ring.lock == LockHeld(o, calls, n)
  {
    hide Handle;
    if n > 0 {
      LockFollows(o, calls, n - 1);
      var s, c := After(o, calls, n - 1), calls[n - 1];
      HandleLock(o, s.ring, ChainIn(s, c.conn), c.now, c.req);
    }
  }

  /** A chain keeps distinct session ids, and only its last binding may not forward. */
  predicate Chained(chain: seq<Binding>) {
    && (forall i, j :: 0 <= i < j < |chain| ==> chain[i].sessionId != chain[j].sessionId)
    && (forall i :: 0 <= i < |chain| - 1 ==> chain[i].forwarding)
  }

  lemma HandleChain(o: Judge, ring: Ring, chain: seq<Binding>, now: nat, req: Request)
    requires Chained(chain)
    ensures var out := Handle(o, ring, chain, now, req);
      && Chained(out.chain)
      && out.chain ==
         if out.response.Success? && req.Bind? then chain + [Binding(req.hostKey, req.sessionId, req.forwarding)] else chain
  {
    hide Permitted, Limited, Purged, Find, Without;
  }

  lemma {:induction false} ChainsFollow(o: Judge, calls: seq<Call>, n: nat, conn: nat)
    requires n <= |calls|
    ensures ChainIn(After(o, calls, n), conn) == BoundOn(o, calls, n, conn) && Chained(BoundOn(o, calls, n, conn))
  {
    hide Handle, Chained;
    if n == 0 {
      NoChain();
    } else {
      ChainsFollow(o, calls, n - 1, conn);
      var s, c := After(o, calls, n - 1), calls[n - 1];
      if c.conn == conn { HandleChain(o, s.ring, ChainIn(s, conn), c.now, c.req); }
    }
  }

  lemma NoChain()
    ensures Chained([])
  {
  }

  lemma WithoutStep(keys: seq<Stored>, k: nat, gone: Blob)
    requires k < |keys|
    ensures Without(keys[k..], gone) == (if keys[k].blob != gone then [keys[k]] else []) + Without(keys[k + 1..], gone)
  {
    assert keys[k..][1..] == keys[k + 1..];
  }

  lemma WithoutNone(keys: seq<Stored>, gone: Blob)
    ensures Without(keys[|keys|..], gone) == []
  {
  }

  // ------------------------------------------------------------ what a signature means

  /** A limit the agent can keep to: a lifetime of at least a second, or a restriction that parses. */
  predicate Honourable(l: Limit) {
    match l
    case Lifetime(secs) => secs > 0
    case Restrict(payload) => ParseConstraints(payload).Some?
    case Unsupported => false
  }

  predicate AllHonourable(limits: seq<Limit>) {
    forall k :: 0 <= k < |limits| ==> Honourable(limits[k])
  }

  function LastLifetime(limits: seq<Limit>): Option<nat> {
    if limits == [] then None
    else if limits[|limits| - 1].Lifetime? then Some(limits[|limits| - 1].secs)
    else LastLifetime(limits[..|limits| - 1])
  }

  /** The constraints of every restriction, in the order given. */
  function Restrictions(limits: seq<Limit>): seq<Constraint> {
    if limits == [] then [] else RestrictedBy(limits[0]) + Restrictions(limits[1..])
  }

  function RestrictedBy(l: Limit): seq<Constraint> {
    if l.Restrict? && ParseConstraints(l.payload).Some? then ParseConstraints(l.payload).value else []
  }

  lemma {:induction false} LastFromFront(limits: seq<Limit>)
    requires limits != []
    ensures LastLifetime(limits) ==
      if LastLifetime(limits[1..]).Some? then LastLifetime(limits[1..])
      else if limits[0].Lifetime? then Some(limits[0].secs) else None
  {
    var n := |limits| - 1;
    if n > 0 && !limits[n].Lifetime? {
      LastFromFront(limits[..n]);
      assert limits[..n][1..] == limits[1..][..n - 1];
    }
  }

  /** What an add's limits come to: nothing if one of them cannot be kept to; else the last lifetime is its
  end, and its constraints are those of all its restrictions. */
  lemma {:induction false} LimitedMeans(limits: seq<Limit>, now: nat, so: Terms)
    ensures var r, life := Limited(limits, now, so), LastLifetime(limits);
      && (r.Some? <==> AllHonourable(limits))
      && (r.Some? ==> r.value.constraints == so.constraints + Restrictions(limits))
      && (r.Some? ==> r.value.expires == if life.Some? then Some(now + life.value) else so.expires)
  {
    hide ParseConstraints;
    if limits == [] {
      assert so.constraints + [] == so.constraints;
    } else {
      var l, rest := limits[0], limits[1..];
      LastFromFront(limits);
      HonourableFront(limits);
      if Honourable(l) {
        var so' := if l.Lifetime? then so.(expires := Some(now + l.secs)) else so.(constraints := so.constraints + RestrictedBy(l));
        LimitedMeans(rest, now, so');
        Associative(so.constraints, RestrictedBy(l), Restrictions(rest));
        assert so.constraints + [] == so.constraints;
      }
    }
  }

  lemma HonourableFront(limits: seq<Limit>)
    requires limits != []
    ensures AllHonourable(limits) <==> Honourable(limits[0]) && AllHonourable(limits[1..])
  {
    hide Honourable;
    assert limits == [limits[0]] + limits[1..];
  }

  /** An add is granted exactly when nothing is locked, its keys match, and each of its limits can be kept. */
  lemma AddsExactlyWhen(o: Judge, calls: seq<Call>, i: nat)
    requires i < |calls| && calls[i].req.Add?
    ensures Answer(o, calls, i).Success? <==>
      LockHeld(o, calls, i).None? && calls[i].req.sound && AllHonourable(calls[i].req.limits)
  {
    hide Permitted, Limited, LockHeld, After, Honourable, Purged, Without;
    LockFollows(o, calls, i);
    LimitedMeans(calls[i].req.limits, calls[i].now, Terms(None, []));
  }

  /** An identity may sign for a connection at a call: nothing is locked; the identity stands, and the last
  lifetime it was added with, if any, has not passed; and it was added with no constraint at all, or the
  hosts bound on the connection are a walk from the origin along its constraints. */
  ghost predicate MaySign(o: Judge, calls: seq<Call>, i: nat, blob: Blob)
    requires i < |calls|
  {
    && LockHeld(o, calls, i).None?
    && Standing(o, calls, i, blob).Some?
    && var add := calls[Standing(o, calls, i, blob).value];
       && add.req.Add?
       && (LastLifetime(add.req.limits).Some? ==> add.now + LastLifetime(add.req.limits).value > calls[i].now)
       && var along, hosts := Restrictions(add.req.limits), Hosts(BoundOn(o, calls, i, calls[i].conn));
          along == [] || (hosts != [] && Walk(o.At(calls[i].now), along, None, hosts))
  }

  /** What the store makes of a standing add is what its limits say. */
  lemma StandingStored(o: Judge, calls: seq<Call>, n: nat, blob: Blob)
    requires n <= |calls| && Standing(o, calls, n, blob).Some?
    ensures var add := calls[Standing(o, calls, n, blob).value];
      && add.req.Add? && StoredBy(add).Some?
      && StoredBy(add).value.constraints == Restrictions(add.req.limits)
      && StoredBy(add).value.expires ==
           if LastLifetime(add.req.limits).Some? then Some(add.now + LastLifetime(add.req.limits).value) else None
  {
    hide Standing, Limited, Permitted, After, LastLifetime, Restrictions, AllHonourable, LockHeld;
    StandingMeans(o, calls, n, blob);
    var j := Standing(o, calls, n, blob).value;
    AddsExactlyWhen(o, calls, j);
    LimitedMeans(calls[j].req.limits, calls[j].now, Terms(None, []));
    assert [] + Restrictions(calls[j].req.limits) == Restrictions(calls[j].req.limits);
  }

  /** On every run, over any number of connections, a request to sign is answered with a signature exactly
  when that is so. */
  lemma SignsExactlyWhen(o: Judge, calls: seq<Call>, i: nat)
    requires i < |calls| && Timely(calls) && calls[i].req.Sign?
    ensures Answer(o, calls, i) == Signature(calls[i].req.blob, calls[i].req.data) <==> MaySign(o, calls, i, calls[i].req.blob)
  {
    hide Permitted, Limited, Standing, BoundOn, LockHeld, After, Hosts, Distinct, Without, LastLifetime, Restrictions, StoredBy, Walk;
    var blob, s := calls[i].req.blob, After(o, calls, i);
    StoreFollows(o, calls, i, blob);
    LockFollows(o, calls, i);
    ChainsFollow(o, calls, i, calls[i].conn);
    FindPurged(s.ring.keys, calls[i].now, blob);
    if i > 0 { assert calls[i - 1].now <= calls[i].now; }
    if Standing(o, calls, i, blob).Some? {
      StandingStored(o, calls, i, blob);
      var along := Restrictions(calls[Standing(o, calls, i, blob).value].req.limits);
      var hosts := Hosts(BoundOn(o, calls, i, calls[i].conn));
      if along != [] {
        PermittedIsWalk(o.At(calls[i].now), along, hosts);
      } else {
        Unconstrained(o.At(calls[i].now), hosts);
      }
    }
  }

  lemma Unconstrained(o: Oracle, hosts: seq<Blob>)
    ensures Permitted(o, [], hosts)
  {
  }

  /** An identity added for one path, of keys or of CAs that identify no two hops: with nothing locked, it
  signs for a connection exactly when the hosts bound there are the path's first hops, at least one. */
  lemma {:induction false} SignsAlongPath(o: Judge, calls: seq<Call>, i: nat, hops: seq<Destination>)
    requires i < |calls| && Timely(calls) && calls[i].req.Sign? && LockHeld(o, calls, i).None?
    requires Standing(o, calls, i, calls[i].req.blob).Some?
    requires Fits(ORIGIN, hops) && hops != [] && (PlainPath(hops) || CaPath(hops)) && DisjointPath(o.At(calls[i].now), hops)
    requires var add := calls[Standing(o, calls, i, calls[i].req.blob).value]; add.req.Add? && add.req.limits == [Restrict(EncodePath(hops))]
    ensures var hosts := Hosts(BoundOn(o, calls, i, calls[i].conn));
      Answer(o, calls, i) == Signature(calls[i].req.blob, calls[i].req.data) <==> hosts != [] && Follows(o.At(calls[i].now), hops, hosts)
  {
    hide Permitted, Standing, BoundOn, LockHeld, After, Hosts, Follows, PlainPath, CaPath, DisjointPath, Fits, ParseConstraints, EncodePath, Walk, Answer;
    var hosts, at := Hosts(BoundOn(o, calls, i, calls[i].conn)), o.At(calls[i].now);
    var limits := [Restrict(EncodePath(hops))];
    SignsExactlyWhen(o, calls, i);
    PathAcceptsPrefixes(at, hops, hosts);
    PathReadsBack(hops);
    StepsAt(Hop([]), hops);
    var cs := ParseConstraints(EncodePath(hops)).value;
    assert limits[1..] == [] && cs + [] == cs;
    assert Restrictions(limits) == cs;
    assert limits[..0] == [] && LastLifetime(limits) == None;
    assert cs != [];
    PermittedIsWalk(at, cs, hosts);
    assert MaySign(o, calls, i, calls[i].req.blob) <==> hosts != [] && Walk(at, cs, None, hosts);
  }

  /** The identity stands, and its lifetime has not passed. */
  predicate Current(o: Judge, calls: seq<Call>, i: nat, blob: Blob)
    requires i < |calls|
  {
    && Standing(o, calls, i, blob).Some?
    && var add := calls[Standing(o, calls, i, blob).value];
       add.req.Add? && (LastLifetime(add.req.limits).Some? ==> add.now + LastLifetime(add.req.limits).value > calls[i].now)
  }

  /** What the store holds of an identity, once what has expired is gone. */
  lemma CurrentHeld(o: Judge, calls: seq<Call>, i: nat, blob: Blob)
    requires i < |calls| && Timely(calls)
    ensures Distinct(Purged(After(o, calls, i).ring.keys, calls[i].now))
    ensures var k := Find(Purged(After(o, calls, i).ring.keys, calls[i].now), blob);
      && (k.Some? <==> Current(o, calls, i, blob))
      && (k.Some? ==> k.value.blob == blob && k.value.comment == calls[Standing(o, calls, i, blob).value].req.comment)
  {
    hide Permitted, Limited, Standing, After, Distinct, Without, LastLifetime, Restrictions;
    var s := After(o, calls, i);
    StoreFollows(o, calls, i, blob);
    FindPurged(s.ring.keys, calls[i].now, blob);
    if i > 0 { assert calls[i - 1].now <= calls[i].now; }
    if Standing(o, calls, i, blob).Some? {
      StandingStored(o, calls, i, blob);
      StandingMeans(o, calls, i, blob);
    }
  }

  /** A removal is granted exactly when nothing is locked and the identity is there to remove. */
  lemma RemovesExactlyWhen(o: Judge, calls: seq<Call>, i: nat)
    requires i < |calls| && Timely(calls) && calls[i].req.Remove?
    ensures Answer(o, calls, i).Success? <==> LockHeld(o, calls, i).None? && Current(o, calls, i, calls[i].req.blob)
  {
    hide Permitted, Limited, Standing, LockHeld, After, Purged, Find, Distinct, Without, Current;
    LockFollows(o, calls, i);
    CurrentHeld(o, calls, i, calls[i].req.blob);
  }

  /** A session is bound exactly when nothing is locked, its host proved itself, it is not bound on the
  connection already, and the last one bound there forwards. */
  lemma BindsExactlyWhen(o: Judge, calls: seq<Call>, i: nat)
    requires i < |calls| && calls[i].req.Bind?
    ensures var bound := BoundOn(o, calls, i, calls[i].conn);
      Answer(o, calls, i).Success? <==>
        && LockHeld(o, calls, i).None? && calls[i].req.proven
        && (forall k :: 0 <= k < |bound| ==> bound[k].sessionId != calls[i].req.sessionId)
        && (bound == [] || bound[|bound| - 1].forwarding)
  {
    hide Permitted, Limited, LockHeld, After, BoundOn, Purged, Without, Chained;
    LockFollows(o, calls, i);
    ChainsFollow(o, calls, i, calls[i].conn);
  }

  /** The rest: a lock is taken when none is held, on a passphrase short enough; all are removed unless
  locked; a frame that does not parse is a failure. */
  lemma OthersExactlyWhen(o: Judge, calls: seq<Call>, i: nat)
    requires i < |calls|
    ensures match calls[i].req
      case Lock(pass) => Answer(o, calls, i).Success? <==> LockHeld(o, calls, i).None? && |pass| <= LOCK_MAX_LEN
      case Unlock(pass) => Answer(o, calls, i).Success? <==> LockHeld(o, calls, i) == Some(pass)
      case RemoveAll => Answer(o, calls, i).Success? <==> LockHeld(o, calls, i).None?
      case Malformed => Answer(o, calls, i).Failure?
      case _ => true
  {
    hide Permitted, Limited, LockHeld, After, Purged, Find, Without;
    LockFollows(o, calls, i);
    LockShort(o, calls, i);
  }

  lemma {:induction false} NamedIs(keys: seq<Stored>, name: (Blob, seq<byte>))
    requires Distinct(keys)
    ensures name in Names(keys) <==> Find(keys, name.0).Some? && Find(keys, name.0).value.comment == name.1
  {
    if keys != [] {
      NamedIs(keys[1..], name);
      assert Names(keys) == [(keys[0].blob, keys[0].comment)] + Names(keys[1..]);
    }
  }

  /** A listing names exactly the identities there are, each with the comment of its latest add; and none
  while locked. */
  lemma ListsExactly(o: Judge, calls: seq<Call>, i: nat, name: (Blob, seq<byte>))
    requires i < |calls| && Timely(calls) && calls[i].req.List?
    ensures Answer(o, calls, i).Identities?
    ensures name in Answer(o, calls, i).names <==>
      LockHeld(o, calls, i).None? && Current(o, calls, i, name.0) && calls[Standing(o, calls, i, name.0).value].req.comment == name.1
  {
    hide Permitted, Limited, Standing, LockHeld, After, Purged, Find, Distinct, Without, Current, Names;
    LockFollows(o, calls, i);
    CurrentHeld(o, calls, i, name.0);
    NamedIs(Purged(After(o, calls, i).ring.keys, calls[i].now), name);
    StandingAdds(o, calls, i, name.0);
  }

  lemma StandingAdds(o: Judge, calls: seq<Call>, i: nat, blob: Blob)
    requires i < |calls|
    ensures Current(o, calls, i, blob) ==> Standing(o, calls, i, blob).Some? && calls[Standing(o, calls, i, blob).value].req.Add?
  {
  }

  /** A lock is undone by its own passphrase, and by no other; until then nothing but the unlocking and an
  empty list is answered. */
  lemma LockOpens(o: Judge, calls: seq<Call>, i: nat)
    requires i < |calls| && LockHeld(o, calls, i).Some?
    ensures |LockHeld(o, calls, i).value| <= LOCK_MAX_LEN
    ensures match calls[i].req
      case Unlock(pass) => Answer(o, calls, i).Success? <==> LockHeld(o, calls, i) == Some(pass)
      case List => Answer(o, calls, i) == Identities([])
      case _ => Answer(o, calls, i).Failure?
  {
    hide Permitted, Limited, After, Purged, Find, Without;
    LockFollows(o, calls, i);
    LockShort(o, calls, i);
  }

  lemma {:induction false} LockShort(o: Judge, calls: seq<Call>, n: nat)
    requires n <= |calls|
    ensures LockHeld(o, calls, n).Some? ==> |LockHeld(o, calls, n).value| <= LOCK_MAX_LEN
  {
    hide Permitted, Limited, After, Purged, Find, Without;
    if n > 0 { LockShort(o, calls, n - 1); }
  }

  // ------------------------------------------------------------ the store, updated in place

  /** The chain of sessions bound on one connection. */
  class ConnState {
    var bindings: seq<Binding>

    constructor ()
      ensures bindings == []
    {
      bindings := [];
    }

    method SessionBind(hostKey: Blob, sessionId: Blob, proven: bool, forwarding: bool) returns (ok: bool)
      modifies this
      ensures ok <==> proven && MayBind(old(bindings), sessionId)
      ensures bindings == old(bindings) + if ok then [Binding(hostKey, sessionId, forwarding)] else []
    {
      if !proven {
        return false;
      }
      for k := 0 to |bindings|
        invariant bindings == old(bindings)
        invariant forall j :: 0 <= j < k ==> bindings[j].sessionId != sessionId
      {
        if bindings[k].sessionId == sessionId {
          return false;
        }
      }
      if bindings != [] && !bindings[|bindings| - 1].forwarding {
        return false;
      }
      bindings := bindings + [Binding(hostKey, sessionId, forwarding)];
      return true;
    }
  }

  lemma Suffix(keys: seq<Stored>, k: nat)
    requires k < |keys|
    ensures keys[k..][0] == keys[k] && keys[k..][1..] == keys[k + 1..]
  {
  }

  lemma {:induction false} WithoutShrinks(keys: seq<Stored>, blob: Blob)
    ensures |Without(keys, blob)| <= |keys|
    ensures Holds(keys, blob) <==> |Without(keys, blob)| < |keys|
    ensures !Holds(keys, blob) ==> Without(keys, blob) == keys
  {
    if keys != [] {
      WithoutShrinks(keys[1..], blob);
      assert keys == [keys[0]] + keys[1..];
    }
  }

  /** Bytes laid over the start of a buffer of zeros. */
  function Overlaid(v: seq<byte>): seq<byte> {
    seq(LOCK_MAX_LEN, i requires 0 <= i => if i < |v| then v[i] else 0)
  }

  method CopyIn(buf: array<byte>, v: seq<byte>)
    requires buf.Length == LOCK_MAX_LEN && |v| <= LOCK_MAX_LEN
    requires forall i :: 0 <= i < buf.Length ==> buf[i] == 0
    modifies buf
    ensures buf[..] == Overlaid(v)
  {
    for k := 0 to |v|
      invariant forall i :: 0 <= i < buf.Length ==> buf[i] == if i < k then v[i] else 0
    {
      buf[k] := v[k];
    }
  }

  /** Every byte is looked at, whatever the first difference. */
  method BuffersEqual(a: array<byte>, b: array<byte>) returns (eq: bool)
    requires a.Length == b.Length == LOCK_MAX_LEN
    ensures eq <==> a[..] == b[..]
  {
    eq := true;
    for k := 0 to a.Length
      invariant eq <==> a[..k] == b[..k]
    {
      assert a[..k + 1] == a[..k] + [a[k]] && b[..k + 1] == b[..k] + [b[k]];
      eq := eq && a[k] == b[k];
    }
    assert a[..a.Length] == a[..] && b[..b.Length] == b[..];
  }

  /** Padded copies and lengths agree exactly when the passphrases do. */
  lemma OverlaidEqual(a: seq<byte>, b: seq<byte>)
    requires |a| <= LOCK_MAX_LEN && |b| <= LOCK_MAX_LEN
    ensures |a| == |b| && Overlaid(a) == Overlaid(b) <==> a == b
  {
    if |a| == |b| && Overlaid(a) == Overlaid(b) {
      forall i | 0 <= i < |a| ensures a[i] == b[i] {
        assert Overlaid(a)[i] == Overlaid(b)[i];
      }
    }
  }

  /** The padding alone would not do: a passphrase and the same with a zero byte after it look alike. */
  lemma PaddingAlone(a: seq<byte>)
    requires |a| < LOCK_MAX_LEN
    ensures Overlaid(a) == Overlaid(a + [0]) && a != a + [0]
  {
    assert |a + [0]| != |a|;
  }

  class Store {
    var keys: seq<Stored>
    var lock: Option<seq<byte>>

    constructor ()
      ensures keys == [] && lock == None
    {
      keys, lock := [], None;
    }

    method PurgeExpired(now: nat)
      modifies this`keys
      ensures keys == Purged(old(keys), now)
    {
      var kept: seq<Stored> := [];
      assert keys[0..] == keys;
      for k := 0 to |keys|
        invariant keys == old(keys) && kept + Purged(keys[k..], now) == Purged(keys, now)
      {
        Suffix(keys, k);
        if Alive(keys[k], now) {
          Associative(kept, [keys[k]], Purged(keys[k + 1..], now));
          kept := kept + [keys[k]];
        }
      }
      assert keys[|keys|..] == [];
      keys := kept;
    }

    method Retain(gone: Blob)
      modifies this`keys
      ensures keys == Without(old(keys), gone)
    {
      hide Without;
      var kept: seq<Stored> := [];
      assert keys[0..] == keys;
      for k := 0 to |keys|
        invariant keys == old(keys) && kept + Without(keys[k..], gone) == Without(keys, gone)
      {
        WithoutStep(keys, k, gone);
        if keys[k].blob != gone {
          Associative(kept, [keys[k]], Without(keys[k + 1..], gone));
          kept := kept + [keys[k]];
        }
      }
      WithoutNone(keys, gone);
      keys := kept;
    }

    method FindKey(blob: Blob) returns (r: Option<Stored>)
      ensures r == Find(keys, blob)
    {
      assert keys[0..] == keys;
      for k := 0 to |keys|
        invariant Find(keys, blob) == Find(keys[k..], blob)
      {
        Suffix(keys, k);
        if keys[k].blob == blob {
          return Some(keys[k]);
        }
      }
      assert keys[|keys|..] == [];
      return None;
    }

    /** The limits are read one by one; any that cannot be honoured refuses the add before the store is
    touched. Adding an identity again replaces it. */
    method Add(blob: Blob, comment: seq<byte>, sound: bool, limits: seq<Limit>, now: nat) returns (ok: bool)
      modifies this`keys
      ensures var terms := Limited(limits, now, Terms(None, []));
        && (ok <==> sound && terms.Some?)
        && keys == if ok then Without(old(keys), blob) + [Stored(blob, comment, terms.value.expires, terms.value.constraints)]
                   else old(keys)
    {
      hide ParseConstraints;
      if !sound {
        return false;
      }
      var expires: Option<nat>, constraints: seq<Constraint> := None, [];
      assert limits[0..] == limits;
      for k := 0 to |limits|
        invariant keys == old(keys)
        invariant Limited(limits, now, Terms(None, [])) == Limited(limits[k..], now, Terms(expires, constraints))
      {
        assert limits[k..][0] == limits[k] && limits[k..][1..] == limits[k + 1..];
        match limits[k] {
          case Lifetime(secs) =>
            if secs == 0 {
              return false;
            }
            expires := Some(now + secs);
          case Restrict(payload) =>
            var more := ReadConstraints(payload);
            if more.None? {
              return false;
            }
            constraints := constraints + more.value;
          case Unsupported => return false;
        }
      }
      assert limits[|limits|..] == [];
      Retain(blob);
      keys := keys + [Stored(blob, comment, expires, constraints)];
      return true;
    }

    method Remove(blob: Blob) returns (ok: bool)
      modifies this`keys
      ensures ok <==> Holds(old(keys), blob)
      ensures keys == if ok then Without(old(keys), blob) else old(keys)
    {
      var before := |keys|;
      WithoutShrinks(keys, blob);
      Retain(blob);
      return |keys| < before;
    }

    method SetLock(pass: seq<byte>) returns (ok: bool)
      modifies this`lock
      ensures ok <==> old(lock).None? && |pass| <= LOCK_MAX_LEN
      ensures lock == if ok then Some(pass) else old(lock)
    {
      if lock.Some? || |pass| > LOCK_MAX_LEN {
        return false;
      }
      lock := Some(pass);
      return true;
    }

    /** Fixed buffers are compared whole, and the lengths besides: together they agree exactly when the
    passphrases do. */
    method UnsetLock(pass: seq<byte>) returns (ok: bool)
      modifies this`lock
      ensures ok <==> old(lock) == Some(pass) && |pass| <= LOCK_MAX_LEN
      ensures lock == if ok then None else old(lock)
    {
      if lock.None? {
        return false;
      }
      var held := lock.value;
      if |held| > LOCK_MAX_LEN || |pass| > LOCK_MAX_LEN {
        return false;
      }
      var heldBuf := new byte[LOCK_MAX_LEN](_ => 0);
      var passBuf := new byte[LOCK_MAX_LEN](_ => 0);
      CopyIn(heldBuf, held);
      CopyIn(passBuf, pass);
      var lenMatches := |held| == |pass|;
      var bufMatches := BuffersEqual(heldBuf, passBuf);
      OverlaidEqual(held, pass);
      if !(lenMatches && bufMatches) {
        return false;
      }
      lock := None;
      return true;
    }

    method ListNames() returns (names: seq<(Blob, seq<byte>)>)
      ensures names == if lock.Some? then [] else Names(keys)
    {
      names := [];
      if lock.Some? {
        return;
      }
      assert keys[0..] == keys;
      for k := 0 to |keys|
        invariant names + Names(keys[k..]) == Names(keys)
      {
        Suffix(keys, k);
        Associative(names, [(keys[k].blob, keys[k].comment)], Names(keys[k + 1..]));
        names := names + [(keys[k].blob, keys[k].comment)];
      }
      assert keys[|keys|..] == [];
    }

    method SignWith(o: Oracle, chain: seq<Binding>, blob: Blob, data: seq<byte>) returns (r: Response)
      ensures var found := Find(keys, blob);
        r == if found.Some? && Permitted(o, found.value.constraints, Hosts(chain)) then Signature(blob, data) else Failure
    {
      var found := FindKey(blob);
      if found.None? {
        return Failure;
      }
      return if Permitted(o, found.value.constraints, Hosts(chain)) then Signature(blob, data) else Failure;
    }

    /** One request on a connection. */
    method HandleRequest(o: Judge, conn: ConnState, now: nat, req: Request) returns (r: Response)
      modifies this, conn
      ensures var out := Handle(o, Ring(old(keys), old(lock)), old(conn.bindings), now, req);
        r == out.response && Ring(keys, lock) == out.ring && conn.bindings == out.chain
    {
      hide Permitted, Limited, MayBind, Find, Without, Purged, Names, Hosts;
      PurgeExpired(now);
      if lock.Some? && !req.Unlock? && !req.List? {
        return Failure;
      }
      var ok := false;
      match req {
        case List =>
          var names := ListNames();
          return Identities(names);
        case Sign(blob, data) =>
          r := SignWith(o.At(now), conn.bindings, blob, data);
          return;
        case Add(blob, comment, sound, limits) => ok := Add(blob, comment, sound, limits, now);
        case Remove(blob) => ok := Remove(blob);
        case RemoveAll => keys, ok := [], true;
        case Lock(pass) => ok := SetLock(pass);
        case Unlock(pass) => ok := UnsetLock(pass);
        case Bind(hostKey, sessionId, proven, forwarding) => ok := conn.SessionBind(hostKey, sessionId, proven, forwarding);
        case Malformed =>
      }
      return if ok then Success else Failure;
    }
  }
}
