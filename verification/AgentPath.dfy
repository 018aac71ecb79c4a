/** Destination constraints: their encoding, their parsing, and what a chain of session bindings must
be to satisfy them (src/agent/mod.rs, src/agent/server.rs). */
module AgentPath {
  import opened Bytes
  import opened Wire

  /** A host key, or a CA key that vouches for hosts. */
  datatype Entry = Entry(blob: seq<byte>, isCa: bool)

  /** A hop with no keys is the local origin. */
  datatype Hop = Hop(keys: seq<Entry>)

  datatype Constraint = Constraint(from: Hop, to: Hop)

  datatype Destination = Destination(user: seq<byte>, host: seq<byte>, keys: seq<Entry>)

  // ------------------------------------------------------------ encoding

  function EncodeEntry(e: Entry): seq<byte>
    requires |e.blob| < U32
  {
    EncodeString(e.blob) + EncodeBool(e.isCa)
  }

  predicate ShortKeys(keys: seq<Entry>) {
    forall k :: 0 <= k < |keys| ==> |keys[k].blob| < U32
  }

  function EncodeKeys(keys: seq<Entry>): seq<byte>
    requires ShortKeys(keys)
  {
    if keys == [] then [] else EncodeEntry(keys[0]) + EncodeKeys(keys[1..])
  }

  predicate ShortHop(d: Destination) {
    |d.user| < U32 && |d.host| < U32 && ShortKeys(d.keys)
  }

  function EncodeHop(d: Destination): seq<byte>
    requires ShortHop(d)
  {
    EncodeString(d.user) + (EncodeString(d.host) + (EncodeString([]) + EncodeKeys(d.keys)))
  }

  const ORIGIN := Destination([], [], [])

  /** The two hops of a constraint fit the 32-bit length of the string that wraps them. */
  predicate ShortPair(from: seq<byte>, to: seq<byte>) {
    |from| + |to| + 12 < U32
  }

  function EncodeConstraint(from: seq<byte>, to: seq<byte>): seq<byte>
    requires ShortPair(from, to)
  {
    EncodeString(EncodeString(from) + (EncodeString(to) + EncodeString([])))
  }

  /** Every length in the encoding of a path fits its 32-bit prefix. */
  predicate Fits(from: Destination, hops: seq<Destination>)
    decreases |hops|
  {
    && ShortHop(from)
    && (hops != [] ==> ShortHop(hops[0]) && ShortPair(EncodeHop(from), EncodeHop(hops[0])) && Fits(hops[0], hops[1..]))
  }

  function EncodeHops(from: Destination, hops: seq<Destination>): seq<byte>
    requires Fits(from, hops)
    decreases |hops|
  {
    if hops == [] then []
    else EncodeConstraint(EncodeHop(from), EncodeHop(hops[0])) + EncodeHops(hops[0], hops[1..])
  }

  function EncodePath(hops: seq<Destination>): seq<byte>
    requires Fits(ORIGIN, hops)
  {
    EncodeHops(ORIGIN, hops)
  }

  /** The loop that builds it: each constraint runs from the last hop to the next. */
  method PathBytes(hops: seq<Destination>) returns (b: seq<byte>)
    requires Fits(ORIGIN, hops)
    ensures b == EncodePath(hops)
  {
    hide EncodeConstraint, EncodeHop, ShortPair;
    var list := new Writer();
    var from := EncodeHop(ORIGIN);
    ghost var at := ORIGIN;
    assert hops[0..] == hops;
    for k := 0 to |hops|
      invariant fresh(list) && Fits(at, hops[k..]) && from == EncodeHop(at)
      invariant list.buf + EncodeHops(at, hops[k..]) == EncodePath(hops)
    {
      assert hops[k..][0] == hops[k] && hops[k..][1..] == hops[k + 1..];
      var to := EncodeHop(hops[k]);
      Associative(list.buf, EncodeConstraint(from, to), EncodeHops(hops[k], hops[k + 1..]));
      list.Raw(EncodeConstraint(from, to));
      from, at := to, hops[k];
    }
    assert hops[|hops|..] == [];
    return list.buf;
  }

  // ------------------------------------------------------------ parsing

  function ParseKeys(s: seq<byte>): Option<seq<Entry>>
    decreases |s|
  {
    if s == [] then Some([])
    else
      match TakeString(s)
      case Err(_) => None
      case Ok(blob) =>
        match TakeBool(blob.rest)
        case Err(_) => None
        case Ok(ca) =>
          var more :- ParseKeys(ca.rest);
          Some([Entry(blob.value, ca.value)] + more)
  }

  /** Three strings, and what follows them. */
  datatype Three = Three(a: seq<byte>, b: seq<byte>, c: seq<byte>, rest: seq<byte>)

  function TakeThree(s: seq<byte>): Option<Three> {
    match TakeString(s)
    case Err(_) => None
    case Ok(a) =>
      match TakeString(a.rest)
      case Err(_) => None
      case Ok(b) =>
        match TakeString(b.rest)
        case Err(_) => None
        case Ok(c) => Some(Three(a.value, b.value, c.value, c.rest))
  }

  /** User, host and a reserved string, then the keys. */
  function ParseHop(s: seq<byte>): Option<Hop> {
    var three :- TakeThree(s);
    var keys :- ParseKeys(three.rest);
    Some(Hop(keys))
  }

  /** From, to and a reserved string, and nothing more. */
  function ParseConstraint(s: seq<byte>): Option<Constraint> {
    var three :- TakeThree(s);
    if three.rest != [] then None
    else
      var from :- ParseHop(three.a);
      var to :- ParseHop(three.b);
      Some(Constraint(from, to))
  }

  function ParseConstraints(s: seq<byte>): Option<seq<Constraint>>
    decreases |s|
  {
    if s == [] then Some([])
    else
      match TakeString(s)
      case Err(_) => None
      case Ok(body) =>
        var c :- ParseConstraint(body.value);
        var more :- ParseConstraints(body.rest);
        Some([c] + more)
  }

  // ------------------------------------------------------------ round trip

  function Prepend<T>(front: seq<T>, back: Option<seq<T>>): Option<seq<T>> {
    if back.None? then None else Some(front + back.value)
  }

  lemma TakesBool(v: bool, rest: seq<byte>)
    ensures TakeBool(EncodeBool(v) + rest) == Ok(Read(v, rest))
  {
    var s := EncodeBool(v) + rest;
    assert s[..1] == EncodeBool(v) && s[1..] == rest;
  }

  lemma {:induction false} KeysReadBack(keys: seq<Entry>)
    requires ShortKeys(keys)
    ensures ParseKeys(EncodeKeys(keys)) == Some(keys)
  {
    if keys != [] {
      hide ParseKeys;
      var e := keys[0];
      KeysReadBack(keys[1..]);
      EntryReadsBack(e, EncodeKeys(keys[1..]));
      assert keys == [e] + keys[1..];
    }
  }

  lemma EntryReadsBack(e: Entry, more: seq<byte>)
    requires |e.blob| < U32
    ensures ParseKeys(EncodeEntry(e) + more) == Prepend([e], ParseKeys(more))
  {
    hide EncodeString, TakeString, TakeBool, EncodeBool;
    Associative(EncodeString(e.blob), EncodeBool(e.isCa), more);
    TakesString(e.blob, EncodeBool(e.isCa) + more);
    TakesBool(e.isCa, more);
    assert EncodeEntry(e) + more != [] by { assert |EncodeString(e.blob)| > 0; }
  }

  lemma HopReadsBack(d: Destination)
    requires ShortHop(d)
    ensures ParseHop(EncodeHop(d)) == Some(Hop(d.keys))
  {
    hide EncodeString, TakeString, EncodeKeys, ParseKeys;
    var keys := EncodeKeys(d.keys);
    TakesString(d.user, EncodeString(d.host) + (EncodeString([]) + keys));
    TakesString(d.host, EncodeString([]) + keys);
    TakesString([], keys);
    KeysReadBack(d.keys);
    assert TakeThree(EncodeHop(d)) == Some(Three(d.user, d.host, [], keys));
  }

  lemma ConstraintReadsBack(from: Destination, to: Destination, rest: seq<byte>)
    requires ShortHop(from) && ShortHop(to) && ShortPair(EncodeHop(from), EncodeHop(to))
    ensures var r := TakeString(EncodeConstraint(EncodeHop(from), EncodeHop(to)) + rest);
      r.Ok? && r.value.rest == rest && ParseConstraint(r.value.value) == Some(Constraint(Hop(from.keys), Hop(to.keys)))
  {
    hide EncodeString, TakeString, EncodeHop, ParseHop;
    var a, b := EncodeHop(from), EncodeHop(to);
    var tail: seq<byte> := EncodeString([]);
    TakesString(a, EncodeString(b) + tail);
    TakesString(b, tail);
    TakesString([], []);
    assert tail + [] == tail;
    TakesString(EncodeString(a) + (EncodeString(b) + tail), rest);
    HopReadsBack(from);
    HopReadsBack(to);
  }

  /** The constraints a path stands for: from each hop to the next. */
  function Steps(from: Hop, hops: seq<Destination>): seq<Constraint>
    decreases |hops|
  {
    if hops == [] then [] else [Constraint(from, Hop(hops[0].keys))] + Steps(Hop(hops[0].keys), hops[1..])
  }

  lemma {:induction false} HopsReadBack(from: Destination, hops: seq<Destination>)
    requires Fits(from, hops)
    ensures ParseConstraints(EncodeHops(from, hops)) == Some(Steps(Hop(from.keys), hops))
    decreases |hops|
  {
    if hops != [] {
      hide EncodeString, TakeString, EncodeHop, ParseConstraint;
      var rest := EncodeHops(hops[0], hops[1..]);
      ConstraintReadsBack(from, hops[0], rest);
      HopsReadBack(hops[0], hops[1..]);
      assert |EncodeConstraint(EncodeHop(from), EncodeHop(hops[0]))| > 0;
    }
  }

  lemma PathReadsBack(hops: seq<Destination>)
    requires Fits(ORIGIN, hops)
    ensures ParseConstraints(EncodePath(hops)) == Some(Steps(Hop([]), hops))
  {
    HopsReadBack(ORIGIN, hops);
  }

  // ------------------------------------------------------------ parsing in place

  lemma Prepends<T>(front: seq<T>, x: T, back: Option<seq<T>>)
    ensures Prepend(front, Prepend([x], back)) == Prepend(front + [x], back) && Prepend([], back) == back
  {
    if back.Some? {
      Associative(front, [x], back.value);
      assert [] + back.value == back.value;
    }
  }

  /** One entry of a run of keys, as the parser sees it. */
  lemma KeysStep(s: seq<byte>)
    requires s != []
    ensures var blob := TakeString(s);
      if blob.Err? then ParseKeys(s).None?
      else
        var ca := TakeBool(blob.value.rest);
        if ca.Err? then ParseKeys(s).None?
        else ParseKeys(s) == Prepend([Entry(blob.value.value, ca.value.value)], ParseKeys(ca.value.rest)) && |ca.value.rest| < |s|
  {
  }

  /** A run of key entries, off the cursor. */
  method ReadKeys(r: Reader) returns (keys: Option<seq<Entry>>)
    requires r.Valid()
    modifies r
    ensures keys == ParseKeys(old(r.Left()))
  {
    hide TakeString, TakeBool, ParseKeys;
    var got: seq<Entry> := [];
    Prepends([], Entry([], false), ParseKeys(r.Left()));
    while r.pos < |r.buf|
      invariant r.Valid() && ParseKeys(old(r.Left())) == Prepend(got, ParseKeys(r.Left()))
      decreases |r.Left()|
    {
      KeysStep(r.Left());
      var kb := r.ReadString();
      if kb.Err? {
        return None;
      }
      var ca := r.Boolean();
      if ca.Err? {
        return None;
      }
      Prepends(got, Entry(kb.value, ca.value), ParseKeys(r.Left()));
      got := got + [Entry(kb.value, ca.value)];
    }
    NoKeys(r.Left());
    assert got + [] == got;
    return Some(got);
  }

  lemma NoKeys(s: seq<byte>)
    requires s == []
    ensures ParseKeys(s) == Some([]) && ParseConstraints(s) == Some([])
  {
  }

  method ReadThree(r: Reader) returns (t: Option<Three>)
    requires r.Valid()
    modifies r
    ensures r.Valid() && t.None? == TakeThree(old(r.Left())).None?
    ensures t.Some? ==> t == TakeThree(old(r.Left())) && t.value.rest == r.Left()
  {
    hide TakeString;
    var a := r.ReadString();
    if a.Err? { return None; }
    var b := r.ReadString();
    if b.Err? { return None; }
    var c := r.ReadString();
    if c.Err? { return None; }
    return Some(Three(a.value, b.value, c.value, r.buf[r.pos..]));
  }

  method ReadHop(s: seq<byte>) returns (hop: Option<Hop>)
    ensures hop == ParseHop(s)
  {
    hide TakeThree, ParseKeys;
    var r := new Reader(s);
    var three := ReadThree(r);
    if three.None? { return None; }
    var keys := ReadKeys(r);
    return if keys.None? then None else Some(Hop(keys.value));
  }

  method ReadConstraint(s: seq<byte>) returns (c: Option<Constraint>)
    ensures c == ParseConstraint(s)
  {
    hide TakeThree, ParseHop;
    var r := new Reader(s);
    var three := ReadThree(r);
    if three.None? { return None; }
    var end := r.Finish();
    if end.Err? { return None; }
    var from := ReadHop(three.value.a);
    var to := ReadHop(three.value.b);
    return if from.None? || to.None? then None else Some(Constraint(from.value, to.value));
  }

  lemma ConstraintsStep(s: seq<byte>)
    requires s != []
    ensures var body := TakeString(s);
      if body.Err? then ParseConstraints(s).None?
      else
        var c := ParseConstraint(body.value.value);
        if c.None? then ParseConstraints(s).None?
        else ParseConstraints(s) == Prepend([c.value], ParseConstraints(body.value.rest)) && |body.value.rest| < |s|
  {
    hide ParseConstraint;
  }

  /** A run of constraints, off the cursor. */
  method ReadConstraintRun(r: Reader) returns (out: Option<seq<Constraint>>)
    requires r.Valid()
    modifies r
    ensures out == ParseConstraints(old(r.Left()))
  {
    hide TakeString, ParseConstraint, ParseConstraints;
    var got: seq<Constraint> := [];
    Prepends([], Constraint(Hop([]), Hop([])), ParseConstraints(r.Left()));
    while r.pos < |r.buf|
      invariant r.Valid() && ParseConstraints(old(r.Left())) == Prepend(got, ParseConstraints(r.Left()))
      decreases |r.Left()|
    {
      ConstraintsStep(r.Left());
      var body := r.ReadString();
      if body.Err? { return None; }
      var c := ReadConstraint(body.value);
      if c.None? { return None; }
      Prepends(got, c.value, ParseConstraints(r.Left()));
      got := got + [c.value];
    }
    NoKeys(r.Left());
    assert got + [] == got;
    return Some(got);
  }

  method ReadConstraints(s: seq<byte>) returns (out: Option<seq<Constraint>>)
    ensures out == ParseConstraints(s)
  {
    var r := new Reader(s);
    out := ReadConstraintRun(r);
  }

  // ------------------------------------------------------------ judging a chain

  /** What the certificate and key code tells the agent at one instant: the key a blob holds or
  certifies, and the CA behind a blob that is a host certificate within its validity. */
  datatype Oracle = Oracle(underlying: seq<byte> -> Option<nat>, authority: seq<byte> -> Option<nat>)

  /** The same over time: whether a certificate is within its validity is judged anew at each call. */
  datatype Judge = Judge(underlying: seq<byte> -> Option<nat>, authority: (seq<byte>, nat) -> Option<nat>) {
    function At(now: nat): Oracle {
      Oracle(underlying, blob => authority(blob, now))
    }
  }

  predicate EntryLists(o: Oracle, e: Entry, blob: seq<byte>) {
    var entry := o.underlying(e.blob);
    entry.Some? && entry == if e.isCa then o.authority(blob) else o.underlying(blob)
  }

  predicate HopLists(o: Oracle, hop: Hop, blob: seq<byte>) {
    exists k :: 0 <= k < |hop.keys| && EntryLists(o, hop.keys[k], blob)
  }

  /** A constraint allows the step from one host, or from the origin, to the next. */
  predicate Joins(o: Oracle, c: Constraint, from: Option<seq<byte>>, to: seq<byte>) {
    (if from.None? then c.from.keys == [] else HopLists(o, c.from, from.value)) && HopLists(o, c.to, to)
  }

  predicate Edge(o: Oracle, cs: seq<Constraint>, from: Option<seq<byte>>, to: seq<byte>) {
    exists k :: 0 <= k < |cs| && Joins(o, cs[k], from, to)
  }

  /** The host before the `i`-th of a chain that starts after `from`. */
  function Before(from: Option<seq<byte>>, chain: seq<seq<byte>>, i: nat): Option<seq<byte>>
    requires i < |chain|
  {
    if i == 0 then from else Some(chain[i - 1])
  }

  /** `chain` is the host keys bound on a connection, in order. */
  predicate Permitted(o: Oracle, cs: seq<Constraint>, chain: seq<seq<byte>>) {
    cs == [] || (chain != [] && forall i :: 0 <= i < |chain| ==> Edge(o, cs, Before(None, chain, i), chain[i]))
  }

  /** The same, as a walk from a given host. */
  predicate Walk(o: Oracle, cs: seq<Constraint>, from: Option<seq<byte>>, chain: seq<seq<byte>>)
    decreases |chain|
  {
    chain == [] || (Edge(o, cs, from, chain[0]) && Walk(o, cs, Some(chain[0]), chain[1..]))
  }

  /** Every step of the chain is an edge, the first of them from `from`. */
  predicate StepsAlong(o: Oracle, cs: seq<Constraint>, from: Option<seq<byte>>, chain: seq<seq<byte>>) {
    forall i :: 0 <= i < |chain| ==> Edge(o, cs, Before(from, chain, i), chain[i])
  }

  lemma StepsSplit(o: Oracle, cs: seq<Constraint>, from: Option<seq<byte>>, chain: seq<seq<byte>>)
    requires chain != []
    ensures StepsAlong(o, cs, from, chain) <==> Edge(o, cs, from, chain[0]) && StepsAlong(o, cs, Some(chain[0]), chain[1..])
  {
    hide Edge;
    var rest := chain[1..];
    assert Before(from, chain, 0) == from;
    forall i | 0 <= i < |rest|
      ensures Before(from, chain, i + 1) == Before(Some(chain[0]), rest, i) && chain[i + 1] == rest[i]
    {
    }
    if Edge(o, cs, from, chain[0]) && StepsAlong(o, cs, Some(chain[0]), rest) {
      forall i | 0 <= i < |chain| ensures Edge(o, cs, Before(from, chain, i), chain[i]) {
        if i > 0 { assert Edge(o, cs, Before(Some(chain[0]), rest, i - 1), rest[i - 1]); }
      }
    }
  }

  lemma {:induction false} WalkIsSteps(o: Oracle, cs: seq<Constraint>, from: Option<seq<byte>>, chain: seq<seq<byte>>)
    ensures Walk(o, cs, from, chain) <==> StepsAlong(o, cs, from, chain)
    decreases |chain|
  {
    hide Edge;
    if chain != [] {
      WalkIsSteps(o, cs, Some(chain[0]), chain[1..]);
      StepsSplit(o, cs, from, chain);
    }
  }

  /** With constraints, a chain is permitted exactly when it is a walk from the origin in the graph they
  draw, and takes at least one step. */
  lemma PermittedIsWalk(o: Oracle, cs: seq<Constraint>, chain: seq<seq<byte>>)
    requires cs != []
    ensures Permitted(o, cs, chain) <==> chain != [] && Walk(o, cs, None, chain)
  {
    hide Edge;
    WalkIsSteps(o, cs, None, chain);
  }

  // ------------------------------------------------------------ a path accepts its own prefixes

  /** Every hop has a key, all of them plain. */
  predicate PlainPath(hops: seq<Destination>) {
    forall i :: 0 <= i < |hops| ==> hops[i].keys != [] && forall k :: 0 <= k < |hops[i].keys| ==> !hops[i].keys[k].isCa
  }

  /** No key identifies two hops. */
  predicate DisjointPath(o: Oracle, hops: seq<Destination>) {
    forall i, j, k, l :: 0 <= i < j < |hops| && 0 <= k < |hops[i].keys| && 0 <= l < |hops[j].keys| ==>
      o.underlying(hops[i].keys[k].blob).None? || o.underlying(hops[i].keys[k].blob) != o.underlying(hops[j].keys[l].blob)
  }

  /** Every hop has a key, all of them CAs'. */
  predicate CaPath(hops: seq<Destination>) {
    forall i :: 0 <= i < |hops| ==> hops[i].keys != [] && forall k :: 0 <= k < |hops[i].keys| ==> hops[i].keys[k].isCa
  }

  /** Every hop has a key, and no host is at two hops. */
  ghost predicate Separate(o: Oracle, hops: seq<Destination>) {
    && (forall i :: 0 <= i < |hops| ==> hops[i].keys != [])
    && forall i, j, blob :: 0 <= i < |hops| && 0 <= j < |hops| && HopLists(o, Hop(hops[i].keys), blob) && HopLists(o, Hop(hops[j].keys), blob) ==> i == j
  }

  /** The chain follows the path hop for hop, from its start. */
  predicate Follows(o: Oracle, hops: seq<Destination>, chain: seq<seq<byte>>) {
    |chain| <= |hops| && forall i :: 0 <= i < |chain| ==> HopLists(o, Hop(hops[i].keys), chain[i])
  }

  function HopBefore(from: Hop, hops: seq<Destination>, k: nat): Hop
    requires k < |hops|
  {
    if k == 0 then from else Hop(hops[k - 1].keys)
  }

  lemma {:induction false} StepsAt(from: Hop, hops: seq<Destination>)
    ensures |Steps(from, hops)| == |hops|
    ensures forall k :: 0 <= k < |hops| ==> Steps(from, hops)[k] == Constraint(HopBefore(from, hops, k), Hop(hops[k].keys))
    decreases |hops|
  {
    if hops != [] {
      var next, rest := Hop(hops[0].keys), hops[1..];
      StepsAt(next, rest);
      forall k | 0 <= k < |hops| ensures Steps(from, hops)[k] == Constraint(HopBefore(from, hops, k), Hop(hops[k].keys)) {
        if k > 0 {
          assert Steps(from, hops)[k] == Steps(next, rest)[k - 1];
          assert HopBefore(from, hops, k) == HopBefore(next, rest, k - 1);
        }
      }
    }
  }

  /** One host is at one hop only, where every hop names keys, or every hop names CAs. */
  lemma OneHop(o: Oracle, hops: seq<Destination>, i: nat, j: nat, blob: seq<byte>)
    requires (PlainPath(hops) || CaPath(hops)) && DisjointPath(o, hops) && i < |hops| && j < |hops|
    requires HopLists(o, Hop(hops[i].keys), blob) && HopLists(o, Hop(hops[j].keys), blob)
    ensures i == j
  {
    var k :| 0 <= k < |hops[i].keys| && EntryLists(o, hops[i].keys[k], blob);
    var l :| 0 <= l < |hops[j].keys| && EntryLists(o, hops[j].keys[l], blob);
    assert hops[i].keys[k].isCa == hops[j].keys[l].isCa;
    assert o.underlying(hops[i].keys[k].blob) == o.underlying(hops[j].keys[l].blob);
  }

  lemma DisjointSeparate(o: Oracle, hops: seq<Destination>)
    requires (PlainPath(hops) || CaPath(hops)) && DisjointPath(o, hops)
    ensures Separate(o, hops)
  {
    hide HopLists, DisjointPath;
    forall i, j, blob | 0 <= i < |hops| && 0 <= j < |hops| && HopLists(o, Hop(hops[i].keys), blob) && HopLists(o, Hop(hops[j].keys), blob)
      ensures i == j
    {
      OneHop(o, hops, i, j, blob);
    }
  }

  /** A step allowed from the hop before `i`, or from the origin, is the one onto hop `i`. */
  lemma {:induction false} OnlyEdge(o: Oracle, hops: seq<Destination>, i: nat, from: Option<seq<byte>>, to: seq<byte>, k: nat)
    requires Separate(o, hops) && i <= |hops| && k < |hops|
    requires if i == 0 then from == None else from.Some? && HopLists(o, Hop(hops[i - 1].keys), from.value)
    requires Joins(o, Constraint(HopBefore(Hop([]), hops, k), Hop(hops[k].keys)), from, to)
    ensures i == k
  {
    hide HopLists;
    if i > 0 {
      NoneListed(o, from.value);
    }
  }

  lemma {:induction false} EdgeIsHop(o: Oracle, hops: seq<Destination>, i: nat, from: Option<seq<byte>>, to: seq<byte>)
    requires Separate(o, hops) && i <= |hops|
    requires if i == 0 then from == None else from.Some? && HopLists(o, Hop(hops[i - 1].keys), from.value)
    ensures Edge(o, Steps(Hop([]), hops), from, to) <==> i < |hops| && HopLists(o, Hop(hops[i].keys), to)
  {
    hide HopLists, Separate, Steps;
    var cs := Steps(Hop([]), hops);
    StepsAt(Hop([]), hops);
    if i < |hops| && HopLists(o, Hop(hops[i].keys), to) {
      assert Joins(o, cs[i], from, to);
    }
    if Edge(o, cs, from, to) {
      var k :| 0 <= k < |cs| && Joins(o, cs[k], from, to);
      OnlyEdge(o, hops, i, from, to, k);
    }
  }

  lemma NoneListed(o: Oracle, blob: seq<byte>)
    ensures !HopLists(o, Hop([]), blob)
  {
  }

  lemma {:induction false} PermittedFollows(o: Oracle, hops: seq<Destination>, chain: seq<seq<byte>>, n: nat)
    requires Separate(o, hops) && n <= |chain|
    ensures (forall i :: 0 <= i < n ==> Edge(o, Steps(Hop([]), hops), Before(None, chain, i), chain[i])) <==> Follows(o, hops, chain[..n])
  {
    hide Edge, HopLists, Separate, Steps;
    if n > 0 {
      PermittedFollows(o, hops, chain, n - 1);
      var before, whole := chain[..n - 1], chain[..n];
      assert whole == before + [chain[n - 1]];
      if Follows(o, hops, before) {
        if n > 1 { assert HopLists(o, Hop(hops[n - 2].keys), before[n - 2]); }
        EdgeIsHop(o, hops, n - 1, Before(None, chain, n - 1), chain[n - 1]);
        LastFollows(o, hops, before, chain[n - 1]);
      } else {
        ShorterFollows(o, hops, before, chain[n - 1]);
      }
    }
  }

  lemma LastFollows(o: Oracle, hops: seq<Destination>, before: seq<seq<byte>>, last: seq<byte>)
    requires Follows(o, hops, before)
    ensures Follows(o, hops, before + [last]) <==> |before| < |hops| && HopLists(o, Hop(hops[|before|].keys), last)
  {
    hide HopLists;
    assert (before + [last])[|before|] == last;
  }

  lemma ShorterFollows(o: Oracle, hops: seq<Destination>, before: seq<seq<byte>>, last: seq<byte>)
    ensures Follows(o, hops, before + [last]) ==> Follows(o, hops, before)
  {
    hide HopLists;
    assert forall i :: 0 <= i < |before| ==> (before + [last])[i] == before[i];
  }

  /** Encode a path, parse it back, and judge a chain by it: what is accepted is exactly the non-empty
  prefixes of the path, hop for hop. So for every path on which no host is at two hops. */
  lemma {:induction false} SeparateAccepts(o: Oracle, hops: seq<Destination>, chain: seq<seq<byte>>)
    requires Fits(ORIGIN, hops) && hops != [] && Separate(o, hops)
    ensures ParseConstraints(EncodePath(hops)).Some?
    ensures Permitted(o, ParseConstraints(EncodePath(hops)).value, chain) <==> chain != [] && Follows(o, hops, chain)
  {
    hide Edge, HopLists, Separate, Fits, ParseConstraints, EncodePath;
    PathReadsBack(hops);
    StepsAt(Hop([]), hops);
    PermittedFollows(o, hops, chain, |chain|);
    assert chain[..|chain|] == chain;
  }

  /** And so for a path of keys none of which identifies two hops, or of CAs likewise. */
  lemma {:induction false} PathAcceptsPrefixes(o: Oracle, hops: seq<Destination>, chain: seq<seq<byte>>)
    requires Fits(ORIGIN, hops) && hops != [] && (PlainPath(hops) || CaPath(hops)) && DisjointPath(o, hops)
    ensures ParseConstraints(EncodePath(hops)).Some?
    ensures Permitted(o, ParseConstraints(EncodePath(hops)).value, chain) <==> chain != [] && Follows(o, hops, chain)
  {
    hide Separate, Fits, ParseConstraints, EncodePath, Follows, Permitted;
    DisjointSeparate(o, hops);
    SeparateAccepts(o, hops, chain);
  }

  /** A path of one hop with one entry, encoded and judged: a plain entry accepts the hosts that show its
  key, or a certificate of it; a CA's entry accepts the hosts whose certificate, a host's and within its
  time, that CA signed; and an entry that is no key accepts none. */
  lemma {:induction false} OneEntryAccepts(o: Oracle, d: Destination, e: Entry, chain: seq<seq<byte>>)
    requires Fits(ORIGIN, [d]) && d.keys == [e]
    ensures ParseConstraints(EncodePath([d])).Some?
    ensures Permitted(o, ParseConstraints(EncodePath([d])).value, chain) <==>
      && |chain| == 1 && o.underlying(e.blob).Some?
      && (if e.isCa then o.authority(chain[0]) == o.underlying(e.blob) else o.underlying(chain[0]) == o.underlying(e.blob))
  {
    hide Separate, Fits, ParseConstraints, EncodePath, Permitted;
    var hops := [d];
    assert Separate(o, hops) by { OneIsSeparate(o, d); }
    SeparateAccepts(o, hops, chain);
    if |chain| == 1 {
      assert HopLists(o, Hop([e]), chain[0]) <==> EntryLists(o, [e][0], chain[0]);
    }
  }

  lemma OneIsSeparate(o: Oracle, d: Destination)
    requires d.keys != []
    ensures Separate(o, [d])
  {
  }

  /** Any chain of one host that the first hop names in plain is accepted, however long the path. */
  lemma {:induction false} FirstHopSuffices(o: Oracle, hops: seq<Destination>, k: nat)
    requires Fits(ORIGIN, hops) && hops != [] && k < |hops[0].keys|
    requires !hops[0].keys[k].isCa && o.underlying(hops[0].keys[k].blob).Some?
    ensures ParseConstraints(EncodePath(hops)).Some?
    ensures Permitted(o, ParseConstraints(EncodePath(hops)).value, [hops[0].keys[k].blob])
  {
    hide Fits, ParseConstraints, EncodePath, Steps;
    PathReadsBack(hops);
    StepsAt(Hop([]), hops);
    var cs, chain := Steps(Hop([]), hops), [hops[0].keys[k].blob];
    assert EntryLists(o, hops[0].keys[k], chain[0]);
    assert Joins(o, cs[0], None, chain[0]);
    assert Edge(o, cs, Before(None, chain, 0), chain[0]);
  }

  /** Only chains that go the whole way are accepted: what a path is documented to mean. */
  ghost predicate WholeOnly(o: Oracle, cs: seq<Constraint>, length: nat) {
    forall chain :: Permitted(o, cs, chain) ==> |chain| == length
  }

  /** Some key of the hop can be read. */
  predicate Readable(o: Oracle, d: Destination) {
    exists k :: 0 <= k < |d.keys| && o.underlying(d.keys[k].blob).Some?
  }

  /** The documented meaning holds exactly of the one-hop path, and of the path whose first hop no host
  can match; every other path accepts a chain that stops at its first hop. */
  lemma {:induction false} WholePathIffOneHop(o: Oracle, hops: seq<Destination>)
    requires Fits(ORIGIN, hops) && hops != [] && PlainPath(hops) && DisjointPath(o, hops)
    ensures ParseConstraints(EncodePath(hops)).Some?
    ensures WholeOnly(o, ParseConstraints(EncodePath(hops)).value, |hops|) <==> |hops| == 1 || !Readable(o, hops[0])
  {
    hide HopLists, DisjointPath, Fits, ParseConstraints, EncodePath, Permitted;
    PathAcceptsPrefixes(o, hops, []);
    var cs := ParseConstraints(EncodePath(hops)).value;
    if |hops| == 1 || !Readable(o, hops[0]) {
      forall chain | Permitted(o, cs, chain) ensures |chain| == |hops| {
        PathAcceptsPrefixes(o, hops, chain);
        ListedIsReadable(o, hops[0], chain[0]);
      }
    } else {
      var k :| 0 <= k < |hops[0].keys| && o.underlying(hops[0].keys[k].blob).Some?;
      FirstHopSuffices(o, hops, k);
      assert |[hops[0].keys[k].blob]| == 1;
    }
  }

  /** With CAs on the path as well, where no host is at two hops: the documented meaning holds exactly of the
  one-hop path and of the path whose first hop lists no host. */
  lemma {:induction false} WholePathIffUnlisted(o: Oracle, hops: seq<Destination>)
    requires Fits(ORIGIN, hops) && hops != [] && Separate(o, hops)
    ensures ParseConstraints(EncodePath(hops)).Some?
    ensures WholeOnly(o, ParseConstraints(EncodePath(hops)).value, |hops|) <==>
      |hops| == 1 || forall host :: !HopLists(o, Hop(hops[0].keys), host)
  {
    hide HopLists, Separate, Fits, ParseConstraints, EncodePath, Permitted;
    SeparateAccepts(o, hops, []);
    var cs := ParseConstraints(EncodePath(hops)).value;
    forall chain ensures Permitted(o, cs, chain) <==> chain != [] && Follows(o, hops, chain) {
      SeparateAccepts(o, hops, chain);
    }
    if |hops| > 1 && !(forall host :: !HopLists(o, Hop(hops[0].keys), host)) {
      var host :| HopLists(o, Hop(hops[0].keys), host);
      assert Follows(o, hops, [host]) && |[host]| == 1;
    }
  }

  lemma ListedIsReadable(o: Oracle, d: Destination, blob: seq<byte>)
    requires HopLists(o, Hop(d.keys), blob)
    ensures Readable(o, d)
  {
    var k :| 0 <= k < |d.keys| && EntryLists(o, d.keys[k], blob);
    assert o.underlying(d.keys[k].blob).Some?;
  }

  /** The empty path is no constraint at all. */
  lemma EmptyPathPermits(o: Oracle, chain: seq<seq<byte>>)
    ensures ParseConstraints(EncodePath([])) == Some([]) && Permitted(o, [], chain)
  {
    PathReadsBack([]);
  }
}
