/** KEXINIT and algorithm negotiation (src/transport/kexinit.rs; section 7.1 of RFC 4253). */
module KexInit {
  import opened Bytes

  datatype Side = Client | Server

  datatype Init = Init(
    cookie: seq<byte>,
    kex: seq<string>,
    hostKeys: seq<string>,
    encC2s: seq<string>,
    encS2c: seq<string>,
    macC2s: seq<string>,
    macS2c: seq<string>,
    compC2s: seq<string>,
    compS2c: seq<string>,
    langC2s: seq<string>,
    langS2c: seq<string>,
    firstPacketFollows: bool)

  const STRICT_CLIENT := "kex-strict-c-v00@openssh.com"
  const STRICT_SERVER := "kex-strict-s-v00@openssh.com"
  const EXT_INFO_CLIENT := "ext-info-c"
  const EXT_INFO_SERVER := "ext-info-s"
  const MLKEM := "mlkem768x25519-sha256"
  const CURVE := "curve25519-sha256"
  const KEY_ALGO := "ssh-ed25519"
  const CERT_ALGO := "ssh-ed25519-cert-v01@openssh.com"
  const CHACHA := "chacha20-poly1305@openssh.com"
  const AES_GCM := "aes256-gcm@openssh.com"

  /** What the two ends must agree on. */
  datatype Algorithms = Algorithms(kex: string, hostKey: string, cipherC2s: string, cipherS2c: string)

  datatype Negotiated = Negotiated(algorithms: Algorithms, peerExtInfo: bool, discardGuess: bool)

  /** Our own KEXINIT: the strict marker is always there, and no guess is ever sent. */
  function Local(side: Side, hostKeys: seq<string>, cookie: seq<byte>): Init {
    var marks := if side.Client? then [EXT_INFO_CLIENT, STRICT_CLIENT] else [EXT_INFO_SERVER, STRICT_SERVER];
    Init(cookie, [MLKEM, CURVE] + marks, hostKeys, [CHACHA, AES_GCM], [CHACHA, AES_GCM],
         ["hmac-sha2-256"], ["hmac-sha2-256"], ["none"], ["none"], [], [], false)
  }

  /** The first entry of the client's list that the server also lists. */
  function Choose(client: seq<string>, server: seq<string>): (r: Option<string>)
    ensures r.None? <==> forall c :: c in client ==> c !in server
    ensures r.Some? ==> exists i ::
      0 <= i < |client| && client[i] == r.value && r.value in server && forall j :: 0 <= j < i ==> client[j] !in server
  {
    if client == [] then None
    else if client[0] in server then Some(client[0])
    else
      var r := Choose(client[1..], server);
      assert r.Some? ==> exists i :: 0 <= i < |client| && client[i] == r.value && r.value in server
                                     && forall j :: 0 <= j < i ==> client[j] !in server by {
        if r.Some? {
          var i :| 0 <= i < |client[1..]| && client[1..][i] == r.value && r.value in server
                   && forall j :: 0 <= j < i ==> client[1..][j] !in server;
          assert client[i + 1] == r.value;
          forall j | 0 <= j < i + 1 ensures client[j] !in server {
            assert j > 0 ==> client[j] == client[1..][j - 1];
          }
        }
      }
      r
  }

  function Agree(client: Init, server: Init): Option<Algorithms> {
    var kex :- Choose(client.kex, server.kex);
    if kex != MLKEM && kex != CURVE then None else
    var hostKey :- Choose(client.hostKeys, server.hostKeys);
    if hostKey != KEY_ALGO && hostKey != CERT_ALGO then None else
    var c2s :- Choose(client.encC2s, server.encC2s);
    var s2c :- Choose(client.encS2c, server.encS2c);
    if (c2s != CHACHA && c2s != AES_GCM) || (s2c != CHACHA && s2c != AES_GCM) then None else
    var compC :- Choose(client.compC2s, server.compC2s);
    var compS :- Choose(client.compS2c, server.compS2c);
    Some(Algorithms(kex, hostKey, c2s, s2c))
  }

  predicate SameFirst(a: seq<string>, b: seq<string>) {
    if a == [] || b == [] then a == b else a[0] == b[0]
  }

  /** Negotiate as `side`; a peer without the strict marker is refused. */
  function Negotiate(side: Side, ours: Init, theirs: Init): Option<Negotiated> {
    var (client, server) := if side.Client? then (ours, theirs) else (theirs, ours);
    var (flag, ext) := if side.Client? then (STRICT_SERVER, EXT_INFO_SERVER) else (STRICT_CLIENT, EXT_INFO_CLIENT);
    if flag !in theirs.kex then None else
    var algorithms :- Agree(client, server);
    var guessRight := SameFirst(client.kex, server.kex) && SameFirst(client.hostKeys, server.hostKeys);
    Some(Negotiated(algorithms, ext in theirs.kex, theirs.firstPacketFollows && !guessRight))
  }

  /** `c` is the first the client lists that the server lists too. */
  predicate FirstShared(client: seq<string>, server: seq<string>, c: string) {
    exists i :: 0 <= i < |client| && client[i] == c && c in server && forall j :: 0 <= j < i ==> client[j] !in server
  }

  predicate Share(client: seq<string>, server: seq<string>) {
    exists c :: c in client && c in server
  }

  /** A name list two ends settle on, from those this stack has. */
  predicate Settles(client: seq<string>, server: seq<string>, known: set<string>) {
    exists c :: FirstShared(client, server, c) && c in known
  }

  /** What an end negotiates: with a peer that lists the strict marker, in every list, and in each direction
  by itself, the first of the client's that the server lists; and nothing with any other peer, or when a
  list holds none in common or settles on one that is not implemented. */
  lemma NegotiateMeans(side: Side, ours: Init, theirs: Init)
    ensures var client, server := if side.Client? then ours else theirs, if side.Client? then theirs else ours;
      var n := Negotiate(side, ours, theirs);
      && (n.Some? <==>
            && (if side.Client? then STRICT_SERVER else STRICT_CLIENT) in theirs.kex
            && Settles(client.kex, server.kex, {MLKEM, CURVE}) && Settles(client.hostKeys, server.hostKeys, {KEY_ALGO, CERT_ALGO})
            && Settles(client.encC2s, server.encC2s, {CHACHA, AES_GCM}) && Settles(client.encS2c, server.encS2c, {CHACHA, AES_GCM})
            && Share(client.compC2s, server.compC2s) && Share(client.compS2c, server.compS2c))
      && (n.Some? ==>
            var a := n.value.algorithms;
            && FirstShared(client.kex, server.kex, a.kex) && FirstShared(client.hostKeys, server.hostKeys, a.hostKey)
            && FirstShared(client.encC2s, server.encC2s, a.cipherC2s) && FirstShared(client.encS2c, server.encS2c, a.cipherS2c)
            && (n.value.peerExtInfo <==> (if side.Client? then EXT_INFO_SERVER else EXT_INFO_CLIENT) in theirs.kex)
            && client.kex != [] && server.kex != [] && client.hostKeys != [] && server.hostKeys != []
            && (n.value.discardGuess <==>
                  theirs.firstPacketFollows && !(client.kex[0] == server.kex[0] && client.hostKeys[0] == server.hostKeys[0])))
  {
    var client, server := if side.Client? then ours else theirs, if side.Client? then theirs else ours;
    ChooseMeans(client.kex, server.kex);
    ChooseMeans(client.hostKeys, server.hostKeys);
    ChooseMeans(client.encC2s, server.encC2s);
    ChooseMeans(client.encS2c, server.encS2c);
    ChooseMeans(client.compC2s, server.compC2s);
    ChooseMeans(client.compS2c, server.compS2c);
    hide Choose, FirstShared, Share;
  }

  lemma ChooseMeans(client: seq<string>, server: seq<string>)
    ensures var r := Choose(client, server);
      && (r.Some? <==> Share(client, server)) && (r.Some? ==> client != [] && server != [])
      && forall c :: FirstShared(client, server, c) <==> r == Some(c)
  {
    var r := Choose(client, server);
    if r.Some? {
      assert r.value in client && r.value in server;
      assert FirstShared(client, server, r.value);
      forall c | FirstShared(client, server, c) ensures r == Some(c) {
        OneFirst(client, server, c, r.value);
      }
    }
  }

  lemma OneFirst(client: seq<string>, server: seq<string>, a: string, b: string)
    requires FirstShared(client, server, a) && FirstShared(client, server, b)
    ensures a == b
  {
    var i :| 0 <= i < |client| && client[i] == a && a in server && forall j :: 0 <= j < i ==> client[j] !in server;
    var k :| 0 <= k < |client| && client[k] == b && b in server && forall j :: 0 <= j < k ==> client[j] !in server;
    assert !(i < k) && !(k < i);
  }

  /** Two ends that both get through the negotiation have chosen the same algorithms; if both carry
  their strict marker then either both get through or neither does. */
  lemma NegotiationAgrees(client: Init, server: Init)
    ensures var c := Negotiate(Client, client, server); var s := Negotiate(Server, server, client);
      && (c.Some? && s.Some? ==> c.value.algorithms == s.value.algorithms)
      && (STRICT_CLIENT in client.kex && STRICT_SERVER in server.kex ==> (c.Some? <==> s.Some?))
  {
  }

  /** Whether we offer the certificate algorithm or only the plain key, the plain key is there. */
  predicate OfferedHostKeys(hostKeys: seq<string>) {
    hostKeys == [KEY_ALGO] || hostKeys == [CERT_ALGO, KEY_ALGO]
  }

  /** Two SHH ends always reach agreement, with nothing to discard. */
  lemma LocalAgrees(hkC: seq<string>, hkS: seq<string>, cookieC: seq<byte>, cookieS: seq<byte>)
    requires OfferedHostKeys(hkC) && OfferedHostKeys(hkS)
    ensures var ci := Local(Client, hkC, cookieC); var si := Local(Server, hkS, cookieS);
      var hk := if CERT_ALGO in hkC && CERT_ALGO in hkS then CERT_ALGO else KEY_ALGO;
      var alg := Algorithms(MLKEM, hk, CHACHA, CHACHA);
      && Negotiate(Client, ci, si) == Some(Negotiated(alg, true, false))
      && Negotiate(Server, si, ci) == Some(Negotiated(alg, true, false))
  {
    var ci := Local(Client, hkC, cookieC);
    var si := Local(Server, hkS, cookieS);
    assert ci.kex[0] == MLKEM && si.kex[0] == MLKEM;
    assert ci.kex[2] == EXT_INFO_CLIENT && ci.kex[3] == STRICT_CLIENT;
    assert si.kex[2] == EXT_INFO_SERVER && si.kex[3] == STRICT_SERVER;
    assert si.kex == [MLKEM, CURVE, EXT_INFO_SERVER, STRICT_SERVER];
    assert |CERT_ALGO| != |KEY_ALGO|;
    assert si.hostKeys[|si.hostKeys| - 1] == KEY_ALGO;
    assert hkC[|hkC| - 1] == KEY_ALGO;
    if CERT_ALGO !in hkC || CERT_ALGO !in hkS {
      assert Choose([KEY_ALGO], hkS) == Some(KEY_ALGO);
      assert hkC != [KEY_ALGO] ==> hkC[1..] == [KEY_ALGO] && hkC[0] == CERT_ALGO;
    } else {
      assert hkC[0] == CERT_ALGO;
    }
    assert si.encC2s[0] == CHACHA && si.encS2c[0] == CHACHA && si.compC2s[0] == "none" && si.compS2c[0] == "none";
  }
}
