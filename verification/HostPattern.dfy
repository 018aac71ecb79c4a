/** The wildcard matcher for known_hosts patterns (src/crypto/keyfile.rs).

`Matches` is the textbook meaning of a pattern: `*` stands for any run of bytes, `?` for
any one byte. The matcher is a loop with two cursors and one remembered star, and it tests
for a literal match before it tests for a star. `LiteralFirst` is what that order computes;
the two agree on every pattern exactly for the hosts that contain no `*` byte. */
module HostPattern {
  import opened Bytes

  const STAR: byte := 42
  const QUERY: byte := 63
  const COLON: byte := 58
  const OPEN_BRACKET: byte := 91
  const CLOSE_BRACKET: byte := 93

  datatype Star = NoStar | StarAt(pi: nat, hi: nat)

  /** The recursive definition of a wildcard match. */
  predicate Matches(p: seq<byte>, h: seq<byte>)
    decreases |p| + |h|
  {
    if p == [] then h == []
    else if p[0] == STAR then Matches(p[1..], h) || (h != [] && Matches(p, h[1..]))
    else h != [] && (p[0] == QUERY || p[0] == h[0]) && Matches(p[1..], h[1..])
  }

  predicate AllStars(p: seq<byte>) {
    forall i :: 0 <= i < |p| ==> p[i] == STAR
  }

  predicate Literal(c: byte, b: byte) {
    c == QUERY || c == b
  }

  /** A match in which a `*` facing a `*` byte of the host is a literal. */
  predicate LiteralFirst(p: seq<byte>, h: seq<byte>)
    decreases |p|, |h|, 0
  {
    if h == [] then AllStars(p)
    else if p == [] then false
    else if Literal(p[0], h[0]) then LiteralFirst(p[1..], h[1..])
    else p[0] == STAR && SomeSuffix(p[1..], h)
  }

  /** Some suffix of `h` is matched by `p`. */
  predicate SomeSuffix(p: seq<byte>, h: seq<byte>)
    decreases |p|, |h|, 1
  {
    LiteralFirst(p, h) || (h != [] && SomeSuffix(p, h[1..]))
  }

  predicate Bracketed(pattern: seq<byte>) {
    pattern != [] && pattern[0] == OPEN_BRACKET && CLOSE_BRACKET in pattern[1..]
  }

  /** The bare host of a pattern: `[host]:port` is what the first closing bracket ends, `host:port` is
  what the last colon ends, and any other pattern is itself. */
  function LabelHost(pattern: seq<byte>): (r: seq<byte>)
    ensures Bracketed(pattern) ==> [OPEN_BRACKET] + r + [CLOSE_BRACKET] <= pattern && CLOSE_BRACKET !in r
    ensures !Bracketed(pattern) && COLON in pattern ==> r + [COLON] <= pattern && COLON !in pattern[|r| + 1..]
    ensures !Bracketed(pattern) && COLON !in pattern ==> r == pattern
  {
    if Bracketed(pattern)
    then UpToFirst(pattern[1..], CLOSE_BRACKET)
    else if COLON in pattern then UpToLast(pattern, COLON)
    else pattern
  }

  function UpToFirst(s: seq<byte>, c: byte): (r: seq<byte>)
    requires c in s
    ensures |r| < |s| && s[|r|] == c && r == s[..|r|] && c !in r
  {
    if s[0] == c then [] else [s[0]] + UpToFirst(s[1..], c)
  }

  function UpToLast(s: seq<byte>, c: byte): (r: seq<byte>)
    requires c in s
    ensures |r| < |s| && s[|r|] == c && r == s[..|r|] && c !in s[|r| + 1..]
  {
    if s[|s| - 1] == c then s[..|s| - 1] else UpToLast(s[..|s| - 1], c)
  }

  lemma {:induction false} SuffixGrows(p: seq<byte>, h: seq<byte>, i: nat, j: nat)
    requires i <= j <= |h|
    requires SomeSuffix(p, h[j..])
    ensures SomeSuffix(p, h[i..])
    decreases j - i
  {
    if i < j {
      SuffixGrows(p, h, i + 1, j);
      assert h[i..][1..] == h[i + 1..];
    }
  }

  lemma {:induction false} SuffixWitness(p: seq<byte>, h: seq<byte>, i: nat) returns (k: nat)
    requires i <= |h| && SomeSuffix(p, h[i..])
    ensures i <= k <= |h| && LiteralFirst(p, h[k..])
    decreases |h| - i
  {
    if LiteralFirst(p, h[i..]) {
      k := i;
    } else {
      assert h[i..][1..] == h[i + 1..];
      k := SuffixWitness(p, h, i + 1);
    }
  }

  /** `mid` matches the host bytes from `sh` on, byte for byte. */
  predicate LiteralAt(mid: seq<byte>, h: seq<byte>, sh: nat) {
    sh + |mid| <= |h| && forall m :: 0 <= m < |mid| ==> Literal(mid[m], h[sh + m])
  }

  lemma LiteralTail(mid: seq<byte>, h: seq<byte>, sh: nat)
    requires LiteralAt(mid, h, sh) && mid != []
    ensures LiteralAt(mid[1..], h, sh + 1)
  {
    forall m | 0 <= m < |mid| - 1 ensures Literal(mid[1..][m], h[sh + 1 + m]) {
      assert Literal(mid[m + 1], h[sh + (m + 1)]);
    }
  }

  /** If `mid` matched literally at `sh`, then a match of `mid*rest` that starts at `sh` or later
  leaves for `rest` some suffix of what the literal match left. This is why one remembered star
  is enough. */
  lemma {:induction false} LaterStarSuffices(mid: seq<byte>, rest: seq<byte>, h: seq<byte>, sh: nat, q: nat)
    requires LiteralAt(mid, h, sh)
    requires sh <= q <= |h|
    requires LiteralFirst(mid + [STAR] + rest, h[q..])
    ensures SomeSuffix(rest, h[sh + |mid|..])
    decreases |mid|
  {
    var p := mid + [STAR] + rest;
    if q == |h| {
      assert forall i :: 0 <= i < |rest| ==> rest[i] == p[|mid| + 1 + i];
      assert h[|h|..] == [];
      SuffixGrows(rest, h, sh + |mid|, |h|);
    } else if mid == [] {
      assert p[1..] == rest;
      if h[q] == STAR {
        assert h[q..][1..] == h[q + 1..];
        SuffixGrows(rest, h, sh, q + 1);
      } else {
        SuffixGrows(rest, h, sh, q);
      }
    } else {
      assert p[1..] == mid[1..] + [STAR] + rest;
      assert p[0] == mid[0] && Literal(mid[0], h[sh + 0]);
      LiteralTail(mid, h, sh);
      if Literal(p[0], h[q]) {
        assert h[q..][1..] == h[q + 1..];
        LaterStarSuffices(mid[1..], rest, h, sh + 1, q + 1);
      } else {
        var k := SuffixWitness(p[1..], h, q);
        LaterStarSuffices(mid[1..], rest, h, sh + 1, k);
      }
    }
  }

  /** The same at the end of the host: nothing but stars may follow. */
  lemma {:induction false} NothingLeft(mid: seq<byte>, rest: seq<byte>, h: seq<byte>, sh: nat, q: nat)
    requires LiteralAt(mid, h, sh) && sh + |mid| == |h|
    requires sh <= q <= |h|
    requires LiteralFirst(mid + rest, h[q..])
    ensures AllStars(rest)
    decreases |mid|
  {
    var p := mid + rest;
    if q == |h| {
      assert forall i :: 0 <= i < |rest| ==> rest[i] == p[|mid| + i];
    } else {
      assert p[1..] == mid[1..] + rest;
      assert p[0] == mid[0] && Literal(mid[0], h[sh + 0]);
      LiteralTail(mid, h, sh);
      if Literal(p[0], h[q]) {
        assert h[q..][1..] == h[q + 1..];
        NothingLeft(mid[1..], rest, h, sh + 1, q + 1);
      } else {
        var k := SuffixWitness(p[1..], h, q);
        NothingLeft(mid[1..], rest, h, sh + 1, k);
      }
    }
  }

  /** What the loop knows between iterations. */
  ghost predicate LoopInv(p: seq<byte>, h: seq<byte>, pi: nat, hi: nat, star: Star)
  {
    && pi <= |p| && hi <= |h|
    && match star
       case NoStar => LiteralFirst(p, h) == LiteralFirst(p[pi..], h[hi..])
       case StarAt(sp, sh) =>
         && sp < pi && sh <= hi && p[sp] == STAR
         && hi - sh == pi - (sp + 1)
         && LiteralAt(p[sp + 1..pi], h, sh)
         && LiteralFirst(p, h) == SomeSuffix(p[sp + 1..], h[sh..])
         && LiteralFirst(p[sp + 1..], h[sh..]) == LiteralFirst(p[pi..], h[hi..])
  }

  lemma LiteralStep(p: seq<byte>, h: seq<byte>, pi: nat, hi: nat, star: Star)
    requires LoopInv(p, h, pi, hi, star) && pi < |p| && hi < |h| && Literal(p[pi], h[hi])
    ensures LoopInv(p, h, pi + 1, hi + 1, star)
  {
    assert p[pi..][1..] == p[pi + 1..];
    assert h[hi..][1..] == h[hi + 1..];
    if star.StarAt? {
      var mid := p[star.pi + 1..pi + 1];
      assert mid == p[star.pi + 1..pi] + [p[pi]];
      assert hi == star.hi + (|mid| - 1);
    }
  }

  lemma StarStep(p: seq<byte>, h: seq<byte>, pi: nat, hi: nat, star: Star)
    requires LoopInv(p, h, pi, hi, star) && pi < |p| && hi < |h|
    requires p[pi] == STAR && !Literal(p[pi], h[hi])
    ensures LoopInv(p, h, pi + 1, hi, StarAt(pi, hi))
  {
    assert p[pi..][1..] == p[pi + 1..];
    assert LiteralFirst(p[pi..], h[hi..]) == SomeSuffix(p[pi + 1..], h[hi..]);
    if star.StarAt? {
      var q := p[star.pi + 1..];
      if SomeSuffix(q, h[star.hi..]) {
        var k := SuffixWitness(q, h, star.hi);
        assert q == p[star.pi + 1..pi] + [STAR] + p[pi + 1..];
        LaterStarSuffices(p[star.pi + 1..pi], p[pi + 1..], h, star.hi, k);
      }
    }
  }

  lemma RetryStep(p: seq<byte>, h: seq<byte>, pi: nat, hi: nat, star: Star)
    requires LoopInv(p, h, pi, hi, star) && hi < |h| && star.StarAt?
    requires pi < |p| ==> !Literal(p[pi], h[hi]) && p[pi] != STAR
    ensures LoopInv(p, h, star.pi + 1, star.hi + 1, StarAt(star.pi, star.hi + 1))
  {
    assert !LiteralFirst(p[pi..], h[hi..]);
    assert h[star.hi..][1..] == h[star.hi + 1..];
  }

  lemma DeadEnd(p: seq<byte>, h: seq<byte>, pi: nat, hi: nat)
    requires LoopInv(p, h, pi, hi, NoStar) && hi < |h|
    requires pi < |p| ==> !Literal(p[pi], h[hi]) && p[pi] != STAR
    ensures !LiteralFirst(p, h)
  {
  }

  lemma Exhausted(p: seq<byte>, h: seq<byte>, pi: nat, star: Star)
    requires LoopInv(p, h, pi, |h|, star)
    ensures AllStars(p[pi..]) == LiteralFirst(p, h)
  {
    assert h[|h|..] == [];
    if star.StarAt? {
      var q := p[star.pi + 1..];
      if SomeSuffix(q, h[star.hi..]) {
        var k := SuffixWitness(q, h, star.hi);
        assert q == p[star.pi + 1..pi] + p[pi..];
        NothingLeft(p[star.pi + 1..pi], p[pi..], h, star.hi, k);
      }
    }
  }

  /** The matching loop. It computes `LiteralFirst`, so wildcard matching for a host with no star, in a
  number of iterations bounded by the product of the two lengths. */
  method HostPatternMatches(pattern: seq<byte>, host: seq<byte>) returns (matched: bool, ghost steps: nat)
    ensures matched == LiteralFirst(LabelHost(pattern), host)
    ensures matched ==> Matches(LabelHost(pattern), host)
    ensures STAR !in host ==> matched == Matches(LabelHost(pattern), host)
    ensures steps <= |host| * (|pattern| + 1) + |pattern|
  {
    hide *;
    var p := LabelHost(pattern);
    var pi: nat, hi: nat := 0, 0;
    var star := NoStar;
    steps := 0;
    ghost var budget: nat, retries: nat := 0, 0;  // `budget` is `retries` passes over the pattern
    Start(p, host);
    Agreement(p, host);
    LabelShort(pattern);
    while hi < |host|
      invariant pi <= |p| && hi <= |host| && (star.StarAt? ==> star.pi < pi && star.hi <= hi)
      invariant LoopInv(p, host, pi, hi, star)
      invariant retries <= (if star.StarAt? then star.hi else 0) && budget == Passes(retries, p)
      invariant steps <= budget + pi
      decreases |host| - (if star.StarAt? then star.hi else 0), |p| - pi
    {
      steps := steps + 1;
      if pi < |p| && Literal(p[pi], host[hi]) {
        LiteralStep(p, host, pi, hi, star);
        pi, hi := pi + 1, hi + 1;
      } else if pi < |p| && p[pi] == STAR {
        StarStep(p, host, pi, hi, star);
        star := StarAt(pi, hi);
        pi := pi + 1;
      } else if star.StarAt? {
        RetryStep(p, host, pi, hi, star);
        PassesNext(retries, p);
        retries, budget := retries + 1, budget + |p| + 1;
        pi, hi := star.pi + 1, star.hi + 1;
        star := StarAt(star.pi, star.hi + 1);
      } else {
        DeadEnd(p, host, pi, hi);
        PassesBound(retries, p, |host|, |pattern|);
        return false, steps;
      }
    }
    Exhausted(p, host, pi, star);
    PassesBound(retries, p, |host|, |pattern|);
    matched := AllStars(p[pi..]);
  }

  lemma Start(p: seq<byte>, h: seq<byte>)
    ensures LoopInv(p, h, 0, 0, NoStar) && Passes(0, p) == 0
  {
    assert p[0..] == p && h[0..] == h;
  }

  ghost function Passes(n: nat, p: seq<byte>): nat {
    if n == 0 then 0 else Passes(n - 1, p) + |p| + 1
  }

  lemma PassesNext(n: nat, p: seq<byte>)
    ensures Passes(n + 1, p) == Passes(n, p) + |p| + 1
  {
  }

  lemma {:induction false} PassesBound(n: nat, p: seq<byte>, h: nat, width: nat)
    requires n <= h && |p| <= width
    ensures Passes(n, p) + |p| <= h * (width + 1) + width
    decreases h
  {
    if n < h {
      PassesBound(n, p, h - 1, width);
    } else if n > 0 {
      PassesBound(n - 1, p, h - 1, width);
    }
  }

  /** The loop never accepts a host the pattern does not match. */
  lemma {:induction false} LiteralFirstSound(p: seq<byte>, h: seq<byte>)
    ensures LiteralFirst(p, h) ==> Matches(p, h)
    decreases |p|, |h|
  {
    if LiteralFirst(p, h) {
      if h == [] {
        if p != [] { LiteralFirstSound(p[1..], h); }
      } else if Literal(p[0], h[0]) {
        LiteralFirstSound(p[1..], h[1..]);
        if p[0] == STAR {
          StarTakesRun(p[1..], h, 1);
        }
      } else {
        var k := SuffixWitness(p[1..], h, 0);
        LiteralFirstSound(p[1..], h[k..]);
        StarTakesRun(p[1..], h, k);
        assert [STAR] + p[1..] == p;
      }
    }
  }

  lemma {:induction false} StarTakesRun(p: seq<byte>, h: seq<byte>, k: nat)
    requires k <= |h| && Matches(p, h[k..])
    ensures Matches([STAR] + p, h)
    decreases k
  {
    assert ([STAR] + p)[1..] == p;
    if k == 0 {
      assert h[0..] == h;
    } else {
      assert h[1..][k - 1..] == h[k..];
      StarTakesRun(p, h[1..], k - 1);
    }
  }

  /** On a host with no star byte the two definitions agree. */
  lemma {:induction false} LiteralFirstComplete(p: seq<byte>, h: seq<byte>)
    requires STAR !in h
    ensures Matches(p, h) ==> LiteralFirst(p, h)
    decreases |p|, |h|
  {
    if Matches(p, h) && p != [] {
      if p[0] != STAR {
        LiteralFirstComplete(p[1..], h[1..]);
      } else if Matches(p[1..], h) {
        LiteralFirstComplete(p[1..], h);
        if h == [] {
          assert forall i :: 0 <= i < |p| ==> p[i] == if i == 0 then STAR else p[1..][i - 1];
        }
      } else {
        LiteralFirstComplete(p, h[1..]);
        if h[1..] == [] {
          assert AllStars(p[1..]);
          assert LiteralFirst(p[1..], h[1..]);
          assert SomeSuffix(p[1..], h[1..]);
        }
      }
    }
  }

  lemma Agreement(p: seq<byte>, h: seq<byte>)
    ensures LiteralFirst(p, h) ==> Matches(p, h)
    ensures STAR !in h ==> LiteralFirst(p, h) == Matches(p, h)
  {
    LiteralFirstSound(p, h);
    if STAR !in h { LiteralFirstComplete(p, h); }
  }

  lemma LabelShort(pattern: seq<byte>)
    ensures |LabelHost(pattern)| <= |pattern|
  {
  }

  function Queries(n: nat): (q: seq<byte>)
    ensures |q| == n && forall i :: 0 <= i < n ==> q[i] == QUERY
  {
    seq(n, _ => QUERY)
  }

  /** For a host with a star byte at `k`, the pattern of `k` queries followed by `**?` and stars. */
  lemma {:induction false} QueriesSkip(k: nat, p: seq<byte>, h: seq<byte>)
    requires k <= |h|
    ensures LiteralFirst(Queries(k) + p, h) == LiteralFirst(p, h[k..]) || k == |h|
    ensures Matches(Queries(k) + p, h) == Matches(p, h[k..])
    decreases k
  {
    if k == 0 {
      assert Queries(0) + p == p && h[0..] == h;
    } else {
      assert (Queries(k) + p)[1..] == Queries(k - 1) + p;
      assert h[1..][k - 1..] == h[k..];
      QueriesSkip(k - 1, p, h[1..]);
    }
  }

  /** A pattern on which the loop is wrong, for a host with a star byte at `k`. */
  function Misjudged(h: seq<byte>, k: nat): seq<byte>
    requires k < |h|
  {
    Queries(k) + if k == |h| - 1 then [STAR, STAR, QUERY] else [STAR]
  }

  lemma MisjudgedFails(h: seq<byte>, k: nat)
    requires k < |h| && h[k] == STAR
    ensures Matches(Misjudged(h, k), h) && !LiteralFirst(Misjudged(h, k), h)
  {
    var t := h[k..];
    if k == |h| - 1 {
      var p := [STAR, STAR, QUERY];
      QueriesSkip(k, p, h);
      assert t == [STAR];
      assert p[1..] == [STAR, QUERY] && p[1..][1..] == [QUERY] && [QUERY][1..] == [] && t[1..] == [];
      assert Matches([QUERY], t);
      assert Matches([STAR, QUERY], t);
      assert p[1..][1] == QUERY && !AllStars(p[1..]);
    } else {
      QueriesSkip(k, [STAR], h);
      assert t[1..] != [] && [STAR][1..] == [];
      assert t[|t|..] == [];
      StarTakesRun([], t, |t|);
      assert [STAR] + [] == [STAR];
    }
  }

  /** The loop computes wildcard matching on every pattern exactly when the host has no star byte. */
  lemma AgreesIffStarFree(h: seq<byte>)
    ensures (forall p :: LiteralFirst(p, h) == Matches(p, h)) <==> STAR !in h
  {
    if STAR in h {
      var k :| 0 <= k < |h| && h[k] == STAR;
      MisjudgedFails(h, k);
    } else {
      forall p ensures LiteralFirst(p, h) == Matches(p, h) {
        Agreement(p, h);
      }
    }
  }
}
