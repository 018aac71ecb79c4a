/** Which bytes are destination constraints (src/agent/server.rs): a payload parses to a list of
constraints exactly when it is an encoding of that list, whatever stands in the parts the agent skips. */
module AgentBytes {
  import opened Bytes
  import opened Wire
  import opened AgentPath

  /** Entries one after another: each a key as a string, and a byte that is zero unless it is a CA's. */
  ghost predicate SpellsKeys(s: seq<byte>, keys: seq<Entry>)
    decreases |keys|
  {
    if keys == [] then s == []
    else exists b: byte, rest {:trigger [b] + rest} ::
      && |keys[0].blob| < U32 && s == EncodeString(keys[0].blob) + ([b] + rest) && (keys[0].isCa <==> b != 0)
      && SpellsKeys(rest, keys[1..])
  }

  /** Three strings and what follows. */
  predicate SpellsThree(s: seq<byte>, t: Three) {
    && |t.a| < U32 && |t.b| < U32 && |t.c| < U32
    && s == EncodeString(t.a) + (EncodeString(t.b) + (EncodeString(t.c) + t.rest))
  }

  /** A user, a host and a reserved string, all skipped, and then the keys. */
  ghost predicate SpellsHop(s: seq<byte>, hop: Hop) {
    exists t :: SpellsThree(s, t) && SpellsKeys(t.rest, hop.keys)
  }

  /** Two hops, a reserved string, and nothing more. */
  ghost predicate SpellsConstraint(s: seq<byte>, c: Constraint) {
    exists t :: SpellsThree(s, t) && t.rest == [] && SpellsHop(t.a, c.from) && SpellsHop(t.b, c.to)
  }

  /** Constraints one after another, each in a string. */
  ghost predicate SpellsAll(s: seq<byte>, cs: seq<Constraint>)
    decreases |cs|
  {
    if cs == [] then s == []
    else exists body, rest {:trigger EncodeString(body) + rest} ::
      |body| < U32 && s == EncodeString(body) + rest && SpellsConstraint(body, cs[0]) && SpellsAll(rest, cs[1..])
  }

  lemma BoolInverse(s: seq<byte>)
    requires TakeBool(s).Ok?
    ensures s != [] && s == [s[0]] + TakeBool(s).value.rest && (TakeBool(s).value.value <==> s[0] != 0)
  {
  }

  lemma {:induction false} KeysSpelt(s: seq<byte>)
    requires ParseKeys(s).Some?
    ensures SpellsKeys(s, ParseKeys(s).value)
    decreases |s|
  {
    hide TakeString, EncodeString, TakeBool;
    if s != [] {
      StringInverse(s);
      var blob := TakeString(s).value;
      BoolInverse(blob.rest);
      var ca := TakeBool(blob.rest).value;
      KeysSpelt(ca.rest);
      var keys := ParseKeys(s).value;
      assert keys[1..] == ParseKeys(ca.rest).value;
      assert s == EncodeString(keys[0].blob) + ([blob.rest[0]] + ca.rest);
    }
  }

  lemma {:induction false} KeysRead(s: seq<byte>, keys: seq<Entry>)
    requires SpellsKeys(s, keys)
    ensures ParseKeys(s) == Some(keys)
    decreases |keys|
  {
    hide TakeString, EncodeString;
    if keys != [] {
      var b: byte, rest :| |keys[0].blob| < U32 && s == EncodeString(keys[0].blob) + ([b] + rest) && (keys[0].isCa <==> b != 0)
        && SpellsKeys(rest, keys[1..]);
      KeysRead(rest, keys[1..]);
      TakesString(keys[0].blob, [b] + rest);
      ByteRead(b, rest);
      assert keys == [keys[0]] + keys[1..];
    }
  }

  lemma ByteRead(b: byte, rest: seq<byte>)
    ensures TakeBool([b] + rest) == Ok(Read(b != 0, rest))
  {
    assert ([b] + rest)[..1] == [b] && ([b] + rest)[1..] == rest;
  }

  lemma ThreeIff(s: seq<byte>, t: Three)
    ensures TakeThree(s) == Some(t) <==> SpellsThree(s, t)
  {
    hide TakeString, EncodeString;
    if TakeThree(s) == Some(t) {
      StringInverse(s);
      var a := TakeString(s).value;
      StringInverse(a.rest);
      var b := TakeString(a.rest).value;
      StringInverse(b.rest);
    }
    if SpellsThree(s, t) {
      TakesString(t.a, EncodeString(t.b) + (EncodeString(t.c) + t.rest));
      TakesString(t.b, EncodeString(t.c) + t.rest);
      TakesString(t.c, t.rest);
    }
  }

  lemma HopIff(s: seq<byte>, hop: Hop)
    ensures ParseHop(s) == Some(hop) <==> SpellsHop(s, hop)
  {
    hide TakeThree, SpellsThree, ParseKeys, SpellsKeys;
    if ParseHop(s) == Some(hop) {
      var t := TakeThree(s).value;
      ThreeIff(s, t);
      KeysSpelt(t.rest);
    }
    if SpellsHop(s, hop) {
      var t :| SpellsThree(s, t) && SpellsKeys(t.rest, hop.keys);
      ThreeIff(s, t);
      KeysRead(t.rest, hop.keys);
    }
  }

  lemma ConstraintIff(s: seq<byte>, c: Constraint)
    ensures ParseConstraint(s) == Some(c) <==> SpellsConstraint(s, c)
  {
    hide TakeThree, SpellsThree, ParseHop, SpellsHop;
    if ParseConstraint(s) == Some(c) {
      var t := TakeThree(s).value;
      ThreeIff(s, t);
      HopIff(t.a, c.from);
      HopIff(t.b, c.to);
    }
    if SpellsConstraint(s, c) {
      var t :| SpellsThree(s, t) && t.rest == [] && SpellsHop(t.a, c.from) && SpellsHop(t.b, c.to);
      ThreeIff(s, t);
      HopIff(t.a, c.from);
      HopIff(t.b, c.to);
    }
  }

  lemma {:induction false} AllSpelt(s: seq<byte>)
    requires ParseConstraints(s).Some?
    ensures SpellsAll(s, ParseConstraints(s).value)
    decreases |s|
  {
    hide TakeString, EncodeString, ParseConstraint, SpellsConstraint;
    if s != [] {
      StringInverse(s);
      var body := TakeString(s).value;
      var cs := ParseConstraints(s).value;
      ConstraintIff(body.value, cs[0]);
      AllSpelt(body.rest);
      assert cs[1..] == ParseConstraints(body.rest).value;
      assert s == EncodeString(body.value) + body.rest;
    }
  }

  lemma {:induction false} AllRead(s: seq<byte>, cs: seq<Constraint>)
    requires SpellsAll(s, cs)
    ensures ParseConstraints(s) == Some(cs)
    decreases |cs|
  {
    hide TakeString, EncodeString, ParseConstraint, SpellsConstraint;
    if cs != [] {
      var body, rest :| |body| < U32 && s == EncodeString(body) + rest && SpellsConstraint(body, cs[0]) && SpellsAll(rest, cs[1..]);
      TakesString(body, rest);
      ConstraintIff(body, cs[0]);
      AllRead(rest, cs[1..]);
      assert cs == [cs[0]] + cs[1..];
    }
  }

  /** Every payload: it parses to these constraints if and only if it spells them. */
  lemma ParsesIffSpelt(s: seq<byte>, cs: seq<Constraint>)
    ensures ParseConstraints(s) == Some(cs) <==> SpellsAll(s, cs)
  {
    hide ParseConstraints, SpellsAll;
    if ParseConstraints(s) == Some(cs) { AllSpelt(s); }
    if SpellsAll(s, cs) { AllRead(s, cs); }
  }
}
