/** The wire primitives of section 5 of RFC 4251 (src/wire/reader.rs, src/wire/writer.rs).

The encoders and decoders are functions on byte sequences; `Reader` and `Writer` are the cursor and
the buffer that run them in place. A decoder returns what it read and what is left. */
module Wire {
  import opened Bytes

  datatype WireError = Truncated(needed: nat) | BadUtf8 | BadNameList | TrailingBytes(count: nat)

  datatype Result<+T> = Ok(value: T) | Err(error: WireError) {
    predicate IsFailure() { Err? }
    function PropagateFailure<U>(): Result<U>
      requires Err?
    {
      Err(error)
    }
    function Extract(): T
      requires Ok?
    {
      value
    }
  }

  /** A decoded value and the bytes after it. */
  datatype Read<+T> = Read(value: T, rest: seq<byte>)

  // ------------------------------------------------------------ encoders

  function EncodeU32(n: u32): (b: seq<byte>)
    ensures |b| == 4
  {
    [n / 256 / 256 / 256, n / 256 / 256 % 256, n / 256 % 256, n % 256]
  }

  function EncodeU64(n: u64): (b: seq<byte>)
    ensures |b| == 8
  {
    EncodeU32(n / U32) + EncodeU32(n % U32)
  }

  function EncodeString(v: seq<byte>): (b: seq<byte>)
    requires |v| < U32
    ensures |b| == 4 + |v|
  {
    EncodeU32(|v|) + v
  }

  function EncodeBool(v: bool): (b: seq<byte>)
    ensures |b| == 1
  {
    [if v then 1 else 0]
  }

  // ------------------------------------------------------------ decoders

  function Horner(a: int, b: int, c: int, d: int): int {
    ((a * 256 + b) * 256 + c) * 256 + d
  }

  function DecodeU32(b: seq<byte>): (n: u32)
    requires |b| == 4
  {
    Horner(b[0], b[1], b[2], b[3])
  }

  function Take(s: seq<byte>, n: nat): Result<Read<seq<byte>>> {
    if |s| < n then Err(Truncated(n - |s|)) else Ok(Read(s[..n], s[n..]))
  }

  function TakeByte(s: seq<byte>): Result<Read<byte>> {
    var r :- Take(s, 1);
    Ok(Read(r.value[0], r.rest))
  }

  function TakeBool(s: seq<byte>): Result<Read<bool>> {
    var r :- TakeByte(s);
    Ok(Read(r.value != 0, r.rest))
  }

  function TakeU32(s: seq<byte>): (r: Result<Read<u32>>)
    ensures r.Ok? ==> |s| == 4 + |r.value.rest|
  {
    var r :- Take(s, 4);
    Ok(Read(DecodeU32(r.value), r.rest))
  }

  function TakeU64(s: seq<byte>): (r: Result<Read<u64>>)
    ensures r.Ok? ==> |s| == 8 + |r.value.rest|
  {
    var r :- Take(s, 8);
    Ok(Read(DecodeU32(r.value[..4]) * U32 + DecodeU32(r.value[4..]), r.rest))
  }

  function TakeString(s: seq<byte>): (r: Result<Read<seq<byte>>>)
    ensures r.Ok? ==> |s| == 4 + |r.value.value| + |r.value.rest|
  {
    var len :- TakeU32(s);
    Take(len.rest, len.value)
  }

  function TakeUtf8(s: seq<byte>): (r: Result<Read<seq<byte>>>)
    ensures r.Ok? ==> |s| == 4 + |r.value.value| + |r.value.rest|
  {
    var r :- TakeString(s);
    if IsUtf8(r.value) then Ok(r) else Err(BadUtf8)
  }

  function Finished(s: seq<byte>): Result<()> {
    if s == [] then Ok(()) else Err(TrailingBytes(|s|))
  }

  predicate Continues(s: seq<byte>, lo: nat, hi: nat) {
    |s| > 1 && lo <= s[1] <= hi
  }

  predicate Tails(s: seq<byte>, n: nat)
    requires n >= 1
  {
    |s| >= n && forall i :: 2 <= i < n ==> 0x80 <= s[i] <= 0xBF
  }

  /** Well-formed UTF-8: no stray or overlong sequence, no surrogate, nothing above U+10FFFF. */
  predicate IsUtf8(s: seq<byte>)
    decreases |s|
  {
    if s == [] then true
    else if s[0] < 0x80 then IsUtf8(s[1..])
    else if 0xC2 <= s[0] <= 0xDF then Continues(s, 0x80, 0xBF) && IsUtf8(s[2..])
    else if 0xE0 <= s[0] <= 0xEF then
      && Continues(s, if s[0] == 0xE0 then 0xA0 else 0x80, if s[0] == 0xED then 0x9F else 0xBF)
      && Tails(s, 3) && IsUtf8(s[3..])
    else if 0xF0 <= s[0] <= 0xF4 then
      && Continues(s, if s[0] == 0xF0 then 0x90 else 0x80, if s[0] == 0xF4 then 0x8F else 0xBF)
      && Tails(s, 4) && IsUtf8(s[4..])
    else false
  }

  lemma {:induction false} AsciiIsUtf8(s: seq<byte>)
    requires forall i :: 0 <= i < |s| ==> s[i] < 0x80
    ensures IsUtf8(s)
  {
    if s != [] {
      AsciiIsUtf8(s[1..]);
    }
  }

  // ------------------------------------------------------------ round trips

  lemma DecodesU32(n: u32)
    ensures DecodeU32(EncodeU32(n)) == n
  {
    var (a, b) := (n / 256, n / 256 / 256);
    assert n == a * 256 + n % 256 && a == b * 256 + a % 256 && b == (b / 256) * 256 + b % 256;
  }

  lemma EncodesU32(b: seq<byte>)
    requires |b| == 4
    ensures EncodeU32(DecodeU32(b)) == b
  {
    var x := Horner(0, 0, b[0], b[1]);
    var y := x * 256 + b[2];
    var n := y * 256 + b[3];
    assert n / 256 == y && n % 256 == b[3];
    assert y / 256 == x && y % 256 == b[2];
    assert x / 256 == b[0] && x % 256 == b[1];
  }

  lemma TakesU32(n: u32, rest: seq<byte>)
    ensures TakeU32(EncodeU32(n) + rest) == Ok(Read(n, rest))
  {
    DecodesU32(n);
    assert (EncodeU32(n) + rest)[..4] == EncodeU32(n);
    assert (EncodeU32(n) + rest)[4..] == rest;
  }

  lemma TakesU64(n: u64, rest: seq<byte>)
    ensures TakeU64(EncodeU64(n) + rest) == Ok(Read(n, rest))
  {
    DecodesU32(n / U32);
    DecodesU32(n % U32);
    var s := EncodeU64(n) + rest;
    assert s[..8] == EncodeU64(n) && s[8..] == rest;
    assert EncodeU64(n)[..4] == EncodeU32(n / U32) && EncodeU64(n)[4..] == EncodeU32(n % U32);
  }

  lemma TakesString(v: seq<byte>, rest: seq<byte>)
    requires |v| < U32
    ensures TakeString(EncodeString(v) + rest) == Ok(Read(v, rest))
    ensures IsUtf8(v) ==> TakeUtf8(EncodeString(v) + rest) == Ok(Read(v, rest))
  {
    hide EncodeU32, DecodeU32, TakeU32, IsUtf8;
    assert EncodeString(v) + rest == EncodeU32(|v|) + (v + rest);
    TakesU32(|v|, v + rest);
    assert (v + rest)[..|v|] == v && (v + rest)[|v|..] == rest;
  }

  /** A string is read exactly when its bytes are there: reading is the inverse of writing. */
  lemma StringInverse(s: seq<byte>)
    ensures TakeString(s).Ok? ==>
      var r := TakeString(s).value; |r.value| < U32 && s == EncodeString(r.value) + r.rest
  {
    if TakeString(s).Ok? {
      EncodesU32(s[..4]);
      var len := DecodeU32(s[..4]);
      assert s[4..][..len] == TakeString(s).value.value;
      assert s == s[..4] + s[4..][..len] + s[4..][len..];
    }
  }

  // ------------------------------------------------------------ multiple-precision integers

  /** The value of a big-endian byte string. */
  function Value(v: seq<byte>): nat {
    if v == [] then 0 else Value(v[..|v| - 1]) * 256 + v[|v| - 1]
  }

  lemma ValueStep(v: seq<byte>, b: byte)
    ensures Value(v + [b]) == Value(v) * 256 + b
  {
    assert (v + [b])[..|v|] == v;
  }

  lemma ValueOfFour(v: seq<byte>, b: seq<byte>)
    requires |b| == 4
    ensures Value(v + b) == Value(v) * U32 + DecodeU32(b)
  {
    hide Value;
    assert v + b == v + [b[0]] + [b[1]] + [b[2]] + [b[3]];
    ValueStep(v, b[0]);
    ValueStep(v + [b[0]], b[1]);
    ValueStep(v + [b[0]] + [b[1]], b[2]);
    ValueStep(v + [b[0]] + [b[1]] + [b[2]], b[3]);
  }

  /** Words are big-endian: read as a number, highest byte first, the bytes written are the word, and the
  bytes read are. */
  lemma BigEndian(n: u32, m: u64, b: seq<byte>)
    requires |b| == 4
    ensures Value(EncodeU32(n)) == n && Value(EncodeU64(m)) == m && Value(b) == DecodeU32(b)
  {
    hide EncodeU32, DecodeU32, Value;
    assert Value([]) == 0 by { ValueOfNone(); }
    assert [] + EncodeU32(n) == EncodeU32(n) && [] + EncodeU32(m / U32) == EncodeU32(m / U32) && [] + b == b;
    ValueOfFour([], EncodeU32(n));
    ValueOfFour([], EncodeU32(m / U32));
    ValueOfFour(EncodeU32(m / U32), EncodeU32(m % U32));
    ValueOfFour([], b);
    DecodesU32(n);
    DecodesU32(m / U32);
    DecodesU32(m % U32);
  }

  lemma ValueOfNone()
    ensures Value([]) == 0
  {
  }

  lemma {:induction false} LeadingZero(v: seq<byte>)
    ensures Value([0] + v) == Value(v)
  {
    if v != [] {
      var w := [0] + v;
      assert w[..|w| - 1] == [0] + v[..|v| - 1];
      LeadingZero(v[..|v| - 1]);
    }
  }

  /** What `mpint` puts inside its length prefix: the shortest form with a clear sign bit. */
  predicate Canonical(b: seq<byte>) {
    && (b != [] ==> b[0] < 0x80)
    && (b != [] && b[0] == 0 ==> |b| > 1 && b[1] >= 0x80)
  }

  // ------------------------------------------------------------ the cursor

  class Reader {
    const buf: seq<byte>
    var pos: nat

    ghost predicate Valid()
      reads this
    {
      pos <= |buf|
    }

    ghost function Left(): seq<byte>
      reads this
      requires Valid()
    {
      buf[pos..]
    }

    constructor (buf: seq<byte>)
      ensures Valid() && this.buf == buf && Left() == buf
    {
      this.buf, pos := buf, 0;
    }

    /** `r` is what `spec` reads; on success the cursor stands after it. */
    ghost predicate Advanced<T>(r: Result<T>, spec: Result<Read<T>>)
      reads this
    {
      && Valid() && (r.Ok? <==> spec.Ok?)
      && (r.Ok? ==> r.value == spec.value.value && Left() == spec.value.rest)
      && (r.Err? ==> r.error == spec.error)
    }

    method TakeN(n: nat) returns (r: Result<seq<byte>>)
      requires Valid()
      modifies this
      ensures Advanced(r, Take(old(Left()), n))
      ensures r.Err? ==> pos == old(pos)
    {
      if |buf| - pos < n {
        return Err(Truncated(n - (|buf| - pos)));
      }
      r := Ok(buf[pos..pos + n]);
      assert buf[pos..][..n] == buf[pos..pos + n] && buf[pos..][n..] == buf[pos + n..];
      pos := pos + n;
    }

    method Byte() returns (r: Result<byte>)
      requires Valid()
      modifies this
      ensures Advanced(r, TakeByte(old(Left())))
    {
      var b :- TakeN(1);
      return Ok(b[0]);
    }

    method Boolean() returns (r: Result<bool>)
      requires Valid()
      modifies this
      ensures Advanced(r, TakeBool(old(Left())))
    {
      var b :- Byte();
      return Ok(b != 0);
    }

    method ReadU32() returns (r: Result<u32>)
      requires Valid()
      modifies this
      ensures Advanced(r, TakeU32(old(Left())))
    {
      var b :- TakeN(4);
      return Ok(Horner(b[0], b[1], b[2], b[3]));
    }

    method ReadU64() returns (r: Result<u64>)
      requires Valid()
      modifies this
      ensures Advanced(r, TakeU64(old(Left())))
    {
      var b :- TakeN(8);
      return Ok(DecodeU32(b[..4]) * U32 + DecodeU32(b[4..]));
    }

    method ReadString() returns (r: Result<seq<byte>>)
      requires Valid()
      modifies this
      ensures Advanced(r, TakeString(old(Left())))
    {
      var len :- ReadU32();
      r := TakeN(len);
    }

    method ReadUtf8() returns (r: Result<seq<byte>>)
      requires Valid()
      modifies this
      ensures Advanced(r, TakeUtf8(old(Left())))
    {
      var s :- ReadString();
      return if IsUtf8(s) then Ok(s) else Err(BadUtf8);
    }

    method Finish() returns (r: Result<()>)
      requires Valid()
      ensures r == Finished(Left())
    {
      return if pos == |buf| then Ok(()) else Err(TrailingBytes(|buf| - pos));
    }
  }

  class Writer {
    var buf: seq<byte>

    constructor ()
      ensures buf == []
    {
      buf := [];
    }

    method Raw(v: seq<byte>)
      modifies this
      ensures buf == old(buf) + v
    {
      buf := buf + v;
    }

    method WriteU32(v: u32)
      modifies this
      ensures buf == old(buf) + EncodeU32(v)
    {
      buf := buf + [v / 256 / 256 / 256, v / 256 / 256 % 256, v / 256 % 256, v % 256];
    }

    method WriteU64(v: u64)
      modifies this
      ensures buf == old(buf) + EncodeU64(v)
    {
      WriteU32(v / U32);
      WriteU32(v % U32);
      Associative(old(buf), EncodeU32(v / U32), EncodeU32(v % U32));
    }

    method WriteString(v: seq<byte>)
      requires |v| < U32
      modifies this
      ensures buf == old(buf) + EncodeString(v)
    {
      WriteU32(|v|);
      buf := buf + v;
      Associative(old(buf), EncodeU32(|v|), v);
    }

    /** Strips the leading zeros and adds one back where the sign bit would be set: the value is
    kept and the form is canonical. */
    method Mpint(v: seq<byte>)
      requires |v| < U32 - 1
      modifies this
      ensures exists body ::
        |body| < U32 && buf == old(buf) + EncodeString(body) && Value(body) == Value(v) && Canonical(body)
    {
      hide EncodeU32, Value;
      var s := v;
      while s != [] && s[0] == 0
        invariant Value(s) == Value(v) && |s| <= |v| && buf == old(buf)
      {
        assert s == [0] + s[1..];
        LeadingZero(s[1..]);
        s := s[1..];
      }
      if s == [] {
        WriteU32(0);
        assert EncodeU32(0) + [] == EncodeString([]);
        assert buf == old(buf) + EncodeString([]);
        return;
      }
      LeadingZero(s);
      var body := if s[0] >= 0x80 then [0] + s else s;
      WriteU32(|body|);
      buf := buf + body;
      Associative(old(buf), EncodeU32(|body|), body);
      assert buf == old(buf) + EncodeString(body);
    }
  }
}
