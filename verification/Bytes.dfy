// Big-endian integers and the bounded cursors every codec is built on.
module Bytes {
  import opened Config

  ghost function Pow256(n: nat): nat { if n == 0 then 1 else 256 * Pow256(n - 1) }

  // v as n bytes, most significant first; higher bytes of v are dropped.
  function BigEndian(v: nat, n: nat): (s: seq<byte>)
    ensures |s| == n
    decreases n
  {
    if n == 0 then [] else BigEndian(v / 256, n - 1) + [v % 256]
  }

  function Value(s: seq<byte>): nat {
    if s == [] then 0 else Value(s[..|s| - 1]) * 256 + s[|s| - 1]
  }

  lemma {:induction false} ValueOfBigEndian(v: nat, n: nat)
    requires v < Pow256(n)
    ensures Value(BigEndian(v, n)) == v
    decreases n
  {
    if n > 0 {
      var s := BigEndian(v, n);
      ValueOfBigEndian(v / 256, n - 1);
      assert s[..|s| - 1] == BigEndian(v / 256, n - 1);
    }
  }

  lemma {:induction false} BigEndianOfValue(s: seq<byte>)
    ensures Value(s) < Pow256(|s|)
    ensures BigEndian(Value(s), |s|) == s
  {
    if s != [] {
      BigEndianOfValue(s[..|s| - 1]);
      assert s == s[..|s| - 1] + [s[|s| - 1]];
    }
  }

  lemma Widths()
    ensures Pow256(1) == 0x100 && Pow256(2) == U16_LIMIT && Pow256(4) == U32_LIMIT && Pow256(8) == U64_LIMIT
  {
    assert Pow256(5) == 0x100_0000_0000;
    assert Pow256(6) == 0x1_0000_0000_0000;
  }

  // Two numbers in range with the same bytes are the same number.
  lemma BigEndianInjective(v: nat, w: nat, n: nat)
    requires v < Pow256(n) && w < Pow256(n) && BigEndian(v, n) == BigEndian(w, n)
    ensures v == w
  {
    ValueOfBigEndian(v, n);
    ValueOfBigEndian(w, n);
  }

  lemma ValueStep(s: seq<byte>, n: nat)
    requires n < |s|
    ensures Value(s[..n + 1]) == Value(s[..n]) * 256 + s[n]
  {
    assert s[..n + 1][..n] == s[..n];
  }

  // A record of fixed-width big-endian fields.
  function Pack(values: seq<nat>, widths: seq<nat>): (s: seq<byte>)
    requires |values| == |widths|
    ensures |s| == Total(widths)
  {
    if values == [] then [] else BigEndian(values[0], widths[0]) + Pack(values[1..], widths[1..])
  }

  function Total(widths: seq<nat>): nat { if widths == [] then 0 else widths[0] + Total(widths[1..]) }

  function Unpack(s: seq<byte>, widths: seq<nat>): (values: seq<nat>)
    requires |s| >= Total(widths)
    ensures |values| == |widths|
  {
    if widths == [] then [] else [Value(s[..widths[0]])] + Unpack(s[widths[0]..], widths[1..])
  }

  ghost predicate InRange(values: seq<nat>, widths: seq<nat>) {
    |values| == |widths| && forall i | 0 <= i < |values| :: values[i] < Pow256(widths[i])
  }

  // Reading a record back gives its fields, whatever follows it.
  lemma {:induction false} UnpackOfPack(values: seq<nat>, widths: seq<nat>, rest: seq<byte>)
    requires InRange(values, widths)
    ensures Unpack(Pack(values, widths) + rest, widths) == values
  {
    if values != [] {
      var s := Pack(values, widths) + rest;
      ValueOfBigEndian(values[0], widths[0]);
      assert s[..widths[0]] == BigEndian(values[0], widths[0]);
      assert s[widths[0]..] == Pack(values[1..], widths[1..]) + rest;
      UnpackOfPack(values[1..], widths[1..], rest);
      assert values == [values[0]] + values[1..];
    }
  }

  // Fields that were read encode to the bytes they were read from.
  lemma {:induction false} PackOfUnpack(s: seq<byte>, widths: seq<nat>)
    requires |s| >= Total(widths)
    ensures Pack(Unpack(s, widths), widths) == s[..Total(widths)]
  {
    if widths != [] {
      var w, tail := widths[0], s[widths[0]..];
      var values := Unpack(s, widths);
      PackOfUnpack(tail, widths[1..]);
      BigEndianOfValue(s[..w]);
      assert values[1..] == Unpack(tail, widths[1..]);
      assert s[..Total(widths)] == s[..w] + tail[..Total(widths[1..])];
    }
  }

  lemma {:induction false} UnpackInRange(s: seq<byte>, widths: seq<nat>)
    requires |s| >= Total(widths)
    ensures InRange(Unpack(s, widths), widths)
  {
    if widths != [] {
      BigEndianOfValue(s[..widths[0]]);
      UnpackInRange(s[widths[0]..], widths[1..]);
    }
  }

  // v >> (8 * i)
  function ShiftRight8(v: nat, i: nat): nat { if i == 0 then v else ShiftRight8(v, i - 1) / 256 }

  // ------------------------------------------------------------------- cursors

  class ByteWriter {
    const dst: array<byte>
    var off: nat

    ghost predicate Valid() reads this { off <= dst.Length }

    ghost function Written(): seq<byte>
      requires Valid()
      reads this, dst
    {
      dst[..off]
    }

    constructor (dst: array<byte>)
      ensures Valid() && this.dst == dst && off == 0
    {
      this.dst := dst;
      off := 0;
    }

    function Remaining(): nat requires Valid() reads this { dst.Length - off }

    method WriteU8(v: byte) returns (rc: Status)
      requires Valid()
      modifies `off, dst
      ensures Valid() && rc.Ok? == (old(Remaining()) >= 1)
      ensures Written() == old(Written()) + if rc.Ok? then [v] else []
    {
      if Remaining() < 1 { return Err(Truncated); }
      dst[off] := v;
      off := off + 1;
      return Ok;
    }

    method WriteU16(v: nat) returns (rc: Status)
      requires Valid() && v < U16_LIMIT
      modifies `off, dst
      ensures Valid() && rc.Ok? == (old(Remaining()) >= 2)
      ensures Written() == old(Written()) + if rc.Ok? then BigEndian(v, 2) else []
    {
      if Remaining() < 2 { return Err(Truncated); }
      dst[off] := (v / 256) % 256;
      dst[off + 1] := v % 256;
      off := off + 2;
      assert BigEndian(v, 2) == BigEndian(v / 256, 1) + [v % 256];
      return Ok;
    }

    method WriteU32(v: nat) returns (rc: Status)
      requires Valid() && v < U32_LIMIT
      modifies `off, dst
      ensures Valid() && rc.Ok? == (old(Remaining()) >= 4)
      ensures Written() == old(Written()) + if rc.Ok? then BigEndian(v, 4) else []
    {
      if Remaining() < 4 { return Err(Truncated); }
      dst[off] := (v / 0x100_0000) % 256;
      dst[off + 1] := (v / 0x1_0000) % 256;
      dst[off + 2] := (v / 0x100) % 256;
      dst[off + 3] := v % 256;
      off := off + 4;
      assert BigEndian(v, 4) == BigEndian(v / 0x100, 3) + [v % 256];
      assert BigEndian(v / 0x100, 3) == BigEndian(v / 0x1_0000, 2) + [(v / 0x100) % 256];
      assert BigEndian(v / 0x1_0000, 2) == BigEndian(v / 0x100_0000, 1) + [(v / 0x1_0000) % 256];
      return Ok;
    }

    method WriteU64(v: nat) returns (rc: Status)
      requires Valid() && v < U64_LIMIT
      modifies `off, dst
      ensures Valid() && rc.Ok? == (old(Remaining()) >= 8)
      ensures Written() == old(Written()) + if rc.Ok? then BigEndian(v, 8) else []
    {
      if Remaining() < 8 { return Err(Truncated); }
      var i := 8;
      Widths();
      while i > 0
        invariant 0 <= i <= 8
        invariant off == old(off) + (8 - i) <= dst.Length && dst.Length >= old(off) + 8
        invariant dst[..off] == old(dst[..off]) + BigEndian(ShiftRight8(v, i), 8 - i)
      {
        i := i - 1;
        dst[off] := ShiftRight8(v, i) % 256;
        off := off + 1;
      }
      return Ok;
    }

    method WriteBytes(p: seq<byte>) returns (rc: Status)
      requires Valid()
      modifies `off, dst
      ensures Valid() && rc.Ok? == (old(Remaining()) >= |p|)
      ensures Written() == old(Written()) + if rc.Ok? then p else []
    {
      if Remaining() < |p| { return Err(Truncated); }
      ghost var before := dst[..off];
      forall i | 0 <= i < |p| { dst[off + i] := p[i]; }
      off := off + |p|;
      assert dst[..off] == before + p;
      return Ok;
    }
  }

  class ByteReader {
    const src: seq<byte>
    var off: nat

    ghost predicate Valid() reads this { off <= |src| }

    // The bytes not read yet.
    ghost function Rest(): seq<byte> requires Valid() reads this { src[off..] }

    constructor (src: seq<byte>)
      ensures Valid() && this.src == src && off == 0 && Rest() == src
    {
      this.src := src;
      off := 0;
    }

    function Remaining(): nat requires Valid() reads this { |src| - off }

    method ReadU8() returns (rc: Status, v: byte)
      requires Valid()
      modifies `off
      ensures Valid() && rc.Ok? == (|old(Rest())| >= 1)
      ensures rc.Ok? ==> v == Value(old(Rest())[..1]) && Rest() == old(Rest())[1..]
      ensures !rc.Ok? ==> off == old(off)
    {
      if Remaining() < 1 { return Err(Truncated), 0; }
      v := src[off];
      off := off + 1;
      return Ok, v;
    }

    method ReadU16() returns (rc: Status, v: nat)
      requires Valid()
      modifies `off
      ensures Valid() && rc.Ok? == (|old(Rest())| >= 2)
      ensures rc.Ok? ==> v == Value(old(Rest())[..2]) && Rest() == old(Rest())[2..] && v < U16_LIMIT
      ensures !rc.Ok? ==> off == old(off)
    {
      if Remaining() < 2 { return Err(Truncated), 0; }
      v := src[off] as int * 256 + src[off + 1] as int;
      ghost var two := Rest()[..2];
      ValueStep(two, 0);
      ValueStep(two, 1);
      assert two[..2] == two;
      off := off + 2;
      return Ok, v;
    }

    method ReadU32() returns (rc: Status, v: nat)
      requires Valid()
      modifies `off
      ensures Valid() && rc.Ok? == (|old(Rest())| >= 4)
      ensures rc.Ok? ==> v == Value(old(Rest())[..4]) && Rest() == old(Rest())[4..] && v < U32_LIMIT
      ensures !rc.Ok? ==> off == old(off)
    {
      if Remaining() < 4 { return Err(Truncated), 0; }
      v := src[off] as int * 0x100_0000 + src[off + 1] as int * 0x1_0000 + src[off + 2] as int * 0x100
        + src[off + 3] as int;
      ghost var four := Rest()[..4];
      ValueStep(four, 0);
      ValueStep(four, 1);
      ValueStep(four, 2);
      ValueStep(four, 3);
      assert four[..4] == four;
      off := off + 4;
      return Ok, v;
    }

    method ReadU64() returns (rc: Status, v: nat)
      requires Valid()
      modifies `off
      ensures Valid() && rc.Ok? == (|old(Rest())| >= 8)
      ensures rc.Ok? ==> v == Value(old(Rest())[..8]) && Rest() == old(Rest())[8..] && v < U64_LIMIT
      ensures !rc.Ok? ==> off == old(off)
    {
      if Remaining() < 8 { return Err(Truncated), 0; }
      v := 0;
      ghost var eight := Rest()[..8];
      for i := 0 to 8
        invariant off == old(off) && v == Value(eight[..i])
      {
        v := v * 256 + src[off + i];
        ValueStep(eight, i);
      }
      off := off + 8;
      Widths();
      BigEndianOfValue(eight);
      assert eight[..8] == eight;
      return Ok, v;
    }

    method ReadBytes(n: nat) returns (rc: Status, p: seq<byte>)
      requires Valid()
      modifies `off
      ensures Valid() && rc.Ok? == (|old(Rest())| >= n)
      ensures rc.Ok? ==> p == old(Rest())[..n] && Rest() == old(Rest())[n..]
      ensures !rc.Ok? ==> off == old(off)
    {
      if Remaining() < n { return Err(Truncated), []; }
      p := src[off..off + n];
      off := off + n;
      return Ok, p;
    }
  }
}
