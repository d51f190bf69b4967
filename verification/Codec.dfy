/** Fixed-width integers as they lie in memory: little-endian, two's complement. */
module Codec {

  type byte = x: int | 0 <= x < 256

  const TWO_32 := 0x1_0000_0000
  const TWO_64 := TWO_32 * TWO_32

  predicate IsInt32(x: int) {
    -0x8000_0000 <= x < 0x8000_0000
  }

  function EncUint32(x: nat): (b: seq<byte>)
    requires x < TWO_32
    ensures |b| == 4
  {
    var q1: nat := x / 256;
    var q2: nat := q1 / 256;
    [x % 256, q1 % 256, q2 % 256, q2 / 256]
  }

  function DecUint32(b: seq<byte>): (x: nat)
    requires |b| == 4
    ensures x < TWO_32
  {
    b[0] as int + 256 * b[1] as int + 65536 * b[2] as int + 16777216 * b[3] as int
  }

  /** An int32_t. */
  function Enc32(x: int): (b: seq<byte>)
    requires IsInt32(x)
    ensures |b| == 4
  {
    EncUint32(if x < 0 then x + TWO_32 else x)
  }

  function Dec32(b: seq<byte>): (x: int)
    requires |b| == 4
    ensures IsInt32(x)
  {
    var u := DecUint32(b);
    if u < 0x8000_0000 then u else u - TWO_32
  }

  /** A size_t. */
  function EncSize(x: nat): (b: seq<byte>)
    requires x < TWO_64
    ensures |b| == 8
  {
    EncUint32(x % TWO_32) + EncUint32(x / TWO_32)
  }

  function DecSize(b: seq<byte>): nat
    requires |b| == 8
  {
    DecUint32(b[..4]) + TWO_32 * DecUint32(b[4..])
  }

  // The integers that lie at some offset.

  function Int32At(mem: seq<byte>, off: nat): int
    requires off + 4 <= |mem|
  {
    Dec32(mem[off..off + 4])
  }

  function SizeAt(mem: seq<byte>, off: nat): nat
    requires off + 8 <= |mem|
  {
    DecSize(mem[off..off + 8])
  }

  lemma DecEncUint32(x: nat)
    requires x < TWO_32
    ensures DecUint32(EncUint32(x)) == x
  {
    var q1 := x / 256;
    var q2 := q1 / 256;
    assert x == 256 * q1 + x % 256 && q1 == 256 * q2 + q1 % 256 && q2 == 256 * (q2 / 256) + q2 % 256;
  }

  lemma DecEnc32(x: int)
    requires IsInt32(x)
    ensures Dec32(Enc32(x)) == x
  {
    DecEncUint32(if x < 0 then x + TWO_32 else x);
  }

  lemma DecEncSize(x: nat)
    requires x < TWO_64
    ensures DecSize(EncSize(x)) == x
  {
    var lo, hi := EncUint32(x % TWO_32), EncUint32(x / TWO_32);
    assert (lo + hi)[..4] == lo && (lo + hi)[4..] == hi;
    DecEncUint32(x % TWO_32);
    DecEncUint32(x / TWO_32);
  }

  /** The bytes of an integer, the lowest first. */
  lemma LittleEndian(x: nat)
    requires x < TWO_32
    ensures var b := EncUint32(x); x == b[0] as int + 256 * b[1] as int + 65536 * b[2] as int + 16777216 * b[3] as int
  {
    var q1 := x / 256;
    var q2 := q1 / 256;
    assert x == 256 * q1 + x % 256 && q1 == 256 * q2 + q1 % 256 && q2 == 256 * (q2 / 256) + q2 % 256;
  }

  /** A negative integer is written as its two's complement. */
  lemma TwosComplement(x: int)
    requires IsInt32(x)
    ensures var b := Enc32(x);
      b[0] as int + 256 * b[1] as int + 65536 * b[2] as int + 16777216 * b[3] as int
        == if x < 0 then x + 0x1_0000_0000 else x
  {
    LittleEndian(if x < 0 then x + TWO_32 else x);
  }

  /** A size has its low half first. */
  lemma SizeBytes(x: nat)
    requires x < TWO_64
    ensures var b := EncSize(x);
      x == (b[0] as int + 256 * b[1] as int + 65536 * b[2] as int + 16777216 * b[3] as int)
           + 0x1_0000_0000 * (b[4] as int + 256 * b[5] as int + 65536 * b[6] as int + 16777216 * b[7] as int)
  {
    LittleEndian(x % TWO_32);
    LittleEndian(x / TWO_32);
  }
}
