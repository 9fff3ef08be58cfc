/** Machine integers of the Z80 and their little-endian byte layout. */
module Bytes {

  type Byte = x: int | 0 <= x < 0x100
  type Word = x: int | 0 <= x < 0x1_0000
  type U32 = x: int | 0 <= x < 0x1_0000_0000

  /** The HALT opcode. */
  const HALT: Byte := 0x76

  /** A 16-bit address after wrap-around. */
  function Wrap16(x: int): Word
  {
    x % 0x1_0000
  }

  /** What an 8-bit store keeps of an arbitrary integer (its low byte). */
  function Truncate8(x: int): Byte
  {
    x % 0x100
  }

  /** The displacement byte of an indexed instruction read as a two's-complement number. */
  function Signed8(v: Byte): (r: int)
    ensures -128 <= r <= 127
    ensures Truncate8(r) == v
    ensures (v < 128) == (r >= 0)
  {
    if v < 128 then v else v - 256
  }

  /** Two's complement is the only reading of a byte in [-128, 127]. */
  lemma Signed8Unique(v: Byte, d: int)
    requires -128 <= d <= 127 && Truncate8(d) == v
    ensures d == Signed8(v)
  {
  }

  function LE16(w: Word): (b: seq<Byte>)
    ensures |b| == 2
  {
    [w % 0x100, w / 0x100]
  }

  function FromLE16(lo: Byte, hi: Byte): (w: Word)
  {
    lo + 0x100 * hi
  }

  function LE32(x: U32): (b: seq<Byte>)
    ensures |b| == 4
  {
    var q1 := x / 0x100;
    var q2 := q1 / 0x100;
    [x % 0x100, q1 % 0x100, q2 % 0x100, q2 / 0x100]
  }

  function FromLE32(b0: Byte, b1: Byte, b2: Byte, b3: Byte): (x: U32)
  {
    b0 + 0x100 * b1 + 0x1_0000 * b2 + 0x100_0000 * b3
  }

  lemma LE16RoundTrip(w: Word)
    ensures FromLE16(LE16(w)[0], LE16(w)[1]) == w
  {
  }

  lemma LE32RoundTrip(x: U32)
    ensures var b := LE32(x); FromLE32(b[0], b[1], b[2], b[3]) == x
  {
    var q1 := x / 0x100;
    var q2 := q1 / 0x100;
    assert x == q1 * 0x100 + x % 0x100;
    assert q1 == q2 * 0x100 + q1 % 0x100;
    assert q2 == q2 / 0x100 * 0x100 + q2 % 0x100;
  }
}
