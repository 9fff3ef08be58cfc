/** The register snapshot written by `serialize` and read back by `deserialize`. */
module Snapshots {
  import opened Bytes

  /** The register file: PC, SP, the main and shadow register pairs, IX, IY, I, R,
      the interrupt mode and both interrupt flip-flops. */
  datatype Registers = Registers(
    pc: Word, sp: Word,
    af: Word, bc: Word, de: Word, hl: Word, ix: Word, iy: Word,
    af2: Word, bc2: Word, de2: Word, hl2: Word,
    i: Byte, r: Byte, im: Byte, iff1: bool, iff2: bool)

  /** Everything a snapshot holds: the register file and the T-states left until the
      next interrupt. */
  datatype Snapshot = Snapshot(regs: Registers, remaining: U32)

  /** Twelve 16-bit registers, five single bytes and one 32-bit countdown. */
  const SERIALIZED_SIZE: nat := 12 * 2 + 5 + 4

  /** A flip-flop as the byte it is stored as. */
  function FlagByte(b: bool): Byte
  {
    if b then 1 else 0
  }

  /** PC, SP and the main register pairs, in the order they are written. */
  function MainBytes(s: Snapshot): (b: seq<Byte>)
    ensures |b| == 12
  {
    LE16(s.regs.pc) + LE16(s.regs.sp) + LE16(s.regs.af) + LE16(s.regs.bc) + LE16(s.regs.de) + LE16(s.regs.hl)
  }

  /** IX, IY and the shadow register pairs. */
  function IndexShadowBytes(s: Snapshot): (b: seq<Byte>)
    ensures |b| == 12
  {
    LE16(s.regs.ix) + LE16(s.regs.iy) + LE16(s.regs.af2) + LE16(s.regs.bc2) + LE16(s.regs.de2) + LE16(s.regs.hl2)
  }

  /** I, R, IM and the flip-flops one byte each, then the 32-bit countdown. */
  function ControlBytes(s: Snapshot): (b: seq<Byte>)
    ensures |b| == 9
  {
    [s.regs.i, s.regs.r, s.regs.im, FlagByte(s.regs.iff1), FlagByte(s.regs.iff2)] + LE32(s.remaining)
  }

  function Encode(s: Snapshot): (b: seq<Byte>)
    ensures |b| == SERIALIZED_SIZE
  {
    MainBytes(s) + IndexShadowBytes(s) + ControlBytes(s)
  }

  /** Reads a snapshot from the front of `b`; a flip-flop byte is set when it is not zero. */
  function Decode(b: seq<Byte>): Snapshot
    requires |b| >= SERIALIZED_SIZE
  {
    Snapshot(
      Registers(
        FromLE16(b[0], b[1]), FromLE16(b[2], b[3]),
        FromLE16(b[4], b[5]), FromLE16(b[6], b[7]), FromLE16(b[8], b[9]), FromLE16(b[10], b[11]),
        FromLE16(b[12], b[13]), FromLE16(b[14], b[15]),
        FromLE16(b[16], b[17]), FromLE16(b[18], b[19]), FromLE16(b[20], b[21]), FromLE16(b[22], b[23]),
        b[24], b[25], b[26], b[27] != 0, b[28] != 0),
      FromLE32(b[29], b[30], b[31], b[32]))
  }

  /** Restoring what was saved gives back every field, whatever follows the snapshot. */
  lemma DecodeEncode(s: Snapshot, rest: seq<Byte>)
    ensures Decode(Encode(s) + rest) == s
  {
    var b := Encode(s) + rest;
    assert b[..12] == MainBytes(s);
    assert b[12..24] == IndexShadowBytes(s);
    assert b[24..33] == ControlBytes(s);
    LE32RoundTrip(s.remaining);
  }

  /** Two snapshots with the same encoding are the same snapshot. */
  lemma EncodeInjective(s: Snapshot, t: Snapshot)
    requires Encode(s) == Encode(t)
    ensures s == t
  {
    DecodeEncode(s, []);
    DecodeEncode(t, []);
    assert Encode(s) + [] == Encode(t) + [];
  }
}
