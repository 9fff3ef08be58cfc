/** A growable byte buffer with a read cursor, as the snapshot code uses it:
    writes append little-endian fields, reads take them from the cursor on. */
module MemBuffers {
  import opened Bytes

  class MemBuffer {
    var data: seq<Byte>
    var readOffset: nat

    constructor ()
      ensures data == [] && readOffset == 0
    {
      data := [];
      readOffset := 0;
    }

    function Size(): nat
      reads this
    {
      |data|
    }

    method Write8(v: Byte)
      modifies this
      ensures data == old(data) + [v] && readOffset == old(readOffset)
    {
      data := data + [v];
    }

    method Write16(v: Word)
      modifies this
      ensures data == old(data) + LE16(v) && readOffset == old(readOffset)
    {
      data := data + LE16(v);
    }

    method Write32(v: U32)
      modifies this
      ensures data == old(data) + LE32(v) && readOffset == old(readOffset)
    {
      data := data + LE32(v);
    }

    method Read8() returns (v: Byte)
      requires readOffset + 1 <= |data|
      modifies this
      ensures data == old(data) && readOffset == old(readOffset) + 1
      ensures v == data[old(readOffset)]
    {
      v := data[readOffset];
      readOffset := readOffset + 1;
    }

    method Read16() returns (v: Word)
      requires readOffset + 2 <= |data|
      modifies this
      ensures data == old(data) && readOffset == old(readOffset) + 2
      ensures v == FromLE16(data[old(readOffset)], data[old(readOffset) + 1])
    {
      v := FromLE16(data[readOffset], data[readOffset + 1]);
      readOffset := readOffset + 2;
    }

    method Read32() returns (v: U32)
      requires readOffset + 4 <= |data|
      modifies this
      ensures data == old(data) && readOffset == old(readOffset) + 4
      ensures v == FromLE32(data[old(readOffset)], data[old(readOffset) + 1],
                            data[old(readOffset) + 2], data[old(readOffset) + 3])
    {
      v := FromLE32(data[readOffset], data[readOffset + 1], data[readOffset + 2], data[readOffset + 3]);
      readOffset := readOffset + 4;
    }
  }
}
