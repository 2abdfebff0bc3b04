/** Bytes, 128-bit GUIDs and the fixed-width unsigned integers of the
    cluster wire format. */
module Bytes {

  /** One octet, as vpr::Uint8. */
  newtype byte = x: int | 0 <= x < 0x100

  /** A vpr::GUID is 128 bits; on the wire it is its 16 bytes in order. */
  const GUID_SIZE: nat := 16

  type Guid = s: seq<byte> | |s| == GUID_SIZE
    witness [0, 0, 0, 0, 0, 0, 0, 0, 0, 0, 0, 0, 0, 0, 0, 0]

  const U16_LIMIT: int := 0x1_0000
  const U32_LIMIT: int := 0x1_0000_0000

  predicate IsU32(x: int) { 0 <= x < U32_LIMIT }

  const U8_LIMIT: int := 0x100

  /** The conversion of a C/C++ integer to an unsigned char: reduction
      modulo 2^8. */
  function ToU8(x: int): (r: int)
    ensures 0 <= r < U8_LIMIT && (x - r) % U8_LIMIT == 0
    ensures 0 <= x < U8_LIMIT ==> r == x
  {
    x % U8_LIMIT
  }

  /** The conversion of a C/C++ integer to vpr::Uint16 or unsigned short:
      reduction modulo 2^16. */
  function ToU16(x: int): (r: int)
    ensures 0 <= r < U16_LIMIT && (x - r) % U16_LIMIT == 0
    ensures 0 <= x < U16_LIMIT ==> r == x
  {
    x % U16_LIMIT
  }

  /** The conversion of a C/C++ integer to vpr::Uint32 or unsigned int:
      reduction modulo 2^32. */
  function ToU32(x: int): (r: int)
    ensures IsU32(r) && (x - r) % U32_LIMIT == 0
    ensures IsU32(x) ==> r == x
  {
    x % U32_LIMIT
  }

  /** A 32-bit field written most significant byte first. */
  function U32Bytes(x: int): (b: seq<byte>)
    requires IsU32(x)
    ensures |b| == 4
    ensures U32Value(b) == x
  {
    var b0, r0 := x / 0x100_0000, x % 0x100_0000;
    var b1, r1 := r0 / 0x1_0000, r0 % 0x1_0000;
    var b2, b3 := r1 / 0x100, r1 % 0x100;
    assert x == b0 * 0x100_0000 + b1 * 0x1_0000 + b2 * 0x100 + b3;
    [b0 as byte, b1 as byte, b2 as byte, b3 as byte]
  }

  /** Reads back a 32-bit field written by U32Bytes. */
  function U32Value(b: seq<byte>): (x: int)
    requires |b| == 4
    ensures IsU32(x)
  {
    (b[0] as int) * 0x100_0000 + (b[1] as int) * 0x1_0000 + (b[2] as int) * 0x100 + (b[3] as int)
  }
}
