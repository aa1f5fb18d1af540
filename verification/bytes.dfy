/** Octets as the firmware handles them: an Arduino `byte` is an unsigned
    8-bit value, and arithmetic stored back into a `byte` wraps modulo 256. */
module Bytes {

  type Byte = x: int | 0 <= x < 256

  /** What a `byte` keeps of an integer assigned to it. */
  function Truncate(x: int): Byte
  {
    x % 256
  }

  /** `a += b` on two `byte`s: the sum wraps past 255. */
  function AddBytes(a: Byte, b: Byte): Byte
  {
    if a + b < 256 then a + b else a + b - 256
  }

  lemma AddBytesIsModular(a: Byte, b: Byte)
    ensures AddBytes(a, b) == (a + b) % 256
  {
  }
}
