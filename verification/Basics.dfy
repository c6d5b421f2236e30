/** Small types shared by the other modules. */
module Basics {

  datatype Option<+T> = None | Some(value: T)

  type Byte = b: int | 0 <= b < 256
  type Bytes = seq<Byte>

  /** Two octets, most significant first. */
  function U16(hi: Byte, lo: Byte): (n: nat)
    ensures n < 0x1_0000
  {
    256 * hi + lo
  }

  function E16(n: nat): (b: Bytes)
    requires n < 0x1_0000
    ensures |b| == 2 && U16(b[0], b[1]) == n
  {
    [n / 256, n % 256]
  }

  /** Four octets, most significant first. */
  function U32(b: Bytes): (n: nat)
    requires |b| == 4
    ensures n < 0x1_0000_0000
  {
    0x1_0000 * U16(b[0], b[1]) + U16(b[2], b[3])
  }

  function E32(n: nat): (b: Bytes)
    requires n < 0x1_0000_0000
    ensures |b| == 4 && U32(b) == n
  {
    E16(n / 0x1_0000) + E16(n % 0x1_0000)
  }
}
