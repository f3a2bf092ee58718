/**
 * Small value helpers shared by the client input model: optional command
 * arguments, bytes, and the C conversions the input code relies on.
 */
module Common {

  /** An argument of a console command that may be absent. */
  datatype Option<T> = None | Some(value: T)

  /** An unsigned 8-bit value, as stored in the fields of a move command. */
  newtype byte = x: int | 0 <= x < 256

  const TwoTo32: int := 0x1_0000_0000

  /**
   * The 32-bit pattern of an integer, read as unsigned: what C leaves in an
   * `unsigned` after subtraction, and the two's complement bits of an `int`.
   */
  function Bits32(x: int): (r: int)
    ensures 0 <= r < TwoTo32
    ensures 0 <= x < TwoTo32 ==> r == x
    ensures -TwoTo32 <= x < 0 ==> r == x + TwoTo32
  {
    x % TwoTo32
  }

  /** C's conversion of an integer to `unsigned char`: reduction modulo 256. */
  function ToByte(x: int): (r: byte)
    ensures 0 <= x < 256 ==> r as int == x
    ensures (x - r as int) % 256 == 0
  {
    (x % 256) as byte
  }

  /** C's conversion of a floating value to an integer: truncation toward zero. */
  function Trunc(x: real): (r: int)
    ensures 0.0 <= x ==> 0 <= r && r as real <= x < r as real + 1.0
    ensures x < 0.0 ==> r <= 0 && r as real - 1.0 < x <= r as real
  {
    if x >= 0.0 then x.Floor else -((-x).Floor)
  }
}
