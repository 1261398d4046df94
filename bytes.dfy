/** Bytes, as the .NET `byte` type: unsigned 8-bit values. */
module Bytes {

  type byte = x: int | 0 <= x < 256
}
