/** Bytes, and text as bytes. */
module Octets {

  newtype Byte = n: int | 0 <= n < 256
  type Bytes = seq<Byte>

  type Text = Bytes

  const NEWLINE: Byte := 10
  const RETURN: Byte := 13
}
