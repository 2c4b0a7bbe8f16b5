module Bytes {
  newtype byte = x: int | 0 <= x < 256

  /** Go strings are byte sequences. */
  type Text = seq<byte>
}
