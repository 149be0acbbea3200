/** Bytes as numbers, which is how the framing computes with them. */
module ByteStrings {
  type Byte = b: nat | b < 256
  type Bytes = seq<Byte>
}
