/** The byte-sequence vocabulary shared by every DA implementation. */
module DA {
  import opened Bytes

  /** The data submitted to and received from a DA layer. */
  type Blob = seq<byte>

  /** Whatever an implementation needs to find a blob again. */
  type ID = seq<byte>

  /** A cryptographic commitment to a blob. */
  type Commitment = seq<byte>

  /** Evidence that a blob was published. */
  type Proof = seq<byte>
}
