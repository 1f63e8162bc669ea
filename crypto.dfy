/** SHA-256 and Ed25519, kept uninterpreted: each primitive is a total
    function carried in a `Primitives` value, and the only facts the model
    relies on are the ones stated here. */
module Crypto {
  import opened Bytes

  /** A SHA-256 digest: always exactly 32 bytes. */
  type Digest = d: seq<byte> | |d| == 32 witness seq(32, i => 0)

  type PublicKey = seq<byte>
  type PrivateKey = seq<byte>

  /** `sha256` is `sha256.Sum256` (deterministic, since it is a function);
      `sign` is pure Ed25519 signing, which is deterministic and ignores
      the random source it is handed; `verify` is `ed25519.Verify`. */
  datatype Primitives = Primitives(
    sha256: seq<byte> -> Digest,
    sign: (PrivateKey, seq<byte>) -> seq<byte>,
    verify: (PublicKey, seq<byte>, seq<byte>) -> bool)

  /** The key pair produced by `ed25519.GenerateKey`: every signature made
      with `priv` verifies against `pub`. */
  ghost predicate KeyPair(p: Primitives, pub: PublicKey, priv: PrivateKey)
  {
    forall m :: p.verify(pub, m, p.sign(priv, m))
  }
}
