/** Bytes and the fixed-width little-endian integer encoding of Go's
    `encoding/binary.LittleEndian` (`PutUint64` / `Uint64`). */
module Bytes {

  newtype byte = x: int | 0 <= x < 256

  /** 2^64: Go's `uint64` arithmetic is modulo this value. */
  const U64_MOD: nat := 0x1_0000_0000_0000_0000

  type u64 = x: nat | x < U64_MOD

  /** `x += 1` on a Go `uint64`: wraps from the largest value to zero. */
  function Inc64(x: u64): (r: u64)
    ensures x + 1 < U64_MOD ==> r == x + 1
    ensures x + 1 == U64_MOD ==> r == 0
  {
    (x + 1) % U64_MOD
  }

  function Pow256(k: nat): (r: nat)
    ensures r >= 1
  {
    if k == 0 then 1 else 256 * Pow256(k - 1)
  }

  /** The `k` low-order bytes of `n`, least significant first. */
  function LE(n: nat, k: nat): (s: seq<byte>)
    ensures |s| == k
  {
    if k == 0 then [] else [(n % 256) as byte] + LE(n / 256, k - 1)
  }

  /** The number whose little-endian bytes are `s`. */
  function FromLE(s: seq<byte>): nat
  {
    if s == [] then 0 else s[0] as nat + 256 * FromLE(s[1..])
  }

  lemma {:induction false} FromLEBound(s: seq<byte>)
    ensures FromLE(s) < Pow256(|s|)
  {
    if s != [] {
      FromLEBound(s[1..]);
    }
  }

  /** Decoding the `k`-byte encoding of any `n` below 256^k gives back `n`. */
  lemma {:induction false} LERoundTrip(n: nat, k: nat)
    requires n < Pow256(k)
    ensures FromLE(LE(n, k)) == n
  {
    if k > 0 {
      assert n / 256 < Pow256(k - 1);
      LERoundTrip(n / 256, k - 1);
      assert LE(n, k)[1..] == LE(n / 256, k - 1);
    }
  }

  /** Encoding a decoded byte string in as many bytes gives it back. */
  lemma {:induction false} LEOfFromLE(s: seq<byte>)
    ensures LE(FromLE(s), |s|) == s
  {
    if s != [] {
      var n := FromLE(s);
      assert n % 256 == s[0] as nat && n / 256 == FromLE(s[1..]);
      LEOfFromLE(s[1..]);
    }
  }

  lemma Pow256Of8()
    ensures Pow256(8) == U64_MOD
  {
  }

  /** `binary.LittleEndian.PutUint64` into a fresh 8-byte slice. */
  function LE64(n: u64): (s: seq<byte>)
    ensures |s| == 8
  {
    LE(n, 8)
  }

  /** `binary.LittleEndian.Uint64`: reads the first eight bytes of `s`. */
  function ReadLE64(s: seq<byte>): (n: u64)
    requires |s| >= 8
    ensures LE64(n) == s[..8]
  {
    FromLEBound(s[..8]);
    Pow256Of8();
    LEOfFromLE(s[..8]);
    FromLE(s[..8])
  }

  /** Reading back the eight bytes written for `n`, whatever follows them,
      recovers `n`. */
  lemma ReadLE64OfLE64(n: u64, rest: seq<byte>)
    ensures ReadLE64(LE64(n) + rest) == n
  {
    assert (LE64(n) + rest)[..8] == LE64(n);
    Pow256Of8();
    LERoundTrip(n, 8);
  }

  /** Distinct numbers have distinct encodings, and an encoding followed by
      any suffix still determines the number. */
  lemma LE64PrefixInjective(n1: u64, n2: u64, rest1: seq<byte>, rest2: seq<byte>)
    requires n1 != n2
    ensures LE64(n1) + rest1 != LE64(n2) + rest2
    ensures LE64(n1) != LE64(n2)
  {
    ReadLE64OfLE64(n1, rest1);
    ReadLE64OfLE64(n2, rest2);
    ReadLE64OfLE64(n1, []);
    ReadLE64OfLE64(n2, []);
    assert LE64(n1) + [] == LE64(n1);
    assert LE64(n2) + [] == LE64(n2);
  }
}
