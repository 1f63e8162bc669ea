/** The older single-blob in-memory DA: blobs keyed by an 8-byte counter,
    with no digest suffix. */
module LegacyDummy {
  import opened Wrappers
  import opened Bytes
  import opened DA
  import opened Crypto

  /** The ID handed out by the `n`-th call of `nextID` (counting from 0):
      the counter after `n + 1` wrapping increments, little-endian. */
  function IssuedID(n: nat): ID
  {
    LE64((n + 1) % U64_MOD)
  }

  /** IDs issued by different calls differ, as long as fewer than 2^64
      have been issued. */
  lemma IssuedIDsDistinct(n1: nat, n2: nat)
    requires n1 != n2 && n1 < U64_MOD && n2 < U64_MOD
    ensures IssuedID(n1) != IssuedID(n2)
  {
    LE64PrefixInjective((n1 + 1) % U64_MOD, (n2 + 1) % U64_MOD, [], []);
  }

  /** After `n` issued IDs the counter holds `n` modulo 2^64; the next
      increment gives the counter for `n + 1` and the `n`-th issued ID. */
  lemma CounterStep(n: nat)
    ensures Inc64(n % U64_MOD) == (n + 1) % U64_MOD
    ensures IssuedID(n) == LE64(Inc64(n % U64_MOD))
  {
    if n % U64_MOD + 1 == U64_MOD {
      assert (n + 1) % U64_MOD == 0;
    } else {
      assert (n + 1) % U64_MOD == n % U64_MOD + 1;
    }
  }

  /** The `k`-th submission (counting from 1, below 2^64) gets the
      little-endian encoding of `k` itself. */
  lemma IssuedIDIsCount(k: nat)
    requires 1 <= k < U64_MOD
    ensures IssuedID(k - 1) == LE64(k)
    ensures ReadLE64(IssuedID(k - 1)) == k
  {
    assert (k - 1 + 1) % U64_MOD == k;
    ReadLE64OfLE64(k, []);
    assert LE64(k) + [] == LE64(k);
  }

  class DummyDA {
    var data: map<ID, Blob>
    var cnt: u64
    const crypto: Primitives
    const pubKey: PublicKey
    const privKey: PrivateKey
    /** Every ID handed out so far, in order. */
    ghost var issued: seq<ID>

    /** A matching key pair; the counter is the number of IDs issued
        (modulo 2^64); the n-th issued ID is `IssuedID(n)`; exactly the
        issued IDs are keys of the table. */
    ghost predicate Valid()
      reads this
    {
      && KeyPair(crypto, pubKey, privKey)
      && cnt == |issued| % U64_MOD
      && (forall n :: 0 <= n < |issued| ==> issued[n] == IssuedID(n))
      && (forall id :: id in data <==> id in issued)
    }

    constructor (p: Primitives, pub: PublicKey, priv: PrivateKey)
      requires KeyPair(p, pub, priv)
      ensures Valid()
      ensures data == map[] && cnt == 0 && issued == []
      ensures crypto == p && pubKey == pub && privKey == priv
    {
      data := map[];
      cnt := 0;
      crypto, pubKey, privKey := p, pub, priv;
      issued := [];
    }

    /** The blob stored under `id`, or "no blob for given ID"; in a valid
        store this succeeds exactly for the IDs issued so far. */
    function Get(id: ID): (r: Result<Blob, string>)
      reads this
      ensures r.Ok? <==> id in data
      ensures r.Ok? ==> r.value == data[id]
      ensures r.Err? ==> r.error == "no blob for given ID"
      ensures Valid() ==> (r.Ok? <==> id in issued)
    {
      if id in data then Ok(data[id]) else Err("no blob for given ID")
    }

    /** `Commit` and `getHash`: the blob's digest; no `reads` clause, so it
        cannot depend on the table or the counter. */
    function Commit(blob: Blob): (c: Commitment)
      ensures |c| == 32
    {
      crypto.sha256(blob)
    }

    /** `getProof`: a signature over the blob's digest; the ID is ignored.
        For the store's key pair it validates against the blob's
        commitment. */
    function GetProof(id: ID, blob: Blob): (proof: Proof)
      ensures KeyPair(crypto, pubKey, privKey) ==> Validate(Commit(blob), proof)
    {
      crypto.sign(privKey, crypto.sha256(blob))
    }

    /** Checks a proof against a commitment; never fails, and accepts every
        signature made with the store's key. */
    function Validate(commit: Commitment, proof: Proof): (ok: bool)
      ensures KeyPair(crypto, pubKey, privKey) && proof == crypto.sign(privKey, commit) ==> ok
    {
      crypto.verify(pubKey, commit, proof)
    }

    /** The proof made for a blob validates against the blob's commitment,
        whatever ID it was made for. */
    lemma ProofValidatesCommit(id: ID, blob: Blob)
      requires KeyPair(crypto, pubKey, privKey)
      ensures Validate(Commit(blob), GetProof(id, blob))
      ensures forall id' :: GetProof(id', blob) == GetProof(id, blob)
    {
    }

    /** Advances the counter by one (wrapping) and returns its new value as
        8 little-endian bytes. */
    method NextID() returns (id: ID)
      modifies this`cnt
      ensures cnt == Inc64(old(cnt))
      ensures id == LE64(cnt) && |id| == 8
    {
      cnt := Inc64(cnt);
      id := LE64(cnt);
    }

    /** Stores the blob under a fresh ID and returns the ID and a proof over
        the blob's digest; never fails. Only the new key changes. */
    method Submit(blob: Blob) returns (id: ID, proof: Proof)
      requires Valid()
      modifies this
      ensures Valid()
      ensures cnt == Inc64(old(cnt)) && id == LE64(cnt)
      ensures id == IssuedID(|old(issued)|) && issued == old(issued) + [id]
      ensures proof == GetProof(id, blob)
      ensures data == old(data)[id := blob]
      ensures Get(id) == Ok(blob)
      ensures Validate(Commit(blob), proof)
      ensures |old(issued)| < U64_MOD ==> id !in old(issued)
    {
      ghost var n := |issued|;
      CounterStep(n);
      id := NextID();
      proof := GetProof(id, blob);
      data := data[id := blob];
      issued := issued + [id];
      ProofValidatesCommit(id, blob);
      if n < U64_MOD {
        forall k | 0 <= k < n
          ensures old(issued)[k] != id
        {
          IssuedIDsDistinct(k, n);
        }
      }
    }
  }
}
