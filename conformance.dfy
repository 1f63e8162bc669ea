/** The sequential checks of the conformance suite, run one after another
    against one shared reference store. */
module Conformance {
  import opened Wrappers
  import opened Bytes
  import opened DA
  import opened Crypto
  import opened Dummy

  /** One suite step: submitting a single blob to a store that has not
      wrapped its height. The new ID names the new height and the blob's
      digest, resolves to the blob, its proof validates it, and every ID
      that resolved before still resolves to the same blob. */
  method SubmitOne(d: DummyDA, msg: Blob) returns (ids: seq<ID>, proofs: seq<Proof>)
    requires d.Valid() && NoFutureHeights(d.data, d.height) && d.height + 1 < U64_MOD
    modifies d
    ensures d.Valid() && NoFutureHeights(d.data, d.height) && d.height == old(d.height) + 1
    ensures ids == [MakeID(d.height, d.crypto.sha256(msg))] && |proofs| == 1
    ensures d.crypto.verify(d.pubKey, ids[0][8..], proofs[0])
    ensures Resolve(d.data, ids[0]) == Ok(msg)
    ensures forall id :: Resolve(old(d.data), id).Ok? ==> Resolve(d.data, id) == Resolve(old(d.data), id)
  {
    ghost var before := d.data;
    ids, proofs := d.Submit([msg]);
    forall id | Resolve(before, id).Ok?
      ensures Resolve(d.data, id) == Resolve(before, id)
    {
      ResolveStable(before, d.height, Batch(ids, [msg]), id);
    }
  }

  /** The submissions of the basic round trip: the first blob, the second,
      then the first again. The three IDs differ, the first still resolves
      to the first blob after the later submissions, equal blobs give equal
      digest parts, and each proof validates its own ID. */
  method SubmitThree(d: DummyDA, msg1: Blob, msg2: Blob)
    returns (id1: seq<ID>, proof1: seq<Proof>, id2: seq<ID>, proof2: seq<Proof>, id3: seq<ID>, proof3: seq<Proof>)
    requires d.Valid() && NoFutureHeights(d.data, d.height) && d.height + 3 < U64_MOD
    modifies d
    ensures d.Valid() && NoFutureHeights(d.data, d.height) && d.height == old(d.height) + 3
    ensures |id1| == 1 && |id2| == 1 && |id3| == 1 && |proof1| == 1 && |proof2| == 1 && |proof3| == 1
    ensures |id1[0]| == 40 && |id2[0]| == 40 && |id3[0]| == 40
    ensures id1[0] != id2[0] && id1[0] != id3[0] && id2[0] != id3[0]
    ensures Resolve(d.data, id1[0]) == Ok(msg1)
    ensures id1[0][8..] == d.crypto.sha256(msg1) && id3[0][8..] == d.crypto.sha256(msg1)
    ensures d.crypto.verify(d.pubKey, id1[0][8..], proof1[0]) && d.crypto.verify(d.pubKey, id2[0][8..], proof2[0])
  {
    id1, proof1 := SubmitOne(d, msg1);
    ghost var h1 := d.height;
    id2, proof2 := SubmitOne(d, msg2);
    ghost var h2 := d.height;
    assert Resolve(d.data, id1[0]) == Ok(msg1);
    id3, proof3 := SubmitOne(d, msg1);
    ghost var h3 := d.height;
    IDsDifferAcrossHeights(h1, h2, d.crypto.sha256(msg1), d.crypto.sha256(msg2));
    IDsDifferAcrossHeights(h1, h3, d.crypto.sha256(msg1), d.crypto.sha256(msg1));
    IDsDifferAcrossHeights(h2, h3, d.crypto.sha256(msg2), d.crypto.sha256(msg1));
  }

  /** The reads of the basic round trip: fetching the first ID returns the
      first blob, committing to the first blob gives the digest its ID ends
      in, committing to the second blob gives one non-empty commitment, and
      the first two proofs validate their own IDs. */
  method CheckBasic(d: DummyDA, msg1: Blob, msg2: Blob, id1: seq<ID>, proof1: seq<Proof>, id2: seq<ID>, proof2: seq<Proof>)
    returns (got: Result<seq<Blob>, StoreError>, commits: seq<Commitment>, commits2: seq<Commitment>,
             oks1: Result<seq<bool>, StoreError>, oks2: Result<seq<bool>, StoreError>)
    requires |id1| == 1 && |id2| == 1 && |proof1| == 1 && |proof2| == 1
    requires |id1[0]| == 40 && |id2[0]| == 40
    requires Resolve(d.data, id1[0]) == Ok(msg1)
    requires id1[0][8..] == d.crypto.sha256(msg1)
    requires d.crypto.verify(d.pubKey, id1[0][8..], proof1[0]) && d.crypto.verify(d.pubKey, id2[0][8..], proof2[0])
    ensures got == Ok([msg1])
    ensures commits == [d.crypto.sha256(msg1)] && commits[0] == id1[0][8..]
    ensures |commits2| == 1 && commits2[0] == d.crypto.sha256(msg2) && |commits2[0]| == 32
    ensures oks1 == Ok([true]) && oks2 == Ok([true])
  {
    got := d.Get(id1);
    assert got.Ok? && |got.value| == 1;
    assert Resolve(d.data, id1[0]) == Ok(got.value[0]);
    assert got.value == [msg1];
    commits := d.Commit([msg1]);
    commits2 := d.Commit([msg2]);
    oks1 := d.Validate(id1, proof1);
    assert oks1.Ok? && |oks1.value| == 1 && oks1.value[0];
    assert oks1.value == [true];
    oks2 := d.Validate(id2, proof2);
    assert oks2.Ok? && |oks2.value| == 1 && oks2.value[0];
    assert oks2.value == [true];
  }

  /** The basic round trip: after the three submissions, all IDs differ,
      the first ID fetches the first blob, equal blobs commit equally, the
      second blob has a 32-byte commitment, every submission returns one
      proof, and the first two proofs validate their own IDs. */
  method BasicDATest(d: DummyDA, msg1: Blob, msg2: Blob)
    returns (id1: seq<ID>, id2: seq<ID>, id3: seq<ID>, proof3: seq<Proof>, got: Result<seq<Blob>, StoreError>,
             commits: seq<Commitment>, commits2: seq<Commitment>,
             oks1: Result<seq<bool>, StoreError>, oks2: Result<seq<bool>, StoreError>)
    requires d.Valid() && NoFutureHeights(d.data, d.height) && d.height + 3 < U64_MOD
    modifies d
    ensures d.Valid() && NoFutureHeights(d.data, d.height) && d.height == old(d.height) + 3
    ensures |id1| == 1 && |id2| == 1 && |id3| == 1 && |proof3| == 1
    ensures id1 != id2 && id1 != id3 && id2 != id3
    ensures got == Ok([msg1])
    ensures |id1[0]| == 40 && |id3[0]| == 40
    ensures commits == [d.crypto.sha256(msg1)] && commits[0] == id1[0][8..] && commits[0] == id3[0][8..]
    ensures |commits2| == 1 && commits2[0] == d.crypto.sha256(msg2) && |commits2[0]| == 32
    ensures oks1 == Ok([true]) && oks2 == Ok([true])
  {
    var proof1, proof2;
    id1, proof1, id2, proof2, id3, proof3 := SubmitThree(d, msg1, msg2);
    assert id1[0] != id2[0] && id1[0] != id3[0] && id2[0] != id3[0];
    got, commits, commits2, oks1, oks2 := CheckBasic(d, msg1, msg2, id1, proof1, id2, proof2);
  }

  /** A batch lands at the next height: the scan over heights finds it
      there, since that height lists exactly the batch's IDs and fetching
      them returns the batch. */
  method GetIDsTest(d: DummyDA, msgs: seq<Blob>)
    returns (ids: seq<ID>, proofs: seq<Proof>, listed: seq<ID>, blobs: Result<seq<Blob>, StoreError>)
    requires d.Valid() && NoFutureHeights(d.data, d.height) && d.height + 1 < U64_MOD
    requires DigestsDistinguish(d.crypto, msgs)
    modifies d
    ensures d.Valid() && NoFutureHeights(d.data, d.height) && d.height == old(d.height) + 1
    ensures |ids| == |msgs| && |proofs| == |msgs|
    ensures listed == ids
    ensures blobs == Ok(msgs)
  {
    ids, proofs := d.Submit(msgs);
    listed := d.GetIDs(d.height);
    blobs := d.Get(listed);
    assert blobs.value == msgs;
  }

  /** Fetching an ID shorter than the height prefix fails, with no blobs,
      whatever the store holds. */
  method CheckErrors(d: DummyDA) returns (r: Result<seq<Blob>, StoreError>)
    ensures r == Err(InvalidID)
  {
    var invalid: ID := [105, 110, 118, 97, 108, 105, 100];
    assert |invalid| < 8 && Resolve(d.data, invalid) == Err(InvalidID);
    r := d.Get([invalid]);
    assert [invalid][0] == invalid;
  }

  /** The suite as the repository runs it: one fresh store, then the basic
      test, the batch test and the error check, in that order, on that same
      store. */
  method RunDATestSuite(p: Primitives, pub: PublicKey, priv: PrivateKey, msg1: Blob, msg2: Blob, msgs: seq<Blob>)
    returns (got: Result<seq<Blob>, StoreError>, listed: seq<ID>, blobs: Result<seq<Blob>, StoreError>,
             err: Result<seq<Blob>, StoreError>, batchHeight: u64)
    requires KeyPair(p, pub, priv)
    requires DigestsDistinguish(p, msgs)
    ensures got == Ok([msg1])
    ensures batchHeight == 4 && blobs == Ok(msgs)
    ensures err == Err(InvalidID)
  {
    var d := new DummyDA(p, pub, priv);
    var id1, id2, id3, proof3, commits, commits2, oks1, oks2;
    id1, id2, id3, proof3, got, commits, commits2, oks1, oks2 := BasicDATest(d, msg1, msg2);
    var ids, proofs;
    ids, proofs, listed, blobs := GetIDsTest(d, msgs);
    batchHeight := d.height;
    err := CheckErrors(d);
  }
}
