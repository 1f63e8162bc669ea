/** The in-memory reference DA store: a height counter and a table from
    height to the ordered (ID, blob) pairs submitted at that height.
    Every call is one atomic step (the store's mutex only serialises calls). */
module Dummy {
  import opened Wrappers
  import opened Bytes
  import opened DA
  import opened Crypto

  /** One stored pair (`kvp`). */
  datatype Entry = Entry(key: ID, value: Blob)

  /** `map[uint64][]kvp`. */
  type Table = map<u64, seq<Entry>>

  /** The three plain errors the store returns. */
  datatype StoreError = InvalidID | NoBlob | LengthMismatch

  /** The text `errors.New` is given for each error. */
  function ErrorText(e: StoreError): (s: string)
    ensures |s| > 0
    ensures e == InvalidID ==> s == "invalid ID"
    ensures e == NoBlob ==> s == "no blob for given ID"
    ensures e == LengthMismatch ==> s == "number of IDs doesn't equal to number of proofs"
  {
    match e
    case InvalidID => "invalid ID"
    case NoBlob => "no blob for given ID"
    case LengthMismatch => "number of IDs doesn't equal to number of proofs"
  }

  /** Callers can tell a malformed ID from a missing blob from a length
      mismatch by the error text alone. */
  lemma ErrorTextsDistinct(e1: StoreError, e2: StoreError)
    requires e1 != e2
    ensures ErrorText(e1) != ErrorText(e2)
  {
    assert |ErrorText(e1)| != |ErrorText(e2)|;
  }

  /** `d.data[h]`: a height nothing was stored at reads as the empty list. */
  function EntriesAt(data: Table, h: u64): seq<Entry>
  {
    if h in data then data[h] else []
  }

  /** The keys of a list of entries, in order. */
  function Keys(es: seq<Entry>): (ks: seq<ID>)
    ensures |ks| == |es|
  {
    seq(|es|, i requires 0 <= i < |es| => es[i].key)
  }

  /** The IDs `GetIDs(h)` reports. */
  function IDsAt(data: Table, h: u64): seq<ID>
  {
    Keys(EntriesAt(data, h))
  }

  /** The ID of a blob with digest `d` stored at height `h`: the 8-byte
      little-endian height followed by the 32-byte digest. */
  function MakeID(h: u64, d: Digest): (id: ID)
    ensures |id| == 40 && id[..8] == LE64(h) && id[8..] == d
  {
    LE64(h) + d
  }

  /** The height `Get` reads back from an ID's prefix is the height the ID
      was made for. */
  lemma MakeIDHeight(h: u64, d: Digest)
    ensures ReadLE64(MakeID(h, d)) == h
  {
    ReadLE64OfLE64(h, d);
  }

  /** IDs made at two different heights differ, whatever the blobs. */
  lemma IDsDifferAcrossHeights(h1: u64, h2: u64, d1: Digest, d2: Digest)
    requires h1 != h2
    ensures MakeID(h1, d1) != MakeID(h2, d2)
  {
    MakeIDHeight(h1, d1);
    MakeIDHeight(h2, d2);
  }

  /** The IDs a batch submitted at height `h` receives, in input order. */
  function BatchIDs(p: Primitives, h: u64, blobs: seq<Blob>): (ids: seq<ID>)
    ensures |ids| == |blobs|
  {
    seq(|blobs|, i requires 0 <= i < |blobs| => MakeID(h, p.sha256(blobs[i])))
  }

  /** The entries a batch appends: the i-th ID paired with the i-th blob. */
  function Batch(ids: seq<ID>, blobs: seq<Blob>): (es: seq<Entry>)
    requires |ids| == |blobs|
    ensures |es| == |ids|
  {
    seq(|ids|, i requires 0 <= i < |ids| => Entry(ids[i], blobs[i]))
  }

  /** The table after appending `es` under height `h`; an empty batch
      writes nothing. */
  function Appended(data: Table, h: u64, es: seq<Entry>): (r: Table)
    ensures EntriesAt(r, h) == EntriesAt(data, h) + es
    ensures forall h' :: h' != h ==> EntriesAt(r, h') == EntriesAt(data, h')
    ensures r.Keys == if es == [] then data.Keys else data.Keys + {h}
  {
    if es == [] then data else data[h := EntriesAt(data, h) + es]
  }

  /** Appending one entry more is one more step of the same append. */
  lemma AppendedSnoc(data: Table, h: u64, es: seq<Entry>, e: Entry)
    ensures Appended(data, h, es)[h := EntriesAt(Appended(data, h, es), h) + [e]] == Appended(data, h, es + [e])
  {
    assert EntriesAt(data, h) + es + [e] == EntriesAt(data, h) + (es + [e]);
  }

  /** The value of the first entry whose key is `id` (the inner search loop
      of `Get`). */
  function FirstMatch(es: seq<Entry>, id: ID): (r: Option<Blob>)
    ensures r.Some? ==> exists j :: 0 <= j < |es| && es[j] == Entry(id, r.value)
  {
    if es == [] then None
    else if es[0].key == id then Some(es[0].value)
    else FirstMatch(es[1..], id)
  }

  /** The search finds something exactly when some entry has the key, and
      what it finds is the value of the first such entry. */
  lemma {:induction false} FirstMatchSpec(es: seq<Entry>, id: ID)
    ensures FirstMatch(es, id).Some? <==> exists j :: 0 <= j < |es| && es[j].key == id
    ensures FirstMatch(es, id).Some? ==>
      exists j :: 0 <= j < |es| && es[j] == Entry(id, FirstMatch(es, id).value) &&
        forall k :: 0 <= k < j ==> es[k].key != id
  {
    if es != [] && es[0].key != id {
      FirstMatchSpec(es[1..], id);
      if FirstMatch(es, id).Some? {
        var j :| 0 <= j < |es[1..]| && es[1..][j] == Entry(id, FirstMatch(es, id).value) &&
          forall k :: 0 <= k < j ==> es[1..][k].key != id;
        assert es[j + 1] == Entry(id, FirstMatch(es, id).value);
      }
      if exists j :: 0 <= j < |es| && es[j].key == id {
        var j :| 0 <= j < |es| && es[j].key == id;
        assert es[1..][j - 1].key == id;
      }
    }
  }

  /** Appending after a list does not change what the search already finds. */
  lemma {:induction false} FirstMatchExtend(es: seq<Entry>, more: seq<Entry>, id: ID)
    requires FirstMatch(es, id).Some?
    ensures FirstMatch(es + more, id) == FirstMatch(es, id)
  {
    if es[0].key != id {
      assert (es + more)[1..] == es[1..] + more;
      FirstMatchExtend(es[1..], more, id);
    }
  }

  /** What `Get` yields for one ID: "invalid ID" when it is shorter than the
      8-byte height prefix, otherwise the first blob stored under exactly
      that ID at the height the prefix names, or "no blob for given ID". */
  function Resolve(data: Table, id: ID): (r: Result<Blob, StoreError>)
    ensures r == Err(InvalidID) <==> |id| < 8
    ensures r.Err? ==> r.error != LengthMismatch
  {
    if |id| < 8 then Err(InvalidID)
    else match FirstMatch(EntriesAt(data, ReadLE64(id)), id)
      case Some(b) => Ok(b)
      case None => Err(NoBlob)
  }

  /** `Get` succeeds on an ID exactly when the ID is well formed and stored
      at the height its prefix names, and then returns a blob stored under
      that very ID. */
  lemma ResolveSpec(data: Table, id: ID)
    ensures |id| < 8 ==> Resolve(data, id) == Err(InvalidID)
    ensures Resolve(data, id).Ok? <==>
      (|id| >= 8 && exists j :: 0 <= j < |EntriesAt(data, ReadLE64(id))| && EntriesAt(data, ReadLE64(id))[j].key == id)
    ensures Resolve(data, id).Ok? ==>
      exists j :: 0 <= j < |EntriesAt(data, ReadLE64(id))| &&
        EntriesAt(data, ReadLE64(id))[j] == Entry(id, Resolve(data, id).value)
    ensures Resolve(data, id).Err? ==> Resolve(data, id).error in {InvalidID, NoBlob}
  {
    if |id| >= 8 {
      FirstMatchSpec(EntriesAt(data, ReadLE64(id)), id);
    }
  }

  /** Append-only: a blob that resolves keeps resolving to the same blob
      after any later append. */
  lemma ResolveStable(data: Table, h: u64, es: seq<Entry>, id: ID)
    requires Resolve(data, id).Ok?
    ensures Resolve(Appended(data, h, es), id) == Resolve(data, id)
  {
    if ReadLE64(id) == h {
      FirstMatchExtend(EntriesAt(data, h), es, id);
    }
  }

  /** Every stored entry sits at the height its key names and its key ends
      in the digest of its value. */
  ghost predicate WellFormed(p: Primitives, data: Table)
  {
    forall h, j :: h in data && 0 <= j < |data[h]| ==>
      data[h][j].key == MakeID(h, p.sha256(data[h][j].value))
  }

  /** No height beyond the counter holds data. */
  ghost predicate NoFutureHeights(data: Table, height: u64)
  {
    forall h :: h in data ==> 1 <= h <= height
  }

  /** Two blobs of the batch with equal digests are equal. */
  ghost predicate DigestsDistinguish(p: Primitives, blobs: seq<Blob>)
  {
    forall i, j :: 0 <= i < |blobs| && 0 <= j < |blobs| && p.sha256(blobs[i]) == p.sha256(blobs[j]) ==>
      blobs[i] == blobs[j]
  }

  /** None of `ids` is the key of an entry already in the table. */
  ghost predicate FreshIDs(data: Table, ids: seq<ID>)
  {
    forall h, j, i :: h in data && 0 <= j < |data[h]| && 0 <= i < |ids| ==> data[h][j].key != ids[i]
  }

  /** A batch appended under its own IDs keeps the table well formed. */
  lemma AppendedWellFormed(p: Primitives, data: Table, h: u64, blobs: seq<Blob>)
    requires WellFormed(p, data)
    ensures WellFormed(p, Appended(data, h, Batch(BatchIDs(p, h, blobs), blobs)))
  {
    var es := Batch(BatchIDs(p, h, blobs), blobs);
    var r: Table := Appended(data, h, es);
    forall h': u64, j: int | h' in r && 0 <= j < |r[h']|
      ensures r[h'][j].key == MakeID(h', p.sha256(r[h'][j].value))
    {
      if h' == h && h in data && j >= |data[h]| {
        assert r[h'][j] == es[j - |data[h]|];
      } else if h' == h && h !in data {
        assert r[h'][j] == es[j];
      }
    }
  }

  /** Every ID `GetIDs` lists can be fetched with `Get`, and what comes back
      has the digest the ID ends in. */
  lemma ListedIDsResolve(p: Primitives, data: Table, h: u64, i: nat)
    requires WellFormed(p, data)
    requires i < |IDsAt(data, h)|
    ensures Resolve(data, IDsAt(data, h)[i]).Ok?
    ensures p.sha256(Resolve(data, IDsAt(data, h)[i]).value) == IDsAt(data, h)[i][8..]
  {
    var id := IDsAt(data, h)[i];
    assert h in data;
    assert id == MakeID(h, p.sha256(data[h][i].value));
    MakeIDHeight(h, p.sha256(data[h][i].value));
    FirstMatchSpec(data[h], id);
    var j :| 0 <= j < |data[h]| && data[h][j] == Entry(id, Resolve(data, id).value);
    assert id == MakeID(h, p.sha256(data[h][j].value));
  }

  /** Round trip: after a batch is appended under a height that held
      nothing, that height lists exactly the batch's IDs and each ID
      resolves to its own blob. */
  lemma SubmitRoundTrip(p: Primitives, data: Table, h: u64, blobs: seq<Blob>)
    requires h !in data
    requires DigestsDistinguish(p, blobs)
    ensures IDsAt(Appended(data, h, Batch(BatchIDs(p, h, blobs), blobs)), h) == BatchIDs(p, h, blobs)
    ensures forall i :: 0 <= i < |blobs| ==>
      Resolve(Appended(data, h, Batch(BatchIDs(p, h, blobs), blobs)), BatchIDs(p, h, blobs)[i]) == Ok(blobs[i])
  {
    var ids := BatchIDs(p, h, blobs);
    var es := Batch(ids, blobs);
    var r := Appended(data, h, es);
    assert EntriesAt(r, h) == es;
    forall i | 0 <= i < |blobs|
      ensures Resolve(r, ids[i]) == Ok(blobs[i])
    {
      MakeIDHeight(h, p.sha256(blobs[i]));
      assert ReadLE64(ids[i]) == h;
      BatchMatch(p, h, blobs, i);
    }
  }

  /** Within one batch whose digests tell its blobs apart, the search for
      the `i`-th ID finds the `i`-th blob. */
  lemma BatchMatch(p: Primitives, h: u64, blobs: seq<Blob>, i: int)
    requires DigestsDistinguish(p, blobs) && 0 <= i < |blobs|
    ensures FirstMatch(Batch(BatchIDs(p, h, blobs), blobs), BatchIDs(p, h, blobs)[i]) == Some(blobs[i])
  {
    var ids := BatchIDs(p, h, blobs);
    var es := Batch(ids, blobs);
    FirstMatchSpec(es, ids[i]);
    assert es[i].key == ids[i];
    var j :| 0 <= j < |es| && es[j] == Entry(ids[i], FirstMatch(es, ids[i]).value);
    assert p.sha256(blobs[j]) == ids[j][8..] == ids[i][8..] == p.sha256(blobs[i]);
  }

  /** What one `Submit` of `blobs` at counter `h0` does to a table `d0`: it
      stays well formed; if no height beyond `h0` held data and the counter
      does not wrap, the new height lists exactly the batch's IDs; and if
      in addition the batch's digests tell its blobs apart, every new ID
      fetches its own blob. */
  lemma SubmitEffect(p: Primitives, d0: Table, h0: u64, blobs: seq<Blob>)
    requires WellFormed(p, d0)
    ensures WellFormed(p, Appended(d0, Inc64(h0), Batch(BatchIDs(p, Inc64(h0), blobs), blobs)))
    ensures NoFutureHeights(d0, h0) && h0 + 1 < U64_MOD ==>
      var d1 := Appended(d0, Inc64(h0), Batch(BatchIDs(p, Inc64(h0), blobs), blobs));
      NoFutureHeights(d1, Inc64(h0)) && IDsAt(d1, Inc64(h0)) == BatchIDs(p, Inc64(h0), blobs)
    ensures NoFutureHeights(d0, h0) && h0 + 1 < U64_MOD && DigestsDistinguish(p, blobs) ==>
      var d1 := Appended(d0, Inc64(h0), Batch(BatchIDs(p, Inc64(h0), blobs), blobs));
      forall i :: 0 <= i < |blobs| ==> Resolve(d1, BatchIDs(p, Inc64(h0), blobs)[i]) == Ok(blobs[i])
    ensures NoFutureHeights(d0, h0) && h0 + 1 < U64_MOD ==>
      FreshIDs(d0, BatchIDs(p, Inc64(h0), blobs))
  {
    var h := Inc64(h0);
    var ids := BatchIDs(p, h, blobs);
    var d1 := Appended(d0, h, Batch(ids, blobs));
    AppendedWellFormed(p, d0, h, blobs);
    if NoFutureHeights(d0, h0) && h0 + 1 < U64_MOD {
      assert h !in d0;
      assert EntriesAt(d1, h) == Batch(ids, blobs);
      if DigestsDistinguish(p, blobs) {
        SubmitRoundTrip(p, d0, h, blobs);
      }
      forall h': u64, j: int, i: int | h' in d0 && 0 <= j < |d0[h']| && 0 <= i < |ids|
        ensures d0[h'][j].key != ids[i]
      {
        IDsDifferAcrossHeights(h', h, p.sha256(d0[h'][j].value), p.sha256(blobs[i]));
      }
    }
  }

  /** The reference store. */
  class DummyDA {
    var data: Table
    var height: u64
    const crypto: Primitives
    const pubKey: PublicKey
    const privKey: PrivateKey

    /** The store's invariant: a matching key pair, and every entry filed
        under the height and digest its key names. */
    ghost predicate Valid()
      reads this
    {
      KeyPair(crypto, pubKey, privKey) && WellFormed(crypto, data)
    }

    /** `NewDummyDA`: empty table, height 0; the key pair stands for the one
        `ed25519.GenerateKey` draws. */
    constructor (p: Primitives, pub: PublicKey, priv: PrivateKey)
      requires KeyPair(p, pub, priv)
      ensures Valid() && NoFutureHeights(data, height)
      ensures data == map[] && height == 0
      ensures crypto == p && pubKey == pub && privKey == priv
    {
      data := map[];
      height := 0;
      crypto, pubKey, privKey := p, pub, priv;
    }

    /** The maximum blob size in bytes. */
    function Config(): (size: nat)
      ensures size == 1974272
    {
      64 * 64 * 482
    }

    /** `getProof`: a signature over the blob's digest; the ID is ignored. */
    function GetProof(id: ID, blob: Blob): (proof: Proof)
      ensures KeyPair(crypto, pubKey, privKey) ==>
        crypto.verify(pubKey, crypto.sha256(blob), proof)
    {
      crypto.sign(privKey, crypto.sha256(blob))
    }

    /** Returns the blobs for the given IDs, position by position, or the
        error of the first ID that does not resolve; never a partial list. */
    method Get(ids: seq<ID>) returns (r: Result<seq<Blob>, StoreError>)
      ensures r.Ok? <==> forall i :: 0 <= i < |ids| ==> Resolve(data, ids[i]).Ok?
      ensures r.Ok? ==> (|r.value| == |ids| &&
        forall i :: 0 <= i < |ids| ==> Resolve(data, ids[i]) == Ok(r.value[i]))
      ensures r.Err? ==>
        exists i :: 0 <= i < |ids| && Resolve(data, ids[i]) == Err(r.error) &&
          forall k :: 0 <= k < i ==> Resolve(data, ids[k]).Ok?
    {
      var blobs := new Blob[|ids|];
      var i := 0;
      while i < |ids|
        invariant 0 <= i <= |ids|
        invariant forall k :: 0 <= k < i ==> Resolve(data, ids[k]) == Ok(blobs[k])
      {
        var id := ids[i];
        if |id| < 8 {
          return Err(InvalidID);
        }
        var es := EntriesAt(data, ReadLE64(id));
        var found := false;
        var j := 0;
        while !found && j < |es|
          invariant 0 <= j <= |es|
          invariant found ==> FirstMatch(es, id) == Some(blobs[i])
          invariant !found ==> FirstMatch(es, id) == FirstMatch(es[j..], id)
          invariant forall k :: 0 <= k < i ==> Resolve(data, ids[k]) == Ok(blobs[k])
        {
          if es[j].key == id {
            blobs[i] := es[j].value;
            found := true;
          } else {
            assert es[j..][1..] == es[j + 1..];
          }
          j := j + 1;
        }
        if !found {
          return Err(NoBlob);
        }
        i := i + 1;
      }
      return Ok(blobs[..]);
    }

    /** The IDs stored at height `h`, in submission order; empty for a
        height nothing was stored at. */
    method GetIDs(h: u64) returns (ids: seq<ID>)
      ensures ids == IDsAt(data, h)
    {
      var kvps := EntriesAt(data, h);
      var out := new ID[|kvps|];
      var i := 0;
      while i < |kvps|
        invariant 0 <= i <= |kvps|
        invariant forall k :: 0 <= k < i ==> out[k] == kvps[k].key
      {
        out[i] := kvps[i].key;
        i := i + 1;
      }
      ids := out[..];
    }

    /** One 32-byte commitment per blob, its digest; the table and the
        height play no part. */
    method Commit(blobs: seq<Blob>) returns (commits: seq<Commitment>)
      ensures |commits| == |blobs|
      ensures forall i :: 0 <= i < |blobs| ==> commits[i] == crypto.sha256(blobs[i]) && |commits[i]| == 32
    {
      var out := new Commitment[|blobs|];
      var i := 0;
      while i < |blobs|
        invariant 0 <= i <= |blobs|
        invariant forall k :: 0 <= k < i ==> out[k] == crypto.sha256(blobs[k])
      {
        out[i] := crypto.sha256(blobs[i]);
        i := i + 1;
      }
      commits := out[..];
    }

    /** Stores a batch under one new height: the height rises by exactly one
        (even for an empty batch), each blob gets the ID of its digest at
        that height and a signature over its digest, and the entries are
        appended there in input order. */
    method Submit(blobs: seq<Blob>) returns (ids: seq<ID>, proofs: seq<Proof>)
      requires Valid()
      modifies this
      ensures Valid()
      ensures height == Inc64(old(height))
      ensures |ids| == |blobs| && |proofs| == |blobs|
      ensures ids == BatchIDs(crypto, height, blobs)
      ensures forall i :: 0 <= i < |blobs| ==> ids[i] == MakeID(height, crypto.sha256(blobs[i]))
      ensures forall i :: 0 <= i < |blobs| ==> proofs[i] == crypto.sign(privKey, crypto.sha256(blobs[i]))
      ensures forall i :: 0 <= i < |blobs| ==> crypto.verify(pubKey, ids[i][8..], proofs[i])
      ensures data == Appended(old(data), height, Batch(ids, blobs))
      ensures old(NoFutureHeights(data, height)) && old(height) + 1 < U64_MOD ==>
        NoFutureHeights(data, height) && IDsAt(data, height) == ids
      ensures old(NoFutureHeights(data, height)) && old(height) + 1 < U64_MOD ==> FreshIDs(old(data), ids)
      ensures old(NoFutureHeights(data, height)) && old(height) + 1 < U64_MOD && DigestsDistinguish(crypto, blobs) ==>
        forall i :: 0 <= i < |blobs| ==> Resolve(data, ids[i]) == Ok(blobs[i])
    {
      height := Inc64(height);
      var h := height;
      ghost var es: seq<Entry> := [];
      ids, proofs := [], [];
      var i := 0;
      while i < |blobs|
        invariant 0 <= i <= |blobs| && |es| == i && |ids| == i && |proofs| == i
        invariant height == h
        invariant ids == BatchIDs(crypto, h, blobs[..i])
        invariant forall k :: 0 <= k < i ==> es[k] == Entry(ids[k], blobs[k])
        invariant forall k :: 0 <= k < i ==> proofs[k] == GetProof(ids[k], blobs[k])
        invariant data == Appended(old(data), h, es)
      {
        var id := MakeID(h, crypto.sha256(blobs[i]));
        var e := Entry(id, blobs[i]);
        assert blobs[..i + 1] == blobs[..i] + [blobs[i]];
        ids := ids + [id];
        proofs := proofs + [GetProof(id, blobs[i])];
        AppendedSnoc(old(data), h, es, e);
        data := data[h := EntriesAt(data, h) + [e]];
        es := es + [e];
        i := i + 1;
      }
      assert blobs[..i] == blobs;
      assert es == Batch(ids, blobs);
      SubmitEffect(crypto, old(data), old(height), blobs);
    }

    /** One verdict per (ID, proof) pair, each checking the proof against
        the digest part of the ID; an error exactly when the counts differ.
        Neither the table nor the height is read. */
    method Validate(ids: seq<ID>, proofs: seq<Proof>) returns (r: Result<seq<bool>, StoreError>)
      requires |ids| == |proofs| ==> forall i :: 0 <= i < |ids| ==> |ids[i]| >= 8
      ensures r.Err? <==> |ids| != |proofs|
      ensures r.Err? ==> r.error == LengthMismatch
      ensures r.Ok? ==> (|r.value| == |ids| &&
        forall i :: 0 <= i < |ids| ==> r.value[i] == crypto.verify(pubKey, ids[i][8..], proofs[i]))
    {
      if |ids| != |proofs| {
        return Err(LengthMismatch);
      }
      var results := new bool[|ids|];
      var i := 0;
      while i < |ids|
        invariant 0 <= i <= |ids|
        invariant forall k :: 0 <= k < i ==> results[k] == crypto.verify(pubKey, ids[k][8..], proofs[k])
      {
        results[i] := crypto.verify(pubKey, ids[i][8..], proofs[i]);
        i := i + 1;
      }
      return Ok(results[..]);
    }
  }
}
