# go-da: the reference DA store and the DA error model

This project models the core of `go-da`, the generic data-availability
(DA) interface of Rollkit, and proves properties of that model:

- **The in-memory reference store** (`test/dummy.go`). A height counter and
  a table from height to the ordered (ID, blob) pairs submitted at that
  height. Every `Submit` opens a new height. Each blob gets the ID
  "8-byte little-endian height ++ SHA-256 digest of the blob" and a proof
  that is an Ed25519 signature over the digest. `Get` decodes the height
  from an ID and searches that height's entries for the ID. `GetIDs` lists
  the IDs of one height. `Commit` returns digests. `Validate` checks
  signatures against the digest part of IDs. The module is `Dummy` and the
  store is the class `Dummy.DummyDA`. Its methods update `data` and
  `height` in place.
- **The older single-blob store** (`dummy_test.go`). A map from an 8-byte
  counter to a blob. The module is `LegacyDummy`.
- **The DA error kinds** (`errors.go`). Eight kinds, each with its JSON-RPC
  code, its message, its gRPC status code and its DA detail code. Each one
  builds its gRPC status through `getGRPCStatus`. The module is `DAErrors`,
  and the gRPC status record lives in `Grpc`.
- **The client-side error mapping of the gRPC proxy**
  (`proxy/grpc/errors.go`). `tryToMapError` and `errorForCode`. The module
  is `GrpcErrors`.
- **The reason-tagged wrapper error** (`error.go`). `Reason`, its `String`,
  the wrapper's `Error`, `Unwrap` and `Is`, the constructors and the two
  sentinels. The module is `ReasonError`.
- **The sequential checks of the conformance suite** (`test/test_suite.go`).
  They are written as client methods of one shared store, which, as in
  the suite, the three checks use one after another. The module is
  `Conformance`.

SHA-256 and Ed25519 are uninterpreted (module `Crypto`). The model relies
on exactly three facts about them:

- A digest is 32 bytes.
- The primitives are functions, so they are deterministic.
- For the key pair the store holds, every signature made with the private
  key verifies under the public key (`KeyPair`).

Go's `uint64` is the subset type `Bytes.u64`, and the height increment
wraps explicitly (`Bytes.Inc64`). `encoding/binary`'s little-endian
encoding is `Bytes.LE64` and `Bytes.ReadLE64`. Go's error returns are
`Result` and `Option` values.

The digest part of an ID is its bytes from index 8 onwards. `Validate`
verifies against exactly those bytes, and, for the IDs `Submit` makes,
they are the digest the proof signed.

## Model

| member | source | states |
|---|---|---|
| Bytes.Inc64 | test/dummy.go:99 | `height += 1` on a `uint64`: one more, except that the largest value wraps to 0 |
| Bytes.LE64 | test/dummy.go:126-130 | `PutUint64` into a fresh 8-byte slice: exactly 8 bytes |
| Bytes.LEOfFromLE | test/dummy.go:57 | writing back the number read from a byte string, at the same width, gives the same bytes |
| Bytes.ReadLE64 | test/dummy.go:57 | `Uint64` of an ID reads its first 8 bytes, and the number read writes back to exactly those bytes |
| Bytes.ReadLE64OfLE64 | test/dummy.go:126-130 | reading the first 8 bytes little-endian of the ID prefix written for `n`, whatever follows, gives back `n` (the decode `Get` does at line 57) |
| Bytes.LE64PrefixInjective | test/dummy.go:126-130 | different counters give different 8-byte prefixes, and different IDs whatever suffix follows |
| Dummy.ErrorTextsDistinct | test/dummy.go:53-113 | the three error texts ("invalid ID", "no blob for given ID", the length-mismatch text) are pairwise different |
| Dummy.MakeID | test/dummy.go:101 | an ID is 40 bytes: the 8-byte little-endian height, then the 32-byte digest |
| Dummy.MakeIDHeight | test/dummy.go:57 | the height `Get` decodes from an ID made at height `h` is `h` |
| Dummy.IDsDifferAcrossHeights | test/dummy.go:99-101 | IDs made at two different heights differ, whatever the blobs |
| Dummy.Appended | test/dummy.go:104 | appending a batch at `h` extends the entries at `h` by the batch and leaves every other height unchanged; an empty batch adds no key |
| Dummy.AppendedSnoc | test/dummy.go:100-105 | one loop iteration's append at the current height is the batch append grown by one entry |
| Dummy.FirstMatch | test/dummy.go:58-64 | whatever the inner search returns is the value of an entry whose key is the ID |
| Dummy.FirstMatchSpec | test/dummy.go:58-64 | the inner search finds a blob iff some entry at that height has the ID, and then returns the value of the first such entry |
| Dummy.FirstMatchExtend | test/dummy.go:104 | appending entries after a found key does not change what the search finds |
| Dummy.Resolve | test/dummy.go:53-67 | one ID's lookup fails with "invalid ID" exactly when the ID is shorter than 8 bytes, and never with the length-mismatch error |
| Dummy.ResolveSpec | test/dummy.go:53-67 | per ID, `Get` fails with "invalid ID" for IDs shorter than 8 bytes; it succeeds iff the height the prefix names holds an entry with that exact ID, and returns that entry's blob; the only errors are the two named |
| Dummy.ResolveStable | test/dummy.go:104 | the table is append-only: an ID that resolves keeps resolving to the same blob after any later append |
| Dummy.AppendedWellFormed | test/dummy.go:100-105 | the store invariant, that every entry is filed under the height and digest its key names, survives appending a batch under its own IDs |
| Dummy.ListedIDsResolve | test/dummy.go:73-82 | in a well-formed table every ID `GetIDs` lists can be fetched, and the fetched blob's digest is the ID's suffix |
| Dummy.SubmitRoundTrip | test/dummy.go:94-108 | after a batch goes into an unused height, that height lists exactly the batch's IDs and each ID fetches its own blob |
| Dummy.BatchMatch | test/dummy.go:58-64 | inside one batch whose digests tell its blobs apart, searching for the `i`-th ID finds the `i`-th blob |
| Dummy.SubmitEffect | test/dummy.go:94-108 | what one `Submit` does to a table: it stays well formed; without wrap-around the new height lists exactly the batch's IDs, each new ID differs from every ID stored before, and each new ID fetches its own blob |
| Dummy.DummyDA.constructor | test/dummy.go:32-39 | a new store is empty at height 0, holds a matching key pair, and satisfies the invariant |
| Dummy.DummyDA.Config | test/dummy.go:44-46 | the maximum blob size is 1974272 bytes (64·64·482) |
| Dummy.DummyDA.GetProof | test/dummy.go:137-140 | the proof for a blob verifies against the blob's digest under the store's public key |
| Dummy.DummyDA.Get | test/dummy.go:49-70 | the blobs for the given IDs position by position iff every ID resolves; otherwise the error of the first ID that does not, and no blobs |
| Dummy.DummyDA.GetIDs | test/dummy.go:73-82 | the keys stored at the height, in submission order; empty for a height that holds nothing |
| Dummy.DummyDA.Commit | test/dummy.go:85-91 | one 32-byte commitment per blob, the blob's digest |
| Dummy.DummyDA.Submit | test/dummy.go:94-108 | the height rises by one (wrapping); each blob gets the ID of its digest at the new height and a proof that validates against that ID; the entries are appended at the new height in input order; the invariant is kept; without wrap-around the height lists exactly these IDs, none of them was stored before, and each resolves to its own blob |
| Dummy.DummyDA.Validate | test/dummy.go:111-120 | an error exactly when the counts differ; otherwise one verdict per pair: whether the proof verifies against the ID's digest part |
| LegacyDummy.IssuedIDsDistinct | dummy_test.go:57-62 | IDs issued by different calls differ, as long as fewer than 2^64 have been issued |
| LegacyDummy.CounterStep | dummy_test.go:58 | wrapping the counter after `n` issues gives the counter for `n + 1`, and the `n`-th issued ID |
| LegacyDummy.IssuedIDIsCount | dummy_test.go:57-62 | the `k`-th submission's ID is the little-endian encoding of `k` and decodes back to `k` |
| LegacyDummy.DummyDA.constructor | dummy_test.go:25-31 | a new store is empty with counter 0 and a matching key pair |
| LegacyDummy.DummyDA.Get | dummy_test.go:33-39 | the stored blob exactly for the keys of the table, else "no blob for given ID"; in a valid store, that is exactly the IDs issued so far |
| LegacyDummy.DummyDA.Commit | dummy_test.go:41-43 | the commitment to a blob is a 32-byte digest |
| LegacyDummy.DummyDA.GetProof | dummy_test.go:69-72 | for the store's key pair, the proof validates against the blob's commitment |
| LegacyDummy.DummyDA.Validate | dummy_test.go:53-55 | for the store's key pair, a signature over a commitment validates against that commitment |
| LegacyDummy.DummyDA.ProofValidatesCommit | dummy_test.go:41-55 | the proof `Submit` returns for a blob validates against the blob's commitment, whatever ID it was made for |
| LegacyDummy.DummyDA.NextID | dummy_test.go:57-62 | the counter goes up by one (wrapping) and the ID is its 8-byte little-endian encoding |
| LegacyDummy.DummyDA.Submit | dummy_test.go:45-51 | stores the blob under the next ID without changing any other key; the ID is fresh while fewer than 2^64 were issued; `Get` of it returns the blob; the proof validates the blob's commitment |
| DAErrors.JsonRpcCode | errors.go:16-25 | each kind's JSON-RPC code lies in 32001..32008 |
| DAErrors.Message | errors.go:27-81 | each kind's message is a non-trivial text of at least 12 characters |
| DAErrors.StatusCodeOf | errors.go:95-133 | no kind reports the gRPC code OK |
| DAErrors.DetailCode | errors.go:95-133 | each kind's DA detail code is one of the eight named codes |
| DAErrors.JsonRpcCodesInOrder | errors.go:16-25 | the eight codes are 32001 to 32008, in declaration order |
| DAErrors.JsonRpcCodeBijective | errors.go:16-25 | every kind has its own code in 32001..32008, and every code in that range names a kind |
| DAErrors.MessageDeterminesKind | errors.go:27-81 | each kind can be read back from its message |
| DAErrors.MessagesDistinct | errors.go:27-81 | different kinds have different messages |
| DAErrors.StatusCodeCollisions | errors.go:95-133 | two different kinds share a gRPC code exactly when they are {over size limit, tx too large} or {tx timed out, context deadline} |
| DAErrors.DetailCodeInjective | errors.go:95-133 | the DA detail code tells every kind apart |
| DAErrors.GetGRPCStatus | errors.go:86-93 | a status with the given code and the error's text as its message; for a code other than OK it carries one detail that decodes to the DA code; for OK, which `WithDetails` refuses, or when marshalling the detail fails, it is the bare `base` status with no detail |
| DAErrors.GRPCStatus | errors.go:95-133 | each kind's status has the kind's gRPC code and message, and lacks a detail exactly when marshalling its DA code fails |
| DAErrors.GRPCStatusShape | errors.go:95-133 | each kind's status has the kind's gRPC code and message, and one detail that decodes to the kind's own DA code |
| GrpcErrors.ErrorForCode | proxy/grpc/errors.go:32-53 | a typed error exactly for the eight named codes, of the kind whose detail code it is; "unknown error code" otherwise |
| GrpcErrors.ErrorForCodeInverts | proxy/grpc/errors.go:32-53 | `errorForCode` undoes the detail code of every kind |
| GrpcErrors.FromError | proxy/grpc/errors.go:17 | `status.FromError` finds a status exactly for errors that are not plain texts; a typed DA error's status has the kind's gRPC code, which is never OK, and the kind's message, and lacks a detail exactly when the kind's DA code does not marshal; a status error gives its status back |
| GrpcErrors.TryToMapError | proxy/grpc/errors.go:12-30 | `nil` maps to `nil`; an error changes only into the error for some code; and an error whose status carries exactly one detail that unmarshals to a code becomes the error for that code |
| GrpcErrors.PassThrough | proxy/grpc/errors.go:17-29 | an error passes unchanged when it has no status, when its status does not carry exactly one detail, or when that detail does not parse |
| GrpcErrors.KindRoundTrip | proxy/grpc/errors.go:12-30 | a kind's status sent over the wire, or the typed error itself, maps back to an error of the same kind |
| GrpcErrors.AttachFailureDegrades | errors.go:86-93 | when attaching the detail fails, the status has just the code and message, and the client gets it back unmapped |
| GrpcErrors.TryToMapIdempotent | proxy/grpc/errors.go:12-30 | mapping an already mapped error again changes nothing |
| ReasonError.Decimal | error.go:21 | `%d` of a number: at least one digit, all decimal digits, no leading zero |
| ReasonError.DecimalRoundTrip | error.go:21 | parsing the digits `%d` prints gives back the number |
| ReasonError.ReasonString | error.go:14-23 | the text is "ErrGasFee" exactly for `ReasonGasFee` and "ErrBlobSize" exactly for `ReasonBlobSize` |
| ReasonError.ReasonStringSpec | error.go:14-23 | the two named reasons print "ErrGasFee" and "ErrBlobSize"; every other value prints "unknown(n)", `ReasonUnknown` as "unknown(2)"; different reasons print differently |
| ReasonError.ErrorTextSpec | error.go:32-37 | the text starts with the reason's string, is exactly that when nothing is wrapped, and otherwise continues with ": " and the wrapped error's text |
| ReasonError.ErrorText | error.go:32-37 | the error's text begins with its reason's string |
| ReasonError.Unwrap | error.go:40-43 | what is unwrapped is what the text shows: with a wrapped error the text is the reason, ": " and that error's text; without one it is the reason alone |
| ReasonError.Is | error.go:45-54 | only a wrapper target can match, and a wrapper target matches exactly when the reasons agree |
| ReasonError.IsEquivalence | error.go:45-54 | `nil` never matches; a target that is not an `Error` never matches; between wrappers, `Is` holds exactly when the reasons agree, which makes it reflexive, symmetric and transitive |
| ReasonError.NewError | error.go:57-62 | the new error unwraps to what was wrapped and carries the given reason |
| ReasonError.NewGasFeeError | error.go:64-67 | the error unwraps to what was wrapped, has reason `ReasonGasFee`, and its text begins with "ErrGasFee" |
| ReasonError.NewBlobSizeError | error.go:69-72 | the error unwraps to what was wrapped, has reason `ReasonBlobSize`, and its text begins with "ErrBlobSize" |
| ReasonError.ConstructorsMatchSentinels | error.go:64-77 | whatever they wrap, gas-fee errors are `ErrGasFee` and not `ErrBlobSize`, and the other way round; they unwrap to what was wrapped; the sentinels print their reason names |
| Conformance.SubmitOne | test/test_suite.go:36-41 | a single-blob submission: a one-ID result naming the new height and the blob's digest, which resolves to the blob and whose proof validates, with every earlier ID still resolving as before |
| Conformance.SubmitThree | test/test_suite.go:36-61 | on a store in any state reached before the counter nears 2^64, the three submissions of the basic test raise the height by three, return one proof each, and give pairwise different IDs; the first one still fetches the first blob; equal blobs give equal digest parts |
| Conformance.CheckBasic | test/test_suite.go:63-87 | `Get(id1)` returns `[msg1]`, `Commit([msg1])` returns the digest that ends `id1`, `Commit([msg2])` returns one 32-byte commitment, and the first two proofs validate their own IDs |
| Conformance.BasicDATest | test/test_suite.go:31-87 | on a store in any state reached before the counter nears 2^64, the IDs differ, the third submission returns one proof, `Get(id1)` returns `[msg1]`, `Commit([msg1])` returns the digest that ends the IDs of `msg1`, `Commit([msg2])` returns one 32-byte commitment, and the first two proofs validate their own IDs; the store stays in such a state three heights on |
| Conformance.GetIDsTest | test/test_suite.go:114-155 | on a store in any state reached before the counter nears 2^64, the height the batch lands at lists exactly its IDs and fetching them returns the batch |
| Conformance.CheckErrors | test/test_suite.go:106-111 | on any store, `Get` of the 7-byte ID "invalid" fails with "invalid ID" |
| Conformance.RunDATestSuite | da_test.go:15-30 | the suite run in order on one new store: the basic test, then the batch test on the same store, whose batch lands at height 4, then the error check, each succeeding |

## Left out

- The mutex of `test/dummy.go` and the atomic counter of `dummy_test.go` are not modelled. Every method is one atomic step, and concurrent interleavings, including the suite's `ConcurrentReadWriteTest`, are out of scope.
- Real SHA-256 and Ed25519 are not modelled: the primitives are uninterpreted. Key generation from `crypto/rand` becomes a constructor parameter that must be a matching pair.
- The suite's negative checks (test/test_suite.go:90-102) are not modelled. They hold only because Ed25519 signatures cannot be forged, which is not among the stated properties of the primitives.
- Ed25519 signing is modelled as deterministic. The random reader handed to `Sign` is ignored, as pure Ed25519 does.
- Dummy.DummyDA.Validate: requires that, when the counts agree, every ID is at least 8 bytes. For a shorter ID the source's `ids[i][8:]` panics, and a panic is not modelled.
- Dummy.DummyDA.Submit: the invariants that no height beyond the counter holds data and that each ID resolves to its own blob hold only until the height counter wraps after 2^64 submissions. The round trip also needs the batch's digests to tell its blobs apart, which is a collision-freedom assumption about SHA-256.
- LegacyDummy.DummyDA.Submit: an ID is fresh only while fewer than 2^64 IDs have been issued. After that the counter wraps and an old key is overwritten, as in the source.
- `context.Context`, the namespace, the gas price and `SubmitOptions` are not modelled. The suite passes them; `test/dummy.go` takes none of them.
- The gRPC library is not modelled. `status.New` becomes a plain `Grpc.Status` record. The marshalling of `ErrorDetails` that `WithDetails` does and `ErrorDetails.Unmarshal` are the two unknown functions of `PbDA.Codec`, with the single property that what marshals unmarshals back (`PbDA.Lossless`). `status.FromError` is modelled for the three kinds of error values the mapping meets. `WithDetails` refuses a status whose code is OK; the model writes that case out, and otherwise attaching fails only when the detail does not marshal.
- The numeric values of the protobuf `ErrorCode` enum are not modelled. Any value other than the eight named ones is `Unrecognised`.
- `errors.Is` and `errors.As`, the standard library's chain walkers, are not modelled; only the `Is` and `Unwrap` methods they call are. A non-wrapper error is known only by its text.
- Conformance.GetIDsTest: the source's one-second scan over heights, from 1 upwards, is replaced by reading the height the batch landed at. In the suite's shared store the scan skips the three one-blob heights of the basic test and stops there too (height 4). Any batch whose equal digests mean equal blobs stands in for the three messages "msg1", "msg2" and "msg3".
- Slices are modelled as values. `test/dummy.go` stores the caller's blob slices (line 104) and hands the stored ones back from `Get` (line 61), and `dummy_test.go` stores the caller's blob (line 49), all without copying, so in Go a caller that later writes into such a slice changes the store. `Dummy.DummyDA.Submit`, `Dummy.DummyDA.Get` and `LegacyDummy.DummyDA.Submit` do not capture that aliasing.
- The proxies (`proxy/`, `proxy-jsonrpc/`, `proxy-grpc/`), the client stubs, networking and the JSON-RPC server are not part of this model.
