/** The DA error taxonomy: eight error kinds, each with a fixed message, a
    JSON-RPC code and a gRPC status that carries a DA detail code. */
module DAErrors {
  import opened Wrappers
  import opened Grpc
  import PbDA

  datatype Kind =
    | BlobNotFound | BlobSizeOverLimit | TxTimedOut | TxAlreadyInMempool
    | TxIncorrectAccountSequence | TxTooLarge | ContextDeadline | FutureHeight

  /** The eight kinds in declaration order. */
  const Kinds: seq<Kind> := [
    BlobNotFound, BlobSizeOverLimit, TxTimedOut, TxAlreadyInMempool,
    TxIncorrectAccountSequence, TxTooLarge, ContextDeadline, FutureHeight]

  /** The error values the mapping code handles: one of the eight typed
      errors, an error that carries a gRPC status (what the transport
      returns), or any other error, known only by its text. */
  datatype GoError =
    | KindError(kind: Kind)
    | StatusError(status: Status)
    | Plain(text: string)

  /** The JSON-RPC code of each kind (the `Code` constants). */
  function JsonRpcCode(k: Kind): (code: int)
    ensures 32001 <= code <= 32008
  {
    match k
    case BlobNotFound => 32001
    case BlobSizeOverLimit => 32002
    case TxTimedOut => 32003
    case TxAlreadyInMempool => 32004
    case TxIncorrectAccountSequence => 32005
    case TxTooLarge => 32006
    case ContextDeadline => 32007
    case FutureHeight => 32008
  }

  /** The codes run from 32001 to 32008 in declaration order. */
  lemma JsonRpcCodesInOrder()
    ensures |Kinds| == 8
    ensures forall i :: 0 <= i < |Kinds| ==> JsonRpcCode(Kinds[i]) == 32001 + i
  {
  }

  /** Every kind has its own code, and every code from 32001 to 32008
      names exactly one kind. */
  lemma JsonRpcCodeBijective(k1: Kind, k2: Kind, n: int)
    ensures JsonRpcCode(k1) == JsonRpcCode(k2) ==> k1 == k2
    ensures 32001 <= n <= 32008 ==> exists k :: JsonRpcCode(k) == n
  {
    if 32001 <= n <= 32008 {
      JsonRpcCodesInOrder();
      assert JsonRpcCode(Kinds[n - 32001]) == n;
    }
  }

  /** `Error()` of each kind: a fixed, non-empty text. */
  function Message(k: Kind): (s: string)
    ensures |s| >= 12
  {
    match k
    case BlobNotFound => "blob: not found"
    case BlobSizeOverLimit => "blob: over size limit"
    case TxTimedOut => "timed out waiting for tx to be included in a block"
    case TxAlreadyInMempool => "tx already in mempool"
    case TxIncorrectAccountSequence => "incorrect account sequence"
    case TxTooLarge => "tx too large"
    case ContextDeadline => "context deadline"
    case FutureHeight => "given height is from the future"
  }

  /** A proof device, not part of the system: it reads the kind back from
      one of the eight messages by the message's length and, for the two of
      length 21, its first letter. On other strings it means nothing (any
      15-character string reads as `BlobNotFound`). */
  function KindOfMessage(s: string): Option<Kind>
  {
    if |s| == 15 then Some(BlobNotFound)
    else if |s| == 21 then (if s[0] == 'b' then Some(BlobSizeOverLimit) else Some(TxAlreadyInMempool))
    else if |s| == 50 then Some(TxTimedOut)
    else if |s| == 26 then Some(TxIncorrectAccountSequence)
    else if |s| == 12 then Some(TxTooLarge)
    else if |s| == 16 then Some(ContextDeadline)
    else if |s| == 31 then Some(FutureHeight)
    else None
  }

  /** The message determines the kind. */
  lemma MessageDeterminesKind(k: Kind)
    ensures KindOfMessage(Message(k)) == Some(k)
  {
  }

  /** Each kind's message is its own. */
  lemma MessagesDistinct(k1: Kind, k2: Kind)
    requires k1 != k2
    ensures Message(k1) != Message(k2)
  {
    MessageDeterminesKind(k1);
    MessageDeterminesKind(k2);
  }

  /** The gRPC code of each kind's status; never `OK`. */
  function StatusCodeOf(k: Kind): (code: StatusCode)
    ensures code != OK
  {
    match k
    case BlobNotFound => NotFound
    case BlobSizeOverLimit => ResourceExhausted
    case TxTimedOut => DeadlineExceeded
    case TxAlreadyInMempool => AlreadyExists
    case TxIncorrectAccountSequence => InvalidArgument
    case TxTooLarge => ResourceExhausted
    case ContextDeadline => DeadlineExceeded
    case FutureHeight => OutOfRange
  }

  /** The DA detail code attached to each kind's status. */
  function DetailCode(k: Kind): (code: PbDA.ErrorCode)
    ensures !code.Unrecognised?
  {
    match k
    case BlobNotFound => PbDA.BlobNotFound
    case BlobSizeOverLimit => PbDA.BlobSizeOverLimit
    case TxTimedOut => PbDA.TxTimedOut
    case TxAlreadyInMempool => PbDA.TxAlreadyInMempool
    case TxIncorrectAccountSequence => PbDA.TxIncorrectAccountSequence
    case TxTooLarge => PbDA.TxTooLarge
    case ContextDeadline => PbDA.ContextDeadline
    case FutureHeight => PbDA.FutureHeight
  }

  /** The gRPC code alone does not tell kinds apart: exactly two pairs of
      kinds share one. */
  lemma StatusCodeCollisions(k1: Kind, k2: Kind)
    requires k1 != k2
    ensures StatusCodeOf(k1) == StatusCodeOf(k2) <==>
      {k1, k2} == {BlobSizeOverLimit, TxTooLarge} || {k1, k2} == {TxTimedOut, ContextDeadline}
  {
    assert k1 in {k1, k2} && k2 in {k1, k2};
  }

  /** The detail code does tell them apart. */
  lemma DetailCodeInjective(k1: Kind, k2: Kind)
    ensures DetailCode(k1) == DetailCode(k2) ==> k1 == k2
  {
  }

  /** `getGRPCStatus`: a status with the given code and the error's text as
      message, carrying one detail with the DA code. `WithDetails` refuses
      an `OK` status, and attaching can fail; in both cases the result is
      the same status without details. */
  function GetGRPCStatus(c: PbDA.Codec, errText: string, code: StatusCode, daCode: PbDA.ErrorCode): (s: Status)
    ensures s.code == code && s.message == errText
    ensures code != OK && c.marshal(daCode).Some? ==> |s.details| == 1
    ensures code != OK && c.marshal(daCode).Some? && PbDA.Lossless(c) ==> c.unmarshal(s.details[0]) == Some(daCode)
    ensures code == OK || c.marshal(daCode).None? ==> s.details == []
  {
    var base := Status(code, errText, []);
    if code == OK then base
    else
      match c.marshal(daCode)
      case None => base
      case Some(d) => base.(details := base.details + [d])
  }

  /** The `GRPCStatus` method of each kind: `getGRPCStatus` with the kind's
      message, gRPC code and DA code. */
  function GRPCStatus(c: PbDA.Codec, k: Kind): (s: Status)
    ensures s.code == StatusCodeOf(k) && s.message == Message(k)
    ensures c.marshal(DetailCode(k)).None? <==> s.details == []
  {
    GetGRPCStatus(c, Message(k), StatusCodeOf(k), DetailCode(k))
  }

  /** Each kind's status has the kind's code and message; with the detail
      attached it has exactly one detail, which decodes to the kind's own
      detail code. */
  lemma GRPCStatusShape(c: PbDA.Codec, k: Kind)
    requires PbDA.Lossless(c) && c.marshal(DetailCode(k)).Some?
    ensures GRPCStatus(c, k).code == StatusCodeOf(k)
    ensures GRPCStatus(c, k).message == Message(k)
    ensures |GRPCStatus(c, k).details| == 1
    ensures c.unmarshal(GRPCStatus(c, k).details[0]) == Some(DetailCode(k))
  {
  }
}
