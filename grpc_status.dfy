/** The parts of gRPC's status model the error mapping depends on: the
    status codes, a status record, and the DA detail payload. The gRPC
    library's own code is not part of this model; a status is the triple
    (code, message, details) and detail (un)marshalling is a pair of
    functions with one stated property. */
module Grpc {
  import opened Bytes

  /** gRPC's status codes. */
  datatype StatusCode =
    | OK | Canceled | Unknown | InvalidArgument | DeadlineExceeded | NotFound
    | AlreadyExists | PermissionDenied | ResourceExhausted | FailedPrecondition
    | Aborted | OutOfRange | Unimplemented | Internal | Unavailable | DataLoss
    | Unauthenticated

  /** The serialized value of one `google.protobuf.Any` detail. */
  type RawDetail = seq<byte>

  /** A gRPC status: code, message and attached details. */
  datatype Status = Status(code: StatusCode, message: string, details: seq<RawDetail>)
}

/** The DA protobuf types: the detail code enum and its wire codec. The
    enum's numeric values are not part of this model, so the eight named
    codes are constructors and every other value is `Unrecognised`. */
module PbDA {
  import opened Wrappers
  import opened Grpc

  datatype ErrorCode =
    | BlobNotFound | BlobSizeOverLimit | TxTimedOut | TxAlreadyInMempool
    | TxIncorrectAccountSequence | TxTooLarge | ContextDeadline | FutureHeight
    | Unrecognised(raw: int)

  /** Marshalling an `ErrorDetails{Code}` message into a detail (`None`
      when `WithDetails` fails), and `ErrorDetails.Unmarshal` (`None` when
      the bytes do not parse). */
  datatype Codec = Codec(
    marshal: ErrorCode -> Option<RawDetail>,
    unmarshal: RawDetail -> Option<ErrorCode>)

  /** What a successful marshal produces unmarshals to the same code. */
  ghost predicate Lossless(c: Codec)
  {
    forall code :: c.marshal(code).Some? ==> c.unmarshal(c.marshal(code).value) == Some(code)
  }
}
