/** The client side of the gRPC proxy's error mapping: turning an error
    that came back over the wire into the typed DA error it stands for. */
module GrpcErrors {
  import opened Wrappers
  import opened Grpc
  import PbDA
  import opened DAErrors

  /** `status.FromError`: the typed DA errors expose their `GRPCStatus`, a
      status error carries its status, and any other error has none. A
      typed error's status never has code OK, carries the kind's message,
      and has a detail exactly when the kind's DA code marshals. */
  function FromError(c: PbDA.Codec, e: GoError): (r: Option<Status>)
    ensures r.None? <==> e.Plain?
    ensures e.KindError? ==> r.value.code == StatusCodeOf(e.kind) && r.value.code != OK
    ensures e.KindError? ==> r.value.message == Message(e.kind)
    ensures e.KindError? ==> (r.value.details == [] <==> c.marshal(DetailCode(e.kind)).None?)
    ensures e.StatusError? ==> r == Some(e.status)
  {
    match e
    case KindError(k) => Some(GRPCStatus(c, k))
    case StatusError(s) => Some(s)
    case Plain(_) => None
  }

  /** `errorForCode`: each of the eight DA codes becomes its typed error;
      any other code becomes a generic "unknown error code" error that is
      none of the eight kinds. */
  function ErrorForCode(code: PbDA.ErrorCode): (e: GoError)
    ensures e.KindError? <==> !code.Unrecognised?
    ensures e.KindError? ==> DetailCode(e.kind) == code
    ensures !e.KindError? ==> e == Plain("unknown error code")
  {
    match code
    case BlobNotFound => KindError(DAErrors.BlobNotFound)
    case BlobSizeOverLimit => KindError(DAErrors.BlobSizeOverLimit)
    case TxTimedOut => KindError(DAErrors.TxTimedOut)
    case TxAlreadyInMempool => KindError(DAErrors.TxAlreadyInMempool)
    case TxIncorrectAccountSequence => KindError(DAErrors.TxIncorrectAccountSequence)
    case TxTooLarge => KindError(DAErrors.TxTooLarge)
    case ContextDeadline => KindError(DAErrors.ContextDeadline)
    case FutureHeight => KindError(DAErrors.FutureHeight)
    case Unrecognised(_) => Plain("unknown error code")
  }

  /** `ErrorForCode` undoes `DetailCode`. */
  lemma ErrorForCodeInverts(k: Kind)
    ensures ErrorForCode(DetailCode(k)) == KindError(k)
  {
  }

  /** `tryToMapError`: `nil` stays `nil`; an error whose status carries
      exactly one detail that parses becomes the error for the detail's
      code (a typed error for the eight named codes, "unknown error code"
      for any other); every other error is returned unchanged. */
  function TryToMapError(c: PbDA.Codec, err: Option<GoError>): (r: Option<GoError>)
    ensures err.None? ==> r.None?
    ensures r != err ==> err.Some? && exists code :: r == Some(ErrorForCode(code))
    ensures forall code ::
      (err.Some? && FromError(c, err.value).Some? &&
       |FromError(c, err.value).value.details| == 1 &&
       c.unmarshal(FromError(c, err.value).value.details[0]) == Some(code)) ==>
        r == Some(ErrorForCode(code))
  {
    match err
    case None => None
    case Some(e) =>
      match FromError(c, e)
      case None => err
      case Some(s) =>
        if |s.details| == 1 then
          match c.unmarshal(s.details[0])
          case None => err
          case Some(code) => Some(ErrorForCode(code))
        else err
  }

  /** The three ways an error passes through unchanged: it carries no
      status, its status does not carry exactly one detail, or its one
      detail does not parse. */
  lemma PassThrough(c: PbDA.Codec, e: GoError)
    ensures FromError(c, e).None? ==> TryToMapError(c, Some(e)) == Some(e)
    ensures FromError(c, e).Some? && |FromError(c, e).value.details| != 1 ==>
      TryToMapError(c, Some(e)) == Some(e)
    ensures (FromError(c, e).Some? && |FromError(c, e).value.details| == 1 &&
             c.unmarshal(FromError(c, e).value.details[0]).None?) ==>
      TryToMapError(c, Some(e)) == Some(e)
  {
  }

  /** Round trip over the wire: the status a typed error is sent as, with
      its detail attached, decodes back to an error of the same kind; so
      does the typed error itself. */
  lemma KindRoundTrip(c: PbDA.Codec, k: Kind)
    requires PbDA.Lossless(c) && c.marshal(DetailCode(k)).Some?
    ensures TryToMapError(c, Some(StatusError(GRPCStatus(c, k)))) == Some(KindError(k))
    ensures TryToMapError(c, Some(KindError(k))) == Some(KindError(k))
  {
    GRPCStatusShape(c, k);
    ErrorForCodeInverts(k);
  }

  /** When the detail could not be attached, the client sees the plain
      status unchanged: the kind's gRPC code and message and no details. */
  lemma AttachFailureDegrades(c: PbDA.Codec, k: Kind)
    requires c.marshal(DetailCode(k)).None?
    ensures GRPCStatus(c, k) == Status(StatusCodeOf(k), Message(k), [])
    ensures TryToMapError(c, Some(StatusError(GRPCStatus(c, k)))) == Some(StatusError(GRPCStatus(c, k)))
  {
  }

  /** Mapping an already mapped error again changes nothing. */
  lemma TryToMapIdempotent(c: PbDA.Codec, err: Option<GoError>)
    requires PbDA.Lossless(c)
    ensures TryToMapError(c, TryToMapError(c, err)) == TryToMapError(c, err)
  {
    var r := TryToMapError(c, err);
    if r != err {
      var code :| r == Some(ErrorForCode(code));
      match ErrorForCode(code)
      case KindError(k) =>
        if c.marshal(DetailCode(k)).Some? {
          KindRoundTrip(c, k);
        }
      case Plain(_) =>
      case StatusError(_) =>
    }
  }
}
