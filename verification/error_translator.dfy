/** The error interceptors of `grpc/interceptor.go`: a `ServiceError` leaving
    the handler becomes a gRPC status carrying `{Code, Message, Attributes}`
    as a detail, plus (on unary calls) trailer metadata. */
module ErrorTranslator {
  import opened Wrappers
  import opened GrpcStatus
  import opened ServiceErrors
  import opened Calls

  const ErrorCodeKey: string := "error_code"
  const ErrorMessageKey: string := "error_message"

  /** `errorMetadata`: the two reserved keys, then every attribute; an
      attribute named like a reserved key overwrites it. */
  function ErrorMetadata(se: ServiceError): (md: map<string, string>)
    ensures md.Keys == {ErrorCodeKey, ErrorMessageKey} + se.attributes.Keys
    ensures forall k :: k in se.attributes ==> md[k] == se.attributes[k]
    ensures ErrorCodeKey !in se.attributes ==> md[ErrorCodeKey] == se.code
    ensures ErrorMessageKey !in se.attributes ==> md[ErrorMessageKey] == se.message
  {
    map[ErrorCodeKey := se.code, ErrorMessageKey := se.message] + se.attributes
  }

  /** The detail message built from a service error. */
  function DetailOf(se: ServiceError): ErrorDetail
  {
    ErrorDetail(se.code, se.message, se.attributes)
  }

  /** `(*Status).Err()`: no error at all for an OK status. */
  function StatusErr(st: Status): (r: Option<Error>)
    ensures r.None? <==> st.code == OK
    ensures r.Some? ==> r.value == StatusError(st)
  {
    if st.code == OK then None else Some(StatusError(st))
  }

  /** `grpcError` as written: build the status from `Status` and `Message`,
      try to attach the detail, fall back to the bare status. For a service
      error whose `Status` is OK both `WithDetails` and `Err()` give up, and
      the result is no error. */
  function GrpcErrorAsWritten(se: ServiceError, encodable: bool): (r: Option<Error>)
    ensures r.None? <==> se.status == OK
    ensures r.Some? ==>
      && r.value.StatusError?
      && r.value.status.code == se.status
      && r.value.status.message == se.message
      && (r.value.status.detail.Some? <==> encodable)
  {
    var st := Status(se.status, se.message, None);
    match WithDetails(st, DetailOf(se), encodable)
    case Some(withDetail) => StatusErr(withDetail)
    case None => StatusErr(st)
  }

  /** A handler error with an OK status is turned into no error. */
  lemma OkStatusIsSwallowed()
    ensures GrpcErrorAsWritten(ServiceError(OK, "E", "m", map[]), true) == None
  {
  }

  /** The code put on the wire: OK cannot carry an error, so it becomes Unknown. */
  function WireCode(c: Code): (w: Code)
    ensures w != OK
    ensures c != OK ==> w == c
  {
    if c == OK then Unknown else c
  }

  /** `grpcError` with the OK case mended: always an error status with the
      service error's message, its code whenever that code is not OK, and the
      detail attached exactly when it can be encoded. On every service error
      whose status is not OK it agrees with the code as written. */
  function GrpcError(se: ServiceError, encodable: bool): (e: Error)
    ensures e.StatusError? && e.status.code != OK
    ensures se.status != OK ==> e.status.code == se.status
    ensures e.status.message == se.message
    ensures e.status.detail.Some? <==> encodable
    ensures se.status != OK ==> GrpcErrorAsWritten(se, encodable) == Some(e)
  {
    var st := Status(WireCode(se.status), se.message, None);
    match WithDetails(st, DetailOf(se), encodable)
    case Some(withDetail) => StatusError(withDetail)
    case None => StatusError(st)
  }

  /** What a client reads back as the error detail: `status.FromError(err).Details()`. */
  function DecodeDetail(e: Error): Option<ErrorDetail>
  {
    match e
    case StatusError(st) => st.detail
    case _ => None
  }

  /** The detail decodes to exactly `{Code, Message, Attributes}`; when it
      could not be attached there is none. */
  lemma DetailRoundTrip(se: ServiceError, encodable: bool)
    ensures encodable ==> DecodeDetail(GrpcError(se, encodable)) == Some(ErrorDetail(se.code, se.message, se.attributes))
    ensures !encodable ==> DecodeDetail(GrpcError(se, encodable)) == None
  {
  }

  /** Which `grpcError` the error interceptors apply: the code as written,
      or the mended one. */
  datatype Translation = AsWritten | Mended

  /** The translation of a service error under `t`. Only the code as written
      can lose the error, and only for an OK status; on every other status
      the two agree. */
  function Translate(t: Translation, se: ServiceError, encodable: bool): (r: Option<Error>)
    ensures r.None? <==> t.AsWritten? && se.status == OK
    ensures se.status != OK ==> r == GrpcErrorAsWritten(se, encodable)
    ensures r.Some? ==> r.value.StatusError? && r.value.status.message == se.message
  {
    match t
    case AsWritten => GrpcErrorAsWritten(se, encodable)
    case Mended => Some(GrpcError(se, encodable))
  }

  /** The error `e` leaves an error interceptor as no error at all: only the
      code as written does that, for a service error with an OK status. */
  predicate Swallows(t: Translation, e: Error)
  {
    t.AsWritten? && AsServiceError(e).Some? && AsServiceError(e).value.status == OK
  }

  /** `UnaryErrorInterceptor`, applied to what the inner handler produced:
      a service error found by `errors.As` is replaced by its translation
      (which, as written, is no error for an OK status) and its metadata is
      set as trailer; any other error is returned as it is. */
  function UnaryErrorInterceptor(t: Translation, inner: Outcome, encodable: ErrorDetail -> bool): (r: Outcome)
    ensures inner.Panicked? <==> r.Panicked?
    ensures inner.Returned? && inner.reply.err.None? ==> r == inner
    ensures inner.Returned? && inner.reply.err.Some? ==> r.Returned? && r.reply.resp.None?
    ensures inner.Returned? && inner.reply.err.Some? && AsServiceError(inner.reply.err.value).None? ==>
      r.reply.err == inner.reply.err && r.reply.trailers == inner.reply.trailers
    ensures inner.Returned? && inner.reply.err.Some? && AsServiceError(inner.reply.err.value).Some? ==>
      var se := AsServiceError(inner.reply.err.value).value;
      && r.reply.err == Translate(t, se, encodable(DetailOf(se)))
      && r.reply.trailers == inner.reply.trailers + [ErrorMetadata(se)]
    ensures inner.Returned? && inner.reply.err.Some? ==>
      (r.reply.err.None? <==> Swallows(t, inner.reply.err.value))
  {
    match inner
    case Panicked => Panicked
    case Returned(reply) =>
      match reply.err
      case None => inner
      case Some(e) =>
        match AsServiceError(e)
        case Some(se) =>
          Returned(Reply(None, Translate(t, se, encodable(DetailOf(se))), reply.trailers + [ErrorMetadata(se)]))
        case None => Returned(Reply(None, Some(e), reply.trailers))
  }

  /** `StreamErrorInterceptor`: the same translation, without trailers. */
  function StreamErrorInterceptor(t: Translation, inner: Outcome, encodable: ErrorDetail -> bool): (r: Outcome)
    ensures inner.Panicked? <==> r.Panicked?
    ensures inner.Returned? && inner.reply.err.None? ==> r == inner
    ensures inner.Returned? ==> r.Returned? && r.reply.trailers == inner.reply.trailers
    ensures inner.Returned? && inner.reply.err.Some? ==> r.reply.resp.None?
    ensures inner.Returned? && inner.reply.err.Some? && AsServiceError(inner.reply.err.value).None? ==>
      r.reply.err == inner.reply.err
    ensures inner.Returned? && inner.reply.err.Some? && AsServiceError(inner.reply.err.value).Some? ==>
      var se := AsServiceError(inner.reply.err.value).value;
      r.reply.err == Translate(t, se, encodable(DetailOf(se)))
    ensures inner.Returned? && inner.reply.err.Some? ==>
      (r.reply.err.None? <==> Swallows(t, inner.reply.err.value))
  {
    match inner
    case Panicked => Panicked
    case Returned(reply) =>
      match reply.err
      case None => inner
      case Some(e) =>
        match AsServiceError(e)
        case Some(se) => Returned(Reply(None, Translate(t, se, encodable(DetailOf(se))), reply.trailers))
        case None => Returned(Reply(None, Some(e), reply.trailers))
  }

  /** As written, a handler's service error with an OK status leaves the
      unary interceptor as a success with no response: only the trailer
      remains. The mended translation reports it as an error. */
  lemma OkServiceErrorSwallowedByInterceptor(se: ServiceError, trailers: seq<map<string, string>>,
                                            encodable: ErrorDetail -> bool)
    requires se.status == OK
    ensures UnaryErrorInterceptor(AsWritten, Returned(Reply(None, Some(Service(se)), trailers)), encodable)
         == Returned(Reply(None, None, trailers + [ErrorMetadata(se)]))
    ensures StreamErrorInterceptor(AsWritten, Returned(Reply(None, Some(Service(se)), trailers)), encodable)
         == Returned(Reply(None, None, trailers))
    ensures UnaryErrorInterceptor(Mended, Returned(Reply(None, Some(Service(se)), trailers)), encodable).reply.err.Some?
  {
  }

  /** An error that carries no service error anywhere in its wrap chain comes
      out of the unary translator as the very same value. */
  lemma NonServiceErrorPassesThrough(t: Translation, e: Error, trailers: seq<map<string, string>>,
                                     encodable: ErrorDetail -> bool)
    requires AsServiceError(e).None?
    ensures UnaryErrorInterceptor(t, Returned(Reply(None, Some(e), trailers)), encodable)
         == Returned(Reply(None, Some(e), trailers))
  {
  }

  /** Translation is idempotent: whatever the handler produced, a translated
      outcome (an error status, a passed-through error, a success, or, as
      written, the success an OK status turned into) goes through unchanged. */
  lemma TranslationIdempotent(t: Translation, inner: Outcome, encodable: ErrorDetail -> bool)
    ensures
      var once := UnaryErrorInterceptor(t, inner, encodable);
      UnaryErrorInterceptor(t, once, encodable) == once
  {
  }
}
