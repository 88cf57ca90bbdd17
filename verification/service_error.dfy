/** `error/error.go`: the typed business error, and the error values that
    flow through the interceptors. */
module ServiceErrors {
  import opened Wrappers
  import opened GrpcStatus

  /** A business failure: wire status, application code, message and free-form
      attributes (a nil attribute map is the empty map). */
  datatype ServiceError = ServiceError(
    status: Code,
    code: string,
    message: string,
    attributes: map<string, string>)
  {
    /** The text of the error, as `error.Error()` reports it. */
    function Error(): (text: string)
      ensures text == message
    {
      message
    }
  }

  /** `Error()` reads the message and nothing else. */
  lemma ErrorDependsOnlyOnMessage(a: ServiceError, b: ServiceError)
    ensures a.Error() == b.Error() <==> a.message == b.message
  {
  }

  /** Error values seen by the interceptors. `Wrapped` is an error that wraps
      another (as `fmt.Errorf("...%w", inner)` does), which `errors.As` looks
      through; `Other` is any error this model does not look inside. */
  datatype Error =
    | Service(serviceError: ServiceError)
    | StatusError(status: Status)
    | Wrapped(note: string, inner: Error)
    | Other(id: nat)

  /** `errors.As(err, &serviceError)`: the first `ServiceError` in the wrap chain. */
  function AsServiceError(e: Error): (r: Option<ServiceError>)
    ensures e.Service? ==> r == Some(e.serviceError)
    ensures e.StatusError? || e.Other? ==> r.None?
    ensures r.Some? ==> e.Service? || e.Wrapped?
    ensures e.Wrapped? ==> r == AsServiceError(e.inner)
  {
    match e
    case Service(se) => Some(se)
    case Wrapped(_, inner) => AsServiceError(inner)
    case StatusError(_) => None
    case Other(_) => None
  }

  /** A wrapped service error is still found, at any depth. */
  lemma {:induction false} AsServiceErrorSeesThroughWrapping(se: ServiceError, notes: seq<string>)
    ensures AsServiceError(WrapAll(notes, Service(se))) == Some(se)
    decreases |notes|
  {
    if |notes| > 0 {
      AsServiceErrorSeesThroughWrapping(se, notes[1..]);
    }
  }

  /** `e` wrapped once per note, the first note outermost. */
  function WrapAll(notes: seq<string>, e: Error): Error
    decreases |notes|
  {
    if |notes| == 0 then e else Wrapped(notes[0], WrapAll(notes[1..], e))
  }
}
