/** Interceptor chaining in `grpc/interceptor.go`: each interceptor either
    answers the call itself or passes a (possibly updated) call inwards, and
    may rework the outcome on the way back out. The first interceptor of a
    chain is the outermost. */
module InterceptorChain {
  import opened Wrappers
  import opened GrpcStatus
  import opened ServiceErrors
  import opened CallContext
  import opened Auth
  import opened Calls
  import opened ErrorTranslator
  import opened MaintenanceGate

  datatype Interceptor =
    | Recovery
    | UnaryValidator
    | StreamValidator
    | UnaryAuth
    | UnaryErrors(translation: Translation)
    | StreamErrors(translation: Translation)
    | UnaryMaintenance(config: MaintenanceConfig)

  /** What the outside world answers during one call: the service-account
      token (`None` when the exchange failed), the response each feature's
      remote-config fetch receives, and whether a detail can be encoded. */
  datatype World = World(
    token: Option<string>,
    fetch: string -> HttpResponse,
    encodable: ErrorDetail -> bool)

  /** The inbound half of an interceptor. */
  datatype Step = ShortCircuit(result: Outcome) | Continue(call: Call)

  /** The recovery handler's error. */
  const ServerPanic: Error := StatusError(Status(Internal, "server panic", None))

  /** The unary validator's rejection of a message whose `Validate()` failed. */
  function InvalidArgumentReply(message: string): Reply
  {
    Reply(None, Some(StatusError(Status(InvalidArgument, message, None))), [])
  }

  /** What the maintenance gate returns when it blocks: the call's context
      in the response slot, and the maintenance error. */
  const BlockedReply: Reply := Reply(Some(ContextEcho), Some(Service(MaintenanceError)), [])

  /** The decision `UnaryMaintenanceInterceptor` takes before the handler. */
  predicate MaintenanceBlocks(config: MaintenanceConfig, w: World, call: Call)
  {
    Blocks(config, w.token, w.fetch, call.fullMethod, call.request.billPayment)
  }

  /** Inbound: the validator answers an invalid unary request itself; the auth
      interceptor attaches identity (and panics, indexing an empty `cID`
      list); the maintenance gate answers a blocked call itself. The stream
      validator checks messages as the handler receives them, so it lets
      every call through here. */
  function Before(i: Interceptor, w: World, call: Call): (s: Step)
    ensures s.Continue? ==> s.call.fullMethod == call.fullMethod && s.call.request == call.request
  {
    match i
    case UnaryValidator =>
      (match call.request.validationError
       case Some(m) => ShortCircuit(Returned(InvalidArgumentReply(m)))
       case None => Continue(call))
    case UnaryAuth =>
      if CidReadable(call.ctx) then Continue(call.(ctx := WithUserInfoContext(call.ctx)))
      else ShortCircuit(Panicked)
    case UnaryMaintenance(config) =>
      if MaintenanceBlocks(config, w, call) then ShortCircuit(Returned(BlockedReply)) else Continue(call)
    case _ => Continue(call)
  }

  /** The recovery handler's effect: a panic becomes the "server panic" error. */
  function Recover(inner: Outcome): (r: Outcome)
    ensures r.Returned?
    ensures inner.Returned? ==> r == inner
    ensures inner.Panicked? ==> r.reply == Reply(None, Some(ServerPanic), [])
  {
    match inner
    case Panicked => Returned(Reply(None, Some(ServerPanic), []))
    case Returned(_) => inner
  }

  /** Outbound: recovery catches panics, the error interceptors translate.
      Only recovery stops a panic, and no interceptor touches a success. */
  function After(i: Interceptor, w: World, inner: Outcome): (r: Outcome)
    ensures i.Recovery? ==> r.Returned?
    ensures !i.Recovery? ==> (r.Panicked? <==> inner.Panicked?)
    ensures inner.Returned? && inner.reply.err.None? ==> r == inner
  {
    match i
    case Recovery => Recover(inner)
    case UnaryErrors(t) => UnaryErrorInterceptor(t, inner, w.encodable)
    case StreamErrors(t) => StreamErrorInterceptor(t, inner, w.encodable)
    case _ => inner
  }

  /** A chain run around a handler, outermost interceptor first. With
      recovery outermost nothing panics out of the chain, and a handler's
      success reaches the caller exactly as the handler returned it. */
  function Run(chain: seq<Interceptor>, w: World, call: Call, handler: Call -> HandlerOutcome): (r: Outcome)
    ensures |chain| > 0 && chain[0].Recovery? ==> r.Returned?
    ensures HandlerCall(chain, w, call).Some? && handler(HandlerCall(chain, w, call).value).Ok? ==>
      r == FromHandler(handler(HandlerCall(chain, w, call).value))
    decreases |chain|
  {
    if |chain| == 0 then FromHandler(handler(call))
    else
      match Before(chain[0], w, call)
      case ShortCircuit(result) => result
      case Continue(next) => After(chain[0], w, Run(chain[1..], w, next, handler))
  }

  /** The call the handler receives, or `None` when an interceptor answered first. */
  function HandlerCall(chain: seq<Interceptor>, w: World, call: Call): Option<Call>
    decreases |chain|
  {
    if |chain| == 0 then Some(call)
    else
      match Before(chain[0], w, call)
      case ShortCircuit(_) => None
      case Continue(next) => HandlerCall(chain[1..], w, next)
  }

  /** The handler runs at most once: when the chain answers first, the outcome
      does not depend on the handler at all; otherwise it depends only on the
      handler's outcome for the one call it receives. */
  lemma {:induction false} HandlerRunsAtMostOnce(chain: seq<Interceptor>, w: World, call: Call,
                                                 h1: Call -> HandlerOutcome, h2: Call -> HandlerOutcome)
    requires HandlerCall(chain, w, call).None?
      || h1(HandlerCall(chain, w, call).value) == h2(HandlerCall(chain, w, call).value)
    ensures Run(chain, w, call, h1) == Run(chain, w, call, h2)
    decreases |chain|
  {
    if |chain| > 0 {
      match Before(chain[0], w, call)
      case ShortCircuit(_) =>
      case Continue(next) =>
        HandlerRunsAtMostOnce(chain[1..], w, next, h1, h2);
    }
  }

  /** `WithDefault`'s unary chain: recovery, validator, auth, error
      translator. The code is `DefaultUnary(AsWritten)`; `DefaultUnary(Mended)`
      is the same chain with the OK status mended. */
  function DefaultUnary(t: Translation): (c: seq<Interceptor>)
    ensures |c| == 4 && c[0] == Recovery && c[|c| - 1] == UnaryErrors(t)
  {
    [Recovery, UnaryValidator, UnaryAuth, UnaryErrors(t)]
  }

  /** `WithDefault`'s stream chain: the same without auth. */
  function DefaultStream(t: Translation): (c: seq<Interceptor>)
    ensures |c| == 3 && c[0] == Recovery && c[|c| - 1] == StreamErrors(t)
  {
    [Recovery, StreamValidator, StreamErrors(t)]
  }

  /** The default unary chain, unfolded: an invalid request is refused before
      anything else runs; a panic anywhere inside becomes "server panic"; the
      handler receives the call with the identity attached, and its result is
      translated on the way out. */
  lemma {:induction false} DefaultUnaryBehaviour(t: Translation, w: World, call: Call, handler: Call -> HandlerOutcome)
    ensures call.request.validationError.Some? ==>
      Run(DefaultUnary(t), w, call, handler) == Returned(InvalidArgumentReply(call.request.validationError.value))
    ensures call.request.validationError.None? && !CidReadable(call.ctx) ==>
      Run(DefaultUnary(t), w, call, handler) == Returned(Reply(None, Some(ServerPanic), []))
    ensures call.request.validationError.None? && CidReadable(call.ctx) ==>
      var inner := call.(ctx := WithUserInfoContext(call.ctx));
      && HandlerCall(DefaultUnary(t), w, call) == Some(inner)
      && Run(DefaultUnary(t), w, call, handler)
         == Recover(UnaryErrorInterceptor(t, FromHandler(handler(inner)), w.encodable))
  {
  }

  /** The default unary chain never lets a panic escape. A handler error
      comes back as success exactly when the translation swallows it: as
      written, a service error whose status is OK; once mended, never. */
  lemma DefaultUnaryNeverPanicsNorSwallows(t: Translation, w: World, call: Call, handler: Call -> HandlerOutcome)
    ensures Run(DefaultUnary(t), w, call, handler).Returned?
    ensures HandlerCall(DefaultUnary(t), w, call).Some? && handler(HandlerCall(DefaultUnary(t), w, call).value).Err? ==>
      var e := handler(HandlerCall(DefaultUnary(t), w, call).value).e;
      (Run(DefaultUnary(t), w, call, handler).reply.err.None? <==> Swallows(t, e))
  {
  }

  /** A handler panic on a valid request reaches the caller as the single
      "server panic" internal error. */
  lemma DefaultUnaryHandlerPanic(t: Translation, w: World, call: Call, handler: Call -> HandlerOutcome)
    requires HandlerCall(DefaultUnary(t), w, call).Some?
    requires handler(HandlerCall(DefaultUnary(t), w, call).value).Panic?
    ensures Run(DefaultUnary(t), w, call, handler) == Returned(Reply(None, Some(ServerPanic), []))
  {
  }

  /** A service error from the handler reaches the caller as its translation,
      with the error metadata as trailer. */
  lemma DefaultUnaryServiceError(t: Translation, w: World, call: Call, handler: Call -> HandlerOutcome,
                                 se: ServiceError)
    requires HandlerCall(DefaultUnary(t), w, call).Some?
    requires handler(HandlerCall(DefaultUnary(t), w, call).value) == Err(Service(se))
    ensures Run(DefaultUnary(t), w, call, handler)
         == Returned(Reply(None, Translate(t, se, w.encodable(DetailOf(se))), [ErrorMetadata(se)]))
  {
  }

  /** As written, the default unary chain turns a handler's service error
      with an OK status into a success with no response and only the error
      metadata as trailer. The mended chain reports it as an error. */
  lemma DefaultUnarySwallowsOkServiceError(w: World, call: Call, handler: Call -> HandlerOutcome, se: ServiceError)
    requires HandlerCall(DefaultUnary(AsWritten), w, call).Some?
    requires handler(HandlerCall(DefaultUnary(AsWritten), w, call).value) == Err(Service(se))
    requires se.status == OK
    ensures Run(DefaultUnary(AsWritten), w, call, handler) == Returned(Reply(None, None, [ErrorMetadata(se)]))
    ensures Run(DefaultUnary(Mended), w, call, handler).reply.err.Some?
  {
  }

  /** The default stream chain hands the call on unchanged, never lets a
      panic escape, and translates service errors without trailers. */
  lemma {:induction false} DefaultStreamBehaviour(t: Translation, w: World, call: Call, handler: Call -> HandlerOutcome)
    ensures HandlerCall(DefaultStream(t), w, call) == Some(call)
    ensures Run(DefaultStream(t), w, call, handler)
         == Recover(StreamErrorInterceptor(t, FromHandler(handler(call)), w.encodable))
    ensures Run(DefaultStream(t), w, call, handler).Returned?
  {
  }

  /** A blocked call gets the maintenance error and the context, whatever the
      rest of the chain and the handler would have done. */
  lemma BlockedCallSkipsHandler(config: MaintenanceConfig, w: World, call: Call,
                                rest: seq<Interceptor>, handler: Call -> HandlerOutcome)
    requires MaintenanceBlocks(config, w, call)
    ensures Run([UnaryMaintenance(config)] + rest, w, call, handler) == Returned(BlockedReply)
    ensures HandlerCall([UnaryMaintenance(config)] + rest, w, call).None?
  {
  }

  /** An allowed call passes the gate untouched: the rest of the chain, and
      the handler, see exactly the original call. */
  lemma AllowedCallIsTransparent(config: MaintenanceConfig, w: World, call: Call,
                                 rest: seq<Interceptor>, handler: Call -> HandlerOutcome)
    requires !MaintenanceBlocks(config, w, call)
    ensures Run([UnaryMaintenance(config)] + rest, w, call, handler) == Run(rest, w, call, handler)
    ensures HandlerCall([UnaryMaintenance(config)] + rest, w, call) == HandlerCall(rest, w, call)
  {
  }

  /** A remote-config fetch that fails with HTTP 500 leaves the call to the handler. */
  lemma FetchFailureAllows(config: MaintenanceConfig, w: World, call: Call, handler: Call -> HandlerOutcome)
    requires forall key :: w.fetch(key).statusCode == 500
    ensures Run([UnaryMaintenance(config)], w, call, handler) == FromHandler(handler(call))
  {
  }

  /** "Pay" is the method of feature "billing", which is "MAINTENANCE" in
      "prod": the caller receives the maintenance error and the handler does
      not run. */
  lemma PayScenario(w: World, call: Call, handler: Call -> HandlerOutcome)
    requires w.token.Some?
    requires w.fetch("billing") == HttpResponse(StatusOK, OneFlagConfig("billing", "prod", "MAINTENANCE"))
    requires call.fullMethod == "Pay" && call.request.billPayment.None?
    ensures
      var config := MaintenanceConfig("prod", map["billing" := "Pay"], map[]);
      Run([UnaryMaintenance(config)], w, call, handler) == Returned(BlockedReply)
  {
  }
}
