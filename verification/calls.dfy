/** What an interceptor sees of a unary call: the request, the handler's
    outcome, and the reply that travels back out. */
module Calls {
  import opened Wrappers
  import opened ServiceErrors
  import opened CallContext
  import opened RemoteConfig

  /** A response value. `ContextEcho` is the call's own context placed in the
      response slot, which the maintenance gate returns next to its error. */
  datatype Payload = Message(id: nat) | ContextEcho

  /** What an interceptor returns: a response, an error, and the trailer
      metadata set on the call, in the order it was set. */
  datatype Reply = Reply(resp: Option<Payload>, err: Option<Error>, trailers: seq<map<string, string>>)

  /** A call either returns a reply or unwinds with a panic. */
  datatype Outcome = Returned(reply: Reply) | Panicked

  /** What a business handler does. */
  datatype HandlerOutcome = Ok(resp: Payload) | Err(e: Error) | Panic

  function FromHandler(h: HandlerOutcome): (o: Outcome)
    ensures o.Panicked? <==> h.Panic?
    ensures o.Returned? ==> o.reply.trailers == [] && (o.reply.err.Some? <==> h.Err?)
  {
    match h
    case Ok(p) => Returned(Reply(Some(p), None, []))
    case Err(e) => Returned(Reply(None, Some(e), []))
    case Panic => Panicked
  }

  /** The request payload, seen through the two lenses the interceptors use:
      the message's own validation verdict (`Validate()`, if it has one) and
      its coercion to the bill-payment shape (`None` when that fails). */
  datatype Request = Request(validationError: Option<string>, billPayment: Option<BillPaymentRequest>)

  /** A unary call: the full method name, the context and the request. */
  datatype Call = Call(fullMethod: string, ctx: Context, request: Request)
}
