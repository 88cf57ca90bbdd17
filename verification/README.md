# Request interception pipeline: a verified model

This project models, in Dafny, the decision logic of the gRPC
request-interception pipeline in `budhip/common`:

- **Maintenance gate.** It asks the remote-config document whether the
  called feature is under maintenance in the configured environment. If it
  is, it answers the call with `ServiceError{Code: "MAINTENANCE", Status:
  Internal}` and does not run the handler. It fails open: a missing token or
  a non-200 fetch lets the call through, and so does a body that is not JSON,
  which leaves an empty document. A body with a field of the wrong type is
  still partly decoded, and the flags that did decode are checked.
- **Error translator.** It turns a `ServiceError` leaving the handler into a
  gRPC status that carries `{Code, Message, Attributes}` as a detail. On
  unary calls it also sets trailer metadata. Every other error passes
  through unchanged.
- **Identity extraction.** It stores the caller identity in the request
  context. On gRPC calls it reads the `cID` metadata value. On HTTP requests
  it reads the `jwtpayload` header, or else the middle segment of a
  `Bearer <h>.<p>.<s>` authorization header.
- **Context lookup.** It reads a context value as a string, with `""` as the
  default.
- **Chaining.** Interceptors are chained with the first one outermost. The
  default unary chain is recovery, validator, auth, error translator. The
  default stream chain is the same without auth.

Everything is modelled as immutable datatypes and pure functions:

| file | module | source |
|---|---|---|
| `wrappers.dfy` | `Wrappers` | `Option`, standing in for nil and missing entries |
| `ascii.dfy` | `AsciiText` | `strings.ToUpper` and `strings.EqualFold`, ASCII only |
| `text_split.dfy` | `TextSplit` | `strings.Split` on a one-character separator, with its inverse `Join` |
| `grpc_status.dfy` | `GrpcStatus` | gRPC codes (0..16), status, `WithDetails` |
| `service_error.dfy` | `ServiceErrors` | `error/error.go`; errors as a sum type; `errors.As` looks through wrapping |
| `remote_config.dfy` | `RemoteConfig` | `remoteconfig/payload.go` |
| `call_context.dfy` | `CallContext` | `context/context.go` |
| `auth.dfy` | `Auth` | `auth/auth.go` |
| `calls.dfy` | `Calls` | the reply and outcome vocabulary of a unary call |
| `error_translator.dfy` | `ErrorTranslator` | `grpc/interceptor.go` lines 30-100 |
| `maintenance_gate.dfy` | `MaintenanceGate` | `grpc/interceptor.go` lines 125-177 and 274-362 |
| `interceptor_chain.dfy` | `InterceptorChain` | `grpc/interceptor.go` lines 102-123 and 179-255 |

Modelling choices:

- **Inputs instead of I/O.** The network and library stages become inputs,
  gathered in `InterceptorChain.World`:
  - the service-account token, as an `Option` (`None` when the exchange
    failed);
  - the response to each remote-config fetch: an HTTP status and the
    decoded document;
  - whether a detail message can be protobuf-encoded.

  The decoded document is whatever `json.Unmarshal` left behind. The Go code
  logs a decode error and carries on with that value. A body that is not JSON
  leaves the zero-value document, which has no flags. An ordinary field of
  the wrong type is skipped and the rest is decoded, so its flags can still
  block. A malformed `version.updateTime` stops decoding where it stands, so
  the fields after it stay zero. Either way the gate reads whatever was
  decoded.
- **One fetch per checked entry.** The code visits the `serviceMap` entries
  whose value is the called method and fetches once for each, stopping at the
  first one that blocks. The model therefore indexes fetch responses by the
  entry's key, which is the feature name.
- **`serviceMap` direction.** The code treats `serviceMap` as feature name →
  full method name. It compares each entry's value with `FullMethod` and
  passes the key on as the feature. The model follows the code.
- **Map loops.** The loops over feature flags and over a flag's environments
  return at the first key that matches. Map keys are unique, so each of
  them is a keyed lookup (`CheckTransactionService`,
  `CheckBillPaymentService`). The loop over `serviceMap` is different: it
  matches on the value, which can repeat, and returns only at a matching
  entry that blocks. So it is a "some entry naming the method blocks"
  decision (`Blocks`). The model also runs every loop as the code does,
  choosing keys in an arbitrary order (the `...Loop` methods and
  `MaintenanceCheck`), and proves each agrees with its definition.
- **Bill-payment coercion.** The request's coercion to `BillPaymentRequest`
  is an input `Option<BillPaymentRequest>`. `Some` holds whatever
  `mapstructure.Decode` filled in, which includes the fields that did decode
  when another one failed. `None` stands for a request from which nothing
  decoded: the zero value, with product type 0.
- **Unknown identity-key name.** `CtxCID` is used by `auth/auth.go` but its
  declaration is not part of this model. It is given the name `"cID"`, which
  differs from the five declared keys.
- **Empty `cID` list.** Reading `md["cID"][0]` on an empty list panics in Go.
  `Auth.WithUserInfoContext` therefore requires a non-empty list. In the
  chain, the auth interceptor turns that case into a panic, which recovery
  catches.
- **Translation as written or mended.** The error interceptors take a
  `Translation`. `AsWritten` applies `grpcError` as the code does, so an OK
  status swallows the error (see "## Findings"). `Mended` applies the
  corrected translation. `DefaultUnary(AsWritten)` and
  `DefaultStream(AsWritten)` are the chains of `WithDefault`. The `Mended`
  chains are the corrected program.
- **Interceptors as two steps.** An interceptor has an inbound step, which
  either answers the call (`ShortCircuit`) or passes a call inwards
  (`Continue`). It has an outbound step that may rework the outcome. A
  handler returns `Ok(resp)`, `Err(e)` or `Panic`.
- **Stream validation.** The stream validator checks each message as the
  handler receives it. So on a stream it never answers before the handler.
- **Single-purpose option sets.** The stand-alone recovery interceptors and
  the single-purpose option sets (`WithRecovery`, `WithValidation`,
  `WithErrorDetails`) are one-element chains of the same interceptors:
  `[Recovery]`, `[UnaryValidator]` and `[UnaryErrors(AsWritten)]`, or their
  stream counterparts.
- **Blocked reply.** When the maintenance gate blocks, it returns the call's
  context in the response slot next to the error (`return ctx,
  errMaintenance`). The model keeps this as `ContextEcho`.

## Model

| member | source | states |
|---|---|---|
| `AsciiText.ToUpper` | grpc/interceptor.go:318 | upper-casing keeps the length, leaves no lower-case letter, and changes nothing but case |
| `AsciiText.EqualFold` | auth/auth.go:28 | two texts that fold equal have the same length, and every text folds equal to itself |
| `AsciiText.EqualFoldIffSameUpper` | grpc/interceptor.go:318 | comparing upper-cased text and folding case are the same relation |
| `AsciiText.UpperMatchesSentinelIffFolds` | grpc/interceptor.go:318 | for an all-upper-case sentinel, `ToUpper(v) == sentinel` holds exactly when `v` is a case variant of it |
| `TextSplit.Split` | auth/auth.go:27 | splitting gives one more part than there are separators, no part holds the separator, and joining the parts gives the input back |
| `TextSplit.SplitJoin` | auth/auth.go:36 | separator-free parts come back unchanged from splitting their join, so the split is unique |
| `TextSplit.SplitTwo` | auth/auth.go:27-28 | `a + " " + b` without further spaces splits into exactly `[a, b]` |
| `TextSplit.SplitThree` | auth/auth.go:36-41 | `a.b.c` without further dots splits into exactly `[a, b, c]` |
| `GrpcStatus.WithDetails` | grpc/interceptor.go:54-57 | attaching a detail succeeds exactly when the code is not OK and the detail encodes, and adds only that detail |
| `ServiceErrors.ErrorDependsOnlyOnMessage` | error/error.go:12-14 | `Error()` of two service errors agrees exactly when their messages agree, whatever their status, code and attributes |
| `ServiceErrors.ServiceError.Error` | error/error.go:12-14 | the text of a service error is its message |
| `ServiceErrors.AsServiceError` | grpc/interceptor.go:67-68 | a service error is found as itself; a status error or an opaque error holds none; a wrapper yields exactly what the error it wraps yields |
| `ServiceErrors.AsServiceErrorSeesThroughWrapping` | grpc/interceptor.go:67-68 | `errors.As` finds a service error under any number of wrappings |
| `RemoteConfig.CoerceBillPayment` | grpc/interceptor.go:355-362 | a decoded request is used as is; a failed coercion gives product type 0 and an empty provider |
| `RemoteConfig.MaintenanceMessageIsSentinel` | remoteconfig/payload.go:5-6 | the maintenance message equals the maintenance sentinel |
| `RemoteConfig.MaintenanceMatchIgnoresCase` | remoteconfig/payload.go:5 | the sentinel is a fixed point of `ToUpper`, and a stored status matches it exactly when it is a case variant of "MAINTENANCE" |
| `RemoteConfig.EmptyConfigHasNoFlags` | grpc/interceptor.go:292-297 | the zero-value document, left when the body is not JSON, has no feature flags |
| `CallContext.ContextKey.String` | context/context.go:9-11 | a key's string is its name: the key is rebuilt from it |
| `CallContext.WithValue` | auth/auth.go:56 | storing sets the key to the value and leaves every other key and the metadata alone |
| `CallContext.GetContextAsString` | context/context.go:27-36 | a non-empty result is the string stored under the key, and a stored string is always returned |
| `CallContext.KeysDistinct` | context/context.go:13-24 | the five declared keys and the identity key are pairwise distinct |
| `CallContext.LookupAfterStore` | context/context.go:27-36 | a stored string reads back under its key, and lookups under every other key are unchanged |
| `CallContext.LookupOfNonString` | context/context.go:29-35 | a value that is not a string reads as "" |
| `CallContext.MobileLookupAfterNonStringUserId` | context/context_test.go:8-15 | with an int under the user id and a phone number under the mobile key, the mobile lookup returns the number and the user-id lookup returns "" |
| `Auth.ExtractTokenFromAuthHeader` | auth/auth.go:26-33 | a returned token comes from a header of the form `<scheme> <token>` with exactly one space and a scheme that folds to "bearer" |
| `Auth.ExtractTokenComplete` | auth/auth.go:26-33 | every header of that form yields its token |
| `Auth.ExtractPayloadFromToken` | auth/auth.go:35-42 | extraction succeeds exactly when the token has two dots, and the result is the dot-free middle segment |
| `Auth.ExtractPayloadComplete` | auth/auth.go:35-42 | every `<h>.<p>.<s>` token with dot-free segments yields `p` verbatim |
| `Auth.WithUserInfo` | auth/auth.go:44-57 | the payload is stored verbatim under the identity key, and no other key changes |
| `Auth.WithUserInfoContext` | auth/auth.go:59-93 | without metadata or without a `cID` entry the context is unchanged; otherwise the first `cID` value, even an empty one, is stored under the identity key and nothing else changes |
| `Auth.GrpcIgnoresAuthorizationHeader` | auth/auth.go:65-90 | on the gRPC path, `authorization` and `jwtpayload` headers alone attach nothing |
| `Auth.HeaderGet` | auth/auth.go:99 | a header with a value reads as its first value, and a non-empty read always comes from such a header |
| `Auth.WithUserInfoRequestContext` | auth/auth.go:95-121 | a non-empty `jwtpayload` header is stored under the identity key; with no usable bearer header the request is unchanged; headers and other context keys never change |
| `Auth.HttpBearerIdentity` | auth/auth.go:103-120 | without `jwtpayload`, `Bearer <h>.<p>.<s>` stores exactly `p`, even an empty `p`, and changes nothing else |
| `Auth.HttpMalformedTokenUnchanged` | auth/auth.go:105-110 | without `jwtpayload`, a bearer token whose segment count is not three leaves the request unchanged |
| `Auth.JwtPayloadTakesPrecedence` | auth/auth.go:99-101 | with a non-empty `jwtpayload` header, the authorization header makes no difference |
| `ErrorTranslator.ErrorMetadata` | grpc/interceptor.go:35-45 | the trailer holds `error_code`, `error_message` and every attribute; attributes win over a reserved key they reuse |
| `ErrorTranslator.StatusErr` | grpc/interceptor.go:56-58 | a status yields no error exactly when its code is OK |
| `ErrorTranslator.GrpcErrorAsWritten` | grpc/interceptor.go:47-59 | as written: no error exactly when the status is OK; otherwise a status with the same code and message, carrying the detail exactly when it encodes |
| `ErrorTranslator.OkStatusIsSwallowed` | grpc/interceptor.go:47-59 | a service error with status OK translates to no error |
| `ErrorTranslator.WireCode` | grpc/interceptor.go:53 | the wire code is never OK and equals every code that is not OK |
| `ErrorTranslator.GrpcError` | grpc/interceptor.go:47-59 | always an error status with the message, with the service error's code unless that is OK, carrying the detail exactly when it encodes; agrees with the code as written wherever that returns an error |
| `ErrorTranslator.DetailRoundTrip` | grpc/interceptor.go:48-58 | decoding the attached detail gives back exactly `{Code, Message, Attributes}`; with no attachment there is none |
| `ErrorTranslator.Translate` | grpc/interceptor.go:74 | the translation loses the error exactly when it is the code as written and the status is OK; on every other status both translations give what the code gives |
| `ErrorTranslator.UnaryErrorInterceptor` | grpc/interceptor.go:62-82 | success passes unchanged; a non-service error is returned as the same value; a service error becomes its translation plus trailer; an error becomes success exactly when the code as written meets an OK status; panics pass through |
| `ErrorTranslator.StreamErrorInterceptor` | grpc/interceptor.go:85-100 | the same translation for streams, without trailers and with no response on an error, and the same single case in which an error becomes success |
| `ErrorTranslator.OkServiceErrorSwallowedByInterceptor` | grpc/interceptor.go:62-100 | as written, a service error with status OK leaves the unary interceptor as `(nil, nil)` with only the trailer, and the stream interceptor as nil; the mended translation keeps an error |
| `ErrorTranslator.NonServiceErrorPassesThrough` | grpc/interceptor.go:76-77 | an error with no service error in its wrap chain comes out as the identical value |
| `ErrorTranslator.TranslationIdempotent` | grpc/interceptor.go:62-82 | translating an already translated outcome changes nothing, for every outcome and under either translation |
| `MaintenanceGate.InMaintenanceIgnoresCase` | grpc/interceptor.go:317-318 | the upper-case status test is the same as a case-insensitive match of "MAINTENANCE" |
| `MaintenanceGate.CheckTransactionService` | grpc/interceptor.go:313-330 | blocks, with the maintenance error, exactly when the feature is a flag whose status in the environment folds to "MAINTENANCE" |
| `MaintenanceGate.CheckBillPaymentService` | grpc/interceptor.go:332-353 | blocks exactly when the product type is mapped, names a present flag, and that flag is under maintenance in the environment |
| `MaintenanceGate.EnvironmentLoop` | grpc/interceptor.go:317-325 | the loop over environments finds maintenance exactly when the environment key is present with a maintenance status |
| `MaintenanceGate.CheckTransactionServiceLoop` | grpc/interceptor.go:313-330 | the loop over flags in any order gives the keyed-lookup result |
| `MaintenanceGate.CheckBillPaymentServiceLoop` | grpc/interceptor.go:332-353 | the loop over flags in any order gives the keyed-lookup result |
| `MaintenanceGate.WithFirebasePayloads` | grpc/interceptor.go:274-311 | product types 1..4 go to the bill-payment check, 0 to the transaction check for the entry's feature, and others are allowed |
| `MaintenanceGate.Blocks` | grpc/interceptor.go:136-172 | a block needs a token, an entry naming the method, and a fetch that answered 200 |
| `MaintenanceGate.MaintenanceCheck` | grpc/interceptor.go:125-177 | the loop over `serviceMap` blocks exactly when there is a token and some entry naming the method got a 200 response whose payload check blocks |
| `MaintenanceGate.UnmappedProductTypeAllows` | grpc/interceptor.go:299-310 | a non-zero product type with no mapping never blocks, whatever the config says |
| `MaintenanceGate.UncoercibleRequestUsesMethodFeature` | grpc/interceptor.go:299-308 | a request that does not coerce is checked against the entry's own feature |
| `MaintenanceGate.NoTokenAllows` | grpc/interceptor.go:136-138 | without a token nothing blocks |
| `MaintenanceGate.UnmappedMethodAllows` | grpc/interceptor.go:140-141 | a method that no entry names is never blocked |
| `MaintenanceGate.Non200Allows` | grpc/interceptor.go:161-171 | when no fetch answers 200, nothing blocks |
| `MaintenanceGate.OneFlagBlocks` | grpc/interceptor.go:313-324 | a flag whose status folds to "MAINTENANCE" in the environment blocks its feature |
| `MaintenanceGate.ProdMaintenanceScenario` | grpc/interceptor.go:313-330 | "X" under maintenance in "prod" blocks in "prod" and is allowed in "staging" |
| `MaintenanceGate.BillPaymentScenario` | grpc/interceptor.go:299-353 | product type 2 mapped to "Y" with status "maintenance" blocks; unmapped product type 7 is allowed |
| `InterceptorChain.Before` | grpc/interceptor.go:102-110 | an interceptor that passes the call on keeps its method and request |
| `InterceptorChain.After` | grpc/interceptor.go:62-100 | on the way out only recovery stops a panic, and no interceptor changes a success |
| `InterceptorChain.Run` | grpc/interceptor.go:240-255 | with recovery outermost no panic leaves the chain, and a handler's success reaches the caller exactly as returned; `HandlerRunsAtMostOnce` states how the handler is called |
| `InterceptorChain.Recover` | grpc/interceptor.go:192-203 | recovery never lets a panic out: a panic becomes the "server panic" internal error, anything else passes unchanged |
| `InterceptorChain.HandlerRunsAtMostOnce` | grpc/interceptor.go:240-255 | when an interceptor answers first the outcome does not depend on the handler; otherwise it depends only on the handler's result for the one call it receives |
| `InterceptorChain.DefaultUnary` | grpc/interceptor.go:240-248 | `WithDefault`'s unary chain has four interceptors, with recovery outermost and the error translator innermost, next to the handler |
| `InterceptorChain.DefaultStream` | grpc/interceptor.go:249-253 | `WithDefault`'s stream chain has three interceptors, with recovery outermost and the error translator innermost |
| `InterceptorChain.DefaultUnaryBehaviour` | grpc/interceptor.go:240-248 | the default unary chain refuses invalid requests first, turns an auth panic into "server panic", and otherwise runs the handler on the identity-annotated call and translates the result |
| `InterceptorChain.DefaultUnaryNeverPanicsNorSwallows` | grpc/interceptor.go:240-248 | the default unary chain never lets a panic escape; a handler error comes back as success exactly when the code as written meets a service error with status OK, and never once mended |
| `InterceptorChain.DefaultUnaryHandlerPanic` | grpc/interceptor.go:112-116 | a handler panic reaches the caller as the single "server panic" internal error |
| `InterceptorChain.DefaultUnaryServiceError` | grpc/interceptor.go:62-82 | a handler's service error reaches the caller as its translation, which is no error for status OK as written, with the error metadata as trailer |
| `InterceptorChain.DefaultUnarySwallowsOkServiceError` | grpc/interceptor.go:240-248 | as written, the default unary chain answers a handler's service error with status OK with `(nil, nil)` and only the error metadata as trailer; the mended chain answers with an error |
| `InterceptorChain.DefaultStreamBehaviour` | grpc/interceptor.go:249-253 | the default stream chain passes the call on unchanged, never lets a panic escape, and translates errors as the chosen translation does |
| `InterceptorChain.BlockedCallSkipsHandler` | grpc/interceptor.go:164-169 | a blocked call gets the context and the maintenance error, and the handler is never reached |
| `InterceptorChain.AllowedCallIsTransparent` | grpc/interceptor.go:175 | an allowed call reaches the rest of the chain and the handler exactly as it arrived |
| `InterceptorChain.FetchFailureAllows` | grpc/interceptor.go:161-175 | an HTTP 500 from the config fetch leaves the outcome to the handler |
| `InterceptorChain.PayScenario` | grpc/interceptor.go:125-177 | "Pay" mapped to "billing", under maintenance in "prod", is answered with the maintenance error and the handler does not run |

## Left out

- Network and library stages are taken as inputs: the OAuth2 token
  exchange, the HTTP GET, and reading and decoding the JSON body.
- A nil response after a failed `client.Do` is dereferenced. That is a
  crash, not a specified outcome, so it is not modelled.
- `mapstructure.Decode` reflection is reduced to an `Option` input.
- Of the go-grpc-middleware recovery and validator packages, only the
  observable results are modelled.
- `grpc.SetTrailer` is modelled as appending to the reply's trailer list.
  Its failure is only logged by the code, so it is not modelled.
- Protobuf encoding of the detail is an input predicate.
- Multi-error wrapping (`Unwrap() []error`, `errors.Join`, several `%w`
  verbs) is not modelled: an error wraps at most one other. `Other` stands
  for an error with no service error anywhere in its wrap tree.
- Logging (`log.Print*`, `logger/logger.go`) has no effect on any result.
- TLS and transport setup (`WithSecure`), the listening and signal handling
  in `grpc/server.go`, the HTTP middleware wrappers in `http/server.go`, and
  database connection setup are plumbing with no decision logic.
- Case folding covers ASCII only. `strings.ToUpper` and `strings.EqualFold`
  also fold non-ASCII letters.
- gRPC lowercases metadata keys, and the code looks up the mixed-case key
  `cID` verbatim. The model performs the same verbatim lookup and does not
  model the lowercasing, so it cannot show whether a `cID` entry can arrive
  at all. In the same way, HTTP header names are not canonicalised, and
  `Header.Get` is an exact lookup of the first value.
- `metadata.New` also lowercases trailer keys. `ErrorTranslator.ErrorMetadata`
  keeps attribute keys as given.
- The remote-config document's `conditions` and `version` blocks are never
  read by the gate, so they are left out.
- Integer widths do not matter here: the product type is only compared with
  0..5, and gRPC codes are kept in their valid range 0..16 by a subset type.

## Findings

| source | as written | input that shows it | evidently intended | confidence | as-written member | corrected member |
|---|---|---|---|---|---|---|
| grpc/interceptor.go:47-59 | `grpcError` builds `status.New(serviceError.Status, ...)`. gRPC's `WithDetails` refuses a status whose code is OK, and `Err()` of an OK status is nil. So a service error with status OK is translated into no error: the unary interceptor returns `(nil, nil)` and the caller sees success. | `ServiceError{Status: codes.OK, Code: "E", Message: "m"}` returned by a handler | the translator never swallows a handler error; a service error always reaches the caller as an error status. The correction puts `Unknown` on the wire in place of OK | medium (depends on grpc-go's status package); not executed | `ErrorTranslator.GrpcErrorAsWritten`, with `ErrorTranslator.OkStatusIsSwallowed`; at the interceptors and the chain, `ErrorTranslator.OkServiceErrorSwallowedByInterceptor` and `InterceptorChain.DefaultUnarySwallowsOkServiceError` | `ErrorTranslator.GrpcError`; at the chain, `InterceptorChain.DefaultUnaryNeverPanicsNorSwallows` with `Mended` |
