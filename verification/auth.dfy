/** `auth/auth.go`: attaching the caller's identity to the request context,
    from gRPC metadata or from HTTP headers. */
module Auth {
  import opened Wrappers
  import opened AsciiText
  import opened TextSplit
  import opened CallContext

  const Bearer: string := "bearer"
  const AuthorizationHeader: string := "authorization"
  const JwtPayloadHeader: string := "jwtpayload"
  const CidHeader: string := "cID"

  /** `header` is `<scheme> <token>`: one space, and a scheme that folds to "bearer". */
  predicate IsBearerHeader(header: string, scheme: string, token: string)
  {
    && header == scheme + " " + token
    && ' ' !in scheme
    && ' ' !in token
    && EqualFold(scheme, Bearer)
  }

  /** `token` is `<header>.<payload>.<signature>`: exactly two dots. */
  predicate IsThreePartToken(token: string, header: string, payload: string, signature: string)
  {
    && token == header + "." + payload + "." + signature
    && '.' !in header
    && '.' !in payload
    && '.' !in signature
  }

  /** `extractTokenFromAuthHeader`: the token of a bearer header, if it is one. */
  function ExtractTokenFromAuthHeader(header: string): (r: Option<string>)
    ensures r.Some? ==> exists scheme :: IsBearerHeader(header, scheme, r.value)
    ensures r.Some? ==> Count(header, ' ') == 1
  {
    var parts := Split(header, ' ');
    if |parts| != 2 || !EqualFold(parts[0], Bearer) then None
    else
      JoinTwo(parts, ' ');
      assert IsBearerHeader(header, parts[0], parts[1]);
      Some(parts[1])
  }

  /** Every well-formed bearer header yields its token: a double space, a
      missing space or another scheme is what makes extraction fail. */
  lemma ExtractTokenComplete(header: string, scheme: string, token: string)
    requires IsBearerHeader(header, scheme, token)
    ensures ExtractTokenFromAuthHeader(header) == Some(token)
  {
    SplitTwo(scheme, token, ' ');
  }

  /** `extractPayloadFromToken`: the middle segment of a three-segment token. */
  function ExtractPayloadFromToken(token: string): (r: Option<string>)
    ensures r.Some? <==> Count(token, '.') == 2
    ensures r.Some? ==> exists h, s :: IsThreePartToken(token, h, r.value, s)
  {
    var parts := Split(token, '.');
    if |parts| != 3 then None
    else
      JoinThree(parts, '.');
      assert IsThreePartToken(token, parts[0], parts[1], parts[2]);
      Some(parts[1])
  }

  /** Every three-segment token yields its middle segment, verbatim. */
  lemma ExtractPayloadComplete(token: string, header: string, payload: string, signature: string)
    requires IsThreePartToken(token, header, payload, signature)
    ensures ExtractPayloadFromToken(token) == Some(payload)
  {
    SplitThree(header, payload, signature, '.');
  }

  /** `withUserInfo`: the payload is stored verbatim under the identity key;
      nothing is decoded and no other key changes. */
  function WithUserInfo(ctx: Context, payload: string): (r: Context)
    ensures CtxCID in r.values && r.values[CtxCID] == Str(payload)
    ensures GetContextAsString(r, CtxCID) == payload
    ensures r.values - {CtxCID} == ctx.values - {CtxCID}
    ensures r.incoming == ctx.incoming
  {
    WithValue(ctx, CtxCID, Str(payload))
  }

  /** Indexing the first `cID` value is safe: the list is not empty. */
  predicate CidReadable(ctx: Context)
  {
    ctx.incoming.Some? && CidHeader in ctx.incoming.value ==> |ctx.incoming.value[CidHeader]| > 0
  }

  /** `WithUserInfoContext`: on a gRPC call, the first `cID` metadata value
      becomes the caller identity; without incoming metadata or without a
      `cID` entry the context is returned as it was. The `jwtpayload` and
      bearer fallbacks are not consulted on this path. */
  function WithUserInfoContext(ctx: Context): (r: Context)
    requires CidReadable(ctx)
    ensures ctx.incoming.None? ==> r == ctx
    ensures ctx.incoming.Some? && CidHeader !in ctx.incoming.value ==> r == ctx
    ensures ctx.incoming.Some? && CidHeader in ctx.incoming.value ==>
      CtxCID in r.values && r.values[CtxCID] == Str(ctx.incoming.value[CidHeader][0])
    ensures r.values - {CtxCID} == ctx.values - {CtxCID}
    ensures r.incoming == ctx.incoming
  {
    match ctx.incoming
    case None => ctx
    case Some(md) =>
      if CidHeader in md then WithUserInfo(ctx, md[CidHeader][0]) else ctx
  }

  /** On the gRPC path an authorization header alone attaches nothing. */
  lemma GrpcIgnoresAuthorizationHeader(ctx: Context, md: Metadata)
    requires ctx.incoming == Some(md)
    requires AuthorizationHeader in md && JwtPayloadHeader in md && CidHeader !in md
    ensures WithUserInfoContext(ctx) == ctx
  {
  }

  /** An HTTP request as the identity code sees it: its header values by name,
      and its context. */
  datatype HttpRequest = HttpRequest(headers: map<string, seq<string>>, ctx: Context)

  /** `Header.Get`: the first value of a header, or "" if there is none. */
  function HeaderGet(req: HttpRequest, name: string): (v: string)
    ensures v != "" ==> name in req.headers && |req.headers[name]| > 0 && req.headers[name][0] == v
    ensures name in req.headers && |req.headers[name]| > 0 ==> v == req.headers[name][0]
  {
    if name in req.headers && |req.headers[name]| > 0 then req.headers[name][0] else ""
  }

  /** `WithUserInfoRequestContext`: a non-empty `jwtpayload` header is stored
      as is; otherwise the middle segment of a bearer token in
      `authorization`; on any failure the request comes back unchanged. */
  function WithUserInfoRequestContext(req: HttpRequest): (r: HttpRequest)
    ensures r.headers == req.headers
    ensures r.ctx.values - {CtxCID} == req.ctx.values - {CtxCID}
    ensures r.ctx.incoming == req.ctx.incoming
    ensures HeaderGet(req, JwtPayloadHeader) != "" ==>
      CtxCID in r.ctx.values && r.ctx.values[CtxCID] == Str(HeaderGet(req, JwtPayloadHeader))
    ensures HeaderGet(req, JwtPayloadHeader) == "" && HeaderGet(req, AuthorizationHeader) == "" ==> r == req
    ensures HeaderGet(req, JwtPayloadHeader) == "" && ExtractTokenFromAuthHeader(HeaderGet(req, AuthorizationHeader)).None? ==> r == req
  {
    var payloadHeader := HeaderGet(req, JwtPayloadHeader);
    if |payloadHeader| > 0 then
      req.(ctx := WithUserInfo(req.ctx, payloadHeader))
    else
      var authHeader := HeaderGet(req, AuthorizationHeader);
      if |authHeader| > 0 then
        match ExtractTokenFromAuthHeader(authHeader)
        case Some(token) =>
          (match ExtractPayloadFromToken(token)
           case Some(payload) => req.(ctx := WithUserInfo(req.ctx, payload))
           case None => req)
        case None => req
      else req
  }

  /** With no `jwtpayload` header, a `Bearer <h>.<p>.<s>` authorization header
      attaches exactly `p`, even when `p` is empty, and changes nothing else. */
  lemma HttpBearerIdentity(req: HttpRequest, scheme: string, h: string, p: string, s: string)
    requires HeaderGet(req, JwtPayloadHeader) == ""
    requires IsBearerHeader(HeaderGet(req, AuthorizationHeader), scheme, h + "." + p + "." + s)
    requires '.' !in h && '.' !in p && '.' !in s
    ensures WithUserInfoRequestContext(req) == req.(ctx := WithUserInfo(req.ctx, p))
    ensures WithUserInfoRequestContext(req).ctx.values[CtxCID] == Str(p)
  {
    var token := h + "." + p + "." + s;
    ExtractTokenComplete(HeaderGet(req, AuthorizationHeader), scheme, token);
    ExtractPayloadComplete(token, h, p, s);
  }

  /** With no `jwtpayload` header, a bearer token whose segment count is not
      three leaves the request unchanged. */
  lemma HttpMalformedTokenUnchanged(req: HttpRequest, scheme: string, token: string)
    requires HeaderGet(req, JwtPayloadHeader) == ""
    requires IsBearerHeader(HeaderGet(req, AuthorizationHeader), scheme, token)
    requires Count(token, '.') != 2
    ensures WithUserInfoRequestContext(req) == req
  {
    ExtractTokenComplete(HeaderGet(req, AuthorizationHeader), scheme, token);
  }

  /** A non-empty `jwtpayload` header wins: the authorization header, whatever
      it holds, makes no difference. */
  lemma JwtPayloadTakesPrecedence(req: HttpRequest, authValues: seq<string>)
    requires HeaderGet(req, JwtPayloadHeader) != ""
    ensures
      var other := req.(headers := req.headers[AuthorizationHeader := authValues]);
      WithUserInfoRequestContext(other).ctx == WithUserInfoRequestContext(req).ctx
  {
  }
}
