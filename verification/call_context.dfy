/** `context/context.go`: typed keys into the request-scoped context, and the
    string lookup handlers use to read caller identity. */
module CallContext {
  import opened Wrappers

  /** A `contextKey`: a named key, compared by name. */
  datatype ContextKey = ContextKey(name: string) {

    /** `String()`: the key's name, from which the key is rebuilt. */
    function String(): (s: string)
      ensures ContextKey(s) == this
    {
      name
    }
  }

  const CtxUserID: ContextKey := ContextKey("user_id")
  const CtxMobile: ContextKey := ContextKey("phone_number")
  const CtxName: ContextKey := ContextKey("name")
  const CtxEmail: ContextKey := ContextKey("email")
  const CtxUserInfo: ContextKey := ContextKey("user_info")

  /** The identity key the auth code writes to. Its declaration is not part
      of this model; the name given here only has to differ from the other five. */
  const CtxCID: ContextKey := ContextKey("cID")

  /** A context value: a string, or a value of any other Go type. */
  datatype Value = Str(s: string) | NonStr

  /** Incoming gRPC metadata: header name to its values. */
  type Metadata = map<string, seq<string>>

  /** A request context: the values stored in it and, on a gRPC call, the
      incoming metadata. */
  datatype Context = Context(values: map<ContextKey, Value>, incoming: Option<Metadata>)

  /** `context.WithValue`: the newest value under a key wins. */
  function WithValue(ctx: Context, key: ContextKey, v: Value): (r: Context)
    ensures key in r.values && r.values[key] == v
    ensures r.values - {key} == ctx.values - {key}
    ensures r.incoming == ctx.incoming
  {
    ctx.(values := ctx.values[key := v])
  }

  /** `GetContextAsString`: the stored string, or "" when the key is absent
      or holds a value that is not a string. */
  function GetContextAsString(ctx: Context, key: ContextKey): (r: string)
    ensures r != "" ==> key in ctx.values && ctx.values[key] == Str(r)
    ensures key in ctx.values && ctx.values[key].Str? ==> r == ctx.values[key].s
  {
    if key in ctx.values then
      match ctx.values[key]
      case Str(s) => s
      case NonStr => ""
    else ""
  }

  /** The six keys have pairwise distinct names. */
  lemma KeysDistinct()
    ensures |{CtxUserID, CtxMobile, CtxName, CtxEmail, CtxUserInfo, CtxCID}| == 6
  {
  }

  /** Storing a string under one key is read back under that key and leaves
      the lookup under every other key as it was. */
  lemma LookupAfterStore(ctx: Context, key: ContextKey, s: string, other: ContextKey)
    ensures GetContextAsString(WithValue(ctx, key, Str(s)), key) == s
    ensures other != key ==>
      GetContextAsString(WithValue(ctx, key, Str(s)), other) == GetContextAsString(ctx, other)
  {
  }

  /** A value that is not a string reads as "". */
  lemma LookupOfNonString(ctx: Context, key: ContextKey)
    ensures GetContextAsString(WithValue(ctx, key, NonStr), key) == ""
  {
  }

  /** An int under the user id and a phone number under the mobile key: the
      mobile lookup returns the number. */
  lemma MobileLookupAfterNonStringUserId(ctx: Context)
    ensures
      var c := WithValue(WithValue(ctx, CtxUserID, NonStr), CtxMobile, Str("081234567890"));
      GetContextAsString(c, CtxMobile) == "081234567890" && GetContextAsString(c, CtxUserID) == ""
  {
  }
}
