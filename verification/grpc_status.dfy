/** The observable part of gRPC's status machinery (`codes`, `status`) and
    of the package's own `Error` detail message, as the interceptors use them. */
module GrpcStatus {
  import opened Wrappers

  /** A gRPC `codes.Code`: the valid codes are 0 (OK) through 16 (Unauthenticated). */
  type Code = c: int | 0 <= c <= 16

  const OK: Code := 0
  const Unknown: Code := 2
  const InvalidArgument: Code := 3
  const Internal: Code := 13

  /** The structured detail `{Code, Message, Attributes}` attached to a status. */
  datatype ErrorDetail = ErrorDetail(code: string, message: string, attributes: map<string, string>)

  /** A gRPC status: a code, a message and at most one attached detail. */
  datatype Status = Status(code: Code, message: string, detail: Option<ErrorDetail>)

  /** `(*Status).WithDetails`: refuses a status whose code is OK, and fails
      when the detail cannot be encoded (`encodable` is the outcome of the
      protobuf encoding, which is outside this model). */
  function WithDetails(st: Status, d: ErrorDetail, encodable: bool): (r: Option<Status>)
    ensures r.Some? <==> st.code != OK && encodable
    ensures r.Some? ==> r.value == st.(detail := Some(d))
  {
    if st.code == OK || !encodable then None else Some(st.(detail := Some(d)))
  }
}
