/** The remote identity service as the handlers see it: the requests they
    build, the outcome of one call, and the conversion of a response message
    into the dictionary a handler returns. */
module Rpc {
  import opened Values

  /** The gRPC status codes an `AioRpcError` can carry (every code except OK). */
  datatype StatusCode =
    | Cancelled | Unknown | InvalidArgument | DeadlineExceeded | NotFound
    | AlreadyExists | PermissionDenied | ResourceExhausted | FailedPrecondition
    | Aborted | OutOfRange | Unimplemented | Internal | Unavailable | DataLoss
    | Unauthenticated

  /** What awaiting one remote call yields: the response message, or the
      error it raised with its status code and its details string. */
  datatype Outcome<+R> = Ok(resp: R) | Err(code: StatusCode, details: string)

  /** The details string of a failed call, None for a successful one. */
  function FailureDetails<R>(o: Outcome<R>): Option<string> {
    match o
    case Ok(_) => None
    case Err(_, d) => Some(d)
  }

  /** The outbound request messages, one constructor per protobuf request type. */
  datatype Request =
    | BearerTokenRequest(email: string, password: string)
    | Token(token: string)
    | RegisterRequest(fields: Kwargs)
    | VerifyUserTokenRequest(email: string)
    | ResetPasswordTokenRequest(email: string)
    | ResetPasswordRequest(token: string, password: string)
    | UpdateUserRequest(token: string, fields: Kwargs)

  /** One invocation of a named remote operation. */
  datatype RpcCall = RpcCall(operation: string, request: Request)

  /** The response of VerifyUserToken and ResetPasswordToken. */
  datatype TokenWithEmail = TokenWithEmail(token: string, email: string, firstName: string, lastName: string)

  /** The dictionary `MessageToDict` makes of a response, field names kept as
      declared. With `includeDefaults` every field is present; without it a
      field still at its default value is dropped. */
  function ToDict(m: Message, includeDefaults: bool): (d: map<string, Scalar>)
    ensures forall k :: k in d ==> k in m && d[k] == m[k]
    ensures forall k :: k in m ==> (k in d <==> includeDefaults || !IsDefault(m[k]))
  {
    map k | k in m && (includeDefaults || !IsDefault(m[k])) :: m[k]
  }

  /** With defaults included the dictionary is the whole message: a client
      can tell "present but empty" from "absent". */
  lemma ToDictWithDefaultsKeepsEveryField(m: Message)
    ensures ToDict(m, true) == m
  {
  }
}
