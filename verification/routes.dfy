/** The auth and user routes. Each handler is a pure function of its already
    validated input and of the outcome of the remote call it makes; it yields
    the calls it made, what it returns or raises, and the email jobs it added
    to the request's background tasks. */
module Routes {
  import opened Values
  import opened Rpc
  import opened Http
  import opened Email
  import opened UserUpdate

  /** Everything one handler invocation does that a caller can observe. */
  datatype Handled = Handled(calls: seq<RpcCall>, result: HttpResult, jobs: seq<EmailJob>)

  /** POST /auth/token/login. Any RPC failure becomes the generic
      incorrect-credentials error; a success returns the token response
      without its default-valued fields. */
  function Login(username: string, password: string, o: Outcome<Message>): (h: Handled)
    ensures h.calls == [RpcCall("BearerToken", BearerTokenRequest(username, password))]
    ensures h.jobs == []
    ensures o.Err? <==> h.result == IncorrectLoginCredentials
    ensures o.Ok? ==> h.result.Success? && h.result.status == HTTP_200_OK && h.result.body.Some?
    ensures o.Ok? ==> forall k :: k in h.result.body.value <==> k in o.resp && !IsDefault(o.resp[k])
    ensures o.Ok? ==> forall k :: k in h.result.body.value ==> h.result.body.value[k] == o.resp[k]
  {
    var call := RpcCall("BearerToken", BearerTokenRequest(username, password));
    match o
    case Ok(resp) => Handled([call], Success(HTTP_200_OK, Some(ToDict(resp, false))), [])
    case Err(_, _) => Handled([call], IncorrectLoginCredentials, [])
  }

  /** POST /auth/token/logout. The revoke call's outcome is ignored: every
      outcome yields the same empty success. */
  function Logout(token: string, o: Outcome<Message>): (h: Handled)
    ensures h.calls == [RpcCall("RevokeBearerToken", Token(token))]
    ensures h.result == Success(HTTP_200_OK, None)
    ensures h.jobs == []
  {
    Handled([RpcCall("RevokeBearerToken", Token(token))], Success(HTTP_200_OK, None), [])
  }

  /** The shared shape of register, verify and update-user: a success
      returns the whole response message, every field present; a failure
      raises BadRequest carrying the details string unchanged. */
  function UserRecordResult(o: Outcome<Message>, successStatus: nat): (r: HttpResult)
    ensures o.Err? <==> r.BadRequest?
    ensures o.Err? ==> r.detail == o.details
    ensures o.Ok? ==> r == Success(successStatus, Some(o.resp))
  {
    match o
    case Ok(resp) =>
      ToDictWithDefaultsKeepsEveryField(resp);
      Success(successStatus, Some(ToDict(resp, true)))
    case Err(_, details) => BadRequest(details)
  }

  /** POST /auth/register, status 201 on success. */
  function Register(data: Kwargs, o: Outcome<Message>): (h: Handled)
    ensures h.calls == [RpcCall("Register", RegisterRequest(data))]
    ensures h.jobs == []
    ensures o.Ok? ==> h.result == Success(HTTP_201_CREATED, Some(o.resp))
    ensures o.Err? ==> h.result == BadRequest(o.details)
  {
    Handled([RpcCall("Register", RegisterRequest(data))], UserRecordResult(o, HTTP_201_CREATED), [])
  }

  /** The RPC operation a notification route invokes. */
  function NotifyOperation(n: Notification): string {
    match n
    case CompleteRegistration => "VerifyUserToken"
    case ResetYourPassword => "ResetPasswordToken"
  }

  /** The request a notification route sends: only the submitted email. */
  function NotifyRequest(n: Notification, email: string): (r: Request)
    ensures (r.VerifyUserTokenRequest? || r.ResetPasswordTokenRequest?) && r.email == email
    ensures r.VerifyUserTokenRequest? <==> n == CompleteRegistration
  {
    match n
    case CompleteRegistration => VerifyUserTokenRequest(email)
    case ResetYourPassword => ResetPasswordTokenRequest(email)
  }

  /** The shared shape of verify-request and forgot-password: the call is
      made once, every failure is suppressed, the answer is always 202 with
      no body, and a job is added only after the call succeeded, addressed to
      the email and carrying the token the backend returned. */
  function Notify(n: Notification, email: string, o: Outcome<TokenWithEmail>): (h: Handled)
    ensures h.calls == [RpcCall(NotifyOperation(n), NotifyRequest(n, email))]
    ensures h.result == Success(HTTP_202_ACCEPTED, None)
    ensures o.Err? <==> h.jobs == []
    ensures o.Ok? ==> h.jobs == [Job(n, o.resp.email, o.resp.token)]
  {
    var call := RpcCall(NotifyOperation(n), NotifyRequest(n, email));
    match o
    case Ok(resp) => Handled([call], Success(HTTP_202_ACCEPTED, None), [Job(n, resp.email, resp.token)])
    case Err(_, _) => Handled([call], Success(HTTP_202_ACCEPTED, None), [])
  }

  /** POST /auth/verify-request. */
  function VerifyRequest(email: string, o: Outcome<TokenWithEmail>): (h: Handled)
    ensures h.calls == [RpcCall("VerifyUserToken", VerifyUserTokenRequest(email))]
    ensures h.result == Success(HTTP_202_ACCEPTED, None)
    ensures o.Err? ==> h.jobs == []
    ensures o.Ok? ==> h.jobs == [EmailJob(
      o.resp.email,
      "Complete your registration",
      map["token" := o.resp.token, "host" := "http://localhost", "site_name" := "Example Inc."],
      "verify_request.txt",
      "verify_request.html")]
  {
    Notify(CompleteRegistration, email, o)
  }

  /** POST /auth/verify, status 200 on success. */
  function Verify(token: string, o: Outcome<Message>): (h: Handled)
    ensures h.calls == [RpcCall("VerifyUser", Token(token))]
    ensures h.jobs == []
    ensures o.Ok? ==> h.result == Success(HTTP_200_OK, Some(o.resp))
    ensures o.Err? ==> h.result == BadRequest(o.details)
  {
    Handled([RpcCall("VerifyUser", Token(token))], UserRecordResult(o, HTTP_200_OK), [])
  }

  /** POST /auth/forgot-password. */
  function ForgotPassword(email: string, o: Outcome<TokenWithEmail>): (h: Handled)
    ensures h.calls == [RpcCall("ResetPasswordToken", ResetPasswordTokenRequest(email))]
    ensures h.result == Success(HTTP_202_ACCEPTED, None)
    ensures o.Err? ==> h.jobs == []
    ensures o.Ok? ==> h.jobs == [EmailJob(
      o.resp.email,
      "Reset your password",
      map["token" := o.resp.token, "host" := "http://localhost", "site_name" := "Example Inc."],
      "forgot_password.txt",
      "forgot_password.html")]
  {
    Notify(ResetYourPassword, email, o)
  }

  /** POST /auth/reset-password: nothing is returned on success, the
      details string is raised on failure. */
  function ResetPassword(token: string, password: string, o: Outcome<Message>): (h: Handled)
    ensures h.calls == [RpcCall("ResetPassword", ResetPasswordRequest(token, password))]
    ensures h.jobs == []
    ensures o.Ok? ==> h.result == Success(HTTP_200_OK, None)
    ensures o.Err? ==> h.result == BadRequest(o.details)
  {
    var call := RpcCall("ResetPassword", ResetPasswordRequest(token, password));
    match o
    case Ok(_) => Handled([call], Success(HTTP_200_OK, None), [])
    case Err(_, details) => Handled([call], BadRequest(details), [])
  }

  /** GET /users/me: no remote call, the resolved user comes back unchanged. */
  function GetCurrentUser(user: Message): (h: Handled)
    ensures h.calls == []
    ensures h.result == Success(HTTP_200_OK, Some(user))
    ensures h.jobs == []
  {
    Handled([], Success(HTTP_200_OK, Some(user)), [])
  }

  /** What the update schema guarantees: distinct field names, none of them
      `token` (a second `token` keyword would make the request constructor
      raise). */
  predicate ValidUpdate(data: seq<UpdateField>) {
    DistinctNames(data) && forall i :: 0 <= i < |data| ==> data[i].name != "token"
  }

  /** The outbound UpdateUser request: the bearer token plus exactly the
      fields the caller set. */
  function UpdateUserCall(data: seq<UpdateField>, token: string): (c: RpcCall)
    requires ValidUpdate(data)
    ensures c.operation == "UpdateUser" && c.request.UpdateUserRequest? && c.request.token == token
    ensures forall k :: k in c.request.fields <==> IsSet(data, k)
    ensures forall i :: 0 <= i < |data| && data[i].value.Some? ==>
      data[i].name in c.request.fields && c.request.fields[data[i].name] == data[i].value.value
  {
    var fields := SetFields(data);
    forall i | 0 <= i < |data| && data[i].value.Some?
      ensures data[i].name in fields && fields[data[i].name] == data[i].value.value
    {
      SetFieldValues(data, i);
    }
    RpcCall("UpdateUser", UpdateUserRequest(token, fields))
  }

  /** PATCH /users/me, status 200 on success. */
  function UpdateCurrentUser(data: seq<UpdateField>, token: string, o: Outcome<Message>): (h: Handled)
    requires ValidUpdate(data)
    ensures h.calls == [UpdateUserCall(data, token)]
    ensures h.jobs == []
    ensures o.Ok? ==> h.result == Success(HTTP_200_OK, Some(o.resp))
    ensures o.Err? ==> h.result == BadRequest(o.details)
  {
    Handled([UpdateUserCall(data, token)], UserRecordResult(o, HTTP_200_OK), [])
  }
}
