/** The error-translation policy of the auth gateway, written down as a table
    of its own, and the proof that every route follows its row. */
module Policy {
  import opened Values
  import opened Rpc
  import opened Http
  import opened UserUpdate
  import Routes

  datatype Endpoint =
    | Login | Logout | Register | VerifyRequest | Verify
    | ForgotPassword | ResetPassword | GetCurrentUser | UpdateCurrentUser

  /** What a route does with a failed remote call. */
  datatype ErrorPolicy =
    | Generic       // raise the generic incorrect-credentials error
    | PassThrough   // raise BadRequest carrying the backend's details
    | Suppress      // swallow the failure and answer as on success
    | NoRemoteCall  // the route makes no remote call at all

  function PolicyOf(e: Endpoint): ErrorPolicy {
    match e
    case Login => Generic
    case Logout | VerifyRequest | ForgotPassword => Suppress
    case Register | Verify | ResetPassword | UpdateCurrentUser => PassThrough
    case GetCurrentUser => NoRemoteCall
  }

  function SuccessStatus(e: Endpoint): nat {
    match e
    case Register => 201
    case VerifyRequest | ForgotPassword => 202
    case _ => 200
  }

  /** Only the two notification routes ever schedule mail. */
  predicate SendsMail(e: Endpoint) {
    e == VerifyRequest || e == ForgotPassword
  }

  /** `h` is an acceptable handling of a call to `e` whose remote call failed
      with `failed` (None when it succeeded). */
  predicate Complies(e: Endpoint, failed: Option<string>, h: Routes.Handled) {
    && (PolicyOf(e) == NoRemoteCall <==> h.calls == [])
    && |h.calls| <= 1
    && (failed.None? ==> h.result.Success? && h.result.status == SuccessStatus(e))
    && (failed.Some? ==> h.jobs == [])
    && (!SendsMail(e) ==> h.jobs == [])
    && (failed.Some? ==>
          match PolicyOf(e)
          case Generic => h.result == IncorrectLoginCredentials
          case PassThrough => h.result == BadRequest(failed.value)
          case Suppress => h.result == Success(SuccessStatus(e), None)
          case NoRemoteCall => true)
  }

  /** Every route, on every input and every outcome of its remote call,
      follows its row of the policy table. */
  lemma EveryRouteComplies()
    ensures forall u, p, o :: Complies(Login, FailureDetails(o), Routes.Login(u, p, o))
    ensures forall t, o :: Complies(Logout, FailureDetails(o), Routes.Logout(t, o))
    ensures forall d, o :: Complies(Register, FailureDetails(o), Routes.Register(d, o))
    ensures forall m, o :: Complies(VerifyRequest, FailureDetails(o), Routes.VerifyRequest(m, o))
    ensures forall t, o :: Complies(Verify, FailureDetails(o), Routes.Verify(t, o))
    ensures forall m, o :: Complies(ForgotPassword, FailureDetails(o), Routes.ForgotPassword(m, o))
    ensures forall t, p, o :: Complies(ResetPassword, FailureDetails(o), Routes.ResetPassword(t, p, o))
    ensures forall user :: Complies(GetCurrentUser, None, Routes.GetCurrentUser(user))
    ensures forall d, t, o :: Routes.ValidUpdate(d) ==>
      Complies(UpdateCurrentUser, FailureDetails(o), Routes.UpdateCurrentUser(d, t, o))
  {
  }

  /** Login leaks nothing about why the backend refused: two failures, with
      any codes and any details, look the same to the caller. */
  lemma LoginHidesFailureDetails(u: string, p: string, c1: StatusCode, d1: string, c2: StatusCode, d2: string)
    ensures Routes.Login(u, p, Err(c1, d1)) == Routes.Login(u, p, Err(c2, d2))
    ensures !Routes.Login(u, p, Err(c1, d1)).result.BadRequest?
  {
  }

  /** Logout, verify-request and forgot-password answer identically whatever
      the backend did, so their answers cannot reveal whether an account or
      a token exists. */
  lemma SuppressedRoutesDoNotEnumerate(s: string, o1: Outcome<Message>, o2: Outcome<Message>,
                                       n1: Outcome<TokenWithEmail>, n2: Outcome<TokenWithEmail>)
    ensures Routes.Logout(s, o1) == Routes.Logout(s, o2)
    ensures Routes.VerifyRequest(s, n1).result == Routes.VerifyRequest(s, n2).result
    ensures Routes.VerifyRequest(s, n1).calls == Routes.VerifyRequest(s, n2).calls
    ensures Routes.ForgotPassword(s, n1).result == Routes.ForgotPassword(s, n2).result
    ensures Routes.ForgotPassword(s, n1).calls == Routes.ForgotPassword(s, n2).calls
  {
  }

  /** The pass-through routes raise BadRequest exactly when the call failed,
      and its detail is the details string, character for character. */
  lemma PassThroughIsVerbatim(data: Kwargs, t: string, p: string, u: seq<UpdateField>, o: Outcome<Message>)
    requires Routes.ValidUpdate(u)
    ensures Routes.Register(data, o).result.BadRequest? <==> o.Err?
    ensures Routes.Verify(t, o).result.BadRequest? <==> o.Err?
    ensures Routes.ResetPassword(t, p, o).result.BadRequest? <==> o.Err?
    ensures Routes.UpdateCurrentUser(u, t, o).result.BadRequest? <==> o.Err?
    ensures o.Err? ==>
      && Routes.Register(data, o).result.detail == o.details
      && Routes.Verify(t, o).result.detail == o.details
      && Routes.ResetPassword(t, p, o).result.detail == o.details
      && Routes.UpdateCurrentUser(u, t, o).result.detail == o.details
  {
  }

  /** A notification route schedules a job if and only if its call
      succeeded, and then exactly one, for the recipient and the token the
      backend returned. */
  lemma MailOnlyAfterSuccess(email: string, o: Outcome<TokenWithEmail>)
    ensures |Routes.VerifyRequest(email, o).jobs| == (if o.Ok? then 1 else 0)
    ensures |Routes.ForgotPassword(email, o).jobs| == (if o.Ok? then 1 else 0)
    ensures o.Ok? ==>
      && Routes.ForgotPassword(email, o).jobs[0].to == o.resp.email
      && Routes.ForgotPassword(email, o).jobs[0].context["token"] == o.resp.token
      && Routes.VerifyRequest(email, o).jobs[0].to == o.resp.email
      && Routes.VerifyRequest(email, o).jobs[0].context["token"] == o.resp.token
  {
  }
}
