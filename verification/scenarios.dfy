/** Concrete exchanges: the forgot-password cases of the route's tests and
    the duplicate-registration case, each stated on the model. */
module Scenarios {
  import opened Values
  import opened Rpc
  import opened Http
  import Routes

  const SubmittedEmail := "test@example.com"

  /** The backend issues a reset token: 202, no body, the request carried
      exactly the submitted email and was sent once, and one reset mail is
      queued for the returned address with the returned token. */
  lemma ForgotPasswordSuccessScenario()
    ensures var h := Routes.ForgotPassword(SubmittedEmail,
              Ok(TokenWithEmail("reset-token", "test@example.com", "Some", "One")));
      && h.calls == [RpcCall("ResetPasswordToken", ResetPasswordTokenRequest("test@example.com"))]
      && h.result == Success(202, None)
      && |h.jobs| == 1
      && h.jobs[0].to == "test@example.com"
      && h.jobs[0].subject == "Reset your password"
      && h.jobs[0].context == map["host" := "http://localhost", "site_name" := "Example Inc.", "token" := "reset-token"]
      && h.jobs[0].htmlTemplate == "forgot_password.html"
      && h.jobs[0].textTemplate == "forgot_password.txt"
  {
  }

  /** The backend answers NOT_FOUND "user not found": the caller sees the
      same 202 with no body, and no mail is queued. */
  lemma ForgotPasswordNotFoundScenario()
    ensures var h := Routes.ForgotPassword(SubmittedEmail, Err(NotFound, "user not found"));
      && h.calls == [RpcCall("ResetPasswordToken", ResetPasswordTokenRequest("test@example.com"))]
      && h.result == Success(202, None)
      && h.jobs == []
  {
  }

  /** Registering an email that is already taken: the backend's details
      reach the caller unchanged. */
  lemma DuplicateRegistrationScenario(data: Kwargs)
    ensures Routes.Register(data, Err(AlreadyExists, "email already registered")).result
      == BadRequest("email already registered")
  {
  }
}
