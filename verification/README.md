# Auth gateway routes

A model of the HTTP authentication gateway's route handlers (`src/app/auth/routes.py`).
The gateway fronts a remote identity service that it reaches over gRPC. Each route
turns validated input into one outbound RPC request. It then turns the RPC outcome
into an HTTP answer, or into one of the two exceptions the routes raise
(`IncorrectLoginCredentials`, `BadRequest`). Two routes also queue a transactional
email as a background task.

Every handler is a pure function `(input, outcome) -> Handled(calls, result, jobs)`:

- `calls`: the outbound RPCs, as operation name plus request message. It is empty for `GET /users/me` and has one element otherwise.
- `result`: what the handler returns, as status code and body, or the exception it raises.
- `jobs`: the `EmailJob` records it added to the background tasks.

The remote call is not performed. Its outcome is a parameter: `Ok(response)` or
`Err(code, details)`, covering every gRPC status code.

Modules, one per concern:

- `Values`: scalar field values, their proto3 defaults, response messages as name-to-value maps, and the keyword arguments a request is built from.
- `Rpc`: status codes, outcomes, request messages, and the `MessageToDict` default-field flag.
- `Http`: handler results.
- `Email`: the two notification mails and the job record.
- `UserUpdate`: the partial profile update and `exclude_unset`.
- `Routes`: the nine handlers.
- `Policy`: the error-translation table, written independently of the handlers, with the proof that every route follows it on every input and every outcome.
- `Scenarios`: the concrete cases of the forgot-password tests and a duplicate registration.

Three details of the routes that the model keeps exactly:

- The reset route invokes the operation `ResetPassword` with a `ResetPasswordRequest` message (`src/app/auth/routes.py:139-143`).
- Login calls `MessageToDict` without `including_default_value_fields` (`src/app/auth/routes.py:32`). A token-response field still at its default value is therefore absent from the body.
- Verify includes default-valued fields (`src/app/auth/routes.py:96-100`), as register and update-user do.

## Model

| member | source | states |
|---|---|---|
| Routes.Login | src/app/auth/routes.py:23-34 | one BearerToken call with the form's username as email and its password; a failure with any code and details is IncorrectLoginCredentials, and only a failure is; a success is 200 whose body holds exactly the response's non-default fields, each with the response's value (so the issued token reaches the caller); no mail |
| Routes.Logout | src/app/auth/routes.py:37-42 | one RevokeBearerToken call whose request is `Token(token)` for the bearer token; the answer is 200 with no body whatever the call returned or raised; no mail |
| Routes.UserRecordResult | src/app/auth/routes.py:51-57 | a failure becomes BadRequest with the details string unchanged, and only a failure does; a success returns the full response message, every field present |
| Routes.Register | src/app/auth/routes.py:45-57 | one Register call carrying every field of the validated input; 201 with the full user record on success; BadRequest(details) on failure; no mail |
| Routes.NotifyRequest | src/app/auth/routes.py:67-112 | the request of a notification route carries only the submitted email; it is a VerifyUserTokenRequest exactly for the registration mail and a ResetPasswordTokenRequest for the reset mail |
| Routes.Notify | src/app/auth/routes.py:65-87 | a notification route calls once, answers 202 with no body on every outcome, and queues mail if and only if the call succeeded, then exactly the job for the returned email and token |
| Routes.VerifyRequest | src/app/auth/routes.py:60-87 | one VerifyUserToken call with the email; 202 with no body on every outcome; on success exactly one job to the returned email, subject "Complete your registration", context token/host/site_name, templates verify_request.txt/.html; none on failure |
| Routes.Verify | src/app/auth/routes.py:90-102 | one VerifyUser call with `Token(token)`; 200 with the full user record on success; BadRequest(details) on failure |
| Routes.ForgotPassword | src/app/auth/routes.py:105-132 | one ResetPasswordToken call with the email; 202 with no body on every outcome; on success exactly one job to the returned email, subject "Reset your password", context {token, host "http://localhost", site_name "Example Inc."}, templates forgot_password.txt/.html; none on failure |
| Routes.ResetPassword | src/app/auth/routes.py:135-145 | one ResetPassword call with token and new password; 200 with no body on success; BadRequest(details) on failure |
| Routes.GetCurrentUser | src/app/auth/routes.py:148-150 | no remote call; the resolved user is returned unchanged with 200 |
| Routes.UpdateUserCall | src/app/auth/routes.py:161-163 | the UpdateUser request holds the bearer token, and a field is in it if and only if the caller set it, with the caller's value |
| Routes.UpdateCurrentUser | src/app/auth/routes.py:153-171 | one UpdateUser call as above; 200 with the full user record on success; BadRequest(details) on failure |
| UserUpdate.SetFields | src/app/auth/routes.py:162 | the `exclude_unset` dictionary: a name is a key if and only if that field was set, and each value is one the caller gave that field |
| UserUpdate.SetFieldValues | src/app/auth/routes.py:162 | with distinct field names, every set field appears with exactly the caller's value |
| Rpc.ToDict | src/app/auth/routes.py:51-55 | the response dictionary agrees with the message on every key it has; with defaults included every field is a key, otherwise exactly the non-default ones |
| Rpc.ToDictWithDefaultsKeepsEveryField | src/app/auth/routes.py:96-100 | with defaults included the dictionary is the whole message |
| Email.Job | src/app/auth/routes.py:74-130 | the shared shape of both `send_mail` bodies (lines 74-85 and 119-130): a job goes to the given email; its context has exactly the keys token, host and site_name, with token the given token, host "http://localhost" and site_name "Example Inc." |
| Policy.EveryRouteComplies | src/app/auth/routes.py:23-171 | every route follows its row of the error-policy table on all inputs and outcomes: generic error for login; details passed through for register, verify, reset-password and update-user; suppressed for logout, verify-request and forgot-password; no call for get-current-user; at most one call; the route's success status; mail only from the two notification routes and never after a failure |
| Policy.LoginHidesFailureDetails | src/app/auth/routes.py:33-34 | two login failures with any codes and any details give identical results, and never BadRequest |
| Policy.SuppressedRoutesDoNotEnumerate | src/app/auth/routes.py:37-132 | logout, verify-request and forgot-password give the same answer and make the same call whatever the backend returned |
| Policy.PassThroughIsVerbatim | src/app/auth/routes.py:56-171 | register, verify, reset-password and update-user raise BadRequest if and only if the call failed, with detail equal to the details string |
| Policy.MailOnlyAfterSuccess | src/app/auth/routes.py:105-132 | each notification route queues one job on success and none on failure, for the returned recipient and token |
| Scenarios.ForgotPasswordSuccessScenario | src/tests/auth/test_forgot_password.py:29-55 | a request for test@example.com sends exactly that request once, answers 202 with no body, and queues the one reset mail with token "reset-token" |
| Scenarios.ForgotPasswordNotFoundScenario | src/tests/auth/test_forgot_password.py:58-75 | a NOT_FOUND "user not found" failure answers 202 with no body and queues no mail |
| Scenarios.DuplicateRegistrationScenario | src/app/auth/routes.py:56-57 | a registration refused with "email already registered" raises BadRequest with exactly that detail |

## Left out

- Connection handling: the gRPC transport and the pooled `grpc_clients` async context manager. The call is a given outcome value. Release of the connection on every path is not modelled.
- Serialisation: `MessageToDict` beyond its `including_default_value_fields` flag. Name conversion, int64-as-string and nested messages belong to the protobuf library. Field names are kept as declared, which is what `preserving_proto_field_name` asks for.
- Response-model validation: FastAPI's validation of handler return values against `BearerResponse` and `UserRead` is not modelled. A body is the handler's return value.
- Email delivery: `generate_email` rendering and sending, and the `BackgroundTasks` executor. Jobs are queued records that are never executed. So the ordering "a job starts only after the response is finalised" is the executor's guarantee and is not stated.
- Routing and dependencies: FastAPI routing and dependency injection (`current_user`, `Token`, `Oauth2Form`, schema validation). Inputs arrive validated, and the current-user dependency of logout and update-user is not modelled.
- Error statuses: the HTTP status codes of `IncorrectLoginCredentials` and `BadRequest`. They are defined in `app.auth.exceptions`, which is not part of this model.
- Logging: the diagnostic `print` lines of verify-request and forgot-password.
- Other exceptions: any exception other than an RPC error. Such exceptions propagate as server errors outside this model.
- Explicit nulls: a profile field explicitly set to null is not modelled. An update field is either set to a value or unset.
- Migrations: the Alembic migration that creates the `messages` table. It holds no logic of the gateway.
- Concurrency between requests.
