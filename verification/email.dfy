/** The deferred email jobs two routes add to the request's background tasks.
    A job is only a queued record here; rendering and sending it is not part
    of this model. */
module Email {

  /** The two transactional mails. */
  datatype Notification = CompleteRegistration | ResetYourPassword

  const Host := "http://localhost"
  const SiteName := "Example Inc."

  /** The arguments `send_mail` passes to `generate_email`. */
  datatype EmailJob = EmailJob(
    to: string,
    subject: string,
    context: map<string, string>,
    textTemplate: string,
    htmlTemplate: string)

  function Subject(n: Notification): string {
    match n
    case CompleteRegistration => "Complete your registration"
    case ResetYourPassword => "Reset your password"
  }

  function TextTemplate(n: Notification): string {
    match n
    case CompleteRegistration => "verify_request.txt"
    case ResetYourPassword => "forgot_password.txt"
  }

  function HtmlTemplate(n: Notification): string {
    match n
    case CompleteRegistration => "verify_request.html"
    case ResetYourPassword => "forgot_password.html"
  }

  /** The job for a recipient and a one-time token: the context always holds
      the token, the base URL and the site name, and nothing else. */
  function Job(n: Notification, email: string, token: string): (j: EmailJob)
    ensures j.to == email
    ensures j.context.Keys == {"token", "host", "site_name"}
    ensures j.context["token"] == token
    ensures j.context["host"] == Host && j.context["site_name"] == SiteName
  {
    EmailJob(
      email,
      Subject(n),
      map["token" := token, "host" := Host, "site_name" := SiteName],
      TextTemplate(n),
      HtmlTemplate(n))
  }
}
