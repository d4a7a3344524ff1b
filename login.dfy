/** The owner login form (app/owner/login/page.tsx): two field rules and the
    mapping from the login request's outcome to a notice and a redirect. */
module OwnerLogin {
  import opened Wrappers
  import opened Json
  import opened Text

  datatype Values = Values(email: string, password: string)

  const DefaultValues := Values("", "")

  datatype Errors = Errors(email: Option<string>, password: Option<string>)

  /** `isEmail` is zod's email check. */
  function Validate(isEmail: string -> bool, v: Values): (e: Errors)
    ensures e.email.None? <==> isEmail(v.email)
    ensures e.password.None? <==> CodeUnits(v.password) >= 8
  {
    Errors(
      if isEmail(v.email) then None else Some("Please enter a correct email address."),
      if CodeUnits(v.password) < 8 then Some("Please enter a correct password.") else None)
  }

  /** The empty defaults fail on the password, and on the email too when the
      email check rejects "". */
  lemma DefaultsRejected(isEmail: string -> bool)
    ensures Validate(isEmail, DefaultValues).password == Some("Please enter a correct password.")
    ensures !isEmail("") ==> Validate(isEmail, DefaultValues).email == Some("Please enter a correct email address.")
  {
  }

  /** How `fetch('/api/owner/login')` ended. `ErrorReply`: a response that is not
      ok, with its parsed JSON body, or `None` when `response.json()` failed. */
  datatype Reply = OkReply | ErrorReply(body: Option<Value>) | NetworkError

  /** A toast; its description is whatever value the page put there. */
  datatype Toast = Toast(title: string, description: Value, destructive: bool)

  datatype Outcome = Outcome(toast: Toast, redirect: Option<string>)

  const TryAgain := Outcome(Toast("An error occurred", Str("Please try again later."), true), None)

  /** `onSubmit` after the request: an ok response goes to the dashboard; a
      failed one shows the server's message or "Invalid credentials"; anything
      thrown, including reading `.message` of a null body, shows "Please try
      again later.". */
  function AfterLogin(reply: Reply): (o: Outcome)
    ensures o.redirect.Some? <==> reply.OkReply?
    ensures o.redirect.Some? ==> o.redirect.value == "/owner/dashboard"
    ensures o.toast.destructive <==> !reply.OkReply?
    ensures reply.NetworkError? || reply == ErrorReply(None) ==> o == TryAgain
  {
    match reply
    case OkReply =>
      Outcome(Toast("Login successful", Str("You are now being redirected to your dashboard."), false),
              Some("/owner/dashboard"))
    case ErrorReply(Some(errorData)) =>
      (match Member(errorData, "message")
       case Some(message) => Outcome(Toast("Login failed", Or(message, Str("Invalid credentials")), true), None)
       case None => TryAgain)
    case _ => TryAgain
  }

  /** For an object body, the notice is the `message` field when it is truthy,
      and "Invalid credentials" when it is missing or falsy. */
  lemma FailureMessage(fields: map<string, Value>)
    ensures var o := AfterLogin(ErrorReply(Some(Obj(fields))));
      o.toast.title == "Login failed" && o.redirect == None
      && ("message" in fields && Truthy(fields["message"]) ==> o.toast.description == fields["message"])
      && (!("message" in fields && Truthy(fields["message"])) ==> o.toast.description == Str("Invalid credentials"))
  {
  }

  /** A `null` body makes reading its `message` throw, which is caught. */
  lemma NullBodyIsCaught()
    ensures AfterLogin(ErrorReply(Some(Null))) == TryAgain
  {
  }

  /** The submit: invalid values only show their errors; valid ones are sent. */
  datatype SubmitResult = Invalid(errors: Errors) | Sent(outcome: Outcome)

  function Submit(isEmail: string -> bool, v: Values, reply: Reply): (r: SubmitResult)
    ensures r.Sent? <==> isEmail(v.email) && CodeUnits(v.password) >= 8
    ensures r.Sent? ==> r.outcome == AfterLogin(reply)
    ensures r.Invalid? ==> r.errors == Validate(isEmail, v)
  {
    var errors := Validate(isEmail, v);
    if errors == Errors(None, None) then Sent(AfterLogin(reply)) else Invalid(errors)
  }
}
