/** The owner signup form (app/owner/signup/page.tsx): a zod schema of field
    rules plus one cross-field rule, and a submit that only shows a notice. */
module OwnerSignup {
  import opened Wrappers
  import opened Text
  import opened Zod

  datatype Values = Values(
    firstName: string,
    lastName: string,
    email: string,
    phone: string,
    password: string,
    confirmPassword: string,
    terms: bool)

  const DefaultValues := Values("", "", "", "", "", "", false)

  /** The message shown under each field; `None` when it passes. */
  datatype Errors = Errors(
    firstName: Option<string>,
    lastName: Option<string>,
    email: Option<string>,
    phone: Option<string>,
    password: Option<string>,
    confirmPassword: Option<string>,
    terms: Option<string>)

  const NoErrors := Errors(None, None, None, None, None, None, None)

  const FirstNameMessage := "Please enter your first name."
  const LastNameMessage := "Please enter your last name."
  const EmailMessage := "Please enter a valid email address."
  const PhoneMessage := "Please enter a valid phone number."
  const DigitsMessage := "Invalid"
  const PasswordMessage := "Password must be at least 8 characters."
  const ConfirmMessage := "Comfirm password."
  const MismatchMessage := "Passwords don't match"
  const TermsMessage := "You must accept the terms and conditions."

  /** The phone's rules, in schema order: the length check's message wins over
      the digits check's. */
  function PhoneError(phone: string): (e: Option<string>)
    ensures e.None? <==> CodeUnits(phone) >= 10 && IsDigitString(phone)
    ensures CodeUnits(phone) < 10 ==> e == Some(PhoneMessage)
    ensures e == Some(DigitsMessage) <==> CodeUnits(phone) >= 10 && !IsDigitString(phone)
  {
    if CodeUnits(phone) < 10 then Some(PhoneMessage)
    else if !IsDigitString(phone) then Some(DigitsMessage)
    else None
  }

  /** zod's field checks, then the object-level `password === confirmPassword`
      refinement reported on confirmPassword. react-hook-form keeps the first
      issue of each field, so a short confirmPassword shows its own message
      before the mismatch. `isEmail` is zod's email check. */
  function Validate(isEmail: string -> bool, v: Values): (e: Errors)
    ensures e.firstName.None? <==> CodeUnits(v.firstName) >= 2
    ensures e.lastName.None? <==> CodeUnits(v.lastName) >= 2
    ensures e.email.None? <==> isEmail(v.email)
    ensures e.phone.None? <==> CodeUnits(v.phone) >= 10 && IsDigitString(v.phone)
    ensures e.phone == PhoneError(v.phone)
    ensures e.password.None? <==> CodeUnits(v.password) >= 8
    ensures e.confirmPassword.None? <==> CodeUnits(v.confirmPassword) >= 8 && v.password == v.confirmPassword
    ensures e.terms.None? <==> v.terms
  {
    var confirm := MinLength(v.confirmPassword, 8, ConfirmMessage);
    Errors(
      MinLength(v.firstName, 2, FirstNameMessage),
      MinLength(v.lastName, 2, LastNameMessage),
      if isEmail(v.email) then None else Some(EmailMessage),
      PhoneError(v.phone),
      MinLength(v.password, 8, PasswordMessage),
      if confirm.Some? then confirm
      else if v.password != v.confirmPassword then Some(MismatchMessage)
      else None,
      if v.terms then None else Some(TermsMessage))
  }

  predicate IsValid(isEmail: string -> bool, v: Values) {
    Validate(isEmail, v) == NoErrors
  }

  /** The form passes iff both names have a length of 2 or more, the email is
      well formed, the phone has a length of at least 10 and is all digits 0-9,
      the password has a length of at least 8 and equals its confirmation, and
      the terms are accepted. */
  lemma ValidIff(isEmail: string -> bool, v: Values)
    ensures IsValid(isEmail, v) <==>
      CodeUnits(v.firstName) >= 2 && CodeUnits(v.lastName) >= 2 && isEmail(v.email)
      && CodeUnits(v.phone) >= 10 && IsDigitString(v.phone)
      && CodeUnits(v.password) >= 8 && v.password == v.confirmPassword && v.terms
  {
  }

  /** A mismatch is reported on confirmPassword only: the password's own error
      does not depend on the confirmation. */
  lemma MismatchOnConfirmPassword(isEmail: string -> bool, v: Values, other: string)
    requires CodeUnits(v.confirmPassword) >= 8 && v.password != v.confirmPassword
    ensures Validate(isEmail, v).confirmPassword == Some(MismatchMessage)
    ensures Validate(isEmail, v).password == Validate(isEmail, v.(confirmPassword := other)).password
  {
  }

  /** The default values fail on every field but the email, whatever the email
      check says of "". */
  lemma DefaultsRejected(isEmail: string -> bool)
    ensures var e := Validate(isEmail, DefaultValues);
      e.firstName.Some? && e.lastName.Some? && e.phone.Some? && e.password.Some?
      && e.confirmPassword.Some? && e.terms == Some(TermsMessage)
    ensures !IsValid(isEmail, DefaultValues)
  {
  }

  /** A ten-digit phone passes. */
  lemma TenDigitPhoneAccepted()
    ensures PhoneError("0771234567") == None
  {
    DigitStringLength("0771234567");
  }

  /** Nine digits are too short, and the length message is the one shown. */
  lemma NineDigitPhoneTooShort()
    ensures PhoneError("077123456") == Some(PhoneMessage)
  {
    DigitStringLength("077123456");
  }

  /** Ten characters with a space pass the length check and fail the digits check. */
  lemma SpacedPhoneNotDigits()
    ensures PhoneError("077 123456") == Some(DigitsMessage)
  {
    assert !IsDigit("077 123456"[3]);
  }

  datatype Toast = Toast(title: string, description: string)

  /** What submitting does: show the errors, or, for valid values, only a notice
      (no request is sent). */
  datatype Outcome = Rejected(errors: Errors) | Notified(toast: Toast)

  function Submit(isEmail: string -> bool, v: Values): (o: Outcome)
    ensures o.Notified? <==> IsValid(isEmail, v)
    ensures o.Rejected? ==> o.errors == Validate(isEmail, v) && o.errors != NoErrors
    ensures o.Notified? ==> o.toast == Toast("Account created successfully!", "Your owner account has been created.")
  {
    var errors := Validate(isEmail, v);
    if errors == NoErrors then Notified(Toast("Account created successfully!", "Your owner account has been created."))
    else Rejected(errors)
  }
}
