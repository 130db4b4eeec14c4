/**
 * The e-mail check that the sign-up, log-in and password-reset forms share:
 * a blank address is "required"; otherwise the external `validateEmail`
 * (a parameter here) is applied to the address as typed, not trimmed.
 */
module AuthValidation {
  import opened Text

  const EmailRequired: string := "Email is required"
  const EmailInvalid: string := "Please enter a valid email address"

  /** The e-mail error message, empty when the address is accepted. */
  function EmailError(email: string, validEmail: string -> bool): (e: string)
    ensures e == "" <==> !AllWhitespace(email) && validEmail(email)
    ensures AllWhitespace(email) ==> e == EmailRequired
    ensures !AllWhitespace(email) && !validEmail(email) ==> e == EmailInvalid
  {
    TrimEmptyIffBlank(email);
    if Trim(email) == [] then EmailRequired
    else if !validEmail(email) then EmailInvalid
    else ""
  }
}
