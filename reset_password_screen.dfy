/**
 * The password-reset form: `validateForm` clears the message, then stops at
 * the first failing check; the reset and resend handlers call the auth
 * store's `resetPassword` (recorded here; whether it resolves is a
 * parameter) only after validation succeeds.
 */
module ResetPasswordScreen {
  import opened Text
  import opened AuthValidation

  const EmailSent: string := "Email Sent"

  class Screen {
    const validEmail: string -> bool
    var email: string
    var emailError: string
    var isSubmitted: bool
    /** The e-mail argument of each `resetPassword` call. */
    var resetCalls: seq<string>
    /** The titles of the alerts shown. */
    var alerts: seq<string>

    constructor (validEmail: string -> bool)
      ensures this.validEmail == validEmail
      ensures email == "" && emailError == "" && !isSubmitted && resetCalls == [] && alerts == []
    {
      this.validEmail := validEmail;
      email, emailError, isSubmitted := "", "", false;
      resetCalls, alerts := [], [];
    }

    method SetEmail(value: string)
      modifies this`email
      ensures email == value
    {
      email := value;
    }

    /** Blank is "required" and returns at once; otherwise `validateEmail` decides. */
    method ValidateForm() returns (ok: bool)
      modifies this`emailError
      ensures emailError == EmailError(email, validEmail)
      ensures ok <==> !AllWhitespace(email) && validEmail(email)
    {
      emailError := "";
      TrimEmptyIffBlank(email);
      if Trim(email) == [] {
        emailError := EmailRequired;
        return false;
      }
      if !validEmail(email) {
        emailError := EmailInvalid;
        return false;
      }
      return true;
    }

    /**
     * `handleResetPassword`: after validation, `resetPassword(email.trim())`;
     * the confirmation view is shown only when that call resolves.
     */
    method HandleResetPassword(resolves: bool)
      modifies this`emailError, this`resetCalls, this`isSubmitted
      ensures emailError == EmailError(email, validEmail)
      ensures emailError == "" ==>
        resetCalls == old(resetCalls) + [Trim(email)] && isSubmitted == (old(isSubmitted) || resolves)
      ensures emailError != "" ==> resetCalls == old(resetCalls) && isSubmitted == old(isSubmitted)
    {
      var ok := ValidateForm();
      if !ok {
        return;
      }
      resetCalls := resetCalls + [Trim(email)];
      if resolves {
        isSubmitted := true;
      }
    }

    /** `handleResendEmail`: the same gate; a resolved call shows the "Email Sent" alert. */
    method HandleResendEmail(resolves: bool)
      modifies this`emailError, this`resetCalls, this`alerts
      ensures emailError == EmailError(email, validEmail)
      ensures emailError == "" ==>
        resetCalls == old(resetCalls) + [Trim(email)] && alerts == old(alerts) + (if resolves then [EmailSent] else [])
      ensures emailError != "" ==> resetCalls == old(resetCalls) && alerts == old(alerts)
    {
      var ok := ValidateForm();
      if !ok {
        return;
      }
      resetCalls := resetCalls + [Trim(email)];
      if resolves {
        alerts := alerts + [EmailSent];
      }
    }
  }
}
