/**
 * The log-in form: `validateForm` resets both messages and then checks the
 * e-mail and the password independently; `handleLogin` calls the auth
 * store's `login` (recorded here) only for a valid form.
 */
module LoginScreen {
  import opened Text
  import opened AuthValidation

  const PasswordRequired: string := "Password is required"
  const PasswordTooShort: string := "Password must be at least 6 characters"

  /**
   * A blank password (white space only) is "required"; otherwise the raw,
   * untrimmed length must be at least 6.
   */
  function PasswordError(password: string): (e: string)
    ensures e == "" <==> !AllWhitespace(password) && JsLength(password) >= 6
    ensures AllWhitespace(password) ==> e == PasswordRequired
    ensures !AllWhitespace(password) && JsLength(password) < 6 ==> e == PasswordTooShort
  {
    TrimEmptyIffBlank(password);
    if Trim(password) == [] then PasswordRequired
    else if JsLength(password) < 6 then PasswordTooShort
    else ""
  }

  /** Three characters outside the Basic Multilingual Plane are six code units, long enough. */
  lemma AstralPasswordLongEnough()
    ensures PasswordError("\U{1F600}\U{1F600}\U{1F600}") == ""
  {
    var s := "\U{1F600}\U{1F600}\U{1F600}";
    assert s[1..][1..][1..] == [];
    assert JsLength(s) == 6;
    assert !IsJsWhitespace(s[0]);
  }

  /** Six spaces are long enough but still count as no password at all. */
  lemma SpacesAreNoPassword()
    ensures PasswordError("      ") == PasswordRequired
  {
    assert AllWhitespace("      ");
  }

  class Screen {
    const validEmail: string -> bool
    var email: string
    var password: string
    var emailError: string
    var passwordError: string
    /** The `(email, password)` arguments of each `login` call. */
    var loginCalls: seq<(string, string)>

    constructor (validEmail: string -> bool)
      ensures this.validEmail == validEmail
      ensures email == "" && password == "" && emailError == "" && passwordError == ""
      ensures loginCalls == []
    {
      this.validEmail := validEmail;
      email, password, emailError, passwordError := "", "", "", "";
      loginCalls := [];
    }

    /** Typing in a field changes only that field; the messages stay until the next validation. */
    method SetEmail(value: string)
      modifies this`email
      ensures email == value
    {
      email := value;
    }

    method SetPassword(value: string)
      modifies this`password
      ensures password == value
    {
      password := value;
    }

    method ValidateForm() returns (isValid: bool)
      modifies this`emailError, this`passwordError
      ensures emailError == EmailError(email, validEmail)
      ensures passwordError == PasswordError(password)
      ensures isValid <==> !AllWhitespace(email) && validEmail(email) && !AllWhitespace(password) && JsLength(password) >= 6
    {
      isValid := true;
      emailError := "";
      passwordError := "";
      emailError := EmailError(email, validEmail);
      if emailError != "" {
        isValid := false;
      }
      passwordError := PasswordError(password);
      if passwordError != "" {
        isValid := false;
      }
    }

    /** `handleLogin`: `login(email.trim(), password)` for a valid form only. */
    method HandleLogin()
      modifies this`emailError, this`passwordError, this`loginCalls
      ensures emailError == EmailError(email, validEmail) && passwordError == PasswordError(password)
      ensures emailError == "" && passwordError == "" ==> loginCalls == old(loginCalls) + [(Trim(email), password)]
      ensures !(emailError == "" && passwordError == "") ==> loginCalls == old(loginCalls)
    {
      var ok := ValidateForm();
      if !ok {
        return;
      }
      loginCalls := loginCalls + [(Trim(email), password)];
    }
  }
}
