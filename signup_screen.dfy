/**
 * The sign-up form: five text fields with one error message each, the
 * per-field change handlers, `validateForm`, and `handleSignup`, which calls
 * the auth store's `signup` only for a valid form with the terms accepted.
 * `validateEmail` and `validatePassword` are parameters; the `signup` calls
 * and the "terms required" alerts are recorded rather than performed.
 */
module SignupScreen {
  import opened Text
  import opened AuthValidation

  datatype Field = FirstName | LastName | Email | Password | ConfirmPassword

  /** One string per field: the form's values, or its error messages. */
  datatype Fields = Fields(firstName: string, lastName: string, email: string,
                           password: string, confirmPassword: string)

  const Blank: Fields := Fields("", "", "", "", "")

  function Get(fs: Fields, f: Field): string {
    match f
    case FirstName => fs.firstName
    case LastName => fs.lastName
    case Email => fs.email
    case Password => fs.password
    case ConfirmPassword => fs.confirmPassword
  }

  /** `{ ...fs, [f]: v }`. */
  function With(fs: Fields, f: Field, v: string): (r: Fields)
    ensures Get(r, f) == v
    ensures forall g :: g != f ==> Get(r, g) == Get(fs, g)
  {
    match f
    case FirstName => fs.(firstName := v)
    case LastName => fs.(lastName := v)
    case Email => fs.(email := v)
    case Password => fs.(password := v)
    case ConfirmPassword => fs.(confirmPassword := v)
  }

  // ------------------------------------------------------------- the rules

  const FirstNameRequired: string := "First name is required"
  const FirstNameShort: string := "First name must be at least 2 characters"
  const LastNameRequired: string := "Last name is required"
  const LastNameShort: string := "Last name must be at least 2 characters"

  /** A name field: blank is `required`, which takes precedence over the 2-character minimum. */
  function NameError(value: string, required: string, tooShort: string): (e: string)
    requires required != [] && tooShort != []
    ensures e == "" <==> JsLength(Trim(value)) >= 2
    ensures AllWhitespace(value) ==> e == required
    ensures !AllWhitespace(value) && JsLength(Trim(value)) < 2 ==> e == tooShort
  {
    TrimEmptyIffBlank(value);
    if Trim(value) == [] then required
    else if JsLength(Trim(value)) < 2 then tooShort
    else ""
  }

  const PasswordRequired: string := "Password is required"
  const PasswordWeak: string := "Password must be at least 8 characters with uppercase, lowercase, and number"

  /** The password is checked raw: only the empty string is "required". */
  function PasswordError(password: string, validPassword: string -> bool): (e: string)
    ensures e == "" <==> password != [] && validPassword(password)
    ensures password == [] ==> e == PasswordRequired
    ensures password != [] && !validPassword(password) ==> e == PasswordWeak
  {
    if password == [] then PasswordRequired
    else if !validPassword(password) then PasswordWeak
    else ""
  }

  const ConfirmRequired: string := "Please confirm your password"
  const ConfirmMismatch: string := "Passwords do not match"

  function ConfirmError(password: string, confirm: string): (e: string)
    ensures e == "" <==> confirm != [] && confirm == password
    ensures confirm == [] ==> e == ConfirmRequired
    ensures confirm != [] && confirm != password ==> e == ConfirmMismatch
  {
    if confirm == [] then ConfirmRequired
    else if password != confirm then ConfirmMismatch
    else ""
  }

  /** What the form must satisfy, stated without the messages. */
  predicate Acceptable(form: Fields, validEmail: string -> bool, validPassword: string -> bool) {
    JsLength(Trim(form.firstName)) >= 2 && JsLength(Trim(form.lastName)) >= 2
    && !AllWhitespace(form.email) && validEmail(form.email)
    && form.password != [] && validPassword(form.password)
    && form.confirmPassword != [] && form.confirmPassword == form.password
  }

  /** Every field's error; all of them are empty exactly when the form is acceptable. */
  function FormErrors(form: Fields, validEmail: string -> bool, validPassword: string -> bool): (errs: Fields)
    ensures errs.firstName == NameError(form.firstName, FirstNameRequired, FirstNameShort)
    ensures errs.lastName == NameError(form.lastName, LastNameRequired, LastNameShort)
    ensures errs.email == EmailError(form.email, validEmail)
    ensures errs.password == PasswordError(form.password, validPassword)
    ensures errs.confirmPassword == ConfirmError(form.password, form.confirmPassword)
    ensures errs == Blank <==> Acceptable(form, validEmail, validPassword)
  {
    Fields(NameError(form.firstName, FirstNameRequired, FirstNameShort), NameError(form.lastName, LastNameRequired, LastNameShort),
           EmailError(form.email, validEmail), PasswordError(form.password, validPassword),
           ConfirmError(form.password, form.confirmPassword))
  }

  const TermsRequired: string := "Terms Required"

  /** The arguments of one `signup` call: trimmed e-mail, raw password, trimmed names. */
  datatype SignupRequest = SignupRequest(email: string, password: string, firstName: string, lastName: string)

  function RequestOf(form: Fields): SignupRequest {
    SignupRequest(Trim(form.email), form.password, Trim(form.firstName), Trim(form.lastName))
  }

  // ------------------------------------------------------------- the screen

  class Screen {
    const validEmail: string -> bool
    const validPassword: string -> bool
    var form: Fields
    var errors: Fields
    var acceptTerms: bool
    var signupCalls: seq<SignupRequest>
    /** The titles of the alerts shown. */
    var alerts: seq<string>

    constructor (validEmail: string -> bool, validPassword: string -> bool)
      ensures this.validEmail == validEmail && this.validPassword == validPassword
      ensures form == Blank && errors == Blank && !acceptTerms
      ensures signupCalls == [] && alerts == []
    {
      this.validEmail, this.validPassword := validEmail, validPassword;
      form, errors, acceptTerms := Blank, Blank, false;
      signupCalls, alerts := [], [];
    }

    /** The change handler of field `f`: sets that value and clears that error only. */
    method Change(f: Field, value: string)
      modifies this`form, this`errors
      ensures Get(form, f) == value && Get(errors, f) == ""
      ensures forall g :: g != f ==> Get(form, g) == Get(old(form), g) && Get(errors, g) == Get(old(errors), g)
    {
      form := With(form, f, value);
      if Get(errors, f) != "" {
        errors := With(errors, f, "");
      }
    }

    method SetAcceptTerms(accept: bool)
      modifies this`acceptTerms
      ensures acceptTerms == accept
    {
      acceptTerms := accept;
    }

    /** Fills in every error message field by field, clearing a validity flag on each failure. */
    method ValidateForm() returns (isValid: bool)
      modifies this`errors
      ensures errors == FormErrors(form, validEmail, validPassword)
      ensures isValid <==> Acceptable(form, validEmail, validPassword)
    {
      isValid := true;
      var newErrors := Blank;
      newErrors := newErrors.(firstName := NameError(form.firstName, FirstNameRequired, FirstNameShort));
      if newErrors.firstName != "" {
        isValid := false;
      }
      newErrors := newErrors.(lastName := NameError(form.lastName, LastNameRequired, LastNameShort));
      if newErrors.lastName != "" {
        isValid := false;
      }
      newErrors := newErrors.(email := EmailError(form.email, validEmail));
      if newErrors.email != "" {
        isValid := false;
      }
      newErrors := newErrors.(password := PasswordError(form.password, validPassword));
      if newErrors.password != "" {
        isValid := false;
      }
      newErrors := newErrors.(confirmPassword := ConfirmError(form.password, form.confirmPassword));
      if newErrors.confirmPassword != "" {
        isValid := false;
      }
      errors := newErrors;
    }

    /** `handleSignup`: validate; without the terms accepted, alert; otherwise call `signup`. */
    method HandleSignup()
      modifies this`errors, this`signupCalls, this`alerts
      ensures errors == FormErrors(form, validEmail, validPassword)
      ensures Acceptable(form, validEmail, validPassword) && acceptTerms ==>
        signupCalls == old(signupCalls) + [RequestOf(form)]
      ensures !(Acceptable(form, validEmail, validPassword) && acceptTerms) ==> signupCalls == old(signupCalls)
      ensures Acceptable(form, validEmail, validPassword) && !acceptTerms ==> alerts == old(alerts) + [TermsRequired]
      ensures !(Acceptable(form, validEmail, validPassword) && !acceptTerms) ==> alerts == old(alerts)
    {
      var ok := ValidateForm();
      if !ok {
        return;
      }
      if !acceptTerms {
        alerts := alerts + [TermsRequired];
        return;
      }
      signupCalls := signupCalls + [RequestOf(form)];
    }
  }
}
