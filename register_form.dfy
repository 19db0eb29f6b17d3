/**
 * The sign-up form (src/components/auth/RegisterForm.tsx): per-field
 * validation with a fixed order of checks, clearing errors on edit, the
 * request sent when the form is valid, and its error messages.
 */
module RegisterForm {
  import opened Types
  import opened JsText
  import Helpers
  import opened AuthForms

  datatype Field = Username | FirstName | LastName | Email | Password | ConfirmPassword

  datatype FormData = FormData(
    username: string,
    firstName: string,
    lastName: string,
    email: string,
    password: string,
    confirmPassword: string)

  function Value(d: FormData, f: Field): string {
    match f
    case Username => d.username
    case FirstName => d.firstName
    case LastName => d.lastName
    case Email => d.email
    case Password => d.password
    case ConfirmPassword => d.confirmPassword
  }

  /** `setFormData(prev => ({ ...prev, [name]: value }))`. */
  function WithValue(d: FormData, f: Field, v: string): (r: FormData)
    ensures Value(r, f) == v
    ensures forall g :: g != f ==> Value(r, g) == Value(d, g)
  {
    match f
    case Username => d.(username := v)
    case FirstName => d.(firstName := v)
    case LastName => d.(lastName := v)
    case Email => d.(email := v)
    case Password => d.(password := v)
    case ConfirmPassword => d.(confirmPassword := v)
  }

  /** The one message a field gets, if any: the "required" check first, then
      the length, format or equality check. */
  function FieldError(d: FormData, f: Field): Option<string> {
    match f
    case Username =>
      if IsBlank(d.username) then Some("Username is required")
      else if |d.username| < 3 then Some("Username must be at least 3 characters")
      else None
    case FirstName =>
      if IsBlank(d.firstName) then Some("First name is required") else None
    case LastName =>
      if IsBlank(d.lastName) then Some("Last name is required") else None
    case Email =>
      if d.email == "" then Some("Email is required")
      else if !Helpers.IsValidEmail(d.email) then Some("Please enter a valid email")
      else None
    case Password =>
      if d.password == "" then Some("Password is required")
      else if |d.password| < 6 then Some("Password must be at least 6 characters")
      else None
    case ConfirmPassword =>
      if d.confirmPassword == "" then Some("Please confirm your password")
      else if d.password != d.confirmPassword then Some("Passwords do not match")
      else None
  }

  /** The acceptance rule of each field, stated on its own. */
  ghost predicate Acceptable(d: FormData) {
    && !IsBlank(d.username) && |d.username| >= 3
    && !IsBlank(d.firstName)
    && !IsBlank(d.lastName)
    && d.email != "" && Helpers.IsValidEmail(d.email)
    && |d.password| >= 6
    && d.confirmPassword != "" && d.confirmPassword == d.password
  }

  /** The order in which `validateForm` checks the fields. */
  const CheckOrder := [Username, FirstName, LastName, Email, Password, ConfirmPassword]

  lemma EveryFieldChecked()
    ensures forall f :: f in CheckOrder
  {
    forall f ensures f in CheckOrder {
      match f
      case Username => assert CheckOrder[0] == f;
      case FirstName => assert CheckOrder[1] == f;
      case LastName => assert CheckOrder[2] == f;
      case Email => assert CheckOrder[3] == f;
      case Password => assert CheckOrder[4] == f;
      case ConfirmPassword => assert CheckOrder[5] == f;
    }
  }

  /** `validateForm`: every field is checked, in the order above, so the
      error object holds a field exactly when the field has a message. */
  function ValidateForm(d: FormData): (errors: map<Field, string>)
    ensures forall f :: f in errors <==> FieldError(d, f).Some?
    ensures forall f :: f in errors ==> errors[f] == FieldError(d, f).value
  {
    EveryFieldChecked();
    Collect(f => FieldError(d, f), CheckOrder)
  }

  /** A form meeting every rule has no message. */
  lemma AcceptableHasNoErrors(d: FormData, f: Field)
    requires Acceptable(d)
    ensures FieldError(d, f).None?
  {
    match f
    case Username =>
    case FirstName =>
    case LastName =>
    case Email =>
    case Password =>
    case ConfirmPassword =>
  }

  /** A form without messages meets every rule. */
  lemma NoErrorsIsAcceptable(d: FormData)
    requires FieldError(d, Username).None? && FieldError(d, FirstName).None? && FieldError(d, LastName).None?
    requires FieldError(d, Email).None? && FieldError(d, Password).None? && FieldError(d, ConfirmPassword).None?
    ensures Acceptable(d)
  {
    assert !IsBlank(d.username) && |d.username| >= 3 by { assert FieldError(d, Username).None?; }
    assert !IsBlank(d.firstName) by { assert FieldError(d, FirstName).None?; }
    assert !IsBlank(d.lastName) by { assert FieldError(d, LastName).None?; }
    assert d.email != "" && Helpers.IsValidEmail(d.email) by { assert FieldError(d, Email).None?; }
  }

  /** No field has a message exactly when every field meets its rule. */
  lemma NoErrorsIffAcceptable(d: FormData)
    ensures (forall f :: FieldError(d, f).None?) <==> Acceptable(d)
  {
    if Acceptable(d) {
      forall f ensures FieldError(d, f).None? {
        AcceptableHasNoErrors(d, f);
      }
    } else if FieldError(d, Username).None? && FieldError(d, FirstName).None? && FieldError(d, LastName).None?
      && FieldError(d, Email).None? && FieldError(d, Password).None? && FieldError(d, ConfirmPassword).None? {
      NoErrorsIsAcceptable(d);
    }
  }

  /** Only the blank check trims: a name padded to three characters passes
      the length check although its trimmed text is shorter. */
  lemma PaddedShortUsernamePasses(d: FormData)
    requires d.username == " ab"
    ensures FieldError(d, Username).None?
  {
    assert !IsWhitespace(d.username[1]);
    BlankIffAllWhitespace(d.username);
  }

  /** A blank username gets the "required" message even when it is short, so
      the "required" check takes priority. */
  lemma RequiredBeforeLength(d: FormData)
    requires d.username == " "
    ensures FieldError(d, Username) == Some("Username is required")
  {
    BlankIffAllWhitespace(d.username);
  }

  const RegistrationFailedMessage := "Registration failed. Please try again."

  /** The form's state. */
  class Form {
    var formData: FormData
    var errors: map<Field, string>
    var apiError: string

    constructor ()
      ensures formData == FormData("", "", "", "", "", "") && errors == map[] && apiError == ""
    {
      formData := FormData("", "", "", "", "", "");
      errors := map[];
      apiError := "";
    }

    /** `handleInputChange`: the value changes, that field's message and the
        server message are cleared, and every other message stays. */
    method HandleInputChange(f: Field, value: string)
      modifies this
      ensures formData == WithValue(old(formData), f, value)
      ensures errors == ClearError(old(errors), f)
      ensures apiError == ""
    {
      formData := WithValue(formData, f, value);
      if f in errors && errors[f] != "" {
        errors := errors[f := ""];
      }
      if apiError != "" {
        apiError := "";
      }
    }

    /** `handleSubmit`: validates; an invalid form sends nothing. A valid one
        sends the fields as typed, then either reports success or shows the
        server's message. */
    method HandleSubmit(outcome: Result<AuthResponse, ApiError>)
      returns (request: Option<RegisterRequest>, success: Option<AuthSuccess>)
      modifies this`errors, this`apiError
      ensures errors == ValidateForm(formData)
      ensures request.Some? <==> Acceptable(formData)
      ensures request.Some? ==> request.value == RegisterRequest(
        formData.username, formData.email, formData.password, formData.firstName, formData.lastName)
      ensures success.Some? <==> request.Some? && outcome.Ok?
      ensures success.Some? ==> success.value == OnAuthSuccess(outcome.value)
      ensures request.Some? && outcome.Err? ==>
        apiError == ServerErrorMessage(outcome.error, RegistrationFailedMessage)
      ensures !(request.Some? && outcome.Err?) ==> apiError == old(apiError)
    {
      var newErrors := ValidateForm(formData);
      errors := newErrors;
      NoErrorsIffAcceptable(formData);
      if |newErrors| != 0 {
        ghost var f :| f in newErrors;
        assert FieldError(formData, f).Some?;
        return None, None;
      }
      request := Some(RegisterRequest(
        formData.username, formData.email, formData.password, formData.firstName, formData.lastName));
      if outcome.Ok? {
        success := Some(OnAuthSuccess(outcome.value));
      } else {
        success := None;
        apiError := ServerErrorMessage(outcome.error, RegistrationFailedMessage);
      }
    }

    /** `handleGoogleSignInResponse`: a missing token shows an error and sends
        nothing; otherwise the token goes to the server. */
    method HandleGoogleResponse(credential: Option<string>, outcome: Result<AuthResponse, ApiError>)
      returns (request: Option<OAuthLoginRequest>, success: Option<AuthSuccess>)
      modifies this`apiError
      ensures request.None? <==> !Truthy(credential)
      ensures request.Some? ==> request.value == OAuthLoginRequest("Google", credential.value)
      ensures request.None? ==> apiError == MissingIdTokenMessage && success.None?
      ensures request.Some? && outcome.Ok? ==> success == Some(OnAuthSuccess(outcome.value)) && apiError == old(apiError)
      ensures request.Some? && outcome.Err? ==>
        success.None? && apiError == ServerErrorMessage(outcome.error, GoogleSignInFailedMessage)
    {
      var payload := GoogleSignIn(credential);
      if payload.Err? {
        apiError := payload.error;
        return None, None;
      }
      request := Some(payload.value);
      if outcome.Ok? {
        success := Some(OnAuthSuccess(outcome.value));
      } else {
        success := None;
        apiError := ServerErrorMessage(outcome.error, GoogleSignInFailedMessage);
      }
    }

    /** `handleGoogleSignInError`: the widget itself failed. */
    method HandleGoogleSignInError()
      modifies this`apiError
      ensures apiError == GoogleSignInFailedMessage
    {
      apiError := GoogleSignInFailedMessage;
    }
  }
}
