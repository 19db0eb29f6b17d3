/**
 * The sign-in form (src/components/auth/LoginForm.tsx): the redirect of a
 * signed-in visitor, the email and password checks, clearing errors on
 * edit, the request sent when the form is valid, and its error messages.
 */
module LoginForm {
  import opened Types
  import opened JsText
  import Helpers
  import opened AuthForms

  datatype Field = Email | Password

  datatype FormData = FormData(email: string, password: string)

  /** `setFormData(prev => ({ ...prev, [name]: value }))`. */
  function WithValue(d: FormData, f: Field, v: string): (r: FormData)
    ensures f == Email ==> r == FormData(v, d.password)
    ensures f == Password ==> r == FormData(d.email, v)
  {
    match f
    case Email => d.(email := v)
    case Password => d.(password := v)
  }

  /** The one message a field gets, if any. Unlike sign-up, no password
      length is demanded. */
  function FieldError(d: FormData, f: Field): Option<string> {
    match f
    case Email =>
      if d.email == "" then Some("Email is required")
      else if !Helpers.IsValidEmail(d.email) then Some("Please enter a valid email")
      else None
    case Password =>
      if d.password == "" then Some("Password is required") else None
  }

  const CheckOrder := [Email, Password]

  /** `validateForm`: the error object holds a field exactly when the field
      has a message. */
  function ValidateForm(d: FormData): (errors: map<Field, string>)
    ensures forall f :: f in errors <==> FieldError(d, f).Some?
    ensures forall f :: f in errors ==> errors[f] == FieldError(d, f).value
  {
    assert forall f :: f in CheckOrder by {
      forall f ensures f in CheckOrder {
        if f == Email { assert CheckOrder[0] == f; } else { assert CheckOrder[1] == f; }
      }
    }
    Collect(f => FieldError(d, f), CheckOrder)
  }

  /** The form is accepted exactly when the email is a valid address and a
      password, of any length, is given. */
  lemma ValidIff(d: FormData)
    ensures ValidateForm(d) == map[] <==> Helpers.IsValidEmail(d.email) && d.password != ""
  {
    var errors := ValidateForm(d);
    if Helpers.IsValidEmail(d.email) && d.password != "" {
      Helpers.IsValidEmailIff(d.email);
      assert d.email != "";
      assert forall f :: f !in errors;
    } else if !Helpers.IsValidEmail(d.email) {
      assert Email in errors;
    } else {
      assert Password in errors;
    }
  }

  /** A one-character password is accepted here, though sign-up demands six. */
  lemma ShortPasswordAccepted(d: FormData)
    requires d.password == "x"
    ensures FieldError(d, Password).None?
  {
  }

  /** `authToken && authUser`: someone is signed in already. The form then
      redirects to '/' and shows only a spinner. */
  predicate SignedIn(authToken: Option<string>, authUser: Option<User>) {
    Truthy(authToken) && authUser.Some?
  }

  datatype View = Spinner | TheForm

  /** What the component renders and where its effect navigates. */
  function Render(authToken: Option<string>, authUser: Option<User>): (r: (View, Option<string>))
    ensures r.0 == Spinner <==> r.1 == Some("/")
    ensures r.0 == Spinner <==> Truthy(authToken) && authUser.Some?
  {
    if SignedIn(authToken, authUser) then (Spinner, Some("/")) else (TheForm, None)
  }

  /** An empty token does not count as signed in, even with a user. */
  lemma EmptyTokenShowsForm(u: User)
    ensures Render(Some(""), Some(u)).0 == TheForm
  {
  }

  const LoginFailedMessage := "Login failed. Please check your credentials and try again."

  /** The form's state. */
  class Form {
    var formData: FormData
    var errors: map<Field, string>
    var apiError: string

    constructor ()
      ensures formData == FormData("", "") && errors == map[] && apiError == ""
    {
      formData := FormData("", "");
      errors := map[];
      apiError := "";
    }

    /** `handleInputChange`: the value changes, that field's message and the
        server message are cleared, and every other message stays. */
    method HandleInputChange(f: Field, value: string)
      modifies this
      ensures formData == WithValue(old(formData), f, value)
      ensures errors == ClearError(old(errors), f)
      ensures apiError == ""
    {
      formData := WithValue(formData, f, value);
      if f in errors && errors[f] != "" {
        errors := errors[f := ""];
      }
      if apiError != "" {
        apiError := "";
      }
    }

    /** `handleSubmit`: an invalid form sends nothing; a valid one sends the
        email and password as typed, then either reports success or shows
        the server's message. */
    method HandleSubmit(outcome: Result<AuthResponse, ApiError>)
      returns (request: Option<LoginRequest>, success: Option<AuthSuccess>)
      modifies this`errors, this`apiError
      ensures errors == ValidateForm(formData)
      ensures request.Some? <==> Helpers.IsValidEmail(formData.email) && formData.password != ""
      ensures request.Some? ==> request.value == LoginRequest(formData.email, formData.password)
      ensures success.Some? <==> request.Some? && outcome.Ok?
      ensures success.Some? ==> success.value == OnAuthSuccess(outcome.value)
      ensures request.Some? && outcome.Err? ==>
        apiError == ServerErrorMessage(outcome.error, LoginFailedMessage)
      ensures !(request.Some? && outcome.Err?) ==> apiError == old(apiError)
    {
      var newErrors := ValidateForm(formData);
      errors := newErrors;
      ValidIff(formData);
      if |newErrors| != 0 {
        assert newErrors != map[];
        return None, None;
      }
      assert newErrors == map[];
      request := Some(LoginRequest(formData.email, formData.password));
      if outcome.Ok? {
        success := Some(OnAuthSuccess(outcome.value));
      } else {
        success := None;
        apiError := ServerErrorMessage(outcome.error, LoginFailedMessage);
      }
    }

    /** `handleGoogleSignInResponse`, as in the sign-up form. */
    method HandleGoogleResponse(credential: Option<string>, outcome: Result<AuthResponse, ApiError>)
      returns (request: Option<OAuthLoginRequest>, success: Option<AuthSuccess>)
      modifies this`apiError
      ensures request.None? <==> !Truthy(credential)
      ensures request.Some? ==> request.value == OAuthLoginRequest("Google", credential.value)
      ensures request.None? ==> apiError == MissingIdTokenMessage && success.None?
      ensures request.Some? && outcome.Ok? ==> success == Some(OnAuthSuccess(outcome.value)) && apiError == old(apiError)
      ensures request.Some? && outcome.Err? ==>
        success.None? && apiError == ServerErrorMessage(outcome.error, GoogleSignInFailedMessage)
    {
      var payload := GoogleSignIn(credential);
      if payload.Err? {
        apiError := payload.error;
        return None, None;
      }
      request := Some(payload.value);
      if outcome.Ok? {
        success := Some(OnAuthSuccess(outcome.value));
      } else {
        success := None;
        apiError := ServerErrorMessage(outcome.error, GoogleSignInFailedMessage);
      }
    }

    /** `handleGoogleSignInError`: the widget itself failed. */
    method HandleGoogleSignInError()
      modifies this`apiError
      ensures apiError == GoogleSignInFailedMessage
    {
      apiError := GoogleSignInFailedMessage;
    }
  }
}
