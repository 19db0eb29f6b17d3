/**
 * What the sign-in and sign-up forms (src/components/auth/LoginForm.tsx and
 * src/components/auth/RegisterForm.tsx) share: the chain of places a
 * server's error message is looked for, the Google sign-in guard and
 * payload, clearing a field's error on edit, and the success outcome.
 * The shorter `error.data?.message || fallback` chain of the other
 * components is here too.
 */
module AuthForms {
  import opened Types
  import opened JsText

  /** `error.data?.errors?.[0]?.description`. */
  function FirstDescription(d: ErrorData): Option<string> {
    if d.errors.Some? && |d.errors.value| > 0 then d.errors.value[0].description else None
  }

  /** The places looked at, in order: `data.message`, `data.error`,
      `data.errors[0].description`, `data.title`, `error.message`. */
  function Candidates(e: ApiError): (c: seq<Option<string>>)
    ensures |c| == 5
    ensures c[0] == (if e.data.Some? then e.data.value.message else None)
    ensures c[1] == (if e.data.Some? then e.data.value.error else None)
    ensures c[2] == (if e.data.Some? && e.data.value.errors.Some? && |e.data.value.errors.value| > 0
                     then e.data.value.errors.value[0].description else None)
    ensures c[3] == (if e.data.Some? then e.data.value.title else None)
    ensures c[4] == e.message
  {
    match e.data
    case None => [None, None, None, None, e.message]
    case Some(d) => [d.message, d.error, FirstDescription(d), d.title, e.message]
  }

  /** `c[0] || c[1] || ... || fallback` over optional strings. */
  function FirstTruthy(c: seq<Option<string>>, fallback: string): string
    decreases |c|
  {
    if c == [] then fallback
    else if Truthy(c[0]) then c[0].value
    else FirstTruthy(c[1..], fallback)
  }

  /** With no truthy candidate the chain gives the fallback. */
  lemma {:induction false} NoneTruthyGivesFallback(c: seq<Option<string>>, fallback: string)
    requires forall k :: 0 <= k < |c| ==> !Truthy(c[k])
    ensures FirstTruthy(c, fallback) == fallback
    decreases |c|
  {
    if c != [] {
      assert !Truthy(c[0]);
      assert forall k :: 0 <= k < |c[1..]| ==> c[1..][k] == c[k + 1];
      NoneTruthyGivesFallback(c[1..], fallback);
    }
  }

  /** The chain stops at the first truthy candidate. */
  lemma {:induction false} FirstTruthyAt(c: seq<Option<string>>, fallback: string, k: nat)
    requires k < |c| && Truthy(c[k])
    requires forall j :: 0 <= j < k ==> !Truthy(c[j])
    ensures FirstTruthy(c, fallback) == c[k].value
    decreases k
  {
    if k > 0 {
      assert !Truthy(c[0]);
      assert c[1..][k - 1] == c[k];
      assert forall j :: 0 <= j < k - 1 ==> c[1..][j] == c[j + 1];
      FirstTruthyAt(c[1..], fallback, k - 1);
    }
  }

  /** The chain's value is the first truthy candidate, or the fallback when
      there is none. */
  lemma FirstTruthyIsFirst(c: seq<Option<string>>, fallback: string)
    ensures (forall k :: 0 <= k < |c| ==> !Truthy(c[k])) ==> FirstTruthy(c, fallback) == fallback
    ensures forall k :: 0 <= k < |c| && Truthy(c[k]) && (forall j :: 0 <= j < k ==> !Truthy(c[j])) ==>
      FirstTruthy(c, fallback) == c[k].value
  {
    if forall k :: 0 <= k < |c| ==> !Truthy(c[k]) {
      NoneTruthyGivesFallback(c, fallback);
    }
    forall k | 0 <= k < |c| && Truthy(c[k]) && (forall j :: 0 <= j < k ==> !Truthy(c[j]))
      ensures FirstTruthy(c, fallback) == c[k].value
    {
      FirstTruthyAt(c, fallback, k);
    }
  }

  /** The message a failed sign-in or sign-up shows. */
  function ServerErrorMessage(e: ApiError, fallback: string): string {
    FirstTruthy(Candidates(e), fallback)
  }

  /** The chain position by position: the first truthy of `data.message`,
      `data.error`, `data.errors[0].description`, `data.title` and
      `error.message`, else the fallback; and the message is non-empty
      whenever the fallback is. */
  lemma ServerErrorMessageChain(e: ApiError, fallback: string)
    ensures var m := ServerErrorMessage(e, fallback);
      var c := Candidates(e);
      (Truthy(c[0]) ==> m == c[0].value) &&
      (!Truthy(c[0]) && Truthy(c[1]) ==> m == c[1].value) &&
      (!Truthy(c[0]) && !Truthy(c[1]) && Truthy(c[2]) ==> m == c[2].value) &&
      (!Truthy(c[0]) && !Truthy(c[1]) && !Truthy(c[2]) && Truthy(c[3]) ==> m == c[3].value) &&
      (!Truthy(c[0]) && !Truthy(c[1]) && !Truthy(c[2]) && !Truthy(c[3]) && Truthy(c[4]) ==> m == c[4].value) &&
      (!Truthy(c[0]) && !Truthy(c[1]) && !Truthy(c[2]) && !Truthy(c[3]) && !Truthy(c[4]) ==> m == fallback)
    ensures fallback != "" ==> ServerErrorMessage(e, fallback) != ""
  {
    var c := Candidates(e);
    FirstTruthyIsFirst(c, fallback);
    FirstTruthyNonEmpty(c, fallback);
  }

  lemma {:induction false} FirstTruthyNonEmpty(c: seq<Option<string>>, fallback: string)
    ensures fallback != "" ==> FirstTruthy(c, fallback) != ""
    decreases |c|
  {
    if c != [] {
      FirstTruthyNonEmpty(c[1..], fallback);
    }
  }

  /** `error.data?.message || fallback`, the chain of the post, comment and
      logout components. */
  function DataMessageOr(e: ApiError, fallback: string): (m: string)
    ensures e.data.Some? && Truthy(e.data.value.message) ==> m == e.data.value.message.value
    ensures !(e.data.Some? && Truthy(e.data.value.message)) ==> m == fallback
  {
    if e.data.Some? && Truthy(e.data.value.message) then e.data.value.message.value else fallback
  }

  const MissingIdTokenMessage := "Google Sign-In failed to retrieve ID token."
  const GoogleSignInFailedMessage := "Google Sign-In failed. Please try again."

  /** `handleGoogleSignInResponse` up to the request: a missing or empty ID
      token is an error and sends nothing; otherwise the token is forwarded
      unchanged with provider 'Google'. */
  function GoogleSignIn(credential: Option<string>): (r: Result<OAuthLoginRequest, string>)
    ensures r.Err? <==> !Truthy(credential)
    ensures r.Err? ==> r.error == MissingIdTokenMessage
    ensures r.Ok? ==> r.value.accessToken == credential.value && r.value.provider == "Google"
  {
    if !Truthy(credential) then Err(MissingIdTokenMessage)
    else Ok(OAuthLoginRequest(provider := "Google", accessToken := credential.value))
  }

  /** `if (errors[name]) setErrors(prev => ({ ...prev, [name]: '' }))`: the
      edited field's message becomes empty, every other entry stays. */
  function ClearError<F>(errors: map<F, string>, f: F): (r: map<F, string>)
    ensures r.Keys == errors.Keys
    ensures f in r ==> r[f] == ""
    ensures forall g :: g in errors && g != f ==> r[g] == errors[g]
  {
    if f in errors && errors[f] != "" then errors[f := ""] else errors
  }

  /** Records field `f`'s message, if it has one: one check of a form's
      `validateForm`. */
  function Put<F>(m: map<F, string>, f: F, e: Option<string>): map<F, string> {
    if e.Some? then m[f := e.value] else m
  }

  /** The error object a `validateForm` builds by checking `fields` in
      order: it holds a checked field exactly when that field has a message,
      and then holds that message. */
  function Collect<F(!new)>(check: F -> Option<string>, fields: seq<F>): (errors: map<F, string>)
    ensures forall f :: f in errors <==> f in fields && check(f).Some?
    ensures forall f :: f in errors ==> errors[f] == check(f).value
    decreases |fields|
  {
    if fields == [] then map[]
    else
      var init := fields[..|fields| - 1];
      var last := fields[|fields| - 1];
      assert fields == init + [last];
      Put(Collect(check, init), last, check(last))
  }

  /** The server's answer to a successful sign-in, sign-up or Google sign-in. */
  datatype AuthResponse = AuthResponse(user: User, token: string, sessionId: string)

  /** What a success does visibly: store the credentials and go to '/'. */
  datatype AuthSuccess = AuthSuccess(credentialsUser: User, credentialsToken: string, navigateTo: string)

  function OnAuthSuccess(r: AuthResponse): (s: AuthSuccess)
    ensures s.credentialsUser == r.user && s.credentialsToken == r.token && s.navigateTo == "/"
  {
    AuthSuccess(r.user, r.token, "/")
  }
}
