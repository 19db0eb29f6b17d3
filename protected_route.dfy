/**
 * The route guard (src/components/common/ProtectedRoute.tsx): a spinner
 * while the session is loading, a redirect to the sign-in page for a
 * visitor with neither a session nor a token, and the page otherwise.
 */
module ProtectedRoute {
  import opened Types
  import opened JsText

  datatype Outcome = Spinner | RedirectToLogin | RenderChildren

  /** The guard, read top to bottom: loading wins, then the redirect when
      the store is neither authenticated nor holds a token. */
  function Decide(isLoading: bool, isAuthenticated: bool, token: Option<string>): (o: Outcome)
    ensures isLoading ==> o == Spinner
    ensures o == RedirectToLogin <==> !isLoading && !isAuthenticated && !Truthy(token)
    ensures o == RenderChildren <==> !isLoading && (isAuthenticated || Truthy(token))
  {
    if isLoading then Spinner
    else if !isAuthenticated && !Truthy(token) then RedirectToLogin
    else RenderChildren
  }

  /** The guard applied to the session store. */
  function Guard(auth: AuthState): Outcome {
    Decide(auth.isLoading, auth.isAuthenticated, auth.token)
  }

  /** Only the loading flag, the authenticated flag and the token matter:
      stores that agree on those three are guarded alike. */
  lemma GuardReadsThreeFields(a: AuthState, b: AuthState)
    requires a.isLoading == b.isLoading && a.isAuthenticated == b.isAuthenticated
    requires Truthy(a.token) == Truthy(b.token)
    ensures Guard(a) == Guard(b)
  {
  }

  /** A token alone lets the page render, before the store is marked as
      authenticated. */
  lemma TokenAloneRenders(t: string)
    requires t != ""
    ensures Decide(false, false, Some(t)) == RenderChildren
  {
  }

  /** An empty token counts as no token. */
  lemma EmptyTokenRedirects()
    ensures Decide(false, false, Some("")) == RedirectToLogin
  {
  }
}
