/**
 * The guard in front of the dashboard pages: an unauthenticated visitor is
 * sent to the sign-in page with replace-navigation, and the path they asked
 * for is remembered in the store so that signing in can bring them back.
 */
module ProtectedRoute {
  import opened JsLib
  import opened AuthStore

  /** What the guard renders. */
  datatype Render = Children | RedirectToLogin(target: string, replace: bool)

  /** The render decision: the protected content only for an authenticated session. */
  function Decision(isAuthenticated: bool): (r: Render)
    ensures r.Children? <==> isAuthenticated
    ensures r.RedirectToLogin? ==> r.target == "/login" && r.replace
  {
    if isAuthenticated then Children else RedirectToLogin("/login", true)
  }

  /** The guard's effect on the store: remember the path when not signed in. */
  function Guarded(s: AuthState, pathname: string): (t: AuthState)
    ensures !s.isAuthenticated ==> t == WithReturnUrl(s, Some(pathname))
    ensures s.isAuthenticated ==> t == s
  {
    if !s.isAuthenticated then WithReturnUrl(s, Some(pathname)) else s
  }

  /**
   * The guard never touches the session itself: user, token, the
   * authenticated flag and the loading flag are as before, and the session
   * invariant is kept.
   */
  lemma GuardKeepsSession(s: AuthState, pathname: string)
    ensures Guarded(s, pathname).user == s.user && Guarded(s, pathname).token == s.token
    ensures Guarded(s, pathname).isAuthenticated == s.isAuthenticated
    ensures Guarded(s, pathname).isLoading == s.isLoading
    ensures Consistent(s) ==> Consistent(Guarded(s, pathname))
  {
    TransitionsKeepConsistent(s, "", LoginFailed, SignupOk, Some(pathname));
  }

  /** A visit to `pathname`: the render and, when redirecting, the store write. */
  method Guard(store: Store, pathname: string) returns (r: Render)
    modifies store
    ensures r == Decision(old(store.isAuthenticated))
    ensures store.State() == Guarded(old(store.State()), pathname)
  {
    if !store.isAuthenticated {
      store.SetReturnUrl(Some(pathname));
    }
    r := Decision(store.isAuthenticated);
  }
}
