/**
 * The sign-in form's submit handler: sign in, go where the store's return
 * address says (or to the dashboard), and clear the return address.
 */
module LoginPage {
  import opened JsLib
  import opened AuthStore
  import ProtectedRoute
  import EventDetails

  /** `returnUrl || '/dashboard'`: an absent or empty return address falls back. */
  function RedirectTarget(returnUrl: Option<string>): (r: string)
    ensures returnUrl.Some? && returnUrl.value != "" ==> r == returnUrl.value
    ensures returnUrl.None? || returnUrl.value == "" ==> r == "/dashboard"
    ensures r != ""
  {
    if returnUrl.Some? && returnUrl.value != "" then returnUrl.value else "/dashboard"
  }

  /** The store after a submit, and where the page navigates (if anywhere). */
  datatype Submission = Submission(state: AuthState, navigateTo: Option<string>)

  /**
   * `onSubmit`. The return address is the one the page read when it rendered;
   * `login` leaves it as it is, so it is also the store's value at the time.
   * Since `login` always succeeds, the page always navigates; the failure
   * branch of the handler, which would neither navigate nor clear the return
   * address, is never taken.
   */
  function Submitted(s: AuthState, email: string, outcome: LoginOutcome): (r: Submission)
    ensures r.navigateTo == Some(RedirectTarget(s.returnUrl))
    ensures r.state == WithReturnUrl(LoggedIn(s, email, outcome), None)
  {
    Submission(WithReturnUrl(LoggedIn(s, email, outcome), None), Some(RedirectTarget(s.returnUrl)))
  }

  /**
   * After a submit the session is authenticated and the return address is
   * gone, so a second submit with no guard in between goes to the dashboard.
   */
  lemma SecondSubmitGoesToDashboard(s: AuthState, email1: string, outcome1: LoginOutcome,
                                    email2: string, outcome2: LoginOutcome)
    ensures Submitted(s, email1, outcome1).state.isAuthenticated
    ensures Submitted(s, email1, outcome1).state.returnUrl == None
    ensures Submitted(Submitted(s, email1, outcome1).state, email2, outcome2).navigateTo == Some("/dashboard")
  {
  }

  /**
   * The return-address protocol through the guard: a signed-out visit to a
   * protected path followed by a sign-in lands on that exact path and leaves
   * no return address behind.
   */
  lemma GuardThenSubmit(s: AuthState, pathname: string, email: string, outcome: LoginOutcome)
    requires !s.isAuthenticated && pathname != ""
    ensures Submitted(ProtectedRoute.Guarded(s, pathname), email, outcome).navigateTo == Some(pathname)
    ensures Submitted(ProtectedRoute.Guarded(s, pathname), email, outcome).state.returnUrl == None
  {
  }

  /**
   * The same protocol through the Book-Now button: a signed-out visitor on
   * "/events/<slug>" who signs in comes back to that page.
   */
  lemma BookNowThenSubmit(s: AuthState, showBookingModal: bool, slug: string, email: string, outcome: LoginOutcome)
    requires !s.isAuthenticated
    ensures Submitted(EventDetails.BookNowStep(s, showBookingModal, Some(slug)).state, email, outcome).navigateTo
         == Some("/events/" + slug)
    ensures Submitted(EventDetails.BookNowStep(s, showBookingModal, Some(slug)).state, email, outcome).state.returnUrl
         == None
  {
  }

  /** The handler: sign in, read the return address, clear it, navigate. */
  method OnSubmit(store: Store, email: string, outcome: LoginOutcome) returns (navigateTo: Option<string>)
    modifies store
    ensures Submission(store.State(), navigateTo) == Submitted(old(store.State()), email, outcome)
  {
    var returnUrl := store.returnUrl;
    var success := store.Login(email, outcome);
    if success {
      var redirectTo := RedirectTarget(returnUrl);
      store.SetReturnUrl(None);
      navigateTo := Some(redirectTo);
    } else {
      navigateTo := None;
    }
  }
}
