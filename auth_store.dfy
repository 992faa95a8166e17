/**
 * The session store: who is signed in, with which token, whether a request is
 * in flight, and where to go after signing in. Each operation is given as a
 * transition on a snapshot of the five fields (`LoggedIn`, `SignedUp`,
 * `LoggedOut`, `WithReturnUrl`) and implemented by the `Store` class, whose
 * methods update the fields in place and are proved to perform that
 * transition. The authentication service is replaced by an outcome parameter.
 */
module AuthStore {
  import opened JsLib

  /** A signed-in user; `avatar` is optional. */
  datatype User = User(id: string, username: string, email: string, avatar: Option<string>)

  /**
   * What the login request produced. `LoginOk` is a 2xx response whose JSON
   * body was read; its `user` and `token` fields are taken as they are and may
   * be missing. Every other outcome (non-2xx status, network error, unreadable
   * body) is `LoginFailed`.
   */
  datatype LoginOutcome = LoginOk(user: Option<User>, token: Option<string>) | LoginFailed

  /** What the signup request produced. */
  datatype SignupOutcome = SignupOk | SignupFailed

  /** The five fields of the store. */
  datatype AuthState = AuthState(
    user: Option<User>,
    token: Option<string>,
    isAuthenticated: bool,
    isLoading: bool,
    returnUrl: Option<string>)

  /** The state before anything has happened. */
  const Initial: AuthState := AuthState(None, None, false, false, None)

  const MockToken: string := "mock-token-12345"
  const AvatarBase: string := "https://api.dicebear.com/7.x/avataaars/svg?seed="

  // ---------------------------------------------------------------------------
  // The mock user
  // ---------------------------------------------------------------------------

  /** `email.split('@')[0]`: the text before the first '@', or all of it. */
  function LocalPart(email: string): (r: string)
    ensures r <= email
    ensures '@' !in r
    ensures |r| < |email| ==> email[|r|] == '@'
    decreases |email|
  {
    if email == [] || email[0] == '@' then [] else [email[0]] + LocalPart(email[1..])
  }

  /** An address without '@' is its own local part. */
  lemma LocalPartWithoutAt(email: string)
    requires '@' !in email
    ensures LocalPart(email) == email
  {
  }

  /** The local part of `name + "@" + domain` is `name` when `name` holds no '@'. */
  lemma {:induction false} LocalPartOfAddress(name: string, domain: string)
    requires '@' !in name
    ensures LocalPart(name + "@" + domain) == name
    decreases |name|
  {
    if name != [] {
      assert (name + "@" + domain)[1..] == name[1..] + "@" + domain;
      LocalPartOfAddress(name[1..], domain);
    }
  }

  /** The user the demo fallback signs in. */
  function MockUser(email: string): (u: User)
    ensures u.id == "1" && u.email == email
    ensures u.username == LocalPart(email)
    ensures u.avatar == Some(AvatarBase + email)
  {
    User("1", LocalPart(email), email, Some(AvatarBase + email))
  }

  // ---------------------------------------------------------------------------
  // The transitions
  // ---------------------------------------------------------------------------

  /**
   * `login`: on a readable 2xx response the user and token come from the
   * body; on any failure the mock user and mock token are used. Either way
   * the session is marked authenticated and the return address is kept.
   */
  function LoggedIn(s: AuthState, email: string, outcome: LoginOutcome): (t: AuthState)
    ensures t.isAuthenticated && !t.isLoading
    ensures t.returnUrl == s.returnUrl
    ensures outcome.LoginOk? ==> t.user == outcome.user && t.token == outcome.token
    ensures outcome.LoginFailed? ==> t.user == Some(MockUser(email)) && t.token == Some(MockToken)
  {
    match outcome
    case LoginOk(user, token) => s.(user := user, token := token, isAuthenticated := true, isLoading := false)
    case LoginFailed => s.(user := Some(MockUser(email)), token := Some(MockToken), isAuthenticated := true, isLoading := false)
  }

  /** `signup`: whatever the outcome, only the loading flag changes, to false. */
  function SignedUp(s: AuthState, outcome: SignupOutcome): (t: AuthState)
    ensures !t.isLoading
    ensures t.user == s.user && t.token == s.token
    ensures t.isAuthenticated == s.isAuthenticated && t.returnUrl == s.returnUrl
  {
    s.(isLoading := false)
  }

  /** `logout`: the session and the return address are cleared; loading is kept. */
  function LoggedOut(s: AuthState): (t: AuthState)
    ensures t.user == None && t.token == None && !t.isAuthenticated && t.returnUrl == None
    ensures t.isLoading == s.isLoading
  {
    s.(user := None, token := None, isAuthenticated := false, returnUrl := None)
  }

  /** `setReturnUrl`: only the return address changes. */
  function WithReturnUrl(s: AuthState, url: Option<string>): (t: AuthState)
    ensures t.returnUrl == url
    ensures t.user == s.user && t.token == s.token
    ensures t.isAuthenticated == s.isAuthenticated && t.isLoading == s.isLoading
  {
    s.(returnUrl := url)
  }

  // ---------------------------------------------------------------------------
  // The session invariant
  // ---------------------------------------------------------------------------

  /** The session is authenticated exactly when both a user and a token are present. */
  predicate Consistent(s: AuthState) {
    s.isAuthenticated == (s.user.Some? && s.token.Some?)
  }

  /** A login response that carries both a user and a token. */
  predicate CompleteResponse(outcome: LoginOutcome) {
    outcome.LoginOk? ==> outcome.user.Some? && outcome.token.Some?
  }

  /**
   * Every operation keeps the session invariant, provided a successful login
   * response carries a user and a token (the code does not check this), and
   * a response that lacks either breaks it.
   */
  lemma TransitionsKeepConsistent(s: AuthState, email: string, outcome: LoginOutcome,
                                  signup: SignupOutcome, url: Option<string>)
    ensures Consistent(Initial)
    ensures Consistent(LoggedIn(s, email, outcome)) <==> CompleteResponse(outcome)
    ensures Consistent(s) ==> Consistent(SignedUp(s, signup))
    ensures Consistent(LoggedOut(s))
    ensures Consistent(s) ==> Consistent(WithReturnUrl(s, url))
  {
  }

  /** Signing up never signs the user in. */
  lemma SignupDoesNotAuthenticate(s: AuthState, outcome: SignupOutcome)
    requires !s.isAuthenticated
    ensures !SignedUp(s, outcome).isAuthenticated && SignedUp(s, outcome).user == s.user
  {
  }

  // ---------------------------------------------------------------------------
  // Persistence
  // ---------------------------------------------------------------------------

  /** The part of the state written to storage. */
  datatype Persisted = Persisted(user: Option<User>, token: Option<string>, isAuthenticated: bool)

  /** `partialize`: user, token and the authenticated flag, nothing else. */
  function Partialize(s: AuthState): (p: Persisted)
    ensures p.user == s.user && p.token == s.token && p.isAuthenticated == s.isAuthenticated
  {
    Persisted(s.user, s.token, s.isAuthenticated)
  }

  /** Rehydration: the initial state overlaid with the persisted fields. */
  function Rehydrate(p: Persisted): (s: AuthState)
    ensures s.user == p.user && s.token == p.token && s.isAuthenticated == p.isAuthenticated
    ensures s.isLoading == Initial.isLoading && s.returnUrl == Initial.returnUrl
  {
    Initial.(user := p.user, token := p.token, isAuthenticated := p.isAuthenticated)
  }

  /**
   * A restart keeps exactly the persisted fields: what is stored comes back,
   * and a state survives a restart unchanged exactly when it is not loading
   * and has no return address.
   */
  lemma PersistRoundTrip(s: AuthState, p: Persisted)
    ensures Partialize(Rehydrate(p)) == p
    ensures Rehydrate(Partialize(s)) == s <==> !s.isLoading && s.returnUrl.None?
    ensures Consistent(s) ==> Consistent(Rehydrate(Partialize(s)))
  {
  }

  // ---------------------------------------------------------------------------
  // The store object
  // ---------------------------------------------------------------------------

  /** The store: one object whose fields every page reads and updates. */
  class Store {
    var user: Option<User>
    var token: Option<string>
    var isAuthenticated: bool
    var isLoading: bool
    var returnUrl: Option<string>

    /** The current field values. */
    function State(): AuthState
      reads this
    {
      AuthState(user, token, isAuthenticated, isLoading, returnUrl)
    }

    constructor ()
      ensures State() == Initial
    {
      user := None;
      token := None;
      isAuthenticated := false;
      isLoading := false;
      returnUrl := None;
    }

    /** Start from the stored record, as after a page reload. */
    constructor Restore(p: Persisted)
      ensures State() == Rehydrate(p)
    {
      user := p.user;
      token := p.token;
      isAuthenticated := p.isAuthenticated;
      isLoading := false;
      returnUrl := None;
    }

    /** `login`: loading while the request is pending, then the outcome's session. Always true. */
    method Login(email: string, outcome: LoginOutcome) returns (success: bool)
      modifies this
      ensures success
      ensures State() == LoggedIn(old(State()), email, outcome)
    {
      isLoading := true;
      match outcome {
        case LoginOk(u, t) =>
          user := u;
          token := t;
          isAuthenticated := true;
          isLoading := false;
        case LoginFailed =>
          user := Some(MockUser(email));
          token := Some(MockToken);
          isAuthenticated := true;
          isLoading := false;
      }
      success := true;
    }

    /** `signup`: loading while the request is pending, then not. Always true. */
    method Signup(outcome: SignupOutcome) returns (success: bool)
      modifies this
      ensures success
      ensures State() == SignedUp(old(State()), outcome)
    {
      isLoading := true;
      isLoading := false;
      success := true;
    }

    method Logout()
      modifies this
      ensures State() == LoggedOut(old(State()))
    {
      user := None;
      token := None;
      isAuthenticated := false;
      returnUrl := None;
    }

    method SetReturnUrl(url: Option<string>)
      modifies this
      ensures State() == WithReturnUrl(old(State()), url)
    {
      returnUrl := url;
    }
  }
}
