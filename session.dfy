/**
 * The client-side session store (`AuthProvider`): the bearer token, the user
 * profile, the `loading` flag, the `authToken` cookie and the navigations it
 * issues. The network answers (credential exchange, profile fetch) are inputs.
 */
module Session {
  import opened Wrappers
  import Access

  const CookieExpiryDays: nat := 7
  const LoginPath := Access.LoginPath
  const DashboardPath := Access.DashboardPath

  /** The profile endpoint's user record. */
  datatype Profile = Profile(id: int, name: string, email: string, role: string, avatar: string)

  /** The `authToken` cookie: its value and the `expires` option (days) it was written with. */
  datatype Cookie = Cookie(value: string, expiresDays: nat)

  /** The answer of the credential-exchange endpoint. */
  datatype ExchangeResult = Granted(accessToken: string) | Rejected

  /** The answer of the profile endpoint. */
  datatype ProfileResult = ProfileOk(profile: Profile) | ProfileFailed

  /** Everything the store owns or changes; `navigations` is the log of `router.push` targets. */
  datatype SessionState = SessionState(
    authToken: Option<string>,
    user: Option<Profile>,
    loading: bool,
    cookie: Option<Cookie>,
    navigations: seq<string>)

  /** `!!authToken`: a present, non-empty token; the profile plays no part. */
  predicate Authenticated(s: SessionState) {
    s.authToken.Some? && s.authToken.value != ""
  }

  /** What `Cookies.get('authToken')` returns. */
  function StoredToken(s: SessionState): Option<string> {
    if s.cookie.Some? then Some(s.cookie.value.value) else None
  }

  /** The session as a page reads it. */
  function View(s: SessionState): Access.AuthView {
    Access.AuthView(s.loading, Authenticated(s), if s.user.Some? then Some(s.user.value.role) else None)
  }

  /** The store as first rendered: no token, no user, still loading, the browser's cookie as it is. */
  function Mounted(cookie: Option<Cookie>): SessionState {
    SessionState(None, None, true, cookie, [])
  }

  /**
   * The startup effect. A truthy stored token becomes `authToken` and a profile
   * fetch for it is started (its token is the second component) but not awaited;
   * `loading` ends false either way and nothing else changes.
   */
  function InitStep(s: SessionState): (r: (SessionState, Option<string>))
    ensures !r.0.loading
    ensures r.0.user == s.user && r.0.cookie == s.cookie && r.0.navigations == s.navigations
    ensures r.1.Some? <==> StoredToken(s).Some? && StoredToken(s).value != ""
    ensures r.1.Some? ==> r.0.authToken == r.1 && Authenticated(r.0)
    ensures r.1.None? ==> r.0.authToken == s.authToken
  {
    var stored := StoredToken(s);
    if stored.Some? && stored.value != "" then (s.(authToken := stored, loading := false), stored)
    else (s.(loading := false), None)
  }

  /** `logout`: cookie removed, token and user cleared, navigation to the login page; `loading` kept. */
  function LogoutStep(s: SessionState): (r: SessionState)
    ensures !Authenticated(r) && r.authToken.None? && r.user.None? && r.cookie.None?
    ensures r.loading == s.loading
    ensures r.navigations == s.navigations + [LoginPath]
  {
    s.(authToken := None, user := None, cookie := None, navigations := s.navigations + [LoginPath])
  }

  /** `fetchUserProfile`: a profile answer becomes `user`; any failure logs out. */
  function FetchProfileStep(s: SessionState, outcome: ProfileResult): (r: SessionState)
    ensures outcome.ProfileOk? ==> r == s.(user := Some(outcome.profile))
    ensures outcome.ProfileFailed? ==> r == LogoutStep(s)
  {
    match outcome
    case ProfileOk(p) => s.(user := Some(p))
    case ProfileFailed => LogoutStep(s)
  }

  /**
   * `login`: a rejected exchange returns false and changes nothing; a granted
   * one writes the cookie for 7 days, sets the token, awaits the profile fetch,
   * navigates to the dashboard and returns true, whatever the fetch did.
   */
  function LoginStep(s: SessionState, exchange: ExchangeResult, profile: ProfileResult): (r: (SessionState, bool))
    ensures r.1 <==> exchange.Granted?
    ensures exchange.Rejected? ==> r.0 == s
    ensures exchange.Granted? ==> |r.0.navigations| > 0 && r.0.navigations[|r.0.navigations| - 1] == DashboardPath
  {
    match exchange
    case Rejected => (s, false)
    case Granted(token) =>
      var stored := s.(cookie := Some(Cookie(token, CookieExpiryDays)), authToken := Some(token));
      var fetched := FetchProfileStep(stored, profile);
      (fetched.(navigations := fetched.navigations + [DashboardPath]), true)
  }

  /** The store as the provider component holds it. */
  class AuthProvider {
    var authToken: Option<string>
    var user: Option<Profile>
    var loading: bool
    /** The browser's `authToken` cookie, which this store alone writes and removes. */
    var cookie: Option<Cookie>
    var navigations: seq<string>

    function State(): SessionState
      reads this
    {
      SessionState(authToken, user, loading, cookie, navigations)
    }

    /** `isAuthenticated` as the context exposes it. */
    function IsAuthenticated(): bool
      reads this
    {
      Authenticated(State())
    }

    constructor (storedCookie: Option<Cookie>)
      ensures State() == Mounted(storedCookie)
    {
      authToken := None;
      user := None;
      loading := true;
      cookie := storedCookie;
      navigations := [];
    }

    /** The mount effect; returns the token of the profile fetch it leaves running, if any. */
    method Init() returns (fetchStarted: Option<string>)
      modifies this
      ensures (State(), fetchStarted) == InitStep(old(State()))
    {
      var storedToken := if cookie.Some? then Some(cookie.value.value) else None;
      fetchStarted := None;
      if storedToken.Some? && storedToken.value != "" {
        authToken := storedToken;
        fetchStarted := storedToken;
      }
      loading := false;
    }

    /** Completes a profile fetch sent with `token`; the endpoint's answer is `outcome`. */
    method FetchUserProfile(token: string, outcome: ProfileResult)
      modifies this
      ensures State() == FetchProfileStep(old(State()), outcome)
    {
      match outcome
      case ProfileOk(p) =>
        user := Some(p);
      case ProfileFailed =>
        Logout();
    }

    method Login(email: string, password: string, exchange: ExchangeResult, profile: ProfileResult)
      returns (ok: bool)
      modifies this
      ensures (State(), ok) == LoginStep(old(State()), exchange, profile)
    {
      match exchange
      case Rejected =>
        ok := false;
      case Granted(accessToken) =>
        cookie := Some(Cookie(accessToken, CookieExpiryDays));
        authToken := Some(accessToken);
        FetchUserProfile(accessToken, profile);
        navigations := navigations + [DashboardPath];
        ok := true;
    }

    method Logout()
      modifies this
      ensures State() == LogoutStep(old(State()))
    {
      cookie := None;
      authToken := None;
      user := None;
      navigations := navigations + [LoginPath];
    }
  }

  /** `isAuthenticated` is token presence only: replacing the user never changes it. */
  lemma AuthenticatedIgnoresUser(s: SessionState, u: Option<Profile>)
    ensures Authenticated(s.(user := u)) == Authenticated(s)
    ensures s.authToken == Some("") ==> !Authenticated(s)
  {
  }

  /** Startup without a usable cookie: no token, no user, loading over, no fetch. */
  lemma InitWithoutStoredToken(cookie: Option<Cookie>)
    requires cookie.None? || cookie.value.value == ""
    ensures InitStep(Mounted(cookie)) == (SessionState(None, None, false, cookie, []), None)
  {
  }

  /**
   * Startup with a stored token: the token is set and its profile fetch started,
   * loading is already over and no profile is there yet, so an admin-only page
   * sends even an admin to the dashboard at this point.
   */
  lemma InitWithStoredToken(token: string)
    requires token != ""
    ensures var (s, started) := InitStep(Mounted(Some(Cookie(token, CookieExpiryDays))));
      && started == Some(token) && s.authToken == Some(token)
      && Authenticated(s) && !s.loading && s.user.None?
      && Access.AdminGate(View(s)) == Access.Navigate(DashboardPath)
  {
  }

  /** A failed profile fetch has exactly the effect of `logout`. */
  lemma FailedFetchIsLogout(s: SessionState)
    ensures FetchProfileStep(s, ProfileFailed) == LogoutStep(s)
  {
  }

  /** A successful profile fetch touches neither the token nor the cookie. */
  lemma SuccessfulFetchKeepsToken(s: SessionState, p: Profile)
    ensures FetchProfileStep(s, ProfileOk(p)).authToken == s.authToken
    ensures FetchProfileStep(s, ProfileOk(p)).cookie == s.cookie
    ensures FetchProfileStep(s, ProfileOk(p)).user == Some(p)
  {
  }

  /** Logging out twice leaves the same session as once; only one more login navigation is logged. */
  lemma LogoutIdempotent(s: SessionState)
    ensures LogoutStep(LogoutStep(s)).(navigations := []) == LogoutStep(s).(navigations := [])
    ensures LogoutStep(LogoutStep(s)).navigations == LogoutStep(s).navigations + [LoginPath]
  {
  }

  /** A rejected exchange returns false and leaves cookie, token, user and navigations alone. */
  lemma LoginRejectedChangesNothing(s: SessionState, profile: ProfileResult)
    ensures LoginStep(s, Rejected, profile) == (s, false)
  {
  }

  /**
   * A granted exchange with a good profile: the cookie holds the token for 7
   * days, the user is set and the dashboard is the last navigation.
   */
  lemma LoginGrantedProfileOk(s: SessionState, token: string, p: Profile)
    ensures var (r, ok) := LoginStep(s, Granted(token), ProfileOk(p));
      && ok && r.cookie == Some(Cookie(token, CookieExpiryDays)) && r.authToken == Some(token)
      && r.user == Some(p) && r.navigations == s.navigations + [DashboardPath]
      && (Authenticated(r) <==> token != "")
  {
  }

  /**
   * A granted exchange whose profile fetch fails still returns true, yet ends
   * logged out with the cookie removed; the log shows the login page and then
   * the dashboard.
   */
  lemma LoginTrueButLoggedOut(s: SessionState, token: string)
    ensures var (r, ok) := LoginStep(s, Granted(token), ProfileFailed);
      && ok && !Authenticated(r) && r.cookie.None? && r.user.None?
      && r.navigations == s.navigations + [LoginPath, DashboardPath]
  {
  }

  /** The store's own consistency: a user only with a token, a token only as the cookie's value. */
  predicate Consistent(s: SessionState) {
    && (s.user.Some? ==> s.authToken.Some?)
    && (s.authToken.Some? ==> StoredToken(s) == s.authToken)
  }

  /** Startup, login and logout keep the store consistent, and so does a fetch made while a token is set. */
  lemma {:induction false} StepsKeepConsistent(s: SessionState, exchange: ExchangeResult, profile: ProfileResult)
    requires Consistent(s)
    ensures Consistent(InitStep(s).0)
    ensures Consistent(LogoutStep(s))
    ensures s.authToken.Some? ==> Consistent(FetchProfileStep(s, profile))
    ensures Consistent(LoginStep(s, exchange, profile).0)
  {
  }

  /**
   * A profile fetch that completes after a logout (the startup fetch is never
   * cancelled) brings a user back without any token.
   */
  lemma LateProfileAfterLogout(s: SessionState, p: Profile)
    ensures Consistent(LogoutStep(s))
    ensures !Consistent(FetchProfileStep(LogoutStep(s), ProfileOk(p)))
  {
  }

  /** Signing in as an admin from a fresh store with no cookie. */
  lemma AdminSignInScenario()
    ensures var eve := Profile(1, "Eve", "eve@x.com", "admin", "");
      var (started, _) := InitStep(Mounted(None));
      var (r, ok) := LoginStep(started, Granted("tok123"), ProfileOk(eve));
      && ok && Authenticated(r) && r.user == Some(eve) && r.user.value.role == "admin"
      && r.cookie == Some(Cookie("tok123", CookieExpiryDays))
      && Access.AdminGate(View(r)) == Access.Fetch
  {
  }

  /** Wrong credentials from a fresh store: false, no cookie, not signed in. */
  lemma RejectedSignInScenario(profile: ProfileResult)
    ensures var (started, _) := InitStep(Mounted(None));
      var (r, ok) := LoginStep(started, Rejected, profile);
      && !ok && r.cookie.None? && !Authenticated(r)
  {
  }
}
