/**
 * What a page sees of the session (`loading`, `isAuthenticated`, `user?.role`)
 * and the effect its access check takes once that is known.
 */
module Access {
  import opened Wrappers

  const AdminRole := "admin"
  const LoginPath := "/login"
  const DashboardPath := "/dashboard"

  /** The session as a page reads it; `role` is `None` while no profile is loaded. */
  datatype AuthView = AuthView(loading: bool, isAuthenticated: bool, role: Option<string>)

  /** What an access-checking effect does: nothing yet, navigate away, or load the page's data. */
  datatype GateAction = Wait | Navigate(path: string) | Fetch

  predicate IsAdmin(v: AuthView) {
    v.role == Some(AdminRole)
  }

  /**
   * The effect of the admin-only pages: wait while loading, send anonymous
   * visitors to the login page and non-admins (including an authenticated
   * session whose profile has not arrived) to the dashboard; only an admin
   * loads data.
   */
  function AdminGate(v: AuthView): (r: GateAction)
    ensures r == Wait <==> v.loading
    ensures r == Navigate(LoginPath) <==> !v.loading && !v.isAuthenticated
    ensures r == Navigate(DashboardPath) <==> !v.loading && v.isAuthenticated && !IsAdmin(v)
    ensures r == Fetch <==> !v.loading && v.isAuthenticated && IsAdmin(v)
  {
    if v.loading then Wait
    else if !v.isAuthenticated then Navigate(LoginPath)
    else if v.role != Some(AdminRole) then Navigate(DashboardPath)
    else Fetch
  }

  /** The effect of the pages open to any signed-in user: the role is never consulted. */
  function AuthGate(v: AuthView): (r: GateAction)
    ensures r == Wait <==> v.loading
    ensures r == Navigate(LoginPath) <==> !v.loading && !v.isAuthenticated
    ensures r == Fetch <==> !v.loading && v.isAuthenticated
  {
    if v.loading then Wait
    else if !v.isAuthenticated then Navigate(LoginPath)
    else Fetch
  }

  /** The signed-in-only gate decides alike whatever the role, or with no profile at all. */
  lemma AuthGateIgnoresRole(v: AuthView, role: Option<string>)
    ensures AuthGate(v.(role := role)) == AuthGate(v)
  {
  }

  /** What a page draws: the "Checking permissions..." spinner, nothing, or its content. */
  datatype Screen = Spinner | Blank | Content

  /** The admin pages' render: the spinner while loading, nothing for anyone but an admin. */
  function AdminScreen(v: AuthView): (r: Screen)
    ensures r == Spinner <==> v.loading
    ensures r == Content <==> !v.loading && v.isAuthenticated && IsAdmin(v)
  {
    if v.loading then Spinner
    else if !v.isAuthenticated || v.role != Some(AdminRole) then Blank
    else Content
  }

  /** The render of the pages open to any signed-in user: only the spinner is conditional. */
  function OpenScreen(v: AuthView): (r: Screen)
    ensures r == Spinner <==> v.loading
    ensures r == Content <==> !v.loading
  {
    if v.loading then Spinner else Content
  }

  /** An admin page shows its content exactly when its effect loads that content. */
  lemma AdminContentOnlyWhenFetching(v: AuthView)
    ensures AdminScreen(v) == Content <==> AdminGate(v) == Fetch
    ensures AdminScreen(v) == Blank <==> AdminGate(v).Navigate?
  {
  }

  /**
   * The open pages draw their content for an anonymous visitor too, in the
   * same render in which their effect sends the visitor to the login page.
   */
  lemma OpenContentBeforeRedirect(v: AuthView)
    requires !v.loading && !v.isAuthenticated
    ensures OpenScreen(v) == Content
    ensures AuthGate(v) == Navigate(LoginPath)
  {
  }
}
