/**
 * The root page: once the session has finished loading it sends a signed-in
 * visitor to the dashboard, whatever the role, and anyone else to the login
 * page. It always renders the same "Redirecting..." spinner.
 */
module HomePage {
  import opened Wrappers
  import Access

  const RedirectingText := "Redirecting..."

  /**
   * The redirect effect: nothing while loading, then the dashboard for a
   * signed-in session (the admin branch and the other branch go to the same
   * place) and the login page otherwise.
   */
  function HomeRedirect(v: Access.AuthView): (r: Option<string>)
    ensures r.None? <==> v.loading
    ensures r == Some(Access.DashboardPath) <==> !v.loading && v.isAuthenticated
    ensures r == Some(Access.LoginPath) <==> !v.loading && !v.isAuthenticated
  {
    if !v.loading then
      if v.isAuthenticated then
        if Access.IsAdmin(v) then Some(Access.DashboardPath) else Some(Access.DashboardPath)
      else Some(Access.LoginPath)
    else None
  }

  /** The role never changes where the root page sends a visitor. */
  lemma HomeRedirectIgnoresRole(v: Access.AuthView, role: Option<string>)
    ensures HomeRedirect(v.(role := role)) == HomeRedirect(v)
  {
  }

  /**
   * The root page agrees with the sign-in check of the open pages: it sends to
   * the login page exactly the sessions that check would, and to the dashboard
   * exactly those it would let load.
   */
  lemma HomeAgreesWithAuthGate(v: Access.AuthView)
    ensures HomeRedirect(v) == Some(Access.LoginPath) <==> Access.AuthGate(v) == Access.Navigate(Access.LoginPath)
    ensures HomeRedirect(v) == Some(Access.DashboardPath) <==> Access.AuthGate(v) == Access.Fetch
    ensures HomeRedirect(v).None? <==> Access.AuthGate(v) == Access.Wait
  {
  }

  /** A visitor who lands on the root page while signed in never sees the dashboard gate send them back. */
  lemma DashboardTargetOpens(v: Access.AuthView)
    requires HomeRedirect(v) == Some(Access.DashboardPath)
    ensures Access.AuthGate(v) == Access.Fetch
    ensures Access.OpenScreen(v) == Access.Content
  {
  }

  /** What the page renders: the same spinner with "Redirecting...", whatever the session. */
  function HomeScreen(v: Access.AuthView): string {
    RedirectingText
  }

  /** The render never depends on the session: loading or not, signed in or not, the same text shows. */
  lemma HomeScreenConstant(v: Access.AuthView, w: Access.AuthView)
    ensures HomeScreen(v) == HomeScreen(w) == RedirectingText
  {
  }
}
