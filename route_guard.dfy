/**
 * The request-time route guard: from the requested path and the raw value of
 * the `authToken` cookie it decides to redirect to the login page, redirect to
 * the dashboard, or let the request through.
 */
module RouteGuard {
  import opened Wrappers

  const ProtectedRoutes: seq<string> := ["/", "/dashboard", "/manage-users", "/categories", "/products"]
  const PublicRoutes: seq<string> := ["/login"]

  /** `redirectQuery` is the value of the `redirect` query parameter of the login URL. */
  datatype Outcome =
    | RedirectToLogin(redirectQuery: string)
    | RedirectToDashboard
    | PassThrough

  /** A cookie counts only when it is present and non-empty (JavaScript truthiness of a string). */
  predicate HasToken(authToken: Option<string>) {
    authToken.Some? && authToken.value != ""
  }

  /** The guard; `authToken` is the cookie's value, `None` when the cookie is missing. */
  function Middleware(path: string, authToken: Option<string>): (r: Outcome)
    ensures r.RedirectToLogin? <==> path in ProtectedRoutes && !HasToken(authToken)
    ensures r.RedirectToLogin? ==> r.redirectQuery == path
    ensures r.RedirectToDashboard? <==> path in PublicRoutes && HasToken(authToken)
    ensures r.PassThrough? <==>
      (path !in ProtectedRoutes || HasToken(authToken)) && (path !in PublicRoutes || !HasToken(authToken))
  {
    if path in ProtectedRoutes && !HasToken(authToken) then
      RedirectToLogin(path)
    else if HasToken(authToken) && path in PublicRoutes then
      RedirectToDashboard
    else
      PassThrough
  }

  /** No path is both protected and public, so at most one redirect rule can apply. */
  lemma RouteListsDisjoint(path: string)
    ensures !(path in ProtectedRoutes && path in PublicRoutes)
  {
  }

  /** A path in neither list passes through with or without a token. */
  lemma UnlistedPathPasses(path: string, authToken: Option<string>)
    requires path !in ProtectedRoutes && path !in PublicRoutes
    ensures Middleware(path, authToken) == PassThrough
  {
  }

  /** Membership is exact string equality: sub-paths and trailing slashes are not guarded. */
  lemma ExactMatchOnly()
    ensures Middleware("/products/5", None) == PassThrough
    ensures Middleware("/dashboard/", None) == PassThrough
    ensures Middleware("/login/", Some("t")) == PassThrough
  {
  }

  /** Only presence matters: an empty cookie is no cookie, and any two non-empty tokens decide alike. */
  lemma OnlyPresenceMatters(path: string, a: string, b: string)
    requires a != "" && b != ""
    ensures Middleware(path, Some("")) == Middleware(path, None)
    ensures Middleware(path, Some(a)) == Middleware(path, Some(b))
  {
  }

  /** The three scenarios of the guard's contract. */
  lemma GuardScenarios(token: string)
    requires token != ""
    ensures Middleware("/dashboard", None) == RedirectToLogin("/dashboard")
    ensures Middleware("/login", Some(token)) == RedirectToDashboard
    ensures Middleware("/dashboard", Some(token)) == PassThrough
  {
  }
}
