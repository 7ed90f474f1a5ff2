/**
 * The two route guards over the session's expiry instant: the protected
 * routes send a visitor without a live session to the login page, the
 * public ones (login, register) send a signed-in visitor home.
 */
module RouteGuards {
  import opened Wrappers
  import AuthStore

  datatype Route = Outlet | Redirect(to: string)

  const LoginPath: string := "/login"
  const HomePath: string := "/"

  /** `ProtectedRoute`: a missing expiry, or one already past, redirects to the login page. */
  function ProtectedRoute(expiresAt: Option<int>, now: int): (r: Route)
    ensures r.Redirect? ==> r.to == LoginPath
    ensures r.Redirect? <==> expiresAt.None? || now > expiresAt.value
  {
    if expiresAt.None? || now > expiresAt.value then Redirect(LoginPath) else Outlet
  }

  /** `PublicRoute`: an expiry still ahead redirects home. */
  function PublicRoute(expiresAt: Option<int>, now: int): (r: Route)
    ensures r.Redirect? ==> r.to == HomePath
    ensures r.Redirect? <==> expiresAt.Some? && now < expiresAt.value
  {
    if expiresAt.Some? && now < expiresAt.value then Redirect(HomePath) else Outlet
  }

  /**
   * The guards never send a visitor back and forth: at most one of them
   * redirects. Exactly one does, except at the expiry instant itself,
   * where both comparisons are strict and both render.
   */
  lemma GuardsAgree(expiresAt: Option<int>, now: int)
    ensures !(ProtectedRoute(expiresAt, now).Redirect? && PublicRoute(expiresAt, now).Redirect?)
    ensures expiresAt.None? || now != expiresAt.value ==>
      ProtectedRoute(expiresAt, now).Redirect? != PublicRoute(expiresAt, now).Redirect?
    ensures expiresAt.Some? && now == expiresAt.value ==>
      ProtectedRoute(expiresAt, now).Outlet? && PublicRoute(expiresAt, now).Outlet?
  {
  }

  /**
   * After a login at `at` with a non-negative lifetime the protected pages
   * render until the expiry instant, and the public pages render from it
   * on; after a logout only the public pages render.
   */
  lemma GuardsFollowSession(at: Option<int>, now: int, user: Option<AuthStore.AuthUser>, token: Option<AuthStore.TokenPair>)
    requires at.Some? && AuthStore.ExpiresIn(token) >= 0
    ensures var s := AuthStore.LoginSession(at.value, user, token);
      at.value <= now <= s.expiresAt.value ==> ProtectedRoute(s.expiresAt, now) == Outlet
    ensures var s := AuthStore.LoginSession(at.value, user, token);
      now >= s.expiresAt.value ==> PublicRoute(s.expiresAt, now) == Outlet
    ensures ProtectedRoute(AuthStore.SignedOut.expiresAt, now) == Redirect(LoginPath)
    ensures PublicRoute(AuthStore.SignedOut.expiresAt, now) == Outlet
  {
  }
}
