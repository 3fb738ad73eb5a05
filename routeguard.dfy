/** The client-side protection every signed-in page repeats (app/page.tsx,
    app/create-scrim/page.tsx): redirect to the login page once the session
    has finished loading without a signed-in user, and show a waiting view
    until there is one. */
module RouteGuard {
  import opened Types
  import opened AuthContext

  /** The redirect the page's effect asks for, if any. */
  function LoginRedirect(auth: AuthView): (nav: Option<Nav>)
    ensures nav.Some? <==> !auth.loading && !auth.isAuthenticated
    ensures nav.Some? ==> nav.value == NavLogin
  {
    if !auth.loading && !auth.isAuthenticated then Some(NavLogin) else None
  }

  /** Whether the page renders only its waiting view. */
  predicate ShowsWaiting(auth: AuthView)
    ensures auth.loading ==> ShowsWaiting(auth)
    ensures !auth.isAuthenticated ==> ShowsWaiting(auth)
  {
    auth.loading || !auth.isAuthenticated
  }

  /** A page never shows its content while it is redirecting away, and it shows
      content exactly when the session is loaded and signed in. */
  lemma RedirectOnlyWhileWaiting(auth: AuthView)
    ensures LoginRedirect(auth).Some? ==> ShowsWaiting(auth)
    ensures !ShowsWaiting(auth) <==> !auth.loading && auth.isAuthenticated
  {
  }

  /** After `logout()` on a provider that has finished loading, every
      protected page redirects to the login page. */
  method GuardAfterLogout(session: AuthProvider) returns (nav: Option<Nav>)
    requires !session.loading
    modifies session, session.storage
    ensures nav == Some(NavLogin)
  {
    var _ := session.Logout();
    nav := LoginRedirect(session.View());
  }
}
