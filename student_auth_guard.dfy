/**
 * The student app's `AuthGuard`: what a page renders while the session is
 * resolved, and where an anonymous visitor of a protected page is sent.
 */
module StudentAuthGuard {
  import opened Common
  import opened Uri

  const PublicRoutes: seq<string> := ["/login", "/signup"]

  /** The central login form, shared by every app. */
  const CentralLogin: string := "https://skill-spring-eight.vercel.app/login"

  datatype View = Spinner | Blank | Children

  predicate IsPublicRoute(pathname: string) {
    pathname in PublicRoutes
  }

  /** What the guard renders. */
  function GuardView(loading: bool, hasUser: bool, pathname: string): (v: View)
    ensures loading <==> v == Spinner
    ensures v == Blank <==> !loading && !hasUser && !IsPublicRoute(pathname)
  {
    if loading then Spinner
    else if !hasUser && !IsPublicRoute(pathname) then Blank
    else Children
  }

  /** Where the guard's effect sends the browser, if anywhere. */
  function GuardNavigation(loading: bool, hasUser: bool, pathname: string, currentUrl: string): (nav: Option<string>)
    ensures nav.Some? <==> !loading && !hasUser && !IsPublicRoute(pathname)
  {
    if !loading && !hasUser && !IsPublicRoute(pathname) then
      Some(WithParam(CentralLogin, "redirect", currentUrl))
    else None
  }

  /**
   * The guard redirects exactly when it renders nothing; the central login's
   * `searchParams.get('redirect')` then recovers exactly the current URL.
   */
  lemma RedirectCarriesCurrentUrl(loading: bool, hasUser: bool, pathname: string, currentUrl: string)
    ensures GuardNavigation(loading, hasUser, pathname, currentUrl).Some? <==> GuardView(loading, hasUser, pathname) == Blank
    ensures GuardNavigation(loading, hasUser, pathname, currentUrl).Some? ==>
      SearchParam(GuardNavigation(loading, hasUser, pathname, currentUrl).value, "redirect") == Some(currentUrl)
  {
    if GuardNavigation(loading, hasUser, pathname, currentUrl).Some? {
      CentralLoginIsBare();
      PlainNames();
      SearchParamRoundTrip(CentralLogin, "redirect", currentUrl);
    }
  }

  /** The central login URL has neither a query nor a fragment. */
  lemma CentralLoginIsBare()
    ensures '?' !in CentralLogin && '#' !in CentralLogin
  {
  }

  /** `/login` and `/signup` render their children once loading is over, user or not. */
  lemma PublicRoutesRender(hasUser: bool)
    ensures GuardView(false, hasUser, "/login") == Children && GuardView(false, hasUser, "/signup") == Children
  {
  }

  /** A signed-in user sees every page, whatever the role. */
  lemma UserSeesChildren(pathname: string, currentUrl: string)
    ensures GuardView(false, true, pathname) == Children && GuardNavigation(false, true, pathname, currentUrl).None?
  {
  }
}
