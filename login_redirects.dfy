/**
 * The `/login` pages of the student, shell and instructor apps: each forwards
 * the browser to the central login form with a `redirect` parameter, the
 * page's own `redirect` parameter when truthy, else the app's landing page.
 */
module LoginRedirects {
  import opened Common
  import opened AuthTypes
  import opened Uri
  import AdminLoginPage
  import StudentAuthGuard

  /** The central login form as the student app and the shell reach it locally. */
  const LocalCentralLogin: string := "http://localhost:3001/login"

  /** The hosted central login form, the same one the student guard sends visitors to. */
  const HostedCentralLogin: string := StudentAuthGuard.CentralLogin

  const StudentLanding: string := "http://localhost:3003/student/dashboard"
  const ShellLanding: string := "http://localhost:3000/"
  const InstructorLanding: string := "https://skill-spring-9fgn.vercel.app/instructor"

  /** `customRedirect || landing`, read from the page's own URL. */
  function FinalRedirect(currentUrl: string, landing: string): (r: string)
    ensures Truthy(SearchParam(currentUrl, "redirect")) ==> r == SearchParam(currentUrl, "redirect").value
    ensures !Truthy(SearchParam(currentUrl, "redirect")) ==> r == landing
  {
    OrElse(SearchParam(currentUrl, "redirect"), landing)
  }

  /** `${centralLogin}?redirect=${encodeURIComponent(finalRedirect)}`. */
  function Handoff(centralLogin: string, currentUrl: string, landing: string): string {
    WithParam(centralLogin, "redirect", FinalRedirect(currentUrl, landing))
  }

  /** The student app: nothing while loading, its dashboard for a user, else the hand-off. */
  function StudentLogin(loading: bool, hasUser: bool, currentUrl: string): (nav: Option<string>)
    ensures loading <==> nav.None?
    ensures !loading && hasUser ==> nav == Some("/student/dashboard")
  {
    if loading then None
    else if hasUser then Some("/student/dashboard")
    else Some(Handoff(LocalCentralLogin, currentUrl, StudentLanding))
  }

  function ShellLogin(currentUrl: string): string {
    Handoff(LocalCentralLogin, currentUrl, ShellLanding)
  }

  function InstructorLogin(currentUrl: string): string {
    Handoff(HostedCentralLogin, currentUrl, InstructorLanding)
  }

  /** The central login recovers the final redirect from the hand-off URL exactly. */
  lemma HandoffRoundTrip(centralLogin: string, currentUrl: string, landing: string)
    requires '?' !in centralLogin && '#' !in centralLogin
    ensures SearchParam(Handoff(centralLogin, currentUrl, landing), "redirect") == Some(FinalRedirect(currentUrl, landing))
  {
    SearchParamRoundTrip(centralLogin, "redirect", FinalRedirect(currentUrl, landing));
  }

  /**
   * End to end: after the hand-off, a successful sign-in at the central form
   * sends the browser to the page's own redirect, or to the app's landing page,
   * whatever the user's role.
   */
  lemma CentralLoginReturns(centralLogin: string, currentUrl: string, landing: string, u: AuthUser, profileRole: Option<string>)
    requires '?' !in centralLogin && '#' !in centralLogin
    requires landing != ""
    ensures AdminLoginPage.HandleSubmit(Handoff(centralLogin, currentUrl, landing), AdminLoginPage.SignedIn(u), profileRole)
      == AdminLoginPage.LoginResult(None, Some(FinalRedirect(currentUrl, landing)), false)
  {
    HandoffRoundTrip(centralLogin, currentUrl, landing);
  }

  /** The student app's hand-off comes back to its own redirect or its dashboard. */
  lemma StudentReturns(currentUrl: string, u: AuthUser, profileRole: Option<string>)
    ensures AdminLoginPage.HandleSubmit(StudentLogin(false, false, currentUrl).value, AdminLoginPage.SignedIn(u), profileRole).navigate
      == Some(FinalRedirect(currentUrl, StudentLanding))
  {
    CentralLoginsAreBare();
    CentralLoginReturns(LocalCentralLogin, currentUrl, StudentLanding, u, profileRole);
  }

  /** The shell's hand-off comes back to its own redirect or the shell's home. */
  lemma ShellReturns(currentUrl: string, u: AuthUser, profileRole: Option<string>)
    ensures AdminLoginPage.HandleSubmit(ShellLogin(currentUrl), AdminLoginPage.SignedIn(u), profileRole).navigate
      == Some(FinalRedirect(currentUrl, ShellLanding))
  {
    CentralLoginsAreBare();
    CentralLoginReturns(LocalCentralLogin, currentUrl, ShellLanding, u, profileRole);
  }

  /** The instructor app's hand-off comes back to its own redirect or the instructor home. */
  lemma InstructorReturns(currentUrl: string, u: AuthUser, profileRole: Option<string>)
    ensures AdminLoginPage.HandleSubmit(InstructorLogin(currentUrl), AdminLoginPage.SignedIn(u), profileRole).navigate
      == Some(FinalRedirect(currentUrl, InstructorLanding))
  {
    CentralLoginsAreBare();
    CentralLoginReturns(HostedCentralLogin, currentUrl, InstructorLanding, u, profileRole);
  }

  /** Neither central login URL has a query or a fragment. */
  lemma CentralLoginsAreBare()
    ensures '?' !in LocalCentralLogin && '#' !in LocalCentralLogin
    ensures '?' !in HostedCentralLogin && '#' !in HostedCentralLogin
  {
    LocalLoginIsBare();
    StudentAuthGuard.CentralLoginIsBare();
  }

  lemma LocalLoginIsBare()
    ensures '?' !in LocalCentralLogin && '#' !in LocalCentralLogin
  {
  }
}
