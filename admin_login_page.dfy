/**
 * The central login form of the admin app, which every other app hands its
 * visitors to with a `redirect` query parameter.
 */
module AdminLoginPage {
  import opened Common
  import opened AuthTypes
  import opened Uri

  /** What `signInWithPassword` answered. */
  datatype SignInOutcome = AuthFailed(message: string) | NoUser | SignedIn(user: AuthUser)

  /** The form's visible error, where the browser is sent, and whether the session is signed out again. */
  datatype LoginResult = LoginResult(error: Option<string>, navigate: Option<string>, signOut: bool)

  const StudentMessage: string := "Students: Please login at https://skill-spring-ow1g.vercel.app/login"
  const InstructorMessage: string := "Instructors: Please login at https://skill-spring-9fgn.vercel.app/login"
  const InvalidRoleMessage: string := "Invalid user role"
  const AdminHome: string := "/admin/dashboard"

  /**
   * `handleSubmit` on the page at `currentUrl`, after sign-in answered `outcome`
   * and the `users` row lookup answered `profileRole` (null on a read error).
   */
  function HandleSubmit(currentUrl: string, outcome: SignInOutcome, profileRole: Option<string>): LoginResult {
    match outcome
      case AuthFailed(message) => LoginResult(Some(message), None, false)
      case NoUser => LoginResult(None, None, false)
      case SignedIn(_) =>
        var redirect := SearchParam(currentUrl, "redirect");
        if Truthy(redirect) then LoginResult(None, redirect, false)
        else if profileRole == Some("student") then LoginResult(Some(StudentMessage), None, true)
        else if profileRole == Some("instructor") then LoginResult(Some(InstructorMessage), None, true)
        else if profileRole == Some("admin") then LoginResult(None, Some(AdminHome), false)
        else LoginResult(Some(InvalidRoleMessage), None, false)
  }

  /** A truthy `redirect` parameter is followed before, and whatever, the role. */
  lemma RedirectWinsOverRole(currentUrl: string, u: AuthUser, profileRole: Option<string>)
    requires Truthy(SearchParam(currentUrl, "redirect"))
    ensures HandleSubmit(currentUrl, SignedIn(u), profileRole) == LoginResult(None, SearchParam(currentUrl, "redirect"), false)
  {
  }

  /**
   * Without a redirect, only the admin role reaches the dashboard; students and
   * instructors are told their own portal and signed out; any other role,
   * including a missing row, is refused without signing out.
   */
  lemma RoleDecision(currentUrl: string, u: AuthUser, profileRole: Option<string>)
    requires !Truthy(SearchParam(currentUrl, "redirect"))
    ensures var r := HandleSubmit(currentUrl, SignedIn(u), profileRole);
      && (r.navigate.Some? <==> profileRole == Some("admin"))
      && (r.navigate.Some? ==> r.navigate.value == AdminHome)
      && (r.signOut <==> profileRole == Some("student") || profileRole == Some("instructor"))
      && (r.error.Some? <==> profileRole != Some("admin"))
      && (profileRole != Some("admin") && profileRole != Some("student") && profileRole != Some("instructor")
          ==> r.error == Some(InvalidRoleMessage))
  {
  }

  /** A failed sign-in shows the service's message; no user, no error and no navigation. */
  lemma SignInFailures(currentUrl: string, message: string, profileRole: Option<string>)
    ensures HandleSubmit(currentUrl, AuthFailed(message), profileRole) == LoginResult(Some(message), None, false)
    ensures HandleSubmit(currentUrl, NoUser, profileRole) == LoginResult(None, None, false)
  {
  }

  /** The session is never both kept for navigation and signed out, and a navigation never comes with an error. */
  lemma OutcomesExclusive(currentUrl: string, outcome: SignInOutcome, profileRole: Option<string>)
    ensures var r := HandleSubmit(currentUrl, outcome, profileRole);
      !(r.navigate.Some? && r.signOut) && !(r.navigate.Some? && r.error.Some?)
  {
    if outcome.SignedIn? && !Truthy(SearchParam(currentUrl, "redirect")) {
      RoleDecision(currentUrl, outcome.user, profileRole);
    }
  }
}
