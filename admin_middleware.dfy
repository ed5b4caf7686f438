/**
 * The admin app's edge middleware: a redirect decision from the request path,
 * the session, and the role claim in the session's user metadata.
 */
module AdminMiddleware {
  import opened Common
  import opened AuthTypes

  datatype Response = Next | Redirect(target: string)

  const StudentDashboardUrl: string := "https://skill-spring-ow1g.vercel.app/student/dashboard"

  predicate IsProtected(pathname: string) {
    StartsWith(pathname, "/admin") || StartsWith(pathname, "/instructor") || StartsWith(pathname, "/dashboard")
  }

  /** `middleware(request)`; the role is read from the metadata claim only. */
  function Middleware(pathname: string, session: Option<AuthUser>): Response {
    if session.None? then
      if IsProtected(pathname) then Redirect("/login") else Next
    else
      var role := session.value.metadataRole;
      if StartsWith(pathname, "/admin") && role != Some("admin") then Redirect("/")
      else if StartsWith(pathname, "/instructor") && role != Some("instructor") then Redirect("/")
      else if StartsWith(pathname, "/dashboard") then
        if role == Some("student") then Redirect(StudentDashboardUrl) else Redirect("/")
      else Next
  }

  /** Without a session, exactly the protected prefixes redirect to `/login`. */
  lemma NoSessionSpec(pathname: string)
    ensures IsProtected(pathname) ==> Middleware(pathname, None) == Redirect("/login")
    ensures !IsProtected(pathname) ==> Middleware(pathname, None) == Next
  {
  }

  /** The decision depends on the session only through its metadata role: no database read. */
  lemma RoleOnlyFromMetadata(pathname: string, u: AuthUser, v: AuthUser)
    requires u.metadataRole == v.metadataRole
    ensures Middleware(pathname, Some(u)) == Middleware(pathname, Some(v))
  {
  }

  /** The three protected prefixes exclude one another. */
  lemma PrefixesDisjoint(pathname: string)
    ensures !(StartsWith(pathname, "/admin") && StartsWith(pathname, "/instructor"))
    ensures !(StartsWith(pathname, "/admin") && StartsWith(pathname, "/dashboard"))
    ensures !(StartsWith(pathname, "/instructor") && StartsWith(pathname, "/dashboard"))
  {
    if StartsWith(pathname, "/admin") { assert pathname[1] == 'a'; }
    if StartsWith(pathname, "/instructor") { assert pathname[1] == 'i'; }
    if StartsWith(pathname, "/dashboard") { assert pathname[1] == 'd'; }
  }

  /**
   * With a session: `/admin*` needs role admin and `/instructor*` role instructor,
   * otherwise the answer is a redirect to `/`; the matching role passes through;
   * `/dashboard*` always redirects, students to the student app.
   */
  lemma SessionSpec(pathname: string, u: AuthUser)
    ensures StartsWith(pathname, "/admin") ==>
      Middleware(pathname, Some(u)) == if u.metadataRole == Some("admin") then Next else Redirect("/")
    ensures StartsWith(pathname, "/instructor") ==>
      Middleware(pathname, Some(u)) == if u.metadataRole == Some("instructor") then Next else Redirect("/")
    ensures StartsWith(pathname, "/dashboard") ==>
      Middleware(pathname, Some(u)) == if u.metadataRole == Some("student") then Redirect(StudentDashboardUrl) else Redirect("/")
    ensures !IsProtected(pathname) ==> Middleware(pathname, Some(u)) == Next
  {
    PrefixesDisjoint(pathname);
  }

  /** The targets it redirects to within the app are never redirected again: no loop. */
  lemma RedirectTargetsPass(session: Option<AuthUser>)
    ensures Middleware("/", session) == Next && Middleware("/login", session) == Next
  {
    assert !StartsWith("/", "/admin") && !StartsWith("/", "/instructor") && !StartsWith("/", "/dashboard");
    assert "/login"[1] == 'l';
  }

  // ---------------------------------------------------------------------------
  // `config.matcher`: the paths the middleware runs on at all
  // ---------------------------------------------------------------------------

  /** `base/:path*`: the section itself or anything below it. */
  predicate UnderSection(pathname: string, base: string) {
    pathname == base || StartsWith(pathname, base + "/")
  }

  predicate Matched(pathname: string) {
    UnderSection(pathname, "/admin") || UnderSection(pathname, "/instructor") || UnderSection(pathname, "/dashboard")
  }

  /** The deployed behaviour: a request the matcher excludes passes untouched. */
  function Deployed(pathname: string, session: Option<AuthUser>): (r: Response)
    ensures !Matched(pathname) ==> r == Next
    ensures Matched(pathname) ==> r == Middleware(pathname, session)
  {
    if Matched(pathname) then Middleware(pathname, session) else Next
  }

  /** Every matched path is one of the function's protected prefixes, so without a session it is sent to `/login`. */
  lemma MatchedIsProtected(pathname: string)
    ensures Matched(pathname) ==> IsProtected(pathname)
    ensures Matched(pathname) ==> Deployed(pathname, None) == Redirect("/login")
  {
    if Matched(pathname) {
      assert StartsWith(pathname, "/admin") || StartsWith(pathname, "/instructor") || StartsWith(pathname, "/dashboard");
    }
  }

  /**
   * The function's test is a raw prefix, so on its own it would also guard
   * `/administrators`; the matcher never routes that path to it, while
   * `/admin/users` is gated.
   */
  lemma MatcherNarrowsPrefix()
    ensures Middleware("/administrators", None) == Redirect("/login")
    ensures Deployed("/administrators", None) == Next
    ensures Deployed("/admin/users", None) == Redirect("/login")
  {
    assert StartsWith("/administrators", "/admin");
    assert "/administrators"[6] == 'i';
    assert StartsWith("/admin/users", "/admin" + "/");
  }
}
