/**
 * The admin section's layout gate and its navigation highlighting.
 */
module AdminLayout {
  import opened Common
  import opened AuthTypes

  datatype View = Verifying | Blank | Forbidden | Shell

  const NavHrefs: seq<string> := ["/admin/dashboard", "/admin/courses", "/admin/categories", "/admin/users"]

  function LayoutView(loading: bool, user: Option<AuthUser>, role: Option<string>): (v: View)
    ensures loading <==> v == Verifying
    ensures v == Blank <==> !loading && user.None?
    ensures v == Forbidden <==> !loading && user.Some? && role != Some("admin")
    ensures v == Shell <==> !loading && user.Some? && role == Some("admin")
  {
    if loading then Verifying
    else if user.None? then Blank
    else if role != Some("admin") then Forbidden
    else Shell
  }

  /** The effect: after loading, no user means a push to `/login`. */
  function LayoutNavigation(loading: bool, user: Option<AuthUser>): (nav: Option<string>)
    ensures nav.Some? <==> !loading && user.None?
    ensures nav.Some? ==> nav.value == "/login"
  {
    if !loading && user.None? then Some("/login") else None
  }

  /** A nav item is active iff the pathname is exactly its href. */
  predicate IsActive(pathname: string, href: string) {
    pathname == href
  }

  /** At most one item is highlighted, and sub-pages highlight none. */
  lemma AtMostOneActive(pathname: string)
    ensures forall i, j :: 0 <= i < j < |NavHrefs| ==> !(IsActive(pathname, NavHrefs[i]) && IsActive(pathname, NavHrefs[j]))
    ensures !IsActive("/admin/courses/new", "/admin/courses")
  {
  }

  /** The children render only for an admin; a null role gets the forbidden panel. */
  lemma OnlyAdminsSeeShell(u: AuthUser)
    ensures LayoutView(false, Some(u), None) == Forbidden
    ensures LayoutView(false, Some(u), Some("instructor")) == Forbidden
    ensures LayoutView(false, Some(u), Some("admin")) == Shell
  {
  }
}
