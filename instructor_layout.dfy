/**
 * The instructor portal's layout: a spinner while the session resolves, then
 * the sidebar (with a prefix rule for the highlighted entry), the avatar
 * initial and the page. The layout itself does not check who is signed in.
 */
module InstructorLayout {
  import opened Common
  import opened AuthTypes

  const DashboardHref := "/instructor"
  const NavHrefs: seq<string> := [
    "/instructor", "/instructor/courses", "/instructor/courses/create", "/instructor/earnings", "/instructor/profile"]

  /**
   * An entry is highlighted on its own page, and, except for the dashboard,
   * on every path its href is a prefix of.
   */
  predicate IsActive(pathname: string, href: string) {
    pathname == href || (href != DashboardHref && StartsWith(pathname, href))
  }

  /** The dashboard entry is highlighted on `/instructor` only; the others on their own sub-paths too. */
  lemma IsActiveSpec(pathname: string, href: string)
    ensures IsActive(pathname, DashboardHref) <==> pathname == DashboardHref
    ensures href != DashboardHref ==> (IsActive(pathname, href) <==> href <= pathname)
  {
  }

  /** On the create page two entries are highlighted: "My Courses" by prefix and "Create Course" exactly. */
  lemma CreatePageHighlightsTwo()
    ensures IsActive("/instructor/courses/create", NavHrefs[1]) && IsActive("/instructor/courses/create", NavHrefs[2])
    ensures !IsActive("/instructor/courses/create", NavHrefs[0])
  {
    assert NavHrefs[1] <= "/instructor/courses/create";
  }

  /** `toUpperCase` restricted to ASCII letters. */
  function UpperChar(c: char): (u: char)
    ensures 'a' <= c <= 'z' ==> u as int == c as int - 32
    ensures !('a' <= c <= 'z') ==> u == c
  {
    if 'a' <= c <= 'z' then (c as int - 32) as char else c
  }

  /** `user?.email?.charAt(0).toUpperCase() || 'I'`. */
  function AvatarInitial(user: Option<AuthUser>): (initial: char) {
    if user.Some? && user.value.email.Some? && user.value.email.value != "" then UpperChar(user.value.email.value[0])
    else 'I'
  }

  /** The initial is the email's first letter upper-cased, or 'I' without an email. */
  lemma AvatarInitialSpec(user: Option<AuthUser>)
    ensures user.None? || !Truthy(user.value.email) ==> AvatarInitial(user) == 'I'
    ensures user.Some? && Truthy(user.value.email) ==>
      var first := user.value.email.value[0];
      AvatarInitial(user) == UpperChar(first) && !('a' <= AvatarInitial(user) <= 'z')
  {
  }

  datatype View = Spinner | Portal(active: seq<bool>, initial: char, sidebarOpen: bool)

  /** The rendered layout: the spinner while loading, otherwise the portal for any user, signed in or not. */
  function LayoutView(loading: bool, user: Option<AuthUser>, pathname: string, sidebarOpen: bool): (v: View)
    ensures v.Spinner? <==> loading
    ensures v.Portal? ==> |v.active| == |NavHrefs| && forall i :: 0 <= i < |NavHrefs| ==> v.active[i] == IsActive(pathname, NavHrefs[i])
  {
    if loading then Spinner
    else Portal(seq(|NavHrefs|, i requires 0 <= i < |NavHrefs| => IsActive(pathname, NavHrefs[i])), AvatarInitial(user), sidebarOpen)
  }

  /** The layout renders its page without a user: gating is left to the pages. */
  lemma NoUserStillRenders(pathname: string)
    ensures LayoutView(false, None, pathname, false).Portal?
    ensures LayoutView(false, None, pathname, false).initial == 'I'
  {
  }

  class Layout {
    var sidebarOpen: bool

    constructor ()
      ensures !sidebarOpen
    {
      sidebarOpen := false;
    }

    method OpenSidebar()
      modifies this
      ensures sidebarOpen
    {
      sidebarOpen := true;
    }

    method CloseSidebar()
      modifies this
      ensures !sidebarOpen
    {
      sidebarOpen := false;
    }
  }
}
