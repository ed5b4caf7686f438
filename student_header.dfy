/**
 * The student app's header: a search box that sends the trimmed text to the
 * course listing as `q`, and navigation that depends on whether a user is
 * signed in.
 */
module StudentHeader {
  import opened Common
  import Uri
  import StudentAuthGuard

  const CoursesPath := "/student/courses"
  const CentralSignup := "https://skill-spring-eight.vercel.app/signup"

  /** A navigation entry: a link, or the sign-out button. */
  datatype NavItem = Link(href: string, text: string) | SignOutButton

  /** The entries after "Explore", for a signed-in visitor and for a guest. */
  function NavItems(signedIn: bool): (items: seq<NavItem>)
    ensures |items| > 0 && items[0] == Link(CoursesPath, "Explore")
    ensures signedIn <==> SignOutButton in items
    ensures !signedIn ==> Link(StudentAuthGuard.CentralLogin, "Log in") in items && Link(CentralSignup, "Start Learning") in items
    ensures signedIn ==> Link("/student/dashboard", "Dashboard") in items && Link("/student/profile", "Profile") in items
  {
    if signedIn then
      [Link(CoursesPath, "Explore"), Link("/student/dashboard", "Dashboard"), Link("/student/profile", "Profile"), SignOutButton]
    else
      [Link(CoursesPath, "Explore"), Link(StudentAuthGuard.CentralLogin, "Log in"), Link(CentralSignup, "Start Learning")]
  }

  /** `handleSearch`'s navigation. */
  function SearchNavigation(query: string): Option<string> {
    Uri.SearchTarget(CoursesPath, query)
  }

  /** A non-blank search reaches the course listing, whose `q` is the trimmed text; a blank one goes nowhere. */
  lemma SearchReachesListing(query: string)
    ensures SearchNavigation(query).None? <==> Trim(query) == ""
    ensures Trim(query) != "" ==>
      && StartsWith(SearchNavigation(query).value, CoursesPath + "?q=")
      && Uri.SearchParam(SearchNavigation(query).value, "q") == Some(Trim(query))
  {
    if Trim(query) != "" {
      assert '?' !in CoursesPath && '#' !in CoursesPath;
      Uri.SearchTargetRoundTrip(CoursesPath, query);
    }
  }

  class Header {
    var menuOpen: bool
    var query: string

    constructor ()
      ensures !menuOpen && query == ""
    {
      menuOpen, query := false, "";
    }

    method SetQuery(text: string)
      modifies this
      ensures query == text && menuOpen == old(menuOpen)
    {
      query := text;
    }

    method ToggleMenu()
      modifies this
      ensures menuOpen == !old(menuOpen) && query == old(query)
    {
      menuOpen := !menuOpen;
    }

    /** `handleSearch`: navigate and clear the box, or do nothing when the text is blank. */
    method HandleSearch() returns (navigate: Option<string>)
      modifies this
      ensures navigate == SearchNavigation(old(query))
      ensures query == if navigate.Some? then "" else old(query)
      ensures menuOpen == old(menuOpen)
    {
      navigate := SearchNavigation(query);
      if navigate.Some? {
        query := "";
      }
    }
  }
}
