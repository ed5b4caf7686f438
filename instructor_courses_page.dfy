/**
 * The instructor's "My Courses" page: the instructor's own live courses under a
 * status filter, a text search, soft deletion, and the per-card actions.
 */
module InstructorCoursesPage {
  import opened Common
  import opened AuthTypes
  import opened CourseStore
  import opened Uri

  /** What a gated instructor page's effect does: redirect, load its data, or nothing yet. */
  datatype GateEffect = Redirect(path: string) | Load | Idle

  /**
   * The effect shared by the dashboard, earnings and create pages: the gate's
   * redirect, otherwise a load as soon as there is a user, even while the role
   * is still being resolved.
   */
  function PageEffect(loading: bool, user: Option<AuthUser>, role: Option<string>): (e: GateEffect)
    ensures e.Redirect? <==> RoleGate(loading, user, role, "instructor").Some?
    ensures e.Redirect? ==> e.path == "/login"
    ensures e == Load <==> user.Some? && (loading || role == Some("instructor"))
  {
    var nav := RoleGate(loading, user, role, "instructor");
    if nav.Some? then Redirect(nav.value) else if user.Some? then Load else Idle
  }

  predicate Listed(c: Course, instructorId: string, statusFilter: string) {
    c.instructorId == instructorId && !c.isDeleted && (statusFilter == "all" || c.status == statusFilter)
  }

  /** The listing query, from the table in newest-first order. */
  function MyCourses(newestFirst: seq<Course>, instructorId: string, statusFilter: string): seq<Course> {
    Filter(newestFirst, (c: Course) => Listed(c, instructorId, statusFilter))
  }

  /** The listing holds exactly the instructor's courses that are not deleted and match the filter, in query order. */
  lemma MyCoursesSpec(newestFirst: seq<Course>, instructorId: string, statusFilter: string)
    ensures IsSubsequence(MyCourses(newestFirst, instructorId, statusFilter), newestFirst)
    ensures forall c :: c in MyCourses(newestFirst, instructorId, statusFilter) <==>
      c in newestFirst && c.instructorId == instructorId && !c.isDeleted && (statusFilter == "all" || c.status == statusFilter)
  {
    FilterSpec(newestFirst, (c: Course) => Listed(c, instructorId, statusFilter));
  }

  /** `title?.toLowerCase().includes(t) || description?.toLowerCase().includes(t)`. */
  predicate MatchesSearch(c: Course, term: string) {
    IncludesIgnoringCase(c.title, term) || (c.description.Some? && IncludesIgnoringCase(c.description.value, term))
  }

  function FilteredCourses(courses: seq<Course>, term: string): seq<Course> {
    Filter(courses, (c: Course) => MatchesSearch(c, term))
  }

  /** The search keeps exactly the matching courses; the empty term keeps every course. */
  lemma FilteredCoursesSpec(courses: seq<Course>, term: string)
    ensures forall c :: c in FilteredCourses(courses, term) <==> c in courses && MatchesSearch(c, term)
    ensures FilteredCourses(courses, "") == courses
  {
    FilterSpec(courses, (c: Course) => MatchesSearch(c, term));
    EmptyTermKeepsAll(courses);
  }

  lemma {:induction false} EmptyTermKeepsAll(courses: seq<Course>)
    ensures FilteredCourses(courses, "") == courses
  {
    if courses != [] {
      IncludesEmpty(Lower(courses[0].title));
      EmptyTermKeepsAll(courses[1..]);
      assert courses == [courses[0]] + courses[1..];
    }
  }

  /** `getStatusBadge`: the four known statuses have their own colour; anything else looks like a draft. */
  function BadgeColor(status: string): (color: string)
    ensures status !in ["draft", "pending", "approved", "rejected"] ==> color == "text-slate-600"
    ensures status == "draft" ==> color == "text-slate-600"
    ensures status == "pending" ==> color == "text-amber-600"
    ensures status == "approved" ==> color == "text-emerald-600"
    ensures status == "rejected" ==> color == "text-red-600"
  {
    if status == "pending" then "text-amber-600"
    else if status == "approved" then "text-emerald-600"
    else if status == "rejected" then "text-red-600"
    else "text-slate-600"
  }

  /** Among the known statuses the colour tells the status; any other status is shown as a draft. */
  lemma ColorsTellStatus(s: string, t: string)
    requires s in ["draft", "pending", "approved", "rejected"] && t in ["draft", "pending", "approved", "rejected"]
    ensures BadgeColor(s) == BadgeColor(t) <==> s == t
    ensures s != "draft" ==> BadgeColor(s) != BadgeColor("draft")
  {
  }

  /** The card's actions: edit a draft or rejected course, delete only a draft. */
  predicate CanEdit(c: Course) {
    c.status == "draft" || c.status == "rejected"
  }

  predicate CanDelete(c: Course) {
    c.status == "draft"
  }

  /** Whatever can be deleted can be edited; submitted and live courses can be neither. */
  lemma ActionsByStatus(c: Course)
    ensures CanDelete(c) ==> CanEdit(c)
    ensures c.status == "pending" || c.status == "approved" ==> !CanEdit(c) && !CanDelete(c)
  {
  }

  /** The player parameter that starts the preview at second 74. */
  const StartAt74 := "start=74"

  /** The card's media: the promo video starting at second 74, else a stock photo 800 pixels wide. */
  function CardMedia(c: Course): (m: Media)
    ensures Truthy(c.promoVideoUrl) <==> m.Video?
    ensures m.Picture? ==> m.src == StockImageUrl(c.id, "800")
  {
    if Truthy(c.promoVideoUrl) then Video(AppendParams(c.promoVideoUrl.value, StartAt74))
    else Picture(StockImageUrl(c.id, "800"))
  }

  /** The video's query is the promo URL's own query followed by `start=74`. */
  lemma VideoStartsAt74(c: Course)
    requires Truthy(c.promoVideoUrl) && '#' !in c.promoVideoUrl.value
    ensures var url := c.promoVideoUrl.value;
      QueryOf(CardMedia(c).src) == if '?' in url then QueryOf(url) + "&" + StartAt74 else StartAt74
  {
    assert '#' !in StartAt74;
    AppendParamsQuery(c.promoVideoUrl.value, StartAt74);
  }

  /** The soft delete: only `is_deleted` changes. */
  function MarkDeleted(cs: seq<Course>, courseId: string): seq<Course> {
    UpdateWhere(cs, courseId, (c: Course) => c.(isDeleted := true))
  }

  /** After a soft delete the course drops out of every listing, and every other listed course stays. */
  lemma DeletedLeavesListing(cs: seq<Course>, courseId: string, instructorId: string, statusFilter: string)
    ensures forall c :: c in MyCourses(MarkDeleted(cs, courseId), instructorId, statusFilter) ==> c.id != courseId
    ensures forall c :: c in MyCourses(cs, instructorId, statusFilter) && c.id != courseId ==>
      c in MyCourses(MarkDeleted(cs, courseId), instructorId, statusFilter)
  {
    var t := MarkDeleted(cs, courseId);
    MyCoursesSpec(cs, instructorId, statusFilter);
    MyCoursesSpec(t, instructorId, statusFilter);
    forall c | c in MyCourses(t, instructorId, statusFilter) ensures c.id != courseId {
      var i :| 0 <= i < |t| && t[i] == c;
      assert !t[i].isDeleted && cs[i] in cs;
    }
    forall c | c in MyCourses(cs, instructorId, statusFilter) && c.id != courseId
      ensures c in MyCourses(t, instructorId, statusFilter)
    {
      var i :| 0 <= i < |cs| && cs[i] == c;
      assert t[i] == c;
    }
  }

  class MyCoursesPage {
    var courses: seq<Course>
    var loadingCourses: bool
    var statusFilter: string
    var searchTerm: string
    var alert: Option<string>

    constructor ()
      ensures courses == [] && loadingCourses && statusFilter == "all" && searchTerm == "" && alert.None?
    {
      courses, loadingCourses, statusFilter, searchTerm, alert := [], true, "all", "", None;
    }

    /** `fetchCourses`: the listing for this instructor, or the old listing on error. */
    method FetchCourses(store: CourseTable, user: AuthUser, refusal: Option<DbError>)
      modifies this
      ensures courses == if refusal.None? then MyCourses(store.courses, user.id, statusFilter) else old(courses)
      ensures !loadingCourses && statusFilter == old(statusFilter) && searchTerm == old(searchTerm) && alert == old(alert)
    {
      if refusal.None? {
        courses := MyCourses(store.courses, user.id, statusFilter);
      }
      loadingCourses := false;
    }

    /**
     * `handleDeleteCourse`: nothing unless confirmed; then mark the course
     * deleted and refetch, or alert the error.
     */
    method HandleDeleteCourse(store: CourseTable, user: AuthUser, courseId: string, confirmed: bool,
                              updateRefusal: Option<DbError>, fetchRefusal: Option<DbError>)
      requires store.Valid()
      modifies this, store
      ensures store.Valid() && store.logs == old(store.logs)
      ensures statusFilter == old(statusFilter) && searchTerm == old(searchTerm)
      ensures !confirmed ==> store.courses == old(store.courses) && courses == old(courses) && alert == old(alert)
      ensures confirmed && updateRefusal.Some? ==>
        && store.courses == old(store.courses) && courses == old(courses)
        && alert == Some("Error deleting course: " + updateRefusal.value.message)
      ensures confirmed && updateRefusal.None? ==>
        && store.courses == MarkDeleted(old(store.courses), courseId) && alert == old(alert)
        && courses == (if fetchRefusal.None? then MyCourses(store.courses, user.id, statusFilter) else old(courses))
    {
      if !confirmed {
        return;
      }
      var err := store.Update(courseId, (c: Course) => c.(isDeleted := true), updateRefusal);
      if err.Some? {
        alert := Some("Error deleting course: " + err.value.message);
      } else {
        FetchCourses(store, user, fetchRefusal);
      }
    }
  }
}
