/**
 * The admin course-approval table: a status filter over all courses, newest
 * first, and per-row approve / reject buttons that update the status.
 */
module AdminCoursesPage {
  import opened Common
  import opened CourseStore

  const FilterOptions: seq<string> := ["all", "pending", "approved", "rejected"]

  /** The listing query: every course for `all`, else the courses with that status. */
  function ListCourses(newestFirst: seq<Course>, filter: string): seq<Course> {
    if filter == "all" then newestFirst else Filter(newestFirst, (c: Course) => c.status == filter)
  }

  /** The listing keeps the query's order and holds exactly the courses the filter admits; deleted ones included. */
  lemma ListCoursesSpec(newestFirst: seq<Course>, filter: string)
    ensures IsSubsequence(ListCourses(newestFirst, filter), newestFirst)
    ensures forall c :: c in ListCourses(newestFirst, filter) <==> c in newestFirst && (filter == "all" || c.status == filter)
  {
    if filter == "all" {
      SubsequenceRefl(newestFirst);
    } else {
      FilterSpec(newestFirst, (c: Course) => c.status == filter);
    }
  }

  predicate CanApprove(c: Course) {
    c.status != "approved"
  }

  predicate CanReject(c: Course) {
    c.status != "rejected"
  }

  /** Every row offers at least one action; a pending or draft row offers both. */
  lemma ActionsOffered(c: Course)
    ensures CanApprove(c) || CanReject(c)
    ensures c.status == "pending" || c.status == "draft" ==> CanApprove(c) && CanReject(c)
  {
  }

  /** The status cell: a label for the three review states, nothing otherwise (a draft shows no label). */
  function StatusLabel(status: string): (l: Option<string>)
    ensures l.Some? <==> status in FilterOptions[1..]
  {
    if status == "pending" then Some("Pending")
    else if status == "approved" then Some("Approved")
    else if status == "rejected" then Some("Rejected")
    else None
  }

  /** The row image: the course's thumbnail when truthy, else a stock photo 200 pixels wide. */
  function ThumbnailSrc(c: Course): (src: string)
    ensures Truthy(c.thumbnailUrl) ==> src == c.thumbnailUrl.value
    ensures !Truthy(c.thumbnailUrl) ==> src == StockImageUrl(c.id, "200")
  {
    OrElse(c.thumbnailUrl, StockImageUrl(c.id, "200"))
  }

  /**
   * A status update followed by a refetch under the filter for that same status
   * shows the updated course.
   */
  lemma UpdatedCourseListed(cs: seq<Course>, courseId: string, status: string)
    requires exists c :: c in cs && c.id == courseId
    ensures exists c :: c in ListCourses(SetStatus(cs, courseId, status), status) && c.id == courseId
  {
    var c :| c in cs && c.id == courseId;
    var i :| 0 <= i < |cs| && cs[i] == c;
    var t := SetStatus(cs, courseId, status);
    SetStatusSpec(cs, courseId, status);
    ListCoursesSpec(t, status);
    assert t[i] in t && t[i].id == courseId && t[i].status == status;
  }

  class CoursesPage {
    var courses: seq<Course>
    var filter: string
    var loading: bool
    var alert: Option<string>

    constructor ()
      ensures courses == [] && filter == "all" && loading && alert.None?
    {
      courses, filter, loading, alert := [], "all", true, None;
    }

    /** `fetchCourses`: the listing under the current filter, or the old listing on error. */
    method FetchCourses(store: CourseTable, refusal: Option<DbError>)
      modifies this
      ensures courses == if refusal.None? then ListCourses(store.courses, filter) else old(courses)
      ensures !loading && filter == old(filter) && alert == old(alert)
    {
      if refusal.None? {
        courses := ListCourses(store.courses, filter);
      }
      loading := false;
    }

    /** Choosing a filter refetches under it. */
    method SetFilter(newFilter: string, store: CourseTable, refusal: Option<DbError>)
      modifies this
      ensures filter == newFilter && !loading && alert == old(alert)
      ensures courses == if refusal.None? then ListCourses(store.courses, newFilter) else old(courses)
    {
      filter := newFilter;
      FetchCourses(store, refusal);
    }

    /** `updateStatus(courseId, status)`: only the status changes; then refetch, or alert the error's message. */
    method UpdateStatus(store: CourseTable, courseId: string, status: string,
                        updateRefusal: Option<DbError>, fetchRefusal: Option<DbError>)
      requires store.Valid()
      modifies this, store
      ensures store.Valid() && store.logs == old(store.logs) && filter == old(filter)
      ensures updateRefusal.Some? ==>
        store.courses == old(store.courses) && alert == Some(updateRefusal.value.message) && courses == old(courses)
      ensures updateRefusal.None? ==>
        && store.courses == SetStatus(old(store.courses), courseId, status) && alert == old(alert)
        && courses == (if fetchRefusal.None? then ListCourses(store.courses, filter) else old(courses))
    {
      var err := store.Update(courseId, (c: Course) => c.(status := status), updateRefusal);
      if err.Some? {
        alert := Some(err.value.message);
      } else {
        FetchCourses(store, fetchRefusal);
      }
    }
  }
}
