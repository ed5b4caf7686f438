/**
 * The student dashboard: the enrolled-course listing under the
 * all / active / completed filter, and the three counters above it.
 */
module StudentDashboard {
  import opened Common
  import opened EnrollmentApi

  predicate IsActive(c: MyCourse) {
    0 < c.progress < 100
  }

  predicate IsCompleted(c: MyCourse) {
    c.progress == 100
  }

  /**
   * The filter effect: `all`, `active` and `completed` recompute the shown
   * list; any other value leaves it as it was.
   */
  function Shown(courses: seq<MyCourse>, filter: string, previous: seq<MyCourse>): seq<MyCourse> {
    if filter == "all" then courses
    else if filter == "active" then Filter(courses, IsActive)
    else if filter == "completed" then Filter(courses, IsCompleted)
    else previous
  }

  /** Each filter keeps exactly the courses it names, in order. */
  lemma ShownSpec(courses: seq<MyCourse>, previous: seq<MyCourse>)
    ensures Shown(courses, "all", previous) == courses
    ensures forall c :: c in Shown(courses, "active", previous) <==> c in courses && 0 < c.progress < 100
    ensures forall c :: c in Shown(courses, "completed", previous) <==> c in courses && c.progress == 100
    ensures IsSubsequence(Shown(courses, "active", previous), courses)
    ensures IsSubsequence(Shown(courses, "completed", previous), courses)
  {
    FilterSpec(courses, IsActive);
    FilterSpec(courses, IsCompleted);
  }

  datatype Stats = Stats(total: nat, active: nat, completed: nat)

  function DashboardStats(courses: seq<MyCourse>): Stats {
    Stats(|courses|, |Filter(courses, IsActive)|, |Filter(courses, IsCompleted)|)
  }

  /** No course is both active and completed, so the two counters never exceed the total. */
  lemma StatsPartition(courses: seq<MyCourse>)
    ensures var s := DashboardStats(courses);
      s.active + s.completed <= s.total && s.active <= s.total && s.completed <= s.total
  {
    DisjointCounts(courses, IsActive, IsCompleted);
  }

  /** The two filters split the courses that have been started and are tracked: none lies in both. */
  lemma FiltersDisjoint(courses: seq<MyCourse>, previous: seq<MyCourse>)
    ensures forall c :: !(c in Shown(courses, "active", previous) && c in Shown(courses, "completed", previous))
  {
    ShownSpec(courses, previous);
  }

  class Dashboard {
    var courses: seq<MyCourse>
    var shown: seq<MyCourse>
    var filter: string
    var loading: bool

    constructor ()
      ensures courses == [] && shown == [] && filter == "all" && loading
    {
      courses, shown, filter, loading := [], [], "all", true;
    }

    /**
     * The fetch effect: with a user, the listing (kept as it was when the
     * service raised), after which the filter effect re-runs on it; without a
     * user, once auth is done, loading simply ends.
     */
    method Load(hasUser: bool, authLoading: bool, answer: Option<seq<EnrollmentRow>>)
      modifies this
      ensures filter == old(filter)
      ensures hasUser && answer.Some? ==> courses == MyCourses(answer.value) && shown == Shown(courses, filter, courses) && !loading
      ensures hasUser && answer.None? ==> courses == old(courses) && shown == old(shown) && !loading
      ensures !hasUser ==> courses == old(courses) && shown == old(shown) && loading == (old(loading) && authLoading)
    {
      if hasUser {
        if answer.Some? {
          var rows := GetMyCourses(answer.value);
          courses := rows;
          shown := Shown(rows, filter, rows);
        }
        loading := false;
      } else if !authLoading {
        loading := false;
      }
    }

    /** Choosing a filter recomputes the shown list. */
    method SetFilter(f: string)
      modifies this
      ensures filter == f && courses == old(courses) && loading == old(loading)
      ensures shown == Shown(courses, f, old(shown))
    {
      filter := f;
      shown := Shown(courses, f, shown);
    }
  }
}
