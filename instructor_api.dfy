/**
 * The admin app's `getInstructorStats`: one query for the instructor's course
 * rows with their enrollments, folded into four counts. A query error is
 * raised again to the caller.
 */
module InstructorApi {
  import opened Common
  import opened CourseStore
  import InstructorDashboard

  /** A course row with its nested `enrollments (id)`; `None` is a null relation. */
  datatype CourseEnrollments = CourseEnrollments(course: Course, enrollmentIds: Option<seq<nat>>)

  datatype InstructorStats = InstructorStats(totalCourses: nat, totalStudents: nat, pendingApprovals: nat, activeCourses: nat)

  datatype StatsAnswer = Stats(stats: InstructorStats) | Raised(error: DbError)

  /** The query: every row of this instructor, deleted or not. */
  function InstructorRows(table: seq<CourseEnrollments>, instructorId: string): (rows: seq<CourseEnrollments>)
    ensures forall r :: r in rows <==> r in table && r.course.instructorId == instructorId
  {
    FilterSpec(table, (r: CourseEnrollments) => r.course.instructorId == instructorId);
    Filter(table, (r: CourseEnrollments) => r.course.instructorId == instructorId)
  }

  /** `course.enrollments?.length || 0`. */
  function EnrollmentCount(r: CourseEnrollments): nat {
    if r.enrollmentIds.Some? then |r.enrollmentIds.value| else 0
  }

  function EnrollmentCounts(rows: seq<CourseEnrollments>): (xs: seq<int>)
    ensures |xs| == |rows| && forall i :: 0 <= i < |rows| ==> xs[i] == EnrollmentCount(rows[i])
  {
    seq(|rows|, i requires 0 <= i < |rows| => EnrollmentCount(rows[i]) as int)
  }

  function RowsWithStatus(rows: seq<CourseEnrollments>, status: string): seq<CourseEnrollments> {
    Filter(rows, (r: CourseEnrollments) => r.course.status == status)
  }

  /** `getInstructorStats(instructorId)`, given the query's error if it fails. */
  function GetInstructorStats(table: seq<CourseEnrollments>, instructorId: string, refusal: Option<DbError>): (a: StatsAnswer)
    ensures refusal.Some? ==> a == Raised(refusal.value)
    ensures refusal.None? ==> a.Stats?
  {
    if refusal.Some? then Raised(refusal.value)
    else
      var rows := InstructorRows(table, instructorId);
      var students := Sum(EnrollmentCounts(rows));
      NonNegativeSum(EnrollmentCounts(rows));
      Stats(InstructorStats(|rows|, students, |RowsWithStatus(rows, "pending")|, |RowsWithStatus(rows, "approved")|))
  }

  lemma {:induction false} NonNegativeSum(xs: seq<int>)
    requires forall i :: 0 <= i < |xs| ==> xs[i] >= 0
    ensures Sum(xs) >= 0
    decreases |xs|
  {
    if xs != [] {
      NonNegativeSum(xs[1..]);
    }
  }

  /** A row's enrollments add to the student total; a row without the relation adds nothing. */
  lemma StudentsAddUp(rows: seq<CourseEnrollments>, r: CourseEnrollments)
    ensures Sum(EnrollmentCounts(rows + [r])) == Sum(EnrollmentCounts(rows)) + EnrollmentCount(r)
    ensures r.enrollmentIds.None? ==> Sum(EnrollmentCounts(rows + [r])) == Sum(EnrollmentCounts(rows))
  {
    assert EnrollmentCounts(rows + [r]) == EnrollmentCounts(rows) + [EnrollmentCount(r) as int];
    SumAppend(EnrollmentCounts(rows), [EnrollmentCount(r) as int]);
  }

  /** The counts: every row of the instructor, pending and approved rows among them, and no others. */
  lemma StatsSpec(table: seq<CourseEnrollments>, instructorId: string)
    ensures var s := GetInstructorStats(table, instructorId, None).stats;
      && s.totalCourses == |InstructorRows(table, instructorId)|
      && s.pendingApprovals + s.activeCourses <= s.totalCourses
      && (forall r :: r in RowsWithStatus(InstructorRows(table, instructorId), "pending") <==>
            r in table && r.course.instructorId == instructorId && r.course.status == "pending")
      && (forall r :: r in RowsWithStatus(InstructorRows(table, instructorId), "approved") <==>
            r in table && r.course.instructorId == instructorId && r.course.status == "approved")
  {
    var rows := InstructorRows(table, instructorId);
    DisjointCounts(rows, (r: CourseEnrollments) => r.course.status == "pending", (r: CourseEnrollments) => r.course.status == "approved");
    FilterSpec(rows, (r: CourseEnrollments) => r.course.status == "pending");
    FilterSpec(rows, (r: CourseEnrollments) => r.course.status == "approved");
  }

  /**
   * Unlike the instructor's own dashboard, these stats keep soft-deleted
   * courses: the two totals differ by the instructor's deleted courses.
   */
  lemma {:induction false} CountsDeletedCourses(table: seq<CourseEnrollments>, instructorId: string)
    ensures |InstructorRows(table, instructorId)| ==
      |Filter(Courses(table), (c: Course) => InstructorDashboard.Own(c, instructorId))|
      + |Filter(Courses(table), (c: Course) => c.instructorId == instructorId && c.isDeleted)|
    decreases |table|
  {
    if table != [] {
      assert Courses(table)[1..] == Courses(table[1..]);
      CountsDeletedCourses(table[1..], instructorId);
    }
  }

  function Courses(table: seq<CourseEnrollments>): (cs: seq<Course>)
    ensures |cs| == |table| && forall i :: 0 <= i < |table| ==> cs[i] == table[i].course
  {
    seq(|table|, i requires 0 <= i < |table| => table[i].course)
  }
}
