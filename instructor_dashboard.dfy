/**
 * The instructor dashboard: after the shared gate, it counts the instructor's
 * live courses (in total and by status), asks for the enrollment count only
 * when there is a course, sums successful payments and averages review ratings.
 * A failed query is not raised: its rows read as none, which gives the same
 * zeros as an empty answer.
 */
module InstructorDashboard {
  import opened Common
  import opened AuthTypes
  import opened CourseStore
  import EnrollmentApi
  import InstructorCoursesPage

  datatype Review = Review(courseId: string, rating: int)

  /** The tables the page reads. */
  datatype Tables = Tables(
    courses: seq<Course>,
    enrollments: seq<EnrollmentApi.Enrollment>,
    payments: seq<EnrollmentApi.Payment>,
    reviews: seq<Review>)

  /** Which of the four queries fail. */
  datatype Refusals = Refusals(courses: bool, enrollments: bool, payments: bool, reviews: bool)

  /**
   * `avgRating`: 0 without reviews, otherwise the mean of the ratings, kept as
   * its sum and count (the division and its `toFixed(1)` are floating point).
   */
  datatype Rating = NoRating | Mean(total: int, count: nat)

  datatype Metrics = Metrics(
    totalCourses: nat,
    totalStudents: nat,
    totalRevenue: int,
    avgRating: Rating,
    draft: nat,
    pending: nat,
    approved: nat,
    rejected: nat)

  const InitialMetrics := Metrics(0, 0, 0, NoRating, 0, 0, 0, 0)

  const KnownStatuses: seq<string> := ["draft", "pending", "approved", "rejected"]

  predicate Own(c: Course, instructorId: string) {
    c.instructorId == instructorId && !c.isDeleted
  }

  /** The courses query; a failure leaves `courses` null, which counts like no rows. */
  function CoursesAnswer(t: Tables, f: Refusals, instructorId: string): (cs: seq<Course>)
    ensures forall c :: c in cs ==> Own(c, instructorId) && c in t.courses
  {
    if f.courses then [] else
      FilterSpec(t.courses, (c: Course) => Own(c, instructorId));
      Filter(t.courses, (c: Course) => Own(c, instructorId))
  }

  function StatusCount(cs: seq<Course>, status: string): nat {
    |Filter(cs, (c: Course) => c.status == status)|
  }

  predicate OtherStatus(c: Course) {
    c.status !in KnownStatuses
  }

  function CourseIds(cs: seq<Course>): (ids: seq<string>)
    ensures |ids| == |cs| && forall i :: 0 <= i < |cs| ==> ids[i] == cs[i].id
  {
    seq(|cs|, i requires 0 <= i < |cs| => cs[i].id)
  }

  /** The enrollment count is asked for only when there is at least one course id. */
  predicate EnrollmentQueried(ids: seq<string>) {
    |ids| > 0
  }

  function StudentCount(t: Tables, f: Refusals, ids: seq<string>): nat {
    if !EnrollmentQueried(ids) || f.enrollments then 0
    else |Filter(t.enrollments, (e: EnrollmentApi.Enrollment) => e.courseId in ids)|
  }

  /** The payments query's filter: a successful payment for one of the courses. */
  function PaidFor(ids: seq<string>): EnrollmentApi.Payment -> bool {
    (p: EnrollmentApi.Payment) => p.courseId in ids && p.status == "success"
  }

  /** The reviews query's filter. */
  function ReviewOf(ids: seq<string>): Review -> bool {
    (r: Review) => r.courseId in ids
  }

  function Revenue(t: Tables, f: Refusals, ids: seq<string>): int {
    if f.payments then 0
    else
      var paid := Filter(t.payments, PaidFor(ids));
      Sum(seq(|paid|, i requires 0 <= i < |paid| => paid[i].amount))
  }

  function Ratings(t: Tables, f: Refusals, ids: seq<string>): seq<Review> {
    if f.reviews then [] else Filter(t.reviews, ReviewOf(ids))
  }

  function AverageRating(reviews: seq<Review>): (r: Rating)
    ensures r.NoRating? <==> reviews == []
    ensures r.Mean? ==> r.count == |reviews| > 0
  {
    if reviews == [] then NoRating
    else Mean(Sum(seq(|reviews|, i requires 0 <= i < |reviews| => reviews[i].rating)), |reviews|)
  }

  /** `fetchMetrics`'s result. */
  function ComputeMetrics(t: Tables, f: Refusals, instructorId: string): (m: Metrics)
    ensures m.totalCourses == |CoursesAnswer(t, f, instructorId)|
  {
    var cs := CoursesAnswer(t, f, instructorId);
    var ids := CourseIds(cs);
    Metrics(|cs|, StudentCount(t, f, ids), Revenue(t, f, ids), AverageRating(Ratings(t, f, ids)),
            StatusCount(cs, "draft"), StatusCount(cs, "pending"),
            StatusCount(cs, "approved"), StatusCount(cs, "rejected"))
  }

  /** Every course has exactly one of the four known statuses or another one. */
  lemma {:induction false} StatusCountsPartition(cs: seq<Course>)
    ensures StatusCount(cs, "draft") + StatusCount(cs, "pending") + StatusCount(cs, "approved")
      + StatusCount(cs, "rejected") + |Filter(cs, OtherStatus)| == |cs|
    decreases |cs|
  {
    if cs != [] {
      StatusCountsPartition(cs[1..]);
      StatusCountsStep(cs);
    }
  }

  /** The first course adds one to exactly one of the five counts. */
  lemma StatusCountsStep(cs: seq<Course>)
    requires cs != []
    ensures var c := cs[0];
      && StatusCount(cs, "draft") == StatusCount(cs[1..], "draft") + (if c.status == "draft" then 1 else 0)
      && StatusCount(cs, "pending") == StatusCount(cs[1..], "pending") + (if c.status == "pending" then 1 else 0)
      && StatusCount(cs, "approved") == StatusCount(cs[1..], "approved") + (if c.status == "approved" then 1 else 0)
      && StatusCount(cs, "rejected") == StatusCount(cs[1..], "rejected") + (if c.status == "rejected" then 1 else 0)
      && |Filter(cs, OtherStatus)| == |Filter(cs[1..], OtherStatus)| + (if OtherStatus(c) then 1 else 0)
  {
  }

  /**
   * `totalCourses` is the number of the instructor's live courses; the four
   * status counts are within it and each counts its own status.
   */
  lemma CountsSpec(t: Tables, f: Refusals, instructorId: string)
    ensures var m := ComputeMetrics(t, f, instructorId);
      && (!f.courses ==> m.totalCourses == |Filter(t.courses, (c: Course) => Own(c, instructorId))|)
      && (f.courses ==> m == InitialMetrics)
      && m.draft + m.pending + m.approved + m.rejected <= m.totalCourses
      && m.pending == |Filter(CoursesAnswer(t, f, instructorId), (c: Course) => c.status == "pending")|
  {
    var cs := CoursesAnswer(t, f, instructorId);
    StatusCountsPartition(cs);
    if f.courses {
      NothingMatchesNoIds(t);
    }
  }

  /** A course with another status adds to the total only. */
  lemma OtherStatusCountsOnlyTowardTotal(cs: seq<Course>, c: Course, status: string)
    requires OtherStatus(c) && status in KnownStatuses
    ensures StatusCount(cs + [c], status) == StatusCount(cs, status)
    ensures |cs + [c]| == |cs| + 1
  {
    FilterAppend(cs, [c], (x: Course) => x.status == status);
  }

  /** No course, no enrollment query and no students; a failed count also leaves 0. */
  lemma StudentsSpec(t: Tables, f: Refusals, instructorId: string)
    ensures var cs := CoursesAnswer(t, f, instructorId);
      && (EnrollmentQueried(CourseIds(cs)) <==> |cs| > 0)
      && (cs == [] || f.enrollments ==> ComputeMetrics(t, f, instructorId).totalStudents == 0)
  {
  }

  /** Without courses, or without reviews for them, the average rating is 0. */
  lemma NoReviewsMeansZero(t: Tables, f: Refusals, instructorId: string)
    ensures ComputeMetrics(t, f, instructorId).avgRating.NoRating? <==>
      Ratings(t, f, CourseIds(CoursesAnswer(t, f, instructorId))) == []
    ensures CoursesAnswer(t, f, instructorId) == [] ==> ComputeMetrics(t, f, instructorId).avgRating.NoRating?
    ensures CoursesAnswer(t, f, instructorId) == [] ==> ComputeMetrics(t, f, instructorId).totalRevenue == 0
  {
    var cs := CoursesAnswer(t, f, instructorId);
    if cs == [] {
      NothingMatchesNoIds(t);
    }
  }

  lemma NothingMatchesNoIds(t: Tables)
    ensures Filter(t.reviews, ReviewOf([])) == []
    ensures Filter(t.payments, PaidFor([])) == []
  {
    FilterNone(t.reviews, ReviewOf([]));
    FilterNone(t.payments, PaidFor([]));
  }

  class Dashboard {
    var metrics: Metrics
    var loadingMetrics: bool

    constructor ()
      ensures metrics == InitialMetrics && loadingMetrics
    {
      metrics, loadingMetrics := InitialMetrics, true;
    }

    /** `fetchMetrics`, with the tables and the failing queries as inputs. */
    method FetchMetrics(t: Tables, f: Refusals, instructorId: string)
      modifies this
      ensures metrics == ComputeMetrics(t, f, instructorId)
      ensures !loadingMetrics
    {
      loadingMetrics := true;
      metrics := ComputeMetrics(t, f, instructorId);
      loadingMetrics := false;
    }

    /** The page's effect: the shared gate, loading the metrics when it says so. */
    method OnAuth(loading: bool, user: Option<AuthUser>, role: Option<string>, t: Tables, f: Refusals)
      returns (e: InstructorCoursesPage.GateEffect)
      modifies this
      ensures e == InstructorCoursesPage.PageEffect(loading, user, role)
      ensures e.Load? ==> metrics == ComputeMetrics(t, f, user.value.id) && !loadingMetrics
      ensures !e.Load? ==> metrics == old(metrics) && loadingMetrics == old(loadingMetrics)
    {
      e := InstructorCoursesPage.PageEffect(loading, user, role);
      if e.Load? {
        FetchMetrics(t, f, user.value.id);
      }
    }
  }
}
