/**
 * The student app's enrollment service: enrolling (with its mock payment),
 * the "my courses" listing with progress percentages, and marking a lesson
 * complete.
 */
module EnrollmentApi {
  import opened Common
  import CourseStore

  // ---------------------------------------------------------------------------
  // Progress arithmetic
  // ---------------------------------------------------------------------------

  /**
   * `totalLessons > 0 ? Math.round((completed / totalLessons) * 100) : 0`, with
   * `Math.round` taken exactly: floor(100c/t + 1/2) = floor((200c + t) / 2t).
   */
  function Progress(completed: nat, total: nat): int {
    if total == 0 then 0 else (200 * completed + total) / (2 * total)
  }

  /** Euclidean division by a positive divisor brackets the dividend. */
  lemma DivBrackets(n: int, d: int)
    requires d > 0
    ensures d * (n / d) <= n < d * (n / d) + d
  {
  }

  /** The percentage is the rounded ratio: within half a point of 100c/t, halves rounding up. */
  lemma ProgressIsRounded(completed: nat, total: nat)
    requires total > 0
    ensures 2 * total * Progress(completed, total) <= 200 * completed + total < 2 * total * Progress(completed, total) + 2 * total
  {
    DivBrackets(200 * completed + total, 2 * total);
  }

  /** With a positive factor, the products order as the other factors do. */
  lemma ScaleOrder(d: int, p: int, q: int)
    requires d > 0 && d * p < d * q
    ensures p < q
  {
  }

  /** The percentage lies in [0, 100] when no more lessons are complete than exist; all done is exactly 100, none done 0. */
  lemma ProgressBounds(completed: nat, total: nat)
    requires completed <= total
    ensures 0 <= Progress(completed, total) <= 100
    ensures total > 0 && completed == total ==> Progress(completed, total) == 100
    ensures completed == 0 ==> Progress(completed, total) == 0
  {
    if total > 0 {
      var p := Progress(completed, total);
      var d := 2 * total;
      ProgressIsRounded(completed, total);
      assert d * p <= 201 * total < d * 101;
      ScaleOrder(d, p, 101);
      assert d * 0 < d * p + d;
      ScaleOrder(d, -1, p);
      if completed == total {
        assert d * 100 < d * p + d;
        ScaleOrder(d, 99, p);
      }
      if completed == 0 {
        assert d * p < d * 1;
        ScaleOrder(d, p, 1);
      }
    }
  }

  /** Completing another lesson never lowers the percentage. */
  lemma ProgressMonotone(c1: nat, c2: nat, total: nat)
    requires c1 <= c2
    ensures Progress(c1, total) <= Progress(c2, total)
  {
    if total > 0 {
      var d := 2 * total;
      ProgressIsRounded(c1, total);
      ProgressIsRounded(c2, total);
      assert d * Progress(c1, total) < d * (Progress(c2, total) + 1);
      ScaleOrder(d, Progress(c1, total), Progress(c2, total) + 1);
    }
  }

  // ---------------------------------------------------------------------------
  // getMyCourses
  // ---------------------------------------------------------------------------

  /** An embedded relation as the client returns it: absent, an object, or an array of objects. */
  datatype Related<T> = Absent | Single(value: T) | Many(values: seq<T>)

  /** `Array.isArray(x) ? x[0] : x`: an empty array gives nothing. */
  function Unwrap<T>(r: Related<T>): (o: Option<T>)
    ensures r.Single? ==> o == Some(r.value)
    ensures r.Many? ==> (o.Some? <==> r.values != []) && (r.values != [] ==> o.value == r.values[0])
    ensures r.Absent? ==> o.None?
  {
    match r
      case Absent => None
      case Single(v) => Some(v)
      case Many(vs) => if vs == [] then None else Some(vs[0])
  }

  datatype CourseInfo = CourseInfo(
    id: string, title: string, thumbnail: Option<string>,
    instructor: Related<string>, sections: Option<seq<CourseStore.SectionInfo>>)

  /** One enrollment row, with the answer of its completed-lessons count query (null when it failed). */
  datatype EnrollmentRow = EnrollmentRow(id: nat, enrolledAt: string, course: Related<CourseInfo>, completedCount: Option<nat>)

  datatype MyCourse = MyCourse(
    courseId: string, title: string, thumbnail: Option<string>, instructor: Option<string>,
    enrolledAt: string, progress: int, totalLessons: nat, completedLessons: nat)


  /** The listing entry for one enrollment, or nothing when it has no course. */
  function Entry(e: EnrollmentRow): seq<MyCourse> {
    match Unwrap(e.course)
      case None => []
      case Some(c) =>
        var total := CourseStore.TotalLessons(c.sections);
        var done := if e.completedCount.Some? then e.completedCount.value else 0;
        [MyCourse(c.id, c.title, c.thumbnail, Unwrap(c.instructor), e.enrolledAt, Progress(done, total), total, done)]
  }

  /** The listing the loop builds, one entry per enrollment with a course, in row order. */
  function MyCourses(rows: seq<EnrollmentRow>): seq<MyCourse>
    decreases |rows|
  {
    if rows == [] then [] else MyCourses(rows[..|rows| - 1]) + Entry(rows[|rows| - 1])
  }

  /** `getMyCourses(userId)` once its query answered `rows` (an error is raised before the loop). */
  method GetMyCourses(rows: seq<EnrollmentRow>) returns (results: seq<MyCourse>)
    ensures results == MyCourses(rows)
  {
    results := [];
    for i := 0 to |rows|
      invariant results == MyCourses(rows[..i])
    {
      assert rows[..i + 1][..i] == rows[..i];
      var e := rows[i];
      var course := Unwrap(e.course);
      if course.None? {
        continue;
      }
      var c := course.value;
      var total := CourseStore.TotalLessons(c.sections);
      var done := if e.completedCount.Some? then e.completedCount.value else 0;
      results := results + [MyCourse(c.id, c.title, c.thumbnail, Unwrap(c.instructor), e.enrolledAt, Progress(done, total), total, done)];
    }
    assert rows[..|rows|] == rows;
  }

  /**
   * The listing has one entry per enrollment with a course, no more than the
   * enrollments; each entry's progress is its rounded completion percentage,
   * within [0, 100] when the count does not exceed the lessons.
   */
  lemma {:induction false} MyCoursesSpec(rows: seq<EnrollmentRow>)
    ensures |MyCourses(rows)| <= |rows|
    ensures forall m :: m in MyCourses(rows) ==>
      && m.progress == Progress(m.completedLessons, m.totalLessons)
      && (m.completedLessons <= m.totalLessons ==> 0 <= m.progress <= 100)
    ensures (forall e :: e in rows ==> Unwrap(e.course).Some?) ==> |MyCourses(rows)| == |rows|
    decreases |rows|
  {
    if rows != [] {
      var init := rows[..|rows| - 1];
      var last := rows[|rows| - 1];
      assert forall e :: e in init ==> e in rows;
      MyCoursesSpec(init);
      assert MyCourses(rows) == MyCourses(init) + Entry(last);
      forall m | m in MyCourses(rows)
        ensures m.progress == Progress(m.completedLessons, m.totalLessons)
        ensures m.completedLessons <= m.totalLessons ==> 0 <= m.progress <= 100
      {
        if m !in MyCourses(init) {
          assert m in Entry(last);
          if m.completedLessons <= m.totalLessons {
            ProgressBounds(m.completedLessons, m.totalLessons);
          }
        }
      }
    }
  }

  /** An enrollment without a course adds nothing; one with a course adds its entry. */
  lemma SkipsEnrollmentsWithoutCourse(rows: seq<EnrollmentRow>, e: EnrollmentRow)
    ensures Unwrap(e.course).None? ==> MyCourses(rows + [e]) == MyCourses(rows)
    ensures Unwrap(e.course).Some? ==> |MyCourses(rows + [e])| == |MyCourses(rows)| + 1
  {
    assert (rows + [e])[..|rows + [e]| - 1] == rows;
  }

  // ---------------------------------------------------------------------------
  // The enrollment tables
  // ---------------------------------------------------------------------------

  datatype Enrollment = Enrollment(id: nat, courseId: string, userId: string)

  datatype Payment = Payment(courseId: string, userId: string, amount: int, status: string)

  datatype LessonProgress = LessonProgress(id: nat, enrollmentId: nat, lessonId: string, isCompleted: bool, updatedAt: string)

  datatype Outcome = Done | Raised(message: string)

  const NoSessionMessage: string := "Authentication session missing. Please log in again."
  const NoEnrollmentMessage: string := "No enrollment found for this course."
  const MultipleRowsMessage: string := "JSON object requested, multiple (or no) rows returned"

  function EnrollmentsOf(es: seq<Enrollment>, userId: string, courseId: string): seq<Enrollment> {
    Filter(es, (e: Enrollment) => e.userId == userId && e.courseId == courseId)
  }

  function ProgressRows(ps: seq<LessonProgress>, enrollmentId: nat, lessonId: string): seq<LessonProgress> {
    Filter(ps, (p: LessonProgress) => p.enrollmentId == enrollmentId && p.lessonId == lessonId)
  }

  /** `update({is_completed: true, updated_at}).eq('id', id)`. */
  function CompleteWhere(ps: seq<LessonProgress>, id: nat, now: string): (r: seq<LessonProgress>)
    ensures |r| == |ps|
    ensures forall i :: 0 <= i < |ps| ==>
      r[i] == if ps[i].id == id then ps[i].(isCompleted := true, updatedAt := now) else ps[i]
  {
    seq(|ps|, i requires 0 <= i < |ps| => if ps[i].id == id then ps[i].(isCompleted := true, updatedAt := now) else ps[i])
  }

  /** An update keeps which (enrollment, lesson) rows exist. */
  lemma {:induction false} CompleteKeepsKeys(ps: seq<LessonProgress>, id: nat, now: string, enrollmentId: nat, lessonId: string)
    ensures |ProgressRows(CompleteWhere(ps, id, now), enrollmentId, lessonId)| == |ProgressRows(ps, enrollmentId, lessonId)|
    decreases |ps|
  {
    if ps != [] {
      var r := CompleteWhere(ps, id, now);
      assert r[1..] == CompleteWhere(ps[1..], id, now);
      CompleteKeepsKeys(ps[1..], id, now, enrollmentId, lessonId);
    }
  }

  lemma {:induction false} ProgressRowsAppend(ps: seq<LessonProgress>, q: LessonProgress, enrollmentId: nat, lessonId: string)
    ensures ProgressRows(ps + [q], enrollmentId, lessonId)
      == ProgressRows(ps, enrollmentId, lessonId) + (if q.enrollmentId == enrollmentId && q.lessonId == lessonId then [q] else [])
  {
    FilterAppend(ps, [q], (p: LessonProgress) => p.enrollmentId == enrollmentId && p.lessonId == lessonId);
    assert [q][1..] == [];
  }

  class EnrollmentStore {
    var enrollments: seq<Enrollment>
    var payments: seq<Payment>
    var progress: seq<LessonProgress>
    var nextId: nat

    ghost predicate Valid()
      reads this
    {
      (forall e :: e in enrollments ==> e.id < nextId) && (forall p :: p in progress ==> p.id < nextId)
    }

    constructor ()
      ensures Valid() && enrollments == [] && payments == [] && progress == []
    {
      enrollments, payments, progress, nextId := [], [], [], 0;
    }

    /**
     * `enrollUser(courseId, userId, amount)`: without a session nothing is
     * inserted; an enrollment insert error is raised and no payment is written;
     * otherwise the payment is inserted too, and its own failure is ignored.
     */
    method EnrollUser(courseId: string, userId: string, amount: int, hasSession: bool,
                      enrollRefusal: Option<string>, paymentRefusal: Option<string>)
      returns (r: Outcome)
      requires Valid()
      modifies this
      ensures Valid() && progress == old(progress)
      ensures !hasSession ==> r == Raised(NoSessionMessage) && enrollments == old(enrollments) && payments == old(payments)
      ensures hasSession && enrollRefusal.Some? ==>
        r == Raised(enrollRefusal.value) && enrollments == old(enrollments) && payments == old(payments)
      ensures hasSession && enrollRefusal.None? ==>
        && r == Done
        && enrollments == old(enrollments) + [Enrollment(old(nextId), courseId, userId)]
        && payments == old(payments) + (if paymentRefusal.None? then [Payment(courseId, userId, amount, "success")] else [])
    {
      if !hasSession {
        return Raised(NoSessionMessage);
      }
      if enrollRefusal.Some? {
        return Raised(enrollRefusal.value);
      }
      enrollments := enrollments + [Enrollment(nextId, courseId, userId)];
      nextId := nextId + 1;
      if paymentRefusal.None? {
        payments := payments + [Payment(courseId, userId, amount, "success")];
      }
      return Done;
    }

    /**
     * `markLessonComplete(studentId, lessonId, courseId)`: the student's first
     * enrollment in the course, then its progress row for the lesson: updated
     * to completed when there is one, inserted completed when there is none;
     * `maybeSingle` raises when there are several.
     */
    method MarkLessonComplete(studentId: string, lessonId: string, courseId: string, now: string,
                              lookupRefusal: Option<string>, writeRefusal: Option<string>)
      returns (r: Outcome)
      requires Valid()
      modifies this
      ensures Valid() && enrollments == old(enrollments) && payments == old(payments)
      ensures lookupRefusal.Some? ==> r == Raised(lookupRefusal.value) && progress == old(progress)
      ensures lookupRefusal.None? && EnrollmentsOf(enrollments, studentId, courseId) == [] ==>
        r == Raised(NoEnrollmentMessage) && progress == old(progress)
      ensures lookupRefusal.None? && EnrollmentsOf(enrollments, studentId, courseId) != [] ==>
        var e := EnrollmentsOf(enrollments, studentId, courseId)[0];
        var existing := ProgressRows(old(progress), e.id, lessonId);
        if |existing| > 1 then r == Raised(MultipleRowsMessage) && progress == old(progress)
        else if writeRefusal.Some? then r == Raised(writeRefusal.value) && progress == old(progress)
        else
          && r == Done
          && (|existing| == 1 ==> progress == CompleteWhere(old(progress), existing[0].id, now))
          && (|existing| == 0 ==> progress == old(progress) + [LessonProgress(old(nextId), e.id, lessonId, true, now)])
    {
      if lookupRefusal.Some? {
        return Raised(lookupRefusal.value);
      }
      var mine := EnrollmentsOf(enrollments, studentId, courseId);
      if mine == [] {
        return Raised(NoEnrollmentMessage);
      }
      var e := mine[0];
      var existing := ProgressRows(progress, e.id, lessonId);
      if |existing| > 1 {
        return Raised(MultipleRowsMessage);
      }
      if writeRefusal.Some? {
        return Raised(writeRefusal.value);
      }
      if |existing| == 1 {
        progress := CompleteWhere(progress, existing[0].id, now);
        assert forall p :: p in progress ==> p.id < nextId by {
          forall p | p in progress ensures p.id < nextId {
            var i :| 0 <= i < |progress| && progress[i] == p;
            assert old(progress)[i] in old(progress);
          }
        }
      } else {
        progress := progress + [LessonProgress(nextId, e.id, lessonId, true, now)];
        nextId := nextId + 1;
      }
      return Done;
    }
  }

  /**
   * After a successful call the (enrollment, lesson) row is there and completed,
   * and the number of such rows is 1 whether or not one existed: repeating the
   * call adds no row.
   */
  lemma MarkedRowCompleted(ps: seq<LessonProgress>, enrollmentId: nat, lessonId: string, freshId: nat, now: string)
    requires |ProgressRows(ps, enrollmentId, lessonId)| <= 1
    requires forall p :: p in ps ==> p.id < freshId
    ensures var existing := ProgressRows(ps, enrollmentId, lessonId);
      var after := if |existing| == 1 then CompleteWhere(ps, existing[0].id, now)
                   else ps + [LessonProgress(freshId, enrollmentId, lessonId, true, now)];
      && |ProgressRows(after, enrollmentId, lessonId)| == 1
      && ProgressRows(after, enrollmentId, lessonId)[0].isCompleted
  {
    var existing := ProgressRows(ps, enrollmentId, lessonId);
    if |existing| == 1 {
      MarkExistingRow(ps, enrollmentId, lessonId, now);
    } else {
      ProgressRowsAppend(ps, LessonProgress(freshId, enrollmentId, lessonId, true, now), enrollmentId, lessonId);
    }
  }

  /** Completing the one existing row leaves exactly one row for the lesson, completed. */
  lemma MarkExistingRow(ps: seq<LessonProgress>, enrollmentId: nat, lessonId: string, now: string)
    requires |ProgressRows(ps, enrollmentId, lessonId)| == 1
    ensures var after := CompleteWhere(ps, ProgressRows(ps, enrollmentId, lessonId)[0].id, now);
      && |ProgressRows(after, enrollmentId, lessonId)| == 1
      && ProgressRows(after, enrollmentId, lessonId)[0].isCompleted
  {
    var existing := ProgressRows(ps, enrollmentId, lessonId);
    var key := (p: LessonProgress) => p.enrollmentId == enrollmentId && p.lessonId == lessonId;
    FilterSpec(ps, key);
    var after := CompleteWhere(ps, existing[0].id, now);
    CompleteKeepsKeys(ps, existing[0].id, now, enrollmentId, lessonId);
    FilterSpec(after, key);
    var q := ProgressRows(after, enrollmentId, lessonId)[0];
    assert q in ProgressRows(after, enrollmentId, lessonId);
    var i :| 0 <= i < |after| && after[i] == q;
  }
}
