/**
 * The admin dashboard service: platform metrics with their defaults, the
 * newest pending courses, and approve / reject, each a status update followed
 * by an approval-log entry whose own failure is ignored.
 */
module AdminDashboardApi {
  import opened Common
  import opened CourseStore

  datatype Metrics = Metrics(totalStudents: int, activeCourses: int, totalEnrollments: int, totalRevenue: int)

  /**
   * The four answers of `Promise.all`: each count is null when its query
   * failed, the payment amounts are null when theirs failed; `Thrown` is a
   * rejection of the whole batch.
   */
  datatype MetricsAnswer =
    | Answered(studentCount: Option<int>, courseCount: Option<int>, enrollmentCount: Option<int>, payments: Option<seq<int>>)
    | Thrown

  function CountOrZero(c: Option<int>): (n: int)
    ensures c.Some? ==> n == c.value
    ensures c.None? ==> n == 0
  {
    if c.Some? then c.value else 0
  }

  /** `getDashboardMetrics`. */
  function DashboardMetrics(a: MetricsAnswer): (m: Metrics)
    ensures a.Thrown? ==> m == Metrics(0, 0, 0, 0)
    ensures a.Answered? ==>
      && m.totalStudents == CountOrZero(a.studentCount)
      && m.activeCourses == CountOrZero(a.courseCount)
      && m.totalEnrollments == CountOrZero(a.enrollmentCount)
      && m.totalRevenue == (if a.payments.Some? then Sum(a.payments.value) else 0)
  {
    match a
      case Thrown => Metrics(0, 0, 0, 0)
      case Answered(s, c, e, p) =>
        Metrics(CountOrZero(s), CountOrZero(c), CountOrZero(e), if p.Some? then Sum(p.value) else 0)
  }

  const DefaultPendingLimit: nat := 5

  /**
   * `getPendingCourses(limit)`: of the courses in newest-first order, the
   * pending ones, at most `limit` of them; a query error is raised.
   */
  function PendingCourses(newestFirst: seq<Course>, limit: nat): seq<Course> {
    Take(Filter(newestFirst, (c: Course) => c.status == "pending"), limit)
  }

  /**
   * The queue is the newest `limit` pending courses: the first `limit` of the
   * pending ones in newest-first order, or all of them when there are fewer.
   */
  lemma PendingCoursesSpec(newestFirst: seq<Course>, limit: nat)
    ensures var r := PendingCourses(newestFirst, limit);
      var all := Filter(newestFirst, (c: Course) => c.status == "pending");
      && r == all[..if |all| <= limit then |all| else limit]
      && |r| <= limit
      && (forall c :: c in r ==> c in newestFirst && c.status == "pending")
      && IsSubsequence(r, newestFirst)
      && (|Filter(newestFirst, (c: Course) => c.status == "pending")| <= limit ==>
            forall c :: c in newestFirst && c.status == "pending" ==> c in r)
  {
    var all := Filter(newestFirst, (c: Course) => c.status == "pending");
    FilterSpec(newestFirst, (c: Course) => c.status == "pending");
    var r := PendingCourses(newestFirst, limit);
    forall c | c in r ensures c in all {
      var i :| 0 <= i < |r| && r[i] == c;
      assert all[i] == c;
    }
    PrefixSubsequence(r, all);
    SubsequenceTrans(r, all, newestFirst);
  }



  /** The row update `approveCourse` makes: status, approver and approval time. */
  function ApproveRow(c: Course, adminId: string, now: string): Course {
    c.(status := "approved", approvedBy := Some(adminId), approvedAt := Some(now))
  }

  function ApproveWhere(cs: seq<Course>, courseId: string, adminId: string, now: string): seq<Course> {
    UpdateWhere(cs, courseId, (c: Course) => ApproveRow(c, adminId, now))
  }

  /**
   * Approving a course takes it off the pending queue: every course the queue
   * then lists is another course that was already in the table as it is.
   */
  lemma ApprovedLeavesQueue(cs: seq<Course>, courseId: string, adminId: string, now: string, limit: nat)
    ensures forall c :: c in PendingCourses(ApproveWhere(cs, courseId, adminId, now), limit) ==> c.id != courseId && c in cs
  {
    var t := ApproveWhere(cs, courseId, adminId, now);
    PendingCoursesSpec(t, limit);
    forall c | c in PendingCourses(t, limit) ensures c.id != courseId && c in cs {
      var i :| 0 <= i < |t| && t[i] == c;
      assert t[i].status == "pending" && cs[i] in cs;
    }
  }

  /** Rejecting a course takes it off the pending queue in the same way. */
  lemma RejectedLeavesQueue(cs: seq<Course>, courseId: string, limit: nat)
    ensures forall c :: c in PendingCourses(SetStatus(cs, courseId, "rejected"), limit) ==> c.id != courseId && c in cs
  {
    var t := SetStatus(cs, courseId, "rejected");
    PendingCoursesSpec(t, limit);
    SetStatusSpec(cs, courseId, "rejected");
    forall c | c in PendingCourses(t, limit) ensures c.id != courseId && c in cs {
      var i :| 0 <= i < |t| && t[i] == c;
      assert t[i].status == "pending" && cs[i] in cs;
    }
  }

  /** The result of an API call: success, or the error it raised. */
  datatype Outcome = Done | Raised(message: string)

  /**
   * `approveCourse(courseId, adminId)`: set status `approved`, `approved_by` and
   * `approved_at` on that course; an update error is raised and nothing is
   * logged; otherwise one log entry is appended unless its insert fails, which is
   * ignored.
   */
  method ApproveCourse(store: CourseTable, courseId: string, adminId: string, now: string,
                       updateRefusal: Option<DbError>, logRefusal: Option<DbError>)
    returns (r: Outcome)
    requires store.Valid()
    modifies store
    ensures store.Valid()
    ensures updateRefusal.Some? ==>
      r == Raised(updateRefusal.value.message) && store.courses == old(store.courses) && store.logs == old(store.logs)
    ensures updateRefusal.None? ==>
      && r == Done
      && store.courses == ApproveWhere(old(store.courses), courseId, adminId, now)
      && store.logs == old(store.logs) + (if logRefusal.None? then [ApprovalLog(courseId, adminId, "approved", "Approved by Admin")] else [])
  {
    var err := store.Update(courseId, (c: Course) => ApproveRow(c, adminId, now), updateRefusal);
    if err.Some? {
      return Raised(err.value.message);
    }
    var _ := store.AppendLog(ApprovalLog(courseId, adminId, "approved", "Approved by Admin"), logRefusal);
    return Done;
  }

  const DefaultRejectReason: string := "Rejected by Admin"

  /** `rejectCourse(courseId, adminId, reason)`: only the status changes, to `rejected`. */
  method RejectCourse(store: CourseTable, courseId: string, adminId: string, reason: string,
                      updateRefusal: Option<DbError>, logRefusal: Option<DbError>)
    returns (r: Outcome)
    requires store.Valid()
    modifies store
    ensures store.Valid()
    ensures updateRefusal.Some? ==>
      r == Raised(updateRefusal.value.message) && store.courses == old(store.courses) && store.logs == old(store.logs)
    ensures updateRefusal.None? ==>
      && r == Done
      && store.courses == SetStatus(old(store.courses), courseId, "rejected")
      && store.logs == old(store.logs) + (if logRefusal.None? then [ApprovalLog(courseId, adminId, "rejected", reason)] else [])
  {
    var err := store.Update(courseId, (c: Course) => c.(status := "rejected"), updateRefusal);
    if err.Some? {
      return Raised(err.value.message);
    }
    var _ := store.AppendLog(ApprovalLog(courseId, adminId, "rejected", reason), logRefusal);
    return Done;
  }
}
