/**
 * The admin dashboard page: the role gate, the metrics and pending-queue
 * refresh, and the approve / reject confirmation dialog.
 */
module AdminDashboardPage {
  import opened Common
  import opened AuthTypes
  import opened CourseStore
  import opened AdminDashboardApi

  /** `modalConfig`: whether the dialog is open, its action, and the course it is about. */
  datatype Modal = Modal(isOpen: bool, kind: Option<string>, courseId: Option<string>)

  const ClosedModal: Modal := Modal(false, None, None)

  const ZeroMetrics: Metrics := Metrics(0, 0, 0, 0)

  datatype View = Verifying | Forbidden | Dashboard

  /** What renders: the data only for the admin role, which the fetch effect also requires. */
  function DashboardView(authLoading: bool, role: Option<string>): (v: View)
    ensures v == Verifying <==> authLoading
    ensures v == Dashboard <==> !authLoading && role == Some("admin")
  {
    if authLoading then Verifying
    else if role != Some("admin") then Forbidden
    else Dashboard
  }

  /** The data is fetched exactly for the role for which the dashboard can render. */
  lemma FetchOnlyForAdmins(role: Option<string>)
    ensures DashboardView(false, role) == Dashboard <==> role == Some("admin")
    ensures RoleGate(false, None, role, "admin") == Some("/login")
  {
  }

  class DashboardPage {
    var metrics: Metrics
    var pending: seq<Course>
    var isLoading: bool
    var modal: Modal
    var alert: Option<string>

    constructor ()
      ensures metrics == ZeroMetrics && pending == [] && isLoading && modal == ClosedModal && alert.None?
    {
      metrics, pending, isLoading, modal, alert := ZeroMetrics, [], true, ClosedModal, None;
    }

    /**
     * `fetchData`: both answers are stored together, from the course table in
     * newest-first order; when the pending query fails neither is, because the
     * metrics never fail on their own.
     */
    method FetchData(store: CourseTable, metricsAnswer: MetricsAnswer, pendingRefusal: Option<DbError>)
      modifies this
      ensures !isLoading && modal == old(modal) && alert == old(alert)
      ensures pendingRefusal.None? ==>
        metrics == DashboardMetrics(metricsAnswer) && pending == PendingCourses(store.courses, DefaultPendingLimit)
      ensures pendingRefusal.Some? ==> metrics == old(metrics) && pending == old(pending)
    {
      if pendingRefusal.None? {
        metrics := DashboardMetrics(metricsAnswer);
        pending := PendingCourses(store.courses, DefaultPendingLimit);
      }
      isLoading := false;
    }

    /** The Approve / Reject buttons of a pending row. */
    method OpenModal(kind: string, courseId: string)
      modifies this
      ensures modal == Modal(true, Some(kind), Some(courseId))
      ensures metrics == old(metrics) && pending == old(pending) && isLoading == old(isLoading) && alert == old(alert)
    {
      modal := Modal(true, Some(kind), Some(courseId));
    }

    /** The dialog's close: it hides, keeping its action and course. */
    method CloseModal()
      modifies this
      ensures modal == old(modal).(isOpen := false)
      ensures metrics == old(metrics) && pending == old(pending) && isLoading == old(isLoading) && alert == old(alert)
    {
      modal := modal.(isOpen := false);
    }

    /**
     * `handleAction`: nothing without a course or a user; otherwise approve or
     * reject (any other action only refreshes), then refetch and close the
     * dialog. A failed approve or reject raises an alert and keeps the dialog.
     */
    method HandleAction(store: CourseTable, user: Option<AuthUser>, now: string,
                        updateRefusal: Option<DbError>, logRefusal: Option<DbError>,
                        metricsAnswer: MetricsAnswer, pendingRefusal: Option<DbError>)
      requires store.Valid()
      modifies this, store
      ensures store.Valid()
      ensures !Truthy(old(modal).courseId) || user.None? ==>
        && store.courses == old(store.courses) && store.logs == old(store.logs)
        && modal == old(modal) && alert == old(alert) && metrics == old(metrics) && pending == old(pending)
        && isLoading == old(isLoading)
      ensures Truthy(old(modal).courseId) && user.Some? ==>
        var id := old(modal).courseId.value;
        var kind := old(modal).kind;
        var acts := kind == Some("approve") || kind == Some("reject");
        if acts && updateRefusal.Some? then
          && alert == Some("Action failed: " + updateRefusal.value.message)
          && modal == old(modal) && store.courses == old(store.courses) && store.logs == old(store.logs)
          && metrics == old(metrics) && pending == old(pending) && isLoading == old(isLoading)
        else
          && modal == ClosedModal && alert == old(alert) && !isLoading
          && store.courses == (if kind == Some("approve") then ApproveWhere(old(store.courses), id, user.value.id, now)
                               else if kind == Some("reject") then SetStatus(old(store.courses), id, "rejected")
                               else old(store.courses))
          && store.logs == old(store.logs) +
               (if !acts || logRefusal.Some? then []
                else if kind == Some("approve") then [ApprovalLog(id, user.value.id, "approved", "Approved by Admin")]
                else [ApprovalLog(id, user.value.id, "rejected", DefaultRejectReason)])
          && (pendingRefusal.None? ==>
                metrics == DashboardMetrics(metricsAnswer) && pending == PendingCourses(store.courses, DefaultPendingLimit))
          && (pendingRefusal.Some? ==> metrics == old(metrics) && pending == old(pending))
    {
      if !Truthy(modal.courseId) || user.None? {
        return;
      }
      var id := modal.courseId.value;
      var r: Outcome := Done;
      if modal.kind == Some("approve") {
        r := ApproveCourse(store, id, user.value.id, now, updateRefusal, logRefusal);
      } else if modal.kind == Some("reject") {
        r := RejectCourse(store, id, user.value.id, DefaultRejectReason, updateRefusal, logRefusal);
      }
      if r.Raised? {
        alert := Some("Action failed: " + r.message);
        return;
      }
      FetchData(store, metricsAnswer, pendingRefusal);
      modal := ClosedModal;
    }
  }

  /**
   * After a successful approval and refresh, the course is no longer offered
   * for approval: no row of the new queue is about it.
   */
  lemma ApprovedCourseLeavesDashboard(cs: seq<Course>, courseId: string, adminId: string, now: string)
    ensures forall c :: c in PendingCourses(ApproveWhere(cs, courseId, adminId, now), DefaultPendingLimit) ==> c.id != courseId
    ensures forall c :: c in PendingCourses(SetStatus(cs, courseId, "rejected"), DefaultPendingLimit) ==> c.id != courseId
  {
    ApprovedLeavesQueue(cs, courseId, adminId, now, DefaultPendingLimit);
    RejectedLeavesQueue(cs, courseId, DefaultPendingLimit);
  }
}
