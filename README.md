# SkillSpring, modelled in Dafny

SkillSpring is an online course marketplace built as four Next.js
applications over one Supabase backend, plus a small shared package:

- the **admin app**: the role resolver (`AuthContext`) with its cached role,
  the route middleware, the admin layout's gate, the dashboard with its
  statistics, the sign-in and sign-up pages, the users page (role changes),
  the course review page (status filter, approve, reject), the status badge and
  the category manager;
- the **instructor app**: its own auth context, the layout's navigation and
  gate, the course list with its search and soft delete, the multi-step course wizard, the
  section builder, the course form, the dashboard metrics and the earnings
  report;
- the **student app**: the auth guard, the course and enrollment services,
  the dashboard, the catalogue page with its server-side first render, the
  header and the course card;
- the **shell app**: the home page and the marketplace with its filters and
  course cards;
- **shared utilities**: the shared auth context and the login redirects
  between the apps.

Each source file has a Dafny module of its own, with these exceptions: the
three apps' `login.js` redirect pages share `LoginRedirects`, the shell's
home page and its marketplace hand-off are together in `ShellHome`, the
instructor home page's redirect lives with the course list in
`InstructorCoursesPage`, and what several files use is collected in the
shared modules named below. Values the source passes around
(courses, users, enrollments, payments, filters, URLs) are datatypes; state
a component or a service keeps and updates in place is a class whose methods
are proved against a pure step function on a snapshot of that state; list
operations with loops (the wizard's section and lesson insertion, the
earnings grouping by course, the enrolled-course listing `getMyCourses`) are
methods with loop invariants. The backend is not modelled as a server: each
query's rows are a parameter (in the table's row order), and a query that
fails is a `refusal` parameter carrying the error, or a flag where the source
ignores the error, so the error branches of the modelled operations are
reachable in the model; the ones it does not reach are named under
"## Left out".

Shared building blocks live in `Common` (filtering, sums, ASCII case
mapping, `trim`, substring search, `Math.round` half-up rounding and decimal
rendering), `Uri` (`encodeURIComponent` as UTF-8 plus percent escapes, and
form-urlencoded decoding, with their round trip), `AuthTypes`,
`CourseStore` and `UsersStore`.

## Model

| member | source | states |
|---|---|---|
| AdminAuthContext.CacheKeyInjective | admin-app/src/context/AuthContext.js:45 | the cache key `role_<userId>` of two different users differs, so no user reads another's cached role |
| AdminAuthContext.FastRoleSource | admin-app/src/context/AuthContext.js:72-77 | the fast-path role is the metadata role when truthy, otherwise the truthy cached `role_<userId>` value, otherwise none |
| AdminAuthContext.StepsKeepValid | admin-app/src/context/AuthContext.js:53-127 | every event (auth event, initial lookup, role reply, safety timer, unmount) keeps the resolver's invariant: the safety timer is pending while a mounted provider loads |
| AdminAuthContext.LoadingOnlyFalls | admin-app/src/context/AuthContext.js:53-117 | no event turns `loading` back to true |
| AdminAuthContext.SafetyTimerEndsLoading | admin-app/src/context/AuthContext.js:56-62 | when the 8 s timer fires on a mounted provider, `loading` is false afterwards |
| AdminAuthContext.FastPathReleasesScreen | admin-app/src/context/AuthContext.js:77-87 | with a fast role the role is set and `loading` ends at once, and a database read is issued without being awaited |
| AdminAuthContext.SlowPathAwaitsRead | admin-app/src/context/AuthContext.js:84-90 | without a fast role the role is untouched, loading continues and the issued read is awaited |
| AdminAuthContext.SignedOutEventClears | admin-app/src/context/AuthContext.js:91-99 | an event without a session user sets user and role to null and ends loading |
| AdminAuthContext.FoundSetsRoleAndCache | admin-app/src/context/AuthContext.js:41-46 | a reply with a record sets `role` to its role and writes cache key `role_<userId>` |
| AdminAuthContext.FailureChangesNothing | admin-app/src/context/AuthContext.js:28-50 | an error, a missing record or the 15 s timeout leaves both role and cache unchanged |
| AdminAuthContext.AwaitedReplyEndsLoading | admin-app/src/context/AuthContext.js:89-99 | an awaited read ends loading whatever it answers, as the handler's `finally` runs |
| AdminAuthContext.InitWithoutSessionEndsLoading | admin-app/src/context/AuthContext.js:106-117 | no initial session, or a failed lookup, ends loading on a mounted provider |
| AdminAuthContext.EventsAfterUnmountIgnored | admin-app/src/context/AuthContext.js:64-65 | after unmount, auth events and the initial lookup change nothing |
| AdminAuthContext.ReplyAfterUnmountWritesCache | admin-app/src/context/AuthContext.js:34-46 | a read issued before unmount still writes the cache when its reply arrives afterwards, since it tests a copy of `mounted` |
| AdminAuthContext.StaleReplyOverwritesRole | admin-app/src/context/AuthContext.js:34-46 | a late reply for a previous user's read overwrites the current user's role (as written) |
| AdminAuthContext.KeyedStepsKeepRoleOwned | admin-app/src/context/AuthContext.js:17-127 | with replies keyed to the signed-in user, no step leaves a role behind once no user is signed in (corrected) |
| AdminAuthContext.KeyedReplyForCurrentUser | admin-app/src/context/AuthContext.js:17-51 | a keyed reply for the current user acts exactly like the original; any other reply leaves role and cache alone |
| AdminAuthContext.Resolver.constructor | admin-app/src/context/AuthContext.js:10-12 | a mounted provider starts without user or role, loading, with the stored cache |
| AdminAuthContext.Resolver.OnAuthEvent | admin-app/src/context/AuthContext.js:64-100 | the new state is `AuthEvent` of the old one |
| AdminAuthContext.Resolver.OnInitSession | admin-app/src/context/AuthContext.js:106-118 | the new state is `InitSession` of the old one |
| AdminAuthContext.Resolver.OnDbReply | admin-app/src/context/AuthContext.js:17-51 | the new state is `DbReply` of the old one |
| AdminAuthContext.Resolver.OnSafetyTimeout | admin-app/src/context/AuthContext.js:57-62 | the new state is `SafetyTimeout` of the old one |
| AdminAuthContext.Resolver.OnUnmount | admin-app/src/context/AuthContext.js:122-126 | the new state is `Unmount` of the old one |
| InstructorAuthContext.FastRole | instructor-app/src/context/AuthContext.js:54-55 | the fast role is the metadata role when truthy, and nothing else (no cache) |
| InstructorAuthContext.StepsKeepValid | instructor-app/src/context/AuthContext.js:34-99 | every event keeps the invariant that the safety timer is pending while a mounted provider loads |
| InstructorAuthContext.MetadataFastPath | instructor-app/src/context/AuthContext.js:50-64 | with a metadata role the role is set and loading ends, and the read is issued but not awaited; without one the read is awaited |
| InstructorAuthContext.ReplyEffect | instructor-app/src/context/AuthContext.js:12-32 | a row sets the role; an error, including "no row" from `.single()`, leaves it unchanged |
| InstructorAuthContext.SignedOutEventClears | instructor-app/src/context/AuthContext.js:65-73 | an event without a user clears user and role and ends loading |
| InstructorAuthContext.InitWithoutSessionEndsLoading | instructor-app/src/context/AuthContext.js:78-90 | no initial session, or a failed lookup, ends loading |
| InstructorAuthContext.EventsAfterUnmountIgnored | instructor-app/src/context/AuthContext.js:45-46 | after unmount, events and lookups change nothing, and a reply only retires its pending read |
| InstructorAuthContext.Resolver.constructor | instructor-app/src/context/AuthContext.js:6-8 | a mounted provider starts without user or role, loading |
| InstructorAuthContext.Resolver.OnAuthEvent | instructor-app/src/context/AuthContext.js:45-74 | the new state is `AuthEvent` of the old one |
| InstructorAuthContext.Resolver.OnInitSession | instructor-app/src/context/AuthContext.js:78-90 | the new state is `InitSession` of the old one |
| InstructorAuthContext.Resolver.OnDbReply | instructor-app/src/context/AuthContext.js:12-32 | the new state is `DbReply` of the old one |
| InstructorAuthContext.Resolver.OnSafetyTimeout | instructor-app/src/context/AuthContext.js:38-43 | the new state is `SafetyTimeout` of the old one |
| InstructorAuthContext.Resolver.OnUnmount | instructor-app/src/context/AuthContext.js:94-98 | the new state is `Unmount` of the old one |
| SharedAuthContext.BootstrapSpec | shared-utils/authContext.js:16-23 | the bootstrap stores the session user (or null); with a user, loading ends only when its role read answers, without one it ends at once |
| SharedAuthContext.ListenerWithoutUserClearsRole | shared-utils/authContext.js:27-35 | a listener event without a user sets user and role to null and ends loading |
| SharedAuthContext.RoleAnswerSpec | shared-utils/authContext.js:40-56 | a row sets the role to its role column (possibly null), an error leaves the role, and loading ends either way |
| SharedAuthContext.Provider.constructor | shared-utils/authContext.js:10-12 | the provider starts without user or role, loading |
| SharedAuthContext.Provider.OnBootstrap | shared-utils/authContext.js:16-23 | the new state is `Bootstrap` of the old one |
| SharedAuthContext.Provider.OnListener | shared-utils/authContext.js:27-35 | the new state is `Listener` of the old one |
| SharedAuthContext.Provider.OnRoleAnswer | shared-utils/authContext.js:40-56 | the new state is `RoleAnswer` of the old one |
| SharedAuthContext.Signup | shared-utils/authContext.js:63-81 | an auth error is raised and nothing is inserted; a new user gets one `users` row with its id, email and the given role; an insert error is raised |
| AdminMiddleware.NoSessionSpec | admin-app/src/middleware.js:30-41 | without a session exactly the paths starting `/admin`, `/instructor` or `/dashboard` redirect to `/login`; every other path passes |
| AdminMiddleware.RoleOnlyFromMetadata | admin-app/src/middleware.js:43-44 | two sessions with the same metadata role get the same decision: the role comes from the JWT claim alone |
| AdminMiddleware.PrefixesDisjoint | admin-app/src/middleware.js:32-36 | no path starts with two of the protected prefixes |
| AdminMiddleware.SessionSpec | admin-app/src/middleware.js:46-65 | with a session, `/admin*` needs role admin and `/instructor*` role instructor, else redirect to `/`; `/dashboard*` always redirects, a student to the student app's dashboard; other paths pass |
| AdminMiddleware.RedirectTargetsPass | admin-app/src/middleware.js:37-62 | `/` and `/login`, the in-app redirect targets, always pass, so redirects do not loop |
| AdminMiddleware.Deployed | admin-app/src/middleware.js:68-74 | a path outside `/admin`, `/instructor` and `/dashboard` and their sub-paths passes untouched; a matched path gets the middleware's decision |
| AdminMiddleware.MatchedIsProtected | admin-app/src/middleware.js:31-38 | every path the matcher routes to the middleware starts with a protected prefix, so without a session it is sent to `/login` |
| AdminMiddleware.MatcherNarrowsPrefix | admin-app/src/middleware.js:31-74 | the function alone would guard `/administrators` by its raw prefix test, but the matcher never routes it there; `/admin/users` is gated |
| StudentAuthGuard.GuardView | student-app/src/components/AuthGuard.js:23-37 | the spinner exactly while loading; nothing exactly when loaded without a user off the public routes; the children otherwise |
| StudentAuthGuard.GuardNavigation | student-app/src/components/AuthGuard.js:13-21 | a navigation happens exactly when loaded, without a user, off `/login` and `/signup` |
| StudentAuthGuard.RedirectCarriesCurrentUrl | student-app/src/components/AuthGuard.js:15-18 | the guard redirects exactly when it renders nothing, to the central login, whose `redirect` parameter reads back the current URL |
| StudentAuthGuard.PublicRoutesRender | student-app/src/components/AuthGuard.js:10-11 | `/login` and `/signup` render their children once loading is over, with or without a user |
| StudentAuthGuard.UserSeesChildren | student-app/src/components/AuthGuard.js:32-37 | a signed-in user sees every page, whatever the role, and is never redirected |
| AdminLayout.LayoutView | admin-app/src/app/admin/layout.js:29-61 | "Verifying" exactly while loading, nothing without a user, the forbidden panel for a user whose role is not admin, and the shell only for an admin |
| AdminLayout.LayoutNavigation | admin-app/src/app/admin/layout.js:23-27 | a push to `/login` exactly when loaded without a user |
| AdminLayout.AtMostOneActive | admin-app/src/app/admin/layout.js:82 | exact-match highlighting: at most one nav item is active, and a sub-page highlights none |
| AdminLayout.OnlyAdminsSeeShell | admin-app/src/app/admin/layout.js:41-59 | a null role or the instructor role gets the forbidden panel; the admin role gets the shell |
| AdminDashboardPage.DashboardView | admin-app/src/app/admin/dashboard/page.js:93-98 | "Verifying" exactly while auth loads; the dashboard exactly for the admin role once loaded |
| AdminDashboardPage.FetchOnlyForAdmins | admin-app/src/app/admin/dashboard/page.js:34-62 | the data is fetched exactly for the role for which the dashboard renders, and the admin gate sends a loaded visitor without a user to `/login` whatever the role |
| AdminDashboardPage.DashboardPage.constructor | admin-app/src/app/admin/dashboard/page.js:26-32 | zero metrics, no pending courses, loading, the dialog closed |
| AdminDashboardPage.DashboardPage.FetchData | admin-app/src/app/admin/dashboard/page.js:42-56 | metrics and the pending queue are replaced when both requests answer, kept when one raises; loading ends either way |
| AdminDashboardPage.DashboardPage.OpenModal | admin-app/src/app/admin/dashboard/page.js:189-195 | the dialog opens for the given action and course; nothing else changes |
| AdminDashboardPage.DashboardPage.CloseModal | admin-app/src/app/admin/dashboard/page.js:236 | the dialog hides and keeps its action and course |
| AdminDashboardPage.DashboardPage.HandleAction | admin-app/src/app/admin/dashboard/page.js:65-84 | nothing without a course or user; otherwise approve or reject with its approval-log entry, refetch (metrics and queue replaced, or both kept when the queue query fails) and close; a failed approve or reject alerts "Action failed: ...", keeps the dialog and changes nothing else |
| AdminDashboardPage.ApprovedCourseLeavesDashboard | admin-app/src/app/admin/dashboard/page.js:65-78 | after approving or rejecting a course, no row of the refreshed pending queue is about it |
| AdminDashboardApi.CountOrZero | admin-app/src/services/adminDashboardApi.js:45-47 | `count ?? 0`: the count when present, 0 when null |
| AdminDashboardApi.DashboardMetrics | admin-app/src/services/adminDashboardApi.js:7-60 | each count, or 0 when its query failed; revenue is the sum of successful payment amounts, or 0; all four are 0 when the batch throws |
| AdminDashboardApi.PendingCoursesSpec | admin-app/src/services/adminDashboardApi.js:62-83 | the queue is exactly the newest `limit` pending courses (all of them when there are fewer), in newest-first order |
| AdminDashboardApi.ApprovedLeavesQueue | admin-app/src/services/adminDashboardApi.js:85-98 | after approval the course is not in the pending queue, and every queued course was already in the table unchanged |
| AdminDashboardApi.RejectedLeavesQueue | admin-app/src/services/adminDashboardApi.js:110-117 | after rejection the course is not in the pending queue, and every queued course was already in the table unchanged |
| AdminDashboardApi.ApproveCourse | admin-app/src/services/adminDashboardApi.js:85-108 | sets status `approved`, `approved_by` and `approved_at` on that course; an update error is raised and nothing is logged; otherwise one "Approved by Admin" log entry is appended unless its insert fails, which is ignored |
| AdminDashboardApi.RejectCourse | admin-app/src/services/adminDashboardApi.js:110-127 | only the status changes, to `rejected`; an update error is raised and nothing is logged; otherwise one log entry with the reason is appended unless its insert fails |
| AdminLoginPage.RedirectWinsOverRole | admin-app/src/app/login/page.js:49-53 | after a sign-in with a user, a truthy `redirect` parameter is followed whatever the role, with no error and no sign-out |
| AdminLoginPage.RoleDecision | admin-app/src/app/login/page.js:55-67 | without a redirect, admins go to `/admin/dashboard`; students and instructors get their portal's message and are signed out; any other role, or no row, gets "Invalid user role" |
| AdminLoginPage.SignInFailures | admin-app/src/app/login/page.js:38-40 | a failed sign-in shows the service's message; a sign-in without a user gives no error and no navigation |
| AdminLoginPage.OutcomesExclusive | admin-app/src/app/login/page.js:27-74 | a navigation never comes with an error or a sign-out |
| LoginRedirects.FinalRedirect | student-app/src/pages/login.js:20-24 | the page's truthy `redirect` parameter, otherwise the app's landing page |
| LoginRedirects.StudentLogin | student-app/src/pages/login.js:9-27 | nothing exactly while loading; a signed-in user goes to `/student/dashboard`; anyone else to the central login hand-off |
| LoginRedirects.HandoffRoundTrip | student-app/src/pages/login.js:26 | the central login's `redirect` parameter decodes back to exactly the final redirect |
| LoginRedirects.CentralLoginReturns | admin-app/src/app/login/page.js:21-53 | after the hand-off, a successful central sign-in sends the browser to the page's own redirect or the landing page, whatever the role |
| LoginRedirects.StudentReturns | student-app/src/pages/login.js:19-26 | the student app's hand-off returns to its own redirect or the student dashboard |
| LoginRedirects.ShellReturns | shell-app/src/pages/login.js:4-15 | the shell's hand-off returns to its own redirect or the shell home |
| LoginRedirects.InstructorReturns | instructor-app/src/pages/login.js:4-11 | the instructor app's hand-off returns to its own redirect or the instructor home |
| AdminSignupPage.HandleChange | admin-app/src/app/signup/page.js:22-24 | an edit replaces only the named field; the role is kept |
| AdminSignupPage.EditsKeepRole | admin-app/src/app/signup/page.js:11-16 | no sequence of input edits changes the role, so every sign-up from this page submits `student` (`setRole` is never called) |
| AdminSignupPage.HandleSubmit | admin-app/src/app/signup/page.js:30-67 | an auth error is shown and nothing is inserted; without a returned user nothing happens; otherwise one `users` row with the auth id and the form's name, email and role is inserted, the insert's error message is shown (for a taken id, the primary-key violation's message; otherwise the refusal's), and success navigates to the login page |
| AdminUsersPage.FetchUsersSpec | admin-app/src/app/admin/users/page.js:45-62 | filter `all` keeps every row; any other filter keeps exactly the rows with that role, in query order |
| AdminUsersPage.FilteredUsersSpec | admin-app/src/app/admin/users/page.js:149-152 | a user is kept iff the lower-cased name or email contains the lower-cased term; an empty term keeps exactly the users with a name or an email |
| AdminUsersPage.RoleMenuSpec | admin-app/src/app/admin/users/page.js:279-288 | the menu offers exactly the roles other than the user's own, in the order student, instructor, admin |
| AdminUsersPage.UsersPage.constructor | admin-app/src/app/admin/users/page.js:21-37 | filter `all`, the modal closed, the registration form empty, no error |
| AdminUsersPage.UsersPage.Refresh | admin-app/src/app/admin/users/page.js:45-62 | rows on success replace the listing; on error the listing is kept |
| AdminUsersPage.UsersPage.SetRoleFilter | admin-app/src/app/admin/users/page.js:40-62 | choosing a role in the select (lines 188-191) sets the filter and the listing becomes exactly that role's rows (all rows for `all`), newest first; a failed refetch keeps the previous listing; the form, the modal and the alert are kept |
| AdminUsersPage.UsersPage.HandleRegister | admin-app/src/app/admin/users/page.js:64-108 | a sign-up error is shown; an instructor row is inserted as the newest user; a duplicate-key (23505) insert error is ignored, any other fails the registration; a failure keeps the form, the modal, the listing and the alert; success closes the modal, empties the form and alerts, and the listing becomes the refetched rows under the current filter, or stays as it was when the refetch fails |
| AdminUsersPage.NewInstructorListedFirst | admin-app/src/app/admin/users/page.js:45-55 | the newly registered instructor heads the newest-first listing under the `all` and `instructor` filters |
| AdminUsersPage.UsersPage.HandleUpdateRole | admin-app/src/app/admin/users/page.js:110-127 | only that user's role changes, with no alert, and the listing becomes the refetched rows, or stays as it was when the refetch fails; an error alerts "Error updating role: ..." and keeps the table and the listing |
| AdminUsersPage.UsersPage.HandleDeleteUser | admin-app/src/app/admin/users/page.js:129-147 | that user's rows are removed, with no alert, and the listing becomes the refetched rows, or stays as it was when the refetch fails; an error alerts "Error deleting user: ..." and keeps the table and the listing |
| UsersStore.SetRoleOnlyRole | admin-app/src/app/admin/users/page.js:113-116 | a role update keeps ids, names and emails, changes only the addressed rows' role, and keeps ids unique |
| UsersStore.WithoutIdSpec | admin-app/src/app/admin/users/page.js:133-136 | a delete removes exactly the rows with that id and keeps the rest in order |
| UsersStore.UsersTable.Insert | admin-app/src/app/admin/users/page.js:87-96 | an existing id is refused with the primary-key violation (code 23505) and nothing changes; otherwise a refusal leaves the table, or the row is stored as the newest, first in `created_at` descending order |
| UsersStore.UsersTable.UpdateRole | admin-app/src/app/admin/users/page.js:113-116 | the rows become `SetRole` of the old rows unless refused |
| UsersStore.UsersTable.Delete | admin-app/src/app/admin/users/page.js:133-136 | the rows become `WithoutId` of the old rows unless refused |
| AdminCoursesPage.ListCoursesSpec | admin-app/src/app/admin/courses/page.js:25-54 | the listing keeps the query's newest-first order and holds exactly the courses the filter admits (`all` admits every course, deleted ones included) |
| AdminCoursesPage.ActionsOffered | admin-app/src/app/admin/courses/page.js:164-175 | every row offers approve or reject; a pending or draft row offers both |
| AdminCoursesPage.StatusLabel | admin-app/src/app/admin/courses/page.js:158-160 | a label exactly for pending, approved and rejected; a draft shows none |
| AdminCoursesPage.ThumbnailSrc | admin-app/src/app/admin/courses/page.js:129-133 | the truthy `thumbnail_url`, else the stock photo picked by the id's character-code sum mod 8, 200 pixels wide |
| AdminCoursesPage.UpdatedCourseListed | admin-app/src/app/admin/courses/page.js:56-64 | after a status update, a refetch under that status lists the updated course |
| AdminCoursesPage.CoursesPage.constructor | admin-app/src/app/admin/courses/page.js:16-18 | an empty listing under filter `all`, loading |
| AdminCoursesPage.CoursesPage.FetchCourses | admin-app/src/app/admin/courses/page.js:25-54 | the listing under the current filter, or the old listing on error; loading ends |
| AdminCoursesPage.CoursesPage.SetFilter | admin-app/src/app/admin/courses/page.js:21-23 | choosing a filter refetches under it |
| AdminCoursesPage.CoursesPage.UpdateStatus | admin-app/src/app/admin/courses/page.js:56-64 | only that course's status changes, then the listing is refetched; an error alerts its message and changes nothing |
| StatusBadge.BadgeFor | admin-app/src/components/admin/StatusBadge.jsx:6-37 | pending, approved and rejected get their own badge; every other status, unknown ones included, gets the draft badge |
| StatusBadge.LabelsTellStatus | admin-app/src/components/admin/StatusBadge.jsx:6-35 | among the four known statuses, two badges carry the same label exactly when the statuses are equal |
| StatusBadge.LabelsAreKnown | admin-app/src/components/admin/StatusBadge.jsx:37 | every status shows one of the four labels, and shows the draft badge exactly when it has none of its own |
| CategoriesPage.SlugSpec | admin-app/src/app/admin/categories/page.js:94 | the slug holds only lower-case word characters and hyphens, is no longer than the name, and is a subsequence of the lower-cased, hyphenated name |
| CategoriesPage.SlugFixed | admin-app/src/app/admin/categories/page.js:94 | a string of slug characters without upper case is its own slug |
| CategoriesPage.SlugIdempotent | admin-app/src/app/admin/categories/page.js:94 | deriving the slug of a slug changes nothing |
| CategoriesPage.InsertByNameSpec | admin-app/src/app/admin/categories/page.js:21-24 | a new category placed by name keeps the `order('name')` listing ordered and adds exactly that category |
| CategoriesPage.FilterKeepsSorted | admin-app/src/app/admin/categories/page.js:21-24 | removing rows keeps the listing in name order |
| CategoriesPage.CategoryTable.Insert | admin-app/src/app/admin/categories/page.js:36-38 | one new row with a fresh id at its place in name order, or the error and no change |
| CategoriesPage.CategoryTable.Delete | admin-app/src/app/admin/categories/page.js:52-55 | exactly the rows with that id are removed, or the error and no change |
| CategoriesPage.CategoriesPage.constructor | admin-app/src/app/admin/categories/page.js:8-12 | no categories, an empty form, no error, loading |
| CategoriesPage.CategoriesPage.OnNameChange | admin-app/src/app/admin/categories/page.js:92-96 | the name and its derived slug are set together; nothing else changes |
| CategoriesPage.CategoriesPage.FetchCategories | admin-app/src/app/admin/categories/page.js:19-29 | the table's rows, or the error message with the old listing; loading ends |
| CategoriesPage.CategoriesPage.HandleCreate | admin-app/src/app/admin/categories/page.js:31-47 | on success the category is a new row at its place in name order, the form is emptied and the listing refetched in that order; on failure the table and the form are kept and the error is shown |
| CategoriesPage.CategoriesPage.HandleDelete | admin-app/src/app/admin/categories/page.js:49-59 | an unconfirmed delete changes nothing; a confirmed one removes the row and refetches (a failed refetch keeps the listing and shows its error), or shows the delete error |
| CourseStore.UpdateWhere | admin-app/src/app/admin/courses/page.js:57-60 | an update keeps the row count and replaces exactly the rows with the addressed id |
| CourseStore.UpdateKeepsUnique | admin-app/src/app/admin/courses/page.js:57-60 | an update that keeps ids keeps the ids unique |
| CourseStore.SetStatusSpec | admin-app/src/app/admin/courses/page.js:59 | a status update sets the addressed course's status and changes no other field of any course |
| CourseStore.TotalLessons | student-app/src/services/enrollmentApi.js:94-95 | a missing or empty section list counts 0 lessons |
| CourseStore.LessonCountsAppend | student-app/src/services/enrollmentApi.js:94-95 | the lesson total over sections is the sum of the totals of the parts |
| CourseStore.CourseTable.Update | admin-app/src/app/admin/courses/page.js:57-60 | the rows with the id are updated and ids stay unique, or the error and no change |
| CourseStore.CourseTable.AppendLog | admin-app/src/services/adminDashboardApi.js:100-105 | one approval log is appended, or the error and no change; courses untouched |
| EnrollmentApi.ProgressIsRounded | student-app/src/services/enrollmentApi.js:104 | with lessons, the percentage is 100·completed/total rounded to the nearest integer, halves up |
| EnrollmentApi.ProgressBounds | student-app/src/services/enrollmentApi.js:104 | the percentage lies in [0, 100] when no more lessons are complete than exist; all done is 100; none done or no lessons is 0 |
| EnrollmentApi.ProgressMonotone | student-app/src/services/enrollmentApi.js:104 | completing more lessons never lowers the percentage |
| EnrollmentApi.Unwrap | student-app/src/services/enrollmentApi.js:89-92 | an array-wrapped relation gives its first element, an empty array or a missing one gives nothing |
| EnrollmentApi.GetMyCourses | student-app/src/services/enrollmentApi.js:62-119 | the loop builds exactly one entry per enrollment with a course, in row order |
| EnrollmentApi.MyCoursesSpec | student-app/src/services/enrollmentApi.js:86-116 | no more entries than enrollments, one per enrollment when all have a course; each entry's progress is its rounded percentage, within [0, 100] when the completed count does not exceed the lessons |
| EnrollmentApi.SkipsEnrollmentsWithoutCourse | student-app/src/services/enrollmentApi.js:89-90 | an enrollment without a course adds no entry and one with a course adds one |
| EnrollmentApi.CompleteWhere | student-app/src/services/enrollmentApi.js:161-167 | the update marks exactly the addressed progress row completed and keeps the others |
| EnrollmentApi.CompleteKeepsKeys | student-app/src/services/enrollmentApi.js:161-167 | the update keeps which (enrollment, lesson) rows exist |
| EnrollmentApi.EnrollmentStore.EnrollUser | student-app/src/services/enrollmentApi.js:18-58 | no session raises and inserts nothing; an enrollment error is raised and no payment is written; otherwise the enrollment and, unless its insert fails, a successful payment are added and the call succeeds |
| EnrollmentApi.EnrollmentStore.MarkLessonComplete | student-app/src/services/enrollmentApi.js:123-191 | a lookup error is raised; no enrollment raises "No enrollment found for this course."; several progress rows raise; else the existing row is set completed, or a completed row is inserted |
| EnrollmentApi.MarkedRowCompleted | student-app/src/services/enrollmentApi.js:146-188 | after a successful call the (enrollment, lesson) row exists once and is completed, whether or not it existed: repeating the call adds no row |
| StudentDashboard.ShownSpec | student-app/src/pages/student/dashboard.js:39-47 | `all` shows every course; `active` exactly those with progress strictly between 0 and 100, `completed` exactly those at 100, each in order |
| StudentDashboard.StatsPartition | student-app/src/pages/student/dashboard.js:49-53 | the in-progress and completed counters add up to at most the enrolled total |
| StudentDashboard.FiltersDisjoint | student-app/src/pages/student/dashboard.js:42-45 | no course is shown under both `active` and `completed` |
| StudentDashboard.Dashboard.constructor | student-app/src/pages/student/dashboard.js:13-16 | no courses, filter `all`, loading |
| StudentDashboard.Dashboard.Load | student-app/src/pages/student/dashboard.js:19-37 | with a user the listing is loaded and re-filtered, or kept when the service raises, and loading ends; without a user loading ends once auth has |
| StudentDashboard.Dashboard.SetFilter | student-app/src/pages/student/dashboard.js:39-47 | the shown list is recomputed under the new filter, an unknown filter keeps it |
| CourseApi.SearchCoursesSpec | student-app/src/services/courseApi.js:23-56 | the results are approved courses satisfying every truthy option (title containing the query ignoring case, category, level, `free` as price 0, `paid` as a positive price), in table order, at most the limit (12 by default), and all matches when no more than the limit exist |
| CourseApi.SameOptionsSameSearch | student-app/src/services/courseApi.js:35-51 | a falsy option constrains nothing, and a price other than `free` or `paid` constrains nothing |
| CourseApi.TrendingSpec | student-app/src/services/courseApi.js:5-20 | approved courses only, in table order, at most the limit (4 by default), all of them when there are no more |
| CourseApi.GetCourseById | student-app/src/services/courseApi.js:59-84 | a missing URL or key raises "Database configuration error."; a query error is raised; otherwise null exactly when no row has the id, else a row with that id |
| CourseApi.LookupFindsTheCourse | student-app/src/services/courseApi.js:77-83 | with unique ids, the lookup of a course's id finds that course |
| StudentCoursesPage.UpdateFilterSpec | student-app/src/pages/student/courses/index.js:47-50 | the key gets the value, or is removed when the value is empty; every other key keeps its value; repeating the update changes nothing |
| StudentCoursesPage.FilterNavigation | student-app/src/pages/student/courses/index.js:52-55 | the shallow push goes to `/student/courses` with the updated filters as its query |
| StudentCoursesPage.HandleSearch | student-app/src/pages/student/courses/index.js:58-61 | the search text becomes `q`, an empty text removes `q`, other filters are kept |
| StudentCoursesPage.Normalised | student-app/src/pages/student/courses/index.js:261-266 | a filter is passed exactly when it is present and non-empty, with its value |
| StudentCoursesPage.SearchSubmitFilters | student-app/src/pages/student/courses/index.js:25-44 | a submitted search reaches the client-side fetch as its title filter, so every listed course's title contains the text, ignoring case |
| StudentCoursesPage.ClientFetched | student-app/src/pages/student/courses/index.js:25-38 | a successful client fetch lists only approved courses of the table; a fetch that throws keeps the listing on screen |
| StudentCoursesPage.ServerIgnoresQ | student-app/src/pages/student/courses/index.js:259-291 | as written, the first render for `?q=x` lists an approved course titled "Go", which does not match; a failing client fetch leaves it on screen, a successful one removes it |
| StudentCoursesPage.CorrectedServerMatchesClient | student-app/src/pages/student/courses/index.js:259-291 | with `q` passed as the `query` option, the first render lists exactly what the client-side fetch lists for the same URL query; after both, the page shows that listing unless the server's queries (search or categories) and the client fetch both failed, when it shows no course |
| ShellMarketplace.ToCardSpec | shell-app/src/pages/courses/index.js:39-50 | a card keeps the row's id, title, price and level, takes the joined names and thumbnail when truthy and "Unknown Instructor", "General" or the stock photo otherwise, counts the section lessons, and carries the fixed rating 4.8 and 120 reviews |
| ShellMarketplace.ListingSpec | shell-app/src/pages/courses/index.js:21-52 | every card is the card of an approved row, every approved row has its card, and there are no more cards than rows |
| ShellMarketplace.FilteredSpec | shell-app/src/pages/courses/index.js:66-72 | a card is shown exactly when its title or instructor contains the search ignoring case and the category and level selectors are "All" or equal; shown cards keep listing order |
| ShellMarketplace.ClearedShowsAll | shell-app/src/pages/courses/index.js:185 | with an empty search and both selectors on "All", every loaded card is shown |
| ShellMarketplace.QueryFromUrl | shell-app/src/pages/courses/index.js:60-64 | once the router is ready a truthy `q` parameter becomes the search text; otherwise the text is kept |
| ShellMarketplace.Marketplace.constructor | shell-app/src/pages/courses/index.js:9-14 | no cards, loading, empty search, both selectors on "All", sidebar closed |
| ShellMarketplace.Marketplace.FetchCourses | shell-app/src/pages/courses/index.js:21-58 | the listing replaces the cards, an error keeps the old ones, loading ends; the selectors are untouched |
| ShellMarketplace.Marketplace.OnUrl | shell-app/src/pages/courses/index.js:60-64 | only the search text may change, as `q` dictates |
| ShellMarketplace.Marketplace.SetSearchQuery | shell-app/src/pages/courses/index.js:94 | only the search text changes |
| ShellMarketplace.Marketplace.SelectCategory | shell-app/src/pages/courses/index.js:118 | only the category selector changes |
| ShellMarketplace.Marketplace.SelectLevel | shell-app/src/pages/courses/index.js:135 | only the level selector changes |
| ShellMarketplace.Marketplace.SetSidebarOpen | shell-app/src/pages/courses/index.js:199-204 | only the sidebar flag changes |
| ShellMarketplace.Marketplace.ClearAll | shell-app/src/pages/courses/index.js:185 | search emptied and both selectors on "All", so every loaded card is shown |
| StudentHeader.NavItems | student-app/src/components/Header.js:65-97 | "Explore" comes first; the sign-out button shows exactly for a signed-in user, who also gets Dashboard and Profile; a guest gets the central log-in and sign-up links |
| StudentHeader.SearchReachesListing | student-app/src/components/Header.js:13-19 | a blank search goes nowhere; any other reaches `/student/courses?q=…`, whose decoded `q` is the trimmed text |
| StudentHeader.Header.constructor | student-app/src/components/Header.js:8-9 | the menu closed, the search box empty |
| StudentHeader.Header.SetQuery | student-app/src/components/Header.js:9 | only the search text changes |
| StudentHeader.Header.ToggleMenu | student-app/src/components/Header.js:108 | the menu flips; the text is kept |
| StudentHeader.Header.HandleSearch | student-app/src/components/Header.js:13-19 | a non-blank search navigates and empties the box; a blank one changes nothing |
| ShellHome.HeroNavigationSpec | shell-app/src/pages/index.js:73-79 | a blank hero search goes nowhere; any other reaches `/courses?q=…`, whose decoded `q` is the trimmed text |
| ShellHome.HeroSearchFillsMarketplace | shell-app/src/pages/courses/index.js:60-64 | after a hero search the marketplace's search box holds the trimmed hero text, whatever it held before |
| ShellHome.Hero.constructor | shell-app/src/pages/index.js:70 | the hero search box starts empty |
| ShellHome.Hero.SetHeroSearch | shell-app/src/pages/index.js:109-110 | the box holds the typed text |
| ShellHome.Hero.HandleHeroSearch | shell-app/src/pages/index.js:73-79 | a non-blank search navigates and empties the box; a blank one changes nothing |
| StudentCourseCard.MediaPrecedence | student-app/src/components/CourseCard.js:12-37 | the promo video when its URL is truthy; else `thumbnail`, else `thumbnail_url`, else the stock photo chosen by the id's character-code sum mod 8 |
| StudentCourseCard.VideoAutoplays | student-app/src/components/CourseCard.js:15 | the video's query is the promo URL's own query, if any, followed by the autoplay parameters |
| StudentCourseCard.LabelsSpec | student-app/src/components/CourseCard.js:54-69 | instructor and category fall back to "Instructor" and "General"; the rating shows "New" exactly when missing or 0; the price shows "Free" exactly when not positive, else "$" and the price's digits; the review count shows in parentheses the digits of the number of reviews, 0 without a review list |
| ShellCourseCard.ApplySpec | shell-app/src/components/CourseCard.js:6-17 | a given prop is used as is, even when empty; only an undefined one takes its default |
| ShellCourseCard.ImageSrcSpec | shell-app/src/components/CourseCard.js:43 | the defaulted `thumbnail`, else `thumbnail_url`, else the stock photo for the id, which is one of eight |
| ShellCourseCard.MarketplaceCardsShowTheirThumbnail | shell-app/src/components/CourseCard.js:43 | a marketplace card always has a non-empty thumbnail, so the card shows it |
| ShellCourseCard.ClickSpec | shell-app/src/components/CourseCard.js:22-36 | without a session, an alert and the central signup page whose `redirect` parameter decodes to the current URL; with one, `/courses/<id>` |
| InstructorLayout.IsActiveSpec | instructor-app/src/components/InstructorLayout.js:62-64 | the dashboard entry is highlighted on `/instructor` only; any other entry on every path its href is a prefix of |
| InstructorLayout.CreatePageHighlightsTwo | instructor-app/src/components/InstructorLayout.js:23-29 | on the create page both "My Courses" and "Create Course" are highlighted, the dashboard is not |
| InstructorLayout.UpperChar | instructor-app/src/components/InstructorLayout.js:113 | lower-case ASCII letters map to their upper-case letter, every other character to itself |
| InstructorLayout.AvatarInitialSpec | instructor-app/src/components/InstructorLayout.js:113 | the email's first character upper-cased, or "I" without a user or an email |
| InstructorLayout.LayoutView | instructor-app/src/components/InstructorLayout.js:31-37 | the spinner exactly while loading; otherwise the portal with one highlight flag per navigation entry |
| InstructorLayout.NoUserStillRenders | instructor-app/src/components/InstructorLayout.js:31-37 | once loading ends the portal renders even without a user, with the initial "I" |
| InstructorLayout.Layout.constructor | instructor-app/src/components/InstructorLayout.js:21 | the sidebar starts closed |
| InstructorLayout.Layout.OpenSidebar | instructor-app/src/components/InstructorLayout.js:101 | the sidebar is open |
| InstructorLayout.Layout.CloseSidebar | instructor-app/src/components/InstructorLayout.js:48 | the sidebar is closed |
| AuthTypes.RoleGate | instructor-app/src/pages/instructor/courses/index.js:32-36 | once auth has loaded, exactly a visitor without a user or without the page's role is sent to `/login`; the instructor pages require `instructor`, the admin dashboard (admin-app/src/app/admin/dashboard/page.js:34-39) `admin` |
| InstructorCoursesPage.PageEffect | instructor-app/src/pages/instructor/index.js:32-38 | the gate's redirect, otherwise a load exactly when there is a user who is an instructor or whose role is still loading |
| InstructorCoursesPage.MyCoursesSpec | instructor-app/src/pages/instructor/courses/index.js:44-58 | the listing holds exactly the instructor's courses that are not deleted and match the status filter, in newest-first order |
| InstructorCoursesPage.FilteredCoursesSpec | instructor-app/src/pages/instructor/courses/index.js:84-87 | the search keeps exactly the courses whose title or description contains the term ignoring case; an empty term keeps all |
| InstructorCoursesPage.BadgeColor | instructor-app/src/pages/instructor/courses/index.js:89-97 | draft slate, pending amber, approved emerald, rejected red; any other status is coloured like a draft |
| InstructorCoursesPage.ColorsTellStatus | instructor-app/src/pages/instructor/courses/index.js:89-97 | among the four known statuses the colour tells the status |
| InstructorCoursesPage.ActionsByStatus | instructor-app/src/pages/instructor/courses/index.js:215-240 | a deletable course is editable; a pending or approved one is neither |
| InstructorCoursesPage.CardMedia | instructor-app/src/pages/instructor/courses/index.js:182-195 | the promo video exactly when its URL is truthy; else the stock photo for the id, 800 pixels wide |
| InstructorCoursesPage.VideoStartsAt74 | instructor-app/src/pages/instructor/courses/index.js:184 | the video's query is the promo URL's own query, if any, followed by `start=74` |
| InstructorCoursesPage.DeletedLeavesListing | instructor-app/src/pages/instructor/courses/index.js:68-82 | after the soft delete the course is in no listing and every other listed course stays |
| InstructorCoursesPage.MyCoursesPage.constructor | instructor-app/src/pages/instructor/courses/index.js:25-28 | no courses, loading, filter `all`, empty search |
| InstructorCoursesPage.MyCoursesPage.FetchCourses | instructor-app/src/pages/instructor/courses/index.js:44-66 | the listing, or the old one on error; loading ends; filter and search untouched |
| InstructorCoursesPage.MyCoursesPage.HandleDeleteCourse | instructor-app/src/pages/instructor/courses/index.js:68-82 | unconfirmed: nothing changes; on error: alert "Error deleting course: " and the message; otherwise the course is soft-deleted and the listing refetched |
| CourseWizard.LessonTotalAppend | instructor-app/src/pages/instructor/courses/create.js:403 | the review step's lesson total over sections is the sum over the parts |
| CourseWizard.RemoveIndex | instructor-app/src/pages/instructor/courses/create.js:59-61 | dropping an existing index removes exactly that element; any other index changes nothing |
| CourseWizard.AddSectionTotal | instructor-app/src/pages/instructor/courses/create.js:55-57 | a new section goes at the end, keeps the others, and brings one blank lesson to the total |
| CourseWizard.RemoveSectionTotal | instructor-app/src/pages/instructor/courses/create.js:59-61 | a removed section takes its lessons out of the total; a missing index changes nothing |
| CourseWizard.AddLessonTotal | instructor-app/src/pages/instructor/courses/create.js:63-67 | a blank lesson is appended to the addressed section only, and the total grows by one |
| CourseWizard.RemoveLessonTotal | instructor-app/src/pages/instructor/courses/create.js:69-73 | removing an existing lesson lowers the total by one and touches no other section; a missing index changes nothing |
| CourseWizard.EditsTouchOneEntry | instructor-app/src/pages/instructor/courses/create.js:75-85 | a field edit changes that field of the addressed section or lesson and nothing else |
| CourseWizard.Next | instructor-app/src/pages/instructor/courses/create.js:429-431 | "Continue" advances one step before the last step and is absent on it |
| CourseWizard.Back | instructor-app/src/pages/instructor/courses/create.js:419-421 | "Back" goes one step back after the first step and is absent on it |
| CourseWizard.StepsStayInRange | instructor-app/src/pages/instructor/courses/create.js:17 | from any of the three steps, Next and Back stay within the three steps |
| CourseWizard.LessonRowsOfSpec | instructor-app/src/pages/instructor/courses/create.js:118-129 | one lesson row per lesson, under the section's id, with its 1-based position as `order` |
| CourseWizard.LessonRowsForSpec | instructor-app/src/pages/instructor/courses/create.js:104-130 | one lesson row per lesson of the curriculum, each under its section's id with its 1-based position |
| CourseWizard.WrittenSpec | instructor-app/src/pages/instructor/courses/create.js:101-130 | without a failure every section and lesson is written; a failure leaves a prefix, with sections numbered from 1, and a failed course insert writes nothing |
| CourseWizard.CurriculumTables.InsertCourse | instructor-app/src/pages/instructor/courses/create.js:91-101 | the course row is appended and its id returned, or the error and no change |
| CourseWizard.CurriculumTables.InsertSection | instructor-app/src/pages/instructor/courses/create.js:106-116 | the section row is appended and its id returned, or the error and no change |
| CourseWizard.CurriculumTables.InsertLesson | instructor-app/src/pages/instructor/courses/create.js:120-128 | the lesson row is appended, or the error and no change |
| CourseWizard.CurriculumTables.InsertLessons | instructor-app/src/pages/instructor/courses/create.js:118-129 | one section's lessons are written in order, each under the new section's id with its 1-based position, up to the first refused insert, which is reported |
| CourseWizard.CurriculumTables.InsertCurriculum | instructor-app/src/pages/instructor/courses/create.js:104-130 | the loop writes exactly the sections and lessons before the first failure, and reports whether one was hit |
| CourseWizard.Wizard.constructor | instructor-app/src/pages/instructor/courses/create.js:22-40 | step 0, not submitting, no categories, the empty draft at level "Beginner", one section with one blank lesson |
| CourseWizard.Wizard.FetchCategories | instructor-app/src/pages/instructor/courses/create.js:50-53 | the category rows, or an empty list when there are none |
| CourseWizard.Wizard.OnAuth | instructor-app/src/pages/instructor/courses/create.js:42-48 | the effect is `PageEffect`; a load fetches the categories; nothing else changes |
| CourseWizard.Wizard.SetCourseData | instructor-app/src/pages/instructor/courses/create.js:28-35 | only the draft changes |
| CourseWizard.Wizard.GoNext | instructor-app/src/pages/instructor/courses/create.js:429-431 | the step advances as Next says and stays in range; nothing else changes |
| CourseWizard.Wizard.GoBack | instructor-app/src/pages/instructor/courses/create.js:419-421 | the step goes back as Back says and stays in range; nothing else changes |
| CourseWizard.Wizard.HandleAddSection | instructor-app/src/pages/instructor/courses/create.js:55-57 | only the curriculum changes, by a new section |
| CourseWizard.Wizard.HandleRemoveSection | instructor-app/src/pages/instructor/courses/create.js:59-61 | only the curriculum changes, by dropping the section |
| CourseWizard.Wizard.HandleAddLesson | instructor-app/src/pages/instructor/courses/create.js:63-67 | only the curriculum changes, by a lesson in the addressed section |
| CourseWizard.Wizard.HandleRemoveLesson | instructor-app/src/pages/instructor/courses/create.js:69-73 | only the curriculum changes, by dropping the lesson |
| CourseWizard.Wizard.HandleSectionChange | instructor-app/src/pages/instructor/courses/create.js:75-79 | only the addressed section's title changes |
| CourseWizard.Wizard.HandleLessonChange | instructor-app/src/pages/instructor/courses/create.js:81-85 | only the addressed lesson's field changes |
| CourseWizard.Wizard.HandleSubmit | instructor-app/src/pages/instructor/courses/create.js:87-138 | the course goes in as `pending` under the instructor, then the curriculum up to the first failure, with nothing undone; the alert is success and navigation to `/instructor/courses`, or "Error creating course: " and the message; submitting ends |
| SectionBuilder.AddSectionRequest | admin-app/src/components/instructor/SectionBuilder.jsx:23-28 | no request for a blank title; otherwise the untrimmed title under the course |
| SectionBuilder.AddedSectionsCountFromZero | admin-app/src/components/instructor/SectionBuilder.jsx:25 | a new section's order is the number of sections shown: the first gets 0 and each later one the next number |
| SectionBuilder.OrdersDisagreeWithWizard | admin-app/src/components/instructor/SectionBuilder.jsx:25 | the wizard numbers its first section 1, while the builder gives the second section shown order 1 |
| SectionBuilder.Toggle | admin-app/src/components/instructor/SectionBuilder.jsx:89 | a click opens the section unless it was the open one, which closes; at most one is open |
| SectionBuilder.ToggleTwiceRestores | admin-app/src/components/instructor/SectionBuilder.jsx:89 | two clicks on the same section restore the previous state |
| SectionBuilder.NewLessonDraft | admin-app/src/components/instructor/SectionBuilder.jsx:125 | an empty, not free lesson under the section, ordered after its lessons (0 without a lesson list) |
| SectionBuilder.Builder.constructor | admin-app/src/components/instructor/SectionBuilder.jsx:18-21 | nothing open, no title, not adding, no lesson dialog |
| SectionBuilder.Builder.StartAddingSection | admin-app/src/components/instructor/SectionBuilder.jsx:40-68 | only the adding flag changes |
| SectionBuilder.Builder.SetNewSectionTitle | admin-app/src/components/instructor/SectionBuilder.jsx:57 | only the new title changes |
| SectionBuilder.Builder.HandleAddSection | admin-app/src/components/instructor/SectionBuilder.jsx:23-28 | the request as above; after a save the title empties and the form closes; a blank title or a failed save keeps both |
| SectionBuilder.Builder.ToggleSection | admin-app/src/components/instructor/SectionBuilder.jsx:89 | only the open section changes, as Toggle says |
| SectionBuilder.Builder.StartLesson | admin-app/src/components/instructor/SectionBuilder.jsx:125 | the lesson dialog opens on the new draft |
| SectionBuilder.Builder.EditLessonDraft | admin-app/src/components/instructor/SectionBuilder.jsx:153-171 | the dialog's fields change, its section and order are kept |
| SectionBuilder.Builder.SaveLesson | admin-app/src/components/instructor/SectionBuilder.jsx:178-181 | the draft goes out with its section id; the dialog closes unless saving raised |
| SectionBuilder.Builder.CancelLesson | admin-app/src/components/instructor/SectionBuilder.jsx:187 | the dialog closes |
| CourseForm.LevelsMissMarketplaceFilter | admin-app/src/components/instructor/CourseForm.jsx:94-96 | none of the form's levels equals a level option of the marketplace filter other than "All" |
| CourseForm.Normalise | admin-app/src/components/instructor/CourseForm.jsx:16-27 | the record has exactly the six form fields, each picked from the initial data or its default |
| CourseForm.NormaliseSpec | admin-app/src/components/instructor/CourseForm.jsx:16-27 | other keys are dropped, a truthy value is kept, a missing or falsy one takes the default; no initial data gives the defaults |
| CourseForm.NormaliseIdempotent | admin-app/src/components/instructor/CourseForm.jsx:16-27 | normalising twice is normalising once |
| CourseForm.Change | admin-app/src/components/instructor/CourseForm.jsx:29-32 | the input's text goes under its name, every other entry stays |
| CourseForm.PriceBecomesText | admin-app/src/components/instructor/CourseForm.jsx:29-32 | after an edit of the price input, the price is text rather than a number |
| CourseForm.Form.constructor | admin-app/src/components/instructor/CourseForm.jsx:7-14 | the record starts at the defaults |
| CourseForm.Form.OnInitialData | admin-app/src/components/instructor/CourseForm.jsx:16-27 | given initial data the record is its normalised copy, otherwise unchanged |
| CourseForm.Form.HandleChange | admin-app/src/components/instructor/CourseForm.jsx:29-32 | the record changes as Change says |
| CourseForm.Form.HandleSubmit | admin-app/src/components/instructor/CourseForm.jsx:34-37 | the record is handed over as it stands |
| Earnings.PaidRows | instructor-app/src/pages/instructor/earnings.js:28-33 | the rows are exactly the successful payments for the instructor's courses |
| Earnings.FirstIndex | instructor-app/src/pages/instructor/earnings.js:43 | the position of the first entry with the key, or the entry count when there is none |
| Earnings.FirstIndexUnique | instructor-app/src/pages/instructor/earnings.js:43 | the first position is determined by those three facts |
| Earnings.FirstIndexAppend | instructor-app/src/pages/instructor/earnings.js:43-49 | appending an entry keeps every existing key's position and gives a new key the last position |
| Earnings.GroupByCourse | instructor-app/src/pages/instructor/earnings.js:40-56 | the loop over the payments builds exactly the per-course entries GroupsOf describes, in first-seen order |
| Earnings.AddPaymentStep | instructor-app/src/pages/instructor/earnings.js:43-51 | a payment for a known course adds its amount and one to that entry only; an unknown course gets a new entry at the end with the title, the amount and count 1 |
| Earnings.GroupTotals | instructor-app/src/pages/instructor/earnings.js:37-52 | the entries' counts add up to the number of payments and their amounts to the total |
| Earnings.GroupKeys | instructor-app/src/pages/instructor/earnings.js:40-56 | there is one entry per paid course and no other, keys are distinct, and each entry's title is that of the course's first payment |
| Earnings.RecentSpec | instructor-app/src/pages/instructor/earnings.js:57 | the ten newest payments, or all of them when there are fewer, in query order |
| Earnings.EnrollmentLabel | instructor-app/src/pages/instructor/earnings.js:120 | the count followed by "enrollment" or "enrollments" |
| Earnings.EnrollmentLabelSpec | instructor-app/src/pages/instructor/earnings.js:120 | the label is plural exactly when the count exceeds one |
| Earnings.EarningsPage.constructor | instructor-app/src/pages/instructor/earnings.js:11-12 | zero total, no groups, no recent payments, loading |
| Earnings.EarningsPage.FetchEarnings | instructor-app/src/pages/instructor/earnings.js:24-64 | the total, the grouping and the ten newest payments of the query's rows; a failed query keeps the old earnings; loading ends |
| Earnings.EarningsPage.OnAuth | instructor-app/src/pages/instructor/earnings.js:16-22 | the shared gate's effect; a load fetches the earnings of the signed-in user, otherwise nothing changes |
| InstructorDashboard.CoursesAnswer | instructor-app/src/pages/instructor/index.js:43-49 | every counted course is the instructor's own, not deleted, and in the table |
| InstructorDashboard.AverageRating | instructor-app/src/pages/instructor/index.js:84-91 | no rating exactly when there are no reviews; otherwise the mean over all of them, as a sum and a positive count |
| InstructorDashboard.ComputeMetrics | instructor-app/src/pages/instructor/index.js:39-100 | the course total is the number of courses the courses query answered |
| InstructorDashboard.StatusCountsPartition | instructor-app/src/pages/instructor/index.js:50-55 | the four status counts and the courses with any other status add up to the course total |
| InstructorDashboard.CountsSpec | instructor-app/src/pages/instructor/index.js:43-55 | the total is the number of the instructor's live courses; a failed query leaves the initial zeros; the status counts are within the total and each counts its own status |
| InstructorDashboard.OtherStatusCountsOnlyTowardTotal | instructor-app/src/pages/instructor/index.js:50-55 | a course with another status adds to the total but to none of the four counts |
| InstructorDashboard.StudentsSpec | instructor-app/src/pages/instructor/index.js:61-74 | the enrollment count is asked for exactly when there is a course; without courses or when it fails, no students |
| InstructorDashboard.NoReviewsMeansZero | instructor-app/src/pages/instructor/index.js:76-91 | the rating is 0 exactly without reviews; without courses both the rating and the revenue are 0 |
| InstructorDashboard.NothingMatchesNoIds | instructor-app/src/pages/instructor/index.js:76-91 | no payment and no review belongs to an empty set of courses |
| InstructorDashboard.Dashboard.constructor | instructor-app/src/pages/instructor/index.js:21-28 | the initial zero metrics, loading |
| InstructorDashboard.Dashboard.FetchMetrics | instructor-app/src/pages/instructor/index.js:39-100 | the metrics of the tables as the queries answer; loading ends |
| InstructorDashboard.Dashboard.OnAuth | instructor-app/src/pages/instructor/index.js:32-38 | the shared gate's effect; a load fetches the metrics of the signed-in user, otherwise nothing changes |
| InstructorApi.InstructorRows | admin-app/src/services/instructorApi.js:11-17 | every row of the instructor, deleted or not, and no other |
| InstructorApi.EnrollmentCounts | admin-app/src/services/instructorApi.js:22 | one count per course: its enrollments, or 0 without the relation |
| InstructorApi.GetInstructorStats | admin-app/src/services/instructorApi.js:9-35 | a query error is raised again; otherwise the four counts |
| InstructorApi.NonNegativeSum | admin-app/src/services/instructorApi.js:22 | the student total is never negative |
| InstructorApi.StudentsAddUp | admin-app/src/services/instructorApi.js:22 | each course adds its enrollments to the student total, a course without the relation adds nothing |
| InstructorApi.StatsSpec | admin-app/src/services/instructorApi.js:21-29 | the total counts every row of the instructor; pending and active count exactly the pending and approved ones, which together are within the total |
| InstructorApi.CountsDeletedCourses | admin-app/src/services/instructorApi.js:11-21 | the admin total exceeds the instructor dashboard's total by exactly the instructor's deleted courses |
| Common.Lower | shell-app/src/pages/courses/index.js:67-68 | lower-casing keeps the length, maps each character, and leaves no upper-case ASCII letter |
| Common.IncludesIffOccurs | shell-app/src/pages/courses/index.js:67-68 | `includes` holds exactly when the text occurs at some position |
| Common.IncludesEmpty | shell-app/src/pages/courses/index.js:67-68 | the empty search is included in every title |
| Common.TrimSpec | student-app/src/components/Header.js:15-16 | trimming cuts whitespace from both ends only, leaves no whitespace at either end, and gives the empty string exactly for all-whitespace input |
| Common.TrimIdempotent | student-app/src/components/Header.js:15-16 | trimming twice is trimming once |
| Common.StockImageIndex | admin-app/src/app/admin/courses/page.js:133 | the stock photo index, the id's character-code sum mod 8, is below 8 |
| Common.StockImageSwap | admin-app/src/app/admin/courses/page.js:133 | the stock photo does not depend on the order of the id's parts |
| Common.DecimalRoundTrip | student-app/src/components/CourseCard.js:69 | a printed whole number reads back as itself |
| Uri.Utf8RoundTrip | student-app/src/components/Header.js:16 | the UTF-8 encoding under `encodeURIComponent` decodes back to the text |
| Uri.EncodedIsQuerySafe | student-app/src/components/Header.js:16 | the encoded text holds no `&`, `=`, `#`, `+`, `?` or space, so it stays one query value |
| Uri.FormDecodeRoundTrip | shell-app/src/pages/courses/index.js:60-62 | decoding a query value recovers exactly the text `encodeURIComponent` encoded |
| Uri.AppendParamsQuery | student-app/src/components/CourseCard.js:15 | appending parameters with `?`, or `&` when the URL already has a query, extends the query by them |
| Uri.SearchParamRoundTrip | shell-app/src/components/CourseCard.js:30 | the parameter of a URL built with one encoded parameter reads back as the original value |
| Uri.SearchTarget | student-app/src/components/Header.js:13-19 | a search leads somewhere exactly when its trimmed text is not empty |
| Uri.SearchTargetRoundTrip | student-app/src/components/Header.js:13-19 | the page a search leads to starts with the path and `?q=` and reads back the trimmed text as `q` |

## Left out

- Supabase itself (network, auth server, row-level security) is not modelled: query answers and query failures are parameters. A listing that a query orders is read from a table kept in that order: the users newest first, with a new user at the front; the categories by name, with a new category at its place; the courses newest first, given in that order.
- CategoriesPage.InsertByName: `.order('name')` is modelled as code-point order (PostgreSQL's C collation); a database with a language collation orders some names differently, and categories with equal names are listed older first, where PostgreSQL leaves their order open.
- `maybeSingle()` raising on more than one matching row is modelled where several rows can match, in the progress lookup of `markLessonComplete`; the role reads look a user up by primary key, which matches at most one row.
- AdminAuthContext.KeyedStepsKeepRoleOwned: states only that no role survives without a user; a role kept from an earlier user survives a switch to a user with no fast role until that user's read answers, in the source and in the keyed variant alike.
- React rendering, JSX markup, CSS classes, icons and `next/link` / `next/router` navigation are not modelled beyond the decision they encode: which screen, which redirect, which entry is highlighted.
- Timers (`setTimeout` for the 8 s safety timer and the 15 s role-read timeout) are events the caller fires; the model does not measure time.
- `localStorage` is a map passed in and out; storage quota errors are not modelled.
- Console logging is not modelled.
- Floating-point arithmetic is not modelled: prices and payment amounts are integers, `parseFloat` on form fields is taken as already applied, `toFixed` and `toLocaleString` are not modelled, and `Math.round` is modelled exactly with half-up rounding.
- EnrollmentApi.ProgressIsRounded: `Progress` rounds the exact quotient half up, where the source rounds the floating-point product `(completed / total) * 100`; the two differ where that product falls just below a half, e.g. 29 of 200 lessons, where `29 / 200 * 100` evaluates to 14.499999999999998 and `getMyCourses` reports 14 while `Progress(29, 200)` is 15.
- InstructorDashboard.AverageRating: keeps the mean as its sum and count instead of the floating-point quotient and its `toFixed(1)` text.
- Unicode case mapping is not modelled: `toLowerCase` and `ilike` are modelled on ASCII letters, and `ilike`'s `%` and `_` wildcards inside the user's search text are treated as plain characters.
- Query values are decoded as `URLSearchParams` does (plus to space, percent escapes to bytes, UTF-8 with replacement characters); where ill-formed UTF-8 is replaced, the model's choice of how many bytes one replacement character covers is not claimed to follow the WHATWG encoding standard exactly.
- A status missing from the status badge's table falls back to the draft badge (modelled); a status equal to an `Object.prototype` property name (`constructor`, `toString`) would look up that inherited property instead, and this is not modelled.
- The admin resolver writes the role cache after unmount (modelled), but the React warning that `setRole` on an unmounted component would raise is not.
- The ratings shown on the shell's course cards are mock values, and the card's price and rating are carried as the text the page passes; their formatting is not modelled.
- The section builder's delete buttons have no handlers in the source, so they change nothing and are not modelled as operations.
- SectionBuilder.Builder.EditLessonDraft: the dialog's three separate field edits (title, video URL, free flag) are modelled as one edit that sets all three.
- The wizard's submit inserts the course, then each section and its lessons, with no rollback; the model states the rows written up to the first failing insert and the error, not a transaction.
- Objects and arrays the source mutates in place inside React state (the wizard's and the builder's curriculum) are modelled as values that the update replaces; aliasing between renders is not modelled.
- Earnings.GroupByCourse: `Object.values` lists the groups in insertion order only when course ids are not integer-like strings; the model assumes that order.
- The earnings query's join (`courses(title, instructor_id)`) is taken as fields of each payment row.
- The instructor service's plain create, read, update and delete wrappers (`getInstructorCourses`, `getCourseDetails`, `createCourse`, `updateCourse`, `deleteCourse`, `upsertSection`, `upsertLesson`) add no logic to a single query and are not modelled; `getInstructorStats` is.
- `courseApi.getCategories` and `enrollmentApi.checkEnrollment` are single queries with no logic of their own and are not modelled.
- CourseApi.SearchCourses and CourseApi.TrendingCourses take the answered rows; a query error is raised to the caller. The student home page, whose static render catches the trending query's error, is presentation and is not part of this model. On the catalogue page both `catch` blocks are modelled: `StudentCoursesPage.ServerCourses` renders no course when either server query fails, and `StudentCoursesPage.ClientFetched` keeps the listing when the client fetch throws. The `error` prop and the empty category list of a failed first render are not modelled, since the categories query is not.
- StudentCoursesPage: the client fetch's wait for `router.isReady` is not modelled; the fetch is taken to run with the final query.
- Sign-in and sign-up calls to the auth server (password checks, e-mail confirmation) are parameters: the model takes their answer.

## Findings

| source | as written | input that shows it | evidently intended | confidence | as-written member | corrected member |
|---|---|---|---|---|---|---|
| admin-app/src/context/AuthContext.js:34-46 | a role read's reply sets `role` whichever user is signed in when it arrives | user `u1` signs in with no metadata role and no cached role, signs out, then the pending read answers `admin`: no user is signed in but the role is `admin` | a reply is applied only when it answers the read for the user still signed in | not executed | AdminAuthContext.StaleReplyOverwritesRole | AdminAuthContext.KeyedReplyForCurrentUser |
| student-app/src/pages/student/courses/index.js:259-270 | the server-side render passes the search text as `q`, but `searchCourses` reads the `query` option, so the first render ignores the search | URL `?q=x` over one approved course titled "Go": the first render lists it, the client fetch lists nothing | pass the search text as `query`, so the first render lists what the client fetch lists | not executed | StudentCoursesPage.ServerIgnoresQ | StudentCoursesPage.CorrectedServerMatchesClient |
