/**
 * The admin users page: the role-filtered listing, the name/email search, the
 * per-user role menu, and the register / update-role / delete handlers.
 */
module AdminUsersPage {
  import opened Common
  import opened AuthTypes
  import opened UsersStore

  /** `fetchUsers`: filter `all` adds no constraint, any other value keeps only that role (rows in query order). */
  function FetchUsers(rows: seq<UserRow>, roleFilter: string): seq<UserRow> {
    if roleFilter == "all" then rows else Filter(rows, (u: UserRow) => u.role == roleFilter)
  }

  lemma FetchUsersSpec(rows: seq<UserRow>, roleFilter: string)
    ensures roleFilter == "all" ==> FetchUsers(rows, roleFilter) == rows
    ensures roleFilter != "all" ==>
      forall u :: u in FetchUsers(rows, roleFilter) <==> u in rows && u.role == roleFilter
    ensures IsSubsequence(FetchUsers(rows, roleFilter), rows)
  {
    FilterSpec(rows, (u: UserRow) => u.role == roleFilter);
    if roleFilter == "all" {
      SubsequenceRefl(rows);
    }
  }


  /** `u.full_name?.toLowerCase().includes(t) || u.email?.toLowerCase().includes(t)`. */
  predicate MatchesSearch(u: UserRow, term: string) {
    (u.fullName.Some? && IncludesIgnoringCase(u.fullName.value, term))
    || (u.email.Some? && IncludesIgnoringCase(u.email.value, term))
  }

  function FilteredUsers(users: seq<UserRow>, term: string): seq<UserRow> {
    Filter(users, (u: UserRow) => MatchesSearch(u, term))
  }

  /**
   * The search keeps a user iff the lower-cased name or email contains the
   * lower-cased term; with an empty term it keeps exactly the users that have a
   * name or an email.
   */
  lemma FilteredUsersSpec(users: seq<UserRow>, term: string)
    ensures forall u :: u in FilteredUsers(users, term) <==> u in users && MatchesSearch(u, term)
    ensures forall u :: u in FilteredUsers(users, "") <==> u in users && (u.fullName.Some? || u.email.Some?)
  {
    FilterSpec(users, (u: UserRow) => MatchesSearch(u, term));
    FilterSpec(users, (u: UserRow) => MatchesSearch(u, ""));
    forall u: UserRow ensures MatchesSearch(u, "") <==> (u.fullName.Some? || u.email.Some?) {
      if u.fullName.Some? {
        IncludesEmpty(Lower(u.fullName.value));
      }
      if u.email.Some? {
        IncludesEmpty(Lower(u.email.value));
      }
    }
  }

  const Roles: seq<string> := ["student", "instructor", "admin"]

  /** The "Make <role>" entries offered for a user. */
  function RoleMenu(current: string): seq<string> {
    Filter(Roles, (r: string) => r != current)
  }

  /** The menu offers exactly the other two roles for a known role, and all three otherwise. */
  lemma RoleMenuSpec(current: string)
    ensures forall r :: r in RoleMenu(current) <==> r in Roles && r != current
    ensures current == "student" ==> RoleMenu(current) == ["instructor", "admin"]
    ensures current == "instructor" ==> RoleMenu(current) == ["student", "admin"]
    ensures current == "admin" ==> RoleMenu(current) == ["student", "instructor"]
    ensures current !in Roles ==> RoleMenu(current) == Roles
  {
    FilterSpec(Roles, (r: string) => r != current);
    assert Roles[1..][1..][1..] == [];
  }

  /**
   * A newly registered instructor heads the listing under the `all` and
   * `instructor` filters, the listing being newest first.
   */
  lemma NewInstructorListedFirst(rows: seq<UserRow>, row: UserRow, roleFilter: string)
    requires row.role == "instructor" && (roleFilter == "all" || roleFilter == "instructor")
    ensures FetchUsers([row] + rows, roleFilter) != [] && FetchUsers([row] + rows, roleFilter)[0] == row
    ensures roleFilter == "instructor" ==> FetchUsers([row] + rows, roleFilter) == [row] + FetchUsers(rows, roleFilter)
  {
    if roleFilter == "instructor" {
      assert ([row] + rows)[1..] == rows;
    }
  }

  datatype RegForm = RegForm(fullName: string, email: string, password: string)

  const EmptyRegForm: RegForm := RegForm("", "", "")

  const RegisteredMessage := "Instructor registered successfully! They can now log in at port 3002."

  /** The message a null `authData.user` produces when its id is read. */
  const NullUserMessage: string := "Cannot read properties of null (reading 'id')"

  class UsersPage {
    var shown: seq<UserRow>
    var roleFilter: string
    var modalOpen: bool
    var reg: RegForm
    var regError: Option<string>
    var alert: Option<string>

    constructor (rows: seq<UserRow>)
      ensures shown == FetchUsers(rows, "all") && roleFilter == "all"
      ensures !modalOpen && reg == EmptyRegForm && regError.None? && alert.None?
    {
      shown, roleFilter := rows, "all";
      modalOpen, reg, regError, alert := false, EmptyRegForm, None, None;
    }

    /** `fetchUsers` with the query's answer: rows on success, the listing kept on error. */
    method Refresh(answer: Option<seq<UserRow>>)
      modifies this
      ensures shown == if answer.Some? then FetchUsers(answer.value, roleFilter) else old(shown)
      ensures roleFilter == old(roleFilter) && modalOpen == old(modalOpen) && reg == old(reg)
      ensures regError == old(regError) && alert == old(alert)
    {
      if answer.Some? {
        shown := FetchUsers(answer.value, roleFilter);
      }
    }

    /**
     * The role filter's select: the new filter is kept and the effect on
     * `roleFilter` refetches the table under it, or keeps the listing when the
     * query fails.
     */
    method SetRoleFilter(users: UsersTable, f: string, refetchFails: bool)
      modifies this
      ensures roleFilter == f
      ensures shown == if refetchFails then old(shown) else FetchUsers(users.rows, f)
      ensures modalOpen == old(modalOpen) && reg == old(reg) && regError == old(regError) && alert == old(alert)
    {
      roleFilter := f;
      Refresh(if refetchFails then None else Some(users.rows));
    }

    /**
     * `handleRegister`: sign up an instructor, insert its row; a duplicate-key
     * insert error is ignored, any other one fails the registration. Success
     * closes the modal, empties the form and refetches; the refetch is not
     * awaited, and when it fails the listing stays as it was.
     */
    method HandleRegister(users: UsersTable, outcome: SignUpOutcome, refusal: Option<DbError>, refetchFails: bool)
      requires users.Valid()
      modifies this, users
      ensures users.Valid() && roleFilter == old(roleFilter)
      ensures outcome.SignUpError? ==>
        && regError == Some(outcome.message) && users.rows == old(users.rows)
        && modalOpen == old(modalOpen) && reg == old(reg) && shown == old(shown) && alert == old(alert)
      ensures outcome.SignedUpWithoutUser? ==>
        && regError == Some(NullUserMessage) && users.rows == old(users.rows)
        && modalOpen == old(modalOpen) && reg == old(reg) && shown == old(shown) && alert == old(alert)
      ensures outcome.SignedUp? ==>
        var row := UserRow(outcome.user.id, Some(old(reg).fullName), Some(old(reg).email), "instructor");
        if !HasId(old(users.rows), row.id) && refusal.Some? && refusal.value.code != DuplicateKeyCode then
          && regError == Some(refusal.value.message) && users.rows == old(users.rows)
          && modalOpen == old(modalOpen) && reg == old(reg) && shown == old(shown) && alert == old(alert)
        else
          && regError.None? && !modalOpen && reg == EmptyRegForm && alert == Some(RegisteredMessage)
          && users.rows == (if HasId(old(users.rows), row.id) || refusal.Some? then old(users.rows) else [row] + old(users.rows))
          && shown == (if refetchFails then old(shown) else FetchUsers(users.rows, roleFilter))
    {
      regError := None;
      match outcome {
        case SignUpError(message) =>
          regError := Some(message);
        case SignedUpWithoutUser =>
          regError := Some(NullUserMessage);
        case SignedUp(u) =>
          var err := users.Insert(UserRow(u.id, Some(reg.fullName), Some(reg.email), "instructor"), refusal);
          if err.Some? && err.value.code != DuplicateKeyCode {
            regError := Some(err.value.message);
          } else {
            modalOpen := false;
            reg := EmptyRegForm;
            Refresh(if refetchFails then None else Some(users.rows));
            alert := Some(RegisteredMessage);
          }
      }
    }

    /** `handleUpdateRole`: change only that user's role, then refetch (not awaited); an error raises an alert. */
    method HandleUpdateRole(users: UsersTable, userId: string, newRole: string, refusal: Option<DbError>, refetchFails: bool)
      requires users.Valid()
      modifies this, users
      ensures users.Valid() && roleFilter == old(roleFilter) && reg == old(reg) && modalOpen == old(modalOpen)
      ensures refusal.None? ==>
        users.rows == SetRole(old(users.rows), userId, newRole)
        && shown == (if refetchFails then old(shown) else FetchUsers(users.rows, roleFilter))
        && alert == old(alert) && regError == old(regError)
      ensures refusal.Some? ==>
        users.rows == old(users.rows) && alert == Some("Error updating role: " + refusal.value.message)
        && shown == old(shown) && regError == old(regError)
    {
      var err := users.UpdateRole(userId, newRole, refusal);
      if err.Some? {
        alert := Some("Error updating role: " + err.value.message);
      } else {
        Refresh(if refetchFails then None else Some(users.rows));
      }
    }

    /** `handleDeleteUser`: remove that user's row, then refetch (not awaited); an error raises an alert. */
    method HandleDeleteUser(users: UsersTable, userId: string, refusal: Option<DbError>, refetchFails: bool)
      requires users.Valid()
      modifies this, users
      ensures users.Valid() && roleFilter == old(roleFilter) && reg == old(reg) && modalOpen == old(modalOpen)
      ensures refusal.None? ==>
        users.rows == WithoutId(old(users.rows), userId)
        && shown == (if refetchFails then old(shown) else FetchUsers(users.rows, roleFilter))
        && alert == old(alert) && regError == old(regError)
      ensures refusal.Some? ==>
        users.rows == old(users.rows) && alert == Some("Error deleting user: " + refusal.value.message)
        && shown == old(shown) && regError == old(regError)
    {
      var err := users.Delete(userId, refusal);
      if err.Some? {
        alert := Some("Error deleting user: " + err.value.message);
      } else {
        Refresh(if refetchFails then None else Some(users.rows));
      }
    }
  }
}
