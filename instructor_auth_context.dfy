/**
 * The instructor app's `AuthProvider`: the same event-driven resolver as the
 * admin app's, with a fast path that uses only the session's metadata claim,
 * no role cache, and a `.single()` read without a timeout (a missing row is an
 * error there).
 */
module InstructorAuthContext {
  import opened Common
  import opened AuthTypes

  /** Answer to the `.single()` role read: a row, or an error (including "no row"). */
  datatype RoleReply = Row(role: string) | ReadError

  datatype State = State(
    user: Option<AuthUser>,
    role: Option<string>,
    loading: bool,
    mounted: bool,
    safetyArmed: bool,
    pending: seq<PendingRead>)

  /** The fast-path role: the metadata claim when truthy. */
  function FastRole(u: AuthUser): (r: Option<string>)
    ensures r.Some? <==> Truthy(u.metadataRole)
    ensures r.Some? ==> r == u.metadataRole && r.value != ""
  {
    if Truthy(u.metadataRole) then u.metadataRole else None
  }

  function Initial(): State {
    State(None, None, true, true, true, [])
  }

  /** `handleAuthChange(event, session)` up to its first await. */
  function AuthEvent(s: State, session: Option<AuthUser>): State {
    if !s.mounted then s
    else match session
      case Some(u) =>
        var fast := FastRole(u);
        s.(user := Some(u),
           role := if fast.Some? then fast else s.role,
           loading := if fast.Some? then false else s.loading,
           pending := s.pending + [PendingRead(u.id, fast.None?)])
      case None =>
        s.(user := None, role := None, loading := false)
  }

  function InitSession(s: State, r: InitResult): State {
    match r
      case WithSession(u) => if s.mounted then AuthEvent(s, Some(u)) else s
      case NoSession => if s.mounted then s.(loading := false) else s
      case InitFailed => if s.mounted then s.(loading := false) else s
  }

  /**
   * The reply to outstanding read `k`. As in the admin app the `mounted` tested
   * is the copy taken when the read was issued; after unmount the role update is
   * discarded.
   */
  function DbReply(s: State, k: nat, reply: RoleReply): State
    requires k < |s.pending|
  {
    var read := s.pending[k];
    var answered := match reply
      case Row(r) => s.(role := if s.mounted then Some(r) else s.role)
      case ReadError => s;
    answered.(pending := RemoveAt(s.pending, k),
              loading := if read.awaited && s.mounted then false else answered.loading)
  }

  function SafetyTimeout(s: State): State {
    if !s.safetyArmed then s
    else s.(safetyArmed := false, loading := if s.mounted then false else s.loading)
  }

  function Unmount(s: State): State {
    s.(mounted := false, safetyArmed := false)
  }

  ghost predicate Valid(s: State) {
    (s.mounted && s.loading ==> s.safetyArmed) && (!s.mounted ==> !s.safetyArmed)
  }

  /** Every event keeps `Valid`, so the safety timer is pending while a mounted provider loads. */
  lemma StepsKeepValid(s: State, session: Option<AuthUser>, r: InitResult, k: nat, reply: RoleReply)
    requires Valid(s)
    ensures Valid(Initial())
    ensures Valid(AuthEvent(s, session)) && Valid(InitSession(s, r))
    ensures k < |s.pending| ==> Valid(DbReply(s, k, reply))
    ensures Valid(SafetyTimeout(s)) && Valid(Unmount(s))
    ensures s.mounted ==> !SafetyTimeout(s).loading
  {
  }

  /** The fast path reads the metadata claim only: the role is set and loading ends, the read is issued but not awaited. */
  lemma MetadataFastPath(s: State, u: AuthUser)
    requires s.mounted
    ensures var t := AuthEvent(s, Some(u));
      && t.user == Some(u)
      && (Truthy(u.metadataRole) ==> t.role == u.metadataRole && !t.loading)
      && (!Truthy(u.metadataRole) ==> t.role == s.role && t.loading == s.loading)
      && t.pending == s.pending + [PendingRead(u.id, !Truthy(u.metadataRole))]
  {
  }

  /** A row sets the role; an error, including a missing row, leaves it unchanged. */
  lemma ReplyEffect(s: State, k: nat, reply: RoleReply)
    requires k < |s.pending| && s.mounted
    ensures var t := DbReply(s, k, reply);
      && (reply.Row? ==> t.role == Some(reply.role))
      && (reply.ReadError? ==> t.role == s.role)
      && t.user == s.user
      && (s.pending[k].awaited ==> !t.loading)
  {
  }

  /** An event without a user clears user and role and ends loading. */
  lemma SignedOutEventClears(s: State)
    requires s.mounted
    ensures var t := AuthEvent(s, None); t.user.None? && t.role.None? && !t.loading
  {
  }

  /** Without a session or on a lookup error, loading ends. */
  lemma InitWithoutSessionEndsLoading(s: State)
    requires s.mounted
    ensures !InitSession(s, NoSession).loading && !InitSession(s, InitFailed).loading
  {
  }

  /** Events after unmount are ignored. */
  lemma EventsAfterUnmountIgnored(s: State, session: Option<AuthUser>, r: InitResult, k: nat, reply: RoleReply)
    requires !s.mounted
    ensures AuthEvent(s, session) == s && InitSession(s, r) == s
    ensures k < |s.pending| ==> DbReply(s, k, reply) == s.(pending := RemoveAt(s.pending, k))
  {
  }

  class Resolver {
    var user: Option<AuthUser>
    var role: Option<string>
    var loading: bool
    var mounted: bool
    var safetyArmed: bool
    var pending: seq<PendingRead>

    ghost function Snapshot(): State
      reads this
    {
      State(user, role, loading, mounted, safetyArmed, pending)
    }

    constructor ()
      ensures Snapshot() == Initial()
    {
      user, role, loading := None, None, true;
      mounted, safetyArmed, pending := true, true, [];
    }

    method OnAuthEvent(session: Option<AuthUser>)
      modifies this
      ensures Snapshot() == AuthEvent(old(Snapshot()), session)
    {
      if !mounted {
        return;
      }
      match session {
        case Some(u) =>
          user := Some(u);
          var metadataRole := u.metadataRole;
          if Truthy(metadataRole) {
            role := metadataRole;
            loading := false;
          }
          pending := pending + [PendingRead(u.id, !Truthy(metadataRole))];
        case None =>
          user := None;
          role := None;
          loading := false;
      }
    }

    method OnInitSession(r: InitResult)
      modifies this
      ensures Snapshot() == InitSession(old(Snapshot()), r)
    {
      match r {
        case WithSession(u) =>
          if mounted {
            OnAuthEvent(Some(u));
          }
        case NoSession =>
          if mounted {
            loading := false;
          }
        case InitFailed =>
          if mounted {
            loading := false;
          }
      }
    }

    method OnDbReply(k: nat, reply: RoleReply)
      requires k < |pending|
      modifies this
      ensures Snapshot() == DbReply(old(Snapshot()), k, reply)
    {
      var read := pending[k];
      pending := RemoveAt(pending, k);
      if reply.Row? && mounted {
        role := Some(reply.role);
      }
      if read.awaited && mounted {
        loading := false;
      }
    }

    method OnSafetyTimeout()
      modifies this
      ensures Snapshot() == SafetyTimeout(old(Snapshot()))
    {
      if safetyArmed {
        safetyArmed := false;
        if mounted {
          loading := false;
        }
      }
    }

    method OnUnmount()
      modifies this
      ensures Snapshot() == Unmount(old(Snapshot()))
    {
      mounted, safetyArmed := false, false;
    }
  }
}
