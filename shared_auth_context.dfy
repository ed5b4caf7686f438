/**
 * The shared `AuthProvider` (shared-utils): a simpler resolver with no fast
 * path, no timer and no unmount guard. Both the bootstrap and the listener
 * await a `.single()` role read before they clear `loading`; `signup` creates
 * the auth user and then the `users` row.
 */
module SharedAuthContext {
  import opened Common
  import opened AuthTypes
  import opened UsersStore

  /** Answer to `fetchUserRole`: a row (whose role column may be null), or an error. */
  datatype RoleReply = Row(role: Option<string>) | ReadError

  /** `pending` holds the user ids of the role reads that a handler is awaiting. */
  datatype State = State(user: Option<AuthUser>, role: Option<string>, loading: bool, pending: seq<string>)

  function Initial(): State {
    State(None, None, true, [])
  }

  /** `getSession()` answered: store the user, then await its role read or finish loading. */
  function Bootstrap(s: State, session: Option<AuthUser>): State {
    match session
      case Some(u) => s.(user := Some(u), pending := s.pending + [u.id])
      case None => s.(user := None, loading := false)
  }

  /** The auth listener: like the bootstrap, but an event without a user also clears the role. */
  function Listener(s: State, session: Option<AuthUser>): State {
    match session
      case Some(u) => s.(user := Some(u), pending := s.pending + [u.id])
      case None => s.(user := None, role := None, loading := false)
  }

  /** The awaited read `k` answers; its handler then clears `loading`. */
  function RoleAnswer(s: State, k: nat, reply: RoleReply): State
    requires k < |s.pending|
  {
    s.(role := if reply.Row? then reply.role else s.role,
       loading := false,
       pending := s.pending[..k] + s.pending[k + 1..])
  }

  /** The bootstrap stores the session user (or null); with a user, loading ends only with the role read. */
  lemma BootstrapSpec(s: State, session: Option<AuthUser>)
    ensures Bootstrap(s, session).user == session
    ensures session.Some? ==>
      Bootstrap(s, session).loading == s.loading && Bootstrap(s, session).pending == s.pending + [session.value.id]
    ensures session.None? ==> !Bootstrap(s, session).loading && Bootstrap(s, session).role == s.role
  {
  }

  /** A listener event without a user sets the role to null. */
  lemma ListenerWithoutUserClearsRole(s: State)
    ensures Listener(s, None).role.None? && Listener(s, None).user.None? && !Listener(s, None).loading
  {
  }

  /** A row sets the role to its role column; an error leaves the role; loading ends either way. */
  lemma RoleAnswerSpec(s: State, k: nat, reply: RoleReply)
    requires k < |s.pending|
    ensures reply.Row? ==> RoleAnswer(s, k, reply).role == reply.role
    ensures reply.ReadError? ==> RoleAnswer(s, k, reply).role == s.role
    ensures !RoleAnswer(s, k, reply).loading && RoleAnswer(s, k, reply).user == s.user
  {
  }

  class Provider {
    var user: Option<AuthUser>
    var role: Option<string>
    var loading: bool
    var pending: seq<string>

    ghost function Snapshot(): State
      reads this
    {
      State(user, role, loading, pending)
    }

    constructor ()
      ensures Snapshot() == Initial()
    {
      user, role, loading, pending := None, None, true, [];
    }

    method OnBootstrap(session: Option<AuthUser>)
      modifies this
      ensures Snapshot() == Bootstrap(old(Snapshot()), session)
    {
      user := session;
      if session.Some? {
        pending := pending + [session.value.id];
      } else {
        loading := false;
      }
    }

    method OnListener(session: Option<AuthUser>)
      modifies this
      ensures Snapshot() == Listener(old(Snapshot()), session)
    {
      user := session;
      if session.Some? {
        pending := pending + [session.value.id];
      } else {
        role := None;
        loading := false;
      }
    }

    method OnRoleAnswer(k: nat, reply: RoleReply)
      requires k < |pending|
      modifies this
      ensures Snapshot() == RoleAnswer(old(Snapshot()), k, reply)
    {
      if reply.Row? {
        role := reply.role;
      }
      loading := false;
      pending := pending[..k] + pending[k + 1..];
    }
  }

  /** The outcome of `signup`: the auth user it returns, or the error it raises. */
  datatype SignupResult = Created(user: Option<AuthUser>) | Raised(message: string)

  /**
   * `signup(email, password, role)`: an auth error is raised before anything is
   * inserted; with a new user, a `users` row with its id, its email and the
   * given role is inserted, and an insert error is raised.
   */
  method Signup(users: UsersTable, outcome: SignUpOutcome, role: string, refusal: Option<DbError>)
    returns (r: SignupResult)
    requires users.Valid()
    modifies users
    ensures users.Valid()
    ensures outcome.SignUpError? ==> r == Raised(outcome.message) && users.rows == old(users.rows)
    ensures outcome.SignedUpWithoutUser? ==> r == Created(None) && users.rows == old(users.rows)
    ensures outcome.SignedUp? ==>
      var row := UserRow(outcome.user.id, None, outcome.user.email, role);
      if HasId(old(users.rows), row.id) || refusal.Some? then r.Raised? && users.rows == old(users.rows)
      else r == Created(Some(outcome.user)) && users.rows == [row] + old(users.rows)
  {
    match outcome {
      case SignUpError(message) =>
        return Raised(message);
      case SignedUpWithoutUser =>
        return Created(None);
      case SignedUp(u) =>
        var err := users.Insert(UserRow(u.id, None, u.email, role), refusal);
        if err.Some? {
          return Raised(err.value.message);
        }
        return Created(Some(u));
    }
  }
}
