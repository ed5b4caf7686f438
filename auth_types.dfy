/**
 * Values shared by the three role resolvers: the signed-in user as the auth
 * service reports it, the outcome of the initial session lookup, and a role
 * read that has been issued and not yet answered.
 */
module AuthTypes {
  import opened Common

  /** `session.user`: its id, its email and the `role` claim of its user metadata. */
  datatype AuthUser = AuthUser(id: string, email: Option<string>, metadataRole: Option<string>)

  /** What `auth.getSession()` produced when the provider mounted. */
  datatype InitResult = NoSession | WithSession(user: AuthUser) | InitFailed

  /**
   * A role read against the `users` table that is still outstanding: whose id
   * it asked for, and whether the event handler that issued it is waiting for it.
   */
  datatype PendingRead = PendingRead(userId: string, awaited: bool)

  /**
   * The role gate of a protected page: once auth has loaded, anyone who is not
   * signed in with the `required` role is sent to `/login`.
   */
  function RoleGate(loading: bool, user: Option<AuthUser>, role: Option<string>, required: string): (nav: Option<string>)
    ensures nav.Some? <==> !loading && (user.None? || role != Some(required))
    ensures nav.Some? ==> nav.value == "/login"
  {
    if !loading && (user.None? || role != Some(required)) then Some("/login") else None
  }

  /** What `auth.signUp` answered: an error, no user (e.g. confirmation pending), or the new user. */
  datatype SignUpOutcome = SignUpError(message: string) | SignedUpWithoutUser | SignedUp(user: AuthUser)

  /** The outstanding reads without the one at index `k`. */
  function RemoveAt(pending: seq<PendingRead>, k: nat): (rest: seq<PendingRead>)
    requires k < |pending|
    ensures |rest| == |pending| - 1
    ensures forall p :: p in rest ==> p in pending
    ensures forall i :: 0 <= i < k ==> rest[i] == pending[i]
    ensures forall i :: k <= i < |rest| ==> rest[i] == pending[i + 1]
  {
    pending[..k] + pending[k + 1..]
  }
}
