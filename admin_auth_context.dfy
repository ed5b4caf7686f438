/**
 * The admin app's `AuthProvider`: a role resolver driven by auth events,
 * database replies and timers.
 *
 * On an event that carries a user the role is taken at once from the session's
 * metadata claim or, failing that, from the `role_<id>` cache entry; the
 * authoritative read of the `users` table is issued every time, and awaited only
 * when no fast role was found. A reply with a record overwrites the role and the
 * cache entry; an error, a missing record or the 15 s timeout changes nothing.
 * An 8 s safety timer forces `loading` to false.
 *
 * Every asynchronous step is an event method of `Resolver`; the pure functions
 * below say what each event does to a `State`, and the lemmas state what the
 * resolver guarantees (and, in `StaleReplyOverwritesRole`, what it does not).
 */
module AdminAuthContext {
  import opened Common
  import opened AuthTypes

  /** Answer to the `users` role read, raced against the 15 s timeout. */
  datatype RoleReply = Found(role: string) | Missing | Failed | TimedOut

  datatype State = State(
    user: Option<AuthUser>,
    role: Option<string>,
    loading: bool,
    mounted: bool,          // the effect's `mounted` flag
    safetyArmed: bool,      // the 8 s safety timer is scheduled and not cleared
    cache: map<string, string>,   // localStorage
    pending: seq<PendingRead>)

  /** The localStorage key of a user's cached role. */
  function CacheKey(userId: string): (k: string)
    ensures |k| == |userId| + 5 && k[..5] == "role_" && k[5..] == userId
  {
    "role_" + userId
  }

  /** Distinct users never share a cache entry. */
  lemma CacheKeyInjective(a: string, b: string)
    requires CacheKey(a) == CacheKey(b)
    ensures a == b
  {
    assert a == CacheKey(a)[5..];
  }

  /** `metadataRole || cachedRole`, kept only when truthy. */
  function FastRole(u: AuthUser, cache: map<string, string>): (r: Option<string>)
  {
    if Truthy(u.metadataRole) then u.metadataRole
    else if CacheKey(u.id) in cache && cache[CacheKey(u.id)] != "" then Some(cache[CacheKey(u.id)])
    else None
  }

  /**
   * The fast-path role is the metadata claim when it is non-empty, otherwise the
   * non-empty cached role of that user, otherwise there is none.
   */
  lemma FastRoleSource(u: AuthUser, cache: map<string, string>)
    ensures Truthy(u.metadataRole) ==> FastRole(u, cache) == u.metadataRole
    ensures !Truthy(u.metadataRole) ==>
      FastRole(u, cache) == (if CacheKey(u.id) in cache && cache[CacheKey(u.id)] != "" then Some(cache[CacheKey(u.id)]) else None)
    ensures FastRole(u, cache).Some? ==> FastRole(u, cache).value != ""
  {
  }

  // ---------------------------------------------------------------------------
  // Transitions
  // ---------------------------------------------------------------------------

  function Initial(cache: map<string, string>): State {
    State(None, None, true, true, true, cache, [])
  }

  /** `handleAuthChange(event, session)` up to its first await. */
  function AuthEvent(s: State, session: Option<AuthUser>): State {
    if !s.mounted then s
    else match session
      case Some(u) =>
        var fast := FastRole(u, s.cache);
        s.(user := Some(u),
           role := if fast.Some? then fast else s.role,
           loading := if fast.Some? then false else s.loading,
           pending := s.pending + [PendingRead(u.id, fast.None?)])
      case None =>
        s.(user := None, role := None, loading := false)
  }

  /** `initSession()` once `getSession` has answered (or thrown). */
  function InitSession(s: State, r: InitResult): State {
    match r
      case WithSession(u) => if s.mounted then AuthEvent(s, Some(u)) else s
      case NoSession => if s.mounted then s.(loading := false) else s
      case InitFailed => if s.mounted then s.(loading := false) else s
  }

  /**
   * The reply to outstanding read `k`. The `mounted` that `fetchRoleFromDB`
   * tests is the copy taken when the read was issued, which was true, so the
   * cache is written even after unmount; the role update of an unmounted
   * component is discarded. When the issuing handler awaited the read, its
   * `finally` then clears `loading` if the provider is still mounted.
   */
  function DbReply(s: State, k: nat, reply: RoleReply): State
    requires k < |s.pending|
  {
    var read := s.pending[k];
    var answered := match reply
      case Found(r) =>
        s.(cache := s.cache[CacheKey(read.userId) := r],
           role := if s.mounted then Some(r) else s.role)
      case _ => s;
    answered.(pending := RemoveAt(s.pending, k),
              loading := if read.awaited && s.mounted then false else answered.loading)
  }

  /** The 8 s safety timer firing. Its closure sees the initial `loading`, which is true. */
  function SafetyTimeout(s: State): State {
    if !s.safetyArmed then s
    else s.(safetyArmed := false, loading := if s.mounted then false else s.loading)
  }

  /** The effect's cleanup: clear the flag and the timer, unsubscribe. */
  function Unmount(s: State): State {
    s.(mounted := false, safetyArmed := false)
  }

  /**
   * The timer is a guarantee that `loading` ends: while the provider is mounted
   * and still loading, the safety timer has not fired yet.
   */
  ghost predicate Valid(s: State) {
    (s.mounted && s.loading ==> s.safetyArmed) && (!s.mounted ==> !s.safetyArmed)
  }

  // ---------------------------------------------------------------------------
  // What the resolver guarantees
  // ---------------------------------------------------------------------------

  /** Every event keeps `Valid`. */
  lemma StepsKeepValid(s: State, session: Option<AuthUser>, r: InitResult, k: nat, reply: RoleReply)
    requires Valid(s)
    ensures Valid(Initial(map[]))
    ensures Valid(AuthEvent(s, session)) && Valid(InitSession(s, r))
    ensures k < |s.pending| ==> Valid(DbReply(s, k, reply))
    ensures Valid(SafetyTimeout(s)) && Valid(Unmount(s))
  {
  }

  /** `loading` never turns back to true. */
  lemma LoadingOnlyFalls(s: State, session: Option<AuthUser>, r: InitResult, k: nat, reply: RoleReply)
    requires !s.loading
    ensures !AuthEvent(s, session).loading && !InitSession(s, r).loading
    ensures k < |s.pending| ==> !DbReply(s, k, reply).loading
    ensures !SafetyTimeout(s).loading && !Unmount(s).loading
  {
  }

  /** At the latest when the safety timer fires, a mounted provider stops loading. */
  lemma SafetyTimerEndsLoading(s: State)
    requires Valid(s) && s.mounted
    ensures !SafetyTimeout(s).loading
    ensures s.loading ==> SafetyTimeout(s).loading != s.loading
  {
  }

  /**
   * With a fast role the role is set and the screen released before any reply;
   * the read is issued anyway, not awaited.
   */
  lemma FastPathReleasesScreen(s: State, u: AuthUser)
    requires s.mounted && FastRole(u, s.cache).Some?
    ensures var t := AuthEvent(s, Some(u));
      && t.user == Some(u) && t.role == FastRole(u, s.cache) && !t.loading
      && t.pending == s.pending + [PendingRead(u.id, false)]
      && t.cache == s.cache
  {
  }

  /** Without a fast role the role is untouched, loading continues and the issued read is awaited. */
  lemma SlowPathAwaitsRead(s: State, u: AuthUser)
    requires s.mounted && FastRole(u, s.cache).None?
    ensures var t := AuthEvent(s, Some(u));
      && t.user == Some(u) && t.role == s.role && t.loading == s.loading
      && t.pending == s.pending + [PendingRead(u.id, true)]
  {
  }

  /** An event without a user signs out: user and role become null and loading ends. */
  lemma SignedOutEventClears(s: State)
    requires s.mounted
    ensures var t := AuthEvent(s, None); t.user.None? && t.role.None? && !t.loading && t.pending == s.pending
  {
  }

  /** A reply with a record sets the role and writes that user's cache entry. */
  lemma FoundSetsRoleAndCache(s: State, k: nat, r: string)
    requires k < |s.pending| && s.mounted
    ensures var t := DbReply(s, k, Found(r));
      && t.role == Some(r)
      && t.cache == s.cache[CacheKey(s.pending[k].userId) := r]
      && t.pending == RemoveAt(s.pending, k)
  {
  }

  /** An error, a missing record or the timeout leaves role and cache as they were. */
  lemma FailureChangesNothing(s: State, k: nat, reply: RoleReply)
    requires k < |s.pending| && !reply.Found?
    ensures var t := DbReply(s, k, reply);
      && t.role == s.role && t.cache == s.cache && t.user == s.user
      && t.loading == (s.loading && !(s.pending[k].awaited && s.mounted))
  {
  }

  /** An awaited read ends loading whatever it answers, as the handler's `finally` runs. */
  lemma AwaitedReplyEndsLoading(s: State, k: nat, reply: RoleReply)
    requires k < |s.pending| && s.pending[k].awaited && s.mounted
    ensures !DbReply(s, k, reply).loading
  {
  }

  /** Without a session, or when the lookup fails, loading ends at once. */
  lemma InitWithoutSessionEndsLoading(s: State)
    requires s.mounted
    ensures !InitSession(s, NoSession).loading && !InitSession(s, InitFailed).loading
    ensures InitSession(s, NoSession).role == s.role && InitSession(s, NoSession).user == s.user
  {
  }

  /** After unmount, auth events and the initial lookup change nothing. */
  lemma EventsAfterUnmountIgnored(s: State, session: Option<AuthUser>, r: InitResult)
    requires !s.mounted
    ensures AuthEvent(s, session) == s && InitSession(s, r) == s && SafetyTimeout(s).loading == s.loading
  {
  }

  /**
   * A reply arriving after unmount changes no visible state, but it still
   * writes the cache: the by-value `mounted` does not stop it.
   */
  lemma ReplyAfterUnmountWritesCache(s: State, k: nat, r: string)
    requires !s.mounted && k < |s.pending|
    ensures var t := DbReply(s, k, Found(r));
      && t.user == s.user && t.role == s.role && t.loading == s.loading
      && t.cache == s.cache[CacheKey(s.pending[k].userId) := r]
  {
  }

  /**
   * Replies are not tied to the session that asked: a reply for an earlier user
   * that arrives after a sign-out sets a role while no user is signed in.
   */
  lemma StaleReplyOverwritesRole()
    ensures var u := AuthUser("u1", Some("a@x.io"), None);
      var t := DbReply(AuthEvent(AuthEvent(Initial(map[]), Some(u)), None), 0, Found("admin"));
      t.user.None? && t.role == Some("admin")
  {
    var u := AuthUser("u1", Some("a@x.io"), None);
    var s1 := AuthEvent(Initial(map[]), Some(u));
    assert FastRole(u, map[]).None?;
    assert s1.pending == [PendingRead("u1", true)];
  }

  // ---------------------------------------------------------------------------
  // Corrected reply handling
  // ---------------------------------------------------------------------------

  /** The signed-in user is the one a read was issued for. */
  predicate IsCurrentUser(s: State, userId: string) {
    s.user.Some? && s.user.value.id == userId
  }

  /**
   * The reply handling the resolver evidently intends: a reply is applied to
   * the role only if it answers the read for the user who is still signed in.
   */
  function DbReplyKeyed(s: State, k: nat, reply: RoleReply): (t: State)
    requires k < |s.pending|
  {
    var read := s.pending[k];
    if reply.Found? && !IsCurrentUser(s, read.userId) then
      s.(pending := RemoveAt(s.pending, k),
         loading := if read.awaited && s.mounted then false else s.loading)
    else DbReply(s, k, reply)
  }

  /**
   * No role without a user. (It does not say whose role it is: a role kept
   * from an earlier user survives a switch to a user with no fast role until
   * that user's read answers, with keyed replies as well.)
   */
  ghost predicate RoleOwned(s: State) {
    s.user.None? ==> s.role.None?
  }

  /** With keyed replies no step leaves a role behind once the user has signed out. */
  lemma KeyedStepsKeepRoleOwned(s: State, session: Option<AuthUser>, r: InitResult, k: nat, reply: RoleReply)
    requires RoleOwned(s)
    ensures RoleOwned(AuthEvent(s, session)) && RoleOwned(InitSession(s, r))
    ensures k < |s.pending| ==> RoleOwned(DbReplyKeyed(s, k, reply))
    ensures RoleOwned(SafetyTimeout(s)) && RoleOwned(Unmount(s))
  {
  }

  /** A keyed reply for the current user behaves exactly as the original; any other reply leaves role and cache alone. */
  lemma KeyedReplyForCurrentUser(s: State, k: nat, reply: RoleReply)
    requires k < |s.pending|
    ensures IsCurrentUser(s, s.pending[k].userId) ==> DbReplyKeyed(s, k, reply) == DbReply(s, k, reply)
    ensures !IsCurrentUser(s, s.pending[k].userId) ==>
      DbReplyKeyed(s, k, reply).role == s.role && DbReplyKeyed(s, k, reply).cache == s.cache
  {
  }

  // ---------------------------------------------------------------------------
  // The provider as a stateful object
  // ---------------------------------------------------------------------------

  class Resolver {
    var user: Option<AuthUser>
    var role: Option<string>
    var loading: bool
    var mounted: bool
    var safetyArmed: bool
    var cache: map<string, string>
    var pending: seq<PendingRead>

    ghost function Snapshot(): State
      reads this
    {
      State(user, role, loading, mounted, safetyArmed, cache, pending)
    }

    /** Mounting the provider; `storage` is what localStorage already holds. */
    constructor (storage: map<string, string>)
      ensures Snapshot() == Initial(storage) && Valid(Snapshot())
    {
      user, role, loading := None, None, true;
      mounted, safetyArmed := true, true;
      cache, pending := storage, [];
    }

    method OnAuthEvent(session: Option<AuthUser>)
      modifies this
      ensures Snapshot() == AuthEvent(old(Snapshot()), session)
    {
      if !mounted {
        return;
      }
      match session {
        case Some(u) =>
          user := Some(u);
          var metadataRole := u.metadataRole;
          var cachedRole := if CacheKey(u.id) in cache then Some(cache[CacheKey(u.id)]) else None;
          var initialRole := if Truthy(metadataRole) then metadataRole else cachedRole;
          if Truthy(initialRole) {
            role := initialRole;
            loading := false;
          }
          pending := pending + [PendingRead(u.id, !Truthy(initialRole))];
        case None =>
          user := None;
          role := None;
          loading := false;
      }
    }

    method OnInitSession(r: InitResult)
      modifies this
      ensures Snapshot() == InitSession(old(Snapshot()), r)
    {
      match r {
        case WithSession(u) =>
          if mounted {
            OnAuthEvent(Some(u));
          }
        case NoSession =>
          if mounted {
            loading := false;
          }
        case InitFailed =>
          if mounted {
            loading := false;
          }
      }
    }

    method OnDbReply(k: nat, reply: RoleReply)
      requires k < |pending|
      modifies this
      ensures Snapshot() == DbReply(old(Snapshot()), k, reply)
    {
      var read := pending[k];
      pending := RemoveAt(pending, k);
      match reply {
        case Found(r) =>
          if mounted {
            role := Some(r);
          }
          cache := cache[CacheKey(read.userId) := r];
        case _ =>
      }
      if read.awaited && mounted {
        loading := false;
      }
    }

    method OnSafetyTimeout()
      modifies this
      ensures Snapshot() == SafetyTimeout(old(Snapshot()))
    {
      if safetyArmed {
        safetyArmed := false;
        if mounted {
          loading := false;
        }
      }
    }

    method OnUnmount()
      modifies this
      ensures Snapshot() == Unmount(old(Snapshot()))
    {
      mounted := false;
      safetyArmed := false;
    }
  }
}
