/**
 The platform database as a value, and what each unit of work does to it: the
 tables it would commit, or the error with which it leaves them alone.
 */
module PlatformTables {
  import opened Wrappers

  type Id = string
  type Time = int

  datatype Role = Admin | Operator | Viewer

  datatype User = User(name: string, passwordHash: string, role: Role, disabledAt: Option<Time>, updatedAt: Time) {
    predicate Enabled() { disabledAt.None? }
  }

  datatype Session = Session(
    userId: Id, digest: string, createdAt: Time, expiresAt: Time,
    revokedAt: Option<Time>, revokeReason: Option<string>)
  {
    predicate Live() { revokedAt.None? }
  }

  datatype Action = Login | Logout | SessionRevoke | RoleChange | Disable | Enable
  datatype Outcome = Attempted | Succeeded | Rejected | Errored

  /** A server-resolved identity; it may be stale by the time it is used. */
  datatype Principal = Principal(userId: Id, role: Role, sessionId: Id)

  datatype Event = Event(
    at: Time, action: Action, outcome: Outcome,
    actor: Option<Principal>, correlation: Option<Id>, target: Option<Id>,
    detail: Detail, error: Option<Error>)

  /** The parameters of an audit fact. */
  datatype Detail =
    | NoDetail
    | Roles(was: Role, now: Role)
    | RolesAndCount(was: Role, now: Role, revokedCount: nat)
    | Count(revokedCount: nat)
    | UserAndReason(user: Id, reason: string)

  datatype Error =
    | Forbidden
    | SelfManagement
    | UserNotFound
    | SessionNotFound
    | LastAdminProtected
    | DatabaseUnavailable
    | AuditUnavailable
    | AuditConflict
    | InvalidSession
    | InvalidCredentials
    | CredentialStoreInvalid
    | AuditPersistenceFailure
    | LoginThrottled(retryAfter: int)

  datatype Tables = Tables(users: map<Id, User>, sessions: map<Id, Session>, audit: map<Id, Event>)

  // ---- Single-table operations ----

  function EnabledAdmins(t: Tables): set<Id> {
    set u | u in t.users && t.users[u].role == Admin && t.users[u].Enabled()
  }

  function LiveSessionsOf(t: Tables, user: Id): set<Id> {
    set s | s in t.sessions && t.sessions[s].userId == user && t.sessions[s].Live()
  }

  function RevokeSessions(t: Tables, ids: set<Id>, now: Time, reason: string): Tables {
    t.(sessions := map s | s in t.sessions ::
      if s in ids then t.sessions[s].(revokedAt := Some(now), revokeReason := Some(reason)) else t.sessions[s])
  }

  /** An insert that does nothing when the id is taken. */
  function Insert(t: Tables, id: Id, e: Event): Tables {
    if id in t.audit then t else t.(audit := t.audit[id := e])
  }

  // ---- Management requests ----

  datatype Op =
    | ChangeRole(user: Id, role: Role)
    | SetDisabled(user: Id, disabled: bool)
    | RevokeSession(session: Id, reason: string)
  {
    function Target(): Id {
      if RevokeSession? then session else user
    }

    function Kind(): Action {
      match this
      case ChangeRole(_, _) => RoleChange
      case SetDisabled(_, disabled) => if disabled then Disable else Enable
      case RevokeSession(_, _) => SessionRevoke
    }
  }

  /** A management request whose attempted fact, with `detail`, is committed under `id`. */
  datatype Attempt = Attempt(id: Id, actor: Principal, op: Op, detail: Detail) {
    function Fact(at: Time, outcome: Outcome, detail: Detail, error: Option<Error>): Event {
      Event(at, op.Kind(), outcome, Some(actor), Some(id), Some(op.Target()), detail, error)
    }

    function AttemptedFact(at: Time): Event {
      Fact(at, Attempted, detail, None)
    }

    function FailedFact(at: Time, error: Error): Event {
      Fact(at, FailureOutcome(error), detail, Some(error))
    }
  }

  /** What a committed management unit reports. */
  datatype Done = Done(changed: bool, revoked: set<Id>)

  datatype Commit = Commit(after: Tables, done: Done)

  function AppendFact(t: Tables, id: Id, e: Event): Result<Tables, Error> {
    if id in t.audit && t.audit[id] != e then Failure(AuditConflict) else Success(Insert(t, id, e))
  }

  function Finish(t: Tables, a: Attempt, now: Time, eventId: Id, done: Done, detail: Detail): Result<Commit, Error> {
    var t' :- AppendFact(t, eventId, a.Fact(now, Succeeded, detail, None));
    Success(Commit(t', done))
  }

  predicate LastEnabledAdmin(t: Tables, user: Id) {
    EnabledAdmins(t) == {user}
  }

  function ChangeRoleTx(t: Tables, a: Attempt, user: Id, role: Role, now: Time, eventId: Id): Result<Commit, Error> {
    if user !in t.users then Failure(UserNotFound)
    else if t.users[user].role == role then Finish(t, a, now, eventId, Done(false, {}), RolesAndCount(role, role, 0))
    else if LastEnabledAdmin(t, user) then Failure(LastAdminProtected)
    else
      var revoked := LiveSessionsOf(t, user);
      var t1 := t.(users := t.users[user := t.users[user].(role := role, updatedAt := now)]);
      Finish(RevokeSessions(t1, revoked, now, "role_changed"), a, now, eventId, Done(true, revoked),
        RolesAndCount(t.users[user].role, role, |revoked|))
  }

  function SetDisabledTx(t: Tables, a: Attempt, user: Id, disabled: bool, now: Time, eventId: Id):
    Result<Commit, Error>
  {
    if user !in t.users then Failure(UserNotFound)
    else if t.users[user].Enabled() != disabled then Finish(t, a, now, eventId, Done(false, {}), Count(0))
    else if disabled && LastEnabledAdmin(t, user) then Failure(LastAdminProtected)
    else
      var at := if disabled then Some(now) else None;
      var t1 := t.(users := t.users[user := t.users[user].(disabledAt := at, updatedAt := now)]);
      var revoked := if disabled then LiveSessionsOf(t, user) else {};
      Finish(RevokeSessions(t1, revoked, now, "user_disabled"), a, now, eventId, Done(true, revoked), Count(|revoked|))
  }

  function RevokeSessionTx(t: Tables, a: Attempt, session: Id, reason: string, now: Time, eventId: Id):
    Result<Commit, Error>
  {
    if session !in t.sessions then Failure(SessionNotFound)
    else
      var detail := UserAndReason(t.sessions[session].userId, reason);
      if !t.sessions[session].Live() then Finish(t, a, now, eventId, Done(false, {}), detail)
      else Finish(RevokeSessions(t, {session}, now, reason), a, now, eventId, Done(true, {session}), detail)
  }

  function MutationTx(t: Tables, a: Attempt, now: Time, eventId: Id): Result<Commit, Error> {
    match a.op
    case ChangeRole(u, r) => ChangeRoleTx(t, a, u, r, now, eventId)
    case SetDisabled(u, d) => SetDisabledTx(t, a, u, d, now, eventId)
    case RevokeSession(s, reason) => RevokeSessionTx(t, a, s, reason, now, eventId)
  }

  /** The preflight read: an error, nothing to do, or the detail the attempted fact will carry. */
  function Preflight(t: Tables, op: Op): Result<Option<Detail>, Error> {
    match op
    case ChangeRole(u, r) =>
      if u !in t.users then Failure(UserNotFound)
      else Success(if t.users[u].role == r then None else Some(Roles(t.users[u].role, r)))
    case SetDisabled(u, d) =>
      if u !in t.users then Failure(UserNotFound)
      else Success(if t.users[u].Enabled() != d then None else Some(NoDetail))
    case RevokeSession(s, reason) =>
      if s !in t.sessions then Failure(SessionNotFound)
      else Success(if t.sessions[s].Live() then Some(UserAndReason(t.sessions[s].userId, reason)) else None)
  }

  /** How a failed request is recorded: refused by a rule, or broken. */
  function FailureOutcome(e: Error): Outcome {
    if e in {UserNotFound, SessionNotFound, LastAdminProtected, Forbidden, SelfManagement} then Rejected else Errored
  }

  // ---- Sessions ----

  /** What password verification said: no match, an unusable stored hash, or a match. */
  datatype Verification = NoMatch | Unusable | Match(updatedHash: Option<string>)

  datatype Issue = Issue(session: Id, digest: string, ttl: int)

  /** A session unit's tables on commit (unchanged without one) and what its caller sees. */
  datatype Unit<+T> = Unit(after: Tables, result: Result<T, Error>)

  function LoginFact(now: Time, who: Principal): Event {
    Event(now, Login, Succeeded, Some(who), None, None, NoDetail, None)
  }

  function RejectTx(t: Tables, now: Time, eventId: Id): Unit<Principal> {
    if eventId in t.audit then Unit(t, Failure(AuditPersistenceFailure))
    else Unit(Insert(t, eventId, Event(now, Login, Rejected, None, None, None, NoDetail, None)),
      Failure(InvalidCredentials))
  }

  function LoginTx(t: Tables, user: Option<Id>, v: Verification, now: Time, issue: Issue, eventId: Id): Unit<Principal>
    requires user.Some? ==> user.value in t.users
  {
    if user.None? then RejectTx(t, now, eventId)
    else if v.Unusable? then Unit(t, Failure(CredentialStoreInvalid))
    else if v.NoMatch? || !t.users[user.value].Enabled() then RejectTx(t, now, eventId)
    else if issue.session in t.sessions || eventId in t.audit then
      Unit(t, Failure(if issue.session in t.sessions then DatabaseUnavailable else AuditPersistenceFailure))
    else
      var u := t.users[user.value];
      var u' := if v.updatedHash.Some? then u.(passwordHash := v.updatedHash.value, updatedAt := now) else u;
      var who := Principal(user.value, u.role, issue.session);
      var s := Session(user.value, issue.digest, now, now + issue.ttl, None, None);
      var t' := Tables(t.users[user.value := u'], t.sessions[issue.session := s], t.audit);
      Unit(Insert(t', eventId, LoginFact(now, who)), Success(who))
  }

  /** The user a live, unexpired session of an enabled user stands for. */
  function CurrentUser(t: Tables, session: Option<Id>, now: Time): Result<Principal, Error> {
    if session.None? || session.value !in t.sessions then Failure(InvalidSession)
    else
      var s := t.sessions[session.value];
      if !s.Live() || s.expiresAt <= now || s.userId !in t.users || !t.users[s.userId].Enabled()
      then Failure(InvalidSession)
      else Success(Principal(s.userId, t.users[s.userId].role, session.value))
  }

  function EndSessionTx(t: Tables, session: Option<Id>, now: Time, reason: string, kind: Action, eventId: Id):
    Unit<bool>
  {
    var who := CurrentUser(t, session, now);
    if who.Failure? then Unit(t, Failure(who.error))
    else if eventId in t.audit then Unit(t, Failure(AuditPersistenceFailure))
    else
      var t' := RevokeSessions(t, {session.value}, now, reason);
      Unit(Insert(t', eventId, Event(now, kind, Succeeded, Some(who.value), None, None, NoDetail, None)), Success(true))
  }

  function LogoutTx(t: Tables, session: Option<Id>, now: Time, eventId: Id): Unit<bool> {
    EndSessionTx(t, session, now, "logout", Logout, eventId)
  }

  /** The internal revoke: a missing or already revoked session is not an error. */
  function InternalRevokeTx(t: Tables, session: Id, reason: string, now: Time, eventId: Id): Unit<bool> {
    if session !in t.sessions || !t.sessions[session].Live() then Unit(t, Success(false))
    else EndSessionTx(t, Some(session), now, reason, SessionRevoke, eventId)
  }
}
