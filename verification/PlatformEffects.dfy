/**
 What the units of work are for, said without them: which rows change and how,
 which fact is stored, and whether the session that a login issues can be used.
 */
module PlatformEffects {
  import opened Wrappers
  import opened PlatformTables

  // ---- Rows and facts ----

  /** Exactly these sessions are revoked, now and for this reason. */
  ghost predicate RevokedOnly(t: Tables, t': Tables, ids: set<Id>, now: Time, reason: string) {
    && ids <= t.sessions.Keys == t'.sessions.Keys
    && forall s :: s in t.sessions ==>
         t'.sessions[s] ==
           if s in ids then t.sessions[s].(revokedAt := Some(now), revokeReason := Some(reason)) else t.sessions[s]
  }

  /** The fact is stored under the id, which nothing else had, and no other fact is touched. */
  ghost predicate FactStored(t: Tables, t': Tables, id: Id, e: Event) {
    t'.audit == t.audit[id := e] && (id in t.audit ==> t.audit[id] == e)
  }

  ghost function LiveOf(t: Tables, user: Id): set<Id> {
    set s | s in t.sessions && t.sessions[s].userId == user && t.sessions[s].revokedAt == None
  }

  ghost predicate OnlyEnabledAdmin(t: Tables, user: Id) {
    && user in t.users && t.users[user].role == Admin && t.users[user].disabledAt == None
    && forall u :: u in t.users && u != user ==> t.users[u].role != Admin || t.users[u].disabledAt != None
  }

  lemma LastIsOnly(t: Tables, user: Id)
    ensures LastEnabledAdmin(t, user) <==> OnlyEnabledAdmin(t, user)
  {
    if LastEnabledAdmin(t, user) {
      assert user in EnabledAdmins(t);
      forall u | u in t.users && u != user ensures t.users[u].role != Admin || t.users[u].disabledAt != None {
        assert u !in EnabledAdmins(t);
      }
    }
  }

  // ---- Management mutations ----

  /** The target has the role, and of its row only the time of the change moved besides. */
  ghost predicate RoleChanged(t: Tables, a: Attempt, u: Id, r: Role, now: Time, id: Id, c: Commit) {
    && u in t.users
    && var was := t.users[u];
      var revoked := if was.role == r then {} else LiveOf(t, u);
      && c.done == Done(was.role != r, revoked)
      && c.after.users == t.users[u :=
           User(was.name, was.passwordHash, r, was.disabledAt, if was.role == r then was.updatedAt else now)]
      && RevokedOnly(t, c.after, revoked, now, "role_changed")
      && FactStored(t, c.after, id, Event(now, RoleChange, Succeeded, Some(a.actor), Some(a.id), Some(u),
           RolesAndCount(was.role, r, |revoked|), None))
  }

  lemma ChangeRoleEffect(t: Tables, a: Attempt, u: Id, r: Role, now: Time, id: Id)
    requires a.op == ChangeRole(u, r)
    ensures match MutationTx(t, a, now, id)
      case Success(c) => RoleChanged(t, a, u, r, now, id, c)
      case Failure(UserNotFound) => u !in t.users
      case Failure(LastAdminProtected) => OnlyEnabledAdmin(t, u) && r != Admin
      case Failure(AuditConflict) => u in t.users && id in t.audit && !(OnlyEnabledAdmin(t, u) && r != Admin)
      case Failure(_) => false
  {
    LastIsOnly(t, u);
    if u in t.users {
      assert LiveSessionsOf(t, u) == LiveOf(t, u);
      assert t.users[u].role == r ==> t.users == t.users[u := t.users[u]];
    }
  }

  /** The target is disabled or enabled as asked, and only that. */
  ghost predicate DisabledSet(t: Tables, a: Attempt, u: Id, d: bool, now: Time, id: Id, c: Commit) {
    && u in t.users
    && var was := t.users[u];
      var moves := (was.disabledAt != None) != d;
      var revoked := if moves && d then LiveOf(t, u) else {};
      && c.done == Done(moves, revoked)
      && c.after.users == t.users[u :=
           if moves then User(was.name, was.passwordHash, was.role, if d then Some(now) else None, now) else was]
      && RevokedOnly(t, c.after, revoked, now, "user_disabled")
      && FactStored(t, c.after, id, Event(now, if d then Disable else Enable, Succeeded, Some(a.actor), Some(a.id),
           Some(u), Count(|revoked|), None))
  }

  lemma SetDisabledEffect(t: Tables, a: Attempt, u: Id, d: bool, now: Time, id: Id)
    requires a.op == SetDisabled(u, d)
    ensures match MutationTx(t, a, now, id)
      case Success(c) => DisabledSet(t, a, u, d, now, id, c)
      case Failure(UserNotFound) => u !in t.users
      case Failure(LastAdminProtected) => OnlyEnabledAdmin(t, u) && d
      case Failure(AuditConflict) => u in t.users && id in t.audit && !(OnlyEnabledAdmin(t, u) && d)
      case Failure(_) => false
  {
    LastIsOnly(t, u);
    if u in t.users {
      assert LiveSessionsOf(t, u) == LiveOf(t, u);
      assert t.users == t.users[u := t.users[u]];
    }
  }

  /** The session is revoked if it was not yet, and only that. */
  ghost predicate SessionRevoked(t: Tables, a: Attempt, s: Id, reason: string, now: Time, id: Id, c: Commit) {
    && s in t.sessions
    && var revoked := if t.sessions[s].revokedAt == None then {s} else {};
      && c.done == Done(revoked != {}, revoked)
      && c.after.users == t.users
      && RevokedOnly(t, c.after, revoked, now, reason)
      && FactStored(t, c.after, id, Event(now, SessionRevoke, Succeeded, Some(a.actor), Some(a.id), Some(s),
           UserAndReason(t.sessions[s].userId, reason), None))
  }

  lemma RevokeSessionEffect(t: Tables, a: Attempt, s: Id, reason: string, now: Time, id: Id)
    requires a.op == RevokeSession(s, reason)
    ensures match MutationTx(t, a, now, id)
      case Success(c) => SessionRevoked(t, a, s, reason, now, id, c)
      case Failure(SessionNotFound) => s !in t.sessions
      case Failure(AuditConflict) => s in t.sessions && id in t.audit
      case Failure(_) => false
  {
  }

  /** What a committed mutation has done, whichever it is. */
  ghost predicate Mutated(t: Tables, a: Attempt, now: Time, id: Id, c: Commit) {
    match a.op
    case ChangeRole(u, r) => RoleChanged(t, a, u, r, now, id, c)
    case SetDisabled(u, d) => DisabledSet(t, a, u, d, now, id, c)
    case RevokeSession(s, reason) => SessionRevoked(t, a, s, reason, now, id, c)
  }

  lemma MutationEffect(t: Tables, a: Attempt, now: Time, id: Id)
    ensures MutationTx(t, a, now, id).Success? ==> Mutated(t, a, now, id, MutationTx(t, a, now, id).value)
  {
    hide MutationTx, RoleChanged, DisabledSet, SessionRevoked;
    match a.op
    case ChangeRole(u, r) => ChangeRoleEffect(t, a, u, r, now, id);
    case SetDisabled(u, d) => SetDisabledEffect(t, a, u, d, now, id);
    case RevokeSession(s, reason) => RevokeSessionEffect(t, a, s, reason, now, id);
  }

  // ---- Before and around a mutation ----

  /** Nothing is left to be done. */
  ghost predicate AlreadySo(t: Tables, op: Op) {
    match op
    case ChangeRole(u, r) => u in t.users && t.users[u].role == r
    case SetDisabled(u, d) => u in t.users && (t.users[u].disabledAt != None) == d
    case RevokeSession(s, _) => s in t.sessions && t.sessions[s].revokedAt != None
  }

  /** The preflight finds a missing target, nothing to do, or what there is to say about the change. */
  lemma PreflightEffect(t: Tables, op: Op)
    ensures match Preflight(t, op)
      case Failure(UserNotFound) => (op.ChangeRole? || op.SetDisabled?) && op.user !in t.users
      case Failure(SessionNotFound) => op.RevokeSession? && op.session !in t.sessions
      case Failure(_) => false
      case Success(None) => AlreadySo(t, op)
      case Success(Some(detail)) =>
        && !AlreadySo(t, op)
        && match op
           case ChangeRole(u, r) => u in t.users && detail == Roles(t.users[u].role, r)
           case SetDisabled(u, d) => u in t.users && detail == NoDetail
           case RevokeSession(s, reason) =>
             s in t.sessions && detail == UserAndReason(t.sessions[s].userId, reason)
  {
  }

  /** The facts around a mutation name its actor, its kind and its target; a failure says what failed. */
  lemma AttemptFacts(a: Attempt, at: Time, e: Error)
    ensures var f, g := a.AttemptedFact(at), a.FailedFact(at, e);
      && f.outcome == Attempted && f.error == None && g.error == Some(e)
      && (g.outcome == Rejected <==>
            e in {UserNotFound, SessionNotFound, LastAdminProtected, Forbidden, SelfManagement})
      && (g.outcome == Rejected || g.outcome == Errored)
      && forall x :: x in {f, g} ==>
           && x.at == at && x.actor == Some(a.actor) && x.correlation == Some(a.id) && x.detail == a.detail
           && match a.op
              case ChangeRole(u, _) => x.action == RoleChange && x.target == Some(u)
              case SetDisabled(u, d) => x.action == (if d then Disable else Enable) && x.target == Some(u)
              case RevokeSession(s, _) => x.action == SessionRevoke && x.target == Some(s)
  {
  }

  // ---- Sessions ----

  /** Which session is good for whom, when. */
  lemma CurrentUserExactly(t: Tables, session: Option<Id>, now: Time, who: Principal)
    ensures CurrentUser(t, session, now) == Success(who) <==>
      && session == Some(who.sessionId) && who.sessionId in t.sessions && who.userId in t.users
      && var s := t.sessions[who.sessionId];
        && s.userId == who.userId && s.revokedAt == None && now < s.expiresAt
        && t.users[who.userId].disabledAt == None && t.users[who.userId].role == who.role
    ensures CurrentUser(t, session, now).Failure? ==> CurrentUser(t, session, now) == Failure(InvalidSession)
  {
  }

  /** The session is good for this principal from `now` until its time is over, and not after. */
  ghost predicate Usable(t: Tables, issue: Issue, who: Principal, now: Time) {
    && issue.session in t.sessions && t.sessions[issue.session].digest == issue.digest
    && who.sessionId == issue.session
    && forall at :: now <= at ==>
         CurrentUser(t, Some(issue.session), at) ==
           if at < now + issue.ttl then Success(who) else Failure(InvalidSession)
  }

  /** A login that succeeds adds one session, good for the user it is about, and changes no other. */
  ghost predicate LoggedIn(
    t: Tables, t': Tables, u: Id, v: Verification, now: Time, issue: Issue, id: Id, who: Principal)
  {
    && u in t.users && v.Match? && t.users[u].disabledAt == None
    && who == Principal(u, t.users[u].role, issue.session)
    && issue.session !in t.sessions && t'.sessions.Keys == t.sessions.Keys + {issue.session}
    && (forall s :: s in t.sessions ==> t'.sessions[s] == t.sessions[s])
    && t'.sessions[issue.session].createdAt == now
    && Usable(t', issue, who, now)
    && (forall x :: x in t.users && x != u ==> x in t'.users && t'.users[x] == t.users[x])
    && t'.users.Keys == t.users.Keys
    && t'.users[u] == (if v.updatedHash.None? then t.users[u]
         else User(t.users[u].name, v.updatedHash.value, t.users[u].role, None, now))
    && id !in t.audit
    && FactStored(t, t', id, Event(now, Login, Succeeded, Some(who), None, None, NoDetail, None))
  }

  lemma LoginEffect(t: Tables, user: Option<Id>, v: Verification, now: Time, issue: Issue, id: Id)
    requires user.Some? ==> user.value in t.users
    ensures var unit := LoginTx(t, user, v, now, issue, id);
      match unit.result
      case Success(who) => user.Some? && LoggedIn(t, unit.after, user.value, v, now, issue, id, who)
      case Failure(InvalidCredentials) =>
        && (user.None? || v.NoMatch? || (v.Match? && t.users[user.value].disabledAt != None))
        && id !in t.audit && unit.after.users == t.users && unit.after.sessions == t.sessions
        && FactStored(t, unit.after, id, Event(now, Login, Rejected, None, None, None, NoDetail, None))
      case Failure(CredentialStoreInvalid) => user.Some? && v.Unusable? && unit.after == t
      case Failure(AuditPersistenceFailure) => id in t.audit && unit.after == t
      case Failure(DatabaseUnavailable) => issue.session in t.sessions && unit.after == t
      case Failure(_) => false
  {
  }

  /** A logout or internal revoke ends exactly its session, in the name of the user it was good for. */
  ghost predicate Ended(
    t: Tables, t': Tables, session: Option<Id>, now: Time, reason: string, kind: Action, id: Id)
  {
    && session.Some? && CurrentUser(t, session, now).Success? && id !in t.audit
    && t'.users == t.users && RevokedOnly(t, t', {session.value}, now, reason)
    && FactStored(t, t', id,
         Event(now, kind, Succeeded, Some(CurrentUser(t, session, now).value), None, None, NoDetail, None))
  }

  lemma LogoutEffect(t: Tables, session: Option<Id>, now: Time, id: Id)
    ensures var unit := LogoutTx(t, session, now, id);
      match unit.result
      case Success(done) => done && Ended(t, unit.after, session, now, "logout", Logout, id)
      case Failure(InvalidSession) => unit.after == t && CurrentUser(t, session, now).Failure?
      case Failure(AuditPersistenceFailure) => unit.after == t && id in t.audit
      case Failure(_) => false
  {
  }

  lemma RevokeEffect(t: Tables, session: Id, reason: string, now: Time, id: Id)
    ensures var unit := InternalRevokeTx(t, session, reason, now, id);
      match unit.result
      case Success(true) => Ended(t, unit.after, Some(session), now, reason, SessionRevoke, id)
      case Success(false) => unit.after == t && (session in t.sessions ==> t.sessions[session].revokedAt != None)
      case Failure(InvalidSession) => unit.after == t && CurrentUser(t, Some(session), now).Failure?
      case Failure(AuditPersistenceFailure) => unit.after == t && id in t.audit
      case Failure(_) => false
  {
  }

  /** Once ended, a session is good for nobody at any time. */
  lemma EndedForGood(
    t: Tables, t': Tables, session: Option<Id>, now: Time, reason: string, kind: Action, id: Id, at: Time)
    requires Ended(t, t', session, now, reason, kind, id)
    ensures CurrentUser(t', session, at) == Failure(InvalidSession)
  {
  }
}
