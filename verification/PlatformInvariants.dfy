/** What each unit of work keeps of the database, one unit at a time. */
module PlatformInvariants {
  import opened Wrappers
  import opened PlatformTables

  // ---- The three checks of the restore tool ----

  ghost predicate SessionOk(t: Tables, s: Id)
    requires s in t.sessions
  {
    && t.sessions[s].userId in t.users
    && (t.sessions[s].Live() ==> t.users[t.sessions[s].userId].Enabled())
    && (t.sessions[s].revokeReason.Some? ==> !t.sessions[s].Live())
  }

  /** An enabled admin exists, no disabled user has a live session, no revoke reason lacks its time. */
  ghost predicate Restorable(t: Tables) {
    EnabledAdmins(t) != {} && forall s :: s in t.sessions ==> SessionOk(t, s)
  }

  /** Role or disabling of one user changes, and the user's live sessions are revoked if need be. */
  lemma UserChangeKeepsRestorable(t: Tables, user: Id, u: User, revoked: set<Id>, now: Time, reason: string)
    requires Restorable(t) && user in t.users && !LastEnabledAdmin(t, user)
    requires revoked == LiveSessionsOf(t, user) || (revoked == {} && u.Enabled())
    ensures Restorable(RevokeSessions(t.(users := t.users[user := u]), revoked, now, reason))
  {
    var t' := RevokeSessions(t.(users := t.users[user := u]), revoked, now, reason);
    var other :| other in EnabledAdmins(t) && other != user;
    assert other in EnabledAdmins(t');
    forall s | s in t'.sessions ensures SessionOk(t', s) {
      assert SessionOk(t, s);
    }
  }

  lemma RevokeKeepsRestorable(t: Tables, ids: set<Id>, now: Time, reason: string)
    requires Restorable(t)
    ensures Restorable(RevokeSessions(t, ids, now, reason))
  {
    var t' := RevokeSessions(t, ids, now, reason);
    assert EnabledAdmins(t') == EnabledAdmins(t);
    forall s | s in t'.sessions ensures SessionOk(t', s) {
      assert SessionOk(t, s);
    }
  }

  lemma AuditKeepsRestorable(t: Tables, id: Id, e: Event)
    requires Restorable(t)
    ensures Restorable(Insert(t, id, e))
  {
    var t' := Insert(t, id, e);
    assert EnabledAdmins(t') == EnabledAdmins(t);
    forall s | s in t'.sessions ensures SessionOk(t', s) {
      assert SessionOk(t, s);
    }
  }

  lemma MutationKeepsRestorable(t: Tables, a: Attempt, now: Time, eventId: Id)
    requires Restorable(t) && MutationTx(t, a, now, eventId).Success?
    ensures Restorable(MutationTx(t, a, now, eventId).value.after)
  {
    var c := MutationTx(t, a, now, eventId).value;
    match a.op
    case ChangeRole(u, r) =>
      if t.users[u].role == r {
        AuditKeepsRestorable(t, eventId, a.Fact(now, Succeeded, RolesAndCount(r, r, 0), None));
      } else {
        var revoked := LiveSessionsOf(t, u);
        var u' := t.users[u].(role := r, updatedAt := now);
        UserChangeKeepsRestorable(t, u, u', revoked, now, "role_changed");
        AuditKeepsRestorable(RevokeSessions(t.(users := t.users[u := u']), revoked, now, "role_changed"), eventId,
          a.Fact(now, Succeeded, RolesAndCount(t.users[u].role, r, |revoked|), None));
      }
    case SetDisabled(u, d) =>
      if t.users[u].Enabled() != d {
        AuditKeepsRestorable(t, eventId, a.Fact(now, Succeeded, Count(0), None));
      } else {
        var revoked := if d then LiveSessionsOf(t, u) else {};
        var u' := t.users[u].(disabledAt := if d then Some(now) else None, updatedAt := now);
        assert d || u !in EnabledAdmins(t);
        UserChangeKeepsRestorable(t, u, u', revoked, now, "user_disabled");
        AuditKeepsRestorable(RevokeSessions(t.(users := t.users[u := u']), revoked, now, "user_disabled"), eventId,
          a.Fact(now, Succeeded, Count(|revoked|), None));
      }
    case RevokeSession(s, reason) =>
      var detail := UserAndReason(t.sessions[s].userId, reason);
      RevokeKeepsRestorable(t, {s}, now, reason);
      AuditKeepsRestorable(t, eventId, a.Fact(now, Succeeded, detail, None));
      AuditKeepsRestorable(RevokeSessions(t, {s}, now, reason), eventId, a.Fact(now, Succeeded, detail, None));
  }

  lemma LoginKeepsRestorable(t: Tables, user: Option<Id>, v: Verification, now: Time, issue: Issue, eventId: Id)
    requires Restorable(t) && (user.Some? ==> user.value in t.users)
    ensures Restorable(LoginTx(t, user, v, now, issue, eventId).after)
  {
    var t' := LoginTx(t, user, v, now, issue, eventId).after;
    assert EnabledAdmins(t') == EnabledAdmins(t);
    forall s | s in t'.sessions ensures SessionOk(t', s) {
      if s in t.sessions { assert SessionOk(t, s); }
    }
  }

  lemma EndSessionKeepsRestorable(t: Tables, s: Option<Id>, now: Time, reason: string, kind: Action, eventId: Id)
    requires Restorable(t)
    ensures Restorable(EndSessionTx(t, s, now, reason, kind, eventId).after)
  {
    var who := CurrentUser(t, s, now);
    if who.Success? {
      RevokeKeepsRestorable(t, {s.value}, now, reason);
      AuditKeepsRestorable(RevokeSessions(t, {s.value}, now, reason), eventId,
        Event(now, kind, Succeeded, Some(who.value), None, None, NoDetail, None));
    }
  }

  // ---- A live session was issued under its user's current role ----

  predicate IsLoginOf(e: Event, s: Id) {
    e.action == Login && e.outcome == Succeeded && e.actor.Some? && e.actor.value.sessionId == s
  }

  /** The session's login fact exists, and every such fact names its user and the role that user has now. */
  ghost predicate IssuedUnderRole(t: Tables, s: Id)
    requires s in t.sessions
  {
    && t.sessions[s].userId in t.users
    && (exists e :: e in t.audit && IsLoginOf(t.audit[e], s))
    && forall e :: e in t.audit && IsLoginOf(t.audit[e], s) ==>
         t.audit[e].actor == Some(Principal(t.sessions[s].userId, t.users[t.sessions[s].userId].role, s))
  }

  ghost predicate RolesCurrent(t: Tables) {
    && (forall s :: s in t.sessions && t.sessions[s].Live() ==> IssuedUnderRole(t, s))
    && forall e, s :: e in t.audit && IsLoginOf(t.audit[e], s) ==> s in t.sessions
  }

  /** A fact that is not a login changes nothing here. */
  lemma AuditKeepsRoles(t: Tables, id: Id, e: Event)
    requires RolesCurrent(t) && (e.action != Login || e.outcome != Succeeded)
    ensures RolesCurrent(Insert(t, id, e))
  {
    var t' := Insert(t, id, e);
    forall s | s in t'.sessions && t'.sessions[s].Live() ensures IssuedUnderRole(t', s) {
      assert IssuedUnderRole(t, s);
      var x :| x in t.audit && IsLoginOf(t.audit[x], s);
      assert x in t'.audit && IsLoginOf(t'.audit[x], s);
    }
  }

  /** A change of one user is harmless if the role stays or every live session of the user goes. */
  lemma UserChangeKeepsRoles(t: Tables, user: Id, u: User, ids: set<Id>, now: Time, reason: string)
    requires RolesCurrent(t) && user in t.users
    requires u.role == t.users[user].role || LiveSessionsOf(t, user) <= ids
    ensures RolesCurrent(RevokeSessions(t.(users := t.users[user := u]), ids, now, reason))
  {
    var t' := RevokeSessions(t.(users := t.users[user := u]), ids, now, reason);
    forall s | s in t'.sessions && t'.sessions[s].Live() ensures IssuedUnderRole(t', s) {
      assert IssuedUnderRole(t, s);
    }
  }

  lemma MutationKeepsRoles(t: Tables, a: Attempt, now: Time, eventId: Id)
    requires RolesCurrent(t) && MutationTx(t, a, now, eventId).Success?
    ensures RolesCurrent(MutationTx(t, a, now, eventId).value.after)
  {
    match a.op
    case ChangeRole(u, r) =>
      if t.users[u].role == r {
        AuditKeepsRoles(t, eventId, a.Fact(now, Succeeded, RolesAndCount(r, r, 0), None));
      } else {
        var revoked := LiveSessionsOf(t, u);
        var u' := t.users[u].(role := r, updatedAt := now);
        UserChangeKeepsRoles(t, u, u', revoked, now, "role_changed");
        AuditKeepsRoles(RevokeSessions(t.(users := t.users[u := u']), revoked, now, "role_changed"), eventId,
          a.Fact(now, Succeeded, RolesAndCount(t.users[u].role, r, |revoked|), None));
      }
    case SetDisabled(u, d) =>
      if t.users[u].Enabled() != d {
        AuditKeepsRoles(t, eventId, a.Fact(now, Succeeded, Count(0), None));
      } else {
        var revoked := if d then LiveSessionsOf(t, u) else {};
        var u' := t.users[u].(disabledAt := if d then Some(now) else None, updatedAt := now);
        UserChangeKeepsRoles(t, u, u', revoked, now, "user_disabled");
        AuditKeepsRoles(RevokeSessions(t.(users := t.users[u := u']), revoked, now, "user_disabled"), eventId,
          a.Fact(now, Succeeded, Count(|revoked|), None));
      }
    case RevokeSession(s, reason) =>
      var detail := UserAndReason(t.sessions[s].userId, reason);
      RevokeKeepsRoles(t, {s}, now, reason);
      AuditKeepsRoles(t, eventId, a.Fact(now, Succeeded, detail, None));
      AuditKeepsRoles(RevokeSessions(t, {s}, now, reason), eventId, a.Fact(now, Succeeded, detail, None));
  }

  lemma RevokeKeepsRoles(t: Tables, ids: set<Id>, now: Time, reason: string)
    requires RolesCurrent(t)
    ensures RolesCurrent(RevokeSessions(t, ids, now, reason))
  {
    var t' := RevokeSessions(t, ids, now, reason);
    forall s | s in t'.sessions && t'.sessions[s].Live() ensures IssuedUnderRole(t', s) {
      assert IssuedUnderRole(t, s);
    }
  }

  /** A login issues its session under the role it reads; its session id is new, so no older fact speaks of it. */
  lemma LoginKeepsRoles(t: Tables, user: Option<Id>, v: Verification, now: Time, issue: Issue, eventId: Id)
    requires RolesCurrent(t) && (user.Some? ==> user.value in t.users)
    ensures RolesCurrent(LoginTx(t, user, v, now, issue, eventId).after)
  {
    var unit := LoginTx(t, user, v, now, issue, eventId);
    var t' := unit.after;
    if unit.result.Success? {
      assert IsLoginOf(t'.audit[eventId], issue.session);
      forall s | s in t'.sessions && t'.sessions[s].Live() ensures IssuedUnderRole(t', s) {
        if s != issue.session {
          assert IssuedUnderRole(t, s);
          var x :| x in t.audit && IsLoginOf(t.audit[x], s);
          assert x in t'.audit && IsLoginOf(t'.audit[x], s);
        }
      }
    } else if t' != t {
      AuditKeepsRoles(t, eventId, Event(now, Login, Rejected, None, None, None, NoDetail, None));
    }
  }

  lemma EndSessionKeepsRoles(t: Tables, s: Option<Id>, now: Time, reason: string, kind: Action, eventId: Id)
    requires RolesCurrent(t) && kind != Login
    ensures RolesCurrent(EndSessionTx(t, s, now, reason, kind, eventId).after)
  {
    var who := CurrentUser(t, s, now);
    if who.Success? {
      RevokeKeepsRoles(t, {s.value}, now, reason);
      AuditKeepsRoles(RevokeSessions(t, {s.value}, now, reason), eventId,
        Event(now, kind, Succeeded, Some(who.value), None, None, NoDetail, None));
    }
  }

  // ---- What a committed mutation reports and leaves alone ----

  /** The sessions that are live in `t` and revoked in `t'`. */
  ghost function NewlyRevoked(t: Tables, t': Tables): set<Id> {
    set s | s in t.sessions && t.sessions[s].Live() && s in t'.sessions && !t'.sessions[s].Live()
  }

  ghost predicate OthersUntouched(t: Tables, t': Tables, ids: set<Id>) {
    && t'.sessions.Keys == t.sessions.Keys
    && forall s :: s in t.sessions && s !in ids ==> t'.sessions[s] == t.sessions[s]
  }

  lemma RevokeEffect(t: Tables, t': Tables, ids: set<Id>, now: Time, reason: string)
    requires t'.sessions == RevokeSessions(t, ids, now, reason).sessions
    requires forall s :: s in ids ==> s in t.sessions && t.sessions[s].Live()
    ensures NewlyRevoked(t, t') == ids && OthersUntouched(t, t', ids)
  {
  }

  function ReasonOf(op: Op): string {
    match op
    case ChangeRole(_, _) => "role_changed"
    case SetDisabled(_, _) => "user_disabled"
    case RevokeSession(_, reason) => reason
  }

  lemma MutationSessions(t: Tables, a: Attempt, now: Time, eventId: Id)
    requires MutationTx(t, a, now, eventId).Success?
    ensures var c := MutationTx(t, a, now, eventId).value;
      c.after.sessions == RevokeSessions(t, c.done.revoked, now, ReasonOf(a.op)).sessions
      && forall s :: s in c.done.revoked ==> s in t.sessions && t.sessions[s].Live()
  {
    assert RevokeSessions(t, {}, now, ReasonOf(a.op)).sessions == t.sessions;
  }

  /** The reported ids are exactly the sessions the unit took from live to revoked. */
  lemma RevokedExactly(t: Tables, a: Attempt, now: Time, eventId: Id)
    requires MutationTx(t, a, now, eventId).Success?
    ensures var c := MutationTx(t, a, now, eventId).value;
      c.done.revoked == NewlyRevoked(t, c.after) && OthersUntouched(t, c.after, c.done.revoked)
  {
    var c := MutationTx(t, a, now, eventId).value;
    MutationSessions(t, a, now, eventId);
    RevokeEffect(t, c.after, c.done.revoked, now, ReasonOf(a.op));
  }

  /** No user but the target moves, and nothing at all when the unit reports no change. */
  lemma OnlyTargetMoves(t: Tables, a: Attempt, now: Time, eventId: Id)
    requires MutationTx(t, a, now, eventId).Success?
    ensures var c := MutationTx(t, a, now, eventId).value;
      (forall u :: u in t.users && u != a.op.Target() ==> u in c.after.users && c.after.users[u] == t.users[u])
      && (!c.done.changed ==> c.after.users == t.users && c.after.sessions == t.sessions)
  {
    match a.op
    case ChangeRole(u, r) => ChangeRoleMoves(t, a, u, r, now, eventId);
    case SetDisabled(u, d) => SetDisabledMoves(t, a, u, d, now, eventId);
    case RevokeSession(_, _) =>
  }

  lemma ChangeRoleMoves(t: Tables, a: Attempt, user: Id, role: Role, now: Time, eventId: Id)
    requires ChangeRoleTx(t, a, user, role, now, eventId).Success?
    ensures var c := ChangeRoleTx(t, a, user, role, now, eventId).value;
      (forall u :: u in t.users && u != user ==> u in c.after.users && c.after.users[u] == t.users[u])
      && (!c.done.changed ==> c.after.users == t.users && c.after.sessions == t.sessions)
  {
  }

  lemma SetDisabledMoves(t: Tables, a: Attempt, user: Id, disabled: bool, now: Time, eventId: Id)
    requires SetDisabledTx(t, a, user, disabled, now, eventId).Success?
    ensures var c := SetDisabledTx(t, a, user, disabled, now, eventId).value;
      (forall u :: u in t.users && u != user ==> u in c.after.users && c.after.users[u] == t.users[u])
      && (!c.done.changed ==> c.after.users == t.users && c.after.sessions == t.sessions)
  {
  }

  /** The last enabled administrator: the request that would take it away is refused, and only that one. */
  lemma LastAdminRefusedExactly(t: Tables, a: Attempt, now: Time, eventId: Id)
    requires Restorable(t)
    ensures MutationTx(t, a, now, eventId) == Failure(LastAdminProtected) <==>
      match a.op
      case ChangeRole(u, r) => EnabledAdmins(t) == {u} && r != Admin
      case SetDisabled(u, d) => EnabledAdmins(t) == {u} && d
      case RevokeSession(_, _) => false
  {
    assert forall u :: EnabledAdmins(t) == {u} ==> u in EnabledAdmins(t);
  }
}
