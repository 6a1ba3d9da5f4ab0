/** Login, logout and the internal revoke: the throttle, one unit of work, then the callback. */
module PlatformSessions {
  import opened Wrappers
  import opened Seqs
  import opened PlatformTables
  import opened PlatformUnits
  import opened PlatformEffects
  import opened ThrottleSpec
  import opened Throttle

  /** What verification says about a looked-up user; without a user only a dummy hash is checked. */
  function Verdicts(t: Tables, user: Option<Id>, verify: string -> Verification): Verification
    requires user.Some? ==> user.value in t.users
  {
    if user.None? then NoMatch else verify(t.users[user.value].passwordHash)
  }

  /** Unknown user, wrong password or disabled user: all end in the same rejection. */
  predicate Rejects(t: Tables, user: Option<Id>, v: Verification)
    requires user.Some? ==> user.value in t.users
  {
    !v.Unusable? && (user.None? || v.NoMatch? || !t.users[user.value].Enabled())
  }

  /** A unit with a missing database or a failing cleanup may hide its result, never change it. */
  ghost predicate UnitEnds<A>(tx: Unit<A>, before: Tables, after: Tables, r: Result<A, Error>, healthy: bool) {
    && (after == before || after == tx.after)
    && (r == Failure(DatabaseUnavailable) || (r == tx.result && after == tx.after))
    && (healthy ==> r == tx.result && after == tx.after)
  }

  class SessionService {
    const db: Database
    const throttle: LoginThrottle

    constructor (db: Database, throttle: LoginThrottle)
      ensures this.db == db && this.throttle == throttle
    {
      this.db, this.throttle := db, throttle;
    }

    /** Counts the failure before anything can go wrong, then commits the rejected fact. */
    method Reject(uow: UnitOfWork, now: Time, eventId: Id, at: real, key: Key) returns (r: Result<Principal, Error>)
      requires uow.db == db && uow.work == db.tables && throttle.Valid() && throttle.clock <= at
      modifies uow, db, throttle
      ensures throttle.Valid() && throttle.View() == FailTable(old(throttle.View()), at, key, throttle.lim)
      ensures UnitEnds(RejectTx(old(db.tables), now, eventId), old(db.tables), db.tables, r, old(uow.fuse) >= 2)
      ensures r.Failure?
    {
      throttle.RecordFailure(at, key);
      var inserted :- uow.Append(eventId, Event(now, Login, Rejected, None, None, None, NoDetail, None));
      if !inserted {
        return Failure(AuditPersistenceFailure);
      }
      var _ :- uow.Commit();
      return Failure(InvalidCredentials);
    }

    method LoginUnit(uow: UnitOfWork, key: Key, verify: string -> Verification, now: Time, at: real, issue: Issue,
        eventId: Id)
      returns (r: Result<Principal, Error>, ghost user: Option<Id>)
      requires uow.db == db && uow.work == db.tables && throttle.Valid() && throttle.clock <= at
      modifies uow, db, throttle
      ensures Named(old(db.tables), key.0, user) && throttle.Valid()
      ensures var v := Verdicts(old(db.tables), user, verify);
        && UnitEnds(LoginTx(old(db.tables), user, v, now, issue, eventId), old(db.tables), db.tables, r,
          old(uow.fuse) >= 5)
        && (throttle.View() == if old(uow.fuse) > 0 && Rejects(old(db.tables), user, v)
                            then FailTable(old(throttle.View()), at, key, throttle.lim)
                            else old(throttle.View()))
    {
      if id :| id in db.tables.users && db.tables.users[id].name == key.0 {
        user := Some(id);
      } else {
        user := None;
      }
      var got := uow.GetUserByName(key.0);
      if got.Failure? {
        return Failure(DatabaseUnavailable), user;
      }
      user := got.value;
      if got.value.None? {
        r := Reject(uow, now, eventId, at, key);
        return r, user;
      }
      var id := got.value.value;
      var row := uow.work.users[id];
      var v := verify(row.passwordHash);
      if v.Unusable? {
        return Failure(CredentialStoreInvalid), user;
      }
      if v.NoMatch? || !row.Enabled() {
        r := Reject(uow, now, eventId, at, key);
        return r, user;
      }
      r := IssueSession(uow, id, v.updatedHash, now, issue, eventId);
    }

    method IssueSession(uow: UnitOfWork, id: Id, updatedHash: Option<string>, now: Time, issue: Issue, eventId: Id)
      returns (r: Result<Principal, Error>)
      requires uow.db == db && uow.work == db.tables && id in db.tables.users && db.tables.users[id].Enabled()
      modifies uow, db
      ensures UnitEnds(LoginTx(old(db.tables), Some(id), Match(updatedHash), now, issue, eventId),
                       old(db.tables), db.tables, r, old(uow.fuse) >= 4)
    {
      var row := uow.work.users[id];
      if updatedHash.Some? {
        var updated :- uow.UpdatePasswordHash(id, updatedHash.value, now);
        if !updated {
          assert false;  // the row was read in this unit
        }
      }
      var who := Principal(id, row.role, issue.session);
      var _ :- uow.AddSession(issue.session, Session(id, issue.digest, now, now + issue.ttl, None, None));
      var inserted :- uow.Append(eventId, LoginFact(now, who));
      if !inserted {
        return Failure(AuditPersistenceFailure);
      }
      var _ :- uow.Commit();
      r := Success(who);
    }

    /**
     A throttled login touches no table. Otherwise the failure is counted as
     soon as the credentials are refused, whatever happens to its audit, and the
     key is cleared only once the session is committed and the unit cleaned up.
     */
    method LogIn(
      key: Key, verify: string -> Verification, now: Time, checkedAt: real, failedAt: real,
      issue: Issue, eventId: Id, fuse: nat, cleanupFails: bool)
      returns (r: Result<Principal, Error>, ghost user: Option<Id>)
      requires throttle.Valid() && throttle.clock <= checkedAt <= failedAt
      modifies db, throttle
      ensures throttle.Valid() && Named(old(db.tables), key.0, user)
      ensures var was, lim := old(throttle.View()), throttle.lim;
        var checked, v := CheckTable(was, checkedAt, key, lim), Verdicts(old(db.tables), user, verify);
        match CheckVerdict(was, checkedAt, key, lim)
        case Denied(seconds) =>
          r == Failure(LoginThrottled(seconds)) && db.tables == old(db.tables) && throttle.View() == checked
        case Allowed =>
          && UnitEnds(LoginTx(old(db.tables), user, v, now, issue, eventId), old(db.tables), db.tables, r,
               fuse >= 5 && !cleanupFails)
          && throttle.View() ==
             if fuse > 0 && Rejects(old(db.tables), user, v) then FailTable(checked, failedAt, key, lim)
             else if r.Success? then SuccessTable(checked, key)
             else checked
      ensures r.Success? ==>
        && user.Some?
        && LoggedIn(old(db.tables), db.tables, user.value, Verdicts(old(db.tables), user, verify), now, issue, eventId,
                    r.value)
    {
      hide CheckTable, CheckVerdict, FailTable, SuccessTable, Verdicts;
      if id :| id in db.tables.users && db.tables.users[id].name == key.0 {
        user := Some(id);
      } else {
        user := None;
      }
      var decision := throttle.Check(checkedAt, key);
      if decision.Denied? {
        return Failure(LoginThrottled(decision.retryAfter)), user;
      }
      var uow := new UnitOfWork(db, fuse);
      r, user := LoginUnit(uow, key, verify, now, failedAt, issue, eventId);
      if cleanupFails {
        return Failure(DatabaseUnavailable), user;
      }
      if r.Success? {
        LoginEffect(old(db.tables), user, Verdicts(old(db.tables), user, verify), now, issue, eventId);
        throttle.RecordSuccess(key);
      }
    }

    /** A login that succeeds issues a session that its secret ends again, any time before it is over. */
    method LogInAndOut(
      key: Key, verify: string -> Verification, now: Time, checkedAt: real, failedAt: real,
      issue: Issue, eventId: Id, later: Time, laterId: Id)
      returns (r: Result<Principal, Error>, out: Result<bool, Error>)
      requires throttle.Valid() && throttle.clock <= checkedAt <= failedAt
      requires now <= later < now + issue.ttl && laterId != eventId && laterId !in db.tables.audit
      requires forall s :: s in db.tables.sessions ==> db.tables.sessions[s].digest != issue.digest
      modifies db, throttle
      ensures r.Success? ==>
        && out == Success(true) && issue.session in db.tables.sessions
        && db.tables.sessions[issue.session].revokedAt == Some(later)
        && db.tables.sessions[issue.session].revokeReason == Some("logout")
      ensures r.Success? ==> forall at :: CurrentUser(db.tables, Some(issue.session), at) == Failure(InvalidSession)
    {
      ghost var user;
      r, user := LogIn(key, verify, now, checkedAt, failedAt, issue, eventId, 5, false);
      out := Success(false);
      if r.Success? {
        ghost var before := db.tables;
        var called;
        ghost var session;
        out, called, session := LogOut(issue.digest, later, laterId, 6, false);
        assert session == Some(issue.session);
        LogoutEffect(before, session, later, laterId);
        forall at ensures CurrentUser(db.tables, session, at) == Failure(InvalidSession) {
          EndedForGood(before, db.tables, session, later, "logout", Logout, laterId, at);
        }
      }
    }

    method EndSession(uow: UnitOfWork, session: Option<Id>, now: Time, reason: string, kind: Action, eventId: Id)
      returns (r: Result<bool, Error>)
      requires uow.db == db && uow.work == db.tables
      modifies uow, db
      ensures UnitEnds(EndSessionTx(old(db.tables), session, now, reason, kind, eventId),
                       old(db.tables), db.tables, r, old(uow.fuse) >= 5)
      ensures r.Failure? ==> db.tables == old(db.tables)
    {
      if session.None? {
        return Failure(InvalidSession);
      }
      var found :- uow.GetSession(session.value);
      if found.None? || !found.value.Live() || found.value.expiresAt <= now {
        return Failure(InvalidSession);
      }
      var owner :- uow.GetUser(found.value.userId);
      if owner.None? || !owner.value.Enabled() {
        return Failure(InvalidSession);
      }
      var revoked :- uow.Revoke(session.value, now, reason);
      if !revoked {
        assert false;  // within one serialised unit the compare-and-set cannot miss
      }
      var who := Principal(found.value.userId, owner.value.role, session.value);
      var inserted :- uow.Append(eventId, Event(now, kind, Succeeded, Some(who), None, None, NoDetail, None));
      if !inserted {
        return Failure(AuditPersistenceFailure);
      }
      var _ :- uow.Commit();
      r := Success(true);
    }

    /**
     Unlike a management revoke, a logout whose unit commits and then fails to
     clean up raises, and its callback is never made.
     */
    method LogOut(digest: string, now: Time, eventId: Id, fuse: nat, cleanupFails: bool)
      returns (r: Result<bool, Error>, called: seq<Id>, ghost session: Option<Id>)
      modifies db
      ensures Holds(old(db.tables), digest, session)
      ensures UnitEnds(LogoutTx(old(db.tables), session, now, eventId), old(db.tables), db.tables, r,
        fuse >= 6 && !cleanupFails)
      ensures fuse >= 6 ==> db.tables == LogoutTx(old(db.tables), session, now, eventId).after
      ensures cleanupFails ==> r.Failure?
      ensures r.Success? <==> called != []
      ensures r.Success? ==> session.Some? && called == [session.value]
      ensures db.tables != old(db.tables) ==> (called != [] <==> !cleanupFails)
    {
      if id :| id in db.tables.sessions && db.tables.sessions[id].digest == digest {
        session := Some(id);
      } else {
        session := None;
      }
      var uow := new UnitOfWork(db, fuse);
      var found := uow.GetSessionByDigest(digest);
      if found.Failure? {
        return Failure(DatabaseUnavailable), [], session;
      }
      session := found.value;
      r := EndSession(uow, found.value, now, "logout", Logout, eventId);
      if cleanupFails {
        return Failure(DatabaseUnavailable), [], session;
      }
      if r.Failure? {
        return r, [], session;
      }
      return Success(true), [found.value.value], session;
    }

    /** Such a logout, for any live session: it is revoked for good, and nobody is called back. */
    method LogOutUnheard(id: Id, digest: string, now: Time, eventId: Id)
      returns (r: Result<bool, Error>, called: seq<Id>)
      requires forall s :: s in db.tables.sessions ==> (db.tables.sessions[s].digest == digest <==> s == id)
      requires CurrentUser(db.tables, Some(id), now).Success? && eventId !in db.tables.audit
      modifies db
      ensures r == Failure(DatabaseUnavailable) && called == []
      ensures id in db.tables.sessions && !db.tables.sessions[id].Live()
    {
      ghost var session;
      r, called, session := LogOut(digest, now, eventId, 6, true);
    }

    /**
     A missing or already revoked session is answered with `false`, without a
     callback. A revoke whose unit commits and then fails to clean up raises, and
     its callback is never made.
     */
    method Revoke(id: Id, reason: string, now: Time, eventId: Id, fuse: nat, cleanupFails: bool)
      returns (r: Result<bool, Error>, called: seq<Id>)
      modifies db
      ensures UnitEnds(InternalRevokeTx(old(db.tables), id, reason, now, eventId), old(db.tables), db.tables, r,
        fuse >= 6 && !cleanupFails)
      ensures fuse >= 6 ==> db.tables == InternalRevokeTx(old(db.tables), id, reason, now, eventId).after
      ensures cleanupFails ==> r.Failure?
      ensures called == if r == Success(true) then [id] else []
      ensures db.tables != old(db.tables) ==> (called != [] <==> !cleanupFails)
    {
      var uow := new UnitOfWork(db, fuse);
      var found := uow.GetSession(id);
      if found.Failure? || (cleanupFails && (found.value.None? || !found.value.value.Live())) {
        return Failure(DatabaseUnavailable), [];
      }
      if found.value.None? || !found.value.value.Live() {
        return Success(false), [];
      }
      r := EndSession(uow, Some(id), now, reason, SessionRevoke, eventId);
      if cleanupFails {
        return Failure(DatabaseUnavailable), [];
      }
      return r, if r == Success(true) then [id] else [];
    }

    /** Such a revoke, for any live session of an enabled user. */
    method RevokeUnheard(id: Id, reason: string, now: Time, eventId: Id)
      returns (r: Result<bool, Error>, called: seq<Id>)
      requires CurrentUser(db.tables, Some(id), now).Success? && eventId !in db.tables.audit
      modifies db
      ensures r.Failure? && called == []
      ensures id in db.tables.sessions && !db.tables.sessions[id].Live()
    {
      r, called := Revoke(id, reason, now, eventId, 6, true);
    }
  }
}
