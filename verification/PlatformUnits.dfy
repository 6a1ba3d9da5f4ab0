/**
 Units of work as the services run them: a working copy read and changed one
 repository call at a time, each of which may find the database gone, then
 committed or discarded.
 */
module PlatformUnits {
  import opened Wrappers
  import opened Seqs
  import opened PlatformTables

  class Database {
    var tables: Tables

    constructor (tables: Tables)
      ensures this.tables == tables
    {
      this.tables := tables;
    }
  }

  /** A repository call fails exactly when the database is gone, and then changes nothing. */
  ghost predicate Answered<A>(fuseWas: nat, fuse: nat, r: Result<A, Error>) {
    if fuseWas == 0 then r == Failure(DatabaseUnavailable) && fuse == 0
    else r.Success? && fuse == fuseWas - 1
  }

  class UnitOfWork {
    const db: Database
    var work: Tables
    var fuse: nat  // calls left before the database goes away

    constructor (db: Database, fuse: nat)
      ensures this.db == db && work == db.tables && this.fuse == fuse
    {
      this.db := db;
      work := db.tables;
      this.fuse := fuse;
    }

    /** Every call goes through here first. */
    method Reach() returns (r: Result<(), Error>)
      modifies this`fuse
      ensures Answered(old(fuse), fuse, r)
    {
      if fuse == 0 {
        return Failure(DatabaseUnavailable);
      }
      fuse := fuse - 1;
      r := Success(());
    }

    method GetUser(id: Id) returns (r: Result<Option<User>, Error>)
      modifies this`fuse
      ensures Answered(old(fuse), fuse, r)
      ensures r.Success? ==> r.value == if id in work.users then Some(work.users[id]) else None
    {
      var _ :- Reach();
      r := Success(if id in work.users then Some(work.users[id]) else None);
    }

    method GetSession(id: Id) returns (r: Result<Option<Session>, Error>)
      modifies this`fuse
      ensures Answered(old(fuse), fuse, r)
      ensures r.Success? ==> r.value == if id in work.sessions then Some(work.sessions[id]) else None
    {
      var _ :- Reach();
      r := Success(if id in work.sessions then Some(work.sessions[id]) else None);
    }

    method GetUserByName(name: string) returns (r: Result<Option<Id>, Error>)
      modifies this`fuse
      ensures Answered(old(fuse), fuse, r)
      ensures r.Success? ==> Named(work, name, r.value)
    {
      var _ :- Reach();
      if id :| id in work.users && work.users[id].name == name {
        return Success(Some(id));
      }
      r := Success(None);
    }

    method GetSessionByDigest(digest: string) returns (r: Result<Option<Id>, Error>)
      modifies this`fuse
      ensures Answered(old(fuse), fuse, r)
      ensures r.Success? ==> Holds(work, digest, r.value)
    {
      var _ :- Reach();
      if id :| id in work.sessions && work.sessions[id].digest == digest {
        return Success(Some(id));
      }
      r := Success(None);
    }

    /** Compare and set: changes the row only while it still holds the expected role. */
    method SetRole(id: Id, role: Role, now: Time, expected: Role) returns (r: Result<bool, Error>)
      modifies this
      ensures Answered(old(fuse), fuse, r)
      ensures r.Success? ==> (r.value <==> id in old(work).users && old(work).users[id].role == expected)
      ensures work == if r.Success? && r.value
                      then old(work).(users := old(work).users[id := old(work).users[id].(
                             role := role, updatedAt := now)])
                      else old(work)
    {
      var _ :- Reach();
      if id !in work.users || work.users[id].role != expected {
        return Success(false);
      }
      work := work.(users := work.users[id := work.users[id].(role := role, updatedAt := now)]);
      r := Success(true);
    }

    /** Compare and set on being disabled or not. */
    method SetDisabled(id: Id, at: Option<Time>, now: Time) returns (r: Result<bool, Error>)
      modifies this
      ensures Answered(old(fuse), fuse, r)
      ensures r.Success? ==> (r.value <==> id in old(work).users && old(work).users[id].Enabled() == at.Some?)
      ensures work == if r.Success? && r.value
                      then old(work).(users := old(work).users[id := old(work).users[id].(
                             disabledAt := at, updatedAt := now)])
                      else old(work)
    {
      var _ :- Reach();
      if id !in work.users || work.users[id].Enabled() != at.Some? {
        return Success(false);
      }
      work := work.(users := work.users[id := work.users[id].(disabledAt := at, updatedAt := now)]);
      r := Success(true);
    }

    method LockEnabledAdmins() returns (r: Result<set<Id>, Error>)
      modifies this`fuse
      ensures Answered(old(fuse), fuse, r)
      ensures r.Success? ==> r.value == EnabledAdmins(work)
    {
      var _ :- Reach();
      r := Success(EnabledAdmins(work));
    }

    /** Revokes every live session of the user and returns their ids, each once. */
    method RevokeAllForUser(user: Id, now: Time, reason: string) returns (r: Result<seq<Id>, Error>)
      modifies this
      ensures Answered(old(fuse), fuse, r)
      ensures r.Success? ==> NoDup(r.value) && Elements(r.value) == LiveSessionsOf(old(work), user)
      ensures work == if r.Success? then RevokeSessions(old(work), LiveSessionsOf(old(work), user), now, reason)
        else old(work)
    {
      var _ :- Reach();
      var ids := [];
      var left := LiveSessionsOf(work, user);
      while left != {}
        invariant work == old(work)
        invariant NoDup(ids) && Elements(ids) !! left
        invariant Elements(ids) + left == LiveSessionsOf(work, user)
        decreases left
      {
        var id :| id in left;
        assert Elements(ids + [id]) == Elements(ids) + {id};
        assert id !in Elements(ids);
        ids, left := ids + [id], left - {id};
      }
      work := RevokeSessions(work, LiveSessionsOf(work, user), now, reason);
      r := Success(ids);
    }

    method Revoke(session: Id, now: Time, reason: string) returns (r: Result<bool, Error>)
      modifies this
      ensures Answered(old(fuse), fuse, r)
      ensures r.Success? ==> (r.value <==> session in old(work).sessions && old(work).sessions[session].Live())
      ensures work == if r.Success? && r.value then RevokeSessions(old(work), {session}, now, reason) else old(work)
    {
      var _ :- Reach();
      if session !in work.sessions || !work.sessions[session].Live() {
        return Success(false);
      }
      var row := work.sessions[session].(revokedAt := Some(now), revokeReason := Some(reason));
      assert RevokeSessions(work, {session}, now, reason).sessions == work.sessions[session := row];
      work := work.(sessions := work.sessions[session := row]);
      r := Success(true);
    }

    /** A taken session id violates the primary key. */
    method AddSession(id: Id, s: Session) returns (r: Result<(), Error>)
      modifies this
      ensures fuse == if old(fuse) == 0 then 0 else old(fuse) - 1
      ensures r == if old(fuse) == 0 || id in old(work).sessions then Failure(DatabaseUnavailable) else Success(())
      ensures work == if r.Success? then old(work).(sessions := old(work).sessions[id := s]) else old(work)
    {
      var _ :- Reach();
      if id in work.sessions {
        return Failure(DatabaseUnavailable);
      }
      work := work.(sessions := work.sessions[id := s]);
      r := Success(());
    }

    method UpdatePasswordHash(user: Id, hash: string, now: Time) returns (r: Result<bool, Error>)
      modifies this
      ensures Answered(old(fuse), fuse, r)
      ensures r.Success? ==> (r.value <==> user in old(work).users)
      ensures work == if r.Success? && r.value
                      then old(work).(users := old(work).users[user := old(work).users[user].(
                             passwordHash := hash, updatedAt := now)])
                      else old(work)
    {
      var _ :- Reach();
      if user !in work.users {
        return Success(false);
      }
      work := work.(users := work.users[user := work.users[user].(passwordHash := hash, updatedAt := now)]);
      r := Success(true);
    }

    method Append(id: Id, e: Event) returns (r: Result<bool, Error>)
      modifies this
      ensures Answered(old(fuse), fuse, r)
      ensures r.Success? ==> (r.value <==> id !in old(work).audit)
      ensures work == if r.Success? then Insert(old(work), id, e) else old(work)
    {
      var _ :- Reach();
      if id in work.audit {
        return Success(false);
      }
      work := work.(audit := work.audit[id := e]);
      r := Success(true);
    }

    method GetEvent(id: Id) returns (r: Result<Option<Event>, Error>)
      modifies this`fuse
      ensures Answered(old(fuse), fuse, r)
      ensures r.Success? ==> r.value == if id in work.audit then Some(work.audit[id]) else None
    {
      var _ :- Reach();
      r := Success(if id in work.audit then Some(work.audit[id]) else None);
    }

    method Commit() returns (r: Result<(), Error>)
      modifies this`fuse, db
      ensures Answered(old(fuse), fuse, r)
      ensures db.tables == if r.Success? then work else old(db.tables)
    {
      var _ :- Reach();
      db.tables := work;
      r := Success(());
    }
  }

  ghost predicate Named(t: Tables, name: string, id: Option<Id>) {
    match id
    case Some(u) => u in t.users && t.users[u].name == name
    case None => forall u :: u in t.users ==> t.users[u].name != name
  }

  ghost predicate Holds(t: Tables, digest: string, id: Option<Id>) {
    match id
    case Some(s) => s in t.sessions && t.sessions[s].digest == digest
    case None => forall s :: s in t.sessions ==> t.sessions[s].digest != digest
  }

  // ---- Management units ----

  /** An inserted fact, or an equal one already there; anything else under the id is a conflict. */
  method AppendAudit(uow: UnitOfWork, id: Id, e: Event) returns (r: Result<(), Error>)
    modifies uow
    ensures uow.fuse <= old(uow.fuse) <= uow.fuse + 2
    ensures (r == Failure(DatabaseUnavailable) && old(uow.fuse) < 2)
      || r == (if AppendFact(old(uow.work), id, e).Success? then Success(()) else Failure(AuditConflict))
    ensures r.Success? ==> uow.work == AppendFact(old(uow.work), id, e).value
  {
    var inserted :- uow.Append(id, e);
    if inserted {
      return Success(());
    }
    var existing :- uow.GetEvent(id);
    if existing != Some(e) {
      return Failure(AuditConflict);
    }
    r := Success(());
  }

  datatype Mutation = Mutation(changed: bool, revoked: seq<Id>)

  ghost predicate Reports(m: Mutation, d: Done) {
    m.changed == d.changed && NoDup(m.revoked) && Elements(m.revoked) == d.revoked
  }

  /**
   How a unit ends: with its transaction's commit, or with an error and the
   tables as they were. A missing database can only replace a result that was
   not committed.
   */
  ghost predicate EndsAs(
    tx: Result<Commit, Error>, before: Tables, after: Tables, r: Result<Mutation, Error>, healthy: bool)
  {
    if r.Success? then tx.Success? && after == tx.value.after && Reports(r.value, tx.value.done)
    else after == before && ((r.error == DatabaseUnavailable && !healthy) || tx == Failure(r.error))
  }

  /** Refuses to take away the last enabled administrator. */
  method ProtectEnabledAdmin(uow: UnitOfWork, newRole: Role, target: Id) returns (r: Result<(), Error>)
    modifies uow`fuse
    ensures uow.fuse <= old(uow.fuse) <= uow.fuse + 1
    ensures (r == Failure(DatabaseUnavailable) && old(uow.fuse) == 0)
      || r ==
         if newRole != Admin && LastEnabledAdmin(uow.work, target) then Failure(LastAdminProtected) else Success(())
  {
    if newRole == Admin {
      return Success(());
    }
    var ids :- uow.LockEnabledAdmins();
    if target in ids && |ids| <= 1 {
      SingletonOf(ids, target);
      return Failure(LastAdminProtected);
    }
    r := Success(());
  }

  lemma SingletonOf<T>(s: set<T>, x: T)
    requires x in s && |s| <= 1
    ensures s == {x}
  {
    assert |s - {x}| == 0;
  }

  /** The end of every unit that changes something: its outcome is appended and all is committed. */
  method Conclude(uow: UnitOfWork, eventId: Id, fact: Event) returns (r: Result<(), Error>)
    modifies uow, uow.db
    ensures r.Success? ==> AppendFact(old(uow.work), eventId, fact) == Success(uow.db.tables)
    ensures r.Failure? ==>
      && uow.db.tables == old(uow.db.tables)
      && ((r.error == DatabaseUnavailable && old(uow.fuse) < 3)
          || AppendFact(old(uow.work), eventId, fact) == Failure(r.error))
  {
    var _ :- AppendAudit(uow, eventId, fact);
    r := uow.Commit();
  }

  method ChangeRoleUnit(db: Database, a: Attempt, user: Id, role: Role, now: Time, eventId: Id, uow: UnitOfWork)
    returns (r: Result<Mutation, Error>)
    requires uow.db == db && uow.work == db.tables
    modifies uow, db
    ensures EndsAs(ChangeRoleTx(old(db.tables), a, user, role, now, eventId), old(db.tables), db.tables, r,
      old(uow.fuse) >= 7)
  {
    var found :- uow.GetUser(user);
    if found.None? {
      return Failure(UserNotFound);
    }
    var was := found.value;
    if was.role == role {
      var _ :- Conclude(uow, eventId, a.Fact(now, Succeeded, RolesAndCount(was.role, role, 0), None));
      return Success(Mutation(false, []));
    }
    r := MoveRole(db, a, user, was, role, now, eventId, uow);
  }

  /** The change itself, for a user who has another role. */
  method MoveRole(
    db: Database, a: Attempt, user: Id, was: User, role: Role, now: Time, eventId: Id, uow: UnitOfWork)
    returns (r: Result<Mutation, Error>)
    requires uow.db == db && uow.work == db.tables
    requires user in db.tables.users && was == db.tables.users[user] && was.role != role
    modifies uow, db
    ensures EndsAs(ChangeRoleTx(old(db.tables), a, user, role, now, eventId), old(db.tables), db.tables, r,
      old(uow.fuse) >= 6)
  {
    if was.role == Admin && was.Enabled() {
      var _ :- ProtectEnabledAdmin(uow, role, user);
    }
    var changed :- uow.SetRole(user, role, now, was.role);
    if !changed {
      assert false;  // within one serialised unit the compare-and-set cannot miss
    }
    var revoked :- uow.RevokeAllForUser(user, now, "role_changed");
    NoDupSize(revoked);
    var _ :- Conclude(uow, eventId, a.Fact(now, Succeeded, RolesAndCount(was.role, role, |revoked|), None));
    r := Success(Mutation(true, revoked));
  }

  method SetDisabledUnit(db: Database, a: Attempt, user: Id, disabled: bool, now: Time, eventId: Id, uow: UnitOfWork)
    returns (r: Result<Mutation, Error>)
    requires uow.db == db && uow.work == db.tables
    modifies uow, db
    ensures EndsAs(SetDisabledTx(old(db.tables), a, user, disabled, now, eventId), old(db.tables), db.tables, r,
      old(uow.fuse) >= 7)
  {
    var found :- uow.GetUser(user);
    if found.None? {
      return Failure(UserNotFound);
    }
    var was := found.value;
    if was.Enabled() != disabled {
      var _ :- Conclude(uow, eventId, a.Fact(now, Succeeded, Count(0), None));
      return Success(Mutation(false, []));
    }
    r := MoveDisabled(db, a, user, was, disabled, now, eventId, uow);
  }

  /** The change itself, for a user who is not yet as asked. */
  method MoveDisabled(
    db: Database, a: Attempt, user: Id, was: User, disabled: bool, now: Time, eventId: Id, uow: UnitOfWork)
    returns (r: Result<Mutation, Error>)
    requires uow.db == db && uow.work == db.tables
    requires user in db.tables.users && was == db.tables.users[user] && was.Enabled() == disabled
    modifies uow, db
    ensures EndsAs(SetDisabledTx(old(db.tables), a, user, disabled, now, eventId), old(db.tables), db.tables, r,
      old(uow.fuse) >= 6)
  {
    if disabled && was.role == Admin {
      var _ :- ProtectEnabledAdmin(uow, Viewer, user);
    }
    var changed :- uow.SetDisabled(user, if disabled then Some(now) else None, now);
    if !changed {
      assert false;  // within one serialised unit the compare-and-set cannot miss
    }
    var revoked: seq<Id> := [];
    if disabled {
      revoked :- uow.RevokeAllForUser(user, now, "user_disabled");
    }
    NoDupSize(revoked);
    var _ :- Conclude(uow, eventId, a.Fact(now, Succeeded, Count(|revoked|), None));
    r := Success(Mutation(true, revoked));
  }

  method RevokeSessionUnit(db: Database, a: Attempt, session: Id, reason: string, now: Time, eventId: Id,
      uow: UnitOfWork)
    returns (r: Result<Mutation, Error>)
    requires uow.db == db && uow.work == db.tables
    modifies uow, db
    ensures EndsAs(RevokeSessionTx(old(db.tables), a, session, reason, now, eventId), old(db.tables), db.tables, r,
      old(uow.fuse) >= 5)
  {
    var found :- uow.GetSession(session);
    if found.None? {
      return Failure(SessionNotFound);
    }
    var changed := false;
    if found.value.Live() {
      changed :- uow.Revoke(session, now, reason);
      if !changed {
        assert false;  // within one serialised unit the compare-and-set cannot miss
      }
    }
    var _ :- Conclude(uow, eventId, a.Fact(now, Succeeded, UserAndReason(found.value.userId, reason), None));
    r := Success(Mutation(changed, if changed then [session] else []));
  }

  /**
   A whole mutation unit with its cleanup. A cleanup that fails turns an
   uncommitted result into a missing database, but never hides a commit.
   */
  method MutationUnit(db: Database, a: Attempt, now: Time, eventId: Id, fuse: nat, cleanupFails: bool)
    returns (r: Result<Mutation, Error>)
    modifies db
    ensures EndsAs(MutationTx(old(db.tables), a, now, eventId), old(db.tables), db.tables, r,
      fuse >= 7 && !cleanupFails)
    ensures fuse >= 7 && MutationTx(old(db.tables), a, now, eventId).Success? ==> r.Success?
  {
    var uow := new UnitOfWork(db, fuse);
    match a.op {
      case ChangeRole(user, role) => r := ChangeRoleUnit(db, a, user, role, now, eventId, uow);
      case SetDisabled(user, disabled) => r := SetDisabledUnit(db, a, user, disabled, now, eventId, uow);
      case RevokeSession(session, reason) => r := RevokeSessionUnit(db, a, session, reason, now, eventId, uow);
    }
    if cleanupFails && r.Failure? {
      r := Failure(DatabaseUnavailable);
    }
  }

  /** Commits the attempted fact; anything but a conflict is reported as missing audit. */
  method CommitAttempted(db: Database, a: Attempt, now: Time, fuse: nat, cleanupFails: bool)
    returns (r: Result<(), Error>)
    modifies db
    ensures r.Success? ==>
      AppendFact(old(db.tables), a.id, a.AttemptedFact(now)) == Success(db.tables)
    ensures r.Failure? && !cleanupFails ==> db.tables == old(db.tables)
    ensures db.tables == old(db.tables) || AppendFact(old(db.tables), a.id, a.AttemptedFact(now)) == Success(db.tables)
    ensures fuse >= 3 && AppendFact(old(db.tables), a.id, a.AttemptedFact(now)).Success? ==>
      AppendFact(old(db.tables), a.id, a.AttemptedFact(now)) == Success(db.tables)
    ensures r.Failure? ==> r.error in {AuditConflict, AuditUnavailable}
    ensures fuse >= 3 && !cleanupFails ==>
      (r.Success? <==> AppendFact(old(db.tables), a.id, a.AttemptedFact(now)).Success?)
  {
    var uow := new UnitOfWork(db, fuse);
    var appended := AppendAudit(uow, a.id, a.AttemptedFact(now));
    if appended.Failure? {
      return Failure(if appended.error == AuditConflict && !cleanupFails then AuditConflict else AuditUnavailable);
    }
    var committed := uow.Commit();
    if committed.Failure? || cleanupFails {
      return Failure(AuditUnavailable);
    }
    r := Success(());
  }

  /**
   Records the outcome of a failed mutation. Whether that succeeded is exact,
   cleanup included; the caller sees the mutation's own error only if it did.
   */
  method RecordFailedOutcome(db: Database, a: Attempt, error: Error, now: Time, eventId: Id, fuse: nat,
      cleanupFails: bool)
    returns (raised: Error, recorded: bool)
    modifies db
    ensures recorded ==> AppendFact(old(db.tables), eventId, a.FailedFact(now, error)) == Success(db.tables)
    ensures recorded ==> raised == error
    ensures !recorded ==> db.tables == old(db.tables) && raised in {AuditConflict, AuditUnavailable}
    ensures fuse >= 3 ==> (recorded <==> AppendFact(old(db.tables), eventId, a.FailedFact(now, error)).Success?)
  {
    var uow := new UnitOfWork(db, fuse);
    var appended := AppendAudit(uow, eventId, a.FailedFact(now, error));
    if appended.Failure? {
      return if appended.error == AuditConflict && !cleanupFails then AuditConflict else AuditUnavailable, false;
    }
    var committed := uow.Commit();
    if committed.Failure? {
      return AuditUnavailable, false;
    }
    return error, true;
  }

  /** Calls back once per id, in order, whatever the earlier callbacks did. */
  method PropagateRevokes(ids: seq<Id>, raises: set<Id>) returns (called: seq<Id>, failed: seq<Id>)
    ensures called == ids
    ensures Elements(failed) == Elements(ids) * raises
    ensures NoDup(ids) ==> NoDup(failed)
  {
    called, failed := [], [];
    for i := 0 to |ids|
      invariant called == ids[..i]
      invariant Elements(failed) == Elements(ids[..i]) * raises
      invariant NoDup(ids) ==> NoDup(failed)
    {
      assert ids[..i + 1] == ids[..i] + [ids[i]];
      assert Elements(ids[..i + 1]) == Elements(ids[..i]) + {ids[i]};
      called := called + [ids[i]];
      if ids[i] in raises {
        assert NoDup(ids) ==> ids[i] !in Elements(failed);
        assert Elements(failed + [ids[i]]) == Elements(failed) + {ids[i]};
        failed := failed + [ids[i]];
      }
    }
    assert ids[..|ids|] == ids;
  }
}
