/**
 Any number of management, login and logout requests over one database, their
 units of work interleaved in any order, each possibly failing.
 */
module PlatformRuns {
  import opened Wrappers
  import opened PlatformTables
  import opened PlatformInvariants

  type Rid = nat

  /** How far a management request has come. `called` are the revoke callbacks made so far. */
  datatype Request =
    | Ready(actor: Principal, op: Op)
    | Checked(actor: Principal, op: Op, detail: Detail)
    | Begun(a: Attempt)
    | Broken(a: Attempt, error: Error)
    | Notifying(a: Attempt, done: Done, called: set<Id>, failed: set<Id>)
    | Unchanged
    | Refused(error: Error)
    | Returned(a: Attempt, done: Done, called: set<Id>, failed: set<Id>)
    | Raised(a: Attempt, error: Error, recorded: bool)
    | RaisedUnheld(a: Attempt)  // the attempted fact is in, but its commit was reported as failed

  predicate HasAttempt(r: Request) {
    r.Begun? || r.Broken? || r.Notifying? || r.Returned? || r.Raised? || r.RaisedUnheld?
  }

  /** `issued` holds every id that was ever drawn or is stored. */
  datatype World = World(t: Tables, reqs: map<Rid, Request>, issued: set<Id>)

  /** One scheduling step. `gone`: the database went away before the unit's commit. */
  datatype Step =
    | Arrive(rid: Rid, actor: Principal, op: Op)
    | Read(rid: Rid, gone: bool)
    | Begin(rid: Rid, id: Id, now: Time, gone: bool, cleanupFails: bool)
    | Mutate(rid: Rid, eventId: Id, now: Time, gone: bool)
    | RecordFailure(rid: Rid, eventId: Id, now: Time, gone: bool)
    | Notify(rid: Rid, session: Id, raises: bool)
    | Return(rid: Rid)
    | LogIn(user: Option<Id>, v: Verification, issue: Issue, eventId: Id, now: Time, gone: bool)
    | LogOut(who: Option<Id>, eventId: Id, now: Time, gone: bool)
    | EndSession(session: Id, reason: string, eventId: Id, now: Time, gone: bool)

  predicate Fresh(w: World, id: Id) { id !in w.issued }

  ghost predicate Enabled(w: World, s: Step) {
    match s
    case Arrive(rid, _, _) => rid !in w.reqs
    case Read(rid, _) => rid in w.reqs && w.reqs[rid].Ready?
    case Begin(rid, id, _, _, _) => rid in w.reqs && w.reqs[rid].Checked? && Fresh(w, id)
    case Mutate(rid, e, _, _) => rid in w.reqs && w.reqs[rid].Begun? && Fresh(w, e)
    case RecordFailure(rid, e, _, _) => rid in w.reqs && w.reqs[rid].Broken? && Fresh(w, e)
    case Notify(rid, s, _) =>
      rid in w.reqs && w.reqs[rid].Notifying? && s in w.reqs[rid].done.revoked - w.reqs[rid].called
    case Return(rid) => rid in w.reqs && w.reqs[rid].Notifying? && w.reqs[rid].called == w.reqs[rid].done.revoked
    case LogIn(u, _, issue, e, _, _) =>
      (u.Some? ==> u.value in w.t.users) && Fresh(w, issue.session) && Fresh(w, e) && e != issue.session
    case LogOut(_, e, _, _) => Fresh(w, e)
    case EndSession(_, _, e, _, _) => Fresh(w, e)
  }

  /** Only administrators are heard, and not about taking away their own access. */
  function Admitted(actor: Principal, op: Op): Request {
    if actor.role != Admin then Refused(Forbidden)
    else if op.ChangeRole? && op.user == actor.userId then Refused(SelfManagement)
    else if op.SetDisabled? && op.disabled && op.user == actor.userId then Refused(SelfManagement)
    else Ready(actor, op)
  }

  function AfterRead(t: Tables, actor: Principal, op: Op, gone: bool): Request {
    if gone then Refused(DatabaseUnavailable)
    else
      match Preflight(t, op)
      case Failure(e) => Refused(e)
      case Success(None) => Unchanged
      case Success(Some(detail)) => Checked(actor, op, detail)
  }

  function Next(w: World, s: Step): World
    requires Enabled(w, s)
  {
    match s
    case Arrive(rid, actor, op) => w.(reqs := w.reqs[rid := Admitted(actor, op)])
    case Read(rid, gone) => w.(reqs := w.reqs[rid := AfterRead(w.t, w.reqs[rid].actor, w.reqs[rid].op, gone)])
    case Begin(rid, id, now, gone, cleanupFails) =>
      if gone then World(w.t, w.reqs[rid := Refused(AuditUnavailable)], w.issued + {id})
      else
        var a := Attempt(id, w.reqs[rid].actor, w.reqs[rid].op, w.reqs[rid].detail);
        World(Insert(w.t, id, a.AttemptedFact(now)),
              w.reqs[rid := if cleanupFails then RaisedUnheld(a) else Begun(a)],
              w.issued + {id})
    case Mutate(rid, e, now, gone) =>
      var a := w.reqs[rid].a;
      var tx := if gone then Failure(DatabaseUnavailable) else MutationTx(w.t, a, now, e);
      if tx.Failure? then World(w.t, w.reqs[rid := Broken(a, tx.error)], w.issued + {e})
      else World(tx.value.after, w.reqs[rid := Notifying(a, tx.value.done, {}, {})], w.issued + {e})
    case RecordFailure(rid, e, now, gone) =>
      var a, error := w.reqs[rid].a, w.reqs[rid].error;
      World(if gone then w.t else Insert(w.t, e, a.FailedFact(now, error)),
            w.reqs[rid := Raised(a, error, !gone)],
            w.issued + {e})
    case Notify(rid, session, raises) =>
      var r := w.reqs[rid];
      w.(reqs := w.reqs[rid :=
        Notifying(r.a, r.done, r.called + {session}, if raises then r.failed + {session} else r.failed)])
    case Return(rid) =>
      var r := w.reqs[rid];
      w.(reqs := w.reqs[rid := Returned(r.a, r.done, r.called, r.failed)])
    case LogIn(u, v, issue, e, now, gone) =>
      World(if gone then w.t else LoginTx(w.t, u, v, now, issue, e).after, w.reqs, w.issued + {e, issue.session})
    case LogOut(session, e, now, gone) =>
      World(if gone then w.t else LogoutTx(w.t, session, now, e).after, w.reqs, w.issued + {e})
    case EndSession(session, reason, e, now, gone) =>
      World(if gone then w.t else InternalRevokeTx(w.t, session, reason, now, e).after, w.reqs, w.issued + {e})
  }

  // ---- Attempts and outcomes ----

  ghost predicate IsAttempted(t: Tables, c: Id) {
    c in t.audit && t.audit[c].outcome == Attempted && t.audit[c].correlation == Some(c)
  }

  /** The facts other than the attempted one that carry the correlation id `c`. */
  ghost function Outcomes(t: Tables, c: Id): set<Id> {
    set e | e in t.audit && t.audit[e].correlation == Some(c) && t.audit[e].outcome != Attempted
  }

  /** Every correlated fact belongs to an attempt, and no attempt has two outcomes. */
  ghost predicate Linked(t: Tables) {
    && (forall e :: e in t.audit && t.audit[e].correlation.Some? ==>
         IsAttempted(t, t.audit[e].correlation.value)
         && (t.audit[e].outcome == Attempted ==> t.audit[e].correlation == Some(e)))
    && forall c, e, e' :: e in Outcomes(t, c) && e' in Outcomes(t, c) ==> e == e'
  }

  /** A request's attempted fact is stored as that request made it. */
  ghost predicate Stored(t: Tables, a: Attempt) {
    a.id in t.audit && t.audit[a.id] == a.AttemptedFact(t.audit[a.id].at)
  }

  ghost predicate SucceededOnce(t: Tables, a: Attempt) {
    exists e :: Outcomes(t, a.id) == {e} && t.audit[e].outcome == Succeeded
  }

  ghost predicate FailedOnce(t: Tables, a: Attempt, error: Error) {
    exists e :: Outcomes(t, a.id) == {e} && t.audit[e] == a.FailedFact(t.audit[e].at, error)
  }

  ghost predicate AllRevoked(t: Tables, ids: set<Id>) {
    forall s :: s in ids ==> s in t.sessions && !t.sessions[s].Live()
  }

  ghost predicate RequestOk(t: Tables, r: Request) {
    && (HasAttempt(r) ==> Stored(t, r.a))
    && match r
       case Begun(a) => Outcomes(t, a.id) == {}
       case Broken(a, _) => Outcomes(t, a.id) == {}
       case Notifying(a, done, called, failed) =>
         SucceededOnce(t, a) && failed <= called <= done.revoked && AllRevoked(t, done.revoked)
       case Returned(a, done, called, failed) =>
         SucceededOnce(t, a) && failed <= called == done.revoked && AllRevoked(t, done.revoked)
       case Raised(a, error, recorded) =>
         if recorded then FailedOnce(t, a, error) else Outcomes(t, a.id) == {}
       case RaisedUnheld(a) => Outcomes(t, a.id) == {}
       case _ => true
  }

  /** No stored id, and none that a fact speaks of, will be drawn again. */
  ghost predicate IdsIssued(w: World) {
    && w.t.audit.Keys <= w.issued && w.t.sessions.Keys <= w.issued
    && forall e :: e in w.t.audit && w.t.audit[e].correlation.Some? ==> w.t.audit[e].correlation.value in w.issued
  }

  ghost predicate AttemptsApart(w: World) {
    forall i, j :: i in w.reqs && j in w.reqs && i != j && HasAttempt(w.reqs[i]) && HasAttempt(w.reqs[j]) ==>
      w.reqs[i].a.id != w.reqs[j].a.id
  }

  ghost predicate Inv(w: World) {
    && IdsIssued(w) && AttemptsApart(w)
    && forall rid :: rid in w.reqs ==> RequestOk(w.t, w.reqs[rid])
  }

  /** The audit gains at most one fact; sessions once revoked stay so. */
  ghost predicate Grows(t: Tables, t': Tables) {
    && (forall e :: e in t.audit ==> e in t'.audit && t'.audit[e] == t.audit[e])
    && forall s :: s in t.sessions && !t.sessions[s].Live() ==> s in t'.sessions && t'.sessions[s] == t.sessions[s]
  }

  /** One fact under a fresh id joins the audit, and no other. */
  ghost predicate Gains(t: Tables, t': Tables, id: Id, e: Event) {
    id !in t.audit && t'.audit == t.audit[id := e] && Grows(t, t')
  }

  lemma OutcomesAfter(t: Tables, t': Tables, id: Id, e: Event, c: Id)
    requires Gains(t, t', id, e)
    ensures Outcomes(t', c) == Outcomes(t, c) +
      (if e.correlation == Some(c) && e.outcome != Attempted then {id} else {})
  {
  }

  /** A fact keeps the links if it opens a new attempt, closes an open one, or has no correlation. */
  lemma GainKeepsLinked(t: Tables, t': Tables, id: Id, e: Event)
    requires Linked(t) && Gains(t, t', id, e)
    requires match e.correlation
      case None => true
      case Some(c) => if e.outcome == Attempted then c == id else IsAttempted(t, c) && Outcomes(t, c) == {}
    ensures Linked(t')
  {
    forall x | x in t'.audit && t'.audit[x].correlation.Some?
      ensures IsAttempted(t', t'.audit[x].correlation.value)
      ensures t'.audit[x].outcome == Attempted ==> t'.audit[x].correlation == Some(x)
    {
      if x != id {
        assert IsAttempted(t, t.audit[x].correlation.value);
      }
    }
    forall c, x, y | x in Outcomes(t', c) && y in Outcomes(t', c) ensures x == y {
      OutcomesAfter(t, t', id, e, c);
    }
  }

  /** No fact speaks of an id that was never issued. */
  lemma FreshHasNoOutcomes(w: World, c: Id)
    requires IdsIssued(w) && Fresh(w, c)
    ensures Outcomes(w.t, c) == {}
  {
  }

  /** A request whose attempt is not the one a new fact is about is not affected by it. */
  lemma OthersKept(t: Tables, t': Tables, id: Id, e: Event, r: Request)
    requires RequestOk(t, r) && Gains(t, t', id, e)
    requires HasAttempt(r) ==> e.correlation != Some(r.a.id) || e.outcome == Attempted
    ensures RequestOk(t', r)
  {
    if HasAttempt(r) {
      OutcomesAfter(t, t', id, e, r.a.id);
      assert Outcomes(t', r.a.id) == Outcomes(t, r.a.id);
      if r.Notifying? || r.Returned? {
        var x :| Outcomes(t, r.a.id) == {x} && t.audit[x].outcome == Succeeded;
        assert x in Outcomes(t, r.a.id);
        assert Outcomes(t', r.a.id) == {x} && t'.audit[x].outcome == Succeeded;
      }
      if r.Raised? && r.recorded {
        var x :| Outcomes(t, r.a.id) == {x} && t.audit[x] == r.a.FailedFact(t.audit[x].at, r.error);
        assert x in Outcomes(t, r.a.id);
        assert Outcomes(t', r.a.id) == {x} && t'.audit[x] == r.a.FailedFact(t'.audit[x].at, r.error);
      }
    }
  }

  // ---- The new fact of each unit ----

  /** A successful mutation gains exactly its SUCCEEDED fact, correlated with the attempt. */
  lemma MutationGains(t: Tables, a: Attempt, now: Time, id: Id)
    requires id !in t.audit && MutationTx(t, a, now, id).Success?
    ensures var t' := MutationTx(t, a, now, id).value.after;
      id in t'.audit && Gains(t, t', id, t'.audit[id])
      && t'.audit[id].outcome == Succeeded && t'.audit[id].correlation == Some(a.id)
  {
    MutationAudit(t, a, now, id);
    MutationSessions(t, a, now, id);
  }

  /** Whatever the request, the unit's last step is to store its fact. */
  lemma MutationAudit(t: Tables, a: Attempt, now: Time, id: Id)
    requires id !in t.audit && MutationTx(t, a, now, id).Success?
    ensures var t' := MutationTx(t, a, now, id).value.after;
      && id in t'.audit && t'.audit == t.audit[id := t'.audit[id]]
      && t'.audit[id].outcome == Succeeded && t'.audit[id].correlation == Some(a.id)
  {
    match a.op
    case ChangeRole(u, r) => ChangeRoleAudit(t, a, u, r, now, id);
    case SetDisabled(u, d) => SetDisabledAudit(t, a, u, d, now, id);
    case RevokeSession(_, _) =>
  }

  lemma ChangeRoleAudit(t: Tables, a: Attempt, u: Id, r: Role, now: Time, id: Id)
    requires id !in t.audit && ChangeRoleTx(t, a, u, r, now, id).Success?
    ensures var t' := ChangeRoleTx(t, a, u, r, now, id).value.after;
      && id in t'.audit && t'.audit == t.audit[id := t'.audit[id]]
      && t'.audit[id].outcome == Succeeded && t'.audit[id].correlation == Some(a.id)
  {
  }

  lemma SetDisabledAudit(t: Tables, a: Attempt, u: Id, d: bool, now: Time, id: Id)
    requires id !in t.audit && SetDisabledTx(t, a, u, d, now, id).Success?
    ensures var t' := SetDisabledTx(t, a, u, d, now, id).value.after;
      && id in t'.audit && t'.audit == t.audit[id := t'.audit[id]]
      && t'.audit[id].outcome == Succeeded && t'.audit[id].correlation == Some(a.id)
  {
  }

  lemma MutationRevokes(t: Tables, a: Attempt, now: Time, id: Id)
    requires MutationTx(t, a, now, id).Success?
    ensures AllRevoked(MutationTx(t, a, now, id).value.after, MutationTx(t, a, now, id).value.done.revoked)
  {
    MutationSessions(t, a, now, id);
  }

  lemma EndSessionGains(t: Tables, s: Option<Id>, now: Time, reason: string, kind: Action, id: Id)
    requires id !in t.audit
    ensures var t' := EndSessionTx(t, s, now, reason, kind, id).after;
      t' == t || (id in t'.audit && Gains(t, t', id, t'.audit[id]) && t'.audit[id].correlation == None)
  {
  }

  lemma LoginGains(t: Tables, u: Option<Id>, v: Verification, now: Time, issue: Issue, id: Id)
    requires id !in t.audit && (u.Some? ==> u.value in t.users)
    ensures var t' := LoginTx(t, u, v, now, issue, id).after;
      t' == t || (id in t'.audit && Gains(t, t', id, t'.audit[id]) && t'.audit[id].correlation == None)
  {
  }

  /** The tables after a login, logout or internal revoke keep everything that is about tables alone. */
  ghost predicate Quiet(t: Tables, t': Tables, id: Id) {
    t' == t || (id in t'.audit && Gains(t, t', id, t'.audit[id]) && t'.audit[id].correlation == None)
  }

  lemma QuietKeeps(w: World, t': Tables, id: Id, issued': set<Id>)
    requires Inv(w) && Quiet(w.t, t', id)
    requires w.issued <= issued' && t'.audit.Keys <= issued' && t'.sessions.Keys <= issued'
    ensures Inv(World(t', w.reqs, issued'))
  {
    if t' != w.t {
      forall rid | rid in w.reqs ensures RequestOk(t', w.reqs[rid]) {
        OthersKept(w.t, t', id, t'.audit[id], w.reqs[rid]);
      }
    }
  }

  lemma LogInKeeps(w: World, s: Step)
    requires Inv(w) && Enabled(w, s) && s.LogIn?
    ensures Inv(Next(w, s))
  {
    var t' := LoginTx(w.t, s.user, s.v, s.now, s.issue, s.eventId).after;
    LoginGains(w.t, s.user, s.v, s.now, s.issue, s.eventId);
    QuietKeeps(w, if s.gone then w.t else t', s.eventId, w.issued + {s.eventId, s.issue.session});
  }

  lemma EndSessionKeeps(w: World, who: Option<Id>, now: Time, reason: string, kind: Action, id: Id)
    requires Inv(w) && Fresh(w, id)
    ensures Inv(World(EndSessionTx(w.t, who, now, reason, kind, id).after, w.reqs, w.issued + {id}))
  {
    var t' := EndSessionTx(w.t, who, now, reason, kind, id).after;
    EndSessionGains(w.t, who, now, reason, kind, id);
    assert t'.sessions.Keys == w.t.sessions.Keys;
    QuietKeeps(w, t', id, w.issued + {id});
  }

  /** A step that touches one request and stores nothing. */
  lemma RequestStepKeeps(w: World, rid: Rid, r: Request, issued': set<Id>)
    requires Inv(w) && RequestOk(w.t, r) && w.issued <= issued'
    requires HasAttempt(r) ==> rid in w.reqs && HasAttempt(w.reqs[rid]) && w.reqs[rid].a == r.a
    ensures Inv(World(w.t, w.reqs[rid := r], issued'))
  {
  }

  /** A step that touches one request and stores one fact about its attempt. */
  lemma FactStepKeeps(w: World, rid: Rid, r: Request, t': Tables, id: Id)
    requires Inv(w) && Fresh(w, id) && id in t'.audit && Gains(w.t, t', id, t'.audit[id])
    requires t'.sessions.Keys <= w.issued
    requires HasAttempt(r) && RequestOk(t', r) && t'.audit[id].correlation == Some(r.a.id)
    requires r.a.id == id || (rid in w.reqs && HasAttempt(w.reqs[rid]) && w.reqs[rid].a == r.a)
    ensures Inv(World(t', w.reqs[rid := r], w.issued + {id}))
  {
    var w' := World(t', w.reqs[rid := r], w.issued + {id});
    forall x | x in w'.reqs ensures RequestOk(t', w'.reqs[x]) {
      if x != rid {
        OthersKept(w.t, t', id, t'.audit[id], w.reqs[x]);
      }
    }
    forall x | x in w.reqs && HasAttempt(w.reqs[x]) ensures w.reqs[x].a.id in w.issued {
      assert Stored(w.t, w.reqs[x].a);
    }
  }

  lemma BeginKeeps(w: World, s: Step)
    requires Inv(w) && Enabled(w, s) && s.Begin? && !s.gone
    ensures Inv(Next(w, s))
  {
    var r := w.reqs[s.rid];
    var a := Attempt(s.id, r.actor, r.op, r.detail);
    var e := a.AttemptedFact(s.now);
    var t' := Insert(w.t, s.id, e);
    FreshHasNoOutcomes(w, s.id);
    OutcomesAfter(w.t, t', s.id, e, s.id);
    FactStepKeeps(w, s.rid, if s.cleanupFails then RaisedUnheld(a) else Begun(a), t', s.id);
  }

  lemma MutateKeeps(w: World, s: Step)
    requires Inv(w) && Enabled(w, s) && s.Mutate? && !s.gone
    requires MutationTx(w.t, w.reqs[s.rid].a, s.now, s.eventId).Success?
    ensures Inv(Next(w, s))
  {
    var a := w.reqs[s.rid].a;
    assert RequestOk(w.t, w.reqs[s.rid]);
    var c := MutationTx(w.t, a, s.now, s.eventId).value;
    MutationGains(w.t, a, s.now, s.eventId);
    MutationRevokes(w.t, a, s.now, s.eventId);
    OutcomesAfter(w.t, c.after, s.eventId, c.after.audit[s.eventId], a.id);
    assert Outcomes(c.after, a.id) == {s.eventId};
    MutationSessions(w.t, a, s.now, s.eventId);
    FactStepKeeps(w, s.rid, Notifying(a, c.done, {}, {}), c.after, s.eventId);
  }

  lemma RecordFailureKeeps(w: World, s: Step)
    requires Inv(w) && Enabled(w, s) && s.RecordFailure? && !s.gone
    ensures Inv(Next(w, s))
  {
    var r := w.reqs[s.rid];
    assert RequestOk(w.t, r);
    var e := r.a.FailedFact(s.now, r.error);
    var t' := Insert(w.t, s.eventId, e);
    OutcomesAfter(w.t, t', s.eventId, e, r.a.id);
    assert Outcomes(t', r.a.id) == {s.eventId};
    FactStepKeeps(w, s.rid, Raised(r.a, r.error, true), t', s.eventId);
  }

  lemma StepKeeps(w: World, s: Step)
    requires Inv(w) && Enabled(w, s)
    ensures Inv(Next(w, s))
  {
    if s.LogIn? || s.LogOut? || s.EndSession? {
      SessionStepKeeps(w, s);
    } else if s.Arrive? || s.Read? || s.Notify? || s.Return? {
      PlainStepKeeps(w, s);
    } else {
      UnitStepKeeps(w, s);
    }
  }

  lemma SessionStepKeeps(w: World, s: Step)
    requires Inv(w) && Enabled(w, s) && (s.LogIn? || s.LogOut? || s.EndSession?)
    ensures Inv(Next(w, s))
  {
    match s
    case LogIn(_, _, _, _, _, _) => LogInKeeps(w, s);
    case LogOut(who, e, now, gone) =>
      if gone { QuietKeeps(w, w.t, e, w.issued + {e}); } else { EndSessionKeeps(w, who, now, "logout", Logout, e); }
    case EndSession(session, reason, e, now, gone) =>
      QuietKeeps(w, w.t, e, w.issued + {e});
      EndSessionKeeps(w, Some(session), now, reason, SessionRevoke, e);
  }

  /** The steps of a request that open a unit of work. */
  lemma UnitStepKeeps(w: World, s: Step)
    requires Inv(w) && Enabled(w, s) && (s.Begin? || s.Mutate? || s.RecordFailure?)
    ensures Inv(Next(w, s))
  {
    match s
    case Begin(rid, id, _, gone, _) =>
      if gone { RequestStepKeeps(w, rid, Refused(AuditUnavailable), w.issued + {id}); } else { BeginKeeps(w, s); }
    case Mutate(rid, e, now, gone) =>
      var a := w.reqs[rid].a;
      assert RequestOk(w.t, w.reqs[rid]);
      if gone {
        RequestStepKeeps(w, rid, Broken(a, DatabaseUnavailable), w.issued + {e});
      } else if MutationTx(w.t, a, now, e).Failure? {
        RequestStepKeeps(w, rid, Broken(a, MutationTx(w.t, a, now, e).error), w.issued + {e});
      } else {
        MutateKeeps(w, s);
      }
    case RecordFailure(rid, e, _, gone) =>
      var r := w.reqs[rid];
      assert RequestOk(w.t, r);
      if gone {
        RequestStepKeeps(w, rid, Raised(r.a, r.error, false), w.issued + {e});
      } else {
        RecordFailureKeeps(w, s);
      }
  }

  /** The steps of a request that write nothing. */
  lemma PlainStepKeeps(w: World, s: Step)
    requires Inv(w) && Enabled(w, s) && (s.Arrive? || s.Read? || s.Notify? || s.Return?)
    ensures Inv(Next(w, s))
  {
    match s
    case Arrive(rid, actor, op) => RequestStepKeeps(w, rid, Admitted(actor, op), w.issued);
    case Read(rid, gone) => RequestStepKeeps(w, rid, AfterRead(w.t, w.reqs[rid].actor, w.reqs[rid].op, gone), w.issued);
    case Notify(rid, _, _) =>
      assert RequestOk(w.t, w.reqs[rid]);
      RequestStepKeeps(w, rid, Next(w, s).reqs[rid], w.issued);
    case Return(rid) =>
      assert RequestOk(w.t, w.reqs[rid]);
      RequestStepKeeps(w, rid, Next(w, s).reqs[rid], w.issued);
  }

  // ---- Whole runs ----

  ghost predicate Possible(w: World, steps: seq<Step>)
    decreases |steps|
  {
    steps != [] ==> Enabled(w, steps[0]) && Possible(Next(w, steps[0]), steps[1..])
  }

  function Run(w: World, steps: seq<Step>): World
    requires Possible(w, steps)
    decreases |steps|
  {
    if steps == [] then w else Run(Next(w, steps[0]), steps[1..])
  }

  lemma {:induction false} RunKeeps(w: World, steps: seq<Step>)
    requires Inv(w) && Possible(w, steps)
    ensures Inv(Run(w, steps))
    decreases |steps|
  {
    if steps != [] {
      StepKeeps(w, steps[0]);
      RunKeeps(Next(w, steps[0]), steps[1..]);
    }
  }

  lemma StepKeepsRestorable(w: World, s: Step)
    requires Restorable(w.t) && Enabled(w, s)
    ensures Restorable(Next(w, s).t)
  {
    match s
    case Begin(rid, id, now, _, _) =>
      var r := w.reqs[rid];
      AuditKeepsRestorable(w.t, id, Attempt(id, r.actor, r.op, r.detail).AttemptedFact(now));
    case Mutate(rid, e, now, _) =>
      if MutationTx(w.t, w.reqs[rid].a, now, e).Success? { MutationKeepsRestorable(w.t, w.reqs[rid].a, now, e); }
    case RecordFailure(rid, e, now, _) =>
      AuditKeepsRestorable(w.t, e, w.reqs[rid].a.FailedFact(now, w.reqs[rid].error));
    case LogIn(u, v, issue, e, now, _) => LoginKeepsRestorable(w.t, u, v, now, issue, e);
    case LogOut(who, e, now, _) => EndSessionKeepsRestorable(w.t, who, now, "logout", Logout, e);
    case EndSession(session, reason, e, now, _) =>
      EndSessionKeepsRestorable(w.t, Some(session), now, reason, SessionRevoke, e);
    case _ =>
  }

  /** Every interleaving keeps the three restore checks, whatever else the database holds and is busy with. */
  lemma {:induction false} EveryRunIsRestorable(w: World, steps: seq<Step>)
    requires Restorable(w.t) && Possible(w, steps)
    ensures EnabledAdmins(Run(w, steps).t) != {}
    ensures forall s :: s in Run(w, steps).t.sessions ==> SessionOk(Run(w, steps).t, s)
    decreases |steps|
  {
    if steps != [] {
      StepKeepsRestorable(w, steps[0]);
      EveryRunIsRestorable(Next(w, steps[0]), steps[1..]);
    }
  }

  lemma StepKeepsRoles(w: World, s: Step)
    requires RolesCurrent(w.t) && Enabled(w, s)
    ensures RolesCurrent(Next(w, s).t)
  {
    match s
    case Begin(rid, id, now, _, _) =>
      var r := w.reqs[rid];
      AuditKeepsRoles(w.t, id, Attempt(id, r.actor, r.op, r.detail).AttemptedFact(now));
    case Mutate(rid, e, now, _) =>
      if MutationTx(w.t, w.reqs[rid].a, now, e).Success? { MutationKeepsRoles(w.t, w.reqs[rid].a, now, e); }
    case RecordFailure(rid, e, now, _) =>
      AuditKeepsRoles(w.t, e, w.reqs[rid].a.FailedFact(now, w.reqs[rid].error));
    case LogIn(u, v, issue, e, now, _) => LoginKeepsRoles(w.t, u, v, now, issue, e);
    case LogOut(who, e, now, _) => EndSessionKeepsRoles(w.t, who, now, "logout", Logout, e);
    case EndSession(session, reason, e, now, _) =>
      EndSessionKeepsRoles(w.t, Some(session), now, reason, SessionRevoke, e);
    case _ =>
  }

  /** Every live session was issued under the role its user has now, if that was so at the start. */
  lemma {:induction false} EveryLiveSessionHasCurrentRole(w: World, steps: seq<Step>, s: Id)
    requires RolesCurrent(w.t) && Possible(w, steps)
    requires s in Run(w, steps).t.sessions && Run(w, steps).t.sessions[s].Live()
    ensures IssuedUnderRole(Run(w, steps).t, s)
    decreases |steps|
  {
    if steps != [] {
      StepKeepsRoles(w, steps[0]);
      EveryLiveSessionHasCurrentRole(Next(w, steps[0]), steps[1..], s);
    }
  }

  lemma StepKeepsLinked(w: World, s: Step)
    requires Inv(w) && Linked(w.t) && Enabled(w, s)
    ensures Linked(Next(w, s).t)
  {
    match s
    case Begin(rid, id, now, _, _) =>
      var r := w.reqs[rid];
      var e := Attempt(id, r.actor, r.op, r.detail).AttemptedFact(now);
      GainKeepsLinked(w.t, Insert(w.t, id, e), id, e);
    case Mutate(rid, e, now, gone) =>
      if !gone && MutationTx(w.t, w.reqs[rid].a, now, e).Success? { MutateKeepsLinked(w, w.reqs[rid], now, e); }
    case RecordFailure(rid, e, now, _) =>
      assert RequestOk(w.t, w.reqs[rid]);
      var fact := w.reqs[rid].a.FailedFact(now, w.reqs[rid].error);
      GainKeepsLinked(w.t, Insert(w.t, e, fact), e, fact);
    case LogIn(u, v, issue, e, now, _) =>
      LoginGains(w.t, u, v, now, issue, e);
      QuietKeepsLinked(w.t, LoginTx(w.t, u, v, now, issue, e).after, e);
    case LogOut(who, e, now, _) => EndingKeepsLinked(w.t, who, now, "logout", Logout, e);
    case EndSession(session, reason, e, now, _) =>
      EndingKeepsLinked(w.t, Some(session), now, reason, SessionRevoke, e);
    case _ =>
  }

  lemma MutateKeepsLinked(w: World, r: Request, now: Time, id: Id)
    requires Linked(w.t) && r.Begun? && RequestOk(w.t, r) && id !in w.t.audit
    requires MutationTx(w.t, r.a, now, id).Success?
    ensures Linked(MutationTx(w.t, r.a, now, id).value.after)
  {
    var t' := MutationTx(w.t, r.a, now, id).value.after;
    MutationGains(w.t, r.a, now, id);
    GainKeepsLinked(w.t, t', id, t'.audit[id]);
  }

  lemma EndingKeepsLinked(t: Tables, who: Option<Id>, now: Time, reason: string, kind: Action, id: Id)
    requires Linked(t) && id !in t.audit
    ensures Linked(EndSessionTx(t, who, now, reason, kind, id).after)
  {
    EndSessionGains(t, who, now, reason, kind, id);
    QuietKeepsLinked(t, EndSessionTx(t, who, now, reason, kind, id).after, id);
  }

  lemma QuietKeepsLinked(t: Tables, t': Tables, id: Id)
    requires Linked(t) && Quiet(t, t', id)
    ensures Linked(t')
  {
    if t' != t {
      GainKeepsLinked(t, t', id, t'.audit[id]);
    }
  }

  /** Every correlated fact belongs to an attempt, and no attempt has two outcomes, if that was so at the start. */
  lemma {:induction false} EveryFactIsLinked(w: World, steps: seq<Step>)
    requires Inv(w) && Linked(w.t) && Possible(w, steps)
    ensures Linked(Run(w, steps).t)
    decreases |steps|
  {
    if steps != [] {
      StepKeeps(w, steps[0]);
      StepKeepsLinked(w, steps[0]);
      EveryFactIsLinked(Next(w, steps[0]), steps[1..]);
    }
  }

  /** Any database, before the first request: ids come from a supply that draws none of those in it. */
  ghost predicate Initial(w: World) { w.reqs == map[] && IdsIssued(w) }

  /**
   Every attempt has at most one outcome; a request that returns has exactly
   one, a success, and has called back once for each session it revoked, all of
   which are revoked; one that raises has its failure recorded if it says so.
   */
  lemma EveryAttemptIsSettled(w: World, steps: seq<Step>, rid: Rid)
    requires Initial(w) && Possible(w, steps) && rid in Run(w, steps).reqs
    ensures var t, r := Run(w, steps).t, Run(w, steps).reqs[rid];
      && (HasAttempt(r) ==> |Outcomes(t, r.a.id)| <= 1)
      && (r.Returned? ==> SucceededOnce(t, r.a) && r.called == r.done.revoked && AllRevoked(t, r.called))
      && (r.Notifying? ==> r.called <= r.done.revoked && AllRevoked(t, r.done.revoked))
      && (r.Raised? && r.recorded ==> FailedOnce(t, r.a, r.error))
  {
    RunKeeps(w, steps);
    assert RequestOk(Run(w, steps).t, Run(w, steps).reqs[rid]);
  }

  /**
   Users and sessions change only in a unit that also stores a SUCCEEDED fact.
   In a management mutation that fact is correlated with an ATTEMPTED fact
   stored earlier.
   */
  lemma ChangesAreAudited(w: World, s: Step)
    requires Inv(w) && Enabled(w, s)
    requires Next(w, s).t.users != w.t.users || Next(w, s).t.sessions != w.t.sessions
    ensures s.Mutate? || s.LogIn? || s.LogOut? || s.EndSession?
    ensures s.eventId !in w.t.audit && s.eventId in Next(w, s).t.audit
    ensures Next(w, s).t.audit[s.eventId].outcome == Succeeded
    ensures s.Mutate? ==>
      Next(w, s).t.audit[s.eventId].correlation.Some?
        && IsAttempted(w.t, Next(w, s).t.audit[s.eventId].correlation.value)
  {
    match s
    case Mutate(_, _, _, _) => MutationIsAudited(w, s);
    case LogIn(_, _, _, _, _, _) => LogInIsAudited(w, s);
    case LogOut(_, _, _, _) => EndingIsAudited(w, s);
    case EndSession(_, _, _, _, _) => EndingIsAudited(w, s);
    case _ =>
  }

  lemma MutationIsAudited(w: World, s: Step)
    requires Inv(w) && Enabled(w, s) && s.Mutate? && Next(w, s).t != w.t
    ensures s.eventId !in w.t.audit && s.eventId in Next(w, s).t.audit
    ensures Next(w, s).t.audit[s.eventId].outcome == Succeeded
    ensures Next(w, s).t.audit[s.eventId].correlation.Some?
    ensures IsAttempted(w.t, Next(w, s).t.audit[s.eventId].correlation.value)
  {
    assert RequestOk(w.t, w.reqs[s.rid]);
    MutationGains(w.t, w.reqs[s.rid].a, s.now, s.eventId);
  }

  lemma LogInIsAudited(w: World, s: Step)
    requires Inv(w) && Enabled(w, s) && s.LogIn?
    requires Next(w, s).t.users != w.t.users || Next(w, s).t.sessions != w.t.sessions
    ensures s.eventId !in w.t.audit && s.eventId in Next(w, s).t.audit
    ensures Next(w, s).t.audit[s.eventId].outcome == Succeeded
  {
  }

  lemma EndingIsAudited(w: World, s: Step)
    requires Inv(w) && Enabled(w, s) && (s.LogOut? || s.EndSession?)
    requires Next(w, s).t.users != w.t.users || Next(w, s).t.sessions != w.t.sessions
    ensures s.eventId !in w.t.audit && s.eventId in Next(w, s).t.audit
    ensures Next(w, s).t.audit[s.eventId].outcome == Succeeded
  {
  }

  /** Nothing a unit commits is ever taken back: facts stay as they are and revoked sessions stay revoked. */
  lemma {:induction false} RunGrows(w: World, steps: seq<Step>)
    requires Inv(w) && Possible(w, steps)
    ensures Grows(w.t, Run(w, steps).t)
    decreases |steps|
  {
    if steps != [] {
      var s := steps[0];
      StepKeeps(w, s);
      assert Grows(w.t, Next(w, s).t) by { StepGrows(w, s); }
      RunGrows(Next(w, s), steps[1..]);
    }
  }

  lemma StepGrows(w: World, s: Step)
    requires Inv(w) && Enabled(w, s)
    ensures Grows(w.t, Next(w, s).t)
  {
    match s
    case Mutate(rid, e, now, gone) =>
      if !gone && MutationTx(w.t, w.reqs[rid].a, now, e).Success? { MutationGains(w.t, w.reqs[rid].a, now, e); }
    case LogIn(u, v, issue, e, now, _) => LoginGains(w.t, u, v, now, issue, e);
    case LogOut(who, e, now, _) => EndSessionGains(w.t, who, now, "logout", Logout, e);
    case EndSession(session, reason, e, now, _) => EndSessionGains(w.t, Some(session), now, reason, SessionRevoke, e);
    case _ =>
  }
}
