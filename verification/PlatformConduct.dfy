/** Who gets anything done over a run, and what each step of a request does for the one who asked. */
module PlatformConduct {
  import opened Wrappers
  import opened PlatformTables
  import opened PlatformEffects
  import opened PlatformRuns

  // ---- Only administrators, and not against themselves ----

  /** An administrator who does not take away the access they act with. */
  ghost predicate MayAsk(actor: Principal, op: Op) {
    && actor.role == Admin
    && (op.ChangeRole? ==> op.user != actor.userId)
    && (op.SetDisabled? && op.disabled ==> op.user != actor.userId)
  }

  ghost predicate AsksRightly(r: Request) {
    match r
    case Ready(actor, op) => MayAsk(actor, op)
    case Checked(actor, op, _) => MayAsk(actor, op)
    case Unchanged => true
    case Refused(_) => true
    case _ => MayAsk(r.a.actor, r.a.op)
  }

  /** What was stored about attempts since the start was said by somebody who may ask. */
  ghost predicate OnlyAdminsActed(start: Tables, w: World) {
    && (forall rid :: rid in w.reqs ==> AsksRightly(w.reqs[rid]))
    && forall e :: e in w.t.audit && e !in start.audit && w.t.audit[e].correlation.Some? ==>
         w.t.audit[e].actor.Some? && w.t.audit[e].actor.value.role == Admin
  }

  lemma NewFactOf(w: World, s: Step, e: Id)
    requires Inv(w) && Enabled(w, s) && e in Next(w, s).t.audit && e !in w.t.audit
    requires Next(w, s).t.audit[e].correlation.Some?
    ensures s.Begin? || s.Mutate? || s.RecordFailure?
    ensures var actor := if s.Begin? then w.reqs[s.rid].actor else w.reqs[s.rid].a.actor;
      Next(w, s).t.audit[e].actor == Some(actor)
  {
    match s
    case Mutate(rid, id, now, gone) => MutationEffect(w.t, w.reqs[rid].a, now, id);
    case LogIn(u, v, issue, id, now, gone) => LoginEffect(w.t, u, v, now, issue, id);
    case LogOut(who, id, now, gone) => LogoutEffect(w.t, who, now, id);
    case EndSession(session, reason, id, now, gone) => RevokeEffect(w.t, session, reason, now, id);
    case _ =>
  }

  lemma StepAsksRightly(w: World, s: Step)
    requires Enabled(w, s) && forall rid :: rid in w.reqs ==> AsksRightly(w.reqs[rid])
    ensures forall rid :: rid in Next(w, s).reqs ==> AsksRightly(Next(w, s).reqs[rid])
  {
    hide MutationTx, LoginTx, LogoutTx, InternalRevokeTx, Preflight;
  }

  lemma StepByAdmins(start: Tables, w: World, s: Step)
    requires Inv(w) && Enabled(w, s) && OnlyAdminsActed(start, w)
    ensures OnlyAdminsActed(start, Next(w, s))
  {
    hide Next, Enabled, Inv;
    StepAsksRightly(w, s);
    StepGrows(w, s);
    forall e | e in Next(w, s).t.audit && e !in start.audit && Next(w, s).t.audit[e].correlation.Some?
      ensures Next(w, s).t.audit[e].actor.Some? && Next(w, s).t.audit[e].actor.value.role == Admin
    {
      if e !in w.t.audit {
        NewFactOf(w, s, e);
        AskerIsAdmin(w, s);
      }
    }
  }

  lemma AskerIsAdmin(w: World, s: Step)
    requires Enabled(w, s) && (s.Begin? || s.Mutate? || s.RecordFailure?)
    requires forall rid :: rid in w.reqs ==> AsksRightly(w.reqs[rid])
    ensures var actor := if s.Begin? then w.reqs[s.rid].actor else w.reqs[s.rid].a.actor; actor.role == Admin
  {
  }

  lemma {:induction false} RunByAdmins(start: Tables, w: World, steps: seq<Step>)
    requires Inv(w) && OnlyAdminsActed(start, w) && Possible(w, steps)
    ensures OnlyAdminsActed(start, Run(w, steps))
    decreases |steps|
  {
    if steps != [] {
      StepKeeps(w, steps[0]);
      StepByAdmins(start, w, steps[0]);
      RunByAdmins(start, Next(w, steps[0]), steps[1..]);
    }
  }

  /**
   Nobody but an administrator ever gets as far as an attempt, and nobody with a
   request to change their own role or disable themselves. No fact about a
   management attempt is stored in anybody else's name.
   */
  lemma OnlyAdminsAttempt(w: World, steps: seq<Step>)
    requires Initial(w) && Possible(w, steps)
    ensures var w' := Run(w, steps);
      && (forall rid :: rid in w'.reqs && HasAttempt(w'.reqs[rid]) ==>
            MayAsk(w'.reqs[rid].a.actor, w'.reqs[rid].a.op))
      && forall e :: e in w'.t.audit && e !in w.t.audit && w'.t.audit[e].correlation.Some? ==>
           w'.t.audit[e].actor.Some? && w'.t.audit[e].actor.value.role == Admin
  {
    RunByAdmins(w.t, w, steps);
  }

  /** Who is turned away at the door, and why; everybody else goes on with what they asked for. */
  lemma ArrivalEffect(w: World, rid: Rid, actor: Principal, op: Op)
    requires Enabled(w, Arrive(rid, actor, op))
    ensures var w' := Next(w, Arrive(rid, actor, op));
      && w'.t == w.t && rid in w'.reqs
      && match w'.reqs[rid]
         case Ready(a, o) => a == actor && o == op && MayAsk(actor, op)
         case Refused(e) =>
           && !MayAsk(actor, op)
           && e == if actor.role != Admin then Forbidden else SelfManagement
         case _ => false
  {
  }

  // ---- What a request's own steps do ----

  /** The first read: a request ends there exactly when its target is missing or nothing is to be done. */
  lemma ReadEffect(w: World, rid: Rid, gone: bool)
    requires Enabled(w, Read(rid, gone))
    ensures var w', op := Next(w, Read(rid, gone)), w.reqs[rid].op;
      && w'.t == w.t
      && match w'.reqs[rid]
         case Unchanged => !gone && AlreadySo(w.t, op)
         case Refused(DatabaseUnavailable) => gone
         case Refused(UserNotFound) => !op.RevokeSession? && op.user !in w.t.users
         case Refused(SessionNotFound) => op.RevokeSession? && op.session !in w.t.sessions
         case Checked(actor, o, detail) => !gone && !AlreadySo(w.t, op) && actor == w.reqs[rid].actor && o == op
         case _ => false
  {
    PreflightEffect(w.t, w.reqs[rid].op);
  }

  /** The unit of a mutation: done as asked, with its sessions to be notified, or broken and nothing changed. */
  lemma MutateEffect(w: World, rid: Rid, id: Id, now: Time, gone: bool)
    requires Enabled(w, Mutate(rid, id, now, gone))
    ensures var w', a := Next(w, Mutate(rid, id, now, gone)), w.reqs[rid].a;
      match w'.reqs[rid]
      case Notifying(b, done, called, failed) =>
        b == a && called == failed == {} && !gone && Mutated(w.t, a, now, id, Commit(w'.t, done))
      case Broken(b, e) => b == a && w'.t == w.t && (gone <==> e == DatabaseUnavailable)
      case _ => false
  {
    MutationEffect(w.t, w.reqs[rid].a, now, id);
    var a := w.reqs[rid].a;
    match a.op
    case ChangeRole(u, r) => ChangeRoleEffect(w.t, a, u, r, now, id);
    case SetDisabled(u, d) => SetDisabledEffect(w.t, a, u, d, now, id);
    case RevokeSession(s, reason) => RevokeSessionEffect(w.t, a, s, reason, now, id);
  }

  /** After a role change its target has the role; after a disabling, it is disabled. */
  lemma TargetIsAsAsked(w: World, rid: Rid, id: Id, now: Time)
    requires Enabled(w, Mutate(rid, id, now, false)) && Next(w, Mutate(rid, id, now, false)).reqs[rid].Notifying?
    ensures var t', op := Next(w, Mutate(rid, id, now, false)).t, w.reqs[rid].a.op;
      && AlreadySo(t', op)
      && match op
         case ChangeRole(u, r) => t'.users[u].role == r && t'.users[u].disabledAt == w.t.users[u].disabledAt
         case SetDisabled(u, d) => (t'.users[u].disabledAt != None) == d && t'.users[u].role == w.t.users[u].role
         case RevokeSession(s, _) => t'.users == w.t.users
  {
    hide MutationTx;
    MutationEffect(w.t, w.reqs[rid].a, now, id);
  }

  /** A failure that is recorded is stored as what it was: refused by a rule, or broken. */
  lemma FailureEffect(w: World, rid: Rid, id: Id, now: Time)
    requires Inv(w) && Enabled(w, RecordFailure(rid, id, now, false))
    ensures var w', r := Next(w, RecordFailure(rid, id, now, false)), w.reqs[rid];
      && w'.t.users == w.t.users && w'.t.sessions == w.t.sessions && id in w'.t.audit
      && var e := w'.t.audit[id];
        && e.at == now && e.actor == Some(r.a.actor) && e.correlation == Some(r.a.id) && e.error == Some(r.error)
        && e.outcome == if r.error in {UserNotFound, SessionNotFound, LastAdminProtected, Forbidden, SelfManagement}
                        then Rejected else Errored
  {
    AttemptFacts(w.reqs[rid].a, now, w.reqs[rid].error);
  }

  /** One callback: it is counted once, and as failed exactly if it raised; nothing is undone. */
  lemma NotifyEffect(w: World, rid: Rid, session: Id, raises: bool)
    requires Enabled(w, Notify(rid, session, raises))
    ensures var w', r := Next(w, Notify(rid, session, raises)), w.reqs[rid];
      && w'.t == w.t && session !in r.called
      && w'.reqs[rid] == Notifying(r.a, r.done, r.called + {session},
           if raises then r.failed + {session} else r.failed)
  {
  }

  /** The answer tells what was done and whose callback failed, after every session was called back. */
  lemma ReturnEffect(w: World, rid: Rid)
    requires Enabled(w, Return(rid))
    ensures var w', r := Next(w, Return(rid)), w.reqs[rid];
      && w'.t == w.t && r.called == r.done.revoked && w'.reqs[rid] == Returned(r.a, r.done, r.called, r.failed)
  {
  }
}
