/**
 Commands through the audit gateway. Between any two of its steps other calls may
 act; what a call promises them is what it relies on itself.
 */
module Gateway {
  import opened Wrappers
  import opened AuditEvents
  import opened AuditStore
  import opened AuditIdentity
  import opened GatewaySteps
  import opened GatewayFacts
  import Uuids
  import C = CockpitModel
  import S = CockpitService
  import T = Transitions

  /** Waiting, then one step about one's own event. */
  lemma WaitAndStep(a: World, b: World, c: World, call: nat, ids: set<string>, id: string)
    requires Elsewhere(a, b, call, ids) && IsStep(b, c, Some(call), id)
    ensures Grows(a, c)
    ensures c.log == b.log ==> Own(c.log, call) == Own(a.log, call)
    ensures forall x :: x in ids && Uuids.Parse(x) != Uuids.Parse(id) ==> SameAbout(a, c, x)
  {
    GrowsOn(a, b, c);
  }

  lemma AskAmong(
    a: World, b: World, q: Request, call: nat, attempt: Option<Event>, u: T.Supply, now: int,
    connectivity: Connectivity, break_: Break)
    requires Grows(a, b) && MayApply(b, q, attempt) && Own(b.log, call) == Own(a.log, call)
    ensures var (c, r) := AskAt(b, q, call, attempt, u, now, connectivity, break_);
      OwnMoves(a, c, q, call, attempt, u, now, r)
  {
    AskMoves(b, q, call, attempt, u, now, connectivity, break_);
  }

  class CommandGateway {
    const sink: AuditSink
    const hasFallback: bool
    ghost const start: C.Snapshot
    var fallback: seq<Event>
    var snapshot: C.Snapshot
    ghost var log: seq<Change>
    ghost var drawn: set<string>

    ghost function View(): World
      reads this, sink.table
    {
      World(start, snapshot, sink.table.rows, fallback, log, drawn)
    }

    constructor (sink: AuditSink, hasFallback: bool, snapshot: C.Snapshot)
      requires RowsOk(sink.table.rows)
      ensures this.sink == sink && this.hasFallback == hasFallback
      ensures View() == World(snapshot, snapshot, sink.table.rows, [], [], {}) && Sound(View())
    {
      this.sink, this.hasFallback, this.snapshot := sink, hasFallback, snapshot;
      start, fallback, log, drawn := snapshot, [], [], {};
    }

    /** Other calls, and whatever else changes the snapshot. */
    method Others(ghost call: nat, ghost ids: set<string>)
      requires Sound(View())
      modifies this, sink.table
      ensures Elsewhere(old(View()), View(), call, ids)
    {
    }

    method AppendFallback(e: Event, writes: bool) returns (d: Delivery)
      modifies this`fallback
      ensures d == if hasFallback && ToRow(e).Success? && writes then Fallback else Lost
      ensures fallback == if d.Fallback? then old(fallback) + [FallbackEvent(e)] else old(fallback)
    {
      if !hasFallback || ToRow(e).Failure? || !writes {
        return Lost;
      }
      fallback := fallback + [FallbackEvent(e)];
      d := Fallback;
    }

    /** Where the event went. */
    method Record(e: Event, allowFallback: bool, st: Stores) returns (r: Result<Delivery, RecordError>)
      requires RowsOk(sink.table.rows)
      modifies this`fallback, this`drawn, sink.table
      ensures (View(), r) == RecordAt(old(View()), e, allowFallback, hasFallback, st)
    {
      drawn := drawn + {e.id};
      var appended := sink.Append(e, st.ready, st.fuse);
      if appended.Success? {
        return Success(Primary);
      }
      if appended.error.Conflict? {
        return Failure(ConflictRaised);
      }
      if !allowFallback {
        return Failure(AuditUnavailable);
      }
      var d := AppendFallback(e, st.fallbackWrites);
      r := Success(d);
    }

    /** The authority decides; what it changes is logged. It may also break, before or after the change. */
    method ApplyAuthority(
      q: Request, ghost call: nat, ghost attempt: Option<Event>, u: T.Supply, now: int, connectivity: Connectivity,
      break_: Break)
      returns (r: AuthorityResult)
      modifies this`snapshot, this`log
      ensures (View(), r) == AskAt(old(View()), q, call, attempt, u, now, connectivity, break_)
    {
      if break_.Early? {
        return Broken;
      }
      if !q.permitted {
        return Refusal(T.CommandForbidden);
      }
      var out := T.Apply(snapshot, q.command, u);
      if out.Rejected? {
        return Refusal(out.why);
      }
      if out.Changed? {
        ghost var before := View();
        var was := snapshot.connectivity;
        snapshot := S.Touched(out.snapshot, now);
        snapshot := snapshot.(connectivity := if out.reset then connectivity else was);
        log := log + [ChangeOf(before, q, call, attempt, snapshot)];
        if break_.Late? {
          return Broken;
        }
      }
      r := Shown(snapshot);
    }

    /** One step: the event is recorded. */
    method RecordStep(e: Event, allowFallback: bool, st: Stores, ghost call: nat)
      returns (r: Result<Delivery, RecordError>)
      requires Sound(View())
      modifies this, sink.table
      ensures IsStep(old(View()), View(), Some(call), e.id) && log == old(log) && e.id in drawn
      ensures Reported(old(View()), View(), e, r, allowFallback) && ReachesTable(e, st, r)
    {
      RecordReaches(View(), e, allowFallback, hasFallback, st);
      r := Record(e, allowFallback, st);
      RecordIsStep(old(View()), e, allowFallback, hasFallback, st, Some(call));
      RecordReports(old(View()), e, allowFallback, hasFallback, st);
    }

    /** The same, after other calls had their turn. */
    method RecordAmong(e: Event, allowFallback: bool, st: Stores, ghost call: nat, ghost ids: set<string>)
      returns (r: Result<Delivery, RecordError>)
      requires Sound(View()) && e.id in ids
      modifies this, sink.table
      ensures Grows(old(View()), View()) && Own(log, call) == Own(old(log), call) && e.id in drawn
      ensures forall id :: id in ids && Uuids.Parse(id) != Uuids.Parse(e.id) ==> SameAbout(old(View()), View(), id)
      ensures UsesAttempt(log, e.id) <==> UsesAttempt(old(log), e.id)
      ensures Reported(old(View()), View(), e, r, allowFallback) && ReachesTable(e, st, r)
    {
      Others(call, ids);
      ghost var waited := View();
      r := RecordStep(e, allowFallback, st, call);
      WaitAndStep(old(View()), waited, View(), call, ids, e.id);
      assert SameAbout(old(View()), waited, e.id);
    }

    /** One step: the authority is asked. */
    method AskStep(
      q: Request, ghost call: nat, ghost attempt: Option<Event>, u: T.Supply, now: int, connectivity: Connectivity,
      break_: Break, ghost id: string)
      returns (r: AuthorityResult)
      requires Sound(View()) && MayApply(View(), q, attempt) && (attempt.Some? ==> attempt.value.id == id)
      modifies this`snapshot, this`log
      ensures IsStep(old(View()), View(), Some(call), id)
      ensures (View(), r) == AskAt(old(View()), q, call, attempt, u, now, connectivity, break_)
    {
      r := ApplyAuthority(q, call, attempt, u, now, connectivity, break_);
      AskIsStep(old(View()), q, call, attempt, u, now, connectivity, break_, id);
    }

    /** The same, after other calls had their turn. `ids`: the call's other events. */
    method AskAuthority(
      q: Request, ghost call: nat, ghost attempt: Option<Event>, ghost attemptId: string, ghost ids: set<string>,
      u: T.Supply, now: int, connectivity: Connectivity, break_: Break)
      returns (r: AuthorityResult)
      requires Sound(View()) && MayApply(View(), q, attempt) && (attempt.Some? ==> attempt.value.id == attemptId)
      requires forall id :: id in ids ==> Uuids.Parse(id) != Uuids.Parse(attemptId)
      modifies this, sink.table
      ensures Grows(old(View()), View())
      ensures forall id :: id in ids ==> SameAbout(old(View()), View(), id)
      ensures OwnMoves(old(View()), View(), q, call, attempt, u, now, r)
    {
      Others(call, ids + {attemptId});
      ghost var waited := View();
      assert SameAbout(old(View()), waited, attemptId);
      MayStillApply(old(View()), waited, q, attempt);
      r := AskStep(q, call, attempt, u, now, connectivity, break_, attemptId);
      WaitAndStep(old(View()), waited, View(), call, ids + {attemptId}, attemptId);
      AskAmong(old(View()), waited, q, call, attempt, u, now, connectivity, break_);
    }

    /** Asks the authority and records what it said. */
    method ApplyAndRecord(
      q: Request, ghost call: nat, ghost attempt: Option<Event>, ghost attemptId: string, id: string,
      u: T.Supply, now: int, connectivity: Connectivity, break_: Break, st: Stores)
      returns (r: AuthorityResult, d: Result<Delivery, RecordError>)
      requires Sound(View()) && MayApply(View(), q, attempt) && (attempt.Some? ==> attempt.value.id == attemptId)
      requires Uuids.Parse(id) != Uuids.Parse(attemptId)
      modifies this, sink.table
      ensures Grows(old(View()), View())
      ensures OwnMoves(old(View()), View(), q, call, attempt, u, now, r)
      ensures Reported(old(View()), View(), Outcome(q, id, now, r), d, true)
      ensures ReachesTable(Outcome(q, id, now, r), st, d)
    {
      hide OwnMoves, Reported, Own, UsesAttempt, Chained, Announced;
      r := AskAuthority(q, call, attempt, attemptId, {id}, u, now, connectivity, break_);
      ghost var asked := View();
      d := RecordAmong(Outcome(q, id, now, r), true, st, call, {id});
      MovesStay(old(View()), asked, View(), q, call, attempt, u, now, r);
      ReportedFrom(old(View()), asked, View(), Outcome(q, id, now, r), d);
    }

    lemma MovesStay(
      a: World, b: World, c: World, q: Request, call: nat, attempt: Option<Event>, u: T.Supply, now: int,
      r: AuthorityResult)
      requires OwnMoves(a, b, q, call, attempt, u, now, r) && Grows(a, b)
      requires Grows(b, c) && Own(c.log, call) == Own(b.log, call)
      ensures Grows(a, c) && OwnMoves(a, c, q, call, attempt, u, now, r)
    {
      GrowsOn(a, b, c);
      var w, connectivity, break_ :|
        MovedIn(w, connectivity, break_, Own(a.log, call), b, q, call, attempt, u, now, r) && Grows(a, w);
      MovedStays(w, connectivity, break_, Own(a.log, call), b, c, q, call, attempt, u, now, r);
    }

    /** The attempt of a management command; nothing goes on without it. */
    method Attempt(q: Request, ghost call: nat, attemptId: string, ghost id: string, now: int, st: Stores)
      returns (r: Result<Delivery, RecordError>)
      requires Sound(View()) && Management(q.command.name)
      requires Uuids.Parse(id) != Uuids.Parse(attemptId) && !UsesAttempt(log, attemptId)
      modifies this, sink.table
      ensures Grows(old(View()), View()) && Own(log, call) == Own(old(log), call)
      ensures SameAbout(old(View()), View(), id)
      ensures r.Success? ==> MayApply(View(), q, Some(AttemptOf(q, attemptId, now)))
      ensures r == Failure(ConflictRaised) ==> InRows(old(sink.table.rows), attemptId)
      ensures ReachesTable(AttemptOf(q, attemptId, now), st, r)
    {
      r := RecordAmong(AttemptOf(q, attemptId, now), false, st, call, {attemptId, id});
    }

    /** Who may not ask is turned away, and that is recorded. */
    method Deny(q: Request, ghost call: nat, ghost attemptId: string, id: string, now: int, st: Stores)
      returns (r: Answer)
      requires Sound(View())
      modifies this, sink.table
      ensures Grows(old(View()), View()) && Own(log, call) == Own(old(log), call)
      ensures match r
        case Forbidden(d) =>
          && Reported(old(View()), View(), Denial(q, id, now), Success(d), true)
          && (!d.Primary? ==> OutOfReach(Denial(q, id, now), st))
        case OutcomeConflict => InRows(old(sink.table.rows), id)
        case _ => false
      ensures AnswerSaid(old(View()), View(), q, attemptId, id, now, r)
    {
      hide AnswerSaid, Exact, UsesAttempt, OutOfReach, Uuids.Parse;
      var d := RecordAmong(Denial(q, id, now), true, st, call, {id});
      r := if d.Success? then Forbidden(d.value) else OutcomeConflict;
      if d.Success? {
        ForbiddenSaid(old(View()), View(), q, attemptId, id, now, d.value);
      } else {
        NothingSaid(old(View()), View(), q, attemptId, id, now, r);
      }
    }

    /** The attempt that a command is put to the authority with. */
    function AttemptIfAny(q: Request, attemptId: string, now: int): Option<Event> {
      if Management(q.command.name) then Some(AttemptOf(q, attemptId, now)) else None
    }

    /**
     A command from beginning to end. A management command is not put to the
     authority unless its own attempt is in the primary store, and the delivery
     tells where the outcome is.
     */
    method ApplyCommand(
      q: Request, ghost call: nat, attemptId: string, id: string, u: T.Supply, now: int,
      connectivity: Connectivity, break_: Break, first: Stores, second: Stores)
      returns (r: Answer)
      requires Sound(View())
      requires Uuids.Parse(id) != Uuids.Parse(attemptId) && !UsesAttempt(log, attemptId)
      modifies this, sink.table
      ensures Grows(old(View()), View())
      ensures r.Forbidden? ==>
        !q.roleAllows && Reported(old(View()), View(), Denial(q, id, now), Success(r.delivery), true)
      ensures r.NotAttempted? ==>
        && q.roleAllows && Management(q.command.name)
        && match r.error
           case ConflictRaised => InRows(old(sink.table.rows), attemptId)
           case AuditUnavailable => OutOfReach(AttemptOf(q, attemptId, now), first)
      ensures r.Answered? && !r.delivery.Primary? ==> OutOfReach(Outcome(q, id, now, r.result), second)
      ensures r.Forbidden? && !r.delivery.Primary? ==> OutOfReach(Denial(q, id, now), second)
      ensures r.Forbidden? || r.NotAttempted? ==> Own(log, call) == Own(old(log), call)
      ensures r.Answered? ==>
        q.roleAllows && Carried(old(View()), View(), q, call, AttemptIfAny(q, attemptId, now), id, u, now, r)
      ensures r.OutcomeConflict? ==> InRows(old(sink.table.rows), id)
      ensures AnswerSaid(old(View()), View(), q, attemptId, id, now, r)
    {
      hide AnswerSaid, OwnMoves, Exact, UsesAttempt, Own, OutOfReach, Outcome, Uuids.Parse;
      if !q.roleAllows {
        r := Deny(q, call, attemptId, id, now, second);
        return;
      }
      ghost var attempt: Option<Event> := None;
      if Management(q.command.name) {
        var a := Attempt(q, call, attemptId, id, now, first);
        if a.Failure? {
          NothingSaid(old(View()), View(), q, attemptId, id, now, NotAttempted(a.error));
          return NotAttempted(a.error);
        }
        attempt := Some(AttemptOf(q, attemptId, now));
      }
      ghost var begun := View();
      r := Carry(q, call, attempt, attemptId, id, u, now, connectivity, break_, second, old(View()));
      CarriedSaid(old(View()), begun, View(), q, call, attempt, attemptId, id, u, now, r);
    }

    lemma NothingSaid(b: World, a: World, q: Request, attemptId: string, id: string, now: int, r: Answer)
      requires r.NotAttempted? || r.OutcomeConflict?
      ensures AnswerSaid(b, a, q, attemptId, id, now, r)
    {
    }

    /** The rest of a command, once it may be put to the authority. */
    method Carry(
      q: Request, ghost call: nat, ghost attempt: Option<Event>, ghost attemptId: string, id: string, u: T.Supply,
      now: int, connectivity: Connectivity, break_: Break, st: Stores, ghost begun: World)
      returns (r: Answer)
      requires Sound(View()) && MayApply(View(), q, attempt) && (attempt.Some? ==> attempt.value.id == attemptId)
      requires Uuids.Parse(id) != Uuids.Parse(attemptId)
      requires Grows(begun, View()) && SameAbout(begun, View(), id) && Own(log, call) == Own(begun.log, call)
      modifies this, sink.table
      ensures Grows(old(View()), View()) && Grows(begun, View())
      ensures Carried(begun, View(), q, call, attempt, id, u, now, r)
      ensures r.Answered? && !r.delivery.Primary? ==> OutOfReach(Outcome(q, id, now, r.result), st)
    {
      hide OutOfReach, OwnMoves, Reported, UsesAttempt, Uuids.Parse, Outcome;
      ghost var asked := View();
      var result, d := ApplyAndRecord(q, call, attempt, attemptId, id, u, now, connectivity, break_, st);
      CarriedFrom(begun, asked, View(), q, call, attempt, id, u, now, result, d);
      r := Told(result, d);
    }

    lemma CarriedFrom(
      a: World, b: World, c: World, q: Request, call: nat, attempt: Option<Event>, id: string, u: T.Supply, now: int,
      r: AuthorityResult, d: Result<Delivery, RecordError>)
      requires Grows(a, b) && SameAbout(a, b, id) && Own(a.log, call) == Own(b.log, call)
      requires Grows(b, c) && Reported(b, c, Outcome(q, id, now, r), d, true)
      requires OwnMoves(b, c, q, call, attempt, u, now, r)
      ensures Grows(a, c) && Carried(a, c, q, call, attempt, id, u, now, Told(r, d))
    {
      hide OwnMoves, Own, UsesAttempt, Sound;
      GrowsOn(a, b, c);
      MovesFrom(a, b, c, q, call, attempt, u, now, r);
      ReportedFrom(a, b, c, Outcome(q, id, now, r), d);
    }

    lemma ReportedFrom(a: World, b: World, c: World, e: Event, d: Result<Delivery, RecordError>)
      requires SameAbout(a, b, e.id) && Reported(b, c, e, d, true)
      ensures Reported(a, c, e, d, true)
    {
    }

    lemma MovesFrom(
      a: World, b: World, c: World, q: Request, call: nat, attempt: Option<Event>, u: T.Supply, now: int,
      r: AuthorityResult)
      requires Grows(a, b) && Own(a.log, call) == Own(b.log, call) && OwnMoves(b, c, q, call, attempt, u, now, r)
      ensures OwnMoves(a, c, q, call, attempt, u, now, r)
    {
      var w, connectivity, break_ :|
        MovedIn(w, connectivity, break_, Own(b.log, call), c, q, call, attempt, u, now, r) && Grows(b, w);
      GrowsOn(a, b, w);
    }
  }
}
