/**
 Any number of commands through the gateway, their steps interleaved in any order
 with each other and with endpoints that come and go, from a fresh start on.
 */
module GatewayRuns {
  import opened Wrappers
  import opened AuditEvents
  import opened AuditStore
  import opened AuditIdentity
  import opened GatewaySteps
  import opened GatewayFacts
  import Uuids
  import C = CockpitModel
  import T = Transitions

  /** How far a call has come. */
  datatype Phase =
    | Arrived
    | Begun                                        // its attempt is recorded
    | Decided(result: AuthorityResult)
    | Done(answer: Answer, outcome: Option<Event>)

  datatype Call = Call(q: Request, attemptId: string, id: string, attempt: Option<Event>, phase: Phase)
  {
    function Ids(): set<string> { {attemptId, id} }
  }

  datatype System = System(world: World, hasFallback: bool, calls: map<nat, Call>)

  datatype Step =
    | Arrive(call: nat, q: Request, attemptId: string, id: string)
    | Deny(call: nat, now: int, st: Stores)
    | Begin(call: nat, now: int, st: Stores)
    | Ask(call: nat, u: T.Supply, now: int, connectivity: Connectivity, break_: Break)
    | Report(call: nat, now: int, st: Stores)
    | Connect(after: C.Snapshot)

  /** Identifiers come from a fresh supply: no event and no other call has them. */
  ghost predicate FreshIds(s: System, attemptId: string, id: string) {
    && Uuids.Parse(attemptId).Some? && Uuids.Parse(id).Some? && Uuids.Parse(attemptId) != Uuids.Parse(id)
    && Unused(s.world, attemptId) && Unused(s.world, id)
    && forall c, x :: c in s.calls && x in s.calls[c].Ids() ==>
         Uuids.Parse(x) != Uuids.Parse(attemptId) && Uuids.Parse(x) != Uuids.Parse(id)
  }

  ghost predicate Unused(w: World, id: string) { Free(w, id) && !UsesAttempt(w.log, id) }

  ghost predicate Enabled(s: System, a: Step) {
    match a
    case Arrive(c, _, attemptId, id) => c !in s.calls && Own(s.world.log, c) == [] && FreshIds(s, attemptId, id)
    case Deny(c, _, _) => c in s.calls && s.calls[c].phase.Arrived? && !s.calls[c].q.roleAllows
    case Begin(c, _, _) =>
      && c in s.calls && s.calls[c].phase.Arrived? && s.calls[c].q.roleAllows
      && Management(s.calls[c].q.command.name)
    case Ask(c, _, _, _, _) => c in s.calls && ReadyToAsk(s.calls[c])
    case Report(c, _, _) => c in s.calls && s.calls[c].phase.Decided?
    case Connect(_) => true
  }

  function Put(s: System, w: World, call: nat, c: Call): System {
    s.(world := w, calls := s.calls[call := c])
  }

  function Denied(c: Call, now: int, r: Result<Delivery, RecordError>): Call {
    c.(phase := Done(if r.Success? then Forbidden(r.value) else OutcomeConflict, Some(Denial(c.q, c.id, now))))
  }

  function Attempting(c: Call, now: int, r: Result<Delivery, RecordError>): Call {
    if r.Success? then c.(attempt := Some(AttemptOf(c.q, c.attemptId, now)), phase := Begun)
    else c.(phase := Done(NotAttempted(r.error), None))
  }

  function Reporting(c: Call, now: int, r: Result<Delivery, RecordError>): Call
    requires c.phase.Decided?
  {
    c.(phase := Done(Told(c.phase.result, r), Some(Outcome(c.q, c.id, now, c.phase.result))))
  }

  function Next(s: System, a: Step): System
    requires Enabled(s, a)
  {
    match a
    case Arrive(call, q, attemptId, id) => Put(s, s.world, call, Call(q, attemptId, id, None, Arrived))
    case Deny(call, now, st) =>
      var c := s.calls[call];
      var (w, r) := RecordAt(s.world, Denial(c.q, c.id, now), true, s.hasFallback, st);
      Put(s, w, call, Denied(c, now, r))
    case Begin(call, now, st) =>
      var c := s.calls[call];
      var (w, r) := RecordAt(s.world, AttemptOf(c.q, c.attemptId, now), false, s.hasFallback, st);
      Put(s, w, call, Attempting(c, now, r))
    case Ask(call, u, now, connectivity, break_) =>
      var c := s.calls[call];
      var (w, r) := AskAt(s.world, c.q, call, c.attempt, u, now, connectivity, break_);
      Put(s, w, call, c.(phase := Decided(r)))
    case Report(call, now, st) =>
      var c := s.calls[call];
      var (w, r) := RecordAt(s.world, Outcome(c.q, c.id, now, c.phase.result), true, s.hasFallback, st);
      Put(s, w, call, Reporting(c, now, r))
    case Connect(after) =>
      s.(world := Logged(s.world, Change(None, None, None, s.world.snapshot, after, s.world.rows)))
  }

  // ---- What every run keeps ----

  ghost predicate IsAttempt(c: Call) {
    c.attempt.Some? && exists now :: c.attempt == Some(AttemptOf(c.q, c.attemptId, now))
  }

  /** The attempt is the call's own, if its command needs one. */
  ghost predicate AttemptFits(c: Call) {
    if Management(c.q.command.name) then IsAttempt(c) else c.attempt.None?
  }

  /** And the table has it. */
  ghost predicate AttemptHeld(w: World, c: Call) { c.attempt.Some? ==> Holds(w.rows, c.attempt.value) }

  /** What the authority did for a call: exactly what the call's command made of one moment of the run. */
  ghost predicate Ruled(a: World, call: nat, c: Call, r: AuthorityResult) {
    exists w, u, now, connectivity, break_ ::
      MovedIn(w, connectivity, break_, [], a, c.q, call, c.attempt, u, now, r)
  }

  /** Made for the call's own command, with its own attempt. */
  ghost predicate IsOwn(x: Change, c: Call) {
    x.command == Some(c.q.command.name) && x.attempt == c.attempt && c.q.roleAllows && c.q.permitted
  }

  ghost predicate PhaseOk(w: World, call: nat, c: Call) {
    match c.phase
    case Arrived => c.attempt.None? && Unused(w, c.attemptId) && Own(w.log, call) == []
    case Begun => IsAttempt(c) && c.q.roleAllows && MayApply(w, c.q, c.attempt) && Own(w.log, call) == []
    case Decided(r) => AttemptFits(c) && AttemptHeld(w, c) && c.q.roleAllows && Ruled(w, call, c, r)
    case Done(answer, e) => DoneOk(w, call, c, answer, e)
  }

  /** The answer is true: where the outcome is, and what was changed. */
  ghost predicate DoneOk(w: World, call: nat, c: Call, answer: Answer, e: Option<Event>) {
    match answer
    case Forbidden(d) =>
      && !c.q.roleAllows && Own(w.log, call) == [] && e.Some? && Exact(w, e.value, d)
      && exists now :: e.value == Denial(c.q, c.id, now)
    case NotAttempted(_) => Management(c.q.command.name) && Own(w.log, call) == []
    case Answered(r, d) =>
      && c.q.roleAllows && AttemptFits(c) && AttemptHeld(w, c) && Ruled(w, call, c, r)
      && e.Some? && Exact(w, e.value, d)
      && exists now :: e.value == Outcome(c.q, c.id, now, r)
    case OutcomeConflict => false
  }

  ghost predicate CallOk(w: World, call: nat, c: Call) {
    && Uuids.Parse(c.attemptId).Some? && Uuids.Parse(c.id).Some? && Uuids.Parse(c.attemptId) != Uuids.Parse(c.id)
    && (!c.phase.Done? ==> Free(w, c.id))
    && PhaseOk(w, call, c)
  }

  ghost predicate Apart(s: System) {
    forall c, d, x, y :: c in s.calls && d in s.calls && c != d && x in s.calls[c].Ids() && y in s.calls[d].Ids() ==>
      Uuids.Parse(x) != Uuids.Parse(y)
  }

  /** Every change in some call's name is one of a call of this run. */
  ghost predicate Named(s: System) {
    forall i :: 0 <= i < |s.world.log| ==>
      if s.world.log[i].call.Some? then s.world.log[i].call.value in s.calls else s.world.log[i].command.None?
  }

  ghost predicate Inv(s: System) {
    && Sound(s.world) && Apart(s) && Named(s)
    && forall c :: c in s.calls ==> CallOk(s.world, c, s.calls[c])
  }

  // ---- Steps of others ----

  lemma ExactStays(b: World, a: World, e: Event, d: Delivery)
    requires Exact(b, e, d) && Grows(b, a) && SameAbout(b, a, e.id)
    ensures Exact(a, e, d)
  {
    if d.Primary? {
      HeldForGood(b.rows, a.rows, e);
    }
  }

  lemma WaitingKeeps(b: World, a: World, call: nat, c: Call)
    requires CallOk(b, call, c) && Elsewhere(b, a, call, c.Ids())
    ensures CallOk(a, call, c)
  {
    hide Ruled, Own, UsesAttempt, Uuids.Parse;
    assert SameAbout(b, a, c.attemptId) && SameAbout(b, a, c.id);
    match c.phase
    case Arrived =>
    case Begun => MayStillApply(b, a, c.q, c.attempt);
    case Decided(r) =>
      RuledStays(b, a, call, c, r);
      AttemptStays(b, a, c);
    case Done(answer, e) =>
      if answer.Forbidden? || answer.Answered? {
        ExactStays(b, a, e.value, answer.delivery);
      }
      if answer.Answered? {
        RuledStays(b, a, call, c, answer.result);
        AttemptStays(b, a, c);
      }
  }

  lemma AttemptStays(b: World, a: World, c: Call)
    requires AttemptHeld(b, c) && Grows(b, a)
    ensures AttemptHeld(a, c)
  {
    if c.attempt.Some? {
      HeldForGood(b.rows, a.rows, c.attempt.value);
    }
  }

  lemma RuledStays(b: World, a: World, call: nat, c: Call, r: AuthorityResult)
    requires Ruled(b, call, c, r) && Grows(b, a) && Own(a.log, call) == Own(b.log, call)
    ensures Ruled(a, call, c, r)
  {
    var w, u, now, connectivity, break_ :|
      MovedIn(w, connectivity, break_, [], b, c.q, call, c.attempt, u, now, r);
    MovedStays(w, connectivity, break_, [], b, a, c.q, call, c.attempt, u, now, r);
  }

  /** The call a step is taken by, if any, and the event it is about. */
  function Actor(a: Step): Option<nat> {
    if a.Connect? then None else Some(a.call)
  }

  function About(s: System, a: Step): string
    requires Enabled(s, a)
  {
    match a
    case Arrive(_, _, attemptId, _) => attemptId
    case Deny(c, _, _) => s.calls[c].id
    case Begin(c, _, _) => s.calls[c].attemptId
    case Ask(c, _, _, _, _) => s.calls[c].attemptId
    case Report(c, _, _) => s.calls[c].id
    case Connect(_) => ""
  }

  /** Every step of a run is one the waiting calls can live with. */
  lemma EveryStepIsStep(s: System, a: Step)
    requires Sound(s.world) && Enabled(s, a) && (a.Ask? ==> CallOk(s.world, a.call, s.calls[a.call]))
    ensures IsStep(s.world, Next(s, a).world, Actor(a), About(s, a))
  {
    match a
    case Arrive(_, _, _, _) => StillIsStep(s.world, Actor(a), a.attemptId);
    case Deny(_, _, _) => RecordingIsStep(s, a);
    case Begin(_, _, _) => RecordingIsStep(s, a);
    case Report(_, _, _) => RecordingIsStep(s, a);
    case Ask(_, _, _, _, _) =>
      AskingIsStep(s.world, a.call, s.calls[a.call], a.u, a.now, a.connectivity, a.break_);
    case Connect(after) => ConnectIsStep(s.world, after, "");
  }

  lemma StillIsStep(w: World, call: Option<nat>, id: string)
    requires Sound(w)
    ensures IsStep(w, w, call, id)
  {
  }

  lemma RecordingIsStep(s: System, a: Step)
    requires Sound(s.world) && Enabled(s, a) && (a.Deny? || a.Begin? || a.Report?)
    ensures IsStep(s.world, Next(s, a).world, Some(a.call), About(s, a))
  {
    var c := s.calls[a.call];
    if a.Deny? {
      RecordIsStep(s.world, Denial(c.q, c.id, a.now), true, s.hasFallback, a.st, Some(a.call));
    } else if a.Begin? {
      RecordIsStep(s.world, AttemptOf(c.q, c.attemptId, a.now), false, s.hasFallback, a.st, Some(a.call));
    } else {
      RecordIsStep(s.world, Outcome(c.q, c.id, a.now, c.phase.result), true, s.hasFallback, a.st, Some(a.call));
    }
  }

  lemma AskingIsStep(
    w: World, call: nat, c: Call, u: T.Supply, now: int, connectivity: Connectivity, break_: Break)
    requires Sound(w) && CallOk(w, call, c) && ReadyToAsk(c)
    ensures IsStep(w, AskAt(w, c.q, call, c.attempt, u, now, connectivity, break_).0, Some(call), c.attemptId)
  {
    AskIsStep(w, c.q, call, c.attempt, u, now, connectivity, break_, c.attemptId);
  }

  /** A step about other events leaves a waiting call as it should be. */
  lemma OtherKept(w: World, w': World, actor: Option<nat>, about: string, other: nat, c: Call)
    requires IsStep(w, w', actor, about) && actor != Some(other) && CallOk(w, other, c)
    requires Uuids.Parse(c.attemptId) != Uuids.Parse(about) && Uuids.Parse(c.id) != Uuids.Parse(about)
    ensures CallOk(w', other, c)
  {
    StepIsElsewhere(w, w', actor, about, other, c.Ids());
    WaitingKeeps(w, w', other, c);
  }

  lemma AboutOneself(s: System, a: Step, other: nat, x: string)
    requires Apart(s) && Enabled(s, a) && other in s.calls && Actor(a) != Some(other)
    requires x in s.calls[other].Ids() && Uuids.Parse(x).Some?
    ensures Uuids.Parse(x) != Uuids.Parse(About(s, a))
  {
    if a.Connect? {
      assert Uuids.Parse("").None?;
    } else if a.Arrive? {
      assert Uuids.Parse(x) != Uuids.Parse(a.attemptId);
    } else {
      assert About(s, a) in s.calls[a.call].Ids();
    }
  }

  // ---- The step of the call itself ----

  lemma DenyKeeps(w: World, call: nat, c: Call, now: int, hasFallback: bool, st: Stores)
    requires Sound(w) && CallOk(w, call, c) && c.phase.Arrived? && !c.q.roleAllows
    ensures var (w', r) := RecordAt(w, Denial(c.q, c.id, now), true, hasFallback, st);
      CallOk(w', call, Denied(c, now, r))
  {
    RecordReports(w, Denial(c.q, c.id, now), true, hasFallback, st);
  }

  lemma BeginKeeps(w: World, call: nat, c: Call, now: int, hasFallback: bool, st: Stores)
    requires Sound(w) && CallOk(w, call, c) && c.phase.Arrived? && c.q.roleAllows && Management(c.q.command.name)
    ensures var (w', r) := RecordAt(w, AttemptOf(c.q, c.attemptId, now), false, hasFallback, st);
      CallOk(w', call, Attempting(c, now, r))
  {
    var e := AttemptOf(c.q, c.attemptId, now);
    RecordReports(w, e, false, hasFallback, st);
    RecordElsewhere(w, e, false, hasFallback, st, c.id);
  }

  lemma ReportKeeps(w: World, call: nat, c: Call, now: int, hasFallback: bool, st: Stores)
    requires Sound(w) && CallOk(w, call, c) && c.phase.Decided?
    ensures var (w', r) := RecordAt(w, Outcome(c.q, c.id, now, c.phase.result), true, hasFallback, st);
      CallOk(w', call, Reporting(c, now, r))
  {
    hide Ruled, AttemptHeld, Exact, Sound, UsesAttempt, EventOf;
    var e := Outcome(c.q, c.id, now, c.phase.result);
    OutcomeHasId(c.q, c.id, now, c.phase.result);
    RecordReports(w, e, true, hasFallback, st);
    StillRuled(w, call, c, e, hasFallback, st, c.phase.result);
    var (w', d) := RecordAt(w, e, true, hasFallback, st);
    PhaseIsNoMatter(w', call, c, Reporting(c, now, d), c.phase.result);
  }

  lemma PhaseIsNoMatter(w: World, call: nat, c: Call, c': Call, r: AuthorityResult)
    requires c'.q == c.q && c'.attempt == c.attempt
    ensures Ruled(w, call, c', r) <==> Ruled(w, call, c, r)
    ensures AttemptHeld(w, c') <==> AttemptHeld(w, c)
  {
  }

  lemma OutcomeHasId(q: Request, id: string, now: int, r: AuthorityResult)
    ensures Outcome(q, id, now, r).id == id
  {
  }

  lemma StillRuled(
    w: World, call: nat, c: Call, e: Event, hasFallback: bool, st: Stores, r: AuthorityResult)
    requires Sound(w) && Ruled(w, call, c, r)
    ensures Ruled(RecordAt(w, e, true, hasFallback, st).0, call, c, r)
    ensures AttemptHeld(w, c) ==> AttemptHeld(RecordAt(w, e, true, hasFallback, st).0, c)
  {
    RecordGrows(w, e, true, hasFallback, st);
    if AttemptHeld(w, c) {
      AttemptStays(w, RecordAt(w, e, true, hasFallback, st).0, c);
    }
    RuledStays(w, RecordAt(w, e, true, hasFallback, st).0, call, c, r);
  }

  predicate ReadyToAsk(c: Call) {
    c.q.roleAllows && if Management(c.q.command.name) then c.phase.Begun? else c.phase.Arrived?
  }

  lemma AskKeeps(
    w: World, call: nat, c: Call, u: T.Supply, now: int, connectivity: Connectivity, break_: Break)
    requires Sound(w) && CallOk(w, call, c) && ReadyToAsk(c)
    ensures var (w', r) := AskAt(w, c.q, call, c.attempt, u, now, connectivity, break_);
      CallOk(w', call, c.(phase := Decided(r)))
  {
    AskIsStep(w, c.q, call, c.attempt, u, now, connectivity, break_, c.attemptId);
    AskMoves(w, c.q, call, c.attempt, u, now, connectivity, break_);
  }

  lemma ActorKept(s: System, a: Step)
    requires Sound(s.world) && Enabled(s, a) && !a.Connect?
    requires !a.Arrive? ==> CallOk(s.world, a.call, s.calls[a.call])
    ensures CallOk(Next(s, a).world, a.call, Next(s, a).calls[a.call])
  {
    match a
    case Arrive(_, _, _, _) =>
    case Deny(call, now, st) => DenyKeeps(s.world, call, s.calls[call], now, s.hasFallback, st);
    case Begin(call, now, st) => BeginKeeps(s.world, call, s.calls[call], now, s.hasFallback, st);
    case Ask(call, u, now, connectivity, break_) =>
      AskKeeps(s.world, call, s.calls[call], u, now, connectivity, break_);
    case Report(call, now, st) => ReportKeeps(s.world, call, s.calls[call], now, s.hasFallback, st);
  }

  /** A step leaves other calls, and the identifiers of its own, as they are. */
  ghost predicate SameCalls(s: System, s': System, actor: Option<nat>) {
    && (forall c :: c in s'.calls <==> c in s.calls || actor == Some(c))
    && (forall c :: c in s.calls && actor != Some(c) ==> s'.calls[c] == s.calls[c])
    && (forall c :: c in s.calls ==> s'.calls[c].attemptId == s.calls[c].attemptId && s'.calls[c].id == s.calls[c].id)
  }

  lemma CallsStay(s: System, a: Step)
    requires Enabled(s, a)
    ensures SameCalls(s, Next(s, a), Actor(a))
  {
    match a
    case Arrive(_, _, _, _) =>
    case Deny(_, _, _) =>
    case Begin(_, _, _) =>
    case Ask(_, _, _, _, _) =>
    case Report(_, _, _) =>
    case Connect(_) =>
  }

  lemma ApartKept(s: System, a: Step)
    requires Apart(s) && Enabled(s, a)
    ensures Apart(Next(s, a))
  {
    if a.Arrive? {
      ArrivalIsApart(s, a.call, Call(a.q, a.attemptId, a.id, None, Arrived));
    } else {
      CallsStay(s, a);
      SameIsApart(s, Next(s, a), Actor(a));
    }
  }

  lemma SameIsApart(s: System, s': System, actor: Option<nat>)
    requires Apart(s) && SameCalls(s, s', actor) && (actor.Some? ==> actor.value in s.calls)
    ensures Apart(s')
  {
  }

  lemma ArrivalIsApart(s: System, call: nat, c: Call)
    requires Apart(s) && call !in s.calls && FreshIds(s, c.attemptId, c.id)
    ensures Apart(Put(s, s.world, call, c))
  {
    var calls := s.calls[call := c];
    forall d, e, x, y | d in calls && e in calls && d != e && x in calls[d].Ids() && y in calls[e].Ids()
      ensures Uuids.Parse(x) != Uuids.Parse(y)
    {
      assert d != call ==> x in s.calls[d].Ids();
      assert e != call ==> y in s.calls[e].Ids();
    }
  }

  /** A step logs nothing, or one change in the name of its call if it is a command's. */
  lemma LogStays(s: System, a: Step)
    requires Enabled(s, a)
    ensures var log, log' := s.world.log, Next(s, a).world.log;
      || log' == log
      || (exists x: Change ::
            log' == log + [x] && if a.Connect? then x.command.None? && x.call.None? else x.call == Actor(a))
  {
    match a
    case Arrive(_, _, _, _) =>
    case Deny(_, _, _) =>
    case Begin(_, _, _) =>
    case Report(_, _, _) =>
    case Ask(call, u, now, connectivity, break_) =>
      var c := s.calls[call];
      var (next, _) := Decide(s.world.snapshot, c.q, u, now, connectivity, break_);
      if next.Some? {
        var x := ChangeOf(s.world, c.q, call, c.attempt, next.value);
        assert Next(s, a).world.log == s.world.log + [x];
      }
    case Connect(after) =>
      var x := Change(None, None, None, s.world.snapshot, after, s.world.rows);
      assert Next(s, a).world.log == s.world.log + [x];
  }

  lemma NamedKept(s: System, a: Step)
    requires Named(s) && Enabled(s, a)
    ensures Named(Next(s, a))
  {
    LogStays(s, a);
    CallsStay(s, a);
  }

  lemma StepKeeps(s: System, a: Step)
    requires Inv(s) && Enabled(s, a)
    ensures Inv(Next(s, a)) && IsStep(s.world, Next(s, a).world, Actor(a), About(s, a))
  {
    var s' := Next(s, a);
    assert a.Ask? ==> CallOk(s.world, a.call, s.calls[a.call]);
    EveryStepIsStep(s, a);
    ApartKept(s, a);
    NamedKept(s, a);
    forall c | c in s'.calls ensures CallOk(s'.world, c, s'.calls[c]) {
      CallKept(s, a, c);
    }
  }

  lemma CallKept(s: System, a: Step, c: nat)
    requires Inv(s) && Enabled(s, a) && c in Next(s, a).calls
    requires IsStep(s.world, Next(s, a).world, Actor(a), About(s, a))
    ensures CallOk(Next(s, a).world, c, Next(s, a).calls[c])
  {
    if Actor(a) == Some(c) {
      assert !a.Arrive? ==> CallOk(s.world, a.call, s.calls[a.call]);
      ActorKept(s, a);
    } else {
      CallsStay(s, a);
      assert CallOk(s.world, c, s.calls[c]);
      WaiterKept(s, a, c);
    }
  }

  lemma WaiterKept(s: System, a: Step, c: nat)
    requires Apart(s) && Enabled(s, a) && c in s.calls && Actor(a) != Some(c) && CallOk(s.world, c, s.calls[c])
    requires IsStep(s.world, Next(s, a).world, Actor(a), About(s, a))
    ensures CallOk(Next(s, a).world, c, s.calls[c])
  {
    AboutOneself(s, a, c, s.calls[c].attemptId);
    AboutOneself(s, a, c, s.calls[c].id);
    OtherKept(s.world, Next(s, a).world, Actor(a), About(s, a), c, s.calls[c]);
  }

  // ---- Whole runs ----

  ghost predicate Possible(s: System, steps: seq<Step>)
    decreases |steps|
  {
    steps != [] ==> Enabled(s, steps[0]) && Possible(Next(s, steps[0]), steps[1..])
  }

  function Run(s: System, steps: seq<Step>): System
    requires Possible(s, steps)
    decreases |steps|
  {
    if steps == [] then s else Run(Next(s, steps[0]), steps[1..])
  }

  /** A gateway just made over a table in order: the world of `CommandGateway`'s constructor. */
  function Start(snapshot: C.Snapshot, rows: Rows, hasFallback: bool): System {
    System(World(snapshot, snapshot, rows, [], [], {}), hasFallback, map[])
  }

  lemma {:induction false} RunKeeps(s: System, steps: seq<Step>)
    requires Inv(s) && Possible(s, steps)
    ensures Inv(Run(s, steps)) && Grows(s.world, Run(s, steps).world)
    decreases |steps|
  {
    if steps != [] {
      StepKeeps(s, steps[0]);
      RunKeeps(Next(s, steps[0]), steps[1..]);
      GrowsOn(s.world, Next(s, steps[0]).world, Run(s, steps).world);
    }
  }

  lemma StartOk(snapshot: C.Snapshot, rows: Rows, hasFallback: bool)
    requires RowsOk(rows)
    ensures Inv(Start(snapshot, rows, hasFallback))
  {
  }

  /** While a call waits, any number of steps of others stay within what `CommandGateway.Others` may do. */
  lemma {:induction false} WaitingAllows(s: System, steps: seq<Step>, call: nat)
    requires Inv(s) && Possible(s, steps) && call in s.calls
    requires forall a :: a in steps ==> Actor(a) != Some(call)
    ensures Elsewhere(s.world, Run(s, steps).world, call, s.calls[call].Ids())
    decreases |steps|
  {
    if steps != [] {
      var s' := Next(s, steps[0]);
      WaitedOneStep(s, steps[0], call);
      WaitingAllows(s', steps[1..], call);
      ElsewhereOn(s.world, s'.world, Run(s, steps).world, call, s.calls[call].Ids());
    }
  }

  lemma WaitedOneStep(s: System, a: Step, call: nat)
    requires Inv(s) && Enabled(s, a) && call in s.calls && Actor(a) != Some(call)
    ensures Inv(Next(s, a)) && call in Next(s, a).calls && Next(s, a).calls[call] == s.calls[call]
    ensures Elsewhere(s.world, Next(s, a).world, call, s.calls[call].Ids())
  {
    StepKeeps(s, a);
    OneStepAllowed(s, a, call);
  }

  lemma OneStepAllowed(s: System, a: Step, call: nat)
    requires Inv(s) && Enabled(s, a) && call in s.calls && Actor(a) != Some(call)
    requires IsStep(s.world, Next(s, a).world, Actor(a), About(s, a))
    ensures Elsewhere(s.world, Next(s, a).world, call, s.calls[call].Ids())
    ensures call in Next(s, a).calls && Next(s, a).calls[call] == s.calls[call]
  {
    CallsStay(s, a);
    assert CallOk(s.world, call, s.calls[call]);
    WaiterAllows(s, a, call, Next(s, a).world);
  }

  lemma WaiterAllows(s: System, a: Step, call: nat, w: World)
    requires Apart(s) && Enabled(s, a) && call in s.calls && Actor(a) != Some(call)
    requires Uuids.Parse(s.calls[call].attemptId).Some? && Uuids.Parse(s.calls[call].id).Some?
    requires IsStep(s.world, w, Actor(a), About(s, a))
    ensures Elsewhere(s.world, w, call, s.calls[call].Ids())
  {
    hide Own, UsesAttempt, Uuids.Parse, Sound;
    AboutOneself(s, a, call, s.calls[call].attemptId);
    AboutOneself(s, a, call, s.calls[call].id);
    StepIsElsewhere(s.world, w, Actor(a), About(s, a), call, s.calls[call].Ids());
  }

  lemma {:induction false} OwnHasAll(log: seq<Change>, call: nat, i: nat)
    requires i < |log| && log[i].call == Some(call)
    ensures log[i] in Own(log, call)
  {
    if i < |log| - 1 {
      OwnHasAll(log[..|log| - 1], call, i);
    }
  }

  /**
   In every run from a fresh start: whoever changes theme or mode or resets the
   session is a call of the run that may do so, for its own command, and its own
   ATTEMPTED event was in the primary store before the change and still is. No
   other change has that attempt.
   */
  lemma EveryChangeWasAttempted(
    snapshot: C.Snapshot, rows: Rows, hasFallback: bool, steps: seq<Step>, i: nat)
    requires RowsOk(rows) && Possible(Start(snapshot, rows, hasFallback), steps)
    requires var w := Run(Start(snapshot, rows, hasFallback), steps).world; i < |w.log| && Managed(w.log[i])
    ensures var s := Run(Start(snapshot, rows, hasFallback), steps); AttemptedFirst(s, i)
  {
    var s := Run(Start(snapshot, rows, hasFallback), steps);
    StartOk(snapshot, rows, hasFallback);
    RunKeeps(Start(snapshot, rows, hasFallback), steps);
    ChangeWasAttempted(s, i);
  }

  ghost predicate AttemptedFirst(s: System, i: nat)
    requires i < |s.world.log|
  {
    var x := s.world.log[i];
    && x.call.Some? && x.call.value in s.calls
    && var c := s.calls[x.call.value];
      && x.command == Some(c.q.command.name) && c.q.roleAllows && c.q.permitted
      && (exists now :: x.attempt == Some(AttemptOf(c.q, c.attemptId, now)))
      && Holds(x.rows, x.attempt.value) && Holds(s.world.rows, x.attempt.value)
      && forall j :: 0 <= j < |s.world.log| && j != i ==> s.world.log[j].attempt != x.attempt
  }

  lemma ChangeWasAttempted(s: System, i: nat)
    requires Inv(s) && i < |s.world.log| && Managed(s.world.log[i])
    ensures AttemptedFirst(s, i)
  {
    var x := s.world.log[i];
    var call := x.call.value;
    assert CallOk(s.world, call, s.calls[call]);
    OwnHasAll(s.world.log, call, i);
    OwnIsIts(s.world, call, s.calls[call], x);
    AnnouncedStays(s.world, i);
  }

  lemma OwnIsIts(w: World, call: nat, c: Call, x: Change)
    requires CallOk(w, call, c) && x in Own(w.log, call)
    ensures IsOwn(x, c) && AttemptFits(c)
  {
    hide Exact, Holds, MayApply, Grows, UsesAttempt;
  }

  lemma AnnouncedStays(w: World, i: nat)
    requires Sound(w) && i < |w.log| && Managed(w.log[i])
    ensures var a := w.log[i].attempt;
      && a.Some? && Holds(w.log[i].rows, a.value) && Holds(w.rows, a.value)
      && forall j :: 0 <= j < |w.log| && j != i ==> w.log[j].attempt != a
  {
    assert Keeps(w.log[i].rows, w.rows) && Announced(w.log[i], w.drawn);
    HeldForGood(w.log[i].rows, w.rows, w.log[i].attempt.value);
  }

  /** Once a call has answered, its answer stays true: the outcome is where the delivery says. */
  lemma AnswersAreTrue(
    snapshot: C.Snapshot, rows: Rows, hasFallback: bool, steps: seq<Step>, call: nat)
    requires RowsOk(rows) && Possible(Start(snapshot, rows, hasFallback), steps)
    requires var s := Run(Start(snapshot, rows, hasFallback), steps); call in s.calls && s.calls[call].phase.Done?
    ensures var s := Run(Start(snapshot, rows, hasFallback), steps);
      var c := s.calls[call];
      DoneOk(s.world, call, c, c.phase.answer, c.phase.outcome)
  {
    hide DoneOk, Sound, Apart, Named;
    StartOk(snapshot, rows, hasFallback);
    RunKeeps(Start(snapshot, rows, hasFallback), steps);
    var s := Run(Start(snapshot, rows, hasFallback), steps);
    assert CallOk(s.world, call, s.calls[call]);
  }

  /**
   What the audit then says, read back from where the delivery points: the outcome
   the authority gave, the denial of who may not ask, and the attempt before it.
   */
  lemma AuditSaysSo(
    snapshot: C.Snapshot, rows: Rows, hasFallback: bool, steps: seq<Step>, call: nat)
    requires RowsOk(rows) && Possible(Start(snapshot, rows, hasFallback), steps)
    requires var s := Run(Start(snapshot, rows, hasFallback), steps); call in s.calls && s.calls[call].phase.Done?
    ensures var s := Run(Start(snapshot, rows, hasFallback), steps);
      var w, c := s.world, s.calls[call];
      match c.phase.answer
      case Answered(r, d) =>
        && (exists at :: OutcomeSaid(w.rows, w.fallback, c.q, c.id, at, r, d))
        && (Management(c.q.command.name) ==> exists at :: RowSays(w.rows, c.q, c.attemptId, at, Attempted, Null))
      case Forbidden(d) => exists at :: DenialSaid(w, c.q, c.id, at, d)
      case _ => true
  {
    hide DoneOk, OutcomeSaid, RowSays, DenialSaid, Run, Start;
    AnswersAreTrue(snapshot, rows, hasFallback, steps, call);
    var s := Run(Start(snapshot, rows, hasFallback), steps);
    DoneSays(s.world, call, s.calls[call], s.calls[call].phase.answer, s.calls[call].phase.outcome);
  }

  lemma DoneSays(w: World, call: nat, c: Call, answer: Answer, e: Option<Event>)
    requires DoneOk(w, call, c, answer, e)
    ensures match answer
      case Answered(r, d) =>
        && (exists at :: OutcomeSaid(w.rows, w.fallback, c.q, c.id, at, r, d))
        && (Management(c.q.command.name) ==> exists at :: RowSays(w.rows, c.q, c.attemptId, at, Attempted, Null))
      case Forbidden(d) => exists at :: DenialSaid(w, c.q, c.id, at, d)
      case _ => true
  {
    hide OutcomeSaid, RowSays, DenialSaid, Ruled, Exact, Holds;
    match answer
    case Answered(r, d) =>
      var now :| e.value == Outcome(c.q, c.id, now, r);
      OutcomeSays(w, c.q, c.id, now, r, d);
      if Management(c.q.command.name) {
        var begun :| c.attempt == Some(AttemptOf(c.q, c.attemptId, begun));
        AttemptSays(w.rows, c.q, c.attemptId, begun);
      }
    case Forbidden(d) =>
      var now :| e.value == Denial(c.q, c.id, now);
      DenialSays(w, c.q, c.id, now, d);
    case _ =>
  }
}
