/**
 The steps of calls through the audit gateway as changes of one world: the
 snapshot, the two stores, and a log of what was changed by whom.
 */
module GatewaySteps {
  import opened Wrappers
  import opened AuditEvents
  import opened AuditStore
  import opened AuditIdentity
  import Uuids
  import C = CockpitModel
  import T = Transitions
  import S = CockpitService

  type Connectivity = map<C.Endpoint, C.Connection>

  predicate Management(n: T.Name) { n.SetTheme? || n.SetSystemMode? || n.ResetSession? }

  /** Who asks for what, from where; `parameters` are those of the command as the audit sees them. */
  datatype Request = Request(
    command: T.Command, userId: string, sessionId: string, role: Role, endpoint: string, parameters: Parameters,
    roleAllows: bool, permitted: bool)

  function CommandWord(n: T.Name): string {
    match n
    case SetTheme => "set_theme"
    case SetSystemMode => "set_system_mode"
    case SelectDestination => "select_destination"
    case ConfirmRoute => "confirm_route"
    case AcknowledgeRisk => "acknowledge_risk"
    case ResolveRisk => "resolve_risk"
    case SetMediaState => "set_media_state"
    case SubmitTripSuggestion => "submit_trip_suggestion"
    case SetCabinControl => "set_cabin_control"
    case ResetSession => "reset_session"
  }

  function EventOf(q: Request, id: string, now: int, result: AuditResult, code: Option<string>): Event {
    Event(id, Time(now, Some(0)), result, Primary, Some(q.userId), Some(q.sessionId), Some(q.role),
          Facts(Text("cockpit.command"), Text(q.endpoint), Null, Text(CommandWord(q.command.name)),
                Text(q.command.correlationId), Null, Null, if code.Some? then Text(code.value) else Null,
                Text("local_hmi"), q.parameters))
  }

  /**
   One change of the snapshot: by which call, if any, for which command, with
   which attempt, and the audit table at that moment.
   */
  datatype Change = Change(
    call: Option<nat>, command: Option<T.Name>, attempt: Option<Event>,
    before: C.Snapshot, after: C.Snapshot, rows: Rows)

  predicate Managed(c: Change) { c.command.Some? && Management(c.command.value) }

  datatype World = World(
    start: C.Snapshot, snapshot: C.Snapshot, rows: Rows, fallback: seq<Event>, log: seq<Change>, drawn: set<string>)

  // ---- What a world keeps ----

  /** Nothing but the logged changes happened to the snapshot. */
  ghost predicate Chained(start: C.Snapshot, log: seq<Change>, s: C.Snapshot) {
    && s == (if log == [] then start else log[|log| - 1].after)
    && (log != [] ==> log[0].before == start)
    && forall i :: 0 < i < |log| ==> log[i].before == log[i - 1].after
  }

  /** A management change was announced: its attempt was in the table before it. */
  ghost predicate Announced(c: Change, drawn: set<string>) {
    if Managed(c) then
      && c.attempt.Some? && c.attempt.value.result.Attempted? && c.attempt.value.id in drawn
      && Holds(c.rows, c.attempt.value)
    else c.attempt.None?
  }

  ghost predicate UsesAttempt(log: seq<Change>, id: string) {
    exists i :: 0 <= i < |log| && log[i].attempt.Some? && log[i].attempt.value.id == id
  }

  /** No attempt stands for two changes. */
  ghost predicate Distinct(log: seq<Change>) {
    forall i, j :: 0 <= i < j < |log| && log[i].attempt.Some? && log[j].attempt.Some? ==>
      log[i].attempt.value.id != log[j].attempt.value.id
  }

  ghost predicate Sound(w: World) {
    && RowsOk(w.rows) && Chained(w.start, w.log, w.snapshot) && Distinct(w.log)
    && forall i :: 0 <= i < |w.log| ==> Keeps(w.log[i].rows, w.rows) && Announced(w.log[i], w.drawn)
  }

  /** The changes one call made. */
  function Own(log: seq<Change>, call: nat): seq<Change> {
    if log == [] then []
    else
      Own(log[..|log| - 1], call)
      + (if log[|log| - 1].call == Some(call) then [log[|log| - 1]] else [])
  }

  /** Everything is kept, and only grows. */
  ghost predicate Grows(b: World, a: World) {
    && Sound(a) && a.start == b.start && Keeps(b.rows, a.rows)
    && b.fallback <= a.fallback && b.log <= a.log && b.drawn <= a.drawn
  }

  lemma GrowsOn(a: World, b: World, c: World)
    requires Grows(a, b) && Grows(b, c)
    ensures Grows(a, c)
  {
  }

  predicate InFallback(fallback: seq<Event>, id: string) {
    exists e :: e in fallback && e.id == id
  }

  predicate InRows(rows: Rows, id: string) {
    Uuids.Parse(id).Some? && Uuids.Parse(id).value in rows
  }

  /** Nobody has used the identifier for an event. */
  predicate Free(w: World, id: string) { !InRows(w.rows, id) && !InFallback(w.fallback, id) }

  ghost predicate SameAbout(b: World, a: World, id: string) {
    && (InRows(a.rows, id) <==> InRows(b.rows, id))
    && (InFallback(a.fallback, id) <==> InFallback(b.fallback, id))
    && (UsesAttempt(a.log, id) <==> UsesAttempt(b.log, id))
  }

  /** What may happen while a call is waiting: nothing about its events, nothing in its name. */
  ghost predicate Elsewhere(b: World, a: World, call: nat, ids: set<string>) {
    && Grows(b, a) && Own(a.log, call) == Own(b.log, call)
    && forall id :: id in ids ==> SameAbout(b, a, id)
  }

  /** What one step of a call, or of nobody's call, does to the rest; `id` is the event it is about. */
  ghost predicate IsStep(b: World, a: World, call: Option<nat>, id: string) {
    && Grows(b, a)
    && (forall other: nat :: call != Some(other) ==> Own(a.log, other) == Own(b.log, other))
    && (forall other :: Uuids.Parse(other) != Uuids.Parse(id) ==> SameAbout(b, a, other))
  }

  lemma StepIsElsewhere(b: World, a: World, call: Option<nat>, id: string, other: nat, ids: set<string>)
    requires IsStep(b, a, call, id) && call != Some(other)
    requires forall x :: x in ids ==> Uuids.Parse(x) != Uuids.Parse(id)
    ensures Elsewhere(b, a, other, ids)
  {
  }

  lemma ElsewhereOn(a: World, b: World, c: World, call: nat, ids: set<string>)
    requires Elsewhere(a, b, call, ids) && Elsewhere(b, c, call, ids)
    ensures Elsewhere(a, c, call, ids)
  {
    GrowsOn(a, b, c);
  }

  // ---- Recording an event ----

  /** How the stores behave while one event is recorded. */
  datatype Stores = Stores(ready: bool, fuse: nat, fallbackWrites: bool)

  datatype RecordError = ConflictRaised | AuditUnavailable

  function RecordAt(w: World, e: Event, allowFallback: bool, hasFallback: bool, st: Stores):
    (World, Result<Delivery, RecordError>)
  {
    var w' := w.(drawn := w.drawn + {e.id});
    var appended := SinkAnswer(w.rows, e, st.ready, st.fuse);
    if appended.Success? then (w'.(rows := Stored(w.rows, e)), Success(Primary))
    else if appended.error.Conflict? then (w', Failure(ConflictRaised))
    else if !allowFallback then (w', Failure(AuditUnavailable))
    else if hasFallback && ToRow(e).Success? && st.fallbackWrites then
      (w'.(fallback := w.fallback + [FallbackEvent(e)]), Success(Fallback))
    else (w', Success(Lost))
  }

  /** The delivery says where the event is. */
  ghost predicate Exact(w: World, e: Event, d: Delivery) {
    && (d.Primary? <==> InRows(w.rows, e.id)) && (d.Primary? ==> Holds(w.rows, e))
    && (d.Fallback? <==> InFallback(w.fallback, e.id)) && (d.Fallback? ==> FallbackEvent(e) in w.fallback)
  }

  /** What the caller learns: where its event is, if its identifier was free. */
  ghost predicate Reported(b: World, a: World, e: Event, r: Result<Delivery, RecordError>, allowFallback: bool) {
    match r
    case Success(d) =>
      && (d.Primary? ==> Holds(a.rows, e)) && (Free(b, e.id) ==> Exact(a, e, d)) && (allowFallback || d.Primary?)
    case Failure(ConflictRaised) => InRows(b.rows, e.id)
    case Failure(AuditUnavailable) => !allowFallback
  }

  lemma RecordGrows(w: World, e: Event, allowFallback: bool, hasFallback: bool, st: Stores)
    requires Sound(w)
    ensures Grows(w, RecordAt(w, e, allowFallback, hasFallback, st).0)
  {
    StoredOk(w.rows, e);
    StoresGrow(w, RecordAt(w, e, allowFallback, hasFallback, st).0);
  }

  lemma StoresGrow(b: World, a: World)
    requires Sound(b) && a == b.(rows := a.rows, fallback := a.fallback, drawn := a.drawn)
    requires RowsOk(a.rows) && Keeps(b.rows, a.rows) && b.fallback <= a.fallback && b.drawn <= a.drawn
    ensures Grows(b, a)
  {
    forall i | 0 <= i < |a.log| ensures Keeps(a.log[i].rows, a.rows) && Announced(a.log[i], a.drawn) {
      assert Keeps(b.log[i].rows, b.rows) && Announced(b.log[i], b.drawn);
    }
  }

  lemma RecordElsewhere(w: World, e: Event, allowFallback: bool, hasFallback: bool, st: Stores, other: string)
    requires Uuids.Parse(other) != Uuids.Parse(e.id)
    ensures SameAbout(w, RecordAt(w, e, allowFallback, hasFallback, st).0, other)
  {
    RowRoundTrip(e);
  }

  lemma RecordIsStep(w: World, e: Event, allowFallback: bool, hasFallback: bool, st: Stores, call: Option<nat>)
    requires Sound(w)
    ensures IsStep(w, RecordAt(w, e, allowFallback, hasFallback, st).0, call, e.id)
  {
    RecordGrows(w, e, allowFallback, hasFallback, st);
    var a := RecordAt(w, e, allowFallback, hasFallback, st).0;
    forall other | Uuids.Parse(other) != Uuids.Parse(e.id) ensures SameAbout(w, a, other) {
      RecordElsewhere(w, e, allowFallback, hasFallback, st, other);
    }
  }

  /** A primary delivery means the table holds the fact; any other that it does not. */
  lemma RecordReports(w: World, e: Event, allowFallback: bool, hasFallback: bool, st: Stores)
    requires Sound(w)
    ensures var (a, r) := RecordAt(w, e, allowFallback, hasFallback, st); Reported(w, a, e, r, allowFallback)
  {
    var (a, r) := RecordAt(w, e, allowFallback, hasFallback, st);
    RowRoundTrip(e);
    if r == Success(Primary) {
      AcceptedIsStored(w.rows, e);
    } else if r == Success(Fallback) {
      assert a.fallback[|w.fallback|] == FallbackEvent(e);
    }
  }

  /** A store that answers takes every event that can be written under a free identifier. */
  lemma ReadyStoreTakes(w: World, e: Event, allowFallback: bool, hasFallback: bool, st: Stores)
    requires ToRow(e).Success? && Free(w, e.id) && st.ready && st.fuse >= 2
    ensures RecordAt(w, e, allowFallback, hasFallback, st).1 == Success(Primary)
  {
    RowRoundTrip(e);
  }

  /** The store does not answer long enough, or the event cannot be written. */
  predicate OutOfReach(e: Event, st: Stores) { !st.ready || st.fuse < 3 || ToRow(e).Failure? }

  /** Only then is an event anywhere else than in the table, or not recorded for want of it. */
  predicate ReachesTable(e: Event, st: Stores, r: Result<Delivery, RecordError>) {
    r in {Success(Fallback), Success(Lost), Failure(AuditUnavailable)} ==> OutOfReach(e, st)
  }

  lemma RecordReaches(w: World, e: Event, allowFallback: bool, hasFallback: bool, st: Stores)
    ensures ReachesTable(e, st, RecordAt(w, e, allowFallback, hasFallback, st).1)
  {
  }

  // ---- Asking the authority ----

  datatype AuthorityResult = Shown(snapshot: C.Snapshot) | Refusal(why: T.Rejection) | Broken

  /** Whether the authority breaks, and then before or after it has changed the snapshot. */
  datatype Break = Never | Early | Late

  /** The next snapshot, if there is one, and what the caller is told. */
  function Decide(s: C.Snapshot, q: Request, u: T.Supply, now: int, connectivity: Connectivity, break_: Break):
    (Option<C.Snapshot>, AuthorityResult)
  {
    if break_.Early? then (None, Broken)
    else if !q.permitted then (None, Refusal(T.CommandForbidden))
    else
      match T.Transition(s, q.command, u)
      case Rejected(why) => (None, Refusal(why))
      case Same => (None, Shown(s))
      case Changed(s', reset) =>
        var next := S.Touched(s', now).(connectivity := if reset then connectivity else s.connectivity);
        (Some(next), if break_.Late? then Broken else Shown(next))
  }

  function Logged(w: World, c: Change): World {
    w.(snapshot := c.after, log := w.log + [c])
  }

  function ChangeOf(w: World, q: Request, call: nat, attempt: Option<Event>, next: C.Snapshot): Change {
    Change(Some(call), Some(q.command.name), attempt, w.snapshot, next, w.rows)
  }

  function AskAt(
    w: World, q: Request, call: nat, attempt: Option<Event>, u: T.Supply, now: int, connectivity: Connectivity,
    break_: Break):
    (World, AuthorityResult)
  {
    var (next, r) := Decide(w.snapshot, q, u, now, connectivity, break_);
    (if next.None? then w else Logged(w, ChangeOf(w, q, call, attempt, next.value)), r)
  }

  /** The authority may be asked: a management command has its own attempt in the table. */
  ghost predicate MayApply(w: World, q: Request, attempt: Option<Event>) {
    if Management(q.command.name) then
      && attempt.Some? && attempt.value.result.Attempted? && attempt.value.id in w.drawn
      && Holds(w.rows, attempt.value) && !UsesAttempt(w.log, attempt.value.id)
    else attempt.None?
  }

  lemma MayStillApply(b: World, a: World, q: Request, attempt: Option<Event>)
    requires MayApply(b, q, attempt) && Grows(b, a)
    requires attempt.Some? ==> SameAbout(b, a, attempt.value.id)
    ensures MayApply(a, q, attempt)
  {
  }

  lemma ChangeIsSound(w: World, c: Change)
    requires Sound(w) && c.before == w.snapshot && c.rows == w.rows && Announced(c, w.drawn)
    requires c.attempt.Some? ==> !UsesAttempt(w.log, c.attempt.value.id)
    ensures Sound(Logged(w, c)) && Grows(w, Logged(w, c))
  {
    var a := Logged(w, c);
    assert forall i :: 0 <= i < |w.log| ==> a.log[i] == w.log[i];
    assert a.log[|w.log|] == c;
  }

  lemma ChangeIsStep(w: World, c: Change, id: string)
    requires Grows(w, Logged(w, c))
    requires c.attempt.Some? ==> c.attempt.value.id == id
    ensures IsStep(w, Logged(w, c), c.call, id)
    ensures c.call.Some? ==> Own(Logged(w, c).log, c.call.value) == Own(w.log, c.call.value) + [c]
  {
    var a := Logged(w, c);
    assert a.log[..|a.log| - 1] == w.log;
    forall other | Uuids.Parse(other) != Uuids.Parse(id)
      ensures UsesAttempt(a.log, other) <==> UsesAttempt(w.log, other)
    {
      if UsesAttempt(w.log, other) {
        var i :| 0 <= i < |w.log| && w.log[i].attempt.Some? && w.log[i].attempt.value.id == other;
        assert a.log[i] == w.log[i];
      }
    }
  }

  /** Asking the authority is a step of the call, about its attempt if it has one. */
  lemma AskIsStep(
    w: World, q: Request, call: nat, attempt: Option<Event>, u: T.Supply, now: int, connectivity: Connectivity,
    break_: Break, id: string)
    requires Sound(w) && MayApply(w, q, attempt) && (attempt.Some? ==> attempt.value.id == id)
    ensures IsStep(w, AskAt(w, q, call, attempt, u, now, connectivity, break_).0, Some(call), id)
  {
    hide Decide, Own, UsesAttempt, Uuids.Parse;
    var (next, r) := Decide(w.snapshot, q, u, now, connectivity, break_);
    if next.Some? {
      ChangeIsSound(w, ChangeOf(w, q, call, attempt, next.value));
      ChangeIsStep(w, ChangeOf(w, q, call, attempt, next.value), id);
    }
  }

  /** A change that is no command's: an endpoint comes or goes. */
  lemma ConnectIsStep(w: World, after: C.Snapshot, id: string)
    requires Sound(w)
    ensures IsStep(w, Logged(w, Change(None, None, None, w.snapshot, after, w.rows)), None, id)
  {
    var c := Change(None, None, None, w.snapshot, after, w.rows);
    ChangeIsSound(w, c);
    ChangeIsStep(w, c, id);
  }

  /**
   What a call itself changed by asking the authority: exactly what its command made
   of the world at one moment between the two.
   */
  ghost predicate OwnMoves(
    b: World, a: World, q: Request, call: nat, attempt: Option<Event>, u: T.Supply, now: int, r: AuthorityResult)
  {
    exists w, connectivity, break_ ::
      MovedIn(w, connectivity, break_, Own(b.log, call), a, q, call, attempt, u, now, r) && Grows(b, w)
  }

  /** At the moment `w`, and since then the call changed nothing else. */
  ghost predicate MovedIn(
    w: World, connectivity: Connectivity, break_: Break, own: seq<Change>, a: World,
    q: Request, call: nat, attempt: Option<Event>, u: T.Supply, now: int, r: AuthorityResult)
  {
    var (next, told) := Decide(w.snapshot, q, u, now, connectivity, break_);
    && Grows(w, a) && r == told
    && Own(a.log, call) == own + if next.None? then [] else [ChangeOf(w, q, call, attempt, next.value)]
  }

  lemma AskMoves(
    w: World, q: Request, call: nat, attempt: Option<Event>, u: T.Supply, now: int, connectivity: Connectivity,
    break_: Break)
    requires Sound(w) && MayApply(w, q, attempt)
    ensures var (a, r) := AskAt(w, q, call, attempt, u, now, connectivity, break_);
      MovedIn(w, connectivity, break_, Own(w.log, call), a, q, call, attempt, u, now, r)
  {
    var (next, _) := Decide(w.snapshot, q, u, now, connectivity, break_);
    if next.Some? {
      var change := ChangeOf(w, q, call, attempt, next.value);
      ChangeIsSound(w, change);
      ChangeIsStep(w, change, if attempt.Some? then attempt.value.id else "");
    }
  }

  lemma MovedStays(
    w: World, connectivity: Connectivity, break_: Break, own: seq<Change>, b: World, a: World,
    q: Request, call: nat, attempt: Option<Event>, u: T.Supply, now: int, r: AuthorityResult)
    requires MovedIn(w, connectivity, break_, own, b, q, call, attempt, u, now, r)
    requires Grows(b, a) && Own(a.log, call) == Own(b.log, call)
    ensures MovedIn(w, connectivity, break_, own, a, q, call, attempt, u, now, r)
  {
    GrowsOn(w, b, a);
  }

  // ---- Outcomes ----

  function Code(why: T.Rejection): string {
    match why
    case InvalidParameters => "invalid_parameters"
    case InvalidTransition => "invalid_transition"
    case RiskNotFound => "risk_not_found"
    case SafetySuppressed => "safety_suppressed"
    case CommandForbidden => "command_forbidden"
  }

  /** What became of the command, as an audit event. */
  function Outcome(q: Request, id: string, now: int, r: AuthorityResult): Event {
    match r
    case Shown(_) => EventOf(q, id, now, Succeeded, None)
    case Refusal(why) => EventOf(q, id, now, Rejected, Some(Code(why)))
    case Broken => EventOf(q, id, now, AuditEvents.Error, Some("internal_error"))
  }

  function AttemptOf(q: Request, id: string, now: int): Event {
    EventOf(q, id, now, Attempted, None)
  }

  function Denial(q: Request, id: string, now: int): Event {
    EventOf(q, id, now, Rejected, Some("role_forbidden"))
  }

  datatype Answer =
    | Forbidden(delivery: Delivery)
    | NotAttempted(error: RecordError)
    | Answered(result: AuthorityResult, delivery: Delivery)
    | OutcomeConflict

  /** What a call is told, once the authority has answered and the outcome was recorded. */
  function Told(r: AuthorityResult, d: Result<Delivery, RecordError>): Answer {
    if d.Success? then Answered(r, d.value) else OutcomeConflict
  }

  /** From `b` to `a` a call had its command carried out and its outcome recorded under the identifier. */
  ghost predicate Carried(
    b: World, a: World, q: Request, call: nat, attempt: Option<Event>, id: string, u: T.Supply, now: int, r: Answer)
  {
    if r.Answered? then
      && Reported(b, a, Outcome(q, id, now, r.result), Success(r.delivery), true)
      && OwnMoves(b, a, q, call, attempt, u, now, r.result)
    else r.OutcomeConflict? && InRows(b.rows, id)
  }
}
