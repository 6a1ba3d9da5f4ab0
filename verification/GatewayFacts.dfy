/**
 What the audit says about a command, field by field, once the answer to it is
 known: read back from the table, or from the fallback.
 */
module GatewayFacts {
  import opened Wrappers
  import opened AuditEvents
  import opened AuditStore
  import opened AuditIdentity
  import opened GatewaySteps
  import Uuids
  import C = CockpitModel
  import T = Transitions

  /** The fields about the command itself; identifiers and places that are none are redacted. */
  ghost predicate FactsSay(f: Facts, q: Request, errorCode: Value) {
    && f.action == Text("cockpit.command") && f.sourceType == Text("local_hmi")
    && f.cockpitSessionId == Null && f.targetType == Null && f.targetId == Null
    && f.commandName == (
         match q.command.name
         case SetTheme => Text("set_theme")
         case SetSystemMode => Text("set_system_mode")
         case SelectDestination => Text("select_destination")
         case ConfirmRoute => Text("confirm_route")
         case AcknowledgeRisk => Text("acknowledge_risk")
         case ResolveRisk => Text("resolve_risk")
         case SetMediaState => Text("set_media_state")
         case SubmitTripSuggestion => Text("submit_trip_suggestion")
         case SetCabinControl => Text("set_cabin_control")
         case ResetSession => Text("reset_session"))
    && f.endpoint == (
         if q.endpoint in {"cluster", "hud", "center", "passenger", "overview", "control"} then Text(q.endpoint)
         else Redacted)
    && (Uuids.IsText(q.command.correlationId) ==> f.correlationId == Text(q.command.correlationId))
    && f.errorCode == errorCode
  }

  /** A fact of the table about this request. */
  ghost predicate RowSays(rows: Rows, q: Request, id: string, at: int, result: AuditResult, errorCode: Value) {
    && Uuids.Parse(id).Some? && Uuids.Parse(id).value in rows
    && var e := FromRow(rows[Uuids.Parse(id).value]);
      && e.result == result && e.delivery == Primary && e.occurredAt == Time(at, Some(0))
      && e.actorUserId == Uuids.Canonical(q.userId) && e.actorSessionId == Uuids.Canonical(q.sessionId)
      && e.actorRole == Some(q.role) && FactsSay(e.facts, q, errorCode)
  }

  /** A fact of the fallback about this request. */
  ghost predicate FileSays(file: seq<Event>, q: Request, id: string, at: int, result: AuditResult, errorCode: Value) {
    exists i :: 0 <= i < |file| && EntrySays(file[i], q, id, at, result, errorCode)
  }

  ghost predicate EntrySays(e: Event, q: Request, id: string, at: int, result: AuditResult, errorCode: Value) {
    && e.id == id && e.result == result && e.delivery == Fallback && e.occurredAt == Time(at, Some(0))
    && e.actorUserId == Some(q.userId) && e.actorSessionId == Some(q.sessionId) && e.actorRole == Some(q.role)
    && FactsSay(e.facts, q, errorCode)
  }

  /** What the sanitizer makes of the fields of a command's event. */
  lemma CommandFacts(q: Request, code: Option<string>)
    requires code.Some? ==> code.value in {
      "invalid_parameters", "invalid_transition", "risk_not_found", "safety_suppressed", "command_forbidden",
      "role_forbidden", "internal_error"}
    ensures FactsSay(Sanitize(EventOf(q, "", 0, Succeeded, code).facts), q,
      if code.Some? then Text(code.value) else Null)
  {
    hide SafeParameters, Of, Uuids.IsText, Uuids.Canonical, Uuids.LowerText, Identifier;
    TermsOfCommand(q.command.name);
    EndpointTerm(q.endpoint);
    if code.Some? {
      CodeTerm(code.value);
    }
    if Uuids.IsText(q.command.correlationId) {
      CorrelationStays(q.command.correlationId);
    }
  }

  lemma TermsOfCommand(n: T.Name)
    ensures CommandWord(n) in Of(Commands) && "cockpit.command" in Of(Actions) && "local_hmi" in Of(SourceTypes)
  {
    assert Of(Actions)[2] == "cockpit.command" && Of(SourceTypes)[0] == "local_hmi";
    var words := Of(Commands);
    assert words[0] == "acknowledge_risk" && words[1] == "confirm_route" && words[2] == "reset_session";
    assert words[3] == "resolve_risk" && words[5] == "select_destination" && words[6] == "set_cabin_control";
    assert words[7] == "set_media_state" && words[8] == "set_system_mode" && words[9] == "set_theme";
    assert words[10] == "submit_trip_suggestion";
  }

  lemma EndpointTerm(e: string)
    ensures e in Of(Endpoints) <==> e in {"cluster", "hud", "center", "passenger", "overview", "control"}
  {
    var words := Of(Endpoints);
    assert words[0] == "center" && words[1] == "cluster" && words[2] == "control" && words[3] == "hud";
    assert words[4] == "overview" && words[5] == "passenger";
  }

  lemma CodeTerm(code: string)
    requires code in {
      "invalid_parameters", "invalid_transition", "risk_not_found", "safety_suppressed", "command_forbidden",
      "role_forbidden", "internal_error"}
    ensures code in Of(ErrorCodes)
  {
    var words := Of(ErrorCodes);
    assert words[3] == "command_forbidden" && words[8] == "internal_error" && words[9] == "invalid_parameters";
    assert words[10] == "invalid_transition" && words[12] == "risk_not_found" && words[13] == "role_forbidden";
    assert words[14] == "safety_suppressed";
  }

  lemma CorrelationStays(id: string)
    requires Uuids.IsText(id)
    ensures SafeUuid(Text(id)) == Text(id)
  {
    LowerIsText(id);
  }

  /** What the table says of an event that it holds. */
  lemma HeldSays(rows: Rows, q: Request, id: string, at: int, result: AuditResult, code: Option<string>)
    requires Holds(rows, EventOf(q, id, at, result, code))
    requires code.Some? ==> code.value in {
      "invalid_parameters", "invalid_transition", "risk_not_found", "safety_suppressed", "command_forbidden",
      "role_forbidden", "internal_error"}
    ensures RowSays(rows, q, id, at, result, if code.Some? then Text(code.value) else Null)
  {
    hide Uuids.Parse, Uuids.Print, Sanitize, FactsSay;
    var e := EventOf(q, id, at, result, code);
    CommandFacts(q, code);
    SameFacts(Sanitize(e.facts), FromRow(rows[ToRow(e).value.id]).facts, q,
      if code.Some? then Text(code.value) else Null);
  }

  lemma SameFacts(f: Facts, g: Facts, q: Request, code: Value)
    requires FactsSay(f, q, code) && f == g.(parameters := f.parameters)
    ensures FactsSay(g, q, code)
  {
  }

  lemma FiledSays(file: seq<Event>, q: Request, id: string, at: int, result: AuditResult, code: Option<string>)
    requires FallbackEvent(EventOf(q, id, at, result, code)) in file
    requires code.Some? ==> code.value in {
      "invalid_parameters", "invalid_transition", "risk_not_found", "safety_suppressed", "command_forbidden",
      "role_forbidden", "internal_error"}
    ensures FileSays(file, q, id, at, result, if code.Some? then Text(code.value) else Null)
  {
    hide Sanitize, FactsSay;
    CommandFacts(q, code);
    var i :| 0 <= i < |file| && file[i] == FallbackEvent(EventOf(q, id, at, result, code));
    assert EntrySays(file[i], q, id, at, result, if code.Some? then Text(code.value) else Null);
  }

  // ---- Which store takes an event, and what the authority decides ----

  /** A table that answers decides alone. */
  lemma TableDecides(w: World, e: Event, allowFallback: bool, hasFallback: bool, st: Stores)
    requires RowsOk(w.rows) && Canonicalize(e).Success? && st.ready && st.fuse >= 3
    ensures var (a, r) := RecordAt(w, e, allowFallback, hasFallback, st);
      && a == w.(rows := a.rows, drawn := w.drawn + {e.id}) && Keeps(w.rows, a.rows)
      && match r
         case Success(Primary) => Holds(a.rows, e)
         case Failure(ConflictRaised) => a.rows == w.rows && InRows(w.rows, e.id)
         case _ => false
  {
    hide Uuids.Parse, Sanitize;
    RowRoundTrip(e);
    StoredOk(w.rows, e);
    if Accepted(Judge(w.rows, e)) {
      AcceptedIsStored(w.rows, e);
    }
  }

  /** One that does not leaves it to the fallback, if that is allowed, is there and takes it; else it is lost. */
  lemma FallbackDecides(w: World, e: Event, allowFallback: bool, hasFallback: bool, st: Stores)
    requires RowsOk(w.rows) && Canonicalize(e).Success? && (!st.ready || st.fuse < 2)
    ensures var (a, r) := RecordAt(w, e, allowFallback, hasFallback, st);
      && a == w.(fallback := a.fallback, drawn := w.drawn + {e.id})
      && (!allowFallback ==> r == Failure(AuditUnavailable) && a.fallback == w.fallback)
      && (allowFallback && (!hasFallback || !st.fallbackWrites) ==> r == Success(Lost) && a.fallback == w.fallback)
      && (allowFallback && hasFallback && st.fallbackWrites ==>
            && r == Success(Fallback) && |a.fallback| == |w.fallback| + 1 && w.fallback <= a.fallback
            && a.fallback[|w.fallback|].id == e.id && a.fallback[|w.fallback|].delivery == Fallback)
  {
    hide Uuids.Parse, Sanitize;
    RowRoundTrip(e);
  }

  /** The authority changes its snapshot exactly as the command does, and tells what it has done unless it breaks. */
  lemma AuthorityDecides(
    s: C.Snapshot, q: Request, u: T.Supply, now: int, connectivity: Connectivity, break_: Break)
    ensures var (next, told) := Decide(s, q, u, now, connectivity, break_);
      if break_ == Early then next == None && told == Broken
      else if !q.permitted then next == None && told == Refusal(T.CommandForbidden)
      else
        match T.Transition(s, q.command, u)
        case Rejected(why) => next == None && told == Refusal(why)
        case Same => next == None && told == Shown(s)
        case Changed(s', reset) =>
          && next == Some(s'.(revision := s'.revision + 1, timestamp := now,
                              connectivity := if reset then connectivity else s.connectivity))
          && told == if break_ == Late then Broken else Shown(next.value)
  {
  }

  // ---- Attempts, denials, outcomes ----

  /** What an answer of the authority is recorded as. */
  ghost predicate Recorded(r: AuthorityResult, result: AuditResult, errorCode: Value) {
    match r
    case Shown(_) => result == Succeeded && errorCode == Null
    case Refusal(InvalidParameters) => result == Rejected && errorCode == Text("invalid_parameters")
    case Refusal(InvalidTransition) => result == Rejected && errorCode == Text("invalid_transition")
    case Refusal(RiskNotFound) => result == Rejected && errorCode == Text("risk_not_found")
    case Refusal(SafetySuppressed) => result == Rejected && errorCode == Text("safety_suppressed")
    case Refusal(CommandForbidden) => result == Rejected && errorCode == Text("command_forbidden")
    case Broken => result == AuditEvents.Error && errorCode == Text("internal_error")
  }

  /** The outcome is where the delivery says, and says what the authority answered. */
  ghost predicate OutcomeSaid(
    rows: Rows, file: seq<Event>, q: Request, id: string, at: int, r: AuthorityResult, d: Delivery)
  {
    exists result, code :: Recorded(r, result, code) &&
      match d
      case Primary => RowSays(rows, q, id, at, result, code)
      case Fallback => FileSays(file, q, id, at, result, code)
      case Lost => true
  }

  lemma OutcomeIs(
    q: Request, id: string, at: int, r: AuthorityResult, result: AuditResult, code: Option<string>)
    requires result == if r.Shown? then Succeeded else if r.Refusal? then Rejected else AuditEvents.Error
    requires code == if r.Shown? then None else if r.Refusal? then Some(Code(r.why)) else Some("internal_error")
    ensures Outcome(q, id, at, r) == EventOf(q, id, at, result, code)
    ensures Recorded(r, result, if code.Some? then Text(code.value) else Null)
    ensures code.Some? ==> code.value in {
      "invalid_parameters", "invalid_transition", "risk_not_found", "safety_suppressed", "command_forbidden",
      "role_forbidden", "internal_error"}
  {
    hide EventOf;
  }

  lemma OutcomeSays(w: World, q: Request, id: string, at: int, r: AuthorityResult, d: Delivery)
    requires Exact(w, Outcome(q, id, at, r), d)
    ensures OutcomeSaid(w.rows, w.fallback, q, id, at, r, d)
  {
    hide RowSays, FileSays, Holds, EventOf, Outcome, Recorded, Code, InRows, InFallback, FallbackEvent;
    var result := if r.Shown? then Succeeded else if r.Refusal? then Rejected else AuditEvents.Error;
    var code := if r.Shown? then None else if r.Refusal? then Some(Code(r.why)) else Some("internal_error");
    var value := if code.Some? then Text(code.value) else Null;
    OutcomeIs(q, id, at, r, result, code);
    if d.Primary? {
      HeldSays(w.rows, q, id, at, result, code);
    } else if d.Fallback? {
      FiledSays(w.fallback, q, id, at, result, code);
    }
  }

  lemma DenialSays(w: World, q: Request, id: string, at: int, d: Delivery)
    requires Exact(w, Denial(q, id, at), d)
    ensures DenialSaid(w, q, id, at, d)
  {
    hide RowSays, FileSays, Holds;
    if d.Primary? {
      HeldSays(w.rows, q, id, at, Rejected, Some("role_forbidden"));
    } else if d.Fallback? {
      FiledSays(w.fallback, q, id, at, Rejected, Some("role_forbidden"));
    }
  }

  lemma AttemptSays(rows: Rows, q: Request, id: string, at: int)
    requires Holds(rows, AttemptOf(q, id, at))
    ensures RowSays(rows, q, id, at, Attempted, Null)
  {
    HeldSays(rows, q, id, at, Attempted, None);
  }

  /**
   What a call from `b` to `a` leaves in the audit, if its identifier was free: its
   denial, or its outcome, and for a management command its attempt before that.
   */
  ghost predicate AnswerSaid(b: World, a: World, q: Request, attemptId: string, id: string, now: int, r: Answer) {
    match r
    case Forbidden(d) => Free(b, id) ==> DenialSaid(a, q, id, now, d)
    case Answered(result, d) =>
      && (Free(b, id) ==> OutcomeSaid(a.rows, a.fallback, q, id, now, result, d))
      && (q.command.name in {T.SetTheme, T.SetSystemMode, T.ResetSession} ==>
            RowSays(a.rows, q, attemptId, now, Attempted, Null))
    case _ => true
  }

  ghost predicate DenialSaid(w: World, q: Request, id: string, at: int, d: Delivery) {
    && (d.Primary? ==> RowSays(w.rows, q, id, at, Rejected, Text("role_forbidden")))
    && (d.Fallback? ==> FileSays(w.fallback, q, id, at, Rejected, Text("role_forbidden")))
  }

  lemma ForbiddenSaid(b: World, a: World, q: Request, attemptId: string, id: string, now: int, d: Delivery)
    requires Reported(b, a, Denial(q, id, now), Success(d), true)
    ensures AnswerSaid(b, a, q, attemptId, id, now, Forbidden(d))
  {
    hide RowSays, FileSays, Exact, InRows, InFallback;
    if Free(b, id) {
      DenialSays(a, q, id, now, d);
    }
  }

  lemma CarriedSaid(
    b: World, m: World, a: World, q: Request, call: nat, attempt: Option<Event>, attemptId: string, id: string,
    u: T.Supply, now: int, r: Answer)
    requires Carried(b, a, q, call, attempt, id, u, now, r) && Grows(m, a)
    requires Management(q.command.name) ==> MayApply(m, q, Some(AttemptOf(q, attemptId, now)))
    ensures AnswerSaid(b, a, q, attemptId, id, now, r)
  {
    hide RowSays, OutcomeSaid, Exact, OwnMoves, Holds, UsesAttempt, Sound, Uuids.Parse;
    if r.Answered? {
      if Free(b, id) {
        OutcomeSays(a, q, id, now, r.result, r.delivery);
      }
      if Management(q.command.name) {
        HeldForGood(m.rows, a.rows, AttemptOf(q, attemptId, now));
        AttemptSays(a.rows, q, attemptId, now);
      }
    }
  }
}
