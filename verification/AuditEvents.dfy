/** Audit facts: what is kept of an event, and when two events are the same fact. */
module AuditEvents {
  import opened Wrappers
  import Uuids

  datatype AuditResult = Attempted | Succeeded | Rejected | Error | Degraded
  datatype Delivery = Primary | Fallback | Lost
  datatype Role = Admin | Operator | Viewer

  /** `NonFinite`: a float that is no number; `Compound`: lists, objects and anything else. */
  datatype Value = Null | Bool(b: bool) | Int(n: int) | Float(r: real) | NonFinite | Text(s: string) | Compound

  datatype Parameters = Dict(items: map<string, Value>) | NotADict

  /** A moment in microseconds of local time, with its offset from UTC when it has one. */
  datatype Time = Time(local: int, offset: Option<int>)

  /** The fields that may hold free-form data. */
  datatype Facts = Facts(
    action: Value, endpoint: Value, cockpitSessionId: Value, commandName: Value, correlationId: Value,
    targetType: Value, targetId: Value, errorCode: Value, sourceType: Value, parameters: Parameters)

  datatype Event = Event(
    id: string, occurredAt: Time, result: AuditResult, delivery: Delivery,
    actorUserId: Option<string>, actorSessionId: Option<string>, actorRole: Option<Role>, facts: Facts)

  datatype Invalid = NotPersistable | NoMedium | NaiveTime | BadId

  const Redacted := Text("[redacted]")

  /** The closed vocabularies, and the orders of parameter keys. */
  datatype Words =
    | Commands | Actions | Endpoints | TargetTypes | SourceTypes | ErrorCodes
    | Modes | Roles | Reasons | MediaStates | Statuses | Themes | NoWords
    | SafeKeys | RedactedKeys | KeyOrder

  function Of(words: Words): seq<string> {
    match words
    case Commands => [
      "acknowledge_risk", "confirm_route", "reset_session", "resolve_risk", "revoke_platform_session",
      "select_destination", "set_cabin_control", "set_media_state", "set_system_mode", "set_theme",
      "submit_trip_suggestion"]
    case Actions => [
      "auth.login", "auth.logout", "cockpit.command", "recovery.completed", "risk.detected",
      "session.revoke", "user.disable", "user.enable", "user.role_change"]
    case Endpoints => ["center", "cluster", "control", "hud", "overview", "passenger"]
    case TargetTypes => ["climate_zone", "platform_session", "risk_event", "user"]
    case SourceTypes => ["local_hmi"]
    case ErrorCodes => [
      "admin_mutation_failed", "audit_conflict", "audit_unavailable", "command_forbidden",
      "command_not_implemented", "control_disabled", "database_unavailable", "endpoint_mismatch",
      "internal_error", "invalid_parameters", "invalid_transition", "last_admin_protected",
      "risk_not_found", "role_forbidden", "safety_suppressed", "session_not_found", "source_mismatch",
      "user_not_found"]
    case Modes => ["normal", "warning", "takeover", "stale", "offline", "recovery"]
    case Roles => ["admin", "operator", "viewer"]
    case Reasons => ["admin_revoke", "operator_request", "role_changed", "security_review", "user_disabled"]
    case MediaStates => ["playing", "paused", "suppressed"]
    case Statuses => ["attempted", "succeeded", "rejected", "error", "ready", "degraded", "unavailable"]
    case Themes => ["day", "night"]
    case NoWords => []
    case SafeKeys => [
      "attempt", "command", "count", "eventId", "mode", "newRole", "oldRole", "privacyEnabled", "reason",
      "revokedSessionCount", "state", "status", "targetUserId", "temperatureC", "theme"]
    case RedactedKeys => [
      "api_key", "database_dsn", "destinationName", "private_text", "raw_secret", "raw_token",
      "session_secret", "sql_error"]
    case KeyOrder => [
      "attempt", "command", "count", "eventId", "mode", "oldRole", "newRole", "privacyEnabled",
      "revokedSessionCount", "targetUserId", "reason", "state", "status", "temperatureC", "theme",
      "api_key", "database_dsn", "destinationName", "private_text", "raw_secret", "raw_token",
      "session_secret", "sql_error"]
  }

  /** The closed vocabulary of a parameter. */
  function Vocabulary(key: string): Words {
    if key == "command" then Commands
    else if key == "mode" then Modes
    else if key == "newRole" || key == "oldRole" then Roles
    else if key == "reason" then Reasons
    else if key == "state" then MediaStates
    else if key == "status" then Statuses
    else if key == "theme" then Themes
    else NoWords
  }

  const RiskPrefix := "simulated-takeover-"

  predicate IsRiskId(s: string) {
    RiskPrefix <= s && Uuids.IsText(s[|RiskPrefix|..])
  }

  /** The lower-case spelling of an identifier, or nothing. */
  function Identifier(v: Value): Option<string> {
    if !v.Text? then None
    else if Uuids.IsText(Uuids.LowerText(v.s)) then Uuids.Canonical(v.s)
    else if IsRiskId(Uuids.LowerText(v.s)) then Some(Uuids.LowerText(v.s))
    else None
  }

  /** A parameter that may be kept, as it is kept. */
  function SafeValue(key: string, v: Value): Option<Value> {
    if key == "privacyEnabled" then
      if v.Bool? then Some(v) else None
    else if key == "attempt" || key == "count" || key == "revokedSessionCount" then
      if v.Int? && 0 <= v.n <= 1_000_000 then Some(v) else None
    else if key == "temperatureC" then
      if (v.Int? && -100 <= v.n <= 200) || (v.Float? && -100.0 <= v.r <= 200.0) then Some(v) else None
    else if !v.Text? then None
    else if key == "eventId" || key == "targetUserId" then
      if Identifier(v).Some? then Some(Text(Identifier(v).value)) else None
    else if v.s in Of(Vocabulary(key)) then Some(v)
    else None
  }

  function SafeParameter(key: string, v: Value): Value {
    if key in Of(RedactedKeys) || SafeValue(key, v).None? then Redacted else SafeValue(key, v).value
  }

  predicate Kept(key: string) { key in Of(RedactedKeys) || key in Of(SafeKeys) }

  /** Those of the parameters whose keys are listed and kept. */
  function SafeItems(items: map<string, Value>, order: seq<string>): map<string, Value> {
    map k | k in items && k in order && Kept(k) :: SafeParameter(k, items[k])
  }

  function SafeParameters(p: Parameters): Parameters {
    match p case Dict(items) => Dict(SafeItems(items, Of(KeyOrder))) case NotADict => Dict(map[])
  }

  /** The parameters, key by key in their fixed order. */
  method SanitizeParameters(value: Parameters) returns (sanitized: map<string, Value>)
    ensures Dict(sanitized) == SafeParameters(value)
  {
    sanitized := map[];
    if value.Dict? {
      sanitized := SanitizeKeys(value.items, Of(KeyOrder));
    }
  }

  method SanitizeKeys(items: map<string, Value>, order: seq<string>) returns (sanitized: map<string, Value>)
    ensures sanitized == SafeItems(items, order)
  {
    sanitized := map[];
    for i := 0 to |order|
      invariant sanitized == SafeItems(items, order[..i])
    {
      var key := order[i];
      assert order[..i + 1] == order[..i] + [key];
      if key in items {
        var item := items[key];
        if key in Of(RedactedKeys) {
          sanitized := sanitized[key := Redacted];
        } else if key in Of(SafeKeys) {
          var safe := SafeValue(key, item);
          sanitized := sanitized[key := if safe.Some? then safe.value else Redacted];
        }
      }
    }
    assert order[..|order|] == order;
  }

  function SafeTerm(v: Value, allowed: Words): Value {
    if v.Null? then Null else if v.Text? && v.s in Of(allowed) then v else Redacted
  }

  function RequiredTerm(v: Value, allowed: Words): Value {
    if SafeTerm(v, allowed) in {Null, Text("")} then Redacted else SafeTerm(v, allowed)
  }

  function SafeUuid(v: Value): Value {
    if v.Null? then Null
    else if v.Text? && Uuids.IsText(Uuids.LowerText(v.s)) && Uuids.Canonical(v.s).Some?
    then Text(Uuids.Canonical(v.s).value)
    else Redacted
  }

  function SafeTarget(v: Value): Value {
    if v.Null? then Null
    else if Identifier(v).Some? then Text(Identifier(v).value)
    else Redacted
  }

  /** What reaches durable storage. */
  function Sanitize(f: Facts): Facts {
    Facts(
      RequiredTerm(f.action, Actions), SafeTerm(f.endpoint, Endpoints), SafeUuid(f.cockpitSessionId),
      SafeTerm(f.commandName, Commands), SafeUuid(f.correlationId), SafeTerm(f.targetType, TargetTypes),
      SafeTarget(f.targetId), SafeTerm(f.errorCode, ErrorCodes), RequiredTerm(f.sourceType, SourceTypes),
      SafeParameters(f.parameters))
  }

  function CanonicalOptional(id: Option<string>): Option<Option<string>> {
    if id.None? then Some(None) else if Uuids.Canonical(id.value).Some? then Some(Uuids.Canonical(id.value)) else None
  }

  function Utc(t: Time): Time
    requires t.offset.Some?
  {
    Time(t.local - t.offset.value, Some(0))
  }

  /** The exact fact an event stands for, or why it cannot be kept. */
  function Canonicalize(e: Event): Result<Event, Invalid> {
    if e.result.Degraded? then Failure(NotPersistable)
    else if e.delivery.Lost? then Failure(NoMedium)
    else if e.occurredAt.offset.None? then Failure(NaiveTime)
    else if Uuids.Canonical(e.id).None? || CanonicalOptional(e.actorUserId).None?
      || CanonicalOptional(e.actorSessionId).None?
    then Failure(BadId)
    else Success(Event(
      Uuids.Canonical(e.id).value, Utc(e.occurredAt), e.result, e.delivery,
      CanonicalOptional(e.actorUserId).value, CanonicalOptional(e.actorSessionId).value, e.actorRole,
      Sanitize(e.facts)))
  }

  /** The form an event takes in the fallback file. */
  function FallbackEvent(e: Event): Event {
    e.(delivery := Fallback, facts := Sanitize(e.facts))
  }

  lemma IdentifierTwice(v: Value)
    requires Identifier(v).Some?
    ensures Identifier(Text(Identifier(v).value)) == Identifier(v)
  {
    var s := v.s;
    Uuids.LowerTextTwice(s);
    if Uuids.IsText(Uuids.LowerText(s)) {
      Uuids.PrintParse(s);
      Uuids.CanonicalTwice(s);
    }
  }

  lemma RedactedIsNoIdentifier()
    ensures Identifier(Redacted).None?
  {
    assert |Uuids.LowerText(Redacted.s)| == 10;
  }

  lemma SafeParameterTwice(key: string, v: Value)
    ensures SafeParameter(key, SafeParameter(key, v)) == SafeParameter(key, v)
  {
    RedactedIsNoIdentifier();
    if Identifier(v).Some? {
      IdentifierTwice(v);
    }
  }

  lemma SafeUuidTwice(v: Value)
    ensures SafeUuid(SafeUuid(v)) == SafeUuid(v)
  {
    assert |Uuids.LowerText(Redacted.s)| == 10;
    if SafeUuid(v) !in {Null, Redacted} {
      Uuids.LowerTextTwice(v.s);
      Uuids.PrintParse(v.s);
      Uuids.CanonicalTwice(v.s);
    }
  }

  lemma SafeTargetTwice(v: Value)
    ensures SafeTarget(SafeTarget(v)) == SafeTarget(v)
  {
    RedactedIsNoIdentifier();
    if Identifier(v).Some? {
      IdentifierTwice(v);
    }
  }

  lemma SafeParametersTwice(p: Parameters)
    ensures SafeParameters(SafeParameters(p)) == SafeParameters(p)
  {
    if p.Dict? {
      var once := SafeItems(p.items, Of(KeyOrder));
      forall k | k in once ensures SafeParameter(k, once[k]) == once[k] {
        SafeParameterTwice(k, p.items[k]);
      }
      assert SafeItems(once, Of(KeyOrder)) == once;
    }
  }

  /** Sanitizing what is sanitized changes nothing. */
  lemma SanitizeTwice(f: Facts)
    ensures Sanitize(Sanitize(f)) == Sanitize(f)
  {
    SafeUuidTwice(f.cockpitSessionId);
    SafeUuidTwice(f.correlationId);
    SafeTargetTwice(f.targetId);
    SafeParametersTwice(f.parameters);
  }

  // ---- What can get through ----

  predicate IsTerm(v: Value, allowed: Words) { v == Redacted || (v.Text? && v.s in Of(allowed)) }

  /** An identifier in its canonical spelling; `risks`: a simulated risk event counts too. */
  predicate IsIdentifier(v: Value, risks: bool) {
    v == Redacted || (v.Text? && (Uuids.IsText(v.s) || (risks && IsRiskId(v.s))))
  }

  predicate ClosedParameter(key: string, v: Value) {
    || v == Redacted
    || (key == "privacyEnabled" && v.Bool?)
    || (key in {"attempt", "count", "revokedSessionCount"} && v.Int? && 0 <= v.n <= 1_000_000)
    || (key == "temperatureC" && v.Int? && -100 <= v.n <= 200)
    || (key == "temperatureC" && v.Float? && -100.0 <= v.r <= 200.0)
    || (key in {"eventId", "targetUserId"} && IsIdentifier(v, true))
    || (v.Text? && v.s in Of(Vocabulary(key)))
  }

  predicate ClosedParameters(p: Parameters) {
    p.Dict? && forall k :: k in p.items ==> k in Of(KeyOrder) && Kept(k) && ClosedParameter(k, p.items[k])
  }

  /** Facts that say nothing but what the closed vocabularies, identifiers and bounds allow. */
  predicate Closed(f: Facts) {
    && IsTerm(f.action, Actions) && f.action != Text("")
    && (f.endpoint.Null? || IsTerm(f.endpoint, Endpoints))
    && (f.cockpitSessionId.Null? || IsIdentifier(f.cockpitSessionId, false))
    && (f.commandName.Null? || IsTerm(f.commandName, Commands))
    && (f.correlationId.Null? || IsIdentifier(f.correlationId, false))
    && (f.targetType.Null? || IsTerm(f.targetType, TargetTypes))
    && (f.targetId.Null? || IsIdentifier(f.targetId, true))
    && (f.errorCode.Null? || IsTerm(f.errorCode, ErrorCodes))
    && IsTerm(f.sourceType, SourceTypes) && f.sourceType != Text("")
    && ClosedParameters(f.parameters)
  }

  lemma LowerIsText(s: string)
    requires Uuids.IsText(s)
    ensures Uuids.LowerText(s) == s && Uuids.Canonical(s) == Some(s)
  {
    assert forall i :: 0 <= i < |s| ==> Uuids.Lower(s[i]) == s[i];
    Uuids.PrintParse(s);
  }

  lemma RiskIdIsLower(s: string)
    requires IsRiskId(s)
    ensures Uuids.LowerText(s) == s && !Uuids.IsText(s)
  {
    LowerIsText(s[|RiskPrefix|..]);
    forall i | 0 <= i < |s| ensures Uuids.Lower(s[i]) == s[i] {
      if i >= |RiskPrefix| {
        assert s[i] == s[|RiskPrefix|..][i - |RiskPrefix|];
      } else {
        assert s[i] == RiskPrefix[i];
      }
    }
  }

  lemma IdentifierExactly(v: Value)
    ensures Identifier(v).Some? && Text(Identifier(v).value) == v <==> IsIdentifier(v, true) && v != Redacted
  {
    RedactedIsNoIdentifier();
    if v.Text? {
      if Uuids.IsText(v.s) {
        LowerIsText(v.s);
      } else if IsRiskId(v.s) {
        RiskIdIsLower(v.s);
      } else if Uuids.IsText(Uuids.LowerText(v.s)) {
        Uuids.PrintParse(v.s);
      }
    }
  }

  lemma UuidExactly(v: Value)
    ensures SafeUuid(v) == v <==> v.Null? || IsIdentifier(v, false)
  {
    assert |Uuids.LowerText(Redacted.s)| == 10;
    if v.Text? {
      if Uuids.IsText(v.s) {
        LowerIsText(v.s);
      } else if Uuids.IsText(Uuids.LowerText(v.s)) {
        Uuids.PrintParse(v.s);
      }
    }
  }

  /** No other rule is about a key that is always redacted. */
  lemma RedactedKeysApart(key: string)
    requires key in Of(RedactedKeys)
    ensures Vocabulary(key) == NoWords && key !in {"privacyEnabled", "attempt", "count", "revokedSessionCount"}
    ensures key !in {"temperatureC", "eventId", "targetUserId"}
  {
  }

  lemma SafeValueExactly(key: string, v: Value)
    ensures SafeValue(key, v) == Some(v) || v == Redacted <==> ClosedParameter(key, v)
  {
    if v.Text? {
      SafeTextExactly(key, v);
    }
  }

  predicate TypedKey(key: string) {
    key in {"privacyEnabled", "attempt", "count", "revokedSessionCount", "temperatureC"}
  }

  predicate IdentifierKey(key: string) { key == "eventId" || key == "targetUserId" }

  lemma SafeTextExactly(key: string, v: Value)
    requires v.Text?
    ensures SafeValue(key, v) == Some(v) || v == Redacted <==> ClosedParameter(key, v)
  {
    if TypedKey(key) {
      TypedText(key, v);
    } else if IdentifierKey(key) {
      IdentifierExactly(v);
      assert Vocabulary(key) == NoWords;
    } else {
      WordText(key, v);
    }
  }

  lemma TypedText(key: string, v: Value)
    requires v.Text? && TypedKey(key)
    ensures SafeValue(key, v) == None && (ClosedParameter(key, v) <==> v == Redacted)
  {
    assert Vocabulary(key) == NoWords;
  }

  lemma WordText(key: string, v: Value)
    requires v.Text? && !TypedKey(key) && !IdentifierKey(key)
    ensures SafeValue(key, v) == Some(v) <==> v.s in Of(Vocabulary(key))
    ensures ClosedParameter(key, v) <==> v == Redacted || v.s in Of(Vocabulary(key))
  {
  }

  lemma ParameterExactly(key: string, v: Value)
    ensures SafeParameter(key, v) == v <==> ClosedParameter(key, v)
  {
    if key in Of(RedactedKeys) {
      RedactedKeysApart(key);
    } else {
      SafeValueExactly(key, v);
      SafeRedacted(key);
    }
  }

  lemma SafeRedacted(key: string)
    ensures SafeValue(key, Redacted) in {None, Some(Redacted)}
  {
    RedactedIsNoIdentifier();
  }

  lemma ParametersExactly(p: Parameters)
    ensures SafeParameters(p) == p <==> ClosedParameters(p)
  {
    if p.Dict? {
      forall k | k in p.items && k in Of(KeyOrder) && Kept(k)
        ensures SafeParameter(k, p.items[k]) == p.items[k] <==> ClosedParameter(k, p.items[k])
      {
        ParameterExactly(k, p.items[k]);
      }
      if ClosedParameters(p) {
        assert SafeItems(p.items, Of(KeyOrder)) == p.items;
      }
    }
  }

  /** Sanitizing leaves facts alone exactly when they are closed; so what it gives is always closed. */
  lemma SanitizedExactly(f: Facts)
    ensures Sanitize(f) == f <==> Closed(f)
    ensures Closed(Sanitize(f))
  {
    FixedExactly(f);
    SanitizeTwice(f);
    FixedExactly(Sanitize(f));
  }

  lemma TermExactly(v: Value, words: Words)
    ensures SafeTerm(v, words) == v <==> v.Null? || IsTerm(v, words)
  {
  }

  lemma RequiredExactly(v: Value, words: Words)
    ensures RequiredTerm(v, words) == v <==> IsTerm(v, words) && v != Text("")
  {
    hide Of;
  }

  lemma TargetExactly(v: Value)
    ensures SafeTarget(v) == v <==> v.Null? || IsIdentifier(v, true)
  {
    IdentifierExactly(v);
  }

  lemma FixedExactly(f: Facts)
    ensures Sanitize(f) == f <==> Closed(f)
  {
    hide SafeTerm, RequiredTerm, SafeUuid, SafeTarget, SafeParameters, IsTerm, IsIdentifier, ClosedParameters;
    RequiredExactly(f.action, Actions);
    TermExactly(f.endpoint, Endpoints);
    UuidExactly(f.cockpitSessionId);
    TermExactly(f.commandName, Commands);
    UuidExactly(f.correlationId);
    TermExactly(f.targetType, TargetTypes);
    TargetExactly(f.targetId);
    TermExactly(f.errorCode, ErrorCodes);
    RequiredExactly(f.sourceType, SourceTypes);
    ParametersExactly(f.parameters);
  }

  lemma CanonicalOptionalTwice(id: Option<string>)
    requires CanonicalOptional(id).Some?
    ensures CanonicalOptional(CanonicalOptional(id).value) == CanonicalOptional(id)
  {
    if id.Some? {
      Uuids.CanonicalTwice(id.value);
    }
  }

  /** A canonical event stands for itself. */
  lemma CanonicalizeTwice(e: Event)
    requires Canonicalize(e).Success?
    ensures Canonicalize(Canonicalize(e).value) == Canonicalize(e)
  {
    hide Uuids.Canonical, CanonicalOptional, Sanitize;
    Uuids.CanonicalTwice(e.id);
    CanonicalOptionalTwice(e.actorUserId);
    CanonicalOptionalTwice(e.actorSessionId);
    SanitizeTwice(e.facts);
  }
}
