/**
 What keeping an event does to it, field by field: what the sanitizer lets
 through, what the canonical form and the row hold, and when a row is in the way.
 */
module AuditEffects {
  import opened Wrappers
  import opened AuditEvents
  import opened AuditStore
  import Uuids

  // ---- The sanitizer, value by value ----

  /** Nothing stays nothing, a listed word stays, and anything else is redacted. */
  ghost predicate TermSaid(v: Value, words: seq<string>, r: Value) {
    match v
    case Null => r == Null
    case Text(s) => r == if s in words then v else Text("[redacted]")
    case _ => r == Text("[redacted]")
  }

  /** The same where something must be said. */
  ghost predicate RequiredSaid(v: Value, words: seq<string>, r: Value) {
    r == if v.Text? && v.s in words && v.s != "" then v else Text("[redacted]")
  }

  /** An identifier with its dashes in place stays, in lower case. */
  ghost predicate UuidSaid(v: Value, r: Value) {
    match v
    case Null => r == Null
    case Text(s) => r == if Uuids.IsText(Uuids.LowerText(s)) then Text(Uuids.LowerText(s)) else Text("[redacted]")
    case _ => r == Text("[redacted]")
  }

  /** An identifier, or that of a takeover that was played. */
  ghost predicate NamesTarget(s: string) {
    Uuids.IsText(s) || (|s| == 55 && s[..19] == "simulated-takeover-" && Uuids.IsText(s[19..]))
  }

  ghost predicate TargetSaid(v: Value, r: Value) {
    match v
    case Null => r == Null
    case Text(s) => r == if NamesTarget(Uuids.LowerText(s)) then Text(Uuids.LowerText(s)) else Text("[redacted]")
    case _ => r == Text("[redacted]")
  }

  /** A parameter of one of the keys that may be kept. */
  ghost predicate ParameterSaid(key: string, v: Value, r: Value) {
    var keeps := match key
      case "privacyEnabled" => v.Bool?
      case "attempt" => v.Int? && 0 <= v.n <= 1_000_000
      case "count" => v.Int? && 0 <= v.n <= 1_000_000
      case "revokedSessionCount" => v.Int? && 0 <= v.n <= 1_000_000
      case "temperatureC" => (v.Int? && -100 <= v.n <= 200) || (v.Float? && -100.0 <= v.r <= 200.0)
      case "command" => v.Text? && v.s in Of(Commands)
      case "mode" => v.Text? && v.s in {"normal", "warning", "takeover", "stale", "offline", "recovery"}
      case "newRole" => v.Text? && v.s in {"admin", "operator", "viewer"}
      case "oldRole" => v.Text? && v.s in {"admin", "operator", "viewer"}
      case "reason" => v.Text? && v.s in Of(Reasons)
      case "state" => v.Text? && v.s in {"playing", "paused", "suppressed"}
      case "status" => v.Text? && v.s in Of(Statuses)
      case "theme" => v.Text? && v.s in {"day", "night"}
      case _ => false;
    if key == "eventId" || key == "targetUserId" then
      r == if v.Text? && NamesTarget(Uuids.LowerText(v.s)) then Text(Uuids.LowerText(v.s)) else Text("[redacted]")
    else r == if keeps then v else Text("[redacted]")
  }

  lemma IdentifierSaid(v: Value)
    ensures Identifier(v) ==
      if v.Text? && NamesTarget(Uuids.LowerText(v.s)) then Some(Uuids.LowerText(v.s)) else None
  {
    if v.Text? {
      var s := Uuids.LowerText(v.s);
      if Uuids.IsText(s) {
        Uuids.PrintParse(v.s);
      } else {
        RiskIdSaid(s);
      }
    }
  }

  lemma RiskIdSaid(s: string)
    ensures IsRiskId(s) <==> |s| == 55 && s[..19] == "simulated-takeover-" && Uuids.IsText(s[19..])
  {
    assert |RiskPrefix| == 19;
  }

  lemma UuidEffect(v: Value)
    ensures UuidSaid(v, SafeUuid(v))
  {
    if v.Text? && Uuids.IsText(Uuids.LowerText(v.s)) {
      Uuids.PrintParse(v.s);
    }
  }

  lemma TargetEffect(v: Value)
    ensures TargetSaid(v, SafeTarget(v))
  {
    hide Uuids.LowerText, NamesTarget, Identifier;
    IdentifierSaid(v);
  }

  lemma TermEffect(v: Value, words: Words)
    ensures TermSaid(v, Of(words), SafeTerm(v, words))
    ensures RequiredSaid(v, Of(words), RequiredTerm(v, words))
  {
    hide Of;
  }

  lemma WordsAre(s: string)
    ensures s in Of(Modes) <==> s in {"normal", "warning", "takeover", "stale", "offline", "recovery"}
    ensures s in Of(Roles) <==> s in {"admin", "operator", "viewer"}
    ensures s in Of(MediaStates) <==> s in {"playing", "paused", "suppressed"}
    ensures s in Of(Themes) <==> s in {"day", "night"}
    ensures s !in Of(NoWords)
  {
    assert Of(Modes)[0] == "normal" && Of(Modes)[1] == "warning" && Of(Modes)[2] == "takeover";
    assert Of(Modes)[3] == "stale" && Of(Modes)[4] == "offline" && Of(Modes)[5] == "recovery";
    assert Of(Roles)[0] == "admin" && Of(Roles)[1] == "operator" && Of(Roles)[2] == "viewer";
    assert Of(MediaStates)[0] == "playing" && Of(MediaStates)[1] == "paused" && Of(MediaStates)[2] == "suppressed";
    assert Of(Themes)[0] == "day" && Of(Themes)[1] == "night";
  }

  lemma ParameterEffect(key: string, v: Value)
    ensures ParameterSaid(key, v, if SafeValue(key, v).Some? then SafeValue(key, v).value else Redacted)
  {
    hide Of, Uuids.LowerText, NamesTarget, Identifier;
    IdentifierSaid(v);
    if v.Text? {
      WordsAre(v.s);
    }
  }

  /** The keys whose values are kept if they are fit, and those that are only ever named. */
  ghost predicate MayKeep(key: string) {
    key in {"attempt", "command", "count", "eventId", "mode", "newRole", "oldRole", "privacyEnabled", "reason",
            "revokedSessionCount", "state", "status", "targetUserId", "temperatureC", "theme"}
  }

  ghost predicate OnlyNamed(key: string) {
    key in {"api_key", "database_dsn", "destinationName", "private_text", "raw_secret", "raw_token",
            "session_secret", "sql_error"}
  }

  /** A fact about nothing it does not know: keys and values outside the lists are dropped or redacted. */
  ghost predicate ParametersSaid(p: Parameters, r: Parameters) {
    && r.Dict?
    && (p.NotADict? ==> r.items == map[])
    && (p.Dict? ==>
          && (forall k :: k in r.items <==> k in p.items && (MayKeep(k) || OnlyNamed(k)))
          && forall k :: k in r.items ==>
               if OnlyNamed(k) then r.items[k] == Text("[redacted]") else ParameterSaid(k, p.items[k], r.items[k]))
  }

  ghost predicate FactsSaid(f: Facts, r: Facts) {
    && RequiredSaid(f.action, Of(Actions), r.action)
    && TermSaid(f.endpoint, Of(Endpoints), r.endpoint)
    && UuidSaid(f.cockpitSessionId, r.cockpitSessionId)
    && TermSaid(f.commandName, Of(Commands), r.commandName)
    && UuidSaid(f.correlationId, r.correlationId)
    && TermSaid(f.targetType, Of(TargetTypes), r.targetType)
    && TargetSaid(f.targetId, r.targetId)
    && TermSaid(f.errorCode, Of(ErrorCodes), r.errorCode)
    && RequiredSaid(f.sourceType, Of(SourceTypes), r.sourceType)
    && ParametersSaid(f.parameters, r.parameters)
  }

  lemma KeysAre(k: string)
    ensures k in Of(RedactedKeys) <==> OnlyNamed(k)
    ensures k in Of(SafeKeys) <==> MayKeep(k)
    ensures k in Of(KeyOrder) <==> MayKeep(k) || OnlyNamed(k)
  {
    RedactedKeysAre(k);
    SafeKeysAre(k);
    OrderIsBoth(k);
  }

  lemma RedactedKeysAre(k: string)
    ensures k in Of(RedactedKeys) <==> OnlyNamed(k)
  {
    var w := Of(RedactedKeys);
    assert w[0] == "api_key" && w[1] == "database_dsn" && w[2] == "destinationName" && w[3] == "private_text";
    assert w[4] == "raw_secret" && w[5] == "raw_token" && w[6] == "session_secret" && w[7] == "sql_error";
  }

  lemma SafeKeysAre(k: string)
    ensures k in Of(SafeKeys) <==> MayKeep(k)
  {
    var w := Of(SafeKeys);
    assert w[0] == "attempt" && w[1] == "command" && w[2] == "count" && w[3] == "eventId" && w[4] == "mode";
    assert w[5] == "newRole" && w[6] == "oldRole" && w[7] == "privacyEnabled" && w[8] == "reason";
    assert w[9] == "revokedSessionCount" && w[10] == "state" && w[11] == "status" && w[12] == "targetUserId";
    assert w[13] == "temperatureC" && w[14] == "theme";
  }

  lemma OrderIsBoth(k: string)
    ensures k in Of(KeyOrder) <==> MayKeep(k) || OnlyNamed(k)
  {
    hide MayKeep, OnlyNamed, Of;
    OrderHas(k);
    if k in Of(KeyOrder) {
      var i :| 0 <= i < |Of(KeyOrder)| && Of(KeyOrder)[i] == k;
      OrderLength();
      if i < 12 { EarlyKey(i); } else { LateKey(i); }
    }
  }

  lemma OrderLength()
    ensures |Of(KeyOrder)| == 23
  {
  }

  lemma OrderHas(k: string)
    ensures MayKeep(k) || OnlyNamed(k) ==> k in Of(KeyOrder)
  {
    hide MayKeep, OnlyNamed, Of;
    if MayKeep(k) { OrderHasKept(k); }
    if OnlyNamed(k) { OrderHasNamed(k); }
  }

  lemma OrderHasKept(k: string)
    requires MayKeep(k)
    ensures k in Of(KeyOrder)
  {
    var w := Of(KeyOrder);
    assert w[0] == "attempt" && w[1] == "command" && w[2] == "count" && w[3] == "eventId" && w[4] == "mode";
    assert w[5] == "oldRole" && w[6] == "newRole" && w[7] == "privacyEnabled" && w[8] == "revokedSessionCount";
    assert w[9] == "targetUserId" && w[10] == "reason" && w[11] == "state" && w[12] == "status";
    assert w[13] == "temperatureC" && w[14] == "theme";
  }

  lemma OrderHasNamed(k: string)
    requires OnlyNamed(k)
    ensures k in Of(KeyOrder)
  {
    var w := Of(KeyOrder);
    assert w[15] == "api_key" && w[16] == "database_dsn" && w[17] == "destinationName" && w[18] == "private_text";
    assert w[19] == "raw_secret" && w[20] == "raw_token" && w[21] == "session_secret" && w[22] == "sql_error";
  }

  lemma EarlyKey(i: nat)
    requires i < 12
    ensures MayKeep(Of(KeyOrder)[i])
  {
  }

  lemma LateKey(i: nat)
    requires 12 <= i < 23
    ensures MayKeep(Of(KeyOrder)[i]) || OnlyNamed(Of(KeyOrder)[i])
  {
  }

  lemma ParametersEffect(p: Parameters)
    ensures ParametersSaid(p, SafeParameters(p))
  {
    hide Of, SafeValue, ParameterSaid, MayKeep, OnlyNamed;
    if p.Dict? {
      forall k | k in p.items
        ensures k in SafeItems(p.items, Of(KeyOrder)) <==> MayKeep(k) || OnlyNamed(k)
        ensures MayKeep(k) || OnlyNamed(k) ==>
          if OnlyNamed(k) then SafeParameter(k, p.items[k]) == Redacted
          else ParameterSaid(k, p.items[k], SafeParameter(k, p.items[k]))
      {
        KeysAre(k);
        ParameterEffect(k, p.items[k]);
      }
    }
  }

  /** Everything sanitizing does to the facts of an event. */
  lemma SanitizeEffect(f: Facts)
    ensures FactsSaid(f, Sanitize(f))
  {
    hide Of, TermSaid, RequiredSaid, UuidSaid, TargetSaid, ParametersSaid, SafeTerm, RequiredTerm, SafeUuid, SafeTarget,
      SafeParameters;
    TermEffect(f.action, Actions);
    TermEffect(f.endpoint, Endpoints);
    UuidEffect(f.cockpitSessionId);
    TermEffect(f.commandName, Commands);
    UuidEffect(f.correlationId);
    TermEffect(f.targetType, TargetTypes);
    TargetEffect(f.targetId);
    TermEffect(f.errorCode, ErrorCodes);
    TermEffect(f.sourceType, SourceTypes);
    ParametersEffect(f.parameters);
  }

  // ---- The canonical form and the row ----

  /** The same identifier in its canonical spelling. */
  ghost predicate SameId(id: string, canonical: string) {
    Uuids.IsText(canonical) && Uuids.Parse(id).Some? && Uuids.Parse(canonical) == Uuids.Parse(id)
  }

  ghost predicate SameOptionalId(id: Option<string>, canonical: Option<string>) {
    match (id, canonical)
    case (None, None) => true
    case (Some(x), Some(y)) => SameId(x, y)
    case _ => false
  }

  /** The event in UTC, with canonical identifiers and sanitized facts, and otherwise as it was. */
  ghost predicate CanonicalOf(e: Event, c: Event) {
    && SameId(e.id, c.id) && c.result == e.result && c.delivery == e.delivery && c.actorRole == e.actorRole
    && e.occurredAt.offset.Some? && c.occurredAt.offset == Some(0)
    && c.occurredAt.local + e.occurredAt.offset.value == e.occurredAt.local
    && SameOptionalId(e.actorUserId, c.actorUserId) && SameOptionalId(e.actorSessionId, c.actorSessionId)
    && FactsSaid(e.facts, c.facts)
  }

  lemma CanonicalIdEffect(id: string)
    ensures Uuids.Canonical(id).Some? <==> Uuids.Parse(id).Some?
    ensures Uuids.Canonical(id).Some? ==> SameId(id, Uuids.Canonical(id).value)
  {
    hide Uuids.Parse, Uuids.Print, Uuids.IsText;
    if Uuids.Parse(id).Some? {
      Uuids.CanonicalTwice(id);
      Uuids.PrintIsText(Uuids.Parse(id).value);
    }
  }

  lemma CanonicalOptionalEffect(id: Option<string>)
    ensures CanonicalOptional(id).Some? <==> id.None? || Uuids.Parse(id.value).Some?
    ensures CanonicalOptional(id).Some? ==> SameOptionalId(id, CanonicalOptional(id).value)
  {
    hide Uuids.Parse, Uuids.Canonical, SameId;
    if id.Some? {
      CanonicalIdEffect(id.value);
    }
  }

  /** What cannot be kept, and why; everything else is kept as its canonical form. */
  lemma CanonicalEffect(e: Event)
    ensures match Canonicalize(e)
      case Failure(NotPersistable) => e.result == Degraded
      case Failure(NoMedium) => e.result != Degraded && e.delivery == Lost
      case Failure(NaiveTime) => e.result != Degraded && e.delivery != Lost && e.occurredAt.offset == None
      case Failure(BadId) =>
        || Uuids.Parse(e.id) == None
        || (e.actorUserId.Some? && Uuids.Parse(e.actorUserId.value) == None)
        || (e.actorSessionId.Some? && Uuids.Parse(e.actorSessionId.value) == None)
      case Success(c) => e.result != Degraded && e.delivery != Lost && CanonicalOf(e, c)
  {
    hide Uuids.Parse, Uuids.Canonical, CanonicalOptional, SameId, SameOptionalId, Sanitize, FactsSaid;
    CanonicalIdEffect(e.id);
    CanonicalOptionalEffect(e.actorUserId);
    CanonicalOptionalEffect(e.actorSessionId);
    SanitizeEffect(e.facts);
  }

  /** Two events are the same fact when all their fields agree, numbers among the parameters as numbers. */
  ghost predicate SameInAll(a: Event, b: Event) {
    && a.id == b.id && a.occurredAt == b.occurredAt && a.result == b.result && a.delivery == b.delivery
    && a.actorUserId == b.actorUserId && a.actorSessionId == b.actorSessionId && a.actorRole == b.actorRole
    && a.facts.action == b.facts.action && a.facts.endpoint == b.facts.endpoint
    && a.facts.cockpitSessionId == b.facts.cockpitSessionId && a.facts.commandName == b.facts.commandName
    && a.facts.correlationId == b.facts.correlationId && a.facts.targetType == b.facts.targetType
    && a.facts.targetId == b.facts.targetId && a.facts.errorCode == b.facts.errorCode
    && a.facts.sourceType == b.facts.sourceType
    && match (a.facts.parameters, b.facts.parameters)
       case (NotADict, NotADict) => true
       case (Dict(m), Dict(n)) => m.Keys == n.Keys && forall k :: k in m ==> SameNumberOrThing(m[k], n[k])
       case _ => false
  }

  /** Truth values count as one and zero; a float that is no number is equal to nothing. */
  ghost predicate SameNumberOrThing(v: Value, w: Value) {
    match v
    case NonFinite => false
    case Bool(b) => AsNumber(w) == Some(if b then 1.0 else 0.0)
    case Int(n) => AsNumber(w) == Some(n as real)
    case Float(r) => AsNumber(w) == Some(r)
    case _ => v == w
  }

  ghost function AsNumber(v: Value): Option<real> {
    match v
    case Bool(b) => Some(if b then 1.0 else 0.0)
    case Int(n) => Some(n as real)
    case Float(r) => Some(r)
    case _ => None
  }

  lemma SameFactExactly(a: Event, b: Event)
    ensures SameFact(a, b) <==> SameInAll(a, b)
  {
    if a.facts.parameters.Dict? && b.facts.parameters.Dict? {
      ItemsExactly(a.facts.parameters.items, b.facts.parameters.items);
    }
  }

  lemma ItemsExactly(m: map<string, Value>, n: map<string, Value>)
    ensures SameItems(m, n) <==> m.Keys == n.Keys && forall k :: k in m ==> SameNumberOrThing(m[k], n[k])
  {
    if m.Keys == n.Keys {
      forall k | k in m ensures SameValue(m[k], n[k]) <==> SameNumberOrThing(m[k], n[k]) {
      }
    }
  }

  /** How a row already there answers an event, and what appending the event leaves. */
  lemma AppendEffect(rows: Rows, e: Event)
    requires RowsOk(rows)
    ensures match Judge(rows, e)
      case Refused(why) => Canonicalize(e) == Failure(why) && Stored(rows, e) == rows
      case Inserted =>
        && Canonicalize(e).Success? && Uuids.Parse(e.id).Some? && Uuids.Parse(e.id).value !in rows
        && var k := Uuids.Parse(e.id).value;
          k in Stored(rows, e) && Stored(rows, e) == rows[k := Stored(rows, e)[k]]
          && FromRow(Stored(rows, e)[k]) == Canonicalize(e).value
      case Duplicate =>
        && Canonicalize(e).Success? && Uuids.Parse(e.id).Some? && Uuids.Parse(e.id).value in rows
        && SameInAll(FromRow(rows[Uuids.Parse(e.id).value]), Canonicalize(e).value) && Stored(rows, e) == rows
      case Conflicting =>
        && Canonicalize(e).Success? && Uuids.Parse(e.id).Some? && Uuids.Parse(e.id).value in rows
        && !SameInAll(FromRow(rows[Uuids.Parse(e.id).value]), Canonicalize(e).value) && Stored(rows, e) == rows
  {
    hide Uuids.Parse, Uuids.Print, Uuids.Canonical, Sanitize, SameFact, SameInAll;
    RowRoundTrip(e);
    RefusedAlike(e);
    if ToRow(e).Success? && ToRow(e).value.id in rows {
      SameFactExactly(FromRow(rows[ToRow(e).value.id]), Canonicalize(e).value);
    }
  }

  lemma RefusedAlike(e: Event)
    ensures ToRow(e).Failure? ==> Canonicalize(e) == Failure(ToRow(e).error)
  {
    hide Uuids.Parse, Uuids.Print, Uuids.Canonical, Sanitize, OptionalId, CanonicalOptional;
    IdRoundTrip(e.id);
    OptionalRoundTrip(e.actorUserId);
    OptionalRoundTrip(e.actorSessionId);
  }
}
