/** One audit event as one line of JSON, and back. */
module FallbackCodec {
  import opened Wrappers
  import opened AuditEvents
  import opened JsonText
  import J = Json
  import opened FallbackWords
  import Digits
  import Timestamps
  import Uuids

  // ---- Numbers ----

  function NatText(n: nat): (s: string)
    ensures s != "" && Timestamps.AllDigits(s)
  {
    if n < 10 then ['0' + n as char] else NatText(n / 10) + ['0' + (n % 10) as char]
  }

  function IntText(n: int): string {
    if n < 0 then "-" + NatText(-n) else NatText(n)
  }

  predicate NatToken(s: string) { s != "" && Timestamps.AllDigits(s) && (|s| > 1 ==> s[0] != '0') }

  /** The integers among the number tokens. */
  function IntOf(t: string): Option<int> {
    if NatToken(t) then Some(Timestamps.Number(t))
    else if t != "" && t[0] == '-' && NatToken(t[1..]) then Some(0 - Timestamps.Number(t[1..]))
    else None
  }

  lemma {:induction false} NatRead(n: nat)
    ensures NatToken(NatText(n)) && Timestamps.Number(NatText(n)) == n
    ensures n > 0 ==> NatText(n)[0] != '0'
  {
    if n >= 10 {
      NatRead(n / 10);
      NumberSnoc(NatText(n / 10), n % 10);
    } else {
      NumberSnoc("", n);
      assert "" + ['0' + n as char] == NatText(n);
    }
  }

  lemma NumberSnoc(s: string, d: nat)
    requires Timestamps.AllDigits(s) && d < 10
    ensures Timestamps.AllDigits(s + ['0' + d as char])
    ensures Timestamps.Number(s + ['0' + d as char]) == 10 * Timestamps.Number(s) + d
  {
    var t := s + ['0' + d as char];
    var digits := seq(|t|, i requires 0 <= i < |t| => (t[i] - '0') as nat);
    assert digits[..|s|] == seq(|s|, i requires 0 <= i < |s| => (s[i] - '0') as nat);
    assert digits[|s|] == d;
  }

  lemma IntRead(n: int)
    ensures IntOf(IntText(n)) == Some(n) && J.IsToken(IntText(n))
  {
    if n < 0 {
      NatRead(-n);
      assert ("-" + NatText(-n))[1..] == NatText(-n);
    } else {
      NatRead(n);
    }
  }

  // ---- Parameter values ----

  /** How the platform writes times and floats, for those it has. */
  datatype Formats = Formats(
    isTime: Time -> bool, timeText: Time -> string, timeOf: string -> Option<Time>,
    isFloat: real -> bool, floatText: real -> string, floatOf: string -> Option<real>)

  /** What is written is one tame text, and is read back. */
  ghost predicate Lawful(f: Formats) {
    && (forall t :: f.isTime(t) ==> Tame(f.timeText(t)) && f.timeOf(f.timeText(t)) == Some(t))
    && (forall r :: f.isFloat(r) ==>
          J.IsToken(f.floatText(r)) && IntOf(f.floatText(r)).None? && f.floatOf(f.floatText(r)) == Some(r))
  }

  predicate Simple(f: Formats, v: Value) {
    match v
    case Text(s) => Tame(s)
    case Float(r) => f.isFloat(r)
    case NonFinite => false
    case Compound => false
    case _ => true
  }

  function FromValue(f: Formats, v: Value): J.Json
    requires Simple(f, v)
  {
    match v
    case Null => J.Null
    case Bool(b) => J.Bool(b)
    case Int(n) => J.Number(IntText(n))
    case Float(r) => J.Number(f.floatText(r))
    case Text(s) => J.String(s)
  }

  /** Numbers that are no numbers of the platform make a line unreadable. */
  predicate Numeric(f: Formats, j: J.Json)
    decreases j
  {
    match j
    case Number(t) => IntOf(t).Some? || f.floatOf(t).Some?
    case Object(ms) => forall i :: 0 <= i < |ms| ==> Numeric(f, ms[i].1)
    case _ => true
  }

  function ToValue(f: Formats, j: J.Json): Value {
    match j
    case Null => Null
    case Bool(b) => Bool(b)
    case Number(t) => if IntOf(t).Some? then Int(IntOf(t).value)
      else if f.floatOf(t).Some? then Float(f.floatOf(t).value) else Compound
    case String(s) => Text(s)
    case Object(_) => Compound
  }

  lemma ValueBack(f: Formats, v: Value)
    requires Lawful(f) && Simple(f, v)
    ensures ToValue(f, FromValue(f, v)) == v && J.Printable(FromValue(f, v)) && Numeric(f, FromValue(f, v))
  {
    if v.Int? {
      IntRead(v.n);
    }
  }

  /** The parameters in their fixed order. */
  function ParameterMembers(f: Formats, items: map<string, Value>, order: seq<string>): seq<(string, J.Json)>
    requires forall k :: k in items ==> Simple(f, items[k])
  {
    if order == [] then []
    else
      var k := order[|order| - 1];
      ParameterMembers(f, items, order[..|order| - 1]) + if k in items then [(k, FromValue(f, items[k]))] else []
  }

  /** Of members with one key the last counts. */
  function ItemsOf(f: Formats, ms: seq<(string, J.Json)>): map<string, Value> {
    if ms == [] then map[]
    else ItemsOf(f, ms[..|ms| - 1])[ms[|ms| - 1].0 := ToValue(f, ms[|ms| - 1].1)]
  }

  lemma {:induction false} ItemsBack(f: Formats, items: map<string, Value>, order: seq<string>)
    requires Lawful(f) && (forall k :: k in items ==> Simple(f, items[k])) && forall k :: k in order ==> Tame(k)
    ensures ItemsOf(f, ParameterMembers(f, items, order)) == map k | k in items && k in order :: items[k]
    ensures var ms := ParameterMembers(f, items, order);
      forall i :: 0 <= i < |ms| ==> Tame(ms[i].0) && J.Printable(ms[i].1) && Numeric(f, ms[i].1)
  {
    if order != [] {
      var front, k := order[..|order| - 1], order[|order| - 1];
      ItemsBack(f, items, front);
      assert order == front + [k];
      if k in items {
        ItemBack(f, items, front, k);
      } else {
        assert ParameterMembers(f, items, order) == ParameterMembers(f, items, front);
        assert (map x | x in items && x in order :: items[x]) == (map x | x in items && x in front :: items[x]);
      }
    }
  }

  /** One more member at the end. */
  lemma ItemBack(f: Formats, items: map<string, Value>, front: seq<string>, k: string)
    requires Lawful(f) && (forall k :: k in items ==> Simple(f, items[k])) && Tame(k) && k in items
    requires ItemsOf(f, ParameterMembers(f, items, front)) == map x | x in items && x in front :: items[x]
    ensures var ms := ParameterMembers(f, items, front + [k]);
      && ms == ParameterMembers(f, items, front) + [(k, FromValue(f, items[k]))]
      && ItemsOf(f, ms) == (map x | x in items && x in front + [k] :: items[x])
      && J.Printable(FromValue(f, items[k])) && Numeric(f, FromValue(f, items[k]))
  {
    ValueBack(f, items[k]);
    var order, ms := front + [k], ParameterMembers(f, items, front);
    assert order[..|order| - 1] == front && order[|order| - 1] == k;
    LastCounts(f, ms, (k, FromValue(f, items[k])));
    PickedMore(items, front, k);
  }

  lemma PickedMore(items: map<string, Value>, front: seq<string>, k: string)
    requires k in items
    ensures
      (map x | x in items && x in front + [k] :: items[x])
      == (map x | x in items && x in front :: items[x])[k := items[k]]
  {
  }

  lemma LastCounts(f: Formats, ms: seq<(string, J.Json)>, m: (string, J.Json))
    ensures ItemsOf(f, ms + [m]) == ItemsOf(f, ms)[m.0 := ToValue(f, m.1)]
  {
    assert (ms + [m])[..|ms + [m]| - 1] == ms;
  }

  // ---- What sanitizing leaves ----

  /** Nothing, or a tame text that is neither empty nor long. */
  predicate Fits(v: Value, max: nat) { v.Null? || (v.Text? && 0 < |v.s| <= max && Tame(v.s)) }

  lemma TermFits(v: Value, allowed: Words)
    requires forall w :: w in Of(allowed) ==> Word(w)
    ensures Fits(SafeTerm(v, allowed), 32) && Fits(RequiredTerm(v, allowed), 32) && RequiredTerm(v, allowed).Text?
  {
    EndpointsAreWords(Redacted.s);
  }

  lemma UuidTextIsTame(s: string)
    requires Uuids.IsText(s)
    ensures Tame(s)
  {
    forall c | c in s ensures TameChar(c) {
      var i :| 0 <= i < |s| && s[i] == c;
    }
  }

  lemma UuidFits(v: Value)
    ensures Fits(SafeUuid(v), 36)
  {
    EndpointsAreWords(Redacted.s);
    if SafeUuid(v) !in {Null, Redacted} {
      Uuids.PrintIsText(Uuids.Parse(v.s).value);
      UuidTextIsTame(SafeUuid(v).s);
    }
  }

  lemma IdentifierFits(v: Value)
    requires Identifier(v).Some?
    ensures Fits(Text(Identifier(v).value), 64)
  {
    var s := Uuids.LowerText(v.s);
    if Uuids.IsText(s) {
      Uuids.PrintParse(v.s);
      UuidTextIsTame(s);
    } else {
      UuidTextIsTame(s[|RiskPrefix|..]);
      RiskIdIsTame(s);
    }
  }

  lemma RiskIdIsTame(s: string)
    requires RiskPrefix <= s && Tame(s[|RiskPrefix|..])
    ensures Tame(s)
  {
    assert s == s[..|RiskPrefix|] + s[|RiskPrefix|..];
    RiskPrefixIsTame();
  }

  lemma RiskPrefixIsTame()
    ensures Tame(RiskPrefix)
  {
  }

  lemma TargetFits(v: Value)
    ensures Fits(SafeTarget(v), 64)
  {
    EndpointsAreWords(Redacted.s);
    if Identifier(v).Some? {
      IdentifierFits(v);
    }
  }

  lemma ParameterIsSimple(f: Formats, key: string, v: Value)
    requires v.Float? ==> f.isFloat(v.r)
    ensures Simple(f, SafeParameter(key, v))
  {
    EndpointsAreWords(Redacted.s);
    if SafeParameter(key, v) != Redacted && SafeParameter(key, v).Text? {
      if key == "eventId" || key == "targetUserId" {
        IdentifierFits(v);
      } else {
        VocabularyIsWords(key, v.s);
      }
    }
  }

  // ---- Events ----

  const Names := [
    "schemaVersion", "id", "occurredAt", "action", "result", "delivery", "actorUserId", "actorPlatformSessionId",
    "actorRole", "endpoint", "cockpitSessionId", "commandName", "correlationId", "targetType", "targetId",
    "parameters", "errorCode", "sourceType"]

  function ResultText(r: AuditResult): string {
    match r
    case Attempted => "attempted"
    case Succeeded => "succeeded"
    case Rejected => "rejected"
    case Error => "error"
    case Degraded => "degraded"
  }

  function ResultOf(s: string): Option<AuditResult> {
    if s == "attempted" then Some(Attempted)
    else if s == "succeeded" then Some(Succeeded)
    else if s == "rejected" then Some(Rejected)
    else if s == "error" then Some(AuditEvents.Error)
    else if s == "degraded" then Some(Degraded)
    else None
  }

  function DeliveryText(d: Delivery): string {
    match d case Primary => "primary" case Fallback => "fallback" case Lost => "lost"
  }

  function DeliveryOf(s: string): Option<Delivery> {
    if s == "primary" then Some(Primary)
    else if s == "fallback" then Some(Fallback)
    else if s == "lost" then Some(Lost)
    else None
  }

  function RoleText(r: Role): string {
    match r case Admin => "admin" case Operator => "operator" case Viewer => "viewer"
  }

  function RoleOf(s: string): Option<Role> {
    if s == "admin" then Some(Admin)
    else if s == "operator" then Some(Operator)
    else if s == "viewer" then Some(Viewer)
    else None
  }

  lemma ResultBack(r: AuditResult)
    ensures ResultOf(ResultText(r)) == Some(r) && Tame(ResultText(r))
  {
  }

  lemma DeliveryBack(d: Delivery)
    ensures DeliveryOf(DeliveryText(d)) == Some(d) && Tame(DeliveryText(d))
  {
  }

  lemma RoleBack(r: Role)
    ensures RoleOf(RoleText(r)) == Some(r) && Tame(RoleText(r))
  {
  }

  /** What an event must be to go into the file: identifiers, a time, a medium, and texts of limited length. */
  predicate Persistable(e: Event) {
    && Canonicalize(e).Success?
    && e.facts.action.Text? && Short(e.facts.action, 128) && e.facts.sourceType.Text? && Short(e.facts.sourceType, 32)
    && Short(e.facts.endpoint, 32) && Short(e.facts.cockpitSessionId, 80) && Short(e.facts.commandName, 64)
    && Short(e.facts.correlationId, 64) && Short(e.facts.targetType, 64) && Short(e.facts.targetId, 128)
    && Short(e.facts.errorCode, 64)
  }

  predicate Short(v: Value, max: nat) { v.Null? || (v.Text? && 0 < |v.s| <= max) }

  predicate FloatsOk(f: Formats, p: Parameters) {
    p.Dict? ==> forall k :: k in p.items && p.items[k].Float? ==> f.isFloat(p.items[k].r)
  }

  /** The facts of an event as they are written. */
  ghost predicate Writable(f: Formats, x: Facts) {
    && x.action.Text? && Fits(x.action, 32) && Fits(x.endpoint, 32) && Fits(x.cockpitSessionId, 36)
    && Fits(x.commandName, 32)
    && Fits(x.correlationId, 36) && Fits(x.targetType, 32) && Fits(x.targetId, 64) && Fits(x.errorCode, 32)
    && x.sourceType.Text? && Fits(x.sourceType, 32)
    && x.parameters.Dict?
    && (forall k :: k in x.parameters.items ==> Simple(f, x.parameters.items[k]) && k in Of(KeyOrder))
  }

  lemma SanitizedIsWritable(f: Formats, x: Facts)
    requires FloatsOk(f, x.parameters)
    ensures Writable(f, Sanitize(x))
  {
    TermsFit(x);
    UuidFits(x.cockpitSessionId);
    UuidFits(x.correlationId);
    TargetFits(x.targetId);
    if x.parameters.Dict? {
      forall k | k in SafeItems(x.parameters.items, Of(KeyOrder))
        ensures Simple(f, SafeParameter(k, x.parameters.items[k]))
      {
        ParameterIsSimple(f, k, x.parameters.items[k]);
      }
    }
  }

  lemma TermsFit(x: Facts)
    ensures var y := Sanitize(x);
      && y.action.Text? && Fits(y.action, 32) && Fits(y.endpoint, 32) && Fits(y.commandName, 32)
      && Fits(y.targetType, 32) && Fits(y.errorCode, 32) && y.sourceType.Text? && Fits(y.sourceType, 32)
  {
    forall w | w in Of(Actions) ensures Word(w) { ActionsAreWords(w); }
    forall w | w in Of(Endpoints) || w in Of(SourceTypes) ensures Word(w) { EndpointsAreWords(w); }
    forall w | w in Of(Commands) ensures Word(w) { CommandsAreWords(w); }
    forall w | w in Of(TargetTypes) ensures Word(w) { TargetTypesAreWords(w); }
    forall w | w in Of(ErrorCodes) ensures Word(w) { ErrorCodesAreWords(w); }
    TermFits(x.action, Actions);
    TermFits(x.endpoint, Endpoints);
    TermFits(x.commandName, Commands);
    TermFits(x.targetType, TargetTypes);
    TermFits(x.errorCode, ErrorCodes);
    TermFits(x.sourceType, SourceTypes);
  }

  function OptionalText(s: Option<string>): J.Json {
    if s.None? then J.Null else J.String(s.value)
  }

  /** The values of the fields, in the order of `Names`. */
  datatype Record = Record(
    version: J.Json, id: J.Json, occurredAt: J.Json, action: J.Json, result: J.Json, delivery: J.Json,
    actorUserId: J.Json, actorSessionId: J.Json, actorRole: J.Json, endpoint: J.Json, cockpitSessionId: J.Json,
    commandName: J.Json, correlationId: J.Json, targetType: J.Json, targetId: J.Json, parameters: J.Json,
    errorCode: J.Json, sourceType: J.Json)
  {
    function List(): (v: seq<J.Json>)
      ensures |v| == |Names| && FromList(v) == this
    {
      [version, id, occurredAt, action, result, delivery, actorUserId, actorSessionId, actorRole, endpoint,
       cockpitSessionId, commandName, correlationId, targetType, targetId, parameters, errorCode, sourceType]
    }
  }

  function FromList(v: seq<J.Json>): Record
    requires |v| == |Names|
  {
    Record(v[0], v[1], v[2], v[3], v[4], v[5], v[6], v[7], v[8], v[9], v[10], v[11], v[12], v[13], v[14], v[15],
      v[16], v[17])
  }

  function RecordOf(f: Formats, e: Event): Record
    requires Writable(f, e.facts)
  {
    var x := e.facts;
    Record(
      J.Number(IntText(1)), J.String(e.id), J.String(f.timeText(e.occurredAt)), FromValue(f, x.action),
      J.String(ResultText(e.result)), J.String(DeliveryText(e.delivery)), OptionalText(e.actorUserId),
      OptionalText(e.actorSessionId),
      OptionalText(if e.actorRole.None? then None else Some(RoleText(e.actorRole.value))),
      FromValue(f, x.endpoint), FromValue(f, x.cockpitSessionId), FromValue(f, x.commandName),
      FromValue(f, x.correlationId), FromValue(f, x.targetType), FromValue(f, x.targetId),
      J.Object(ParameterMembers(f, x.parameters.items, Of(KeyOrder))),
      FromValue(f, x.errorCode), FromValue(f, x.sourceType))
  }

  function Line(names: seq<string>, values: seq<J.Json>): (j: J.Json)
    requires |names| == |values|
  {
    J.Object(seq(|names|, i requires 0 <= i < |names| => (names[i], values[i])))
  }

  /** The line of an event, without its end. */
  function Encode(f: Formats, e: Event): string
    requires Writable(f, e.facts)
  {
    J.Print(Line(Names, RecordOf(f, e).List()))
  }

  /** The last member with this name. */
  function Lookup(ms: seq<(string, J.Json)>, name: string): Option<J.Json> {
    if ms == [] then None
    else if ms[|ms| - 1].0 == name then Some(ms[|ms| - 1].1)
    else Lookup(ms[..|ms| - 1], name)
  }

  lemma {:induction false} LookupAt(ms: seq<(string, J.Json)>, i: nat)
    requires i < |ms| && forall j :: i < j < |ms| ==> ms[j].0 != ms[i].0
    ensures Lookup(ms, ms[i].0) == Some(ms[i].1)
  {
    if i < |ms| - 1 {
      LookupAt(ms[..|ms| - 1], i);
    }
  }

  /** The values of exactly these fields, in this order. */
  function Values(j: J.Json, names: seq<string>): (v: Option<seq<J.Json>>)
    ensures v.Some? ==> |v.value| == |names|
  {
    if !j.Object? then None
    else if exists i :: 0 <= i < |j.members| && j.members[i].0 !in names then None
    else if exists i :: 0 <= i < |names| && Lookup(j.members, names[i]).None? then None
    else Some(seq(|names|, i requires 0 <= i < |names| => Lookup(j.members, names[i]).value))
  }

  predicate Different(names: seq<string>) {
    forall i, j :: 0 <= i < j < |names| ==> names[i] != names[j]
  }

  lemma ValuesBack(names: seq<string>, values: seq<J.Json>)
    requires |names| == |values| && Different(names)
    ensures Values(Line(names, values), names) == Some(values)
  {
    var ms := Line(names, values).members;
    forall i | 0 <= i < |names| ensures Lookup(ms, names[i]) == Some(values[i]) {
      LookupAt(ms, i);
    }
    assert seq(|names|, i requires 0 <= i < |names| => Lookup(ms, names[i]).value) == values;
  }

  lemma NamesDifferEarly()
    ensures forall i, j :: 0 <= i < j < 18 && i < 6 ==> Names[i] != Names[j]
  {
  }

  lemma NamesDifferLate()
    ensures forall i, j :: 6 <= i < j < 18 ==> Names[i] != Names[j]
  {
  }

  lemma NamesDiffer()
    ensures Different(Names)
  {
    NamesDifferEarly();
    NamesDifferLate();
    forall i, j | 0 <= i < j < |Names| ensures Names[i] != Names[j] {
      if i < 6 { }
    }
  }

  lemma NamesAreTame(i: nat)
    requires i < 18
    ensures Tame(Names[i])
  {
    if i < 9 { EarlyNamesAreTame(i); } else { LateNamesAreTame(i); }
  }

  lemma EarlyNamesAreTame(i: nat)
    requires i < 9
    ensures Tame(Names[i])
  {
  }

  lemma LateNamesAreTame(i: nat)
    requires 9 <= i < 18
    ensures Tame(Names[i])
  {
  }

  // ---- Reading a line ----

  predicate NonEmpty(j: J.Json) { j.String? && j.s != "" }

  predicate OptionalString(j: J.Json) { j.Null? || NonEmpty(j) }

  /** Nothing, or an identifier in its canonical spelling. */
  function OptionalUuid(j: J.Json): Option<Option<string>> {
    if j.Null? then Some(None)
    else if j.String? && Uuids.Canonical(j.s).Some? then Some(Uuids.Canonical(j.s))
    else None
  }

  function OptionalRole(j: J.Json): Option<Option<Role>> {
    if j.Null? then Some(None) else if j.String? && RoleOf(j.s).Some? then Some(RoleOf(j.s)) else None
  }

  /** The text fields are there. */
  predicate TextsOk(r: Record)
  {
    && NonEmpty(r.action) && OptionalString(r.endpoint) && OptionalString(r.cockpitSessionId)
    && OptionalString(r.commandName) && OptionalString(r.correlationId)
    && OptionalString(r.targetType) && OptionalString(r.targetId) && OptionalString(r.errorCode)
    && NonEmpty(r.sourceType)
  }

  function FactsOf(f: Formats, r: Record): Facts
    requires r.parameters.Object?
  {
    Facts(
      ToValue(f, r.action), ToValue(f, r.endpoint), ToValue(f, r.cockpitSessionId), ToValue(f, r.commandName),
      ToValue(f, r.correlationId), ToValue(f, r.targetType), ToValue(f, r.targetId), ToValue(f, r.errorCode),
      ToValue(f, r.sourceType), SafeParameters(Dict(ItemsOf(f, r.parameters.members))))
  }

  /** The other fields are what they should be. */
  predicate HeadOk(f: Formats, r: Record) {
    && r.version == J.Number("1") && r.id.String? && Uuids.Canonical(r.id.s).Some?
    && r.occurredAt.String? && f.timeOf(r.occurredAt.s).Some? && f.timeOf(r.occurredAt.s).value.offset.Some?
    && r.result.String? && ResultOf(r.result.s).Some? && r.delivery.String? && DeliveryOf(r.delivery.s).Some?
    && OptionalUuid(r.actorUserId).Some? && OptionalUuid(r.actorSessionId).Some? && OptionalRole(r.actorRole).Some?
    && r.parameters.Object?
  }

  function EventOf(f: Formats, r: Record): Option<Event> {
    if !HeadOk(f, r) || !TextsOk(r) then None
    else
      var e := WithHead(f, r, FactsOf(f, r));
      if !Persistable(e) || !e.delivery.Fallback? then None else Some(e.(facts := Sanitize(e.facts)))
  }

  function WithHead(f: Formats, r: Record, x: Facts): Event
    requires HeadOk(f, r)
  {
    Event(
      Uuids.Canonical(r.id.s).value, Utc(f.timeOf(r.occurredAt.s).value), ResultOf(r.result.s).value,
      DeliveryOf(r.delivery.s).value, OptionalUuid(r.actorUserId).value, OptionalUuid(r.actorSessionId).value,
      OptionalRole(r.actorRole).value, x)
  }

  function Decode(f: Formats, line: string): Option<Event> {
    var j := J.Parse(line);
    if j.None? || !Numeric(f, j.value) then None else
    var v := Values(j.value, Names);
    if v.None? then None else EventOf(f, FromList(v.value))
  }

  /** An event as it is put into the file. */
  ghost predicate Filed(f: Formats, e: Event) {
    && Lawful(f) && e.delivery.Fallback? && Canonicalize(e).Success? && e.facts == Sanitize(e.facts)
    && Writable(f, e.facts) && f.isTime(e.occurredAt)
  }

  lemma {:induction false} CompactIsHex(s: string)
    requires Uuids.AllHex(Uuids.Compact(s))
    ensures Tame(s)
  {
    if s != "" {
      if s[0] != '-' {
        assert Uuids.Compact(s) == [s[0]] + Uuids.Compact(s[1..]);
        assert Uuids.HexValue(Uuids.Compact(s)[0]).Some?;
      }
      assert Uuids.AllHex(Uuids.Compact(s[1..])) by {
        assert forall i :: 0 <= i < |Uuids.Compact(s[1..])| ==>
          Uuids.Compact(s[1..])[i] == Uuids.Compact(s)[if s[0] == '-' then i else i + 1];
      }
      CompactIsHex(s[1..]);
      assert TameChar(s[0]);
      assert s == [s[0]] + s[1..];
    }
  }

  lemma IdIsTame(s: string)
    requires Uuids.Canonical(s).Some?
    ensures Tame(s)
  {
    CompactIsHex(s);
  }

  lemma One()
    ensures IntText(1) == "1" && IntOf("1").Some? && J.IsToken("1")
  {
    IntRead(1);
  }

  lemma ParametersBack(f: Formats, x: Facts)
    requires Lawful(f) && Writable(f, x) && x == Sanitize(x)
    ensures SafeParameters(Dict(ItemsOf(f, ParameterMembers(f, x.parameters.items, Of(KeyOrder))))) == x.parameters
    ensures J.Printable(J.Object(ParameterMembers(f, x.parameters.items, Of(KeyOrder))))
    ensures Numeric(f, J.Object(ParameterMembers(f, x.parameters.items, Of(KeyOrder))))
  {
    forall k | k in Of(KeyOrder) ensures Tame(k) { KeysAreWords(k); }
    var items := x.parameters.items;
    ItemsBack(f, items, Of(KeyOrder));
    assert (map k | k in items && k in Of(KeyOrder) :: items[k]) == items;
    assert x.parameters == SafeParameters(x.parameters);
  }

  lemma FactsBack(f: Formats, e: Event)
    requires Filed(f, e)
    ensures var r := RecordOf(f, e); r.parameters.Object? && FactsOf(f, r) == e.facts && TextsOk(r)
  {
    var x := e.facts;
    ParametersBack(f, x);
    TextBack(f, x.action);
    TextBack(f, x.endpoint);
    TextBack(f, x.cockpitSessionId);
    TextBack(f, x.commandName);
    TextBack(f, x.correlationId);
    TextBack(f, x.targetType);
    TextBack(f, x.targetId);
    TextBack(f, x.errorCode);
    TextBack(f, x.sourceType);
  }

  lemma TextBack(f: Formats, v: Value)
    requires Fits(v, 64)
    ensures ToValue(f, FromValue(f, v)) == v && OptionalString(FromValue(f, v))
      && (v.Text? ==> NonEmpty(FromValue(f, v)))
    ensures J.Printable(FromValue(f, v)) && Numeric(f, FromValue(f, v))
  {
  }

  lemma CanonicalIsPersistable(f: Formats, e: Event)
    requires Filed(f, e)
    ensures Persistable(Canonicalize(e).value) && Canonicalize(e).value.facts == e.facts
  {
    CanonicalizeTwice(e);
  }

  lemma HeadBack(f: Formats, e: Event)
    requires Filed(f, e)
    ensures HeadOk(f, RecordOf(f, e)) && WithHead(f, RecordOf(f, e), e.facts) == Canonicalize(e).value
  {
    One();
    ResultBack(e.result);
    DeliveryBack(e.delivery);
    if e.actorRole.Some? {
      RoleBack(e.actorRole.value);
    }
  }

  lemma EventBack(f: Formats, e: Event)
    requires Filed(f, e)
    ensures EventOf(f, RecordOf(f, e)) == Some(Canonicalize(e).value)
  {
    HeadBack(f, e);
    FactsBack(f, e);
    CanonicalIsPersistable(f, e);
  }

  predicate Sendable(f: Formats, j: J.Json) { J.Printable(j) && Numeric(f, j) }

  predicate FactsSendable(f: Formats, r: Record) {
    && Sendable(f, r.action) && Sendable(f, r.endpoint) && Sendable(f, r.cockpitSessionId) && Sendable(f, r.commandName)
    && Sendable(f, r.correlationId) && Sendable(f, r.targetType) && Sendable(f, r.targetId) && Sendable(f, r.parameters)
    && Sendable(f, r.errorCode) && Sendable(f, r.sourceType)
  }

  predicate HeadSendable(f: Formats, r: Record) {
    && Sendable(f, r.version) && Sendable(f, r.id) && Sendable(f, r.occurredAt) && Sendable(f, r.result)
    && Sendable(f, r.delivery) && Sendable(f, r.actorUserId) && Sendable(f, r.actorSessionId)
    && Sendable(f, r.actorRole)
  }

  lemma FactsAreSendable(f: Formats, e: Event)
    requires Writable(f, e.facts) && Sendable(f, J.Object(ParameterMembers(f, e.facts.parameters.items, Of(KeyOrder))))
    ensures FactsSendable(f, RecordOf(f, e))
  {
    var x := e.facts;
    TextBack(f, x.action);
    TextBack(f, x.endpoint);
    TextBack(f, x.cockpitSessionId);
    TextBack(f, x.commandName);
    TextBack(f, x.correlationId);
    TextBack(f, x.targetType);
    TextBack(f, x.targetId);
    TextBack(f, x.errorCode);
    TextBack(f, x.sourceType);
  }

  lemma HeadIsSendable(f: Formats, e: Event)
    requires Filed(f, e)
    ensures HeadSendable(f, RecordOf(f, e))
  {
    One();
    IdIsTame(e.id);
    if e.actorUserId.Some? { IdIsTame(e.actorUserId.value); }
    if e.actorSessionId.Some? { IdIsTame(e.actorSessionId.value); }
    if e.actorRole.Some? { RoleBack(e.actorRole.value); }
    ResultBack(e.result);
    DeliveryBack(e.delivery);
  }

  lemma ListIsSendable(f: Formats, r: Record)
    requires HeadSendable(f, r) && FactsSendable(f, r)
    ensures forall i :: 0 <= i < |Names| ==> Sendable(f, r.List()[i])
  {
  }

  lemma LineIsPrintable(f: Formats, v: seq<J.Json>)
    requires |v| == |Names| && forall i :: 0 <= i < |Names| ==> Sendable(f, v[i])
    ensures Sendable(f, Line(Names, v))
  {
    forall i | 0 <= i < |Names| ensures Tame(Names[i]) {
      NamesAreTame(i);
    }
  }

  lemma RecordIsSendable(f: Formats, e: Event)
    requires Filed(f, e)
    ensures Sendable(f, Line(Names, RecordOf(f, e).List()))
  {
    HeadIsSendable(f, e);
    ParametersBack(f, e.facts);
    FactsAreSendable(f, e);
    ListIsSendable(f, RecordOf(f, e));
    LineIsPrintable(f, RecordOf(f, e).List());
  }

  lemma LineRead(f: Formats, r: Record)
    requires Sendable(f, Line(Names, r.List()))
    ensures Decode(f, J.Print(Line(Names, r.List()))) == EventOf(f, r)
    ensures J.Print(Line(Names, r.List())) != "" && forall c :: c in J.Print(Line(Names, r.List())) ==> J.Visible(c)
  {
    J.PrintRead(Line(Names, r.List()));
    J.PrintIsVisible(Line(Names, r.List()));
    NamesDiffer();
    ValuesBack(Names, r.List());
  }

  /** The line of an event is read back as its canonical form, and is one line of one-byte characters. */
  lemma DecodeEncoded(f: Formats, e: Event)
    requires Filed(f, e)
    ensures Decode(f, Encode(f, e)) == Some(Canonicalize(e).value)
    ensures Encode(f, e) != "" && forall c :: c in Encode(f, e) ==> J.Visible(c)
  {
    RecordIsSendable(f, e);
    LineRead(f, RecordOf(f, e));
    EventBack(f, e);
  }
}
