/** The line of an event member by member, and what a line must have to be read. */
module FallbackLaws {
  import opened Wrappers
  import opened AuditEvents
  import opened AuditEffects
  import opened FallbackCodec
  import opened JsonText
  import J = Json
  import Uuids

  // ---- JSON text ----

  /** Compact JSON: no blanks, members with commas between them. */
  lemma JsonIs(s: string, k: string, j: J.Json, ms: seq<(string, J.Json)>)
    ensures J.Print(J.Null) == "null" && J.Print(J.Bool(true)) == "true" && J.Print(J.Bool(false)) == "false"
    ensures J.Print(J.Number(s)) == s && J.Print(J.String(s)) == "\"" + s + "\""
    ensures J.Print(J.Object([])) == "{}"
    ensures J.Print(J.Object([(k, j)])) == "{" + ("\"" + k + "\":" + J.Print(j)) + "}"
    ensures ms != [] ==>
      J.Print(J.Object([(k, j)] + ms)) == "{" + ("\"" + k + "\":" + J.Print(j) + ("," + J.PrintMembers(ms))) + "}"
      && J.Print(J.Object(ms)) == "{" + J.PrintMembers(ms) + "}"
  {
    var all := [(k, j)] + ms;
    assert all[0] == (k, j) && all[1..] == ms;
    assert J.PrintMembers([(k, j)]) == "\"" + k + "\":" + J.Print(j);
  }

  ghost function TextOrNull(v: Value): J.Json {
    if v.Text? then J.String(v.s) else J.Null
  }

  ghost function IdOrNull(id: Option<string>): J.Json {
    if id.Some? then J.String(id.value) else J.Null
  }

  /** Eighteen members, in this order. */
  ghost function Members(f: Formats, e: Event): (ms: seq<(string, J.Json)>)
    requires Writable(f, e.facts)
    ensures |ms| == 18
  {
    [ ("schemaVersion", J.Number("1")),
      ("id", J.String(e.id)),
      ("occurredAt", J.String(f.timeText(e.occurredAt))),
      ("action", TextOrNull(e.facts.action)),
      ("result", J.String(match e.result case Attempted => "attempted" case Succeeded => "succeeded"
        case Rejected => "rejected" case Error => "error" case Degraded => "degraded")),
      ("delivery", J.String(
        match e.delivery case Primary => "primary" case Fallback => "fallback" case Lost => "lost")),
      ("actorUserId", IdOrNull(e.actorUserId)),
      ("actorPlatformSessionId", IdOrNull(e.actorSessionId)),
      ("actorRole", if e.actorRole.None? then J.Null else J.String(
        match e.actorRole.value case Admin => "admin" case Operator => "operator" case Viewer => "viewer")),
      ("endpoint", TextOrNull(e.facts.endpoint)),
      ("cockpitSessionId", TextOrNull(e.facts.cockpitSessionId)),
      ("commandName", TextOrNull(e.facts.commandName)),
      ("correlationId", TextOrNull(e.facts.correlationId)),
      ("targetType", TextOrNull(e.facts.targetType)),
      ("targetId", TextOrNull(e.facts.targetId)),
      ("parameters", J.Object(ParameterMembers(f, e.facts.parameters.items, Of(KeyOrder)))),
      ("errorCode", TextOrNull(e.facts.errorCode)),
      ("sourceType", TextOrNull(e.facts.sourceType))]
  }

  lemma NameAt(f: Formats, e: Event, i: nat)
    requires Writable(f, e.facts) && i < 18
    ensures Names[i] == Members(f, e)[i].0
  {
    hide ParameterMembers;
  }

  lemma HeadAt(f: Formats, e: Event, i: nat)
    requires Writable(f, e.facts) && i < 9
    ensures RecordOf(f, e).List()[i] == Members(f, e)[i].1
  {
    hide ParameterMembers, Of, FromValue, TextOrNull, Simple;
    One();
    ValueIs(f, e.facts.action);
  }

  lemma MiddleAt(f: Formats, e: Event, i: nat)
    requires Writable(f, e.facts) && 9 <= i < 14
    ensures RecordOf(f, e).List()[i] == Members(f, e)[i].1
  {
    hide ParameterMembers, Of, FromValue, TextOrNull, Simple, ResultText, DeliveryText, RoleText;
    var x := e.facts;
    ValueIs(f, x.endpoint);
    ValueIs(f, x.cockpitSessionId);
    ValueIs(f, x.commandName);
    ValueIs(f, x.correlationId);
    ValueIs(f, x.targetType);
  }

  lemma TailAt(f: Formats, e: Event, i: nat)
    requires Writable(f, e.facts) && 14 <= i < 18
    ensures RecordOf(f, e).List()[i] == Members(f, e)[i].1
  {
    hide ParameterMembers, Of, FromValue, TextOrNull, Simple, ResultText, DeliveryText, RoleText;
    var x := e.facts;
    ValueIs(f, x.targetId);
    ValueIs(f, x.errorCode);
    ValueIs(f, x.sourceType);
  }

  lemma ValueIs(f: Formats, v: Value)
    requires v.Null? || (v.Text? && Tame(v.s))
    ensures Simple(f, v) && FromValue(f, v) == TextOrNull(v)
  {
  }

  lemma ValueAt(f: Formats, e: Event, i: nat)
    requires Writable(f, e.facts) && i < 18
    ensures RecordOf(f, e).List()[i] == Members(f, e)[i].1
  {
    hide RecordOf, Members;
    if i < 9 { HeadAt(f, e, i); } else if i < 14 { MiddleAt(f, e, i); } else { TailAt(f, e, i); }
  }

  lemma LineIs(f: Formats, e: Event)
    requires Writable(f, e.facts)
    ensures Encode(f, e) == J.Print(J.Object(Members(f, e)))
  {
    hide J.Print, ParameterMembers, RecordOf, Members;
    forall i | 0 <= i < 18 ensures Line(Names, RecordOf(f, e).List()).members[i] == Members(f, e)[i] {
      NameAt(f, e, i);
      ValueAt(f, e, i);
    }
    assert Line(Names, RecordOf(f, e).List()).members == Members(f, e);
  }

  /** The parameters that are there, in the fixed order of keys, each as the JSON value it is. */
  lemma {:induction false} ParametersAre(f: Formats, items: map<string, Value>, order: seq<string>, k: string)
    requires forall x :: x in items ==> Simple(f, items[x])
    ensures ParameterMembers(f, items, []) == []
    ensures ParameterMembers(f, items, order + [k]) == ParameterMembers(f, items, order) +
      if k !in items then []
      else
        match items[k]
        case Null => [(k, J.Null)]
        case Bool(b) => [(k, J.Bool(b))]
        case Int(n) => [(k, J.Number(IntText(n)))]
        case Float(r) => [(k, J.Number(f.floatText(r)))]
        case Text(s) => [(k, J.String(s))]
        case _ => []
  {
    var all := order + [k];
    assert all[..|all| - 1] == order;
  }

  /** A text that may be missing but is neither empty nor longer than this. */
  ghost predicate AtMost(v: Value, max: nat) {
    match v case Null => true case Text(s) => s != "" && |s| <= max case _ => false
  }

  /** What the file takes: what can be kept, with an action and a source, each text within its limit. */
  lemma PersistableExactly(e: Event)
    ensures Persistable(e) <==>
      && Canonicalize(e).Success?
      && e.facts.action != Null && AtMost(e.facts.action, 128)
      && e.facts.sourceType != Null && AtMost(e.facts.sourceType, 32)
      && AtMost(e.facts.endpoint, 32) && AtMost(e.facts.cockpitSessionId, 80) && AtMost(e.facts.commandName, 64)
      && AtMost(e.facts.correlationId, 64) && AtMost(e.facts.targetType, 64) && AtMost(e.facts.targetId, 128)
      && AtMost(e.facts.errorCode, 64)
  {
    hide Canonicalize;
  }

  /** Numbers are runs of digits, signs, points and exponents that begin with a digit or a minus. */
  lemma NumbersAre(t: string)
    ensures J.IsToken(t) <==>
      && t != "" && (t[0] == '-' || '0' <= t[0] <= '9')
      && forall c :: c in t ==> '0' <= c <= '9' || c == '+' || c == '-' || c == '.' || c == 'e' || c == 'E'
  {
    if forall c :: c in t ==> J.NumberChar(c) {
      forall i | 0 <= i < |t| ensures J.NumberChar(t[i]) {
      }
    }
    forall c | c in t ensures exists i :: 0 <= i < |t| && t[i] == c {
    }
  }

  // ---- Reading ----

  /** The member that counts: the last with this name. */
  ghost predicate Says(ms: seq<(string, J.Json)>, name: string, j: J.Json) {
    exists i :: 0 <= i < |ms| && ms[i] == (name, j) && forall l :: i < l < |ms| ==> ms[l].0 != name
  }

  lemma {:induction false} LookupSays(ms: seq<(string, J.Json)>, name: string)
    requires Lookup(ms, name).Some?
    ensures Says(ms, name, Lookup(ms, name).value)
  {
    if ms[|ms| - 1].0 == name {
      assert ms[|ms| - 1] == (name, Lookup(ms, name).value);
    } else {
      var front, j := ms[..|ms| - 1], Lookup(ms, name).value;
      LookupSays(front, name);
      var i :| 0 <= i < |front| && front[i] == (name, j) && forall l :: i < l < |front| ==> front[l].0 != name;
      assert ms[i] == (name, j);
      forall l | i < l < |ms| ensures ms[l].0 != name {
        assert l < |ms| - 1 ==> front[l] == ms[l];
      }
    }
  }

  ghost predicate KnownName(name: string) {
    name in {
      "schemaVersion", "id", "occurredAt", "action", "result", "delivery", "actorUserId", "actorPlatformSessionId",
      "actorRole", "endpoint", "cockpitSessionId", "commandName", "correlationId", "targetType", "targetId",
      "parameters", "errorCode", "sourceType"}
  }

  lemma NamesAre(name: string)
    ensures name in Names <==> KnownName(name)
  {
    var n := Names;
    assert n[0] == "schemaVersion" && n[1] == "id" && n[2] == "occurredAt" && n[3] == "action" && n[4] == "result";
    assert n[5] == "delivery" && n[6] == "actorUserId" && n[7] == "actorPlatformSessionId" && n[8] == "actorRole";
    assert n[9] == "endpoint" && n[10] == "cockpitSessionId" && n[11] == "commandName" && n[12] == "correlationId";
    assert n[13] == "targetType" && n[14] == "targetId" && n[15] == "parameters" && n[16] == "errorCode";
    assert n[17] == "sourceType";
  }

  ghost predicate WordOf(r: AuditResult, s: string) {
    match r
    case Attempted => s == "attempted"
    case Succeeded => s == "succeeded"
    case Rejected => s == "rejected"
    case Error => s == "error"
    case Degraded => s == "degraded"
  }

  lemma FieldSays(ms: seq<(string, J.Json)>, v: seq<J.Json>, i: nat)
    requires Values(J.Object(ms), Names) == Some(v) && i < 18
    ensures Says(ms, Names[i], v[i])
  {
    hide Says;
    assert |Names| == 18;
    assert v[i] == Lookup(ms, Names[i]).value;
    LookupSays(ms, Names[i]);
  }

  lemma MembersKnown(ms: seq<(string, J.Json)>, v: seq<J.Json>)
    requires Values(J.Object(ms), Names) == Some(v)
    ensures forall i :: 0 <= i < |ms| ==> KnownName(ms[i].0)
    ensures forall name :: KnownName(name) ==> exists j :: Says(ms, name, j)
  {
    hide Says, KnownName, Lookup;
    forall i | 0 <= i < |ms| ensures KnownName(ms[i].0) {
      NamesAre(ms[i].0);
    }
    forall name | KnownName(name) ensures exists j :: Says(ms, name, j) {
      NamesAre(name);
      var i :| 0 <= i < |Names| && Names[i] == name;
      FieldSays(ms, v, i);
    }
  }

  lemma ReadEvent(f: Formats, r: Record)
    requires EventOf(f, r).Some?
    ensures var e := EventOf(f, r).value;
      && r.version == J.Number("1") && r.delivery == J.String("fallback")
      && r.id.String? && SameId(r.id.s, e.id) && r.result.String? && WordOf(e.result, r.result.s)
      && e.delivery == Fallback && e.result != Degraded && e.occurredAt.offset == Some(0) && Closed(e.facts)
  {
    hide Uuids.Parse, Uuids.Canonical, SameId, Sanitize, Closed;
    var e := WithHead(f, r, FactsOf(f, r));
    CanonicalIdEffect(r.id.s);
    SanitizedExactly(e.facts);
    CanonicalEffect(e);
  }

  /**
   A line is read only if it is an object of exactly the known members, of the one
   version, about a fallback event; and what is read is what it says, sanitized.
   */
  lemma ReadingIsStrict(f: Formats, line: string)
    requires Decode(f, line).Some?
    ensures J.Parse(line).Some? && J.Parse(line).value.Object?
    ensures var ms, e := J.Parse(line).value.members, Decode(f, line).value;
      && (forall i :: 0 <= i < |ms| ==> KnownName(ms[i].0))
      && (forall name :: KnownName(name) ==> exists j :: Says(ms, name, j))
      && Says(ms, "schemaVersion", J.Number("1")) && Says(ms, "delivery", J.String("fallback"))
      && (exists s :: Says(ms, "id", J.String(s)) && SameId(s, e.id))
      && (exists s :: Says(ms, "result", J.String(s)) && WordOf(e.result, s))
      && e.delivery == Fallback && e.result != Degraded && e.occurredAt.offset == Some(0)
      && Closed(e.facts)
  {
    hide J.Parse, Numeric, Says, KnownName, SameId, WordOf, Closed, EventOf, Lookup;
    var ms := J.Parse(line).value.members;
    var v := Values(J.Object(ms), Names).value;
    MembersKnown(ms, v);
    FieldSays(ms, v, 0);
    FieldSays(ms, v, 1);
    FieldSays(ms, v, 4);
    FieldSays(ms, v, 5);
    ReadEvent(f, FromList(v));
  }
}
