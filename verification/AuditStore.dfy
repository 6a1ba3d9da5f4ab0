/** The audit table: rows, identity of facts, and appending at most once per identifier. */
module AuditStore {
  import opened Wrappers
  import opened AuditEvents
  import Uuids

  datatype Row = Row(
    id: nat, occurredAt: int, result: AuditResult, delivery: Delivery,
    actorUserId: Option<nat>, actorSessionId: Option<nat>, actorRole: Option<Role>, facts: Facts)

  type Rows = map<nat, Row>

  function OptionalId(id: Option<string>): Option<Option<nat>> {
    if id.None? then Some(None) else if Uuids.Parse(id.value).Some? then Some(Uuids.Parse(id.value)) else None
  }

  function OptionalText(id: Option<nat>): Option<string> {
    if id.None? then None else Some(Uuids.Print(id.value))
  }

  /** The row written for an event. */
  function ToRow(e: Event): Result<Row, Invalid> {
    if e.result.Degraded? then Failure(NotPersistable)
    else if e.delivery.Lost? then Failure(NoMedium)
    else if e.occurredAt.offset.None? then Failure(NaiveTime)
    else if Uuids.Parse(e.id).None? || OptionalId(e.actorUserId).None? || OptionalId(e.actorSessionId).None?
    then Failure(BadId)
    else Success(Row(
      Uuids.Parse(e.id).value, Utc(e.occurredAt).local, e.result, e.delivery,
      OptionalId(e.actorUserId).value, OptionalId(e.actorSessionId).value, e.actorRole, Sanitize(e.facts)))
  }

  function FromRow(row: Row): Event {
    Event(
      Uuids.Print(row.id), Time(row.occurredAt, Some(0)), row.result, row.delivery,
      OptionalText(row.actorUserId), OptionalText(row.actorSessionId), row.actorRole, row.facts)
  }

  lemma IdRoundTrip(id: string)
    ensures Uuids.Parse(id).Some? <==> Uuids.Canonical(id).Some?
    ensures Uuids.Canonical(id).Some? ==>
      && Uuids.Print(Uuids.Parse(id).value) == Uuids.Canonical(id).value
      && Uuids.Parse(Uuids.Canonical(id).value) == Uuids.Parse(id)
      && Uuids.Canonical(Uuids.Canonical(id).value) == Uuids.Canonical(id)
  {
    hide Uuids.Parse, Uuids.Print;
    if Uuids.Canonical(id).Some? {
      Uuids.CanonicalTwice(id);
    }
  }

  lemma OptionalRoundTrip(id: Option<string>)
    ensures OptionalId(id).Some? <==> CanonicalOptional(id).Some?
    ensures OptionalId(id).Some? ==>
      && OptionalText(OptionalId(id).value) == CanonicalOptional(id).value
      && OptionalId(CanonicalOptional(id).value) == OptionalId(id)
  {
    hide Uuids.Parse, Uuids.Print, Uuids.Canonical;
    if id.Some? {
      IdRoundTrip(id.value);
    }
  }

  /** What is written and read back is the canonical form, and nothing else can be written. */
  lemma RowRoundTrip(e: Event)
    ensures ToRow(e).Success? <==> Canonicalize(e).Success?
    ensures ToRow(e).Success? ==>
      && FromRow(ToRow(e).value) == Canonicalize(e).value
      && ToRow(Canonicalize(e).value) == ToRow(e)
      && Uuids.Parse(e.id) == Some(ToRow(e).value.id)
  {
    hide Uuids.Parse, Uuids.Print, Uuids.Canonical, OptionalId, OptionalText, CanonicalOptional, Sanitize;
    IdRoundTrip(e.id);
    OptionalRoundTrip(e.actorUserId);
    OptionalRoundTrip(e.actorSessionId);
    SanitizeTwice(e.facts);
  }

  function Number(v: Value): Option<real> {
    match v
    case Bool(b) => Some(if b then 1.0 else 0.0)
    case Int(n) => Some(n as real)
    case Float(r) => Some(r)
    case _ => None
  }

  /** Equality of parameter values: numbers are equal across their types. */
  predicate SameValue(v: Value, w: Value) {
    !v.NonFinite? && if Number(v).Some? && Number(w).Some? then Number(v) == Number(w) else v == w
  }

  predicate SameItems(a: map<string, Value>, b: map<string, Value>) {
    a.Keys == b.Keys && forall k :: k in a ==> SameValue(a[k], b[k])
  }

  predicate SameParameters(a: Parameters, b: Parameters) {
    match (a, b)
    case (Dict(m), Dict(n)) => SameItems(m, n)
    case _ => a == b
  }

  /** The same fact, for two canonical events. */
  predicate SameFact(a: Event, b: Event) {
    && SameParameters(a.facts.parameters, b.facts.parameters)
    && a == b.(facts := b.facts.(parameters := a.facts.parameters))
  }

  function Equivalent(a: Event, b: Event): Result<bool, Invalid> {
    var left := Canonicalize(a);
    if left.Failure? then Failure(left.error) else
    var right := Canonicalize(b);
    if right.Failure? then Failure(right.error) else Success(SameFact(left.value, right.value))
  }

  lemma SafeItemsAreSelfSame(p: Parameters)
    ensures SameParameters(SafeParameters(p), SafeParameters(p))
  {
  }

  lemma SameFactLaws(a: Event, b: Event, c: Event)
    ensures SameFact(a, b) == SameFact(b, a)
    ensures SameFact(a, b) && SameFact(b, c) ==> SameFact(a, c)
  {
  }

  /** On events that can be kept, equivalence is an equivalence. */
  lemma EquivalenceLaws(a: Event, b: Event, c: Event)
    requires Canonicalize(a).Success? && Canonicalize(b).Success? && Canonicalize(c).Success?
    ensures Equivalent(a, a) == Success(true)
    ensures Equivalent(a, b) == Equivalent(b, a)
    ensures Equivalent(a, b) == Success(true) && Equivalent(b, c) == Success(true) ==> Equivalent(a, c) == Success(true)
  {
    SafeItemsAreSelfSame(a.facts.parameters);
    SameFactLaws(Canonicalize(a).value, Canonicalize(b).value, Canonicalize(c).value);
  }

  /** Every row reads back as an event in canonical form, under its own identifier. */
  ghost predicate RowsOk(rows: Rows) {
    forall k :: k in rows ==>
      && rows[k].id == k && k < Uuids.Limit()
      && Canonicalize(FromRow(rows[k])) == Success(FromRow(rows[k]))
  }

  datatype Verdict = Inserted | Duplicate | Conflicting | Refused(reason: Invalid)

  function Judge(rows: Rows, e: Event): Verdict {
    var row := ToRow(e);
    if row.Failure? then Refused(row.error)
    else if row.value.id !in rows then Inserted
    else if Equivalent(FromRow(rows[row.value.id]), e) == Success(true) then Duplicate
    else Conflicting
  }

  function Stored(rows: Rows, e: Event): Rows {
    if Judge(rows, e).Inserted? then rows[ToRow(e).value.id := ToRow(e).value] else rows
  }

  lemma StoredOk(rows: Rows, e: Event)
    requires RowsOk(rows)
    ensures RowsOk(Stored(rows, e))
    ensures forall k :: k in rows ==> k in Stored(rows, e) && Stored(rows, e)[k] == rows[k]
  {
    if Judge(rows, e).Inserted? {
      RowRoundTrip(e);
      CanonicalizeTwice(e);
      Uuids.ParseFits(e.id);
    }
  }

  /** A stored row can always be compared with an event that can be written. */
  lemma Comparable(rows: Rows, e: Event)
    requires RowsOk(rows) && ToRow(e).Success? && ToRow(e).value.id in rows
    ensures Uuids.Parse(e.id) == Some(ToRow(e).value.id)
    ensures Equivalent(FromRow(rows[ToRow(e).value.id]), e).Success?
  {
    RowRoundTrip(e);
  }

  datatype AppendError = Unavailable | Invalid(reason: Invalid) | Conflict

  /** The table as committed. */
  class AuditTable {
    var rows: Rows

    constructor ()
      ensures rows == map[] && RowsOk(rows)
    {
      rows := map[];
    }
  }

  function AnswerOf(v: Verdict): Result<bool, AppendError> {
    match v
    case Inserted => Success(true)
    case Duplicate => Success(false)
    case Conflicting => Failure(Conflict)
    case Refused(reason) => Failure(Invalid(reason))
  }

  predicate Accepted(v: Verdict) { v.Inserted? || v.Duplicate? }

  /** The calls it takes to find out: the insert, and a look at what is in the way. */
  function Calls(v: Verdict): nat {
    match v
    case Inserted => 1
    case Refused(_) => 0
    case _ => 2
  }

  /** The answer to one append in a transaction of its own; what is accepted is committed with one more call. */
  function SinkAnswer(rows: Rows, e: Event, ready: bool, fuse: nat): Result<bool, AppendError> {
    var v := Judge(rows, e);
    if !ready || fuse < Calls(v) + (if Accepted(v) then 1 else 0) then Failure(Unavailable) else AnswerOf(v)
  }

  /**
   One transaction: a private copy that replaces the table on commit. The
   database answers `fuse` more calls, then it is gone.
   */
  class AuditUnit {
    const table: AuditTable
    var work: Rows
    var fuse: nat

    constructor (table: AuditTable, fuse: nat)
      ensures this.table == table && work == table.rows && this.fuse == fuse
    {
      this.table, work, this.fuse := table, table.rows, fuse;
    }

    /** Every call goes through here. */
    method Reach() returns (up: bool)
      modifies this`fuse
      ensures up == (old(fuse) > 0) && fuse == (if up then old(fuse) - 1 else 0)
    {
      up := fuse > 0;
      if up {
        fuse := fuse - 1;
      }
    }

    /** Inserts the row unless its identifier is taken. */
    method Append(e: Event) returns (r: Result<bool, AppendError>)
      modifies this`work, this`fuse
      ensures r ==
        if ToRow(e).Failure? then Failure(Invalid(ToRow(e).error))
        else if old(fuse) == 0 then Failure(Unavailable)
        else Success(ToRow(e).value.id !in old(work))
      ensures work == if r.Success? && r.value then old(work)[ToRow(e).value.id := ToRow(e).value] else old(work)
      ensures fuse == if ToRow(e).Failure? || old(fuse) == 0 then old(fuse) else old(fuse) - 1
    {
      var row := ToRow(e);
      if row.Failure? {
        return Failure(Invalid(row.error));
      }
      var up := Reach();
      if !up {
        return Failure(Unavailable);
      }
      if row.value.id in work {
        return Success(false);
      }
      work := work[row.value.id := row.value];
      r := Success(true);
    }

    method GetById(id: string) returns (r: Result<Option<Event>, AppendError>)
      modifies this`fuse
      ensures r ==
        if Uuids.Parse(id).None? then Failure(Invalid(BadId))
        else if old(fuse) == 0 then Failure(Unavailable)
        else Success(if Uuids.Parse(id).value in work then Some(FromRow(work[Uuids.Parse(id).value])) else None)
      ensures fuse == if Uuids.Parse(id).None? || old(fuse) == 0 then old(fuse) else old(fuse) - 1
    {
      var key := Uuids.Parse(id);
      if key.None? {
        return Failure(Invalid(BadId));
      }
      var up := Reach();
      if !up {
        return Failure(Unavailable);
      }
      r := Success(if key.value in work then Some(FromRow(work[key.value])) else None);
    }

    /** Appends, or accepts what is already there when it is the same fact. */
    method AppendOrMatch(e: Event) returns (r: Result<bool, AppendError>)
      requires RowsOk(work)
      modifies this`work, this`fuse
      ensures RowsOk(work) && work == if r.Success? then Stored(old(work), e) else old(work)
      ensures r ==
        if old(fuse) < Calls(Judge(old(work), e)) then Failure(Unavailable) else AnswerOf(Judge(old(work), e))
      ensures r.Success? ==> fuse == old(fuse) - Calls(Judge(old(work), e))
      ensures fuse <= old(fuse) <= fuse + 2
    {
      r := Append(e);
      if r.Success? && !r.value {
        r := Match(e);
      } else {
        StoredOk(old(work), e);
      }
    }

    /** The row in the way has to be the same fact. */
    method Match(e: Event) returns (r: Result<bool, AppendError>)
      requires RowsOk(work) && ToRow(e).Success? && ToRow(e).value.id in work
      modifies this`fuse
      ensures r == if old(fuse) == 0 then Failure(Unavailable) else AnswerOf(Judge(work, e))
      ensures Calls(Judge(work, e)) == 2 && fuse == if old(fuse) == 0 then 0 else old(fuse) - 1
    {
      Comparable(work, e);
      var existing := GetById(e.id);
      if existing.Failure? {
        return Failure(existing.error);
      }
      r := if existing.value.None? || Equivalent(existing.value.value, e) != Success(true)
           then Failure(Conflict) else Success(false);
    }

    /** A commit that fails has stored nothing. */
    method Commit() returns (ok: bool)
      modifies table`rows, this`fuse
      ensures ok == (old(fuse) > 0)
      ensures table.rows == if ok then work else old(table.rows)
    {
      ok := Reach();
      if ok {
        table.rows := work;
      }
    }
  }

  /** One fact in its own transaction. */
  class AuditSink {
    const table: AuditTable

    constructor (table: AuditTable)
      ensures this.table == table
    {
      this.table := table;
    }

    /** Three calls at most: append, look at what is in the way, commit. */
    method Append(e: Event, ready: bool, fuse: nat) returns (r: Result<bool, AppendError>)
      requires RowsOk(table.rows)
      modifies table`rows
      ensures RowsOk(table.rows) && table.rows == if r.Success? then Stored(old(table.rows), e) else old(table.rows)
      ensures r == SinkAnswer(old(table.rows), e, ready, fuse)
    {
      if !ready {
        return Failure(Unavailable);
      }
      var unit := new AuditUnit(table, fuse);
      r := unit.AppendOrMatch(e);
      if r.Failure? {
        return;
      }
      var ok := unit.Commit();
      if !ok {
        r := Failure(Unavailable);
      }
    }
  }
}
