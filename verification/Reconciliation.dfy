/** Importing a file of events into the store, exactly once however often it is tried. */
module Reconciliation {
  import opened Wrappers
  import opened AuditEvents
  import opened AuditStore
  import opened AuditIdentity
  import Uuids

  predicate Named(v: Value) { v.Text? && v.s != "" }

  /** Only fallback events that say what they are about can be imported. */
  function Prepare(e: Event): Option<Event> {
    if !e.delivery.Fallback? || e.result.Degraded? || Uuids.Canonical(e.id).None? || e.occurredAt.offset.None?
       || !Named(e.facts.action) || !Named(e.facts.sourceType)
       || CanonicalOptional(e.actorUserId).None? || CanonicalOptional(e.actorSessionId).None?
    then None
    else Some(Event(
      Uuids.Canonical(e.id).value, Utc(e.occurredAt), e.result, e.delivery,
      CanonicalOptional(e.actorUserId).value, CanonicalOptional(e.actorSessionId).value, e.actorRole,
      Sanitize(e.facts)))
  }

  /** What is prepared is the canonical form. */
  lemma PreparedIsCanonical(e: Event)
    ensures Prepare(e).Some? <==>
      Canonicalize(e).Success? && e.delivery.Fallback? && Named(e.facts.action) && Named(e.facts.sourceType)
    ensures Prepare(e).Some? ==> Success(Prepare(e).value) == Canonicalize(e)
  {
  }

  ghost predicate IsPrepared(p: seq<Event>) {
    forall i :: 0 <= i < |p| ==> Canonicalize(p[i]) == Success(p[i])
  }

  function PrepareAll(events: seq<Event>): (r: Option<seq<Event>>)
    ensures r.Some? <==> forall i :: 0 <= i < |events| ==> Prepare(events[i]).Some?
    ensures r.Some? ==>
      |r.value| == |events| && forall i :: 0 <= i < |events| ==> Prepare(events[i]) == Some(r.value[i])
  {
    hide Prepare;
    if events == [] then Some([])
    else
      assert events == [events[0]] + events[1..];
      var first, rest := Prepare(events[0]), PrepareAll(events[1..]);
      if first.Some? && rest.Some? then Some([first.value] + rest.value) else None
  }

  lemma PreparedAll(events: seq<Event>)
    requires PrepareAll(events).Some?
    ensures IsPrepared(PrepareAll(events).value)
  {
    var p := PrepareAll(events).value;
    forall i | 0 <= i < |p| ensures Canonicalize(p[i]) == Success(p[i]) {
      PreparedIsCanonical(events[i]);
      CanonicalizeTwice(events[i]);
    }
  }

  /** One identifier, one fact. */
  ghost predicate Consistent(p: seq<Event>) {
    forall i, j :: 0 <= i < j < |p| && p[i].id == p[j].id ==> SameFact(p[i], p[j])
  }

  lemma EquivalentPrepared(a: Event, b: Event)
    requires Canonicalize(a) == Success(a) && Canonicalize(b) == Success(b)
    ensures Equivalent(a, b) == Success(SameFact(a, b))
  {
  }

  /** Every event is the same fact as the first one of its identifier. */
  ghost predicate Indexed(p: seq<Event>, byId: map<string, Event>) {
    && (forall k :: k in byId ==> byId[k] in p && byId[k].id == k)
    && forall e :: e in p ==> e.id in byId && SameFact(byId[e.id], e)
  }

  lemma IndexedIsConsistent(p: seq<Event>, byId: map<string, Event>)
    requires Indexed(p, byId)
    ensures Consistent(p)
  {
    forall i, j | 0 <= i < j < |p| && p[i].id == p[j].id ensures SameFact(p[i], p[j]) {
      assert p[i] in p && p[j] in p;
      SameFactLaws(byId[p[i].id], p[i], p[j]);
      SameFactLaws(p[i], byId[p[i].id], p[j]);
    }
  }

  lemma IndexMore(p: seq<Event>, byId: map<string, Event>, e: Event)
    requires Indexed(p, byId) && SameFact(e, e)
    requires e.id in byId ==> SameFact(byId[e.id], e)
    ensures Indexed(p + [e], if e.id in byId then byId else byId[e.id := e])
  {
  }

  lemma IndexClash(p: seq<Event>, byId: map<string, Event>, i: nat)
    requires i < |p| && Indexed(p[..i], byId)
    requires p[i].id in byId && !SameFact(byId[p[i].id], p[i])
    ensures !Consistent(p)
  {
    var j :| 0 <= j < i && p[..i][j] == byId[p[i].id];
    assert p[j].id == p[i].id && !SameFact(p[j], p[i]);
  }

  /** Compares every event with the first one of its identifier. */
  method ValidateBatch(p: seq<Event>) returns (ok: bool)
    requires IsPrepared(p)
    ensures ok <==> Consistent(p)
  {
    var byId: map<string, Event> := map[];
    for i := 0 to |p|
      invariant Indexed(p[..i], byId)
    {
      var same := AgreesWithFirst(p, byId, i);
      if !same {
        return false;
      }
      if p[i].id !in byId {
        byId := byId[p[i].id := p[i]];
      }
    }
    assert p[..|p|] == p;
    IndexedIsConsistent(p, byId);
    ok := true;
  }

  /** Whether the event is the same fact as the first one of its identifier, if there is one. */
  method AgreesWithFirst(p: seq<Event>, byId: map<string, Event>, i: nat) returns (same: bool)
    requires IsPrepared(p) && i < |p| && Indexed(p[..i], byId)
    ensures same ==> Indexed(p[..i + 1], if p[i].id in byId then byId else byId[p[i].id := p[i]])
    ensures !same ==> !Consistent(p)
  {
    same := true;
    if p[i].id in byId {
      same := Equivalent(byId[p[i].id], p[i]) == Success(true);
      ComparedWithFirst(p, byId, i);
      if !same {
        IndexClash(p, byId, i);
        return;
      }
    }
    SelfSame(p[i]);
    IndexedNext(p, byId, i);
  }

  lemma ComparedWithFirst(p: seq<Event>, byId: map<string, Event>, i: nat)
    requires IsPrepared(p) && i < |p| && Indexed(p[..i], byId) && p[i].id in byId
    ensures Equivalent(byId[p[i].id], p[i]) == Success(SameFact(byId[p[i].id], p[i]))
  {
    var j :| 0 <= j < i && p[..i][j] == byId[p[i].id];
    assert p[j] == byId[p[i].id];
    EquivalentPrepared(p[j], p[i]);
  }

  lemma PrefixMore(p: seq<Event>, i: nat)
    requires i < |p|
    ensures p[..i + 1] == p[..i] + [p[i]]
  {
  }

  lemma IndexedNext(p: seq<Event>, byId: map<string, Event>, i: nat)
    requires i < |p| && Indexed(p[..i], byId) && SameFact(p[i], p[i])
    requires p[i].id in byId ==> SameFact(byId[p[i].id], p[i])
    ensures Indexed(p[..i + 1], if p[i].id in byId then byId else byId[p[i].id := p[i]])
  {
    IndexMore(p[..i], byId, p[i]);
    PrefixMore(p, i);
  }

  lemma SelfSame(e: Event)
    requires Canonicalize(e) == Success(e)
    ensures SameFact(e, e)
  {
    SafeItemsAreSelfSame(e.facts.parameters);
  }

  lemma {:induction false} OneMore(rows: Rows, p: seq<Event>, e: Event)
    ensures AfterAll(rows, p + [e]) == Stored(AfterAll(rows, p), e)
    ensures Answers(rows, p + [e]) == Answers(rows, p) + [Judge(AfterAll(rows, p), e)]
    decreases |p|
  {
    if p != [] {
      var next := Stored(rows, p[0]);
      OneMore(next, p[1..], e);
      assert (p + [e])[1..] == p[1..] + [e];
    } else {
      LastOne(rows, e);
    }
  }

  lemma LastOne(rows: Rows, e: Event)
    ensures AfterAll(rows, [e]) == Stored(rows, e) && Answers(rows, [e]) == [Judge(rows, e)]
  {
    var next := Stored(rows, e);
    assert AfterAll(next, []) == next && Answers(next, []) == [];
  }

  ghost predicate AllAccepted(rows: Rows, p: seq<Event>) {
    forall v :: v in Answers(rows, p) ==> Accepted(v)
  }

  /** Holding an event's fact is what makes it a duplicate. */
  lemma HeldIsDuplicate(rows: Rows, e: Event)
    requires RowsOk(rows) && Holds(rows, e)
    ensures Judge(rows, e) == Duplicate && Stored(rows, e) == rows
  {
    JudgeStored(rows, e);
  }

  lemma {:induction false} HeldChangesNothing(rows: Rows, p: seq<Event>)
    requires RowsOk(rows) && forall e :: e in p ==> Holds(rows, e)
    ensures AfterAll(rows, p) == rows
    ensures forall v :: v in Answers(rows, p) ==> v == Duplicate
    decreases |p|
  {
    if p != [] {
      HeldIsDuplicate(rows, p[0]);
      HeldChangesNothing(rows, p[1..]);
    }
  }

  /** Importing again what was imported changes nothing. */
  lemma ImportTwice(rows: Rows, p: seq<Event>)
    requires RowsOk(rows) && AllAccepted(rows, p)
    ensures RowsOk(AfterAll(rows, p)) && AfterAll(AfterAll(rows, p), p) == AfterAll(rows, p)
    ensures forall v :: v in Answers(AfterAll(rows, p), p) ==> v == Duplicate
  {
    RunKeepsFacts(rows, p);
    forall e | e in p ensures Holds(AfterAll(rows, p), e) {
      var i :| 0 <= i < |p| && p[i] == e;
      assert Accepted(Answers(rows, p)[i]);
    }
    HeldChangesNothing(AfterAll(rows, p), p);
  }

  ghost predicate Names(p: seq<Event>, k: nat) {
    exists i :: 0 <= i < |p| && Uuids.Parse(p[i].id) == Some(k)
  }

  /** `row` is what the first event with this identifier is written as. */
  ghost predicate FirstOf(p: seq<Event>, k: nat, row: Row) {
    exists i :: 0 <= i < |p| && Uuids.Parse(p[i].id) == Some(k) && ToRow(p[i]) == Success(row) && !Names(p[..i], k)
  }

  lemma NamesMore(front: seq<Event>, e: Event, k: nat)
    ensures Names(front + [e], k) <==> Names(front, k) || Uuids.Parse(e.id) == Some(k)
  {
    var p := front + [e];
    assert p[|front|] == e;
    if Names(front, k) {
      var i :| 0 <= i < |front| && Uuids.Parse(front[i].id) == Some(k);
      assert p[i] == front[i];
    }
  }

  lemma FirstOfMore(front: seq<Event>, e: Event, k: nat, row: Row)
    requires FirstOf(front, k, row) || (!Names(front, k) && Uuids.Parse(e.id) == Some(k) && ToRow(e) == Success(row))
    ensures FirstOf(front + [e], k, row)
  {
    var p := front + [e];
    if FirstOf(front, k, row) {
      var i :| 0 <= i < |front| && Uuids.Parse(front[i].id) == Some(k) && ToRow(front[i]) == Success(row)
        && !Names(front[..i], k);
      assert p[i] == front[i] && p[..i] == front[..i];
    } else {
      assert p[|front|] == e && p[..|front|] == front;
    }
  }

  lemma StoredRow(rows: Rows, e: Event, k: nat)
    requires Canonicalize(e).Success?
    ensures k in Stored(rows, e) <==> k in rows || Uuids.Parse(e.id) == Some(k)
    ensures k in rows ==> Stored(rows, e)[k] == rows[k]
    ensures k in Stored(rows, e) && k !in rows ==> ToRow(e) == Success(Stored(rows, e)[k])
  {
    RowRoundTrip(e);
  }

  /** The table afterwards: the old rows, and one row for each identifier that was missing. */
  lemma {:induction false} ImportedRows(rows: Rows, p: seq<Event>, k: nat)
    requires IsPrepared(p)
    ensures RowsAfter(rows, p, AfterAll(rows, p), k)
    decreases |p|
  {
    hide RowsAfter, AfterAll, Canonicalize;
    NoRows(rows, k);
    if p != [] {
      var front, e := p[..|p| - 1], p[|p| - 1];
      assert p == front + [e];
      ImportedRows(rows, front, k);
      OneMoreRow(rows, front, e, k);
    }
  }

  lemma NoRows(rows: Rows, k: nat)
    ensures RowsAfter(rows, [], AfterAll(rows, []), k)
  {
  }

  /** The row of this identifier after importing `p`. */
  ghost predicate RowsAfter(rows: Rows, p: seq<Event>, after: Rows, k: nat) {
    && (k in after <==> k in rows || Names(p, k))
    && (k in rows ==> after[k] == rows[k])
    && (k !in rows && Names(p, k) ==> FirstOf(p, k, after[k]))
  }

  lemma OneMoreRow(rows: Rows, front: seq<Event>, e: Event, k: nat)
    requires Canonicalize(e).Success? && RowsAfter(rows, front, AfterAll(rows, front), k)
    ensures RowsAfter(rows, front + [e], AfterAll(rows, front + [e]), k)
  {
    hide Uuids.Parse, Canonicalize, ToRow, Stored, AfterAll, Answers, FirstOf, Names;
    OneMore(rows, front, e);
    StoredRow(AfterAll(rows, front), e, k);
    NamesMore(front, e, k);
    if k !in rows && Names(front + [e], k) {
      FirstOfMore(front, e, k, AfterAll(rows, front + [e])[k]);
    }
  }

  lemma {:induction false} AnswerAt(rows: Rows, p: seq<Event>, i: nat)
    requires i < |p|
    ensures Answers(rows, p)[i] == Judge(AfterAll(rows, p[..i]), p[i])
    decreases |p|
  {
    if i == 0 {
      assert p[..0] == [];
    } else {
      var next := Stored(rows, p[0]);
      AnswerAt(next, p[1..], i - 1);
      assert p[..i][1..] == p[1..][..i - 1] && p[..i][0] == p[0];
    }
  }

  /** After a consistent batch was checked, only a row that was there before can be in the way. */
  lemma ConflictIsOld(rows: Rows, p: seq<Event>, i: nat)
    requires RowsOk(rows) && IsPrepared(p) && Consistent(p) && i < |p|
    ensures Judge(AfterAll(rows, p[..i]), p[i]) == Conflicting <==> Judge(rows, p[i]) == Conflicting
  {
    var front, e := p[..i], p[i];
    var after := AfterAll(rows, front);
    RowRoundTrip(e);
    var k := ToRow(e).value.id;
    RunKeepsFacts(rows, front);
    JudgeStored(rows, e);
    JudgeStored(after, e);
    ImportedRows(rows, front, k);
    if k in after && k !in rows {
      var j :| 0 <= j < i && Uuids.Parse(front[j].id) == Some(k) && ToRow(front[j]) == Success(after[k])
        && !Names(front[..j], k);
      SameFactAsFirst(p, j, i);
    }
  }

  lemma SameFactAsFirst(p: seq<Event>, j: nat, i: nat)
    requires IsPrepared(p) && Consistent(p) && j < i < |p| && Uuids.Parse(p[j].id) == Uuids.Parse(p[i].id)
    ensures ToRow(p[j]).Success? && SameFact(FromRow(ToRow(p[j]).value), p[i])
  {
    RowRoundTrip(p[j]);
    RowRoundTrip(p[i]);
    Uuids.CanonicalIsId(p[j].id, p[i].id);
  }

  /** Whether a batch can be imported does not depend on its order: no stored row may contradict it. */
  lemma ImportableExactly(rows: Rows, p: seq<Event>)
    requires RowsOk(rows) && IsPrepared(p) && Consistent(p)
    ensures AllAccepted(rows, p) <==> !Clashes(rows, p)
  {
    forall i | 0 <= i < |p| ensures Accepted(Answers(rows, p)[i]) <==> Judge(rows, p[i]) != Conflicting {
      AnswerAt(rows, p, i);
      ConflictIsOld(rows, p, i);
      RowRoundTrip(p[i]);
    }
    if AllAccepted(rows, p) {
      forall e | e in p ensures Judge(rows, e) != Conflicting {
        var i :| 0 <= i < |p| && p[i] == e;
        assert Answers(rows, p)[i] in Answers(rows, p);
      }
    }
  }

  /** A row stored before contradicts an event of the batch. */
  ghost predicate Clashes(rows: Rows, p: seq<Event>) {
    exists e :: e in p && Judge(rows, e) == Conflicting
  }

  datatype Report = Report(validated: nat, imported: nat, duplicates: nat, dryRun: bool)

  datatype ReconcileError = BadEvent | BatchConflict | StoreConflict | StoreUnavailable

  /** The table in the middle of an import that has met no conflict. */
  ghost predicate Imported(rows: Rows, work: Rows, p: seq<Event>, imported: nat) {
    && RowsOk(rows) && RowsOk(work) && work == AfterAll(rows, p) && AllAccepted(rows, p)
    && |work| == |rows| + imported
  }

  lemma StoredSize(rows: Rows, e: Event)
    ensures |Stored(rows, e)| == |rows| + (if Judge(rows, e).Inserted? then 1 else 0)
  {
    if Judge(rows, e).Inserted? {
      assert Stored(rows, e).Keys == rows.Keys + {ToRow(e).value.id};
    }
  }

  /** What a successful import does to the table. */
  ghost predicate ImportedBy(before: Rows, after: Rows, p: seq<Event>, report: Report) {
    && IsPrepared(p) && Consistent(p) && AllAccepted(before, p) && after == AfterAll(before, p)
    && report.validated == |p| && report.imported + report.duplicates == |p| && !report.dryRun
    && report.imported == |after| - |before|
  }

  class Reconciler {
    const table: AuditTable

    constructor (table: AuditTable)
      ensures this.table == table
    {
      this.table := table;
    }

    /** Every event of the batch, in one transaction that is still open. */
    method ImportAll(unit: AuditUnit, p: seq<Event>) returns (r: Result<Report, AppendError>)
      requires RowsOk(unit.work) && IsPrepared(p) && Consistent(p)
      modifies unit`work, unit`fuse
      ensures r.Success? ==> RowsOk(unit.work) && ImportedBy(old(unit.work), unit.work, p, r.value)
      ensures r.Failure? ==>
        || (r.error == Conflict && Clashes(old(unit.work), p))
        || (r.error == Unavailable && old(unit.fuse) < 2 * |p|)
      ensures unit.fuse <= old(unit.fuse) <= unit.fuse + 2 * |p|
    {
      var imported, duplicates := 0, 0;
      ghost var rows := unit.work;
      for i := 0 to |p|
        invariant Imported(rows, unit.work, p[..i], imported) && imported + duplicates == i
        invariant unit.fuse <= old(unit.fuse) <= unit.fuse + 2 * i
      {
        var appended := ImportOne(unit, p, i, rows, imported);
        if appended.Failure? {
          return Failure(appended.error);
        }
        if appended.value {
          imported := imported + 1;
        } else {
          duplicates := duplicates + 1;
        }
      }
      assert p[..|p|] == p;
      r := Success(Report(|p|, imported, duplicates, false));
    }

    method ImportOne(unit: AuditUnit, p: seq<Event>, i: nat, ghost rows: Rows, ghost imported: nat)
      returns (r: Result<bool, AppendError>)
      requires IsPrepared(p) && Consistent(p) && i < |p| && Imported(rows, unit.work, p[..i], imported)
      modifies unit`work, unit`fuse
      ensures r.Success? ==> Imported(rows, unit.work, p[..i + 1], imported + if r.value then 1 else 0)
      ensures r.Failure? ==>
        || (r.error == Conflict && Clashes(rows, p))
        || (r.error == Unavailable && old(unit.fuse) < 2)
      ensures unit.fuse <= old(unit.fuse) <= unit.fuse + 2
    {
      ghost var before := unit.work;
      RowRoundTrip(p[i]);
      r := unit.AppendOrMatch(p[i]);
      if r.Success? {
        ImportedNext(rows, before, p, i, imported);
      } else if r.error == Conflict {
        ConflictIsOld(rows, p, i);
      }
    }

    lemma ImportedNext(rows: Rows, work: Rows, p: seq<Event>, i: nat, imported: nat)
      requires i < |p| && Imported(rows, work, p[..i], imported)
      requires Accepted(Judge(work, p[i])) && RowsOk(Stored(work, p[i]))
      ensures
        Imported(rows, Stored(work, p[i]), p[..i + 1], imported + if Judge(work, p[i]).Inserted? then 1 else 0)
    {
      ImportedOne(rows, work, p[..i], p[i], imported);
      PrefixMore(p, i);
    }

    lemma ImportedOne(rows: Rows, work: Rows, front: seq<Event>, e: Event, imported: nat)
      requires Imported(rows, work, front, imported)
      requires Accepted(Judge(work, e)) && RowsOk(Stored(work, e))
      ensures Imported(rows, Stored(work, e), front + [e], imported + if Judge(work, e).Inserted? then 1 else 0)
    {
      OneMoreAccepted(rows, front, e);
      StoredSize(work, e);
    }

    lemma OneMoreAccepted(rows: Rows, front: seq<Event>, e: Event)
      requires AllAccepted(rows, front) && Accepted(Judge(AfterAll(rows, front), e))
      ensures AfterAll(rows, front + [e]) == Stored(AfterAll(rows, front), e) && AllAccepted(rows, front + [e])
    {
      OneMore(rows, front, e);
    }

    /** All or nothing; a dry run only checks the batch. */
    method Reconcile(events: seq<Event>, dryRun: bool, fuse: nat) returns (r: Result<Report, ReconcileError>)
      requires RowsOk(table.rows)
      modifies table`rows
      ensures RowsOk(table.rows)
      ensures r.Failure? || dryRun ==> table.rows == old(table.rows)
      ensures r.Success? ==>
        PrepareAll(events).Some? && Consistent(PrepareAll(events).value) && r.value.validated == |events|
      ensures r.Success? && dryRun ==> r.value == Report(|events|, 0, 0, true)
      ensures r.Success? && !dryRun ==> ImportedBy(old(table.rows), table.rows, PrepareAll(events).value, r.value)
      ensures r == Failure(StoreUnavailable) ==> !dryRun && fuse < 2 * |events| + 1
      ensures r == Failure(BadEvent) ==> PrepareAll(events).None?
      ensures r == Failure(BatchConflict) ==> PrepareAll(events).Some? && !Consistent(PrepareAll(events).value)
      ensures r == Failure(StoreConflict) ==>
        && !dryRun && PrepareAll(events).Some? && Consistent(PrepareAll(events).value)
        && Clashes(old(table.rows), PrepareAll(events).value)
    {
      var prepared := PrepareAll(events);
      if prepared.None? {
        return Failure(BadEvent);
      }
      PreparedAll(events);
      var consistent := ValidateBatch(prepared.value);
      if !consistent {
        return Failure(BatchConflict);
      }
      if dryRun {
        return Success(Report(|events|, 0, 0, true));
      }
      var unit := new AuditUnit(table, fuse);
      var report := ImportAll(unit, prepared.value);
      if report.Failure? {
        return Failure(if report.error == Conflict then StoreConflict else StoreUnavailable);
      }
      var ok := unit.Commit();
      r := if ok then Success(report.value) else Failure(StoreUnavailable);
    }
  }
}
