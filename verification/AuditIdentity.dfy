/** Equivalent events cannot be told apart by the store, now or later. */
module AuditIdentity {
  import opened Wrappers
  import opened AuditEvents
  import opened AuditStore
  import Uuids

  predicate Alike(a: Event, b: Event) { Equivalent(a, b) == Success(true) }

  /** Once a fact is stored, its identifier is accepted again exactly for the same fact. */
  lemma RepeatedAppend(rows: Rows, a: Event, b: Event)
    requires RowsOk(rows) && Judge(rows, a) == Inserted
    requires Canonicalize(b).Success? && Uuids.Parse(b.id) == Uuids.Parse(a.id)
    ensures Judge(Stored(rows, a), b) ==
      if SameFact(Canonicalize(a).value, Canonicalize(b).value) then Duplicate else Conflicting
  {
    RowRoundTrip(a);
    RowRoundTrip(b);
    CanonicalizeTwice(a);
  }

  /** Two tables that hold the same facts. */
  ghost predicate SameRows(r: Rows, s: Rows) {
    r.Keys == s.Keys && forall k :: k in r ==> SameFact(FromRow(r[k]), FromRow(s[k]))
  }

  /** The comparison with a stored row, on canonical forms. */
  lemma JudgeStored(rows: Rows, e: Event)
    requires RowsOk(rows) && Canonicalize(e).Success?
    ensures ToRow(e).Success?
    ensures var k := ToRow(e).value.id;
      Judge(rows, e) ==
        if k !in rows then Inserted
        else if SameFact(FromRow(rows[k]), Canonicalize(e).value) then Duplicate
        else Conflicting
  {
    RowRoundTrip(e);
  }

  lemma AlikeSameId(a: Event, b: Event)
    requires Alike(a, b)
    ensures Canonicalize(a).Success? && Canonicalize(b).Success?
    ensures SameFact(Canonicalize(a).value, Canonicalize(b).value)
    ensures ToRow(a).Success? && ToRow(b).Success? && ToRow(a).value.id == ToRow(b).value.id
  {
    RowRoundTrip(a);
    RowRoundTrip(b);
    Uuids.CanonicalIsId(a.id, b.id);
  }

  lemma JudgeAlike(r: Rows, s: Rows, a: Event, b: Event)
    requires RowsOk(r) && RowsOk(s) && SameRows(r, s) && Alike(a, b)
    ensures Judge(r, a) == Judge(s, b)
  {
    AlikeSameId(a, b);
    JudgeStored(r, a);
    JudgeStored(s, b);
    var k := ToRow(a).value.id;
    if k in r {
      var x, y := FromRow(r[k]), FromRow(s[k]);
      var ca, cb := Canonicalize(a).value, Canonicalize(b).value;
      SameFactLaws(x, y, cb);
      SameFactLaws(y, x, ca);
      SameFactLaws(x, ca, cb);
      SameFactLaws(x, cb, ca);
      SameFactLaws(ca, cb, cb);
    }
  }

  /** Equivalence is a congruence: same answer, and tables that still hold the same facts. */
  lemma AppendAlike(r: Rows, s: Rows, a: Event, b: Event)
    requires RowsOk(r) && RowsOk(s) && SameRows(r, s) && Alike(a, b)
    ensures Judge(r, a) == Judge(s, b)
    ensures SameRows(Stored(r, a), Stored(s, b))
  {
    JudgeAlike(r, s, a, b);
    AlikeSameId(a, b);
    RowRoundTrip(a);
    RowRoundTrip(b);
  }

  /** The answers to a series of appends, each in its own transaction. */
  function Answers(rows: Rows, events: seq<Event>): (r: seq<Verdict>)
    ensures |r| == |events|
    decreases |events|
  {
    if events == [] then [] else [Judge(rows, events[0])] + Answers(Stored(rows, events[0]), events[1..])
  }

  function AfterAll(rows: Rows, events: seq<Event>): Rows
    decreases |events|
  {
    if events == [] then rows else AfterAll(Stored(rows, events[0]), events[1..])
  }

  ghost predicate AllAlike(a: seq<Event>, b: seq<Event>) {
    |a| == |b| && forall i :: 0 <= i < |a| ==> Alike(a[i], b[i])
  }

  /** Nothing that ever happens tells equivalent series of events apart. */
  lemma {:induction false} RunsAlike(r: Rows, s: Rows, a: seq<Event>, b: seq<Event>)
    requires RowsOk(r) && RowsOk(s) && SameRows(r, s) && AllAlike(a, b)
    ensures Answers(r, a) == Answers(s, b)
    ensures SameRows(AfterAll(r, a), AfterAll(s, b))
    decreases |a|
  {
    if a != [] {
      var x, y := a[0], b[0];
      assert Alike(x, y);
      var r', s' := NextAlike(r, s, x, y);
      assert AllAlike(a[1..], b[1..]) by {
        assert forall i :: 0 <= i < |a| - 1 ==> a[1..][i] == a[i + 1] && b[1..][i] == b[i + 1];
      }
      RunsAlike(r', s', a[1..], b[1..]);
    }
  }

  lemma NextAlike(r: Rows, s: Rows, a: Event, b: Event) returns (r': Rows, s': Rows)
    requires RowsOk(r) && RowsOk(s) && SameRows(r, s) && Alike(a, b)
    ensures r' == Stored(r, a) && s' == Stored(s, b) && Judge(r, a) == Judge(s, b)
    ensures RowsOk(r') && RowsOk(s') && SameRows(r', s')
  {
    AppendAlike(r, s, a, b);
    StoredOk(r, a);
    StoredOk(s, b);
    r', s' := Stored(r, a), Stored(s, b);
  }

  /** The table holds the event's fact under its identifier. */
  ghost predicate Holds(rows: Rows, e: Event) {
    && ToRow(e).Success? && Canonicalize(e).Success? && ToRow(e).value.id in rows
    && SameFact(FromRow(rows[ToRow(e).value.id]), Canonicalize(e).value)
  }

  ghost predicate Keeps(rows: Rows, after: Rows) {
    forall k :: k in rows ==> k in after && after[k] == rows[k]
  }

  lemma HeldForGood(rows: Rows, after: Rows, e: Event)
    requires Holds(rows, e) && Keeps(rows, after)
    ensures Holds(after, e)
  {
  }

  /** Rows are never changed; every accepted event is found in the end as its canonical fact. */
  lemma {:induction false} RunKeepsFacts(rows: Rows, events: seq<Event>)
    requires RowsOk(rows)
    ensures RowsOk(AfterAll(rows, events)) && Keeps(rows, AfterAll(rows, events))
    ensures forall i :: 0 <= i < |events| && Accepted(Answers(rows, events)[i]) ==>
      Holds(AfterAll(rows, events), events[i])
    decreases |events|
  {
    if events != [] {
      var e := events[0];
      var next, after := Stored(rows, e), AfterAll(rows, events);
      StoredOk(rows, e);
      RunKeepsFacts(next, events[1..]);
      forall i | 0 <= i < |events| && Accepted(Answers(rows, events)[i]) ensures Holds(after, events[i]) {
        if i == 0 {
          AcceptedIsStored(rows, e);
          HeldForGood(next, after, e);
        } else {
          assert Accepted(Answers(next, events[1..])[i - 1]) && events[1..][i - 1] == events[i];
        }
      }
    }
  }

  lemma AcceptedIsStored(rows: Rows, e: Event)
    requires RowsOk(rows) && Accepted(Judge(rows, e))
    ensures Holds(Stored(rows, e), e)
  {
    RowRoundTrip(e);
    JudgeStored(rows, e);
    SafeItemsAreSelfSame(e.facts.parameters);
  }
}
