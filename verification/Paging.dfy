/** Reading the audit history page by page, newest first, while events keep arriving. */
module Paging {
  import opened Wrappers
  import A = AuditEvents

  type Id = nat

  datatype Event = Event(time: int, id: Id, action: string)

  datatype Cursor = Cursor(time: int, id: Id)

  datatype Scope = All | Operational

  datatype Page = Page(events: seq<Event>, next: Option<Cursor>)

  /** Ids are the primary key of the table. */
  ghost predicate Keyed(table: set<Event>) {
    forall a, b :: a in table && b in table && a.id == b.id ==> a == b
  }

  predicate StartsWith(s: string, prefix: string) { prefix <= s }

  predicate InScope(e: Event, scope: Scope) {
    match scope
    case All => true
    case Operational =>
      || e.action == "cockpit.command"
      || StartsWith(e.action, "cockpit.command.")
      || StartsWith(e.action, "risk.")
      || StartsWith(e.action, "recovery.")
  }

  predicate After(a: Event, b: Event) { a.time > b.time || (a.time == b.time && a.id > b.id) }

  predicate Below(e: Event, cursor: Option<Cursor>) {
    cursor.None? || e.time < cursor.value.time || (e.time == cursor.value.time && e.id < cursor.value.id)
  }

  function Selected(table: set<Event>, scope: Scope, cursor: Option<Cursor>): set<Event> {
    set e | e in table && InScope(e, scope) && Below(e, cursor)
  }

  lemma {:induction false} NewestExists(s: set<Event>)
    requires s != {} && Keyed(s)
    ensures exists m :: m in s && forall e :: e in s && e != m ==> After(m, e)
  {
    var x :| x in s;
    var rest := s - {x};
    if rest != {} {
      NewestExists(rest);
      var m :| m in rest && forall e :: e in rest && e != m ==> After(m, e);
      NewerOfTwo(s, x, m);
    } else {
      assert s == {x};
      assert forall e :: e in s && e != x ==> After(x, e);
    }
  }

  lemma NewerOfTwo(s: set<Event>, x: Event, m: Event)
    requires x in s && m in s && x.id != m.id
    requires forall e :: e in s && e != x && e != m ==> After(m, e)
    ensures exists n :: n in s && forall e :: e in s && e != n ==> After(n, e)
  {
    var n := if After(m, x) then m else x;
    assert n in s && forall e :: e in s && e != n ==> After(n, e);
  }

  ghost function Newest(s: set<Event>): (m: Event)
    requires s != {} && Keyed(s)
    ensures m in s && forall e :: e in s && e != m ==> After(m, e)
  {
    NewestExists(s);
    var m :| m in s && forall e :: e in s && e != m ==> After(m, e);
    m
  }

  /** The order the table is read in. */
  ghost function Descending(s: set<Event>): seq<Event>
    requires Keyed(s)
  {
    if s == {} then [] else [Newest(s)] + Descending(s - {Newest(s)})
  }

  ghost predicate Descends(events: seq<Event>) {
    forall i, j :: 0 <= i < j < |events| ==> After(events[i], events[j])
  }

  lemma {:induction false} DescendingOk(s: set<Event>)
    requires Keyed(s)
    ensures Descends(Descending(s)) && |Descending(s)| == |s|
    ensures forall e :: e in Descending(s) <==> e in s
  {
    if s != {} {
      DescendingOk(s - {Newest(s)});
    }
  }

  lemma HasElement(b: seq<Event>)
    requires b != []
    ensures exists e :: e in b
  {
    assert b[0] in b;
  }

  /** There is only one way to put a set of events in descending order. */
  lemma {:induction false} OrderIsUnique(a: seq<Event>, b: seq<Event>)
    requires Descends(a) && Descends(b) && forall e :: e in a <==> e in b
    ensures a == b
  {
    if a == [] {
      if b != [] {
        HasElement(b);
      }
    } else {
      assert a[0] in b && b[0] in a;
      assert a[0] == b[0];
      forall e ensures e in a[1..] <==> e in b[1..] {
        if e in a[1..] { assert e in b; }
        if e in b[1..] { assert e in a; }
      }
      OrderIsUnique(a[1..], b[1..]);
    }
  }

  /** One row more than asked for is read, to know whether there is another page. */
  ghost function ListPage(table: set<Event>, scope: Scope, cursor: Option<Cursor>, limit: nat): Page
    requires Keyed(table) && 1 <= limit <= 100
  {
    var sorted := Descending(Selected(table, scope, cursor));
    var rows := if |sorted| > limit + 1 then sorted[..limit + 1] else sorted;
    var events := if |rows| > limit then rows[..limit] else rows;
    Page(events,
         if |rows| > limit && events != [] then Some(Cursor(events[|events| - 1].time, events[|events| - 1].id))
           else None)
  }

  /**
     A page holds in order exactly the selected events down to its next cursor, or
     all of them; when there is a next cursor it is full and more is to come.
   */
  lemma PageOk(table: set<Event>, scope: Scope, cursor: Option<Cursor>, limit: nat)
    requires Keyed(table) && 1 <= limit <= 100
    ensures var page := ListPage(table, scope, cursor, limit);
      && Descends(page.events) && |page.events| <= limit
      && (forall e :: e in page.events <==>
            e in Selected(table, scope, cursor) && (page.next.Some? ==> !Below(e, page.next)))
      && (page.next.Some? ==> |page.events| == limit && Selected(table, scope, page.next) != {})
  {
    var selected := Selected(table, scope, cursor);
    var sorted := Descending(selected);
    var page := ListPage(table, scope, cursor, limit);
    DescendingOk(selected);
    if |sorted| > limit {
      FullPage(table, scope, cursor, limit, sorted);
    }
  }

  lemma FullPage(table: set<Event>, scope: Scope, cursor: Option<Cursor>, limit: nat, sorted: seq<Event>)
    requires Keyed(table) && 1 <= limit <= 100 && limit < |sorted| && Descends(sorted)
    requires sorted == Descending(Selected(table, scope, cursor))
    requires forall e :: e in sorted <==> e in Selected(table, scope, cursor)
    ensures var page := ListPage(table, scope, cursor, limit);
      && page.events == sorted[..limit] && page.next.Some?
      && (forall e :: e in page.events <==> e in sorted && !Below(e, page.next))
      && Selected(table, scope, page.next) != {}
  {
    var page := ListPage(table, scope, cursor, limit);
    CutOff(sorted, limit);
    var more := sorted[limit];
    assert more in sorted && Below(more, page.next);
    assert more in Selected(table, scope, page.next);
  }

  /** The last event before the cut separates what comes before from what comes after. */
  lemma CutOff(sorted: seq<Event>, limit: nat)
    requires Descends(sorted) && 1 <= limit < |sorted|
    ensures var cursor := Some(Cursor(sorted[limit - 1].time, sorted[limit - 1].id));
      && Below(sorted[limit], cursor)
      && forall e :: e in sorted[..limit] <==> e in sorted && !Below(e, cursor)
  {
    var last := sorted[limit - 1];
    var cursor := Some(Cursor(last.time, last.id));
    forall i | 0 <= i < |sorted| ensures Below(sorted[i], cursor) <==> i >= limit {
      assert i < limit - 1 ==> After(sorted[i], last);
      assert i >= limit ==> After(last, sorted[i]);
    }
    forall e | e in sorted && !Below(e, cursor) ensures e in sorted[..limit] {
      var i :| 0 <= i < |sorted| && sorted[i] == e;
      assert sorted[..limit][i] == e;
    }
  }

  datatype Fetch = Fetch(table: set<Event>, limit: nat, page: Page)

  /**
     Pages read one after the other from `cursor` on. The table may grow between
     two reads, and each read may use another limit.
   */
  ghost predicate IsScan(scope: Scope, cursor: Option<Cursor>, fetches: seq<Fetch>)
    decreases |fetches|
  {
    fetches == [] ||
    var f := fetches[0];
    && Keyed(f.table) && 1 <= f.limit <= 100
    && f.page == ListPage(f.table, scope, cursor, f.limit)
    && (|fetches| > 1 ==>
          && f.page.next.Some? && f.table <= fetches[1].table
          && IsScan(scope, f.page.next, fetches[1..]))
  }

  /** Nothing follows the last page. */
  predicate IsComplete(fetches: seq<Fetch>) {
    fetches != [] && fetches[|fetches| - 1].page.next.None?
  }

  function Read(fetches: seq<Fetch>): seq<Event> {
    if fetches == [] then [] else fetches[0].page.events + Read(fetches[1..])
  }

  /** What is read is strictly descending, so without repeats, in scope, and in the table at the end. */
  lemma {:induction false} ScanDescends(scope: Scope, cursor: Option<Cursor>, fetches: seq<Fetch>)
    requires IsScan(scope, cursor, fetches)
    ensures Descends(Read(fetches))
    ensures forall e :: e in Read(fetches) ==>
      Below(e, cursor) && InScope(e, scope) && e in fetches[|fetches| - 1].table
    decreases |fetches|
  {
    if fetches != [] {
      var f, rest := fetches[0], fetches[1..];
      PageOk(f.table, scope, cursor, f.limit);
      if rest != [] {
        ScanDescends(scope, f.page.next, rest);
        TableGrows(scope, cursor, fetches);
        assert rest[|rest| - 1] == fetches[|fetches| - 1];
        CursorGoesDown(f, scope, cursor);
        forall e, l | e in f.page.events && l in Read(rest) ensures After(e, l) {
          assert !Below(e, f.page.next) && Below(l, f.page.next);
        }
      } else {
        assert Read(fetches) == f.page.events;
      }
    }
  }

  lemma CursorGoesDown(f: Fetch, scope: Scope, cursor: Option<Cursor>)
    requires Keyed(f.table) && 1 <= f.limit <= 100
    requires f.page == ListPage(f.table, scope, cursor, f.limit) && f.page.next.Some?
    ensures forall e :: Below(e, f.page.next) ==> Below(e, cursor)
  {
    PageOk(f.table, scope, cursor, f.limit);
    var last := f.page.events[|f.page.events| - 1];
    assert last in f.page.events;
  }

  lemma {:induction false} TableGrows(scope: Scope, cursor: Option<Cursor>, fetches: seq<Fetch>)
    requires IsScan(scope, cursor, fetches) && fetches != []
    ensures forall k :: 0 <= k < |fetches| ==> fetches[0].table <= fetches[k].table
    decreases |fetches|
  {
    if |fetches| > 1 {
      TableGrows(scope, fetches[0].page.next, fetches[1..]);
      forall k | 0 < k < |fetches| ensures fetches[0].table <= fetches[k].table {
        assert fetches[k] == fetches[1..][k - 1];
      }
    }
  }

  /** A complete scan misses no event in scope that was there when it began. */
  lemma {:induction false} ScanMissesNothing(scope: Scope, cursor: Option<Cursor>, fetches: seq<Fetch>, e: Event)
    requires IsScan(scope, cursor, fetches) && IsComplete(fetches)
    requires e in Selected(fetches[0].table, scope, cursor)
    ensures e in Read(fetches)
    decreases |fetches|
  {
    var f, rest := fetches[0], fetches[1..];
    PageOk(f.table, scope, cursor, f.limit);
    if e !in f.page.events {
      assert Below(e, f.page.next) && rest != [];
      ScanMissesNothing(scope, f.page.next, rest, e);
    }
  }

  /** An event is read exactly when it is in the table as its own page is read. */
  lemma {:induction false} ReadWhenPresent(scope: Scope, cursor: Option<Cursor>, fetches: seq<Fetch>, k: nat, e: Event)
    requires IsScan(scope, cursor, fetches) && k < |fetches| && InScope(e, scope)
    requires Below(e, if k == 0 then cursor else fetches[k - 1].page.next)
    requires fetches[k].page.next.Some? ==> !Below(e, fetches[k].page.next)
    ensures e in Read(fetches) <==> e in fetches[k].table
    decreases |fetches|
  {
    var f, rest := fetches[0], fetches[1..];
    PageOk(f.table, scope, cursor, f.limit);
    if k == 0 {
      if rest != [] {
        ScanDescends(scope, f.page.next, rest);
      }
    } else {
      assert k > 1 ==> fetches[k - 1] == rest[k - 2];
      CursorsGoDown(scope, f.page.next, rest, k - 1, e);
      ReadWhenPresent(scope, f.page.next, rest, k - 1, e);
    }
  }

  lemma {:induction false} CursorsGoDown(scope: Scope, cursor: Option<Cursor>, fetches: seq<Fetch>, k: nat, e: Event)
    requires IsScan(scope, cursor, fetches) && k < |fetches|
    requires Below(e, if k == 0 then cursor else fetches[k - 1].page.next)
    ensures Below(e, cursor)
    decreases |fetches|
  {
    if k > 0 {
      assert k > 1 ==> fetches[k - 1] == fetches[1..][k - 2];
      CursorsGoDown(scope, fetches[0].page.next, fetches[1..], k - 1, e);
      CursorGoesDown(fetches[0], scope, cursor);
    }
  }

  /** Over a table that does not change, the pages put together are the whole sorted selection. */
  lemma ScanOfFixedTable(scope: Scope, cursor: Option<Cursor>, fetches: seq<Fetch>, table: set<Event>)
    requires IsScan(scope, cursor, fetches) && IsComplete(fetches)
    requires forall k :: 0 <= k < |fetches| ==> fetches[k].table == table
    ensures Keyed(table)
    ensures Read(fetches) == Descending(Selected(table, scope, cursor))
  {
    var selected := Selected(table, scope, cursor);
    ScanDescends(scope, cursor, fetches);
    DescendingOk(selected);
    forall e ensures e in Read(fetches) <==> e in Descending(selected) {
      if e in selected {
        ScanMissesNothing(scope, cursor, fetches, e);
      }
    }
    OrderIsUnique(Read(fetches), Descending(selected));
  }

  /** Such a scan cannot go on for ever: every page before the last one is full. */
  lemma {:induction false} ScanEnds(scope: Scope, cursor: Option<Cursor>, fetches: seq<Fetch>, table: set<Event>,
      limit: nat)
    requires IsScan(scope, cursor, fetches) && fetches != []
    requires forall k :: 0 <= k < |fetches| ==> fetches[k].table == table && fetches[k].limit == limit
    ensures (|fetches| - 1) * limit <= |Read(fetches)| <= |fetches| * limit
    decreases |fetches|
  {
    var f, rest := fetches[0], fetches[1..];
    PageSize(f, scope, cursor);
    if rest != [] {
      ScanEnds(scope, f.page.next, rest, table, limit);
      OneMore(|rest|, limit);
    } else {
      assert Read(rest) == [];
    }
  }

  lemma OneMore(n: nat, limit: nat)
    requires n >= 1
    ensures n * limit == limit + (n - 1) * limit && (n + 1) * limit == limit + n * limit
  {
  }

  lemma PageSize(f: Fetch, scope: Scope, cursor: Option<Cursor>)
    requires Keyed(f.table) && 1 <= f.limit <= 100 && f.page == ListPage(f.table, scope, cursor, f.limit)
    ensures |f.page.events| <= f.limit && (f.page.next.Some? ==> |f.page.events| == f.limit)
  {
    PageOk(f.table, scope, cursor, f.limit);
  }

  /** So the number of pages is bounded by the size of the table. */
  lemma ScanStops(scope: Scope, cursor: Option<Cursor>, fetches: seq<Fetch>, table: set<Event>, limit: nat)
    requires IsScan(scope, cursor, fetches) && fetches != []
    requires forall k :: 0 <= k < |fetches| ==> fetches[k].table == table && fetches[k].limit == limit
    ensures |fetches| - 1 <= (|fetches| - 1) * limit <= |table|
  {
    ScanEnds(scope, cursor, fetches, table, limit);
    ScanFits(scope, cursor, fetches, table);
    assert 1 <= fetches[0].limit;
    AtLeast(|fetches| - 1, limit);
  }

  lemma AtLeast(n: nat, limit: nat)
    requires limit >= 1
    ensures n <= n * limit
  {
  }

  /** A scan of a fixed table reads no more than the table holds. */
  lemma ScanFits(scope: Scope, cursor: Option<Cursor>, fetches: seq<Fetch>, table: set<Event>)
    requires IsScan(scope, cursor, fetches) && fetches != [] && fetches[|fetches| - 1].table == table
    ensures |Read(fetches)| <= |table|
  {
    ScanDescends(scope, cursor, fetches);
    DistinctFit(Read(fetches), table);
  }

  lemma {:induction false} DistinctFit(events: seq<Event>, table: set<Event>)
    requires Descends(events) && forall e :: e in events ==> e in table
    ensures |events| <= |table|
  {
    if events != [] {
      var rest := events[1..];
      forall e | e in rest ensures e in table - {events[0]} {
        assert After(events[0], e);
      }
      DistinctFit(rest, table - {events[0]});
    }
  }

  // ---- In plain terms ----

  /** Newest first, and of two events of one moment the one with the greater identifier. */
  lemma ScanIsNewestFirst(scope: Scope, cursor: Option<Cursor>, fetches: seq<Fetch>, i: nat, j: nat)
    requires IsScan(scope, cursor, fetches) && i < j < |Read(fetches)|
    ensures var e, f := Read(fetches)[i], Read(fetches)[j]; e.time > f.time || (e.time == f.time && e.id > f.id)
  {
    ScanDescends(scope, cursor, fetches);
  }

  /** A page goes on after the last event of the page before, whatever its limit. */
  lemma CursorIsLastEvent(table: set<Event>, scope: Scope, cursor: Option<Cursor>, limit: nat)
    requires Keyed(table) && 1 <= limit <= 100
    ensures var page := ListPage(table, scope, cursor, limit);
      page.next.Some? ==>
        && page.events != [] && page.next.value.time == page.events[|page.events| - 1].time
        && page.next.value.id == page.events[|page.events| - 1].id
  {
  }

  /** The operational view shows what is about commands, risks and recovery, by the words before a dot. */
  lemma OperationalExactly(e: Event)
    ensures InScope(e, All)
    ensures InScope(e, Operational) <==>
      || e.action == "cockpit.command"
      || (|e.action| >= 16 && e.action[..16] == "cockpit.command.")
      || (|e.action| >= 5 && e.action[..5] == "risk.")
      || (|e.action| >= 9 && e.action[..9] == "recovery.")
  {
  }

  /** Of the actions that are ever stored, it shows three; nothing about users and their sessions. */
  lemma OperationalActions(e: Event)
    requires e.action in A.Of(A.Actions)
    ensures InScope(e, Operational) <==> e.action in {"cockpit.command", "recovery.completed", "risk.detected"}
  {
    var i :| 0 <= i < |A.Of(A.Actions)| && A.Of(A.Actions)[i] == e.action;
    match i
    case 2 => assert e.action == "cockpit.command";
    case 3 => assert e.action == "recovery.completed" && e.action[..9] == "recovery.";
    case 4 => assert e.action == "risk.detected" && e.action[..5] == "risk.";
    case _ => assert e.action[0] in "asu";
  }
}
