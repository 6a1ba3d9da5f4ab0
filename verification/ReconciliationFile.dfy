/** Importing the fallback file and putting it away, with failures and crashes at every step. */
module ReconciliationFile {
  import opened Wrappers
  import opened AuditEvents
  import opened AuditStore
  import opened AuditIdentity
  import opened Reconciliation

  /** The table, the fallback file if it is there, and the archives made from it. */
  datatype State = State(rows: Rows, source: Option<seq<Event>>, archives: seq<seq<Event>>)

  datatype Outcome = Done(report: Report) | Refused(error: ReconcileError) | Failed | Crashed

  /** The file's events can be imported, and `a` is `b` after that. */
  ghost predicate ImportsFile(b: Rows, a: Rows, events: seq<Event>) {
    && PrepareAll(events).Some?
    && exists report :: ImportedBy(b, a, PrepareAll(events).value, report)
  }

  /** What one attempt can do, whatever goes wrong in it. */
  ghost predicate Attempt(b: State, a: State, dryRun: bool, outcome: Outcome) {
    && RowsOk(a.rows)
    && (a != b ==>
          && !dryRun && b.source.Some? && ImportsFile(b.rows, a.rows, b.source.value)
          && !outcome.Refused?
          && a.archives in {b.archives, b.archives + [b.source.value]}
          && (a.source == b.source || (a.source.None? && a.archives == b.archives + [b.source.value])))
    && (outcome.Done? ==>
          && b.source.Some? && PrepareAll(b.source.value).Some?
          && (!dryRun ==>
                && ImportedBy(b.rows, a.rows, PrepareAll(b.source.value).value, outcome.report)
                && a.source.None? && a.archives == b.archives + [b.source.value]))
  }

  class FileReconciler {
    const reconciler: Reconciler
    var source: Option<seq<Event>>
    var archives: seq<seq<Event>>
    var script: seq<End>  // how the steps to come end

    ghost function View(): State
      reads this, reconciler.table
    {
      State(reconciler.table.rows, source, archives)
    }

    constructor (reconciler: Reconciler, source: Option<seq<Event>>, script: seq<End>)
      ensures this.reconciler == reconciler && View() == State(reconciler.table.rows, source, [])
      ensures this.script == script
    {
      this.reconciler, this.source, this.script, archives := reconciler, source, script, [];
    }

    /** A step that may raise, or at which the process may end: as written in the script. */
    method Try() returns (end: End)
      modifies this`script
      ensures end == EndAt(old(script), 0) && script == Rest(old(script))
    {
      end := EndAt(script, 0);
      script := Rest(script);
    }

    /** The file is linked under a new name, then removed; the link is taken back when that fails. */
    method ArchiveAfterSuccess() returns (end: End)
      requires source.Some?
      modifies this
      ensures end == ArchiveEnd(old(script))
      ensures (source, archives) == Archived(old(source).value, old(archives), old(script))
    {
      end := Try();
      if !end.Finished? {
        return;
      }
      ghost var before := archives;
      archives := archives + [source.value];
      end := Try();
      if end.Finished? {
        source := None;
      } else if end.Raised? {
        var undone := Try();
        if undone.Finished? {
          archives := archives[..|archives| - 1];
          assert archives == before;
        } else {
          end := undone;
        }
      }
    }

    /** After the import: the file is archived, if it is still the same. */
    method PutAway() returns (end: End)
      requires source.Some?
      modifies this
      ensures end == PutAwayEnd(old(script))
      ensures archives in {old(archives), old(archives) + [old(source).value]}
      ensures source == old(source) || (source.None? && archives == old(archives) + [old(source).value])
      ensures end.Finished? ==> source.None?
    {
      end := Try();
      if end.Finished? {
        end := ArchiveAfterSuccess();
      }
    }

    /** Loads the file, imports it, checks that it is still the same, and puts it away. */
    method ReconcileFile(dryRun: bool, fuse: nat) returns (r: Outcome)
      requires RowsOk(reconciler.table.rows)
      modifies this, reconciler.table
      ensures Attempt(old(View()), View(), dryRun, r)
      ensures var begun := EndAt(old(script), 0);
        if !begun.Finished? || old(source).None? then r == (if begun.Died? then Crashed else Failed)
        else
          && (r.Refused? ==> !CanImport(old(View()).rows, old(source).value, dryRun, fuse))
          && (!r.Refused? ==> Tells(r, if dryRun then Finished else PutAwayEnd(Rest(old(script)))))
    {
      hide Consistent, Clashes, PutAwayEnd, AllAccepted, AfterAll, IsPrepared;
      var end := Try();
      if !end.Finished? || source.None? {
        return if end.Died? then Crashed else Failed;
      }
      var events := source.value;
      var report := reconciler.Reconcile(events, dryRun, fuse);
      if report.Failure? {
        assert !CanImport(old(View()).rows, events, dryRun, fuse) by {
          match report.error
          case BadEvent =>
          case BatchConflict =>
          case StoreConflict =>
          case StoreUnavailable =>
        }
        return Outcome.Refused(report.error);
      }
      if dryRun {
        return Done(report.value);
      }
      end := PutAway();
      r := match end case Finished => Done(report.value) case Raised => Failed case Died => Crashed;
    }

    /** Without a fault, a file that can be imported is imported and put away. */
    method ReconcileUndisturbed(fuse: nat) returns (r: Outcome)
      requires RowsOk(reconciler.table.rows) && source.Some? && (forall end :: end in script ==> end.Finished?)
      requires CanImport(reconciler.table.rows, source.value, false, fuse)
      modifies this, reconciler.table
      ensures r.Done? && source.None? && archives == old(archives) + [old(source).value]
      ensures ImportedBy(
        old(View()).rows, reconciler.table.rows, PrepareAll(old(source).value).value, r.report)
    {
      hide CanImport, ImportedBy;
      r := ReconcileFile(false, fuse);
    }
  }

  datatype End = Finished | Raised | Died

  /** Beyond the script everything works. */
  function EndAt(script: seq<End>, i: nat): End { if i < |script| then script[i] else Finished }

  function Rest(script: seq<End>): seq<End> { if script == [] then [] else script[1..] }

  /** How the archiving ends: a link, a removal, and another one when that raises. */
  function ArchiveEnd(script: seq<End>): End {
    if !EndAt(script, 0).Finished? then EndAt(script, 0)
    else if EndAt(script, 1).Raised? && !EndAt(script, 2).Finished? then EndAt(script, 2)
    else EndAt(script, 1)
  }

  /** The file and the archives then: with the link made, it stays unless it is taken back. */
  function Archived(events: seq<Event>, archives: seq<seq<Event>>, script: seq<End>):
    (Option<seq<Event>>, seq<seq<Event>>)
  {
    if !EndAt(script, 0).Finished? then (Some(events), archives)
    else if EndAt(script, 1).Raised? && EndAt(script, 2).Finished? then (Some(events), archives)
    else (if EndAt(script, 1).Finished? then None else Some(events), archives + [events])
  }

  /** The file is compared before it is archived. */
  function PutAwayEnd(script: seq<End>): End {
    if EndAt(script, 0).Finished? then ArchiveEnd(Rest(script)) else EndAt(script, 0)
  }

  /** A file that could not be removed is no archive, unless the link to it could not be taken back either. */
  lemma ArchiveLaw(events: seq<Event>, archives: seq<seq<Event>>, rest: seq<End>, bad: End)
    requires bad != Finished
    ensures Archived(events, archives, [bad] + rest) == (Some(events), archives) && ArchiveEnd([bad] + rest) == bad
    ensures
      && Archived(events, archives, [Finished, Finished] + rest) == (None, archives + [events])
      && ArchiveEnd([Finished, Finished] + rest) == Finished
    ensures
      && Archived(events, archives, [Finished, Raised, Finished] + rest) == (Some(events), archives)
      && ArchiveEnd([Finished, Raised, Finished] + rest) == Raised
    ensures
      && Archived(events, archives, [Finished, Raised, bad] + rest) == (Some(events), archives + [events])
      && ArchiveEnd([Finished, Raised, bad] + rest) == bad
    ensures
      && Archived(events, archives, [Finished, Died] + rest) == (Some(events), archives + [events])
      && ArchiveEnd([Finished, Died] + rest) == Died
  {
  }

  /** A file that has changed meanwhile is left alone. */
  lemma PutAwayLaw(rest: seq<End>, bad: End)
    requires bad != Finished
    ensures PutAwayEnd([bad] + rest) == bad && PutAwayEnd([Finished] + rest) == ArchiveEnd(rest)
  {
    assert Rest([Finished] + rest) == rest;
  }

  ghost predicate Tells(r: Outcome, end: End) {
    match end case Finished => r.Done? case Raised => r == Failed case Died => r == Crashed
  }

  /** Every event can be prepared, each identifier has one fact here and in the table, and the database answers. */
  ghost predicate CanImport(rows: Rows, events: seq<Event>, dryRun: bool, fuse: nat) {
    && PrepareAll(events).Some? && Consistent(PrepareAll(events).value)
    && (dryRun || (!Clashes(rows, PrepareAll(events).value) && fuse >= 2 * |events| + 1))
  }

  /** Attempts one after the other. */
  ghost predicate IsRun(states: seq<State>, dryRuns: seq<bool>, outcomes: seq<Outcome>) {
    && |states| == |outcomes| + 1 && |dryRuns| == |outcomes|
    && forall i :: 0 <= i < |outcomes| ==> Attempt(states[i], states[i + 1], dryRuns[i], outcomes[i])
  }

  /** The import happened at most once, and the file is only ever gone after it. */
  ghost predicate OnceAtMost(first: State, s: State) {
    && RowsOk(s.rows) && first.source.Some?
    && (s.source == first.source || (s.source.None? && first.source.value in s.archives))
    && (s.rows == first.rows || ImportsFile(first.rows, s.rows, first.source.value))
    && (s.source.None? ==> ImportsFile(first.rows, s.rows, first.source.value))
  }

  lemma ImportAgain(before: Rows, after: Rows, again: Rows, events: seq<Event>)
    requires RowsOk(before) && ImportsFile(before, after, events) && ImportsFile(after, again, events)
    ensures again == after
  {
    ImportTwice(before, PrepareAll(events).value);
  }

  lemma AttemptKeeps(first: State, b: State, a: State, dryRun: bool, outcome: Outcome)
    requires RowsOk(first.rows) && OnceAtMost(first, b) && Attempt(b, a, dryRun, outcome)
    ensures OnceAtMost(first, a)
  {
    if a != b && b.rows != first.rows {
      ImportAgain(first.rows, b.rows, a.rows, first.source.value);
    }
  }

  /**
     However many attempts fail or crash, at whatever step: the table is untouched
     or holds exactly the old rows and what was missing of the batch; the file is
     there, or it is archived and imported.
   */
  lemma {:induction false} ImportedOnce(states: seq<State>, dryRuns: seq<bool>, outcomes: seq<Outcome>, k: nat)
    requires IsRun(states, dryRuns, outcomes) && k < |states|
    requires RowsOk(states[0].rows) && states[0].source.Some?
    ensures OnceAtMost(states[0], states[k])
  {
    if k > 0 {
      ImportedOnce(states, dryRuns, outcomes, k - 1);
      AttemptKeeps(states[0], states[k - 1], states[k], dryRuns[k - 1], outcomes[k - 1]);
    }
  }

  /** The batch is in the table exactly once, and the file is archived. */
  ghost predicate FullyImported(first: State, last: State) {
    && first.source.Some? && PrepareAll(first.source.value).Some?
    && Consistent(PrepareAll(first.source.value).value)
    && AllAccepted(first.rows, PrepareAll(first.source.value).value)
    && last.rows == AfterAll(first.rows, PrepareAll(first.source.value).value)
    && last.source.None? && first.source.value in last.archives
  }

  lemma SuccessAfter(first: State, b: State, a: State, outcome: Outcome)
    requires RowsOk(first.rows) && OnceAtMost(first, b) && Attempt(b, a, false, outcome) && outcome.Done?
    ensures FullyImported(first, a)
    ensures AddsUp(outcome.report, |first.source.value|)
  {
    var events := first.source.value;
    assert ImportsFile(b.rows, a.rows, events);
    if b.rows != first.rows {
      ImportAgain(first.rows, b.rows, a.rows, events);
    }
  }

  predicate AddsUp(report: Report, count: nat) {
    report.imported + report.duplicates == report.validated == count
  }

  /** One real success after any attempts. */
  lemma SuccessImportsOnce(states: seq<State>, dryRuns: seq<bool>, outcomes: seq<Outcome>, report: Report)
    requires IsRun(states, dryRuns, outcomes) && outcomes != []
    requires RowsOk(states[0].rows) && states[0].source.Some?
    requires outcomes[|outcomes| - 1] == Done(report) && !dryRuns[|outcomes| - 1]
    ensures FullyImported(states[0], states[|outcomes|])
    ensures AddsUp(report, |states[0].source.value|)
  {
    var n := |outcomes| - 1;
    ImportedOnce(states, dryRuns, outcomes, n);
    SuccessAfter(states[0], states[n], states[n + 1], outcomes[n]);
  }
}
