/**
 Whole runs of the login throttle: agreement with a model that never prunes,
 least-recently-touched order, and what eviction can and cannot reach.
 */
module ThrottleRuns {
  import opened Wrappers
  import opened Seqs
  import opened ThrottleSpec

  /** One public call. A success does not read the clock. */
  datatype Call =
    | Check(now: real, key: Key)
    | Fail(now: real, key: Key)
    | Succeed(key: Key)

  function TimeAfter(was: real, c: Call): real {
    if c.Succeed? then was else c.now
  }

  function Apply(t: Table, c: Call, lim: Limits): Table
    requires lim.Positive()
  {
    match c
    case Check(now, k) => CheckTable(t, now, k, lim)
    case Fail(now, k) => FailTable(t, now, k, lim)
    case Succeed(k) => SuccessTable(t, k)
  }

  function Run(cs: seq<Call>, lim: Limits): Table
    requires lim.Positive()
  {
    if cs == [] then EMPTY else Apply(Run(cs[..|cs| - 1], lim), cs[|cs| - 1], lim)
  }

  /** The last time read by `cs`. */
  function Clock(cs: seq<Call>): real {
    if cs == [] then 0.0 else TimeAfter(Clock(cs[..|cs| - 1]), cs[|cs| - 1])
  }

  /** The clock never goes back. */
  ghost predicate Monotone(cs: seq<Call>) {
    cs != [] ==>
      Monotone(cs[..|cs| - 1]) && Clock(cs[..|cs| - 1]) <= TimeAfter(Clock(cs[..|cs| - 1]), cs[|cs| - 1])
  }

  /** Every reachable table is well formed: sorted queues in the window, live locks, bounded size. */
  lemma {:induction false} ReachableOk(cs: seq<Call>, lim: Limits)
    requires lim.Positive() && Monotone(cs)
    ensures TableOk(Run(cs, lim), Clock(cs), lim)
  {
    if cs != [] {
      var p, c := cs[..|cs| - 1], cs[|cs| - 1];
      ReachableOk(p, lim);
      match c
      case Check(now, k) => CheckOk(Run(p, lim), Clock(p), now, k, lim);
      case Fail(now, k) => FailOk(Run(p, lim), Clock(p), now, k, lim);
      case Succeed(k) => SuccessOk(Run(p, lim), Clock(p), k, lim);
    }
  }

  // ---- Agreement with the unpruned history ----

  /** Per key: every failure since the last lock or success, and the last lock, never pruned. */
  datatype History = History(failures: seq<real>, lockedUntil: Option<real>)

  const FRESH := History([], None)

  function HistoryStep(h: History, c: Call, lim: Limits): History {
    match c
    case Check(_, _) => h
    case Succeed(_) => FRESH
    case Fail(now, _) =>
      var fs := h.failures + [now];
      if |After(fs, now - lim.window)| >= lim.maxFailures then History([], Some(now + lim.lockout))
      else History(fs, h.lockedUntil)
  }

  function NextHistory(h: History, c: Call, k: Key, lim: Limits): History {
    if c.key == k then HistoryStep(h, c, lim) else h
  }

  /** The history of `k` alone: calls on other keys play no part. */
  function KeyHistory(cs: seq<Call>, k: Key, lim: Limits): History {
    if cs == [] then FRESH
    else NextHistory(KeyHistory(cs[..|cs| - 1], k, lim), cs[|cs| - 1], k, lim)
  }

  /** Does the last call of `cs` push `k` out by the size bound? */
  ghost predicate Evicts(cs: seq<Call>, k: Key, lim: Limits)
    requires lim.Positive() && cs != []
  {
    var c := cs[|cs| - 1];
    c.Fail?
    && var f := Failed(Run(cs[..|cs| - 1], lim), c.now, c.key, lim);
    k in f.live && k !in Run(cs, lim).live
  }

  ghost predicate NeverEvicted(cs: seq<Call>, k: Key, lim: Limits)
    requires lim.Positive()
  {
    forall n :: 0 < n <= |cs| ==> !Evicts(cs[..n], k, lim)
  }

  /** A pruned entry holds exactly what is left of the history at `now`. */
  ghost predicate Agrees(t: Table, now: real, k: Key, h: History, lim: Limits) {
    EntryOrNew(t, k) == Entry(After(h.failures, now - lim.window), LiveLock(h.lockedUntil, now))
  }

  lemma TrimAgrees(t: Table, was: real, now: real, k: Key, h: History, lim: Limits)
    requires lim.Positive() && was <= now && Agrees(t, was, k, h, lim)
    ensures Agrees(Trim(t, now, lim), now, k, h, lim)
  {
    AfterAfter(h.failures, was - lim.window, now - lim.window);
  }

  lemma FailAgrees(t: Table, now: real, k: Key, h: History, lim: Limits)
    requires lim.Positive() && Agrees(t, now, k, h, lim)
    ensures Agrees(Touched(t, now, k, lim), now, k, HistoryStep(h, Fail(now, k), lim), lim)
  {
    var cut := now - lim.window;
    AfterSnoc(h.failures, now, cut);
    AfterSnoc(After(h.failures, cut), now, cut);
    AfterAfter(h.failures, cut, cut);
  }

  lemma FailStepAgrees(t: Table, was: real, now: real, j: Key, k: Key, h: History, lim: Limits)
    requires lim.Positive() && TableOk(t, was, lim) && was <= now && Agrees(t, was, k, h, lim)
    requires k in Failed(t, now, j, lim).live ==> k in FailTable(t, now, j, lim).live
    ensures Agrees(FailTable(t, now, j, lim), now, k, if j == k then HistoryStep(h, Fail(now, j), lim) else h, lim)
  {
    TrimAgrees(t, was, now, k, h, lim);
    if j == k {
      FailAgrees(Trim(t, now, lim), now, k, h, lim);
    }
    FailedOk(t, was, now, j, lim);
    var f := Failed(t, now, j, lim);
    DropOk(f, Excess(f, lim));
  }

  lemma StepAgrees(p: seq<Call>, c: Call, k: Key, lim: Limits)
    requires lim.Positive() && Monotone(p + [c]) && !Evicts(p + [c], k, lim)
    requires Agrees(Run(p, lim), Clock(p), k, KeyHistory(p, k, lim), lim)
    ensures Agrees(Run(p + [c], lim), Clock(p + [c]), k, KeyHistory(p + [c], k, lim), lim)
  {
    OneMoreCall(p, c, k, lim);
    if c.Fail? {
      NotPushedOut(p, c.now, c.key, k, lim);
    }
    ReachableOk(p, lim);
    ApplyAgrees(Run(p, lim), Clock(p), c, k, KeyHistory(p, k, lim), lim);
  }

  lemma OneMoreCall(p: seq<Call>, c: Call, k: Key, lim: Limits)
    requires lim.Positive() && Monotone(p + [c])
    ensures Run(p + [c], lim) == Apply(Run(p, lim), c, lim)
    ensures Monotone(p) && Clock(p) <= TimeAfter(Clock(p), c) == Clock(p + [c])
    ensures KeyHistory(p + [c], k, lim) == NextHistory(KeyHistory(p, k, lim), c, k, lim)
  {
    assert (p + [c])[..|p|] == p;
  }

  lemma ApplyAgrees(t: Table, was: real, c: Call, k: Key, h: History, lim: Limits)
    requires lim.Positive() && TableOk(t, was, lim) && was <= TimeAfter(was, c) && Agrees(t, was, k, h, lim)
    requires c.Fail? && k in Failed(t, c.now, c.key, lim).live ==> k in FailTable(t, c.now, c.key, lim).live
    ensures Agrees(Apply(t, c, lim), TimeAfter(was, c), k, NextHistory(h, c, k, lim), lim)
  {
    match c
    case Succeed(_) =>
    case Check(now, j) => TrimAgrees(t, was, now, k, h, lim);
    case Fail(now, j) => FailStepAgrees(t, was, now, j, k, h, lim);
  }

  lemma NotPushedOut(p: seq<Call>, now: real, j: Key, k: Key, lim: Limits)
    requires lim.Positive() && !Evicts(p + [Fail(now, j)], k, lim)
    ensures var t := Run(p, lim); k in Failed(t, now, j, lim).live ==> k in FailTable(t, now, j, lim).live
  {
    assert (p + [Fail(now, j)])[..|p|] == p;
  }

  /**
   The throttle's answer for a key that is never evicted is the answer of the
   full history of that key, whatever the calls on other keys.
   */
  lemma {:induction false} AgreesWithHistory(cs: seq<Call>, k: Key, now: real, lim: Limits)
    requires lim.Positive() && Monotone(cs) && Clock(cs) <= now && NeverEvicted(cs, k, lim)
    ensures Agrees(Run(cs, lim), Clock(cs), k, KeyHistory(cs, k, lim), lim)
    ensures CheckVerdict(Run(cs, lim), now, k, lim) == Verdict(KeyHistory(cs, k, lim).lockedUntil, now)
  {
    hide Agrees, CheckVerdict, Verdict, Evicts, Run, Monotone, Clock, KeyHistory, NextHistory;
    FreshAgrees(k, lim);
    if cs != [] {
      var p, c := cs[..|cs| - 1], cs[|cs| - 1];
      assert cs == p + [c] && cs[..|cs|] == cs;
      forall n | 0 < n <= |p| ensures !Evicts(p[..n], k, lim) {
        assert p[..n] == cs[..n];
      }
      OneMoreCall(p, c, k, lim);
      AgreesWithHistory(p, k, Clock(p), lim);
      StepAgrees(p, c, k, lim);
    }
    VerdictAgrees(Run(cs, lim), Clock(cs), now, k, KeyHistory(cs, k, lim), lim);
  }

  lemma FreshAgrees(k: Key, lim: Limits)
    requires lim.Positive()
    ensures Agrees(Run([], lim), Clock([]), k, KeyHistory([], k, lim), lim)
  {
  }

  lemma VerdictAgrees(t: Table, was: real, now: real, k: Key, h: History, lim: Limits)
    requires lim.Positive() && was <= now && Agrees(t, was, k, h, lim)
    ensures CheckVerdict(t, now, k, lim) == Verdict(h.lockedUntil, now)
  {
    TrimAgrees(t, was, now, k, h, lim);
  }

  // ---- Least-recently-touched order and eviction ----

  /** One past the position of the last check or failure on `k`; 0 when there is none. */
  function LastTouch(cs: seq<Call>, k: Key): (n: nat)
    ensures n <= |cs|
  {
    if cs == [] then 0
    else if !cs[|cs| - 1].Succeed? && cs[|cs| - 1].key == k then |cs|
    else LastTouch(cs[..|cs| - 1], k)
  }

  ghost predicate ByTouch(order: seq<Key>, cs: seq<Call>) {
    forall i, j :: 0 <= i < j < |order| ==> LastTouch(cs, order[i]) < LastTouch(cs, order[j])
  }

  lemma KeepByTouch(order: seq<Key>, keep: set<Key>, cs: seq<Call>)
    requires ByTouch(order, cs)
    ensures ByTouch(Keep(order, keep), cs)
  {
    if order != [] {
      KeepByTouch(order[1..], keep, cs);
      forall k | k in order[1..] ensures LastTouch(cs, order[0]) < LastTouch(cs, k) {
      }
    }
  }

  lemma WithoutByTouch(order: seq<Key>, x: Key, cs: seq<Call>)
    requires ByTouch(order, cs)
    ensures ByTouch(Without(order, x), cs)
  {
    if order != [] {
      WithoutByTouch(order[1..], x, cs);
      forall k | k in order[1..] ensures LastTouch(cs, order[0]) < LastTouch(cs, k) {
      }
    }
  }

  /** Appending a call that touches only `k`, and moving `k` to the end, keeps the order. */
  lemma TouchKeepsOrder(order: seq<Key>, p: seq<Call>, c: Call)
    requires ByTouch(order, p) && !c.Succeed?
    ensures ByTouch(MoveToEnd(order, c.key), p + [c])
    ensures c.key !in order ==> ByTouch(order, p + [c])
  {
    assert (p + [c])[..|p|] == p;
    WithoutByTouch(order, c.key, p);
    var w := Without(order, c.key);
    forall i | 0 <= i < |w| ensures w[i] != c.key && LastTouch(p + [c], w[i]) == LastTouch(p, w[i]) {
      assert w[i] in w;
    }
    forall i | 0 <= i < |order| && c.key !in order
      ensures LastTouch(p + [c], order[i]) == LastTouch(p, order[i]) {
      assert order[i] in order;
    }
  }

  /** The order of every reachable table is least recently touched first. */
  lemma {:induction false} OrderedByTouch(cs: seq<Call>, lim: Limits)
    requires lim.Positive() && Monotone(cs)
    ensures ByTouch(Run(cs, lim).order, cs)
  {
    if cs != [] {
      var p, c := cs[..|cs| - 1], cs[|cs| - 1];
      assert cs == p + [c];
      OrderedByTouch(p, lim);
      var t := Run(p, lim);
      match c
      case Succeed(k) =>
        WithoutByTouch(t.order, k, p);
        SuccessTouchesNothing(Without(t.order, k), p, c);
      case Check(now, k) =>
        var r := Trim(t, now, lim);
        ReachableOk(p, lim);
        TrimOk(t, Clock(p), now, lim);
        KeepByTouch(t.order, Survivors(t.live, now, lim), p);
        TouchKeepsOrder(r.order, p, c);
      case Fail(now, k) =>
        KeepByTouch(t.order, Survivors(t.live, now, lim), p);
        TouchKeepsOrder(Trim(t, now, lim).order, p, c);
    }
  }

  lemma SuccessTouchesNothing(order: seq<Key>, p: seq<Call>, c: Call)
    requires ByTouch(order, p) && c.Succeed?
    ensures ByTouch(order, p + [c])
  {
    assert (p + [c])[..|p|] == p;
  }

  lemma DroppedIsOld(f: Table, n: nat, k: Key) returns (i: nat)
    requires f.Consistent() && n < |f.order|
    requires k in f.live && k !in DropOldest(f, n).live
    ensures i < n && f.order[i] == k
  {
    DropOk(f, n);
    assert f.order == f.order[..n] + f.order[n..];
    i :| 0 <= i < n && f.order[..n][i] == k;
  }

  lemma DroppedFirst(f: Table, n: nat, k: Key, cs: seq<Call>)
    requires f.Consistent() && ByTouch(f.order, cs) && n < |f.order|
    requires k in f.live && k !in DropOldest(f, n).live
    ensures f.order[|f.order| - 1] != k
    ensures forall j :: j in DropOldest(f, n).live ==> LastTouch(cs, k) < LastTouch(cs, j)
  {
    var i := DroppedIsOld(f, n, k);
    DropOk(f, n);
    forall j | j in f.order[n..] ensures LastTouch(cs, k) < LastTouch(cs, j) {
      var m :| 0 <= m < |f.order[n..]| && f.order[n..][m] == j;
      assert f.order[n + m] == j;
    }
  }

  lemma KeptSize(f: Table, n: nat)
    requires f.Consistent() && n <= |f.order|
    ensures |DropOldest(f, n).live.Keys| == |f.order| - n
  {
    var r := DropOldest(f, n);
    DropOk(f, n);
    NoDupSize(r.order);
    assert Elements(r.order) == r.live.Keys;
  }

  /**
   A key is evicted only when `maxEntries` other keys remain, all touched after
   it; in particular the key just recorded stays.
   */
  lemma EvictedOnlyBehindOthers(cs: seq<Call>, k: Key, lim: Limits)
    requires lim.Positive() && cs != [] && Monotone(cs) && Evicts(cs, k, lim)
    ensures cs[|cs| - 1].key != k
    ensures |Run(cs, lim).live.Keys| == lim.maxEntries
    ensures forall j :: j in Run(cs, lim).live ==> LastTouch(cs, k) < LastTouch(cs, j)
  {
    hide Run, Clock, Monotone, KeyHistory, ByTouch, LastTouch, Failed;
    var p, c := cs[..|cs| - 1], cs[|cs| - 1];
    assert cs == p + [c];
    OneMoreCall(p, c, k, lim);
    var f := Failed(Run(p, lim), c.now, c.key, lim);
    FailedIsOrdered(p, c, lim);
    DroppedFirst(f, Excess(f, lim), k, cs);
    KeptSize(f, Excess(f, lim));
  }

  /** The table in which the size bound is enforced. */
  lemma FailedIsOrdered(p: seq<Call>, c: Call, lim: Limits)
    requires lim.Positive() && Monotone(p + [c]) && c.Fail?
    ensures var f := Failed(Run(p, lim), c.now, c.key, lim);
      && f.Consistent() && 0 < |f.order| <= lim.maxEntries + 1 && f.order[|f.order| - 1] == c.key
      && ByTouch(f.order, p + [c])
  {
    hide Run, Monotone, Clock, LastTouch;
    OneMoreCall(p, c, c.key, lim);
    ReachableOk(p, lim);
    FailedOk(Run(p, lim), Clock(p), c.now, c.key, lim);
    OrderedByTouch(p, lim);
    KeepByTouch(Run(p, lim).order, Survivors(Run(p, lim).live, c.now, lim), p);
    TouchKeepsOrder(Trim(Run(p, lim), c.now, lim).order, p, c);
  }

  /** The keys other than `k` that some call of `cs` is about. */
  function OtherKeys(cs: seq<Call>, k: Key): set<Key> {
    (set c | c in cs :: c.key) - {k}
  }

  lemma TouchedWithin(p: seq<Call>, q: seq<Call>, j: Key)
    requires LastTouch(p + q, j) > |p|
    ensures exists c :: c in q && c.key == j
    decreases |q|
  {
    var q' := q[..|q| - 1];
    assert (p + q)[..|p + q| - 1] == p + q';
    if (p + q)[|p + q| - 1].Succeed? || (p + q)[|p + q| - 1].key != j {
      TouchedWithin(p, q', j);
    } else {
      assert q[|q| - 1] in q;
    }
  }

  lemma TouchNeverFalls(p: seq<Call>, q: seq<Call>, k: Key)
    ensures LastTouch(p + q, k) >= LastTouch(p, k)
    decreases |q|
  {
    if q == [] {
      assert p + q == p;
    } else {
      assert (p + q)[..|p + q| - 1] == p + q[..|q| - 1];
      TouchNeverFalls(p, q[..|q| - 1], k);
    }
  }

  /** Fewer than `maxEntries` other keys cannot push out a key that was touched just before them. */
  lemma {:induction false} FewKeysCannotEvict(p: seq<Call>, q: seq<Call>, k: Key, lim: Limits)
    requires lim.Positive() && Monotone(p + q) && LastTouch(p, k) == |p|
    requires |OtherKeys(q, k)| < lim.maxEntries
    ensures q != [] ==> !Evicts(p + q, k, lim)
  {
    hide Run, Monotone, Clock, Evicts, LastTouch;
    if q != [] && Evicts(p + q, k, lim) {
      EvictedOnlyBehindOthers(p + q, k, lim);
      TouchNeverFalls(p, q, k);
      var live := Run(p + q, lim).live.Keys;
      forall j | j in live ensures j in OtherKeys(q, k) {
        TouchedWithin(p, q, j);
      }
      SubsetSize(live, OtherKeys(q, k));
    }
  }

  lemma SubsetSize<T>(a: set<T>, b: set<T>)
    requires a <= b
    ensures |a| <= |b|
  {
    if a != {} {
      var x :| x in a;
      SubsetSize(a - {x}, b - {x});
    }
  }

  lemma MonotonePrefix(cs: seq<Call>, n: nat)
    requires Monotone(cs) && n <= |cs|
    ensures Monotone(cs[..n]) && Clock(cs[..n]) <= Clock(cs)
    decreases |cs|
  {
    if n < |cs| {
      MonotonePrefix(cs[..|cs| - 1], n);
      assert cs[..|cs| - 1][..n] == cs[..n];
    } else {
      assert cs[..n] == cs;
    }
  }

  /** Without a success, a lock is only ever replaced by a later one. */
  lemma {:induction false} LockNeverFalls(p: seq<Call>, q: seq<Call>, k: Key, until: real, lim: Limits)
    requires lim.Positive() && Monotone(p + q) && Clock(p) <= Clock(p + q)
    requires Succeed(k) !in q
    requires KeyHistory(p, k, lim).lockedUntil == Some(until) && until <= Clock(p) + lim.lockout
    ensures KeyHistory(p + q, k, lim).lockedUntil.Some?
    ensures KeyHistory(p + q, k, lim).lockedUntil.value >= until
    decreases |q|
  {
    if q == [] {
      assert p + q == p;
    } else {
      var q' := q[..|q| - 1];
      assert (p + q)[..|p + q| - 1] == p + q' && (p + q)[|p + q| - 1] == q[|q| - 1];
      MonotonePrefix(p + q', |p|);
      assert (p + q')[..|p|] == p;
      LockNeverFalls(p, q', k, until, lim);
      MonotonePrefix(p + q, |p|);
    }
  }

  /** The key is in the table with a lock that ends no earlier than `until`. */
  predicate LockedOut(t: Table, k: Key, until: real) {
    k in t.live && t.live[k].lockedUntil.Some? && t.live[k].lockedUntil.value >= until
  }

  lemma TrimKeepsLock(t: Table, now: real, k: Key, until: real, lim: Limits)
    requires LockedOut(t, k, until) && now < until
    ensures LockedOut(Trim(t, now, lim), k, until)
  {
    assert TrimEntry(t.live[k], now, lim).lockedUntil == t.live[k].lockedUntil;
  }

  /** A failure on the key itself, or on another one that does not push it out. */
  lemma FailKeepsLock(t: Table, was: real, now: real, j: Key, k: Key, until: real, lim: Limits)
    requires lim.Positive() && TableOk(t, was, lim) && was <= now < until && LockedOut(t, k, until)
    requires k in Failed(t, now, j, lim).live ==> k in FailTable(t, now, j, lim).live
    ensures LockedOut(FailTable(t, now, j, lim), k, until)
  {
    TrimKeepsLock(t, now, k, until, lim);
    LockOfFailed(t, was, now, j, k, until, lim);
    var f := Failed(t, now, j, lim);
    FailedOk(t, was, now, j, lim);
    DropOk(f, Excess(f, lim));
  }

  lemma LockWithin(t: Table, was: real, now: real, k: Key, lim: Limits)
    requires TableOk(t, was, lim) && was <= now && k in t.live && t.live[k].lockedUntil.Some?
    ensures t.live[k].lockedUntil.value <= now + lim.lockout
  {
    assert EntryOk(t.live[k], was, lim);
  }

  lemma LockOfFailed(t: Table, was: real, now: real, j: Key, k: Key, until: real, lim: Limits)
    requires TableOk(t, was, lim) && was <= now < until && LockedOut(t, k, until)
      && LockedOut(Trim(t, now, lim), k, until)
    ensures LockedOut(Failed(t, now, j, lim), k, until)
  {
    LockWithin(t, was, now, k, lim);
  }

  /** Calls on fewer than `maxEntries` other keys, and no success for `k`, leave its lock in the table. */
  lemma {:induction false} LockHeld(p: seq<Call>, q: seq<Call>, k: Key, until: real, lim: Limits)
    requires lim.Positive() && Monotone(p + q) && Clock(p + q) < until
    requires LastTouch(p, k) == |p| && LockedOut(Run(p, lim), k, until)
    requires Succeed(k) !in q && |OtherKeys(q, k)| < lim.maxEntries
    ensures LockedOut(Run(p + q, lim), k, until)
    decreases |q|
  {
    if q == [] {
      assert p + q == p;
    } else {
      var q', c := q[..|q| - 1], q[|q| - 1];
      assert (p + q)[..|p + q| - 1] == p + q' && (p + q)[|p + q| - 1] == c;
      assert p + q == (p + q') + [c];
      assert Monotone(p + q') by {
        MonotonePrefix(p + q, |p + q'|);
        assert (p + q)[..|p + q'|] == p + q';
      }
      FewerOtherKeys(q, k);
      LockHeld(p, q', k, until, lim);
      assert !Evicts((p + q') + [c], k, lim) by { FewKeysCannotEvict(p, q, k, lim); }
      assert TableOk(Run(p + q', lim), Clock(p + q'), lim) by { ReachableOk(p + q', lim); }
      StepKeepsLock(p + q', c, k, until, lim);
    }
  }

  lemma FewerOtherKeys(q: seq<Call>, k: Key)
    requires q != []
    ensures |OtherKeys(q[..|q| - 1], k)| <= |OtherKeys(q, k)|
  {
    assert OtherKeys(q[..|q| - 1], k) <= OtherKeys(q, k);
    SubsetSize(OtherKeys(q[..|q| - 1], k), OtherKeys(q, k));
  }

  /** A failure that reaches the limit locks its key, whatever was there before. */
  lemma FailureLocks(p: seq<Call>, k: Key, at: real, lim: Limits)
    requires lim.Positive() && Monotone(p + [Fail(at, k)])
    requires |After(EntryOrNew(Trim(Run(p, lim), at, lim), k).failures + [at], at - lim.window)| >= lim.maxFailures
    ensures LastTouch(p + [Fail(at, k)], k) == |p| + 1
    ensures LockedOut(Run(p + [Fail(at, k)], lim), k, at + lim.lockout)
  {
    assert (p + [Fail(at, k)])[..|p|] == p;
    ReachableOk(p, lim);
    FailTableLocks(Run(p, lim), Clock(p), at, k, lim);
  }

  lemma FailTableLocks(t: Table, was: real, at: real, k: Key, lim: Limits)
    requires lim.Positive() && TableOk(t, was, lim) && was <= at
    requires |After(EntryOrNew(Trim(t, at, lim), k).failures + [at], at - lim.window)| >= lim.maxFailures
    ensures LockedOut(FailTable(t, at, k, lim), k, at + lim.lockout)
  {
    AddingLocks(t, at, k, lim);
    assert k in FailTable(t, at, k, lim).live by { FailOk(t, was, at, k, lim); }
    DropKeepsLock(Failed(t, at, k, lim), Excess(Failed(t, at, k, lim), lim), k, at + lim.lockout);
  }

  lemma AddingLocks(t: Table, at: real, k: Key, lim: Limits)
    requires |After(EntryOrNew(Trim(t, at, lim), k).failures + [at], at - lim.window)| >= lim.maxFailures
    ensures LockedOut(Failed(t, at, k, lim), k, at + lim.lockout)
  {
    TouchLocks(Trim(t, at, lim), at, k, lim);
  }

  lemma TouchLocks(t: Table, at: real, k: Key, lim: Limits)
    requires |After(EntryOrNew(t, k).failures + [at], at - lim.window)| >= lim.maxFailures
    ensures LockedOut(Touched(t, at, k, lim), k, at + lim.lockout)
  {
    EntryLocks(EntryOrNew(t, k), at, lim);
  }

  lemma EntryLocks(e: Entry, at: real, lim: Limits)
    requires |After(e.failures + [at], at - lim.window)| >= lim.maxFailures
    ensures AddFailure(e, at, lim).lockedUntil == Some(at + lim.lockout)
  {
  }

  lemma DropKeepsLock(t: Table, n: nat, k: Key, until: real)
    requires n <= |t.order| && LockedOut(t, k, until) && k in DropOldest(t, n).live
    ensures LockedOut(DropOldest(t, n), k, until)
  {
  }

  lemma StepKeepsLock(cs: seq<Call>, c: Call, k: Key, until: real, lim: Limits)
    requires lim.Positive() && TableOk(Run(cs, lim), Clock(cs), lim) && Clock(cs) <= TimeAfter(Clock(cs), c) < until
    requires LockedOut(Run(cs, lim), k, until) && c != Succeed(k) && !Evicts(cs + [c], k, lim)
    ensures LockedOut(Run(cs + [c], lim), k, until)
  {
    assert (cs + [c])[..|cs|] == cs;
    match c
    case Succeed(_) =>
    case Check(now, _) => TrimKeepsLock(Run(cs, lim), now, k, until, lim);
    case Fail(now, j) => FailKeepsLock(Run(cs, lim), Clock(cs), now, j, k, until, lim);
  }

  /**
   A key that is locked when it is touched is denied until the lock ends: no run
   of calls about fewer than `maxEntries` other keys, and no success for it, lets
   a check through before then. What happened to it earlier plays no part.
   */
  lemma LockoutSurvives(p: seq<Call>, q: seq<Call>, k: Key, until: real, now: real, lim: Limits)
    requires lim.Positive() && Monotone(p + q) && Clock(p + q) <= now < until
    requires LastTouch(p, k) == |p| && LockedOut(Run(p, lim), k, until)
    requires Succeed(k) !in q && |OtherKeys(q, k)| < lim.maxEntries
    ensures CheckVerdict(Run(p + q, lim), now, k, lim).Denied?
  {
    LockHeld(p, q, k, until, lim);
    TrimKeepsLock(Run(p + q, lim), now, k, until, lim);
  }
}
