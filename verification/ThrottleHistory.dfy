/**
 The throttle's answers read off the list of calls alone: which failures count,
 which of them lock a key, and how long a denial says to wait.
 */
module ThrottleHistory {
  import opened Wrappers
  import opened ThrottleSpec
  import opened ThrottleRuns

  predicate FailsAt(cs: seq<Call>, m: nat, k: Key) { m < |cs| && cs[m].Fail? && cs[m].key == k }

  /** Neither a success of the key nor a lock has cleared its failures from call `m` on, up to call `n`. */
  ghost predicate NotCleared(cs: seq<Call>, m: nat, n: nat, k: Key, lim: Limits)
    requires n <= |cs|
    decreases n, 0
  {
    forall j :: m <= j < n ==> cs[j] != Succeed(k) && !Locks(cs, j, k, lim)
  }

  /** The failures of the key that count at call `n`, itself included. */
  ghost function Counting(cs: seq<Call>, n: nat, k: Key, lim: Limits): set<nat>
    requires FailsAt(cs, n, k)
    decreases n, 1
  {
    set m | 0 <= m <= n && FailsAt(cs, m, k) && cs[m].now > cs[n].now - lim.window && NotCleared(cs, m, n, k, lim)
  }

  /** Call `n` locks the key: enough failures count. */
  ghost predicate Locks(cs: seq<Call>, n: nat, k: Key, lim: Limits)
    decreases n, 2
  {
    FailsAt(cs, n, k) && |Counting(cs, n, k, lim)| >= lim.maxFailures
  }

  /** The key was locked by call `n`, and nothing has cleared or replaced that lock. */
  ghost predicate LockStands(cs: seq<Call>, n: nat, k: Key, lim: Limits) {
    n < |cs| && Locks(cs, n, k, lim) && NotCleared(cs, n + 1, |cs|, k, lim)
  }

  // ---- Only the calls up to `n` matter ----

  lemma {:induction false} LocksOfPrefix(p: seq<Call>, c: Call, n: nat, k: Key, lim: Limits)
    requires n < |p|
    ensures Locks(p + [c], n, k, lim) <==> Locks(p, n, k, lim)
    decreases n
  {
    var cs := p + [c];
    if FailsAt(p, n, k) {
      forall m | 0 <= m <= n ensures NotCleared(cs, m, n, k, lim) <==> NotCleared(p, m, n, k, lim) {
        NotClearedOfPrefix(p, c, m, n, k, lim);
      }
      assert Counting(cs, n, k, lim) == Counting(p, n, k, lim);
    }
  }

  lemma {:induction false} NotClearedOfPrefix(p: seq<Call>, c: Call, m: nat, n: nat, k: Key, lim: Limits)
    requires n <= |p|
    ensures NotCleared(p + [c], m, n, k, lim) <==> NotCleared(p, m, n, k, lim)
    decreases n, 1
  {
    forall j | m <= j < n
      ensures (p + [c])[j] == p[j] && (Locks(p + [c], j, k, lim) <==> Locks(p, j, k, lim))
    {
      LocksOfPrefix(p, c, j, k, lim);
    }
  }

  lemma NotClearedMore(p: seq<Call>, c: Call, m: nat, k: Key, lim: Limits)
    requires m <= |p|
    ensures NotCleared(p + [c], m, |p| + 1, k, lim) <==>
      NotCleared(p, m, |p|, k, lim) && c != Succeed(k) && !Locks(p + [c], |p|, k, lim)
  {
    NotClearedOfPrefix(p, c, m, |p|, k, lim);
    assert (p + [c])[|p|] == c;
    if NotCleared(p + [c], m, |p|, k, lim) && c != Succeed(k) && !Locks(p + [c], |p|, k, lim) {
      forall j | m <= j < |p| + 1 ensures (p + [c])[j] != Succeed(k) && !Locks(p + [c], j, k, lim) {
      }
    }
  }

  // ---- The unpruned history is what the calls say ----

  /** Where the failures of the history come from. */
  ghost predicate Indexes(cs: seq<Call>, k: Key, lim: Limits, idx: seq<nat>, failures: seq<real>) {
    && |idx| == |failures|
    && (forall i, j :: 0 <= i < j < |idx| ==> idx[i] < idx[j])
    && (forall i :: 0 <= i < |idx| ==>
          FailsAt(cs, idx[i], k) && cs[idx[i]].now == failures[i] && NotCleared(cs, idx[i], |cs|, k, lim))
    && forall m: nat :: FailsAt(cs, m, k) && NotCleared(cs, m, |cs|, k, lim) ==> m in idx
  }

  ghost function LaterThan(idx: seq<nat>, failures: seq<real>, cutoff: real): set<nat>
    requires |idx| == |failures|
  {
    set i | 0 <= i < |idx| && failures[i] > cutoff :: idx[i]
  }

  lemma {:induction false} AfterCounts(idx: seq<nat>, failures: seq<real>, cutoff: real)
    requires |idx| == |failures| && forall i, j :: 0 <= i < j < |idx| ==> idx[i] < idx[j]
    ensures |After(failures, cutoff)| == |LaterThan(idx, failures, cutoff)|
  {
    if failures != [] {
      AfterCounts(idx[1..], failures[1..], cutoff);
      var rest := LaterThan(idx[1..], failures[1..], cutoff);
      assert idx[0] !in rest;
      assert LaterThan(idx, failures, cutoff) == rest + if failures[0] > cutoff then {idx[0]} else {} by {
        assert forall i :: 0 < i < |idx| ==> idx[i] == idx[1..][i - 1] && failures[i] == failures[1..][i - 1];
        assert forall i :: 0 <= i < |idx| - 1 ==> idx[1..][i] == idx[i + 1] && failures[1..][i] == failures[i + 1];
      }
    }
  }

  /** A failure locks by the calls exactly when it locks by the history. */
  lemma CountingCounts(p: seq<Call>, now: real, k: Key, lim: Limits, idx: seq<nat>, failures: seq<real>)
    requires Indexes(p, k, lim, idx, failures)
    ensures |Counting(p + [Fail(now, k)], |p|, k, lim)| == |After(failures + [now], now - lim.window)|
  {
    var cs := p + [Fail(now, k)];
    var all, times := idx + [|p|], failures + [now];
    forall i, j | 0 <= i < j < |all| ensures all[i] < all[j] {
    }
    AfterCounts(all, times, now - lim.window);
    forall m: nat | m <= |p| ensures NotCleared(cs, m, |p|, k, lim) <==> NotCleared(p, m, |p|, k, lim) {
      NotClearedOfPrefix(p, Fail(now, k), m, |p|, k, lim);
    }
    forall m: nat | m in Counting(cs, |p|, k, lim) ensures m in LaterThan(all, times, now - lim.window) {
      CountedIsLater(p, now, k, lim, idx, failures, m);
    }
    forall m | m in LaterThan(all, times, now - lim.window) ensures m in Counting(cs, |p|, k, lim) {
      var i :| 0 <= i < |all| && times[i] > now - lim.window && all[i] == m;
      assert i < |idx| ==> FailsAt(p, m, k);
    }
    assert Counting(cs, |p|, k, lim) == LaterThan(all, times, now - lim.window);
  }

  lemma CountedIsLater(
    p: seq<Call>, now: real, k: Key, lim: Limits, idx: seq<nat>, failures: seq<real>, m: nat)
    requires Indexes(p, k, lim, idx, failures) && m in Counting(p + [Fail(now, k)], |p|, k, lim)
    ensures m in LaterThan(idx + [|p|], failures + [now], now - lim.window)
  {
    var cs, all, times := p + [Fail(now, k)], idx + [|p|], failures + [now];
    NotClearedOfPrefix(p, Fail(now, k), m, |p|, k, lim);
    if m < |p| {
      assert cs[m] == p[m] && FailsAt(p, m, k);
      var i :| 0 <= i < |idx| && idx[i] == m;
      assert all[i] == m && times[i] == cs[m].now;
    } else {
      assert all[|idx|] == m && times[|idx|] == now;
    }
  }

  /** The lock of the history is the one that stands. */
  ghost predicate LockIs(cs: seq<Call>, k: Key, lim: Limits, lock: Option<real>) {
    match lock
    case Some(until) => exists n: nat :: LockStands(cs, n, k, lim) && until == cs[n].now + lim.lockout
    case None => forall n: nat :: !LockStands(cs, n, k, lim)
  }

  lemma {:induction false} HistoryIs(cs: seq<Call>, k: Key, lim: Limits) returns (idx: seq<nat>)
    ensures Indexes(cs, k, lim, idx, KeyHistory(cs, k, lim).failures)
    ensures LockIs(cs, k, lim, KeyHistory(cs, k, lim).lockedUntil)
  {
    if cs == [] {
      idx := [];
    } else {
      var p, c := cs[..|cs| - 1], cs[|cs| - 1];
      assert cs == p + [c];
      idx := HistoryIs(p, k, lim);
      idx := OneMoreIs(p, c, k, lim, idx, KeyHistory(p, k, lim));
    }
  }

  ghost predicate StillOpen(p: seq<Call>, c: Call, m: nat, k: Key, lim: Limits) {
    NotCleared(p + [c], m, |p + [c]|, k, lim) <==>
      NotCleared(p, m, |p|, k, lim) && c != Succeed(k) && !Locks(p + [c], |p|, k, lim)
  }

  /** What one more call does to locks and what clears them. */
  ghost predicate Steps(p: seq<Call>, c: Call, k: Key, lim: Limits) {
    && (forall m: nat :: m <= |p| ==> StillOpen(p, c, m, k, lim))
    && forall n :: 0 <= n < |p| ==> (Locks(p + [c], n, k, lim) <==> Locks(p, n, k, lim))
  }

  lemma StepsHold(p: seq<Call>, c: Call, k: Key, lim: Limits)
    ensures Steps(p, c, k, lim)
  {
    forall m: nat | m <= |p| ensures StillOpen(p, c, m, k, lim) {
      NotClearedMore(p, c, m, k, lim);
    }
    forall n | 0 <= n < |p| ensures Locks(p + [c], n, k, lim) <==> Locks(p, n, k, lim) {
      LocksOfPrefix(p, c, n, k, lim);
    }
  }

  lemma OneMoreIs(p: seq<Call>, c: Call, k: Key, lim: Limits, idx: seq<nat>, h: History) returns (idx': seq<nat>)
    requires Indexes(p, k, lim, idx, h.failures) && LockIs(p, k, lim, h.lockedUntil)
    ensures Indexes(p + [c], k, lim, idx', NextHistory(h, c, k, lim).failures)
    ensures LockIs(p + [c], k, lim, NextHistory(h, c, k, lim).lockedUntil)
  {
    hide Indexes, LockIs, Steps, NotCleared, Counting;
    StepsHold(p, c, k, lim);
    if c.Fail? && c.key == k {
      CountingCounts(p, c.now, k, lim, idx, h.failures);
    }
    if c == Succeed(k) || Locks(p + [c], |p|, k, lim) {
      idx' := [];
      AllCleared(p, c, k, lim);
    } else if c.Fail? && c.key == k {
      idx' := idx + [|p|];
      OneMoreIndex(p, c, k, lim, idx, h.failures);
    } else {
      idx' := idx;
      SameIndexes(p, c, k, lim, idx, h.failures);
    }
    LockMore(p, c, k, lim, h.lockedUntil);
  }

  lemma AllCleared(p: seq<Call>, c: Call, k: Key, lim: Limits)
    requires Steps(p, c, k, lim) && (c == Succeed(k) || Locks(p + [c], |p|, k, lim))
    ensures Indexes(p + [c], k, lim, [], [])
  {
    forall m: nat | m < |p + [c]| ensures !NotCleared(p + [c], m, |p + [c]|, k, lim) {
      assert StillOpen(p, c, m, k, lim);
    }
  }

  lemma SameIndexes(p: seq<Call>, c: Call, k: Key, lim: Limits, idx: seq<nat>, failures: seq<real>)
    requires Steps(p, c, k, lim) && Indexes(p, k, lim, idx, failures)
    requires c != Succeed(k) && !(c.Fail? && c.key == k)
    ensures Indexes(p + [c], k, lim, idx, failures)
  {
    forall m: nat | FailsAt(p + [c], m, k) && NotCleared(p + [c], m, |p + [c]|, k, lim) ensures m in idx {
      assert StillOpen(p, c, m, k, lim) && FailsAt(p, m, k);
    }
  }

  lemma OneMoreIndex(p: seq<Call>, c: Call, k: Key, lim: Limits, idx: seq<nat>, failures: seq<real>)
    requires Steps(p, c, k, lim) && Indexes(p, k, lim, idx, failures)
    requires c.Fail? && c.key == k && !Locks(p + [c], |p|, k, lim)
    ensures Indexes(p + [c], k, lim, idx + [|p|], failures + [c.now])
  {
    forall m: nat | FailsAt(p + [c], m, k) && NotCleared(p + [c], m, |p + [c]|, k, lim) ensures m in idx + [|p|] {
      assert StillOpen(p, c, m, k, lim);
      assert m < |p| ==> FailsAt(p, m, k);
    }
    forall i | 0 <= i < |idx| ensures FailsAt(p, idx[i], k) && NotCleared(p + [c], idx[i], |p + [c]|, k, lim) {
      assert StillOpen(p, c, idx[i], k, lim);
    }
    assert StillOpen(p, c, |p|, k, lim) && NotCleared(p, |p|, |p|, k, lim);
  }

  lemma StandsMore(p: seq<Call>, c: Call, n: nat, k: Key, lim: Limits)
    requires Steps(p, c, k, lim) && n < |p|
    ensures LockStands(p + [c], n, k, lim) <==>
      LockStands(p, n, k, lim) && c != Succeed(k) && !Locks(p + [c], |p|, k, lim)
  {
    hide Locks, NotCleared;
    assert StillOpen(p, c, n + 1, k, lim);
  }

  lemma LastStands(p: seq<Call>, c: Call, k: Key, lim: Limits)
    ensures LockStands(p + [c], |p|, k, lim) <==> Locks(p + [c], |p|, k, lim)
  {
  }

  lemma LockMore(p: seq<Call>, c: Call, k: Key, lim: Limits, lock: Option<real>)
    requires Steps(p, c, k, lim) && LockIs(p, k, lim, lock)
    ensures LockIs(p + [c], k, lim,
      if c == Succeed(k) then None
      else if Locks(p + [c], |p|, k, lim) then Some(c.now + lim.lockout)
      else lock)
  {
    hide Locks, NotCleared, Steps;
    var cs := p + [c];
    LastStands(p, c, k, lim);
    assert cs[|p|] == c;
    assert Locks(cs, |p|, k, lim) ==> c.Fail? by { LocksIsFailure(cs, |p|, k, lim); }
    forall n: nat | n < |p|
      ensures cs[n] == p[n]
      ensures LockStands(cs, n, k, lim) <==> LockStands(p, n, k, lim) && c != Succeed(k) && !Locks(cs, |p|, k, lim)
    {
      StandsMore(p, c, n, k, lim);
    }
    forall n: nat | LockStands(cs, n, k, lim) ensures n <= |p| {
    }
  }

  lemma LocksIsFailure(cs: seq<Call>, n: nat, k: Key, lim: Limits)
    ensures Locks(cs, n, k, lim) ==> FailsAt(cs, n, k)
  {
  }

  // ---- The answers ----

  /**
   A check of a key that was never evicted is denied exactly while a lock of the
   key stands and is not over, and the denial says how long it lasts, rounded up.
   */
  lemma DeniedExactly(cs: seq<Call>, k: Key, now: real, lim: Limits)
    requires lim.Positive() && Monotone(cs) && Clock(cs) <= now && NeverEvicted(cs, k, lim)
    ensures match CheckVerdict(Run(cs, lim), now, k, lim)
      case Denied(r) =>
        exists n: nat :: LockStands(cs, n, k, lim) && (r - 1) as real < cs[n].now + lim.lockout - now <= r as real
      case Allowed => forall n: nat :: LockStands(cs, n, k, lim) ==> cs[n].now + lim.lockout <= now
  {
    AgreesWithHistory(cs, k, now, lim);
    var idx := HistoryIs(cs, k, lim);
    OneLockStands(cs, k, lim);
  }

  lemma OneLockStands(cs: seq<Call>, k: Key, lim: Limits)
    ensures forall m: nat, n: nat :: LockStands(cs, m, k, lim) && LockStands(cs, n, k, lim) ==> m == n
  {
  }

  /** What a denial tells, of any table: the lock's own time, rounded up to whole seconds. */
  lemma DenialTells(t: Table, was: real, now: real, k: Key, lim: Limits)
    requires lim.Positive() && was <= now && TableOk(t, was, lim)
    ensures match CheckVerdict(t, now, k, lim)
      case Denied(r) =>
        && k in t.live && t.live[k].lockedUntil.Some?
        && (r - 1) as real < t.live[k].lockedUntil.value - now <= r as real
      case Allowed => k in t.live && t.live[k].lockedUntil.Some? ==> t.live[k].lockedUntil.value <= now
  {
  }

  /** Whoever waits as long as told is let in; whoever comes a second or more too early is not. */
  lemma WaitingPays(t: Table, was: real, now: real, k: Key, later: real, lim: Limits)
    requires lim.Positive() && was <= now <= later && TableOk(t, was, lim) && CheckVerdict(t, now, k, lim).Denied?
    ensures var r, t' := CheckVerdict(t, now, k, lim).retryAfter, CheckTable(t, now, k, lim);
      && TableOk(t', now, lim)
      && (later >= now + r as real ==> CheckVerdict(t', later, k, lim) == Allowed)
      && (later <= now + (r - 1) as real ==> CheckVerdict(t', later, k, lim).Denied?)
  {
    var t' := CheckTable(t, now, k, lim);
    CheckOk(t, was, now, k, lim);
    DenialTells(t, was, now, k, lim);
    DenialTells(t', now, later, k, lim);
    assert t'.live == Trim(t, now, lim).live;
  }
}
