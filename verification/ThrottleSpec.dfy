/**
 What the login throttle computes, on values: every queue is described as a
 filter of what was there before, without the loops that pop it.
 */
module ThrottleSpec {
  import opened Wrappers
  import opened Seqs

  /** A normalised user name and a client key. */
  type Key = (string, string)

  function Ceil(x: real): int { -((-x).Floor) }

  datatype Limits = Limits(maxFailures: int, window: real, lockout: real, maxEntries: int) {
    predicate Positive() {
      maxFailures > 0 && window > 0.0 && lockout > 0.0 && maxEntries > 0
    }
  }

  datatype Decision = Allowed | Denied(retryAfter: int)

  /** One entry's failure queue, oldest first, and its lock. */
  datatype Entry = Entry(failures: seq<real>, lockedUntil: Option<real>) {
    predicate Idle() { failures == [] && lockedUntil.None? }
  }

  /** The ordered dictionary: keys least recently touched first. */
  datatype Table = Table(order: seq<Key>, live: map<Key, Entry>) {
    ghost predicate Consistent() {
      NoDup(order) && forall k :: k in order <==> k in live
    }
  }

  const EMPTY := Table([], map[])

  /** The failures after `cutoff`. */
  function After(fs: seq<real>, cutoff: real): seq<real> {
    if fs == [] then []
    else if fs[0] > cutoff then [fs[0]] + After(fs[1..], cutoff)
    else After(fs[1..], cutoff)
  }

  function LiveLock(lock: Option<real>, now: real): Option<real> {
    if lock.Some? && lock.value <= now then None else lock
  }

  function TrimEntry(e: Entry, now: real, lim: Limits): Entry {
    Entry(After(e.failures, now - lim.window), LiveLock(e.lockedUntil, now))
  }

  function Survivors(live: map<Key, Entry>, now: real, lim: Limits): set<Key> {
    set k | k in live && !TrimEntry(live[k], now, lim).Idle()
  }

  function Trim(t: Table, now: real, lim: Limits): (r: Table)
    ensures forall k :: k in r.live ==> k in t.live && r.live[k] == TrimEntry(t.live[k], now, lim)
  {
    var s := Survivors(t.live, now, lim);
    Table(Keep(t.order, s), map k | k in s :: TrimEntry(t.live[k], now, lim))
  }

  /** The trim of a single key. */
  function TrimKeyTable(t: Table, k: Key, now: real, lim: Limits): Table
    requires k in t.live
  {
    var e := TrimEntry(t.live[k], now, lim);
    if e.Idle() then Table(Without(t.order, k), t.live - {k}) else t.(live := t.live[k := e])
  }

  ghost predicate Trimmed(e: Entry, now: real, lim: Limits) {
    !e.Idle() && TrimEntry(e, now, lim) == e
  }

  lemma TrimEntryTwice(e: Entry, now: real, lim: Limits)
    ensures TrimEntry(TrimEntry(e, now, lim), now, lim) == TrimEntry(e, now, lim)
  {
    AfterAfter(e.failures, now - lim.window, now - lim.window);
  }

  lemma TrimKeySurvivors(t: Table, k: Key, now: real, lim: Limits)
    requires k in t.live
    ensures Survivors(TrimKeyTable(t, k, now, lim).live, now, lim) == Survivors(t.live, now, lim)
  {
    TrimEntryTwice(t.live[k], now, lim);
  }

  /** Trimming one key first does not change what the whole trim leaves, and settles that key. */
  lemma TrimKeyFirst(t: Table, k: Key, now: real, lim: Limits)
    requires t.Consistent() && k in t.live
    ensures var t' := TrimKeyTable(t, k, now, lim);
      t'.Consistent() && Trim(t', now, lim) == Trim(t, now, lim)
      && (k in t'.live ==> Trimmed(t'.live[k], now, lim))
  {
    TrimKeyOrder(t, k, now, lim);
    TrimKeyLive(t, k, now, lim);
  }

  lemma TrimKeyOrder(t: Table, k: Key, now: real, lim: Limits)
    requires t.Consistent() && k in t.live
    ensures var t' := TrimKeyTable(t, k, now, lim);
      t'.Consistent() && Trim(t', now, lim).order == Trim(t, now, lim).order
  {
    TrimKeySurvivors(t, k, now, lim);
    if k !in TrimKeyTable(t, k, now, lim).live {
      WithoutNoDup(t.order, k);
      KeepWithout(t.order, k, Survivors(t.live, now, lim));
    }
  }

  lemma TrimKeyLive(t: Table, k: Key, now: real, lim: Limits)
    requires k in t.live
    ensures var t' := TrimKeyTable(t, k, now, lim);
      && Trim(t', now, lim).live == Trim(t, now, lim).live
      && (k in t'.live ==> Trimmed(t'.live[k], now, lim))
  {
    TrimEntryTwice(t.live[k], now, lim);
    TrimKeySurvivors(t, k, now, lim);
  }

  lemma TrimOfTrimmed(t: Table, now: real, lim: Limits)
    requires t.Consistent() && forall k :: k in t.live ==> Trimmed(t.live[k], now, lim)
    ensures Trim(t, now, lim) == t
  {
    assert Survivors(t.live, now, lim) == t.live.Keys;
    KeepAll(t.order, t.live.Keys);
  }

  function Verdict(lock: Option<real>, now: real): Decision {
    if lock.Some? && lock.value > now then Denied(Ceil(lock.value - now)) else Allowed
  }

  function CheckTable(t: Table, now: real, k: Key, lim: Limits): Table {
    var r := Trim(t, now, lim);
    if k in r.live then r.(order := MoveToEnd(r.order, k)) else r
  }

  function CheckVerdict(t: Table, now: real, k: Key, lim: Limits): Decision {
    var r := Trim(t, now, lim);
    if k in r.live then Verdict(r.live[k].lockedUntil, now) else Allowed
  }

  function AddFailure(e: Entry, now: real, lim: Limits): Entry {
    var fs := After(e.failures + [now], now - lim.window);
    if |fs| >= lim.maxFailures then Entry([], Some(now + lim.lockout)) else Entry(fs, e.lockedUntil)
  }

  function EntryOrNew(t: Table, k: Key): Entry {
    if k in t.live then t.live[k] else Entry([], None)
  }

  function Touched(t: Table, now: real, k: Key, lim: Limits): Table {
    Table(MoveToEnd(t.order, k), t.live[k := AddFailure(EntryOrNew(t, k), now, lim)])
  }

  /** The table just before the size bound is enforced. */
  function Failed(t: Table, now: real, k: Key, lim: Limits): Table {
    Touched(Trim(t, now, lim), now, k, lim)
  }

  /** Drops the `n` least recently touched keys. */
  function DropOldest(t: Table, n: nat): Table
    requires n <= |t.order|
  {
    Table(t.order[n..], t.live - Elements(t.order[..n]))
  }

  function Excess(t: Table, lim: Limits): (n: nat)
    requires lim.Positive()
    ensures n <= |t.order|
  {
    if |t.order| > lim.maxEntries then |t.order| - lim.maxEntries else 0
  }

  function FailTable(t: Table, now: real, k: Key, lim: Limits): Table
    requires lim.Positive()
  {
    var f := Failed(t, now, k, lim);
    DropOldest(f, Excess(f, lim))
  }

  function SuccessTable(t: Table, k: Key): Table {
    Table(Without(t.order, k), t.live - {k})
  }

  ghost predicate Sorted(fs: seq<real>) {
    forall i, j :: 0 <= i < j < |fs| ==> fs[i] <= fs[j]
  }

  /** What holds of every entry when the clock last showed `now`. */
  ghost predicate EntryOk(e: Entry, now: real, lim: Limits) {
    && Sorted(e.failures)
    && (forall f :: f in e.failures ==> now - lim.window < f <= now)
    && |e.failures| < lim.maxFailures
    && (e.lockedUntil.Some? ==> now < e.lockedUntil.value <= now + lim.lockout)
    && !e.Idle()
  }

  /** What every reachable table satisfies when the clock last showed `now`. */
  ghost predicate TableOk(t: Table, now: real, lim: Limits) {
    && t.Consistent()
    && |t.order| <= lim.maxEntries
    && forall k :: k in t.live ==> EntryOk(t.live[k], now, lim)
  }

  lemma AfterOfSorted(fs: seq<real>, cutoff: real)
    requires Sorted(fs)
    ensures Sorted(After(fs, cutoff)) && |After(fs, cutoff)| <= |fs|
    ensures forall f :: f in After(fs, cutoff) <==> f in fs && f > cutoff
    ensures fs != [] && fs[0] > cutoff ==> After(fs, cutoff) == fs
  {
    AfterElements(fs, cutoff);
    if fs != [] {
      AfterOfSorted(fs[1..], cutoff);
      if fs[0] > cutoff {
        AfterAll(fs, cutoff);
      }
    }
  }

  lemma AfterElements(fs: seq<real>, cutoff: real)
    ensures forall f :: f in After(fs, cutoff) <==> f in fs && f > cutoff
  {
    if fs != [] {
      AfterElements(fs[1..], cutoff);
    }
  }

  lemma AfterSnoc(fs: seq<real>, f: real, cutoff: real)
    ensures After(fs + [f], cutoff) == After(fs, cutoff) + (if f > cutoff then [f] else [])
  {
    if fs != [] {
      assert (fs + [f])[1..] == fs[1..] + [f];
      AfterSnoc(fs[1..], f, cutoff);
    }
  }

  lemma AfterAfter(fs: seq<real>, c1: real, c2: real)
    requires c1 <= c2
    ensures After(After(fs, c1), c2) == After(fs, c2)
  {
    if fs != [] {
      AfterAfter(fs[1..], c1, c2);
    }
  }

  lemma AfterAll(fs: seq<real>, cutoff: real)
    requires forall i :: 0 <= i < |fs| ==> fs[i] > cutoff
    ensures After(fs, cutoff) == fs
  {
    if fs != [] {
      AfterAll(fs[1..], cutoff);
    }
  }

  /** After a trim no expired lock is left and no entry is empty: the expired-lock branch of a check is dead. */
  lemma TrimOk(t: Table, was: real, now: real, lim: Limits)
    requires lim.Positive() && was <= now && TableOk(t, was, lim)
    ensures TableOk(Trim(t, now, lim), now, lim)
  {
    hide After;
    var s := Survivors(t.live, now, lim);
    KeepNoDup(t.order, s);
    forall k | k in s ensures EntryOk(Trim(t, now, lim).live[k], now, lim) {
      AfterOfSorted(t.live[k].failures, now - lim.window);
    }
  }

  lemma AppendedSorted(e: Entry, now: real, lim: Limits)
    requires e.Idle() || EntryOk(e, now, lim)
    ensures Sorted(e.failures + [now])
  {
    forall i | 0 <= i < |e.failures| ensures e.failures[i] <= now {
      assert e.failures[i] in e.failures;
    }
  }

  lemma CheckOk(t: Table, was: real, now: real, k: Key, lim: Limits)
    requires lim.Positive() && was <= now && TableOk(t, was, lim)
    ensures TableOk(CheckTable(t, now, k, lim), now, lim)
  {
    TrimOk(t, was, now, lim);
    WithoutNoDup(Trim(t, now, lim).order, k);
  }

  /** A denial's delay is at least one second and at most the lockout, rounded up. */
  lemma RetryAfterBounds(t: Table, was: real, now: real, k: Key, lim: Limits)
    requires lim.Positive() && was <= now && TableOk(t, was, lim)
    ensures CheckVerdict(t, now, k, lim).Denied? ==>
              1 <= CheckVerdict(t, now, k, lim).retryAfter <= Ceil(lim.lockout)
  {
    TrimOk(t, was, now, lim);
  }

  lemma AddFailureOk(e: Entry, now: real, lim: Limits)
    requires lim.Positive() && (e.Idle() || EntryOk(e, now, lim))
    ensures EntryOk(AddFailure(e, now, lim), now, lim)
  {
    AppendedSorted(e, now, lim);
    AppendedInWindow(e, now, lim);
    AfterAll(e.failures + [now], now - lim.window);
  }

  lemma AppendedInWindow(e: Entry, now: real, lim: Limits)
    requires lim.Positive() && (e.Idle() || EntryOk(e, now, lim))
    ensures forall i :: 0 <= i <= |e.failures| ==> now - lim.window < (e.failures + [now])[i] <= now
  {
    forall i | 0 <= i < |e.failures| ensures now - lim.window < e.failures[i] <= now {
      assert e.failures[i] in e.failures;
    }
  }

  lemma FailedOk(t: Table, was: real, now: real, k: Key, lim: Limits)
    requires lim.Positive() && was <= now && TableOk(t, was, lim)
    ensures var f := Failed(t, now, k, lim);
      f.Consistent() && |f.order| <= lim.maxEntries + 1 && f.order[|f.order| - 1] == k
      && forall x :: x in f.live ==> EntryOk(f.live[x], now, lim)
  {
    TrimOk(t, was, now, lim);
    var r := Trim(t, now, lim);
    WithoutNoDup(r.order, k);
    AddFailureOk(EntryOrNew(r, k), now, lim);
  }

  lemma DropOk(t: Table, n: nat)
    requires t.Consistent() && n <= |t.order|
    ensures DropOldest(t, n).Consistent()
    ensures forall k :: k in DropOldest(t, n).live <==> k in t.order[n..]
  {
    assert t.order == t.order[..n] + t.order[n..];
    forall k | k in t.order[..n] ensures k !in t.order[n..] {
      var i :| 0 <= i < n && t.order[i] == k;
    }
  }

  lemma FailOk(t: Table, was: real, now: real, k: Key, lim: Limits)
    requires lim.Positive() && was <= now && TableOk(t, was, lim)
    ensures TableOk(FailTable(t, now, k, lim), now, lim)
    ensures k in FailTable(t, now, k, lim).live
  {
    FailedOk(t, was, now, k, lim);
    var f := Failed(t, now, k, lim);
    var n := Excess(f, lim);
    DropOk(f, n);
    assert f.order[n..][|f.order| - 1 - n] == k;
  }

  lemma SuccessOk(t: Table, now: real, k: Key, lim: Limits)
    requires TableOk(t, now, lim)
    ensures TableOk(SuccessTable(t, k), now, lim)
  {
    WithoutNoDup(t.order, k);
  }
}
