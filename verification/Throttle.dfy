/** The login throttle: a bounded, pruned, in-place sliding-window counter per key. */
module Throttle {
  import opened Wrappers
  import opened Seqs
  import opened ThrottleSpec

  class LoginThrottle {
    const lim: Limits
    var order: seq<Key>            // least recently touched first
    var entries: map<Key, Entry>
    ghost var clock: real          // the last time read

    ghost function View(): Table
      reads this
    {
      Table(order, entries)
    }

    ghost predicate Valid()
      reads this
    {
      lim.Positive() && TableOk(View(), clock, lim)
    }

    constructor (lim: Limits)
      requires lim.Positive()
      ensures Valid() && View() == EMPTY && this.lim == lim
    {
      this.lim := lim;
      order, entries, clock := [], map[], 0.0;
    }

    /** Limits that are not all positive are refused. */
    static method Create(lim: Limits) returns (t: LoginThrottle?)
      ensures t != null <==> lim.Positive()
      ensures t != null ==> fresh(t) && t.Valid() && t.View() == EMPTY && t.lim == lim
    {
      if lim.maxFailures <= 0 || lim.window <= 0.0 || lim.lockout <= 0.0 || lim.maxEntries <= 0 {
        return null;
      }
      t := new LoginThrottle(lim);
    }

    /** Pops from the old end of a sorted queue, which filters it. */
    method DiscardExpiredFailures(queue: seq<real>, now: real) returns (failures: seq<real>)
      requires Sorted(queue)
      ensures failures == After(queue, now - lim.window)
    {
      var cutoff := now - lim.window;
      failures := queue;
      while failures != [] && failures[0] <= cutoff
        invariant Sorted(failures)
        invariant After(failures, cutoff) == After(queue, cutoff)
        decreases |failures|
      {
        failures := failures[1..];
      }
      AfterOfSorted(failures, cutoff);
    }

    method TrimKey(key: Key, now: real)
      requires key in entries && Sorted(entries[key].failures)
      modifies this`order, this`entries
      ensures View() == TrimKeyTable(old(View()), key, now, lim)
    {
      var failures := DiscardExpiredFailures(entries[key].failures, now);
      var lock := entries[key].lockedUntil;
      if lock.Some? && lock.value <= now {
        lock := None;
      }
      entries := entries[key := Entry(failures, lock)];
      if failures == [] && lock.None? {
        order := Without(order, key);
        entries := entries - {key};
      }
    }

    method TrimAll(now: real)
      requires View().Consistent() && forall k :: k in entries ==> Sorted(entries[k].failures)
      modifies this`order, this`entries
      ensures View() == Trim(old(View()), now, lim)
    {
      var keys := order;
      while keys != []
        invariant NoDup(keys) && View().Consistent()
        invariant Trim(View(), now, lim) == Trim(old(View()), now, lim)
        invariant forall k :: k in keys ==> k in entries && Sorted(entries[k].failures)
        invariant forall k :: k in entries ==> k in keys || Trimmed(entries[k], now, lim)
        decreases |keys|
      {
        var key := keys[0];
        TrimOne(key, now, keys[1..]);
        keys := keys[1..];
      }
      TrimOfTrimmed(View(), now, lim);
    }

    /** One key of the sweep; `rest` are those to come. */
    method TrimOne(key: Key, now: real, ghost rest: seq<Key>)
      requires View().Consistent() && key in entries && Sorted(entries[key].failures) && key !in rest
      requires forall k :: k in rest ==> k in entries && Sorted(entries[k].failures)
      requires forall k :: k in entries ==> k == key || k in rest || Trimmed(entries[k], now, lim)
      modifies this`order, this`entries
      ensures View().Consistent() && Trim(View(), now, lim) == Trim(old(View()), now, lim)
      ensures forall k :: k in rest ==> k in entries && Sorted(entries[k].failures)
      ensures forall k :: k in entries ==> k in rest || Trimmed(entries[k], now, lim)
    {
      TrimKey(key, now);
      TrimKeyFirst(old(View()), key, now, lim);
    }

    /** What every public call that reads the clock does first. */
    method TrimNow(now: real)
      requires Valid() && clock <= now
      modifies this
      ensures Valid() && clock == now
      ensures View() == Trim(old(View()), now, lim)
    {
      TrimOk(View(), clock, now, lim);
      TrimAll(now);
      clock := now;
    }

    method EntryCount(now: real) returns (n: nat)
      requires Valid() && clock <= now
      modifies this
      ensures Valid() && clock == now
      ensures View() == Trim(old(View()), now, lim)
      ensures n == |entries| <= lim.maxEntries
    {
      TrimNow(now);
      NoDupSize(order);
      assert Elements(order) == entries.Keys;
      n := |entries|;
    }

    method Check(now: real, key: Key) returns (d: Decision)
      requires Valid() && clock <= now
      modifies this
      ensures Valid() && clock == now
      ensures View() == CheckTable(old(View()), now, key, lim)
      ensures d == CheckVerdict(old(View()), now, key, lim)
      ensures d.Denied? ==> 1 <= d.retryAfter <= Ceil(lim.lockout)
      ensures d.Denied? ==>
        && key in old(View()).live && old(View()).live[key].lockedUntil.Some?
        && (d.retryAfter - 1) as real < old(View()).live[key].lockedUntil.value - now <= d.retryAfter as real
      ensures d.Allowed? && key in old(View()).live && old(View()).live[key].lockedUntil.Some? ==>
        old(View()).live[key].lockedUntil.value <= now
    {
      CheckOk(View(), clock, now, key, lim);
      RetryAfterBounds(View(), clock, now, key, lim);
      TrimNow(now);
      if key !in entries {
        return Allowed;
      }
      var entry := entries[key];
      order := MoveToEnd(order, key);
      if entry.lockedUntil.Some? && entry.lockedUntil.value > now {
        return Denied(Ceil(entry.lockedUntil.value - now));
      }
      if entry.lockedUntil.Some? {
        assert false;  // the trim has dropped every expired lock
      }
      d := Allowed;
    }

    method RecordFailure(now: real, key: Key)
      requires Valid() && clock <= now
      modifies this
      ensures Valid() && clock == now
      ensures View() == FailTable(old(View()), now, key, lim)
    {
      ghost var was, clock0 := View(), clock;
      TrimNow(now);
      FailTrimmed(key, now, was, clock0);
    }

    /** The failure itself, once the table is trimmed. */
    method FailTrimmed(key: Key, now: real, ghost was: Table, ghost before: real)
      requires lim.Positive() && before <= now && TableOk(was, before, lim)
      requires View() == Trim(was, now, lim) && TableOk(View(), now, lim)
      modifies this`order, this`entries
      ensures View() == FailTable(was, now, key, lim) && TableOk(View(), now, lim)
    {
      AppendedSorted(EntryOrNew(View(), key), now, lim);
      TouchAndEvict(key, now);
      FailOk(was, before, now, key, lim);
    }

    method TouchAndEvict(key: Key, now: real)
      requires lim.Positive() && Sorted(EntryOrNew(View(), key).failures + [now])
      modifies this`order, this`entries
      ensures View() == DropOldest(Touched(old(View()), now, key, lim),
        Excess(Touched(old(View()), now, key, lim), lim))
    {
      AppendFailure(key, now);
      EvictLru();
    }

    method AppendFailure(key: Key, now: real)
      requires Sorted(EntryOrNew(View(), key).failures + [now])
      modifies this`order, this`entries
      ensures View() == Touched(old(View()), now, key, lim)
    {
      if key !in entries {
        entries := entries[key := Entry([], None)];
      }
      order := MoveToEnd(order, key);
      var entry := entries[key];
      var failures := DiscardExpiredFailures(entry.failures + [now], now);
      if |failures| >= lim.maxFailures {
        entries := entries[key := Entry([], Some(now + lim.lockout))];
      } else {
        entries := entries[key := entry.(failures := failures)];
      }
    }

    method EvictLru()
      requires lim.Positive()
      modifies this`order, this`entries
      ensures View() == DropOldest(old(View()), Excess(old(View()), lim))
    {
      ghost var was := View();
      ghost var n := 0;
      while |order| > lim.maxEntries
        invariant n <= |was.order| && (n > 0 ==> |order| >= lim.maxEntries)
        invariant order == was.order[n..]
        invariant entries == was.live - Elements(was.order[..n])
        decreases |order|
      {
        var oldest := order[0];
        assert was.order[..n + 1] == was.order[..n] + [oldest];
        order := order[1..];
        entries := entries - {oldest};
        n := n + 1;
      }
    }

    method RecordSuccess(key: Key)
      requires Valid()
      modifies this
      ensures Valid() && clock == old(clock)
      ensures View() == SuccessTable(old(View()), key)
    {
      SuccessOk(View(), clock, key, lim);
      order := Without(order, key);
      entries := entries - {key};
    }
  }
}
