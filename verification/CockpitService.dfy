/** The cockpit authority: one snapshot, its subscribers' one-slot queues and their endpoint counts. */
module CockpitService {
  import opened Wrappers
  import opened CockpitModel
  import opened Transitions

  datatype Envelope = Envelope(correlation: string, payload: Snapshot)

  /** A subscriber's queue of size one. `taken` is what its reader took last. */
  class SnapshotQueue {
    const endpoint: Endpoint
    var slot: Option<Envelope>
    ghost var taken: Option<Snapshot>

    constructor (endpoint: Endpoint)
      ensures this.endpoint == endpoint && slot.None? && taken.None?
    {
      this.endpoint := endpoint;
      slot, taken := None, None;
    }

    /** The reader is up to date, or will be with its next take. */
    ghost predicate Sees(s: Snapshot)
      reads this
    {
      match slot
      case Some(e) => e.payload == s
      case None => taken == Some(s)
    }

    method Take() returns (e: Envelope)
      requires slot.Some?
      modifies this
      ensures e == old(slot).value && slot.None? && taken == Some(e.payload)
    {
      e := slot.value;
      slot, taken := None, Some(slot.value.payload);
    }
  }

  ghost function QueuesOf(qs: set<SnapshotQueue>, e: Endpoint): set<SnapshotQueue> {
    set q | q in qs && q.endpoint == e
  }

  lemma OneMoreQueue(qs: set<SnapshotQueue>, q: SnapshotQueue, e: Endpoint)
    requires q !in qs
    ensures |QueuesOf(qs + {q}, e)| == |QueuesOf(qs, e)| + if e == q.endpoint then 1 else 0
  {
    assert QueuesOf(qs + {q}, e) == QueuesOf(qs, e) + if e == q.endpoint then {q} else {};
  }

  lemma OneQueueLess(qs: set<SnapshotQueue>, q: SnapshotQueue, e: Endpoint)
    ensures |QueuesOf(qs - {q}, e)| == |QueuesOf(qs, e)| - if q in qs && e == q.endpoint then 1 else 0
  {
    assert QueuesOf(qs - {q}, e) == QueuesOf(qs, e) - if q in qs && e == q.endpoint then {q} else {};
  }

  ghost predicate CountsOf(counts: map<Endpoint, nat>, qs: set<SnapshotQueue>) {
    counts.Keys == ENDPOINTS && forall e :: e in ENDPOINTS ==> counts[e] == |QueuesOf(qs, e)|
  }

  function OneLess(counts: map<Endpoint, nat>, endpoint: Endpoint): map<Endpoint, nat>
    requires endpoint in counts
  {
    counts[endpoint := if counts[endpoint] == 0 then 0 else counts[endpoint] - 1]
  }

  lemma LeavingCounts(counts: map<Endpoint, nat>, qs: set<SnapshotQueue>, endpoint: Endpoint, q: SnapshotQueue)
    requires CountsOf(counts, qs)
    ensures CountsOf(OneLess(counts, endpoint), qs - {q}) <==>
      if q in qs then q.endpoint == endpoint else counts[endpoint] == 0
    ensures q in qs && q.endpoint != endpoint ==>
      OneLess(counts, endpoint)[q.endpoint] == |QueuesOf(qs - {q}, q.endpoint)| + 1
  {
    forall e | e in ENDPOINTS
      ensures |QueuesOf(qs - {q}, e)| == |QueuesOf(qs, e)| - if q in qs && e == q.endpoint then 1 else 0
    {
      OneQueueLess(qs, q, e);
    }
    if q in qs {
      assert q in QueuesOf(qs, q.endpoint);
    }
  }

  class SnapshotBroker {
    var subscribers: set<SnapshotQueue>
    var counts: map<Endpoint, nat>

    constructor ()
      ensures subscribers == {} && Counted()
    {
      subscribers := {};
      counts := map e | e in ENDPOINTS :: 0;
    }

    ghost predicate Counted()
      reads this
    {
      CountsOf(counts, subscribers)
    }

    method Subscribe(endpoint: Endpoint) returns (queue: SnapshotQueue, first: bool)
      requires counts.Keys == ENDPOINTS
      modifies this
      ensures fresh(queue) && queue.endpoint == endpoint && queue.slot.None? && queue.taken.None?
      ensures subscribers == old(subscribers) + {queue}
      ensures counts == old(counts)[endpoint := old(counts)[endpoint] + 1]
      ensures first <==> old(counts)[endpoint] == 0
      ensures old(Counted()) ==> Counted()
    {
      ghost var was := subscribers;
      queue := new SnapshotQueue(endpoint);
      subscribers := subscribers + {queue};
      counts := counts[endpoint := counts[endpoint] + 1];
      first := counts[endpoint] == 1;
      forall e | e in ENDPOINTS
        ensures |QueuesOf(subscribers, e)| == |QueuesOf(was, e)| + if e == endpoint then 1 else 0
      {
        OneMoreQueue(was, queue, e);
      }
    }

    /**
     Counts stay right exactly when the queue is a live one of that endpoint, or has left and the count is
     zero. Under another endpoint's name its own endpoint is left with one too many.
     */
    method Unsubscribe(endpoint: Endpoint, queue: SnapshotQueue) returns (last: bool)
      requires counts.Keys == ENDPOINTS
      modifies this
      ensures subscribers == old(subscribers) - {queue}
      ensures counts == OneLess(old(counts), endpoint)
      ensures last <==> old(counts)[endpoint] == 1
      ensures old(Counted()) ==>
        (Counted() <==> if queue in old(subscribers) then queue.endpoint == endpoint else old(counts)[endpoint] == 0)
      ensures old(Counted()) && queue in old(subscribers) && queue.endpoint != endpoint ==>
        counts[queue.endpoint] == |QueuesOf(subscribers, queue.endpoint)| + 1
    {
      if CountsOf(counts, subscribers) {
        LeavingCounts(counts, subscribers, endpoint, queue);
      }
      subscribers := subscribers - {queue};
      if counts[endpoint] == 0 {
        assert counts == counts[endpoint := 0];
        return false;
      }
      counts := counts[endpoint := counts[endpoint] - 1];
      last := counts[endpoint] == 0;
    }

    /** Drops what a full queue still holds, then puts the new envelope. */
    method Publish(envelope: Envelope)
      modifies subscribers
      ensures forall q :: q in subscribers ==> q.slot == Some(envelope)
    {
      var left := subscribers;
      while left != {}
        invariant left <= subscribers
        invariant forall q :: q in subscribers - left ==> q.slot == Some(envelope)
        decreases left
      {
        var queue :| queue in left;
        if queue.slot.Some? {
          queue.slot := None;
        }
        queue.slot := Some(envelope);
        left := left - {queue};
      }
    }
  }

  /** Snapshots with one revision are one snapshot. */
  ghost predicate OnePerRevision(h: set<Snapshot>) {
    forall p, q :: p in h && q in h && p.revision == q.revision ==> p == q
  }

  /** Everything that was shown up to now, with `s` the newest. */
  ghost predicate LedBy(h: set<Snapshot>, s: Snapshot) {
    OnePerRevision(h) && s in h && forall p :: p in h ==> p.revision <= s.revision
  }

  function Touched(s: Snapshot, now: Time): Snapshot {
    s.(revision := s.revision + 1, timestamp := now)
  }

  function Marked(s: Snapshot, e: Endpoint, status: Freshness, now: Time): Snapshot {
    Touched(s.(connectivity := s.connectivity[e := Connection(status, now)]), now)
  }

  class CockpitService {
    const broker: SnapshotBroker
    var snapshot: Snapshot
    ghost var shown: set<Snapshot>  // returned or published so far, and the default

    constructor (sessionId: string, now: Time)
      ensures Valid() && fresh(broker) && broker.subscribers == {}
      ensures snapshot == CreateDefault(0, sessionId, now) && shown == {snapshot}
    {
      broker := new SnapshotBroker();
      snapshot := CreateDefault(0, sessionId, now);
      shown := {CreateDefault(0, sessionId, now)};
      new;
      assert forall e :: e in ENDPOINTS ==> QueuesOf(broker.subscribers, e) == {};
    }

    /** An endpoint is fresh exactly while it has a live queue. */
    ghost predicate ConnectivityRight()
      reads this, broker
    {
      snapshot.connectivity.Keys == ENDPOINTS && broker.counts.Keys == ENDPOINTS
      && forall e :: e in ENDPOINTS ==>
           snapshot.connectivity[e].status == if broker.counts[e] > 0 then Fresh else Offline
    }

    ghost predicate Delivered()
      reads broker, broker.subscribers, this`snapshot
    {
      forall q :: q in broker.subscribers ==> q.Sees(snapshot)
    }

    ghost predicate Settled()
      reads this, broker, broker.subscribers
    {
      Coherent(snapshot) && LedBy(shown, snapshot) && ConnectivityRight() && Delivered()
    }

    ghost predicate Valid()
      reads this, broker, broker.subscribers
    {
      Settled() && broker.Counted()
    }

    method GetSnapshot() returns (s: Snapshot)
      requires Valid()
      ensures s == snapshot && s in shown
    {
      s := snapshot;
    }

    method SetConnection(endpoint: Endpoint, status: Freshness, now: Time)
      modifies this`snapshot
      ensures snapshot ==
        old(snapshot).(connectivity := old(snapshot).connectivity[endpoint := Connection(status, now)])
    {
      snapshot := snapshot.(connectivity := snapshot.connectivity[endpoint := Connection(status, now)]);
    }

    method Touch(now: Time)
      modifies this`snapshot
      ensures snapshot == Touched(old(snapshot), now)
    {
      snapshot := snapshot.(revision := snapshot.revision + 1);
      snapshot := snapshot.(timestamp := now);
    }

    /** Connectivity is right but perhaps for one endpoint, which is `status` by its count. */
    ghost predicate RightBut(e: Endpoint, status: Freshness)
      reads this, broker
    {
      snapshot.connectivity.Keys == ENDPOINTS && broker.counts.Keys == ENDPOINTS
      && e in ENDPOINTS && status == (if broker.counts[e] > 0 then Fresh else Offline)
      && forall x :: x in ENDPOINTS && x != e ==>
           snapshot.connectivity[x].status == if broker.counts[x] > 0 then Fresh else Offline
    }

    /** An endpoint comes or goes: the snapshot says so and moves on. */
    method MarkEndpoint(endpoint: Endpoint, status: Freshness, now: Time)
      requires Coherent(snapshot) && LedBy(shown, snapshot)
      modifies this`snapshot
      ensures old(RightBut(endpoint, status)) ==> ConnectivityRight()
      ensures snapshot == Marked(old(snapshot), endpoint, status, now)
      ensures Coherent(snapshot) && LedBy(shown + {snapshot}, snapshot)
    {
      SetConnection(endpoint, status, now);
      Touch(now);
      CoherentFrame(old(snapshot), snapshot);
      LedByNext(shown, old(snapshot), snapshot);
    }

    /** After a reset the new aggregate takes its connectivity from the live counts. */
    method RebuildConnectivity(now: Time)
      requires snapshot.connectivity.Keys == ENDPOINTS && broker.counts.Keys == ENDPOINTS
      modifies this`snapshot
      ensures ConnectivityRight() && forall e :: e in ENDPOINTS ==> snapshot.connectivity[e].lastSeenAt == now
      ensures snapshot == old(snapshot).(connectivity := snapshot.connectivity)
    {
      var left := ENDPOINTS;
      while left != {}
        invariant left <= ENDPOINTS && snapshot == old(snapshot).(connectivity := snapshot.connectivity)
        invariant snapshot.connectivity.Keys == ENDPOINTS
        invariant forall e :: e in ENDPOINTS - left ==>
          snapshot.connectivity[e] == Connection(if broker.counts[e] > 0 then Fresh else Offline, now)
        decreases left
      {
        var e :| e in left;
        SetConnection(e, if broker.counts[e] > 0 then Fresh else Offline, now);
        left := left - {e};
      }
    }

    method PublishCurrent(correlation: string)
      modifies this`shown, broker.subscribers
      ensures shown == old(shown) + {snapshot} && Delivered()
      ensures forall q :: q in broker.subscribers ==> q.slot == Some(Envelope(correlation, snapshot))
    {
      broker.Publish(Envelope(correlation, snapshot));
      shown := shown + {snapshot};
    }

    /** Installs a changed candidate as the next revision. */
    method Install(candidate: Snapshot, reset: bool, now: Time)
      requires Coherent(candidate) && candidate.revision == snapshot.revision && LedBy(shown, snapshot)
      requires ConnectivityRight()
      requires !reset ==> candidate.connectivity == snapshot.connectivity
      modifies this`snapshot
      ensures Coherent(snapshot) && LedBy(shown + {snapshot}, snapshot) && ConnectivityRight()
      ensures snapshot == Touched(candidate, now).(connectivity := snapshot.connectivity)
      ensures if reset then forall e :: e in ENDPOINTS ==> snapshot.connectivity[e].lastSeenAt == now
        else snapshot.connectivity == old(snapshot).connectivity
    {
      ghost var was := snapshot;
      snapshot := candidate;
      if reset {
        RebuildConnectivity(now);
      }
      Touch(now);
      CoherentFrame(candidate, snapshot);
      LedByNext(shown, was, snapshot);
    }

    /** A rejected or idle command shows the snapshot as it is; any other moves it on by one revision. */
    method ApplyCommand(c: Command, permitted: bool, u: Supply, now: Time) returns (r: Result<Envelope, Rejection>)
      requires Valid()
      modifies this, broker.subscribers
      ensures Valid() && broker.subscribers == old(broker.subscribers)
      ensures var out := if permitted then Transition(old(snapshot), c, u) else Rejected(CommandForbidden);
        match out
        case Rejected(why) => r == Failure(why) && snapshot == old(snapshot) && shown == old(shown)
        case Same => r == Success(Envelope(c.correlationId, snapshot)) && snapshot == old(snapshot)
          && shown == old(shown)
        case Changed(s, reset) =>
          && r == Success(Envelope(c.correlationId, snapshot))
          && snapshot == s.(revision := old(snapshot).revision + 1, timestamp := now,
                            connectivity := snapshot.connectivity)
          && (if reset then forall e :: e in ENDPOINTS ==> snapshot.connectivity[e].lastSeenAt == now
              else snapshot.connectivity == old(snapshot).connectivity)
          && shown == old(shown) + {snapshot}
          && forall q :: q in broker.subscribers ==> q.slot == Some(Envelope(c.correlationId, snapshot))
    {
      if !permitted {
        return Failure(CommandForbidden);
      }
      ghost var was := snapshot;
      var out := Apply(snapshot, c, u);
      if out.Rejected? {
        return Failure(out.why);
      }
      if out.Changed? {
        assert Coherent(out.snapshot) by {
          TransitionCoherent(was, c, u);
        }
        TransitionFrame(was, c, u);
        Install(out.snapshot, out.reset, now);
        PublishCurrent(c.correlationId);
      }
      r := Success(Envelope(c.correlationId, snapshot));
    }

    /** Marks the endpoint if its first reader came or its last one went, and tells every reader. */
    method Announce(endpoint: Endpoint, status: Freshness, mark: bool, correlation: string, now: Time)
      requires Coherent(snapshot) && LedBy(shown, snapshot)
      requires RightBut(endpoint, status) && (!mark ==> ConnectivityRight())
      modifies this, broker.subscribers
      ensures Settled() && broker.subscribers == old(broker.subscribers)
      ensures snapshot == if mark then Marked(old(snapshot), endpoint, status, now) else old(snapshot)
      ensures shown == old(shown) + {snapshot}
      ensures forall q :: q in broker.subscribers ==> q.slot == Some(Envelope(correlation, snapshot))
    {
      if mark {
        MarkEndpoint(endpoint, status, now);
      }
      PublishCurrent(correlation);
    }

    method ConnectEndpoint(endpoint: Endpoint, correlation: string, now: Time) returns (queue: SnapshotQueue)
      requires Valid()
      modifies this, broker, broker.subscribers
      ensures Valid() && fresh(queue) && broker.subscribers == old(broker.subscribers) + {queue}
      ensures queue.endpoint == endpoint && queue.slot == Some(Envelope(correlation, snapshot))
      ensures snapshot ==
        if old(broker.counts)[endpoint] > 0 then old(snapshot)
        else old(snapshot).(revision := old(snapshot).revision + 1, timestamp := now,
               connectivity := old(snapshot).connectivity[endpoint := Connection(Fresh, now)])
      ensures forall q :: q in broker.subscribers ==> q.slot == Some(Envelope(correlation, snapshot))
      ensures shown == old(shown) + {snapshot}
    {
      var first;
      queue, first := broker.Subscribe(endpoint);
      Announce(endpoint, Fresh, first, correlation, now);
    }

    /** The disconnect fits what is connected. */
    ghost predicate LeavesCleanly(
      endpoint: Endpoint, queue: SnapshotQueue, subscribers: set<SnapshotQueue>, counts: map<Endpoint, nat>)
      requires endpoint in counts
    {
      if queue in subscribers then queue.endpoint == endpoint else counts[endpoint] == 0
    }

    method Leave(endpoint: Endpoint, queue: SnapshotQueue) returns (last: bool)
      requires broker.Counted() && ConnectivityRight()
      modifies broker
      ensures broker.subscribers == old(broker.subscribers) - {queue}
      ensures last <==> old(broker.counts)[endpoint] == 1
      ensures if last then RightBut(endpoint, Offline) else ConnectivityRight()
      ensures broker.Counted() <==> LeavesCleanly(endpoint, queue, old(broker.subscribers), old(broker.counts))
    {
      last := broker.Unsubscribe(endpoint, queue);
    }

    /**
     A reader disconnects. The endpoint goes offline with its last queue, and
     the others are told. The counts stay those of the live queues exactly when
     the queue is a live one of that endpoint, as it is if each connect has at
     most one disconnect, or has left already and the count is zero.
     */
    method DisconnectEndpoint(endpoint: Endpoint, queue: SnapshotQueue, correlation: string, now: Time)
      requires Valid()
      modifies this, broker, broker.subscribers
      ensures Settled() && broker.subscribers == old(broker.subscribers) - {queue}
      ensures Valid() <==> LeavesCleanly(endpoint, queue, old(broker.subscribers), old(broker.counts))
      ensures snapshot ==
        if old(broker.counts)[endpoint] != 1 then old(snapshot)
        else old(snapshot).(revision := old(snapshot).revision + 1, timestamp := now,
               connectivity := old(snapshot).connectivity[endpoint := Connection(Offline, now)])
      ensures forall q :: q in broker.subscribers ==>
        q.slot == if old(broker.counts)[endpoint] == 1 then Some(Envelope(correlation, snapshot)) else old(q.slot)
      ensures shown == old(shown) + {snapshot}
    {
      var last := Leave(endpoint, queue);
      if last {
        Announce(endpoint, Offline, true, correlation, now);
      }
    }

    /** A reader takes what waits for it: always the current snapshot. */
    method TakeFrom(queue: SnapshotQueue) returns (e: Envelope)
      requires Valid() && queue in broker.subscribers && queue.slot.Some?
      modifies queue
      ensures Valid() && e.payload == snapshot && queue.slot.None?
    {
      e := queue.Take();
    }
  }

  lemma CoherentFrame(s: Snapshot, s': Snapshot)
    requires Coherent(s) && s'.connectivity.Keys == ENDPOINTS
    requires s' == s.(revision := s'.revision, timestamp := s'.timestamp, connectivity := s'.connectivity)
    ensures Coherent(s')
  {
  }

  lemma LedByNext(h: set<Snapshot>, s: Snapshot, s': Snapshot)
    requires LedBy(h, s) && s'.revision == s.revision + 1
    ensures LedBy(h + {s'}, s')
  {
  }
}
