/** The client's acceptance rule, and where any delivery order of shown snapshots leads. */
module CockpitClient {
  import opened Wrappers
  import opened CockpitModel
  import opened CockpitService

  predicate ShouldAccept(current: Option<Snapshot>, incoming: Snapshot) {
    current.None? || incoming.sessionId != current.value.sessionId || incoming.revision >= current.value.revision
  }

  class CockpitStore {
    var snapshot: Option<Snapshot>
    var lastError: Option<string>

    constructor ()
      ensures snapshot.None? && lastError.None?
    {
      snapshot, lastError := None, None;
    }

    method Receive(incoming: Snapshot)
      modifies this
      ensures snapshot == Received(old(snapshot), incoming)
      ensures lastError == if ShouldAccept(old(snapshot), incoming) then None else old(lastError)
    {
      if ShouldAccept(snapshot, incoming) {
        snapshot, lastError := Some(incoming), None;
      }
    }
  }

  function Received(current: Option<Snapshot>, incoming: Snapshot): Option<Snapshot> {
    if ShouldAccept(current, incoming) then Some(incoming) else current
  }

  function Deliver(current: Option<Snapshot>, ds: seq<Snapshot>): Option<Snapshot> {
    if ds == [] then current else Received(Deliver(current, ds[..|ds| - 1]), ds[|ds| - 1])
  }

  ghost predicate OneSession(ds: seq<Snapshot>) {
    forall p, q :: p in ds && q in ds ==> p.sessionId == q.sessionId
  }

  ghost predicate IsNewest(s: Snapshot, ds: seq<Snapshot>) {
    s in ds && forall p :: p in ds ==> p.revision <= s.revision
  }

  /** Any order, with repeats, of one session's snapshots: the client ends on the newest. */
  lemma {:induction false} EndsOnNewest(ds: seq<Snapshot>)
    requires ds != [] && OneSession(ds)
    ensures Deliver(None, ds).Some? && IsNewest(Deliver(None, ds).value, ds)
  {
    var rest, last := ds[..|ds| - 1], ds[|ds| - 1];
    if rest != [] {
      assert forall p :: p in rest ==> p in ds;
      EndsOnNewest(rest);
    }
    assert ds == rest + [last];
    assert last in ds;
  }

  /** Hence every order of what one service showed in one session gives the same result. */
  lemma OrderDoesNotMatter(shown: set<Snapshot>, ds: seq<Snapshot>, ds': seq<Snapshot>)
    requires OnePerRevision(shown) && ds != [] && OneSession(ds)
    requires forall p :: p in ds ==> p in shown
    requires forall p :: p in ds <==> p in ds'
    ensures Deliver(None, ds) == Deliver(None, ds')
  {
    assert ds[0] in ds';
    EndsOnNewest(ds);
    EndsOnNewest(ds');
  }

  // ---- Across a reset ----

  /** The deliveries at the end that share the last one's session. */
  function LastBlock(ds: seq<Snapshot>): seq<Snapshot> {
    if |ds| <= 1 then ds
    else if ds[|ds| - 2].sessionId != ds[|ds| - 1].sessionId then [ds[|ds| - 1]]
    else LastBlock(ds[..|ds| - 1]) + [ds[|ds| - 1]]
  }

  lemma {:induction false} LastBlockOk(ds: seq<Snapshot>)
    requires ds != []
    ensures LastBlock(ds) != [] && OneSession(LastBlock(ds))
    ensures LastBlock(ds)[|LastBlock(ds)| - 1] == ds[|ds| - 1]
    ensures forall p :: p in LastBlock(ds) ==> p in ds
  {
    if |ds| > 1 && ds[|ds| - 2].sessionId == ds[|ds| - 1].sessionId {
      var p := ds[..|ds| - 1];
      LastBlockOk(p);
      assert p[|p| - 1] in LastBlock(p);
      assert forall x :: x in p ==> x in ds;
    }
  }

  /** A change of session is always accepted, so only the last block of deliveries counts. */
  lemma {:induction false} OnlyLastBlockCounts(ds: seq<Snapshot>)
    requires ds != []
    ensures Deliver(None, ds) == Deliver(None, LastBlock(ds))
    ensures Deliver(None, ds).Some? && Deliver(None, ds).value.sessionId == ds[|ds| - 1].sessionId
  {
    if |ds| == 1 {
      assert ds[..0] == [] && Deliver(None, ds[..0]) == None;
    } else {
      var p, d := ds[..|ds| - 1], ds[|ds| - 1];
      OnlyLastBlockCounts(p);
      if ds[|ds| - 2].sessionId == d.sessionId {
        assert (LastBlock(p) + [d])[..|LastBlock(p)|] == LastBlock(p);
      } else {
        assert Deliver(None, [d][..0]) == None;
        assert Deliver(None, [d]) == Some(d);
      }
    }
  }

  /**
   Across resets a late snapshot of an old session takes the client back. The
   client ends on the newest of all deliveries exactly when their last block
   holds it.
   */
  lemma NewestAcrossSessions(ds: seq<Snapshot>)
    requires ds != []
    ensures Deliver(None, ds).Some?
    ensures IsNewest(Deliver(None, ds).value, ds) <==>
      exists n :: n in LastBlock(ds) && IsNewest(n, ds)
  {
    OnlyLastBlockCounts(ds);
    LastBlockOk(ds);
    EndsOnNewest(LastBlock(ds));
    var r := Deliver(None, ds).value;
    if n :| n in LastBlock(ds) && IsNewest(n, ds) {
      assert n.revision <= r.revision;
    }
  }

  /** One such run: the snapshot after a reset, then a late one from before it. */
  lemma LateOldSessionWins(old0: Snapshot, new1: Snapshot)
    requires old0.sessionId != new1.sessionId && old0.revision < new1.revision
    ensures Deliver(None, [new1, old0]) == Some(old0)
  {
    assert [new1, old0][..1] == [new1] && [new1][..0] == [];
    assert Deliver(None, [new1]) == Some(new1);
  }
}
