/**
 What each piece of the registry does to its tables, connection by connection,
 and what it takes for a connection to leave.
 */
module RegistryEffects {
  import opened Wrappers
  import opened Registry
  import opened RegistryRuns

  /** A connection is in the table, under its session. */
  ghost predicate Registered(t: Tables, s: Sid, c: Conn) { s in t.connections && c in t.connections[s] }

  ghost predicate Listed(t: Tables, s: Sid, x: Task) { s in t.sends && x in t.sends[s] }

  /** No session is kept for nothing. */
  ghost predicate NoEmptySets(t: Tables) {
    && (forall s :: s in t.connections ==> t.connections[s] != {})
    && forall s :: s in t.sends ==> t.sends[s] != {}
  }

  lemma RegisterEffect(t: Tables, s: Sid, c: Conn, u: Sid, d: Conn)
    ensures Registered(t.Register(s, c), u, d) <==> Registered(t, u, d) || (u == s && d == c && s !in t.blocked)
    ensures t.Register(s, c) == t.(connections := t.Register(s, c).connections)
    ensures NoEmptySets(t) ==> NoEmptySets(t.Register(s, c))
  {
  }

  lemma DisconnectEffect(t: Tables, s: Sid, c: Conn, u: Sid, d: Conn)
    ensures Registered(t.Disconnect(s, c), u, d) <==> Registered(t, u, d) && (u != s || d != c)
    ensures t.Disconnect(s, c) == t.(connections := t.Disconnect(s, c).connections)
    ensures NoEmptySets(t) ==> NoEmptySets(t.Disconnect(s, c))
  {
    if s in t.connections {
      assert d in t.connections[s] - {c} <==> d in t.connections[s] && d != c;
    }
  }

  lemma SendEffects(t: Tables, s: Sid, x: Task, u: Sid, y: Task)
    ensures Listed(t.AddSend(s, x), u, y) <==> Listed(t, u, y) || (u == s && y == x)
    ensures Listed(t.DropSend(s, x), u, y) <==> Listed(t, u, y) && (u != s || y != x)
    ensures t.AddSend(s, x) == t.(sends := t.AddSend(s, x).sends)
    ensures t.DropSend(s, x) == t.(sends := t.DropSend(s, x).sends)
    ensures NoEmptySets(t) ==> NoEmptySets(t.AddSend(s, x)) && NoEmptySets(t.DropSend(s, x))
  {
    if s in t.sends {
      assert y in t.sends[s] - {x} <==> y in t.sends[s] && y != x;
    }
  }

  /** Who may be sent to. */
  lemma MaySendExactly(t: Tables, s: Sid, c: Conn)
    ensures t.MaySend(s, c) <==> Registered(t, s, c) && s !in t.blocked
  {
  }

  // ---- How a connection leaves ----

  lemma StepLeaves(w: System, a: Step, s: Sid, c: Conn)
    requires Enabled(w, a) && Registered(w.reg, s, c) && !Registered(Next(w, a).reg, s, c)
    ensures a == Disconnect(s, c) || (s, c) in Next(w, a).closed
  {
    match a
    case HookReturns(k) =>
      ProceedLeavesTables(w.(reg := w.reg.Disconnect(w.closers[k].session, w.closers[k].conn),
        closed := w.closed + {(w.closers[k].session, w.closers[k].conn)}), k, w.closers[k].session, w.closers[k].todo);
      DisconnectEffect(w.reg, w.closers[k].session, w.closers[k].conn, s, c);
    case SendsDone(k, order) => ProceedLeavesTables(w, k, w.closers[k].session, order);
    case Register(u, d) => RegisterEffect(w.reg, u, d, s, c);
    case Disconnect(u, d) => DisconnectEffect(w.reg, u, d, s, c);
    case _ =>
  }

  lemma ClosedStays(w: System, a: Step)
    requires Enabled(w, a)
    ensures w.closed <= Next(w, a).closed
  {
  }

  lemma {:induction false} ClosedForGood(w: System, steps: seq<Step>)
    requires Possible(w, steps)
    ensures w.closed <= Run(w, steps).closed
    decreases |steps|
  {
    if steps != [] {
      ClosedStays(w, steps[0]);
      ClosedForGood(Next(w, steps[0]), steps[1..]);
    }
  }

  /** A connection leaves the registry only by its own disconnect, or closed by a hook that succeeded. */
  lemma {:induction false} LeavesOnlyClosed(w: System, steps: seq<Step>, s: Sid, c: Conn)
    requires Possible(w, steps) && Registered(w.reg, s, c) && !Registered(Run(w, steps).reg, s, c)
    ensures Disconnect(s, c) in steps || (s, c) in Run(w, steps).closed
    decreases |steps|
  {
    if steps != [] {
      var w' := Next(w, steps[0]);
      if Registered(w'.reg, s, c) {
        LeavesOnlyClosed(w', steps[1..], s, c);
      } else {
        StepLeaves(w, steps[0], s, c);
        ClosedForGood(w', steps[1..]);
      }
      assert Disconnect(s, c) in steps[1..] ==> Disconnect(s, c) in steps;
    }
  }

  /** So when a close of all returns normally, whatever was registered has been closed, or left by itself. */
  lemma EveryConnectionIsClosed(before: seq<Step>, after: seq<Step>, k: Closer, s: Sid, c: Conn)
    requires Possible(START, before) && Possible(Run(START, before), after)
    requires Registered(Run(START, before).reg, s, c)
    requires var w := Run(Run(START, before), after); k in w.closers && w.closers[k] == Ended(s, true)
    ensures Disconnect(s, c) in after || (s, c) in Run(Run(START, before), after).closed
  {
    RunKeeps(START, before);
    RunKeeps(Run(START, before), after);
    var w := Run(Run(START, before), after);
    assert CloserOk(w, k);
    LeavesOnlyClosed(Run(START, before), after, s, c);
  }

  // ---- How a close goes on ----

  /** The next hook is for a connection still there; when none of the list is, the close ends and frees its lock. */
  ghost predicate GoesOn(w: System, w': System, k: Closer, s: Sid, todo: seq<Conn>) {
    && k in w'.closers
    && match w'.closers[k]
       case Closing(u, c, rest) =>
         && u == s && c in todo && Registered(w'.reg, s, c) && w'.reg.holders == w.reg.holders
         && forall d :: d in todo && Registered(w'.reg, s, d) ==> d == c || d in rest
       case Ended(u, normally) =>
         && u == s && normally && w'.reg.holders == w.reg.holders - {s}
         && forall d :: d in todo ==> !Registered(w'.reg, s, d)
       case _ => false
  }

  lemma {:induction false} FirstPresentIs(present: set<Conn>, todo: seq<Conn>)
    ensures var r := FirstPresent(present, todo);
      && (r.0.Some? ==>
            && r.0.value in present && r.0.value in todo
            && forall x :: x in todo && x in present ==> x == r.0.value || x in r.1)
      && (r.0.None? ==> forall x :: x in todo ==> x !in present)
  {
    if todo != [] && todo[0] !in present {
      FirstPresentIs(present, todo[1..]);
    }
  }

  lemma SendsDoneEffect(w: System, k: Closer, order: seq<Conn>)
    requires Enabled(w, SendsDone(k, order))
    ensures var w' := Next(w, SendsDone(k, order));
      && GoesOn(w, w', k, w.closers[k].session, order)
      && w'.reg.connections == w.reg.connections && w'.closed == w.closed && w'.tasks == w.tasks
  {
    FirstPresentIs(w.reg.Of(w.closers[k].session), order);
  }

  lemma HookReturnsEffect(w: System, k: Closer)
    requires Enabled(w, HookReturns(k))
    ensures var w', s, c := Next(w, HookReturns(k)), w.closers[k].session, w.closers[k].conn;
      && GoesOn(w, w', k, s, w.closers[k].todo)
      && w'.closed == w.closed + {(s, c)} && !Registered(w'.reg, s, c) && w'.tasks == w.tasks
  {
    var s, c := w.closers[k].session, w.closers[k].conn;
    FirstPresentIs(w.reg.Disconnect(s, c).Of(s), w.closers[k].todo);
    DisconnectEffect(w.reg, s, c, s, c);
  }

  /** A hook that raises, or a close that is cancelled, leaves all connections, has failed, and frees the lock. */
  lemma AbortEffect(w: System, k: Closer)
    requires Enabled(w, Abort(k))
    ensures var w', s := Next(w, Abort(k)), w.closers[k].session;
      && w'.closers[k] == Ended(s, false) && w'.reg.connections == w.reg.connections && w'.closed == w.closed
      && w'.reg.holders == if w.closers[k].Waiting? then w.reg.holders else w.reg.holders - {s}
  {
  }

  /** A close blocks its session at once; with the lock it cancels every send that is listed. */
  lemma CloseEffect(w: System, k: Closer, s: Sid, queued: bool)
    requires Enabled(w, BeginClose(k, s, queued))
    ensures var w' := Next(w, BeginClose(k, s, queued));
      && s in w'.reg.blocked && w'.reg.connections == w.reg.connections
      && if s in w.reg.holders || queued then w'.closers[k] == Waiting(s) && w'.tasks == w.tasks
         else
           && w'.closers[k].Cancelling? && w'.closers[k].session == s && w'.reg.holders == w.reg.holders[s := k]
           && forall t :: t in w.tasks ==>
                && t in w'.tasks && w'.tasks[t].phase == w.tasks[t].phase
                && (w'.tasks[t].cancelled <==> w.tasks[t].cancelled || Listed(w.reg, s, t))
  {
  }
}
