/**
 Registrations, sends, disconnects and concurrent `close_all` calls under an
 arbitrary scheduler, one step from await to await.
 */
module RegistryRuns {
  import opened Wrappers
  import opened Registry

  datatype Phase = Created | Running | Done

  /** A send task. A task cancelled before it begins never runs its body. */
  datatype Send = Send(session: Sid, phase: Phase, cancelled: bool)

  /** Where a `close_all` call is. */
  datatype Close =
    | Waiting(session: Sid)
    | Cancelling(session: Sid, tasks: set<Task>)
    | Closing(session: Sid, conn: Conn, todo: seq<Conn>)
    | Ended(session: Sid, normally: bool)

  /** `closed` holds every connection some hook has closed successfully. */
  datatype System = System(
    reg: Tables, tasks: map<Task, Send>, closers: map<Closer, Close>, closed: set<(Sid, Conn)>)

  datatype Step =
    | Register(s: Sid, c: Conn)
    | Disconnect(s: Sid, c: Conn)
    | BeginSend(s: Sid, c: Conn, t: Task)
    | RunTask(t: Task)       // the scheduler runs it for the first time
    | EndTask(t: Task)       // its body returns, fails or gives in to a cancellation
    | CancelTask(t: Task)    // the sender itself is cancelled
    | EndSend(t: Task)       // the sender resumes and cleans up
    | BeginClose(k: Closer, s: Sid, queued: bool)
    | TakeLock(k: Closer)
    | SendsDone(k: Closer, order: seq<Conn>)
    | HookReturns(k: Closer)
    | Abort(k: Closer)       // the hook raises, or the closing call is cancelled

  ghost predicate Pending(w: System, s: Sid) {
    exists k :: k in w.closers && w.closers[k].session == s && !w.closers[k].Ended?
  }

  ghost predicate Enabled(w: System, a: Step) {
    match a
    case Register(_, _) => true
    case Disconnect(_, _) => true
    case BeginSend(_, _, t) => t !in w.tasks
    case RunTask(t) => t in w.tasks && w.tasks[t].phase == Created
    case EndTask(t) => t in w.tasks && w.tasks[t].phase == Running
    case CancelTask(t) => t in w.tasks
    case EndSend(t) => t in w.tasks && w.tasks[t].phase == Done && t in w.reg.SendsOf(w.tasks[t].session)
    case BeginClose(k, s, queued) => k !in w.closers && (queued ==> Pending(w, s))
    case TakeLock(k) => k in w.closers && w.closers[k].Waiting? && w.closers[k].session !in w.reg.holders
    case SendsDone(k, order) =>
      && k in w.closers && w.closers[k].Cancelling?
      && (forall t :: t in w.closers[k].tasks ==> t in w.tasks && w.tasks[t].phase == Done)
      && (set c | c in order) == w.reg.Of(w.closers[k].session)
    case HookReturns(k) => k in w.closers && w.closers[k].Closing?
    case Abort(k) => k in w.closers && !w.closers[k].Ended?
  }

  function CancelAll(tasks: map<Task, Send>, which: set<Task>): map<Task, Send> {
    map t | t in tasks :: if t in which then tasks[t].(cancelled := true) else tasks[t]
  }

  /** Holding the lock: cancel the listed sends and wait for them. */
  function Cancel(w: System, k: Closer, s: Sid): System {
    var which := w.reg.SendsOf(s);
    w.(reg := w.reg.(holders := w.reg.holders[s := k]),
       tasks := CancelAll(w.tasks, which),
       closers := w.closers[k := Cancelling(s, which)])
  }

  /** The next hook to run, or a normal return that frees the lock. */
  function Proceed(w: System, k: Closer, s: Sid, todo: seq<Conn>): System {
    var found := FirstPresent(w.reg.Of(s), todo);
    match found.0
    case Some(c) => w.(closers := w.closers[k := Closing(s, c, found.1)])
    case None => Leave(w, k, s, true)
  }

  function Leave(w: System, k: Closer, s: Sid, normally: bool): System {
    w.(reg := w.reg.(holders := w.reg.holders - {s}), closers := w.closers[k := Ended(s, normally)])
  }

  function Next(w: System, a: Step): System
    requires Enabled(w, a)
  {
    match a
    case Register(s, c) => w.(reg := w.reg.Register(s, c))
    case Disconnect(s, c) => w.(reg := w.reg.Disconnect(s, c))
    case BeginSend(s, c, t) =>
      if !w.reg.MaySend(s, c) then w
      else w.(reg := w.reg.AddSend(s, t), tasks := w.tasks[t := Send(s, Created, false)])
    case RunTask(t) =>
      w.(tasks := w.tasks[t := w.tasks[t].(phase := if w.tasks[t].cancelled then Done else Running)])
    case EndTask(t) => w.(tasks := w.tasks[t := w.tasks[t].(phase := Done)])
    case CancelTask(t) => w.(tasks := w.tasks[t := w.tasks[t].(cancelled := true)])
    case EndSend(t) => w.(reg := w.reg.DropSend(w.tasks[t].session, t))
    case BeginClose(k, s, queued) =>
      var w' := w.(reg := w.reg.(blocked := w.reg.blocked + {s}));
      if s in w.reg.holders || queued then w'.(closers := w.closers[k := Waiting(s)]) else Cancel(w', k, s)
    case TakeLock(k) => Cancel(w, k, w.closers[k].session)
    case SendsDone(k, order) => Proceed(w, k, w.closers[k].session, order)
    case HookReturns(k) =>
      var s, c := w.closers[k].session, w.closers[k].conn;
      Proceed(w.(reg := w.reg.Disconnect(s, c), closed := w.closed + {(s, c)}), k, s, w.closers[k].todo)
    case Abort(k) =>
      if w.closers[k].Waiting? then w.(closers := w.closers[k := Ended(w.closers[k].session, false)])
      else Leave(w, k, w.closers[k].session, false)
  }

  // ---- Invariant ----

  /** A task that is not done is listed, and cancelled once its session is blocked. */
  ghost predicate TaskOk(w: System, t: Task)
    requires t in w.tasks
  {
    w.tasks[t].phase != Done ==>
      t in w.reg.SendsOf(w.tasks[t].session) && (w.tasks[t].session in w.reg.blocked ==> w.tasks[t].cancelled)
  }

  ghost predicate TablesOk(w: System) {
    && (forall s, t :: s in w.reg.sends && t in w.reg.sends[s] ==> t in w.tasks && w.tasks[t].session == s)
    && (forall s :: s in w.reg.holders ==> w.reg.holders[s] in w.closers && w.closers[w.reg.holders[s]].session == s)
    && forall s, c :: (s, c) in w.closed ==> s in w.reg.blocked && c !in w.reg.Of(s)
  }

  ghost predicate Quiet(w: System, s: Sid) {
    forall t :: t in w.tasks && w.tasks[t].session == s ==> w.tasks[t].phase == Done
  }

  ghost predicate HasLock(w: System, k: Closer, s: Sid) {
    s in w.reg.holders && w.reg.holders[s] == k
  }

  ghost predicate CloserOk(w: System, k: Closer)
    requires k in w.closers
  {
    var s := w.closers[k].session;
    && s in w.reg.blocked
    && (HasLock(w, k, s) <==> w.closers[k].Cancelling? || w.closers[k].Closing?)
    && match w.closers[k]
       case Waiting(_) => true
       case Cancelling(_, tasks) =>
         forall t :: t in w.tasks && w.tasks[t].session == s && w.tasks[t].phase != Done ==> t in tasks
       case Closing(_, c, todo) =>
         Quiet(w, s) && (s, c) !in w.closed && forall x :: x in w.reg.Of(s) ==> x == c || x in todo
       case Ended(_, normally) => normally ==> w.reg.Of(s) == {}
  }

  ghost predicate Inv(w: System) {
    && (forall t :: t in w.tasks ==> TaskOk(w, t))
    && (forall k :: k in w.closers ==> CloserOk(w, k))
    && TablesOk(w)
  }

  lemma FirstPresentOk(present: set<Conn>, todo: seq<Conn>)
    ensures var r := FirstPresent(present, todo);
      && (r.0.Some? ==> r.0.value in present)
      && (r.0.Some? ==> forall x :: x in todo && x in present ==> x == r.0.value || x in r.1)
      && (r.0.None? ==> forall x :: x in todo ==> x !in present)
  {
    if todo != [] && todo[0] !in present {
      FirstPresentOk(present, todo[1..]);
    }
  }

  lemma ProceedKeeps(w: System, k: Closer, s: Sid, todo: seq<Conn>)
    requires forall t :: t in w.tasks ==> TaskOk(w, t)
    requires forall j :: j in w.closers && j != k ==> CloserOk(w, j)
    requires TablesOk(w) && k in w.closers && w.closers[k].session == s && HasLock(w, k, s) && s in w.reg.blocked
      && Quiet(w, s)
    requires forall x :: x in w.reg.Of(s) ==> x in todo
    ensures Inv(Proceed(w, k, s, todo))
  {
    FirstPresentOk(w.reg.Of(s), todo);
    var w' := Proceed(w, k, s, todo);
    forall j | j in w'.closers ensures CloserOk(w', j) {
    }
  }

  lemma CancelKeeps(w: System, k: Closer, s: Sid)
    requires forall t :: t in w.tasks ==> TaskOk(w, t) || (w.tasks[t].session == s && t in w.reg.SendsOf(s))
    requires forall j :: j in w.closers && j != k ==> CloserOk(w, j)
    requires TablesOk(w) && s !in w.reg.holders && s in w.reg.blocked
    requires k in w.closers ==> w.closers[k].session == s
    ensures Inv(Cancel(w, k, s))
  {
    CancelKeepsTasks(w, k, s);
    CancelKeepsClosers(w, k, s);
  }

  lemma CancelKeepsTasks(w: System, k: Closer, s: Sid)
    requires forall t :: t in w.tasks ==> TaskOk(w, t) || (w.tasks[t].session == s && t in w.reg.SendsOf(s))
    requires TablesOk(w) && s in w.reg.blocked
    ensures var w' := Cancel(w, k, s); forall t :: t in w'.tasks ==> TaskOk(w', t)
  {
    var w' := Cancel(w, k, s);
    forall t | t in w'.tasks ensures TaskOk(w', t) {
      assert TaskOk(w, t) || (w.tasks[t].session == s && t in w.reg.SendsOf(s));
    }
  }

  lemma CancelKeepsClosers(w: System, k: Closer, s: Sid)
    requires forall t :: t in w.tasks ==> TaskOk(w, t) || (w.tasks[t].session == s && t in w.reg.SendsOf(s))
    requires forall j :: j in w.closers && j != k ==> CloserOk(w, j)
    requires TablesOk(w) && s !in w.reg.holders && s in w.reg.blocked
    requires k in w.closers ==> w.closers[k].session == s
    ensures var w' := Cancel(w, k, s); forall j :: j in w'.closers ==> CloserOk(w', j)
  {
    var w' := Cancel(w, k, s);
    forall j | j in w'.closers ensures CloserOk(w', j) {
      assert j != k ==> CloserOk(w, j);
      if j == k {
        forall t | t in w.tasks && w.tasks[t].session == s && w.tasks[t].phase != Done ensures t in w.reg.SendsOf(s) {
          assert TaskOk(w, t) || t in w.reg.SendsOf(s);
        }
      }
    }
  }

  lemma QueueKeeps(w: System, k: Closer, s: Sid)
    requires Inv(w) && k !in w.closers && s in w.reg.blocked
    ensures Inv(w.(closers := w.closers[k := Waiting(s)]))
  {
    var w' := w.(closers := w.closers[k := Waiting(s)]);
    forall t | t in w'.tasks ensures TaskOk(w', t) { assert TaskOk(w, t); }
    forall j | j in w'.closers ensures CloserOk(w', j) { if j != k { assert CloserOk(w, j); } }
  }

  /** A first `close_all` finds no other call for its session, so it blocks and cancels in one step. */
  lemma BeginCloseKeeps(w: System, a: Step)
    requires Inv(w) && Enabled(w, a) && a.BeginClose?
    ensures Inv(Next(w, a))
  {
    if a.s in w.reg.holders || a.queued {
      var j :| j in w.closers && w.closers[j].session == a.s;
      assert CloserOk(w, j);
      assert w.reg.blocked + {a.s} == w.reg.blocked;
      QueueKeeps(w, a.k, a.s);
    } else {
      var w1 := w.(reg := w.reg.(blocked := w.reg.blocked + {a.s}));
      forall t | t in w1.tasks ensures TaskOk(w1, t) || (w1.tasks[t].session == a.s && t in w1.reg.SendsOf(a.s)) {
        assert TaskOk(w, t);
      }
      forall j | j in w1.closers && j != a.k ensures CloserOk(w1, j) { assert CloserOk(w, j); }
      CancelKeeps(w1, a.k, a.s);
    }
  }

  lemma TaskStepKeeps(w: System, a: Step)
    requires Inv(w) && Enabled(w, a) && (a.RunTask? || a.EndTask?)
    ensures Inv(Next(w, a))
  {
    var w' := Next(w, a);
    forall t | t in w'.tasks ensures TaskOk(w', t) { assert TaskOk(w, t); }
    forall k | k in w'.closers ensures CloserOk(w', k) { assert CloserOk(w, k); }
  }

  lemma CancelTaskKeeps(w: System, a: Step)
    requires Inv(w) && Enabled(w, a) && a.CancelTask?
    ensures Inv(Next(w, a))
  {
    var w' := Next(w, a);
    forall t | t in w'.tasks ensures TaskOk(w', t) { assert TaskOk(w, t); }
    forall k | k in w'.closers ensures CloserOk(w', k) { assert CloserOk(w, k); }
  }

  lemma EndSendKeeps(w: System, a: Step)
    requires Inv(w) && Enabled(w, a) && a.EndSend?
    ensures Inv(Next(w, a))
  {
    var w' := Next(w, a);
    forall t | t in w'.tasks ensures TaskOk(w', t) { assert TaskOk(w, t); }
    forall k | k in w'.closers ensures CloserOk(w', k) { assert CloserOk(w, k); }
  }

  lemma ConnectionStepKeeps(w: System, a: Step)
    requires Inv(w) && Enabled(w, a) && (a.Register? || a.Disconnect?)
    ensures Inv(Next(w, a))
  {
    var w' := Next(w, a);
    forall t | t in w'.tasks ensures TaskOk(w', t) { assert TaskOk(w, t); }
    forall k | k in w'.closers ensures CloserOk(w', k) { assert CloserOk(w, k); }
  }

  lemma BeginSendKeeps(w: System, a: Step)
    requires Inv(w) && Enabled(w, a) && a.BeginSend?
    ensures Inv(Next(w, a))
  {
    var w' := Next(w, a);
    forall t | t in w'.tasks ensures TaskOk(w', t) { if t in w.tasks { assert TaskOk(w, t); } }
    forall k | k in w'.closers ensures CloserOk(w', k) { assert CloserOk(w, k); }
  }

  lemma HookKeeps(w: System, k: Closer)
    requires Inv(w) && k in w.closers && w.closers[k].Closing?
    ensures Inv(Next(w, HookReturns(k)))
  {
    var s, c := w.closers[k].session, w.closers[k].conn;
    var w1 := w.(reg := w.reg.Disconnect(s, c), closed := w.closed + {(s, c)});
    ClosedLeaves(w, w1, k);
    ClosedLeavesOwn(w, w1, k);
    ProceedKeeps(w1, k, s, w.closers[k].todo);
  }

  /** Taking a closed connection out of the tables disturbs no other task or closer. */
  lemma ClosedLeaves(w: System, w1: System, k: Closer)
    requires Inv(w) && k in w.closers && w.closers[k].Closing?
    requires var s, c := w.closers[k].session, w.closers[k].conn;
      w1 == w.(reg := w.reg.Disconnect(s, c), closed := w.closed + {(s, c)})
    ensures forall t :: t in w1.tasks ==> TaskOk(w1, t)
    ensures forall j :: j in w1.closers && j != k ==> CloserOk(w1, j)
  {
    assert CloserOk(w, k);
    forall t | t in w1.tasks ensures TaskOk(w1, t) { assert TaskOk(w, t); }
    forall j | j in w1.closers && j != k ensures CloserOk(w1, j) { assert CloserOk(w, j); }
  }

  lemma ClosedLeavesOwn(w: System, w1: System, k: Closer)
    requires Inv(w) && k in w.closers && w.closers[k].Closing?
    requires var s, c := w.closers[k].session, w.closers[k].conn;
      w1 == w.(reg := w.reg.Disconnect(s, c), closed := w.closed + {(s, c)})
    ensures var s := w.closers[k].session;
      && TablesOk(w1) && HasLock(w1, k, s) && s in w1.reg.blocked && Quiet(w1, s)
      && forall x :: x in w1.reg.Of(s) ==> x in w.closers[k].todo
  {
    assert CloserOk(w, k);
  }

  lemma AbortKeeps(w: System, k: Closer)
    requires Inv(w) && Enabled(w, Abort(k))
    ensures Inv(Next(w, Abort(k)))
  {
    assert CloserOk(w, k);
    var w' := Next(w, Abort(k));
    forall t | t in w'.tasks ensures TaskOk(w', t) { assert TaskOk(w, t); }
    forall j | j in w'.closers ensures CloserOk(w', j) { assert CloserOk(w, j); }
  }

  lemma SendsDoneKeeps(w: System, k: Closer, order: seq<Conn>)
    requires Inv(w) && Enabled(w, SendsDone(k, order))
    ensures Inv(Next(w, SendsDone(k, order)))
  {
    assert CloserOk(w, k);
    ProceedKeeps(w, k, w.closers[k].session, order);
  }

  lemma StepKeeps(w: System, a: Step)
    requires Inv(w) && Enabled(w, a)
    ensures Inv(Next(w, a))
  {
    match a
    case BeginClose(_, _, _) => BeginCloseKeeps(w, a);
    case RunTask(_) => TaskStepKeeps(w, a);
    case EndTask(_) => TaskStepKeeps(w, a);
    case CancelTask(_) => CancelTaskKeeps(w, a);
    case EndSend(_) => EndSendKeeps(w, a);
    case Register(_, _) => ConnectionStepKeeps(w, a);
    case Disconnect(_, _) => ConnectionStepKeeps(w, a);
    case BeginSend(_, _, _) => BeginSendKeeps(w, a);
    case TakeLock(k) =>
      assert CloserOk(w, k);
      CancelKeeps(w, k, w.closers[k].session);
    case SendsDone(k, order) => SendsDoneKeeps(w, k, order);
    case HookReturns(k) => HookKeeps(w, k);
    case Abort(k) => AbortKeeps(w, k);
  }

  // ---- Whole runs ----

  const START := System(Tables(map[], {}, map[], map[]), map[], map[], {})

  ghost predicate Possible(w: System, steps: seq<Step>)
    decreases |steps|
  {
    steps != [] ==> Enabled(w, steps[0]) && Possible(Next(w, steps[0]), steps[1..])
  }

  function Run(w: System, steps: seq<Step>): System
    requires Possible(w, steps)
    decreases |steps|
  {
    if steps == [] then w else Run(Next(w, steps[0]), steps[1..])
  }

  lemma {:induction false} RunKeeps(w: System, steps: seq<Step>)
    requires Inv(w) && Possible(w, steps)
    ensures Inv(Run(w, steps))
    decreases |steps|
  {
    if steps != [] {
      StepKeeps(w, steps[0]);
      RunKeeps(Next(w, steps[0]), steps[1..]);
    }
  }

  ghost predicate Sending(w: System, s: Sid, t: Task) {
    t in w.tasks && w.tasks[t].session == s && w.tasks[t].phase == Running
  }

  /** For a session blocked in `w`, `w'` has no new task, no newly begun send and no new connection. */
  ghost predicate OnlyWindsDown(w: System, w': System, s: Sid) {
    && s in w'.reg.blocked
    && w'.reg.Of(s) <= w.reg.Of(s)
    && (forall t :: t in w'.tasks && w'.tasks[t].session == s ==> t in w.tasks && w.tasks[t].session == s)
    && forall t :: Sending(w', s, t) ==> Sending(w, s, t)
  }

  lemma ConnectionsWindDown(w: System, a: Step, s: Sid)
    requires Enabled(w, a) && s in w.reg.blocked
    ensures s in Next(w, a).reg.blocked && Next(w, a).reg.Of(s) <= w.reg.Of(s)
  {
    match a
    case Register(_, _) =>
    case Disconnect(_, _) =>
    case HookReturns(k) => ProceedLeavesTables(w.(reg := w.reg.Disconnect(w.closers[k].session, w.closers[k].conn),
      closed := w.closed + {(w.closers[k].session, w.closers[k].conn)}), k, w.closers[k].session, w.closers[k].todo);
    case SendsDone(k, order) => ProceedLeavesTables(w, k, w.closers[k].session, order);
    case _ =>
  }

  lemma ProceedLeavesTables(w: System, k: Closer, s: Sid, todo: seq<Conn>)
    ensures var reg := Proceed(w, k, s, todo).reg;
      reg.blocked == w.reg.blocked && reg.connections == w.reg.connections
  {
  }

  lemma SendsWindDown(w: System, a: Step, s: Sid)
    requires Inv(w) && Enabled(w, a) && s in w.reg.blocked
    ensures var w' := Next(w, a);
      && (forall t :: t in w'.tasks && w'.tasks[t].session == s ==> t in w.tasks && w.tasks[t].session == s)
      && forall t :: Sending(w', s, t) ==> Sending(w, s, t)
  {
    if a.RunTask? {
      assert TaskOk(w, a.t);
    }
  }

  /**
   Once `close_all` has blocked a session, nothing any scheduler does starts
   another send for it or registers another connection.
   */
  lemma {:induction false} BlockedForGood(w: System, steps: seq<Step>, s: Sid)
    requires Inv(w) && Possible(w, steps) && s in w.reg.blocked
    ensures OnlyWindsDown(w, Run(w, steps), s)
    decreases |steps|
  {
    if steps != [] {
      StepKeeps(w, steps[0]);
      ConnectionsWindDown(w, steps[0], s);
      SendsWindDown(w, steps[0], s);
      BlockedForGood(Next(w, steps[0]), steps[1..], s);
    }
  }

  /** Whenever a close hook runs, no send of its session is in flight and no other hook of that session runs. */
  lemma HooksRunAlone(steps: seq<Step>, k: Closer)
    requires Possible(START, steps)
    requires var w := Run(START, steps); k in w.closers && w.closers[k].Closing?
    ensures var w := Run(START, steps);
      && Quiet(w, w.closers[k].session)
      && forall j :: j in w.closers && w.closers[j].Closing? && w.closers[j].session == w.closers[k].session ==> j == k
  {
    RunKeeps(START, steps);
    var w := Run(START, steps);
    forall j | j in w.closers && w.closers[j].Closing? && w.closers[j].session == w.closers[k].session ensures j == k {
      assert CloserOk(w, j) && CloserOk(w, k);
    }
  }

  /** A hook that succeeds closes a connection no hook has closed before, and takes it out of the registry. */
  lemma ClosedAtMostOnce(steps: seq<Step>, k: Closer)
    requires Possible(START, steps) && Enabled(Run(START, steps), HookReturns(k))
    ensures var w := Run(START, steps);
      var w', s, c := Next(w, HookReturns(k)), w.closers[k].session, w.closers[k].conn;
      (s, c) !in w.closed && w'.closed == w.closed + {(s, c)} && c !in w'.reg.Of(s)
  {
    RunKeeps(START, steps);
    var w := Run(START, steps);
    assert CloserOk(w, k);
    StepKeeps(w, HookReturns(k));
  }

  /** After a `close_all` has returned normally its session has no connections, then and ever after. */
  lemma NormalReturnMeansEmpty(steps: seq<Step>, k: Closer)
    requires Possible(START, steps)
    requires var w := Run(START, steps); k in w.closers && w.closers[k].Ended? && w.closers[k].normally
    ensures Run(START, steps).reg.Of(Run(START, steps).closers[k].session) == {}
  {
    RunKeeps(START, steps);
    assert CloserOk(Run(START, steps), k);
  }

  /** A close that fails leaves the connections as they were and the lock free. */
  lemma FailedCloseFreesLock(w: System, k: Closer)
    requires Inv(w) && k in w.closers && w.closers[k].Closing?
    ensures Enabled(w, Abort(k))
    ensures var s, w' := w.closers[k].session, Next(w, Abort(k));
      && w'.reg == w.reg.(holders := w.reg.holders - {s}) && w'.tasks == w.tasks
      && w'.closers == w.closers[k := Ended(s, false)] && s in w'.reg.blocked && Quiet(w', s)
  {
    assert CloserOk(w, k);
  }

  /** Who may have the lock of a session once it is free: somebody waiting for it, or a new call if nobody is. */
  ghost predicate NextInLine(w: System, k: Closer, s: Sid) {
    if k in w.closers then w.closers[k] == Waiting(s)
    else forall j :: j in w.closers ==> w.closers[j] != Waiting(s)
  }

  function Acquire(w: System, k: Closer, s: Sid): Step {
    if k in w.closers then TakeLock(k) else BeginClose(k, s, false)
  }

  /** With the lock free and no send in flight, the next in line gets to its first hook without waiting. */
  lemma FreeLockLeadsToHook(w: System, k: Closer, s: Sid, order: seq<Conn>)
    requires Inv(w) && NextInLine(w, k, s) && s !in w.reg.holders && s in w.reg.blocked && Quiet(w, s)
    requires order != [] && (set c | c in order) == w.reg.Of(s)
    ensures Enabled(w, Acquire(w, k, s))
    ensures var w1 := Next(w, Acquire(w, k, s));
      Enabled(w1, SendsDone(k, order)) && Next(w1, SendsDone(k, order)).closers[k] == Closing(s, order[0], order[1..])
  {
    var w1 := Next(w, Acquire(w, k, s));
    assert w.reg.blocked + {s} == w.reg.blocked;
    forall t | t in w1.closers[k].tasks ensures t in w1.tasks && w1.tasks[t].phase == Done {
      assert w.tasks[t].session == s;
    }
    assert order[0] in (set c | c in order);
  }

  /** So a connection whose close failed can be closed again by the `close_all` that is next in line. */
  lemma FailedCloseIsRetriable(steps: seq<Step>, k: Closer, k': Closer, order: seq<Conn>)
    requires Possible(START, steps) && order != [] && k' != k
    requires var w := Run(START, steps);
      k in w.closers && w.closers[k].Closing? && NextInLine(w, k', w.closers[k].session)
    requires (set c | c in order) == Run(START, steps).reg.Of(Run(START, steps).closers[k].session)
    ensures var w, s := Run(START, steps), Run(START, steps).closers[k].session;
      && Enabled(w, Abort(k)) && Next(w, Abort(k)).reg.connections == w.reg.connections
      && var w1 := Next(w, Abort(k));
      Enabled(w1, Acquire(w1, k', s))
      && var w2 := Next(w1, Acquire(w1, k', s));
      Enabled(w2, SendsDone(k', order))
        && Next(w2, SendsDone(k', order)).closers[k'] == Closing(s, order[0], order[1..])
  {
    RunKeeps(START, steps);
    var w, s := Run(START, steps), Run(START, steps).closers[k].session;
    FailedCloseFreesLock(w, k);
    StepKeeps(w, Abort(k));
    FreeLockLeadsToHook(Next(w, Abort(k)), k', s, order);
  }
}
