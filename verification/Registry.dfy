/** The WebSocket session registry: its tables, and the pieces of each coroutine that run without an await. */
module Registry {
  import opened Wrappers

  type Sid = string
  type Conn = nat
  type Task = nat
  type Closer = nat

  /** Live connections, blocked sessions, who holds which close lock, and send tasks not yet cleaned up. */
  datatype Tables = Tables(
    connections: map<Sid, set<Conn>>,
    blocked: set<Sid>,
    holders: map<Sid, Closer>,
    sends: map<Sid, set<Task>>)
  {
    function Of(s: Sid): set<Conn> { if s in connections then connections[s] else {} }

    function SendsOf(s: Sid): set<Task> { if s in sends then sends[s] else {} }

    predicate MaySend(s: Sid, c: Conn) { c in Of(s) && s !in blocked }

    function Register(s: Sid, c: Conn): Tables {
      if s in blocked then this else this.(connections := connections[s := Of(s) + {c}])
    }

    function Disconnect(s: Sid, c: Conn): Tables {
      if s !in connections then this
      else if connections[s] - {c} == {} then this.(connections := connections - {s})
      else this.(connections := connections[s := connections[s] - {c}])
    }

    function AddSend(s: Sid, t: Task): Tables {
      this.(sends := sends[s := SendsOf(s) + {t}])
    }

    function DropSend(s: Sid, t: Task): Tables {
      if s !in sends then this
      else if sends[s] - {t} == {} then this.(sends := sends - {s})
      else this.(sends := sends[s := sends[s] - {t}])
    }
  }

  /** How an awaited send task ended. */
  datatype TaskEnd = Completed | Broke | WasCancelled

  class WebSocketSessionRegistry {
    var connections: map<Sid, set<Conn>>
    var blocked: set<Sid>
    var holders: map<Sid, Closer>
    var sends: map<Sid, set<Task>>

    function View(): Tables
      reads this
    {
      Tables(connections, blocked, holders, sends)
    }

    constructor ()
      ensures View() == Tables(map[], {}, map[], map[])
    {
      connections, blocked, holders, sends := map[], {}, map[], map[];
    }

    /** A handshake that lost the race with a revoke is refused. */
    method Register(s: Sid, c: Conn) returns (ok: bool)
      modifies this`connections
      ensures ok <==> s !in blocked
      ensures View() == old(View()).Register(s, c)
    {
      if s in blocked {
        return false;
      }
      if s !in connections {
        connections := connections[s := {}];
      }
      connections := connections[s := connections[s] + {c}];
      ok := true;
    }

    method Disconnect(s: Sid, c: Conn)
      modifies this`connections
      ensures View() == old(View()).Disconnect(s, c)
    {
      if s !in connections {
        return;
      }
      connections := connections[s := connections[s] - {c}];
      if connections[s] == {} {
        connections := connections - {s};
      }
    }

    method MaySend(s: Sid, c: Conn) returns (ok: bool)
      ensures ok <==> View().MaySend(s, c)
    {
      ok := s in connections && c in connections[s] && s !in blocked;
    }

    method ConnectionCount(s: Sid) returns (n: nat)
      ensures n == |View().Of(s)|
    {
      n := if s in connections then |connections[s]| else 0;
    }

    /** `send_if_allowed` up to its await: the send exists and is listed, or nothing happened. */
    method BeginSend(s: Sid, c: Conn, t: Task) returns (started: bool)
      modifies this`sends
      ensures started <==> old(View()).MaySend(s, c)
      ensures View() == if started then old(View()).AddSend(s, t) else old(View())
    {
      started := MaySend(s, c);
      if started {
        sends := sends[s := (if s in sends then sends[s] else {}) + {t}];
      }
    }

    /**
     `send_if_allowed` from its await on: its send leaves the list however it
     ended. A cancellation of the sender is passed on even when the send has
     completed; one of the send alone counts as a refusal if its session is blocked.
     */
    method EndSend(s: Sid, t: Task, end: TaskEnd, senderCancelled: bool) returns (delivered: Result<bool, ()>)
      modifies this`sends
      ensures View() == old(View()).DropSend(s, t)
      ensures delivered == Success(true) <==> end.Completed? && !senderCancelled
      ensures delivered == Success(false) <==> end.WasCancelled? && !senderCancelled && s in blocked
    {
      if s in sends {
        sends := sends[s := sends[s] - {t}];
        if sends[s] == {} {
          sends := sends - {s};
        }
      }
      match end {
        case Completed => delivered := if senderCancelled then Failure(()) else Success(true);
        case Broke => delivered := Failure(());
        case WasCancelled => delivered := if senderCancelled || s !in blocked then Failure(()) else Success(false);
      }
    }

    /**
     `close_all` up to its first await. With the lock free it is taken and the
     tasks to cancel are returned; otherwise the call queues for the lock.
     */
    method BeginClose(s: Sid, closer: Closer, queued: bool) returns (cancel: Option<set<Task>>)
      modifies this`blocked, this`holders
      ensures blocked == old(blocked) + {s}
      ensures holders == if cancel.Some? then old(holders)[s := closer] else old(holders)
      ensures cancel == if s in old(holders) || queued then None else Some(View().SendsOf(s))
    {
      blocked := blocked + {s};
      if s in holders || queued {
        return None;
      }
      holders := holders[s := closer];
      cancel := Some(if s in sends then sends[s] else {});
    }

    /** The loop of `close_all` from one hook to the next: the first connection still there, or the end. */
    method NextToClose(s: Sid, todo: seq<Conn>) returns (next: Option<Conn>, rest: seq<Conn>)
      ensures next.Some? ==> next.value in View().Of(s)
      ensures next.None? ==> forall c :: c in todo ==> c !in View().Of(s)
      ensures (next, rest) == FirstPresent(View().Of(s), todo)
    {
      var i := 0;
      while i < |todo|
        invariant i <= |todo|
        invariant forall j :: 0 <= j < i ==> todo[j] !in View().Of(s)
        invariant FirstPresent(View().Of(s), todo) == FirstPresent(View().Of(s), todo[i..])
      {
        if s in connections && todo[i] in connections[s] {
          return Some(todo[i]), todo[i + 1..];
        }
        i := i + 1;
      }
      return None, [];
    }

    /** After a hook that succeeded. */
    method FinishOne(s: Sid, c: Conn)
      modifies this`connections
      ensures View() == old(View()).Disconnect(s, c)
    {
      Disconnect(s, c);
    }

    /** Leaving `close_all` for whatever reason frees the lock. */
    method ReleaseClose(s: Sid)
      modifies this`holders
      ensures holders == old(holders) - {s}
    {
      holders := holders - {s};
    }
  }

  function FirstPresent(present: set<Conn>, todo: seq<Conn>): (Option<Conn>, seq<Conn>) {
    if todo == [] then (None, [])
    else if todo[0] in present then (Some(todo[0]), todo[1..])
    else FirstPresent(present, todo[1..])
  }
}
