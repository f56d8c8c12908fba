/** The queues of `ServerModel` are the task queues of real event loops: the hand-off needs no order of its own. */
module CloseDelivery {
  import opened Bytes
  import opened ConnectionState
  import opened ServerModel
  import opened TaskMarks
  import L = EventLoopModel

  // ---- what goes through the queue of one loop ----

  /** The queue of `loop` without the task that `a` takes off it. */
  function Shortened(s: Server, a: Action, loop: LoopId): seq<Task> {
    if Enabled(s, a) && a == RunNext(loop) then Queue(s, loop)[1..] else Queue(s, loop)
  }

  function Taken(s: Server, a: Action, loop: LoopId): seq<Task> {
    if Enabled(s, a) && a == RunNext(loop) then [Queue(s, loop)[0]] else []
  }

  /** What `a` puts on it. */
  function Added(s: Server, a: Action, loop: LoopId): seq<Task> {
    var r := Queue(Next(s, a), loop);
    var rest := Shortened(s, a, loop);
    if rest <= r then r[|rest|..] else []
  }

  /** Every task a run has put on the queue of `loop`. */
  function Enqueued(actions: seq<Action>, loop: LoopId): seq<Task> {
    if actions == [] then []
    else
      var init := actions[..|actions| - 1];
      Enqueued(init, loop) + Added(Execute(NEW_SERVER, init), actions[|actions| - 1], loop)
  }

  /** And every task it has run there. */
  function Ran(actions: seq<Action>, loop: LoopId): seq<Task> {
    if actions == [] then []
    else
      var init := actions[..|actions| - 1];
      Ran(init, loop) + Taken(Execute(NEW_SERVER, init), actions[|actions| - 1], loop)
  }

  // ---- the queue is FIFO ----

  predicate Appends(s: Server, r: Server, loop: LoopId) {
    Queue(s, loop) <= Queue(r, loop)
  }

  lemma EraseAppends(s: Server, c: ConnId, loop: LoopId)
    requires c in s.conns
    ensures Appends(s, RunErase(s, c), loop)
  {
  }

  lemma CloseAppends(s: Server, c: ConnId, loop: LoopId)
    requires c in s.conns
    ensures Appends(s, HandleClose(s, c), loop)
  {
    if s.conns[c].state != Disconnected {
      var s0 := s.(conns := s.conns[c := s.conns[c].(state := Disconnected)]);
      var s1 := Log(Log(s0, c, CloseBegins), c, Down);
      EraseAppends(s1, c, loop);
      hide RunErase;
    }
  }

  lemma TaskAppends(s: Server, task: Task, loop: LoopId)
    requires task.conn in s.conns
    ensures Appends(s, RunTask(s, task), loop)
  {
    match task
    case Establish(_) =>
    case RunForceClose(c) =>
      CloseAppends(s, c, loop);
      hide HandleClose;
    case EraseAndHandOff(c) => EraseAppends(s, c, loop);
    case Destroy(_) =>
  }

  lemma NextAppends(s: Server, a: Action, loop: LoopId)
    ensures Shortened(s, a, loop) <= Queue(Next(s, a), loop)
  {
    hide HandleClose, RunTask, ConnectEstablished;
    if Enabled(s, a) {
      match a
      case Accept(io) => AcceptAppends(s, io, loop);
      case PeerClosed(c) => CloseAppends(s, c, loop);
      case Shutdown(_) =>
      case ForceClose(_) =>
      case RunNext(other) =>
        TaskAppends(s.(queues := s.queues[other := Queue(s, other)[1..]]), Queue(s, other)[0], loop);
    }
  }

  lemma AcceptAppends(s: Server, io: LoopId, loop: LoopId)
    ensures Appends(s, NewConnection(s, io), loop)
  {
  }

  lemma JoinThree(ran: seq<Task>, q: seq<Task>, taken: seq<Task>, rest: seq<Task>, added: seq<Task>)
    requires q == taken + rest
    ensures (ran + taken) + (rest + added) == (ran + q) + added
  {
  }

  /** First in, first out, over every run: the tasks run and the tasks still queued are the tasks ever queued. */
  lemma {:induction false} QueuesAreFifo(actions: seq<Action>, loop: LoopId)
    ensures Ran(actions, loop) + Queue(Execute(NEW_SERVER, actions), loop) == Enqueued(actions, loop)
    decreases |actions|
  {
    hide Next, Enabled;
    if actions != [] {
      var init, a := actions[..|actions| - 1], actions[|actions| - 1];
      var s := Execute(NEW_SERVER, init);
      QueuesAreFifo(init, loop);
      NextAppends(s, a, loop);
      TakenFirst(s, a, loop);
      JoinThree(Ran(init, loop), Queue(s, loop), Taken(s, a, loop), Shortened(s, a, loop), Added(s, a, loop));
      assert Queue(Next(s, a), loop) == Shortened(s, a, loop) + Added(s, a, loop);
    }
  }

  lemma TakenFirst(s: Server, a: Action, loop: LoopId)
    ensures Queue(s, loop) == Taken(s, a, loop) + Shortened(s, a, loop)
  {
  }

  // ---- the event loop underneath ----

  lemma SameLengthSplit<T>(a: seq<T>, b: seq<T>, c: seq<T>, d: seq<T>)
    requires a + b == c + d && |a| == |c|
    ensures a == c && b == d
  {
    assert a == (a + b)[..|a|] && c == (c + d)[..|c|];
    assert b == (a + b)[|a|..] && d == (c + d)[|c|..];
  }

  /**
   * The hand-off on real loops: take any run of the server and any interleaving of one of its event loops, which
   * gets the server's tasks in the order the server queues them, among anybody's other tasks, and has run as many
   * of them as the server's run has. It has run exactly the same ones; what it still holds, swapped out or pending,
   * is exactly the queue of the server; and if its next task is one of the server's, it is the one that the
   * server's next step on that loop runs.
   */
  lemma {:induction false} LoopsRunTheHandOff(
      actions: seq<Action>, loop: LoopId, loopActions: seq<L.Action>, mark: L.Task -> Option<Task>)
    requires var l := L.Execute(L.NEW_LOOP, loopActions);
             && Marked(L.Enqueued(loopActions), mark) == Enqueued(actions, loop)
             && |Marked(l.executed, mark)| == |Ran(actions, loop)|
    ensures var l := L.Execute(L.NEW_LOOP, loopActions);
            var queue := Queue(Execute(NEW_SERVER, actions), loop);
            && Marked(l.executed, mark) == Ran(actions, loop)
            && Marked(L.Batch(l) + l.pending, mark) == queue
            && (L.Batch(l) != [] && mark(L.Batch(l)[0]).Some? ==> queue != [] && queue[0] == mark(L.Batch(l)[0]).value)
  {
    hide Marked, Enqueued, Ran, Execute, L.Execute, L.Batch, Queue;
    var l := L.Execute(L.NEW_LOOP, loopActions);
    QueuesAreFifo(actions, loop);
    MarkedInOrder(loopActions, mark);
    SameLengthSplit(Marked(l.executed, mark), Marked(L.Batch(l) + l.pending, mark), Ran(actions, loop),
                    Queue(Execute(NEW_SERVER, actions), loop));
    if L.Batch(l) != [] && mark(L.Batch(l)[0]).Some? {
      MarkedFirst(L.Batch(l) + l.pending, mark);
    }
  }
}
