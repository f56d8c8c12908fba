/** A forced close is never lost: its task is queued once for each call, and closes the connection when it runs. */
module ServerForcing {
  import opened ConnectionState
  import opened ServerModel
  import opened ServerProofs

  /** `forceClose` finds the connection open. */
  predicate Heard(s: Server, a: Action, c: ConnId) {
    a == ForceClose(c) && c in s.conns && Open(s.conns[c])
  }

  /** A loop runs `forceCloseInLoop` of the connection. */
  predicate Runs(s: Server, a: Action, c: ConnId) {
    a.RunNext? && Enabled(s, a) && Queue(s, a.loop)[0] == RunForceClose(c)
  }

  /** The calls of `forceClose` that found the connection open. */
  function Calls(actions: seq<Action>, c: ConnId): nat {
    if actions == [] then 0
    else
      var init := actions[..|actions| - 1];
      Calls(init, c) + if Heard(Execute(NEW_SERVER, init), actions[|actions| - 1], c) then 1 else 0
  }

  /** The calls whose task has run. */
  function Answered(actions: seq<Action>, c: ConnId): nat {
    if actions == [] then 0
    else
      var init := actions[..|actions| - 1];
      Answered(init, c) + if Runs(Execute(NEW_SERVER, init), actions[|actions| - 1], c) then 1 else 0
  }

  // ---- what leaves the queued forced closes alone ----

  ghost predicate SameForces(s: Server, r: Server) {
    forall loop, c :: Tally(r, loop, RunForceClose(c)) == Tally(s, loop, RunForceClose(c))
  }

  lemma PushSame(s: Server, loop: LoopId, task: Task)
    requires !task.RunForceClose?
    ensures SameForces(s, QueueInLoop(s, loop, task))
  {
    PushTally(s, loop, task);
    hide Tally;
  }

  lemma QueuesSame(s: Server, r: Server)
    requires r.queues == s.queues
    ensures SameForces(s, r)
  {
  }

  lemma EraseSame(s: Server, c: ConnId)
    requires c in s.conns
    ensures SameForces(s, RunErase(s, c)) && RunErase(s, c).conns == s.conns
  {
    var s1 := Log(s.(connections := s.connections - {c}), c, Erased);
    QueuesSame(s, s1);
    PushSame(s1, s.conns[c].io, Destroy(c));
    hide Tally;
  }

  lemma HandleCloseSame(s: Server, c: ConnId)
    requires c in s.conns
    ensures SameForces(s, HandleClose(s, c))
    ensures HandleClose(s, c).conns == s.conns[c := s.conns[c].(state := Disconnected)]
  {
    if s.conns[c].state != Disconnected {
      var s1 := CloseStarted(s, c);
      QueuesSame(s, s1);
      EraseSame(s1, c);
      PushSame(s1, BASE, EraseAndHandOff(c));
      if s.conns[c].io == BASE {
        QueuesSame(RunErase(s1, c), HandleClose(s, c));
      } else {
        QueuesSame(QueueInLoop(s1, BASE, EraseAndHandOff(c)), HandleClose(s, c));
      }
      hide Tally, QueueInLoop, RunErase;
    }
  }

  /** No task changes the queued forced closes, and none brings a connection back up. */
  lemma RunTaskSame(s: Server, task: Task)
    requires task.conn in s.conns && (task.Establish? ==> s.conns[task.conn].state == Connecting)
    ensures SameForces(s, RunTask(s, task)) && StaysDown(s, RunTask(s, task))
    ensures task.RunForceClose? && s.conns[task.conn].state != Connecting ==>
              RunTask(s, task).conns[task.conn].state == Disconnected
  {
    var c := task.conn;
    match task {
      case Establish(_) => QueuesSame(s, RunTask(s, task));
      case RunForceClose(_) =>
        QueuesSame(s, s);
        HandleCloseSame(s, c);
      case EraseAndHandOff(_) => EraseSame(s, c);
      case Destroy(_) => QueuesSame(s, RunTask(s, task));
    }
    hide Tally, SameForces, HandleClose, RunErase;
  }

  /** Connections keep their loop; one that is down stays down, and one shut down stays so until then. */
  ghost predicate StaysDown(s: Server, r: Server) {
    forall c :: c in s.conns ==>
      && c in r.conns && r.conns[c].io == s.conns[c].io
      && (s.conns[c].state == Disconnected ==> r.conns[c].state == Disconnected)
      && (Closing(s.conns[c]) ==> Closing(r.conns[c]))
  }

  predicate Closing(c: Conn) {
    c.state == Disconnecting || c.state == Disconnected
  }

  // ---- one step ----

  lemma AcceptForces(s: Server, io: LoopId)
    requires Inv(s)
    ensures SameForces(s, NewConnection(s, io)) && StaysDown(s, NewConnection(s, io))
  {
    hide Tally, ConnOk, Unborn, ConnectEstablished, QueueInLoop;
    var s1 := Made(s, io);
    QueuesSame(s, s1);
    assert s.nextId !in s.conns;
    if io == BASE {
      EstablishSame(s1, s.nextId);
    } else {
      PushSame(s1, io, Establish(s.nextId));
      PushKeepsConns(s1, io, Establish(s.nextId));
    }
  }

  lemma EstablishSame(s: Server, c: ConnId)
    requires c in s.conns
    ensures SameForces(s, ConnectEstablished(s, c))
    ensures ConnectEstablished(s, c).conns == s.conns[c := s.conns[c].(state := Connected, registered := true)]
  {
    QueuesSame(s, ConnectEstablished(s, c));
  }

  lemma PushKeepsConns(s: Server, loop: LoopId, task: Task)
    ensures QueueInLoop(s, loop, task).conns == s.conns
  {
  }

  lemma CallForces(s: Server, c: ConnId, loop: LoopId, d: ConnId)
    requires c in s.conns
    ensures var r := Next(s, ForceClose(c));
            && StaysDown(s, r)
            && Tally(r, loop, RunForceClose(d)) ==
               Tally(s, loop, RunForceClose(d)) +
               if Heard(s, ForceClose(c), d) && loop == s.conns[c].io then 1 else 0
  {
    if Open(s.conns[c]) {
      var s1 := s.(conns := s.conns[c := s.conns[c].(state := Disconnecting)]);
      QueuesSame(s, s1);
      PushTally(s1, s.conns[c].io, RunForceClose(c));
    }
    hide Tally;
  }

  /** A task that brings a connection up, or forces it closed, is queued for one that can be. */
  lemma QueuedFor(s: Server, loop: LoopId)
    requires Inv(s) && Queue(s, loop) != []
    ensures var task := Queue(s, loop)[0];
            && task.conn in s.conns
            && (task.Establish? ==> s.conns[task.conn].state == Connecting)
            && (task.RunForceClose? ==> s.conns[task.conn].state != Connecting && loop == s.conns[task.conn].io)
  {
    PopTally(s, loop);
    var task := Queue(s, loop)[0];
    assert if task.conn in s.conns then ConnOk(s, task.conn) else Unborn(s, task.conn);
    hide Tally, Trace;
    assert Tally(s, loop, task) > 0;
  }

  lemma RunForces(s: Server, from: LoopId, loop: LoopId, d: ConnId)
    requires Inv(s) && Enabled(s, RunNext(from))
    ensures var r := Next(s, RunNext(from));
            && StaysDown(s, r)
            && Tally(r, loop, RunForceClose(d)) ==
               Tally(s, loop, RunForceClose(d)) - (if Runs(s, RunNext(from), d) && loop == from then 1 else 0)
            && (Runs(s, RunNext(from), d) ==>
                  d in r.conns && r.conns[d].state == Disconnected && from == r.conns[d].io)
  {
    hide Inv, Tally, RunTask, Queue, SameForces;
    QueuedFor(s, from);
    PopTally(s, from);
    RunTaskSame(Pop(s, from), Queue(s, from)[0]);
    SameTally(Pop(s, from), Next(s, RunNext(from)), loop, d);
  }

  lemma SameTally(s: Server, r: Server, loop: LoopId, c: ConnId)
    requires SameForces(s, r)
    ensures Tally(r, loop, RunForceClose(c)) == Tally(s, loop, RunForceClose(c))
  {
    hide Tally;
  }

  lemma OtherForces(s: Server, a: Action)
    requires Inv(s) && !a.ForceClose? && !a.RunNext?
    ensures SameForces(s, Next(s, a)) && StaysDown(s, Next(s, a))
  {
    hide Inv, Tally, NewConnection, HandleClose, RunTask, SameForces, Queue;
    QueuesSame(s, s);
    if Enabled(s, a) {
      match a
      case Accept(io) => AcceptForces(s, io);
      case PeerClosed(c) => HandleCloseSame(s, c);
      case Shutdown(c) => QueuesSame(s, Next(s, a));
    }
  }

  /** What a step does to the queued forced closes of connection `d`, and to it. */
  lemma NextForces(s: Server, a: Action, loop: LoopId, d: ConnId)
    requires Inv(s)
    ensures var r := Next(s, a);
            && StaysDown(s, r)
            && Tally(r, loop, RunForceClose(d)) ==
               Tally(s, loop, RunForceClose(d)) +
               (if Heard(s, a, d) && loop == s.conns[d].io then 1 else 0) -
               (if Runs(s, a, d) && loop == a.loop then 1 else 0)
            && (Runs(s, a, d) ==> d in r.conns && r.conns[d].state == Disconnected && a.loop == r.conns[d].io)
            && (Heard(s, a, d) ==> r.conns[d].state == Disconnecting)
  {
    if a.ForceClose? && Enabled(s, a) {
      CallForces(s, a.conn, loop, d);
    } else if a.RunNext? && Enabled(s, a) {
      RunForces(s, a.loop, loop, d);
    } else if !a.ForceClose? && !a.RunNext? {
      OtherForces(s, a);
    }
    hide Inv, Tally, NewConnection, HandleClose, RunTask, Queue;
  }

  // ---- every run ----

  lemma UnknownHasNone(s: Server, c: ConnId, loop: LoopId)
    requires Inv(s) && c !in s.conns
    ensures Tally(s, loop, RunForceClose(c)) == 0
  {
    assert Unborn(s, c);
  }

  /** The forced closes queued for a connection, with those answered, are the calls; one answered took it down. */
  ghost predicate AddsUp(s: Server, c: ConnId, answered: nat, calls: nat) {
    if c in s.conns then
      && Tally(s, s.conns[c].io, RunForceClose(c)) + answered == calls
      && (answered > 0 ==> s.conns[c].state == Disconnected)
      && (calls > 0 ==> Closing(s.conns[c]))
    else
      calls == 0 && answered == 0
  }

  lemma NextAddsUp(s: Server, a: Action, c: ConnId, answered: nat, calls: nat)
    requires Inv(s) && AddsUp(s, c, answered, calls)
    ensures AddsUp(Next(s, a), c, answered + (if Runs(s, a, c) then 1 else 0),
                   calls + if Heard(s, a, c) then 1 else 0)
  {
    hide Inv, Tally, Next, Queue, Enabled, Open;
    var r := Next(s, a);
    if c in r.conns {
      NextForces(s, a, r.conns[c].io, c);
      if c !in s.conns {
        UnknownHasNone(s, c, r.conns[c].io);
      }
    } else {
      NextForces(s, a, BASE, c);
    }
  }

  lemma {:induction false} ForcesAddUp(actions: seq<Action>, c: ConnId)
    ensures Inv(Execute(NEW_SERVER, actions))
    ensures AddsUp(Execute(NEW_SERVER, actions), c, Answered(actions, c), Calls(actions, c))
    decreases |actions|
  {
    hide Inv, AddsUp, Next, Runs, Heard;
    ExecuteKeeps(actions);
    if actions == [] {
      NothingForced(c);
    } else {
      var init, a := actions[..|actions| - 1], actions[|actions| - 1];
      ForcesAddUp(init, c);
      NextAddsUp(Execute(NEW_SERVER, init), a, c, Answered(init, c), Calls(init, c));
    }
  }

  lemma NothingForced(c: ConnId)
    ensures AddsUp(NEW_SERVER, c, 0, 0)
  {
  }

  /**
   * A forced close is never lost: over every run, the calls of `forceClose` that found their connection open are as
   * many as the tasks for it that have run or are queued on its loop, and a connection one has run for is down.
   */
  lemma ForcedClosesAreConserved(actions: seq<Action>, c: ConnId)
    requires c in Execute(NEW_SERVER, actions).conns
    ensures var s := Execute(NEW_SERVER, actions);
            && multiset(Queue(s, s.conns[c].io))[RunForceClose(c)] + Answered(actions, c) == Calls(actions, c)
            && (Answered(actions, c) > 0 ==> s.conns[c].state == Disconnected)
            && (Calls(actions, c) > 0 && s.conns[c].state != Disconnected ==>
                  s.conns[c].state == Disconnecting && RunForceClose(c) in Queue(s, s.conns[c].io))
  {
    ForcesAddUp(actions, c);
    hide Inv, Execute, Calls, Answered;
    var s := Execute(NEW_SERVER, actions);
    assert Tally(s, s.conns[c].io, RunForceClose(c)) == multiset(Queue(s, s.conns[c].io))[RunForceClose(c)];
  }
}
