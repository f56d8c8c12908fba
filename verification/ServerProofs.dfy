/** Every connection lives and dies in one order, whichever loops it uses. */
module ServerProofs {
  import opened ConnectionState
  import opened ServerModel

  /** What happened to one connection, in order. */
  function Trace(log: seq<Event>, c: ConnId): seq<Kind> {
    if log == [] then []
    else
      var last := log[|log| - 1];
      Trace(log[..|log| - 1], c) + (if last.conn == c then [last.kind] else [])
  }

  lemma TraceOne(log: seq<Event>, e: Event)
    ensures forall c :: Trace(log + [e], c) == Trace(log, c) + (if e.conn == c then [e.kind] else [])
  {
    assert (log + [e])[..|log|] == log;
  }

  /** The whole life of a connection. On the base loop the erasure happens inside `handleClose`. */
  function Life(io: LoopId): seq<Kind> {
    if io == BASE then [Established, Up, CloseBegins, Down, Erased, CloseEnds, Destroyed]
    else [Established, Up, CloseBegins, Down, CloseEnds, Erased, Destroyed]
  }

  function Tally(s: Server, loop: LoopId, task: Task): nat {
    multiset(Queue(s, loop))[task]
  }

  /** How far `c` has come decides its state, its place in the map and the one task that is queued for it. */
  ghost predicate ConnOk(s: Server, c: ConnId)
    requires c in s.conns
  {
    var conn := s.conns[c];
    var t := Trace(s.log, c);
    && t <= Life(conn.io)
    && (|t| == 0 || |t| == 2 || (|t| == 5 && conn.io != BASE) || |t| >= 6)
    && (|t| == 0 ==> conn.state == Connecting && conn.io != BASE)
    && (|t| == 2 ==> Open(conn))
    && (|t| >= 5 ==> conn.state == Disconnected)
    && (conn.registered <==> 2 <= |t| <= 6)
    && (c in s.connections <==> |t| <= 5)
    && (forall loop :: Tally(s, loop, Establish(c)) == if loop == conn.io && |t| == 0 then 1 else 0)
    && (forall loop :: Tally(s, loop, EraseAndHandOff(c)) == if loop == BASE && |t| == 5 then 1 else 0)
    && (forall loop :: Tally(s, loop, Destroy(c)) == if loop == conn.io && |t| == 6 then 1 else 0)
    && (forall loop :: Tally(s, loop, RunForceClose(c)) > 0 ==> loop == conn.io && |t| >= 2)
  }

  /** A connection not made yet has left no mark anywhere. */
  ghost predicate Unborn(s: Server, c: ConnId) {
    && c !in s.connections && Trace(s.log, c) == []
    && (forall loop, task: Task :: task.conn == c ==> Tally(s, loop, task) == 0)
  }

  ghost predicate Inv(s: Server) {
    && (forall c :: c in s.conns ==> c < s.nextId && ConnOk(s, c))
    && (forall c: ConnId :: c !in s.conns ==> Unborn(s, c))
  }

  // ---- one queue operation ----

  lemma PushTally(s: Server, loop: LoopId, task: Task)
    ensures var r := QueueInLoop(s, loop, task);
            forall l, t :: Tally(r, l, t) == Tally(s, l, t) + if l == loop && t == task then 1 else 0
  {
  }

  lemma PopTally(s: Server, loop: LoopId)
    requires Queue(s, loop) != []
    ensures var r := s.(queues := s.queues[loop := Queue(s, loop)[1..]]);
            && Tally(s, loop, Queue(s, loop)[0]) > 0
            && forall l, t :: Tally(r, l, t) == Tally(s, l, t) - if l == loop && t == Queue(s, loop)[0] then 1 else 0
  {
    var q := Queue(s, loop);
    assert q == [q[0]] + q[1..];
  }

  // ---- steps touch one connection ----

  /** From `s` to `r`, only `c` has changed. */
  ghost predicate OnlyTouches(s: Server, r: Server, c: ConnId) {
    && (forall d :: d != c ==> (d in s.conns <==> d in r.conns) && (d in s.connections <==> d in r.connections))
    && (forall d :: d != c && d in s.conns ==> r.conns[d] == s.conns[d])
    && (forall d :: d != c ==> Trace(r.log, d) == Trace(s.log, d))
    && (forall loop, task: Task :: task.conn != c ==> Tally(r, loop, task) == Tally(s, loop, task))
    && s.nextId <= r.nextId
  }

  lemma OthersStayOk(s: Server, r: Server, c: ConnId)
    requires Inv(s) && OnlyTouches(s, r, c)
    requires if c in r.conns then c < r.nextId && ConnOk(r, c) else Unborn(r, c)
    ensures Inv(r)
  {
    hide Trace, Tally;
    forall d | d in r.conns && d != c
      ensures d < r.nextId && ConnOk(r, d)
    {
      assert ConnOk(s, d);
    }
    forall d: ConnId | d !in r.conns && d != c
      ensures Unborn(r, d)
    {
      assert Unborn(s, d);
    }
  }

  /** The log of `r` is that of `s` with `kinds` added for `c`, and the queues have changed as `delta` says. */
  lemma EstablishedOk(s: Server, c: ConnId)
    requires c in s.conns && c < s.nextId && s.conns[c].state == Connecting && Trace(s.log, c) == []
    requires !s.conns[c].registered && c in s.connections
    requires forall loop, task: Task :: task.conn == c ==> Tally(s, loop, task) == 0
    ensures var r := ConnectEstablished(s, c);
            c in r.conns && r.nextId == s.nextId && ConnOk(r, c) && OnlyTouches(s, r, c)
  {
    var r := ConnectEstablished(s, c);
    TraceOne(s.log, Event(c, Established));
    TraceOne(s.log + [Event(c, Established)], Event(c, Up));
    hide Trace;
    assert forall loop, task :: Tally(r, loop, task) == Tally(s, loop, task);
    hide Tally;
    assert Trace(r.log, c) == [Established, Up];
  }

  /** `RunErase`, from a connection whose down notification is out. */
  lemma EraseTouches(s: Server, c: ConnId)
    requires c in s.conns
    ensures var r := RunErase(s, c);
            && OnlyTouches(s, r, c) && r.conns == s.conns && c !in r.connections && r.nextId == s.nextId
            && Trace(r.log, c) == Trace(s.log, c) + [Erased]
            && (forall loop, task: Task :: task.conn == c ==>
                  Tally(r, loop, task) ==
                  Tally(s, loop, task) + if loop == s.conns[c].io && task == Destroy(c) then 1 else 0)
  {
    TraceOne(s.log, Event(c, Erased));
    PushTally(Log(s.(connections := s.connections - {c}), c, Erased), s.conns[c].io, Destroy(c));
    hide Trace;
    var s1 := Log(s.(connections := s.connections - {c}), c, Erased);
    assert forall loop, task :: Tally(s1, loop, task) == Tally(s, loop, task);
    hide Tally;
  }

  /** The part of `handleClose` before the close callback. */
  function CloseStarted(s: Server, c: ConnId): Server
    requires c in s.conns
  {
    Log(Log(s.(conns := s.conns[c := s.conns[c].(state := Disconnected)]), c, CloseBegins), c, Down)
  }

  lemma CloseStartedTouches(s: Server, c: ConnId)
    requires c in s.conns
    ensures var r := CloseStarted(s, c);
            && OnlyTouches(s, r, c) && r.conns == s.conns[c := s.conns[c].(state := Disconnected)]
            && r.connections == s.connections && r.nextId == s.nextId
            && Trace(r.log, c) == Trace(s.log, c) + [CloseBegins, Down]
            && (forall loop, task :: Tally(r, loop, task) == Tally(s, loop, task))
  {
    hide Trace, Tally;
    TraceOne(s.log, Event(c, CloseBegins));
    TraceOne(s.log + [Event(c, CloseBegins)], Event(c, Down));
    assert Trace(s.log, c) + [CloseBegins] + [Down] == Trace(s.log, c) + [CloseBegins, Down];
    SameQueuesTally(s, CloseStarted(s, c));
  }

  lemma SameQueuesTally(s: Server, r: Server)
    requires r.queues == s.queues
    ensures forall loop, task :: Tally(r, loop, task) == Tally(s, loop, task)
  {
  }

  lemma LogTouches(s: Server, c: ConnId, kind: Kind)
    ensures var r := Log(s, c, kind);
            && OnlyTouches(s, r, c) && Trace(r.log, c) == Trace(s.log, c) + [kind]
            && (forall loop, task :: Tally(r, loop, task) == Tally(s, loop, task))
  {
    TraceOne(s.log, Event(c, kind));
    hide Trace;
    assert forall loop :: Queue(Log(s, c, kind), loop) == Queue(s, loop);
  }

  lemma PushTouches(s: Server, loop: LoopId, task: Task)
    ensures OnlyTouches(s, QueueInLoop(s, loop, task), task.conn)
  {
    PushTally(s, loop, task);
    hide Trace, Tally;
  }

  lemma TouchesCompose(s: Server, m: Server, r: Server, c: ConnId)
    requires OnlyTouches(s, m, c) && OnlyTouches(m, r, c)
    ensures OnlyTouches(s, r, c)
  {
    hide Trace, Tally;
  }

  lemma OpenMeansUp(s: Server, c: ConnId)
    requires c in s.conns && ConnOk(s, c) && Open(s.conns[c])
    ensures Trace(s.log, c) == [Established, Up] && s.conns[c].registered && c in s.connections
    ensures forall loop, task: Task :: task.conn == c && !task.RunForceClose? ==> Tally(s, loop, task) == 0
    ensures forall loop :: Tally(s, loop, RunForceClose(c)) > 0 ==> loop == s.conns[c].io
  {
    hide Tally;
    var t := Trace(s.log, c);
    assert t <= Life(s.conns[c].io) && |t| == 2;
    assert t == Life(s.conns[c].io)[..2];
  }

  /** Closing on the base loop: erased at once, and handed to the queue for destruction. */
  lemma CloseOnBase(s: Server, c: ConnId)
    requires c in s.conns && ConnOk(s, c) && Open(s.conns[c]) && s.conns[c].io == BASE
    ensures var r := HandleClose(s, c); c in r.conns && ConnOk(r, c) && OnlyTouches(s, r, c) && r.nextId == s.nextId
  {
    hide Trace, Tally, OnlyTouches, RunErase, ConnOk;
    OpenMeansUp(s, c);
    var s1 := CloseStarted(s, c);
    CloseStartedTouches(s, c);
    var s2 := RunErase(s1, c);
    EraseTouches(s1, c);
    var r := Log(s2, c, CloseEnds);
    LogTouches(s2, c, CloseEnds);
    TouchesCompose(s, s1, s2, c);
    TouchesCompose(s, s2, r, c);
    assert Trace(r.log, c) == [Established, Up] + [CloseBegins, Down] + [Erased] + [CloseEnds];
    LeavingIsOk(r, c);
  }

  lemma LeavingIsOk(r: Server, c: ConnId)
    requires c in r.conns && r.conns[c].state == Disconnected && r.conns[c].registered && c !in r.connections
    requires Trace(r.log, c) == Life(r.conns[c].io)[..6]
    requires forall loop, task: Task :: task.conn == c && !task.RunForceClose? ==>
               Tally(r, loop, task) == if loop == r.conns[c].io && task == Destroy(c) then 1 else 0
    requires forall loop :: Tally(r, loop, RunForceClose(c)) > 0 ==> loop == r.conns[c].io
    ensures ConnOk(r, c)
  {
    hide Trace, Tally;
  }

  /** Closing on another loop: the erasure is queued for the base loop. */
  lemma CloseElsewhere(s: Server, c: ConnId)
    requires c in s.conns && ConnOk(s, c) && Open(s.conns[c]) && s.conns[c].io != BASE
    ensures var r := HandleClose(s, c); c in r.conns && ConnOk(r, c) && OnlyTouches(s, r, c) && r.nextId == s.nextId
  {
    hide Trace, Tally, OnlyTouches, ConnOk;
    OpenMeansUp(s, c);
    var s1 := CloseStarted(s, c);
    CloseStartedTouches(s, c);
    var s2 := QueueInLoop(s1, BASE, EraseAndHandOff(c));
    PushTally(s1, BASE, EraseAndHandOff(c));
    PushTouches(s1, BASE, EraseAndHandOff(c));
    var r := Log(s2, c, CloseEnds);
    LogTouches(s2, c, CloseEnds);
    TouchesCompose(s, s1, s2, c);
    TouchesCompose(s, s2, r, c);
    assert Trace(r.log, c) == [Established, Up] + [CloseBegins, Down] + [CloseEnds];
    ClosingIsOk(r, c);
  }

  lemma ClosingIsOk(r: Server, c: ConnId)
    requires c in r.conns && r.conns[c].state == Disconnected && r.conns[c].registered && c in r.connections
    requires r.conns[c].io != BASE && Trace(r.log, c) == Life(r.conns[c].io)[..5]
    requires forall loop, task: Task :: task.conn == c && !task.RunForceClose? ==>
               Tally(r, loop, task) == if loop == BASE && task == EraseAndHandOff(c) then 1 else 0
    requires forall loop :: Tally(r, loop, RunForceClose(c)) > 0 ==> loop == r.conns[c].io
    ensures ConnOk(r, c)
  {
    hide Trace, Tally;
  }

  lemma CloseKeeps(s: Server, c: ConnId)
    requires Inv(s) && c in s.conns && s.conns[c].state != Connecting
    ensures Inv(HandleClose(s, c))
  {
    hide Trace, Tally, OnlyTouches, ConnOk, Unborn;
    assert ConnOk(s, c);
    if s.conns[c].state == Disconnected {
      assert HandleClose(s, c) == s;
    } else {
      if s.conns[c].io == BASE {
        CloseOnBase(s, c);
      } else {
        CloseElsewhere(s, c);
      }
      OthersStayOk(s, HandleClose(s, c), c);
    }
  }

  // ---- tasks ----

  /** Taking a task off a queue. */
  function Pop(s: Server, loop: LoopId): Server
    requires Queue(s, loop) != []
  {
    s.(queues := s.queues[loop := Queue(s, loop)[1..]])
  }

  lemma PopTouches(s: Server, loop: LoopId)
    requires Queue(s, loop) != []
    ensures var task := Queue(s, loop)[0];
            var r := Pop(s, loop);
            && OnlyTouches(s, r, task.conn) && Tally(s, loop, task) > 0
            && (forall l, t :: Tally(r, l, t) == Tally(s, l, t) - if l == loop && t == task then 1 else 0)
  {
    PopTally(s, loop);
    hide Tally, Trace;
  }

  lemma RunEstablishKeeps(s: Server, loop: LoopId)
    requires Inv(s) && Queue(s, loop) != [] && Queue(s, loop)[0].Establish? && Queue(s, loop)[0].conn in s.conns
    ensures Inv(RunTask(Pop(s, loop), Queue(s, loop)[0]))
  {
    var c := Queue(s, loop)[0].conn;
    var s1 := Pop(s, loop);
    PopTouches(s, loop);
    hide Tally, Trace, OnlyTouches;
    assert ConnOk(s, c) && Tally(s, loop, Establish(c)) > 0;
    assert Trace(s.log, c) == [];
    NoTasks(s1, c);
    EstablishedOk(s1, c);
    TouchesCompose(s, s1, ConnectEstablished(s1, c), c);
    OthersStayOk(s, ConnectEstablished(s1, c), c);
  }

  lemma NoTasks(s: Server, c: ConnId)
    requires forall loop :: Tally(s, loop, Establish(c)) == 0 && Tally(s, loop, EraseAndHandOff(c)) == 0
    requires forall loop :: Tally(s, loop, Destroy(c)) == 0 && Tally(s, loop, RunForceClose(c)) == 0
    ensures forall loop, task: Task :: task.conn == c ==> Tally(s, loop, task) == 0
  {
    hide Tally;
    forall loop, task: Task | task.conn == c
      ensures Tally(s, loop, task) == 0
    {
      match task
      case Establish(_) =>
      case RunForceClose(_) =>
      case EraseAndHandOff(_) =>
      case Destroy(_) =>
    }
  }

  lemma RunForceCloseKeeps(s: Server, loop: LoopId)
    requires Inv(s) && Queue(s, loop) != [] && Queue(s, loop)[0].RunForceClose? && Queue(s, loop)[0].conn in s.conns
    ensures Inv(RunTask(Pop(s, loop), Queue(s, loop)[0]))
  {
    hide Inv, HandleClose, Queue;
    var s1 := Pop(s, loop);
    PopForceCloseKeeps(s, loop);
    if Open(s1.conns[Queue(s, loop)[0].conn]) {
      CloseKeeps(s1, Queue(s, loop)[0].conn);
    }
  }

  /** Only the `RunForceClose` tasks of `c` have changed, and any new one is on the loop of an open connection. */
  lemma ForceTasksDiffer(s: Server, r: Server, c: ConnId)
    requires c in s.conns && ConnOk(s, c) && r.conns == s.conns && r.log == s.log && r.connections == s.connections
    requires forall loop, task: Task :: task.conn == c && !task.RunForceClose? ==>
               Tally(r, loop, task) == Tally(s, loop, task)
    requires forall loop :: Tally(r, loop, RunForceClose(c)) > 0 ==>
               Tally(s, loop, RunForceClose(c)) > 0 || (loop == s.conns[c].io && Open(s.conns[c]))
    ensures ConnOk(r, c)
  {
    hide Trace, Tally;
  }

  lemma PopForceCloseKeeps(s: Server, loop: LoopId)
    requires Inv(s) && Queue(s, loop) != [] && Queue(s, loop)[0].RunForceClose? && Queue(s, loop)[0].conn in s.conns
    ensures Inv(Pop(s, loop))
  {
    hide Tally, Trace, OnlyTouches, ConnOk, Unborn, Queue;
    var c := Queue(s, loop)[0].conn;
    PopTouches(s, loop);
    ForceTasksDiffer(s, Pop(s, loop), c);
    OthersStayOk(s, Pop(s, loop), c);
  }

  lemma EraseTaskMeans(s: Server, c: ConnId, loop: LoopId)
    requires c in s.conns && ConnOk(s, c) && Tally(s, loop, EraseAndHandOff(c)) > 0
    ensures loop == BASE && s.conns[c].io != BASE && Trace(s.log, c) == Life(s.conns[c].io)[..5]
    ensures s.conns[c].state == Disconnected && s.conns[c].registered
    ensures forall l, task: Task :: task.conn == c && !task.RunForceClose? ==>
              Tally(s, l, task) == if l == BASE && task == EraseAndHandOff(c) then 1 else 0
    ensures forall l :: Tally(s, l, RunForceClose(c)) > 0 ==> l == s.conns[c].io
  {
    hide Trace, Tally;
    assert |Trace(s.log, c)| == 5;
  }

  lemma RunEraseKeeps(s: Server, loop: LoopId)
    requires Inv(s) && Queue(s, loop) != [] && Queue(s, loop)[0].EraseAndHandOff? && Queue(s, loop)[0].conn in s.conns
    ensures Inv(RunTask(Pop(s, loop), Queue(s, loop)[0]))
  {
    hide Tally, Trace, OnlyTouches, RunErase, ConnOk, Unborn, Queue;
    var c := Queue(s, loop)[0].conn;
    var s1 := Pop(s, loop);
    PopTouches(s, loop);
    EraseTaskMeans(s, c, loop);
    EraseTouches(s1, c);
    var r := RunErase(s1, c);
    assert Trace(r.log, c) == Life(s.conns[c].io)[..5] + [Erased];
    TouchesCompose(s, s1, r, c);
    LeavingIsOk(r, c);
    OthersStayOk(s, r, c);
  }

  lemma DestroyTaskMeans(s: Server, c: ConnId, loop: LoopId)
    requires c in s.conns && ConnOk(s, c) && Tally(s, loop, Destroy(c)) > 0
    ensures loop == s.conns[c].io && Trace(s.log, c) == Life(s.conns[c].io)[..6]
    ensures s.conns[c].state == Disconnected && c !in s.connections
    ensures forall l, task: Task :: task.conn == c && !task.RunForceClose? ==>
              Tally(s, l, task) == if l == loop && task == Destroy(c) then 1 else 0
    ensures forall l :: Tally(s, l, RunForceClose(c)) > 0 ==> l == s.conns[c].io
  {
    hide Trace, Tally;
    assert |Trace(s.log, c)| == 6;
  }

  lemma GoneIsOk(r: Server, c: ConnId)
    requires c in r.conns && r.conns[c].state == Disconnected && !r.conns[c].registered && c !in r.connections
    requires Trace(r.log, c) == Life(r.conns[c].io)
    requires forall loop, task: Task :: task.conn == c && !task.RunForceClose? ==> Tally(r, loop, task) == 0
    requires forall loop :: Tally(r, loop, RunForceClose(c)) > 0 ==> loop == r.conns[c].io
    ensures ConnOk(r, c)
  {
    hide Trace, Tally;
  }

  /** Changing the record of one connection. */
  lemma RecordTouches(s: Server, c: ConnId, conn: Conn)
    requires c in s.conns
    ensures var r := s.(conns := s.conns[c := conn]);
            OnlyTouches(s, r, c) && forall loop, task :: Tally(r, loop, task) == Tally(s, loop, task)
  {
    hide Trace;
    var r := s.(conns := s.conns[c := conn]);
    assert forall loop :: Queue(r, loop) == Queue(s, loop);
  }

  lemma RunDestroyKeeps(s: Server, loop: LoopId)
    requires Inv(s) && Queue(s, loop) != [] && Queue(s, loop)[0].Destroy? && Queue(s, loop)[0].conn in s.conns
    ensures Inv(RunTask(Pop(s, loop), Queue(s, loop)[0]))
  {
    hide Tally, Trace, OnlyTouches, ConnOk, Unborn, Queue;
    var c := Queue(s, loop)[0].conn;
    var s1 := Pop(s, loop);
    PopTouches(s, loop);
    DestroyTaskMeans(s, c, loop);
    var s2 := s1.(conns := s1.conns[c := s1.conns[c].(registered := false)]);
    RecordTouches(s1, c, s1.conns[c].(registered := false));
    var r := Log(s2, c, Destroyed);
    LogTouches(s2, c, Destroyed);
    assert Trace(r.log, c) == Life(s.conns[c].io)[..6] + [Destroyed];
    TouchesCompose(s, s1, s2, c);
    TouchesCompose(s, s2, r, c);
    GoneIsOk(r, c);
    OthersStayOk(s, r, c);
  }

  // ---- the other actions ----

  lemma WaitingIsOk(r: Server, c: ConnId)
    requires c in r.conns && r.conns[c].state == Connecting && !r.conns[c].registered && c in r.connections
    requires r.conns[c].io != BASE && Trace(r.log, c) == []
    requires forall loop, task: Task :: task.conn == c ==>
               Tally(r, loop, task) == if loop == r.conns[c].io && task == Establish(c) then 1 else 0
    ensures ConnOk(r, c)
  {
    hide Trace, Tally;
  }

  lemma MadeTouches(s: Server, io: LoopId)
    requires Inv(s)
    ensures var r := Made(s, io);
            && OnlyTouches(s, r, s.nextId) && Trace(r.log, s.nextId) == []
            && forall loop, task: Task :: task.conn == s.nextId ==> Tally(r, loop, task) == 0
  {
    hide Trace, ConnOk;
    assert s.nextId !in s.conns && Unborn(s, s.nextId);
    assert forall loop, task: Task :: Tally(Made(s, io), loop, task) == Tally(s, loop, task);
  }

  lemma NewConnectionKeeps(s: Server, io: LoopId)
    requires Inv(s)
    ensures Inv(NewConnection(s, io))
  {
    hide Tally, Trace, OnlyTouches, ConnOk, Unborn, Queue, ConnectEstablished, QueueInLoop;
    var c := s.nextId;
    var s1 := Made(s, io);
    MadeTouches(s, io);
    var r := NewConnection(s, io);
    if io == BASE {
      EstablishedOk(s1, c);
    } else {
      WaitingOnIo(s1, c);
    }
    TouchesCompose(s, s1, r, c);
    OthersStayOk(s, r, c);
  }

  lemma WaitingOnIo(s: Server, c: ConnId)
    requires c in s.conns && s.conns[c].state == Connecting && !s.conns[c].registered && c in s.connections
    requires s.conns[c].io != BASE && Trace(s.log, c) == []
    requires forall loop, task: Task :: task.conn == c ==> Tally(s, loop, task) == 0
    ensures var r := QueueInLoop(s, s.conns[c].io, Establish(c));
            c in r.conns && r.nextId == s.nextId && OnlyTouches(s, r, c) && ConnOk(r, c)
  {
    hide Tally, Trace, OnlyTouches, ConnOk;
    PushTally(s, s.conns[c].io, Establish(c));
    PushTouches(s, s.conns[c].io, Establish(c));
    WaitingIsOk(QueueInLoop(s, s.conns[c].io, Establish(c)), c);
  }

  lemma UpIsOk(r: Server, c: ConnId)
    requires c in r.conns && Open(r.conns[c]) && r.conns[c].registered && c in r.connections
    requires Trace(r.log, c) == [Established, Up]
    requires forall loop, task: Task :: task.conn == c && !task.RunForceClose? ==> Tally(r, loop, task) == 0
    requires forall loop :: Tally(r, loop, RunForceClose(c)) > 0 ==> loop == r.conns[c].io
    ensures ConnOk(r, c)
  {
    hide Trace, Tally;
  }

  lemma StateKeeps(s: Server, c: ConnId)
    requires Inv(s) && c in s.conns && Open(s.conns[c])
    ensures Inv(s.(conns := s.conns[c := s.conns[c].(state := Disconnecting)]))
  {
    hide Trace, Tally, OnlyTouches, ConnOk, Unborn;
    var r := s.(conns := s.conns[c := s.conns[c].(state := Disconnecting)]);
    RecordTouches(s, c, s.conns[c].(state := Disconnecting));
    OpenMeansUp(s, c);
    UpIsOk(r, c);
    OthersStayOk(s, r, c);
  }

  lemma ForceCloseKeeps(s: Server, c: ConnId)
    requires Inv(s) && c in s.conns && Open(s.conns[c])
    ensures Inv(QueueInLoop(s, s.conns[c].io, RunForceClose(c)))
  {
    hide Tally, Trace, OnlyTouches, ConnOk, Unborn, Queue;
    var io := s.conns[c].io;
    var r := QueueInLoop(s, io, RunForceClose(c));
    PushTally(s, io, RunForceClose(c));
    PushTouches(s, io, RunForceClose(c));
    ForceTasksDiffer(s, r, c);
    OthersStayOk(s, r, c);
  }

  lemma NextKeeps(s: Server, a: Action)
    requires Inv(s)
    ensures Inv(Next(s, a))
  {
    hide Inv, HandleClose, RunTask, NewConnection, QueueInLoop;
    if Enabled(s, a) {
      match a
      case Accept(io) => NewConnectionKeeps(s, io);
      case PeerClosed(c) =>
        RegisteredIsUp(s, c);
        CloseKeeps(s, c);
      case Shutdown(c) =>
        if s.conns[c].state == Connected {
          StateKeeps(s, c);
        }
      case ForceClose(c) =>
        if Open(s.conns[c]) {
          StateKeeps(s, c);
          ForceCloseKeeps(s.(conns := s.conns[c := s.conns[c].(state := Disconnecting)]), c);
        }
      case RunNext(loop) =>
        match Queue(s, loop)[0]
        case Establish(_) => RunEstablishKeeps(s, loop);
        case RunForceClose(_) => RunForceCloseKeeps(s, loop);
        case EraseAndHandOff(_) => RunEraseKeeps(s, loop);
        case Destroy(_) => RunDestroyKeeps(s, loop);
    }
  }

  lemma RegisteredIsUp(s: Server, c: ConnId)
    requires Inv(s) && c in s.conns && s.conns[c].registered
    ensures s.conns[c].state != Connecting
  {
    assert ConnOk(s, c);
  }

  lemma {:induction false} ExecuteKeeps(actions: seq<Action>)
    ensures Inv(Execute(NEW_SERVER, actions))
    decreases |actions|
  {
    hide Inv, Next;
    if actions == [] {
      NewServerOk();
    } else {
      ExecuteKeeps(actions[..|actions| - 1]);
      NextKeeps(Execute(NEW_SERVER, actions[..|actions| - 1]), actions[|actions| - 1]);
    }
  }

  lemma NewServerOk()
    ensures Inv(NEW_SERVER)
  {
  }

  /**
   * Two-loop hand-off: whatever loops, tasks and closings are involved, what happens to a connection is a prefix
   * of one life: established before anything else, one up, at most one down, erased from the map before it is
   * destroyed, destroyed at most once and only after `handleClose` has returned.
   */
  lemma {:induction false} LivesInOrder(actions: seq<Action>, c: ConnId)
    ensures var s := Execute(NEW_SERVER, actions);
            if c in s.conns then Trace(s.log, c) <= Life(s.conns[c].io) else Trace(s.log, c) == []
  {
    ExecuteKeeps(actions);
    hide Trace;
    var s := Execute(NEW_SERVER, actions);
    assert if c in s.conns then ConnOk(s, c) else Unborn(s, c);
  }

  /** A closed connection still has exactly one task that will take it further, until it is destroyed. */
  lemma {:induction false} ClosingIsNeverStuck(actions: seq<Action>, c: ConnId)
    requires var s := Execute(NEW_SERVER, actions); c in s.conns && s.conns[c].state == Disconnected
    ensures var s := Execute(NEW_SERVER, actions);
            var io := s.conns[c].io;
            || (c in s.connections && io != BASE && multiset(Queue(s, BASE))[EraseAndHandOff(c)] == 1)
            || (c !in s.connections && s.conns[c].registered && multiset(Queue(s, io))[Destroy(c)] == 1)
            || (c !in s.connections && !s.conns[c].registered && Trace(s.log, c) == Life(io))
  {
    ExecuteKeeps(actions);
    var s := Execute(NEW_SERVER, actions);
    assert ConnOk(s, c);
    assert Tally(s, BASE, EraseAndHandOff(c)) == multiset(Queue(s, BASE))[EraseAndHandOff(c)];
    assert Tally(s, s.conns[c].io, Destroy(c)) == multiset(Queue(s, s.conns[c].io))[Destroy(c)];
    hide Trace;
  }
}
