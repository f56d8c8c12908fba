/**
 * Connections of a `TcpServer` between two event loops: the base loop owns the server's map, an io loop owns the
 * connection, and closing hops from one to the other and back. Both loops are FIFO queues, and may be the same.
 */
module ServerModel {
  import opened ConnectionState

  type LoopId = nat
  type ConnId = nat

  const BASE: LoopId := 0

  datatype Task =
    | Establish(conn: ConnId)        // `connectEstablished`
    | RunForceClose(conn: ConnId)    // `forceCloseInLoop`
    | EraseAndHandOff(conn: ConnId)  // the close callback's task on the base loop
    | Destroy(conn: ConnId)          // `connectDestroyed`

  datatype Kind = Established | Up | CloseBegins | Down | CloseEnds | Erased | Destroyed

  datatype Event = Event(conn: ConnId, kind: Kind)

  datatype Conn = Conn(io: LoopId, state: State, registered: bool)

  datatype Server = Server(
    conns: map<ConnId, Conn>,          // every connection ever made
    connections: set<ConnId>,          // the server's map
    nextId: ConnId,
    queues: map<LoopId, seq<Task>>,
    log: seq<Event>)

  function Queue(s: Server, loop: LoopId): seq<Task> {
    if loop in s.queues then s.queues[loop] else []
  }

  function QueueInLoop(s: Server, loop: LoopId, task: Task): Server {
    s.(queues := s.queues[loop := Queue(s, loop) + [task]])
  }

  function Log(s: Server, conn: ConnId, kind: Kind): Server {
    s.(log := s.log + [Event(conn, kind)])
  }

  // ---- what runs on the loops ----

  function ConnectEstablished(s: Server, c: ConnId): Server
    requires c in s.conns
  {
    Log(Log(s.(conns := s.conns[c := s.conns[c].(state := Connected, registered := true)]), c, Established), c, Up)
  }

  /** The task the close callback gives to the base loop. */
  function RunErase(s: Server, c: ConnId): Server
    requires c in s.conns
  {
    QueueInLoop(Log(s.(connections := s.connections - {c}), c, Erased), s.conns[c].io, Destroy(c))
  }

  /** `handleClose` on the io loop; on the base loop the callback's task runs at once. */
  function HandleClose(s: Server, c: ConnId): Server
    requires c in s.conns
  {
    if s.conns[c].state == Disconnected then s
    else
      var s1 := Log(Log(s.(conns := s.conns[c := s.conns[c].(state := Disconnected)]), c, CloseBegins), c, Down);
      var s2 := if s.conns[c].io == BASE then RunErase(s1, c) else QueueInLoop(s1, BASE, EraseAndHandOff(c));
      Log(s2, c, CloseEnds)
  }

  function Open(c: Conn): bool {
    c.state == Connected || c.state == Disconnecting
  }

  function ConnectDestroyed(s: Server, c: ConnId): Server
    requires c in s.conns
  {
    var s1 :=
      if Open(s.conns[c]) then Log(s.(conns := s.conns[c := s.conns[c].(state := Disconnected)]), c, Down) else s;
    Log(s1.(conns := s1.conns[c := s1.conns[c].(registered := false)]), c, Destroyed)
  }

  function RunTask(s: Server, task: Task): Server
    requires task.conn in s.conns
  {
    match task
    case Establish(c) => ConnectEstablished(s, c)
    case RunForceClose(c) => if Open(s.conns[c]) then HandleClose(s, c) else s
    case EraseAndHandOff(c) => RunErase(s, c)
    case Destroy(c) => ConnectDestroyed(s, c)
  }

  // ---- runs ----

  datatype Action =
    | Accept(io: LoopId)          // `newConnection` on the base loop
    | PeerClosed(conn: ConnId)    // a close event, on the connection's io loop
    | Shutdown(conn: ConnId)      // on any thread
    | ForceClose(conn: ConnId)    // on any thread
    | RunNext(loop: LoopId)       // a loop runs the first task of its queue

  predicate Enabled(s: Server, a: Action) {
    match a
    case Accept(_) => true
    case PeerClosed(c) => c in s.conns && s.conns[c].registered
    case Shutdown(c) => c in s.conns
    case ForceClose(c) => c in s.conns
    case RunNext(loop) => Queue(s, loop) != [] && Queue(s, loop)[0].conn in s.conns
  }

  /** A new connection, before its establishing task is run or queued. */
  function Made(s: Server, io: LoopId): Server {
    var c := s.nextId;
    s.(conns := s.conns[c := Conn(io, Connecting, false)], connections := s.connections + {c}, nextId := c + 1)
  }

  function NewConnection(s: Server, io: LoopId): Server {
    if io == BASE then ConnectEstablished(Made(s, io), s.nextId) else QueueInLoop(Made(s, io), io, Establish(s.nextId))
  }

  function Effect(s: Server, a: Action): Server
    requires Enabled(s, a)
  {
    match a
    case Accept(io) => NewConnection(s, io)
    case PeerClosed(c) => HandleClose(s, c)
    case Shutdown(c) =>
      if s.conns[c].state == Connected then s.(conns := s.conns[c := s.conns[c].(state := Disconnecting)]) else s
    case ForceClose(c) =>
      if Open(s.conns[c]) then
        QueueInLoop(s.(conns := s.conns[c := s.conns[c].(state := Disconnecting)]), s.conns[c].io, RunForceClose(c))
      else s
    case RunNext(loop) =>
      var task := Queue(s, loop)[0];
      RunTask(s.(queues := s.queues[loop := Queue(s, loop)[1..]]), task)
  }

  function Next(s: Server, a: Action): Server {
    if Enabled(s, a) then Effect(s, a) else s
  }

  function Execute(s: Server, actions: seq<Action>): Server {
    if actions == [] then s else Next(Execute(s, actions[..|actions| - 1]), actions[|actions| - 1])
  }

  const NEW_SERVER: Server := Server(map[], {}, 1, map[], [])
}
