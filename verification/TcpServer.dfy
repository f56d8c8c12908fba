/** `TcpServer` and its connections as objects spread over the event loops; the methods compute `ServerModel`. */
module TcpServers {
  import opened ConnectionState
  import M = ServerModel

  class Connection {
    const id: M.ConnId
    const io: M.LoopId
    var state: State
    var registered: bool // the channel is with the poller

    constructor (id: M.ConnId, io: M.LoopId)
      ensures this.id == id && Data() == M.Conn(io, Connecting, false)
    {
      this.id, this.io, state, registered := id, io, Connecting, false;
    }

    function Data(): M.Conn
      reads this
    {
      M.Conn(io, state, registered)
    }
  }

  class TcpServer {
    var connections: set<M.ConnId> // the keys of the server's map
    var nextConnId: M.ConnId
    var queues: map<M.LoopId, seq<M.Task>>
    var objects: map<M.ConnId, Connection> // the connections that tasks and channels can reach
    ghost var repr: set<Connection>
    ghost var conns: map<M.ConnId, M.Conn> // the contents of those objects
    ghost var log: seq<M.Event>

    ghost predicate Valid()
      reads this, repr
    {
      && conns.Keys == objects.Keys
      && (forall c :: c in objects ==> objects[c] in repr && objects[c].id == c && objects[c].Data() == conns[c])
      && (forall c :: c in connections ==> c in objects)
      && (forall c :: c in objects ==> c < nextConnId)
    }

    ghost function Value(): M.Server
      reads this
    {
      M.Server(conns, connections, nextConnId, queues, log)
    }

    constructor ()
      ensures Valid() && Value() == M.NEW_SERVER && repr == {}
    {
      connections, nextConnId, queues, objects := {}, 1, map[], map[];
      repr, conns, log := {}, map[], [];
    }

    method QueueInLoop(loop: M.LoopId, task: M.Task)
      requires Valid()
      modifies this`queues
      ensures Valid() && Value() == M.QueueInLoop(old(Value()), loop, task)
    {
      queues := queues[loop := (if loop in queues then queues[loop] else []) + [task]];
    }

    /** A callback or a notification happens. */
    ghost method Note(c: M.ConnId, kind: M.Kind)
      requires Valid()
      modifies this`log
      ensures Valid() && Value() == M.Log(old(Value()), c, kind)
    {
      log := log + [M.Event(c, kind)];
    }

    method SetState(c: M.ConnId, state: State, registered: bool)
      requires Valid() && c in objects
      modifies this`conns, objects[c]
      ensures Valid()
      ensures Value() == old(Value()).(conns := old(conns)[c := M.Conn(old(conns)[c].io, state, registered)])
    {
      var conn := objects[c];
      conn.state, conn.registered := state, registered;
      conns := conns[c := conn.Data()];
    }

    method ConnectEstablished(c: M.ConnId)
      requires Valid() && c in objects
      modifies this`conns, this`log, objects[c]
      ensures Valid() && Value() == M.ConnectEstablished(old(Value()), c)
    {
      SetState(c, Connected, true);
      Note(c, M.Established);
      Note(c, M.Up);
    }

    /** The task of the close callback, on the base loop. */
    method RunErase(c: M.ConnId)
      requires Valid() && c in objects
      modifies this`connections, this`queues, this`log
      ensures Valid() && Value() == M.RunErase(old(Value()), c)
    {
      connections := connections - {c};
      Note(c, M.Erased);
      QueueInLoop(objects[c].io, M.Destroy(c));
    }

    /** `handleClose` on the connection's loop, with the close callback that `newConnection` gave it. */
    method HandleClose(c: M.ConnId)
      requires Valid() && c in objects
      modifies this`conns, this`connections, this`queues, this`log, objects[c]
      ensures Valid() && Value() == M.HandleClose(old(Value()), c)
    {
      var conn := objects[c];
      if conn.state == Disconnected {
        return;
      }
      SetState(c, Disconnected, conn.registered);
      Note(c, M.CloseBegins);
      Note(c, M.Down);
      if conn.io == M.BASE {
        RunErase(c);
      } else {
        QueueInLoop(M.BASE, M.EraseAndHandOff(c));
      }
      Note(c, M.CloseEnds);
    }

    method ConnectDestroyed(c: M.ConnId)
      requires Valid() && c in objects
      modifies this`conns, this`log, objects[c]
      ensures Valid() && Value() == M.ConnectDestroyed(old(Value()), c)
    {
      var conn := objects[c];
      if conn.state == Connected || conn.state == Disconnecting {
        SetState(c, Disconnected, conn.registered);
        Note(c, M.Down);
      }
      SetState(c, conn.state, false);
      Note(c, M.Destroyed);
    }

    method ForceCloseInLoop(c: M.ConnId)
      requires Valid() && c in objects
      modifies this`conns, this`connections, this`queues, this`log, objects[c]
      ensures Valid() && Value() == M.RunTask(old(Value()), M.RunForceClose(c))
    {
      if objects[c].state == Connected || objects[c].state == Disconnecting {
        HandleClose(c);
      }
    }

    method Shutdown(c: M.ConnId)
      requires Valid() && c in objects
      modifies this`conns, objects[c]
      ensures Valid() && Value() == M.Next(old(Value()), M.Shutdown(c))
    {
      var conn := objects[c];
      if conn.state == Connected {
        SetState(c, Disconnecting, conn.registered);
      }
    }

    method ForceClose(c: M.ConnId)
      requires Valid() && c in objects
      modifies this`conns, this`queues, objects[c]
      ensures Valid() && Value() == M.Next(old(Value()), M.ForceClose(c))
    {
      var conn := objects[c];
      if conn.state == Connected || conn.state == Disconnecting {
        SetState(c, Disconnecting, conn.registered);
        QueueInLoop(conn.io, M.RunForceClose(c));
      }
    }

    /** A connection object is made and entered into the map. */
    method MakeConnection(io: M.LoopId) returns (c: M.ConnId)
      requires Valid()
      modifies this`nextConnId, this`objects, this`repr, this`conns, this`connections
      ensures Valid() && Value() == M.Made(old(Value()), io) && c == old(nextConnId)
      ensures fresh(repr - old(repr)) && c in objects && fresh(objects[c])
    {
      c := nextConnId;
      nextConnId := nextConnId + 1;
      var conn := new Connection(c, io);
      objects, repr, conns := objects[c := conn], repr + {conn}, conns[c := conn.Data()];
      connections := connections + {c};
    }

    method NewConnection(io: M.LoopId)
      requires Valid()
      modifies this
      ensures Valid() && Value() == M.Next(old(Value()), M.Accept(io))
      ensures fresh(repr - old(repr))
    {
      hide Valid, M.ConnectEstablished, M.QueueInLoop, M.Made;
      var c := MakeConnection(io);
      if io == M.BASE {
        ConnectEstablished(c);
      } else {
        QueueInLoop(io, M.Establish(c));
      }
    }

    /** A loop runs the first task of its queue. */
    method RunNext(loop: M.LoopId)
      requires Valid() && M.Enabled(Value(), M.RunNext(loop))
      modifies this, repr
      ensures Valid() && Value() == M.Next(old(Value()), M.RunNext(loop)) && repr == old(repr)
    {
      hide M.HandleClose, M.ConnectEstablished, M.ConnectDestroyed, M.RunErase;
      var task := queues[loop][0];
      queues := queues[loop := queues[loop][1..]];
      match task {
        case Establish(c) => ConnectEstablished(c);
        case RunForceClose(c) => ForceCloseInLoop(c);
        case EraseAndHandOff(c) => RunErase(c);
        case Destroy(c) => ConnectDestroyed(c);
      }
    }
  }
}
