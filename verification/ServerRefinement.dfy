/**
 * The server's view of a connection and the connection's own model agree: what `ServerModel` does to a connection
 * is, up to everything that concerns its bytes, a run of `TcpModel`.
 */
module ServerRefinement {
  import opened ConnectionState
  import S = ServerModel
  import SP = ServerProofs
  import T = TcpModel
  import TP = TcpProofs

  // What both models know of a connection: its state, and how often it was reported up and down.
  datatype View = View(state: State, ups: nat, downs: nat)

  function TcpView(t: T.Conn): View {
    View(t.state, TP.Count(t.log, T.Up), TP.Count(t.log, T.Down))
  }

  function Happened(log: seq<S.Event>, e: S.Event): nat {
    multiset(log)[e]
  }

  function ServerView(s: S.Server, c: S.ConnId): View
    requires c in s.conns
  {
    View(s.conns[c].state, Happened(s.log, S.Event(c, S.Up)), Happened(s.log, S.Event(c, S.Down)))
  }

  // ---- the actions that make up a life ----

  /** The part of an action that decides the view; a `shutdown` counts the same from whatever thread it is made. */
  function LifecycleOf(a: T.Action): seq<T.Action> {
    match a
    case Establish => [T.Establish]
    case ShutdownCall => [T.ShutdownElsewhere]
    case ShutdownElsewhere => [T.ShutdownElsewhere]
    case ForceCloseCall => [T.ForceCloseCall]
    case RunForceClose => [T.RunForceClose]
    case PeerClosed => [T.PeerClosed]
    case Destroy => [T.Destroy]
    case _ => []
  }

  function Lifecycle(actions: seq<T.Action>): seq<T.Action> {
    if actions == [] then [] else Lifecycle(actions[..|actions| - 1]) + LifecycleOf(actions[|actions| - 1])
  }

  /** What one step of the server does to the connection `c`, as actions of that connection. */
  function StepOf(s: S.Server, a: S.Action, c: S.ConnId): seq<T.Action> {
    if !S.Enabled(s, a) then []
    else
      match a
      case Accept(io) => if c == s.nextId && io == S.BASE then [T.Establish] else []
      case PeerClosed(d) => if d == c then [T.PeerClosed] else []
      case Shutdown(d) => if d == c then [T.ShutdownElsewhere] else []
      case ForceClose(d) => if d == c then [T.ForceCloseCall] else []
      case RunNext(loop) => TaskOf(S.Queue(s, loop)[0], c)
  }

  function TaskOf(task: S.Task, c: S.ConnId): seq<T.Action> {
    if task.conn != c then []
    else
      match task
      case Establish(_) => [T.Establish]
      case RunForceClose(_) => [T.RunForceClose]
      case EraseAndHandOff(_) => []
      case Destroy(_) => [T.Destroy]
  }

  /** And what a whole run of the server does to it. */
  function LifeOf(actions: seq<S.Action>, c: S.ConnId): seq<T.Action> {
    if actions == [] then []
    else
      var init := actions[..|actions| - 1];
      LifeOf(init, c) + StepOf(S.Execute(S.NEW_SERVER, init), actions[|actions| - 1], c)
  }

  // ---- the connection's side: only the lifecycle decides the view ----

  lemma {:induction false} ExecuteAppend(t: T.Conn, a: seq<T.Action>, b: seq<T.Action>)
    ensures T.Execute(t, a + b) == T.Execute(T.Execute(t, a), b)
    decreases |b|
  {
    hide T.Next;
    if b == [] {
      assert a + b == a;
    } else {
      assert (a + b)[..|a + b| - 1] == a + b[..|b| - 1];
      ExecuteAppend(t, a, b[..|b| - 1]);
    }
  }

  lemma ExecuteOne(t: T.Conn, a: T.Action)
    ensures T.Execute(t, []) == t && T.Execute(t, [a]) == T.Next(t, a)
  {
    assert [a][..0] == [];
  }

  /** Sending, writing and half-closing leave the view alone. */
  lemma DataKeepsView(t: T.Conn, a: T.Action)
    requires LifecycleOf(a) == []
    ensures TcpView(T.Next(t, a)) == TcpView(t)
  {
    hide TP.Wire, TP.WaterTasks, TP.Count, T.SendInLoop, T.HandleWrite;
    match a
    case SendCall(message, w) => TP.SendSameLife(t, message, w);
    case SendTask(message, w) => TP.SendSameLife(t, message, w);
    case Writable(w, f) => TP.HandleWriteSameLife(t, w, f);
    case ShutdownTask => TP.LogOne(t.log, T.HalfClose);
    case _ =>
  }

  predicate IsOpen(v: View) {
    v.state == Connected || v.state == Disconnecting
  }

  /** What a lifecycle action does to a view. */
  function ViewStep(v: View, a: T.Action): View {
    match a
    case Establish => if v.state == Connecting then v.(state := Connected, ups := v.ups + 1) else v
    case ShutdownElsewhere => if v.state == Connected then v.(state := Disconnecting) else v
    case ForceCloseCall => if IsOpen(v) then v.(state := Disconnecting) else v
    case _ => if IsOpen(v) then v.(state := Disconnected, downs := v.downs + 1) else v
  }

  lemma LifecycleSteps(t: T.Conn, a: T.Action)
    requires t.callbacks.connection && LifecycleOf(a) == [a]
    ensures TcpView(T.Next(t, a)) == ViewStep(TcpView(t), a)
  {
    hide TP.Count, T.HandleClose, T.ConnectEstablished, T.ConnectDestroyed, T.ForceClose;
    TcpSteps(t);
  }

  lemma ShutdownCallIsShutdown(t: T.Conn)
    ensures TcpView(T.Next(t, T.ShutdownCall)) == TcpView(T.Next(t, T.ShutdownElsewhere))
  {
    hide TP.Wire, TP.WaterTasks, TP.Count;
    TP.LogOne(t.log, T.HalfClose);
  }

  lemma LifeEvents(t: T.Conn)
    ensures forall x :: TP.Count(t.log + [T.Up], x) == TP.Count(t.log, x) + (if x == T.Up then 1 else 0)
    ensures forall x :: TP.Count(t.log + [T.Down], x) == TP.Count(t.log, x) + (if x == T.Down then 1 else 0)
    ensures forall x :: TP.Count(t.log + [T.CloseCallback], x) ==
                        TP.Count(t.log, x) + (if x == T.CloseCallback then 1 else 0)
    ensures forall x :: TP.Count(t.log + [T.Down] + [T.CloseCallback], x) ==
                        TP.Count(t.log + [T.Down], x) + (if x == T.CloseCallback then 1 else 0)
    ensures var e := T.Queued(T.ForceCloseTask);
            forall x :: TP.Count(t.log + [e], x) == TP.Count(t.log, x) + (if x == e then 1 else 0)
  {
    hide TP.Wire, TP.WaterTasks, TP.Count;
    TP.LogOne(t.log, T.Up);
    TP.LogOne(t.log, T.Down);
    TP.LogOne(t.log, T.CloseCallback);
    TP.LogOne(t.log + [T.Down], T.CloseCallback);
    TP.LogOne(t.log, T.Queued(T.ForceCloseTask));
  }

  lemma OneActionMatters(t: T.Conn, u: T.Conn, a: T.Action)
    requires TcpView(t) == TcpView(u) && t.callbacks.connection && u.callbacks.connection
    ensures TcpView(T.Next(t, a)) == TcpView(T.Execute(u, LifecycleOf(a)))
  {
    hide T.Next, TcpView, ViewStep, T.Execute;
    if LifecycleOf(a) == [] {
      DataKeepsView(t, a);
      ExecuteOne(u, a);
    } else {
      var b := LifecycleOf(a)[0];
      LifecycleSteps(t, b);
      LifecycleSteps(u, b);
      ExecuteOne(u, b);
      ShutdownCallIsShutdown(t);
    }
  }

  /** Bytes do not matter to a life: a run and its lifecycle alone end in the same view. */
  lemma {:induction false} OnlyLifecycleMatters(t: T.Conn, actions: seq<T.Action>)
    requires t.callbacks.connection
    ensures TcpView(T.Execute(t, actions)) == TcpView(T.Execute(t, Lifecycle(actions)))
    decreases |actions|
  {
    hide T.Next, TcpView, LifecycleOf;
    if actions != [] {
      var init, last := actions[..|actions| - 1], actions[|actions| - 1];
      OnlyLifecycleMatters(t, init);
      ExecuteKeepsConnection(t, init);
      ExecuteKeepsConnection(t, Lifecycle(init));
      OneActionMatters(T.Execute(t, init), T.Execute(t, Lifecycle(init)), last);
      ExecuteAppend(t, Lifecycle(init), LifecycleOf(last));
    }
  }

  // ---- the server's side ----

  lemma HappenedOne(log: seq<S.Event>, e: S.Event)
    ensures forall x :: Happened(log + [e], x) == Happened(log, x) + (if x == e then 1 else 0)
  {
  }

  /** Closing `d` reports it down, once, and concerns no other connection. */
  lemma CloseView(s: S.Server, d: S.ConnId, c: S.ConnId)
    requires d in s.conns && c in s.conns
    ensures var r := S.HandleClose(s, d);
            && c in r.conns
            && ServerView(r, c) ==
               if c == d && s.conns[d].state != Disconnected then
                 ServerView(s, c).(state := Disconnected, downs := ServerView(s, c).downs + 1)
               else ServerView(s, c)
  {
    hide Happened;
    if s.conns[d].state != Disconnected {
      var l1 := s.log + [S.Event(d, S.CloseBegins)];
      var l2 := l1 + [S.Event(d, S.Down)];
      HappenedOne(s.log, S.Event(d, S.CloseBegins));
      HappenedOne(l1, S.Event(d, S.Down));
      HappenedOne(l2, S.Event(d, S.Erased));
      HappenedOne(l2, S.Event(d, S.CloseEnds));
      HappenedOne(l2 + [S.Event(d, S.Erased)], S.Event(d, S.CloseEnds));
    }
  }

  lemma EstablishView(s: S.Server, d: S.ConnId, c: S.ConnId)
    requires d in s.conns && c in s.conns
    ensures var r := S.ConnectEstablished(s, d);
            && c in r.conns
            && ServerView(r, c) ==
               if c == d then ServerView(s, c).(state := Connected, ups := ServerView(s, c).ups + 1)
               else ServerView(s, c)
  {
    hide Happened;
    HappenedOne(s.log, S.Event(d, S.Established));
    HappenedOne(s.log + [S.Event(d, S.Established)], S.Event(d, S.Up));
  }

  lemma DestroyView(s: S.Server, d: S.ConnId, c: S.ConnId)
    requires d in s.conns && c in s.conns
    ensures var r := S.ConnectDestroyed(s, d);
            && c in r.conns
            && ServerView(r, c) ==
               if c == d && S.Open(s.conns[d]) then
                 ServerView(s, c).(state := Disconnected, downs := ServerView(s, c).downs + 1)
               else ServerView(s, c)
  {
    hide Happened;
    HappenedOne(s.log, S.Event(d, S.Down));
    HappenedOne(s.log, S.Event(d, S.Destroyed));
    HappenedOne(s.log + [S.Event(d, S.Down)], S.Event(d, S.Destroyed));
  }

  lemma EraseView(s: S.Server, d: S.ConnId, c: S.ConnId)
    requires d in s.conns && c in s.conns
    ensures c in S.RunErase(s, d).conns && ServerView(S.RunErase(s, d), c) == ServerView(s, c)
  {
    hide Happened;
    HappenedOne(s.log, S.Event(d, S.Erased));
  }

  // ---- both together ----

  /** The connection's own closing, establishing and destroying, seen through the view. */
  lemma TcpSteps(t: T.Conn)
    requires t.callbacks.connection
    ensures var v := TcpView(t);
            && TcpView(T.HandleClose(t)) ==
               (if v.state == Disconnected then v else v.(state := Disconnected, downs := v.downs + 1))
            && TcpView(T.ConnectEstablished(t)) == v.(state := Connected, ups := v.ups + 1)
            && TcpView(T.ConnectDestroyed(t)) ==
               (if T.Open(t) then v.(state := Disconnected, downs := v.downs + 1) else v)
            && TcpView(T.ForceClose(t)) == (if T.Open(t) then v.(state := Disconnecting) else v)
  {
    hide TP.Wire, TP.WaterTasks, TP.Count;
    LifeEvents(t);
  }

  lemma TaskMatches(s: S.Server, task: S.Task, c: S.ConnId, t: T.Conn)
    requires task.conn in s.conns && c in s.conns && TcpView(t) == ServerView(s, c) && t.callbacks.connection
    requires task.conn == c ==> (task.Establish? <==> s.conns[c].state == Connecting)
    ensures var r := S.RunTask(s, task);
            c in r.conns && TcpView(T.Execute(t, TaskOf(task, c))) == ServerView(r, c)
  {
    hide Happened, TP.Count, T.Execute, T.HandleClose, T.ConnectEstablished, T.ConnectDestroyed,
      S.HandleClose, S.ConnectEstablished, S.ConnectDestroyed, S.RunErase;
    TcpSteps(t);
    ExecuteOne(t, if TaskOf(task, c) == [] then T.Establish else TaskOf(task, c)[0]);
    match task
    case Establish(d) => EstablishView(s, d, c);
    case RunForceClose(d) => CloseView(s, d, c);
    case EraseAndHandOff(d) => EraseView(s, d, c);
    case Destroy(d) => DestroyView(s, d, c);
  }

  /** The task at the head of a queue fits the state of its connection. */
  lemma TaskFits(s: S.Server, loop: S.LoopId)
    requires SP.Inv(s) && S.Enabled(s, S.RunNext(loop))
    ensures var task := S.Queue(s, loop)[0]; task.Establish? <==> s.conns[task.conn].state == Connecting
  {
    var task := S.Queue(s, loop)[0];
    assert SP.ConnOk(s, task.conn);
    assert SP.Tally(s, loop, task) > 0;
    hide SP.Trace, SP.Tally;
  }

  lemma StepMatches(s: S.Server, a: S.Action, c: S.ConnId, t: T.Conn)
    requires SP.Inv(s) && c in s.conns && TcpView(t) == ServerView(s, c) && t.callbacks.connection
    ensures c in S.Next(s, a).conns && TcpView(T.Execute(t, StepOf(s, a, c))) == ServerView(S.Next(s, a), c)
  {
    hide Happened, TP.Count, T.Execute, T.HandleClose, T.ConnectEstablished, T.ConnectDestroyed, T.ForceClose,
      S.HandleClose, S.ConnectEstablished, S.ConnectDestroyed, S.RunTask, SP.ConnOk;
    TcpSteps(t);
    ExecuteOne(t, if StepOf(s, a, c) == [] then T.Establish else StepOf(s, a, c)[0]);
    assert c < s.nextId && SP.ConnOk(s, c);
    if S.Enabled(s, a) {
      match a
      case Accept(io) =>
        if io == S.BASE {
          EstablishView(S.Made(s, io), s.nextId, c);
        }
      case PeerClosed(d) =>
        SP.RegisteredIsUp(s, d);
        CloseView(s, d, c);
      case Shutdown(d) =>
      case ForceClose(d) =>
      case RunNext(loop) =>
        TaskFits(s, loop);
        var task := S.Queue(s, loop)[0];
        TaskMatches(s.(queues := s.queues[loop := S.Queue(s, loop)[1..]]), task, c, t);
    }
  }

  lemma UnbornTrace(s: S.Server)
    requires SP.Inv(s)
    ensures SP.Trace(s.log, s.nextId) == []
  {
    assert SP.Unborn(s, s.nextId);
    hide SP.Trace, SP.ConnOk;
  }

  lemma NewViews(t: T.Conn)
    requires T.Start(t)
    ensures TcpView(t) == View(Connecting, 0, 0)
  {
  }

  /** A connection is born with nothing reported of it. */
  lemma BirthMatches(s: S.Server, io: S.LoopId, t: T.Conn)
    requires SP.Inv(s) && T.Start(t) && t.callbacks.connection
    ensures var c := s.nextId;
            var r := S.NewConnection(s, io);
            c in r.conns && TcpView(T.Execute(t, StepOf(s, S.Accept(io), c))) == ServerView(r, c)
  {
    var c := s.nextId;
    UnbornTrace(s);
    NothingTraced(s.log, c);
    NewViews(t);
    hide Happened, SP.Inv, SP.Unborn, TP.Count, T.Execute, T.ConnectEstablished, S.ConnectEstablished;
    ExecuteOne(t, T.Establish);
    TcpSteps(t);
    if io == S.BASE {
      EstablishView(S.Made(s, io), c, c);
    }
  }

  lemma {:induction false} NothingTraced(log: seq<S.Event>, c: S.ConnId)
    requires SP.Trace(log, c) == []
    ensures forall kind :: Happened(log, S.Event(c, kind)) == 0
    decreases |log|
  {
    if log != [] {
      NothingTraced(log[..|log| - 1], c);
      assert log == log[..|log| - 1] + [log[|log| - 1]];
      HappenedOne(log[..|log| - 1], log[|log| - 1]);
    }
  }

  lemma {:induction false} LifeMatches(actions: seq<S.Action>, c: S.ConnId, t: T.Conn)
    requires T.Start(t) && t.callbacks.connection
    ensures var s := S.Execute(S.NEW_SERVER, actions);
            if c in s.conns then TcpView(T.Execute(t, LifeOf(actions, c))) == ServerView(s, c)
            else LifeOf(actions, c) == []
    decreases |actions|
  {
    if actions != [] {
      hide T.Next, S.Next, TcpView, ServerView, SP.Inv;
      var init, a := actions[..|actions| - 1], actions[|actions| - 1];
      LifeMatches(init, c, t);
      SP.ExecuteKeeps(init);
      var s := S.Execute(S.NEW_SERVER, init);
      var u := T.Execute(t, LifeOf(init, c));
      ExecuteAppend(t, LifeOf(init, c), StepOf(s, a, c));
      ExecuteKeepsConnection(t, LifeOf(init, c));
      if c in s.conns {
        StepMatches(s, a, c, u);
      } else {
        NotYetBorn(s, a, c);
        if a.Accept? && c == s.nextId {
          BirthMatches(s, a.io, t);
        }
      }
    }
  }

  lemma ExecuteKeepsConnection(t: T.Conn, actions: seq<T.Action>)
    ensures T.Execute(t, actions).callbacks == t.callbacks && T.Execute(t, []) == t
  {
    TP.ExecuteKeepsSettings(t, actions);
  }

  /** Only its own `Accept` makes a connection, and nothing happens to it before. */
  lemma NotYetBorn(s: S.Server, a: S.Action, c: S.ConnId)
    requires SP.Inv(s) && c !in s.conns
    ensures if a.Accept? && c == s.nextId then S.Next(s, a) == S.NewConnection(s, a.io)
            else c !in S.Next(s, a).conns && StepOf(s, a, c) == []
  {
    hide SP.Inv;
  }

  /**
   * The life of a connection is the same in both models: take any run of the server and any run of the connection,
   * with whatever sending and writing in between, whose lifecycle is what the server did to it. Both end with the
   * connection in the same state, reported up and down equally often.
   */
  lemma {:induction false} ServerLifeIsTcpLife(actions: seq<S.Action>, c: S.ConnId, t: T.Conn, run: seq<T.Action>)
    requires T.Start(t) && t.callbacks.connection
    requires c in S.Execute(S.NEW_SERVER, actions).conns && Lifecycle(run) == LifeOf(actions, c)
    ensures TcpView(T.Execute(t, run)) == ServerView(S.Execute(S.NEW_SERVER, actions), c)
  {
    hide T.Next, S.Next, TcpView, ServerView;
    OnlyLifecycleMatters(t, run);
    LifeMatches(actions, c, t);
  }
}
