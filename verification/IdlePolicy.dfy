/**
 * The idle policy of the chat server on one io loop: a timer per connection, replaced at every message, that shuts
 * the connection down after 15 idle seconds, and a second one that forces it closed 15 seconds later.
 */
module IdlePolicy {
  import opened TimerModel
  import TimerRead

  type ConnId = nat

  const IDLE_DELAY: nat := 15_000_000

  datatype State = Connected | Disconnecting | Disconnected

  datatype Role = IdleTimeout | ForceCloseTimeout

  // What the callback of a timer is bound to.
  datatype Callback = Callback(conn: ConnId, role: Role)

  // A field that is 0 holds no timer.
  datatype ConnectionTimers = ConnectionTimers(idleTimer: TimerId, forceCloseTimer: TimerId)

  datatype Event =
    | Heard(conn: ConnId, time: int)         // the connection came up, or a message arrived
    | IdleShutdown(conn: ConnId, time: int)
    | ForcedClose(conn: ConnId, time: int)

  datatype Server = Server(
    loop: Machine,
    states: map<ConnId, State>,
    idleTimers: map<ConnId, ConnectionTimers>,
    callbacks: map<TimerId, Callback>,
    events: seq<Event>)

  // Where a new timer object lies, and what the clock shows when it is added.
  datatype NewTimer = NewTimer(rank: int, time: int)

  function Note(s: Server, e: Event): Server {
    s.(events := s.events + [e])
  }

  // ---- the timer queue, as the policy uses it ----

  /** `EventLoop::cancel` on the loop thread. */
  function Cancelled(m: Machine, id: TimerId): Machine {
    if id == 0 then m else Next(m, Cancel(id))
  }

  /** `EventLoop::runAfter` on the loop thread, with a delay of 15 seconds. */
  function Added(m: Machine, t: NewTimer): Machine {
    Next(Next(m, Advance(t.time)), Add(t.rank, 0, false, IDLE_DELAY))
  }

  function RunAfter(s: Server, c: ConnId, role: Role, t: NewTimer): Server {
    s.(loop := Added(s.loop, t), callbacks := s.callbacks[s.loop.q.nextId := Callback(c, role)])
  }

  // ---- the callbacks ----

  function RefreshIdleTimer(s: Server, c: ConnId, t: NewTimer): Server
    requires c in s.states
  {
    if s.states[c] != Connected || c !in s.idleTimers then s
    else
      var timers := s.idleTimers[c];
      var s1 := s.(loop := Cancelled(s.loop, timers.idleTimer));
      RunAfter(s1, c, IdleTimeout, t).(idleTimers := s.idleTimers[c := timers.(idleTimer := s1.loop.q.nextId)])
  }

  /** The record of a connection that has come up. */
  function ConnectionUpNoted(s: Server, c: ConnId): Server {
    Note(s.(states := s.states[c := Connected], idleTimers := s.idleTimers[c := ConnectionTimers(0, 0)]),
         Heard(c, s.loop.clock))
  }

  /** `onConnection` for a connection that is up. */
  function ConnectionUp(s: Server, c: ConnId, t: NewTimer): Server {
    RefreshIdleTimer(ConnectionUpNoted(s, c), c, t)
  }

  /** `onConnection` for a connection that is down. */
  function ConnectionDown(s: Server, c: ConnId): Server {
    var s1 := s.(states := s.states[c := Disconnected]);
    if c !in s.idleTimers then s1
    else
      var timers := s.idleTimers[c];
      s1.(idleTimers := s.idleTimers - {c},
          loop := Cancelled(Cancelled(s.loop, timers.idleTimer), timers.forceCloseTimer))
  }

  function OnMessage(s: Server, c: ConnId, t: NewTimer): Server
    requires c in s.states
  {
    RefreshIdleTimer(Note(s, Heard(c, s.loop.clock)), c, t)
  }

  function HandleIdleTimeout(s: Server, c: ConnId, t: NewTimer): Server
    requires c in s.states
  {
    if s.states[c] != Connected then s
    else
      var s1 := Note(s.(states := s.states[c := Disconnecting]), IdleShutdown(c, s.loop.clock));
      if c !in s.idleTimers then s1
      else
        RunAfter(s1, c, ForceCloseTimeout, t).(idleTimers := s.idleTimers[c := ConnectionTimers(0, s.loop.q.nextId)])
  }

  function HandleForceCloseTimeout(s: Server, c: ConnId): Server
    requires c in s.states
  {
    if c !in s.idleTimers then s
    else
      var s1 := s.(idleTimers := s.idleTimers[c := s.idleTimers[c].(forceCloseTimer := 0)]);
      if s.states[c] == Disconnected then s1
      else Note(s1.(states := s.states[c := Disconnecting]), ForcedClose(c, s.loop.clock))
  }

  // ---- runs ----

  datatype Move =
    | Up(conn: ConnId, timer: NewTimer)
    | Message(conn: ConnId, timer: NewTimer)
    | Shutdown(conn: ConnId)                  // by anything but the idle timer, on any thread
    | Down(conn: ConnId)
    | Loop(action: Action)                    // the clock, the kernel, other timers, the loops of `handleRead`
    | Fire(timer: NewTimer)                   // `handleRead` calls or skips the next timer of its batch

  predicate Possible(s: Server, a: Move) {
    match a
    case Up(c, _) => c !in s.states && !s.loop.phase.Rearming?
    case Message(c, _) => c in s.states && s.states[c] != Disconnected && !s.loop.phase.Rearming?
    case Shutdown(c) => c in s.states && s.states[c] == Connected
    case Down(c) => c in s.states && s.states[c] != Disconnected && !s.loop.phase.Rearming?
    case Loop(act) => Enabled(s.loop, act) && !act.FireNext? && !(act.Cancel? && act.id in s.callbacks)
    case Fire(_) => Enabled(s.loop, FireNext)
  }

  /** The timer `handleRead` is about to call. */
  function Caller(s: Server): TimerId
    requires Enabled(s.loop, FireNext)
  {
    s.loop.phase.batch[s.loop.phase.next]
  }

  /** The callback of timer `id`, if it is one of this server's. */
  function RunCallback(s: Server, id: TimerId, t: NewTimer): Server {
    if id !in s.callbacks || s.callbacks[id].conn !in s.states then s
    else if s.callbacks[id].role == IdleTimeout then HandleIdleTimeout(s, s.callbacks[id].conn, t)
    else HandleForceCloseTimeout(s, s.callbacks[id].conn)
  }

  function Call(s: Server, t: NewTimer): Server
    requires Enabled(s.loop, FireNext)
  {
    var s1 := s.(loop := Next(s.loop, FireNext));
    if s.loop.q.pool[Caller(s)].canceled then s1 else RunCallback(s1, Caller(s), t)
  }

  function After(s: Server, a: Move): Server {
    if !Possible(s, a) then s
    else
      match a
      case Up(c, t) => ConnectionUp(s, c, t)
      case Message(c, t) => OnMessage(s, c, t)
      case Shutdown(c) => s.(states := s.states[c := Disconnecting])
      case Down(c) => ConnectionDown(s, c)
      case Loop(act) => s.(loop := Next(s.loop, act))
      case Fire(t) => Call(s, t)
  }

  function Play(s: Server, moves: seq<Move>): Server {
    if moves == [] then s else After(Play(s, moves[..|moves| - 1]), moves[|moves| - 1])
  }

  predicate Fresh(s: Server) {
    Start(s.loop) && s.states == map[] && s.idleTimers == map[] && s.callbacks == map[] && s.events == []
  }

  // ---- one `handleRead` of the loop's timer queue, as moves ----

  function LoopMoves(actions: seq<Action>): seq<Move> {
    seq(|actions|, i requires 0 <= i < |actions| => Loop(actions[i]))
  }

  /** The first loop of `handleRead`: each timer of the batch is called, or skipped, at its own time. */
  function FireMoves(starts: nat -> int, timers: nat -> NewTimer, n: nat): seq<Move> {
    if n == 0 then []
    else FireMoves(starts, timers, n - 1) + [Loop(Advance(starts(n - 1))), Fire(timers(n - 1))]
  }

  /** One `handleRead` with `n` timers due. */
  function ReadMoves(w: TimerRead.World, timers: nat -> NewTimer, n: nat): seq<Move> {
    LoopMoves([Advance(w.now), BeginRead]) + FireMoves(w.starts, timers, n) +
    LoopMoves([EndCalling] + TimerRead.RearmTurns(w, n) + [EndRead])
  }

  lemma {:induction false} PlayAppend(s: Server, a: seq<Move>, b: seq<Move>)
    ensures Play(s, a + b) == Play(Play(s, a), b)
    decreases |b|
  {
    hide After;
    if b == [] {
      assert a + b == a;
    } else {
      assert (a + b)[..|a + b| - 1] == a + b[..|b| - 1];
      PlayAppend(s, a, b[..|b| - 1]);
    }
  }

  /** Moves of the loop alone are actions of its timer queue. */
  lemma {:induction false} LoopMovesExecute(s: Server, actions: seq<Action>)
    requires forall k :: 0 <= k < |actions| ==> !actions[k].FireNext? && !actions[k].Cancel?
    ensures Play(s, LoopMoves(actions)) == s.(loop := Execute(s.loop, actions))
    decreases |actions|
  {
    if actions != [] {
      var init := actions[..|actions| - 1];
      LoopMovesExecute(s, init);
      assert LoopMoves(actions)[..|actions| - 1] == LoopMoves(init);
    }
  }
}
