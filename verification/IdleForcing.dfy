/** What the idle policy does for certain: which timers wait, what is noted, and that idle connections are closed. */
module IdleForcing {
  import opened TimerModel
  import opened TimerProofs
  import opened TimerRefinement
  import opened TimerRead
  import opened IdlePolicy
  import opened IdleProofs

  // ---- what a move does, told from the state before it ----

  /** A timer of this server is called, and not skipped. */
  predicate GoesOff(s: Server, a: Move) {
    a.Fire? && Possible(s, a) && Caller(s) in s.callbacks && !s.loop.q.pool[Caller(s)].canceled
  }

  /** A timer ends its wait when it is called, replaced for a message, or its connection goes down. */
  predicate Stops(s: Server, a: Move, id: TimerId)
    requires id in s.callbacks
  {
    && Possible(s, a)
    && match a
       case Fire(_) => Caller(s) == id
       case Down(c) => s.callbacks[id].conn == c
       case Message(c, _) => s.callbacks[id] == Callback(c, IdleTimeout) && s.states[c] == Connected
       case _ => false
  }

  /** What the timer the move sets is bound to; no move sets two. */
  function Starts(s: Server, a: Move): seq<Callback> {
    if !Possible(s, a) then []
    else
      match a
      case Up(c, _) => [Callback(c, IdleTimeout)]
      case Message(c, _) => if s.states[c] == Connected then [Callback(c, IdleTimeout)] else []
      case Fire(_) => if Shuts(s, a) then [Callback(s.callbacks[Caller(s)].conn, ForceCloseTimeout)] else []
      case _ => []
  }

  /** The idle timer of a connected connection goes off. */
  predicate Shuts(s: Server, a: Move) {
    && GoesOff(s, a)
    && var cb := s.callbacks[Caller(s)];
       cb.role == IdleTimeout && cb.conn in s.states && s.states[cb.conn] == Connected
  }

  /** A force-close timer goes off. */
  predicate Forces(s: Server, a: Move) {
    && GoesOff(s, a)
    && s.callbacks[Caller(s)].role == ForceCloseTimeout
  }

  function Noted(s: Server, a: Move): seq<Event> {
    if !Possible(s, a) then []
    else
      match a
      case Up(c, _) => [Heard(c, s.loop.clock)]
      case Message(c, _) => [Heard(c, s.loop.clock)]
      case Fire(_) =>
        if Shuts(s, a) then [IdleShutdown(s.callbacks[Caller(s)].conn, s.loop.clock)]
        else if Forces(s, a) then [ForcedClose(s.callbacks[Caller(s)].conn, s.loop.clock)]
        else []
      case _ => []
  }

  datatype Happening = CameUp | WasShut | WentDown

  /** The move is possible, and is that of connection `c`. */
  predicate Does(s: Server, a: Move, c: ConnId, what: Happening) {
    && Possible(s, a)
    && match what
       case CameUp => a.Up? && a.conn == c
       case WasShut => a == Shutdown(c)
       case WentDown => a == Down(c)
  }

  // ---- calling a timer ----

  /** A timer that goes off belongs to a connection that is not down, and its record names it. */
  lemma CallerFacts(s: Server, a: Move)
    requires Good(s) && GoesOff(s, a)
    ensures var cb := s.callbacks[Caller(s)];
            && Waits(s.loop, Caller(s))
            && cb.conn in s.states && cb.conn in s.idleTimers && s.states[cb.conn] != Disconnected
            && (cb.role == ForceCloseTimeout ==>
                  s.states[cb.conn] == Disconnecting && s.idleTimers[cb.conn].forceCloseTimer == Caller(s))
  {
    hide Healthy, Waits, Tracked, Covered, Patient;
    var id := Caller(s);
    WaitingIsUncanceled(s);
    TrackedTimer(s, id);
    ConnectedFacts(s, s.callbacks[id].conn);
    if s.callbacks[id].role == ForceCloseTimeout {
      ShutMeansNotConnected(s, s.callbacks[id].conn, s.loop.q.pool[id].addedAt);
    }
  }

  /** The whole effect of calling, or skipping, the next timer of the batch. */
  lemma CallExactly(s: Server, t: NewTimer)
    requires Good(s) && Possible(s, Fire(t))
    ensures var r := After(s, Fire(t));
            var p := Popped(s);
            && r.events == s.events + Noted(s, Fire(t))
            && if Shuts(s, Fire(t)) then
                 var c := s.callbacks[Caller(s)].conn;
                 && r.loop == Added(p.loop, t) && r.states == s.states[c := Disconnecting]
                 && r.callbacks == s.callbacks[p.loop.q.nextId := Callback(c, ForceCloseTimeout)]
                 && r.idleTimers == s.idleTimers[c := ConnectionTimers(0, p.loop.q.nextId)]
               else if Forces(s, Fire(t)) then
                 var c := s.callbacks[Caller(s)].conn;
                 && c in s.idleTimers && s.states[c] == Disconnecting && r.states == s.states
                 && r.loop == p.loop && r.callbacks == s.callbacks
                 && r.idleTimers == s.idleTimers[c := s.idleTimers[c].(forceCloseTimer := 0)]
               else
                 r == p
  {
    var a := Fire(t);
    if GoesOff(s, a) {
      CallerFacts(s, a);
      hide Good, Waits, Next, Added;
      var c := s.callbacks[Caller(s)].conn;
      if Forces(s, a) {
        assert s.states[c := Disconnecting] == s.states;
      }
    } else {
      hide Good, Next, HandleIdleTimeout, HandleForceCloseTimeout;
    }
  }

  // ---- the other moves ----

  lemma UpExactly(s: Server, c: ConnId, t: NewTimer)
    requires Possible(s, Up(c, t))
    ensures var r := After(s, Up(c, t));
            var id := s.loop.q.nextId;
            && r.loop == Added(s.loop, t) && r.callbacks == s.callbacks[id := Callback(c, IdleTimeout)]
            && r.states == s.states[c := Connected] && r.idleTimers == s.idleTimers[c := ConnectionTimers(id, 0)]
            && r.events == s.events + Noted(s, Up(c, t))
  {
    hide Next, Added;
  }

  lemma MessageExactly(s: Server, c: ConnId, t: NewTimer)
    requires Good(s) && Possible(s, Message(c, t))
    ensures var r := After(s, Message(c, t));
            && r.states == s.states && r.events == s.events + Noted(s, Message(c, t))
            && if s.states[c] == Connected then
                 && c in s.idleTimers
                 && r.loop == Added(Cancelled(s.loop, s.idleTimers[c].idleTimer), t)
                 && r.callbacks == s.callbacks[s.loop.q.nextId := Callback(c, IdleTimeout)]
                 && r.idleTimers == s.idleTimers[c := s.idleTimers[c].(idleTimer := s.loop.q.nextId)]
               else
                 r.loop == s.loop && r.callbacks == s.callbacks && r.idleTimers == s.idleTimers
  {
    ConnectedFacts(s, c);
    if s.states[c] == Connected {
      CancelStops(s.loop, s.idleTimers[c].idleTimer);
    }
    hide Good, Next, Added, Cancelled;
  }

  lemma DownExactly(s: Server, c: ConnId)
    requires Good(s) && Possible(s, Down(c))
    ensures c in s.idleTimers
    ensures var r := After(s, Down(c));
            && r.states == s.states[c := Disconnected] && r.events == s.events && r.callbacks == s.callbacks
            && r.idleTimers == s.idleTimers - {c}
            && r.loop == Cancelled(Cancelled(s.loop, s.idleTimers[c].idleTimer), s.idleTimers[c].forceCloseTimer)
  {
    ConnectedFacts(s, c);
    hide Good, Next, Cancelled;
  }

  /** What a connection's record names is bound to that connection. */
  lemma NamedFacts(s: Server, c: ConnId, id: TimerId)
    requires Good(s) && c in s.idleTimers && id in s.callbacks
    ensures id == s.idleTimers[c].idleTimer ==> s.callbacks[id] == Callback(c, IdleTimeout)
    ensures id == s.idleTimers[c].forceCloseTimer ==> s.callbacks[id] == Callback(c, ForceCloseTimeout)
  {
    hide Healthy, Covered, Patient;
    assert Named(s, c) && Tracked(s, id);
  }

  // ---- how long timers wait ----

  lemma FireStops(s: Server, t: NewTimer, id: TimerId)
    requires Good(s) && Possible(s, Fire(t)) && id in s.callbacks
    ensures var r := After(s, Fire(t));
            Kept(s.loop, r.loop, id) && (Waits(r.loop, id) <==> Waits(s.loop, id) && Caller(s) != id)
  {
    CallExactly(s, t);
    PoppedKeeps(s);
    TrackedInPool(s, id);
    hide Good, After, Next, Added, Waits, Healthy, Shuts, Forces, Caller;
    if Shuts(s, Fire(t)) {
      AddSpares(Popped(s).loop, t, id);
    }
  }

  lemma MessageStops(s: Server, c: ConnId, t: NewTimer, id: TimerId)
    requires Good(s) && Possible(s, Message(c, t)) && id in s.callbacks
    ensures var r := After(s, Message(c, t));
            && Kept(s.loop, r.loop, id)
            && (Waits(r.loop, id) <==>
                Waits(s.loop, id) && !(s.callbacks[id] == Callback(c, IdleTimeout) && s.states[c] == Connected))
  {
    MessageExactly(s, c, t);
    TrackedTimer(s, id);
    TrackedInPool(s, id);
    SameLoopSpares(s.loop, id);
    if s.states[c] == Connected {
      NamedFacts(s, c, id);
      ReplaceSpares(s.loop, s.idleTimers[c].idleTimer, t, id);
    }
    hide Good, After, Next, Added, Cancelled, Waits, Healthy;
  }

  lemma DownStops(s: Server, c: ConnId, id: TimerId)
    requires Good(s) && Possible(s, Down(c)) && id in s.callbacks
    ensures var r := After(s, Down(c));
            Kept(s.loop, r.loop, id) && (Waits(r.loop, id) <==> Waits(s.loop, id) && s.callbacks[id].conn != c)
  {
    DownExactly(s, c);
    TrackedTimer(s, id);
    TrackedInPool(s, id);
    NamedFacts(s, c, id);
    DownSpares(s.loop, s.idleTimers[c].idleTimer, s.idleTimers[c].forceCloseTimer, id);
    hide Good, After, Next, Cancelled, Waits, Healthy;
  }

  lemma UpStops(s: Server, c: ConnId, t: NewTimer, id: TimerId)
    requires Good(s) && Possible(s, Up(c, t)) && id in s.callbacks
    ensures Spared(s.loop, After(s, Up(c, t)).loop, id)
  {
    UpExactly(s, c, t);
    TrackedInPool(s, id);
    AddSpares(s.loop, t, id);
    hide Good, After, Next, Added, Waits, Healthy;
  }

  /** A timer waits on, as it was set, until it is called, replaced for a message, or its connection goes down. */
  lemma WaitsUntilStopped(s: Server, a: Move, id: TimerId)
    requires Good(s) && id in s.callbacks
    ensures var r := After(s, a);
            && Kept(s.loop, r.loop, id)
            && (Waits(r.loop, id) <==> Waits(s.loop, id) && !Stops(s, a, id))
  {
    TrackedInPool(s, id);
    SameLoopSpares(s.loop, id);
    if Possible(s, a) {
      match a
      case Up(c, t) => UpStops(s, c, t, id);
      case Message(c, t) => MessageStops(s, c, t, id);
      case Shutdown(c) =>
      case Down(c) => DownStops(s, c, id);
      case Loop(act) => StepSpares(s.loop, act, id);
      case Fire(t) => FireStops(s, t, id);
    }
    hide Good, Next, ConnectionUp, ConnectionDown, OnMessage, Call, Waits, Healthy, Enabled;
  }

  // ---- one move, exactly ----

  /** What a move sets, waits, and its connection's record names it. */
  ghost predicate JustSet(s: Server, r: Server, cb: Callback) {
    var id := s.loop.q.nextId;
    && id !in s.callbacks && r.callbacks == s.callbacks[id := cb]
    && Waits(r.loop, id) && AddedSince(r.loop, id, s.loop.clock) && r.loop.q.pool[id].addedAt == r.loop.clock
    && cb.conn in r.idleTimers
    && id == if cb.role == IdleTimeout then r.idleTimers[cb.conn].idleTimer else r.idleTimers[cb.conn].forceCloseTimer
  }

  lemma NewIdIsNew(s: Server)
    requires Good(s)
    ensures s.loop.q.nextId !in s.callbacks
  {
    if s.loop.q.nextId in s.callbacks {
      TrackedInPool(s, s.loop.q.nextId);
    }
  }

  lemma FireSets(s: Server, t: NewTimer)
    requires Good(s) && Possible(s, Fire(t)) && Shuts(s, Fire(t))
    ensures JustSet(s, After(s, Fire(t)), Callback(s.callbacks[Caller(s)].conn, ForceCloseTimeout))
  {
    CallExactly(s, t);
    PoppedKeeps(s);
    AddStarts(Popped(s).loop, t);
    NewIdIsNew(s);
    hide Good, After, Next, Added, Waits, Healthy, Shuts, Forces, Caller;
  }

  lemma MessageSets(s: Server, c: ConnId, t: NewTimer)
    requires Good(s) && Possible(s, Message(c, t)) && s.states[c] == Connected
    ensures JustSet(s, After(s, Message(c, t)), Callback(c, IdleTimeout))
  {
    MessageExactly(s, c, t);
    CancelStops(s.loop, s.idleTimers[c].idleTimer);
    AddStarts(Cancelled(s.loop, s.idleTimers[c].idleTimer), t);
    NewIdIsNew(s);
    hide Good, After, Next, Added, Cancelled, Waits, Healthy;
  }

  lemma UpSets(s: Server, c: ConnId, t: NewTimer)
    requires Good(s) && Possible(s, Up(c, t))
    ensures JustSet(s, After(s, Up(c, t)), Callback(c, IdleTimeout))
  {
    UpExactly(s, c, t);
    AddStarts(s.loop, t);
    NewIdIsNew(s);
    hide Good, After, Next, Added, Waits, Healthy;
  }

  /** A move sets the timer `Starts` tells, and no other. */
  lemma SetsExactly(s: Server, a: Move)
    requires Good(s)
    ensures if Starts(s, a) == [] then After(s, a).callbacks == s.callbacks
            else JustSet(s, After(s, a), Starts(s, a)[0])
  {
    if Possible(s, a) {
      match a
      case Up(c, t) => UpSets(s, c, t);
      case Message(c, t) =>
        MessageExactly(s, c, t);
        if s.states[c] == Connected {
          MessageSets(s, c, t);
        }
      case Shutdown(c) =>
      case Down(c) => DownExactly(s, c);
      case Loop(act) =>
      case Fire(t) =>
        CallExactly(s, t);
        if Shuts(s, a) {
          FireSets(s, t);
        }
    }
    hide Good, Next, ConnectionUp, ConnectionDown, OnMessage, Call, JustSet, Enabled;
  }

  /** A move notes the event `Noted` tells, and no other. */
  lemma NotesExactly(s: Server, a: Move)
    requires Good(s)
    ensures After(s, a).events == s.events + Noted(s, a)
  {
    if Possible(s, a) {
      match a
      case Up(c, t) => UpExactly(s, c, t);
      case Message(c, t) => MessageExactly(s, c, t);
      case Shutdown(c) =>
      case Down(c) => DownExactly(s, c);
      case Loop(act) =>
      case Fire(t) => CallExactly(s, t);
    }
    hide Good, Next, ConnectionUp, ConnectionDown, OnMessage, Call, Enabled;
  }

  /** Calling a timer takes a connection from connected to disconnecting, if it is the idle timer of one. */
  lemma FireStates(s: Server, t: NewTimer, c: ConnId)
    requires Good(s) && Possible(s, Fire(t))
    ensures var r := After(s, Fire(t));
            && r.states.Keys == s.states.Keys
            && (c in s.states ==>
                  r.states[c] ==
                  if Shuts(s, Fire(t)) && s.callbacks[Caller(s)].conn == c then Disconnecting else s.states[c])
  {
    CallExactly(s, t);
    hide Good, Next, After, Added, Caller, Forces, Noted;
  }

  /** What a move does to the state of connection `c`. */
  lemma StatesExactly(s: Server, a: Move, c: ConnId)
    requires Good(s)
    ensures var r := After(s, a);
            && (c in r.states <==> c in s.states || Does(s, a, c, CameUp))
            && (c in r.states ==>
                  && (r.states[c] == Disconnected <==>
                      (c in s.states && s.states[c] == Disconnected) || Does(s, a, c, WentDown))
                  && (r.states[c] == Connected <==>
                      if Does(s, a, c, CameUp) then true
                      else
                        && s.states[c] == Connected && !Does(s, a, c, WasShut) && !Does(s, a, c, WentDown)
                        && !(Shuts(s, a) && s.callbacks[Caller(s)].conn == c)))
  {
    if Possible(s, a) {
      match a
      case Up(d, t) => UpExactly(s, d, t);
      case Message(d, t) => MessageExactly(s, d, t);
      case Shutdown(d) =>
      case Down(d) => DownExactly(s, d);
      case Loop(act) =>
      case Fire(t) => FireStates(s, t, c);
    }
    hide Good, Next, ConnectionUp, ConnectionDown, OnMessage, Call, Enabled, Forces, Noted, Shuts;
  }

  // ---- every run ----

  /** The history of a run: what each of its moves notes. */
  function History(s: Server, moves: seq<Move>): seq<Event> {
    if moves == [] then []
    else
      var init := moves[..|moves| - 1];
      History(s, init) + Noted(Play(s, init), moves[|moves| - 1])
  }

  /** Over every run, nothing is noted but what its moves note, each once and in their order. */
  lemma {:induction false} EventsAreTheHistory(s: Server, moves: seq<Move>)
    requires Fresh(s)
    ensures Play(s, moves).events == History(s, moves)
    decreases |moves|
  {
    hide Good, After, Noted;
    if moves != [] {
      var init := moves[..|moves| - 1];
      EventsAreTheHistory(s, init);
      PlayKeepsGood(s, init);
      NotesExactly(Play(s, init), moves[|moves| - 1]);
    }
  }

  /**
   * Over every run, a timer waits on as it was set until it is called, replaced for a message, or its connection goes
   * down; and a move sets a timer, due in 15 seconds, when a connection comes up, is heard of, or is shut down for
   * idleness.
   */
  lemma {:induction false} TimersExactly(s: Server, moves: seq<Move>, a: Move)
    requires Fresh(s)
    ensures var p := Play(s, moves);
            var r := After(p, a);
            && (forall id :: id in p.callbacks ==>
                  id in r.callbacks && r.callbacks[id] == p.callbacks[id] && Kept(p.loop, r.loop, id) &&
                  (Waits(r.loop, id) <==> Waits(p.loop, id) && !Stops(p, a, id)))
            && if Starts(p, a) == [] then r.callbacks == p.callbacks else JustSet(p, r, Starts(p, a)[0])
  {
    PlayKeepsGood(s, moves);
    hide Good, Play, After, Kept, Waits, JustSet, Stops, Starts;
    var p := Play(s, moves);
    SetsExactly(p, a);
    forall id | id in p.callbacks
      ensures id in After(p, a).callbacks && After(p, a).callbacks[id] == p.callbacks[id]
      ensures Kept(p.loop, After(p, a).loop, id)
      ensures Waits(After(p, a).loop, id) <==> Waits(p.loop, id) && !Stops(p, a, id)
    {
      WaitsUntilStopped(p, a, id);
      BoundForGood(p, a, id);
    }
  }

  lemma BoundForGood(s: Server, a: Move, id: TimerId)
    requires Good(s) && id in s.callbacks
    ensures id in After(s, a).callbacks && After(s, a).callbacks[id] == s.callbacks[id]
  {
    SetsExactly(s, a);
    hide Good, After, Waits, AddedSince, Starts;
  }

  /** Somewhere in the run, connection `c` came up, was shut down by others than the idle timer, or went down. */
  predicate Happened(s: Server, moves: seq<Move>, c: ConnId, what: Happening) {
    moves != [] &&
    var init := moves[..|moves| - 1];
    Happened(s, init, c, what) || Does(Play(s, init), moves[|moves| - 1], c, what)
  }

  /** `c` has been shut down for idleness. */
  ghost predicate WasIdle(events: seq<Event>, c: ConnId) {
    exists i :: 0 <= i < |events| && events[i].IdleShutdown? && events[i].conn == c
  }

  ghost predicate WasForced(events: seq<Event>, c: ConnId) {
    exists i :: 0 <= i < |events| && events[i].ForcedClose? && events[i].conn == c
  }

  lemma NotedIdle(s: Server, a: Move, c: ConnId)
    ensures WasIdle(s.events + Noted(s, a), c) <==>
            WasIdle(s.events, c) || (Shuts(s, a) && s.callbacks[Caller(s)].conn == c)
  {
    hide Caller, Enabled;
    var r := s.events + Noted(s, a);
    assert forall i :: 0 <= i < |s.events| ==> r[i] == s.events[i];
    if Shuts(s, a) {
      assert r[|s.events|].IdleShutdown?;
    }
  }

  /**
   * Over every run, what became of a connection decides its state: connected means that it has come up and was not shut
   * down by anyone, for idleness or else, and did not go down.
   */
  lemma {:induction false} StatesAreWhatHappened(s: Server, moves: seq<Move>, c: ConnId)
    requires Fresh(s)
    ensures var r := Play(s, moves);
            && (c in r.states <==> Happened(s, moves, c, CameUp))
            && (c in r.states ==>
                  && (r.states[c] == Disconnected <==> Happened(s, moves, c, WentDown))
                  && (r.states[c] == Connected <==>
                      && !Happened(s, moves, c, WasShut) && !Happened(s, moves, c, WentDown) && !WasIdle(r.events, c)))
            && (c !in r.states ==> !Happened(s, moves, c, WasShut) && !Happened(s, moves, c, WentDown))
    decreases |moves|
  {
    hide Good, After, Noted, Possible, Shuts, Caller;
    if moves != [] {
      var init, a := moves[..|moves| - 1], moves[|moves| - 1];
      var p := Play(s, init);
      StatesAreWhatHappened(s, init, c);
      PlayKeepsGood(s, init);
      StatesExactly(p, a, c);
      NotesExactly(p, a);
      NotedIdle(p, a, c);
      IdleMeansShut(p, c);
      DoesFacts(p, a, c);
    }
  }

  lemma IdleMeansShut(s: Server, c: ConnId)
    requires Good(s)
    ensures WasIdle(s.events, c) ==> c in s.states && s.states[c] != Connected
  {
    hide Healthy, Tracked, Patient, Waits;
  }

  lemma DoesFacts(s: Server, a: Move, c: ConnId)
    requires Good(s)
    ensures Does(s, a, c, CameUp) ==> c !in s.states && !Does(s, a, c, WasShut) && !Does(s, a, c, WentDown)
    ensures Does(s, a, c, WasShut) || Does(s, a, c, WentDown) ==> c in s.states
    ensures Shuts(s, a) ==> !Does(s, a, c, CameUp)
  {
    hide Good;
  }

  /**
   * Over every run, a force-close timer that goes off finds its connection shut down and not yet down, and forces it
   * closed; an idle timer that goes off shuts its connection down if that is still connected, and sets the other timer.
   */
  lemma {:induction false} GoingOffExactly(s: Server, moves: seq<Move>, t: NewTimer)
    requires Fresh(s) && Possible(Play(s, moves), Fire(t)) && GoesOff(Play(s, moves), Fire(t))
    ensures var p := Play(s, moves);
            var r := After(p, Fire(t));
            var c := p.callbacks[Caller(p)].conn;
            var id := p.loop.q.nextId;
            && c in p.states && c in p.idleTimers && p.states[c] != Disconnected
            && if p.callbacks[Caller(p)].role == ForceCloseTimeout then
                 && p.states[c] == Disconnecting && r.states == p.states && r.callbacks == p.callbacks
                 && r.events == p.events + [ForcedClose(c, p.loop.clock)]
               else if p.states[c] == Connected then
                 && r.states == p.states[c := Disconnecting]
                 && r.events == p.events + [IdleShutdown(c, p.loop.clock)]
                 && id !in p.callbacks && r.callbacks == p.callbacks[id := Callback(c, ForceCloseTimeout)]
                 && Waits(r.loop, id) && AddedSince(r.loop, id, p.loop.clock)
                 && c in r.idleTimers && r.idleTimers[c].forceCloseTimer == id
               else
                 r.states == p.states && r.events == p.events && r.callbacks == p.callbacks
  {
    PlayKeepsGood(s, moves);
    var p := Play(s, moves);
    CallerFacts(p, Fire(t));
    CallExactly(p, t);
    SetsExactly(p, Fire(t));
    hide Good, Play, After, Next, Added, Caller, Waits, AddedSince, Enabled;
  }

  // ---- a timer that waits no more ----

  /** Over every run, a timer stays bound as it was, and is not scheduled anew. */
  lemma {:induction false} KeptOverRun(s: Server, moves: seq<Move>, id: TimerId)
    requires Good(s) && id in s.callbacks
    ensures var r := Play(s, moves);
            Good(r) && id in r.callbacks && r.callbacks[id] == s.callbacks[id] && Kept(s.loop, r.loop, id)
    decreases |moves|
  {
    if moves == [] {
      TrackedInPool(s, id);
      SameLoopSpares(s.loop, id);
    } else {
      var init, a := moves[..|moves| - 1], moves[|moves| - 1];
      var p := Play(s, init);
      KeptOverRun(s, init, id);
      WaitsUntilStopped(p, a, id);
      BoundForGood(p, a, id);
      MoveKeepsGood(p, a);
    }
    hide Good, After, Waits, Stops;
  }

  lemma {:induction false} GoodOverRun(s: Server, moves: seq<Move>)
    requires Good(s)
    ensures Good(Play(s, moves))
    decreases |moves|
  {
    hide Good, After;
    if moves != [] {
      GoodOverRun(s, moves[..|moves| - 1]);
      MoveKeepsGood(Play(s, moves[..|moves| - 1]), moves[|moves| - 1]);
    }
  }

  /** A connection that is no longer connected gets no timer any more. */
  lemma {:induction false} NoNewTimers(s: Server, moves: seq<Move>, c: ConnId)
    requires Good(s) && c in s.states && s.states[c] != Connected
    ensures var r := Play(s, moves);
            && Good(r) && c in r.states && r.states[c] != Connected
            && forall id :: id in r.callbacks && r.callbacks[id].conn == c ==> id in s.callbacks
    decreases |moves|
  {
    hide Good, After, Caller, Possible;
    if moves != [] {
      var init, a := moves[..|moves| - 1], moves[|moves| - 1];
      var p := Play(s, init);
      NoNewTimers(s, init, c);
      StatesExactly(p, a, c);
      DoesFacts(p, a, c);
      MoveKeepsGood(p, a);
      NoNewTimer(p, a, c);
    }
  }

  lemma NoNewTimer(s: Server, a: Move, c: ConnId)
    requires Good(s) && c in s.states && s.states[c] != Connected
    ensures forall id :: id in After(s, a).callbacks && After(s, a).callbacks[id].conn == c ==>
              id in s.callbacks && s.callbacks[id].conn == c
  {
    SetsExactly(s, a);
    hide Good, After, Waits, AddedSince;
  }

  // ---- the policy, carried out ----

  /** The force-close timer of `c` waits. */
  ghost predicate Awaits(s: Server, c: ConnId) {
    exists id :: id in s.callbacks && s.callbacks[id] == Callback(c, ForceCloseTimeout) && Waits(s.loop, id)
  }

  /** `c` is down, has been forced closed, or will be when a timer goes off. */
  ghost predicate Closing(s: Server, c: ConnId)
    requires c in s.states
  {
    s.states[c] == Disconnected || WasForced(s.events, c) || Awaits(s, c)
  }

  lemma ForcedStays(s: Server, a: Move, c: ConnId)
    ensures WasForced(s.events, c) ==> WasForced(s.events + Noted(s, a), c)
    ensures Forces(s, a) && s.callbacks[Caller(s)].conn == c ==> WasForced(s.events + Noted(s, a), c)
  {
    hide Caller, Enabled;
    var r := s.events + Noted(s, a);
    assert forall i :: 0 <= i < |s.events| ==> r[i] == s.events[i];
    if Forces(s, a) {
      assert r[|s.events|].ForcedClose?;
    }
  }

  lemma MoveKeepsClosing(s: Server, a: Move, c: ConnId)
    requires Good(s) && c in s.states && Closing(s, c)
    ensures c in After(s, a).states && Closing(After(s, a), c)
  {
    StatesExactly(s, a, c);
    NotesExactly(s, a);
    ForcedStays(s, a, c);
    if s.states[c] != Disconnected && !WasForced(s.events, c) {
      var id :| id in s.callbacks && s.callbacks[id] == Callback(c, ForceCloseTimeout) && Waits(s.loop, id);
      WaitsUntilStopped(s, a, id);
      BoundForGood(s, a, id);
      if Stops(s, a, id) {
        StopsForce(s, a, c, id);
      }
    }
    hide Good, After, Waits, Kept, Stops, Forces, Noted, Shuts, Caller, Possible;
  }

  /** A waiting force-close timer stops because its connection is forced closed or goes down. */
  lemma StopsForce(s: Server, a: Move, c: ConnId, id: TimerId)
    requires Good(s) && id in s.callbacks && s.callbacks[id] == Callback(c, ForceCloseTimeout) && Waits(s.loop, id)
    requires Stops(s, a, id)
    ensures Does(s, a, c, WentDown) || (Forces(s, a) && s.callbacks[Caller(s)].conn == c)
  {
    if a.Fire? {
      WaitingIsUncanceled(s);
    }
    hide Good, Waits;
  }

  lemma ShutStartsClosing(s: Server, a: Move)
    requires Good(s) && Shuts(s, a)
    ensures Awaits(After(s, a), s.callbacks[Caller(s)].conn)
  {
    SetsExactly(s, a);
    hide Good, After, Waits, AddedSince;
  }

  /** Over every run, a connection shut down for idleness is down, has been forced closed, or has its timer waiting. */
  lemma {:induction false} IdleConnectionsAreClosing(s: Server, moves: seq<Move>, c: ConnId)
    requires Fresh(s)
    ensures var r := Play(s, moves);
            WasIdle(r.events, c) ==> c in r.states && r.states[c] != Connected && Closing(r, c)
    decreases |moves|
  {
    if moves != [] {
      var init, a := moves[..|moves| - 1], moves[|moves| - 1];
      IdleConnectionsAreClosing(s, init, c);
      PlayKeepsGood(s, init);
      MoveKeepsIdleClosing(Play(s, init), a, c);
    }
    hide Good, After, Closing;
  }

  lemma MoveKeepsIdleClosing(s: Server, a: Move, c: ConnId)
    requires Good(s) && (WasIdle(s.events, c) ==> c in s.states && Closing(s, c))
    ensures var r := After(s, a);
            WasIdle(r.events, c) ==> c in r.states && r.states[c] != Connected && Closing(r, c)
  {
    NotesExactly(s, a);
    NotedIdle(s, a, c);
    if WasIdle(s.events, c) {
      MoveKeepsClosing(s, a, c);
    } else if Shuts(s, a) && s.callbacks[Caller(s)].conn == c {
      ShutStartsClosing(s, a);
    }
    MoveKeepsGood(s, a);
    IdleMeansShut(After(s, a), c);
    hide Good, After, Noted, Shuts, Caller, Possible, Awaits;
  }

  // ---- one read of the timer queue ----

  /** The first loop of the read calls, or skips, the timers of its batch one by one. */
  lemma {:induction false} FiringGoesOn(s: Server, starts: nat -> int, timers: nat -> NewTimer, k: nat)
    requires Good(s) && s.loop.phase.Calling? && s.loop.phase.next == 0 && k <= |s.loop.phase.batch|
    ensures var r := Play(s, FireMoves(starts, timers, k));
            Good(r) && r.loop.phase == Calling(s.loop.phase.batch, k)
  {
    hide Good, After, Play;
    if k == 0 {
      PlayNone(s);
    } else {
      FiringGoesOn(s, starts, timers, k - 1);
      var init := FireMoves(starts, timers, k - 1);
      var p := Play(s, init);
      var turn := [Loop(Advance(starts(k - 1))), Fire(timers(k - 1))];
      PlayAppend(s, init, turn);
      PlayTwo(p, turn[0], turn[1]);
      MoveKeepsGood(p, turn[0]);
      MoveKeepsGood(After(p, turn[0]), turn[1]);
      TurnGoesOn(p, starts(k - 1), timers(k - 1));
    }
  }

  lemma PlayNone(s: Server)
    ensures Play(s, []) == s
  {
  }

  lemma PlayTwo(s: Server, a: Move, b: Move)
    ensures Play(s, [a, b]) == After(After(s, a), b)
  {
    hide After;
    assert [a, b][..1] == [a] && [a][..0] == [];
    assert Play(s, [a]) == After(s, a);
  }

  lemma TurnGoesOn(s: Server, start: int, t: NewTimer)
    requires Good(s) && s.loop.phase.Calling? && s.loop.phase.next < |s.loop.phase.batch|
    ensures var r := After(After(s, Loop(Advance(start))), Fire(t));
            r.loop.phase == Calling(s.loop.phase.batch, s.loop.phase.next + 1)
  {
    hide Good, Next, Call;
    NextAdvance(s.loop, start);
    MoveKeepsGood(s, Loop(Advance(start)));
    FireGoesOn(After(s, Loop(Advance(start))), t);
  }

  lemma FireGoesOn(s: Server, t: NewTimer)
    requires Good(s) && s.loop.phase.Calling? && s.loop.phase.next < |s.loop.phase.batch|
    ensures After(s, Fire(t)).loop.phase == Calling(s.loop.phase.batch, s.loop.phase.next + 1)
  {
    BatchInPool(s);
    CallExactly(s, t);
    PoppedKeeps(s);
    NextFire(s.loop);
    hide Good, After, Next, Waits, Healthy, Shuts, Forces, Noted, Kept, Spared, Tracked, Added;
    AddStarts(Popped(s).loop, t);
  }

  lemma BatchInPool(s: Server)
    requires Good(s) && s.loop.phase.Calling?
    ensures forall id :: id in s.loop.phase.batch ==> id in s.loop.q.pool
  {
    hide Tracked, Covered, Named, Patient;
    PendingInPool(s.loop);
  }

  /** A read leaves no due timer waiting. */
  lemma ReadCallsTheDue(s: Server, w: World, timers: nat -> NewTimer, id: TimerId)
    requires Good(s) && s.loop.phase.Idle? && s.loop.clock <= w.now <= INT64_MAX
    requires id in s.callbacks && s.loop.q.pool[id].expiration <= w.now
    ensures !Waits(Play(s, ReadMoves(w, timers, |Batch(s.loop, w)|)).loop, id)
  {
    hide Good, Play, After, Next, FireMoves, LoopMoves, Waits, RearmTurns, Batch;
    var n := |Batch(s.loop, w)|;
    var begin, last := LoopMoves([Advance(w.now), BeginRead]), LoopMoves([EndCalling] + RearmTurns(w, n) + [EndRead]);
    var calls := FireMoves(w.starts, timers, n);
    PlayAppend(s, begin + calls, last);
    PlayAppend(s, begin, calls);
    KeptOverRun(s, begin, id);
    if Waits(s.loop, id) {
      LoopCallsTheDue(s, w, timers, id);
    } else {
      KeptOverRun(Play(s, begin), calls, id);
    }
    GoodOverRun(Play(s, begin), calls);
    KeptOverRun(Play(s, begin), calls, id);
    KeptOverRun(Play(Play(s, begin), calls), last, id);
  }

  lemma LoopCallsTheDue(s: Server, w: World, timers: nat -> NewTimer, id: TimerId)
    requires Good(s) && s.loop.phase.Idle? && s.loop.clock <= w.now <= INT64_MAX
    requires Waits(s.loop, id) && s.loop.q.pool[id].expiration <= w.now
    ensures var s1 := Play(s, LoopMoves([Advance(w.now), BeginRead]));
            !Waits(Play(s1, FireMoves(w.starts, timers, |Batch(s.loop, w)|)).loop, id)
  {
    hide Play, After, Next, FireMoves, LoopMoves, RearmTurns, Batch;
    var begin := [Advance(w.now), BeginRead];
    var s1 := Play(s, LoopMoves(begin));
    LoopMovesExecute(s, begin);
    ExecuteTwo(s.loop, Advance(w.now), BeginRead);
    BeginsRead(s.loop, w);
    DueIsTaken(s.loop, w, id);
    GoodOverRun(s, LoopMoves(begin));
    hide Good, Waits;
    FiringGoesOn(s1, w.starts, timers, |Batch(s.loop, w)|);
    AllCalled(Play(s1, FireMoves(w.starts, timers, |Batch(s.loop, w)|)).loop, id);
  }

  lemma AllCalled(m: Machine, id: TimerId)
    requires m.phase.Calling? && m.phase.next == |m.phase.batch| && id in m.phase.batch
    ensures !Waits(m, id)
  {
    assert m.phase.batch[..m.phase.next] == m.phase.batch;
  }

  lemma BeginsRead(m: Machine, w: World)
    requires m.phase.Idle? && m.clock <= w.now <= INT64_MAX
    ensures Next(Next(m, Advance(w.now)), BeginRead).phase == Calling(Batch(m, w), 0)
  {
    NextAdvance(m, w.now);
    NextBeginRead(Next(m, Advance(w.now)));
    hide Next, TakeExpired;
  }

  lemma DueIsTaken(m: Machine, w: World, id: TimerId)
    requires Healthy(m) && m.phase.Idle? && m.clock <= w.now <= INT64_MAX
    requires Waits(m, id) && m.q.pool[id].expiration <= w.now
    ensures id in Batch(m, w)
  {
    var m1 := Next(m, Advance(w.now));
    NextAdvance(m, w.now);
    StaysHealthy(m, Advance(w.now));
    DueIsInBatch(m1, id);
  }

  // ---- idle connections are shut, and then forced closed ----

  lemma PolicyTimerDue(s: Server, id: TimerId)
    requires Good(s) && id in s.callbacks
    ensures id in s.loop.q.pool && s.loop.q.pool[id].expiration <= Deadline(s.loop.clock, IDLE_DELAY)
  {
    hide Healthy, Covered, Named, Patient, Waits;
    assert Tracked(s, id);
  }

  /** No message of `c` comes in. */
  predicate Quiet(moves: seq<Move>, c: ConnId) {
    forall k :: 0 <= k < |moves| ==> !(moves[k].Message? && moves[k].conn == c)
  }

  /** A connection that stays connected without a message keeps its idle timer. */
  lemma {:induction false} QuietKeepsTimer(s: Server, moves: seq<Move>, c: ConnId)
    requires Good(s) && c in s.states && s.states[c] == Connected && Quiet(moves, c)
    ensures var r := Play(s, moves);
            && Good(r) && c in r.states
            && (r.states[c] == Connected ==>
                  c in s.idleTimers && c in r.idleTimers && r.idleTimers[c].idleTimer == s.idleTimers[c].idleTimer)
    decreases |moves|
  {
    if moves == [] {
      ConnectedFacts(s, c);
    } else {
      var init, a := moves[..|moves| - 1], moves[|moves| - 1];
      var p := Play(s, init);
      assert Quiet(init, c);
      QuietKeepsTimer(s, init, c);
      QuietMove(p, a, c);
      MoveKeepsGood(p, a);
    }
    hide Good, After;
  }

  lemma QuietMove(s: Server, a: Move, c: ConnId)
    requires Good(s) && c in s.states && !(a.Message? && a.conn == c)
    ensures var r := After(s, a);
            && c in r.states
            && (r.states[c] == Connected ==>
                  && s.states[c] == Connected && c in s.idleTimers && c in r.idleTimers
                  && r.idleTimers[c] == s.idleTimers[c])
  {
    StatesExactly(s, a, c);
    ConnectedFacts(s, c);
    if Possible(s, a) {
      match a
      case Up(d, t) => UpExactly(s, d, t);
      case Message(d, t) => MessageExactly(s, d, t);
      case Shutdown(d) =>
      case Down(d) => DownExactly(s, d);
      case Loop(act) =>
      case Fire(t) => CallExactly(s, t);
    }
    hide Good, Next, ConnectionUp, ConnectionDown, OnMessage, Call, Enabled, Noted, Waits;
  }

  /**
   * The policy is carried out: a connection of which nothing is heard for 15 seconds is no longer connected after a
   * read of the timers at that time, or later. If nobody else shut it down and it did not go down, the idle timer did.
   */
  lemma {:induction false} SilentConnectionsAreShut(s: Server, pre: seq<Move>, post: seq<Move>, w: World,
                                                    timers: nat -> NewTimer, c: ConnId)
    requires Fresh(s) && c in Play(s, pre).states && Play(s, pre).states[c] == Connected && Quiet(post, c)
    requires var r := Play(s, pre + post);
             && r.loop.phase.Idle? && r.loop.clock <= w.now <= INT64_MAX
             && Deadline(Play(s, pre).loop.clock, IDLE_DELAY) <= w.now
    ensures var moves := pre + post;
            var n := |Batch(Play(s, moves).loop, w)|;
            var r := Play(s, moves + ReadMoves(w, timers, n));
            && c in r.states && r.states[c] != Connected
            && (WasIdle(r.events, c) || Happened(s, moves, c, WasShut) || Happened(s, moves, c, WentDown))
  {
    hide Good, Play, After, Next, FireMoves, LoopMoves, Waits, RearmTurns, Batch, ReadMoves, Happened;
    var p, moves := Play(s, pre), pre + post;
    var q := Play(s, moves);
    var due := ReadMoves(w, timers, |Batch(q.loop, w)|);
    PlayKeepsGood(s, pre);
    PlayAppend(s, pre, post);
    PlayAppend(s, moves, due);
    PlayAppend(p, post, due);
    ReadsAreOfTheLoop(w, timers, |Batch(q.loop, w)|);
    QuietKeepsTimer(p, post + due, c);
    ConnectedFacts(p, c);
    var id := p.idleTimers[c].idleTimer;
    PolicyTimerDue(p, id);
    KeptOverRun(p, post, id);
    ReadCallsTheDue(q, w, timers, id);
    var r := Play(s, moves + due);
    if r.states[c] == Connected {
      ConnectedFacts(r, c);
    }
    StatesAreWhatHappened(s, moves + due, c);
    QuietHappened(s, moves, due, c, WasShut);
    QuietHappened(s, moves, due, c, WentDown);
  }

  /** The moves a read is made of: none is that of a connection. */
  predicate OfTheLoop(moves: seq<Move>) {
    forall k :: 0 <= k < |moves| ==> moves[k].Loop? || moves[k].Fire?
  }

  lemma ReadsAreOfTheLoop(w: World, timers: nat -> NewTimer, n: nat)
    ensures OfTheLoop(ReadMoves(w, timers, n))
  {
    FireMovesAreOfTheLoop(w.starts, timers, n);
    hide FireMoves, RearmTurns;
  }

  lemma {:induction false} FireMovesAreOfTheLoop(starts: nat -> int, timers: nat -> NewTimer, n: nat)
    ensures OfTheLoop(FireMoves(starts, timers, n))
  {
    if n > 0 {
      FireMovesAreOfTheLoop(starts, timers, n - 1);
      var init := FireMoves(starts, timers, n - 1);
      assert FireMoves(starts, timers, n) == init + [Loop(Advance(starts(n - 1))), Fire(timers(n - 1))];
    }
  }

  lemma {:induction false} QuietHappened(s: Server, moves: seq<Move>, due: seq<Move>, c: ConnId, what: Happening)
    requires OfTheLoop(due)
    ensures Happened(s, moves + due, c, what) <==> Happened(s, moves, c, what)
    decreases |due|
  {
    hide Play, Possible;
    if due == [] {
      assert moves + due == moves;
    } else {
      assert (moves + due)[..|moves + due| - 1] == moves + due[..|due| - 1];
      QuietHappened(s, moves, due[..|due| - 1], c, what);
    }
  }

  /**
   * The policy is carried out to the end: a connection shut down for idleness that is not down after 15 seconds has
   * been forced closed after a read of the timers at that time, or later.
   */
  lemma {:induction false} ShutConnectionsAreForced(s: Server, pre: seq<Move>, post: seq<Move>, w: World,
                                                    timers: nat -> NewTimer, c: ConnId)
    requires Fresh(s) && WasIdle(Play(s, pre).events, c)
    requires var r := Play(s, pre + post);
             && r.loop.phase.Idle? && r.loop.clock <= w.now <= INT64_MAX
             && Deadline(Play(s, pre).loop.clock, IDLE_DELAY) <= w.now
    ensures var r := Play(s, pre + post + ReadMoves(w, timers, |Batch(Play(s, pre + post).loop, w)|));
            c in r.states && (r.states[c] == Disconnected || WasForced(r.events, c))
  {
    hide Good, Play, After, Next, FireMoves, LoopMoves, Waits, RearmTurns, Batch, ReadMoves;
    var p, q := Play(s, pre), Play(s, pre + post);
    var due := ReadMoves(w, timers, |Batch(q.loop, w)|);
    PlayKeepsGood(s, pre);
    IdleMeansShut(p, c);
    PlayAppend(s, pre, post);
    PlayAppend(s, pre + post, due);
    PlayAppend(p, post, due);
    NoNewTimers(p, post + due, c);
    var r := Play(s, pre + post + due);
    IdleConnectionsAreClosing(s, pre, c);
    ClosingOverRun(p, post + due, c);
    if r.states[c] != Disconnected && !WasForced(r.events, c) {
      var id :| id in r.callbacks && r.callbacks[id] == Callback(c, ForceCloseTimeout) && Waits(r.loop, id);
      PolicyTimerDue(p, id);
      KeptOverRun(p, post, id);
      ReadCallsTheDue(q, w, timers, id);
    }
  }

  lemma {:induction false} ClosingOverRun(s: Server, moves: seq<Move>, c: ConnId)
    requires Good(s) && c in s.states && Closing(s, c)
    ensures var r := Play(s, moves); Good(r) && c in r.states && Closing(r, c)
    decreases |moves|
  {
    hide Good, After, Closing;
    if moves != [] {
      var init, a := moves[..|moves| - 1], moves[|moves| - 1];
      ClosingOverRun(s, init, c);
      MoveKeepsClosing(Play(s, init), a, c);
      MoveKeepsGood(Play(s, init), a);
    }
  }
}
