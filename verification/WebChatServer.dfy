/** The timer part of the chat server as an object, over a real timer queue; its methods compute `IdlePolicy`. */
module WebChatServers {
  import opened TimerModel
  import opened TimerProofs
  import opened TimerRead
  import opened TimerQueues
  import HttpSyntax
  import P = IdlePolicy

  class WebChatServer {
    const queue: TimerQueue // of the connections' loop
    var states: map<P.ConnId, P.State> // what each connection's `connected()` and `disconnected()` say
    var connections: set<P.ConnId>
    var idleTimers: map<P.ConnId, P.ConnectionTimers>
    var parsers: map<P.ConnId, HttpSyntax.Parser>
    var callbacks: map<TimerId, P.Callback> // what each timer's function object is bound to
    ghost var events: seq<P.Event>

    ghost predicate Valid()
      reads this, queue, queue.repr
    {
      queue.Valid() && Inv(queue.model)
    }

    /** The three tables of the server list the same connections. */
    ghost predicate Registered()
      reads this
    {
      connections == idleTimers.Keys && connections == parsers.Keys
    }

    ghost function Value(): P.Server
      reads this, queue
    {
      P.Server(queue.model, states, idleTimers, callbacks, events)
    }

    constructor (queue: TimerQueue)
      requires queue.Valid() && Start(queue.model)
      ensures Valid() && Registered() && this.queue == queue && P.Fresh(Value())
    {
      StartInv(queue.model);
      this.queue := queue;
      states, connections, idleTimers, parsers, callbacks, events := map[], {}, map[], map[], map[], [];
    }

    method CancelTimer(id: TimerId)
      requires Valid() && !queue.model.phase.Rearming?
      modifies queue, queue.repr
      ensures Valid() && queue.repr == old(queue.repr) && queue.pool == old(queue.pool)
      ensures queue.model == P.Cancelled(old(queue.model), id)
      ensures queue.model.phase == old(queue.model.phase) && queue.model.clock == old(queue.model.clock)
    {
      hide Inv, Next, TimerQueue.Valid;
      NextKeepsInv(queue.model, Cancel(id));
      CancelPhase(queue.model, id);
      if id != 0 {
        queue.CancelInLoop(id);
      }
    }

    /** `runAfter(15.0, …)`. */
    method RunAfter15(c: P.ConnId, role: P.Role, t: P.NewTimer) returns (id: TimerId)
      requires Valid() && !queue.model.phase.Rearming?
      modifies queue, this`callbacks
      ensures Valid() && fresh(queue.repr - old(queue.repr)) && queue.Grown(old(queue.pool))
      ensures queue.model.phase == old(queue.model.phase)
      ensures id == old(queue.model.q.nextId) && queue.model == P.Added(old(queue.model), t)
      ensures callbacks == old(callbacks)[id := P.Callback(c, role)]
    {
      hide Inv, Next, TimerQueue.Valid;
      var a := Add(t.rank, 0, false, P.IDLE_DELAY);
      NextKeepsInv(queue.model, Advance(t.time));
      AdvancePhase(queue.model, t.time);
      AddPhase(Next(queue.model, Advance(t.time)), a);
      queue.AdvanceClock(t.time);
      FifteenSeconds();
      ghost var m := queue.model;
      id := NextId();
      var made := queue.AddTimer(true, 15.0, 0.0, t.rank);
      callbacks := callbacks[id := P.Callback(c, role)];
    }

    /** The id the next timer will get. */
    method NextId() returns (id: TimerId)
      requires Valid()
      ensures id == queue.model.q.nextId
    {
      id := queue.nextTimerId;
    }

    method RefreshIdleTimer(c: P.ConnId, t: P.NewTimer)
      requires Valid() && !queue.model.phase.Rearming? && c in states
      modifies this`idleTimers, this`callbacks, queue, queue.repr
      ensures Valid() && fresh(queue.repr - old(queue.repr))
      ensures Value() == P.RefreshIdleTimer(old(Value()), c, t)
    {
      hide Inv, P.Cancelled, P.Added, TimerQueue.Valid;
      if states[c] != P.Connected || c !in idleTimers {
        return;
      }
      CancelTimer(idleTimers[c].idleTimer);
      var id := RunAfter15(c, P.IdleTimeout, t);
      idleTimers := idleTimers[c := idleTimers[c].(idleTimer := id)];
    }

    /** `onConnection`, for a connection that is up. */
    method ConnectionUp(c: P.ConnId, t: P.NewTimer)
      requires Valid() && !queue.model.phase.Rearming?
      modifies this, queue, queue.repr
      ensures Valid() && fresh(queue.repr - old(queue.repr))
      ensures Value() == P.ConnectionUp(old(Value()), c, t)
      ensures connections == old(connections) + {c}
      ensures parsers == if c in old(parsers) then old(parsers) else old(parsers)[c := HttpSyntax.FRESH]
      ensures old(Registered()) ==> Registered()
    {
      hide Inv, P.RefreshIdleTimer, TimerQueue.Valid;
      RefreshKeepsKeys(P.ConnectionUpNoted(Value(), c), c, t);
      states := states[c := P.Connected];
      connections := connections + {c};
      idleTimers := idleTimers[c := P.ConnectionTimers(0, 0)];
      events := events + [P.Heard(c, queue.model.clock)];
      RefreshIdleTimer(c, t);
      if c !in parsers {
        parsers := parsers[c := HttpSyntax.FRESH];
      }
    }

    /** `onConnection`, for a connection that is down. */
    method ConnectionDown(c: P.ConnId)
      requires Valid() && !queue.model.phase.Rearming?
      modifies this, queue, queue.repr
      ensures Valid() && queue.repr == old(queue.repr)
      ensures Value() == P.ConnectionDown(old(Value()), c)
      ensures connections == old(connections) - {c} && parsers == old(parsers) - {c}
      ensures old(Registered()) ==> Registered()
    {
      hide Inv, P.Cancelled, TimerQueue.Valid;
      states := states[c := P.Disconnected];
      connections := connections - {c};
      if c in idleTimers {
        var timers := idleTimers[c];
        idleTimers := idleTimers - {c};
        CancelTimer(timers.idleTimer);
        CancelTimer(timers.forceCloseTimer);
      }
      parsers := parsers - {c};
    }

    /** A connection stops being connected for a reason that is not the idle timer. */
    method Shutdown(c: P.ConnId)
      requires Valid()
      modifies this`states
      ensures Valid() && Value() == P.After(old(Value()), P.Shutdown(c))
    {
      if c in states && states[c] == P.Connected {
        states := states[c := P.Disconnecting];
      }
    }

    /** The part of `onMessage` that concerns timers. */
    method OnMessage(c: P.ConnId, t: P.NewTimer)
      requires Valid() && !queue.model.phase.Rearming? && c in states
      modifies this`states, this`idleTimers, this`callbacks, this`events, queue, queue.repr
      ensures Valid() && fresh(queue.repr - old(queue.repr))
      ensures Value() == P.OnMessage(old(Value()), c, t)
    {
      hide Inv, P.RefreshIdleTimer, TimerQueue.Valid;
      events := events + [P.Heard(c, queue.model.clock)];
      RefreshIdleTimer(c, t);
    }

    method HandleIdleTimeout(c: P.ConnId, t: P.NewTimer)
      requires Valid() && !queue.model.phase.Rearming? && c in states
      modifies this`states, this`idleTimers, this`callbacks, this`events, queue, queue.repr
      ensures Valid() && fresh(queue.repr - old(queue.repr)) && queue.Grown(old(queue.pool))
      ensures queue.model.phase == old(queue.model.phase)
      ensures Value() == P.HandleIdleTimeout(old(Value()), c, t)
    {
      hide Inv, P.Added, TimerQueue.Valid;
      if states[c] != P.Connected {
        return;
      }
      states := states[c := P.Disconnecting];
      events := events + [P.IdleShutdown(c, queue.model.clock)];
      if c in idleTimers {
        var id := RunAfter15(c, P.ForceCloseTimeout, t);
        idleTimers := idleTimers[c := P.ConnectionTimers(0, id)];
      }
    }

    method HandleForceCloseTimeout(c: P.ConnId)
      requires Valid() && c in states
      modifies this`states, this`idleTimers, this`events
      ensures Valid() && Value() == P.HandleForceCloseTimeout(old(Value()), c)
    {
      hide Inv, TimerQueue.Valid;
      if c !in idleTimers {
        return;
      }
      idleTimers := idleTimers[c := idleTimers[c].(forceCloseTimer := 0)];
      if states[c] != P.Disconnected {
        states := states[c := P.Disconnecting];
        events := events + [P.ForcedClose(c, queue.model.clock)];
      }
    }

    // ---- the timers of the batch call back here ----

    /** The callback of a timer: what its function object is bound to. */
    method RunCallback(id: TimerId, t: P.NewTimer)
      requires Valid() && queue.model.phase.Calling?
      modifies this`states, this`idleTimers, this`callbacks, this`events, queue, queue.repr
      ensures Valid() && fresh(queue.repr - old(queue.repr)) && queue.Grown(old(queue.pool))
      ensures queue.model.phase == old(queue.model.phase)
      ensures Value() == P.RunCallback(old(Value()), id, t)
    {
      hide Inv, Next, Enabled, TimerQueue.Valid, P.HandleIdleTimeout, P.HandleForceCloseTimeout;
      if id !in callbacks || callbacks[id].conn !in states {
        return;
      }
      if callbacks[id].role == P.IdleTimeout {
        HandleIdleTimeout(callbacks[id].conn, t);
      } else {
        HandleForceCloseTimeout(callbacks[id].conn);
      }
    }

    /** `handleRead` moves on to the next timer of its batch; the result says whether it is to be called. */
    method TakeNext(timer: Timer) returns (called: bool)
      requires Valid() && queue.model.phase.Calling? && queue.model.phase.next < |queue.model.phase.batch|
      requires var id := queue.model.phase.batch[queue.model.phase.next]; id in queue.pool && timer == queue.pool[id]
      modifies queue, queue.repr
      ensures Valid() && fresh(queue.repr - old(queue.repr)) && queue.Grown(old(queue.pool))
      ensures queue.model.phase == Calling(old(queue.model.phase.batch), old(queue.model.phase.next) + 1)
      ensures Enabled(old(queue.model), FireNext) && timer.id == P.Caller(old(Value()))
      ensures called == !old(queue.model).q.pool[timer.id].canceled
      ensures queue.model == Next(old(queue.model), FireNext)
    {
      called := !timer.canceled;
      queue.ObjectData(queue.model.phase.batch[queue.model.phase.next]);
      hide Inv, Next;
      CallSkips(queue.model);
      queue.CallOne(timer, []);
    }

    /** `handleRead` calls, or skips, the next timer of its batch. */
    method Fire(timer: Timer, t: P.NewTimer)
      requires Valid() && queue.model.phase.Calling? && queue.model.phase.next < |queue.model.phase.batch|
      requires var id := queue.model.phase.batch[queue.model.phase.next]; id in queue.pool && timer == queue.pool[id]
      modifies this`states, this`idleTimers, this`callbacks, this`events, queue, queue.repr
      ensures Valid() && fresh(queue.repr - old(queue.repr)) && queue.Grown(old(queue.pool))
      ensures queue.model.phase == Calling(old(queue.model.phase.batch), old(queue.model.phase.next) + 1)
      ensures Value() == P.After(old(Value()), P.Fire(t))
    {
      hide Inv, Next, Enabled, Valid, P.RunCallback;
      var called := TakeNext(timer);
      if called {
        RunCallback(timer.id, t);
      }
    }

    /** A turn of the first loop of `handleRead`, when the clock has come to `start`. */
    method FireAt(timer: Timer, start: int, t: P.NewTimer)
      requires Valid() && queue.model.phase.Calling? && queue.model.phase.next < |queue.model.phase.batch|
      requires var id := queue.model.phase.batch[queue.model.phase.next]; id in queue.pool && timer == queue.pool[id]
      modifies this`states, this`idleTimers, this`callbacks, this`events, queue, queue.repr
      ensures Valid() && fresh(queue.repr - old(queue.repr)) && queue.Grown(old(queue.pool))
      ensures queue.model.phase == Calling(old(queue.model.phase.batch), old(queue.model.phase.next) + 1)
      ensures Value() == P.Play(old(Value()), [P.Loop(Advance(start)), P.Fire(t)])
    {
      hide Inv, Next, Execute, TimerQueue.Valid, P.After, P.Play;
      ghost var s := Value();
      NextKeepsInv(queue.model, Advance(start));
      AdvancePhase(queue.model, start);
      queue.AdvanceClock(start);
      TurnPlays(s, start, t);
      Fire(timer, t);
    }

    method FireBatch(expired: seq<Timer>, starts: nat -> int, timers: nat -> P.NewTimer)
      requires Valid() && queue.model.phase.Calling? && queue.model.phase.next == 0
      requires queue.Holds(expired, queue.model.phase.batch)
      modifies this`states, this`idleTimers, this`callbacks, this`events, queue, queue.repr
      ensures Valid() && fresh(queue.repr - old(queue.repr)) && queue.Grown(old(queue.pool))
      ensures queue.model.phase == Calling(old(queue.model.phase.batch), |expired|)
      ensures Value() == P.Play(old(Value()), P.FireMoves(starts, timers, |expired|))
    {
      hide Inv, Valid, P.Play;
      ghost var s, batch := Value(), queue.model.phase.batch;
      NothingPlayed(s);
      for i := 0 to |expired|
        invariant Valid() && fresh(queue.repr - old(queue.repr)) && queue.Grown(old(queue.pool))
        invariant queue.model.phase == Calling(batch, i)
        invariant Value() == P.Play(s, P.FireMoves(starts, timers, i))
      {
        P.PlayAppend(s, P.FireMoves(starts, timers, i), [P.Loop(Advance(starts(i))), P.Fire(timers(i))]);
        FireAt(expired[i], starts(i), timers(i));
      }
    }

    /** `handleRead` of the loop's timer queue: the callbacks of all due timers run, each on this server. */
    method HandleRead(w: World, timers: nat -> P.NewTimer)
      requires Valid() && queue.model.phase.Idle?
      modifies this`states, this`idleTimers, this`callbacks, this`events, queue, queue.repr
      ensures Valid() && queue.model.phase.Idle? && fresh(queue.repr - old(queue.repr))
      ensures Value() == P.Play(old(Value()), P.ReadMoves(w, timers, |Batch(old(queue.model), w)|))
    {
      hide Inv, Next, Execute, TimerQueue.Valid, P.Play, RearmTurns;
      ghost var s := Value();
      var expired := queue.BeginReadAt(w.now);
      ghost var s1 := Value();
      FireBatch(expired, w.starts, timers);
      ghost var s2 := Value();
      NextKeepsInv(queue.model, EndCalling);
      queue.StartRearming();
      queue.RearmBatch(expired, w);
      NextKeepsInv(queue.model, EndRead);
      NextEndRead(queue.model);
      queue.FinishRead();
      ReadPlays(s, w, timers, |expired|, s1, s2);
    }
  }

  lemma NothingPlayed(s: P.Server)
    ensures P.Play(s, []) == s
  {
  }

  lemma TurnPlays(s: P.Server, start: int, t: P.NewTimer)
    ensures P.Play(s, [P.Loop(Advance(start)), P.Fire(t)]) ==
            P.After(s.(loop := Next(s.loop, Advance(start))), P.Fire(t))
  {
    hide Next;
    assert [P.Loop(Advance(start)), P.Fire(t)][..1] == P.LoopMoves([Advance(start)]);
    P.LoopMovesExecute(s, [Advance(start)]);
    ExecuteOne(s.loop, Advance(start));
  }

  lemma RearmTurnsAreQuiet(w: World, n: nat)
    ensures forall k :: 0 <= k < |RearmTurns(w, n)| ==> !RearmTurns(w, n)[k].FireNext? && !RearmTurns(w, n)[k].Cancel?
  {
  }

  lemma ReadPlays(s: P.Server, w: World, timers: nat -> P.NewTimer, n: nat, s1: P.Server, s2: P.Server)
    requires s1 == s.(loop := Next(Next(s.loop, Advance(w.now)), BeginRead))
    requires s2 == P.Play(s1, P.FireMoves(w.starts, timers, n))
    ensures P.Play(s, P.ReadMoves(w, timers, n)) ==
            s2.(loop := Next(Execute(Next(s2.loop, EndCalling), RearmTurns(w, n)), EndRead))
  {
    hide Next, Execute, P.Play, P.FireMoves, P.LoopMoves, RearmTurns;
    var begin, last := [Advance(w.now), BeginRead], [EndCalling] + RearmTurns(w, n) + [EndRead];
    P.LoopMovesExecute(s, begin);
    ExecuteTwo(s.loop, Advance(w.now), BeginRead);
    P.PlayAppend(s, P.LoopMoves(begin), P.FireMoves(w.starts, timers, n));
    P.PlayAppend(s, P.LoopMoves(begin) + P.FireMoves(w.starts, timers, n), P.LoopMoves(last));
    RearmTurnsAreQuiet(w, n);
    P.LoopMovesExecute(s2, last);
    ExecuteAppend(s2.loop, [EndCalling], RearmTurns(w, n));
    ExecuteAppend(s2.loop, [EndCalling] + RearmTurns(w, n), [EndRead]);
    ExecuteOne(s2.loop, EndCalling);
    ExecuteOne(Execute(Next(s2.loop, EndCalling), RearmTurns(w, n)), EndRead);
  }

  lemma CallSkips(m: Machine)
    ensures Execute(Next(m, FireNext), []) == Next(m, FireNext)
  {
  }

  lemma RefreshKeepsKeys(s: P.Server, c: P.ConnId, t: P.NewTimer)
    requires c in s.states
    ensures P.RefreshIdleTimer(s, c, t).idleTimers.Keys == s.idleTimers.Keys
  {
  }

  lemma FifteenSeconds()
    ensures SecondsToMicroseconds(15.0) == P.IDLE_DELAY && SecondsToMicroseconds(0.0) == 0
  {
  }

  lemma CancelPhase(m: Machine, id: TimerId)
    requires Inv(m) && !m.phase.Rearming?
    ensures var r := Next(m, Cancel(id)); r.phase == m.phase && r.clock == m.clock && r.q.nextId == m.q.nextId
  {
  }

  lemma AddPhase(m: Machine, a: Action)
    requires a.Add?
    ensures Next(m, a).phase == m.phase
  {
  }

  lemma AdvancePhase(m: Machine, time: int)
    ensures var r := Next(m, Advance(time)); r.phase == m.phase && r.q == m.q
  {
  }
}
