/** What the idle policy keeps over every run: one idle timer a connection, and never a hurried shutdown. */
module IdleProofs {
  import opened TimerModel
  import opened TimerProofs
  import opened TimerRefinement
  import opened IdlePolicy

  // ---- timers that will still be called ----

  /** `id` is scheduled, or waits its turn in the batch. */
  predicate Waits(m: Machine, id: TimerId) {
    id in m.q.active && !Called(m.phase, id)
  }

  /** A one-shot timer added no earlier than `time`, that goes off with the delay of the policy. */
  predicate AddedSince(m: Machine, id: TimerId, time: int) {
    && id in m.q.pool && !m.q.pool[id].repeating && m.q.pool[id].delay == IDLE_DELAY
    && time <= m.q.pool[id].addedAt <= m.clock
    && m.q.pool[id].expiration == Deadline(m.q.pool[id].addedAt, IDLE_DELAY)
  }

  /** From `m` to `r` the timer `id` is still what it was, and has not been scheduled anew. */
  predicate Kept(m: Machine, r: Machine, id: TimerId) {
    && id in m.q.pool && id in r.q.pool && m.clock <= r.clock
    && (Waits(r, id) ==> Waits(m, id))
    && r.q.pool[id].expiration == m.q.pool[id].expiration
    && r.q.pool[id].repeating == m.q.pool[id].repeating
    && r.q.pool[id].delay == m.q.pool[id].delay && r.q.pool[id].addedAt == m.q.pool[id].addedAt
  }

  /** From `m` to `r` nothing has happened to the timer `id`. */
  predicate Spared(m: Machine, r: Machine, id: TimerId) {
    Kept(m, r, id) && (Waits(m, id) ==> Waits(r, id))
  }

  ghost predicate Healthy(m: Machine) {
    Inv(m) && Timely(m)
  }

  lemma StaysHealthy(m: Machine, a: Action)
    requires Healthy(m)
    ensures Healthy(Next(m, a)) && m.clock <= Next(m, a).clock
  {
    NextKeepsInv(m, a);
    NextStaysTimely(m, a);
    hide Inv, Timely;
  }

  lemma StepSpares(m: Machine, a: Action, id: TimerId)
    requires Healthy(m) && id in m.q.pool && !m.q.pool[id].repeating
    requires !a.FireNext? && a != Cancel(id)
    ensures Spared(m, Next(m, a), id)
  {
    if Enabled(m, a) {
      match a
      case BeginRead =>
      case RearmNext => RearmSpares(m, id);
      case EndCalling => assert m.phase.batch[..|m.phase.batch|] == m.phase.batch == m.phase.batch[0..];
      case _ =>
    }
  }

  lemma RearmSpares(m: Machine, id: TimerId)
    requires Healthy(m) && Enabled(m, RearmNext) && id in m.q.pool && !m.q.pool[id].repeating
    ensures Spared(m, Next(m, RearmNext), id)
  {
    var batch, n := m.phase.batch, m.phase.next;
    NextRearm(m);
    hide Next, Inv, Timely, Insert, Deadline;
    assert batch[n..] == [batch[n]] + batch[n + 1..];
  }

  lemma CallSpares(m: Machine, id: TimerId)
    requires Healthy(m) && Enabled(m, FireNext) && id in m.q.pool && id != m.phase.batch[m.phase.next]
    ensures Spared(m, Next(m, FireNext), id)
  {
    var batch, n := m.phase.batch, m.phase.next;
    assert batch[..n + 1] == batch[..n] + [batch[n]];
  }

  /** The timer that is called was waiting, is due, and waits no longer. */
  lemma CallIsDue(m: Machine)
    requires Healthy(m) && Enabled(m, FireNext)
    ensures var id := m.phase.batch[m.phase.next];
            var d := m.q.pool[id];
            && !Waits(Next(m, FireNext), id) && Next(m, FireNext).q == m.q
            && (Waits(m, id) <==> !d.canceled)
            && (!d.canceled ==> Deadline(d.addedAt, d.delay) <= m.clock)
  {
    var batch, n := m.phase.batch, m.phase.next;
    assert batch[..n + 1] == batch[..n] + [batch[n]];
    assert batch[n] in Pending(m.phase);
    assert forall i :: 0 <= i < n ==> batch[i] != batch[n];
  }

  lemma CancelStops(m: Machine, id: TimerId)
    requires Healthy(m) && !m.phase.Rearming?
    ensures var r := Cancelled(m, id);
            Healthy(r) && r.phase == m.phase && r.clock == m.clock && r.q.nextId == m.q.nextId && !Waits(r, id)
            && r.q.pool.Keys == m.q.pool.Keys
  {
    if id != 0 {
      StaysHealthy(m, Cancel(id));
      NextCancel(m, id);
    }
  }

  lemma CancelKeeps(m: Machine, id: TimerId)
    requires Healthy(m) && !m.phase.Rearming? && id in m.q.pool
    ensures Kept(m, Cancelled(m, id), id)
  {
    if id != 0 {
      NextCancel(m, id);
    }
  }

  lemma CancelSpares(m: Machine, gone: TimerId, id: TimerId)
    requires Healthy(m) && id in m.q.pool && !m.q.pool[id].repeating && id != gone
    ensures Spared(m, Cancelled(m, gone), id)
  {
    if gone != 0 {
      StepSpares(m, Cancel(gone), id);
    }
  }

  lemma AddStarts(m: Machine, t: NewTimer)
    requires Healthy(m) && !m.phase.Rearming?
    ensures var r := Added(m, t);
            && Healthy(r) && m.clock <= r.clock && r.phase == m.phase
            && m.q.nextId !in m.q.pool && m.q.nextId != 0
            && Waits(r, m.q.nextId) && AddedSince(r, m.q.nextId, m.clock)
            && r.q.pool[m.q.nextId].addedAt == r.clock
  {
    var m1 := Next(m, Advance(t.time));
    var a := Add(t.rank, 0, false, IDLE_DELAY);
    StaysHealthy(m, Advance(t.time));
    StaysHealthy(m1, a);
    NextAdvance(m, t.time);
    NextAdd(m1, t.rank, 0, false, IDLE_DELAY);
    NotCalledYet(m, m.q.nextId);
  }

  lemma NotCalledYet(m: Machine, id: TimerId)
    requires Healthy(m) && id !in m.q.pool && !m.phase.Rearming?
    ensures !Called(m.phase, id)
  {
    assert Called(m.phase, id) ==> id in Pending(m.phase);
  }

  lemma AddSpares(m: Machine, t: NewTimer, id: TimerId)
    requires Healthy(m) && id in m.q.pool && !m.q.pool[id].repeating
    ensures Spared(m, Added(m, t), id)
  {
    var m1 := Next(m, Advance(t.time));
    StaysHealthy(m, Advance(t.time));
    StepSpares(m, Advance(t.time), id);
    StepSpares(m1, Add(t.rank, 0, false, IDLE_DELAY), id);
  }

  // ---- the invariant ----

  /** `id` is the timer that the record of its connection names, or it will never be called again. */
  ghost predicate Tracked(s: Server, id: TimerId)
    requires id in s.callbacks
  {
    var cb := s.callbacks[id];
    && cb.conn in s.states && id != 0
    && AddedSince(s.loop, id, 0)
    && (Waits(s.loop, id) ==>
          && cb.conn in s.idleTimers
          && match cb.role
             case IdleTimeout => s.idleTimers[cb.conn].idleTimer == id
             case ForceCloseTimeout =>
               s.idleTimers[cb.conn].forceCloseTimer == id && ShutSince(s, cb.conn, s.loop.q.pool[id].addedAt))
  }

  /** The record of `c` names timers of `c`. */
  ghost predicate Named(s: Server, c: ConnId)
    requires c in s.idleTimers
  {
    var timers := s.idleTimers[c];
    && (timers.idleTimer != 0 ==>
          timers.idleTimer in s.callbacks && s.callbacks[timers.idleTimer] == Callback(c, IdleTimeout))
    && (timers.forceCloseTimer != 0 ==>
          && timers.forceCloseTimer in s.callbacks
          && s.callbacks[timers.forceCloseTimer] == Callback(c, ForceCloseTimeout))
  }

  /** `c` was shut down for idleness, no later than `time`. */
  ghost predicate ShutSince(s: Server, c: ConnId, time: int) {
    exists i :: 0 <= i < |s.events| && s.events[i].IdleShutdown? && s.events[i].conn == c && s.events[i].time <= time
  }

  /** A connected connection has its idle timer waiting, added after all that was heard of it. */
  ghost predicate Covered(s: Server, c: ConnId)
    requires c in s.states
  {
    && (c in s.idleTimers <==> s.states[c] != Disconnected)
    && (s.states[c] == Connected ==>
          var id := s.idleTimers[c].idleTimer;
          && id in s.callbacks && s.callbacks[id] == Callback(c, IdleTimeout) && Waits(s.loop, id)
          && forall i :: 0 <= i < |s.events| && s.events[i].conn == c ==>
               s.events[i].Heard? && AddedSince(s.loop, id, s.events[i].time))
  }

  /** Shutdowns and forced closes come late enough after what they follow. */
  ghost predicate Patient(events: seq<Event>) {
    && (forall i, j :: 0 <= i < j < |events| && events[j].IdleShutdown? && events[i].conn == events[j].conn ==>
          events[i].Heard? && Deadline(events[i].time, IDLE_DELAY) <= events[j].time)
    && (forall j :: 0 <= j < |events| && events[j].ForcedClose? ==>
          exists i :: 0 <= i < j && events[i].IdleShutdown? && events[i].conn == events[j].conn &&
            Deadline(events[i].time, IDLE_DELAY) <= events[j].time)
  }

  ghost predicate Good(s: Server) {
    && Healthy(s.loop)
    && s.idleTimers.Keys <= s.states.Keys
    && (forall id :: id in s.callbacks ==> Tracked(s, id))
    && (forall c :: c in s.idleTimers ==> Named(s, c))
    && (forall c :: c in s.states ==> Covered(s, c))
    && (forall i :: 0 <= i < |s.events| ==> s.events[i].conn in s.states && s.events[i].time <= s.loop.clock)
    && Patient(s.events)
  }

  // ---- what a step leaves alone ----

  lemma TrackedStays(s: Server, r: Server, id: TimerId)
    requires id in s.callbacks && Tracked(s, id) && Kept(s.loop, r.loop, id)
    requires id in r.callbacks && r.callbacks[id] == s.callbacks[id]
    requires s.states.Keys <= r.states.Keys && s.events <= r.events
    requires var c := s.callbacks[id].conn;
             Waits(r.loop, id) && c in s.idleTimers ==>
               c in r.idleTimers &&
               if s.callbacks[id].role == IdleTimeout then r.idleTimers[c].idleTimer == s.idleTimers[c].idleTimer
               else r.idleTimers[c].forceCloseTimer == s.idleTimers[c].forceCloseTimer
    ensures Tracked(r, id)
  {
    hide Waits;
    var c := s.callbacks[id].conn;
    if Waits(r.loop, id) && s.callbacks[id].role == ForceCloseTimeout {
      ShutSinceStays(s, r, c, s.loop.q.pool[id].addedAt);
    }
  }

  lemma ShutSinceStays(s: Server, r: Server, c: ConnId, time: int)
    requires ShutSince(s, c, time) && s.events <= r.events
    ensures ShutSince(r, c, time)
  {
    var i :| 0 <= i < |s.events| && s.events[i].IdleShutdown? && s.events[i].conn == c && s.events[i].time <= time;
    assert r.events[i] == s.events[i];
  }

  /** Nothing new is known of `c`. */
  ghost predicate Silent(s: Server, r: Server, c: ConnId) {
    && s.events <= r.events
    && forall i :: |s.events| <= i < |r.events| ==> r.events[i].conn != c
  }

  lemma CoveredStays(s: Server, r: Server, c: ConnId)
    requires c in s.states && Covered(s, c) && Silent(s, r, c)
    requires c in r.states && r.states[c] == s.states[c]
    requires c in r.idleTimers <==> c in s.idleTimers
    requires c in s.idleTimers ==> r.idleTimers[c] == s.idleTimers[c]
    requires s.states[c] == Connected && c in s.idleTimers ==>
               var id := s.idleTimers[c].idleTimer;
               id in s.callbacks ==>
                 id in r.callbacks && r.callbacks[id] == s.callbacks[id] && Spared(s.loop, r.loop, id)
    ensures Covered(r, c)
  {
    hide Waits;
  }

  /** Steps of the loop that spare the timers of the policy. */
  lemma LoopGood(s: Server, m: Machine)
    requires Good(s) && Healthy(m) && s.loop.clock <= m.clock
    requires forall id :: id in s.callbacks ==> Spared(s.loop, m, id)
    ensures Good(s.(loop := m))
  {
    hide Healthy, Spared, Kept, Tracked, Covered, Patient;
    var r := s.(loop := m);
    forall id | id in r.callbacks
      ensures Tracked(r, id)
    {
      assert Kept(s.loop, m, id) by { SparedMeansKept(s.loop, m, id); }
      TrackedStays(s, r, id);
    }
    forall c | c in r.states
      ensures Covered(r, c)
    {
      CoveredStays(s, r, c);
    }
  }

  lemma SparedMeansKept(m: Machine, r: Machine, id: TimerId)
    requires Spared(m, r, id)
    ensures Kept(m, r, id)
  {
  }

  // ---- hearing of a connection ----

  /** Good, but for the idle timer of `c`, which is about to be replaced. */
  ghost predicate Stale(s: Server, c: ConnId) {
    && Healthy(s.loop)
    && s.idleTimers.Keys <= s.states.Keys
    && (forall id :: id in s.callbacks ==> Tracked(s, id))
    && (forall d :: d in s.idleTimers ==> Named(s, d))
    && (forall d :: d in s.states && d != c ==> Covered(s, d))
    && (forall i :: 0 <= i < |s.events| ==> s.events[i].conn in s.states && s.events[i].time <= s.loop.clock)
    && Patient(s.events)
    && c in s.states && s.states[c] == Connected && c in s.idleTimers
    && (forall i :: 0 <= i < |s.events| && s.events[i].conn == c ==> s.events[i].Heard?)
  }

  lemma PatientAppend(events: seq<Event>, e: Event)
    requires Patient(events)
    requires e.IdleShutdown? ==>
               forall i :: 0 <= i < |events| && events[i].conn == e.conn ==>
                 events[i].Heard? && Deadline(events[i].time, IDLE_DELAY) <= e.time
    requires e.ForcedClose? ==>
               exists i :: 0 <= i < |events| && events[i].IdleShutdown? && events[i].conn == e.conn &&
                 Deadline(events[i].time, IDLE_DELAY) <= e.time
    ensures Patient(events + [e])
  {
    hide Deadline;
    var r := events + [e];
    assert forall i :: 0 <= i < |events| ==> r[i] == events[i];
    if e.ForcedClose? {
      var i :| 0 <= i < |events| && events[i].IdleShutdown? && events[i].conn == e.conn &&
        Deadline(events[i].time, IDLE_DELAY) <= e.time;
      assert r[i] == events[i];
    }
    forall j | 0 <= j < |events| && r[j].ForcedClose?
      ensures exists i :: 0 <= i < j && r[i].IdleShutdown? && r[i].conn == r[j].conn &&
                Deadline(r[i].time, IDLE_DELAY) <= r[j].time
    {
      var i :| 0 <= i < j && events[i].IdleShutdown? && events[i].conn == events[j].conn &&
        Deadline(events[i].time, IDLE_DELAY) <= events[j].time;
      assert r[i] == events[i];
    }
  }

  lemma HeardStale(s: Server, c: ConnId)
    requires Good(s) && c in s.states
    ensures var r := Note(s, Heard(c, s.loop.clock));
            if s.states[c] == Connected then Stale(r, c) else Good(r)
  {
    hide Healthy, Spared, Kept, Tracked, Covered, Patient, Waits;
    var e := Heard(c, s.loop.clock);
    var r := Note(s, e);
    PatientAppend(s.events, e);
    NoteKeepsOthers(s, e);
    ConnectedFacts(s, c);
    if s.states[c] != Connected {
      NotConnectedCovered(s, r, c);
    }
  }

  lemma SameLoopSpares(m: Machine, id: TimerId)
    requires id in m.q.pool
    ensures Kept(m, m, id) && Spared(m, m, id)
  {
  }

  lemma TrackedInPool(s: Server, id: TimerId)
    requires id in s.callbacks && Tracked(s, id)
    ensures id in s.loop.q.pool && !s.loop.q.pool[id].repeating && s.callbacks[id].conn in s.states && id != 0
  {
  }

  lemma NoteKeepsOthers(s: Server, e: Event)
    requires Good(s)
    ensures var r := Note(s, e);
            && (forall id :: id in r.callbacks ==> Tracked(r, id))
            && (forall d :: d in r.states && d != e.conn ==> Covered(r, d))
  {
    hide Healthy, Spared, Kept, Tracked, Covered, Patient, Waits;
    var r := Note(s, e);
    forall id | id in r.callbacks
      ensures Tracked(r, id)
    {
      TrackedInPool(s, id);
      SameLoopSpares(s.loop, id);
      TrackedStays(s, r, id);
    }
    forall d | d in r.states && d != e.conn
      ensures Covered(r, d)
    {
      if s.states[d] == Connected {
        ConnectedFacts(s, d);
        SameLoopSpares(s.loop, s.idleTimers[d].idleTimer);
      }
      CoveredStays(s, r, d);
    }
  }

  lemma ConnectedFacts(s: Server, c: ConnId)
    requires Good(s) && c in s.states
    ensures c in s.idleTimers <==> s.states[c] != Disconnected
    ensures s.states[c] == Connected ==>
              var id := s.idleTimers[c].idleTimer;
              && id in s.callbacks && s.callbacks[id] == Callback(c, IdleTimeout) && Waits(s.loop, id)
              && id in s.loop.q.pool
              && forall i :: 0 <= i < |s.events| && s.events[i].conn == c ==>
                   s.events[i].Heard? && s.events[i].time <= s.loop.q.pool[id].addedAt
  {
    hide Healthy, Patient, Waits;
    assert Covered(s, c);
    if s.states[c] == Connected {
      assert Tracked(s, s.idleTimers[c].idleTimer);
    }
  }

  lemma NotConnectedCovered(s: Server, r: Server, c: ConnId)
    requires Good(s) && c in s.states && c in r.states && r.states[c] != Connected
    requires c in r.idleTimers <==> r.states[c] != Disconnected
    ensures Covered(r, c)
  {
  }

  lemma UpStale(s: Server, c: ConnId)
    requires Good(s) && c !in s.states
    ensures var s1 := s.(states := s.states[c := Connected], idleTimers := s.idleTimers[c := ConnectionTimers(0, 0)]);
            Stale(Note(s1, Heard(c, s.loop.clock)), c)
  {
    hide Healthy, Spared, Kept, Tracked, Covered, Patient, Waits;
    var s1 := s.(states := s.states[c := Connected], idleTimers := s.idleTimers[c := ConnectionTimers(0, 0)]);
    var e := Heard(c, s.loop.clock);
    var r := Note(s1, e);
    PatientAppend(s.events, e);
    forall id | id in r.callbacks
      ensures Tracked(r, id)
    {
      TrackedInPool(s, id);
      SameLoopSpares(s.loop, id);
      TrackedStays(s, r, id);
    }
    forall d | d in r.states && d != c
      ensures Covered(r, d)
    {
      if s.states[d] == Connected {
        ConnectedFacts(s, d);
        SameLoopSpares(s.loop, s.idleTimers[d].idleTimer);
      }
      CoveredStays(s, r, d);
    }
  }

  // ---- replacing the idle timer ----

  /** A timer of the policy other than the one canceled is spared by canceling and adding. */
  lemma ReplaceSpares(m: Machine, gone: TimerId, t: NewTimer, id: TimerId)
    requires Healthy(m) && !m.phase.Rearming? && id in m.q.pool && !m.q.pool[id].repeating
    ensures Kept(m, Added(Cancelled(m, gone), t), id)
    ensures if id != gone then Spared(m, Added(Cancelled(m, gone), t), id)
            else !Waits(Added(Cancelled(m, gone), t), id)
  {
    hide Healthy, Waits, Added, Cancelled;
    var m1 := Cancelled(m, gone);
    CancelStops(m, gone);
    if id != gone {
      CancelSpares(m, gone, id);
    } else {
      CancelKeeps(m, id);
    }
    AddSpares(m1, t, id);
  }

  /** The server as `refreshIdleTimer` leaves it when it does something. */
  lemma RefreshGood(s: Server, c: ConnId, t: NewTimer)
    requires Stale(s, c) && !s.loop.phase.Rearming?
    ensures Good(RefreshIdleTimer(s, c, t))
  {
    hide Healthy, Spared, Kept, Tracked, Covered, Patient, Waits, Added, Cancelled, AddedSince;
    var gone := s.idleTimers[c].idleTimer;
    var m1 := Cancelled(s.loop, gone);
    var r := RefreshIdleTimer(s, c, t);
    CancelStops(s.loop, gone);
    AddStarts(m1, t);
    ClockIsNotNegative(s.loop);
    forall id | id in s.callbacks
      ensures id in s.loop.q.pool && Kept(s.loop, r.loop, id) && id != s.loop.q.nextId && id != 0
      ensures if id != gone then Spared(s.loop, r.loop, id) else !Waits(r.loop, id)
    {
      TrackedInPool(s, id);
      ReplaceSpares(s.loop, gone, t, id);
    }
    forall id | id in r.callbacks
      ensures Tracked(r, id)
    {
      if id == s.loop.q.nextId {
        FreshIdleTracked(r, c, id, s.loop.clock);
      } else {
        RefreshTracked(s, r, c, id);
      }
    }
    FreshIdleCovered(r, c, s.loop.q.nextId, s.loop.clock);
    assert Named(s, c);
    forall d | d in r.states && d != c
      ensures Covered(r, d)
    {
      OthersCovered(s, r, c, d);
    }
  }

  lemma ClockIsNotNegative(m: Machine)
    requires Healthy(m)
    ensures 0 <= m.clock
  {
  }

  lemma RefreshTracked(s: Server, r: Server, c: ConnId, id: TimerId)
    requires id in s.callbacks && Tracked(s, id) && Kept(s.loop, r.loop, id)
    requires id in r.callbacks && r.callbacks[id] == s.callbacks[id]
    requires r.states == s.states && r.events == s.events && c in s.idleTimers
    requires c in r.idleTimers
    requires r.idleTimers == s.idleTimers[c := s.idleTimers[c].(idleTimer := r.idleTimers[c].idleTimer)]
    requires id == s.idleTimers[c].idleTimer ==> !Waits(r.loop, id)
    ensures Tracked(r, id)
  {
    hide Waits, AddedSince;
    TrackedStays(s, r, id);
  }

  lemma FreshIdleTracked(r: Server, c: ConnId, id: TimerId, time: int)
    requires id in r.callbacks && r.callbacks[id] == Callback(c, IdleTimeout) && id != 0
    requires c in r.states && c in r.idleTimers && r.idleTimers[c].idleTimer == id
    requires AddedSince(r.loop, id, time) && 0 <= time
    ensures Tracked(r, id)
  {
  }

  lemma FreshIdleCovered(r: Server, c: ConnId, id: TimerId, time: int)
    requires id in r.callbacks && r.callbacks[id] == Callback(c, IdleTimeout) && Waits(r.loop, id)
    requires c in r.states && r.states[c] == Connected && c in r.idleTimers && r.idleTimers[c].idleTimer == id
    requires AddedSince(r.loop, id, time)
    requires forall i :: 0 <= i < |r.events| && r.events[i].conn == c ==> r.events[i].Heard? && r.events[i].time <= time
    ensures Covered(r, c)
  {
  }

  /** A connection other than the one at hand stays covered. */
  lemma OthersCovered(s: Server, r: Server, c: ConnId, d: ConnId)
    requires d in s.states && d != c && Covered(s, d) && Silent(s, r, d)
    requires d in r.states && r.states[d] == s.states[d]
    requires d in r.idleTimers <==> d in s.idleTimers
    requires d in s.idleTimers ==> r.idleTimers[d] == s.idleTimers[d]
    requires forall id :: id in s.callbacks && s.callbacks[id].conn != c && Waits(s.loop, id) ==>
               id in r.callbacks && r.callbacks[id] == s.callbacks[id] && Spared(s.loop, r.loop, id)
    ensures Covered(r, d)
  {
    hide Waits, Spared;
    if s.states[d] == Connected {
      var id := s.idleTimers[d].idleTimer;
      assert Spared(s.loop, r.loop, id);
    }
    CoveredStays(s, r, d);
  }

  // ---- the connection goes down ----

  lemma DownSpares(m: Machine, first: TimerId, second: TimerId, id: TimerId)
    requires Healthy(m) && !m.phase.Rearming? && id in m.q.pool && !m.q.pool[id].repeating && id != 0
    ensures var r := Cancelled(Cancelled(m, first), second);
            && Kept(m, r, id)
            && if id != first && id != second then Spared(m, r, id) else !Waits(r, id)
  {
    hide Healthy, Waits, Cancelled;
    CancelStops(m, first);
    var m1 := Cancelled(m, first);
    if id != first {
      CancelSpares(m, first, id);
    } else {
      CancelKeeps(m, id);
    }
    CancelStops(m1, second);
    if id != second {
      CancelSpares(m1, second, id);
    } else {
      CancelKeeps(m1, id);
    }
  }

  lemma DownGood(s: Server, c: ConnId)
    requires Good(s) && c in s.states && !s.loop.phase.Rearming?
    ensures Good(ConnectionDown(s, c))
  {
    hide Healthy, Spared, Kept, Tracked, Covered, Patient, Waits, Cancelled, AddedSince;
    var r := ConnectionDown(s, c);
    ConnectedFacts(s, c);
    if c in s.idleTimers {
      var timers := s.idleTimers[c];
      CancelStops(s.loop, timers.idleTimer);
      CancelStops(Cancelled(s.loop, timers.idleTimer), timers.forceCloseTimer);
      forall id | id in s.callbacks
        ensures id in s.loop.q.pool && Kept(s.loop, r.loop, id) && id != 0
        ensures if id != timers.idleTimer && id != timers.forceCloseTimer then Spared(s.loop, r.loop, id)
                else !Waits(r.loop, id)
      {
        TrackedInPool(s, id);
        DownSpares(s.loop, timers.idleTimer, timers.forceCloseTimer, id);
      }
      forall id | id in r.callbacks
        ensures Tracked(r, id)
      {
        TrackedTimer(s, id);
        KeptWaits(s.loop, r.loop, id);
        TrackedStays(s, r, id);
      }
      assert Named(s, c);
    } else {
      forall id | id in r.callbacks
        ensures Tracked(r, id) && Spared(s.loop, r.loop, id)
      {
        TrackedInPool(s, id);
        SameLoopSpares(s.loop, id);
        TrackedStays(s, r, id);
      }
    }
    NotConnectedCovered(s, r, c);
    forall d | d in r.states && d != c
      ensures Covered(r, d)
    {
      OthersCovered(s, r, c, d);
    }
    assert forall d :: d in r.idleTimers ==> Named(s, d);
  }

  lemma KeptWaits(m: Machine, r: Machine, id: TimerId)
    requires Kept(m, r, id)
    ensures Waits(r, id) ==> Waits(m, id)
  {
  }

  /** A waiting timer of the policy is the one its connection's record names. */
  lemma TrackedTimer(s: Server, id: TimerId)
    requires id in s.callbacks && Tracked(s, id)
    ensures s.callbacks[id].conn in s.states && AddedSince(s.loop, id, 0)
    ensures Waits(s.loop, id) ==>
              && s.callbacks[id].conn in s.idleTimers
              && var timers := s.idleTimers[s.callbacks[id].conn];
                 id == if s.callbacks[id].role == IdleTimeout then timers.idleTimer else timers.forceCloseTimer
    ensures Waits(s.loop, id) && s.callbacks[id].role == ForceCloseTimeout ==>
              ShutSince(s, s.callbacks[id].conn, s.loop.q.pool[id].addedAt)
  {
    hide Waits;
  }

  // ---- calling a timer ----

  /** Calling a timer, before its callback does anything. */
  function Popped(s: Server): Server {
    s.(loop := Next(s.loop, FireNext))
  }

  lemma PoppedKeeps(s: Server)
    requires Good(s) && Enabled(s.loop, FireNext)
    ensures var r := Popped(s);
            && Healthy(r.loop) && r.loop.clock == s.loop.clock && r.loop.q == s.loop.q && !Waits(r.loop, Caller(s))
            && !r.loop.phase.Rearming?
            && (Waits(s.loop, Caller(s)) <==> !s.loop.q.pool[Caller(s)].canceled)
            && (forall id :: id in s.callbacks ==>
                  Kept(s.loop, r.loop, id) && (id != Caller(s) ==> Spared(s.loop, r.loop, id)))
            && (forall id :: id in r.callbacks ==> Tracked(r, id))
  {
    hide Healthy, Spared, Kept, Tracked, Covered, Patient, Waits, AddedSince;
    var r := Popped(s);
    StaysHealthy(s.loop, FireNext);
    CallIsDue(s.loop);
    NextFire(s.loop);
    forall id | id in s.callbacks
      ensures Kept(s.loop, r.loop, id) && (id != Caller(s) ==> Spared(s.loop, r.loop, id))
    {
      TrackedInPool(s, id);
      if id != Caller(s) {
        CallSpares(s.loop, id);
        SparedMeansKept(s.loop, r.loop, id);
      } else {
        CallerKept(s.loop);
      }
    }
    forall id | id in r.callbacks
      ensures Tracked(r, id)
    {
      TrackedStays(s, r, id);
    }
  }

  lemma CallerKept(m: Machine)
    requires Healthy(m) && Enabled(m, FireNext)
    ensures Kept(m, Next(m, FireNext), m.phase.batch[m.phase.next])
  {
    CallIsDue(m);
  }

  /** Unless it is the idle timer of a connected connection, calling it needs no reaction. */
  lemma PoppedGood(s: Server)
    requires Good(s) && Enabled(s.loop, FireNext)
    requires Waits(s.loop, Caller(s)) && Caller(s) in s.callbacks && s.callbacks[Caller(s)].role == IdleTimeout ==>
               s.callbacks[Caller(s)].conn in s.states && s.states[s.callbacks[Caller(s)].conn] != Connected
    ensures Good(Popped(s))
  {
    hide Healthy, Spared, Kept, Tracked, Covered, Patient, Waits, AddedSince, Caller;
    var r := Popped(s);
    PoppedKeeps(s);
    forall c | c in r.states
      ensures Covered(r, c)
    {
      ConnectedFacts(s, c);
      CoveredStays(s, r, c);
    }
    assert forall c :: c in r.idleTimers ==> Named(s, c);
  }

  /** The idle timer of a connected connection goes off. */
  lemma IdleTimeoutGood(s: Server, t: NewTimer)
    requires Good(s) && Enabled(s.loop, FireNext) && Waits(s.loop, Caller(s)) && Caller(s) in s.callbacks
    requires s.callbacks[Caller(s)].role == IdleTimeout
    requires s.callbacks[Caller(s)].conn in s.states && s.states[s.callbacks[Caller(s)].conn] == Connected
    ensures Good(HandleIdleTimeout(Popped(s), s.callbacks[Caller(s)].conn, t))
  {
    hide Healthy, Spared, Kept, Tracked, Covered, Patient, Waits, AddedSince, Caller, Added;
    var id := Caller(s);
    var c := s.callbacks[id].conn;
    var p := Popped(s);
    var r := HandleIdleTimeout(p, c, t);
    PoppedKeeps(s);
    ConnectedFacts(s, c);
    TrackedTimer(s, id);
    AddStarts(p.loop, t);
    ClockIsNotNegative(p.loop);
    DueForShutdown(s);
    PatientAppend(s.events, IdleShutdown(c, s.loop.clock));
    assert r.events[|s.events|] == IdleShutdown(c, s.loop.clock);
    forall k | k in s.callbacks
      ensures k in p.loop.q.pool && Kept(p.loop, r.loop, k) && k != p.loop.q.nextId && k != 0
      ensures Spared(p.loop, r.loop, k)
    {
      TrackedInPool(s, k);
      AddSpares(p.loop, t, k);
      SparedMeansKept(p.loop, r.loop, k);
    }
    forall k | k in r.callbacks
      ensures Tracked(r, k)
    {
      if k == p.loop.q.nextId {
        FreshForceTracked(r, c, k, p.loop.clock, |s.events|);
      } else {
        IdleCallTracked(p, r, c, k);
      }
    }
    NotConnectedCovered(s, r, c);
    forall d | d in r.states && d != c
      ensures Covered(r, d)
    {
      forall k | k in s.callbacks && s.callbacks[k].conn != c && Waits(s.loop, k)
        ensures k in r.callbacks && r.callbacks[k] == s.callbacks[k] && Spared(s.loop, r.loop, k)
      {
        SparedTwice(s.loop, p.loop, r.loop, k);
      }
      OthersCovered(s, r, c, d);
    }
    assert forall d :: d in r.idleTimers && d != c ==> Named(s, d);
  }

  lemma SparedTwice(m: Machine, p: Machine, r: Machine, id: TimerId)
    requires Spared(m, p, id) && Spared(p, r, id)
    ensures Spared(m, r, id)
  {
    hide Waits;
  }

  /** All that was heard of the connection is 15 seconds old when its idle timer goes off. */
  lemma DueForShutdown(s: Server)
    requires Good(s) && Enabled(s.loop, FireNext) && Waits(s.loop, Caller(s)) && Caller(s) in s.callbacks
    requires s.callbacks[Caller(s)].role == IdleTimeout
    requires s.callbacks[Caller(s)].conn in s.states && s.states[s.callbacks[Caller(s)].conn] == Connected
    ensures var c := s.callbacks[Caller(s)].conn;
            forall i :: 0 <= i < |s.events| && s.events[i].conn == c ==>
              s.events[i].Heard? && Deadline(s.events[i].time, IDLE_DELAY) <= s.loop.clock
  {
    hide Healthy, Covered, Patient, Waits, Tracked;
    var id := Caller(s);
    ConnectedFacts(s, s.callbacks[id].conn);
    TrackedTimer(s, id);
    CallIsDue(s.loop);
  }

  lemma FreshForceTracked(r: Server, c: ConnId, id: TimerId, time: int, i: nat)
    requires id in r.callbacks && r.callbacks[id] == Callback(c, ForceCloseTimeout) && id != 0
    requires c in r.states && c in r.idleTimers && r.idleTimers[c].forceCloseTimer == id
    requires AddedSince(r.loop, id, time) && 0 <= time
    requires i < |r.events| && r.events[i] == IdleShutdown(c, time)
    ensures Tracked(r, id)
  {
    assert ShutSince(r, c, r.loop.q.pool[id].addedAt);
  }

  /** When a connected connection goes idle no timer of it is left waiting. */
  lemma IdleCallTracked(p: Server, r: Server, c: ConnId, id: TimerId)
    requires id in p.callbacks && Tracked(p, id) && Kept(p.loop, r.loop, id)
    requires id in r.callbacks && r.callbacks[id] == p.callbacks[id]
    requires p.states.Keys <= r.states.Keys && p.events <= r.events
    requires c in p.idleTimers && c in r.idleTimers && r.idleTimers == p.idleTimers[c := r.idleTimers[c]]
    requires !Waits(p.loop, p.idleTimers[c].idleTimer)
    requires forall i :: 0 <= i < |p.events| && p.events[i].conn == c ==> p.events[i].Heard?
    ensures Tracked(r, id)
  {
    hide Waits, AddedSince;
    TrackedTimer(p, id);
    TrackedStays(p, r, id);
  }

  /** A force-close timer goes off. */
  lemma ForceCloseGood(s: Server)
    requires Good(s) && Enabled(s.loop, FireNext) && Waits(s.loop, Caller(s)) && Caller(s) in s.callbacks
    requires s.callbacks[Caller(s)].role == ForceCloseTimeout && s.callbacks[Caller(s)].conn in s.states
    ensures Good(HandleForceCloseTimeout(Popped(s), s.callbacks[Caller(s)].conn))
  {
    hide Healthy, Spared, Kept, Tracked, Covered, Patient, Waits, AddedSince, Caller;
    var id := Caller(s);
    var c := s.callbacks[id].conn;
    var p := Popped(s);
    var r := HandleForceCloseTimeout(p, c);
    PoppedKeeps(s);
    ConnectedFacts(s, c);
    TrackedTimer(s, id);
    TrackedInPool(s, id);
    ShutMeansNotConnected(s, c, s.loop.q.pool[id].addedAt);
    DueForForcing(s);
    PatientAppend(s.events, ForcedClose(c, s.loop.clock));
    forall k | k in r.callbacks
      ensures Tracked(r, k)
    {
      TrackedTimer(p, k);
      TrackedInPool(p, k);
      SameLoopSpares(p.loop, k);
      TrackedStays(p, r, k);
    }
    NotConnectedCovered(s, r, c);
    forall d | d in r.states && d != c
      ensures Covered(r, d)
    {
      OthersCovered(s, r, c, d);
    }
    assert forall d :: d in r.idleTimers ==> Named(s, d);
  }

  lemma ShutMeansNotConnected(s: Server, c: ConnId, time: int)
    requires Good(s) && c in s.states && ShutSince(s, c, time)
    ensures s.states[c] != Connected
  {
    ConnectedFacts(s, c);
  }

  lemma DueForForcing(s: Server)
    requires Good(s) && Enabled(s.loop, FireNext) && Waits(s.loop, Caller(s)) && Caller(s) in s.callbacks
    requires s.callbacks[Caller(s)].role == ForceCloseTimeout
    ensures var c := s.callbacks[Caller(s)].conn;
            exists i :: 0 <= i < |s.events| && s.events[i].IdleShutdown? && s.events[i].conn == c &&
              Deadline(s.events[i].time, IDLE_DELAY) <= s.loop.clock
  {
    hide Healthy, Covered, Patient, Waits, Tracked;
    var id := Caller(s);
    var c := s.callbacks[id].conn;
    TrackedTimer(s, id);
    CallIsDue(s.loop);
    var time := s.loop.q.pool[id].addedAt;
    var i :| 0 <= i < |s.events| && s.events[i].IdleShutdown? && s.events[i].conn == c && s.events[i].time <= time;
    assert Deadline(s.events[i].time, IDLE_DELAY) <= Deadline(time, IDLE_DELAY);
  }

  // ---- runs ----

  lemma CallGood(s: Server, t: NewTimer)
    requires Good(s) && Enabled(s.loop, FireNext)
    ensures Good(Call(s, t))
  {
    hide Good, HandleIdleTimeout, HandleForceCloseTimeout, Waits, Next, Enabled;
    var id := Caller(s);
    WaitingIsUncanceled(s);
    if !Waits(s.loop, id) || id !in s.callbacks {
      PoppedGood(s);
    } else if s.callbacks[id].role == IdleTimeout {
      CallbackHasConn(s, id);
      if s.states[s.callbacks[id].conn] == Connected {
        IdleTimeoutGood(s, t);
      } else {
        PoppedGood(s);
        IdleTimeoutNoOp(Popped(s), s.callbacks[id].conn, t);
      }
    } else {
      CallbackHasConn(s, id);
      ForceCloseGood(s);
    }
  }

  lemma IdleTimeoutNoOp(s: Server, c: ConnId, t: NewTimer)
    requires c in s.states && s.states[c] != Connected
    ensures HandleIdleTimeout(s, c, t) == s
  {
  }

  lemma WaitingIsUncanceled(s: Server)
    requires Good(s) && Enabled(s.loop, FireNext)
    ensures Waits(s.loop, Caller(s)) <==> !s.loop.q.pool[Caller(s)].canceled
  {
    hide Healthy, Tracked, Covered, Patient, Waits;
    CallIsDue(s.loop);
  }

  lemma CallbackHasConn(s: Server, id: TimerId)
    requires Good(s) && id in s.callbacks
    ensures s.callbacks[id].conn in s.states
  {
    TrackedInPool(s, id);
  }

  lemma HeardGood(s: Server, c: ConnId, t: NewTimer)
    requires Good(s) && c in s.states && !s.loop.phase.Rearming?
    ensures Good(OnMessage(s, c, t))
  {
    hide Good, Stale;
    HeardStale(s, c);
    if s.states[c] == Connected {
      RefreshGood(Note(s, Heard(c, s.loop.clock)), c, t);
    }
  }

  lemma UpGood(s: Server, c: ConnId, t: NewTimer)
    requires Good(s) && c !in s.states && !s.loop.phase.Rearming?
    ensures Good(ConnectionUp(s, c, t))
  {
    hide Good, Stale, RefreshIdleTimer;
    UpStale(s, c);
    var s1 := s.(states := s.states[c := Connected], idleTimers := s.idleTimers[c := ConnectionTimers(0, 0)]);
    RefreshGood(Note(s1, Heard(c, s.loop.clock)), c, t);
  }

  lemma ShutdownGood(s: Server, c: ConnId)
    requires Good(s) && c in s.states && s.states[c] == Connected
    ensures Good(s.(states := s.states[c := Disconnecting]))
  {
    hide Healthy, Spared, Kept, Tracked, Covered, Patient, Waits, AddedSince;
    var r := s.(states := s.states[c := Disconnecting]);
    ConnectedFacts(s, c);
    forall id | id in r.callbacks
      ensures Tracked(r, id) && Spared(s.loop, r.loop, id)
    {
      TrackedInPool(s, id);
      SameLoopSpares(s.loop, id);
      TrackedStays(s, r, id);
    }
    NotConnectedCovered(s, r, c);
    forall d | d in r.states && d != c
      ensures Covered(r, d)
    {
      OthersCovered(s, r, c, d);
    }
    assert forall d :: d in r.idleTimers ==> Named(s, d);
  }

  lemma LoopStepGood(s: Server, a: Action)
    requires Good(s) && !a.FireNext? && !(a.Cancel? && a.id in s.callbacks)
    ensures Good(s.(loop := Next(s.loop, a)))
  {
    hide Healthy, Spared, Tracked, Covered, Patient, Waits, Next;
    StaysHealthy(s.loop, a);
    forall id | id in s.callbacks
      ensures Spared(s.loop, Next(s.loop, a), id)
    {
      TrackedInPool(s, id);
      StepSpares(s.loop, a, id);
    }
    LoopGood(s, Next(s.loop, a));
  }

  lemma MoveKeepsGood(s: Server, a: Move)
    requires Good(s)
    ensures Good(After(s, a))
  {
    hide Good, ConnectionUp, ConnectionDown, OnMessage, Call, Next, Enabled;
    if Possible(s, a) {
      match a
      case Up(c, t) => UpGood(s, c, t);
      case Message(c, t) => HeardGood(s, c, t);
      case Shutdown(c) => ShutdownGood(s, c);
      case Down(c) => DownGood(s, c);
      case Loop(act) => LoopStepGood(s, act);
      case Fire(t) => CallGood(s, t);
    }
  }

  lemma {:induction false} PlayKeepsGood(s: Server, moves: seq<Move>)
    requires Fresh(s)
    ensures Good(Play(s, moves))
    decreases |moves|
  {
    hide Good, After;
    if moves == [] {
      FreshIsGood(s);
    } else {
      PlayKeepsGood(s, moves[..|moves| - 1]);
      MoveKeepsGood(Play(s, moves[..|moves| - 1]), moves[|moves| - 1]);
    }
  }

  lemma FreshIsGood(s: Server)
    requires Fresh(s)
    ensures Good(s)
  {
    StartInv(s.loop);
  }

  /** Over every run, a connection has at most one idle timer yet to be called, and one as long as it is connected. */
  lemma {:induction false} OneIdleTimer(s: Server, moves: seq<Move>, c: ConnId)
    requires Fresh(s)
    ensures var r := Play(s, moves);
            var live := set id | id in r.callbacks && r.callbacks[id] == Callback(c, IdleTimeout) && Waits(r.loop, id);
            && |live| <= 1
            && (c in r.states && r.states[c] == Connected ==> |live| == 1)
  {
    hide Waits, Covered, Healthy, Patient;
    var r := Play(s, moves);
    PlayKeepsGood(s, moves);
    var live := set id | id in r.callbacks && r.callbacks[id] == Callback(c, IdleTimeout) && Waits(r.loop, id);
    forall id | id in live
      ensures c in r.idleTimers && id == r.idleTimers[c].idleTimer
    {
      TrackedTimer(r, id);
    }
    if live != {} {
      assert live == {r.idleTimers[c].idleTimer};
    }
    if c in r.states && r.states[c] == Connected {
      ConnectedFacts(r, c);
      assert r.idleTimers[c].idleTimer in live;
    }
  }

  /** No timer outlives its connection: once it is down, none of its timers will be called again. */
  lemma {:induction false} NoTimerOutlivesItsConnection(s: Server, moves: seq<Move>, id: TimerId)
    requires Fresh(s)
    ensures var r := Play(s, moves);
            id in r.callbacks && Waits(r.loop, id) ==>
              r.callbacks[id].conn in r.states && r.states[r.callbacks[id].conn] != Disconnected
  {
    hide Waits, Covered, Healthy, Patient;
    var r := Play(s, moves);
    PlayKeepsGood(s, moves);
    if id in r.callbacks && Waits(r.loop, id) {
      TrackedTimer(r, id);
      ConnectedFacts(r, r.callbacks[id].conn);
    }
  }

  /**
   * The idle policy is patient: an idle shutdown comes at least 15 seconds after everything heard of the connection
   * before, happens at most once, and a forced close comes at least 15 seconds after the shutdown it follows.
   */
  lemma {:induction false} NeverHurried(s: Server, moves: seq<Move>)
    requires Fresh(s)
    ensures var events := Play(s, moves).events;
            && (forall i, j :: 0 <= i < j < |events| && events[j].IdleShutdown? && events[i].conn == events[j].conn ==>
                  events[i].Heard? && Waited(events[i].time, IDLE_DELAY, events[j].time))
            && (forall j :: 0 <= j < |events| && events[j].ForcedClose? ==>
                  exists i :: 0 <= i < j && events[i].IdleShutdown? && events[i].conn == events[j].conn &&
                    Waited(events[i].time, IDLE_DELAY, events[j].time))
  {
    hide Healthy, Tracked, Covered, Named;
    PlayKeepsGood(s, moves);
    var events := Play(s, moves).events;
    forall j | 0 <= j < |events| && events[j].ForcedClose?
      ensures exists i :: 0 <= i < j && events[i].IdleShutdown? && events[i].conn == events[j].conn &&
                Waited(events[i].time, IDLE_DELAY, events[j].time)
    {
      var i :| 0 <= i < j && events[i].IdleShutdown? && events[i].conn == events[j].conn &&
        Deadline(events[i].time, IDLE_DELAY) <= events[j].time;
      assert Waited(events[i].time, IDLE_DELAY, events[j].time);
    }
  }
}
