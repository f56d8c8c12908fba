/** One call of `handleRead` as a run of actions, and exactly which callbacks it makes. */
module TimerRead {
  import opened TimerModel
  import opened TimerProofs
  import opened TimerRefinement

  // What the world does during one `handleRead`: clock readings, and what each callback does if it is called.
  datatype World = World(now: int, starts: nat -> int, scripts: nat -> seq<Action>, restarts: nat -> int)

  /** What can happen while a callback runs. */
  predicate DuringCallback(a: Action) {
    a.Add? || a.Cancel? || a.Advance? || a.Expire? || a.Reserve?
  }

  ghost predicate Plausible(w: World) {
    forall i: nat, k: nat :: k < |w.scripts(i)| ==> DuringCallback(w.scripts(i)[k])
  }

  /** In the first loop of `handleRead`, the next timer of the batch is called and not skipped. */
  predicate Calls(m: Machine) {
    && m.phase.Calling? && m.phase.next < |m.phase.batch|
    && var id := m.phase.batch[m.phase.next];
       id in m.q.pool && !m.q.pool[id].canceled
  }

  function CallTurn(m: Machine, w: World, i: nat): seq<Action> {
    var before := Next(m, Advance(w.starts(i)));
    [Advance(w.starts(i)), FireNext] + (if Calls(before) then w.scripts(i) else [])
  }

  /** The first `k` turns of the first loop. */
  function CallTurns(m: Machine, w: World, k: nat): seq<Action> {
    if k == 0 then []
    else
      var init := CallTurns(m, w, k - 1);
      init + CallTurn(Execute(m, init), w, k - 1)
  }

  /** The first `k` turns of the second loop. */
  function RearmTurns(w: World, k: nat): seq<Action> {
    if k == 0 then [] else RearmTurns(w, k - 1) + [Advance(w.restarts(k - 1)), RearmNext]
  }

  function Batch(m: Machine, w: World): seq<TimerId> {
    TakeExpired(m.q, Next(m, Advance(w.now)).clock).1
  }

  /** The first loop, up to the point where it has called or skipped `k` timers. */
  function ReadUpTo(m: Machine, w: World, k: nat): seq<Action> {
    var begin := [Advance(w.now), BeginRead];
    begin + CallTurns(Execute(m, begin), w, k)
  }

  /** The whole of `handleRead`. */
  function ReadActions(m: Machine, w: World): seq<Action> {
    var n := |Batch(m, w)|;
    ReadUpTo(m, w, n) + [EndCalling] + RearmTurns(w, n) + [EndRead]
  }

  lemma {:induction false} ExecuteAppend(m: Machine, a: seq<Action>, b: seq<Action>)
    ensures Execute(m, a + b) == Execute(Execute(m, a), b)
    decreases |b|
  {
    if b == [] {
      assert a + b == a;
    } else {
      assert (a + b)[..|a + b| - 1] == a + b[..|b| - 1];
      ExecuteAppend(m, a, b[..|b| - 1]);
    }
  }

  lemma ExecuteTwo(m: Machine, a: Action, b: Action)
    ensures Execute(m, [a, b]) == Next(Next(m, a), b)
  {
    assert [a, b][..1] == [a] && [a][..0] == [];
    assert Execute(m, [a]) == Next(m, a);
  }

  /** A callback leaves the loop where it is and calls nothing; it cancels the pending timers it names, no others. */
  lemma {:induction false} ScriptEffect(m: Machine, script: seq<Action>)
    requires Inv(m) && m.phase.Calling?
    requires forall k :: 0 <= k < |script| ==> DuringCallback(script[k])
    ensures var r := Execute(m, script);
            && Inv(r) && r.phase == m.phase && r.log == m.log && m.clock <= r.clock
            && forall id :: id in m.phase.batch ==>
                 id in m.q.pool && id in r.q.pool &&
                 (r.q.pool[id].canceled <==> m.q.pool[id].canceled || Cancel(id) in script)
    decreases |script|
  {
    if script != [] {
      var init, last := script[..|script| - 1], script[|script| - 1];
      ScriptEffect(m, init);
      var r := Execute(m, init);
      NextKeepsInv(r, last);
      assert script == init + [last];
      assert forall id :: Cancel(id) in script <==> Cancel(id) in init || last == Cancel(id);
    }
  }

  /** The calls logged, as indexes into the batch. */
  ghost predicate Logged(m: Machine, batch: seq<TimerId>, called: seq<nat>, calls: seq<Firing>) {
    && |calls| == |called|
    && (forall c :: 0 <= c < |called| ==> called[c] < |batch| && calls[c].id == batch[called[c]])
    && (forall c, d :: 0 <= c < d < |called| ==> called[c] < called[d])
  }

  /** Some callback made so far canceled `id`. */
  ghost predicate CanceledBy(w: World, called: seq<nat>, id: TimerId) {
    exists c :: 0 <= c < |called| && Cancel(id) in w.scripts(called[c])
  }

  lemma PendingInPool(m: Machine)
    requires Inv(m)
    ensures forall id :: id in Pending(m.phase) ==> id in m.q.pool
  {
  }

  lemma ExecuteNone(m: Machine)
    ensures Execute(m, []) == m
  {
  }

  lemma ExecuteOne(m: Machine, a: Action)
    ensures Execute(m, [a]) == Next(m, a)
  {
    assert [a][..0] == [];
  }

  /** A turn of the first loop before the callback itself: the timer is skipped or its call logged. */
  lemma CallStarts(m: Machine, time: int)
    requires Inv(m) && m.phase.Calling? && m.phase.next < |m.phase.batch|
    ensures var m1 := Next(m, Advance(time));
            var r := Next(m1, FireNext);
            var id := m.phase.batch[m.phase.next];
            && Inv(r) && r.phase == Calling(m.phase.batch, m.phase.next + 1) && r.q == m.q && id in m.q.pool
            && (Calls(m1) <==> !m.q.pool[id].canceled)
            && r.log == if m.q.pool[id].canceled then m.log else m.log + [Firing(id, m1.clock)]
  {
    hide Inv, Next;
    var m1 := Next(m, Advance(time));
    assert m.phase.batch[m.phase.next] in Pending(m.phase);
    PendingInPool(m);
    NextKeepsInv(m, Advance(time));
    NextKeepsInv(m1, FireNext);
    NextAdvance(m, time);
    NextFire(m1);
  }

  /** One turn of the first loop. */
  lemma CallTurnEffect(m: Machine, w: World, i: nat)
    requires Inv(m) && Plausible(w) && m.phase.Calling? && i == m.phase.next < |m.phase.batch|
    ensures var r := Execute(m, CallTurn(m, w, i));
            var id := m.phase.batch[i];
            && Inv(r) && r.phase == Calling(m.phase.batch, i + 1) && id in m.q.pool
            && (m.q.pool[id].canceled ==> r.log == m.log && r.q.pool == m.q.pool)
            && (!m.q.pool[id].canceled ==>
                  |r.log| == |m.log| + 1 && r.log[..|m.log|] == m.log && r.log[|m.log|].id == id)
            && (!m.q.pool[id].canceled ==>
                  forall b :: b in m.phase.batch ==>
                    b in m.q.pool && b in r.q.pool &&
                    (r.q.pool[b].canceled <==> m.q.pool[b].canceled || Cancel(b) in w.scripts(i)))
  {
    hide Inv, Next, Execute;
    var m1 := Next(m, Advance(w.starts(i)));
    var m2 := Next(m1, FireNext);
    CallStarts(m, w.starts(i));
    ExecuteTwo(m, Advance(w.starts(i)), FireNext);
    var script := if Calls(m1) then w.scripts(i) else [];
    ExecuteAppend(m, [Advance(w.starts(i)), FireNext], script);
    ScriptEffect(m2, script);
    ExecuteNone(m2);
  }

  /**
   * From `m`, `k` turns of the loop have led to `r`: it has called exactly those of the first `k` timers that no
   * earlier callback of this batch has canceled, in batch order and once each.
   */
  ghost predicate Progress(m: Machine, w: World, batch: seq<TimerId>, k: nat, r: Machine, called: seq<nat>) {
    && k <= |batch|
    && r.phase == Calling(batch, k)
    && |m.log| <= |r.log| && r.log[..|m.log|] == m.log
    && Logged(r, batch, called, r.log[|m.log|..])
    && (forall c :: 0 <= c < |called| ==> called[c] < k)
    && (forall b :: b in batch ==> b in r.q.pool && (r.q.pool[b].canceled <==> CanceledBy(w, called, b)))
    && (forall i :: 0 <= i < k ==> (i in called <==> !CanceledBy(w, Earlier(called, i), batch[i])))
  }

  lemma NoProgress(m: Machine, w: World) returns (called: seq<nat>)
    requires Inv(m) && m.phase.Calling? && m.phase.next == 0
    requires forall id :: id in m.phase.batch ==> id in m.q.active
    ensures Progress(m, w, m.phase.batch, 0, m, called)
  {
    called := [];
  }

  lemma ProgressIsAt(m: Machine, w: World, batch: seq<TimerId>, k: nat, r: Machine, called: seq<nat>)
    requires Progress(m, w, batch, k, r, called)
    ensures r.phase == Calling(batch, k) && k <= |batch|
  {
  }

  lemma ProgressSkips(m: Machine, w: World, batch: seq<TimerId>, k: nat, r: Machine, called: seq<nat>, r': Machine)
    requires Progress(m, w, batch, k, r, called) && k < |batch| && batch[k] in batch
    requires r.q.pool[batch[k]].canceled
    requires r'.phase == Calling(batch, k + 1) && r'.log == r.log && r'.q.pool == r.q.pool
    ensures Progress(m, w, batch, k + 1, r', called)
  {
    hide CanceledBy, Earlier;
    EarlierAll(called, k);
  }

  lemma ProgressCalls(m: Machine, w: World, batch: seq<TimerId>, k: nat, r: Machine, called: seq<nat>, r': Machine)
    requires Progress(m, w, batch, k, r, called) && k < |batch| && batch[k] in batch
    requires !r.q.pool[batch[k]].canceled
    requires r'.phase == Calling(batch, k + 1)
    requires |r'.log| == |r.log| + 1 && r'.log[..|r.log|] == r.log && r'.log[|r.log|].id == batch[k]
    requires forall b :: b in batch ==>
               b in r'.q.pool && (r'.q.pool[b].canceled <==> r.q.pool[b].canceled || Cancel(b) in w.scripts(k))
    ensures Progress(m, w, batch, k + 1, r', called + [k])
  {
    hide CanceledBy, Earlier;
    EarlierAll(called, k);
    EarlierExtended(called, k);
    CanceledByExtended(w, called, k);
    var calls := r.log[|m.log|..];
    assert r'.log == r.log + [r'.log[|r.log|]];
    assert r'.log[|m.log|..] == calls + [r'.log[|r.log|]];
    assert r'.log[..|m.log|] == r.log[..|m.log|];
    assert forall i: nat :: i in called + [k] <==> i in called || i == k;
  }

  lemma {:induction false} CallTurnsEffect(m: Machine, w: World, k: nat) returns (called: seq<nat>)
    requires Inv(m) && Plausible(w) && m.phase.Calling? && m.phase.next == 0 && k <= |m.phase.batch|
    requires forall id :: id in m.phase.batch ==> id in m.q.active
    ensures var r := Execute(m, CallTurns(m, w, k));
            Inv(r) && Progress(m, w, m.phase.batch, k, r, called)
  {
    hide Inv, CallTurn, Plausible, Progress, Execute;
    var batch := m.phase.batch;
    if k == 0 {
      called := NoProgress(m, w);
      ExecuteNone(m);
    } else {
      called := CallTurnsEffect(m, w, k - 1);
      var init := CallTurns(m, w, k - 1);
      var r := Execute(m, init);
      ProgressIsAt(m, w, batch, k - 1, r, called);
      CallTurnEffect(r, w, k - 1);
      ExecuteAppend(m, init, CallTurn(r, w, k - 1));
      var r' := Execute(m, CallTurns(m, w, k));
      assert r' == Execute(r, CallTurn(r, w, k - 1));
      if r.q.pool[batch[k - 1]].canceled {
        ProgressSkips(m, w, batch, k - 1, r, called, r');
      } else {
        ProgressCalls(m, w, batch, k - 1, r, called, r');
        called := called + [k - 1];
      }
    }
  }

  /** The entries of an increasing index list that are below `i`. */
  function Earlier(called: seq<nat>, i: nat): seq<nat> {
    if called == [] then []
    else if called[|called| - 1] < i then called
    else Earlier(called[..|called| - 1], i)
  }

  lemma EarlierAll(called: seq<nat>, i: nat)
    requires forall c :: 0 <= c < |called| ==> called[c] < i
    ensures Earlier(called, i) == called
  {
  }

  lemma EarlierExtended(called: seq<nat>, k: nat)
    ensures forall i :: 0 <= i <= k ==> Earlier(called + [k], i) == Earlier(called, i)
  {
    assert (called + [k])[..|called|] == called;
  }

  lemma CanceledByExtended(w: World, called: seq<nat>, k: nat)
    ensures forall b :: CanceledBy(w, called + [k], b) <==> CanceledBy(w, called, b) || Cancel(b) in w.scripts(k)
  {
    var longer := called + [k];
    forall b
      ensures CanceledBy(w, longer, b) <==> CanceledBy(w, called, b) || Cancel(b) in w.scripts(k)
    {
      assert longer[|called|] == k;
      if CanceledBy(w, called, b) {
        var c :| 0 <= c < |called| && Cancel(b) in w.scripts(called[c]);
        assert longer[c] == called[c];
      }
    }
  }

  lemma RearmTurnEffect(m: Machine, time: int)
    requires Inv(m) && m.phase.Rearming? && m.phase.next < |m.phase.batch|
    ensures var r := Next(Next(m, Advance(time)), RearmNext);
            Inv(r) && r.phase == Rearming(m.phase.batch, m.phase.next + 1) && r.log == m.log
  {
    hide Inv, Next, Rearm;
    var m1 := Next(m, Advance(time));
    assert m.phase.batch[m.phase.next] == Pending(m.phase)[0];
    PendingInPool(m);
    NextKeepsInv(m, Advance(time));
    NextKeepsInv(m1, RearmNext);
    NextAdvance(m, time);
    NextRearm(m1);
  }

  /** The second loop calls nothing. */
  lemma {:induction false} RearmTurnsEffect(m: Machine, w: World, k: nat)
    requires Inv(m) && m.phase.Rearming? && m.phase.next == 0 && k <= |m.phase.batch|
    ensures var r := Execute(m, RearmTurns(w, k));
            Inv(r) && r.phase == Rearming(m.phase.batch, k) && r.log == m.log
  {
    hide Inv, Next, Execute;
    if k == 0 {
      ExecuteNone(m);
    } else {
      RearmTurnsEffect(m, w, k - 1);
      var r := Execute(m, RearmTurns(w, k - 1));
      ExecuteAppend(m, RearmTurns(w, k - 1), [Advance(w.restarts(k - 1)), RearmNext]);
      ExecuteTwo(r, Advance(w.restarts(k - 1)), RearmNext);
      RearmTurnEffect(r, w.restarts(k - 1));
    }
  }

  /**
   * One `handleRead`: the batch is the timers due at its reading of the clock; it calls exactly those of them
   * that no earlier callback of the batch canceled, in order of expiration and once each; a timer a callback
   * adds is not in the batch, so it is not called; and the queue ends watched, with its indexes in agreement.
   */
  lemma ReadCallsExactly(m: Machine, w: World) returns (called: seq<nat>)
    requires Inv(m) && m.phase.Idle? && Plausible(w)
    ensures var batch := Batch(m, w);
            var r := Execute(m, ReadActions(m, w));
            && Inv(r) && r.phase.Idle?
            && DueInOrder(Abstract(Next(m, Advance(w.now))), batch)
            && |m.log| <= |r.log| && r.log[..|m.log|] == m.log
            && Logged(r, batch, called, r.log[|m.log|..])
            && (forall i :: 0 <= i < |batch| ==>
                  batch[i] in m.q.active && (i in called <==> !CanceledBy(w, Earlier(called, i), batch[i])))
  {
    hide DueInOrder;
    var n := |Batch(m, w)|;
    var m1 := Next(m, Advance(w.now));
    NextAdvance(m, w.now);
    NextKeepsInv(m, Advance(w.now));
    NextKeepsInv(m1, BeginRead);
    ExecuteTwo(m, Advance(w.now), BeginRead);
    var m2 := Next(m1, BeginRead);
    BatchIsActive(m1);
    BatchIsDueInOrder(m1);
    hide Inv, Next;
    called := CallTurnsEffect(m2, w, n);
    var begin := [Advance(w.now), BeginRead];
    ExecuteAppend(m, begin, CallTurns(m2, w, n));
    var m3 := Execute(m2, CallTurns(m2, w, n));
    FinishRead(m, m3, w, n);
  }

  lemma BatchIsActive(m: Machine)
    requires Inv(m) && m.phase.Idle?
    ensures var r := Next(m, BeginRead);
            var batch := TakeExpired(m.q, m.clock).1;
            && r.phase == Calling(batch, 0) && r.log == m.log
            && forall id :: id in batch ==> id in r.q.active && id in m.q.active
  {
    CutMembers(m.q, DueCount(m.q.timers, m.clock));
  }

  lemma FinishRead(m: Machine, m3: Machine, w: World, n: nat)
    requires n == |Batch(m, w)| && m3 == Execute(m, ReadUpTo(m, w, n))
    requires Inv(m3) && m3.phase.Calling? && m3.phase.next == |m3.phase.batch| == n
    ensures var r := Execute(m, ReadActions(m, w));
            Inv(r) && r.phase.Idle? && r.log == m3.log
  {
    hide Inv, Next, Execute, ReadUpTo, RearmTurns, Batch, ArmFirst;
    var upTo := ReadUpTo(m, w, n);
    var m4 := Next(m3, EndCalling);
    var m5 := Execute(m4, RearmTurns(w, n));
    NextKeepsInv(m3, EndCalling);
    NextEndCalling(m3);
    RearmTurnsEffect(m4, w, n);
    NextKeepsInv(m5, EndRead);
    NextEndRead(m5);
    ExecuteAppend(m, upTo, [EndCalling]);
    ExecuteOne(m3, EndCalling);
    ExecuteAppend(m, upTo + [EndCalling], RearmTurns(w, n));
    ExecuteAppend(m, upTo + [EndCalling] + RearmTurns(w, n), [EndRead]);
    ExecuteOne(m5, EndRead);
  }

  // ---- what a read leaves of its batch ----

  /** A timer that has been through a read begun at `since`: filed again if it repeats, gone if not, or canceled. */
  predicate Settled(r: Machine, id: TimerId, since: int) {
    && id in r.q.pool
    && var d := r.q.pool[id];
       if d.canceled || !d.repeating then id !in r.q.active
       else
         && id in r.q.active && EntryOf(r.q, id) in r.q.timers
         && Deadline(since, d.interval) <= d.expiration <= Deadline(r.clock, d.interval)
  }

  /** A turn of the second loop settles its timer. */
  lemma RearmSettles(m: Machine, since: int)
    requires Inv(m) && m.phase.Rearming? && m.phase.next < |m.phase.batch| && since <= m.clock
    ensures Settled(Next(m, RearmNext), m.phase.batch[m.phase.next], since)
  {
    var id := m.phase.batch[m.phase.next];
    assert id == Pending(m.phase)[0];
    PendingInPool(m);
    NextRearm(m);
    hide Next, Insert;
  }

  /** And leaves the others as they are. */
  lemma RearmKeepsSettled(m: Machine, id: TimerId, since: int)
    requires Inv(m) && m.phase.Rearming? && m.phase.next < |m.phase.batch| && id != m.phase.batch[m.phase.next]
    requires Settled(m, id, since)
    ensures Settled(Next(m, RearmNext), id, since)
  {
    assert m.phase.batch[m.phase.next] == Pending(m.phase)[0];
    PendingInPool(m);
    NextRearm(m);
    hide Next, Inv, Insert, Deadline;
  }

  lemma AdvanceKeepsSettled(m: Machine, time: int, id: TimerId, since: int)
    requires Settled(m, id, since)
    ensures Settled(Next(m, Advance(time)), id, since) && m.clock <= Next(m, Advance(time)).clock
  {
    NextAdvance(m, time);
    hide Next;
  }

  lemma {:induction false} RearmTurnsSettle(m: Machine, w: World, k: nat, since: int)
    requires Inv(m) && m.phase.Rearming? && m.phase.next == 0 && k <= |m.phase.batch| && since <= m.clock
    requires forall i, j :: 0 <= i < j < |m.phase.batch| ==> m.phase.batch[i] != m.phase.batch[j]
    ensures var r := Execute(m, RearmTurns(w, k));
            since <= r.clock && forall i :: 0 <= i < k ==> Settled(r, m.phase.batch[i], since)
  {
    hide Inv, Next, Execute, Settled;
    if k == 0 {
      ExecuteNone(m);
    } else {
      RearmTurnsSettle(m, w, k - 1, since);
      RearmTurnsEffect(m, w, k - 1);
      var r := Execute(m, RearmTurns(w, k - 1));
      var r1 := Next(r, Advance(w.restarts(k - 1)));
      ExecuteAppend(m, RearmTurns(w, k - 1), [Advance(w.restarts(k - 1)), RearmNext]);
      ExecuteTwo(r, Advance(w.restarts(k - 1)), RearmNext);
      NextKeepsInv(r, Advance(w.restarts(k - 1)));
      NextAdvance(r, w.restarts(k - 1));
      RearmSettles(r1, since);
      ClockStays(r1);
      forall i | 0 <= i < k - 1
        ensures Settled(Next(r1, RearmNext), m.phase.batch[i], since)
      {
        AdvanceKeepsSettled(r, w.restarts(k - 1), m.phase.batch[i], since);
        RearmKeepsSettled(r1, m.phase.batch[i], since);
      }
    }
  }

  lemma ClockStays(m: Machine)
    ensures Next(m, RearmNext).clock == m.clock && Next(m, EndCalling).clock == m.clock
  {
  }

  lemma EndKeepsSettled(m: Machine, id: TimerId, since: int)
    requires Settled(m, id, since)
    ensures Settled(Next(m, EndRead), id, since)
  {
  }

  /** The clock and the batch when the first loop is over. */
  lemma CalledBatch(m: Machine, w: World)
    requires Inv(m) && m.phase.Idle? && Plausible(w)
    ensures var n := |Batch(m, w)|;
            var r := Execute(m, ReadUpTo(m, w, n));
            && Inv(r) && r.phase == Calling(Batch(m, w), n) && m.clock <= r.clock
            && forall i, j :: 0 <= i < j < n ==> Batch(m, w)[i] != Batch(m, w)[j]
  {
    var n := |Batch(m, w)|;
    var m1 := Next(m, Advance(w.now));
    NextAdvance(m, w.now);
    NextKeepsInv(m, Advance(w.now));
    NextKeepsInv(m1, BeginRead);
    ExecuteTwo(m, Advance(w.now), BeginRead);
    var m2 := Next(m1, BeginRead);
    BatchIsActive(m1);
    BatchIsDueInOrder(m1);
    NextBeginRead(m1);
    hide Inv, Next, Execute, CallTurns;
    var called := CallTurnsEffect(m2, w, n);
    ClockOnlyMovesOn(m2, CallTurns(m2, w, n));
    ExecuteAppend(m, [Advance(w.now), BeginRead], CallTurns(m2, w, n));
  }

  lemma {:induction false} ClockOnlyMovesOn(m: Machine, actions: seq<Action>)
    ensures m.clock <= Execute(m, actions).clock
    decreases |actions|
  {
    hide Next;
    if actions != [] {
      ClockOnlyMovesOn(m, actions[..|actions| - 1]);
      StepMovesOn(Execute(m, actions[..|actions| - 1]), actions[|actions| - 1]);
    }
  }

  lemma StepMovesOn(m: Machine, a: Action)
    ensures m.clock <= Next(m, a).clock
  {
    hide AddInLoop, CancelInLoop, Rearm, TakeExpired, ArmFirst;
  }

  /**
   * After a whole read, every timer of its batch is settled: one that repeats and is not canceled is filed again,
   * an interval after a clock reading of this read; a one-shot or canceled one is gone.
   */
  lemma ReadRefiles(m: Machine, w: World, id: TimerId)
    requires Inv(m) && m.phase.Idle? && Plausible(w) && id in Batch(m, w)
    ensures Settled(Execute(m, ReadActions(m, w)), id, m.clock)
  {
    hide Inv, Next, Execute, ReadUpTo, RearmTurns, Batch, ArmFirst, Settled;
    var n := |Batch(m, w)|;
    var upTo := ReadUpTo(m, w, n);
    var m3 := Execute(m, upTo);
    CalledBatch(m, w);
    var m4 := Next(m3, EndCalling);
    NextKeepsInv(m3, EndCalling);
    NextEndCalling(m3);
    var m5 := Execute(m4, RearmTurns(w, n));
    RearmTurnsSettle(m4, w, n, m.clock);
    EndKeepsSettled(m5, id, m.clock);
    ExecuteAppend(m, upTo, [EndCalling]);
    ExecuteOne(m3, EndCalling);
    ExecuteAppend(m, upTo + [EndCalling], RearmTurns(w, n));
    ExecuteAppend(m, upTo + [EndCalling] + RearmTurns(w, n), [EndRead]);
    ExecuteOne(m5, EndRead);
  }
}
