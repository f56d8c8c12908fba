/** The timer queue refines a plain table of scheduled timers, and keeps time over whole runs. */
module TimerRefinement {
  import opened TimerModel
  import opened TimerProofs

  // ---- a naive timer table ----

  datatype Scheduled = Scheduled(rank: int, expiration: int, interval: nat, repeating: bool)

  // One map and a batch: no order, no second index, no flags, no kernel timer.
  datatype Table = Table(
    timers: map<TimerId, Scheduled>,
    used: set<TimerId>,
    phase: Phase,
    clock: int,
    log: seq<Firing>)

  ghost function TimersOf(q: Queue): map<TimerId, Scheduled>
    requires Wf(q)
  {
    map id | id in q.active ::
      Scheduled(q.pool[id].rank, q.pool[id].expiration, q.pool[id].interval, q.pool[id].repeating)
  }

  ghost function Abstract(m: Machine): Table
    requires Wf(m.q)
  {
    Table(TimersOf(m.q), m.q.pool.Keys, m.phase, m.clock, m.log)
  }

  predicate DueBefore(t: Table, a: TimerId, b: TimerId)
    requires a in t.timers && b in t.timers
  {
    t.timers[a].expiration <= t.timers[b].expiration
  }

  /** `batch` lists exactly the timers due at the table's clock, once each, earliest first. */
  ghost predicate DueInOrder(t: Table, batch: seq<TimerId>) {
    && (forall id :: id in batch <==> id in t.timers && t.timers[id].expiration <= t.clock)
    && (forall i, j :: 0 <= i < j < |batch| ==> batch[i] != batch[j] && DueBefore(t, batch[i], batch[j]))
  }

  /** What the table allows for each action. */
  ghost predicate TableStep(t: Table, a: Action, t': Table) {
    match a
    case Advance(time) => t' == t.(clock := time)
    case Expire => t' == t
    case Reserve => t' == t
    case AddLate(id, rank, interval, repeating, delay) =>
      id !in t.used && t' == Schedule(t, id, rank, interval, repeating, delay)
    case Add(rank, interval, repeating, delay) =>
      exists id :: id !in t.used && t' == Schedule(t, id, rank, interval, repeating, delay)
    case Cancel(id) => t' == t.(timers := t.timers - {id})
    case BeginRead =>
      t'.phase.Calling? && t'.phase.next == 0 && DueInOrder(t, t'.phase.batch) && t' == t.(phase := t'.phase)
    case FireNext =>
      && t.phase.Calling? && t.phase.next < |t.phase.batch|
      && var id := t.phase.batch[t.phase.next];
         t' == t.(phase := Calling(t.phase.batch, t.phase.next + 1),
                  log := if id in t.timers then t.log + [Firing(id, t.clock)] else t.log)
    case EndCalling =>
      t.phase.Calling? && t.phase.next == |t.phase.batch| && t' == t.(phase := Rearming(t.phase.batch, 0))
    case RearmNext =>
      && t.phase.Rearming? && t.phase.next < |t.phase.batch|
      && t' == t.(phase := Rearming(t.phase.batch, t.phase.next + 1),
                  timers := Reschedule(t.timers, t.phase.batch[t.phase.next], t.clock))
    case EndRead => t' == t.(phase := Idle)
  }

  function Schedule(t: Table, id: TimerId, rank: int, interval: nat, repeating: bool, delay: nat): Table {
    t.(timers := t.timers[id := Scheduled(rank, Deadline(t.clock, delay), interval, repeating)], used := t.used + {id})
  }

  /** A timer that has fired: a repeating one is due an interval from now, a one-shot is gone. */
  function Reschedule(timers: map<TimerId, Scheduled>, id: TimerId, clock: int): map<TimerId, Scheduled> {
    if id !in timers then timers
    else if timers[id].repeating then timers[id := timers[id].(expiration := Deadline(clock, timers[id].interval))]
    else timers - {id}
  }

  lemma FiledInTable(m: Machine, i: nat)
    requires Inv(m) && m.phase.Idle? && i < |m.q.timers|
    ensures var e := m.q.timers[i]; e.id in TimersOf(m.q) && TimersOf(m.q)[e.id].expiration == e.when
  {
    assert m.q.timers[i] in m.q.timers;
  }

  lemma BatchIsDue(m: Machine, id: TimerId)
    requires Inv(m) && m.phase.Idle? && id in TakeExpired(m.q, m.clock).1
    ensures id in TimersOf(m.q) && TimersOf(m.q)[id].expiration <= m.clock
  {
    hide Inv, TimersOf;
    var batch := TakeExpired(m.q, m.clock).1;
    var i :| 0 <= i < |batch| && batch[i] == id;
    FiledInTable(m, i);
    assert m.q.timers[i].when <= m.clock;
  }

  lemma DueIsInBatch(m: Machine, id: TimerId)
    requires Inv(m) && m.phase.Idle? && id in TimersOf(m.q) && TimersOf(m.q)[id].expiration <= m.clock
    ensures id in TakeExpired(m.q, m.clock).1
  {
    var k := DueCount(m.q.timers, m.clock);
    var e := EntryOf(m.q, id);
    assert e in m.q.timers;
    var i :| 0 <= i < |m.q.timers| && m.q.timers[i] == e;
    assert forall j :: k < j < |m.q.timers| ==> Before(m.q.timers[k], m.q.timers[j]);
    assert Ids(m.q.timers[..k])[i] == id;
  }

  lemma BatchOrder(m: Machine, i: nat, j: nat)
    requires Inv(m) && m.phase.Idle? && i < j < |TakeExpired(m.q, m.clock).1|
    ensures var batch := TakeExpired(m.q, m.clock).1;
            && batch[i] in TimersOf(m.q) && batch[j] in TimersOf(m.q) && batch[i] != batch[j]
            && TimersOf(m.q)[batch[i]].expiration <= TimersOf(m.q)[batch[j]].expiration
  {
    DistinctIds(m.q);
    assert Before(m.q.timers[i], m.q.timers[j]);
    hide Inv, TimersOf;
    FiledInTable(m, i);
    FiledInTable(m, j);
  }

  lemma InvIsWf(m: Machine)
    requires Inv(m)
    ensures Wf(m.q)
  {
  }

  lemma BatchIsDueInOrder(m: Machine)
    requires Inv(m) && m.phase.Idle?
    ensures DueInOrder(Abstract(m), TakeExpired(m.q, m.clock).1)
  {
    InvIsWf(m);
    hide Inv, TimersOf, TakeExpired;
    var batch := TakeExpired(m.q, m.clock).1;
    var t := Abstract(m);
    forall id
      ensures id in batch <==> id in t.timers && t.timers[id].expiration <= t.clock
    {
      if id in batch {
        BatchIsDue(m, id);
      } else if id in t.timers && t.timers[id].expiration <= t.clock {
        DueIsInBatch(m, id);
      }
    }
    forall i, j | 0 <= i < j < |batch|
      ensures batch[i] != batch[j] && batch[i] in t.timers && batch[j] in t.timers && DueBefore(t, batch[i], batch[j])
    {
      BatchOrder(m, i, j);
    }
  }

  lemma AddTimers(q: Queue, id: TimerId, rank: int, interval: nat, repeating: bool, delay: nat, now: int)
    requires Wf(q)
    ensures var r := AddInLoop(q, id, rank, interval, repeating, delay, now);
            Wf(r) && TimersOf(r) == TimersOf(q)[id := Scheduled(rank, Deadline(now, delay), interval, repeating)]
  {
  }

  lemma CancelTimers(q: Queue, id: TimerId)
    requires Wf(q)
    ensures Wf(CancelInLoop(q, id)) && TimersOf(CancelInLoop(q, id)) == TimersOf(q) - {id}
  {
  }

  lemma RearmTimers(q: Queue, id: TimerId, now: int)
    requires Wf(q) && id in q.pool && (id in q.active ==> !q.pool[id].canceled)
    ensures Wf(Rearm(q, id, now)) && TimersOf(Rearm(q, id, now)) == Reschedule(TimersOf(q), id, now)
  {
    if id in q.active && q.pool[id].repeating {
      assert TimersOf(Rearm(q, id, now)).Keys == TimersOf(q).Keys;
    }
  }

  lemma AddRefines(m: Machine, rank: int, interval: nat, repeating: bool, delay: nat)
    requires Inv(m) && !m.phase.Rearming?
    ensures var a := Add(rank, interval, repeating, delay);
            Wf(Next(m, a).q) && TableStep(Abstract(m), a, Abstract(Next(m, a)))
  {
    hide Next;
    NextAdd(m, rank, interval, repeating, delay);
    AddTimers(m.q.(nextId := m.q.nextId + 1), m.q.nextId, rank, interval, repeating, delay, m.clock);
    assert TimersOf(m.q.(nextId := m.q.nextId + 1)) == TimersOf(m.q);
    var a := Add(rank, interval, repeating, delay);
    assert Abstract(Next(m, a)) == Schedule(Abstract(m), m.q.nextId, rank, interval, repeating, delay);
  }

  lemma AddLateRefines(m: Machine, id: TimerId, rank: int, interval: nat, repeating: bool, delay: nat)
    requires Inv(m) && Enabled(m, AddLate(id, rank, interval, repeating, delay))
    ensures var a := AddLate(id, rank, interval, repeating, delay);
            Wf(Next(m, a).q) && TableStep(Abstract(m), a, Abstract(Next(m, a)))
  {
    AddTimers(m.q, id, rank, interval, repeating, delay, m.clock);
    hide Inv, TimersOf;
  }

  lemma CancelRefines(m: Machine, id: TimerId)
    requires Inv(m) && !m.phase.Rearming? && Wf(m.q)
    ensures Wf(Next(m, Cancel(id)).q) && TableStep(Abstract(m), Cancel(id), Abstract(Next(m, Cancel(id))))
  {
    hide Next, TimersOf, Inv;
    NextCancel(m, id);
    CancelTimers(m.q, id);
  }

  lemma BeginReadRefines(m: Machine)
    requires Inv(m) && m.phase.Idle?
    ensures Wf(Next(m, BeginRead).q) && TableStep(Abstract(m), BeginRead, Abstract(Next(m, BeginRead)))
  {
    hide Next, DueInOrder;
    NextBeginRead(m);
    BatchIsDueInOrder(m);
    assert TimersOf(Next(m, BeginRead).q) == TimersOf(m.q);
  }

  lemma FireRefines(m: Machine)
    requires Inv(m) && Enabled(m, FireNext)
    ensures Wf(Next(m, FireNext).q) && TableStep(Abstract(m), FireNext, Abstract(Next(m, FireNext)))
  {
    hide Next;
    NextFire(m);
    assert m.phase.batch[m.phase.next] in Pending(m.phase);
  }

  lemma RearmRefines(m: Machine)
    requires Inv(m) && Enabled(m, RearmNext)
    ensures Wf(Next(m, RearmNext).q) && TableStep(Abstract(m), RearmNext, Abstract(Next(m, RearmNext)))
  {
    assert m.phase.batch[m.phase.next] == Pending(m.phase)[0];
    RearmTimers(m.q, m.phase.batch[m.phase.next], m.clock);
    NextRearm(m);
    hide Next, Inv, TimersOf, Rearm, Reschedule;
    RearmKeepsPool(m.q, m.phase.batch[m.phase.next], m.clock);
  }

  lemma RearmKeepsPool(q: Queue, id: TimerId, now: int)
    requires id in q.pool
    ensures Rearm(q, id, now).pool.Keys == q.pool.Keys
  {
  }

  lemma OtherRefines(m: Machine, a: Action)
    requires Inv(m) && Enabled(m, a) && (a.Advance? || a.Expire? || a.Reserve? || a.EndCalling? || a.EndRead?)
    ensures Wf(Next(m, a).q) && TableStep(Abstract(m), a, Abstract(Next(m, a)))
  {
    assert TimersOf(Next(m, a).q) == TimersOf(m.q);
  }

  /** Refinement: each action of the queue is a step of the table, and the same callbacks run at the same times. */
  lemma NextRefines(m: Machine, a: Action)
    requires Inv(m) && Enabled(m, a)
    ensures Wf(Next(m, a).q) && TableStep(Abstract(m), a, Abstract(Next(m, a)))
  {
    hide TableStep, Abstract, Next;
    match a
    case BeginRead => BeginReadRefines(m);
    case Add(rank, interval, repeating, delay) => AddRefines(m, rank, interval, repeating, delay);
    case AddLate(id, rank, interval, repeating, delay) => AddLateRefines(m, id, rank, interval, repeating, delay);
    case Cancel(id) => CancelRefines(m, id);
    case FireNext => FireRefines(m);
    case RearmNext => RearmRefines(m);
    case _ => OtherRefines(m, a);
  }

  /** Over a whole run, every action that happens is a step of the table. */
  lemma RunRefines(m: Machine, actions: seq<Action>)
    requires Start(m)
    ensures forall k :: 0 <= k < |actions| && Enabled(Execute(m, actions[..k]), actions[k]) ==>
              var r := Execute(m, actions[..k]);
              Wf(r.q) && Wf(Next(r, actions[k]).q) && TableStep(Abstract(r), actions[k], Abstract(Next(r, actions[k])))
  {
    StartInv(m);
    forall k | 0 <= k < |actions| && Enabled(Execute(m, actions[..k]), actions[k])
      ensures var r := Execute(m, actions[..k]);
              Wf(r.q) && Wf(Next(r, actions[k]).q) && TableStep(Abstract(r), actions[k], Abstract(Next(r, actions[k])))
    {
      ExecuteKeepsInv(m, actions[..k]);
      NextRefines(Execute(m, actions[..k]), actions[k]);
    }
  }

  // ---- cancellation ----

  /** A canceled timer stays canceled and is never called again, even from a batch it is already in. */
  lemma {:induction false} CanceledNeverFires(m: Machine, id: TimerId, actions: seq<Action>)
    requires Inv(m) && id in m.q.pool && m.q.pool[id].canceled
    ensures var r := Execute(m, actions);
            && id in r.q.pool && r.q.pool[id].canceled
            && |m.log| <= |r.log| && r.log[..|m.log|] == m.log
            && forall k :: |m.log| <= k < |r.log| ==> r.log[k].id != id
    decreases |actions|
  {
    if actions != [] {
      var init := actions[..|actions| - 1];
      CanceledNeverFires(m, id, init);
      ExecuteKeepsInv(m, init);
      hide Inv, Execute;
      StaysCanceled(Execute(m, init), id, actions[|actions| - 1]);
    }
  }

  lemma StaysCanceled(m: Machine, id: TimerId, a: Action)
    requires Inv(m) && id in m.q.pool && m.q.pool[id].canceled
    ensures var r := Next(m, a);
            && id in r.q.pool && r.q.pool[id].canceled
            && (r.log == m.log || (|r.log| == |m.log| + 1 && r.log[..|m.log|] == m.log && r.log[|m.log|].id != id))
  {
  }

  /** `cancelInLoop` is what cancels: if it finds the timer, no later callback of it ever runs. */
  lemma CancelIsFinal(m: Machine, id: TimerId, actions: seq<Action>)
    requires Inv(m) && !m.phase.Rearming? && id in m.q.active
    ensures var r := Execute(Next(m, Cancel(id)), actions);
            |m.log| <= |r.log| && forall k :: |m.log| <= k < |r.log| ==> r.log[k].id != id
  {
    NextKeepsInv(m, Cancel(id));
    CanceledNeverFires(Next(m, Cancel(id)), id, actions);
  }

  // ---- time ----

  /** In this phase `id` has been called and waits to be filed again or dropped. */
  predicate Called(phase: Phase, id: TimerId) {
    match phase
    case Idle => false
    case Calling(batch, next) => next <= |batch| && id in batch[..next]
    case Rearming(batch, next) => next <= |batch| && id in batch[next..]
  }

  /** A later call of a timer comes at least one interval after an earlier one, and only if it repeats. */
  predicate Spaced(q: Queue, earlier: Firing, time: int)
    requires earlier.id in q.pool
  {
    q.pool[earlier.id].repeating && time >= Deadline(earlier.time, q.pool[earlier.id].interval)
  }

  predicate NotEarly(q: Queue, f: Firing)
    requires f.id in q.pool
  {
    f.time >= Deadline(q.pool[f.id].addedAt, q.pool[f.id].delay)
  }

  /** What the log of calls says about time. */
  ghost predicate LogOnTime(m: Machine) {
    && (forall k :: 0 <= k < |m.log| ==> m.log[k].id in m.q.pool && m.log[k].time <= m.clock && NotEarly(m.q, m.log[k]))
    && (forall j, k :: 0 <= j < k < |m.log| && m.log[j].id == m.log[k].id ==> Spaced(m.q, m.log[j], m.log[k].time))
  }

  /** What the timers still to be called promise. */
  ghost predicate Timely(m: Machine) {
    && Wf(m.q)
    && LogOnTime(m)
    && (forall id :: id in m.q.active ==> m.q.pool[id].expiration >= Deadline(m.q.pool[id].addedAt, m.q.pool[id].delay))
    && (forall id, k :: id in m.q.active && !Called(m.phase, id) && 0 <= k < |m.log| && m.log[k].id == id ==>
          Spaced(m.q, m.log[k], m.q.pool[id].expiration))
    && (m.phase.Calling? ==> forall id :: id in m.phase.batch ==> id in m.q.pool && m.q.pool[id].expiration <= m.clock)
    && (m.phase.Rearming? ==>
          forall id :: id in Pending(m.phase) ==> id in m.q.pool && m.q.pool[id].expiration <= m.clock)
  }

  lemma OtherStaysTimely(m: Machine, a: Action)
    requires Inv(m) && Timely(m) && Enabled(m, a)
    requires a.Advance? || a.Expire? || a.Reserve? || a.EndCalling? || a.EndRead?
    ensures Timely(Next(m, a))
  {
    if a == EndCalling {
      assert m.phase.batch[..|m.phase.batch|] == m.phase.batch == m.phase.batch[0..];
    }
  }

  lemma NextStaysTimely(m: Machine, a: Action)
    requires Inv(m) && Timely(m)
    ensures Timely(Next(m, a))
  {
    hide Inv, Timely, Effect;
    if Enabled(m, a) {
      match a
      case FireNext => FireNextStaysTimely(m);
      case RearmNext => RearmNextStaysTimely(m);
      case BeginRead => BeginReadStaysTimely(m);
      case Add(_, _, _, _) => AddStaysTimely(m, a);
      case AddLate(_, _, _, _, _) => AddStaysTimely(m, a);
      case Cancel(id) => CancelStaysTimely(m, id);
      case _ => OtherStaysTimely(m, a);
    }
  }

  /** The timer `id` is new, and the others are as they were. */
  lemma AddedStaysTimely(m: Machine, r: Machine, id: TimerId)
    requires Timely(m) && id !in m.q.pool && id in r.q.pool && Wf(r.q)
    requires r.phase == m.phase && r.clock == m.clock && r.log == m.log
    requires r.q.pool == m.q.pool[id := r.q.pool[id]] && r.q.active == m.q.active + {id}
    requires r.q.pool[id].expiration >= Deadline(r.q.pool[id].addedAt, r.q.pool[id].delay)
    ensures Timely(r)
  {
    hide Deadline, Called;
    assert forall k :: 0 <= k < |m.log| ==> m.log[k].id != id;
  }

  lemma AddStaysTimely(m: Machine, a: Action)
    requires Inv(m) && Timely(m) && Enabled(m, a) && (a.Add? || a.AddLate?)
    ensures Timely(Next(m, a))
  {
    var id := if a.Add? then m.q.nextId else a.id;
    NewIdIsFree(m.q, Pending(m.phase));
    hide Timely, Inv, Insert;
    assert Wf(m.q) by { InvIsWf(m); }
    AddedStaysTimely(m, Next(m, a), id);
  }

  lemma CancelStaysTimely(m: Machine, id: TimerId)
    requires Inv(m) && Timely(m) && Enabled(m, Cancel(id))
    ensures Timely(Next(m, Cancel(id)))
  {
  }

  lemma BeginReadStaysTimely(m: Machine)
    requires Inv(m) && Timely(m) && Enabled(m, BeginRead)
    ensures Timely(Next(m, BeginRead))
  {
    BatchIsDueInOrder(m);
  }

  lemma FireNextStaysTimely(m: Machine)
    requires Inv(m) && Timely(m) && Enabled(m, FireNext)
    ensures Timely(Next(m, FireNext))
  {
    var r := Next(m, FireNext);
    var batch, n := m.phase.batch, m.phase.next;
    var id := batch[n];
    assert batch[..n + 1] == batch[..n] + [id];
    assert !Called(m.phase, id);
    assert Called(r.phase, id);
  }

  /** What filing a timer again means for the promises of `Timely`. */
  lemma RearmChanges(m: Machine)
    requires Inv(m) && Timely(m) && Enabled(m, RearmNext)
    ensures var r := Next(m, RearmNext);
            var id := m.phase.batch[m.phase.next];
            && Wf(r.q) && r.clock == m.clock && r.log == m.log && r.q.active <= m.q.active
            && r.phase == Rearming(m.phase.batch, m.phase.next + 1)
            && r.q.pool == m.q.pool[id := m.q.pool[id].(expiration := r.q.pool[id].expiration)]
            && (id in r.q.active ==>
                  r.q.pool[id].expiration == Deadline(m.clock, m.q.pool[id].interval) && m.q.pool[id].repeating)
            && (id !in r.q.active ==> r.q.pool == m.q.pool)
            && (forall other :: other in m.q.active && other != id ==> other in r.q.active)
            && id !in r.phase.batch[r.phase.next..] && Pending(m.phase) == [id] + Pending(r.phase)
            && m.q.pool[id].expiration <= m.clock
  {
    hide Next, Insert, LogOnTime, Deadline;
    NextRearm(m);
    var batch, n := m.phase.batch, m.phase.next;
    assert batch[n..] == [batch[n]] + batch[n + 1..];
    assert batch[n] in Pending(m.phase);
    assert forall j :: 0 < j < |Pending(m.phase)| ==> Pending(m.phase)[j] != batch[n];
  }

  lemma RearmNextStaysTimely(m: Machine)
    requires Inv(m) && Timely(m) && Enabled(m, RearmNext)
    ensures Timely(Next(m, RearmNext))
  {
    hide Inv, Next;
    RearmChanges(m);
    var r := Next(m, RearmNext);
    var id := m.phase.batch[m.phase.next];
    forall other, k | other in r.q.active && !Called(r.phase, other) && 0 <= k < |r.log| && r.log[k].id == other
      ensures Spaced(r.q, r.log[k], r.q.pool[other].expiration)
    {
      assert other != id ==> !Called(m.phase, other);
    }
  }

  lemma {:induction false} ExecuteStaysTimely(m: Machine, actions: seq<Action>)
    requires Inv(m) && Timely(m)
    ensures Timely(Execute(m, actions))
    decreases |actions|
  {
    if actions != [] {
      var init := actions[..|actions| - 1];
      ExecuteStaysTimely(m, init);
      ExecuteKeepsInv(m, init);
      NextStaysTimely(Execute(m, init), actions[|actions| - 1]);
    }
  }

  // ---- what was asked for ----

  // A timer as it was asked for, when its add ran.
  datatype Request = Request(time: int, delay: nat, interval: nat, repeating: bool)

  /** What a run has asked for, by timer. */
  function Requests(m: Machine, actions: seq<Action>): map<TimerId, Request> {
    if actions == [] then map[]
    else
      var init, last := actions[..|actions| - 1], actions[|actions| - 1];
      var r := Execute(m, init);
      match last
      case Add(_, interval, repeating, delay) =>
        if r.phase.Rearming? then Requests(m, init)
        else Requests(m, init)[r.q.nextId := Request(r.clock, delay, interval, repeating)]
      case AddLate(id, _, interval, repeating, delay) =>
        if !(r.phase.Idle? && 0 < id < r.q.nextId && id !in r.q.pool) then Requests(m, init)
        else Requests(m, init)[id := Request(r.clock, delay, interval, repeating)]
      case _ => Requests(m, init)
  }

  function RequestOf(d: TimerData): Request {
    Request(d.addedAt, d.delay, d.interval, d.repeating)
  }

  function RequestsOf(q: Queue): map<TimerId, Request> {
    map id | id in q.pool :: RequestOf(q.pool[id])
  }

  lemma NextRequests(m: Machine, a: Action)
    ensures var asked := RequestsOf(m.q);
            RequestsOf(Next(m, a).q) ==
            match a
            case Add(_, interval, repeating, delay) =>
              if m.phase.Rearming? then asked else asked[m.q.nextId := Request(m.clock, delay, interval, repeating)]
            case AddLate(id, _, interval, repeating, delay) =>
              if !(m.phase.Idle? && 0 < id < m.q.nextId && id !in m.q.pool) then asked
              else asked[id := Request(m.clock, delay, interval, repeating)]
            case _ => asked
  {
    hide Insert, Erase, Deadline;
    if Enabled(m, a) {
      match a
      case Cancel(id) => CancelRequests(m.q, id);
      case RearmNext => RearmRequests(m.q, m.phase.batch[m.phase.next], m.clock);
      case _ =>
    }
  }

  lemma CancelRequests(q: Queue, id: TimerId)
    requires Wf(q)
    ensures RequestsOf(CancelInLoop(q, id)) == RequestsOf(q)
  {
    hide Erase;
  }

  lemma RearmRequests(q: Queue, id: TimerId, now: int)
    requires id in q.pool
    ensures RequestsOf(Rearm(q, id, now)) == RequestsOf(q)
  {
    hide Insert, Deadline;
  }

  /** The timers of a run are those asked for, each with what was asked. */
  lemma {:induction false} TimersAreAsAsked(m: Machine, actions: seq<Action>)
    requires Start(m)
    ensures RequestsOf(Execute(m, actions).q) == Requests(m, actions)
    decreases |actions|
  {
    hide Next, RequestsOf;
    if actions == [] {
      NothingAsked(m);
    } else {
      TimersAreAsAsked(m, actions[..|actions| - 1]);
      NextRequests(Execute(m, actions[..|actions| - 1]), actions[|actions| - 1]);
      SamePool(Execute(m, actions[..|actions| - 1]));
    }
  }

  lemma NothingAsked(m: Machine)
    requires Start(m)
    ensures RequestsOf(m.q) == map[]
  {
  }

  lemma SamePool(m: Machine)
    ensures RequestsOf(m.q).Keys == m.q.pool.Keys
  {
  }

  /** From `start` to `time` the whole `span` has passed, unless the clock has run out. */
  predicate Waited(start: int, span: nat, time: int) {
    time >= start + span || time >= INT64_MAX
  }

  /**
   * Timing over every run: no call comes before scheduling time plus delay, two calls of one timer are at least
   * its interval apart, and a one-shot is called at most once.
   */
  lemma {:induction false} CallsAreOnTime(m: Machine, actions: seq<Action>)
    requires Start(m)
    ensures var r := Execute(m, actions);
            var asked := Requests(m, actions);
            && (forall k :: 0 <= k < |r.log| ==>
                  && r.log[k].id in asked
                  && Waited(asked[r.log[k].id].time, asked[r.log[k].id].delay, r.log[k].time))
            && (forall j, k :: 0 <= j < k < |r.log| && r.log[j].id == r.log[k].id ==>
                  && asked[r.log[j].id].repeating
                  && Waited(r.log[j].time, asked[r.log[j].id].interval, r.log[k].time))
  {
    hide Execute, Requests;
    StartInv(m);
    ExecuteStaysTimely(m, actions);
    TimersAreAsAsked(m, actions);
    var r := Execute(m, actions);
    forall k | 0 <= k < |r.log|
      ensures r.log[k].id in RequestsOf(r.q) && RequestsOf(r.q)[r.log[k].id] == RequestOf(r.q.pool[r.log[k].id])
    {
    }
  }
}
