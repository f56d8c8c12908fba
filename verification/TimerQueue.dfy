/** `TimerQueue` as an object: its methods update timers in place and refine the actions of `TimerModel`. */
module TimerQueues {
  import opened TimerModel
  import opened TimerProofs
  import opened TimerRead

  class Timer {
    const id: TimerId
    const rank: int // the address, which orders timers of equal expiration
    const interval: nat
    const repeating: bool
    var expiration: int
    var canceled: bool
    ghost var addedAt: int
    ghost var delay: nat

    constructor (id: TimerId, rank: int, interval: nat, repeating: bool)
      ensures this.id == id && this.rank == rank && this.interval == interval && this.repeating == repeating
      ensures !canceled
    {
      this.id, this.rank, this.interval, this.repeating := id, rank, interval, repeating;
      expiration, canceled := 0, false;
    }

    method Schedule(now: int, delay: nat)
      modifies this`expiration, this`addedAt, this`delay
      ensures expiration == Deadline(now, delay)
      ensures Data() == TimerData(rank, expiration, interval, repeating, old(canceled), now, delay)
    {
      expiration := if delay > INT64_MAX - now then INT64_MAX else now + delay;
      addedAt, this.delay := now, delay;
    }

    ghost function Data(): TimerData
      reads this
    {
      TimerData(rank, expiration, interval, repeating, canceled, addedAt, delay)
    }
  }

  /** A time in microseconds. */
  function Micros(seconds: real): (us: nat)
    ensures us == SecondsToMicroseconds(seconds)
  {
    SecondsToMicrosecondsRange(seconds, seconds);
    SecondsToMicroseconds(seconds)
  }

  class TimerQueue {
    var timers: seq<Entry>
    var activeTimers: map<TimerId, Timer>
    var nextTimerId: TimerId
    var timerfd: Kernel
    var clock: int // what CLOCK_MONOTONIC reads, in microseconds
    var pool: map<TimerId, Timer> // the object each entry of `timers` points to
    ghost var data: map<TimerId, TimerData> // the contents of those objects
    ghost var repr: set<Timer> // those objects
    ghost var model: Machine // the state as `TimerModel` sees it

    /** Each id has its own object, and `data` is up to date. */
    ghost predicate ObjectsOk()
      reads `pool, `data, `repr, repr
    {
      && data.Keys == pool.Keys
      && (forall id :: id in pool ==> pool[id] in repr && pool[id].id == id && pool[id].Data() == data[id])
    }

    /** The id map points to the same objects as the ordered set. */
    ghost predicate SharesObjects()
      reads `pool, `activeTimers
    {
      forall id :: id in activeTimers ==> id in pool && activeTimers[id] == pool[id]
    }

    ghost predicate Mirrors()
      reads this
    {
      && model.q == Queue(data, timers, activeTimers.Keys, timerfd, nextTimerId)
      && model.clock == clock
      && data.Keys == pool.Keys
    }

    ghost predicate Valid()
      reads this, repr
    {
      ObjectsOk() && SharesObjects() && Mirrors()
    }

    constructor (clock: int)
      requires 0 <= clock <= INT64_MAX
      ensures Valid() && pool == map[] && Start(model) && this.clock == clock
    {
      timers, activeTimers, nextTimerId, timerfd := [], map[], 1, Disarmed;
      this.clock, pool, data, repr := clock, map[], map[], {};
      model := Machine(Queue(map[], [], {}, Disarmed, 1), Idle, clock, []);
    }

    // ---- writing timer objects ----

    /** A new object, shared by both indexes. */
    method PutObject(timer: Timer)
      requires ObjectsOk() && SharesObjects() && timer !in repr && timer.id !in pool
      modifies this`pool, this`data, this`repr, this`activeTimers
      ensures ObjectsOk() && SharesObjects() && repr == old(repr) + {timer}
      ensures pool == old(pool)[timer.id := timer] && data == old(data)[timer.id := timer.Data()]
      ensures activeTimers.Keys == old(activeTimers.Keys) + {timer.id}
    {
      pool, data, repr := pool[timer.id := timer], data[timer.id := timer.Data()], repr + {timer};
      activeTimers := activeTimers[timer.id := timer];
    }

    method SetCanceled(timer: Timer)
      requires ObjectsOk() && timer.id in pool && pool[timer.id] == timer
      modifies timer`canceled, this`data
      ensures ObjectsOk() && data == old(data)[timer.id := old(data)[timer.id].(canceled := true)]
    {
      timer.canceled := true;
      data := data[timer.id := timer.Data()];
    }

    method SetExpiration(timer: Timer, expiration: int)
      requires ObjectsOk() && timer.id in pool && pool[timer.id] == timer
      modifies timer`expiration, this`data
      ensures ObjectsOk() && data == old(data)[timer.id := old(data)[timer.id].(expiration := expiration)]
      ensures timer.expiration == expiration
    {
      timer.expiration := expiration;
      data := data[timer.id := timer.Data()];
    }

    lemma ObjectData(id: TimerId)
      requires ObjectsOk() && id in pool
      ensures id in data && pool[id].Data() == data[id] && pool[id].id == id && pool[id] in repr
    {
    }

    lemma ActiveInPool()
      requires Valid()
      ensures Wf(model.q)
    {
    }

    // ---- the world outside ----

    method AdvanceClock(time: int)
      requires Valid()
      modifies this`clock, this`model
      ensures Valid() && model == Next(old(model), Advance(time))
    {
      hide Next, ObjectsOk, SharesObjects;
      NextAdvance(model, time);
      model := Next(model, Advance(time));
      if clock <= time <= INT64_MAX {
        clock := time;
      }
    }

    method KernelExpires()
      requires Valid()
      modifies this`timerfd, this`model
      ensures Valid() && model == Next(old(model), Expire)
    {
      hide Next, ObjectsOk, SharesObjects;
      NextExpire(model);
      model := Next(model, Expire);
      if timerfd.Armed? && timerfd.at <= clock {
        timerfd := Fired(timerfd.at);
      }
    }

    // ---- TimerQueue's own methods ----

    method ResetTimerfd(expiration: int)
      modifies this`timerfd
      ensures timerfd == Reset(expiration)
    {
      timerfd := if expiration > 0 then Armed(expiration) else Disarmed;
    }

    /** `fetch_add` on the id counter and `make_shared`; may run on any thread. */
    method NewTimer(rank: int, interval: nat, repeating: bool) returns (timer: Timer)
      requires Valid()
      modifies this`nextTimerId, this`model
      ensures Valid() && model == Next(old(model), Reserve)
      ensures fresh(timer) && timer.id == old(nextTimerId) && timer.rank == rank
      ensures timer.interval == interval && timer.repeating == repeating && !timer.canceled
    {
      hide Next, ObjectsOk, SharesObjects;
      NextReserve(model);
      model := Next(model, Reserve);
      timer := new Timer(nextTimerId, rank, interval, repeating);
      nextTimerId := nextTimerId + 1;
    }

    method AddTimerInLoop(timer: Timer, delay: nat)
      requires Valid() && timer.id !in pool && timer !in repr && !timer.canceled
      modifies this, timer
      ensures Valid() && pool == old(pool)[timer.id := timer] && repr == old(repr) + {timer}
      ensures var m := old(model);
              model == m.(q := AddInLoop(m.q, timer.id, timer.rank, timer.interval, timer.repeating, delay, m.clock))
    {
      hide ObjectsOk, SharesObjects, Insert;
      ghost var m := model;
      AddScheduled(timer, delay);
      model := m.(q := AddInLoop(m.q, timer.id, timer.rank, timer.interval, timer.repeating, delay, clock));
    }

    /** The timer gets its expiration and enters both indexes; if it is now the first, it is watched. */
    method AddScheduled(timer: Timer, delay: nat)
      requires ObjectsOk() && SharesObjects() && timer.id !in pool && timer !in repr && !timer.canceled
      modifies this`pool, this`data, this`repr, this`timers, this`activeTimers, this`timerfd, timer
      ensures ObjectsOk() && SharesObjects() && pool == old(pool)[timer.id := timer] && repr == old(repr) + {timer}
      ensures var when := Deadline(clock, delay);
              && data == old(data)[timer.id :=
                   TimerData(timer.rank, when, timer.interval, timer.repeating, false, clock, delay)]
              && timers == Insert(old(timers), Entry(when, timer.rank, timer.id))
              && timerfd == if old(timers) == [] || when < old(timers)[0].when then Reset(when) else old(timerfd)
      ensures activeTimers.Keys == old(activeTimers.Keys) + {timer.id}
    {
      hide ObjectsOk, SharesObjects, Insert;
      timer.Schedule(clock, delay);
      assert ObjectsOk() && SharesObjects();
      var isFirst := File(timer);
      PutObject(timer);
      if isFirst {
        ResetTimerfd(timer.expiration);
      }
    }

    /** Puts a timer into the ordered set under its expiration; tells whether it comes before all others. */
    method File(timer: Timer) returns (isFirst: bool)
      modifies this`timers
      ensures timers == Insert(old(timers), Entry(timer.expiration, timer.rank, timer.id))
      ensures isFirst == (old(timers) == [] || timer.expiration < old(timers)[0].when)
    {
      isFirst := timers == [] || timer.expiration < timers[0].when;
      timers := Insert(timers, Entry(timer.expiration, timer.rank, timer.id));
    }

    /** The timer of an id is scheduled, with these parameters. */
    ghost predicate Scheduled(id: TimerId, delay: real, interval: real, rank: int)
      reads this, repr
    {
      && id in pool && pool[id] in repr && id in activeTimers && activeTimers[id] == pool[id]
      && var timer := pool[id];
         && timer.id == id && timer.rank == rank && !timer.canceled
         && timer.repeating == (interval > 0.0) && timer.interval == Micros(interval)
         && timer.expiration == Deadline(clock, Micros(delay))
         && Entry(timer.expiration, rank, id) in timers
    }

    /**
     * `addTimer` called on the loop thread. Bad arguments give id 0 and change nothing; otherwise the result
     * is an id never used before, and its timer is scheduled as asked: repeating exactly for a positive interval.
     */
    method AddTimer(hasCallback: bool, delay: real, interval: real, rank: int) returns (id: TimerId)
      requires Valid() && Inv(model) && !model.phase.Rearming?
      modifies this
      ensures Valid() && Inv(model) && Grown(old(pool)) && fresh(repr - old(repr))
      ensures id == 0 <==> !hasCallback || delay < 0.0 || interval < 0.0
      ensures id == 0 ==> model == old(model)
      ensures id != 0 ==> id !in old(pool) && clock == old(clock) && Scheduled(id, delay, interval, rank)
      ensures id != 0 ==> model == Next(old(model), Add(rank, Micros(interval), interval > 0.0, Micros(delay)))
    {
      if !hasCallback || delay < 0.0 || interval < 0.0 {
        return 0;
      }
      id := nextTimerId;
      NextIdIsNew(model);
      ghost var m := model;
      hide Inv, Next, Micros, Valid;
      AddNow(rank, Micros(interval), interval > 0.0, Micros(delay));
      AddedIsThere(m, rank, Micros(interval), interval > 0.0, Micros(delay));
      MirrorsTimer(id);
    }

    /** What the model says of a timer, the objects say. */
    lemma MirrorsTimer(id: TimerId)
      requires Valid() && id in model.q.pool && id in model.q.active
      ensures id in pool && pool[id] in repr && pool[id].Data() == model.q.pool[id] && pool[id].id == id
      ensures id in activeTimers && activeTimers[id] == pool[id] && timers == model.q.timers && clock == model.clock
    {
    }

    /** `addTimer` called on another thread: the id is taken and the timer made; its task has yet to run. */
    method AddTimerElsewhere(hasCallback: bool, delay: real, interval: real, rank: int)
      returns (id: TimerId, timer: Timer?)
      requires Valid() && Inv(model)
      modifies this`nextTimerId, this`model
      ensures Valid() && Inv(model)
      ensures id == 0 <==> !hasCallback || delay < 0.0 || interval < 0.0
      ensures id == 0 <==> timer == null
      ensures model == if id == 0 then old(model) else Next(old(model), Reserve)
      ensures timer != null ==>
                && fresh(timer) && timer.id == id == old(nextTimerId) && id !in pool
                && timer.rank == rank && timer.interval == Micros(interval)
                && timer.repeating == (interval > 0.0) && !timer.canceled
    {
      hide Inv, Next, ObjectsOk, SharesObjects;
      if !hasCallback || delay < 0.0 || interval < 0.0 {
        return 0, null;
      }
      NextKeepsInv(model, Reserve);
      NextIdIsNew(model);
      timer := NewTimer(rank, Micros(interval), interval > 0.0);
      id := timer.id;
    }

    /** The task of such a call, on the loop thread; whatever happened meanwhile, this is the model's late add. */
    method RunAddTask(timer: Timer, delay: real)
      requires Valid() && Inv(model) && model.phase.Idle? && 0.0 <= delay
      requires 0 < timer.id < nextTimerId && timer.id !in pool && timer !in repr && !timer.canceled
      modifies this, timer
      ensures Valid() && Inv(model) && Grown(old(pool)) && repr == old(repr) + {timer}
      ensures var a := AddLate(timer.id, timer.rank, timer.interval, timer.repeating, Micros(delay));
              model == Next(old(model), a)
    {
      hide Inv, Next, AddInLoop, ObjectsOk, SharesObjects, Micros;
      var a := AddLate(timer.id, timer.rank, timer.interval, timer.repeating, Micros(delay));
      NextKeepsInv(model, a);
      NextAddLate(model, timer.id, timer.rank, timer.interval, timer.repeating, Micros(delay));
      AddTimerInLoop(timer, Micros(delay));
    }

    /** Objects are only ever added to the pool. */
    ghost predicate Grown(was: map<TimerId, Timer>)
      reads `pool
    {
      forall id :: id in was ==> id in pool && pool[id] == was[id]
    }

    method AddNow(rank: int, interval: nat, repeating: bool, delay: nat)
      requires Valid() && Inv(model) && !model.phase.Rearming?
      modifies this
      ensures Valid() && Inv(model) && Grown(old(pool)) && fresh(repr - old(repr))
      ensures model == Next(old(model), Add(rank, interval, repeating, delay))
    {
      hide Inv, Next, AddInLoop, ObjectsOk, SharesObjects;
      NextKeepsInv(model, Add(rank, interval, repeating, delay));
      NextIdIsNew(model);
      NextAdd(model, rank, interval, repeating, delay);
      NextReserve(model);
      var timer := NewTimer(rank, interval, repeating);
      AddTimerInLoop(timer, delay);
    }

    method CancelInLoop(id: TimerId)
      requires Valid() && !model.phase.Rearming?
      modifies this, repr
      ensures Valid() && pool == old(pool) && repr == old(repr)
      ensures model == Next(old(model), Cancel(id))
    {
      ActiveInPool();
      hide Next, ObjectsOk, SharesObjects, Erase;
      NextCancel(model, id);
      model := Next(model, Cancel(id));
      if id in activeTimers {
        CancelFound(id);
      }
    }

    /** The timer is marked canceled and leaves both indexes; if it was the first, the next one is watched. */
    method CancelFound(id: TimerId)
      requires ObjectsOk() && SharesObjects() && id in activeTimers
      modifies this`data, this`timers, this`activeTimers, this`timerfd, repr
      ensures ObjectsOk() && SharesObjects()
      ensures id in old(data) && data == old(data)[id := old(data)[id].(canceled := true)]
      ensures var entry := Entry(old(data)[id].expiration, old(data)[id].rank, id);
              && timers == Erase(old(timers), entry)
              && timerfd == if old(timers) == [] || old(timers)[0] != entry then old(timerfd)
                            else if timers == [] then Reset(0) else Reset(timers[0].when)
      ensures activeTimers == old(activeTimers) - {id}
    {
      hide ObjectsOk, SharesObjects, Erase;
      var timer := Find(id);
      SetCanceled(timer);
      var wasFirst := Unfile(Entry(timer.expiration, timer.rank, timer.id));
      ForgetActive(id);
      if wasFirst {
        WatchFirst();
      }
    }

    /** Takes an entry, if it is there, out of the ordered set; tells whether it was the first. */
    method Unfile(entry: Entry) returns (wasFirst: bool)
      modifies this`timers
      ensures timers == Erase(old(timers), entry) && wasFirst == (old(timers) != [] && old(timers)[0] == entry)
    {
      wasFirst := timers != [] && timers[0] == entry;
      timers := Erase(timers, entry);
    }

    method WatchFirst()
      modifies this`timerfd
      ensures timerfd == if timers == [] then Reset(0) else Reset(timers[0].when)
    {
      if timers == [] {
        ResetTimerfd(0);
      } else {
        ResetTimerfd(timers[0].when);
      }
    }

    /** The id map loses one timer. */
    method ForgetActive(id: TimerId)
      requires SharesObjects()
      modifies this`activeTimers
      ensures SharesObjects() && activeTimers == old(activeTimers) - {id}
    {
      activeTimers := activeTimers - {id};
    }

    /** The timer an id stands for. */
    method Find(id: TimerId) returns (timer: Timer)
      requires ObjectsOk() && SharesObjects() && id in activeTimers
      ensures id in pool && timer == pool[id] && timer in repr && timer.id == id
      ensures id in data && timer.Data() == data[id]
    {
      timer := activeTimers[id];
    }

    // ---- handleRead ----

    /** What a callback does: any adds and cancels, re-entering this object. */
    method RunCallback(script: seq<Action>)
      requires Valid() && Inv(model) && model.phase.Calling?
      requires forall k :: 0 <= k < |script| ==> DuringCallback(script[k])
      modifies this, repr
      ensures Valid() && Inv(model) && Grown(old(pool)) && fresh(repr - old(repr))
      ensures model == Execute(old(model), script) && model.phase == old(model.phase)
    {
      for k := 0 to |script|
        invariant Valid() && Inv(model) && Grown(old(pool)) && fresh(repr - old(repr))
        invariant model == Execute(old(model), script[..k]) && model.phase == old(model.phase)
      {
        hide Inv, Next, Valid;
        assert script[..k + 1][..k] == script[..k];
        NextKeepsInv(model, script[k]);
        RunAction(script[k]);
      }
      assert script[..|script|] == script;
    }

    method RunAction(a: Action)
      requires Valid() && Inv(model) && model.phase.Calling? && DuringCallback(a)
      modifies this, repr
      ensures Valid() && Grown(old(pool)) && fresh(repr - old(repr))
      ensures model == Next(old(model), a) && model.phase == old(model.phase)
    {
      hide Inv, Next, AddInLoop, TimerModel.CancelInLoop, Valid;
      NextPhase(model, a);
      match a {
        case Add(rank, interval, repeating, delay) => AddNow(rank, interval, repeating, delay);
        case Cancel(id) => CancelInLoop(id);
        case Advance(time) => AdvanceClock(time);
        case Expire => KernelExpires();
        case Reserve =>
          var unused := NewTimer(0, 0, false);
      }
    }

    /** `expired` holds the objects of the batch. */
    ghost predicate Holds(expired: seq<Timer>, batch: seq<TimerId>)
      reads `pool
    {
      |expired| == |batch| && forall i :: 0 <= i < |batch| ==> batch[i] in pool && expired[i] == pool[batch[i]]
    }

    /** The objects of the due entries, which come first. */
    method CollectExpired(now: int) returns (expired: seq<Timer>)
      requires forall i :: 0 <= i < |timers| ==> timers[i].id in pool
      ensures |expired| == DueCount(timers, now)
      ensures forall i :: 0 <= i < |expired| ==> expired[i] == pool[timers[i].id]
    {
      expired := [];
      var end := 0;
      while end < |timers| && timers[end].when <= now
        invariant end <= DueCount(timers, now)
        invariant |expired| == end
        invariant forall i :: 0 <= i < end ==> expired[i] == pool[timers[i].id]
      {
        expired := expired + [pool[timers[end].id]];
        end := end + 1;
      }
    }

    /** The timerfd is read and the expired entries are moved into a vector. */
    method TakeBatch() returns (expired: seq<Timer>)
      requires Valid() && Inv(model) && model.phase.Idle?
      modifies this`timers, this`timerfd, this`model
      ensures Valid() && model == Next(old(model), BeginRead)
      ensures model.phase == Calling(TakeExpired(old(model.q), old(model.clock)).1, 0)
      ensures Holds(expired, model.phase.batch)
    {
      hide Inv, Next, ObjectsOk, SharesObjects, DueCount;
      EntriesInPool(model);
      NextBeginRead(model);
      model := Next(model, BeginRead);
      if timerfd.Fired? {
        timerfd := Disarmed;
      }
      expired := CollectExpired(clock);
      timers := timers[|expired|..];
    }

    /** One turn of the first loop. */
    method CallOne(timer: Timer, script: seq<Action>)
      requires Valid() && Inv(model)
      requires model.phase.Calling? && model.phase.next < |model.phase.batch|
      requires model.phase.batch[model.phase.next] in pool && timer == pool[model.phase.batch[model.phase.next]]
      requires forall k :: 0 <= k < |script| ==> DuringCallback(script[k])
      modifies this, repr
      ensures Valid() && Inv(model) && Grown(old(pool)) && fresh(repr - old(repr))
      ensures model.phase == Calling(old(model.phase.batch), old(model.phase.next) + 1)
      ensures model == Execute(Next(old(model), FireNext), if old(timer.canceled) then [] else script)
    {
      hide Inv, Next, ObjectsOk;
      NextKeepsInv(model, FireNext);
      NextFire(model);
      ObjectData(model.phase.batch[model.phase.next]);
      model := Next(model, FireNext);
      if !timer.canceled {
        RunCallback(script);
      }
    }

    /** One turn of the second loop. */
    method RearmOne(timer: Timer)
      requires Valid() && Inv(model)
      requires model.phase.Rearming? && model.phase.next < |model.phase.batch|
      requires model.phase.batch[model.phase.next] in pool && timer == pool[model.phase.batch[model.phase.next]]
      modifies this`model, this`data, this`timers, this`activeTimers, timer
      ensures Valid() && Inv(model)
      ensures model == Next(old(model), RearmNext)
      ensures model.phase == Rearming(old(model.phase.batch), old(model.phase.next) + 1)
    {
      hide Inv, Next, ObjectsOk, SharesObjects, Insert;
      NextKeepsInv(model, RearmNext);
      NextRearm(model);
      ObjectData(model.phase.batch[model.phase.next]);
      model := Next(model, RearmNext);
      if timer.id !in activeTimers || timer.canceled {
        return;
      }
      if timer.repeating {
        SetExpiration(timer, if timer.interval > INT64_MAX - clock then INT64_MAX else clock + timer.interval);
        timers := Insert(timers, Entry(timer.expiration, timer.rank, timer.id));
      } else {
        ForgetActive(timer.id);
      }
    }

    /** A turn of the first loop, in a world that says when it starts and what the callback does. */
    method CallTurnAt(timer: Timer, w: World, i: nat)
      requires Valid() && Inv(model) && Plausible(w)
      requires model.phase.Calling? && i == model.phase.next < |model.phase.batch|
      requires model.phase.batch[i] in pool && timer == pool[model.phase.batch[i]]
      modifies this, repr
      ensures Valid() && Inv(model) && Grown(old(pool)) && fresh(repr - old(repr))
      ensures model.phase == Calling(old(model.phase.batch), i + 1)
      ensures model == Execute(old(model), CallTurn(old(model), w, i))
    {
      hide Inv, Next, Execute, ObjectsOk, SharesObjects;
      ghost var m := model;
      NextAdvance(m, w.starts(i));
      NextKeepsInv(m, Advance(w.starts(i)));
      AdvanceClock(w.starts(i));
      ObjectData(model.phase.batch[i]);
      CallOneExecutes(m, w, i);
      CallOne(timer, w.scripts(i));
    }

    method CallBatch(expired: seq<Timer>, w: World)
      requires Valid() && Inv(model) && Plausible(w)
      requires model.phase.Calling? && model.phase.next == 0 && Holds(expired, model.phase.batch)
      modifies this, repr
      ensures Valid() && Inv(model) && Grown(old(pool)) && fresh(repr - old(repr))
      ensures model.phase == Calling(old(model.phase.batch), |expired|)
      ensures model == Execute(old(model), CallTurns(old(model), w, |expired|))
    {
      hide Inv, Next, Execute, Valid, CallTurn;
      ghost var m, batch := model, model.phase.batch;
      ExecuteNone(m);
      for i := 0 to |expired|
        invariant Valid() && Inv(model) && Grown(old(pool)) && fresh(repr - old(repr))
        invariant model.phase == Calling(batch, i)
        invariant model == Execute(m, CallTurns(m, w, i))
      {
        ghost var r := model;
        CallTurnAt(expired[i], w, i);
        ExecuteAppend(m, CallTurns(m, w, i), CallTurn(r, w, i));
      }
    }

    /** A turn of the second loop. */
    method RearmTurnAt(timer: Timer, time: int)
      requires Valid() && Inv(model)
      requires model.phase.Rearming? && model.phase.next < |model.phase.batch|
      requires model.phase.batch[model.phase.next] in pool && timer == pool[model.phase.batch[model.phase.next]]
      modifies this`model, this`data, this`clock, this`timers, this`activeTimers, timer
      ensures Valid() && Inv(model)
      ensures model.phase == Rearming(old(model.phase.batch), old(model.phase.next) + 1)
      ensures model == Execute(old(model), [Advance(time), RearmNext])
    {
      hide Inv, Next, Execute, Valid;
      NextAdvance(model, time);
      NextKeepsInv(model, Advance(time));
      ExecuteTwo(model, Advance(time), RearmNext);
      AdvanceClock(time);
      RearmOne(timer);
    }

    method RearmBatch(expired: seq<Timer>, w: World)
      requires Valid() && Inv(model)
      requires model.phase.Rearming? && model.phase.next == 0 && Holds(expired, model.phase.batch)
      modifies this`model, this`data, this`clock, this`timers, this`activeTimers, repr
      ensures Valid() && Inv(model)
      ensures model.phase == Rearming(old(model.phase.batch), |expired|)
      ensures model == Execute(old(model), RearmTurns(w, |expired|))
    {
      hide Inv, Next, Execute, Mirrors, SharesObjects;
      ghost var m, batch := model, model.phase.batch;
      ExecuteNone(m);
      for i := 0 to |expired|
        invariant Valid() && Inv(model)
        invariant model.phase == Rearming(batch, i)
        invariant model == Execute(m, RearmTurns(w, i))
      {
        ExecuteAppend(m, RearmTurns(w, i), [Advance(w.restarts(i)), RearmNext]);
        RearmTurnAt(expired[i], w.restarts(i));
      }
    }

    /** The end of `handleRead`: the kernel timer is set for the earliest expiration left. */
    method FinishRead()
      requires Valid()
      requires model.phase.Rearming? && model.phase.next == |model.phase.batch|
      modifies this`model, this`timerfd
      ensures Valid() && model == Next(old(model), EndRead)
    {
      hide Next, ObjectsOk, SharesObjects;
      NextEndRead(model);
      model := Next(model, EndRead);
      if timers != [] {
        ResetTimerfd(timers[0].when);
      }
    }

    /** The start of `handleRead`: the clock is read and the batch taken. */
    method BeginReadAt(now: int) returns (expired: seq<Timer>)
      requires Valid() && Inv(model) && model.phase.Idle?
      modifies this`clock, this`timers, this`timerfd, this`model
      ensures Valid() && Inv(model) && model == Next(Next(old(model), Advance(now)), BeginRead)
      ensures model.phase == Calling(TakeExpired(old(model.q), Next(old(model), Advance(now)).clock).1, 0)
      ensures Holds(expired, model.phase.batch)
    {
      hide Inv, Next, ObjectsOk, SharesObjects;
      NextAdvance(model, now);
      NextKeepsInv(model, Advance(now));
      AdvanceClock(now);
      NextKeepsInv(model, BeginRead);
      expired := TakeBatch();
    }

    /** `handleRead`, in a world that decides the clock readings and what each callback does. */
    method HandleRead(w: World)
      requires Valid() && Inv(model) && model.phase.Idle? && Plausible(w)
      modifies this, repr
      ensures Valid() && Inv(model) && Grown(old(pool)) && fresh(repr - old(repr))
      ensures model == Execute(old(model), ReadActions(old(model), w))
    {
      hide Inv, Next, Execute, Valid;
      ghost var m := model;
      var expired := BeginReadAt(w.now);
      ghost var m2 := model;
      ExecuteTwo(m, Advance(w.now), BeginRead);
      CallBatch(expired, w);
      ghost var m3 := model;
      NextKeepsInv(m3, EndCalling);
      StartRearming();
      RearmBatch(expired, w);
      ghost var m4 := model;
      NextKeepsInv(m4, EndRead);
      FinishRead();
      ReadIsExecuted(m, w, m2, m3, m4);
    }

    ghost method StartRearming()
      requires Valid() && model.phase.Calling? && model.phase.next == |model.phase.batch|
      modifies this`model
      ensures Valid() && model == Next(old(model), EndCalling) && model.phase == Rearming(old(model.phase.batch), 0)
    {
      hide Next, ObjectsOk, SharesObjects;
      NextEndCalling(model);
      model := Next(model, EndCalling);
    }
  }

  lemma AddedIsThere(m: Machine, rank: int, interval: nat, repeating: bool, delay: nat)
    requires !m.phase.Rearming?
    ensures var r := Next(m, Add(rank, interval, repeating, delay));
            var id := m.q.nextId;
            var when := Deadline(m.clock, delay);
            && id in r.q.pool && id in r.q.active && r.clock == m.clock && Entry(when, rank, id) in r.q.timers
            && r.q.pool[id] == TimerData(rank, when, interval, repeating, false, m.clock, delay)
  {
    hide Next, Insert;
    NextAdd(m, rank, interval, repeating, delay);
  }

  lemma NextIdIsNew(m: Machine)
    requires Inv(m)
    ensures 0 < m.q.nextId && m.q.nextId !in m.q.pool
  {
  }

  lemma NextPhase(m: Machine, a: Action)
    requires DuringCallback(a)
    ensures Next(m, a).phase == m.phase
  {
  }

  lemma EntriesInPool(m: Machine)
    requires Inv(m)
    ensures forall i :: 0 <= i < |m.q.timers| ==> m.q.timers[i].id in m.q.pool
  {
    forall i | 0 <= i < |m.q.timers|
      ensures m.q.timers[i].id in m.q.pool
    {
      assert m.q.timers[i] in m.q.timers;
    }
  }

  lemma CallOneExecutes(m: Machine, w: World, i: nat)
    requires m.phase.Calling? && m.phase.next == i < |m.phase.batch| && m.phase.batch[i] in m.q.pool
    ensures Execute(m, CallTurn(m, w, i)) ==
            Execute(Next(Next(m, Advance(w.starts(i))), FireNext),
                    if m.q.pool[m.phase.batch[i]].canceled then [] else w.scripts(i))
  {
    hide Execute, Next;
    NextAdvance(m, w.starts(i));
    ExecuteTwo(m, Advance(w.starts(i)), FireNext);
    var script := if m.q.pool[m.phase.batch[i]].canceled then [] else w.scripts(i);
    ExecuteAppend(m, [Advance(w.starts(i)), FireNext], script);
  }

  lemma ReadIsExecuted(m: Machine, w: World, m2: Machine, m3: Machine, m4: Machine)
    requires m2 == Execute(m, [Advance(w.now), BeginRead])
    requires m3 == Execute(m2, CallTurns(m2, w, |Batch(m, w)|))
    requires m4 == Execute(Next(m3, EndCalling), RearmTurns(w, |Batch(m, w)|))
    ensures Execute(m, ReadActions(m, w)) == Next(m4, EndRead)
  {
    hide Execute, Next, CallTurns, RearmTurns, Batch;
    var n := |Batch(m, w)|;
    var upTo := ReadUpTo(m, w, n);
    ExecuteAppend(m, [Advance(w.now), BeginRead], CallTurns(m2, w, n));
    ExecuteOne(m3, EndCalling);
    ExecuteAppend(m, upTo, [EndCalling]);
    ExecuteAppend(m, upTo + [EndCalling], RearmTurns(w, n));
    ExecuteOne(m4, EndRead);
    ExecuteAppend(m, upTo + [EndCalling] + RearmTurns(w, n), [EndRead]);
  }
}
