/** What every run of the timer queue keeps: its two indexes agree, and the kernel timer never forgets one. */
module TimerProofs {
  import opened TimerModel

  /** The batch members `handleRead` has taken out of `timers_` and not yet filed again or dropped. */
  function Pending(phase: Phase): seq<TimerId> {
    match phase
    case Idle => []
    case Calling(batch, _) => batch
    case Rearming(batch, next) => if next <= |batch| then batch[next..] else []
  }

  /**
   * The indexes agree: `timers_` holds exactly the active timers that are not pending, each filed under its
   * own expiration and none of them canceled, and a pending timer is active exactly until it is canceled.
   */
  ghost predicate Agreement(q: Queue, pending: seq<TimerId>) {
    && Wf(q)
    && Sorted(q.timers)
    && (forall e :: e in q.timers ==> e.id in q.active && e == EntryOf(q, e.id) && e.id !in pending)
    && (forall id :: id in q.active ==> !q.pool[id].canceled && (EntryOf(q, id) in q.timers || id in pending))
    && (forall id :: id in pending ==> id in q.pool && (id in q.active || q.pool[id].canceled))
    && (forall i, j :: 0 <= i < j < |pending| ==> pending[i] != pending[j])
    && (forall id :: id in q.pool ==> 0 < id < q.nextId)
  }

  lemma AddAgrees(q: Queue, pending: seq<TimerId>, id: TimerId, rank: int, interval: nat, repeating: bool,
                  delay: nat, now: int)
    requires Agreement(q, pending) && 0 < id < q.nextId && id !in q.pool
    ensures Agreement(AddInLoop(q, id, rank, interval, repeating, delay, now), pending)
  {
    var r := AddInLoop(q, id, rank, interval, repeating, delay, now);
    assert forall k :: k in q.pool ==> EntryOf(r, k) == EntryOf(q, k);
  }

  lemma CancelAgrees(q: Queue, pending: seq<TimerId>, id: TimerId)
    requires Agreement(q, pending)
    ensures Agreement(CancelInLoop(q, id), pending)
  {
    if id in q.active {
      var r := CancelInLoop(q, id);
      assert forall k :: k in q.pool ==> EntryOf(r, k) == EntryOf(q, k);
    }
  }

  lemma DistinctIds(q: Queue)
    requires Agreement(q, [])
    ensures forall i, j :: 0 <= i < j < |q.timers| ==> q.timers[i].id != q.timers[j].id
  {
    forall i, j | 0 <= i < j < |q.timers|
      ensures q.timers[i].id != q.timers[j].id
    {
      assert q.timers[i] in q.timers && q.timers[j] in q.timers;
      assert Before(q.timers[i], q.timers[j]);
    }
  }

  lemma TailIsLater(q: Queue, k: nat, e: Entry)
    requires Agreement(q, []) && k <= |q.timers| && e in q.timers[k..]
    ensures e in q.timers && e.id !in Ids(q.timers[..k])
  {
    DistinctIds(q);
    hide Agreement;
    var j :| 0 <= j < |q.timers[k..]| && q.timers[k..][j] == e;
    assert q.timers[k + j] == e;
  }

  lemma HeadOrTail(s: seq<Entry>, k: nat, e: Entry)
    requires k <= |s| && e in s
    ensures e in s[k..] || e.id in Ids(s[..k])
  {
    var i :| 0 <= i < |s| && s[i] == e;
    assert if i < k then Ids(s[..k])[i] == e.id else s[k..][i - k] == e;
  }

  lemma HeadIsActive(q: Queue, k: nat, id: TimerId)
    requires Agreement(q, []) && k <= |q.timers| && id in Ids(q.timers[..k])
    ensures id in q.active
  {
    var i :| 0 <= i < k && Ids(q.timers[..k])[i] == id;
    assert q.timers[i] in q.timers;
  }

  /** Cutting the ordered set anywhere puts each of its timers on exactly one side. */
  lemma CutMembers(q: Queue, k: nat)
    requires Agreement(q, []) && k <= |q.timers|
    ensures forall e :: e in q.timers[k..] ==> e in q.timers && e.id !in Ids(q.timers[..k])
    ensures forall e :: e in q.timers ==> e in q.timers[k..] || e.id in Ids(q.timers[..k])
    ensures forall id :: id in Ids(q.timers[..k]) ==> id in q.active
  {
    hide Agreement, Ids;
    forall e | e in q.timers[k..]
      ensures e in q.timers && e.id !in Ids(q.timers[..k])
    {
      TailIsLater(q, k, e);
    }
    forall e | e in q.timers
      ensures e in q.timers[k..] || e.id in Ids(q.timers[..k])
    {
      HeadOrTail(q.timers, k, e);
    }
    forall id | id in Ids(q.timers[..k])
      ensures id in q.active
    {
      HeadIsActive(q, k, id);
    }
  }

  lemma TakeExpiredAgrees(q: Queue, now: int)
    requires Agreement(q, [])
    ensures var (r, batch) := TakeExpired(q, now); Agreement(r, batch)
  {
    var (r, batch) := TakeExpired(q, now);
    CutMembers(q, DueCount(q.timers, now));
    DistinctIds(q);
    assert forall id :: id in q.pool ==> EntryOf(r, id) == EntryOf(q, id);
  }

  lemma RearmAgrees(q: Queue, pending: seq<TimerId>, now: int)
    requires Agreement(q, pending) && pending != []
    ensures Agreement(Rearm(q, pending[0], now), pending[1..])
  {
    var id := pending[0];
    var r := Rearm(q, id, now);
    assert forall k :: k in q.pool && k != id ==> EntryOf(r, k) == EntryOf(q, k);
    assert forall k :: k in pending <==> k == id || k in pending[1..];
    forall e | e in r.timers
      ensures e.id in r.active && e == EntryOf(r, e.id) && e.id !in pending[1..]
    {
      if e in q.timers {
        assert e.id != id;
      }
    }
  }

  // ---- the kernel timer ----

  /** The kernel timer is set for, or has gone off for, exactly the smallest expiration. */
  predicate Watched(q: Queue) {
    q.timers != [] ==> q.kernel == Armed(q.timers[0].when) || q.kernel == Fired(q.timers[0].when)
  }

  ghost predicate Positive(q: Queue) {
    forall id :: id in q.pool ==> 0 < q.pool[id].expiration <= INT64_MAX
  }

  /** A timer that comes to be first leaves the queue watched exactly when it expires at a positive time. */
  lemma FirstTimerWatched(q: Queue, id: TimerId, rank: int, interval: nat, repeating: bool, delay: nat, now: int)
    requires Watched(q) && (q.timers != [] ==> q.timers[0].when > 0)
    ensures Watched(AddInLoop(q, id, rank, interval, repeating, delay, now)) <==> Deadline(now, delay) > 0
  {
  }

  // ---- the kernel timer, whatever the clock shows ----

  /** A first expiration that is positive is watched; any other has disarmed the kernel timer. */
  predicate Exact(q: Queue) {
    q.timers != [] ==> if q.timers[0].when > 0 then Watched(q) else q.kernel.Disarmed?
  }

  ghost predicate NonNegative(q: Queue) {
    forall id :: id in q.pool ==> 0 <= q.pool[id].expiration <= INT64_MAX
  }

  lemma AddStaysExact(q: Queue, id: TimerId, rank: int, interval: nat, repeating: bool, delay: nat, now: int)
    requires Exact(q) && (q.timers != [] ==> 0 <= q.timers[0].when) && 0 <= now <= INT64_MAX
    ensures Exact(AddInLoop(q, id, rank, interval, repeating, delay, now))
  {
  }

  lemma CancelStaysExact(q: Queue, id: TimerId)
    requires Agreement(q, []) && Exact(q) && NonNegative(q)
    ensures Exact(CancelInLoop(q, id))
  {
    if id in q.active {
      var timers := Erase(q.timers, EntryOf(q, id));
      if timers != [] {
        assert timers[0] in q.timers;
      }
    }
  }

  lemma FirstIsNotNegative(q: Queue, pending: seq<TimerId>)
    requires Agreement(q, pending) && NonNegative(q)
    ensures q.timers != [] ==> 0 <= q.timers[0].when
  {
    if q.timers != [] {
      assert q.timers[0] in q.timers;
    }
  }

  // ---- runs ----

  ghost predicate Inv(m: Machine) {
    && 0 <= m.clock <= INT64_MAX
    && 0 < m.q.nextId
    && Agreement(m.q, Pending(m.phase))
    && NonNegative(m.q)
    && (m.phase.Idle? ==> Exact(m.q))
    && (!m.phase.Idle? ==> m.phase.next <= |m.phase.batch|)
  }

  /** Only the kernel timer and the id counter have changed. */
  lemma AgreesAsBefore(q: Queue, r: Queue, pending: seq<TimerId>)
    requires Agreement(q, pending) && r == q.(kernel := r.kernel, nextId := r.nextId) && q.nextId <= r.nextId
    ensures Agreement(r, pending)
  {
    assert forall id :: id in q.pool ==> EntryOf(r, id) == EntryOf(q, id);
  }

  lemma DeadlineRange(now: int, delay: nat)
    requires 0 <= now <= INT64_MAX
    ensures 0 <= Deadline(now, delay) <= INT64_MAX
    ensures 0 < now ==> 0 < Deadline(now, delay)
  {
  }

  lemma AddKeepsInv(m: Machine, rank: int, interval: nat, repeating: bool, delay: nat)
    requires Inv(m) && !m.phase.Rearming?
    ensures Inv(Next(m, Add(rank, interval, repeating, delay)))
  {
    hide Agreement, Next, Exact, Deadline;
    var q := m.q.(nextId := m.q.nextId + 1);
    NextAdd(m, rank, interval, repeating, delay);
    NewIdIsFree(m.q, Pending(m.phase));
    AgreesAsBefore(m.q, q, Pending(m.phase));
    AddAgrees(q, Pending(m.phase), m.q.nextId, rank, interval, repeating, delay, m.clock);
    DeadlineRange(m.clock, delay);
    if m.phase.Idle? {
      ExactAsBefore(m.q, q);
      FirstIsNotNegative(q, []);
      AddStaysExact(q, m.q.nextId, rank, interval, repeating, delay, m.clock);
    }
  }

  lemma NewIdIsFree(q: Queue, pending: seq<TimerId>)
    requires Agreement(q, pending)
    ensures q.nextId !in q.pool
  {
  }

  lemma ExactAsBefore(q: Queue, r: Queue)
    requires Exact(q) && r.timers == q.timers && r.kernel == q.kernel
    ensures Exact(r)
  {
  }

  lemma AddLateKeepsInv(m: Machine, id: TimerId, rank: int, interval: nat, repeating: bool, delay: nat)
    requires Inv(m) && Enabled(m, AddLate(id, rank, interval, repeating, delay))
    ensures Inv(Next(m, AddLate(id, rank, interval, repeating, delay)))
  {
    hide Agreement, Exact, Deadline;
    AddAgrees(m.q, [], id, rank, interval, repeating, delay, m.clock);
    DeadlineRange(m.clock, delay);
    FirstIsNotNegative(m.q, []);
    AddStaysExact(m.q, id, rank, interval, repeating, delay, m.clock);
  }

  lemma CancelKeepsInv(m: Machine, id: TimerId)
    requires Inv(m) && !m.phase.Rearming? && Wf(m.q)
    ensures Inv(Next(m, Cancel(id)))
  {
    hide Agreement, Next, Exact, Erase;
    NextCancel(m, id);
    CancelAgrees(m.q, Pending(m.phase), id);
    if m.phase.Idle? {
      CancelStaysExact(m.q, id);
    }
  }

  lemma BeginReadKeepsInv(m: Machine)
    requires Inv(m) && m.phase.Idle?
    ensures Inv(Next(m, BeginRead))
  {
    hide Agreement, Next, Exact;
    NextBeginRead(m);
    TakeExpiredAgrees(m.q, m.clock);
  }

  lemma EndCallingKeepsInv(m: Machine)
    requires Inv(m) && Enabled(m, EndCalling)
    ensures Inv(Next(m, EndCalling))
  {
    hide Agreement, Next;
    NextEndCalling(m);
    assert m.phase.batch[0..] == m.phase.batch;
  }

  lemma FireKeepsInv(m: Machine)
    requires Inv(m) && Enabled(m, FireNext)
    ensures Inv(Next(m, FireNext))
  {
    hide Agreement, Next;
    NextFire(m);
  }

  lemma RearmKeepsInv(m: Machine)
    requires Inv(m) && Enabled(m, RearmNext)
    ensures Inv(Next(m, RearmNext))
  {
    hide Agreement, Next, Deadline, Insert;
    NextRearm(m);
    RearmAgrees(m.q, Pending(m.phase), m.clock);
    assert m.phase.batch[m.phase.next..][1..] == m.phase.batch[m.phase.next + 1..];
    DeadlineRange(m.clock, m.q.pool[m.phase.batch[m.phase.next]].interval);
  }

  lemma EndReadKeepsInv(m: Machine)
    requires Inv(m) && Enabled(m, EndRead)
    ensures Inv(Next(m, EndRead))
  {
    hide Next;
    NextEndRead(m);
    AgreesAsBefore(m.q, ArmFirst(m.q), []);
    if m.q.timers != [] {
      assert m.q.timers[0] in m.q.timers;
    }
  }

  lemma OutsideKeepsInv(m: Machine, a: Action)
    requires Inv(m) && Enabled(m, a) && (a.Advance? || a.Expire? || a.Reserve?)
    ensures Inv(Next(m, a))
  {
    AgreesAsBefore(m.q, Next(m, a).q, Pending(m.phase));
    hide Agreement;
  }

  lemma NextKeepsInv(m: Machine, a: Action)
    requires Inv(m)
    ensures Inv(Next(m, a))
  {
    hide Inv, Effect;
    if Enabled(m, a) {
      match a
      case Add(rank, interval, repeating, delay) => AddKeepsInv(m, rank, interval, repeating, delay);
      case AddLate(id, rank, interval, repeating, delay) => AddLateKeepsInv(m, id, rank, interval, repeating, delay);
      case Cancel(id) => CancelKeepsInv(m, id);
      case BeginRead => BeginReadKeepsInv(m);
      case FireNext => FireKeepsInv(m);
      case EndCalling => EndCallingKeepsInv(m);
      case RearmNext => RearmKeepsInv(m);
      case EndRead => EndReadKeepsInv(m);
      case _ => OutsideKeepsInv(m, a);
    }
  }

  lemma {:induction false} ExecuteKeepsInv(m: Machine, actions: seq<Action>)
    requires Inv(m)
    ensures Inv(Execute(m, actions))
    decreases |actions|
  {
    if actions != [] {
      ExecuteKeepsInv(m, actions[..|actions| - 1]);
      NextKeepsInv(Execute(m, actions[..|actions| - 1]), actions[|actions| - 1]);
    }
  }

  lemma StartInv(m: Machine)
    requires Start(m)
    ensures Inv(m)
  {
  }

  /**
   * Index agreement over every run, whatever callbacks add and cancel: an active timer is in `timers_` under
   * its own expiration or is an uncanceled member of the batch, and never both.
   */
  lemma {:induction false} IndexesAlwaysAgree(m: Machine, actions: seq<Action>)
    requires Start(m)
    ensures var r := Execute(m, actions);
            && Wf(r.q)
            && (forall id :: id in r.q.active <==>
                  && id in r.q.pool
                  && (EntryOf(r.q, id) in r.q.timers || (id in Pending(r.phase) && !r.q.pool[id].canceled)))
            && (forall e :: e in r.q.timers ==>
                  e.id in r.q.pool && e == EntryOf(r.q, e.id) && !r.q.pool[e.id].canceled && e.id !in Pending(r.phase))
  {
    StartInv(m);
    ExecuteKeepsInv(m, actions);
  }

  /**
   * The kernel timer over every run, whatever the clock shows at the start: between reads it is armed at, or has
   * fired for, the smallest expiration exactly when that expiration is positive.
   */
  lemma {:induction false} KernelWatchesExactly(m: Machine, actions: seq<Action>)
    requires Start(m)
    ensures var r := Execute(m, actions);
            r.phase.Idle? && r.q.timers != [] ==>
              && (Watched(r.q) <==> r.q.timers[0].when > 0)
              && (forall i :: 0 <= i < |r.q.timers| ==> r.q.timers[0].when <= r.q.timers[i].when)
  {
    StartInv(m);
    ExecuteKeepsInv(m, actions);
  }

  /** And the failing input: a timer without delay, added while the clock shows 0, is filed and never watched. */
  lemma {:induction false} ZeroClockForgets(rank: int)
    ensures var m := Machine(Queue(map[], [], {}, Disarmed, 1), Idle, 0, []);
            var r := Execute(m, [Add(rank, 0, false, 0)]);
            Start(m) && r.phase.Idle? && r.q.timers == [Entry(0, rank, 1)] && r.q.kernel == Disarmed
  {
    var m := Machine(Queue(map[], [], {}, Disarmed, 1), Idle, 0, []);
    assert [Add(rank, 0, false, 0)][..0] == [];
    NextAdd(m, rank, 0, false, 0);
  }

  lemma NextStaysPositive(m: Machine, a: Action)
    requires Inv(m) && 0 < m.clock && Positive(m.q)
    ensures var r := Next(m, a); 0 < r.clock && Positive(r.q)
  {
    hide Agreement, Exact, Insert, Erase, Deadline;
    if Enabled(m, a) {
      match a
      case Add(_, _, _, delay) => DeadlineRange(m.clock, delay);
      case AddLate(_, _, _, _, delay) => DeadlineRange(m.clock, delay);
      case RearmNext => DeadlineRange(m.clock, m.q.pool[m.phase.batch[m.phase.next]].interval);
      case _ =>
    }
  }

  lemma {:induction false} ExecuteStaysPositive(m: Machine, actions: seq<Action>)
    requires Inv(m) && 0 < m.clock && Positive(m.q)
    ensures var r := Execute(m, actions); 0 < r.clock && Positive(r.q)
    decreases |actions|
  {
    hide Inv, Next, Positive;
    if actions != [] {
      var init := actions[..|actions| - 1];
      ExecuteStaysPositive(m, init);
      ExecuteKeepsInv(m, init);
      NextStaysPositive(Execute(m, init), actions[|actions| - 1]);
    }
  }

  /** No timer is forgotten: from a positive clock on, the smallest expiration is watched between reads. */
  lemma {:induction false} KernelAlwaysWatches(m: Machine, actions: seq<Action>)
    requires Start(m) && 0 < m.clock
    ensures var r := Execute(m, actions);
            r.phase.Idle? && r.q.timers != [] ==>
              && (r.q.kernel == Armed(r.q.timers[0].when) || r.q.kernel == Fired(r.q.timers[0].when))
              && (forall i :: 0 <= i < |r.q.timers| ==> r.q.timers[0].when <= r.q.timers[i].when)
  {
    StartInv(m);
    KernelWatchesExactly(m, actions);
    ExecuteKeepsInv(m, actions);
    ExecuteStaysPositive(m, actions);
    var r := Execute(m, actions);
    if r.q.timers != [] {
      assert r.q.timers[0] in r.q.timers;
    }
  }
}
