/**
 * The timer queue as a state machine. Each action is one step the loop thread, the kernel or the clock takes,
 * so a callback is any sequence of `Add` and `Cancel` actions between two `FireNext` actions.
 */
module TimerModel {

  type TimerId = nat

  const INT64_MAX: int := 0x7fff_ffff_ffff_ffff

  // A timer object. `addedAt` and `delay` record how it was scheduled.
  datatype TimerData = TimerData(
    rank: int,
    expiration: int,
    interval: nat,
    repeating: bool,
    canceled: bool,
    addedAt: int,
    delay: nat)

  // A member of the ordered set `timers_`: an expiration and a timer, whose address is its `rank`.
  datatype Entry = Entry(when: int, rank: int, id: TimerId)

  // The one-shot kernel timer: not set, set, or expired and not yet read.
  datatype Kernel = Disarmed | Armed(at: int) | Fired(at: int)

  datatype Queue = Queue(
    pool: map<TimerId, TimerData>,
    timers: seq<Entry>,
    active: set<TimerId>,
    kernel: Kernel,
    nextId: TimerId)

  // ---- the ordered set ----

  predicate Before(a: Entry, b: Entry) {
    a.when < b.when || (a.when == b.when && (a.rank < b.rank || (a.rank == b.rank && a.id < b.id)))
  }

  predicate Sorted(s: seq<Entry>) {
    forall i, j :: 0 <= i < j < |s| ==> Before(s[i], s[j])
  }

  /** `std::set::emplace`. */
  function Insert(s: seq<Entry>, e: Entry): (r: seq<Entry>)
    ensures forall x :: x in r <==> x in s || x == e
    ensures Sorted(s) ==> Sorted(r)
    ensures r != [] && r[0] == if s == [] || Before(e, s[0]) then e else s[0]
  {
    if s == [] then [e]
    else if Before(e, s[0]) then [e] + s
    else if s[0] == e then s
    else
      var r := [s[0]] + Insert(s[1..], e);
      assert forall x :: x in s <==> x == s[0] || x in s[1..];
      r
  }

  /** `std::set::erase` of one element, if it is there. */
  function Erase(s: seq<Entry>, e: Entry): (r: seq<Entry>)
    ensures forall x :: x in r ==> x in s
    ensures forall x :: x in s && x != e ==> x in r
    ensures Sorted(s) ==> Sorted(r) && e !in r
    ensures s != [] && s[0] != e ==> r != [] && r[0] == s[0]
  {
    if s == [] then []
    else if s[0] == e then s[1..]
    else [s[0]] + Erase(s[1..], e)
  }

  /** How many leading entries are due. */
  function DueCount(s: seq<Entry>, now: int): (k: nat)
    ensures k <= |s|
    ensures forall i :: 0 <= i < k ==> s[i].when <= now
    ensures k < |s| ==> now < s[k].when
  {
    if s == [] || now < s[0].when then 0 else 1 + DueCount(s[1..], now)
  }

  // ---- times ----

  /** Saturating addition. */
  function Deadline(now: int, delay: nat): int {
    if delay > INT64_MAX - now then INT64_MAX else now + delay
  }

  /** Seconds to whole microseconds, saturating, and never rounding a positive time to zero. */
  function SecondsToMicroseconds(seconds: real): int {
    if seconds <= 0.0 then 0
    else if seconds >= (INT64_MAX / 1_000_000) as real then INT64_MAX
    else
      var us := (seconds * 1_000_000.0).Floor;
      if us < 1 then 1 else us
  }

  lemma SecondsToMicrosecondsRange(a: real, b: real)
    requires a <= b
    ensures 0 <= SecondsToMicroseconds(a) <= SecondsToMicroseconds(b) <= INT64_MAX
    ensures SecondsToMicroseconds(a) > 0 <==> a > 0.0
  {
    if a > 0.0 && b < (INT64_MAX / 1_000_000) as real {
      assert a * 1_000_000.0 <= b * 1_000_000.0;
    }
  }

  /** Below saturation and above a microsecond, the conversion is the whole number of microseconds. */
  lemma SecondsToMicrosecondsIsExact(seconds: real)
    requires seconds * 1_000_000.0 >= 1.0 && seconds < (INT64_MAX / 1_000_000) as real
    ensures var us := SecondsToMicroseconds(seconds); us as real <= seconds * 1_000_000.0 < (us + 1) as real
  {
    assert seconds > 0.0;
  }

  /** Too long a time is the longest there is, and too short a one is a microsecond. */
  lemma SecondsToMicrosecondsSaturate(seconds: real)
    ensures seconds >= (INT64_MAX / 1_000_000) as real ==> SecondsToMicroseconds(seconds) == INT64_MAX
    ensures 0.0 < seconds && seconds * 1_000_000.0 < 1.0 ==> SecondsToMicroseconds(seconds) == 1
  {
  }

  /** A deadline lies the whole delay after `now`, unless that is past what `int64_t` holds. */
  lemma DeadlineWaits(now: int, delay: nat, time: int)
    requires now <= INT64_MAX
    ensures Deadline(now, delay) <= time <==> now + delay <= time || INT64_MAX <= time
  {
  }

  // ---- the operations ----

  /** `resetTimerfd`: an expiration that is not positive disarms. */
  function Reset(expiration: int): Kernel {
    if expiration > 0 then Armed(expiration) else Disarmed
  }

  function EntryOf(q: Queue, id: TimerId): Entry
    requires id in q.pool
  {
    Entry(q.pool[id].expiration, q.pool[id].rank, id)
  }

  function AddInLoop(q: Queue, id: TimerId, rank: int, interval: nat, repeating: bool, delay: nat, now: int): Queue {
    var when := Deadline(now, delay);
    var earliestChanged := q.timers == [] || when < q.timers[0].when;
    q.(pool := q.pool[id := TimerData(rank, when, interval, repeating, false, now, delay)],
       timers := Insert(q.timers, Entry(when, rank, id)),
       active := q.active + {id},
       kernel := if earliestChanged then Reset(when) else q.kernel)
  }

  predicate Wf(q: Queue) {
    q.active <= q.pool.Keys
  }

  function CancelInLoop(q: Queue, id: TimerId): Queue
    requires Wf(q)
  {
    if id !in q.active then q
    else
      var entry := EntryOf(q, id);
      var earliestChanged := q.timers != [] && q.timers[0] == entry;
      var timers := Erase(q.timers, entry);
      q.(pool := q.pool[id := q.pool[id].(canceled := true)],
         timers := timers,
         active := q.active - {id},
         kernel := if !earliestChanged then q.kernel
                   else if timers == [] then Reset(0)
                   else Reset(timers[0].when))
  }

  function Ids(s: seq<Entry>): seq<TimerId> {
    seq(|s|, i requires 0 <= i < |s| => s[i].id)
  }

  /** The start of `handleRead`: the timerfd is read and the due entries leave `timers_`. */
  function TakeExpired(q: Queue, now: int): (Queue, seq<TimerId>) {
    var k := DueCount(q.timers, now);
    (q.(timers := q.timers[k..], kernel := if q.kernel.Fired? then Disarmed else q.kernel), Ids(q.timers[..k]))
  }

  /** One turn of the second loop of `handleRead`: a repeating timer is filed again, a one-shot is forgotten. */
  function Rearm(q: Queue, id: TimerId, now: int): Queue
    requires id in q.pool
  {
    if id !in q.active || q.pool[id].canceled then q
    else if !q.pool[id].repeating then q.(active := q.active - {id})
    else
      var when := Deadline(now, q.pool[id].interval);
      q.(pool := q.pool[id := q.pool[id].(expiration := when)],
         timers := Insert(q.timers, Entry(when, q.pool[id].rank, id)))
  }

  /** The end of `handleRead`. */
  function ArmFirst(q: Queue): Queue {
    if q.timers == [] then q else q.(kernel := Reset(q.timers[0].when))
  }

  // ---- the machine ----

  datatype Phase =
    | Idle
    | Calling(batch: seq<TimerId>, next: nat)
    | Rearming(batch: seq<TimerId>, next: nat)

  datatype Firing = Firing(id: TimerId, time: int)

  datatype Machine = Machine(q: Queue, phase: Phase, clock: int, log: seq<Firing>)

  datatype Action =
    | Advance(time: int)                                            // the monotonic clock moves on
    | Expire                                                        // the kernel timer goes off
    | Reserve                                                       // another thread takes a timer id
    | AddLate(id: TimerId, rank: int, interval: nat, repeating: bool, delay: nat) // and its task runs
    | Add(rank: int, interval: nat, repeating: bool, delay: nat)    // `addTimer` on the loop thread
    | Cancel(id: TimerId)                                           // `cancelInLoop`
    | BeginRead                                                     // `handleRead`: take the batch
    | FireNext                                                      // first loop: call one, or skip it
    | EndCalling
    | RearmNext                                                     // second loop
    | EndRead

  predicate Enabled(m: Machine, a: Action) {
    match a
    case Advance(time) => m.clock <= time <= INT64_MAX
    case Expire => m.q.kernel.Armed? && m.q.kernel.at <= m.clock
    case Reserve => true
    case AddLate(id, _, _, _, _) => m.phase.Idle? && 0 < id < m.q.nextId && id !in m.q.pool
    case Add(_, _, _, _) => !m.phase.Rearming?
    case Cancel(_) => !m.phase.Rearming? && Wf(m.q)
    case BeginRead => m.phase.Idle?
    case FireNext => m.phase.Calling? && m.phase.next < |m.phase.batch| && m.phase.batch[m.phase.next] in m.q.pool
    case EndCalling => m.phase.Calling? && m.phase.next == |m.phase.batch|
    case RearmNext => m.phase.Rearming? && m.phase.next < |m.phase.batch| && m.phase.batch[m.phase.next] in m.q.pool
    case EndRead => m.phase.Rearming? && m.phase.next == |m.phase.batch|
  }

  function Effect(m: Machine, a: Action): Machine
    requires Enabled(m, a)
  {
    match a
    case Advance(time) => m.(clock := time)
    case Expire => m.(q := m.q.(kernel := Fired(m.q.kernel.at)))
    case Reserve => m.(q := m.q.(nextId := m.q.nextId + 1))
    case AddLate(id, rank, interval, repeating, delay) =>
      m.(q := AddInLoop(m.q, id, rank, interval, repeating, delay, m.clock))
    case Add(rank, interval, repeating, delay) =>
      m.(q := AddInLoop(m.q, m.q.nextId, rank, interval, repeating, delay, m.clock).(nextId := m.q.nextId + 1))
    case Cancel(id) => m.(q := CancelInLoop(m.q, id))
    case BeginRead =>
      var (q, batch) := TakeExpired(m.q, m.clock);
      m.(q := q, phase := Calling(batch, 0))
    case FireNext =>
      var id := m.phase.batch[m.phase.next];
      m.(phase := Calling(m.phase.batch, m.phase.next + 1),
         log := if m.q.pool[id].canceled then m.log else m.log + [Firing(id, m.clock)])
    case EndCalling => m.(phase := Rearming(m.phase.batch, 0))
    case RearmNext =>
      m.(q := Rearm(m.q, m.phase.batch[m.phase.next], m.clock), phase := Rearming(m.phase.batch, m.phase.next + 1))
    case EndRead => m.(q := ArmFirst(m.q), phase := Idle)
  }

  /** An action that cannot happen in `m` leaves it as it is. */
  function Next(m: Machine, a: Action): Machine {
    if Enabled(m, a) then Effect(m, a) else m
  }

  function Execute(m: Machine, actions: seq<Action>): Machine {
    if actions == [] then m else Next(Execute(m, actions[..|actions| - 1]), actions[|actions| - 1])
  }

  predicate Start(m: Machine) {
    m.q == Queue(map[], [], {}, Disarmed, 1) && m.phase == Idle && m.log == [] && 0 <= m.clock <= INT64_MAX
  }

  // ==== Helpers: `Next` read off for one action at a time ====
  // They state nothing new. A proof that hides `Next` calls the one it needs instead of unfolding every action.

  lemma NextAdvance(m: Machine, time: int)
    ensures Next(m, Advance(time)) == if m.clock <= time <= INT64_MAX then m.(clock := time) else m
  {
  }

  lemma NextExpire(m: Machine)
    ensures var k := m.q.kernel;
            Next(m, Expire) == if k.Armed? && k.at <= m.clock then m.(q := m.q.(kernel := Fired(k.at))) else m
  {
  }

  lemma NextReserve(m: Machine)
    ensures Next(m, Reserve) == m.(q := m.q.(nextId := m.q.nextId + 1))
  {
  }

  lemma NextAdd(m: Machine, rank: int, interval: nat, repeating: bool, delay: nat)
    requires !m.phase.Rearming?
    ensures var q := m.q.(nextId := m.q.nextId + 1);
            Next(m, Add(rank, interval, repeating, delay)) ==
            m.(q := AddInLoop(q, m.q.nextId, rank, interval, repeating, delay, m.clock))
  {
  }

  lemma NextCancel(m: Machine, id: TimerId)
    requires !m.phase.Rearming? && Wf(m.q)
    ensures Next(m, Cancel(id)) == m.(q := CancelInLoop(m.q, id))
  {
  }

  lemma NextBeginRead(m: Machine)
    requires m.phase.Idle?
    ensures var (q, batch) := TakeExpired(m.q, m.clock); Next(m, BeginRead) == m.(q := q, phase := Calling(batch, 0))
  {
  }

  lemma NextFire(m: Machine)
    requires m.phase.Calling? && m.phase.next < |m.phase.batch| && m.phase.batch[m.phase.next] in m.q.pool
    ensures var id := m.phase.batch[m.phase.next];
            Next(m, FireNext) ==
            m.(phase := Calling(m.phase.batch, m.phase.next + 1),
               log := if m.q.pool[id].canceled then m.log else m.log + [Firing(id, m.clock)])
  {
  }

  lemma NextEndCalling(m: Machine)
    requires m.phase.Calling? && m.phase.next == |m.phase.batch|
    ensures Next(m, EndCalling) == m.(phase := Rearming(m.phase.batch, 0))
  {
  }

  lemma NextRearm(m: Machine)
    requires m.phase.Rearming? && m.phase.next < |m.phase.batch| && m.phase.batch[m.phase.next] in m.q.pool
    ensures Next(m, RearmNext) ==
            m.(q := Rearm(m.q, m.phase.batch[m.phase.next], m.clock),
               phase := Rearming(m.phase.batch, m.phase.next + 1))
  {
  }

  lemma NextEndRead(m: Machine)
    requires m.phase.Rearming? && m.phase.next == |m.phase.batch|
    ensures Next(m, EndRead) == m.(q := ArmFirst(m.q), phase := Idle)
  {
  }

  lemma NextAddLate(m: Machine, id: TimerId, rank: int, interval: nat, repeating: bool, delay: nat)
    requires m.phase.Idle? && 0 < id < m.q.nextId && id !in m.q.pool
    ensures Next(m, AddLate(id, rank, interval, repeating, delay)) ==
            m.(q := AddInLoop(m.q, id, rank, interval, repeating, delay, m.clock))
  {
  }
}
