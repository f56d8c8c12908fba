/**
 * The task queue of an event loop as interleaved steps: other threads push under the lock and then write to the
 * eventfd; the loop thread polls, handles events, swaps the queue out and runs it.
 */
module EventLoopModel {

  type Task = nat
  type ThreadId = nat

  // The largest count an eventfd holds; a write that would pass it fails and leaves it.
  const EVENTFD_MAX: nat := 0xffff_ffff_ffff_fffe

  // Where the loop thread is in `loop`.
  datatype Pc =
    | AtPoll
    | Handling(wakeupActive: bool)  // active channels are being handled; the wakeup channel is among them or not
    | Swapping                      // in `doPendingFunctors`, before the lock
    | Running(batch: seq<Task>)     // the functors not yet run

  datatype Loop = Loop(
    pc: Pc,
    pending: seq<Task>,       // pendingFunctors_
    calling: bool,            // callingPendingFunctors_
    counter: nat,             // the eventfd
    owing: set<ThreadId>,     // other threads between push and wakeup
    loopOwes: bool,           // the loop thread between push and wakeup
    pushed: seq<Task>,        // every task, in lock order
    executed: seq<Task>,      // every task run, in order
    pollMark: nat,            // how many tasks had been pushed when poll last returned
    swapMark: nat)            // and when the queue was last swapped out

  datatype Action =
    | PushElsewhere(thread: ThreadId, task: Task)
    | WakeElsewhere(thread: ThreadId)
    | PollReturns(wakeupActive: bool)
    | ReadWakeup
    | LoopPush(task: Task)    // `queueInLoop` on the loop thread, from a handler or a task
    | LoopWake
    | StartPending
    | Swap
    | RunOne
    | FinishPending

  predicate Enabled(l: Loop, a: Action) {
    match a
    case PushElsewhere(thread, _) => thread !in l.owing
    case WakeElsewhere(thread) => thread in l.owing
    case PollReturns(wakeupActive) => l.pc.AtPoll? && (wakeupActive ==> l.counter > 0)
    case ReadWakeup => l.pc == Handling(true)
    case LoopPush(_) => (l.pc.Handling? || l.pc.Running?) && !l.loopOwes
    case LoopWake => l.loopOwes
    case StartPending => l.pc == Handling(false) && !l.loopOwes
    case Swap => l.pc.Swapping?
    case RunOne => l.pc.Running? && l.pc.batch != [] && !l.loopOwes
    case FinishPending => l.pc == Running([]) && !l.loopOwes
  }

  function Wake(counter: nat): nat {
    if counter < EVENTFD_MAX then counter + 1 else counter
  }

  /** The locked part of `queueInLoop`. */
  function Push(l: Loop, task: Task): Loop {
    l.(pending := l.pending + [task], pushed := l.pushed + [task])
  }

  function Effect(l: Loop, a: Action): Loop
    requires Enabled(l, a)
  {
    match a
    case PushElsewhere(thread, task) => Push(l, task).(owing := l.owing + {thread})
    case WakeElsewhere(thread) => l.(counter := Wake(l.counter), owing := l.owing - {thread})
    case PollReturns(wakeupActive) => l.(pc := Handling(wakeupActive), pollMark := |l.pushed|)
    case ReadWakeup => l.(pc := Handling(false), counter := 0)
    case LoopPush(task) => Push(l, task).(loopOwes := l.calling)
    case LoopWake => l.(counter := Wake(l.counter), loopOwes := false)
    case StartPending => l.(pc := Swapping, calling := true)
    case Swap => l.(pc := Running(l.pending), pending := [], swapMark := |l.pushed|)
    case RunOne => l.(pc := Running(l.pc.batch[1..]), executed := l.executed + [l.pc.batch[0]])
    case FinishPending => l.(pc := AtPoll, calling := false)
  }

  function Next(l: Loop, a: Action): Loop {
    if Enabled(l, a) then Effect(l, a) else l
  }

  function Execute(l: Loop, actions: seq<Action>): Loop {
    if actions == [] then l else Next(Execute(l, actions[..|actions| - 1]), actions[|actions| - 1])
  }

  const NEW_LOOP: Loop := Loop(AtPoll, [], false, 0, {}, false, [], [], 0, 0)

  // ---- what every interleaving keeps ----

  /** The functors swapped out and not yet run. */
  function Batch(l: Loop): seq<Task> {
    if l.pc.Running? then l.pc.batch else []
  }

  /** A poll now would return because of the eventfd, or some thread is about to make it. */
  predicate WillWake(l: Loop) {
    l.counter > 0 || l.owing != {} || l.loopOwes
  }

  predicate Inv(l: Loop) {
    && (l.calling <==> l.pc.Swapping? || l.pc.Running?)
    && (l.loopOwes ==> l.pc.Running?)
    && (l.pc == Handling(true) ==> l.counter > 0)
    && ((l.pc.AtPoll? || l.pc.Running?) && l.pending != [] ==> WillWake(l))
    && l.executed + Batch(l) + l.pending == l.pushed
    && (l.pc.Running? ==> |l.executed| + |l.pc.batch| == l.swapMark)
    && (l.pc.Running? || l.pc.AtPoll? ==> l.pollMark <= l.swapMark)
    && (l.pc.AtPoll? ==> |l.executed| == l.swapMark)
    && l.pollMark <= |l.pushed| && l.swapMark <= |l.pushed|
  }

  lemma NextKeeps(l: Loop, a: Action)
    requires Inv(l)
    ensures Inv(Next(l, a))
  {
    if Enabled(l, a) {
      match a
      case PushElsewhere(thread, task) =>
        assert l.executed + Batch(l) + (l.pending + [task]) == l.pushed + [task];
      case LoopPush(task) =>
        assert l.executed + Batch(l) + (l.pending + [task]) == l.pushed + [task];
      case RunOne =>
        assert l.pc.batch == [l.pc.batch[0]] + l.pc.batch[1..];
        assert l.executed + [l.pc.batch[0]] + l.pc.batch[1..] == l.executed + l.pc.batch;
      case Swap =>
        assert l.executed + [] + l.pending == l.executed + l.pending + [];
      case _ =>
    }
  }

  lemma {:induction false} ExecuteKeeps(l: Loop, actions: seq<Action>)
    requires Inv(l)
    ensures Inv(Execute(l, actions))
    decreases |actions|
  {
    if actions != [] {
      ExecuteKeeps(l, actions[..|actions| - 1]);
      NextKeeps(Execute(l, actions[..|actions| - 1]), actions[|actions| - 1]);
    }
  }

  /**
   * No lost wakeup, under every interleaving: when the loop is at poll and tasks are pending, the eventfd is
   * readable or another thread still owes its write.
   */
  lemma {:induction false} NoLostWakeup(actions: seq<Action>)
    ensures var l := Execute(NEW_LOOP, actions);
            l.pc.AtPoll? && l.pending != [] ==> l.counter > 0 || l.owing != {}
  {
    ExecuteKeeps(NEW_LOOP, actions);
  }

  /** The task that an action enqueues, if it can happen: a push under the lock, from any thread. */
  function Enqueues(l: Loop, a: Action): seq<Task> {
    match a
    case PushElsewhere(thread, task) => if thread !in l.owing then [task] else []
    case LoopPush(task) => if (l.pc.Handling? || l.pc.Running?) && !l.loopOwes then [task] else []
    case _ => []
  }

  /** Every task that a run enqueues, in lock order. */
  function Enqueued(actions: seq<Action>): seq<Task> {
    if actions == [] then []
    else
      var init := actions[..|actions| - 1];
      Enqueued(init) + Enqueues(Execute(NEW_LOOP, init), actions[|actions| - 1])
  }

  lemma NextPushes(l: Loop, a: Action)
    ensures Next(l, a).pushed == l.pushed + Enqueues(l, a)
  {
    assert l.pushed + [] == l.pushed;
  }

  lemma {:induction false} PushedAreEnqueued(actions: seq<Action>)
    ensures Execute(NEW_LOOP, actions).pushed == Enqueued(actions)
    decreases |actions|
  {
    hide Next, Enqueues;
    if actions != [] {
      var init := actions[..|actions| - 1];
      PushedAreEnqueued(init);
      NextPushes(Execute(NEW_LOOP, init), actions[|actions| - 1]);
    }
  }

  /**
   * FIFO, exactly once: under every interleaving, the tasks run, then those swapped out, then those pending are
   * exactly the tasks enqueued, in lock order.
   */
  lemma {:induction false} TasksRunInOrder(actions: seq<Action>)
    ensures var l := Execute(NEW_LOOP, actions); l.executed + Batch(l) + l.pending == Enqueued(actions)
    ensures Execute(NEW_LOOP, actions).pushed == Enqueued(actions)
  {
    hide Enqueued;
    ExecuteKeeps(NEW_LOOP, actions);
    PushedAreEnqueued(actions);
  }

  /** The writes to the eventfd since it was last read. */
  function Writes(actions: seq<Action>): nat {
    if actions == [] then 0
    else
      var init, last := actions[..|actions| - 1], actions[|actions| - 1];
      if !Enabled(Execute(NEW_LOOP, init), last) then Writes(init)
      else if last.ReadWakeup? then 0
      else Writes(init) + if last.WakeElsewhere? || last.LoopWake? then 1 else 0
  }

  lemma NextCounter(l: Loop, a: Action)
    ensures Next(l, a).counter ==
            if !Enabled(l, a) then l.counter
            else if a.ReadWakeup? then 0
            else if a.WakeElsewhere? || a.LoopWake? then Wake(l.counter)
            else l.counter
  {
  }

  /** The eventfd counts the writes since it was last read, as far as it can: poll returns for it only after one. */
  lemma {:induction false} EventfdCountsWrites(actions: seq<Action>)
    ensures var n := Writes(actions);
            Execute(NEW_LOOP, actions).counter == if n < EVENTFD_MAX then n else EVENTFD_MAX
    decreases |actions|
  {
    hide Next, Enabled;
    if actions != [] {
      var init := actions[..|actions| - 1];
      EventfdCountsWrites(init);
      NextCounter(Execute(NEW_LOOP, init), actions[|actions| - 1]);
    }
  }

  /** How long the run was when the queue was last swapped out. */
  function LastSwap(actions: seq<Action>): nat {
    if actions == [] then 0
    else
      var init := actions[..|actions| - 1];
      if actions[|actions| - 1] == Swap && Execute(NEW_LOOP, init).pc == Swapping then |init| else LastSwap(init)
  }

  /** And when poll last returned. */
  function LastPoll(actions: seq<Action>): nat {
    if actions == [] then 0
    else
      var init, last := actions[..|actions| - 1], actions[|actions| - 1];
      if last.PollReturns? && Enabled(Execute(NEW_LOOP, init), last) then |init| else LastPoll(init)
  }

  lemma NextMarks(l: Loop, a: Action)
    ensures Next(l, a).swapMark == if a == Swap && l.pc == Swapping then |l.pushed| else l.swapMark
    ensures Next(l, a).pollMark == if a.PollReturns? && Enabled(l, a) then |l.pushed| else l.pollMark
  {
  }

  /** The marks stand for those moments of the run, and everything enqueued by then comes first. */
  lemma {:induction false} MarksAreMoments(actions: seq<Action>)
    ensures var l := Execute(NEW_LOOP, actions);
            && LastSwap(actions) <= |actions| && LastPoll(actions) <= |actions|
            && l.swapMark == |Enqueued(actions[..LastSwap(actions)])|
            && l.pollMark == |Enqueued(actions[..LastPoll(actions)])|
            && Enqueued(actions[..LastSwap(actions)]) <= Enqueued(actions)
            && Enqueued(actions[..LastPoll(actions)]) <= Enqueued(actions)
    decreases |actions|
  {
    hide Next, Enqueues, Enabled;
    if actions == [] {
      assert actions[..0] == [];
    } else {
      var init, last := actions[..|actions| - 1], actions[|actions| - 1];
      MarksAreMoments(init);
      NextMarks(Execute(NEW_LOOP, init), last);
      PushedAreEnqueued(init);
      assert init[..LastSwap(init)] == actions[..LastSwap(init)] && init[..LastPoll(init)] == actions[..LastPoll(init)];
    }
  }

  /** A batch is exactly the tasks enqueued before the swap: those enqueued while it runs wait for the next one. */
  lemma {:induction false} BatchExcludesNewTasks(actions: seq<Action>)
    ensures var l := Execute(NEW_LOOP, actions);
            l.pc.Running? ==>
              LastSwap(actions) <= |actions| && l.executed + l.pc.batch == Enqueued(actions[..LastSwap(actions)])
  {
    hide Enqueued, LastSwap, LastPoll;
    PushedAreEnqueued(actions);
    MarksAreMoments(actions);
    ExecuteKeeps(NEW_LOOP, actions);
  }

  /** When the loop is back at poll it has run every task enqueued before poll last returned. */
  lemma {:induction false} IterationCatchesUp(actions: seq<Action>)
    ensures var l := Execute(NEW_LOOP, actions);
            l.pc.AtPoll? ==> LastPoll(actions) <= |actions| && Enqueued(actions[..LastPoll(actions)]) <= l.executed
  {
    hide Enqueued, LastSwap, LastPoll;
    PushedAreEnqueued(actions);
    MarksAreMoments(actions);
    ExecuteKeeps(NEW_LOOP, actions);
  }

  // ---- one undisturbed iteration ----

  function RunAll(n: nat): seq<Action> {
    seq(n, _ => RunOne)
  }

  /** One turn of `loop` in which nobody else acts. */
  function Iteration(l: Loop): seq<Action> {
    [PollReturns(true), ReadWakeup, StartPending, Swap] + RunAll(|l.pending|) + [FinishPending]
  }

  lemma {:induction false} ExecuteAppend(l: Loop, a: seq<Action>, b: seq<Action>)
    ensures Execute(l, a + b) == Execute(Execute(l, a), b)
    decreases |b|
  {
    if b == [] {
      assert a + b == a;
    } else {
      assert (a + b)[..|a + b| - 1] == a + b[..|b| - 1];
      ExecuteAppend(l, a, b[..|b| - 1]);
    }
  }

  lemma ExecuteOne(l: Loop, a: Action)
    ensures Execute(l, [a]) == Next(l, a)
  {
    assert [a][..0] == [];
  }

  lemma {:induction false} RunAllRuns(l: Loop, n: nat)
    requires l.pc.Running? && !l.loopOwes && n <= |l.pc.batch|
    ensures Execute(l, RunAll(n)) ==
            l.(pc := Running(l.pc.batch[n..]), executed := l.executed + l.pc.batch[..n])
  {
    if n > 0 {
      assert RunAll(n)[..n - 1] == RunAll(n - 1);
      RunAllRuns(l, n - 1);
      assert l.pc.batch[n - 1..][1..] == l.pc.batch[n..];
      assert l.executed + l.pc.batch[..n] == l.executed + l.pc.batch[..n - 1] + [l.pc.batch[n - 1]];
    } else {
      assert l.executed + l.pc.batch[..0] == l.executed;
    }
  }

  lemma StartOfIteration(l: Loop)
    requires !l.loopOwes && l.pc.AtPoll? && l.counter > 0
    ensures Execute(l, [PollReturns(true), ReadWakeup, StartPending, Swap]) ==
            l.(pc := Running(l.pending), pending := [], calling := true, counter := 0,
               pollMark := |l.pushed|, swapMark := |l.pushed|)
  {
    var l1 := l.(pc := Handling(true), pollMark := |l.pushed|);
    assert l1 == Next(l, PollReturns(true));
    var l2 := l1.(pc := Handling(false), counter := 0);
    assert l2 == Next(l1, ReadWakeup);
    var l3 := l2.(pc := Swapping, calling := true);
    assert l3 == Next(l2, StartPending);
    assert l3.(pc := Running(l.pending), pending := [], swapMark := |l.pushed|) == Next(l3, Swap);
    FourSteps(l, PollReturns(true), ReadWakeup, StartPending, Swap);
  }

  lemma FourSteps(l: Loop, a: Action, b: Action, c: Action, d: Action)
    ensures Execute(l, [a, b, c, d]) == Next(Next(Next(Next(l, a), b), c), d)
  {
    hide Next;
    assert [a, b, c, d][..3] == [a, b, c] && [a, b, c][..2] == [a, b] && [a, b][..1] == [a];
    ExecuteOne(l, a);
    assert Execute(l, [a, b]) == Next(Next(l, a), b);
    assert Execute(l, [a, b, c]) == Next(Next(Next(l, a), b), c);
  }

  lemma IterationRunsAll(l: Loop)
    requires !l.loopOwes && l.pc.AtPoll? && l.counter > 0
    ensures var r := Execute(l, Iteration(l));
            r.pc.AtPoll? && r.executed == l.executed + l.pending && r.pending == []
  {
    hide Execute;
    var start := [PollReturns(true), ReadWakeup, StartPending, Swap];
    StartOfIteration(l);
    var l4 := Execute(l, start);
    ExecuteAppend(l, start, RunAll(|l.pending|));
    RunAllRuns(l4, |l.pending|);
    assert l.pending[|l.pending|..] == [] && l.pending[..|l.pending|] == l.pending;
    var l5 := Execute(l4, RunAll(|l.pending|));
    ExecuteAppend(l, start + RunAll(|l.pending|), [FinishPending]);
    ExecuteOne(l5, FinishPending);
  }

  /**
   * Progress: once no thread owes a wakeup, a loop at poll with pending tasks is woken by the eventfd, and one
   * undisturbed iteration runs all of them, in order, and returns to poll.
   */
  lemma PendingTasksGetRun(actions: seq<Action>)
    requires var l := Execute(NEW_LOOP, actions); l.pc.AtPoll? && l.pending != [] && l.owing == {}
    ensures var l := Execute(NEW_LOOP, actions);
            var r := Execute(l, Iteration(l));
            && Enabled(l, PollReturns(true))
            && r.pc.AtPoll? && r.executed == Enqueued(actions) && r.pending == []
  {
    hide Execute, Enqueued, Iteration;
    PushedAreEnqueued(actions);
    var l := Execute(NEW_LOOP, actions);
    ExecuteKeeps(NEW_LOOP, actions);
    WokenAtPoll(l);
    IterationRunsAll(l);
  }

  lemma WokenAtPoll(l: Loop)
    requires Inv(l) && l.pc.AtPoll? && l.pending != [] && l.owing == {}
    ensures !l.loopOwes && l.counter > 0 && l.executed + l.pending == l.pushed
  {
    assert l.executed + [] + l.pending == l.executed + l.pending;
  }
}
