/** `EventLoop`'s task queue as an object; each method is one or more steps of `EventLoopModel`. */
module EventLoops {
  import opened EventLoopModel

  // What other threads, or the task being run, do between two statements of the loop.
  datatype Disturbance =
    | OtherPushes(thread: ThreadId, task: Task)
    | OtherWakes(thread: ThreadId)
    | TaskEnqueues(task: Task)

  /** The steps of a disturbance; a task that enqueues does the push and then the wakeup. */
  function Steps(d: Disturbance): seq<Action> {
    match d
    case OtherPushes(thread, task) => [PushElsewhere(thread, task)]
    case OtherWakes(thread) => [WakeElsewhere(thread)]
    case TaskEnqueues(task) => [LoopPush(task), LoopWake]
  }

  function AllSteps(ds: seq<Disturbance>): seq<Action> {
    if ds == [] then [] else AllSteps(ds[..|ds| - 1]) + Steps(ds[|ds| - 1])
  }

  /** The loop over the swapped-out functors, with what happens during each. */
  function BatchSteps(during: nat -> seq<Disturbance>, n: nat): seq<Action> {
    if n == 0 then [] else BatchSteps(during, n - 1) + [RunOne] + AllSteps(during(n - 1))
  }

  /** `doPendingFunctors`, where `before` happens between setting the flag and taking the lock. */
  function PendingSteps(l: Loop, before: seq<Disturbance>, during: nat -> seq<Disturbance>): seq<Action> {
    var upToSwap := [StartPending] + AllSteps(before) + [Swap];
    upToSwap + BatchSteps(during, |Batch(Execute(l, upToSwap))|) + [FinishPending]
  }

  // What happens during one turn of `loop`: while it polls, while handlers run, and in `doPendingFunctors`.
  datatype World = World(
    polling: seq<Disturbance>,
    wakeupActive: bool,
    handling: seq<Disturbance>,
    before: seq<Disturbance>,
    during: nat -> seq<Disturbance>,
    quits: bool) // `quit` is called, by anyone

  /** Only the loop thread's own handlers and tasks enqueue on the loop thread. */
  predicate Plausible(w: World) {
    && (forall k :: 0 <= k < |w.polling| ==> !w.polling[k].TaskEnqueues?)
    && (forall k :: 0 <= k < |w.before| ==> !w.before[k].TaskEnqueues?)
  }

  /** One turn of `loop`; the wakeup channel can only be active if the eventfd is readable. */
  function TurnSteps(l: Loop, w: World): seq<Action> {
    var l1 := Execute(l, AllSteps(w.polling));
    var toHandled := HandleSteps(w.wakeupActive && l1.counter > 0, w.handling);
    AllSteps(w.polling) + toHandled + PendingSteps(Execute(l1, toHandled), w.before, w.during)
  }

  function HandleSteps(wakeupActive: bool, handling: seq<Disturbance>): seq<Action> {
    [PollReturns(wakeupActive)] + (if wakeupActive then [ReadWakeup] else []) + AllSteps(handling)
  }

  function LoopSteps(l: Loop, worlds: seq<World>): seq<Action> {
    if worlds == [] then []
    else
      var init := LoopSteps(l, worlds[..|worlds| - 1]);
      init + TurnSteps(Execute(l, init), worlds[|worlds| - 1])
  }

  class EventLoop {
    var pendingFunctors: seq<Task>
    var callingPendingFunctors: bool
    var quit: bool
    var wakeupCount: nat // the eventfd
    var executed: seq<Task> // the functors called so far
    var owing: set<ThreadId> // the other threads between the two halves of `queueInLoop`
    ghost var model: Loop

    ghost predicate Mirrors()
      reads `model, `pendingFunctors, `callingPendingFunctors, `wakeupCount, `executed, `owing
    {
      && model.pending == pendingFunctors
      && model.calling == callingPendingFunctors
      && model.counter == wakeupCount
      && model.executed == executed
      && model.owing == owing
    }

    constructor ()
      ensures Mirrors() && model == NEW_LOOP
    {
      pendingFunctors, callingPendingFunctors, wakeupCount, executed, owing := [], false, 0, [], {};
      quit := false;
      model := NEW_LOOP;
    }

    /** A write of 1 to the eventfd, which fails when it is full. */
    method Wakeup()
      modifies this`wakeupCount
      ensures wakeupCount == Wake(old(wakeupCount))
    {
      if wakeupCount < EVENTFD_MAX {
        wakeupCount := wakeupCount + 1;
      }
    }

    /** `queueInLoop` from another thread, up to the wakeup. */
    method PushFrom(thread: ThreadId, task: Task)
      requires Mirrors()
      modifies this
      ensures Mirrors() && model == Next(old(model), PushElsewhere(thread, task))
      ensures thread !in old(owing) ==> pendingFunctors == old(pendingFunctors) + [task]
    {
      if thread !in owing {
        pendingFunctors, owing := pendingFunctors + [task], owing + {thread};
      }
      model := Next(model, PushElsewhere(thread, task));
    }

    /** And its wakeup. */
    method WakeFrom(thread: ThreadId)
      requires Mirrors()
      modifies this
      ensures Mirrors() && model == Next(old(model), WakeElsewhere(thread))
    {
      if thread in owing {
        Wakeup();
        owing := owing - {thread};
      }
      model := Next(model, WakeElsewhere(thread));
    }

    /** `queueInLoop` on the loop thread: it wakes the loop only when functors are being called. */
    method QueueInLoop(task: Task)
      requires Mirrors() && Inv(model) && (model.pc.Handling? || model.pc.Running?) && !model.loopOwes
      modifies this
      ensures Mirrors() && Inv(model) && model.pc == old(model.pc) && !model.loopOwes
      ensures model == Execute(old(model), [LoopPush(task), LoopWake])
      ensures executed == old(executed) && pendingFunctors == old(pendingFunctors) + [task]
    {
      TwoSteps(model, LoopPush(task), LoopWake);
      NextKeeps(model, LoopPush(task));
      NextKeeps(Next(model, LoopPush(task)), LoopWake);
      pendingFunctors := pendingFunctors + [task];
      if callingPendingFunctors {
        Wakeup();
      }
      model := Next(Next(model, LoopPush(task)), LoopWake);
    }

    /** The wakeup channel's handler: reading the eventfd sets it to zero. */
    method HandleRead()
      requires Mirrors() && model.pc == Handling(true)
      modifies this
      ensures Mirrors() && model == Next(old(model), ReadWakeup)
    {
      wakeupCount := 0;
      model := Next(model, ReadWakeup);
    }

    method Suffer(d: Disturbance)
      requires Mirrors() && Inv(model) && !model.loopOwes
      requires d.TaskEnqueues? ==> model.pc.Handling? || model.pc.Running?
      modifies this
      ensures Mirrors() && Inv(model) && !model.loopOwes && model.pc == old(model.pc)
      ensures model == Execute(old(model), Steps(d))
      ensures executed == old(executed) && old(pendingFunctors) <= pendingFunctors
    {
      match d {
        case OtherPushes(thread, task) =>
          NextKeeps(model, PushElsewhere(thread, task));
          ExecuteOne(model, PushElsewhere(thread, task));
          PushFrom(thread, task);
        case OtherWakes(thread) =>
          NextKeeps(model, WakeElsewhere(thread));
          ExecuteOne(model, WakeElsewhere(thread));
          WakeFrom(thread);
        case TaskEnqueues(task) =>
          QueueInLoop(task);
      }
    }

    method SufferAll(ds: seq<Disturbance>)
      requires Mirrors() && Inv(model) && !model.loopOwes
      requires model.pc.Handling? || model.pc.Running? || forall k :: 0 <= k < |ds| ==> !ds[k].TaskEnqueues?
      modifies this
      ensures Mirrors() && Inv(model) && !model.loopOwes && model.pc == old(model.pc)
      ensures model == Execute(old(model), AllSteps(ds))
      ensures executed == old(executed) && old(pendingFunctors) <= pendingFunctors
    {
      ghost var l := model;
      for k := 0 to |ds|
        invariant Mirrors() && Inv(model) && !model.loopOwes && model.pc == l.pc
        invariant model == Execute(l, AllSteps(ds[..k]))
        invariant executed == old(executed) && old(pendingFunctors) <= pendingFunctors
      {
        hide Inv, Next;
        Suffer(ds[k]);
        assert ds[..k + 1][..k] == ds[..k];
        ExecuteAppend(l, AllSteps(ds[..k]), Steps(ds[k]));
      }
      assert ds[..|ds|] == ds;
    }

    /**
     * `doPendingFunctors`: the queue is swapped out and run to its end; whatever is enqueued meanwhile stays in
     * the queue. The functors called are exactly those that were pending at the swap, in order.
     */
    method DoPendingFunctors(before: seq<Disturbance>, during: nat -> seq<Disturbance>)
      requires Mirrors() && Inv(model) && model.pc == Handling(false) && !model.loopOwes
      requires forall k :: 0 <= k < |before| ==> !before[k].TaskEnqueues?
      modifies this
      ensures Mirrors() && Inv(model) && model.pc.AtPoll?
      ensures model == Execute(old(model), PendingSteps(old(model), before, during))
      ensures old(executed) + old(pendingFunctors) <= executed
    {
      ghost var l := model;
      StartPending();
      ghost var l1 := model;
      SufferAll(before);
      ghost var l2 := model;
      var functors := SwapOut();
      ghost var l3 := model;
      RunBatch(functors, during);
      ghost var l4 := model;
      FinishPending();
      PendingIsExecuted(l, before, during, l1, l2, l3, l4);
    }

    /** `poll` returns, and the handlers of the active channels run; the wakeup channel's reads the eventfd. */
    method PollAndHandle(wakeupActive: bool, handling: seq<Disturbance>)
      requires Mirrors() && Inv(model) && model.pc.AtPoll? && (wakeupActive ==> wakeupCount > 0)
      modifies this
      ensures Mirrors() && Inv(model) && model.pc == Handling(false) && !model.loopOwes
      ensures model == Execute(old(model), HandleSteps(wakeupActive, handling))
      ensures executed == old(executed) && old(pendingFunctors) <= pendingFunctors
    {
      ghost var l := model;
      ghost var start := [PollReturns(wakeupActive)] + (if wakeupActive then [ReadWakeup] else []);
      PollSteps(l, wakeupActive);
      NextKeeps(l, PollReturns(wakeupActive));
      NextKeeps(Next(l, PollReturns(wakeupActive)), ReadWakeup);
      model := Next(l, PollReturns(wakeupActive));
      if wakeupActive {
        HandleRead();
      }
      assert model == Execute(l, start) && model.pc == Handling(false);
      hide Inv, Next, Execute;
      ExecuteAppend(l, start, AllSteps(handling));
      SufferAll(handling);
    }

    /** Poll, handle, run the pending functors. */
    method PollHandleRun(w: World)
      requires Mirrors() && Inv(model) && model.pc.AtPoll? && !model.loopOwes && Plausible(w)
      modifies this
      ensures Mirrors() && Inv(model) && model.pc.AtPoll? && !model.loopOwes
      ensures model == Execute(old(model), TurnSteps(old(model), w))
      ensures old(executed) + old(pendingFunctors) <= executed
    {
      hide Inv, Next, Execute, TurnSteps, AllSteps, HandleSteps, PendingSteps;
      ghost var l := model;
      SufferAll(w.polling);
      ghost var l1 := model;
      var wakeupActive := w.wakeupActive && wakeupCount > 0;
      assert wakeupCount == l1.counter;
      hide Mirrors;
      PollAndHandle(wakeupActive, w.handling);
      ghost var l2 := model;
      DoPendingFunctors(w.before, w.during);
      TurnIsExecuted(l, w, l1, l2);
    }

    /**
     * One turn of `loop`. Every functor that was pending when the turn began has been called when it ends, after
     * those called before and in order.
     */
    method Turn(w: World)
      requires Mirrors() && Inv(model) && model.pc.AtPoll? && !model.loopOwes && Plausible(w)
      modifies this
      ensures Mirrors() && Inv(model) && model.pc.AtPoll? && !model.loopOwes
      ensures model == Execute(old(model), TurnSteps(old(model), w))
      ensures old(executed) + old(pendingFunctors) <= executed
      ensures quit == (old(quit) || w.quits)
    {
      hide Inv, Execute, TurnSteps, Mirrors;
      var quitting := quit;
      PollHandleRun(w);
      quit := quitting || w.quits;
    }

    /**
     * `loop`: it forgets any earlier `quit`, and turns until it sees one, as far as the given turns go. No turn
     * but the last has seen a `quit`.
     */
    method Loop(worlds: seq<World>) returns (turns: nat)
      requires Mirrors() && Inv(model) && model.pc.AtPoll? && !model.loopOwes
      requires forall k :: 0 <= k < |worlds| ==> Plausible(worlds[k])
      modifies this
      ensures Mirrors() && Inv(model) && model.pc.AtPoll? && !model.loopOwes
      ensures turns <= |worlds| && (worlds != [] ==> turns > 0)
      ensures forall k :: 0 <= k < turns - 1 ==> !worlds[k].quits
      ensures turns < |worlds| ==> worlds[turns - 1].quits
      ensures model == Execute(old(model), LoopSteps(old(model), worlds[..turns]))
      ensures turns > 0 ==> old(executed) + old(pendingFunctors) <= executed
    {
      hide Inv, Next, Execute, Mirrors, TurnSteps;
      ghost var l := model;
      LoopStepsNone(l);
      quit, turns := false, 0;
      while turns < |worlds| && !quit
        invariant turns <= |worlds|
        invariant Mirrors() && Inv(model) && model.pc.AtPoll? && !model.loopOwes
        invariant model == Execute(l, LoopSteps(l, worlds[..turns]))
        invariant turns == 0 ==> !quit && executed == old(executed) && pendingFunctors == old(pendingFunctors)
        invariant turns > 0 ==> old(executed) + old(pendingFunctors) <= executed && quit == worlds[turns - 1].quits
        invariant forall k :: 0 <= k < turns - 1 ==> !worlds[k].quits
      {
        ghost var r := model;
        Turn(worlds[turns]);
        turns := turns + 1;
        assert worlds[..turns][..turns - 1] == worlds[..turns - 1];
        ExecuteAppend(l, LoopSteps(l, worlds[..turns - 1]), TurnSteps(r, worlds[turns - 1]));
      }
    }

    method StartPending()
      requires Mirrors() && Inv(model) && model.pc == Handling(false) && !model.loopOwes
      modifies this
      ensures Mirrors() && Inv(model) && model == Next(old(model), EventLoopModel.StartPending)
      ensures model.pc.Swapping? && !model.loopOwes
      ensures executed == old(executed) && pendingFunctors == old(pendingFunctors)
    {
      NextKeeps(model, EventLoopModel.StartPending);
      callingPendingFunctors := true;
      model := Next(model, EventLoopModel.StartPending);
    }

    method SwapOut() returns (functors: seq<Task>)
      requires Mirrors() && Inv(model) && model.pc.Swapping? && !model.loopOwes
      modifies this
      ensures Mirrors() && Inv(model) && model == Next(old(model), Swap)
      ensures model.pc == Running(functors) && !model.loopOwes
      ensures functors == old(pendingFunctors) && executed == old(executed)
    {
      NextKeeps(model, Swap);
      functors := pendingFunctors;
      pendingFunctors := [];
      model := Next(model, Swap);
    }

    method FinishPending()
      requires Mirrors() && Inv(model) && model.pc == Running([]) && !model.loopOwes
      modifies this
      ensures Mirrors() && Inv(model) && model == Next(old(model), EventLoopModel.FinishPending)
      ensures model.pc.AtPoll? && executed == old(executed)
    {
      NextKeeps(model, EventLoopModel.FinishPending);
      callingPendingFunctors := false;
      model := Next(model, EventLoopModel.FinishPending);
    }

    method CallOne(functor: Task, during: seq<Disturbance>)
      requires Mirrors() && Inv(model) && model.pc.Running? && !model.loopOwes
      requires model.pc.batch != [] && model.pc.batch[0] == functor
      modifies this
      ensures Mirrors() && Inv(model) && model.pc == Running(old(model.pc.batch)[1..]) && !model.loopOwes
      ensures model == Execute(old(model), [RunOne] + AllSteps(during))
      ensures executed == old(executed) + [functor]
    {
      hide Inv, Next, Execute;
      ghost var l := model;
      NextKeeps(l, RunOne);
      NextRunOne(l);
      executed := executed + [functor];
      model := Next(l, RunOne);
      SufferAll(during);
      ExecuteOne(l, RunOne);
      ExecuteAppend(l, [RunOne], AllSteps(during));
    }

    method RunBatch(functors: seq<Task>, during: nat -> seq<Disturbance>)
      requires Mirrors() && Inv(model) && model.pc == Running(functors) && !model.loopOwes
      modifies this
      ensures Mirrors() && Inv(model) && model.pc == Running([]) && !model.loopOwes
      ensures model == Execute(old(model), BatchSteps(during, |functors|))
      ensures executed == old(executed) + functors
    {
      hide Inv, Next, Execute, Mirrors, BatchSteps;
      ghost var l := model;
      BatchStepsNone(l, during);
      for i := 0 to |functors|
        invariant Mirrors() && Inv(model) && model.pc == Running(functors[i..]) && !model.loopOwes
        invariant model == Execute(l, BatchSteps(during, i))
        invariant executed == old(executed) + functors[..i]
      {
        assert functors[i..][1..] == functors[i + 1..] && functors[..i + 1] == functors[..i] + [functors[i]];
        CallOne(functors[i], during(i));
        BatchStepsExecute(l, during, i);
      }
    }
  }

  lemma TurnIsExecuted(l: Loop, w: World, l1: Loop, l2: Loop)
    requires l1 == Execute(l, AllSteps(w.polling))
    requires l2 == Execute(l1, HandleSteps(w.wakeupActive && l1.counter > 0, w.handling))
    ensures Execute(l, TurnSteps(l, w)) == Execute(l2, PendingSteps(l2, w.before, w.during))
  {
    hide Execute, PendingSteps, HandleSteps, AllSteps;
    var toHandled := HandleSteps(w.wakeupActive && l1.counter > 0, w.handling);
    ExecuteAppend(l, AllSteps(w.polling), toHandled);
    ExecuteAppend(l, AllSteps(w.polling) + toHandled, PendingSteps(l2, w.before, w.during));
  }

  lemma LoopStepsNone(l: Loop)
    ensures Execute(l, LoopSteps(l, [])) == l
  {
  }

  lemma PollSteps(l: Loop, wakeupActive: bool)
    requires l.pc.AtPoll? && (wakeupActive ==> l.counter > 0)
    ensures Execute(l, [PollReturns(wakeupActive)] + (if wakeupActive then [ReadWakeup] else [])) ==
            if wakeupActive then Next(Next(l, PollReturns(true)), ReadWakeup) else Next(l, PollReturns(false))
  {
    ExecuteOne(l, PollReturns(wakeupActive));
    TwoSteps(l, PollReturns(true), ReadWakeup);
    assert [PollReturns(true)] + [ReadWakeup] == [PollReturns(true), ReadWakeup];
  }

  lemma BatchStepsNone(l: Loop, during: nat -> seq<Disturbance>)
    ensures Execute(l, BatchSteps(during, 0)) == l
  {
  }

  lemma BatchStepsExecute(l: Loop, during: nat -> seq<Disturbance>, i: nat)
    ensures Execute(l, BatchSteps(during, i + 1)) ==
            Execute(Execute(l, BatchSteps(during, i)), [RunOne] + AllSteps(during(i)))
  {
    hide Execute, AllSteps;
    ExecuteAppend(l, BatchSteps(during, i), [RunOne] + AllSteps(during(i)));
    assert BatchSteps(during, i + 1) == BatchSteps(during, i) + ([RunOne] + AllSteps(during(i)));
  }

  lemma NextRunOne(l: Loop)
    requires l.pc.Running? && l.pc.batch != [] && !l.loopOwes
    ensures Next(l, RunOne) == l.(pc := Running(l.pc.batch[1..]), executed := l.executed + [l.pc.batch[0]])
  {
  }

  lemma TwoSteps(l: Loop, a: Action, b: Action)
    ensures Execute(l, [a, b]) == Next(Next(l, a), b)
  {
    hide Next;
    ExecuteOne(l, a);
    assert [a, b][..1] == [a];
  }

  lemma PendingIsExecuted(l: Loop, before: seq<Disturbance>, during: nat -> seq<Disturbance>,
                          l1: Loop, l2: Loop, l3: Loop, l4: Loop)
    requires l1 == Next(l, StartPending)
    requires l2 == Execute(l1, AllSteps(before))
    requires l3 == Next(l2, Swap)
    requires l4 == Execute(l3, BatchSteps(during, |Batch(l3)|))
    ensures Execute(l, PendingSteps(l, before, during)) == Next(l4, FinishPending)
  {
    hide Next;
    ExecuteOne(l, StartPending);
    ExecuteAppend(l, [StartPending], AllSteps(before));
    ExecuteOne(l2, Swap);
    ExecuteAppend(l, [StartPending] + AllSteps(before), [Swap]);
    var upToSwap := [StartPending] + AllSteps(before) + [Swap];
    var batch := BatchSteps(during, |Batch(l3)|);
    ExecuteAppend(l, upToSwap, batch);
    ExecuteOne(l4, FinishPending);
    ExecuteAppend(l, upToSwap + batch, [FinishPending]);
  }
}
