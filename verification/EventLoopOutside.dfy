/**
 * The event loop when its own thread also enqueues while the loop is at poll, before or between calls of `loop`.
 * Such a push is followed by no wakeup, because the thread is the loop's and no functors are being called.
 */
module EventLoopOutside {
  import opened EventLoopModel

  // `quiet` holds the positions in lock order of the tasks pushed that way.
  datatype Outside = Outside(loop: Loop, quiet: set<nat>)

  datatype Move =
    | Inside(action: Action)    // any step of `EventLoopModel`
    | PushAtPoll(task: Task)    // `queueInLoop` on the loop thread, outside an iteration

  function After(o: Outside, m: Move): Outside {
    match m
    case Inside(a) => o.(loop := Next(o.loop, a))
    case PushAtPoll(task) =>
      if !o.loop.pc.AtPoll? then o
      else Outside(Push(o.loop, task).(loopOwes := o.loop.calling), o.quiet + {|o.loop.pushed|})
  }

  function Play(o: Outside, moves: seq<Move>): Outside {
    if moves == [] then o else After(Play(o, moves[..|moves| - 1]), moves[|moves| - 1])
  }

  const NEW_OUTSIDE: Outside := Outside(NEW_LOOP, {})

  /** Every pending task was pushed by the loop thread at poll. */
  predicate OnlyQuiet(o: Outside) {
    forall k :: |o.loop.pushed| - |o.loop.pending| <= k < |o.loop.pushed| ==> k in o.quiet
  }

  predicate Kept(o: Outside) {
    var l := o.loop;
    && (l.calling <==> l.pc.Swapping? || l.pc.Running?)
    && (l.loopOwes ==> l.pc.Running?)
    && (l.pc == Handling(true) ==> l.counter > 0)
    && ((l.pc.AtPoll? || l.pc.Running?) && !WillWake(l) ==> OnlyQuiet(o))
    && l.executed + Batch(l) + l.pending == l.pushed
  }

  lemma PushKeepsOrder(l: Loop, task: Task)
    requires l.executed + Batch(l) + l.pending == l.pushed
    ensures l.executed + Batch(l) + (l.pending + [task]) == l.pushed + [task]
  {
  }

  lemma AfterKeeps(o: Outside, m: Move)
    requires Kept(o)
    ensures Kept(After(o, m))
  {
    var l := o.loop;
    match m
    case PushAtPoll(task) => PushKeepsOrder(l, task);
    case Inside(a) =>
      if Enabled(l, a) {
        match a
        case PushElsewhere(_, task) => PushKeepsOrder(l, task);
        case LoopPush(task) => PushKeepsOrder(l, task);
        case RunOne =>
          assert l.pc.batch == [l.pc.batch[0]] + l.pc.batch[1..];
          assert l.executed + [l.pc.batch[0]] + l.pc.batch[1..] == l.executed + l.pc.batch;
        case Swap =>
          assert l.executed + [] + l.pending == l.executed + l.pending + [];
        case _ =>
      }
  }

  lemma {:induction false} PlayKeeps(moves: seq<Move>)
    ensures Kept(Play(NEW_OUTSIDE, moves))
    decreases |moves|
  {
    hide After;
    if moves != [] {
      PlayKeeps(moves[..|moves| - 1]);
      AfterKeeps(Play(NEW_OUTSIDE, moves[..|moves| - 1]), moves[|moves| - 1]);
    }
  }

  /** What a move enqueues: as in an iteration, or at poll. */
  function MoveEnqueues(o: Outside, m: Move): seq<Task> {
    match m
    case Inside(a) => Enqueues(o.loop, a)
    case PushAtPoll(task) => if o.loop.pc.AtPoll? then [task] else []
  }

  function PlayEnqueued(moves: seq<Move>): seq<Task> {
    if moves == [] then []
    else
      var init := moves[..|moves| - 1];
      PlayEnqueued(init) + MoveEnqueues(Play(NEW_OUTSIDE, init), moves[|moves| - 1])
  }

  lemma AfterPushes(o: Outside, m: Move)
    ensures After(o, m).loop.pushed == o.loop.pushed + MoveEnqueues(o, m)
  {
    assert o.loop.pushed + [] == o.loop.pushed;
    if m.Inside? {
      NextPushes(o.loop, m.action);
    }
    hide Next, Enqueues;
  }

  lemma {:induction false} PlayedAreEnqueued(moves: seq<Move>)
    ensures Play(NEW_OUTSIDE, moves).loop.pushed == PlayEnqueued(moves)
    decreases |moves|
  {
    hide After, MoveEnqueues;
    if moves != [] {
      var init := moves[..|moves| - 1];
      PlayedAreEnqueued(init);
      AfterPushes(Play(NEW_OUTSIDE, init), moves[|moves| - 1]);
    }
  }

  /**
   * Over every run, with pushes at poll anywhere: when the loop is at poll and nothing will wake it, every task
   * that waits was pushed at poll by the loop thread. A task pushed from anywhere else always has its wakeup.
   */
  lemma {:induction false} OnlyQuietTasksWait(moves: seq<Move>)
    ensures var o := Play(NEW_OUTSIDE, moves);
            && o.loop.executed + Batch(o.loop) + o.loop.pending == o.loop.pushed == PlayEnqueued(moves)
            && (o.loop.pc.AtPoll? && o.loop.counter == 0 && o.loop.owing == {} ==>
                  forall k :: |o.loop.pushed| - |o.loop.pending| <= k < |o.loop.pushed| ==> k in o.quiet)
  {
    PlayedAreEnqueued(moves);
    PlayKeeps(moves);
  }

  // ---- exactly when the guarantee holds ----

  /** The guarantee of `EventLoopModel.NoLostWakeup`: at poll with tasks pending, the loop will be woken. */
  predicate Guaranteed(l: Loop) {
    l.pc.AtPoll? && l.pending != [] ==> WillWake(l)
  }

  /** The loop's thread pushes outside an iteration, and nothing else is about to wake the loop. */
  predicate SilentPush(o: Outside, m: Move) {
    m.PushAtPoll? && o.loop.pc.AtPoll? && !WillWake(o.loop)
  }

  /** Any other move keeps what every step inside an iteration keeps. */
  lemma OtherMovesKeepInv(o: Outside, m: Move)
    requires Inv(o.loop) && !SilentPush(o, m)
    ensures Inv(After(o, m).loop)
  {
    match m
    case Inside(a) => NextKeeps(o.loop, a);
    case PushAtPoll(task) => PushKeepsOrder(o.loop, task);
  }

  lemma {:induction false} NoSilentPushKeepsInv(moves: seq<Move>)
    requires forall k :: 0 <= k < |moves| ==> !SilentPush(Play(NEW_OUTSIDE, moves[..k]), moves[k])
    ensures Inv(Play(NEW_OUTSIDE, moves).loop)
    decreases |moves|
  {
    hide After, Inv, SilentPush;
    if moves == [] {
      NewLoopInv();
    } else {
      var init := moves[..|moves| - 1];
      assert forall k :: 0 <= k < |init| ==> init[..k] == moves[..k] && init[k] == moves[k];
      NoSilentPushKeepsInv(init);
      OtherMovesKeepInv(Play(NEW_OUTSIDE, init), moves[|moves| - 1]);
    }
  }

  lemma NewLoopInv()
    ensures Inv(NEW_LOOP)
  {
  }

  /** Right after a silent push the loop is at poll with a task that nothing will wake it for. */
  lemma SilentPushStrands(o: Outside, m: Move)
    requires Kept(o) && SilentPush(o, m)
    ensures !Guaranteed(After(o, m).loop)
  {
  }

  /** The loop after the first `k` moves of a run. */
  function At(moves: seq<Move>, k: nat): Outside
    requires k <= |moves|
  {
    Play(NEW_OUTSIDE, moves[..k])
  }

  lemma NoSilentPushGuarantees(moves: seq<Move>, k: nat)
    requires k <= |moves| && forall j :: 0 <= j < |moves| ==> !SilentPush(At(moves, j), moves[j])
    ensures Guaranteed(At(moves, k).loop)
  {
    hide After, SilentPush, Guaranteed, Inv, Play;
    forall j | 0 <= j < k
      ensures !SilentPush(Play(NEW_OUTSIDE, moves[..k][..j]), moves[..k][j])
    {
      assert moves[..k][..j] == moves[..j];
      assert !SilentPush(At(moves, j), moves[j]);
    }
    NoSilentPushKeepsInv(moves[..k]);
    InvGuarantees(At(moves, k).loop);
  }

  lemma SilentPushShows(moves: seq<Move>, k: nat)
    requires k < |moves| && SilentPush(At(moves, k), moves[k])
    ensures !Guaranteed(At(moves, k + 1).loop)
  {
    hide After, SilentPush, Guaranteed, Kept;
    PlayKeeps(moves[..k]);
    SilentPushStrands(At(moves, k), moves[k]);
    assert moves[..k + 1][..k] == moves[..k];
  }

  /**
   * Over every run: the loop is never at poll with tasks pending and no wakeup coming, if and only if its own
   * thread never pushes a task outside an iteration while no wakeup is coming already.
   */
  lemma {:induction false} WakeupsExactly(moves: seq<Move>)
    ensures (forall k :: 0 <= k <= |moves| ==> Guaranteed(At(moves, k).loop))
       <==> (forall k :: 0 <= k < |moves| ==> !SilentPush(At(moves, k), moves[k]))
  {
    hide At, SilentPush, Guaranteed;
    if forall k :: 0 <= k < |moves| ==> !SilentPush(At(moves, k), moves[k]) {
      forall k | 0 <= k <= |moves|
        ensures Guaranteed(At(moves, k).loop)
      {
        NoSilentPushGuarantees(moves, k);
      }
    } else {
      var k :| 0 <= k < |moves| && SilentPush(At(moves, k), moves[k]);
      SilentPushShows(moves, k);
    }
  }

  lemma InvGuarantees(l: Loop)
    requires Inv(l)
    ensures Guaranteed(l)
  {
  }

  /** And such a task does wait: pushed on a new loop, it is pending and nothing will wake the loop for it. */
  lemma {:induction false} QuietTaskWaits(task: Task)
    ensures var o := Play(NEW_OUTSIDE, [PushAtPoll(task)]);
            o.loop.pc.AtPoll? && o.loop.pending == [task] && !WillWake(o.loop)
  {
    assert [PushAtPoll(task)][..0] == [];
  }

  /** It is only late, not lost: the next wakeup for whatever reason runs everything that waits, in order. */
  lemma {:induction false} QuietTasksRunAtNextWakeup(moves: seq<Move>)
    requires var l := Play(NEW_OUTSIDE, moves).loop; l.pc.AtPoll? && l.counter > 0
    ensures var l := Play(NEW_OUTSIDE, moves).loop;
            var r := Execute(l, Iteration(l));
            r.pc.AtPoll? && r.executed == PlayEnqueued(moves) && r.pending == []
  {
    PlayedAreEnqueued(moves);
    PlayKeeps(moves);
    hide Play, Execute;
    var l := Play(NEW_OUTSIDE, moves).loop;
    IterationRunsAll(l);
    assert l.executed + [] + l.pending == l.executed + l.pending;
  }
}
