/**
 * Double-buffered logging as interleaved steps: producers append under the lock, and one writer thread takes
 * the full buffers, writes them out and recycles two of them. A buffer is its contents; `None` is a null pointer.
 */
module LogModel {
  import opened Bytes

  const LARGE_BUFFER: nat := 4000 * 1000

  // Where `threadFunc` is.
  datatype Pc =
    | NotStarted
    | Starting             // `start` has been called, the thread has not begun
    | Top                  // at the loop condition
    | Waiting              // in `wait_for`, the lock released
    | Writing(done: nat)   // `done` buffers of the batch are in the file
    | Exited

  datatype Logger = Logger(
    current: bytes,
    next: Option<bytes>,
    buffers: seq<bytes>,
    running: bool,
    pc: Pc,
    newBuffer1: Option<bytes>,
    newBuffer2: Option<bytes>,
    batch: seq<bytes>,
    file: bytes,
    sound: bool,      // no assertion has failed and no empty vector has been popped
    accepted: bytes)  // every message that fits a buffer, in lock order

  /** `FixedBuffer::append`: a message that does not fit is dropped. */
  function Filled(buffer: bytes, message: bytes): bytes {
    if |buffer| + |message| < LARGE_BUFFER then buffer + message else buffer
  }

  /** `append`, under the lock. */
  function Append(l: Logger, message: bytes): Logger {
    var l1 := l.(accepted := l.accepted + if |message| < LARGE_BUFFER then message else []);
    if |l.current| + |message| < LARGE_BUFFER then l1.(current := l.current + message)
    else
      l1.(buffers := l.buffers + [l.current],
          current := Filled(if l.next.Some? then l.next.value else [], message),
          next := None)
  }

  /** The assertions at the top of the writer's loop. */
  predicate TopAssertions(l: Logger) {
    l.newBuffer1 == Some([]) && l.newBuffer2 == Some([]) && l.batch == []
  }

  /** The writer's critical section, after any wait. */
  function Swap(l: Logger): Logger {
    l.(batch := l.buffers + [l.current],
       buffers := [],
       current := if l.newBuffer1.Some? then l.newBuffer1.value else [],
       sound := l.sound && l.newBuffer1.Some?,
       newBuffer1 := None,
       next := if l.next.None? then l.newBuffer2 else l.next,
       newBuffer2 := if l.next.None? then None else l.newBuffer2,
       pc := Writing(0))
  }

  /** Takes the last buffer of the batch back for reuse, if `slot` is null. */
  function Refill(slot: Option<bytes>, batch: seq<bytes>): (Option<bytes>, seq<bytes>, bool) {
    if slot.Some? then (slot, batch, true)
    else if batch == [] then (None, batch, false)
    else (Some([]), batch[..|batch| - 1], true)
  }

  function Recycle(l: Logger): Logger {
    var kept := if |l.batch| > 2 then l.batch[..2] else l.batch;
    var (slot1, batch1, ok1) := Refill(l.newBuffer1, kept);
    var (slot2, batch2, ok2) := Refill(l.newBuffer2, batch1);
    l.(newBuffer1 := slot1, newBuffer2 := slot2, batch := [], sound := l.sound && ok1 && ok2, pc := Top)
  }

  datatype Action =
    | Produce(message: bytes)
    | Start
    | BeginThread  // what `threadFunc` does before its loop
    | EnterLoop    // the condition, the assertions, the lock, and the swap if there is something to write
    | EndWait      // notified or timed out; then the swap
    | WriteOne
    | FinishWriting
    | Stop
    | LeaveLoop

  predicate Enabled(l: Logger, a: Action) {
    match a
    case Produce(_) => true
    case Start => l.pc.NotStarted?
    case BeginThread => l.pc.Starting?
    case EnterLoop => l.pc.Top? && l.running
    case EndWait => l.pc.Waiting?
    case WriteOne => l.pc.Writing? && l.pc.done < |l.batch|
    case FinishWriting => l.pc.Writing? && l.pc.done == |l.batch|
    case Stop => true
    case LeaveLoop => l.pc.Top? && !l.running
  }

  function Effect(l: Logger, a: Action): Logger
    requires Enabled(l, a)
  {
    match a
    case Produce(message) => Append(l, message)
    case Start => l.(running := true, pc := Starting)
    case BeginThread => l.(pc := Top, newBuffer1 := Some([]), newBuffer2 := Some([]))
    case EnterLoop =>
      var l1 := l.(sound := l.sound && TopAssertions(l));
      if l.buffers == [] then l1.(pc := Waiting) else Swap(l1)
    case EndWait => Swap(l)
    case WriteOne => l.(file := l.file + l.batch[l.pc.done], pc := Writing(l.pc.done + 1))
    case FinishWriting => Recycle(l)
    case Stop => l.(running := false)
    case LeaveLoop => l.(pc := Exited)
  }

  function Next(l: Logger, a: Action): Logger {
    if Enabled(l, a) then Effect(l, a) else l
  }

  function Execute(l: Logger, actions: seq<Action>): Logger {
    if actions == [] then l else Next(Execute(l, actions[..|actions| - 1]), actions[|actions| - 1])
  }

  const NEW_LOGGER: Logger := Logger([], Some([]), [], false, NotStarted, None, None, [], [], true, [])

  // ---- what every interleaving keeps ----

  function Concat(buffers: seq<bytes>): bytes {
    if buffers == [] then [] else Concat(buffers[..|buffers| - 1]) + buffers[|buffers| - 1]
  }

  /** The part of the batch not yet in the file. */
  function Unwritten(l: Logger): seq<bytes> {
    if l.pc.Writing? && l.pc.done <= |l.batch| then l.batch[l.pc.done..] else []
  }

  /** File, then batch, then full buffers, then the current one: every accepted message, once, in order. */
  predicate Conserved(l: Logger) {
    l.file + Concat(Unwritten(l)) + Concat(l.buffers) + l.current == l.accepted
  }

  /** What makes recycling safe. */
  predicate Recyclable(l: Logger) {
    && l.sound
    && |l.current| < LARGE_BUFFER
    && (l.next.Some? ==> l.next.value == [])
    && (l.next.None? ==> l.buffers != [])
    && (l.pc.NotStarted? || l.pc.Starting? ==> l.batch == [])
    && (l.pc.Top? || l.pc.Waiting? ==> TopAssertions(l))
    && (l.pc.Writing? ==>
          && l.pc.done <= |l.batch|
          && l.newBuffer1.None? && 1 <= |l.batch|
          && (if l.newBuffer2.None? then 2 <= |l.batch| else l.newBuffer2.value == []))
  }

  predicate Inv(l: Logger) {
    Conserved(l) && Recyclable(l)
  }

  lemma ConcatOne(buffers: seq<bytes>, b: bytes)
    ensures Concat(buffers + [b]) == Concat(buffers) + b
  {
    assert (buffers + [b])[..|buffers|] == buffers;
  }

  lemma Associates(a: bytes, b: bytes, c: bytes)
    ensures (a + b) + c == a + (b + c)
  {
  }

  lemma {:induction false} ConcatFirst(buffers: seq<bytes>)
    requires buffers != []
    ensures Concat(buffers) == buffers[0] + Concat(buffers[1..])
  {
    if |buffers| == 1 {
      assert Concat(buffers[..0]) == [] && Concat(buffers[1..]) == [];
      assert buffers[0] + [] == [] + buffers[0];
    } else {
      var init := buffers[..|buffers| - 1];
      ConcatFirst(init);
      assert init[1..] == buffers[1..][..|buffers| - 2];
      var last := buffers[|buffers| - 1];
      assert Concat(buffers[1..]) == Concat(init[1..]) + last;
      Associates(buffers[0], Concat(init[1..]), last);
    }
  }

  lemma AppendKeeps(l: Logger, message: bytes)
    requires Inv(l)
    ensures Inv(Append(l, message))
  {
    hide Concat;
    var r := Append(l, message);
    var before := l.file + Concat(Unwritten(l));
    if |l.current| + |message| < LARGE_BUFFER {
      assert before + Concat(l.buffers) + (l.current + message) == l.accepted + message;
    } else {
      ConcatOne(l.buffers, l.current);
      assert before + (Concat(l.buffers) + l.current) + r.current == l.accepted + r.current;
      assert [] + message == message;
    }
  }

  lemma SwapKeeps(l: Logger)
    requires Inv(l) && (l.pc.Top? || l.pc.Waiting?)
    ensures Inv(Swap(l))
  {
    hide Concat;
    ConcatOne(l.buffers, l.current);
    ConcatNothing();
    assert (l.buffers + [l.current])[0..] == l.buffers + [l.current];
    assert l.file + [] + Concat(l.buffers) + l.current == l.file + (Concat(l.buffers) + l.current) + [] + [];
  }

  lemma ConcatNothing()
    ensures Concat([]) == []
  {
  }

  lemma WriteOneKeeps(l: Logger)
    requires Inv(l) && Enabled(l, WriteOne)
    ensures Inv(Next(l, WriteOne))
  {
    hide Concat;
    ConcatFirst(l.batch[l.pc.done..]);
    assert l.batch[l.pc.done..][1..] == l.batch[l.pc.done + 1..];
    var rest := Concat(l.batch[l.pc.done + 1..]);
    assert l.file + (l.batch[l.pc.done] + rest) == (l.file + l.batch[l.pc.done]) + rest;
  }

  lemma NextKeeps(l: Logger, a: Action)
    requires Inv(l)
    ensures Inv(Next(l, a))
  {
    hide Concat;
    if Enabled(l, a) {
      match a
      case Produce(message) => AppendKeeps(l, message);
      case EnterLoop =>
        if l.buffers != [] {
          SwapKeeps(l);
        }
      case EndWait => SwapKeeps(l);
      case WriteOne => WriteOneKeeps(l);
      case FinishWriting =>
        assert Unwritten(l) == [];
      case _ =>
    }
  }

  lemma {:induction false} ExecuteKeeps(actions: seq<Action>)
    ensures Inv(Execute(NEW_LOGGER, actions))
    decreases |actions|
  {
    if actions == [] {
      ConcatNothing();
    } else {
      ExecuteKeeps(actions[..|actions| - 1]);
      NextKeeps(Execute(NEW_LOGGER, actions[..|actions| - 1]), actions[|actions| - 1]);
    }
  }

  /** Log conservation, under every interleaving. */
  lemma {:induction false} LogIsConserved(actions: seq<Action>)
    ensures var l := Execute(NEW_LOGGER, actions);
            l.file + Concat(Unwritten(l)) + Concat(l.buffers) + l.current == l.accepted
  {
    ExecuteKeeps(actions);
  }

  /**
   * Safe recycling: a null next buffer means a full one is waiting, so the batch has a buffer for every one of the
   * writer's own that is missing, no pop meets an empty vector, and both are back and empty at the top of the loop.
   */
  lemma {:induction false} RecyclingIsSafe(actions: seq<Action>)
    ensures var l := Execute(NEW_LOGGER, actions);
            && l.sound && (l.next.None? ==> l.buffers != [])
            && (l.pc.Top? || l.pc.Waiting? ==>
                  l.newBuffer1 == Some([]) && l.newBuffer2 == Some([]) && l.batch == [])
            && (l.pc.Writing? ==> l.newBuffer1.None? && |l.batch| >= if l.newBuffer2.None? then 2 else 1)
  {
    ExecuteKeeps(actions);
  }

  /** What the accepted bytes are: the messages shorter than a buffer, in the order of their `append` calls. */
  function Messages(actions: seq<Action>): bytes {
    if actions == [] then []
    else
      var last := actions[|actions| - 1];
      Messages(actions[..|actions| - 1]) + (if last.Produce? && |last.message| < LARGE_BUFFER then last.message else [])
  }

  lemma NextAccepts(l: Logger, a: Action)
    ensures Next(l, a).accepted ==
            l.accepted + (if a.Produce? && |a.message| < LARGE_BUFFER then a.message else [])
  {
  }

  lemma {:induction false} AcceptedAreMessages(actions: seq<Action>)
    ensures Execute(NEW_LOGGER, actions).accepted == Messages(actions)
    decreases |actions|
  {
    hide Next;
    if actions != [] {
      AcceptedAreMessages(actions[..|actions| - 1]);
      NextAccepts(Execute(NEW_LOGGER, actions[..|actions| - 1]), actions[|actions| - 1]);
    }
  }

  /** The file is always a prefix of the messages. */
  lemma {:induction false} FileIsPrefix(actions: seq<Action>)
    ensures Execute(NEW_LOGGER, actions).file <= Messages(actions)
  {
    hide Concat;
    LogIsConserved(actions);
    AcceptedAreMessages(actions);
    var l := Execute(NEW_LOGGER, actions);
    assert l.file <= l.file + Concat(Unwritten(l)) + Concat(l.buffers) + l.current;
  }

  /** The step takes what there is to write away from the producers. */
  predicate Swaps(l: Logger, a: Action) {
    Enabled(l, a) && (a.EndWait? || (a.EnterLoop? && l.buffers != []))
  }

  /** The messages before the last swap of a run. */
  function Taken(actions: seq<Action>): bytes {
    if actions == [] then []
    else
      var init := actions[..|actions| - 1];
      if Swaps(Execute(NEW_LOGGER, init), actions[|actions| - 1]) then Messages(init) else Taken(init)
  }

  /** A step that does not swap leaves the file and the rest of the batch together what they were. */
  lemma NextWrites(l: Logger, a: Action)
    requires Inv(l)
    ensures var r := Next(l, a);
            r.file + Concat(Unwritten(r)) ==
            if Swaps(l, a) then l.file + Concat(l.buffers) + l.current else l.file + Concat(Unwritten(l))
  {
    hide Concat;
    ConcatNothing();
    if Swaps(l, a) {
      ConcatOne(l.buffers, l.current);
      assert Next(l, a).batch[0..] == l.buffers + [l.current];
      Associates(l.file, Concat(l.buffers), l.current);
    } else if a.WriteOne? && Enabled(l, a) {
      ConcatFirst(l.batch[l.pc.done..]);
      assert l.batch[l.pc.done..][1..] == l.batch[l.pc.done + 1..];
      Associates(l.file, l.batch[l.pc.done], Concat(l.batch[l.pc.done + 1..]));
    }
  }

  /**
   * The writer catches up: over every run, the file and the rest of the batch are all that was logged before the last
   * swap. At the top of its loop the file alone is, and leaving the loop loses only what came later.
   */
  lemma {:induction false} WriterCatchesUp(actions: seq<Action>)
    ensures var l := Execute(NEW_LOGGER, actions);
            && l.file + Concat(Unwritten(l)) == Taken(actions)
            && (!l.pc.Writing? ==> l.file == Taken(actions))
    decreases |actions|
  {
    hide Concat, Next, Inv, Swaps;
    ConcatNothing();
    var l := Execute(NEW_LOGGER, actions);
    if actions != [] {
      var init, a := actions[..|actions| - 1], actions[|actions| - 1];
      var p := Execute(NEW_LOGGER, init);
      WriterCatchesUp(init);
      ExecuteKeeps(init);
      NextWrites(p, a);
      if Swaps(p, a) {
        LogIsConserved(init);
        AcceptedAreMessages(init);
        NothingUnwritten(p, a);
      }
    }
    assert !l.pc.Writing? ==> l.file + [] == Taken(actions);
  }

  lemma NothingUnwritten(l: Logger, a: Action)
    requires Swaps(l, a)
    ensures l.file + Concat(Unwritten(l)) + Concat(l.buffers) + l.current == l.file + Concat(l.buffers) + l.current
  {
    hide Concat;
    ConcatNothing();
    assert l.file + [] == l.file;
  }

  /** The writer has been started, and not told to stop since. */
  predicate Told(actions: seq<Action>) {
    actions != [] &&
    var init, last := actions[..|actions| - 1], actions[|actions| - 1];
    !last.Stop? && (Told(init) || (last.Start? && Execute(NEW_LOGGER, init).pc.NotStarted?))
  }

  lemma NextRuns(l: Logger, a: Action)
    ensures var r := Next(l, a);
            && (r.running <==> !a.Stop? && (l.running || (a.Start? && l.pc.NotStarted?)))
            && (r.pc.NotStarted? <==> l.pc.NotStarted? && !a.Start?)
            && (r.pc.Exited? ==> !l.pc.NotStarted? && (l.pc.Exited? || !l.running))
  {
  }

  /** Over every run, the writer may go on exactly while it has been told to run, and leaves only if it was stopped. */
  lemma {:induction false} RunsUntilStopped(actions: seq<Action>)
    ensures var l := Execute(NEW_LOGGER, actions);
            && (l.running <==> Told(actions))
            && (l.pc.Exited? ==> !l.running)
            && (!l.running ==> l.pc.NotStarted? || Stop in actions)
    decreases |actions|
  {
    hide Next;
    if actions != [] {
      var init, a := actions[..|actions| - 1], actions[|actions| - 1];
      RunsUntilStopped(init);
      NextRuns(Execute(NEW_LOGGER, init), a);
      assert actions == init + [a];
    }
  }

  // ==== Helpers: `Next` read off for one action at a time ====
  // They state nothing new. A proof that hides `Next` calls the one it needs instead of unfolding every action.

  lemma NextProduce(l: Logger, message: bytes)
    ensures Next(l, Produce(message)) == Append(l, message)
  {
  }

  lemma NextStart(l: Logger)
    requires l.pc.NotStarted?
    ensures Next(l, Start) == l.(running := true, pc := Starting)
  {
  }

  lemma NextBegin(l: Logger)
    requires l.pc.Starting?
    ensures Next(l, BeginThread) == l.(pc := Top, newBuffer1 := Some([]), newBuffer2 := Some([]))
  {
  }

  lemma NextEnter(l: Logger)
    requires l.pc.Top? && l.running && l.sound && TopAssertions(l)
    ensures Next(l, EnterLoop) == if l.buffers == [] then l.(pc := Waiting) else Swap(l)
  {
  }

  lemma NextEndWait(l: Logger)
    requires l.pc.Waiting?
    ensures Next(l, EndWait) == Swap(l)
  {
  }

  lemma NextStop(l: Logger)
    ensures Next(l, Stop) == l.(running := false)
  {
  }

  lemma NextWriteOne(l: Logger)
    requires Enabled(l, WriteOne)
    ensures Next(l, WriteOne) == l.(file := l.file + l.batch[l.pc.done], pc := Writing(l.pc.done + 1))
  {
  }

  lemma NextFinish(l: Logger)
    requires Enabled(l, FinishWriting)
    ensures Next(l, FinishWriting) == Recycle(l)
  {
  }
}
