/** What every run of a connection keeps: no byte lost, watermarks with hysteresis, a half-close only when drained. */
module TcpProofs {
  import opened Bytes
  import opened ConnectionState
  import opened TcpModel

  // ---- reading the log ----

  /** The message bytes the kernel has taken. */
  function Wire(log: seq<Event>): bytes {
    if log == [] then []
    else
      var last := log[|log| - 1];
      Wire(log[..|log| - 1]) + (if last.ToWire? then last.data else [])
  }

  /** The watermark callbacks, in the order in which they were queued. */
  function WaterTasks(log: seq<Event>): seq<Task> {
    if log == [] then []
    else
      var last := log[|log| - 1];
      WaterTasks(log[..|log| - 1]) +
      (if last.Queued? && (last.task.HighWater? || last.task.LowWater?) then [last.task] else [])
  }

  function Count(log: seq<Event>, e: Event): nat {
    if log == [] then 0 else Count(log[..|log| - 1], e) + (if log[|log| - 1] == e then 1 else 0)
  }

  lemma LogOne(log: seq<Event>, e: Event)
    ensures Wire(log + [e]) == Wire(log) + (if e.ToWire? then e.data else [])
    ensures WaterTasks(log + [e]) ==
            WaterTasks(log) + (if e.Queued? && (e.task.HighWater? || e.task.LowWater?) then [e.task] else [])
    ensures forall x :: Count(log + [e], x) == Count(log, x) + (if x == e then 1 else 0)
  {
    assert (log + [e])[..|log|] == log;
  }

  // ---- conservation ----

  /** What the kernel has taken, then what is queued, is what was accepted. */
  predicate Conserved(c: Conn) {
    c.accepted == Wire(c.log) + c.out
  }

  lemma EnqueueConserves(c: Conn, rest: bytes)
    requires c.accepted == Wire(c.log) + c.out + rest
    ensures Conserved(Enqueue(c, rest))
  {
    hide Wire, WaterTasks, Count;
    LogOne(c.log, Queued(HighWater(|c.out + rest|)));
    assert Wire(c.log) + c.out + rest == Wire(c.log) + (c.out + rest);
  }

  lemma SendConserves(c: Conn, message: bytes, w: WriteResult)
    requires Conserved(c)
    ensures Conserved(SendInLoop(c, message, w))
  {
    hide Wire, WaterTasks, Count, Enqueue;
    var c1 := c.(accepted := c.accepted + message);
    if c.state == Disconnected || (!c.writing && c.out == [] && w == PeerGone) {
    } else if c.writing || c.out != [] || !w.Wrote? {
      EnqueueConserves(c1, message);
    } else {
      var n := Least(w.count, |message|);
      LogOne(c.log, ToWire(message[..n]));
      var c2 := Log(c1, true, ToWire(message[..n]));
      LogOne(c2.log, Queued(WriteComplete));
      EnqueueConserves(Log(c2, n == |message| && c.callbacks.writeComplete, Queued(WriteComplete)), message[n..]);
    }
  }

  lemma FlushBufferConserves(c: Conn, w: WriteResult)
    requires Conserved(c) && FlushBuffer(c, w).Some?
    ensures Conserved(FlushBuffer(c, w).value)
  {
    hide Wire, WaterTasks, Count;
    if c.out != [] && w.Wrote? {
      var n := Least(w.count, |c.out|);
      assert c.out == c.out[..n] + c.out[n..];
      LogOne(c.log, ToWire(c.out[..n]));
    }
  }

  lemma FinishWritingConserves(c: Conn)
    requires Conserved(c)
    ensures Conserved(FinishWriting(c))
  {
    hide Wire, WaterTasks, Count;
    LogOne(c.log, Queued(WriteComplete));
    LogOne(c.log, HalfClose);
    LogOne(c.log + [Queued(WriteComplete)], HalfClose);
  }

  lemma HandleWriteConserves(c: Conn, w: WriteResult, f: SendFileResult)
    requires Conserved(c)
    ensures Conserved(HandleWrite(c, w, f))
  {
    hide Wire, WaterTasks, Count, FlushBuffer, FinishWriting;
    if c.writing && FlushBuffer(c, w).Some? {
      FlushBufferConserves(c, w);
      var c1 := FlushBuffer(c, w).value;
      LogOne(c1.log, Queued(LowWater(|c1.out|)));
      var c2 := CheckLowWater(c1);
      LogOne(c2.log, FileToWire(FileCount(c2, f)));
      FinishWritingConserves(FlushFile(c2, f).0);
    }
  }

  lemma NextConserves(c: Conn, a: Action)
    requires Conserved(c)
    ensures Conserved(Next(c, a))
  {
    hide Wire, WaterTasks, Count, SendInLoop, HandleWrite;
    match a
    case SendCall(message, w) => SendConserves(c, message, w);
    case SendTask(message, w) => SendConserves(c, message, w);
    case Writable(w, f) => HandleWriteConserves(c, w, f);
    case _ => LogOtherEvents(c);
  }

  /** The events that are not about bytes or marks. */
  lemma LogOtherEvents(c: Conn)
    ensures forall e :: e in {Up, Down, CloseCallback, HalfClose, Queued(ForceCloseTask), Queued(WriteComplete)} ==>
              Wire(c.log + [e]) == Wire(c.log) && WaterTasks(c.log + [e]) == WaterTasks(c.log)
    ensures Wire(c.log + [Down] + [CloseCallback]) == Wire(c.log)
    ensures WaterTasks(c.log + [Down] + [CloseCallback]) == WaterTasks(c.log)
  {
    forall e | e in {Up, Down, CloseCallback, HalfClose, Queued(ForceCloseTask), Queued(WriteComplete)}
      ensures Wire(c.log + [e]) == Wire(c.log) && WaterTasks(c.log + [e]) == WaterTasks(c.log)
    {
      LogOne(c.log, e);
    }
    LogOne(c.log + [Down], CloseCallback);
  }

  // ---- watermarks ----

  /** High and low callbacks alternate, starting with high, and report sizes past their marks. */
  predicate Alternates(tasks: seq<Task>, low: nat, high: nat) {
    forall i :: 0 <= i < |tasks| ==>
      if i % 2 == 0 then tasks[i].HighWater? && tasks[i].queued >= high
      else tasks[i].LowWater? && tasks[i].queued <= low
  }

  /** The crossings that have a callback. */
  function Reported(crossings: seq<Task>, callbacks: Callbacks): seq<Task> {
    if crossings == [] then []
    else
      var last := crossings[|crossings| - 1];
      Reported(crossings[..|crossings| - 1], callbacks) +
      (if (last.HighWater? && callbacks.highWater) || (last.LowWater? && callbacks.lowWater) then [last] else [])
  }

  lemma ReportedOne(crossings: seq<Task>, callbacks: Callbacks, task: Task)
    ensures Reported(crossings + [task], callbacks) ==
            Reported(crossings, callbacks) +
            (if (task.HighWater? && callbacks.highWater) || (task.LowWater? && callbacks.lowWater) then [task] else [])
  {
    assert (crossings + [task])[..|crossings|] == crossings;
  }

  /** Hysteresis: the flag says which mark was crossed last; what is queued is every crossing that has a callback. */
  predicate Marked(c: Conn) {
    && c.low < c.high
    && (if c.above then c.low < |c.out| else |c.out| < c.high)
    && Alternates(c.crossings, c.low, c.high) && (|c.crossings| % 2 == 1 <==> c.above)
    && WaterTasks(c.log) == Reported(c.crossings, c.callbacks)
  }

  lemma EnqueueMarks(c: Conn, rest: bytes)
    requires Marked(c)
    ensures Marked(Enqueue(c, rest))
  {
    hide Wire, WaterTasks, Count, Reported;
    LogOne(c.log, Queued(HighWater(|c.out + rest|)));
    ReportedOne(c.crossings, c.callbacks, HighWater(|c.out + rest|));
  }

  lemma SendMarks(c: Conn, message: bytes, w: WriteResult)
    requires Marked(c)
    ensures Marked(SendInLoop(c, message, w))
  {
    hide Reported, Wire, WaterTasks, Count, Enqueue;
    var c1 := c.(accepted := c.accepted + message);
    EnqueueMarks(c1, message);
    if w.Wrote? {
      var n := Least(w.count, |message|);
      LogOne(c.log, ToWire(message[..n]));
      var c2 := Log(c1, true, ToWire(message[..n]));
      LogOne(c2.log, Queued(WriteComplete));
      EnqueueMarks(Log(c2, n == |message| && c.callbacks.writeComplete, Queued(WriteComplete)), message[n..]);
    }
  }

  lemma FlushBufferMarks(c: Conn, w: WriteResult)
    requires Marked(c) && FlushBuffer(c, w).Some?
    ensures Marked(CheckLowWater(FlushBuffer(c, w).value))
  {
    hide Reported, Wire, WaterTasks, Count;
    if c.out != [] && w.Wrote? {
      LogOne(c.log, ToWire(c.out[..Least(w.count, |c.out|)]));
    }
    var c1 := FlushBuffer(c, w).value;
    LogOne(c1.log, Queued(LowWater(|c1.out|)));
    ReportedOne(c1.crossings, c1.callbacks, LowWater(|c1.out|));
  }

  lemma FinishWritingMarks(c: Conn)
    requires Marked(c)
    ensures Marked(FinishWriting(c))
  {
    hide Reported, Wire, WaterTasks, Count;
    LogOne(c.log, Queued(WriteComplete));
    LogOne(c.log, HalfClose);
    LogOne(c.log + [Queued(WriteComplete)], HalfClose);
  }

  lemma HandleWriteMarks(c: Conn, w: WriteResult, f: SendFileResult)
    requires Marked(c)
    ensures Marked(HandleWrite(c, w, f))
  {
    hide Reported, Wire, WaterTasks, Count, FlushBuffer, CheckLowWater, FinishWriting;
    if c.writing && FlushBuffer(c, w).Some? {
      FlushBufferMarks(c, w);
      var c1 := CheckLowWater(FlushBuffer(c, w).value);
      LogOne(c1.log, FileToWire(FileCount(c1, f)));
      FinishWritingMarks(FlushFile(c1, f).0);
    }
  }

  lemma NextMarks(c: Conn, a: Action)
    requires Marked(c)
    ensures Marked(Next(c, a))
  {
    hide Reported, Wire, WaterTasks, Count, SendInLoop, HandleWrite;
    match a
    case SendCall(message, w) => SendMarks(c, message, w);
    case SendTask(message, w) => SendMarks(c, message, w);
    case Writable(w, f) => HandleWriteMarks(c, w, f);
    case _ => LogOtherEvents(c);
  }

  // ---- write interest ----

  predicate Pending(c: Conn) {
    c.out != [] || c.fileFd >= 0
  }

  /** An open connection with something to send has write interest on. */
  predicate Interested(c: Conn) {
    && (Open(c) && Pending(c) ==> c.writing)
    && (c.state == Connecting ==> !Pending(c) && !c.writing)
  }

  lemma NextInterested(c: Conn, a: Action)
    requires Interested(c)
    ensures Interested(Next(c, a))
  {
    match a
    case SendCall(message, w) => SendInterested(c, message, w);
    case SendTask(message, w) => SendInterested(c, message, w);
    case Writable(w, f) => HandleWriteInterested(c, w, f);
    case _ =>
  }

  lemma SendInterested(c: Conn, message: bytes, w: WriteResult)
    requires Interested(c)
    ensures c.state != Connecting ==> Interested(SendInLoop(c, message, w))
    ensures SendInLoop(c, message, w).state == c.state
  {
  }

  lemma HandleWriteInterested(c: Conn, w: WriteResult, f: SendFileResult)
    requires Interested(c)
    ensures Interested(HandleWrite(c, w, f))
  {
    hide FlushBuffer, CheckLowWater, FlushFile, FinishWriting;
    if c.writing && FlushBuffer(c, w).Some? {
      FlushKeepsInterest(c, w, f);
      FinishWritingInterested(FlushFile(CheckLowWater(FlushBuffer(c, w).value), f).0);
    }
  }

  lemma FlushKeepsInterest(c: Conn, w: WriteResult, f: SendFileResult)
    requires FlushBuffer(c, w).Some?
    ensures var c2 := FlushFile(CheckLowWater(FlushBuffer(c, w).value), f).0;
            c2.writing == c.writing && c2.state == c.state
  {
  }

  lemma FinishWritingInterested(c: Conn)
    requires c.writing && c.state != Connecting
    ensures Interested(FinishWriting(c))
  {
  }

  // ---- lifecycle ----

  /** One up notification, at most one down and one close callback, the last two once disconnected. */
  predicate Lived(c: Conn) {
    && (c.callbacks.connection ==> Count(c.log, Up) == (if c.state == Connecting then 0 else 1))
    && (c.callbacks.connection ==> Count(c.log, Down) == (if c.state == Disconnected then 1 else 0))
    && (c.callbacks.close ==> Count(c.log, CloseCallback) <= (if c.state == Disconnected then 1 else 0))
  }

  /** Nothing but the write path has changed: not the settings, the state or the lifecycle events. */
  predicate SameLife(c: Conn, c': Conn) {
    && c'.state == c.state && c'.callbacks == c.callbacks && c'.low == c.low && c'.high == c.high
    && forall e :: e in {Up, Down, CloseCallback} ==> Count(c'.log, e) == Count(c.log, e)
  }

  lemma LogSameLife(c: Conn, e: Event)
    requires e !in {Up, Down, CloseCallback}
    ensures forall when :: SameLife(c, Log(c, when, e))
  {
    hide Wire, WaterTasks, Count;
    LogOne(c.log, e);
  }

  lemma EnqueueSameLife(c: Conn, rest: bytes)
    ensures SameLife(c, Enqueue(c, rest))
  {
    hide Wire, WaterTasks, Count;
    LogOne(c.log, Queued(HighWater(|c.out + rest|)));
  }

  lemma SendSameLife(c: Conn, message: bytes, w: WriteResult)
    ensures SameLife(c, SendInLoop(c, message, w))
  {
    hide Wire, WaterTasks, Count, Enqueue;
    var c1 := c.(accepted := c.accepted + message);
    EnqueueSameLife(c1, message);
    if w.Wrote? {
      var n := Least(w.count, |message|);
      LogSameLife(c1, ToWire(message[..n]));
      var c2 := Log(c1, true, ToWire(message[..n]));
      LogSameLife(c2, Queued(WriteComplete));
      EnqueueSameLife(Log(c2, n == |message| && c.callbacks.writeComplete, Queued(WriteComplete)), message[n..]);
    }
  }

  lemma SameLifeTwice(a: Conn, b: Conn, c: Conn)
    requires SameLife(a, b) && SameLife(b, c)
    ensures SameLife(a, c)
  {
    hide Count;
  }

  lemma FlushBufferSameLife(c: Conn, w: WriteResult)
    requires FlushBuffer(c, w).Some?
    ensures SameLife(c, FlushBuffer(c, w).value)
  {
    hide Wire, WaterTasks, Count;
    if c.out != [] && w.Wrote? {
      LogOne(c.log, ToWire(c.out[..Least(w.count, |c.out|)]));
    }
  }

  lemma LowWaterSameLife(c: Conn)
    ensures SameLife(c, CheckLowWater(c))
  {
    hide Wire, WaterTasks, Count;
    LogOne(c.log, Queued(LowWater(|c.out|)));
  }

  lemma FlushFileSameLife(c: Conn, f: SendFileResult)
    ensures SameLife(c, FlushFile(c, f).0)
  {
    hide Wire, WaterTasks, Count;
    LogOne(c.log, FileToWire(FileCount(c, f)));
  }

  lemma FlushSameLife(c: Conn, w: WriteResult, f: SendFileResult)
    requires FlushBuffer(c, w).Some?
    ensures SameLife(c, FlushFile(CheckLowWater(FlushBuffer(c, w).value), f).0)
  {
    hide SameLife, CheckLowWater, FlushFile, FlushBuffer;
    var c1 := FlushBuffer(c, w).value;
    var c2 := CheckLowWater(c1);
    FlushBufferSameLife(c, w);
    LowWaterSameLife(c1);
    FlushFileSameLife(c2, f);
    SameLifeTwice(c, c1, c2);
    SameLifeTwice(c, c2, FlushFile(c2, f).0);
  }

  lemma FinishWritingSameLife(c: Conn)
    ensures SameLife(c, FinishWriting(c))
  {
    hide Wire, WaterTasks, Count;
    LogOne(c.log, Queued(WriteComplete));
    LogOne(c.log, HalfClose);
    LogOne(c.log + [Queued(WriteComplete)], HalfClose);
  }

  lemma HandleWriteSameLife(c: Conn, w: WriteResult, f: SendFileResult)
    ensures SameLife(c, HandleWrite(c, w, f))
  {
    hide Wire, WaterTasks, Count, FlushBuffer, CheckLowWater, FlushFile, FinishWriting;
    if c.writing && FlushBuffer(c, w).Some? {
      FlushSameLife(c, w, f);
      FinishWritingSameLife(FlushFile(CheckLowWater(FlushBuffer(c, w).value), f).0);
    }
  }

  lemma NextLived(c: Conn, a: Action)
    requires Lived(c)
    ensures Lived(Next(c, a))
  {
    hide Wire, WaterTasks, Count, SendInLoop, HandleWrite;
    match a
    case SendCall(message, w) => SendSameLife(c, message, w);
    case SendTask(message, w) => SendSameLife(c, message, w);
    case Writable(w, f) => HandleWriteSameLife(c, w, f);
    case Establish => LogOne(c.log, Up);
    case ShutdownCall => LogOne(c.log, HalfClose);
    case ShutdownTask => LogOne(c.log, HalfClose);
    case ForceCloseCall => LogOne(c.log, Queued(ForceCloseTask));
    case RunForceClose => CloseLived(c);
    case PeerClosed => CloseLived(c);
    case Destroy => LogOne(c.log, Down);
    case _ =>
  }

  lemma CloseLived(c: Conn)
    requires Lived(c)
    ensures c.state != Connecting ==> Lived(HandleClose(c))
  {
    hide Wire, WaterTasks, Count;
    LogOne(c.log, Down);
    LogOne(c.log, CloseCallback);
    LogOne(c.log + [Down], CloseCallback);
  }

  // ---- runs ----

  predicate Inv(c: Conn) {
    Conserved(c) && Marked(c) && Interested(c) && Lived(c)
  }

  lemma NextKeeps(c: Conn, a: Action)
    requires Inv(c)
    ensures Inv(Next(c, a))
  {
    hide Conserved, Marked, Interested, Lived, Next;
    NextConserves(c, a);
    NextMarks(c, a);
    NextInterested(c, a);
    NextLived(c, a);
  }

  lemma {:induction false} ExecuteKeeps(c: Conn, actions: seq<Action>)
    requires Inv(c)
    ensures Inv(Execute(c, actions))
    decreases |actions|
  {
    hide Inv, Next;
    if actions != [] {
      ExecuteKeeps(c, actions[..|actions| - 1]);
      NextKeeps(Execute(c, actions[..|actions| - 1]), actions[|actions| - 1]);
    }
  }

  lemma StartInv(c: Conn)
    requires Start(c)
    ensures Inv(c)
  {
  }

  /** `sendInLoop` writes at once and queues only what is left. */
  predicate WritesAtOnce(c: Conn) {
    !c.writing && c.out == []
  }

  /**
   * The message that an action hands over: a `send` while connected, or the task of one until the connection is
   * down; but nothing when it is written at once and the peer turns out to be gone.
   */
  function Heard(c: Conn, a: Action): bytes {
    match a
    case SendCall(message, w) =>
      if c.state == Connected && !(WritesAtOnce(c) && w == PeerGone) then message else []
    case SendTask(message, w) =>
      if Open(c) && !(WritesAtOnce(c) && w == PeerGone) then message else []
    case _ => []
  }

  /** Everything a run hands over, in order. */
  function HeardMessages(c: Conn, actions: seq<Action>): bytes {
    if actions == [] then []
    else
      var init := actions[..|actions| - 1];
      HeardMessages(c, init) + Heard(Execute(c, init), actions[|actions| - 1])
  }

  lemma SendAccepts(c: Conn, message: bytes, w: WriteResult)
    ensures SendInLoop(c, message, w).accepted ==
            c.accepted + (if c.state == Disconnected || (WritesAtOnce(c) && w == PeerGone) then [] else message)
  {
    assert c.accepted + [] == c.accepted;
  }

  lemma NextAccepts(c: Conn, a: Action)
    ensures Next(c, a).accepted == c.accepted + Heard(c, a)
  {
    hide SendInLoop, HandleWrite;
    assert c.accepted + [] == c.accepted;
    match a
    case SendCall(message, w) => SendAccepts(c, message, w);
    case SendTask(message, w) => SendAccepts(c, message, w);
    case Writable(w, f) => WriteAcceptsNothing(c, w, f);
    case _ =>
  }

  lemma WriteAcceptsNothing(c: Conn, w: WriteResult, f: SendFileResult)
    ensures HandleWrite(c, w, f).accepted == c.accepted
  {
    hide FlushBuffer, CheckLowWater, FlushFile, FinishWriting;
    if c.writing && FlushBuffer(c, w).Some? {
      FlushAcceptsNothing(c, w, f);
      FinishAcceptsNothing(FlushFile(CheckLowWater(FlushBuffer(c, w).value), f).0);
    }
  }

  lemma FlushAcceptsNothing(c: Conn, w: WriteResult, f: SendFileResult)
    requires FlushBuffer(c, w).Some?
    ensures FlushFile(CheckLowWater(FlushBuffer(c, w).value), f).0.accepted == c.accepted
  {
  }

  lemma FinishAcceptsNothing(c: Conn)
    ensures FinishWriting(c).accepted == c.accepted
  {
  }

  lemma {:induction false} AcceptedAreHeard(c: Conn, actions: seq<Action>)
    ensures Execute(c, actions).accepted == c.accepted + HeardMessages(c, actions)
    decreases |actions|
  {
    hide Next, Heard;
    if actions != [] {
      var init := actions[..|actions| - 1];
      AcceptedAreHeard(c, init);
      NextAccepts(Execute(c, init), actions[|actions| - 1]);
      assert c.accepted + HeardMessages(c, init) + Heard(Execute(c, init), actions[|actions| - 1]) ==
             c.accepted + HeardMessages(c, actions);
    } else {
      assert c.accepted + [] == c.accepted;
    }
  }

  /**
   * Output conservation: whatever the kernel takes or refuses, the wire followed by the output buffer is exactly
   * the messages handed over, none lost, repeated, cut or reordered.
   */
  lemma {:induction false} OutputIsConserved(c: Conn, actions: seq<Action>)
    requires Start(c)
    ensures var r := Execute(c, actions); Wire(r.log) + r.out == HeardMessages(c, actions)
  {
    hide HeardMessages;
    StartInv(c);
    ExecuteKeeps(c, actions);
    AcceptedAreHeard(c, actions);
    assert [] + HeardMessages(c, actions) == HeardMessages(c, actions);
  }

  /** Over every run, an open connection with something left to send has write interest. */
  lemma {:induction false} UnsentIsWatched(c: Conn, actions: seq<Action>)
    requires Start(c)
    ensures var r := Execute(c, actions);
            Open(r) && (r.out != [] || r.fileFd >= 0) ==> r.writing
  {
    hide Wire, WaterTasks, Count;
    StartInv(c);
    ExecuteKeeps(c, actions);
  }

  /** Watermark hysteresis over every run. */
  lemma {:induction false} WatermarksAlternate(c: Conn, actions: seq<Action>)
    requires Start(c)
    ensures var r := Execute(c, actions);
            && (if r.above then c.low < |r.out| else |r.out| < c.high)
            && Alternates(r.crossings, c.low, c.high) && WaterTasks(r.log) == Reported(r.crossings, c.callbacks)
            && (c.callbacks.lowWater && c.callbacks.highWater ==> Alternates(WaterTasks(r.log), c.low, c.high))
  {
    StartInv(c);
    ExecuteKeeps(c, actions);
    ExecuteKeepsSettings(c, actions);
    var r := Execute(c, actions);
    AllReported(r.crossings, c.callbacks);
  }

  /** With both callbacks set, every crossing is reported. */
  lemma {:induction false} AllReported(crossings: seq<Task>, callbacks: Callbacks)
    requires forall i :: 0 <= i < |crossings| ==> crossings[i].HighWater? || crossings[i].LowWater?
    ensures callbacks.lowWater && callbacks.highWater ==> Reported(crossings, callbacks) == crossings
    decreases |crossings|
  {
    if crossings != [] {
      AllReported(crossings[..|crossings| - 1], callbacks);
      assert crossings == crossings[..|crossings| - 1] + [crossings[|crossings| - 1]];
    }
  }

  /** A callback set alone hears of every other crossing: the high one from the first, the low from the second. */
  lemma {:induction false} HeardAlone(crossings: seq<Task>, callbacks: Callbacks, low: nat, high: nat)
    requires Alternates(crossings, low, high) && callbacks.highWater != callbacks.lowWater
    ensures var heard := Reported(crossings, callbacks);
            var first := if callbacks.highWater then 0 else 1;
            && |heard| == (|crossings| + 1 - first) / 2
            && forall i :: 0 <= i < |heard| ==> heard[i] == crossings[2 * i + first]
    decreases |crossings|
  {
    if crossings != [] {
      HeardAlone(crossings[..|crossings| - 1], callbacks, low, high);
    }
  }

  /**
   * One callback alone, over every run: it is told of exactly those crossings of its own mark that an unseen
   * crossing of the other mark separates.
   */
  lemma {:induction false} OneCallbackAlone(c: Conn, actions: seq<Action>)
    requires Start(c) && c.callbacks.highWater != c.callbacks.lowWater
    ensures var r := Execute(c, actions);
            var first := if c.callbacks.highWater then 0 else 1;
            && Alternates(r.crossings, c.low, c.high)
            && |WaterTasks(r.log)| == (|r.crossings| + 1 - first) / 2
            && forall i :: 0 <= i < |WaterTasks(r.log)| ==> WaterTasks(r.log)[i] == r.crossings[2 * i + first]
  {
    hide Reported, WaterTasks, Alternates;
    WatermarksAlternate(c, actions);
    HeardAlone(Execute(c, actions).crossings, c.callbacks, c.low, c.high);
  }

  lemma NextKeepsSettings(c: Conn, a: Action)
    ensures var r := Next(c, a); r.low == c.low && r.high == c.high && r.callbacks == c.callbacks
  {
    hide Wire, WaterTasks, Count, SendInLoop, HandleWrite;
    match a
    case SendCall(message, w) => SendSameLife(c, message, w);
    case SendTask(message, w) => SendSameLife(c, message, w);
    case Writable(w, f) => HandleWriteSameLife(c, w, f);
    case _ =>
  }

  lemma {:induction false} ExecuteKeepsSettings(c: Conn, actions: seq<Action>)
    ensures var r := Execute(c, actions); r.low == c.low && r.high == c.high && r.callbacks == c.callbacks
    decreases |actions|
  {
    hide Next;
    if actions != [] {
      ExecuteKeepsSettings(c, actions[..|actions| - 1]);
      NextKeepsSettings(Execute(c, actions[..|actions| - 1]), actions[|actions| - 1]);
    }
  }

  lemma {:induction false} LifecycleIsOrderly(c: Conn, actions: seq<Action>)
    requires Start(c) && c.callbacks.connection
    ensures var r := Execute(c, actions);
            && Count(r.log, Up) == (if r.state == Connecting then 0 else 1)
            && Count(r.log, Down) == (if r.state == Disconnected then 1 else 0)
  {
    StartInv(c);
    ExecuteKeeps(c, actions);
    ExecuteKeepsSettings(c, actions);
  }

  // ---- what one action may add to the log ----

  /** `c'` has logged `e` since `c`. */
  predicate Adds(c: Conn, c': Conn, e: Event) {
    Count(c'.log, e) > Count(c.log, e)
  }

  /** A half-close before the end needs everything sent; a write-complete task and file bytes need an empty buffer. */
  ghost predicate Drained(c: Conn, c': Conn) {
    && (Adds(c, c', HalfClose) && c'.state != Disconnected ==> !Pending(c'))
    && (Adds(c, c', Queued(WriteComplete)) ==> c'.out == [])
    && (forall n :: Adds(c, c', FileToWire(n)) ==> c'.out == [])
  }

  lemma EnqueueAdds(c: Conn, rest: bytes)
    ensures forall e :: Count(Enqueue(c, rest).log, e) != Count(c.log, e) ==> e.Queued? && e.task.HighWater?
  {
    hide Wire, WaterTasks, Count;
    LogOne(c.log, Queued(HighWater(|c.out + rest|)));
  }

  lemma SendDrains(c: Conn, message: bytes, w: WriteResult)
    ensures Drained(c, SendInLoop(c, message, w))
  {
    hide Wire, WaterTasks, Count, Enqueue;
    var c1 := c.(accepted := c.accepted + message);
    EnqueueAdds(c1, message);
    if w.Wrote? && c.state != Disconnected && !c.writing && c.out == [] {
      var n := Least(w.count, |message|);
      LogOne(c.log, ToWire(message[..n]));
      var c2 := Log(c1, true, ToWire(message[..n]));
      LogOne(c2.log, Queued(WriteComplete));
      var c3 := Log(c2, n == |message| && c.callbacks.writeComplete, Queued(WriteComplete));
      EnqueueAdds(c3, message[n..]);
      if n == |message| {
        assert message[n..] == [];
        EnqueueNothing(c3);
      }
    }
  }

  lemma EnqueueNothing(c: Conn)
    ensures Enqueue(c, []) == c
  {
  }

  lemma FlushBufferAdds(c: Conn, w: WriteResult)
    requires FlushBuffer(c, w).Some?
    ensures forall e :: Count(FlushBuffer(c, w).value.log, e) != Count(c.log, e) ==> e.ToWire?
  {
    hide Wire, WaterTasks, Count;
    if c.out != [] && w.Wrote? {
      LogOne(c.log, ToWire(c.out[..Least(w.count, |c.out|)]));
    }
  }

  lemma LowWaterAdds(c: Conn)
    ensures forall e :: Count(CheckLowWater(c).log, e) != Count(c.log, e) ==> e.Queued? && e.task.LowWater?
  {
    hide Wire, WaterTasks, Count;
    LogOne(c.log, Queued(LowWater(|c.out|)));
  }

  lemma FlushFileAdds(c: Conn, f: SendFileResult)
    ensures var r := FlushFile(c, f).0;
            forall e :: Count(r.log, e) != Count(c.log, e) ==> e.FileToWire? && r.out == []
  {
    hide Wire, WaterTasks, Count;
    LogOne(c.log, FileToWire(FileCount(c, f)));
  }

  lemma FlushAdds(c: Conn, w: WriteResult, f: SendFileResult)
    requires FlushBuffer(c, w).Some?
    ensures var c2 := FlushFile(CheckLowWater(FlushBuffer(c, w).value), f).0;
            && (forall e :: Adds(c, c2, e) ==> e.ToWire? || (e.Queued? && e.task.LowWater?) || e.FileToWire?)
            && (forall e: Event :: e.FileToWire? && Adds(c, c2, e) ==> c2.out == [])
            && (forall e :: e in {HalfClose, Queued(WriteComplete)} ==> Count(c2.log, e) == Count(c.log, e))
  {
    hide Wire, WaterTasks, Count, FlushBuffer, FlushFile, CheckLowWater;
    var c1 := FlushBuffer(c, w).value;
    FlushBufferAdds(c, w);
    LowWaterAdds(c1);
    FlushFileAdds(CheckLowWater(c1), f);
  }

  lemma FinishWritingAdds(c: Conn)
    ensures var r := FinishWriting(c);
            && (forall e :: Count(r.log, e) != Count(c.log, e) ==>
                  e in {HalfClose, Queued(WriteComplete)} && !Pending(r))
            && r.out == c.out
  {
    hide Wire, WaterTasks, Count;
    LogOne(c.log, Queued(WriteComplete));
    LogOne(c.log, HalfClose);
    LogOne(c.log + [Queued(WriteComplete)], HalfClose);
  }

  lemma HandleWriteDrains(c: Conn, w: WriteResult, f: SendFileResult)
    ensures Drained(c, HandleWrite(c, w, f))
  {
    hide Wire, WaterTasks, Count, FlushBuffer, CheckLowWater, FlushFile, FinishWriting;
    if c.writing && FlushBuffer(c, w).Some? {
      FlushAdds(c, w, f);
      FinishWritingAdds(FlushFile(CheckLowWater(FlushBuffer(c, w).value), f).0);
    }
  }

  lemma NextDrains(c: Conn, a: Action)
    requires Interested(c)
    ensures Drained(c, Next(c, a))
  {
    hide Wire, WaterTasks, Count, SendInLoop, HandleWrite;
    match a
    case SendCall(message, w) => SendDrains(c, message, w);
    case SendTask(message, w) => SendDrains(c, message, w);
    case Writable(w, f) => HandleWriteDrains(c, w, f);
    case Establish => LogOne(c.log, Up);
    case ShutdownCall => LogOne(c.log, HalfClose);
    case ShutdownTask => LogOne(c.log, HalfClose);
    case ForceCloseCall => LogOne(c.log, Queued(ForceCloseTask));
    case RunForceClose => CloseAdds(c);
    case PeerClosed => CloseAdds(c);
    case Destroy => LogOne(c.log, Down);
    case _ =>
  }

  lemma CloseAdds(c: Conn)
    ensures forall e :: Adds(c, HandleClose(c), e) ==> e in {Down, CloseCallback}
  {
    hide Wire, WaterTasks, Count;
    LogOne(c.log, Down);
    LogOne(c.log, CloseCallback);
    LogOne(c.log + [Down], CloseCallback);
  }

  /**
   * Graceful half-close and honest completion, at every step of every run: a connection that is not yet
   * disconnected is half-closed only when its buffer is empty and no file is pending; a write-complete task is
   * queued only when the kernel has taken everything accepted; file bytes leave only while the buffer is empty.
   */
  lemma {:induction false} OnlyWhenDrained(c: Conn, actions: seq<Action>, a: Action)
    requires Start(c)
    ensures var r := Execute(c, actions);
            var r' := Next(r, a);
            && (Adds(r, r', HalfClose) && r'.state != Disconnected ==> r'.out == [] && r'.fileFd < 0)
            && (Adds(r, r', Queued(WriteComplete)) ==> Wire(r'.log) == HeardMessages(c, actions + [a]))
            && (forall n :: Adds(r, r', FileToWire(n)) ==> r'.out == [])
  {
    hide Next, Adds, Wire, Count, HeardMessages, Execute, Conserved, Marked, Lived, Drained;
    StartInv(c);
    ExecuteKeeps(c, actions);
    var r := Execute(c, actions);
    NextDrains(r, a);
    NextKeeps(r, a);
    DrainedMeans(r, Next(r, a));
    AcceptedAreHeard(c, actions + [a]);
    ExecuteLast(c, actions, a);
    assert [] + HeardMessages(c, actions + [a]) == HeardMessages(c, actions + [a]);
  }

  lemma ExecuteLast(c: Conn, actions: seq<Action>, a: Action)
    ensures Execute(c, actions + [a]) == Next(Execute(c, actions), a)
  {
    assert (actions + [a])[..|actions|] == actions;
  }

  lemma DrainedMeans(c: Conn, c': Conn)
    requires Drained(c, c') && Conserved(c')
    ensures Adds(c, c', HalfClose) && c'.state != Disconnected ==> c'.out == [] && c'.fileFd < 0
    ensures Adds(c, c', Queued(WriteComplete)) ==> Wire(c'.log) == c'.accepted
    ensures forall n :: Adds(c, c', FileToWire(n)) ==> c'.out == []
  {
    assert Wire(c'.log) + [] == Wire(c'.log);
    hide Wire, Adds;
  }

  // ---- no shutdown is forgotten ----

  /** A `shutdown` made on another thread has not yet had its task run. */
  predicate ShutdownOwed(actions: seq<Action>) {
    if actions == [] then false
    else
      var last := actions[|actions| - 1];
      last.ShutdownElsewhere? || (!last.ShutdownTask? && ShutdownOwed(actions[..|actions| - 1]))
  }

  predicate Honoured(c: Conn, owed: bool) {
    c.state == Disconnecting && !c.writing ==>
      Count(c.log, HalfClose) > 0 || Count(c.log, Queued(ForceCloseTask)) > 0 || owed
  }

  /** From `c` to `c'` the log has only grown. */
  predicate Grows(c: Conn, c': Conn) {
    forall e :: e in {HalfClose, Queued(ForceCloseTask)} ==> Count(c.log, e) <= Count(c'.log, e)
  }

  lemma SendGrows(c: Conn, message: bytes, w: WriteResult)
    ensures var r := SendInLoop(c, message, w); Grows(c, r) && r.state == c.state && (c.writing ==> r.writing)
  {
    hide Wire, WaterTasks, Count, Enqueue;
    var c1 := c.(accepted := c.accepted + message);
    EnqueueAdds(c1, message);
    SendKeepsWriting(c1, message);
    if w.Wrote? {
      var n := Least(w.count, |message|);
      LogOne(c.log, ToWire(message[..n]));
      var c2 := Log(c1, true, ToWire(message[..n]));
      LogOne(c2.log, Queued(WriteComplete));
      var c3 := Log(c2, n == |message| && c.callbacks.writeComplete, Queued(WriteComplete));
      EnqueueAdds(c3, message[n..]);
      SendKeepsWriting(c3, message[n..]);
    }
  }

  lemma SendKeepsWriting(c: Conn, rest: bytes)
    ensures var r := Enqueue(c, rest); r.state == c.state && (c.writing ==> r.writing)
  {
  }

  lemma FlushGrows(c: Conn, w: WriteResult, f: SendFileResult)
    requires FlushBuffer(c, w).Some?
    ensures var r := FlushFile(CheckLowWater(FlushBuffer(c, w).value), f).0;
            Grows(c, r) && r.state == c.state && r.writing == c.writing
  {
    hide Wire, WaterTasks, Count;
    FlushBufferAdds(c, w);
    var c1 := FlushBuffer(c, w).value;
    LowWaterAdds(c1);
    FlushFileAdds(CheckLowWater(c1), f);
  }

  /** Losing write interest while shutting down means half-closing. */
  lemma FinishWritingHonours(c: Conn)
    ensures var r := FinishWriting(c);
            && Grows(c, r) && r.state == c.state
            && (c.writing && !r.writing && c.state == Disconnecting ==> Count(r.log, HalfClose) > 0)
  {
    hide Wire, WaterTasks, Count;
    LogOne(c.log, Queued(WriteComplete));
    LogOne(c.log, HalfClose);
    LogOne(c.log + [Queued(WriteComplete)], HalfClose);
  }

  lemma HandleWriteHonours(c: Conn, w: WriteResult, f: SendFileResult, owed: bool)
    requires Honoured(c, owed)
    ensures Honoured(HandleWrite(c, w, f), owed)
  {
    hide Wire, WaterTasks, Count, FlushBuffer, FlushFile, CheckLowWater, FinishWriting;
    if c.writing && FlushBuffer(c, w).Some? {
      FlushGrows(c, w, f);
      FinishWritingHonours(FlushFile(CheckLowWater(FlushBuffer(c, w).value), f).0);
    }
  }

  lemma NextHonours(c: Conn, a: Action, owed: bool)
    requires Honoured(c, owed)
    ensures Honoured(Next(c, a), a.ShutdownElsewhere? || (!a.ShutdownTask? && owed))
  {
    hide Wire, WaterTasks, Count, SendInLoop, HandleWrite;
    match a
    case SendCall(message, w) => SendGrows(c, message, w);
    case SendTask(message, w) => SendGrows(c, message, w);
    case Writable(w, f) => HandleWriteHonours(c, w, f, owed);
    case ShutdownCall => LogOne(c.log, HalfClose);
    case ShutdownTask => LogOne(c.log, HalfClose);
    case ForceCloseCall => LogOne(c.log, Queued(ForceCloseTask));
    case _ =>
  }

  /**
   * No shutdown is forgotten: in every run, a connection being shut down that no longer wants to write has been
   * half-closed, unless a forced close is under way or the task of the `shutdown` call has yet to run.
   */
  lemma {:induction false} ShutdownIsHonoured(c: Conn, actions: seq<Action>)
    requires Start(c)
    ensures var r := Execute(c, actions);
            r.state == Disconnecting && !r.writing ==>
              Count(r.log, HalfClose) > 0 || Count(r.log, Queued(ForceCloseTask)) > 0 || ShutdownOwed(actions)
    decreases |actions|
  {
    hide Next, Count;
    if actions != [] {
      var init := actions[..|actions| - 1];
      ShutdownIsHonoured(c, init);
      NextHonours(Execute(c, init), actions[|actions| - 1], ShutdownOwed(init));
    }
  }
}
