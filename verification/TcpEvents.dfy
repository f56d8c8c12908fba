/** Exactly what each step of a connection makes happen, no more and no less, and what becomes of a file. */
module TcpEvents {
  import opened Bytes
  import opened ConnectionState
  import opened TcpModel
  import opened TcpProofs

  // ---- one step ----

  const COUNTED: set<Event> := {HalfClose, CloseCallback, Queued(WriteComplete), Queued(ForceCloseTask)}

  /** Nothing of `COUNTED` has happened, and what is not about bytes is as it was. */
  predicate Uneventful(c: Conn, r: Conn) {
    && (forall e :: e in COUNTED ==> Count(r.log, e) == Count(c.log, e))
    && SameButBytes(c, r)
  }

  predicate SameButBytes(c: Conn, r: Conn) {
    r.state == c.state && r.reading == c.reading && r.callbacks == c.callbacks
  }

  predicate SameFile(c: Conn, r: Conn) {
    r.fileFd == c.fileFd && r.fileSize == c.fileSize && r.fileOffset == c.fileOffset
  }

  /** A crossing is noted exactly when the flag changes, with the size the buffer then has. */
  predicate CrossesExactly(c: Conn, r: Conn) {
    r.crossings == c.crossings +
    (if !c.above && r.above then [HighWater(|r.out|)] else if c.above && !r.above then [LowWater(|r.out|)] else [])
  }

  /** The whole message is written at once. */
  predicate WritesAll(c: Conn, message: bytes, w: WriteResult) {
    WritesAtOnce(c) && w.Wrote? && w.count >= |message|
  }

  /** How many write-complete tasks `a` queues, on the way from `c` to `r`. */
  function Completions(c: Conn, a: Action, r: Conn): nat {
    var completes :=
      match a
      case SendCall(message, w) => c.state == Connected && WritesAll(c, message, w)
      case SendTask(message, w) => Open(c) && WritesAll(c, message, w)
      case Writable(_, _) => c.writing && !r.writing
      case _ => false;
    if completes && c.callbacks.writeComplete then 1 else 0
  }

  function HalfCloses(c: Conn, a: Action, r: Conn): nat {
    var closes :=
      match a
      case ShutdownCall => c.state == Connected && !c.writing
      case ShutdownTask => c.state != Connecting && !c.writing
      case Writable(_, _) => c.state == Disconnecting && c.writing && !r.writing
      case _ => false;
    if closes then 1 else 0
  }

  function CloseCalls(c: Conn, a: Action): nat {
    if (a.PeerClosed? || a.RunForceClose?) && Open(c) && c.callbacks.close then 1 else 0
  }

  function ForceCloses(c: Conn, a: Action): nat {
    if a.ForceCloseCall? && Open(c) then 1 else 0
  }

  lemma EnqueueEvents(c: Conn, rest: bytes)
    ensures var r := Enqueue(c, rest); Uneventful(c, r) && SameFile(c, r) && CrossesExactly(c, r)
  {
    hide Count, Wire, WaterTasks;
    LogOne(c.log, Queued(HighWater(|c.out + rest|)));
    assert c.crossings + [] == c.crossings;
  }

  lemma SendEvents(c: Conn, message: bytes, w: WriteResult)
    ensures var r := SendInLoop(c, message, w);
            && SameButBytes(c, r) && SameFile(c, r) && CrossesExactly(c, r)
            && (forall e :: e in COUNTED && e != Queued(WriteComplete) ==> Count(r.log, e) == Count(c.log, e))
            && Count(r.log, Queued(WriteComplete)) == Count(c.log, Queued(WriteComplete)) +
               (if c.state != Disconnected && WritesAll(c, message, w) && c.callbacks.writeComplete then 1 else 0)
  {
    hide Count, Wire, WaterTasks, Enqueue;
    assert c.crossings + [] == c.crossings;
    var c1 := c.(accepted := c.accepted + message);
    EnqueueEvents(c1, message);
    if w.Wrote? {
      var n := Least(w.count, |message|);
      LogOne(c.log, ToWire(message[..n]));
      var c2 := Log(c1, true, ToWire(message[..n]));
      LogOne(c2.log, Queued(WriteComplete));
      EnqueueEvents(Log(c2, n == |message| && c.callbacks.writeComplete, Queued(WriteComplete)), message[n..]);
    }
  }

  lemma FlushBufferEvents(c: Conn, w: WriteResult)
    requires FlushBuffer(c, w).Some?
    ensures var r := FlushBuffer(c, w).value;
            && Uneventful(c, r) && SameFile(c, r)
            && r.writing == c.writing && r.above == c.above && r.crossings == c.crossings
  {
    hide Count, Wire, WaterTasks;
    FlushBufferAdds(c, w);
  }

  lemma LowWaterEvents(c: Conn)
    ensures var r := CheckLowWater(c);
            Uneventful(c, r) && SameFile(c, r) && r.writing == c.writing && r.out == c.out && CrossesExactly(c, r)
  {
    hide Count, Wire, WaterTasks;
    LowWaterAdds(c);
    assert c.crossings + [] == c.crossings;
  }

  lemma FlushFileEvents(c: Conn, f: SendFileResult)
    ensures var r := FlushFile(c, f).0;
            && Uneventful(c, r) && r.writing == c.writing && r.out == c.out && r.above == c.above
            && r.crossings == c.crossings
  {
    hide Count, Wire, WaterTasks;
    FlushFileAdds(c, f);
  }

  lemma FinishEvents(c: Conn)
    requires c.writing
    ensures var r := FinishWriting(c);
            && SameButBytes(c, r) && r.out == c.out && r.above == c.above && r.crossings == c.crossings
            && Count(r.log, CloseCallback) == Count(c.log, CloseCallback)
            && Count(r.log, Queued(ForceCloseTask)) == Count(c.log, Queued(ForceCloseTask))
            && Count(r.log, Queued(WriteComplete)) == Count(c.log, Queued(WriteComplete)) +
               (if !r.writing && c.callbacks.writeComplete then 1 else 0)
            && Count(r.log, HalfClose) == Count(c.log, HalfClose) +
               (if !r.writing && c.state == Disconnecting then 1 else 0)
  {
    hide Count, Wire, WaterTasks;
    LogOne(c.log, Queued(WriteComplete));
    LogOne(c.log, HalfClose);
    LogOne(c.log + [Queued(WriteComplete)], HalfClose);
  }

  /** The counts a step gives, all but its crossings. */
  predicate CountsExactly(c: Conn, a: Action, r: Conn) {
    && Count(r.log, Queued(WriteComplete)) == Count(c.log, Queued(WriteComplete)) + Completions(c, a, r)
    && Count(r.log, HalfClose) == Count(c.log, HalfClose) + HalfCloses(c, a, r)
    && Count(r.log, CloseCallback) == Count(c.log, CloseCallback) + CloseCalls(c, a)
    && Count(r.log, Queued(ForceCloseTask)) == Count(c.log, Queued(ForceCloseTask)) + ForceCloses(c, a)
  }

  lemma WritableEvents(c: Conn, w: WriteResult, f: SendFileResult)
    ensures var r := HandleWrite(c, w, f); CountsExactly(c, Writable(w, f), r) && CrossesExactly(c, r)
  {
    hide Count, FlushBuffer, FlushFile, CheckLowWater, FinishWriting;
    assert c.crossings + [] == c.crossings;
    if c.writing && FlushBuffer(c, w).Some? {
      var c1 := FlushBuffer(c, w).value;
      var c2 := CheckLowWater(c1);
      FlushBufferEvents(c, w);
      LowWaterEvents(c1);
      FlushFileEvents(c2, f);
      FinishEvents(FlushFile(c2, f).0);
    }
  }

  lemma CloseEvents(c: Conn)
    ensures var r := HandleClose(c);
            && r.crossings == c.crossings && r.above == c.above && r.out == c.out
            && Count(r.log, CloseCallback) ==
               Count(c.log, CloseCallback) + (if c.state != Disconnected && c.callbacks.close then 1 else 0)
            && forall e :: e in COUNTED && e != CloseCallback ==> Count(r.log, e) == Count(c.log, e)
  {
    hide Count, Wire, WaterTasks;
    LogOne(c.log, Down);
    LogOne(c.log, CloseCallback);
    LogOne(c.log + [Down], CloseCallback);
  }

  lemma NoticeEvents(c: Conn, a: Action)
    requires a.Establish? || a.Destroy?
    ensures CountsExactly(c, a, Next(c, a)) && CrossesExactly(c, Next(c, a))
  {
    hide Count, Wire, WaterTasks;
    assert c.crossings + [] == c.crossings;
    LogOne(c.log, if a.Establish? then Up else Down);
  }

  lemma ShutdownEvents(c: Conn, a: Action)
    requires a.ShutdownCall? || a.ShutdownTask?
    ensures CountsExactly(c, a, Next(c, a)) && CrossesExactly(c, Next(c, a))
  {
    hide Count, Wire, WaterTasks;
    assert c.crossings + [] == c.crossings;
    LogOne(c.log, HalfClose);
  }

  lemma ForceCloseEvents(c: Conn)
    ensures CountsExactly(c, ForceCloseCall, Next(c, ForceCloseCall)) && CrossesExactly(c, Next(c, ForceCloseCall))
  {
    hide Count, Wire, WaterTasks;
    assert c.crossings + [] == c.crossings;
    LogOne(c.log, Queued(ForceCloseTask));
  }

  lemma ClosingEvents(c: Conn, a: Action)
    requires a.RunForceClose? || a.PeerClosed?
    ensures CountsExactly(c, a, Next(c, a)) && CrossesExactly(c, Next(c, a))
  {
    hide Count, HandleClose;
    assert c.crossings + [] == c.crossings;
    CloseEvents(c);
  }

  lemma SendingEvents(c: Conn, a: Action)
    requires a.SendCall? || a.SendTask?
    ensures CountsExactly(c, a, Next(c, a)) && CrossesExactly(c, Next(c, a))
  {
    hide Count, SendInLoop;
    assert c.crossings + [] == c.crossings;
    SendEvents(c, a.message, a.w);
  }

  lemma SilentEvents(c: Conn, a: Action)
    requires a.SendFileCall? || a.SendFileTask? || a.ShutdownElsewhere?
    ensures CountsExactly(c, a, Next(c, a)) && CrossesExactly(c, Next(c, a))
  {
    hide Count;
    assert c.crossings + [] == c.crossings;
  }

  /**
   * What any step makes happen: a write-complete task exactly when a message goes out whole at once or write
   * interest goes off; a half-close exactly when a shutdown finds nothing being written or the last of it goes;
   * a close callback exactly when an open connection is closed; a task exactly for a forced close of an open
   * connection; and a crossing exactly when the flag changes, with the buffer's size.
   */
  lemma EventsExactly(c: Conn, a: Action)
    ensures CountsExactly(c, a, Next(c, a)) && CrossesExactly(c, Next(c, a))
  {
    hide CountsExactly, CrossesExactly, Effect;
    if a.SendCall? || a.SendTask? {
      SendingEvents(c, a);
    } else if a.RunForceClose? || a.PeerClosed? {
      ClosingEvents(c, a);
    } else if a.SendFileCall? || a.SendFileTask? || a.ShutdownElsewhere? {
      SilentEvents(c, a);
    } else if a.Writable? {
      WritingEvents(c, a);
    } else if a.ForceCloseCall? {
      ForceCloseEvents(c);
    } else if a.ShutdownCall? || a.ShutdownTask? {
      ShutdownEvents(c, a);
    } else {
      NoticeEvents(c, a);
    }
  }

  lemma WritingEvents(c: Conn, a: Action)
    requires a.Writable?
    ensures CountsExactly(c, a, Next(c, a)) && CrossesExactly(c, Next(c, a))
  {
    hide Count, HandleWrite;
    assert c.crossings + [] == c.crossings;
    WritableEvents(c, a.w, a.f);
  }

  // ---- reading ----

  lemma WriteKeepsReading(c: Conn, w: WriteResult, f: SendFileResult)
    ensures var r := HandleWrite(c, w, f); r.reading == c.reading && r.state == c.state
  {
    hide Count, FlushBuffer, FlushFile, CheckLowWater, FinishWriting;
    if c.writing && FlushBuffer(c, w).Some? {
      var c1 := FlushBuffer(c, w).value;
      FlushBufferEvents(c, w);
      LowWaterEvents(c1);
      FlushFileEvents(CheckLowWater(c1), f);
      FinishEvents(FlushFile(CheckLowWater(c1), f).0);
    }
  }

  lemma NothingWhenDown(c: Conn, message: bytes, w: WriteResult, f: SendFileResult)
    ensures c.state == Disconnected ==> SendInLoop(c, message, w) == c
    ensures !c.writing ==> HandleWrite(c, w, f) == c
  {
  }

  lemma NextReads(c: Conn, a: Action)
    requires (c.reading <==> Open(c)) && (c.writing ==> Open(c))
    ensures var r := Next(c, a); (r.reading <==> Open(r)) && (r.writing ==> Open(r))
  {
    hide Count, SendInLoop, HandleWrite, Wire, WaterTasks;
    match a
    case SendCall(message, w) =>
      SendEvents(c, message, w);
      NothingWhenDown(c, message, w, FileError);
    case SendTask(message, w) =>
      SendEvents(c, message, w);
      NothingWhenDown(c, message, w, FileError);
    case Writable(w, f) =>
      WriteKeepsReading(c, w, f);
      NothingWhenDown(c, [], w, f);
    case _ =>
  }

  /** Over every run, the connection is watched for input exactly while it is open, and for room to write only then. */
  lemma {:induction false} ReadsWhileOpen(c: Conn, actions: seq<Action>)
    requires Start(c)
    ensures var r := Execute(c, actions); (r.reading <==> Open(r)) && (r.writing ==> Open(r))
    decreases |actions|
  {
    hide Next;
    if actions != [] {
      ReadsWhileOpen(c, actions[..|actions| - 1]);
      NextReads(Execute(c, actions[..|actions| - 1]), actions[|actions| - 1]);
    }
  }

  // ---- the state ----

  /** The actions after the connection is established, if it is. */
  function Life(actions: seq<Action>): Option<seq<Action>> {
    if actions == [] then None
    else
      var last := actions[|actions| - 1];
      match Life(actions[..|actions| - 1])
      case None => if last.Establish? then Some([]) else None
      case Some(life) => Some(life + [last])
  }

  predicate Closes(a: Action) {
    a.PeerClosed? || a.RunForceClose? || a.Destroy?
  }

  predicate Shuts(a: Action) {
    a.ShutdownCall? || a.ShutdownElsewhere? || a.ForceCloseCall?
  }

  /** The state that follows from a life. */
  ghost function StateAfter(life: Option<seq<Action>>): State {
    match life
    case None => Connecting
    case Some(later) =>
      if exists a :: a in later && Closes(a) then Disconnected
      else if exists a :: a in later && Shuts(a) then Disconnecting
      else Connected
  }

  lemma NextState(c: Conn, a: Action)
    ensures Next(c, a).state ==
            if c.state == Connecting then (if a.Establish? then Connected else Connecting)
            else if c.state == Disconnected || Closes(a) then Disconnected
            else if Shuts(a) then Disconnecting
            else c.state
  {
    hide Count, SendInLoop, HandleWrite;
    match a
    case SendCall(message, w) => SendEvents(c, message, w);
    case SendTask(message, w) => SendEvents(c, message, w);
    case Writable(w, f) => WriteKeepsReading(c, w, f);
    case _ =>
  }

  lemma LongerLife(later: seq<Action>, a: Action)
    ensures StateAfter(Some(later + [a])) ==
            if StateAfter(Some(later)) == Disconnected || Closes(a) then Disconnected
            else if Shuts(a) then Disconnecting
            else StateAfter(Some(later))
  {
    assert forall b :: b in later + [a] <==> b in later || b == a;
    assert a in later + [a];
  }

  /** Over every run, the calls and events since it was established decide a connection's state. */
  lemma {:induction false} LifeDecidesState(c: Conn, actions: seq<Action>)
    requires Start(c)
    ensures Execute(c, actions).state == StateAfter(Life(actions))
    decreases |actions|
  {
    hide Next, Closes, Shuts;
    if actions != [] {
      var init, a := actions[..|actions| - 1], actions[|actions| - 1];
      LifeDecidesState(c, init);
      NextState(Execute(c, init), a);
      if Life(init).Some? {
        LongerLife(Life(init).value, a);
      }
    }
  }

  // ---- the file ----

  datatype File = File(fd: int, size: nat)

  /** The file an action hands over. */
  function HeardFile(c: Conn, a: Action): Option<File> {
    match a
    case SendFileCall(fd, size) => if c.state == Connected then Some(File(fd, size)) else None
    case SendFileTask(fd, size) => if Open(c) then Some(File(fd, size)) else None
    case _ => None
  }

  /** The last file a run hands over, with no bytes and no descriptor before any. */
  function LastFile(c: Conn, actions: seq<Action>): File {
    if actions == [] then File(-1, 0)
    else
      var init := actions[..|actions| - 1];
      match HeardFile(Execute(c, init), actions[|actions| - 1])
      case Some(file) => file
      case None => LastFile(c, init)
  }

  /** The file bytes in a log. */
  function FileWire(log: seq<Event>): nat {
    if log == [] then 0
    else FileWire(log[..|log| - 1]) + (if log[|log| - 1].FileToWire? then log[|log| - 1].count else 0)
  }

  /** How many file bytes have left since the last file was handed over. */
  function SentOfFile(c: Conn, actions: seq<Action>): int {
    if actions == [] then 0
    else
      var init, a := actions[..|actions| - 1], actions[|actions| - 1];
      var r := Execute(c, init);
      if HeardFile(r, a).Some? then 0
      else SentOfFile(c, init) + FileWire(Next(r, a).log) - FileWire(r.log)
  }

  lemma FileWireOne(log: seq<Event>, e: Event)
    ensures FileWire(log + [e]) == FileWire(log) + (if e.FileToWire? then e.count else 0)
  {
    assert (log + [e])[..|log|] == log;
  }

  /** From `c` to `r`, as many file bytes have left as the offset has moved. */
  predicate OffsetMoves(c: Conn, r: Conn) {
    && r.fileSize == c.fileSize && (r.fileFd == c.fileFd || r.fileFd == -1)
    && r.fileOffset - c.fileOffset == FileWire(r.log) - FileWire(c.log)
  }

  lemma EnqueueOffset(c: Conn, rest: bytes)
    ensures OffsetMoves(c, Enqueue(c, rest))
  {
    hide FileWire;
    FileWireOne(c.log, Queued(HighWater(|c.out + rest|)));
  }

  lemma SendOffset(c: Conn, message: bytes, w: WriteResult)
    ensures OffsetMoves(c, SendInLoop(c, message, w))
  {
    hide FileWire, Enqueue;
    var c1 := c.(accepted := c.accepted + message);
    EnqueueOffset(c1, message);
    if w.Wrote? {
      var n := Least(w.count, |message|);
      FileWireOne(c.log, ToWire(message[..n]));
      var c2 := Log(c1, true, ToWire(message[..n]));
      FileWireOne(c2.log, Queued(WriteComplete));
      EnqueueOffset(Log(c2, n == |message| && c.callbacks.writeComplete, Queued(WriteComplete)), message[n..]);
    }
  }

  lemma FlushBufferOffset(c: Conn, w: WriteResult)
    requires FlushBuffer(c, w).Some?
    ensures OffsetMoves(c, FlushBuffer(c, w).value)
  {
    hide FileWire;
    if c.out != [] && w.Wrote? {
      FileWireOne(c.log, ToWire(c.out[..Least(w.count, |c.out|)]));
    }
  }

  lemma LowWaterOffset(c: Conn)
    ensures OffsetMoves(c, CheckLowWater(c))
  {
    hide FileWire;
    FileWireOne(c.log, Queued(LowWater(|c.out|)));
  }

  lemma FlushFileOffset(c: Conn, f: SendFileResult)
    ensures OffsetMoves(c, FlushFile(c, f).0)
  {
    hide FileWire;
    FileWireOne(c.log, FileToWire(FileCount(c, f)));
  }

  lemma FinishOffset(c: Conn)
    ensures OffsetMoves(c, FinishWriting(c))
  {
    hide FileWire;
    FileWireOne(c.log, Queued(WriteComplete));
    FileWireOne(c.log, HalfClose);
    FileWireOne(c.log + [Queued(WriteComplete)], HalfClose);
  }

  lemma WriteOffset(c: Conn, w: WriteResult, f: SendFileResult)
    ensures OffsetMoves(c, HandleWrite(c, w, f))
  {
    hide FileWire, FlushBuffer, FlushFile, CheckLowWater, FinishWriting;
    if c.writing && FlushBuffer(c, w).Some? {
      var c1 := FlushBuffer(c, w).value;
      FlushBufferOffset(c, w);
      LowWaterOffset(c1);
      FlushFileOffset(CheckLowWater(c1), f);
      FinishOffset(FlushFile(CheckLowWater(c1), f).0);
    }
  }

  lemma CloseOffset(c: Conn)
    ensures OffsetMoves(c, HandleClose(c))
  {
    hide FileWire;
    FileWireOne(c.log, Down);
    FileWireOne(c.log, CloseCallback);
    FileWireOne(c.log + [Down], CloseCallback);
  }

  lemma NextOffset(c: Conn, a: Action)
    ensures match HeardFile(c, a)
            case Some(file) =>
              Next(c, a).fileFd == file.fd && Next(c, a).fileSize == file.size && Next(c, a).fileOffset == 0
            case None => OffsetMoves(c, Next(c, a))
  {
    hide FileWire, SendInLoop, HandleWrite, HandleClose;
    match a
    case SendCall(message, w) => SendOffset(c, message, w);
    case SendTask(message, w) => SendOffset(c, message, w);
    case Writable(w, f) => WriteOffset(c, w, f);
    case Establish => FileWireOne(c.log, Up);
    case ShutdownCall => FileWireOne(c.log, HalfClose);
    case ShutdownTask => FileWireOne(c.log, HalfClose);
    case ForceCloseCall => FileWireOne(c.log, Queued(ForceCloseTask));
    case RunForceClose => CloseOffset(c);
    case PeerClosed => CloseOffset(c);
    case Destroy => FileWireOne(c.log, Down);
    case _ =>
  }

  /**
   * The file over every run: the pending one is the last one handed over, and as many of its bytes have left as the
   * offset says.
   */
  lemma {:induction false} FileIsConserved(c: Conn, actions: seq<Action>)
    requires Start(c)
    ensures var r := Execute(c, actions);
            var file := LastFile(c, actions);
            && r.fileSize == file.size && (r.fileFd == file.fd || r.fileFd == -1)
            && r.fileOffset == SentOfFile(c, actions)
    decreases |actions|
  {
    hide Next, HeardFile, FileWire;
    if actions != [] {
      var init := actions[..|actions| - 1];
      FileIsConserved(c, init);
      NextOffset(Execute(c, init), actions[|actions| - 1]);
    }
  }

  /**
   * A pending file is given up exactly when a writable event finds the buffer empty and sends the last of it, or
   * `sendfile` fails then, or the open connection is closed.
   */
  lemma FileIsFinished(c: Conn, a: Action)
    requires c.fileFd >= 0 && c.state != Connecting && HeardFile(c, a).None?
    ensures var r := Next(c, a);
            r.fileFd < 0 <==>
              if a.Writable? then
                && c.writing && r.out == []
                && (a.f == FileError || (a.f.Sent? && r.fileOffset == r.fileSize))
              else
                (a.PeerClosed? || a.RunForceClose?) && Open(c)
  {
    hide SendInLoop, HandleWrite;
    match a
    case SendCall(message, w) => SendEvents(c, message, w);
    case SendTask(message, w) => SendEvents(c, message, w);
    case Writable(w, f) => FileIsFinishedHere(c, w, f);
    case _ =>
  }

  lemma FileIsFinishedHere(c: Conn, w: WriteResult, f: SendFileResult)
    requires c.fileFd >= 0
    ensures var r := HandleWrite(c, w, f);
            r.fileFd < 0 <==>
              c.writing && r.out == [] && (f == FileError || (f.Sent? && r.fileOffset == r.fileSize))
  {
    hide FlushBuffer, CheckLowWater, FlushFile, FinishWriting, Log;
    if c.writing && FlushBuffer(c, w).Some? {
      var c1 := FlushBuffer(c, w).value;
      FlushBufferEvents(c, w);
      LowWaterEvents(c1);
      FileIsSent(CheckLowWater(c1), f);
    } else {
      NotFlushed(c, w);
    }
  }

  lemma NotFlushed(c: Conn, w: WriteResult)
    ensures FlushBuffer(c, w).None? ==> c.out != []
  {
  }

  lemma FileIsSent(c: Conn, f: SendFileResult)
    requires c.fileFd >= 0
    ensures var (c1, more) := FlushFile(c, f);
            var r := if more then FinishWriting(c1) else c1;
            r.fileFd < 0 <==> r.out == [] && (f == FileError || (f.Sent? && r.fileOffset == r.fileSize))
  {
    hide FileCount;
  }
}
