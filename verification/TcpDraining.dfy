/** What becomes of a connection's output: it drains if the kernel takes some of it, and what can leave at the end. */
module TcpDraining {
  import opened Bytes
  import opened ConnectionState
  import opened TcpModel
  import opened TcpProofs

  // ---- the pending file ----

  predicate FileInBounds(c: Conn) {
    c.fileOffset <= c.fileSize
  }

  lemma SendKeepsFile(c: Conn, message: bytes, w: WriteResult)
    ensures var r := SendInLoop(c, message, w);
            r.state == c.state && r.fileOffset == c.fileOffset && r.fileSize == c.fileSize
  {
  }

  lemma WriteKeepsFile(c: Conn, w: WriteResult, f: SendFileResult)
    requires FileInBounds(c)
    ensures FileInBounds(HandleWrite(c, w, f))
  {
    hide FlushBuffer, CheckLowWater, FlushFile, FinishWriting, FileInBounds;
    if c.writing && FlushBuffer(c, w).Some? {
      FlushKeepsFile(c, w, f);
      FinishKeepsFile(FlushFile(CheckLowWater(FlushBuffer(c, w).value), f).0);
    }
  }

  lemma FlushKeepsFile(c: Conn, w: WriteResult, f: SendFileResult)
    requires FileInBounds(c) && FlushBuffer(c, w).Some?
    ensures FileInBounds(FlushFile(CheckLowWater(FlushBuffer(c, w).value), f).0)
  {
  }

  lemma FinishKeepsFile(c: Conn)
    requires FileInBounds(c)
    ensures FileInBounds(FinishWriting(c))
  {
  }

  lemma NextKeepsFile(c: Conn, a: Action)
    requires FileInBounds(c)
    ensures FileInBounds(Next(c, a))
  {
    hide SendInLoop, HandleWrite;
    match a
    case SendCall(message, w) => SendKeepsFile(c, message, w);
    case SendTask(message, w) => SendKeepsFile(c, message, w);
    case Writable(w, f) => WriteKeepsFile(c, w, f);
    case _ =>
  }

  lemma {:induction false} ExecuteKeepsFile(c: Conn, actions: seq<Action>)
    requires FileInBounds(c)
    ensures FileInBounds(Execute(c, actions))
    decreases |actions|
  {
    hide Next;
    if actions != [] {
      ExecuteKeepsFile(c, actions[..|actions| - 1]);
      NextKeepsFile(Execute(c, actions[..|actions| - 1]), actions[|actions| - 1]);
    }
  }

  // ---- draining ----

  /** The bytes not yet sent, of messages and of the file. */
  function Left(c: Conn): nat {
    |c.out| + if c.fileFd >= 0 && c.fileOffset <= c.fileSize then c.fileSize - c.fileOffset else 0
  }

  /** Everything is sent, and write interest is off. */
  predicate Finished(c: Conn) {
    c.out == [] && c.fileFd < 0 && !c.writing
  }

  // A writable event at which `write` and `sendfile`, if they are called, take so much.
  datatype Turn = Turn(written: nat, sent: nat)

  predicate Moves(t: Turn) {
    t.written > 0 && t.sent > 0
  }

  function TurnActions(turns: seq<Turn>): seq<Action> {
    seq(|turns|, i requires 0 <= i < |turns| => Writable(Wrote(turns[i].written), Sent(turns[i].sent)))
  }

  /** What finishing adds to `c`: nothing but the half-close of a connection being shut down. */
  predicate FinishedFrom(c: Conn, r: Conn) {
    && Finished(r) && r.state == c.state && r.accepted == c.accepted
    && Count(r.log, HalfClose) == Count(c.log, HalfClose) + (if c.state == Disconnecting then 1 else 0)
  }

  /** `c` is on its way: at least one byte a turn has left, and there are more. */
  predicate OnTheWay(c: Conn, r: Conn, turns: nat) {
    && r.writing && FileInBounds(r) && r.state == c.state && r.accepted == c.accepted
    && Count(r.log, HalfClose) == Count(c.log, HalfClose)
    && Left(r) + turns <= Left(c) && (turns > 0 ==> Left(r) > 0)
  }

  /** Nothing of `c` has changed but what its bytes concern. */
  predicate SameAffairs(c: Conn, r: Conn) {
    && r.state == c.state && r.accepted == c.accepted && r.writing == c.writing && r.callbacks == c.callbacks
    && r.fileFd == c.fileFd && r.fileSize == c.fileSize
    && Count(r.log, HalfClose) == Count(c.log, HalfClose)
  }

  lemma BufferMoves(c: Conn, n: nat)
    requires n > 0
    ensures FlushBuffer(c, Wrote(n)).Some?
    ensures var r := FlushBuffer(c, Wrote(n)).value;
            && SameAffairs(c, r) && r.fileOffset == c.fileOffset
            && (if c.out == [] then r.out == [] else |r.out| < |c.out|)
  {
    hide Count, Wire, WaterTasks;
    FlushBufferAdds(c, Wrote(n));
  }

  lemma LowWaterMoves(c: Conn)
    ensures var r := CheckLowWater(c); SameAffairs(c, r) && r.fileOffset == c.fileOffset && r.out == c.out
  {
    hide Count, Wire, WaterTasks;
    LowWaterAdds(c);
  }

  lemma FileMoves(c: Conn, k: nat)
    requires FileInBounds(c) && k > 0
    ensures var (r, more) := FlushFile(c, Sent(k));
            && more && SameAffairs(c, r) && FileInBounds(r) && r.out == c.out && c.fileOffset <= r.fileOffset
            && (c.out == [] && c.fileFd >= 0 && c.fileOffset < c.fileSize ==> c.fileOffset < r.fileOffset)
  {
    hide Count, Wire, WaterTasks;
    FlushFileAdds(c, Sent(k));
  }

  lemma FlushMoves(c: Conn, t: Turn)
    requires FileInBounds(c) && Moves(t)
    ensures FlushBuffer(c, Wrote(t.written)).Some?
    ensures var (r, more) := FlushFile(CheckLowWater(FlushBuffer(c, Wrote(t.written)).value), Sent(t.sent));
            && more && FileInBounds(r) && SameAffairs(c, r)
            && (Left(c) > 0 ==> Left(r) < Left(c))
            && (Left(c) == 0 ==> Left(r) == 0)
  {
    hide Count, FlushBuffer, CheckLowWater, FlushFile;
    BufferMoves(c, t.written);
    var c1 := FlushBuffer(c, Wrote(t.written)).value;
    LowWaterMoves(c1);
    FileMoves(CheckLowWater(c1), t.sent);
  }

  /** One turn finishes or gets on. */
  lemma TurnProgress(c: Conn, t: Turn)
    requires FileInBounds(c) && Open(c) && c.writing && Moves(t)
    ensures var r := Next(c, Writable(Wrote(t.written), Sent(t.sent)));
            FinishedFrom(c, r) || OnTheWay(c, r, 1)
  {
    hide Count, Wire, WaterTasks, FlushBuffer, FlushFile, CheckLowWater;
    FlushMoves(c, t);
    var c1 := FlushFile(CheckLowWater(FlushBuffer(c, Wrote(t.written)).value), Sent(t.sent)).0;
    LogOne(c1.log, Queued(WriteComplete));
    LogOne(c1.log, HalfClose);
    LogOne(c1.log + [Queued(WriteComplete)], HalfClose);
  }

  lemma {:induction false} TurnsProgress(c: Conn, turns: seq<Turn>)
    requires FileInBounds(c) && Open(c) && c.writing
    requires forall i :: 0 <= i < |turns| ==> Moves(turns[i])
    ensures var r := Execute(c, TurnActions(turns));
            FinishedFrom(c, r) || OnTheWay(c, r, |turns|)
    decreases |turns|
  {
    hide Next, Count;
    if turns != [] {
      var init, last := turns[..|turns| - 1], turns[|turns| - 1];
      TurnsProgress(c, init);
      assert TurnActions(turns)[..|turns| - 1] == TurnActions(init);
      var r := Execute(c, TurnActions(init));
      if FinishedFrom(c, r) {
        QuietTurn(r, last);
      } else {
        TurnProgress(r, last);
      }
    }
  }

  lemma QuietTurn(c: Conn, t: Turn)
    requires !c.writing
    ensures Next(c, Writable(Wrote(t.written), Sent(t.sent))) == c
  {
  }

  /**
   * Draining: from any reachable open connection with something left to send, as many writable events as bytes are
   * left, at each of which the kernel takes at least one, send everything that was ever accepted, switch write
   * interest off and, when the connection is being shut down, half-close it. A file of no bytes takes one event.
   */
  lemma {:induction false} OutputDrains(c: Conn, actions: seq<Action>, turns: seq<Turn>)
    requires Start(c)
    requires var r := Execute(c, actions);
             Open(r) && Pending(r) && |turns| >= Left(r) && turns != []
    requires forall i :: 0 <= i < |turns| ==> Moves(turns[i])
    ensures var r := Execute(c, actions);
            var r' := Execute(r, TurnActions(turns));
            && r'.out == [] && r'.fileFd < 0 && !r'.writing && r'.state == r.state
            && Wire(r'.log) == HeardMessages(c, actions)
            && (r.state == Disconnecting ==> Count(r'.log, HalfClose) == Count(r.log, HalfClose) + 1)
  {
    hide Next, Execute, Count, Wire, Conserved, Marked, Lived, TurnActions, HeardMessages;
    var r := Execute(c, actions);
    UnsentIsWatched(c, actions);
    ExecuteKeepsFile(c, actions);
    TurnsProgress(r, turns);
    StartInv(c);
    ExecuteKeeps(c, actions);
    ExecuteKeeps(r, TurnActions(turns));
    SentAll(Execute(r, TurnActions(turns)));
    AcceptedAreHeard(c, actions);
    assert [] + HeardMessages(c, actions) == HeardMessages(c, actions);
  }

  lemma SentAll(c: Conn)
    requires Conserved(c) && c.out == []
    ensures Wire(c.log) == c.accepted
  {
    assert Wire(c.log) + [] == Wire(c.log);
  }

  // ---- after the half-close ----

  function Size(e: Event): nat {
    match e
    case ToWire(data) => |data|
    case FileToWire(count) => count
    case _ => 0
  }

  predicate Closed(log: seq<Event>) {
    Count(log, HalfClose) > 0
  }

  /** How many bytes have left after the first half-close. */
  function SentAfter(log: seq<Event>): nat {
    if log == [] then 0
    else
      var init := log[..|log| - 1];
      SentAfter(init) + (if Closed(init) then Size(log[|log| - 1]) else 0)
  }

  lemma SentAfterOne(log: seq<Event>, e: Event)
    ensures SentAfter(log + [e]) == SentAfter(log) + (if Closed(log) then Size(e) else 0)
    ensures Closed(log + [e]) <==> Closed(log) || e == HalfClose
  {
    assert (log + [e])[..|log|] == log;
    LogOne(log, e);
    hide Count;
  }

  /** A call that has bytes to send, and is heard: tasks are heard until the connection is down. */
  predicate Speaks(c: Conn, a: Action) {
    match a
    case SendCall(message, _) => c.state == Connected && message != []
    case SendTask(message, _) => Open(c) && message != []
    case SendFileCall(fd, size) => c.state == Connected && fd >= 0 && size > 0
    case SendFileTask(fd, size) => Open(c) && fd >= 0 && size > 0
    case _ => false
  }

  /** It comes after the half-close. */
  predicate SpeaksLate(c: Conn, a: Action) {
    Closed(c.log) && Speaks(c, a)
  }

  /** After the half-close an open connection has nothing to send, and one that is not open does not try. */
  predicate Hushed(c: Conn) {
    && FileInBounds(c)
    && (c.state == Connecting ==> !Closed(c.log))
    && (Closed(c.log) && Open(c) ==> Left(c) == 0)
    && (!Open(c) ==> !c.writing)
  }

  /** From `c` to `r` no byte has left after a half-close, and a half-close has come only if `closes`. */
  predicate StaysSilent(c: Conn, r: Conn, closes: bool) {
    SentAfter(r.log) == SentAfter(c.log) && (Closed(r.log) <==> Closed(c.log) || closes)
  }

  lemma LogSilent(c: Conn, when: bool, e: Event)
    requires Closed(c.log) ==> Size(e) == 0
    ensures StaysSilent(c, Log(c, when, e), when && e == HalfClose)
  {
    SentAfterOne(c.log, e);
    hide SentAfter, Closed;
  }

  lemma EnqueueSilent(c: Conn, rest: bytes)
    ensures StaysSilent(c, Enqueue(c, rest), false)
  {
    SentAfterOne(c.log, Queued(HighWater(|c.out + rest|)));
    hide SentAfter, Closed;
  }

  lemma SendHushed(c: Conn, message: bytes, w: WriteResult)
    requires Hushed(c) && c.state != Connecting && (Closed(c.log) && Open(c) ==> message == [])
    ensures var r := SendInLoop(c, message, w);
            StaysSilent(c, r, false) && Hushed(r)
  {
    hide SentAfter, Closed, Enqueue;
    var c1 := c.(accepted := c.accepted + message);
    EnqueueSilent(c1, message);
    EnqueueShape(c1, message);
    if w.Wrote? && c.state != Disconnected {
      var n := Least(w.count, |message|);
      var c2 := Log(c1, true, ToWire(message[..n]));
      LogSilent(c1, true, ToWire(message[..n]));
      LogSilent(c2, n == |message| && c.callbacks.writeComplete, Queued(WriteComplete));
      var c3 := Log(c2, n == |message| && c.callbacks.writeComplete, Queued(WriteComplete));
      EnqueueSilent(c3, message[n..]);
      EnqueueShape(c3, message[n..]);
    }
  }

  lemma EnqueueShape(c: Conn, rest: bytes)
    ensures var r := Enqueue(c, rest);
            && r.state == c.state && r.fileFd == c.fileFd && r.fileSize == c.fileSize && r.fileOffset == c.fileOffset
            && r.out == c.out + rest && (rest == [] ==> r == c)
  {
  }

  lemma BufferHushed(c: Conn, w: WriteResult)
    requires Hushed(c) && FlushBuffer(c, w).Some? && Open(c)
    ensures var r := FlushBuffer(c, w).value; StaysSilent(c, r, false) && Hushed(r) && r.state == c.state
  {
    hide SentAfter, Closed;
    if c.out != [] && w.Wrote? {
      SentAfterOne(c.log, ToWire(c.out[..Least(w.count, |c.out|)]));
    }
  }

  lemma LowWaterHushed(c: Conn)
    requires Hushed(c) && Open(c)
    ensures var r := CheckLowWater(c); StaysSilent(c, r, false) && Hushed(r) && r.state == c.state
  {
    hide SentAfter, Closed;
    SentAfterOne(c.log, Queued(LowWater(|c.out|)));
  }

  lemma FileHushed(c: Conn, f: SendFileResult)
    requires Hushed(c) && Open(c)
    ensures var r := FlushFile(c, f).0; StaysSilent(c, r, false) && Hushed(r) && r.state == c.state
  {
    hide SentAfter, Closed;
    SentAfterOne(c.log, FileToWire(FileCount(c, f)));
  }

  lemma FlushHushed(c: Conn, w: WriteResult, f: SendFileResult)
    requires Hushed(c) && FlushBuffer(c, w).Some? && Open(c)
    ensures var r := FlushFile(CheckLowWater(FlushBuffer(c, w).value), f).0;
            StaysSilent(c, r, false) && Hushed(r) && r.state == c.state
  {
    hide SentAfter, Closed, Hushed, FlushBuffer, CheckLowWater, FlushFile;
    var c1 := FlushBuffer(c, w).value;
    BufferHushed(c, w);
    LowWaterHushed(c1);
    FileHushed(CheckLowWater(c1), f);
  }

  lemma FinishHushed(c: Conn)
    requires Hushed(c) && Open(c)
    ensures var r := FinishWriting(c);
            Hushed(r) && SentAfter(r.log) == SentAfter(c.log)
  {
    hide SentAfter, Closed;
    SentAfterOne(c.log, Queued(WriteComplete));
    SentAfterOne(c.log, HalfClose);
    SentAfterOne(c.log + [Queued(WriteComplete)], HalfClose);
  }

  lemma WritableHushed(c: Conn, w: WriteResult, f: SendFileResult)
    requires Hushed(c)
    ensures var r := HandleWrite(c, w, f); Hushed(r) && SentAfter(r.log) == SentAfter(c.log)
  {
    hide SentAfter, Closed, FlushBuffer, FlushFile, CheckLowWater, FinishWriting;
    if c.writing && FlushBuffer(c, w).Some? {
      FlushHushed(c, w, f);
      FinishHushed(FlushFile(CheckLowWater(FlushBuffer(c, w).value), f).0);
    }
  }

  lemma NextHushed(c: Conn, a: Action)
    requires Interested(c) && Hushed(c) && !SpeaksLate(c, a)
    ensures Hushed(Next(c, a)) && SentAfter(Next(c, a).log) == SentAfter(c.log)
  {
    hide SentAfter, Closed, SendInLoop, HandleWrite;
    match a
    case SendCall(message, w) =>
      if c.state == Connected {
        SendHushed(c, message, w);
      }
    case SendTask(message, w) =>
      if c.state != Connecting {
        SendHushed(c, message, w);
      }
    case Writable(w, f) => WritableHushed(c, w, f);
    case Establish => SentAfterOne(c.log, Up);
    case ShutdownCall => SentAfterOne(c.log, HalfClose);
    case ShutdownTask => SentAfterOne(c.log, HalfClose);
    case ForceCloseCall => SentAfterOne(c.log, Queued(ForceCloseTask));
    case RunForceClose => CloseHushed(c);
    case PeerClosed => CloseHushed(c);
    case Destroy => SentAfterOne(c.log, Down);
    case _ =>
  }

  lemma CloseHushed(c: Conn)
    requires Hushed(c)
    ensures Hushed(HandleClose(c)) && SentAfter(HandleClose(c).log) == SentAfter(c.log)
  {
    hide SentAfter, Closed;
    SentAfterOne(c.log, Down);
    SentAfterOne(c.log, CloseCallback);
    SentAfterOne(c.log + [Down], CloseCallback);
  }

  /** The connection after the first `k` actions of a run. */
  function At(c: Conn, actions: seq<Action>, k: nat): Conn
    requires k <= |actions|
  {
    Execute(c, actions[..k])
  }

  ghost predicate NobodySpeaksLate(c: Conn, actions: seq<Action>) {
    forall k :: 0 <= k < |actions| ==> !SpeaksLate(At(c, actions, k), actions[k])
  }

  lemma {:induction false} RunHushed(c: Conn, actions: seq<Action>)
    requires Start(c) && NobodySpeaksLate(c, actions)
    ensures var r := Execute(c, actions);
            Hushed(r) && Interested(r) && SentAfter(r.log) == 0
    decreases |actions|
  {
    hide Next, SpeaksLate, Conserved, Marked, Lived;
    StartInv(c);
    ExecuteKeeps(c, actions);
    if actions != [] {
      var init := actions[..|actions| - 1];
      assert NobodySpeaksLate(c, init) by {
        forall k | 0 <= k < |init|
          ensures !SpeaksLate(At(c, init, k), init[k])
        {
          assert init[..k] == actions[..k];
          assert !SpeaksLate(At(c, actions, k), actions[k]);
        }
      }
      RunHushed(c, init);
      assert !SpeaksLate(At(c, actions, |init|), actions[|init|]);
      NextHushed(Execute(c, init), actions[|actions| - 1]);
    }
  }

  /** Over every run: unless a call speaks after the half-close, no byte leaves after it. */
  lemma {:induction false} SilentAfterHalfClose(c: Conn, actions: seq<Action>)
    requires Start(c) && NobodySpeaksLate(c, actions)
    ensures SentAfter(Execute(c, actions).log) == 0
  {
    RunHushed(c, actions);
  }

  /** `a`, with `w` for what its write returns. */
  function WithResult(a: Action, w: WriteResult): Action {
    match a
    case SendCall(message, _) => SendCall(message, w)
    case SendTask(message, _) => SendTask(message, w)
    case _ => a
  }

  /** After `a` and one writable event, with these results, bytes have left after the half-close. */
  predicate Leaks(c: Conn, a: Action, w: WriteResult, t: Turn) {
    SentAfter(Next(Next(c, WithResult(a, w)), Writable(Wrote(t.written), Sent(t.sent))).log) > 0
  }

  lemma TwoMore(c: Conn, actions: seq<Action>, a: Action, b: Action)
    requires NobodySpeaksLate(c, actions)
    requires !SpeaksLate(Execute(c, actions), a) && !SpeaksLate(Next(Execute(c, actions), a), b)
    ensures NobodySpeaksLate(c, actions + [a, b])
    ensures Execute(c, actions + [a, b]) == Next(Next(Execute(c, actions), a), b)
  {
    hide Next, SpeaksLate;
    var more := actions + [a, b];
    assert more[..|actions|] == actions && more[..|actions| + 1] == actions + [a];
    assert more[..|more| - 1] == actions + [a] && (actions + [a])[..|actions|] == actions;
    assert Execute(c, actions + [a]) == Next(Execute(c, actions), a);
    assert Execute(c, more) == Next(Execute(c, actions + [a]), b);
    forall k | 0 <= k < |more|
      ensures !SpeaksLate(At(c, more, k), more[k])
    {
      if k < |actions| {
        assert more[..k] == actions[..k];
        assert !SpeaksLate(At(c, actions, k), actions[k]);
      }
    }
  }

  /** With a kernel that takes a byte at a time, a call that speaks late is heard on the wire. */
  lemma LateIsHeard(c: Conn, a: Action)
    requires Hushed(c) && SpeaksLate(c, a)
    ensures Leaks(c, a, Wrote(1), Turn(1, 1))
  {
    hide SentAfter, Closed, SendInLoop, HandleWrite;
    if a.SendCall? || a.SendTask? {
      SendKeepsFile(c, a.message, Wrote(1));
      LateMessage(c, a.message);
    } else {
      LateFile(c, a.fd, a.size);
    }
  }

  lemma WritableOnlyAdds(c: Conn, w: WriteResult, f: SendFileResult)
    ensures var r := HandleWrite(c, w, f); SentAfter(r.log) >= SentAfter(c.log) && (Closed(c.log) ==> Closed(r.log))
  {
    hide SentAfter, Closed, FlushBuffer, CheckLowWater, FlushFile, FinishWriting;
    if c.writing && FlushBuffer(c, w).Some? {
      FlushOnlyAdds(c, w, f);
      FinishOnlyAdds(FlushFile(CheckLowWater(FlushBuffer(c, w).value), f).0);
    }
  }

  lemma FlushOnlyAdds(c: Conn, w: WriteResult, f: SendFileResult)
    requires FlushBuffer(c, w).Some?
    ensures var r := FlushFile(CheckLowWater(FlushBuffer(c, w).value), f).0;
            SentAfter(r.log) >= SentAfter(c.log) && (Closed(c.log) ==> Closed(r.log))
  {
    hide SentAfter, Closed;
    if c.out != [] && w.Wrote? {
      SentAfterOne(c.log, ToWire(c.out[..Least(w.count, |c.out|)]));
    }
    var c1 := FlushBuffer(c, w).value;
    SentAfterOne(c1.log, Queued(LowWater(|c1.out|)));
    var c2 := CheckLowWater(c1);
    SentAfterOne(c2.log, FileToWire(FileCount(c2, f)));
  }

  lemma FinishOnlyAdds(c: Conn)
    ensures var r := FinishWriting(c); SentAfter(r.log) == SentAfter(c.log) && (Closed(c.log) ==> Closed(r.log))
  {
    hide SentAfter, Closed;
    SentAfterOne(c.log, Queued(WriteComplete));
    SentAfterOne(c.log, HalfClose);
    SentAfterOne(c.log + [Queued(WriteComplete)], HalfClose);
  }

  lemma LateMessage(c: Conn, message: bytes)
    requires Hushed(c) && Closed(c.log) && Open(c) && message != []
    ensures var c1 := SendInLoop(c, message, Wrote(1));
            SentAfter(HandleWrite(c1, Wrote(1), Sent(1)).log) > 0
  {
    hide SentAfter, Closed, Enqueue, HandleWrite;
    var c0 := c.(accepted := c.accepted + message);
    if c.writing {
      EnqueueSilent(c0, message);
      EnqueueWrites(c0, message);
      QueuedLeaves(Enqueue(c0, message));
    } else {
      SentAfterOne(c.log, ToWire(message[..1]));
      var c2 := Log(c0, true, ToWire(message[..1]));
      SentAfterOne(c2.log, Queued(WriteComplete));
      var c3 := Log(c2, 1 == |message| && c.callbacks.writeComplete, Queued(WriteComplete));
      EnqueueSilent(c3, message[1..]);
      WritableOnlyAdds(SendInLoop(c, message, Wrote(1)), Wrote(1), Sent(1));
    }
  }

  lemma EnqueueWrites(c: Conn, rest: bytes)
    requires rest != []
    ensures var r := Enqueue(c, rest); r.writing && r.out == c.out + rest
  {
  }

  /** A queued byte leaves at the next writable event. */
  lemma QueuedLeaves(c: Conn)
    requires c.writing && c.out != [] && Closed(c.log)
    ensures SentAfter(HandleWrite(c, Wrote(1), Sent(1)).log) > 0
  {
    hide SentAfter, Closed, FinishWriting;
    SentAfterOne(c.log, ToWire(c.out[..1]));
    var c1 := FlushBuffer(c, Wrote(1)).value;
    SentAfterOne(c1.log, Queued(LowWater(|c1.out|)));
    var c2 := CheckLowWater(c1);
    SentAfterOne(c2.log, FileToWire(FileCount(c2, Sent(1))));
    FinishOnlyAdds(FlushFile(c2, Sent(1)).0);
  }

  lemma LateFile(c: Conn, fd: int, size: nat)
    requires Hushed(c) && Closed(c.log) && Open(c) && fd >= 0 && size > 0
    ensures SentAfter(HandleWrite(SendFileInLoop(c, fd, size), Wrote(1), Sent(1)).log) > 0
  {
    hide SentAfter, Closed, FinishWriting;
    var c1 := SendFileInLoop(c, fd, size);
    SentAfterOne(c1.log, Queued(LowWater(|c1.out|)));
    var c2 := CheckLowWater(c1);
    SentAfterOne(c2.log, FileToWire(1));
    FinishOnlyAdds(FlushFile(c2, Sent(1)).0);
  }

  /**
   * Exactly when a byte can leave after the half-close: as long as nobody has spoken late, the next call can put one
   * there, for some results of the kernel, if and only if it speaks late itself. `shutdown` stops `send`, which
   * wants a connected connection, but not a `send` or `sendFile` already handed over as a task.
   */
  lemma {:induction false} LateExactly(c: Conn, actions: seq<Action>, a: Action)
    requires Start(c) && NobodySpeaksLate(c, actions)
    ensures (exists w, t :: Leaks(Execute(c, actions), a, w, t)) <==> SpeaksLate(Execute(c, actions), a)
  {
    hide Next, Execute, Hushed, SpeaksLate, NobodySpeaksLate;
    var r := Execute(c, actions);
    RunHushed(c, actions);
    if SpeaksLate(r, a) {
      LateIsHeard(r, a);
    } else {
      forall w, t
        ensures !Leaks(r, a, w, t)
      {
        var b := Writable(Wrote(t.written), Sent(t.sent));
        SameSpeech(r, a, w);
        WritableIsSilent(Next(r, WithResult(a, w)), b);
        TwoMore(c, actions, WithResult(a, w), b);
        SilentAfterHalfClose(c, actions + [WithResult(a, w), b]);
      }
    }
  }

  lemma SameSpeech(c: Conn, a: Action, w: WriteResult)
    ensures SpeaksLate(c, WithResult(a, w)) <==> SpeaksLate(c, a)
  {
  }

  lemma WritableIsSilent(c: Conn, a: Action)
    requires a.Writable?
    ensures !SpeaksLate(c, a)
  {
  }

  /** Once shutting down, only tasks speak. */
  lemma OnlyTasksSpeakLate(c: Conn, a: Action)
    requires c.state == Disconnecting && SpeaksLate(c, a)
    ensures a.SendTask? || a.SendFileTask?
  {
  }
}
