/** `TcpConnection` as an object over a `Buffer`: its methods refine the functions of `TcpModel`. */
module TcpConnections {
  import opened Bytes
  import opened ByteBuffer
  import opened ConnectionState
  import opened TcpModel

  /** The tasks given to `queueInLoop`, in order. */
  function Tasks(log: seq<Event>): seq<Task> {
    if log == [] then []
    else
      var last := log[|log| - 1];
      Tasks(log[..|log| - 1]) + (if last.Queued? then [last.task] else [])
  }

  lemma TasksOne(log: seq<Event>, e: Event)
    ensures Tasks(log + [e]) == Tasks(log) + (if e.Queued? then [e.task] else [])
  {
    assert (log + [e])[..|log|] == log;
  }

  /** Looking at the mark before or after enabling write interest is the same. */
  lemma RaiseIgnoresWriting(c: Conn)
    ensures RaiseWatermark(c.(writing := true)) == RaiseWatermark(c).(writing := true)
  {
  }

  class TcpConnection {
    var state: State
    const outputBuffer: Buffer
    var reading: bool // the channel's interest
    var writing: bool
    var aboveHighWaterMark: bool
    const lowWaterMark: nat
    const highWaterMark: nat
    var fileFd: int
    var fileSize: nat
    var fileOffset: nat
    const callbacks: Callbacks
    var loopTasks: seq<Task> // what this connection has given to its loop's queue
    ghost var model: Conn

    ghost predicate Mirrors()
      reads this, outputBuffer, outputBuffer.data
    {
      && outputBuffer.Valid()
      && model.out == outputBuffer.Readable()
      && model.state == state
      && model.reading == reading && model.writing == writing
      && model.above == aboveHighWaterMark && model.low == lowWaterMark && model.high == highWaterMark
      && model.fileFd == fileFd && model.fileSize == fileSize && model.fileOffset == fileOffset
      && model.callbacks == callbacks
      && loopTasks == Tasks(model.log)
    }

    constructor (lowWaterMark: nat, highWaterMark: nat, callbacks: Callbacks)
      requires lowWaterMark < highWaterMark
      ensures Mirrors() && Start(model) && fresh(outputBuffer) && fresh(outputBuffer.data)
      ensures model.low == lowWaterMark && model.high == highWaterMark && model.callbacks == callbacks
    {
      this.lowWaterMark, this.highWaterMark, this.callbacks := lowWaterMark, highWaterMark, callbacks;
      state, reading, writing, aboveHighWaterMark, loopTasks := Connecting, false, false, false, [];
      fileFd, fileSize, fileOffset := -1, 0, 0;
      outputBuffer := new Buffer(1024);
      model := Conn(Connecting, [], false, false, false, lowWaterMark, highWaterMark, -1, 0, 0, callbacks, [], [], []);
    }

    method QueueInLoop(task: Task)
      requires Mirrors()
      modifies this`loopTasks, this`model
      ensures Mirrors() && model == Log(old(model), true, Queued(task))
    {
      TasksOne(model.log, Queued(task));
      hide Tasks;
      loopTasks := loopTasks + [task];
      model := Log(model, true, Queued(task));
    }

    /** The world sees `e`; no task is involved. */
    ghost method Observe(when: bool, e: Event)
      requires Mirrors() && !e.Queued?
      modifies this`model
      ensures Mirrors() && model == Log(old(model), when, e)
    {
      TasksOne(model.log, e);
      model := Log(model, when, e);
    }

    // ---- sending ----

    method AppendOutput(rest: bytes)
      requires Mirrors()
      modifies this`model, outputBuffer, outputBuffer.data
      ensures Mirrors() && (outputBuffer.data == old(outputBuffer.data) || fresh(outputBuffer.data))
      ensures model == old(model).(out := old(model.out) + rest)
    {
      hide Tasks;
      outputBuffer.Append(rest);
      model := model.(out := model.out + rest);
    }

    /** The high watermark is looked at after every append. */
    method RaiseWatermark()
      requires Mirrors()
      modifies this`aboveHighWaterMark, this`loopTasks, this`model
      ensures Mirrors() && model == TcpModel.RaiseWatermark(old(model))
    {
      hide Tasks;
      var queuedBytes := outputBuffer.ReadableBytes();
      assert queuedBytes == |model.out|;
      if !aboveHighWaterMark && queuedBytes >= highWaterMark {
        aboveHighWaterMark := true;
        model := model.(above := true, crossings := model.crossings + [HighWater(queuedBytes)]);
        if callbacks.highWater {
          QueueInLoop(HighWater(queuedBytes));
        }
      }
    }

    method EnableWriting()
      requires Mirrors()
      modifies this`writing, this`model
      ensures Mirrors() && model == old(model).(writing := true)
    {
      hide Tasks;
      writing := true;
      model := model.(writing := true);
    }

    method EnqueueRest(rest: bytes)
      requires Mirrors()
      modifies this, outputBuffer, outputBuffer.data
      ensures Mirrors() && (outputBuffer.data == old(outputBuffer.data) || fresh(outputBuffer.data))
      ensures model == Enqueue(old(model), rest)
    {
      hide Mirrors;
      if |rest| == 0 {
        return;
      }
      AppendOutput(rest);
      RaiseWatermark();
      EnableWriting();
      RaiseIgnoresWriting(old(model).(out := old(model).out + rest));
    }

    method SendInLoop(message: bytes, w: WriteResult)
      requires Mirrors()
      modifies this, outputBuffer, outputBuffer.data
      ensures Mirrors() && (outputBuffer.data == old(outputBuffer.data) || fresh(outputBuffer.data))
      ensures model == TcpModel.SendInLoop(old(model), message, w)
    {
      hide Enqueue, Tasks;
      var nwrote := 0;
      var faultError := false;
      if state == Disconnected {
        return;
      }
      if !writing && outputBuffer.ReadableBytes() == 0 {
        match w {
          case Wrote(count) =>
            nwrote := Least(count, |message|);
            model := model.(accepted := model.accepted + message);
            Observe(true, ToWire(message[..nwrote]));
            if nwrote == |message| && callbacks.writeComplete {
              QueueInLoop(WriteComplete);
            }
          case PeerGone =>
            faultError := true;
          case _ =>
            model := model.(accepted := model.accepted + message);
        }
      } else {
        model := model.(accepted := model.accepted + message);
      }
      if !faultError {
        assert message[0..] == message;
        EnqueueRest(message[nwrote..]);
      }
    }

    /** `send`: on the loop thread at once, on any other as a task, which is `SendInLoop`. */
    method Send(inLoopThread: bool, message: bytes, w: WriteResult) returns (task: Option<bytes>)
      requires Mirrors()
      modifies this, outputBuffer, outputBuffer.data
      ensures Mirrors() && (outputBuffer.data == old(outputBuffer.data) || fresh(outputBuffer.data))
      ensures model == if inLoopThread then TcpModel.Send(old(model), message, w) else old(model)
      ensures task == if !inLoopThread && old(state) == Connected then Some(message) else None
    {
      hide Tasks, TcpModel.SendInLoop;
      task := None;
      if state == Connected {
        if inLoopThread {
          SendInLoop(message, w);
        } else {
          task := Some(message);
        }
      }
    }

    /** `sendFile`: on the loop thread at once, on any other as a task, which is `SendFileInLoop`. */
    method SendFile(inLoopThread: bool, fd: int, size: nat) returns (task: bool)
      requires Mirrors()
      modifies this
      ensures Mirrors() && model == if inLoopThread then TcpModel.SendFile(old(model), fd, size) else old(model)
      ensures task == (!inLoopThread && old(state) == Connected)
    {
      hide Tasks, TcpModel.SendFileInLoop;
      task := false;
      if state == Connected {
        if inLoopThread {
          SendFileInLoop(fd, size);
        } else {
          task := true;
        }
      }
    }

    method SendFileInLoop(fd: int, size: nat)
      requires Mirrors()
      modifies this
      ensures Mirrors() && model == TcpModel.SendFileInLoop(old(model), fd, size)
    {
      hide Tasks;
      if state == Disconnected {
        return;
      }
      fileFd, fileSize, fileOffset := fd, size, 0;
      if !writing {
        writing := true;
      }
      model := TcpModel.SendFileInLoop(model, fd, size);
    }

    // ---- the writable event ----

    method WriteBuffer(w: WriteResult) returns (more: bool)
      requires Mirrors()
      modifies this`model, outputBuffer`readIndex, outputBuffer`writeIndex
      ensures Mirrors() && more == FlushBuffer(old(model), w).Some?
      ensures model == if more then FlushBuffer(old(model), w).value else old(model)
    {
      hide Tasks;
      if outputBuffer.ReadableBytes() > 0 {
        match w {
          case Wrote(count) =>
            var n := Least(count, outputBuffer.ReadableBytes());
            ghost var out := model.out;
            if n > 0 {
              outputBuffer.Retrieve(n);
            }
            assert outputBuffer.Readable() == out[n..];
            model := model.(out := out[n..]);
            Observe(n > 0, ToWire(out[..n]));
          case WouldBlock =>
          case _ => return false;
        }
      }
      return true;
    }

    method LowerWatermark()
      requires Mirrors()
      modifies this`aboveHighWaterMark, this`loopTasks, this`model
      ensures Mirrors() && model == CheckLowWater(old(model))
    {
      hide Tasks;
      var queuedBytes := outputBuffer.ReadableBytes();
      assert queuedBytes == |model.out|;
      if aboveHighWaterMark && queuedBytes <= lowWaterMark {
        aboveHighWaterMark := false;
        model := model.(above := false, crossings := model.crossings + [LowWater(queuedBytes)]);
        if callbacks.lowWater {
          QueueInLoop(LowWater(queuedBytes));
        }
      }
    }

    method WriteFile(f: SendFileResult) returns (more: bool)
      requires Mirrors()
      modifies this`fileFd, this`fileOffset, this`model
      ensures Mirrors() && (model, more) == FlushFile(old(model), f)
    {
      hide Tasks;
      if outputBuffer.ReadableBytes() == 0 && fileFd >= 0 {
        match f {
          case Sent(count) =>
            var n := if fileOffset <= fileSize then Least(count, fileSize - fileOffset) else 0;
            fileOffset := fileOffset + n;
            model := model.(fileOffset := fileOffset);
            Observe(n > 0, FileToWire(n));
          case FileWouldBlock =>
            return false;
          case FileError =>
            fileFd := -1;
            model := model.(fileFd := -1);
            return false;
        }
      }
      return true;
    }

    method StopWriting()
      requires Mirrors()
      modifies this`writing, this`fileFd, this`loopTasks, this`model
      ensures Mirrors() && model == FinishWriting(old(model))
    {
      hide Tasks;
      if outputBuffer.ReadableBytes() == 0 && (fileFd < 0 || fileOffset == fileSize) {
        writing := false;
        if fileFd >= 0 {
          fileFd := -1;
        }
        model := model.(writing := false, fileFd := fileFd);
        if callbacks.writeComplete {
          QueueInLoop(WriteComplete);
        }
        if state == Disconnecting {
          ShutdownInLoop();
        }
      }
    }

    method HandleWrite(w: WriteResult, f: SendFileResult)
      requires Mirrors()
      modifies this, outputBuffer`readIndex, outputBuffer`writeIndex
      ensures Mirrors() && model == TcpModel.HandleWrite(old(model), w, f)
    {
      hide Tasks, FlushBuffer, CheckLowWater, FlushFile, FinishWriting;
      if !writing {
        return;
      }
      var more := WriteBuffer(w);
      if !more {
        return;
      }
      LowerWatermark();
      more := WriteFile(f);
      if more {
        StopWriting();
      }
    }

    // ---- lifecycle ----

    method ConnectEstablished()
      requires Mirrors() && state == Connecting
      modifies this`state, this`reading, this`model
      ensures Mirrors() && model == TcpModel.ConnectEstablished(old(model))
    {
      hide Tasks;
      state, reading := Connected, true;
      model := model.(state := Connected, reading := true);
      Observe(callbacks.connection, Up);
    }

    /** `shutdown`: the rest is done at once on the loop thread, and by a task, `ShutdownInLoop`, for any other. */
    method Shutdown(inLoopThread: bool) returns (task: bool)
      requires Mirrors()
      modifies this`state, this`model
      ensures Mirrors()
      ensures model == if inLoopThread then TcpModel.Shutdown(old(model)) else BeginShutdown(old(model))
      ensures task == (!inLoopThread && old(state) == Connected)
    {
      hide Tasks;
      task := false;
      if state == Connected {
        state := Disconnecting;
        model := BeginShutdown(model);
        if inLoopThread {
          ShutdownInLoop();
        } else {
          task := true;
        }
      }
    }

    /** `shutdownWrite` on the socket, unless there is still something to write. */
    method ShutdownInLoop()
      requires Mirrors()
      modifies this`model
      ensures Mirrors() && model == TcpModel.ShutdownInLoop(old(model))
    {
      Observe(!writing, HalfClose);
    }

    method ForceClose()
      requires Mirrors()
      modifies this`state, this`loopTasks, this`model
      ensures Mirrors() && model == TcpModel.ForceClose(old(model))
    {
      hide Tasks;
      if state == Connected || state == Disconnecting {
        state := Disconnecting;
        model := model.(state := Disconnecting);
        QueueInLoop(ForceCloseTask);
      }
    }

    method HandleClose()
      requires Mirrors()
      modifies this`state, this`reading, this`writing, this`fileFd, this`model
      ensures Mirrors() && model == TcpModel.HandleClose(old(model))
    {
      hide Tasks;
      if state == Disconnected {
        return;
      }
      if fileFd >= 0 {
        fileFd := -1;
      }
      state, reading, writing := Disconnected, false, false;
      model := model.(state := Disconnected, reading := false, writing := false, fileFd := fileFd);
      Observe(callbacks.connection, Down);
      Observe(callbacks.close, CloseCallback);
    }

    method ForceCloseInLoop()
      requires Mirrors()
      modifies this`state, this`reading, this`writing, this`fileFd, this`model
      ensures Mirrors() && model == TcpModel.ForceCloseInLoop(old(model))
    {
      hide Tasks;
      if state == Connected || state == Disconnecting {
        HandleClose();
      }
    }

    method ConnectDestroyed()
      requires Mirrors()
      modifies this`state, this`reading, this`writing, this`model
      ensures Mirrors() && model == TcpModel.ConnectDestroyed(old(model))
    {
      hide Tasks;
      ghost var open := Open(model);
      if state == Connected || state == Disconnecting {
        state := Disconnected;
        model := model.(state := Disconnected);
      }
      reading, writing := false, false;
      model := model.(reading := false, writing := false);
      Observe(open, Down);
    }
  }
}
