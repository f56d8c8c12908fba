/**
 * One TCP connection as a state machine: output buffer, write interest, watermarks, file and lifecycle. The
 * kernel is an adversary that takes any prefix of what it is given, or reports an error.
 */
module TcpModel {
  import opened Bytes
  import opened ConnectionState

  // What `write` does: it takes that many bytes, or fails with an errno.
  datatype WriteResult = Wrote(count: nat) | WouldBlock | PeerGone | OtherError

  datatype SendFileResult = Sent(count: nat) | FileWouldBlock | FileError

  // A task given to `queueInLoop`.
  datatype Task = HighWater(queued: nat) | LowWater(queued: nat) | WriteComplete | ForceCloseTask

  // What the rest of the program and the peer can see of the connection.
  datatype Event =
    | ToWire(data: bytes)
    | FileToWire(count: nat)
    | Queued(task: Task)
    | HalfClose
    | Up
    | Down
    | CloseCallback

  datatype Callbacks = Callbacks(connection: bool, writeComplete: bool, lowWater: bool, highWater: bool, close: bool)

  datatype Conn = Conn(
    state: State,
    out: bytes,
    reading: bool,
    writing: bool,
    above: bool,
    low: nat,
    high: nat,
    fileFd: int,
    fileSize: nat,
    fileOffset: nat,
    callbacks: Callbacks,
    accepted: bytes, // every message taken by `sendInLoop`, in order
    crossings: seq<Task>, // every crossing of a mark, whether or not a callback is set for it
    log: seq<Event>)

  function Log(c: Conn, when: bool, e: Event): Conn {
    if when then c.(log := c.log + [e]) else c
  }

  function Least(a: nat, b: nat): nat {
    if a < b then a else b
  }

  // ---- sending ----

  /** The tail of `sendInLoop`: what was not written is queued, and the high watermark is checked. */
  function Enqueue(c: Conn, rest: bytes): Conn {
    if rest == [] then c
    else
      var out := c.out + rest;
      RaiseWatermark(c.(out := out, writing := true))
  }

  /** The high watermark is looked at after every append. */
  function RaiseWatermark(c: Conn): Conn {
    if !c.above && |c.out| >= c.high then Cross(c.(above := true), c.callbacks.highWater, HighWater(|c.out|)) else c
  }

  /** A mark is crossed; if there is a callback for it, that is queued. */
  function Cross(c: Conn, callback: bool, task: Task): Conn {
    Log(c.(crossings := c.crossings + [task]), callback, Queued(task))
  }

  function SendInLoop(c: Conn, message: bytes, w: WriteResult): Conn {
    if c.state == Disconnected then c
    else if c.writing || c.out != [] then Enqueue(c.(accepted := c.accepted + message), message)
    else
      match w
      case PeerGone => c
      case Wrote(count) =>
        var n := Least(count, |message|);
        var c1 := Log(c.(accepted := c.accepted + message), true, ToWire(message[..n]));
        Enqueue(Log(c1, n == |message| && c.callbacks.writeComplete, Queued(WriteComplete)), message[n..])
      case _ => Enqueue(c.(accepted := c.accepted + message), message)
  }

  function Send(c: Conn, message: bytes, w: WriteResult): Conn {
    if c.state == Connected then SendInLoop(c, message, w) else c
  }

  function SendFileInLoop(c: Conn, fd: int, size: nat): Conn {
    if c.state == Disconnected then c
    else c.(fileFd := fd, fileSize := size, fileOffset := 0, writing := true)
  }

  function SendFile(c: Conn, fd: int, size: nat): Conn {
    if c.state == Connected then SendFileInLoop(c, fd, size) else c
  }

  // ---- the writable event ----

  /** Writes queued bytes; `None` when the write fails and the function returns. */
  function FlushBuffer(c: Conn, w: WriteResult): Option<Conn> {
    if c.out == [] then Some(c)
    else
      match w
      case Wrote(count) =>
        var n := Least(count, |c.out|);
        Some(Log(c.(out := c.out[n..]), n > 0, ToWire(c.out[..n])))
      case WouldBlock => Some(c)
      case _ => None
  }

  function CheckLowWater(c: Conn): Conn {
    if c.above && |c.out| <= c.low then Cross(c.(above := false), c.callbacks.lowWater, LowWater(|c.out|)) else c
  }

  /** The file bytes one `sendfile` moves. */
  function FileCount(c: Conn, f: SendFileResult): nat {
    if f.Sent? && c.fileOffset <= c.fileSize then Least(f.count, c.fileSize - c.fileOffset) else 0
  }

  /** Sends part of the pending file once the buffer is empty; false when the function returns. */
  function FlushFile(c: Conn, f: SendFileResult): (Conn, bool) {
    if c.out != [] || c.fileFd < 0 then (c, true)
    else
      match f
      case Sent(_) =>
        var n := FileCount(c, f);
        (Log(c.(fileOffset := c.fileOffset + n), n > 0, FileToWire(n)), true)
      case FileWouldBlock => (c, false)
      case FileError => (c.(fileFd := -1), false)
  }

  function ShutdownInLoop(c: Conn): Conn {
    Log(c, !c.writing, HalfClose)
  }

  /** Everything is out: write interest goes, and a connection being shut down is half-closed. */
  function FinishWriting(c: Conn): Conn {
    if c.out == [] && (c.fileFd < 0 || c.fileOffset == c.fileSize) then
      var c1 := Log(c.(writing := false, fileFd := if c.fileFd >= 0 then -1 else c.fileFd),
                    c.callbacks.writeComplete, Queued(WriteComplete));
      if c1.state == Disconnecting then ShutdownInLoop(c1) else c1
    else c
  }

  function HandleWrite(c: Conn, w: WriteResult, f: SendFileResult): Conn {
    if !c.writing then c
    else
      match FlushBuffer(c, w)
      case None => c
      case Some(c1) =>
        var (c2, more) := FlushFile(CheckLowWater(c1), f);
        if more then FinishWriting(c2) else c2
  }

  // ---- lifecycle ----

  function ConnectEstablished(c: Conn): Conn {
    Log(c.(state := Connected, reading := true), c.callbacks.connection, Up)
  }

  /** `shutdown`, before its task runs. */
  function BeginShutdown(c: Conn): Conn {
    if c.state == Connected then c.(state := Disconnecting) else c
  }

  function Shutdown(c: Conn): Conn {
    if c.state == Connected then ShutdownInLoop(BeginShutdown(c)) else c
  }

  function Open(c: Conn): bool {
    c.state == Connected || c.state == Disconnecting
  }

  function ForceClose(c: Conn): Conn {
    if Open(c) then Log(c.(state := Disconnecting), true, Queued(ForceCloseTask)) else c
  }

  function HandleClose(c: Conn): Conn {
    if c.state == Disconnected then c
    else
      var c1 := c.(state := Disconnected, fileFd := if c.fileFd >= 0 then -1 else c.fileFd,
                   reading := false, writing := false);
      Log(Log(c1, c.callbacks.connection, Down), c.callbacks.close, CloseCallback)
  }

  function ForceCloseInLoop(c: Conn): Conn {
    if Open(c) then HandleClose(c) else c
  }

  function ConnectDestroyed(c: Conn): Conn {
    var c1 := c.(reading := false, writing := false);
    if Open(c) then Log(c1.(state := Disconnected), true, Down) else c1
  }

  // ---- runs ----

  datatype Action =
    | Establish
    | SendCall(message: bytes, w: WriteResult)     // `send` on the loop thread
    | SendTask(message: bytes, w: WriteResult)     // the task of a `send` made elsewhere
    | SendFileCall(fd: int, size: nat)
    | SendFileTask(fd: int, size: nat)
    | Writable(w: WriteResult, f: SendFileResult)  // the channel is writable
    | ShutdownCall
    | ShutdownElsewhere                            // `shutdown` on another thread, and
    | ShutdownTask                                 // its task
    | ForceCloseCall
    | RunForceClose
    | PeerClosed                                   // end of input, or hang-up
    | Destroy

  /** An established connection can meet any action at any time; before that only `connectEstablished`. */
  predicate Enabled(c: Conn, a: Action) {
    a.Establish? <==> c.state == Connecting
  }

  function Effect(c: Conn, a: Action): Conn {
    match a
    case Establish => ConnectEstablished(c)
    case SendCall(message, w) => Send(c, message, w)
    case SendTask(message, w) => SendInLoop(c, message, w)
    case SendFileCall(fd, size) => SendFile(c, fd, size)
    case SendFileTask(fd, size) => SendFileInLoop(c, fd, size)
    case Writable(w, f) => HandleWrite(c, w, f)
    case ShutdownCall => Shutdown(c)
    case ShutdownElsewhere => BeginShutdown(c)
    case ShutdownTask => ShutdownInLoop(c)
    case ForceCloseCall => ForceClose(c)
    case RunForceClose => ForceCloseInLoop(c)
    case PeerClosed => HandleClose(c)
    case Destroy => ConnectDestroyed(c)
  }

  function Next(c: Conn, a: Action): Conn {
    if Enabled(c, a) then Effect(c, a) else c
  }

  function Execute(c: Conn, actions: seq<Action>): Conn {
    if actions == [] then c else Next(Execute(c, actions[..|actions| - 1]), actions[|actions| - 1])
  }

  predicate Start(c: Conn) {
    && c.state == Connecting && c.out == [] && !c.reading && !c.writing && !c.above && c.low < c.high
    && c.fileFd == -1 && c.fileSize == c.fileOffset == 0 && c.accepted == [] && c.crossings == [] && c.log == []
  }
}
