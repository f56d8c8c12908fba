# A verified model of AegisNet

AegisNet is a reactor-style C++ network library. This project models its stateful core in Dafny and proves what the
library is for: requests come out of a TCP stream the same however it is cut, timers fire exactly when they should, no
output byte is lost, no wakeup is missed, no log message is dropped, and connections die in one order.

Each part has the same three layers. A *model* is a state machine over values (`Next` is one step, `Execute` a run of
any length). *Proofs* state what every step keeps and what every run satisfies. A *class* has the source's fields and
updates them in place; its contracts say that each method performs exactly a step, or a run of steps, of the model, so
what is proved about runs of the model holds of an object whose methods are called in that order.

| Part | Model | Proofs | Object |
|---|---|---|---|
| byte buffer | `Bytes.dfy` | `Bytes.dfy` | `Buffer.dfy` |
| HTTP parser and the pipelining loop | `HttpSyntax.dfy` | `HttpGrammar.dfy`, `HttpHeads.dfy`, `HttpStream.dfy` | `HttpParser.dfy`, `HttpServer.dfy` |
| timer queue | `TimerModel.dfy` | `TimerProofs.dfy`, `TimerRefinement.dfy`, `TimerRead.dfy` | `TimerQueue.dfy` |
| TCP connection | `ConnectionState.dfy`, `TcpModel.dfy` | `TcpProofs.dfy`, `TcpDraining.dfy`, `TcpEvents.dfy` | `TcpConnection.dfy` |
| event loop task queue | `EventLoopModel.dfy` | `EventLoopModel.dfy`, `EventLoopOutside.dfy` | `EventLoop.dfy` |
| asynchronous log | `LogModel.dfy` | `LogModel.dfy` | `AsyncLogging.dfy` |
| server, two-loop close | `ServerModel.dfy` | `ServerProofs.dfy`, `ServerForcing.dfy` | `TcpServer.dfy` |
| connection as server and socket see it | | `ServerRefinement.dfy` | |
| watermarks and close hand-off on event loops | `TaskMarks.dfy` | `WatermarkDelivery.dfy`, `CloseDelivery.dfy` | |
| idle policy of the chat server | `IdlePolicy.dfy` | `IdleProofs.dfy`, `IdleForcing.dfy` | `WebChatServer.dfy` |

The environment is nondeterministic everywhere. What `readv`, `write`, `sendfile` and the clock return are parameters
(any prefix, any errno, any non-decreasing time), the kernel timer is a three-state value (disarmed, armed, fired), a
callback is any sequence of adds and cancels, and other threads act between any two steps under a lock.

Three promises are false of the code as one might first read them. Each is stated with its exact condition and an input
that breaks it:

* What is *extracted* from a stream does not depend on how TCP cuts it; what is *served* may, because a malformed
  request discards what the same callback extracted before it (main.cpp:155-159). `HttpStream.ServingIsCutIndependent`
  says of every stream that serving is independent of the cuts if and only if the stream is not malformed, or is so
  before its first whole request; `HttpStream.ServingIsCutIndependentWhenSent` says it in terms of what a client sends.
  `HttpStream.ServingDependsOnCuts` is a stream with two cuts that are served differently.
* Between reads the kernel timer watches the smallest expiration if and only if that expiration is positive, over every
  run and whatever the clock shows (`TimerProofs.KernelWatchesExactly`), because expiration 0 means disarm. With a
  positive clock it always does (`TimerProofs.KernelAlwaysWatches`). `TimerProofs.ZeroClockForgets` is a timer without
  delay added at clock 0, which a failed `clock_gettime` gives (src/net/TimerQueue.cpp:31-36).
* A task pushed by another thread, or inside an iteration, is never left without a wakeup. A task that the loop's own
  thread pushes outside an iteration gets none (src/net/EventLoop.cpp:95). Over every run, the loop is never at poll with
  tasks pending and no wakeup coming if and only if its thread never pushes one outside an iteration while no wakeup is
  coming already (`EventLoopOutside.WakeupsExactly`). `EventLoopOutside.QuietTaskWaits` is a task that waits.

## Model

| member | source | states |
|---|---|---|
| Bytes.FindCRLF | src/tcp/Buffer.h:32-36 | the index found is that of the first CRLF, and none is found exactly when there is none |
| Bytes.FindCRLFExtends | src/tcp/Buffer.h:32-36 | more input never moves a line break already found |
| Bytes.Int32RoundTrip | src/tcp/Buffer.cpp:98-107 | every 32-bit integer survives network byte order, whatever follows it |
| Bytes.Int32RoundTripBytes | src/tcp/Buffer.cpp:109-126 | any four bytes survive being read as an integer and written back |
| ByteBuffer.Buffer.constructor | src/tcp/Buffer.cpp:13-16 | nothing readable, 8 bytes to prepend into, the asked-for room to write |
| ByteBuffer.Buffer.Retrieve | src/tcp/Buffer.cpp:18-24 | drops that many readable bytes, or all of them and both indices return to 8 |
| ByteBuffer.Buffer.RetrieveAll | src/tcp/Buffer.cpp:26-29 | nothing is readable |
| ByteBuffer.Buffer.RetrieveAsString | src/tcp/Buffer.cpp:35-39 | result and what stays readable concatenate to what was readable; asking for more empties the buffer |
| ByteBuffer.Buffer.RetrieveAllAsString | src/tcp/Buffer.cpp:31-33 | returns all that was readable and leaves nothing |
| ByteBuffer.Buffer.MakeSpace | src/tcp/Buffer.cpp:52-64 | the readable bytes survive growth and compaction, the room suffices, and compaction moves strictly left |
| ByteBuffer.Buffer.Append | src/tcp/Buffer.cpp:43-50 | the readable bytes are the old ones followed by the input, for any input |
| ByteBuffer.Buffer.ReadFd | src/tcp/Buffer.cpp:66-96 | a scatter read of any length the kernel may deliver appends it in order; a failed one changes nothing |
| ByteBuffer.Buffer.Prepend | src/tcp/Buffer.cpp:115-121 | the input comes right before the readable bytes, which do not change |
| ByteBuffer.Buffer.ReadInt32 | src/tcp/Buffer.cpp:109-113 | the integer's encoding and what is left concatenate to what was readable |
| ByteBuffer.Buffer.PrependInt32 | src/tcp/Buffer.cpp:123-126 | peeking then gives back the integer, and the bytes behind it are the old ones |
| HttpSyntax.TokensAreVisibleAndUndelimited | src/tcp/HttpParser.cpp:10-33 | the accepted token characters are exactly the visible ones that section 5.6.2 of RFC 9110 does not list as delimiters |
| HttpSyntax.StepProgress | src/tcp/HttpParser.cpp:74-168 | every turn of the parse loop consumes input or ends it |
| HttpSyntax.Run | src/tcp/HttpParser.cpp:70-169 | the loop terminates, stops only where no turn is possible, and a whole request consumes something |
| HttpSyntax.StepExtends | src/tcp/HttpParser.cpp:74-168 | a turn taken stays the same turn when more input is there, which it leaves alone |
| HttpSyntax.RunResumes | src/tcp/HttpParser.cpp:70-169 | stopping for lack of input and resuming later equals having had all input at once |
| HttpGrammar.TrimPadded | src/tcp/HttpParser.cpp:132-140 | trimming a value sent between blanks gives the value back |
| HttpGrammar.TrimSplit | src/tcp/HttpParser.cpp:132-140 | every string is its trimmed part between blanks |
| HttpGrammar.RequestLineParses | src/tcp/HttpParser.cpp:171-194 | a printed request line parses to its method, target and version |
| HttpGrammar.RequestLineUnparses | src/tcp/HttpParser.cpp:171-194 | every accepted request line is a printed one |
| HttpGrammar.FieldParses | src/tcp/HttpParser.cpp:116-149 | a printed header line parses to its name in small letters and its trimmed value |
| HttpGrammar.FieldUnparses | src/tcp/HttpParser.cpp:116-149 | every accepted header line is a printed one |
| HttpGrammar.HeadersUnparse | src/tcp/HttpParser.cpp:89-157 | header parsing that ends in a whole request has read distinct well-formed fields up to a blank line |
| HttpGrammar.BodyUnparses | src/tcp/HttpParser.cpp:93-167 | a whole request has no Transfer-Encoding in any letter forms, and its body is exactly as long as Content-Length, in any letter forms, says |
| HttpGrammar.PrintThenParse | src/tcp/HttpParser.cpp:70-194 | every well-formed request, printed and followed by any bytes, parses to itself and leaves those bytes |
| HttpGrammar.HeaderLookup | src/tcp/HttpParser.cpp:196-200 | a header of an accepted request is found under exactly the names equal to its own up to letter forms, and other names find nothing |
| HttpGrammar.ParseThenPrint | src/tcp/HttpParser.cpp:70-169 | whatever is accepted is a printed well-formed request and the bytes left over |
| HttpGrammar.AcceptsExactlyTheGrammar | src/tcp/HttpParser.cpp:70-169 | the parser reaches a whole request leaving `rest` if and only if the input is a well-formed request, in any letter forms, followed by `rest` |
| HttpGrammar.PrintIsUnambiguous | src/tcp/HttpParser.cpp:96-112 | one text is never two requests with different boundaries or content |
| HttpGrammar.NamesLowerAlike | src/tcp/HttpParser.cpp:35-40 | two names are lowered to the same if and only if they are equal up to the two forms of each of the 26 letters |
| HttpGrammar.FramingNamesAreLowered | src/tcp/HttpParser.cpp:97-102 | the names the parser looks for are their own lowering |
| HttpGrammar.LoweredAlike | src/tcp/HttpParser.cpp:130-153 | so distinct names and framing, which the grammar states over letter forms, are what the parser decides on its lowered names |
| HttpHeads.SpellingsFrameTheBody | src/tcp/HttpParser.cpp:93-167 | after any good head: any spelling of Transfer-Encoding fails, any spelling of Content-Length takes just that many body bytes or waits for them, and with neither the body is empty |
| HttpHeads.BadLineFailsAtOnce | src/tcp/HttpParser.cpp:74-157 | after any complete lines, while the next is incomplete: the parser has failed if and only if the first is no printed request line or the others are not printed fields with distinct names, and otherwise waits holding the incomplete line |
| HttpHeads.HeadDecides | src/tcp/HttpParser.cpp:74-157 | after the blank line: it has failed if and only if one of these or the framing is bad, and otherwise has the request or waits for its body |
| HttpHeads.LengthsExactly | src/tcp/HttpParser.cpp:42-56 | the values read as a length are exactly the numbers below 2^64 printed in decimal, behind any zeros, each with that number |
| HttpHeads.RequestLinesSpelledOut | src/tcp/HttpParser.cpp:171-194 | the request lines of the grammar: a token, a target without control or space, and one of two versions |
| HttpHeads.FieldsSpelledOut | src/tcp/HttpParser.cpp:116-149 | its header lines: a token, and between blanks a value that neither begins nor ends with one and has no control but tab |
| HttpStream.DrainResumes | main.cpp:142-152 | the pipelining loop, interrupted anywhere and resumed, extracts what it would have in one go |
| HttpStream.ChunkingInvariance | main.cpp:132-153 | after any chunks: same requests extracted, parser state, left-over bytes and malformedness as after one chunk with the whole stream |
| HttpStream.CutsAgree | main.cpp:132-153 | two ways of cutting one stream end in the same session |
| HttpStream.PipelineDelivers | main.cpp:142-152 | well-formed requests sent back to back, cut anywhere, are all extracted in order and leave the parser fresh |
| HttpStream.ExtractedWereSent | main.cpp:142-152 | every stream is the printed extracted requests followed by what the parser still holds |
| HttpStream.DrainSettles | main.cpp:142-152 | between callbacks the parser never rests on a whole request, and a failed one stays failed |
| HttpStream.ServedIsExtracted | main.cpp:155-161 | for one way of cutting: all that was extracted is served if and only if no callback that extracted something also met a malformed request |
| HttpStream.ServingIsCutIndependent | main.cpp:132-161 | what is served is the same for all ways of cutting a stream if and only if the stream is not malformed, or is so before its first whole request |
| HttpStream.ServingIsCutIndependentWhenSent | main.cpp:132-161 | the same if and only if, for a client: the stream is not one or more well-formed requests followed by something malformed |
| HttpStream.CutAfterFirst | main.cpp:155-161 | every other stream is served differently uncut and cut after its first request |
| HttpStream.RejectsExactlyMalformed | main.cpp:155-158 | a callback answers 400 and shuts down exactly when the stream so far is malformed, however it was cut |
| HttpStream.ServingDependsOnCuts | main.cpp:155-161 | one stream and two cuts of it that serve different requests |
| HttpParsing.CheckToken | src/tcp/HttpParser.cpp:123-129 | true exactly when every character is a token character |
| HttpParsing.CheckTarget | src/tcp/HttpParser.cpp:182-185 | true exactly when no control, space or DEL occurs |
| HttpParsing.CheckValue | src/tcp/HttpParser.cpp:141-147 | true exactly when no control but tab, and no DEL, occurs |
| HttpParsing.TrimBlanks | src/tcp/HttpParser.cpp:132-149 | the two pointer loops compute the trimmed value |
| HttpParsing.DigitsGrow | src/tcp/HttpParser.cpp:48-52 | an overflow met early in a digit string is an overflow of all of it |
| HttpParsing.FromChars | src/tcp/HttpParser.cpp:48-52 | reads the numeric value, and fails exactly when it is 2^64 or more |
| HttpParsing.ParseContentLength | src/tcp/HttpParser.cpp:42-56 | accepts exactly non-empty digit strings below 2^64, and gives their value |
| HttpParsing.HttpParser.Reset | src/tcp/HttpParser.cpp:60-68 | the parser is as new |
| HttpParsing.HttpParser.Header | src/tcp/HttpParser.cpp:196-200 | looks up the lowered name, which `HttpGrammar.NamesLowerAlike` says is any spelling of it |
| HttpParsing.HttpParser.ProcessRequestLine | src/tcp/HttpParser.cpp:171-194 | stores the three parts of a good line; a bad one changes nothing |
| HttpParsing.HttpParser.ProcessHeaderLine | src/tcp/HttpParser.cpp:116-153 | stores a good line whose name is new; a bad or duplicate one changes nothing |
| HttpParsing.HttpParser.ProcessEndOfHeaders | src/tcp/HttpParser.cpp:93-113 | decides framing as the model says |
| HttpParsing.HttpParser.ParseRequest | src/tcp/HttpParser.cpp:70-169 | parser and buffer end exactly where the model's run does; false exactly on failure or a null buffer |
| HttpServer.HttpConnection.ExtractRequests | main.cpp:142-152 | the loop over the real buffer and parser extracts what the model's does |
| HttpServer.HttpConnection.OnMessage | main.cpp:132-161 | one read and one callback move the session as the model says; it serves all it extracted, or nothing and rejects, which is the 400 reply and the shutdown |
| TimerModel.Insert | src/net/TimerQueue.cpp:113 | keeps order, adds exactly one entry, and the first entry is the smaller |
| TimerModel.Erase | src/net/TimerQueue.cpp:131-133 | keeps order, and removes that entry and no other |
| TimerModel.DueCount | src/net/TimerQueue.cpp:151-155 | cuts the sorted entries exactly at the clock |
| TimerModel.SecondsToMicrosecondsRange | src/net/TimerQueue.cpp:42-49 | the conversion is monotone, saturates, and gives 0 exactly for times that are not positive |
| TimerModel.SecondsToMicrosecondsIsExact | src/net/TimerQueue.cpp:42-49 | below saturation the result is the whole number of microseconds in the time given |
| TimerModel.SecondsToMicrosecondsSaturate | src/net/TimerQueue.cpp:42-49 | too long a time becomes the largest, and a time above zero and below a microsecond becomes one |
| TimerModel.DeadlineWaits | src/net/TimerQueue.cpp:107-109 | a deadline is reached exactly when the whole delay has passed, or the clock is at its limit |
| TimerProofs.AddAgrees | src/net/TimerQueue.cpp:103-117 | adding keeps the two indexes in agreement, also while a batch is pending |
| TimerProofs.CancelAgrees | src/net/TimerQueue.cpp:124-143 | so does canceling any timer, scheduled, pending or unknown |
| TimerProofs.TakeExpiredAgrees | src/net/TimerQueue.cpp:149-156 | so does moving the due entries to a batch |
| TimerProofs.RearmAgrees | src/net/TimerQueue.cpp:162-175 | so does filing one of the batch again or dropping it |
| TimerProofs.FirstTimerWatched | src/net/TimerQueue.cpp:111-116 | adding to a queue that is watched, empty or not, leaves it watched if and only if the new timer expires at a positive time |
| TimerProofs.AddStaysExact | src/net/TimerQueue.cpp:111-116 | adding keeps a positive first expiration watched and any other disarmed, whatever the clock shows |
| TimerProofs.CancelStaysExact | src/net/TimerQueue.cpp:130-142 | so does canceling |
| TimerProofs.KernelWatchesExactly | src/net/TimerQueue.cpp:103-192 | over every run from any clock: between reads the kernel timer watches the smallest expiration if and only if it is positive |
| TimerProofs.ZeroClockForgets | src/net/TimerQueue.cpp:31-36 | the failing input: at clock 0 a timer without delay is filed and the kernel timer stays disarmed |
| TimerProofs.IndexesAlwaysAgree | src/net/TimerQueue.cpp:103-178 | over every run with re-entrant callbacks: active timers are those filed under their own expiration plus uncanceled batch members, disjointly |
| TimerProofs.KernelAlwaysWatches | src/net/TimerQueue.cpp:103-192 | over every run from a positive clock: between reads the kernel timer is armed at, or has fired for, exactly the smallest expiration |
| TimerRefinement.BatchIsDueInOrder | src/net/TimerQueue.cpp:149-156 | a batch is exactly the timers due, once each, by expiration |
| TimerRefinement.NextRefines | src/net/TimerQueue.cpp:91-178 | every step of the queue is a step of a plain table of timers, with the same calls at the same times |
| TimerRefinement.RunRefines | src/net/TimerQueue.cpp:91-178 | so is every step of every run |
| TimerRefinement.CanceledNeverFires | src/net/TimerQueue.cpp:124-160 | a canceled timer is never called again, even from a batch it is in |
| TimerRefinement.CancelIsFinal | src/net/TimerQueue.cpp:124-130 | canceling a timer that is found means no later call of it, whatever happens next |
| TimerRefinement.TimersAreAsAsked | src/net/TimerQueue.cpp:91-117 | over every run: the timers made are those asked for, each with the delay, interval and time it was asked for with |
| TimerRefinement.CallsAreOnTime | src/net/TimerQueue.cpp:103-178 | over every run, in terms of what was asked for: no call before the time of asking plus delay, calls of one timer at least its interval apart and only if it repeats, a one-shot called at most once |
| TimerRead.ScriptEffect | src/net/TimerQueue.cpp:158-160 | a callback cancels exactly the batch members it names, and calls nothing itself |
| TimerRead.CallTurnsEffect | src/net/TimerQueue.cpp:158-160 | after any part of the batch: exactly those not canceled by an earlier callback have been called |
| TimerRead.ReadCallsExactly | src/net/TimerQueue.cpp:145-178 | one read calls exactly the due timers that no earlier callback of the batch canceled, in order, once each, and none added meanwhile |
| TimerRead.ReadRefiles | src/net/TimerQueue.cpp:162-175 | after a whole read, a timer of its batch is filed again one interval after a clock reading of this read if it repeats and is not canceled, and is gone otherwise |
| TimerQueues.TimerQueue.constructor | src/net/TimerQueue.cpp:78-83 | empty, and the start of a model run |
| TimerQueues.TimerQueue.AddTimer | src/net/TimerQueue.cpp:91-101 | on the loop thread: id 0 and no change exactly on bad arguments; otherwise a new id, and under it in both indexes a timer that repeats exactly for a positive interval, has that interval, and expires that delay after now |
| TimerQueues.TimerQueue.AddTimerElsewhere | src/net/TimerQueue.cpp:91-101 | on another thread: the same ids, and a timer that is not yet filed |
| TimerQueues.TimerQueue.RunAddTask | src/net/TimerQueue.cpp:98-99 | its task, whenever it runs, files the timer by the clock of that moment |
| TimerQueues.TimerQueue.AddTimerInLoop | src/net/TimerQueue.cpp:103-117 | timer object, ordered set, id map and kernel timer change as the model's add |
| TimerQueues.TimerQueue.CancelInLoop | src/net/TimerQueue.cpp:124-143 | flag, both indexes and kernel timer change as the model's cancel |
| TimerQueues.TimerQueue.CollectExpired | src/net/TimerQueue.cpp:150-155 | the vector holds the objects of exactly the due entries |
| TimerQueues.TimerQueue.CallOne | src/net/TimerQueue.cpp:158-160 | an uncanceled timer's callback re-enters this object; a canceled one is skipped |
| TimerQueues.TimerQueue.RearmOne | src/net/TimerQueue.cpp:162-175 | a repeating timer is filed again from a new clock reading, a one-shot is forgotten |
| TimerQueues.TimerQueue.HandleRead | src/net/TimerQueue.cpp:145-178 | the whole of it is the run of actions that `TimerRead.ReadCallsExactly` is about |
| TimerQueues.TimerQueue.ResetTimerfd | src/net/TimerQueue.cpp:180-192 | arms at a positive expiration and disarms otherwise |
| TcpProofs.NextConserves | src/tcp/TcpConnection.cpp:98-233 | no step loses, repeats or reorders an accepted byte |
| TcpProofs.OutputIsConserved | src/tcp/TcpConnection.cpp:109-233 | over every run with partial writes and errors: the wire followed by the output buffer is the messages of the calls heard, whole and in order |
| TcpProofs.AcceptedAreHeard | src/tcp/TcpConnection.cpp:178-233 | over every run: the accepted bytes are the messages of the calls heard; `send` is heard while connected, its task while open, and neither when the peer is found gone |
| TcpProofs.UnsentIsWatched | src/tcp/TcpConnection.cpp:219-263 | over every run: an open connection with queued bytes or a pending file has write interest |
| TcpProofs.WatermarksAlternate | src/tcp/TcpConnection.cpp:120-127 | over every run: not above means below high, above means over low; the crossings alternate, high first, and what is queued is every crossing that has a callback |
| TcpProofs.OneCallbackAlone | src/tcp/TcpConnection.cpp:221-228 | over every run: a callback set alone hears of every second crossing, those of its own mark |
| WatermarkDelivery.DeliveredWatermarksAlternate | src/net/EventLoop.cpp:89-98 | over every run of the connection and interleaving of its loop: the callbacks that have run are the first ones queued, and alternate when both are set |
| TcpProofs.LifecycleIsOrderly | src/tcp/TcpConnection.cpp:63-322 | over every run: one up notification once established, one down notification once disconnected |
| TcpProofs.OnlyWhenDrained | src/tcp/TcpConnection.cpp:132-175 | at every step of every run: half-close before disconnection only with nothing left to send, write-complete only when the wire equals every message heard, file bytes only over an empty buffer |
| TcpProofs.ShutdownIsHonoured | src/tcp/TcpConnection.cpp:156-174 | over every run: a connection being shut down that has stopped writing has been half-closed, unless it is being forced closed or the shutdown task has yet to run |
| TcpDraining.OutputDrains | src/tcp/TcpConnection.cpp:98-176 | from any reachable open connection with something to send: as many writable events as bytes are left, each taking at least one, send every message heard, switch write interest off and half-close if shutting down |
| TcpDraining.SilentAfterHalfClose | src/tcp/TcpConnection.cpp:299-312 | over every run: no byte leaves after a half-close unless a call with bytes to send is heard after it |
| TcpDraining.LateExactly | src/tcp/TcpConnection.cpp:178-263 | from any such run: the next call can put a byte behind the half-close, for some results of the kernel, if and only if it has bytes to send, comes after the half-close and is heard |
| TcpDraining.OnlyTasksSpeakLate | src/tcp/TcpConnection.cpp:178-198 | while shutting down only a `send` or `sendFile` already handed over as a task is heard |
| TcpEvents.EventsExactly | src/tcp/TcpConnection.cpp:98-342 | what any step makes happen: a write-complete task exactly when a message goes out whole at once or write interest goes off; a half-close, a close callback, a forced-close task and a crossing exactly when each is due |
| TcpEvents.ReadsWhileOpen | src/tcp/TcpConnection.cpp:63-74 | over every run: the connection is watched for input exactly while it is open, and for room to write only then |
| TcpEvents.LifeDecidesState | src/tcp/TcpConnection.cpp:63-342 | over every run: what was called and what happened since a connection was established decide its state: down once closed, else disconnecting once shut down or forced, else connected |
| TcpEvents.FileIsConserved | src/tcp/TcpConnection.cpp:235-263 | over every run: the file is the last one handed over, and its offset counts the bytes of it that have left |
| TcpEvents.FileIsFinished | src/tcp/TcpConnection.cpp:133-276 | a file is given up exactly when a writable event with the buffer empty sends the last of it or `sendfile` fails, or the open connection is closed |
| TcpConnections.TcpConnection.SendInLoop | src/tcp/TcpConnection.cpp:190-233 | writes, buffers, marks and enables as the model says, for every result of `write`; that the whole message is kept is `TcpProofs.OutputIsConserved` |
| TcpConnections.TcpConnection.Send | src/tcp/TcpConnection.cpp:178-188 | only while connected; at once on the loop thread, as a task with the message on any other |
| TcpConnections.TcpConnection.SendFile | src/tcp/TcpConnection.cpp:235-245 | only while connected; at once on the loop thread, as a task on any other |
| TcpConnections.TcpConnection.SendFileInLoop | src/tcp/TcpConnection.cpp:247-263 | the file replaces any earlier one and write interest is on |
| TcpConnections.TcpConnection.HandleWrite | src/tcp/TcpConnection.cpp:98-176 | buffer, watermark, file and completion as the model says, for every result of `write` and `sendfile` |
| TcpConnections.TcpConnection.ConnectEstablished | src/tcp/TcpConnection.cpp:63-74 | connected, reading, one up notification |
| TcpConnections.TcpConnection.Shutdown | src/tcp/TcpConnection.cpp:299-305 | only while connected; half-closes at once if nothing is being written, and leaves that to a task when called on another thread |
| TcpConnections.TcpConnection.ShutdownInLoop | src/tcp/TcpConnection.cpp:307-312 | half-closes unless there is still something to write |
| TcpConnections.TcpConnection.HandleClose | src/tcp/TcpConnection.cpp:266-288 | disconnected, file closed, all interest off, down then close callback; nothing when already disconnected |
| TcpConnections.TcpConnection.ForceClose | src/tcp/TcpConnection.cpp:324-332 | disconnecting, and one task queued |
| TcpConnections.TcpConnection.ForceCloseInLoop | src/tcp/TcpConnection.cpp:334-342 | closes an open connection |
| TcpConnections.TcpConnection.ConnectDestroyed | src/tcp/TcpConnection.cpp:314-322 | a connection still open goes down first |
| EventLoopModel.NextKeeps | src/net/EventLoop.cpp:49-141 | every step of any thread keeps the queue and wakeup invariant |
| EventLoopModel.NoLostWakeup | src/net/EventLoop.cpp:89-116 | under every interleaving: at poll with tasks pending, the eventfd is readable or a thread still owes its write |
| EventLoopModel.PushedAreEnqueued | src/net/EventLoop.cpp:89-93 | under every interleaving: what was pushed is the task of every call, from the loop's thread or another, in run order |
| EventLoopModel.MarksAreMoments | src/net/EventLoop.cpp:55-138 | the recorded marks are the moments of the last swap and the last return of poll |
| EventLoopModel.EventfdCountsWrites | src/net/EventLoop.cpp:100-116 | under every interleaving: the eventfd holds the number of wakeups written since it was last read, up to its limit |
| EventLoopModel.TasksRunInOrder | src/net/EventLoop.cpp:89-141 | under every interleaving: run, then swapped-out, then pending tasks are the tasks of all calls of `queueInLoop` in lock order, once each |
| EventLoopModel.BatchExcludesNewTasks | src/net/EventLoop.cpp:122-138 | what has run and the batch are exactly the tasks of the calls before the last swap |
| EventLoopModel.IterationCatchesUp | src/net/EventLoop.cpp:55-67 | back at poll, the task of every call before poll last returned has run |
| EventLoopModel.PendingTasksGetRun | src/net/EventLoop.cpp:55-141 | pending tasks that nobody owes a wakeup for do wake the loop, and one undisturbed turn then has run the tasks of all calls, in order |
| EventLoopOutside.WakeupsExactly | src/net/EventLoop.cpp:89-98 | over every run, with pushes by the loop thread at poll anywhere: at poll with tasks pending a wakeup is always coming, if and only if no such push is made while none is coming |
| EventLoopOutside.OnlyQuietTasksWait | src/net/EventLoop.cpp:89-98 | and when it is not, over every run: a loop at poll that nothing will wake holds only tasks pushed that way, and the calls' order is kept |
| EventLoopOutside.PlayedAreEnqueued | src/net/EventLoop.cpp:89-93 | over every such run: what was pushed is the task of every call, also of those the loop's thread makes at poll, in order |
| EventLoopOutside.QuietTaskWaits | src/net/EventLoop.cpp:95-97 | the failing input: such a task on a new loop is pending and nothing will wake the loop |
| EventLoopOutside.QuietTasksRunAtNextWakeup | src/net/EventLoop.cpp:55-67 | over every run: the next wakeup, for whatever reason, runs all that waits, in order |
| EventLoops.EventLoop.PushFrom | src/net/EventLoop.cpp:89-93 | the locked half of enqueueing from another thread: the task is last in the queue, and the thread owes a wakeup |
| EventLoops.EventLoop.WakeFrom | src/net/EventLoop.cpp:95-116 | and its wakeup |
| EventLoops.EventLoop.QueueInLoop | src/net/EventLoop.cpp:89-98 | on the loop thread: the task is last in the queue, and it wakes only while functors are being called |
| EventLoops.EventLoop.HandleRead | src/net/EventLoop.cpp:100-107 | the eventfd is read to zero |
| EventLoops.EventLoop.DoPendingFunctors | src/net/EventLoop.cpp:122-141 | calls what was pending at the swap, in order, and leaves what is enqueued meanwhile |
| EventLoops.EventLoop.Turn | src/net/EventLoop.cpp:55-67 | one turn, disturbed anywhere, calls everything pending when it began and is a run of the model |
| EventLoops.EventLoop.Loop | src/net/EventLoop.cpp:49-71 | forgets an earlier `quit`, turns until one is seen, and is a run of the model |
| LogModel.AppendKeeps | src/base/AsyncLogging.cpp:38-53 | appending keeps conservation and safe recycling |
| LogModel.SwapKeeps | src/base/AsyncLogging.cpp:72-83 | so does the writer's critical section |
| LogModel.NextKeeps | src/base/AsyncLogging.cpp:38-111 | so does every step of either thread |
| LogModel.LogIsConserved | src/base/AsyncLogging.cpp:38-111 | under every interleaving: file, unwritten batch, full buffers and current buffer are all accepted bytes in lock order |
| LogModel.RecyclingIsSafe | src/base/AsyncLogging.cpp:67-105 | no loop-top assertion fails: both fresh buffers are there and empty; the batch has a buffer for each pop; a null next buffer means a full one waits |
| LogModel.AcceptedAreMessages | src/base/AsyncLogging.cpp:38-53 | the accepted bytes are the messages shorter than 4,000,000 bytes in the order of their calls |
| LogModel.FileIsPrefix | src/base/AsyncLogging.cpp:85-90 | the file is always a prefix of those messages |
| LogModel.WriterCatchesUp | src/base/AsyncLogging.cpp:67-111 | over every run: the file and the rest of the batch are all messages before the last swap; outside its writing loop the file alone is |
| LogModel.RunsUntilStopped | src/base/AsyncLogging.cpp:25-36 | over every run: the flag is set exactly since the start until a stop, and the writer has left its loop only after one |
| AsyncLogs.FixedBuffer.Append | src/base/LogStream.h:27-32 | appends a message that leaves room to spare, and drops any other |
| AsyncLogs.FixedBuffer.Reset | src/base/LogStream.h:48-50 | empty again |
| AsyncLogs.AsyncLogging.constructor | src/base/AsyncLogging.cpp:13-23 | two empty buffers with different owners |
| AsyncLogs.AsyncLogging.Append | src/base/AsyncLogging.cpp:38-53 | on real buffers, each with one owner: the model's append |
| AsyncLogs.AsyncLogging.Start | src/base/AsyncLogging.cpp:25-28 | running, and the thread is about to begin |
| AsyncLogs.AsyncLogging.BeginThread | src/base/AsyncLogging.cpp:55-65 | two fresh empty buffers for the writer |
| AsyncLogs.AsyncLogging.EnterLoop | src/base/AsyncLogging.cpp:67-83 | the assertions hold; the swap happens now unless nothing is full |
| AsyncLogs.AsyncLogging.SwapBuffers | src/base/AsyncLogging.cpp:77-82 | ownership of the current, full, next and fresh buffers rotates and no buffer gets two owners |
| AsyncLogs.AsyncLogging.EndWait | src/base/AsyncLogging.cpp:74-82 | after notification or timeout the swap happens, full buffers or not |
| AsyncLogs.AsyncLogging.WriteOne | src/base/AsyncLogging.cpp:86-89 | one buffer of the batch goes to the end of the file |
| AsyncLogs.AsyncLogging.FinishWriting | src/base/AsyncLogging.cpp:92-106 | both pops succeed; the reused buffers are empty and have one owner |
| AsyncLogs.AsyncLogging.Stop | src/base/AsyncLogging.cpp:30-36 | the flag is cleared; the writer sees it at its loop condition |
| ServerProofs.EstablishedOk | src/tcp/TcpConnection.cpp:63-74 | establishing touches one connection and puts it in its up state |
| ServerProofs.CloseOnBase | src/tcp/TcpServer.cpp:101-109 | closing on the base loop erases inside `handleClose` and leaves one destroying task |
| ServerProofs.CloseElsewhere | src/tcp/TcpServer.cpp:101-109 | closing on another loop leaves one erasing task on the base loop |
| ServerProofs.NextKeeps | src/tcp/TcpServer.cpp:74-112 | every step of either loop keeps each connection's place, state and one onward task in agreement |
| ServerProofs.LivesInOrder | src/tcp/TcpServer.cpp:74-112 | over every run and choice of loops: established first, one up, at most one down, erased before destroyed, destroyed at most once and never inside `handleClose` |
| ServerProofs.ClosingIsNeverStuck | src/tcp/TcpServer.cpp:101-109 | over every run: a closed connection not yet destroyed has exactly one queued task that takes it further |
| ServerForcing.ForcedClosesAreConserved | src/tcp/TcpConnection.cpp:324-342 | over every run: each `forceClose` that found its connection open has its one task queued on the connection's loop or run, a connection it has run for is down, and one it is queued for is disconnecting or down |
| CloseDelivery.QueuesAreFifo | src/net/EventLoop.cpp:89-98 | over every run of the server: tasks run and tasks queued on a loop are the tasks ever queued there, in order |
| CloseDelivery.LoopsRunTheHandOff | src/net/EventLoop.cpp:89-141 | for every interleaving of an event loop that gets the server's tasks among others: it has run exactly the server's, still holds exactly the server's queue, and its next such task is the server's next step |
| ServerRefinement.OnlyLifecycleMatters | src/tcp/TcpConnection.cpp:63-342 | over every run of a connection: state and up and down notifications depend on its lifecycle calls alone, not on what is sent or written between them |
| ServerRefinement.ServerLifeIsTcpLife | src/tcp/TcpServer.cpp:74-112 | every run of the server, and every run of a connection with the lifecycle the server gave it, end with that connection in the same state, reported up and down equally often |
| TcpServers.TcpServer.NewConnection | src/tcp/TcpServer.cpp:74-112 | a connection object enters the map and is established now or by a task on its loop |
| TcpServers.TcpServer.HandleClose | src/tcp/TcpConnection.cpp:266-288 | down, then the close callback's hop; nothing when already down |
| TcpServers.TcpServer.Shutdown | src/tcp/TcpConnection.cpp:299-302 | a connected connection starts disconnecting |
| TcpServers.TcpServer.RunErase | src/tcp/TcpServer.cpp:102-108 | erased from the map, and handed to the connection's loop for destruction |
| TcpServers.TcpServer.ConnectDestroyed | src/tcp/TcpConnection.cpp:314-322 | unregistered, going down first if it is still open |
| TcpServers.TcpServer.ForceClose | src/tcp/TcpConnection.cpp:324-332 | an open connection is disconnecting and has one more closing task at the end of its loop's queue; any other is left alone |
| TcpServers.TcpServer.RunNext | src/net/EventLoop.cpp:136-138 | a loop runs the first task of its queue as the model says |
| IdleProofs.CallIsDue | src/net/TimerQueue.cpp:158-160 | a timer that is called was waiting for it, is due, and waits no longer |
| IdleProofs.RefreshGood | main.cpp:192-204 | replacing the idle timer restores what every callback relies on |
| IdleProofs.IdleTimeoutGood | main.cpp:206-219 | so does an idle shutdown |
| IdleProofs.ForceCloseGood | main.cpp:221-235 | so does a forced close |
| IdleProofs.DownGood | main.cpp:106-119 | so does a connection going down |
| IdleProofs.OneIdleTimer | main.cpp:97-120 | over every run: at most one idle timer per connection will still be called, and exactly one while it is connected |
| IdleProofs.NoTimerOutlivesItsConnection | main.cpp:106-119 | over every run: no timer of a connection that is down will be called |
| IdleProofs.NeverHurried | main.cpp:192-235 | over every run: an idle shutdown comes 15 seconds or more after everything heard of the connection, at most once; a forced close 15 seconds or more after such a shutdown |
| IdleForcing.GoingOffExactly | main.cpp:206-235 | over every run: a force-close timer that goes off finds its connection shut down and not yet down, and notes one forced close; an idle timer that goes off notes one shutdown of a connected connection and sets its force-close timer, due in 15 seconds |
| IdleForcing.EventsAreTheHistory | main.cpp:97-235 | over every run: nothing is noted but one event for each connection that comes up, each message, each idle shutdown and each forced close, in order |
| IdleForcing.TimersExactly | main.cpp:192-235 | over every run: a timer waits on as it was set until it is called, replaced for a message or its connection goes down, if and only if; and a timer is set exactly when a connection comes up, is heard of while connected, or is shut down for idleness |
| IdleForcing.StatesAreWhatHappened | main.cpp:97-235 | over every run: a connection is connected if and only if it came up, nobody shut it down, for idleness or else, and it did not go down |
| IdleForcing.IdleConnectionsAreClosing | main.cpp:206-235 | over every run: a connection shut down for idleness is down, has been forced closed, or has its force-close timer waiting |
| IdleForcing.ReadCallsTheDue | src/net/TimerQueue.cpp:145-178 | one read leaves no timer of the server waiting that is due by then |
| IdleForcing.SilentConnectionsAreShut | main.cpp:192-219 | over every run: a connection without a message for 15 seconds is no longer connected after a read of the timers then or later; by the idle timer, unless others shut it down or it went down |
| IdleForcing.ShutConnectionsAreForced | main.cpp:206-235 | over every run: a connection shut down for idleness that is not down 15 seconds later has been forced closed after a read of the timers then or later |
| WebChatServers.WebChatServer.RefreshIdleTimer | main.cpp:192-204 | over the real timer queue: the old idle timer is canceled and a new one added |
| WebChatServers.WebChatServer.ConnectionUp | main.cpp:102-129 | entered into all three tables, with a parser if it has none, and the first idle timer is set |
| WebChatServers.WebChatServer.ConnectionDown | main.cpp:106-129 | gone from all three tables and both timers are canceled |
| WebChatServers.WebChatServer.OnMessage | main.cpp:132-133 | a message while connected replaces the idle timer |
| WebChatServers.WebChatServer.HandleIdleTimeout | main.cpp:206-219 | shuts down only while connected, and sets the force-close timer |
| WebChatServers.WebChatServer.HandleForceCloseTimeout | main.cpp:221-235 | clears the timer and forces closed a connection that is not down, as `IdleForcing.ShutConnectionsAreForced` needs |
| WebChatServers.WebChatServer.Fire | src/net/TimerQueue.cpp:158-160 | the real queue calls or skips the next timer of its batch, and the callback runs on this server |
| WebChatServers.WebChatServer.HandleRead | src/net/TimerQueue.cpp:145-178 | a whole read of the real queue is a run of the policy's moves, so the policy's theorems hold of it |

## Left out

- TimerQueues.TimerQueue.AddTimer: `isfinite` has no counterpart over `real`, and ids do not wrap at 2^64. The task of an add made on another thread may run after a cancel made directly on the loop thread, so cancellation is stated at `cancelInLoop`.
- TimerProofs.KernelAlwaysWatches: assumes a clock that never goes back and `timerfd_settime` that succeeds; `TimerProofs.KernelWatchesExactly` drops the positive clock.
- TimerModel.Insert: timers of equal expiration are ordered by their address in the source; the model has an arbitrary `rank` for it. The set's pointers are ids resolved through a map of objects.
- TcpProofs.OutputIsConserved: a message met by EPIPE or ECONNRESET is dropped by the source and does not count as heard. No order is claimed between `sendFile` and later `send` calls, since queued message bytes go ahead of file bytes and a second file replaces the first.
- TcpProofs.WatermarksAlternate: the marks are fixed before the first send, with low below high.
- TcpProofs.LifecycleIsOrderly: takes each public call as atomic on the loop thread; `shutdown` and `forceClose` test and then set the state in two steps (src/tcp/TcpConnection.cpp:300-301, src/tcp/TcpConnection.cpp:326-327).
- EventLoopModel.NoLostWakeup: the loop thread enqueues only from inside an iteration; `EventLoopOutside.WakeupsExactly` drops that. The eventfd write that `quit` makes from another thread is left out.
- LogModel.LogIsConserved: nothing is claimed to be in the file after `stop`, because the writer leaves its loop without a last pass. The file is an append-only sequence of bytes; rolling and flushing are not part of this model.
- ServerProofs.LivesInOrder: runs without destruction of the server; the choice of io loop is arbitrary. That every loop is a FIFO queue is `CloseDelivery.LoopsRunTheHandOff`. Connection ids do not overflow.
- TcpServers.TcpServer.HandleClose: closing a pending file and dropping the channel's interest are not part of the server's model; `TcpConnections.TcpConnection.HandleClose` has them, and `ServerRefinement.ServerLifeIsTcpLife` relates the two.
- AsyncLogs.AsyncLogging.Stop: the notification is one way for `EndWait` to come, and the join, which waits for the writer to leave its loop, is left out.
- WebChatServers.WebChatServer.HandleRead: timers of the loop that are not the server's are skipped or called without effect on it.
- IdleForcing.ShutConnectionsAreForced: says what reads do, not that one comes; the kernel timer is `TimerProofs.KernelAlwaysWatches`.
- IdleProofs.NeverHurried: one io loop, with the mutex taken as making each callback atomic; timers of other users may be added and canceled freely, but not the policy's own.
- ByteBuffer.Buffer.Append: `size_t` overflow and allocation failure are not modelled; the copy takes the source bytes by value.
- System calls, `Epoll`, `Socket`, `InetAddress`, `Acceptor` and `Thread` are thin wrappers; their results are parameters.
- `TcpConnection::handleRead` is the model's `PeerClosed` and the chat server's `OnMessage`; its error branch only logs.
- `HttpContext` and `HttpRequest` are superseded by `HttpParser`; their loop and header views are not modelled.
- `HttpResponse`, response texts and `broadcast` would add only easy members.
- `Logger` formatting, `LogStream` operators, `Timestamp`, `Any`, `Singleton` and signal handling are plumbing.
- Memory-model effects below the mutex and atomic step, and `shared_ptr` counts.
