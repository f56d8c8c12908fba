/** Watermark callbacks all the way to their delivery: the connection queues them, the event loop runs them. */
module WatermarkDelivery {
  import opened Bytes
  import opened TaskMarks
  import L = EventLoopModel
  import T = TcpModel
  import P = TcpProofs

  /** The callbacks the loop has run are the first ones the connection queued. */
  lemma DeliveredAreQueued(loopActions: seq<L.Action>, mark: L.Task -> Option<T.Task>, queued: seq<T.Task>)
    requires Marked(L.Enqueued(loopActions), mark) == queued
    ensures Marked(L.Execute(L.NEW_LOOP, loopActions).executed, mark) <= queued
  {
    hide Marked, L.Execute, L.Batch, L.Enqueued;
    MarkedInOrder(loopActions, mark);
  }

  /**
   * Delivery: under every run of the connection and every interleaving of its loop, which takes the connection's
   * callbacks in the order they are queued among any other tasks, the callbacks that have run alternate, high
   * first, when both are set; and in any case they are the first of the crossings that have a callback.
   */
  lemma {:induction false} DeliveredWatermarksAlternate(
      c: T.Conn, actions: seq<T.Action>, loopActions: seq<L.Action>, mark: L.Task -> Option<T.Task>)
    requires T.Start(c)
    requires Marked(L.Enqueued(loopActions), mark) == P.WaterTasks(T.Execute(c, actions).log)
    ensures var r := T.Execute(c, actions);
            var delivered := Marked(L.Execute(L.NEW_LOOP, loopActions).executed, mark);
            && P.Alternates(r.crossings, c.low, c.high)
            && delivered <= P.Reported(r.crossings, c.callbacks)
            && (c.callbacks.lowWater && c.callbacks.highWater ==> P.Alternates(delivered, c.low, c.high))
  {
    hide Marked, P.WaterTasks, P.Reported, T.Execute, L.Execute;
    P.WatermarksAlternate(c, actions);
    DeliveredAreQueued(loopActions, mark, P.WaterTasks(T.Execute(c, actions).log));
  }
}
