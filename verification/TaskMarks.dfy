/** One component's share of the tasks of an event loop: which there are, and that they keep their order. */
module TaskMarks {
  import opened Bytes
  import L = EventLoopModel

  /** What the marked tasks stand for, in order; the others are anybody's. */
  function Marked<T>(tasks: seq<L.Task>, mark: L.Task -> Option<T>): seq<T> {
    if tasks == [] then []
    else
      Marked(tasks[..|tasks| - 1], mark) +
      (match mark(tasks[|tasks| - 1])
       case Some(task) => [task]
       case None => [])
  }

  lemma {:induction false} MarkedJoin<T>(a: seq<L.Task>, b: seq<L.Task>, mark: L.Task -> Option<T>)
    ensures Marked(a + b, mark) == Marked(a, mark) + Marked(b, mark)
    decreases |b|
  {
    if b == [] {
      assert a + b == a;
    } else {
      assert (a + b)[..|a + b| - 1] == a + b[..|b| - 1];
      MarkedJoin(a, b[..|b| - 1], mark);
    }
  }

  lemma MarkedFirst<T>(tasks: seq<L.Task>, mark: L.Task -> Option<T>)
    requires tasks != [] && mark(tasks[0]).Some?
    ensures Marked(tasks, mark) != [] && Marked(tasks, mark)[0] == mark(tasks[0]).value
  {
    assert [tasks[0]][..0] == [];
    assert Marked([tasks[0]], mark) == Marked([], mark) + [mark(tasks[0]).value];
    assert tasks == [tasks[0]] + tasks[1..];
    MarkedJoin([tasks[0]], tasks[1..], mark);
  }

  /** Under every interleaving: what has run, followed by what has not, is all that was enqueued, in lock order. */
  lemma MarkedInOrder<T>(actions: seq<L.Action>, mark: L.Task -> Option<T>)
    ensures var l := L.Execute(L.NEW_LOOP, actions);
            Marked(l.executed, mark) + Marked(L.Batch(l) + l.pending, mark) == Marked(L.Enqueued(actions), mark)
  {
    hide Marked, L.Execute, L.Batch, L.Enqueued;
    var l := L.Execute(L.NEW_LOOP, actions);
    L.TasksRunInOrder(actions);
    assert l.executed + L.Batch(l) + l.pending == l.executed + (L.Batch(l) + l.pending);
    MarkedJoin(l.executed, L.Batch(l) + l.pending, mark);
  }
}
