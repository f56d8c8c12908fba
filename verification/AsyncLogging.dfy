/** `AsyncLogging` and its `FixedBuffer`s as objects; each method is one step of `LogModel`. */
module AsyncLogs {
  import opened Bytes
  import opened LogModel

  // The pointer that owns a buffer; the index is a place in a vector.
  datatype Owner =
    | CurrentBuffer | NextBuffer | FullBuffer(i: nat) | NewBuffer1 | NewBuffer2 | BatchBuffer(i: nat) | Nobody

  class FixedBuffer {
    const data: array<byte>
    var cur: nat
    ghost var owner: Owner

    ghost predicate Valid()
      reads this
    {
      data.Length == LARGE_BUFFER && cur <= data.Length
    }

    ghost function Contents(): bytes
      requires Valid()
      reads this, data
    {
      data[..cur]
    }

    constructor (ghost owner: Owner)
      ensures Valid() && fresh(data) && Contents() == [] && this.owner == owner
    {
      data := new byte[LARGE_BUFFER](_ => '\0');
      cur := 0;
      this.owner := owner;
    }

    function Length(): nat
      reads this
    {
      cur
    }

    function Avail(): int
      reads this
    {
      data.Length - cur
    }

    /** Copies `message` in if it leaves room to spare; drops it otherwise. */
    method Append(message: bytes)
      requires Valid()
      modifies this`cur, data
      ensures Valid() && Contents() == Filled(old(Contents()), message)
    {
      if Avail() > |message| {
        for i := 0 to |message|
          modifies data
          invariant forall j :: 0 <= j < i ==> data[cur + j] == message[j]
          invariant data[..cur] == old(data[..cur])
        {
          data[cur + i] := message[i];
        }
        cur := cur + |message|;
        assert Contents() == data[..old(cur)] + data[old(cur)..cur];
        assert data[old(cur)..cur] == message;
      }
    }

    method Reset()
      requires Valid()
      modifies this`cur
      ensures Valid() && Contents() == []
    {
      cur := 0;
    }
  }

  lemma TopModel(l: Logger)
    requires Inv(l) && (l.pc.Top? || l.pc.Waiting?)
    ensures l.sound && TopAssertions(l)
  {
  }

  lemma WritingModel(l: Logger)
    requires Inv(l) && l.pc.Writing?
    ensures l.sound && l.newBuffer1.None? && 1 <= |l.batch| && (l.newBuffer2.None? ==> 2 <= |l.batch|)
  {
  }

  lemma AppendCases(l: Logger, message: bytes)
    requires Inv(l)
    ensures var l1 := l.(accepted := l.accepted + if |message| < LARGE_BUFFER then message else []);
            LogModel.Append(l, message) ==
            if |l.current| + |message| < LARGE_BUFFER then l1.(current := Filled(l.current, message))
            else l1.(buffers := l.buffers + [l.current], current := Filled([], message), next := None)
    ensures Recyclable(l)
  {
  }

  class AsyncLogging {
    // shared, under the lock
    var currentBuffer: FixedBuffer
    var nextBuffer: FixedBuffer?
    var buffers: seq<FixedBuffer>
    var running: bool
    // the writer's own variables, and the file
    var newBuffer1: FixedBuffer?
    var newBuffer2: FixedBuffer?
    var buffersToWrite: seq<FixedBuffer>
    var written: nat
    var file: bytes
    ghost var model: Logger
    ghost var full: seq<bytes> // what `buffers` holds
    ghost var batch: seq<bytes> // what `buffersToWrite` holds
    ghost var repr: set<FixedBuffer> // every buffer allocated so far
    ghost var arrays: set<array<byte>> // and its array

    /** `b` belongs to `owner` alone and holds `contents`. */
    static ghost predicate Holds(b: FixedBuffer, owner: Owner, contents: bytes)
      reads b, b.data
    {
      b.Valid() && b.owner == owner && b.Contents() == contents
    }

    ghost predicate DistinctArrays()
      reads `repr, `arrays
    {
      && (forall b :: b in repr ==> b.data in arrays)
      && forall a, b :: a in repr && b in repr && a != b ==> a.data != b.data
    }

    ghost predicate SlotOk(b: FixedBuffer?, owner: Owner, contents: Option<bytes>)
      reads `repr, `arrays, repr, arrays
    {
      if b == null then contents.None?
      else b in repr && b.data in arrays && contents.Some? && Holds(b, owner, contents.value)
    }

    ghost predicate FullOk()
      reads `buffers, `repr, `arrays, `full, repr, arrays
    {
      && |buffers| == |full|
      && forall i :: 0 <= i < |buffers| ==>
           buffers[i] in repr && buffers[i].data in arrays && Holds(buffers[i], FullBuffer(i), full[i])
    }

    ghost predicate BatchOk()
      reads `buffersToWrite, `repr, `arrays, `batch, repr, arrays
    {
      && |buffersToWrite| == |batch|
      && forall i :: 0 <= i < |buffersToWrite| ==>
           && buffersToWrite[i] in repr && buffersToWrite[i].data in arrays
           && Holds(buffersToWrite[i], BatchBuffer(i), batch[i])
    }

    /** Each owner's buffer carries that owner's mark, so no buffer has two owners; no two share an array. */
    ghost predicate Valid()
      reads this, repr, arrays
    {
      && DistinctArrays()
      && SlotOk(currentBuffer, CurrentBuffer, Some(model.current))
      && SlotOk(nextBuffer, NextBuffer, model.next)
      && SlotOk(newBuffer1, NewBuffer1, model.newBuffer1)
      && SlotOk(newBuffer2, NewBuffer2, model.newBuffer2)
      && FullOk() && full == model.buffers
      && BatchOk() && batch == model.batch
      && running == model.running && file == model.file
      && (model.pc.Writing? ==> model.pc.done == written)
    }

    constructor ()
      ensures Valid() && model == NEW_LOGGER && fresh(repr) && fresh(arrays)
    {
      currentBuffer := new FixedBuffer(CurrentBuffer);
      nextBuffer := new FixedBuffer(NextBuffer);
      buffers, running, newBuffer1, newBuffer2, buffersToWrite, written, file := [], false, null, null, [], 0, [];
      model, full, batch := NEW_LOGGER, [], [];
      repr, arrays := {}, {};
      new;
      repr, arrays := {currentBuffer, nextBuffer}, {currentBuffer.data, nextBuffer.data};
    }

    // ---- one buffer at a time ----

    /** Fills the current buffer; every other buffer has another owner, so it is another object. */
    method FillCurrent(message: bytes)
      requires Valid()
      modifies currentBuffer`cur, currentBuffer.data, this`model
      ensures Valid() && model == old(model).(current := Filled(old(model.current), message))
    {
      currentBuffer.Append(message);
      model := model.(current := Filled(model.current, message));
    }

    /** The current buffer goes to the back of the full ones; `replacement`, which nobody else owns, takes its place. */
    method Rotate(replacement: FixedBuffer)
      requires Valid()
      requires replacement in repr && replacement.data in arrays && replacement.Valid() && replacement.owner == Nobody
      modifies this`currentBuffer, this`buffers, this`full, this`model, repr`owner
      ensures Valid()
      ensures model == old(model).(buffers := old(model.buffers) + [old(model.current)],
                                   current := old(replacement.Contents()))
    {
      hide DistinctArrays;
      currentBuffer.owner := FullBuffer(|buffers|);
      buffers := buffers + [currentBuffer];
      full := full + [model.current];
      currentBuffer := replacement;
      currentBuffer.owner := CurrentBuffer;
      model := model.(buffers := full, current := replacement.Contents());
    }

    /** A buffer that belongs to nobody yet. */
    method Allocate() returns (b: FixedBuffer)
      requires Valid()
      modifies this`repr, this`arrays
      ensures Valid() && fresh(b) && fresh(b.data) && repr == old(repr) + {b} && arrays == old(arrays) + {b.data}
      ensures b.Valid() && b.owner == Nobody && b.Contents() == []
    {
      b := new FixedBuffer(Nobody);
      Register(b);
    }

    /** A new buffer is one more that an owner may have. */
    ghost method Register(b: FixedBuffer)
      requires Valid() && b !in repr && b.data !in arrays
      modifies this`repr, this`arrays
      ensures Valid() && repr == old(repr) + {b} && arrays == old(arrays) + {b.data}
    {
      hide Holds;
      repr, arrays := repr + {b}, arrays + {b.data};
    }

    /** The next buffer becomes nobody's. */
    method ReleaseNext() returns (b: FixedBuffer)
      requires Valid() && nextBuffer != null
      modifies this`nextBuffer, this`model, repr`owner
      ensures Valid() && model == old(model).(next := None) && currentBuffer == old(currentBuffer)
      ensures b in repr && b.data in arrays && b.Valid() && b.owner == Nobody && Some(b.Contents()) == old(model.next)
    {
      hide DistinctArrays;
      b := nextBuffer;
      b.owner := Nobody;
      nextBuffer := null;
      model := model.(next := None);
    }

    /** Gives up the next buffer if there is one, and allocates otherwise. */
    method TakeNext() returns (b: FixedBuffer)
      requires Valid() && Recyclable(model)
      modifies this`nextBuffer, this`model, this`repr, this`arrays, repr`owner
      ensures Valid() && repr == old(repr) + {b} && (b in old(repr) || fresh(b))
      ensures arrays == old(arrays) + {b.data} && (b.data in old(arrays) || fresh(b.data))
      ensures model == old(model).(next := None) && currentBuffer == old(currentBuffer)
      ensures b.Valid() && b.owner == Nobody && b.Contents() == []
    {
      NextSlot();
      hide Valid;
      if nextBuffer == null {
        b := Allocate();
      } else {
        b := ReleaseNext();
      }
    }

    lemma NextSlot()
      requires Valid()
      ensures nextBuffer == null <==> model.next.None?
    {
    }

    /** The message counts as accepted unless it is too long for any buffer. */
    ghost method Accept(message: bytes)
      requires Valid()
      modifies this`model
      ensures Valid()
      ensures model == old(model).(accepted := old(model.accepted) + if |message| < LARGE_BUFFER then message else [])
    {
      hide FullOk, BatchOk, SlotOk, DistinctArrays;
      model := model.(accepted := model.accepted + if |message| < LARGE_BUFFER then message else []);
    }

    /** The writer moves on. */
    ghost method Reach(pc: Pc)
      requires Valid() && (pc.Writing? ==> pc.done == written)
      modifies this`model
      ensures Valid() && model == old(model).(pc := pc)
    {
      hide FullOk, BatchOk, SlotOk, DistinctArrays;
      model := model.(pc := pc);
    }

    /** The full buffer is put aside and an empty one takes its place. */
    method RotateCurrent()
      requires Valid() && Recyclable(model)
      modifies this`currentBuffer, this`nextBuffer, this`buffers, this`full
      modifies this`repr, this`arrays, this`model, repr`owner
      ensures Valid()
      ensures model == old(model).(next := None, buffers := old(model.buffers) + [old(model.current)], current := [])
      ensures old(repr) <= repr && fresh(repr - old(repr))
      ensures old(arrays) <= arrays && fresh(arrays - old(arrays))
    {
      hide Valid, Recyclable;
      var b := TakeNext();
      Rotate(b);
    }

    /** `append`, which holds the lock throughout. */
    method Append(message: bytes)
      requires Valid() && Inv(model)
      modifies this, repr, arrays
      ensures Valid() && Inv(model) && model == Next(old(model), Produce(message))
      ensures old(repr) <= repr && fresh(repr - old(repr)) && fresh(arrays - old(arrays))
    {
      hide Next, Valid, Inv, LogModel.Append, Filled;
      NextKeeps(model, Produce(message));
      NextProduce(model, message);
      CurrentLength();
      AppendCases(model, message);
      if currentBuffer.Avail() <= |message| {
        RotateCurrent();
      }
      CurrentLength();
      FillCurrent(message);
      Accept(message);
    }

    lemma CurrentLength()
      requires Valid()
      ensures |model.current| == currentBuffer.cur && currentBuffer.data.Length == LARGE_BUFFER
      ensures currentBuffer in repr && currentBuffer.data in arrays
    {
    }

    // ---- the writer ----

    method Start()
      requires Valid() && Inv(model) && model.pc.NotStarted?
      modifies this`running, this`model
      ensures Valid() && Inv(model) && model == Next(old(model), LogModel.Start)
    {
      hide FullOk, BatchOk, SlotOk, DistinctArrays, Inv, Next;
      NextKeeps(model, LogModel.Start);
      NextStart(model);
      running := true;
      model := Next(model, LogModel.Start);
    }

    /** The start of `threadFunc`, before its loop. */
    method BeginThread()
      requires Valid() && Inv(model) && model.pc.Starting?
      modifies this, repr`owner, repr`cur
      ensures Valid() && Inv(model) && model == Next(old(model), LogModel.BeginThread)
      ensures old(repr) <= repr && fresh(repr - old(repr)) && fresh(arrays - old(arrays))
    {
      hide Next, Valid, Inv;
      NextKeeps(model, LogModel.BeginThread);
      NextBegin(model);
      ClearNew();
      NewFirst();
      NewSecond();
      Reach(Top);
    }

    method NewFirst()
      requires Valid() && newBuffer1 == null
      modifies this`newBuffer1, this`repr, this`arrays, this`model
      ensures Valid() && newBuffer2 == old(newBuffer2) && model == old(model).(newBuffer1 := Some([]))
      ensures old(repr) <= repr && fresh(repr - old(repr)) && old(arrays) <= arrays && fresh(arrays - old(arrays))
    {
      hide Valid;
      var b := Allocate();
      RefillFirst(b);
    }

    method NewSecond()
      requires Valid() && newBuffer2 == null
      modifies this`newBuffer2, this`repr, this`arrays, this`model
      ensures Valid() && model == old(model).(newBuffer2 := Some([]))
      ensures old(repr) <= repr && fresh(repr - old(repr)) && old(arrays) <= arrays && fresh(arrays - old(arrays))
    {
      hide Valid;
      var b := Allocate();
      RefillSecond(b);
    }

    method ClearNew()
      requires Valid()
      modifies this`newBuffer1, this`newBuffer2, this`model
      ensures Valid() && newBuffer1 == null && newBuffer2 == null
      ensures model == old(model).(newBuffer1 := None, newBuffer2 := None)
    {
      hide FullOk, BatchOk, DistinctArrays;
      newBuffer1, newBuffer2 := null, null;
      model := model.(newBuffer1 := None, newBuffer2 := None);
    }

    /** The full buffers change owner. */
    ghost method Rebadge()
      requires Valid() && buffersToWrite == []
      modifies repr`owner
      ensures forall i :: 0 <= i < |buffers| ==>
                buffers[i] in repr && buffers[i].data in arrays && Holds(buffers[i], BatchBuffer(i), full[i])
      ensures SlotOk(currentBuffer, CurrentBuffer, Some(model.current)) && SlotOk(nextBuffer, NextBuffer, model.next)
      ensures SlotOk(newBuffer1, NewBuffer1, model.newBuffer1) && SlotOk(newBuffer2, NewBuffer2, model.newBuffer2)
    {
      hide DistinctArrays;
      forall i | 0 <= i < |buffers| {
        buffers[i].owner := BatchBuffer(i);
      }
    }

    /** `buffersToWrite.swap(buffers_)`, when the former is empty. */
    method SwapVectors()
      requires Valid() && buffersToWrite == []
      modifies this`buffers, this`full, this`buffersToWrite, this`batch, this`model, repr`owner
      ensures Valid() && model == old(model).(batch := old(model.buffers), buffers := [])
      ensures currentBuffer == old(currentBuffer)
    {
      hide DistinctArrays, SlotOk, Holds;
      Rebadge();
      buffersToWrite, buffers := buffers, [];
      batch, full := full, [];
      model := model.(batch := batch, buffers := []);
    }

    /** The writer's first fresh buffer becomes nobody's. */
    method TakeNewBuffer1() returns (b: FixedBuffer)
      requires Valid() && newBuffer1 != null
      modifies this`newBuffer1, this`model, repr`owner
      ensures Valid() && model == old(model).(newBuffer1 := None)
      ensures b in repr && b.data in arrays && b.Valid() && b.owner == Nobody
      ensures Some(b.Contents()) == old(model.newBuffer1)
    {
      hide DistinctArrays;
      b := newBuffer1;
      b.owner := Nobody;
      newBuffer1 := null;
      model := model.(newBuffer1 := None);
    }

    /** The next buffer is replenished from the writer's second fresh one. */
    method ReplenishNext()
      requires Valid()
      modifies this`nextBuffer, this`newBuffer2, this`model, repr`owner
      ensures Valid()
      ensures var l := old(model);
              model == if l.next.None? then l.(next := l.newBuffer2, newBuffer2 := None) else l
    {
      if nextBuffer == null {
        MoveSecond();
      }
    }

    /** `nextBuffer_ = std::move(newBuffer2)`. */
    method MoveSecond()
      requires Valid() && nextBuffer == null
      modifies this`nextBuffer, this`newBuffer2, this`model, repr`owner
      ensures Valid() && model == old(model).(next := old(model.newBuffer2), newBuffer2 := None)
    {
      hide DistinctArrays;
      if newBuffer2 != null {
        newBuffer2.owner := NextBuffer;
      }
      nextBuffer, newBuffer2 := newBuffer2, null;
      model := model.(next := model.newBuffer2, newBuffer2 := None);
    }

    /** The critical section of the writer. */
    method SwapBuffers()
      requires Valid() && Inv(model) && (model.pc.Top? || model.pc.Waiting?)
      modifies this, repr`owner
      ensures Valid() && Inv(model) && model == Swap(old(model)) && repr == old(repr)
    {
      hide Valid, Inv;
      SwapKeeps(model);
      TopSlots();
      TopModel(model);
      PushCurrent();
      SwapVectors();
      ReplenishNext();
      StartWriting();
    }

    /** The current buffer joins the full ones, and the writer's first fresh one replaces it. */
    method PushCurrent()
      requires Valid() && newBuffer1 != null
      modifies this`currentBuffer, this`newBuffer1, this`buffers, this`full, this`model, repr`owner
      ensures Valid()
      ensures var l := old(model);
              l.newBuffer1.Some? &&
              model == l.(buffers := l.buffers + [l.current], current := l.newBuffer1.value, newBuffer1 := None)
    {
      hide Valid;
      var b := TakeNewBuffer1();
      Rotate(b);
    }

    method StartWriting()
      requires Valid()
      modifies this`written, this`model
      ensures Valid() && model == old(model).(pc := Writing(0))
    {
      hide FullOk, BatchOk, SlotOk, DistinctArrays;
      written := 0;
      model := model.(pc := Writing(0));
    }

    lemma TopSlots()
      requires Valid() && Inv(model) && (model.pc.Top? || model.pc.Waiting?)
      ensures newBuffer1 != null && newBuffer2 != null && buffersToWrite == []
    {
    }

    /** One turn of the loop: the assertions hold, and the swap happens now unless there is nothing full. */
    method EnterLoop() returns (waits: bool)
      requires Valid() && Inv(model) && model.pc.Top? && running
      modifies this, repr`owner
      ensures Valid() && Inv(model) && model == Next(old(model), LogModel.EnterLoop) && repr == old(repr)
      ensures waits == model.pc.Waiting?
    {
      hide FullOk, BatchOk, SlotOk, DistinctArrays, Inv, Next;
      TopSlots();
      TopLengths();
      assert newBuffer1.Length() == 0 && newBuffer2.Length() == 0 && buffersToWrite == [];
      TopModel(model);
      NextKeeps(model, LogModel.EnterLoop);
      NextEnter(model);
      ghost var l := model;
      if |buffers| == 0 {
        VectorLengths();
        model := Next(l, LogModel.EnterLoop);
        return true;
      }
      VectorLengths();
      SwapBuffers();
      waits := false;
    }

    /** The wait ends, by notification or by time, and the lock is held again. */
    method EndWait()
      requires Valid() && Inv(model) && model.pc.Waiting?
      modifies this, repr`owner
      ensures Valid() && Inv(model) && model == Next(old(model), LogModel.EndWait) && repr == old(repr)
    {
      hide Valid, Inv, Next;
      NextEndWait(model);
      SwapBuffers();
    }

    method Stop()
      requires Valid() && Inv(model)
      modifies this`running, this`model
      ensures Valid() && Inv(model) && model == Next(old(model), LogModel.Stop)
    {
      hide FullOk, BatchOk, SlotOk, DistinctArrays, Inv, Next;
      NextKeeps(model, LogModel.Stop);
      NextStop(model);
      running := false;
      model := Next(model, LogModel.Stop);
    }

    /** The loop condition fails: the writer ends, whatever is still in the buffers. */
    ghost method LeaveLoop()
      requires Valid() && Inv(model) && model.pc.Top? && !running
      modifies this`model
      ensures Valid() && Inv(model) && model == Next(old(model), LogModel.LeaveLoop)
    {
      hide Inv;
      NextKeeps(model, LogModel.LeaveLoop);
      Reach(Exited);
    }

    lemma TopLengths()
      requires Valid() && Inv(model) && model.pc.Top?
      ensures newBuffer1 != null && newBuffer1.cur == 0 && newBuffer2 != null && newBuffer2.cur == 0
    {
      assert |newBuffer1.Contents()| == newBuffer1.cur && |newBuffer2.Contents()| == newBuffer2.cur;
    }

    lemma VectorLengths()
      requires Valid()
      ensures |buffers| == |model.buffers| && |buffersToWrite| == |model.batch|
    {
    }

    /** One buffer of the batch is appended to the file, without the lock. */
    method WriteOne()
      requires Valid() && Inv(model) && Enabled(model, LogModel.WriteOne)
      modifies this`file, this`written, this`model
      ensures Valid() && Inv(model) && model == Next(old(model), LogModel.WriteOne)
    {
      hide Inv, Next, DistinctArrays, SlotOk, FullOk;
      NextKeeps(model, LogModel.WriteOne);
      NextWriteOne(model);
      var buffer := buffersToWrite[written];
      file := file + buffer.data[..buffer.cur];
      written := written + 1;
      model := Next(model, LogModel.WriteOne);
    }

    /** `resize(2)` on a longer vector, then `back` and `pop_back`: the last buffer, and the vector without it. */
    method PopBack() returns (b: FixedBuffer)
      requires Valid() && |buffersToWrite| > 0
      modifies this`buffersToWrite, this`batch, this`model, repr`owner
      ensures Valid() && model == old(model).(batch := old(model.batch)[..|old(model.batch)| - 1])
      ensures b in repr && b.data in arrays && b.Valid() && b.owner == Nobody
    {
      hide DistinctArrays;
      var last := |buffersToWrite| - 1;
      b := buffersToWrite[last];
      b.owner := Nobody;
      buffersToWrite, batch := buffersToWrite[..last], batch[..last];
      model := model.(batch := batch);
    }

    method Shrink(size: nat)
      requires Valid() && size <= |buffersToWrite|
      modifies this`buffersToWrite, this`batch, this`model
      ensures Valid() && model == old(model).(batch := old(model.batch)[..size])
    {
      hide DistinctArrays, SlotOk, FullOk;
      buffersToWrite, batch := buffersToWrite[..size], batch[..size];
      model := model.(batch := batch);
    }

    /** Empties a buffer that belongs to nobody. */
    method Clean(b: FixedBuffer)
      requires Valid() && b in repr && b.data in arrays && b.Valid() && b.owner == Nobody
      modifies b`cur
      ensures Valid() && b.Valid() && b.Contents() == []
    {
      hide DistinctArrays;
      b.Reset();
    }

    method RefillFirst(b: FixedBuffer)
      requires Valid() && newBuffer1 == null && b in repr && b.data in arrays && b.Valid() && b.owner == Nobody
      modifies this`newBuffer1, this`model, b`cur, b`owner
      ensures Valid() && model == old(model).(newBuffer1 := Some([]))
    {
      hide Valid;
      Clean(b);
      GiveFirst(b);
    }

    method GiveFirst(b: FixedBuffer)
      requires Valid() && newBuffer1 == null && b in repr && b.data in arrays && b.Valid() && b.owner == Nobody
      requires b.Contents() == []
      modifies this`newBuffer1, this`model, b`owner
      ensures Valid() && model == old(model).(newBuffer1 := Some([]))
    {
      hide DistinctArrays;
      newBuffer1 := b;
      b.owner := NewBuffer1;
      model := model.(newBuffer1 := Some([]));
    }

    method RefillSecond(b: FixedBuffer)
      requires Valid() && newBuffer2 == null && b in repr && b.data in arrays && b.Valid() && b.owner == Nobody
      modifies this`newBuffer2, this`model, b`cur, b`owner
      ensures Valid() && model == old(model).(newBuffer2 := Some([]))
    {
      hide Valid;
      Clean(b);
      GiveSecond(b);
    }

    method GiveSecond(b: FixedBuffer)
      requires Valid() && newBuffer2 == null && b in repr && b.data in arrays && b.Valid() && b.owner == Nobody
      requires b.Contents() == []
      modifies this`newBuffer2, this`model, b`owner
      ensures Valid() && model == old(model).(newBuffer2 := Some([]))
    {
      hide DistinctArrays;
      newBuffer2 := b;
      b.owner := NewBuffer2;
      model := model.(newBuffer2 := Some([]));
    }

    /** The end of a turn: two buffers of the batch are kept for reuse, the others are dropped. */
    method FinishWriting()
      requires Valid() && Inv(model) && Enabled(model, LogModel.FinishWriting)
      modifies this, repr`owner, repr`cur
      ensures Valid() && Inv(model) && model == Next(old(model), LogModel.FinishWriting) && repr == old(repr)
    {
      hide Valid, Inv, Next;
      NextKeeps(model, LogModel.FinishWriting);
      NextFinish(model);
      WritingModel(model);
      WritingSlots();
      VectorLengths();
      if |buffersToWrite| > 2 {
        Shrink(2);
      }
      VectorLengths();
      RecycleFirst();
      VectorLengths();
      if newBuffer2 == null {
        RecycleSecond();
      }
      Shrink(0);
      Reach(Top);
    }

    method RecycleFirst()
      requires Valid() && newBuffer1 == null && |buffersToWrite| > 0
      modifies this`buffersToWrite, this`batch, this`newBuffer1, this`model, repr`owner, repr`cur
      ensures Valid()
      ensures model == old(model).(batch := old(model.batch)[..|old(model.batch)| - 1], newBuffer1 := Some([]))
    {
      hide Valid;
      var b := PopBack();
      RefillFirst(b);
    }

    method RecycleSecond()
      requires Valid() && newBuffer2 == null && |buffersToWrite| > 0
      modifies this`buffersToWrite, this`batch, this`newBuffer2, this`model, repr`owner, repr`cur
      ensures Valid()
      ensures model == old(model).(batch := old(model.batch)[..|old(model.batch)| - 1], newBuffer2 := Some([]))
    {
      hide Valid;
      var b := PopBack();
      RefillSecond(b);
    }

    lemma WritingSlots()
      requires Valid() && Inv(model) && model.pc.Writing?
      ensures newBuffer1 == null && (newBuffer2 == null <==> model.newBuffer2.None?)
    {
    }
  }
}
