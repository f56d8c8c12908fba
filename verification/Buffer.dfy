/** The growable byte buffer: one array, a read index and a write index. */
module ByteBuffer {
  import opened Bytes

  const CHEAP_PREPEND: nat := 8
  const EXTRA_SIZE: nat := 65536

  // What one `readv` returns: an errno, or the bytes the kernel delivers.
  datatype ReadResult = Failed(errno: int) | Delivered(input: bytes)

  class Buffer {
    var data: array<byte>
    var readIndex: nat
    var writeIndex: nat

    ghost predicate Valid()
      reads this
    {
      readIndex <= writeIndex <= data.Length && CHEAP_PREPEND <= data.Length
    }

    /** The readable region. */
    function Readable(): bytes
      requires Valid()
      reads this, data
    {
      data[readIndex..writeIndex]
    }

    function ReadableBytes(): nat
      requires Valid()
      reads this
    {
      writeIndex - readIndex
    }

    function WritableBytes(): nat
      requires Valid()
      reads this
    {
      data.Length - writeIndex
    }

    constructor (initialSize: nat)
      ensures Valid() && fresh(data)
      ensures Readable() == [] && readIndex == CHEAP_PREPEND && WritableBytes() == initialSize
    {
      data := new byte[CHEAP_PREPEND + initialSize](_ => '\0');
      readIndex, writeIndex := CHEAP_PREPEND, CHEAP_PREPEND;
    }

    method RetrieveAll()
      requires Valid()
      modifies this`readIndex, this`writeIndex
      ensures Valid() && Readable() == [] && readIndex == CHEAP_PREPEND
    {
      readIndex, writeIndex := CHEAP_PREPEND, CHEAP_PREPEND;
    }

    /** Drops `len` bytes, or everything when fewer are readable. */
    method Retrieve(len: nat)
      requires Valid()
      modifies this`readIndex, this`writeIndex
      ensures Valid()
      ensures Readable() == if len <= |old(Readable())| then old(Readable())[len..] else []
      ensures if len < |old(Readable())| then readIndex == old(readIndex) + len else readIndex == CHEAP_PREPEND
    {
      if len < ReadableBytes() {
        readIndex := readIndex + len;
      } else {
        RetrieveAll();
      }
    }

    /** Copies `len` bytes from the read position, wherever they end in the array, then drops them. */
    method RetrieveAsString(len: nat) returns (result: bytes)
      requires Valid() && readIndex + len <= data.Length
      modifies this`readIndex, this`writeIndex
      ensures Valid() && |result| == len
      ensures len <= |old(Readable())| ==> result + Readable() == old(Readable())
      ensures len > |old(Readable())| ==> old(Readable()) <= result && Readable() == []
    {
      result := data[readIndex..readIndex + len];
      assert if len <= |Readable()| then result == Readable()[..len] else result[..|Readable()|] == Readable();
      Retrieve(len);
    }

    method RetrieveAllAsString() returns (result: bytes)
      requires Valid()
      modifies this`readIndex, this`writeIndex
      ensures Valid() && result == old(Readable()) && Readable() == []
    {
      result := RetrieveAsString(ReadableBytes());
      assert result == result + Readable();
    }

    /** Makes room for `len` more bytes by growing the array or moving the readable bytes left. */
    method MakeSpace(len: nat)
      requires Valid() && WritableBytes() < len
      modifies this, data
      ensures Valid() && (data == old(data) || fresh(data))
      ensures Readable() == old(Readable()) && len <= WritableBytes()
      ensures if fresh(data) then readIndex == old(readIndex) else CHEAP_PREPEND == readIndex < old(readIndex)
    {
      if WritableBytes() + readIndex < len + CHEAP_PREPEND {
        Resize(writeIndex + len);
      } else {
        var readable := ReadableBytes();
        ghost var was := Readable();
        for i := 0 to readable
          modifies data
          invariant forall j :: 0 <= j < i ==> data[CHEAP_PREPEND + j] == was[j]
          invariant forall j :: i <= j < readable ==> data[readIndex + j] == was[j]
        {
          data[CHEAP_PREPEND + i] := data[readIndex + i];
        }
        readIndex := CHEAP_PREPEND;
        writeIndex := readIndex + readable;
      }
    }

    /** `std::vector::resize` to a larger size: a longer array that starts with the same bytes. */
    method Resize(size: nat)
      requires Valid() && data.Length <= size
      modifies this`data
      ensures Valid() && fresh(data) && data.Length == size
      ensures data[..old(data.Length)] == old(data[..])
    {
      var grown := new byte[size](_ => '\0');
      for i := 0 to data.Length
        modifies grown
        invariant forall j :: 0 <= j < i ==> grown[j] == data[j]
      {
        grown[i] := data[i];
      }
      data := grown;
    }

    method Append(input: bytes)
      requires Valid()
      modifies this, data
      ensures Valid() && (data == old(data) || fresh(data))
      ensures Readable() == old(Readable()) + input
      ensures readIndex == old(readIndex) || CHEAP_PREPEND == readIndex < old(readIndex)
    {
      if WritableBytes() < |input| {
        MakeSpace(|input|);
      }
      CopyIn(writeIndex, input);
      writeIndex := writeIndex + |input|;
    }

    /** `std::copy` of `input` into the array at `at`. */
    method CopyIn(at: nat, input: bytes)
      requires at + |input| <= data.Length
      modifies data
      ensures data[..at] == old(data[..at]) && data[at..at + |input|] == input
      ensures data[at + |input|..] == old(data[at + |input|..])
    {
      for i := 0 to |input|
        invariant forall j :: 0 <= j < i ==> data[at + j] == input[j]
        invariant forall j :: 0 <= j < data.Length && !(at <= j < at + i) ==> data[j] == old(data[j])
      {
        data[at + i] := input[i];
      }
    }

    /** The bytes one `readv` may fill: the tail of the array, and 64 KiB of stack when that tail is shorter. */
    function ReadLimit(): nat
      requires Valid()
      reads this
    {
      WritableBytes() + (if WritableBytes() < EXTRA_SIZE then EXTRA_SIZE else 0)
    }

    /** Scatter read: the kernel fills the array's tail first, and the rest is appended from the stack. */
    method ReadFd(result: ReadResult) returns (n: int, savedErrno: Option<int>)
      requires Valid()
      requires result.Delivered? ==> |result.input| <= ReadLimit()
      modifies this, data
      ensures Valid() && (data == old(data) || fresh(data))
      ensures result.Failed? ==> n == -1 && savedErrno == Some(result.errno) && Readable() == old(Readable())
      ensures result.Delivered? ==> n == |result.input| && savedErrno == None
      ensures result.Delivered? ==> Readable() == old(Readable()) + result.input
    {
      if result.Failed? {
        return -1, Some(result.errno);
      }
      var writable := WritableBytes();
      n, savedErrno := |result.input|, None;
      if n <= writable {
        CopyToTail(result.input);
      } else {
        assert result.input == result.input[..writable] + result.input[writable..];
        CopyToTail(result.input[..writable]);
        Append(result.input[writable..]);
      }
    }

    /** What the kernel does to the array's tail. */
    method CopyToTail(input: bytes)
      requires Valid() && |input| <= WritableBytes()
      modifies this`writeIndex, data
      ensures Valid() && Readable() == old(Readable()) + input
    {
      CopyIn(writeIndex, input);
      assert data[readIndex..writeIndex] == old(data[..writeIndex])[readIndex..];
      writeIndex := writeIndex + |input|;
      assert Readable() == data[readIndex..old(writeIndex)] + data[old(writeIndex)..writeIndex];
    }

    /** Writes `input` just before the readable bytes; the caller has checked that it fits. */
    method Prepend(input: bytes)
      requires Valid() && |input| <= readIndex
      modifies this`readIndex, data
      ensures Valid() && readIndex == old(readIndex) - |input|
      ensures Readable() == input + old(Readable())
    {
      ghost var tail := data[readIndex..];
      ghost var readable := writeIndex - readIndex;
      assert Readable() == tail[..readable];
      readIndex := readIndex - |input|;
      CopyIn(readIndex, input);
      assert data[readIndex + |input|..] == tail;
      assert Readable() == data[readIndex..readIndex + |input|] + tail[..readable];
    }

    function PeekInt32(): int32
      requires Valid() && 4 <= ReadableBytes()
      reads this, data
    {
      DecodeInt32(Readable())
    }

    method ReadInt32() returns (x: int32)
      requires Valid() && 4 <= ReadableBytes()
      modifies this`readIndex, this`writeIndex
      ensures Valid() && EncodeInt32(x) + Readable() == old(Readable())
    {
      x := PeekInt32();
      Int32RoundTripBytes(Readable());
      Retrieve(4);
    }

    method PrependInt32(x: int32)
      requires Valid() && 4 <= readIndex
      modifies this`readIndex, data
      ensures Valid() && readIndex == old(readIndex) - 4
      ensures PeekInt32() == x && Readable() == EncodeInt32(x) + old(Readable())
    {
      Prepend(EncodeInt32(x));
      Int32RoundTrip(x, old(Readable()));
    }
  }
}
