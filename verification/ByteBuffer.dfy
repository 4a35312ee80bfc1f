/** Buffer over a real array: every method moves the indices exactly as
    BufferShape says and changes the readable bytes as a byte queue does. */
module ByteBuffer {
  import opened BufferShape

  newtype byte = x: int | 0 <= x < 256

  /** What readv or write reported: an outcome chosen by the kernel. */
  datatype Errno = EAGAIN | EPIPE | ECONNRESET | EOTHER

  datatype WriteResult = Wrote(n: nat) | WriteError(errno: Errno)

  datatype ReadResult = Data(bytes: seq<byte>) | ReadError(errno: Errno)

  /** Ascending copy of the n elements at `from` down to `to`, in one array. */
  method SlideDown(a: array<byte>, from: nat, to: nat, n: nat)
    requires to < from && from + n <= a.Length
    modifies a
    ensures a[to..to + n] == old(a[from..from + n])
    ensures a[..to] == old(a[..to])
  {
    for i := 0 to n
      invariant a[to..to + i] == old(a[from..from + i])
      invariant a[..to] == old(a[..to])
      invariant forall k :: from + i <= k < a.Length ==> a[k] == old(a[k])
    {
      a[to + i] := a[from + i];
      assert a[to..to + i + 1] == a[to..to + i] + [a[to + i]];
    }
  }

  /** Copies `data` into `a` from `at` on. */
  method CopyIn(a: array<byte>, at: nat, data: seq<byte>)
    requires at + |data| <= a.Length
    modifies a
    ensures a[..at] == old(a[..at])
    ensures a[at..at + |data|] == data
    ensures a[at + |data|..] == old(a[at + |data|..])
  {
    for i := 0 to |data|
      invariant a[at..at + i] == data[..i]
      invariant forall k :: 0 <= k < at || at + i <= k < a.Length ==> a[k] == old(a[k])
    {
      a[at + i] := data[i];
      assert a[at..at + i + 1] == a[at..at + i] + [a[at + i]];
    }
  }

  /** readv over two areas: `first` from `at` to its end is filled before
      `second` receives a byte. */
  method Scatter(first: array<byte>, at: nat, second: array<byte>, data: seq<byte>)
    requires at <= first.Length && first != second
    requires |data| <= first.Length - at + second.Length
    modifies first, second
    ensures first[..at] == old(first[..at])
    ensures var head := Head(data, first.Length - at);
            first[at..at + head] == data[..head] && second[..|data| - head] == data[head..]
  {
    var head := Head(data, first.Length - at);
    CopyIn(first, at, data[..head]);
    CopyIn(second, 0, data[head..]);
  }

  function Head(data: seq<byte>, room: nat): nat {
    if |data| <= room then |data| else room
  }

  class Buffer {
    var buffer: array<byte>
    var readerIndex: nat
    var writerIndex: nat

    ghost function Shape(): Shape
      reads this
    {
      BufferShape.Shape(buffer.Length, readerIndex, writerIndex)
    }

    ghost predicate Valid()
      reads this
    {
      Shape().Ok()
    }

    /** The readable bytes, oldest first. */
    ghost function Contents(): (s: seq<byte>)
      requires Valid()
      reads this, buffer
      ensures |s| == Shape().Readable()
    {
      buffer[readerIndex..writerIndex]
    }

    constructor (initialSize: nat := INITIAL_SIZE)
      ensures Valid() && fresh(buffer)
      ensures Shape() == Initial(initialSize)
      ensures Contents() == []
    {
      buffer := new byte[CHEAP_PREPEND + initialSize];
      readerIndex := CHEAP_PREPEND;
      writerIndex := CHEAP_PREPEND;
    }

    function ReadableBytes(): (n: nat)
      requires Valid()
      reads this, buffer
      ensures n == |Contents()|
    {
      writerIndex - readerIndex
    }

    function WritableBytes(): nat
      requires Valid()
      reads this
    {
      buffer.Length - writerIndex
    }

    method RetrieveAll()
      requires Valid()
      modifies this
      ensures Valid() && buffer == old(buffer)
      ensures Contents() == []
      ensures Shape() == Retrieved(old(Shape()), old(Shape().Readable()))
    {
      readerIndex := CHEAP_PREPEND;
      writerIndex := CHEAP_PREPEND;
    }

    method Retrieve(len: nat)
      requires Valid()
      modifies this
      ensures Valid() && buffer == old(buffer)
      ensures Contents() == if len < |old(Contents())| then old(Contents())[len..] else []
      ensures Shape() == Retrieved(old(Shape()), len)
    {
      if len < ReadableBytes() {
        readerIndex := readerIndex + len;
      } else {
        RetrieveAll();
      }
    }

    /** The caller guarantees len <= ReadableBytes(), as the source says. */
    method RetrieveAsString(len: nat) returns (result: seq<byte>)
      requires Valid() && len <= ReadableBytes()
      modifies this
      ensures Valid() && buffer == old(buffer)
      ensures result == old(Contents())[..len] && Contents() == old(Contents())[len..]
      ensures Shape() == Retrieved(old(Shape()), len)
    {
      result := buffer[readerIndex..readerIndex + len];
      Retrieve(len);
    }

    method RetrieveAllAsString() returns (result: seq<byte>)
      requires Valid()
      modifies this
      ensures Valid() && buffer == old(buffer)
      ensures result == old(Contents()) && Contents() == []
      ensures Shape() == Retrieved(old(Shape()), old(Shape().Readable()))
    {
      result := RetrieveAsString(ReadableBytes());
    }

    method MakeSpace(len: nat)
      requires Valid() && WritableBytes() < len
      modifies this, buffer
      ensures Valid() && (buffer == old(buffer) || fresh(buffer))
      ensures Shape() == MadeSpace(old(Shape()), len)
      ensures Contents() == old(Contents())
    {
      MakeSpaceMakesRoom(Shape(), len);
      if WritableBytes() + readerIndex < len + CHEAP_PREPEND {
        var bigger := new byte[writerIndex + len];
        CopyIn(bigger, 0, buffer[..]);
        assert bigger[..][readerIndex..writerIndex] == buffer[..][readerIndex..writerIndex];
        buffer := bigger;
      } else {
        var readable := ReadableBytes();
        SlideDown(buffer, readerIndex, CHEAP_PREPEND, readable);
        readerIndex := CHEAP_PREPEND;
        writerIndex := readerIndex + readable;
      }
    }

    method EnsureWritableBytes(len: nat)
      requires Valid()
      modifies this, buffer
      ensures Valid() && (buffer == old(buffer) || fresh(buffer))
      ensures Shape() == Ensured(old(Shape()), len)
      ensures WritableBytes() >= len
      ensures Contents() == old(Contents())
    {
      if WritableBytes() < len {
        MakeSpaceMakesRoom(Shape(), len);
        MakeSpace(len);
      }
    }

    method Append(data: seq<byte>)
      requires Valid()
      modifies this, buffer
      ensures Valid() && (buffer == old(buffer) || fresh(buffer))
      ensures Shape() == Appended(old(Shape()), |data|)
      ensures Contents() == old(Contents()) + data
    {
      EnsureWritableBytes(|data|);
      CopyIn(buffer, writerIndex, data);
      assert Contents() == old(Contents()) by {
        assert Contents() == buffer[..writerIndex][readerIndex..];
      }
      writerIndex := writerIndex + |data|;
      assert Contents() == buffer[readerIndex..writerIndex - |data|] + buffer[writerIndex - |data|..writerIndex];
    }

    /** Whether `data` lies in the writable area and, past its end, in `extra`. */
    ghost predicate Scattered(extra: array<byte>, data: seq<byte>)
      requires Valid()
      reads this, buffer, extra
    {
      var head := Head(data, WritableBytes());
      && |data| - head <= extra.Length
      && buffer[writerIndex..writerIndex + head] == data[..head]
      && extra[..|data| - head] == data[head..]
    }

    /** readv into the writable area and `extra`; the readable bytes stay. */
    method ScatterRead(extra: array<byte>, data: seq<byte>)
      requires Valid() && extra != buffer && |data| <= WritableBytes() + extra.Length
      modifies buffer, extra
      ensures Contents() == old(Contents())
      ensures Scattered(extra, data)
    {
      Scatter(buffer, writerIndex, extra, data);
      assert buffer[..writerIndex][readerIndex..] == old(buffer[..writerIndex][readerIndex..]);
    }

    method Advance(n: nat)
      requires Valid() && n <= WritableBytes()
      modifies this
      ensures Valid() && buffer == old(buffer)
      ensures Contents() == old(Contents() + buffer[writerIndex..writerIndex + n])
      ensures Shape() == Received(old(Shape()), n)
    {
      writerIndex := writerIndex + n;
      assert buffer[readerIndex..writerIndex]
          == buffer[readerIndex..writerIndex - n] + buffer[writerIndex - n..writerIndex];
    }

    /** `result` is what readv reports: it never returns more than the areas
        offered.  Exactly the bytes read are appended. */
    method ReadFd(result: ReadResult) returns (n: int)
      requires Valid()
      requires result.Data? ==> |result.bytes| <= ReadLimit(Shape())
      modifies this, buffer
      ensures Valid() && (buffer == old(buffer) || fresh(buffer))
      ensures result.Data? ==>
                && n == |result.bytes|
                && Contents() == old(Contents()) + result.bytes
                && Shape() == Received(old(Shape()), |result.bytes|)
      ensures result.ReadError? ==>
                n == -1 && Contents() == old(Contents()) && Shape() == old(Shape())
    {
      if result.ReadError? {
        return -1;
      }
      var extra := new byte[EXTRA_SIZE];
      ScatterRead(extra, result.bytes);
      n := |result.bytes|;
      TakeScattered(extra, result.bytes);
    }

    /** Moves the write index over what was read and appends what overflowed. */
    method TakeScattered(extra: array<byte>, data: seq<byte>)
      requires Valid() && extra != buffer && Scattered(extra, data)
      modifies this, buffer
      ensures Valid() && (buffer == old(buffer) || fresh(buffer))
      ensures Contents() == old(Contents()) + data
      ensures Shape() == Received(old(Shape()), |data|)
    {
      var n, writable := |data|, WritableBytes();
      if n <= writable {
        Advance(n);
      } else {
        AppendOverflow(extra[..n - writable]);
        assert data == data[..writable] + data[writable..];
      }
    }

    /** The first area is full: everything up to its end counts as written, and
        the overflow is appended. */
    method AppendOverflow(overflow: seq<byte>)
      requires Valid() && overflow != []
      modifies this, buffer
      ensures Valid() && (buffer == old(buffer) || fresh(buffer))
      ensures Contents() == old(Contents() + buffer[writerIndex..]) + overflow
      ensures Shape() == Received(old(Shape()), old(WritableBytes()) + |overflow|)
    {
      assert buffer[readerIndex..buffer.Length] == Contents() + buffer[writerIndex..];
      writerIndex := buffer.Length;
      Append(overflow);
    }

    /** Offers the readable bytes to write and consumes none of them: `taken` is
        the prefix that the kernel took. */
    method WriteFd(result: WriteResult) returns (n: int, taken: seq<byte>)
      requires Valid()
      requires result.Wrote? ==> result.n <= ReadableBytes()
      ensures result.Wrote? ==> n == result.n && taken == Contents()[..n]
      ensures result.WriteError? ==> n == -1 && taken == []
    {
      if result.WriteError? {
        return -1, [];
      }
      n := result.n;
      taken := buffer[readerIndex..readerIndex + n];
    }
  }
}
