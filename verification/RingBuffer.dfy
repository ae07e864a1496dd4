/** The gateway's byte buffer: a vector with a read and a write index. Every operation acts
    as the corresponding operation on the byte sequence between the two. */
module RingBuffer {
  type Byte = x: int | 0 <= x < 256

  const CHEAP_PREPEND := 8
  const EXTRA_SIZE := 65536

  /** What the scatter read returns: an error, or the bytes the kernel delivered. */
  datatype ReadResult = Failed(errno: int) | Delivered(bytes: seq<Byte>)

  /** The most one scatter read can deliver: the overflow buffer takes part only when the
      writable part is smaller than it. */
  function ReadLimit(writable: nat): nat
  {
    if writable < EXTRA_SIZE then writable + EXTRA_SIZE else writable
  }

  lemma Joined(s: seq<Byte>, a: nat, b: nat, c: nat)
    requires a <= b <= c <= |s|
    ensures s[a..c] == s[a..b] + s[b..c]
  {}

  lemma PrependedIs(was: seq<Byte>, now: seq<Byte>, from: nat, to: nat, data: seq<Byte>)
    requires from + |data| <= to <= |was| && now == was[..from] + data + was[from + |data|..]
    ensures now[from..to] == data + was[from + |data|..to]
  {}

  lemma AppendedIs(was: seq<Byte>, now: seq<Byte>, from: nat, to: nat, data: seq<Byte>)
    requires from <= to && to + |data| <= |was| && now == was[..to] + data + was[to + |data|..]
    ensures now[from..to + |data|] == was[from..to] + data
  {}

  class RingBuffer {
    var buffer: array<Byte>
    var readIndex: nat
    var writeIndex: nat

    ghost predicate Valid()
      reads this
    { readIndex <= writeIndex <= buffer.Length }

    ghost function Contents(): seq<Byte>
      reads this, buffer
      requires Valid()
    { buffer[readIndex..writeIndex] }

    constructor (initialSize: nat)
      ensures Valid() && fresh(buffer) && Contents() == [] && buffer.Length == initialSize
    {
      buffer := new Byte[initialSize](_ => 0);
      readIndex, writeIndex := 0, 0;
    }

    function ReadableBytes(): (n: nat)
      reads this, buffer
      requires Valid()
      ensures n == |Contents()|
    { writeIndex - readIndex }

    function WritableBytes(): nat
      reads this
      requires Valid()
    { buffer.Length - writeIndex }

    function PrependableBytes(): nat
      reads this
    { readIndex }

    method RetrieveAll()
      requires Valid()
      modifies this`readIndex, this`writeIndex
      ensures Valid() && Contents() == [] && PrependableBytes() == 0
    {
      readIndex, writeIndex := 0, 0;
    }

    method Retrieve(len: nat)
      requires Valid() && len <= ReadableBytes()
      modifies this`readIndex, this`writeIndex
      ensures Valid() && Contents() == old(Contents())[len..]
      ensures PrependableBytes() == if len < old(ReadableBytes()) then old(PrependableBytes()) + len else 0
    {
      if len < ReadableBytes() {
        readIndex := readIndex + len;
      } else {
        RetrieveAll();
      }
    }

    method RetrieveAsString(len: nat) returns (result: seq<Byte>)
      requires Valid() && len <= ReadableBytes()
      modifies this`readIndex, this`writeIndex
      ensures Valid() && result == old(Contents())[..len] && result + Contents() == old(Contents())
    {
      result := buffer[readIndex..readIndex + len];
      assert result == Contents()[..len];
      Retrieve(len);
    }

    method RetrieveAllAsString() returns (result: seq<Byte>)
      requires Valid()
      modifies this`readIndex, this`writeIndex
      ensures Valid() && result == old(Contents()) && Contents() == []
    {
      result := RetrieveAsString(ReadableBytes());
    }

    method Append(data: seq<Byte>)
      requires Valid()
      modifies this, buffer
      ensures Valid() && Contents() == old(Contents()) + data
      ensures PrependableBytes() == old(PrependableBytes())
           || PrependableBytes() == CHEAP_PREPEND < old(PrependableBytes())
      ensures fresh(buffer) || buffer == old(buffer)
      ensures buffer == old(buffer) <==>
        old(WritableBytes()) >= |data| || old(WritableBytes() + PrependableBytes()) >= |data| + CHEAP_PREPEND
    {
      EnsureWritableBytes(|data|);
      ghost var was := buffer[..];
      CopyIn(writeIndex, data);
      HasWritten(|data|);
      AppendedIs(was, buffer[..], readIndex, writeIndex - |data|, data);
    }

    /** `std::copy` of outside bytes into the vector. */
    method CopyIn(at: nat, data: seq<Byte>)
      requires at + |data| <= buffer.Length
      modifies buffer
      ensures buffer[..] == old(buffer[..at]) + data + old(buffer[at + |data|..])
    {
      var i := 0;
      while i < |data|
        modifies buffer
        invariant 0 <= i <= |data|
        invariant buffer[..at + i] == old(buffer[..at]) + data[..i] && buffer[at + i..] == old(buffer[at + i..])
      {
        buffer[at + i] := data[i];
        i := i + 1;
        assert buffer[..at + i] == buffer[..at + i - 1] + [data[i - 1]];
      }
      assert buffer[..] == buffer[..at + |data|] + buffer[at + |data|..];
    }

    method EnsureWritableBytes(len: nat)
      requires Valid()
      modifies this, buffer
      ensures Valid() && WritableBytes() >= len && Contents() == old(Contents())
      ensures PrependableBytes() == old(PrependableBytes())
           || PrependableBytes() == CHEAP_PREPEND < old(PrependableBytes())
      ensures fresh(buffer) || buffer == old(buffer)
      ensures buffer == old(buffer) <==>
        old(WritableBytes()) >= len || old(WritableBytes() + PrependableBytes()) >= len + CHEAP_PREPEND
      ensures fresh(buffer) ==> WritableBytes() == len
    {
      if WritableBytes() < len {
        MakeSpace(len);
      }
    }

    method HasWritten(len: nat)
      requires Valid() && len <= WritableBytes()
      modifies this`writeIndex
      ensures Valid() && writeIndex == old(writeIndex) + len
    {
      writeIndex := writeIndex + len;
    }

    method Unwrite(len: nat)
      requires Valid() && len <= ReadableBytes()
      modifies this`writeIndex
      ensures Valid() && Contents() == old(Contents()[..|Contents()| - len])
    {
      writeIndex := writeIndex - len;
    }

    method Prepend(data: seq<Byte>)
      requires Valid() && |data| <= PrependableBytes()
      modifies this`readIndex, buffer
      ensures Valid() && Contents() == data + old(Contents())
    {
      ghost var was := buffer[..];
      readIndex := readIndex - |data|;
      CopyIn(readIndex, data);
      assert buffer[..] == was[..readIndex] + data + was[readIndex + |data|..];
      PrependedIs(was, buffer[..], readIndex, writeIndex, data);
    }

    method Shrink(reserve: nat)
      requires Valid() && ReadableBytes() <= reserve
      modifies this
      ensures Valid() && fresh(buffer) && Contents() == old(Contents()) && buffer.Length == reserve
    {
      var buf := new Byte[reserve](_ => 0);
      var readable := ReadableBytes();
      var i := 0;
      while i < readable
        modifies buf
        invariant 0 <= i <= readable && buf[..i] == buffer[readIndex..readIndex + i]
        invariant buffer[..] == old(buffer[..])
      {
        buf[i] := buffer[readIndex + i];
        i := i + 1;
      }
      buffer := buf;
      readIndex, writeIndex := 0, readable;
    }

    /** Grows the vector, or moves the readable bytes to the front when that is enough.
        Reached only when there is too little room to write, so a move is always towards
        lower addresses, which is what copying forwards over an overlap needs. */
    method MakeSpace(len: nat)
      requires Valid() && WritableBytes() < len
      modifies this, buffer
      ensures Valid() && WritableBytes() >= len && Contents() == old(Contents())
      ensures PrependableBytes() == old(PrependableBytes())
           || PrependableBytes() == CHEAP_PREPEND < old(PrependableBytes())
      ensures fresh(buffer) || buffer == old(buffer)
      ensures old(WritableBytes() + PrependableBytes()) >= len + CHEAP_PREPEND <==> buffer == old(buffer)
      ensures fresh(buffer) ==> WritableBytes() == len
    {
      if WritableBytes() + PrependableBytes() < len + CHEAP_PREPEND {
        Resize(writeIndex + len);
      } else {
        assert readIndex > CHEAP_PREPEND;
        var readable := ReadableBytes();
        MoveDown(readable);
        readIndex := CHEAP_PREPEND;
        writeIndex := readIndex + readable;
      }
    }

    /** `std::vector::resize` to a larger size. */
    method Resize(size: nat)
      requires Valid() && size >= buffer.Length
      modifies this`buffer
      ensures Valid() && fresh(buffer) && buffer.Length == size && Contents() == old(Contents())
    {
      var buf := new Byte[size](_ => 0);
      var i := 0;
      while i < buffer.Length
        modifies buf
        invariant 0 <= i <= buffer.Length && buf[..i] == buffer[..i]
        invariant buffer[..] == old(buffer[..])
      {
        buf[i] := buffer[i];
        i := i + 1;
      }
      ghost var was := buffer[..];
      buffer := buf;
      assert buffer[readIndex..writeIndex] == was[readIndex..writeIndex];
    }

    /** The forward copy within the vector. */
    method MoveDown(readable: nat)
      requires Valid() && readIndex > CHEAP_PREPEND && readable == writeIndex - readIndex
      modifies buffer
      ensures Valid() && buffer[CHEAP_PREPEND..CHEAP_PREPEND + readable] == old(Contents())
    {
      ghost var was := Contents();
      var i := 0;
      while i < readable
        modifies buffer
        invariant 0 <= i <= readable
        invariant buffer[CHEAP_PREPEND..CHEAP_PREPEND + i] == was[..i]
        invariant buffer[readIndex + i..writeIndex] == was[i..]
      {
        assert buffer[readIndex + i] == buffer[readIndex + i..writeIndex][0] == was[i];
        buffer[CHEAP_PREPEND + i] := buffer[readIndex + i];
        i := i + 1;
      }
    }

    /** The scatter read: the kernel fills the writable part, then the overflow buffer,
        which is appended. */
    method ReadFd(result: ReadResult) returns (n: int)
      requires Valid() && (result.Delivered? ==> |result.bytes| <= ReadLimit(WritableBytes()))
      modifies this, buffer
      ensures Valid() && (fresh(buffer) || buffer == old(buffer))
      ensures result.Failed? ==> n == -1 && Contents() == old(Contents())
      ensures result.Delivered? ==> n == |result.bytes| && Contents() == old(Contents()) + result.bytes
    {
      if result.Failed? {
        return -1;
      }
      var bytes := result.bytes;
      var writable := WritableBytes();
      n := |bytes|;
      FillWritable(bytes);
      ghost var now, start := buffer[..], writeIndex;
      if n <= writable {
        writeIndex := writeIndex + n;
        Joined(now, readIndex, start, writeIndex);
      } else {
        writeIndex := buffer.Length;
        Joined(now, readIndex, start, writeIndex);
        assert Contents() == old(Contents()) + bytes[..writable];
        Append(bytes[writable..]);
        assert bytes == bytes[..writable] + bytes[writable..];
      }
    }

    /** What the kernel does with the writable part. */
    method FillWritable(bytes: seq<Byte>)
      requires Valid()
      modifies buffer
      ensures Valid() && Contents() == old(Contents())
      ensures var k := if |bytes| < WritableBytes() then |bytes| else WritableBytes();
        buffer[writeIndex..writeIndex + k] == bytes[..k]
    {
      CopyIn(writeIndex, bytes[..if |bytes| < WritableBytes() then |bytes| else WritableBytes()]);
    }
  }
}
