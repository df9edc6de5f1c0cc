/** The growable byte buffer behind every connection: a vector with a read index and a write index.

      0   <=   prependable   <=   readerIndex   <=   writeIndex   <=   size

    `Shape` abstracts a buffer to its three numbers, which is all that decides when it compacts and when
    it grows; the class below it moves the bytes. */
module Buffers {

  type Bytes = seq<bv8>

  const CHEAP_PREPEND: nat := 8
  const INITIAL_SIZE: nat := 1024
  // the stack area offered to readv behind the buffer's own free space
  const EXTRA_SIZE: nat := 65536

  function Max(a: int, b: int): int {
    if a < b then b else a
  }

  datatype Shape = Shape(size: nat, reader: nat, writer: nat) {
    predicate Valid() {
      CHEAP_PREPEND <= reader <= writer <= size
    }

    function Readable(): int {
      writer - reader
    }

    function Writeable(): int {
      size - writer
    }

    // called only when len does not fit behind the writer
    function MakeSpace(len: nat): Shape
      requires Valid() && Writeable() < len
    {
      if Writeable() + reader < len + CHEAP_PREPEND
      then Shape(writer + len, reader, writer)
      else Shape(size, CHEAP_PREPEND, CHEAP_PREPEND + Readable())
    }

    function Append(len: nat): Shape
      requires Valid()
    {
      var s := if Writeable() < len then MakeSpace(len) else this;
      s.(writer := s.writer + len)
    }

    function Retrieve(len: nat): Shape
      requires Valid()
    {
      if len < Readable() then this.(reader := reader + len) else Shape(size, CHEAP_PREPEND, CHEAP_PREPEND)
    }

    // n bytes arrive: in place if they fit, otherwise the free space is filled and the rest is appended
    function ReadFd(n: nat): Shape
      requires Valid()
    {
      if n <= Writeable() then this.(writer := writer + n)
      else this.(writer := size).Append(n - Writeable())
    }
  }

  // ---------------------------------------------------------------- capacity over whole runs

  datatype Op = Append(len: nat) | Retrieve(len: nat) | ReadFd(n: nat)

  function Apply(s: Shape, op: Op): (r: Shape)
    requires s.Valid()
    ensures r.Valid()
    ensures r.Readable() == match op
                            case Append(len) => s.Readable() + len
                            case Retrieve(len) => Max(0, s.Readable() - len)
                            case ReadFd(n) => s.Readable() + n
  {
    match op
    case Append(len) => s.Append(len)
    case Retrieve(len) => s.Retrieve(len)
    case ReadFd(n) => s.ReadFd(n)
  }

  function Run(s: Shape, ops: seq<Op>): (r: Shape)
    requires s.Valid()
    ensures r.Valid()
    decreases ops
  {
    if ops == [] then s else Run(Apply(s, ops[0]), ops[1..])
  }

  // the bytes an operation has to append beyond the free space it finds
  function Appended(s: Shape, op: Op): int
    requires s.Valid()
  {
    match op
    case Append(len) => len
    case Retrieve(_) => 0
    case ReadFd(n) => n - s.Writeable()
  }

  // along the run the readable length stays within `readable` and every append within `chunk`
  predicate Within(s: Shape, ops: seq<Op>, readable: nat, chunk: nat)
    requires s.Valid()
    decreases ops
  {
    ops == [] ||
    (Appended(s, ops[0]) <= chunk
     && Apply(s, ops[0]).Readable() <= readable
     && Within(Apply(s, ops[0]), ops[1..], readable, chunk))
  }

  /** Growing stops: the buffer never exceeds the larger of what it already had and readable + chunk + 7. */
  lemma {:induction false} CapacityBound(s: Shape, ops: seq<Op>, readable: nat, chunk: nat)
    requires s.Valid() && Within(s, ops, readable, chunk)
    ensures s.size <= Run(s, ops).size <= Max(s.size, readable + chunk + CHEAP_PREPEND - 1)
    decreases ops
  {
    if ops == [] {
    } else {
      CapacityBound(Apply(s, ops[0]), ops[1..], readable, chunk);
    }
  }

  /** The bound is attained for every chunk >= 1 and every readable > chunk, so no smaller one holds. */
  lemma CapacityBoundIsTight(readable: nat, chunk: nat)
    requires 1 <= chunk < readable
    ensures var unused := Shape(CHEAP_PREPEND + readable - 1, CHEAP_PREPEND, CHEAP_PREPEND);
            exists ops :: Within(unused, ops, readable, chunk)
                          && Run(unused, ops).size == readable + chunk + CHEAP_PREPEND - 1
                          && unused.size < Run(unused, ops).size
  {
    var unused := Shape(CHEAP_PREPEND + readable - 1, CHEAP_PREPEND, CHEAP_PREPEND);
    var ops := [ReadFd(readable - 1), Retrieve(chunk - 1), Append(chunk)];
    var s1 := Apply(unused, ops[0]);
    var s2 := Apply(s1, ops[1]);
    var s3 := Apply(s2, ops[2]);
    assert s3.size == readable + chunk + CHEAP_PREPEND - 1;
    assert Run(s2, [ops[2]]) == s3 && Within(s2, [ops[2]], readable, chunk);
    assert ops[1..][1..] == [ops[2]];
    assert Run(s1, ops[1..]) == s3 && Within(s1, ops[1..], readable, chunk);
    assert Within(unused, ops, readable, chunk) && Run(unused, ops) == s3;
  }

  /** Compaction happens only with the reader strictly beyond the prepend area, so its copy moves left and
      then the bytes to append fit exactly where the buffer says they do. */
  lemma CompactionMovesLeft(s: Shape, len: nat)
    requires s.Valid() && s.Writeable() < len
    ensures s.MakeSpace(len).size == s.size <==> CHEAP_PREPEND + s.Readable() + len <= s.size
    ensures s.MakeSpace(len).size == s.size ==> s.reader > CHEAP_PREPEND && s.MakeSpace(len).reader == CHEAP_PREPEND
    ensures s.MakeSpace(len).Valid() && s.MakeSpace(len).Writeable() >= len
    ensures s.MakeSpace(len).Readable() == s.Readable()
  {
  }

  // ---------------------------------------------------------------- the buffer itself

  // what readv reports: an error number, or the bytes it stored
  datatype ReadResult = ReadError(errno: int) | ReadBytes(bytes: Bytes)

  class Buffer {
    var data: array<bv8>
    var readerIndex: nat
    var writeIndex: nat

    ghost predicate Valid()
      reads this
    {
      GetShape().Valid()
    }

    ghost function GetShape(): Shape
      reads this
    {
      Shape(data.Length, readerIndex, writeIndex)
    }

    ghost function Contents(): Bytes
      reads this, data
      requires Valid()
    {
      data[readerIndex..writeIndex]
    }

    constructor (initialSize: nat)
      ensures Valid() && fresh(data) && Contents() == []
      ensures GetShape() == Shape(CHEAP_PREPEND + initialSize, CHEAP_PREPEND, CHEAP_PREPEND)
    {
      data := new bv8[CHEAP_PREPEND + initialSize];
      readerIndex, writeIndex := CHEAP_PREPEND, CHEAP_PREPEND;
    }

    function ReadableBytes(): (n: int)
      reads this, data
      requires Valid()
      ensures n == |Contents()|
    {
      writeIndex - readerIndex
    }

    function WriteableBytes(): int
      reads this
    {
      data.Length - writeIndex
    }

    method Retrieve(len: nat)
      requires Valid()
      modifies this`readerIndex, this`writeIndex
      ensures Valid() && GetShape() == old(GetShape()).Retrieve(len)
      ensures Contents() == if len < |old(Contents())| then old(Contents())[len..] else []
    {
      if len < ReadableBytes() {
        readerIndex := readerIndex + len;
      } else {
        RetrieveAll();
      }
    }

    method RetrieveAll()
      requires Valid()
      modifies this`readerIndex, this`writeIndex
      ensures Valid() && Contents() == []
      ensures GetShape() == Shape(old(data.Length), CHEAP_PREPEND, CHEAP_PREPEND)
    {
      readerIndex, writeIndex := CHEAP_PREPEND, CHEAP_PREPEND;
    }

    /** The copy starts at the reader and runs over len bytes whether or not they are readable; the result
        is a prefix of the contents exactly as far as the contents go. */
    method RetrieveAsString(len: nat) returns (result: Bytes)
      requires Valid()
      requires readerIndex + len <= data.Length
      modifies this`readerIndex, this`writeIndex
      ensures Valid() && GetShape() == old(GetShape()).Retrieve(len) && |result| == len
      ensures len <= |old(Contents())| ==> result + Contents() == old(Contents())
      ensures len > |old(Contents())| ==> old(Contents()) < result && Contents() == []
    {
      result := data[readerIndex..readerIndex + len];
      Retrieve(len);
    }

    method RetrieveAllAsString() returns (result: Bytes)
      requires Valid()
      modifies this`readerIndex, this`writeIndex
      ensures Valid() && result == old(Contents()) && Contents() == []
    {
      result := RetrieveAsString(ReadableBytes());
    }

    // std::copy within one array, front to back, over ranges that may overlap
    static method CopyLeft(a: array<bv8>, lo: nat, hi: nat, dst: nat)
      requires dst < lo <= hi <= a.Length
      modifies a
      ensures a[dst..dst + hi - lo] == old(a[lo..hi])
    {
      var k := 0;
      while k < hi - lo
        invariant 0 <= k <= hi - lo
        invariant a[dst..dst + k] == old(a[lo..lo + k])
        invariant forall j :: dst + k <= j < a.Length ==> a[j] == old(a[j])
      {
        a[dst + k] := a[lo + k];
        k := k + 1;
      }
    }

    method MakeSpace(len: nat)
      requires Valid() && WriteableBytes() < len
      modifies this, data
      ensures Valid() && (data == old(data) || fresh(data))
      ensures GetShape() == old(GetShape()).MakeSpace(len) && WriteableBytes() >= len
      ensures Contents() == old(Contents())
    {
      if WriteableBytes() + readerIndex < len + CHEAP_PREPEND {
        var bigger := new bv8[writeIndex + len];
        forall i | 0 <= i < bigger.Length {
          bigger[i] := if i < data.Length then data[i] else 0;
        }
        data := bigger;
      } else {
        var readable := ReadableBytes();
        CopyLeft(data, readerIndex, writeIndex, CHEAP_PREPEND);
        readerIndex := CHEAP_PREPEND;
        writeIndex := readerIndex + readable;
      }
    }

    method EnsureWriteableBytes(len: nat)
      requires Valid()
      modifies this, data
      ensures Valid() && (data == old(data) || fresh(data))
      ensures GetShape() == if old(WriteableBytes()) < len then old(GetShape()).MakeSpace(len) else old(GetShape())
      ensures WriteableBytes() >= len && Contents() == old(Contents())
    {
      if WriteableBytes() < len {
        MakeSpace(len);
      }
    }

    // store bytes from index `at` on: a raw copy that leaves the indices alone
    static method Store(a: array<bv8>, at: nat, bytes: Bytes)
      requires at + |bytes| <= a.Length
      modifies a
      ensures a[at..at + |bytes|] == bytes
      ensures a[..at] == old(a[..at]) && a[at + |bytes|..] == old(a[at + |bytes|..])
    {
      forall i | 0 <= i < |bytes| {
        a[at + i] := bytes[i];
      }
    }

    // bytes land in the free space behind the writer
    method Fill(bytes: Bytes)
      requires Valid() && |bytes| <= WriteableBytes()
      modifies this`writeIndex, data
      ensures Valid() && Contents() == old(Contents()) + bytes
      ensures GetShape() == old(GetShape()).(writer := old(writeIndex) + |bytes|)
    {
      ghost var before := Contents();
      Store(data, writeIndex, bytes);
      assert data[..writeIndex][readerIndex..] == before;
      writeIndex := writeIndex + |bytes|;
    }

    method Append(bytes: Bytes)
      requires Valid()
      modifies this, data
      ensures Valid() && (data == old(data) || fresh(data))
      ensures GetShape() == old(GetShape()).Append(|bytes|)
      ensures Contents() == old(Contents()) + bytes
    {
      EnsureWriteableBytes(|bytes|);
      Fill(bytes);
    }

    // the room readv is offered: the stack area only backs a buffer with less free space than it has itself
    function ReadCapacity(): (n: int)
      reads this
      // so a read never finds no room, and an answer of nothing is the end of the stream
      ensures Valid() ==> n >= EXTRA_SIZE
    {
      WriteableBytes() + if WriteableBytes() < EXTRA_SIZE then EXTRA_SIZE else 0
    }

    /** readv fills the free space first and the extra area with what is left; whatever the split, the
        contents grow by exactly the bytes read. */
    method ReadFd(kernel: ReadResult) returns (n: int, savedErrno: int)
      requires Valid()
      requires kernel.ReadBytes? ==> |kernel.bytes| <= ReadCapacity()
      modifies this, data
      ensures Valid() && (data == old(data) || fresh(data))
      ensures kernel.ReadError? ==> n == -1 && savedErrno == kernel.errno
                                    && Contents() == old(Contents()) && GetShape() == old(GetShape())
      ensures kernel.ReadBytes? ==> n == |kernel.bytes| && Contents() == old(Contents()) + kernel.bytes
                                    && GetShape() == old(GetShape()).ReadFd(n)
    {
      savedErrno := 0;
      var writable := WriteableBytes();
      if kernel.ReadError? {
        savedErrno := kernel.errno;
        return -1, savedErrno;
      }
      n := |kernel.bytes|;
      if n <= writable {
        Fill(kernel.bytes);
      } else {
        var extrabuf := kernel.bytes[writable..];
        Fill(kernel.bytes[..writable]);
        assert writeIndex == data.Length;
        Append(extrabuf);
        assert kernel.bytes == kernel.bytes[..writable] + extrabuf;
      }
    }
  }
}
