/** The byte buffer of include/Buffer.h and src/Buffer.cc.

    `Layout` is the arithmetic of the three indices; the class `Buffer` is the
    storage that is compacted and grown in place. Every method of the class is
    proved against both views: the bytes it holds (a queue) and its layout. */
module Buffers {
  import opened Bytes

  const CHEAP_PREPEND: nat := 8
  const INITIAL_SIZE: nat := 1024
  const EXTRA_SIZE: nat := 65536

  datatype Errno = WouldBlock | BrokenPipe | ConnReset | OtherErrno

  /** What `readv` did. */
  datatype ReadOutcome = Failed(errno: Errno) | Delivered(bytes: Stream)

  /** What `write` will do: take as many of the offered bytes as there is room
      for, or fail. */
  datatype WriteOutcome = Accepts(room: nat) | Refuses(errno: Errno)

  datatype Layout = Layout(size: nat, reader: nat, writer: nat) {
    predicate Ok() {
      CHEAP_PREPEND <= reader <= writer <= size
    }

    function Readable(): nat
      requires Ok()
    {
      writer - reader
    }

    function Writable(): nat
      requires Ok()
    {
      size - writer
    }

    /** The room `readFd` offers the kernel: the writable tail, and the stack
        block behind it when the tail is shorter than that block. */
    function Offered(): nat
      requires Ok()
    {
      if Writable() < EXTRA_SIZE then Writable() + EXTRA_SIZE else Writable()
    }

    /** The guard under which `makeSpace` enlarges the storage. */
    predicate MustGrow(len: nat)
      requires Ok()
    {
      Writable() + reader < len + CHEAP_PREPEND
    }
  }

  function FreshLayout(initialSize: nat): (l: Layout)
    ensures l.Ok() && l.Readable() == 0 && l.Writable() == initialSize
  {
    Layout(CHEAP_PREPEND + initialSize, CHEAP_PREPEND, CHEAP_PREPEND)
  }

  function AfterRetrieve(l: Layout, len: nat): (l': Layout)
    requires l.Ok()
    ensures l'.Ok() && l'.size == l.size
    ensures l'.Readable() == l.Readable() - Min(len, l.Readable())
  {
    if len < l.Readable() then l.(reader := l.reader + len)
    else l.(reader := CHEAP_PREPEND, writer := CHEAP_PREPEND)
  }

  function AfterEnsure(l: Layout, len: nat): (l': Layout)
    requires l.Ok()
    ensures l'.Ok() && l'.Readable() == l.Readable() && l'.Writable() >= len
  {
    if l.Writable() >= len then l
    else if l.MustGrow(len) then l.(size := l.writer + len)
    else l.(reader := CHEAP_PREPEND, writer := CHEAP_PREPEND + l.Readable())
  }

  function AfterAppend(l: Layout, len: nat): (l': Layout)
    requires l.Ok()
    ensures l'.Ok() && l'.Readable() == l.Readable() + len
  {
    var room := AfterEnsure(l, len);
    room.(writer := room.writer + len)
  }

  function AfterRead(l: Layout, n: nat): (l': Layout)
    requires l.Ok()
    ensures l'.Ok() && l'.Readable() == l.Readable() + n
  {
    if n <= l.Writable() then l.(writer := l.writer + n)
    else AfterAppend(l.(writer := l.size), n - l.Writable())
  }

  /** Each `readFd` offers the kernel at least 64 KiB, and never more than the
      tail plus one stack block. */
  lemma OfferedRoom(l: Layout)
    requires l.Ok()
    ensures l.Offered() >= EXTRA_SIZE
    ensures l.Offered() == l.Writable() || l.Offered() == l.Writable() + EXTRA_SIZE
    ensures l.Offered() > l.Writable() <==> l.Writable() < EXTRA_SIZE
  {
  }

  /** Room is made in the cheapest way that works: nothing moves while the tail has
      room, the storage stays when the freed head makes up for the tail, and else it
      ends right behind the new bytes. */
  lemma MakesRoomCheaply(l: Layout, len: nat)
    requires l.Ok()
    ensures l.size - l.writer >= len ==> AfterEnsure(l, len) == l
    ensures l.size - l.writer < len && (l.size - l.writer) + (l.reader - CHEAP_PREPEND) >= len ==>
              AfterEnsure(l, len) == Layout(l.size, CHEAP_PREPEND, CHEAP_PREPEND + (l.writer - l.reader))
    ensures (l.size - l.writer) + (l.reader - CHEAP_PREPEND) < len ==>
              AfterEnsure(l, len) == Layout(l.writer + len, l.reader, l.writer)
  {
  }

  /** `makeSpace` slides the content only to a strictly lower address, so the
      forward copy never overwrites a byte it still has to read. */
  lemma CompactionMovesDown(l: Layout, len: nat)
    requires l.Ok()
    ensures l.Writable() < len && !l.MustGrow(len) ==>
              l.reader > CHEAP_PREPEND && AfterEnsure(l, len).size == l.size
  {
  }

  // ---------------------------------------------------------------- runs

  datatype Op = Append(len: nat) | Read(count: nat) | Retrieve(amount: nat)

  function LayoutAfter(l: Layout, op: Op): (l': Layout)
    requires l.Ok()
    ensures l'.Ok()
  {
    match op
    case Append(len) => AfterAppend(l, len)
    case Read(count) => AfterRead(l, count)
    case Retrieve(amount) => AfterRetrieve(l, amount)
  }

  function RunLayout(initialSize: nat, ops: seq<Op>): (l: Layout)
    ensures l.Ok()
  {
    if ops == [] then FreshLayout(initialSize)
    else LayoutAfter(RunLayout(initialSize, ops[..|ops| - 1]), ops[|ops| - 1])
  }

  /** The largest number of readable bytes seen so far in a run. */
  function Peak(initialSize: nat, ops: seq<Op>): nat {
    if ops == [] then 0
    else Max(Peak(initialSize, ops[..|ops| - 1]), RunLayout(initialSize, ops).Readable())
  }

  /** As long as the content always fits the initial room the storage never grows;
      otherwise it stays six bytes above twice the peak (nine for a single byte). */
  function SpaceLimit(initialSize: nat, peak: nat): nat {
    if peak <= initialSize then CHEAP_PREPEND + initialSize
    else if peak == 1 then CHEAP_PREPEND + 1
    else 2 * peak + CHEAP_PREPEND - 2
  }

  /** What every reachable layout keeps: the storage never shrinks, and an empty
      buffer has its indices reset. */
  predicate Settled(initialSize: nat, l: Layout)
    requires l.Ok()
  {
    l.size >= CHEAP_PREPEND + initialSize && (l.Readable() == 0 ==> l.reader == CHEAP_PREPEND)
  }

  /** Over every run of appends, reads and retrieves the storage stays within
      the limit. */
  lemma {:induction false} SpaceBound(initialSize: nat, ops: seq<Op>)
    ensures Settled(initialSize, RunLayout(initialSize, ops))
    ensures RunLayout(initialSize, ops).Readable() <= Peak(initialSize, ops)
    ensures RunLayout(initialSize, ops).size <= SpaceLimit(initialSize, Peak(initialSize, ops))
  {
    if ops != [] {
      var before := ops[..|ops| - 1];
      SpaceBound(initialSize, before);
      GrowthBound(initialSize, RunLayout(initialSize, before), ops[|ops| - 1]);
    }
  }

  /** The step behind `SpaceBound`: an operation enlarges the storage only when
      the content outgrows the initial room, and then to at most its limit. */
  lemma GrowthBound(initialSize: nat, l: Layout, op: Op)
    requires l.Ok() && Settled(initialSize, l)
    ensures var l' := LayoutAfter(l, op);
            && Settled(initialSize, l')
            && (l'.size == l.size ||
                 (initialSize < l'.Readable() && l'.size <= SpaceLimit(initialSize, l'.Readable())))
  {
  }

  /** The limit is exact: for every initial size and every peak some run has that
      peak and fills the limit to the last byte. */
  lemma SpaceBoundIsSharp(initialSize: nat, peak: nat)
    ensures exists ops :: Peak(initialSize, ops) == peak && RunLayout(initialSize, ops).size == SpaceLimit(initialSize, peak)
  {
    if peak <= initialSize || peak == 1 {
      var ops := [Append(peak)];
      assert ops[..0] == [] && RunLayout(initialSize, []) == FreshLayout(initialSize);
      assert RunLayout(initialSize, ops) == AfterAppend(FreshLayout(initialSize), peak);
      assert Peak(initialSize, []) == 0 && Peak(initialSize, ops) == peak;
    } else {
      LimitReached(initialSize, peak);
    }
  }

  /** Fill the storage, leave one byte at its very end, then append one byte too
      many for compaction. */
  lemma LimitReached(initialSize: nat, peak: nat)
    requires peak > initialSize && peak >= 2
    ensures var ops := [Append(peak - 1), Retrieve(peak - 2), Append(peak - 1)];
            Peak(initialSize, ops) == peak && RunLayout(initialSize, ops).size == SpaceLimit(initialSize, peak)
  {
    var o1, o2 := Append(peak - 1), Retrieve(peak - 2);
    assert [o1, o2, o1][..2] == [o1, o2] && [o1, o2][..1] == [o1] && [o1][..0] == [];
    assert RunLayout(initialSize, []) == FreshLayout(initialSize);
    assert RunLayout(initialSize, [o1]) == Layout(peak + 7, 8, peak + 7);
    assert RunLayout(initialSize, [o1, o2]) == Layout(peak + 7, peak + 6, peak + 7);
    assert Peak(initialSize, [o1]) == peak - 1 == Peak(initialSize, [o1, o2]);
    assert RunLayout(initialSize, [o1, o2, o1]) == Layout(2 * peak + 6, peak + 6, 2 * peak + 6);
  }

  // ---------------------------------------------------------------- storage

  /** `std::copy(data, data + len, begin() + at)`. */
  method CopyInto(a: array<byte>, at: nat, data: Stream)
    requires at + |data| <= a.Length
    modifies a
    ensures a[..] == old(a[..at]) + data + old(a[at + |data|..])
  {
    for i := 0 to |data|
      invariant a[..at] == old(a[..at])
      invariant a[at..at + i] == data[..i]
      invariant a[at + i..] == old(a[at + i..])
    {
      a[at + i] := data[i];
    }
    assert a[..] == a[..at] + a[at..at + |data|] + a[at + |data|..];
  }

  /** The 64 KiB stack block behind the tail, holding what spilled into it. */
  method StackBlock(spill: Stream) returns (extra: array<byte>)
    requires |spill| <= EXTRA_SIZE
    ensures fresh(extra) && extra.Length == EXTRA_SIZE && extra[..|spill|] == spill
  {
    extra := new byte[EXTRA_SIZE](_ => 0);
    CopyInto(extra, 0, spill);
    assert extra[..|spill|] == extra[..][..|spill|];
  }

  class Buffer {
    var storage: array<byte>
    var readerIndex: nat
    var writerIndex: nat

    ghost predicate Valid()
      reads this, storage
    {
      LayoutOf().Ok()
    }

    function LayoutOf(): Layout
      reads this, storage
    {
      Layout(storage.Length, readerIndex, writerIndex)
    }

    /** The readable bytes: the queue this buffer stands for. */
    function Contents(): Stream
      requires Valid()
      reads this, storage
    {
      storage[readerIndex..writerIndex]
    }

    constructor (initialSize: nat)
      ensures Valid() && fresh(storage)
      ensures Contents() == [] && LayoutOf() == FreshLayout(initialSize)
    {
      storage := new byte[CHEAP_PREPEND + initialSize](_ => 0);
      readerIndex := CHEAP_PREPEND;
      writerIndex := CHEAP_PREPEND;
    }

    method Retrieve(len: nat)
      requires Valid()
      modifies this
      ensures Valid() && storage == old(storage)
      ensures Contents() == old(Contents())[Min(len, |old(Contents())|)..]
      ensures LayoutOf() == AfterRetrieve(old(LayoutOf()), len)
    {
      if len < writerIndex - readerIndex {
        readerIndex := readerIndex + len;
      } else {
        RetrieveAll();
      }
    }

    method RetrieveAll()
      requires Valid()
      modifies this
      ensures Valid() && storage == old(storage)
      ensures Contents() == []
      ensures LayoutOf() == old(LayoutOf()).(reader := CHEAP_PREPEND, writer := CHEAP_PREPEND)
    {
      readerIndex := CHEAP_PREPEND;
      writerIndex := CHEAP_PREPEND;
    }

    method RetrieveAsString(len: nat) returns (result: Stream)
      requires Valid()
      requires len <= |Contents()|
      modifies this
      ensures Valid() && storage == old(storage)
      ensures |result| == len && old(Contents()) == result + Contents()
    {
      ghost var before := Contents();
      result := storage[readerIndex..readerIndex + len];
      assert result == before[..len];
      Retrieve(len);
      assert before == before[..len] + before[len..];
    }

    method RetrieveAllAsString() returns (result: Stream)
      requires Valid()
      modifies this
      ensures Valid() && storage == old(storage)
      ensures result == old(Contents()) && Contents() == []
    {
      result := RetrieveAsString(writerIndex - readerIndex);
    }

    method EnsureWritableBytes(len: nat)
      requires Valid()
      modifies this, storage
      ensures Valid() && (storage == old(storage) || fresh(storage))
      ensures Contents() == old(Contents())
      ensures LayoutOf() == AfterEnsure(old(LayoutOf()), len)
    {
      if storage.Length - writerIndex < len {
        MakeSpace(len);
      }
    }

    method MakeSpace(len: nat)
      requires Valid() && storage.Length - writerIndex < len
      modifies this, storage
      ensures Valid() && (storage == old(storage) || fresh(storage))
      ensures Contents() == old(Contents())
      ensures LayoutOf() == AfterEnsure(old(LayoutOf()), len)
    {
      if (storage.Length - writerIndex) + readerIndex < len + CHEAP_PREPEND {
        Resize(writerIndex + len);
      } else {
        var readable := writerIndex - readerIndex;
        SlideDown(readable);
        readerIndex := CHEAP_PREPEND;
        writerIndex := readerIndex + readable;
      }
    }

    /** `buffer_.resize(size)`, which here always enlarges: the old bytes stay
        where they are and the new ones are zero. */
    method Resize(size: nat)
      requires Valid() && storage.Length <= size
      modifies this`storage
      ensures Valid() && fresh(storage)
      ensures Contents() == old(Contents())
      ensures LayoutOf() == old(LayoutOf()).(size := size)
    {
      var bigger := new byte[size](_ => 0);
      CopyInto(bigger, 0, storage[..]);
      assert bigger[readerIndex..writerIndex] == bigger[..][readerIndex..writerIndex];
      storage := bigger;
    }

    /** The overlapping forward `std::copy` of the compaction branch. It may only
        be used to move the content down. */
    method SlideDown(readable: nat)
      requires Valid() && readable == writerIndex - readerIndex
      requires readerIndex > CHEAP_PREPEND
      modifies storage
      ensures storage[CHEAP_PREPEND..CHEAP_PREPEND + readable] == old(storage[readerIndex..writerIndex])
    {
      for i := 0 to readable
        invariant storage[CHEAP_PREPEND..CHEAP_PREPEND + i] == old(storage[readerIndex..readerIndex + i])
        invariant forall k :: CHEAP_PREPEND + i <= k < storage.Length ==> storage[k] == old(storage[k])
      {
        storage[CHEAP_PREPEND + i] := storage[readerIndex + i];
      }
    }

    method Append(data: Stream)
      requires Valid()
      modifies this, storage
      ensures Valid() && (storage == old(storage) || fresh(storage))
      ensures Contents() == old(Contents()) + data
      ensures LayoutOf() == AfterAppend(old(LayoutOf()), |data|)
    {
      EnsureWritableBytes(|data|);
      WriteTail(data);
    }

    /** Copies `data` behind the content and moves the writer index over it. */
    method WriteTail(data: Stream)
      requires Valid() && |data| <= storage.Length - writerIndex
      modifies this, storage
      ensures Valid() && storage == old(storage)
      ensures Contents() == old(Contents()) + data
      ensures LayoutOf() == old(LayoutOf()).(writer := old(writerIndex) + |data|)
    {
      ghost var before := storage[..];
      CopyInto(storage, writerIndex, data);
      assert storage[..writerIndex] == storage[..][..writerIndex] == before[..writerIndex];
      assert storage[writerIndex..writerIndex + |data|] == storage[..][writerIndex..writerIndex + |data|] == data;
      assert storage[readerIndex..writerIndex + |data|]
          == storage[..writerIndex][readerIndex..] + storage[writerIndex..writerIndex + |data|];
      writerIndex := writerIndex + |data|;
    }

    /** `readFd`: `readv` fills the tail first and the stack block after it. */
    method ReadFd(outcome: ReadOutcome) returns (n: int, savedErrno: Option<Errno>)
      requires Valid()
      requires outcome.Delivered? ==> |outcome.bytes| <= LayoutOf().Offered()
      modifies this, storage
      ensures Valid() && (storage == old(storage) || fresh(storage))
      ensures outcome.Failed? ==>
                && n == -1 && savedErrno == Some(outcome.errno)
                && Contents() == old(Contents()) && LayoutOf() == old(LayoutOf())
      ensures outcome.Delivered? ==>
                && n == |outcome.bytes| && savedErrno == None
                && Contents() == old(Contents()) + outcome.bytes
                && LayoutOf() == AfterRead(old(LayoutOf()), |outcome.bytes|)
    {
      savedErrno := None;
      match outcome
      case Failed(errno) =>
        n := -1;
        savedErrno := Some(errno);
      case Delivered(bytes) =>
        n := |bytes|;
        if |bytes| <= storage.Length - writerIndex {
          WriteTail(bytes);
        } else {
          ReadThrough(bytes);
        }
    }

    /** The overflow branch of `readFd`: `readv` has filled the tail and put the
        remaining bytes into the stack block, from where they are appended. */
    method ReadThrough(bytes: Stream)
      requires Valid()
      requires 0 <= storage.Length - writerIndex < |bytes| <= LayoutOf().Offered()
      modifies this, storage
      ensures Valid() && (storage == old(storage) || fresh(storage))
      ensures Contents() == old(Contents()) + bytes
      ensures LayoutOf() == AfterRead(old(LayoutOf()), |bytes|)
    {
      hide AfterAppend, AfterEnsure;
      var writable := storage.Length - writerIndex;
      var head, spill := bytes[..writable], bytes[writable..];
      assert bytes == head + spill;
      ghost var was := Contents();
      var extra := StackBlock(spill);
      WriteTail(head);
      assert Contents() == was + head && writerIndex == storage.Length;
      Append(extra[..|spill|]);
      assert was + head + spill == was + bytes;
    }

    /** `writeFd`: the kernel is offered exactly the content and takes a prefix
        of it; the buffer itself is left alone. */
    method WriteFd(outcome: WriteOutcome) returns (n: int, savedErrno: Option<Errno>)
      requires Valid()
      ensures outcome.Refuses? ==> n == -1 && savedErrno == Some(outcome.errno)
      ensures outcome.Accepts? ==> n == Min(outcome.room, |Contents()|) && savedErrno == None
    {
      match outcome
      case Refuses(errno) => n, savedErrno := -1, Some(errno);
      case Accepts(room) => n, savedErrno := Min(room, writerIndex - readerIndex), None;
    }
  }
}
