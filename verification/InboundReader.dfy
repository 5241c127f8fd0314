/** The reading half of an InboundConnection: ordered blocks become reads of arbitrary sizes. */
module InboundReader {
  import opened Bytes
  import opened Blocks

  /** copy(dst[at..], data), where there is room for all of it. */
  method CopyTo(dst: array<byte>, at: nat, data: seq<byte>)
    requires at + |data| <= dst.Length
    modifies dst
    ensures dst[at..at + |data|] == data
    ensures dst[..at] == old(dst[..at]) && dst[at + |data|..] == old(dst[at + |data|..])
  {
    forall i | 0 <= i < |data| {
      dst[at + i] := data[i];
    }
  }

  /** An overwrite-style buffer: OverWrite discards whatever was unread. */
  class ByteRingBuffer {
    var buffer: array<byte>
    var head: nat
    var tail: nat

    ghost predicate Valid()
      reads this
    {
      head <= tail <= buffer.Length
    }

    ghost function Unread(): seq<byte>
      requires Valid()
      reads this, buffer
    {
      buffer[head..tail]
    }

    constructor (size: nat)
      ensures Valid() && Unread() == [] && fresh(buffer)
    {
      buffer := new byte[size];
      head, tail := 0, 0;
    }

    method OverWrite(data: seq<byte>)
      requires Valid()
      modifies this, buffer
      ensures Valid() && Unread() == data
      ensures buffer == old(buffer) || fresh(buffer)
    {
      if buffer.Length < |data| {
        buffer := new byte[|data|];
      }
      CopyTo(buffer, 0, data);
      head, tail := 0, |data|;
    }

    /** Move up to |dst| - at unread bytes to dst[at..]. */
    method Read(dst: array<byte>, at: nat) returns (n: nat)
      requires Valid() && at <= dst.Length && dst != buffer
      modifies this, dst
      ensures Valid() && buffer == old(buffer)
      ensures n == if dst.Length - at < |old(Unread())| then dst.Length - at else |old(Unread())|
      ensures dst[at..at + n] == old(Unread()[..n]) && Unread() == old(Unread()[n..])
      ensures dst[..at] == old(dst[..at]) && dst[at + n..] == old(dst[at + n..])
    {
      n := dst.Length - at;
      if n > tail - head {
        n := tail - head;
      }
      SliceParts(buffer, head, tail, n);
      CopyTo(dst, at, buffer[head..head + n]);
      head := head + n;
    }

    predicate Empty()
      reads this
    {
      tail - head == 0
    }
  }

  // ---------------------------------------------------------------- control blocks

  /** A constructor-built Disconnect block carries its shutdown type in one byte. */
  predicate Readable(b: Block) {
    b.typ == TYPE_DISCONNECT ==> |b.data| > 0
  }

  predicate AllReadable(bs: seq<Block>) {
    forall i :: 0 <= i < |bs| ==> Readable(bs[i])
  }

  predicate Shuts(b: Block, kind: byte) {
    b.typ == TYPE_DISCONNECT && |b.data| > 0 && b.data[0] == kind
  }

  /** The peer will send no more data after this block. */
  predicate EndsData(b: Block) {
    Shuts(b, SHUTDOWN_BOTH) || Shuts(b, SHUTDOWN_WRITE)
  }

  predicate Shut(bs: seq<Block>, kind: byte) {
    bs != [] && (Shut(bs[..|bs| - 1], kind) || Shuts(bs[|bs| - 1], kind))
  }

  lemma ShutPush(bs: seq<Block>, b: Block, kind: byte)
    ensures Shut(bs + [b], kind) <==> Shut(bs, kind) || Shuts(b, kind)
  {
    assert (bs + [b])[..|bs|] == bs;
  }

  lemma {:induction false} ShutAt(bs: seq<Block>, kind: byte) returns (i: nat)
    requires Shut(bs, kind)
    ensures i < |bs| && Shuts(bs[i], kind)
  {
    i := |bs| - 1;
    if !Shuts(bs[i], kind) {
      i := ShutAt(bs[..i], kind);
    }
  }

  /** Some block among bs ends the peer's data. */
  lemma EndsAt(bs: seq<Block>) returns (i: nat)
    requires Shut(bs, SHUTDOWN_BOTH) || Shut(bs, SHUTDOWN_WRITE)
    ensures i < |bs| && EndsData(bs[i])
  {
    i := ShutAt(bs, if Shut(bs, SHUTDOWN_BOTH) then SHUTDOWN_BOTH else SHUTDOWN_WRITE);
  }

  // ---------------------------------------------------------------- the reader

  /** From n on the buffer is as it was. */
  twostate predicate TailKept(b: array<byte>, n: nat)
    reads b
  {
    forall i :: n <= i < b.Length ==> b[i] == old(b[i])
  }

  // Blocked: the call has not returned, since nothing more will ever come.
  datatype Status = Done | EndOfFile | Blocked

  /** The flags say which shutdowns are among the blocks consumed. */
  ghost predicate FlagsSay(consumed: seq<Block>, closed: bool, readClosed: bool, writeClosed: bool) {
    && closed == Shut(consumed, SHUTDOWN_BOTH)
    && readClosed == Shut(consumed, SHUTDOWN_WRITE)
    && writeClosed == Shut(consumed, SHUTDOWN_READ)
  }

  ghost predicate Queued(stream: seq<Block>, consumed: seq<Block>, queue: seq<Block>, future: seq<Block>) {
    AllReadable(stream) && consumed + queue + future == stream
  }

  lemma HeadQueued(stream: seq<Block>, consumed: seq<Block>, queue: seq<Block>, future: seq<Block>)
    requires Queued(stream, consumed, queue, future) && queue != []
    ensures Readable(queue[0]) && Queued(stream, consumed + [queue[0]], queue[1..], future)
  {
    assert stream[|consumed|] == queue[0];
    assert queue == [queue[0]] + queue[1..];
    Associative(consumed, [queue[0]], queue[1..]);
  }

  class InboundConnection {
    const ring: ByteRingBuffer
    var closed: bool
    var readClosed: bool
    var writeClosed: bool
    var queue: seq<Block>    // orderedRecvQueue: what is ready now
    var future: seq<Block>   // what the relay will put there later
    ghost const stream: seq<Block>   // every block ever handed to this reader, in order
    ghost var consumed: seq<Block>
    ghost var returned: seq<byte>

    ghost predicate Base()
      reads this, ring
    {
      && ring.Valid() && FlagsSay(consumed, closed, readClosed, writeClosed)
      && Queued(stream, consumed, queue, future)
    }

    /** Nothing is lost: what was returned and what is buffered is what was consumed. */
    ghost predicate Valid()
      reads this, ring, ring.buffer
    {
      Base() && returned + ring.Unread() == DataOf(consumed)
    }

    constructor (blocks: seq<Block>)
      requires AllReadable(blocks)
      ensures Valid() && stream == blocks && returned == [] && fresh(ring) && fresh(ring.buffer)
    {
      ring := new ByteRingBuffer(HEADER_SIZE + DATA_SIZE);
      closed, readClosed, writeClosed := false, false, false;
      queue, future := [], blocks;
      stream := blocks;
      consumed, returned := [], [];
    }

    /** The relay runs beside the reader: any number of blocks may become ready. */
    method Interfere()
      requires Base()
      modifies `queue, `future
      ensures Base() && queue + future == old(queue + future) && |future| <= |old(future)|
    {
      ghost var was := queue + future;
      var k: nat :| k <= |future|;
      queue, future := queue + future[..k], future[k..];
      assert queue + future == was;
      Associative(consumed, queue, future);
      Associative(consumed, old(queue), old(future));
    }

    /** Each shutdown sets its flag; two of them end the data. */
    method NoteShutdown(blk: Block) returns (eof: bool)
      requires Readable(blk) && FlagsSay(consumed, closed, readClosed, writeClosed)
      modifies `closed, `readClosed, `writeClosed
      ensures FlagsSay(consumed + [blk], closed, readClosed, writeClosed)
      ensures (eof <==> EndsData(blk)) && (eof || old(closed || readClosed) ==> closed || readClosed)
    {
      ShutPush(consumed, blk, SHUTDOWN_BOTH);
      ShutPush(consumed, blk, SHUTDOWN_WRITE);
      ShutPush(consumed, blk, SHUTDOWN_READ);
      eof := false;
      if blk.typ == TYPE_DISCONNECT {
        if blk.data[0] == SHUTDOWN_BOTH {
          closed := true;
          eof := true;
        } else if blk.data[0] == SHUTDOWN_WRITE {
          readClosed := true;
          eof := true;
        } else if blk.data[0] == SHUTDOWN_READ {
          writeClosed := true;
        }
      }
    }

    /** Receive the head of the queue. */
    method TakeHead() returns (blk: Block, eof: bool)
      requires Base() && queue != []
      modifies `queue, `consumed, `closed, `readClosed, `writeClosed
      ensures Base() && blk == old(queue[0])
      ensures queue == old(queue[1..]) && consumed == old(consumed + [queue[0]])
      ensures (eof <==> EndsData(blk)) && (eof || old(closed || readClosed) ==> closed || readClosed)
    {
      blk := queue[0];
      HeadQueued(stream, consumed, queue, future);
      eof := NoteShutdown(blk);
      queue, consumed := queue[1..], consumed + [blk];
    }

    /** Take the head of the queue and copy it into b from readN on, spilling what does not fit. */
    method ReadBlock(b: array<byte>, readN: nat) returns (readN': nat, eof: bool)
      requires Base() && ring.Unread() == [] && queue != []
      requires readN <= b.Length && b != ring.buffer
      modifies this, ring, ring.buffer, b
      ensures Base() && (ring.buffer == old(ring.buffer) || fresh(ring.buffer))
      ensures queue == old(queue[1..]) && future == old(future) && consumed == old(consumed + [queue[0]])
      ensures returned == old(returned)
      ensures readN <= readN' <= b.Length
      ensures b[readN..readN'] + ring.Unread() == Payload(old(queue[0]))
      ensures b[..readN] == old(b[..readN]) && TailKept(b, readN')
      ensures ring.Unread() != [] ==> readN' == b.Length
      ensures eof <==> EndsData(old(queue[0]))
      ensures eof ==> (closed || readClosed) && ring.Unread() == []
      ensures old(closed || readClosed) ==> closed || readClosed
    {
      var blk;
      blk, eof := TakeHead();
      readN' := readN;
      if blk.typ == TYPE_DATA {
        readN' := CopyData(blk.data, b, readN);
      }
    }

    /** OverWrite is reached only with the buffer drained, so it discards nothing. */
    method CopyData(data: seq<byte>, b: array<byte>, readN: nat) returns (readN': nat)
      requires ring.Valid() && ring.Unread() == [] && readN <= b.Length && b != ring.buffer
      modifies ring, ring.buffer, b
      ensures ring.Valid() && (ring.buffer == old(ring.buffer) || fresh(ring.buffer))
      ensures readN <= readN' <= b.Length
      ensures b[readN..readN'] + ring.Unread() == data
      ensures b[..readN] == old(b[..readN]) && TailKept(b, readN')
      ensures ring.Unread() != [] ==> readN' == b.Length
    {
      if b.Length - readN < |data| {
        ring.OverWrite(data);
        var n := ring.Read(b, readN);
        return readN + n;
      }
      CopyTo(b, readN, data);
      assert ring.Unread() == [];
      return readN + |data|;
    }

    /** ReadBlock, keeping account: b[..readN'] and the spill extend what has been gathered by the payload. */
    method Gather(b: array<byte>, readN: nat, ghost before: seq<byte>) returns (readN': nat, eof: bool)
      requires Base() && ring.Unread() == [] && queue != []
      requires readN <= b.Length && b != ring.buffer
      requires before + b[..readN] == DataOf(consumed)
      modifies this, ring, ring.buffer, b
      ensures Base() && (ring.buffer == old(ring.buffer) || fresh(ring.buffer))
      ensures queue == old(queue[1..]) && future == old(future) && consumed == old(consumed + [queue[0]])
      ensures returned == old(returned)
      ensures readN <= readN' <= b.Length
      ensures before + b[..readN'] + ring.Unread() == DataOf(consumed)
      ensures TailKept(b, readN')
      ensures readN' < b.Length ==> ring.Unread() == []
      ensures eof <==> EndsData(consumed[|consumed| - 1])
      ensures eof ==> (closed || readClosed) && ring.Unread() == []
      ensures old(closed || readClosed) ==> closed || readClosed
      ensures |old(consumed)| <= |consumed| && |future| <= |old(future)|
    {
      ghost var got, was, blk := b[..readN], consumed, queue[0];
      readN', eof := ReadBlock(b, readN);
      assert consumed[|consumed| - 1] == blk;
      assert b[..readN'] == b[..readN] + b[readN..readN'];
      Extends(before, got, b[..readN'], b[readN..readN'], ring.Unread(), was, blk);
    }

    lemma Extends(before: seq<byte>, got: seq<byte>, all: seq<byte>, more: seq<byte>, spill: seq<byte>,
                  was: seq<Block>, blk: Block)
      requires before + got == DataOf(was) && all == got + more && more + spill == Payload(blk)
      ensures before + all + spill == DataOf(was + [blk])
    {
      DataOfPush(was, blk);
      Associative(before, got, more);
      Associative(before + got, more, spill);
    }

    /** A Read under way returns nothing yet, only ever consumes, and at most replaces the ring's array by a new one. */
    twostate predicate Kept()
      reads this, ring
    {
      && (ring.buffer == old(ring.buffer) || fresh(ring.buffer))
      && returned == old(returned) && |old(consumed)| <= |consumed| && |future| <= |old(future)|
    }

    /** The account kept while a Read is under way: before is what earlier calls returned. */
    ghost predicate Gathered(before: seq<byte>, b: array<byte>, readN: nat)
      reads this, ring, ring.buffer, b
    {
      && Base() && b != ring.buffer && readN <= b.Length
      && before + b[..readN] + ring.Unread() == DataOf(consumed)
      && (ring.Unread() != [] ==> readN == b.Length)
    }

    ghost predicate EndsHere()
      reads this
    {
      consumed != [] && EndsData(consumed[|consumed| - 1])
    }

    /**
     * What a call may report having read n of len bytes: an end only with nothing at hand and, but for a cancelled
     * context, a shutdown seen; fewer bytes than asked for only when no more are ready or the data has ended.
     */
    ghost predicate Outcome(n: nat, len: nat, status: Status, ctxDone: bool)
      requires ring.Valid()
      reads this, ring, ring.buffer
    {
      && (status != Done ==> n == 0 && ring.Unread() == [])
      && (status == EndOfFile && !ctxDone ==> closed || readClosed)
      && (status == Blocked ==> !ctxDone && consumed == stream)
      && (status == Done && n < len && !ctxDone ==> queue == [] || EndsHere())
    }

    /** A shutdown has been seen: take what is ready, then report the end. */
    method ReadClosed(b: array<byte>, n: nat, ghost before: seq<byte>) returns (readN: nat, status: Status)
      requires Gathered(before, b, n) && ring.Unread() == [] && (closed || readClosed)
      modifies this, ring, ring.buffer, b
      ensures Gathered(before, b, readN) && Kept()
      ensures n <= readN && TailKept(b, readN) && (closed || readClosed)
      ensures status != Blocked && (status == Done ==> readN > 0 || b.Length == 0)
      ensures status == EndOfFile ==> readN == 0 && queue == [] && ring.Unread() == []
      ensures readN < b.Length ==> queue == []
    {
      readN := n;
      while true
        invariant Gathered(before, b, readN) && ring.Unread() == []
        invariant closed || readClosed
        invariant n <= readN && TailKept(b, readN)
        invariant Kept()
        decreases |queue| + |future|
      {
        Interfere();
        if queue == [] {
          status := if readN != 0 then Done else EndOfFile;
          return;
        }
        var more, _ := Gather(b, readN, before);
        readN := more;
        if readN == b.Length {
          return readN, Done;
        }
      }
    }

    /** Something has been read or taken: take what is ready and return. */
    method ReadReady(b: array<byte>, n: nat, ctxDone: bool, ghost before: seq<byte>) returns (readN: nat)
      requires Gathered(before, b, n) && ring.Unread() == []
      modifies this, ring, ring.buffer, b
      ensures Gathered(before, b, readN) && Kept()
      ensures n <= readN && TailKept(b, readN)
      ensures Outcome(readN, b.Length, Done, ctxDone)
    {
      readN := n;
      while true
        invariant Gathered(before, b, readN) && ring.Unread() == []
        invariant n <= readN && TailKept(b, readN)
        invariant Kept()
        decreases |queue| + |future|
      {
        Interfere();
        if ctxDone {
          if * {
            return;
          }
        }
        if queue == [] {
          return;
        }
        var eof;
        readN, eof := Gather(b, readN, before);
        if eof || readN == b.Length {
          return;
        }
      }
    }

    /** What an earlier block left over comes first. */
    method ReadBuffered(b: array<byte>) returns (readN: nat, full: bool)
      requires Valid() && b != ring.buffer
      modifies ring, b
      ensures Gathered(returned, b, readN) && ring.buffer == old(ring.buffer)
      ensures TailKept(b, readN)
      ensures full ==> readN == b.Length
      ensures !full ==> ring.Unread() == []
    {
      if ring.Empty() {
        assert b[..0] == [];
        return 0, false;
      }
      ghost var was := ring.Unread();
      readN := ring.Read(b, 0);
      full := readN == b.Length;
      assert b[..readN] == b[0..readN];
      Halves(returned, was, b[..readN], ring.Unread(), readN);
    }

    lemma Halves(before: seq<byte>, was: seq<byte>, x: seq<byte>, y: seq<byte>, n: nat)
      requires n <= |was| && x == was[..n] && y == was[n..]
      ensures before + x + y == before + was
    {
      Associative(before, x, y);
    }

    /** Nothing read yet: wait for one block, or for the context to end. */
    method ReadFirst(b: array<byte>, ctxDone: bool, ghost before: seq<byte>)
        returns (readN: nat, status: Option<Status>)
      requires Gathered(before, b, 0) && ring.Unread() == []
      modifies this, ring, ring.buffer, b
      ensures Gathered(before, b, readN) && Kept()
      ensures TailKept(b, readN)
      ensures status == None ==> ring.Unread() == []
      ensures status.Some? ==> Outcome(readN, b.Length, status.value, ctxDone)
    {
      readN := 0;
      Interfere();
      if ctxDone {
        if * {
          return 0, Some(EndOfFile);
        }
      }
      if queue == [] {
        if future == [] {
          return 0, Some(if ctxDone then EndOfFile else Blocked);
        }
        WaitOne();
      }
      var eof;
      readN, eof := Gather(b, 0, before);
      status := if eof || readN == b.Length then Some(if readN == 0 && eof then EndOfFile else Done) else None;
    }

    method WaitOne()
      requires Base() && queue == [] && future != []
      modifies `queue, `future
      ensures Base() && queue != [] && |future| <= |old(future)|
    {
      assert future == future[..1] + future[1..];
      queue, future := future[..1], future[1..];
      assert consumed + queue + future == consumed + (queue + future);
    }

    /** No shutdown seen: wait only if nothing has been read yet. */
    method ReadOpen(b: array<byte>, n: nat, ctxDone: bool, ghost before: seq<byte>) returns (readN: nat, status: Status)
      requires Gathered(before, b, n) && ring.Unread() == []
      modifies this, ring, ring.buffer, b
      ensures Gathered(before, b, readN) && Kept()
      ensures n <= readN && TailKept(b, readN)
      ensures Outcome(readN, b.Length, status, ctxDone)
    {
      readN, status := n, Done;
      if readN == 0 {
        var first;
        readN, first := ReadFirst(b, ctxDone, before);
        if first.Some? {
          return readN, first.value;
        }
      }
      readN := ReadReady(b, readN, ctxDone, before);
    }

    method ReadInto(b: array<byte>, ctxDone: bool, ghost before: seq<byte>) returns (readN: nat, status: Status)
      requires Valid() && b != ring.buffer && before == returned
      modifies this, ring, ring.buffer, b
      ensures Gathered(before, b, readN) && Kept()
      ensures TailKept(b, readN)
      ensures Outcome(readN, b.Length, status, ctxDone)
    {
      var full;
      readN, full := ReadBuffered(b);
      if full {
        return readN, Done;
      }
      if closed || readClosed {
        readN, status := ReadClosed(b, readN, before);
        return;
      }
      readN, status := ReadOpen(b, readN, ctxDone, before);
    }

    /**
     * Read. ctxDone says whether the read context is cancelled during the call.
     * Bytes come back in order, exactly once; an end of file is reported only after every
     * byte that preceded the peer's shutdown has been returned.
     */
    method Read(b: array<byte>, ctxDone: bool) returns (n: nat, status: Status)
      requires Valid() && b != ring.buffer
      modifies this, ring, ring.buffer, b
      ensures Valid() && (ring.buffer == old(ring.buffer) || fresh(ring.buffer))
      ensures |old(consumed)| <= |consumed| && |future| <= |old(future)|
      ensures n <= b.Length && returned == old(returned) + b[..n] && b[n..] == old(b[n..])
      ensures ring.Unread() != [] ==> n == b.Length
      ensures Outcome(n, b.Length, status, ctxDone) && (status != Done ==> returned == DataOf(consumed))
    {
      n, status := ReadInto(b, ctxDone, returned);
      Account(b, n);
    }

    /** The bytes gathered during a call have now been returned. */
    method Account(b: array<byte>, n: nat)
      requires Gathered(returned, b, n)
      modifies `returned
      ensures Valid() && returned == old(returned) + b[..n]
    {
      returned := returned + b[..n];
    }
  }

  /**
   * Any run of reads on a fresh connection, of any buffer sizes and with the relay running beside it:
   * returned, buffered and still queued bytes always make up all the data, in order; when the run is
   * told of the end, all the data before the block that ended it has been returned.
   */
  method ReadRun(blocks: seq<Block>, sizes: seq<nat>)
      returns (c: InboundConnection, got: seq<byte>, ended: bool)
    requires AllReadable(blocks)
    ensures c.Valid() && got == c.returned
    ensures got + c.ring.Unread() + DataOf(c.queue + c.future) == DataOf(blocks)
    ensures ended ==> exists i :: 0 <= i < |blocks| && EndsData(blocks[i]) && DataOf(blocks[..i]) <= got
  {
    c := new InboundConnection(blocks);
    got, ended := [], false;
    var k := 0;
    while k < |sizes| && !ended
      invariant 0 <= k <= |sizes|
      invariant fresh(c) && fresh(c.ring) && fresh(c.ring.buffer) && c.stream == blocks
      invariant c.Valid() && got == c.returned
      invariant ended ==> (c.closed || c.readClosed) && got == DataOf(c.consumed)
    {
      var b := new byte[sizes[k]];
      var n, status := c.Read(b, false);
      got := got + b[..n];
      ended := status == EndOfFile;
      k := k + 1;
    }
    assert blocks == c.consumed + (c.queue + c.future);
    DataOfConcat(c.consumed, c.queue + c.future);
    if ended {
      ghost var i := EndsAt(c.consumed);
      assert blocks[i] == c.consumed[i] && blocks[..i] == c.consumed[..i];
      DataOfPrefix(c.consumed[..i], c.consumed);
    }
  }
}
