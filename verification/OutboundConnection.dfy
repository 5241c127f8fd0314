/** The relays of the server's outgoing connection, and the close that sends one ShutdownBoth. */
module OutboundConnection {
  import opened Bytes
  import opened Blocks
  import opened RecordConn
  import opened Sending

  predicate EndsAll(b: Block) {
    b.typ == TYPE_DISCONNECT && b.data == [SHUTDOWN_BOTH]
  }

  /** A disconnect block that ends the writing. */
  predicate Closes(b: Block) {
    b.typ == TYPE_DISCONNECT && |b.data| > 0 && b.data[0] != SHUTDOWN_READ
  }

  /** From (closed, issued) to (closed', issued'): nothing, or closed is set and one ShutdownBoth is sent. */
  ghost predicate ShutOnce(closed: bool, issued: seq<Block>, closed': bool, issued': seq<Block>) {
    || (closed' == closed && issued' == issued)
    || (!closed && closed' && |issued'| == |issued| + 1 && issued <= issued' && EndsAll(issued'[|issued|]))
  }

  lemma ShutOnceTransitive(c: bool, i: seq<Block>, c': bool, i': seq<Block>, c'': bool, i'': seq<Block>)
    requires ShutOnce(c, i, c', i') && ShutOnce(c', i', c'', i'')
    ensures ShutOnce(c, i, c'', i'')
  {
  }

  /** What a read of the dialled connection comes back with; Ended is an end of file or an error. */
  datatype ReadResult = Got(data: seq<byte>) | TimedOut | Ended

  function DataRead(results: seq<ReadResult>): seq<byte> {
    if results == [] then []
    else
      var r := results[|results| - 1];
      DataRead(results[..|results| - 1]) + if r.Got? then r.data else []
  }

  lemma DataReadNext(results: seq<ReadResult>, i: nat)
    requires i < |results|
    ensures DataRead(results[..i + 1]) == DataRead(results[..i]) + if results[i].Got? then results[i].data else []
  {
    assert results[..i + 1][..i] == results[..i];
  }

  /** The next read brings data. */
  predicate Brings(results: seq<ReadResult>, i: nat) {
    i < |results| && results[i].Got? && results[i].data != []
  }

  predicate AllFitIn(results: seq<ReadResult>, size: nat) {
    forall i :: 0 <= i < |results| && results[i].Got? ==> |results[i].data| <= size
  }

  /** Nothing interferes: no other goroutine, no disconnect block, and a connection that does not err. */
  ghost predicate Undisturbed(queue: seq<Block>, alone: bool, ctxDone: bool, sound: bool) {
    && alone && !ctxDone && sound
    && (forall i :: 0 <= i < |queue| ==> queue[i].typ != TYPE_DISCONNECT)
  }

  class Connection {
    const base: BaseConnection
    const conn: Link          // the dialled TCP connection, as SendRelay writes to it
    var ctxDone: bool

    ghost predicate Valid()
      reads this, base, base.sendBlockID, base.sendQueue, base.owned
    {
      base.Valid()
    }

    constructor (connectionID: uint32, conn: Link)
      ensures Valid() && fresh(base) && fresh(base.sendBlockID) && this.conn == conn && !ctxDone && !base.closed
      ensures base.issued == [] && base.written == [] && base.owned == {} && base.connectionID == connectionID
    {
      base := new BaseConnection(connectionID);
      this.conn := conn;
      ctxDone := false;
    }

    /** Whoever finds closed unset sends the one ShutdownBoth. */
    method CloseThenCancelWithOnceSend()
      requires Valid()
      modifies this, conn, base, base.sendBlockID
      ensures Valid() && ctxDone && base.closed && conn.closed && conn.wire == old(conn.wire)
      ensures ShutOnce(old(base.closed), old(base.issued), base.closed, base.issued)
      ensures base.written == old(base.written) && base.Grew()
    {
      conn.Close();
      ctxDone := true;
      if !base.closed {
        base.closed := true;
        ghost var _ := base.SendDisconnect(SHUTDOWN_BOTH);
      }
    }

    method CloseThenCancel()
      modifies this, conn
      ensures ctxDone && conn.closed && conn.wire == old(conn.wire)
    {
      conn.Close();
      ctxDone := true;
    }

    // -------------------------------------------------------------- SendRelay

    /** Once the wire lags behind the blocks taken, nothing more can be written. */
    ghost predicate Relaying(queue: seq<Block>, taken: nat)
      reads conn
    {
      && taken <= |queue| && conn.wire <= DataOf(queue[..taken])
      && (conn.wire == DataOf(queue[..taken]) || conn.closed)
    }

    /** Act on one block; a failed write closes the connection, and so does a disconnect block of the right kind. */
    method SendBlock(b: Block) returns (errs: bool)
      requires Valid() && (b.typ == TYPE_DISCONNECT ==> |b.data| > 0)
      modifies this, conn, base, base.sendBlockID
      ensures Valid() && ShutOnce(old(base.closed), old(base.issued), base.closed, base.issued)
      ensures old(conn.wire) <= conn.wire <= old(conn.wire) + Payload(b)
      ensures errs ==> b.typ == TYPE_DATA && conn.closed && base.closed
      ensures !errs ==> conn.wire == old(conn.wire) + Payload(b)
      ensures !errs ==> base.closed == old(base.closed) && base.issued == old(base.issued)
      ensures !errs ==> conn.closed == (old(conn.closed) || Closes(b))
      ensures old(conn.closed) ==> conn.wire == old(conn.wire) && (b.typ == TYPE_DATA ==> errs)
      ensures b.typ != TYPE_DISCONNECT && conn.reliable && !old(conn.closed) ==> !errs && ctxDone == old(ctxDone)
    {
      errs := false;
      if b.typ == TYPE_DATA {
        var n, ok := conn.Write(b.data);
        if !ok {
          errs := true;
          CloseThenCancelWithOnceSend();
        }
      } else if b.typ == TYPE_DISCONNECT {
        if b.data[0] == SHUTDOWN_READ {
        } else if b.data[0] == SHUTDOWN_WRITE {
          conn.Close();
        } else {
          CloseThenCancel();
        }
      }
    }

    /** What other goroutines may do meanwhile. */
    method Others()
      requires Valid()
      modifies this, conn, base, base.sendBlockID
      ensures Valid() && ShutOnce(old(base.closed), old(base.issued), base.closed, base.issued)
      ensures conn.wire == old(conn.wire) && (old(conn.closed) ==> conn.closed)
    {
      if * {
        ctxDone := true;
      } else if * {
        CloseThenCancelWithOnceSend();
      }
    }

    /** The top of the loop: whether the relay leaves, having perhaps closed the connection. */
    method LeaveSendRelay(alone: bool) returns (done: bool)
      requires Valid()
      modifies this, conn, base, base.sendBlockID
      ensures Valid() && ShutOnce(old(base.closed), old(base.issued), base.closed, base.issued)
      ensures conn.wire == old(conn.wire) && (old(conn.closed) ==> conn.closed)
      ensures alone && !old(ctxDone) ==> !done && !ctxDone && conn.closed == old(conn.closed)
    {
      ghost var c, i := base.closed, base.issued;
      if !alone {
        Others();
      }
      done := false;
      if ctxDone {
        done := *;
      }
      if done {
        if * {
          ghost var c', i' := base.closed, base.issued;
          CloseThenCancelWithOnceSend();
          ShutOnceTransitive(c, i, c', i', base.closed, base.issued);
        }
      }
    }

    /**
     * The relay writes payloads in order. Unless it runs alone, other goroutines may cancel its context or
     * close the connection between any two steps; whatever fails or closes, the far side gets a prefix,
     * and at most one ShutdownBoth is sent.
     */
    method SendRelay(queue: seq<Block>, alone: bool) returns (taken: nat)
      requires forall i :: 0 <= i < |queue| && queue[i].typ == TYPE_DISCONNECT ==> |queue[i].data| > 0
      requires Valid() && conn.wire == []
      modifies this, conn, base, base.sendBlockID
      ensures Valid() && taken <= |queue| && conn.wire <= DataOf(queue[..taken])
      ensures ShutOnce(old(base.closed), old(base.issued), base.closed, base.issued)
      ensures Undisturbed(queue, alone, old(ctxDone), conn.reliable && !old(conn.closed)) ==>
                taken == |queue| && conn.wire == DataOf(queue)
    {
      taken := 0;
      ghost var closed, issued := base.closed, base.issued;
      ghost var calm := Undisturbed(queue, alone, ctxDone, conn.reliable && !conn.closed);
      assert queue[..0] == [];
      while taken < |queue|
        invariant Sending(queue, taken, closed, issued, calm)
      {
        var done := SendNext(queue, taken, alone, closed, issued, calm);
        if done {
          return;
        }
        taken := taken + 1;
      }
      assert queue[..taken] == queue;
    }

    /** The loop of SendRelay; closed and issued are what they were at the start, calm that nothing interferes. */
    ghost predicate Sending(queue: seq<Block>, taken: nat, closed: bool, issued: seq<Block>, calm: bool)
      reads this, conn, base, base.sendBlockID, base.sendQueue, base.owned
    {
      && Valid() && Relaying(queue, taken) && ShutOnce(closed, issued, base.closed, base.issued)
      && (calm ==> !ctxDone && conn.wire == DataOf(queue[..taken]) && !conn.closed && conn.reliable)
    }

    method SendNext(queue: seq<Block>, taken: nat, alone: bool,
                    ghost closed: bool, ghost issued: seq<Block>, ghost calm: bool)
        returns (done: bool)
      requires Sending(queue, taken, closed, issued, calm) && taken < |queue|
      requires (queue[taken].typ == TYPE_DISCONNECT ==> |queue[taken].data| > 0)
      requires calm ==> alone && queue[taken].typ != TYPE_DISCONNECT
      modifies this, conn, base, base.sendBlockID
      ensures Sending(queue, if done then taken else taken + 1, closed, issued, calm) && (calm ==> !done)
    {
      ghost var c, i := base.closed, base.issued;
      done := LeaveSendRelay(alone);
      ShutOnceTransitive(closed, issued, c, i, base.closed, base.issued);
      if !done {
        DataOfNext(queue, taken);
        c, i := base.closed, base.issued;
        var _ := SendBlock(queue[taken]);
        ShutOnceTransitive(closed, issued, c, i, base.closed, base.issued);
      }
    }

    // -------------------------------------------------------------- RecvRelay

    /** All that came in with the results taken, and nothing else, has been sent on. */
    ghost predicate Relayed(results: seq<ReadResult>, taken: nat, buffer: array<byte>, before: seq<byte>)
      reads this, base, base.sendBlockID, base.sendQueue, base.owned
    {
      && taken <= |results| && AllFitIn(results, buffer.Length) && Valid() && buffer !in base.owned
      && base.written == before + DataRead(results[..taken])
    }

    /** One read into the buffer that all reads share. */
    method RelayOne(results: seq<ReadResult>, taken: nat, buffer: array<byte>, ghost before: seq<byte>)
      requires Relayed(results, taken, buffer, before) && taken < |results|
      modifies base`sendQueue, base`owned, base`issued, base`written, base.sendBlockID, buffer
      ensures Relayed(results, taken + 1, buffer, before)
    {
      DataReadNext(results, taken);
      ghost var owned := base.owned;
      if results[taken].Got? {
        Load(buffer, results[taken].data);
        base.SendData(buffer, |results[taken].data|);
        assert buffer !in base.owned - owned;
        Associative(before, DataRead(results[..taken]), results[taken].data);
      }
    }

    /** After cancellation: up to five more reads, as long as they bring data. */
    method DrainFive(results: seq<ReadResult>, from: nat, buffer: array<byte>, ghost before: seq<byte>)
        returns (taken: nat)
      requires Relayed(results, from, buffer, before)
      modifies base`sendQueue, base`owned, base`issued, base`written, base.sendBlockID, buffer
      ensures from <= taken <= from + 5 && Relayed(results, taken, buffer, before)
    {
      taken := from;
      var more := Brings(results, taken);
      while taken < from + 5 && more
        invariant from <= taken <= from + 5 && Relayed(results, taken, buffer, before) && more == Brings(results, taken)
      {
        RelayOne(results, taken, buffer, before);
        taken := taken + 1;
        more := Brings(results, taken);
      }
    }

    /** The relay has seen the end, and a ShutdownBoth has been sent unless that had happened before. */
    ghost predicate EndSent(before: bool)
      reads this, base
    {
      ctxDone && base.closed && (before || (base.issued != [] && EndsAll(base.issued[|base.issued| - 1])))
    }

    /** One round: a read, and what follows when it ends the connection or finds the context cancelled. */
    method RelayRound(results: seq<ReadResult>, from: nat, buffer: array<byte>, alone: bool, ghost before: seq<byte>)
        returns (taken: nat, stop: bool)
      requires Relayed(results, from, buffer, before) && from < |results|
      modifies this, conn, base, base.sendBlockID, buffer
      ensures Relayed(results, taken, buffer, before) && from < taken
      ensures alone && !old(ctxDone) ==> taken == from + 1 && (stop <==> results[from] == Ended)
      ensures alone && !old(ctxDone) && stop ==> EndSent(old(base.closed))
      ensures !stop ==> base.closed == old(base.closed) && ctxDone == old(ctxDone)
    {
      RelayOne(results, from, buffer, before);
      taken, stop := from + 1, false;
      if results[from] == Ended {
        ghost var owned := base.owned;
        CloseThenCancelWithOnceSend();
        assert buffer !in base.owned - owned;
        return taken, true;
      }
      var cancelled := ctxDone;
      if !alone {
        cancelled := *;
      }
      if cancelled {
        taken := DrainFive(results, taken, buffer, before);
        stop := true;
      }
    }

    /** Where the loop stands; calm says that nothing has interfered, closed what it was at the start. */
    ghost predicate Looping(results: seq<ReadResult>, taken: nat, ended: bool, buffer: array<byte>,
                            before: seq<byte>, closed: bool, calm: bool)
      reads this, base, base.sendBlockID, base.sendQueue, base.owned
    {
      && Relayed(results, taken, buffer, before)
      && (calm ==> ReadSoFar(results, taken, ended))
      && (calm ==> if ended then EndSent(closed) else !ctxDone && base.closed == closed)
    }

    method LoopRound(results: seq<ReadResult>, from: nat, buffer: array<byte>, alone: bool,
                     ghost before: seq<byte>, ghost closed: bool, ghost calm: bool)
        returns (taken: nat, ended: bool)
      requires Looping(results, from, false, buffer, before, closed, calm) && from < |results| && (calm ==> alone)
      modifies this, conn, base, base.sendBlockID, buffer
      ensures Looping(results, taken, ended, buffer, before, closed, calm) && from < taken
    {
      taken, ended := RelayRound(results, from, buffer, alone, before);
      if calm {
        ReadSoFarNext(results, from, taken, ended);
      }
    }

    /**
     * The bytes sent on are exactly those of the reads taken, in order, although every read lands in the one
     * receive buffer. Left alone the relay takes every read up to the end, and then shuts down once.
     */
    method RecvRelay(results: seq<ReadResult>, size: nat, alone: bool) returns (taken: nat, ended: bool)
      requires Valid() && AllFitIn(results, size)
      modifies this, conn, base, base.sendBlockID
      ensures Valid() && taken <= |results| && base.written == old(base.written) + DataRead(results[..taken])
      ensures alone && !old(ctxDone) ==> ReadToEnd(results, taken, ended) && (ended ==> EndSent(old(base.closed)))
    {
      var recvBuffer := new byte[size];
      taken, ended := 0, false;
      ghost var before, closed, calm := base.written, base.closed, alone && !ctxDone;
      assert DataRead(results[..0]) == [];
      var leave := ctxDone;
      while taken < |results| && !ended && !leave
        invariant Looping(results, taken, ended, recvBuffer, before, closed, calm) && (calm ==> !leave)
        decreases |results| - taken, !leave
      {
        if !alone {
          leave := *;
        }
        if !leave {
          taken, ended := LoopRound(results, taken, recvBuffer, alone, before, closed, calm);
        }
      }
    }
  }

  /** No Ended before the last of the results taken, and that one is Ended if ended says so. */
  ghost predicate ReadSoFar(results: seq<ReadResult>, taken: nat, ended: bool) {
    && taken <= |results| && (forall i :: 0 <= i < taken - 1 ==> results[i] != Ended)
    && (ended <==> taken > 0 && results[taken - 1] == Ended)
  }

  lemma ReadSoFarNext(results: seq<ReadResult>, from: nat, taken: nat, ended: bool)
    requires ReadSoFar(results, from, false) && from < |results| && taken == from + 1
    requires ended <==> results[from] == Ended
    ensures ReadSoFar(results, taken, ended)
  {
  }

  /** The first Ended among the results, if there is one, was the last one taken. */
  ghost predicate ReadToEnd(results: seq<ReadResult>, taken: nat, ended: bool) {
    ReadSoFar(results, taken, ended) && (!ended ==> taken == |results|)
  }

  lemma DataOfNext(queue: seq<Block>, i: nat)
    requires i < |queue|
    ensures DataOf(queue[..i + 1]) == DataOf(queue[..i]) + Payload(queue[i])
  {
    assert queue[..i + 1] == queue[..i] + [queue[i]];
    DataOfPush(queue[..i], queue[i]);
  }
}
