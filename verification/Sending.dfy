/**
 * The sending half of a connection: data, Connect and Disconnect blocks share one id counter, and the
 * queue holds block objects, some of which still alias buffers that belong to the caller.
 */
module Sending {
  import opened Bytes
  import opened Blocks
  import opened BlockObjects

  /** What blk will put on the wire is v. */
  ghost predicate Sends(blk: BlockObject, v: Block)
    reads blk, blk.buffer, blk.packed
  {
    blk.Valid() && if blk.packed == null then blk.View() == v else blk.packed[..] == Encode(v)
  }

  /** The same, and only bytes in owned have a say in it. */
  ghost predicate Holds(blk: BlockObject, v: Block, owned: set<array<byte>>)
    reads blk, owned
  {
    blk.Valid() &&
    if blk.packed == null then
      blk.buffer in owned && blk.View() == v
    else
      blk.packed in owned && blk.packed[..] == Encode(v)
  }

  ghost predicate AllHeld(queue: seq<BlockObject>, vs: seq<Block>, owned: set<array<byte>>)
    reads queue, owned
  {
    |queue| == |vs|
    && forall i {:trigger Holds(queue[i], vs[i], owned)} :: 0 <= i < |vs| ==> Holds(queue[i], vs[i], owned)
  }

  lemma HeldSends(queue: seq<BlockObject>, vs: seq<Block>, owned: set<array<byte>>)
    requires AllHeld(queue, vs, owned)
    ensures forall i :: 0 <= i < |vs| ==> Sends(queue[i], vs[i])
  {
    forall i | 0 <= i < |vs|
      ensures Sends(queue[i], vs[i])
    {
      assert Holds(queue[i], vs[i], owned);
    }
  }

  lemma HeldConcat(q: seq<BlockObject>, vs: seq<Block>, o: set<array<byte>>,
                   q': seq<BlockObject>, vs': seq<Block>, o': set<array<byte>>)
    requires AllHeld(q, vs, o) && AllHeld(q', vs', o')
    ensures AllHeld(q + q', vs + vs', o + o')
  {
    forall i | 0 <= i < |vs + vs'|
      ensures Holds((q + q')[i], (vs + vs')[i], o + o')
    {
      if i < |vs| {
        assert Holds(q[i], vs[i], o);
      } else {
        assert Holds(q'[i - |vs|], vs'[i - |vs|], o');
      }
    }
  }

  ghost function PackedArrays(queue: seq<BlockObject>): (o: set<array<byte>>)
    reads queue
  {
    set i | 0 <= i < |queue| && queue[i].packed != null :: queue[i].packed
  }

  lemma FrozenHeld(queue: seq<BlockObject>, vs: seq<Block>)
    requires AllFrozen(queue, vs)
    ensures AllHeld(queue, vs, PackedArrays(queue))
  {
    forall i | 0 <= i < |vs|
      ensures Holds(queue[i], vs[i], PackedArrays(queue))
    {
      assert Frozen(queue[i], vs[i]);
    }
  }

  /** The blocks issued so far carry the connection's id, consecutive block ids, and the bytes written. */
  ghost predicate InOrder(connectionID: uint32, issued: seq<Block>, next: uint32, written: seq<byte>) {
    && Numbered(issued, 0) && next == |issued| % TWO_32
    && (forall i {:trigger issued[i].connectionID} :: 0 <= i < |issued| ==> issued[i].connectionID == connectionID)
    && DataOf(issued) == written
  }

  lemma InOrderConcat(connectionID: uint32, issued: seq<Block>, next: uint32, written: seq<byte>,
                      vs: seq<Block>, next': uint32, data: seq<byte>)
    requires InOrder(connectionID, issued, next, written) && Numbered(vs, next) && DataOf(vs) == data
    requires (forall i :: 0 <= i < |vs| ==> vs[i].connectionID == connectionID) && next' == (next + |vs|) % TWO_32
    ensures InOrder(connectionID, issued + vs, next', written + data)
  {
    DataOfConcat(issued, vs);
    NumbersOn(issued, next, vs);
  }

  lemma NumbersOn(a: seq<Block>, next: uint32, b: seq<Block>)
    requires Numbered(a, 0) && next == |a| % TWO_32 && Numbered(b, next)
    ensures Numbered(a + b, 0) && (next + |b|) % TWO_32 == |a + b| % TWO_32
  {
    var first: uint32 := 0;
    assert (first + |a|) % TWO_32 == next;
    NumbersConcat(a, b, first);
    assert first + |a + b| == |a + b|;
  }

  class BaseConnection {
    const connectionID: uint32
    const sendBlockID: Counter
    var closed: bool
    var writeClosed: bool
    var stopped: bool
    var sendQueue: seq<BlockObject>
    ghost var owned: set<array<byte>>     // arrays nobody else writes to
    ghost var issued: seq<Block>          // what the queued objects were at their creation
    ghost var written: seq<byte>

    /** No buffer of a caller is read here: overwriting one cannot disturb what is queued. */
    ghost predicate Valid()
      reads this, sendBlockID, sendQueue, owned
    {
      AllHeld(sendQueue, issued, owned) && InOrder(connectionID, issued, sendBlockID.next, written)
    }

    /** Calls only add to the queue, and only objects and arrays of their own making. */
    twostate predicate Grew()
      reads this
    {
      && old(owned) <= owned && fresh(owned - old(owned))
      && old(sendQueue) <= sendQueue && fresh(sendQueue[|old(sendQueue)|..])
      && old(issued) <= issued
    }

    constructor (connectionID: uint32)
      ensures Valid() && fresh(sendBlockID) && issued == [] && written == [] && owned == {} && sendQueue == []
      ensures this.connectionID == connectionID && !closed && !writeClosed && !stopped
    {
      this.connectionID := connectionID;
      sendBlockID := new Counter();
      closed, writeClosed, stopped := false, false, false;
      sendQueue, owned, issued, written := [], {}, [], [];
    }

    method NewControl(id: uint32, typ: byte, data: seq<byte>) returns (blk: BlockObject, ghost v: Block)
      requires typ != TYPE_DATA
      ensures fresh(blk) && fresh(blk.buffer) && AllHeld([blk], [v], {blk.buffer})
      ensures v == Block(typ, connectionID, v.timeStamp, id, |data| % TWO_32, data)
    {
      var buffer := new byte[|data|](i requires 0 <= i < |data| => data[i]);
      assert buffer[0..|data|] == data;
      var now: int64 :| true;
      blk := new BlockObject(typ, connectionID, now, id, buffer, 0, |data|);
      v := blk.View();
    }

    /** The block is made with a buffer of its own and is packed only when it is sent. */
    method PushControl(typ: byte, data: seq<byte>) returns (ghost v: Block)
      requires Valid() && typ != TYPE_DATA
      modifies `sendQueue, `owned, `issued, `written, sendBlockID
      ensures Valid() && Grew()
      ensures issued == old(issued) + [v] && written == old(written)
      ensures v == Block(typ, connectionID, v.timeStamp, |old(issued)| % TWO_32, |data| % TWO_32, data)
    {
      var id := sendBlockID.Take();
      var blk;
      blk, v := NewControl(id, typ, data);
      ControlCarriesNothing(v);
      Enqueue([blk], [v], {blk.buffer}, id, []);
    }

    /** Queue blocks just numbered from first on. */
    method Enqueue(blocks: seq<BlockObject>, ghost vs: seq<Block>, ghost arrays: set<array<byte>>,
                   ghost first: uint32, ghost data: seq<byte>)
      requires AllHeld(sendQueue, issued, owned) && InOrder(connectionID, issued, first, written)
      requires AllHeld(blocks, vs, arrays) && Numbered(vs, first) && DataOf(vs) == data
      requires forall i :: 0 <= i < |vs| ==> vs[i].connectionID == connectionID
      requires sendBlockID.next == (first + |vs|) % TWO_32
      modifies `sendQueue, `owned, `issued, `written
      ensures Valid() && sendQueue == old(sendQueue) + blocks && owned == old(owned) + arrays
      ensures issued == old(issued) + vs && written == old(written) + data
    {
      HeldConcat(sendQueue, issued, owned, blocks, vs, arrays);
      InOrderConcat(connectionID, issued, first, written, vs, sendBlockID.next, data);
      sendQueue, issued, owned, written := sendQueue + blocks, issued + vs, owned + arrays, written + data;
    }

    method SendConnect(address: seq<byte>) returns (ghost now: int64)
      requires Valid()
      modifies `sendQueue, `owned, `issued, `written, sendBlockID
      ensures Valid() && Grew()
      ensures issued == old(issued) + [Build(NewConnect(connectionID, |old(issued)| % TWO_32, address), now)]
      ensures written == old(written)
    {
      ghost var v := PushControl(TYPE_CONNECT, address);
      now := v.timeStamp;
    }

    method SendDisconnect(shutdownType: byte) returns (ghost now: int64)
      requires Valid()
      modifies `sendQueue, `owned, `issued, `written, `stopped, sendBlockID
      ensures Valid() && Grew()
      ensures issued == old(issued) + [Build(NewDisconnect(connectionID, |old(issued)| % TWO_32, shutdownType), now)]
      ensures written == old(written) && stopped == (old(stopped) || shutdownType == SHUTDOWN_BOTH)
    {
      ghost var v := PushControl(TYPE_DISCONNECT, [shutdownType]);
      now := v.timeStamp;
      if shutdownType == SHUTDOWN_BOTH {
        stopped := true;
      }
    }

    /** The bytes b[..n] are cut into blocks; b stays the caller's to overwrite. */
    method SendData(b: array<byte>, n: nat)
      requires Valid() && n <= b.Length
      modifies `sendQueue, `owned, `issued, `written, sendBlockID
      ensures Valid() && Grew() && written == old(written) + b[..n]
      ensures IsChunking(issued[|old(issued)|..], connectionID, |old(issued)| % TWO_32, b[..n])
      ensures AllWellFormed(old(issued)) ==> AllWellFormed(issued)
    {
      ghost var first := sendBlockID.next;
      var blocks, vs, arrays := PackData(b, n);
      Enqueue(blocks, vs, arrays, first, b[..n]);
    }

    /** Write accepts all of b or, once the peer has shut down, nothing. */
    method Write(b: array<byte>, n: nat) returns (accepted: nat, ok: bool)
      requires Valid() && n <= b.Length
      modifies `sendQueue, `owned, `issued, `written, sendBlockID
      ensures Valid() && Grew() && (AllWellFormed(old(issued)) ==> AllWellFormed(issued))
      ensures ok == !(writeClosed || closed) && accepted == (if ok then n else 0)
      ensures written == old(written) + b[..accepted]
      ensures !ok ==> issued == old(issued)
    {
      if writeClosed || closed {
        return 0, false;
      }
      SendData(b, n);
      return n, true;
    }

    method PackData(b: array<byte>, n: nat)
        returns (blocks: seq<BlockObject>, ghost vs: seq<Block>, ghost arrays: set<array<byte>>)
      requires n <= b.Length
      modifies sendBlockID
      ensures fresh(blocks) && fresh(arrays) && AllHeld(blocks, vs, arrays)
      ensures IsChunking(vs, connectionID, old(sendBlockID.next), b[..n])
      ensures sendBlockID.next == (old(sendBlockID.next) + |vs|) % TWO_32
    {
      blocks, vs := NewDataBlocks(connectionID, sendBlockID, b, n);
      FrozenHeld(blocks, vs);
      arrays := PackedArrays(blocks);
    }
  }

  lemma ControlCarriesNothing(v: Block)
    requires v.typ != TYPE_DATA
    ensures DataOf([v]) == []
  {
    assert DataOf([v]) == Payload(v) + DataOf([v][1..]);
  }

  /** packThenSend later packs each object; memoised or not, it sends what was issued. */
  method Transmit(queue: seq<BlockObject>, ghost vs: seq<Block>) returns (wire: seq<byte>)
    requires |queue| == |vs| && forall i :: 0 <= i < |vs| ==> Sends(queue[i], vs[i])
    modifies queue
    ensures wire == Stream(vs)
  {
    wire := [];
    var i := 0;
    assert vs[..0] == [];
    while i < |queue|
      invariant 0 <= i <= |queue|
      invariant forall j :: 0 <= j < |vs| ==> Sends(queue[j], vs[j])
      invariant wire == Stream(vs[..i])
    {
      var p := queue[i].Pack();
      StreamPush(vs[..i], vs[i]);
      assert vs[..i + 1] == vs[..i] + [vs[i]];
      wire := wire + p[..];
      i := i + 1;
    }
    assert vs[..i] == vs;
  }

  datatype SendOp = WriteOp(data: seq<byte>) | ConnectOp(address: seq<byte>) | DisconnectOp(shutdownType: byte)

  /** All that the calls write, one call after the other. */
  function WrittenBy(ops: seq<SendOp>): seq<byte> {
    if ops == [] then []
    else
      var op := ops[|ops| - 1];
      WrittenBy(ops[..|ops| - 1]) + if op.WriteOp? then op.data else []
  }

  predicate AddressFits(op: SendOp) {
    op.ConnectOp? ==> |op.address| < TWO_32
  }

  method Load(buffer: array<byte>, data: seq<byte>)
    requires |data| <= buffer.Length
    modifies buffer
    ensures buffer[..|data|] == data && buffer[|data|..] == old(buffer[|data|..])
  {
    forall i | 0 <= i < |data| {
      buffer[i] := data[i];
    }
  }

  /** One call, on a buffer that every Write reuses. */
  method DoOp(c: BaseConnection, op: SendOp, buffer: array<byte>)
    requires c.Valid() && !c.closed && !c.writeClosed && buffer !in c.owned
    requires op.WriteOp? ==> |op.data| <= buffer.Length
    modifies c`sendQueue, c`owned, c`issued, c`written, c`stopped, c.sendBlockID, buffer
    ensures c.Valid() && c.Grew()
    ensures c.written == old(c.written) + if op.WriteOp? then op.data else []
    ensures AllWellFormed(old(c.issued)) && AddressFits(op) ==> AllWellFormed(c.issued)
  {
    match op {
      case WriteOp(data) =>
        Load(buffer, data);
        var _, _ := c.Write(buffer, |data|);
      case ConnectOp(address) =>
        ghost var id := |c.issued| % TWO_32;
        ghost var now := c.SendConnect(address);
        BuildHonest(NewConnect(c.connectionID, id, address), now);
      case DisconnectOp(shutdownType) =>
        ghost var id := |c.issued| % TWO_32;
        ghost var now := c.SendDisconnect(shutdownType);
        BuildHonest(NewDisconnect(c.connectionID, id, shutdownType), now);
    }
  }

  predicate AllFit(ops: seq<SendOp>, size: nat) {
    forall i :: 0 <= i < |ops| && ops[i].WriteOp? ==> |ops[i].data| <= size
  }

  predicate AddressesFit(ops: seq<SendOp>) {
    forall i :: 0 <= i < |ops| ==> AddressFits(ops[i])
  }

  /** The first i calls have been made. */
  ghost predicate Made(c: BaseConnection, ops: seq<SendOp>, i: nat, buffer: array<byte>)
    reads c, c.sendBlockID, c.sendQueue, c.owned
  {
    && i <= |ops| && AllFit(ops, buffer.Length)
    && c.Valid() && !c.closed && !c.writeClosed && buffer !in c.owned
    && c.written == WrittenBy(ops[..i]) && (AddressesFit(ops) ==> AllWellFormed(c.issued))
  }

  method MakeNext(c: BaseConnection, ops: seq<SendOp>, i: nat, buffer: array<byte>)
    requires Made(c, ops, i, buffer) && i < |ops|
    modifies c`sendQueue, c`owned, c`issued, c`written, c`stopped, c.sendBlockID, buffer
    ensures Made(c, ops, i + 1, buffer)
    ensures forall blk :: blk in c.sendQueue ==> blk in old(c.sendQueue) || fresh(blk)
  {
    ghost var owned, queue := c.owned, c.sendQueue;
    assert ops[..i + 1][..i] == ops[..i];
    DoOp(c, ops[i], buffer);
    assert buffer !in c.owned - owned;
    assert c.sendQueue == queue + c.sendQueue[|queue|..];
  }

  method NewRun(connectionID: uint32, ops: seq<SendOp>, size: nat) returns (c: BaseConnection, buffer: array<byte>)
    requires AllFit(ops, size)
    ensures fresh(c) && fresh(c.sendBlockID) && fresh(buffer) && c.sendQueue == [] && Made(c, ops, 0, buffer)
  {
    c := new BaseConnection(connectionID);
    buffer := new byte[size];
    assert ops[..0] == [];
  }

  /** All the calls on a new connection. */
  method MakeAll(connectionID: uint32, ops: seq<SendOp>, size: nat) returns (c: BaseConnection, buffer: array<byte>)
    requires AllFit(ops, size)
    ensures fresh(c) && fresh(c.sendQueue) && Made(c, ops, |ops|, buffer)
  {
    c, buffer := NewRun(connectionID, ops, size);
    var i := 0;
    while i < |ops|
      invariant Made(c, ops, i, buffer) && fresh(c) && fresh(c.sendBlockID) && fresh(buffer)
      invariant forall blk :: blk in c.sendQueue ==> fresh(blk)
    {
      MakeNext(c, ops, i, buffer);
      i := i + 1;
    }
    assert forall j :: 0 <= j < |c.sendQueue| ==> c.sendQueue[j] in c.sendQueue;
  }

  /**
   * Any calls in any order, all writing from one reused buffer, and only then packed and sent: the stream
   * reads back as blocks numbered without a gap from 0 that carry exactly the bytes written, in order.
   */
  method SenderRun(connectionID: uint32, ops: seq<SendOp>, size: nat) returns (wire: seq<byte>)
    requires AllFit(ops, size)
    ensures AddressesFit(ops) ==> Numbered(ParseAll(wire), 0) && ParseRest(wire) == []
    ensures AddressesFit(ops) ==> DataOf(ParseAll(wire)) == WrittenBy(ops)
  {
    var c, _ := MakeAll(connectionID, ops, size);
    assert ops[..|ops|] == ops;
    ghost var issued := c.issued;
    HeldSends(c.sendQueue, issued, c.owned);
    wire := Transmit(c.sendQueue, issued);
    if AddressesFit(ops) {
      ParseAllOfStream(issued);
    }
  }
}
