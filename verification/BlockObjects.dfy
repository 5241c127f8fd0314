/**
 * Blocks as the heap objects they are: BlockData aliases the caller's buffer, and the
 * memoised packed array is a snapshot that later writes to that buffer cannot reach.
 */
module BlockObjects {
  import opened Bytes
  import opened Blocks

  /** The shared send counter of a connection (atomic.Uint32). */
  class Counter {
    var next: uint32

    constructor ()
      ensures next == 0
    {
      next := 0;
    }

    /** Inc()-1: take the next id, wrapping at 2^32. */
    method Take() returns (id: uint32)
      modifies this
      ensures id == old(next) && next == (old(next) + 1) % TWO_32
    {
      id := next;
      next := (next + 1) % TWO_32;
    }
  }

  method PutDigits(a: array<byte>, at: nat, v: nat, n: nat)
    requires at + n <= a.Length
    modifies a
    ensures a[..at + n] == old(a[..at]) + Digits(v, n) && a[at + n..] == old(a[at + n..])
  {
    var i, rest := 0, v;
    while i < n
      invariant 0 <= i <= n && rest >= 0
      invariant a[at..at + i] + Digits(rest, n - i) == Digits(v, n)
      invariant a[..at] == old(a[..at]) && a[at + n..] == old(a[at + n..])
    {
      a[at + i] := rest % 256;
      assert a[at..at + i + 1] == a[at..at + i] + [rest % 256];
      i, rest := i + 1, rest / 256;
    }
    assert a[..at + n] == a[..at] + a[at..at + n];
  }

  class BlockObject {
    const typ: byte
    const connectionID: uint32
    const timeStamp: int64
    const blockID: uint32
    const blockLength: uint32
    // BlockData is buffer[lo..hi], not a copy of it.
    const buffer: array<byte>
    const lo: nat
    const hi: nat
    var packed: array?<byte>

    ghost predicate Valid()
      reads this
    {
      lo <= hi <= buffer.Length
    }

    /** The block as its fields and its aliased buffer read right now. */
    ghost function View(): Block
      requires Valid()
      reads this, buffer
    {
      Block(typ, connectionID, timeStamp, blockID, blockLength, buffer[lo..hi])
    }

    constructor (typ: byte, connectionID: uint32, timeStamp: int64, blockID: uint32,
                 buffer: array<byte>, lo: nat, hi: nat)
      requires lo <= hi <= buffer.Length
      ensures Valid() && packed == null
      ensures this.buffer == buffer
      ensures View() == Block(typ, connectionID, timeStamp, blockID, (hi - lo) % TWO_32, buffer[lo..hi])
    {
      this.typ := typ;
      this.connectionID := connectionID;
      this.timeStamp := timeStamp;
      this.blockID := blockID;
      this.blockLength := (hi - lo) % TWO_32;
      this.buffer := buffer;
      this.lo := lo;
      this.hi := hi;
      this.packed := null;
    }

    /** The first call encodes what the buffer holds; every later call returns that same array untouched. */
    method Pack() returns (p: array<byte>)
      requires Valid()
      modifies `packed
      ensures Valid() && packed == p
      ensures old(packed) != null ==> p == old(packed) && p[..] == old(p[..])
      ensures old(packed) == null ==> fresh(p) && p[..] == Encode(old(View()))
    {
      if packed != null {
        return packed;
      }
      var n := hi - lo;
      p := new byte[HEADER_SIZE + n];
      p[0] := typ;
      assert p[..1] == [typ];
      PutDigits(p, 1, connectionID, 4);
      PutDigits(p, 5, if timeStamp < 0 then timeStamp + TWO_64 else timeStamp, 8);
      PutDigits(p, 13, blockID, 4);
      PutDigits(p, 17, blockLength, 4);
      assert p[..HEADER_SIZE] == Header(View());
      forall i | 0 <= i < n {
        p[HEADER_SIZE + i] := buffer[lo + i];
      }
      assert p[..HEADER_SIZE] == Header(View());
      assert p[HEADER_SIZE..] == buffer[lo..hi];
      assert p[..] == p[..HEADER_SIZE] + p[HEADER_SIZE..];
      packed := p;
    }
  }

  /** What a data block object will transmit is v, whatever happens to its buffer. */
  ghost predicate Frozen(blk: BlockObject, v: Block)
    reads blk, blk.packed
  {
    blk.Valid() && blk.packed != null && blk.packed != blk.buffer && blk.packed[..] == Encode(v)
  }

  ghost predicate AllFrozen(blks: seq<BlockObject>, vs: seq<Block>)
    reads blks, set i | 0 <= i < |blks| :: blks[i].packed
  {
    |blks| == |vs| && forall i {:trigger Frozen(blks[i], vs[i])} :: 0 <= i < |blks| ==> Frozen(blks[i], vs[i])
  }

  /** Consecutive ids from first, wrapping at 2^32. */
  predicate Numbered(vs: seq<Block>, first: nat) {
    forall i {:trigger vs[i].blockID} :: 0 <= i < |vs| ==> vs[i].blockID == (first + i) % TWO_32
  }

  /** vs cuts data into full blocks and a last, possibly shorter one, numbered from first. */
  predicate IsChunking(vs: seq<Block>, connectionID: uint32, first: nat, data: seq<byte>) {
    && DataOf(vs) == data && Numbered(vs, first)
    && (forall i :: 0 <= i < |vs| ==>
          && vs[i].typ == TYPE_DATA && vs[i].connectionID == connectionID
          && vs[i].WellFormed() && 0 < |vs[i].data| <= DATA_SIZE)
    && (forall i :: 0 <= i < |vs| - 1 ==> |vs[i].data| == DATA_SIZE)
  }

  lemma FrozenConcat(a: seq<BlockObject>, va: seq<Block>, b: seq<BlockObject>, vb: seq<Block>)
    requires AllFrozen(a, va) && AllFrozen(b, vb)
    ensures AllFrozen(a + b, va + vb)
  {
  }

  lemma ChunkingPush(vs: seq<Block>, v: Block, connectionID: uint32, first: nat, data: seq<byte>, whole: seq<byte>)
    requires IsChunking(vs, connectionID, first, data) && whole == data + v.data
    requires forall i :: 0 <= i < |vs| ==> |vs[i].data| == DATA_SIZE
    requires v.typ == TYPE_DATA && v.connectionID == connectionID
    requires v.blockID == (first + |vs|) % TWO_32
    requires v.WellFormed() && 0 < |v.data| <= DATA_SIZE
    ensures IsChunking(vs + [v], connectionID, first, whole)
    ensures (v.blockID + 1) % TWO_32 == (first + |vs + [v]|) % TWO_32
  {
    DataOfPush(vs, v);
    AddMod(first + |vs|, 1);
  }

  lemma AddMod(a: nat, b: nat)
    ensures (a % TWO_32 + b) % TWO_32 == (a + b) % TWO_32
  {
  }

  method NewDataBlock(connectionID: uint32, blockID: uint32, buffer: array<byte>, lo: nat, hi: nat)
      returns (blk: BlockObject, ghost v: Block)
    requires lo <= hi <= buffer.Length
    ensures fresh(blk) && Frozen(blk, v) && fresh(blk.packed) && blk.buffer == buffer
    ensures v.typ == TYPE_DATA && v.connectionID == connectionID && v.blockID == blockID
    ensures v.data == buffer[lo..hi] && v.blockLength == |v.data| % TWO_32
  {
    var now: int64 :| true;  // time.Now().UnixNano()
    blk := new BlockObject(TYPE_DATA, connectionID, now, blockID, buffer, lo, hi);
    v := blk.View();
    var _ := blk.Pack();
  }

  /** Take the next id for a block of bytes lo to hi. */
  method MakeChunk(connectionID: uint32, counter: Counter, buffer: array<byte>, lo: nat, hi: nat)
      returns (blk: BlockObject, ghost v: Block)
    requires lo < hi <= buffer.Length && hi <= lo + DATA_SIZE
    modifies counter
    ensures fresh(blk) && Frozen(blk, v) && fresh(blk.packed) && blk.buffer == buffer
    ensures v.typ == TYPE_DATA && v.connectionID == connectionID && v.blockID == old(counter.next)
    ensures v.data == buffer[lo..hi] && |v.data| == hi - lo && v.WellFormed()
    ensures counter.next == (old(counter.next) + 1) % TWO_32
  {
    var id := counter.Take();
    blk, v := NewDataBlock(connectionID, id, buffer, lo, hi);
    LengthFits(|v.data|);
  }

  /** One round of the chunking loop: take an id, build the block, append it. */
  method AppendChunk(connectionID: uint32, counter: Counter, buffer: array<byte>, lo: nat, n: nat,
                     blocks: seq<BlockObject>, ghost vs: seq<Block>, ghost first: nat)
      returns (hi: nat, blocks': seq<BlockObject>, ghost vs': seq<Block>)
    requires Cutting(blocks, vs, connectionID, first, counter, buffer, lo, n) && lo < n
    modifies counter
    ensures lo < hi && Cutting(blocks', vs', connectionID, first, counter, buffer, hi, n)
    ensures |blocks'| == |blocks| + 1 && blocks'[..|blocks|] == blocks
    ensures fresh(blocks'[|blocks|]) && fresh(blocks'[|blocks|].packed)
  {
    hi := lo + DATA_SIZE;
    if n < hi {
      hi := n;
    }
    var blk;
    ghost var v;
    blk, v := MakeChunk(connectionID, counter, buffer, lo, hi);
    FrozenConcat(blocks, vs, [blk], [v]);
    blocks', vs' := blocks + [blk], vs + [v];
    FrontOf(buffer, lo, hi);
    ChunkingPush(vs, v, connectionID, first, buffer[..lo], buffer[..hi]);
  }

  method NewDataBlocks(connectionID: uint32, counter: Counter, buffer: array<byte>, n: nat)
      returns (blocks: seq<BlockObject>, ghost vs: seq<Block>)
    requires n <= buffer.Length
    modifies counter
    ensures AllFrozen(blocks, vs)
    ensures forall i :: 0 <= i < |blocks| ==> fresh(blocks[i]) && fresh(blocks[i].packed) && blocks[i].buffer == buffer
    ensures IsChunking(vs, connectionID, old(counter.next), buffer[..n])
    ensures counter.next == (old(counter.next) + |vs|) % TWO_32
  {
    blocks, vs := [], [];
    ghost var first := counter.next;
    var cursor := 0;
    while cursor < n
      invariant 0 <= cursor <= n && Cutting(blocks, vs, connectionID, first, counter, buffer, cursor, n)
      invariant forall i :: 0 <= i < |blocks| ==> fresh(blocks[i]) && fresh(blocks[i].packed)
    {
      cursor, blocks, vs := AppendChunk(connectionID, counter, buffer, cursor, n, blocks, vs, first);
    }
  }

  /** The chunking loop: what is cut so far covers buffer[..cursor], in full blocks until the end is reached. */
  ghost predicate Cutting(blocks: seq<BlockObject>, vs: seq<Block>, connectionID: uint32, first: nat, counter: Counter,
                          buffer: array<byte>, cursor: nat, n: nat)
    reads blocks, set i | 0 <= i < |blocks| :: blocks[i].packed, counter, buffer
  {
    && cursor <= n <= buffer.Length && AllFrozen(blocks, vs)
    && (forall i {:trigger blocks[i].buffer} :: 0 <= i < |blocks| ==> blocks[i].buffer == buffer)
    && IsChunking(vs, connectionID, first, buffer[..cursor]) && counter.next == (first + |vs|) % TWO_32
    && (cursor < n ==> forall i :: 0 <= i < |vs| ==> |vs[i].data| == DATA_SIZE)
  }

  lemma NumbersConcat(a: seq<Block>, b: seq<Block>, first: nat)
    requires Numbered(a, first) && Numbered(b, (first + |a|) % TWO_32)
    ensures Numbered(a + b, first)
    ensures ((first + |a|) % TWO_32 + |b|) % TWO_32 == (first + |a + b|) % TWO_32
  {
    AddMod(first + |a|, |b|);
    forall i | 0 <= i < |b|
      ensures b[i].blockID == (first + |a| + i) % TWO_32
    {
      AddMod(first + |a|, i);
    }
  }
}
