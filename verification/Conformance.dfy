/** The methods on buffers and queues take exactly the steps that the protocol's state machine allows. */
module Conformance {
  import opened Bytes
  import opened Blocks
  import opened RecordLayer
  import opened RecordConn
  import opened Resequencer
  import opened BlockObjects
  import opened InboundReader
  import opened TunnelRelay
  import B = Bag
  import CP = ConnectionPool
  import OC = OutboundConnection
  import D = Dialling
  import S = Sending
  import P = Protocol

  // ---------------------------------------------------------------- sending: chunks are issued one by one

  /** Each state of the chain issues the next block of vs. */
  ghost predicate IssueChain(id: uint32, chain: seq<B.Source>, vs: seq<Block>) {
    |chain| == |vs| + 1
    && forall i :: 0 <= i < |vs| ==> B.Issue(id, chain[i], chain[i + 1], vs[i])
  }

  /**
   * Cutting a Write into blocks is a run of Issue steps, one for each id taken,
   * ending with nothing pending of the data that was cut.
   */
  lemma {:induction false} ChunkingIssues(id: uint32, s: B.Source, vs: seq<Block>, rest: seq<byte>)
      returns (chain: seq<B.Source>)
    requires B.SourceOK(id, s) && |s.issued| + |vs| <= MAX_ID
    requires s.pending == DataOf(vs) + rest && Numbered(vs, |s.issued|)
    requires forall i :: 0 <= i < |vs| ==> vs[i].connectionID == id
    ensures IssueChain(id, chain, vs) && chain[0] == s
    ensures chain[|vs|] == B.Source(s.written, rest, s.issued + vs) && B.SourceOK(id, chain[|vs|])
    decreases |vs|
  {
    if vs == [] {
      return [s];
    }
    var n, v := |s.issued|, vs[0];
    assert v.blockID == (n + 0) % TWO_32 == n;
    Associative(Payload(v), DataOf(vs[1..]), rest);
    var s' := B.Source(s.written, DataOf(vs[1..]) + rest, s.issued + [v]);
    B.IssueKeeps(id, s, s', v);
    NumberedTail(vs, n);
    var tail := ChunkingIssues(id, s', vs[1..], rest);
    chain := [s] + tail;
    Associative(s.issued, [v], vs[1..]);
    assert [v] + vs[1..] == vs;
    assert chain[|vs|] == tail[|vs| - 1];
    forall i | 0 <= i < |vs|
      ensures B.Issue(id, chain[i], chain[i + 1], vs[i])
    {
      if i > 0 {
        assert B.Issue(id, tail[i - 1], tail[i - 1 + 1], vs[1..][i - 1]);
      }
    }
  }

  lemma NumberedTail(vs: seq<Block>, first: nat)
    requires vs != [] && Numbered(vs, first)
    ensures Numbered(vs[1..], first + 1)
  {
    forall i | 0 <= i < |vs| - 1
      ensures vs[1..][i].blockID == (first + 1 + i) % TWO_32
    {
      assert vs[1..][i] == vs[i + 1];
    }
  }

  /** sendData on a connection in step with its source is such a run. */
  method SendDataConforms(id: uint32, counter: Counter, buffer: array<byte>, n: nat, ghost s: B.Source, ghost k: nat)
      returns (queue: seq<BlockObject>, ghost chain: seq<B.Source>, ghost vs: seq<Block>)
    requires n <= buffer.Length && B.SourceOK(id, s) && s.pending == buffer[..n] && counter.next == |s.issued|
    requires |s.issued| + n <= MAX_ID
    modifies counter
    ensures AllFrozen(queue, vs) && IssueChain(id, chain, vs) && chain[0] == s
    ensures chain[|vs|] == B.Source(s.written, [], s.issued + vs) && counter.next == |s.issued + vs|
  {
    queue, vs := NewDataBlocks(id, counter, buffer, n);
    ChunksFew(vs);
    assert s.pending == DataOf(vs) + [];
    chain := ChunkingIssues(id, s, vs, []);
  }

  lemma {:induction false} ChunksFew(vs: seq<Block>)
    requires forall i :: 0 <= i < |vs| ==> vs[i].typ == TYPE_DATA && |vs[i].data| > 0
    ensures |vs| <= |DataOf(vs)|
  {
    if vs != [] {
      ChunksFew(vs[1..]);
    }
  }

  // ---------------------------------------------------------------- sending: one block through a tunnel

  ghost function TunnelOf(s: Sender, arrived: nat, parsed: nat): P.Tunnel
    reads s, s.w.link
  {
    P.Tunnel(s.frames, s.chunks, s.w.link.wire, s.gap, s.cancelled, arrived, parsed)
  }

  /**
   * packThenSend on an open tunnel is the step that packs b into some records and lets n bytes through: Send when
   * it succeeds, SendFails when it errs with a retry queue, Ping without one.
   */
  method SendConforms(s: Sender, b: Block, retry: bool, ghost arrived: nat, ghost parsed: nat)
      returns (ok: bool, ghost cs: seq<seq<byte>>, ghost n: nat)
    requires s.Valid() && !s.cancelled && b.WellFormed() && (retry || |Encode(b)| <= MAX_PAYLOAD)
    modifies s, s.w`seals, s.w.nonce, s.w.buf, s.w.link
    ensures s.Valid() && P.Cut(s.w.a, old(TunnelOf(s, arrived, parsed)), b, cs, n, retry && !ok)
    ensures TunnelOf(s, arrived, parsed) == P.Packed(s.w.a, old(TunnelOf(s, arrived, parsed)), b, cs, n, retry && !ok)
    ensures ok ==> n == |Wire(s.w.a, 2 * |old(s.chunks)|, cs)|
    ensures !retry ==> cs == [Encode(b)]
  {
    ghost var t := TunnelOf(s, arrived, parsed);
    ok, cs := s.PackThenSend(b, retry);
    n := |s.w.link.wire| - |t.wire|;
    WroteIsPacked(s.w.a, t, TunnelOf(s, arrived, parsed), b, cs, n, retry, ok);
  }

  lemma WroteIsPacked(a: AEAD, t: P.Tunnel, t': P.Tunnel, b: Block, cs: seq<seq<byte>>, n: nat, retry: bool, ok: bool)
    requires !t.broken && Wrote(a, 2 * |t.chunks|, b, cs, t.wire, t'.wire, ok) && n == |t'.wire| - |t.wire|
    requires t' == P.Tunnel(t.frames + [b], t.chunks + cs, t'.wire, t'.gap, retry && !ok, t.arrived, t.parsed)
    requires retry ==> t'.gap == t.gap
    requires !retry ==> cs == [Encode(b)] && t'.gap == (t.gap || t'.wire != t.wire + Wire(a, 2 * |t.chunks|, cs))
    ensures P.Cut(a, t, b, cs, n, retry && !ok) && t' == P.Packed(a, t, b, cs, n, retry && !ok)
    ensures ok ==> n == |Wire(a, 2 * |t.chunks|, cs)|
  {
    var w := Wire(a, 2 * |t.chunks|, cs);
    TakenOf(t.wire, w, t'.wire, n);
    if !retry {
      assert Flatten(cs) == Encode(b) + Flatten(cs[1..]) == Encode(b);
    }
  }

  lemma TakenOf<T>(before: seq<T>, w: seq<T>, after: seq<T>, n: nat)
    requires before <= after <= before + w && n == |after| - |before|
    ensures n <= |w| && after == before + w[..n] && (n == |w| <==> after == before + w)
  {
    assert after == (before + w)[..|after|];
  }

  // ---------------------------------------------------------------- receiving: parsing, ordering, reading

  /** The reader has yet to read just the blocks that the tunnel has yet to parse. */
  ghost predicate InStep(r: Reader, a: AEAD, t: P.Tunnel)
    reads r, r.nonce, r.buf, r.feed
  {
    && r.Valid() && t.arrived <= |t.wire| && t.parsed <= |P.Parsable(a, t)|
    && ParseAll(r.Rest()) == P.Parsable(a, t)[t.parsed..]
  }

  /** A new reader on what arrives is in step with its tunnel. */
  method NewReaderInStep(a: AEAD, arrived: seq<byte>, ghost t: P.Tunnel) returns (r: Reader)
    requires a.OpenSized() && t.arrived <= |t.wire| && t.parsed == 0 && arrived == t.wire[..t.arrived]
    ensures fresh(r) && fresh(r.nonce) && fresh(r.buf) && fresh(r.feed) && r.a == a
    ensures InStep(r, a, t) && r.Rest() == Due(a, 0, arrived)
  {
    var feed := new Feed(arrived);
    r := new Reader(a, feed);
    assert r.Rest() == Due(a, 0, arrived);
  }

  /** Reading one block, at any point of the stream, is the ParseOne step, or an error when none is left. */
  method ParseConforms(r: Reader, ghost a: AEAD, ghost t: P.Tunnel) returns (blk: Option<Block>)
    requires InStep(r, a, t)
    modifies r`lo, r`hi, r`opens, r.nonce, r.buf, r.feed
    ensures blk.Some? <==> t.parsed < |P.Parsable(a, t)|
    ensures blk.Some? ==> blk.value == P.Parsable(a, t)[t.parsed] && InStep(r, a, t.(parsed := t.parsed + 1))
  {
    ghost var s, left := r.Rest(), P.Parsable(a, t)[t.parsed..];
    assert ParseAll(s) == left;
    blk := NewBlockFromReader(r);
    if blk.Some? {
      ghost var t' := t.(parsed := t.parsed + 1);
      assert left == [blk.value] + ParseAll(r.Rest());
      assert P.Parsable(a, t') == P.Parsable(a, t);
      assert P.Parsable(a, t)[t'.parsed..] == left[1..] == ParseAll(r.Rest());
    }
  }

  /** InboundRelay on what has arrived hands on a prefix of what the ParseOne steps may parse, all of it if alone. */
  method RelayConforms(a: AEAD, ghost near: map<P.ConnID, P.Near>, ghost c: P.Config, ghost t: P.Tunnel,
                       arrived: seq<byte>, others: bool)
      returns (output: seq<Block>)
    requires a == c.a && a.Correct() && P.TunnelOK(c, near, t) && (t.gap ==> P.Trusted(a, t))
    requires arrived == t.wire[..t.arrived]
    ensures P.Parsable(a, t) <= t.frames && PrefixOutput(output, P.Parsable(a, t))
    ensures !others ==> output == Forwarded(P.Parsable(a, t))
  {
    P.ParsableIsPrefix(c, near, t);
    var r := NewReaderInStep(a, arrived, t.(parsed := 0));
    ghost var parsed;
    output, parsed := InboundRelay(r, others);
    PrefixOutputBy(output, parsed, P.Parsable(a, t));
  }

  type Conns = map<uint32, CP.Connection>
  type Queues = map<uint32, seq<Block>>
  type Names = map<CP.Connection, P.ObjectID>

  /** Connections and their queues are those of the protocol, which knows them by their names. */
  ghost predicate Mirrored(conns: Conns, queues: Queues, s: P.State, names: Names) {
    && conns.Keys == queues.Keys == s.registry.Keys
    && forall id :: id in conns ==> MirroredAt(conns[id], queues[id], id, s, names)
  }

  ghost predicate MirroredAt(conn: CP.Connection, queue: seq<Block>, id: uint32, s: P.State, names: Names) {
    && conn in names && id in s.registry && names[conn] == s.registry[id] && s.registry[id] in s.far
    && s.far[s.registry[id]].id == id && s.far[s.registry[id]].recvQueue == queue
  }

  /** recvRelay on one block is the Demux step, or DemuxDrop where no connection is registered and none accepted. */
  method DemuxConforms(pool: CP.Pool, b: Block, ghost c: P.Config, ghost s: P.State, ghost names: Names,
                       ghost newObject: P.ObjectID)
      returns (target: CP.Connection?, ghost s': P.State, ghost names': Names)
    requires pool.Valid() && Mirrored(pool.mapping, pool.Queues(), s, names)
    requires s.poolQueue != [] && s.poolQueue[0] == b && newObject !in s.far
    modifies pool, pool.stats, pool.mapping.Values
    ensures pool.Valid() && Mirrored(pool.mapping, pool.Queues(), s', names')
    ensures target != null ==> P.Next(c, s, s', P.Demux(newObject))
    ensures target == null ==> P.Next(c, s, s', P.DemuxDrop)
  {
    ghost var conns, queues := pool.mapping, pool.Queues();
    target := pool.RecvOne(b);
    MirroredFar(conns, queues, s, names);
    HandedIsDemux(c, s, newObject);
    s', names' := s.(poolQueue := s.poolQueue[1..]), names;
    if target != null {
      s' := P.HandOn(s, newObject);
      names' := HandedMirrors(conns, queues, s, names, newObject, target);
    }
  }

  lemma MirroredFar(conns: Conns, queues: Queues, s: P.State, names: Names)
    requires Mirrored(conns, queues, s, names)
    ensures forall id :: id in s.registry ==> s.registry[id] in s.far
  {
    forall id | id in s.registry
      ensures s.registry[id] in s.far
    {
      assert MirroredAt(conns[id], queues[id], id, s, names);
    }
  }

  lemma HandedMirrors(conns: Conns, queues: Queues, s: P.State, names: Names,
                      newObject: P.ObjectID, target: CP.Connection)
      returns (names': Names)
    requires Mirrored(conns, queues, s, names) && s.poolQueue != [] && newObject !in s.far
    requires var id := s.poolQueue[0].connectionID;
             if id in conns then target == conns[id] && s.registry[id] in s.far else target !in conns.Values
    ensures var b := s.poolQueue[0];
            Mirrored(conns[b.connectionID := target], CP.Received(queues, b), P.HandOn(s, newObject), names')
  {
    var b := s.poolQueue[0];
    var conns', s' := conns[b.connectionID := target], P.HandOn(s, newObject);
    names' := if b.connectionID in conns then names else names[target := newObject];
    forall i | i in conns'
      ensures MirroredAt(conns'[i], CP.Received(queues, b)[i], i, s', names')
    {
      if i in conns {
        assert conns[i] in conns.Values && MirroredAt(conns[i], queues[i], i, s, names);
      }
      if i != b.connectionID && b.connectionID in conns {
        assert MirroredAt(conns[b.connectionID], queues[b.connectionID], b.connectionID, s, names);
      }
    }
  }

  lemma HandedIsDemux(c: P.Config, s: P.State, newObject: P.ObjectID)
    requires s.poolQueue != [] && newObject !in s.far
    requires s.poolQueue[0].connectionID in s.registry ==> s.registry[s.poolQueue[0].connectionID] in s.far
    ensures P.Next(c, s, P.HandOn(s, newObject), P.Demux(newObject))
    ensures P.Next(c, s, s.(poolQueue := s.poolQueue[1..]), P.DemuxDrop)
  {
  }

  /** One block through the relay is a Deliver step, or a DeliverCut step when cancellation intervenes. */
  method HandleConforms(p: BlockProcessor, b: Block, ghost k: B.Sink)
      returns (out: seq<Block>, stopped: bool, ghost k': B.Sink)
    requires k.relaying && k.proc == p.State()
    modifies p
    ensures !stopped ==> B.Deliver(k, k', b) && k'.proc == p.State()
    ensures stopped ==> B.DeliverCut(k, k', b, |out|)
    ensures k'.emitted == k.emitted + out && k'.ordered == k.ordered + out
  {
    out, stopped := p.Handle(b);
    ghost var r := Arrive(k.proc, b);
    assert out == r.out[..|out|];
    k' := if stopped
      then k.(relaying := false, emitted := k.emitted + out, ordered := k.ordered + out)
      else k.(got := k.got[b.blockID := b], proc := r.proc, emitted := k.emitted + out, ordered := k.ordered + out);
  }

  /** The receiving end as its reader sees it: extra is what the relay hands on during a call. */
  ghost predicate Sees(c: InboundConnection, k: B.Sink, extra: seq<Block>)
    requires c.Valid()
    reads c, c.ring, c.ring.buffer
  {
    k.ordered == c.queue + extra && k.buf == c.ring.Unread() && k.read == c.returned
  }

  /**
   * A Read is one Consume step, taken after whatever the relay handed on during the call:
   * m blocks are consumed and the bytes returned are the first n then at hand.
   */
  method ReadConforms(c: InboundConnection, b: array<byte>, ctxDone: bool, ghost k: B.Sink)
      returns (n: nat, status: Status, ghost extra: seq<Block>, ghost m: nat, ghost k': B.Sink)
    requires c.Valid() && b != c.ring.buffer && Sees(c, k, [])
    modifies c, c.ring, c.ring.buffer, b
    ensures c.Valid() && extra <= old(c.future)
    ensures B.Consume(k.(ordered := k.ordered + extra), k', m, n) && Sees(c, k', [])
    ensures n <= b.Length && k'.read == k.read + b[..n]
  {
    ghost var was, q, f := c.consumed, c.queue, c.future;
    n, status := c.Read(b, ctxDone);
    extra, m, k' := ReadConsumed(c, was, q, f, k, b[..n]);
  }

  lemma ReadConsumed(c: InboundConnection, was: seq<Block>, q: seq<Block>, f: seq<Block>, k: B.Sink, x: seq<byte>)
      returns (extra: seq<Block>, m: nat, k': B.Sink)
    requires c.Valid() && was + q + f == c.stream && |was| <= |c.consumed| && |c.future| <= |f|
    requires k.ordered == q && k.read + k.buf == DataOf(was) && c.returned == k.read + x
    ensures extra <= f && k'.ordered == c.queue && k'.buf == c.ring.Unread() && k'.read == c.returned
    ensures B.Consume(k.(ordered := q + extra), k', m, |x|)
  {
    m := |c.consumed| - |was|;
    extra := f[..|f| - |c.future|];
    var ordered := q + extra;
    Realign(was, q, f, c.consumed, c.queue, c.future, ordered);
    k' := B.Sink(k.got, k.proc, k.relaying, k.emitted, c.queue, c.ring.Unread(), c.returned);
    ConsumedBy(was, c.consumed, k.(ordered := ordered), k', m, x);
  }

  lemma ConsumedBy(was: seq<Block>, consumed: seq<Block>, k: B.Sink, k': B.Sink, m: nat, x: seq<byte>)
    requires m <= |k.ordered| && consumed == was + k.ordered[..m]
    requires k.read + k.buf == DataOf(was) && k'.read + k'.buf == DataOf(consumed) && k'.read == k.read + x
    requires k' == k.(ordered := k.ordered[m..], buf := k'.buf, read := k'.read)
    ensures B.Consume(k, k', m, |x|)
  {
    var data := DataOf(k.ordered[..m]);
    DataOfConcat(was, k.ordered[..m]);
    Associative(k.read, k.buf, data);
    SplitAfter(k.read, k.buf + data, x, k'.buf);
  }

  /** Two cuts of one sequence into what is consumed, ready and to come, the second further on. */
  lemma Realign<T>(was: seq<T>, q: seq<T>, f: seq<T>, was': seq<T>, q': seq<T>, f': seq<T>, ordered: seq<T>)
    requires was + q + f == was' + q' + f' && |was| <= |was'| && |f'| <= |f|
    requires ordered == q + f[..|f| - |f'|]
    ensures |was'| - |was| <= |ordered| && was' == was + ordered[..|was'| - |was|] && q' == ordered[|was'| - |was|..]
  {
    var all := was + q + f;
    assert f == f[..|f| - |f'|] + f[|f| - |f'|..];
    assert all[..|all| - |f'|] == was' + q';
    assert all[..|all| - |f'|] == was + ordered;
    assert (was' + q')[..|was'|] == was' && (was' + q')[|was'|..] == q';
  }

  // ---------------------------------------------------------------- the relays of a dialled connection

  /** The object as the only dialled connection of s, whose one SendRelay is between two blocks. */
  ghost predicate Serves(oc: OC.Connection, s: D.State)
    reads oc, oc.conn, oc.base
  {
    && |s.conns| == |s.pairs| == 1 && s.pairs[0].out == D.Ready && s.closed == oc.base.closed
    && s.conns[0].wire == oc.conn.wire && s.conns[0].shut == oc.conn.closed
  }

  /**
   * A round of SendRelay is a Take step, then a Handle step that writes n bytes, then, if the write failed, the
   * step that closes; between them any step of another goroutine may come.
   */
  method SendRelayConforms(oc: OC.Connection, b: Block, ghost blocks: seq<Block>, ghost s: D.State)
      returns (errs: bool, ghost n: nat, ghost s1: D.State, ghost s2: D.State, ghost s3: D.State)
    requires oc.Valid() && Readable(b) && Serves(oc, s) && s.taken < |blocks| && blocks[s.taken] == b
    modifies oc, oc.conn, oc.base, oc.base.sendBlockID
    ensures oc.Valid() && Serves(oc, s3)
    ensures D.Next(blocks, s, s1, D.Take(0)) && D.Next(blocks, s1, s2, D.Handle(0, 0, n, errs))
    ensures if errs then D.Next(blocks, s2, s3, D.CloseErred(0)) else s3 == s2
    ensures s3.shutdowns - s.shutdowns == |oc.base.issued| - |old(oc.base.issued)|
  {
    ghost var wire := oc.conn.wire;
    errs := oc.SendBlock(b);
    n := |oc.conn.wire| - |wire|;
    TakenOf(wire, Payload(b), oc.conn.wire, n);
    s1 := s.(pairs := D.SetOut(s.pairs, 0, D.Taken(b)), taken := s.taken + 1);
    ghost var conn := s.conns[0].(wire := oc.conn.wire, shut := s.conns[0].shut || OC.Closes(b));
    s2 := s1.(conns := [conn], pairs := D.SetOut(s1.pairs, 0, if errs then D.Erred else D.Ready));
    HandleStep(blocks, s1, s2, b, n, errs, conn);
    s3 := if errs then D.ClosedOnce(s2).(pairs := D.SetOut(s2.pairs, 0, D.Ready)) else s2;
  }

  lemma HandleStep(blocks: seq<Block>, s: D.State, s': D.State, b: Block, n: nat, errs: bool, conn: D.Conn)
    requires |s.conns| == |s.pairs| == 1 && s.pairs[0].out == D.Taken(b) && Readable(b) && n <= |Payload(b)|
    requires conn == s.conns[0].(wire := s.conns[0].wire + Payload(b)[..n], shut := s.conns[0].shut || OC.Closes(b))
    requires s' == s.(conns := [conn], pairs := D.SetOut(s.pairs, 0, if errs then D.Erred else D.Ready))
    requires (errs ==> b.typ == TYPE_DATA) && (!errs ==> n == |Payload(b)|)
    requires s.conns[0].shut ==> n == 0 && (b.typ == TYPE_DATA ==> errs)
    ensures D.Next(blocks, s, s', D.Handle(0, 0, n, errs))
  {
    assert s.conns == [s.conns[0]];
    assert b.typ != TYPE_DATA ==> s.conns[0].wire + Payload(b)[..n] == s.conns[0].wire;
  }

  /** The source that the one RecvRelay is: it writes what comes and cuts it into blocks. */
  ghost predicate Sources(s: D.State, src: B.Source) {
    |s.conns| == |s.pairs| == 1 && src.written == s.conns[0].came && src.pending == s.pairs[0].held
  }

  /** A single RecvRelay is a single writer: reading is its Write, sending a block of what it holds its Issue. */
  lemma RecvRelayConforms(id: uint32, blocks: seq<Block>, s: D.State, s': D.State, step: D.Step,
                          src: B.Source, b: Block)
      returns (src': B.Source)
    requires Sources(s, src) && D.Next(blocks, s, s', step)
    requires step.Fetch? || (step.Send? && Payload(b) == s.pairs[0].held[..step.k])
    requires step.Send? ==> |src.issued| < MAX_ID && b.blockID == |src.issued| && b.connectionID == id
    ensures Sources(s', src')
    ensures step.Fetch? ==> B.Write(src, src')
    ensures step.Send? ==> B.Issue(id, src, src', b)
  {
    match step {
      case Fetch(r, j, data) =>
        src' := B.Source(src.written + data, data, src.issued);
      case Send(r, k) =>
        src' := B.Source(src.written, src.pending[k..], src.issued + [b]);
    }
  }

  // ---------------------------------------------------------------- what an end of file means to the peer

  ghost predicate NoDataFrom(issued: seq<Block>, i: nat) {
    forall j :: i <= j < |issued| ==> Payload(issued[j]) == []
  }

  /** The sender writes nothing after announcing that it will write no more. */
  ghost predicate QuietAfterEnd(issued: seq<Block>) {
    forall i :: 0 <= i < |issued| && EndsData(issued[i]) ==> NoDataFrom(issued, i + 1)
  }

  lemma NoDataExactly(issued: seq<Block>, i: nat)
    requires i <= |issued|
    ensures DataOf(issued[..i]) == DataOf(issued) <==> NoDataFrom(issued, i)
  {
    assert issued == issued[..i] + issued[i..];
    DataOfConcat(issued[..i], issued[i..]);
    NoTail(issued, i);
  }

  lemma {:induction false} NoTail(issued: seq<Block>, i: nat)
    requires i <= |issued|
    ensures DataOf(issued[i..]) == [] <==> NoDataFrom(issued, i)
    decreases |issued| - i
  {
    if i < |issued| {
      assert issued[i..][1..] == issued[i + 1..];
      NoTail(issued, i + 1);
      assert NoDataFrom(issued, i) <==> Payload(issued[i]) == [] && NoDataFrom(issued, i + 1);
    }
  }

  /**
   * The hypothesis is exact: every reader that stops at a shutdown block has all the data if and only if the
   * sender was quiet after it. Write alone does not see to that, since CloseWrite sets no flag at the writer.
   */
  lemma CompleteExactly(issued: seq<Block>)
    ensures (forall i :: 0 <= i < |issued| && EndsData(issued[i]) ==> DataOf(issued[..i + 1]) == DataOf(issued))
       <==> QuietAfterEnd(issued)
  {
    forall i | 0 <= i < |issued| && EndsData(issued[i])
      ensures DataOf(issued[..i + 1]) == DataOf(issued) <==> NoDataFrom(issued, i + 1)
    {
      NoDataExactly(issued, i + 1);
    }
  }

  /** The sender that is not quiet: after CloseWrite a Write is still accepted, and its data follows the shutdown. */
  method CloseWriteThenWrite(c: S.BaseConnection, b: array<byte>) returns (ok: bool)
    requires c.Valid() && !c.closed && !c.writeClosed && b.Length > 0
    modifies c`sendQueue, c`owned, c`issued, c`written, c`stopped, c.sendBlockID
    ensures c.Valid() && ok && c.written == old(c.written) + b[..] && !QuietAfterEnd(c.issued)
  {
    ghost var before := c.issued;
    ghost var _ := c.SendDisconnect(SHUTDOWN_WRITE);
    ghost var shut, was := c.issued, c.written;
    var _, accepted := c.Write(b, b.Length);
    ok := accepted;
    assert b[..b.Length] == b[..];
    ghost var i := |before|;
    assert shut[i] == c.issued[i] && EndsData(c.issued[i]) && c.issued[..i + 1] == shut;
    NoDataExactly(c.issued, i + 1);
    assert c.written != was;
  }

  /** A reader that has drained everything up to a shutdown block has all the peer ever wrote. */
  lemma EndOfFileIsComplete(id: uint32, s: B.Source, c: InboundConnection)
    requires B.SourceOK(id, s) && s.pending == [] && QuietAfterEnd(s.issued)
    requires c.Valid() && c.stream <= s.issued
    requires (c.closed || c.readClosed) && c.returned == DataOf(c.consumed)
    ensures c.returned == s.written
  {
    var i := EndsAt(c.consumed);
    assert c.consumed <= c.stream;
    assert s.issued[i] == c.consumed[i] && c.consumed == s.issued[..|c.consumed|];
    assert NoDataFrom(s.issued, i + 1);
    NoDataExactly(s.issued, |c.consumed|);
  }

  lemma SplitAfter<T>(r: seq<T>, bytes: seq<T>, x: seq<T>, y: seq<T>)
    requires r + bytes == r + x + y
    ensures bytes == x + y && bytes[..|x|] == x && bytes[|x|..] == y
  {
    assert (r + bytes)[|r|..] == bytes;
    assert (r + x + y)[|r|..] == x + y;
  }
}
