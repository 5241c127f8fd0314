/**
 * The whole path of one direction, step by step: connections share queues and tunnels, tunnels carry
 * sealed records that may be cut at any byte, failed blocks are retried or lost, tunnels and connections
 * come and go. For each receiving object it refines the bag, hence the promised stream.
 */
module Protocol {
  import opened Bytes
  import opened Blocks
  import opened RecordLayer
  import opened RecordConn
  import opened Resequencer
  import B = Bag
  import D = Dialling

  type ConnID = uint32
  type TunnelID = nat
  type ObjectID = nat

  /** Fixed for a run: the cipher of the tunnels, and the ids that Ping and Pong blocks carry. */
  datatype Config = Config(a: AEAD, reserved: set<ConnID>)

  /** A sending connection; made holds blocks that have an id but are not yet queued. */
  datatype Near = Near(source: B.Source, made: multiset<Block>)

  /**
   * A tunnel: frames packed into it, records sealed, bytes the network took, bytes arrived, blocks parsed. Once
   * broken it takes nothing more; gap says that a failed Ping or Pong may have left bytes missing in the middle.
   */
  datatype Tunnel = Tunnel(
    frames: seq<Block>,
    chunks: seq<seq<byte>>,
    wire: seq<byte>,
    gap: bool,
    broken: bool,
    arrived: nat,
    parsed: nat)

  /**
   * How a receiving object passes its ordered data on: an inbound connection is read by one reader, an outbound
   * one serves whatever its Connect blocks have dialled.
   */
  datatype Side = Reading | Serving(d: D.State)

  /** A receiving connection object. */
  datatype Far = Far(id: ConnID, recvQueue: seq<Block>, sink: B.Sink, side: Side)

  datatype State = State(
    near: map<ConnID, Near>,
    connQueue: seq<Block>,         // ConnectionPool.sendQueue
    sendQueue: seq<Block>,         // TunnelPool.sendQueue
    retryQueue: seq<Block>,        // TunnelPool.sendRetryQueue
    retrying: multiset<Block>,     // goroutines holding a failed block
    tunnels: map<TunnelID, Tunnel>,
    poolQueue: seq<Block>,         // TunnelPool.recvQueue at the far end
    registry: map<ConnID, ObjectID>,
    far: map<ObjectID, Far>)

  datatype From = Normal | Retry

  datatype Step =
    | Open(id: ConnID)
    | Write(id: ConnID)
    | Issue(id: ConnID, b: Block)
    | Queue(id: ConnID, b: Block)
    | ConnRelay(isLost: bool)
    | Dial(t: TunnelID)
    | Send(t: TunnelID, from: From, cs: seq<seq<byte>>)
    | SendFails(t: TunnelID, from: From, cs: seq<seq<byte>>, n: nat)   // n may be all of it
    | SendOnBroken(t: TunnelID, from: From)
    | Ping(t: TunnelID, b: Block, n: nat)                            // n may fall short without closing the tunnel
    | RetryPut(b: Block)
    | RetryLost(b: Block)
    | Progress(t: TunnelID, n: nat)
    | ParseOne(t: TunnelID, forward: bool)
    | Register(id: ConnID, newObject: ObjectID)
    | Demux(newObject: ObjectID)
    | DemuxDrop
    | Unregister(id: ConnID)
    | Relay(o: ObjectID)
    | RelayCut(o: ObjectID, n: nat)
    | Read(o: ObjectID, m: nat, n: nat)
    | Serve(o: ObjectID, step: D.Step)

  // ---------------------------------------------------------------- steps

  /** The blocks parsed from what has arrived through a tunnel so far. */
  function Parsable(a: AEAD, t: Tunnel): seq<Block>
    requires t.arrived <= |t.wire|
  {
    ParseAll(Due(a, 0, t.wire[..t.arrived]))
  }

  function Head(s: State, from: From): seq<Block> {
    match from
    case Normal => s.sendQueue
    case Retry => s.retryQueue
  }

  function Pop(s: State, from: From): State
    requires Head(s, from) != []
  {
    match from
    case Normal => s.(sendQueue := s.sendQueue[1..])
    case Retry => s.(retryQueue := s.retryQueue[1..])
  }

  /** The tunnel after b has been packed into records cs, of which the network took n bytes. */
  function Packed(a: AEAD, t: Tunnel, b: Block, cs: seq<seq<byte>>, n: nat, closes: bool): Tunnel
    requires n <= |Wire(a, 2 * |t.chunks|, cs)|
  {
    var w := Wire(a, 2 * |t.chunks|, cs);
    t.(frames := t.frames + [b], chunks := t.chunks + cs, wire := t.wire + w[..n],
       gap := t.gap || (!closes && n < |w|), broken := closes)
  }

  /** Records are cut from the packed block in any sizes; an error that closes the tunnel may leave some unsealed. */
  ghost predicate Cut(a: AEAD, t: Tunnel, b: Block, cs: seq<seq<byte>>, n: nat, closes: bool) {
    && !t.broken && ChunksOK(cs) && Flatten(cs) <= Encode(b)
    && n <= |Wire(a, 2 * |t.chunks|, cs)|
    && (!closes ==> Flatten(cs) == Encode(b))
  }

  /** A new outbound connection. */
  function NewServer(id: ConnID): Far {
    Far(id, [], B.NEW_SINK, Serving(D.INITIAL))
  }

  /** RecvBlock: the block is queued, and a Connect block starts a connect goroutine on an outbound connection. */
  function Handed(f: Far, b: Block): Far {
    f.(recvQueue := f.recvQueue + [b],
       side := if f.side.Serving? && b.typ == TYPE_CONNECT then Serving(D.WithConnect(f.side.d)) else f.side)
  }

  predicate SenderStep(step: Step) {
    step.Open? || step.Write? || step.Issue? || step.Queue?
  }

  predicate MiddleStep(step: Step) {
    step.ConnRelay? || step.RetryPut? || step.RetryLost? || step.ParseOne?
  }

  predicate TunnelStep(step: Step) {
    step.Dial? || step.Send? || step.SendFails? || step.SendOnBroken?
    || step.Ping? || step.Progress?
  }

  predicate FarStep(step: Step) {
    step.Register? || step.Demux? || step.DemuxDrop? || step.Unregister?
    || step.Relay? || step.RelayCut? || step.Read? || step.Serve?
  }

  /** The sending ends: connections open, write, number their blocks and queue them. */
  ghost predicate SenderNext(c: Config, s: State, s': State, step: Step)
    requires SenderStep(step)
  {
    match step
    case Open(id) =>
      id !in s.near && id !in c.reserved
      && s' == s.(near := s.near[id := Near(B.Source([], [], []), multiset{})])
    case Write(id) =>
      id in s.near && id in s'.near && B.Write(s.near[id].source, s'.near[id].source)
      && s' == s.(near := s.near[id := s.near[id].(source := s'.near[id].source)])
    case Issue(id, b) =>
      id in s.near && id in s'.near && B.Issue(id, s.near[id].source, s'.near[id].source, b)
      && b.WellFormed()
      && s' == s.(near := s.near[id := Near(s'.near[id].source, s.near[id].made + multiset{b})])
    case Queue(id, b) =>
      id in s.near && b in s.near[id].made
      && s' == s.(near := s.near[id := s.near[id].(made := s.near[id].made - multiset{b})],
                  connQueue := s.connQueue + [b])
  }

  /** The next block that can be parsed is parsed, and handed on or answered on the spot. */
  ghost predicate ParseNext(c: Config, s: State, s': State, t: TunnelID, forward: bool) {
    t in s.tunnels && s.tunnels[t].arrived <= |s.tunnels[t].wire|
    && var tn := s.tunnels[t];
    tn.parsed < |Parsable(c.a, tn)|
    && s' == s.(tunnels := s.tunnels[t := tn.(parsed := tn.parsed + 1)],
                poolQueue := s.poolQueue + if forward then [Parsable(c.a, tn)[tn.parsed]] else [])
  }

  /** The queues between connections and tunnels, and what leaves a tunnel. */
  ghost predicate MiddleNext(c: Config, s: State, s': State, step: Step)
    requires MiddleStep(step)
  {
    match step
    case ConnRelay(lost) =>
      s.connQueue != []
      && s' == s.(connQueue := s.connQueue[1..], sendQueue := s.sendQueue + if lost then [] else [s.connQueue[0]])
    case RetryPut(b) =>
      b in s.retrying && s' == s.(retrying := s.retrying - multiset{b}, retryQueue := s.retryQueue + [b])
    case RetryLost(b) =>
      b in s.retrying && s' == s.(retrying := s.retrying - multiset{b})
    case ParseOne(t, forward) => ParseNext(c, s, s', t, forward)
  }

  /** The tunnels. */
  ghost predicate TunnelNext(c: Config, s: State, s': State, step: Step)
    requires TunnelStep(step)
  {
    match step
    case Dial(t) =>
      t !in s.tunnels && s' == s.(tunnels := s.tunnels[t := NEW_TUNNEL])
    case Send(t, from, cs) =>
      t in s.tunnels && Head(s, from) != []
      && var b := Head(s, from)[0];
         var n := |Wire(c.a, 2 * |s.tunnels[t].chunks|, cs)|;
      Cut(c.a, s.tunnels[t], b, cs, n, false)
      && s' == Pop(s, from).(tunnels := s.tunnels[t := Packed(c.a, s.tunnels[t], b, cs, n, false)])
    case SendFails(t, from, cs, n) =>
      t in s.tunnels && Head(s, from) != []
      && var b := Head(s, from)[0];
      Cut(c.a, s.tunnels[t], b, cs, n, true)
      && s' == Pop(s, from).(tunnels := s.tunnels[t := Packed(c.a, s.tunnels[t], b, cs, n, true)],
                             retrying := s.retrying + multiset{b})
    case SendOnBroken(t, from) =>
      t in s.tunnels && s.tunnels[t].broken && Head(s, from) != []
      && s' == Pop(s, from).(retrying := s.retrying + multiset{Head(s, from)[0]})
    case Ping(t, b, n) =>
      t in s.tunnels && b.WellFormed() && |b.data| == 8 && b.connectionID in c.reserved
      && Cut(c.a, s.tunnels[t], b, [Encode(b)], n, false)
      && s' == s.(tunnels := s.tunnels[t := Packed(c.a, s.tunnels[t], b, [Encode(b)], n, false)])
    case Progress(t, n) =>
      t in s.tunnels && n <= |s.tunnels[t].wire| && s.tunnels[t].arrived <= n
      && s' == s.(tunnels := s.tunnels[t := s.tunnels[t].(arrived := n)])
  }

  /** The head of the pool's queue can go to the object registered under its id, or else to a new one. */
  predicate CanHandOn(s: State, newObject: ObjectID) {
    s.poolQueue != []
    && var id := s.poolQueue[0].connectionID;
       if id in s.registry then s.registry[id] in s.far else newObject !in s.far
  }

  function HandOn(s: State, newObject: ObjectID): State
    requires CanHandOn(s, newObject)
  {
    var b := s.poolQueue[0];
    var id := b.connectionID;
    if id in s.registry then
      var o := s.registry[id];
      s.(poolQueue := s.poolQueue[1..], far := s.far[o := Handed(s.far[o], b)])
    else
      s.(poolQueue := s.poolQueue[1..], registry := s.registry[id := newObject],
         far := s.far[newObject := Handed(NewServer(id), b)])
  }

  predicate ObjectStep(step: Step) {
    step.Relay? || step.RelayCut? || step.Read? || step.Serve?
  }

  /** One receiving object moves on by itself. */
  ghost predicate Moves(f: Far, f': Far, step: Step)
    requires ObjectStep(step)
  {
    match step
    case Relay(_) =>
      f.recvQueue != [] && B.Deliver(f.sink, f'.sink, f.recvQueue[0])
      && f' == f.(recvQueue := f.recvQueue[1..], sink := f'.sink)
    case RelayCut(_, n) =>
      f.recvQueue != [] && B.DeliverCut(f.sink, f'.sink, f.recvQueue[0], n)
      && f' == f.(recvQueue := f.recvQueue[1..], sink := f'.sink)
    case Read(_, m, n) =>
      f.side.Reading? && B.Consume(f.sink, f'.sink, m, n) && f' == f.(sink := f'.sink)
    case Serve(_, move) =>
      f.side.Serving? && f'.side.Serving? && !move.RecvConnect?
      && D.Next(f.sink.emitted, f.side.d, f'.side.d, move) && f' == f.(side := f'.side)
  }

  ghost predicate ObjectNext(s: State, s': State, step: Step)
    requires ObjectStep(step)
  {
    && step.o in s.far && step.o in s'.far && Moves(s.far[step.o], s'.far[step.o], step)
    && s' == s.(far := s.far[step.o := s'.far[step.o]])
  }

  /** The receiving ends. */
  ghost predicate FarNext(c: Config, s: State, s': State, step: Step)
    requires FarStep(step)
  {
    match step
    case Register(id, newObject) =>
      newObject !in s.far
      && s' == s.(registry := s.registry[id := newObject],
                  far := s.far[newObject := Far(id, [], B.NEW_SINK, Reading)])
    case Demux(newObject) =>
      CanHandOn(s, newObject) && s' == HandOn(s, newObject)
    case DemuxDrop =>
      s.poolQueue != [] && s' == s.(poolQueue := s.poolQueue[1..])
    case Unregister(id) =>
      id in s.registry && s' == s.(registry := s.registry - {id})
    case _ => ObjectNext(s, s', step)
  }

  ghost predicate Next(c: Config, s: State, s': State, step: Step) {
    if SenderStep(step) then SenderNext(c, s, s', step)
    else if MiddleStep(step) then MiddleNext(c, s, s', step)
    else if TunnelStep(step) then TunnelNext(c, s, s', step)
    else FarNext(c, s, s', step)
  }

  const NEW_TUNNEL := Tunnel([], [], [], false, false, 0, 0)

  const START_STATE := State(map[], [], [], [], multiset{}, map[], [], map[], map[])

  // ---------------------------------------------------------------- the invariant

  /** A block some part of the system holds is genuine: issued under its id, or a Ping or Pong. */
  ghost predicate Known(c: Config, near: map<ConnID, Near>, b: Block) {
    b.WellFormed() && (b.connectionID in c.reserved || Genuine(near, b))
  }

  ghost predicate Genuine(near: map<ConnID, Near>, b: Block) {
    b.connectionID in near && b in near[b.connectionID].source.issued
  }

  ghost predicate KnownSeq(c: Config, near: map<ConnID, Near>, q: seq<Block>) {
    forall i :: 0 <= i < |q| ==> Known(c, near, q[i])
  }

  ghost predicate KnownBag(c: Config, near: map<ConnID, Near>, m: multiset<Block>) {
    forall b :: b in m ==> Known(c, near, b)
  }

  ghost predicate NearOK(c: Config, id: ConnID, n: Near) {
    && id !in c.reserved && B.SourceOK(id, n.source)
    && (forall b :: b in n.made ==> b.WellFormed() && b in n.source.issued)
  }

  ghost predicate TunnelOK(c: Config, near: map<ConnID, Near>, t: Tunnel) {
    && KnownSeq(c, near, t.frames) && ChunksOK(t.chunks) && t.arrived <= |t.wire|
    && Flatten(t.chunks) <= Stream(t.frames) && (!t.broken ==> Flatten(t.chunks) == Stream(t.frames))
    && (!t.gap ==> Gapless(c.a, t.chunks, t.wire, !t.broken))
  }

  /** Where bytes are missing from the stream, still nothing opens but what was sealed: see Unforged. */
  ghost predicate NoForgery(c: Config, s: State) {
    forall t :: t in s.tunnels && s.tunnels[t].gap ==> Trusted(c.a, s.tunnels[t])
  }

  ghost predicate Trusted(a: AEAD, t: Tunnel) {
    t.arrived <= |t.wire| && Unforged(a, 0, t.chunks, t.wire[..t.arrived])
  }

  ghost predicate FarOK(c: Config, near: map<ConnID, Near>, f: Far) {
    && KnownSeq(c, near, f.recvQueue)
    && (forall i :: 0 <= i < |f.recvQueue| ==> f.recvQueue[i].connectionID == f.id)
    && (f.id in c.reserved || B.SinkOK(IssuedUnder(near, f.id), f.sink))
    && (f.side.Serving? ==> D.Inv(f.sink.emitted, f.side.d))
  }

  /** The blocks issued under an id, which may not have a sender yet. */
  function IssuedUnder(near: map<ConnID, Near>, id: ConnID): seq<Block> {
    if id in near then near[id].source.issued else []
  }

  ghost predicate NearsOK(c: Config, near: map<ConnID, Near>) {
    forall id :: id in near ==> NearOK(c, id, near[id])
  }

  ghost predicate QueuesOK(c: Config, s: State) {
    && KnownSeq(c, s.near, s.connQueue) && KnownSeq(c, s.near, s.sendQueue)
    && KnownSeq(c, s.near, s.retryQueue) && KnownSeq(c, s.near, s.poolQueue)
    && KnownBag(c, s.near, s.retrying)
  }

  ghost predicate TunnelsOK(c: Config, near: map<ConnID, Near>, tunnels: map<TunnelID, Tunnel>) {
    forall t :: t in tunnels ==> TunnelOK(c, near, tunnels[t])
  }

  ghost predicate FarsOK(c: Config, near: map<ConnID, Near>, registry: map<ConnID, ObjectID>, far: map<ObjectID, Far>) {
    && (forall id :: id in registry ==> registry[id] in far && far[registry[id]].id == id)
    && (forall o :: o in far ==> FarOK(c, near, far[o]))
  }

  ghost predicate Inv(c: Config, s: State) {
    && c.a.Correct() && NearsOK(c, s.near) && QueuesOK(c, s)
    && TunnelsOK(c, s.near, s.tunnels) && FarsOK(c, s.near, s.registry, s.far)
  }

  // ---------------------------------------------------------------- growth of the senders

  /** Senders never take back a block they have issued. */
  ghost predicate Grows(near: map<ConnID, Near>, near': map<ConnID, Near>) {
    forall id :: id in near ==> id in near' && near[id].source.issued <= near'[id].source.issued
  }

  lemma KnownGrows(c: Config, near: map<ConnID, Near>, near': map<ConnID, Near>, b: Block)
    requires Grows(near, near') && Known(c, near, b)
    ensures Known(c, near', b)
  {
    if b.connectionID in near {
      assert near[b.connectionID].source.issued <= near'[b.connectionID].source.issued;
    }
  }

  lemma KnownSeqGrows(c: Config, near: map<ConnID, Near>, near': map<ConnID, Near>, q: seq<Block>)
    requires Grows(near, near') && KnownSeq(c, near, q)
    ensures KnownSeq(c, near', q)
  {
    forall i | 0 <= i < |q|
      ensures Known(c, near', q[i])
    {
      KnownGrows(c, near, near', q[i]);
    }
  }

  lemma FarGrows(c: Config, near: map<ConnID, Near>, near': map<ConnID, Near>, f: Far)
    requires Grows(near, near') && FarOK(c, near, f)
    ensures FarOK(c, near', f)
  {
    KnownSeqGrows(c, near, near', f.recvQueue);
    if f.id !in c.reserved {
      B.SinkGrows(IssuedUnder(near, f.id), IssuedUnder(near', f.id), f.sink);
    }
  }

  lemma InvGrows(c: Config, s: State, near': map<ConnID, Near>)
    requires Inv(c, s) && Grows(s.near, near') && NearsOK(c, near')
    ensures Inv(c, s.(near := near'))
  {
    KnownSeqGrows(c, s.near, near', s.connQueue);
    KnownSeqGrows(c, s.near, near', s.sendQueue);
    KnownSeqGrows(c, s.near, near', s.retryQueue);
    KnownSeqGrows(c, s.near, near', s.poolQueue);
    forall b | b in s.retrying
      ensures Known(c, near', b)
    {
      KnownGrows(c, s.near, near', b);
    }
    forall t | t in s.tunnels
      ensures TunnelOK(c, near', s.tunnels[t])
    {
      KnownSeqGrows(c, s.near, near', s.tunnels[t].frames);
    }
    forall o | o in s.far
      ensures FarOK(c, near', s.far[o])
    {
      FarGrows(c, s.near, near', s.far[o]);
    }
  }

  // ---------------------------------------------------------------- what each step keeps

  /** One sender moves on. */
  lemma NearUpdate(c: Config, s: State, id: ConnID, n: Near)
    requires Inv(c, s) && NearOK(c, id, n)
    requires id in s.near ==> s.near[id].source.issued <= n.source.issued
    ensures Inv(c, s.(near := s.near[id := n]))
  {
    InvGrows(c, s, s.near[id := n]);
  }

  /** Only queues change, and they hold only known blocks. */
  lemma QueuesUpdate(c: Config, s: State, s': State)
    requires Inv(c, s) && QueuesOK(c, s')
    requires s'.near == s.near && s'.tunnels == s.tunnels && s'.registry == s.registry && s'.far == s.far
    ensures Inv(c, s')
  {
  }

  lemma KnownPush(c: Config, near: map<ConnID, Near>, q: seq<Block>, b: Block)
    requires KnownSeq(c, near, q) && Known(c, near, b)
    ensures KnownSeq(c, near, q + [b])
  {
  }

  lemma KnownTail(c: Config, near: map<ConnID, Near>, q: seq<Block>)
    requires KnownSeq(c, near, q) && q != []
    ensures Known(c, near, q[0]) && KnownSeq(c, near, q[1..])
  {
  }

  lemma KnownLess(c: Config, near: map<ConnID, Near>, m: multiset<Block>, b: Block)
    requires KnownBag(c, near, m) && b in m
    ensures Known(c, near, b) && KnownBag(c, near, m - multiset{b})
  {
  }

  lemma OpenKeeps(c: Config, s: State, s': State, id: ConnID)
    requires Inv(c, s) && SenderNext(c, s, s', Open(id))
    ensures Inv(c, s')
  {
    NearUpdate(c, s, id, Near(B.Source([], [], []), multiset{}));
  }

  lemma WriteKeeps(c: Config, s: State, s': State, id: ConnID)
    requires Inv(c, s) && SenderNext(c, s, s', Write(id))
    ensures Inv(c, s')
  {
    B.WriteKeeps(id, s.near[id].source, s'.near[id].source);
    NearUpdate(c, s, id, s.near[id].(source := s'.near[id].source));
  }

  lemma IssueKeeps(c: Config, s: State, s': State, id: ConnID, b: Block)
    requires Inv(c, s) && SenderNext(c, s, s', Issue(id, b))
    ensures Inv(c, s')
  {
    var was, next := s.near[id], Near(s'.near[id].source, s.near[id].made + multiset{b});
    B.IssueKeeps(id, was.source, next.source, b);
    assert next.source.issued[|was.source.issued|] == b;
    assert forall x :: x in was.source.issued ==> x in next.source.issued;
    NearUpdate(c, s, id, next);
  }

  lemma QueueKeeps(c: Config, s: State, s': State, id: ConnID, b: Block)
    requires Inv(c, s) && SenderNext(c, s, s', Queue(id, b))
    ensures Inv(c, s')
  {
    var n := s.near[id].(made := s.near[id].made - multiset{b});
    assert NearOK(c, id, s.near[id]);
    var t := s.(near := s.near[id := n]);
    NearUpdate(c, s, id, n);
    B.IssuedById(id, n.source, b);
    KnownPush(c, t.near, t.connQueue, b);
    QueuesUpdate(c, t, s');
  }

  /** Packing keeps the tunnel's account: without a gap the wire is a cut of its records, they a cut of its frames. */
  lemma PackedOK(c: Config, near: map<ConnID, Near>, t: Tunnel, b: Block, cs: seq<seq<byte>>, n: nat, closes: bool)
    requires TunnelOK(c, near, t) && Cut(c.a, t, b, cs, n, closes) && Known(c, near, b)
    ensures TunnelOK(c, near, Packed(c.a, t, b, cs, n, closes))
  {
    FlattenConcat(t.chunks, cs);
    StreamPush(t.frames, b);
    KnownPush(c, near, t.frames, b);
    if !t.gap {
      MoreGapless(c.a, t.chunks, cs, t.wire, n);
    }
  }

  lemma MoreGapless(a: AEAD, chunks: seq<seq<byte>>, cs: seq<seq<byte>>, wire: seq<byte>, n: nat)
    requires Gapless(a, chunks, wire, true) && n <= |Wire(a, 2 * |chunks|, cs)|
    ensures var w := Wire(a, 2 * |chunks|, cs);
            Gapless(a, chunks + cs, wire + w[..n], n == |w|)
  {
    MoreWire(a, 0, chunks, cs, n);
  }

  lemma MoreWire(a: AEAD, k: nat, c: seq<seq<byte>>, d: seq<seq<byte>>, n: nat)
    requires n <= |Wire(a, k + 2 * |c|, d)|
    ensures var w := Wire(a, k + 2 * |c|, d);
            var all := Wire(a, k, c) + w[..n];
            all <= Wire(a, k, c + d) && (n == |w| ==> all == Wire(a, k, c + d))
  {
    WireConcat(a, k, c, d);
  }

  lemma Unbroken(c: Config, near: map<ConnID, Near>, t: Tunnel)
    requires c.a.Correct() && TunnelOK(c, near, t) && !t.gap
    ensures Trusted(c.a, t)
  {
    var w := t.wire[..t.arrived];
    assert w == Wire(c.a, 0, t.chunks)[..|w|];
    CutUnforged(c.a, 0, t.chunks, |w|);
  }

  /** The far end parses only blocks that were packed, in order, even when bytes are missing in between. */
  lemma ParsableIsPrefix(c: Config, near: map<ConnID, Near>, t: Tunnel)
    requires c.a.Correct() && TunnelOK(c, near, t) && (t.gap ==> Trusted(c.a, t))
    ensures Parsable(c.a, t) <= t.frames
  {
    if !t.gap {
      Unbroken(c, near, t);
    }
    var got := Records(c.a, 0, t.wire[..t.arrived]);
    UnforgedRecords(c.a, 0, t.chunks, t.wire[..t.arrived]);
    FlattenMonotone(got, t.chunks);
    ParseOfStreamPrefix(t.frames, Flatten(got));
  }

  lemma TunnelUpdate(c: Config, s: State, t: TunnelID, tn: Tunnel)
    requires Inv(c, s) && TunnelOK(c, s.near, tn)
    ensures Inv(c, s.(tunnels := s.tunnels[t := tn]))
  {
  }

  lemma PopKeeps(c: Config, s: State, from: From)
    requires Inv(c, s) && Head(s, from) != []
    ensures Inv(c, Pop(s, from)) && Known(c, s.near, Head(s, from)[0])
  {
  }

  lemma RetryingUpdate(c: Config, s: State, b: Block)
    requires Inv(c, s) && Known(c, s.near, b)
    ensures Inv(c, s.(retrying := s.retrying + multiset{b}))
  {
  }

  lemma SendKeeps(c: Config, s: State, s': State, t: TunnelID, from: From, cs: seq<seq<byte>>)
    requires Inv(c, s) && TunnelNext(c, s, s', Send(t, from, cs))
    ensures Inv(c, s')
  {
    var b, n := Head(s, from)[0], |Wire(c.a, 2 * |s.tunnels[t].chunks|, cs)|;
    PopKeeps(c, s, from);
    PackedOK(c, s.near, s.tunnels[t], b, cs, n, false);
    TunnelUpdate(c, Pop(s, from), t, Packed(c.a, s.tunnels[t], b, cs, n, false));
  }

  lemma SendFailsKeeps(c: Config, s: State, s': State, t: TunnelID, from: From, cs: seq<seq<byte>>, n: nat)
    requires Inv(c, s) && TunnelNext(c, s, s', SendFails(t, from, cs, n))
    ensures Inv(c, s')
  {
    var b := Head(s, from)[0];
    PopKeeps(c, s, from);
    PackedOK(c, s.near, s.tunnels[t], b, cs, n, true);
    TunnelUpdate(c, Pop(s, from), t, Packed(c.a, s.tunnels[t], b, cs, n, true));
    RetryingUpdate(c, Pop(s, from).(tunnels := s'.tunnels), b);
  }

  lemma DialKeeps(c: Config, s: State, s': State, t: TunnelID)
    requires Inv(c, s) && TunnelNext(c, s, s', Dial(t))
    ensures Inv(c, s')
  {
    TunnelUpdate(c, s, t, NEW_TUNNEL);
  }

  lemma SendOnBrokenKeeps(c: Config, s: State, s': State, t: TunnelID, from: From)
    requires Inv(c, s) && TunnelNext(c, s, s', SendOnBroken(t, from))
    ensures Inv(c, s')
  {
    PopKeeps(c, s, from);
    RetryingUpdate(c, Pop(s, from), Head(s, from)[0]);
  }

  lemma PingKeeps(c: Config, s: State, s': State, t: TunnelID, b: Block, n: nat)
    requires Inv(c, s) && TunnelNext(c, s, s', Ping(t, b, n))
    ensures Inv(c, s')
  {
    PackedOK(c, s.near, s.tunnels[t], b, [Encode(b)], n, false);
    TunnelUpdate(c, s, t, Packed(c.a, s.tunnels[t], b, [Encode(b)], n, false));
  }

  lemma ProgressKeeps(c: Config, s: State, s': State, t: TunnelID, n: nat)
    requires Inv(c, s) && TunnelNext(c, s, s', Progress(t, n))
    ensures Inv(c, s')
  {
    TunnelUpdate(c, s, t, s.tunnels[t].(arrived := n));
  }

  lemma ParsedIsKnown(c: Config, near: map<ConnID, Near>, t: Tunnel) returns (b: Block)
    requires c.a.Correct() && TunnelOK(c, near, t) && (t.gap ==> Trusted(c.a, t)) && t.parsed < |Parsable(c.a, t)|
    ensures b == Parsable(c.a, t)[t.parsed] && Known(c, near, b)
    ensures TunnelOK(c, near, t.(parsed := t.parsed + 1))
  {
    ParsableIsPrefix(c, near, t);
    b := t.frames[t.parsed];
  }

  lemma ParseKeeps(c: Config, s: State, s': State, t: TunnelID, forward: bool)
    requires Inv(c, s) && NoForgery(c, s) && ParseNext(c, s, s', t, forward)
    ensures Inv(c, s')
  {
    var tn := s.tunnels[t];
    assert TunnelOK(c, s.near, tn);
    var b := ParsedIsKnown(c, s.near, tn);
    var tn' := tn.(parsed := tn.parsed + 1);
    KnownPush(c, s.near, s.poolQueue, b);
    TunnelUpdate(c, s, t, tn');
    QueuesUpdate(c, s.(tunnels := s.tunnels[t := tn']), s');
  }

  lemma RelayQueueKeeps(c: Config, s: State, s': State, isLost: bool)
    requires Inv(c, s) && MiddleNext(c, s, s', ConnRelay(isLost))
    ensures Inv(c, s')
  {
    KnownTail(c, s.near, s.connQueue);
    KnownPush(c, s.near, s.sendQueue, s.connQueue[0]);
    QueuesUpdate(c, s, s');
  }

  lemma RetryKeeps(c: Config, s: State, s': State, b: Block)
    requires Inv(c, s) && (MiddleNext(c, s, s', RetryPut(b)) || MiddleNext(c, s, s', RetryLost(b)))
    ensures Inv(c, s')
  {
    KnownLess(c, s.near, s.retrying, b);
    KnownPush(c, s.near, s.retryQueue, b);
    QueuesUpdate(c, s, s');
  }

  lemma FarUpdate(c: Config, s: State, o: ObjectID, f: Far)
    requires Inv(c, s) && FarOK(c, s.near, f) && (o in s.far ==> s.far[o].id == f.id)
    ensures Inv(c, s.(far := s.far[o := f]))
  {
  }

  lemma HandedOK(c: Config, near: map<ConnID, Near>, f: Far, b: Block)
    requires FarOK(c, near, f) && Known(c, near, b) && b.connectionID == f.id
    ensures FarOK(c, near, Handed(f, b))
  {
    KnownPush(c, near, f.recvQueue, b);
    if f.side.Serving? {
      D.NextKeeps(f.sink.emitted, f.side.d, D.WithConnect(f.side.d), D.RecvConnect);
    }
  }

  lemma NewFarOK(c: Config, near: map<ConnID, Near>, id: ConnID, side: Side)
    requires side == Reading || side == Serving(D.INITIAL)
    ensures FarOK(c, near, Far(id, [], B.NEW_SINK, side))
  {
    B.NewSinkOK(IssuedUnder(near, id));
    D.InitialOK([]);
  }

  lemma RegisterKeeps(c: Config, s: State, s': State, step: Step)
    requires Inv(c, s) && step.Register? && Next(c, s, s', step)
    ensures Inv(c, s')
  {
    var id, newObject := step.id, step.newObject;
    NewFarOK(c, s.near, id, Reading);
    FarUpdate(c, s, newObject, Far(id, [], B.NEW_SINK, Reading));
  }

  lemma HandOnKeeps(c: Config, s: State, newObject: ObjectID)
    requires Inv(c, s) && CanHandOn(s, newObject)
    ensures Inv(c, HandOn(s, newObject))
  {
    var b := s.poolQueue[0];
    var id := b.connectionID;
    var t := s.(poolQueue := s.poolQueue[1..]);
    KnownTail(c, s.near, s.poolQueue);
    QueuesUpdate(c, s, t);
    if id in s.registry {
      var o := s.registry[id];
      HandedOK(c, s.near, s.far[o], b);
      FarUpdate(c, t, o, Handed(s.far[o], b));
    } else {
      NewFarOK(c, s.near, id, Serving(D.INITIAL));
      HandedOK(c, s.near, NewServer(id), b);
      FarUpdate(c, t, newObject, Handed(NewServer(id), b));
    }
  }

  lemma DemuxKeeps(c: Config, s: State, s': State, step: Step)
    requires Inv(c, s) && step.Demux? && Next(c, s, s', step)
    ensures Inv(c, s')
  {
    HandOnKeeps(c, s, step.newObject);
  }

  /** The block at the head of a receiving object's queue is the one its sender issued under that number. */
  lemma HeadIsGenuine(c: Config, s: State, o: ObjectID)
    requires Inv(c, s) && o in s.far && s.far[o].recvQueue != [] && s.far[o].id !in c.reserved
    ensures GenuineHead(s.near, s.far[o]) && s.far[o].id in s.near
  {
    var f := s.far[o];
    assert FarOK(c, s.near, f);
    assert Known(c, s.near, f.recvQueue[0]);
    assert NearOK(c, f.id, s.near[f.id]);
    B.IssuedById(f.id, s.near[f.id].source, f.recvQueue[0]);
  }

  ghost predicate GenuineHead(near: map<ConnID, Near>, f: Far)
    requires f.recvQueue != []
  {
    var b, issued := f.recvQueue[0], IssuedUnder(near, f.id);
    b in issued && |issued| <= MAX_ID && b.blockID < |issued| && b == issued[b.blockID]
  }

  /** More blocks emitted do not disturb the relays that take them. */
  lemma ServingGrows(f: Far, f': Far)
    requires f'.side == f.side && f.sink.emitted <= f'.sink.emitted
    requires f.side.Serving? ==> D.Inv(f.sink.emitted, f.side.d)
    ensures f'.side.Serving? ==> D.Inv(f'.sink.emitted, f'.side.d)
  {
    if f.side.Serving? {
      D.InvGrows(f.sink.emitted, f'.sink.emitted, f.side.d);
    }
  }

  /** A receiving object whose head of queue is genuine stays sound. */
  lemma MovesOK(c: Config, near: map<ConnID, Near>, f: Far, f': Far, step: Step)
    requires FarOK(c, near, f) && ObjectStep(step) && Moves(f, f', step)
    requires f.id !in c.reserved && f.recvQueue != [] ==> GenuineHead(near, f)
    ensures FarOK(c, near, f')
  {
    var issued := IssuedUnder(near, f.id);
    if f.id !in c.reserved {
      match step {
        case Relay(_) => B.DeliverKeeps(issued, f.sink, f'.sink, f.recvQueue[0]);
        case RelayCut(_, n) => B.DeliverCutKeeps(issued, f.sink, f'.sink, f.recvQueue[0], n);
        case Read(_, m, n) => B.ConsumeKeeps(issued, f.sink, f'.sink, m, n);
        case Serve(_, _) =>
      }
    }
    SideKept(f, f', step);
  }

  lemma SideKept(f: Far, f': Far, step: Step)
    requires ObjectStep(step) && Moves(f, f', step)
    requires f.side.Serving? ==> D.Inv(f.sink.emitted, f.side.d)
    ensures f'.side.Serving? ==> D.Inv(f'.sink.emitted, f'.side.d)
  {
    if step.Serve? {
      D.NextKeeps(f.sink.emitted, f.side.d, f'.side.d, step.step);
    } else {
      ServingGrows(f, f');
    }
  }

  lemma ObjectKeeps(c: Config, s: State, s': State, step: Step)
    requires Inv(c, s) && ObjectStep(step) && Next(c, s, s', step)
    ensures Inv(c, s')
  {
    var f, f' := s.far[step.o], s'.far[step.o];
    assert FarOK(c, s.near, f);
    if f.id !in c.reserved && f.recvQueue != [] {
      HeadIsGenuine(c, s, step.o);
    }
    MovesOK(c, s.near, f, f', step);
    FarUpdate(c, s, step.o, f');
  }

  lemma DemuxDropKeeps(c: Config, s: State, s': State, step: Step)
    requires Inv(c, s) && step.DemuxDrop? && Next(c, s, s', step)
    ensures Inv(c, s')
  {
    KnownTail(c, s.near, s.poolQueue);
    QueuesUpdate(c, s, s');
  }

  lemma UnregisterKeeps(c: Config, s: State, s': State, step: Step)
    requires Inv(c, s) && step.Unregister? && Next(c, s, s', step)
    ensures Inv(c, s')
  {
    assert FarsOK(c, s'.near, s'.registry, s'.far);
  }

  lemma ReceivingStepsKeep(c: Config, s: State, s': State, step: Step)
    requires Inv(c, s) && FarStep(step) && Next(c, s, s', step)
    ensures Inv(c, s')
  {
    if step.Register? {
      RegisterKeeps(c, s, s', step);
    } else if step.Demux? {
      DemuxKeeps(c, s, s', step);
    } else if step.DemuxDrop? {
      DemuxDropKeeps(c, s, s', step);
    } else if step.Unregister? {
      UnregisterKeeps(c, s, s', step);
    } else {
      ObjectKeeps(c, s, s', step);
    }
  }

  lemma SendingStepsKeep(c: Config, s: State, s': State, step: Step)
    requires Inv(c, s) && SenderStep(step) && SenderNext(c, s, s', step)
    ensures Inv(c, s')
  {
    match step {
      case Open(id) => OpenKeeps(c, s, s', id);
      case Write(id) => WriteKeeps(c, s, s', id);
      case Issue(id, b) => IssueKeeps(c, s, s', id, b);
      case Queue(id, b) => QueueKeeps(c, s, s', id, b);
    }
  }

  lemma TunnelStepsKeep(c: Config, s: State, s': State, step: Step)
    requires Inv(c, s) && TunnelStep(step) && TunnelNext(c, s, s', step)
    ensures Inv(c, s')
  {
    match step {
      case Dial(t) => DialKeeps(c, s, s', t);
      case Send(t, from, cs) => SendKeeps(c, s, s', t, from, cs);
      case SendFails(t, from, cs, n) => SendFailsKeeps(c, s, s', t, from, cs, n);
      case SendOnBroken(t, from) => SendOnBrokenKeeps(c, s, s', t, from);
      case Ping(t, b, n) => PingKeeps(c, s, s', t, b, n);
      case Progress(t, n) => ProgressKeeps(c, s, s', t, n);
    }
  }

  lemma QueueStepsKeep(c: Config, s: State, s': State, step: Step)
    requires Inv(c, s) && NoForgery(c, s) && MiddleStep(step) && MiddleNext(c, s, s', step)
    ensures Inv(c, s')
  {
    match step {
      case ConnRelay(isLost) => RelayQueueKeeps(c, s, s', isLost);
      case RetryPut(b) => RetryKeeps(c, s, s', b);
      case RetryLost(b) => RetryKeeps(c, s, s', b);
      case ParseOne(t, forward) => ParseKeeps(c, s, s', t, forward);
    }
  }

  /** Every step keeps the invariant, as long as nothing is forged. */
  lemma NextKeeps(c: Config, s: State, s': State, step: Step)
    requires Inv(c, s) && NoForgery(c, s) && Next(c, s, s', step)
    ensures Inv(c, s')
  {
    if SenderStep(step) {
      SendingStepsKeep(c, s, s', step);
    } else if TunnelStep(step) {
      TunnelStepsKeep(c, s, s', step);
    } else if MiddleStep(step) {
      QueueStepsKeep(c, s, s', step);
    } else {
      ReceivingStepsKeep(c, s, s', step);
    }
  }

  // ---------------------------------------------------------------- refinement

  /** A receiving object of a real connection, together with the sender it is paired with. */
  ghost predicate Paired(s: State, o: ObjectID) {
    o in s.far && s.far[o].id in s.near
  }

  ghost function Abstract(s: State, o: ObjectID): B.State
    requires Paired(s, o)
  {
    B.State(s.near[s.far[o].id].source, s.far[o].sink)
  }

  /** What an object's own step is to the bag: passing on to a dialled connection is none. */
  ghost function OwnStep(f: Far, step: Step): B.Step
    requires ObjectStep(step)
  {
    match step
    case Relay(_) => if f.recvQueue != [] then B.DeliverStep(f.recvQueue[0]) else B.Idle
    case RelayCut(_, n) => if f.recvQueue != [] then B.DeliverCutStep(f.recvQueue[0], n) else B.Idle
    case Read(_, m, n) => B.ConsumeStep(m, n)
    case Serve(_, _) => B.Idle
  }

  /** What a step of the whole system is for one receiving object: everything in between is the bag. */
  ghost function BagStep(s: State, step: Step, o: ObjectID): B.Step
    requires Paired(s, o)
  {
    if ObjectStep(step) then
      if step.o == o then OwnStep(s.far[o], step) else B.Idle
    else
      match step
      case Write(id) => if id == s.far[o].id then B.WriteStep else B.Idle
      case Issue(id, b) => if id == s.far[o].id then B.IssueStep(b) else B.Idle
      case _ => B.Idle
  }

  lemma AbstractOK(c: Config, s: State, o: ObjectID)
    requires Inv(c, s) && Paired(s, o)
    ensures B.StateOK(s.far[o].id, Abstract(s, o))
  {
    assert FarOK(c, s.near, s.far[o]);
    assert NearOK(c, s.far[o].id, s.near[s.far[o].id]);
  }

  lemma MovesRefine(id: ConnID, source: B.Source, f: Far, f': Far, step: Step)
    requires ObjectStep(step) && Moves(f, f', step) && (f.recvQueue != [] ==> f.recvQueue[0] in source.issued)
    ensures f'.id == f.id && B.Next(id, B.State(source, f.sink), B.State(source, f'.sink), OwnStep(f, step))
  {
  }

  lemma OwnRefines(s: State, s': State, step: Step, o: ObjectID)
    requires ObjectStep(step) && ObjectNext(s, s', step) && Paired(s, o)
    requires s.far[o].recvQueue != [] ==> s.far[o].recvQueue[0] in s.near[s.far[o].id].source.issued
    ensures Paired(s', o) && s'.far[o].id == s.far[o].id
    ensures B.Next(s.far[o].id, Abstract(s, o), Abstract(s', o), BagStep(s, step, o))
  {
    if step.o == o {
      MovesRefine(s.far[o].id, s.near[s.far[o].id].source, s.far[o], s'.far[o], step);
    } else {
      IdleRefines(s, s', o);
    }
  }

  lemma ReadingRefines(c: Config, s: State, s': State, step: Step, o: ObjectID)
    requires Inv(c, s) && ObjectStep(step) && Next(c, s, s', step) && Paired(s, o)
    ensures Paired(s', o) && s'.far[o].id == s.far[o].id
    ensures B.Next(s.far[o].id, Abstract(s, o), Abstract(s', o), BagStep(s, step, o))
  {
    OwnHead(c, s, o);
    OwnRefines(s, s', step, o);
  }

  lemma OwnHead(c: Config, s: State, o: ObjectID)
    requires Inv(c, s) && Paired(s, o)
    ensures s.far[o].recvQueue != [] ==> s.far[o].recvQueue[0] in s.near[s.far[o].id].source.issued
  {
    assert NearOK(c, s.far[o].id, s.near[s.far[o].id]);
    if s.far[o].recvQueue != [] {
      HeadIsGenuine(c, s, o);
    }
  }

  lemma DemuxRefines(c: Config, s: State, s': State, step: Step, o: ObjectID)
    requires (step.Demux? || step.Register?) && FarNext(c, s, s', step) && Paired(s, o)
    ensures Paired(s', o) && s'.far[o].id == s.far[o].id && Abstract(s', o) == Abstract(s, o)
  {
  }

  /** One sender moves on by itself. */
  lemma SourceRefines(s: State, s': State, id: ConnID, step: B.Step, o: ObjectID)
    requires Paired(s, o) && s'.far == s.far && id in s.near && id in s'.near && s'.near == s.near[id := s'.near[id]]
    requires step == B.WriteStep || step.IssueStep? || step == B.Idle
    requires step == B.WriteStep ==> B.Write(s.near[id].source, s'.near[id].source)
    requires step.IssueStep? ==> B.Issue(id, s.near[id].source, s'.near[id].source, step.b)
    requires step == B.Idle ==> s'.near[id].source == s.near[id].source
    ensures Paired(s', o) && s'.far[o].id == s.far[o].id
    ensures B.Next(s.far[o].id, Abstract(s, o), Abstract(s', o), if id == s.far[o].id then step else B.Idle)
  {
  }

  /** A step that changes neither a sender in place nor an object. */
  lemma IdleRefines(s: State, s': State, o: ObjectID)
    requires Paired(s, o) && Paired(s', o) && Abstract(s', o) == Abstract(s, o) && s'.far[o].id == s.far[o].id
    ensures B.Next(s.far[o].id, Abstract(s, o), Abstract(s', o), B.Idle)
  {
  }

  lemma SendingRefines(c: Config, s: State, s': State, step: Step, o: ObjectID)
    requires SenderStep(step) && Next(c, s, s', step) && Paired(s, o)
    ensures Paired(s', o) && s'.far[o].id == s.far[o].id
    ensures B.Next(s.far[o].id, Abstract(s, o), Abstract(s', o), BagStep(s, step, o))
  {
    match step {
      case Open(id) => IdleRefines(s, s', o);
      case Write(id) => SourceRefines(s, s', id, B.WriteStep, o);
      case Issue(id, b) => SourceRefines(s, s', id, B.IssueStep(b), o);
      case Queue(id, b) => SourceRefines(s, s', id, B.Idle, o);
    }
  }

  /** Whatever happens between the sending and the receiving ends touches neither. */
  lemma MiddleHides(c: Config, s: State, s': State, step: Step)
    requires MiddleStep(step) && MiddleNext(c, s, s', step)
    ensures s'.near == s.near && s'.far == s.far
  {
  }

  lemma TunnelHides(c: Config, s: State, s': State, step: Step)
    requires TunnelStep(step) && TunnelNext(c, s, s', step)
    ensures s'.near == s.near && s'.far == s.far
  {
  }

  lemma FarKeepsNear(c: Config, s: State, s': State, step: Step)
    requires FarStep(step) && FarNext(c, s, s', step)
    ensures s'.near == s.near
    ensures step.DemuxDrop? || step.Unregister? ==> s'.far == s.far
  {
  }

  lemma SenderKeepsFar(c: Config, s: State, s': State, step: Step)
    requires SenderStep(step) && SenderNext(c, s, s', step)
    ensures s'.far == s.far
  {
  }

  /**
   * The system of queues, retries, encrypted tunnels and demultiplexing refines the bag:
   * for every receiving object, every step is a step of the bag or changes nothing there.
   */
  lemma SystemRefinesBag(c: Config, s: State, s': State, step: Step, o: ObjectID)
    requires Inv(c, s) && Next(c, s, s', step) && Paired(s, o)
    ensures Paired(s', o) && s'.far[o].id == s.far[o].id
    ensures B.Next(s.far[o].id, Abstract(s, o), Abstract(s', o), BagStep(s, step, o))
  {
    if SenderStep(step) {
      SendingRefines(c, s, s', step, o);
    } else if ObjectStep(step) {
      ReadingRefines(c, s, s', step, o);
    } else {
      OthersIdle(c, s, s', step, o);
    }
  }

  lemma OthersIdle(c: Config, s: State, s': State, step: Step, o: ObjectID)
    requires Next(c, s, s', step) && Paired(s, o) && !SenderStep(step) && !ObjectStep(step)
    ensures Paired(s', o) && s'.far[o].id == s.far[o].id
    ensures B.Next(s.far[o].id, Abstract(s, o), Abstract(s', o), BagStep(s, step, o))
  {
    if MiddleStep(step) {
      MiddleHides(c, s, s', step);
    } else if TunnelStep(step) {
      TunnelHides(c, s, s', step);
    } else if step.Demux? || step.Register? {
      DemuxRefines(c, s, s', step, o);
    } else {
      FarKeepsNear(c, s, s', step);
    }
    IdleRefines(s, s', o);
  }

  // ---------------------------------------------------------------- what is delivered

  /** The bytes a receiving object has passed on: to its reader, or to the first connection it has dialled. */
  ghost function Delivered(f: Far): seq<byte> {
    match f.side
    case Reading => f.sink.read
    case Serving(d) => if d.conns == [] then [] else d.conns[0].wire
  }

  /** One reader, or one dialled connection with its one pair of relays. */
  ghost predicate Single(f: Far) {
    f.side.Serving? ==> |f.side.d.conns| <= 1
  }

  /** Everything passed on is a prefix of what was written. */
  ghost predicate InOrder(f: Far, written: seq<byte>) {
    match f.side
    case Reading => f.sink.read <= written
    case Serving(d) => forall j :: 0 <= j < |d.conns| ==> d.conns[j].wire <= written
  }

  lemma SingleInOrder(c: Config, s: State, o: ObjectID)
    requires Inv(c, s) && Paired(s, o) && Single(s.far[o])
    ensures InOrder(s.far[o], s.near[s.far[o].id].source.written)
  {
    AbstractOK(c, s, o);
    var f, source := s.far[o], s.near[s.far[o].id].source;
    match f.side {
      case Reading => B.ReadIsPrefix(f.id, Abstract(s, o));
      case Serving(d) =>
        assert FarOK(c, s.near, f);
        D.SingleDialInOrder(f.sink.emitted, d);
        DataOfPrefix(f.sink.emitted, source.issued);
    }
  }

  ghost function View(s: State, o: ObjectID): B.Pipe
    requires Paired(s, o)
  {
    B.Pipe(s.near[s.far[o].id].source.written, Delivered(s.far[o]))
  }

  /** The object persists with its name, bytes only ever follow, and with a single reader they come in order. */
  ghost predicate StreamsOn(s: State, s': State, o: ObjectID)
    requires Paired(s, o)
  {
    && Paired(s', o) && s'.far[o].id == s.far[o].id
    && View(s, o).written <= View(s', o).written && View(s, o).read <= View(s', o).read
    && (Single(s'.far[o]) ==> B.PipeNext(View(s, o), View(s', o)))
  }

  /** The same kind of side, and if it dials, what has been delivered only grows. */
  ghost predicate SideGrew(f: Far, f': Far) {
    match f.side
    case Reading => f'.side.Reading?
    case Serving(_) => f'.side.Serving? && Delivered(f) <= Delivered(f')
  }

  lemma DemuxSide(c: Config, s: State, s': State, step: Step, o: ObjectID)
    requires (step.Demux? || step.Register?) && FarNext(c, s, s', step) && o in s.far
    ensures o in s'.far && SideGrew(s.far[o], s'.far[o])
  {
  }

  lemma ServeSide(s: State, s': State, step: Step, o: ObjectID)
    requires ObjectStep(step) && ObjectNext(s, s', step) && o in s.far
    ensures o in s'.far && SideGrew(s.far[o], s'.far[o])
  {
    if step.Serve? && step.o == o {
      D.NextGrows(s.far[o].sink.emitted, s.far[o].side.d, s'.far[o].side.d, step.step);
    }
  }

  lemma SideGrows(c: Config, s: State, s': State, step: Step, o: ObjectID)
    requires Next(c, s, s', step) && o in s.far
    ensures o in s'.far && SideGrew(s.far[o], s'.far[o])
  {
    if SenderStep(step) {
      SenderKeepsFar(c, s, s', step);
    } else if MiddleStep(step) {
      MiddleHides(c, s, s', step);
    } else if TunnelStep(step) {
      TunnelHides(c, s, s', step);
    } else if ObjectStep(step) {
      ServeSide(s, s', step, o);
    } else if step.Demux? || step.Register? {
      DemuxSide(c, s, s', step, o);
    } else {
      FarKeepsNear(c, s, s', step);
    }
  }

  /** Bytes written and bytes passed on are only ever added to. */
  lemma BytesFollow(c: Config, s: State, s': State, step: Step, o: ObjectID)
    requires Inv(c, s) && Next(c, s, s', step) && Paired(s, o)
    ensures Paired(s', o) && s'.far[o].id == s.far[o].id
    ensures View(s, o).written <= View(s', o).written && View(s, o).read <= View(s', o).read
  {
    SystemRefinesBag(c, s, s', step, o);
    AbstractOK(c, s, o);
    B.BagRefinesPipe(s.far[o].id, Abstract(s, o), Abstract(s', o), BagStep(s, step, o));
    SideGrows(c, s, s', step, o);
  }

  lemma StepIsStreamStep(c: Config, s: State, s': State, step: Step, o: ObjectID)
    requires Inv(c, s) && NoForgery(c, s) && Next(c, s, s', step) && Paired(s, o)
    ensures StreamsOn(s, s', o)
  {
    BytesFollow(c, s, s', step, o);
    if Single(s'.far[o]) {
      NextKeeps(c, s, s', step);
      SingleInOrder(c, s', o);
    }
  }

  // ---------------------------------------------------------------- whole runs

  ghost predicate Run(c: Config, states: seq<State>, steps: seq<Step>) {
    && c.a.Correct() && |states| == |steps| + 1 && states[0] == START_STATE
    && (forall i :: 0 <= i < |states| ==> NoForgery(c, states[i]))
    && (forall i :: 0 <= i < |steps| ==> Next(c, states[i], states[i + 1], steps[i]))
  }

  lemma {:induction false} RunInv(c: Config, states: seq<State>, steps: seq<Step>, i: nat)
    requires Run(c, states, steps) && i < |states|
    ensures Inv(c, states[i])
  {
    if i > 0 {
      RunInv(c, states, steps, i - 1);
      NextKeeps(c, states[i - 1], states[i], steps[i - 1]);
    }
  }

  /**
   * In every run, at every moment, every receiving object has passed on a prefix of what its sender wrote, provided
   * that, if it is one that dials, at most one of its dials has succeeded: as it must be if at most one connect went
   * on to dial, or at most one Connect block came.
   */
  lemma EndToEnd(c: Config, states: seq<State>, steps: seq<Step>, i: nat, o: ObjectID)
    requires Run(c, states, steps) && i < |states| && Paired(states[i], o)
    ensures Single(states[i].far[o]) ==> InOrder(states[i].far[o], states[i].near[states[i].far[o].id].source.written)
    ensures var f := states[i].far[o];
            f.side.Serving? ==> |f.side.d.conns| <= f.side.d.passed <= f.side.d.received
  {
    RunInv(c, states, steps, i);
    assert FarOK(c, states[i].near, states[i].far[o]);
    if Single(states[i].far[o]) {
      SingleInOrder(c, states[i], o);
    }
  }

  lemma StreamsOnTransitive(s: State, t: State, u: State, o: ObjectID)
    requires Paired(s, o) && StreamsOn(s, t, o) && StreamsOn(t, u, o)
    ensures StreamsOn(s, u, o)
  {
  }

  lemma RunStreams(c: Config, states: seq<State>, steps: seq<Step>, k: nat, o: ObjectID)
    requires Run(c, states, steps) && k < |steps| && Paired(states[k], o)
    ensures StreamsOn(states[k], states[k + 1], o)
  {
    RunInv(c, states, steps, k);
    StepIsStreamStep(c, states[k], states[k + 1], steps[k], o);
  }

  /** From state i on, each single step leaves the object streaming. */
  ghost predicate StepwiseFrom(states: seq<State>, i: nat, o: ObjectID) {
    forall k :: i <= k < |states| - 1 && Paired(states[k], o) ==> StreamsOn(states[k], states[k + 1], o)
  }

  lemma {:induction false} StreamsChain(states: seq<State>, i: nat, j: nat, o: ObjectID)
    requires i <= j < |states| && Paired(states[i], o) && StreamsOn(states[i], states[i], o)
    requires StepwiseFrom(states, i, o)
    ensures StreamsOn(states[i], states[j], o)
    decreases j
  {
    if i < j {
      StreamsChain(states, i, j - 1, o);
      var k := j - 1;
      assert StreamsOn(states[k], states[k + 1], o);
      StreamsOnTransitive(states[i], states[k], states[j], o);
    }
  }

  /**
   * Between any two moments of a run each receiving object keeps its name, bytes only ever follow, and with a single
   * reader or dialled connection it behaves as the promised stream.
   */
  lemma StreamOverTime(c: Config, states: seq<State>, steps: seq<Step>, i: nat, j: nat, o: ObjectID)
    requires Run(c, states, steps) && i <= j < |states| && Paired(states[i], o)
    ensures StreamsOn(states[i], states[j], o)
  {
    EndToEnd(c, states, steps, i, o);
    forall k | i <= k < |states| - 1 && Paired(states[k], o)
      ensures StreamsOn(states[k], states[k + 1], o)
    {
      RunStreams(c, states, steps, k, o);
    }
    StreamsChain(states, i, j, o);
  }

  /** A registered object is registered under its own id, so a block is only ever handed to the connection it names. */
  lemma HandedToItsOwn(c: Config, states: seq<State>, steps: seq<Step>, i: nat, o: ObjectID)
    requires Run(c, states, steps) && i < |states| && o in states[i].far
    ensures var f := states[i].far[o];
            forall k :: 0 <= k < |f.recvQueue| ==> f.recvQueue[k].connectionID == f.id
    ensures forall id, id' ::
              id in states[i].registry && id' in states[i].registry && states[i].registry[id] == states[i].registry[id']
              ==> id == id'
  {
    RunInv(c, states, steps, i);
    assert FarOK(c, states[i].near, states[i].far[o]);
  }
}
