/** Runs of the protocol that show its duplicates and gaps to be real, and what a repeated Connect block does. */
module Scenarios {
  import opened Bytes
  import opened Blocks
  import opened RecordLayer
  import opened Protocol
  import T = TunnelRelay
  import R = Resequencer

  function Last(states: seq<State>): State
    requires states != []
  {
    states[|states| - 1]
  }

  lemma Extend(c: Config, states: seq<State>, steps: seq<Step>, s: State, s': State, step: Step)
      returns (states': seq<State>, steps': seq<Step>)
    requires Run(c, states, steps) && s == Last(states)
    requires Next(c, s, s', step) && NoForgery(c, s')
    ensures Run(c, states', steps') && Last(states') == s'
  {
    states', steps' := states + [s'], steps + [step];
    forall i | 0 <= i < |steps'|
      ensures Next(c, states'[i], states'[i + 1], steps'[i])
    {
      if i < |steps| {
        assert Next(c, states[i], states[i + 1], steps[i]);
      }
    }
  }

  ghost predicate Gapfree(s: State) {
    forall u :: u in s.tunnels ==> !s.tunnels[u].gap
  }

  // ---------------------------------------------------------------- one block through one tunnel

  /** The records into which a frame is cut. */
  function Pieces(b: Block): seq<seq<byte>> {
    T.Split(Encode(b))
  }

  function WireOf(a: AEAD, b: Block): seq<byte> {
    Wire(a, 0, Pieces(b))
  }

  /** A tunnel through which the frame of b went whole; broken if the write reported an error all the same. */
  function Carried(a: AEAD, b: Block, broken: bool): Tunnel {
    Tunnel([b], Pieces(b), WireOf(a, b), false, broken, 0, 0)
  }

  lemma ParsesAlone(b: Block)
    requires b.WellFormed()
    ensures ParseAll(Encode(b)) == [b]
  {
    assert Stream([b]) == Encode(b) + Stream([b][1..]) == Encode(b);
    ParseAllOfStream([b]);
  }

  lemma CarriedRecords(a: AEAD, b: Block)
    requires a.Correct() && b.WellFormed()
    ensures Records(a, 0, WireOf(a, b)) == Pieces(b) && ChunksOK(Pieces(b)) && Flatten(Pieces(b)) == Encode(b)
  {
    var e, w := Pieces(b), WireOf(a, b);
    assert w[..|w|] == w && e[..|e|] == e;
    RecordsOfCut(a, 0, e, |w|);
  }

  lemma CarriedParses(c: Config, b: Block, t: Tunnel)
    requires c.a.Correct() && b.WellFormed() && t.wire == WireOf(c.a, b) && t.arrived == |t.wire|
    ensures Parsable(c.a, t) == [b]
  {
    CarriedRecords(c.a, b);
    assert t.wire[..t.arrived] == t.wire;
    ParsesAlone(b);
  }

  lemma CarriedWhole(c: Config, b: Block, broken: bool)
    requires c.a.Correct() && b.WellFormed()
    ensures var n := |WireOf(c.a, b)|;
            && Cut(c.a, NEW_TUNNEL, b, Pieces(b), n, broken)
            && Packed(c.a, NEW_TUNNEL, b, Pieces(b), n, broken) == Carried(c.a, b, broken)
  {
    var w := WireOf(c.a, b);
    CarriedRecords(c.a, b);
    assert w[..|w|] == w;
  }

  /** All queues are empty, and the tunnels so far have numbers below k. */
  ghost predicate Resting(s: State, k: TunnelID) {
    && s.connQueue == s.sendQueue == s.retryQueue == s.poolQueue == [] && s.retrying == multiset{}
    && Gapfree(s) && forall t :: t in s.tunnels ==> t < k
  }

  function WithMade(s: State, id: ConnID, made: multiset<Block>): State
    requires id in s.near
  {
    s.(near := s.near[id := s.near[id].(made := made)])
  }

  lemma DoQueue(c: Config, states: seq<State>, steps: seq<Step>, s: State, id: ConnID, b: Block, made: multiset<Block>)
      returns (states': seq<State>, steps': seq<Step>, s': State)
    requires Run(c, states, steps) && s == Last(states) && Gapfree(s)
    requires id in s.near && s.near[id].made == made + multiset{b} && s.connQueue == []
    ensures Run(c, states', steps') && s' == Last(states') && s' == WithMade(s, id, made).(connQueue := [b])
  {
    assert made + multiset{b} - multiset{b} == made;
    s' := WithMade(s, id, made).(connQueue := [b]);
    states', steps' := Extend(c, states, steps, s, s', Queue(id, b));
  }

  lemma DoConnRelay(c: Config, states: seq<State>, steps: seq<Step>, s: State, b: Block)
      returns (states': seq<State>, steps': seq<Step>, s': State)
    requires Run(c, states, steps) && s == Last(states) && Gapfree(s) && s.connQueue == [b] && s.sendQueue == []
    ensures Run(c, states', steps') && s' == Last(states') && s' == s.(connQueue := [], sendQueue := [b])
  {
    s' := s.(connQueue := [], sendQueue := [b]);
    states', steps' := Extend(c, states, steps, s, s', ConnRelay(false));
  }

  lemma DoDial(c: Config, states: seq<State>, steps: seq<Step>, s: State, t: TunnelID)
      returns (states': seq<State>, steps': seq<Step>, s': State)
    requires Run(c, states, steps) && s == Last(states) && Gapfree(s) && t !in s.tunnels
    ensures Run(c, states', steps') && s' == Last(states') && Gapfree(s')
    ensures s' == s.(tunnels := s.tunnels[t := NEW_TUNNEL])
  {
    s' := s.(tunnels := s.tunnels[t := NEW_TUNNEL]);
    states', steps' := Extend(c, states, steps, s, s', Dial(t));
  }

  /** A block that has its number is queued, and a new tunnel is there for it. */
  lemma ToTunnel(c: Config, states: seq<State>, steps: seq<Step>, s: State, id: ConnID, b: Block,
                 made: multiset<Block>, t: TunnelID)
      returns (states': seq<State>, steps': seq<Step>, s': State)
    requires Run(c, states, steps) && s == Last(states) && Gapfree(s) && t !in s.tunnels
    requires id in s.near && s.near[id].made == made + multiset{b} && s.connQueue == s.sendQueue == []
    ensures Run(c, states', steps') && s' == Last(states') && Gapfree(s')
    ensures s' == WithMade(s, id, made).(sendQueue := [b], tunnels := s.tunnels[t := NEW_TUNNEL])
  {
    states', steps', s' := DoQueue(c, states, steps, s, id, b, made);
    states', steps', s' := DoConnRelay(c, states', steps', s', b);
    states', steps', s' := DoDial(c, states', steps', s', t);
  }

  lemma DoSend(c: Config, states: seq<State>, steps: seq<Step>, s: State, b: Block, t: TunnelID, from: From)
      returns (states': seq<State>, steps': seq<Step>, s': State)
    requires Run(c, states, steps) && s == Last(states) && Gapfree(s)
    requires b.WellFormed() && t in s.tunnels && s.tunnels[t] == NEW_TUNNEL && Head(s, from) == [b]
    ensures Run(c, states', steps') && s' == Last(states') && Gapfree(s')
    ensures s' == Pop(s, from).(tunnels := s.tunnels[t := Carried(c.a, b, false)])
  {
    CarriedWhole(c, b, false);
    s' := Pop(s, from).(tunnels := s.tunnels[t := Carried(c.a, b, false)]);
    states', steps' := Extend(c, states, steps, s, s', Protocol.Send(t, from, Pieces(b)));
  }

  /** The write takes every byte and errs all the same. */
  lemma DoErr(c: Config, states: seq<State>, steps: seq<Step>, s: State, b: Block, t: TunnelID)
      returns (states': seq<State>, steps': seq<Step>, s': State)
    requires Run(c, states, steps) && s == Last(states) && Gapfree(s)
    requires b.WellFormed() && t in s.tunnels && s.tunnels[t] == NEW_TUNNEL
    requires s.sendQueue == [b] && s.retrying == multiset{}
    ensures Run(c, states', steps') && s' == Last(states') && Gapfree(s')
    ensures s' == s.(sendQueue := [], retrying := multiset{b}, tunnels := s.tunnels[t := Carried(c.a, b, true)])
  {
    CarriedWhole(c, b, true);
    s' := s.(sendQueue := [], retrying := multiset{b}, tunnels := s.tunnels[t := Carried(c.a, b, true)]);
    states', steps' := Extend(c, states, steps, s, s', SendFails(t, Normal, Pieces(b), |WireOf(c.a, b)|));
  }

  lemma DoRetry(c: Config, states: seq<State>, steps: seq<Step>, s: State, b: Block)
      returns (states': seq<State>, steps': seq<Step>, s': State)
    requires Run(c, states, steps) && s == Last(states) && Gapfree(s) && s.retrying == multiset{b} && s.retryQueue == []
    ensures Run(c, states', steps') && s' == Last(states') && s' == s.(retrying := multiset{}, retryQueue := [b])
  {
    assert multiset{b} - multiset{b} == multiset{};
    s' := s.(retrying := multiset{}, retryQueue := [b]);
    states', steps' := Extend(c, states, steps, s, s', RetryPut(b));
  }

  function WithTunnel(s: State, t: TunnelID, tn: Tunnel): State {
    s.(tunnels := s.tunnels[t := tn])
  }

  lemma DoCome(c: Config, states: seq<State>, steps: seq<Step>, s: State, b: Block, broken: bool, t: TunnelID)
      returns (states': seq<State>, steps': seq<Step>, s': State)
    requires Run(c, states, steps) && s == Last(states) && Gapfree(s)
    requires t in s.tunnels && s.tunnels[t] == Carried(c.a, b, broken)
    ensures Run(c, states', steps') && s' == Last(states') && Gapfree(s')
    ensures s' == WithTunnel(s, t, Carried(c.a, b, broken).(arrived := |WireOf(c.a, b)|))
  {
    s' := WithTunnel(s, t, Carried(c.a, b, broken).(arrived := |WireOf(c.a, b)|));
    states', steps' := Extend(c, states, steps, s, s', Progress(t, |WireOf(c.a, b)|));
  }

  /** A tunnel of which one block can be parsed, but has not been. */
  ghost predicate OneToParse(a: AEAD, tn: Tunnel, b: Block) {
    tn.arrived <= |tn.wire| && Parsable(a, tn) == [b] && tn.parsed == 0
  }

  lemma ParseIsNext(c: Config, s: State, t: TunnelID, b: Block)
    requires t in s.tunnels && OneToParse(c.a, s.tunnels[t], b) && s.poolQueue == []
    ensures Next(c, s, WithTunnel(s, t, s.tunnels[t].(parsed := 1)).(poolQueue := [b]), ParseOne(t, true))
  {
    assert [] + [b] == [b];
  }

  lemma DoParse(c: Config, states: seq<State>, steps: seq<Step>, s: State, t: TunnelID, b: Block)
      returns (states': seq<State>, steps': seq<Step>, s': State)
    requires Run(c, states, steps) && s == Last(states) && Gapfree(s) && s.poolQueue == []
    requires t in s.tunnels && OneToParse(c.a, s.tunnels[t], b)
    ensures Run(c, states', steps') && s' == Last(states') && Gapfree(s')
    ensures s' == WithTunnel(s, t, s.tunnels[t].(parsed := 1)).(poolQueue := [b])
  {
    ParseIsNext(c, s, t, b);
    s' := WithTunnel(s, t, s.tunnels[t].(parsed := 1)).(poolQueue := [b]);
    states', steps' := Extend(c, states, steps, s, s', ParseOne(t, true));
  }

  datatype Objects = Objects(registry: map<ConnID, ObjectID>, far: map<ObjectID, Far>)

  /** The objects after a block has been handed on, to object 0 if there was none. */
  function HandedTo(k: Objects, b: Block): Objects
    requires b.connectionID in k.registry ==> k.registry[b.connectionID] in k.far
  {
    var id := b.connectionID;
    if id in k.registry then
      var o := k.registry[id];
      k.(far := k.far[o := Handed(k.far[o], b)])
    else
      Objects(k.registry[id := 0], k.far[0 := Handed(NewServer(id), b)])
  }

  function HandedOn(s: State, b: Block): State
    requires b.connectionID in s.registry ==> s.registry[b.connectionID] in s.far
  {
    var k := HandedTo(Objects(s.registry, s.far), b);
    s.(registry := k.registry, far := k.far)
  }

  /** Handing on twice to the same id: the object is there the second time. */
  lemma HandedTwice(s: State, b: Block)
    requires b.connectionID !in s.registry
    ensures b.connectionID in HandedOn(s, b).registry && HandedOn(s, b).registry[b.connectionID] in HandedOn(s, b).far
  {
  }

  lemma DoDemux(c: Config, states: seq<State>, steps: seq<Step>, s: State, b: Block)
      returns (states': seq<State>, steps': seq<Step>, s': State)
    requires Run(c, states, steps) && s == Last(states) && Gapfree(s) && s.poolQueue == [b] && CanHandOn(s, 0)
    ensures Run(c, states', steps') && s' == Last(states') && s' == HandedOn(s, b).(poolQueue := [])
  {
    s' := HandedOn(s, b).(poolQueue := []);
    states', steps' := Extend(c, states, steps, s, s', Demux(0));
  }

  /** All that a tunnel carries arrives, is parsed, and is handed on. */
  lemma Arrives(c: Config, b: Block, broken: bool, states: seq<State>, steps: seq<Step>, s: State, t: TunnelID)
      returns (states': seq<State>, steps': seq<Step>, s': State)
    requires b.WellFormed() && Run(c, states, steps) && s == Last(states) && Gapfree(s) && s.poolQueue == []
    requires t in s.tunnels && s.tunnels[t] == Carried(c.a, b, broken)
    requires if b.connectionID in s.registry then s.registry[b.connectionID] in s.far else 0 !in s.far
    ensures Run(c, states', steps') && s' == Last(states') && Gapfree(s')
    ensures s'.tunnels.Keys == s.tunnels.Keys && s' == HandedOn(s, b).(tunnels := s'.tunnels)
    ensures forall u :: u in s.tunnels && u != t ==> s'.tunnels[u] == s.tunnels[u]
  {
    states', steps', s' := DoCome(c, states, steps, s, b, broken, t);
    CarriedParses(c, b, s'.tunnels[t]);
    states', steps', s' := DoParse(c, states', steps', s', t, b);
    states', steps', s' := DoDemux(c, states', steps', s', b);
  }

  /** A block goes all the way from its sender to the receiving object, through a tunnel of its own. */
  lemma Ferry(c: Config, states: seq<State>, steps: seq<Step>, s: State, id: ConnID, b: Block,
              made: multiset<Block>, k: TunnelID)
      returns (states': seq<State>, steps': seq<Step>, s': State)
    requires Run(c, states, steps) && s == Last(states) && Resting(s, k) && b.WellFormed()
    requires id in s.near && s.near[id].made == made + multiset{b}
    requires if b.connectionID in s.registry then s.registry[b.connectionID] in s.far else 0 !in s.far
    ensures Run(c, states', steps') && s' == Last(states') && Resting(s', k + 1)
    ensures s' == WithMade(HandedOn(s, b), id, made).(tunnels := s'.tunnels)
  {
    states', steps', s' := ToTunnel(c, states, steps, s, id, b, made, k);
    states', steps', s' := DoSend(c, states', steps', s', b, k, Normal);
    states', steps', s' := Arrives(c, b, false, states', steps', s', k);
  }

  lemma SendTwice(c: Config, states: seq<State>, steps: seq<Step>, s: State, b: Block, k: TunnelID)
      returns (states': seq<State>, steps': seq<Step>, s': State)
    requires Run(c, states, steps) && s == Last(states) && Gapfree(s) && b.WellFormed()
    requires k in s.tunnels && s.tunnels[k] == NEW_TUNNEL && k + 1 !in s.tunnels
    requires s.sendQueue == [b] && s.retryQueue == [] && s.retrying == multiset{}
    ensures Run(c, states', steps') && s' == Last(states') && Gapfree(s')
    ensures s' == s.(sendQueue := [],
                     tunnels := s.tunnels[k := Carried(c.a, b, true)][k + 1 := Carried(c.a, b, false)])
  {
    states', steps', s' := DoErr(c, states, steps, s, b, k);
    states', steps', s' := DoRetry(c, states', steps', s', b);
    states', steps', s' := DoDial(c, states', steps', s', k + 1);
    states', steps', s' := DoSend(c, states', steps', s', b, k + 1, Retry);
  }

  lemma BothArrive(c: Config, b: Block, states: seq<State>, steps: seq<Step>, s: State, k: TunnelID)
      returns (states': seq<State>, steps': seq<Step>, s': State)
    requires b.WellFormed() && Run(c, states, steps) && s == Last(states) && Gapfree(s) && s.poolQueue == []
    requires k in s.tunnels && s.tunnels[k] == Carried(c.a, b, true)
    requires k + 1 in s.tunnels && s.tunnels[k + 1] == Carried(c.a, b, false)
    requires b.connectionID !in s.registry && 0 !in s.far
    ensures Run(c, states', steps') && s' == Last(states') && Gapfree(s')
    ensures s'.tunnels.Keys == s.tunnels.Keys && s' == HandedOn(HandedOn(s, b), b).(tunnels := s'.tunnels)
  {
    HandedTwice(s, b);
    states', steps', s' := Arrives(c, b, true, states, steps, s, k);
    states', steps', s' := Arrives(c, b, false, states', steps', s', k + 1);
  }

  /** The write to tunnel k takes every byte and errs; the retry goes whole through tunnel k+1; both copies arrive. */
  lemma FerryTwice(c: Config, states: seq<State>, steps: seq<Step>, s: State, id: ConnID, b: Block,
                   made: multiset<Block>, k: TunnelID)
      returns (states': seq<State>, steps': seq<Step>, s': State)
    requires Run(c, states, steps) && s == Last(states) && Resting(s, k) && b.WellFormed()
    requires id in s.near && s.near[id].made == made + multiset{b} && b.connectionID == id
    requires id !in s.registry && 0 !in s.far
    ensures Run(c, states', steps') && s' == Last(states') && Resting(s', k + 2)
    ensures s' == WithMade(HandedOn(HandedOn(s, b), b), id, made).(tunnels := s'.tunnels)
  {
    HandedTwice(s, b);
    states', steps', s' := ToTunnel(c, states, steps, s, id, b, made, k);
    states', steps', s' := SendTwice(c, states', steps', s', b, k);
    states', steps', s' := BothArrive(c, b, states', steps', s', k);
  }

  // ---------------------------------------------------------------- the sender

  /** Blocks that connection id may issue, in this order. */
  ghost predicate Issuable(c: Config, id: ConnID, bs: seq<Block>) {
    id !in c.reserved && |bs| < 0xFFFF_FFFF
    && forall i :: 0 <= i < |bs| ==> bs[i].WellFormed() && bs[i].blockID == i && bs[i].connectionID == id
  }

  /** The first i blocks have their numbers; all their data has been written. */
  function IssuedSome(id: ConnID, bs: seq<Block>, i: nat): State
    requires i <= |bs|
  {
    START_STATE.(near := map[id := Near(B.Source(DataOf(bs), DataOf(bs[i..]), bs[..i]), multiset(bs[..i]))])
  }

  lemma OpenAndWrite(c: Config, id: ConnID, bs: seq<Block>) returns (states: seq<State>, steps: seq<Step>)
    requires Issuable(c, id, bs) && c.a.Correct()
    ensures Run(c, states, steps) && Last(states) == IssuedSome(id, bs, 0)
  {
    var s1, s2 := START_STATE.(near := map[id := Near(B.Source([], [], []), multiset{})]), IssuedSome(id, bs, 0);
    assert bs[..0] == [] && bs[0..] == bs && DataOf(bs)[0..] == DataOf(bs);
    assert Next(c, START_STATE, s1, Open(id));
    assert Next(c, s1, s2, Write(id)) by {
      assert s1.near[id := s1.near[id].(source := s2.near[id].source)] == s2.near;
    }
    states, steps := Extend(c, [START_STATE], [], START_STATE, s1, Open(id));
    states, steps := Extend(c, states, steps, s1, s2, Write(id));
  }

  lemma IssueOne(c: Config, id: ConnID, bs: seq<Block>, i: nat)
    requires Issuable(c, id, bs) && i < |bs|
    ensures Next(c, IssuedSome(id, bs, i), IssuedSome(id, bs, i + 1), Issue(id, bs[i]))
  {
    var s, s' := IssuedSome(id, bs, i), IssuedSome(id, bs, i + 1);
    assert bs[..i + 1] == bs[..i] + [bs[i]] && bs[i..][1..] == bs[i + 1..];
    assert s.near[id := Near(s'.near[id].source, s.near[id].made + multiset{bs[i]})] == s'.near;
  }

  lemma {:induction false} IssueAll(c: Config, id: ConnID, bs: seq<Block>, i: nat)
      returns (states: seq<State>, steps: seq<Step>)
    requires Issuable(c, id, bs) && c.a.Correct() && i <= |bs|
    ensures Run(c, states, steps) && Last(states) == IssuedSome(id, bs, i)
  {
    if i == 0 {
      states, steps := OpenAndWrite(c, id, bs);
    } else {
      states, steps := IssueAll(c, id, bs, i - 1);
      IssueOne(c, id, bs, i - 1);
      states, steps := Extend(c, states, steps, IssuedSome(id, bs, i - 1), IssuedSome(id, bs, i), Issue(id, bs[i - 1]));
    }
  }

  lemma IssuedRests(id: ConnID, bs: seq<Block>)
    ensures Resting(IssuedSome(id, bs, |bs|), 0)
    ensures IssuedSome(id, bs, |bs|).near[id] == Near(B.Source(DataOf(bs), [], bs), multiset(bs))
  {
    assert bs[..|bs|] == bs && bs[|bs|..] == [];
  }

  // ---------------------------------------------------------------- a block delivered twice

  /**
   * The retry duplicates: with any cipher, any first block may reach the receiving object twice, a Connect block
   * among them, since a write may report an error although the whole frame got through.
   */
  lemma DeliveredTwice(c: Config, id: ConnID, b: Block) returns (states: seq<State>, steps: seq<Step>)
    requires c.a.Correct() && Issuable(c, id, [b])
    ensures Run(c, states, steps) && 0 in Last(states).far
    ensures Last(states).far[0].id == id && Last(states).far[0].recvQueue == [b, b]
  {
    states, steps := IssueAll(c, id, [b], 1);
    IssuedRests(id, [b]);
    assert multiset([b]) == multiset{} + multiset{b};
    var s;
    states, steps, s := FerryTwice(c, states, steps, IssuedSome(id, [b], 1), id, b, multiset{}, 0);
  }

  // ---------------------------------------------------------------- what two dials of one connection do to its bytes

  /** The relay has emitted the blocks so far, in order, and waits for the next. */
  ghost predicate Flowing(k: B.Sink, emitted: seq<Block>) {
    k.relaying && |emitted| < 0xFFFF_FFFF && k.proc == R.Proc(map[], |emitted|, |emitted|) && k.emitted == emitted
  }

  /** One block through the relay of object o: the next one in order is emitted, an old one is not. */
  lemma RelayStep(c: Config, states: seq<State>, steps: seq<Step>, s: State, o: ObjectID, b: Block, rest: seq<Block>,
                  emitted: seq<Block>)
      returns (states': seq<State>, steps': seq<Step>, s': State, k: B.Sink)
    requires Run(c, states, steps) && s == Last(states) && Gapfree(s)
    requires o in s.far && s.far[o].recvQueue == [b] + rest && Flowing(s.far[o].sink, emitted)
    requires b.blockID <= |emitted| && |emitted| + 1 < 0xFFFF_FFFF
    ensures Run(c, states', steps') && s' == Last(states') && Gapfree(s')
    ensures s' == s.(far := s.far[o := s.far[o].(recvQueue := rest, sink := k)])
    ensures Flowing(k, if b.blockID == |emitted| then emitted + [b] else emitted)
  {
    var f := s.far[o];
    var r := R.Arrive(f.sink.proc, b);
    k := f.sink.(got := f.sink.got[b.blockID := b], proc := r.proc,
                 emitted := f.sink.emitted + r.out, ordered := f.sink.ordered + r.out);
    if b.blockID == |emitted| {
      assert R.Succ(b.blockID) == |emitted| + 1;
      assert R.Drain(map[], |emitted| + 1) == R.Drained(map[], |emitted| + 1, []);
      assert r.out == [b] + [] == [b];
    } else {
      assert r.out == [] && f.sink.emitted + [] == emitted;
    }
    assert f.recvQueue[1..] == rest;
    s' := s.(far := s.far[o := f.(recvQueue := rest, sink := k)]);
    states', steps' := Extend(c, states, steps, s, s', Relay(o));
  }

  /** A path of the dialling goroutines on which no Connect block comes is a path of the whole system. */
  lemma {:induction false} Lift(c: Config, states: seq<State>, steps: seq<Step>, s: State, o: ObjectID,
                                ds: seq<D.State>, moves: seq<D.Step>, i: nat)
      returns (states': seq<State>, steps': seq<Step>, s': State)
    requires Run(c, states, steps) && s == Last(states) && NoForgery(c, s) && i <= |moves|
    requires D.Path(if o in s.far then s.far[o].sink.emitted else [], ds, moves) && D.Connected(moves)
    requires o in s.far && s.far[o].side == Serving(ds[0])
    ensures Run(c, states', steps') && s' == Last(states')
    ensures s' == s.(far := s.far[o := s.far[o].(side := Serving(ds[i]))])
  {
    if i == 0 {
      states', steps', s' := states, steps, s;
      assert s.far[o := s.far[o]] == s.far;
    } else {
      var t;
      states', steps', t := Lift(c, states, steps, s, o, ds, moves, i - 1);
      s' := s.(far := s.far[o := s.far[o].(side := Serving(ds[i]))]);
      ServeStep(c, t, s', o, ds[i - 1], ds[i - 1 + 1], moves[i - 1]);
      states', steps' := Extend(c, states', steps', t, s', Serve(o, moves[i - 1]));
    }
  }

  lemma ServeStep(c: Config, s: State, s': State, o: ObjectID, d: D.State, d': D.State, move: D.Step)
    requires o in s.far && s.far[o].side == Serving(d) && !move.RecvConnect?
    requires D.Next(s.far[o].sink.emitted, d, d', move)
    requires s' == s.(far := s.far[o := s.far[o].(side := Serving(d'))])
    ensures Next(c, s, s', Serve(o, move))
  {
  }

  /** A Connect block and two data blocks. */
  ghost predicate ConnectThenTwo(c: Config, id: ConnID, bs: seq<Block>) {
    Issuable(c, id, bs) && |bs| == 3 && bs[0].typ == TYPE_CONNECT && bs[1].typ == bs[2].typ == TYPE_DATA
  }

  function HandedAll(id: ConnID, bs: seq<Block>): Far
    requires |bs| == 3
  {
    Handed(Handed(Handed(Handed(NewServer(id), bs[0]), bs[0]), bs[1]), bs[2])
  }

  /** Object 0 is registered under id and has been handed what f says; the sender still has made to send. */
  ghost predicate Served(s: State, id: ConnID, f: Far, made: multiset<Block>, written: seq<byte>) {
    && s.registry == map[id := 0] && s.far == map[0 := f] && id in s.near
    && s.near[id].made == made && s.near[id].source.written == written
  }

  /** The Connect block arrives twice. */
  lemma ConnectArrives(c: Config, id: ConnID, bs: seq<Block>, made: multiset<Block>)
      returns (states: seq<State>, steps: seq<Step>, s: State)
    requires c.a.Correct() && ConnectThenTwo(c, id, bs) && multiset(bs) == made + multiset{bs[0]}
    ensures Run(c, states, steps) && s == Last(states) && Resting(s, 2)
    ensures Served(s, id, Handed(Handed(NewServer(id), bs[0]), bs[0]), made, DataOf(bs))
  {
    states, steps := IssueAll(c, id, bs, 3);
    IssuedRests(id, bs);
    states, steps, s := FerryTwice(c, states, steps, IssuedSome(id, bs, 3), id, bs[0], made, 0);
  }

  /** One more block arrives. */
  lemma NextArrives(c: Config, states: seq<State>, steps: seq<Step>, s: State, id: ConnID, f: Far, b: Block,
                    made: multiset<Block>, written: seq<byte>, k: TunnelID)
      returns (states': seq<State>, steps': seq<Step>, s': State)
    requires Run(c, states, steps) && s == Last(states) && Resting(s, k) && b.WellFormed() && b.connectionID == id
    requires Served(s, id, f, made + multiset{b}, written)
    ensures Run(c, states', steps') && s' == Last(states') && Resting(s', k + 1)
    ensures Served(s', id, Handed(f, b), made, written)
  {
    states', steps', s' := Ferry(c, states, steps, s, id, b, made, k);
  }

  /** The Connect block arrives twice, the data blocks once. */
  lemma AllArrive(c: Config, id: ConnID, bs: seq<Block>) returns (states: seq<State>, steps: seq<Step>, s: State)
    requires c.a.Correct() && ConnectThenTwo(c, id, bs)
    ensures Run(c, states, steps) && s == Last(states) && Resting(s, 4)
    ensures Served(s, id, HandedAll(id, bs), multiset{}, DataOf(bs))
  {
    var m1, m2 := multiset{bs[1]} + multiset{bs[2]}, multiset{bs[2]};
    var f := Handed(Handed(NewServer(id), bs[0]), bs[0]);
    assert bs == [bs[0], bs[1], bs[2]] && multiset(bs) == m1 + multiset{bs[0]};
    assert m1 == m2 + multiset{bs[1]} && m2 == multiset{} + multiset{bs[2]};
    states, steps, s := ConnectArrives(c, id, bs, m1);
    states, steps, s := NextArrives(c, states, steps, s, id, f, bs[1], m2, DataOf(bs), 2);
    states, steps, s := NextArrives(c, states, steps, s, id, Handed(f, bs[1]), bs[2], multiset{}, DataOf(bs), 3);
  }

  /** The copy is dropped by the relay, but both have started a connect. */
  lemma AllOrdered(c: Config, id: ConnID, bs: seq<Block>) returns (states: seq<State>, steps: seq<Step>, s: State)
    requires c.a.Correct() && ConnectThenTwo(c, id, bs)
    ensures Run(c, states, steps) && s == Last(states) && Gapfree(s)
    ensures 0 in s.far && s.far[0].id == id && s.far[0].sink.emitted == bs && s.far[0].side == Serving(D.Failing(2, 2))
    ensures id in s.near && s.near[id].source.written == DataOf(bs)
  {
    states, steps, s := AllArrive(c, id, bs);
    var c0, d1, d2, k := bs[0], bs[1], bs[2], B.NEW_SINK;
    assert s.far[0].recvQueue == [c0] + [c0, d1, d2];
    assert s.far[0].side.d.connects == D.Times(D.Entered, 2);
    states, steps, s, k := RelayStep(c, states, steps, s, 0, c0, [c0, d1, d2], []);
    assert s.far[0].recvQueue == [c0] + [d1, d2] && [] + [c0] == [c0];
    states, steps, s, k := RelayStep(c, states, steps, s, 0, c0, [d1, d2], [c0]);
    assert s.far[0].recvQueue == [d1] + [d2];
    states, steps, s, k := RelayStep(c, states, steps, s, 0, d1, [d2], [c0]);
    assert s.far[0].recvQueue == [d2] + [] && [c0] + [d1] == [c0, d1];
    states, steps, s, k := RelayStep(c, states, steps, s, 0, d2, [], [c0, d1]);
    assert [c0, d1] + [d2] == bs;
  }

  /**
   * The condition of EndToEnd is needed: with any cipher, when a retry repeats the Connect block and both its dials
   * succeed, the connection dialled last may be written the two data blocks that follow in the wrong order.
   */
  lemma SwappedAtDialled(c: Config, id: ConnID, bs: seq<Block>) returns (states: seq<State>, steps: seq<Step>)
    requires c.a.Correct() && ConnectThenTwo(c, id, bs)
    ensures Run(c, states, steps) && 0 in Last(states).far && id in Last(states).near
    ensures var f := Last(states).far[0];
            && f.id == id && f.side.Serving? && f.side.d.received == 2 && |f.side.d.conns| == 2
            && f.side.d.conns[1].wire == bs[2].data + bs[1].data
            && Last(states).near[id].source.written == bs[1].data + bs[2].data
  {
    var s, t;
    states, steps, s := AllOrdered(c, id, bs);
    ThreeBlocks(bs);
    var ds, moves := D.SwapAfterConnect(bs);
    states, steps, t := Lift(c, states, steps, s, 0, ds, moves, |moves|);
    assert t.far[0].side.d.conns[1].wire == bs[2].data + bs[1].data;
  }

  lemma ThreeBlocks(bs: seq<Block>)
    requires |bs| == 3 && bs[0].typ == TYPE_CONNECT && bs[1].typ == bs[2].typ == TYPE_DATA
    ensures DataOf(bs) == bs[1].data + bs[2].data
  {
    assert bs[1..][1..] == [bs[2]] && [bs[2]][1..] == [];
    assert DataOf([bs[2]]) == bs[2].data + DataOf([]);
    assert DataOf(bs[1..]) == bs[1].data + DataOf(bs[1..][1..]);
  }

  // ---------------------------------------------------------------- a gap in the stream

  /** A cipher that only tags: enough to tell the counters apart. */
  const TAGGING := AEAD(1, 1, (n: seq<byte>, p: seq<byte>) => n + p,
                        (n: seq<byte>, c: seq<byte>) => if |c| > 0 && n == c[..1] then Some(c[1..]) else None)

  lemma TaggingCorrect()
    ensures TAGGING.Correct()
  {
  }

  /** A Ping whose frame is lost altogether, and b behind it. */
  function Missing(b: Block, ping: Block): Tunnel {
    Tunnel([ping, b], [Encode(ping), Encode(b)], Wire(TAGGING, 2, [Encode(b)]), true, false, 0, 0)
  }

  function Lost(ping: Block): Tunnel {
    Tunnel([ping], [Encode(ping)], [], true, false, 0, 0)
  }

  lemma PingLost(c: Config, ping: Block, b: Block)
    requires c.a == TAGGING && ping.WellFormed() && |ping.data| == 8 && b.WellFormed() && |Encode(b)| <= MAX_PAYLOAD
    ensures Lost(ping) == Packed(c.a, NEW_TUNNEL, ping, [Encode(ping)], 0, false) && Trusted(c.a, Lost(ping))
    ensures Cut(c.a, NEW_TUNNEL, ping, [Encode(ping)], 0, false)
    ensures var n := |Wire(c.a, 2, [Encode(b)])|;
            && Cut(c.a, Lost(ping), b, [Encode(b)], n, false)
            && Packed(c.a, Lost(ping), b, [Encode(b)], n, false) == Missing(b, ping)
  {
    OneRecord(ping, 0);
    OneRecord(b, 2);
    var w := Wire(c.a, 2, [Encode(b)]);
    assert w[..|w|] == w && [] + w == w;
  }

  lemma OneRecord(b: Block, k: nat)
    ensures Flatten([Encode(b)]) == Encode(b) && |Wire(TAGGING, k, [Encode(b)])| > 0
    ensures Wire(TAGGING, k, [Encode(b)])[..1] == TAGGING.Nonce(k)
  {
    assert Flatten([Encode(b)]) == Encode(b) + Flatten([Encode(b)][1..]);
    var tag := TAGGING.Nonce(k);
    assert Wire(TAGGING, k, [Encode(b)]) == Sealed(TAGGING, k, Encode(b)) + Wire(TAGGING, k + 2, [Encode(b)][1..]);
    assert Sealed(TAGGING, k, Encode(b))
        == (tag + SizeBytes(|Encode(b)|)) + TAGGING.seal(TAGGING.Nonce(k + 1), Encode(b));
    assert (tag + SizeBytes(|Encode(b)|))[..1] == tag;
  }

  lemma NothingOpens(b: Block, ping: Block, n: nat)
    requires n <= |Missing(b, ping).wire|
    ensures Trusted(TAGGING, Missing(b, ping).(arrived := n))
    ensures Parsable(TAGGING, Missing(b, ping).(arrived := n)) == []
  {
    var w, s := Missing(b, ping).wire, Missing(b, ping).wire[..n];
    OneRecord(b, 2);
    assert TAGGING.Nonce(0) == [0] && TAGGING.Nonce(2) == [2] by {
      assert Digits(0, 1) == [0] + Digits(0, 0) && Digits(2, 1) == [2] + Digits(0, 0);
    }
    if n >= 3 {
      assert s[..3][..1] == w[..1] == [2];
      assert TAGGING.open(TAGGING.Nonce(0), s[..3]).None?;
    }
    assert OpenPart(TAGGING, 0, 2, s).Bad?;
    assert Unforged(TAGGING, 0, Missing(b, ping).chunks, s);
    assert Records(TAGGING, 0, s) == [];
  }

  /**
   * A gap without a forgery: the frame of a Ping is lost, its tunnel stays open and carries b, all of which arrives
   * and none of which opens. The hypothesis of NextKeeps and EndToEnd is met where it is needed.
   */
  lemma GapTolerated(c: Config, id: ConnID, b: Block, ping: Block) returns (states: seq<State>, steps: seq<Step>)
    requires c.a == TAGGING && Issuable(c, id, [b]) && |Encode(b)| <= MAX_PAYLOAD
    requires ping.WellFormed() && |ping.data| == 8 && ping.connectionID in c.reserved
    ensures Run(c, states, steps) && 0 in Last(states).tunnels
    ensures var t := Last(states).tunnels[0];
            t.gap && !t.broken && t.frames == [ping, b] && t.arrived == |t.wire| > 0 && Parsable(c.a, t) == []
  {
    TaggingCorrect();
    states, steps := IssueAll(c, id, [b], 1);
    IssuedRests(id, [b]);
    assert multiset([b]) == multiset{} + multiset{b};
    var s6;
    states, steps, s6 := ToTunnel(c, states, steps, IssuedSome(id, [b], 1), id, b, multiset{}, 0);
    var n := |Missing(b, ping).wire|;
    var s7 := LoseStep(c, b, ping, s6);
    var s8 := FollowStep(c, b, ping, s7);
    var s9 := ComeStep(c, b, ping, s8);
    states, steps := Extend(c, states, steps, s6, s7, Ping(0, ping, 0));
    states, steps := Extend(c, states, steps, s7, s8, Send(0, Normal, [Encode(b)]));
    states, steps := Extend(c, states, steps, s8, s9, Progress(0, n));
    NothingOpens(b, ping, n);
    OneRecord(b, 2);
  }

  /** Tunnel 0 is t, and no other has a gap. */
  ghost predicate OnlyGap(s: State, t: Tunnel) {
    0 in s.tunnels && s.tunnels[0] == t && forall u :: u in s.tunnels && u != 0 ==> !s.tunnels[u].gap
  }

  lemma LoseStep(c: Config, b: Block, ping: Block, s: State) returns (s': State)
    requires c.a == TAGGING && ping.WellFormed() && |ping.data| == 8 && ping.connectionID in c.reserved
    requires b.WellFormed() && |Encode(b)| <= MAX_PAYLOAD && OnlyGap(s, NEW_TUNNEL)
    ensures OnlyGap(s', Lost(ping)) && s' == s.(tunnels := s.tunnels[0 := Lost(ping)])
    ensures Next(c, s, s', Ping(0, ping, 0)) && NoForgery(c, s')
  {
    PingLost(c, ping, b);
    s' := s.(tunnels := s.tunnels[0 := Lost(ping)]);
  }

  lemma FollowStep(c: Config, b: Block, ping: Block, s: State) returns (s': State)
    requires c.a == TAGGING && ping.WellFormed() && |ping.data| == 8 && b.WellFormed() && |Encode(b)| <= MAX_PAYLOAD
    requires OnlyGap(s, Lost(ping)) && s.sendQueue == [b]
    ensures OnlyGap(s', Missing(b, ping))
    ensures Next(c, s, s', Send(0, Normal, [Encode(b)])) && NoForgery(c, s')
  {
    PingLost(c, ping, b);
    NothingOpens(b, ping, 0);
    s' := s.(sendQueue := [], tunnels := s.tunnels[0 := Missing(b, ping)]);
  }

  lemma ComeStep(c: Config, b: Block, ping: Block, s: State) returns (s': State)
    requires c.a == TAGGING && OnlyGap(s, Missing(b, ping))
    ensures OnlyGap(s', Missing(b, ping).(arrived := |Missing(b, ping).wire|))
    ensures Next(c, s, s', Progress(0, |Missing(b, ping).wire|)) && NoForgery(c, s')
  {
    var t := Missing(b, ping).(arrived := |Missing(b, ping).wire|);
    NothingOpens(b, ping, t.arrived);
    s' := s.(tunnels := s.tunnels[0 := t]);
  }
}
