/** The receiving half of a blockProcessor: blocks arrive in any order and leave in id order. */
module Resequencer {
  import opened Bytes
  import opened Blocks

  const MAX_ID: uint32 := 0xFFFF_FFFF

  function Succ(id: uint32): uint32 {
    (id + 1) % TWO_32
  }

  // ---------------------------------------------------------------- the relay as a function

  datatype Proc = Proc(cache: map<uint32, Block>, recv: uint32, last: uint32)
  {
    /** The test made when no packet came for PacketWaitTimeoutSec. */
    predicate TimeoutKills() {
      recv != last
    }

    /** Some block has arrived that cannot be handed on yet. */
    predicate HasHole() {
      cache != map[]
    }
  }

  const START := Proc(map[], 0, 0)

  datatype Drained = Drained(cache: map<uint32, Block>, recv: uint32, out: seq<Block>)

  /** Emit cached blocks for as long as the next id is there. */
  function Drain(cache: map<uint32, Block>, recv: uint32): Drained
    decreases |cache|
  {
    if recv in cache then
      var d := Drain(cache - {recv}, Succ(recv));
      d.(out := [cache[recv]] + d.out)
    else
      Drained(cache, recv, [])
  }

  datatype Result = Result(proc: Proc, out: seq<Block>)

  function Arrive(p: Proc, b: Block): Result {
    var last := if Succ(b.blockID) > p.last then Succ(b.blockID) else p.last;
    if p.recv == b.blockID then
      var d := Drain(p.cache, Succ(p.recv));
      Result(Proc(d.cache, d.recv, last), [b] + d.out)
    else if b.blockID < p.recv then
      Result(p.(last := last), [])
    else
      Result(Proc(p.cache[b.blockID := b], p.recv, last), [])
  }

  function Relay(p: Proc, arrivals: seq<Block>): Result {
    if arrivals == [] then Result(p, [])
    else
      var r := Relay(p, arrivals[..|arrivals| - 1]);
      var s := Arrive(r.proc, arrivals[|arrivals| - 1]);
      Result(s.proc, r.out + s.out)
  }

  lemma RelayNext(p: Proc, arrivals: seq<Block>, b: Block)
    ensures var r := Relay(p, arrivals);
            var s := Arrive(r.proc, b);
            Relay(p, arrivals + [b]) == Result(s.proc, r.out + s.out)
  {
    assert (arrivals + [b])[..|arrivals|] == arrivals;
  }

  // ---------------------------------------------------------------- what it should amount to

  /** The received blocks by id. */
  function ById(arrivals: seq<Block>): map<uint32, Block> {
    if arrivals == [] then map[]
    else
      var b := arrivals[|arrivals| - 1];
      ById(arrivals[..|arrivals| - 1])[b.blockID := b]
  }

  /** Every id below n is in r. */
  ghost predicate FullBelow(r: map<uint32, Block>, n: nat) {
    forall i: uint32 :: i < n ==> i in r
  }

  /** The cache is r restricted to ids of at least from. */
  ghost predicate HoldsFrom(cache: map<uint32, Block>, r: map<uint32, Block>, from: nat) {
    && (forall i: uint32 :: i in cache <==> i in r && i >= from)
    && (forall i: uint32 :: i in cache ==> cache[i] == r[i])
  }

  /** Blocks 0 to n-1. */
  ghost function Upto(r: map<uint32, Block>, n: nat): (s: seq<Block>)
    requires n <= TWO_32 && FullBelow(r, n)
    ensures |s| == n
  {
    if n == 0 then [] else Upto(r, n - 1) + [r[n - 1]]
  }

  /**
   * Having received exactly r: recv is the least id missing, the cache holds exactly what came
   * above it, blocks 0 to recv-1 have been emitted once each, last is one past the highest id.
   */
  ghost predicate Settled(p: Proc, out: seq<Block>, r: map<uint32, Block>) {
    && p.recv !in r
    && FullBelow(r, p.recv) && out == Upto(r, p.recv)
    && HoldsFrom(p.cache, r, p.recv + 1)
    && OnePastHighest(p.last, r)
  }

  ghost predicate OnePastHighest(last: uint32, r: map<uint32, Block>) {
    && (forall i: uint32 :: i in r && i != MAX_ID ==> i < last)
    && (last > 0 ==> last - 1 in r)
  }

  lemma HighestAfter(last: uint32, r: map<uint32, Block>, b: Block)
    requires OnePastHighest(last, r)
    ensures OnePastHighest(if Succ(b.blockID) > last then Succ(b.blockID) else last, r[b.blockID := b])
  {
  }

  /** Arrivals with the same id are the same block: retransmissions, never forgeries. */
  ghost predicate Consistent(arrivals: seq<Block>) {
    forall i, j :: 0 <= i < |arrivals| && 0 <= j < |arrivals| && arrivals[i].blockID == arrivals[j].blockID
      ==> arrivals[i] == arrivals[j]
  }

  lemma UptoStable(r: map<uint32, Block>, r': map<uint32, Block>, n: nat)
    requires n <= TWO_32 && FullBelow(r, n)
    requires forall i: uint32 :: i < n ==> i in r' && r'[i] == r[i]
    ensures Upto(r', n) == Upto(r, n)
  {
  }

  /** Ready to emit from recv on: everything below is there, the cache has the rest, and some id never comes. */
  ghost predicate Ready(cache: map<uint32, Block>, recv: nat, r: map<uint32, Block>, missing: uint32) {
    missing !in r && recv < TWO_32 && FullBelow(r, recv) && HoldsFrom(cache, r, recv)
  }

  ghost predicate DrainedTo(d: Drained, r: map<uint32, Block>, recv: nat) {
    && recv <= TWO_32 && FullBelow(r, recv)
    && d.recv !in r && FullBelow(r, d.recv) && HoldsFrom(d.cache, r, d.recv + 1)
    && Upto(r, recv) + d.out == Upto(r, d.recv)
  }

  lemma TakeFromCache(cache: map<uint32, Block>, recv: uint32, r: map<uint32, Block>, missing: uint32)
    requires Ready(cache, recv, r, missing) && recv in cache
    ensures cache[recv] == r[recv] && Ready(cache - {recv}, recv + 1, r, missing)
  {
    assert missing > recv;
  }

  lemma DrainedBack(tail: Drained, r: map<uint32, Block>, recv: uint32, d: Drained)
    requires DrainedTo(tail, r, recv + 1)
    requires d.cache == tail.cache && d.recv == tail.recv && d.out == [r[recv]] + tail.out
    ensures DrainedTo(d, r, recv)
  {
    assert Upto(r, recv + 1) == Upto(r, recv) + [r[recv]];
    Associative(Upto(r, recv), [r[recv]], tail.out);
  }

  lemma DrainStops(cache: map<uint32, Block>, recv: uint32, r: map<uint32, Block>, missing: uint32, d: Drained)
    requires Ready(cache, recv, r, missing) && recv !in cache
    requires d.cache == cache && d.recv == recv && d.out == []
    ensures DrainedTo(d, r, recv)
  {
    assert recv !in r;
    assert HoldsFrom(cache, r, recv + 1);
  }

  lemma DrainStep(cache: map<uint32, Block>, recv: uint32) returns (tail: Drained)
    requires recv in cache && recv != MAX_ID
    ensures tail == Drain(cache - {recv}, recv + 1)
    ensures Drain(cache, recv) == Drained(tail.cache, tail.recv, [cache[recv]] + tail.out)
  {
    tail := Drain(cache - {recv}, recv + 1);
  }

  lemma {:induction false} DrainSettles(cache: map<uint32, Block>, recv: uint32, r: map<uint32, Block>, missing: uint32,
                                        d: Drained)
    requires Ready(cache, recv, r, missing) && d == Drain(cache, recv)
    ensures DrainedTo(d, r, recv)
    decreases |cache|
  {
    if recv in cache {
      TakeFromCache(cache, recv, r, missing);
      var tail := DrainStep(cache, recv);
      DrainSettles(cache - {recv}, recv + 1, r, missing, tail);
      DrainedBack(tail, r, recv, d);
    } else {
      DrainStops(cache, recv, r, missing, d);
    }
  }

  lemma NextArrives(p: Proc, b: Block) returns (d: Drained)
    requires b.blockID == p.recv != MAX_ID
    ensures d == Drain(p.cache, p.recv + 1)
    ensures var last := if p.recv + 1 > p.last then p.recv + 1 else p.last;
            Arrive(p, b) == Result(Proc(d.cache, d.recv, last), [b] + d.out)
  {
    d := Drain(p.cache, p.recv + 1);
  }

  /** The next block in order: emitted, with everything cached behind it. */
  lemma ArriveInOrder(p: Proc, out: seq<Block>, r: map<uint32, Block>, b: Block, missing: uint32)
    requires Settled(p, out, r) && b.blockID == p.recv
    requires missing !in r && missing != b.blockID
    ensures Settled(Arrive(p, b).proc, out + Arrive(p, b).out, r[b.blockID := b])
  {
    var r' := r[b.blockID := b];
    ReadyToDrain(p, r, b, missing);
    var d := NextArrives(p, b);
    DrainSettles(p.cache, p.recv + 1, r', missing, d);
    AfterDrain(d, p, out, r, b, Arrive(p, b));
  }

  lemma ReadyToDrain(p: Proc, r: map<uint32, Block>, b: Block, missing: uint32)
    requires FullBelow(r, p.recv) && HoldsFrom(p.cache, r, p.recv + 1) && b.blockID == p.recv
    requires missing !in r && missing != b.blockID
    ensures Ready(p.cache, p.recv + 1, r[b.blockID := b], missing)
  {
    assert missing > p.recv;
  }

  lemma AfterDrain(d: Drained, p: Proc, out: seq<Block>, r: map<uint32, Block>, b: Block, s: Result)
    requires Settled(p, out, r) && b.blockID == p.recv != MAX_ID
    requires DrainedTo(d, r[b.blockID := b], p.recv + 1)
    requires s.out == [b] + d.out && s.proc.cache == d.cache && s.proc.recv == d.recv
    requires s.proc.last == if p.recv + 1 > p.last then p.recv + 1 else p.last
    ensures Settled(s.proc, out + s.out, r[b.blockID := b])
  {
    var r' := r[b.blockID := b];
    UptoStable(r, r', p.recv);
    HighestAfter(p.last, r, b);
    assert Upto(r', p.recv + 1) == out + [b];
    Associative(out, [b], d.out);
  }

  /** A block below recv is there already. */
  lemma ArriveOld(p: Proc, out: seq<Block>, r: map<uint32, Block>, b: Block)
    requires Settled(p, out, r) && (b.blockID in r ==> r[b.blockID] == b) && b.blockID < p.recv
    ensures r[b.blockID := b] == r && Arrive(p, b).proc == p
  {
    assert b.blockID in r;
  }

  lemma HoldsAlso(cache: map<uint32, Block>, r: map<uint32, Block>, from: nat, b: Block)
    requires HoldsFrom(cache, r, from) && b.blockID >= from
    ensures HoldsFrom(cache[b.blockID := b], r[b.blockID := b], from)
  {
  }

  /** A block above recv joins the cache. */
  lemma ArriveAhead(p: Proc, out: seq<Block>, r: map<uint32, Block>, b: Block)
    requires Settled(p, out, r) && b.blockID > p.recv
    ensures Settled(Arrive(p, b).proc, out, r[b.blockID := b])
  {
    UptoStable(r, r[b.blockID := b], p.recv);
    HoldsAlso(p.cache, r, p.recv + 1, b);
    HighestAfter(p.last, r, b);
  }

  lemma ArriveCached(p: Proc, out: seq<Block>, r: map<uint32, Block>, b: Block)
    requires Settled(p, out, r) && (b.blockID in r ==> r[b.blockID] == b) && p.recv != b.blockID
    ensures Settled(Arrive(p, b).proc, out, r[b.blockID := b])
  {
    if b.blockID < p.recv {
      ArriveOld(p, out, r, b);
    } else {
      ArriveAhead(p, out, r, b);
    }
  }

  lemma ArriveSettles(p: Proc, out: seq<Block>, r: map<uint32, Block>, b: Block, missing: uint32)
    requires Settled(p, out, r) && (b.blockID in r ==> r[b.blockID] == b)
    requires missing !in r && missing != b.blockID
    ensures Settled(Arrive(p, b).proc, out + Arrive(p, b).out, r[b.blockID := b])
  {
    if p.recv == b.blockID {
      ArriveInOrder(p, out, r, b, missing);
    } else {
      ArriveCached(p, out, r, b);
      assert out + Arrive(p, b).out == out;
    }
  }

  lemma ByIdKeys(arrivals: seq<Block>)
    ensures forall i: uint32 :: i in ById(arrivals) <==> exists k :: 0 <= k < |arrivals| && arrivals[k].blockID == i
    ensures forall i: uint32 :: i in ById(arrivals) ==> ById(arrivals)[i] in arrivals && ById(arrivals)[i].blockID == i
  {
    if arrivals != [] {
      var n := |arrivals| - 1;
      ByIdKeys(arrivals[..n]);
      assert forall k :: 0 <= k < n ==> arrivals[..n][k] == arrivals[k];
      forall i: uint32
        ensures i in ById(arrivals) <==> exists k :: 0 <= k < |arrivals| && arrivals[k].blockID == i
      {
        assert i in ById(arrivals[..n]) ==>
            exists k :: 0 <= k < n && arrivals[..n][k].blockID == i && arrivals[k].blockID == i;
        assert arrivals[n].blockID == i ==> i in ById(arrivals);
      }
    }
  }

  /**
   * Whatever the order and however often blocks are repeated, the relay ends in the one state
   * that the set of received blocks determines, as long as some id never arrives.
   */
  lemma {:induction false} RelaySettles(arrivals: seq<Block>, missing: uint32)
    requires Consistent(arrivals)
    requires forall k :: 0 <= k < |arrivals| ==> arrivals[k].blockID != missing
    ensures Settled(Relay(START, arrivals).proc, Relay(START, arrivals).out, ById(arrivals))
  {
    if arrivals != [] {
      var n := |arrivals| - 1;
      var before, b := arrivals[..n], arrivals[n];
      RelaySettles(before, missing);
      ByIdKeys(before);
      var r := Relay(START, before);
      ArriveSettles(r.proc, r.out, ById(before), b, missing);
    }
  }

  /** There is only one settled state for a set of received blocks. */
  lemma SettledUnique(p: Proc, out: seq<Block>, p': Proc, out': seq<Block>, r: map<uint32, Block>)
    requires Settled(p, out, r) && Settled(p', out', r)
    ensures p == p' && out == out'
  {
    assert p.recv == p'.recv;
    assert p.cache == p'.cache;
    assert p.last > 0 ==> p.last - 1 in r;
    assert p'.last > 0 ==> p'.last - 1 in r;
  }

  /** Order and repetition do not matter: the same set of blocks gives the same state and output. */
  lemma OrderIrrelevant(a: seq<Block>, b: seq<Block>, missing: uint32)
    requires Consistent(a) && Consistent(b)
    requires forall x :: x in a <==> x in b
    requires forall k :: 0 <= k < |a| ==> a[k].blockID != missing
    ensures Relay(START, a) == Relay(START, b)
  {
    ByIdKeys(a);
    ByIdKeys(b);
    forall k | 0 <= k < |b|
      ensures b[k].blockID != missing
    {
      assert b[k] in a;
    }
    forall i: uint32
      ensures i in ById(a) <==> i in ById(b)
      ensures i in ById(a) ==> ById(a)[i] == ById(b)[i]
    {
      if i in ById(a) {
        var x := ById(a)[i];
        assert x in b;
        var k :| 0 <= k < |b| && b[k] == x;
        assert b[k].blockID == i;
        assert ById(b)[i] in b;
      }
      if i in ById(b) {
        var x := ById(b)[i];
        assert x in a;
        var k :| 0 <= k < |a| && a[k] == x;
        assert a[k].blockID == i;
      }
    }
    assert ById(a) == ById(b);
    RelaySettles(a, missing);
    RelaySettles(b, missing);
    SettledUnique(Relay(START, a).proc, Relay(START, a).out, Relay(START, b).proc, Relay(START, b).out, ById(a));
  }

  // ---------------------------------------------------------------- the timeout decision

  /** The wrap-around case: id 2^32-1 has come, everything else that came has been emitted. */
  ghost predicate TopIdAlone(p: Proc, r: map<uint32, Block>) {
    MAX_ID in r && forall i: uint32 :: i in r && i != MAX_ID ==> i < p.recv
  }

  /** A timeout kills the connection exactly when there is a hole, except when id 2^32-1 alone makes the hole. */
  lemma TimeoutExactly(p: Proc, out: seq<Block>, r: map<uint32, Block>)
    requires Settled(p, out, r)
    ensures p.recv <= p.last
    ensures (p.TimeoutKills() <==> p.HasHole()) <==> !TopIdAlone(p, r)
  {
    assert p.recv > 0 ==> p.recv - 1 in r;
    if p.HasHole() {
      var i: uint32 :| i in p.cache;
      assert i in r && i > p.recv;
    } else {
      assert forall i: uint32 :: i in r ==> i !in p.cache && i < p.recv;
      if p.last > 0 {
        assert p.last - 1 in r;
      }
      assert MAX_ID !in p.cache;
    }
    if !TopIdAlone(p, r) && MAX_ID in r {
      var i: uint32 :| i in r && i != MAX_ID && i >= p.recv;
      assert i in p.cache;
    }
    if TopIdAlone(p, r) {
      assert MAX_ID in p.cache;
      if p.last > 0 {
        assert p.last - 1 in r;
      }
    }
  }

  /** With fewer than 2^32-1 blocks sent, at the top of every round a timeout kills if and only if there is a hole. */
  lemma TimeoutRight(arrivals: seq<Block>)
    requires Consistent(arrivals)
    requires forall k :: 0 <= k < |arrivals| ==> arrivals[k].blockID != MAX_ID
    ensures var p := Relay(START, arrivals).proc;
            p.recv <= p.last && (p.recv == p.last <==> p.cache == map[]) && (p.TimeoutKills() <==> p.HasHole())
  {
    RelaySettles(arrivals, MAX_ID);
    ByIdKeys(arrivals);
    TimeoutExactly(Relay(START, arrivals).proc, Relay(START, arrivals).out, ById(arrivals));
  }

  /** The exception is real: a first arrival numbered 2^32-1 leaves a hole that no timeout ever sees. */
  lemma TopIdHidesHole(b: Block)
    requires b.blockID == MAX_ID
    ensures var p := Relay(START, [b]).proc; p.HasHole() && !p.TimeoutKills()
  {
    assert [b][..0] == [];
    assert Relay(START, [b]).proc == Arrive(START, b).proc;
    assert MAX_ID in Arrive(START, b).proc.cache;
  }

  // ---------------------------------------------------------------- the relay as a loop

  datatype Event = BlockIn(block: Block) | Timeout | Cancelled | QueueClosed

  function Arrivals(events: seq<Event>): seq<Block> {
    if events == [] then []
    else
      var e := events[|events| - 1];
      Arrivals(events[..|events| - 1]) + if e.BlockIn? then [e.block] else []
  }

  /** Some timeout among the events found the relay waiting for a missing block. */
  ghost predicate Killed(p: Proc, events: seq<Event>) {
    exists j :: 0 <= j < |events| && KillsAt(p, events, j)
  }

  ghost predicate KillsAt(p: Proc, events: seq<Event>, j: nat)
    requires j < |events|
  {
    events[j].Timeout? && Relay(p, Arrivals(events[..j])).proc.TimeoutKills()
  }

  lemma EventsNext(p: Proc, events: seq<Event>, j: nat)
    requires j < |events|
    ensures events[j].BlockIn? ==> Arrivals(events[..j + 1]) == Arrivals(events[..j]) + [events[j].block]
    ensures !events[j].BlockIn? ==> Arrivals(events[..j + 1]) == Arrivals(events[..j])
    ensures Killed(p, events[..j + 1]) <==>
              Killed(p, events[..j]) || (events[j].Timeout? && Relay(p, Arrivals(events[..j])).proc.TimeoutKills())
  {
    var now, next := events[..j], events[..j + 1];
    assert next[..j] == now && next[j] == events[j];
    assert KillsAt(p, next, j) <==> events[j].Timeout? && Relay(p, Arrivals(now)).proc.TimeoutKills();
    forall i | 0 <= i < j
      ensures KillsAt(p, next, i) <==> KillsAt(p, now, i)
    {
      assert next[..i] == now[..i];
    }
  }

  class BlockProcessor {
    var cache: map<uint32, Block>
    var recvBlockID: uint32
    var lastRecvBlockID: uint32
    var killed: bool   // removeFromPool has been called

    constructor ()
      ensures State() == START && !killed
    {
      cache, recvBlockID, lastRecvBlockID, killed := map[], 0, 0, false;
    }

    function State(): Proc
      reads this
    {
      Proc(cache, recvBlockID, lastRecvBlockID)
    }

    /**
     * Handle one block. A cancellation can win any of the sends; otherwise state and output
     * are those of Arrive, and even then the output is a prefix of Arrive's.
     */
    method Handle(b: Block) returns (out: seq<Block>, stopped: bool)
      modifies this
      ensures killed == old(killed)
      ensures !stopped ==> State() == Arrive(old(State()), b).proc && out == Arrive(old(State()), b).out
      ensures out <= Arrive(old(State()), b).out
    {
      out, stopped := [], false;
      ghost var goal := Arrive(State(), b);
      if Succ(b.blockID) > lastRecvBlockID {
        lastRecvBlockID := Succ(b.blockID);
      }
      if recvBlockID == b.blockID {
        if * {
          return [], true;
        }
        out := [b];
        recvBlockID := Succ(recvBlockID);
        while recvBlockID in cache
          invariant lastRecvBlockID == goal.proc.last && killed == old(killed)
          invariant var d := Drain(cache, recvBlockID);
                    out + d.out == goal.out && d.cache == goal.proc.cache && d.recv == goal.proc.recv
          decreases |cache|
        {
          if * {
            return out, true;
          }
          Associative(out, [cache[recvBlockID]], Drain(cache - {recvBlockID}, Succ(recvBlockID)).out);
          out := out + [cache[recvBlockID]];
          cache := cache - {recvBlockID};
          recvBlockID := Succ(recvBlockID);
        }
      } else if b.blockID >= recvBlockID {
        cache := cache[b.blockID := b];
      }
    }

    /** The relay stands where the events so far, begun in state p, have brought it. */
    ghost predicate Standing(p: Proc, before: bool, events: seq<Event>, taken: nat, out: seq<Block>)
      reads this
    {
      && taken <= |events| && Result(State(), out) == Relay(p, Arrivals(events[..taken]))
      && (killed <==> before || Killed(p, events[..taken]))
    }

    method TakeBlock(b: Block, events: seq<Event>, taken: nat, out: seq<Block>, ghost p: Proc, ghost before: bool)
        returns (out': seq<Block>, interrupted: bool)
      requires Standing(p, before, events, taken, out) && taken < |events| && events[taken] == BlockIn(b)
      modifies this
      ensures !interrupted ==> Standing(p, before, events, taken + 1, out')
      ensures out' <= Relay(p, Arrivals(events[..taken + 1])).out
      ensures killed <==> before || Killed(p, events[..taken + 1])
    {
      EventsNext(p, events, taken);
      RelayNext(p, Arrivals(events[..taken]), b);
      var more, stopped := Handle(b);
      out', interrupted := out + more, stopped;
    }

    method TakeTimeout(events: seq<Event>, taken: nat, out: seq<Block>, ghost p: Proc, ghost before: bool)
      requires Standing(p, before, events, taken, out) && taken < |events| && events[taken] == Timeout
      modifies `killed
      ensures Standing(p, before, events, taken + 1, out)
    {
      EventsNext(p, events, taken);
      if recvBlockID != lastRecvBlockID {
        killed := true;
      }
    }

    /** One event: whether the relay goes on, and whether it was interrupted in the middle of a block. */
    method TakeEvent(events: seq<Event>, taken: nat, out: seq<Block>, ghost p: Proc, ghost before: bool)
        returns (out': seq<Block>, stop: bool, interrupted: bool)
      requires Standing(p, before, events, taken, out) && taken < |events|
      modifies this
      ensures !interrupted ==> Standing(p, before, events, taken + 1, out')
      ensures out' <= Relay(p, Arrivals(events[..taken + 1])).out
      ensures killed <==> before || Killed(p, events[..taken + 1])
      ensures stop <==> interrupted || Stops(events[taken])
    {
      out', stop, interrupted := out, false, false;
      match events[taken] {
        case BlockIn(b) =>
          out', interrupted := TakeBlock(b, events, taken, out, p, before);
          stop := interrupted;
        case Timeout =>
          TakeTimeout(events, taken, out, p, before);
        case _ =>
          EventsNext(p, events, taken);
          stop := true;
      }
    }

    /** Handle events until told to stop; taken says how many were begun. */
    method OrderedRelay(events: seq<Event>) returns (out: seq<Block>, taken: nat, interrupted: bool)
      modifies this
      ensures taken <= |events|
      ensures out <= Relay(old(State()), Arrivals(events[..taken])).out
      ensures !interrupted ==> Result(State(), out) == Relay(old(State()), Arrivals(events[..taken]))
      ensures killed <==> old(killed) || Killed(old(State()), events[..taken])
      ensures !interrupted && taken < |events| ==> taken > 0 && Stops(events[taken - 1])
    {
      out, taken, interrupted := [], 0, false;
      ghost var p, before := State(), killed;
      assert events[..0] == [];
      while taken < |events|
        invariant Standing(p, before, events, taken, out) && !interrupted
      {
        var stop;
        out, stop, interrupted := TakeEvent(events, taken, out, p, before);
        taken := taken + 1;
        if stop {
          return;
        }
      }
    }
  }

  predicate Stops(e: Event) {
    e.Cancelled? || e.QueueClosed?
  }
}
