/** Connection pools: demultiplexing by connection id, and the count of connections they share. */
module ConnectionPool {
  import opened Blocks

  type ConnID = uint32
  type PoolID = nat
  type ObjectID = nat

  // ---------------------------------------------------------------- one pool as an object

  /** The process-wide counter (stats.connectionCount). */
  class Stats {
    var connectionCount: int

    constructor ()
      ensures connectionCount == 0
    {
      connectionCount := 0;
    }
  }

  /** A connection object: its id and the blocks handed to it so far. */
  class Connection {
    const id: ConnID
    var recvQueue: seq<Block>

    constructor (id: ConnID)
      ensures this.id == id && recvQueue == []
    {
      this.id := id;
      recvQueue := [];
    }
  }

  class Pool {
    var mapping: map<ConnID, Connection>
    const acceptNew: bool
    const stats: Stats

    /** Each connection is registered under its own id. */
    ghost predicate Valid()
      reads this
    {
      forall id :: id in mapping ==> mapping[id].id == id
    }

    constructor (acceptNew: bool, stats: Stats)
      ensures Valid() && mapping == map[] && this.acceptNew == acceptNew && this.stats == stats
    {
      this.mapping := map[];
      this.acceptNew := acceptNew;
      this.stats := stats;
    }

    /** The count keeps in step with the map exactly when the id was free. */
    method AddConnection(c: Connection)
      requires Valid()
      modifies this, stats
      ensures Valid() && mapping == old(mapping)[c.id := c]
      ensures stats.connectionCount == old(stats.connectionCount) + 1
      ensures c.id !in old(mapping) <==>
                stats.connectionCount - old(stats.connectionCount) == |mapping| - |old(mapping)|
    {
      mapping := mapping[c.id := c];
      stats.connectionCount := stats.connectionCount + 1;
    }

    /** Removal goes by id, whichever object holds it; the count always keeps in step with the map. */
    method RemoveConnection(c: Connection)
      requires Valid()
      modifies this, stats
      ensures Valid() && mapping == old(mapping) - {c.id}
      ensures stats.connectionCount - old(stats.connectionCount) == |mapping| - |old(mapping)|
    {
      if c.id in mapping {
        assert mapping.Keys == (mapping - {c.id}).Keys + {c.id};
        mapping := mapping - {c.id};
        stats.connectionCount := stats.connectionCount - 1;
      } else {
        assert mapping - {c.id} == mapping;
      }
    }

    /** What each registered connection has been handed. */
    ghost function Queues(): map<ConnID, seq<Block>>
      reads this, mapping.Values
    {
      map id | id in mapping :: mapping[id].recvQueue
    }

    method HandTo(target: Connection, b: Block)
      requires Valid() && b.connectionID in mapping && mapping[b.connectionID] == target
      modifies target
      ensures target.recvQueue == old(target.recvQueue) + [b]
      ensures Queues() == old(Queues())[b.connectionID := old(target.recvQueue) + [b]]
    {
      target.recvQueue := target.recvQueue + [b];
      forall id | id in mapping
        ensures Queues()[id] == if id == b.connectionID then target.recvQueue else old(Queues()[id])
      {
        assert mapping[id].id == id;
      }
    }

    /**
     * recvRelay on one block: it goes to the connection registered under its id and to no other,
     * or to a new one on a pool that accepts them, or nowhere.
     */
    method RecvOne(b: Block) returns (target: Connection?)
      requires Valid()
      modifies this, stats, mapping.Values
      ensures Valid()
      ensures target == null <==> b.connectionID !in old(mapping) && !acceptNew
      ensures target == null ==> mapping == old(mapping) && Queues() == old(Queues())
      ensures target != null ==> target.id == b.connectionID && mapping == old(mapping)[b.connectionID := target]
      ensures target != null && target.id in old(mapping) ==> target == old(mapping)[b.connectionID]
      ensures target != null && target.id !in old(mapping) ==> fresh(target)
      ensures target != null ==> Queues() == Received(old(Queues()), b)
      ensures stats.connectionCount - old(stats.connectionCount) == |mapping| - |old(mapping)|
    {
      if b.connectionID in mapping {
        target := mapping[b.connectionID];
        assert target in mapping.Values;
      } else if acceptNew {
        target := new Connection(b.connectionID);
        ghost var queues := Queues();
        AddConnection(target);
        assert Queues() == queues[b.connectionID := []];
      } else {
        return null;
      }
      HandTo(target, b);
    }
  }

  /** The block joins the queue under its id, which begins with it if there was none. */
  function Received(queues: map<ConnID, seq<Block>>, b: Block): map<ConnID, seq<Block>> {
    queues[b.connectionID := (if b.connectionID in queues then queues[b.connectionID] else []) + [b]]
  }

  // ---------------------------------------------------------------- all pools together

  /**
   * entries joins the maps of all pools; pending are the objects whose removal goroutine has yet to run;
   * used are all objects ever added; collisions counts additions under an id its pool already held.
   */
  datatype State = State(
    entries: map<(PoolID, ConnID), ObjectID>,
    count: int,
    pending: map<ObjectID, (PoolID, ConnID)>,
    used: set<ObjectID>,
    collisions: nat)

  datatype Step =
    | Accept(p: PoolID, id: ConnID, o: ObjectID)   // recvRelay of a server pool meets an unknown id
    | Create(p: PoolID, id: ConnID, o: ObjectID)   // NewPooledInboundConnection with a random id
    | Remove(o: ObjectID)                          // the removal goroutine of one object

  const EMPTY := State(map[], 0, map[], {}, 0)

  function Added(s: State, p: PoolID, id: ConnID, o: ObjectID): State {
    State(s.entries[(p, id) := o], s.count + 1, s.pending[o := (p, id)], s.used + {o},
          s.collisions + if (p, id) in s.entries then 1 else 0)
  }

  ghost predicate Next(s: State, s': State, step: Step) {
    match step
    case Accept(p, id, o) => (p, id) !in s.entries && o !in s.used && s' == Added(s, p, id, o)
    case Create(p, id, o) => o !in s.used && s' == Added(s, p, id, o)
    case Remove(o) =>
      o in s.pending
      && var at := s.pending[o];
         s' == s.(entries := s.entries - {at}, count := s.count - (if at in s.entries then 1 else 0),
                  pending := s.pending - {o})
  }

  /** The entries and the pending removals are the same pairing read both ways. */
  ghost predicate Paired(entries: map<(PoolID, ConnID), ObjectID>, pending: map<ObjectID, (PoolID, ConnID)>) {
    && (forall at :: at in entries ==> entries[at] in pending && pending[entries[at]] == at)
    && (forall o :: o in pending ==> pending[o] in entries && entries[pending[o]] == o)
  }

  ghost predicate Inv(s: State) {
    && s.count == |s.entries| + s.collisions
    && s.pending.Keys <= s.used
    && (s.collisions == 0 ==> Paired(s.entries, s.pending))
  }

  lemma SizeAfterDrop<K, V>(m: map<K, V>, k: K)
    ensures |m - {k}| == |m| - (if k in m then 1 else 0)
  {
    if k in m {
      assert m.Keys == (m - {k}).Keys + {k};
    } else {
      assert m - {k} == m;
    }
  }

  lemma SizeAfterAdd<K, V>(m: map<K, V>, k: K, v: V)
    ensures |m[k := v]| == |m| + (if k in m then 0 else 1)
  {
    assert m[k := v].Keys == m.Keys + {k};
  }

  lemma PairedDrop(entries: map<(PoolID, ConnID), ObjectID>, pending: map<ObjectID, (PoolID, ConnID)>, o: ObjectID)
    requires Paired(entries, pending) && o in pending
    ensures Paired(entries - {pending[o]}, pending - {o})
  {
    var e, p := entries - {pending[o]}, pending - {o};
    forall at | at in e
      ensures e[at] in p && p[e[at]] == at
    {
      assert pending[entries[at]] == at;
    }
    forall x | x in p
      ensures p[x] in e && e[p[x]] == x
    {
      assert entries[pending[x]] == x;
    }
  }

  lemma NextKeeps(s: State, s': State, step: Step)
    requires Inv(s) && Next(s, s', step)
    ensures Inv(s')
  {
    match step {
      case Accept(p, id, o) => AddedKeeps(s, p, id, o);
      case Create(p, id, o) => AddedKeeps(s, p, id, o);
      case Remove(o) =>
        SizeAfterDrop(s.entries, s.pending[o]);
        if s.collisions == 0 {
          PairedDrop(s.entries, s.pending, o);
        }
    }
  }

  lemma AddedKeeps(s: State, p: PoolID, id: ConnID, o: ObjectID)
    requires Inv(s) && o !in s.used
    ensures Inv(Added(s, p, id, o))
  {
    SizeAfterAdd(s.entries, (p, id), o);
  }

  ghost predicate Run(states: seq<State>, steps: seq<Step>) {
    && |states| == |steps| + 1 && states[0] == EMPTY
    && forall i :: 0 <= i < |steps| ==> Next(states[i], states[i + 1], steps[i])
  }

  lemma {:induction false} RunInv(states: seq<State>, steps: seq<Step>, k: nat)
    requires Run(states, steps) && k < |states|
    ensures Inv(states[k])
  {
    if k > 0 {
      RunInv(states, steps, k - 1);
      NextKeeps(states[k - 1], states[k], steps[k - 1]);
    }
  }

  /** In every run the shared count equals the total size of the maps exactly when no id ever collided. */
  lemma CountExactly(states: seq<State>, steps: seq<Step>, k: nat)
    requires Run(states, steps) && k < |states|
    ensures states[k].count == |states[k].entries| <==> states[k].collisions == 0
  {
    RunInv(states, steps, k);
  }

  lemma {:induction false} ServerRunsNeverCollide(states: seq<State>, steps: seq<Step>, k: nat)
    requires Run(states, steps) && k < |states|
    requires forall i :: 0 <= i < |steps| ==> !steps[i].Create?
    ensures states[k].collisions == 0
  {
    if k > 0 {
      ServerRunsNeverCollide(states, steps, k - 1);
      assert Next(states[k - 1], states[k - 1 + 1], steps[k - 1]);
    }
  }

  /**
   * In every run of server pools: the count is the total size of the maps, each id of a pool has at most
   * one object not yet removed, and every removal takes out the very entry its own object was added under.
   */
  lemma ServerPoolsExact(states: seq<State>, steps: seq<Step>, k: nat)
    requires Run(states, steps) && k < |states|
    requires forall i :: 0 <= i < |steps| ==> !steps[i].Create?
    ensures states[k].count == |states[k].entries|
    ensures forall o, o' :: o in states[k].pending && o' in states[k].pending
              ==> (states[k].pending[o] == states[k].pending[o'] <==> o == o')
    ensures k < |steps| && steps[k].Remove? ==>
              var o := steps[k].o;
              && o in states[k].pending && states[k].pending[o] in states[k].entries
              && states[k].entries[states[k].pending[o]] == o
  {
    ServerRunsNeverCollide(states, steps, k);
    RunInv(states, steps, k);
    if k < |steps| {
      assert Next(states[k], states[k + 1], steps[k]);
    }
  }

  /** A collision of random ids is felt: the first object's removal takes out the second one; the count stays high. */
  lemma CollisionRemovesTheOther(p: PoolID, id: ConnID)
    ensures var s1 := Added(EMPTY, p, id, 0);
            var s2 := Added(s1, p, id, 1);
            var s3 := State(map[], s2.count - 1, map[1 := (p, id)], {0, 1}, 1);
            && Run([EMPTY, s1, s2, s3], [Create(p, id, 0), Create(p, id, 1), Remove(0)])
            && s2.entries == map[(p, id) := 1] && s3.count == 1 && |s3.entries| == 0
  {
    var s1 := Added(EMPTY, p, id, 0);
    var s2 := Added(s1, p, id, 1);
    var s3 := State(map[], s2.count - 1, map[1 := (p, id)], {0, 1}, 1);
    assert Next(EMPTY, s1, Create(p, id, 0));
    assert Next(s1, s2, Create(p, id, 1));
    assert s2.entries - {(p, id)} == map[] && s2.pending - {0} == map[1 := (p, id)];
    assert Next(s2, s3, Remove(0));
    var states, steps := [EMPTY, s1, s2, s3], [Create(p, id, 0), Create(p, id, 1), Remove(0)];
    forall i | 0 <= i < |steps|
      ensures Next(states[i], states[i + 1], steps[i])
    {
      assert i == 0 || i == 1 || i == 2;
    }
  }
}
