/** The client's pool manager: keeps tunnelNum tunnels dialled, rotating endpoints that keep failing. */
module ClientManager {

  function Max0(n: int): nat {
    if n < 0 then 0 else n
  }

  // ---------------------------------------------------------------- one DecreaseNotify

  /** What becomes of one round: the dial fails, the handshake fails, or a tunnel is added. */
  datatype Outcome = DialFails | HandshakeFails | Succeeds

  const MAX_WEIGHT := 5

  class Manager {
    const tunnelNum: int
    const endpoints: array<string>
    const retryFailed: bool

    constructor (tunnelNum: int, endpoints: array<string>, retryFailed: bool)
      ensures this.tunnelNum == tunnelNum && this.endpoints == endpoints && this.retryFailed == retryFailed
    {
      this.tunnelNum, this.endpoints, this.retryFailed := tunnelNum, endpoints, retryFailed;
    }

    function After(cur: nat): nat
      requires cur < endpoints.Length
    {
      if cur == endpoints.Length - 1 then 0 else cur + 1
    }

    /** The failing endpoint trades places with the next one, the last with the first. */
    method MoveBack(cur: nat)
      requires cur < endpoints.Length
      modifies endpoints
      ensures endpoints[After(cur)] == old(endpoints[cur])
      ensures endpoints[cur] == old(endpoints[After(cur)])
      ensures forall i :: 0 <= i < endpoints.Length && i != cur && i != After(cur)
                ==> endpoints[i] == old(endpoints[i])
      ensures multiset(endpoints[..]) == old(multiset(endpoints[..]))
    {
      var endpoint := endpoints[cur];
      if cur == endpoints.Length - 1 {
        endpoints[cur] := endpoints[0];
        endpoints[0] := endpoint;
      } else {
        endpoints[cur] := endpoints[cur + 1];
        endpoints[cur + 1] := endpoint;
      }
    }

    /** A retry weight, zero until first set, as in a Go map. */
    function Weight(weights: map<string, nat>, endpoint: string): nat {
      if endpoint in weights then weights[endpoint] else 0
    }

    predicate WeightsOK(weights: map<string, nat>) {
      forall e :: e in weights ==> weights[e] <= (if retryFailed then MAX_WEIGHT else 1)
    }

    /** After a failed dial: the new weight, hence the wait in units of ErrorWaitSec, and perhaps a reordering. */
    method OnDialFailure(cur: nat, lastFailed: string, weights: map<string, nat>)
        returns (weights': map<string, nat>, wait: nat)
      requires cur < endpoints.Length && WeightsOK(weights)
      modifies endpoints
      ensures multiset(endpoints[..]) == old(multiset(endpoints[..]))
      ensures WeightsOK(weights') && wait == Weight(weights', old(endpoints[cur]))
      ensures 1 <= wait <= MAX_WEIGHT && (!retryFailed ==> wait == 1)
      ensures retryFailed ==> wait == (if Weight(weights, old(endpoints[cur])) < MAX_WEIGHT
                                       then Weight(weights, old(endpoints[cur])) + 1 else MAX_WEIGHT)
      ensures endpoints[..] == old(endpoints[..]) || (!retryFailed && lastFailed == old(endpoints[cur]))
    {
      var endpoint := endpoints[cur];
      weights' := weights;
      if retryFailed {
        if Weight(weights, endpoint) < MAX_WEIGHT {
          weights' := weights[endpoint := Weight(weights, endpoint) + 1];
        }
      } else {
        if lastFailed == endpoint {
          MoveBack(cur);
        }
        weights' := weights[endpoint := 1];
      }
      wait := Weight(weights', endpoint);
    }

    /**
     * DecreaseNotify, with the outcomes of its rounds given; when they run out the pool is cancelled.
     * tunnelCount is the pool size it reads on entry. Waits are in units of ErrorWaitSec. At an empty endpoint, or
     * without any, it goes round without dialling, and only a cancellation ends it.
     */
    method DecreaseNotify(tunnelCount: nat, outcomes: seq<Outcome>)
        returns (created: nat, waits: seq<nat>, cancelled: bool)
      modifies endpoints
      ensures multiset(endpoints[..]) == old(multiset(endpoints[..]))
      ensures forall i :: 0 <= i < |waits| ==> 1 <= waits[i] <= (if retryFailed then MAX_WEIGHT else 1)
      ensures created <= Max0(tunnelNum - tunnelCount)
      ensures !cancelled ==> created == Max0(tunnelNum - tunnelCount)
      ensures cancelled ==> created < tunnelNum - tunnelCount
      ensures cancelled && created + |waits| != |outcomes| ==>
                endpoints.Length == 0 || "" in old(multiset(endpoints[..]))
    {
      var tunnelToCreate := tunnelNum - tunnelCount;
      var lastFailed := "";
      var weights: map<string, nat> := map[];
      var round := 0;
      created, waits, cancelled := 0, [], false;
      while tunnelToCreate > 0
        invariant tunnelToCreate <= 0 ==> created == Max0(tunnelNum - tunnelCount)
        invariant tunnelToCreate > 0 ==> created + tunnelToCreate == tunnelNum - tunnelCount
        invariant 0 <= round <= |outcomes| && created + |waits| == round
        invariant multiset(endpoints[..]) == old(multiset(endpoints[..]))
        invariant WeightsOK(weights)
        invariant forall i :: 0 <= i < |waits| ==> 1 <= waits[i] <= (if retryFailed then MAX_WEIGHT else 1)
        decreases |outcomes| - round
      {
        if round == |outcomes| {
          return created, waits, true;
        }
        if endpoints.Length == 0 {
          return created, waits, true;
        }
        var cur := (tunnelToCreate - 1) % endpoints.Length;
        var endpoint := endpoints[cur];
        if endpoint == "" {
          assert endpoint in endpoints[..] && endpoint in multiset(endpoints[..]);
          return created, waits, true;
        }
        var outcome := outcomes[round];
        round := round + 1;
        if outcome == DialFails {
          var wait;
          weights, wait := OnDialFailure(cur, lastFailed, weights);
          waits := waits + [wait];
          lastFailed := endpoint;
        } else {
          if lastFailed == endpoint {
            lastFailed := "";
            weights := weights[endpoint := 0];
          }
          if outcome == HandshakeFails {
            waits := waits + [1];
          } else {
            created, tunnelToCreate := created + 1, tunnelToCreate - 1;
          }
        }
      }
    }
  }

  // ---------------------------------------------------------------- notifications and removals, interleaved

  type TunnelID = nat

  /** The running DecreaseNotify; added means a tunnel is in the pool but tunnelToCreate not yet lowered. */
  datatype Running = Running(tunnelToCreate: int, added: bool)

  datatype Job = Nobody | Somebody(run: Running)

  /** pending counts the DecreaseNotify goroutines waiting for the lock. */
  datatype State = State(pool: set<TunnelID>, job: Job, pending: nat)

  datatype Step = Begin | Retry | Add(t: TunnelID) | CountDown | End | Remove(t: TunnelID)

  const INITIAL := State({}, Nobody, 1)

  ghost predicate Next(tunnelNum: int, s: State, s': State, step: Step) {
    match step
    case Begin =>
      s.job == Nobody && s.pending > 0
      && s' == State(s.pool, Somebody(Running(tunnelNum - |s.pool|, false)), s.pending - 1)
    case Retry =>
      s.job.Somebody? && s.job.run.tunnelToCreate > 0 && s' == s
    case Add(t) =>
      s.job.Somebody? && s.job.run.tunnelToCreate > 0 && !s.job.run.added && t !in s.pool
      && s' == s.(pool := s.pool + {t}, job := Somebody(s.job.run.(added := true)))
    case CountDown =>
      s.job.Somebody? && s.job.run.added
      && s' == s.(job := Somebody(Running(s.job.run.tunnelToCreate - 1, false)))
    case End =>
      s.job.Somebody? && s.job.run.tunnelToCreate <= 0 && !s.job.run.added && s' == s.(job := Nobody)
    case Remove(t) =>
      t in s.pool && s' == s.(pool := s.pool - {t}, pending := s.pending + 1)
  }

  /** Tunnels the running DecreaseNotify will still add. */
  function Owed(s: State): int {
    match s.job
    case Nobody => 0
    case Somebody(r) => Max0(r.tunnelToCreate) - (if r.added then 1 else 0)
  }

  /** Pool plus owed never exceeds the target, and falls short of it only while a notification is pending. */
  ghost predicate Inv(tunnelNum: int, s: State) {
    && |s.pool| + Owed(s) <= Max0(tunnelNum)
    && (s.pending == 0 ==> |s.pool| + Owed(s) == Max0(tunnelNum))
    && (s.job.Somebody? && s.job.run.added ==> s.job.run.tunnelToCreate > 0)
  }

  lemma NextKeeps(tunnelNum: int, s: State, s': State, step: Step)
    requires Inv(tunnelNum, s) && Next(tunnelNum, s, s', step)
    ensures Inv(tunnelNum, s')
  {
    match step {
      case Add(t) => assert |s.pool + {t}| == |s.pool| + 1;
      case Remove(t) => assert |s.pool - {t}| == |s.pool| - 1;
      case _ =>
    }
  }

  ghost predicate Run(tunnelNum: int, states: seq<State>, steps: seq<Step>) {
    && |states| == |steps| + 1 && states[0] == INITIAL
    && forall i :: 0 <= i < |steps| ==> Next(tunnelNum, states[i], states[i + 1], steps[i])
  }

  lemma {:induction false} RunInv(tunnelNum: int, states: seq<State>, steps: seq<Step>, i: nat)
    requires Run(tunnelNum, states, steps) && i < |states|
    ensures Inv(tunnelNum, states[i])
  {
    if i > 0 {
      RunInv(tunnelNum, states, steps, i - 1);
      NextKeeps(tunnelNum, states[i - 1], states[i], steps[i - 1]);
    } else {
      assert Owed(INITIAL) == 0;
    }
  }

  /**
   * In every run: never more tunnels than asked for, even counting those on the way; exactly that many
   * promised when no notification waits; and exactly that many in the pool when all is quiet.
   */
  lemma PoolIsKeptFull(tunnelNum: int, states: seq<State>, steps: seq<Step>, i: nat)
    requires Run(tunnelNum, states, steps) && i < |states|
    ensures var s := states[i];
            && |s.pool| + Owed(s) <= Max0(tunnelNum)
            && (s.pending == 0 ==> |s.pool| + Owed(s) == Max0(tunnelNum))
            && (s.pending == 0 && s.job == Nobody && tunnelNum >= 0 ==> |s.pool| == tunnelNum)
  {
    RunInv(tunnelNum, states, steps, i);
  }

  /** Fresh tunnel ids matter: adding keeps the promise exactly when the id is not already in the pool. */
  lemma AddNeedsFreshId(tunnelNum: int, s: State, t: TunnelID)
    requires Inv(tunnelNum, s) && s.pending == 0
    requires s.job.Somebody? && s.job.run.tunnelToCreate > 0 && !s.job.run.added
    ensures var s' := s.(pool := s.pool + {t}, job := Somebody(s.job.run.(added := true)));
            |s'.pool| + Owed(s') == Max0(tunnelNum) <==> t !in s.pool
  {
    if t in s.pool {
      assert s.pool + {t} == s.pool;
    } else {
      assert |s.pool + {t}| == |s.pool| + 1;
    }
  }
}
