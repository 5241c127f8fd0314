/** The server's pool manager: a peer whose tunnel pool stays empty for too long is removed. */
module ServerManager {

  const EMPTY_POOL_DESTROY_SEC := 60

  // A cancelled goroutine may still be at its select, where its timer may have become ready too, until it has Exited.
  datatype Status = Running | Cancelled | Exited | Fired

  /** A countdown goroutine: when it was started and what has become of it. */
  datatype Countdown = Countdown(start: int, status: Status)

  /** cancel is the index of the countdown whose cancel function is stored, or -1. */
  datatype Manager = Manager(triggered: bool, countdowns: seq<Countdown>, cancel: int)
  {
    predicate WellFormed() {
      -1 <= cancel < |countdowns|
    }
  }

  const NEW_MANAGER := Manager(false, [], -1)

  /** Calling the stored cancel function stops its countdown, unless that has fired. */
  function CancelStored(m: Manager): (m': Manager)
    requires m.WellFormed()
    ensures m'.WellFormed() && |m'.countdowns| == |m.countdowns|
  {
    if m.cancel < 0 || m.countdowns[m.cancel].status != Running then m
    else m.(countdowns := m.countdowns[m.cancel := m.countdowns[m.cancel].(status := Cancelled)])
  }

  /** Notify, given the pool size and the time. */
  function Notified(m: Manager, size: nat, now: int): (m': Manager)
    requires m.WellFormed()
    ensures m'.WellFormed()
  {
    if size == 0 && !m.triggered then
      var c := CancelStored(m);
      Manager(true, c.countdowns + [Countdown(now, Running)], |c.countdowns|)
    else if size != 0 && m.triggered then
      CancelStored(m).(triggered := false)
    else
      m
  }

  // ---------------------------------------------------------------- as an object

  class ServerPool {
    var tunnels: set<nat>            // tunnelMapping
    var triggered: bool
    var countdowns: seq<Countdown>
    var cancel: int

    function Mgr(): Manager
      reads this
    {
      Manager(triggered, countdowns, cancel)
    }

    constructor ()
      ensures Mgr() == NEW_MANAGER && tunnels == {}
    {
      tunnels, triggered, countdowns, cancel := {}, false, [], -1;
    }

    method CancelCountdown()
      requires Mgr().WellFormed()
      modifies `countdowns
      ensures Mgr() == CancelStored(old(Mgr()))
    {
      if cancel >= 0 {
        if countdowns[cancel].status == Running {
          countdowns := countdowns[cancel := countdowns[cancel].(status := Cancelled)];
        }
      }
    }

    method Notify(now: int)
      requires Mgr().WellFormed()
      modifies `triggered, `countdowns, `cancel
      ensures Mgr() == Notified(old(Mgr()), |tunnels|, now)
    {
      var tunnelCount := |tunnels|;
      if tunnelCount == 0 && !triggered {
        triggered := true;
        CancelCountdown();
        countdowns := countdowns + [Countdown(now, Running)];
        cancel := |countdowns| - 1;
      }
      if tunnelCount != 0 && triggered {
        triggered := false;
        CancelCountdown();
      }
    }

    method AddTunnel(t: nat, now: int)
      requires Mgr().WellFormed()
      modifies this
      ensures tunnels == old(tunnels) + {t} && Mgr() == Notified(old(Mgr()), |old(tunnels) + {t}|, now)
    {
      tunnels := tunnels + {t};
      Notify(now);
    }

    /** Only a tunnel still in the mapping is removed and reported. */
    method RemoveTunnel(t: nat, now: int)
      requires Mgr().WellFormed()
      modifies this
      ensures t in old(tunnels) ==>
                tunnels == old(tunnels) - {t} && Mgr() == Notified(old(Mgr()), |old(tunnels) - {t}|, now)
      ensures t !in old(tunnels) ==> tunnels == old(tunnels) && Mgr() == old(Mgr())
    {
      if t in tunnels {
        tunnels := tunnels - {t};
        Notify(now);
      }
    }
  }

  // ---------------------------------------------------------------- over time

  /** notified: Notify has been called at least once. */
  datatype State = State(tunnels: set<nat>, mgr: Manager, now: int, notified: bool, removed: bool)

  datatype Step = Add(t: nat) | Remove(t: nat) | Tick(d: nat) | Exit(i: nat) | Fire(i: nat)

  const INITIAL := State({}, NEW_MANAGER, 0, false, false)

  function WithStatus(m: Manager, i: nat, status: Status): Manager
    requires i < |m.countdowns|
  {
    m.(countdowns := m.countdowns[i := m.countdowns[i].(status := status)])
  }

  /** A countdown fires only after its full length; a cancelled one exits, unless a ready timer wins the select. */
  ghost predicate Next(s: State, s': State, step: Step) {
    s.mgr.WellFormed() &&
    match step
    case Add(t) =>
      s' == s.(tunnels := s.tunnels + {t}, mgr := Notified(s.mgr, |s.tunnels + {t}|, s.now), notified := true)
    case Remove(t) =>
      t in s.tunnels
      && s' == s.(tunnels := s.tunnels - {t}, mgr := Notified(s.mgr, |s.tunnels - {t}|, s.now), notified := true)
    case Tick(d) =>
      s' == s.(now := s.now + d)
    case Exit(i) =>
      i < |s.mgr.countdowns| && s.mgr.countdowns[i].status == Cancelled && s' == s.(mgr := WithStatus(s.mgr, i, Exited))
    case Fire(i) =>
      i < |s.mgr.countdowns| && (s.mgr.countdowns[i].status == Running || s.mgr.countdowns[i].status == Cancelled)
      && s.now >= s.mgr.countdowns[i].start + EMPTY_POOL_DESTROY_SEC
      && s' == s.(mgr := WithStatus(s.mgr, i, Fired), removed := true)
  }

  predicate Uncancelled(c: Countdown) {
    c.status == Running || c.status == Fired
  }

  /** The manager once notified, given whether the pool is empty: only its last countdown may be running. */
  ghost predicate ManagerOK(m: Manager, isEmpty: bool) {
    && m.WellFormed() && (m.triggered <==> isEmpty)
    && (m.triggered ==> m.cancel >= 0 && Uncancelled(m.countdowns[m.cancel]))
    && (forall i :: 0 <= i < |m.countdowns| && m.countdowns[i].status == Running ==> i == m.cancel && m.triggered)
  }

  ghost predicate Inv(s: State) {
    if s.notified then ManagerOK(s.mgr, s.tunnels == {}) else s.mgr == NEW_MANAGER && s.tunnels == {}
  }

  lemma CancelStopsAll(m: Manager)
    requires m.WellFormed()
    requires forall i :: 0 <= i < |m.countdowns| && m.countdowns[i].status == Running ==> i == m.cancel
    ensures forall i :: 0 <= i < |m.countdowns| ==> CancelStored(m).countdowns[i].status != Running
  {
  }

  lemma NotifyKeeps(m: Manager, size: nat, now: int)
    requires m.WellFormed() && (m == NEW_MANAGER || exists isEmpty :: ManagerOK(m, isEmpty))
    ensures ManagerOK(Notified(m, size, now), size == 0)
  {
    CancelStopsAll(m);
  }

  lemma StatusKeeps(m: Manager, isEmpty: bool, i: nat, status: Status)
    requires ManagerOK(m, isEmpty) && i < |m.countdowns|
    requires status == Fired || (status == Exited && m.countdowns[i].status == Cancelled)
    ensures ManagerOK(WithStatus(m, i, status), isEmpty)
  {
  }

  lemma NextKeeps(s: State, s': State, step: Step)
    requires Inv(s) && Next(s, s', step)
    ensures Inv(s')
  {
    match step {
      case Add(t) =>
        assert t in s.tunnels + {t};
        NotifyKeeps(s.mgr, |s.tunnels + {t}|, s.now);
      case Remove(t) =>
        NotifyKeeps(s.mgr, |s.tunnels - {t}|, s.now);
      case Tick(_) =>
      case Exit(i) =>
        StatusKeeps(s.mgr, s.tunnels == {}, i, Exited);
      case Fire(i) =>
        StatusKeeps(s.mgr, s.tunnels == {}, i, Fired);
    }
  }

  ghost predicate Run(states: seq<State>, steps: seq<Step>) {
    && |states| == |steps| + 1 && states[0] == INITIAL
    && forall i :: 0 <= i < |steps| ==> Next(states[i], states[i + 1], steps[i])
  }

  lemma {:induction false} RunInv(states: seq<State>, steps: seq<Step>, k: nat)
    requires Run(states, steps) && k < |states|
    ensures Inv(states[k])
  {
    if k > 0 {
      RunInv(states, steps, k - 1);
      NextKeeps(states[k - 1], states[k], steps[k - 1]);
    }
  }

  /**
   * Once notified, triggered tells whether the pool is empty; at most one countdown is live, and while the
   * pool is empty the current one is live unless it has fired.
   */
  lemma TriggeredMeansEmpty(states: seq<State>, steps: seq<Step>, k: nat)
    requires Run(states, steps) && k < |states|
    ensures states[k].notified ==> (states[k].mgr.triggered <==> states[k].tunnels == {})
    ensures states[k].notified && states[k].tunnels == {} ==>
              var m := states[k].mgr;
              0 <= m.cancel < |m.countdowns| && Uncancelled(m.countdowns[m.cancel])
    ensures forall i, j ::
              0 <= i < |states[k].mgr.countdowns| && 0 <= j < |states[k].mgr.countdowns|
              && states[k].mgr.countdowns[i].status == Running && states[k].mgr.countdowns[j].status == Running
              ==> i == j
  {
    RunInv(states, steps, k);
  }

  /** The pool is empty in every state from j to k. */
  ghost predicate EmptyThroughout(states: seq<State>, j: nat, k: nat)
    requires k < |states|
  {
    j <= k && forall m :: j <= m <= k ==> states[m].tunnels == {}
  }

  /** Countdown i was started by the step that led to state j. */
  ghost predicate Born(states: seq<State>, j: nat, i: nat) {
    && 0 < j < |states| && |states[j - 1].mgr.countdowns| <= i < |states[j].mgr.countdowns|
    && states[j].mgr.countdowns[i].start == states[j].now
  }

  /** What has happened to countdown i, born with state j, up to state k. */
  ghost predicate Story(states: seq<State>, j: nat, k: nat, i: nat) {
    && j <= k < |states| && Born(states, j, i) && i < |states[k].mgr.countdowns|
    && states[k].mgr.countdowns[i].start == states[j].now <= states[k].now
    && (states[k].mgr.countdowns[i].status == Running ==> EmptyThroughout(states, j, k))
    && (states[k].mgr.countdowns[i].status == Cancelled ==> !EmptyThroughout(states, j, k))
  }

  lemma StatusStep(s: State, s': State, step: Step, i: nat)
    requires Inv(s) && Next(s, s', step) && i < |s.mgr.countdowns|
    ensures i < |s'.mgr.countdowns| && s'.mgr.countdowns[i].start == s.mgr.countdowns[i].start && s.now <= s'.now
    ensures s'.mgr.countdowns[i].status == Running ==> s.mgr.countdowns[i].status == Running
    ensures s'.mgr.countdowns[i].status == Cancelled ==>
              s.mgr.countdowns[i].status == Cancelled || (s.mgr.countdowns[i].status == Running && s'.tunnels != {})
    ensures s'.mgr.countdowns[i].status == Running && Inv(s') ==> s'.tunnels == {}
  {
    CancelStopsAll(s.mgr);
  }

  lemma BirthStep(s: State, s': State, step: Step, i: nat)
    requires Inv(s) && Inv(s') && Next(s, s', step) && |s.mgr.countdowns| <= i < |s'.mgr.countdowns|
    ensures s'.mgr.countdowns[i] == Countdown(s'.now, Running) && s'.tunnels == {}
  {
  }

  lemma {:induction false} StoryOf(states: seq<State>, steps: seq<Step>, k: nat, i: nat) returns (j: nat)
    requires Run(states, steps) && k < |states| && i < |states[k].mgr.countdowns|
    ensures Story(states, j, k, i)
  {
    RunInv(states, steps, k);
    assert k > 0;
    RunInv(states, steps, k - 1);
    var s, s', step := states[k - 1], states[k], steps[k - 1];
    assert Next(s, states[k - 1 + 1], step);
    if i < |s.mgr.countdowns| {
      j := StoryOf(states, steps, k - 1, i);
      StatusStep(s, s', step, i);
      StoryOn(states, j, k, i);
    } else {
      BirthStep(s, s', step, i);
      j := k;
    }
  }

  lemma StoryOn(states: seq<State>, j: nat, k: nat, i: nat)
    requires 0 < k < |states| && Story(states, j, k - 1, i) && i < |states[k].mgr.countdowns|
    requires states[k].mgr.countdowns[i].start == states[k - 1].mgr.countdowns[i].start
    requires states[k - 1].now <= states[k].now
    requires states[k].mgr.countdowns[i].status == Running ==>
               states[k - 1].mgr.countdowns[i].status == Running && states[k].tunnels == {}
    requires states[k].mgr.countdowns[i].status == Cancelled ==>
               states[k - 1].mgr.countdowns[i].status == Cancelled || states[k].tunnels != {}
    ensures Story(states, j, k, i)
  {
  }

  /** A live countdown was started at some state since which the pool has been empty. */
  lemma LiveSinceEmpty(states: seq<State>, steps: seq<Step>, k: nat, i: nat) returns (j: nat)
    requires Run(states, steps) && k < |states|
    requires i < |states[k].mgr.countdowns| && states[k].mgr.countdowns[i].status == Running
    ensures EmptyThroughout(states, j, k) && states[j].now == states[k].mgr.countdowns[i].start
  {
    j := StoryOf(states, steps, k, i);
  }

  /**
   * A peer is removed no sooner than the full period after the countdown that removes it was started, and exactly
   * when that countdown has not been cancelled has the pool been empty, without a break, ever since.
   */
  lemma RemovedOnlyAfterEmptyPeriod(states: seq<State>, steps: seq<Step>, k: nat) returns (j: nat)
    requires Run(states, steps) && k < |steps| && steps[k].Fire?
    ensures j <= k && Born(states, j, steps[k].i) && states[k].now - states[j].now >= EMPTY_POOL_DESTROY_SEC
    ensures steps[k].i < |states[k].mgr.countdowns|
    ensures EmptyThroughout(states, j, k) <==> states[k].mgr.countdowns[steps[k].i].status == Running
  {
    assert Next(states[k], states[k + 1], steps[k]);
    j := StoryOf(states, steps, k, steps[k].i);
  }

  /** The exception is real: a pool refilled just as the period ends may still lose its peer. */
  lemma RefilledYetRemoved() returns (states: seq<State>, steps: seq<Step>)
    ensures Run(states, steps) && |states| == 6 && states[5].removed && states[5].tunnels == {2}
  {
    var m1 := Manager(true, [Countdown(0, Running)], 0);
    var m2 := Manager(false, [Countdown(0, Cancelled)], 0);
    var s1 := State({1}, NEW_MANAGER, 0, true, false);
    var s2 := State({}, m1, 0, true, false);
    var s3 := s2.(now := EMPTY_POOL_DESTROY_SEC);
    var s4 := s3.(tunnels := {2}, mgr := m2);
    var s5 := s4.(mgr := m2.(countdowns := [Countdown(0, Fired)]), removed := true);
    assert {} + {1} == {1} && {1} - {1} == {} && {} + {2} == {2};
    assert |{1}| == 1 && |{2}| == 1;
    assert Next(INITIAL, s1, Add(1)) && Next(s1, s2, Remove(1)) && Next(s2, s3, Tick(EMPTY_POOL_DESTROY_SEC));
    assert Next(s3, s4, Add(2)) && Next(s4, s5, Fire(0));
    states := [INITIAL, s1, s2, s3, s4, s5];
    steps := [Add(1), Remove(1), Tick(EMPTY_POOL_DESTROY_SEC), Add(2), Fire(0)];
  }
}
