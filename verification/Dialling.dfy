/**
 * The goroutines of one outgoing connection, interleaved: each Connect block starts a connect, each dial that
 * succeeds replaces HalfOpenConn and starts its own pair of relays, and all relays share one queue of ordered
 * blocks. Taking a block and writing it are separate steps, and so are reading bytes and sending them on.
 */
module Dialling {
  import opened Bytes
  import opened Blocks

  /** Where a connect goroutine stands; Dialled has stored HalfOpenConn but not yet toggled closed. */
  datatype Connecting = Entered | Trying | Dialled

  /** Where a SendRelay stands: between a failed write and the close that follows it, it has Erred. */
  datatype Sending = Ready | Taken(block: Block) | Erred

  /** One dial's SendRelay, and the bytes its RecvRelay has read and not yet sent on. */
  datatype Pair = Pair(out: Sending, held: seq<byte>)

  /** A dialled connection: what was written to it, whether it is closed for writing, what was read from it. */
  datatype Conn = Conn(wire: seq<byte>, shut: bool, came: seq<byte>)

  /**
   * connects are the connect goroutines not yet finished. HalfOpenConn is the last of conns. taken counts the
   * ordered blocks the relays have received, sent is what they have given to sendData. received counts Connect
   * blocks, passed the connects that went on to dial, shutdowns the ShutdownBoth blocks sent.
   */
  datatype State = State(
    closed: bool,
    connects: seq<Connecting>,
    conns: seq<Conn>,
    pairs: seq<Pair>,
    taken: nat,
    sent: seq<byte>,
    received: nat,
    passed: nat,
    shutdowns: nat)

  datatype Step =
    | RecvConnect                            // RecvBlock on a Connect block starts a connect goroutine
    | Check(t: nat)                          // closed and HalfOpenConn are tested
    | DialOK(t: nat)                         // HalfOpenConn is assigned
    | Toggle(t: nat)                         // closed is flipped and a pair of relays is started
    | DialFails(t: nat)                      // ShutdownBoth is sent
    | OnceSend                               // closeThenCancelWithOnceSend by any relay
    | Take(r: nat)                           // SendRelay r receives the next ordered block
    | Handle(r: nat, j: nat, n: nat, errs: bool)  // and acts on it: a data block has n bytes written to connection j
    | CloseErred(r: nat)                     // after a failed write
    | Fetch(r: nat, j: nat, data: seq<byte>) // RecvRelay r reads data from connection j
    | Send(r: nat, k: nat)                   // and sends the next k of the bytes it holds

  const INITIAL := State(true, [], [], [], 0, [], 0, 0, 0)

  function Drop<T>(s: seq<T>, t: nat): seq<T>
    requires t < |s|
  {
    s[..t] + s[t + 1..]
  }

  /** HalfOpenConn closed for writing. */
  function Closing(conns: seq<Conn>): seq<Conn> {
    if conns == [] then [] else conns[|conns| - 1 := conns[|conns| - 1].(shut := true)]
  }

  function ClosedOnce(s: State): State {
    s.(conns := Closing(s.conns), closed := true, shutdowns := s.shutdowns + if s.closed then 0 else 1)
  }

  function WithConnect(s: State): State {
    s.(connects := s.connects + [Entered], received := s.received + 1)
  }

  function Checked(s: State, t: nat): State
    requires t < |s.connects|
  {
    if !s.closed || s.conns != [] then s.(connects := Drop(s.connects, t))
    else s.(connects := s.connects[t := Trying], passed := s.passed + 1)
  }

  function SetOut(pairs: seq<Pair>, r: nat, out: Sending): seq<Pair>
    requires r < |pairs|
  {
    pairs[r := pairs[r].(out := out)]
  }

  function SetHeld(pairs: seq<Pair>, r: nat, held: seq<byte>): seq<Pair>
    requires r < |pairs|
  {
    pairs[r := pairs[r].(held := held)]
  }

  /** One connect goroutine moves on. */
  ghost predicate ConnectNext(s: State, s': State, step: Step)
    requires step.Check? || step.DialOK? || step.Toggle? || step.DialFails?
  {
    step.t < |s.connects| &&
    match step
    case Check(t) =>
      s.connects[t] == Entered && s' == Checked(s, t)
    case DialOK(t) =>
      s.connects[t] == Trying
      && s' == s.(conns := s.conns + [Conn([], false, [])], connects := s.connects[t := Dialled])
    case Toggle(t) =>
      s.connects[t] == Dialled
      && s' == s.(closed := !s.closed, pairs := s.pairs + [Pair(Ready, [])], connects := Drop(s.connects, t))
    case DialFails(t) =>
      s.connects[t] == Trying && s' == s.(shutdowns := s.shutdowns + 1, connects := Drop(s.connects, t))
  }

  /** What acting on block b does to connection j: writing may stop anywhere with an error, and must on a closed one. */
  ghost predicate Handled(conns: seq<Conn>, conns': seq<Conn>, b: Block, j: nat, n: nat, errs: bool)
    requires j < |conns|
  {
    if b.typ == TYPE_DATA then
      n <= |b.data| && (!errs ==> n == |b.data|) && (conns[j].shut ==> n == 0 && errs)
      && conns' == conns[j := conns[j].(wire := conns[j].wire + b.data[..n])]
    else if b.typ == TYPE_DISCONNECT then
      |b.data| > 0 && n == 0 && !errs
      && conns' == if b.data[0] == SHUTDOWN_READ then conns else conns[j := conns[j].(shut := true)]
    else
      n == 0 && !errs && conns' == conns
  }

  /** One relay moves on; blocks are the ordered blocks. A call acts on what was HalfOpenConn as it began. */
  ghost predicate RelayNext(blocks: seq<Block>, s: State, s': State, step: Step)
    requires step.Take? || step.Handle? || step.CloseErred? || step.Fetch? || step.Send?
  {
    step.r < |s.pairs| &&
    match step
    case Take(r) =>
      s.pairs[r].out == Ready && s.taken < |blocks|
      && s' == s.(pairs := SetOut(s.pairs, r, Taken(blocks[s.taken])), taken := s.taken + 1)
    case Handle(r, j, n, errs) =>
      s.pairs[r].out.Taken? && j < |s.conns| && Handled(s.conns, s'.conns, s.pairs[r].out.block, j, n, errs)
      && s' == s.(conns := s'.conns, pairs := SetOut(s.pairs, r, if errs then Erred else Ready))
    case CloseErred(r) =>
      s.pairs[r].out == Erred && s' == ClosedOnce(s).(pairs := SetOut(s.pairs, r, Ready))
    case Fetch(r, j, data) =>
      s.pairs[r].held == [] && j < |s.conns|
      && s' == s.(conns := s.conns[j := s.conns[j].(came := s.conns[j].came + data)],
                  pairs := SetHeld(s.pairs, r, data))
    case Send(r, k) =>
      k <= |s.pairs[r].held|
      && s' == s.(sent := s.sent + s.pairs[r].held[..k], pairs := SetHeld(s.pairs, r, s.pairs[r].held[k..]))
  }

  ghost predicate Next(blocks: seq<Block>, s: State, s': State, step: Step) {
    match step
    case RecvConnect => s' == WithConnect(s)
    case OnceSend => s.pairs != [] && s' == ClosedOnce(s)
    case Check(_) => ConnectNext(s, s', step)
    case DialOK(_) => ConnectNext(s, s', step)
    case Toggle(_) => ConnectNext(s, s', step)
    case DialFails(_) => ConnectNext(s, s', step)
    case _ => RelayNext(blocks, s, s', step)
  }

  // ---------------------------------------------------------------- counting the connects

  function Count(connects: seq<Connecting>, c: Connecting): nat {
    multiset(connects)[c]
  }

  lemma CountDrop(connects: seq<Connecting>, t: nat, c: Connecting)
    requires t < |connects|
    ensures Count(Drop(connects, t), c) == Count(connects, c) - (if connects[t] == c then 1 else 0)
  {
    assert connects == connects[..t] + [connects[t]] + connects[t + 1..];
  }

  lemma CountSet(connects: seq<Connecting>, t: nat, x: Connecting, c: Connecting)
    requires t < |connects|
    ensures Count(connects[t := x], c) == Count(Drop(connects, t), c) + (if x == c then 1 else 0)
  {
    assert connects[t := x] == connects[..t] + [x] + connects[t + 1..];
  }

  lemma CountPush(connects: seq<Connecting>, x: Connecting, c: Connecting)
    ensures Count(connects + [x], c) == Count(connects, c) + (if x == c then 1 else 0)
  {
  }

  /** Dropping, setting and adding, for all three places a connect can stand. */
  lemma Counts(connects: seq<Connecting>, t: nat, x: Connecting)
    requires t < |connects|
    ensures forall c :: Count(Drop(connects, t), c) == Count(connects, c) - (if connects[t] == c then 1 else 0)
    ensures forall c :: Count(connects[t := x], c) == Count(Drop(connects, t), c) + (if x == c then 1 else 0)
  {
    forall c
      ensures Count(Drop(connects, t), c) == Count(connects, c) - (if connects[t] == c then 1 else 0)
      ensures Count(connects[t := x], c) == Count(Drop(connects, t), c) + (if x == c then 1 else 0)
    {
      CountDrop(connects, t, c);
      CountSet(connects, t, x, c);
    }
  }

  /**
   * Every ShutdownBoth, sent or still possible, is paid for by a connect of its own that went on to dial; so is
   * every dialled connection, and every pair of relays by a connection.
   */
  ghost predicate Paid(s: State) {
    && s.shutdowns + (if s.closed then 0 else 1) + Count(s.connects, Trying) + Count(s.connects, Dialled) <= s.passed
    && s.passed + Count(s.connects, Entered) <= s.received
    && |s.conns| + Count(s.connects, Trying) <= s.passed
    && |s.pairs| + Count(s.connects, Dialled) == |s.conns|
  }

  lemma ConnectPaid(s: State, s': State, step: Step)
    requires step.Check? || step.DialOK? || step.Toggle? || step.DialFails?
    requires Paid(s) && ConnectNext(s, s', step)
    ensures Paid(s')
  {
    Counts(s.connects, step.t, if step.Check? then Trying else Dialled);
  }

  lemma PaidKept(blocks: seq<Block>, s: State, s': State, step: Step)
    requires Paid(s) && Next(blocks, s, s', step)
    ensures Paid(s') && s.received <= s'.received && s.passed <= s'.passed
  {
    match step {
      case RecvConnect =>
        CountPush(s.connects, Entered, Entered);
        CountPush(s.connects, Entered, Trying);
        CountPush(s.connects, Entered, Dialled);
      case Check(_) => ConnectPaid(s, s', step);
      case DialOK(_) => ConnectPaid(s, s', step);
      case Toggle(_) => ConnectPaid(s, s', step);
      case DialFails(_) => ConnectPaid(s, s', step);
      case _ =>
    }
  }

  // ---------------------------------------------------------------- a single dial

  /** What one SendRelay has written of the blocks it has taken. */
  ghost predicate Writing(blocks: seq<Block>, taken: nat, out: Sending, conn: Conn) {
    taken <= |blocks| &&
    match out
    case Ready => InStep(blocks[..taken], conn)
    case Taken(b) => taken > 0 && b == blocks[taken - 1] && InStep(blocks[..taken - 1], conn)
    case Erred => conn.wire <= DataOf(blocks[..taken])
  }

  /** All the data of done, or a part of it on a closed connection. */
  ghost predicate InStep(done: seq<Block>, conn: Conn) {
    conn.wire <= DataOf(done) && (conn.wire == DataOf(done) || conn.shut)
  }

  /** With one connection its relays keep both streams in order; without relays nothing has moved. */
  ghost predicate Alone(blocks: seq<Block>, s: State) {
    if s.pairs == [] then
      s.taken == 0 && s.sent == [] && forall j :: 0 <= j < |s.conns| ==> s.conns[j].wire == [] && s.conns[j].came == []
    else
      |s.conns| == 1 ==>
        Writing(blocks, s.taken, s.pairs[0].out, s.conns[0]) && s.sent + s.pairs[0].held == s.conns[0].came
  }

  ghost predicate Inv(blocks: seq<Block>, s: State) {
    Paid(s) && Alone(blocks, s)
  }

  lemma HandleWrites(blocks: seq<Block>, taken: nat, b: Block, conn: Conn, conns: seq<Conn>, n: nat, errs: bool)
    requires Writing(blocks, taken, Taken(b), conn) && |conns| == 1
    requires Handled([conn], conns, b, 0, n, errs)
    ensures Writing(blocks, taken, if errs then Erred else Ready, conns[0]) && conns[0].came == conn.came
  {
    var done := blocks[..taken - 1];
    assert blocks[..taken] == done + [b];
    DataOfPush(done, b);
    if b.typ == TYPE_DATA {
      assert conns[0].wire == conn.wire + b.data[..n];
      if conn.wire == DataOf(done) {
        assert conns[0].wire <= DataOf(done) + b.data;
      } else {
        assert conns[0].wire == conn.wire;
      }
    } else {
      assert DataOf(done) + [] == DataOf(done);
    }
  }

  lemma RelayAlone(blocks: seq<Block>, s: State, s': State, step: Step)
    requires step.Take? || step.Handle? || step.CloseErred? || step.Fetch? || step.Send?
    requires Inv(blocks, s) && RelayNext(blocks, s, s', step)
    ensures Alone(blocks, s')
  {
    if |s.conns| == 1 {
      assert |s.pairs| == 1 && step.r == 0;
      var conn := s.conns[0];
      match step {
        case Take(r) => assert blocks[..s.taken + 1][..s.taken] == blocks[..s.taken];
        case Handle(r, j, n, errs) =>
          assert s.conns == [conn];
          HandleWrites(blocks, s.taken, s.pairs[0].out.block, conn, s'.conns, n, errs);
        case CloseErred(r) =>
        case Fetch(r, j, data) => assert s.sent + [] == s.sent;
        case Send(r, k) =>
          assert s.pairs[0].held == s.pairs[0].held[..k] + s.pairs[0].held[k..];
          Associative(s.sent, s.pairs[0].held[..k], s.pairs[0].held[k..]);
      }
    }
  }

  lemma ConnectAlone(blocks: seq<Block>, s: State, s': State, step: Step)
    requires step.Check? || step.DialOK? || step.Toggle? || step.DialFails?
    requires Inv(blocks, s) && ConnectNext(s, s', step)
    ensures Alone(blocks, s')
  {
    if step.Toggle? && s.pairs == [] && |s.conns| == 1 {
      assert blocks[..0] == [];
    }
  }

  lemma NextKeeps(blocks: seq<Block>, s: State, s': State, step: Step)
    requires Inv(blocks, s) && Next(blocks, s, s', step)
    ensures Inv(blocks, s')
  {
    PaidKept(blocks, s, s', step);
    match step {
      case RecvConnect =>
      case OnceSend =>
      case Check(_) => ConnectAlone(blocks, s, s', step);
      case DialOK(_) => ConnectAlone(blocks, s, s', step);
      case Toggle(_) => ConnectAlone(blocks, s, s', step);
      case DialFails(_) => ConnectAlone(blocks, s, s', step);
      case _ => RelayAlone(blocks, s, s', step);
    }
  }

  /** More ordered blocks do not disturb it. */
  lemma InvGrows(blocks: seq<Block>, blocks': seq<Block>, s: State)
    requires Inv(blocks, s) && blocks <= blocks'
    ensures Inv(blocks', s)
  {
    if s.pairs != [] && |s.conns| == 1 {
      assert blocks'[..s.taken] == blocks[..s.taken];
      assert s.taken > 0 ==> blocks'[..s.taken - 1] == blocks[..s.taken - 1];
    }
  }

  /** Connections are never given up, nor bytes taken back from them. */
  ghost predicate ConnsGrow(s: State, s': State) {
    |s.conns| <= |s'.conns| && forall j :: 0 <= j < |s.conns| ==> s.conns[j].wire <= s'.conns[j].wire
  }

  lemma NextGrows(blocks: seq<Block>, s: State, s': State, step: Step)
    requires Next(blocks, s, s', step)
    ensures ConnsGrow(s, s')
  {
  }

  // ---------------------------------------------------------------- runs

  ghost predicate Path(blocks: seq<Block>, states: seq<State>, steps: seq<Step>) {
    && |states| == |steps| + 1
    && forall i :: 0 <= i < |steps| ==> Next(blocks, states[i], states[i + 1], steps[i])
  }

  ghost predicate Run(blocks: seq<Block>, states: seq<State>, steps: seq<Step>) {
    Path(blocks, states, steps) && states[0] == INITIAL
  }

  function Last(states: seq<State>): State
    requires states != []
  {
    states[|states| - 1]
  }

  lemma {:induction false} RunInv(blocks: seq<Block>, states: seq<State>, steps: seq<Step>, k: nat)
    requires Run(blocks, states, steps) && k < |states|
    ensures Inv(blocks, states[k])
  {
    if k > 0 {
      RunInv(blocks, states, steps, k - 1);
      NextKeeps(blocks, states[k - 1], states[k - 1 + 1], steps[k - 1]);
    } else {
      InitialOK(blocks);
    }
  }

  lemma InitialOK(blocks: seq<Block>)
    ensures Inv(blocks, INITIAL)
  {
  }

  lemma Extend(blocks: seq<Block>, states: seq<State>, steps: seq<Step>, s: State, s': State, step: Step)
      returns (states': seq<State>, steps': seq<Step>)
    requires Path(blocks, states, steps) && s == Last(states) && Next(blocks, s, s', step)
    ensures Path(blocks, states', steps') && states' == states + [s'] && Last(states') == s' && steps' == steps + [step]
    ensures states'[0] == states[0]
  {
    states', steps' := states + [s'], steps + [step];
    forall i | 0 <= i < |steps'|
      ensures Next(blocks, states'[i], states'[i + 1], steps'[i])
    {
      if i < |steps| {
        assert Next(blocks, states[i], states[i + 1], steps[i]);
      }
    }
  }

  lemma Join(blocks: seq<Block>, a: seq<State>, x: seq<Step>, b: seq<State>, y: seq<Step>)
      returns (states: seq<State>, steps: seq<Step>)
    requires Path(blocks, a, x) && Path(blocks, b, y) && Last(a) == b[0]
    ensures Path(blocks, states, steps) && states[0] == a[0] && Last(states) == Last(b) && steps == x + y
  {
    states, steps := a + b[1..], x + y;
    forall i | 0 <= i < |steps|
      ensures Next(blocks, states[i], states[i + 1], steps[i])
    {
      if i < |x| {
        assert Next(blocks, a[i], a[i + 1], x[i]);
      } else {
        assert Next(blocks, b[i - |x|], b[i - |x| + 1], y[i - |x|]);
        assert states[i] == b[i - |x|] && states[i + 1] == b[i - |x| + 1];
      }
    }
  }

  /** No Connect block comes on the way. */
  ghost predicate Connected(steps: seq<Step>) {
    forall i :: 0 <= i < |steps| ==> !steps[i].RecvConnect?
  }

  // ---------------------------------------------------------------- how many ShutdownBoth blocks

  /** No interleaving sends more ShutdownBoth blocks than connects went on to dial, nor than Connect blocks came. */
  lemma AtMostOneShutdownEach(blocks: seq<Block>, states: seq<State>, steps: seq<Step>, k: nat)
    requires Run(blocks, states, steps) && k < |states|
    ensures states[k].shutdowns <= states[k].passed <= states[k].received
  {
    RunInv(blocks, states, steps, k);
  }

  function Times<T>(x: T, n: nat): (s: seq<T>)
    ensures |s| == n
  {
    seq(n, _ => x)
  }

  lemma TimesMore<T>(x: T, n: nat)
    ensures Times(x, n) + [x] == Times(x, n + 1) && Drop(Times(x, n + 1), 0) == Times(x, n)
  {
  }

  /** n Connect blocks have come, m connects have yet to be checked, and the dials of the others have failed. */
  function Failing(n: nat, m: nat): State
    requires m <= n
  {
    INITIAL.(connects := Times(Entered, m), received := n, passed := n - m, shutdowns := n - m)
  }

  lemma {:induction false} AllReceived(blocks: seq<Block>, n: nat) returns (states: seq<State>, steps: seq<Step>)
    ensures Run(blocks, states, steps) && Last(states) == Failing(n, n)
  {
    if n == 0 {
      return [INITIAL], [];
    }
    states, steps := AllReceived(blocks, n - 1);
    TimesMore(Entered, n - 1);
    states, steps := Extend(blocks, states, steps, Failing(n - 1, n - 1), Failing(n, n), RecvConnect);
  }

  /** For every n, n Connect blocks, all of which dial in vain, send n ShutdownBoth blocks. */
  lemma {:induction false} ShutdownsReached(blocks: seq<Block>, n: nat, m: nat)
      returns (states: seq<State>, steps: seq<Step>)
    requires m <= n
    ensures Run(blocks, states, steps) && Last(states) == Failing(n, m)
    decreases n - m
  {
    if m == n {
      states, steps := AllReceived(blocks, n);
    } else {
      states, steps := ShutdownsReached(blocks, n, m + 1);
      var s := Failing(n, m + 1);
      var dialling := s.(connects := s.connects[0 := Trying], passed := s.passed + 1);
      assert Drop(dialling.connects, 0) == Times(Entered, m);
      states, steps := Extend(blocks, states, steps, s, dialling, Check(0));
      states, steps := Extend(blocks, states, steps, dialling, Failing(n, m), DialFails(0));
    }
  }

  /** No run in which n Connect blocks came has sent more than one ShutdownBoth. */
  ghost predicate OnceFor(n: nat) {
    forall blocks: seq<Block>, states: seq<State>, steps: seq<Step> :: Run(blocks, states, steps)
      ==> (Last(states).received == n ==> Last(states).shutdowns <= 1)
  }

  /** The same of the runs in which n connects went on to dial. */
  ghost predicate OnceForDials(n: nat) {
    forall blocks: seq<Block>, states: seq<State>, steps: seq<Step> :: Run(blocks, states, steps)
      ==> (Last(states).passed == n ==> Last(states).shutdowns <= 1)
  }

  /** Exactly when at most one ShutdownBoth is sent: with at most one Connect block, or at most one of them dialling. */
  lemma OneShutdownExactly(n: nat)
    ensures OnceFor(n) <==> n <= 1
    ensures OnceForDials(n) <==> n <= 1
  {
    forall blocks: seq<Block>, states: seq<State>, steps: seq<Step> | Run(blocks, states, steps)
      ensures Last(states).shutdowns <= Last(states).passed <= Last(states).received
    {
      AtMostOneShutdownEach(blocks, states, steps, |states| - 1);
    }
    var states, steps := ShutdownsReached([], n, 0);
    assert Run([], states, steps) && Last(states).shutdowns == n;
  }

  /** Two dials of one Connect block and its copy may both fail. */
  lemma DuplicateConnectShutsTwice() returns (states: seq<State>, steps: seq<Step>)
    ensures Run([], states, steps) && Last(states).received == 2 && Last(states).shutdowns == 2
  {
    states, steps := ShutdownsReached([], 2, 0);
  }

  /** From a closed state with no connect under way, no shutdown is sent before another Connect block comes. */
  lemma {:induction false} ClosedIsSilent(blocks: seq<Block>, states: seq<State>, steps: seq<Step>, j: nat, k: nat)
    requires Run(blocks, states, steps) && j <= k < |states|
    requires states[j].closed && states[j].connects == [] && states[k].received == states[j].received
    ensures states[k].shutdowns == states[j].shutdowns && states[k].closed && states[k].connects == []
  {
    if j < k {
      ReceivedGrows(blocks, states, steps, j, k - 1);
      SilentStep(blocks, states[k - 1], states[k - 1 + 1], steps[k - 1]);
      RunStep(blocks, states, steps, k - 1);
      ClosedIsSilent(blocks, states, steps, j, k - 1);
    }
  }

  lemma RunStep(blocks: seq<Block>, states: seq<State>, steps: seq<Step>, k: nat)
    requires Run(blocks, states, steps) && k < |steps|
    ensures states[k].received <= states[k + 1].received
  {
    SilentStep(blocks, states[k], states[k + 1], steps[k]);
  }

  lemma SilentStep(blocks: seq<Block>, s: State, s': State, step: Step)
    requires Next(blocks, s, s', step)
    ensures s.received <= s'.received
    ensures s.closed && s.connects == [] && s'.received == s.received ==>
              s'.closed && s'.connects == [] && s'.shutdowns == s.shutdowns
  {
  }

  lemma {:induction false} ReceivedGrows(blocks: seq<Block>, states: seq<State>, steps: seq<Step>, j: nat, k: nat)
    requires Run(blocks, states, steps) && j <= k < |states|
    ensures states[j].received <= states[k].received
  {
    if j < k {
      SilentStep(blocks, states[k - 1], states[k - 1 + 1], steps[k - 1]);
      ReceivedGrows(blocks, states, steps, j, k - 1);
    }
  }

  // ---------------------------------------------------------------- in which order the bytes go

  /** Every dialled connection has been written a prefix of the ordered data. */
  ghost predicate WiresInOrder(blocks: seq<Block>, s: State) {
    forall j :: 0 <= j < |s.conns| ==> s.conns[j].wire <= DataOf(blocks)
  }

  /** What has been sent back is a prefix of what came from some dialled connection. */
  ghost predicate SentInOrder(s: State) {
    s.sent == [] || exists j :: 0 <= j < |s.conns| && s.sent <= s.conns[j].came
  }

  /** As long as at most one dial has succeeded, both directions are in order. */
  lemma SingleDialInOrder(blocks: seq<Block>, s: State)
    requires Inv(blocks, s) && |s.conns| <= 1
    ensures WiresInOrder(blocks, s) && SentInOrder(s)
  {
    if s.pairs != [] {
      var conn := s.conns[0];
      assert s.sent <= conn.came;
      DataOfPrefix(blocks[..s.taken], blocks);
      if s.taken > 0 {
        DataOfPrefix(blocks[..s.taken - 1], blocks);
      }
    }
  }

  datatype Measure = ByReceived | ByPassed | ByDialled

  /** Connect blocks received, connects that went on to dial, or dials that succeeded. */
  function Measured(m: Measure, s: State): nat {
    match m
    case ByReceived => s.received
    case ByPassed => s.passed
    case ByDialled => |s.conns|
  }

  /** In every run measuring n, every dialled connection's wire is a prefix of the ordered data. */
  ghost predicate WiresRight(m: Measure, n: nat) {
    forall blocks: seq<Block>, states: seq<State>, steps: seq<Step> :: Run(blocks, states, steps)
      ==> (Measured(m, Last(states)) == n ==> WiresInOrder(blocks, Last(states)))
  }

  ghost predicate SentRight(m: Measure, n: nat) {
    forall blocks: seq<Block>, states: seq<State>, steps: seq<Step> :: Run(blocks, states, steps)
      ==> (Measured(m, Last(states)) == n ==> SentInOrder(Last(states)))
  }

  const NEW_CONN := Conn([], false, [])

  /** n Connect blocks have come, i connects have been checked, and the dials of d of them have succeeded. */
  function Succeeding(n: nat, i: nat, d: nat): State
    requires d <= i <= n && (d > 0 ==> i == n)
  {
    INITIAL.(connects := Times(Dialled, d) + Times(Trying, i - d) + Times(Entered, n - i),
             conns := Times(NEW_CONN, d), received := n, passed := i)
  }

  lemma SetNext<T>(a: T, b: T, d: nat, e: nat, rest: seq<T>)
    ensures (Times(a, d) + Times(b, e + 1) + rest)[d := a] == Times(a, d + 1) + Times(b, e) + rest
    ensures (Times(a, d) + Times(b, e + 1) + rest)[d] == b
  {
  }

  lemma {:induction false} AllChecked(blocks: seq<Block>, n: nat, i: nat) returns (states: seq<State>, steps: seq<Step>)
    requires i <= n
    ensures Path(blocks, states, steps) && Connected(steps)
    ensures states[0] == Failing(n, n) && Last(states) == Succeeding(n, i, 0)
  {
    if i == 0 {
      states, steps := [Failing(n, n)], [];
      assert Times(Dialled, 0) + Times(Trying, 0) + Times(Entered, n) == Times(Entered, n);
    } else {
      states, steps := AllChecked(blocks, n, i - 1);
      var s := Succeeding(n, i - 1, 0);
      SetNext(Trying, Entered, i - 1, n - i, []);
      assert s.connects == Times(Trying, i - 1) + Times(Entered, n - i + 1) + [];
      assert Succeeding(n, i, 0).connects == Times(Trying, i) + Times(Entered, n - i) + [];
      states, steps := Extend(blocks, states, steps, s, Succeeding(n, i, 0), Check(i - 1));
    }
  }

  lemma {:induction false} AllDialled(blocks: seq<Block>, n: nat, d: nat) returns (states: seq<State>, steps: seq<Step>)
    requires d <= n
    ensures Path(blocks, states, steps) && Connected(steps)
    ensures states[0] == Failing(n, n) && Last(states) == Succeeding(n, n, d)
  {
    if d == 0 {
      states, steps := AllChecked(blocks, n, n);
    } else {
      states, steps := AllDialled(blocks, n, d - 1);
      SetNext(Dialled, Trying, d - 1, n - d, Times(Entered, 0));
      TimesMore(NEW_CONN, d - 1);
      states, steps := Extend(blocks, states, steps, Succeeding(n, n, d - 1), Succeeding(n, n, d), DialOK(d - 1));
    }
  }

  function Byte(i: uint32, x: byte): Block {
    Block(TYPE_DATA, 0, 0, i, 1, [x])
  }

  /** Two ordered blocks of one byte each. */
  const TWO_BYTES := [Byte(0, 1), Byte(1, 2)]

  lemma TwoBytes()
    ensures DataOf(TWO_BYTES) == [1, 2]
  {
    assert TWO_BYTES[1..] == [Byte(1, 2)] && TWO_BYTES[1..][1..] == [];
    assert DataOf(TWO_BYTES[1..]) == [2] + DataOf([]);
  }

  /** n dials have succeeded, and two of them have started their relays. */
  function TwoPairs(n: nat): State
    requires n >= 2
  {
    INITIAL.(connects := Times(Dialled, n - 2), conns := Times(NEW_CONN, n),
             pairs := [Pair(Ready, []), Pair(Ready, [])], received := n, passed := n)
  }

  lemma BothToggled(blocks: seq<Block>, n: nat) returns (states: seq<State>, steps: seq<Step>)
    requires n >= 2
    ensures Path(blocks, states, steps) && Connected(steps)
    ensures states[0] == Failing(n, n) && Last(states) == TwoPairs(n)
  {
    states, steps := AllDialled(blocks, n, n);
    var s := Succeeding(n, n, n);
    assert s.connects == Times(Dialled, n);
    TimesMore(Dialled, n - 1);
    TimesMore(Dialled, n - 2);
    var s1 := s.(closed := false, connects := Times(Dialled, n - 1), pairs := [Pair(Ready, [])]);
    states, steps := Extend(blocks, states, steps, s, s1, Toggle(0));
    states, steps := Extend(blocks, states, steps, s1, TwoPairs(n), Toggle(0));
  }

  /** Two dials may both succeed, toggling closed twice and leaving it set while relays run. */
  lemma DuplicateConnectReopens() returns (states: seq<State>, steps: seq<Step>)
    ensures Run([], states, steps) && Last(states).received == 2
    ensures Last(states).closed && |Last(states).pairs| == 2
    ensures Last(states).connects == [] && Last(states).shutdowns == 0
  {
    var a, x := AllReceived([], 2);
    var b, y := BothToggled([], 2);
    states, steps := Join([], a, x, b, y);
  }

  /** The last of n dialled connections is as given, the others are as new; so are the pairs. */
  function Moving(n: nat, conn: Conn, pairs: seq<Pair>, taken: nat, sent: seq<byte>): State
    requires n >= 2
  {
    TwoPairs(n).(conns := Times(NEW_CONN, n - 1) + [conn], pairs := pairs, taken := taken, sent := sent)
  }

  lemma SetLast(n: nat, conn: Conn, conn': Conn)
    requires n >= 2
    ensures (Times(NEW_CONN, n - 1) + [conn])[n - 1 := conn'] == Times(NEW_CONN, n - 1) + [conn']
    ensures (Times(NEW_CONN, n - 1) + [conn])[n - 1] == conn
  {
  }

  lemma Takes(blocks: seq<Block>, n: nat, conn: Conn, pairs: seq<Pair>, taken: nat, sent: seq<byte>, r: nat)
    requires n >= 2 && r < |pairs| && pairs[r].out == Ready && taken < |blocks|
    ensures Next(blocks, Moving(n, conn, pairs, taken, sent),
                 Moving(n, conn, SetOut(pairs, r, Taken(blocks[taken])), taken + 1, sent), Take(r))
  {
  }

  lemma Writes(blocks: seq<Block>, n: nat, conn: Conn, pairs: seq<Pair>, taken: nat, sent: seq<byte>, r: nat, b: Block)
    requires n >= 2 && r < |pairs| && pairs[r].out == Taken(b) && b.typ == TYPE_DATA && !conn.shut
    ensures Next(blocks, Moving(n, conn, pairs, taken, sent),
                 Moving(n, conn.(wire := conn.wire + b.data), SetOut(pairs, r, Ready), taken, sent),
                 Handle(r, n - 1, |b.data|, false))
  {
    SetLast(n, conn, conn.(wire := conn.wire + b.data));
    assert b.data[..|b.data|] == b.data;
  }

  lemma Fetches(blocks: seq<Block>, n: nat, conn: Conn, pairs: seq<Pair>, taken: nat, sent: seq<byte>, r: nat,
                data: seq<byte>)
    requires n >= 2 && r < |pairs| && pairs[r].held == []
    ensures Next(blocks, Moving(n, conn, pairs, taken, sent),
                 Moving(n, conn.(came := conn.came + data), SetHeld(pairs, r, data), taken, sent),
                 Fetch(r, n - 1, data))
  {
    SetLast(n, conn, conn.(came := conn.came + data));
  }

  lemma SendsAll(blocks: seq<Block>, n: nat, conn: Conn, pairs: seq<Pair>, taken: nat, sent: seq<byte>, r: nat)
    requires n >= 2 && r < |pairs|
    ensures var held := pairs[r].held;
            Next(blocks, Moving(n, conn, pairs, taken, sent),
                 Moving(n, conn, SetHeld(pairs, r, []), taken, sent + held), Send(r, |held|))
  {
    var held := pairs[r].held;
    assert held[..|held|] == held && held[|held|..] == [];
  }

  const IDLE := Pair(Ready, [])

  /**
   * Two relays swap what they take: from the moment that both are idle, the last connection may be written the
   * second of the next two blocks before the first.
   */
  lemma SwapTwo(blocks: seq<Block>, n: nat, conn: Conn, i: nat, sent: seq<byte>)
      returns (states: seq<State>, steps: seq<Step>)
    requires n >= 2 && i + 2 <= |blocks| && blocks[i].typ == blocks[i + 1].typ == TYPE_DATA && !conn.shut
    ensures Path(blocks, states, steps) && Connected(steps) && states[0] == Moving(n, conn, [IDLE, IDLE], i, sent)
    ensures var wire := conn.wire + blocks[i + 1].data + blocks[i].data;
            Last(states) == Moving(n, conn.(wire := wire), [IDLE, IDLE], i + 2, sent)
  {
    var b0, b1 := blocks[i], blocks[i + 1];
    var c1 := conn.(wire := conn.wire + b1.data);
    var c2 := c1.(wire := c1.wire + b0.data);
    var p0, p1, p2 := [IDLE, IDLE], [Pair(Taken(b0), []), IDLE], [Pair(Taken(b0), []), Pair(Taken(b1), [])];
    var s0, s1, s2 := Moving(n, conn, p0, i, sent), Moving(n, conn, p1, i + 1, sent), Moving(n, conn, p2, i + 2, sent);
    var s3 := Moving(n, c1, p1, i + 2, sent);
    Takes(blocks, n, conn, p0, i, sent, 0);
    Takes(blocks, n, conn, p1, i + 1, sent, 1);
    Writes(blocks, n, conn, p2, i + 2, sent, 1, b1);
    Writes(blocks, n, c1, p1, i + 2, sent, 0, b0);
    states, steps := Extend(blocks, [s0], [], s0, s1, Take(0));
    states, steps := Extend(blocks, states, steps, s1, s2, Take(1));
    states, steps := Extend(blocks, states, steps, s2, s3, Handle(1, n - 1, |b1.data|, false));
    states, steps := Extend(blocks, states, steps, s3, Moving(n, c2, p0, i + 2, sent),
                            Handle(0, n - 1, |b0.data|, false));
  }

  /** A relay passes over a block that carries no data. */
  lemma SkipOne(blocks: seq<Block>, n: nat, conn: Conn, i: nat, sent: seq<byte>)
      returns (states: seq<State>, steps: seq<Step>)
    requires n >= 2 && i < |blocks| && blocks[i].typ == TYPE_CONNECT
    ensures Path(blocks, states, steps) && Connected(steps) && states[0] == Moving(n, conn, [IDLE, IDLE], i, sent)
    ensures Last(states) == Moving(n, conn, [IDLE, IDLE], i + 1, sent)
  {
    var p0, p1 := [IDLE, IDLE], [Pair(Taken(blocks[i]), []), IDLE];
    var s0, s1 := Moving(n, conn, p0, i, sent), Moving(n, conn, p1, i + 1, sent);
    Takes(blocks, n, conn, p0, i, sent, 0);
    states, steps := Extend(blocks, [s0], [], s0, s1, Take(0));
    states, steps := Extend(blocks, states, steps, s1, Moving(n, conn, p0, i + 1, sent), Handle(0, n - 1, 0, false));
  }

  /** Two Connect blocks, then one block to pass over and two to swap. */
  lemma SwapAfterConnect(blocks: seq<Block>) returns (states: seq<State>, steps: seq<Step>)
    requires |blocks| == 3 && blocks[0].typ == TYPE_CONNECT && blocks[1].typ == blocks[2].typ == TYPE_DATA
    ensures Path(blocks, states, steps) && Connected(steps) && states[0] == Failing(2, 2)
    ensures Last(states) == Moving(2, Conn(blocks[2].data + blocks[1].data, false, []), [IDLE, IDLE], 3, [])
  {
    states, steps := BothToggled(blocks, 2);
    TimesMore(NEW_CONN, 1);
    assert TwoPairs(2) == Moving(2, NEW_CONN, [IDLE, IDLE], 0, []);
    var b, y := SkipOne(blocks, 2, NEW_CONN, 0, []);
    states, steps := Join(blocks, states, steps, b, y);
    b, y := SwapTwo(blocks, 2, NEW_CONN, 1, []);
    assert [] + blocks[2].data + blocks[1].data == blocks[2].data + blocks[1].data;
    states, steps := Join(blocks, states, steps, b, y);
  }

  /** And what the last connection delivers in two reads may be sent back the second first. */
  lemma SwapBack(blocks: seq<Block>, n: nat, conn: Conn, taken: nat, x: seq<byte>, y: seq<byte>)
      returns (states: seq<State>, steps: seq<Step>)
    requires n >= 2
    ensures Path(blocks, states, steps) && states[0] == Moving(n, conn, [IDLE, IDLE], taken, [])
    ensures Last(states) == Moving(n, conn.(came := conn.came + x + y), [IDLE, IDLE], taken, y + x)
  {
    var c1 := conn.(came := conn.came + x);
    var c2 := c1.(came := c1.came + y);
    var p0, p1, p2 := [IDLE, IDLE], [Pair(Ready, x), IDLE], [Pair(Ready, x), Pair(Ready, y)];
    var s0, s1, s2 := Moving(n, conn, p0, taken, []), Moving(n, c1, p1, taken, []), Moving(n, c2, p2, taken, []);
    var s3 := Moving(n, c2, p1, taken, y);
    Fetches(blocks, n, conn, p0, taken, [], 0, x);
    Fetches(blocks, n, c1, p1, taken, [], 1, y);
    SendsAll(blocks, n, c2, p2, taken, [], 1);
    SendsAll(blocks, n, c2, p1, taken, y, 0);
    assert [] + y == y;
    states, steps := Extend(blocks, [s0], [], s0, s1, Fetch(0, n - 1, x));
    states, steps := Extend(blocks, states, steps, s1, s2, Fetch(1, n - 1, y));
    states, steps := Extend(blocks, states, steps, s2, s3, Send(1, |y|));
    states, steps := Extend(blocks, states, steps, s3, Moving(n, c2, p0, taken, y + x), Send(0, |x|));
  }

  /** For every n >= 2, n Connect blocks whose dials all succeed may turn round two bytes in both directions. */
  lemma SwapReached(n: nat) returns (states: seq<State>, steps: seq<Step>)
    requires n >= 2
    ensures Run(TWO_BYTES, states, steps)
    ensures Last(states) == Moving(n, Conn([2, 1], false, [1, 2]), [IDLE, IDLE], 2, [2, 1])
  {
    var a, x := AllReceived(TWO_BYTES, n);
    var b, y := BothToggled(TWO_BYTES, n);
    states, steps := Join(TWO_BYTES, a, x, b, y);
    TimesMore(NEW_CONN, n - 1);
    assert TwoPairs(n) == Moving(n, NEW_CONN, [IDLE, IDLE], 0, []);
    b, y := SwapTwo(TWO_BYTES, n, NEW_CONN, 0, []);
    states, steps := Join(TWO_BYTES, states, steps, b, y);
    assert [] + [2] + [1] == [2, 1] && [] + [1] + [2] == [1, 2];
    b, y := SwapBack(TWO_BYTES, n, Conn([2, 1], false, []), 2, [1], [2]);
    states, steps := Join(TWO_BYTES, states, steps, b, y);
  }

  lemma SwapOutOfOrder(n: nat)
    requires n >= 2
    ensures var s := Moving(n, Conn([2, 1], false, [1, 2]), [IDLE, IDLE], 2, [2, 1]);
            !WiresInOrder(TWO_BYTES, s) && !SentInOrder(s)
  {
    var s := Moving(n, Conn([2, 1], false, [1, 2]), [IDLE, IDLE], 2, [2, 1]);
    TwoBytes();
    assert s.conns[n - 1].wire[0] == 2 && DataOf(TWO_BYTES)[0] == 1;
    forall j | 0 <= j < |s.conns|
      ensures !(s.sent <= s.conns[j].came)
    {
      if j < n - 1 {
        assert s.conns[j] == NEW_CONN;
      } else {
        assert s.conns[j].came[0] == 1 && s.sent[0] == 2;
      }
    }
  }

  /**
   * Exactly when both directions are in order in every run: with at most one Connect block, at most one connect
   * that dials, at most one dial that succeeds.
   */
  lemma InOrderExactly(m: Measure, n: nat)
    ensures WiresRight(m, n) <==> n <= 1
    ensures SentRight(m, n) <==> n <= 1
  {
    if n <= 1 {
      forall blocks: seq<Block>, states: seq<State>, steps: seq<Step> | Run(blocks, states, steps)
        ensures Measured(m, Last(states)) == n ==> WiresInOrder(blocks, Last(states)) && SentInOrder(Last(states))
      {
        RunInv(blocks, states, steps, |states| - 1);
        if Measured(m, Last(states)) == n {
          SingleDialInOrder(blocks, Last(states));
        }
      }
    } else {
      var states, steps := SwapReached(n);
      SwapOutOfOrder(n);
      assert Run(TWO_BYTES, states, steps) && Measured(m, Last(states)) == n;
    }
  }
}
