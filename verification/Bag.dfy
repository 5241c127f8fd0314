/**
 * One direction of one connection, seen abstractly: the network is a bag of genuine blocks that may
 * lose, repeat and reorder; above it stands the plain promise of a byte stream.
 */
module Bag {
  import opened Bytes
  import opened Blocks
  import opened Resequencer

  // ---------------------------------------------------------------- the promise

  /** A stream: bytes written at one end, bytes read at the other. */
  datatype Pipe = Pipe(written: seq<byte>, read: seq<byte>)

  ghost predicate PipeNext(p: Pipe, q: Pipe) {
    p.written <= q.written && p.read <= q.read && q.read <= q.written
  }

  // ---------------------------------------------------------------- the sender

  /**
   * The sending end. Of the bytes written, pending is what the current Write has not yet cut into blocks.
   * The blocks issued are numbered in the order their ids were taken.
   */
  datatype Source = Source(written: seq<byte>, pending: seq<byte>, issued: seq<Block>)

  ghost predicate SourceOK(id: uint32, s: Source) {
    && |s.issued| <= MAX_ID
    && (forall i :: 0 <= i < |s.issued| ==> s.issued[i].blockID == i && s.issued[i].connectionID == id)
    && DataOf(s.issued) + s.pending == s.written
  }

  /** Write takes new bytes when the previous Write has been cut up entirely. */
  ghost predicate Write(s: Source, s': Source) {
    s.pending == [] && s.written <= s'.written
    && s'.pending == s'.written[|s.written|..] && s'.issued == s.issued
  }

  /** One id is taken: for the next piece of the current Write, or for a Connect or Disconnect block. */
  ghost predicate Issue(id: uint32, s: Source, s': Source, b: Block) {
    && |s.issued| < MAX_ID && b.blockID == |s.issued| && b.connectionID == id
    && s'.issued == s.issued + [b] && s'.written == s.written
    && s.pending == Payload(b) + s'.pending
  }

  lemma WriteKeeps(id: uint32, s: Source, s': Source)
    requires SourceOK(id, s) && Write(s, s')
    ensures SourceOK(id, s')
  {
  }

  lemma IssueKeeps(id: uint32, s: Source, s': Source, b: Block)
    requires SourceOK(id, s) && Issue(id, s, s', b)
    ensures SourceOK(id, s')
  {
    DataOfPush(s.issued, b);
    Associative(DataOf(s.issued), Payload(b), s'.pending);
  }

  // ---------------------------------------------------------------- the receiver

  /**
   * The receiving end: got is what has arrived by id, emitted what the relay has handed on,
   * ordered the part of it not yet consumed, buf the bytes of a consumed block not yet returned.
   */
  datatype Sink = Sink(
    got: map<uint32, Block>,
    proc: Proc,
    relaying: bool,
    emitted: seq<Block>,
    ordered: seq<Block>,
    buf: seq<byte>,
    read: seq<byte>)

  const NEW_SINK := Sink(map[], START, true, [], [], [], [])

  ghost predicate SinkOK(issued: seq<Block>, k: Sink) {
    && k.emitted <= issued
    && (k.relaying ==> Settled(k.proc, k.emitted, k.got) && GotFrom(k.got, issued))
    && k.read + k.buf + DataOf(k.ordered) == DataOf(k.emitted)
  }

  ghost predicate GotFrom(got: map<uint32, Block>, issued: seq<Block>) {
    forall i: uint32 :: i in got ==> i < |issued| && got[i] == issued[i]
  }

  /** The relay handles an arriving block to the end. */
  ghost predicate Deliver(k: Sink, k': Sink, b: Block) {
    var r := Arrive(k.proc, b);
    k.relaying
    && k' == k.(got := k.got[b.blockID := b], proc := r.proc,
                emitted := k.emitted + r.out, ordered := k.ordered + r.out)
  }

  /** The relay is cancelled while handing on: only n of the blocks get out, and it never resumes. */
  ghost predicate DeliverCut(k: Sink, k': Sink, b: Block, n: nat) {
    var out := Arrive(k.proc, b).out;
    k.relaying && n <= |out|
    && k' == k.(relaying := false, emitted := k.emitted + out[..n], ordered := k.ordered + out[..n])
  }

  /** Reading consumes m ordered blocks and returns n of the bytes then at hand. */
  ghost predicate Consume(k: Sink, k': Sink, m: nat, n: nat) {
    m <= |k.ordered|
    && var bytes := k.buf + DataOf(k.ordered[..m]);
    n <= |bytes|
    && k' == k.(ordered := k.ordered[m..], buf := bytes[n..], read := k.read + bytes[..n])
  }

  lemma {:induction false} UptoOfIssued(got: map<uint32, Block>, issued: seq<Block>, n: nat)
    requires n <= TWO_32 && FullBelow(got, n) && GotFrom(got, issued)
    ensures n <= |issued| && Upto(got, n) == issued[..n]
    decreases n
  {
    if n > 0 {
      UptoOfIssued(got, issued, n - 1);
      var i: uint32 := n - 1;
      assert i in got;
      assert issued[..n] == issued[..n - 1] + [issued[n - 1]];
    }
  }

  /** A genuine block arriving keeps the relay settled and its output in step with the sender. */
  lemma ArrivalInStep(issued: seq<Block>, k: Sink, b: Block)
    requires SinkOK(issued, k) && k.relaying && |issued| <= MAX_ID
    requires b.blockID < |issued| && b == issued[b.blockID]
    ensures var r := Arrive(k.proc, b);
            var got := k.got[b.blockID := b];
            Settled(r.proc, k.emitted + r.out, got) && GotFrom(got, issued) && k.emitted + r.out <= issued
  {
    ArriveSettles(k.proc, k.emitted, k.got, b, MAX_ID);
    var got := k.got[b.blockID := b];
    UptoOfIssued(got, issued, Arrive(k.proc, b).proc.recv);
  }

  lemma DeliverKeeps(issued: seq<Block>, k: Sink, k': Sink, b: Block)
    requires SinkOK(issued, k) && |issued| <= MAX_ID && b.blockID < |issued| && b == issued[b.blockID]
    requires Deliver(k, k', b)
    ensures SinkOK(issued, k')
  {
    ArrivalInStep(issued, k, b);
    EmitMore(k, Arrive(k.proc, b).out);
  }

  lemma DeliverCutKeeps(issued: seq<Block>, k: Sink, k': Sink, b: Block, n: nat)
    requires SinkOK(issued, k) && |issued| <= MAX_ID && b.blockID < |issued| && b == issued[b.blockID]
    requires DeliverCut(k, k', b, n)
    ensures SinkOK(issued, k')
  {
    ArrivalInStep(issued, k, b);
    EmitMore(k, Arrive(k.proc, b).out[..n]);
  }

  lemma EmitMore(k: Sink, out: seq<Block>)
    requires k.read + k.buf + DataOf(k.ordered) == DataOf(k.emitted)
    ensures k.read + k.buf + DataOf(k.ordered + out) == DataOf(k.emitted + out)
  {
    DataOfConcat(k.ordered, out);
    DataOfConcat(k.emitted, out);
    Associative(k.read + k.buf, DataOf(k.ordered), DataOf(out));
  }

  lemma ConsumeKeeps(issued: seq<Block>, k: Sink, k': Sink, m: nat, n: nat)
    requires SinkOK(issued, k) && Consume(k, k', m, n)
    ensures SinkOK(issued, k')
  {
    var front, back := k.ordered[..m], k.ordered[m..];
    var bytes := k.buf + DataOf(front);
    assert k.ordered == front + back;
    DataOfConcat(front, back);
    assert bytes == bytes[..n] + bytes[n..];
    Associative(k.read, bytes[..n], bytes[n..]);
    Associative(k.read, k.buf, DataOf(front));
    Associative(k.read + k.buf, DataOf(front), DataOf(back));
  }

  lemma SinkGrows(issued: seq<Block>, issued': seq<Block>, k: Sink)
    requires SinkOK(issued, k) && issued <= issued'
    ensures SinkOK(issued', k)
  {
  }

  lemma NewSinkOK(issued: seq<Block>)
    ensures SinkOK(issued, NEW_SINK)
  {
    assert Upto(map[], 0) == [];
  }

  /**
   * Why an id needs a single sender: two senders under one id number their blocks from 0 both, and a receiver that
   * gets block 0 of the one and block 1 of the other emits a mixture that neither has written.
   */
  lemma SecondSenderMixes(x: Block, x': Block, y: Block, y': Block)
    requires x.blockID == y.blockID == 0 && x'.blockID == y'.blockID == 1
    requires x.typ == x'.typ == y.typ == y'.typ == TYPE_DATA
    requires |x.data| == |y.data| && |x'.data| == |y'.data| && x.data != y.data && x'.data != y'.data
    ensures var got := Relay(START, [x, y']).out;
            got == [x, y'] && !(DataOf(got) <= DataOf([x, x'])) && !(DataOf(got) <= DataOf([y, y']))
  {
    RelayNext(START, [], x);
    RelayNext(START, [x], y');
    assert [] + [x] == [x] && [x] + [y'] == [x, y'];
    assert Drain(map[], 1) == Drained(map[], 1, []) && Drain(map[], 2) == Drained(map[], 2, []);
    TwoPayloads(x, y');
    TwoPayloads(x, x');
    TwoPayloads(y, y');
    assert (x.data + y'.data)[|x.data|..] == y'.data && (x.data + x'.data)[|x.data|..] == x'.data;
    assert (x.data + y'.data)[..|x.data|] == x.data && (y.data + y'.data)[..|x.data|] == y.data;
  }

  lemma TwoPayloads(a: Block, b: Block)
    ensures DataOf([a, b]) == Payload(a) + Payload(b)
  {
    assert [a, b] == [a] + [b] && [a] == [] + [a];
    DataOfPush([], a);
    DataOfPush([a], b);
  }

  // ---------------------------------------------------------------- the system of the two

  datatype State = State(source: Source, sink: Sink)

  datatype Step =
    | WriteStep
    | IssueStep(b: Block)
    | DeliverStep(b: Block)
    | DeliverCutStep(b: Block, n: nat)
    | ConsumeStep(m: nat, n: nat)
    | Idle

  ghost predicate StateOK(id: uint32, s: State) {
    SourceOK(id, s.source) && SinkOK(s.source.issued, s.sink)
  }

  /** The bag may deliver any issued block at any time, any number of times, or never. */
  ghost predicate Next(id: uint32, s: State, s': State, step: Step) {
    match step
    case WriteStep => Write(s.source, s'.source) && s'.sink == s.sink
    case IssueStep(b) => Issue(id, s.source, s'.source, b) && s'.sink == s.sink
    case DeliverStep(b) => b in s.source.issued && Deliver(s.sink, s'.sink, b) && s'.source == s.source
    case DeliverCutStep(b, n) => b in s.source.issued && DeliverCut(s.sink, s'.sink, b, n) && s'.source == s.source
    case ConsumeStep(m, n) => Consume(s.sink, s'.sink, m, n) && s'.source == s.source
    case Idle => s' == s
  }

  lemma IssuedById(id: uint32, s: Source, b: Block)
    requires SourceOK(id, s) && b in s.issued
    ensures b.blockID < |s.issued| && b == s.issued[b.blockID]
  {
  }

  lemma NextKeeps(id: uint32, s: State, s': State, step: Step)
    requires StateOK(id, s) && Next(id, s, s', step)
    ensures StateOK(id, s')
  {
    match step {
      case WriteStep =>
        WriteKeeps(id, s.source, s'.source);
      case IssueStep(b) =>
        IssueKeeps(id, s.source, s'.source, b);
        SinkGrows(s.source.issued, s'.source.issued, s.sink);
      case DeliverStep(b) =>
        IssuedById(id, s.source, b);
        DeliverKeeps(s.source.issued, s.sink, s'.sink, b);
      case DeliverCutStep(b, n) =>
        IssuedById(id, s.source, b);
        DeliverCutKeeps(s.source.issued, s.sink, s'.sink, b, n);
      case ConsumeStep(m, n) =>
        ConsumeKeeps(s.source.issued, s.sink, s'.sink, m, n);
      case Idle =>
    }
  }

  function Abstract(s: State): Pipe {
    Pipe(s.source.written, s.sink.read)
  }

  /** In every good state the bytes read are a prefix of the bytes written. */
  lemma ReadIsPrefix(id: uint32, s: State)
    requires StateOK(id, s)
    ensures s.sink.read <= s.source.written
  {
    DataOfPrefix(s.sink.emitted, s.source.issued);
    assert s.sink.read <= DataOf(s.sink.emitted);
  }

  /** Over the bag, every step is a step of the promised stream. */
  lemma BagRefinesPipe(id: uint32, s: State, s': State, step: Step)
    requires StateOK(id, s) && Next(id, s, s', step)
    ensures StateOK(id, s') && PipeNext(Abstract(s), Abstract(s'))
  {
    NextKeeps(id, s, s', step);
    ReadIsPrefix(id, s');
  }

  /** Once every issued block has come, however it came, the relay has handed on all of them. */
  lemma NothingHeldBack(id: uint32, s: State)
    requires StateOK(id, s) && s.sink.relaying
    requires forall i: uint32 :: i < |s.source.issued| ==> i in s.sink.got
    ensures s.sink.emitted == s.source.issued && !s.sink.proc.HasHole()
    ensures s.source.pending == s.sink.buf == [] && s.sink.ordered == [] ==> s.sink.read == s.source.written
  {
    var k, issued := s.sink, s.source.issued;
    UptoOfIssued(k.got, issued, k.proc.recv);
    assert k.proc.recv < |issued| ==> k.proc.recv in k.got;
    assert k.proc.recv == |issued|;
    assert issued[..|issued|] == issued;
    assert k.proc.cache == map[];
  }
}
