/** The block format: constants, the 21-byte little-endian header, framing and chunking. */
module Blocks {
  import opened Bytes

  const TWO_32 := 0x1_0000_0000
  const TWO_63 := 0x8000_0000_0000_0000
  const TWO_64 := 0x1_0000_0000_0000_0000

  type uint32 = v: int | 0 <= v < TWO_32
  type int64 = v: int | -TWO_63 <= v < TWO_63

  // The source's iota keeps counting across the blank line, so the shutdown codes are 5, 6 and 7.
  const TYPE_CONNECT: byte := 0
  const TYPE_DISCONNECT: byte := 1
  const TYPE_DATA: byte := 2
  const TYPE_PING: byte := 3
  const TYPE_PONG: byte := 4
  const SHUTDOWN_READ: byte := 5
  const SHUTDOWN_WRITE: byte := 6
  const SHUTDOWN_BOTH: byte := 7

  const HEADER_SIZE := 21
  const DATA_SIZE := 32755

  datatype Block = Block(
    typ: byte,
    connectionID: uint32,
    timeStamp: int64,
    blockID: uint32,
    blockLength: uint32,
    data: seq<byte>)
  {
    /** The length field tells the truth about the payload. */
    predicate WellFormed() {
      blockLength == |data|
    }
  }

  // ---------------------------------------------------------------- encoding

  function Unsigned(t: int64): (u: nat)
    ensures u < TWO_64
  {
    if t < 0 then t + TWO_64 else t
  }

  function Signed(u: nat): (t: int64)
    requires u < TWO_64
  {
    if u >= TWO_63 then u - TWO_64 else u
  }

  function Header(b: Block): (h: seq<byte>)
    ensures |h| == HEADER_SIZE
  {
    [b.typ] + Digits(b.connectionID, 4) + Digits(Unsigned(b.timeStamp), 8)
    + Digits(b.blockID, 4) + Digits(b.blockLength, 4)
  }

  function Encode(b: Block): (s: seq<byte>)
    ensures |s| == HEADER_SIZE + |b.data|
  {
    Header(b) + b.data
  }

  // ---------------------------------------------------------------- parsing

  datatype Parsed = Frame(block: Block, rest: seq<byte>) | Short(error: ReadError)

  lemma Pow256Values()
    ensures Pow256(4) == TWO_32 && Pow256(8) == TWO_64
  {
    assert Pow256(2) == 0x1_0000;
    assert Pow256(4) == 256 * (256 * Pow256(2));
    assert Pow256(6) == 256 * (256 * Pow256(4));
    assert Pow256(8) == 256 * (256 * Pow256(6));
  }

  function Field32(s: seq<byte>, at: nat): (v: uint32)
    requires at + 4 <= |s|
  {
    Pow256Values();
    Value(s[at..at + 4])
  }

  function Field64(s: seq<byte>, at: nat): (v: int64)
    requires at + 8 <= |s|
  {
    Pow256Values();
    Signed(Value(s[at..at + 8]))
  }

  /** What reading one block from a byte stream that ends after s yields. */
  function Parse(s: seq<byte>): (p: Parsed)
    ensures p.Frame? ==> |p.rest| < |s|
  {
    if |s| < HEADER_SIZE then
      Short(if s == [] then EOF else UnexpectedEOF)
    else
      var length := Field32(s, 17);
      if |s| - HEADER_SIZE < length then
        Short(if |s| == HEADER_SIZE then EOF else UnexpectedEOF)
      else
        var end := HEADER_SIZE + length;
        Frame(
          Block(s[0], Field32(s, 1), Field64(s, 5), Field32(s, 13), length, s[HEADER_SIZE..end]),
          s[end..])
  }

  lemma HeaderFields(b: Block, s: seq<byte>)
    requires |s| >= HEADER_SIZE && s[..HEADER_SIZE] == Header(b)
    ensures s[0] == b.typ
    ensures Field32(s, 1) == b.connectionID && Field64(s, 5) == b.timeStamp
    ensures Field32(s, 13) == b.blockID && Field32(s, 17) == b.blockLength
  {
    Pow256Values();
    var h := Header(b);
    assert s[0] == h[0];
    Field32Of(s, 1, b.connectionID) by {
      assert h[1..5] == Digits(b.connectionID, 4);
      assert s[1..5] == h[1..5];
    }
    ValueDigits(Unsigned(b.timeStamp), 8);
    assert s[5..13] == h[5..13] == Digits(Unsigned(b.timeStamp), 8);
    Field32Of(s, 13, b.blockID) by {
      assert h[13..17] == Digits(b.blockID, 4);
      assert s[13..17] == h[13..17];
    }
    Field32Of(s, 17, b.blockLength) by {
      assert h[17..21] == Digits(b.blockLength, 4);
      assert s[17..21] == h[17..21];
    }
  }

  lemma Field32Of(s: seq<byte>, at: nat, v: uint32)
    requires at + 4 <= |s| && s[at..at + 4] == Digits(v, 4)
    ensures Field32(s, at) == v
  {
    ValueDigits(v, 4);
    Pow256Values();
    LengthFits(v);
  }

  /** Reading undoes packing, whatever follows in the stream. */
  lemma ParseEncode(b: Block, rest: seq<byte>)
    requires b.WellFormed()
    ensures Parse(Encode(b) + rest) == Frame(b, rest)
  {
    var s := Encode(b) + rest;
    assert s[..HEADER_SIZE] == Header(b);
    HeaderFields(b, s);
    assert s[HEADER_SIZE..HEADER_SIZE + |b.data|] == b.data;
    assert s[HEADER_SIZE + |b.data|..] == rest;
  }

  /** A packed block reads back as itself exactly when its length field is honest. */
  lemma RoundTripExactly(b: Block)
    ensures Parse(Encode(b)) == Frame(b, []) <==> b.WellFormed()
  {
    if b.WellFormed() {
      ParseEncode(b, []);
      assert Encode(b) + [] == Encode(b);
    } else {
      var s := Encode(b);
      assert s[..HEADER_SIZE] == Header(b);
      HeaderFields(b, s);
    }
  }

  lemma Digits32(s: seq<byte>, at: nat, part: seq<byte>)
    requires at + 4 <= |s| && part == s[at..at + 4]
    ensures Digits(Field32(s, at), 4) == part
  {
    DigitsValue(part);
  }

  lemma Digits64(s: seq<byte>, at: nat, part: seq<byte>)
    requires at + 8 <= |s| && part == s[at..at + 8]
    ensures Digits(Unsigned(Field64(s, at)), 8) == part
  {
    Pow256Values();
    DigitsValue(part);
  }

  lemma HeaderSlices(s: seq<byte>) returns (p: seq<byte>, q: seq<byte>, r: seq<byte>, t: seq<byte>)
    requires |s| >= HEADER_SIZE
    ensures p == s[1..5] && q == s[5..13] && r == s[13..17] && t == s[17..21]
    ensures s[..HEADER_SIZE] == [s[0]] + p + q + r + t
  {
    p, q, r, t := s[1..5], s[5..13], s[13..17], s[17..21];
  }

  lemma HeaderOfFields(b: Block, s: seq<byte>)
    requires |s| >= HEADER_SIZE && b.typ == s[0]
    requires b.connectionID == Field32(s, 1) && b.timeStamp == Field64(s, 5)
    requires b.blockID == Field32(s, 13) && b.blockLength == Field32(s, 17)
    ensures Header(b) == s[..HEADER_SIZE]
  {
    var p, q, r, t := HeaderSlices(s);
    Digits32(s, 1, p);
    Digits64(s, 5, q);
    Digits32(s, 13, r);
    Digits32(s, 17, t);
  }

  /** Packing undoes reading: no two frames of a stream have the same block and rest. */
  lemma EncodeParse(s: seq<byte>)
    requires Parse(s).Frame?
    ensures Parse(s).block.WellFormed()
    ensures Encode(Parse(s).block) + Parse(s).rest == s
  {
    HeaderOfFields(Parse(s).block, s);
  }

  /** No strict prefix of an encoding reads as a block. */
  lemma StrictPrefixIsShort(b: Block, k: nat)
    requires b.WellFormed() && k < |Encode(b)|
    ensures Parse(Encode(b)[..k]).Short?
  {
    var s := Encode(b)[..k];
    if k >= HEADER_SIZE {
      assert s[..HEADER_SIZE] == Header(b);
      HeaderFields(b, s);
    }
  }

  // ---------------------------------------------------------------- streams of blocks

  predicate AllWellFormed(bs: seq<Block>) {
    forall i :: 0 <= i < |bs| ==> bs[i].WellFormed()
  }

  /** The bytes of consecutively packed blocks. */
  function Stream(bs: seq<Block>): seq<byte> {
    if bs == [] then [] else Encode(bs[0]) + Stream(bs[1..])
  }

  /** The blocks that repeated reading yields before the first error. */
  function ParseAll(s: seq<byte>): seq<Block> {
    match Parse(s)
    case Frame(b, rest) => [b] + ParseAll(rest)
    case Short(_) => []
  }

  /** The bytes left unread by repeated reading. */
  function ParseRest(s: seq<byte>): seq<byte> {
    match Parse(s)
    case Frame(_, rest) => ParseRest(rest)
    case Short(_) => s
  }

  lemma {:induction false} StreamConcat(a: seq<Block>, b: seq<Block>)
    ensures Stream(a + b) == Stream(a) + Stream(b)
  {
    if a == [] {
      assert a + b == b;
    } else {
      StreamConcat(a[1..], b);
      var e := Encode(a[0]);
      assert (a + b)[1..] == a[1..] + b && (a + b)[0] == a[0];
      assert Stream(a + b) == e + (Stream(a[1..]) + Stream(b));
      Associative(e, Stream(a[1..]), Stream(b));
    }
  }

  lemma StreamPush(a: seq<Block>, b: Block)
    ensures Stream(a + [b]) == Stream(a) + Encode(b)
  {
    StreamConcat(a, [b]);
    assert Stream([b]) == Encode(b) + Stream([b][1..]) == Encode(b);
  }

  /** How many packed blocks lie wholly within the first c bytes of their stream. */
  function WholeFrames(bs: seq<Block>, c: nat): (k: nat)
    ensures k <= |bs|
    ensures |Stream(bs[..k])| <= c
    ensures k < |bs| ==> c < |Stream(bs[..k + 1])|
  {
    if bs == [] then
      0
    else if c < |Encode(bs[0])| then
      assert Stream(bs[..1]) == Encode(bs[0]) + Stream(bs[..1][1..]);
      assert Stream(bs[..1][1..]) == [];
      0
    else
      var k := 1 + WholeFrames(bs[1..], c - |Encode(bs[0])|);
      assert bs[..k][1..] == bs[1..][..k - 1];
      assert k < |bs| ==> bs[..k + 1][1..] == bs[1..][..k];
      k
  }

  /** Reading a stream to its end loses and invents no byte, whatever the stream. */
  lemma {:induction false} ParseAllConserves(s: seq<byte>)
    ensures AllWellFormed(ParseAll(s))
    ensures Stream(ParseAll(s)) + ParseRest(s) == s
  {
    if Parse(s).Frame? {
      var b, rest := Parse(s).block, Parse(s).rest;
      EncodeParse(s);
      ParseAllConserves(rest);
      assert ParseAll(s)[1..] == ParseAll(rest);
      Associative(Encode(b), Stream(ParseAll(rest)), ParseRest(rest));
    }
  }

  lemma ParseAllStep(b: Block, rest: seq<byte>, s: seq<byte>)
    requires b.WellFormed() && s == Encode(b) + rest
    ensures ParseAll(s) == [b] + ParseAll(rest)
  {
    ParseEncode(b, rest);
  }

  lemma CutBeforeFrame(bs: seq<Block>, c: nat)
    requires AllWellFormed(bs) && bs != [] && c < |Encode(bs[0])|
    ensures ParseAll(Stream(bs)[..c]) == []
  {
    StrictPrefixIsShort(bs[0], c);
    CutWithin(Encode(bs[0]), Stream(bs[1..]), c);
  }

  lemma CutAfterFrame(bs: seq<Block>, rest: seq<Block>, c: nat, d: nat)
    requires AllWellFormed(bs) && bs != [] && rest == bs[1..]
    requires |Encode(bs[0])| + d == c <= |Stream(bs)|
    ensures ParseAll(Stream(bs)[..c]) == [bs[0]] + ParseAll(Stream(rest)[..d])
  {
    CutAt(Stream(bs), Encode(bs[0]), Stream(rest), c, d);
    ParseAllStep(bs[0], Stream(rest)[..d], Stream(bs)[..c]);
  }

  /**
   * A stream cut at any byte reads as exactly the blocks that arrived whole:
   * never a partial block and never a misaligned one.
   */
  lemma {:induction false} ParseAllOfCut(bs: seq<Block>, c: nat)
    requires AllWellFormed(bs) && c <= |Stream(bs)|
    ensures ParseAll(Stream(bs)[..c]) == bs[..WholeFrames(bs, c)]
  {
    if bs == [] {
      assert Stream(bs)[..c] == [];
    } else if c < |Encode(bs[0])| {
      CutBeforeFrame(bs, c);
    } else {
      var rest, d := bs[1..], c - |Encode(bs[0])|;
      CutAfterFrame(bs, rest, c, d);
      ParseAllOfCut(rest, d);
      FirstAndWhole(bs, rest, c, d, WholeFrames(rest, d));
    }
  }

  lemma FirstAndWhole(bs: seq<Block>, rest: seq<Block>, c: nat, d: nat, k: nat)
    requires bs != [] && rest == bs[1..] && |Encode(bs[0])| + d == c && k == WholeFrames(rest, d)
    ensures [bs[0]] + rest[..k] == bs[..WholeFrames(bs, c)]
  {
    assert WholeFrames(bs, c) == k + 1;
  }

  lemma ParseOfStreamPrefix(frames: seq<Block>, due: seq<byte>)
    requires AllWellFormed(frames) && due <= Stream(frames)
    ensures ParseAll(due) <= frames
  {
    assert due == Stream(frames)[..|due|];
    ParseAllOfCut(frames, |due|);
  }

  /** Whole streams read back as the very list that was packed, with no bytes over. */
  lemma {:induction false} ParseAllOfStream(bs: seq<Block>)
    requires AllWellFormed(bs)
    ensures ParseAll(Stream(bs)) == bs && ParseRest(Stream(bs)) == []
  {
    if bs != [] {
      ParseEncode(bs[0], Stream(bs[1..]));
      ParseAllOfStream(bs[1..]);
    }
  }

  /** A list of packed blocks reads back as itself exactly when every length field is honest. */
  lemma StreamRoundTripExactly(bs: seq<Block>)
    ensures ParseAll(Stream(bs)) == bs <==> AllWellFormed(bs)
  {
    if AllWellFormed(bs) {
      ParseAllOfStream(bs);
    }
    ParseAllConserves(Stream(bs));
  }

  // ---------------------------------------------------------------- constructors

  type uint64 = v: int | 0 <= v < TWO_64

  /** What a block is made from; Ping and Pong carry an eight-byte number. */
  datatype Request =
    | NewConnect(connectionID: uint32, blockID: uint32, address: seq<byte>)
    | NewData(connectionID: uint32, blockID: uint32, data: seq<byte>)
    | NewDisconnect(connectionID: uint32, blockID: uint32, shutdownType: byte)
    | NewPing(connectionID: uint32, blockID: uint32, latency: uint64)
    | NewPong(connectionID: uint32, blockID: uint32, timestamp: uint64)

  function Build(r: Request, now: int64): Block {
    match r
    case NewConnect(c, id, address) => Block(TYPE_CONNECT, c, now, id, |address| % TWO_32, address)
    case NewData(c, id, data) => Block(TYPE_DATA, c, now, id, |data| % TWO_32, data)
    case NewDisconnect(c, id, shutdownType) => Block(TYPE_DISCONNECT, c, now, id, 1, [shutdownType])
    case NewPing(c, id, latency) => Block(TYPE_PING, c, now, id, 8, Digits(latency, 8))
    case NewPong(c, id, timestamp) => Block(TYPE_PONG, c, now, id, 8, Digits(timestamp, 8))
  }

  /** The length fits the header field: only an address or payload of 4 GiB or more does not. */
  predicate Fits(r: Request) {
    (r.NewConnect? ==> |r.address| < TWO_32) && (r.NewData? ==> |r.data| < TWO_32)
  }

  function BuildAll(rs: seq<Request>, clock: nat -> int64): (bs: seq<Block>)
    ensures |bs| == |rs| && forall i :: 0 <= i < |rs| ==> bs[i] == Build(rs[i], clock(i))
  {
    seq(|rs|, i requires 0 <= i < |rs| => Build(rs[i], clock(i)))
  }

  lemma BuildHonest(r: Request, now: int64)
    ensures Build(r, now).WellFormed() <==> Fits(r)
  {
    if r.NewConnect? {
      LengthFits(|r.address|);
    } else if r.NewData? {
      LengthFits(|r.data|);
    }
  }

  lemma LengthFits(n: nat)
    ensures n % TWO_32 == n <==> n < TWO_32
  {
  }

  /** Whatever the constructors built, at whatever times, reads back as built exactly when every length fits. */
  lemma BuiltRoundTrip(rs: seq<Request>, clock: nat -> int64)
    ensures var bs := BuildAll(rs, clock);
            ParseAll(Stream(bs)) == bs <==> forall i :: 0 <= i < |rs| ==> Fits(rs[i])
  {
    var bs := BuildAll(rs, clock);
    StreamRoundTripExactly(bs);
    forall i | 0 <= i < |rs|
      ensures bs[i].WellFormed() <==> Fits(rs[i])
    {
      BuildHonest(rs[i], clock(i));
    }
  }

  // ---------------------------------------------------------------- payloads

  function Payload(b: Block): seq<byte> {
    if b.typ == TYPE_DATA then b.data else []
  }

  /** The user bytes carried by a list of blocks. */
  function DataOf(bs: seq<Block>): seq<byte> {
    if bs == [] then [] else Payload(bs[0]) + DataOf(bs[1..])
  }

  lemma {:induction false} DataOfConcat(a: seq<Block>, b: seq<Block>)
    ensures DataOf(a + b) == DataOf(a) + DataOf(b)
  {
    if a == [] {
      assert a + b == b;
    } else {
      DataOfConcat(a[1..], b);
      assert (a + b)[1..] == a[1..] + b && (a + b)[0] == a[0];
      Associative(Payload(a[0]), DataOf(a[1..]), DataOf(b));
    }
  }

  lemma DataOfPush(a: seq<Block>, b: Block)
    ensures DataOf(a + [b]) == DataOf(a) + Payload(b)
  {
    DataOfConcat(a, [b]);
    assert DataOf([b]) == Payload(b) + DataOf([b][1..]) == Payload(b);
  }

  lemma DataOfPrefix(a: seq<Block>, b: seq<Block>)
    requires a <= b
    ensures DataOf(a) <= DataOf(b)
  {
    assert b == a + b[|a|..];
    DataOfConcat(a, b[|a|..]);
  }
}
