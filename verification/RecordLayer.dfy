/**
 * The AEAD record layer: each record is a sealed two-byte size followed by the sealed payload,
 * under consecutive little-endian nonces that writer and reader count separately.
 */
module RecordLayer {
  import opened Bytes

  const MAX_PAYLOAD := 0x7FFF

  /**
   * An AEAD with the interface of section 2 of RFC 5116, without associated data.
   * The cipher itself is a parameter; Correct is all that is assumed about it.
   */
  datatype AEAD = AEAD(
    nonceSize: nat,
    overhead: nat,
    seal: (seq<byte>, seq<byte>) -> seq<byte>,
    open: (seq<byte>, seq<byte>) -> Option<seq<byte>>)
  {
    /** Sealing adds exactly the overhead. */
    ghost predicate SealSized() {
      forall n, p :: |n| == nonceSize ==> |seal(n, p)| == |p| + overhead
    }

    /** Opening, when it succeeds, removes exactly the overhead. */
    ghost predicate OpenSized() {
      forall n, c :: open(n, c).Some? ==> |c| == |open(n, c).value| + overhead
    }

    /** Open undoes seal under the same nonce. */
    ghost predicate Correct() {
      SealSized() && OpenSized()
      && forall n, p :: |n| == nonceSize ==> open(n, seal(n, p)) == Some(p)
    }

    function Nonce(k: nat): (n: seq<byte>)
      ensures |n| == nonceSize
    {
      Digits(k, nonceSize)
    }
  }

  // ---------------------------------------------------------------- nonces

  /** increment adds one to the little-endian number in b, wrapping on overflow. */
  method Increment(b: array<byte>, ghost k: nat)
    requires b[..] == Digits(k, b.Length)
    modifies b
    ensures b[..] == Digits(k + 1, b.Length)
  {
    ghost var rest := k;
    var i := 0;
    while i < b.Length
      invariant Carrying(b[..], i, k, rest)
    {
      CarryStep(b[..], i, k, rest);
      b[i] := if b[i] == 255 then 0 else b[i] + 1;
      if b[i] != 0 {
        return;
      }
      rest := rest / 256;
      i := i + 1;
    }
  }

  /** The digits before i are those of k+1, the others still those of k, of which rest are the high ones. */
  ghost predicate Carrying(b: seq<byte>, i: nat, k: nat, rest: nat) {
    && i <= |b| && b[i..] == Digits(rest, |b| - i)
    && b[..i] + Digits(rest + 1, |b| - i) == Digits(k + 1, |b|)
  }

  lemma CarryStep(b: seq<byte>, i: nat, k: nat, rest: nat)
    requires Carrying(b, i, k, rest) && i < |b|
    ensures b[i] == 255 ==> Carrying(b[i := 0], i + 1, k, rest / 256)
    ensures b[i] != 255 ==> b[i := b[i] + 1] == Digits(k + 1, |b|)
  {
    var n := |b| - i;
    assert b[i] == b[i..][0] == rest % 256;
    assert b[i + 1..] == b[i..][1..] == Digits(rest / 256, n - 1);
    if b[i] == 255 {
      assert (rest + 1) % 256 == 0 && (rest + 1) / 256 == rest / 256 + 1;
      Associative(b[..i], [0], Digits(rest / 256 + 1, n - 1));
      assert b[i := 0][..i + 1] == b[..i] + [0] && b[i := 0][i + 1..] == b[i + 1..];
    } else {
      assert (rest + 1) % 256 == b[i] + 1 && (rest + 1) / 256 == rest / 256;
      assert b[i := b[i] + 1] == b[..i] + ([b[i] + 1] + b[i + 1..]);
    }
  }

  /** The nonces of the first s seals under one key never repeat exactly when s is at most 256^n. */
  lemma NoncesDistinct(a: AEAD, s: nat)
    ensures (forall i, j :: 0 <= i < j < s ==> a.Nonce(i) != a.Nonce(j)) <==> s <= Pow256(a.nonceSize)
  {
    var p := Pow256(a.nonceSize);
    if s <= p {
      forall i, j | 0 <= i < j < s
        ensures a.Nonce(i) != a.Nonce(j)
      {
        DigitsEqual(i, j, a.nonceSize);
        ModUnique(i, p, 0, i);
        ModUnique(j, p, 0, j);
      }
    } else {
      DigitsEqual(0, p, a.nonceSize);
      ModUnique(0, p, 0, 0);
      ModUnique(p, p, 1, 0);
      assert 0 < p < s && a.Nonce(0) == a.Nonce(p);
    }
  }

  // ---------------------------------------------------------------- records on the wire

  function SizeBytes(n: nat): (s: seq<byte>)
    ensures |s| == 2
  {
    [n / 256 % 256, n % 256]
  }

  /** The record that carries payload when k seals have been made under the key. */
  function Sealed(a: AEAD, k: nat, payload: seq<byte>): seq<byte> {
    a.seal(a.Nonce(k), SizeBytes(|payload|)) + a.seal(a.Nonce(k + 1), payload)
  }

  function Wire(a: AEAD, k: nat, chunks: seq<seq<byte>>): seq<byte>
    decreases chunks
  {
    if chunks == [] then [] else Sealed(a, k, chunks[0]) + Wire(a, k + 2, chunks[1..])
  }

  predicate ChunksOK(chunks: seq<seq<byte>>) {
    forall i :: 0 <= i < |chunks| ==> 0 < |chunks[i]| <= MAX_PAYLOAD
  }

  lemma {:induction false} WirePush(a: AEAD, k: nat, chunks: seq<seq<byte>>, c: seq<byte>)
    ensures Wire(a, k, chunks + [c]) == Wire(a, k, chunks) + Sealed(a, k + 2 * |chunks|, c)
    decreases chunks
  {
    if chunks == [] {
      assert chunks + [c] == [c];
      assert Wire(a, k + 2, [c][1..]) == [];
    } else {
      WirePush(a, k + 2, chunks[1..], c);
      assert (chunks + [c])[1..] == chunks[1..] + [c];
      Associative(Sealed(a, k, chunks[0]), Wire(a, k + 2, chunks[1..]), Sealed(a, k + 2 * |chunks|, c));
    }
  }

  // ---------------------------------------------------------------- reading records

  datatype Record = Opened(payload: seq<byte>, rest: seq<byte>) | Bad(error: ReadError)

  function SizeOf(h: seq<byte>): (n: nat)
    requires |h| == 2
    ensures n <= MAX_PAYLOAD
  {
    var high: int, low: int := h[0], h[1];
    (high * 256 + low) % 0x8000
  }

  function ShortError(s: seq<byte>): ReadError {
    if s == [] then EOF else UnexpectedEOF
  }

  /** Opening, under counter k, what should be n sealed bytes, at the front of any stream that ends after s. */
  function OpenPart(a: AEAD, k: nat, n: nat, s: seq<byte>): (r: Record)
    ensures r.Opened? ==> |r.payload| == n && |r.rest| + n + a.overhead == |s|
  {
    if |s| < n + a.overhead then Bad(ShortError(s))
    else
      match a.open(a.Nonce(k), s[..n + a.overhead])
      case None => Bad(Corrupt)
      case Some(p) => if |p| != n then Bad(Corrupt) else Opened(p, s[n + a.overhead..])
  }

  /** What decrypting one record yields, genuine or not: its size first, then its payload. */
  function ReadRecord(a: AEAD, k: nat, s: seq<byte>): (r: Record)
    ensures r.Opened? ==> |r.rest| + 2 + |r.payload| <= |s|
  {
    match OpenPart(a, k, 2, s)
    case Bad(e) => Bad(e)
    case Opened(h, rest) => OpenPart(a, k + 1, SizeOf(h), rest)
  }

  /** All payloads that can be decrypted before the first error. */
  function Records(a: AEAD, k: nat, s: seq<byte>): seq<seq<byte>>
    decreases |s|
  {
    match ReadRecord(a, k, s)
    case Opened(p, rest) => [p] + Records(a, k + 2, rest)
    case Bad(_) => []
  }

  /** The first error is a stream that ends, not one that fails to authenticate. */
  predicate Clean(a: AEAD, k: nat, s: seq<byte>)
    decreases |s|
  {
    match ReadRecord(a, k, s)
    case Opened(_, rest) => Clean(a, k + 2, rest)
    case Bad(e) => e != Corrupt
  }

  lemma OpenSealed(a: AEAD, k: nat, p: seq<byte>, rest: seq<byte>)
    requires a.Correct()
    ensures OpenPart(a, k, |p|, a.seal(a.Nonce(k), p) + rest) == Opened(p, rest)
  {
    var c := a.seal(a.Nonce(k), p);
    assert (c + rest)[..|c|] == c && (c + rest)[|c|..] == rest;
  }

  lemma SizeRoundTrip(n: nat)
    requires n <= MAX_PAYLOAD
    ensures SizeOf(SizeBytes(n)) == n
  {
  }

  lemma ReadSealed(a: AEAD, k: nat, payload: seq<byte>, rest: seq<byte>)
    requires a.Correct() && |payload| <= MAX_PAYLOAD
    ensures ReadRecord(a, k, Sealed(a, k, payload) + rest) == Opened(payload, rest)
  {
    var h, body := a.seal(a.Nonce(k), SizeBytes(|payload|)), a.seal(a.Nonce(k + 1), payload);
    Associative(h, body, rest);
    OpenSealed(a, k, SizeBytes(|payload|), body + rest);
    SizeRoundTrip(|payload|);
    OpenSealed(a, k + 1, payload, rest);
  }

  lemma ReadCutRecord(a: AEAD, k: nat, payload: seq<byte>, c: nat)
    requires a.Correct() && |payload| <= MAX_PAYLOAD && c < |Sealed(a, k, payload)|
    ensures ReadRecord(a, k, Sealed(a, k, payload)[..c]).Bad?
    ensures ReadRecord(a, k, Sealed(a, k, payload)[..c]).error != Corrupt
  {
    var h, body := a.seal(a.Nonce(k), SizeBytes(|payload|)), a.seal(a.Nonce(k + 1), payload);
    assert |h| == 2 + a.overhead && |body| == |payload| + a.overhead;
    if c >= |h| {
      CutAt(h + body, h, body, c, c - |h|);
      OpenSealed(a, k, SizeBytes(|payload|), body[..c - |h|]);
      SizeRoundTrip(|payload|);
    }
  }

  /** How many records lie wholly within the first c bytes of the wire. */
  function WholeRecords(a: AEAD, k: nat, chunks: seq<seq<byte>>, c: nat): (n: nat)
    ensures n <= |chunks|
    decreases chunks
  {
    if chunks == [] || c < |Sealed(a, k, chunks[0])| then 0
    else 1 + WholeRecords(a, k + 2, chunks[1..], c - |Sealed(a, k, chunks[0])|)
  }

  lemma CutInFirst(a: AEAD, k: nat, chunks: seq<seq<byte>>, c: nat)
    requires a.Correct() && ChunksOK(chunks) && chunks != [] && c < |Sealed(a, k, chunks[0])|
    ensures Records(a, k, Wire(a, k, chunks)[..c]) == [] && Clean(a, k, Wire(a, k, chunks)[..c])
  {
    CutWithin(Sealed(a, k, chunks[0]), Wire(a, k + 2, chunks[1..]), c);
    ReadCutRecord(a, k, chunks[0], c);
  }

  lemma RecordsAfter(a: AEAD, k: nat, payload: seq<byte>, rest: seq<byte>, s: seq<byte>)
    requires a.Correct() && |payload| <= MAX_PAYLOAD && s == Sealed(a, k, payload) + rest
    ensures Records(a, k, s) == [payload] + Records(a, k + 2, rest)
    ensures Clean(a, k, s) == Clean(a, k + 2, rest)
  {
    ReadSealed(a, k, payload, rest);
  }

  lemma CutAfterFirst(a: AEAD, k: nat, chunks: seq<seq<byte>>, rest: seq<seq<byte>>, c: nat, d: nat)
    requires a.Correct() && ChunksOK(chunks) && chunks != [] && rest == chunks[1..]
    requires |Sealed(a, k, chunks[0])| + d == c <= |Wire(a, k, chunks)|
    ensures d <= |Wire(a, k + 2, rest)|
    ensures Records(a, k, Wire(a, k, chunks)[..c]) == [chunks[0]] + Records(a, k + 2, Wire(a, k + 2, rest)[..d])
    ensures Clean(a, k, Wire(a, k, chunks)[..c]) == Clean(a, k + 2, Wire(a, k + 2, rest)[..d])
  {
    var w, tail := Wire(a, k, chunks), Wire(a, k + 2, rest);
    CutAt(w, Sealed(a, k, chunks[0]), tail, c, d);
    RecordsAfter(a, k, chunks[0], tail[..d], w[..c]);
  }

  lemma WholeAfterFirst(a: AEAD, k: nat, chunks: seq<seq<byte>>, rest: seq<seq<byte>>, c: nat, d: nat, n: nat)
    requires chunks != [] && rest == chunks[1..] && |Sealed(a, k, chunks[0])| + d == c
    requires n == WholeRecords(a, k + 2, rest, d)
    ensures WholeRecords(a, k, chunks, c) == n + 1 && chunks[..n + 1] == [chunks[0]] + rest[..n]
  {
  }

  /** Wherever the ciphertext is cut, decryption yields exactly the payloads of the whole records. */
  lemma {:induction false} RecordsOfCut(a: AEAD, k: nat, chunks: seq<seq<byte>>, c: nat)
    requires a.Correct() && ChunksOK(chunks) && c <= |Wire(a, k, chunks)|
    ensures Records(a, k, Wire(a, k, chunks)[..c]) == chunks[..WholeRecords(a, k, chunks, c)]
    ensures Clean(a, k, Wire(a, k, chunks)[..c])
    ensures c == |Wire(a, k, chunks)| ==> WholeRecords(a, k, chunks, c) == |chunks|
    decreases chunks
  {
    if chunks == [] {
      assert Wire(a, k, chunks)[..c] == [];
    } else if c < |Sealed(a, k, chunks[0])| {
      CutInFirst(a, k, chunks, c);
    } else {
      var rest, d := chunks[1..], c - |Sealed(a, k, chunks[0])|;
      CutAfterFirst(a, k, chunks, rest, c, d);
      RecordsOfCut(a, k + 2, rest, d);
      WholeAfterFirst(a, k, chunks, rest, c, d, WholeRecords(a, k + 2, rest, d));
    }
  }

  // ---------------------------------------------------------------- streams that are no cut of the wire

  /**
   * Whatever bytes s holds, each string the reader opens on it is one that was sealed under that counter.
   * RFC 5116 promises it of an AEAD: an adversary, or a gap in the stream, yields no other string that opens.
   */
  ghost predicate Unforged(a: AEAD, k: nat, chunks: seq<seq<byte>>, s: seq<byte>)
    decreases |s|, 0
  {
    var r := OpenPart(a, k, 2, s);
    r.Opened? ==>
      && chunks != [] && s == a.seal(a.Nonce(k), SizeBytes(|chunks[0]|)) + r.rest
      && UnforgedBody(a, k, chunks, r.rest)
  }

  /** The same behind an opened size. */
  ghost predicate UnforgedBody(a: AEAD, k: nat, chunks: seq<seq<byte>>, s: seq<byte>)
    requires chunks != []
    decreases |s|, 1
  {
    var r := OpenPart(a, k + 1, |chunks[0]|, s);
    r.Opened? ==>
      s == a.seal(a.Nonce(k + 1), chunks[0]) + r.rest && Unforged(a, k + 2, chunks[1..], r.rest)
  }

  lemma OpenedIsSealed(a: AEAD, k: nat, chunks: seq<seq<byte>>, s: seq<byte>) returns (rest: seq<byte>)
    requires a.Correct() && ChunksOK(chunks) && Unforged(a, k, chunks, s) && ReadRecord(a, k, s).Opened?
    ensures chunks != [] && s == Sealed(a, k, chunks[0]) + rest && Unforged(a, k + 2, chunks[1..], rest)
  {
    var body := OpenPart(a, k, 2, s).rest;
    OpenSealed(a, k, SizeBytes(|chunks[0]|), body);
    SizeRoundTrip(|chunks[0]|);
    rest := OpenPart(a, k + 1, |chunks[0]|, body).rest;
    Associative(a.seal(a.Nonce(k), SizeBytes(|chunks[0]|)), a.seal(a.Nonce(k + 1), chunks[0]), rest);
  }

  /** On any unforged stream decryption yields a prefix of the payloads sealed, even if bytes are missing from it. */
  lemma {:induction false} UnforgedRecords(a: AEAD, k: nat, chunks: seq<seq<byte>>, s: seq<byte>)
    requires a.Correct() && ChunksOK(chunks) && Unforged(a, k, chunks, s)
    ensures Records(a, k, s) <= chunks
    decreases |s|
  {
    if ReadRecord(a, k, s).Opened? {
      var rest := OpenedIsSealed(a, k, chunks, s);
      RecordsAfter(a, k, chunks[0], rest, s);
      UnforgedRecords(a, k + 2, chunks[1..], rest);
      PrefixPush(chunks, Records(a, k + 2, rest));
    }
  }

  lemma PrefixPush<T>(s: seq<T>, t: seq<T>)
    requires s != [] && t <= s[1..]
    ensures [s[0]] + t <= s
  {
    assert s == [s[0]] + s[1..];
  }

  lemma UnforgedPush(a: AEAD, k: nat, chunks: seq<seq<byte>>, rest: seq<byte>, s: seq<byte>)
    requires a.Correct() && ChunksOK(chunks) && chunks != [] && s == Sealed(a, k, chunks[0]) + rest
    requires Unforged(a, k + 2, chunks[1..], rest)
    ensures Unforged(a, k, chunks, s)
  {
    var h, body := a.seal(a.Nonce(k), SizeBytes(|chunks[0]|)), a.seal(a.Nonce(k + 1), chunks[0]);
    Associative(h, body, rest);
    OpenSealed(a, k, SizeBytes(|chunks[0]|), body + rest);
    OpenSealed(a, k + 1, chunks[0], rest);
    assert UnforgedBody(a, k, chunks, body + rest);
  }

  lemma UnforgedCutRecord(a: AEAD, k: nat, chunks: seq<seq<byte>>, c: nat)
    requires a.Correct() && ChunksOK(chunks) && chunks != [] && c < |Sealed(a, k, chunks[0])|
    ensures Unforged(a, k, chunks, Sealed(a, k, chunks[0])[..c])
  {
    var h, body := a.seal(a.Nonce(k), SizeBytes(|chunks[0]|)), a.seal(a.Nonce(k + 1), chunks[0]);
    assert |h| == 2 + a.overhead && |body| == |chunks[0]| + a.overhead;
    if c >= |h| {
      var part := body[..c - |h|];
      CutAt(h + body, h, body, c, c - |h|);
      OpenSealed(a, k, SizeBytes(|chunks[0]|), part);
      assert UnforgedBody(a, k, chunks, part);
    }
  }

  /** Every cut of the genuine wire is unforged: only streams with a gap need to be assumed so. */
  lemma {:induction false} CutUnforged(a: AEAD, k: nat, chunks: seq<seq<byte>>, c: nat)
    requires a.Correct() && ChunksOK(chunks) && c <= |Wire(a, k, chunks)|
    ensures Unforged(a, k, chunks, Wire(a, k, chunks)[..c])
    decreases chunks
  {
    if chunks == [] {
      assert Wire(a, k, chunks)[..c] == [];
    } else if c < |Sealed(a, k, chunks[0])| {
      CutWithin(Sealed(a, k, chunks[0]), Wire(a, k + 2, chunks[1..]), c);
      UnforgedCutRecord(a, k, chunks, c);
    } else {
      var rest, d := chunks[1..], c - |Sealed(a, k, chunks[0])|;
      CutAt(Wire(a, k, chunks), Sealed(a, k, chunks[0]), Wire(a, k + 2, rest), c, d);
      CutUnforged(a, k + 2, rest, d);
      UnforgedPush(a, k, chunks, Wire(a, k + 2, rest)[..d], Wire(a, k, chunks)[..c]);
    }
  }

  // ---------------------------------------------------------------- streams cut further

  lemma PartBytes(a: AEAD, k: nat, n: nat, s: seq<byte>, t: seq<byte>)
    requires t <= s && OpenPart(a, k, n, t).Opened?
    ensures OpenPart(a, k, n, s).Opened? && OpenPart(a, k, n, s).payload == OpenPart(a, k, n, t).payload
    ensures OpenPart(a, k, n, t).rest <= OpenPart(a, k, n, s).rest
  {
    assert t[..n + a.overhead] == s[..n + a.overhead];
  }

  lemma RecordBytes(a: AEAD, k: nat, s: seq<byte>, t: seq<byte>)
    requires t <= s && ReadRecord(a, k, t).Opened?
    ensures ReadRecord(a, k, s).Opened? && ReadRecord(a, k, s).payload == ReadRecord(a, k, t).payload
    ensures ReadRecord(a, k, t).rest <= ReadRecord(a, k, s).rest
  {
    var r := OpenPart(a, k, 2, t);
    PartBytes(a, k, 2, s, t);
    PartBytes(a, k + 1, SizeOf(r.payload), OpenPart(a, k, 2, s).rest, r.rest);
  }

  /** Cutting the ciphertext short only ever shortens what can be decrypted. */
  lemma {:induction false} TruncateRecords(a: AEAD, k: nat, s: seq<byte>, t: seq<byte>)
    requires t <= s
    ensures Records(a, k, t) <= Records(a, k, s)
    decreases |t|
  {
    if ReadRecord(a, k, t).Opened? {
      RecordBytes(a, k, s, t);
      TruncateRecords(a, k + 2, ReadRecord(a, k, s).rest, ReadRecord(a, k, t).rest);
    }
  }
}
