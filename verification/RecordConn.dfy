/** The stateful ends of an encrypted connection: the sealing writer and the opening reader. */
module RecordConn {
  import opened Bytes
  import opened RecordLayer

  /** The first n elements, or all of them. */
  function Take<T>(s: seq<T>, n: nat): (t: seq<T>)
    ensures t <= s && (|t| == n || (t == s && |s| < n))
  {
    if n <= |s| then s[..n] else s
  }

  lemma TakeConcat<T>(a: seq<T>, b: seq<T>, n: nat)
    requires |a| <= n
    ensures Take(a + b, n) == a + Take(b, n - |a|)
  {
  }

  lemma TakeOfPrefix<T>(a: seq<T>, b: seq<T>, all: seq<T>, n: nat)
    requires all == a + b && n < |a|
    ensures Take(all, n) == Take(a, n) && all[|a|..] == b
  {
  }

  lemma SkipTaken<T>(a: seq<T>, b: seq<T>, n: nat)
    requires n <= |a|
    ensures (a + b)[n..] == a[n..] + b && (n < |a| ==> Take(a + b, n) == Take(a, n))
  {
  }

  /** A byte sink that takes room more bytes and then fails for good: a connection cut at some byte. */
  class Pipe {
    var wire: seq<byte>
    var room: nat

    constructor (room: nat)
      ensures wire == [] && this.room == room
    {
      this.wire, this.room := [], room;
    }

    /** From wire w and room r, the bytes b have been offered. */
    ghost predicate Took(w: seq<byte>, r: nat, b: seq<byte>)
      reads this
    {
      wire == w + Take(b, r) && room == r - |Take(b, r)|
    }

    method Write(b: seq<byte>) returns (n: nat, ok: bool)
      modifies this
      ensures Took(old(wire), old(room), b)
      ensures n == |Take(b, old(room))| && ok == (|b| <= old(room))
    {
      ok := |b| <= room;
      var t := Take(b, room);
      n := |t|;
      wire, room := wire + t, room - n;
    }

    /** Offer b after all of sent went through. */
    method Append(b: seq<byte>, ghost w: seq<byte>, ghost r: nat, ghost sent: seq<byte>) returns (n: nat, ok: bool)
      requires Took(w, r, sent) && |sent| <= r
      modifies this
      ensures Took(w, r, sent + b) && ok == (|sent + b| <= r)
      ensures n <= |b| && |Take(sent + b, r)| == |sent| + n && (n == |b| <==> ok)
    {
      TakeConcat(sent, b, r);
      n, ok := Write(b);
    }
  }

  /**
   * A TCP connection as its writer sees it. A write takes some of the bytes offered; it may report an error
   * although it took them all, and unless the connection is closed a later write may succeed again.
   */
  class Link {
    var wire: seq<byte>
    var closed: bool
    const reliable: bool      // while open, it never errs

    constructor (reliable: bool)
      ensures wire == [] && !closed && this.reliable == reliable
    {
      this.wire, this.closed, this.reliable := [], false, reliable;
    }

    method Write(b: seq<byte>) returns (n: nat, ok: bool)
      modifies `wire
      ensures n <= |b| && wire == old(wire) + b[..n]
      ensures ok ==> n == |b|
      ensures closed ==> n == 0 && !ok
      ensures reliable && !closed ==> ok
    {
      n, ok := |b|, true;
      if closed {
        n, ok := 0, false;
      } else if !reliable {
        var errs: bool := *;
        if errs {
          n :| 0 <= n <= |b|;
          ok := false;
        }
      }
      wire := wire + b[..n];
    }

    method Close()
      modifies `closed
      ensures closed
    {
      closed := true;
    }
  }

  // ---------------------------------------------------------------- writer

  /** Seal n bytes of buf where they stand; the ciphertext overwrites them and the bytes after. */
  method SealAt(a: AEAD, nonce: array<byte>, ghost k: nat, buf: array<byte>, lo: nat, n: nat)
    requires a.SealSized() && nonce != buf
    requires nonce.Length == a.nonceSize && nonce[..] == a.Nonce(k)
    requires lo + n + a.overhead <= buf.Length
    modifies nonce, buf
    ensures nonce[..] == a.Nonce(k + 1)
    ensures buf[lo..lo + n + a.overhead] == a.seal(a.Nonce(k), old(buf[lo..lo + n]))
    ensures buf[..lo] == old(buf[..lo])
    ensures buf[lo + n + a.overhead..] == old(buf[lo + n + a.overhead..])
  {
    var c := a.seal(nonce[..], buf[lo..lo + n]);
    forall i | 0 <= i < |c| {
      buf[lo + i] := c[i];
    }
    assert buf[lo..lo + |c|] == c;
    Increment(nonce, k);
  }

  datatype WriteError = NoError | WriteFailed | SourceFailed

  /** What an io.Reader hands out, read by read (possibly nothing), before EOF or, if it fails, an error. */
  datatype Source = Source(pieces: seq<seq<byte>>, fails: bool)
  {
    predicate FitsPayload() {
      forall i :: 0 <= i < |pieces| ==> |pieces[i]| <= MAX_PAYLOAD
    }
  }

  /** Behind w the wire holds the records of chunks from counter k, the last of them perhaps cut short. */
  ghost predicate CutInLast(a: AEAD, k: nat, chunks: seq<seq<byte>>, w: seq<byte>, wire: seq<byte>) {
    && w <= wire <= w + Wire(a, k, chunks)
    && (chunks != [] ==> w + Wire(a, k, chunks[..|chunks| - 1]) <= wire)
  }

  class Writer {
    const a: AEAD
    const link: Link
    const nonce: array<byte>
    const buf: array<byte>
    ghost var seals: nat

    ghost predicate Valid()
      reads this, nonce
    {
      && a.SealSized() && nonce != buf
      && nonce.Length == a.nonceSize && nonce[..] == a.Nonce(seals)
      && buf.Length == 2 + a.overhead + MAX_PAYLOAD + a.overhead
    }

    constructor (a: AEAD, link: Link)
      requires a.SealSized()
      ensures Valid() && fresh(nonce) && fresh(buf) && seals == 0
      ensures this.a == a && this.link == link
    {
      this.a, this.link := a, link;
      var n := new byte[a.nonceSize](_ => 0);
      this.nonce := n;
      this.buf := new byte[2 + a.overhead + MAX_PAYLOAD + a.overhead];
      this.seals := 0;
      new;
      ZeroNonce(a.nonceSize);
      assert nonce[..] == seq(a.nonceSize, _ => 0);
    }

    /** Fill buf with the record for piece, sealing size and payload in place. */
    method SealRecord(piece: seq<byte>) returns (n: nat)
      requires Valid() && 0 < |piece| <= MAX_PAYLOAD
      modifies `seals, nonce, buf
      ensures Valid() && seals == old(seals) + 2
      ensures n <= buf.Length && buf[..n] == Sealed(a, old(seals), piece)
    {
      var nr, head := |piece|, 2 + a.overhead;
      n := head + nr + a.overhead;
      Load(piece, head);
      SliceOfTail(buf, head, nr);
      SealAt(a, nonce, seals, buf, 0, 2);
      SliceOfTail(buf, head, nr);
      ghost var h := buf[0..head];
      assert buf[..head] == h;
      SealAt(a, nonce, seals + 1, buf, head, nr);
      seals := seals + 2;
      FrontOf(buf, head, n);
    }

    method Load(piece: seq<byte>, head: nat)
      requires 2 <= head && head + |piece| <= buf.Length && |piece| <= MAX_PAYLOAD
      modifies buf
      ensures buf[0..2] == SizeBytes(|piece|) && buf[head..head + |piece|] == piece
    {
      forall i | 0 <= i < |piece| {
        buf[head + i] := piece[i];
      }
      buf[0], buf[1] := |piece| / 256 % 256, |piece| % 256;
    }

    /** One round of the loop: seal a piece and write the record in one go. */
    method WriteRecord(piece: seq<byte>) returns (ok: bool)
      requires Valid() && 0 < |piece| <= MAX_PAYLOAD
      modifies `seals, nonce, buf, link`wire
      ensures Valid() && seals == old(seals) + 2
      ensures old(link.wire) <= link.wire <= old(link.wire) + Sealed(a, old(seals), piece)
      ensures ok ==> link.wire == old(link.wire) + Sealed(a, old(seals), piece)
      ensures link.reliable && !link.closed ==> ok
    {
      var n := SealRecord(piece);
      var _, done := link.Write(buf[..n]);
      ok := done;
    }

    /** The chunks have been sealed from counter k and written behind w. */
    ghost predicate Partly(w: seq<byte>, k: nat, chunks: seq<seq<byte>>)
      reads this, nonce, link
    {
      && Valid() && ChunksOK(chunks) && seals == k + 2 * |chunks|
      && CutInLast(a, k, chunks, w, link.wire)
    }

    /** All of them went through. */
    ghost predicate Sent(w: seq<byte>, k: nat, chunks: seq<seq<byte>>)
      reads this, nonce, link
    {
      Partly(w, k, chunks) && link.wire == w + Wire(a, k, chunks)
    }

    lemma PieceSent(w: seq<byte>, k: nat, chunks: seq<seq<byte>>, piece: seq<byte>, before: seq<byte>)
      requires Valid() && ChunksOK(chunks) && 0 < |piece| <= MAX_PAYLOAD && seals == k + 2 * |chunks + [piece]|
      requires before == w + Wire(a, k, chunks)
      requires before <= link.wire <= before + Sealed(a, k + 2 * |chunks|, piece)
      ensures Partly(w, k, chunks + [piece])
      ensures link.wire == before + Sealed(a, k + 2 * |chunks|, piece) ==> Sent(w, k, chunks + [piece])
    {
      WirePush(a, k, chunks, piece);
      Associative(w, Wire(a, k, chunks), Sealed(a, k + 2 * |chunks|, piece));
      assert (chunks + [piece])[..|chunks|] == chunks;
    }

    method SendPiece(piece: seq<byte>, ghost w: seq<byte>, ghost k: nat, ghost chunks: seq<seq<byte>>)
        returns (ok: bool)
      requires Sent(w, k, chunks) && 0 < |piece| <= MAX_PAYLOAD
      modifies `seals, nonce, buf, link`wire
      ensures Partly(w, k, chunks + [piece]) && (ok ==> Sent(w, k, chunks + [piece]))
      ensures link.reliable && !link.closed ==> ok
    {
      ghost var before := link.wire;
      ok := WriteRecord(piece);
      PieceSent(w, k, chunks, piece, before);
    }

    /** One read of the source: an empty piece is skipped, any other becomes a record. */
    method ReadPiece(piece: seq<byte>, ghost w: seq<byte>, ghost k: nat, ghost chunks: seq<seq<byte>>)
        returns (ok: bool, ghost chunks': seq<seq<byte>>)
      requires Sent(w, k, chunks) && |piece| <= MAX_PAYLOAD
      modifies `seals, nonce, buf, link`wire
      ensures Partly(w, k, chunks') && (ok ==> Sent(w, k, chunks'))
      ensures link.reliable && !link.closed ==> ok
      ensures Flatten(chunks') == Flatten(chunks) + piece && (!ok ==> chunks' != [])
      ensures chunks' == chunks + if piece == [] then [] else [piece]
    {
      ok, chunks' := true, chunks;
      if |piece| > 0 {
        FlattenPush(chunks, piece);
        ok := SendPiece(piece, w, k, chunks);
        chunks' := chunks + [piece];
      }
    }

    /** Seal everything the source yields; chunks are the nonempty pieces that were sealed. */
    method ReadFrom(r: Source) returns (n: nat, err: WriteError, ghost chunks: seq<seq<byte>>)
      requires Valid() && r.FitsPayload()
      modifies `seals, nonce, buf, link`wire
      ensures Partly(old(link.wire), old(seals), chunks)
      ensures n == |Flatten(chunks)| && chunks <= Nonempty(r.pieces) && Flatten(chunks) <= Flatten(r.pieces)
      ensures err == WriteFailed ==> chunks != []
      ensures err != WriteFailed ==> Sent(old(link.wire), old(seals), chunks) && chunks == Nonempty(r.pieces)
      ensures err != WriteFailed ==>
                Flatten(chunks) == Flatten(r.pieces) && err == (if r.fails then SourceFailed else NoError)
      ensures link.reliable && !link.closed ==> err != WriteFailed
    {
      n, chunks := 0, [];
      ghost var k, w := seals, link.wire;
      var i, ok := 0, true;
      while i < |r.pieces| && ok
        invariant Reading(r.pieces, i, w, k, chunks, n, ok)
      {
        n, ok, chunks := ReadNext(r.pieces, i, w, k, chunks, n);
        i := i + 1;
      }
      ReadingDone(r.pieces, i, w, k, chunks, n, ok);
      err := if !ok then WriteFailed else if r.fails then SourceFailed else NoError;
    }

    /** The loop of ReadFrom: i pieces have been read, and all of them written if ok. */
    ghost predicate Reading(pieces: seq<seq<byte>>, i: nat, w: seq<byte>, k: nat, chunks: seq<seq<byte>>,
                            n: nat, ok: bool)
      reads this, nonce, link
    {
      && i <= |pieces| && Source(pieces, false).FitsPayload()
      && n == |Flatten(chunks)| && Flatten(chunks) == Flatten(pieces[..i]) && chunks == Nonempty(pieces[..i])
      && Partly(w, k, chunks) && (ok ==> Sent(w, k, chunks)) && (!ok ==> chunks != [])
      && (link.reliable && !link.closed ==> ok)
    }

    method ReadNext(pieces: seq<seq<byte>>, i: nat, ghost w: seq<byte>, ghost k: nat, ghost chunks: seq<seq<byte>>,
                    n: nat)
        returns (n': nat, ok: bool, ghost chunks': seq<seq<byte>>)
      requires Reading(pieces, i, w, k, chunks, n, true) && i < |pieces|
      modifies `seals, nonce, buf, link`wire
      ensures Reading(pieces, i + 1, w, k, chunks', n', ok)
    {
      FlattenNext(pieces, i);
      NonemptyNext(pieces, i);
      ok, chunks' := ReadPiece(pieces[i], w, k, chunks);
      n' := n + |pieces[i]|;
    }

    lemma ReadingDone(pieces: seq<seq<byte>>, i: nat, w: seq<byte>, k: nat, chunks: seq<seq<byte>>, n: nat, ok: bool)
      requires Reading(pieces, i, w, k, chunks, n, ok)
      ensures chunks <= Nonempty(pieces) && Flatten(chunks) <= Flatten(pieces)
      ensures ok && i == |pieces| ==> chunks == Nonempty(pieces) && Flatten(chunks) == Flatten(pieces)
    {
      FlattenPrefix(pieces, i);
      NonemptyPrefix(pieces, i);
      assert i == |pieces| ==> pieces[..i] == pieces;
    }
  }

  /** The pieces that become records. */
  function Nonempty(pieces: seq<seq<byte>>): seq<seq<byte>> {
    if pieces == [] then []
    else
      var last := pieces[|pieces| - 1];
      Nonempty(pieces[..|pieces| - 1]) + if last == [] then [] else [last]
  }

  lemma NonemptyNext(pieces: seq<seq<byte>>, i: nat)
    requires i < |pieces|
    ensures Nonempty(pieces[..i + 1]) == Nonempty(pieces[..i]) + if pieces[i] == [] then [] else [pieces[i]]
  {
    assert pieces[..i + 1][..i] == pieces[..i];
  }

  lemma {:induction false} NonemptyPrefix(pieces: seq<seq<byte>>, i: nat)
    requires i <= |pieces|
    ensures Nonempty(pieces[..i]) <= Nonempty(pieces)
    decreases |pieces| - i
  {
    if i < |pieces| {
      NonemptyNext(pieces, i);
      NonemptyPrefix(pieces, i + 1);
    } else {
      assert pieces[..i] == pieces;
    }
  }

  lemma FlattenNext<T>(ss: seq<seq<T>>, i: nat)
    requires i < |ss|
    ensures Flatten(ss[..i + 1]) == Flatten(ss[..i]) + ss[i]
  {
    assert ss[..i + 1] == ss[..i] + [ss[i]];
    FlattenPush(ss[..i], ss[i]);
  }

  // ---------------------------------------------------------------- reader

  /** One record read from (k, s) has left (k', s') to be read: p is its payload, or er the error. */
  ghost predicate ReadTo(a: AEAD, k: nat, s: seq<byte>, k': nat, s': seq<byte>, p: seq<byte>, er: Option<ReadError>) {
    match ReadRecord(a, k, s)
    case Opened(q, rest) => er == None && p == q && s' == rest && k' == k + 2
    case Bad(e) => er == Some(e) && p == [] && (e != Corrupt ==> s' == [])
  }

  /** The plaintext that s will yield. */
  function Due(a: AEAD, k: nat, s: seq<byte>): seq<byte> {
    Flatten(Records(a, k, s))
  }

  lemma DueStep(a: AEAD, k: nat, s: seq<byte>, k': nat, s': seq<byte>, p: seq<byte>, er: Option<ReadError>)
    requires ReadTo(a, k, s, k', s', p, er)
    ensures er == None ==> Due(a, k, s) == p + Due(a, k', s') && |s'| < |s| && Clean(a, k, s) == Clean(a, k', s')
    ensures er.Some? ==> Due(a, k, s) == [] && Clean(a, k, s) == (er.value != Corrupt)
    ensures er.Some? && er.value != Corrupt ==> Due(a, k', s') == [] && Clean(a, k', s')
  {
    if er.Some? && er.value != Corrupt {
      assert ReadRecord(a, k', s') == Bad(EOF);
    }
  }

  /** The receiving socket: pending is everything it will still deliver before it ends. */
  class Feed {
    var pending: seq<byte>

    constructor (pending: seq<byte>)
      ensures this.pending == pending
    {
      this.pending := pending;
    }

    /** io.ReadFull into the first n bytes of buf; a short read uses the stream up. */
    method ReadFull(buf: array<byte>, n: nat) returns (err: Option<ReadError>)
      requires n <= buf.Length
      modifies this, buf
      ensures n <= |old(pending)| ==> err == None && buf[..n] == old(pending[..n]) && pending == old(pending[n..])
      ensures n > |old(pending)| ==> err == Some(ShortError(old(pending))) && pending == []
    {
      if n <= |pending| {
        forall i | 0 <= i < n {
          buf[i] := pending[i];
        }
        pending := pending[n..];
        return None;
      }
      var got := pending;
      forall i | 0 <= i < |got| {
        buf[i] := got[i];
      }
      pending := [];
      return Some(ShortError(got));
    }
  }

  class Reader {
    const a: AEAD
    const feed: Feed
    const nonce: array<byte>
    const buf: array<byte>
    // leftover is buf[lo..hi]: it aliases the record buffer.
    var lo: nat
    var hi: nat
    ghost var opens: nat

    ghost predicate Valid()
      reads this, nonce
    {
      && a.OpenSized() && nonce != buf
      && nonce.Length == a.nonceSize && nonce[..] == a.Nonce(opens)
      && buf.Length == MAX_PAYLOAD + a.overhead && lo <= hi <= buf.Length
    }

    /** The plaintext still to be returned: the leftover, then every record that can be opened. */
    ghost function Rest(): seq<byte>
      requires Valid()
      reads this, nonce, buf, feed
    {
      buf[lo..hi] + Due(a, opens, feed.pending)
    }

    /** What follows ends short rather than failing to authenticate. */
    ghost predicate Honest()
      reads this, feed
    {
      Clean(a, opens, feed.pending)
    }

    constructor (a: AEAD, feed: Feed)
      requires a.OpenSized()
      ensures Valid() && fresh(nonce) && fresh(buf) && opens == 0 && lo == hi
      ensures this.a == a && this.feed == feed
    {
      this.a, this.feed := a, feed;
      var n := new byte[a.nonceSize](_ => 0);
      this.nonce := n;
      this.buf := new byte[MAX_PAYLOAD + a.overhead];
      this.lo, this.hi, this.opens := 0, 0, 0;
      new;
      ZeroNonce(a.nonceSize);
      assert nonce[..] == seq(a.nonceSize, _ => 0);
    }

    /** Open the first n bytes of buf where they stand; the nonce advances whether or not that succeeds. */
    method OpenFront(n: nat) returns (ok: bool)
      requires Valid() && n <= buf.Length
      modifies `opens, nonce, buf
      ensures Valid() && opens == old(opens) + 1
      ensures ok == a.open(a.Nonce(old(opens)), old(buf[..n])).Some?
      ensures ok ==> n >= a.overhead && Some(buf[..n - a.overhead]) == a.open(a.Nonce(old(opens)), old(buf[..n]))
    {
      var p := a.open(nonce[..], buf[..n]);
      Increment(nonce, opens);
      opens := opens + 1;
      if p.None? {
        return false;
      }
      forall i | 0 <= i < |p.value| {
        buf[i] := p.value[i];
      }
      assert buf[..n - a.overhead] == p.value;
      return true;
    }

    /** Read and open n sealed bytes, leaving them at the front of buf. */
    method ReadPart(n: nat) returns (err: Option<ReadError>)
      requires Valid() && n + a.overhead <= buf.Length
      modifies `opens, nonce, buf, feed
      ensures Valid()
      ensures match OpenPart(a, old(opens), n, old(feed.pending))
              case Opened(p, rest) => err == None && buf[..n] == p && feed.pending == rest && opens == old(opens) + 1
              case Bad(e) => err == Some(e) && (e != Corrupt ==> feed.pending == [])
    {
      err := feed.ReadFull(buf, n + a.overhead);
      if err == None {
        var ok := OpenFront(n + a.overhead);
        if !ok {
          err := Some(Corrupt);
        }
      }
    }

    /** Decrypt one record into buf. Only called when nothing is left over. */
    method ReadOne() returns (n: nat, err: Option<ReadError>)
      requires Valid() && lo == hi
      modifies `opens, nonce, buf, feed
      ensures Valid()
      ensures n <= buf.Length && ReadTo(a, old(opens), old(feed.pending), opens, feed.pending, buf[..n], err)
    {
      n := 0;
      err := ReadPart(2);
      if err == None {
        var size := SizeOf(buf[..2]);
        err := ReadPart(size);
        if err == None {
          n := size;
        }
      }
    }

    /** ReadOne, in terms of what is still due. */
    method ReadDue() returns (n: nat, er: Option<ReadError>)
      requires Valid() && lo == hi
      modifies `opens, nonce, buf, feed
      ensures Valid() && n <= buf.Length
      ensures old(Honest()) ==> Honest() && er != Some(Corrupt)
      ensures er == None ==> old(Rest()) == buf[..n] + Rest() && |feed.pending| < |old(feed.pending)|
      ensures er.Some? ==> n == 0 && old(Rest()) == [] && (er.value != Corrupt ==> Rest() == [])
    {
      ghost var k, s := opens, feed.pending;
      RestWhenEmpty();
      n, er := ReadOne();
      RestWhenEmpty();
      DueStep(a, k, s, opens, feed.pending, buf[..n], er);
    }

    lemma RestWhenEmpty()
      requires Valid() && lo == hi
      ensures Rest() == Due(a, opens, feed.pending)
    {
    }

    method ReadLeftover(b: array<byte>) returns (m: nat)
      requires Valid() && b != buf && b != nonce && lo < hi
      modifies `lo, b
      ensures Valid() && m <= b.Length && b[m..] == old(b[m..])
      ensures old(buf[lo..hi]) == b[..m] + buf[lo..hi]
      ensures m < b.Length ==> lo == hi
      ensures m == 0 ==> b.Length == 0
    {
      SliceParts(buf, lo, hi, if hi - lo < b.Length then hi - lo else b.Length);
      m := CopyOut(b, lo, hi);
      lo := lo + m;
    }

    method ReadFresh(b: array<byte>) returns (m: nat, err: Option<ReadError>)
      requires Valid() && b != buf && b != nonce && lo == hi
      modifies `lo, `hi, `opens, nonce, buf, feed, b
      ensures Valid() && m <= b.Length && b[m..] == old(b[m..])
      ensures err == None ==> old(Rest()) == b[..m] + Rest() && |feed.pending| < |old(feed.pending)|
      ensures err.Some? ==> m == 0 && lo == hi && old(Rest()) == [] && (err.value != Corrupt ==> Rest() == [])
      ensures old(Honest()) ==> Honest() && err != Some(Corrupt)
      ensures m < b.Length ==> lo == hi
    {
      var n;
      n, err := ReadDue();
      RestWhenEmpty();
      ghost var p, later := buf[0..n], Rest();
      SliceParts(buf, 0, n, if n < b.Length then n else b.Length);
      m := CopyOut(b, 0, n);
      if m < n {
        lo, hi := m, n;
      }
      Associative(b[..m], buf[lo..hi], later);
      assert p == b[..m] + buf[lo..hi];
      assert Rest() == buf[lo..hi] + later;
    }

    /** Read returns the next bytes in order; what does not fit in b stays, unharmed, as leftover. */
    method Read(b: array<byte>) returns (m: nat, err: Option<ReadError>)
      requires Valid() && b != buf && b != nonce
      modifies `lo, `hi, `opens, nonce, buf, feed, b
      ensures Valid() && m <= b.Length && b[m..] == old(b[m..])
      ensures err == None ==> old(Rest()) == b[..m] + Rest()
      ensures err.Some? ==> m == 0 && lo == hi && old(Rest()) == [] && (err.value != Corrupt ==> Rest() == [])
      ensures old(Honest()) ==> Honest() && err != Some(Corrupt)
      ensures err == None && m < b.Length ==> lo == hi
      ensures err == None && m == 0 < b.Length ==> |feed.pending| < |old(feed.pending)|
      ensures err == None ==> |feed.pending| <= |old(feed.pending)|
    {
      if hi - lo > 0 {
        m := ReadLeftover(b);
        Associative(b[..m], buf[lo..hi], Due(a, opens, feed.pending));
        return m, None;
      }
      m, err := ReadFresh(b);
    }

    /** The invariant of WriteTo: all has been written into a pipe that was at (v, r), of what was due. */
    ghost predicate Written(w: Pipe, v: seq<byte>, r: nat, all: seq<byte>, due: seq<byte>)
      reads this, nonce, buf, feed, w
    {
      Valid() && w.Took(v, r, all) && |all| <= r && due == all + Rest()
    }

    method WriteLeftover(w: Pipe) returns (n: nat, ok: bool)
      requires Valid()
      modifies `lo, w
      ensures Valid()
      ensures ok ==> lo == hi && n == old(hi - lo)
      ensures ok ==> Written(w, old(w.wire), old(w.room), old(buf[lo..hi]), old(Rest()))
      ensures !ok ==> n == old(w.room) < old(hi - lo) && lo == old(lo) + n
      ensures w.Took(old(w.wire), old(w.room), old(buf[lo..hi]))
    {
      n, ok := 0, true;
      ghost var left, r0 := buf[lo..hi], w.room;
      while hi - lo > 0
        invariant Valid() && ok
        invariant hi - lo > 0 ==> lo == old(lo) && n == 0 && w.wire == old(w.wire) && w.room == r0
        invariant hi == lo ==> n == |left| && w.Took(old(w.wire), r0, left) && |left| <= r0
      {
        n, ok := w.Write(buf[lo..hi]);
        lo := lo + n;
        if !ok {
          return;
        }
      }
    }

    /** One round of WriteTo's main loop; lost counts bytes of a decrypted record the sink would not take. */
    method WriteNext(w: Pipe, ghost v: seq<byte>, ghost r: nat, ghost all: seq<byte>, ghost due: seq<byte>)
        returns (n: nat, er: Option<ReadError>, ok: bool, ghost all': seq<byte>, ghost lost: nat)
      requires lo == hi && Written(w, v, r, all, due)
      modifies `opens, nonce, buf, feed, w
      ensures Valid() && w.Took(v, r, all')
      ensures old(Honest()) ==> Honest() && er != Some(Corrupt)
      ensures er.Some? ==> ok && all' == all == due && n == 0 && (er.value != Corrupt ==> Rest() == [])
      ensures er.Some? ==> lost == 0
      ensures er == None ==> due == all' + Rest() && |Take(all', r)| == |all| + n && ok == (|all'| <= r)
      ensures er == None ==> |feed.pending| < |old(feed.pending)| && lost == |all'| - |all| - n && ok == (lost == 0)
    {
      n, er := ReadDue();
      ok, all', lost := true, all, 0;
      if er == None {
        ghost var p := buf[..n];
        Associative(all, p, Rest());
        all' := all + p;
        if n > 0 {
          var nw;
          nw, ok := w.Append(buf[..n], v, r, all);
          lost := n - nw;
          n := nw;
        }
      }
    }

    /**
     * WriteTo moves everything still to come into w. When w refuses part of a record that has just
     * been decrypted, the rest of that record is dropped: only a refusal within the leftover is harmless.
     */
    method WriteTo(w: Pipe) returns (n: nat, err: WriteError, ghost lost: nat)
      requires Valid()
      modifies `lo, `opens, nonce, buf, feed, w
      ensures Valid() && (old(Honest()) ==> Honest())
      ensures w.Took(old(w.wire), old(w.room), old(Rest()))
      ensures n == |Take(old(Rest()), old(w.room))|
      ensures err == WriteFailed <==> old(w.room) < |old(Rest())|
      ensures lost > 0 <==> old(hi - lo) <= old(w.room) < |old(Rest())|
      ensures old(Honest()) ==> n + lost <= |old(Rest())| && Rest() == old(Rest())[n + lost..]
    {
      ghost var v, r, due, left := w.wire, w.room, Rest(), buf[lo..hi];
      var ok;
      n, ok := WriteLeftover(w);
      if !ok {
        SkipTaken(left, Due(a, opens, feed.pending), n);
        return n, WriteFailed, 0;
      }
      n, err, lost := WriteRecords(w, n, v, r, left, due);
    }

    /** The main loop of WriteTo, after the leftover has gone. */
    method WriteRecords(w: Pipe, n0: nat, ghost v: seq<byte>, ghost r: nat, ghost left: seq<byte>, ghost due: seq<byte>)
        returns (n: nat, err: WriteError, ghost lost: nat)
      requires lo == hi && Written(w, v, r, left, due) && n0 == |left|
      modifies `opens, nonce, buf, feed, w
      ensures Valid() && (old(Honest()) ==> Honest())
      ensures w.Took(v, r, due) && n == |Take(due, r)|
      ensures err == WriteFailed <==> r < |due|
      ensures lost > 0 <==> r < |due|
      ensures old(Honest()) ==> n + lost <= |due| && Rest() == due[n + lost..]
    {
      n := n0;
      ghost var all := left;
      while true
        invariant lo == hi && Written(w, v, r, all, due) && n == |all| >= |left|
        invariant old(Honest()) ==> Honest()
        decreases |feed.pending|
      {
        var nw, er, ok;
        ghost var all';
        nw, er, ok, all', lost := WriteNext(w, v, r, all, due);
        n := n + nw;
        if !ok {
          TakeOfPrefix(all', Rest(), due, r);
          return n, WriteFailed, lost;
        }
        if er.Some? {
          return n, if er.value == EOF then NoError else SourceFailed, 0;
        }
        all := all';
      }
    }

    /** copy(b, buf[from..to]) */
    method CopyOut(b: array<byte>, from: nat, to: nat) returns (m: nat)
      requires from <= to <= buf.Length && b != buf
      modifies b
      ensures m == (if to - from < b.Length then to - from else b.Length)
      ensures b[..m] == buf[from..from + m] && b[m..] == old(b[m..])
    {
      m := if to - from < b.Length then to - from else b.Length;
      forall i | 0 <= i < m {
        b[i] := buf[from + i];
      }
    }
  }

  // ---------------------------------------------------------------- both ends

  lemma {:induction false} WireConcat(a: AEAD, k: nat, c: seq<seq<byte>>, d: seq<seq<byte>>)
    ensures Wire(a, k, c + d) == Wire(a, k, c) + Wire(a, k + 2 * |c|, d)
    decreases |c|
  {
    if c == [] {
      assert c + d == d;
    } else {
      WireConcat(a, k + 2, c[1..], d);
      assert (c + d)[1..] == c[1..] + d;
      Associative(Sealed(a, k, c[0]), Wire(a, k + 2, c[1..]), Wire(a, k + 2 * |c|, d));
    }
  }

  function Pieces(sources: seq<Source>): seq<byte> {
    if sources == [] then [] else Flatten(sources[0].pieces) + Pieces(sources[1..])
  }

  /** The wire holds no more than the records of chunks, in order; all of them if whole. */
  ghost predicate Gapless(a: AEAD, chunks: seq<seq<byte>>, wire: seq<byte>, whole: bool) {
    wire <= Wire(a, 0, chunks) && (whole ==> wire == Wire(a, 0, chunks))
  }

  lemma GaplessOn(a: AEAD, chunks: seq<seq<byte>>, cs: seq<seq<byte>>, wire: seq<byte>)
    requires CutInLast(a, 2 * |chunks|, cs, Wire(a, 0, chunks), wire)
    ensures Gapless(a, chunks + cs, wire, wire == Wire(a, 0, chunks) + Wire(a, 2 * |chunks|, cs))
  {
    CutOn(a, 0, chunks, cs, wire);
  }

  method WriteSource(writer: Writer, source: Source, ghost k: nat, ghost chunks: seq<seq<byte>>)
      returns (ok: bool, ghost chunks': seq<seq<byte>>)
    requires writer.Sent([], k, chunks) && source.FitsPayload()
    modifies writer`seals, writer.nonce, writer.buf, writer.link`wire
    ensures writer.Partly([], k, chunks') && (ok ==> writer.Sent([], k, chunks'))
    ensures Flatten(chunks') <= Flatten(chunks) + Flatten(source.pieces)
    ensures ok ==> Flatten(chunks') == Flatten(chunks) + Flatten(source.pieces)
    ensures writer.link.reliable && !writer.link.closed ==> ok
  {
    ghost var w, seals := writer.link.wire, writer.seals;
    SentWhole(writer, k, chunks);
    var _, err, more := writer.ReadFrom(source);
    PartlyOn(writer, k, chunks, more, w, seals);
    FlattenOn(chunks, more, Flatten(source.pieces));
    chunks' := chunks + more;
    ok := err != WriteFailed;
  }

  lemma CutOn(a: AEAD, k: nat, c: seq<seq<byte>>, d: seq<seq<byte>>, wire: seq<byte>)
    requires CutInLast(a, k + 2 * |c|, d, Wire(a, k, c), wire)
    ensures CutInLast(a, k, c + d, [], wire)
    ensures Wire(a, k, c + d) == Wire(a, k, c) + Wire(a, k + 2 * |c|, d)
  {
    WireConcat(a, k, c, d);
    if d != [] {
      WireConcat(a, k, c, d[..|d| - 1]);
      assert (c + d)[..|c + d| - 1] == c + d[..|d| - 1];
    } else if c != [] {
      assert c + d == c;
      WireConcat(a, k, c[..|c| - 1], c[|c| - 1..]);
      assert c[..|c| - 1] + c[|c| - 1..] == c;
    }
  }

  lemma SentWhole(writer: Writer, k: nat, c: seq<seq<byte>>)
    requires writer.Sent([], k, c)
    ensures writer.Valid() && writer.link.wire == Wire(writer.a, k, c) && writer.seals == k + 2 * |c| && ChunksOK(c)
  {
  }

  lemma PartlyOn(writer: Writer, k: nat, c: seq<seq<byte>>, d: seq<seq<byte>>, w: seq<byte>, seals: nat)
    requires writer.Partly(w, seals, d) && w == Wire(writer.a, k, c) && seals == k + 2 * |c| && ChunksOK(c)
    ensures writer.Partly([], k, c + d)
    ensures writer.Sent(w, seals, d) ==> writer.Sent([], k, c + d)
  {
    CutOn(writer.a, k, c, d, writer.link.wire);
  }

  lemma FlattenOn(c: seq<seq<byte>>, d: seq<seq<byte>>, all: seq<byte>)
    requires Flatten(d) <= all
    ensures Flatten(c + d) <= Flatten(c) + all && (Flatten(d) == all ==> Flatten(c + d) == Flatten(c) + all)
  {
    FlattenConcat(c, d);
  }

  /** Consecutive ReadFrom calls on one writer, stopping at the first write error. */
  method WriteSources(writer: Writer, sources: seq<Source>) returns (ok: bool, ghost chunks: seq<seq<byte>>)
    requires writer.Valid() && writer.seals == 0 && writer.link.wire == []
    requires forall i :: 0 <= i < |sources| ==> sources[i].FitsPayload()
    modifies writer`seals, writer.nonce, writer.buf, writer.link`wire
    ensures writer.Partly([], 0, chunks) && (ok ==> writer.Sent([], 0, chunks))
    ensures Flatten(chunks) <= Pieces(sources) && (ok ==> Flatten(chunks) == Pieces(sources))
    ensures writer.link.reliable && !writer.link.closed ==> ok
  {
    chunks := [];
    ghost var k := writer.seals;
    var i := 0;
    ok := true;
    while i < |sources| && ok
      invariant 0 <= i <= |sources|
      invariant writer.Partly([], k, chunks) && (ok ==> writer.Sent([], k, chunks))
      invariant Flatten(chunks) <= Pieces(sources)
      invariant ok ==> Pieces(sources) == Flatten(chunks) + Pieces(sources[i..])
      invariant writer.link.reliable && !writer.link.closed ==> ok
    {
      assert sources[i..][1..] == sources[i + 1..];
      Associative(Flatten(chunks), Flatten(sources[i].pieces), Pieces(sources[i + 1..]));
      ok, chunks := WriteSource(writer, sources[i], k, chunks);
      i := i + 1;
    }
  }

  /** Whatever part of the wire arrives, the reader's dues are a prefix of what was sealed. */
  lemma DueIsPrefix(a: AEAD, chunks: seq<seq<byte>>, w: seq<byte>)
    requires a.Correct() && ChunksOK(chunks) && w <= Wire(a, 0, chunks)
    ensures Clean(a, 0, w) && Due(a, 0, w) <= Flatten(chunks)
    ensures w == Wire(a, 0, chunks) ==> Due(a, 0, w) == Flatten(chunks)
  {
    assert w == Wire(a, 0, chunks)[..|w|];
    RecordsOfCut(a, 0, chunks, |w|);
    FlattenPrefix(chunks, WholeRecords(a, 0, chunks, |w|));
    assert chunks[..|chunks|] == chunks;
  }

  datatype Op = ReadOp(size: nat) | WriteToOp(room: nat)

  method DoWriteTo(r: Reader, room: nat) returns (out: seq<byte>, dropped: bool)
    requires r.Valid() && r.Honest()
    modifies r`lo, r`hi, r`opens, r.nonce, r.buf, r.feed
    ensures r.Valid() && r.Honest() && out <= old(r.Rest())
    ensures !dropped ==> out + r.Rest() == old(r.Rest())
    ensures dropped <==> old(r.hi - r.lo) <= room < |old(r.Rest())|
  {
    var left := r.hi - r.lo;
    var sink := new Pipe(room);
    ghost var due := r.Rest();
    var n, err, lost := r.WriteTo(sink);
    out, dropped := sink.wire, err == WriteFailed && left <= room;
    assert out == Take(due, room) && due == due[..n] + due[n..];
  }

  method DoOp(r: Reader, op: Op) returns (out: seq<byte>, dropped: bool)
    requires r.Valid() && r.Honest()
    modifies r`lo, r`hi, r`opens, r.nonce, r.buf, r.feed
    ensures r.Valid() && r.Honest() && out <= old(r.Rest())
    ensures !dropped ==> out + r.Rest() == old(r.Rest())
    ensures dropped <==> op.WriteToOp? && old(r.hi - r.lo) <= op.room < |old(r.Rest())|
  {
    match op {
      case ReadOp(size) =>
        var b := new byte[size];
        var m, err := r.Read(b);
        out, dropped := b[..m], false;
      case WriteToOp(room) =>
        out, dropped := DoWriteTo(r, room);
    }
  }

  /**
   * Any reads and WriteTo calls, in any order and of any sizes, return the bytes due in order.
   * Only a sink refusing part of a fresh record ends the sequence with bytes dropped.
   */
  method ReadOps(r: Reader, ops: seq<Op>) returns (got: seq<byte>, dropped: bool)
    requires r.Valid() && r.Honest()
    modifies r`lo, r`hi, r`opens, r.nonce, r.buf, r.feed
    ensures r.Valid() && got <= old(r.Rest())
    ensures !dropped ==> got + r.Rest() == old(r.Rest())
    ensures (forall i :: 0 <= i < |ops| ==> ops[i].ReadOp? || ops[i].room >= |old(r.Rest())|) ==> !dropped
  {
    got := [];
    var i := 0;
    while i < |ops|
      invariant 0 <= i <= |ops|
      invariant r.Valid() && r.Honest() && got + r.Rest() == old(r.Rest())
    {
      ghost var due := r.Rest();
      var out;
      out, dropped := DoOp(r, ops[i]);
      Associative(got, out, due[|out|..]);
      assert due == out + due[|out|..];
      got := got + out;
      if dropped {
        return;
      }
      i := i + 1;
    }
    dropped := false;
  }

  /**
   * Writer, a connection that may fail at any byte, and reader together: what comes out is always a prefix of
   * what went in, and all of it when every write succeeded and the last operation drains the reader.
   */
  method Exchange(a: AEAD, sources: seq<Source>, reliable: bool, ops: seq<Op>)
      returns (got: seq<byte>, sent: bool, dropped: bool, ghost rest: seq<byte>)
    requires a.Correct()
    requires forall i :: 0 <= i < |sources| ==> sources[i].FitsPayload()
    ensures got <= Pieces(sources) && (reliable ==> sent)
    ensures !dropped ==> got + rest <= Pieces(sources)
    ensures sent && !dropped ==> got + rest == Pieces(sources)
  {
    var wire;
    ghost var chunks;
    sent, wire, chunks := WriteAll(a, sources, reliable);
    var feed := new Feed(wire);
    var reader := new Reader(a, feed);
    assert reader.Rest() == Due(a, 0, wire);
    got, dropped := ReadOps(reader, ops);
    rest := reader.Rest();
  }

  /** The writing half: what the reader will be due is a prefix of what the sources yield. */
  method WriteAll(a: AEAD, sources: seq<Source>, reliable: bool)
      returns (sent: bool, wire: seq<byte>, ghost chunks: seq<seq<byte>>)
    requires a.Correct()
    requires forall i :: 0 <= i < |sources| ==> sources[i].FitsPayload()
    ensures Clean(a, 0, wire) && Due(a, 0, wire) <= Pieces(sources) && (reliable ==> sent)
    ensures sent ==> Due(a, 0, wire) == Pieces(sources)
  {
    var link := new Link(reliable);
    var writer := new Writer(a, link);
    sent, chunks := WriteSources(writer, sources);
    wire := link.wire;
    DueIsPrefix(a, chunks, wire);
  }

  lemma {:induction false} ZeroNonce(n: nat)
    ensures Digits(0, n) == seq(n, _ => 0)
  {
    if n > 0 {
      ZeroNonce(n - 1);
    }
  }

  lemma FlattenPrefix<T>(ss: seq<seq<T>>, i: nat)
    requires i <= |ss|
    ensures Flatten(ss[..i]) <= Flatten(ss)
  {
    assert ss == ss[..i] + ss[i..];
    FlattenConcat(ss[..i], ss[i..]);
  }
}
