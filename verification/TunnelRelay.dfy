/** One tunnel: blocks packed into an encrypted connection at one end and parsed at the other. */
module TunnelRelay {
  import opened Bytes
  import opened Blocks
  import opened RecordLayer
  import opened RecordConn

  // ---------------------------------------------------------------- cut streams

  /** A block parsed from a shortened stream is the block the full stream starts with. */
  lemma ParseOfPrefix(s: seq<byte>, t: seq<byte>)
    requires s <= t && Parse(s).Frame?
    ensures Parse(t).Frame? && Parse(t).block == Parse(s).block && Parse(s).rest <= Parse(t).rest
  {
    var b := Parse(s).block;
    EncodeParse(s);
    var after := t[|Encode(b)|..];
    assert t == Encode(b) + after;
    ParseEncode(b, after);
  }

  // ---------------------------------------------------------------- receiving end

  /** io.ReadFull on the decrypting reader. */
  method ReadFull(r: Reader, n: nat) returns (data: seq<byte>, err: Option<ReadError>)
    requires r.Valid()
    modifies r`lo, r`hi, r`opens, r.nonce, r.buf, r.feed
    ensures r.Valid() && (old(r.Honest()) ==> r.Honest())
    ensures err == None ==> |data| == n && old(r.Rest()) == data + r.Rest()
    ensures err.Some? ==> |old(r.Rest())| < n && r.lo == r.hi && (old(r.Honest()) ==> r.Rest() == [])
  {
    data := [];
    while |data| < n
      invariant r.Valid() && (old(r.Honest()) ==> r.Honest()) && |data| <= n && old(r.Rest()) == data + r.Rest()
      decreases n - |data|, |r.feed.pending|
    {
      var tmp := new byte[n - |data|];
      var m, e := r.Read(tmp);
      if e.Some? {
        return data, if |data| > 0 && e.value == EOF then Some(UnexpectedEOF) else e;
      }
      Associative(data, tmp[..m], r.Rest());
      data := data + tmp[..m];
    }
    err := None;
  }

  /**
   * Reading a block from the connection is parsing it from the plaintext still due. After an error the
   * reader has nothing left over; on an honest stream it has nothing due either.
   */
  method NewBlockFromReader(r: Reader) returns (blk: Option<Block>)
    requires r.Valid()
    modifies r`lo, r`hi, r`opens, r.nonce, r.buf, r.feed
    ensures r.Valid() && (old(r.Honest()) ==> r.Honest())
    ensures match Parse(old(r.Rest()))
            case Frame(b, rest) => blk == Some(b) && r.Rest() == rest
            case Short(_) => blk == None && r.lo == r.hi && (old(r.Honest()) ==> r.Rest() == [])
  {
    ghost var s := r.Rest();
    var header, err := ReadFull(r, HEADER_SIZE);
    if err.Some? {
      return None;
    }
    var length := Field32(header, 17);
    ghost var body := r.Rest();
    HeaderOf(s, header, body);
    var data, err2 := ReadFull(r, length);
    if err2.Some? {
      return None;
    }
    FrameOf(s, header, data, r.Rest());
    return Some(Block(header[0], Field32(header, 1), Field64(header, 5), Field32(header, 13), length, data));
  }

  lemma FrameOf(s: seq<byte>, header: seq<byte>, data: seq<byte>, rest: seq<byte>)
    requires s == header + (data + rest) && |header| == HEADER_SIZE
    ensures s[HEADER_SIZE..HEADER_SIZE + |data|] == data && s[HEADER_SIZE + |data|..] == rest
  {
  }

  lemma HeaderOf(s: seq<byte>, header: seq<byte>, body: seq<byte>)
    requires s == header + body && |header| == HEADER_SIZE
    ensures s[0] == header[0]
    ensures Field32(s, 1) == Field32(header, 1) && Field64(s, 5) == Field64(header, 5)
    ensures Field32(s, 13) == Field32(header, 13) && Field32(s, 17) == Field32(header, 17)
  {
    assert s[1..5] == header[1..5];
    assert s[5..13] == header[5..13];
    assert s[13..17] == header[13..17];
    assert s[17..21] == header[17..21];
  }

  predicate PingPong(b: Block) {
    b.typ == TYPE_PING || b.typ == TYPE_PONG
  }

  /** What the relay hands on: Ping and Pong are answered on the spot. */
  function Forwarded(bs: seq<Block>): seq<Block> {
    if bs == [] then []
    else
      var last := bs[|bs| - 1];
      Forwarded(bs[..|bs| - 1]) + if PingPong(last) then [] else [last]
  }

  lemma ForwardedPush(bs: seq<Block>, b: Block)
    ensures Forwarded(bs + [b]) == Forwarded(bs) + if PingPong(b) then [] else [b]
  {
    assert (bs + [b])[..|bs|] == bs;
  }

  /** The output of a relay that parsed bs: the very last block may be dropped, or forwarded although a Ping or Pong. */
  ghost predicate RelayOutput(output: seq<Block>, bs: seq<Block>) {
    || output == Forwarded(bs)
    || (bs != [] && (output == Forwarded(bs[..|bs| - 1]) || output == Forwarded(bs[..|bs| - 1]) + [bs[|bs| - 1]]))
  }

  /** The output of a relay that parsed some prefix of bs. */
  ghost predicate PrefixOutput(output: seq<Block>, bs: seq<Block>) {
    exists k :: 0 <= k <= |bs| && RelayOutput(output, bs[..k])
  }

  lemma PrefixOutputBy(output: seq<Block>, parsed: seq<Block>, bs: seq<Block>)
    requires parsed <= bs && RelayOutput(output, parsed)
    ensures PrefixOutput(output, bs)
  {
    assert parsed == bs[..|parsed|];
  }

  /** Some other goroutine may close the connection, cutting what is still to arrive. */
  method OthersMayClose(r: Reader, others: bool, cancelled: bool) returns (now: bool)
    requires r.Valid()
    modifies r.feed
    ensures r.Valid() && r.Rest() <= old(r.Rest())
    ensures !others ==> now == cancelled && r.Rest() == old(r.Rest())
    ensures cancelled ==> now
  {
    now := cancelled;
    if others {
      var j: nat :| j <= |r.feed.pending|;
      TruncateRecords(r.a, r.opens, r.feed.pending, r.feed.pending[..j]);
      FlattenMonotone(Records(r.a, r.opens, r.feed.pending[..j]), Records(r.a, r.opens, r.feed.pending));
      r.feed.pending := r.feed.pending[..j];
      var c: bool := *;
      now := cancelled || c;
    }
  }

  /** closeThenCancel: what has not been read will not be. */
  method CloseOwn(r: Reader)
    requires r.Valid() && r.lo == r.hi
    modifies r.feed
    ensures r.Valid() && r.Rest() == []
  {
    r.feed.pending := [];
  }

  /** Of what was due at the start, parsed has been read and full is what would still come had nothing been cut. */
  ghost predicate Reading(r: Reader, start: seq<byte>, parsed: seq<Block>, full: seq<byte>)
    reads r, r.nonce, r.buf, r.feed
  {
    r.Valid() && r.Rest() <= full && ParseAll(start) == parsed + ParseAll(full)
  }

  /** One read of a block; on an error the connection is closed. */
  method ReadBlock(r: Reader, ghost start: seq<byte>, ghost parsed: seq<Block>, ghost full: seq<byte>)
      returns (blk: Option<Block>, ghost parsed': seq<Block>, ghost full': seq<byte>)
    requires Reading(r, start, parsed, full)
    modifies r`lo, r`hi, r`opens, r.nonce, r.buf, r.feed
    ensures Reading(r, start, parsed', full')
    ensures parsed' == if blk.Some? then parsed + [blk.value] else parsed
    ensures blk.Some? ==> |r.Rest()| < |old(r.Rest())|
    ensures blk.None? ==> r.Rest() == []
    ensures old(r.Rest()) == full ==> r.Rest() == full'
  {
    ghost var due := r.Rest();
    parsed', full' := parsed, full;
    blk := NewBlockFromReader(r);
    match blk {
      case Some(b) =>
        ParseOfPrefix(due, full);
        full' := Parse(full).rest;
        Associative(parsed, [b], ParseAll(full'));
        parsed' := parsed + [b];
      case None =>
        CloseOwn(r);
        if Parse(full).Short? {
          full' := [];
        }
    }
  }

  /**
   * InboundRelay. Whatever is cut or cancelled, and whatever fails to authenticate, the blocks parsed, including
   * the one last read after cancellation, are a prefix of those in the stream; without interference, all of them.
   */
  method InboundRelay(r: Reader, others: bool) returns (output: seq<Block>, ghost parsed: seq<Block>)
    requires r.Valid()
    modifies r`lo, r`hi, r`opens, r.nonce, r.buf, r.feed
    ensures parsed <= ParseAll(old(r.Rest())) && RelayOutput(output, parsed)
    ensures !others ==> parsed == ParseAll(old(r.Rest())) && output == Forwarded(parsed)
  {
    output, parsed := [], [];
    var cancelled := false;
    ghost var start, full := r.Rest(), r.Rest();
    while true
      invariant Reading(r, start, parsed, full) && (!others ==> r.Rest() == full)
      invariant output == Forwarded(parsed)
      invariant !others && cancelled ==> full == []
      decreases !cancelled, |r.Rest()|
    {
      cancelled := OthersMayClose(r, others, cancelled);
      ghost var before := parsed;
      var blk;
      blk, parsed, full := ReadBlock(r, start, parsed, full);
      if cancelled {
        if blk.Some? {
          LastOf(before, blk.value, parsed);
          var room: bool := *;
          if room {
            output := output + [blk.value];
          }
        }
        return;
      }
      match blk {
        case None =>
          cancelled := true;
        case Some(b) =>
          ForwardedPush(before, b);
          if !PingPong(b) {
            if others {
              var done: bool := *;
              if done {
                LastOf(before, b, parsed);
                return;
              }
            }
            output := output + [b];
          }
      }
    }
  }

  lemma LastOf(before: seq<Block>, b: Block, parsed: seq<Block>)
    requires parsed == before + [b]
    ensures parsed != [] && parsed[..|parsed| - 1] == before && parsed[|parsed| - 1] == b
    ensures RelayOutput(Forwarded(before), parsed) && RelayOutput(Forwarded(before) + [b], parsed)
  {
  }

  // ---------------------------------------------------------------- sending end

  lemma PieceInFront(head: seq<byte>, rest: seq<seq<byte>>)
    requires 0 < |head| <= MAX_PAYLOAD && ChunksOK(rest)
    ensures ChunksOK([head] + rest) && Flatten([head] + rest) == head + Flatten(rest)
  {
    assert ([head] + rest)[1..] == rest;
  }

  /** How bytes.Buffer is read into the payload area: full records, then the rest. */
  function Split(s: seq<byte>): (ps: seq<seq<byte>>)
    ensures ChunksOK(ps) && Flatten(ps) == s
  {
    if s == [] then []
    else
      var n := if |s| <= MAX_PAYLOAD then |s| else MAX_PAYLOAD;
      var rest := Split(s[n..]);
      PieceInFront(s[..n], rest);
      [s[..n]] + rest
  }

  lemma SplitSmall(s: seq<byte>)
    requires 0 < |s| <= MAX_PAYLOAD
    ensures Split(s) == [s] && Nonempty([s]) == [s]
  {
    assert s[|s|..] == [] && s[..|s|] == s;
    assert Split([]) == [] && [s][..0] == [];
  }

  lemma {:induction false} AllNonempty(ps: seq<seq<byte>>)
    requires ChunksOK(ps)
    ensures Nonempty(ps) == ps && Source(ps, false).FitsPayload()
  {
    if ps != [] {
      AllNonempty(ps[..|ps| - 1]);
    }
  }

  lemma OnePiece(e: seq<byte>, chunks: seq<seq<byte>>)
    requires e != [] && chunks <= Nonempty(Split(e)) && (chunks != [] || chunks == Nonempty(Split(e)))
    ensures |e| <= MAX_PAYLOAD ==> chunks == [e]
  {
    if |e| <= MAX_PAYLOAD {
      SplitSmall(e);
    }
  }

  /** The records cs of block b have been written behind w: all of it if ok, else cut somewhere. */
  ghost predicate Wrote(a: AEAD, k: nat, b: Block, cs: seq<seq<byte>>, w: seq<byte>, wire: seq<byte>, ok: bool) {
    && ChunksOK(cs) && Flatten(cs) <= Encode(b) && CutInLast(a, k, cs, w, wire)
    && (ok ==> Flatten(cs) == Encode(b) && wire == w + Wire(a, k, cs))
  }

  /** What the account of frames and records is after b has been written. */
  lemma CopyAccounts(a: AEAD, frames: seq<Block>, chunks: seq<seq<byte>>, gap: bool, b: Block, cs: seq<seq<byte>>,
                     before: seq<byte>, wire: seq<byte>, ok: bool)
    requires Wrote(a, 2 * |chunks|, b, cs, before, wire, ok) && ChunksOK(chunks) && Flatten(chunks) == Stream(frames)
    requires !gap ==> Gapless(a, chunks, before, true)
    ensures ChunksOK(chunks + cs) && Flatten(chunks + cs) <= Stream(frames + [b])
    ensures Flatten(cs) == Encode(b) ==> Flatten(chunks + cs) == Stream(frames + [b])
    ensures !gap ==> Gapless(a, chunks + cs, wire, wire == before + Wire(a, 2 * |chunks|, cs))
  {
    StreamPush(frames, b);
    FlattenConcat(chunks, cs);
    if !gap {
      GaplessOn(a, chunks, cs, wire);
    }
  }

  lemma OneChunk(b: Block)
    ensures Flatten([Encode(b)]) == Encode(b)
  {
    assert Flatten([Encode(b)]) == Encode(b) + Flatten([Encode(b)][1..]);
  }

  /**
   * The sending half: what has been handed to the connection so far. The last block may be cut short; and once
   * a write without a retry queue has failed, bytes may be missing in the middle, which gap records.
   */
  class Sender {
    const w: Writer
    var cancelled: bool
    ghost var gap: bool
    ghost var frames: seq<Block>
    ghost var chunks: seq<seq<byte>>

    /** full: every frame was cut into records to its end; whole: all the records are on the wire. */
    ghost predicate Account(full: bool, whole: bool)
      reads this, w, w.nonce, w.link
    {
      && w.Valid() && w.seals == 2 * |chunks| && ChunksOK(chunks) && AllWellFormed(frames)
      && w.link.closed == cancelled
      && Flatten(chunks) <= Stream(frames) && (full ==> Flatten(chunks) == Stream(frames))
      && (!gap ==> Gapless(w.a, chunks, w.link.wire, whole))
    }

    ghost predicate Valid()
      reads this, w, w.nonce, w.link
    {
      Account(!cancelled, !cancelled)
    }

    constructor (a: AEAD, reliable: bool)
      requires a.SealSized()
      ensures Valid() && !cancelled && !gap && frames == [] && w.a == a && w.link.reliable == reliable
      ensures fresh(w) && fresh(w.nonce) && fresh(w.buf) && fresh(w.link)
    {
      var link := new Link(reliable);
      w := new Writer(a, link);
      cancelled, gap, frames, chunks := false, false, [], [];
    }

    /** Pack b and copy it into the connection. */
    method Copy(b: Block) returns (ok: bool, ghost cs: seq<seq<byte>>)
      requires w.Valid()
      modifies w`seals, w.nonce, w.buf, w.link`wire
      ensures w.Valid() && w.seals == old(w.seals) + 2 * |cs|
      ensures Wrote(w.a, old(w.seals), b, cs, old(w.link.wire), w.link.wire, ok)
      ensures |Encode(b)| <= MAX_PAYLOAD ==> cs == [Encode(b)]
      ensures w.link.reliable && !w.link.closed ==> ok
    {
      var pieces := Split(Encode(b));
      AllNonempty(pieces);
      var _, err, chunks := w.ReadFrom(Source(pieces, false));
      ok, cs := err != WriteFailed, chunks;
      assert Flatten(pieces) == Encode(b);
      OnePiece(Encode(b), cs);
    }

    /** Copy, and keep account of it. */
    method CopyNext(b: Block) returns (ok: bool, ghost cs: seq<seq<byte>>)
      requires Valid() && !cancelled && b.WellFormed()
      modifies `frames, `chunks, w`seals, w.nonce, w.buf, w.link`wire
      ensures frames == old(frames) + [b] && chunks == old(chunks) + cs
      ensures Account(Flatten(cs) == Encode(b), w.link.wire == old(w.link.wire) + Wire(w.a, 2 * |old(chunks)|, cs))
      ensures Wrote(w.a, 2 * |old(chunks)|, b, cs, old(w.link.wire), w.link.wire, ok)
      ensures |Encode(b)| <= MAX_PAYLOAD ==> cs == [Encode(b)]
      ensures w.link.reliable ==> ok
    {
      ghost var wire := w.link.wire;
      ok, cs := Copy(b);
      CopyAccounts(w.a, frames, chunks, gap, b, cs, wire, w.link.wire, ok);
      Note(b, cs, w.link.wire == wire + Wire(w.a, 2 * |chunks|, cs));
    }

    /** Put b and its records down in the account. */
    ghost method Note(b: Block, cs: seq<seq<byte>>, whole: bool)
      requires w.Valid() && w.seals == 2 * |chunks + cs| && ChunksOK(chunks + cs) && w.link.closed == cancelled
      requires AllWellFormed(frames) && b.WellFormed() && Flatten(chunks + cs) <= Stream(frames + [b])
      requires Flatten(cs) == Encode(b) ==> Flatten(chunks + cs) == Stream(frames + [b])
      requires !gap ==> Gapless(w.a, chunks + cs, w.link.wire, whole)
      modifies `frames, `chunks
      ensures frames == old(frames) + [b] && chunks == old(chunks) + cs
      ensures Account(Flatten(cs) == Encode(b), whole)
    {
      frames, chunks := frames + [b], chunks + cs;
    }

    /**
     * Pack and send one block. With a retry queue any error closes the tunnel, though the block may have gone
     * through; without one the tunnel stays open, though bytes may be missing. Once closed, nothing is taken.
     */
    method PackThenSend(b: Block, retry: bool) returns (ok: bool, ghost cs: seq<seq<byte>>)
      requires Valid() && b.WellFormed() && (retry || |Encode(b)| <= MAX_PAYLOAD)
      modifies this, w`seals, w.nonce, w.buf, w.link
      ensures Valid() && frames == (if old(cancelled) then old(frames) else old(frames) + [b])
      ensures old(cancelled) ==> !ok && cancelled && w.link.wire == old(w.link.wire) && gap == old(gap)
      ensures !old(cancelled) ==>
                chunks == old(chunks) + cs && cancelled == (retry && !ok)
                && Wrote(w.a, 2 * |old(chunks)|, b, cs, old(w.link.wire), w.link.wire, ok)
      ensures !old(cancelled) && !retry ==>
                cs == [Encode(b)]
                && gap == (old(gap) || w.link.wire != old(w.link.wire) + Wire(w.a, 2 * |old(chunks)|, cs))
      ensures retry ==> gap == old(gap)
      ensures w.link.reliable && !old(cancelled) ==> ok
    {
      if cancelled {
        return false, [];
      }
      ghost var k, wire := 2 * |chunks|, w.link.wire;
      ok, cs := CopyNext(b);
      if !ok {
        if retry {
          w.link.Close();
          cancelled := true;
        } else {
          OneChunk(b);
          gap := gap || w.link.wire != wire + Wire(w.a, k, cs);
        }
      }
    }

    /** The blocks sent in full, and those that failed: only the first failure put bytes on the wire. */
    ghost predicate Accounts(sent: seq<Block>, failed: seq<Block>)
      reads this
    {
      cancelled == (failed != []) && frames == sent + Take(failed, 1)
    }

    /** packThenSend with its outcome: a block that fails goes to a goroutine that retries it or drops it. */
    method Try(b: Block, sent: seq<Block>, failed: seq<Block>) returns (sent': seq<Block>, failed': seq<Block>)
      requires Valid() && b.WellFormed() && Accounts(sent, failed)
      modifies this, w`seals, w.nonce, w.buf, w.link
      ensures Valid() && Accounts(sent', failed')
      ensures (sent' == sent && failed' == failed + [b]) || (sent' == sent + [b] && failed' == failed == [])
    {
      var ok, _ := PackThenSend(b, true);
      sent', failed' := if ok then sent + [b] else sent, if ok then failed else failed + [b];
    }

    /**
     * OutboundRelay: a waiting retry first, then whichever queue offers a block, until the tunnel is
     * cancelled or both run dry. Every block is sent in full, has failed here, or is still queued.
     */
    method OutboundRelay(retry: seq<Block>, normal: seq<Block>)
        returns (sent: seq<Block>, failed: seq<Block>, retry': seq<Block>, normal': seq<Block>)
      requires Valid() && !cancelled && frames == []
      requires AllWellFormed(retry) && AllWellFormed(normal)
      modifies this, w`seals, w.nonce, w.buf, w.link
      ensures Valid() && Accounts(sent, failed)
      ensures multiset(retry) + multiset(normal)
           == multiset(sent) + multiset(failed) + multiset(retry') + multiset(normal')
      ensures failed == [] ==> retry' == [] && normal' == []
    {
      sent, failed, retry', normal' := [], [], retry, normal;
      ghost var all := multiset(retry) + multiset(normal);
      while !cancelled && (retry' != [] || normal' != [])
        invariant Going(all, sent, failed, retry', normal')
        decreases |retry'| + |normal'|
      {
        if retry' != [] {
          sent, failed, retry' := TryRetry(all, sent, failed, retry', normal');
        }
        var done: bool, fromRetry: bool := *, *;
        if cancelled && done {
          return;
        } else if retry' != [] && (fromRetry || normal' == []) {
          sent, failed, retry' := TryRetry(all, sent, failed, retry', normal');
        } else if normal' != [] {
          sent, failed, normal' := TryNormal(all, sent, failed, retry', normal');
        }
      }
    }

    ghost predicate Going(all: multiset<Block>, sent: seq<Block>, failed: seq<Block>,
                          retry: seq<Block>, normal: seq<Block>)
      reads this, w, w.nonce, w.link
    {
      && Valid() && Accounts(sent, failed)
      && AllWellFormed(retry) && AllWellFormed(normal) && Balanced(all, sent, failed, retry, normal)
    }

    method TryRetry(ghost all: multiset<Block>, sent: seq<Block>, failed: seq<Block>,
                    retry: seq<Block>, ghost normal: seq<Block>)
        returns (sent': seq<Block>, failed': seq<Block>, retry': seq<Block>)
      requires Going(all, sent, failed, retry, normal) && retry != []
      modifies this, w`seals, w.nonce, w.buf, w.link
      ensures Going(all, sent', failed', retry', normal) && |retry'| < |retry|
    {
      PopBalanced(all, sent, failed, retry, normal);
      sent', failed' := Try(retry[0], sent, failed);
      retry' := retry[1..];
    }

    method TryNormal(ghost all: multiset<Block>, sent: seq<Block>, failed: seq<Block>,
                     ghost retry: seq<Block>, normal: seq<Block>)
        returns (sent': seq<Block>, failed': seq<Block>, normal': seq<Block>)
      requires Going(all, sent, failed, retry, normal) && normal != []
      modifies this, w`seals, w.nonce, w.buf, w.link
      ensures Going(all, sent', failed', retry, normal') && |normal'| < |normal|
    {
      PopBalanced(all, sent, failed, retry, normal);
      sent', failed' := Try(normal[0], sent, failed);
      normal' := normal[1..];
    }
  }

  ghost predicate Balanced(all: multiset<Block>, sent: seq<Block>, failed: seq<Block>,
                           retry: seq<Block>, normal: seq<Block>) {
    all == multiset(sent) + multiset(failed) + multiset(retry) + multiset(normal)
  }

  /** Moving the head of either queue to either list keeps the balance. */
  lemma PopBalanced(all: multiset<Block>, sent: seq<Block>, failed: seq<Block>, retry: seq<Block>, normal: seq<Block>)
    requires Balanced(all, sent, failed, retry, normal)
    ensures retry != [] ==> Balanced(all, sent + [retry[0]], failed, retry[1..], normal)
    ensures retry != [] ==> Balanced(all, sent, failed + [retry[0]], retry[1..], normal)
    ensures normal != [] ==> Balanced(all, sent + [normal[0]], failed, retry, normal[1..])
    ensures normal != [] ==> Balanced(all, sent, failed + [normal[0]], retry, normal[1..])
  {
    var s, f, r, n := multiset(sent), multiset(failed), multiset(retry), multiset(normal);
    if retry != [] {
      Popped(retry, sent);
      Popped(retry, failed);
      MoveBetween(s, f, multiset(retry[1..]), n, retry[0]);
    }
    if normal != [] {
      Popped(normal, sent);
      Popped(normal, failed);
      MoveBetween(s, f, multiset(normal[1..]), r, normal[0]);
    }
  }

  lemma Popped(q: seq<Block>, to: seq<Block>)
    requires q != []
    ensures multiset(q) == multiset{q[0]} + multiset(q[1..])
    ensures multiset(to + [q[0]]) == multiset(to) + multiset{q[0]}
  {
    assert q == [q[0]] + q[1..];
  }

  lemma MoveBetween(s: multiset<Block>, f: multiset<Block>, q: multiset<Block>, other: multiset<Block>, x: Block)
    ensures s + f + (multiset{x} + q) + other == (s + multiset{x}) + f + q + other == s + (f + multiset{x}) + q + other
    ensures s + f + other + (multiset{x} + q) == (s + multiset{x}) + f + other + q == s + (f + multiset{x}) + other + q
  {
  }

  /** A block a tunnel may be asked to send; Ping and Pong carry eight bytes and are sent without a retry queue. */
  predicate Sendable(b: Block) {
    b.WellFormed() && (PingPong(b) ==> |b.data| == 8)
  }

  predicate AllSendable(bs: seq<Block>) {
    forall i :: 0 <= i < |bs| ==> Sendable(bs[i])
  }

  predicate NoPings(bs: seq<Block>) {
    forall i :: 0 <= i < |bs| ==> !PingPong(bs[i])
  }

  method SendBlocks(s: Sender, blocks: seq<Block>)
    requires s.Valid() && !s.cancelled && !s.gap && s.frames == [] && AllSendable(blocks)
    modifies s, s.w`seals, s.w.nonce, s.w.buf, s.w.link
    ensures s.Valid() && s.frames <= blocks && (!s.cancelled ==> s.frames == blocks)
    ensures NoPings(blocks) || s.w.link.reliable ==> !s.gap
    ensures s.w.link.reliable ==> !s.cancelled
  {
    var i := 0;
    while i < |blocks| && !s.cancelled
      invariant 0 <= i <= |blocks| && s.Valid() && s.frames == blocks[..i]
      invariant NoPings(blocks) || s.w.link.reliable ==> !s.gap
      invariant s.w.link.reliable ==> !s.cancelled
    {
      assert blocks[..i + 1] == blocks[..i] + [blocks[i]];
      var _, _ := s.PackThenSend(blocks[i], !PingPong(blocks[i]));
      i := i + 1;
    }
    assert i == |blocks| ==> blocks[..i] == blocks;
  }

  lemma NoGapUnforged(s: Sender)
    requires s.Valid() && s.w.a.Correct() && !s.gap
    ensures Unforged(s.w.a, 0, s.chunks, s.w.link.wire)
  {
    var wire := s.w.link.wire;
    assert wire == Wire(s.w.a, 0, s.chunks)[..|wire|];
    CutUnforged(s.w.a, 0, s.chunks, |wire|);
  }

  /** What the far reader is due once the sender has stopped. */
  lemma DueOfSender(s: Sender)
    requires s.Valid() && s.w.a.Correct() && Unforged(s.w.a, 0, s.chunks, s.w.link.wire)
    ensures var blocks := ParseAll(Due(s.w.a, 0, s.w.link.wire));
            blocks <= s.frames && (!s.cancelled && !s.gap ==> blocks == s.frames)
  {
    var wire := s.w.link.wire;
    UnforgedRecords(s.w.a, 0, s.chunks, wire);
    FlattenMonotone(Records(s.w.a, 0, wire), s.chunks);
    ParseOfStreamPrefix(s.frames, Due(s.w.a, 0, wire));
    if !s.cancelled && !s.gap {
      DueIsPrefix(s.w.a, s.chunks, wire);
      ParseAllOfStream(s.frames);
    }
  }

  /** The sending end of a run: what was written, and what reading it amounts to. */
  method SendingEnd(a: AEAD, blocks: seq<Block>, reliable: bool)
      returns (wire: seq<byte>, broke: bool, ghost gap: bool, ghost chunks: seq<seq<byte>>)
    requires a.Correct() && AllSendable(blocks)
    ensures NoPings(blocks) || reliable ==> !gap
    ensures reliable ==> !broke
    ensures !gap ==> Unforged(a, 0, chunks, wire)
    ensures Unforged(a, 0, chunks, wire) ==> ParseAll(Due(a, 0, wire)) <= blocks
    ensures !gap && !broke ==> ParseAll(Due(a, 0, wire)) == blocks
  {
    var s := new Sender(a, reliable);
    SendBlocks(s, blocks);
    wire, broke, gap, chunks := s.w.link.wire, s.cancelled, s.gap, s.chunks;
    if !gap {
      NoGapUnforged(s);
    }
    if Unforged(a, 0, chunks, wire) {
      DueOfSender(s);
    }
  }

  /**
   * Both ends of a tunnel over a connection that may take any part of any write: the receiver hands on blocks
   * from a prefix of those sent, although frames span records. When a failed Ping or Pong has left a gap in the
   * stream, this needs what an AEAD promises, that nothing opens that was not sealed so.
   */
  method TunnelRun(a: AEAD, blocks: seq<Block>, reliable: bool, others: bool)
      returns (output: seq<Block>, broke: bool, ghost gap: bool, ghost chunks: seq<seq<byte>>, ghost wire: seq<byte>)
    requires a.Correct() && AllSendable(blocks)
    ensures NoPings(blocks) || reliable ==> !gap
    ensures reliable ==> !broke
    ensures !gap || Unforged(a, 0, chunks, wire) ==> PrefixOutput(output, blocks)
    ensures !broke && !gap && !others ==> output == Forwarded(blocks)
  {
    var sent;
    sent, broke, gap, chunks := SendingEnd(a, blocks, reliable);
    wire := sent;
    var feed := new Feed(sent);
    var r := new Reader(a, feed);
    assert r.Rest() == Due(a, 0, sent);
    ghost var parsed;
    output, parsed := InboundRelay(r, others);
    if Unforged(a, 0, chunks, wire) {
      PrefixOutputBy(output, parsed, blocks);
    }
  }
}
