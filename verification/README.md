# Rabbit tunnels: a verified model

Rabbit carries many user TCP connections over several encrypted tunnels. A connection's bytes are cut into
numbered blocks, any tunnel may carry any block, and the far end puts the blocks back in order. This project
models that path in Dafny and proves that the bytes read at one end are always a prefix of the bytes written at
the other, whatever the tunnels reorder, repeat, cut or lose. Around that result it proves what each part of the
path promises the next, and what the pools that keep tunnels and connections promise.

## How it is built

The code that changes things in place is modelled as classes and methods on arrays and fields, each proved against
functions on values; the theorems are about those functions, and `Conformance` shows that the methods take exactly
the steps of the protocol's state machine.

| module | models |
|---|---|
| `Bytes`, `Blocks` | little-endian numbers; the 21-byte header, framing, constructors, payloads of block lists |
| `BlockObjects`, `Sending` | blocks as heap objects aliasing a buffer, the memoised `Pack`, the chunker, the shared id counter, a connection's senders |
| `RecordLayer`, `RecordConn` | AEAD records and nonces as functions; the writer and reader that seal and open them in place |
| `TunnelRelay` | one tunnel: `packThenSend`, `OutboundRelay`, `NewBlockFromReader`, `InboundRelay`, and both ends around a cut connection |
| `Resequencer` | `OrderedRelay`: the cache, the two counters, the timeout decision |
| `InboundReader` | `InboundConnection.Read` and the ring buffer |
| `Bag`, `Protocol` | three levels of abstraction: the whole system of queues, retries, tunnels and connections; a bag of genuine blocks that loses, repeats and reorders; a byte stream |
| `Conformance` | the methods above, and those of `OutboundConnection` and `ConnectionPool`, as steps of `Protocol` and `Bag` |
| `Dialling` | the goroutines of one outgoing connection: connects, dialled connections, pairs of relays, taking and writing as separate steps |
| `Scenarios` | runs of `Protocol` in which a retry delivers a block twice, in which a repeated Connect turns bytes round, and in which a tunnel's stream has a gap |
| `OutboundConnection`, `ConnectionPool`, `ClientManager`, `ServerManager` | dialling and shutdown, demultiplexing, keeping the pool full, removing an idle peer |

A tunnel's connection (`RecordConn.Link`) may take any part of a write, may report an error although it took every
byte, and may work again afterwards. So a retry may repeat a block that got through, and a failed Ping or Pong, which
does not close its tunnel, may leave bytes missing in front of later records.

A receiving object either is read by one reader (an inbound connection) or serves what its Connect blocks dial (an
outbound one, whose state in `Protocol` is that of `Dialling`). So both directions of a connection are runs of `Protocol`.

The functions the theorems speak about, by name: `Blocks.Encode`/`Parse` (one frame), `Stream`/`ParseAll` (many),
`DataOf` (user bytes of a block list); `RecordLayer.Wire`/`Records` (ciphertext of payloads and back) and `Unforged`;
`Resequencer.Arrive`/`Relay` (the relay on one and on many blocks) and `Settled` (what it should amount to).

## What is assumed

- The AEAD is a parameter (interface of section 2 of RFC 5116). All that is assumed of it is `AEAD.Correct`: sealing
  adds `Overhead` bytes, opening removes them, and open undoes seal under the same nonce.
- Map updates and each `packThenSend` are atomic steps. The code takes locks for the maps, but the pools are copied by
  value together with their mutexes (peer/client.go:35-36), and a tunnel has no write lock.
- Connection ids are fresh, one sending object per id at either end, and disjoint from the ids Ping and Pong blocks carry; tunnel ids
  are fresh. A late block for a removed id makes a second server object, which numbers its blocks from 0 again;
  `Bag.SecondSenderMixes` shows what two senders under one id do, `ClientManager.AddNeedsFreshId` and `ConnectionPool.CollisionRemovesTheOther` show what a repeated id does.
- Fewer than 2^32-1 blocks are sent on one connection: the code compares ids without regard to wrap-around.
  `Resequencer.TimeoutExactly` gives the exact condition under which its timeout decision stays right beyond that.
- An inbound connection has one writer and one reader at a time; Connect and Disconnect blocks may take ids in the
  middle of its Write. For an outbound connection this is no assumption: it holds as long as at most one dial has
  succeeded (`Conformance.RecvRelayConforms`, `Dialling.InOrderExactly`).
- Where a failed Ping or Pong has left a gap in a tunnel's stream, and only there, what arrives must be `Unforged`: each
  string the reader opens is one that was sealed under that counter, which is the authenticity RFC 5116 asks of an AEAD.
  Streams without a gap are proved to be so (`RecordLayer.CutUnforged`); `Scenarios.GapTolerated` meets the hypothesis
  with a gap.
- Reading a dialled connection, timeouts and cancellation are parameters or nondeterministic choices; time stamps are
  arbitrary; the clock of the server's countdown only moves forward.

## What is false of the code, and exactly when

- `WriteTo` drops bytes when the sink refuses part of a record just decrypted (tunnel/tunnel.go:161-171). It loses some
  if and only if the sink takes the whole leftover but not all that is due (`RecordConn.Reader.WriteTo`).
- A timeout kills a connection if and only if there is a hole, except when id 2^32-1 has come and nothing else is
  waiting (`Resequencer.TimeoutExactly`; `TopIdHidesHole` is such an input).
- Packed blocks read back as themselves if and only if every length field is honest; the constructors make honest ones
  unless an address or payload has 4 GiB or more (`Blocks.StreamRoundTripExactly`, `Blocks.BuiltRoundTrip`).
- Nonces repeat once 256^n seals have been made under one key (`RecordLayer.NoncesDistinct`); the code does not check.
- The shared connection count equals the size of the maps if and only if no id ever collided
  (`ConnectionPool.CountExactly`).
- A retry can repeat a Connect block (`Scenarios.DeliveredTwice`), and `RecvBlock` starts a connect for each copy. Every
  dial that succeeds starts its own `SendRelay` and `RecvRelay` on the same queue. So, for every n, in every run with n
  Connect blocks, or n connects that dial, or n dials that succeed, each dialled connection is written a prefix of the
  ordered data if and only if n <= 1, and what is sent back is a prefix of what came from one of them if and only if
  n <= 1 (`Dialling.InOrderExactly`). `Protocol.EndToEnd` has this condition for objects that dial, and
  `Scenarios.SwappedAtDialled` is a run of the whole system in which two blocks are written in the wrong order.
- By the same cause an outbound connection sends at most one ShutdownBoth in every run with n Connect blocks, or with n
  of them going on to dial, if and only if n <= 1 (`Dialling.OneShutdownExactly`); for every n there is a run that sends
  n. Two dials that succeed may also leave it unable to send any (`DuplicateConnectReopens`, `ClosedIsSilent`).
- A peer is removed after an unbroken empty period if and only if the countdown that fires has not been cancelled
  (`ServerManager.RemovedOnlyAfterEmptyPeriod`): the select may take a timer that is ready together with the
  cancellation (`RefilledYetRemoved`).
- A reader told of the peer's shutdown has all the peer wrote if and only if the peer wrote nothing after it
  (`Conformance.CompleteExactly`), which `InboundConnection.Write` does not see to after a local `CloseWrite`
  (`Conformance.CloseWriteThenWrite`).
- `DecreaseNotify` dials only nonempty endpoints: at an empty one, or without any, it goes round until cancelled
  (`ClientManager.Manager.DecreaseNotify`).

Where comments and code disagree the code is followed: the payload limit is 0x7FFF, not the 16*1024-1 its comment says
(tunnel/tunnel.go:11-12), and `DataSize` is 32755 because it subtracts 13, not the header's 21 (block/block.go:22-24),
so a full frame is longer than a record and frames span records.

## Model

| member | source | states |
|---|---|---|
| Protocol.EndToEnd | connection/block_processor.go:36-107 | in every run of the whole system, with any reordering, loss, cut, and retry of blocks that did or did not get through, every inbound object has at every moment read a prefix of what its sender wrote, and every connection an outbound object has dialled has been written one, provided at most one of its dials has succeeded, as is so with at most one Connect block |
| Protocol.StreamOverTime | connection/inbound_connection.go:65-138 | between any two moments of a run a receiving object keeps its id, written and delivered bytes have only been extended, and with a single reader or dialled connection the delivered ones are a prefix of the written ones |
| Protocol.SystemRefinesBag | tunnel_pool/tunnel.go:156-337 | every step of queues, retries, failing tunnels and demultiplexing is, for each receiving object, a step of the bag or no step at all |
| Protocol.NextKeeps | tunnel_pool/tunnel.go:206-241 | every step, sends after an error and after a failed Ping included, keeps the invariant: whatever any queue, retry or tunnel holds is a block its sender issued, or a Ping or Pong |
| Scenarios.DeliveredTwice | tunnel_pool/tunnel.go:225-235 | with any cipher, any block with an honest length field that is the first of its connection, of any type and size, may reach the receiving object twice |
| Scenarios.SwappedAtDialled | connection/outbound_connection.go:210-215 | with any cipher, a run of the whole system in which a Connect block comes twice, both dials succeed, and the connection dialled last is written the two data blocks that follow in the wrong order |
| Scenarios.GapTolerated | tunnel_pool/tunnel.go:315-317 | a run in which a Ping is lost whole, its tunnel stays open and carries a block behind the gap, and nothing of it opens |
| Protocol.PackedOK | tunnel_pool/tunnel.go:206-224 | packing a block keeps the tunnel's account however much of it is written and whether or not an error is reported: without a gap the wire is a cut of the records, the records a cut of the frames |
| Protocol.ParsableIsPrefix | tunnel_pool/tunnel.go:244-294 | what can be parsed from any part of a tunnel's wire that has arrived is a prefix of the blocks packed into it, even past a gap |
| Protocol.HandOnKeeps | connection_pool/pool.go:98-139 | handing a block to the registered connection, or to a new one, keeps the invariant, also where a Connect block starts another dial |
| Protocol.MovesOK | connection/outbound_connection.go:122-184 | an object that orders, reads, dials or relays by itself stays sound |
| Protocol.HandedToItsOwn | connection_pool/pool.go:109-132 | in every run each object is queued only blocks with its own id, and no two ids map to one object |
| Bag.BagRefinesPipe | connection/block_processor.go:36-93 | over a bag that may lose, repeat and reorder issued blocks, every step is a step of a byte stream |
| Bag.NextKeeps | connection/connection.go:113-134 | under any interleaving, issued ids are 0, 1, 2 and so on, each once, and issued payloads plus what is pending make up what was written |
| Bag.ReadIsPrefix | connection/inbound_connection.go:140-173 | bytes read, buffered and ordered make up a prefix of the issued data, so bytes read are a prefix of bytes written |
| Bag.NothingHeldBack | connection/block_processor.go:64-83 | once every issued block has arrived in whatever order, all are emitted, no hole remains, and a drained reader has everything written |
| Bag.SecondSenderMixes | connection_pool/pool.go:115-117 | two senders under one id make a receiver emit a mixture that neither has written |
| Resequencer.ArriveSettles | connection/block_processor.go:47-93 | any arrival, new, old, repeated or out of order, leads from the settled state of the received set to that of the set with it |
| Resequencer.RelaySettles | connection/block_processor.go:36-93 | after any arrivals recvBlockID is the least id missing, the cache holds exactly the received ids above it, and blocks 0 to recvBlockID-1 were emitted once each |
| Resequencer.SettledUnique | connection/block_processor.go:15-22 | there is only one settled state and output for a set of received blocks |
| Resequencer.OrderIrrelevant | connection/block_processor.go:84-93 | two arrival sequences with the same blocks, in any order and with any repetitions, give the same state and output |
| Resequencer.TimeoutExactly | connection/block_processor.go:94-101 | a timeout kills exactly when there is a hole, if and only if it is not the case that id 2^32-1 alone makes the hole |
| Resequencer.TimeoutRight | connection/block_processor.go:47-50 | below 2^32-1 blocks recvBlockID <= lastRecvBlockID, equal exactly when the cache is empty, and a timeout kills if and only if there is a hole |
| Resequencer.TopIdHidesHole | connection/block_processor.go:94-98 | a first arrival numbered 2^32-1 leaves a hole no timeout sees |
| Resequencer.BlockProcessor.Handle | connection/block_processor.go:47-93 | one block through the loop gives the specified state and output; cancelled in the middle, a prefix of the output |
| Resequencer.BlockProcessor.OrderedRelay | connection/block_processor.go:36-107 | over any events the output is the specified one, and the connection is killed if and only if some timeout found recvBlockID behind lastRecvBlockID |
| InboundReader.InboundConnection.Read | connection/inbound_connection.go:65-138 | returned bytes continue what was returned before, nothing consumed is lost or repeated, and a shutdown is reported only with all consumed data returned |
| InboundReader.InboundConnection.ReadBlock | connection/inbound_connection.go:140-181 | a block's payload goes to the buffer and, only if it is then full, the rest to the ring; flags and end of file follow the shutdown type |
| InboundReader.InboundConnection.CopyData | connection/inbound_connection.go:158-173 | OverWrite is reached only with a drained ring; bytes copied plus bytes spilled are the payload |
| InboundReader.InboundConnection.ReadClosed | connection/inbound_connection.go:77-94 | after a shutdown, end of file only when nothing was read and the queue and the ring are empty |
| InboundReader.ReadRun | connection/inbound_connection.go:65-181 | over any run of reads of any sizes, returned, unread and still queued bytes are all the data; an end of file comes after all data before the shutdown that caused it |
| InboundReader.ByteRingBuffer.OverWrite | connection/ring_buffer.go:16-23 | unread bytes are replaced by the new data, however large |
| InboundReader.ByteRingBuffer.Read | connection/ring_buffer.go:25-33 | as many unread bytes as fit move to the destination, the rest stay unread |
| Blocks.ParseEncode | block/block.go:37-71 | reading undoes packing, whatever follows in the stream, for every time stamp including negative ones |
| Blocks.RoundTripExactly | block/block.go:51-71 | a packed block reads back as itself if and only if its length field is honest |
| Blocks.EncodeParse | block/block.go:51-71 | whatever is read as a block packs to the very bytes read |
| Blocks.StrictPrefixIsShort | block/block.go:54-69 | no strict prefix of an encoding reads as a block |
| Blocks.ParseAllConserves | block/block.go:51-71 | on any bytes at all, the blocks read and the bytes left over make up the input |
| Blocks.ParseAllOfCut | block/block.go:51-71 | a stream of frames cut at any byte reads as exactly the frames that are whole |
| Blocks.StreamRoundTripExactly | block/block.go:37-71 | packed blocks read back as the same list if and only if every length field is honest |
| Blocks.ParseAllOfStream | block/block.go:37-71 | honest packed blocks read back as the same list with no bytes over |
| Blocks.BuiltRoundTrip | block/block.go:73-147 | blocks from the five constructors read back as built if and only if no address or payload has 4 GiB or more |
| BlockObjects.BlockObject.Pack | block/block.go:37-49 | the first call encodes what the buffer holds then; later calls return the same array with the same bytes |
| BlockObjects.NewDataBlock | block/block.go:85-97 | the new block's packed bytes are fixed at creation although its data still aliases the buffer |
| BlockObjects.NewDataBlocks | block/block.go:99-110 | nonempty blocks of at most DataSize, all but the last full, consecutively numbered, whose payloads make up the data |
| BlockObjects.Counter.Take | connection/block_processor.go:113-118 | the next id, wrapping at 2^32 |
| BlockObjects.NumbersConcat | connection/block_processor.go:109-119 | runs of ids taken one after the other join without a gap |
| Sending.BaseConnection.SendData | connection/connection.go:128-134 | queued blocks are a chunking of the buffer with the next ids, and reading the caller's buffer is never needed again |
| Sending.BaseConnection.Write | connection/inbound_connection.go:183-193 | all bytes are accepted, or none once the peer has shut down |
| Sending.BaseConnection.SendConnect | connection/connection.go:113-117 | one Connect block with the next id is queued and nothing is written |
| Sending.BaseConnection.SendDisconnect | connection/connection.go:119-126 | one Disconnect block with the next id is queued; ShutdownBoth also stops the connection |
| Sending.Transmit | tunnel_pool/tunnel.go:206-211 | packing queued objects later yields the encodings of the blocks as they were issued |
| Sending.SenderRun | connection/block_processor.go:109-119 | any calls in any order from one reused buffer, packed only afterwards, parse back as gap-free ids from 0 carrying exactly the bytes written |
| RecordLayer.Increment | tunnel/tunnel.go:184-192 | the array goes from the little-endian encoding of k to that of k+1, modulo 256^n |
| RecordLayer.NoncesDistinct | tunnel/tunnel.go:184-192 | the first s nonces are pairwise distinct if and only if s <= 256^n |
| RecordLayer.ReadSealed | tunnel/tunnel.go:98-128 | opening a sealed record under the matching counters yields its payload and leaves the rest |
| RecordLayer.ReadCutRecord | tunnel/tunnel.go:100-119 | a record cut anywhere yields no payload, and the error is a short stream, not a failed authentication |
| RecordLayer.RecordsOfCut | tunnel/tunnel.go:98-128 | ciphertext cut at any byte decrypts to exactly the payloads of the whole records |
| RecordLayer.UnforgedRecords | tunnel/tunnel.go:98-128 | on any bytes at all of which nothing unsealed opens, decryption yields a prefix of the payloads sealed |
| RecordLayer.CutUnforged | tunnel/tunnel.go:98-128 | every cut of the genuine wire is such a stream |
| RecordLayer.TruncateRecords | tunnel_pool/tunnel.go:290-291 | cutting ciphertext short only shortens what can be decrypted |
| RecordConn.Writer.SealRecord | tunnel/tunnel.go:48-57 | sealing size and payload in place yields the record under counters k and k+1 |
| RecordConn.Writer.ReadFrom | tunnel/tunnel.go:42-75 | the wire gets the records of the nonempty pieces in order, cut only within the last, whenever and however the connection errs; count and error are exact |
| RecordConn.Reader.ReadOne | tunnel/tunnel.go:98-128 | reading into the record buffer in place is the specified record step, on genuine and on corrupt input |
| RecordConn.Reader.Read | tunnel/tunnel.go:131-145 | bytes returned followed by what is still due are what was due: the leftover aliasing the record buffer is never overwritten |
| RecordConn.Reader.WriteTo | tunnel/tunnel.go:150-182 | the sink gets what was due as far as it takes it; bytes are lost if and only if it takes the leftover but not all that is due |
| RecordConn.ReadOps | tunnel/tunnel.go:130-182 | any mix of Read and WriteTo returns the bytes due in order, all of them unless a sink refused part of a fresh record |
| RecordConn.Exchange | tunnel/tunnel.go:42-182 | writer, a connection that may err at any byte, and reader: what comes out is a prefix of what went in, everything when no write failed |
| RecordConn.WireConcat | tunnel/tunnel.go:53-57 | the wire of joined record lists is the joined wires, the second under counters that go on where the first stopped |
| RecordConn.DueIsPrefix | tunnel/tunnel.go:98-128 | whatever part of the wire arrives, the payload bytes due are a prefix of those sealed |
| TunnelRelay.NewBlockFromReader | block/block.go:51-71 | reading a block through the decrypting reader is parsing it from the plaintext due |
| TunnelRelay.ParseOfPrefix | block/block.go:51-71 | a block read from a shortened stream is the block the full stream starts with |
| TunnelRelay.InboundRelay | tunnel_pool/tunnel.go:244-337 | blocks parsed, including the one read after cancellation, are a prefix of those in the stream, all of them if nothing interferes, on streams that fail to authenticate too; Ping and Pong are not forwarded before cancellation |
| TunnelRelay.Sender.PackThenSend | tunnel_pool/tunnel.go:206-241 | the block's records follow those before; with a retry queue any error, even after all bytes were taken, closes the tunnel for good; without one the tunnel stays open, and a gap is noted exactly when bytes are missing |
| TunnelRelay.Sender.OutboundRelay | tunnel_pool/tunnel.go:156-204 | every block is sent in full, failed here and handed to a retry, or still queued; only the first failure put bytes on the wire |
| TunnelRelay.DueOfSender | tunnel_pool/tunnel.go:206-211 | what the far end can parse is a prefix of the blocks packed, all of them if no write failed |
| TunnelRelay.TunnelRun | tunnel_pool/tunnel.go:244-337 | both ends around a connection that may err at any byte: what the receiver hands on comes from a prefix of the blocks sent, from all of them if nothing broke or interfered |
| Conformance.ChunkingIssues | block/block.go:99-110 | cutting a Write into blocks is a run of Issue steps, one for each id |
| Conformance.SendDataConforms | connection/connection.go:128-134 | the chunker on a buffer is such a run, leaving nothing pending |
| Conformance.SendConforms | tunnel_pool/tunnel.go:206-241 | packThenSend on arrays and a connection, with or without a retry queue, is exactly the protocol's packing step |
| Conformance.WroteIsPacked | tunnel_pool/tunnel.go:210-240 | whatever part of the records was written, the tunnel afterwards is the one the packing step describes |
| Conformance.ParseConforms | block/block.go:51-71 | at any point of a tunnel's stream, reading a block is the protocol's next parse step, or an error when no block is left |
| Conformance.RelayConforms | tunnel_pool/tunnel.go:252-337 | InboundRelay hands on a prefix of the blocks that the protocol's parse steps may take, all but Ping and Pong if nothing interferes |
| Conformance.DemuxConforms | connection_pool/pool.go:98-139 | recvRelay on one block is the protocol's Demux step, or DemuxDrop where it drops the block |
| Conformance.HandedMirrors | connection_pool/pool.go:109-132 | handing a block on keeps the pool's map and queues those of the protocol |
| Conformance.HandleConforms | connection/block_processor.go:47-93 | one block through OrderedRelay is a deliver step, or a cut one when cancelled |
| Conformance.ReadConforms | connection/inbound_connection.go:65-138 | a Read is one consume step, after whatever the relay handed on during the call |
| Conformance.ReadConsumed | connection/inbound_connection.go:68-75 | bytes returned are the first n of the buffered and newly consumed ones, and what is left is in ring and queue |
| Conformance.EndOfFileIsComplete | connection/inbound_connection.go:145-153 | a reader told of the peer's shutdown and drained has every byte the peer wrote, provided the peer wrote nothing after that shutdown |
| Conformance.CompleteExactly | connection/inbound_connection.go:183-213 | readers that stop at a shutdown block have all the data if and only if no data follows one |
| Conformance.CloseWriteThenWrite | connection/inbound_connection.go:183-213 | after CloseWrite a Write is still accepted, and its data follows the shutdown |
| Conformance.SendRelayConforms | connection/outbound_connection.go:129-178 | a round of SendRelay is a Take step, a Handle step that writes n bytes of the block, and after a failed write the step that closes |
| Conformance.RecvRelayConforms | connection/outbound_connection.go:66-75 | with a single pair of relays, reading is the Write step of one source and sending a block its Issue step |
| Conformance.HandleStep | connection/outbound_connection.go:136-177 | acting on a block, of whatever type, with or without an error, is the Handle step |
| Dialling.AtMostOneShutdownEach | connection/outbound_connection.go:40-51 | no interleaving of dials and relays sends more ShutdownBoth blocks than connects went on to dial, nor than Connect blocks came |
| Dialling.InOrderExactly | connection/outbound_connection.go:202-220 | for every n, and for n Connect blocks, n connects that dial or n dials that succeed: in all such runs every dialled connection is written a prefix of the ordered data if and only if n <= 1, and what is sent back is in order if and only if n <= 1 |
| Dialling.NextKeeps | connection/outbound_connection.go:122-184 | every step of connects and relays keeps what the single dialled connection has been written in step with the blocks taken, and what is sent back in step with what came |
| Dialling.SwapReached | connection/outbound_connection.go:122-184 | for every n >= 2 a run with n dials in which two relays turn round two bytes in both directions |
| Dialling.OneShutdownExactly | connection/outbound_connection.go:202-220 | for every n, all runs with n Connect blocks, or n that dial, send at most one ShutdownBoth if and only if n <= 1 |
| Dialling.ShutdownsReached | connection/outbound_connection.go:216-219 | for every n some run with n Connect blocks sends n ShutdownBoth blocks |
| Dialling.DuplicateConnectShutsTwice | connection/outbound_connection.go:202-220 | two Connect blocks that dial at the same time may send two |
| Dialling.DuplicateConnectReopens | connection/outbound_connection.go:210-215 | two dials that succeed toggle closed back while the relays run |
| Dialling.ClosedIsSilent | connection/outbound_connection.go:40-46 | from a closed state with no dial under way, no shutdown is sent before another Connect comes |
| OutboundConnection.Connection.CloseThenCancelWithOnceSend | connection/outbound_connection.go:40-46 | closes and cancels; one ShutdownBoth if and only if closed was not set |
| OutboundConnection.Connection.SendRelay | connection/outbound_connection.go:122-184 | a SendRelay that alone takes from its queue writes a prefix of the payloads in order, all of them if nothing interferes; at most one ShutdownBoth |
| OutboundConnection.Connection.RecvRelay | connection/outbound_connection.go:54-119 | bytes sent on are those of the reads taken, in order, through one reused buffer; undisturbed, every read up to the end, then the shutdown |
| OutboundConnection.Connection.DrainFive | connection/outbound_connection.go:101-111 | after cancellation at most five more reads are sent on |
| ConnectionPool.Pool.AddConnection | connection_pool/pool.go:71-81 | the connection is registered; the count keeps in step with the map if and only if the id was free |
| ConnectionPool.Pool.RemoveConnection | connection_pool/pool.go:83-95 | removal by id keeps the count in step with the map |
| ConnectionPool.Pool.RecvOne | connection_pool/pool.go:109-132 | a block joins the queue of the connection registered under its id, or of a new one if allowed, or none; every other queue and entry stays as it was |
| ConnectionPool.CountExactly | connection_pool/pool.go:71-95 | in every run the count equals the total size of the maps if and only if no id ever collided |
| ConnectionPool.ServerPoolsExact | connection_pool/pool.go:60-69 | in every run of server pools the count is exact, an id has at most one object not yet removed, and every removal takes out its own object's entry |
| ConnectionPool.CollisionRemovesTheOther | connection_pool/pool.go:48-57 | after a collision the first object's removal takes out the second one, and the count stays high |
| ClientManager.Manager.MoveBack | tunnel_pool/manager.go:128-135 | two endpoints trade places, the last with the first |
| ClientManager.Manager.OnDialFailure | tunnel_pool/manager.go:119-141 | weights stay within 0..5, at most 1 when retryFailed is off; the wait is the new weight; endpoints stay a permutation |
| ClientManager.Manager.DecreaseNotify | tunnel_pool/manager.go:90-165 | unless cancelled, exactly the missing tunnels are created; every wait is bounded; endpoints stay a permutation with every index in range; only an empty endpoint, or none, keeps it from dialling until it is cancelled |
| ClientManager.PoolIsKeptFull | tunnel_pool/manager.go:90-165 | in every run pool size plus tunnels owed never exceeds tunnelNum, equals it when no notification waits, and the pool holds exactly tunnelNum at rest |
| ClientManager.AddNeedsFreshId | tunnel_pool/pool.go:45-51 | adding a tunnel keeps that promise if and only if its id is new |
| ServerManager.ServerPool.Notify | tunnel_pool/manager.go:185-212 | triggered, the countdowns and the stored cancel function become those of the specification |
| ServerManager.ServerPool.RemoveTunnel | tunnel_pool/pool.go:76-90 | only a tunnel still in the mapping is removed and reported |
| ServerManager.TriggeredMeansEmpty | tunnel_pool/manager.go:188-211 | in every run triggered says whether the pool is empty, and at most one countdown is neither cancelled nor fired |
| ServerManager.StoryOf | tunnel_pool/manager.go:188-204 | a countdown that is running was started at a moment since which the pool has been empty without a break; one that has been cancelled was not |
| ServerManager.LiveSinceEmpty | tunnel_pool/manager.go:194-204 | a live countdown started at a moment since which the pool has been empty without a break |
| ServerManager.RemovedOnlyAfterEmptyPeriod | tunnel_pool/manager.go:197-203 | a peer is removed no sooner than the full period after its countdown started, and the pool has been empty ever since if and only if that countdown was not cancelled |
| ServerManager.RefilledYetRemoved | tunnel_pool/manager.go:197-203 | a run in which a pool refilled as the period ends loses its peer |

## Left out

- Cipher internals, key derivation and salts (tunnel/aead.go, tunnel/cipher.go): foreign calls behind the AEAD parameter.
- The peer-id handshake that opens a tunnel (tunnel_pool/tunnel.go:91-153): the block stream is modelled from its first frame.
- Runs after a local `Close` (connection/inbound_connection.go:195-203): a closed Go channel yields zero blocks without end, and `Read` would not return.
- Liveness: a block may be dropped by the retry select (tunnel_pool/tunnel.go:229-235), so only safety is claimed, and `Bag.NothingHeldBack` for blocks that do arrive.
- A late block for a removed connection id creates a new connection object (connection_pool/pool.go:115-117): every claim is made per object.
- Queue capacities and blocking: channels are unbounded sequences, a send that waits is a step that has not happened yet.
- Several pools with their own locks: `ConnectionPool` joins their maps in one map keyed by pool and id.
- `RecvBytes`, latencies, activity times and statistics: bytes served from the ring buffer are not even counted (connection/inbound_connection.go:70).
- SOCKS5 parsing, configuration, TLS files, logging, the status server and the command line.
- Conformance.RelayConforms: which block is dropped when the output queue is full after cancellation is left open, as in the code; `Conformance.ParseConforms` covers readers at any point of the stream.
- OutboundConnection.Connection.SendRelay: its queue is what is there and what will come, given whole, and no other relay takes from it; a cancelled relay may leave at any point, as in the code. `Conformance.SendRelayConforms` covers one block at a time, `Dialling` several relays on one queue.
