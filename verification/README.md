# Verified models of the Reticulum JavaScript packages

Dafny models of six cores of the repository, each proved against what the code and its documentation
promise. `dafny verify dfyconfig.toml` checks everything.

- **Git pack engine** (`Huffman`, `Zlib`, `DeflateFormat`, `InflateInverts`, `InflateReturns`, `TruncatedStream`,
  `StoredDeflate`, `Delta`, `DeltaInverts`, `DeltaAccepts`, `Pack`, `PackInverts`, `Resolve`, `ResolveProofs`, `ResolveComplete`): the DEFLATE decoder with
  exact byte accounting, pack entries, binary deltas, the fixpoint resolver and undeltifying.
- **Resource transfer** (`Resource`, `ResourceSender`, `ResourceTransfer`, `ResourceWatchdog`,
  `ResourceAgreement`): sender and receiver of a segment, runs over a channel that loses, repeats and reorders,
  the watchdogs, and agreement over all segments of a payload.
- **IFAC sealing** (`Hkdf`, `Ifac`): the HKDF mask and the sealing bijection.
- **rfed federation** (`BlobStore`, `DeferredQueue`, `Federation`): the evicting store, FIFO paging, the
  blob stream and anti-entropy sync.
- **LXMF peer mesh** (`MessageStore`, `PeerSync`, `PropagationNode`): per-peer handled and unhandled sets, the
  offer protocol between two nodes, and ingest deduplication.
- **Ingress limiter** (`Ingress`): burst latches, cooldown, held announces.

`Bits.dfy` (module `Bytes`) and `Wrappers` hold the shared vocabulary.

Every core has the same layout: an exact functional specification with all branches and error conditions of the code;
classes and methods with the loops and field updates of the code, each proved to compute that
specification; and lemmas about the specification, over all inputs or all runs. An asynchronous method is
cut at the awaits where other steps can come in between. JavaScript maps whose iteration order matters are
sequences in insertion order. JavaScript semantics that matter are written out: reads past the end of a
buffer are 0, shifts and masks work on signed 32-bit values, and an absent table entry makes a length or a distance not a number.

## What the proofs found

- `applyDelta` builds the copy offset as a signed 32-bit value. From 2^31 on it is negative and passes the guard
  (`DeltaInverts.HugeOffsetAccepted`), and a last instruction cut off by the end of the delta is accepted when its nominal
  size fills the target (`DeltaAccepts.CutAcceptedIff`). An accepted delta is well formed exactly when neither
  occurs (`DeltaAccepts.AcceptedIsWellFormedIff`).
- The decoder never returns on some inputs: past the end of the buffer every bit reads 0, and a dynamic block whose all-zero
  code is neither the end of the block nor an error goes on for ever. `InflateReturns.NeverReturnsIff` is the exact condition,
  `TruncatedStream.TruncatedNeverReturns` a truncated stream of 14 bytes.
- With an object store, a reference delta in front of its base makes the whole resolution fail, although without a
  store it succeeds (`ResolveComplete.ForwardBase`; `ResolvesIffGrounded` and `StoreResolvesIffOrdered` are the exact conditions). The comment in
  `resolvePack` promises that such bases may come later.
- The comment on `_findPartByMapHash` says that the collision guard makes map hashes unique. It does up to
  `span + 1` parts (`ResourceTransfer.GuardSuffices`) and for no larger number (`GuardGap`).
- A continuation delivered twice spoils the receiver's hashmap (`ResourceTransfer.UpdateExtendsIff`).
- The peer sync gate is said never to re-enter a running sync. The phase is set two awaits after the gate, so
  two calls can pass it, and a message the peer never had is marked handled (`PeerSync.OverlapMarksUnknown`;
  `ReplyMarks` says exactly what a reply marks).
- A message dropped while it is on offer may come back before the transfer is over, if the dedup cache has forgotten it; it is then
  marked handled although it was never sent (`PeerSync.PruneMarksUncarried`).
- One blob above a budget at the head of a gap blocks everything behind it for ever (`Federation.ConvergesIffServable`).
- Held announces are spaced by the release interval when the burst penalty is at least that long. With a shorter penalty they are
  spaced by the penalty only, and every distance between the two occurs (`Ingress.ReleasesSpaced`, `Ingress.ShortPenaltyCrowds`).

## Model

| member | source | states |
|---|---|---|
| `Huffman.CodesFit` | `packages/rngit/src/pack.js:88-117` | A code-length vector that is not over-subscribed leaves room for every code of every length (RFC 1951 section 3.2.2) |
| `Huffman.CountLengths` | `packages/rngit/src/pack.js:88-92` | The first loop of `makeDecoder` counts the symbols of each length, length 0 aside |
| `Huffman.RunStarts` | `packages/rngit/src/pack.js:95-99` | The offsets are where each length starts in the symbol table |
| `Huffman.PlaceSymbol` | `packages/rngit/src/pack.js:100-102` | One turn of the last loop keeps every symbol seen so far in its place |
| `Huffman.MakeDecoder` | `packages/rngit/src/pack.js:88-103` | The built tables list every used symbol by length and then by value, for every length vector of at most 15 |
| `Huffman.DecodeInverts` | `packages/rngit/src/pack.js:104-116` | From any bit position, reading the canonical code of any used symbol returns that symbol and consumes exactly its length |
| `Zlib.LengthTable` | `packages/rngit/src/pack.js:119-126` | The closed form used for length bases and extra bits is the table of 29 entries |
| `Zlib.DistTable` | `packages/rngit/src/pack.js:127-134` | The closed form used for distance bases and extra bits is the table of 30 entries |
| `Zlib.BlockAdvances` | `packages/rngit/src/pack.js:136-216` | Every block that ends moves the bit position forward, so the block loop makes progress |
| `Zlib.BodyEnd` | `packages/rngit/src/pack.js:139-214` | A block that starts in the buffer ends at most 64 KiB and three bytes behind it, so no position the decoder needs wraps |
| `Zlib.NoWrap` | `packages/rngit/src/pack.js:72-72` | Up to that length the signed 32-bit shift of a position finds the same byte as the unbounded one, for every position below 2^32 |
| `Zlib.Inflater.ReadBit` | `packages/rngit/src/pack.js:72-72` | One bit, least significant first, at a position shifted as a signed 32-bit number; 0 past the end of the buffer |
| `Zlib.Inflater.ReadBits` | `packages/rngit/src/pack.js:74-81` | The little-endian value of the next `n` bits |
| `Zlib.Inflater.DecodeSymbol` | `packages/rngit/src/pack.js:104-116` | The decoding loop computes the specified symbol or the invalid-code error from the current position |
| `Zlib.Inflater.CopyMatch` | `packages/rngit/src/pack.js:209-211` | The byte-by-byte copy appends what the specification of overlapping copies says, or reports a distance before the start |
| `Zlib.Inflater.ReadLength` | `packages/rngit/src/pack.js:203-205` | Length base and extra bits; no number for symbols without a base |
| `Zlib.Inflater.ReadDistance` | `packages/rngit/src/pack.js:206-208` | Distance base and extra bits; no number for symbols without a base |
| `Zlib.Inflater.RunToken` | `packages/rngit/src/pack.js:198-212` | One literal or match |
| `Zlib.Inflater.RunTokens` | `packages/rngit/src/pack.js:197-213` | The token loop up to the end-of-block symbol, for every input on which it ends |
| `Zlib.Inflater.ReadStoredHead` | `packages/rngit/src/pack.js:141-144` | LEN and NLEN behind the next byte boundary, found with 32-bit shifts and masks |
| `Zlib.Inflater.CopyStored` | `packages/rngit/src/pack.js:146-146` | The raw bytes of a stored block, 0 past the end of the buffer |
| `Zlib.Inflater.RunStored` | `packages/rngit/src/pack.js:139-147` | A stored block: alignment, LEN and NLEN, raw bytes |
| `Zlib.Inflater.ReadClLengths` | `packages/rngit/src/pack.js:165-169` | The code-length code lengths in transmission order |
| `Zlib.Inflater.AppendLengths` | `packages/rngit/src/pack.js:174-189` | One run-length operation on the code lengths |
| `Zlib.Inflater.ReadCodeLengths` | `packages/rngit/src/pack.js:171-190` | All literal and distance code lengths, or the invalid-code error |
| `Zlib.Inflater.ReadTablesFrom` | `packages/rngit/src/pack.js:168-192` | The literal and distance code lengths of a dynamic block |
| `Zlib.Inflater.ReadTables` | `packages/rngit/src/pack.js:162-192` | The dynamic block header |
| `Zlib.Inflater.RunCompressed` | `packages/rngit/src/pack.js:191-213` | A compressed block body with given tables |
| `Zlib.Inflater.RunBody` | `packages/rngit/src/pack.js:139-214` | A block of any of the four types |
| `Zlib.Inflater.RunBlock` | `packages/rngit/src/pack.js:136-215` | One block with its final flag |
| `Zlib.Inflater.RunBlocks` | `packages/rngit/src/pack.js:136-216` | The block loop |
| `Zlib.InflateWithBounds` | `packages/rngit/src/pack.js:58-220` | For every buffer of up to 2^28 less 128 KiB bytes on which the decoder returns or throws: the same bytes and consumed count, or the same error, as the functional specification, computed with 32-bit positions |
| `InflateInverts.CopyBackRepeats` | `packages/rngit/src/pack.js:209-211` | An overlapping or non-overlapping copy repeats the last `dist` bytes periodically |
| `InflateInverts.FixedTablesWf` | `packages/rngit/src/pack.js:151-160` | The fixed tables are decodable: the literal code is complete, the distance code incomplete |
| `InflateInverts.DynamicTablesRead` | `packages/rngit/src/pack.js:161-192` | Reading any well-formed dynamic header yields exactly the tables it encodes |
| `InflateInverts.InflateInvertsFormat` | `packages/rngit/src/pack.js:58-220` | For every well-formed zlib stream below 2^28 bytes of stored, fixed and dynamic blocks, whatever follows it, the decoder returns exactly the bytes the blocks denote and the stream length (RFC 1950 section 2.2, RFC 1951 section 3.2.3) |
| `InflateReturns.ZeroCodeIs` | `packages/rngit/src/pack.js:104-116` | The code read past the end, all zeros, stands for the first symbol of the shortest length in use |
| `InflateReturns.PastEndLoops` | `packages/rngit/src/pack.js:197-213` | Past the end of the buffer, a pass of the symbol loop that goes on is followed by another such pass |
| `InflateReturns.TokensDivergeIff` | `packages/rngit/src/pack.js:197-213` | From any state the symbol loop diverges exactly when it gets past the end and the all-zero code there is neither the end of the block, nor invalid, nor followed by a distance that is an error |
| `InflateReturns.ZerosEndReturns` | `packages/rngit/src/pack.js:197-213` | When the all-zero code is the end of the block or no code, the symbol loop never diverges, wherever it starts |
| `InflateReturns.FixedZeros` | `packages/rngit/src/pack.js:151-160` | In the fixed tables it is the end of the block |
| `InflateReturns.NeverReturnsIff` | `packages/rngit/src/pack.js:58-220` | The decoder never returns exactly when the header passes and some dynamic block runs past the end with all-zero codes that go on |
| `InflateReturns.AllEndReturns` | `packages/rngit/src/pack.js:58-220` | The decoder returns on every buffer, whole or cut off, whose blocks are stored, fixed, or dynamic with the all-zero code ending the block |
| `TruncatedStream.TruncatedNeverReturns` | `packages/rngit/src/pack.js:58-220` | On a zlib stream cut off behind the header of its dynamic block, 14 bytes, the decoder never returns |
| `StoredDeflate.StoredDeflates` | `packages/rngit/src/pack.js:605-628` | A compressor that meets what the pack builder relies on exists: one stored block stands for every object below 64 KiB |
| `Delta.ReadVarint` | `packages/rngit/src/pack.js:316-326` | The little-endian base-128 size, wrapping at 32 bits |
| `Delta.SetBytes` | `packages/rngit/src/pack.js:355-361` | `target.set` writes the chunk at its place and nothing else |
| `Delta.ReadInstruction` | `packages/rngit/src/pack.js:339-364` | One copy, insert or invalid opcode |
| `Delta.ApplyDelta` | `packages/rngit/src/pack.js:313-370` | For every base and delta, malformed ones too: the same bytes or the same error as the functional specification |
| `DeltaInverts.VarintRead` | `packages/rngit/src/pack.js:316-326` | Reading back any size below 2^32 |
| `DeltaInverts.CopyRead` | `packages/rngit/src/pack.js:340-356` | A copy with any subset of its operand bytes sent reads back its offset and size, 0 meaning 0x10000 |
| `DeltaInverts.ApplyInvertsEncode` | `packages/rngit/src/pack.js:313-370` | Applying the encoding of any well-formed list of copies and inserts gives the concatenation of the slices it denotes |
| `DeltaInverts.CopyGuard` | `packages/rngit/src/pack.js:352-356` | A copy that passes the signed 32-bit guard lies inside the base exactly when its offset is below 2^31 |
| `DeltaInverts.HugeOffsetAccepted` | `packages/rngit/src/pack.js:347-356` | A copy offset of 2^31 or more turns negative and passes the guard: a delta with such a copy succeeds |
| `DeltaAccepts.CutAcceptedIff` | `packages/rngit/src/pack.js:339-367` | An instruction, insert or copy, that runs over the end of the delta is accepted exactly when its nominal size brings the target to its size; the bytes it lacks stay zero |
| `DeltaAccepts.AcceptsExactly` | `packages/rngit/src/pack.js:313-370` | With copy offsets below 2^31, for every delta, cut off or not: accepted exactly when the base size is right, its instructions are well formed and their sizes fill the target; the result is the concatenation of what they stand for |
| `DeltaAccepts.AcceptedIsWellFormedIff` | `packages/rngit/src/pack.js:313-370` | The converse of `ApplyInvertsEncode`: an accepted delta is the encoding of a well-formed instruction list exactly when every instruction ends within it and every copy offset is below 2^31, and then the result is what that list denotes |
| `Pack.ReadSize` | `packages/rngit/src/pack.js:233-239` | The size groups behind the first header byte, at any shift |
| `Pack.ReadDistance` | `packages/rngit/src/pack.js:243-248` | The base distance of an offset delta |
| `Pack.ReadEntryHeader` | `packages/rngit/src/pack.js:229-256` | Type, size, base reference and payload offset of an entry |
| `Pack.ParseNext` | `packages/rngit/src/pack.js:284-301` | One entry: header, inflated payload, length check |
| `Pack.ParseCounted` | `packages/rngit/src/pack.js:280-303` | The entry loop |
| `Pack.ParsePack` | `packages/rngit/src/pack.js:266-304` | For every buffer within the same length on which inflating ends: the same entries or the same error as the functional specification |
| `Pack.EncodeHeader` | `packages/rngit/src/pack.js:527-539` | The written entry header is type and size in 4 and then 7 bits |
| `Pack.BuildPack` | `packages/rngit/src/pack.js:510-549` | The pack is header, count, each object behind its header, and the SHA-1 of all that; nothing for an unknown type |
| `PackInverts.OfsBijection` | `packages/rngit/src/pack.js:242-250` | Offset distances and terminated byte strings correspond one to one, for every natural number |
| `PackInverts.DistanceRead` | `packages/rngit/src/pack.js:243-248` | The reader decodes that code for every distance below 2^31 |
| `PackInverts.HeaderRead` | `packages/rngit/src/pack.js:229-241` | Reading a written header gives back type and size, for sizes below 2^31 |
| `PackInverts.ParseInvertsBuild` | `packages/rngit/src/pack.js:266-304` | Parsing a built pack, its entries below 2^28 deflated bytes, recovers every entry boundary, type, size and payload in order and ends at the SHA-1 trailer |
| `Resolve.ResolveEntry` | `packages/rngit/src/pack.js:417-468` | One entry: object, wait, or failure, from what is resolved so far and the store |
| `Resolve.SortObjects` | `packages/rngit/src/pack.js:499-500` | The objects inserted one by one in offset order, equal offsets in arrival order |
| `Resolve.OneRound` | `packages/rngit/src/pack.js:478-489` | One pass over the pending entries, each seeing what earlier ones in the pass yielded |
| `Resolve.ResolveParsed` | `packages/rngit/src/pack.js:401-502` | The rounds end, and compute the specified fixpoint |
| `Resolve.ResolveWhole` | `packages/rngit/src/pack.js:401-502` | `resolvePack` computes its functional specification |
| `Resolve.FattenPack` | `packages/rngit/src/pack.js:562-566` | A pack that used the store is rebuilt from its objects; any other is returned as it was |
| `ResolveProofs.DenotationUnique` | `packages/rngit/src/pack.js:417-468` | An entry denotes at most one object, whatever chain of bases shows it |
| `ResolveProofs.RoundSound` | `packages/rngit/src/pack.js:478-489` | Every round keeps: recorded objects are denotations, and pending entries are unresolved ones |
| `ResolveProofs.SortSorts` | `packages/rngit/src/pack.js:499-500` | The result is a permutation in ascending offset order |
| `ResolveProofs.ResolveIsDenotation` | `packages/rngit/src/pack.js:401-502` | On success, with or without a store, the result is one object per entry in pack order, each the denotation of its entry |
| `ResolveComplete.ResolvesIffGrounded` | `packages/rngit/src/pack.js:401-502` | Without a store resolution succeeds exactly when every entry has a denotation: every delta chain is grounded and every delta applies |
| `ResolveComplete.StoreResolvesIffOrdered` | `packages/rngit/src/pack.js:436-453` | With a store it succeeds exactly when every entry has a denotation that uses only earlier entries and the store |
| `ResolveComplete.ForwardBase` | `packages/rngit/src/pack.js:436-453` | A reference delta in front of its base resolves without a store and fails with an empty one |
| `ResolveComplete.FattenPreserves` | `packages/rngit/src/pack.js:562-566` | Resolving the fattened pack without any store gives the same types, bytes and ids in the same order, using no external base |
| `Huffman.DecodeIsSound` | `packages/rngit/src/pack.js:104-116` | Whatever is decoded, from any length vector and anywhere, is a used symbol whose code was read there |
| `Resource.FindCollision` | `packages/core/src/core/resource.js:532-541` | Finds equal map hashes at most `span` places apart, exactly |
| `Resource.Slices` | `packages/core/src/core/resource.js:486-495` | The parts are the SDU-sized slices of the encrypted blob |
| `Resource.BuildIntegrityAndParts` | `packages/core/src/core/resource.js:454-511` | The first attempt whose salt leaves no collision within the guard |
| `Resource.ResourceReceiver.constructor` | `packages/core/src/core/resource.js:889-921` | The state of an accepted advertisement |
| `Resource.ResourceReceiver.RequestMore` | `packages/core/src/core/resource.js:952-983` | The next request and the state it leaves |
| `Resource.ResourceReceiver.OnWindowDrained` | `packages/core/src/core/resource.js:996-1023` | Window growth and the rate probe, on exact rationals |
| `Resource.ResourceReceiver.AssembleParts` | `packages/core/src/core/resource.js:1130-1219` | Decrypt, strip, decompress, check the hash, prove and strip the metadata; corrupt otherwise |
| `Resource.ResourceReceiver.Put` | `packages/core/src/core/resource.js:1071-1075` | A part placed in a slot |
| `Resource.ResourceReceiver.Fill` | `packages/core/src/core/resource.js:1071-1097` | A placed part completes the transfer, drains the window, or neither |
| `Resource.ResourceReceiver.Receive` | `packages/core/src/core/resource.js:1061-1101` | A part goes to the first open slot with its map hash, if any |
| `Resource.ResourceReceiver.ApplyUpdate` | `packages/core/src/core/resource.js:1108-1122` | A continuation is appended, and a drained receiver requests more |
| `Resource.ResourceReceiver.ShrinkWindow` | `packages/core/src/core/resource.js:1494-1502` | The window after a stall |
| `Resource.ResourceReceiver.Overdue` | `packages/core/src/core/resource.js:1472-1484` | Exactly when the watchdog counts a stall |
| `Resource.ResourceReceiver.WatchdogTick` | `packages/core/src/core/resource.js:1470-1512` | Retry or cancel of a stalled receiver |
| `ResourceSender.RequestRoundTrip` | `packages/core/src/core/resource.js:811-827` | The sender reads back every request the receiver writes, exhausted or not |
| `ResourceSender.UnnamedExhaustionMisroutes` | `packages/core/src/core/resource.js:1034-1043` | An exhausted request that names no hash is read as one for another resource |
| `ResourceSender.CleanServes` | `packages/core/src/core/resource.js:454-511` | A prepared segment passes the guard and stems from one of the attempts |
| `ResourceSender.ResourceUpload.constructor` | `packages/core/src/core/resource.js:335-397` | The first segment is prepared and advertised |
| `ResourceSender.ResourceUpload.FindPart` | `packages/core/src/core/resource.js:798-803` | The first index with a map hash |
| `ResourceSender.ResourceUpload.ServeParts` | `packages/core/src/core/resource.js:642-653` | The parts of a request in order, unknown hashes skipped, and the indices remembered |
| `ResourceSender.ResourceUpload.Serve` | `packages/core/src/core/resource.js:636-672` | The parts and the continuation of a request, or the sequencing cancel |
| `ResourceSender.ResourceUpload.ContinueAfter` | `packages/core/src/core/resource.js:767-789` | The continuation behind a hash at a boundary, otherwise none |
| `ResourceSender.ResourceUpload.CheckProof` | `packages/core/src/core/resource.js:699-757` | A matching proof completes or moves to the next segment, a mismatch fails the transfer |
| `ResourceSender.ResourceUpload.Advance` | `packages/core/src/core/resource.js:407-439` | The next segment is prepared and advertised with a fresh retry budget |
| `ResourceSender.ResourceUpload.WatchdogTick` | `packages/core/src/core/resource.js:1423-1468` | Advertisement retry and cancels of a sender |
| `ResourceTransfer.RequestNextKept` | `packages/core/src/core/resource.js:952-983` | A request asks for the first open known slots up to the window, and is exhausted exactly when none is open; then it names a boundary hash |
| `ResourceTransfer.PartKept` | `packages/core/src/core/resource.js:1061-1101` | A part of the sender goes to its own index, counts once, and the last one assembles the sender's plaintext |
| `ResourceTransfer.BoundaryContinues` | `packages/core/src/core/resource.js:767-789` | A boundary hash is answered with the run of hashes behind it |
| `ResourceTransfer.ServeKept` | `packages/core/src/core/resource.js:636-672` | A request in the protocol is answered with parts of the sender and the next continuation, never with a cancel |
| `ResourceTransfer.StepKept` | `packages/core/src/core/resource.js:1061-1122` | Every step of sender, receiver, channel and watchdogs keeps the transfer invariant |
| `ResourceTransfer.TransferIsFaithful` | `packages/core/src/core/resource.js:1061-1122` | Over every run with loss, repetition and reordering of requests and parts: hashmap a prefix cut at a multiple of the fragment size or complete, filled slot i holds slice i, the count is the number filled, completion means the sender's plaintext, and no sequencing cancel |
| `ResourceTransfer.Exchange` | `packages/core/src/core/resource.js:952-983` | The loss-free request and serve loop terminates with the sender's plaintext assembled |
| `ResourceTransfer.LossFree` | `packages/core/src/core/resource.js:889-983` | From an accepted advertisement and its first request on, the loss-free loop ends with the sender's plaintext assembled |
| `ResourceTransfer.PartsConcat` | `packages/core/src/core/resource.js:486-495` | The parts concatenated are the encrypted blob |
| `ResourceTransfer.BuildIsSound` | `packages/core/src/core/resource.js:454-511` | A prepared segment with distinct map hashes meets the assumptions of the run theorems when token and bz2 undo each other |
| `ResourceTransfer.GuardSuffices` | `packages/core/src/core/resource.js:532-541` | Up to `span + 1` parts the guard accepts exactly the hashmaps without a repeated hash |
| `ResourceTransfer.GuardGap` | `packages/core/src/core/resource.js:532-541` | For every span and every number of parts from `span + 2` on, the guard accepts a hashmap with a repeated hash, whose second part is then never served |
| `ResourceTransfer.UpdateExtendsIff` | `packages/core/src/core/resource.js:1108-1122` | Appending a continuation keeps the prefix exactly when it is the next in turn, so none may arrive twice |
| `ResourceWatchdog.RunBounded` | `packages/core/src/core/resource.js:996-1023` | Whatever the peer sends: 2 <= windowMin <= window <= 75, outstanding at most the open known slots, and at most sixteen watchdog retries |
| `ResourceWatchdog.AcceptedBounded` | `packages/core/src/core/resource.js:889-921` | Every accepted transfer starts within those bounds, also when it resumes at an earlier window |
| `ResourceWatchdog.SilenceFails` | `packages/core/src/core/resource.js:1470-1512` | Without inbound traffic a transfer with `n` retries left fails within a closed-form time in rtt, window and tick gap |
| `ResourceWatchdog.SilenceFailsFresh` | `packages/core/src/core/resource.js:1470-1512` | For a fresh transfer that bound is 17 (24 rtt + 12 w rtt + 1/4 + gap) + 68 seconds |
| `ResourceWatchdog.UnansweredFails` | `packages/core/src/core/resource.js:1425-1450` | An advertisement nobody requests from is cancelled within (n + 1)(6 rtt + 1 + gap) seconds |
| `ResourceWatchdog.DriedUpFails` | `packages/core/src/core/resource.js:1451-1466` | A sender whose requests dry up cancels within 96 rtt + 78 + gap seconds |
| `ResourceAgreement.SplitResourceAssembler.AddSegment` | `packages/core/src/core/resource.js:1604-1628` | Adding a segment: more to come, over the size cap, or the concatenation with the metadata of segment 1 |
| `ResourceAgreement.SplitResourceAssembler.constructor` | `packages/core/src/core/resource.js:1583-1595` | An empty assembler |
| `ResourceAgreement.TextsCover` | `packages/core/src/core/resource.js:407-413` | The segments concatenated are the whole plaintext, for every length |
| `ResourceAgreement.AssembledIsPlaintext` | `packages/core/src/core/resource.js:1155-1167` | Whatever parts arrived, a segment that completes holds the sender's plaintext, and its proof is the expected one |
| `ResourceAgreement.StepAgreed` | `packages/core/src/core/resource.js:699-757` | Every assembly, proof and watchdog step keeps sender and receiver in agreement |
| `ResourceAgreement.MetadataConcat` | `packages/core/src/core/resource.js:1176-1197` | Payload and metadata come back exactly when the metadata prefix fits in segment 1 |
| `ResourceAgreement.Agreement` | `packages/core/src/core/resource.js:699-757` | When the sender is complete the receiver has assembled every segment and routed the payload, with its metadata exactly when the prefix fits; at most one segment is in flight and no proof mismatches |
| `ResourceAgreement.OwnAdvertisementAccepted` | `packages/core/src/core/resource.js:849-887` | A receiver with the same link parameters accepts a prepared segment exactly when its limits allow it |
| `ResourceWatchdog.CeilingFollowsRates` | `packages/core/src/core/resource.js:996-1023` | Four fast drains open the window to 75, two very slow ones before any fast one close it to 4, otherwise the ceiling is 10 |
| `Hkdf.PrefixOfLonger` | `packages/core/src/crypto/ciphers.js:16-45` | The output of a shorter length is a prefix of that of a longer one |
| `Hkdf.CopyInto` | `packages/core/src/crypto/ciphers.js:37-37` | The block is copied behind what is written |
| `Hkdf.ExpandOnce` | `packages/core/src/crypto/ciphers.js:29-42` | One turn of the expand loop appends T(n) of RFC 5869 section 2.3, or the part of it that fits |
| `Hkdf.DeriveBits` | `packages/core/src/crypto/ciphers.js:16-45` | Extract and expand give the first octets of T(1) / T(2) / ... (RFC 5869 section 2.3) |
| `Ifac.OpenInvertsSeal` | `packages/core/src/core/ifac.js:117-189` | Opening a sealed packet gives it back exactly when it is flag-clear and longer than 2 octets; the sealed packet has the flag |
| `Ifac.OpensIffSealed` | `packages/core/src/core/ifac.js:164-189` | A packet opens to `raw` exactly when, flag set, it is what `raw` seals to: `open` accepts exactly the image of `seal` |
| `Ifac.SealIsInjective` | `packages/core/src/core/ifac.js:117-148` | Different packets never seal to the same one |
| `Ifac.FlagIgnored` | `packages/core/src/core/ifac.js:164-189` | The flag bit plays no part in opening |
| `Ifac.MaskPacket` | `packages/core/src/core/ifac.js:136-147` | The masking loop leaves the code alone and keeps the flag set |
| `Ifac.SealPacket` | `packages/core/src/core/ifac.js:117-148` | `seal` computes its specification |
| `Ifac.UnmaskPacket` | `packages/core/src/core/ifac.js:171-178` | The unmasking loop leaves the code alone |
| `Ifac.Candidate` | `packages/core/src/core/ifac.js:168-184` | The unmasked packet with flag and code removed |
| `Ifac.OpenPacket` | `packages/core/src/core/ifac.js:164-189` | `open` computes its specification, too short and unverified packets included |
| `BlobStore.Blobs.Find` | `packages/rfed/src/blob_store.js:82-83` | The entry of an id |
| `BlobStore.Blobs.Remove` | `packages/rfed/src/blob_store.js:180-188` | Deleting takes the blob, its entry and its size, or nothing |
| `BlobStore.Blobs.SweepOlder` | `packages/rfed/src/blob_store.js:212-221` | The sweep deletes exactly the expired entries |
| `BlobStore.Blobs.MakeRoom` | `packages/rfed/src/blob_store.js:228-237` | Oldest-first eviction until the new blob fits |
| `BlobStore.Blobs.StoreBlob` | `packages/rfed/src/blob_store.js:80-110` | Storing: idempotent, a collision error, or sweep, eviction and insertion |
| `BlobStore.Blobs.constructor` | `packages/rfed/src/blob_store.js:48-56` | An empty store is valid |
| `BlobStore.Sort` | `packages/rfed/src/blob_store.js:230-232` | The stable sort by age |
| `BlobStore.ByAgeSorts` | `packages/rfed/src/blob_store.js:230-232` | That order is a permutation in ascending age |
| `BlobStore.DeleteKeeps` | `packages/rfed/src/blob_store.js:180-188` | Deleting keeps maps and byte count in step and every other blob as it was |
| `BlobStore.EvictsShortestPrefix` | `packages/rfed/src/blob_store.js:228-237` | Eviction removes the shortest oldest-first run that makes room, or everything |
| `BlobStore.StoreAccounts` | `packages/rfed/src/blob_store.js:80-110` | A stored blob is held as it came, `usedBytes` is the sum of sizes and at most the larger of limit and blob |
| `BlobStore.RunKeeps` | `packages/rfed/src/blob_store.js:80-110` | Across any run of stores, deletes and sweeps the two maps have equal keys and `usedBytes` is the sum of sizes |
| `DeferredQueue.Queue.TotalLen` | `packages/rfed/src/deferred_queue.js:49-53` | The sum of the bucket lengths |
| `DeferredQueue.Queue.SetBucket` | `packages/rfed/src/deferred_queue.js:135-136` | A bucket is replaced in place, appended, or removed when empty |
| `DeferredQueue.Queue.EnqueueBlob` | `packages/rfed/src/deferred_queue.js:66-78` | A full bucket drops its oldest, a full queue takes nothing |
| `DeferredQueue.Queue.DrainAll` | `packages/rfed/src/deferred_queue.js:85-91` | The whole bucket, removed |
| `DeferredQueue.Queue.DrainFirst` | `packages/rfed/src/deferred_queue.js:99-107` | The first `max` items, the rest kept |
| `DeferredQueue.Queue.DrainChannel` | `packages/rfed/src/deferred_queue.js:119-138` | The first `max` items of a channel, the others kept in order |
| `DeferredQueue.Queue.SweepExpired` | `packages/rfed/src/deferred_queue.js:166-180` | Exactly the items at least as young as the threshold stay |
| `DeferredQueue.RunKeeps` | `packages/rfed/src/deferred_queue.js:66-180` | Across all operations the total stays within the global limit and no empty bucket is kept |
| `DeferredQueue.SplitIsFront` | `packages/rfed/src/deferred_queue.js:119-138` | A page is the front of the channel's items, of the size asked for or all there are; what is kept has the rest in order |
| `DeferredQueue.OtherChannelsStay` | `packages/rfed/src/deferred_queue.js:119-138` | A page leaves every other channel's subsequence as it was |
| `DeferredQueue.PullReturnsChannel` | `packages/rfed/src/deferred_queue.js:119-159` | Paging while the channel is pending ends and returns exactly its items, in order and each once, in full pages up to the last; all else stays |
| `Federation.EncodeBlobStream` | `packages/rfed/src/sync.js:51-74` | The encoding loop writes the records one behind the other |
| `Federation.DecodeBlobStream` | `packages/rfed/src/sync.js:83-111` | The decoding loop computes its specification on every byte string |
| `Federation.GapFromPeer` | `packages/rfed/src/sync.js:135-150` | The gap loop: subscribed, not held, each id once |
| `Federation.FitIsLongest` | `packages/rfed/src/sync.js:83-111` | The number of whole records in a truncation is the largest that fits |
| `Federation.DecodeTruncated` | `packages/rfed/src/sync.js:83-111` | Decoding any truncation of an encoded stream gives exactly the whole records in it |
| `Federation.DecodeEncode` | `packages/rfed/src/sync.js:51-111` | Decoding an encoded stream gives the records back |
| `Federation.GapIsSound` | `packages/rfed/src/sync.js:135-150` | The gap is exactly the peer's ids of subscribed channels not held here, each once |
| `Federation.Node.Serve` | `packages/rfed/src/node.js:1339-1380` | `_handleGet` with its budget period |
| `Federation.Node.Select` | `packages/rfed/src/node.js:1346-1378` | The serving loop stops at the first blob over a budget |
| `Federation.Node.SyncWithPeer` | `packages/rfed/src/node.js:1410-1450` | One sync round of two nodes, fan-out aside |
| `Federation.Node.IngestAll` | `packages/rfed/src/node.js:1439-1446` | What is not held is stored under the peer's id, and counted |
| `Federation.ServedWithinLimits` | `packages/rfed/src/node.js:1339-1380` | For every sequence of requests no response exceeds the transfer limit and no period the sync limit |
| `Federation.CollectIsFront` | `packages/rfed/src/node.js:1346-1378` | For known ids the response is the front of the list as the peer holds it, empty exactly when the first blob does not fit |
| `Federation.RoundTakesFront` | `packages/rfed/src/node.js:1410-1450` | A round stores the front of the gap with the peer's channel, id and bytes; the gap is then exactly the rest and all else is unchanged |
| `Federation.ShrinksIffFirstFits` | `packages/rfed/src/node.js:1355-1370` | The gap shrinks exactly when the first wanted blob fits both budgets |
| `Federation.ConvergesIffServable` | `packages/rfed/src/node.js:1410-1450` | Any number of rounds a period apart empties the gap exactly when every blob in it is within both limits and there are as many rounds as the gap has pages, each page taking as much of it in order as both limits allow |
| `Federation.PagesByBytes` | `packages/rfed/src/node.js:1355-1370` | Two pages in a row exceed the smaller limit, so the bytes of a gap bound its pages: all but one of them amount to half the limit |
| `Federation.EnoughRounds` | `packages/rfed/src/node.js:1410-1450` | Rounds whose limits add up to twice the bytes of a servable gap, and one more, empty it |
| `DeferredQueue.EnqueueKeepsNewest` | `packages/rfed/src/deferred_queue.js:66-78` | With room the new blob comes last and only the oldest of a full bucket goes; no other bucket changes |
| `DeferredQueue.SweepIsExact` | `packages/rfed/src/deferred_queue.js:166-180` | A sweep leaves of every bucket exactly the items young enough, in their order |
| `BlobStore.SweepIsExact` | `packages/rfed/src/blob_store.js:212-221` | A sweep leaves exactly the entries that have not expired |
| `MessageStore.Messages.Find` | `packages/lxmf/src/message_store.js:111-113` | The entry of an id |
| `MessageStore.Messages.Discard` | `packages/lxmf/src/message_store.js:138-145` | Removing takes the entry and its size |
| `MessageStore.Messages.MakeRoom` | `packages/lxmf/src/message_store.js:167-181` | Heaviest-first eviction while over the cap |
| `MessageStore.Messages.AddEntry` | `packages/lxmf/src/message_store.js:121-130` | A known id is refused, a new one added and the cap enforced |
| `MessageStore.Messages.SetHandled` | `packages/lxmf/src/message_store.js:264-271` | Handled for a peer, and no longer unhandled |
| `MessageStore.Messages.SetUnhandled` | `packages/lxmf/src/message_store.js:247-254` | Unhandled for a peer, and no longer handled |
| `MessageStore.Messages.ListUnhandled` | `packages/lxmf/src/message_store.js:307-323` | What a peer needs at its price, lightest first |
| `MessageStore.RankedAscends` | `packages/lxmf/src/message_store.js:307-323` | That order ascends by weight |
| `MessageStore.RankedAll` | `packages/lxmf/src/message_store.js:307-323` | That order loses nothing and repeats nothing |
| `MessageStore.CapacityFits` | `packages/lxmf/src/message_store.js:167-181` | After enforcing a cap the total is within it, whatever the weights |
| `MessageStore.EvictsHeaviestFront` | `packages/lxmf/src/message_store.js:167-181` | Enforcing a cap removes exactly the shortest heaviest-first front that brings the total within it, or everything |
| `MessageStore.RunKeeps` | `packages/lxmf/src/message_store.js:121-295` | Over every run: ids once, the byte total right, handled and unhandled disjoint |
| `PeerSync.ReplyIsExact` | `packages/lxmf/src/propagation_node.js:509-586` | An admitted offer is answered with exactly the ids the node has neither stored nor processed |
| `PeerSync.OfferWithinLimits` | `packages/lxmf/src/peer.js:280-301` | An offer stays below the sync limit and takes nothing above the transfer limit |
| `PeerSync.OfferMarks` | `packages/lxmf/src/peer.js:285-292` | What an offer marks handled is exactly the candidates above the transfer limit |
| `PeerSync.PeerLink.TryBegin` | `packages/lxmf/src/peer.js:187-241` | The gates of `sync` |
| `PeerSync.PeerLink.StartLink` | `packages/lxmf/src/peer.js:259-266` | The phase, and the backoff armed in advance |
| `PeerSync.PeerLink.SelectOffer` | `packages/lxmf/src/peer.js:280-301` | The offer loop |
| `PeerSync.PeerLink.MakeOffer` | `packages/lxmf/src/peer.js:274-311` | The offer, or the end of the sync when nothing is left to offer |
| `PeerSync.PeerLink.MarkAll` | `packages/lxmf/src/peer.js:390-392` | A list of ids marked handled |
| `PeerSync.PeerLink.ReadReply` | `packages/lxmf/src/peer.js:423-446` | `_interpretOfferResponse` |
| `PeerSync.PeerLink.OnReply` | `packages/lxmf/src/peer.js:322-353` | The reply: throttle, end, or transfer |
| `PeerSync.PeerLink.OnComplete` | `packages/lxmf/src/peer.js:390-402` | A completed transfer marks what was wanted |
| `PeerSync.StepKept` | `packages/lxmf/src/peer.js:187-446` | Every step of the two nodes keeps the peering invariant |
| `PeerSync.StepRemembers` | `packages/lxmf/src/propagation_node.js:350-405` | Every step keeps: what is stored or on offer is remembered, so what a container lacked when it was packed does not come back |
| `PeerSync.HandledIsExplained` | `packages/lxmf/src/peer.js:187-446` | Over every run with an honest peer, calls that do not overlap at the gates and a dedup cache that forgets nothing stored or on offer: handled only if the peer had processed it, a completed transfer carried it, or it exceeds the transfer limit; handled and unhandled disjoint |
| `PeerSync.ReplyMarks` | `packages/lxmf/src/peer.js:423-446` | A reply marks exactly the stored messages of the offer last made that it does not ask for, whichever call it answers |
| `PeerSync.CompletionMarks` | `packages/lxmf/src/peer.js:390-392` | A completed transfer marks exactly the stored messages that were wanted |
| `PeerSync.PruneMarksUncarried` | `packages/lxmf/src/propagation_node.js:275-286` | When the dedup cache forgets an id that is on offer, a run marks its message handled although the peer never had it and no transfer carried it |
| `PeerSync.MissingIsNotMarked` | `packages/lxmf/src/message_store.js:264-271` | Marking an id that is not in the store changes nothing |
| `PeerSync.OverlapMarksUnknown` | `packages/lxmf/src/peer.js:208-259` | When two calls pass the gates before either sets the phase, an honest reply marks a message handled that the peer never had |
| `PropagationNode.OfferGate.HandleOffer` | `packages/lxmf/src/propagation_node.js:509-586` | `handleOfferRequest` computes its specification for the asking peer and leaves other peers' throttles alone |
| `PropagationNode.OfferGate.Want` | `packages/lxmf/src/propagation_node.js:565-579` | The offered ids neither stored nor processed, in order |
| `PropagationNode.OfferGate.Throttle` | `packages/lxmf/src/propagation_node.js:224-229` | A peer throttled until a time |
| `PropagationNode.Ingestor.Arrive` | `packages/lxmf/src/propagation_node.js:313-328` | A batch begins |
| `PropagationNode.Ingestor.CheckNext` | `packages/lxmf/src/propagation_node.js:350-355` | The dedup check and claim, one step |
| `PropagationNode.Ingestor.Settle` | `packages/lxmf/src/propagation_node.js:357-405` | What becomes of a claimed blob |
| `PropagationNode.TakenAtMostOnce` | `packages/lxmf/src/propagation_node.js:350-405` | However batches interleave, whatever is evicted and pruned: as long as the store or the dedup cache knows it once it is taken, a message is stored or delivered at most once |
| `PropagationNode.TakenOnceBetweenPrunes` | `packages/lxmf/src/propagation_node.js:350-405` | Between dedup prunes, however batches interleave and whatever is evicted, a message is stored or delivered at most once |
| `PropagationNode.LostIsTakenAgain` | `packages/lxmf/src/propagation_node.js:350-405` | From every state in which neither knows it, a run takes the message once more |
| `PropagationNode.PrunedIsTakenTwice` | `packages/lxmf/src/propagation_node.js:313-318` | Pruned while stored and evicted later, a message is taken twice |
| `PeerSync.BackoffGrows` | `packages/lxmf/src/peer.js:259-266` | Each attempt that breaks before the link is up waits twelve minutes longer than the one before |
| `Ingress.IdleReadsZero` | `packages/core/src/interfaces/base.js:214-222` | An idle window of `n` samples reads zero after as many readings as it has samples to spare |
| `Ingress.LimitsUntilFourQuiet` | `packages/core/src/interfaces/base.js:891-921` | A latched burst limits every evaluation up to and including the fourth of the first four consecutive quiet ones past the hold, and is released by exactly that one |
| `Ingress.CooldownCounts` | `packages/core/src/interfaces/base.js:891-921` | Until then the cooldown is three less the quiet evaluations at the end |
| `Ingress.LimitsThroughHold` | `packages/core/src/interfaces/base.js:848-874` | A latched announce burst limits until its hold has passed |
| `Ingress.ReleasesSpaced` | `packages/core/src/interfaces/base.js:615-664` | Over every run: held announces within the cap, and releases more than the interval apart, or more than the penalty where that is shorter |
| `Ingress.ShortPenaltyCrowds` | `packages/core/src/interfaces/base.js:866-870` | With a penalty below the interval, for every distance above the penalty and up to the interval a run releases two announces exactly that far apart |
| `Ingress.ReleasedIsNearest` | `packages/core/src/interfaces/base.js:642-664` | A release is of an announce with the fewest hops, not before its time, and takes nothing else |
| `Ingress.Limiter.constructor` | `packages/core/src/interfaces/base.js:521-531` | Nothing latched, nothing held |
| `Ingress.Limiter.ShouldLimitPr` | `packages/core/src/interfaces/base.js:891-921` | `shouldIngressLimitPr` |
| `Ingress.Limiter.ShouldLimit` | `packages/core/src/interfaces/base.js:848-874` | `shouldIngressLimit` |
| `Ingress.Limiter.Hold` | `packages/core/src/interfaces/base.js:615-629` | `holdAnnounce` |
| `Ingress.Limiter.ProcessHeld` | `packages/core/src/interfaces/base.js:642-664` | `processHeldAnnounces` selects the first announce with the fewest hops |

## Left out

- `Zlib.InflateWithBounds`: buffers longer than `Zlib.MAX_INPUT`, 2^28 less 128 KiB bytes, where the source's bit position wraps, although a source call on a longer buffer still works while its stream ends before that; and inputs on which the decoder never returns, a precondition that `InflateReturns.NeverReturnsIff` makes exact. Both hold for `Pack.ParsePack`, `Resolve.ResolveWhole` and `Resolve.FattenPack` too.
- `InflateReturns.NeverReturnsIff`: for ever is meant with unbounded positions and memory; the source goes on at least until its output no longer fits or its position wraps at 2^32.
- `PackInverts.ParseInvertsBuild`: objects and the object count are below 2^31, and deflated objects below 2^28 bytes, where the JavaScript bit operators do not wrap; `deflate` is a parameter that emits well-formed streams, which `StoredDeflate.StoredDeflates` shows to be possible.
- `DeltaAccepts.AcceptsExactly`: a delta with a copy offset of 2^31 or more is covered by `Delta.ApplyDelta` only.
- `ResolveComplete.FattenPreserves`: object ids have no collisions, the store's objects have known types and are filed under their own ids, and deflated objects are below 2^28 bytes.
- `Resolve.SortObjects`: the library sort is modelled as stable insertion, and so are the sorts of the two message stores.
- `ResourceTransfer.TransferIsFaithful`: map hashes are pairwise distinct and each continuation arrives at most once; an advertisement is accepted once.
- `ResourceAgreement.Agreement`: the hash has no collisions, no two segments draw the same text and salt, each advertisement is finished at most once, and the payload is within the assembler's size cap.
- `Resource.ResourceReceiver.OnWindowDrained`: rates are compared as exact rationals, without floating-point rounding; all times and timeouts are exact too.
- `ResourceSender.ResourceUpload.CheckProof`: some salt among the attempts is free of collisions; the error after eight colliding salts is modelled only as the absence of a segment in `Resource.BuildIntegrityAndParts`.
- Sending a packet does not fail, and events, progress callbacks and logging are not modelled.
- SHA-256, SHA-1, HMAC, Ed25519, the link token, bz2 and msgpack are function parameters with the stated inverse or collision-freeness assumptions.
- `Ifac.SealPacket`: packets shorter than two octets, on which `seal` throws a range error; the key derivation from network name and passphrase.
- `Federation.ConvergesIffServable`: the peer's store is fixed, identifiers are 16 bytes, and nothing is evicted here during the rounds, which therefore lie within one time to live of 30 days: 721 rounds at the most.
- `Federation.Node.SyncWithPeer`: fan-out to subscribers and the link under the request.
- Loading and saving: `importRecords` may exceed the deferred queue's global limit and bypasses eviction.
- `PeerSync.HandledIsExplained`: calls of `sync` for one peer do not overlap between the gates and the phase change, and the peer is honest; the dedup cache knows what is stored at the start, which it does not after a restart; peering-key generation is a boolean input.
- `PropagationNode.TakenAtMostOnce`: stamp validation has already selected the blobs.
- `Ingress.LimitsUntilFourQuiet`: frequency readings are inputs; `Ingress.IdleReadsZero` is about how they are computed.
- Client downloads, propagation `/get`, announce handling, router fallback, interfaces and persistence would only add easy members.
