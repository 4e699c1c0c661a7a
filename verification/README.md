# Verification of the GreenChat client cores

A Dafny 4.11 model of the dependency-free protocol and codec modules of the client, with proofs about every run,
every input or every interleaving. `dafny verify dfyconfig.toml` checks the whole project.

What is modelled, hardest first:

- **QR encoder** (`FieldTheory`, `GaloisField`, `Polynomials`, `ReedSolomon`, `QrData`, `QrInterleave`, `QrFormat`,
  `QrCanvas`, `QrWalk`, `QrCapacity`, `QrCode`). The bytes are proved to be a field, the check symbols to make code
  words of full minimum distance, and the drawn matrix to be read back as the payload by a reader that is defined
  independently of the encoder. The encoder's function map is compared with ISO/IEC 18004:2015.
- **Durable events** (`SyncEngine`, `SyncRuns`, `SyncBarrier`, `SyncLosses`, `CacheSync`, `DurableDelivery`,
  `DurableCrash`). Socket, long poll and resync are steps of one state machine; the cache queue is a second one; the
  cursor theorems are about the two together.
- **Encrypted media** (`MediaCrypto`, `MediaCacheStore`, `MediaBarrier`, `MediaOrigin`, `MediaCarry`), over an ideal
  authenticated cipher: opening succeeds for logged encryptions only.
- **Encrypted store** (`StoreCodec`, `MemoryStore`, `EncryptedStore`, `StoreMigration`), a refinement of the plaintext
  store.
- **Lossless JSON** (`TdJson`, `TdJsonParser`, `TdJsonRoundTrip`, `TdJsonMarkers`).
- **Crash-consistent ledgers and queues**: `SessionLedger`; `OutboxQueue`, `OutboxRows`, `OutboxOnce`, `OutboxAgain`, `OutboxOpen`,
  `OutboxLocked`, `OutboxRuns`, `OutboxRunner`; `AccountCatalog`, `CatalogVault`, `AccountsController`; `PushRegistration`.
- **Retention** (`Retention`, `Pruning`).
- **Base64, scopes, sequences** (`Base64`, `ConnectorVault`, `Decimals`, `ConnectorGate`).

An asynchronous method is cut at its awaits: each stretch is a step, and a run is any sequence of steps. Where the
original changes fields, a class does so here, and each of its methods is proved to take the step that the runs are
made of. In the table such a method is marked as a helper of the theorems about those runs.

Where the code does not do what its comments or its standard say, it is modelled as it is, and the model states when
it does:

- From version 7 on the QR encoder skips alignment patterns centred on the timing lines (`QrCode.FunctionMapIsStandard`).
- A durable event can be lost: to the `next_since` of a poll page taken during a resync, and between the drain and the
  `finally` of one (`SyncLosses.LostToPage`, `SyncLosses.LostInGap`); in no other way but a seed or a cold-start hello
  (`SyncLosses.FaithfulIff`).
- Between two resumes the persisted cursor can stand above a lost event: when a failed reset is repeated, or an
  overtaken one fails, while a cursor write waits that passes the event, and when a reset removes the rows and not the
  cursor (`DurableCrash.EarlyRetryPasses`, `DurableCrash.TornReset`); the condition is exact
  (`DurableCrash.GuardIsExact`). A resume that the cache allows is always safe (`DurableDelivery.ResumeIsSafe`).
- An operation that waits to begin when the media cache is reset can carry an old record over the reset, and only such
  a one can (`MediaCarry.CarryIff`).
- An oversized newest blob is evicted unless it is alone (`MediaCacheStore.OversizedGoes`).
- A session row whose deletion fails silently is counted twice (`SessionLedger.FailedDeletionCountsTwice`).
- A message row without chat and id loses its files (`Retention.UnnamedRowLosesFile`).
- Fields named `__proto__` are lost by the TDLib parser and by the store codec (`TdJsonRoundTrip.KeysSurvive`,
  `StoreCodec.KeptWhole`), and so by the encrypted store and its migration (`EncryptedStore.StoredWhole`,
  `StoreMigration.RewriteKeepsView`).
- A plain object with `__tdInt64: true`, which the TDLib parser itself can return, is printed as the raw text of its
  value field (`TdJsonMarkers.MarkerPrintsRaw`, `TdJsonMarkers.ComesBackIff`).
- The account catalogue can be lost if the very first start is cut off (`CatalogVault.CutFirstStart`).
- An accepted outbox item can be requested again when its deletion is rejected or a retry races with it, and, under the
  lease or in a run without pauses, after no other step of the model (`OutboxAgain.RepeatIff`). Without the lease a pause
  before the deletion of its row is enough (`OutboxRuns.PauseRepeats`, `OutboxRuns.LateWrite`). After any run the items
  that can still be requested are known exactly (`OutboxOpen.OpenIff`).
- A locked app can get a row of the outbox into RAM, through the failure branch of a send or a retry
  (`OutboxRuns.LockedWithRow`, `OutboxLocked.LockedIff`).
- A second `stop()` of the push registration resolves at once, which may be too early (`PushRegistration.EarlySecondStop`,
  `PushRegistration.SecondStop`).
- After pruning, a chat row that names no chat can point at a removed message (`Retention.DanglingIff`).
- The vault's base64 reader, unlike the strict decoder, takes texts with bits set behind the last byte
  (`ConnectorVault.LooseTail`), and it reads up to five bytes more than the encoder writes back
  (`ConnectorVault.ReadNotWritten`); the condition is exact (`ConnectorVault.RewrittenIffCanonical`).

## Model

| member | source | states |
|---|---|---|
| `GaloisField.BytesField` | clients/ui/src/qr.ts:74-81 | the 256 bytes with exclusive or and the modelled product are a field: all field laws, inverses included |
| `GaloisField.PowersOfX` | clients/ui/src/qr.ts:77-92 | 2 has the powers that the divisor loop uses, and the modulus is x^8 = x^4 + x^3 + x^2 + 1 |
| `GaloisField.OrderOfX` | clients/ui/src/qr.ts:87-92 | 2^k differs from 1 for 0 < k < 255 |
| `GaloisField.PowersDiffer` | clients/ui/src/qr.ts:87-92 | 2 generates the field: its powers 2^0..2^254 are pairwise different |
| `Polynomials.Vandermonde` | clients/ui/src/qr.ts:97-106 | a sum of c_k x_k^i that vanishes for as many i as there are terms, with different x_k, has no nonzero coefficient |
| `Polynomials.MinimumDistance` | clients/ui/src/qr.ts:97-106 | over any field: two words that vanish at a^0..a^(d-1) and differ, differ in more than d places |
| `Polynomials.RemainderVanishes` | clients/ui/src/qr.ts:97-106 | data followed by the register vanishes wherever the divisor does, for any field and divisor |
| `Polynomials.GeneratorValue` | clients/ui/src/qr.ts:83-95 | the generator takes the value of the product of (x - a^i) at every point |
| `ReedSolomon.GfMultiply` | clients/ui/src/qr.ts:74-81 | the loop over nine-bit accumulators computes field multiplication |
| `ReedSolomon.MultiplyRegister` | clients/ui/src/qr.ts:88-91 | one round of the inner loop, in place, multiplies the register by (x + root) |
| `ReedSolomon.RsDivisor` | clients/ui/src/qr.ts:83-95 | the array left by both loops is the generator polynomial without its leading coefficient |
| `ReedSolomon.DivisorIsProduct` | clients/ui/src/qr.ts:83-95 | that polynomial is the product of (x - 2^i), i below the degree (section 7.5.2 of ISO/IEC 18004:2015) |
| `ReedSolomon.RsRemainder` | clients/ui/src/qr.ts:97-106 | the shift-register loop computes the check symbols |
| `ReedSolomon.DataWithCheckSymbols` | clients/ui/src/qr.ts:97-106 | data followed by its check symbols vanishes at 2^0..2^(degree-1), for all data and degrees |
| `ReedSolomon.CheckSymbolsUnique` | clients/ui/src/qr.ts:97-106 | no other symbols complete the data to a code word |
| `ReedSolomon.CodewordsDiffer` | clients/ui/src/qr.ts:97-106 | two different code words of equal length up to 255 differ in more than `degree` places |
| `ReedSolomon.NearestIsSent` | clients/ui/src/qr.ts:97-106 | with at most degree/2 wrong symbols the sent word is strictly nearer than any other code word |
| `QrData.Capacities` | clients/ui/src/qr.ts:42-50 | block tables and capacities of all ten versions agree with the standard's totals |
| `QrData.ChooseVersion` | clients/ui/src/qr.ts:52-59 | returns the smallest version the payload fits, and refuses exactly payloads over 213 bytes |
| `QrData.BitBuffer.Append` | clients/ui/src/qr.ts:26-29 | appends the value's bits, most significant first, and refuses exactly the fields it cannot hold |
| `QrData.BitBuffer.ToBytes` | clients/ui/src/qr.ts:30-39 | packs aligned bits into the bytes that have these bits, and refuses unaligned ones |
| `QrData.MakeDataCodewords` | clients/ui/src/qr.ts:61-72 | exactly for payloads that fit: mode, count, payload, terminator and alternating pads fill the capacity |
| `QrData.FillCodewords` | clients/ui/src/qr.ts:61-72 | the same for any count width and capacity |
| `QrData.RoomForTerminator` | clients/ui/src/qr.ts:67-68 | the terminator always has its four bits and leaves the stream aligned |
| `QrData.PadTo` | clients/ui/src/qr.ts:70-70 | pads with 0xec and 0x11 alternately up to the capacity |
| `QrData.PayloadReadBack` | clients/ui/src/qr.ts:61-72 | an independent reader gets the payload back from the code words |
| `QrInterleave.Partition` | clients/ui/src/qr.ts:109-118 | cuts the data into the blocks of the tables and computes each block's check symbols |
| `QrInterleave.InterleaveCodewords` | clients/ui/src/qr.ts:108-126 | emits the columns of the data blocks and then of the check blocks; refuses exactly data of the wrong length |
| `QrInterleave.PartsJoin` | clients/ui/src/qr.ts:113-119 | the blocks have the table's lengths and join to the data |
| `QrInterleave.InterleavedAt` | clients/ui/src/qr.ts:121-124 | word i of block b stands at its position, for ragged blocks too |
| `QrInterleave.InterleavedLength` | clients/ui/src/qr.ts:121-124 | as many words come out as the blocks hold |
| `QrInterleave.DeinterleaveInterleaved` | clients/ui/src/qr.ts:120-125 | de-interleaving any blocks by their lengths returns them |
| `QrInterleave.BlocksReadBack` | clients/ui/src/qr.ts:108-126 | the reader finds the data blocks, the check blocks and the data again |
| `QrInterleave.BlocksAreCodewords` | clients/ui/src/qr.ts:108-126 | every block the reader finds is a Reed-Solomon code word of its length |
| `QrFormat.FormatBits` | clients/ui/src/qr.ts:128-133 | the loop computes the masked format word of level M and the mask |
| `QrFormat.VersionBits` | clients/ui/src/qr.ts:135-139 | the loop computes the version word |
| `QrFormat.FormatWordsAreCodewords` | clients/ui/src/qr.ts:128-133 | the format words, unmasked, are multiples of the BCH generator 0x537 that begin with the data bits |
| `QrFormat.VersionWordsAreCodewords` | clients/ui/src/qr.ts:135-139 | the version words are multiples of the Golay generator 0x1f25 that begin with the version |
| `QrFormat.FormatWordsFarApart` | clients/ui/src/qr.ts:128-133 | two masks' format words differ in at least seven of the fifteen bits |
| `QrCanvas.Canvas.SetFunction` | clients/ui/src/qr.ts:202-206 | writes one module and marks it, and nothing else; off the matrix it does nothing |
| `QrCanvas.Canvas.DrawTiming` | clients/ui/src/qr.ts:213-216 | marks and paints exactly the timing lines |
| `QrCanvas.Canvas.DrawFinder` | clients/ui/src/qr.ts:207-212 | marks and paints exactly a finder with its separator, cut at the border |
| `QrCanvas.Canvas.DrawFinders` | clients/ui/src/qr.ts:217-219 | the three finders over the timing lines |
| `QrCanvas.Canvas.DrawAlignments` | clients/ui/src/qr.ts:220-225 | draws exactly the alignment patterns whose centre is still free |
| `QrCanvas.Canvas.MarkFormat` | clients/ui/src/qr.ts:226-237 | marks exactly the two format areas and the dark module |
| `QrCanvas.Canvas.DrawVersion` | clients/ui/src/qr.ts:238-247 | paints both copies of the version word from version 7 on |
| `QrCanvas.Canvas.DrawPatterns` | clients/ui/src/qr.ts:199-247 | all drawing together gives the closed form of function map and ink |
| `QrCanvas.DrawFormat` | clients/ui/src/qr.ts:184-196 | writes both copies of the format word and the dark module, and touches only format modules |
| `QrWalk.WalkVisitsOnce` | clients/ui/src/qr.ts:248-263 | for any map: the zig-zag walk visits every free module outside column 6, and visits it once |
| `QrWalk.PlaceStream` | clients/ui/src/qr.ts:248-263 | the placement loops put bit k of the stream into the k-th cell of the walk and change no other module |
| `QrCapacity.RoomForWords` | clients/ui/src/qr.ts:199-263 | in every version the walk has room for all code words |
| `QrCode.SelectMask` | clients/ui/src/qr.ts:264-276 | the result is the symbol of a mask with the least score among the eight |
| `QrCode.BuildMatrix` | clients/ui/src/qr.ts:198-277 | the matrix is the symbol of the stream under the chosen mask |
| `QrCode.SymbolDetermined` | clients/ui/src/qr.ts:198-277 | patterns and walk reach every module: stream and mask fix the whole symbol |
| `QrCode.MaskReadBack` | clients/ui/src/qr.ts:184-196 | both copies of the format word give the mask |
| `QrCode.WordsReadBack` | clients/ui/src/qr.ts:248-271 | unmasking and walking again returns the stream |
| `QrCode.SymbolReadBack` | clients/ui/src/qr.ts:198-277 | the reader gets the payload from every symbol of it, under any of the eight masks |
| `QrCode.EncodeQrMatrix` | clients/ui/src/qr.ts:279-283 | encodes exactly the payloads of at most 213 bytes, and what it draws reads back as the payload |
| `QrCode.FunctionMapIsStandard` | clients/ui/src/qr.ts:213-247 | the function modules are those of ISO/IEC 18004 if and only if the version is at most 6 |
| `QrCode.SkippedAlignment` | clients/ui/src/qr.ts:220-221 | for versions 7 to 10, a module that the standard reserves and the encoder fills with data |
| `QrCode.StandardUpTo106` | clients/ui/src/qr.ts:52-59 | the condition on the version is a payload of at most 106 bytes |
| `SyncEngine.Engine.Seed` | clients/core/src/sync.ts:107-117 | helper of SyncRuns.InvRun and SyncLosses.FaithfulIff, exactly a step of its runs: monotone while running, exact while stopped |
| `SyncEngine.Engine.OnHello` | clients/core/src/sync.ts:163-175 | helper of SyncRuns.InvRun and SyncLosses.FaithfulIff, exactly a step of its runs: a hello starts or joins a resync, or seeds a cold cursor |
| `SyncEngine.Engine.OnWsState` | clients/core/src/sync.ts:177-188 | helper of SyncRuns.InvRun and SyncLosses.FaithfulIff, exactly a step of its runs: the open socket cancels polling, any other state ensures it |
| `SyncEngine.Engine.StartEngine` | clients/core/src/sync.ts:135-144 | helper of SyncRuns.InvRun and SyncLosses.FaithfulIff, exactly a step of its runs: start of a lifecycle |
| `SyncEngine.Engine.StopEngine` | clients/core/src/sync.ts:146-156 | helper of SyncRuns.InvRun and SyncLosses.FaithfulIff, exactly a step of its runs: stop invalidates polls and resyncs and empties head and buffer |
| `SyncEngine.Engine.ApplyEvent` | clients/core/src/sync.ts:193-199 | helper of SyncRuns.InvRun and SyncLosses.FaithfulIff, exactly a step of its runs: durable events are buffered during a resync |
| `SyncEngine.Engine.ApplyEventNow` | clients/core/src/sync.ts:201-214 | helper of SyncRuns.InvRun and SyncLosses.FaithfulIff, exactly a step of its runs: drops what the cursor has passed, else delivers the event and then the cursor |
| `SyncEngine.Engine.HandleResync` | clients/core/src/sync.ts:219-259 | helper of SyncRuns.InvRun and SyncLosses.FaithfulIff, exactly a step of its runs: keeps the newest head, joins the resync in flight or starts one |
| `SyncEngine.Engine.OnResyncReturned` | clients/core/src/sync.ts:232-254 | helper of SyncRuns.InvRun and SyncLosses.FaithfulIff, exactly a step of its runs: failure, stop, a newer head, or acknowledgement and drain |
| `SyncEngine.Engine.OnResyncWoke` | clients/core/src/sync.ts:234-237 | helper of SyncRuns.InvRun and SyncLosses.FaithfulIff, exactly a step of its runs: after the back-off the loop begins again |
| `SyncEngine.Engine.OnResyncSettled` | clients/core/src/sync.ts:255-257 | helper of SyncRuns.InvRun and SyncLosses.FaithfulIff, exactly a step of its runs: the `finally` clears only its own flight |
| `SyncEngine.Engine.StartPolling` | clients/core/src/sync.ts:262-268 | helper of SyncRuns.InvRun and SyncLosses.FaithfulIff, exactly a step of its runs: one loop at a time, under a new generation |
| `SyncEngine.Engine.PollLoopGuard` | clients/core/src/sync.ts:271-277 | helper of SyncRuns.InvRun and SyncLosses.FaithfulIff, exactly a step of its runs: the loop goes on or ends |
| `SyncEngine.Engine.OnPollReplied` | clients/core/src/sync.ts:278-292 | helper of SyncRuns.InvRun and SyncLosses.FaithfulIff, exactly a step of its runs: a superseded page is dropped, a resync page awaited, events applied and next_since adopted |
| `SyncEngine.Engine.OnPollFailed` | clients/core/src/sync.ts:293-298 | helper of SyncRuns.InvRun and SyncLosses.FaithfulIff, exactly a step of its runs: a superseded failure ends the loop, another one backs off |
| `SyncRuns.InvRun` | clients/core/src/sync.ts:56-302 | one invariant of buffer, head, flights and loops holds after every run of steps |
| `SyncRuns.RunAppends` | clients/core/src/sync.ts:193-260 | every run appends outputs in cursor order |
| `SyncRuns.DurableEventsIncrease` | clients/core/src/sync.ts:193-260 | each durable event delivered is above every event delivered and cursor acknowledged before it, over both transports and all resyncs |
| `SyncBarrier.DrainIsExact` | clients/core/src/sync.ts:242-253 | the acknowledging step emits the head if it is news, then exactly the buffered events above the running cursor in order, and leaves buffer and head empty |
| `SyncBarrier.BarrierHolds` | clients/core/src/sync.ts:193-260 | while a resync is in flight a durable event is delivered only by the acknowledging step, and the cursor moves in that step and in a jump, and in no other: a current poll page with next_since above it, a cold-start hello, a seed |
| `SyncBarrier.HeadIsNewest` | clients/core/src/sync.ts:219-252 | the head acknowledged is the newest one signalled since the last acknowledgement or stop |
| `SyncBarrier.AcknowledgesOnlyAhead` | clients/core/src/sync.ts:239-259 | only the resync in flight, before its drain, acknowledges |
| `SyncBarrier.AheadStays` | clients/core/src/sync.ts:232-259 | a drain ahead stays ahead until it comes or the engine stops |
| `SyncLosses.FaithfulIff` | clients/core/src/sync.ts:193-302 | in every run: each event that waits has a drain ahead and no step but the drain moves the cursor past it, if and only if no durable event arrives after the drain of its flight and no jump during a flight lands on or past one that waits |
| `SyncLosses.ArrivalResolved` | clients/core/src/sync.ts:193-214 | a durable event received above the cursor is delivered at once, or passed by an earlier event of its page, or begins to wait |
| `SyncLosses.EveryEventAccounted` | clients/core/src/sync.ts:193-260 | in such a run every durable event received above the cursor is delivered, or passed by an earlier one, or covered by an acknowledged head, or given up by stop with the cursor below it, or waits with a drain ahead |
| `SyncLosses.LostForGood` | clients/core/src/sync.ts:201-214 | an event that the cursor has passed while it waited is not delivered in any later run |
| `SyncLosses.LostToPage` | clients/core/src/sync.ts:287-292 | a run from the initial state: a page taken during a resync moves the cursor past the event it has just buffered, and the drain drops it |
| `SyncLosses.LostInGap` | clients/core/src/sync.ts:249-258 | a run from the initial state: a page taken between drain and `finally` leaves its event in the buffer of a flight that is over |
| `CacheSync.Store.Apply` | clients/core/src/cache.ts:73-87 | helper of DurableDelivery.ResumeIsSafe and DurableCrash.GuardIsExact, exactly a step of its runs: enqueues a cache write |
| `CacheSync.Store.SetCursor` | clients/core/src/cache.ts:232-239 | helper of DurableDelivery.ResumeIsSafe and DurableCrash.GuardIsExact, exactly a step of its runs: enqueues a cursor write |
| `CacheSync.Store.Reset` | clients/core/src/cache.ts:97-121 | helper of DurableDelivery.ResumeIsSafe and DurableCrash.GuardIsExact, exactly a step of its runs: enqueues the clearing behind what is queued and starts a new epoch |
| `CacheSync.Store.BeginTask` | clients/core/src/cache.ts:241-250 | helper of DurableDelivery.ResumeIsSafe and DurableCrash.GuardIsExact, exactly a step of its runs: tasks run one at a time in the order of the calls; a failed reset refuses them |
| `CacheSync.Store.EndTask` | clients/core/src/cache.ts:74-85 | helper of DurableDelivery.ResumeIsSafe and DurableCrash.GuardIsExact, exactly a step of its runs: a failed write blocks the cursor at the lowest failed number; a cursor write stops below it |
| `CacheSync.Store.GetCursor` | clients/core/src/cache.ts:252-266 | the persisted cursor once the queue has drained |
| `DurableDelivery.ResumeIsSafe` | clients/core/src/cache.ts:73-121 | engine, queue and store together, whatever fails and however early a failed reset is repeated: a session resumes at the persisted cursor, which is below every delivered event that was lost, and every delivered event up to it has its row |
| `DurableCrash.CursorIsSafe` | clients/core/src/cache.ts:73-121 | the same of the persisted cursor at every step of every guarded run |
| `DurableCrash.GuardIsExact` | clients/core/src/cache.ts:97-121 | after any guarded run and for any next action: the persisted cursor is or can come to stand at or above a lost event before another reset ends, if and only if the action is unguarded: a failed reset repeated, or an overtaken one failing, while an unblocked cursor write at or above a lost event waits ahead of the next reset, or a reset that removes written rows and not the cursor |
| `DurableCrash.EarlyRetryPasses` | clients/core/src/cache.ts:97-121 | a run from a seeded session in which a failed reset is repeated too early and the cursor lands on a lost event |
| `DurableCrash.TornReset` | clients/core/src/cache.ts:101-116 | a reset that clears the rows and fails to delete the cursor leaves the cursor at an event without its row |
| `DurableCrash.WrittenAndAcknowledged` | clients/core/src/cache.ts:73-87 | one event and its number reach such a state from a seeded session |
| `MediaCrypto.AadInjective` | clients/core/src/media_crypto.ts:89-95 | the associated data fixes file id, index and count, whatever characters the id has |
| `MediaCrypto.EncryptMediaBlob` | clients/core/src/media_crypto.ts:97-135 | the loops fill the array with header and sealed chunks; refuses exactly bad keys and too many chunks |
| `MediaCrypto.DecryptMediaBlob` | clients/core/src/media_crypto.ts:137-183 | all header checks in their order, then chunk by chunk |
| `MediaCrypto.RoundTrip` | clients/core/src/media_crypto.ts:97-183 | every plaintext, of length 0 and of whole chunks too, is returned |
| `MediaCrypto.OnlyContainersOpen` | clients/core/src/media_crypto.ts:137-183 | a box that opens is, byte for byte, a container written under this key for this file |
| `MediaCrypto.AcceptedIffWritten` | clients/core/src/media_crypto.ts:137-183 | acceptance with a result holds if and only if an encryption of that plaintext produced the box |
| `MediaCacheStore.EnvelopeOpens` | clients/core/src/media_cache.ts:485-504 | an envelope opens to a content type and payload if and only if it was made from them |
| `MediaCacheStore.SealEnvelope` | clients/core/src/media_cache.ts:485-493 | length prefix, type and payload in place; refuses exactly types over 65535 bytes |
| `MediaCacheStore.OpenEnvelope` | clients/core/src/media_cache.ts:495-504 | the checks and slices of the reader |
| `MediaCacheStore.ServedIffSealed` | clients/core/src/media_cache.ts:364-396 | a stored box is served as type and payload if and only if it is a sealed envelope of them for this key and file |
| `MediaCacheStore.SortByAge` | clients/core/src/media_cache.ts:469-469 | a stable sort, oldest first |
| `MediaCacheStore.Media.EvictToLimit` | clients/core/src/media_cache.ts:463-478 | removes the least oldest-first prefix that meets the budget, nothing if one record is present |
| `MediaCacheStore.OversizedGoes` | clients/core/src/media_cache.ts:461-477 | a newest blob over the budget is removed, with all others, whenever it is not alone; the comment in the code says it is kept |
| `MediaBarrier.Barrier.ResetAccount` | clients/core/src/media_cache.ts:131-152 | helper of MediaBarrier.RunFenced, exactly a step of its runs: new epoch; the active operations are the ones to wait for |
| `MediaBarrier.Barrier.OperationContext` | clients/core/src/media_cache.ts:154-158 | helper of MediaBarrier.RunFenced, exactly a step of its runs: reports the failure of the last reset, else takes the epoch |
| `MediaBarrier.Barrier.TrackOperation` | clients/core/src/media_cache.ts:164-169 | helper of MediaBarrier.RunFenced, exactly a step of its runs: the operation becomes active |
| `MediaBarrier.Barrier.Request` | clients/core/src/media_cache.ts:160-162 | helper of MediaBarrier.RunFenced, exactly a step of its runs: every write is behind the epoch check |
| `MediaBarrier.Barrier.RequestAnswered` | clients/core/src/media_cache.ts:208-217 | helper of MediaBarrier.RunFenced, exactly a step of its runs: the request takes effect; the operation goes on if the epoch is current |
| `MediaBarrier.Barrier.RequestRejected` | clients/core/src/media_cache.ts:450-455 | helper of MediaBarrier.RunFenced, exactly a step of its runs: the request has no effect; the operation goes on if the epoch is current |
| `MediaBarrier.Barrier.ResetProceeds` | clients/core/src/media_cache.ts:139-142 | helper of MediaBarrier.RunFenced, exactly a step of its runs: a superseded reset does not clear |
| `MediaBarrier.Barrier.StoreCleared` | clients/core/src/media_cache.ts:143-148 | helper of MediaBarrier.RunFenced, exactly a step of its runs: the store is empty, or the failure is kept |
| `MediaBarrier.RunFenced` | clients/core/src/media_cache.ts:131-169 | over all interleavings of operations and resets: after a reset has cleared, no record written under an earlier epoch is present or ever appears |
| `MediaOrigin.CalmRunClean` | clients/core/src/media_cache.ts:131-158 | if no operation is waiting to begin whenever reset() is called, nothing obtained before a cleared reset is stored, and nothing of it is handed out |
| `MediaCarry.CarryIff` | clients/core/src/media_cache.ts:131-158 | after any run, with operations active and earlier resets unsettled too: bytes from before a reset called now can be stored once it has cleared the store, if and only if an operation waits to begin and a record is stored or its write is under way |
| `MediaCarry.CarryReached` | clients/core/src/media_cache.ts:131-158 | such a state is reached from an empty cache |
| `TdJsonParser.ParseTdJsonLossless` | clients/core/src/telegram_tdlib.ts:104-221 | the moving index of the recursive descent computes the grammar's parse, and terminates |
| `TdJsonParser.Parser.StringLiteral` | clients/core/src/telegram_tdlib.ts:145-163 | scans to the closing quote and decodes the literal |
| `TdJsonParser.Parser.NumberToken` | clients/core/src/telegram_tdlib.ts:165-175 | takes the longest number token; integers stay text |
| `TdJsonParser.Parser.ReadValue` | clients/core/src/telegram_tdlib.ts:124-143 | the dispatch on the first character |
| `TdJsonParser.Parser.ReadArray` | clients/core/src/telegram_tdlib.ts:177-193 | array syntax |
| `TdJsonParser.Parser.ReadObject` | clients/core/src/telegram_tdlib.ts:195-217 | object syntax; a later field of the same name wins |
| `TdJsonRoundTrip.UnescapeEscaped` | clients/core/src/telegram_tdlib.ts:77-91 | every string survives quoting and decoding |
| `TdJsonRoundTrip.TokenMatched` | clients/core/src/telegram_tdlib.ts:165-171 | a number token is matched whole before any text that does not continue it |
| `TdJsonRoundTrip.ValueParsed` | clients/core/src/telegram_tdlib.ts:73-221 | parsing a printed value, in which no object carries `__tdInt64: true`, before any legal follower consumes exactly the printed text |
| `TdJsonRoundTrip.ParserUndoesPrinter` | clients/core/src/telegram_tdlib.ts:73-221 | parsing what was printed of such a value returns it, integers as canonical text, undefined and `__proto__` fields dropped |
| `TdJsonRoundTrip.KeysSurvive` | clients/core/src/telegram_tdlib.ts:195-217 | such an object comes back with exactly its keys if and only if none is `__proto__` |
| `TdJsonMarkers.ComesBackIff` | clients/core/src/telegram_tdlib.ts:68-221 | a printed value and everything inside it come back exactly, if and only if no object inside carries `__tdInt64: true` and none has a field `__proto__` |
| `TdJsonMarkers.MarkerLost` | clients/core/src/telegram_tdlib.ts:68-77 | an object that carries `__tdInt64: true` never comes back, whatever its value field is |
| `TdJsonMarkers.ProtoLost` | clients/core/src/telegram_tdlib.ts:195-217 | a printed object with a field `__proto__` never comes back |
| `TdJsonMarkers.MarkerPrintsRaw` | clients/core/src/telegram_tdlib.ts:68-77 | the plain object {"__tdInt64": true, "value": "x"} is printed as the bare letter x, which does not parse |
| `SessionLedger.StoredIsValid` | clients/core/src/session_quality.ts:146-158 | what is stored passes the check made on reading |
| `SessionLedger.RemoveRow` | clients/core/src/session_quality.ts:364-364 | deleting a row keeps the ledger conserved if and only if its id is listed or there is no such row |
| `SessionLedger.StrikeIds` | clients/core/src/session_quality.ts:365-367 | striking ids keeps it conserved if and only if none of them has a row left |
| `SessionLedger.CommitKeeps` | clients/core/src/session_quality.ts:467-476 | writing the acknowledgement moves the covered rows from waiting to counted at once |
| `SessionLedger.PostKeeps` | clients/core/src/session_quality.ts:423-439 | the request posts nothing twice |
| `SessionLedger.ServerNeverAhead` | clients/core/src/session_quality.ts:450-461 | the server-ahead branch is not taken |
| `SessionLedger.RecordKeeps` | clients/core/src/session_quality.ts:262-277 | a recorded session waits |
| `SessionLedger.RequestSurvives` | clients/core/src/session_quality.ts:422-440 | a session recorded during the request leaves it exact |
| `SessionLedger.Sessions.Record` | clients/core/src/session_quality.ts:262-277 | one write; not recorded if it fails |
| `SessionLedger.Sessions.Reconcile` | clients/core/src/session_quality.ts:360-369 | with a crash before any operation and failing writes: stays conserved, and when smooth deletes exactly the listed rows and empties the list |
| `SessionLedger.Sessions.BeginFlush` | clients/core/src/session_quality.ts:371-421 | the request covers exactly the waiting rows |
| `SessionLedger.Sessions.FinishFlush` | clients/core/src/session_quality.ts:442-483 | conserved at every crash point; when smooth exactly the snapshot's rows and ids are gone and the total is raised |
| `SessionLedger.Sessions.Heal` | clients/core/src/session_quality.ts:452-460 | the stored totals are raised to the server's |
| `SessionLedger.Sessions.Flush` | clients/core/src/session_quality.ts:371-492 | no session is lost or counted twice wherever a crash comes; a smooth answered flush leaves no row and a server that has counted all |
| `SessionLedger.FailedDeletionCountsTwice` | clients/core/src/session_quality.ts:364-367 | a row whose deletion failed silently is counted twice once its id is struck |
| `Pruning.ScanMessages` | clients/core/src/retention.ts:363-390 | the message pass collects removals, files and remaining rows exactly |
| `Pruning.NewestMessage` | clients/core/src/retention.ts:154-161 | a row with the greatest id |
| `Pruning.ScanChats` | clients/core/src/retention.ts:392-430 | the chat pass drops, repoints or keeps each row |
| `Pruning.ScanMedia` | clients/core/src/retention.ts:432-485 | the ownership pass drops owners, removes and retains files exactly as the modes say |
| `Pruning.DropStale` | clients/core/src/retention.ts:487-492 | exactly the entries without a blob go |
| `Pruning.LocalCache.DeleteFiles` | clients/core/src/retention.ts:494-502 | exactly the files removed and not retained go, from blobs, records and index |
| `Pruning.LocalCache.Prune` | clients/core/src/retention.ts:340-510 | the three passes and the batch leave the state the policy describes |
| `Retention.NoExpiredMessages` | clients/core/src/retention.ts:340-510 | read off the closed form that Pruning.LocalCache.Prune establishes: after a full prune no message of a cloud-only chat and none before its cutoff is left |
| `Retention.NoCloudOnlyChats` | clients/core/src/retention.ts:340-510 | read off the closed form that Pruning.LocalCache.Prune establishes: no chat row of a cloud-only chat is left |
| `Retention.FileLostIff` | clients/core/src/retention.ts:340-510 | a file loses its blob and its record if and only if a row that goes reaches it or its own age removes it, no row that is left reaches it under a chat or an id, and the age of its blob does not hold it |
| `Retention.ReachableFilesStay` | clients/core/src/retention.ts:136-152 | so every file reachable from a surviving chat row, or from a surviving message row with a chat or an id, keeps blob and record |
| `Retention.UnnamedRowLosesFile` | clients/core/src/retention.ts:370-376 | a message row with neither chat nor id stays and loses its file |
| `Retention.DanglingIff` | clients/core/src/retention.ts:392-430 | messages being stored under their ids, a surviving chat points at a removed message if and only if it did before and the pass skipped it, its row naming no chat or not the one to prune |
| `Retention.NoDanglingPointer` | clients/core/src/retention.ts:340-510 | so no surviving chat that names itself does after a full prune |
| `Retention.IndexHasBlobs` | clients/core/src/retention.ts:340-510 | read off the closed form that Pruning.LocalCache.Prune establishes: every ownership entry has a blob and an owner |
| `Retention.OtherChatsUntouched` | clients/core/src/retention.ts:373-376 | read off the closed form that Pruning.LocalCache.Prune establishes: pruning one chat leaves the rows of the others |
| `PushRegistration.Registration.Reconcile` | clients/core/src/push.ts:111-128 | helper of PushRegistration.ServerAgrees, exactly a step of its runs: the loop up to its next request |
| `PushRegistration.Registration.EndRound` | clients/core/src/push.ts:148-152 | helper of PushRegistration.ServerAgrees, exactly a step of its runs: the end of a round |
| `PushRegistration.Registration.OnSubscribed` | clients/core/src/push.ts:130-152 | helper of PushRegistration.ServerAgrees, exactly a step of its runs: refused, stopped, stale, replaced or settled |
| `PushRegistration.Registration.OnUnsubscribed` | clients/core/src/push.ts:89-95 | helper of PushRegistration.ServerAgrees, exactly a step of its runs: the request reached the server |
| `PushRegistration.Registration.OnSettled` | clients/core/src/push.ts:155-166 | helper of PushRegistration.ServerAgrees, exactly a step of its runs: the `finally` and its rescheduling |
| `PushRegistration.Registration.SetDesired` | clients/core/src/push.ts:168-178 | helper of PushRegistration.ServerAgrees, exactly a step of its runs: a token change |
| `PushRegistration.Registration.Stop` | clients/core/src/push.ts:194-200 | helper of PushRegistration.ServerAgrees, exactly a step of its runs: stop raises the revision and waits |
| `PushRegistration.Registration.FinishStop` | clients/core/src/push.ts:201-203 | helper of PushRegistration.ServerAgrees, exactly a step of its runs: what is left is unsubscribed |
| `PushRegistration.Registration.OnCleared` | clients/core/src/push.ts:201-205 | helper of PushRegistration.ServerAgrees, exactly a step of its runs: stop has resolved |
| `PushRegistration.ServerAgrees` | clients/core/src/push.ts:111-207 | in every run: with no reconcile running the server has exactly the current endpoint and current is desired unless the last subscribe failed; after the first stop() has resolved it has none; never more than two |
| `PushRegistration.SecondStop` | clients/core/src/push.ts:194-206 | when the first stop() resolves the server is cleared for good; a second one resolves at once, and then the server is cleared for good if and only if it has nothing and no subscribe is on its way |
| `PushRegistration.EarlySecondStop` | clients/core/src/push.ts:194-206 | a second stop() that resolves while the server still has the endpoint |
| `PushRegistration.StoppedMayTrail` | clients/core/src/push.ts:136-139 | between the two halves of a stop, current may name an endpoint the server no longer has |
| `StoreCodec.DecodesBack` | clients/core/src/encrypted_store.ts:196-251 | decoding an encoded value returns it at any depth, the tag used as a key included, but for `__proto__` fields |
| `StoreCodec.KeptWhole` | clients/core/src/encrypted_store.ts:196-251 | the round trip is exact if and only if no object has a field named `__proto__` |
| `MemoryStore.Store.Get` | clients/core/src/store.ts:111-114 | the stored row |
| `MemoryStore.Store.PutRow` | clients/core/src/store.ts:116-119 | replaces one row of one collection |
| `MemoryStore.Store.DeleteRow` | clients/core/src/store.ts:121-124 | removes one row of one collection |
| `MemoryStore.Store.Clear` | clients/core/src/store.ts:159-162 | empties one collection |
| `MemoryStore.Store.Entries` | clients/core/src/store.ts:126-131 | all rows in key order |
| `MemoryStore.Store.Scan` | clients/core/src/store.ts:133-144 | order, then reverse, then the field filter, then the limit |
| `MemoryStore.Store.Batch` | clients/core/src/store.ts:146-157 | the copy-on-write staging has the effect of the operations one after another |
| `EncryptedStore.AadInjective` | clients/core/src/encrypted_store.ts:166-172 | no two slots share their associated data, not even those of 5 and "5" |
| `EncryptedStore.SealOpens` | clients/core/src/encrypted_store.ts:322-359 | a sealed value opens in its slot as what the codec keeps of it |
| `EncryptedStore.StoredWhole` | clients/core/src/encrypted_store.ts:373-378 | the store keeps exactly what it is given if and only if no field is named `__proto__` |
| `EncryptedStore.ViewAllApplied` | clients/core/src/encrypted_store.ts:469-482 | a batch on cells shows what the batch on values does |
| `EncryptedStore.ViewListed` | clients/core/src/encrypted_store.ts:384-400 | rows are listed in the plaintext order |
| `EncryptedStore.ReadsView` | clients/core/src/encrypted_store.ts:361-371 | a sound store reads like the plaintext store it shows |
| `EncryptedStore.ListsView` | clients/core/src/encrypted_store.ts:384-400 | and lists like it |
| `EncryptedStore.MediaScan` | clients/core/src/encrypted_store.ts:445-445 | media pass through |
| `EncryptedStore.HistoryAgrees` | clients/core/src/encrypted_store.ts:361-486 | over any history of batches, puts, deletions and clearings, from any sound store: it stays sound, and every slot reads as in a plaintext store with the same history |
| `EncryptedStore.Encrypted.Get` | clients/core/src/encrypted_store.ts:361-371 | locked, missing, shown, or reported as damaged; without a key what is read bare |
| `EncryptedStore.Encrypted.PutRow` | clients/core/src/encrypted_store.ts:373-378 | one row of what is shown is replaced; refused values change nothing; without a key the value is stored as it is |
| `EncryptedStore.Encrypted.DeleteRow` | clients/core/src/encrypted_store.ts:380-382 | one row of what is shown is removed |
| `EncryptedStore.Encrypted.Entries` | clients/core/src/encrypted_store.ts:384-400 | all rows, or the report of an unsound one; without a key all bare rows, or the first report |
| `EncryptedStore.Encrypted.Scan` | clients/core/src/encrypted_store.ts:444-467 | filter and limit on opened values give the plaintext scan; an unsound row is reported; without a key the same of bare rows |
| `EncryptedStore.Encrypted.Batch` | clients/core/src/encrypted_store.ts:469-482 | all sealed first: the plaintext batch on what is shown, or nothing at all; without a key the plaintext batch |
| `EncryptedStore.Encrypted.Clear` | clients/core/src/encrypted_store.ts:484-486 | one collection of what is shown is emptied |
| `StoreMigration.PreparePlaintextMigrationOps` | clients/core/src/encrypted_store.ts:408-431 | seals exactly the plain rows, refuses exactly stores with a blocking row, and prepares nothing when nothing is plain |
| `StoreMigration.AssertFullyEncryptedAtRest` | clients/core/src/encrypted_store.ts:433-442 | passes if and only if no plain row and no foreign envelope is left |
| `StoreMigration.RewriteKeepsView` | clients/core/src/encrypted_store.ts:408-442 | after the prepared batch nothing is plain, and to a reader that refuses plaintext everything shows as before if and only if no plain row has a field named `__proto__` |
| `StoreMigration.RewrittenStaysDone` | clients/core/src/encrypted_store.ts:404-407 | after it a second preparation has nothing to do and nothing blocks |
| `AccountCatalog.ParseAccounts` | clients/core/src/telegram_accounts.ts:174-188 | the loop with its two sets accepts exactly readable accounts with unique slots and ids |
| `AccountCatalog.Reparses` | clients/core/src/telegram_accounts.ts:165-204 | every valid catalogue reads back as itself |
| `AccountCatalog.EncodingDiffers` | clients/core/src/telegram_accounts.ts:202-204 | two valid catalogues with the same document are the same |
| `AccountCatalog.EditedValid` | clients/core/src/telegram_accounts.ts:278-283 | adding, selecting, removing and identifying save a valid catalogue of the next revision |
| `AccountCatalog.RolledBackValid` | clients/core/src/telegram_accounts.ts:287-289 | so does the rollback of an added account |
| `AccountCatalog.OthersKept` | clients/core/src/telegram_accounts.ts:355-361 | no edit loses or changes an account it is not about |
| `AccountsController.ChooseSlot` | clients/core/src/telegram_accounts.ts:272-276 | the first free of four draws |
| `AccountsController.Controller.EnsureCatalog` | clients/core/src/telegram_accounts.ts:503-548 | helper of CatalogVault.RunRecovers, exactly a step of its runs: newest valid replica, conflict, corruption, first write, repair |
| `AccountsController.Controller.SaveCatalog` | clients/core/src/telegram_accounts.ts:550-558 | helper of CatalogVault.RunRecovers, exactly a step of its runs: the key by parity; memory changes only after the write |
| `AccountsController.Controller.AddAccount` | clients/core/src/telegram_accounts.ts:266-298 | helper of CatalogVault.RunRecovers, exactly a step of its runs: the limit, the draw, the save and the rollback |
| `AccountsController.Controller.SelectAccount` | clients/core/src/telegram_accounts.ts:300-316 | helper of CatalogVault.RunRecovers, exactly a step of its runs: saved only after activation |
| `AccountsController.Controller.RemoveActive` | clients/core/src/telegram_accounts.ts:345-366 | helper of CatalogVault.RunRecovers, exactly a step of its runs: the first remaining account is selected |
| `AccountsController.Controller.Identified` | clients/core/src/telegram_accounts.ts:676-714 | helper of CatalogVault.RunRecovers, exactly a step of its runs: the id is noted, or a duplicate login dropped |
| `CatalogVault.RunRecovers` | clients/core/src/telegram_accounts.ts:503-558 | in every run with torn, lost or late writes, crashes and failed repairs: a start finds exactly the last saved catalogue or the one whose bytes landed, never a conflict or corruption |
| `CatalogVault.AcknowledgedSurvives` | clients/core/src/telegram_accounts.ts:503-558 | an acknowledged save outlives any crashes, starts and repairs |
| `CatalogVault.FirstStart` | clients/core/src/telegram_accounts.ts:521-529 | two acknowledged first writes establish the invariant |
| `CatalogVault.TornSaveSurvived` | clients/core/src/telegram_accounts.ts:550-554 | a torn save is survived if and only if the other key holds the catalogue in memory |
| `CatalogVault.CutFirstStart` | clients/core/src/telegram_accounts.ts:528-539 | a first start cut off between its writes, a failed repair and a torn save lose the catalogue |
| `OutboxRunner.Outbox.PauseQueue` | clients/core/src/outbox.ts:117-128 | helper of OutboxQueue.RequestsInOrder and OutboxOpen.OpenIff, exactly a step of its runs: pause |
| `OutboxRunner.Outbox.ScheduleSend` | clients/core/src/outbox.ts:353-362 | helper of OutboxQueue.RequestsInOrder and OutboxOpen.OpenIff, exactly a step of its runs: chained behind the tail of the chat |
| `OutboxRunner.Outbox.CancelItem` | clients/core/src/outbox.ts:218-225 | helper of OutboxQueue.RequestsInOrder and OutboxOpen.OpenIff, exactly a step of its runs: only a queued item, from both planes |
| `OutboxRunner.Outbox.BeginSend` | clients/core/src/outbox.ts:364-367 | helper of OutboxQueue.RequestsInOrder and OutboxOpen.OpenIff, exactly a step of its runs: the first guard |
| `OutboxRunner.Outbox.ClaimSend` | clients/core/src/outbox.ts:366-370 | helper of OutboxQueue.RequestsInOrder and OutboxOpen.OpenIff, exactly a step of its runs: the lease, and the guard under it |
| `OutboxRunner.Outbox.AfterRead` | clients/core/src/outbox.ts:371-378 | helper of OutboxQueue.RequestsInOrder and OutboxOpen.OpenIff, exactly a step of its runs: gone, sent, held, rejected, or marked as sending |
| `OutboxRunner.Outbox.AfterWrite` | clients/core/src/outbox.ts:378-380 | helper of OutboxQueue.RequestsInOrder and OutboxOpen.OpenIff, exactly a step of its runs: rejected, or the last guard before the request |
| `OutboxRunner.Outbox.AfterAnswer` | clients/core/src/outbox.ts:386-400 | helper of OutboxQueue.RequestsInOrder and OutboxOpen.OpenIff, exactly a step of its runs: stale, accepted or failed |
| `OutboxRunner.Outbox.AfterRemoval` | clients/core/src/outbox.ts:394-403 | helper of OutboxQueue.RequestsInOrder and OutboxOpen.OpenIff, exactly a step of its runs: the accepted row is deleted, or the rejected deletion is handled as a failed request |
| `OutboxRunner.Outbox.AfterReread` | clients/core/src/outbox.ts:403-405 | helper of OutboxQueue.RequestsInOrder and OutboxOpen.OpenIff, exactly a step of its runs: a failed item is noted unless it is gone |
| `OutboxRunner.Outbox.AfterFailureWrite` | clients/core/src/outbox.ts:405-406 | helper of OutboxQueue.RequestsInOrder and OutboxOpen.OpenIff, exactly a step of its runs: the failure is stored, unless the store rejects it |
| `OutboxRunner.Outbox.CallRetry` | clients/core/src/outbox.ts:228-230 | helper of OutboxQueue.RequestsInOrder and OutboxOpen.OpenIff, exactly a step of its runs: the guard and the start of the read |
| `OutboxRunner.Outbox.AfterRetryRead` | clients/core/src/outbox.ts:230-234 | helper of OutboxQueue.RequestsInOrder and OutboxOpen.OpenIff, exactly a step of its runs: gone, on its way, rejected, or marked as queued again |
| `OutboxRunner.Outbox.AfterRetryWrite` | clients/core/src/outbox.ts:234-236 | helper of OutboxQueue.RequestsInOrder and OutboxOpen.OpenIff, exactly a step of its runs: written back and scheduled, unless the store rejects it |
| `OutboxRunner.Outbox.ApplyPersistencePolicy` | clients/core/src/outbox.ts:135-151 | both loops give the closed form, and from disjoint planes a reader sees the same items after every single write |
| `OutboxRunner.PolicyKeepsView` | clients/core/src/outbox.ts:135-151 | the merged items stay as they are if and only if no row leaving the disk is in RAM in another state |
| `OutboxRunner.PolicyPlaces` | clients/core/src/outbox.ts:135-151 | from disjoint planes every item ends in the plane the policy names, and only there |
| `OutboxQueue.RequestsInOrder` | clients/core/src/outbox.ts:353-411 | over all interleavings: per chat and generation at most one request on the wire, each send once, in scheduling order |
| `OutboxQueue.IssuedLive` | clients/core/src/outbox.ts:364-380 | a request is issued only by a send of the current generation while running |
| `OutboxQueue.PauseSilences` | clients/core/src/outbox.ts:117-128 | no send scheduled before a pause ever issues a request |
| `OutboxQueue.PausedSilent` | clients/core/src/outbox.ts:117-128 | nothing is issued while paused |
| `OutboxRows.RunObeys` | clients/core/src/outbox.ts:153-171 | whatever holds of each row at the start and is not touched by a new status holds of every row in every run, in RAM, on disk or carried by a send or a retry |
| `OutboxOnce.AcceptedOnce` | clients/core/src/outbox.ts:364-411 | under the lease through any pauses, and without it in a run without pauses (OpenIff says what a pause adds): an accepted item that no rejected deletion and no retry has brought back is never requested again, however often it is scheduled and retried |
| `OutboxAgain.RepeatIff` | clients/core/src/outbox.ts:228-411 | under the lease, and without it while nothing pauses, after any run in which nothing has brought an accepted item back: it can be requested again after the next step, if and only if that step is the rejected deletion of its row or a retry that writes the row back |
| `OutboxOpen.SpentForGood` | clients/core/src/outbox.ts:353-411 | an item with no row, and no send or retry of which can still write or request one, stays so and is never requested, whatever follows |
| `OutboxOpen.OpenIff` | clients/core/src/outbox.ts:108-411 | after any run with pauses, retries and rejected store operations, with the lease or without it: an item can be requested, even with no new retry, and without the lease even with no rejected deletion, if and only if a row of it is in RAM or on disk, or a send or retry of it still carries one that it can write or request |
| `OutboxRuns.RejectedDeletion` | clients/core/src/outbox.ts:391-406 | a run without pause or retry, with the lease or without it: the deletion of an accepted row is rejected, and the item can be requested again |
| `OutboxRuns.PauseRepeats` | clients/core/src/outbox.ts:117-128 | without the lease: from the acceptance to the deletion of the row a pause and a new send repeat the request, and nothing does without a pause |
| `OutboxRuns.RacingRetry` | clients/core/src/outbox.ts:228-237 | a run in which a retry reads the row before the send is accepted and writes it back after its deletion |
| `OutboxRuns.LateWrite` | clients/core/src/outbox.ts:366-380 | without the lease: a pause and a store that answers a write late repeat a request after the deletion, too |
| `OutboxLocked.LockedIff` | clients/core/src/outbox.ts:117-128 | a pause empties RAM; it stays empty until the next resume, unless a failed send rereads or a retry reads a row that belongs in RAM only: one it has found, one on disk (for a retry: not marked as sending), or one that a write under way will put there; if and only if |
| `OutboxRuns.LockedWithRow` | clients/core/src/outbox.ts:402-406 | such a run: the pause comes between the failure of a request and the reading of its row |
| `ConnectorGate.CompareConnectorSequence` | clients/core/src/connectors.ts:433-445 | refuses non-canonical numerals and computes the length-then-text order |
| `ConnectorGate.ComparesNumbers` | clients/core/src/connectors.ts:424-445 | that order is the order of the numbers, for numerals of any length |
| `ConnectorGate.EventGate.Accept` | clients/core/src/connectors.ts:463-485 | refused for its sequence, its account or its key, or stale, duplicate or applied, with trimming |
| `ConnectorGate.EventGate.Reset` | clients/core/src/connectors.ts:487-490 | an empty gate |
| `ConnectorGate.SeenIsRecent` | clients/core/src/connectors.ts:463-485 | what is remembered is exactly the keys of the last applied events, at most max, in order |
| `ConnectorGate.GateIsOrdered` | clients/core/src/connectors.ts:447-491 | in every run applied numbers strictly increase, and a key is applied twice only with at least max others between |
| `Base64.DecodeB64` | clients/core/src/config_verify.ts:45-71 | the loop over a wrapping 32-bit accumulator computes the strict decoding |
| `Base64.RoundKeeps` | clients/core/src/config_verify.ts:59-67 | whatever is shifted out, the bits waiting in the accumulator are the right ones |
| `Base64.DecodesExactly` | clients/core/src/config_verify.ts:45-71 | accepts a text if and only if it is the encoding of the bytes, padded or bare; so no text is ambiguous (RFC 4648, sections 3.5, 4 and 5) |
| `Base64.EncodedDecodes` | clients/core/src/config_verify.ts:45-71 | both forms of every encoding decode |
| `Base64.BytesToBase64` | clients/core/src/connector_vault.ts:92-108 | the packing loop writes the encoding; refuses exactly over-long secrets |
| `ConnectorVault.Base64ToBytes` | clients/core/src/connector_vault.ts:114-138 | shape, length and groups |
| `ConnectorVault.VaultRoundTrip` | clients/core/src/connector_vault.ts:92-138 | exactly the secrets of allowed length are written, and what is written is read back |
| `ConnectorVault.EncodedRead` | clients/core/src/connector_vault.ts:114-138 | the reader takes the encoding of a secret if and only if it has at most 65541 bytes |
| `ConnectorVault.ReadNotWritten` | clients/core/src/connector_vault.ts:93-115 | the encoding of 65537 to 65541 bytes is read, and those bytes are refused when they are written back |
| `ConnectorVault.RewrittenIffCanonical` | clients/core/src/connector_vault.ts:92-138 | the encoder answers the bytes of an accepted text with that text, if and only if no bit is set behind the last byte and length and padding stand for at most 65536 bytes |
| `ConnectorVault.LooseTail` | clients/core/src/connector_vault.ts:114-138 | "AA==" and "AB==" are both accepted, with the same byte |
| `ConnectorVault.ScopeStringInjective` | clients/core/src/connector_vault.ts:42-52 | the length-prefixed scope string fixes all its fields |

## Left out

Whole parts:

- HTTP, sockets, IndexedDB, `localStorage`, service workers and locks: environment steps that succeed, fail or come in any order.
- Cryptographic primitives and key derivation: an ideal authenticated cipher and given keys.
- Text encoding: the QR payload, media content types and secrets are bytes; the associated data are strings.
- SVG output and the penalty score of the QR encoder: the score is a parameter, and any score is allowed.
- Connection manager, endpoints, proof of work, API and socket classes: single guards that would only add easy members.
- Telegram runtimes, RPC and unread counts: activation, release and wiping of a runtime are parameters that succeed or fail.
- Clocks, timers and back-off lengths: a step may come later.
- Sorting of the outbox list by creation time, and the messages, edits and deletions themselves: an item is a payload with a status.
- Consent, heartbeats, markers and the expiry of session groups; groups do not interact, and one is modelled.
- `sortKeys` of the configuration check: it would only add an easy member.

Statements weaker than, or beside, what a reader might expect:

- SyncEngine.Engine.OnPollReplied: reachability of the poll and the socket's own cursor are not modelled, and callbacks do not re-enter the engine.
- CacheSync.Store.Apply: the contents of the cached rows are abstract; a write succeeds or is lost as a whole, and a reset clears both collections of rows or neither.
- DurableCrash.CursorIsSafe: for guarded runs; the lemma beside it shows that the guard is exact.
- SyncLosses.FaithfulIff: a step of the socket may come at any point of a run, also between drain and `finally`, where in the original only the continuation of a page can.
- TdJsonRoundTrip.ParserUndoesPrinter: numbers are tokens with an oracle for finiteness; what the language makes of a marker whose value field is not a string is an error of the model's printer.
- SessionLedger.Sessions.Record: for counts below the daily cap; the branch that drops rows at the cap is then not reached.
- PushRegistration.ServerAgrees: requests take effect when they are answered, unsubscribing always reaches the server, and a failed subscribe has no effect; the answer of a second stop() is the subject of PushRegistration.SecondStop.
- Pruning.LocalCache.Prune: one step. The original ends the pass if the memory of the cache is reset meanwhile, not if a policy changes; and a media record noted during its awaits is overwritten by the final assignment of the index.
- Retention.DanglingIff: for messages stored under their own ids, as the cache stores them.
- Retention.NoDanglingPointer: for chat rows that name a chat, by a field or by their key; Retention.DanglingIff is about all of them.
- EncryptedStore.HistoryAgrees: the plaintext store it is compared with refuses the values that the codec refuses.
- TdJsonMarkers.ComesBackIff: assigning an object to `__proto__` makes it the prototype of the parsed object, which can then inherit `__tdInt64` and be printed raw; the model only drops the field, and such an object does not come back either way.
- OutboxOnce.AcceptedOnce: without the lease for runs without pauses; OutboxOpen.OpenIff is about all runs.
- OutboxLocked.LockedIff: timers, callbacks and copies of a row held by a send are no part of RAM here; the policy does not change while the app is locked.
- StoreCodec.DecodesBack: negative zero and invalid dates are not values of the model.
- MemoryStore.Store.Entries: the comparison of keys is not modelled; their order is a parameter that lists each key once.
- AccountCatalog.Reparses: JSON text is taken as the JSON value it denotes.
- CatalogVault.RunRecovers: a write that is cut off leaves the old bytes, the new bytes or bytes that are no document; a wipe is not modelled.
- OutboxRunner.Outbox.ApplyPersistencePolicy: runs alone; other operations between its writes, and a send or a retry that races with it, are not modelled.
- OutboxRunner.Outbox.CancelItem: one step; a cancellation that races a send is not modelled.
- OutboxQueue.RequestsInOrder: adding an item is one step, and a rejected store operation has no effect on the store.
- MediaBarrier.Barrier.Request: an operation is any sequence of guarded requests, of which reading, touching, migrating, storing and evicting are instances.
- MediaCacheStore.Media.EvictToLimit: runs within one epoch; its epoch checks are those of the barrier.
- ConnectorVault.Base64ToBytes: characterised by the sextets of its body; ConnectorVault.RewrittenIffCanonical says when it is the inverse of the encoder.
