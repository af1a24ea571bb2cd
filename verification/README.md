# Heyaki data services: a verified model

Four parts of Heyaki, a peer-to-peer node written in C++, modelled in Dafny 4.11 with their main
promises proved. `dafny verify dfyconfig.toml` checks the whole project.

**Byte streams** (`src/client/byte_stream.cpp`, `.hpp`). Multiplexed two-way streams under a dual
window of bytes and frames, with half-close, deadlines, reset, and a gateway mode that strips a
two-byte prelude.

- `StreamModel` has one end of a stream as a value and each operation on it as a function.
  `ByteStreamHandle` and `ByteStreamService` have the same operations as methods that update
  objects in place; each method is proved equal to its function.
- What the session answers to an offered frame is a script of verdicts (admitted, would block,
  failed). Every statement about runs holds for every script.
- `StreamRuns` proves what every step keeps, against any peer. `StreamLedger`, with `Submissions` and
  `ReadBoundaries`, ties completions and frames to the calls the caller made and the payloads that
  came; `CallRefusals`, `Deadlines`, `ResetCauses` and `ConnectOutcomes` say which calls are refused,
  when a sweep acts, which steps reset a stream and what a dial is told.
- `StreamTheorems`, `HalfClose`, `SubmissionOrder`, `PeerReads`, `LossyNetwork`, `ReliableLink`,
  `LinkProgress`, `FrameCredit` and `Stall` draw the consequences for one end, for two ends over a
  network that drops, duplicates and reorders, and for two ends over the session's own channel, where
  DATA stays in order and control frames stay in order but may overtake DATA.

**Event fan-out** (`src/client/event_service.cpp`). `EventModel` has the publisher's staging queues
and the subscriber's sequence check as functions, `EventService` as an object. `EventSource`,
`EventOutcome`, `EventDelivery`, `EventAccounting`, `EventCounters` and `EventConflict` prove the
bounds, which subscriptions an event reaches and what publish reports about it, the end-to-end order,
what the counters add up to and when a subscription ends as a conflict.

**File staging and resume** (`src/client/file_store.cpp`, `file_service.cpp`). `ResumeSidecar` is the
sidecar codec and `StagingFile` the positional writes and chunk assembly. `ReceiverNode` is a receiver
with its blocking tasks (store and record a chunk, clean up, commit, sweep), which may die and come
back between any two bytes it writes and between any two files it removes. `NodeTasks` bounds the
tasks under way, `ResumeSafety` says when its claims are backed, `CommitIntegrity` when what it
commits is the source, and `TransferRuns` has whole transfers.

**Release manifest** (`apps/release/heyaki_release_sign.cpp`). `Manifest` has the printer and the
parser with an exact account of what the parser accepts, and `ReleaseCheck` the merge of manifest
and directory listing.

## Where a promise fails

The model does what the code does. These promises turned out false, and the exact condition is proved:

- **Frame credit is not conserved.** An update reports how the remaining frame window changed, not
  the frames that were freed, and the first one counts from zero. Two honest ends can therefore run
  into a window reset (`HonestSenderReset`); DATA resets a live receiver exactly when its frame window
  is used up or a prelude is broken (`HonestResets`). In the other direction, unless a grant wraps
  around 2^32, a direction carries at most twice its frame window of DATA frames in its whole life
  (`FrameBudget`), and a reader that reads each frame at once never causes a wrap (`PromptReader`).
- **A FIN overtakes the bytes before it.** FIN is a control frame and DATA is bulk, so writing and
  then half-closing can make the FIN arrive first, and the receiver resets (`WriteThenHalfClose`). A
  FIN resets a live receiver exactly when bytes sent before it have not been taken yet
  (`FinNeedsAll`), and on the session's channel exactly when DATA is still in flight
  (`HonestFinResets`).
- **The first grant is not retried.** If the session refuses it, the opener never sends a byte
  (`LostGrant`); if it is admitted, the opener gets the whole window once it arrives (`GrantArrives`).
- **Prelude bytes are not given back.** A gateway initiator reads something only if its window is
  larger than two bytes (`SmallWindowStalls`, `LargerWindowFlows`).
- **Half-closing disturbs the other direction.** The header calls FIN a half-close, but a peer's FIN
  cancels the queued writes exactly when nothing is buffered (`PeerFin`). A FIN of our own cancels the
  waiting reads: from shutdown_write exactly when nothing is queued and the session admits it
  (`LocalFin`), and behind queued writes exactly when the last of them is admitted, whatever the
  session then answers to the FIN, or when the session fails on a DATA frame before it (`QueuedFin`).
- **A FIN can be lost.** The header says a FIN follows all pending bytes. For a FIN behind queued
  writes, and for each thing that can happen next, the exact condition for losing it is
  `QueuedFinFate`; a FIN that shutdown_write offers at once is lost exactly when the session refuses
  it (`ShutdownFate`). A lost FIN never comes back, so a run has lost it exactly when one of its steps
  met that condition (`FinFates`). `FinLostReachable` has two such runs: a write deadline and a
  peer's FIN.
- **A write can be cut short on the wire.** A write whose deadline passes after part of it was sent
  leaves that part, and the next write follows it (`CutShort`). What the peer reads is always a prefix
  of what the submitted writes moved, joined in the order of the calls, and a prefix of the submitted
  data itself if no write failed midway (`PeerReadsSubmitted`).
- **A prefix subscription conflicts with itself**, because sequences are counted per topic and checked
  per subscription. An item of an honest publisher can end a subscription as a conflict exactly when
  it is a prefix subscription (`ConflictExact`, `TwoTopicsConflict`).
- **A resumed transfer can skip chunks it does not have.** Giving up, committing and the orphan sweep
  take the staging file before the sidecar, and the next manifest believes the sidecar
  (`ResumedWithoutChunk`); a chunk sent again during the verification leaves a staging file and a
  sidecar that do not fit (`ChunkDuringVerify`). Every bitmap a manifest restores, every receive whose
  commit has not taken the file and every task claims only chunks that are there, in all states of a
  run, exactly when each step is careful (`ClaimsAreBacked`): the staging file goes only while nothing
  in memory but the receive being committed claims a chunk, that receive is given no further chunk,
  and no manifest reads a sidecar left behind, unless what they claim is in the file. While there is
  no staging file that means: unless they claim nothing else (`CarefulWithout`). The ordinary transfer
  is careful from the first chunk to the commit (`OrdinaryTransfer`). A death between the two removals
  does harm exactly when the sidecar claimed a chunk (`DeathBetween`), and none if the sidecar goes
  first (`SidecarFirst`).
- **A verified file is not always the file that is committed.** If a receive fails while its commit is
  between digest check and rename, the cleanup takes the file, a new receive starts it again, and the
  old commit renames the new, partial one (`VerifyRace`). What is committed is the source, whatever else
  happens, exactly when no other task takes the staging file in that gap (`CommitsAreSource`).
- **Back-pressure is not always retried.** A comment leaves a refused DATA frame to "the next event".
  A live stream with writes queued and both credits was stopped by back-pressure and nothing else
  (`OnlyBackPressure`), but after shutdown_write only a WINDOW_UPDATE sends again (`OnlyUpdatesMove`),
  and with nothing in flight none will come: one such answer can stop a direction for ever
  (`StallReachable`, `NeverMoves`).
- **A printed manifest parses back exactly when every path is safe and has no newline**
  (`ManifestRoundTrip`). The parser also accepts leading zeros in the count and any character between
  digest and path, and nothing else (`ParserExact`).

## Model

| member | source | states |
|---|---|---|
| `ByteStreamObject.ByteStreamHandle.constructor` | src/client/byte_stream.cpp:151-164 | a new end has its whole window free and no credit, or, when serving, the credit of the OPEN and its own window offered |
| `ByteStreamObject.ByteStreamHandle.CancelPending` | src/client/byte_stream.cpp:1026-1044 | every pending read, then every pending write, is completed in queue order, writes with their admitted prefix; both queues end empty |
| `ByteStreamObject.ByteStreamHandle.FinishStream` | src/client/byte_stream.cpp:1009-1044 | the terminal state, the connect outcome and the cancellations of a finished stream |
| `ByteStreamObject.ByteStreamHandle.ResetWith` | src/client/byte_stream.cpp:994-1007 | the peer is told once, whatever the session answers, and the stream is reset |
| `ByteStreamObject.ByteStreamHandle.Fail` | src/client/byte_stream.cpp:510-535 | session loss resets the stream and completes everything pending with the loss |
| `ByteStreamObject.ByteStreamHandle.TryDispatchReads` | src/client/byte_stream.cpp:290-320 | the loop serves reads until one has to wait, with clean ends only at the final offset; how much each read gets is `CallsAnswered` |
| `ByteStreamObject.ByteStreamHandle.PumpWrites` | src/client/byte_stream.cpp:1065-1127 | the nested loops turn queued writes into DATA while credit and admission last, then the queued FIN |
| `ByteStreamObject.ByteStreamHandle.SendFront` | src/client/byte_stream.cpp:1069-1106 | the inner loop stops for credit or back-pressure, or fails the write and the stream, or sends the whole front write |
| `ByteStreamObject.ByteStreamHandle.TakePreludeBytes` | src/client/byte_stream.cpp:850-881 | the prelude takes the bytes it still lacks and the rest is deliverable |
| `ByteStreamObject.ByteStreamHandle.AcceptPayload` | src/client/byte_stream.cpp:842-891 | an in-window payload is charged in full, buffered, read from, and the end of stream settled |
| `ByteStreamObject.ByteStreamHandle.HandleData` | src/client/byte_stream.cpp:810-892 | the order of the checks: terminal, length, duplicate, gap, dual window, then acceptance |
| `ByteStreamObject.ByteStreamHandle.HandleWindowUpdate` | src/client/byte_stream.cpp:925-943 | stale updates are ignored, impossible ones reset, others add their credit with the frame sum capped |
| `ByteStreamObject.ByteStreamHandle.HandleFin` | src/client/byte_stream.cpp:945-971 | a FIN off the next offset resets; otherwise reads are served and an empty buffer ends the direction |
| `ByteStreamObject.ByteStreamHandle.HandleReset` | src/client/byte_stream.cpp:973-992 | the reason, if there is one, is recorded and the stream reset; a repeated RESET changes nothing |
| `ByteStreamObject.ByteStreamHandle.AsyncReadSome` | src/client/byte_stream.cpp:194-211 | the refusals in order, else the read is queued and served |
| `ByteStreamObject.ByteStreamHandle.PendingBytes` | src/client/byte_stream.cpp:227-228 | the loop sums the unsent bytes of the queued writes |
| `ByteStreamObject.ByteStreamHandle.AsyncWriteAll` | src/client/byte_stream.cpp:213-240 | the refusals in order, else the write is queued and pumped; that its bytes are the submitted ones is `SentIsSubmitted` |
| `ByteStreamObject.ByteStreamHandle.Shutdown` | src/client/byte_stream.cpp:244-268 | FIN at once, or marked on the last queued write; reports failure exactly when it may not or the session refuses |
| `ByteStreamObject.ByteStreamHandle.ResetStream` | src/client/byte_stream.cpp:270-273 | a local reset, idempotent on ended streams |
| `ByteStreamObject.ByteStreamHandle.SweepReads` | src/client/byte_stream.cpp:554-566 | the erase loop completes the expired reads in order and keeps the others in order |
| `ByteStreamObject.ByteStreamHandle.SweepWrites` | src/client/byte_stream.cpp:567-577 | the erase loop completes the expired writes with their admitted prefix and keeps the others |
| `ByteStreamObject.ByteStreamHandle.Sweep` | src/client/byte_stream.cpp:545-578 | one stream's share of the sweep, and whether its dial deadline has passed; when that is, `DialDeadline` and `OperationDeadlines` say |
| `ByteStreamMultiplexer.ByteStreamService.constructor` | src/client/byte_stream.cpp:346-348 | a new service has no streams |
| `ByteStreamMultiplexer.ByteStreamService.ResetAndRemove` | src/client/byte_stream.cpp:994-1062 | a reset stream leaves the map, every other stream is untouched |
| `ByteStreamMultiplexer.ByteStreamService.SweepStreams` | src/client/byte_stream.cpp:544-578 | every registered stream is swept once and the expired dials are collected |
| `ByteStreamMultiplexer.ByteStreamService.CheckDeadlines` | src/client/byte_stream.cpp:539-584 | the late dials leave the map, and each stream object ends up as its own deadline check says: swept and, if late, reset with the deadline reason |
| `ByteStreamMultiplexer.ByteStreamService.Apply` | src/client/byte_stream.cpp:1045-1062 | the addressed stream object takes the step, also when that ends it and it leaves the map; no other changes |
| `ByteStreamMultiplexer.ByteStreamService.Write` | src/client/byte_stream.cpp:213-242 | a queued write is followed by the sweep of all streams, a refused one is not |
| `ByteStreamMultiplexer.ByteStreamService.Open` | src/client/byte_stream.cpp:394-485 | both local opens: all refusals leave the map alone, success registers a fresh object |
| `ByteStreamMultiplexer.ByteStreamService.HandleOpen` | src/client/byte_stream.cpp:646-792 | a known id resets that stream object and removes it; bad windows, gateway faults, limit and channel refusals in order; else a served stream; no other object changes |
| `ByteStreamMultiplexer.ByteStreamService.AddInbound` | src/client/byte_stream.cpp:734-791 | the stream is registered with the OPEN's credit and offered the local window, or withdrawn and refused without a handler |
| `ByteStreamMultiplexer.ByteStreamService.AdmitFrame` | src/client/byte_stream.cpp:622-644 | the sweep, then the frame: what becomes of every stream object, removed ones included |
| `ByteStreamMultiplexer.ByteStreamService.FailStreams` | src/client/byte_stream.cpp:510-537 | every stream object is failed and the map emptied |
| `StreamRuns.AcceptMoves` | src/client/byte_stream.cpp:842-891 | an in-window payload is appended whole to prelude, reads and buffer, unless it completes a broken prelude, and every invariant is kept |
| `StreamRuns.UpdateMoves` | src/client/byte_stream.cpp:925-943 | an update is stale, fatal, or adds exactly its bytes to all the credit ever received |
| `StreamRuns.FinMoves` | src/client/byte_stream.cpp:945-971 | a FIN sets the end and takes no bytes; at the wrong offset it resets |
| `StreamRuns.DeliverMoves` | src/client/byte_stream.cpp:810-992 | any frame from any peer keeps the invariants; only DATA adds bytes, only FIN sets the end, only updates add credit |
| `StreamRuns.LocalLeads` | src/client/byte_stream.cpp:194-273 | no local call takes anything from the peer or from the credit history |
| `StreamRuns.RunMoves` | src/client/byte_stream.cpp:194-1127 | every run keeps window, send-side, completion and lifecycle invariants and only extends the wire |
| `ReceiveWindow.UpdatePrompt` | src/client/byte_stream.cpp:322-344 | unless an update was refused, less than max(1, W/4) consumed bytes are unreported after every served read |
| `StreamTheorems.ReceiverBound` | src/client/byte_stream.cpp:304-343 | in every run buffered bytes equal the chunk lengths and fit the byte window, chunks fit the frame window, and neither replenishment cap binds |
| `StreamTheorems.ExactlyOnceCompletion` | src/client/byte_stream.cpp:275-320 | every submitted operation is pending or completed exactly once; completed and pending write bytes add up to the send offset, read bytes to the consumed offset |
| `StreamTheorems.NoneLeftPending` | src/client/byte_stream.cpp:1009-1044 | every step into closed or reset leaves nothing pending |
| `StreamTheorems.ClosedIsIdle` | src/client/byte_stream.cpp:290-302 | between two ends that only exchange what they sent, nothing is ever pending on an ended stream |
| `StreamTheorems.PendingLimits` | src/client/byte_stream.cpp:204-236 | in every run both queues and the write backlog stay within their limits |
| `StreamTheorems.LifecycleSafety` | src/client/byte_stream.cpp:1009-1063 | states only move forward, closed and reset are absorbing, the connect handler runs at most once and has run when the stream ended |
| `StreamTheorems.GatewayTransparency` | src/client/byte_stream.cpp:845-886 | over any network, data and connect success need two zero bytes first, and reads yield the peer's stream without them |
| `StreamTheorems.SmallWindowStalls` | src/client/byte_stream.cpp:842-858 | an initiator with a window of at most two bytes never reads a byte |
| `StreamTheorems.LargerWindowFlows` | src/client/byte_stream.cpp:842-886 | with any larger window a byte can be read |
| `StreamTheorems.PumpExhausts` | src/client/byte_stream.cpp:1065-1127 | on a session that admits, the pump stops only with nothing queued or one of the credits used up |
| `StreamLedger.CallsAnswered` | src/client/byte_stream.cpp:194-344 | in every run against any peer operation `id` is call number `id`: a read was given at most its buffer, a write was told a prefix of its data and all of it unless it failed, queued operations are the submitted ones, both kinds move bytes in call order; a read that gave bytes filled its buffer or stopped where a received payload stopped; every window update offered grants a quarter of the window or follows a drained one |
| `SubmissionOrder.SentIsSubmitted` | src/client/byte_stream.cpp:235-239 | in every run the bytes on the wire are prefixes of the submitted writes joined in the order of the calls: of a completed write what it was told, of a pending one what it has sent |
| `PeerReads.PeerReadsSubmitted` | src/client/byte_stream.cpp:213-320 | over any network and in both directions, what one end read is a prefix of what the other end's submitted writes moved, in call order, and of their whole data if none failed midway |
| `PeerReads.CutShort` | src/client/byte_stream.cpp:567-577 | a run in which a write is cut by its deadline and the next one follows it on the wire |
| `Deadlines.DialDeadline` | src/client/byte_stream.cpp:549-552 | in every live state of every run a sweep resets the stream exactly when it dials with a deadline that has passed and fewer than two prelude bytes arrived |
| `Deadlines.OperationDeadlines` | src/client/byte_stream.cpp:554-577 | in every such state a sweep ends exactly the pending operations whose calls gave a deadline that has passed, with the deadline error, and keeps the others |
| `Deadlines.NoDeadlineNoSweep` | src/client/byte_stream.cpp:539-584 | without a dial deadline and without deadlines on the calls no sweep changes the stream |
| `ResetCauses.ResetsExactly` | src/client/byte_stream.cpp:810-1007 | in every live state of every run and for every step: it resets the stream exactly for the listed causes, and the last frame offered is then a RESET with the reason, unless the peer or the session ended the stream |
| `ResetCauses.DuplicateData` | src/client/byte_stream.cpp:828-831 | over any network a DATA frame of the peer that starts below the next offset changes nothing, and delivering any of its DATA frames twice is delivering it once |
| `ResetCauses.LossCancels` | src/client/byte_stream.cpp:510-535 | session loss tells every pending operation so, writes with the bytes on the wire |
| `CallRefusals.RefusedExactly` | src/client/byte_stream.cpp:194-240 | a call is refused exactly for the listed reasons, at once, under its own number and with no other effect; no other call and nothing it sets in motion is answered as refused |
| `ConnectOutcomes.ConnectTold` | src/client/byte_stream.cpp:1009-1063 | at every step of every run a connect handler that runs is told success exactly when the step completed a prelude of two zeros, a clean close on session loss or a clean end, else a failure with the reason of the peer's RESET if it gave one |
| `HalfClose.RunWaits` | src/client/byte_stream.cpp:290-320 | against any peer a read waits only with nothing buffered and the end not reached, and a FIN taken never lies ahead |
| `HalfClose.PeerFin` | src/client/byte_stream.cpp:945-971 | a FIN with nothing buffered ends every waiting read cleanly and cancels every queued write; otherwise it changes no queue, answers no one and sends nothing |
| `HalfClose.LocalFin` | src/client/byte_stream.cpp:244-268 | shutdown_write ends the waiting reads exactly when it is allowed, nothing is queued and the session admits the FIN; otherwise reads, completions and state stay |
| `HalfClose.QueuedFin` | src/client/byte_stream.cpp:1065-1127 | what pumping the queue does to reads, state and FIN, decided by the credits, the queued bytes and the session's answers |
| `HalfClose.QueuedFinFate` | src/client/byte_stream.cpp:244-1127 | for a queued FIN and any step: it is sent, lost or still queued, each exactly under a condition on the stream before the step |
| `HalfClose.ShutdownFate` | src/client/byte_stream.cpp:244-268 | a new FIN is queued exactly behind writes, else sent exactly when admitted, else lost |
| `HalfClose.FinFates` | src/client/byte_stream.cpp:244-1127 | in every run a FIN is lost exactly when some step met the losing condition, and for good; otherwise it is queued or on the wire, not both |
| `HalfClose.FinLostReachable` | src/client/byte_stream.cpp:554-577 | two runs that lose it: the marked write expires on an open stream, and the peer's FIN closes the stream first |
| `EndOfStream.DeliverEnd` | src/client/byte_stream.cpp:290-302 | frames that contradict no FIN keep the promise that a clean end is reported only with everything read |
| `LossyNetwork.PrefixSafety` | src/client/byte_stream.cpp:810-892 | however frames are dropped, duplicated or reordered, bytes read and buffered are exactly the accepted prefix of what the peer's writes were told; a clean end means all of it and that no more will come; no DATA follows a FIN |
| `LossyNetwork.DeliverData` | src/client/byte_stream.cpp:828-844 | an accepted payload is the next bytes of the sender |
| `ReliableLink.LaneBalance` | src/client/byte_stream.cpp:322-344 | credit, DATA in flight and credit in flight add up to the receiver's remaining byte window |
| `ReliableLink.ByteConservation` | src/client/byte_stream.cpp:780-808 | in every state of every run both directions balance, and the next DATA and the next update fit, so byte-window, gap, consumed-beyond-sent and overflow resets cannot happen |
| `LinkProgress.ByteProgress` | src/client/byte_stream.cpp:322-344 | with an admitted first grant, a quiescent direction leaves its sender more than three quarters of the window, for every window size |
| `LinkProgress.LostGrant` | src/client/byte_stream.cpp:794-808 | a refused first grant leaves the opener without credit for as long as both ends live |
| `LinkProgress.GrantArrives` | src/client/byte_stream.cpp:794-808 | in every run, once an admitted first grant arrived and while both ends live, the opener was given at least the whole window |
| `LinkProgress.HonestResets` | src/client/byte_stream.cpp:819-868 | the next DATA frame of an honest peer resets exactly when the frame window is used up or it completes a broken prelude |
| `LinkProgress.FinNeedsAll` | src/client/byte_stream.cpp:945-964 | a FIN on the wire resets a live receiver exactly when it has not taken every byte sent |
| `LinkProgress.HonestFinResets` | src/client/session_channels.cpp:508-520 | in every run with both ends live, a FIN that arrives next resets exactly when DATA is still in flight |
| `LinkProgress.WriteThenHalfClose` | src/client/byte_stream.cpp:254-267 | one byte written, then half-closed, on an admitting session: the FIN may arrive first and the receiver resets |
| `Stall.OnlyBackPressure` | src/client/byte_stream.cpp:1065-1127 | in every run a live stream with writes queued and both credits had its next DATA frame refused by the session |
| `Stall.OnlyUpdatesMove` | src/client/byte_stream.cpp:1089-1102 | after shutdown_write no call and no frame but a WINDOW_UPDATE makes a stream send DATA |
| `Stall.NeverMoves` | src/client/byte_stream.cpp:1093-1096 | with all its DATA read and no grant on its way, a half-closed opener sends no DATA in any continuation of the link |
| `Stall.StallReachable` | src/client/byte_stream.cpp:1093-1096 | any two ends get there with both alive, a byte and the FIN queued and both credits left, after one would_block |
| `FrameCredit.FrameBudget` | src/client/byte_stream.cpp:323-340 | unless a frame grant wrapped, a direction carries at most twice its frame window of DATA frames ever |
| `FrameCredit.PromptReader` | src/client/byte_stream.cpp:311-340 | reading every frame at once never wraps a grant, and total frame grants stay within twice the window however many frames are freed |
| `FrameOvergrant.HonestSenderReset` | src/client/byte_stream.cpp:836-840 | two honest ends, every frame admitted, and the receiver resets for its frame window |
| `StreamService.LiveRegistry` | src/client/byte_stream.cpp:394-417 | between any two events the map holds only live streams, each as some run of a single stream leaves it, and at most the configured number |
| `StreamService.Isolation` | src/client/byte_stream.cpp:622-644 | a frame for one stream leaves another registered and unchanged exactly when none of its deadlines has passed |
| `StreamService.SweepSelects` | src/client/byte_stream.cpp:554-577 | the sweep completes exactly the expired operations, with a timeout and the bytes on the wire, and keeps exactly the others |
| `StreamService.SweepSpares` | src/client/byte_stream.cpp:539-578 | the sweep leaves a stream unchanged exactly when no deadline has passed |
| `StreamService.NothingOverdue` | src/client/byte_stream.cpp:213-242 | after a sweep or a queued write no registered stream has anything overdue, and after a received frame none but the one it names |
| `StreamService.OpenConnects` | src/client/byte_stream.cpp:394-808 | two services that register the two ends of an OPEN start a connected pair: the serving end has exactly the credit of the opener's windows |
| `StreamService.OpenExactly` | src/client/byte_stream.cpp:646-792 | an OPEN registers an unused id exactly if its windows are acceptable, the service serves the request, there is room and the channel is adopted; a full service refuses with its status; a used id loses its stream; nothing else changes |
| `BigEndian.Put` | src/client/byte_stream.cpp:32-42 | the shift loop appends the big-endian bytes |
| `BigEndian.Get` | src/client/byte_stream.cpp:44-60 | the loop reads them back |
| `BigEndian.NumberRoundTrip` | src/client/file_store.cpp:468-494 | a number that fits its width survives encoding and decoding |
| `BigEndian.BytesRoundTrip` | src/client/file_store.cpp:468-494 | so does every byte string |
| `BigEndian.ByteAt` | src/client/byte_stream.cpp:32-42 | the bytes come most significant first |
| `StreamWire.BuildData` | src/client/byte_stream.cpp:1080-1088 | the payload is id, offset, length and data in the fixed layout |
| `StreamWire.ParseData` | src/client/byte_stream.cpp:810-827 | a truncated or all-zero id is refused, a payload whose length field or size is wrong is a length fault, and exactly the others give id, offset and data |
| `StreamWire.DataRoundTrip` | src/client/byte_stream.cpp:1080-1088 | what the sender encodes the receiver reads back, with a matching length field |
| `StreamWire.PayloadRoundTrip` | src/client/byte_stream.cpp:813-827 | a payload with a matching length field is the encoding of what it says |
| `EventBus.EventService.constructor` | src/client/event_service.cpp:47-59 | no subscriptions in either role |
| `EventBus.EventService.PublishEvent` | src/client/event_service.cpp:199-274 | refusals leave the source alone; else number, stage, terminate, drain; the outcome counts the subscriptions on the topic, the queues that now end with the item and the subscriptions that are gone |
| `EventBus.EventService.StageOne` | src/client/event_service.cpp:222-264 | one round of the publish loop: match, encode, keep-latest or bounded queue |
| `EventBus.EventService.TerminateRemote` | src/client/event_service.cpp:517-525 | exactly that subscription goes and the peer is told |
| `EventBus.EventService.DrainStaged` | src/client/event_service.cpp:527-545 | the loop sends from the front until the queue is empty or the channel refuses |
| `EventBus.EventService.DrainEverything` | src/client/event_service.cpp:286-291 | every queue is drained in order |
| `EventBus.EventService.HandleSubscribe` | src/client/event_service.cpp:346-391 | replay is idempotent, a changed binding fails the channel, the refusals keep no state and tell the peer, else a new empty queue |
| `EventBus.EventService.HandleUnsubscribe` | src/client/event_service.cpp:393-406 | the subscription goes, or a late request is counted |
| `EventBus.EventService.HandleItem` | src/client/event_service.cpp:408-460 | first item, duplicate, gap or next item with the counters of each; a conflict ends the subscription and tells the peer |
| `EventBus.EventService.UnsubscribeFrom` | src/client/event_service.cpp:162-174 | exactly the local subscriptions with that pattern go, are counted, and the peer is told once about each |
| `EventSource.FanOut` | src/client/event_service.cpp:220-267 | before draining, each queue changes by a function of that subscription and the event alone, and exactly the overflowing subscriptions are removed |
| `EventOutcome.MatchIsBySegment` | src/core/event_protocol.cpp:82-99 | a subscription takes a topic exactly when the segment lists are equal or, for a prefix subscription, the pattern's list is a prefix of the topic's |
| `EventOutcome.FanOutBySegment` | src/client/event_service.cpp:220-267 | an event leaves a subscription on other segments alone, ends one whose queue is full, and else is the last item queued, after the earlier ones or under keep-latest instead of them |
| `EventOutcome.OutcomeCounts` | src/client/event_service.cpp:220-272 | for every event and set of subscriptions the outcome counts the matching ones, the queues the item went to, which are those that now end with it, and the removed ones, which are those the peer is told about |
| `EventSource.StagingBounds` | src/client/event_service.cpp:241-261 | over all runs keep-latest queues hold one item, reliable ones the limit, and a peer its subscription limit |
| `EventSource.PruneDrains` | src/client/event_service.cpp:527-545 | draining moves items of each subscription from queue to wire in order and changes nothing else |
| `EventDelivery.EventOrdering` | src/client/event_service.cpp:408-460 | end to end, deliveries were published on the topic under their sequence and strictly increase; the subscription ends only when the application drops it or the session goes, so no item is taken for a conflict; until then everything that arrived was delivered; under reliable_live sequences are consecutive |
| `EventDelivery.SubscriptionStarts` | src/client/event_service.cpp:384-390 | accepting an unused id on any source is where a tracked subscription starts |
| `EventAccounting.SinkAccounting` | src/client/event_service.cpp:445-458 | against any peer, received counts deliveries, lag sums the gaps of each subscription, and received plus lag is newest - first + 1 |
| `EventAccounting.SourceAccounting` | src/client/event_service.cpp:215-272 | topic sequences are never reused, and the counters of sent and overwritten items are exact |
| `EventCounters.SubscribeExactly` | src/client/event_service.cpp:346-391 | an unused id is registered exactly if the scope check grants it and there is room, and the peer is told exactly if not; a used id keeps its subscription, and the channel fails exactly if the request changes pattern, kind or QoS |
| `EventCounters.SourceBalance` | src/client/event_service.cpp:199-406 | in every run each request was accepted, repeated, refused for scope or limit, or fatal; each event was counted; and the subscriptions are those accepted less those withdrawn or overflowed |
| `EventCounters.SinkBalance` | src/client/event_service.cpp:408-460 | against any peer every item is counted once as received, duplicate, conflict or unknown; lag events count the deliveries that skipped something, and all or none of them are stale as the subscriptions are keep-latest or reliable |
| `EventCounters.LeavesTold` | src/client/event_service.cpp:162-174 | at every step of the subscriber the peer is told about exactly the subscriptions that end in it, once each |
| `EventAccounting.LossAccounting` | src/client/event_service.cpp:241-249 | at rest every sequence a keep-latest subscriber skipped since its first item was overwritten at the source, one for one |
| `EventAccounting.StagedOnce` | src/client/event_service.cpp:236-263 | every publication since the subscription began is sent, waiting or overwritten, and counted once |
| `EventConflict.TwoTopicsConflict` | src/client/event_service.cpp:425-444 | on any source, channel and backlog, events on two matching topics can end the subscription as a conflict |
| `EventConflict.ConflictExact` | src/client/event_service.cpp:408-460 | some run without unsubscribing or session loss ends the subscription exactly when it is a prefix subscription |
| `ResumeSidecar.EncodeState` | src/client/file_store.cpp:592-612 | the encoder builds the layout, refusing an oversized bitmap |
| `ResumeSidecar.ReadSmallFile` | src/client/file_store.cpp:526-549 | whatever block sizes are returned, the whole file is read or, beyond 8 MiB, refused; it fails exactly when a read call it makes fails |
| `ResumeSidecar.DecodeState` | src/client/file_store.cpp:616-650 | unreadable exactly when missing or a read fails; then size, magic, version, length, fields in order |
| `ResumeSidecar.SidecarRoundTrip` | src/client/file_store.cpp:592-650 | decode after encode returns the state with a 0/1 bitmap exactly when id, size and chunk size are acceptable and the encoding fits 8 MiB |
| `ResumeSidecar.Reencodes` | src/client/file_store.cpp:616-650 | every accepted file is the encoding of what it decodes to, up to 0/1 bitmap entries |
| `ResumeSidecar.TornRewrite` | src/client/file_store.cpp:553-588 | an in-place rewrite cut off after any byte is rejected or claims between the old and the new bitmap |
| `ResumeSidecar.TornFirstWrite` | src/client/file_store.cpp:553-588 | a first write cut off before the end is rejected |
| `StagingFile.DiskFile.WriteStagingAt` | src/client/file_store.cpp:379-399 | with arbitrary short writes exactly a prefix of the data lands at the offset, all of it on success, nothing else moves |
| `StagingFile.DiskFile.WriteSmallFile` | src/client/file_store.cpp:553-588 | a rewrite that was cut leaves exactly the data; a failed one a prefix over the old bytes |
| `StagingFile.DiskFile.WriteResumeState` | src/client/file_store.cpp:592-614 | a saved state leaves its encoding in the file; a failed save a prefix of it over the old bytes |
| `StagingFile.AssembledRanges` | src/client/file_store.cpp:345-401 | chunk writes in any order with any repetition leave the written ranges equal to the source and other bytes untouched |
| `StagingFile.ChunkAssembly` | include/heyaki/file.hpp:114-116 | once every chunk was written the file is the source, length included, exactly when it was not longer before |
| `ResumeSafety.StagingRemoval` | src/client/file_store.cpp:416-460 | removing or renaming the staging file keeps every claim in memory backed exactly when, apart from the receive being committed, nothing in memory claims a chunk |
| `ResumeSafety.StepExact` | src/client/file_service.cpp:1079-1645 | each step of a node, with any tasks under way, keeps all claims backed exactly when it is careful |
| `ResumeSafety.ClaimsAreBacked` | src/client/file_service.cpp:1079-1645 | in every run, with deaths, restarts and ordinary commits, all claims that are restored or written through are backed in all states exactly when every step is careful |
| `ResumeSafety.ResumeNeverSkips` | src/client/file_service.cpp:1204-1224 | in such a run a sidecar that was not left behind restores only chunks that are there, and all chunks claimed means the staging file is the source |
| `ResumeSafety.CarefulWithout` | src/client/file_service.cpp:1304-1360 | while there is no staging file, a sidecar left behind may be read exactly if it claims nothing, and a receive being committed may be given a chunk exactly if it claims no other |
| `ResumeSafety.DeathBetween` | src/client/file_service.cpp:1207-1224 | after a death between the two removals the next manifest restores a bitmap without its chunks exactly when the sidecar claimed one |
| `ResumeSafety.SidecarFirst` | src/client/file_store.cpp:457-460 | with the two removals in the other order no state in between is unsound and nothing is left behind |
| `ResumeSafety.ManifestFinds` | src/client/file_service.cpp:1204-1224 | a manifest that finds a sidecar of another transfer changes no file, starts no task and receives nothing; its own starts a receive with the chunks listed |
| `NodeTasks.OneChunkEach` | src/client/file_service.cpp:1426-1440 | in every run, with deaths, restarts and leftover tasks, there are never more chunks under way than receives were begun |
| `NodeTasks.SaveReplaces` | src/client/file_store.cpp:553-614 | a save that opens, writes and cuts the sidecar leaves exactly the encoding, whatever it held before |
| `CommitIntegrity.CommitsAreSource` | src/client/file_service.cpp:1531-1609 | in every run what is committed is the source, now and in every continuation without another such removal, exactly when no other task took the staging file between a digest check and its rename |
| `CommitIntegrity.UndercutHarms` | src/client/file_service.cpp:1531-1573 | after such a removal, from any state, some continuation commits a file that is not the source |
| `TransferRuns.OrdinaryTransfer` | src/client/file_service.cpp:1426-1609 | every transfer has a careful run: all chunks stored and recorded, checked and renamed while the receive is in memory, the source committed and nothing left over |
| `TransferRuns.ResumedWithoutChunk` | src/client/file_service.cpp:1611-1645 | a run of any transfer whose sidecar can be read back that ends with a chunk claimed and no staging file |
| `TransferRuns.VerifyRace` | src/client/file_service.cpp:1531-1645 | a run of any transfer of two chunks or more that commits its first chunk alone |
| `TransferRuns.ChunkDuringVerify` | src/client/file_service.cpp:1304-1366 | a run of any such transfer in which a chunk sent again during the verification makes the next resume skip the others |
| `TextOrder.PrintHex` | apps/release/heyaki_release_sign.cpp:62-70 | two lower-case digits per byte |
| `TextOrder.ParseHex` | apps/release/heyaki_release_sign.cpp:85-101 | bytes of an even-length hexadecimal text, none otherwise |
| `TextOrder.HexRoundTrip` | apps/release/heyaki_release_sign.cpp:57-101 | printed digits are hexadecimal and read back to the bytes |
| `TextOrder.HexDigitsRead` | apps/release/heyaki_release_sign.cpp:72-83 | digits of both cases are read with their values, and nothing else |
| `TextOrder.LessIsBefore` | apps/release/heyaki_release_sign.cpp:337-341 | the order check is lexicographic: a proper prefix, or the smaller character at the first difference |
| `Manifest.PrintManifest` | apps/release/heyaki_release_sign.cpp:357-370 | the printer loop writes header, count and one line per entry |
| `Manifest.ParseCount` | apps/release/heyaki_release_sign.cpp:298-308 | the digit loop with its early bound is the decimal value, refused exactly when it exceeds the text length |
| `Manifest.ParseManifest` | apps/release/heyaki_release_sign.cpp:277-350 | the cursor parser: header, count line, entries, declared count; what it accepts is `ParserExact`, with paths in lexicographic order |
| `Manifest.ParseEntries` | apps/release/heyaki_release_sign.cpp:310-343 | the line loop, with the order check against the last path |
| `Manifest.ParserExact` | apps/release/heyaki_release_sign.cpp:273-350 | a text is accepted exactly when it is a rendered manifest of strictly sorted safe paths and hexadecimal digests, up to leading zeros and the separator |
| `Manifest.ManifestRoundTrip` | apps/release/heyaki_release_sign.cpp:352-379 | parse after print is the identity exactly on sorted lists of good entries; the count bound never refuses one |
| `ReleaseCheck.Check` | apps/release/heyaki_release_sign.cpp:454-480 | the merge counts missing, modified or unreadable, and extra files, each once |
| `ReleaseCheck.CheckPasses` | apps/release/heyaki_release_sign.cpp:481-488 | no mismatch exactly when paths agree one for one and every digest matches |
| `ReleaseCheck.ParsedIsSorted` | apps/release/heyaki_release_sign.cpp:337-341 | every accepted manifest is sorted as the merge needs |
| `ReleaseCheck.FreshManifestPasses` | apps/release/heyaki_release_sign.cpp:352-489 | a bundle passes the check against the manifest just written for it |

## Left out

- RunMoves: offsets are unbounded numbers, so a stream that moves 2^64 bytes is not modelled; frame subtractions and sums wrap as in the source.
- ByteConservation: stated while both ends live, since credit of an ended stream means nothing; frame credit is treated by `FrameBudget`.
- LostGrant: stated while both ends live.
- GatewayTransparency: after a broken prelude the stream is reset and the rest of that payload is dropped, so nothing is claimed about it.
- GrantArrives: stated while both ends live.
- HonestFinResets: stated while both ends live; `FinNeedsAll` covers a sender that has ended.
- Open: takes a fresh id, as random ids are assumed not to repeat.
- EventOrdering: the channel neither loses, repeats nor reorders items, and the subscription id is not used again.
- ResumeNeverSkips: a process may die between any two bytes, but what it wrote stays; power loss is not modelled. Chunks hold the bytes of the source, and a digest that matches means the same bytes.
- CommitsAreSource: the digest check reads the whole file in one step.
- FreshManifestPasses: digests are opaque texts; the hash functions are not modelled.
- Handlers are recorded as completions and do not call back into the stream or the service.
- Operations on a handle whose stream has already left the service; the service model acts on registered streams.
- Protobuf encoding of the control frames, the frame codec and the channel scheduler; control frames are values.
- Thread marshalling in the stream facade, inbound handler dispatch records and the local topic of the event service.
- Event topic syntax and payload limits beyond their refusal; the answers of scope checks are inputs.
- The age test and the directory scan of the staging sweep, quotas, permission and symlink checks, and everything specific to Windows.
- Key generation, signing and signature verification of releases.
- The RPC, pairing, signalling, relay, shell and gateway services; they would need models of their own.
