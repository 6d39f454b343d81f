# A verified model of the protocol library

This project models the stateful core of the Minecraft protocol library in Dafny 4.11 and
proves what that core is for, over every input, every run and every interleaving.
`dafny verify dfyconfig.toml` checks all of it.

## The parts

**The managed stream and its budget** (`Budget`, `BudgetObject`, `Stream*`). `Budget` is the
FIFO item and byte budget as a value, with its theorems; `BudgetObject` is the same budget as
the mutable objects of the source, each method proved to be one function of `Budget`. `Stream`
is the stream as a state machine: coordinator, read pump, write pump, dispatcher, any number of
Read and Write calls. Each mutex section and each channel operation is one step, and whatever
a peer, a session, a context or a scheduler decides is a choice inside a step, so a run is any
sequence of enabled steps (`StreamTheorems.NothingAssumed` and `StreamTheorems.StopNoticed` list what they may do and when).
`StreamConservation` and `StreamSafe` prove that the budget equals
what is held and never panics; `StreamInbound` and `StreamDrops` where decoded packets are and
which branches lose one; `StreamWrites` the order of frames and the truth of outcomes;
`StreamFrames` which frame is which, and which transitions are committed; `StreamRecords` what
the observation sink sees; `StreamTheorems` puts them together;
`StreamStops` what stops a stream and `StreamEnds` that it then can end; `StreamAnswers` why a
Write is told what it is told; `StreamObserved` that nothing goes unrecorded; `StreamWaits` when a
record waits for ever and `StreamCompletes` when a Write and a Read can go through at all; `StreamMemory` and
`StreamCapacity` when all a stream holds stays within its buffer.

**The cipher switch and the login** (`Cfb8`, `Conduit*`, `Login*`). `Cfb8` proves the
per-byte loop against the defining equations of CFB with an 8-bit segment in NIST SP 800-38A,
section 6.3, over an arbitrary block function. `ConduitRuns` says what any sequence of fetches,
hand-outs, writes and switches hands out and writes; `Conduit` is the conduit object, each method
proved to be one such operation. `Login` is the client
driver and the server driver over two byte channels, with compression, encryption and
configuration, under every delivery and scheduling choice; `LoginScript` is the order a login
goes in; `LoginSafe` proves that both drivers keep to it and that nothing fails, and
`LoginTheorems` that both ends switch at the same byte and every login finishes agreed.
`LoginChecks` says what either end refuses, whoever the other is.

**Captures and replay** (`Capture*`, `Replay*`). `CaptureFields` and `CaptureFormat` are the
format with its inline string table; `CaptureTheorems` reads whole files and every prefix;
`CaptureLayout` says in numbers where things are; `CaptureWriter`, `CaptureDigest` and `CaptureReader` are the writer, digester and reader
objects proved against the format; `Replay` is the player, up to the equality of digests, and
`ReplayDrift` says what its divergences mean.

**Wire codecs and the ring** (`VarInt`, `VarIntLoops`, `Framer`, `Compression`, `ModifiedUtf8`,
`Nbt*`, `LpVec3`, `History`). For each, functions say what the bytes mean and carry the
theorems, and the source's loops are methods proved to compute those functions. `NbtKeys` relates
the walker, which compares bytes, to the validator, which compares decoded names; `NbtLayout`
says in numbers how long each payload is.

## Where the code and its description differ

The model follows the code. Each difference has a lemma that says exactly when it shows.

- Cancelling the queued head does not run the grant loop, so a waiter that fits can stay queued:
  `Budget.CancelWaiterBlocked`, `Budget.CancelledHeadLeavesFittingWaiter`. Some capacity is then
  still held, so a later release serves it: `Budget.OpKeepsValid`, `Budget.ReturningAllServes`.
- A decoded packet can be lost at the stop: `StreamDrops.StepDrops` names the branches and no
  others, `StreamDrops.NothingLost` says the same of whole runs, and
  `StreamTheorems.DecodedPacketLost` is one run.
- A record asks for capacity while the coordinator holds its call's, and that of a packet waiting
  to be delivered. When they do not fit the budget together nobody but a stop frees it:
  `StreamWaits.RecordsExactly`. So with one queue item a stream that records never tells a Write
  that it was sent: `StreamCompletes.SendsExactly`.
- `NewLimits` asks for one working set where the stream's headroom is two, so the buffered-byte
  limit is kept only from a working set and one frame up: `StreamMemory.MemoryBounded`. Frames
  without an envelope may carry packets above the decompressed limit, which the headroom does
  not count: `StreamCapacity.LongPacketsBounded`, `Compression.PacketWithinLimit`.
- A frame cut exactly after its length ends like a clean close: `Framer.CleanEndExactly`.
- The fifth byte of a VarInt has bits that are dropped, so the shortest-length check alone makes
  an encoding unique only below 2^28; the frame ceiling is what makes framing canonical:
  `VarInt.AmbiguousFrom28`, `Framer.ParsedIsBuilt`.
- An empty packet body at threshold zero is written as a zlib stream and read as uncompressed:
  `Compression.DecodesEncoded`, `Compression.EmptyMisread`.
- A vector scale of 2^33 or more is written and then refused: `LpVec3.VectorRoundTrip`.
- The capture writer bounds a payload and the reader bounds a whole record:
  `CaptureTheorems.ReadableExactly`. A packet ID on a raw record enters the digest and not the
  file: `CaptureWriter.DigestAgrees`, `Replay.ReplayDigest`.
- The validator tells NBT names apart by their decoded code units and the walker by their bytes,
  so a name encoded longer than it need be is validated and never found: `NbtKeys.IntFinds`,
  `NbtKeys.OverlongHidden`.
- A replay follows what a packet it is not shown did to the state and to nothing else, so it can
  fail on a recording of its own codec: `ReplayDrift.KeepsUpExactly`, `ReplayDrift.SettingLost`.
  A redacted frame that moved the state is reported as a divergence:
  `ReplayDrift.OwnRecordingAgrees`.

## Model

| member | source | states |
|---|---|---|
| Budget.GrantServesPrefix | stream_budget.go:79-92 | The grant loop serves a prefix of the queue, in queue order, and serves nobody exactly when the head does not fit. |
| Budget.GrantTouchesServed | stream_budget.go:79-92 | It grants and wakes the waiters it serves and changes no other request. |
| Budget.BlockedMeansHeld | stream_budget.go:46-92 | When the head does not fit, somebody holds capacity: no request larger than the whole budget is ever queued. |
| Budget.OpKeepsValid | stream_budget.go:46-215 | Every operation, cancelling a queued head included, keeps: a waiter in the queue means capacity is held, so a later release will run the grant loop. |
| Budget.RunKeepsValid | stream_budget.go:46-215 | The same over any sequence of operations. |
| Budget.OpNeverReopens | stream_budget.go:79-117 | A ready channel once closed stays closed and is closed at most once across grant, cancel and close; only queued requests are granted. |
| Budget.ArrivalOrder | stream_budget.go:46-92 | In every run of a new budget, grants are in arrival order: nobody is overtaken. |
| Budget.ReserveAtOnce | stream_budget.go:46-73 | A request that finds no queue and fits is granted before it returns. |
| Budget.ReserveWaits | stream_budget.go:46-73 | A request that finds a blocked queue waits even if it would fit: no barging. |
| Budget.ReturningAllServes | stream_budget.go:184-195 | Returning everything held serves the head of the queue: no wake-up is lost. |
| Budget.CancelWaiterBlocked | stream_budget.go:95-117 | Cancelling runs no grant loop. The head still does not fit afterwards if and only if it is not the head that was cancelled with a fitting waiter behind it. |
| Budget.CancelledHeadLeavesFittingWaiter | stream_budget.go:95-117 | The whole failing family: a head of any size too large for what is left, cancelled, leaves any waiter that fits queued behind it. |
| Budget.ReserveRefuses | stream_budget.go:46-73 | A reservation is taken exactly when its sizes make sense, the budget is open and the whole budget could hold it; a refused one changes nothing and says which of the three failed first. |
| Budget.CloseForGood | stream_budget.go:198-215 | In every run after an open budget is closed, whoever was waiting is refused with the cause (that the stream closed, if none was given), and so is every later reservation; nothing is granted. |
| Budget.ClosedStays | stream_budget.go:198-215 | No operation opens a closed budget, grants from it or changes what a refused waiter was told; closing it again does nothing. |
| BudgetObject.BudgetWaiter.Failure | stream_budget.go:120-129 | None exactly when granted; otherwise the waiter's own error, or that the stream closed. |
| BudgetObject.Budget.constructor | stream_budget.go:39-41 | A new budget is empty, with a byte bound below zero taken as zero. |
| BudgetObject.Budget.GrantLocked | stream_budget.go:79-92 | The loop over waiter objects is the grant function on the budget's abstract value; no ready channel is closed twice. |
| BudgetObject.Budget.Reserve | stream_budget.go:46-73 | The new abstract state and the waiter, or the refusal, are those of the reservation; validity is kept. |
| BudgetObject.Budget.RemoveWaiter | stream_budget.go:106-117 | Removing a queued waiter withdraws it and nothing else. |
| BudgetObject.Budget.Cancel | stream_budget.go:95-117 | A granted waiter returns what it held and the loop runs; a queued one is only withdrawn. |
| BudgetObject.Budget.Charge | stream_budget.go:175-181 | Charging takes capacity past the ceiling and from a closed budget, and keeps validity. |
| BudgetObject.Budget.Release | stream_budget.go:184-195 | Returning capacity that is held cannot panic, and wakes whatever then fits. |
| BudgetObject.Budget.Close | stream_budget.go:198-215 | Closing wakes every queued waiter with the cause for its failure, keeps that cause for later reservations, and does nothing the second time. |
| StreamSafe.StepSafe | stream_runtime.go:128-571 | Every step of every goroutine keeps: the budget equals what is held (in-flight writes, the granted pending packet, queued and taken packets, undelivered records); the ceilings until the stop; room in the Read queue for a granted packet; the processing token in one place. |
| StreamSafe.RunSafe | stream_runtime.go:91-124 | The same over every interleaving. |
| StreamSafety.SafeNeverPanics | stream_budget.go:184-195 | No step releases more than is held, and none returns the processing token while it is in. |
| StreamSafety.GrantedSendNeverBlocks | stream_runtime.go:286-310 | A packet whose capacity was granted can be sent at once, so the blocking send behind it is never reached. |
| StreamStops.StopsExactly | stream_runtime.go:128-571 | A step stops a running stream exactly when it is one of these: the owner's stop, the end of a drained dispatcher, an unexpected read failure, a failed write, a decode or transition failure, a refused queue reservation, a record refused that had to be made, a sink that refuses, a caller giving up a write already begun. |
| StreamStops.StepStops | stream_runtime.go:128-571 | Every step keeps: a pump that has returned, a call told that the stream or the transport failed it, and a reservation refused to somebody waiting, leave the stream stopping; a stream that is done has no goroutine left. |
| StreamStops.LeavesStopping | stream_runtime.go:254-335 | The coordinator leaves a stream that is not stopping only over its goodbye. |
| StreamStops.LeavesExactly | stream_runtime.go:254-335 | The coordinator takes no more work from exactly these steps on, and never goes back: told to stop, a reservation refused while running, a decode failure, a record refused while running that must not be, a failed or given up write, a goodbye that is over. A packet whose reservation is refused while stopping is delivered and the loop goes on. |
| StreamStops.TokenExactly | stream.go:219-240 | The processing token is taken by the read pump alone and given back by exactly these steps: a failed read, a pump that stops with a frame in hand, a decode whether it succeeds or fails. |
| StreamTheorems.FailuresStop | stream_runtime.go:174-211 | In every reachable state a read pump that has returned leaves the stream stopping, or everything recorded and its dispatcher gone; likewise for the write pump, for calls told of a failure and for a refused packet. |
| StreamEnds.CanAlwaysEnd | stream_runtime.go:91-124 | From every reachable state that is stopping, has taken a shutdown or has lost its coordinator, the stream's own goroutines have a way to its end, with nobody reading, writing or stopping it. |
| StreamInbound.StepOrder | stream_runtime.go:345-412 | Every step keeps: what Read returned, then the queue, then the pending packet is in decode order, each packet with its transition committed, and before the stop is everything decoded. |
| StreamInbound.RunOrder | stream_runtime.go:254-335 | The same over every interleaving. |
| StreamDrops.StepDrops | stream_runtime.go:225-250 | A step keeps every packet a Read could still get, and adds the one it decodes, if and only if it is not one of the named branches (a refusal seen at the pending grant, a full queue on the way out, a coordinator that leaves without handing over); in those it keeps fewer. |
| StreamDrops.NothingLost | stream_runtime.go:225-335 | After any run from the start, everything decoded has been or can still be returned by Read if and only if no step of the run took one of those branches. |
| StreamDrops.EndReported | stream_runtime.go:994-1027 | A Read reports the end exactly in a step taken when the stream is done and nothing is left to return. |
| StreamDrops.EndedForGood | stream_runtime.go:994-1027 | Once a Read has reported termination no Read returns another packet. |
| StreamWrites.StepWrites | stream_runtime.go:464-571 | Every step keeps the order of frames, the one-job-at-a-time pump and the truth of every reported outcome. |
| StreamWrites.RunWrites | stream_runtime.go:197-211 | The same over every interleaving. |
| StreamWrites.WireInOrder | stream_runtime.go:464-526 | In every run frames are on the wire in the order the coordinator accepted the calls, at most one for a call, and a disconnect is the last frame. |
| StreamWrites.OutcomeTrue | stream_runtime.go:1052-1095 | A nil outcome means the whole frame was written and its transition committed; a transport failure, that the pump took it and did not finish; a plain context error or a refusal, that no byte reached the pump. |
| StreamWrites.GivenUpUnsaid | stream_runtime.go:675-698 | A goodbye given up because the stream stops is not on the wire; one written whole counts as said. |
| StreamFrames.StepFrames | stream_runtime.go:345-348 | Every step keeps: frames read and frames built carry numbers of their own, rising, and the one in hand carries the newest. |
| StreamFrames.FramesDistinct | stream_runtime.go:345-348 | In every run no two frames, read or written, share a number, and the frames given to the pump rise. |
| StreamFrames.CommitsExactly | stream_runtime.go:545-560 | In every run the transitions committed are exactly those of the packets decoded and of the frames written whole whose outcome has been read. |
| StreamFrames.HandsWhatWasBuilt | stream_runtime.go:464-520 | In every run what the pump is given for a call is the frame the session built for that call, with the transition it proposed, and the session built no other under that number. |
| StreamWrites.NoWriteForgotten | stream_runtime.go:464-571 | In every run a call the coordinator took has been answered or is the one it is working on. |
| StreamWrites.ReturnedForever | stream_runtime.go:41-63 | A call's outcome, once returned, never changes: exactly one outcome. |
| StreamAnswers.ReportedExactly | stream_runtime.go:464-571 | The coordinator answers a call with each outcome by exactly that outcome's causes, and never replaces an answer: sent when its records are made, or refused while stopping; not recorded when one is refused while running; transport failure when the pump fails; ended when stopped before the pump took it; refused when the session refused it. |
| StreamAnswers.ToldExactly | stream_runtime.go:1052-1116 | A call returns with each outcome by exactly its causes: the coordinator's answer, its own context ending before it was claimed, giving up after it was, a refused or closed budget, the stream ending before it was taken. |
| StreamAnswers.RefusesExactly | stream_runtime.go:464-500 | A call comes to be refused exactly when the session does not encode or allow its packet. |
| StreamAnswers.ClaimsExactly | stream_runtime.go:41-63 | A frame goes to the pump only for a call that was claimed, and it is claimed exactly while its caller has not given up. |
| StreamRecords.StepRecords | observation.go:155-249 | Every step keeps: records given, travelling and being made are numbered without a gap until the stop, each packet's record after its frame's raw record. |
| StreamRecords.RunRecords | observation.go:155-249 | The same over every interleaving. |
| StreamRecords.SinkSees | observation.go:205-231 | In every run, until the stream stops, the sink has been given exactly records 1 to k in order, raw before packet. |
| StreamRecords.DrainedBeforeStop | observation.go:233-249 | In every run a dispatcher that ends without a stop has given the sink every record there will ever be. |
| StreamRecords.StopsItselfDrained | stream_runtime.go:91-124 | A stream stops itself after a goodbye only once the sink has been given every record there will ever be. |
| StreamObserved.EverythingObserved | observation.go:155-249 | In every run not yet stopped, each packet decoded and each frame written for a call has a raw record and a packet record, given or still to be given, or the coordinator is at them. |
| StreamObserved.TakesUpExactly | observation.go:155-203 | The coordinator takes up a record in exactly these steps, with this stage and this many bytes: a frame or a control accepted, a packet decoded, a write refused or given up, a frame written. |
| StreamObserved.BodyFollows | stream_runtime.go:596-627 | After a written frame's raw record comes its packet's, for as many bytes as the packet has; after any other record, none. |
| StreamWaits.StepWaits | stream_budget.go:75-100 | Every step keeps: until the stop nobody waits for capacity who could be served, and a packet that waits asked before the records made meanwhile. |
| StreamWaits.RecordsExactly | observation.go:155-203 | In every run not stopped, a record the coordinator waits to make can still be made without a stop exactly when it fits the budget beside the call and the packet the coordinator itself holds; otherwise no step of the peer, the sink, a reader or a writer moves the coordinator. |
| StreamCompletes.SendsExactly | stream_runtime.go:1052-1095 | There is a run in which a Write is told that it was sent while the stream runs exactly when the stream has two items, or one and no sink. |
| StreamCompletes.ReceivesExactly | stream_runtime.go:994-1027 | There is a run in which a Read is given a packet of a size while the stream runs exactly when the budget has an item and that many bytes. |
| StreamTheorems.EveryRunGood | stream_runtime.go:91-124 | In every reachable state all four invariants hold together. |
| StreamMemory.OneUncharged | stream_runtime.go:366-411 | Before the stop at most one decoded packet is held uncharged, and none while a frame is being decoded: the coordinator carries one only while none waits for its grant. |
| StreamMemory.HeldWithin | stream.go:206-218 | With room for a working set and one frame more, the shares of every holder together (the charged queues, a frame for the reader or a frame and its decompression for the coordinator, the packet decoded and not yet charged, a working set for a packet going out) keep within the buffer in any state a run reaches before the stop. |
| StreamMemory.MemoryBounded | limits.go:76-86 | While packets decode to at most the decompressed limit, that sum keeps within the buffer in every run before the stop if and only if the buffer has room for one working set and one frame more; an accepted smaller buffer is exceeded by a frame arriving while a packet leaves. |
| StreamCapacity.ChargedWithin | stream_budget.go:46-92 | When nothing is recorded, what is charged is at most the number of items times the longest packet, and at most the byte bound. |
| StreamCapacity.LongPacketsBounded | stream.go:206-218 | The exact condition when packets may be longer than the decompressed limit, as frames without an envelope allow: besides that room, the longest packet waiting beside queues as full as they can get must fit. |
| StreamCapacity.ChannelsBounded | stream.go:175-189 | In every run, stopped or not, neither the Read queue nor the record channel holds more than the item bound. |
| StreamTheorems.OutcomeForGood | stream_runtime.go:1047-1095 | What a Write was told stays true of its frame however the run goes on. |
| StreamTheorems.DecodedPacketLost | stream_runtime.go:286-292 | A run in which a packet decoded before the stop is in no place Read could take it from. |
| Cfb8.EncryptedInMode | wire/java/cfb8.go:53-70 | Encryption satisfies the defining equations of CFB with an 8-bit segment (NIST SP 800-38A, section 6.3), for any block function. |
| Cfb8.ModeIsDecrypted | wire/java/cfb8.go:53-70 | Those equations determine the plaintext from the ciphertext and the ciphertext from the plaintext. |
| Cfb8.DecryptsEncrypted | wire/java/cfb8.go:43-70 | Decrypting what was encrypted gives it back. |
| Cfb8.EncryptsDecrypted | wire/java/cfb8.go:43-70 | And the other way about. |
| Cfb8.Chunked | wire/java/cfb8.go:53-70 | Cutting a message into calls anywhere changes neither the output nor the register. |
| Cfb8.Cipher.constructor | wire/java/cfb8.go:29-40 | A new cipher's register is the initialization vector. |
| Cfb8.Cipher.XORKeyStream | wire/java/cfb8.go:53-70 | The per-byte loop writes the transformed bytes, in place or not, and leaves the register for the next call. |
| ConduitRuns.FollowsOn | conduit.go:55-85 | Output that follows its input through a switch still does after one more chunk. |
| ConduitRuns.ReadsInClear | conduit.go:55-68 | In any run of operations without an inbound switch, what was delivered is what was handed out and then what is held: nothing is lost, repeated or reordered. |
| ConduitRuns.ReadsThrough | conduit.go:55-68 | In any run with the inbound switch anywhere in it, what is handed out is raw[..k] and then the decryption of raw[k..], k the bytes handed out by the switch; a switch between reads comes when everything delivered has been handed out. |
| ConduitRuns.SwitchedSomewhere | conduit.go:127-145 | A run that ends decrypting was switched by exactly such an operation. |
| ConduitRuns.WritesInClear | conduit.go:72-85 | In any run without an outbound switch the transport is given what was sent. |
| ConduitRuns.WritesThrough | conduit.go:72-85 | And with one, sent[..j] and then the encryption of sent[j..], j the bytes written by the switch. |
| ConduitRuns.NeverBack | conduit.go:92-167 | A switch is for good, whatever operations follow. |
| ConduitRuns.EndToEnd | conduit.go:55-85 | A sender's run and a receiver's run switched at the same byte with the same key: whatever of the sender's bytes has been delivered and handed out is what was sent. |
| Conduit.Conduit.Fetch | conduit.go:55-68 | The transport read touches nothing past what it returns and is made only into an empty buffer; on the conduit's value it is one fetching operation. |
| Conduit.Conduit.HandOut | conduit.go:55-68 | Decryption happens at hand-out, in the caller's array, with whatever cipher is installed by then. |
| Conduit.Conduit.Read | conduit.go:55-68 | A read fills the caller's array with the next bytes handed out and touches nothing past them. |
| Conduit.Conduit.Write | conduit.go:72-85 | A write sends the caller's bytes, encrypted from the switch on, and does not change the caller's buffer. |
| Conduit.Conduit.EnableReadEncryption | conduit.go:127-145 | Refused without a cipher, twice, or with bytes unread, in that order; otherwise decryption begins at the next byte handed out. |
| Conduit.Conduit.EnableWriteEncryption | conduit.go:152-167 | Refused without a cipher or twice; otherwise encryption begins at the next byte written. |
| Conduit.Conduit.EnableEncryption | conduit.go:92-111 | Both halves or neither. |
| Conduit.Conduit.ReadSwitchable | conduit.go:177-183 | An overrun with the number of unread bytes, or none. |
| Conduit.ApplyTransport | wire/java/encryption.go:192-221 | Which halves an encryption control installs, with the key as its own vector, and which refusal it gives. |
| LoginScript.SettingSuits | login/negotiator.go:145-294 | Which state and threshold each packet of the script crosses under. |
| LoginSafe.AtSwitchIn | login/negotiator.go:384-399 | When the client switches its inbound half, it has been handed exactly the key request and nothing is unread. |
| LoginSafe.AtSwitchOut | login/negotiator.go:401-412 | When it switches its outbound half, the key response is the last plaintext frame. |
| LoginSafe.AtSwitchBoth | login/acceptor.go:425-441 | When the server switches both, it has been handed exactly the key response, and its key request is the only frame it has sent. |
| LoginSafe.UpSameCipher | conduit.go:127-167 | Each frame the server decodes is decrypted as it was encrypted, byte for byte. |
| LoginSafe.DownSameCipher | conduit.go:127-167 | And each frame the client decodes. |
| LoginSafe.StepFine | login/acceptor.go:158-301 | Every step of either driver, stream or channel keeps the two on one script and fails nothing. |
| LoginSafe.RunFine | login/negotiator.go:145-294 | The same over every interleaving. |
| LoginTheorems.EveryLogin | login/negotiator.go:335-415 | In every reachable state nothing has failed (no overrun, no second switch, no undecodable frame), and in each direction both ends switched at one byte with one secret. |
| LoginTheorems.EveryFrameWhole | conduit.go:55-85 | In every reachable state each frame is in clear or encrypted from its first byte to its last: online, the client's first two and the server's first are in clear and no other; offline, all are. |
| LoginTheorems.FinishedAgreed | login/acceptor.go:226-324 | Finished drivers are both in play with the same threshold, the same secret if online, and nothing unread. |
| LoginTheorems.NoDeadlock | login/acceptor.go:269-301 | A login that has not finished can always go on. |
| LoginTheorems.EveryStepNearer | login/negotiator.go:145-294 | Every step lowers a measure: packets still to cross, then frames to decode, bytes to hand out, bytes to fetch. |
| LoginTheorems.ScheduleStops | login/acceptor.go:226-260 | No endless schedule of steps exists: any schedule comes to a step that is not enabled. |
| LoginTheorems.EveryLoginFinishes | login/acceptor.go:158-213 | A run that can go no further has finished on both sides, with everything agreed. |
| LoginChecks.FailsExactly | login/acceptor.go:158-441 | In any state, with anybody at the other end, each failure has exactly its causes: bytes unread at a switch, a second switch, a frame under another cipher, setting or state, a packet not waited for, a response that does not hold the token, a packet the session does not allow. |
| LoginChecks.ProvedFirst | login/acceptor.go:374-441 | No server goes past the key exchange without a response that opens to its own token, and the secret it installs is the one sealed in it. |
| LoginChecks.UnreadRecorded | conduit.go:52-66 | What the conduit has recorded as unread is what was unread when it last handed anything out. |
| LoginChecks.FailsSwitchingNothing | conduit.go:92-111 | A login that fails installs no cipher as it does: of a server's two halves, both or neither. |
| LoginChecks.MovesExactly | generated/java/v26_1/protocol.go:320-367 | Which states each login packet's transition is allowed in, and where it leads. |
| CaptureFields.ReadsWritten | capture/writer.go:216-226 | A field reads back as itself and leaves the reader the string table the writer has. |
| CaptureFields.ReadsAllWritten | capture/writer.go:177-213 | So does any run of fields: both sides hold the same table after each. |
| CaptureFields.StaysDistinct | capture/writer.go:216-226 | No string is ever in the table twice, and indexes never change. |
| CaptureFormat.DecodesObservation | capture/reader.go:259-356 | A record's body decodes to the record of its observation, for every kind. |
| CaptureFormat.DecodesTrailer | capture/reader.go:358-384 | A trailer's body decodes to the trailer. |
| CaptureTheorems.ReadsFile | capture/reader.go:105-176 | Reading goes through the records of all observations in order and on with whatever follows. |
| CaptureTheorems.ReadsClosedCapture | capture/reader.go:105-176 | A closed capture gives exactly its records, then the end, with the trailer. |
| CaptureTheorems.ReadsOpenCapture | capture/reader.go:96-104 | One never closed gives its records, then the end, without a trailer. |
| CaptureTheorems.ReadsPrefix | capture/reader.go:105-176 | Any byte prefix gives exactly the whole records inside it, then a clean end at a record boundary and a truncation anywhere else: never a corrupt or oversized record. |
| CaptureTheorems.BoundaryIs | capture/reader.go:105-130 | What is left of a prefix after its whole records is counted exactly, so a cut is at a boundary exactly when nothing is left. |
| CaptureTheorems.ReadableExactly | capture/reader.go:178-182 | A record the writer accepts is read back if and only if its whole body is within the reader's own bound, and is refused as too large otherwise. |
| CaptureLayout.RecordWritten | capture/writer.go:177-213 | A record's first twenty-seven bytes, in numbers: kind, sequence, frame, elapsed time, direction, whether it is redacted. |
| CaptureLayout.RecordEnds | capture/writer.go:177-213 | It ends with its payload, and the payload's length in four bytes before it. |
| CaptureLayout.TrailerWritten | capture/writer.go:248-263 | A trailer begins with kind 0, the number of records and the last sequence. |
| CaptureLayout.RecordRead | capture/reader.go:259-356 | What a record that is taken says is what is written in those places. |
| CaptureLayout.TrailerRead | capture/reader.go:358-384 | And a trailer. |
| CaptureLayout.UnknownRefused | capture/reader.go:333-335 | No other kind is taken. |
| CaptureLayout.YieldsExactly | capture/reader.go:105-176 | The reader yields a record exactly when the bytes begin with a length within its bound, a body of that length that decodes to it, and that body's checksum. |
| CaptureLayout.StopsExactly | capture/reader.go:105-176 | It stops without a record for exactly these reasons: bytes missing from a length, a body or a checksum; a body that is not what its checksum was taken of, or decodes to nothing; the end of the bytes, or a trailer. |
| CaptureLayout.TooLargeExactly | capture/reader.go:118-131 | A record is refused as too large exactly when the length before it is beyond the header's frame limit by more than 1,048,576 bytes. |
| CaptureLayout.DamageRefused | capture/reader.go:150-155 | A body other than its checksum was taken of is refused as corrupt, and nothing after it is read. |
| CaptureDigest.SameLine | capture/digest.go:39-55 | A line of the transcript ends where it says, and says sequence, direction, state, packet ID, payload length and payload hash. |
| CaptureDigest.TranscriptDecodable | capture/digest.go:39-69 | Two transcripts are equal if and only if their records' summaries are. |
| CaptureDigest.LineLayout | capture/digest.go:39-55 | Where the parts of a record's line are, in numbers. |
| CaptureDigest.TranscriptBegins | capture/digest.go:28-37 | The transcript begins with version 1 in eight bytes. |
| CaptureDigest.Digester.WriteUint64 | capture/digest.go:60-64 | Eight bytes, high first, are fed. |
| CaptureDigest.Digester.WriteString | capture/digest.go:66-69 | A length and then the text are fed. |
| CaptureDigest.Digester.Add | capture/digest.go:39-55 | Feeding a record field by field feeds its line, and nothing for a record that did not cross the wire. |
| CaptureDigest.Digester.Sum | capture/digest.go:57-58 | The sum covers the transcript of everything added. |
| CaptureWriter.Writer.constructor | capture/writer.go:59-94 | A new writer has written nothing and knows no string. |
| CaptureWriter.Writer.AppendString | capture/writer.go:216-226 | A definition the first time and a reference after, with the map keeping each string's place in the table. |
| CaptureWriter.Writer.BuildRecord | capture/writer.go:177-213 | The body built in place is the written form of the record's fields. |
| CaptureWriter.Writer.WriteRecord | capture/writer.go:229-244 | Length, body, checksum. |
| CaptureWriter.Writer.Observe | capture/writer.go:124-169 | Every refusal, in order, writes nothing; otherwise the file is that of one more observation. |
| CaptureWriter.Writer.BuildTrailer | capture/writer.go:248-263 | The trailer's body. |
| CaptureWriter.Writer.Close | capture/writer.go:248-263 | Closing appends a trailer that says how many records there are, the last one's sequence, the digest of what was added and how it was made; closing again does nothing. |
| CaptureWriter.WriterRoundTrip | capture/writer.go:248-263 | What a writer closed reads back as what it observed, with a trailer whose count is the number of observations as 64 bits, whose last sequence is the last observation's or 0, and whose digest version is 1. |
| CaptureWriter.DigestAgrees | capture/writer.go:155-166 | The digest of the records read back covers what the writer digested if and only if no raw record carries a packet ID. |
| CaptureReader.Cursor.Take | capture/reader.go:192-200 | A field within the body, or nothing taken. |
| CaptureReader.Reader.String | capture/reader.go:231-257 | A reference into the table so far or a new entry, and refused exactly when it is neither. |
| CaptureReader.Reader.DecodeRecord | capture/reader.go:259-356 | The branching decoder accepts exactly what the format decodes, and leaves the same table. |
| CaptureReader.Reader.DecodeTrailer | capture/reader.go:358-384 | Likewise for a trailer. |
| CaptureReader.Reader.NextRecord | capture/reader.go:105-176 | One call gives the record, end or error the format gives, on any bytes. |
| Replay.PlaysEverything | replay/player.go:269-303 | A replay that does not fail plays every record that crossed the wire, in order. |
| Replay.StopsAtFirst | replay/player.go:269-303 | A replay that fails has played exactly the records before the one that failed it, and that one is why. |
| Replay.ReplayDigest | replay/player.go:269-318 | A completed replay's transcript is the writer's if and only if no raw record carries a packet ID. |
| Replay.ReplayMatchesTrailer | replay/player.go:306-327 | Then the digest it reports is the trailer's. |
| Replay.ClosedCaptureReplays | replay/player.go:306-318 | From the bytes of a closed capture to that digest. |
| ReplayDrift.DivergesExactly | replay/player.go:465-496 | The divergences a replay reports are exactly the inbound packet records whose recorded state differs from what the codec reached by playing everything before them, in order, each with both states. |
| ReplayDrift.ReplaysOwnRecording | replay/player.go:378-419 | A recording replayed through the codec that made it does not fail, and reports exactly the redacted inbound frames that moved the state. |
| ReplayDrift.OwnRecordingAgrees | replay/player.go:465-496 | So it reports none if and only if no redacted frame moved the state. |
| ReplayDrift.KeepsUpExactly | replay/player.go:399-408 | The replay is where the session was after an event if and only if it was shown the frame, or the event changed nothing but the state. |
| ReplayDrift.SettingLost | replay/player.go:399-408 | An input where it is not: a packet sent changed another setting, and a frame the session decoded is refused in the replay of its own recording. |
| Replay.SendsEveryFrame | replay/player.go:499-512 | A replay to a peer that completes has sent exactly the frames recorded in that direction, none of them redacted. |
| Replay.Player.Prime | replay/player.go:429-441 | The first record alone sets the session's state, if it names one; later records leave it, and nothing else of the session changes. |
| Replay.Player.Reconcile | replay/player.go:472-496 | Afterwards the session's state is the recorded one, and one divergence naming both states was noted exactly when it was another and the record is inbound. |
| Replay.Player.Follow | replay/player.go:449-463 | The session moves only by a transition it proposed and validated, and the replay fails exactly when proposing or validating does. |
| Replay.Player.DecodeRecord | replay/player.go:378-419 | After a packet record the session is in the recorded state; divergences come from inbound packet records alone; it fails exactly on an inbound raw frame that was not withheld and cannot be read, decoded or followed. |
| Replay.Player.SendRecord | replay/player.go:499-512 | A frame of the chosen direction is sent whole, and a redacted one refused. |
| Replay.Player.NextRecord | replay/player.go:269-303 | The next record that crossed the wire, once applied; anything else leaves the digest alone. |
| Replay.Player.Run | replay/player.go:306-318 | A run plays the whole capture: its report and its error are those of playing everything the reader gives. |
| ModifiedUtf8.DecodesEncoded | wire/java/nbt.go:261-301 | Decoding what was encoded gives exactly the UTF-16 code units, for every sequence of Unicode scalar values (section 4.4.7 of The Java Virtual Machine Specification). |
| ModifiedUtf8.Utf16Injective | wire/java/nbt_network.go:174-198 | Code units say which scalar values they came from. |
| ModifiedUtf8.EncodingInjective | wire/java/nbt_network.go:174-202 | Different texts have different encodings. |
| ModifiedUtf8.NoZeroByte | wire/java/nbt_network.go:174-202 | No encoded byte is zero. |
| ModifiedUtf8.UnitBits | wire/java/nbt.go:263-301 | The first code unit of any bytes in numbers: one, two or three bytes with seven, eleven or sixteen bits; everything else is ill-formed. |
| ModifiedUtf8.Surrogates | wire/java/nbt_network.go:180-198 | A scalar value above the first plane is two surrogates with ten bits each, and any other is itself. |
| ModifiedUtf8.EncodedWidth | wire/java/nbt_network.go:180-198 | How many bytes each scalar value takes: zero takes two, a surrogate pair six. |
| ModifiedUtf8.PairsInjective | wire/java/nbt.go:261-301 | The decoded key of two bytes a code unit determines the code units. |
| ModifiedUtf8.EncodeModifiedUTF8 | wire/java/nbt_network.go:180-198 | The encoding loop computes the encoding. |
| ModifiedUtf8.DecodeModifiedUTF8 | wire/java/nbt.go:263-301 | The decoding loop computes the key, and refuses exactly ill-formed text. |
| NbtTree.Accepts | wire/java/nbt.go:132-163 | The encoding of any tree within the limits is accepted whole, whatever follows it. |
| NbtTree.Sound | wire/java/nbt.go:132-163 | Whatever is accepted is the encoding of a tree within the limits. |
| NbtTree.ValidatesExactly | wire/java/nbt.go:114-130 | Validation accepts a root if and only if the data begins with its encoding and it keeps the limits, and returns the encoding's length. |
| NbtTree.ValidatesNetworkExactly | wire/java/nbt_network.go:111-140 | The same for the anonymous root. |
| NbtTree.KeysDistinct | wire/java/nbt.go:188-216 | No two entries of an accepted compound have the same decoded key. |
| NbtLayout.FixedWidths | wire/java/nbt.go:143-148 | Tag 1 takes one byte, 2 two, 3 and 5 four, 4 and 6 eight, for the validator and for the walker. |
| NbtLayout.Arrays | wire/java/nbt.go:218-243 | Tags 7 and 11 take a four-byte count and as many items of one or four bytes, and nothing else is accepted. |
| NbtLayout.Strings | wire/java/nbt.go:245-259 | Tag 8 takes a two-byte length and as many bytes of modified UTF-8. |
| NbtLayout.Lists | wire/java/nbt.go:165-186 | Tag 9 takes a tag up to 11, a count, and as many payloads of that tag one deeper; only an empty list may have the end tag. |
| NbtLayout.Compounds | wire/java/nbt.go:188-216 | Tag 10 takes entries of a tag from 1 to 11, a new name and a payload one deeper, up to the end tag 0. |
| NbtLayout.OthersRefused | wire/java/nbt.go:132-163 | Every other tag, and everything below the depth limit, is refused. |
| NbtLayout.SkipsList | wire/java/nbt_lookup.go:224-240 | What the walker skips for a list. |
| NbtLayout.SkipsCompound | wire/java/nbt_lookup.go:242-258 | And for a compound. |
| NbtLayout.IntBytes | wire/java/nbt_lookup.go:43-51 | The integer found is four bytes, most significant first in two's complement, under tag 3 alone. |
| NbtLayout.FloatAccepted | wire/java/nbt.go:143-148 | A compound holding one float, byte for byte, is accepted with its length of ten. |
| NbtLayout.FloatTooDeep | wire/java/nbt.go:132-135 | And refused by a depth limit of one. |
| NbtCursor.Cursor.TakeBytes | wire/java/nbt.go:315-328 | Bytes within the value, or a refusal. |
| NbtCursor.Cursor.ReadPayload | wire/java/nbt.go:132-163 | The recursive reader accepts exactly what parses, and ends where it ends; it terminates on every input. |
| NbtCursor.Cursor.ReadList | wire/java/nbt.go:165-186 | Likewise for a list. |
| NbtCursor.Cursor.ReadCompound | wire/java/nbt.go:188-216 | Likewise for a compound and its growing key set. |
| NbtCursor.Cursor.ReadArray | wire/java/nbt.go:218-228 | Likewise for an array. |
| NbtCursor.Cursor.ReadCount | wire/java/nbt.go:230-243 | A count that is not negative and within the item limit. |
| NbtCursor.Cursor.ReadString | wire/java/nbt.go:245-259 | A text within the limit, as its key. |
| NbtCursor.ValidateNBT | wire/java/nbt.go:114-130 | The validator returns the specified length, or refuses. |
| NbtCursor.ValidateNetworkNBT | wire/java/nbt_network.go:125-140 | So does the network validator. |
| NbtLookup.SkipsParsed | wire/java/nbt_lookup.go:173-209 | On any accepted value the walker skips exactly the bytes the validator consumed. |
| NbtLookup.EnterByBytes | wire/java/nbt_lookup.go:94-117 | Entering a compound finds an entry if and only if one has the key's very bytes for its name, and stops at its payload. |
| NbtLookup.IntByBytes | wire/java/nbt_lookup.go:39-51 | The integer at a path of raw keys is the one the validated tree has under those bytes. |
| NbtKeys.OneNamed | wire/java/nbt.go:188-216 | At most one entry of a validated compound has a decoded name, however it is encoded. |
| NbtKeys.BytesFindNamed | wire/java/nbt_lookup.go:75-117 | The encoding of a text finds the entry with that decoded name if and only if the entry's name is so encoded. |
| NbtKeys.EnterFinds | wire/java/nbt_lookup.go:94-117 | Entering a validated compound by a text finds the entry with that decoded name, at its payload, if and only if its name is canonically encoded. |
| NbtKeys.FollowFinds | wire/java/nbt_lookup.go:53-88 | Following a path of texts finds what the tree of decoded names has there if and only if every name along it is canonically encoded. |
| NbtKeys.IntFinds | wire/java/nbt_lookup.go:39-51 | The integer looked up in a validated value is the one at that path of the tree of decoded names if and only if the names along it are canonically encoded or the tree has no integer there. |
| NbtKeys.NetworkIntFinds | wire/java/nbt_lookup.go:33-51 | And in a validated network value. |
| NbtKeys.OverlongHidden | wire/java/nbt_lookup.go:75-79 | A validated value where they differ: the name C1 A1 is "a" to the validator and refuses a second "a", and looking "a" up finds nothing. |
| NbtKeys.NameTaken | wire/java/nbt.go:188-216 | A second entry of a decoded name is refused, however either is encoded. |
| NbtWalker.Walker.SkipPayload | wire/java/nbt_lookup.go:173-209 | The recursive skip is the skip function, and terminates on every input. |
| NbtWalker.Walker.SkipList | wire/java/nbt_lookup.go:224-240 | Likewise for a list. |
| NbtWalker.Walker.SkipCompound | wire/java/nbt_lookup.go:242-258 | Likewise for a compound. |
| NbtWalker.Walker.SkipArray | wire/java/nbt_lookup.go:211-222 | Likewise for an array. |
| NbtWalker.Walker.EnterEntry | wire/java/nbt_lookup.go:90-128 | The entering loop is the entering function. |
| NbtWalker.LookupValue | wire/java/nbt_lookup.go:53-88 | The walk over a path of texts is the lookup function on their encodings. |
| NbtWalker.LookupInt | wire/java/nbt_lookup.go:33-51 | And the integer read off it. |
| VarInt.IntRoundTrip | wire/java/varint.go:9-60 | Every 32-bit number is read back from at most five bytes, leaving what follows. |
| VarInt.LongRoundTrip | wire/java/varint.go:63-99 | Every 64-bit number from at most ten. |
| VarInt.IntEnds | wire/java/varint.go:9-26 | A 32-bit number ends at the first of at most five bytes that is below 128; with none among five it is too long, and with fewer bytes it is cut. |
| VarInt.LongEnds | wire/java/varint.go:63-80 | A 64-bit number among ten. |
| VarInt.GroupAt | wire/java/varint.go:36-49 | Each byte written holds seven bits, the lowest first, and says whether another follows. |
| VarInt.ShortestIsGroups | wire/java/varint.go:36-60 | Bytes read are the encoding written if and only if there are as few of them. |
| VarInt.AmbiguousFrom28 | wire/java/varint.go:9-26 | A number has a second encoding of the same length if and only if it is at least 2^28, because the fifth byte has bits that are dropped. |
| VarInt.GroupsInjective | wire/java/varint.go:36-49 | Different numbers have different encodings. |
| VarIntLoops.ReadBits | wire/java/varint.go:9-26 | The loop of shifts and ors computes the groups' value, with what does not fit the word dropped. |
| VarIntLoops.ReadVarInt | wire/java/varint.go:9-26 | The reader of 32-bit numbers. |
| VarIntLoops.ReadVarLong | wire/java/varint.go:63-80 | The reader of 64-bit numbers. |
| VarIntLoops.PutVarInt | wire/java/varint.go:36-49 | The writing loop writes the encoding and nothing past it. |
| VarIntLoops.VarIntSize | wire/java/varint.go:51-60 | The size is the encoding's length. |
| Framer.ParsesBuilt | wire/java/framer.go:30-82 | A built frame is read back whole, and what follows it is left. |
| Framer.ParsedIsBuilt | wire/java/framer.go:106-140 | Any bytes accepted as a frame are the frame that would have been built: framing is canonical. |
| Framer.OneEncoding | wire/java/framer.go:106-140 | A payload has one encoding. |
| Framer.ParsesAll | wire/java/framer.go:30-60 | Frames written one after another are read in order, and then the stream ends cleanly. |
| Framer.CleanEndExactly | wire/java/framer.go:33-60 | An end reads as clean if and only if nothing is left, or exactly the shortest encoding of a length from one to the limit. |
| Framer.CutFrameLooksClean | wire/java/framer.go:114-121 | So a cut frame can look like a clean close. |
| Framer.BuildsExactly | wire/java/framer.go:63-82 | A frame is built for a payload from one byte to the limit and for no other, and the refusal says which. |
| Framer.LengthRefused | wire/java/framer.go:33-60 | A length that is negative, zero or above the limit, or a payload that is not all there, is refused with its own error; any other frame is read. |
| Framer.PaddingRefused | wire/java/framer.go:110-140 | A length in more bytes than it needs or in more than five is refused, and so is one that is cut. |
| Framer.ReadFrameLength | wire/java/framer.go:110-140 | The loop gives the specified length and the exact bytes it took, or the specified error. |
| Framer.ReadFrame | wire/java/framer.go:33-60 | One frame, with its prefix kept. |
| Framer.BuildFrame | wire/java/framer.go:63-82 | Prefix and payload in one buffer. |
| Compression.DecodesEncoded | wire/java/compression.go:241-310 | What is encoded decodes to itself, under either policy, if and only if it is not an empty body at threshold zero. |
| Compression.EmptyMisread | wire/java/compression.go:276-298 | That body is never read back as itself. |
| Compression.PolicyExactly | wire/java/compression.go:71-103 | A well-formed envelope is refused by the policy exactly under the strict one, when its body was compressed below the threshold or left uncompressed from it up; otherwise its body is taken. |
| Compression.RefusesOthers | wire/java/compression.go:116-237 | Every other refusal and its cause: an unusable control, no length, a negative length, a length or body beyond the limit, a broken stream, one of another length, bytes after it. |
| Compression.EncodesExactly | wire/java/compression.go:248-310 | When the encoder refuses and why, and which form it writes. |
| Compression.DecodedWithinLimit | wire/java/compression.go:116-192 | No policy accepts a body beyond the decompressed limit. |
| Compression.PacketWithinLimit | wire/java/compression.go:116-192 | A packet received is shorter than the decompressed limit or, without an envelope, than its frame. |
| Compression.SplitsJoined | wire/java/framer.go:142-174 | A joined body splits into its packet. |
| Compression.PacketRoundTrip | wire/java/framer.go:142-174 | Joined, enveloped and framed, a packet comes back unchanged at every threshold and under either policy. |
| Compression.GoesOutExactly | wire/java/framer.go:142-174 | A packet goes out exactly when its number and payload fit a frame, its control may be used, its body is within the decompressed limit, and what it is enveloped in fits a frame. |
| Compression.EncodeCompression | wire/java/compression.go:248-310 | The encoder computes the envelope or the refusal. |
| Compression.DecodeCompression | wire/java/compression.go:116-192 | The decoder computes the body or the refusal. |
| LpVec3.UnpackNear | wire/java/vector.go:151-164 | A quantised fraction is within half a step of what it was. |
| LpVec3.ReadsEncoded | wire/java/vector.go:54-97 | A packed vector is read back exactly if its scale is below 2^33 and refused otherwise. |
| LpVec3.RefusedExactly | wire/java/vector.go:54-97 | A vector is refused for want of bytes, for a malformed scale or for a negative one, each in exactly these cases. |
| LpVec3.VectorRoundTrip | wire/java/vector.go:99-141 | Reading a written vector succeeds if and only if it is written as zero or its scale is below 2^33; then the scale is exact and each component within scale/32766 of the vector's own. |
| LpVec3.RoundTripBounds | wire/java/vector.go:99-141 | In numbers: a written vector is read back exactly when no component exceeds 2^33 - 1, and then none is off by more than the largest of them plus one, times 0.0000305195. |
| LpVec3.LayoutBits | wire/java/vector.go:124-135 | Where the scale's two bits, its continuation bit and the three components are in the six bytes. |
| LpVec3.UnpackWithin | wire/java/vector.go:151-164 | Every fifteen-bit step reads as a fraction from -1 to 1. |
| LpVec3.NonzeroFirstByte | wire/java/vector.go:109-130 | An encoding begins with the zero byte, and is then that byte alone, exactly when every component is below 0.00003051944088384301. |
| LpVec3.WriteLPVec3 | wire/java/vector.go:100-141 | The writer computes the specified bytes. |
| LpVec3.ReadLPVec3 | wire/java/vector.go:54-97 | The reader computes the specified vector, or the refusal. |
| History.NewRing | history/ring.go:42-51 | A ring exactly for positive bounds. |
| History.Ring.Observe | history/ring.go:58-80 | After one more observation the ring holds the longest suffix of the whole history that keeps both bounds (one oversized record alone is kept), its byte counter is their sum, and dropped plus retained is the number observed. |
| History.Ring.Snapshot | history/ring.go:86-97 | A snapshot is that suffix, oldest first. |
| History.Ring.Dropped | history/ring.go:99-106 | How many of the history a snapshot lacks. |
| History.LongestUnique | history/ring.go:55-80 | There is only one such suffix. |
| History.StillTooLong | history/ring.go:72-77 | A suffix that did not fit does not fit with one record more, so eviction never takes too much. |

## Left out

- Sessions, generated codecs and transition policies: a decode, an encode and a transition are choices of a step; a replay's codec is a parameter.
- The pre-frame hook, the pipeline report, redaction of sensitive packets and the metadata of a packet.
- Timers, the linger timeout, contexts as objects, replay sleeping and wall-clock times: they are choices, or opaque numbers.
- The Go memory model: a mutex section or a channel operation is one step. Closing the stop channel and closing the budget are two steps, as in the source.
- More is allowed than the source allows in places where that only adds runs: a Write may enter after the stop, a pump may fail at any point, a Read may return its charge at any later time.
- Errors are kept as kinds; their texts and causes are not.
- The stream's processing token and channels are part of the state machine on values, not Dafny objects, because many goroutines share them.
- Login refusals (disconnect packets, a failed verifier, the outbound-switch error that a login holds back), `WithTerminalState`, identity and field parsing: the login is between honest drivers. A driver's loop is a program counter of the state machine, since two of them interleave.
- The JSON header of a capture, its magic bytes and errors of the sink; CRC-32, SHA-256, RSA, AES and zlib are function parameters, with only the inverse laws a theorem names.
- Java's server hash digest, public key encoding, usernames and UUIDs.
- The buffer's modes, paths in errors, append limits and fixed-width fields; optional values and holders.
- Compression.DecodeCompression: the inflating loop is one parameter, so the order in which a too-long and a broken stream are told apart inside it is not captured.
- LpVec3.VectorRoundTrip: over real numbers, so floating-point rounding and not-a-number, which the source writes as zero, are not captured.
- LpVec3.ReadLPVec3: which way the continuation's VarInt is malformed is one error.
- StreamMemory.MemoryBounded: before the stop only; after it the coordinator charges past the ceiling on purpose. A frame counts as `frameBytes`, without its length prefix, and a packet on its way out as one working set, which is the source's own reckoning; copies made inside an encoder or decoder, and a frame kept alive by a packet that aliases it, are not counted.
- StreamCapacity.LongPacketsBounded: streams without a sink, since a record's own charge may fill the queues as well.
- StreamEnds.CanAlwaysEnd: there is a way to the end; that every fair schedule takes it is not stated.
- StreamObserved.EverythingObserved: the frames of calls and the packets decoded; the goodbye's records, and those of refused packets and secrets, are not counted.
- StreamDrops.NothingLost: a packet still queued counts as one Read can return, whether or not anybody reads it.
- StreamWrites.OutcomeTrue: an ambiguous write says only that the coordinator had claimed the call, since the peer may have any part of the frame.
- ReplayDrift.ReplaysOwnRecording: the recorder takes the transition the codec itself proposes, states have names, and what the replay is not shown changes nothing but the state; with `ReplayDrift.KeepsUpExactly` that last condition is exact for each event.
- CaptureTheorems.ReadsPrefix: prefixes of the records, after a whole header.
- History.Ring.Observe: the 64-bit eviction counter does not wrap, and copies of payloads are values.
- BudgetObject.Budget.Reserve: machine integers of the counters are unbounded; their sums are bounded by the limits.
- Blocking acquisition (`acquire`, `acquireUntil`) is a step of the stream for each way it can end.
- `PeekTopBitSetContinues` and `SetTopBitSetContinues`, optional NBT values, the size check of `NewNetworkNBTText`: easy members.
- ModifiedUtf8.EncodeModifiedUTF8: a text is a sequence of scalar values; a Go string that is not valid UTF-8 is first read as replacement characters.
- Network, files, HTTP, command-line tools, registries and generated tables.
