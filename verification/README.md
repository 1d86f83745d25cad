# The ffl-p2p runtime, modelled and proved in Dafny

ffl-p2p moves one reliable QUIC stream over an ICE socket. ngtcp2 speaks QUIC and libjuice speaks ICE; the code
between them is a runtime of queues, pooled buffers, a scheduler with a worker thread per connection, flow-control
credit, a retry machine for refused datagrams, wake tokens and a small file protocol. This project models that
runtime and proves what it keeps for every interleaving and for every behaviour of ngtcp2, libjuice, the kernel and
the clock that their contracts allow.

`dafny verify dfyconfig.toml` checks everything.

## How the project is laid out

- `Datagrams.dfy`: datagram boundaries as one function (`Cut`), shared by every path that glues datagrams together.
- `AggregateSend.dfy`: from the datapath hook and the libjuice send loop to the binding: how far a send got.
- `Ngtcp2.dfy`: ngtcp2 as the writer of packets, with its own record of what it was asked, took and wrote.
- `TransmitQueue.dfy`: the deque of sent chunks refines the byte string that was written; FIN.
- `TransportSend.dfy`: the packet flush with its retry buffer, as a class with a log of what became of every datagram.
- `BufferPool.dfy`: the pool's intrusive free list and the chained batches, as linked heap objects.
- `Runtime.dfy`: the state machine of one connection: the worker, any number of application threads and datagram
  producers, `queueOperation`, the run queue, the flags, the receive pipe, credit, offsets, retry and timers. A step is
  one section under a mutex, one atomic access, or a stretch of code that touches only what the worker owns.
  `RuntimeScheduling.dfy`, `RuntimeStreams.dfy` and `RuntimeTimers.dfy` hold the invariants and the proof that every
  step keeps them (sums over threads are in `Counting.dfy`, named sequence facts in `Sequences.dfy`);
  `RuntimeRuns.dfy` lifts them to every run; `RuntimeProperties.dfy` says what they mean, `RuntimeProgress.dfy` what
  has to happen next; `RuntimeTraps.dfy` has concrete runs that refute stronger claims; `RuntimeStop.dfy` has the exact condition for a connection after the stop; `RuntimeRefinement.dfy` shows that the
  classes of the sending half do what the machine's steps say.
- `WakeTokens.dfy`: the agent's two queues and two binary tokens, with releases outside the lock.
- `WriteFlow.dfy`, `FileTransfer.dfy`: watermarks and the file protocol of the Python package.
- `CoalescedReceive.dfy`, `TimerWheel.dfy`, `Clock.dfy`: the Windows receive path and the timer wheel.

## What is assumed of the environment

- ngtcp2 delivers stream bytes in order, never beyond the advertised limit (section 4.1 of RFC 9000), none after FIN.
- ngtcp2 acknowledges only submitted bytes, contiguously, and a FIN only after it was submitted.
- ngtcp2's stream writer takes a prefix of what it is offered, and sends FIN exactly when it was asked to and took
  everything it was offered. A packet with stream data is not empty and fits the room it is given.
- ngtcp2's aggregate write asks for one packet at a time, at most as many as it was asked for, none longer than the
  first, and stops after a shorter one; it glues them together and reports the first one's size as the segment size
  (or 0 for a single packet).
- ngtcp2 closes a stream without an application error only when both directions are finished (section 3 of RFC 9000),
  so after our FIN was submitted.
- A UDP send of one datagram, or of one segmented message, happens completely or not at all; a segmented send that
  reports another size than it was given counts as an input/output error that sent nothing.
- Atomic steps are sequentially consistent. Send results, packet contents, failures and timeouts are arbitrary.

## What turned out false

- "A stopped connection holds no ngtcp2 connection" fails for both roles (`RuntimeTraps.StoppedWithConnection`): a
  datagram producer (server) or a `start` (client) that passed the stopped check before the stop can push after the
  drain. `RuntimeStop.ConnectionAfterStop` says exactly when: some thread stands between that check and its push, and
  the client was never started, or the server has datagrams left over.
- Published offsets drop to zero after a stop (`RuntimeTraps.PublishedOffsetsDrop`); while not stopped they never go
  back, and `RuntimeProperties.PublishedGoesBack` names the steps that do it.
- An empty read followed by a visible FIN is not the end of the stream (`RuntimeTraps.OneReadIsNotEnough`); only the
  second read is.
- Buffered writes can exceed the high watermark. The bound is `max(high, low + chunk)`, it is reached, and the high
  watermark itself holds exactly when `low + chunk <= high` (`WriteFlow.HighWatermarkHolds`).
- A control line above 64 KiB is accepted or refused depending on how the stream is chunked; framing is independent of
  chunking exactly for shorter lines and for streams without one (`FileTransfer.FramingIndependent`).

## Model

| member | source | states |
|---|---|---|
| Datagrams.CutKeepsBytes | patches/libjuice/0005-AggregateSendBackpressure.patch:195-213 | cutting a buffer every segment loses, adds and reorders nothing |
| Datagrams.CutShape | native/datapath/DatapathWindows.cpp:302-317 | ceil(size / segment) datagrams, all of the segment size but a shorter, non-empty last one |
| Datagrams.CutAtBoundary | native/quic/Connection.cpp:1356-1376 | a buffer interrupted at a multiple of the segment size continues with the same boundaries |
| AggregateSend.SendSegments | patches/libjuice/0005-AggregateSendBackpressure.patch:195-213 | the loop's progress is what reached the wire: everything on success, a multiple of the segment size below the size otherwise |
| AggregateSend.SendAggregateUDP | patches/libjuice/0005-AggregateSendBackpressure.patch:215-251 | the same progress through the segmentation option; after the three errors that say it does not work here the datagrams go one by one |
| AggregateSend.Datapath.SendAggregate | native/datapath/DatapathPOSIX.cpp:120-204 | the hook sends everything, nothing and reports the kernel's error, or declines with nothing sent; once tried, it declines exactly at the four capability errors, which switch offload off |
| AggregateSend.Agent.ConnSendAggregate | patches/libjuice/0006-DatapathSendHook.patch:66-86 | whichever of hook and fallback answers, the reported progress is what reached the wire |
| AggregateSend.Agent.SendAggregate | patches/libjuice/0005-AggregateSendBackpressure.patch:33-56 | the same through the direct and the relayed path; a relayed candidate never sees a segmented send |
| AggregateSend.TranslateSendResult | native/ice/JuiceBinding.cpp:66-84 | which result and progress become which status, and which are refused as broken progress |
| AggregateSend.JuiceBinding.Send | native/ice/JuiceBinding.cpp:92-103 | complete, blocked and too large are exactly the kernel's last answers success, would-block and message-too-large, or a datagram over the limit, for which nobody is asked; the wire gains the datagram exactly when complete |
| AggregateSend.JuiceBinding.SendAggregate | native/ice/JuiceBinding.cpp:105-117 | the same through hook, segmentation option and loops; complete means the whole size, blocked means less and segment-aligned; the partial-send and invalid-progress exceptions are unreachable |
| TransportSend.SendSide.WireIsWhatWasWritten | native/quic/Connection.cpp:1356-1567 | between two flushes the wire, the groups refused as too large and the bytes waiting for a retry are all that ngtcp2 wrote, each packet once, unchanged and in order; with no refusal nothing is missing |
| TransportSend.CutRemainder | native/quic/Connection.cpp:1356-1376 | what is kept after an interrupted send is cut as the original would have been |
| TransportSend.SendSide.SendTransportOnce | native/quic/Connection.cpp:1290-1321 | one attempt extends the wire by the datagrams of the reported prefix, single or aggregate |
| TransportSend.SendSide.RetainPendingTransportSend | native/quic/Connection.cpp:1356-1376 | exactly when the three exceptions are thrown, and what is kept otherwise |
| TransportSend.SendSide.SendTransportBuffer | native/quic/Connection.cpp:1378-1410 | every datagram of a fresh buffer is on the wire, waiting, or in a group the binding refused as too large, and every such refusal is counted |
| TransportSend.SendSide.FlushPendingTransportSend | native/quic/Connection.cpp:1412-1461 | a retry continues where the last attempt stopped; nothing is sent twice or re-cut; its contract exceptions are unreachable |
| TransportSend.SendSide.WriteAggregate | native/quic/Connection.cpp:1515-1552 | the buffer of an aggregate write is cut into exactly the packets ngtcp2 wrote for it, at most as many as asked for |
| TransportSend.SendSide.WritePackets | native/quic/Connection.cpp:1473-1567 | at most 512 packets, every one accounted for; another flush is asked for exactly when the budget ended this one, and otherwise the transport is blocked or ngtcp2 had nothing to send when last asked |
| TransportSend.SendSide.FlushPackets | native/quic/Connection.cpp:1463-1567 | nothing new is written while retry bytes remain, ngtcp2 is always asked otherwise, and whatever it writes stays accounted for |
| TransportSend.SendSide.ProcessSendFlush | native/quic/Connection.cpp:1143-1174 | a flush leaves refused bytes with a deadline one retry delay after the last look at the clock, and an exhausted budget with another flush; it throws only if ngtcp2, the agent or the kernel failed |
| TransportSend.SendSide.ProcessTimer | native/quic/Connection.cpp:1176-1207 | a retry whose time has come trades its deadline for a queued flush, as does ngtcp2's own expiry; a later one stays |
| TransmitQueue.SubmitPointUnique | native/quic/Connection.cpp:437-445 | at most one chunk is at the submit point |
| TransmitQueue.SubmitPointExists | native/quic/Connection.cpp:437-445 | there is one if and only if something is not submitted |
| TransmitQueue.RetainedByte | native/quic/Connection.cpp:233-243 | a retained chunk holds the byte the application wrote at each of its offsets |
| TransmitQueue.ProtocolState.ProcessSend | native/quic/Connection.cpp:995-1034 | appends exactly the written bytes, or fails and changes nothing; nothing is queued after FIN |
| TransmitQueue.ProtocolState.NextTransmitChunk | native/quic/Connection.cpp:437-445 | the index of the chunk at the submit point, or none when everything was submitted |
| TransmitQueue.ProtocolState.WriteOnePacket | native/quic/Connection.cpp:447-513 | ngtcp2 is asked once, for the right bytes and FIN; what it took is exactly what counts as submitted, and its FIN stands at the total length if and only if one counts as submitted |
| TransmitQueue.ProtocolState.AcknowledgedStreamData | native/quic/Connection.cpp:213-247 | when an acknowledgement is accepted, what it moves, and that only fully acknowledged chunks go |
| TransmitQueue.ProtocolState.StreamClose | native/quic/Connection.cpp:249-267 | exactly which closes are recorded, and that only a clean one counts as the acknowledgement of a requested FIN |
| TransmitQueue.ProtocolState.UnacknowledgedBytesRetained | native/quic/Connection.cpp:233-243 | every unacknowledged offset is still covered by a chunk with the right byte |
| TransmitQueue.ProtocolState.RetentionBound | native/quic/Connection.cpp:233-243 | whole-chunk retention costs less than one chunk beyond the unacknowledged bytes |
| BufferPool.Buffer.AppendPacket | native/datapath/Buffer.cpp:41-63 | the datagram is added behind the others, and the 16-bit offset and length are exact |
| BufferPool.Buffer.AppendBytes | native/datapath/Buffer.cpp:98-110 | as many bytes as fit are added in order |
| BufferPool.Ownership.FreePlusInUse | native/datapath/Buffer.h:131-247 | free and in-use buffers add up to the allocated ones |
| BufferPool.Ownership.SpliceExclusive | native/datapath/Buffer.cpp:229-249 | moving a chain behind another keeps every buffer in exactly one place |
| BufferPool.Ownership.ExchangeExclusive | native/datapath/Buffer.cpp:251-259 | so does exchanging two chains |
| BufferPool.Ownership.CloseExclusive | native/datapath/Buffer.cpp:180-183 | and ending a batch |
| BufferPool.BytesOfAppend | native/datapath/Buffer.cpp:229-249 | a spliced chain holds the concatenation of the two streams |
| BufferPool.Pool.constructor | native/datapath/Buffer.h:134-137 | a new pool has its initial buffers free, each once |
| BufferPool.Pool.Grow | native/datapath/Buffer.h:212-236 | a slab adds fresh buffers to the free list and touches no other |
| BufferPool.Pool.Acquire | native/datapath/Buffer.h:141-161 | never null, never a buffer in use, always reset; the pool stays exclusive |
| BufferPool.Pool.Release | native/datapath/Buffer.h:163-175 | the buffer is back on the free list |
| BufferPool.Pool.ReleaseChain | native/datapath/Buffer.h:177-194 | a whole chain is back on the free list, followed before its links are overwritten |
| BufferPool.Batch.AppendPacket | native/datapath/Buffer.cpp:136-154 | the batch holds one more datagram, unchanged; only an empty or oversized one is refused |
| BufferPool.Batch.AppendBytes | native/datapath/Buffer.cpp:197-227 | the batch holds the bytes behind the others; the no-progress exception is unreachable |
| BufferPool.Batch.AppendBatch | native/datapath/Buffer.cpp:229-249 | the other batch's bytes are moved behind, the other is empty; different pools are refused |
| BufferPool.Batch.Swap | native/datapath/Buffer.cpp:251-259 | the two batches trade their contents |
| BufferPool.Batch.Destroy | native/datapath/Buffer.cpp:180-183 | every buffer of the batch is free again |
| BufferPool.Batch.CopyTo | native/datapath/Buffer.cpp:261-283 | writes exactly the batch's bytes; the mismatch exception is unreachable |
| BufferPool.Batch.ForEachPacket | native/datapath/Buffer.h:272-280 | yields exactly the appended datagrams in order |
| BufferPool.Replay | native/datapath/Buffer.cpp:180-283 | any mix of append, appendBatch and swap on two new batches of one pool: the copies are what the operations mean, and destruction puts every buffer back |
| RuntimeRuns.EveryRun | native/quic/Connection.cpp:782-981 | all of these hold in every state of every run with any number of threads |
| RuntimeProperties.QuietMeansDone | native/core/Worker.cpp:143-189 | when every thread rests and the worker sleeps: no operation, datagram, stream byte, credit or send is left behind, published state is current, and whatever the transport refused has a deadline in the wheel |
| RuntimeProperties.ScheduleSafety | native/quic/Connection.cpp:904-915 | never two run-queue entries, none while the worker is inside, and waiting work has a thread about to schedule it |
| RuntimeProperties.RecheckNeverRequeues | native/quic/Connection.cpp:1072-1083 | the re-queue branch at the end of processReceive is dead |
| RuntimeProperties.FlagsAreExact | native/quic/Connection.cpp:885-902 | while not stopped, each coalesced operation is outstanding once if its flag is set and not at all otherwise |
| RuntimeProperties.EndMeansEverything | src/ffl_p2p/QUIC.py:142-185 | taken, published and collected bytes are the delivered bytes; a reported end means all were handed out |
| RuntimeProgress.EndIsReported | src/ffl_p2p/QUIC.py:142-172 | and the end is reported: nothing read, FIN visible and nothing left make the next two steps of the reader end the stream |
| RuntimeProgress.SecondReadSettles | src/ffl_p2p/QUIC.py:142-154 | the second read hands out all that is left, or ends the stream |
| RuntimeProperties.ReceiveMemoryBounded | native/quic/Connection.cpp:1126-1141 | extended + releasable + being counted = taken; at most 16 MiB wait; a non-zero counter means exactly one release operation |
| RuntimeProperties.BlockedSendsWakeUp | native/quic/Connection.cpp:840-851 | blocked bytes, and anything else ngtcp2 was given to send, have a finite deadline or a flush; deadlines imply blocked bytes; between runs the wheel is no later than any of the connection's deadlines |
| RuntimeProgress.OwedUntilDry | native/quic/Connection.cpp:1143-1174 | what gives ngtcp2 something to send is owed to the wire until a flush left ngtcp2 with nothing to send |
| RuntimeProgress.DueEntryFires | native/core/Worker.cpp:130-150 | the worker takes the entry out exactly when its time has come, and a TimerExpired follows |
| RuntimeProgress.DueRetryFlushes | native/quic/Connection.cpp:1176-1207 | then a due retry gives way to exactly one flush on its way, as does ngtcp2's own deadline, and a later retry stays |
| RuntimeProperties.OffsetChain | native/quic/Connection.cpp:702-720 | the offset chain across the threads, and accepted + queued + in-flight bytes = bytes written |
| RuntimeProgress.SendsArrive | native/quic/Connection.cpp:592-616 | at rest the worker has accepted exactly the sends the application asked for, each with its bytes and its FIN |
| RuntimeProgress.InboxTakesDatagrams | native/quic/Connection.cpp:760-780 | every datagram a receive buffer can hold is taken, unless stopped |
| RuntimeProperties.AcknowledgedMeansAll | native/quic/Connection.cpp:702-720 | isWriteAcknowledged is true only when every byte written was acknowledged; the underflow clamp never fires for the only writer |
| RuntimeProperties.PublishedGrows | native/quic/Connection.cpp:1653-1675 | published offsets never go back while not stopped |
| RuntimeProperties.PublishedGoesBack | native/quic/Connection.cpp:1653-1675 | which steps make published offsets go back: exactly a publication without a connection that finds anything published, and only after a stop |
| RuntimeStop.ConnectionAfterStop | native/quic/Connection.cpp:862-877 | a stopped connection at rest can come to hold an ngtcp2 connection again if and only if a thread stands between the check and the push of an opening operation and the client was never started or the server has datagrams left |
| RuntimeStop.StopIsClean | native/quic/Connection.cpp:792-826 | from the stop itself on, without such a thread, no continuation ever holds a connection |
| RuntimeStop.StartedClientStaysClosed | native/quic/Connection.cpp:983-993 | so a client that was started, and a server without left-over datagrams, stay closed whatever races |
| RuntimeProperties.BudgetKept | native/quic/Connection.cpp:792-797 | a connection never runs more than 64 operations before the worker turns to the others |
| RuntimeRefinement.FlushRefines | native/quic/Connection.cpp:1143-1174 | running a flush gives a result that the machine's step allows, and ends where that step ends; the step's word that nothing is left to send is ngtcp2's own last answer |
| RuntimeRefinement.SendRefines | native/quic/Connection.cpp:995-1034 | a send is accepted exactly when the machine can execute it, with the same effect |
| RuntimeRefinement.TimerRefines | native/quic/Connection.cpp:1176-1207 | so is an expired timer |
| RuntimeRefinement.AcknowledgeRefines | native/quic/Connection.cpp:213-247 | and an accepted acknowledgement |
| RuntimeTraps.StoppedWithConnection | native/quic/Connection.cpp:862-877 | for both roles a run that ends stopped with an ngtcp2 connection |
| RuntimeTraps.OneReadIsNotEnough | src/ffl_p2p/QUIC.py:142-155 | a run in which an empty read and then a visible FIN leave bytes to be read |
| RuntimeTraps.EndReached | src/ffl_p2p/QUIC.py:142-185 | a run in which the second read takes the last byte and another reader is told the end |
| RuntimeTraps.PublishedOffsetsDrop | native/quic/Connection.cpp:1209-1215 | a run in which an acknowledged offset of 1 is published as 0 after the stop |
| WakeTokens.PromisesTheMissingToken | native/P2P.c:172-205 | a producer is told to release a token exactly when there is none: not available, not promised, not taken and about to be cleared |
| WakeTokens.Agent.PopReceiveLocked | native/P2P.c:402-425 | the first datagram goes, the old token is consumed, and one is promised again for the rest |
| WakeTokens.Agent.DrainLocked | native/P2P.c:853-929 | as many entries as maxEvents allows, in order and events first, and tokens promised again exactly for what is left |
| WakeTokens.DrainTakesAll | native/P2P.c:853-929 | a drain leaves something behind only when it is full |
| WakeTokens.EventTokensStep | native/P2P.c:1025-1042 | the event flag counts its token exactly, so its lock is never released twice |
| WakeTokens.ReceiveTokensStep | native/P2P.c:427-472 | the same for the datagram token |
| WakeTokens.BackedStep | native/P2P.c:172-205 | queued work has a flag or a committed consumer |
| WakeTokens.EveryRun | native/P2P.c:853-929 | all of it on every run of any number of threads, with first-in first-out and exactly-once draining |
| WakeTokens.NoLostWakeup | native/P2P.c:1025-1042 | when every thread is idle or waits for a token that is not there, both queues are empty |
| WakeTokens.NoLostReceive | native/P2P.c:427-472 | the same for a thread that waits for datagrams only |
| TimerWheel.UpdateDecidesNext | native/core/TimerWheel.cpp:26-42 | after an update the next expiry is the earlier of the new deadline and those of the other connections |
| TimerWheel.TimerWheel.GetNextExpiry | native/core/TimerWheel.cpp:44-55 | the earliest deadline of a connection that still exists |
| TimerWheel.TimerWheel.TakeExpired | native/core/TimerWheel.cpp:57-76 | exactly the due live entries, each once; afterwards nothing due is left |
| CoalescedReceive.Backend.EmitPending | native/datapath/DatapathWindows.cpp:109-135 | the next datagrams in order, as many as fit; the rest stays |
| CoalescedReceive.Backend.ReceiveBatch | native/datapath/DatapathWindows.cpp:86-102 | whatever the socket delivered is handed out in order or still pending, untouched; pending datagrams go first, without a system call |
| CoalescedReceive.Backend.ReceiveCoalesced | native/datapath/DatapathWindows.cpp:238-318 | one system call adds exactly its bytes, cut at the announced size, to what is handed out or pending |
| CoalescedReceive.Backend.ChooseSegment | native/datapath/DatapathWindows.cpp:289-300 | the last control message that announces a positive size within what was received decides; without one the whole buffer is one datagram |
| CoalescedReceive.Backend.Receive | native/datapath/Datapath.cpp:102-128 | a caller without room is refused before anything changes |
| CoalescedReceive.SegmentOfMeaning | native/datapath/DatapathWindows.cpp:289-300 | the same of the size that the datagrams are cut at |
| CoalescedReceive.GluedShape | native/datapath/DatapathWindows.cpp:302-317 | one glued buffer is its datagrams: same bytes, ceil(size / announced) of them, all of the announced size but the last |
| WriteFlow.FromHighWatermarkBytes | src/ffl_p2p/QUICFlow.py:30-35 | the low watermark is half the high one, rounded down, and at least 1 |
| WriteFlow.WaitForCapacity | src/ffl_p2p/QUICFlow.py:64-92 | which reading lets a write through, and when none does |
| WriteFlow.BufferedBounded | src/ffl_p2p/QUICFlow.py:44-84 | over every run buffered bytes stay within max(high, low + chunk) |
| WriteFlow.BoundReached | src/ffl_p2p/QUICFlow.py:64-84 | the bound is reached |
| WriteFlow.HighWatermarkHolds | src/ffl_p2p/QUICFlow.py:64-84 | the high watermark is never exceeded if and only if low + chunk <= high |
| RuntimeRefinement.RetainedBounded | native/quic/Connection.cpp:233-243 | at any moment of any run the transmit queue holds less than the write bound plus one chunk |
| FileTransfer.ControlStream.ReceiveClientLine | src/ffl_p2p/QUIC.py:287-305 | the line read is the one the bytes determine; a timeout means that what came in time holds no whole line; no outcome loses an over-read byte |
| FileTransfer.FramingWithinLimit | src/ffl_p2p/QUIC.py:287-305 | a line within 64 KiB comes out the same for every chunking, and so does the rest |
| FileTransfer.FramingIndependent | src/ffl_p2p/QUIC.py:287-305 | the outcome is independent of chunking if and only if the first line is within 64 KiB or missing |
| FileTransfer.LongLineDepends | src/ffl_p2p/QUIC.py:290-296 | a longer line is accepted in one piece and refused in two |
| FileTransfer.DecimalRoundTrip | src/ffl_p2p/QUIC.py:257-264 | numbers survive being written and read |
| FileTransfer.MessageRoundTrip | src/ffl_p2p/QUIC.py:307-333 | so do the client's two messages |
| FileTransfer.MessageIsOneLine | src/ffl_p2p/QUIC.py:238-241 | a message's newline is the first one |
| FileTransfer.ServerReadsWell | src/ffl_p2p/QUIC.py:307-333 | the server parses the client's request and its completion, and refuses neither |
| FileTransfer.EveryRun | src/ffl_p2p/QUIC.py:234-273 | control bytes and file bytes are conserved on every error-free run |
| FileTransfer.ServedMeansConsumed | src/ffl_p2p/QUIC.py:335-364 | serve returns only after the client consumed exactly the content at the requested offset, with the counts equal |
| FileTransfer.NeverStuck | src/ffl_p2p/QUIC.py:234-273 | until then some party can always go on |

## Left out

- ngtcp2, GnuTLS, TLS setup, connection IDs and credentials: only the contracts above.
- Sockets, control-message layout, `recvmmsg`, thread creation: a send or receive is an arbitrary result.
- libjuice inside the agent (gathering, STUN, consent retry): its bodies are not part of this model.
- The threads of a connection are a state machine over values and not objects: what it does not capture is the code
  within one atomic section, which the classes of `TransportSend`, `TransmitQueue` and `BufferPool` model step by step.
- Payload arrays of the pool's buffers are sequences of fixed length, and one class stands for the packet buffer and
  the stream buffer; links, heads, tails and counters are real heap fields.
- Bytes counted in 64-bit atomics are unbounded integers: no stream reaches 2^64 bytes (section 4.5 of RFC 9000).
- Operation completions and their timeouts: a caller of `start` or `close` simply goes on.
- `waitForChange`, the generation counter and Python's polling: they affect latency only.
- Closing an agent and freeing its queues; allocation failures.
- Worker teardown after `stop`, weak memory order, diagnostics counters.
- A connection that is opened after the stop is followed only as far as the flag that it exists.
- RuntimeStop.ConnectionAfterStop: the equivalence is about stopped states at rest; from the stop itself on, the
  direction that forbids a connection is proved (StopIsClean).
- FileTransfer.MessageRoundTrip: JSON in the form the client itself writes, for numbers of up to 4300 digits in the
  runs; other JSON that a server would accept is not modelled.
- CoalescedReceive.Backend.ReceiveBatch: speaks of one active socket; turning to another socket drops what was pending.
