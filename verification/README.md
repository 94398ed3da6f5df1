# RUDP transport engine: model and proofs

RUDP is a reliable datagram protocol: a sliding-window sender with selective acknowledgements, a
receiver with a cumulative front and a 64-bit bitmap, a session that joins them behind a three-way
handshake, and a server that routes datagrams to many sessions. This project models that engine
(everything below the sockets) and proves what it keeps over whole runs.

Each stateful component is written twice and described once more.

* A **specification**: functions on the component's record (`TxSpec`, `RxSpec`, `SessionSpec`,
  `ManagerSpec`). Runs of these functions, with ghost logs, carry the theorems.
* An **independent account** of each operation: `PollExact`, `ReceiveExact`, `RouterExact` and the layout lemmas of
  `Codec` say, in flat conditions on the fields, exactly when an operation does what, and are proved of the
  specification for every state.
* An **imperative form** with the code's own fields, loops and in-place updates (`TxHandler`,
  `RxHandler`, `Session`, `ServerSessionManager`, and the buffer-filling half of `Codec`). Every
  method is proved to compute its specification function, so the theorems are about these objects.

| module | what it holds |
|---|---|
| `Protocol`, `Bits`, `Codec` | 32-bit serial numbers, the bitmap as a number, the wire format |
| `SessionTypes`, `ConnectionStateMachine` | the records; flag classification and the transition table |
| `TxSpec`, `TxHandler`, `TxRuns` | the sender: functions, object, theorems over its runs |
| `RxSpec`, `RxHandler`, `RxWindow` | the receiver: functions, object, what the window says of what arrived |
| `SessionSpec`, `Session`, `SessionRuns`, `SessionHistory`, `SessionLifecycle`, `SessionAccounts`, `Counting` | the session, its history, lifecycle, counters and the datagrams behind them |
| `PollExact`, `ReceiveExact`, `RouterExact` | exactly what each poll, each arrival and each router call does, said in terms of the fields alone |
| `EndToEnd`, `Handshake`, `IdCheck`, `Reliability`, `SilentLoss`, `FirstContact`, `Burst`, `Closing` | a client and a server over a network that drops, duplicates and reorders, but does not forge; and what they achieve when nothing is lost |
| `ManagerSpec`, `ServerSessionManager`, `ManagerRuns`, `RoutedSessions` | the server's router, and its sessions as session runs |

How runs are set up:

* A sender run (`TxRuns.Reached`) is any sequence of queue calls, polls with any arguments,
  acknowledgements with any values, and arbitrary changes of the scheduling flags. Its log numbers
  the reliable packets 0, 1, 2, ...; the concrete number of index `n` is `isn + n` modulo 2^32.
* A session run (`SessionLifecycle.Reached`) is any sequence of queue, poll, receive (any bytes),
  close and drain. `SessionRuns.StepIsTxRun` shows that each step is a sender run, so the sender's
  theorems hold inside every session.
* A system run (`EndToEnd.SystemRun`) interleaves a client and a server. `Admissible` says only that
  received bytes were emitted by the other side at some earlier point: loss, duplication and
  reordering are free, forging is not.
* A manager run (`ManagerRuns.Run`) is any sequence of datagrams from any endpoints, polls and
  application calls. Ids come from outside and are not in use when drawn, which
  `ServerSessionManager.Router.AllocateConnId` establishes.

Where the code and its documentation differ, the model follows the code:

* docs/Protocol.md section 5.1 reserves the receive window for reliable channels and handshake/FIN
  frames; the code also lets pure ACKs, which carry number 0, into it (src/RxHandler.cpp:129-136).
* docs/Protocol.md section 5.4 says bit `i` means `Ack + i + 1`. After a gap is filled while a second
  gap is open the bits mean one less; `RxWindow.ExpectedArrivalExact` gives the exact condition and
  `RxWindow.SecondGapBreaksBoth` an input.
* docs/Protocol.md section 8.1 says a reliable packet is acknowledged or the connection fails. With the shifted
  bitmap a packet that never arrived can be acknowledged (`SilentLoss.ReleasedNeverReceived`); with clean
  arrivals it cannot (`Reliability.ReleasedWasReceived`). A receiver that has not started acknowledges every
  number from 2^31 on (`Reliability.IdleHeaderCovers`).
* docs/Protocol.md section 5 excludes no initial number. The receiver takes an expected number 0 for "not
  started", and pure ACKs carry the number 0. With client initial number 2^32 - 1 the first reliable request is
  acknowledged and never delivered (`FirstContact.FirstRequest`), with 2^32 - 2 the second; for up to a
  window of requests in order these are the only two such initial numbers (`Burst.BurstDelivered`).
* docs/Protocol.md section 6.1 says ordered requests are delivered in order. The ordered stream counts through
  the numbers that all reliable requests share, so an unordered request between two ordered ones holds the
  second one back for good; `Burst.BurstDelivered` has that in its exact condition too.
* docs/Protocol.md section 5.5 allows a send at distance 64 from the remote ack; the code stalls there
  (`TxRuns.StallsAtFullWindow`).
* A retry limit is checked before the timeout, so an exhausted packet fails the session at the next
  poll that reaches the retransmission lane, even if it is not due (`TxRuns.GivesUpAtOnce`).
* A gap-evidence threshold of 0 acts as 1, because evidence is compared only after it has grown
  (`TxRuns.FastRetransmitExact`).

## Model

| member | source | states |
|---|---|---|
| `Protocol.SerialComparison` | include/Rudp/Protocol.hpp:51-69 | for unbounded indices less than 2^31 apart the four wrapped comparisons order their 32-bit numbers as integers, wherever the wrap falls; at exactly 2^31 each is before the other (section 3.2 of RFC 1982) |
| `ConnectionStateMachine.ClassifyValues` | src/ConnectionStateMachine.cpp:22-68 | on the flags of a valid header, each kind other than invalid is exactly one flag value |
| `Codec.ReadU32` | src/Utils.cpp:7-20 | the value read is the big-endian value of the four bytes; the or of shifted bytes is written as a sum of products |
| `Codec.ReadU64Loop` | src/Utils.cpp:22-32 | the accumulating loop computes the big-endian value of the eight bytes |
| `Codec.WriteU32` | src/Utils.cpp:34-40 | the four bytes become the big-endian digits, nothing else in the buffer changes |
| `Codec.WriteU64` | src/Utils.cpp:42-48 | the loop writes the eight big-endian digits, nothing else in the buffer changes |
| `Codec.EncodeBuffer` | src/Codec.cpp:48-62 | filling the buffer field by field yields exactly the encoding that the round trips are about |
| `Codec.DecodeEncode` | src/Codec.cpp:9-62 | decoding an encoding gives back header and payload if the header is valid, and nothing otherwise, for payloads of any length |
| `Codec.EncodeDecode` | src/Codec.cpp:22-62 | every byte string that decodes is exactly the encoding of what it decodes to |
| `Codec.EncodedLayout` | src/Codec.cpp:48-62 | every encoding holds each header field at its offset, most significant byte first (connection id at 0, number at 4, ack at 8, bitmap at 12, channel at 20, then type, flags, length and reserved byte), and the payload from 28 on |
| `Codec.DecodesExactly` | src/Codec.cpp:9-46 | a datagram decodes if and only if it has at least 28 bytes, byte 24 is at most 3, byte 25 below 64, byte 26 is 28 and byte 27 is 0; it then holds the fields at those offsets |
| `TxSpec.GapMeaning` | src/TxHandler.cpp:93-121 | evidence goes to exactly the numbers the header does not acknowledge while its bitmap acknowledges a number further from `ack` |
| `TxHandler.TxSession.constructor` | src/Session.cpp:359-375 | the empty sender at its initial number |
| `TxHandler.TxSession.QueueAppData` | src/TxHandler.cpp:129-138 | the request joins the end of the queue and no number is assigned |
| `TxHandler.TxSession.EraseAcknowledgedInflight` | src/TxHandler.cpp:76-91 | the erasing walk keeps exactly the unacknowledged entries, unchanged, and reports whether an acknowledged one carried FIN |
| `TxHandler.TxSession.MarkGapFastRetransmitCandidates` | src/TxHandler.cpp:93-121 | the wrapping loop ends after highest bit + 2 rounds, at most 65, and adds evidence to exactly the gaps |
| `TxHandler.TxSession.OnRemoteAck` | src/TxHandler.cpp:140-150 | the acknowledgement fields are overwritten, covered entries are gone, gaps among the rest gained evidence |
| `TxHandler.TxSession.BuildControlPacket` | src/TxHandler.cpp:397-435 | refuses exactly when the flags need a number and the window is full; otherwise the packet returned is the one enlisted |
| `TxHandler.TxSession.TryBuildHandshake` | src/TxHandler.cpp:185-241 | computes the specified handshake lane, including the state change that survives a full window |
| `TxHandler.TxSession.TryBuildRetransmit` | src/TxHandler.cpp:243-286 | the scan in key order serves the least number that is exhausted, marked or due; an exhausted one is erased and reported as fatal |
| `TxHandler.TxSession.TryBuildProbeLane` | src/TxHandler.cpp:349-369 | PONG before PING, each pending flag consumed by its packet |
| `TxHandler.TxSession.TryBuildAckOnly` | src/TxHandler.cpp:288-308 | the pending flag is consumed by a numberless ACK with the current receive state |
| `TxHandler.TxSession.TryBuildFresh` | src/TxHandler.cpp:310-347 | the oldest request is sent and removed, or popped and pushed back when it needs a number and the window is full |
| `TxHandler.TxSession.Poll` | src/TxHandler.cpp:152-183 | tries the five lanes in priority order and returns the first result |
| `PollExact.PollExactly` | src/TxHandler.cpp:152-435 | for every sender state: the control packet that the connection calls for goes out if it can; else the least number in flight that is exhausted, marked, or past its last send by min(initial * 2^min(retries, 4), max) is given up or sent again; else PONG, PING, ACK, or the oldest request if it may go; else nothing. The state after each is stated in full |
| `PollExact.DueIsServed` | src/TxHandler.cpp:243-286 | in every sender run a poll without a control packet to send transmits the least number that must be served once more, or gives it up when it is exhausted |
| `PollExact.AcknowledgeExactly` | src/TxHandler.cpp:140-150 | acknowledgement fields remove exactly the numbers they cover, and add evidence to exactly those with a number acknowledged beyond them |
| `TxRuns.PollCases` | src/TxHandler.cpp:152-435 | every poll is one of: no change to queue and window, one erased exhausted entry, one resend that changes only its entry, or one new packet that is numbered and enlisted exactly when it must be |
| `TxRuns.PollLane` | src/TxHandler.cpp:185-241 | a lane is used only with its flag and state; a poll raises no scheduling flag, and changes the connection state only from a client's Closed |
| `TxRuns.StallsAtFullWindow` | src/TxHandler.cpp:123-125 | at distance 64 or more from the remote ack a poll assigns no number and leaves a reliable request at the head of the queue |
| `TxRuns.GivesUpAtOnce` | src/TxHandler.cpp:252-261 | once the first number in flight is exhausted, every poll without a control packet to send gives it up, due or not |
| `TxRuns.WindowSafety` | src/TxHandler.cpp:76-150 | in every run, whatever is acknowledged: every in-flight number is one of the 64 before the next and not before the remote ack, so at most 64 are in flight |
| `TxRuns.NoNumberReused` | src/TxHandler.cpp:310-435 | in every run, across wrap-around, a newly assigned number is not in flight, so `emplace` never meets an existing key |
| `TxRuns.DeliverOrFail` | src/TxHandler.cpp:76-91 | in every run each assigned number is in exactly one of: in flight, released by a received header whose fields cover it, given up |
| `TxRuns.RetransmissionBudget` | src/TxHandler.cpp:243-286 | each number is transmitted between 1 and 1 + limit times, once per retry counted; one never resent early was last sent no sooner than the sum of its timeouts after the first send |
| `TxRuns.FastRetransmitExact` | src/TxHandler.cpp:93-121 | fast retransmission is pending if and only if the evidence since the last transmission reached the threshold |
| `TxRuns.GiveUpTiming` | src/TxHandler.cpp:45-50 | a number never resent early is given up only after the clock passed its first send by the sum of all its timeouts |
| `TxRuns.DefaultGiveUpTime` | include/Rudp/Config.hpp:14-24 | with the default settings that sum is 7750 ms |
| `TxRuns.FifoConservation` | src/TxHandler.cpp:310-347 | in every run the first transmissions in order followed by the queue are exactly the requests queued |
| `TxRuns.PollSendsGenuine` | src/TxHandler.cpp:243-286 | while fewer than 2^32 numbers are assigned, whatever is sent with a reliable number, first or again, has the content assigned to that number |
| `RxHandler.RxSession.constructor` | include/Rudp/SessionTypes.hpp:128-136 | the empty receiver |
| `RxHandler.RxSession.AdvanceReceiveWindow` | src/RxHandler.cpp:45-54 | the loop moves the front by one and the trailing ones and shifts the bitmap by the trailing ones only |
| `RxHandler.RxSession.UpdateReliableReceiveState` | src/RxHandler.cpp:124-172 | window, verdict and acknowledgement request for each of: untracked, expected, ahead in the window, beyond it, stale |
| `RxHandler.RxSession.DrainContiguousOrdered` | src/RxHandler.cpp:56-78 | the loop delivers exactly the contiguous run at the delivery front |
| `RxHandler.RxSession.HandleReliableOrdered` | src/RxHandler.cpp:174-182 | the first ordered arrival starts the stream; the packet is buffered, then the run is drained |
| `RxHandler.RxSession.HandleMonotonicState` | src/RxHandler.cpp:198-224 | delivered only with a version serially after the stored one |
| `RxHandler.RxSession.OnPacket` | src/RxHandler.cpp:82-115 | window first, then delivery by channel unless control or refused |
| `RxHandler.RxSession.DrainEvents` | src/RxHandler.cpp:117-122 | hands out all queued events in order and leaves none |
| `RxWindow.AdvanceEffect` | src/RxHandler.cpp:45-54 | closed form of the advance loop |
| `RxWindow.AckMeaning` | src/TxHandler.cpp:15-33 | less than 2^31 around the front, acknowledgement fields cover exactly the indices before it and those whose bit is set |
| `RxWindow.OtherArrivalAgrees` | src/RxHandler.cpp:147-171 | with indices unbounded and the front anywhere but at number 0 (see `RxWindow.ArrivalAgrees`), across the wrap too: arrivals other than the expected number keep front and bitmap equal to the set of indices received; the packet is processed if and only if its index is new and in the window |
| `RxWindow.ExpectedArrival` | src/RxHandler.cpp:45-54 | the expected arrival keeps that agreement if and only if the bitmap is 2^k - 1; every leftover bit names a received index plus one |
| `RxWindow.ArrivalAgrees` | src/RxHandler.cpp:142-172 | after any arrival in any state that agrees, some front makes the window agree, whether or not the arrival is counted, if and only if it is harmless: the ones of the bitmap trail if it is the expected number; and a front at number 0 meets 0, or 2^32 - 1 while the bitmap is even |
| `RxWindow.HarmlessAgrees` | src/RxHandler.cpp:142-172 | a harmless arrival keeps the agreement, with the front and the indices that its number calls for |
| `RxWindow.StaleCopyAtZero` | src/RxHandler.cpp:142-151 | a second copy of 2^32 - 1 that meets a front at number 0 leaves the window as it is, so the fields stay truthful, but is processed again |
| `RxWindow.RepeatsExact` | src/RxHandler.cpp:142-172 | a number that was recorded is processed again if and only if it meets a front at number 0 |
| `RxWindow.ExpectedArrivalExact` | src/RxHandler.cpp:45-54 | after the expected arrival the acknowledgement fields are truthful if and only if the bitmap was 2^k - 1, and repeats are refused if and only if it was and the front is not at number 0 |
| `RxWindow.LeftoverLies` | src/RxHandler.cpp:49-53 | whenever a bit is left, the highest one acknowledges an index that was not received |
| `RxWindow.LeftoverRepeats` | src/RxHandler.cpp:153-161 | whenever a bit is left, some index already received is processed again |
| `RxWindow.CleanRunsAgree` | src/RxHandler.cpp:124-190 | in every run of harmless arrivals over fewer than 2^32 indices, window and received set agree, and whatever is recorded arrived and was accepted |
| `RxWindow.TruthfulAcks` | src/RxHandler.cpp:124-190 | in those runs every acknowledged index, from the first tracked one on, belongs to a packet that arrived and was accepted; and if no second copy met a front at number 0, no unordered number is delivered twice |
| `RxWindow.SecondGapBreaksBoth` | src/RxHandler.cpp:45-54 | the shortest instance: arrivals 9, 12, 10 acknowledge 13, which never arrived, and a repeated 12 is delivered again |
| `ReceiveExact.DrainExactly` | src/RxHandler.cpp:56-78 | draining hands out, in order, exactly the buffered numbers from the delivery front up to the first missing one |
| `ReceiveExact.DataExactly` | src/RxHandler.cpp:98-112 | a data packet that passes the checks reaches the receiver; unreliable data is always handed out, unordered data when its number is accepted, state data when its version is serially after the stored one, which it then replaces |
| `ReceiveExact.DeliversOrdered` | src/RxHandler.cpp:174-182 | an ordered packet is buffered if and only if it is accepted, the first one sets the delivery front, and the buffer is drained |
| `ReceiveExact.StrangeExactly` | src/Session.cpp:60-82 | a packet that fails the id check resets the session with an error and does nothing else |
| `ReceiveExact.RepeatedSynAckExactly` | src/Session.cpp:68-89 | a repeated SYN-ACK asks for the final ACK again if and only if it comes within the linger period, and does nothing else |
| `ReceiveExact.ConnectionExactly` | src/ConnectionStateMachine.cpp:70-163 | for every other packet: the state it ends in and the events it adds, for each flag value and state, including the closing of a session whose FIN it acknowledges |
| `ReceiveExact.ControlOutcomes` | src/ConnectionStateMachine.cpp:70-163 | FIN ends in Closing with ConnectionClosed last, RST in Reset with ConnectionReset last; a SYN for an Established session and meaningless flags are errors that leave the state |
| `ReceiveExact.ScheduleExactly` | src/Session.cpp:293-344 | and exactly what it schedules: SYN-ACK, final ACK, immediate ACK, delayed ACK with its due time, PONG, the end of a PING; and when the connection is dated |
| `ReceiveExact.SampleExactly` | src/Session.cpp:302-316 | the PONG that answers a PING adds exactly one sample, the time since that PING was sent, within the recorded extremes |
| `SessionRuns.ReceiveTx` | src/Session.cpp:91-105 | a received packet touches queue and window only through the acknowledgement fields of a packet that passes the id checks and is not a SYN |
| `SessionRuns.StepIsTxRun` | src/Session.cpp:379-485 | what any session step does to its sender is a sequence of sender actions |
| `SessionHistory.OutboundTruth` | src/TxHandler.cpp:152-435 | a datagram returned by a poll decodes, with acknowledgement fields equal to the receive state of that moment |
| `SessionHistory.ReceiveStats` | src/Session.cpp:293-317 | receiving leaves the send counters alone; a PONG that answers a PING adds one sample, the time since that PING, and nothing else does |
| `SessionLifecycle.PollsAreTruthful` | src/Session.cpp:385-406 | outbound truth at every point of every session run |
| `SessionLifecycle.CountersAreTrue` | src/Session.cpp:231-291 | in every run the send counters are exactly the tallies of the datagrams emitted, each of which decodes, and packets = control + data |
| `SessionLifecycle.ProbeAccounting` | src/Session.cpp:134-148 | in every run pings sent = samples + one if a PING is outstanding; never both pending and outstanding; min * count <= sum <= max * count |
| `SessionLifecycle.StepEdges` | src/ConnectionStateMachine.cpp:70-163 | each step makes at most two moves, both along the edges of the lifecycle |
| `SessionLifecycle.SessionLife` | src/Session.cpp:107-118 | in every run no client is HandshakeReceived and no server HandshakeSent; each entry into Established follows Closed and a handshake state; entries are counted by Connected events |
| `SessionLifecycle.PollCounts` | src/Session.cpp:393-400 | a poll that gives up a number leaves the session in Reset with the retry-limit Error as its last event, and only such a poll adds one |
| `SessionLifecycle.GiveUpsAreErrors` | src/Session.cpp:393-400 | in every run there are as many retry-limit errors as numbers given up, and the sender's invariants hold |
| `SessionAccounts.ReceiveCountersAreTrue` | src/Session.cpp:209-229 | in every run the receive counters (packets, bytes, control, data, pings, pongs) are the tallies of the received datagrams that decode |
| `SessionAccounts.ReleasedByDatagram` | src/Session.cpp:91-105 | in every session run each released number is covered by the header of a datagram that the session received |
| `PollExact.IdleExactly` | src/Session.cpp:177-190 | a poll reports an idle timeout if and only if the session is Established and `now >= lastRxMs + idleTimeout`; it then resets, sends nothing and changes nothing else |
| `PollExact.TimeoutOverRuns` | src/Session.cpp:209-214 | over every session run, with the time of the last received datagram that decodes, 0 if none |
| `PollExact.SessionPollExactly` | src/Session.cpp:134-207 | otherwise the poll is that of the sender with the delayed ACK, the activity ACK or the PING armed under exact conditions, and what was sent is booked exactly |
| `Session.Session.constructor` | src/Session.cpp:350-377 | a closed session without id, with a fresh sender and receiver |
| `Session.Session.AssignConnId` | include/Rudp/Session.hpp:30 | sets the id and nothing else |
| `Session.Session.QueueSend` | src/Session.cpp:379-383 | hands the request to the sender and changes nothing else |
| `Session.Session.SchedulePendingTxWork` | src/Session.cpp:134-207 | arms at most one of the delayed acknowledgement, the activity acknowledgement and the probe |
| `Session.Session.ApplyOutboundResult` | src/Session.cpp:258-291 | reads the datagram back and books it; nothing for one that does not decode |
| `Session.Session.PollTx` | src/Session.cpp:385-406 | idle timeout, scheduling, sender poll and bookkeeping compute the specified session and datagram |
| `Session.Session.RecordReceivedStats` | src/Session.cpp:209-229 | the receive counters |
| `Session.Session.HandleProbeReceive` | src/Session.cpp:293-317 | PING answered only when Established; PONG sampled only when a PING is outstanding |
| `Session.Session.ApplyConnectionDecision` | src/Session.cpp:450-478 | an invalid decision only reports an error; a valid one moves the state, raises flags and emits its events in order |
| `Session.Session.OnDatagramReceived` | src/Session.cpp:408-448 | all stages in order, with the early returns on mismatch and repeated SYN-ACK |
| `Session.Session.RequestClose` | src/Session.cpp:480-485 | closes only an Established session |
| `Session.Session.DrainEvents` | src/Session.cpp:487-489 | all events in order, none left |
| `EndToEnd.OrderedSafety` | src/RxHandler.cpp:35-78 | in every admissible run with fewer than 2^32 numbers assigned each way, the ordered payloads handed out on either side are, in order and without gap, repeat or alteration, those the other side assigned to one contiguous range of numbers |
| `EndToEnd.RunsAreSound` | src/RxHandler.cpp:174-182 | the invariant behind it: everything emitted and buffered is genuine |
| `Handshake.EntryNeeds` | src/ConnectionStateMachine.cpp:104-159 | a first entry into Established takes a SYN-ACK on a client and an ACK on a server |
| `Handshake.HandshakeAgreement` | src/Session.cpp:408-478 | at every point of every admissible run: the client's id is 0 or the server's; if the server was ever Established the client has emitted Connected; if the client has, the server has accepted a SYN |
| `Handshake.NoSpuriousMismatch` | src/Session.cpp:43-82 | the application's view: if the client queues nothing before Connected, no deliverable datagram trips the id check on either side |
| `Handshake.EarlyDataResetsServer` | src/TxHandler.cpp:310-347 | why that condition: any request queued before connecting goes out with id 0 behind the SYN and resets the server |
| `IdCheck.ClientNeverTrips` | src/Session.cpp:43-66 | in every admissible run, whatever the server has emitted passes the client's id check |
| `IdCheck.ServerTripsExactly` | src/Session.cpp:52-66 | in every admissible run, a datagram of the client trips the server's check if and only if the server has an id and is out of Closed, and the datagram has id 0 and is not a SYN |
| `IdCheck.MismatchReachable` | src/Session.cpp:418-425 | from any reached state, delivering emitted datagrams to the server can trip the check if and only if the client has emitted a datagram with id 0 that is not a SYN, and the server is out of Closed or a SYN was emitted |
| `Reliability.ReceiverRun` | src/Session.cpp:440-447 | the acknowledgement fields of a session are those of a receiver run over the packets that passed its checks |
| `Reliability.ReleasedWasReceived` | src/TxHandler.cpp:76-91 | both ways, in every admissible run with clean arrivals: an index released by a header of a started receiver, from that receiver's first number on and less than 2^31 after it, was received and accepted, with the content assigned to it unless its number is 0 |
| `Reliability.IdleHeaderCovers` | src/TxHandler.cpp:15-33 | the header of a receiver that has not started acknowledges exactly the numbers from 2^31 on |
| `SilentLoss.SecondGapReleases` | src/RxHandler.cpp:45-54 | from any reached state with clean arrivals, when the expected number arrives while a second gap is open: some index was not received, and if its number is in flight at the client, the server's next datagram releases it there once processed |
| `SilentLoss.ReleasedNeverReceived` | src/RxHandler.cpp:45-54 | for every id, reliable request and pair of initial numbers an admissible run with default settings in which the client releases a number that never reached the server |
| `FirstContact.ShakeEstablishes` | src/Session.cpp:408-478 | for every pair of initial numbers and all times at which the client's ACK is prompt, SYN, SYN-ACK and ACK delivered in turn leave both sides Established and idle, and the client with the server's id |
| `FirstContact.FirstRequest` | src/RxHandler.cpp:142-151 | the first reliable request after that handshake is delivered with its content if and only if the client's initial number is not 2^32 - 1, and is acknowledged in either case |
| `Closing.CloseCompletes` | src/Session.cpp:107-118 | from any two sides at rest: the close request, the FIN and its acknowledgement leave the closer in Closed and the peer in Closing, both with ConnectionClosed as the last event |
| `Closing.CloseAfterShake` | src/Session.cpp:480-485 | so after a handshake without loss either side can close, for every pair of initial numbers |
| `Burst.BurstDelivered` | src/RxHandler.cpp:35-78 | up to 64 reliable requests after that handshake, delivered in order without loss: all are handed out if and only if no request on another channel comes between two ordered ones, the client's initial number is not 2^32 - 1, and it is not 2^32 - 2 when there are two or more |
| `ServerSessionManager.Router.constructor` | include/Rudp/ServerSessionManager.hpp:140-143 | an empty router that satisfies the invariant |
| `ServerSessionManager.Router.ConnIdIsInUse` | src/ServerSessionManager.cpp:413-435 | true exactly for 0, retired, active and pending ids |
| `ServerSessionManager.Router.AllocateConnId` | src/ServerSessionManager.cpp:437-448 | the first drawn value not in use |
| `ServerSessionManager.Router.EnsureSessionForNewPeer` | src/ServerSessionManager.cpp:351-367 | a new server session with an unused id, only for an endpoint that is neither pending nor active |
| `ServerSessionManager.Router.PromotePendingSession` | src/ServerSessionManager.cpp:369-384 | the session moves from pending to active and is indexed |
| `ServerSessionManager.Router.CleanupPendingSession` | src/ServerSessionManager.cpp:386-398 | the session is erased and its id retired |
| `ServerSessionManager.Router.CleanupActiveSession` | src/ServerSessionManager.cpp:400-411 | the session and its index entry are erased and its id retired |
| `ServerSessionManager.Router.TryDispatchActive` | src/ServerSessionManager.cpp:126-138 | false for an unknown id; otherwise the session processes the bytes and is erased if it ends |
| `ServerSessionManager.Router.TryDispatchPending` | src/ServerSessionManager.cpp:140-156 | the session processes the bytes and stays, is promoted or is erased |
| `ServerSessionManager.Router.OnDatagramReceived` | src/ServerSessionManager.cpp:27-48 | one routing step of a manager run, with an id that was not in use if one was drawn; the invariant is kept |
| `ServerSessionManager.Router.CollectPendingTx` | src/ServerSessionManager.cpp:183-201 | in any iteration order: every pending session polled once, exactly its datagrams listed, exactly the expired ones noted |
| `ServerSessionManager.Router.CollectActiveTx` | src/ServerSessionManager.cpp:203-226 | the same for the sessions behind the endpoint index; entries without a session are passed over |
| `ServerSessionManager.Router.PollTx` | src/ServerSessionManager.cpp:50-71 | lists each endpoint at most once with the datagram of its own session, and takes one polling step of a manager run; the invariant is kept |
| `ServerSessionManager.Router.QueueSend` | src/ServerSessionManager.cpp:293-304 | accepted exactly for an active id; the invariant is kept |
| `ServerSessionManager.Router.DrainActiveEvents` | src/ServerSessionManager.cpp:284-291 | the events of an active session, none otherwise; the invariant is kept |
| `ServerSessionManager.Router.DrainEvents` | src/ServerSessionManager.cpp:306-339 | in any iteration order, each session's events once and in its own order, tagged with its endpoint and id; the invariant is kept |
| `RouterExact.NewPeerExactly` | src/ServerSessionManager.cpp:109-124 | a SYN with id 0 from an endpoint neither pending nor bound leaves it pending, in HandshakeReceived, with the drawn id, and nothing else changed |
| `RouterExact.StrangerIsDropped` | src/ServerSessionManager.cpp:43-47 | a datagram with a nonzero id, or none that decodes, from such an endpoint changes nothing |
| `RouterExact.DrawsExactly` | src/ServerSessionManager.cpp:351-367 | an id is drawn if and only if the datagram decodes, has id 0 and comes from such an endpoint |
| `RouterExact.ActiveExactly` | src/ServerSessionManager.cpp:78-93 | a bound endpoint that names its session: the session takes the datagram, and is erased with its id retired if that ends it |
| `RouterExact.PendingExactly` | src/ServerSessionManager.cpp:140-156 | a pending endpoint that names no active session: the session takes the datagram and is promoted, erased or kept |
| `RouterExact.IgnoredExactly` | src/ServerSessionManager.cpp:86-91 | anyone who names another's active session, and a bound endpoint that names none, is ignored |
| `RouterExact.AdmissionCompletes` | src/ServerSessionManager.cpp:369-384 | SYN, poll and ACK through the router: the poll answers with the SYN-ACK, and the endpoint ends up bound to an active Established session with the drawn id, whose last event is Connected |
| `RouterExact.RouterPollExactly` | src/ServerSessionManager.cpp:50-71 | a poll polls every session once, erases and retires exactly those that send nothing and have ended, and keeps the others as their poll left them |
| `RouterExact.DatagramsExactly` | src/ServerSessionManager.cpp:183-226 | and sends exactly what the sessions send, each to its own endpoint |
| `RouterExact.IdleAreDropped` | src/ServerSessionManager.cpp:203-226 | after a poll no active session is Established that has heard nothing for the idle timeout |
| `RouterExact.QueueExactly` | src/ServerSessionManager.cpp:293-304 | a request for an active id joins the end of that session's queue and nothing else changes; for any other id nothing does |
| `RouterExact.DrainExactly` | src/ServerSessionManager.cpp:284-339 | draining empties the events of every session, or of the one asked for, and changes nothing else |
| `ManagerRuns.StepKeeps` | src/ServerSessionManager.cpp:27-226 | every call keeps the routing invariant, the id ledger and the Connected count |
| `ManagerRuns.ConnectionIdLedger` | src/ServerSessionManager.cpp:351-448 | in every run pending, active and retired ids are nonzero, disjoint and together exactly the ids ever drawn, none drawn twice; index and active map are inverse; no endpoint is both pending and active |
| `ManagerRuns.ManagerLifecycle` | src/ServerSessionManager.cpp:126-226 | between calls pending sessions are HandshakeReceived or Closing, active ones Established or Closing, and each id has at most one Connected event, whether added by datagrams or polls |
| `ManagerRuns.Isolation` | src/ServerSessionManager.cpp:78-156 | a datagram from one endpoint leaves whatever is bound to another unchanged, whatever id it carries |
| `ManagerRuns.OneDatagramEach` | src/ServerSessionManager.cpp:183-226 | the endpoints that one poll sends to for pending and for active sessions do not overlap, and distinct endpoints own sessions with distinct ids; the list itself is `ServerSessionManager.Router.PollTx` |
| `RoutedSessions.RoutedAreRuns` | src/ServerSessionManager.cpp:126-226 | in every run each session of the router is what a session run makes of a fresh server session, and every datagram of that run came from the endpoint it is bound to |
| `RoutedSessions.RoutedGuarantees` | src/ServerSessionManager.cpp:183-226 | so every session of the router has a safe sending window, send counters that add up, accounted PINGs, and a next datagram that decodes and reports the receive state |
| `RoutedSessions.RoutedOrderedSafety` | src/ServerSessionManager.cpp:78-156 | and if every datagram from an endpoint was emitted by one client session, what the router's session for it hands out on ordered channels is what the client assigned to one contiguous range of numbers |

## Left out

- Sockets, select loops, threads, signals, the two applications and `main`: no transport logic.
- Logging, configuration files, command-line and string helpers: easy properties only; transport settings are parameters.
- Hashing of endpoints: endpoints are plain map keys, and loops over hash maps visit them in any order.
- Random numbers: initial sequence numbers and drawn ids are arguments. `Router.AllocateConnId` takes the stream of draws and a point at which an unused id appears, since the retry loop has no other reason to end.
- Overflow of 64-bit clocks and counters and of 32-bit retry and evidence counters: they are natural numbers; only the round-trip difference wraps at 2^64 as in the code.
- Error texts: each message is one constructor of `ErrorReason`.
- Session values inside the router: its maps hold sessions by value, as the source's maps do, so it calls the functions of `SessionSpec` that `Session` is proved to compute; aliasing between sessions does not arise.
- Undrained events of a session that the router erases are lost, as in the code; no claim is made about them.
- Liveness (eventual delivery, bounded acknowledgement delay, completeness of the ordered stream): not promised by the code, since the acknowledgement deadline moves with each arrival and the ordered stream starts at the first ordered packet to arrive.
- RxWindow.TruthfulAcks: for runs of harmless arrivals. When the expected number arrives with a second gap open it fails (`RxWindow.ExpectedArrivalExact`). A harmful arrival at a front at number 0 ends the agreement (`RxWindow.ArrivalAgrees`); whether the fields are then still truthful is not stated.
- Reliability.ReleasedWasReceived: acceptance, not delivery: an accepted packet that precedes the start of the ordered stream stays in the reorder buffer.
- FirstContact.FirstRequest, Burst.BurstDelivered: one exchange without loss, in which the client polls before its idle timeout and keepalive interval are over (later, a probe or a timeout comes first).
- TxRuns.GiveUpTiming: covers numbers never resent early; a fast retransmission shortens the schedule by design.
- Handshake.NoSpuriousMismatch: one direction, as the application's corollary; the exact conditions are `IdCheck.ServerTripsExactly` and `IdCheck.MismatchReachable`.
- ServerSessionManager.Router.CollectActiveTx: requires that no two endpoints are bound to one id, which every reachable router satisfies; otherwise the outcome would depend on the iteration order.
