/** The records that the sender, the receiver, the session and the router update. */
module SessionTypes {
  import opened Protocol

  datatype Role = Client | Server

  datatype ConnState = Closed | HandshakeSent | HandshakeReceived | Established | Closing | Reset

  /** Transport settings; times in milliseconds. */
  datatype Config = Config(
    initialRto: nat, maxRto: nat, maxRetransmit: nat, handshakeLinger: nat, keepaliveIdle: nat,
    idleTimeout: nat, reliableAckDelay: nat, evidenceThreshold: nat, activityAckOnly: bool)

  const DEFAULT_CONFIG := Config(250, 4000, 5, 1000, 500, 15000, 2, 2, false)

  datatype SendRequest = SendRequest(channelId: u32, channelType: ChannelType, payload: seq<u8>)

  datatype TxEntry = TxEntry(
    packet: Packet, firstSendMs: nat, lastSendMs: nat, retryCount: nat,
    gapEvidence: nat, fastRetxPending: bool)

  datatype Probe = Probe(
    pingPending: bool, pongPending: bool, pingOutstanding: bool, lastSentMs: nat, lastPingSentMs: nat)

  /** The scheduling flags of the sender, as opposed to its queue and its window. */
  datatype TxFlags = TxFlags(
    synAckPending: bool, finalAckPending: bool, finalAckLingerUntilMs: nat, finPending: bool,
    ackOnlyPending: bool, reliableAckPending: bool, reliableAckDueMs: nat,
    activityAckPending: bool, probe: Probe)

  datatype TxState = TxState(
    nextSeq: u32, remoteAck: u32, remoteAckBits: u64, pendingSend: seq<SendRequest>,
    inflight: map<u32, TxEntry>, flags: TxFlags)

  datatype EventKind = DataReceived | Connected | ConnectionClosed | ConnectionReset | Error

  datatype ErrorReason =
    | NoError | InvalidFlags | UnexpectedSyn | ConnIdMismatch | IdleTimeout | RetryLimit

  datatype Event = Event(
    kind: EventKind, seqNo: u32, channelId: u32, channelType: u8, payload: seq<u8>, reason: ErrorReason)

  datatype RxState = RxState(
    nextExpected: u32, receivedBits: u64, reorder: map<u32, Packet>, nextOrdered: u32,
    orderedStarted: bool, monotonic: map<u32, u32>, events: seq<Event>)

  datatype Stats = Stats(
    packetsSent: nat, packetsReceived: nat, bytesSent: nat, bytesReceived: nat,
    controlSent: nat, controlReceived: nat, dataSent: nat, dataReceived: nat,
    pingsSent: nat, pongsSent: nat, pingsReceived: nat, pongsReceived: nat,
    retransmissionsSent: nat, rttCount: nat, rttSum: nat,
    latestRtt: Option<nat>, minRtt: Option<nat>, maxRtt: Option<nat>)

  datatype SessionState = SessionState(
    role: Role, connId: u32, conn: ConnState, establishedSinceMs: nat, lastRxMs: nat, lastTxMs: nat,
    stats: Stats, tx: TxState, rx: RxState)

  const NO_PROBE := Probe(false, false, false, 0, 0)
  const NO_FLAGS := TxFlags(false, false, 0, false, false, false, 0, false, NO_PROBE)
  const NO_STATS := Stats(0, 0, 0, 0, 0, 0, 0, 0, 0, 0, 0, 0, 0, 0, 0, None, None, None)

  function InitialTx(isn: u32): TxState {
    TxState(isn, isn, 0, [], map[], NO_FLAGS)
  }

  const INITIAL_RX := RxState(0, 0, map[], 0, false, map[], [])

  function InitialSession(role: Role, isn: u32, connId: u32): SessionState {
    SessionState(role, connId, Closed, 0, 0, 0, NO_STATS, InitialTx(isn), INITIAL_RX)
  }
}
