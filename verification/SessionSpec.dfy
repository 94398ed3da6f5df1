/** The session as functions on its state, stage by stage in the order of the source. */
module SessionSpec {
  import opened Protocol
  import opened Codec
  import opened SessionTypes
  import opened ConnectionStateMachine
  import Tx = TxSpec
  import Rx = RxSpec

  function AckFieldsOf(rx: RxState): Tx.AckFields {
    Tx.AckFields(rx.nextExpected, rx.receivedBits)
  }

  function LocalError(rx: RxState, reason: ErrorReason): RxState {
    Rx.Emit(rx, Event(Error, 0, 0, UNRELIABLE, [], reason))
  }

  function ControlEvent(kind: EventKind, h: Header, reason: ErrorReason): Event {
    Event(kind, h.seqNo, h.channelId, h.channelType, [], reason)
  }

  function WithFlags(s: SessionState, f: TxFlags): SessionState {
    s.(tx := s.tx.(flags := f))
  }

  // ----- sending -----

  predicate ShouldScheduleProbe(cfg: Config, s: SessionState, now: nat) {
    var probe := s.tx.flags.probe;
    && s.role == Client && s.conn == Established
    && !probe.pingOutstanding && !probe.pingPending && !probe.pongPending
    && now >= (if probe.lastSentMs != 0 then probe.lastSentMs else s.establishedSinceMs) + cfg.keepaliveIdle
  }

  predicate AckLaneFree(s: SessionState) {
    var f := s.tx.flags;
    s.conn == Established && !f.ackOnlyPending && !f.probe.pingPending && !f.probe.pongPending
  }

  predicate ShouldScheduleActivityAck(cfg: Config, s: SessionState, now: nat) {
    && cfg.activityAckOnly && AckLaneFree(s) && s.tx.flags.activityAckPending
    && now >= s.lastTxMs + cfg.keepaliveIdle
  }

  predicate ShouldScheduleReliableAck(s: SessionState, now: nat) {
    AckLaneFree(s) && s.tx.flags.reliableAckPending && now >= s.tx.flags.reliableAckDueMs
  }

  predicate ShouldTimeout(cfg: Config, s: SessionState, now: nat) {
    s.conn == Established && now >= s.lastRxMs + cfg.idleTimeout
  }

  function ScheduledFlags(cfg: Config, s: SessionState, now: nat): TxFlags {
    var f := s.tx.flags;
    if ShouldScheduleReliableAck(s, now) then f.(ackOnlyPending := true, reliableAckPending := false)
    else if ShouldScheduleActivityAck(cfg, s, now) then f.(ackOnlyPending := true)
    else if ShouldScheduleProbe(cfg, s, now) then f.(probe := f.probe.(pingPending := true))
    else f
  }

  function SentStats(st: Stats, kind: ControlKind, size: nat, retransmission: bool): Stats {
    st.(packetsSent := st.packetsSent + 1,
        bytesSent := st.bytesSent + size,
        controlSent := st.controlSent + Count(kind != KNone),
        dataSent := st.dataSent + Count(kind == KNone),
        pingsSent := st.pingsSent + Count(kind == KPing),
        pongsSent := st.pongsSent + Count(kind == KPong),
        retransmissionsSent := st.retransmissionsSent + Count(retransmission))
  }

  function SentFlags(f: TxFlags, kind: ControlKind, now: nat): TxFlags {
    var probed := if kind == KPing
      then f.(probe := f.probe.(pingOutstanding := true, lastSentMs := now, lastPingSentMs := now))
      else f;
    probed.(activityAckPending := false, reliableAckPending := probed.reliableAckPending && kind != KAck)
  }

  /** Bookkeeping for an outbound datagram; nothing happens for one that would not decode. */
  function ApplyOutbound(s: SessionState, p: Packet, now: nat, retransmission: bool): SessionState {
    if !IsValidHeader(p.header) then s
    else
      var kind := Classify(p.header.flags);
      WithFlags(s, SentFlags(s.tx.flags, kind, now))
        .(lastTxMs := now, stats := SentStats(s.stats, kind, 28 + |p.payload|, retransmission))
  }

  datatype Polled = Polled(session: SessionState, outcome: Tx.Outcome)

  function TxPoll(cfg: Config, s: SessionState, now: nat): Tx.PollResult {
    Tx.Poll(cfg, s.tx.(flags := ScheduledFlags(cfg, s, now)), now, s.role, s.connId, s.conn, AckFieldsOf(s.rx))
  }

  function AfterPoll(s: SessionState, r: Tx.PollResult, now: nat): SessionState {
    var polled := s.(tx := r.tx, conn := r.conn);
    match r.outcome
    case Idle => polled
    case GaveUp(_) => polled.(conn := Reset, rx := LocalError(s.rx, RetryLimit))
    case Sent(p, lane) => ApplyOutbound(polled, p, now, lane == Tx.Retransmit)
  }

  function PollTx(cfg: Config, s: SessionState, now: nat): Polled {
    if ShouldTimeout(cfg, s, now) then
      Polled(s.(conn := Reset, rx := LocalError(s.rx, IdleTimeout)), Tx.Idle)
    else
      var r := TxPoll(cfg, s, now);
      Polled(AfterPoll(s, r, now), r.outcome)
  }

  // ----- receiving -----

  function RecordReceived(s: SessionState, kind: ControlKind, size: nat, now: nat): SessionState {
    var st := s.stats;
    s.(lastRxMs := now, stats := st.(
      packetsReceived := st.packetsReceived + 1,
      bytesReceived := st.bytesReceived + size,
      controlReceived := st.controlReceived + Count(kind != KNone),
      dataReceived := st.dataReceived + Count(kind == KNone),
      pingsReceived := st.pingsReceived + Count(kind == KPing),
      pongsReceived := st.pongsReceived + Count(kind == KPong)))
  }

  function AdoptConnId(s: SessionState, kind: ControlKind, h: Header): SessionState {
    if s.role == Client && kind == KSynAck && s.connId == 0 && h.connId != 0 then s.(connId := h.connId) else s
  }

  predicate HasConnIdMismatch(s: SessionState, kind: ControlKind, h: Header) {
    && s.connId != 0 && kind != KSyn
    && !(s.role == Server && s.conn == Closed && h.connId == 0)
    && h.connId != s.connId
  }

  predicate IsDuplicateSynAck(s: SessionState, kind: ControlKind) {
    s.role == Client && s.conn == Established && kind == KSynAck
  }

  function LingerFlags(f: TxFlags, now: nat): TxFlags {
    if now <= f.finalAckLingerUntilMs then f.(finalAckPending := true) else f
  }

  /** `now - sentMs` in 64-bit arithmetic. */
  function Elapsed(now: nat, sentMs: nat): nat {
    if now >= sentMs then now - sentMs else (now - sentMs) % 0x1_0000_0000_0000_0000
  }

  function RttStats(st: Stats, rtt: nat): Stats {
    st.(latestRtt := Some(rtt), rttCount := st.rttCount + 1, rttSum := st.rttSum + rtt,
        minRtt := if st.minRtt.None? || rtt < st.minRtt.value then Some(rtt) else st.minRtt,
        maxRtt := if st.maxRtt.None? || rtt > st.maxRtt.value then Some(rtt) else st.maxRtt)
  }

  function ProbeFlags(f: TxFlags, conn: ConnState, kind: ControlKind): TxFlags {
    if kind == KPing && conn == Established then f.(probe := f.probe.(pongPending := true))
    else if kind == KPong then f.(probe := f.probe.(pingOutstanding := false))
    else f
  }

  function ProbeStats(st: Stats, probe: Probe, kind: ControlKind, now: nat): Stats {
    if kind == KPong && probe.pingOutstanding then RttStats(st, Elapsed(now, probe.lastPingSentMs)) else st
  }

  function ProbeReceived(s: SessionState, kind: ControlKind, now: nat): SessionState {
    WithFlags(s, ProbeFlags(s.tx.flags, s.conn, kind)).(stats := ProbeStats(s.stats, s.tx.flags.probe, kind, now))
  }

  /** Probe bookkeeping, acknowledgement processing, and closing on an acknowledged FIN. */
  function AfterAck(cfg: Config, s0: SessionState, kind: ControlKind, h: Header, now: nat): SessionState {
    var s := ProbeReceived(s0, kind, now);
    if kind == KSyn then s
    else
      var acked := s.(tx := Tx.OnRemoteAck(cfg, s.tx, h.ack, h.ackBits));
      if Tx.FinAcked(s.tx.inflight, h.ack, h.ackBits) && s.conn == Closing
      then acked.(conn := Closed, rx := Rx.Emit(s.rx, ControlEvent(ConnectionClosed, h, NoError)))
      else acked
  }

  function DecisionFlags(f: TxFlags, d: Decision): TxFlags {
    f.(synAckPending := f.synAckPending || d.scheduleSynAck,
       finalAckPending := f.finalAckPending || d.scheduleFinalAck,
       ackOnlyPending := f.ackOnlyPending || d.scheduleAckOnly)
  }

  function EventIf(emit: bool, kind: EventKind, h: Header): seq<Event> {
    if emit then [ControlEvent(kind, h, NoError)] else []
  }

  function DecisionEvents(d: Decision, h: Header): seq<Event> {
    EventIf(d.emitConnected, Connected, h) + EventIf(d.emitClosed, ConnectionClosed, h) +
    EventIf(d.emitReset, ConnectionReset, h)
  }

  function ApplyDecision(s: SessionState, h: Header, d: Decision): SessionState {
    if !d.valid then s.(rx := Rx.Emit(s.rx, ControlEvent(Error, h, d.reason)))
    else
      var conn := if d.next.Some? then d.next.value else s.conn;
      WithFlags(s, DecisionFlags(s.tx.flags, d)).(
        conn := conn,
        establishedSinceMs := if s.conn != Established && conn == Established then s.lastRxMs else s.establishedSinceMs,
        rx := s.rx.(events := s.rx.events + DecisionEvents(d, h)))
  }

  function ReceiveFlags(cfg: Config, s: SessionState, h: Header, kind: ControlKind, scheduleAck: bool, now: nat)
    : TxFlags
  {
    var f := s.tx.flags;
    var live := if kind == KNone && s.conn == Established then f.(activityAckPending := true) else f;
    if !scheduleAck then live
    else if kind == KNone && IsReliableChannel(h.channelType) then
      live.(reliableAckPending := true, reliableAckDueMs := now + cfg.reliableAckDelay)
    else live.(ackOnlyPending := true)
  }

  /** The session once statistics are recorded and a connection id possibly adopted. */
  function Admitted(s: SessionState, p: Packet, size: nat, now: nat): SessionState {
    var kind := Classify(p.header.flags);
    AdoptConnId(RecordReceived(s, kind, size, now), kind, p.header)
  }

  /** The packet passes the connection-id check and is not a repeated SYN-ACK. */
  predicate IsProcessed(s: SessionState, p: Packet) {
    var kind := Classify(p.header.flags);
    var a := AdoptConnId(s, kind, p.header);
    !HasConnIdMismatch(a, kind, p.header) && !IsDuplicateSynAck(a, kind)
  }

  /** From the connection decision to the end of packet processing. */
  function AfterDecision(cfg: Config, s: SessionState, p: Packet, now: nat): SessionState {
    var kind := Classify(p.header.flags);
    var decided := ApplyDecision(s, p.header, Decide(s.role, s.conn, kind));
    var r := Rx.OnPacket(decided.rx, p, kind);
    WithFlags(decided, ReceiveFlags(cfg, decided, p.header, kind, r.scheduleAck, now)).(rx := r.rx)
  }

  function OnPacket(cfg: Config, s0: SessionState, p: Packet, size: nat, now: nat): SessionState {
    var kind := Classify(p.header.flags);
    var s := Admitted(s0, p, size, now);
    if HasConnIdMismatch(s, kind, p.header) then s.(conn := Reset, rx := LocalError(s.rx, ConnIdMismatch))
    else if IsDuplicateSynAck(s, kind) then WithFlags(s, LingerFlags(s.tx.flags, now))
    else AfterDecision(cfg, AfterAck(cfg, s, kind, p.header, now), p, now)
  }

  function OnDatagram(cfg: Config, s: SessionState, bytes: seq<u8>, now: nat): SessionState {
    match Decode(bytes)
    case None => s
    case Some(p) => OnPacket(cfg, s, p, |bytes|, now)
  }

  function RequestClose(s: SessionState): SessionState {
    if s.conn == Established then WithFlags(s, s.tx.flags.(finPending := true)).(conn := Closing) else s
  }

  function QueueSend(s: SessionState, r: SendRequest): SessionState {
    s.(tx := Tx.QueueSend(s.tx, r))
  }

  function DrainEvents(s: SessionState): SessionState {
    s.(rx := s.rx.(events := []))
  }
}
