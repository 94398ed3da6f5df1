/**
 * Exactly what a session makes of a datagram, for every state and every kind of packet: the connection state it ends
 * in, the events it adds, and what it schedules, said in terms of the flag values and the fields alone.
 */
module ReceiveExact {
  import opened Protocol
  import opened Codec
  import opened SessionTypes
  import opened ConnectionStateMachine
  import opened SessionSpec
  import opened RxWindow
  import Life = SessionLifecycle
  import Hist = SessionHistory
  import Tx = TxSpec
  import Rx = RxSpec

  // ----- the connection-id check -----

  /** A client without an id takes that of a SYN-ACK. */
  function IdAfter(s: SessionState, h: Header): u32 {
    if s.role == Client && s.connId == 0 && h.flags == SYN_ACK then h.connId else s.connId
  }

  /** The session has an id, and the packet is no SYN, no bootstrap of a closed server, and carries another. */
  predicate IsStrange(s: SessionState, h: Header) {
    && IdAfter(s, h) != 0 && IdAfter(s, h) != h.connId && h.flags != SYN
    && !(s.role == Server && s.conn == Closed && h.connId == 0)
  }

  predicate IsRepeatedSynAck(s: SessionState, h: Header) {
    s.role == Client && s.conn == Established && h.flags == SYN_ACK
  }

  lemma KindIs(h: Header)
    requires IsValidHeader(h)
    ensures Classify(h.flags) ==
      if h.flags == 0 then KNone else if h.flags == SYN then KSyn else if h.flags == SYN_ACK then KSynAck
      else if h.flags == ACK then KAck else if h.flags == FIN then KFin else if h.flags == RST then KRst
      else if h.flags == PING then KPing else if h.flags == PONG then KPong else KInvalid
  {
    ClassifyValues(h.flags);
  }

  lemma ChecksAre(s: SessionState, p: Packet)
    requires IsValidHeader(p.header)
    ensures IsProcessed(s, p) <==> !IsStrange(s, p.header) && !IsRepeatedSynAck(s, p.header)
    ensures var kind := Classify(p.header.flags);
      HasConnIdMismatch(AdoptConnId(s, kind, p.header), kind, p.header) <==> IsStrange(s, p.header)
  {
    KindIs(p.header);
    hide Classify;
  }

  /** Everything but the receive counters and the time of the last arrival is as it was. */
  function Heard(s: SessionState, s': SessionState, h: Header, now: nat): SessionState {
    s.(connId := IdAfter(s, h), lastRxMs := now, stats := s'.stats)
  }

  /** A strange packet resets the session with an error, and does nothing else. */
  lemma StrangeExactly(cfg: Config, s: SessionState, bytes: seq<u8>, now: nat)
    requires Decode(bytes).Some? && IsStrange(s, Decode(bytes).value.header)
    ensures var s', h := OnDatagram(cfg, s, bytes, now), Decode(bytes).value.header;
      s' == Heard(s, s', h, now).(conn := Reset, rx := s.rx.(events :=
        s.rx.events + [Event(Error, 0, 0, UNRELIABLE, [], ConnIdMismatch)]))
  {
    var p := Decode(bytes).value;
    EncodeDecode(bytes);
    ChecksAre(s, p);
    KindIs(p.header);
    hide Decode, Encode, Classify;
  }

  /** A repeated SYN-ACK only asks for the final ACK again, and only within the linger period. */
  lemma RepeatedSynAckExactly(cfg: Config, s: SessionState, bytes: seq<u8>, now: nat)
    requires Decode(bytes).Some? && IsRepeatedSynAck(s, Decode(bytes).value.header)
    requires !IsStrange(s, Decode(bytes).value.header)
    ensures var s', h, f := OnDatagram(cfg, s, bytes, now), Decode(bytes).value.header, s.tx.flags;
      s' == Heard(s, s', h, now).(tx := s.tx.(flags :=
        f.(finalAckPending := f.finalAckPending || now <= f.finalAckLingerUntilMs)))
  {
    var p := Decode(bytes).value;
    EncodeDecode(bytes);
    ChecksAre(s, p);
    KindIs(p.header);
    hide Decode, Encode, Classify;
  }

  // ----- the connection -----

  predicate CarriesFin(e: TxEntry) { e.packet.header.flags / 2 % 2 == 1 }

  /** The header acknowledges a FIN that is in flight, and the session is waiting for that. */
  ghost predicate FinDone(s: SessionState, h: Header) {
    && h.flags != SYN && s.conn == Closing
    && exists n :: n in s.tx.inflight && Tx.IsAcked(n, h.ack, h.ackBits) && CarriesFin(s.tx.inflight[n])
  }

  /** The state in which the packet is looked at. */
  ghost function ConnBefore(s: SessionState, h: Header): ConnState { if FinDone(s, h) then Closed else s.conn }

  predicate KnownFlags(flags: u8) { flags in {0, SYN, SYN_ACK, ACK, FIN, RST, PING, PONG} }

  /** The state after the packet. */
  ghost function ConnAfter(s: SessionState, h: Header): ConnState {
    var conn := ConnBefore(s, h);
    if h.flags == FIN then Closing
    else if h.flags == RST then Reset
    else if h.flags == SYN && s.role == Server && conn == Closed then HandshakeReceived
    else if h.flags == SYN_ACK && s.role == Client && conn == HandshakeSent then Established
    else if h.flags == ACK && s.role == Server && conn == HandshakeReceived then Established
    else conn
  }

  function Control(kind: EventKind, h: Header, reason: ErrorReason): Event {
    Event(kind, h.seqNo, h.channelId, h.channelType, [], reason)
  }

  /** The events that the packet's flags call for. */
  ghost function FlagEvents(s: SessionState, h: Header): seq<Event> {
    var conn := ConnBefore(s, h);
    if h.flags == FIN then [Control(ConnectionClosed, h, NoError)]
    else if h.flags == RST then [Control(ConnectionReset, h, NoError)]
    else if h.flags == SYN && conn == Established then [Control(Error, h, UnexpectedSyn)]
    else if !KnownFlags(h.flags) then [Control(Error, h, InvalidFlags)]
    else if ConnAfter(s, h) == Established && conn != Established then [Control(Connected, h, NoError)]
    else []
  }

  ghost function EventsBefore(s: SessionState, h: Header): seq<Event> {
    s.rx.events + if FinDone(s, h) then [Control(ConnectionClosed, h, NoError)] else []
  }

  lemma FinDoneIs(s: SessionState, h: Header)
    ensures FinDone(s, h) <==>
      h.flags != SYN && s.conn == Closing && Tx.FinAcked(s.tx.inflight, h.ack, h.ackBits)
  {
    hide Tx.IsAcked;
  }

  lemma AckStage(cfg: Config, s: SessionState, p: Packet, size: nat, now: nat)
    requires IsValidHeader(p.header)
    ensures var kind := Classify(p.header.flags);
      var m := AfterAck(cfg, Admitted(s, p, size, now), kind, p.header, now);
      && m.conn == ConnBefore(s, p.header) && m.role == s.role
      && m.rx == s.rx.(events := EventsBefore(s, p.header))
  {
    KindIs(p.header);
    FinDoneIs(s, p.header);
    hide Classify, Tx.OnRemoteAck, Tx.FinAcked, FinDone, RttStats;
  }

  lemma DecisionStage(s: SessionState, m: SessionState, h: Header)
    requires IsValidHeader(h) && m.conn == ConnBefore(s, h) && m.role == s.role
    requires m.rx == s.rx.(events := EventsBefore(s, h))
    ensures var d := ApplyDecision(m, h, Decide(m.role, m.conn, Classify(h.flags)));
      d.conn == ConnAfter(s, h) && d.rx == s.rx.(events := EventsBefore(s, h) + FlagEvents(s, h))
  {
    KindIs(h);
    hide Classify, ConnBefore, EventsBefore;
    assert EventsBefore(s, h) + [] == EventsBefore(s, h);
    var d := Decide(m.role, m.conn, Classify(h.flags));
    assert d.valid ==> DecisionEvents(d, h) == FlagEvents(s, h);
  }

  /**
   * What any packet that passes the checks does to the connection: the state after it, and the events it adds before
   * any data is delivered. A packet with flags delivers no data.
   */
  lemma ConnectionExactly(cfg: Config, s: SessionState, bytes: seq<u8>, now: nat)
    requires Decode(bytes).Some?
    requires !IsStrange(s, Decode(bytes).value.header) && !IsRepeatedSynAck(s, Decode(bytes).value.header)
    ensures var s', h := OnDatagram(cfg, s, bytes, now), Decode(bytes).value.header;
      && s'.conn == ConnAfter(s, h) && s'.connId == IdAfter(s, h) && s'.role == s.role
      && EventsBefore(s, h) + FlagEvents(s, h) <= s'.rx.events
      && (h.flags != 0 ==> s'.rx.events == EventsBefore(s, h) + FlagEvents(s, h))
  {
    var p := Decode(bytes).value;
    EncodeDecode(bytes);
    ChecksAre(s, p);
    KindIs(p.header);
    hide Decode, Encode, Classify, AfterAck, ConnBefore, EventsBefore, FlagEvents, ConnAfter, ApplyDecision, Decide;
    hide Rx.OnPacket;
    var kind, h := Classify(p.header.flags), p.header;
    var a := Admitted(s, p, |bytes|, now);
    var m := AfterAck(cfg, a, kind, h, now);
    AckStage(cfg, s, p, |bytes|, now);
    DecisionStage(s, m, h);
    Life.AfterAckConn(cfg, a, kind, h, now);
    Life.AfterDecisionConn(cfg, m, p, now);
    var decided := ApplyDecision(m, h, Decide(m.role, m.conn, kind));
    Life.RxAppendsData(decided.rx, p, kind);
    ControlKeepsEvents(decided.rx, p, kind);
  }

  lemma ControlKeepsEvents(rx: RxState, p: Packet, kind: ControlKind)
    ensures kind != KNone ==> Rx.OnPacket(rx, p, kind).rx.events == rx.events
  {
    ArriveFrame(rx, p.header.seqNo);
    hide Rx.Arrive, Rx.Deliver;
  }

  /**
   * The cases by name. FIN ends in Closing and is reported, RST ends in Reset and is reported; a SYN for an
   * Established session and flags that mean nothing are errors that leave the state.
   */
  lemma ControlOutcomes(cfg: Config, s: SessionState, bytes: seq<u8>, now: nat)
    requires Decode(bytes).Some?
    requires !IsStrange(s, Decode(bytes).value.header) && !IsRepeatedSynAck(s, Decode(bytes).value.header)
    ensures var s', h := OnDatagram(cfg, s, bytes, now), Decode(bytes).value.header;
      && (h.flags == FIN ==> s'.conn == Closing && EndsWith(s'.rx.events, Control(ConnectionClosed, h, NoError)))
      && (h.flags == RST ==> s'.conn == Reset && EndsWith(s'.rx.events, Control(ConnectionReset, h, NoError)))
      && (h.flags == SYN && s.conn == Established ==>
            s'.conn == Established && s'.rx.events == s.rx.events + [Control(Error, h, UnexpectedSyn)])
      && (!KnownFlags(h.flags) ==>
            s'.conn == ConnBefore(s, h) && EndsWith(s'.rx.events, Control(Error, h, InvalidFlags)))
  {
    hide OnDatagram, Decode, FinDone;
    ConnectionExactly(cfg, s, bytes, now);
    var h := Decode(bytes).value.header;
    assert h.flags == SYN ==> !FinDone(s, h) by { FinDoneIs(s, h); }
    assert s.rx.events + [] == s.rx.events;
  }

  predicate EndsWith(events: seq<Event>, e: Event) { events != [] && events[|events| - 1] == e }

  // ----- what is scheduled -----

  /** The sender's flags after a packet that passes the checks. */
  ghost function FlagsAfter(cfg: Config, s: SessionState, h: Header, now: nat): TxFlags {
    var f, conn, conn' := s.tx.flags, ConnBefore(s, h), ConnAfter(s, h);
    var data, reliable := h.flags == 0, h.channelType < 2;
    f.(synAckPending := f.synAckPending || (conn' == HandshakeReceived && conn != HandshakeReceived),
       finalAckPending := f.finalAckPending || (s.role == Client && conn' == Established && conn != Established),
       ackOnlyPending := f.ackOnlyPending || h.flags == FIN || (!data && reliable),
       reliableAckPending := f.reliableAckPending || (data && reliable),
       reliableAckDueMs := if data && reliable then now + cfg.reliableAckDelay else f.reliableAckDueMs,
       activityAckPending := f.activityAckPending || (data && conn' == Established),
       probe := if h.flags == PING && s.conn == Established then f.probe.(pongPending := true)
                else if h.flags == PONG then f.probe.(pingOutstanding := false)
                else f.probe)
  }

  lemma AckStageFlags(cfg: Config, s: SessionState, p: Packet, size: nat, now: nat)
    requires IsValidHeader(p.header)
    ensures var h, f := p.header, s.tx.flags;
      var m := AfterAck(cfg, Admitted(s, p, size, now), Classify(h.flags), h, now);
      m.tx.flags == f.(probe :=
        if h.flags == PING && s.conn == Established then f.probe.(pongPending := true)
        else if h.flags == PONG then f.probe.(pingOutstanding := false)
        else f.probe)
  {
    KindIs(p.header);
    hide Classify, AfterAck, ProbeStats, RecordReceived, IsValidHeader;
    var a, kind := Admitted(s, p, size, now), Classify(p.header.flags);
    Hist.AfterAckFlags(cfg, a, kind, p.header, now);
    AdmittedKeeps(s, p, size, now);
    hide Admitted;
  }

  lemma AdmittedKeeps(s: SessionState, p: Packet, size: nat, now: nat)
    ensures Admitted(s, p, size, now).tx == s.tx && Admitted(s, p, size, now).conn == s.conn
  {
    hide Classify;
  }

  /** What the transition table schedules, from the state before and the state after. */
  lemma DecisionIs(role: Role, conn: ConnState, h: Header)
    requires IsValidHeader(h)
    ensures var d := Decide(role, conn, Classify(h.flags));
      var conn' := if d.valid && d.next.Some? then d.next.value else conn;
      && d.scheduleSynAck == (conn' == HandshakeReceived && conn != HandshakeReceived)
      && d.scheduleFinalAck == (role == Client && conn' == Established && conn != Established)
      && d.scheduleAckOnly == (h.flags == FIN)
      && (!d.valid ==> !d.scheduleSynAck && !d.scheduleFinalAck && !d.scheduleAckOnly && conn' == conn)
  {
    KindIs(h);
    hide Classify;
  }

  /** The flags between the connection decision and the receiver. */
  function DecidedFlags(f: TxFlags, role: Role, conn: ConnState, conn': ConnState, h: Header): TxFlags {
    f.(synAckPending := f.synAckPending || (conn' == HandshakeReceived && conn != HandshakeReceived),
       finalAckPending := f.finalAckPending || (role == Client && conn' == Established && conn != Established),
       ackOnlyPending := f.ackOnlyPending || h.flags == FIN)
  }

  lemma DecisionStageFlags(m: SessionState, h: Header, conn': ConnState)
    requires IsValidHeader(h) && conn' == ApplyDecision(m, h, Decide(m.role, m.conn, Classify(h.flags))).conn
    ensures var d := ApplyDecision(m, h, Decide(m.role, m.conn, Classify(h.flags)));
      && d.tx.flags == DecidedFlags(m.tx.flags, m.role, m.conn, conn', h)
      && d.establishedSinceMs ==
           (if conn' == Established && m.conn != Established then m.lastRxMs else m.establishedSinceMs)
      && d.lastTxMs == m.lastTxMs && d.lastRxMs == m.lastRxMs
  {
    DecisionIs(m.role, m.conn, h);
    hide Decide, DecisionEvents, Classify;
  }

  /** The flags that the arrival itself raises. */
  function ArrivalFlags(cfg: Config, f: TxFlags, conn: ConnState, h: Header, now: nat): TxFlags {
    var data, reliable := h.flags == 0, h.channelType < 2;
    f.(ackOnlyPending := f.ackOnlyPending || h.flags == FIN || (!data && reliable),
       reliableAckPending := f.reliableAckPending || (data && reliable),
       reliableAckDueMs := if data && reliable then now + cfg.reliableAckDelay else f.reliableAckDueMs,
       activityAckPending := f.activityAckPending || (data && conn == Established))
  }

  lemma ArrivalStageFlags(cfg: Config, d: SessionState, p: Packet, now: nat)
    requires IsValidHeader(p.header)
    ensures var kind := Classify(p.header.flags);
      ReceiveFlags(cfg, d, p.header, kind, Rx.OnPacket(d.rx, p, kind).scheduleAck, now) ==
      ArrivalFlags(cfg, d.tx.flags, d.conn, p.header, now)
  {
    KindIs(p.header);
    hide Classify, Rx.Arrive, Rx.Deliver;
    var kind := Classify(p.header.flags);
    assert Rx.OnPacket(d.rx, p, kind).scheduleAck == (p.header.channelType < 2 || kind == KFin);
    hide Rx.OnPacket;
  }

  /** A packet that passes the checks schedules exactly this, and dates the connection when it is established. */
  lemma ScheduleExactly(cfg: Config, s: SessionState, bytes: seq<u8>, now: nat)
    requires Decode(bytes).Some?
    requires !IsStrange(s, Decode(bytes).value.header) && !IsRepeatedSynAck(s, Decode(bytes).value.header)
    ensures var s', h := OnDatagram(cfg, s, bytes, now), Decode(bytes).value.header;
      && s'.tx.flags == FlagsAfter(cfg, s, h, now) && s'.lastRxMs == now && s'.lastTxMs == s.lastTxMs
      && s'.establishedSinceMs ==
           (if ConnAfter(s, h) == Established && ConnBefore(s, h) != Established then now else s.establishedSinceMs)
  {
    var p := Decode(bytes).value;
    EncodeDecode(bytes);
    ChecksAre(s, p);
    hide Decode, Encode, Classify, AfterAck, ConnBefore, EventsBefore, FlagEvents, ConnAfter, ApplyDecision, Decide;
    hide Rx.OnPacket, ReceiveFlags, DecidedFlags, ArrivalFlags, Admitted, FlagsAfter, IsValidHeader;
    var kind, h := Classify(p.header.flags), p.header;
    var m := AfterAck(cfg, Admitted(s, p, |bytes|, now), kind, h, now);
    var d := ApplyDecision(m, h, Decide(m.role, m.conn, kind));
    AckStage(cfg, s, p, |bytes|, now);
    AckStageFlags(cfg, s, p, |bytes|, now);
    DecisionStage(s, m, h);
    DecisionStageFlags(m, h, ConnAfter(s, h));
    ArrivalStageFlags(cfg, d, p, now);
    AckStageTimes(cfg, s, p, |bytes|, now);
    FlagsCompose(cfg, s, m.tx.flags, h, now);
    ProcessedIs(cfg, s, p, |bytes|, now);
  }

  lemma ProcessedIs(cfg: Config, s: SessionState, p: Packet, size: nat, now: nat)
    requires IsProcessed(s, p)
    ensures var kind := Classify(p.header.flags);
      var m := AfterAck(cfg, Admitted(s, p, size, now), kind, p.header, now);
      var d := ApplyDecision(m, p.header, Decide(m.role, m.conn, kind));
      var s', r := OnPacket(cfg, s, p, size, now), Rx.OnPacket(d.rx, p, kind);
      && s'.tx.flags == ReceiveFlags(cfg, d, p.header, kind, r.scheduleAck, now)
      && s'.lastRxMs == d.lastRxMs && s'.lastTxMs == d.lastTxMs && s'.establishedSinceMs == d.establishedSinceMs
  {
    hide Classify, AfterAck, ApplyDecision, Decide, Rx.OnPacket, ReceiveFlags;
  }

  lemma FlagsCompose(cfg: Config, s: SessionState, f: TxFlags, h: Header, now: nat)
    requires f == s.tx.flags.(probe :=
      if h.flags == PING && s.conn == Established then s.tx.flags.probe.(pongPending := true)
      else if h.flags == PONG then s.tx.flags.probe.(pingOutstanding := false)
      else s.tx.flags.probe)
    ensures ArrivalFlags(cfg, DecidedFlags(f, s.role, ConnBefore(s, h), ConnAfter(s, h), h), ConnAfter(s, h), h, now) ==
      FlagsAfter(cfg, s, h, now)
  {
    hide ConnBefore, ConnAfter;
  }

  lemma AckStageTimes(cfg: Config, s: SessionState, p: Packet, size: nat, now: nat)
    ensures var m := AfterAck(cfg, Admitted(s, p, size, now), Classify(p.header.flags), p.header, now);
      m.lastTxMs == s.lastTxMs && m.lastRxMs == now && m.establishedSinceMs == s.establishedSinceMs
  {
    hide Classify, Tx.OnRemoteAck, Tx.FinAcked, ProbeStats, ProbeFlags;
  }

  /** The PONG that answers a PING adds one sample: the time since that PING was sent. */
  lemma SampleExactly(cfg: Config, s: SessionState, bytes: seq<u8>, now: nat)
    requires Decode(bytes).Some? && Decode(bytes).value.header.flags == PONG
    requires !IsStrange(s, Decode(bytes).value.header)
    requires s.tx.flags.probe.pingOutstanding && now >= s.tx.flags.probe.lastPingSentMs
    ensures var st, st' := s.stats, OnDatagram(cfg, s, bytes, now).stats;
      var rtt := now - s.tx.flags.probe.lastPingSentMs;
      && st'.rttCount == st.rttCount + 1 && st'.rttSum == st.rttSum + rtt && st'.latestRtt == Some(rtt)
      && st'.minRtt.Some? && st'.maxRtt.Some? && st'.minRtt.value <= rtt <= st'.maxRtt.value
  {
    hide Decode, OnPacket, ConnAfter, ConnBefore;
    var p := Decode(bytes).value;
    ScheduleExactly(cfg, s, bytes, now);
    Hist.ReceiveStats(cfg, s, p, |bytes|, now);
  }

  // ----- what is delivered -----

  function DataOf(p: Packet): Event {
    Event(DataReceived, p.header.seqNo, p.header.channelId, p.header.channelType, p.payload, NoError)
  }

  /** The version that a state packet carries in its first four bytes is after the one stored for its channel. */
  predicate IsNewer(rx: RxState, p: Packet) {
    && |p.payload| >= 4
    && (p.header.channelId in rx.monotonic ==>
          1 <= Diff(Word32(p.payload, 0), rx.monotonic[p.header.channelId]) < 0x8000_0000)
  }

  /** What a data packet adds to the events and the stored versions, ordered channels apart. */
  predicate Delivers(rx: RxState, rx': RxState, p: Packet, accepted: bool) {
    var out := match p.header.channelType
      case 1 => accepted
      case 2 => true
      case _ => IsNewer(rx, p);
    && rx'.events == (if out then rx.events + [DataOf(p)] else rx.events)
    && rx'.monotonic == (if p.header.channelType == 3 && out
                         then rx.monotonic[p.header.channelId := Word32(p.payload, 0)] else rx.monotonic)
  }

  lemma DeliversUnordered(rx: RxState, p: Packet)
    requires 1 <= p.header.channelType <= 3
    ensures Delivers(rx, Rx.OnPacket(rx, p, KNone).rx, p, Rx.Arrive(rx, p.header.seqNo).accepted)
  {
    ArriveFrame(rx, p.header.seqNo);
    if |p.payload| >= 4 { ReadsWord32(p.payload, 0); }
    hide Rx.Arrive, Word32, ReadU32;
  }

  /** The events of the `k` numbers from the delivery front of `rx` were added, in order. */
  ghost predicate HandsOut(rx: RxState, d: RxState, k: nat) {
    && |d.events| == |rx.events| + k && rx.events <= d.events
    && forall i :: 0 <= i < k ==>
      && Add(rx.nextOrdered, i) in rx.reorder
      && d.events[|rx.events| + i] == DataOf(rx.reorder[Add(rx.nextOrdered, i)])
  }

  /** Exactly those numbers have left the buffer, and the next one is not in it. */
  ghost predicate Leaves(rx: RxState, d: RxState, k: nat) {
    && d.nextOrdered == Add(rx.nextOrdered, k) && d.nextOrdered !in d.reorder
    && (forall i :: 0 <= i < k ==> Add(rx.nextOrdered, i) !in d.reorder)
    && (forall s :: s in d.reorder ==> s in rx.reorder && d.reorder[s] == rx.reorder[s])
    && (forall s :: s in rx.reorder && s !in d.reorder ==> exists i :: 0 <= i < k && s == Add(rx.nextOrdered, i))
  }

  /** `next` is `rx` after one number was handed out. */
  predicate IsNext(rx: RxState, next: RxState) {
    && rx.nextOrdered in rx.reorder && next.reorder == rx.reorder - {rx.nextOrdered}
    && next.nextOrdered == Add(rx.nextOrdered, 1) && next.events == rx.events + [DataOf(rx.reorder[rx.nextOrdered])]
  }

  lemma HandsOutOneMore(rx: RxState, next: RxState, d: RxState, k: nat)
    requires IsNext(rx, next) && HandsOut(next, d, k)
    ensures HandsOut(rx, d, k + 1)
  {
    hide Add, DataOf;
    AddZero(rx.nextOrdered);
    forall i | 0 <= i < k + 1
      ensures Add(rx.nextOrdered, i) in rx.reorder
      ensures d.events[|rx.events| + i] == DataOf(rx.reorder[Add(rx.nextOrdered, i)])
    {
      if i > 0 {
        AddAdd(rx.nextOrdered, 1, i - 1);
        assert Add(next.nextOrdered, i - 1) in next.reorder;
      } else {
        assert d.events[|rx.events|] == next.events[|rx.events|];
      }
    }
  }

  lemma LeavesOneMore(rx: RxState, next: RxState, d: RxState, k: nat)
    requires IsNext(rx, next) && Leaves(next, d, k)
    ensures Leaves(rx, d, k + 1)
  {
    hide Add, DataOf;
    AddZero(rx.nextOrdered);
    forall i: nat ensures Add(next.nextOrdered, i) == Add(rx.nextOrdered, i + 1) { AddAdd(rx.nextOrdered, 1, i); }
    forall i | 0 <= i < k + 1 ensures Add(rx.nextOrdered, i) !in d.reorder {
      if i > 0 { assert Add(next.nextOrdered, i - 1) !in d.reorder; }
    }
    forall s | s in rx.reorder && s !in d.reorder ensures exists i :: 0 <= i < k + 1 && s == Add(rx.nextOrdered, i) {
      if s != rx.nextOrdered {
        var i :| 0 <= i < k && s == Add(next.nextOrdered, i);
        assert s == Add(rx.nextOrdered, i + 1);
      }
    }
  }

  lemma NothingToHand(rx: RxState)
    requires rx.nextOrdered !in rx.reorder
    ensures HandsOut(rx, rx, 0) && Leaves(rx, rx, 0)
  {
    AddZero(rx.nextOrdered);
    hide Add;
  }

  /** Draining hands out exactly the contiguous run at the delivery front. */
  lemma {:induction false} DrainExactly(rx: RxState) returns (k: nat)
    ensures HandsOut(rx, Rx.Drain(rx), k) && Leaves(rx, Rx.Drain(rx), k)
    decreases |rx.reorder|
  {
    hide HandsOut, Leaves, Add, Inc;
    if rx.nextOrdered in rx.reorder {
      var rest := rx.reorder - {rx.nextOrdered};
      assert rest.Keys == rx.reorder.Keys - {rx.nextOrdered};
      assert |rest| == |rest.Keys| && |rx.reorder| == |rx.reorder.Keys|;
      var e := Rx.DataEvent(rx.reorder[rx.nextOrdered]);
      var next := Rx.Emit(rx, e).(reorder := rest, nextOrdered := Inc(rx.nextOrdered));
      AddZero(rx.nextOrdered);
      AddInc(rx.nextOrdered, 0);
      var j := DrainExactly(next);
      k := j + 1;
      HandsOutOneMore(rx, next, Rx.Drain(next), j);
      LeavesOneMore(rx, next, Rx.Drain(next), j);
    } else {
      k := 0;
      NothingToHand(rx);
    }
  }

  /** An ordered packet is buffered if it is accepted, and then the buffer is drained from the delivery front. */
  lemma DeliversOrdered(rx: RxState, p: Packet)
    requires p.header.channelType == 0
    ensures var r, a := Rx.OnPacket(rx, p, KNone).rx, Rx.Arrive(rx, p.header.seqNo);
      if !a.accepted then r.events == rx.events && r.reorder == rx.reorder
      else r == Rx.Drain(a.rx.(
        reorder := rx.reorder[p.header.seqNo := p],
        nextOrdered := if rx.orderedStarted then rx.nextOrdered else p.header.seqNo, orderedStarted := true))
  {
    ArriveFrame(rx, p.header.seqNo);
    hide Rx.Arrive, Rx.Drain;
  }

  /** A data packet that passes the checks reaches the receiver, on any channel. */
  lemma DataExactly(cfg: Config, s: SessionState, bytes: seq<u8>, now: nat)
    requires Decode(bytes).Some? && Decode(bytes).value.header.flags == 0
    requires !IsStrange(s, Decode(bytes).value.header)
    ensures var s', p := OnDatagram(cfg, s, bytes, now), Decode(bytes).value;
      var rx := s.rx.(events := EventsBefore(s, p.header));
      && s'.rx == Rx.OnPacket(rx, p, KNone).rx
      && (p.header.channelType != 0 ==> Delivers(rx, s'.rx, p, Rx.Arrive(rx, p.header.seqNo).accepted))
  {
    var p := Decode(bytes).value;
    EncodeDecode(bytes);
    ChecksAre(s, p);
    KindIs(p.header);
    hide Decode, Encode, Classify, AfterAck, ConnBefore, EventsBefore, ApplyDecision, Decide, Rx.OnPacket, Delivers;
    var kind, h := Classify(p.header.flags), p.header;
    var a := Admitted(s, p, |bytes|, now);
    var m := AfterAck(cfg, a, kind, h, now);
    AckStage(cfg, s, p, |bytes|, now);
    DecisionStage(s, m, h);
    assert FlagEvents(s, h) == [] && EventsBefore(s, h) + [] == EventsBefore(s, h);
    Life.AfterDecisionConn(cfg, m, p, now);
    if p.header.channelType != 0 { DeliversUnordered(s.rx.(events := EventsBefore(s, h)), p); }
  }
}
