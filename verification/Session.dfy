/**
 * The session as the code has it: an object that owns a sender and a receiver and updates its
 * record stage by stage. Each method is proved to compute the corresponding function of
 * `SessionSpec`, so every theorem about runs of those functions is about runs of this object.
 */
module Session {
  import opened Protocol
  import opened Codec
  import opened SessionTypes
  import opened ConnectionStateMachine
  import opened TxHandler
  import opened RxHandler
  import Tx = TxSpec
  import Rx = RxSpec
  import Spec = SessionSpec

  /** What the bookkeeping makes of the bytes about to be sent. */
  function AfterOutbound(s: SessionState, datagram: seq<u8>, now: nat, retransmission: bool): SessionState {
    match Decode(datagram)
    case None => s
    case Some(p) => Spec.ApplyOutbound(s, p, now, retransmission)
  }

  class Session {
    const role: Role
    const tx: TxSession
    const rx: RxSession
    var connId: u32
    var conn: ConnState
    var establishedSinceMs: nat
    var lastRxMs: nat
    var lastTxMs: nat
    var stats: Stats

    ghost function View(): SessionState
      reads this, tx, rx
    {
      SessionState(role, connId, conn, establishedSinceMs, lastRxMs, lastTxMs, stats, tx.View(), rx.View())
    }

    constructor (r: Role, isn: u32)
      ensures fresh(tx) && fresh(rx)
      ensures View() == InitialSession(r, isn, 0)
    {
      role := r;
      connId, conn := 0, Closed;
      establishedSinceMs, lastRxMs, lastTxMs, stats := 0, 0, 0, NO_STATS;
      tx := new TxSession(isn);
      rx := new RxSession();
    }

    method AssignConnId(id: u32)
      modifies this`connId
      ensures View() == old(View()).(connId := id)
    {
      connId := id;
    }

    method QueueSend(request: SendRequest)
      modifies tx
      ensures View() == Spec.QueueSend(old(View()), request)
    {
      tx.QueueAppData(request);
    }

    method RequestClose()
      modifies this`conn, tx
      ensures View() == Spec.RequestClose(old(View()))
    {
      if conn == Established {
        conn := Closing;
        tx.flags := tx.flags.(finPending := true);
      }
    }

    method DrainEvents() returns (drained: seq<Event>)
      modifies rx
      ensures View() == Spec.DrainEvents(old(View())) && drained == old(rx.events)
    {
      drained := rx.DrainEvents();
    }

    // ----- sending -----

    /** Arms at most one of the pending acknowledgement and the probe. */
    method SchedulePendingTxWork(cfg: Config, now: nat)
      modifies tx`flags
      ensures View() == Spec.WithFlags(old(View()), Spec.ScheduledFlags(cfg, old(View()), now))
    {
      var f := tx.flags;
      var laneFree := conn == Established && !f.ackOnlyPending && !f.probe.pingPending && !f.probe.pongPending;
      if laneFree && f.reliableAckPending && now >= f.reliableAckDueMs {
        tx.flags := f.(ackOnlyPending := true, reliableAckPending := false);
        return;
      }
      if cfg.activityAckOnly && laneFree && f.activityAckPending && now >= lastTxMs + cfg.keepaliveIdle {
        tx.flags := f.(ackOnlyPending := true);
        return;
      }
      var baseline := if f.probe.lastSentMs != 0 then f.probe.lastSentMs else establishedSinceMs;
      if && role == Client && conn == Established
         && !f.probe.pingOutstanding && !f.probe.pingPending && !f.probe.pongPending
         && now >= baseline + cfg.keepaliveIdle
      {
        tx.flags := f.(probe := f.probe.(pingPending := true));
      }
    }

    method UpdateOutboundProbeState(kind: ControlKind, now: nat)
      modifies tx`flags
      ensures tx.flags == if kind != KPing then old(tx.flags) else old(tx.flags).(
        probe := old(tx.flags.probe).(pingOutstanding := true, lastSentMs := now, lastPingSentMs := now))
    {
      if kind != KPing {
        return;
      }
      tx.flags := tx.flags.(
        probe := tx.flags.probe.(pingOutstanding := true, lastSentMs := now, lastPingSentMs := now));
    }

    method RecordOutboundStats(kind: ControlKind, size: nat, now: nat, retransmission: bool)
      modifies this`lastTxMs, this`stats
      ensures lastTxMs == now && stats == Spec.SentStats(old(stats), kind, size, retransmission)
    {
      lastTxMs := now;
      stats := stats.(packetsSent := stats.packetsSent + 1, bytesSent := stats.bytesSent + size);
      if kind != KNone {
        stats := stats.(controlSent := stats.controlSent + 1);
      } else {
        stats := stats.(dataSent := stats.dataSent + 1);
      }
      if kind == KPing {
        stats := stats.(pingsSent := stats.pingsSent + 1);
      } else if kind == KPong {
        stats := stats.(pongsSent := stats.pongsSent + 1);
      }
      if retransmission {
        stats := stats.(retransmissionsSent := stats.retransmissionsSent + 1);
      }
    }

    method ClearOutboundAckState(kind: ControlKind)
      modifies tx`flags
      ensures tx.flags == old(tx.flags).(
        activityAckPending := false, reliableAckPending := old(tx.flags).reliableAckPending && kind != KAck)
    {
      tx.flags := tx.flags.(activityAckPending := false);
      if kind == KAck {
        tx.flags := tx.flags.(reliableAckPending := false);
      }
    }

    /** Reads the datagram back and books it. */
    method ApplyOutboundResult(datagram: seq<u8>, now: nat, retransmission: bool)
      modifies this`lastTxMs, this`stats, tx`flags
      ensures View() == AfterOutbound(old(View()), datagram, now, retransmission)
    {
      var decoded := Decode(datagram);
      if decoded.None? {
        return;
      }
      DecodedSize(datagram);
      hide Decode, Classify, Spec.SentStats;
      var kind := Classify(decoded.value.header.flags);
      UpdateOutboundProbeState(kind, now);
      RecordOutboundStats(kind, |datagram|, now, retransmission);
      ClearOutboundAckState(kind);
    }

    method PollTx(cfg: Config, now: nat) returns (datagram: Option<seq<u8>>)
      modifies this, tx, rx
      ensures var r := Spec.PollTx(cfg, old(View()), now);
        View() == r.session && datagram == Tx.Datagram(r.outcome)
    {
      if conn == Established && now >= lastRxMs + cfg.idleTimeout {
        conn := Reset;
        rx.Emit(Event(Error, 0, 0, UNRELIABLE, [], IdleTimeout));
        return None;
      }
      ghost var s0 := View();
      ghost var r := Spec.TxPoll(cfg, s0, now);
      OutboundBooks(s0.(tx := r.tx, conn := r.conn), r.outcome, now);
      hide Tx.Poll, Spec.ScheduledFlags, Spec.ApplyOutbound, AfterOutbound, Encode;
      SchedulePendingTxWork(cfg, now);
      var af := Tx.AckFields(rx.nextExpected, rx.receivedBits);
      var result;
      result, conn := tx.Poll(cfg, now, role, connId, conn, af);
      if result.fatalError {
        conn := Reset;
        rx.Emit(Event(Error, 0, 0, UNRELIABLE, [], RetryLimit));
        return None;
      }
      if result.datagram.Some? {
        ApplyOutboundResult(result.datagram.value, now, result.retransmission);
      }
      datagram := result.datagram;
    }

    // ----- receiving -----

    method RecordReceivedStats(kind: ControlKind, size: nat, now: nat)
      modifies this`lastRxMs, this`stats
      ensures View() == Spec.RecordReceived(old(View()), kind, size, now)
    {
      lastRxMs := now;
      stats := stats.(packetsReceived := stats.packetsReceived + 1, bytesReceived := stats.bytesReceived + size);
      if kind != KNone {
        stats := stats.(controlReceived := stats.controlReceived + 1);
      } else {
        stats := stats.(dataReceived := stats.dataReceived + 1);
      }
      if kind == KPing {
        stats := stats.(pingsReceived := stats.pingsReceived + 1);
      } else if kind == KPong {
        stats := stats.(pongsReceived := stats.pongsReceived + 1);
      }
    }

    method HandleProbeReceive(kind: ControlKind, now: nat)
      modifies this`stats, tx`flags
      ensures View() == Spec.ProbeReceived(old(View()), kind, now)
    {
      var probe := tx.flags.probe;
      if kind == KPing && conn == Established {
        tx.flags := tx.flags.(probe := probe.(pongPending := true));
        return;
      }
      if kind == KPong && probe.pingOutstanding {
        tx.flags := tx.flags.(probe := probe.(pingOutstanding := false));
        var rtt := Spec.Elapsed(now, probe.lastPingSentMs);
        stats := stats.(latestRtt := Some(rtt), rttCount := stats.rttCount + 1, rttSum := stats.rttSum + rtt);
        if stats.minRtt.None? || rtt < stats.minRtt.value {
          stats := stats.(minRtt := Some(rtt));
        }
        if stats.maxRtt.None? || rtt > stats.maxRtt.value {
          stats := stats.(maxRtt := Some(rtt));
        }
      }
    }

    method ApplyConnectionDecision(h: Header, d: Decision)
      modifies this`conn, this`establishedSinceMs, tx`flags, rx`events
      ensures View() == Spec.ApplyDecision(old(View()), h, d)
    {
      if !d.valid {
        rx.Emit(Spec.ControlEvent(Error, h, d.reason));
        return;
      }
      if d.next.Some? {
        if conn != Established && d.next.value == Established {
          establishedSinceMs := lastRxMs;
        }
        conn := d.next.value;
      }
      hide Spec.DecisionFlags, Spec.DecisionEvents;
      ScheduleDecision(d);
      EmitConnectionDecisionEvents(h, d);
    }

    method ScheduleDecision(d: Decision)
      modifies tx`flags
      ensures tx.flags == Spec.DecisionFlags(old(tx.flags), d)
    {
      if d.scheduleSynAck {
        tx.flags := tx.flags.(synAckPending := true);
      }
      if d.scheduleFinalAck {
        tx.flags := tx.flags.(finalAckPending := true);
      }
      if d.scheduleAckOnly {
        tx.flags := tx.flags.(ackOnlyPending := true);
      }
    }

    method EmitConnectionDecisionEvents(h: Header, d: Decision)
      modifies rx`events
      ensures rx.events == old(rx.events) + Spec.DecisionEvents(d, h)
    {
      if d.emitConnected {
        rx.Emit(Spec.ControlEvent(Connected, h, NoError));
      }
      if d.emitClosed {
        rx.Emit(Spec.ControlEvent(ConnectionClosed, h, NoError));
      }
      if d.emitReset {
        rx.Emit(Spec.ControlEvent(ConnectionReset, h, NoError));
      }
    }

    /** Probe and acknowledgement processing, and closing on an acknowledged FIN. */
    method ProcessAcknowledgement(cfg: Config, kind: ControlKind, h: Header, now: nat)
      modifies this, tx, rx
      ensures View() == Spec.AfterAck(cfg, old(View()), kind, h, now)
    {
      hide Spec.ProbeReceived, Tx.OnRemoteAck, Tx.FinAcked;
      HandleProbeReceive(kind, now);
      if kind == KSyn {
        return;
      }
      var acknowledgedFin := tx.OnRemoteAck(cfg, h.ack, h.ackBits);
      if acknowledgedFin && conn == Closing {
        conn := Closed;
        rx.Emit(Spec.ControlEvent(ConnectionClosed, h, NoError));
      }
    }

    /** The connection decision, the receiver, and the acknowledgements they call for. */
    method ProcessPacket(cfg: Config, p: Packet, kind: ControlKind, now: nat)
      requires kind == Classify(p.header.flags)
      modifies this, tx, rx
      ensures View() == Spec.AfterDecision(cfg, old(View()), p, now)
    {
      hide Classify, Decide, Spec.ApplyDecision, Rx.OnPacket, Spec.ReceiveFlags;
      ApplyConnectionDecision(p.header, Decide(role, conn, kind));
      var scheduleAck := rx.OnPacket(p, kind);
      ghost var received := View();
      ScheduleReceiveSideAck(cfg, p.header, kind, scheduleAck, now);
      SameReceiveFlags(cfg, received, old(View()), p, now);
    }

    method UpdatePostReceiveLiveness(kind: ControlKind)
      modifies tx`flags
      ensures tx.flags == if kind == KNone && conn == Established
                          then old(tx.flags).(activityAckPending := true) else old(tx.flags)
    {
      if kind == KNone && conn == Established {
        tx.flags := tx.flags.(activityAckPending := true);
      }
    }

    /** Notes the activity, and schedules the acknowledgement that the receiver asked for. */
    method ScheduleReceiveSideAck(cfg: Config, h: Header, kind: ControlKind, scheduleAck: bool, now: nat)
      modifies tx`flags
      ensures tx.flags == Spec.ReceiveFlags(cfg, old(View()), h, kind, scheduleAck, now)
    {
      UpdatePostReceiveLiveness(kind);
      if !scheduleAck {
        return;
      }
      if kind == KNone && IsReliableChannel(h.channelType) {
        tx.flags := tx.flags.(reliableAckPending := true, reliableAckDueMs := now + cfg.reliableAckDelay);
        return;
      }
      tx.flags := tx.flags.(ackOnlyPending := true);
    }

    method OnDatagramReceived(cfg: Config, bytes: seq<u8>, now: nat)
      modifies this, tx, rx
      ensures View() == Spec.OnDatagram(cfg, old(View()), bytes, now)
    {
      var decoded := Decode(bytes);
      if decoded.None? {
        return;
      }
      hide Decode, Classify, Spec.RecordReceived, Spec.AfterAck, Spec.AfterDecision;
      var p := decoded.value;
      var h := p.header;
      var kind := Classify(h.flags);
      RecordReceivedStats(kind, |bytes|, now);
      if role == Client && kind == KSynAck && connId == 0 && h.connId != 0 {
        connId := h.connId;
      }
      var bootstrap := role == Server && conn == Closed && h.connId == 0;
      if connId != 0 && kind != KSyn && !bootstrap && h.connId != connId {
        conn := Reset;
        rx.Emit(Event(Error, 0, 0, UNRELIABLE, [], ConnIdMismatch));
        return;
      }
      if role == Client && conn == Established && kind == KSynAck {
        if now <= tx.flags.finalAckLingerUntilMs {
          tx.flags := tx.flags.(finalAckPending := true);
        }
        return;
      }
      ProcessAcknowledgement(cfg, kind, h, now);
      ProcessPacket(cfg, p, kind, now);
    }
  }

  /** The receiver has no say in how the acknowledgement flags are computed. */
  lemma SameReceiveFlags(cfg: Config, s: SessionState, s0: SessionState, p: Packet, now: nat)
    ensures var kind := Classify(p.header.flags);
      var decided := Spec.ApplyDecision(s0, p.header, Decide(s0.role, s0.conn, kind));
      var r := Rx.OnPacket(decided.rx, p, kind);
      s == decided.(rx := r.rx) ==>
        Spec.ReceiveFlags(cfg, s, p.header, kind, r.scheduleAck, now) ==
        Spec.ReceiveFlags(cfg, decided, p.header, kind, r.scheduleAck, now)
  {
  }

  lemma DecodedSize(bytes: seq<u8>)
    ensures Decode(bytes).Some? ==>
      var p := Decode(bytes).value; IsValidHeader(p.header) && |bytes| == 28 + |p.payload|
  {
  }

  /** Booking the bytes of a packet is booking the packet. */
  lemma OutboundBooks(s: SessionState, o: Tx.Outcome, now: nat)
    ensures o.Sent? ==>
      AfterOutbound(s, Encode(o.packet), now, o.lane == Tx.Retransmit) ==
      Spec.ApplyOutbound(s, o.packet, now, o.lane == Tx.Retransmit)
  {
  }
}
