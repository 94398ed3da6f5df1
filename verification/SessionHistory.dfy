/**
 * What can be observed of one session over a whole run: the datagrams it emitted, the connection
 * states it went through, and the events it handed out, related to its counters, its probe
 * bookkeeping and the log of its sender.
 */
module SessionHistory {
  import opened Protocol
  import opened Codec
  import opened SessionTypes
  import opened ConnectionStateMachine
  import opened SessionSpec
  import opened SessionRuns
  import opened Counting
  import Tx = TxSpec
  import Rx = RxSpec
  import Sender = TxRuns

  datatype Emission = Emission(bytes: seq<u8>, retransmission: bool)

  datatype History = History(
    session: SessionState, log: Sender.TxLog, trace: seq<ConnState>, emitted: seq<Emission>, drained: seq<Event>)
  {
    ghost function Sending(): Sender.TxRun { Sender.TxRun(session.tx, log) }
    /** Every event ever emitted, drained or still queued. */
    ghost function Events(): seq<Event> { drained + session.rx.events }
  }

  function Visit(trace: seq<ConnState>, c: ConnState): seq<ConnState> {
    if trace != [] && trace[|trace| - 1] == c then trace else trace + [c]
  }

  /** The state between the acknowledgement stage and the connection decision. */
  function MidConn(cfg: Config, s: SessionState, a: Action): ConnState {
    match a
    case PollAt(now) => if ShouldTimeout(cfg, s, now) then s.conn else TxPoll(cfg, s, now).conn
    case Receive(bytes, now) =>
      (match Decode(bytes)
       case None => s.conn
       case Some(p) =>
         if IsProcessed(s, p)
         then AfterAck(cfg, Admitted(s, p, |bytes|, now), Classify(p.header.flags), p.header, now).conn
         else s.conn)
    case _ => s.conn
  }

  function EmissionsOf(cfg: Config, s: SessionState, a: Action): seq<Emission> {
    if !a.PollAt? then []
    else
      var o := PollTx(cfg, s, a.now).outcome;
      if o.Sent? then [Emission(Encode(o.packet), o.lane == Tx.Retransmit)] else []
  }

  ghost function Advance(cfg: Config, h: History, a: Action): History {
    var s' := Step(cfg, h.session, a);
    History(s',
            LogOf(cfg, h.session.tx, h.log, TxTrace(cfg, h.session, a)),
            Visit(Visit(h.trace, MidConn(cfg, h.session, a)), s'.conn),
            h.emitted + EmissionsOf(cfg, h.session, a),
            if a.DrainAll? then h.drained + h.session.rx.events else h.drained)
  }

  function Start(role: Role, isn: u32, connId: u32): History {
    History(InitialSession(role, isn, connId), Sender.InitialRun(isn).log, [Closed], [], [])
  }

  ghost function Run(cfg: Config, h: History, actions: seq<Action>): History
    decreases |actions|
  {
    if actions == [] then h
    else Advance(cfg, Run(cfg, h, actions[..|actions| - 1]), actions[|actions| - 1])
  }

  // ----- the sender of a session run -----

  lemma SenderKeeps(cfg: Config, h: History, a: Action)
    requires Sender.Inv(cfg, h.Sending())
    ensures Sender.Inv(cfg, Advance(cfg, h, a).Sending())
  {
    hide Sender.Inv, Step, TxTrace;
    var trace := TxTrace(cfg, h.session, a);
    StepIsTxRun(cfg, h.session, h.log, a);
    Sender.RunKeeps(cfg, h.Sending(), trace);
    var after := Sender.Run(cfg, h.Sending(), trace);
    assert Advance(cfg, h, a).Sending() == after;
  }

  // ----- outbound datagrams -----

  /** Everything about the packet of a poll that holds whatever lane it came from. */
  lemma PolledPacket(cfg: Config, h: History, now: nat)
    requires Sender.Inv(cfg, h.Sending())
    ensures var o := PollTx(cfg, h.session, now).outcome;
      o.Sent? ==>
        && IsValidHeader(o.packet.header)
        && o.packet.header.ack == h.session.rx.nextExpected
        && o.packet.header.ackBits == h.session.rx.receivedBits
        && (o.lane == Tx.Retransmit ==> o.packet.header.flags in {0, SYN, SYN_ACK, FIN})
        && (o.lane == Tx.Fresh ==> o.packet.header.flags == 0)
        && (o.lane == Tx.Control ==> o.packet.header.flags in {SYN, SYN_ACK, ACK, FIN})
        && (o.lane == Tx.AckOnly ==> o.packet.header.flags == ACK)
        && (o.lane == Tx.ProbeLane ==> o.packet.header.flags in {PING, PONG})
  {
    var s := h.session;
    var tx := s.tx.(flags := ScheduledFlags(cfg, s, now));
    var af := AckFieldsOf(s.rx);
    hide Tx.Poll, ScheduledFlags;
    Sender.PollCases(cfg, tx, now, s.role, s.connId, s.conn, af);
    var o := PollTx(cfg, s, now).outcome;
    if o.Sent? && o.lane == Tx.Retransmit {
      var k := Sender.FirstDue(cfg, tx, now);
      var e := s.tx.inflight[k];
      assert Sender.Content(e.packet) in h.log.issued;
      assert Sender.Wellformed(Sender.Content(e.packet));
    }
  }

  /**
   * Outbound truth: what a poll returns decodes, to a packet whose acknowledgement fields are the
   * receive state of that moment.
   */
  lemma OutboundTruth(cfg: Config, h: History, now: nat)
    requires Sender.Inv(cfg, h.Sending())
    ensures var d := Tx.Datagram(PollTx(cfg, h.session, now).outcome);
      d.Some? ==>
        && Decode(d.value).Some?
        && Decode(d.value).value.header.ack == h.session.rx.nextExpected
        && Decode(d.value).value.header.ackBits == h.session.rx.receivedBits
  {
    hide PollTx, Decode, Encode;
    PolledPacket(cfg, h, now);
    var o := PollTx(cfg, h.session, now).outcome;
    if o.Sent? { DecodeEncode(o.packet); }
  }

  function KindOf(e: Emission): ControlKind {
    match Decode(e.bytes)
    case None => KInvalid
    case Some(p) => Classify(p.header.flags)
  }

  predicate IsData(e: Emission) { KindOf(e) == KNone }
  predicate IsControl(e: Emission) { KindOf(e) != KNone }
  predicate IsPing(e: Emission) { KindOf(e) == KPing }
  predicate IsPong(e: Emission) { KindOf(e) == KPong }
  predicate IsRetransmission(e: Emission) { e.retransmission }

  function TotalBytes(es: seq<Emission>): nat {
    if es == [] then 0 else TotalBytes(es[..|es| - 1]) + |es[|es| - 1].bytes|
  }

  /** The send counters are exactly the tallies of what was emitted. */
  ghost predicate Counted(st: Stats, es: seq<Emission>) {
    && st.packetsSent == |es| && st.bytesSent == TotalBytes(es)
    && st.controlSent == CountIf(es, IsControl) && st.dataSent == CountIf(es, IsData)
    && st.pingsSent == CountIf(es, IsPing) && st.pongsSent == CountIf(es, IsPong)
    && st.retransmissionsSent == CountIf(es, IsRetransmission)
  }

  /** The same send counters. */
  predicate SameSent(a: Stats, b: Stats) {
    && a.packetsSent == b.packetsSent && a.bytesSent == b.bytesSent && a.controlSent == b.controlSent
    && a.dataSent == b.dataSent && a.pingsSent == b.pingsSent && a.pongsSent == b.pongsSent
    && a.retransmissionsSent == b.retransmissionsSent
  }

  lemma KindOfPacket(p: Packet, retransmission: bool)
    requires IsValidHeader(p.header)
    ensures KindOf(Emission(Encode(p), retransmission)) == Classify(p.header.flags)
  {
  }

  lemma EmissionCounted(st: Stats, es: seq<Emission>, p: Packet, retransmission: bool)
    requires Counted(st, es) && IsValidHeader(p.header)
    ensures Counted(SentStats(st, Classify(p.header.flags), 28 + |p.payload|, retransmission),
                    es + [Emission(Encode(p), retransmission)])
  {
    hide Decode, Encode, Classify, KindOf, CountIf, IsValidHeader;
    var e := Emission(Encode(p), retransmission);
    KindOfPacket(p, retransmission);
    CountSnoc(es, e, IsControl);
    CountSnoc(es, e, IsData);
    CountSnoc(es, e, IsPing);
    CountSnoc(es, e, IsPong);
    CountSnoc(es, e, IsRetransmission);
    assert (es + [e])[..|es|] == es;
    assert TotalBytes(es + [e]) == TotalBytes(es) + 28 + |p.payload|;
  }

  lemma AfterAckFlags(cfg: Config, s: SessionState, kind: ControlKind, h: Header, now: nat)
    ensures var m, q := AfterAck(cfg, s, kind, h, now), ProbeReceived(s, kind, now);
      m.stats == q.stats && m.tx.flags == q.tx.flags
  {
  }

  lemma AfterDecisionFlags(cfg: Config, s: SessionState, p: Packet, now: nat)
    ensures var s', kind := AfterDecision(cfg, s, p, now), Classify(p.header.flags);
      var f, f' := s.tx.flags, s'.tx.flags;
      && s'.stats == s.stats && f'.probe == f.probe && f'.finPending == f.finPending
      && (f'.ackOnlyPending ==>
            f.ackOnlyPending || kind == KFin || (kind != KNone && IsReliableChannel(p.header.channelType)))
  {
    hide Classify, Rx.Deliver, Rx.Arrive, DecisionEvents;
    var kind := Classify(p.header.flags);
    assert Decide(s.role, s.conn, kind).scheduleAckOnly ==> kind == KFin;
    hide Decide;
    var decided := ApplyDecision(s, p.header, Decide(s.role, s.conn, kind));
    assert decided.stats == s.stats && decided.tx.flags.probe == s.tx.flags.probe;
  }

  /** No sample, or one sample of `rtt` that ends the outstanding PING. */
  predicate SampledOnce(s: SessionState, s': SessionState, rtt: nat) {
    var st, st', probe, probe' := s.stats, s'.stats, s.tx.flags.probe, s'.tx.flags.probe;
    if probe'.pingOutstanding == probe.pingOutstanding then SameRtt(st, st')
    else !probe'.pingOutstanding && st'.rttCount == st.rttCount + 1 && Sampled(st, st', rtt)
  }

  predicate SameRtt(a: Stats, b: Stats) {
    a.rttCount == b.rttCount && a.rttSum == b.rttSum && a.minRtt == b.minRtt && a.maxRtt == b.maxRtt
  }

  lemma AdmittedEffect(s: SessionState, p: Packet, size: nat, now: nat)
    ensures var a := Admitted(s, p, size, now); a.tx == s.tx && SameSent(a.stats, s.stats) && SameRtt(s.stats, a.stats)
  {
    hide Classify;
  }

  lemma ProbeEffect(s: SessionState, kind: ControlKind, now: nat)
    ensures var s', probe := ProbeReceived(s, kind, now), s.tx.flags.probe;
      && SameSent(s'.stats, s.stats) && s'.tx.flags.probe.pingPending == probe.pingPending
      && SampledOnce(s, s', Elapsed(now, probe.lastPingSentMs))
  {
    hide Elapsed;
  }

  /** Receiving does not touch the send counters; a PONG that answers a PING adds one sample. */
  lemma ReceiveStats(cfg: Config, s: SessionState, p: Packet, size: nat, now: nat)
    ensures var s', probe := OnPacket(cfg, s, p, size, now), s.tx.flags.probe;
      && SameSent(s'.stats, s.stats) && s'.tx.flags.probe.pingPending == probe.pingPending
      && SampledOnce(s, s', Elapsed(now, probe.lastPingSentMs))
  {
    hide AfterAck, AfterDecision, Classify, Elapsed, ProbeReceived, Admitted, HasConnIdMismatch;
    var kind := Classify(p.header.flags);
    var a := Admitted(s, p, size, now);
    AdmittedEffect(s, p, size, now);
    AfterAckFlags(cfg, a, kind, p.header, now);
    AfterDecisionFlags(cfg, AfterAck(cfg, a, kind, p.header, now), p, now);
    ProbeEffect(a, kind, now);
  }

  predicate Sampled(st: Stats, st': Stats, rtt: nat) {
    && st'.latestRtt == Some(rtt) && st'.rttSum == st.rttSum + rtt
    && st'.minRtt == (if st.minRtt.None? || rtt < st.minRtt.value then Some(rtt) else st.minRtt)
    && st'.maxRtt == (if st.maxRtt.None? || rtt > st.maxRtt.value then Some(rtt) else st.maxRtt)
  }

  // ----- probes -----

  ghost predicate RttBounds(st: Stats) {
    if st.rttCount == 0 then st.rttSum == 0 && st.minRtt.None? && st.maxRtt.None?
    else
      && st.minRtt.Some? && st.maxRtt.Some?
      && st.minRtt.value * st.rttCount <= st.rttSum <= st.maxRtt.value * st.rttCount
  }

  ghost predicate ProbesAccounted(s: SessionState) {
    var probe := s.tx.flags.probe;
    && s.stats.pingsSent == s.stats.rttCount + Count(probe.pingOutstanding)
    && !(probe.pingPending && probe.pingOutstanding)
    && RttBounds(s.stats)
  }

  lemma Scaled(a: nat, b: nat, n: nat)
    requires a <= b
    ensures a * n <= b * n && a * (n + 1) == a * n + a && b * (n + 1) == b * n + b
  {
  }

  lemma SampleBounds(st: Stats, st': Stats, rtt: nat)
    requires RttBounds(st) && Sampled(st, st', rtt) && st'.rttCount == st.rttCount + 1
    ensures RttBounds(st')
  {
    if st.rttCount > 0 {
      var n := st.rttCount;
      var lo, lo' := st.minRtt.value, st'.minRtt.value;
      var hi, hi' := st.maxRtt.value, st'.maxRtt.value;
      Scaled(lo', lo, n);
      Scaled(hi, hi', n);
      Scaled(lo', lo', n);
    } else {
      assert st'.minRtt == Some(rtt) && st'.maxRtt == Some(rtt);
    }
  }

  lemma ReceiveProbes(cfg: Config, s: SessionState, p: Packet, size: nat, now: nat)
    requires ProbesAccounted(s)
    ensures ProbesAccounted(OnPacket(cfg, s, p, size, now))
  {
    hide OnPacket;
    ReceiveStats(cfg, s, p, size, now);
    var s' := OnPacket(cfg, s, p, size, now);
    if s'.tx.flags.probe.pingOutstanding != s.tx.flags.probe.pingOutstanding {
      SampleBounds(s.stats, s'.stats, Elapsed(now, s.tx.flags.probe.lastPingSentMs));
    }
  }

  /** What one poll does to statistics and probe state. */
  lemma PollEffect(cfg: Config, h: History, now: nat)
    requires Sender.Inv(cfg, h.Sending())
    ensures var r := PollTx(cfg, h.session, now);
      var s, s' := h.session, r.session;
      var ping := r.outcome.Sent? && Classify(r.outcome.packet.header.flags) == KPing;
      && s'.stats == (if r.outcome.Sent?
           then SentStats(s.stats, Classify(r.outcome.packet.header.flags), 28 + |r.outcome.packet.payload|,
                          r.outcome.lane == Tx.Retransmit)
           else s.stats)
      && s'.tx.flags.probe.pingOutstanding == (s.tx.flags.probe.pingOutstanding || ping)
      && (ping ==> !s'.tx.flags.probe.pingPending)
      && (ping ==> s.tx.flags.probe.pingPending || !s.tx.flags.probe.pingOutstanding)
      && (!ping && s'.tx.flags.probe.pingPending ==> s.tx.flags.probe.pingPending || !s.tx.flags.probe.pingOutstanding)
  {
    PolledPacket(cfg, h, now);
    var s := h.session;
    var tx := s.tx.(flags := ScheduledFlags(cfg, s, now));
    Sender.PollLane(cfg, tx, now, s.role, s.connId, s.conn, AckFieldsOf(s.rx));
    var o := PollTx(cfg, s, now).outcome;
    if o.Sent? { ClassifyValues(o.packet.header.flags); }
    hide Tx.Poll, Classify;
  }

  lemma PollProbes(cfg: Config, h: History, now: nat)
    requires Sender.Inv(cfg, h.Sending()) && ProbesAccounted(h.session)
    ensures ProbesAccounted(PollTx(cfg, h.session, now).session)
  {
    hide PollTx, Classify;
    PollEffect(cfg, h, now);
  }
}
