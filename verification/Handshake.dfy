/**
 * The three-way handshake between two sessions over the non-forging network of `EndToEnd`:
 * agreement on the connection id, the causal order of the two Connected events, and the absence
 * of connection-id resets as long as the client queues nothing before it is connected.
 */
module Handshake {
  import opened Protocol
  import opened Codec
  import opened SessionTypes
  import opened ConnectionStateMachine
  import opened SessionSpec
  import opened SessionRuns
  import opened SessionHistory
  import opened EndToEnd
  import Life = SessionLifecycle
  import Tx = TxSpec
  import Rx = RxSpec
  import Sender = TxRuns

  /** The session has been Established at some point; equivalently, it has emitted Connected. */
  predicate Ever(h: History) { Established in h.trace }

  predicate AcceptedSyn(h: History) { HandshakeReceived in h.trace }

  // ----- one side, in any environment -----

  /** What a packet tells about the past of the side that sent it. */
  predicate Origin(h: History, p: Packet) {
    && (p.header.flags == FIN ==> Ever(h))
    && (p.header.flags == SYN_ACK ==> AcceptedSyn(h))
    && (p.header.flags != 0 ==> p.header.channelType == UNRELIABLE)
  }

  ghost predicate Local(h: History) {
    && Life.TraceOk(h.session.role, h.trace) && Life.Last(h.trace) == h.session.conn
    && (h.session.tx.flags.finPending ==> Ever(h))
    && (h.session.tx.flags.probe.pingPending || h.session.tx.flags.probe.pongPending ==> Ever(h))
    && (forall p :: p in h.log.issued ==> Origin(h, p))
    && (forall e :: e in h.emitted ==> Decode(e.bytes).Some? && Origin(h, Decode(e.bytes).value))
  }

  lemma TraceGrows(cfg: Config, h: History, a: Action)
    ensures forall c :: c in h.trace ==> c in Advance(cfg, h, a).trace
    ensures Step(cfg, h.session, a).conn in Advance(cfg, h, a).trace
  {
    hide Step, TxTrace, MidConn, EmissionsOf;
  }

  /** Flags a poll leaves behind were there before, or the session is Established. */
  predicate FlagsFrom(s: SessionState, s': SessionState) {
    var f, f' := s.tx.flags, s'.tx.flags;
    && (f'.finPending ==> f.finPending)
    && (f'.ackOnlyPending ==> f.ackOnlyPending || s.conn == Established)
    && (f'.probe.pingPending ==> f.probe.pingPending || s.conn == Established)
    && (f'.probe.pongPending ==> f.probe.pongPending)
  }

  /** Why a packet that is not a retransmission was sent. */
  predicate Reason(s: SessionState, p: Packet) {
    var f, flags := s.tx.flags, p.header.flags;
    && p.header.connId == s.connId
    && (flags == SYN ==> s.role == Client)
    && (flags == SYN_ACK ==> s.conn == HandshakeReceived)
    && (flags == ACK ==> s.conn == Established || f.ackOnlyPending)
    && (flags == FIN ==> f.finPending)
    && (flags in {PING, PONG} ==> f.probe.pingPending || f.probe.pongPending || s.conn == Established)
    && (flags == 0 ==> s.tx.pendingSend != [])
    && (flags != 0 ==> p.header.channelType == UNRELIABLE)
    && flags in {0, SYN, SYN_ACK, ACK, FIN, PING, PONG}
  }

  ghost function PolledLog(cfg: Config, h: History, now: nat): Sender.TxLog {
    LogOf(cfg, h.session.tx, h.log, PollTrace(cfg, h.session, now))
  }

  lemma ScheduledFrom(cfg: Config, s: SessionState, now: nat)
    ensures var f, f' := s.tx.flags, ScheduledFlags(cfg, s, now);
      && f'.synAckPending == f.synAckPending && f'.finPending == f.finPending
      && (f'.ackOnlyPending ==> f.ackOnlyPending || s.conn == Established)
      && (f'.probe.pingPending ==> f.probe.pingPending || s.conn == Established)
      && f'.probe.pongPending == f.probe.pongPending
  {
  }

  lemma PollFlagsFrom(cfg: Config, s: SessionState, now: nat)
    ensures FlagsFrom(s, PollTx(cfg, s, now).session)
  {
    hide Tx.Poll, Classify, ScheduledFlags, IsValidHeader, ShouldTimeout, SentStats;
    var tx, af := s.tx.(flags := ScheduledFlags(cfg, s, now)), AckFieldsOf(s.rx);
    ScheduledFrom(cfg, s, now);
    Sender.PollLane(cfg, tx, now, s.role, s.connId, s.conn, af);
  }

  lemma PollQueue(cfg: Config, s: SessionState, now: nat)
    ensures PollTx(cfg, s, now).session.tx.pendingSend != [] ==> s.tx.pendingSend != []
  {
    var tx, af := s.tx.(flags := ScheduledFlags(cfg, s, now)), AckFieldsOf(s.rx);
    Sender.PollCases(cfg, tx, now, s.role, s.connId, s.conn, af);
    hide Tx.Poll, Classify, ScheduledFlags, IsValidHeader, ShouldTimeout, Tx.IsNumbered;
  }

  lemma PollReason(cfg: Config, h: History, now: nat)
    requires Sender.Inv(cfg, h.Sending())
    ensures var o := PollTx(cfg, h.session, now).outcome;
      o.Sent? ==>
        && IsValidHeader(o.packet.header)
        && if o.lane == Tx.Retransmit then Sender.Content(o.packet) in h.log.issued
           else Reason(h.session, o.packet)
  {
    var s := h.session;
    var tx, af := s.tx.(flags := ScheduledFlags(cfg, s, now)), AckFieldsOf(s.rx);
    ScheduledFrom(cfg, s, now);
    PolledPacket(cfg, h, now);
    Sender.PollCases(cfg, tx, now, s.role, s.connId, s.conn, af);
    Sender.PollLane(cfg, tx, now, s.role, s.connId, s.conn, af);
    hide Tx.Poll, Classify, ScheduledFlags, ShouldTimeout, Tx.IsNumbered, AfterPoll;
    var o := PollTx(cfg, s, now).outcome;
    if o.Sent? && o.lane == Tx.Retransmit {
      ResentIsIssued(cfg, h, tx, o.packet, now, af);
    }
  }

  lemma ResentIsIssued(cfg: Config, h: History, tx: TxState, p: Packet, now: nat, af: Tx.AckFields)
    requires Sender.EntriesLogged(h.Sending()) && tx.inflight == h.session.tx.inflight
    requires exists tx', s :: Sender.ResendsFirst(cfg, tx, tx', p, now, af, s)
    ensures Sender.Content(p) in h.log.issued
  {
  }

  /** The log grows by the packet of the poll, if at all. */
  lemma PollIssues(cfg: Config, h: History, now: nat)
    ensures var o := PollTx(cfg, h.session, now).outcome;
      forall p :: p in PolledLog(cfg, h, now).issued ==>
        p in h.log.issued || (o.Sent? && o.lane != Tx.Retransmit && p == Sender.Content(o.packet))
  {
    var s := h.session;
    if !ShouldTimeout(cfg, s, now) {
      var t := PollTrace(cfg, s, now);
      RunThree(cfg, h.Sending(), t[0], t[1], t[2]);
      hide Tx.Poll, ScheduledFlags, AfterPoll, Classify, Tx.IsNumbered;
    }
  }

  lemma ReceiveIssues(cfg: Config, h: History, p: Packet, size: nat, now: nat)
    ensures LogOf(cfg, h.session.tx, h.log, ReceiveTrace(cfg, h.session, p, size, now)).issued == h.log.issued
  {
    var run, f := h.Sending(), Sender.SetFlags(OnPacket(cfg, h.session, p, size, now).tx.flags);
    hide OnPacket, IsProcessed, Classify;
    RunOne(cfg, run, f);
    RunTwo(cfg, run, Sender.RemoteAck(p.header.ack, p.header.ackBits), f);
  }

  lemma StepIssues(cfg: Config, h: History, a: Action)
    requires !a.PollAt?
    ensures Advance(cfg, h, a).log.issued == h.log.issued
  {
    hide ReceiveTrace, Step, MidConn, EmissionsOf, Visit;
    var run := h.Sending();
    match a {
      case Queue(r) => RunOne(cfg, run, Sender.Queue(r));
      case Receive(bytes, now) =>
        if Decode(bytes).Some? { ReceiveIssues(cfg, h, Decode(bytes).value, |bytes|, now); }
      case Close => RunOne(cfg, run, Sender.SetFlags(RequestClose(h.session).tx.flags));
      case DrainAll =>
    }
  }

  lemma ReceiveQueue(cfg: Config, s: SessionState, p: Packet, size: nat, now: nat)
    ensures OnPacket(cfg, s, p, size, now).tx.pendingSend == s.tx.pendingSend
  {
    ReceiveTx(cfg, s, p, size, now);
    hide OnPacket, Tx.MarkGaps, Tx.EraseAcked, IsProcessed, Classify;
  }

  lemma ReceiveConnId(cfg: Config, s: SessionState, p: Packet, size: nat, now: nat)
    ensures OnPacket(cfg, s, p, size, now).connId == AdoptConnId(s, Classify(p.header.flags), p.header).connId
  {
    hide AfterAck, AfterDecision, Classify, Decide, ApplyDecision, Rx.OnPacket;
    var kind := Classify(p.header.flags);
    var a := Admitted(s, p, size, now);
    Life.AfterAckConn(cfg, a, kind, p.header, now);
    Life.AfterDecisionConn(cfg, AfterAck(cfg, a, kind, p.header, now), p, now);
  }

  lemma AfterAckPong(s: SessionState, kind: ControlKind, now: nat)
    ensures var f, f' := s.tx.flags, ProbeReceived(s, kind, now).tx.flags;
      && f'.finPending == f.finPending && f'.ackOnlyPending == f.ackOnlyPending
      && f'.probe.pingPending == f.probe.pingPending
      && (f'.probe.pongPending ==> f.probe.pongPending || s.conn == Established)
  {
    hide ProbeStats;
  }

  /** Which flags receiving a packet can raise. */
  lemma ReceiveFlagsFrom(cfg: Config, s: SessionState, p: Packet, size: nat, now: nat)
    ensures var s' := OnPacket(cfg, s, p, size, now);
      var kind, f, f' := Classify(p.header.flags), s.tx.flags, s'.tx.flags;
      && f'.finPending == f.finPending && f'.probe.pingPending == f.probe.pingPending
      && (f'.ackOnlyPending ==>
            f.ackOnlyPending || kind == KFin || (kind != KNone && IsReliableChannel(p.header.channelType)))
      && (f'.probe.pongPending ==> f.probe.pongPending || s.conn == Established)
  {
    hide AfterAck, AfterDecision, Classify, ProbeReceived;
    var kind := Classify(p.header.flags);
    var a := Admitted(s, p, size, now);
    AfterAckFlags(cfg, a, kind, p.header, now);
    AfterAckPong(a, kind, now);
    AfterDecisionFlags(cfg, AfterAck(cfg, a, kind, p.header, now), p, now);
  }

  lemma LocalKeeps(cfg: Config, h: History, a: Action)
    requires Local(h) && Sender.Inv(cfg, h.Sending())
    ensures Local(Advance(cfg, h, a))
  {
    hide Sender.Inv, Advance, Life.TraceOk;
    TraceStep(cfg, h, a);
    TraceGrows(cfg, h, a);
    if a.PollAt? {
      LocalPoll(cfg, h, a.now);
    } else {
      LocalOther(cfg, h, a);
    }
  }

  lemma OtherFlags(cfg: Config, s: SessionState, a: Action)
    requires !a.PollAt?
    ensures var f, f' := s.tx.flags, Step(cfg, s, a).tx.flags;
      && (f'.finPending ==> f.finPending || s.conn == Established)
      && f'.probe.pingPending == f.probe.pingPending
      && (f'.probe.pongPending ==> f.probe.pongPending || s.conn == Established)
  {
    hide OnPacket, Decode;
    if a.Receive? && Decode(a.bytes).Some? {
      ReceiveFlagsFrom(cfg, s, Decode(a.bytes).value, |a.bytes|, a.now);
    }
  }

  lemma LocalOther(cfg: Config, h: History, a: Action)
    requires Local(h) && !a.PollAt?
    requires var h' := Advance(cfg, h, a);
      Life.TraceOk(h'.session.role, h'.trace) && Life.Last(h'.trace) == h'.session.conn &&
      forall c :: c in h.trace ==> c in h'.trace
    ensures Local(Advance(cfg, h, a))
  {
    hide Step, TxTrace, MidConn, Visit, Decode;
    assert h.session.conn in h.trace;
    hide Life.TraceOk;
    StepIssues(cfg, h, a);
    OtherFlags(cfg, h.session, a);
    var h' := Advance(cfg, h, a);
    assert h'.emitted == h.emitted;
    OriginStays(h, h');
    hide Origin;
    forall p | p in h'.log.issued ensures Origin(h', p) {
      assert Origin(h, p);
    }
  }

  lemma TraceStep(cfg: Config, h: History, a: Action)
    requires Life.TraceOk(h.session.role, h.trace) && Life.Last(h.trace) == h.session.conn
    ensures var h' := Advance(cfg, h, a);
      Life.TraceOk(h'.session.role, h'.trace) && Life.Last(h'.trace) == h'.session.conn
  {
    hide Step, MidConn, TxTrace, EmissionsOf, Visit;
    Life.StepEdges(cfg, h.session, a);
    Life.VisitKeeps(h.session.role, h.trace, MidConn(cfg, h.session, a));
    Life.VisitKeeps(h.session.role, Visit(h.trace, MidConn(cfg, h.session, a)), Step(cfg, h.session, a).conn);
  }

  lemma LocalPacket(cfg: Config, h: History, now: nat)
    requires Local(h) && Sender.Inv(cfg, h.Sending())
    ensures var o := PollTx(cfg, h.session, now).outcome;
      o.Sent? ==> Origin(h, o.packet) && Decode(Encode(o.packet)) == Some(o.packet)
  {
    PollReason(cfg, h, now);
    hide Sender.Inv, PollTx, Decode, Encode, Life.TraceOk;
    var o := PollTx(cfg, h.session, now).outcome;
    assert h.session.conn in h.trace;
    if o.Sent? {
      DecodeEncode(o.packet);
      assert Sender.Content(o.packet).header.flags == o.packet.header.flags;
      assert Sender.Content(o.packet).header.channelType == o.packet.header.channelType;
    }
  }

  lemma OriginStays(h: History, h': History)
    requires forall c :: c in h.trace ==> c in h'.trace
    ensures forall p :: Origin(h, p) ==> Origin(h', p)
    ensures forall p :: Origin(h, p) ==> Origin(h, Sender.Content(p))
  {
  }

  lemma LocalPoll(cfg: Config, h: History, now: nat)
    requires Local(h) && Sender.Inv(cfg, h.Sending())
    requires var h' := Advance(cfg, h, PollAt(now));
      Life.TraceOk(h'.session.role, h'.trace) && Life.Last(h'.trace) == h'.session.conn &&
      forall c :: c in h.trace ==> c in h'.trace
    ensures Local(Advance(cfg, h, PollAt(now)))
  {
    hide Sender.Inv, PollTx, Decode, Encode, MidConn, Visit, PollTrace;
    assert h.session.conn in h.trace;
    hide Life.TraceOk;
    PollFlagsFrom(cfg, h.session, now);
    LocalPacket(cfg, h, now);
    PollIssues(cfg, h, now);
    var h' := Advance(cfg, h, PollAt(now));
    assert h'.session == PollTx(cfg, h.session, now).session;
    var o := PollTx(cfg, h.session, now).outcome;
    OriginStays(h, h');
    hide Origin;
    forall p | p in h'.log.issued ensures Origin(h', p) {
      assert p in PolledLog(cfg, h, now).issued;
      assert Origin(h, p);
    }
    forall e | e in h'.emitted ensures Decode(e.bytes).Some? && Origin(h', Decode(e.bytes).value) {
      if e !in h.emitted { assert e.bytes == Encode(o.packet); }
    }
  }

  // ----- both sides -----

  predicate SaysAck(h: History, p: Packet) { p.header.flags == ACK ==> Ever(h) }

  /** Everything the server numbers or sends carries its id. */
  ghost predicate ServerId(srv: History, id: u32) {
    && srv.session.connId == id && srv.session.role == Server
    && (forall p :: p in srv.log.issued ==> p.header.connId == id)
    && (forall e :: e in srv.emitted ==> Decode(e.bytes).Some? && Decode(e.bytes).value.header.connId == id)
  }

  ghost predicate ClientSide(cli: History, id: u32) {
    && cli.session.role == Client && cli.session.connId in {0, id}
    && (cli.session.tx.flags.ackOnlyPending ==> Ever(cli))
    && (forall e :: e in cli.emitted ==> Decode(e.bytes).Some? && SaysAck(cli, Decode(e.bytes).value))
  }

  ghost predicate Agreement(sys: System, id: u32) {
    && Local(sys.client) && Local(sys.server)
    && ServerId(sys.server, id) && ClientSide(sys.client, id)
    && (Ever(sys.server) ==> Ever(sys.client))
    && (Ever(sys.client) ==> AcceptedSyn(sys.server))
  }

  lemma ServerIdKeeps(cfg: Config, srv: History, a: Action, id: u32)
    requires ServerId(srv, id) && Sender.Inv(cfg, srv.Sending())
    ensures ServerId(Advance(cfg, srv, a), id)
  {
    var srv', s := Advance(cfg, srv, a), srv.session;
    RoleAndId(cfg, s, a);
    if a.PollAt? {
      PollReason(cfg, srv, a.now);
      PollIssues(cfg, srv, a.now);
      hide Sender.Inv, PollTx, Decode, Encode, PollTrace, MidConn, Visit;
      var o := PollTx(cfg, s, a.now).outcome;
      if o.Sent? {
        DecodeEncode(o.packet);
        assert Sender.Content(o.packet).header.connId == o.packet.header.connId;
      }
      forall p | p in srv'.log.issued ensures p.header.connId == id {
        assert p in PolledLog(cfg, srv, a.now).issued;
      }
      forall e | e in srv'.emitted ensures Decode(e.bytes).Some? && Decode(e.bytes).value.header.connId == id {
        if e !in srv.emitted { assert e.bytes == Encode(o.packet); }
      }
    } else {
      StepIssues(cfg, srv, a);
      hide Sender.Inv, Step, Decode, TxTrace, MidConn, Visit;
      assert srv'.emitted == srv.emitted;
    }
  }

  /** The role never changes, and a server keeps its connection id. */
  lemma RoleAndId(cfg: Config, s: SessionState, a: Action)
    ensures Step(cfg, s, a).role == s.role
    ensures s.role == Server || !a.Receive? ==> Step(cfg, s, a).connId == s.connId
  {
    hide OnPacket, PollTx, Decode, Classify;
    Life.StepEdges(cfg, s, a);
    if a.Receive? && Decode(a.bytes).Some? {
      ReceiveConnId(cfg, s, Decode(a.bytes).value, |a.bytes|, a.now);
    } else if a.PollAt? {
      Life.PollConn(cfg, s, a.now);
    }
  }

  /** Entering Established takes the right packet. */
  lemma EntryNeeds(cfg: Config, h: History, a: Action)
    requires Local(h) && Ever(Advance(cfg, h, a)) && !Ever(h)
    ensures a.Receive? && Decode(a.bytes).Some?
    ensures var header, s' := Decode(a.bytes).value.header, Step(cfg, h.session, a);
      var kind := Classify(header.flags);
      && kind == (if h.session.role == Client then KSynAck else KAck)
      && s'.conn == Established && s'.connId == AdoptConnId(h.session, kind, header).connId
  {
    var s := h.session;
    Life.MidNotEntered(cfg, s, a);
    assert s.conn in h.trace;
    assert Step(cfg, s, a).conn == Established by {
      hide Step, MidConn, TxTrace, EmissionsOf;
    }
    hide TxTrace, EmissionsOf, Visit, OnPacket, PollTx, AfterAck, TxPoll;
    match a {
      case PollAt(now) =>
        Life.PollConn(cfg, s, now);
      case Receive(bytes, now) =>
        if Decode(bytes).Some? {
          EntryByPacket(cfg, s, Decode(bytes).value, |bytes|, now);
          ReceiveConnId(cfg, s, Decode(bytes).value, |bytes|, now);
        }
      case _ =>
    }
  }

  lemma EntryByPacket(cfg: Config, s: SessionState, p: Packet, size: nat, now: nat)
    requires s.conn != Established && OnPacket(cfg, s, p, size, now).conn == Established
    ensures Classify(p.header.flags) == if s.role == Client then KSynAck else KAck
  {
    hide AfterAck, AfterDecision, Classify, ApplyDecision, Rx.OnPacket;
    var kind := Classify(p.header.flags);
    var a := Admitted(s, p, size, now);
    Life.AfterAckConn(cfg, a, kind, p.header, now);
    Life.AfterDecisionConn(cfg, AfterAck(cfg, a, kind, p.header, now), p, now);
  }

  /** A packet taken from the network, with what its sender guarantees about it. */
  lemma Arrival(y: History, bytes: seq<u8>) returns (p: Packet)
    requires Local(y) && WasEmitted(y, bytes)
    ensures Decode(bytes) == Some(p) && p.header.flags < 64 && Origin(y, p)
  {
    var e :| e in y.emitted && e.bytes == bytes;
    EncodeDecode(bytes);
    hide Encode;
    p := Decode(bytes).value;
  }

  lemma ClientReceives(cfg: Config, cli: History, srv: History, a: Action, id: u32)
    requires ClientSide(cli, id) && Local(srv) && ServerId(srv, id) && (Ever(srv) ==> Ever(cli))
    requires a.Receive? && WasEmitted(srv, a.bytes)
    ensures var s' := Step(cfg, cli.session, a);
      s'.connId in {0, id} && (s'.tx.flags.ackOnlyPending ==> Ever(cli))
      && s'.tx.pendingSend == cli.session.tx.pendingSend
      && (cli.session.connId == id ==> id == 0 || s'.connId == id)
  {
    var p := Arrival(srv, a.bytes);
    var e :| e in srv.emitted && e.bytes == a.bytes;
    assert p.header.connId == id;
    ReceiveFlagsFrom(cfg, cli.session, p, |a.bytes|, a.now);
    ReceiveConnId(cfg, cli.session, p, |a.bytes|, a.now);
    ReceiveQueue(cfg, cli.session, p, |a.bytes|, a.now);
    ClassifyValues(p.header.flags);
    hide OnPacket, Classify, Decode;
  }

  lemma ClientSideKeeps(cfg: Config, cli: History, a: Action, srv: History, id: u32)
    requires Local(cli) && ClientSide(cli, id) && Sender.Inv(cfg, cli.Sending())
    requires Local(srv) && ServerId(srv, id) && (Ever(srv) ==> Ever(cli))
    requires a.Receive? ==> WasEmitted(srv, a.bytes)
    ensures ClientSide(Advance(cfg, cli, a), id)
  {
    var cli' := Advance(cfg, cli, a);
    RoleAndId(cfg, cli.session, a);
    TraceGrows(cfg, cli, a);
    assert cli.session.conn in cli.trace;
    if a.PollAt? {
      ClientEmits(cfg, cli, a.now, id);
    } else {
      if a.Receive? { ClientReceives(cfg, cli, srv, a, id); }
      hide Sender.Inv, OnPacket, Decode, TxTrace, MidConn, Visit;
      assert cli'.emitted == cli.emitted;
      forall e | e in cli'.emitted ensures SaysAck(cli', Decode(e.bytes).value) {
        assert SaysAck(cli, Decode(e.bytes).value);
      }
    }
  }

  lemma ClientEmits(cfg: Config, cli: History, now: nat, id: u32)
    requires Local(cli) && ClientSide(cli, id) && Sender.Inv(cfg, cli.Sending())
    requires var cli' := Advance(cfg, cli, PollAt(now));
      && cli'.session.role == Client && cli'.session.connId == cli.session.connId
      && forall c :: c in cli.trace ==> c in cli'.trace
    ensures ClientSide(Advance(cfg, cli, PollAt(now)), id)
  {
    var cli' := Advance(cfg, cli, PollAt(now));
    PollFlagsFrom(cfg, cli.session, now);
    PollReason(cfg, cli, now);
    PolledPacket(cfg, cli, now);
    hide Sender.Inv, PollTx, Decode, Encode, PollTrace, MidConn, Visit;
    assert cli.session.conn in cli.trace;
    var o := PollTx(cfg, cli.session, now).outcome;
    if o.Sent? {
      DecodeEncode(o.packet);
      assert SaysAck(cli, o.packet);
    }
    forall e | e in cli'.emitted ensures Decode(e.bytes).Some? && SaysAck(cli', Decode(e.bytes).value) {
      if e !in cli.emitted {
        assert e.bytes == Encode(o.packet);
      } else {
        assert SaysAck(cli, Decode(e.bytes).value);
      }
    }
  }

  lemma ClientStepAgrees(cfg: Config, sys: System, a: Action, id: u32)
    requires Agreement(sys, id) && Sender.Inv(cfg, sys.client.Sending())
    requires a.Receive? ==> WasEmitted(sys.server, a.bytes)
    ensures Agreement(SystemStep(cfg, sys, ClientDoes(a)), id)
  {
    LocalKeeps(cfg, sys.client, a);
    ClientSideKeeps(cfg, sys.client, a, sys.server, id);
    TraceGrows(cfg, sys.client, a);
    var cli' := Advance(cfg, sys.client, a);
    if Ever(cli') && !Ever(sys.client) {
      EntryNeeds(cfg, sys.client, a);
      var p := Arrival(sys.server, a.bytes);
      ClassifyValues(p.header.flags);
    }
    hide Advance, Local, ServerId, ClientSide, Classify, Decode;
  }

  lemma ServerStepAgrees(cfg: Config, sys: System, a: Action, id: u32)
    requires Agreement(sys, id) && Sender.Inv(cfg, sys.server.Sending())
    requires a.Receive? ==> WasEmitted(sys.client, a.bytes)
    ensures Agreement(SystemStep(cfg, sys, ServerDoes(a)), id)
  {
    LocalKeeps(cfg, sys.server, a);
    ServerIdKeeps(cfg, sys.server, a, id);
    TraceGrows(cfg, sys.server, a);
    var srv' := Advance(cfg, sys.server, a);
    if Ever(srv') && !Ever(sys.server) {
      EntryNeeds(cfg, sys.server, a);
      var p := Arrival(sys.client, a.bytes);
      ClassifyValues(p.header.flags);
      var e :| e in sys.client.emitted && e.bytes == a.bytes;
      assert SaysAck(sys.client, p);
    }
    hide Advance, Local, ServerId, ClientSide, Classify, Decode;
  }

  // ----- whole runs -----

  ghost predicate Good(cfg: Config, sys: System, id: u32) {
    Sender.Inv(cfg, sys.client.Sending()) && Sender.Inv(cfg, sys.server.Sending()) && Agreement(sys, id)
  }

  lemma StepIsGood(cfg: Config, sys: System, act: SystemAction, id: u32)
    requires Good(cfg, sys, id) && Enabled(sys, act)
    ensures Good(cfg, SystemStep(cfg, sys, act), id)
  {
    hide Sender.Inv, Agreement, Advance;
    match act {
      case ClientDoes(a) =>
        SenderKeeps(cfg, sys.client, a);
        ClientStepAgrees(cfg, sys, a, id);
      case ServerDoes(a) =>
        SenderKeeps(cfg, sys.server, a);
        ServerStepAgrees(cfg, sys, a, id);
    }
  }

  lemma {:induction false} RunsAreGood(cfg: Config, sys: System, acts: seq<SystemAction>, id: u32)
    requires Good(cfg, sys, id) && Admissible(cfg, sys, acts)
    ensures Good(cfg, SystemRun(cfg, sys, acts), id)
    decreases |acts|
  {
    hide Good, SystemStep, Enabled, Admissible;
    if acts != [] {
      AdmissiblePrefix(cfg, sys, acts);
      RunsAreGood(cfg, sys, acts[..|acts| - 1], id);
      StepIsGood(cfg, SystemRun(cfg, sys, acts[..|acts| - 1]), acts[|acts| - 1], id);
    }
  }

  lemma StartIsGood(cfg: Config, clientIsn: u32, serverIsn: u32, id: u32)
    ensures Good(cfg, SystemStart(clientIsn, serverIsn, id), id)
  {
    Sender.InitialInv(cfg, clientIsn);
    Sender.InitialInv(cfg, serverIsn);
    hide Sender.Inv;
  }

  /**
   * Handshake agreement, at every point of every run: the client's connection id is 0 or the server's;
   * if the server has ever been Established, the client had emitted Connected before; and if the
   * client has emitted Connected, the server had accepted a SYN before. (Each step changes one side only, so
   * the state of the other side at the time of the first entry is its state before it.)
   */
  lemma HandshakeAgreement(cfg: Config, clientIsn: u32, serverIsn: u32, id: u32, acts: seq<SystemAction>)
    requires Admissible(cfg, SystemStart(clientIsn, serverIsn, id), acts)
    ensures var sys := SystemRun(cfg, SystemStart(clientIsn, serverIsn, id), acts);
      && sys.client.session.connId in {0, id} && sys.server.session.connId == id
      && (Ever(sys.server) ==> Ever(sys.client))
      && (Ever(sys.client) ==> AcceptedSyn(sys.server))
  {
    StartIsGood(cfg, clientIsn, serverIsn, id);
    RunsAreGood(cfg, SystemStart(clientIsn, serverIsn, id), acts, id);
    hide SystemRun, Local, Sender.Inv;
  }

  // ----- no spurious mismatch -----

  predicate Bootstraps(p: Packet, id: u32) { p.header.flags == SYN || p.header.connId == id }

  /** The client queues only after Connected, and then sends nothing but SYNs without the id. */
  ghost predicate Patient(cli: History, id: u32) {
    && (cli.session.tx.pendingSend != [] ==> Ever(cli))
    && (Ever(cli) ==> cli.session.connId == id)
    && (forall p :: p in cli.log.issued ==> Bootstraps(p, id))
    && (forall e :: e in cli.emitted ==> Decode(e.bytes).Some? && Bootstraps(Decode(e.bytes).value, id))
  }

  lemma ClientNeverReceivesHandshake(h: History)
    requires Local(h) && h.session.role == Client
    ensures h.session.conn != HandshakeReceived
  {
    var t := h.trace;
    assert |t| > 1 ==> Life.Edge(Client, t[|t| - 2], t[|t| - 1]);
  }

  lemma PatientPacket(cfg: Config, cli: History, now: nat, id: u32)
    requires Local(cli) && ClientSide(cli, id) && Patient(cli, id) && Sender.Inv(cfg, cli.Sending())
    ensures var o := PollTx(cfg, cli.session, now).outcome;
      o.Sent? ==> Bootstraps(o.packet, id) && Decode(Encode(o.packet)) == Some(o.packet)
  {
    PollReason(cfg, cli, now);
    ClientNeverReceivesHandshake(cli);
    hide Sender.Inv, PollTx, Decode, Encode, Life.TraceOk;
    assert cli.session.conn in cli.trace;
    var o := PollTx(cfg, cli.session, now).outcome;
    if o.Sent? {
      DecodeEncode(o.packet);
      assert Bootstraps(Sender.Content(o.packet), id) <==> Bootstraps(o.packet, id);
    }
  }

  lemma PatientPoll(cfg: Config, cli: History, now: nat, id: u32)
    requires Local(cli) && ClientSide(cli, id) && Patient(cli, id) && Sender.Inv(cfg, cli.Sending())
    ensures Patient(Advance(cfg, cli, PollAt(now)), id)
  {
    hide Sender.Inv, PollTx, Decode, Encode, PollTrace, MidConn, Visit, Local, ClientSide;
    var cli' := Advance(cfg, cli, PollAt(now));
    RoleAndId(cfg, cli.session, PollAt(now));
    TraceGrows(cfg, cli, PollAt(now));
    if Ever(cli') && !Ever(cli) { EntryNeeds(cfg, cli, PollAt(now)); }
    PollQueue(cfg, cli.session, now);
    PatientPacket(cfg, cli, now, id);
    PollIssues(cfg, cli, now);
    var o := PollTx(cfg, cli.session, now).outcome;
    forall p | p in cli'.log.issued ensures Bootstraps(p, id) {
      assert p in PolledLog(cfg, cli, now).issued;
    }
    forall e | e in cli'.emitted ensures Decode(e.bytes).Some? && Bootstraps(Decode(e.bytes).value, id) {
      if e !in cli.emitted { assert e.bytes == Encode(o.packet); }
    }
  }

  lemma PatientOther(cfg: Config, cli: History, a: Action, srv: History, id: u32)
    requires Local(cli) && ClientSide(cli, id) && Patient(cli, id) && !a.PollAt? && id != 0
    requires Local(srv) && ServerId(srv, id) && (Ever(srv) ==> Ever(cli))
    requires a.Receive? ==> WasEmitted(srv, a.bytes)
    requires a.Queue? ==> Ever(cli)
    ensures Patient(Advance(cfg, cli, a), id)
  {
    hide OnPacket, Decode, TxTrace, MidConn, Visit, Classify, Local;
    var cli' := Advance(cfg, cli, a);
    TraceGrows(cfg, cli, a);
    StepIssues(cfg, cli, a);
    RoleAndId(cfg, cli.session, a);
    if a.Receive? { ClientReceives(cfg, cli, srv, a, id); }
    if Ever(cli') && !Ever(cli) {
      EntryNeeds(cfg, cli, a);
      var e :| e in srv.emitted && e.bytes == a.bytes;
    }
    assert cli'.emitted == cli.emitted;
  }

  /** The client queues no data before it has emitted Connected. */
  ghost predicate QueuesLate(cfg: Config, sys: System, acts: seq<SystemAction>) {
    forall i :: 0 <= i < |acts| && acts[i].ClientDoes? && acts[i].a.Queue? ==>
      Ever(SystemRun(cfg, sys, acts[..i]).client)
  }

  lemma QueuesLatePrefix(cfg: Config, sys: System, acts: seq<SystemAction>)
    requires acts != [] && QueuesLate(cfg, sys, acts)
    ensures QueuesLate(cfg, sys, acts[..|acts| - 1])
    ensures var act := acts[|acts| - 1];
      act.ClientDoes? && act.a.Queue? ==> Ever(SystemRun(cfg, sys, acts[..|acts| - 1]).client)
  {
    hide SystemRun;
    var front := acts[..|acts| - 1];
    forall i | 0 <= i < |front| && front[i].ClientDoes? && front[i].a.Queue?
      ensures Ever(SystemRun(cfg, sys, front[..i]).client)
    {
      assert front[..i] == acts[..i] && acts[i] == front[i];
    }
  }

  lemma {:induction false} PatientRuns(cfg: Config, sys: System, acts: seq<SystemAction>, id: u32)
    requires Good(cfg, sys, id) && Admissible(cfg, sys, acts) && Patient(sys.client, id) && id != 0
    requires QueuesLate(cfg, sys, acts)
    ensures Patient(SystemRun(cfg, sys, acts).client, id)
    decreases |acts|
  {
    hide Good, Patient, SystemStep, Enabled, Admissible, QueuesLate, Ever;
    if acts != [] {
      var front := acts[..|acts| - 1];
      AdmissiblePrefix(cfg, sys, acts);
      QueuesLatePrefix(cfg, sys, acts);
      PatientRuns(cfg, sys, front, id);
      RunsAreGood(cfg, sys, front, id);
      PatientStep(cfg, SystemRun(cfg, sys, front), acts[|acts| - 1], id);
    }
  }

  lemma PatientStep(cfg: Config, sys: System, act: SystemAction, id: u32)
    requires Good(cfg, sys, id) && Enabled(sys, act) && Patient(sys.client, id) && id != 0
    requires act.ClientDoes? && act.a.Queue? ==> Ever(sys.client)
    ensures Patient(SystemStep(cfg, sys, act).client, id)
  {
    hide Sender.Inv, Local, ServerId, ClientSide, Patient, Advance;
    if act.ClientDoes? {
      if act.a.PollAt? {
        PatientPoll(cfg, sys.client, act.a.now, id);
      } else {
        PatientOther(cfg, sys.client, act.a, sys.server, id);
      }
    }
  }

  predicate PassesIdCheck(s: SessionState, bytes: seq<u8>) {
    match Decode(bytes)
    case None => false
    case Some(p) =>
      var kind := Classify(p.header.flags);
      !HasConnIdMismatch(AdoptConnId(s, kind, p.header), kind, p.header)
  }

  lemma ClientPasses(cli: History, srv: History, bytes: seq<u8>, id: u32)
    requires ClientSide(cli, id) && ServerId(srv, id) && WasEmitted(srv, bytes)
    ensures PassesIdCheck(cli.session, bytes)
  {
  }

  lemma ServerPasses(srv: History, cli: History, bytes: seq<u8>, id: u32)
    requires ServerId(srv, id) && Patient(cli, id) && WasEmitted(cli, bytes)
    ensures PassesIdCheck(srv.session, bytes)
  {
  }

  /**
   * In every run in which the client queues nothing before it is connected, no datagram that can be
   * delivered trips the connection-id check, on either side.
   */
  lemma NoSpuriousMismatch(cfg: Config, clientIsn: u32, serverIsn: u32, id: u32, acts: seq<SystemAction>,
                           next: SystemAction)
    requires id != 0 && Admissible(cfg, SystemStart(clientIsn, serverIsn, id), acts)
    requires QueuesLate(cfg, SystemStart(clientIsn, serverIsn, id), acts)
    requires Enabled(SystemRun(cfg, SystemStart(clientIsn, serverIsn, id), acts), next) && next.a.Receive?
    ensures var sys := SystemRun(cfg, SystemStart(clientIsn, serverIsn, id), acts);
      PassesIdCheck(if next.ClientDoes? then sys.client.session else sys.server.session, next.a.bytes)
  {
    var start := SystemStart(clientIsn, serverIsn, id);
    StartIsGood(cfg, clientIsn, serverIsn, id);
    assert Patient(start.client, id);
    hide SystemRun, Sender.Inv, Patient, Admissible, QueuesLate, Local, ClientSide, ServerId, PassesIdCheck;
    RunsAreGood(cfg, start, acts, id);
    PatientRuns(cfg, start, acts, id);
    var sys := SystemRun(cfg, start, acts);
    if next.ClientDoes? {
      ClientPasses(sys.client, sys.server, next.a.bytes, id);
    } else {
      ServerPasses(sys.server, sys.client, next.a.bytes, id);
    }
  }

  // ----- why the client has to wait -----

  function SynPacket(isn: u32): Packet { Packet(MakeHeader(0, isn, 0, 0, 0, UNRELIABLE, SYN), []) }

  function EarlyPacket(isn: u32, r: SendRequest): Packet {
    var seqNo := if IsReliableChannel(r.channelType) then Inc(isn) else 0;
    Packet(MakeHeader(0, seqNo, 0, 0, r.channelId, r.channelType, 0), r.payload)
  }

  /** The SYN in flight and the request still queued. */
  function AfterSyn(isn: u32, r: SendRequest, now: nat): TxState {
    TxState(Inc(isn), isn, 0, [r], map[isn := TxEntry(SynPacket(isn), now, now, 0, 0, false)], NO_FLAGS)
  }

  lemma FirstPollSendsSyn(cfg: Config, isn: u32, r: SendRequest, now: nat)
    ensures var q := PollTx(cfg, QueueSend(InitialSession(Client, isn, 0), r), now);
      && q.outcome == Tx.Sent(SynPacket(isn), Tx.Control)
      && q.session.conn == HandshakeSent && q.session.connId == 0 && q.session.role == Client
      && q.session.rx == INITIAL_RX
      && q.session.tx == AfterSyn(isn, r, now)
  {
    var s := QueueSend(InitialSession(Client, isn, 0), r);
    assert ScheduledFlags(cfg, s, now) == NO_FLAGS;
    assert s.tx.pendingSend == [r];
  }

  lemma SecondPollSendsData(cfg: Config, s: SessionState, isn: u32, r: SendRequest, now: nat)
    requires cfg.initialRto > 0 && cfg.maxRto > 0 && cfg.maxRetransmit > 0
    requires s.conn == HandshakeSent && s.connId == 0 && s.role == Client && s.rx == INITIAL_RX
    requires s.tx == AfterSyn(isn, r, now)
    ensures PollTx(cfg, s, now).outcome == Tx.Sent(EarlyPacket(isn, r), Tx.Fresh)
  {
  }

  lemma ServerMeetsEarlyData(cfg: Config, clientIsn: u32, serverIsn: u32, id: u32, r: SendRequest,
                             n1: nat, n2: nat, now: nat)
    requires id != 0
    ensures var h := OnPacket(cfg, InitialSession(Server, serverIsn, id), SynPacket(clientIsn), n1, now);
      && h.conn == HandshakeReceived && h.connId == id && h.role == Server
      && OnPacket(cfg, h, EarlyPacket(clientIsn, r), n2, now).conn == Reset
  {
    var s, p := InitialSession(Server, serverIsn, id), SynPacket(clientIsn);
    assert Classify(SYN) == KSyn && Classify(0) == KNone;
    hide Classify, AfterAck, AfterDecision, ApplyDecision, Rx.OnPacket;
    var a := Admitted(s, p, n1, now);
    var m := AfterAck(cfg, a, KSyn, p.header, now);
    Life.AfterAckConn(cfg, a, KSyn, p.header, now);
    Life.AfterDecisionConn(cfg, m, p, now);
  }

  /**
   * Without that patience the check does fire: a client that queues any request before it connects sends it
   * with connection id 0 right behind its SYN, and the two datagrams, delivered in order, reset the server.
   */
  lemma EarlyDataResetsServer(cfg: Config, clientIsn: u32, serverIsn: u32, id: u32, r: SendRequest, now: nat)
    requires id != 0 && cfg.initialRto > 0 && cfg.maxRto > 0 && cfg.maxRetransmit > 0
    ensures var first := PollTx(cfg, QueueSend(InitialSession(Client, clientIsn, 0), r), now);
      var second := PollTx(cfg, first.session, now);
      && Tx.Datagram(first.outcome).Some? && Tx.Datagram(second.outcome).Some?
      && var mid := OnDatagram(cfg, InitialSession(Server, serverIsn, id), Tx.Datagram(first.outcome).value, now);
         mid.conn == HandshakeReceived && OnDatagram(cfg, mid, Tx.Datagram(second.outcome).value, now).conn == Reset
  {
    FirstPollSendsSyn(cfg, clientIsn, r, now);
    hide PollTx, OnPacket, Decode, Encode;
    var first := PollTx(cfg, QueueSend(InitialSession(Client, clientIsn, 0), r), now);
    SecondPollSendsData(cfg, first.session, clientIsn, r, now);
    var syn, early := SynPacket(clientIsn), EarlyPacket(clientIsn, r);
    DecodeEncode(syn);
    DecodeEncode(early);
    ServerMeetsEarlyData(cfg, clientIsn, serverIsn, id, r, |Encode(syn)|, |Encode(early)|, now);
  }
}
