/**
 * The life of one session over a whole run, whatever bytes it receives: which connection states
 * follow each other, what the Connected events count, and what the retry-limit errors count.
 */
module SessionLifecycle {
  import opened Protocol
  import opened Codec
  import opened SessionTypes
  import opened ConnectionStateMachine
  import opened SessionSpec
  import opened SessionRuns
  import opened SessionHistory
  import opened Counting
  import Tx = TxSpec
  import Rx = RxSpec
  import Sender = TxRuns

  // ----- connection states -----

  /** The moves between connection states, `a == b` included. */
  predicate Edge(role: Role, a: ConnState, b: ConnState) {
    || a == b || b == Reset || b == Closing
    || (a == Closing && b == Closed)
    || (role == Client && a == Closed && b == HandshakeSent)
    || (role == Server && a == Closed && b == HandshakeReceived)
    || (role == Client && a == HandshakeSent && b == Established)
    || (role == Server && a == HandshakeReceived && b == Established)
  }

  lemma DecisionEdge(role: Role, conn: ConnState, kind: ControlKind)
    ensures var d := Decide(role, conn, kind);
      && (d.valid && d.next.Some? ==> Edge(role, conn, d.next.value))
      && (d.emitConnected <==> d.valid && d.next == Some(Established))
      && (d.next == Some(Established) ==> conn != Established)
  {
  }

  lemma AfterAckConn(cfg: Config, s: SessionState, kind: ControlKind, h: Header, now: nat)
    ensures var m := AfterAck(cfg, s, kind, h, now);
      && m.role == s.role && m.connId == s.connId && (m.conn == s.conn || (s.conn == Closing && m.conn == Closed))
      && (kind == KSyn ==> m.conn == s.conn)
      && m.rx == s.rx.(events := m.rx.events)
      && (m.rx.events == s.rx.events || m.rx.events == s.rx.events + [ControlEvent(ConnectionClosed, h, NoError)])
  {
  }

  lemma AfterDecisionConn(cfg: Config, s: SessionState, p: Packet, now: nat)
    ensures var s' := AfterDecision(cfg, s, p, now);
      var d := Decide(s.role, s.conn, Classify(p.header.flags));
      && s'.role == s.role && s'.connId == s.connId
      && s'.conn == (if d.valid && d.next.Some? then d.next.value else s.conn)
      && s'.rx == Rx.OnPacket(ApplyDecision(s, p.header, d).rx, p, Classify(p.header.flags)).rx
  {
  }

  /** The two moves of one packet: first on an acknowledged FIN, then by the connection decision. */
  lemma ReceiveConn(cfg: Config, s: SessionState, p: Packet, size: nat, now: nat)
    ensures var s' := OnPacket(cfg, s, p, size, now);
      var kind := Classify(p.header.flags);
      var mid := AfterAck(cfg, Admitted(s, p, size, now), kind, p.header, now).conn;
      && s'.role == s.role
      && (IsProcessed(s, p) ==> Edge(s.role, s.conn, mid) && Edge(s.role, mid, s'.conn))
      && (!IsProcessed(s, p) ==> s'.conn == s.conn || s'.conn == Reset)
  {
    hide AfterAck, AfterDecision, Classify, Decide;
    var a, kind := Admitted(s, p, size, now), Classify(p.header.flags);
    AfterAckConn(cfg, a, kind, p.header, now);
    var m := AfterAck(cfg, a, kind, p.header, now);
    AfterDecisionConn(cfg, m, p, now);
    DecisionEdge(m.role, m.conn, kind);
  }

  /** A SYN acknowledges nothing, so a closing session cannot restart within one packet. */
  lemma RestartNeedsClosed(cfg: Config, s: SessionState, p: Packet, size: nat, now: nat)
    requires OnPacket(cfg, s, p, size, now).conn == HandshakeReceived && s.conn != HandshakeReceived
    ensures s.conn == Closed
  {
    hide AfterAck, AfterDecision, Classify;
    var a, kind := Admitted(s, p, size, now), Classify(p.header.flags);
    AfterAckConn(cfg, a, kind, p.header, now);
    AfterDecisionConn(cfg, AfterAck(cfg, a, kind, p.header, now), p, now);
  }

  lemma PollConn(cfg: Config, s: SessionState, now: nat)
    ensures var r := PollTx(cfg, s, now);
      && r.session.role == s.role && r.session.connId == s.connId
      && (if ShouldTimeout(cfg, s, now) then r.session.conn == Reset
          else
            && TxPoll(cfg, s, now).conn == Tx.HandshakeConn(s.role, s.conn)
            && r.session.conn == if r.outcome.GaveUp? then Reset else TxPoll(cfg, s, now).conn)
  {
    Sender.PollLane(cfg, s.tx.(flags := ScheduledFlags(cfg, s, now)), now, s.role, s.connId, s.conn, AckFieldsOf(s.rx));
    hide Tx.Poll, ScheduledFlags, Classify;
  }

  lemma StepEdges(cfg: Config, s: SessionState, a: Action)
    ensures var mid := MidConn(cfg, s, a);
      Edge(s.role, s.conn, mid) && Edge(s.role, mid, Step(cfg, s, a).conn) && Step(cfg, s, a).role == s.role
  {
    hide OnPacket, PollTx, TxPoll, AfterAck;
    match a {
      case PollAt(now) => PollConn(cfg, s, now);
      case Receive(bytes, now) =>
        if Decode(bytes).Some? { ReceiveConn(cfg, s, Decode(bytes).value, |bytes|, now); }
      case _ =>
    }
  }

  predicate IsEstablished(c: ConnState) { c == Established }

  /** Consecutive states differ and are joined by an edge; the first is Closed. */
  predicate TraceOk(role: Role, trace: seq<ConnState>) {
    && trace != [] && trace[0] == Closed
    && forall j :: 0 < j < |trace| ==> trace[j - 1] != trace[j] && Edge(role, trace[j - 1], trace[j])
  }

  function Last<T>(xs: seq<T>): T requires xs != [] { xs[|xs| - 1] }

  lemma VisitKeeps(role: Role, trace: seq<ConnState>, c: ConnState)
    requires TraceOk(role, trace) && Edge(role, Last(trace), c)
    ensures TraceOk(role, Visit(trace, c)) && Last(Visit(trace, c)) == c
    ensures CountIf(Visit(trace, c), IsEstablished) ==
      CountIf(trace, IsEstablished) + Count(c == Established && Last(trace) != Established)
  {
  }

  // ----- events -----

  predicate IsConnectedEvent(e: Event) { e.kind == Connected }
  predicate IsRetryLimitEvent(e: Event) { e.reason == RetryLimit }

  /** `after` extends `before` by data events. */
  predicate AppendsData(before: seq<Event>, after: seq<Event>) {
    && before <= after
    && forall i :: |before| <= i < |after| ==> after[i].kind == DataReceived && after[i].reason == NoError
  }

  lemma {:induction false} DrainAppendsData(rx: RxState)
    ensures AppendsData(rx.events, Rx.Drain(rx).events)
    decreases |rx.reorder|
  {
    if rx.nextOrdered in rx.reorder {
      var rest := rx.reorder - {rx.nextOrdered};
      assert rest.Keys == rx.reorder.Keys - {rx.nextOrdered};
      assert |rest| == |rest.Keys| && |rx.reorder| == |rx.reorder.Keys|;
      var e := Rx.DataEvent(rx.reorder[rx.nextOrdered]);
      DrainAppendsData(Rx.Emit(rx, e).(reorder := rest, nextOrdered := Inc(rx.nextOrdered)));
    }
  }

  lemma {:induction false} AdvanceKeepsEvents(rx: RxState)
    ensures Rx.AdvanceLoop(rx).events == rx.events
    decreases rx.receivedBits
  {
    if rx.receivedBits % 2 == 1 {
      AdvanceKeepsEvents(rx.(nextExpected := Inc(rx.nextExpected), receivedBits := rx.receivedBits / 2));
    }
  }

  lemma RxAppendsData(rx: RxState, p: Packet, kind: ControlKind)
    ensures AppendsData(rx.events, Rx.OnPacket(rx, p, kind).rx.events)
  {
    var started := if rx.nextExpected == 0 then rx.(nextExpected := p.header.seqNo) else rx;
    AdvanceKeepsEvents(started.(nextExpected := Inc(started.nextExpected)));
    var u := Rx.UpdateReceiveState(rx, p.header, kind).rx;
    assert u.events == rx.events;
    hide Rx.UpdateReceiveState;
    if p.header.channelType == RELIABLE_ORDERED {
      var o := Rx.StartOrdered(u, p.header.seqNo);
      DrainAppendsData(o.(reorder := o.reorder[p.header.seqNo := p]));
    }
  }

  /** Counting over an extension by elements that do not count. */
  lemma CountExtension(before: seq<Event>, after: seq<Event>, f: Event -> bool)
    requires before <= after && forall i :: |before| <= i < |after| ==> !f(after[i])
    ensures CountIf(after, f) == CountIf(before, f)
  {
  }

  lemma EventIfCounts(emit: bool, kind: EventKind, h: Header)
    ensures CountIf(EventIf(emit, kind, h), IsConnectedEvent) == Count(emit && kind == Connected)
    ensures CountIf(EventIf(emit, kind, h), IsRetryLimitEvent) == 0
  {
  }

  lemma DecisionEventCounts(d: Decision, h: Header)
    ensures CountIf(DecisionEvents(d, h), IsConnectedEvent) == Count(d.emitConnected)
    ensures CountIf(DecisionEvents(d, h), IsRetryLimitEvent) == 0
  {
    hide EventIf, CountIf;
    var c, z := EventIf(d.emitConnected, Connected, h), EventIf(d.emitClosed, ConnectionClosed, h);
    var r := EventIf(d.emitReset, ConnectionReset, h);
    EventIfCounts(d.emitConnected, Connected, h);
    EventIfCounts(d.emitClosed, ConnectionClosed, h);
    EventIfCounts(d.emitReset, ConnectionReset, h);
    CountAppend(c + z, r, IsConnectedEvent);
    CountAppend(c, z, IsConnectedEvent);
    CountAppend(c + z, r, IsRetryLimitEvent);
    CountAppend(c, z, IsRetryLimitEvent);
  }

  lemma DecisionCounts(s: SessionState, h: Header, d: Decision)
    requires d.reason != RetryLimit && (!d.valid ==> !d.emitConnected)
    ensures var after := ApplyDecision(s, h, d).rx.events;
      && CountIf(after, IsConnectedEvent) == CountIf(s.rx.events, IsConnectedEvent) + Count(d.emitConnected)
      && CountIf(after, IsRetryLimitEvent) == CountIf(s.rx.events, IsRetryLimitEvent)
  {
    hide DecisionEvents, DecisionFlags;
    var events := s.rx.events;
    if d.valid {
      DecisionEventCounts(d, h);
      CountAppend(events, DecisionEvents(d, h), IsConnectedEvent);
      CountAppend(events, DecisionEvents(d, h), IsRetryLimitEvent);
    } else {
      CountSnoc(events, ControlEvent(Error, h, d.reason), IsConnectedEvent);
      CountSnoc(events, ControlEvent(Error, h, d.reason), IsRetryLimitEvent);
    }
  }

  lemma AfterDecisionCounts(cfg: Config, m: SessionState, p: Packet, now: nat)
    ensures var s' := AfterDecision(cfg, m, p, now);
      && CountIf(s'.rx.events, IsConnectedEvent) ==
           CountIf(m.rx.events, IsConnectedEvent) + Count(s'.conn == Established && m.conn != Established)
      && CountIf(s'.rx.events, IsRetryLimitEvent) == CountIf(m.rx.events, IsRetryLimitEvent)
  {
    hide AfterDecision, Classify, Decide, Rx.OnPacket, ApplyDecision, CountIf;
    var kind := Classify(p.header.flags);
    AfterDecisionConn(cfg, m, p, now);
    DecisionEdge(m.role, m.conn, kind);
    var d := Decide(m.role, m.conn, kind);
    DecisionReason(m.role, m.conn, kind);
    DecisionCounts(m, p.header, d);
    var decided := ApplyDecision(m, p.header, d).rx;
    RxAppendsData(decided, p, kind);
    var after := Rx.OnPacket(decided, p, kind).rx.events;
    CountExtension(decided.events, after, IsConnectedEvent);
    CountExtension(decided.events, after, IsRetryLimitEvent);
  }

  /** A received packet adds a Connected event exactly when it moves the session into Established. */
  lemma ReceiveCounts(cfg: Config, s: SessionState, p: Packet, size: nat, now: nat)
    ensures var s' := OnPacket(cfg, s, p, size, now);
      var mid := if IsProcessed(s, p)
        then AfterAck(cfg, Admitted(s, p, size, now), Classify(p.header.flags), p.header, now).conn else s.conn;
      && CountIf(s'.rx.events, IsConnectedEvent) ==
           CountIf(s.rx.events, IsConnectedEvent) + Count(s'.conn == Established && mid != Established)
      && CountIf(s'.rx.events, IsRetryLimitEvent) == CountIf(s.rx.events, IsRetryLimitEvent)
  {
    hide AfterAck, AfterDecision, Classify, CountIf;
    var a, kind := Admitted(s, p, size, now), Classify(p.header.flags);
    if IsProcessed(s, p) {
      AfterAckConn(cfg, a, kind, p.header, now);
      var closed := ControlEvent(ConnectionClosed, p.header, NoError);
      CountSnoc(s.rx.events, closed, IsConnectedEvent);
      CountSnoc(s.rx.events, closed, IsRetryLimitEvent);
      AfterDecisionCounts(cfg, AfterAck(cfg, a, kind, p.header, now), p, now);
    } else {
      var e := Event(Error, 0, 0, UNRELIABLE, [], ConnIdMismatch);
      CountSnoc(s.rx.events, e, IsConnectedEvent);
      CountSnoc(s.rx.events, e, IsRetryLimitEvent);
    }
  }

  lemma DecisionReason(role: Role, conn: ConnState, kind: ControlKind)
    ensures var d := Decide(role, conn, kind); d.reason != RetryLimit && (!d.valid ==> !d.emitConnected)
  {
  }

  /** A poll never enters Established; it adds a retry-limit error exactly when a number is given up. */
  lemma PollCounts(cfg: Config, s: SessionState, now: nat)
    ensures var r := PollTx(cfg, s, now);
      && CountIf(r.session.rx.events, IsConnectedEvent) == CountIf(s.rx.events, IsConnectedEvent)
      && CountIf(r.session.rx.events, IsRetryLimitEvent) ==
           CountIf(s.rx.events, IsRetryLimitEvent) + Count(r.outcome.GaveUp?)
      && (r.outcome.GaveUp? ==>
            && r.session.conn == Reset && r.session.rx.events != []
            && Last(r.session.rx.events).kind == Error && Last(r.session.rx.events).reason == RetryLimit)
  {
  }

  // ----- the log of give-ups -----

  lemma PollGiveUps(cfg: Config, h: History, now: nat)
    requires Sender.Inv(cfg, h.Sending())
    ensures var o := PollTx(cfg, h.session, now).outcome;
      |LogOf(cfg, h.session.tx, h.log, PollTrace(cfg, h.session, now)).givenUp| == |h.log.givenUp| + Count(o.GaveUp?)
  {
    hide Sender.Inv, Tx.Poll, ScheduledFlags, AfterPoll, Sender.LogPoll;
    var s := h.session;
    if !ShouldTimeout(cfg, s, now) {
      var t := PollTrace(cfg, s, now);
      RunThree(cfg, h.Sending(), t[0], t[1], t[2]);
      Sender.StepKeeps(cfg, h.Sending(), t[0]);
      Sender.GiveUpCount(cfg, Sender.Step(cfg, h.Sending(), t[0]), t[1]);
    }
  }

  lemma ReceiveGiveUps(cfg: Config, h: History, p: Packet, size: nat, now: nat)
    ensures LogOf(cfg, h.session.tx, h.log, ReceiveTrace(cfg, h.session, p, size, now)).givenUp == h.log.givenUp
  {
    var run, f := h.Sending(), Sender.SetFlags(OnPacket(cfg, h.session, p, size, now).tx.flags);
    var ack := Sender.RemoteAck(p.header.ack, p.header.ackBits);
    hide OnPacket, IsProcessed, Classify, Sender.Step;
    RunOne(cfg, run, f);
    RunTwo(cfg, run, ack, f);
    Sender.NoPollNoGiveUp(cfg, run, f);
    Sender.NoPollNoGiveUp(cfg, run, ack);
    Sender.NoPollNoGiveUp(cfg, Sender.Step(cfg, run, ack), f);
  }

  lemma StepGiveUps(cfg: Config, h: History, a: Action)
    requires Sender.Inv(cfg, h.Sending())
    ensures |Advance(cfg, h, a).log.givenUp| ==
      |h.log.givenUp| + Count(a.PollAt? && PollTx(cfg, h.session, a.now).outcome.GaveUp?)
  {
    hide Sender.Inv, Sender.Step, PollTx, PollTrace, ReceiveTrace, Step, MidConn;
    var run := h.Sending();
    match a {
      case Queue(r) =>
        RunOne(cfg, run, Sender.Queue(r));
        Sender.NoPollNoGiveUp(cfg, run, Sender.Queue(r));
      case PollAt(now) => PollGiveUps(cfg, h, now);
      case Receive(bytes, now) =>
        if Decode(bytes).Some? { ReceiveGiveUps(cfg, h, Decode(bytes).value, |bytes|, now); }
      case Close =>
        var f := Sender.SetFlags(RequestClose(h.session).tx.flags);
        RunOne(cfg, run, f);
        Sender.NoPollNoGiveUp(cfg, run, f);
      case DrainAll =>
    }
  }

  // ----- every run -----

  ghost predicate Lifecycle(h: History) {
    && TraceOk(h.session.role, h.trace) && Last(h.trace) == h.session.conn
    && CountIf(h.trace, IsEstablished) == CountIf(h.Events(), IsConnectedEvent)
  }

  ghost predicate GiveUpsReported(h: History) {
    CountIf(h.Events(), IsRetryLimitEvent) == |h.log.givenUp|
  }

  ghost predicate Inv(cfg: Config, h: History) {
    && Sender.Inv(cfg, h.Sending()) && Counted(h.session.stats, h.emitted) && ProbesAccounted(h.session)
    && Lifecycle(h) && GiveUpsReported(h)
  }

  /** How a step changes the two event counts. */
  lemma EventCounts(cfg: Config, h: History, a: Action)
    ensures var h' := Advance(cfg, h, a);
      && CountIf(h'.Events(), IsConnectedEvent) == CountIf(h.Events(), IsConnectedEvent) +
           Count(h'.session.conn == Established && MidConn(cfg, h.session, a) != Established)
      && CountIf(h'.Events(), IsRetryLimitEvent) == CountIf(h.Events(), IsRetryLimitEvent) +
           Count(a.PollAt? && PollTx(cfg, h.session, a.now).outcome.GaveUp?)
  {
    hide OnPacket, PollTx, TxPoll, AfterAck, TxTrace, CountIf, Visit;
    var h', s := Advance(cfg, h, a), h.session;
    CountAppend(h.drained, s.rx.events, IsConnectedEvent);
    CountAppend(h.drained, s.rx.events, IsRetryLimitEvent);
    CountAppend(h'.drained, h'.session.rx.events, IsConnectedEvent);
    CountAppend(h'.drained, h'.session.rx.events, IsRetryLimitEvent);
    match a {
      case PollAt(now) =>
        PollCounts(cfg, s, now);
        PollConn(cfg, s, now);
      case Receive(bytes, now) =>
        if Decode(bytes).Some? { ReceiveCounts(cfg, s, Decode(bytes).value, |bytes|, now); }
      case DrainAll =>
        CountNone<Event>([], IsConnectedEvent);
        CountNone<Event>([], IsRetryLimitEvent);
      case _ =>
    }
  }

  lemma LifecycleKeeps(cfg: Config, h: History, a: Action)
    requires Lifecycle(h)
    ensures Lifecycle(Advance(cfg, h, a))
  {
    hide Step, MidConn, CountIf, TxTrace, EmissionsOf, Visit;
    StepEdges(cfg, h.session, a);
    EventCounts(cfg, h, a);
    var mid, end := MidConn(cfg, h.session, a), Step(cfg, h.session, a).conn;
    var role := h.session.role;
    VisitKeeps(role, h.trace, mid);
    VisitKeeps(role, Visit(h.trace, mid), end);
    MidNotEntered(cfg, h.session, a);
  }

  lemma MidNotEntered(cfg: Config, s: SessionState, a: Action)
    ensures MidConn(cfg, s, a) == Established ==> s.conn == Established
  {
    hide TxPoll, AfterAck;
    match a {
      case PollAt(now) => PollConn(cfg, s, now);
      case Receive(bytes, now) =>
        if Decode(bytes).Some? {
          var p := Decode(bytes).value;
          AfterAckConn(cfg, Admitted(s, p, |bytes|, now), Classify(p.header.flags), p.header, now);
        }
      case _ =>
    }
  }

  lemma CountersKeep(cfg: Config, h: History, a: Action)
    requires Sender.Inv(cfg, h.Sending()) && Counted(h.session.stats, h.emitted) && ProbesAccounted(h.session)
    ensures var h' := Advance(cfg, h, a); Counted(h'.session.stats, h'.emitted) && ProbesAccounted(h'.session)
  {
    hide OnPacket, PollTx, TxTrace, MidConn, Visit, Encode, Classify, Sender.Inv;
    var s := h.session;
    assert h.emitted + [] == h.emitted;
    match a {
      case PollAt(now) =>
        PollEffect(cfg, h, now);
        PolledPacket(cfg, h, now);
        PollProbes(cfg, h, now);
        var o := PollTx(cfg, s, now).outcome;
        if o.Sent? { EmissionCounted(s.stats, h.emitted, o.packet, o.lane == Tx.Retransmit); }
      case Receive(bytes, now) =>
        if Decode(bytes).Some? {
          ReceiveStats(cfg, s, Decode(bytes).value, |bytes|, now);
          ReceiveProbes(cfg, s, Decode(bytes).value, |bytes|, now);
        }
      case _ =>
    }
  }

  lemma StepKeeps(cfg: Config, h: History, a: Action)
    requires Inv(cfg, h)
    ensures Inv(cfg, Advance(cfg, h, a))
  {
    hide Advance, Lifecycle, Counted, ProbesAccounted, Sender.Inv, CountIf;
    SenderKeeps(cfg, h, a);
    CountersKeep(cfg, h, a);
    LifecycleKeeps(cfg, h, a);
    EventCounts(cfg, h, a);
    StepGiveUps(cfg, h, a);
  }

  lemma StartInv(cfg: Config, role: Role, isn: u32, connId: u32)
    ensures Inv(cfg, Start(role, isn, connId))
  {
    hide Sender.Inv, Sender.InitialRun, CountIf, Lifecycle, Counted, KindOf;
    StartSender(cfg, role, isn, connId);
    assert Start(role, isn, connId).Events() == [];
    StartLifecycle(role, isn, connId);
    NothingCounted();
  }

  lemma StartLifecycle(role: Role, isn: u32, connId: u32)
    ensures Lifecycle(Start(role, isn, connId))
  {
    CountOne(Closed, IsEstablished);
    assert Start(role, isn, connId).Events() == [];
  }

  lemma StartSender(cfg: Config, role: Role, isn: u32, connId: u32)
    ensures var h := Start(role, isn, connId); Sender.Inv(cfg, h.Sending()) && h.log.givenUp == {}
  {
    hide Sender.Inv;
    Sender.InitialInv(cfg, isn);
  }

  lemma NothingCounted()
    ensures Counted(NO_STATS, []) && CountIf([], IsRetryLimitEvent) == 0
  {
    hide KindOf;
  }

  lemma {:induction false} RunKeeps(cfg: Config, h: History, actions: seq<Action>)
    requires Inv(cfg, h)
    ensures Inv(cfg, Run(cfg, h, actions))
    decreases |actions|
  {
    if actions != [] {
      hide Inv, Advance;
      RunKeeps(cfg, h, actions[..|actions| - 1]);
      StepKeeps(cfg, Run(cfg, h, actions[..|actions| - 1]), actions[|actions| - 1]);
    }
  }

  ghost function Reached(cfg: Config, role: Role, isn: u32, connId: u32, actions: seq<Action>): History {
    Run(cfg, Start(role, isn, connId), actions)
  }

  lemma ReachedInv(cfg: Config, role: Role, isn: u32, connId: u32, actions: seq<Action>)
    ensures Inv(cfg, Reached(cfg, role, isn, connId, actions))
    ensures Reached(cfg, role, isn, connId, actions).session.role == role
  {
    StartInv(cfg, role, isn, connId);
    RunKeeps(cfg, Start(role, isn, connId), actions);
    RoleStays(cfg, Start(role, isn, connId), actions);
  }

  lemma {:induction false} RoleStays(cfg: Config, h: History, actions: seq<Action>)
    ensures Run(cfg, h, actions).session.role == h.session.role
    decreases |actions|
  {
    if actions != [] {
      hide Step, MidConn, TxTrace, EmissionsOf, Visit;
      RoleStays(cfg, h, actions[..|actions| - 1]);
      StepEdges(cfg, Run(cfg, h, actions[..|actions| - 1]).session, actions[|actions| - 1]);
    }
  }

  /**
   * Whatever a session receives: a client never visits HandshakeReceived and a server never visits
   * HandshakeSent; each entry into Established comes straight from a handshake state that itself
   * comes straight from Closed, so any two entries have a visit to Closed and a new handshake between
   * them; and the entries are counted by the Connected events.
   */
  lemma SessionLife(cfg: Config, role: Role, isn: u32, connId: u32, actions: seq<Action>)
    ensures var h := Reached(cfg, role, isn, connId, actions);
      && h.trace != [] && Last(h.trace) == h.session.conn
      && (role == Client ==> HandshakeReceived !in h.trace) && (role == Server ==> HandshakeSent !in h.trace)
      && (forall j :: 0 <= j < |h.trace| && h.trace[j] == Established ==>
           j >= 2 && h.trace[j - 1] in {HandshakeSent, HandshakeReceived} && h.trace[j - 2] == Closed)
      && CountIf(h.trace, IsEstablished) == CountIf(h.Events(), IsConnectedEvent)
  {
    ReachedInv(cfg, role, isn, connId, actions);
    hide Run;
    var t := Reached(cfg, role, isn, connId, actions).trace;
    forall j | 0 <= j < |t| && t[j] == Established
      ensures j >= 2 && t[j - 1] in {HandshakeSent, HandshakeReceived} && t[j - 2] == Closed
    {
      assert j > 0 && Edge(role, t[j - 1], t[j]) && t[j - 1] != t[j];
      assert j > 1 && Edge(role, t[j - 2], t[j - 1]) && t[j - 2] != t[j - 1];
    }
    forall j | 0 <= j < |t|
      ensures role == Client ==> t[j] != HandshakeReceived
      ensures role == Server ==> t[j] != HandshakeSent
    {
      if j > 0 { assert Edge(role, t[j - 1], t[j]); }
    }
  }

  /** As many retry-limit errors are reported as numbers were given up. */
  lemma GiveUpsAreErrors(cfg: Config, role: Role, isn: u32, connId: u32, actions: seq<Action>)
    ensures var h := Reached(cfg, role, isn, connId, actions);
      && Sender.Inv(cfg, h.Sending())
      && CountIf(h.Events(), IsRetryLimitEvent) == |h.log.givenUp|
  {
    ReachedInv(cfg, role, isn, connId, actions);
  }

  /** In every run the next poll returns nothing, or a datagram that decodes and reports the receive state. */
  lemma PollsAreTruthful(cfg: Config, role: Role, isn: u32, connId: u32, actions: seq<Action>, now: nat)
    ensures var s := Reached(cfg, role, isn, connId, actions).session;
      var d := Tx.Datagram(PollTx(cfg, s, now).outcome);
      d.Some? ==>
        && Decode(d.value).Some?
        && Decode(d.value).value.header.ack == s.rx.nextExpected
        && Decode(d.value).value.header.ackBits == s.rx.receivedBits
  {
    ReachedInv(cfg, role, isn, connId, actions);
    OutboundTruth(cfg, Reached(cfg, role, isn, connId, actions), now);
    hide PollTx, Decode;
  }

  lemma {:induction false} EmittedDecode(cfg: Config, role: Role, isn: u32, connId: u32, actions: seq<Action>)
    ensures forall e :: e in Reached(cfg, role, isn, connId, actions).emitted ==> Decode(e.bytes).Some?
    decreases |actions|
  {
    if actions != [] {
      var before, a := actions[..|actions| - 1], actions[|actions| - 1];
      EmittedDecode(cfg, role, isn, connId, before);
      if a.PollAt? {
        PollsAreTruthful(cfg, role, isn, connId, before, a.now);
      }
      hide PollTx, Decode, Encode, Step, TxTrace, MidConn;
    }
  }

  /** In every run the send counters are the tallies of the datagrams emitted, each of which decodes. */
  lemma CountersAreTrue(cfg: Config, role: Role, isn: u32, connId: u32, actions: seq<Action>)
    ensures var h := Reached(cfg, role, isn, connId, actions);
      && Counted(h.session.stats, h.emitted)
      && (forall e :: e in h.emitted ==> Decode(e.bytes).Some?)
      && h.session.stats.packetsSent == h.session.stats.controlSent + h.session.stats.dataSent
  {
    ReachedInv(cfg, role, isn, connId, actions);
    EmittedDecode(cfg, role, isn, connId, actions);
    hide Run;
    ControlOrData(Reached(cfg, role, isn, connId, actions).emitted);
  }

  lemma {:induction false} ControlOrData(es: seq<Emission>)
    ensures CountIf(es, IsControl) + CountIf(es, IsData) == |es|
  {
    if es != [] {
      hide KindOf;
      ControlOrData(es[..|es| - 1]);
    }
  }

  /** In every run: one RTT sample per answered PING, and the sum within the recorded extremes. */
  lemma ProbeAccounting(cfg: Config, role: Role, isn: u32, connId: u32, actions: seq<Action>)
    ensures var s := Reached(cfg, role, isn, connId, actions).session;
      && s.stats.pingsSent == s.stats.rttCount + Count(s.tx.flags.probe.pingOutstanding)
      && !(s.tx.flags.probe.pingPending && s.tx.flags.probe.pingOutstanding)
      && RttBounds(s.stats)
  {
    ReachedInv(cfg, role, isn, connId, actions);
  }
}
