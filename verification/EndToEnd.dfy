/**
 * Two sessions joined by a network that may drop, duplicate and reorder datagrams but not forge
 * them: a datagram can be delivered to one side, any number of times and at any later time, if
 * the other side emitted it.
 *
 * In every run in which fewer than 2^32 reliable numbers are assigned in a direction, the ordered
 * payloads handed out at the far end are, in order and without gap, repeat or alteration, those
 * assigned to one contiguous range of numbers.
 */
module EndToEnd {
  import opened Protocol
  import opened Codec
  import opened SessionTypes
  import opened ConnectionStateMachine
  import opened SessionSpec
  import opened SessionRuns
  import opened SessionHistory
  import Life = SessionLifecycle
  import Tx = TxSpec
  import Rx = RxSpec
  import RxWindow
  import Sender = TxRuns

  datatype System = System(client: History, server: History)

  datatype SystemAction = ClientDoes(a: Action) | ServerDoes(a: Action)

  predicate WasEmitted(h: History, bytes: seq<u8>) {
    exists e :: e in h.emitted && e.bytes == bytes
  }

  predicate Enabled(sys: System, act: SystemAction) {
    act.a.Receive? ==> WasEmitted(if act.ClientDoes? then sys.server else sys.client, act.a.bytes)
  }

  ghost function SystemStep(cfg: Config, sys: System, act: SystemAction): System {
    match act
    case ClientDoes(a) => sys.(client := Advance(cfg, sys.client, a))
    case ServerDoes(a) => sys.(server := Advance(cfg, sys.server, a))
  }

  /** The server session carries the connection id it was assigned. */
  function SystemStart(clientIsn: u32, serverIsn: u32, connId: u32): System {
    System(SessionHistory.Start(Client, clientIsn, 0), SessionHistory.Start(Server, serverIsn, connId))
  }

  ghost function SystemRun(cfg: Config, sys: System, acts: seq<SystemAction>): System
    decreases |acts|
  {
    if acts == [] then sys else SystemStep(cfg, SystemRun(cfg, sys, acts[..|acts| - 1]), acts[|acts| - 1])
  }

  ghost predicate Admissible(cfg: Config, sys: System, acts: seq<SystemAction>) {
    forall i :: 0 <= i < |acts| ==> Enabled(SystemRun(cfg, sys, acts[..i]), acts[i])
  }

  // ----- the sending side -----

  ghost predicate EmitsGenuine(x: History) {
    forall e :: e in x.emitted ==> Decode(e.bytes).Some? && Sender.Genuine(x.log, Decode(e.bytes).value)
  }

  lemma LogGrows(cfg: Config, x: History, a: Action)
    ensures var x' := Advance(cfg, x, a); x'.log.isn == x.log.isn && x.log.issued <= x'.log.issued
  {
    hide Sender.Run, SessionRuns.Step, TxTrace, MidConn;
    Sender.RunExtendsLog(cfg, x.Sending(), TxTrace(cfg, x.session, a));
  }

  lemma GenuineStays(log: Sender.TxLog, log': Sender.TxLog, p: Packet)
    requires Sender.Genuine(log, p) && log'.isn == log.isn && log.issued <= log'.issued
    ensures Sender.Genuine(log', p)
  {
  }

  lemma PollEmitsGenuine(cfg: Config, x: History, now: nat)
    requires Sender.Inv(cfg, x.Sending())
    requires |LogOf(cfg, x.session.tx, x.log, PollTrace(cfg, x.session, now)).issued| < 0x1_0000_0000
    ensures var o := PollTx(cfg, x.session, now).outcome;
      o.Sent? ==> Sender.Genuine(LogOf(cfg, x.session.tx, x.log, PollTrace(cfg, x.session, now)), o.packet)
  {
    hide Sender.Inv, Tx.Poll, ScheduledFlags, AfterPoll, Sender.LogPoll, Sender.Genuine;
    var s := x.session;
    if !ShouldTimeout(cfg, s, now) {
      var t := PollTrace(cfg, s, now);
      RunThree(cfg, x.Sending(), t[0], t[1], t[2]);
      Sender.StepKeeps(cfg, x.Sending(), t[0]);
      Sender.PollSendsGenuine(cfg, Sender.Step(cfg, x.Sending(), t[0]), t[1]);
    }
  }

  lemma EmissionKeeps(cfg: Config, x: History, a: Action)
    requires Sender.Inv(cfg, x.Sending()) && EmitsGenuine(x)
    requires |Advance(cfg, x, a).log.issued| < 0x1_0000_0000
    ensures EmitsGenuine(Advance(cfg, x, a))
  {
    hide Sender.Inv, Sender.Run, SessionRuns.Step, PollTrace, MidConn, PollTx, Decode, Encode, Sender.Genuine, Visit;
    LogGrows(cfg, x, a);
    var x' := Advance(cfg, x, a);
    forall e | e in x'.emitted
      ensures Decode(e.bytes).Some? && Sender.Genuine(x'.log, Decode(e.bytes).value)
    {
      if e in x.emitted {
        GenuineStays(x.log, x'.log, Decode(e.bytes).value);
      } else {
        var o := PollTx(cfg, x.session, a.now).outcome;
        PollEmitsGenuine(cfg, x, a.now);
        PolledPacket(cfg, x, a.now);
        DecodeEncode(o.packet);
      }
    }
  }

  // ----- the receiving side -----

  predicate IsOrdered(e: Event) { e.kind == DataReceived && e.channelType == RELIABLE_ORDERED }

  /** The ordered deliveries among the events. */
  function Ordered(events: seq<Event>): seq<Event> {
    if events == [] then []
    else
      var last := events[|events| - 1];
      Ordered(events[..|events| - 1]) + if IsOrdered(last) then [last] else []
  }

  lemma {:induction false} OrderedAppend(xs: seq<Event>, ys: seq<Event>)
    ensures Ordered(xs + ys) == Ordered(xs) + Ordered(ys)
  {
    if ys == [] {
      assert xs + ys == xs;
    } else {
      OrderedAppend(xs, ys[..|ys| - 1]);
      assert (xs + ys)[..|xs + ys| - 1] == xs + ys[..|ys| - 1];
    }
  }

  lemma {:induction false} NoneOrdered(xs: seq<Event>)
    requires forall e :: e in xs ==> !IsOrdered(e)
    ensures Ordered(xs) == []
  {
    if xs != [] { NoneOrdered(xs[..|xs| - 1]); }
  }

  lemma OrderedLast(xs: seq<Event>, e: Event)
    ensures Ordered(xs + [e]) == Ordered(xs) + if IsOrdered(e) then [e] else []
  {
  }

  /** The event hands out the content assigned to a number. */
  predicate Hands(e: Event, p: Packet) {
    && e.kind == DataReceived && e.seqNo == p.header.seqNo && e.channelId == p.header.channelId
    && e.channelType == p.header.channelType && e.payload == p.payload
  }

  ghost predicate BufferGenuine(rx: RxState, log: Sender.TxLog) {
    forall s :: s in rx.reorder ==>
      && rx.reorder[s].header.seqNo == s && rx.reorder[s].header.channelType == RELIABLE_ORDERED
      && Sender.Genuine(log, rx.reorder[s])
  }

  /** `handed`, the ordered deliveries so far, are the contents of the numbers just before the delivery front. */
  ghost predicate HandedRange(rx: RxState, handed: seq<Event>, log: Sender.TxLog) {
    if !rx.orderedStarted then handed == []
    else
      var top := Diff(rx.nextOrdered, log.isn);
      && |handed| <= top <= |log.issued|
      && forall j :: 0 <= j < |handed| ==> Hands(handed[j], log.issued[top - |handed| + j])
  }

  /** One delivery at the front extends the range by the next number. */
  lemma HandsNext(rx: RxState, rx': RxState, handed: seq<Event>, log: Sender.TxLog)
    requires |log.issued| < 0x1_0000_0000 && rx.orderedStarted && rx'.orderedStarted
    requires BufferGenuine(rx, log) && HandedRange(rx, handed, log)
    requires rx.nextOrdered in rx.reorder && rx'.nextOrdered == Inc(rx.nextOrdered)
    ensures HandedRange(rx', handed + [Rx.DataEvent(rx.reorder[rx.nextOrdered])], log)
  {
    var p := rx.reorder[rx.nextOrdered];
    var e := Rx.DataEvent(p);
    var top := Diff(rx.nextOrdered, log.isn);
    assert Tx.IsNumbered(p);
    assert Hands(e, log.issued[top]);
    hide Sender.Genuine, BufferGenuine, Hands;
    assert Diff(rx'.nextOrdered, log.isn) == top + 1;
    forall j | 0 <= j < |handed| + 1
      ensures Hands((handed + [e])[j], log.issued[top + 1 - (|handed| + 1) + j])
    {
      if j < |handed| { assert (handed + [e])[j] == handed[j]; }
    }
  }

  lemma {:induction false} DrainHands(rx: RxState, past: seq<Event>, log: Sender.TxLog)
    requires |log.issued| < 0x1_0000_0000 && rx.orderedStarted
    requires BufferGenuine(rx, log) && HandedRange(rx, Ordered(past + rx.events), log)
    ensures var d := Rx.Drain(rx); BufferGenuine(d, log) && HandedRange(d, Ordered(past + d.events), log)
    decreases |rx.reorder|
  {
    if rx.nextOrdered in rx.reorder {
      var e := Rx.DataEvent(rx.reorder[rx.nextOrdered]);
      var rest := rx.reorder - {rx.nextOrdered};
      assert rest.Keys == rx.reorder.Keys - {rx.nextOrdered};
      assert |rest| == |rest.Keys| && |rx.reorder| == |rx.reorder.Keys|;
      var rx' := Rx.Emit(rx, e).(reorder := rest, nextOrdered := Inc(rx.nextOrdered));
      assert past + rx'.events == (past + rx.events) + [e];
      OrderedLast(past + rx.events, e);
      hide Ordered, Sender.Genuine, HandedRange;
      HandsNext(rx, rx', Ordered(past + rx.events), log);
      DrainHands(rx', past, log);
    }
  }

  lemma OrderedHands(rx: RxState, p: Packet, past: seq<Event>, log: Sender.TxLog)
    requires |log.issued| < 0x1_0000_0000 && Sender.Genuine(log, p) && p.header.channelType == RELIABLE_ORDERED
    requires BufferGenuine(rx, log) && HandedRange(rx, Ordered(past + rx.events), log)
    ensures var d := Rx.HandleOrdered(rx, p); BufferGenuine(d, log) && HandedRange(d, Ordered(past + d.events), log)
  {
    var o := Rx.StartOrdered(rx, p.header.seqNo);
    assert Tx.IsNumbered(p);
    hide Ordered, Rx.Drain, Tx.IsNumbered;
    var filled := o.(reorder := o.reorder[p.header.seqNo := p]);
    assert HandedRange(filled, Ordered(past + filled.events), log);
    DrainHands(filled, past, log);
  }

  /** Everything the receiver does with a genuine packet keeps the range. */
  lemma DeliverHands(rx: RxState, p: Packet, past: seq<Event>, log: Sender.TxLog)
    requires |log.issued| < 0x1_0000_0000 && Sender.Genuine(log, p)
    requires BufferGenuine(rx, log) && HandedRange(rx, Ordered(past + rx.events), log)
    ensures var d := Rx.Deliver(rx, p); BufferGenuine(d, log) && HandedRange(d, Ordered(past + d.events), log)
  {
    hide Ordered, Sender.Genuine, Rx.HandleOrdered;
    if p.header.channelType == RELIABLE_ORDERED {
      OrderedHands(rx, p, past, log);
    } else {
      OrderedLast(past + rx.events, Rx.DataEvent(p));
      assert past + (rx.events + [Rx.DataEvent(p)]) == (past + rx.events) + [Rx.DataEvent(p)];
      var d := Rx.Deliver(rx, p);
      assert d == rx.(events := d.events, monotonic := d.monotonic);
      assert Ordered(past + d.events) == Ordered(past + rx.events);
    }
  }

  lemma RxHands(rx: RxState, p: Packet, kind: ControlKind, past: seq<Event>, log: Sender.TxLog)
    requires |log.issued| < 0x1_0000_0000 && Sender.Genuine(log, p)
    requires BufferGenuine(rx, log) && HandedRange(rx, Ordered(past + rx.events), log)
    ensures var d := Rx.OnPacket(rx, p, kind).rx; BufferGenuine(d, log) && HandedRange(d, Ordered(past + d.events), log)
  {
    RxWindow.ArriveFrame(rx, p.header.seqNo);
    hide Rx.Arrive;
    var u := Rx.UpdateReceiveState(rx, p.header, kind).rx;
    assert u == rx.(nextExpected := u.nextExpected, receivedBits := u.receivedBits);
    hide Rx.UpdateReceiveState, Rx.Deliver, Ordered, Sender.Genuine;
    DeliverHands(Rx.UpdateReceiveState(rx, p.header, kind).rx, p, past, log);
  }

  lemma SameDelivery(rx: RxState, rx': RxState, handed: seq<Event>, log: Sender.TxLog)
    requires BufferGenuine(rx, log) && HandedRange(rx, handed, log) && rx' == rx.(events := rx'.events)
    ensures BufferGenuine(rx', log) && HandedRange(rx', handed, log)
  {
  }

  /** Control events do not count as deliveries. */
  lemma ControlHands(rx: RxState, added: seq<Event>, past: seq<Event>, log: Sender.TxLog)
    requires forall e :: e in added ==> e.kind != DataReceived
    requires BufferGenuine(rx, log) && HandedRange(rx, Ordered(past + rx.events), log)
    ensures var rx' := rx.(events := rx.events + added);
      BufferGenuine(rx', log) && HandedRange(rx', Ordered(past + rx'.events), log)
  {
    hide Ordered, BufferGenuine, HandedRange;
    NoneOrdered(added);
    OrderedAppend(past + rx.events, added);
    assert past + (rx.events + added) == (past + rx.events) + added;
    assert Ordered(past + rx.events) + [] == Ordered(past + rx.events);
    SameDelivery(rx, rx.(events := rx.events + added), Ordered(past + rx.events), log);
  }

  ghost predicate Receives(y: History, log: Sender.TxLog) {
    BufferGenuine(y.session.rx, log) && HandedRange(y.session.rx, Ordered(y.Events()), log)
  }

  lemma ReceiveHands(cfg: Config, s: SessionState, p: Packet, size: nat, now: nat, past: seq<Event>, log: Sender.TxLog)
    requires |log.issued| < 0x1_0000_0000 && Sender.Genuine(log, p)
    requires BufferGenuine(s.rx, log) && HandedRange(s.rx, Ordered(past + s.rx.events), log)
    ensures var rx' := OnPacket(cfg, s, p, size, now).rx;
      BufferGenuine(rx', log) && HandedRange(rx', Ordered(past + rx'.events), log)
  {
    hide BufferGenuine, HandedRange, Ordered, AfterAck, AfterDecision, Classify, Sender.Genuine, Rx.OnPacket, Decide;
    var a, kind := Admitted(s, p, size, now), Classify(p.header.flags);
    if IsProcessed(s, p) {
      var m := AfterAck(cfg, a, kind, p.header, now);
      Life.AfterAckConn(cfg, a, kind, p.header, now);
      ControlHands(s.rx, [ControlEvent(ConnectionClosed, p.header, NoError)], past, log);
      Life.AfterDecisionConn(cfg, m, p, now);
      var d := Decide(m.role, m.conn, kind);
      ControlHands(m.rx, [ControlEvent(Error, p.header, d.reason)], past, log);
      ControlHands(m.rx, DecisionEvents(d, p.header), past, log);
      RxHands(ApplyDecision(m, p.header, d).rx, p, kind, past, log);
    } else {
      ControlHands(s.rx, [Event(Error, 0, 0, UNRELIABLE, [], ConnIdMismatch)], past, log);
    }
  }

  lemma PollHands(cfg: Config, s: SessionState, now: nat, past: seq<Event>, log: Sender.TxLog)
    requires BufferGenuine(s.rx, log) && HandedRange(s.rx, Ordered(past + s.rx.events), log)
    ensures var rx' := PollTx(cfg, s, now).session.rx;
      BufferGenuine(rx', log) && HandedRange(rx', Ordered(past + rx'.events), log)
  {
    hide BufferGenuine, HandedRange, Ordered, TxPoll, Classify;
    ControlHands(s.rx, [Event(Error, 0, 0, UNRELIABLE, [], IdleTimeout)], past, log);
    ControlHands(s.rx, [Event(Error, 0, 0, UNRELIABLE, [], RetryLimit)], past, log);
  }

  /** Any step of the receiving side keeps the range, as long as what it receives was emitted. */
  lemma ReceptionKeeps(cfg: Config, y: History, a: Action, x: History)
    requires Receives(y, x.log) && EmitsGenuine(x) && |x.log.issued| < 0x1_0000_0000
    requires a.Receive? ==> WasEmitted(x, a.bytes)
    ensures Receives(Advance(cfg, y, a), x.log)
  {
    hide BufferGenuine, HandedRange, Ordered, PollTx, OnPacket, Decode, Sender.Genuine, TxTrace, MidConn, Visit;
    var s := y.session;
    match a {
      case PollAt(now) => PollHands(cfg, s, now, y.drained, x.log);
      case Receive(bytes, now) =>
        ReceiveHands(cfg, s, Decode(bytes).value, |bytes|, now, y.drained, x.log);
      case DrainAll =>
        assert Advance(cfg, y, a).Events() == y.Events();
        SameDelivery(s.rx, s.rx.(events := []), Ordered(y.Events()), x.log);
      case _ =>
    }
  }

  lemma GrowthKeeps(y: History, log: Sender.TxLog, log': Sender.TxLog)
    requires Receives(y, log) && log'.isn == log.isn && log.issued <= log'.issued
    ensures Receives(y, log')
  {
  }

  // ----- whole runs -----

  ghost predicate Sound(cfg: Config, sys: System) {
    && Sender.Inv(cfg, sys.client.Sending()) && Sender.Inv(cfg, sys.server.Sending())
    && EmitsGenuine(sys.client) && EmitsGenuine(sys.server)
    && Receives(sys.client, sys.server.log) && Receives(sys.server, sys.client.log)
  }

  /** Fewer than 2^32 reliable numbers have been assigned in each direction. */
  ghost predicate NotComeRound(sys: System) {
    |sys.client.log.issued| < 0x1_0000_0000 && |sys.server.log.issued| < 0x1_0000_0000
  }

  /** One side acts, the other waits. */
  lemma SideKeeps(cfg: Config, x: History, a: Action, y: History)
    requires Sender.Inv(cfg, x.Sending()) && EmitsGenuine(x) && EmitsGenuine(y)
    requires Receives(x, y.log) && Receives(y, x.log)
    requires |Advance(cfg, x, a).log.issued| < 0x1_0000_0000 && |y.log.issued| < 0x1_0000_0000
    requires a.Receive? ==> WasEmitted(y, a.bytes)
    ensures var x' := Advance(cfg, x, a);
      Sender.Inv(cfg, x'.Sending()) && EmitsGenuine(x') && Receives(x', y.log) && Receives(y, x'.log)
  {
    hide Sender.Inv, EmitsGenuine, Receives, Advance;
    SenderKeeps(cfg, x, a);
    EmissionKeeps(cfg, x, a);
    ReceptionKeeps(cfg, x, a, y);
    LogGrows(cfg, x, a);
    GrowthKeeps(y, x.log, Advance(cfg, x, a).log);
  }

  lemma AdmissiblePrefix(cfg: Config, sys: System, acts: seq<SystemAction>)
    requires acts != [] && Admissible(cfg, sys, acts)
    ensures Admissible(cfg, sys, acts[..|acts| - 1])
    ensures Enabled(SystemRun(cfg, sys, acts[..|acts| - 1]), acts[|acts| - 1])
  {
    hide SystemRun, Enabled;
    var front := acts[..|acts| - 1];
    forall i | 0 <= i < |front| ensures Enabled(SystemRun(cfg, sys, front[..i]), front[i]) {
      assert front[..i] == acts[..i] && Enabled(SystemRun(cfg, sys, acts[..i]), acts[i]);
    }
  }

  lemma StepIsSound(cfg: Config, sys: System, act: SystemAction)
    requires Sound(cfg, sys) && Enabled(sys, act) && NotComeRound(SystemStep(cfg, sys, act))
    ensures Sound(cfg, SystemStep(cfg, sys, act))
  {
    hide Sender.Inv, EmitsGenuine, Receives, Advance;
    match act {
      case ClientDoes(a) => SideKeeps(cfg, sys.client, a, sys.server);
      case ServerDoes(a) => SideKeeps(cfg, sys.server, a, sys.client);
    }
  }

  lemma StepNumbersGrow(cfg: Config, sys: System, act: SystemAction)
    requires NotComeRound(SystemStep(cfg, sys, act))
    ensures NotComeRound(sys)
  {
    hide Advance;
    LogGrows(cfg, sys.client, act.a);
    LogGrows(cfg, sys.server, act.a);
  }

  lemma {:induction false} RunsAreSound(cfg: Config, sys: System, acts: seq<SystemAction>)
    requires Sound(cfg, sys) && Admissible(cfg, sys, acts) && NotComeRound(SystemRun(cfg, sys, acts))
    ensures Sound(cfg, SystemRun(cfg, sys, acts))
    decreases |acts|
  {
    hide Sound, SystemStep, Enabled, Admissible, NotComeRound;
    if acts != [] {
      var front, act := acts[..|acts| - 1], acts[|acts| - 1];
      var before := SystemRun(cfg, sys, front);
      AdmissiblePrefix(cfg, sys, acts);
      StepNumbersGrow(cfg, before, act);
      RunsAreSound(cfg, sys, front);
      StepIsSound(cfg, before, act);
    }
  }

  lemma StartIsSound(cfg: Config, clientIsn: u32, serverIsn: u32, connId: u32)
    ensures Sound(cfg, SystemStart(clientIsn, serverIsn, connId))
  {
    Sender.InitialInv(cfg, clientIsn);
    Sender.InitialInv(cfg, serverIsn);
    hide Sender.Inv;
    var sys := SystemStart(clientIsn, serverIsn, connId);
    assert sys.client.Events() == [] && sys.server.Events() == [];
  }

  /** `handed` are the contents of the numbers `base .. base + |handed|` of `log`, all of them ordered data. */
  ghost predicate ContiguousRange(handed: seq<Event>, log: Sender.TxLog, base: nat) {
    && base + |handed| <= |log.issued|
    && forall j :: 0 <= j < |handed| ==>
      && Hands(handed[j], log.issued[base + j])
      && handed[j].seqNo == Add(log.isn, base + j)
      && log.issued[base + j].header.channelType == RELIABLE_ORDERED
  }

  lemma RangeIs(rx: RxState, handed: seq<Event>, log: Sender.TxLog) returns (base: nat)
    requires HandedRange(rx, handed, log) && forall e :: e in handed ==> IsOrdered(e)
    requires forall n: nat :: n < |log.issued| ==> log.issued[n].header.seqNo == Add(log.isn, n)
    ensures ContiguousRange(handed, log, base)
  {
    var top := Diff(rx.nextOrdered, log.isn);
    base := if rx.orderedStarted then top - |handed| else 0;
    forall j | 0 <= j < |handed|
      ensures Hands(handed[j], log.issued[base + j]) && handed[j].seqNo == Add(log.isn, base + j)
      ensures log.issued[base + j].header.channelType == RELIABLE_ORDERED
    {
      assert IsOrdered(handed[j]) && Hands(handed[j], log.issued[base + j]);
    }
    assert base + |handed| <= |log.issued|;
  }

  lemma RangeOf(cfg: Config, x: History, y: History) returns (base: nat)
    requires Sender.Inv(cfg, x.Sending()) && Receives(y, x.log)
    ensures ContiguousRange(Ordered(y.Events()), x.log, base)
  {
    hide Ordered, Add, HandedRange, Sender.Tracked, Sender.Conserved, Sender.Retries, ContiguousRange;
    AllOrdered(y.Events());
    forall n: nat | n < |x.log.issued| ensures x.log.issued[n].header.seqNo == Add(x.log.isn, n) {
      assert x.Sending().Number(n) == Add(x.log.isn, n);
    }
    base := RangeIs(y.session.rx, Ordered(y.Events()), x.log);
  }

  lemma {:induction false} AllOrdered(events: seq<Event>)
    ensures forall e :: e in Ordered(events) ==> IsOrdered(e)
  {
    if events != [] { AllOrdered(events[..|events| - 1]); }
  }

  /**
   * End-to-end ordered safety, in both directions: at every point of every admissible run, what a side
   * has handed out on ordered channels is the content the other side assigned to one contiguous range
   * of its sequence numbers.
   */
  lemma OrderedSafety(cfg: Config, clientIsn: u32, serverIsn: u32, connId: u32, acts: seq<SystemAction>)
    returns (atServer: nat, atClient: nat)
    requires Admissible(cfg, SystemStart(clientIsn, serverIsn, connId), acts)
    requires NotComeRound(SystemRun(cfg, SystemStart(clientIsn, serverIsn, connId), acts))
    ensures var sys := SystemRun(cfg, SystemStart(clientIsn, serverIsn, connId), acts);
      && ContiguousRange(Ordered(sys.server.Events()), sys.client.log, atServer)
      && ContiguousRange(Ordered(sys.client.Events()), sys.server.log, atClient)
  {
    StartIsSound(cfg, clientIsn, serverIsn, connId);
    RunsAreSound(cfg, SystemStart(clientIsn, serverIsn, connId), acts);
    hide SystemRun, Sender.Inv, Receives, EmitsGenuine;
    var sys := SystemRun(cfg, SystemStart(clientIsn, serverIsn, connId), acts);
    atServer := RangeOf(cfg, sys.client, sys.server);
    atClient := RangeOf(cfg, sys.server, sys.client);
  }
}
