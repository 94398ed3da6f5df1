/**
 * A handshake in which nothing is lost, followed by the client's first reliable request. Both sides become
 * Established for every pair of initial numbers. The request is delivered for every client
 * initial number but one: 2^32 - 1 makes the server's expected number 0, which it takes for "not started", and
 * the number 0 of the client's pure ACK then passes for the request's.
 */
module FirstContact {
  import opened Protocol
  import opened Codec
  import opened SessionTypes
  import opened ConnectionStateMachine
  import opened SessionSpec
  import Tx = TxSpec
  import Rx = RxSpec
  import opened Bits
  import opened RxWindow
  import opened Handshake

  /** The session takes in what the other side's poll produced. */
  function Take(cfg: Config, s: SessionState, o: Tx.Outcome, now: nat): SessionState {
    if Tx.Datagram(o).Some? then OnDatagram(cfg, s, Tx.Datagram(o).value, now) else s
  }

  datatype Pair = Pair(client: SessionState, server: SessionState)

  /** When each poll and each arrival of the exchange happens. */
  datatype Times = Times(syn: nat, synHeard: nat, synAck: nat, synAckHeard: nat,
                         ack: nat, ackHeard: nat, request: nat, requestHeard: nat)

  /** The client polls before its idle timeout and its keepalive interval are over. */
  predicate Prompt(cfg: Config, heard: nat, now: nat) {
    now < heard + cfg.idleTimeout && now < heard + cfg.keepaliveIdle
  }

  /** SYN, SYN-ACK and ACK. */
  function Shake(cfg: Config, clientIsn: u32, serverIsn: u32, id: u32, t: Times): Pair {
    var syn := PollTx(cfg, InitialSession(Client, clientIsn, 0), t.syn);
    var synAck := PollTx(cfg, Take(cfg, InitialSession(Server, serverIsn, id), syn.outcome, t.synHeard), t.synAck);
    var ack := PollTx(cfg, Take(cfg, syn.session, synAck.outcome, t.synAckHeard), t.ack);
    Pair(ack.session, Take(cfg, synAck.session, ack.outcome, t.ackHeard))
  }

  /** The client queues a request, and what its next poll produces is delivered. */
  function Send(cfg: Config, pair: Pair, r: SendRequest, t: Times): Pair {
    var polled := PollTx(cfg, QueueSend(pair.client, r), t.request);
    Pair(polled.session, Take(cfg, pair.server, polled.outcome, t.requestHeard))
  }

  function SynAckPacket(clientIsn: u32, serverIsn: u32, id: u32): Packet {
    Packet(MakeHeader(id, serverIsn, Inc(clientIsn), 0, 0, UNRELIABLE, SYN_ACK), [])
  }

  function AckPacket(clientIsn: u32, serverIsn: u32, id: u32): Packet {
    Packet(MakeHeader(id, 0, Inc(serverIsn), 0, 0, UNRELIABLE, ACK), [])
  }

  function DataPacket(clientIsn: u32, serverIsn: u32, id: u32, r: SendRequest): Packet {
    Packet(MakeHeader(id, Inc(clientIsn), Inc(serverIsn), 0, r.channelId, r.channelType, 0), r.payload)
  }

  // ----- the client -----

  predicate SynSent(c: SessionState, clientIsn: u32, now: nat) {
    && c.role == Client && c.connId == 0 && c.conn == HandshakeSent && c.rx == INITIAL_RX
    && c.tx == TxState(Inc(clientIsn), clientIsn, 0, [],
                       map[clientIsn := TxEntry(SynPacket(clientIsn), now, now, 0, 0, false)], NO_FLAGS)
  }

  /** Established, nothing in flight, nothing queued, no probe or acknowledgement pending. */
  predicate ClientReady(c: SessionState, clientIsn: u32, serverIsn: u32, id: u32, heard: nat, finalAck: bool) {
    && c.role == Client && c.connId == id && c.conn == Established
    && c.lastRxMs == heard && c.establishedSinceMs == heard
    && c.rx.nextExpected == Inc(serverIsn) && c.rx.receivedBits == 0
    && c.tx.nextSeq == Inc(clientIsn) && c.tx.remoteAck == Inc(clientIsn)
    && c.tx.pendingSend == [] && c.tx.inflight == map[]
    && c.tx.flags == NO_FLAGS.(finalAckPending := finalAck, finalAckLingerUntilMs := c.tx.flags.finalAckLingerUntilMs)
  }

  lemma SynGoesOut(cfg: Config, clientIsn: u32, now: nat)
    ensures var q := PollTx(cfg, InitialSession(Client, clientIsn, 0), now);
      q.outcome == Tx.Sent(SynPacket(clientIsn), Tx.Control) && SynSent(q.session, clientIsn, now)
  {
    assert ScheduledFlags(cfg, InitialSession(Client, clientIsn, 0), now) == NO_FLAGS;
  }

  lemma SynAckAccepted(cfg: Config, c: SessionState, clientIsn: u32, serverIsn: u32, id: u32, size: nat,
                       sent: nat, now: nat)
    requires SynSent(c, clientIsn, sent) && id != 0
    ensures var c' := OnPacket(cfg, c, SynAckPacket(clientIsn, serverIsn, id), size, now);
      ClientReady(c', clientIsn, serverIsn, id, now, true)
  {
    assert Classify(SYN_ACK) == KSynAck;
    hide Classify;
    assert Tx.IsAcked(clientIsn, Inc(clientIsn), 0);
    var p := SynAckPacket(clientIsn, serverIsn, id);
    var a := AfterAck(cfg, Admitted(c, p, size, now), KSynAck, p.header, now);
    assert a.tx.inflight == map[];
    assert a.conn == HandshakeSent;
  }

  lemma AckGoesOut(cfg: Config, c: SessionState, clientIsn: u32, serverIsn: u32, id: u32, heard: nat, now: nat)
    requires ClientReady(c, clientIsn, serverIsn, id, heard, true) && Prompt(cfg, heard, now)
    ensures var q := PollTx(cfg, c, now);
      && q.outcome == Tx.Sent(AckPacket(clientIsn, serverIsn, id), Tx.Control)
      && ClientReady(q.session, clientIsn, serverIsn, id, heard, false)
  {
    assert Classify(ACK) == KAck;
    assert ScheduledFlags(cfg, c, now) == c.tx.flags;
  }

  lemma DataGoesOut(cfg: Config, c: SessionState, clientIsn: u32, serverIsn: u32, id: u32, r: SendRequest,
                    heard: nat, now: nat)
    requires ClientReady(c, clientIsn, serverIsn, id, heard, false) && Prompt(cfg, heard, now)
    requires IsReliableChannel(r.channelType)
    ensures PollTx(cfg, QueueSend(c, r), now).outcome == Tx.Sent(DataPacket(clientIsn, serverIsn, id, r), Tx.Fresh)
  {
    var s := QueueSend(c, r);
    assert s.tx.pendingSend == [r];
    assert ScheduledFlags(cfg, s, now) == s.tx.flags;
    assert Tx.Serviceable(cfg, s.tx.inflight, now) == {};
  }

  // ----- a burst of requests -----

  /** The client's `k`-th request after the handshake. */
  function Request(clientIsn: u32, serverIsn: u32, id: u32, r: SendRequest, k: nat): Packet {
    Packet(MakeHeader(id, Add(clientIsn, 1 + k), Inc(serverIsn), 0, r.channelId, r.channelType, 0), r.payload)
  }

  /** Nothing is due or exhausted at the moment it is sent. */
  predicate Rests(cfg: Config) { cfg.initialRto > 0 && cfg.maxRto > 0 && cfg.maxRetransmit > 0 }

  predicate Resting(e: TxEntry, now: nat) { e.lastSendMs == now && e.retryCount == 0 && !e.fastRetxPending }

  /** Established, with the first `k` requests in flight since `now`. */
  ghost predicate Flying(c: SessionState, clientIsn: u32, serverIsn: u32, id: u32, heard: nat, now: nat, k: nat) {
    && c.role == Client && c.connId == id && c.conn == Established
    && c.lastRxMs == heard && c.establishedSinceMs == heard
    && c.rx.nextExpected == Inc(serverIsn) && c.rx.receivedBits == 0
    && c.tx.nextSeq == Add(clientIsn, 1 + k) && c.tx.remoteAck == Add(clientIsn, 1) && c.tx.pendingSend == []
    && (forall s: u32 :: s in c.tx.inflight <==> 1 <= Diff(s, clientIsn) <= k)
    && (forall s :: s in c.tx.inflight ==> Resting(c.tx.inflight[s], now))
    && c.tx.flags == NO_FLAGS.(finalAckLingerUntilMs := c.tx.flags.finalAckLingerUntilMs)
  }

  lemma ReadyFlies(c: SessionState, clientIsn: u32, serverIsn: u32, id: u32, heard: nat, now: nat)
    requires ClientReady(c, clientIsn, serverIsn, id, heard, false)
    ensures Flying(c, clientIsn, serverIsn, id, heard, now, 0)
  {
    AddZero(clientIsn);
    AddInc(clientIsn, 0);
  }

  /** With fewer than 64 requests in flight the next one goes out at once. */
  lemma RequestGoesOut(cfg: Config, c: SessionState, clientIsn: u32, serverIsn: u32, id: u32, r: SendRequest,
                       heard: nat, now: nat, k: nat)
    requires k < 64 && IsReliableChannel(r.channelType) && Rests(cfg) && Prompt(cfg, heard, now)
    requires Flying(c, clientIsn, serverIsn, id, heard, now, k)
    ensures var q := PollTx(cfg, QueueSend(c, r), now);
      && q.outcome == Tx.Sent(Request(clientIsn, serverIsn, id, r, k), Tx.Fresh)
      && Flying(q.session, clientIsn, serverIsn, id, heard, now, k + 1)
  {
    hide Add, Diff, Inc;
    RequestNumber(clientIsn, k);
    var s := QueueSend(c, r);
    assert s.tx.pendingSend == [r];
    assert ScheduledFlags(cfg, s, now) == s.tx.flags;
    assert Tx.Serviceable(cfg, s.tx.inflight, now) == {} by {
      assert forall x :: x in s.tx.inflight ==> Resting(s.tx.inflight[x], now);
    }
    assert Classify(0) == KNone;
    hide Classify;
  }

  lemma RequestNumber(clientIsn: u32, k: nat)
    requires k < 64
    ensures Diff(Add(clientIsn, 1 + k), Add(clientIsn, 1)) == k
    ensures Inc(Add(clientIsn, 1 + k)) == Add(clientIsn, 1 + (k + 1))
    ensures forall x: u32 :: Diff(x, clientIsn) == k + 1 <==> x == Add(clientIsn, 1 + k)
  {
    AddDiff(clientIsn, 1, 1 + k);
    AddIndex(clientIsn, 1 + k);
    AddInc(clientIsn, 1 + k);
    forall x: u32 ensures Diff(x, clientIsn) == k + 1 <==> x == Add(clientIsn, 1 + k) { DiffAdd(clientIsn, x); }
  }

  // ----- the server -----

  predicate SynReceived(s: SessionState, clientIsn: u32, serverIsn: u32, id: u32) {
    && s.role == Server && s.connId == id && s.conn == HandshakeReceived
    && s.rx == INITIAL_RX.(nextExpected := Inc(clientIsn))
    && s.tx == InitialTx(serverIsn).(flags := NO_FLAGS.(synAckPending := true))
  }

  predicate SynAckSent(s: SessionState, clientIsn: u32, serverIsn: u32, id: u32) {
    && s.role == Server && s.connId == id && s.conn == HandshakeReceived
    && s.rx == INITIAL_RX.(nextExpected := Inc(clientIsn))
    && s.tx.pendingSend == [] && s.tx.flags == NO_FLAGS && s.tx.inflight.Keys == {serverIsn}
    && s.tx.nextSeq == Inc(serverIsn)
  }

  /** Established; the receiver has met the client's SYN and the number 0 of its ACK. */
  predicate ServerReady(s: SessionState, clientIsn: u32, serverIsn: u32, id: u32, heard: nat) {
    && s.role == Server && s.connId == id && s.conn == Established && s.lastRxMs == heard
    && s.tx.nextSeq == Inc(serverIsn) && s.tx.remoteAck == Inc(serverIsn)
    && s.tx.pendingSend == [] && s.tx.flags == NO_FLAGS && s.tx.inflight == map[]
    && s.rx == Rx.Arrive(INITIAL_RX.(nextExpected := Inc(clientIsn)), 0).rx.(events := s.rx.events)
    && forall e :: e in s.rx.events ==> e.kind != DataReceived
  }

  lemma SynAccepted(cfg: Config, clientIsn: u32, serverIsn: u32, id: u32, size: nat, now: nat)
    requires id != 0
    ensures var s := OnPacket(cfg, InitialSession(Server, serverIsn, id), SynPacket(clientIsn), size, now);
      SynReceived(s, clientIsn, serverIsn, id)
  {
    assert Classify(SYN) == KSyn;
    hide Classify;
  }

  lemma SynAckGoesOut(cfg: Config, s: SessionState, clientIsn: u32, serverIsn: u32, id: u32, now: nat)
    requires SynReceived(s, clientIsn, serverIsn, id)
    ensures var q := PollTx(cfg, s, now);
      && q.outcome == Tx.Sent(SynAckPacket(clientIsn, serverIsn, id), Tx.Control)
      && SynAckSent(q.session, clientIsn, serverIsn, id)
  {
    assert Classify(SYN_ACK) == KSynAck;
    assert ScheduledFlags(cfg, s, now) == s.tx.flags;
  }

  lemma AckAccepted(cfg: Config, s: SessionState, clientIsn: u32, serverIsn: u32, id: u32, size: nat, now: nat)
    requires SynAckSent(s, clientIsn, serverIsn, id) && id != 0
    ensures ServerReady(OnPacket(cfg, s, AckPacket(clientIsn, serverIsn, id), size, now), clientIsn, serverIsn, id, now)
  {
    assert Classify(ACK) == KAck;
    assert Tx.IsAcked(serverIsn, Inc(serverIsn), 0);
    hide Classify, Rx.Arrive, Tx.FinAcked;
    var p := AckPacket(clientIsn, serverIsn, id);
    var a := AfterAck(cfg, Admitted(s, p, size, now), KAck, p.header, now);
    assert a.tx.inflight == map[];
  }

  /** The event that hands out the request under the number `n`. */
  function EventOf(n: u32, r: SendRequest): Event {
    Event(DataReceived, n, r.channelId, r.channelType, r.payload, NoError)
  }

  predicate Delivered(s: SessionState, n: u32, r: SendRequest) { EventOf(n, r) in s.rx.events }

  // ----- the request at the server -----

  /** A data packet with the right id goes to the receiver and changes nothing else of the connection. */
  lemma DataReaches(cfg: Config, s: SessionState, p: Packet, size: nat, now: nat)
    requires s.role == Server && s.conn in {HandshakeReceived, Established}
    requires p.header.connId == s.connId && p.header.flags == 0
    ensures var s' := OnPacket(cfg, s, p, size, now);
      && s'.rx == Rx.OnPacket(s.rx, p, KNone).rx
      && s'.role == Server && s'.connId == s.connId && s'.conn == s.conn
  {
    assert Classify(0) == KNone;
    hide Classify, Rx.OnPacket, Rx.Arrive, Tx.OnRemoteAck, Tx.FinAcked, ReceiveFlags;
    var m := AfterAck(cfg, Admitted(s, p, size, now), KNone, p.header, now);
    assert m.rx == s.rx && m.role == Server && m.conn == s.conn;
    hide AfterAck;
    assert m.rx.events + DecisionEvents(NO_DECISION, p.header) == m.rx.events;
    assert ApplyDecision(m, p.header, NO_DECISION).rx == m.rx;
  }

  /** The window of a server that is ready: just after the SYN, or past the request when the numbers wrap. */
  lemma ReadyWindow(clientIsn: u32)
    ensures var w := Rx.Arrive(INITIAL_RX.(nextExpected := Inc(clientIsn)), 0).rx;
      && w == INITIAL_RX.(nextExpected := w.nextExpected, receivedBits := w.receivedBits)
      && w.nextExpected == (if clientIsn == 0xFFFF_FFFF then 1 else Inc(clientIsn))
      && (clientIsn == 0xFFFF_FFFF ==> w.receivedBits == 0)
  {
    hide Rx.SetReceived;
    var started := INITIAL_RX.(nextExpected := Inc(clientIsn));
    if clientIsn == 0xFFFF_FFFF {
      AdvanceEffect(started);
      assert Rx.Advance(started) == started.(nextExpected := 1);
    }
  }

  /** The expected number is accepted and acknowledged. */
  lemma ExpectedAccepted(rx: RxState)
    ensures var a := Rx.Arrive(rx, rx.nextExpected);
      && a.accepted && Tx.IsAcked(rx.nextExpected, a.rx.nextExpected, a.rx.receivedBits)
      && a.rx == rx.(nextExpected := a.rx.nextExpected, receivedBits := a.rx.receivedBits)
  {
    AdvanceEffect(rx);
    Pow2_64();
    TrailingOnesBound(rx.receivedBits, 64);
    hide Add, TrailingOnes, Shift, Pow2, Rx.Advance;
    AddZero(rx.nextExpected);
    SerialComparison(rx.nextExpected, 0, 1 + TrailingOnes(rx.receivedBits));
  }

  /** An empty stream hands out its first reliable packet at once. */
  lemma FirstDelivered(rx: RxState, p: Packet)
    requires !rx.orderedStarted && rx.reorder == map[] && IsReliableChannel(p.header.channelType)
    ensures Rx.Deliver(rx, p).events == rx.events + [Rx.DataEvent(p)]
    ensures var d := Rx.Deliver(rx, p); d.nextExpected == rx.nextExpected && d.receivedBits == rx.receivedBits
  {
    if p.header.channelType == RELIABLE_ORDERED {
      var s := p.header.seqNo;
      var stored := Rx.StartOrdered(rx, s).(reorder := map[s := p]);
      var drained := Rx.Emit(stored, Rx.DataEvent(p)).(reorder := map[], nextOrdered := Inc(s));
      assert stored.reorder - {s} == map[];
      assert Rx.Drain(drained) == drained;
      assert Rx.Drain(stored) == drained;
    }
  }

  lemma RequestMeetsReceiver(rx: RxState, clientIsn: u32, serverIsn: u32, id: u32, r: SendRequest)
    requires rx == Rx.Arrive(INITIAL_RX.(nextExpected := Inc(clientIsn)), 0).rx.(events := rx.events)
    requires IsReliableChannel(r.channelType)
    ensures var p := DataPacket(clientIsn, serverIsn, id, r);
      var rx' := Rx.OnPacket(rx, p, KNone).rx;
      && rx'.events == (if clientIsn == 0xFFFF_FFFF then rx.events else rx.events + [Rx.DataEvent(p)])
      && Tx.IsAcked(Inc(clientIsn), rx'.nextExpected, rx'.receivedBits)
  {
    ReadyWindow(clientIsn);
    var p := DataPacket(clientIsn, serverIsn, id, r);
    if clientIsn != 0xFFFF_FFFF {
      ExpectedAccepted(rx);
      hide Rx.Arrive, Rx.Deliver, Tx.IsAcked;
      FirstDelivered(Rx.Arrive(rx, rx.nextExpected).rx, p);
    } else {
      hide Rx.Advance, Rx.Deliver, Rx.SetReceived;
    }
  }

  // ----- the whole exchange -----

  lemma TakeSent(cfg: Config, s: SessionState, p: Packet, lane: Tx.Lane, now: nat)
    requires IsValidHeader(p.header)
    ensures Take(cfg, s, Tx.Sent(p, lane), now) == OnPacket(cfg, s, p, |Encode(p)|, now)
  {
    hide OnPacket, Decode, Encode;
    DecodeEncode(p);
  }

  lemma ShakeEstablishes(cfg: Config, clientIsn: u32, serverIsn: u32, id: u32, t: Times)
    requires id != 0 && Prompt(cfg, t.synAckHeard, t.ack)
    ensures var pair := Shake(cfg, clientIsn, serverIsn, id, t);
      && ClientReady(pair.client, clientIsn, serverIsn, id, t.synAckHeard, false)
      && ServerReady(pair.server, clientIsn, serverIsn, id, t.ackHeard)
  {
    hide PollTx, OnPacket, Take, SynSent, ClientReady, SynReceived, SynAckSent, ServerReady;
    var server := InitialSession(Server, serverIsn, id);
    SynGoesOut(cfg, clientIsn, t.syn);
    TakeSent(cfg, server, SynPacket(clientIsn), Tx.Control, t.synHeard);
    SynAccepted(cfg, clientIsn, serverIsn, id, |Encode(SynPacket(clientIsn))|, t.synHeard);
    var syn := PollTx(cfg, InitialSession(Client, clientIsn, 0), t.syn);
    var accepted := Take(cfg, server, syn.outcome, t.synHeard);
    SynAckGoesOut(cfg, accepted, clientIsn, serverIsn, id, t.synAck);
    var synAck := PollTx(cfg, accepted, t.synAck);
    var p := SynAckPacket(clientIsn, serverIsn, id);
    TakeSent(cfg, syn.session, p, Tx.Control, t.synAckHeard);
    SynAckAccepted(cfg, syn.session, clientIsn, serverIsn, id, |Encode(p)|, t.syn, t.synAckHeard);
    var connected := Take(cfg, syn.session, synAck.outcome, t.synAckHeard);
    AckGoesOut(cfg, connected, clientIsn, serverIsn, id, t.synAckHeard, t.ack);
    var q := AckPacket(clientIsn, serverIsn, id);
    TakeSent(cfg, synAck.session, q, Tx.Control, t.ackHeard);
    AckAccepted(cfg, synAck.session, clientIsn, serverIsn, id, |Encode(q)|, t.ackHeard);
  }

  /**
   * After a handshake without loss both sides are Established with the server's id. The first reliable request is
   * then delivered if and only if the client's initial number is not 2^32 - 1; either way the server acknowledges it,
   * so in the exceptional case it is lost without a trace. The times are any at which the client's two last polls
   * are prompt.
   */
  lemma FirstRequest(cfg: Config, clientIsn: u32, serverIsn: u32, id: u32, r: SendRequest, t: Times)
    requires id != 0 && IsReliableChannel(r.channelType)
    requires Prompt(cfg, t.synAckHeard, t.ack) && Prompt(cfg, t.synAckHeard, t.request)
    ensures var pair := Shake(cfg, clientIsn, serverIsn, id, t);
      var sent := Send(cfg, pair, r, t);
      && pair.client.conn == Established && pair.client.connId == id && pair.server.conn == Established
      && (Delivered(sent.server, Inc(clientIsn), r) <==> clientIsn != 0xFFFF_FFFF)
      && Tx.IsAcked(Inc(clientIsn), sent.server.rx.nextExpected, sent.server.rx.receivedBits)
  {
    hide PollTx, OnPacket, Take, Shake, Rx.Arrive, Rx.OnPacket, Tx.IsAcked, ServerReady, ClientReady;
    ShakeEstablishes(cfg, clientIsn, serverIsn, id, t);
    var pair := Shake(cfg, clientIsn, serverIsn, id, t);
    var p := DataPacket(clientIsn, serverIsn, id, r);
    DataGoesOut(cfg, pair.client, clientIsn, serverIsn, id, r, t.synAckHeard, t.request);
    TakeSent(cfg, pair.server, p, Tx.Fresh, t.requestHeard);
    ReadyFacts(pair, clientIsn, serverIsn, id, t);
    DataReaches(cfg, pair.server, p, |Encode(p)|, t.requestHeard);
    RequestMeetsReceiver(pair.server.rx, clientIsn, serverIsn, id, r);
    var events := Send(cfg, pair, r, t).server.rx.events;
    if clientIsn != 0xFFFF_FFFF {
      assert events[|events| - 1] == Rx.DataEvent(p);
    }
  }

  lemma ReadyFacts(pair: Pair, clientIsn: u32, serverIsn: u32, id: u32, t: Times)
    requires ClientReady(pair.client, clientIsn, serverIsn, id, t.synAckHeard, false)
    requires ServerReady(pair.server, clientIsn, serverIsn, id, t.ackHeard)
    ensures pair.client.conn == Established && pair.client.connId == id
    ensures pair.server.role == Server && pair.server.connId == id && pair.server.conn == Established
    ensures var rx := pair.server.rx;
      rx == Rx.Arrive(INITIAL_RX.(nextExpected := Inc(clientIsn)), 0).rx.(events := rx.events)
    ensures forall e :: e in pair.server.rx.events ==> e.kind != DataReceived
  {
    hide Rx.Arrive;
  }
}
