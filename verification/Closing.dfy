/**
 * Closing a connection: one side asks to close, its FIN and the acknowledgement of that FIN are delivered. The closer
 * ends in Closed and the peer in Closing, and both report that the connection is closed.
 */
module Closing {
  import opened Protocol
  import opened Codec
  import opened SessionTypes
  import opened ConnectionStateMachine
  import opened SessionSpec
  import opened FirstContact
  import opened PollExact
  import opened ReceiveExact
  import opened Reliability
  import Runs = SessionRuns
  import Tx = TxSpec
  import Rx = RxSpec

  /** Established under `id`, with nothing to send and nothing in flight. */
  predicate AtRest(s: SessionState, id: u32) {
    var f := s.tx.flags;
    && s.conn == Established && s.connId == id && id != 0
    && s.tx.inflight == map[] && s.tx.pendingSend == [] && HasRoom(s.tx)
    && !f.finPending && !f.finalAckPending && !f.ackOnlyPending && !f.probe.pingPending && !f.probe.pongPending
  }

  /** The receiver acknowledges the number as soon as it arrives. */
  predicate AcksOnArrival(rx: RxState, n: u32) {
    var rx' := Rx.Arrive(rx, n).rx;
    Tx.IsAcked(n, rx'.nextExpected, rx'.receivedBits)
  }

  function FieldsOf(rx: RxState): Tx.AckFields { Tx.AckFields(rx.nextExpected, rx.receivedBits) }

  /** The FIN of a session that asks to close. */
  function FinPacket(c: SessionState): Packet { Bare(c.connId, c.tx.nextSeq, FieldsOf(c.rx), FIN) }

  /** The closer has sent its FIN and waits. */
  predicate FinSent(c: SessionState, c': SessionState) {
    && c'.role == c.role && c'.connId == c.connId && c'.conn == ConnState.Closing && c'.rx == c.rx
    && c.tx.nextSeq in c'.tx.inflight && CarriesFin(c'.tx.inflight[c.tx.nextSeq])
  }

  lemma FinGoesOut(cfg: Config, c: SessionState, id: u32, now: nat)
    requires AtRest(c, id)
    ensures var q := PollTx(cfg, RequestClose(c), now);
      q.outcome == Tx.Sent(FinPacket(c), Tx.Control) && FinSent(c, q.session)
  {
    var s := RequestClose(c);
    assert Armed(cfg, s, now) == s.tx;
    SessionPollExactly(cfg, s, now);
    PollExactly(cfg, s.tx, now, s.role, s.connId, s.conn, FieldsOf(s.rx));
    hide PollTx, Tx.Poll, NoneToServe, FirstToServe;
  }

  /** The last event of the session says that the connection is closed. */
  predicate ReportsClosed(s: SessionState) {
    s.rx.events != [] && s.rx.events[|s.rx.events| - 1].kind == ConnectionClosed
  }

  /** The peer has taken the FIN: it is Closing, has reported it, and owes an acknowledgement. */
  predicate FinTaken(d: SessionState, id: u32, n: u32) {
    var f := d.tx.flags;
    && d.connId == id && d.conn == ConnState.Closing && d.tx.inflight == map[]
    && f.ackOnlyPending && !f.finPending && !f.probe.pingPending && !f.probe.pongPending
    && Tx.IsAcked(n, d.rx.nextExpected, d.rx.receivedBits)
    && ReportsClosed(d)
  }

  lemma FinArrives(cfg: Config, d: SessionState, id: u32, p: Packet, now: nat)
    requires AtRest(d, id) && p.header.connId == id && p.header.flags == FIN && IsValidHeader(p.header)
    requires AcksOnArrival(d.rx, p.header.seqNo)
    ensures FinTaken(OnDatagram(cfg, d, Encode(p), now), id, p.header.seqNo)
  {
    var bytes := Encode(p);
    DecodeEncode(p);
    KindIs(p.header);
    ChecksAre(d, p);
    hide Encode, Decode, Classify, IsValidHeader, OnPacket, IsProcessed, FinDone, Tx.IsAcked;
    FinDoneIs(d, p.header);
    ConnectionExactly(cfg, d, bytes, now);
    ScheduleExactly(cfg, d, bytes, now);
    Runs.ReceiveTx(cfg, d, p, |bytes|, now);
    AcknowledgeExactly(cfg, d.tx, p.header.ack, p.header.ackBits);
    FinFields(cfg, d, p, |bytes|, now);
    hide Tx.OnRemoteAck, Rx.Arrive;
  }

  lemma FinFields(cfg: Config, d: SessionState, p: Packet, size: nat, now: nat)
    requires IsProcessed(d, p) && Classify(p.header.flags) == KFin
    ensures SameFields(OnPacket(cfg, d, p, size, now).rx, Rx.Arrive(d.rx, p.header.seqNo).rx)
  {
    hide Classify, OnPacket, IsProcessed, Rx.Arrive, Rx.Deliver;
    ProcessedFields(cfg, d, p, size, now);
  }

  lemma AckGoesBack(cfg: Config, d: SessionState, id: u32, n: u32, now: nat)
    requires FinTaken(d, id, n)
    ensures PollTx(cfg, d, now).outcome == Tx.Sent(Bare(id, 0, FieldsOf(d.rx), ACK), Tx.AckOnly)
    ensures var d' := PollTx(cfg, d, now).session; d'.conn == ConnState.Closing && d'.rx == d.rx
  {
    assert Armed(cfg, d, now) == d.tx;
    SessionPollExactly(cfg, d, now);
    PollExactly(cfg, d.tx, now, d.role, d.connId, d.conn, FieldsOf(d.rx));
    hide PollTx, Tx.Poll, FirstToServe, Tx.IsAcked;
  }

  lemma AckCloses(cfg: Config, c: SessionState, c': SessionState, id: u32, af: Tx.AckFields, now: nat)
    requires FinSent(c, c') && c.connId == id && id != 0 && Tx.IsAcked(c.tx.nextSeq, af.ack, af.ackBits)
    ensures var s := OnDatagram(cfg, c', Encode(Bare(id, 0, af, ACK)), now);
      s.conn == Closed && ReportsClosed(s)
  {
    var p := Bare(id, 0, af, ACK);
    DecodeEncode(p);
    hide Encode, Decode, OnDatagram, Tx.IsAcked;
    assert FinDone(c', p.header);
    ConnectionExactly(cfg, c', Encode(p), now);
  }

  /** What the exchange leaves on both sides. */
  datatype BothEnds = BothEnds(closer: SessionState, peer: SessionState)

  /** `c` asks to close; its FIN reaches `d`, and what `d` then sends reaches `c`. */
  function CloseOver(cfg: Config, c: SessionState, d: SessionState, fin: nat, finHeard: nat, ack: nat, ackHeard: nat)
    : BothEnds
  {
    var finSent := PollTx(cfg, RequestClose(c), fin);
    var ackSent := PollTx(cfg, Take(cfg, d, finSent.outcome, finHeard), ack);
    BothEnds(Take(cfg, finSent.session, ackSent.outcome, ackHeard), ackSent.session)
  }

  /** Two sides at rest: the closer ends in Closed and the peer in Closing, and both report it last of all. */
  lemma CloseCompletes(cfg: Config, c: SessionState, d: SessionState, id: u32,
                       fin: nat, finHeard: nat, ack: nat, ackHeard: nat)
    requires AtRest(c, id) && AtRest(d, id) && AcksOnArrival(d.rx, c.tx.nextSeq)
    ensures var both := CloseOver(cfg, c, d, fin, finHeard, ack, ackHeard);
      && both.closer.conn == Closed && ReportsClosed(both.closer)
      && both.peer.conn == ConnState.Closing && ReportsClosed(both.peer)
  {
    hide PollTx, OnDatagram, Encode, AcksOnArrival, Tx.IsAcked, RequestClose;
    var p := FinPacket(c);
    FinGoesOut(cfg, c, id, fin);
    FinArrives(cfg, d, id, p, finHeard);
    var d' := OnDatagram(cfg, d, Encode(p), finHeard);
    AckGoesBack(cfg, d', id, c.tx.nextSeq, ack);
    AckCloses(cfg, c, PollTx(cfg, RequestClose(c), fin).session, id, FieldsOf(d'.rx), ackHeard);
  }

  // ----- after a handshake -----

  lemma ReadyClientRests(c: SessionState, clientIsn: u32, serverIsn: u32, id: u32, heard: nat)
    requires ClientReady(c, clientIsn, serverIsn, id, heard, false) && id != 0
    ensures AtRest(c, id) && c.tx.nextSeq == Inc(clientIsn) && AcksOnArrival(c.rx, Inc(serverIsn))
  {
    ExpectedAccepted(c.rx);
    hide Rx.Arrive, Tx.IsAcked;
  }

  lemma ReadyServerRests(s: SessionState, clientIsn: u32, serverIsn: u32, id: u32, heard: nat)
    requires ServerReady(s, clientIsn, serverIsn, id, heard) && id != 0
    ensures AtRest(s, id) && s.tx.nextSeq == Inc(serverIsn) && AcksOnArrival(s.rx, Inc(clientIsn))
  {
    ReadyWindow(clientIsn);
    if clientIsn != 0xFFFF_FFFF {
      ExpectedAccepted(s.rx);
      hide Rx.Arrive, Tx.IsAcked;
    } else {
      hide Rx.Advance;
    }
  }

  /**
   * After a handshake without loss either side can close: for every pair of initial numbers, the one that asks ends in
   * Closed, the other in Closing, and both report that the connection is closed.
   */
  lemma CloseAfterShake(cfg: Config, clientIsn: u32, serverIsn: u32, id: u32, t: Times, byClient: bool,
                        fin: nat, finHeard: nat, ack: nat, ackHeard: nat)
    requires id != 0 && Prompt(cfg, t.synAckHeard, t.ack)
    ensures var pair := Shake(cfg, clientIsn, serverIsn, id, t);
      var c, d := if byClient then pair.client else pair.server, if byClient then pair.server else pair.client;
      var both := CloseOver(cfg, c, d, fin, finHeard, ack, ackHeard);
      && both.closer.conn == Closed && ReportsClosed(both.closer)
      && both.peer.conn == ConnState.Closing && ReportsClosed(both.peer)
  {
    hide Shake, CloseOver, ClientReady, ServerReady, AtRest, AcksOnArrival;
    ShakeEstablishes(cfg, clientIsn, serverIsn, id, t);
    var pair := Shake(cfg, clientIsn, serverIsn, id, t);
    ReadyClientRests(pair.client, clientIsn, serverIsn, id, t.synAckHeard);
    ReadyServerRests(pair.server, clientIsn, serverIsn, id, t.ackHeard);
    if byClient {
      CloseCompletes(cfg, pair.client, pair.server, id, fin, finHeard, ack, ackHeard);
    } else {
      CloseCompletes(cfg, pair.server, pair.client, id, fin, finHeard, ack, ackHeard);
    }
  }
}
