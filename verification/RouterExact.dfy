/**
 * Exactly what the router does, for every router that satisfies its routing invariant (as every reached one does):
 * which datagrams open a session, which session each datagram reaches and where that session is afterwards, what a
 * poll sends and drops, and what the application's calls change.
 */
module RouterExact {
  import opened Protocol
  import opened Codec
  import opened SessionTypes
  import opened ConnectionStateMachine
  import opened ManagerSpec
  import opened ManagerRuns
  import opened FirstContact
  import opened Handshake
  import Exact = ReceiveExact
  import Polls = PollExact
  import S = SessionSpec

  /** The router holds nothing for the endpoint. */
  predicate IsUnknown(m: Manager, e: Endpoint) { e !in m.pending && e !in m.byEndpoint }

  predicate HasEnded(s: SessionState) { s.conn == Reset || s.conn == Closed }

  // ----- new peers -----

  /** A SYN without an id from an unknown endpoint opens a pending session with the drawn id, and nothing else. */
  lemma NewPeerExactly(cfg: Config, m: Manager, e: Endpoint, bytes: seq<u8>, now: nat, isn: u32, newId: u32)
    requires IsUnknown(m, e) && Decode(bytes).Some?
    requires Decode(bytes).value.header.flags == SYN && Decode(bytes).value.header.connId == 0
    ensures var m' := OnDatagram(cfg, m, e, bytes, now, isn, newId);
      && e in m'.pending && m' == m.(pending := m.pending[e := m'.pending[e]])
      && m'.pending[e].conn == HandshakeReceived && m'.pending[e].connId == newId && m'.pending[e].role == Server
  {
    hide S.OnDatagram, Decode, InitialTx;
    Exact.ConnectionExactly(cfg, InitialSession(Server, isn, newId), bytes, now);
  }

  /** A datagram with an id from an unknown endpoint is dropped. */
  lemma StrangerIsDropped(cfg: Config, m: Manager, e: Endpoint, bytes: seq<u8>, now: nat, isn: u32, newId: u32)
    requires IsUnknown(m, e) && (Decode(bytes).Some? ==> Decode(bytes).value.header.connId != 0)
    ensures OnDatagram(cfg, m, e, bytes, now, isn, newId) == m
  {
    hide Decode, DispatchActive, DispatchPending;
  }

  /** An id is drawn if and only if the datagram decodes, has no id, and comes from an unknown endpoint. */
  lemma DrawsExactly(cfg: Config, run: ManagerRun, a: ManagerAction)
    ensures Step(cfg, run, a).drawn ==
      if a.Datagram? && Decode(a.bytes).Some? && Decode(a.bytes).value.header.connId == 0 && IsUnknown(run.m, a.e)
      then run.drawn + [a.newId] else run.drawn
  {
    hide Decode, Act, LogConnected;
  }

  // ----- known peers -----

  /** The datagram names an active session. */
  predicate NamesActive(m: Manager, h: Header) { h.connId != 0 && h.connId in m.active }

  /** A bound endpoint that names its own session: the session takes the datagram, and is erased if that ends it. */
  lemma ActiveExactly(cfg: Config, m: Manager, e: Endpoint, bytes: seq<u8>, now: nat, isn: u32, newId: u32)
    requires Routes(m) && Decode(bytes).Some? && e in m.byEndpoint
    requires Decode(bytes).value.header.connId == m.byEndpoint[e]
    ensures var id := m.byEndpoint[e];
      var m', s := OnDatagram(cfg, m, e, bytes, now, isn, newId), S.OnDatagram(cfg, m.active[id], bytes, now);
      if HasEnded(s) then
        m' == m.(active := m.active - {id}, byEndpoint := m.byEndpoint - {e}, retired := m.retired + {id})
      else m' == m.(active := m.active[id := s])
  {
    hide S.OnDatagram, Decode;
    var id := m.byEndpoint[e];
    assert ActiveOk(m.active[id], id);
    hide Routes;
    assert (m.active[id := S.OnDatagram(cfg, m.active[id], bytes, now)]) - {id} == m.active - {id};
  }

  /** Anyone else who names an active session, and a bound endpoint that names none, is ignored. */
  lemma IgnoredExactly(cfg: Config, m: Manager, e: Endpoint, bytes: seq<u8>, now: nat, isn: u32, newId: u32)
    requires Routes(m) && Decode(bytes).Some?
    requires var h := Decode(bytes).value.header;
      if NamesActive(m, h) then e !in m.byEndpoint || m.byEndpoint[e] != h.connId else e in m.byEndpoint
    ensures OnDatagram(cfg, m, e, bytes, now, isn, newId) == m
  {
    hide Decode, DispatchActive, DispatchPending, PendingOk, ActiveOk;
  }

  /**
   * A pending endpoint that names no active session: the session takes the datagram; it is promoted when it is
   * Established, erased when it has ended, and stays otherwise.
   */
  lemma PendingExactly(cfg: Config, m: Manager, e: Endpoint, bytes: seq<u8>, now: nat, isn: u32, newId: u32)
    requires Routes(m) && Decode(bytes).Some? && e in m.pending && !NamesActive(m, Decode(bytes).value.header)
    ensures var m', s := OnDatagram(cfg, m, e, bytes, now, isn, newId), S.OnDatagram(cfg, m.pending[e], bytes, now);
      && s.connId == m.pending[e].connId
      && (if s.conn == Established then
            m' == m.(pending := m.pending - {e}, active := m.active[s.connId := s],
                     byEndpoint := m.byEndpoint[e := s.connId])
          else if HasEnded(s) then m' == m.(pending := m.pending - {e}, retired := m.retired + {s.connId})
          else m' == m.(pending := m.pending[e := s]))
  {
    hide S.OnDatagram, Decode;
    EntryOfPending(m, e);
    SessionStep(cfg, m.pending[e], bytes, now);
    hide Routes;
    var s := S.OnDatagram(cfg, m.pending[e], bytes, now);
    assert m.pending[e := s] - {e} == m.pending - {e};
  }

  // ----- a whole handshake through the router -----

  lemma SynThroughRouter(cfg: Config, m: Manager, e: Endpoint, clientIsn: u32, isn: u32, newId: u32, now: nat)
    requires Routes(m) && IsUnknown(m, e) && !InUse(m, newId)
    ensures var m' := OnDatagram(cfg, m, e, Encode(SynPacket(clientIsn)), now, isn, newId);
      Routes(m') && e in m'.pending && SynReceived(m'.pending[e], clientIsn, isn, newId)
  {
    var p := SynPacket(clientIsn);
    DecodeEncode(p);
    hide Decode, Encode, S.OnPacket, SynReceived, InitialTx;
    SynAccepted(cfg, clientIsn, isn, newId, |Encode(p)|, now);
    NewPeerExactly(cfg, m, e, Encode(p), now, isn, newId);
    var m' := OnDatagram(cfg, m, e, Encode(p), now, isn, newId);
    hide Routes;
    AddPendingRoutes(m, m', e, m'.pending[e]);
  }

  lemma PollThroughRouter(cfg: Config, m: Manager, e: Endpoint, clientIsn: u32, isn: u32, id: u32, now: nat)
    requires Routes(m) && e in m.pending && SynReceived(m.pending[e], clientIsn, isn, id)
    ensures var m', d := PollTx(cfg, m, now), PendingDatagrams(cfg, m, now);
      && Routes(m') && e in m'.pending && SynAckSent(m'.pending[e], clientIsn, isn, id)
      && e in d && d[e] == Encode(SynAckPacket(clientIsn, isn, id))
  {
    SynAckGoesOut(cfg, m.pending[e], clientIsn, isn, id, now);
    PollRoutes(cfg, m, now);
    hide Routes, S.PollTx, SynReceived, SynAckSent, Encode;
  }

  lemma AckThroughRouter(cfg: Config, m: Manager, e: Endpoint, clientIsn: u32, serverIsn: u32, id: u32, now: nat,
                         isn: u32, newId: u32)
    requires Routes(m) && e in m.pending && SynAckSent(m.pending[e], clientIsn, serverIsn, id) && id != 0
    ensures var m' := OnDatagram(cfg, m, e, Encode(AckPacket(clientIsn, serverIsn, id)), now, isn, newId);
      && e in m'.byEndpoint && m'.byEndpoint[e] == id && id in m'.active && e !in m'.pending
      && m'.active[id].conn == Established
      && m'.active[id].rx.events != [] && m'.active[id].rx.events[|m'.active[id].rx.events| - 1].kind == Connected
  {
    var p := AckPacket(clientIsn, serverIsn, id);
    DecodeEncode(p);
    hide Decode, Encode, S.OnDatagram, SynAckSent, PendingOk, ActiveOk;
    AckEstablishes(cfg, m.pending[e], clientIsn, serverIsn, id, now);
    assert !NamesActive(m, p.header);
    hide Routes;
    PendingExactly(cfg, m, e, Encode(p), now, isn, newId);
  }

  lemma AckEstablishes(cfg: Config, s: SessionState, clientIsn: u32, serverIsn: u32, id: u32, now: nat)
    requires SynAckSent(s, clientIsn, serverIsn, id) && id != 0
    ensures s.connId == id
    ensures var s' := S.OnDatagram(cfg, s, Encode(AckPacket(clientIsn, serverIsn, id)), now);
      s'.conn == Established && s'.rx.events != [] && s'.rx.events[|s'.rx.events| - 1].kind == Connected
  {
    var p := AckPacket(clientIsn, serverIsn, id);
    DecodeEncode(p);
    hide Decode, Encode, S.OnDatagram;
    Exact.ConnectionExactly(cfg, s, Encode(p), now);
  }

  /**
   * A client's SYN, a poll and its ACK: from any router that does not know the endpoint, the poll answers with the
   * SYN-ACK under the drawn id, and then the endpoint is bound to an active Established session with that id, whose
   * last event is Connected.
   */
  lemma AdmissionCompletes(cfg: Config, m: Manager, e: Endpoint, clientIsn: u32, isn: u32, newId: u32,
                           synHeard: nat, polled: nat, ackHeard: nat, isn': u32, newId': u32)
    requires Routes(m) && IsUnknown(m, e) && !InUse(m, newId)
    ensures var admitted := OnDatagram(cfg, m, e, Encode(SynPacket(clientIsn)), synHeard, isn, newId);
      var answered := PollTx(cfg, admitted, polled);
      var m' := OnDatagram(cfg, answered, e, Encode(AckPacket(clientIsn, isn, newId)), ackHeard, isn', newId');
      && e in PendingDatagrams(cfg, admitted, polled)
      && PendingDatagrams(cfg, admitted, polled)[e] == Encode(SynAckPacket(clientIsn, isn, newId))
      && e in m'.byEndpoint && m'.byEndpoint[e] == newId && newId in m'.active && e !in m'.pending
      && m'.active[newId].conn == Established && m'.active[newId].rx.events != []
      && m'.active[newId].rx.events[|m'.active[newId].rx.events| - 1].kind == Connected
  {
    hide OnDatagram, PollTx, PendingDatagrams, Encode, Routes, SynReceived, SynAckSent;
    SynThroughRouter(cfg, m, e, clientIsn, isn, newId, synHeard);
    var admitted := OnDatagram(cfg, m, e, Encode(SynPacket(clientIsn)), synHeard, isn, newId);
    PollThroughRouter(cfg, admitted, e, clientIsn, isn, newId, polled);
    AckThroughRouter(cfg, PollTx(cfg, admitted, polled), e, clientIsn, isn, newId, ackHeard, isn', newId');
  }

  // ----- polling -----

  /** The poll of a session produced nothing and left it ended. */
  predicate Drops(cfg: Config, s: SessionState, now: nat) {
    var r := S.PollTx(cfg, s, now);
    !r.outcome.Sent? && HasEnded(r.session)
  }

  /**
   * One poll of the router polls every session once. What a session sends goes to its endpoint; a session that sends
   * nothing and has ended is erased and its id retired; every other session is kept as its poll left it.
   */
  lemma RouterPollExactly(cfg: Config, m: Manager, now: nat)
    requires Routes(m)
    ensures var m' := PollTx(cfg, m, now);
      && (forall e :: e in m'.pending <==> e in m.pending && !Drops(cfg, m.pending[e], now))
      && (forall e :: e in m'.pending ==> m'.pending[e] == S.PollTx(cfg, m.pending[e], now).session)
      && (forall id :: id in m'.active <==> id in m.active && !Drops(cfg, m.active[id], now))
      && (forall id :: id in m'.active ==> m'.active[id] == S.PollTx(cfg, m.active[id], now).session)
      && (forall e :: e in m'.byEndpoint <==> e in m.byEndpoint && m.byEndpoint[e] in m'.active)
      && (forall e :: e in m'.byEndpoint ==> m'.byEndpoint[e] == m.byEndpoint[e])
      && (forall id :: id in m'.retired <==>
            || id in m.retired || (id in m.active && id !in m'.active)
            || exists e :: e in m.pending && e !in m'.pending && m.pending[e].connId == id)
  {
    hide S.PollTx;
    RetiredExactly(cfg, m, now);
    hide ExpiredPending, Retire;
    forall id | id in m.active
      ensures id != 0 && (id in ExpiredActive(cfg, m, now) <==> Drops(cfg, m.active[id], now))
    {
      PolledActiveOk(cfg, m, now, id);
    }
    forall id | id in m.active ensures id in m.byEndpoint.Values { PolledActiveOk(cfg, m, now, id); }
    assert forall e :: e in m.byEndpoint ==> m.byEndpoint[e] in m.active;
    hide Routes;
  }

  lemma RetiredExactly(cfg: Config, m: Manager, now: nat)
    requires Routes(m)
    ensures var m' := PollTx(cfg, m, now);
      forall id :: id in m'.retired <==>
        || id in m.retired || (id in m.active && id !in m'.active)
        || exists e :: e in m.pending && e !in m'.pending && m.pending[e].connId == id
  {
    hide S.PollTx, Poll, Expires;
    forall e | e in m.pending ensures m.pending[e].connId != 0 { assert PendingOk(m.pending[e]); }
    forall id | id in m.active ensures id != 0 { assert ActiveOk(m.active[id], id); }
    assert forall e :: e in m.byEndpoint ==> m.byEndpoint[e] in m.active;
    hide Routes;
  }

  lemma DatagramsExactly(cfg: Config, m: Manager, now: nat)
    requires Routes(m)
    ensures var p, q := PendingDatagrams(cfg, m, now), ActiveDatagrams(cfg, m, now);
      && (forall e :: e in p <==> e in m.pending && S.PollTx(cfg, m.pending[e], now).outcome.Sent?)
      && (forall e :: e in p ==> p[e] == Encode(S.PollTx(cfg, m.pending[e], now).outcome.packet))
      && (forall e :: e in q <==> e in m.byEndpoint && S.PollTx(cfg, m.active[m.byEndpoint[e]], now).outcome.Sent?)
      && (forall e :: e in q ==> q[e] == Encode(S.PollTx(cfg, m.active[m.byEndpoint[e]], now).outcome.packet))
  {
    assert forall e :: e in m.byEndpoint ==> Bound(m, e);
    hide S.PollTx, Encode, Routes;
  }

  /** After a poll no active session is Established that has heard nothing for the idle timeout. */
  lemma IdleAreDropped(cfg: Config, m: Manager, now: nat)
    requires Routes(m)
    ensures var m' := PollTx(cfg, m, now);
      forall id :: id in m'.active ==> !Polls.IsIdle(cfg, m'.active[id], now)
  {
    hide PollTx, S.PollTx;
    RouterPollExactly(cfg, m, now);
    var m' := PollTx(cfg, m, now);
    forall id | id in m'.active ensures !Polls.IsIdle(cfg, m'.active[id], now) {
      Polls.IdleExactly(cfg, m.active[id], now);
      PollKeepsHeard(cfg, m.active[id], now);
    }
  }

  lemma PollKeepsHeard(cfg: Config, s: SessionState, now: nat)
    ensures S.PollTx(cfg, s, now).session.lastRxMs == s.lastRxMs
    ensures s.role == Server && S.PollTx(cfg, s, now).session.conn == Established ==> s.conn == Established
  {
    PolledConn(cfg, s, now);
    hide S.TxPoll, Classify, IsValidHeader;
  }

  lemma PolledConn(cfg: Config, s: SessionState, now: nat)
    ensures s.role == Server && S.PollTx(cfg, s, now).session.conn == Established ==> s.conn == Established
  {
    if s.role == Server { SessionPoll(cfg, s, now); }
    hide S.PollTx;
  }

  // ----- application calls -----

  /** A request for an active id joins the end of that session's queue, and nothing else changes. */
  lemma QueueExactly(m: Manager, id: u32, r: SendRequest)
    ensures var m' := QueueSend(m, id, r);
      if id !in m.active then m' == m
      else
        && id in m'.active && m' == m.(active := m.active[id := m'.active[id]])
        && m'.active[id] ==
             m.active[id].(tx := m.active[id].tx.(pendingSend := m.active[id].tx.pendingSend + [r]))
  {
  }

  /** Draining leaves no events behind, and changes nothing else. */
  lemma DrainExactly(m: Manager, id: u32)
    requires Routes(m)
    ensures var m' := DrainAll(m);
      && m'.pending.Keys == m.pending.Keys && m'.active.Keys == m.active.Keys
      && m'.byEndpoint == m.byEndpoint && m'.retired == m.retired
      && (forall e :: e in m.pending ==> m'.pending[e] == m.pending[e].(rx := m.pending[e].rx.(events := [])))
      && (forall k :: k in m.active ==> m'.active[k] == m.active[k].(rx := m.active[k].rx.(events := [])))
    ensures id in m.active ==>
      DrainActive(m, id) == m.(active := m.active[id := m.active[id].(rx := m.active[id].rx.(events := []))])
  {
    hide PendingOk, ActiveOk;
    forall k | k in m.active ensures k in m.byEndpoint.Values {
      var e :| e in m.byEndpoint && m.byEndpoint[e] == k;
    }
    hide Routes;
  }
}
