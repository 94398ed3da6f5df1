/**
 * Runs of the server's router: any datagrams from any endpoints, polls, application calls, with
 * initial numbers and connection ids drawn arbitrarily (ids not in use, as the allocator ensures).
 * A log keeps every id ever drawn and one entry for every Connected event.
 */
module ManagerRuns {
  import opened Protocol
  import opened Codec
  import opened SessionTypes
  import opened ConnectionStateMachine
  import opened ManagerSpec
  import opened Counting
  import S = SessionSpec
  import Life = SessionLifecycle

  datatype ManagerAction =
    | Datagram(e: Endpoint, bytes: seq<u8>, now: nat, isn: u32, newId: u32)
    | PollAll(now: nat)
    | QueueTo(id: u32, request: SendRequest)
    | DrainOne(id: u32)
    | DrainEvery

  datatype ManagerRun = ManagerRun(m: Manager, drawn: seq<u32>, connected: multiset<u32>)

  /** The datagram makes the router draw an id. */
  predicate Allocates(m: Manager, a: ManagerAction) {
    && a.Datagram? && Decode(a.bytes).Some?
    && !RoutesActive(m, Decode(a.bytes).value.header) && AdmitsNew(m, a.e, Decode(a.bytes).value.header)
  }

  predicate Allowed(m: Manager, a: ManagerAction) { Allocates(m, a) ==> !InUse(m, a.newId) }

  function Act(cfg: Config, m: Manager, a: ManagerAction): Manager {
    match a
    case Datagram(e, bytes, now, isn, newId) => OnDatagram(cfg, m, e, bytes, now, isn, newId)
    case PollAll(now) => PollTx(cfg, m, now)
    case QueueTo(id, r) => QueueSend(m, id, r)
    case DrainOne(id) => DrainActive(m, id)
    case DrainEvery => DrainAll(m)
  }

  /** The session that a datagram reaches, before it is processed. */
  function Target(m: Manager, a: ManagerAction): Option<SessionState>
    requires a.Datagram?
  {
    match Decode(a.bytes)
    case None => None
    case Some(p) =>
      if RoutesActive(m, p.header) then
        if OwnsActive(m, a.e, p.header.connId) then Some(m.active[p.header.connId]) else None
      else if a.e in m.pending then Some(m.pending[a.e])
      else if AdmitsNew(m, a.e, p.header) then Some(InitialSession(Server, a.isn, a.newId))
      else None
  }

  /** How many Connected events the session has gained. */
  function Gained(s: SessionState, s': SessionState): int {
    CountIf(s'.rx.events, Life.IsConnectedEvent) - CountIf(s.rx.events, Life.IsConnectedEvent)
  }

  /** How many Connected events processing the bytes adds to the session. */
  function ConnectedAdded(cfg: Config, s: SessionState, bytes: seq<u8>, now: nat): int {
    Gained(s, S.OnDatagram(cfg, s, bytes, now))
  }

  /** How the log of Connected events grows. */
  function Plus(connected: multiset<u32>, id: u32, n: int): multiset<u32> {
    if n > 0 then connected[id := connected[id] + n] else connected
  }

  ghost function Pick<K>(keys: set<K>): (k: K)
    requires keys != {}
    ensures k in keys
  {
    var k :| k in keys; k
  }

  /** The log once each of the sessions under `keys` has gained what one poll adds to it. */
  ghost function LogPolls<K>(cfg: Config, connected: multiset<u32>, sessions: map<K, SessionState>, keys: set<K>,
                             now: nat): multiset<u32>
    requires keys <= sessions.Keys
  {
    if keys == {} then connected
    else
      var k := Pick(keys);
      var s := sessions[k];
      Plus(LogPolls(cfg, connected, sessions, keys - {k}, now), s.connId, Gained(s, Poll(cfg, s, now).session))
  }

  /** The active sessions that a poll reaches. */
  function BoundIds(m: Manager): set<u32> { set id | id in m.active && id in m.byEndpoint.Values }

  /** Queueing and draining emit no event. */
  ghost function LogConnected(cfg: Config, m: Manager, connected: multiset<u32>, a: ManagerAction): multiset<u32> {
    match a
    case Datagram(_, bytes, now, _, _) =>
      if Target(m, a).None? then connected
      else
        var s := Target(m, a).value;
        Plus(connected, s.connId, ConnectedAdded(cfg, s, bytes, now))
    case PollAll(now) =>
      LogPolls(cfg, LogPolls(cfg, connected, m.pending, m.pending.Keys, now), m.active, BoundIds(m), now)
    case _ => connected
  }

  /** Polling connects no session. */
  lemma {:induction false} PollsConnectNone<K>(cfg: Config, connected: multiset<u32>, sessions: map<K, SessionState>,
                                               keys: set<K>, now: nat)
    requires keys <= sessions.Keys
    ensures LogPolls(cfg, connected, sessions, keys, now) == connected
  {
    if keys != {} {
      hide Poll, CountIf;
      var k := Pick(keys);
      Life.PollCounts(cfg, sessions[k], now);
      PollsConnectNone(cfg, connected, sessions, keys - {k}, now);
      PollIs(cfg, sessions[k], now);
    }
  }

  lemma PollIs(cfg: Config, s: SessionState, now: nat)
    ensures Poll(cfg, s, now) == S.PollTx(cfg, s, now)
  {
  }

  ghost function Step(cfg: Config, run: ManagerRun, a: ManagerAction): ManagerRun {
    ManagerRun(Act(cfg, run.m, a),
               if Allocates(run.m, a) then run.drawn + [a.newId] else run.drawn,
               LogConnected(cfg, run.m, run.connected, a))
  }

  ghost function Run(cfg: Config, actions: seq<ManagerAction>): ManagerRun
    decreases |actions|
  {
    if actions == [] then ManagerRun(EMPTY, [], multiset{})
    else Step(cfg, Run(cfg, actions[..|actions| - 1]), actions[|actions| - 1])
  }

  ghost predicate AllowedRun(cfg: Config, actions: seq<ManagerAction>) {
    forall i :: 0 <= i < |actions| ==> Allowed(Run(cfg, actions[..i]).m, actions[i])
  }

  // ----- the invariants -----

  predicate PendingOk(s: SessionState) {
    s.role == Server && s.connId != 0 && s.conn in {HandshakeReceived, Closing}
  }

  predicate ActiveOk(s: SessionState, id: u32) {
    s.role == Server && s.connId == id && id != 0 && s.conn in {Established, Closing}
  }

  /** No two endpoints are bound to the same id. */
  predicate Distinct(m: Manager) {
    forall e, f :: e in m.byEndpoint && f in m.byEndpoint && m.byEndpoint[e] == m.byEndpoint[f] ==> e == f
  }

  /** The endpoint index is a bijection onto the active ids. */
  ghost predicate Indexed(m: Manager) {
    && (forall e :: e in m.byEndpoint ==> m.byEndpoint[e] in m.active)
    && Distinct(m)
    && (forall id :: id in m.active ==> exists e :: e in m.byEndpoint && m.byEndpoint[e] == id)
  }

  /** Each id has one place, and the endpoint index and the active map are inverse to each other. */
  ghost predicate Routes(m: Manager) {
    && (forall e :: e in m.pending ==> PendingOk(m.pending[e]))
    && (forall id :: id in m.active ==> ActiveOk(m.active[id], id))
    && (forall e, f :: e in m.pending && f in m.pending && m.pending[e].connId == m.pending[f].connId ==> e == f)
    && (forall e :: e in m.pending ==> m.pending[e].connId !in m.active && m.pending[e].connId !in m.retired)
    && m.active.Keys !! m.retired && 0 !in m.retired
    && (forall e :: e in m.byEndpoint ==> e !in m.pending)
    && Indexed(m)
  }

  ghost predicate IsPendingId(m: Manager, id: u32) { exists e :: e in m.pending && m.pending[e].connId == id }

  predicate NoRepeats(ids: seq<u32>) { forall i, j :: 0 <= i < j < |ids| ==> ids[i] != ids[j] }

  /** The ids in use or retired are exactly those handed out, each once. */
  ghost predicate Ledger(run: ManagerRun) {
    && (forall id :: id in run.drawn <==> IsPendingId(run.m, id) || id in run.m.active || id in run.m.retired)
    && NoRepeats(run.drawn)
  }

  ghost predicate ConnectedOnce(run: ManagerRun) {
    && (forall id :: run.connected[id] <= 1)
    && (forall id :: IsPendingId(run.m, id) ==> run.connected[id] == 0)
    && (forall id :: id in run.connected ==> id in run.drawn)
  }

  /** The part of the invariant that depends on the ids only. */
  ghost predicate Books(run: ManagerRun) { Ledger(run) && ConnectedOnce(run) }

  ghost predicate Inv(run: ManagerRun) { Routes(run.m) && Books(run) }

  // ----- one session step -----

  /** What the router needs to know about a server session that processes a datagram. */
  lemma SessionStep(cfg: Config, s: SessionState, bytes: seq<u8>, now: nat)
    requires s.role == Server
    ensures var s' := S.OnDatagram(cfg, s, bytes, now);
      && s'.role == Server && s'.connId == s.connId
      && (s.conn in {HandshakeReceived, Closing, Closed} ==>
            ConnectedAdded(cfg, s, bytes, now) == Count(s'.conn == Established))
      && (s.conn in {Established, Closing} ==>
            ConnectedAdded(cfg, s, bytes, now) == 0 && s'.conn in {Established, Closing, Reset, Closed})
      && (s.conn in {HandshakeReceived, Closing} ==>
            s'.conn in {HandshakeReceived, Established, Closing, Reset, Closed})
      && (s.conn == Closed ==> s'.conn in {HandshakeReceived, Closing, Reset, Closed})
  {
    hide S.OnPacket, S.AfterAck, CountIf, Decode, S.IsProcessed;
    if Decode(bytes).Some? {
      var p := Decode(bytes).value;
      var kind := Classify(p.header.flags);
      Life.ReceiveCounts(cfg, s, p, |bytes|, now);
      Life.ReceiveConn(cfg, s, p, |bytes|, now);
      IdStays(cfg, s, p, |bytes|, now);
      if S.OnPacket(cfg, s, p, |bytes|, now).conn == HandshakeReceived && s.conn != HandshakeReceived {
        Life.RestartNeedsClosed(cfg, s, p, |bytes|, now);
      }
      hide Classify;
      Life.AfterAckConn(cfg, S.Admitted(s, p, |bytes|, now), kind, p.header, now);
    }
  }

  lemma IdStays(cfg: Config, s: SessionState, p: Packet, size: nat, now: nat)
    requires s.role == Server
    ensures S.OnPacket(cfg, s, p, size, now).connId == s.connId
  {
    hide S.AfterAck, S.AfterDecision, Classify, Decide, S.ApplyDecision;
    var kind := Classify(p.header.flags);
    var a := S.Admitted(s, p, size, now);
    Life.AfterAckConn(cfg, a, kind, p.header, now);
    Life.AfterDecisionConn(cfg, S.AfterAck(cfg, a, kind, p.header, now), p, now);
  }

  /** A polled server session keeps its identity; it leaves its state only for Reset, and then sends nothing. */
  lemma SessionPoll(cfg: Config, s: SessionState, now: nat)
    requires s.role == Server
    ensures var r := Poll(cfg, s, now);
      && r.session.role == Server && r.session.connId == s.connId
      && (r.session.conn == s.conn || (r.session.conn == Reset && !r.outcome.Sent?))
  {
    Life.PollConn(cfg, s, now);
    hide S.TxPoll;
  }

  // ----- moving one session -----

  lemma SameIndexed(m: Manager, m': Manager)
    requires m'.byEndpoint == m.byEndpoint && m'.active.Keys == m.active.Keys
    ensures Indexed(m') <==> Indexed(m)
  {
  }

  /** Storing a processed session back under the same key. */
  lemma PendingStored(m: Manager, e: Endpoint, s: SessionState)
    requires Routes(m) && e in m.pending && s.connId == m.pending[e].connId && PendingOk(s)
    ensures Routes(m.(pending := m.pending[e := s]))
    ensures forall id :: IsPendingId(m.(pending := m.pending[e := s]), id) <==> IsPendingId(m, id)
  {
    var m' := m.(pending := m.pending[e := s]);
    SameIndexed(m, m');
    hide PendingOk, ActiveOk, Indexed;
    forall id ensures IsPendingId(m', id) <==> IsPendingId(m, id) {
      if IsPendingId(m, id) {
        var f :| f in m.pending && m.pending[f].connId == id;
        assert f in m'.pending && m'.pending[f].connId == id;
      }
    }
  }

  /** The pending session at `e`, replaced by `s`, moves into the active map. */
  ghost predicate PromotedTo(m: Manager, m': Manager, e: Endpoint, s: SessionState) {
    && e in m.pending && s.connId == m.pending[e].connId
    && m' == m.(pending := m.pending - {e}, active := m.active[s.connId := s],
                byEndpoint := m.byEndpoint[e := s.connId])
  }

  lemma PromoteRoutes(m: Manager, m': Manager, e: Endpoint, s: SessionState)
    requires Routes(m) && PromotedTo(m, m', e, s) && ActiveOk(s, s.connId)
    ensures Routes(m')
  {
    forall id | id in m'.active ensures exists f :: f in m'.byEndpoint && m'.byEndpoint[f] == id {
      if id == s.connId {
        assert e in m'.byEndpoint && m'.byEndpoint[e] == id;
      } else {
        var f :| f in m.byEndpoint && m.byEndpoint[f] == id;
        assert f in m'.byEndpoint && m'.byEndpoint[f] == id;
      }
    }
  }

  lemma PromoteIds(m: Manager, m': Manager, e: Endpoint, s: SessionState, id: u32)
    requires Routes(m) && PromotedTo(m, m', e, s)
    ensures IsPendingId(m', id) <==> IsPendingId(m, id) && id != s.connId
  {
    if IsPendingId(m, id) && id != s.connId {
      var f :| f in m.pending && m.pending[f].connId == id;
      assert f in m'.pending && m'.pending[f].connId == id;
    }
  }

  /** The pending session at `e` is dropped and its id retired. */
  ghost predicate DroppedPending(m: Manager, m': Manager, e: Endpoint) {
    e in m.pending && m' == m.(pending := m.pending - {e}, retired := m.retired + {m.pending[e].connId})
  }

  lemma DropPendingRoutes(m: Manager, m': Manager, e: Endpoint)
    requires Routes(m) && DroppedPending(m, m', e)
    ensures Routes(m')
  {
  }

  lemma DropPendingIds(m: Manager, m': Manager, e: Endpoint, id: u32)
    requires Routes(m) && DroppedPending(m, m', e)
    ensures IsPendingId(m', id) <==> IsPendingId(m, id) && id != m.pending[e].connId
  {
    if IsPendingId(m, id) && id != m.pending[e].connId {
      var f :| f in m.pending && m.pending[f].connId == id;
      assert f in m'.pending && m'.pending[f].connId == id;
    }
  }

  /** The active session `id`, bound to `e`, is dropped and its id retired. */
  lemma DropActiveRoutes(m: Manager, m': Manager, e: Endpoint, id: u32)
    requires Routes(m) && OwnsActive(m, e, id)
    requires m' == m.(active := m.active - {id}, byEndpoint := m.byEndpoint - {e}, retired := m.retired + {id})
    ensures Routes(m')
  {
    forall x | x in m'.active ensures exists f :: f in m'.byEndpoint && m'.byEndpoint[f] == x {
      var f :| f in m.byEndpoint && m.byEndpoint[f] == x;
      assert f in m'.byEndpoint && m'.byEndpoint[f] == x;
    }
  }

  lemma ActiveStoredRoutes(m: Manager, id: u32, s: SessionState)
    requires Routes(m) && id in m.active && ActiveOk(s, id)
    ensures Routes(m.(active := m.active[id := s]))
  {
  }

  // ----- the books -----

  /** The same ids in the same places. */
  lemma BooksSame(run: ManagerRun, m': Manager)
    requires Books(run)
    requires m'.active.Keys == run.m.active.Keys && m'.retired == run.m.retired
    requires forall id :: IsPendingId(m', id) <==> IsPendingId(run.m, id)
    ensures Books(run.(m := m'))
  {
  }

  /** Some ids leave the pending or active ids and are retired. */
  lemma BooksRetire(run: ManagerRun, m': Manager, gone: set<u32>)
    requires Books(run) && forall id :: id in gone ==> id in run.drawn
    requires m'.retired == run.m.retired + gone
    requires forall id :: IsPendingId(m', id) ==> IsPendingId(run.m, id)
    requires m'.active.Keys <= run.m.active.Keys
    requires forall id :: id !in gone && (id in run.m.active || IsPendingId(run.m, id)) ==>
      id in m'.active || IsPendingId(m', id)
    ensures Books(run.(m := m'))
  {
  }

  /** An id moves from pending to active, with one Connected event. */
  lemma BooksPromote(run: ManagerRun, m': Manager, id: u32)
    requires Books(run) && IsPendingId(run.m, id)
    requires m'.active.Keys == run.m.active.Keys + {id} && m'.retired == run.m.retired
    requires forall x :: IsPendingId(m', x) <==> IsPendingId(run.m, x) && x != id
    ensures Books(ManagerRun(m', run.drawn, run.connected[id := run.connected[id] + 1]))
  {
  }

  /** A fresh id enters as pending or directly as retired. */
  lemma BooksDraw(run: ManagerRun, m': Manager, id: u32)
    requires Books(run) && !IsPendingId(run.m, id) && id !in run.m.active && id !in run.m.retired
    requires m'.active.Keys == run.m.active.Keys
    requires m'.retired == run.m.retired || m'.retired == run.m.retired + {id}
    requires forall x :: x != id ==> (IsPendingId(m', x) <==> IsPendingId(run.m, x))
    requires IsPendingId(m', id) <==> m'.retired == run.m.retired
    ensures Books(ManagerRun(m', run.drawn + [id], run.connected))
  {
  }

  // ----- datagrams -----

  lemma EntryOfPending(m: Manager, e: Endpoint)
    requires Routes(m) && e in m.pending
    ensures PendingOk(m.pending[e]) && IsPendingId(m, m.pending[e].connId)
  {
  }

  lemma EntryOfActive(m: Manager, e: Endpoint, id: u32)
    requires Routes(m) && OwnsActive(m, e, id)
    ensures id in m.active && ActiveOk(m.active[id], id)
  {
  }

  /** An active session was processed. */
  lemma ActiveKeeps(cfg: Config, run: ManagerRun, e: Endpoint, bytes: seq<u8>, id: u32, now: nat)
    requires Inv(run) && OwnsActive(run.m, e, id) && id in run.m.active
    ensures Inv(run.(m := DispatchActive(cfg, run.m, e, bytes, id, now)))
    ensures ConnectedAdded(cfg, run.m.active[id], bytes, now) == 0
  {
    hide S.OnDatagram, ConnectedAdded, Routes;
    var m := run.m;
    EntryOfActive(m, e, id);
    SessionStep(cfg, m.active[id], bytes, now);
    var s := S.OnDatagram(cfg, m.active[id], bytes, now);
    var m' := DispatchActive(cfg, m, e, bytes, id, now);
    assert forall x :: IsPendingId(m', x) <==> IsPendingId(m, x);
    if IsTerminal(s.conn) {
      assert m'.active == m.active - {id};
      DropActiveRoutes(m, m', e, id);
      BooksRetire(run, m', {id});
    } else {
      ActiveStoredRoutes(m, id, s);
      BooksSame(run, m');
    }
  }

  /** A pending session was processed: it stays, is promoted or is dropped. */
  lemma PendingKeeps(cfg: Config, run: ManagerRun, e: Endpoint, bytes: seq<u8>, now: nat)
    requires Inv(run) && e in run.m.pending
    ensures var s := run.m.pending[e];
      Inv(ManagerRun(DispatchPending(cfg, run.m, e, bytes, now), run.drawn,
                     Plus(run.connected, s.connId, ConnectedAdded(cfg, s, bytes, now))))
  {
    hide S.OnDatagram, ConnectedAdded, Routes, Books, IsPendingId;
    var m, s := run.m, run.m.pending[e];
    EntryOfPending(m, e);
    SessionStep(cfg, s, bytes, now);
    var s' := S.OnDatagram(cfg, s, bytes, now);
    var m' := DispatchPending(cfg, m, e, bytes, now);
    if s'.conn == Established {
      assert m.pending[e := s'] - {e} == m.pending - {e};
      PromoteRoutes(m, m', e, s');
      forall id ensures IsPendingId(m', id) <==> IsPendingId(m, id) && id != s'.connId { PromoteIds(m, m', e, s', id); }
      BooksPromote(run, m', s'.connId);
    } else if IsTerminal(s'.conn) {
      assert m.pending[e := s'] - {e} == m.pending - {e};
      DropPendingKeeps(run, m', e);
    } else {
      PendingStored(m, e, s');
      BooksSame(run, m');
    }
  }

  lemma DropPendingKeeps(run: ManagerRun, m': Manager, e: Endpoint)
    requires Inv(run) && DroppedPending(run.m, m', e)
    ensures Inv(run.(m := m'))
  {
    hide Routes, IsPendingId;
    EntryOfPending(run.m, e);
    DropPendingRoutes(run.m, m', e);
    forall id ensures IsPendingId(m', id) <==> IsPendingId(run.m, id) && id != run.m.pending[e].connId {
      DropPendingIds(run.m, m', e, id);
    }
    BooksRetire(run, m', {run.m.pending[e].connId});
  }

  /** A session was created for a new endpoint: it stays pending or is dropped at once. */
  lemma NewPeerKeeps(cfg: Config, run: ManagerRun, e: Endpoint, bytes: seq<u8>, now: nat, isn: u32, newId: u32)
    requires Inv(run) && e !in run.m.pending && e !in run.m.byEndpoint && !InUse(run.m, newId)
    ensures ConnectedAdded(cfg, InitialSession(Server, isn, newId), bytes, now) == 0
    ensures var m' := DispatchPending(cfg, Admit(run.m, e, isn, newId), e, bytes, now);
      Inv(ManagerRun(m', run.drawn + [newId], run.connected))
  {
    hide S.OnDatagram, ConnectedAdded, InitialTx, Routes, Books;
    var m, s := run.m, InitialSession(Server, isn, newId);
    SessionStep(cfg, s, bytes, now);
    var s' := S.OnDatagram(cfg, s, bytes, now);
    var m' := DispatchPending(cfg, Admit(m, e, isn, newId), e, bytes, now);
    var admitted := Admit(m, e, isn, newId);
    if IsTerminal(s'.conn) {
      assert admitted.pending[e := s'] - {e} == m.pending;
      assert m' == m.(retired := m.retired + {newId});
      RetireRoutes(m, newId);
      assert forall x :: IsPendingId(m', x) <==> IsPendingId(m, x);
    } else {
      assert admitted.pending[e := s'] == m.pending[e := s'];
      AddPendingRoutes(m, m', e, s');
    }
    BooksDraw(run, m', newId);
  }

  lemma RetireRoutes(m: Manager, id: u32)
    requires Routes(m) && !InUse(m, id)
    ensures Routes(m.(retired := m.retired + {id}))
  {
    forall f | f in m.pending ensures m.pending[f].connId != id { }
  }

  lemma AddPendingRoutes(m: Manager, m': Manager, e: Endpoint, s: SessionState)
    requires Routes(m) && e !in m.pending && e !in m.byEndpoint && !InUse(m, s.connId) && PendingOk(s)
    requires m' == m.(pending := m.pending[e := s])
    ensures Routes(m')
    ensures forall id :: IsPendingId(m', id) <==> IsPendingId(m, id) || id == s.connId
  {
    forall id ensures IsPendingId(m', id) <==> IsPendingId(m, id) || id == s.connId {
      if IsPendingId(m, id) {
        var f :| f in m.pending && m.pending[f].connId == id;
        assert f in m'.pending && m'.pending[f].connId == id;
      }
      if id == s.connId { assert e in m'.pending && m'.pending[e].connId == id; }
    }
  }

  lemma DatagramKeeps(cfg: Config, run: ManagerRun, a: ManagerAction)
    requires Inv(run) && a.Datagram? && Allowed(run.m, a)
    ensures Inv(Step(cfg, run, a))
  {
    hide Routes, Books, DispatchActive, DispatchPending, ConnectedAdded, Decode, InUse;
    if Decode(a.bytes).Some? {
      var h := Decode(a.bytes).value.header;
      if RoutesActive(run.m, h) {
        if OwnsActive(run.m, a.e, h.connId) {
          ActiveKeeps(cfg, run, a.e, a.bytes, h.connId, a.now);
        }
      } else if a.e in run.m.pending {
        PendingKeeps(cfg, run, a.e, a.bytes, a.now);
      } else if AdmitsNew(run.m, a.e, h) {
        NewPeerKeeps(cfg, run, a.e, a.bytes, a.now, a.isn, a.newId);
      }
    }
  }

  // ----- polls and application calls -----

  lemma PolledPendingOk(cfg: Config, m: Manager, now: nat, e: Endpoint)
    requires Routes(m) && e in m.pending
    ensures Poll(cfg, m.pending[e], now).session.connId == m.pending[e].connId
    ensures !Expires(cfg, m.pending[e], now) ==> PendingOk(Poll(cfg, m.pending[e], now).session)
  {
    hide S.PollTx;
    SessionPoll(cfg, m.pending[e], now);
  }

  lemma PolledActiveOk(cfg: Config, m: Manager, now: nat, id: u32)
    requires Routes(m) && id in m.active
    ensures id in m.byEndpoint.Values
    ensures id in ExpiredActive(cfg, m, now) <==> Expires(cfg, m.active[id], now)
    ensures !Expires(cfg, m.active[id], now) ==> ActiveOk(Poll(cfg, m.active[id], now).session, id)
  {
    hide S.PollTx, Expires;
    SessionPoll(cfg, m.active[id], now);
    var e :| e in m.byEndpoint && m.byEndpoint[e] == id;
    assert Bound(m, e);
    if !Expires(cfg, m.active[id], now) { PolledStays(cfg, m.active[id], now); }
  }

  lemma PolledStays(cfg: Config, s: SessionState, now: nat)
    requires s.role == Server && s.conn in {Established, Closing} && !Expires(cfg, s, now)
    ensures Poll(cfg, s, now).session.conn == s.conn
  {
    hide S.PollTx;
    SessionPoll(cfg, s, now);
  }

  lemma PollIndexed(cfg: Config, m: Manager, now: nat)
    requires Routes(m)
    ensures Indexed(PollTx(cfg, m, now))
  {
    hide Expires, Poll, ExpiredPending, ExpiredActive, PendingOk, ActiveOk, PolledPending;
    var m' := PollTx(cfg, m, now);
    forall id | id in m'.active ensures exists e :: e in m'.byEndpoint && m'.byEndpoint[e] == id {
      var e :| e in m.byEndpoint && m.byEndpoint[e] == id;
      assert e in m'.byEndpoint && m'.byEndpoint[e] == id;
    }
  }

  lemma PollRoutes(cfg: Config, m: Manager, now: nat)
    requires Routes(m)
    ensures Routes(PollTx(cfg, m, now))
  {
    hide Expires, Poll, ExpiredPending, ExpiredActive, PendingOk, ActiveOk, Indexed;
    var m' := PollTx(cfg, m, now);
    PollIndexed(cfg, m, now);
    forall e | e in m'.pending
      ensures PendingOk(m'.pending[e]) && m'.pending[e].connId == m.pending[e].connId
      ensures m'.pending[e].connId !in m'.active && m'.pending[e].connId !in m'.retired
    {
      PolledPendingOk(cfg, m, now, e);
      PendingNotExpired(cfg, m, now, e);
    }
    forall id | id in m'.active ensures ActiveOk(m'.active[id], id) && id !in m'.retired {
      PolledActiveOk(cfg, m, now, id);
      ActiveNotExpired(cfg, m, now, id);
    }
    ZeroNotExpired(cfg, m, now);
  }

  lemma ZeroNotExpired(cfg: Config, m: Manager, now: nat)
    requires Routes(m)
    ensures 0 !in ExpiredPending(cfg, m, now) && 0 !in ExpiredActive(cfg, m, now)
  {
  }

  lemma PendingNotExpired(cfg: Config, m: Manager, now: nat, e: Endpoint)
    requires Routes(m) && e in m.pending && !Expires(cfg, m.pending[e], now)
    ensures m.pending[e].connId !in ExpiredPending(cfg, m, now) && m.pending[e].connId !in ExpiredActive(cfg, m, now)
  {
  }

  lemma ActiveNotExpired(cfg: Config, m: Manager, now: nat, id: u32)
    requires Routes(m) && id in m.active && id !in ExpiredActive(cfg, m, now)
    ensures id !in ExpiredPending(cfg, m, now)
  {
    hide Expires;
  }

  lemma PollBooks(cfg: Config, run: ManagerRun, now: nat)
    requires Inv(run)
    ensures Books(run.(m := PollTx(cfg, run.m, now)))
  {
    hide Expires, Poll;
    var m, m' := run.m, PollTx(cfg, run.m, now);
    var gone := ExpiredPending(cfg, m, now) + ExpiredActive(cfg, m, now);
    ZeroNotExpired(cfg, m, now);
    forall id | id in gone ensures id in run.drawn {
      if id in ExpiredPending(cfg, m, now) { assert IsPendingId(m, id); }
    }
    forall id | IsPendingId(m', id) ensures IsPendingId(m, id) {
      var e :| e in m'.pending && m'.pending[e].connId == id;
      PolledPendingOk(cfg, m, now, e);
      assert e in m.pending && m.pending[e].connId == id;
    }
    forall id | id !in gone && (id in m.active || IsPendingId(m, id)) ensures id in m'.active || IsPendingId(m', id) {
      if IsPendingId(m, id) {
        var e :| e in m.pending && m.pending[e].connId == id;
        PolledPendingOk(cfg, m, now, e);
        assert e in m'.pending && m'.pending[e].connId == id;
      }
    }
    assert m'.retired == m.retired + gone;
    hide Books, IsPendingId, ExpiredPending, ExpiredActive;
    BooksRetire(run, m', gone);
  }

  /** Sessions keep their keys, ids, roles and states. */
  ghost predicate SameSessions(m: Manager, m': Manager) {
    && m'.pending.Keys == m.pending.Keys && m'.active.Keys == m.active.Keys
    && m'.byEndpoint == m.byEndpoint && m'.retired == m.retired
    && (forall e :: e in m.pending ==> SameFace(m.pending[e], m'.pending[e]))
    && (forall id :: id in m.active ==> SameFace(m.active[id], m'.active[id]))
  }

  predicate SameFace(s: SessionState, s': SessionState) {
    s'.role == s.role && s'.connId == s.connId && s'.conn == s.conn
  }

  lemma SameSessionsKeep(run: ManagerRun, m': Manager)
    requires Inv(run) && SameSessions(run.m, m')
    ensures Inv(run.(m := m'))
  {
    var m := run.m;
    forall id ensures IsPendingId(m', id) <==> IsPendingId(m, id) {
      if IsPendingId(m, id) {
        var e :| e in m.pending && m.pending[e].connId == id;
        assert e in m'.pending && m'.pending[e].connId == id;
      }
      if IsPendingId(m', id) {
        var e :| e in m'.pending && m'.pending[e].connId == id;
        assert e in m.pending && m.pending[e].connId == id;
      }
    }
    BooksSame(run, m');
    hide Books;
    SameSessionsRoutes(m, m');
  }

  lemma SameSessionsRoutes(m: Manager, m': Manager)
    requires Routes(m) && SameSessions(m, m')
    ensures Routes(m')
  {
  }

  lemma CallKeeps(cfg: Config, run: ManagerRun, a: ManagerAction)
    requires Inv(run) && (a.QueueTo? || a.DrainOne? || a.DrainEvery?)
    ensures Inv(Step(cfg, run, a))
  {
    hide Routes, Books;
    assert SameSessions(run.m, Act(cfg, run.m, a));
    SameSessionsKeep(run, Act(cfg, run.m, a));
  }

  lemma PollConnects(cfg: Config, m: Manager, connected: multiset<u32>, now: nat)
    ensures LogConnected(cfg, m, connected, PollAll(now)) == connected
  {
    hide LogPolls;
    PollsConnectNone(cfg, connected, m.pending, m.pending.Keys, now);
    PollsConnectNone(cfg, connected, m.active, BoundIds(m), now);
  }

  lemma StepKeeps(cfg: Config, run: ManagerRun, a: ManagerAction)
    requires Inv(run) && Allowed(run.m, a)
    ensures Inv(Step(cfg, run, a))
  {
    hide Routes, Books, PollTx, OnDatagram, Decode, LogPolls;
    match a {
      case Datagram(_, _, _, _, _) => DatagramKeeps(cfg, run, a);
      case PollAll(now) =>
        PollRoutes(cfg, run.m, now);
        PollBooks(cfg, run, now);
        PollConnects(cfg, run.m, run.connected, now);
      case _ => CallKeeps(cfg, run, a);
    }
  }

  lemma AllowedPrefix(cfg: Config, actions: seq<ManagerAction>)
    requires actions != [] && AllowedRun(cfg, actions)
    ensures AllowedRun(cfg, actions[..|actions| - 1])
    ensures Allowed(Run(cfg, actions[..|actions| - 1]).m, actions[|actions| - 1])
  {
    hide Run, Allowed;
    var front := actions[..|actions| - 1];
    forall i | 0 <= i < |front| ensures Allowed(Run(cfg, front[..i]).m, front[i]) {
      assert front[..i] == actions[..i] && Allowed(Run(cfg, actions[..i]).m, actions[i]);
    }
  }

  lemma EmptyInv()
    ensures Inv(ManagerRun(EMPTY, [], multiset{}))
  {
  }

  lemma {:induction false} RunKeeps(cfg: Config, actions: seq<ManagerAction>)
    requires AllowedRun(cfg, actions)
    ensures Inv(Run(cfg, actions))
    decreases |actions|
  {
    hide Inv, Step, AllowedRun, Allowed;
    if actions == [] {
      EmptyInv();
    } else {
      AllowedPrefix(cfg, actions);
      RunKeeps(cfg, actions[..|actions| - 1]);
      StepKeeps(cfg, Run(cfg, actions[..|actions| - 1]), actions[|actions| - 1]);
    }
  }

  // ----- what the invariants say about every run -----

  /**
   * The ledger of connection ids: pending, active and retired ids are nonzero, pairwise disjoint and
   * together exactly the ids ever drawn, none of which was drawn twice; the endpoint index and the
   * active map are inverse to each other, and no endpoint is both pending and active.
   */
  lemma ConnectionIdLedger(cfg: Config, actions: seq<ManagerAction>)
    requires AllowedRun(cfg, actions)
    ensures var run := Run(cfg, actions);
      var m := run.m;
      && NoRepeats(run.drawn) && 0 !in run.drawn
      && (forall id :: id in run.drawn <==> IsPendingId(m, id) || id in m.active || id in m.retired)
      && (forall id :: !(IsPendingId(m, id) && id in m.active) && !(IsPendingId(m, id) && id in m.retired))
      && (forall id :: !(id in m.active && id in m.retired))
      && (forall e, f :: e in m.pending && f in m.pending && m.pending[e].connId == m.pending[f].connId ==> e == f)
      && (forall e :: e in m.byEndpoint ==> m.byEndpoint[e] in m.active && e !in m.pending)
      && (forall e, f :: e in m.byEndpoint && f in m.byEndpoint && m.byEndpoint[e] == m.byEndpoint[f] ==> e == f)
      && (forall id :: id in m.active ==>
            m.active[id].connId == id && exists e :: e in m.byEndpoint && m.byEndpoint[e] == id)
  {
    hide Run, ConnectedOnce;
    RunKeeps(cfg, actions);
    var run := Run(cfg, actions);
    ZeroNotDrawn(run);
    IdsApart(run.m);
  }

  lemma ZeroNotDrawn(run: ManagerRun)
    requires Inv(run)
    ensures 0 !in run.drawn
  {
    hide ConnectedOnce, Indexed;
  }

  lemma IdsApart(m: Manager)
    requires Routes(m)
    ensures forall id :: !(IsPendingId(m, id) && id in m.active) && !(IsPendingId(m, id) && id in m.retired)
    ensures forall id :: !(id in m.active && id in m.retired)
  {
    hide Indexed;
  }

  /**
   * Between calls every pending session is in HandshakeReceived or Closing and every active one in
   * Established or Closing; and no id is connected twice.
   */
  lemma ManagerLifecycle(cfg: Config, actions: seq<ManagerAction>)
    requires AllowedRun(cfg, actions)
    ensures var run := Run(cfg, actions);
      && (forall e :: e in run.m.pending ==> run.m.pending[e].conn in {HandshakeReceived, Closing})
      && (forall id :: id in run.m.active ==> run.m.active[id].conn in {Established, Closing})
      && (forall id :: run.connected[id] <= 1)
  {
    RunKeeps(cfg, actions);
    hide Run;
  }

  /** Everything the router holds for an endpoint. */
  predicate SameAt(m: Manager, m': Manager, f: Endpoint) {
    && (f in m'.pending <==> f in m.pending) && (f in m.pending ==> m'.pending[f] == m.pending[f])
    && (f in m'.byEndpoint <==> f in m.byEndpoint)
    && (f in m.byEndpoint ==>
          var id := m.byEndpoint[f];
          m'.byEndpoint[f] == id && (id in m.active ==> id in m'.active && m'.active[id] == m.active[id]))
  }

  lemma PendingIsolated(cfg: Config, m: Manager, e: Endpoint, bytes: seq<u8>, now: nat, f: Endpoint)
    requires Routes(m) && f != e && e !in m.byEndpoint
    requires e in m.pending ==> m.pending[e].role == Server && m.pending[e].connId !in m.active
    ensures SameAt(m, DispatchPending(cfg, m, e, bytes, now), f)
  {
    hide S.OnDatagram, Routes;
    if e in m.pending { SessionStep(cfg, m.pending[e], bytes, now); }
  }

  /** A datagram from `e` leaves whatever is bound to another endpoint as it was, whatever id it carries. */
  lemma Isolation(cfg: Config, actions: seq<ManagerAction>, a: ManagerAction, f: Endpoint)
    requires AllowedRun(cfg, actions) && a.Datagram? && a.e != f && Allowed(Run(cfg, actions).m, a)
    ensures SameAt(Run(cfg, actions).m, Act(cfg, Run(cfg, actions).m, a), f)
  {
    RunKeeps(cfg, actions);
    hide Run;
    IsolatedStep(cfg, Run(cfg, actions).m, a, f);
  }

  lemma IsolatedStep(cfg: Config, m: Manager, a: ManagerAction, f: Endpoint)
    requires Routes(m) && a.Datagram? && a.e != f && Allowed(m, a)
    ensures SameAt(m, Act(cfg, m, a), f)
  {
    hide S.OnDatagram, Decode, DispatchPending, InUse, ActiveOk;
    if Decode(a.bytes).Some? {
      var h := Decode(a.bytes).value.header;
      if RoutesActive(m, h) {
        assert f in m.byEndpoint && OwnsActive(m, a.e, h.connId) ==> m.byEndpoint[f] != h.connId;
      } else if a.e in m.pending {
        PendingIsolated(cfg, m, a.e, a.bytes, a.now, f);
      } else if AdmitsNew(m, a.e, h) {
        NewIsolated(cfg, m, a.e, a.bytes, a.now, a.isn, a.newId, f);
      }
    }
  }

  lemma NewIsolated(cfg: Config, m: Manager, e: Endpoint, bytes: seq<u8>, now: nat, isn: u32, newId: u32, f: Endpoint)
    requires Routes(m) && f != e && e !in m.byEndpoint && e !in m.pending && !InUse(m, newId)
    ensures SameAt(m, DispatchPending(cfg, Admit(m, e, isn, newId), e, bytes, now), f)
  {
    hide S.OnDatagram, Routes;
    SessionStep(cfg, InitialSession(Server, isn, newId), bytes, now);
  }

  /**
   * One poll sends at most one datagram per session, to the endpoint that owns the session, and the
   * endpoints are pairwise distinct: those of pending and of active sessions do not overlap, and
   * distinct endpoints own distinct sessions.
   */
  lemma OneDatagramEach(cfg: Config, actions: seq<ManagerAction>, now: nat)
    requires AllowedRun(cfg, actions)
    ensures var m := Run(cfg, actions).m;
      var p, q := PendingDatagrams(cfg, m, now).Keys, ActiveDatagrams(cfg, m, now).Keys;
      p !! q && p <= m.pending.Keys && q <= m.byEndpoint.Keys && OwnersApart(m)
  {
    hide Run, PendingDatagrams, ActiveDatagrams, Books;
    RunKeeps(cfg, actions);
    DatagramKeys(cfg, Run(cfg, actions).m, now);
    RoutesApart(Run(cfg, actions).m);
  }

  /** Distinct endpoints own sessions with distinct ids, and no endpoint owns two. */
  ghost predicate OwnersApart(m: Manager) {
    && m.pending.Keys !! m.byEndpoint.Keys
    && (forall e, f :: e in m.pending && f in m.pending && e != f ==> m.pending[e].connId != m.pending[f].connId)
    && (forall e, f :: e in m.byEndpoint && f in m.byEndpoint && e != f ==> m.byEndpoint[e] != m.byEndpoint[f])
    && (forall e, f :: e in m.pending && f in m.byEndpoint ==> m.pending[e].connId != m.byEndpoint[f])
  }

  lemma RoutesApart(m: Manager)
    requires Routes(m)
    ensures OwnersApart(m)
  {
    hide PendingOk, ActiveOk;
  }

  lemma DatagramKeys(cfg: Config, m: Manager, now: nat)
    ensures PendingDatagrams(cfg, m, now).Keys <= m.pending.Keys
    ensures ActiveDatagrams(cfg, m, now).Keys <= m.byEndpoint.Keys
  {
    hide Poll, Encode, Sends, Bound;
  }
}
