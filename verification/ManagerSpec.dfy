/** The server's router as functions on its three maps and its set of retired ids. */
module ManagerSpec {
  import opened Protocol
  import opened Codec
  import opened SessionTypes
  import S = SessionSpec

  datatype Endpoint = Endpoint(address: string, port: nat)

  /** Sessions are held by value, as in the source's maps. */
  datatype Manager = Manager(
    pending: map<Endpoint, SessionState>, active: map<u32, SessionState>,
    byEndpoint: map<Endpoint, u32>, retired: set<u32>)

  const EMPTY := Manager(map[], map[], map[], {})

  predicate IsTerminal(c: ConnState) { c == Reset || c == Closed }

  predicate InUse(m: Manager, id: u32) {
    id == 0 || id in m.retired || id in m.active || exists e :: e in m.pending && m.pending[e].connId == id
  }

  function Retire(retired: set<u32>, id: u32): set<u32> {
    if id != 0 then retired + {id} else retired
  }

  function CleanupPending(m: Manager, e: Endpoint): Manager {
    if e !in m.pending then m
    else m.(pending := m.pending - {e}, retired := Retire(m.retired, m.pending[e].connId))
  }

  function CleanupActive(m: Manager, e: Endpoint, id: u32): Manager {
    m.(retired := Retire(m.retired, id), active := m.active - {id},
       byEndpoint := if e in m.byEndpoint && m.byEndpoint[e] == id then m.byEndpoint - {e} else m.byEndpoint)
  }

  function Promote(m: Manager, e: Endpoint): Manager {
    if e !in m.pending || m.pending[e].connId == 0 then m
    else
      var s := m.pending[e];
      m.(byEndpoint := m.byEndpoint[e := s.connId], active := m.active[s.connId := s], pending := m.pending - {e})
  }

  function DispatchPending(cfg: Config, m: Manager, e: Endpoint, bytes: seq<u8>, now: nat): Manager {
    if e !in m.pending then m
    else
      var s := S.OnDatagram(cfg, m.pending[e], bytes, now);
      var stored := m.(pending := m.pending[e := s]);
      if s.conn == Established then Promote(stored, e)
      else if IsTerminal(s.conn) then CleanupPending(stored, e)
      else stored
  }

  function DispatchActive(cfg: Config, m: Manager, e: Endpoint, bytes: seq<u8>, id: u32, now: nat): Manager
    requires id in m.active
  {
    var s := S.OnDatagram(cfg, m.active[id], bytes, now);
    var stored := m.(active := m.active[id := s]);
    if IsTerminal(s.conn) then CleanupActive(stored, e, id) else stored
  }

  /** A new pending session with initial number `isn` and the freshly drawn id. */
  function Admit(m: Manager, e: Endpoint, isn: u32, newId: u32): Manager {
    m.(pending := m.pending[e := InitialSession(Server, isn, newId)])
  }

  predicate RoutesActive(m: Manager, header: Header) { header.connId != 0 && header.connId in m.active }

  predicate OwnsActive(m: Manager, e: Endpoint, id: u32) { e in m.byEndpoint && m.byEndpoint[e] == id }

  predicate AdmitsNew(m: Manager, e: Endpoint, header: Header) {
    header.connId == 0 && e !in m.pending && e !in m.byEndpoint
  }

  function OnDatagram(cfg: Config, m: Manager, e: Endpoint, bytes: seq<u8>, now: nat, isn: u32, newId: u32): Manager {
    match Decode(bytes)
    case None => m
    case Some(p) =>
      if RoutesActive(m, p.header) then
        if OwnsActive(m, e, p.header.connId) then DispatchActive(cfg, m, e, bytes, p.header.connId, now) else m
      else if e in m.pending then DispatchPending(cfg, m, e, bytes, now)
      else if AdmitsNew(m, e, p.header) then DispatchPending(cfg, Admit(m, e, isn, newId), e, bytes, now)
      else m
  }

  // ----- polling -----

  function Poll(cfg: Config, s: SessionState, now: nat): S.Polled { S.PollTx(cfg, s, now) }

  predicate Sends(cfg: Config, s: SessionState, now: nat) { Poll(cfg, s, now).outcome.Sent? }

  /** The poll produced no datagram and left the session in a terminal state. */
  predicate Expires(cfg: Config, s: SessionState, now: nat) {
    !Sends(cfg, s, now) && IsTerminal(Poll(cfg, s, now).session.conn)
  }

  function PendingDatagrams(cfg: Config, m: Manager, now: nat): map<Endpoint, seq<u8>> {
    map e | e in m.pending && Sends(cfg, m.pending[e], now) :: Encode(Poll(cfg, m.pending[e], now).outcome.packet)
  }

  /** The endpoint is bound to an active session. */
  predicate Bound(m: Manager, e: Endpoint) { e in m.byEndpoint && m.byEndpoint[e] in m.active }

  function ActiveDatagrams(cfg: Config, m: Manager, now: nat): map<Endpoint, seq<u8>> {
    map e | e in m.byEndpoint && Bound(m, e) && Sends(cfg, m.active[m.byEndpoint[e]], now) ::
      Encode(Poll(cfg, m.active[m.byEndpoint[e]], now).outcome.packet)
  }

  function PolledPending(cfg: Config, m: Manager, now: nat): map<Endpoint, SessionState> {
    map e | e in m.pending && !Expires(cfg, m.pending[e], now) :: Poll(cfg, m.pending[e], now).session
  }

  function ExpiredPending(cfg: Config, m: Manager, now: nat): set<u32> {
    set e | e in m.pending && Expires(cfg, m.pending[e], now) && m.pending[e].connId != 0 :: m.pending[e].connId
  }

  function ExpiredActive(cfg: Config, m: Manager, now: nat): set<u32> {
    set e | e in m.byEndpoint && Bound(m, e) && Expires(cfg, m.active[m.byEndpoint[e]], now) :: m.byEndpoint[e]
  }

  function PolledActive(cfg: Config, m: Manager, now: nat): map<u32, SessionState> {
    map id | id in m.active && id !in ExpiredActive(cfg, m, now) ::
      if id in m.byEndpoint.Values then Poll(cfg, m.active[id], now).session else m.active[id]
  }

  function Unexpired(cfg: Config, m: Manager, now: nat): map<Endpoint, u32> {
    map e | e in m.byEndpoint && m.byEndpoint[e] !in ExpiredActive(cfg, m, now) :: m.byEndpoint[e]
  }

  function PollTx(cfg: Config, m: Manager, now: nat): Manager {
    Manager(PolledPending(cfg, m, now), PolledActive(cfg, m, now), Unexpired(cfg, m, now),
            m.retired + ExpiredPending(cfg, m, now) + (ExpiredActive(cfg, m, now) - {0}))
  }

  // ----- application calls -----

  function QueueSend(m: Manager, id: u32, r: SendRequest): Manager {
    if id in m.active then m.(active := m.active[id := S.QueueSend(m.active[id], r)]) else m
  }

  function DrainActive(m: Manager, id: u32): Manager {
    if id in m.active then m.(active := m.active[id := S.DrainEvents(m.active[id])]) else m
  }

  function DrainAll(m: Manager): Manager {
    m.(pending := map e | e in m.pending :: S.DrainEvents(m.pending[e]),
       active := map id | id in m.active ::
         if id in m.byEndpoint.Values then S.DrainEvents(m.active[id]) else m.active[id])
  }
}
