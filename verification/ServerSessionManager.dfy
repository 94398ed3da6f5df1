/**
 * The router as the code has it: three maps and a set that its methods update, a scan for ids in
 * use, and collection and cleanup loops that visit the maps in whatever order they are stored.
 * Each public method is proved to take exactly one step of `ManagerRuns`, so its invariant `Valid`
 * (ids never reused, one place per id, one Connected event per id) holds between any two calls.
 */
module ServerSessionManager {
  import opened Protocol
  import opened Codec
  import opened SessionTypes
  import opened ManagerSpec
  import opened ManagerRuns
  import S = SessionSpec

  datatype OutboundDatagram = OutboundDatagram(endpoint: Endpoint, bytes: seq<u8>)

  /** An endpoint and the active id it is bound to. */
  datatype Binding = Binding(endpoint: Endpoint, id: u32)

  datatype ServerSessionEvent = ServerSessionEvent(endpoint: Endpoint, connId: Option<u32>, event: Event)

  /** The list holds exactly the entries of the map, each endpoint once. */
  ghost predicate Lists(out: seq<OutboundDatagram>, d: map<Endpoint, seq<u8>>) {
    && (forall i, j :: 0 <= i < j < |out| ==> out[i].endpoint != out[j].endpoint)
    && (forall i :: 0 <= i < |out| ==> out[i].endpoint in d && d[out[i].endpoint] == out[i].bytes)
    && (forall e :: e in d ==> exists i :: 0 <= i < |out| && out[i].endpoint == e)
  }

  function Elements<T(==)>(s: seq<T>): set<T> { set x | x in s }

  class Router {
    var pending: map<Endpoint, SessionState>
    var active: map<u32, SessionState>
    var byEndpoint: map<Endpoint, u32>
    var retired: set<u32>
    ghost var drawn: seq<u32>
    ghost var connected: multiset<u32>

    ghost function View(): Manager
      reads this
    {
      Manager(pending, active, byEndpoint, retired)
    }

    ghost function History(): ManagerRun
      reads this
    {
      ManagerRun(View(), drawn, connected)
    }

    ghost predicate Valid()
      reads this
    {
      Inv(History())
    }

    constructor ()
      ensures Valid() && History() == ManagerRun(EMPTY, [], multiset{})
    {
      pending, active, byEndpoint, retired := map[], map[], map[], {};
      drawn, connected := [], multiset{};
    }

    /** Books the step that the method has just taken. */
    ghost method Record(cfg: Config, was: ManagerRun, a: ManagerAction)
      requires Inv(was) && Allowed(was.m, a)
      requires View() == Act(cfg, was.m, a)
      modifies this`drawn, this`connected
      ensures Valid() && History() == Step(cfg, was, a)
    {
      StepKeeps(cfg, was, a);
      hide Inv;
      drawn := Step(cfg, was, a).drawn;
      connected := Step(cfg, was, a).connected;
    }

    // ----- connection ids -----

    /** Looks in the retired set, the active map and, one by one, the pending sessions. */
    method ConnIdIsInUse(id: u32) returns (used: bool)
      ensures used == InUse(View(), id)
    {
      if id == 0 || id in retired || id in active {
        return true;
      }
      var rest := pending.Keys;
      while rest != {}
        invariant rest <= pending.Keys
        invariant forall e :: e in pending.Keys - rest ==> pending[e].connId != id
        decreases |rest|
      {
        var e :| e in rest;
        if pending[e].connId == id {
          return true;
        }
        rest := rest - {e};
      }
      used := false;
    }

    /** The first value drawn that is not in use; draw number `last` is known to be free. */
    method AllocateConnId(draw: nat -> u32, ghost last: nat) returns (id: u32)
      requires !InUse(View(), draw(last))
      ensures !InUse(View(), id)
      ensures exists k :: 0 <= k <= last && draw(k) == id && forall j :: 0 <= j < k ==> InUse(View(), draw(j))
    {
      var k := 0;
      id := draw(0);
      var used := ConnIdIsInUse(id);
      while used
        invariant 0 <= k <= last && id == draw(k) && used == InUse(View(), id)
        invariant forall j :: 0 <= j < k ==> InUse(View(), draw(j))
        decreases last - k
      {
        k := k + 1;
        id := draw(k);
        used := ConnIdIsInUse(id);
      }
    }

    // ----- moving sessions -----

    method PromotePendingSession(e: Endpoint)
      modifies this`pending, this`active, this`byEndpoint
      ensures View() == Promote(old(View()), e)
    {
      if e !in pending {
        return;
      }
      var id := pending[e].connId;
      if id == 0 {
        return;
      }
      byEndpoint := byEndpoint[e := id];
      active := active[id := pending[e]];
      pending := pending - {e};
    }

    method CleanupPendingSession(e: Endpoint)
      modifies this`pending, this`retired
      ensures View() == CleanupPending(old(View()), e)
    {
      if e !in pending {
        return;
      }
      var id := pending[e].connId;
      if id != 0 {
        retired := retired + {id};
      }
      pending := pending - {e};
    }

    method CleanupActiveSession(e: Endpoint, id: u32)
      modifies this`active, this`byEndpoint, this`retired
      ensures View() == CleanupActive(old(View()), e, id)
    {
      if id != 0 {
        retired := retired + {id};
      }
      active := active - {id};
      if e in byEndpoint && byEndpoint[e] == id {
        byEndpoint := byEndpoint - {e};
      }
    }

    // ----- datagrams in -----

    method TryDispatchActive(cfg: Config, e: Endpoint, bytes: seq<u8>, id: u32, now: nat) returns (known: bool)
      modifies this`active, this`byEndpoint, this`retired
      ensures known == (id in old(active))
      ensures View() == if known then DispatchActive(cfg, old(View()), e, bytes, id, now) else old(View())
    {
      hide S.OnDatagram;
      if id !in active {
        return false;
      }
      known := true;
      active := active[id := S.OnDatagram(cfg, active[id], bytes, now)];
      if IsTerminal(active[id].conn) {
        CleanupActiveSession(e, id);
      }
    }

    method TryDispatchPending(cfg: Config, e: Endpoint, bytes: seq<u8>, now: nat) returns (known: bool)
      modifies this`pending, this`active, this`byEndpoint, this`retired
      ensures known == (e in old(pending))
      ensures View() == DispatchPending(cfg, old(View()), e, bytes, now)
    {
      hide S.OnDatagram;
      if e !in pending {
        return false;
      }
      known := true;
      pending := pending[e := S.OnDatagram(cfg, pending[e], bytes, now)];
      if pending[e].conn == Established {
        PromotePendingSession(e);
        return;
      }
      if IsTerminal(pending[e].conn) {
        CleanupPendingSession(e);
      }
    }

    /** A server session for a new peer: created first, then given an id that is not in use. */
    method EnsureSessionForNewPeer(e: Endpoint, isn: u32, draw: nat -> u32, ghost last: nat)
      returns (found: bool, ghost newId: u32)
      requires e !in pending && e !in byEndpoint ==> !InUse(View(), draw(last))
      modifies this`pending
      ensures found == (e in old(pending) || e !in byEndpoint)
      ensures e in old(pending) || e in byEndpoint ==> View() == old(View())
      ensures e !in old(pending) && e !in byEndpoint ==>
        View() == Admit(old(View()), e, isn, newId) && !InUse(old(View()), newId)
    {
      if e in pending {
        return true, 0;
      }
      if e in byEndpoint {
        return false, 0;
      }
      ghost var before := View();
      pending := pending[e := InitialSession(Server, isn, 0)];
      EmplacedInUse(before, e, isn);
      var id := AllocateConnId(draw, last);
      pending := pending[e := pending[e].(connId := id)];
      found, newId := true, id;
    }

    method OnDatagramReceived(cfg: Config, e: Endpoint, bytes: seq<u8>, now: nat, isn: u32,
                              draw: nat -> u32, ghost last: nat)
      returns (ghost newId: u32)
      requires Valid()
      requires Allocates(View(), Datagram(e, bytes, now, isn, 0)) ==> !InUse(View(), draw(last))
      modifies this
      ensures Valid() && Allowed(old(View()), Datagram(e, bytes, now, isn, newId))
      ensures History() == Step(cfg, old(History()), Datagram(e, bytes, now, isn, newId))
    {
      hide Inv, Decode, InUse, DispatchPending, DispatchActive, LogConnected;
      ghost var was := History();
      newId := Route(cfg, e, bytes, now, isn, draw, last);
      Record(cfg, was, Datagram(e, bytes, now, isn, newId));
    }

    /** Active session first, then pending session, then a new peer; anything else is dropped. */
    method Route(cfg: Config, e: Endpoint, bytes: seq<u8>, now: nat, isn: u32, draw: nat -> u32, ghost last: nat)
      returns (ghost newId: u32)
      requires Allocates(View(), Datagram(e, bytes, now, isn, 0)) ==> !InUse(View(), draw(last))
      modifies this`pending, this`active, this`byEndpoint, this`retired
      ensures Allowed(old(View()), Datagram(e, bytes, now, isn, newId))
      ensures View() == OnDatagram(cfg, old(View()), e, bytes, now, isn, newId)
    {
      hide Decode, InUse, DispatchPending, DispatchActive;
      newId := 0;
      var decoded := Decode(bytes);
      if decoded.None? {
        return;
      }
      var header := decoded.value.header;
      if header.connId != 0 && header.connId in active {
        if e in byEndpoint && byEndpoint[e] == header.connId {
          var dispatched := TryDispatchActive(cfg, e, bytes, header.connId, now);
        }
        return;
      }
      ghost var before := View();
      var known := TryDispatchPending(cfg, e, bytes, now);
      if known {
        return;
      }
      assert View() == before by { UnknownUnchanged(cfg, before, e, bytes, now); }
      if header.connId != 0 {
        return;
      }
      var found;
      found, newId := EnsureSessionForNewPeer(e, isn, draw, last);
      if found {
        known := TryDispatchPending(cfg, e, bytes, now);
      }
    }

    // ----- application calls -----

    method QueueSend(cfg: Config, id: u32, request: SendRequest) returns (ok: bool)
      requires Valid()
      modifies this
      ensures ok == (id in old(active))
      ensures Valid() && History() == Step(cfg, old(History()), QueueTo(id, request))
    {
      hide Inv;
      ghost var was := History();
      ok := id in active;
      if ok {
        active := active[id := S.QueueSend(active[id], request)];
      }
      Record(cfg, was, QueueTo(id, request));
    }

    method DrainActiveEvents(cfg: Config, id: u32) returns (drained: seq<Event>)
      requires Valid()
      modifies this
      ensures drained == if id in old(active) then old(active)[id].rx.events else []
      ensures Valid() && History() == Step(cfg, old(History()), DrainOne(id))
    {
      hide Inv;
      ghost var was := History();
      drained := [];
      if id in active {
        drained := active[id].rx.events;
        active := active[id := S.DrainEvents(active[id])];
      }
      Record(cfg, was, DrainOne(id));
    }

    // ----- polling -----

    /** Polls every pending session once, in any order. */
    method CollectPendingTx(cfg: Config, now: nat) returns (outbound: seq<OutboundDatagram>, expired: seq<Endpoint>)
      modifies this`pending
      ensures pending == map e | e in old(pending) :: Poll(cfg, old(pending)[e], now).session
      ensures Lists(outbound, PendingDatagrams(cfg, old(View()), now))
      ensures forall e :: e in expired <==> e in old(pending) && Expires(cfg, old(pending)[e], now)
    {
      hide Poll, PendingDatagrams, Lists, Encode, Part, Expires, IsTerminal, VisitedPending, Gathered;
      ghost var was := View();
      ghost var due := PendingDatagrams(cfg, was, now);
      outbound, expired := [], [];
      var rest := pending.Keys;
      PendingStart(cfg, was, now);
      while rest != {}
        invariant rest <= was.pending.Keys
        invariant pending == VisitedPending(cfg, was.pending, rest, now)
        invariant Lists(outbound, Part(due, rest))
        invariant Gathered(cfg, was.pending, rest, now, expired)
        decreases |rest|
      {
        var e :| e in rest;
        PendingNext(cfg, was, now, rest, e, expired);
        ListsNext(outbound, due, rest, e);
        var polled := Poll(cfg, pending[e], now);
        pending := pending[e := polled.session];
        if polled.outcome.Sent? {
          outbound := outbound + [OutboundDatagram(e, Encode(polled.outcome.packet))];
        } else if IsTerminal(polled.session.conn) {
          expired := expired + [e];
        }
        rest := rest - {e};
      }
      PendingEnd(cfg, was, now, expired);
      ListsAll(due);
    }

    /** Polls the session of every bound endpoint once, in any order. */
    method CollectActiveTx(cfg: Config, now: nat)
      returns (outbound: seq<OutboundDatagram>, expired: seq<Binding>)
      requires Distinct(View())
      modifies this`active
      ensures active == PolledBound(cfg, old(View()), now)
      ensures Lists(outbound, ActiveDatagrams(cfg, old(View()), now))
      ensures forall b :: b in expired <==> ExpiresAt(cfg, old(View()), now, b)
    {
      hide Poll, ActiveDatagrams, Lists, Encode, Part, Expires, IsTerminal, VisitedActive, GatheredActive, PolledBound;
      ghost var was := View();
      ghost var due := ActiveDatagrams(cfg, was, now);
      outbound, expired := [], [];
      var rest := byEndpoint.Keys;
      ActiveStart(cfg, was, now);
      while rest != {}
        invariant rest <= was.byEndpoint.Keys
        invariant active == VisitedActive(cfg, was, rest, now)
        invariant Lists(outbound, Part(due, rest))
        invariant GatheredActive(cfg, was, rest, now, expired)
        decreases |rest|
      {
        var e :| e in rest;
        var id := byEndpoint[e];
        ListsNext(outbound, due, rest, e);
        if id !in was.active {
          ActiveSkip(cfg, was, now, rest, e, expired);
        } else {
          ActiveNext(cfg, was, now, rest, e);
          ActiveGather(cfg, was, now, rest, e, expired);
        }
        if id in active {
          var polled := Poll(cfg, active[id], now);
          active := active[id := polled.session];
          if polled.outcome.Sent? {
            outbound := outbound + [OutboundDatagram(e, Encode(polled.outcome.packet))];
          } else if IsTerminal(polled.session.conn) {
            expired := expired + [Binding(e, id)];
          }
        }
        rest := rest - {e};
      }
      ActiveEnd(cfg, was, now, expired);
      ListsAll(due);
    }

    method CleanupExpiredPending(expired: seq<Endpoint>)
      modifies this`pending, this`retired
      ensures View() == WithoutPending(old(View()), Elements(expired))
    {
      hide WithoutPending, CleanupPending;
      ghost var was := View();
      WithoutNone(was);
      assert Elements(expired[..0]) == {};
      for i := 0 to |expired|
        invariant View() == WithoutPending(was, Elements(expired[..i]))
      {
        WithoutNextPending(was, Elements(expired[..i]), expired[i]);
        assert Elements(expired[..i + 1]) == Elements(expired[..i]) + {expired[i]};
        CleanupPendingSession(expired[i]);
      }
      assert expired[..|expired|] == expired;
    }

    method CleanupExpiredActive(expired: seq<Binding>)
      requires forall b :: b in expired ==> OwnsActive(View(), b.endpoint, b.id)
      modifies this`active, this`byEndpoint, this`retired
      ensures View() == WithoutActive(old(View()), Elements(expired))
    {
      hide WithoutActive, CleanupActive;
      ghost var was := View();
      WithoutNone(was);
      assert Elements(expired[..0]) == {};
      for i := 0 to |expired|
        invariant View() == WithoutActive(was, Elements(expired[..i]))
      {
        WithoutNextActive(was, Elements(expired[..i]), expired[i]);
        assert Elements(expired[..i + 1]) == Elements(expired[..i]) + {expired[i]};
        CleanupActiveSession(expired[i].endpoint, expired[i].id);
      }
      assert expired[..|expired|] == expired;
    }

    /** One datagram at most for each session, to the endpoint that owns it. */
    method PollTx(cfg: Config, now: nat) returns (outbound: seq<OutboundDatagram>)
      requires Valid()
      modifies this
      ensures Lists(outbound, PendingDatagrams(cfg, old(View()), now) + ActiveDatagrams(cfg, old(View()), now))
      ensures Valid() && History() == Step(cfg, old(History()), PollAll(now))
    {
      hide Inv, Indexed, Lists, PendingDatagrams, ActiveDatagrams, Poll, Expires, ExpiresAt;
      hide WithoutPending, WithoutActive, KeepsIds, PolledBound, Distinct, ManagerSpec.PollTx;
      ghost var was := History();
      ghost var m := View();
      PollFacts(cfg, was, now);
      var first, pendingExpired := CollectPendingTx(cfg, now);
      PendingApart(cfg, m, pending, now);
      var second, activeExpired := CollectActiveTx(cfg, now);
      ListsJoin(first, PendingDatagrams(cfg, m, now), second, ActiveDatagrams(cfg, m, now));
      outbound := first + second;
      BoundIsAll(cfg, m, now);
      assert View() == AllPolled(cfg, m, now);
      CleanupExpiredPending(pendingExpired);
      CleanupExpiredActive(activeExpired);
      PollAssembles(cfg, m, now, Elements(pendingExpired), Elements(activeExpired));
      Record(cfg, was, PollAll(now));
    }

    // ----- events out -----

    /** Appends the events of one session to the report, tagged with its endpoint and id. */
    method AppendTagged(report: seq<ServerSessionEvent>, e: Endpoint, id: Option<u32>, drained: seq<Event>)
      returns (longer: seq<ServerSessionEvent>)
      ensures |longer| == |report| + |drained| && longer[..|report|] == report
      ensures forall i :: |report| <= i < |longer| ==> longer[i].endpoint == e && longer[i].connId == id
      ensures forall f :: EventsOf(longer, f) == EventsOf(report, f) + if f == e then drained else []
    {
      hide EventsOf;
      longer := report;
      for i := 0 to |drained|
        invariant |longer| == |report| + i && longer[..|report|] == report
        invariant forall k :: |report| <= k < |longer| ==> longer[k].endpoint == e && longer[k].connId == id
        invariant forall f :: EventsOf(longer, f) == EventsOf(report, f) + if f == e then drained[..i] else []
      {
        NextEvent(longer, ServerSessionEvent(e, id, drained[i]));
        longer := longer + [ServerSessionEvent(e, id, drained[i])];
        assert drained[..i + 1] == drained[..i] + [drained[i]];
      }
      assert drained[..|drained|] == drained;
    }

    method DrainPendingEvents() returns (report: seq<ServerSessionEvent>)
      modifies this`pending
      ensures pending == DrainedPending(old(pending), {})
      ensures Reported(old(View()), report, {}, byEndpoint.Keys)
    {
      hide Reported, EventsOf;
      ghost var was := View();
      report := [];
      var rest := pending.Keys;
      ReportStart(was);
      while rest != {}
        invariant rest <= was.pending.Keys
        invariant pending == DrainedPending(was.pending, rest)
        invariant Reported(was, report, rest, was.byEndpoint.Keys)
        decreases |rest|
      {
        var e :| e in rest;
        var session := pending[e];
        ghost var before := report;
        report := AppendTagged(report, e, Tag(session.connId), session.rx.events);
        ReportNext(was, before, report, rest, was.byEndpoint.Keys, e, session.rx.events, Tag(session.connId));
        pending := pending[e := S.DrainEvents(session)];
        rest := rest - {e};
      }
    }

    method DrainBoundEvents(report0: seq<ServerSessionEvent>, ghost was: Manager)
      returns (report: seq<ServerSessionEvent>)
      requires was.byEndpoint == byEndpoint && was.active == active && Distinct(was)
      requires was.byEndpoint.Keys !! was.pending.Keys
      requires Reported(was, report0, {}, byEndpoint.Keys)
      modifies this`active
      ensures active == DrainAll(was).active
      ensures Reported(was, report, {}, {})
    {
      hide Reported, EventsOf, Distinct, Visited, DrainedActive;
      report := report0;
      var rest := byEndpoint.Keys;
      DrainStart(was);
      while rest != {}
        invariant rest <= was.byEndpoint.Keys
        invariant active == DrainedActive(was, rest)
        invariant Reported(was, report, {}, rest)
        decreases |rest|
      {
        var e :| e in rest;
        var id := byEndpoint[e];
        if id !in was.active {
          DrainSkip(was, report, rest, e);
        } else {
          DrainNext(was, rest, e);
        }
        if id in active {
          var session := active[id];
          ghost var before := report;
          report := AppendTagged(report, e, Some(id), session.rx.events);
          ReportNext(was, before, report, {}, rest, e, session.rx.events, Some(id));
          active := active[id := S.DrainEvents(session)];
        }
        rest := rest - {e};
      }
      DrainEnd(was);
    }

    /** Each session's events once, in the order in which the session queued them; none is left behind. */
    method DrainEvents(cfg: Config) returns (report: seq<ServerSessionEvent>)
      requires Valid()
      modifies this
      ensures Reported(old(View()), report, {}, {})
      ensures Valid() && History() == Step(cfg, old(History()), DrainEvery)
    {
      hide Inv, Reported, Distinct, DrainedPending, DrainAll;
      ghost var was := History();
      DrainFacts(was);
      report := DrainPendingEvents();
      report := DrainBoundEvents(report, was.m);
      DrainAssembles(was.m);
      Record(cfg, was, DrainEvery);
    }
  }

  lemma UnknownUnchanged(cfg: Config, m: Manager, e: Endpoint, bytes: seq<u8>, now: nat)
    requires e !in m.pending
    ensures DispatchPending(cfg, m, e, bytes, now) == m
  {
  }

  /** A session that has no id yet does not change which ids are in use. */
  lemma EmplacedInUse(m: Manager, e: Endpoint, isn: u32)
    requires e !in m.pending
    ensures forall id :: InUse(Admit(m, e, isn, 0), id) <==> InUse(m, id)
  {
    var m' := Admit(m, e, isn, 0);
    forall id: u32 ensures InUse(m', id) <==> InUse(m, id) {
      if f :| f in m.pending && m.pending[f].connId == id {
        assert f in m'.pending && m'.pending[f].connId == id;
      }
    }
  }

  // ----- the list under construction -----

  /** The entries of the endpoints already visited. */
  function Part(d: map<Endpoint, seq<u8>>, rest: set<Endpoint>): map<Endpoint, seq<u8>> {
    map e | e in d && e !in rest :: d[e]
  }

  lemma ListsAll(d: map<Endpoint, seq<u8>>)
    ensures Part(d, {}) == d
  {
  }

  lemma ListsNext(out: seq<OutboundDatagram>, d: map<Endpoint, seq<u8>>, rest: set<Endpoint>, e: Endpoint)
    requires Lists(out, Part(d, rest)) && e in rest
    ensures Lists(if e in d then out + [OutboundDatagram(e, d[e])] else out, Part(d, rest - {e}))
  {
    var before, after := Part(d, rest), Part(d, rest - {e});
    if e in d {
      var out' := out + [OutboundDatagram(e, d[e])];
      assert out'[|out|].endpoint == e;
      forall f | f in after ensures exists i :: 0 <= i < |out'| && out'[i].endpoint == f {
        if f != e {
          assert f in before;
          var i :| 0 <= i < |out| && out[i].endpoint == f;
          assert out'[i].endpoint == f;
        }
      }
    } else {
      assert before == after;
    }
  }

  // ----- pending sessions under collection -----

  /** The pending map when all but the endpoints in `rest` have been polled. */
  function VisitedPending(cfg: Config, pending: map<Endpoint, SessionState>, rest: set<Endpoint>, now: nat)
    : map<Endpoint, SessionState>
  {
    map e | e in pending :: if e in rest then pending[e] else Poll(cfg, pending[e], now).session
  }

  /** The list names exactly the polled sessions that expired. */
  ghost predicate Gathered(cfg: Config, pending: map<Endpoint, SessionState>, rest: set<Endpoint>, now: nat,
                           expired: seq<Endpoint>)
  {
    forall e :: e in expired <==> e in pending && e !in rest && Expires(cfg, pending[e], now)
  }

  lemma PendingStart(cfg: Config, m: Manager, now: nat)
    ensures VisitedPending(cfg, m.pending, m.pending.Keys, now) == m.pending
    ensures Lists([], Part(PendingDatagrams(cfg, m, now), m.pending.Keys))
    ensures Gathered(cfg, m.pending, m.pending.Keys, now, [])
  {
  }

  lemma PendingNext(cfg: Config, m: Manager, now: nat, rest: set<Endpoint>, e: Endpoint, expired: seq<Endpoint>)
    requires e in rest && e in m.pending && Gathered(cfg, m.pending, rest, now, expired)
    ensures var visited := VisitedPending(cfg, m.pending, rest, now);
      var polled, due := Poll(cfg, m.pending[e], now), PendingDatagrams(cfg, m, now);
      && e in visited && visited[e] == m.pending[e]
      && VisitedPending(cfg, m.pending, rest - {e}, now) == visited[e := polled.session]
      && (e in due <==> polled.outcome.Sent?)
      && (polled.outcome.Sent? ==> due[e] == Encode(polled.outcome.packet))
      && Gathered(cfg, m.pending, rest - {e}, now,
                  if !polled.outcome.Sent? && IsTerminal(polled.session.conn) then expired + [e] else expired)
  {
    hide Poll, Encode, IsTerminal;
  }

  lemma PendingEnd(cfg: Config, m: Manager, now: nat, expired: seq<Endpoint>)
    requires Gathered(cfg, m.pending, {}, now, expired)
    ensures VisitedPending(cfg, m.pending, {}, now) == map e | e in m.pending :: Poll(cfg, m.pending[e], now).session
    ensures forall e :: e in expired <==> e in m.pending && Expires(cfg, m.pending[e], now)
  {
  }

  // ----- active sessions under collection -----

  /** The session is bound to an endpoint outside `rest`. */
  ghost predicate Visited(m: Manager, rest: set<Endpoint>, id: u32) {
    exists e :: e in m.byEndpoint && e !in rest && m.byEndpoint[e] == id
  }

  ghost function VisitedActive(cfg: Config, m: Manager, rest: set<Endpoint>, now: nat): map<u32, SessionState> {
    map id | id in m.active :: if Visited(m, rest, id) then Poll(cfg, m.active[id], now).session else m.active[id]
  }

  predicate ExpiresAt(cfg: Config, m: Manager, now: nat, b: Binding) {
    OwnsActive(m, b.endpoint, b.id) && b.id in m.active && Expires(cfg, m.active[b.id], now)
  }

  ghost predicate GatheredActive(cfg: Config, m: Manager, rest: set<Endpoint>, now: nat, expired: seq<Binding>) {
    forall b :: b in expired <==> b.endpoint !in rest && ExpiresAt(cfg, m, now, b)
  }

  lemma ActiveStart(cfg: Config, m: Manager, now: nat)
    ensures VisitedActive(cfg, m, m.byEndpoint.Keys, now) == m.active
    ensures Lists([], Part(ActiveDatagrams(cfg, m, now), m.byEndpoint.Keys))
    ensures GatheredActive(cfg, m, m.byEndpoint.Keys, now, [])
  {
  }

  lemma VisitNext(m: Manager, rest: set<Endpoint>, e: Endpoint)
    requires Distinct(m) && e in rest && e in m.byEndpoint
    ensures !Visited(m, rest, m.byEndpoint[e])
    ensures forall id :: Visited(m, rest - {e}, id) <==> Visited(m, rest, id) || id == m.byEndpoint[e]
  {
  }

  /** The active map once the session of every bound endpoint has been polled. */
  function PolledBound(cfg: Config, m: Manager, now: nat): map<u32, SessionState> {
    map id | id in m.active ::
      if id in m.byEndpoint.Values then Poll(cfg, m.active[id], now).session else m.active[id]
  }

  /** An entry of the index without a session is passed over. */
  lemma ActiveSkip(cfg: Config, m: Manager, now: nat, rest: set<Endpoint>, e: Endpoint, expired: seq<Binding>)
    requires e in rest && e in m.byEndpoint && m.byEndpoint[e] !in m.active
    requires GatheredActive(cfg, m, rest, now, expired)
    ensures VisitedActive(cfg, m, rest - {e}, now) == VisitedActive(cfg, m, rest, now)
    ensures m.byEndpoint[e] !in VisitedActive(cfg, m, rest, now) && e !in ActiveDatagrams(cfg, m, now)
    ensures GatheredActive(cfg, m, rest - {e}, now, expired)
  {
    hide Poll, Encode, Expires;
    forall id | id in m.active ensures Visited(m, rest - {e}, id) <==> Visited(m, rest, id) {
      if f :| f in m.byEndpoint && f !in rest && m.byEndpoint[f] == id {
        assert f !in rest - {e};
      }
    }
    hide Visited;
  }

  lemma ActiveNext(cfg: Config, m: Manager, now: nat, rest: set<Endpoint>, e: Endpoint)
    requires Distinct(m) && e in rest && e in m.byEndpoint && m.byEndpoint[e] in m.active
    ensures var id, visited := m.byEndpoint[e], VisitedActive(cfg, m, rest, now);
      var polled, due := Poll(cfg, m.active[id], now), ActiveDatagrams(cfg, m, now);
      && id in visited && visited[id] == m.active[id]
      && VisitedActive(cfg, m, rest - {e}, now) == visited[id := polled.session]
      && (e in due <==> polled.outcome.Sent?)
      && (polled.outcome.Sent? ==> due[e] == Encode(polled.outcome.packet))
  {
    VisitNext(m, rest, e);
    hide Poll, Encode, Visited, Distinct;
  }

  lemma ActiveGather(cfg: Config, m: Manager, now: nat, rest: set<Endpoint>, e: Endpoint, expired: seq<Binding>)
    requires e in rest && e in m.byEndpoint && GatheredActive(cfg, m, rest, now, expired)
    requires m.byEndpoint[e] in m.active
    ensures var id := m.byEndpoint[e];
      var polled := Poll(cfg, m.active[id], now);
      var gone := !polled.outcome.Sent? && IsTerminal(polled.session.conn);
      GatheredActive(cfg, m, rest - {e}, now, if gone then expired + [Binding(e, id)] else expired)
  {
    hide Poll, IsTerminal;
  }

  lemma ActiveEnd(cfg: Config, m: Manager, now: nat, expired: seq<Binding>)
    requires GatheredActive(cfg, m, {}, now, expired)
    ensures VisitedActive(cfg, m, {}, now) == PolledBound(cfg, m, now)
    ensures forall b :: b in expired <==> ExpiresAt(cfg, m, now, b)
  {
    hide Poll, ExpiresAt;
    VisitEnd(m);
    hide Visited;
  }

  lemma VisitEnd(m: Manager)
    ensures forall id :: Visited(m, {}, id) <==> id in m.byEndpoint.Values
  {
  }

  // ----- cleanup -----

  /** The router once the named pending sessions are erased and their ids retired. */
  function WithoutPending(m: Manager, gone: set<Endpoint>): Manager {
    m.(pending := map e | e in m.pending && e !in gone :: m.pending[e],
       retired := m.retired + set e | e in gone && e in m.pending && m.pending[e].connId != 0 :: m.pending[e].connId)
  }

  /** The router once the named active sessions are erased and their ids retired. */
  function WithoutActive(m: Manager, gone: set<Binding>): Manager {
    var ids := set b | b in gone :: b.id;
    m.(active := map id | id in m.active && id !in ids :: m.active[id],
       byEndpoint := map e | e in m.byEndpoint && Binding(e, m.byEndpoint[e]) !in gone :: m.byEndpoint[e],
       retired := m.retired + (ids - {0}))
  }

  lemma WithoutNone(m: Manager)
    ensures WithoutPending(m, {}) == m && WithoutActive(m, {}) == m
  {
  }

  lemma WithoutNextPending(m: Manager, gone: set<Endpoint>, e: Endpoint)
    ensures CleanupPending(WithoutPending(m, gone), e) == WithoutPending(m, gone + {e})
  {
  }

  lemma WithoutNextActive(m: Manager, gone: set<Binding>, b: Binding)
    requires OwnsActive(m, b.endpoint, b.id)
    ensures CleanupActive(WithoutActive(m, gone), b.endpoint, b.id) == WithoutActive(m, gone + {b})
  {
  }

  // ----- one poll -----

  lemma ListsJoin(out: seq<OutboundDatagram>, d: map<Endpoint, seq<u8>>,
                  out': seq<OutboundDatagram>, d': map<Endpoint, seq<u8>>)
    requires Lists(out, d) && Lists(out', d')
    ensures d.Keys !! d'.Keys ==> Lists(out + out', d + d')
  {
    var all := out + out';
    forall e | e in d + d' ensures exists i :: 0 <= i < |all| && all[i].endpoint == e {
      if e in d {
        var i :| 0 <= i < |out| && out[i].endpoint == e;
        assert all[i].endpoint == e;
      } else {
        var i :| 0 <= i < |out'| && out'[i].endpoint == e;
        assert all[|out| + i].endpoint == e;
      }
    }
  }

  lemma PollFacts(cfg: Config, run: ManagerRun, now: nat)
    requires Inv(run)
    ensures Indexed(run.m)
    ensures PendingDatagrams(cfg, run.m, now).Keys !! ActiveDatagrams(cfg, run.m, now).Keys
    ensures forall b :: ExpiresAt(cfg, run.m, now, b) ==> OwnsActive(run.m, b.endpoint, b.id)
    ensures KeepsIds(cfg, run.m, now)
  {
    hide Books, Poll, Encode, ActiveOk;
    forall e | e in run.m.pending ensures Poll(cfg, run.m.pending[e], now).session.connId == run.m.pending[e].connId {
      assert PendingOk(run.m.pending[e]);
      SessionPoll(cfg, run.m.pending[e], now);
    }
  }

  ghost predicate KeepsIds(cfg: Config, m: Manager, now: nat) {
    forall e :: e in m.pending ==> Poll(cfg, m.pending[e], now).session.connId == m.pending[e].connId
  }

  /** Pending sessions have no part in what is done with the active ones. */
  lemma PendingApart(cfg: Config, m: Manager, pending: map<Endpoint, SessionState>, now: nat)
    ensures var other := m.(pending := pending);
      && (Indexed(m) ==> Distinct(other)) && PolledBound(cfg, other, now) == PolledBound(cfg, m, now)
      && ActiveDatagrams(cfg, other, now) == ActiveDatagrams(cfg, m, now)
      && (forall b :: ExpiresAt(cfg, other, now, b) <==> ExpiresAt(cfg, m, now, b))
  {
    var other := m.(pending := pending);
    SameDistinct(m, other);
    SameDatagrams(cfg, m, other, now);
    SameExpiry(cfg, m, other, now);
    hide Poll, Indexed, Distinct, ActiveDatagrams, ExpiresAt;
  }

  lemma SameDistinct(m: Manager, other: Manager)
    requires other.byEndpoint == m.byEndpoint
    ensures Indexed(m) ==> Distinct(other)
  {
  }

  lemma SameDatagrams(cfg: Config, m: Manager, other: Manager, now: nat)
    requires other.byEndpoint == m.byEndpoint && other.active == m.active
    ensures ActiveDatagrams(cfg, other, now) == ActiveDatagrams(cfg, m, now)
  {
    hide Poll, Encode, Sends;
    assert forall e :: Bound(other, e) <==> Bound(m, e);
    hide Bound;
  }

  lemma SameExpiry(cfg: Config, m: Manager, other: Manager, now: nat)
    requires other.byEndpoint == m.byEndpoint && other.active == m.active
    ensures forall b :: ExpiresAt(cfg, other, now, b) <==> ExpiresAt(cfg, m, now, b)
  {
    hide Expires;
  }

  lemma BoundIsAll(cfg: Config, m: Manager, now: nat)
    requires Indexed(m)
    ensures PolledBound(cfg, m, now) == map id | id in m.active :: Poll(cfg, m.active[id], now).session
  {
    hide Poll;
    AllBound(m);
    hide Indexed;
  }

  /** Every session polled once, none erased yet. */
  function AllPolled(cfg: Config, m: Manager, now: nat): Manager {
    m.(pending := map e | e in m.pending :: Poll(cfg, m.pending[e], now).session,
       active := map id | id in m.active :: Poll(cfg, m.active[id], now).session)
  }

  lemma ActiveIds(cfg: Config, m: Manager, now: nat, gone: set<Binding>)
    requires forall b :: b in gone <==> ExpiresAt(cfg, m, now, b)
    ensures (set b | b in gone :: b.id) == ExpiredActive(cfg, m, now)
  {
    hide Expires;
    forall id | id in ExpiredActive(cfg, m, now) ensures id in set b | b in gone :: b.id {
      var e :| e in m.byEndpoint && Bound(m, e) && Expires(cfg, m.active[m.byEndpoint[e]], now) &&
        id == m.byEndpoint[e];
      assert Binding(e, id) in gone;
    }
  }

  lemma PendingHalf(cfg: Config, m: Manager, now: nat, gone: set<Endpoint>)
    requires KeepsIds(cfg, m, now)
    requires forall e :: e in gone <==> e in m.pending && Expires(cfg, m.pending[e], now)
    ensures WithoutPending(AllPolled(cfg, m, now), gone) ==
      AllPolled(cfg, m, now).(pending := PolledPending(cfg, m, now), retired := m.retired + ExpiredPending(cfg, m, now))
  {
    hide Poll, Expires;
    var all := AllPolled(cfg, m, now);
    var result := WithoutPending(all, gone);
    assert result.pending == PolledPending(cfg, m, now);
    assert forall e :: e in m.pending ==> all.pending[e].connId == m.pending[e].connId;
    assert (set e | e in gone && e in all.pending && all.pending[e].connId != 0 :: all.pending[e].connId) ==
      ExpiredPending(cfg, m, now);
  }

  /** An endpoint's binding expires exactly when the session it names does. */
  lemma GoneIff(cfg: Config, m: Manager, now: nat, gone: set<Binding>)
    requires Indexed(m)
    requires forall b :: b in gone <==> ExpiresAt(cfg, m, now, b)
    ensures forall e :: e in m.byEndpoint ==>
      (Binding(e, m.byEndpoint[e]) in gone <==> m.byEndpoint[e] in ExpiredActive(cfg, m, now))
  {
  }

  lemma AllBound(m: Manager)
    requires Indexed(m)
    ensures forall id :: id in m.active ==> id in m.byEndpoint.Values
  {
  }

  lemma ActiveLeft(cfg: Config, m: Manager, now: nat)
    requires Indexed(m)
    ensures (map id | id in m.active && id !in ExpiredActive(cfg, m, now) :: Poll(cfg, m.active[id], now).session) ==
      PolledActive(cfg, m, now)
  {
    hide Poll, ExpiredActive;
    AllBound(m);
    hide Indexed;
  }

  lemma ActiveHalf(cfg: Config, m: Manager, now: nat, half: Manager, gone: set<Binding>)
    requires Indexed(m) && half.byEndpoint == m.byEndpoint
    requires half.active == map id | id in m.active :: Poll(cfg, m.active[id], now).session
    requires forall b :: b in gone <==> ExpiresAt(cfg, m, now, b)
    ensures var result := WithoutActive(half, gone);
      && result.active == PolledActive(cfg, m, now)
      && result.byEndpoint == Unexpired(cfg, m, now)
      && result.retired == half.retired + (ExpiredActive(cfg, m, now) - {0})
  {
    hide Poll, Expires, ExpiresAt, Indexed, ExpiredActive, PolledActive;
    ActiveIds(cfg, m, now, gone);
    GoneIff(cfg, m, now, gone);
    ActiveLeft(cfg, m, now);
    assert WithoutActive(half, gone).active ==
      map id | id in m.active && id !in ExpiredActive(cfg, m, now) :: Poll(cfg, m.active[id], now).session;
  }

  lemma PollAssembles(cfg: Config, m: Manager, now: nat, gone: set<Endpoint>, goneActive: set<Binding>)
    requires Indexed(m) && KeepsIds(cfg, m, now)
    requires forall e :: e in gone <==> e in m.pending && Expires(cfg, m.pending[e], now)
    requires forall b :: b in goneActive <==> ExpiresAt(cfg, m, now, b)
    ensures WithoutActive(WithoutPending(AllPolled(cfg, m, now), gone), goneActive) == ManagerSpec.PollTx(cfg, m, now)
  {
    PendingHalf(cfg, m, now, gone);
    ActiveHalf(cfg, m, now, WithoutPending(AllPolled(cfg, m, now), gone), goneActive);
    hide PolledPending, PolledActive, ExpiredPending, ExpiredActive, WithoutPending, Poll, Expires, ExpiresAt;
  }

  // ----- draining -----

  /** The events reported for one endpoint, in the order of the report. */
  function EventsOf(report: seq<ServerSessionEvent>, e: Endpoint): seq<Event> {
    if report == [] then []
    else
      var rest, last := EventsOf(report[..|report| - 1], e), report[|report| - 1];
      if last.endpoint == e then rest + [last.event] else rest
  }

  function Tag(id: u32): Option<u32> { if id != 0 then Some(id) else None }

  /** Every entry of the report names the session of its endpoint. */
  ghost predicate Tagged(m: Manager, report: seq<ServerSessionEvent>) {
    forall i :: 0 <= i < |report| ==>
      var r := report[i];
      || (r.endpoint in m.pending && r.connId == Tag(m.pending[r.endpoint].connId))
      || (r.endpoint in m.byEndpoint && r.connId == Some(m.byEndpoint[r.endpoint]))
  }

  /** The report holds, for each endpoint outside `rest` and `restActive`, all its events in order, and no others. */
  ghost predicate Reported(m: Manager, report: seq<ServerSessionEvent>, rest: set<Endpoint>, restActive: set<Endpoint>)
  {
    Tagged(m, report) && forall e :: EventsOf(report, e) == Due(m, e, rest, restActive)
  }

  /** The events of the session of `e`, once it has been visited. */
  function Due(m: Manager, e: Endpoint, rest: set<Endpoint>, restActive: set<Endpoint>): seq<Event> {
    if e in m.pending then if e in rest then [] else m.pending[e].rx.events
    else if Bound(m, e) && e !in restActive then m.active[m.byEndpoint[e]].rx.events
    else []
  }

  lemma NextEvent(report: seq<ServerSessionEvent>, r: ServerSessionEvent)
    ensures forall e ::
      EventsOf(report + [r], e) == EventsOf(report, e) + if r.endpoint == e then [r.event] else []
  {
  }

  function DrainedPending(pending: map<Endpoint, SessionState>, rest: set<Endpoint>): map<Endpoint, SessionState> {
    map e | e in pending :: if e in rest then pending[e] else S.DrainEvents(pending[e])
  }

  ghost function DrainedActive(m: Manager, rest: set<Endpoint>): map<u32, SessionState> {
    map id | id in m.active :: if Visited(m, rest, id) then S.DrainEvents(m.active[id]) else m.active[id]
  }

  lemma ReportStart(m: Manager)
    ensures DrainedPending(m.pending, m.pending.Keys) == m.pending
    ensures Reported(m, [], m.pending.Keys, m.byEndpoint.Keys)
  {
  }

  /** `e` is the next to be visited, with the id and the events that its session has. */
  predicate IsNext(m: Manager, rest: set<Endpoint>, restActive: set<Endpoint>, e: Endpoint, drained: seq<Event>,
                   id: Option<u32>)
  {
    if e in m.pending then e in rest && id == Tag(m.pending[e].connId) && drained == m.pending[e].rx.events
    else Bound(m, e) && e in restActive && id == Some(m.byEndpoint[e]) && drained == m.active[m.byEndpoint[e]].rx.events
  }

  lemma TaggedNext(m: Manager, report: seq<ServerSessionEvent>, longer: seq<ServerSessionEvent>, e: Endpoint,
                   id: Option<u32>)
    requires Tagged(m, report) && report <= longer
    requires forall i :: |report| <= i < |longer| ==> longer[i].endpoint == e && longer[i].connId == id
    requires (e in m.pending && id == Tag(m.pending[e].connId)) || (e in m.byEndpoint && id == Some(m.byEndpoint[e]))
    ensures Tagged(m, longer)
  {
    forall i | 0 <= i < |longer| ensures i < |report| ==> longer[i] == report[i] {
    }
  }

  lemma DueNext(m: Manager, rest: set<Endpoint>, restActive: set<Endpoint>, e: Endpoint, drained: seq<Event>,
                id: Option<u32>, f: Endpoint)
    requires IsNext(m, rest, restActive, e, drained, id)
    ensures var due := Due(m, f, rest, restActive) + if f == e then drained else [];
      && (e in m.pending ==> Due(m, f, rest - {e}, restActive) == due)
      && (e !in m.pending ==> Due(m, f, rest, restActive - {e}) == due)
  {
    assert [] + drained == drained;
  }

  lemma ReportNext(m: Manager, report: seq<ServerSessionEvent>, longer: seq<ServerSessionEvent>, rest: set<Endpoint>,
                   restActive: set<Endpoint>, e: Endpoint, drained: seq<Event>, id: Option<u32>)
    requires Reported(m, report, rest, restActive) && report <= longer
    requires forall i :: |report| <= i < |longer| ==> longer[i].endpoint == e && longer[i].connId == id
    requires forall f :: EventsOf(longer, f) == EventsOf(report, f) + if f == e then drained else []
    requires IsNext(m, rest, restActive, e, drained, id)
    ensures e in m.pending ==> Reported(m, longer, rest - {e}, restActive)
    ensures e !in m.pending ==> Reported(m, longer, rest, restActive - {e})
  {
    hide EventsOf, Due;
    TaggedNext(m, report, longer, e, id);
    hide Tagged;
    forall f
      ensures e in m.pending ==> EventsOf(longer, f) == Due(m, f, rest - {e}, restActive)
      ensures e !in m.pending ==> EventsOf(longer, f) == Due(m, f, rest, restActive - {e})
    {
      DueNext(m, rest, restActive, e, drained, id, f);
    }
  }

  lemma DrainStart(m: Manager)
    ensures DrainedActive(m, m.byEndpoint.Keys) == m.active
  {
  }

  lemma DrainNext(m: Manager, rest: set<Endpoint>, e: Endpoint)
    requires Distinct(m) && e in rest && e in m.byEndpoint && m.byEndpoint[e] in m.active
    ensures var id, visited := m.byEndpoint[e], DrainedActive(m, rest);
      && id in visited && visited[id] == m.active[id]
      && DrainedActive(m, rest - {e}) == visited[id := S.DrainEvents(m.active[id])]
  {
    VisitNext(m, rest, e);
    hide Visited, Distinct;
  }

  lemma DrainSkip(m: Manager, report: seq<ServerSessionEvent>, rest: set<Endpoint>, e: Endpoint)
    requires Distinct(m) && e in rest && e in m.byEndpoint && m.byEndpoint[e] !in m.active
    requires Reported(m, report, {}, rest)
    ensures m.byEndpoint[e] !in DrainedActive(m, rest) && DrainedActive(m, rest - {e}) == DrainedActive(m, rest)
    ensures Reported(m, report, {}, rest - {e})
  {
    VisitNext(m, rest, e);
    hide Visited, Distinct, EventsOf;
  }

  lemma DrainEnd(m: Manager)
    ensures DrainedActive(m, {}) == DrainAll(m).active
  {
    VisitEnd(m);
    hide Visited;
  }

  lemma DrainFacts(run: ManagerRun)
    requires Inv(run)
    ensures Distinct(run.m) && run.m.byEndpoint.Keys !! run.m.pending.Keys
  {
  }

  lemma DrainAssembles(m: Manager)
    ensures m.(pending := DrainedPending(m.pending, {}), active := DrainAll(m).active) == DrainAll(m)
  {
    assert DrainAll(m).pending == DrainedPending(m.pending, {});
  }
}
