/**
 * When the connection-id check fires, exactly. On the client it never does. On the server it fires
 * for a datagram of the client if and only if that datagram carries id 0, is not a SYN, and finds the
 * server out of Closed; and a run can be continued to that point if and only if the client has emitted such a
 * datagram and the server is, or can be brought, out of Closed.
 */
module IdCheck {
  import opened Protocol
  import opened Codec
  import opened SessionTypes
  import opened ConnectionStateMachine
  import opened SessionSpec
  import opened SessionRuns
  import opened SessionHistory
  import opened EndToEnd
  import opened Handshake
  import Life = SessionLifecycle
  import Rx = RxSpec
  import Sender = TxRuns

  // ----- what a client sends -----

  /** The packet carries no id or the server's, and flags that a client sends. */
  predicate Speaks(p: Packet, id: u32) {
    p.header.connId in {0, id} && p.header.flags in {0, SYN, SYN_ACK, ACK, FIN, PING, PONG}
  }

  ghost predicate ClientSpeaks(cli: History, id: u32) {
    && (forall p :: p in cli.log.issued ==> Speaks(p, id))
    && (forall e :: e in cli.emitted ==> Decode(e.bytes).Some? && Speaks(Decode(e.bytes).value, id))
  }

  lemma ClientSpeaksKeeps(cfg: Config, cli: History, a: Action, id: u32)
    requires ClientSide(cli, id) && ClientSpeaks(cli, id) && Sender.Inv(cfg, cli.Sending())
    ensures ClientSpeaks(Advance(cfg, cli, a), id)
  {
    hide Sender.Inv, PollTx, Decode, Encode, PollTrace, MidConn, Visit;
    var cli' := Advance(cfg, cli, a);
    if a.PollAt? {
      PollReason(cfg, cli, a.now);
      PollIssues(cfg, cli, a.now);
      var o := PollTx(cfg, cli.session, a.now).outcome;
      if o.Sent? {
        DecodeEncode(o.packet);
        assert Speaks(Sender.Content(o.packet), id) <==> Speaks(o.packet, id);
      }
      forall p | p in cli'.log.issued ensures Speaks(p, id) {
        assert p in PolledLog(cfg, cli, a.now).issued;
      }
      forall e | e in cli'.emitted ensures Decode(e.bytes).Some? && Speaks(Decode(e.bytes).value, id) {
        if e !in cli.emitted { assert e.bytes == Encode(o.packet); }
      }
    } else {
      StepIssues(cfg, cli, a);
      hide Step, TxTrace;
      assert cli'.emitted == cli.emitted;
    }
  }

  ghost predicate Emitted(h: History, p: Packet) {
    exists e :: e in h.emitted && Decode(e.bytes) == Some(p)
  }

  ghost predicate EmittedSyn(h: History) { exists p :: Emitted(h, p) && p.header.flags == SYN }

  /** A packet that a server takes for a stranger's once it has left Closed. */
  predicate IsEarly(p: Packet) { p.header.connId == 0 && p.header.flags != SYN }

  ghost predicate EmittedEarly(h: History) { exists p :: Emitted(h, p) && IsEarly(p) }

  lemma EmittedStays(cfg: Config, h: History, a: Action)
    ensures EmittedSyn(h) ==> EmittedSyn(Advance(cfg, h, a))
  {
    hide Step, TxTrace, MidConn, EmissionsOf, Decode;
    if EmittedSyn(h) {
      var p :| Emitted(h, p) && p.header.flags == SYN;
      var e :| e in h.emitted && Decode(e.bytes) == Some(p);
      assert e in Advance(cfg, h, a).emitted;
      assert Emitted(Advance(cfg, h, a), p);
    }
  }

  // ----- how a server leaves Closed -----

  lemma MidNotAccepted(cfg: Config, s: SessionState, a: Action)
    ensures MidConn(cfg, s, a) == HandshakeReceived ==> s.conn == HandshakeReceived
  {
    hide TxPoll, AfterAck;
    match a {
      case PollAt(now) => Life.PollConn(cfg, s, now);
      case Receive(bytes, now) =>
        if Decode(bytes).Some? {
          var p := Decode(bytes).value;
          Life.AfterAckConn(cfg, Admitted(s, p, |bytes|, now), Classify(p.header.flags), p.header, now);
        }
      case _ =>
    }
  }

  lemma AcceptedByPacket(cfg: Config, s: SessionState, p: Packet, size: nat, now: nat)
    requires s.conn != HandshakeReceived && OnPacket(cfg, s, p, size, now).conn == HandshakeReceived
    ensures Classify(p.header.flags) == KSyn
  {
    hide AfterAck, AfterDecision, Classify, ApplyDecision, Rx.OnPacket;
    var kind := Classify(p.header.flags);
    var a := Admitted(s, p, size, now);
    Life.AfterAckConn(cfg, a, kind, p.header, now);
    Life.AfterDecisionConn(cfg, AfterAck(cfg, a, kind, p.header, now), p, now);
  }

  /** Accepting takes a SYN. */
  lemma AcceptNeeds(cfg: Config, h: History, a: Action)
    requires Local(h) && AcceptedSyn(Advance(cfg, h, a)) && !AcceptedSyn(h)
    ensures a.Receive? && Decode(a.bytes).Some? && Classify(Decode(a.bytes).value.header.flags) == KSyn
  {
    var s := h.session;
    MidNotAccepted(cfg, s, a);
    assert s.conn in h.trace;
    assert Step(cfg, s, a).conn == HandshakeReceived by {
      hide Step, MidConn, TxTrace, EmissionsOf;
    }
    hide TxTrace, EmissionsOf, Visit, OnPacket, PollTx, AfterAck, TxPoll;
    match a {
      case PollAt(now) => Life.PollConn(cfg, s, now);
      case Receive(bytes, now) =>
        if Decode(bytes).Some? { AcceptedByPacket(cfg, s, Decode(bytes).value, |bytes|, now); }
      case _ =>
    }
  }

  // ----- whole runs -----

  ghost predicate Spoken(cfg: Config, sys: System, id: u32) {
    && Good(cfg, sys, id) && ClientSpeaks(sys.client, id)
    && (AcceptedSyn(sys.server) ==> EmittedSyn(sys.client))
  }

  lemma TakenFrom(y: History, bytes: seq<u8>) returns (p: Packet)
    requires Local(y) && WasEmitted(y, bytes)
    ensures Decode(bytes) == Some(p) && p.header.flags < 64 && Origin(y, p) && Emitted(y, p)
  {
    p := Arrival(y, bytes);
    hide Decode;
  }

  lemma StepIsSpoken(cfg: Config, sys: System, act: SystemAction, id: u32)
    requires Spoken(cfg, sys, id) && Enabled(sys, act)
    ensures Spoken(cfg, SystemStep(cfg, sys, act), id)
  {
    hide Sender.Inv, Local, ServerId, ClientSide, ClientSpeaks, EmittedSyn, Advance, Decode, Classify;
    StepIsGood(cfg, sys, act, id);
    match act {
      case ClientDoes(a) =>
        ClientSpeaksKeeps(cfg, sys.client, a, id);
        EmittedStays(cfg, sys.client, a);
      case ServerDoes(a) =>
        if AcceptedSyn(Advance(cfg, sys.server, a)) && !AcceptedSyn(sys.server) {
          AcceptNeeds(cfg, sys.server, a);
          var p := TakenFrom(sys.client, a.bytes);
          ClassifyValues(p.header.flags);
          SynWasEmitted(sys.client, p);
        }
    }
  }

  lemma SynWasEmitted(h: History, p: Packet)
    requires Emitted(h, p) && p.header.flags == SYN
    ensures EmittedSyn(h)
  {
    hide Emitted;
  }

  lemma {:induction false} RunsAreSpoken(cfg: Config, sys: System, acts: seq<SystemAction>, id: u32)
    requires Spoken(cfg, sys, id) && Admissible(cfg, sys, acts)
    ensures Spoken(cfg, SystemRun(cfg, sys, acts), id)
    decreases |acts|
  {
    hide Spoken, SystemStep, Enabled, Admissible;
    if acts != [] {
      AdmissiblePrefix(cfg, sys, acts);
      RunsAreSpoken(cfg, sys, acts[..|acts| - 1], id);
      StepIsSpoken(cfg, SystemRun(cfg, sys, acts[..|acts| - 1]), acts[|acts| - 1], id);
    }
  }

  lemma ReachedIsSpoken(cfg: Config, clientIsn: u32, serverIsn: u32, id: u32, acts: seq<SystemAction>)
    requires Admissible(cfg, SystemStart(clientIsn, serverIsn, id), acts)
    ensures Spoken(cfg, SystemRun(cfg, SystemStart(clientIsn, serverIsn, id), acts), id)
  {
    StartIsGood(cfg, clientIsn, serverIsn, id);
    hide Good, Admissible;
    RunsAreSpoken(cfg, SystemStart(clientIsn, serverIsn, id), acts, id);
  }

  // ----- the check, datagram by datagram -----

  /** Whatever the server has emitted passes the client's check, in every run. */
  lemma ClientNeverTrips(cfg: Config, clientIsn: u32, serverIsn: u32, id: u32, acts: seq<SystemAction>, bytes: seq<u8>)
    requires Admissible(cfg, SystemStart(clientIsn, serverIsn, id), acts)
    requires WasEmitted(SystemRun(cfg, SystemStart(clientIsn, serverIsn, id), acts).server, bytes)
    ensures PassesIdCheck(SystemRun(cfg, SystemStart(clientIsn, serverIsn, id), acts).client.session, bytes)
  {
    hide Sender.Inv, Local, ServerId, ClientSide, PassesIdCheck, Admissible, SystemRun, WasEmitted;
    StartIsGood(cfg, clientIsn, serverIsn, id);
    RunsAreGood(cfg, SystemStart(clientIsn, serverIsn, id), acts, id);
    var sys := SystemRun(cfg, SystemStart(clientIsn, serverIsn, id), acts);
    ClientPasses(sys.client, sys.server, bytes, id);
  }

  lemma TripsOn(srv: History, cli: History, bytes: seq<u8>, id: u32)
    requires ServerId(srv, id) && ClientSpeaks(cli, id) && WasEmitted(cli, bytes)
    ensures Decode(bytes).Some?
    ensures !PassesIdCheck(srv.session, bytes) <==>
      id != 0 && srv.session.conn != Closed && IsEarly(Decode(bytes).value)
  {
    var e :| e in cli.emitted && e.bytes == bytes;
    hide Decode, Classify;
    ClassifyValues(Decode(bytes).value.header.flags);
  }

  /**
   * In every run, a datagram of the client trips the server's check if and only if it carries id 0, is not
   * a SYN, and finds the server out of Closed.
   */
  lemma ServerTripsExactly(cfg: Config, clientIsn: u32, serverIsn: u32, id: u32, acts: seq<SystemAction>,
                           bytes: seq<u8>)
    requires Admissible(cfg, SystemStart(clientIsn, serverIsn, id), acts)
    requires WasEmitted(SystemRun(cfg, SystemStart(clientIsn, serverIsn, id), acts).client, bytes)
    ensures Decode(bytes).Some?
    ensures var server := SystemRun(cfg, SystemStart(clientIsn, serverIsn, id), acts).server.session;
      !PassesIdCheck(server, bytes) <==> id != 0 && server.conn != Closed && IsEarly(Decode(bytes).value)
  {
    hide Sender.Inv, Local, ServerId, ClientSide, ClientSpeaks, PassesIdCheck;
    hide Admissible, SystemRun, WasEmitted, Decode;
    ReachedIsSpoken(cfg, clientIsn, serverIsn, id, acts);
    var sys := SystemRun(cfg, SystemStart(clientIsn, serverIsn, id), acts);
    TripsOn(sys.server, sys.client, bytes, id);
  }

  // ----- can a run still trip it? -----

  predicate ServerReceives(acts: seq<SystemAction>) {
    forall i :: 0 <= i < |acts| ==> acts[i].ServerDoes? && acts[i].a.Receive?
  }

  /** Some of the datagrams emitted so far, delivered to the server in some order, trip its check. */
  ghost predicate CanTrip(cfg: Config, sys: System) {
    exists more, bytes ::
      && ServerReceives(more) && Admissible(cfg, sys, more) && WasEmitted(sys.client, bytes)
      && !PassesIdCheck(SystemRun(cfg, sys, more).server.session, bytes)
  }

  lemma {:induction false} ClientWaits(cfg: Config, sys: System, more: seq<SystemAction>)
    requires ServerReceives(more)
    ensures SystemRun(cfg, sys, more).client == sys.client
    decreases |more|
  {
    if more != [] {
      hide Advance;
      ClientWaits(cfg, sys, more[..|more| - 1]);
    }
  }

  /** A packet other than SYN, FIN and RST leaves a server in Closed. */
  lemma ClosedStays(cfg: Config, s: SessionState, p: Packet, size: nat, now: nat)
    requires s.role == Server && s.conn == Closed && p.header.connId in {0, s.connId}
    requires Classify(p.header.flags) in {KNone, KSynAck, KAck, KPing, KPong}
    ensures OnPacket(cfg, s, p, size, now).conn == Closed
  {
    hide AfterAck, AfterDecision, Classify, ApplyDecision, Rx.OnPacket;
    var kind := Classify(p.header.flags);
    var a := Admitted(s, p, size, now);
    Life.AfterAckConn(cfg, a, kind, p.header, now);
    Life.AfterDecisionConn(cfg, AfterAck(cfg, a, kind, p.header, now), p, now);
  }

  lemma StepStaysClosed(cfg: Config, sys: System, act: SystemAction, id: u32)
    requires Spoken(cfg, sys, id) && Enabled(sys, act) && act.ServerDoes? && act.a.Receive?
    requires sys.server.session.conn == Closed && !EmittedSyn(sys.client)
    ensures SystemStep(cfg, sys, act).server.session.conn == Closed
  {
    hide Sender.Inv, Local, ClientSide, EmittedSyn, OnPacket, TxTrace, EmissionsOf, MidConn, Visit;
    var p := TakenFrom(sys.client, act.a.bytes);
    assert Speaks(p, id);
    ClassifyValues(p.header.flags);
    hide Decode, Classify;
    if p.header.flags == SYN { SynWasEmitted(sys.client, p); }
    ClosedStays(cfg, sys.server.session, p, |act.a.bytes|, act.a.now);
  }

  lemma {:induction false} RunStaysClosed(cfg: Config, sys: System, more: seq<SystemAction>, id: u32)
    requires Spoken(cfg, sys, id) && ServerReceives(more) && Admissible(cfg, sys, more)
    requires sys.server.session.conn == Closed && !EmittedSyn(sys.client)
    ensures SystemRun(cfg, sys, more).server.session.conn == Closed
    decreases |more|
  {
    hide Spoken, SystemStep, Enabled, Admissible, EmittedSyn;
    if more != [] {
      var front := more[..|more| - 1];
      AdmissiblePrefix(cfg, sys, more);
      RunsAreSpoken(cfg, sys, front, id);
      ClientWaits(cfg, sys, front);
      RunStaysClosed(cfg, sys, front, id);
      StepStaysClosed(cfg, SystemRun(cfg, sys, front), more[|more| - 1], id);
    }
  }

  /** A SYN brings a server out of Closed. */
  lemma SynOpens(cfg: Config, s: SessionState, p: Packet, size: nat, now: nat)
    requires s.role == Server && s.conn == Closed && p.header.flags == SYN
    ensures OnPacket(cfg, s, p, size, now).conn == HandshakeReceived
  {
    hide AfterAck, AfterDecision, ApplyDecision, Rx.OnPacket;
    assert Classify(SYN) == KSyn;
    hide Classify;
    var a := Admitted(s, p, size, now);
    Life.AfterAckConn(cfg, a, KSyn, p.header, now);
    Life.AfterDecisionConn(cfg, AfterAck(cfg, a, KSyn, p.header, now), p, now);
  }

  lemma OneReceive(cfg: Config, sys: System, bytes: seq<u8>) returns (more: seq<SystemAction>)
    requires WasEmitted(sys.client, bytes)
    ensures more == [ServerDoes(Receive(bytes, 0))] && ServerReceives(more) && Admissible(cfg, sys, more)
    ensures SystemRun(cfg, sys, more) == SystemStep(cfg, sys, more[0])
  {
    hide Advance;
    more := [ServerDoes(Receive(bytes, 0))];
    assert more[..0] == [];
  }

  lemma TripsNext(cfg: Config, sys: System, id: u32)
    requires Spoken(cfg, sys, id) && id != 0 && EmittedEarly(sys.client)
    requires sys.server.session.conn != Closed || EmittedSyn(sys.client)
    ensures CanTrip(cfg, sys)
  {
    hide Sender.Inv, Local, ClientSide, ClientSpeaks, ServerId, PassesIdCheck, OnPacket, Decode, Classify;
    var p :| Emitted(sys.client, p) && IsEarly(p);
    var e :| e in sys.client.emitted && Decode(e.bytes) == Some(p);
    assert WasEmitted(sys.client, e.bytes);
    var more := [];
    if sys.server.session.conn == Closed {
      var q :| Emitted(sys.client, q) && q.header.flags == SYN;
      var f :| f in sys.client.emitted && Decode(f.bytes) == Some(q);
      more := OneReceive(cfg, sys, f.bytes);
      ServerIs(sys.server, id);
      SynOpens(cfg, sys.server.session, q, |f.bytes|, 0);
      RunsAreSpoken(cfg, sys, more, id);
      assert SystemRun(cfg, sys, more).server.session == OnPacket(cfg, sys.server.session, q, |f.bytes|, 0) by {
        hide TxTrace, EmissionsOf, MidConn, Visit;
      }
    } else {
      assert SystemRun(cfg, sys, more) == sys;
    }
    ClientWaits(cfg, sys, more);
    TripsOn(SystemRun(cfg, sys, more).server, sys.client, e.bytes, id);
  }

  lemma ServerIs(srv: History, id: u32)
    requires ServerId(srv, id)
    ensures srv.session.role == Server && srv.session.connId == id
  {
  }

  lemma TripsOnlyThen(cfg: Config, sys: System, id: u32)
    requires Spoken(cfg, sys, id) && CanTrip(cfg, sys)
    ensures id != 0 && EmittedEarly(sys.client)
    ensures sys.server.session.conn != Closed || EmittedSyn(sys.client)
  {
    hide Sender.Inv, Local, ClientSide, ClientSpeaks, ServerId, PassesIdCheck;
    hide Admissible, SystemRun, Decode, EmittedSyn;
    var more, bytes :| ServerReceives(more) && Admissible(cfg, sys, more) && WasEmitted(sys.client, bytes) &&
      !PassesIdCheck(SystemRun(cfg, sys, more).server.session, bytes);
    ClientWaits(cfg, sys, more);
    RunsAreSpoken(cfg, sys, more, id);
    TripsOn(SystemRun(cfg, sys, more).server, sys.client, bytes, id);
    assert Emitted(sys.client, Decode(bytes).value);
    if sys.server.session.conn == Closed && !EmittedSyn(sys.client) {
      RunStaysClosed(cfg, sys, more, id);
    }
  }

  /**
   * From any reached state, delivering datagrams to the server can trip its check if and only if the client
   * has emitted a datagram with id 0 that is not a SYN, and the server is out of Closed or a SYN was emitted.
   */
  lemma MismatchReachable(cfg: Config, clientIsn: u32, serverIsn: u32, id: u32, acts: seq<SystemAction>)
    requires Admissible(cfg, SystemStart(clientIsn, serverIsn, id), acts)
    ensures var sys := SystemRun(cfg, SystemStart(clientIsn, serverIsn, id), acts);
      CanTrip(cfg, sys) <==>
        && id != 0 && EmittedEarly(sys.client)
        && (sys.server.session.conn != Closed || EmittedSyn(sys.client))
  {
    hide Spoken, SystemRun, Admissible, CanTrip, EmittedEarly, EmittedSyn;
    ReachedIsSpoken(cfg, clientIsn, serverIsn, id, acts);
    var sys := SystemRun(cfg, SystemStart(clientIsn, serverIsn, id), acts);
    if CanTrip(cfg, sys) {
      TripsOnlyThen(cfg, sys, id);
    } else if id != 0 && EmittedEarly(sys.client) && (sys.server.session.conn != Closed || EmittedSyn(sys.client)) {
      TripsNext(cfg, sys, id);
    }
  }
}
