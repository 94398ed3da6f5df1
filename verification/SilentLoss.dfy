/**
 * Why the arrivals have to be clean: an admissible run, with the default settings, in which the client releases
 * a number as acknowledged although no packet with that number ever reached the server. The client's final ACK is
 * lost, and of its four requests only the third and then the first arrive; the shifted bitmap, or a front at number
 * 0 that jumps ahead, then acknowledges one of the others.
 */
module SilentLoss {
  import opened Protocol
  import opened Bits
  import opened Codec
  import opened SessionTypes
  import opened ConnectionStateMachine
  import opened SessionSpec
  import opened SessionRuns
  import opened SessionHistory
  import opened EndToEnd
  import opened Handshake
  import opened FirstContact
  import opened Reliability
  import opened RxWindow
  import Life = SessionLifecycle
  import opened SessionAccounts
  import Tx = TxSpec
  import Rx = RxSpec
  import Sender = TxRuns

  const CFG := DEFAULT_CONFIG

  // ----- telling a run step by step -----

  /** No packet with the number `s` reaches the server. */
  predicate NeverArrives(acts: seq<SystemAction>, s: u32) {
    forall i :: 0 <= i < |acts| && acts[i].ServerDoes? && acts[i].a.Receive? && Decode(acts[i].a.bytes).Some? ==>
      Decode(acts[i].a.bytes).value.header.seqNo != s
  }

  ghost predicate Tells(start: System, acts: seq<SystemAction>, sys: System, missing: u32) {
    Admissible(CFG, start, acts) && NeverArrives(acts, missing) && sys == SystemRun(CFG, start, acts)
  }

  /** One more enabled step. */
  lemma OneStepMore(cfg: Config, start: System, acts: seq<SystemAction>, act: SystemAction)
    requires Admissible(cfg, start, acts) && Enabled(SystemRun(cfg, start, acts), act)
    ensures Admissible(cfg, start, acts + [act])
    ensures SystemRun(cfg, start, acts + [act]) == SystemStep(cfg, SystemRun(cfg, start, acts), act)
  {
    hide Enabled, Advance;
    var acts' := acts + [act];
    assert acts'[..|acts|] == acts;
    hide SystemRun;
    forall i | 0 <= i < |acts'| ensures Enabled(SystemRun(cfg, start, acts'[..i]), acts'[i]) {
      if i < |acts| { assert acts'[..i] == acts[..i] && acts'[i] == acts[i]; }
    }
  }

  lemma Extend(start: System, acts: seq<SystemAction>, sys: System, missing: u32, act: SystemAction)
    requires Tells(start, acts, sys, missing) && Enabled(sys, act) && NeverArrives([act], missing)
    ensures Tells(start, acts + [act], SystemStep(CFG, sys, act), missing)
  {
    hide Decode, Enabled, SystemStep, SystemRun, Admissible;
    OneStepMore(CFG, start, acts, act);
    assert [act][0] == act;
  }

  /** What has been emitted stays available. */
  ghost predicate Keeps(h: History, h': History) {
    forall bytes :: WasEmitted(h, bytes) ==> WasEmitted(h', bytes)
  }

  lemma AdvanceKeeps(h: History, a: Action)
    ensures Keeps(h, Advance(CFG, h, a)) && Advance(CFG, h, a).session == Step(CFG, h.session, a)
  {
    hide Step, TxTrace, MidConn, Visit, EmissionsOf;
    var h' := Advance(CFG, h, a);
    forall bytes | WasEmitted(h, bytes) ensures WasEmitted(h', bytes) {
      var e :| e in h.emitted && e.bytes == bytes;
      assert e in h'.emitted;
    }
  }

  lemma PollEmits(h: History, now: nat, p: Packet, lane: Tx.Lane)
    requires PollTx(CFG, h.session, now).outcome == Tx.Sent(p, lane)
    ensures WasEmitted(Advance(CFG, h, PollAt(now)), Encode(p))
  {
    hide PollTx, Step, TxTrace, MidConn, Visit, Encode;
    var e := Emission(Encode(p), lane == Tx.Retransmit);
    assert EmissionsOf(CFG, h.session, PollAt(now)) == [e];
    assert e in Advance(CFG, h, PollAt(now)).emitted;
  }

  /** A side polls and sends `p`. */
  lemma Polls(start: System, acts: seq<SystemAction>, sys: System, missing: u32, act: SystemAction,
              p: Packet, lane: Tx.Lane)
    requires Tells(start, acts, sys, missing) && act.a.PollAt?
    requires var h := if act.ClientDoes? then sys.client else sys.server;
      PollTx(CFG, h.session, act.a.now).outcome == Tx.Sent(p, lane)
    ensures var h := if act.ClientDoes? then sys.client else sys.server;
      var sys' := SystemStep(CFG, sys, act);
      var h' := if act.ClientDoes? then sys'.client else sys'.server;
      && Tells(start, acts + [act], sys', missing) && WasEmitted(h', Encode(p)) && Keeps(h, h')
      && h'.session == PollTx(CFG, h.session, act.a.now).session
      && (if act.ClientDoes? then sys'.server == sys.server else sys'.client == sys.client)
  {
    hide PollTx, Tells, Encode, Advance, WasEmitted, Keeps;
    var h := if act.ClientDoes? then sys.client else sys.server;
    Extend(start, acts, sys, missing, act);
    AdvanceKeeps(h, act.a);
    PollEmits(h, act.a.now, p, lane);
  }

  /** A side takes in `p`. */
  lemma Takes(start: System, acts: seq<SystemAction>, sys: System, missing: u32, act: SystemAction, p: Packet)
    requires Tells(start, acts, sys, missing) && act.a.Receive? && act.a.bytes == Encode(p) && IsValidHeader(p.header)
    requires WasEmitted(if act.ClientDoes? then sys.server else sys.client, Encode(p))
    requires act.ServerDoes? ==> p.header.seqNo != missing
    ensures var h := if act.ClientDoes? then sys.client else sys.server;
      var sys' := SystemStep(CFG, sys, act);
      var h' := if act.ClientDoes? then sys'.client else sys'.server;
      && Tells(start, acts + [act], sys', missing) && Keeps(h, h')
      && h'.session == OnPacket(CFG, h.session, p, |Encode(p)|, act.a.now)
      && (if act.ClientDoes? then sys'.server == sys.server else sys'.client == sys.client)
  {
    hide OnPacket, Tells, Encode, Decode, Advance, WasEmitted, Keeps;
    var h := if act.ClientDoes? then sys.client else sys.server;
    DecodeEncode(p);
    Extend(start, acts, sys, missing, act);
    AdvanceKeeps(h, act.a);
  }

  lemma Queues(start: System, acts: seq<SystemAction>, sys: System, missing: u32, act: SystemAction)
    requires Tells(start, acts, sys, missing) && act.a.Queue?
    ensures var h := if act.ClientDoes? then sys.client else sys.server;
      var sys' := SystemStep(CFG, sys, act);
      var h' := if act.ClientDoes? then sys'.client else sys'.server;
      && Tells(start, acts + [act], sys', missing) && Keeps(h, h')
      && h'.session == QueueSend(h.session, act.a.request)
      && (if act.ClientDoes? then sys'.server == sys.server else sys'.client == sys.client)
  {
    hide Tells, Advance, WasEmitted, Keeps;
    Extend(start, acts, sys, missing, act);
    AdvanceKeeps(if act.ClientDoes? then sys.client else sys.server, act.a);
  }

  // ----- the server takes two of four requests, and answers -----

  /** The handshake is not finished; nothing to send, and nothing in flight but possibly the SYN-ACK. */
  predicate Waiting(s: SessionState, serverIsn: u32, id: u32, next: u32, bits: u64) {
    && s.role == Server && s.connId == id && s.conn == HandshakeReceived
    && s.rx.nextExpected == next && s.rx.receivedBits == bits
    && s.tx.pendingSend == [] && s.tx.inflight.Keys <= {serverIsn}
    && var f := s.tx.flags;
      f == NO_FLAGS.(reliableAckPending := f.reliableAckPending, reliableAckDueMs := f.reliableAckDueMs)
  }

  lemma RequestTaken(s: SessionState, serverIsn: u32, id: u32, next: u32, bits: u64, p: Packet, size: nat, now: nat)
    requires Waiting(s, serverIsn, id, next, bits) && p.header.connId == id && p.header.flags == 0
    requires IsReliableChannel(p.header.channelType) && p.header.ack == Inc(serverIsn) && p.header.ackBits == 0
    ensures var s', rx' := OnPacket(CFG, s, p, size, now), Rx.Arrive(s.rx, p.header.seqNo).rx;
      Waiting(s', serverIsn, id, rx'.nextExpected, rx'.receivedBits) && s'.tx.inflight == map[]
  {
    assert Classify(0) == KNone;
    DataReaches(CFG, s, p, size, now);
    DeliverFields(Rx.UpdateReceiveState(s.rx, p.header, KNone).rx, p);
    assert Tx.IsAcked(serverIsn, Inc(serverIsn), 0);
    hide Classify, Rx.Arrive, Rx.Deliver, Tx.FinAcked, Tx.IsAcked;
    var m := AfterAck(CFG, Admitted(s, p, size, now), KNone, p.header, now);
    assert m.tx.inflight == map[] && m.conn == HandshakeReceived;
    hide AfterAck;
  }

  const REPLY := SendRequest(0, UNRELIABLE, [])

  function ReplyPacket(id: u32, af: Tx.AckFields): Packet {
    Packet(MakeHeader(id, 0, af.ack, af.ackBits, 0, UNRELIABLE, 0), [])
  }

  lemma Replies(s: SessionState, serverIsn: u32, id: u32, next: u32, bits: u64, now: nat)
    requires Waiting(s, serverIsn, id, next, bits) && s.tx.inflight == map[]
    ensures PollTx(CFG, QueueSend(s, REPLY), now).outcome ==
      Tx.Sent(ReplyPacket(id, Tx.AckFields(next, bits)), Tx.Fresh)
  {
    var q := QueueSend(s, REPLY);
    assert q.tx.pendingSend == [REPLY];
    assert Tx.Serviceable(CFG, q.tx.inflight, now) == {};
  }

  /** The number that is acknowledged without having arrived. */
  function Missing(clientIsn: u32): u32 { Add(clientIsn, if clientIsn == 0xFFFF_FFFF then 2 else 4) }

  /** The acknowledgement fields once the third request and then the first have arrived. */
  function FinalFields(clientIsn: u32): Tx.AckFields {
    if clientIsn == 0xFFFF_FFFF then Tx.AckFields(3, 0) else Tx.AckFields(Add(clientIsn, 2), 2)
  }

  /** The bitmap keeps its second bit while the front moves on; a front at 0 jumps to the third request. */
  lemma ShiftedFields(clientIsn: u32, rx: RxState)
    requires rx.nextExpected == Add(clientIsn, 1) && rx.receivedBits == 0
    ensures var rx' := Rx.Arrive(Rx.Arrive(rx, Add(clientIsn, 3)).rx, Add(clientIsn, 1)).rx;
      rx'.nextExpected == FinalFields(clientIsn).ack && rx'.receivedBits == FinalFields(clientIsn).ackBits
  {
    AddDiff(clientIsn, 1, 3);
    AddInc(clientIsn, 1);
    assert SetBit(0, 1) == 2;
    if clientIsn != 0xFFFF_FFFF {
      var third := Rx.Arrive(rx, Add(clientIsn, 3)).rx;
      assert third == rx.(receivedBits := 2);
    } else {
      assert Rx.Arrive(rx, 2).rx == rx.(nextExpected := 3);
    }
  }

  lemma MissingCovered(clientIsn: u32)
    ensures Tx.IsAcked(Missing(clientIsn), FinalFields(clientIsn).ack, FinalFields(clientIsn).ackBits)
  {
    AddDiff(clientIsn, 2, 4);
    assert Bit(2, 1);
  }

  /** It is the number of the second or fourth request, and of nothing that arrives. */
  lemma MissingIs(clientIsn: u32)
    ensures Missing(clientIsn) != clientIsn && 1 <= Diff(Missing(clientIsn), clientIsn) <= 4
    ensures Missing(clientIsn) != Add(clientIsn, 1) && Missing(clientIsn) != Add(clientIsn, 3)
  {
    AddIndex(clientIsn, 1);
    AddIndex(clientIsn, 2);
    AddIndex(clientIsn, 3);
    AddIndex(clientIsn, 4);
  }

  // ----- a covering header releases -----

  /** A processed header that covers an in-flight number releases its index. */
  lemma HeaderReleases(cfg: Config, h: History, p: Packet, bytes: seq<u8>, now: nat, s: u32)
    requires Sender.Inv(cfg, h.Sending()) && Decode(bytes) == Some(p)
    requires IsProcessed(h.session, p) && Classify(p.header.flags) != KSyn
    requires s in h.session.tx.inflight && Tx.IsAcked(s, p.header.ack, p.header.ackBits)
    ensures var n := h.Sending().Index(s);
      && 0 <= n < |h.log.issued| && Add(h.log.isn, n) == s
      && n in Advance(cfg, h, SessionRuns.Receive(bytes, now)).log.released
  {
    hide Step, MidConn, Visit, EmissionsOf, OnPacket, IsProcessed, Classify, Decode, Tx.IsAcked, Add;
    hide Sender.Retries, Sender.Conserved, Sender.Fifo;
    var run, n := h.Sending(), h.Sending().Index(s);
    Sender.InFlightIndex(run, s);
    assert run.Number(n) == Add(run.log.isn, n);
    hide Sender.Tracked, Sender.Numbered;
    var ack := Sender.RemoteAck(p.header.ack, p.header.ackBits);
    var flags := Sender.SetFlags(OnPacket(cfg, h.session, p, |bytes|, now).tx.flags);
    RunTwo(cfg, run, ack, flags);
    assert n in Sender.LogAck(run, p.header.ack, p.header.ackBits).released;
  }

  // ----- from any state with a second gap -----

  /** The fields of the server once the expected number has arrived are those of the receiver run. */
  lemma ExpectedFields(cfg: Config, s: SessionState, run: RxRun, p: Packet, bytes: seq<u8>, now: nat)
    requires SameFields(s.rx, run.rx) && Decode(bytes) == Some(p) && IsProcessed(s, p)
    requires Rx.TracksSequence(p.header, Classify(p.header.flags)) && p.header.seqNo == run.rx.nextExpected
    ensures SameFields(Step(cfg, s, SessionRuns.Receive(bytes, now)).rx, Rx.Arrive(run.rx, run.rx.nextExpected).rx)
  {
    var kind := Classify(p.header.flags);
    ProcessedFields(cfg, s, p, |bytes|, now);
    UpdateFields(s.rx, run.rx, p.header, kind);
    hide Rx.Arrive, Rx.Deliver, OnPacket, Decode, Classify, IsProcessed;
    DeliverFields(Rx.UpdateReceiveState(s.rx, p.header, kind).rx, p);
  }

  /** A bit is left after the expected arrival, so some index is acknowledged that was not received. */
  lemma ExpectedLies(ps: seq<Packet>) returns (lie: nat)
    requires CleanRun(ps) && ReceiveAll(ps).got != {} && !OnesTrail(ReceiveAll(ps).rx.receivedBits)
    ensures lie !in ReceiveAll(ps).got + {ReceiveAll(ps).front}
    ensures var rx := Rx.Arrive(ReceiveAll(ps).rx, ReceiveAll(ps).rx.nextExpected).rx;
      Tx.IsAcked(Number(lie), rx.nextExpected, rx.receivedBits)
  {
    hide ReceiveAll, CleanRun, OnesTrail, Tx.IsAcked, Rx.Arrive, NextFront, Number, Shift, TrailingOnes;
    CleanRunsAgree(ps);
    var run := ReceiveAll(ps);
    var rx, front' := Rx.Arrive(run.rx, run.rx.nextExpected).rx, NextFront(run.rx, run.front, run.rx.nextExpected);
    ExpectedEffect(run.rx, run.front, run.base, run.got);
    OnesTrailShift(run.rx.receivedBits);
    lie := LeftoverLies(run.rx, rx, run.front, front', run.base, run.got);
  }

  /** The server takes the expected packet and sends; the client takes what it sends. */
  function RoundTrip(bytes: seq<u8>, heard: nat, sent: nat, q: Packet, back: nat): seq<SystemAction> {
    [ServerDoes(SessionRuns.Receive(bytes, heard)), ServerDoes(PollAt(sent)),
     ClientDoes(SessionRuns.Receive(Encode(q), back))]
  }

  /**
   * From any reached state whose arrivals at the server were clean, let the expected number arrive while a second gap
   * is open. There is an index that was not received, and if its number is in flight at the client then the next
   * datagram that the server sends releases it there, once it is processed.
   */
  lemma SecondGapReleases(cfg: Config, clientIsn: u32, serverIsn: u32, id: u32, acts: seq<SystemAction>,
                          bytes: seq<u8>, p: Packet, heard: nat, sent: nat, q: Packet, lane: Tx.Lane, back: nat)
    returns (lie: nat)
    requires Admissible(cfg, SystemStart(clientIsn, serverIsn, id), acts)
    requires var ps := Taken(cfg, ServerOf(serverIsn, id, acts));
      && CleanRun(ps) && ReceiveAll(ps).got != {} && !OnesTrail(ReceiveAll(ps).rx.receivedBits)
      && p.header.seqNo == ReceiveAll(ps).rx.nextExpected
    requires Rx.TracksSequence(p.header, Classify(p.header.flags)) && Decode(bytes) == Some(p)
    requires var sys := SystemRun(cfg, SystemStart(clientIsn, serverIsn, id), acts);
      && WasEmitted(sys.client, bytes) && IsProcessed(sys.server.session, p)
      && PollTx(cfg, Step(cfg, sys.server.session, SessionRuns.Receive(bytes, heard)), sent).outcome == Tx.Sent(q, lane)
      && IsProcessed(sys.client.session, q) && Classify(q.header.flags) != KSyn
    ensures var start := SystemStart(clientIsn, serverIsn, id);
      var sys, run := SystemRun(cfg, start, acts), ReceiveAll(Taken(cfg, ServerOf(serverIsn, id, acts)));
      var more := acts + RoundTrip(bytes, heard, sent, q, back);
      && lie !in run.got + {run.front} && Admissible(cfg, start, more)
      && (Number(lie) in sys.client.session.tx.inflight ==>
            exists n :: n in SystemRun(cfg, start, more).client.log.released && Add(clientIsn, n) == Number(lie))
  {
    hide Admissible, SystemRun, Taken, CleanRun, ReceiveAll, OnesTrail, IsProcessed, Classify, Decode, Encode, PollTx;
    hide WasEmitted, Tx.IsAcked, Number, Add, Sender.Inv, Advance, Rx.TracksSequence, Step, RoundTrip;
    var start := SystemStart(clientIsn, serverIsn, id);
    var sys := SystemRun(cfg, start, acts);
    lie := GapLies(cfg, clientIsn, serverIsn, id, acts, bytes, p, heard);
    RoundTripRuns(cfg, clientIsn, serverIsn, id, acts, bytes, heard, sent, q, lane, back);
    SenderOf(cfg, clientIsn, serverIsn, id, acts);
    if Number(lie) in sys.client.session.tx.inflight {
      HeaderReleases(cfg, sys.client, q, Encode(q), back, Number(lie));
    }
  }

  /** The index that was not received, and the server's fields that acknowledge it. */
  lemma GapLies(cfg: Config, clientIsn: u32, serverIsn: u32, id: u32, acts: seq<SystemAction>,
                bytes: seq<u8>, p: Packet, heard: nat)
    returns (lie: nat)
    requires var ps := Taken(cfg, ServerOf(serverIsn, id, acts));
      && CleanRun(ps) && ReceiveAll(ps).got != {} && !OnesTrail(ReceiveAll(ps).rx.receivedBits)
      && p.header.seqNo == ReceiveAll(ps).rx.nextExpected
    requires Rx.TracksSequence(p.header, Classify(p.header.flags)) && Decode(bytes) == Some(p)
    requires IsProcessed(SystemRun(cfg, SystemStart(clientIsn, serverIsn, id), acts).server.session, p)
    ensures var run := ReceiveAll(Taken(cfg, ServerOf(serverIsn, id, acts))); lie !in run.got + {run.front}
    ensures var server := SystemRun(cfg, SystemStart(clientIsn, serverIsn, id), acts).server.session;
      var rx := Step(cfg, server, SessionRuns.Receive(bytes, heard)).rx;
      Tx.IsAcked(Number(lie), rx.nextExpected, rx.receivedBits)
  {
    hide SystemRun, Taken, CleanRun, ReceiveAll, OnesTrail, IsProcessed, Classify, Decode, Life.Reached;
    hide Tx.IsAcked, Number, Rx.Arrive, Rx.TracksSequence, Step;
    var ps := Taken(cfg, ServerOf(serverIsn, id, acts));
    SidesAreParties(cfg, clientIsn, serverIsn, id, acts);
    ReceiverRun(cfg, ServerOf(serverIsn, id, acts));
    lie := ExpectedLies(ps);
    var server := SystemRun(cfg, SystemStart(clientIsn, serverIsn, id), acts).server.session;
    ExpectedFields(cfg, server, ReceiveAll(ps), p, bytes, heard);
  }

  lemma RoundTripRuns(cfg: Config, clientIsn: u32, serverIsn: u32, id: u32, acts: seq<SystemAction>,
                      bytes: seq<u8>, heard: nat, sent: nat, q: Packet, lane: Tx.Lane, back: nat)
    requires Admissible(cfg, SystemStart(clientIsn, serverIsn, id), acts)
    requires var sys := SystemRun(cfg, SystemStart(clientIsn, serverIsn, id), acts);
      && WasEmitted(sys.client, bytes)
      && PollTx(cfg, Step(cfg, sys.server.session, SessionRuns.Receive(bytes, heard)), sent).outcome == Tx.Sent(q, lane)
    ensures Decode(Encode(q)) == Some(q)
    ensures var start := SystemStart(clientIsn, serverIsn, id);
      var sys, more := SystemRun(cfg, start, acts), acts + RoundTrip(bytes, heard, sent, q, back);
      var rx := Step(cfg, sys.server.session, SessionRuns.Receive(bytes, heard)).rx;
      && q.header.ack == rx.nextExpected && q.header.ackBits == rx.receivedBits && Admissible(cfg, start, more)
      && SystemRun(cfg, start, more).client == Advance(cfg, sys.client, SessionRuns.Receive(Encode(q), back))
  {
    hide Admissible, SystemRun, Decode, Encode, PollTx, WasEmitted, Sender.Inv, Advance, Step;
    var start, trip := SystemStart(clientIsn, serverIsn, id), RoundTrip(bytes, heard, sent, q, back);
    OneStepMore(cfg, start, acts, trip[0]);
    SenderOf(cfg, clientIsn, serverIsn, id, acts + [trip[0]]);
    var one := SystemStep(cfg, SystemRun(cfg, start, acts), trip[0]);
    AdvanceSteps(cfg, SystemRun(cfg, start, acts).server, trip[0].a);
    TruthfulReply(cfg, one.server, sent, q, lane);
    OneStepMore(cfg, start, acts + [trip[0]], trip[1]);
    OneStepMore(cfg, start, acts + [trip[0]] + [trip[1]], trip[2]);
    assert acts + [trip[0]] + [trip[1]] + [trip[2]] == acts + trip;
  }

  lemma AdvanceSteps(cfg: Config, h: History, a: Action)
    ensures Advance(cfg, h, a).session == Step(cfg, h.session, a)
  {
    hide Step, TxTrace, MidConn, Visit, EmissionsOf;
  }

  /** What a poll sends reads back, carries the receive state, and is there to be received. */
  lemma TruthfulReply(cfg: Config, h: History, sent: nat, q: Packet, lane: Tx.Lane)
    requires Sender.Inv(cfg, h.Sending()) && PollTx(cfg, h.session, sent).outcome == Tx.Sent(q, lane)
    ensures Decode(Encode(q)) == Some(q)
    ensures q.header.ack == h.session.rx.nextExpected && q.header.ackBits == h.session.rx.receivedBits
    ensures WasEmitted(Advance(cfg, h, PollAt(sent)), Encode(q))
  {
    hide PollTx, Decode, Encode, Sender.Inv, Step, TxTrace, MidConn, Visit;
    PolledPacket(cfg, h, sent);
    DecodeEncode(q);
    var e := Emission(Encode(q), lane == Tx.Retransmit);
    assert EmissionsOf(cfg, h.session, PollAt(sent)) == [e];
    assert e in Advance(cfg, h, PollAt(sent)).emitted;
  }

  lemma SenderOf(cfg: Config, clientIsn: u32, serverIsn: u32, id: u32, acts: seq<SystemAction>)
    requires Admissible(cfg, SystemStart(clientIsn, serverIsn, id), acts)
    ensures var sys := SystemRun(cfg, SystemStart(clientIsn, serverIsn, id), acts);
      && Sender.Inv(cfg, sys.client.Sending()) && Sender.Inv(cfg, sys.server.Sending())
      && sys.client.log.isn == clientIsn
  {
    hide Sender.Inv, Agreement, Admissible, SystemRun;
    StartIsGood(cfg, clientIsn, serverIsn, id);
    RunsAreGood(cfg, SystemStart(clientIsn, serverIsn, id), acts, id);
    SidesAreParties(cfg, clientIsn, serverIsn, id, acts);
    hide SessionHistory.Run;
    IsnStays(cfg, SessionHistory.Start(Client, clientIsn, 0), ActionsOf(acts, true));
  }

  // ----- the whole run -----

  lemma TellsNothing(start: System, missing: u32)
    ensures Tells(start, [], start, missing)
  {
  }

  /** SYN and SYN-ACK. */
  lemma Greeting(clientIsn: u32, serverIsn: u32, id: u32, now: nat, missing: u32)
    returns (acts: seq<SystemAction>, sys: System)
    requires id != 0 && missing != clientIsn
    ensures Tells(SystemStart(clientIsn, serverIsn, id), acts, sys, missing)
    ensures SynSent(sys.client.session, clientIsn, now)
    ensures SynAckSent(sys.server.session, clientIsn, serverIsn, id)
    ensures WasEmitted(sys.server, Encode(SynAckPacket(clientIsn, serverIsn, id)))
  {
    hide Tells, PollTx, OnPacket, Encode, WasEmitted, Keeps, SynSent, SynReceived, SynAckSent, SystemStep;
    var start := SystemStart(clientIsn, serverIsn, id);
    TellsNothing(start, missing);
    var syn, synAck := SynPacket(clientIsn), SynAckPacket(clientIsn, serverIsn, id);
    var poll, answer := ClientDoes(PollAt(now)), ServerDoes(PollAt(now));
    var take := ServerDoes(SessionRuns.Receive(Encode(syn), now));
    SynGoesOut(CFG, clientIsn, now);
    Polls(start, [], start, missing, poll, syn, Tx.Control);
    var one := SystemStep(CFG, start, poll);
    Takes(start, [] + [poll], one, missing, take, syn);
    var two := SystemStep(CFG, one, take);
    SynAccepted(CFG, clientIsn, serverIsn, id, |Encode(syn)|, now);
    SynAckGoesOut(CFG, two.server.session, clientIsn, serverIsn, id, now);
    Polls(start, [] + [poll] + [take], two, missing, answer, synAck, Tx.Control);
    acts, sys := [] + [poll] + [take] + [answer], SystemStep(CFG, two, answer);
  }

  /** The client is Established; its final ACK is lost. */
  lemma Opening(clientIsn: u32, serverIsn: u32, id: u32, now: nat, missing: u32)
    returns (acts: seq<SystemAction>, sys: System)
    requires id != 0 && missing != clientIsn
    ensures Tells(SystemStart(clientIsn, serverIsn, id), acts, sys, missing)
    ensures Flying(sys.client.session, clientIsn, serverIsn, id, now, now, 0)
    ensures Waiting(sys.server.session, serverIsn, id, Inc(clientIsn), 0)
  {
    hide Tells, PollTx, OnPacket, Encode, WasEmitted, Keeps, SynSent, SystemStep, ClientReady, Flying;
    var start := SystemStart(clientIsn, serverIsn, id);
    var acts0, sys0 := Greeting(clientIsn, serverIsn, id, now, missing);
    var synAck, ack := SynAckPacket(clientIsn, serverIsn, id), AckPacket(clientIsn, serverIsn, id);
    var take, poll := ClientDoes(SessionRuns.Receive(Encode(synAck), now)), ClientDoes(PollAt(now));
    Takes(start, acts0, sys0, missing, take, synAck);
    var one := SystemStep(CFG, sys0, take);
    SynAckAccepted(CFG, sys0.client.session, clientIsn, serverIsn, id, |Encode(synAck)|, now, now);
    AckGoesOut(CFG, one.client.session, clientIsn, serverIsn, id, now, now);
    Polls(start, acts0 + [take], one, missing, poll, ack, Tx.Control);
    acts, sys := acts0 + [take] + [poll], SystemStep(CFG, one, poll);
    ReadyFlies(sys.client.session, clientIsn, serverIsn, id, now, now);
  }

  lemma SendOne(start: System, acts0: seq<SystemAction>, sys0: System, missing: u32,
                clientIsn: u32, serverIsn: u32, id: u32, r: SendRequest, now: nat, k: nat)
    returns (acts: seq<SystemAction>, sys: System)
    requires Tells(start, acts0, sys0, missing) && k < 4 && IsReliableChannel(r.channelType)
    requires Flying(sys0.client.session, clientIsn, serverIsn, id, now, now, k)
    ensures Tells(start, acts, sys, missing) && Flying(sys.client.session, clientIsn, serverIsn, id, now, now, k + 1)
    ensures Keeps(sys0.client, sys.client) && sys.server == sys0.server
    ensures WasEmitted(sys.client, Encode(Request(clientIsn, serverIsn, id, r, k)))
  {
    hide Tells, PollTx, Encode, WasEmitted, SystemStep, Flying, Request;
    var queue, poll := ClientDoes(Queue(r)), ClientDoes(PollAt(now));
    Queues(start, acts0, sys0, missing, queue);
    var one := SystemStep(CFG, sys0, queue);
    RequestGoesOut(CFG, sys0.client.session, clientIsn, serverIsn, id, r, now, now, k);
    Polls(start, acts0 + [queue], one, missing, poll, Request(clientIsn, serverIsn, id, r, k), Tx.Fresh);
    acts, sys := acts0 + [queue] + [poll], SystemStep(CFG, one, poll);
  }

  /** The server takes the request with offset `k`. */
  lemma TakeOne(start: System, acts0: seq<SystemAction>, sys0: System, missing: u32,
                clientIsn: u32, serverIsn: u32, id: u32, r: SendRequest, now: nat, k: nat, next: u32, bits: u64)
    returns (acts: seq<SystemAction>, sys: System)
    requires Tells(start, acts0, sys0, missing) && k < 4 && IsReliableChannel(r.channelType)
    requires Waiting(sys0.server.session, serverIsn, id, next, bits) && missing != Add(clientIsn, 1 + k)
    requires WasEmitted(sys0.client, Encode(Request(clientIsn, serverIsn, id, r, k)))
    ensures Tells(start, acts, sys, missing) && sys.client == sys0.client
    ensures var rx' := Rx.Arrive(sys0.server.session.rx, Add(clientIsn, 1 + k)).rx;
      Waiting(sys.server.session, serverIsn, id, rx'.nextExpected, rx'.receivedBits)
    ensures sys.server.session.tx.inflight == map[]
  {
    hide Tells, OnPacket, Encode, WasEmitted, SystemStep, Waiting, Keeps, Rx.Arrive, Add, Inc;
    var p := Request(clientIsn, serverIsn, id, r, k);
    var take := ServerDoes(SessionRuns.Receive(Encode(p), now));
    Takes(start, acts0, sys0, missing, take, p);
    RequestTaken(sys0.server.session, serverIsn, id, next, bits, p, |Encode(p)|, now);
    acts, sys := acts0 + [take], SystemStep(CFG, sys0, take);
  }

  /** The third request and then the first arrive. */
  lemma TakeTwo(start: System, acts0: seq<SystemAction>, sys0: System, clientIsn: u32, serverIsn: u32, id: u32,
                r: SendRequest, now: nat)
    returns (acts: seq<SystemAction>, sys: System)
    requires Tells(start, acts0, sys0, Missing(clientIsn)) && IsReliableChannel(r.channelType)
    requires Waiting(sys0.server.session, serverIsn, id, Inc(clientIsn), 0)
    requires WasEmitted(sys0.client, Encode(Request(clientIsn, serverIsn, id, r, 0)))
    requires WasEmitted(sys0.client, Encode(Request(clientIsn, serverIsn, id, r, 2)))
    ensures Tells(start, acts, sys, Missing(clientIsn)) && sys.client == sys0.client
    ensures Waiting(sys.server.session, serverIsn, id, FinalFields(clientIsn).ack, FinalFields(clientIsn).ackBits)
    ensures sys.server.session.tx.inflight == map[]
  {
    hide Tells, Encode, WasEmitted, Request, Rx.Arrive, Add, Inc, Missing, FinalFields, Diff;
    AddZero(clientIsn);
    AddInc(clientIsn, 0);
    MissingIs(clientIsn);
    var missing, rx0 := Missing(clientIsn), sys0.server.session.rx;
    ShiftedFields(clientIsn, rx0);
    var third := Rx.Arrive(rx0, Add(clientIsn, 3)).rx;
    var acts1, sys1 := TakeOne(start, acts0, sys0, missing, clientIsn, serverIsn, id, r, now, 2, rx0.nextExpected, 0);
    SameArrival(third, sys1.server.session.rx, Add(clientIsn, 1));
    acts, sys := TakeOne(start, acts1, sys1, missing, clientIsn, serverIsn, id, r, now, 0,
                         third.nextExpected, third.receivedBits);
  }

  lemma SameArrival(rx: RxState, rx': RxState, s: u32)
    requires SameFields(rx, rx')
    ensures SameFields(Rx.Arrive(rx, s).rx, Rx.Arrive(rx', s).rx)
  {
    UpdateFields(rx, rx', MakeHeader(0, s, 0, 0, 0, RELIABLE_ORDERED, 0), KNone);
    hide Rx.Arrive;
  }

  /** Four requests go out; the third and the first arrive, and the server sends data of its own. */
  lemma UpToTheReply(clientIsn: u32, serverIsn: u32, id: u32, r: SendRequest, now: nat)
    returns (acts: seq<SystemAction>, sys: System)
    requires id != 0 && IsReliableChannel(r.channelType)
    ensures Tells(SystemStart(clientIsn, serverIsn, id), acts, sys, Missing(clientIsn))
    ensures Flying(sys.client.session, clientIsn, serverIsn, id, now, now, 4)
    ensures WasEmitted(sys.server, Encode(ReplyPacket(id, FinalFields(clientIsn))))
  {
    hide Tells, PollTx, Encode, WasEmitted, SystemStep, Flying, Waiting, Request, Missing, FinalFields;
    var start, missing := SystemStart(clientIsn, serverIsn, id), Missing(clientIsn);
    MissingIs(clientIsn);
    var a0, s0 := Opening(clientIsn, serverIsn, id, now, missing);
    var a1, s1 := SendOne(start, a0, s0, missing, clientIsn, serverIsn, id, r, now, 0);
    var a2, s2 := SendOne(start, a1, s1, missing, clientIsn, serverIsn, id, r, now, 1);
    var a3, s3 := SendOne(start, a2, s2, missing, clientIsn, serverIsn, id, r, now, 2);
    var a4, s4 := SendOne(start, a3, s3, missing, clientIsn, serverIsn, id, r, now, 3);
    var a5, s5 := TakeTwo(start, a4, s4, clientIsn, serverIsn, id, r, now);
    var queue, poll := ServerDoes(Queue(REPLY)), ServerDoes(PollAt(now));
    Queues(start, a5, s5, missing, queue);
    var s6 := SystemStep(CFG, s5, queue);
    Replies(s5.server.session, serverIsn, id, FinalFields(clientIsn).ack, FinalFields(clientIsn).ackBits, now);
    Polls(start, a5 + [queue], s6, missing, poll, ReplyPacket(id, FinalFields(clientIsn)), Tx.Fresh);
    acts, sys := a5 + [queue] + [poll], SystemStep(CFG, s6, poll);
  }

  /**
   * For every pair of initial numbers, every id and every reliable request, some admissible run ends with the client
   * having released the number of one of its requests, although no packet with that number ever reached
   * the server.
   */
  lemma ReleasedNeverReceived(clientIsn: u32, serverIsn: u32, id: u32, r: SendRequest, now: nat)
    returns (acts: seq<SystemAction>, n: nat)
    requires id != 0 && IsReliableChannel(r.channelType)
    ensures Admissible(DEFAULT_CONFIG, SystemStart(clientIsn, serverIsn, id), acts)
    ensures n in SystemRun(DEFAULT_CONFIG, SystemStart(clientIsn, serverIsn, id), acts).client.log.released
    ensures Add(clientIsn, n) == Missing(clientIsn) && NeverArrives(acts, Missing(clientIsn))
  {
    hide Encode, Decode, WasEmitted, Good, Admissible, SystemRun, Keeps, Add, Tx.IsAcked, NeverArrives;
    hide OnPacket, Flying, IsProcessed, Sender.Inv, Advance, Classify, Missing, FinalFields;
    var start := SystemStart(clientIsn, serverIsn, id);
    var acts0, sys := UpToTheReply(clientIsn, serverIsn, id, r, now);
    var p := ReplyPacket(id, FinalFields(clientIsn));
    var take := ClientDoes(SessionRuns.Receive(Encode(p), now));
    Takes(start, acts0, sys, Missing(clientIsn), take, p);
    acts := acts0 + [take];
    ReplyProcessed(sys.client.session, clientIsn, serverIsn, id, now);
    SenderOf(CFG, clientIsn, serverIsn, id, acts0);
    DecodeEncode(p);
    MissingCovered(clientIsn);
    HeaderReleases(CFG, sys.client, p, Encode(p), now, Missing(clientIsn));
    n := sys.client.Sending().Index(Missing(clientIsn));
  }

  lemma ReplyProcessed(c: SessionState, clientIsn: u32, serverIsn: u32, id: u32, now: nat)
    requires Flying(c, clientIsn, serverIsn, id, now, now, 4)
    ensures IsProcessed(c, ReplyPacket(id, FinalFields(clientIsn))) && Classify(0) == KNone
    ensures Missing(clientIsn) in c.tx.inflight
  {
    MissingIs(clientIsn);
    assert Classify(0) == KNone;
    hide Classify, Missing, Diff, Add;
  }
}
