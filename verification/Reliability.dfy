/**
 * Reliability across the two sides: does a number that the sender released as acknowledged have reached
 * the receiver? In every run whose arrivals are clean it has, with the content assigned to it, provided the
 * header that released it came from a receiver that had started. Without the condition it need not.
 */
module Reliability {
  import opened Protocol
  import opened Codec
  import opened SessionTypes
  import opened ConnectionStateMachine
  import opened SessionSpec
  import opened SessionRuns
  import opened SessionHistory
  import opened EndToEnd
  import opened SessionAccounts
  import opened Bits
  import opened RxWindow
  import Life = SessionLifecycle
  import Tx = TxSpec
  import Rx = RxSpec
  import Sender = TxRuns

  // ----- what reaches the receiver of a session -----

  function TakenBy(s: SessionState, a: Action): seq<Packet> {
    if a.Receive? && Decode(a.bytes).Some? && IsProcessed(s, Decode(a.bytes).value) then [Decode(a.bytes).value] else []
  }

  /** One side: its role, initial number and id, and everything it does. */
  datatype Party = Party(role: Role, isn: u32, connId: u32, actions: seq<Action>) {
    ghost function At(cfg: Config): History { Life.Reached(cfg, role, isn, connId, actions) }
    function Before(): Party requires actions != [] { this.(actions := actions[..|actions| - 1]) }
  }

  /** The packets that a side hands to its receiver, in order. */
  ghost function Taken(cfg: Config, x: Party): seq<Packet>
    decreases |x.actions|
  {
    if x.actions == [] then []
    else Taken(cfg, x.Before()) + TakenBy(x.Before().At(cfg).session, x.actions[|x.actions| - 1])
  }

  predicate SameFields(rx: RxState, rx': RxState) {
    rx.nextExpected == rx'.nextExpected && rx.receivedBits == rx'.receivedBits
  }

  lemma {:induction false} DrainKeepsFields(rx: RxState)
    ensures SameFields(Rx.Drain(rx), rx)
    decreases |rx.reorder|
  {
    if rx.nextOrdered in rx.reorder {
      var rest := rx.reorder - {rx.nextOrdered};
      assert rest.Keys == rx.reorder.Keys - {rx.nextOrdered};
      assert |rest| == |rest.Keys| && |rx.reorder| == |rx.reorder.Keys|;
      var e := Rx.DataEvent(rx.reorder[rx.nextOrdered]);
      DrainKeepsFields(Rx.Emit(rx, e).(reorder := rest, nextOrdered := Inc(rx.nextOrdered)));
    }
  }

  /** The window after a packet depends on the window before it only. */
  lemma PacketFields(rx: RxState, rx': RxState, p: Packet, kind: ControlKind)
    requires SameFields(rx, rx')
    ensures SameFields(Rx.OnPacket(rx, p, kind).rx, Rx.OnPacket(rx', p, kind).rx)
  {
    UpdateFields(rx, rx', p.header, kind);
    hide Rx.UpdateReceiveState, Rx.Deliver;
    DeliverFields(Rx.UpdateReceiveState(rx, p.header, kind).rx, p);
    DeliverFields(Rx.UpdateReceiveState(rx', p.header, kind).rx, p);
  }

  lemma UpdateFields(rx: RxState, rx': RxState, h: Header, kind: ControlKind)
    requires SameFields(rx, rx')
    ensures var u, u' := Rx.UpdateReceiveState(rx, h, kind), Rx.UpdateReceiveState(rx', h, kind);
      SameFields(u.rx, u'.rx) && u.accepted == u'.accepted
  {
    hide Add;
    AdvanceEffect(if rx.nextExpected == 0 then rx.(nextExpected := h.seqNo) else rx);
    AdvanceEffect(if rx'.nextExpected == 0 then rx'.(nextExpected := h.seqNo) else rx');
    hide Rx.Advance, TrailingOnes, Shift, Rx.SetReceived;
  }

  lemma DeliverFields(rx: RxState, p: Packet)
    ensures SameFields(Rx.Deliver(rx, p), rx)
  {
    if p.header.channelType == RELIABLE_ORDERED {
      var started := Rx.StartOrdered(rx, p.header.seqNo);
      DrainKeepsFields(started.(reorder := started.reorder[p.header.seqNo := p]));
    }
  }

  lemma ProcessedFields(cfg: Config, s: SessionState, p: Packet, size: nat, now: nat)
    ensures var rx' := OnPacket(cfg, s, p, size, now).rx;
      if IsProcessed(s, p) then SameFields(rx', Rx.OnPacket(s.rx, p, Classify(p.header.flags)).rx)
      else SameFields(rx', s.rx)
  {
    hide AfterAck, AfterDecision, Classify, Decide, Rx.OnPacket;
    var a, kind := Admitted(s, p, size, now), Classify(p.header.flags);
    if IsProcessed(s, p) {
      var m := AfterAck(cfg, a, kind, p.header, now);
      Life.AfterAckConn(cfg, a, kind, p.header, now);
      Life.AfterDecisionConn(cfg, m, p, now);
      PacketFields(ApplyDecision(m, p.header, Decide(m.role, m.conn, kind)).rx, s.rx, p, kind);
    }
  }

  lemma StepFields(cfg: Config, s: SessionState, a: Action)
    ensures var t, rx' := TakenBy(s, a), Step(cfg, s, a).rx;
      if t == [] then SameFields(rx', s.rx)
      else SameFields(rx', Rx.OnPacket(s.rx, t[0], Classify(t[0].header.flags)).rx)
  {
    hide OnPacket, Rx.OnPacket, Decode, Classify, IsProcessed, TxPoll, IsValidHeader;
    if a.Receive? && Decode(a.bytes).Some? {
      ProcessedFields(cfg, s, Decode(a.bytes).value, |a.bytes|, a.now);
    }
  }

  lemma StepReceives(cfg: Config, s: SessionState, taken: seq<Packet>, a: Action)
    requires SameFields(s.rx, ReceiveAll(taken).rx)
    ensures SameFields(Step(cfg, s, a).rx, ReceiveAll(taken + TakenBy(s, a)).rx)
  {
    StepFields(cfg, s, a);
    TakenAtMostOne(s, a);
    hide Step, Rx.OnPacket, Classify, TakenBy, RxWindow.Receive, SameFields;
    var t := TakenBy(s, a);
    if t == [] {
      assert taken + t == taken;
      Transitive(Step(cfg, s, a).rx, s.rx, ReceiveAll(taken).rx);
    } else {
      assert t == [t[0]] && (taken + t)[..|taken|] == taken;
      assert ReceiveAll(taken + t) == RxWindow.Receive(ReceiveAll(taken), t[0]);
      hide ReceiveAll;
      PacketFields(s.rx, ReceiveAll(taken).rx, t[0], Classify(t[0].header.flags));
      ReceiveIs(ReceiveAll(taken), t[0]);
      Transitive(Step(cfg, s, a).rx, Rx.OnPacket(s.rx, t[0], Classify(t[0].header.flags)).rx, ReceiveAll(taken + t).rx);
    }
  }

  lemma Transitive(a: RxState, b: RxState, c: RxState)
    requires SameFields(a, b) && SameFields(b, c)
    ensures SameFields(a, c)
  {
  }

  /** The acknowledgement fields of a side are those of a receiver run over the packets it took. */
  lemma {:induction false} ReceiverRun(cfg: Config, x: Party)
    ensures SameFields(x.At(cfg).session.rx, ReceiveAll(Taken(cfg, x)).rx)
    decreases |x.actions|
  {
    hide Step, ReceiveAll, TxTrace, MidConn, Visit, EmissionsOf, TakenBy, SameFields;
    if x.actions != [] {
      ReceiverRun(cfg, x.Before());
      StepReceives(cfg, x.Before().At(cfg).session, Taken(cfg, x.Before()), x.actions[|x.actions| - 1]);
    } else {
      NothingTaken(x.role, x.isn, x.connId);
    }
  }

  lemma NothingTaken(role: Role, isn: u32, connId: u32)
    ensures SameFields(InitialSession(role, isn, connId).rx, ReceiveAll([]).rx)
  {
    hide RxWindow.Receive;
    assert ReceiveAll([]) == NOTHING_RECEIVED;
  }

  lemma TakenAtMostOne(s: SessionState, a: Action)
    ensures |TakenBy(s, a)| <= 1
  {
  }

  lemma ReceiveIs(run: RxRun, p: Packet)
    ensures RxWindow.Receive(run, p).rx == Rx.OnPacket(run.rx, p, Classify(p.header.flags)).rx
  {
    hide Rx.OnPacket, Classify;
  }

  // ----- where an emitted header comes from -----

  /** A datagram carries the acknowledgement fields of the side at some earlier point. */
  lemma {:induction false} EmittedFields(cfg: Config, y: Party, bytes: seq<u8>) returns (k: nat)
    requires WasEmitted(y.At(cfg), bytes)
    ensures k <= |y.actions| && Decode(bytes).Some?
    ensures var rx := y.(actions := y.actions[..k]).At(cfg).session.rx;
      Decode(bytes).value.header.ack == rx.nextExpected && Decode(bytes).value.header.ackBits == rx.receivedBits
    decreases |y.actions|
  {
    hide PollTx, Decode, Encode, Step, TxTrace, MidConn, Visit;
    assert y.actions != [];
    var before, a := y.Before(), y.actions[|y.actions| - 1];
    if WasEmitted(before.At(cfg), bytes) {
      k := EmittedFields(cfg, before, bytes);
      assert before.actions[..k] == y.actions[..k];
    } else {
      k := |before.actions|;
      assert before.actions == y.actions[..k];
      Life.PollsAreTruthful(cfg, y.role, y.isn, y.connId, before.actions, a.now);
    }
  }

  lemma {:induction false} TakenPrefix(cfg: Config, y: Party, k: nat)
    requires k <= |y.actions|
    ensures Taken(cfg, y.(actions := y.actions[..k])) <= Taken(cfg, y)
    decreases |y.actions|
  {
    if k < |y.actions| {
      hide TakenBy, Life.Reached;
      TakenPrefix(cfg, y.Before(), k);
      assert y.Before().actions[..k] == y.actions[..k];
    } else {
      assert y.actions[..k] == y.actions;
    }
  }

  lemma CleanPrefix(ps: seq<Packet>, qs: seq<Packet>)
    requires CleanRun(ps) && qs <= ps
    ensures CleanRun(qs)
  {
    hide ReceiveAll, Clean;
    forall i | 0 <= i < |qs| ensures Clean(ReceiveAll(qs[..i]), qs[i]) {
      assert qs[..i] == ps[..i] && Clean(ReceiveAll(ps[..i]), ps[i]);
    }
  }

  /** Once something has been recorded the first index is settled. */
  lemma {:induction false} BaseStays(ps: seq<Packet>, qs: seq<Packet>)
    requires qs <= ps && ReceiveAll(qs).got != {}
    ensures ReceiveAll(ps).got != {} && ReceiveAll(ps).base == ReceiveAll(qs).base
    decreases |ps|
  {
    if |qs| < |ps| {
      hide Rx.OnPacket, Classify, Rx.TracksSequence;
      BaseStays(ps[..|ps| - 1], qs);
    } else {
      assert ps == qs;
    }
  }

  // ----- released means received -----

  /** The sender's index of the first number that the receiver recorded. */
  ghost function Offset(isn: u32, ps: seq<Packet>): nat { Diff(Number(ReceiveAll(ps).base), isn) }

  /** The receiver's index of the sender's index `n`. */
  ghost function Shifted(isn: u32, ps: seq<Packet>, n: nat): nat
    requires Offset(isn, ps) <= n
  {
    ReceiveAll(ps).base + n - Offset(isn, ps)
  }

  lemma ShiftedNumber(isn: u32, ps: seq<Packet>, n: nat)
    requires Offset(isn, ps) <= n
    ensures Number(Shifted(isn, ps, n)) == Add(isn, n)
  {
    var base, o := ReceiveAll(ps).base, Offset(isn, ps);
    hide ReceiveAll;
    NumberPlus(base, n - o);
    DiffAdd(isn, Number(base));
    AddAdd(isn, o, n - o);
  }

  /** Fewer than 2^31 indices after the first, nothing beyond the window is acknowledged. */
  lemma WithinWindow(run: RxRun, m: nat)
    requires InStep(run) && run.got != {} && run.base <= m < run.base + 0x8000_0000
    requires Tx.IsAcked(Number(m), run.rx.nextExpected, run.rx.receivedBits)
    ensures m <= run.front + 64
  {
    hide Number, Bit;
    if m > run.front + 64 {
      NumberAhead(run.front, m - run.front);
    }
  }

  /** What a started receiver acknowledges, from its first number on, has arrived. */
  lemma CoveredArrived(ps: seq<Packet>, isn: u32, n: nat)
    requires CleanRun(ps) && ReceiveAll(ps).rx.nextExpected != 0
    requires Offset(isn, ps) <= n < Offset(isn, ps) + 0x8000_0000
    requires Tx.IsAcked(Add(isn, n), ReceiveAll(ps).rx.nextExpected, ReceiveAll(ps).rx.receivedBits)
    ensures Arrived(ps, Shifted(isn, ps, n))
  {
    hide ReceiveAll, Arrived, Number, Add, CleanRun, Tx.IsAcked, InStep, Offset;
    ShiftedNumber(isn, ps, n);
    StartedHasBase(ps);
    CleanRunsAgree(ps);
    var m := Shifted(isn, ps, n);
    WithinWindow(ReceiveAll(ps), m);
    TruthfulAcks(ps, m);
  }

  /** Everything `x` received was emitted by `y`. */
  ghost predicate HearsOnly(cfg: Config, x: Party, y: Party) {
    forall i :: 0 <= i < |x.actions| && x.actions[i].Receive? ==> WasEmitted(y.At(cfg), x.actions[i].bytes)
  }

  lemma ReleasedArrived(cfg: Config, x: Party, y: Party, n: nat)
    requires HearsOnly(cfg, x, y) && CleanRun(Taken(cfg, y))
    requires var log := x.At(cfg).log; n in log.released && log.released[n].ack != 0
    requires Offset(x.isn, Taken(cfg, y)) <= n < Offset(x.isn, Taken(cfg, y)) + 0x8000_0000
    ensures Arrived(Taken(cfg, y), Shifted(x.isn, Taken(cfg, y), n))
  {
    hide Life.Reached, Taken, Tx.IsAcked, Add, Decode, CleanRun, ReceiveAll, Arrived;
    ReleasedByDatagram(cfg, x.role, x.isn, x.connId, x.actions);
    var f := x.At(cfg).log.released[n];
    var i :| 0 <= i < |x.actions| && Carries(x.actions[i], f);
    var k := EmittedFields(cfg, y, x.actions[i].bytes);
    var earlier := y.(actions := y.actions[..k]);
    var ps, qs := Taken(cfg, y), Taken(cfg, earlier);
    ReceiverRun(cfg, earlier);
    TakenPrefix(cfg, y, k);
    CleanPrefix(ps, qs);
    StartedHasBase(qs);
    BaseStays(ps, qs);
    CoveredArrived(qs, x.isn, n);
    ArrivedStays(qs, ps, Shifted(x.isn, qs, n));
  }

  lemma StartedHasBase(ps: seq<Packet>)
    requires CleanRun(ps) && ReceiveAll(ps).rx.nextExpected != 0
    ensures ReceiveAll(ps).got != {}
  {
    CleanRunsAgree(ps);
    hide ReceiveAll, CleanRun;
  }

  /** What the header of a receiver that has not started acknowledges: every number from 2^31 on. */
  lemma IdleHeaderCovers(s: u32)
    ensures Tx.IsAcked(s, INITIAL_RX.nextExpected, INITIAL_RX.receivedBits) <==> s >= 0x8000_0000
  {
    forall b: nat ensures !Bit(0, b) { ZeroBit(b); }
  }

  // ----- the two sides of a system run -----

  function ActionsOf(acts: seq<SystemAction>, ofClient: bool): seq<Action>
    decreases |acts|
  {
    if acts == [] then []
    else
      var rest, act := ActionsOf(acts[..|acts| - 1], ofClient), acts[|acts| - 1];
      if act.ClientDoes? == ofClient then rest + [act.a] else rest
  }

  function ClientOf(clientIsn: u32, acts: seq<SystemAction>): Party {
    Party(Client, clientIsn, 0, ActionsOf(acts, true))
  }

  function ServerOf(serverIsn: u32, id: u32, acts: seq<SystemAction>): Party {
    Party(Server, serverIsn, id, ActionsOf(acts, false))
  }

  lemma RunSnoc(cfg: Config, h: History, actions: seq<Action>, a: Action)
    ensures SessionHistory.Run(cfg, h, actions + [a]) == Advance(cfg, SessionHistory.Run(cfg, h, actions), a)
  {
    hide Advance;
    assert (actions + [a])[..|actions|] == actions;
  }

  lemma {:induction false} SidesAreParties(cfg: Config, clientIsn: u32, serverIsn: u32, id: u32,
                                           acts: seq<SystemAction>)
    ensures var sys := SystemRun(cfg, SystemStart(clientIsn, serverIsn, id), acts);
      sys == System(ClientOf(clientIsn, acts).At(cfg), ServerOf(serverIsn, id, acts).At(cfg))
    decreases |acts|
  {
    if acts != [] {
      hide Advance, SessionHistory.Run;
      var front, act := acts[..|acts| - 1], acts[|acts| - 1];
      SidesAreParties(cfg, clientIsn, serverIsn, id, front);
      RunSnoc(cfg, SessionHistory.Start(Client, clientIsn, 0), ActionsOf(front, true), act.a);
      RunSnoc(cfg, SessionHistory.Start(Server, serverIsn, id), ActionsOf(front, false), act.a);
    }
  }

  lemma EmissionsGrow(cfg: Config, x: Party, a: Action, bytes: seq<u8>)
    requires WasEmitted(x.At(cfg), bytes)
    ensures WasEmitted(x.(actions := x.actions + [a]).At(cfg), bytes)
  {
    hide SessionHistory.Run;
    RunSnoc(cfg, SessionHistory.Start(x.role, x.isn, x.connId), x.actions, a);
    hide Step, TxTrace, MidConn, Visit, EmissionsOf;
    var e :| e in x.At(cfg).emitted && e.bytes == bytes;
    assert e in x.(actions := x.actions + [a]).At(cfg).emitted;
  }

  /** `x` acts once more, on something that `y` has emitted if it receives. */
  lemma HearingGrows(cfg: Config, x: Party, y: Party, a: Action)
    requires HearsOnly(cfg, x, y) && HearsOnly(cfg, y, x)
    requires a.Receive? ==> WasEmitted(y.At(cfg), a.bytes)
    ensures var x' := x.(actions := x.actions + [a]); HearsOnly(cfg, x', y) && HearsOnly(cfg, y, x')
  {
    hide Life.Reached, WasEmitted;
    var x' := x.(actions := x.actions + [a]);
    forall i | 0 <= i < |y.actions| && y.actions[i].Receive? ensures WasEmitted(x'.At(cfg), y.actions[i].bytes) {
      EmissionsGrow(cfg, x, a, y.actions[i].bytes);
    }
  }

  lemma {:induction false} HearEachOther(cfg: Config, clientIsn: u32, serverIsn: u32, id: u32, acts: seq<SystemAction>)
    requires Admissible(cfg, SystemStart(clientIsn, serverIsn, id), acts)
    ensures var x, y := ClientOf(clientIsn, acts), ServerOf(serverIsn, id, acts);
      HearsOnly(cfg, x, y) && HearsOnly(cfg, y, x)
    decreases |acts|
  {
    if acts != [] {
      hide Life.Reached, SystemRun, Admissible, WasEmitted, HearsOnly;
      var front, act := acts[..|acts| - 1], acts[|acts| - 1];
      AdmissiblePrefix(cfg, SystemStart(clientIsn, serverIsn, id), acts);
      HearEachOther(cfg, clientIsn, serverIsn, id, front);
      SidesAreParties(cfg, clientIsn, serverIsn, id, front);
      var x, y := ClientOf(clientIsn, front), ServerOf(serverIsn, id, front);
      if act.ClientDoes? {
        HearingGrows(cfg, x, y, act.a);
      } else {
        HearingGrows(cfg, y, x, act.a);
      }
    } else {
      NothingHeard(cfg, clientIsn, serverIsn, id);
    }
  }

  lemma NothingHeard(cfg: Config, clientIsn: u32, serverIsn: u32, id: u32)
    ensures var x, y := ClientOf(clientIsn, []), ServerOf(serverIsn, id, []);
      HearsOnly(cfg, x, y) && HearsOnly(cfg, y, x)
  {
    hide Life.Reached;
  }

  /** A packet that reaches the receiver came in with some datagram. */
  lemma {:induction false} TakenWasReceived(cfg: Config, y: Party, p: Packet) returns (i: nat)
    requires p in Taken(cfg, y)
    ensures i < |y.actions| && y.actions[i].Receive? && Decode(y.actions[i].bytes) == Some(p)
    decreases |y.actions|
  {
    hide Life.Reached, Decode, IsProcessed;
    if p in Taken(cfg, y.Before()) {
      i := TakenWasReceived(cfg, y.Before(), p);
    } else {
      i := |y.actions| - 1;
    }
  }

  lemma TakenIsGenuine(cfg: Config, x: Party, y: Party, p: Packet)
    requires HearsOnly(cfg, y, x) && EmitsGenuine(x.At(cfg)) && p in Taken(cfg, y)
    ensures Sender.Genuine(x.At(cfg).log, p)
  {
    hide Life.Reached, Decode, Sender.Genuine, Taken;
    var i := TakenWasReceived(cfg, y, p);
    assert WasEmitted(x.At(cfg), y.actions[i].bytes);
  }

  /**
   * Released means received, in both directions of every admissible run in which fewer than 2^32 numbers are
   * assigned each way and the receiving side's arrivals are clean. Let a header of a started receiver have released
   * the index `n`, at or after the first number that the receiver recorded and less than 2^31 after it. Then a packet
   * with that number reached the receiver and was accepted; and unless the number is 0, which pure ACKs
   * share, it had the content assigned to `n`.
   */
  lemma ReleasedWasReceived(cfg: Config, clientIsn: u32, serverIsn: u32, id: u32, acts: seq<SystemAction>,
                            fromClient: bool, n: nat)
    returns (i: nat)
    requires Admissible(cfg, SystemStart(clientIsn, serverIsn, id), acts)
    requires NotComeRound(SystemRun(cfg, SystemStart(clientIsn, serverIsn, id), acts))
    requires var (x, y) := Direction(clientIsn, serverIsn, id, acts, fromClient);
      && CleanRun(Taken(cfg, y))
      && n in x.At(cfg).log.released && x.At(cfg).log.released[n].ack != 0
      && Offset(x.isn, Taken(cfg, y)) <= n < Offset(x.isn, Taken(cfg, y)) + 0x8000_0000
    ensures var (x, y) := Direction(clientIsn, serverIsn, id, acts, fromClient);
      var ps, log := Taken(cfg, y), x.At(cfg).log;
      && AcceptedAt(ps, i, Shifted(x.isn, ps, n)) && ps[i].header.seqNo == Add(x.isn, n)
      && n < |log.issued| && (Add(x.isn, n) != 0 ==> Sender.Content(ps[i]) == log.issued[n])
  {
    hide Life.Reached, SystemRun, Admissible, Taken, CleanRun, HearsOnly, ReceiveAll, EmitsGenuine, Offset;
    hide Number, Add, Sender.Inv, Receives;
    var start := SystemStart(clientIsn, serverIsn, id);
    HearEachOther(cfg, clientIsn, serverIsn, id, acts);
    SidesAreParties(cfg, clientIsn, serverIsn, id, acts);
    StartIsSound(cfg, clientIsn, serverIsn, id);
    RunsAreSound(cfg, start, acts);
    var (x, y) := Direction(clientIsn, serverIsn, id, acts, fromClient);
    ReleasedArrived(cfg, x, y, n);
    var ps := Taken(cfg, y);
    var m := Shifted(x.isn, ps, n);
    i :| AcceptedAt(ps, i, m);
    ShiftedNumber(x.isn, ps, n);
    TakenIsGenuine(cfg, x, y, ps[i]);
    GenuineContent(cfg, x, ps[i], n);
  }

  /** The sending and the receiving side. */
  function Direction(clientIsn: u32, serverIsn: u32, id: u32, acts: seq<SystemAction>, fromClient: bool)
    : (Party, Party)
  {
    var client, server := ClientOf(clientIsn, acts), ServerOf(serverIsn, id, acts);
    if fromClient then (client, server) else (server, client)
  }

  lemma GenuineContent(cfg: Config, x: Party, p: Packet, n: nat)
    requires Sender.Genuine(x.At(cfg).log, p) && p.header.seqNo == Add(x.isn, n) && n in x.At(cfg).log.released
    requires |x.At(cfg).log.issued| < 0x1_0000_0000
    ensures n < |x.At(cfg).log.issued| && (Add(x.isn, n) != 0 ==> Sender.Content(p) == x.At(cfg).log.issued[n])
  {
    hide SessionHistory.Run, Sender.Tracked, Sender.Retries, Sender.Fifo, Sender.Numbered, Add, Tx.IsAcked;
    hide Counted, ProbesAccounted, Life.Lifecycle, Life.GiveUpsReported, Tx.IsNumbered;
    Life.ReachedInv(cfg, x.role, x.isn, x.connId, x.actions);
    IsnStays(cfg, SessionHistory.Start(x.role, x.isn, x.connId), x.actions);
    AddIndex(x.isn, n);
  }
}
