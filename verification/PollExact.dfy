/**
 * Exactly what a poll does, for every state of the sender and of the session: which of the five lanes sends, what
 * it sends, and what the state is afterwards, said in terms of the fields alone. In particular a packet that is
 * due is resent or given up, and an Established session that has heard nothing for the idle timeout is reset.
 */
module PollExact {
  import opened Protocol
  import opened Bits
  import opened Codec
  import opened SessionTypes
  import opened ConnectionStateMachine
  import opened SessionSpec
  import Tx = TxSpec
  import Sender = TxRuns
  import Life = SessionLifecycle
  import Runs = SessionRuns
  import Hist = SessionHistory

  // ----- the sender -----

  function Min(a: nat, b: nat): nat { if a <= b then a else b }

  /** When an unacknowledged packet is due again: the timeout doubles with each of four retries, up to a cap. */
  function Deadline(cfg: Config, e: TxEntry): nat {
    e.lastSendMs + Min(cfg.initialRto * Pow2(Min(e.retryCount, 4)), cfg.maxRto)
  }

  predicate MustServe(cfg: Config, e: TxEntry, now: nat) {
    e.retryCount >= cfg.maxRetransmit || e.fastRetxPending || now >= Deadline(cfg, e)
  }

  /** `s` is the least number in flight that must be served. */
  ghost predicate FirstToServe(cfg: Config, tx: TxState, now: nat, s: u32) {
    && s in tx.inflight && MustServe(cfg, tx.inflight[s], now)
    && forall x :: x in tx.inflight && MustServe(cfg, tx.inflight[x], now) ==> s <= x
  }

  predicate NoneToServe(cfg: Config, tx: TxState, now: nat) {
    forall x :: x in tx.inflight ==> !MustServe(cfg, tx.inflight[x], now)
  }

  predicate HasRoom(tx: TxState) { Diff(tx.nextSeq, tx.remoteAck) < 64 }

  /** The flags of the control packet that the connection calls for, 0 for none. */
  function ControlFlags(f: TxFlags, role: Role, conn: ConnState): u8 {
    match conn
    case Closed => if role == Client then SYN else 0
    case HandshakeReceived => if f.synAckPending then SYN_ACK else 0
    case Established => if f.finalAckPending then ACK else 0
    case Closing => if f.finPending then FIN else 0
    case _ => 0
  }

  /** That packet can be sent: all but the final ACK need a number. */
  predicate ControlDue(tx: TxState, role: Role, conn: ConnState) {
    var flags := ControlFlags(tx.flags, role, conn);
    flags == ACK || (flags != 0 && HasRoom(tx))
  }

  /** A header without a payload. */
  function Bare(connId: u32, seqNo: u32, af: Tx.AckFields, flags: u8): Packet {
    Packet(Header(connId, seqNo, af.ack, af.ackBits, 0, UNRELIABLE, flags, HEADER_LENGTH, 0), [])
  }

  /** The packet is numbered and kept until it is acknowledged. */
  predicate Enlisted(tx: TxState, tx': TxState, p: Packet, now: nat) {
    && p.header.seqNo == tx.nextSeq
    && tx'.nextSeq == (if tx.nextSeq == 0xFFFF_FFFF then 0 else tx.nextSeq + 1)
    && (tx.nextSeq !in tx.inflight ==> tx'.inflight == tx.inflight[tx.nextSeq := TxEntry(p, now, now, 0, 0, false)])
  }

  predicate WindowKept(tx: TxState, tx': TxState) { tx'.nextSeq == tx.nextSeq && tx'.inflight == tx.inflight }

  predicate SendsControl(cfg: Config, tx: TxState, r: Tx.PollResult, flags: u8, connId: u32, af: Tx.AckFields,
                         now: nat)
  {
    var p := Bare(connId, if flags == ACK then 0 else tx.nextSeq, af, flags);
    && r.outcome == Tx.Sent(p, Tx.Control) && r.tx.pendingSend == tx.pendingSend
    && (if flags == ACK then WindowKept(tx, r.tx) else Enlisted(tx, r.tx, p, now))
    && r.tx.flags == (
      if flags == SYN_ACK then tx.flags.(synAckPending := false)
      else if flags == ACK then
        tx.flags.(finalAckPending := false, finalAckLingerUntilMs := now + cfg.handshakeLinger)
      else if flags == FIN then tx.flags.(finPending := false)
      else tx.flags)
  }

  /** Given up when exhausted; otherwise sent again with the current acknowledgement fields and booked. */
  predicate Serves(cfg: Config, tx: TxState, r: Tx.PollResult, s: u32, af: Tx.AckFields, now: nat)
    requires s in tx.inflight
  {
    var e := tx.inflight[s];
    if e.retryCount >= cfg.maxRetransmit then
      r.outcome == Tx.GaveUp(s) && r.tx == tx.(inflight := tx.inflight - {s})
    else
      var p := e.packet.(header := e.packet.header.(ack := af.ack, ackBits := af.ackBits));
      && r.outcome == Tx.Sent(p, Tx.Retransmit)
      && r.tx == tx.(inflight := tx.inflight[s := TxEntry(p, e.firstSendMs, now, e.retryCount + 1, 0, false)])
  }

  /** PONG, PING, ACK, the oldest request if it may go, in this order; or nothing. */
  predicate SendsOther(tx: TxState, r: Tx.PollResult, connId: u32, af: Tx.AckFields, now: nat) {
    var f := tx.flags;
    if f.probe.pongPending then
      && r.outcome == Tx.Sent(Bare(connId, 0, af, PONG), Tx.ProbeLane)
      && r.tx == tx.(flags := f.(probe := f.probe.(pongPending := false)))
    else if f.probe.pingPending then
      && r.outcome == Tx.Sent(Bare(connId, 0, af, PING), Tx.ProbeLane)
      && r.tx == tx.(flags := f.(probe := f.probe.(pingPending := false)))
    else if f.ackOnlyPending then
      && r.outcome == Tx.Sent(Bare(connId, 0, af, ACK), Tx.AckOnly)
      && r.tx == tx.(flags := f.(ackOnlyPending := false))
    else SendsRequest(tx, r, connId, af, now)
  }

  predicate SendsRequest(tx: TxState, r: Tx.PollResult, connId: u32, af: Tx.AckFields, now: nat) {
    if tx.pendingSend != [] && (tx.pendingSend[0].channelType < 2 ==> HasRoom(tx)) then
      var q := tx.pendingSend[0];
      var reliable := q.channelType < 2;
      var p := Packet(Header(connId, if reliable then tx.nextSeq else 0, af.ack, af.ackBits, q.channelId,
                             q.channelType, 0, HEADER_LENGTH, 0), q.payload);
      && r.outcome == Tx.Sent(p, Tx.Fresh) && r.tx.pendingSend == tx.pendingSend[1..] && r.tx.flags == tx.flags
      && (if reliable then Enlisted(tx, r.tx, p, now) else WindowKept(tx, r.tx))
    else r.outcome == Tx.Idle && r.tx == tx
  }

  lemma DeadlineIs(cfg: Config, e: TxEntry, now: nat)
    ensures Tx.NeedsService(cfg, e, now) <==> MustServe(cfg, e, now)
  {
    assert Pow2(0) == 1 && Pow2(1) == 2 && Pow2(2) == 4 && Pow2(3) == 8 && Pow2(4) == 16;
  }

  lemma ServedFirst(cfg: Config, tx: TxState, now: nat, conn: ConnState, af: Tx.AckFields, s: u32)
    requires FirstToServe(cfg, tx, now, s)
    ensures Serves(cfg, tx, Tx.TryRetransmit(cfg, tx, now, conn, af), s, af, now)
  {
    hide MustServe, Tx.NeedsService;
    forall x | x in tx.inflight
      ensures Tx.NeedsService(cfg, tx.inflight[x], now) <==> MustServe(cfg, tx.inflight[x], now)
    {
      DeadlineIs(cfg, tx.inflight[x], now);
    }
    var due := Tx.Serviceable(cfg, tx.inflight, now);
    assert s in due && Tx.IsLeast(due, s);
  }

  lemma ServedNone(cfg: Config, tx: TxState, now: nat, conn: ConnState, af: Tx.AckFields)
    requires NoneToServe(cfg, tx, now)
    ensures Tx.TryRetransmit(cfg, tx, now, conn, af) == Tx.PollResult(tx, conn, Tx.Idle)
  {
    hide MustServe, Tx.NeedsService;
    forall x | x in tx.inflight ensures !Tx.NeedsService(cfg, tx.inflight[x], now) {
      DeadlineIs(cfg, tx.inflight[x], now);
    }
    assert Tx.Serviceable(cfg, tx.inflight, now) == {};
  }

  lemma ControlLane(cfg: Config, tx: TxState, now: nat, role: Role, connId: u32, conn: ConnState, af: Tx.AckFields)
    ensures var r, flags := Tx.TryHandshake(cfg, tx, now, role, connId, conn, af), ControlFlags(tx.flags, role, conn);
      && r.conn == (if role == Client && conn == Closed then HandshakeSent else conn)
      && (if ControlDue(tx, role, conn) then SendsControl(cfg, tx, r, flags, connId, af, now)
          else r.outcome == Tx.Idle && r.tx == tx)
  {
  }

  lemma OtherLanes(tx: TxState, now: nat, connId: u32, conn: ConnState, af: Tx.AckFields)
    ensures var b := Tx.TryProbe(tx, conn, connId, af);
      var a := Tx.TryAckOnly(tx, conn, connId, af);
      SendsOther(tx, if !b.outcome.Idle? then b else if !a.outcome.Idle? then a else
                     Tx.TryFresh(tx, now, conn, connId, af), connId, af, now)
  {
    hide SendsRequest, Tx.TryFresh;
    RequestLane(tx, now, connId, conn, af);
  }

  lemma RequestLane(tx: TxState, now: nat, connId: u32, conn: ConnState, af: Tx.AckFields)
    ensures SendsRequest(tx, Tx.TryFresh(tx, now, conn, connId, af), connId, af, now)
  {
  }

  /**
   * What a poll does: the control packet that is due; else the least number in flight that must be served is
   * sent again or given up; else PONG, PING, ACK or the oldest request; else nothing.
   */
  lemma PollExactly(cfg: Config, tx: TxState, now: nat, role: Role, connId: u32, conn: ConnState, af: Tx.AckFields)
    ensures var r := Tx.Poll(cfg, tx, now, role, connId, conn, af);
      && r.conn == (if role == Client && conn == Closed then HandshakeSent else conn)
      && (ControlDue(tx, role, conn) ==>
            SendsControl(cfg, tx, r, ControlFlags(tx.flags, role, conn), connId, af, now))
      && (!ControlDue(tx, role, conn) ==> forall s :: FirstToServe(cfg, tx, now, s) ==> Serves(cfg, tx, r, s, af, now))
      && (!ControlDue(tx, role, conn) && NoneToServe(cfg, tx, now) ==> SendsOther(tx, r, connId, af, now))
    ensures NoneToServe(cfg, tx, now) <==> forall s :: !FirstToServe(cfg, tx, now, s)
  {
    hide Tx.TryHandshake, Tx.TryRetransmit, Tx.TryProbe, Tx.TryAckOnly, Tx.TryFresh;
    hide SendsControl, SendsOther, Serves, ControlDue, ControlFlags, MustServe, NoneToServe;
    ControlLane(cfg, tx, now, role, connId, conn, af);
    OneOrNone(cfg, tx, now);
    var next := if role == Client && conn == Closed then HandshakeSent else conn;
    if !ControlDue(tx, role, conn) {
      if NoneToServe(cfg, tx, now) {
        ServedNone(cfg, tx, now, next, af);
        OtherLanes(tx, now, connId, next, af);
        ConnsKept(tx, now, connId, next, af);
      } else {
        forall s | FirstToServe(cfg, tx, now, s)
          ensures Serves(cfg, tx, Tx.TryRetransmit(cfg, tx, now, next, af), s, af, now)
        {
          ServedFirst(cfg, tx, now, next, af, s);
        }
        ServedSomething(cfg, tx, now, next, af);
      }
    } else {
      ControlSends(cfg, tx, now, role, connId, conn, af);
    }
  }

  lemma OneOrNone(cfg: Config, tx: TxState, now: nat)
    ensures NoneToServe(cfg, tx, now) <==> forall s :: !FirstToServe(cfg, tx, now, s)
  {
    hide MustServe;
    var due := set s | s in tx.inflight && MustServe(cfg, tx.inflight[s], now);
    assert forall x :: x in tx.inflight && MustServe(cfg, tx.inflight[x], now) <==> x in due;
    if due != {} {
      var s := Tx.Least(due);
      assert FirstToServe(cfg, tx, now, s);
    }
  }

  lemma ServedSomething(cfg: Config, tx: TxState, now: nat, conn: ConnState, af: Tx.AckFields)
    requires !NoneToServe(cfg, tx, now)
    ensures var r := Tx.TryRetransmit(cfg, tx, now, conn, af); !r.outcome.Idle? && r.conn == conn
  {
    hide MustServe;
    OneOrNone(cfg, tx, now);
    var s :| FirstToServe(cfg, tx, now, s);
    ServedFirst(cfg, tx, now, conn, af, s);
    hide Tx.Serviceable;
  }

  lemma ControlSends(cfg: Config, tx: TxState, now: nat, role: Role, connId: u32, conn: ConnState, af: Tx.AckFields)
    requires ControlDue(tx, role, conn)
    ensures Tx.TryHandshake(cfg, tx, now, role, connId, conn, af).outcome.Sent?
  {
    ControlLane(cfg, tx, now, role, connId, conn, af);
    hide Tx.TryHandshake;
  }

  lemma ConnsKept(tx: TxState, now: nat, connId: u32, conn: ConnState, af: Tx.AckFields)
    ensures var b, a := Tx.TryProbe(tx, conn, connId, af), Tx.TryAckOnly(tx, conn, connId, af);
      && b.conn == conn && (b.outcome.Idle? ==> b.tx == tx) && a.conn == conn && (a.outcome.Idle? ==> a.tx == tx)
      && Tx.TryFresh(tx, now, conn, connId, af).conn == conn
  {
  }

  // ----- acknowledgements -----

  /** A number beyond `distance` from `ack` is acknowledged by a bit. */
  ghost predicate AckedBeyond(bits: u64, distance: nat) { exists b: nat :: Tx.BitBeyond(bits, distance, b) }

  /**
   * What acknowledgement fields do to the sender: the numbers they cover are gone; each other number that has a number
   * acknowledged beyond it gains one piece of evidence, and is marked when that reaches the threshold.
   */
  lemma AcknowledgeExactly(cfg: Config, tx: TxState, ack: u32, bits: u64)
    ensures var tx' := Tx.OnRemoteAck(cfg, tx, ack, bits);
      && tx' == tx.(remoteAck := ack, remoteAckBits := bits, inflight := tx'.inflight)
      && (forall n :: n in tx'.inflight <==> n in tx.inflight && !Tx.IsAcked(n, ack, bits))
      && (forall n :: n in tx'.inflight ==>
            var e := tx.inflight[n];
            tx'.inflight[n] == if !AckedBeyond(bits, Diff(n, ack)) then e
                               else e.(gapEvidence := e.gapEvidence + 1, fastRetxPending :=
                                         e.fastRetxPending || e.gapEvidence + 1 >= cfg.evidenceThreshold))
  {
    forall n: u32 ensures Tx.IsGap(n, ack, bits) <==> !Tx.IsAcked(n, ack, bits) && AckedBeyond(bits, Diff(n, ack)) {
      Tx.GapMeaning(n, ack, bits);
    }
    hide Tx.IsGap, Tx.IsAcked, AckedBeyond;
  }

  // ----- over runs of the sender -----

  /**
   * In every sender run, a poll without a control packet to send serves the least number in flight that must be
   * served: it is transmitted once more, or given up.
   */
  lemma DueIsServed(cfg: Config, isn: u32, actions: seq<Sender.TxAction>, a: Sender.TxAction, n: nat)
    requires a.DoPoll? && Sender.Reached(cfg, isn, actions).InFlight(n)
    requires var run := Sender.Reached(cfg, isn, actions);
      !ControlDue(run.tx, a.role, a.conn) && FirstToServe(cfg, run.tx, a.now, run.Number(n))
    ensures var run := Sender.Reached(cfg, isn, actions);
      var log := Sender.Step(cfg, run, a).log;
      if run.Entry(n).retryCount >= cfg.maxRetransmit then n in log.givenUp
      else n in run.log.sends && n in log.sends && log.sends[n] == run.log.sends[n] + 1
  {
    hide Sender.Run, Tx.Poll, MustServe, ControlDue, SendsControl, SendsOther;
    var run := Sender.Reached(cfg, isn, actions);
    Sender.ReachedInv(cfg, isn, actions);
    Sender.InFlightNumber(run, n);
    PollExactly(cfg, run.tx, a.now, a.role, a.connId, a.conn, a.af);
    hide Sender.Numbered, Sender.Conserved, Sender.Fifo;
  }

  // ----- the session: idle timeout -----

  function IdleError(): Event { Event(Error, 0, 0, UNRELIABLE, [], IdleTimeout) }

  function LimitError(): Event { Event(Error, 0, 0, UNRELIABLE, [], RetryLimit) }

  /** Established, and nothing heard for the idle timeout. */
  predicate IsIdle(cfg: Config, s: SessionState, now: nat) {
    s.conn == Established && now >= s.lastRxMs + cfg.idleTimeout
  }

  /** A poll reports the idle timeout if and only if the session is idle; it then resets and sends nothing. */
  lemma IdleExactly(cfg: Config, s: SessionState, now: nat)
    ensures var r := PollTx(cfg, s, now);
      && (IsIdle(cfg, s, now) ==>
            r.outcome == Tx.Idle && r.session == s.(conn := Reset, rx := s.rx.(events := s.rx.events + [IdleError()])))
      && (r.session.rx.events == s.rx.events + [IdleError()] <==> IsIdle(cfg, s, now))
      && (r.session.rx.events == s.rx.events || |r.session.rx.events| == |s.rx.events| + 1)
  {
    hide TxPoll, Classify, IsValidHeader;
    var r := PollTx(cfg, s, now);
    if !IsIdle(cfg, s, now) && r.session.rx.events != s.rx.events {
      assert r.session.rx.events[|s.rx.events|].reason == RetryLimit;
    }
  }

  // ----- the session: what is armed before the sender is polled -----

  /** Established, with no acknowledgement or probe waiting to be sent. */
  predicate LaneClear(s: SessionState) {
    var f := s.tx.flags;
    s.conn == Established && !f.ackOnlyPending && !f.probe.pingPending && !f.probe.pongPending
  }

  /** The delayed acknowledgement is due, or activity has gone unacknowledged for the keepalive interval. */
  predicate AckArmed(cfg: Config, s: SessionState, now: nat) {
    var f := s.tx.flags;
    && LaneClear(s)
    && ((f.reliableAckPending && now >= f.reliableAckDueMs) ||
        (cfg.activityAckOnly && f.activityAckPending && now >= s.lastTxMs + cfg.keepaliveIdle))
  }

  /** A client without an outstanding PING has sent none for the keepalive interval. */
  predicate PingArmed(cfg: Config, s: SessionState, now: nat) {
    var probe := s.tx.flags.probe;
    && !AckArmed(cfg, s, now) && s.role == Client && s.conn == Established
    && !probe.pingOutstanding && !probe.pingPending && !probe.pongPending
    && now >= (if probe.lastSentMs == 0 then s.establishedSinceMs else probe.lastSentMs) + cfg.keepaliveIdle
  }

  /** The sender as it is polled. */
  function Armed(cfg: Config, s: SessionState, now: nat): TxState {
    var f := s.tx.flags;
    var delayed := LaneClear(s) && f.reliableAckPending && now >= f.reliableAckDueMs;
    s.tx.(flags := f.(ackOnlyPending := f.ackOnlyPending || AckArmed(cfg, s, now),
                      reliableAckPending := f.reliableAckPending && !delayed,
                      probe := f.probe.(pingPending := f.probe.pingPending || PingArmed(cfg, s, now))))
  }

  /** Unless the session is idle, its poll is that of the armed sender, whose exact effect `PollExactly` states. */
  lemma SessionPollExactly(cfg: Config, s: SessionState, now: nat)
    requires !IsIdle(cfg, s, now)
    ensures var af := Tx.AckFields(s.rx.nextExpected, s.rx.receivedBits);
      var r := Tx.Poll(cfg, Armed(cfg, s, now), now, s.role, s.connId, s.conn, af);
      && PollTx(cfg, s, now).outcome == r.outcome
      && (r.outcome == Tx.Idle ==> PollTx(cfg, s, now).session == s.(tx := r.tx, conn := r.conn))
      && (r.outcome.GaveUp? ==>
            PollTx(cfg, s, now).session ==
            s.(tx := r.tx, conn := Reset, rx := s.rx.(events := s.rx.events + [LimitError()])))
      && (r.outcome.Sent? && IsValidHeader(r.outcome.packet.header) ==>
            Booked(s, r, PollTx(cfg, s, now).session, r.outcome.packet, now))
  {
    ArmedFlags(cfg, s, now);
    hide Tx.Poll, ScheduledFlags, Armed, Classify;
    var af := Tx.AckFields(s.rx.nextExpected, s.rx.receivedBits);
    var r := Tx.Poll(cfg, Armed(cfg, s, now), now, s.role, s.connId, s.conn, af);
    if r.outcome.Sent? && IsValidHeader(r.outcome.packet.header) { ClassifyValues(r.outcome.packet.header.flags); }
  }

  /** What sending `p` leaves in the session beside its counters. */
  predicate Booked(s: SessionState, r: Tx.PollResult, s': SessionState, p: Packet, now: nat) {
    var f, f' := r.tx.flags, s'.tx.flags;
    && s' == s.(tx := r.tx.(flags := f'), conn := r.conn, lastTxMs := now, stats := s'.stats)
    && f' == f.(activityAckPending := false, reliableAckPending := f.reliableAckPending && p.header.flags != ACK,
                probe := if p.header.flags == PING
                         then f.probe.(pingOutstanding := true, lastSentMs := now, lastPingSentMs := now)
                         else f.probe)
  }

  lemma ArmedFlags(cfg: Config, s: SessionState, now: nat)
    ensures s.tx.(flags := ScheduledFlags(cfg, s, now)) == Armed(cfg, s, now)
  {
  }

  // ----- when the session last heard anything -----

  /** The time of the last received datagram that decodes, 0 if there is none. */
  function LastHeard(actions: seq<Runs.Action>): nat
    decreases |actions|
  {
    if actions == [] then 0
    else
      var a := actions[|actions| - 1];
      if a.Receive? && Decode(a.bytes).Some? then a.now else LastHeard(actions[..|actions| - 1])
  }

  lemma StepHears(cfg: Config, s: SessionState, a: Runs.Action)
    ensures Runs.Step(cfg, s, a).lastRxMs == if a.Receive? && Decode(a.bytes).Some? then a.now else s.lastRxMs
  {
    hide Decode, Classify, TxPoll, Tx.OnRemoteAck, Tx.FinAcked, IsValidHeader;
    hide DecisionFlags, DecisionEvents, Decide, ReceiveFlags;
  }

  lemma {:induction false} LastHeardIs(cfg: Config, role: Role, isn: u32, connId: u32, actions: seq<Runs.Action>)
    ensures Life.Reached(cfg, role, isn, connId, actions).session.lastRxMs == LastHeard(actions)
    decreases |actions|
  {
    if actions != [] {
      hide Runs.Step, Runs.TxTrace, Hist.MidConn, Hist.EmissionsOf, Hist.Visit, Decode;
      var front, a := actions[..|actions| - 1], actions[|actions| - 1];
      LastHeardIs(cfg, role, isn, connId, front);
      StepHears(cfg, Life.Reached(cfg, role, isn, connId, front).session, a);
    }
  }

  /** In every session run, a poll times out if and only if the session is Established and has heard nothing since. */
  lemma TimeoutOverRuns(cfg: Config, role: Role, isn: u32, connId: u32, actions: seq<Runs.Action>, now: nat)
    ensures var s := Life.Reached(cfg, role, isn, connId, actions).session;
      PollTx(cfg, s, now).session.rx.events == s.rx.events + [IdleError()] <==>
        s.conn == Established && now >= LastHeard(actions) + cfg.idleTimeout
  {
    hide Life.Reached, PollTx, LastHeard;
    LastHeardIs(cfg, role, isn, connId, actions);
    IdleExactly(cfg, Life.Reached(cfg, role, isn, connId, actions).session, now);
  }
}
