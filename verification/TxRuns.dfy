/**
 * Runs of the sender under an adversary: any interleaving of queueing, polling (with any
 * clock, role, connection state and acknowledgement fields), acknowledgements with any
 * values whatever, and arbitrary changes of the scheduling flags.
 *
 * A log beside the state records, by unbounded index, every reliable number ever issued
 * and what became of it. The invariants hold in every run, across wrap-around.
 */
module TxRuns {
  import opened Protocol
  import opened Codec
  import opened SessionTypes
  import opened ConnectionStateMachine
  import opened TxSpec

  datatype TxAction =
    | Queue(request: SendRequest)
    | DoPoll(now: nat, role: Role, connId: u32, conn: ConnState, af: AckFields)
    | RemoteAck(ack: u32, bits: u64)
    | SetFlags(flags: TxFlags)

  /**
   * `issued[n]` is the content of the n-th number; `released` maps an index to the header
   * fields that acknowledged it; `sends` counts transmissions; `evidence` counts gap evidence
   * since the last transmission; `fast` holds the indices ever resent before their timeout;
   * `clock` is the latest time seen by a poll.
   */
  datatype TxLog = TxLog(
    isn: u32, issued: seq<Packet>, released: map<nat, AckFields>, givenUp: set<nat>,
    sends: map<nat, nat>, evidence: map<nat, nat>, fast: set<nat>, clock: nat,
    queued: seq<SendRequest>, firstSent: seq<SendRequest>)

  datatype TxRun = TxRun(tx: TxState, log: TxLog) {
    ghost function Total(): nat { |log.issued| }
    /** The concrete number of index `n`. */
    ghost function Number(n: nat): u32 requires n < Total() { log.issued[n].header.seqNo }
    /** The index of an in-flight number. */
    ghost function Index(s: u32): int { Total() - Diff(tx.nextSeq, s) }
    ghost predicate InFlight(n: nat) { n < Total() <= n + 64 && Number(n) in tx.inflight }
    ghost function Entry(n: nat): TxEntry
      requires InFlight(n) { tx.inflight[Number(n)] }
  }

  /** What a retransmission must not change: everything but the acknowledgement fields. */
  function Content(p: Packet): Packet { p.(header := p.header.(ack := 0, ackBits := 0)) }

  function RequestOf(p: Packet): SendRequest
    requires p.header.channelType < 4
  {
    SendRequest(p.header.channelId, p.header.channelType, p.payload)
  }

  function InitialRun(isn: u32): TxRun {
    TxRun(InitialTx(isn), TxLog(isn, [], map[], {}, map[], map[], {}, 0, [], []))
  }

  // ----- the log -----

  ghost function LogAck(run: TxRun, ack: u32, bits: u64): TxLog {
    var log := run.log;
    log.(
      released := log.released + (map n: nat | n < run.Total() && run.InFlight(n) && IsAcked(run.Number(n), ack, bits)
                                  :: AckFields(ack, bits)),
      evidence := map n: nat | n in log.evidence ::
        if run.InFlight(n) && IsGap(run.Number(n), ack, bits) then log.evidence[n] + 1 else log.evidence[n])
  }

  ghost function LogSent(cfg: Config, run: TxRun, p: Packet, lane: Lane, now: nat): TxLog {
    var log := run.log;
    if lane == Retransmit then
      var n := run.Index(p.header.seqNo);
      if n < 0 || n !in log.sends || p.header.seqNo !in run.tx.inflight then log
      else log.(sends := log.sends[n := log.sends[n] + 1],
                evidence := log.evidence[n := 0],
                fast := if TimedOut(cfg, run.tx.inflight[p.header.seqNo], now) then log.fast else log.fast + {n})
    else
      var numbered := if IsNumbered(p)
        then log.(issued := log.issued + [Content(p)], sends := log.sends[run.Total() := 1],
                  evidence := log.evidence[run.Total() := 0])
        else log;
      if Classify(p.header.flags) == KNone && p.header.channelType < 4
      then numbered.(firstSent := log.firstSent + [RequestOf(p)])
      else numbered
  }

  ghost function LogPoll(cfg: Config, run: TxRun, o: Outcome, now: nat): TxLog {
    var log := match o {
      case Idle => run.log
      case GaveUp(s) => run.log.(givenUp := run.log.givenUp + {if run.Index(s) >= 0 then run.Index(s) else 0})
      case Sent(p, lane) => LogSent(cfg, run, p, lane, now)
    };
    log.(clock := if now > log.clock then now else log.clock)
  }

  ghost function PollOf(cfg: Config, tx: TxState, a: TxAction): PollResult
    requires a.DoPoll?
  {
    Poll(cfg, tx, a.now, a.role, a.connId, a.conn, a.af)
  }

  ghost function Step(cfg: Config, run: TxRun, a: TxAction): TxRun {
    match a
    case Queue(r) => TxRun(QueueSend(run.tx, r), run.log.(queued := run.log.queued + [r]))
    case DoPoll(now, _, _, _, _) =>
      var r := PollOf(cfg, run.tx, a);
      TxRun(r.tx, LogPoll(cfg, run, r.outcome, now))
    case RemoteAck(ack, bits) => TxRun(OnRemoteAck(cfg, run.tx, ack, bits), LogAck(run, ack, bits))
    case SetFlags(f) => run.(tx := run.tx.(flags := f))
  }

  ghost function Run(cfg: Config, run: TxRun, actions: seq<TxAction>): TxRun
    decreases |actions|
  {
    if actions == [] then run
    else Step(cfg, Run(cfg, run, actions[..|actions| - 1]), actions[|actions| - 1])
  }

  // ----- what one poll can do -----

  /** The state without the scheduling flags. */
  function Core(tx: TxState): TxState { tx.(flags := NO_FLAGS) }

  ghost predicate ResendsFirst(cfg: Config, tx: TxState, tx': TxState, p: Packet, now: nat, af: AckFields, s: u32) {
    && s in tx.inflight
    && !Exhausted(cfg, tx.inflight[s]) && NeedsService(cfg, tx.inflight[s], now)
    && p == Resent(tx.inflight[s], af, now).packet
    && Core(tx') == Core(tx.(inflight := tx.inflight[s := Resent(tx.inflight[s], af, now)]))
  }

  ghost predicate SendsNew(tx: TxState, tx': TxState, p: Packet, lane: Lane, now: nat, connId: u32, af: AckFields) {
    && p.header.connId == connId && p.header.ack == af.ack && p.header.ackBits == af.ackBits
    && IsValidHeader(p.header)
    && (if IsNumbered(p) then !WindowFull(tx) && p.header.seqNo == tx.nextSeq else p.header.seqNo == 0)
    && (lane == Fresh ==>
        && tx.pendingSend != [] && RequestOf(p) == tx.pendingSend[0] && p.header.flags == 0
        && Core(tx') == Core(var popped := tx.(pendingSend := tx.pendingSend[1..]);
                             if IsNumbered(p) then Enlist(popped, p, now) else popped))
    && (lane != Fresh ==>
        && p.header.channelType == UNRELIABLE && p.payload == []
        && Core(tx') == Core(if IsNumbered(p) then Enlist(tx, p, now) else tx))
    && (lane == Control ==> p.header.flags in {SYN, SYN_ACK, ACK, FIN})
    && (lane == ProbeLane ==> p.header.flags in {PING, PONG})
    && (lane == AckOnly ==> p.header.flags == ACK)
  }

  ghost function FirstDue(cfg: Config, tx: TxState, now: nat): u32 {
    var due := Serviceable(cfg, tx.inflight, now);
    if due == {} then 0 else Least(due)
  }

  lemma PollCases(cfg: Config, tx: TxState, now: nat, role: Role, connId: u32, conn: ConnState, af: AckFields)
    ensures var r := Poll(cfg, tx, now, role, connId, conn, af);
      match r.outcome
      case Idle => Core(r.tx) == Core(tx)
      case GaveUp(s) =>
        && s in tx.inflight && Exhausted(cfg, tx.inflight[s])
        && Core(r.tx) == Core(tx.(inflight := tx.inflight - {s}))
      case Sent(p, lane) =>
        if lane == Retransmit then ResendsFirst(cfg, tx, r.tx, p, now, af, FirstDue(cfg, tx, now))
        else SendsNew(tx, r.tx, p, lane, now, connId, af)
  {
    var h := TryHandshake(cfg, tx, now, role, connId, conn, af);
    if h.outcome.Idle? {
      var r := TryRetransmit(cfg, h.tx, now, h.conn, af);
      if r.outcome.Idle? {
        var b := TryProbe(r.tx, r.conn, connId, af);
        if b.outcome.Idle? {
          var a := TryAckOnly(b.tx, b.conn, connId, af);
        }
      }
    }
  }

  // ----- which flags let a packet out -----

  /** At distance 64 from the remote ack no number is assigned, and a reliable request stays where it is. */
  lemma StallsAtFullWindow(cfg: Config, tx: TxState, now: nat, role: Role, connId: u32, conn: ConnState, af: AckFields)
    requires Diff(tx.nextSeq, tx.remoteAck) >= 64
    ensures var r := Poll(cfg, tx, now, role, connId, conn, af);
      && r.tx.nextSeq == tx.nextSeq
      && (tx.pendingSend != [] && IsReliableChannel(tx.pendingSend[0].channelType) ==>
            r.tx.pendingSend == tx.pendingSend)
  {
    PollCases(cfg, tx, now, role, connId, conn, af);
    hide Poll;
  }

  /**
   * The retry limit is looked at before the clock: once the first number in flight is exhausted, any poll that
   * has no control packet to send gives it up, due or not.
   */
  lemma GivesUpAtOnce(cfg: Config, tx: TxState, s: u32, now: nat, role: Role, connId: u32, conn: ConnState,
                      af: AckFields)
    requires s in tx.inflight && Exhausted(cfg, tx.inflight[s]) && forall x :: x in tx.inflight ==> s <= x
    requires HandshakeFlags(tx, role, conn).None?
    ensures Poll(cfg, tx, now, role, connId, conn, af).outcome == GaveUp(s)
  {
    var due := Serviceable(cfg, tx.inflight, now);
    assert s in due && IsLeast(due, s);
  }

  /** Sending only ever clears pending flags. */
  predicate FlagsShrink(f: TxFlags, f': TxFlags) {
    && (f'.synAckPending ==> f.synAckPending) && (f'.finalAckPending ==> f.finalAckPending)
    && (f'.finPending ==> f.finPending) && (f'.ackOnlyPending ==> f.ackOnlyPending)
    && f'.reliableAckPending == f.reliableAckPending && f'.activityAckPending == f.activityAckPending
    && (f'.probe.pongPending ==> f.probe.pongPending)
    && f'.probe.pingOutstanding == f.probe.pingOutstanding
  }

  predicate SendsPing(o: Outcome) { o.Sent? && o.lane == ProbeLane && o.packet.header.flags == PING }

  ghost predicate LaneOpen(tx: TxState, r: PollResult, role: Role, conn: ConnState) {
    var f, o := tx.flags, r.outcome;
    && FlagsShrink(f, r.tx.flags)
    && r.tx.flags.probe.pingPending == (f.probe.pingPending && !SendsPing(o))
    && (SendsPing(o) ==> f.probe.pingPending)
    && (o.Sent? && o.lane == Control ==>
         || (o.packet.header.flags == SYN && role == Client && conn == Closed)
         || (o.packet.header.flags == SYN_ACK && f.synAckPending && conn == HandshakeReceived)
         || (o.packet.header.flags == ACK && f.finalAckPending && conn == Established)
         || (o.packet.header.flags == FIN && f.finPending && conn == Closing))
    && (o.Sent? && o.lane == ProbeLane ==> f.probe.pongPending || f.probe.pingPending)
    && (o.Sent? && o.lane == AckOnly ==> f.ackOnlyPending)
  }

  lemma HandshakeLane(cfg: Config, tx: TxState, now: nat, role: Role, connId: u32, conn: ConnState, af: AckFields)
    ensures var r := TryHandshake(cfg, tx, now, role, connId, conn, af);
      && LaneOpen(tx, r, role, conn) && r.conn == HandshakeConn(role, conn)
      && (r.outcome.Idle? ==> r.tx == tx) && !r.outcome.GaveUp?
      && (r.outcome.Sent? ==> r.outcome.lane == Control)
  {
    hide WindowFull, Emplace;
  }

  lemma RetransmitLane(cfg: Config, tx: TxState, now: nat, role: Role, conn: ConnState, af: AckFields)
    ensures var r := TryRetransmit(cfg, tx, now, conn, af);
      && LaneOpen(tx, r, role, conn) && r.conn == conn && r.tx.flags == tx.flags
      && (r.outcome.Idle? ==> r.tx == tx)
      && (r.outcome.Sent? ==> r.outcome.lane == Retransmit)
  {
    hide Serviceable;
  }

  lemma ProbeLaneOpens(tx: TxState, role: Role, connId: u32, conn: ConnState, af: AckFields)
    ensures var r := TryProbe(tx, conn, connId, af);
      LaneOpen(tx, r, role, conn) && r.conn == conn && (r.outcome.Idle? ==> r.tx == tx) && !r.outcome.GaveUp?
  {
    var r, probe := TryProbe(tx, conn, connId, af), tx.flags.probe;
    if probe.pongPending {
      assert r.outcome.packet.header.flags == PONG && r.outcome.lane == ProbeLane;
      assert r.tx.flags == tx.flags.(probe := probe.(pongPending := false));
    } else if probe.pingPending {
      assert SendsPing(r.outcome);
      assert r.tx.flags == tx.flags.(probe := probe.(pingPending := false));
    }
    hide TryProbe;
  }

  lemma AckLaneOpens(tx: TxState, role: Role, connId: u32, conn: ConnState, af: AckFields)
    ensures var r := TryAckOnly(tx, conn, connId, af);
      LaneOpen(tx, r, role, conn) && r.conn == conn && (r.outcome.Idle? ==> r.tx == tx) && !r.outcome.GaveUp?
  {
  }

  lemma FreshLaneOpens(tx: TxState, now: nat, role: Role, connId: u32, conn: ConnState, af: AckFields)
    ensures var r := TryFresh(tx, now, conn, connId, af);
      LaneOpen(tx, r, role, conn) && r.conn == conn && r.tx.flags == tx.flags && !r.outcome.GaveUp?
  {
    hide WindowFull, Emplace, FreshPacket;
  }

  lemma PollLane(cfg: Config, tx: TxState, now: nat, role: Role, connId: u32, conn: ConnState, af: AckFields)
    ensures var r := Poll(cfg, tx, now, role, connId, conn, af);
      LaneOpen(tx, r, role, conn) && r.conn == HandshakeConn(role, conn)
  {
    hide TryHandshake, TryRetransmit, TryProbe, TryAckOnly, TryFresh;
    HandshakeLane(cfg, tx, now, role, connId, conn, af);
    RetransmitLane(cfg, tx, now, role, HandshakeConn(role, conn), af);
    ProbeLaneOpens(tx, role, connId, HandshakeConn(role, conn), af);
    AckLaneOpens(tx, role, connId, HandshakeConn(role, conn), af);
    FreshLaneOpens(tx, now, role, connId, HandshakeConn(role, conn), af);
  }

  // ----- the invariants -----

  /** Every in-flight number is one of the 64 before `nextSeq` and not before the last acknowledged front. */
  ghost predicate Window(tx: TxState) {
    forall s :: s in tx.inflight ==> 1 <= Diff(tx.nextSeq, s) <= 64 && !SeqLt(s, tx.remoteAck)
  }

  predicate ExactlyOne(a: bool, b: bool, c: bool) {
    (a && !b && !c) || (!a && b && !c) || (!a && !b && c)
  }

  predicate Wellformed(p: Packet) {
    && IsValidHeader(p.header) && IsNumbered(p)
    && p.header.flags in {0, SYN, SYN_ACK, FIN}
    && (p.header.flags != 0 ==> p.header.channelType == UNRELIABLE)
  }

  /** The latest 64 numbers run up to `nextSeq`. */
  ghost predicate Recent(run: TxRun) {
    forall n: nat :: n < run.Total() <= n + 64 ==> Diff(run.tx.nextSeq, run.Number(n)) == run.Total() - n
  }

  ghost predicate EntriesLogged(run: TxRun) {
    forall s :: s in run.tx.inflight ==>
      && 0 <= run.Index(s) < run.Total()
      && run.tx.inflight[s].packet.header.seqNo == s
      && Content(run.tx.inflight[s].packet) == run.log.issued[run.Index(s)]
  }

  /** Index `n` was given the number `isn + n` modulo 2^32. */
  ghost predicate Numbered(run: TxRun) {
    && run.tx.nextSeq == Add(run.log.isn, run.Total())
    && forall n: nat :: n < run.Total() ==> run.Number(n) == Add(run.log.isn, n)
  }

  ghost predicate Tracked(run: TxRun) {
    && Window(run.tx) && Recent(run) && EntriesLogged(run)
    && forall p :: p in run.log.issued ==> Wellformed(p)
  }

  /** Each assigned number is in flight, or was acknowledged by a recorded header, or was given up. */
  ghost predicate Conserved(run: TxRun) {
    && (forall n: nat :: n < run.Total() ==>
         ExactlyOne(run.InFlight(n), n in run.log.released, n in run.log.givenUp))
    && (forall n :: n in run.log.released ==>
         n < run.Total() && IsAcked(run.Number(n), run.log.released[n].ack, run.log.released[n].ackBits))
    && (forall n :: n in run.log.givenUp ==> n < run.Total())
  }

  /** Sum of the timeouts of the first `n` transmissions. */
  function RtoSum(cfg: Config, n: nat): nat {
    if n == 0 then 0 else RtoSum(cfg, n - 1) + Rto(cfg, n - 1)
  }

  /** Evidence is only looked at when it grows, so a threshold of 0 acts as 1. */
  function EffectiveThreshold(cfg: Config): nat {
    if cfg.evidenceThreshold == 0 then 1 else cfg.evidenceThreshold
  }

  ghost predicate RetryEntry(cfg: Config, log: TxLog, n: nat, e: TxEntry)
    requires n in log.sends && n in log.evidence
  {
    && log.sends[n] == 1 + e.retryCount
    && log.evidence[n] == e.gapEvidence
    && (e.fastRetxPending <==> log.evidence[n] >= EffectiveThreshold(cfg))
    && e.lastSendMs <= log.clock
    && (n !in log.fast ==> e.lastSendMs >= e.firstSendMs + RtoSum(cfg, e.retryCount))
  }

  ghost predicate Retries(cfg: Config, run: TxRun) {
    && (forall n: nat :: n < run.Total() <==> n in run.log.sends)
    && (forall n: nat :: n < run.Total() <==> n in run.log.evidence)
    && (forall n :: n in run.log.sends ==> 1 <= run.log.sends[n] <= 1 + cfg.maxRetransmit)
    && (forall n: nat :: run.InFlight(n) ==> RetryEntry(cfg, run.log, n, run.Entry(n)))
  }

  ghost predicate Fifo(run: TxRun) {
    run.log.firstSent + run.tx.pendingSend == run.log.queued
  }

  ghost predicate Inv(cfg: Config, run: TxRun) {
    Tracked(run) && Numbered(run) && Conserved(run) && Retries(cfg, run) && Fifo(run)
  }

  // ----- every action keeps the invariants -----

  lemma InFlightNumber(run: TxRun, n: nat)
    requires Tracked(run) && run.InFlight(n)
    ensures run.Index(run.Number(n)) == n
    ensures run.Entry(n).packet.header.seqNo == run.Number(n)
  {
  }

  lemma InFlightIndex(run: TxRun, s: u32)
    requires Tracked(run) && s in run.tx.inflight
    ensures run.InFlight(run.Index(s)) && run.Number(run.Index(s)) == s
  {
  }

  /** Neither the numbers nor what is in flight changed. */
  ghost predicate SameWindow(run: TxRun, run': TxRun) {
    && run'.tx.nextSeq == run.tx.nextSeq && run'.tx.remoteAck == run.tx.remoteAck
    && run'.tx.inflight == run.tx.inflight
    && run'.log.clock >= run.log.clock
    && run'.log == run.log.(clock := run'.log.clock, queued := run'.log.queued, firstSent := run'.log.firstSent)
  }

  lemma SameWindowKeeps(cfg: Config, run: TxRun, run': TxRun)
    requires SameWindow(run, run')
    requires Tracked(run) && Numbered(run) && Conserved(run) && Retries(cfg, run)
    ensures Tracked(run') && Numbered(run') && Conserved(run') && Retries(cfg, run')
  {
    hide Add, IsAcked;
    assert forall n: nat :: n < run.Total() ==> run'.Number(n) == run.Number(n);
    assert forall n: nat :: run'.InFlight(n) <==> run.InFlight(n);
    forall n: nat | run'.InFlight(n) ensures RetryEntry(cfg, run'.log, n, run'.Entry(n)) {
      assert RetryEntry(cfg, run.log, n, run.Entry(n));
    }
  }

  // acknowledgements

  ghost predicate Acknowledged(cfg: Config, run: TxRun, run': TxRun, ack: u32, bits: u64) {
    run'.tx == OnRemoteAck(cfg, run.tx, ack, bits) && run'.log == LogAck(run, ack, bits)
  }

  lemma AckEffect(cfg: Config, run: TxRun, run': TxRun, ack: u32, bits: u64)
    requires Acknowledged(cfg, run, run', ack, bits)
    ensures forall s :: s in run'.tx.inflight <==> s in run.tx.inflight && !IsAcked(s, ack, bits)
    ensures forall s :: s in run'.tx.inflight ==>
      run'.tx.inflight[s] == if IsGap(s, ack, bits) then AddEvidence(cfg, run.tx.inflight[s]) else run.tx.inflight[s]
    ensures run'.tx.nextSeq == run.tx.nextSeq && run'.tx.remoteAck == ack
    ensures run'.log.isn == run.log.isn && run'.log.issued == run.log.issued
    ensures forall n: nat :: n < run.Total() ==> run'.Number(n) == run.Number(n)
    ensures forall n: nat :: run'.InFlight(n) <==> run.InFlight(n) && !IsAcked(run.Number(n), ack, bits)
  {
  }

  lemma AckTracked(cfg: Config, run: TxRun, run': TxRun, ack: u32, bits: u64)
    requires Acknowledged(cfg, run, run', ack, bits) && Tracked(run) && Numbered(run)
    ensures Tracked(run') && Numbered(run')
  {
    hide Add, IsGap, Acknowledged, HasFlag;
    AckEffect(cfg, run, run', ack, bits);
    assert Window(run'.tx) && EntriesLogged(run');
  }

  lemma AckConserved(cfg: Config, run: TxRun, run': TxRun, ack: u32, bits: u64)
    requires Acknowledged(cfg, run, run', ack, bits) && Conserved(run)
    ensures Conserved(run')
  {
  }

  lemma AckRetries(cfg: Config, run: TxRun, run': TxRun, ack: u32, bits: u64)
    requires Acknowledged(cfg, run, run', ack, bits) && Retries(cfg, run)
    ensures Retries(cfg, run')
  {
    AckEffect(cfg, run, run', ack, bits);
    forall n: nat | run'.InFlight(n)
      ensures n in run'.log.sends && n in run'.log.evidence
      ensures RetryEntry(cfg, run'.log, n, run'.Entry(n))
    {
      assert RetryEntry(cfg, run.log, n, run.Entry(n));
    }
  }

  // giving up

  ghost predicate Abandoned(run: TxRun, run': TxRun, s: u32) {
    && s in run.tx.inflight
    && run'.tx.nextSeq == run.tx.nextSeq && run'.tx.remoteAck == run.tx.remoteAck
    && run'.tx.inflight == run.tx.inflight - {s}
    && run'.log.clock >= run.log.clock && run.Index(s) >= 0
    && run'.log == run.log.(givenUp := run.log.givenUp + {run.Index(s)}, clock := run'.log.clock)
  }

  /** One in-flight number is taken out: the others keep their place. */
  lemma GiveUpEffect(run: TxRun, run': TxRun, s: u32)
    requires Abandoned(run, run', s) && Tracked(run)
    ensures run'.Total() == run.Total()
    ensures forall n: nat :: n < run.Total() ==> run'.Number(n) == run.Number(n)
    ensures forall n: nat :: run'.InFlight(n) <==> run.InFlight(n) && n != run.Index(s)
    ensures run.InFlight(run.Index(s))
  {
  }

  lemma GiveUpTracked(run: TxRun, run': TxRun, s: u32)
    requires Abandoned(run, run', s) && Tracked(run) && Numbered(run) && Conserved(run)
    ensures Tracked(run') && Numbered(run') && Conserved(run')
    ensures run.Index(s) !in run.log.givenUp
  {
    hide Add, IsAcked, Wellformed, Content, SeqLt;
    GiveUpEffect(run, run', s);
    GiveUpConserved(run, run', s);
    hide Conserved;
  }

  lemma GiveUpConserved(run: TxRun, run': TxRun, s: u32)
    requires Abandoned(run, run', s) && Tracked(run) && Conserved(run)
    ensures Conserved(run') && run.Index(s) !in run.log.givenUp
  {
    hide IsAcked;
    GiveUpEffect(run, run', s);
    hide Tracked, Diff;
  }

  lemma GiveUpRetries(cfg: Config, run: TxRun, run': TxRun, s: u32)
    requires Abandoned(run, run', s) && Tracked(run) && Retries(cfg, run)
    ensures Retries(cfg, run')
  {
    GiveUpEffect(run, run', s);
    forall n: nat | run'.InFlight(n) ensures RetryEntry(cfg, run'.log, n, run'.Entry(n)) {
      assert RetryEntry(cfg, run.log, n, run.Entry(n));
    }
  }

  // retransmission

  ghost predicate Repeated(cfg: Config, run: TxRun, run': TxRun, s: u32, af: AckFields, now: nat) {
    && s in run.tx.inflight && !Exhausted(cfg, run.tx.inflight[s])
    && run'.tx.nextSeq == run.tx.nextSeq && run'.tx.remoteAck == run.tx.remoteAck
    && run'.tx.inflight == run.tx.inflight[s := Resent(run.tx.inflight[s], af, now)]
    && run'.log.clock >= run.log.clock && run'.log.clock >= now
    && run.Index(s) >= 0 && run.Index(s) in run.log.sends
    && run'.log == run.log.(
         clock := run'.log.clock,
         sends := run.log.sends[run.Index(s) := run.log.sends[run.Index(s)] + 1],
         evidence := run.log.evidence[run.Index(s) := 0],
         fast := if TimedOut(cfg, run.tx.inflight[s], now) then run.log.fast else run.log.fast + {run.Index(s)})
  }

  lemma ResendIsRepeated(cfg: Config, run: TxRun, run': TxRun, p: Packet, s: u32, af: AckFields, now: nat)
    requires ResendsFirst(cfg, run.tx, run'.tx, p, now, af, s)
    requires run'.log == LogPoll(cfg, run, Sent(p, Retransmit), now)
    requires Tracked(run) && Retries(cfg, run)
    ensures Repeated(cfg, run, run', s, af, now)
  {
    assert p.header.seqNo == s;
  }

  lemma ResendEffect(cfg: Config, run: TxRun, run': TxRun, s: u32, af: AckFields, now: nat)
    requires Repeated(cfg, run, run', s, af, now)
    ensures run'.Total() == run.Total()
    ensures forall n: nat :: n < run.Total() ==> run'.Number(n) == run.Number(n)
    ensures forall n: nat :: run'.InFlight(n) <==> run.InFlight(n)
    ensures run'.tx.inflight.Keys == run.tx.inflight.Keys
    ensures forall x :: x in run.tx.inflight && x != s ==> run'.tx.inflight[x] == run.tx.inflight[x]
  {
  }

  lemma ResendTracked(cfg: Config, run: TxRun, run': TxRun, s: u32, af: AckFields, now: nat)
    requires Repeated(cfg, run, run', s, af, now)
    requires Tracked(run) && Numbered(run) && Conserved(run)
    ensures Tracked(run') && Numbered(run') && Conserved(run')
  {
    hide Add, IsAcked, Wellformed, SeqLt, Exhausted;
    ResendEffect(cfg, run, run', s, af, now);
    assert Content(run'.tx.inflight[s].packet) == Content(run.tx.inflight[s].packet);
    assert EntriesLogged(run');
  }

  lemma ResendRetries(cfg: Config, run: TxRun, run': TxRun, s: u32, af: AckFields, now: nat)
    requires Repeated(cfg, run, run', s, af, now)
    requires Tracked(run) && Retries(cfg, run)
    ensures Retries(cfg, run')
  {
    ResendEffect(cfg, run, run', s, af, now);
    var g, e := run.Index(s), run.tx.inflight[s];
    InFlightIndex(run, s);
    assert RetryEntry(cfg, run.log, g, e);
    assert RtoSum(cfg, e.retryCount + 1) == RtoSum(cfg, e.retryCount) + Rto(cfg, e.retryCount);
    assert RetryEntry(cfg, run'.log, g, Resent(e, af, now));
    forall n: nat | run'.InFlight(n)
      ensures n in run'.log.sends && n in run'.log.evidence
      ensures RetryEntry(cfg, run'.log, n, run'.Entry(n))
    {
      InFlightNumber(run, n);
      assert RetryEntry(cfg, run.log, n, run.Entry(n));
    }
  }

  // new packets

  ghost predicate Issued(cfg: Config, run: TxRun, run': TxRun, p: Packet, lane: Lane, connId: u32, af: AckFields,
                         now: nat)
  {
    && lane != Retransmit
    && SendsNew(run.tx, run'.tx, p, lane, now, connId, af)
    && run'.log == LogPoll(cfg, run, Sent(p, lane), now)
  }

  lemma FifoStep(cfg: Config, run: TxRun, run': TxRun, p: Packet, lane: Lane, connId: u32, af: AckFields, now: nat)
    requires Issued(cfg, run, run', p, lane, connId, af, now) && Fifo(run)
    ensures Fifo(run')
  {
    hide WindowFull, IsValidHeader, Emplace;
    if lane == Fresh {
      var head := run.tx.pendingSend[0];
      assert run.tx.pendingSend == [head] + run'.tx.pendingSend;
      assert run.log.firstSent + ([head] + run'.tx.pendingSend) == (run.log.firstSent + [head]) + run'.tx.pendingSend;
    } else {
      assert Classify(p.header.flags) != KNone;
    }
  }

  ghost predicate Enlisted(run: TxRun, run': TxRun, p: Packet, now: nat) {
    && !WindowFull(run.tx) && p.header.seqNo == run.tx.nextSeq && Wellformed(Content(p))
    && run'.tx.nextSeq == Inc(run.tx.nextSeq) && run'.tx.remoteAck == run.tx.remoteAck
    && run'.tx.inflight == Emplace(run.tx.inflight, p.header.seqNo, TxEntry(p, now, now, 0, 0, false))
    && run'.log.clock >= run.log.clock && run'.log.clock >= now
    && run'.log == run.log.(
         clock := run'.log.clock, firstSent := run'.log.firstSent,
         issued := run.log.issued + [Content(p)],
         sends := run.log.sends[run.Total() := 1], evidence := run.log.evidence[run.Total() := 0])
  }

  /** The new number is not in flight, and the others keep their index. */
  lemma EnlistEffect(run: TxRun, run': TxRun, p: Packet, now: nat)
    requires Enlisted(run, run', p, now) && Tracked(run)
    ensures run.tx.nextSeq !in run.tx.inflight
    ensures run'.tx.inflight == run.tx.inflight[run.tx.nextSeq := TxEntry(p, now, now, 0, 0, false)]
    ensures run'.Index(run.tx.nextSeq) == run.Total() && run'.Total() == run.Total() + 1
    ensures forall n: nat :: n < run.Total() ==> run'.Number(n) == run.Number(n)
    ensures forall s :: s in run.tx.inflight ==> run'.Index(s) == run.Index(s) && Diff(run'.tx.nextSeq, s) <= 64
  {
  }

  lemma EnlistTracked(run: TxRun, run': TxRun, p: Packet, now: nat)
    requires Enlisted(run, run', p, now) && Tracked(run)
    ensures Tracked(run')
  {
    EnlistEffect(run, run', p, now);
    assert Window(run'.tx);
    forall n: nat | n < run'.Total() <= n + 64
      ensures Diff(run'.tx.nextSeq, run'.Number(n)) == run'.Total() - n
    {
      if n < run.Total() {
        assert Diff(run.tx.nextSeq, run.Number(n)) == run.Total() - n;
      }
    }
    assert EntriesLogged(run');
  }

  lemma EnlistNumbered(run: TxRun, run': TxRun, p: Packet, now: nat)
    requires Enlisted(run, run', p, now) && Numbered(run)
    ensures Numbered(run')
  {
    AddInc(run.log.isn, run.Total());
    forall n: nat | n < run'.Total() ensures run'.Number(n) == Add(run'.log.isn, n) {
      if n < run.Total() {
        assert run'.Number(n) == run.Number(n);
      }
    }
  }

  lemma EnlistInFlight(run: TxRun, run': TxRun, p: Packet, now: nat, n: nat)
    requires Enlisted(run, run', p, now) && Tracked(run)
    ensures run'.InFlight(n) <==> n == run.Total() || run.InFlight(n)
    ensures run.InFlight(n) ==> run'.Entry(n) == run.Entry(n)
  {
  }

  lemma EnlistConserved(run: TxRun, run': TxRun, p: Packet, now: nat)
    requires Enlisted(run, run', p, now) && Tracked(run) && Conserved(run)
    ensures Conserved(run')
  {
    EnlistEffect(run, run', p, now);
    forall n: nat | n < run'.Total()
      ensures ExactlyOne(run'.InFlight(n), n in run'.log.released, n in run'.log.givenUp)
    {
      EnlistInFlight(run, run', p, now, n);
    }
  }

  lemma EnlistRetries(cfg: Config, run: TxRun, run': TxRun, p: Packet, now: nat)
    requires Enlisted(run, run', p, now) && Tracked(run) && Retries(cfg, run)
    ensures Retries(cfg, run')
  {
    EnlistEffect(run, run', p, now);
    forall n: nat | run'.InFlight(n)
      ensures n in run'.log.sends && n in run'.log.evidence
      ensures RetryEntry(cfg, run'.log, n, run'.Entry(n))
    {
      EnlistInFlight(run, run', p, now, n);
      if n < run.Total() {
        assert RetryEntry(cfg, run.log, n, run.Entry(n));
      }
    }
  }

  lemma NewIsEnlisted(cfg: Config, run: TxRun, run': TxRun, p: Packet, lane: Lane, connId: u32, af: AckFields, now: nat)
    requires Issued(cfg, run, run', p, lane, connId, af, now)
    ensures if IsNumbered(p) then Enlisted(run, run', p, now) else SameWindow(run, run')
  {
  }

  lemma NewPacketKeeps(cfg: Config, run: TxRun, run': TxRun, p: Packet, lane: Lane, connId: u32, af: AckFields,
                       now: nat)
    requires Issued(cfg, run, run', p, lane, connId, af, now) && Inv(cfg, run)
    ensures Inv(cfg, run')
  {
    FifoStep(cfg, run, run', p, lane, connId, af, now);
    NewIsEnlisted(cfg, run, run', p, lane, connId, af, now);
    if IsNumbered(p) {
      EnlistTracked(run, run', p, now);
      EnlistNumbered(run, run', p, now);
      EnlistConserved(run, run', p, now);
      EnlistRetries(cfg, run, run', p, now);
    } else {
      SameWindowKeeps(cfg, run, run');
    }
  }

  lemma PollKeeps(cfg: Config, run: TxRun, run': TxRun, a: TxAction)
    requires Inv(cfg, run) && a.DoPoll?
    requires var r := PollOf(cfg, run.tx, a); run' == TxRun(r.tx, LogPoll(cfg, run, r.outcome, a.now))
    ensures Inv(cfg, run')
  {
    PollCases(cfg, run.tx, a.now, a.role, a.connId, a.conn, a.af);
    var o := PollOf(cfg, run.tx, a).outcome;
    match o {
      case Idle =>
        SameWindowKeeps(cfg, run, run');
      case GaveUp(s) =>
        GiveUpTracked(run, run', s);
        GiveUpRetries(cfg, run, run', s);
      case Sent(p, lane) =>
        if lane == Retransmit {
          var s := FirstDue(cfg, run.tx, a.now);
          ResendIsRepeated(cfg, run, run', p, s, a.af, a.now);
          ResendTracked(cfg, run, run', s, a.af, a.now);
          ResendRetries(cfg, run, run', s, a.af, a.now);
        } else {
          NewPacketKeeps(cfg, run, run', p, lane, a.connId, a.af, a.now);
        }
    }
  }

  lemma StepKeeps(cfg: Config, run: TxRun, a: TxAction)
    requires Inv(cfg, run)
    ensures Inv(cfg, Step(cfg, run, a))
  {
    var run' := Step(cfg, run, a);
    match a {
      case Queue(r) =>
        SameWindowKeeps(cfg, run, run');
        assert run.log.firstSent + (run.tx.pendingSend + [r]) == (run.log.firstSent + run.tx.pendingSend) + [r];
      case DoPoll(_, _, _, _, _) =>
        PollKeeps(cfg, run, run', a);
      case RemoteAck(ack, bits) =>
        AckTracked(cfg, run, run', ack, bits);
        AckConserved(cfg, run, run', ack, bits);
        AckRetries(cfg, run, run', ack, bits);
      case SetFlags(f) =>
        SameWindowKeeps(cfg, run, run');
    }
  }

  lemma NoPollNoGiveUp(cfg: Config, run: TxRun, a: TxAction)
    requires !a.DoPoll?
    ensures Step(cfg, run, a).log.givenUp == run.log.givenUp
  {
  }

  /** The set of given-up indices grows by one element exactly when a poll gives up. */
  lemma GiveUpCount(cfg: Config, run: TxRun, a: TxAction)
    requires Inv(cfg, run) && a.DoPoll?
    ensures |Step(cfg, run, a).log.givenUp| == |run.log.givenUp| + Count(PollOf(cfg, run.tx, a).outcome.GaveUp?)
  {
    hide Poll, Retries, Numbered, Fifo, Exhausted, ResendsFirst, SendsNew;
    PollCases(cfg, run.tx, a.now, a.role, a.connId, a.conn, a.af);
    var o := PollOf(cfg, run.tx, a).outcome;
    if o.GaveUp? {
      InFlightIndex(run, o.seqNo);
      hide Tracked;
      assert run.Index(o.seqNo) !in run.log.givenUp;
    }
  }

  lemma {:induction false} RunKeeps(cfg: Config, run: TxRun, actions: seq<TxAction>)
    requires Inv(cfg, run)
    ensures Inv(cfg, Run(cfg, run, actions))
    decreases |actions|
  {
    if actions != [] {
      RunKeeps(cfg, run, actions[..|actions| - 1]);
      StepKeeps(cfg, Run(cfg, run, actions[..|actions| - 1]), actions[|actions| - 1]);
    }
  }

  lemma InitialInv(cfg: Config, isn: u32)
    ensures Inv(cfg, InitialRun(isn))
  {
  }

  ghost function Reached(cfg: Config, isn: u32, actions: seq<TxAction>): TxRun {
    Run(cfg, InitialRun(isn), actions)
  }

  lemma ReachedInv(cfg: Config, isn: u32, actions: seq<TxAction>)
    ensures Inv(cfg, Reached(cfg, isn, actions))
  {
    InitialInv(cfg, isn);
    RunKeeps(cfg, InitialRun(isn), actions);
  }

  // ----- what the invariants say about every run -----

  lemma {:induction false} AtMost(keys: set<u32>, next: u32, k: nat)
    requires k < 0x1_0000_0000 && forall s :: s in keys ==> 1 <= Diff(next, s) <= k
    ensures |keys| <= k
  {
    if k == 0 {
      if s :| s in keys { assert false; }
    } else if s :| s in keys && Diff(next, s) == k {
      AtMost(keys - {s}, next, k - 1);
    } else {
      AtMost(keys, next, k - 1);
    }
  }

  /**
   * Whatever acknowledgement values arrive, every in-flight number lies within the 64 numbers before
   * `nextSeq` and is not serially before the last acknowledged front; so no more than 64 are in flight.
   */
  lemma WindowSafety(cfg: Config, isn: u32, actions: seq<TxAction>)
    ensures var tx := Reached(cfg, isn, actions).tx;
      && (forall s :: s in tx.inflight ==> 1 <= Diff(tx.nextSeq, s) <= 64 && SeqGe(s, tx.remoteAck))
      && |tx.inflight| <= 64
  {
    hide Run, Numbered, Conserved, Retries, Fifo;
    ReachedInv(cfg, isn, actions);
    var tx := Reached(cfg, isn, actions).tx;
    AtMost(tx.inflight.Keys, tx.nextSeq, 64);
    forall s | s in tx.inflight ensures SeqGe(s, tx.remoteAck) {
      assert !SeqLt(s, tx.remoteAck);
    }
  }

  /** A number is never handed out while an entry with the same number is still in flight. */
  lemma NoNumberReused(cfg: Config, isn: u32, actions: seq<TxAction>, a: TxAction)
    requires a.DoPoll?
    ensures var tx := Reached(cfg, isn, actions).tx;
      var o := PollOf(cfg, tx, a).outcome;
      o.Sent? && o.lane != Retransmit && IsNumbered(o.packet) ==> o.packet.header.seqNo !in tx.inflight
  {
    ReachedInv(cfg, isn, actions);
    PollCases(cfg, Reached(cfg, isn, actions).tx, a.now, a.role, a.connId, a.conn, a.af);
  }

  /**
   * Deliver or fail: of all numbers ever assigned, each is in exactly one of three places, and
   * the acknowledged ones were covered by a header that was received.
   */
  lemma DeliverOrFail(cfg: Config, isn: u32, actions: seq<TxAction>, n: nat)
    requires n < Reached(cfg, isn, actions).Total()
    ensures var run := Reached(cfg, isn, actions);
      && run.Number(n) == Add(isn, n)
      && ExactlyOne(run.InFlight(n), n in run.log.released, n in run.log.givenUp)
      && (n in run.log.released ==>
            exists a :: a in actions && a.RemoteAck? && IsAcked(Add(isn, n), a.ack, a.bits))
  {
    hide Run, Tracked, Retries, Fifo, Add, IsAcked;
    ReachedInv(cfg, isn, actions);
    LogKeepsIsn(cfg, InitialRun(isn), actions);
    ReleasedByReceivedHeader(cfg, InitialRun(isn), actions);
  }

  lemma {:induction false} LogKeepsIsn(cfg: Config, run: TxRun, actions: seq<TxAction>)
    ensures Run(cfg, run, actions).log.isn == run.log.isn
    decreases |actions|
  {
    if actions != [] {
      LogKeepsIsn(cfg, run, actions[..|actions| - 1]);
    }
  }

  lemma {:induction false} ReleasedByReceivedHeader(cfg: Config, run: TxRun, actions: seq<TxAction>)
    ensures forall n :: n in Run(cfg, run, actions).log.released ==>
      var f := Run(cfg, run, actions).log.released[n];
      RemoteAck(f.ack, f.ackBits) in actions || (n in run.log.released && run.log.released[n] == f)
    decreases |actions|
  {
    if actions != [] {
      var front, last := actions[..|actions| - 1], actions[|actions| - 1];
      ReleasedByReceivedHeader(cfg, run, front);
      StepReleases(cfg, Run(cfg, run, front), last);
      hide Step;
    }
  }

  /** A number is released only by the acknowledgement that is being processed. */
  lemma StepReleases(cfg: Config, run: TxRun, a: TxAction)
    ensures var before, after := run.log.released, Step(cfg, run, a).log.released;
      forall n :: n in after ==>
        || a == RemoteAck(after[n].ack, after[n].ackBits)
        || (n in before && after[n] == before[n])
  {
    hide Poll, IsNumbered, Classify, IsAcked, IsGap, OnRemoteAck;
  }

  /**
   * The retransmission budget: no number is sent more than 1 + max_retransmit_count times, and an
   * in-flight entry has been sent once more than its retry count.
   */
  lemma RetransmissionBudget(cfg: Config, isn: u32, actions: seq<TxAction>, n: nat)
    requires n < Reached(cfg, isn, actions).Total()
    ensures var run := Reached(cfg, isn, actions);
      && n in run.log.sends && 1 <= run.log.sends[n] <= 1 + cfg.maxRetransmit
      && (run.InFlight(n) ==> run.log.sends[n] == 1 + run.Entry(n).retryCount)
      && (run.InFlight(n) && n !in run.log.fast ==>
            run.Entry(n).lastSendMs >= run.Entry(n).firstSendMs + RtoSum(cfg, run.Entry(n).retryCount))
  {
    ReachedInv(cfg, isn, actions);
  }

  /**
   * Fast retransmission is pending exactly when the gap evidence gathered since the last
   * transmission has reached the threshold.
   */
  lemma FastRetransmitExact(cfg: Config, isn: u32, actions: seq<TxAction>, n: nat)
    requires Reached(cfg, isn, actions).InFlight(n)
    ensures var run := Reached(cfg, isn, actions);
      n in run.log.evidence &&
      (run.Entry(n).fastRetxPending <==> run.log.evidence[n] >= EffectiveThreshold(cfg))
  {
    ReachedInv(cfg, isn, actions);
    var run := Reached(cfg, isn, actions);
    assert RetryEntry(cfg, run.log, n, run.Entry(n));
  }

  /**
   * A number that was only ever resent on timeout has waited out the whole backoff; when a poll gives
   * it up, the clock has moved past its first transmission by the sum of all the timeouts.
   */
  lemma GiveUpTiming(cfg: Config, isn: u32, actions: seq<TxAction>, a: TxAction)
    requires a.DoPoll?
    ensures var run := Reached(cfg, isn, actions);
      var o := PollOf(cfg, run.tx, a).outcome;
      o.GaveUp? && run.Index(o.seqNo) !in run.log.fast ==>
        && o.seqNo in run.tx.inflight
        && run.log.clock >= run.tx.inflight[o.seqNo].firstSendMs + RtoSum(cfg, cfg.maxRetransmit)
  {
    ReachedInv(cfg, isn, actions);
    var run := Reached(cfg, isn, actions);
    PollCases(cfg, run.tx, a.now, a.role, a.connId, a.conn, a.af);
    var o := PollOf(cfg, run.tx, a).outcome;
    if o.GaveUp? && run.Index(o.seqNo) !in run.log.fast {
      var n := run.Index(o.seqNo);
      InFlightIndex(run, o.seqNo);
      assert RetryEntry(cfg, run.log, n, run.Entry(n));
      RtoSumMonotone(cfg, cfg.maxRetransmit, run.Entry(n).retryCount);
    }
  }

  lemma {:induction false} RtoSumMonotone(cfg: Config, m: nat, n: nat)
    requires m <= n
    ensures RtoSum(cfg, m) <= RtoSum(cfg, n)
    decreases n - m
  {
    if m < n {
      RtoSumMonotone(cfg, m, n - 1);
    }
  }

  /** With the default settings that is 7750 ms. */
  lemma DefaultGiveUpTime()
    ensures RtoSum(DEFAULT_CONFIG, DEFAULT_CONFIG.maxRetransmit) == 7750
  {
  }

  /** First transmissions in order, followed by the queue, are exactly the requests queued so far. */
  lemma FifoConservation(cfg: Config, isn: u32, actions: seq<TxAction>)
    ensures var run := Reached(cfg, isn, actions);
      run.log.firstSent + run.tx.pendingSend == QueuedBy(actions)
  {
    hide Run, QueuedBy, Tracked, Numbered, Conserved, Retries;
    ReachedInv(cfg, isn, actions);
    QueuedIsLogged(cfg, InitialRun(isn), actions);
    assert [] + QueuedBy(actions) == QueuedBy(actions);
  }

  function QueuedBy(actions: seq<TxAction>): seq<SendRequest>
    decreases |actions|
  {
    if actions == [] then []
    else
      var front, last := QueuedBy(actions[..|actions| - 1]), actions[|actions| - 1];
      if last.Queue? then front + [last.request] else front
  }

  lemma {:induction false} QueuedIsLogged(cfg: Config, run: TxRun, actions: seq<TxAction>)
    ensures Run(cfg, run, actions).log.queued == run.log.queued + QueuedBy(actions)
    decreases |actions|
  {
    if actions != [] {
      QueuedIsLogged(cfg, run, actions[..|actions| - 1]);
    }
  }

  // ----- what the packets on the wire say -----

  /** A numbered packet carries the content assigned to its number; any other carries 0. */
  ghost predicate Genuine(log: TxLog, p: Packet) {
    if IsNumbered(p) then
      var n := Diff(p.header.seqNo, log.isn);
      n < |log.issued| && Content(p) == log.issued[n]
    else p.header.seqNo == 0
  }

  lemma StepExtendsLog(cfg: Config, run: TxRun, a: TxAction)
    ensures var log' := Step(cfg, run, a).log; log'.isn == run.log.isn && run.log.issued <= log'.issued
  {
    hide Poll, IsNumbered, Classify;
  }

  lemma {:induction false} RunExtendsLog(cfg: Config, run: TxRun, actions: seq<TxAction>)
    ensures var log' := Run(cfg, run, actions).log; log'.isn == run.log.isn && run.log.issued <= log'.issued
    decreases |actions|
  {
    hide Step;
    if actions != [] {
      RunExtendsLog(cfg, run, actions[..|actions| - 1]);
      StepExtendsLog(cfg, Run(cfg, run, actions[..|actions| - 1]), actions[|actions| - 1]);
    }
  }

  /** As long as numbers have not come round, every packet a poll sends is genuine. */
  lemma PollSendsGenuine(cfg: Config, run: TxRun, a: TxAction)
    requires Inv(cfg, run) && a.DoPoll? && |Step(cfg, run, a).log.issued| < 0x1_0000_0000
    ensures var o := PollOf(cfg, run.tx, a).outcome; o.Sent? ==> Genuine(Step(cfg, run, a).log, o.packet)
  {
    PollCases(cfg, run.tx, a.now, a.role, a.connId, a.conn, a.af);
    hide Poll, Classify, Add;
    var o, total := PollOf(cfg, run.tx, a).outcome, run.Total();
    if o.Sent? {
      assert IsNumbered(Content(o.packet)) <==> IsNumbered(o.packet);
      hide IsNumbered;
      if o.lane == Retransmit {
        var s := FirstDue(cfg, run.tx, a.now);
        InFlightIndex(run, s);
        AddIndex(run.log.isn, run.Index(s));
        assert Wellformed(run.log.issued[run.Index(s)]);
      } else {
        AddIndex(run.log.isn, total);
      }
    }
  }
}
