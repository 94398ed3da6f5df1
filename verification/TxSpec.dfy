/**
 * The sender as functions on its state: acknowledgement processing and the five
 * packet builders tried in priority order by `Poll`.
 */
module TxSpec {
  import opened Protocol
  import opened Bits
  import opened Codec
  import opened SessionTypes

  /** The acknowledgement fields an outbound header copies from the receiver. */
  datatype AckFields = AckFields(ack: u32, ackBits: u64)

  // ----- acknowledgements -----

  predicate IsAcked(s: u32, ack: u32, bits: u64) {
    SeqLt(s, ack) || (SeqGt(s, ack) && 1 <= Diff(s, ack) <= ACK_BITS_WINDOW && Bit(bits, Diff(s, ack) - 1))
  }

  function EraseAcked(inflight: map<u32, TxEntry>, ack: u32, bits: u64): map<u32, TxEntry> {
    map s | s in inflight && !IsAcked(s, ack, bits) :: inflight[s]
  }

  predicate AcksFin(inflight: map<u32, TxEntry>, s: u32, ack: u32, bits: u64)
    requires s in inflight
  {
    IsAcked(s, ack, bits) && HasFlag(inflight[s].packet.header.flags, FIN)
  }

  predicate FinAcked(inflight: map<u32, TxEntry>, ack: u32, bits: u64) {
    exists s :: s in inflight && AcksFin(inflight, s, ack, bits)
  }

  /** `s` is missing at the peer although something after it has arrived there. */
  predicate IsGap(s: u32, ack: u32, bits: u64) {
    bits != 0 && Diff(s, ack) <= HighestBit(bits) + 1 && !IsAcked(s, ack, bits)
  }

  /** Bit `b` is set and names a number more than `distance` beyond `ack`. */
  predicate BitBeyond(bits: u64, distance: nat, b: nat) { distance <= b < 64 && Bit(bits, b) }

  function AddEvidence(cfg: Config, e: TxEntry): TxEntry {
    e.(gapEvidence := e.gapEvidence + 1,
       fastRetxPending := e.fastRetxPending || e.gapEvidence + 1 >= cfg.evidenceThreshold)
  }

  function MarkGaps(cfg: Config, inflight: map<u32, TxEntry>, ack: u32, bits: u64): map<u32, TxEntry> {
    map s | s in inflight :: if IsGap(s, ack, bits) then AddEvidence(cfg, inflight[s]) else inflight[s]
  }

  function OnRemoteAck(cfg: Config, tx: TxState, ack: u32, bits: u64): TxState {
    tx.(remoteAck := ack, remoteAckBits := bits,
        inflight := MarkGaps(cfg, EraseAcked(tx.inflight, ack, bits), ack, bits))
  }

  /**
   * What a gap is: not acknowledged by this header, while the bitmap of the same header
   * acknowledges a number further from `ack`.
   */
  lemma GapMeaning(s: u32, ack: u32, bits: u64)
    ensures IsGap(s, ack, bits) <==>
      !IsAcked(s, ack, bits) && exists b: nat :: BitBeyond(bits, Diff(s, ack), b)
  {
    Pow2_64();
    if bits == 0 {
      forall b: nat ensures !Bit(bits, b) { ZeroBit(b); }
    } else {
      HighestBitIsSet(bits);
      HighestBitBound(bits, 64);
      var h := HighestBit(bits);
      assert Bit(bits, h) && h < 64;
      if IsGap(s, ack, bits) {
        assert Diff(s, ack) == h + 1 ==> SeqGt(s, ack);
        assert BitBeyond(bits, Diff(s, ack), h);
      } else if exists b: nat :: BitBeyond(bits, Diff(s, ack), b) {
        var b: nat :| BitBeyond(bits, Diff(s, ack), b);
        assert b <= h;
      }
    }
  }

  // ----- timing and window -----

  function Backoff(n: nat): nat {
    if n == 0 then 1 else if n == 1 then 2 else if n == 2 then 4 else if n == 3 then 8 else 16
  }

  function Rto(cfg: Config, retryCount: nat): nat {
    var rto := cfg.initialRto * Backoff(retryCount);
    if rto <= cfg.maxRto then rto else cfg.maxRto
  }

  predicate WindowFull(tx: TxState) {
    Diff(tx.nextSeq, tx.remoteAck) >= RELIABLE_WINDOW_SIZE
  }

  predicate ConsumesReliableSeq(flags: u8) { HasFlag(flags, SYN) || HasFlag(flags, FIN) }

  /** The packet carries a number of the reliable sequence space. */
  predicate IsNumbered(p: Packet) {
    IsReliableChannel(p.header.channelType) || ConsumesReliableSeq(p.header.flags)
  }

  predicate TimedOut(cfg: Config, e: TxEntry, now: nat) {
    now >= e.lastSendMs + Rto(cfg, e.retryCount)
  }

  predicate Exhausted(cfg: Config, e: TxEntry) { e.retryCount >= cfg.maxRetransmit }

  predicate NeedsService(cfg: Config, e: TxEntry, now: nat) {
    Exhausted(cfg, e) || e.fastRetxPending || TimedOut(cfg, e, now)
  }

  // ----- builders -----

  datatype Lane = Control | Retransmit | ProbeLane | AckOnly | Fresh

  datatype Outcome =
    | Idle
    | GaveUp(seqNo: u32)
    | Sent(packet: Packet, lane: Lane)

  datatype PollResult = PollResult(tx: TxState, conn: ConnState, outcome: Outcome)

  /** `emplace`: an existing entry would be kept. */
  function Emplace(inflight: map<u32, TxEntry>, s: u32, e: TxEntry): map<u32, TxEntry> {
    if s in inflight then inflight else inflight[s := e]
  }

  function Enlist(tx: TxState, p: Packet, now: nat): TxState {
    tx.(nextSeq := Inc(tx.nextSeq),
        inflight := Emplace(tx.inflight, p.header.seqNo, TxEntry(p, now, now, 0, 0, false)))
  }

  function ControlPacket(tx: TxState, connId: u32, flags: u8, af: AckFields): Packet {
    Packet(MakeHeader(connId, if ConsumesReliableSeq(flags) then tx.nextSeq else 0, af.ack, af.ackBits,
                      0, UNRELIABLE, flags), [])
  }

  predicate CanBuildControl(tx: TxState, flags: u8) {
    ConsumesReliableSeq(flags) ==> !WindowFull(tx)
  }

  function AfterControl(tx: TxState, connId: u32, flags: u8, af: AckFields, now: nat): TxState {
    if ConsumesReliableSeq(flags) then Enlist(tx, ControlPacket(tx, connId, flags, af), now) else tx
  }

  /** The control packet the handshake lane would send in this connection state, if any. */
  function HandshakeFlags(tx: TxState, role: Role, conn: ConnState): Option<u8> {
    if role == Client && conn == Closed then Some(SYN)
    else if tx.flags.synAckPending && conn == HandshakeReceived then Some(SYN_ACK)
    else if tx.flags.finalAckPending && conn == Established then Some(ACK)
    else if tx.flags.finPending && conn == Closing then Some(FIN)
    else None
  }

  function HandshakeConn(role: Role, conn: ConnState): ConnState {
    if role == Client && conn == Closed then HandshakeSent else conn
  }

  function HandshakeDone(cfg: Config, f: TxFlags, flags: u8, now: nat): TxFlags {
    if flags == SYN_ACK then f.(synAckPending := false)
    else if flags == ACK then f.(finalAckPending := false, finalAckLingerUntilMs := now + cfg.handshakeLinger)
    else if flags == FIN then f.(finPending := false)
    else f
  }

  function TryHandshake(cfg: Config, tx: TxState, now: nat, role: Role, connId: u32, conn: ConnState,
                        af: AckFields): PollResult
  {
    var next := HandshakeConn(role, conn);
    match HandshakeFlags(tx, role, conn)
    case None => PollResult(tx, next, Idle)
    case Some(flags) =>
      if !CanBuildControl(tx, flags) then PollResult(tx, next, Idle)
      else
        var built := AfterControl(tx, connId, flags, af, now);
        PollResult(built.(flags := HandshakeDone(cfg, built.flags, flags, now)), next,
                   Sent(ControlPacket(tx, connId, flags, af), Control))
  }

  function Serviceable(cfg: Config, inflight: map<u32, TxEntry>, now: nat): set<u32> {
    set s | s in inflight && NeedsService(cfg, inflight[s], now)
  }

  predicate IsLeast(s: set<u32>, x: u32) { x in s && forall y :: y in s ==> x <= y }

  lemma LeastExists(s: set<u32>)
    requires s != {}
    ensures exists x :: IsLeast(s, x)
  {
    var y :| y in s;
    if s - {y} == {} {
      assert s == {y};
      assert IsLeast(s, y);
    } else {
      LeastExists(s - {y});
      var z :| IsLeast(s - {y}, z);
      var x := if y <= z then y else z;
      forall w | w in s ensures x <= w {
        assert w == y || w in s - {y};
      }
      assert IsLeast(s, x);
    }
  }

  /** The first key in the order in which the sender's ordered map is walked. */
  function Least(s: set<u32>): (x: u32)
    requires s != {}
    ensures IsLeast(s, x)
  {
    LeastExists(s);
    var x :| IsLeast(s, x);
    x
  }

  function Resent(e: TxEntry, af: AckFields, now: nat): TxEntry {
    e.(packet := e.packet.(header := e.packet.header.(ack := af.ack, ackBits := af.ackBits)),
       lastSendMs := now, retryCount := e.retryCount + 1, gapEvidence := 0, fastRetxPending := false)
  }

  /** Serves the first in-flight packet, in numeric key order, that is exhausted or due. */
  function TryRetransmit(cfg: Config, tx: TxState, now: nat, conn: ConnState, af: AckFields): PollResult {
    var due := Serviceable(cfg, tx.inflight, now);
    if due == {} then PollResult(tx, conn, Idle)
    else
      var s := Least(due);
      if Exhausted(cfg, tx.inflight[s]) then
        PollResult(tx.(inflight := tx.inflight - {s}), conn, GaveUp(s))
      else
        var e := Resent(tx.inflight[s], af, now);
        PollResult(tx.(inflight := tx.inflight[s := e]), conn, Sent(e.packet, Retransmit))
  }

  function ProbePacket(connId: u32, flags: u8, af: AckFields): Packet {
    Packet(MakeHeader(connId, 0, af.ack, af.ackBits, 0, UNRELIABLE, flags), [])
  }

  function TryProbe(tx: TxState, conn: ConnState, connId: u32, af: AckFields): PollResult {
    var probe := tx.flags.probe;
    if probe.pongPending then
      PollResult(tx.(flags := tx.flags.(probe := probe.(pongPending := false))), conn,
                 Sent(ProbePacket(connId, PONG, af), ProbeLane))
    else if probe.pingPending then
      PollResult(tx.(flags := tx.flags.(probe := probe.(pingPending := false))), conn,
                 Sent(ProbePacket(connId, PING, af), ProbeLane))
    else PollResult(tx, conn, Idle)
  }

  function TryAckOnly(tx: TxState, conn: ConnState, connId: u32, af: AckFields): PollResult {
    if tx.flags.ackOnlyPending then
      PollResult(tx.(flags := tx.flags.(ackOnlyPending := false)), conn,
                 Sent(ProbePacket(connId, ACK, af), AckOnly))
    else PollResult(tx, conn, Idle)
  }

  function FreshPacket(tx: TxState, r: SendRequest, connId: u32, af: AckFields): Packet {
    Packet(MakeHeader(connId, if IsReliableChannel(r.channelType) then tx.nextSeq else 0,
                      af.ack, af.ackBits, r.channelId, r.channelType, 0), r.payload)
  }

  function TryFresh(tx: TxState, now: nat, conn: ConnState, connId: u32, af: AckFields): PollResult {
    if tx.pendingSend == [] then PollResult(tx, conn, Idle)
    else
      var r := tx.pendingSend[0];
      var reliable := IsReliableChannel(r.channelType);
      if reliable && WindowFull(tx) then PollResult(tx, conn, Idle)
      else
        var p := FreshPacket(tx, r, connId, af);
        var popped := tx.(pendingSend := tx.pendingSend[1..]);
        PollResult(if reliable then Enlist(popped, p, now) else popped, conn, Sent(p, Fresh))
  }

  function Poll(cfg: Config, tx: TxState, now: nat, role: Role, connId: u32, conn: ConnState,
                af: AckFields): PollResult
  {
    var h := TryHandshake(cfg, tx, now, role, connId, conn, af);
    if !h.outcome.Idle? then h
    else
      var r := TryRetransmit(cfg, h.tx, now, h.conn, af);
      if !r.outcome.Idle? then r
      else
        var b := TryProbe(r.tx, r.conn, connId, af);
        if !b.outcome.Idle? then b
        else
          var a := TryAckOnly(b.tx, b.conn, connId, af);
          if !a.outcome.Idle? then a
          else TryFresh(a.tx, now, a.conn, connId, af)
  }

  /** The bytes a poll hands to the caller. */
  function Datagram(o: Outcome): Option<seq<u8>> {
    if o.Sent? then Some(Encode(o.packet)) else None
  }

  function QueueSend(tx: TxState, r: SendRequest): TxState {
    tx.(pendingSend := tx.pendingSend + [r])
  }
}
