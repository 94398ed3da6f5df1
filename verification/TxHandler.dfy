/**
 * The sender as the code has it: a mutable record, a loop that erases acknowledged entries, a
 * wrapping loop over the numbers that gap evidence can touch, a scan of the in-flight map in key
 * order, and builders that change the record in place. Each method is proved to compute the
 * corresponding function of `TxSpec`.
 */
module TxHandler {
  import opened Protocol
  import opened Bits
  import opened Codec
  import opened SessionTypes
  import Spec = TxSpec

  datatype TxPollResult = TxPollResult(datagram: Option<seq<u8>>, fatalError: bool, retransmission: bool)

  const NOTHING := TxPollResult(None, false, false)

  /** What a poll reports for an outcome. */
  function ResultOf(o: Spec.Outcome): TxPollResult {
    match o
    case Idle => NOTHING
    case GaveUp(_) => TxPollResult(None, true, false)
    case Sent(_, lane) => TxPollResult(Spec.Datagram(o), false, lane == Spec.Retransmit)
  }

  class TxSession {
    var nextSeq: u32
    var remoteAck: u32
    var remoteAckBits: u64
    var pendingSend: seq<SendRequest>
    var inflight: map<u32, TxEntry>
    var flags: TxFlags

    ghost function View(): TxState
      reads this
    {
      TxState(nextSeq, remoteAck, remoteAckBits, pendingSend, inflight, flags)
    }

    constructor (isn: u32)
      ensures View() == InitialTx(isn)
    {
      nextSeq, remoteAck, remoteAckBits := isn, isn, 0;
      pendingSend, inflight, flags := [], map[], NO_FLAGS;
    }

    method QueueAppData(request: SendRequest)
      modifies this`pendingSend
      ensures View() == Spec.QueueSend(old(View()), request)
    {
      pendingSend := pendingSend + [request];
    }

    // ----- acknowledgements -----

    /** Walks the in-flight map in key order and drops what the header acknowledges. */
    method EraseAcknowledgedInflight(ack: u32, bits: u64) returns (acknowledgedFin: bool)
      modifies this`inflight
      ensures inflight == Spec.EraseAcked(old(inflight), ack, bits)
      ensures acknowledgedFin == Spec.FinAcked(old(inflight), ack, bits)
    {
      acknowledgedFin := false;
      var rest := inflight.Keys;
      while rest != {}
        invariant rest <= inflight.Keys
        invariant forall s :: s in inflight ==> s in old(inflight) && inflight[s] == old(inflight)[s]
        invariant forall s :: s in old(inflight) ==> (s in inflight <==> s in rest || !Spec.IsAcked(s, ack, bits))
        invariant acknowledgedFin <==>
          exists s :: s in old(inflight) && s !in rest && Spec.AcksFin(old(inflight), s, ack, bits)
        decreases |rest|
      {
        var s := Spec.Least(rest);
        if Spec.IsAcked(s, ack, bits) {
          if HasFlag(inflight[s].packet.header.flags, FIN) {
            acknowledgedFin := true;
          }
          inflight := inflight - {s};
        }
        rest := rest - {s};
      }
    }

    /**
     * Adds evidence to exactly the unacknowledged in-flight numbers from `ack` to the highest
     * selectively acknowledged one, in HighestBit + 2 rounds even when the numbers wrap.
     */
    method MarkGapFastRetransmitCandidates(cfg: Config, ack: u32, bits: u64) returns (ghost rounds: nat)
      modifies this`inflight
      ensures inflight == Spec.MarkGaps(cfg, old(inflight), ack, bits)
      ensures rounds == (if bits == 0 then 0 else HighestBit(bits) + 2) && rounds <= 65
    {
      hide Add, Inc, Diff, SeqLe, SeqLt, HighestBit, Bit, MarkPrefix, Spec.MarkGaps, Spec.IsAcked, Spec.IsGap;
      hide Spec.AddEvidence;
      rounds := 0;
      if bits == 0 {
        NoGaps(cfg, inflight, ack);
        return;
      }
      var highest := HighestBit(bits);
      HighestBitOfWord(bits);
      var highestAcked := Add(ack, highest + 1);
      var s := ack;
      AddZero(ack);
      MarkEnds(cfg, inflight, ack, bits);
      GapRound(ack, 0, highest);
      while SeqLe(s, highestAcked)
        invariant rounds <= highest + 2 && s == Add(ack, rounds)
        invariant SeqLe(s, highestAcked) <==> rounds <= highest + 1
        invariant inflight == MarkPrefix(cfg, old(inflight), ack, bits, rounds)
        decreases highest + 2 - rounds
      {
        GapStep(ack, rounds, highest);
        MarkNext(cfg, old(inflight), ack, bits, rounds, s);
        if !Spec.IsAcked(s, ack, bits) && s in inflight {
          inflight := inflight[s := Spec.AddEvidence(cfg, inflight[s])];
        }
        s := Inc(s);
        rounds := rounds + 1;
      }
    }

    method OnRemoteAck(cfg: Config, ack: u32, bits: u64) returns (acknowledgedFin: bool)
      modifies this
      ensures View() == Spec.OnRemoteAck(cfg, old(View()), ack, bits)
      ensures acknowledgedFin == Spec.FinAcked(old(inflight), ack, bits)
    {
      remoteAck := ack;
      remoteAckBits := bits;
      acknowledgedFin := EraseAcknowledgedInflight(ack, bits);
      ghost var rounds := MarkGapFastRetransmitCandidates(cfg, ack, bits);
    }

    // ----- builders -----

    /** Numbers and enlists the packet when its flags consume a reliable number; nothing if the window is full. */
    method BuildControlPacket(now: nat, connId: u32, controlFlags: u8, af: Spec.AckFields)
      returns (bytes: Option<seq<u8>>)
      modifies this`nextSeq, this`inflight
      ensures bytes.Some? <==> Spec.CanBuildControl(old(View()), controlFlags)
      ensures bytes.None? ==> View() == old(View())
      ensures bytes.Some? ==>
        && View() == Spec.AfterControl(old(View()), connId, controlFlags, af, now)
        && bytes.value == Encode(Spec.ControlPacket(old(View()), connId, controlFlags, af))
    {
      var assign := Spec.ConsumesReliableSeq(controlFlags);
      if assign && Diff(nextSeq, remoteAck) >= RELIABLE_WINDOW_SIZE {
        return None;
      }
      var header := MakeHeader(connId, 0, af.ack, af.ackBits, 0, UNRELIABLE, controlFlags);
      if assign {
        header := header.(seqNo := nextSeq);
        nextSeq := Inc(nextSeq);
      }
      bytes := Some(Encode(Packet(header, [])));
      if assign && header.seqNo !in inflight {
        inflight := inflight[header.seqNo := TxEntry(Packet(header, []), now, now, 0, 0, false)];
      }
    }

    method TryBuildHandshake(cfg: Config, now: nat, role: Role, connId: u32, conn0: ConnState, af: Spec.AckFields)
      returns (bytes: Option<seq<u8>>, conn: ConnState)
      modifies this
      ensures var r := Spec.TryHandshake(cfg, old(View()), now, role, connId, conn0, af);
        View() == r.tx && conn == r.conn && bytes == Spec.Datagram(r.outcome)
    {
      hide Spec.AfterControl, Spec.ControlPacket, Spec.CanBuildControl, Spec.HandshakeDone, Encode;
      DoneFlags(cfg, flags, now);
      conn := conn0;
      if role == Client && conn == Closed {
        conn := HandshakeSent;
        bytes := BuildControlPacket(now, connId, SYN, af);
      } else if flags.synAckPending && conn == HandshakeReceived {
        bytes := BuildControlPacket(now, connId, SYN_ACK, af);
        if bytes.Some? {
          flags := flags.(synAckPending := false);
        }
      } else if flags.finalAckPending && conn == Established {
        bytes := BuildControlPacket(now, connId, ACK, af);
        if bytes.Some? {
          flags := flags.(finalAckPending := false, finalAckLingerUntilMs := now + cfg.handshakeLinger);
        }
      } else if flags.finPending && conn == Closing {
        bytes := BuildControlPacket(now, connId, FIN, af);
        if bytes.Some? {
          flags := flags.(finPending := false);
        }
      } else {
        bytes := None;
      }
    }

    /** Walks the in-flight map in key order up to the first entry that is exhausted or due. */
    method TryBuildRetransmit(cfg: Config, now: nat, af: Spec.AckFields, ghost conn: ConnState)
      returns (result: TxPollResult)
      modifies this`inflight
      ensures var r := Spec.TryRetransmit(cfg, old(View()), now, conn, af);
        View() == r.tx && r.conn == conn && result == ResultOf(r.outcome)
    {
      hide Encode, Spec.Rto;
      var rest := inflight.Keys;
      while rest != {}
        invariant rest <= inflight.Keys && inflight == old(inflight)
        invariant forall x :: x in inflight.Keys - rest ==> !Spec.NeedsService(cfg, inflight[x], now)
        decreases |rest|
      {
        var s := Spec.Least(rest);
        var entry := inflight[s];
        if entry.retryCount >= cfg.maxRetransmit {
          FirstDue(cfg, inflight, now, rest, s);
          inflight := inflight - {s};
          return TxPollResult(None, true, false);
        }
        if entry.fastRetxPending || now >= entry.lastSendMs + Spec.Rto(cfg, entry.retryCount) {
          FirstDue(cfg, inflight, now, rest, s);
          var packet := entry.packet.(header := entry.packet.header.(ack := af.ack, ackBits := af.ackBits));
          inflight := inflight[s := entry.(packet := packet, lastSendMs := now, retryCount := entry.retryCount + 1,
                                          gapEvidence := 0, fastRetxPending := false)];
          return TxPollResult(Some(Encode(packet)), false, true);
        }
        rest := rest - {s};
      }
      assert Spec.Serviceable(cfg, inflight, now) == {};
      result := NOTHING;
    }

    method TryBuildProbeLane(connId: u32, af: Spec.AckFields, ghost conn: ConnState) returns (bytes: Option<seq<u8>>)
      modifies this`flags
      ensures var r := Spec.TryProbe(old(View()), conn, connId, af);
        View() == r.tx && r.conn == conn && bytes == Spec.Datagram(r.outcome)
    {
      if flags.probe.pongPending {
        flags := flags.(probe := flags.probe.(pongPending := false));
        return Some(Encode(Spec.ProbePacket(connId, PONG, af)));
      }
      if !flags.probe.pingPending {
        return None;
      }
      flags := flags.(probe := flags.probe.(pingPending := false));
      bytes := Some(Encode(Spec.ProbePacket(connId, PING, af)));
    }

    method TryBuildAckOnly(connId: u32, af: Spec.AckFields, ghost conn: ConnState) returns (bytes: Option<seq<u8>>)
      modifies this`flags
      ensures var r := Spec.TryAckOnly(old(View()), conn, connId, af);
        View() == r.tx && r.conn == conn && bytes == Spec.Datagram(r.outcome)
    {
      if !flags.ackOnlyPending {
        return None;
      }
      flags := flags.(ackOnlyPending := false);
      bytes := Some(Encode(Packet(MakeHeader(connId, 0, af.ack, af.ackBits, 0, UNRELIABLE, ACK), [])));
    }

    /** Takes the oldest request off the queue, and puts it back at the front if the window is full. */
    method TryBuildFresh(now: nat, connId: u32, af: Spec.AckFields, ghost conn: ConnState)
      returns (bytes: Option<seq<u8>>)
      modifies this`pendingSend, this`nextSeq, this`inflight
      ensures var r := Spec.TryFresh(old(View()), now, conn, connId, af);
        View() == r.tx && r.conn == conn && bytes == Spec.Datagram(r.outcome)
    {
      if pendingSend == [] {
        return None;
      }
      var request := pendingSend[0];
      pendingSend := pendingSend[1..];
      var assign := IsReliableChannel(request.channelType);
      if assign && Diff(nextSeq, remoteAck) >= RELIABLE_WINDOW_SIZE {
        pendingSend := [request] + pendingSend;
        return None;
      }
      var header := MakeHeader(connId, 0, af.ack, af.ackBits, request.channelId, request.channelType, 0);
      if assign {
        header := header.(seqNo := nextSeq);
        nextSeq := Inc(nextSeq);
      }
      var packet := Packet(header, request.payload);
      if assign && header.seqNo !in inflight {
        inflight := inflight[header.seqNo := TxEntry(packet, now, now, 0, 0, false)];
      }
      bytes := Some(Encode(packet));
    }

    /** The five builders in priority order. */
    method Poll(cfg: Config, now: nat, role: Role, connId: u32, conn0: ConnState, af: Spec.AckFields)
      returns (result: TxPollResult, conn: ConnState)
      modifies this
      ensures var r := Spec.Poll(cfg, old(View()), now, role, connId, conn0, af);
        View() == r.tx && conn == r.conn && result == ResultOf(r.outcome)
    {
      hide Encode;
      Lanes(cfg, now, role, connId, af);
      hide Spec.TryHandshake, Spec.TryRetransmit, Spec.TryProbe, Spec.TryAckOnly, Spec.TryFresh;
      var bytes;
      bytes, conn := TryBuildHandshake(cfg, now, role, connId, conn0, af);
      if bytes.Some? {
        return TxPollResult(bytes, false, false), conn;
      }
      result := TryBuildRetransmit(cfg, now, af, conn);
      if result.fatalError || result.datagram.Some? {
        return;
      }
      bytes := TryBuildProbeLane(connId, af, conn);
      if bytes.Some? {
        return TxPollResult(bytes, false, false), conn;
      }
      bytes := TryBuildAckOnly(connId, af, conn);
      if bytes.Some? {
        return TxPollResult(bytes, false, false), conn;
      }
      bytes := TryBuildFresh(now, connId, af, conn);
      result := if bytes.Some? then TxPollResult(bytes, false, false) else NOTHING;
    }
  }

  /** The flags that each control packet consumes. */
  lemma DoneFlags(cfg: Config, f: TxFlags, now: nat)
    ensures Spec.HandshakeDone(cfg, f, SYN, now) == f
    ensures Spec.HandshakeDone(cfg, f, SYN_ACK, now) == f.(synAckPending := false)
    ensures Spec.HandshakeDone(cfg, f, ACK, now) ==
      f.(finalAckPending := false, finalAckLingerUntilMs := now + cfg.handshakeLinger)
    ensures Spec.HandshakeDone(cfg, f, FIN, now) == f.(finPending := false)
  {
  }

  /** Every builder reports its own lane, and only a retransmission can give up. */
  lemma Lanes(cfg: Config, now: nat, role: Role, connId: u32, af: Spec.AckFields)
    ensures forall tx, conn :: IsLane(Spec.TryHandshake(cfg, tx, now, role, connId, conn, af), Spec.Control)
    ensures forall tx, conn :: IsLane(Spec.TryProbe(tx, conn, connId, af), Spec.ProbeLane)
    ensures forall tx, conn :: IsLane(Spec.TryAckOnly(tx, conn, connId, af), Spec.AckOnly)
    ensures forall tx, conn :: IsLane(Spec.TryFresh(tx, now, conn, connId, af), Spec.Fresh)
  {
  }

  predicate IsLane(r: Spec.PollResult, lane: Spec.Lane) {
    r.outcome.Idle? || (r.outcome.Sent? && r.outcome.lane == lane)
  }

  /** The scan stops at the first serviceable number in key order. */
  lemma FirstDue(cfg: Config, inflight: map<u32, TxEntry>, now: nat, rest: set<u32>, s: u32)
    requires rest <= inflight.Keys && Spec.IsLeast(rest, s) && Spec.NeedsService(cfg, inflight[s], now)
    requires forall x :: x in inflight.Keys - rest ==> !Spec.NeedsService(cfg, inflight[x], now)
    ensures Spec.Serviceable(cfg, inflight, now) != {} && Spec.Least(Spec.Serviceable(cfg, inflight, now)) == s
  {
    hide Spec.NeedsService;
    var due := Spec.Serviceable(cfg, inflight, now);
    assert s in due;
    assert Spec.IsLeast(due, s);
  }

  /** The in-flight map once the first `rounds` numbers from `ack` on have been visited. */
  function MarkPrefix(cfg: Config, inflight: map<u32, TxEntry>, ack: u32, bits: u64, rounds: nat): map<u32, TxEntry> {
    map x | x in inflight ::
      if Diff(x, ack) < rounds && Spec.IsGap(x, ack, bits) then Spec.AddEvidence(cfg, inflight[x]) else inflight[x]
  }

  lemma NoGaps(cfg: Config, inflight: map<u32, TxEntry>, ack: u32)
    ensures Spec.MarkGaps(cfg, inflight, ack, 0) == inflight
  {
    hide Spec.IsAcked, Spec.AddEvidence;
  }

  lemma MarkNext(cfg: Config, inflight: map<u32, TxEntry>, ack: u32, bits: u64, k: nat, s: u32)
    requires bits != 0 && k <= HighestBit(bits) + 1 && Diff(s, ack) == k
    ensures var before, after := MarkPrefix(cfg, inflight, ack, bits, k), MarkPrefix(cfg, inflight, ack, bits, k + 1);
      && before.Keys == inflight.Keys
      && after == if !Spec.IsAcked(s, ack, bits) && s in before
                  then before[s := Spec.AddEvidence(cfg, before[s])] else before
  {
    hide Spec.IsAcked, Spec.AddEvidence, HighestBit;
    assert Spec.IsGap(s, ack, bits) <==> !Spec.IsAcked(s, ack, bits);
    assert forall x: u32 :: x != s ==> Diff(x, ack) != k;
  }

  lemma MarkEnds(cfg: Config, inflight: map<u32, TxEntry>, ack: u32, bits: u64)
    requires bits != 0
    ensures MarkPrefix(cfg, inflight, ack, bits, 0) == inflight
    ensures MarkPrefix(cfg, inflight, ack, bits, HighestBit(bits) + 2) == Spec.MarkGaps(cfg, inflight, ack, bits)
  {
  }

  /** From one round to the next. */
  lemma GapStep(ack: u32, k: nat, highest: nat)
    requires highest < 64 && k <= highest + 1
    ensures Diff(Add(ack, k), ack) == k
    ensures Inc(Add(ack, k)) == Add(ack, k + 1)
    ensures SeqLe(Add(ack, k + 1), Add(ack, highest + 1)) <==> k + 1 <= highest + 1
  {
    GapRound(ack, k, highest);
    GapRound(ack, k + 1, highest);
    hide Add, Inc, Diff, SeqLe;
  }

  /** The number visited in round `k`, and whether the loop goes on. */
  lemma GapRound(ack: u32, k: nat, highest: nat)
    requires highest < 64 && k <= highest + 2
    ensures Diff(Add(ack, k), ack) == k
    ensures Inc(Add(ack, k)) == Add(ack, k + 1)
    ensures SeqLe(Add(ack, k), Add(ack, highest + 1)) <==> k <= highest + 1
  {
  }
}
