/**
 * Runs of one session: any interleaving of queueing, polling, closing, draining and of datagrams
 * with any bytes whatever. The sender inside a session run is a sender run, so everything proved
 * about those holds here; beside it a log keeps what was emitted, every connection state visited
 * and every event handed out.
 */
module SessionRuns {
  import opened Protocol
  import opened Codec
  import opened SessionTypes
  import opened ConnectionStateMachine
  import opened SessionSpec
  import Tx = TxSpec
  import Sender = TxRuns

  datatype Action =
    | Queue(request: SendRequest)
    | PollAt(now: nat)
    | Receive(bytes: seq<u8>, now: nat)
    | Close
    | DrainAll

  function Step(cfg: Config, s: SessionState, a: Action): SessionState {
    match a
    case Queue(r) => QueueSend(s, r)
    case PollAt(now) => PollTx(cfg, s, now).session
    case Receive(bytes, now) => OnDatagram(cfg, s, bytes, now)
    case Close => RequestClose(s)
    case DrainAll => DrainEvents(s)
  }

  // ----- the sender inside a session -----

  function ReceiveTrace(cfg: Config, s: SessionState, p: Packet, size: nat, now: nat): seq<Sender.TxAction> {
    var flags := Sender.SetFlags(OnPacket(cfg, s, p, size, now).tx.flags);
    if IsProcessed(s, p) && Classify(p.header.flags) != KSyn
    then [Sender.RemoteAck(p.header.ack, p.header.ackBits), flags]
    else [flags]
  }

  function PollTrace(cfg: Config, s: SessionState, now: nat): seq<Sender.TxAction> {
    if ShouldTimeout(cfg, s, now) then []
    else [Sender.SetFlags(ScheduledFlags(cfg, s, now)),
          Sender.DoPoll(now, s.role, s.connId, s.conn, AckFieldsOf(s.rx)),
          Sender.SetFlags(PollTx(cfg, s, now).session.tx.flags)]
  }

  /** What a session step does to its sender, as sender actions. */
  function TxTrace(cfg: Config, s: SessionState, a: Action): seq<Sender.TxAction> {
    match a
    case Queue(r) => [Sender.Queue(r)]
    case PollAt(now) => PollTrace(cfg, s, now)
    case Receive(bytes, now) =>
      (match Decode(bytes) case None => [] case Some(p) => ReceiveTrace(cfg, s, p, |bytes|, now))
    case Close => [Sender.SetFlags(RequestClose(s).tx.flags)]
    case DrainAll => []
  }

  ghost function LogOf(cfg: Config, tx: TxState, log: Sender.TxLog, actions: seq<Sender.TxAction>): Sender.TxLog {
    Sender.Run(cfg, Sender.TxRun(tx, log), actions).log
  }

  lemma RunOne(cfg: Config, run: Sender.TxRun, a: Sender.TxAction)
    ensures Sender.Run(cfg, run, [a]) == Sender.Step(cfg, run, a)
  {
  }

  lemma RunTwo(cfg: Config, run: Sender.TxRun, a: Sender.TxAction, b: Sender.TxAction)
    ensures Sender.Run(cfg, run, [a, b]) == Sender.Step(cfg, Sender.Step(cfg, run, a), b)
  {
    RunOne(cfg, run, a);
    assert [a, b][..1] == [a];
  }

  lemma RunThree(cfg: Config, run: Sender.TxRun, a: Sender.TxAction, b: Sender.TxAction, c: Sender.TxAction)
    ensures Sender.Run(cfg, run, [a, b, c]) == Sender.Step(cfg, Sender.Step(cfg, Sender.Step(cfg, run, a), b), c)
  {
    RunTwo(cfg, run, a, b);
    assert [a, b, c][..2] == [a, b];
  }

  lemma AfterAckTx(cfg: Config, s: SessionState, kind: ControlKind, h: Header, now: nat)
    ensures var tx' := AfterAck(cfg, s, kind, h, now).tx;
      tx' == (if kind == KSyn then s.tx else Tx.OnRemoteAck(cfg, s.tx, h.ack, h.ackBits)).(flags := tx'.flags)
  {
  }

  lemma AfterDecisionTx(cfg: Config, s: SessionState, p: Packet, now: nat)
    ensures var tx' := AfterDecision(cfg, s, p, now).tx; tx' == s.tx.(flags := tx'.flags)
  {
  }

  /** Receiving touches the window only through the acknowledgement fields of a processed packet. */
  lemma ReceiveTx(cfg: Config, s: SessionState, p: Packet, size: nat, now: nat)
    ensures var tx' := OnPacket(cfg, s, p, size, now).tx;
      tx' == (if IsProcessed(s, p) && Classify(p.header.flags) != KSyn
              then Tx.OnRemoteAck(cfg, s.tx, p.header.ack, p.header.ackBits) else s.tx).(flags := tx'.flags)
  {
    hide AfterAck, AfterDecision, Classify;
    var a, kind := Admitted(s, p, size, now), Classify(p.header.flags);
    AfterAckTx(cfg, a, kind, p.header, now);
    AfterDecisionTx(cfg, AfterAck(cfg, a, kind, p.header, now), p, now);
  }

  lemma ReceiveIsTxRun(cfg: Config, s: SessionState, log: Sender.TxLog, p: Packet, size: nat, now: nat)
    ensures Sender.Run(cfg, Sender.TxRun(s.tx, log), ReceiveTrace(cfg, s, p, size, now)).tx ==
      OnPacket(cfg, s, p, size, now).tx
  {
    ReceiveTx(cfg, s, p, size, now);
    var run := Sender.TxRun(s.tx, log);
    var tx' := OnPacket(cfg, s, p, size, now).tx;
    hide OnPacket;
    if IsProcessed(s, p) && Classify(p.header.flags) != KSyn {
      RunTwo(cfg, run, Sender.RemoteAck(p.header.ack, p.header.ackBits), Sender.SetFlags(tx'.flags));
    } else {
      RunOne(cfg, run, Sender.SetFlags(tx'.flags));
    }
  }

  lemma PollIsTxRun(cfg: Config, s: SessionState, log: Sender.TxLog, now: nat)
    ensures Sender.Run(cfg, Sender.TxRun(s.tx, log), PollTrace(cfg, s, now)).tx == PollTx(cfg, s, now).session.tx
  {
    if !ShouldTimeout(cfg, s, now) {
      var t := PollTrace(cfg, s, now);
      RunThree(cfg, Sender.TxRun(s.tx, log), t[0], t[1], t[2]);
    }
  }

  lemma StepIsTxRun(cfg: Config, s: SessionState, log: Sender.TxLog, a: Action)
    ensures Sender.Run(cfg, Sender.TxRun(s.tx, log), TxTrace(cfg, s, a)).tx == Step(cfg, s, a).tx
  {
    var run := Sender.TxRun(s.tx, log);
    match a {
      case Queue(r) => RunOne(cfg, run, Sender.Queue(r));
      case PollAt(now) => PollIsTxRun(cfg, s, log, now);
      case Receive(bytes, now) =>
        if Decode(bytes).Some? { ReceiveIsTxRun(cfg, s, log, Decode(bytes).value, |bytes|, now); }
      case Close => RunOne(cfg, run, Sender.SetFlags(RequestClose(s).tx.flags));
      case DrainAll =>
    }
  }
}
