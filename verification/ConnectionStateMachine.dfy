/** Control-flag classification and the connection transition table. */
module ConnectionStateMachine {
  import opened Protocol
  import opened SessionTypes

  datatype ControlKind = KNone | KSyn | KSynAck | KAck | KFin | KRst | KPing | KPong | KInvalid

  function Count(b: bool): nat { if b then 1 else 0 }

  function Classify(flags: u8): ControlKind {
    var syn, fin, rst := HasFlag(flags, SYN), HasFlag(flags, FIN), HasFlag(flags, RST);
    var ping, pong, ack := HasFlag(flags, PING), HasFlag(flags, PONG), HasFlag(flags, ACK);
    var count := Count(syn) + Count(fin) + Count(rst) + Count(ping) + Count(pong);
    if ack then
      if syn && !fin && !rst && !ping && !pong then KSynAck
      else if !syn && !fin && !rst && !ping && !pong then KAck
      else KInvalid
    else if count == 0 then KNone
    else if count > 1 then KInvalid
    else if syn then KSyn
    else if fin then KFin
    else if rst then KRst
    else if ping then KPing
    else if pong then KPong
    else KInvalid
  }

  /** On the flags a valid header can carry, each kind but `KInvalid` is one flag value. */
  lemma ClassifyValues(flags: u8)
    requires flags < 64
    ensures Classify(flags) ==
      if flags == 0 then KNone
      else if flags == SYN then KSyn
      else if flags == SYN_ACK then KSynAck
      else if flags == ACK then KAck
      else if flags == FIN then KFin
      else if flags == RST then KRst
      else if flags == PING then KPing
      else if flags == PONG then KPong
      else KInvalid
  {
  }

  datatype Decision = Decision(
    valid: bool, next: Option<ConnState>, scheduleSynAck: bool, scheduleFinalAck: bool,
    scheduleAckOnly: bool, emitConnected: bool, emitClosed: bool, emitReset: bool, reason: ErrorReason)

  const NO_DECISION := Decision(true, None, false, false, false, false, false, false, NoError)

  function Invalid(reason: ErrorReason): Decision {
    NO_DECISION.(valid := false, reason := reason)
  }

  function Decide(role: Role, conn: ConnState, kind: ControlKind): Decision {
    match kind
    case KNone | KPing | KPong => NO_DECISION
    case KInvalid => Invalid(InvalidFlags)
    case KRst => NO_DECISION.(next := Some(Reset), emitReset := true)
    case KFin => NO_DECISION.(next := Some(Closing), scheduleAckOnly := true, emitClosed := true)
    case KSyn =>
      if role == Server && conn == Closed then
        NO_DECISION.(next := Some(HandshakeReceived), scheduleSynAck := true)
      else if conn == Established then Invalid(UnexpectedSyn)
      else NO_DECISION
    case KSynAck =>
      if role == Client && conn == HandshakeSent then
        NO_DECISION.(next := Some(Established), scheduleFinalAck := true, emitConnected := true)
      else NO_DECISION
    case KAck =>
      if role == Server && conn == HandshakeReceived then
        NO_DECISION.(next := Some(Established), emitConnected := true)
      else NO_DECISION
  }
}
