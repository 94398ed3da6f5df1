/** The receiver as functions on its state. */
module RxSpec {
  import opened Protocol
  import opened Bits
  import opened Codec
  import opened SessionTypes
  import opened ConnectionStateMachine

  datatype RxResult = RxResult(rx: RxState, accepted: bool, scheduleAck: bool)

  /**
   * The window after the expected number arrived: the front moves by one, then once more for
   * every trailing one bit, while the bitmap is shifted only for those trailing ones.
   */
  function Advance(rx: RxState): RxState {
    AdvanceLoop(rx.(nextExpected := Inc(rx.nextExpected)))
  }

  function AdvanceLoop(rx: RxState): RxState
    decreases rx.receivedBits
  {
    if rx.receivedBits % 2 == 1
    then AdvanceLoop(rx.(nextExpected := Inc(rx.nextExpected), receivedBits := rx.receivedBits / 2))
    else rx
  }

  predicate TracksSequence(h: Header, kind: ControlKind) {
    IsReliableChannel(h.channelType) || kind == KSyn || kind == KSynAck || kind == KAck || kind == KFin
  }

  function SetReceived(bits: u64, delta: nat): u64
    requires 1 <= delta <= 64
  {
    Pow2_64();
    SetBitBound(bits, delta - 1, 64);
    SetBit(bits, delta - 1)
  }

  /** The number `s` against the window: the new window, and whether the packet is to be processed. */
  function Arrive(rx0: RxState, s: u32): RxResult {
    var rx := if rx0.nextExpected == 0 then rx0.(nextExpected := s) else rx0;
    if s == rx.nextExpected then RxResult(Advance(rx), true, false)
    else if SeqGt(s, rx.nextExpected) && Diff(s, rx.nextExpected) <= ACK_BITS_WINDOW then
      var delta := Diff(s, rx.nextExpected);
      RxResult(rx.(receivedBits := SetReceived(rx.receivedBits, delta)), !Bit(rx.receivedBits, delta - 1), false)
    else RxResult(rx, false, false)
  }

  function UpdateReceiveState(rx: RxState, h: Header, kind: ControlKind): RxResult {
    if !TracksSequence(h, kind) then RxResult(rx, true, false)
    else
      Arrive(rx, h.seqNo).(scheduleAck := IsReliableChannel(h.channelType) || kind == KFin)
  }

  function DataEvent(p: Packet): Event {
    Event(DataReceived, p.header.seqNo, p.header.channelId, p.header.channelType, p.payload, NoError)
  }

  function Emit(rx: RxState, e: Event): RxState {
    rx.(events := rx.events + [e])
  }

  /** Delivers the contiguous run of buffered packets at the delivery front. */
  function Drain(rx: RxState): RxState
    decreases |rx.reorder|
  {
    if rx.nextOrdered in rx.reorder then
      var rest := rx.reorder - {rx.nextOrdered};
      assert rest.Keys == rx.reorder.Keys - {rx.nextOrdered};
      assert |rest| == |rest.Keys| && |rx.reorder| == |rx.reorder.Keys|;
      Drain(Emit(rx, DataEvent(rx.reorder[rx.nextOrdered])).(reorder := rest, nextOrdered := Inc(rx.nextOrdered)))
    else rx
  }

  function StartOrdered(rx: RxState, s: u32): RxState {
    if rx.orderedStarted then rx else rx.(nextOrdered := s, orderedStarted := true)
  }

  function HandleOrdered(rx: RxState, p: Packet): RxState {
    var started := StartOrdered(rx, p.header.seqNo);
    Drain(started.(reorder := started.reorder[p.header.seqNo := p]))
  }

  function HandleMonotonic(rx: RxState, p: Packet): RxState {
    if |p.payload| < 4 then rx
    else
      var version, channel := ReadU32(p.payload, 0), p.header.channelId;
      if channel in rx.monotonic && SeqLe(version, rx.monotonic[channel]) then rx
      else Emit(rx, DataEvent(p)).(monotonic := rx.monotonic[channel := version])
  }

  function Deliver(rx: RxState, p: Packet): RxState {
    var channelType := p.header.channelType;
    if channelType == RELIABLE_ORDERED then HandleOrdered(rx, p)
    else if channelType == RELIABLE_UNORDERED || channelType == UNRELIABLE then Emit(rx, DataEvent(p))
    else if channelType == MONOTONIC_STATE then HandleMonotonic(rx, p)
    else rx
  }

  function OnPacket(rx: RxState, p: Packet, kind: ControlKind): RxResult {
    var u := UpdateReceiveState(rx, p.header, kind);
    if kind != KNone || !u.accepted then u else u.(rx := Deliver(u.rx, p))
  }
}
