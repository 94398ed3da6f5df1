/**
 * The receiver as the code has it: a mutable record, a loop that moves the cumulative front over
 * the trailing ones of the bitmap, and a loop that delivers the contiguous run of the reorder
 * buffer. Each method is proved to compute the corresponding function of `RxSpec`.
 */
module RxHandler {
  import opened Protocol
  import opened Bits
  import opened Codec
  import opened SessionTypes
  import opened ConnectionStateMachine
  import Spec = RxSpec

  class RxSession {
    var nextExpected: u32
    var receivedBits: u64
    var reorder: map<u32, Packet>
    var nextOrdered: u32
    var orderedStarted: bool
    var monotonic: map<u32, u32>
    var events: seq<Event>

    ghost function View(): RxState
      reads this
    {
      RxState(nextExpected, receivedBits, reorder, nextOrdered, orderedStarted, monotonic, events)
    }

    constructor ()
      ensures View() == INITIAL_RX
    {
      nextExpected, receivedBits, reorder, nextOrdered := 0, 0, map[], 0;
      orderedStarted, monotonic, events := false, map[], [];
    }

    method Emit(e: Event)
      modifies this`events
      ensures View() == Spec.Emit(old(View()), e)
    {
      events := events + [e];
    }

    // ----- the window -----

    method AdvanceReceiveWindow()
      modifies this`nextExpected, this`receivedBits
      ensures View() == Spec.Advance(old(View()))
    {
      nextExpected := Inc(nextExpected);
      while receivedBits % 2 == 1
        invariant Spec.AdvanceLoop(View()) == Spec.Advance(old(View()))
        decreases receivedBits
      {
        nextExpected := Inc(nextExpected);
        receivedBits := receivedBits / 2;
      }
    }

    method UpdateReliableReceiveState(h: Header, kind: ControlKind) returns (accepted: bool, scheduleAck: bool)
      modifies this`nextExpected, this`receivedBits
      ensures Spec.RxResult(View(), accepted, scheduleAck) == Spec.UpdateReceiveState(old(View()), h, kind)
    {
      hide Spec.Advance, Spec.SetReceived, Bit;
      if !IsReliableChannel(h.channelType) && kind != KSyn && kind != KSynAck && kind != KAck && kind != KFin {
        return true, false;
      }
      scheduleAck := IsReliableChannel(h.channelType) || kind == KFin;
      if nextExpected == 0 {
        nextExpected := h.seqNo;
      }
      if h.seqNo == nextExpected {
        AdvanceReceiveWindow();
        return true, scheduleAck;
      }
      if SeqGt(h.seqNo, nextExpected) {
        var delta := Diff(h.seqNo, nextExpected);
        if delta <= ACK_BITS_WINDOW {
          var alreadyReceived := Bit(receivedBits, delta - 1);
          receivedBits := Spec.SetReceived(receivedBits, delta);
          return !alreadyReceived, scheduleAck;
        }
        return false, scheduleAck;
      }
      accepted := false;
    }

    // ----- delivery -----

    method DrainContiguousOrdered()
      modifies this`reorder, this`nextOrdered, this`events
      ensures View() == if old(orderedStarted) then Spec.Drain(old(View())) else old(View())
    {
      if !orderedStarted {
        return;
      }
      while nextOrdered in reorder
        invariant Spec.Drain(View()) == Spec.Drain(old(View()))
        decreases |reorder.Keys|
      {
        ghost var rest := reorder - {nextOrdered};
        assert rest.Keys == reorder.Keys - {nextOrdered};
        Emit(Spec.DataEvent(reorder[nextOrdered]));
        reorder := reorder - {nextOrdered};
        nextOrdered := Inc(nextOrdered);
      }
    }

    method HandleReliableOrdered(p: Packet)
      modifies this
      ensures View() == Spec.HandleOrdered(old(View()), p)
    {
      if !orderedStarted {
        nextOrdered := p.header.seqNo;
        orderedStarted := true;
      }
      reorder := reorder[p.header.seqNo := p];
      DrainContiguousOrdered();
    }

    method HandleMonotonicState(p: Packet)
      modifies this`monotonic, this`events
      ensures View() == Spec.HandleMonotonic(old(View()), p)
    {
      if |p.payload| < 4 {
        return;
      }
      var version := ReadU32(p.payload, 0);
      var channel := p.header.channelId;
      if channel in monotonic && SeqLe(version, monotonic[channel]) {
        return;
      }
      monotonic := monotonic[channel := version];
      Emit(Spec.DataEvent(p));
    }

    method OnPacket(p: Packet, kind: ControlKind) returns (scheduleAck: bool)
      modifies this
      ensures var r := Spec.OnPacket(old(View()), p, kind);
        View() == r.rx && scheduleAck == r.scheduleAck
    {
      hide Spec.UpdateReceiveState, Spec.HandleOrdered, Spec.HandleMonotonic;
      var accepted;
      accepted, scheduleAck := UpdateReliableReceiveState(p.header, kind);
      if kind != KNone || !accepted {
        return;
      }
      var channelType := p.header.channelType;
      if channelType == RELIABLE_ORDERED {
        HandleReliableOrdered(p);
      } else if channelType == RELIABLE_UNORDERED || channelType == UNRELIABLE {
        Emit(Spec.DataEvent(p));
      } else if channelType == MONOTONIC_STATE {
        HandleMonotonicState(p);
      }
    }

    /** Hands out the queued events, oldest first, and leaves none. */
    method DrainEvents() returns (drained: seq<Event>)
      modifies this`events
      ensures View() == old(View()).(events := []) && drained == old(events)
    {
      drained := events;
      events := [];
    }
  }
}
