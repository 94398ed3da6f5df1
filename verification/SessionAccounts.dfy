/**
 * What a session received, against what it says about it: the receive counters are the tallies of the
 * datagrams that decode, and a number leaves the window as acknowledged only by a datagram that
 * arrived and whose header covers it.
 */
module SessionAccounts {
  import opened Protocol
  import opened Codec
  import opened SessionTypes
  import opened ConnectionStateMachine
  import opened SessionSpec
  import opened SessionRuns
  import opened SessionHistory
  import opened SessionLifecycle
  import opened Counting
  import Tx = TxSpec
  import Sender = TxRuns

  // ----- receive counters -----

  /** The packets in the received datagrams that decode, in order of arrival. */
  function Arrivals(actions: seq<Action>): seq<Packet>
    decreases |actions|
  {
    if actions == [] then []
    else Arrivals(actions[..|actions| - 1]) + ArrivalsOf(actions[|actions| - 1])
  }

  function ArrivalsOf(a: Action): seq<Packet> {
    if a.Receive? && Decode(a.bytes).Some? then [Decode(a.bytes).value] else []
  }

  predicate HoldsData(p: Packet) { Classify(p.header.flags) == KNone }
  predicate HoldsControl(p: Packet) { Classify(p.header.flags) != KNone }
  predicate HoldsPing(p: Packet) { Classify(p.header.flags) == KPing }
  predicate HoldsPong(p: Packet) { Classify(p.header.flags) == KPong }

  /** Bytes on the wire. */
  function TotalSize(ps: seq<Packet>): nat {
    if ps == [] then 0 else TotalSize(ps[..|ps| - 1]) + |Encode(ps[|ps| - 1])|
  }

  ghost predicate ReceiveCounted(st: Stats, ps: seq<Packet>) {
    && st.packetsReceived == |ps| && st.bytesReceived == TotalSize(ps)
    && st.controlReceived == CountIf(ps, HoldsControl) && st.dataReceived == CountIf(ps, HoldsData)
    && st.pingsReceived == CountIf(ps, HoldsPing) && st.pongsReceived == CountIf(ps, HoldsPong)
  }

  /** The same receive counters. */
  predicate SameReceived(a: Stats, b: Stats) {
    && a.packetsReceived == b.packetsReceived && a.bytesReceived == b.bytesReceived
    && a.controlReceived == b.controlReceived && a.dataReceived == b.dataReceived
    && a.pingsReceived == b.pingsReceived && a.pongsReceived == b.pongsReceived
  }

  lemma PacketRecorded(cfg: Config, s: SessionState, p: Packet, size: nat, now: nat)
    ensures SameReceived(OnPacket(cfg, s, p, size, now).stats,
                         RecordReceived(s, Classify(p.header.flags), size, now).stats)
  {
    hide AfterAck, AfterDecision, Classify, Elapsed;
    var kind, a := Classify(p.header.flags), Admitted(s, p, size, now);
    AfterAckFlags(cfg, a, kind, p.header, now);
    AfterDecisionFlags(cfg, AfterAck(cfg, a, kind, p.header, now), p, now);
  }

  lemma PollReceivesNothing(cfg: Config, s: SessionState, now: nat)
    ensures SameReceived(PollTx(cfg, s, now).session.stats, s.stats)
  {
    hide TxPoll, Classify, IsValidHeader;
  }

  lemma ArrivalCounted(s: SessionState, ps: seq<Packet>, p: Packet, now: nat)
    requires ReceiveCounted(s.stats, ps)
    ensures ReceiveCounted(RecordReceived(s, Classify(p.header.flags), |Encode(p)|, now).stats, ps + [p])
  {
    hide Classify, CountIf, Encode;
    CountSnoc(ps, p, HoldsControl);
    CountSnoc(ps, p, HoldsData);
    CountSnoc(ps, p, HoldsPing);
    CountSnoc(ps, p, HoldsPong);
    assert (ps + [p])[..|ps|] == ps;
  }

  lemma StepCounted(cfg: Config, s: SessionState, ps: seq<Packet>, a: Action)
    requires ReceiveCounted(s.stats, ps)
    ensures ReceiveCounted(Step(cfg, s, a).stats, ps + ArrivalsOf(a))
  {
    hide OnPacket, PollTx, Decode, Encode, RecordReceived, CountIf, TotalSize;
    assert ps + [] == ps;
    match a {
      case PollAt(now) => PollReceivesNothing(cfg, s, now);
      case Receive(bytes, now) =>
        if Decode(bytes).Some? {
          var p := Decode(bytes).value;
          EncodeDecode(bytes);
          PacketRecorded(cfg, s, p, |bytes|, now);
          ArrivalCounted(s, ps, p, now);
        }
      case _ =>
    }
  }

  /** In every run the receive counters are the tallies of the received datagrams that decode. */
  lemma {:induction false} ReceiveCountersAreTrue(cfg: Config, role: Role, isn: u32, connId: u32, actions: seq<Action>)
    ensures ReceiveCounted(Reached(cfg, role, isn, connId, actions).session.stats, Arrivals(actions))
    decreases |actions|
  {
    if actions != [] {
      hide Step, ReceiveCounted, TxTrace, MidConn, EmissionsOf, Visit;
      var front := actions[..|actions| - 1];
      ReceiveCountersAreTrue(cfg, role, isn, connId, front);
      StepCounted(cfg, Reached(cfg, role, isn, connId, front).session, Arrivals(front), actions[|actions| - 1]);
    }
  }

  // ----- released numbers -----

  /** Header fields of a datagram that the action takes in. */
  predicate Carries(a: Action, f: Tx.AckFields) {
    && a.Receive? && Decode(a.bytes).Some?
    && f == Tx.AckFields(Decode(a.bytes).value.header.ack, Decode(a.bytes).value.header.ackBits)
  }

  /** Every released index has the fields of `a`, or was released before. */
  ghost predicate ReleasesBy(before: map<nat, Tx.AckFields>, after: map<nat, Tx.AckFields>, a: Action) {
    forall n :: n in after ==> Carries(a, after[n]) || (n in before && after[n] == before[n])
  }

  lemma StepReleasesBy(cfg: Config, h: History, a: Action)
    ensures ReleasesBy(h.log.released, Advance(cfg, h, a).log.released, a)
  {
    hide Sender.Run, Step, MidConn, Visit, EmissionsOf, Decode, PollTx, OnPacket, IsProcessed, Classify, ScheduledFlags;
    Sender.ReleasedByReceivedHeader(cfg, h.Sending(), TxTrace(cfg, h.session, a));
  }

  /**
   * In every session run, each released number is covered by the header of a datagram that the session received.
   */
  lemma {:induction false} ReleasedByDatagram(cfg: Config, role: Role, isn: u32, connId: u32, actions: seq<Action>)
    ensures forall n :: n in Reached(cfg, role, isn, connId, actions).log.released ==>
      var f := Reached(cfg, role, isn, connId, actions).log.released[n];
      && Tx.IsAcked(Add(isn, n), f.ack, f.ackBits)
      && exists i :: 0 <= i < |actions| && Carries(actions[i], f)
    decreases |actions|
  {
    hide Advance, Tx.IsAcked, Add, Carries;
    var h := Reached(cfg, role, isn, connId, actions);
    NumbersReleased(cfg, role, isn, connId, actions);
    if actions != [] {
      var front, a := actions[..|actions| - 1], actions[|actions| - 1];
      ReleasedByDatagram(cfg, role, isn, connId, front);
      var h0 := Reached(cfg, role, isn, connId, front);
      assert h == Advance(cfg, h0, a);
      hide Run;
      StepReleasesBy(cfg, h0, a);
      forall n | n in h.log.released ensures exists i :: 0 <= i < |actions| && Carries(actions[i], h.log.released[n]) {
        if Carries(a, h.log.released[n]) {
          assert Carries(actions[|actions| - 1], h.log.released[n]);
        } else {
          var i :| 0 <= i < |front| && Carries(front[i], h0.log.released[n]);
          assert Carries(actions[i], h.log.released[n]);
        }
      }
    }
  }

  lemma NumbersReleased(cfg: Config, role: Role, isn: u32, connId: u32, actions: seq<Action>)
    ensures var log := Reached(cfg, role, isn, connId, actions).log;
      forall n :: n in log.released ==> Tx.IsAcked(Add(isn, n), log.released[n].ack, log.released[n].ackBits)
  {
    hide Run, Sender.Tracked, Sender.Retries, Sender.Fifo, Add, Tx.IsAcked, Counted, ProbesAccounted, Lifecycle;
    ReachedInv(cfg, role, isn, connId, actions);
    IsnStays(cfg, Start(role, isn, connId), actions);
    var run := Reached(cfg, role, isn, connId, actions).Sending();
    forall n | n in run.log.released
      ensures Tx.IsAcked(Add(isn, n), run.log.released[n].ack, run.log.released[n].ackBits)
    {
      assert run.Number(n) == Add(run.log.isn, n);
    }
  }

  lemma {:induction false} IsnStays(cfg: Config, h: History, actions: seq<Action>)
    ensures Run(cfg, h, actions).log.isn == h.log.isn
    decreases |actions|
  {
    if actions != [] {
      hide Step, TxTrace, MidConn, Visit, EmissionsOf;
      var before, a := Run(cfg, h, actions[..|actions| - 1]), actions[|actions| - 1];
      IsnStays(cfg, h, actions[..|actions| - 1]);
      Sender.RunExtendsLog(cfg, before.Sending(), TxTrace(cfg, before.session, a));
    }
  }
}
