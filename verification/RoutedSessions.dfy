/**
 * The sessions inside the router are session runs: each of them is what some sequence of session steps makes of
 * a fresh server session, and every datagram among those steps came from the endpoint it is bound to. So
 * whatever holds in every session run holds for the deployed server, and so does ordered safety towards a
 * client that has its endpoint to itself.
 */
module RoutedSessions {
  import opened Protocol
  import opened Codec
  import opened SessionTypes
  import opened ConnectionStateMachine
  import opened ManagerSpec
  import opened ManagerRuns
  import opened SessionHistory
  import opened EndToEnd
  import opened Reliability
  import Life = SessionLifecycle
  import R = SessionRuns
  import S = SessionSpec
  import Sender = TxRuns
  import Tx = TxSpec

  // ----- the sessions of a manager run -----

  predicate CameFrom(actions: seq<ManagerAction>, e: Endpoint, bytes: seq<u8>) {
    exists i :: 0 <= i < |actions| && actions[i].Datagram? && actions[i].e == e && actions[i].bytes == bytes
  }

  /** Every datagram among the session's steps came from `e`. */
  ghost predicate HeardFrom(actions: seq<ManagerAction>, e: Endpoint, steps: seq<R.Action>) {
    forall i :: 0 <= i < |steps| && steps[i].Receive? ==> CameFrom(actions, e, steps[i].bytes)
  }

  /** `s` is the outcome of the run `x`, whose datagrams came from `e`. */
  ghost predicate IsRun(cfg: Config, actions: seq<ManagerAction>, e: Endpoint, s: SessionState, x: Party) {
    x.role == Server && x.connId == s.connId && s == x.At(cfg).session && HeardFrom(actions, e, x.actions)
  }

  ghost predicate HasRun(cfg: Config, actions: seq<ManagerAction>, e: Endpoint, s: SessionState) {
    exists x :: IsRun(cfg, actions, e, s, x)
  }

  ghost predicate AllRuns(cfg: Config, actions: seq<ManagerAction>, m: Manager) {
    && (forall e :: e in m.pending ==> HasRun(cfg, actions, e, m.pending[e]))
    && (forall e :: e in m.byEndpoint && m.byEndpoint[e] in m.active ==>
          HasRun(cfg, actions, e, m.active[m.byEndpoint[e]]))
  }

  // ----- one step of one session -----

  /** One more step of the session, which keeps its id. */
  lemma RunGoesOn(cfg: Config, actions: seq<ManagerAction>, e: Endpoint, s: SessionState, a: R.Action)
    requires HasRun(cfg, actions, e, s) && (a.Receive? ==> CameFrom(actions, e, a.bytes))
    requires R.Step(cfg, s, a).connId == s.connId
    ensures HasRun(cfg, actions, e, R.Step(cfg, s, a))
  {
    hide CameFrom, SessionHistory.Run;
    var x :| IsRun(cfg, actions, e, s, x);
    var x' := x.(actions := x.actions + [a]);
    RunSnoc(cfg, SessionHistory.Start(x.role, x.isn, x.connId), x.actions, a);
    hide R.Step, R.TxTrace, MidConn, Visit, EmissionsOf;
    assert IsRun(cfg, actions, e, R.Step(cfg, s, a), x');
  }

  lemma RunStarts(cfg: Config, actions: seq<ManagerAction>, e: Endpoint, isn: u32, id: u32)
    ensures HasRun(cfg, actions, e, InitialSession(Server, isn, id))
  {
    hide CameFrom, Advance;
    assert IsRun(cfg, actions, e, InitialSession(Server, isn, id), Party(Server, isn, id, []));
  }

  lemma RunStays(cfg: Config, actions: seq<ManagerAction>, a: ManagerAction, e: Endpoint, s: SessionState)
    requires HasRun(cfg, actions, e, s)
    ensures HasRun(cfg, actions + [a], e, s)
  {
    hide Life.Reached;
    var x :| IsRun(cfg, actions, e, s, x);
    forall i | 0 <= i < |x.actions| && x.actions[i].Receive? ensures CameFrom(actions + [a], e, x.actions[i].bytes) {
      var bytes := x.actions[i].bytes;
      var k :| 0 <= k < |actions| && actions[k].Datagram? && actions[k].e == e && actions[k].bytes == bytes;
      assert (actions + [a])[k] == actions[k];
    }
    assert IsRun(cfg, actions + [a], e, s, x);
  }

  lemma AllStay(cfg: Config, actions: seq<ManagerAction>, a: ManagerAction, m: Manager)
    requires AllRuns(cfg, actions, m)
    ensures AllRuns(cfg, actions + [a], m)
  {
    hide HasRun;
    forall e | e in m.pending ensures HasRun(cfg, actions + [a], e, m.pending[e]) {
      RunStays(cfg, actions, a, e, m.pending[e]);
    }
    forall e | e in m.byEndpoint && m.byEndpoint[e] in m.active
      ensures HasRun(cfg, actions + [a], e, m.active[m.byEndpoint[e]])
    {
      RunStays(cfg, actions, a, e, m.active[m.byEndpoint[e]]);
    }
  }

  lemma RunReceives(cfg: Config, actions: seq<ManagerAction>, e: Endpoint, s: SessionState, bytes: seq<u8>, now: nat)
    requires HasRun(cfg, actions, e, s) && CameFrom(actions, e, bytes) && s.role == Server
    ensures HasRun(cfg, actions, e, S.OnDatagram(cfg, s, bytes, now))
    ensures S.OnDatagram(cfg, s, bytes, now).connId == s.connId
  {
    hide HasRun, CameFrom, S.OnDatagram;
    SessionStep(cfg, s, bytes, now);
    RunGoesOn(cfg, actions, e, s, R.Receive(bytes, now));
  }

  lemma RunPolls(cfg: Config, actions: seq<ManagerAction>, e: Endpoint, s: SessionState, now: nat)
    requires HasRun(cfg, actions, e, s) && s.role == Server
    ensures HasRun(cfg, actions, e, Poll(cfg, s, now).session)
  {
    hide HasRun, S.PollTx;
    SessionPoll(cfg, s, now);
    RunGoesOn(cfg, actions, e, s, R.PollAt(now));
  }

  // ----- one step of the router -----

  lemma PendingRuns(cfg: Config, actions: seq<ManagerAction>, m: Manager, e: Endpoint, bytes: seq<u8>, now: nat)
    requires AllRuns(cfg, actions, m) && CameFrom(actions, e, bytes) && e in m.pending && m.pending[e].role == Server
    requires e !in m.byEndpoint && m.pending[e].connId !in m.active
    requires forall f :: f in m.byEndpoint ==> m.byEndpoint[f] in m.active
    ensures AllRuns(cfg, actions, DispatchPending(cfg, m, e, bytes, now))
  {
    hide HasRun, CameFrom, S.OnDatagram;
    RunReceives(cfg, actions, e, m.pending[e], bytes, now);
  }

  lemma ActiveRuns(cfg: Config, actions: seq<ManagerAction>, m: Manager, e: Endpoint, bytes: seq<u8>, id: u32, now: nat)
    requires AllRuns(cfg, actions, m) && CameFrom(actions, e, bytes) && OwnsActive(m, e, id) && id in m.active
    requires m.active[id].role == Server && Distinct(m)
    ensures AllRuns(cfg, actions, DispatchActive(cfg, m, e, bytes, id, now))
  {
    hide HasRun, CameFrom, S.OnDatagram;
    RunReceives(cfg, actions, e, m.active[id], bytes, now);
  }

  lemma DatagramRuns(cfg: Config, actions: seq<ManagerAction>, m: Manager, a: ManagerAction)
    requires AllRuns(cfg, actions, m) && Routes(m) && a.Datagram? && Allowed(m, a) && CameFrom(actions, a.e, a.bytes)
    ensures AllRuns(cfg, actions, Act(cfg, m, a))
  {
    hide HasRun, CameFrom, DispatchPending, DispatchActive, Decode, InitialTx;
    if Decode(a.bytes).Some? {
      var h := Decode(a.bytes).value.header;
      if RoutesActive(m, h) {
        if OwnsActive(m, a.e, h.connId) {
          EntryOfActive(m, a.e, h.connId);
          ActiveRuns(cfg, actions, m, a.e, a.bytes, h.connId, a.now);
        }
      } else if a.e in m.pending {
        EntryOfPending(m, a.e);
        PendingRuns(cfg, actions, m, a.e, a.bytes, a.now);
      } else if AdmitsNew(m, a.e, h) {
        RunStarts(cfg, actions, a.e, a.isn, a.newId);
        PendingRuns(cfg, actions, Admit(m, a.e, a.isn, a.newId), a.e, a.bytes, a.now);
      }
    }
  }

  lemma PollRuns(cfg: Config, actions: seq<ManagerAction>, m: Manager, now: nat)
    requires AllRuns(cfg, actions, m) && Routes(m)
    ensures AllRuns(cfg, actions, PollTx(cfg, m, now))
  {
    hide HasRun, Poll, Expires, ExpiredActive, ExpiredPending;
    var m' := PollTx(cfg, m, now);
    forall e | e in m'.pending ensures HasRun(cfg, actions, e, m'.pending[e]) {
      RunPolls(cfg, actions, e, m.pending[e], now);
    }
    forall e | e in m'.byEndpoint && m'.byEndpoint[e] in m'.active
      ensures HasRun(cfg, actions, e, m'.active[m'.byEndpoint[e]])
    {
      RunPolls(cfg, actions, e, m.active[m.byEndpoint[e]], now);
    }
  }

  lemma CallRuns(cfg: Config, actions: seq<ManagerAction>, m: Manager, a: ManagerAction)
    requires AllRuns(cfg, actions, m) && (a.QueueTo? || a.DrainOne? || a.DrainEvery?)
    ensures AllRuns(cfg, actions, Act(cfg, m, a))
  {
    hide HasRun;
    var m' := Act(cfg, m, a);
    forall e | e in m'.pending ensures HasRun(cfg, actions, e, m'.pending[e]) {
      RunGoesOn(cfg, actions, e, m.pending[e], R.DrainAll);
    }
    forall e | e in m'.byEndpoint && m'.byEndpoint[e] in m'.active
      ensures HasRun(cfg, actions, e, m'.active[m'.byEndpoint[e]])
    {
      var s := m.active[m.byEndpoint[e]];
      RunGoesOn(cfg, actions, e, s, R.DrainAll);
      if a.QueueTo? { RunGoesOn(cfg, actions, e, s, R.Queue(a.request)); }
    }
  }

  /** At every point of every allowed run, each session of the router is a session run fed by its own endpoint. */
  lemma {:induction false} RoutedAreRuns(cfg: Config, actions: seq<ManagerAction>)
    requires AllowedRun(cfg, actions)
    ensures AllRuns(cfg, actions, ManagerRuns.Run(cfg, actions).m)
    decreases |actions|
  {
    hide AllRuns, Allowed, Routes, Books, Act, CameFrom, LogConnected;
    if actions == [] {
      NoSessions(cfg);
    } else {
      var front, a := actions[..|actions| - 1], actions[|actions| - 1];
      AllowedPrefix(cfg, actions);
      RoutedAreRuns(cfg, front);
      RunKeeps(cfg, front);
      var m := ManagerRuns.Run(cfg, front).m;
      AllStay(cfg, front, a, m);
      assert front + [a] == actions;
      ActRuns(cfg, actions, m, a);
    }
  }

  lemma ActRuns(cfg: Config, actions: seq<ManagerAction>, m: Manager, a: ManagerAction)
    requires AllRuns(cfg, actions, m) && Routes(m) && Allowed(m, a) && actions != [] && actions[|actions| - 1] == a
    ensures AllRuns(cfg, actions, Act(cfg, m, a))
  {
    hide AllRuns, Allowed, Routes, PollTx, OnDatagram;
    match a {
      case Datagram(_, _, _, _, _) => DatagramRuns(cfg, actions, m, a);
      case PollAll(now) => PollRuns(cfg, actions, m, now);
      case _ => CallRuns(cfg, actions, m, a);
    }
  }

  lemma NoSessions(cfg: Config)
    ensures AllRuns(cfg, [], EMPTY)
  {
  }

  // ----- what follows for the deployed server -----

  /** `s` is the session that the router holds for `e`. */
  predicate SessionAt(m: Manager, e: Endpoint, s: SessionState) {
    (e in m.pending && m.pending[e] == s) || (Bound(m, e) && m.active[m.byEndpoint[e]] == s)
  }

  lemma RunOf(cfg: Config, actions: seq<ManagerAction>, e: Endpoint, s: SessionState) returns (x: Party)
    requires AllowedRun(cfg, actions) && SessionAt(ManagerRuns.Run(cfg, actions).m, e, s)
    ensures IsRun(cfg, actions, e, s, x)
  {
    hide ManagerRuns.Run, AllowedRun, IsRun;
    RoutedAreRuns(cfg, actions);
    x :| IsRun(cfg, actions, e, s, x);
  }

  /**
   * Every session of every allowed router run: the sending window is safe, the send counters add up, each PING is
   * accounted for, and what the next poll returns decodes and reports the receive state.
   */
  lemma RoutedGuarantees(cfg: Config, actions: seq<ManagerAction>, e: Endpoint, s: SessionState, now: nat)
    requires AllowedRun(cfg, actions) && SessionAt(ManagerRuns.Run(cfg, actions).m, e, s)
    ensures forall n :: n in s.tx.inflight ==> 1 <= Diff(s.tx.nextSeq, n) <= 64 && !SeqLt(n, s.tx.remoteAck)
    ensures |s.tx.inflight| <= 64
    ensures s.stats.packetsSent == s.stats.controlSent + s.stats.dataSent
    ensures s.stats.pingsSent == s.stats.rttCount + Count(s.tx.flags.probe.pingOutstanding)
    ensures var d := Tx.Datagram(S.PollTx(cfg, s, now).outcome);
      d.Some? ==>
        && Decode(d.value).Some?
        && Decode(d.value).value.header.ack == s.rx.nextExpected
        && Decode(d.value).value.header.ackBits == s.rx.receivedBits
  {
    hide ManagerRuns.Run, AllowedRun, Life.Reached, S.PollTx, Decode, Counted, RttBounds;
    hide Sender.Conserved, Sender.Retries, Sender.Fifo, Sender.Numbered, Diff, SeqLt;
    var x := RunOf(cfg, actions, e, s);
    Life.GiveUpsAreErrors(cfg, x.role, x.isn, x.connId, x.actions);
    Life.CountersAreTrue(cfg, x.role, x.isn, x.connId, x.actions);
    Life.ProbeAccounting(cfg, x.role, x.isn, x.connId, x.actions);
    Life.PollsAreTruthful(cfg, x.role, x.isn, x.connId, x.actions, now);
    assert Sender.Window(s.tx);
    Sender.AtMost(s.tx.inflight.Keys, s.tx.nextSeq, 64);
  }

  /** Whatever a side emits is genuine, as long as its numbers have not come round. */
  lemma {:induction false} AlwaysGenuine(cfg: Config, x: Party)
    requires |x.At(cfg).log.issued| < 0x1_0000_0000
    ensures EmitsGenuine(x.At(cfg))
    decreases |x.actions|
  {
    hide Advance, EmitsGenuine, Sender.Inv, Counted, ProbesAccounted, Life.Lifecycle, Life.GiveUpsReported;
    if x.actions == [] {
      NothingEmitted(x);
    } else {
      var before, a := x.Before().At(cfg), x.actions[|x.actions| - 1];
      LogGrows(cfg, before, a);
      AlwaysGenuine(cfg, x.Before());
      Life.ReachedInv(cfg, x.role, x.isn, x.connId, x.Before().actions);
      EmissionKeeps(cfg, before, a);
    }
  }

  lemma NothingEmitted(x: Party)
    ensures EmitsGenuine(SessionHistory.Start(x.role, x.isn, x.connId))
  {
  }

  /** A side that hears only `x` hands out what `x` assigned to one contiguous range. */
  lemma {:induction false} OneWayReceives(cfg: Config, x: Party, y: Party)
    requires HearsOnly(cfg, y, x) && |x.At(cfg).log.issued| < 0x1_0000_0000
    ensures Receives(y.At(cfg), x.At(cfg).log)
    decreases |y.actions|
  {
    hide Advance, EmitsGenuine, Receives, WasEmitted;
    if y.actions == [] {
      NothingReceived(y, x.At(cfg).log);
    } else {
      OneWayReceives(cfg, x, y.Before());
      AlwaysGenuine(cfg, x);
      ReceptionKeeps(cfg, y.Before().At(cfg), y.actions[|y.actions| - 1], x.At(cfg));
    }
  }

  lemma NothingReceived(y: Party, log: Sender.TxLog)
    ensures Receives(SessionHistory.Start(y.role, y.isn, y.connId), log)
  {
    assert SessionHistory.Start(y.role, y.isn, y.connId).Events() == [];
  }

  /**
   * Ordered safety for the deployed server: if every datagram from `e` was emitted by the session `x`, then what
   * the router's session for `e` has handed out on ordered channels is what `x` assigned to one
   * contiguous range of its numbers.
   */
  lemma RoutedOrderedSafety(cfg: Config, actions: seq<ManagerAction>, e: Endpoint, s: SessionState, x: Party)
    returns (y: Party, base: nat)
    requires AllowedRun(cfg, actions) && SessionAt(ManagerRuns.Run(cfg, actions).m, e, s)
    requires |x.At(cfg).log.issued| < 0x1_0000_0000
    requires forall bytes :: CameFrom(actions, e, bytes) ==> WasEmitted(x.At(cfg), bytes)
    ensures IsRun(cfg, actions, e, s, y)
    ensures ContiguousRange(Ordered(y.At(cfg).Events()), x.At(cfg).log, base)
  {
    hide ManagerRuns.Run, AllowedRun, Life.Reached, CameFrom, WasEmitted, Receives, ContiguousRange, Sender.Inv;
    y := RunOf(cfg, actions, e, s);
    OneWayReceives(cfg, x, y);
    Life.GiveUpsAreErrors(cfg, x.role, x.isn, x.connId, x.actions);
    base := RangeOf(cfg, x.At(cfg), y.At(cfg));
  }
}
