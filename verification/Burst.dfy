/**
 * Up to a window of reliable requests, sent after a handshake and delivered without loss and in order. All of
 * them reach the application exactly when the ordered ones are not interrupted by unordered ones, and the
 * client's initial number keeps the number 0, which pure ACKs share, out of the way.
 */
module Burst {
  import opened Protocol
  import opened Bits
  import opened Codec
  import opened SessionTypes
  import opened ConnectionStateMachine
  import opened SessionSpec
  import opened FirstContact
  import opened RxWindow
  import Tx = TxSpec
  import Rx = RxSpec

  // ----- the ordered requests -----

  predicate IsOrderedRequest(r: SendRequest) { r.channelType == RELIABLE_ORDERED }

  /** No request on another channel comes between two ordered ones. */
  ghost predicate Unbroken(rs: seq<SendRequest>) {
    forall i, j, k :: 0 <= i < j < k < |rs| && IsOrderedRequest(rs[i]) && IsOrderedRequest(rs[k]) ==>
      IsOrderedRequest(rs[j])
  }

  /** The first uninterrupted row of ordered requests: has it begun, and where does it stop. */
  datatype Row = Row(begun: bool, stop: nat)

  function RowOf(rs: seq<SendRequest>): Row {
    if rs == [] then Row(false, 0)
    else
      var k := |rs| - 1;
      var before := RowOf(rs[..k]);
      if IsOrderedRequest(rs[k]) && (!before.begun || before.stop == k) then Row(true, k + 1) else before
  }

  /** The request is not ordered, or belongs to that row. */
  predicate InRow(rs: seq<SendRequest>, k: nat)
    requires k < |rs|
  {
    IsOrderedRequest(rs[k]) ==> !RowOf(rs[..k]).begun || RowOf(rs[..k]).stop == k
  }

  ghost predicate IsRow(rs: seq<SendRequest>, m: nat, first: nat, stop: nat)
    requires m <= |rs|
  {
    && first < stop <= m && (forall i :: 0 <= i < first ==> !IsOrderedRequest(rs[i]))
    && (forall i :: first <= i < stop ==> IsOrderedRequest(rs[i])) && (stop < m ==> !IsOrderedRequest(rs[stop]))
  }

  lemma {:induction false} RowShape(rs: seq<SendRequest>, m: nat)
    requires m <= |rs|
    ensures var row := RowOf(rs[..m]);
      if row.begun then exists first: nat :: IsRow(rs, m, first, row.stop)
      else forall i :: 0 <= i < m ==> !IsOrderedRequest(rs[i])
    decreases m
  {
    if m > 0 {
      RowShape(rs, m - 1);
      assert rs[..m][..m - 1] == rs[..m - 1];
      var before, row := RowOf(rs[..m - 1]), RowOf(rs[..m]);
      if before.begun {
        var first: nat :| IsRow(rs, m - 1, first, before.stop);
        assert IsRow(rs, m, first, row.stop);
      } else if row.begun {
        assert IsRow(rs, m, m - 1, m);
      }
    }
  }

  /** Every request is in the row if and only if the ordered ones are not interrupted. */
  lemma UnbrokenIsOneRow(rs: seq<SendRequest>)
    ensures (forall k :: 0 <= k < |rs| ==> InRow(rs, k)) <==> Unbroken(rs)
  {
    hide RowOf;
    if forall k :: 0 <= k < |rs| ==> InRow(rs, k) {
      forall i, j, k | 0 <= i < j < k < |rs| && IsOrderedRequest(rs[i]) && IsOrderedRequest(rs[k])
        ensures IsOrderedRequest(rs[j])
      {
        RowShape(rs, k);
        assert InRow(rs, k);
      }
    }
    if Unbroken(rs) {
      forall k | 0 <= k < |rs| ensures InRow(rs, k) {
        RowShape(rs, k);
        if RowOf(rs[..k]).begun && IsOrderedRequest(rs[k]) {
          var stop := RowOf(rs[..k]).stop;
          var first: nat :| IsRow(rs, k, first, stop);
          assert IsOrderedRequest(rs[first]) && (stop < k ==> first < stop < k);
        }
      }
    }
  }

  // ----- the receiver -----

  /** The exchange: who sends to whom, and the requests. */
  datatype Setting = Setting(clientIsn: u32, serverIsn: u32, id: u32, rs: seq<SendRequest>) {
    function Num(k: nat): u32 { Add(clientIsn, 1 + k) }
    function Pack(k: nat): Packet requires k < |rs| { Request(clientIsn, serverIsn, id, rs[k], k) }
    function Ev(k: nat): Event requires k < |rs| { EventOf(Num(k), rs[k]) }
    ghost predicate Fits() {
      |rs| <= 64 && forall k :: 0 <= k < |rs| ==> IsReliableChannel(rs[k].channelType)
    }
  }

  /** The receiver after the first `k` requests. */
  function Fed(x: Setting, rx: RxState, k: nat): RxState
    requires k <= |x.rs|
  {
    if k == 0 then rx else Rx.OnPacket(Fed(x, rx, k - 1), x.Pack(k - 1), KNone).rx
  }

  lemma NumsDiffer(x: Setting, i: nat, j: nat)
    requires i < 66 && j < 66 && i != j
    ensures x.Num(i) != x.Num(j)
  {
    if i < j { AddDiff(x.clientIsn, 1 + i, 1 + j); } else { AddDiff(x.clientIsn, 1 + j, 1 + i); }
  }

  lemma NumNext(x: Setting, k: nat)
    ensures Inc(x.Num(k)) == x.Num(k + 1)
  {
    AddInc(x.clientIsn, 1 + k);
  }

  /** The expected number, with no trailing one to skip, moves the front by one. */
  lemma ArrivesInTurn(rx: RxState)
    requires rx.receivedBits % 2 == 0
    ensures Rx.Arrive(rx, rx.nextExpected) == Rx.RxResult(rx.(nextExpected := Inc(rx.nextExpected)), true, false)
  {
  }

  /** The packet at the delivery front is handed out, and nothing after it. */
  lemma DrainOne(rx: RxState, s: u32, p: Packet)
    requires rx.nextOrdered == s && s !in rx.reorder && Inc(s) !in rx.reorder
    ensures Rx.Drain(rx.(reorder := rx.reorder[s := p])) == Rx.Emit(rx, Rx.DataEvent(p)).(nextOrdered := Inc(s))
  {
    var stored := rx.(reorder := rx.reorder[s := p]);
    var drained := Rx.Emit(rx, Rx.DataEvent(p)).(nextOrdered := Inc(s));
    assert stored.reorder - {s} == rx.reorder;
    assert Rx.Drain(drained) == drained;
  }

  /** What the receiver has handed out and what it holds back after `k` requests in turn. */
  ghost predicate InTurn(x: Setting, rx: RxState, k: nat)
    requires k <= |x.rs|
  {
    var row := RowOf(x.rs[..k]);
    && rx.nextExpected == x.Num(k) && rx.receivedBits % 2 == 0
    && rx.orderedStarted == row.begun && (row.begun ==> row.stop <= k && rx.nextOrdered == x.Num(row.stop))
    && (forall s :: s in rx.reorder ==> row.begun && exists j :: row.stop < j < k && s == x.Num(j))
    && (forall j :: 0 <= j < k && InRow(x.rs, j) ==> x.Ev(j) in rx.events)
    && (forall e :: e in rx.events && e.kind == DataReceived ==>
          exists j :: 0 <= j < k && InRow(x.rs, j) && e == x.Ev(j))
  }

  /** The delivery part of one request in turn. */
  lemma DeliveredInTurn(x: Setting, rx: RxState, k: nat)
    requires x.Fits() && k < |x.rs| && InTurn(x, rx, k)
    ensures var row, d := RowOf(x.rs[..k]), Rx.Deliver(rx, x.Pack(k));
      if !IsOrderedRequest(x.rs[k]) then d == rx.(events := rx.events + [x.Ev(k)])
      else if !row.begun || row.stop == k then
        d == rx.(events := rx.events + [x.Ev(k)], orderedStarted := true, nextOrdered := x.Num(k + 1))
      else d == rx.(reorder := rx.reorder[x.Num(k) := x.Pack(k)])
  {
    hide Add, Inc, RowOf;
    var row := RowOf(x.rs[..k]);
    forall j | row.stop < j < k
      ensures x.Num(j) != x.Num(k) && x.Num(j) != x.Num(k + 1) && x.Num(j) != x.Num(row.stop)
    {
      NumsDiffer(x, j, k);
      NumsDiffer(x, j, k + 1);
      NumsDiffer(x, j, row.stop);
    }
    NumNext(x, k);
    if IsOrderedRequest(x.rs[k]) {
      if !row.begun || row.stop == k {
        DrainOne(Rx.StartOrdered(rx, x.Num(k)), x.Num(k), x.Pack(k));
      } else {
        NumsDiffer(x, k, row.stop);
      }
    }
  }

  lemma StepInTurn(x: Setting, rx: RxState, k: nat)
    requires x.Fits() && k < |x.rs| && InTurn(x, rx, k)
    ensures InTurn(x, Rx.OnPacket(rx, x.Pack(k), KNone).rx, k + 1)
  {
    hide Add, Inc, Rx.Arrive, Rx.Deliver;
    ArrivesInTurn(rx);
    NumNext(x, k);
    var moved := rx.(nextExpected := x.Num(k + 1));
    assert Rx.OnPacket(rx, x.Pack(k), KNone).rx == Rx.Deliver(moved, x.Pack(k));
    DeliverIgnoresFront(rx, x.Num(k + 1), x.Pack(k));
    DeliveredInTurn(x, rx, k);
    assert x.rs[..k + 1][..k] == x.rs[..k];
    var row, d := RowOf(x.rs[..k]), Rx.Deliver(rx, x.Pack(k));
    assert RowOf(x.rs[..k + 1]) ==
      if IsOrderedRequest(x.rs[k]) && (!row.begun || row.stop == k) then Row(true, k + 1) else row;
    hide RowOf;
    InTurnAfter(x, rx, d.(nextExpected := x.Num(k + 1)), k);
  }

  lemma DeliverIgnoresFront(rx: RxState, next: u32, p: Packet)
    requires IsReliableChannel(p.header.channelType)
    ensures Rx.Deliver(rx.(nextExpected := next), p) == Rx.Deliver(rx, p).(nextExpected := next)
  {
    if p.header.channelType == RELIABLE_ORDERED {
      var started := Rx.StartOrdered(rx, p.header.seqNo);
      DrainIgnoresFront(started.(reorder := started.reorder[p.header.seqNo := p]), next);
    }
  }

  lemma {:induction false} DrainIgnoresFront(rx: RxState, next: u32)
    ensures Rx.Drain(rx.(nextExpected := next)) == Rx.Drain(rx).(nextExpected := next)
    decreases |rx.reorder|
  {
    if rx.nextOrdered in rx.reorder {
      var rest := rx.reorder - {rx.nextOrdered};
      assert rest.Keys == rx.reorder.Keys - {rx.nextOrdered};
      assert |rest| == |rest.Keys| && |rx.reorder| == |rx.reorder.Keys|;
      var e := Rx.DataEvent(rx.reorder[rx.nextOrdered]);
      DrainIgnoresFront(Rx.Emit(rx, e).(reorder := rest, nextOrdered := Inc(rx.nextOrdered)), next);
    }
  }

  /** The bookkeeping of one more request. */
  lemma InTurnAfter(x: Setting, rx: RxState, rx': RxState, k: nat)
    requires k < |x.rs| && InTurn(x, rx, k) && rx'.nextExpected == x.Num(k + 1) && rx'.receivedBits == rx.receivedBits
    requires var row := RowOf(x.rs[..k]);
      var joins := IsOrderedRequest(x.rs[k]) && (!row.begun || row.stop == k);
      && RowOf(x.rs[..k + 1]) == (if joins then Row(true, k + 1) else row)
      && (if joins then rx'.orderedStarted && rx'.nextOrdered == x.Num(k + 1)
          else rx'.orderedStarted == rx.orderedStarted && rx'.nextOrdered == rx.nextOrdered)
      && (if InRow(x.rs, k) then rx'.events == rx.events + [x.Ev(k)] && rx'.reorder == rx.reorder
          else rx'.events == rx.events && rx'.reorder == rx.reorder[x.Num(k) := x.Pack(k)])
    ensures InTurn(x, rx', k + 1)
  {
    hide RowOf, Add;
    var row, row' := RowOf(x.rs[..k]), RowOf(x.rs[..k + 1]);
    forall s | s in rx'.reorder ensures row'.begun && exists j :: row'.stop < j < k + 1 && s == x.Num(j) {
      if s in rx.reorder {
        var j :| row.stop < j < k && s == x.Num(j);
      }
    }
    forall e | e in rx'.events && e.kind == DataReceived
      ensures exists j :: 0 <= j < k + 1 && InRow(x.rs, j) && e == x.Ev(j)
    {
      if e in rx.events {
        var j :| 0 <= j < k && InRow(x.rs, j) && e == x.Ev(j);
      }
    }
  }

  // ----- the two initial numbers that lose a request -----

  /** Whatever was handed out or is held back comes from one of the first `k` requests, but not from `bad`. */
  ghost predicate NotFrom(x: Setting, rx: RxState, k: nat, bad: nat)
    requires k <= |x.rs|
  {
    && (forall e :: e in rx.events && e.kind == DataReceived ==> exists j :: 0 <= j < k && j != bad && e == x.Ev(j))
    && (forall s :: s in rx.reorder ==> exists j :: 0 <= j < k && j != bad && rx.reorder[s] == x.Pack(j))
  }

  lemma {:induction false} DrainNotFrom(x: Setting, rx: RxState, k: nat, bad: nat)
    requires k <= |x.rs| && NotFrom(x, rx, k, bad)
    ensures NotFrom(x, Rx.Drain(rx), k, bad)
    decreases |rx.reorder|
  {
    if rx.nextOrdered in rx.reorder {
      var rest := rx.reorder - {rx.nextOrdered};
      assert rest.Keys == rx.reorder.Keys - {rx.nextOrdered};
      assert |rest| == |rest.Keys| && |rx.reorder| == |rx.reorder.Keys|;
      var e := Rx.DataEvent(rx.reorder[rx.nextOrdered]);
      var j :| 0 <= j < k && j != bad && rx.reorder[rx.nextOrdered] == x.Pack(j);
      assert e == x.Ev(j);
      DrainNotFrom(x, Rx.Emit(rx, e).(reorder := rest, nextOrdered := Inc(rx.nextOrdered)), k, bad);
    }
  }

  lemma NotFromGrows(x: Setting, rx: RxState, k: nat, bad: nat)
    requires k < |x.rs| && NotFrom(x, rx, k, bad)
    ensures NotFrom(x, rx, k + 1, bad)
  {
    hide Add;
  }

  lemma DeliverNotFrom(x: Setting, rx: RxState, k: nat, bad: nat)
    requires x.Fits() && k < |x.rs| && k != bad && NotFrom(x, rx, k + 1, bad)
    ensures NotFrom(x, Rx.Deliver(rx, x.Pack(k)), k + 1, bad)
  {
    hide Add;
    assert Rx.DataEvent(x.Pack(k)) == x.Ev(k);
    if IsOrderedRequest(x.rs[k]) {
      var started := Rx.StartOrdered(rx, x.Num(k));
      DrainNotFrom(x, started.(reorder := started.reorder[x.Num(k) := x.Pack(k)]), k + 1, bad);
    }
  }

  lemma StepNotFrom(x: Setting, rx: RxState, k: nat, bad: nat)
    requires x.Fits() && k < |x.rs| && NotFrom(x, rx, k, bad)
    requires k == bad ==> !Rx.Arrive(rx, x.Num(k)).accepted
    ensures NotFrom(x, Rx.OnPacket(rx, x.Pack(k), KNone).rx, k + 1, bad)
  {
    hide Rx.Arrive, Rx.Deliver, Add;
    NotFromGrows(x, rx, k, bad);
    ArriveFrame(rx, x.Num(k));
    var arrived := Rx.Arrive(rx, x.Num(k)).rx;
    assert NotFrom(x, arrived, k + 1, bad);
    hide NotFrom;
    if k != bad { DeliverNotFrom(x, arrived, k, bad); }
  }

  lemma {:induction false} FedNotFrom(x: Setting, rx: RxState, k: nat, bad: nat)
    requires x.Fits() && k <= |x.rs| && NotFrom(x, rx, 0, bad)
    requires bad < k ==> !Rx.Arrive(Fed(x, rx, bad), x.Num(bad)).accepted
    ensures NotFrom(x, Fed(x, rx, k), k, bad)
  {
    hide NotFrom, Rx.OnPacket, Rx.Arrive, Add;
    if k > 0 {
      FedNotFrom(x, rx, k - 1, bad);
      StepNotFrom(x, Fed(x, rx, k - 1), k - 1, bad);
    }
  }

  /** The receiver of a server that has met SYN and ACK. */
  ghost predicate Ready(x: Setting, rx: RxState) {
    && rx == Rx.Arrive(INITIAL_RX.(nextExpected := Inc(x.clientIsn)), 0).rx.(events := rx.events)
    && forall e :: e in rx.events ==> e.kind != DataReceived
  }

  lemma ReadyBits(clientIsn: u32)
    ensures var bits := Rx.Arrive(INITIAL_RX.(nextExpected := Inc(clientIsn)), 0).rx.receivedBits;
      if clientIsn == 0xFFFF_FFFE then bits == 1 else bits % 2 == 0
  {
    ReadyWindow(clientIsn);
    if clientIsn < 0xFFFF_FFFE {
      hide Rx.Advance;
    }
  }

  lemma ReadyIsInTurn(x: Setting, rx: RxState)
    requires Ready(x, rx) && x.clientIsn < 0xFFFF_FFFE
    ensures InTurn(x, rx, 0)
  {
    ReadyWindow(x.clientIsn);
    ReadyBits(x.clientIsn);
    AddZero(x.clientIsn);
    AddInc(x.clientIsn, 0);
    hide Rx.Arrive, Add, Inc;
  }

  /** The number 0 is behind a front at 1. */
  lemma BehindOne(rx: RxState)
    requires rx.nextExpected == 1
    ensures !Rx.Arrive(rx, 0).accepted
  {
    hide Rx.Advance;
  }

  /** The front jumps over the number 0. */
  lemma JumpsOverZero(rx: RxState)
    requires rx.nextExpected == 0xFFFF_FFFF && rx.receivedBits == 1
    ensures Rx.Arrive(rx, 0xFFFF_FFFF) == Rx.RxResult(rx.(nextExpected := 1, receivedBits := 0), true, false)
  {
    AdvanceEffect(rx);
    assert TrailingOnes(1) == 1 && Shift(1, 1) == 0;
    hide Rx.Advance;
  }

  lemma SecondBehindOne(x: Setting, rx: RxState)
    requires x.Fits() && Ready(x, rx) && x.clientIsn == 0xFFFF_FFFE && 1 < |x.rs|
    ensures Fed(x, rx, 1).nextExpected == 1
  {
    ReadyWindow(x.clientIsn);
    ReadyBits(x.clientIsn);
    hide Rx.Arrive, Rx.Deliver;
    JumpsOverZero(rx);
    FirstDelivered(rx.(nextExpected := 1, receivedBits := 0), x.Pack(0));
    assert Fed(x, rx, 0) == rx;
  }

  /** With initial number 2^32 - 1 the first request is refused, with 2^32 - 2 the second. */
  lemma ZeroRefused(x: Setting, rx: RxState, bad: nat)
    requires x.Fits() && Ready(x, rx) && bad < |x.rs|
    requires (x.clientIsn == 0xFFFF_FFFF && bad == 0) || (x.clientIsn == 0xFFFF_FFFE && bad == 1)
    ensures !Rx.Arrive(Fed(x, rx, bad), x.Num(bad)).accepted
  {
    ReadyWindow(x.clientIsn);
    NothingFed(x, rx);
    hide Rx.Arrive, Fed;
    if bad == 1 { SecondBehindOne(x, rx); }
    BehindOne(Fed(x, rx, bad));
  }

  /** All requests have been handed out. */
  predicate AllOut(x: Setting, rx: RxState) { forall k :: 0 <= k < |x.rs| ==> x.Ev(k) in rx.events }

  /** What the client's initial number must not be. */
  predicate ClearOfZero(clientIsn: u32, n: nat) {
    (n >= 1 ==> clientIsn != 0xFFFF_FFFF) && (n >= 2 ==> clientIsn != 0xFFFF_FFFE)
  }

  lemma {:induction false} FedInTurn(x: Setting, rx: RxState, k: nat)
    requires x.Fits() && k <= |x.rs| && InTurn(x, rx, 0)
    ensures InTurn(x, Fed(x, rx, k), k)
  {
    hide InTurn, Rx.OnPacket;
    if k > 0 {
      FedInTurn(x, rx, k - 1);
      StepInTurn(x, Fed(x, rx, k - 1), k - 1);
    }
  }

  lemma InTurnDelivers(x: Setting, rx: RxState)
    requires x.Fits() && InTurn(x, rx, |x.rs|)
    ensures AllOut(x, rx) <==> Unbroken(x.rs)
  {
    hide RowOf, InRow, Add;
    UnbrokenIsOneRow(x.rs);
    forall k | 0 <= k < |x.rs| && x.Ev(k) in rx.events ensures InRow(x.rs, k) {
      var j :| 0 <= j < |x.rs| && InRow(x.rs, j) && x.Ev(k) == x.Ev(j);
      if j != k { NumsDiffer(x, j, k); }
    }
  }

  /** One request in turn to a receiver with one trailing bit. */
  lemma SingleDelivered(x: Setting, rx: RxState)
    requires x.Fits() && Ready(x, rx) && x.clientIsn == 0xFFFF_FFFE && |x.rs| == 1
    ensures AllOut(x, Fed(x, rx, 1))
  {
    ReadyWindow(x.clientIsn);
    ExpectedAccepted(rx);
    assert x.Num(0) == rx.nextExpected;
    hide Rx.Arrive, Rx.Deliver;
    FirstDelivered(Rx.Arrive(rx, rx.nextExpected).rx, x.Pack(0));
    assert Fed(x, rx, 0) == rx;
    assert Rx.DataEvent(x.Pack(0)) == x.Ev(0);
    assert x.Ev(0) in Fed(x, rx, 1).events;
  }

  lemma ReceiverDelivers(x: Setting, rx: RxState)
    requires x.Fits() && Ready(x, rx)
    ensures AllOut(x, Fed(x, rx, |x.rs|)) <==> Unbroken(x.rs) && ClearOfZero(x.clientIsn, |x.rs|)
  {
    var n := |x.rs|;
    if x.clientIsn < 0xFFFF_FFFE {
      hide Ready, Fed, InTurn, AllOut;
      ReadyIsInTurn(x, rx);
      FedInTurn(x, rx, n);
      InTurnDelivers(x, Fed(x, rx, n));
    } else if n == 1 && x.clientIsn == 0xFFFF_FFFE {
      SingleDelivered(x, rx);
    } else if n > 0 {
      var bad := if x.clientIsn == 0xFFFF_FFFF then 0 else 1;
      ReadyWindow(x.clientIsn);
      hide Rx.Arrive;
      assert NotFrom(x, rx, 0, bad);
      hide Ready, Fed;
      ZeroRefused(x, rx, bad);
      FedNotFrom(x, rx, n, bad);
      BadIsMissing(x, Fed(x, rx, n), bad);
    }
  }

  lemma BadIsMissing(x: Setting, rx: RxState, bad: nat)
    requires x.Fits() && bad < |x.rs| && NotFrom(x, rx, |x.rs|, bad)
    ensures x.Ev(bad) !in rx.events
  {
    hide Add;
    if x.Ev(bad) in rx.events {
      var j :| 0 <= j < |x.rs| && j != bad && x.Ev(bad) == x.Ev(j);
      NumsDiffer(x, j, bad);
    }
  }

  // ----- the whole exchange -----

  /** The client queues and sends the requests one by one at `now`; the `k`-th arrives at `heard(k)`. */
  function SendAll(cfg: Config, pair: Pair, rs: seq<SendRequest>, now: nat, heard: nat -> nat): Pair {
    if rs == [] then pair
    else
      var n := |rs| - 1;
      var before := SendAll(cfg, pair, rs[..n], now, heard);
      var polled := PollTx(cfg, QueueSend(before.client, rs[n]), now);
      Pair(polled.session, Take(cfg, before.server, polled.outcome, heard(n)))
  }

  /** The client has the first `k` requests in flight, and the server's receiver has been fed them. */
  ghost predicate Underway(x: Setting, pair: Pair, rx: RxState, t: Times, k: nat)
    requires k <= |x.rs|
  {
    && Flying(pair.client, x.clientIsn, x.serverIsn, x.id, t.synAckHeard, t.request, k)
    && pair.server.role == Server && pair.server.connId == x.id && pair.server.conn == Established
    && pair.server.rx == Fed(x, rx, k)
  }

  lemma NextUnderway(cfg: Config, x: Setting, before: Pair, rx: RxState, t: Times, heard: nat, k: nat)
    requires x.Fits() && k < |x.rs| && Rests(cfg) && Prompt(cfg, t.synAckHeard, t.request)
    requires Underway(x, before, rx, t, k)
    ensures var polled := PollTx(cfg, QueueSend(before.client, x.rs[k]), t.request);
      Underway(x, Pair(polled.session, Take(cfg, before.server, polled.outcome, heard)), rx, t, k + 1)
  {
    hide PollTx, Take, OnPacket, Flying, Rx.OnPacket, Encode;
    var p := x.Pack(k);
    RequestGoesOut(cfg, before.client, x.clientIsn, x.serverIsn, x.id, x.rs[k], t.synAckHeard, t.request, k);
    TakeSent(cfg, before.server, p, Tx.Fresh, heard);
    DataReaches(cfg, before.server, p, |Encode(p)|, heard);
  }

  lemma {:induction false} BurstUnderway(cfg: Config, x: Setting, pair: Pair, t: Times, heard: nat -> nat, k: nat)
    requires x.Fits() && k <= |x.rs| && Rests(cfg) && Prompt(cfg, t.synAckHeard, t.request)
    requires Underway(x, pair, pair.server.rx, t, 0)
    ensures Underway(x, SendAll(cfg, pair, x.rs[..k], t.request, heard), pair.server.rx, t, k)
    decreases k
  {
    hide PollTx, Take, Underway;
    if k > 0 {
      BurstUnderway(cfg, x, pair, t, heard, k - 1);
      assert x.rs[..k][..k - 1] == x.rs[..k - 1];
      var before := SendAll(cfg, pair, x.rs[..k - 1], t.request, heard);
      NextUnderway(cfg, x, before, pair.server.rx, t, heard(k - 1), k - 1);
    }
  }

  /**
   * At most a window of reliable requests, sent after a handshake and delivered in order without loss. All of them are
   * handed out if and only if the ordered ones are not interrupted, the client's initial number is not
   * 2^32 - 1, and it is not 2^32 - 2 when there are two or more.
   */
  lemma BurstDelivered(cfg: Config, x: Setting, t: Times, heard: nat -> nat)
    requires x.Fits() && x.id != 0 && Rests(cfg)
    requires Prompt(cfg, t.synAckHeard, t.ack) && Prompt(cfg, t.synAckHeard, t.request)
    ensures var pair := Shake(cfg, x.clientIsn, x.serverIsn, x.id, t);
      var sent := SendAll(cfg, pair, x.rs, t.request, heard);
      (forall k :: 0 <= k < |x.rs| ==> Delivered(sent.server, Add(x.clientIsn, 1 + k), x.rs[k])) <==>
        Unbroken(x.rs) && ClearOfZero(x.clientIsn, |x.rs|)
  {
    hide Shake, Rx.Arrive, Fed, Flying, Unbroken, ServerReady, ClientReady, SendAll;
    ShakeEstablishes(cfg, x.clientIsn, x.serverIsn, x.id, t);
    var pair := Shake(cfg, x.clientIsn, x.serverIsn, x.id, t);
    ReadyFacts(pair, x.clientIsn, x.serverIsn, x.id, t);
    ReadyFlies(pair.client, x.clientIsn, x.serverIsn, x.id, t.synAckHeard, t.request);
    NothingFed(x, pair.server.rx);
    BurstUnderway(cfg, x, pair, t, heard, |x.rs|);
    assert x.rs[..|x.rs|] == x.rs;
    ReceiverDelivers(x, pair.server.rx);
    var sent := SendAll(cfg, pair, x.rs, t.request, heard);
    assert forall k :: 0 <= k < |x.rs| ==>
      (Delivered(sent.server, Add(x.clientIsn, 1 + k), x.rs[k]) <==> x.Ev(k) in sent.server.rx.events);
  }

  lemma NothingFed(x: Setting, rx: RxState)
    ensures Fed(x, rx, 0) == rx
  {
  }
}
