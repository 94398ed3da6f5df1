/**
 * The receive window against the set of numbers that have really arrived.
 *
 * The front and the bitmap describe that set only conditionally: when the expected number fills
 * a gap while a second gap is open, the bitmap is shifted one position too little, and every
 * remaining bit then names the number after the one that arrived. The condition is exact, and in
 * the runs that meet it the acknowledgement fields are truthful and unordered packets are
 * delivered at most once.
 */
module RxWindow {
  import opened Protocol
  import opened Bits
  import opened SessionTypes
  import opened ConnectionStateMachine
  import opened RxSpec
  import opened TxSpec

  // ----- indices -----

  /** The 32-bit number of an unbounded index. */
  function Number(n: nat): u32 { Add(0, n) }

  /** How far an arriving number is ahead of the front; the numbers behind the front are far ahead. */
  function Ahead(rx: RxState, s: u32): u32 { Diff(s, rx.nextExpected) }

  lemma NumberAhead(n: nat, d: nat)
    requires d < 0x1_0000_0000
    ensures Diff(Number(n + d), Number(n)) == d
  {
    AddDiff(0, n, n + d);
  }

  lemma NumberPlus(n: nat, d: nat)
    ensures Add(Number(n), d) == Number(n + d)
  {
  }

  /** Whatever is at most 2^32 - 65 behind the front is not within 64 ahead of it. */
  lemma NumberBehind(n: nat, d: nat)
    requires n <= d < n + 0x1_0000_0000 - 64
    ensures n < d ==> Diff(Number(n), Number(d)) > 64
  {
    if n < d {
      NumberAhead(n, d - n);
    }
  }

  /**
   * `front` is the index of the expected number, and front and bitmap say of every index from `base` on
   * whether it is in `got`.
   */
  ghost predicate Agree(rx: RxState, front: nat, base: nat, got: set<nat>) {
    && rx.nextExpected == Number(front) && base <= front
    && (forall n :: base <= n < front ==> n in got)
    && front !in got
    && (forall b: nat :: b < 64 ==> (Bit(rx.receivedBits, b) <==> front + 1 + b in got))
    && (forall n :: n in got ==> base <= n <= front + 64)
  }

  lemma {:induction false} AdvanceLoopEffect(rx: RxState)
    ensures AdvanceLoop(rx) == rx.(
      nextExpected := Add(rx.nextExpected, TrailingOnes(rx.receivedBits)),
      receivedBits := Shift(rx.receivedBits, TrailingOnes(rx.receivedBits)))
    decreases rx.receivedBits
  {
    hide Add;
    AddZero(rx.nextExpected);
    if rx.receivedBits % 2 == 1 {
      AddOfInc(rx.nextExpected, TrailingOnes(rx.receivedBits / 2));
      AdvanceLoopEffect(rx.(nextExpected := Inc(rx.nextExpected), receivedBits := rx.receivedBits / 2));
    }
  }

  lemma AdvanceEffect(rx: RxState)
    ensures Advance(rx) == rx.(
      nextExpected := Add(rx.nextExpected, 1 + TrailingOnes(rx.receivedBits)),
      receivedBits := Shift(rx.receivedBits, TrailingOnes(rx.receivedBits)))
  {
    hide Add;
    AddOfInc(rx.nextExpected, TrailingOnes(rx.receivedBits));
    AdvanceLoopEffect(rx.(nextExpected := Inc(rx.nextExpected)));
  }

  // ----- one arrival -----

  /** The indices recorded once the number `s` has arrived. */
  function Recorded(rx: RxState, front: nat, got: set<nat>, s: u32): set<nat> {
    if Ahead(rx, s) <= 64 then got + {front + Ahead(rx, s)} else got
  }

  /** The index of the expected number once the number `s` has arrived. */
  function NextFront(rx: RxState, front: nat, s: u32): nat {
    if s == rx.nextExpected then front + 1 + TrailingOnes(rx.receivedBits) else front
  }

  /** The bitmap is 2^k - 1: its ones all trail. */
  ghost predicate OnesTrail(bits: u64) { exists k: nat :: bits == Pow2(k) - 1 }

  /**
   * If the arrival is the expected number then the ones of the bitmap all trail; and a front at number 0 is met
   * by that number, or by the number before it while the number after it is missing.
   */
  ghost predicate Harmless(rx: RxState, s: u32) {
    if rx.nextExpected == 0 && s != 0 then s == 0xFFFF_FFFF && rx.receivedBits % 2 == 0
    else s == rx.nextExpected ==> OnesTrail(rx.receivedBits)
  }

  /** Some front makes the window agree, whether or not the index `n` counts as received. */
  ghost predicate Agreeable(rx: RxState, base: nat, got: set<nat>, n: nat) {
    exists front :: Agree(rx, front, base, got) || Agree(rx, front, base, got + {n})
  }

  /**
   * Out-of-order, duplicate, stale and out-of-window arrivals always keep the agreement, and the
   * packet is processed exactly when its index is new and fits the window.
   */
  lemma OtherArrivalAgrees(rx: RxState, front: nat, base: nat, got: set<nat>, s: u32)
    requires Agree(rx, front, base, got) && s != rx.nextExpected && rx.nextExpected != 0
    ensures var r := Arrive(rx, s);
      && Agree(r.rx, front, base, Recorded(rx, front, got, s))
      && (r.accepted <==> Ahead(rx, s) <= 64 && front + Ahead(rx, s) !in got)
  {
    hide Add;
    var rx', delta := Arrive(rx, s).rx, Ahead(rx, s);
    if delta <= 64 {
      assert rx' == rx.(receivedBits := SetReceived(rx.receivedBits, delta));
      forall b: nat | b < 64
        ensures Bit(rx'.receivedBits, b) <==> front + 1 + b in got + {front + delta}
      {
        SetBitBit(rx.receivedBits, delta - 1, b);
      }
    } else {
      assert rx' == rx;
    }
  }

  lemma OnesTrailShift(bits: u64)
    ensures OnesTrail(bits) <==> Shift(bits, TrailingOnes(bits)) == 0
  {
    AllOnesTrail(bits);
    if k: nat :| bits == Pow2(k) - 1 {
      PowMinusOneTrails(k);
    }
  }

  /** `rx'` is the window after the expected number arrived: the bitmap is shifted by one less than the front. */
  ghost predicate Advanced(rx: RxState, rx': RxState, front: nat, front': nat, got: set<nat>) {
    var k := TrailingOnes(rx.receivedBits);
    && front' == front + 1 + k && rx'.nextExpected == Number(front') && rx'.receivedBits == Shift(rx.receivedBits, k)
    && (forall b: nat :: Bit(rx'.receivedBits, b) <==> b < 64 && front' + b in got)
    && (forall n :: front < n < front' ==> n in got)
    && front' !in got
  }

  lemma ExpectedEffect(rx: RxState, front: nat, base: nat, got: set<nat>)
    requires Agree(rx, front, base, got)
    ensures var r := Arrive(rx, rx.nextExpected);
      r.accepted && Advanced(rx, r.rx, front, NextFront(rx, front, rx.nextExpected), got)
  {
    var bits := rx.receivedBits;
    var k := TrailingOnes(bits);
    var front' := front + 1 + k;
    var r := Arrive(rx, rx.nextExpected);
    AdvanceEffect(rx);
    NumberPlus(front, 1 + k);
    Pow2_64();
    TrailingOnesBound(bits, 64);
    TrailingOnesBits(bits);
    hide Add, Number, TrailingOnes, Shift, Pow2, Advance;
    forall b: nat ensures Bit(r.rx.receivedBits, b) <==> b < 64 && front' + b in got {
      ShiftBit(bits, k, b);
      if b + k >= 64 {
        HighBitsClear(bits, 64, b + k);
      } else {
        assert front + 1 + (b + k) == front' + b;
      }
    }
    forall n | front < n < front' ensures n in got {
      assert Bit(bits, n - front - 1);
      assert front + 1 + (n - front - 1) == n;
    }
    assert !Bit(bits, k);
    if k < 64 { assert front + 1 + k == front'; }
  }

  /**
   * The expected arrival: each bit left in the bitmap names the index after one that arrived,
   * and the agreement survives exactly when no bit is left.
   */
  lemma ExpectedArrival(rx: RxState, front: nat, base: nat, got: set<nat>)
    requires Agree(rx, front, base, got)
    ensures var r := Arrive(rx, rx.nextExpected);
      var front' := NextFront(rx, front, rx.nextExpected);
      && r.accepted
      && (forall b: nat :: Bit(r.rx.receivedBits, b) ==> front' + b in got)
      && (Agree(r.rx, front', base, got + {front}) <==> OnesTrail(rx.receivedBits))
  {
    var r, front' := Arrive(rx, rx.nextExpected), NextFront(rx, front, rx.nextExpected);
    ExpectedEffect(rx, front, base, got);
    OnesTrailShift(rx.receivedBits);
    hide Number, Arrive, TrailingOnes, Shift, NextFront, OnesTrail;
    if r.rx.receivedBits == 0 {
      forall n | n in got ensures n < front' {
        var b := if n < front' then 0 else n - front';
        ZeroBit(b);
      }
      forall b: nat ensures !Bit(0, b) { ZeroBit(b); }
    } else {
      var lie := LeftoverLies(rx, r.rx, front, front', base, got);
      assert front' + 1 + (lie - front' - 1) == lie;
    }
  }

  /** What acknowledgement fields say, less than 2^31 around their front: all before it, and the set bits after it. */
  lemma AckMeaning(front: nat, n: nat, bits: u64)
    requires -0x8000_0000 < n - front < 0x8000_0000
    ensures IsAcked(Number(n), Number(front), bits) <==>
      n < front || (front < n <= front + 64 && Bit(bits, n - front - 1))
  {
    hide Bit, Number;
    if n < front { NumberAhead(n, front - n); } else { NumberAhead(front, n - front); }
  }

  /** Every index that the acknowledgement fields report, from `base` on, is in `got`. */
  ghost predicate Truthful(rx: RxState, front: nat, base: nat, got: set<nat>) {
    forall n: nat :: base <= n <= front + 64 && IsAcked(Number(n), rx.nextExpected, rx.receivedBits) ==> n in got
  }

  /** No second copy of a recorded number is processed. */
  ghost predicate RepeatsRefused(rx: RxState, got: set<nat>) {
    forall n :: n in got ==> !Arrive(rx, Number(n)).accepted
  }

  lemma AgreeIsTruthful(rx: RxState, front: nat, base: nat, got: set<nat>)
    requires Agree(rx, front, base, got)
    ensures Truthful(rx, front, base, got)
  {
    hide Number;
    forall n: nat | base <= n <= front + 64 && IsAcked(Number(n), rx.nextExpected, rx.receivedBits) ensures n in got {
      if n >= front {
        NumberAhead(front, n - front);
        assert front + 1 + (n - front - 1) == n;
      }
    }
  }

  lemma AgreeRefusesRepeats(rx: RxState, front: nat, base: nat, got: set<nat>)
    requires Agree(rx, front, base, got) && rx.nextExpected != 0 && front + 64 < base + 0x1_0000_0000
    ensures RepeatsRefused(rx, got)
  {
    hide Number, Arrive;
    forall n | n in got ensures !Arrive(rx, Number(n)).accepted {
      if n < front {
        NumberBehind(n, front);
      } else {
        NumberAhead(front, n - front);
      }
      OtherArrivalAgrees(rx, front, base, got, Number(n));
    }
  }

  /** A bit is left: the highest one reports an index that did not arrive. */
  lemma LeftoverLies(rx: RxState, rx': RxState, front: nat, front': nat, base: nat, got: set<nat>) returns (lie: nat)
    requires Agree(rx, front, base, got) && Advanced(rx, rx', front, front', got) && rx'.receivedBits != 0
    ensures front' < lie <= front' + 64 && lie !in got && Bit(rx'.receivedBits, lie - front' - 1)
    ensures IsAcked(Number(lie), rx'.nextExpected, rx'.receivedBits)
  {
    hide Number, TrailingOnes, Shift;
    HighestBitIsSet(rx'.receivedBits);
    HighestBitOfWord(rx'.receivedBits);
    var h := HighestBit(rx'.receivedBits);
    lie := front' + 1 + h;
    assert !Bit(rx'.receivedBits, h + 1);
    NumberAhead(front', 1 + h);
  }

  /** A bit is left: the number before the one that the lowest bit names is processed again. */
  lemma LeftoverRepeats(rx': RxState, front': nat, got: set<nat>) returns (again: nat)
    requires rx'.receivedBits != 0 && rx'.nextExpected == Number(front') && front' !in got
    requires forall b: nat :: Bit(rx'.receivedBits, b) <==> b < 64 && front' + b in got
    ensures again in got && Arrive(rx', Number(again)).accepted
  {
    hide Number, Advance, SetReceived;
    var low := LowestBit(rx'.receivedBits);
    again := front' + low;
    NumberAhead(front', low);
  }

  /**
   * After the expected arrival, the acknowledgement fields are truthful if and only if the ones of the bitmap
   * trailed; and repeats are refused if and only if they did and the front is not at number 0.
   */
  lemma ExpectedArrivalExact(rx: RxState, front: nat, base: nat, got: set<nat>)
    requires Agree(rx, front, base, got)
    ensures var r, front' := Arrive(rx, rx.nextExpected), NextFront(rx, front, rx.nextExpected);
      && (Truthful(r.rx, front', base, got + {front}) <==> OnesTrail(rx.receivedBits))
      && (front' + 64 < base + 0x1_0000_0000 ==>
            (RepeatsRefused(r.rx, got + {front}) <==> OnesTrail(rx.receivedBits) && r.rx.nextExpected != 0))
  {
    var r, front' := Arrive(rx, rx.nextExpected), NextFront(rx, front, rx.nextExpected);
    ExpectedArrival(rx, front, base, got);
    ExpectedEffect(rx, front, base, got);
    OnesTrailShift(rx.receivedBits);
    if OnesTrail(rx.receivedBits) {
      AgreeIsTruthful(r.rx, front', base, got + {front});
      if r.rx.nextExpected == 0 {
        assert front in got + {front} && Arrive(r.rx, Number(front)).accepted;
      } else if front' + 64 < base + 0x1_0000_0000 {
        AgreeRefusesRepeats(r.rx, front', base, got + {front});
      }
    } else {
      hide Arrive, Number, NextFront, OnesTrail;
      var lie := LeftoverLies(rx, r.rx, front, front', base, got);
      assert lie !in got + {front};
      var again := LeftoverRepeats(r.rx, front', got);
      assert again in got + {front};
    }
  }

  /** Indices with the same number are equal or at least 2^32 apart. */
  lemma SameNumber(m: nat, n: nat)
    requires Number(m) == Number(n) && m < n
    ensures n >= m + 0x1_0000_0000
  {
    hide Number;
    if n < m + 0x1_0000_0000 {
      NumberAhead(m, n - m);
    }
  }

  /** With a bit left, no front makes the window agree. */
  lemma LeftoverDisagrees(rx: RxState, rx': RxState, front: nat, front': nat, base: nat, got: set<nat>, f: nat)
    requires Agree(rx, front, base, got) && Advanced(rx, rx', front, front', got) && rx'.receivedBits != 0
    requires front + 64 < base + 0x1_0000_0000
    ensures !Agree(rx', f, base, got) && !Agree(rx', f, base, got + {front})
  {
    hide Number, TrailingOnes, Shift;
    var lie := LeftoverLies(rx, rx', front, front', base, got);
    var b := lie - front' - 1;
    assert front' + b in got && front' + 1 + b == lie;
    if rx'.nextExpected == Number(f) && f != front' {
      if f < front' { SameNumber(f, front'); } else { SameNumber(front', f); }
    }
  }

  /** A front at number 0 takes any other number for the first one. */
  lemma ZeroFrontDisagrees(rx: RxState, front: nat, base: nat, got: set<nat>, s: u32, f: nat)
    requires Agree(rx, front, base, got) && rx.nextExpected == 0 && s != 0 && !Harmless(rx, s)
    ensures !Agree(Arrive(rx, s).rx, f, base, got) && !Agree(Arrive(rx, s).rx, f, base, got + {front + s})
  {
    var rx', k := Arrive(rx, s).rx, TrailingOnes(rx.receivedBits);
    AdvanceEffect(rx.(nextExpected := s));
    assert front + s in got + {front + s} && front !in got + {front + s};
    if f == front && rx'.nextExpected == 0 {
      Pow2_64();
      TrailingOnesBound(rx.receivedBits, 64);
      assert s == 0xFFFF_FFFF - k && k > 0;
      ShiftedBitmapDiffers(rx.receivedBits);
      var h := HighestBit(rx.receivedBits);
      assert Bit(rx.receivedBits, h) && !Bit(rx'.receivedBits, h) && front + 1 + h in got;
    }
  }

  lemma ShiftedBitmapDiffers(bits: u64)
    requires TrailingOnes(bits) > 0
    ensures bits > 0 && HighestBit(bits) <= 63
    ensures Bit(bits, HighestBit(bits)) && !Bit(Shift(bits, TrailingOnes(bits)), HighestBit(bits))
  {
    HighestBitOfWord(bits);
    HighestBitIsSet(bits);
    ShiftBit(bits, TrailingOnes(bits), HighestBit(bits));
  }

  /** The number before a front at 0 is processed again, and leaves the window as it is. */
  lemma StaleCopyAtZero(rx: RxState)
    requires rx.nextExpected == 0 && rx.receivedBits % 2 == 0
    ensures Arrive(rx, 0xFFFF_FFFF) == RxResult(rx, true, false)
  {
    AdvanceEffect(rx.(nextExpected := 0xFFFF_FFFF));
  }

  /** A harmless arrival keeps the agreement, with the front and the indices that its number calls for. */
  lemma HarmlessAgrees(rx: RxState, front: nat, base: nat, got: set<nat>, s: u32)
    requires Agree(rx, front, base, got) && Harmless(rx, s)
    ensures Agree(Arrive(rx, s).rx, NextFront(rx, front, s), base, Recorded(rx, front, got, s))
  {
    hide Number, Arrive;
    if s == rx.nextExpected {
      ExpectedArrival(rx, front, base, got);
      assert got + {front + 0} == got + {front};
    } else if rx.nextExpected == 0 {
      StaleCopyAtZero(rx);
    } else {
      OtherArrivalAgrees(rx, front, base, got, s);
    }
  }

  /** After one arrival of any number, some front makes the window agree if and only if the arrival is harmless. */
  lemma ArrivalAgrees(rx: RxState, front: nat, base: nat, got: set<nat>, s: u32)
    requires Agree(rx, front, base, got) && front + 64 < base + 0x1_0000_0000
    ensures Agreeable(Arrive(rx, s).rx, base, got, front + Ahead(rx, s)) <==> Harmless(rx, s)
  {
    hide Number, Arrive;
    var rx' := Arrive(rx, s).rx;
    if Harmless(rx, s) {
      HarmlessAgrees(rx, front, base, got, s);
    } else if Agreeable(rx', base, got, front + Ahead(rx, s)) {
      var f :| Agree(rx', f, base, got) || Agree(rx', f, base, got + {front + Ahead(rx, s)});
      if s == rx.nextExpected {
        ExpectedEffect(rx, front, base, got);
        OnesTrailShift(rx.receivedBits);
        LeftoverDisagrees(rx, rx', front, NextFront(rx, front, s), base, got, f);
      } else {
        ZeroFrontDisagrees(rx, front, base, got, s, f);
      }
    }
  }

  /** The number stands for a recorded index. */
  ghost predicate IsRecorded(got: set<nat>, s: u32) { exists n :: n in got && Number(n) == s }

  /** A number that was recorded is processed again if and only if it meets a front at number 0. */
  lemma RepeatsExact(rx: RxState, front: nat, base: nat, got: set<nat>, s: u32)
    requires Agree(rx, front, base, got) && front + 64 < base + 0x1_0000_0000 && IsRecorded(got, s)
    ensures Arrive(rx, s).accepted <==> rx.nextExpected == 0
  {
    hide Number;
    if rx.nextExpected != 0 {
      AgreeRefusesRepeats(rx, front, base, got);
    }
  }

  // ----- runs of the receiver -----

  /** The receiver with the index it expects, the first tracked index and the set of recorded indices. */
  datatype RxRun = RxRun(rx: RxState, front: nat, base: nat, got: set<nat>)

  /** The first tracked number is taken as its own index. */
  ghost function Record(run: RxRun, rx': RxState, s: u32): RxRun {
    if run.got == {} then RxRun(rx', s + 1, s, {s})
    else RxRun(rx', NextFront(run.rx, run.front, s), run.base, Recorded(run.rx, run.front, run.got, s))
  }

  ghost function Receive(run: RxRun, p: Packet): RxRun {
    var kind := Classify(p.header.flags);
    var rx' := OnPacket(run.rx, p, kind).rx;
    if TracksSequence(p.header, kind) then Record(run, rx', p.header.seqNo) else run.(rx := rx')
  }

  /** The arrival of the number `s` is harmless or the first, and fewer than 2^32 indices are in play. */
  ghost predicate CleanArrival(run: RxRun, s: u32) {
    && (run.got != {} ==> Harmless(run.rx, s))
    && var run' := Record(run, run.rx, s); run'.front + 64 < run'.base + 0x1_0000_0000
  }

  ghost predicate Clean(run: RxRun, p: Packet) {
    TracksSequence(p.header, Classify(p.header.flags)) ==> CleanArrival(run, p.header.seqNo)
  }

  const NOTHING_RECEIVED := RxRun(INITIAL_RX, 0, 0, {})

  ghost function ReceiveAll(ps: seq<Packet>): RxRun
    decreases |ps|
  {
    if ps == [] then NOTHING_RECEIVED
    else Receive(ReceiveAll(ps[..|ps| - 1]), ps[|ps| - 1])
  }

  ghost predicate CleanRun(ps: seq<Packet>) {
    forall i :: 0 <= i < |ps| ==> Clean(ReceiveAll(ps[..i]), ps[i])
  }

  /** A tracked packet that meets a front at number 0 has not been recorded before. */
  ghost predicate FirstCopy(run: RxRun, p: Packet) {
    TracksSequence(p.header, Classify(p.header.flags)) && run.rx.nextExpected == 0 ==>
      !IsRecorded(run.got, p.header.seqNo)
  }

  ghost predicate FirstCopies(ps: seq<Packet>) {
    forall i :: 0 <= i < |ps| ==> FirstCopy(ReceiveAll(ps[..i]), ps[i])
  }

  predicate IsUnordered(e: Event) {
    e.kind == DataReceived && e.channelType == RELIABLE_UNORDERED
  }

  predicate BuffersOrdered(rx: RxState) {
    forall s :: s in rx.reorder ==> rx.reorder[s].header.channelType == RELIABLE_ORDERED
  }

  /** No two unordered deliveries carry the same number. */
  predicate DeliveredOnce(events: seq<Event>) {
    forall i, j :: 0 <= i < j < |events| && IsUnordered(events[i]) && IsUnordered(events[j]) ==>
      events[i].seqNo != events[j].seqNo
  }

  /** The window part of the invariant. */
  ghost predicate InStep(run: RxRun) {
    if run.got == {} then run.rx.nextExpected == 0 && run.rx.receivedBits == 0
    else
      && Agree(run.rx, run.front, run.base, run.got)
      && run.base < run.front && run.base < 0x1_0000_0000 && run.front + 64 < run.base + 0x1_0000_0000
  }

  ghost predicate RxInv(run: RxRun) { BuffersOrdered(run.rx) && InStep(run) }

  /** Unordered deliveries have distinct numbers, all of them recorded. */
  ghost predicate OnceInv(run: RxRun) {
    && DeliveredOnce(run.rx.events)
    && (forall e :: e in run.rx.events && IsUnordered(e) ==> IsRecorded(run.got, e.seqNo))
  }

  lemma {:induction false} DrainDelivers(rx: RxState)
    requires BuffersOrdered(rx)
    ensures var d := Drain(rx);
      && BuffersOrdered(d) && rx.events <= d.events
      && d.nextExpected == rx.nextExpected && d.receivedBits == rx.receivedBits
      && forall i :: |rx.events| <= i < |d.events| ==> !IsUnordered(d.events[i])
    decreases |rx.reorder|
  {
    if rx.nextOrdered in rx.reorder {
      var rest := rx.reorder - {rx.nextOrdered};
      assert rest.Keys == rx.reorder.Keys - {rx.nextOrdered};
      assert |rest| == |rest.Keys| && |rx.reorder| == |rx.reorder.Keys|;
      var e := DataEvent(rx.reorder[rx.nextOrdered]);
      DrainDelivers(Emit(rx, e).(reorder := rest, nextOrdered := Inc(rx.nextOrdered)));
    }
  }

  /** Delivery leaves the window alone and emits an unordered event only for an unordered packet. */
  lemma DeliverEffect(rx: RxState, p: Packet)
    requires BuffersOrdered(rx)
    ensures var d := Deliver(rx, p);
      && BuffersOrdered(d) && rx.events <= d.events
      && d.nextExpected == rx.nextExpected && d.receivedBits == rx.receivedBits
      && forall i :: |rx.events| <= i < |d.events| && IsUnordered(d.events[i]) ==>
        i == |rx.events| && p.header.channelType == RELIABLE_UNORDERED && d.events[i].seqNo == p.header.seqNo
  {
    if p.header.channelType == RELIABLE_ORDERED {
      var started := StartOrdered(rx, p.header.seqNo);
      DrainDelivers(started.(reorder := started.reorder[p.header.seqNo := p]));
    }
  }

  lemma ArriveFrame(rx: RxState, s: u32)
    ensures var r := Arrive(rx, s).rx; r == rx.(nextExpected := r.nextExpected, receivedBits := r.receivedBits)
  {
    AdvanceEffect(if rx.nextExpected == 0 then rx.(nextExpected := s) else rx);
  }

  /** The window part of a step. */
  lemma ArriveClean(run: RxRun, s: u32)
    requires InStep(run) && CleanArrival(run, s)
    ensures var run' := Record(run, Arrive(run.rx, s).rx, s);
      InStep(run') && run'.got != {} && run.got <= run'.got
  {
    if run.got == {} {
      AdvanceEffect(run.rx.(nextExpected := s));
      forall b: nat ensures !Bit(0, b) { ZeroBit(b); }
      assert Number(s) == s && Number(s + 1) == Inc(s);
    } else {
      hide Arrive, Number;
      HarmlessAgrees(run.rx, run.front, run.base, run.got, s);
    }
  }

  /** A number that meets a front at 0 for the first time, harmlessly, is 0 or the first of all. */
  lemma FirstAtZero(run: RxRun, s: u32)
    requires InStep(run) && CleanArrival(run, s) && run.rx.nextExpected == 0 && run.got != {}
    requires !IsRecorded(run.got, s)
    ensures s == 0
  {
    assert run.front - 1 in run.got && Number(run.front - 1) == 0xFFFF_FFFF;
  }

  /** What is accepted was not recorded before and is now, unless a recorded number meets a front at 0. */
  lemma AcceptedIsNew(run: RxRun, s: u32)
    requires InStep(run) && CleanArrival(run, s) && Arrive(run.rx, s).accepted
    requires run.rx.nextExpected == 0 ==> !IsRecorded(run.got, s)
    ensures !IsRecorded(run.got, s) && IsRecorded(Record(run, run.rx, s).got, s)
  {
    hide Number;
    if run.got == {} {
      NumberOf(s);
      assert s in Record(run, run.rx, s).got;
    } else {
      if IsRecorded(run.got, s) { RepeatsExact(run.rx, run.front, run.base, run.got, s); }
      if run.rx.nextExpected == 0 {
        FirstAtZero(run, s);
      } else if s != run.rx.nextExpected {
        OtherArrivalAgrees(run.rx, run.front, run.base, run.got, s);
      }
      hide Arrive;
      AheadNumber(run.rx, run.front, s);
      assert run.front + Ahead(run.rx, s) in Record(run, run.rx, s).got;
    }
  }

  lemma NumberOf(s: u32)
    ensures Number(s) == s
  {
  }

  lemma AheadNumber(rx: RxState, front: nat, s: u32)
    requires rx.nextExpected == Number(front)
    ensures Number(front + Ahead(rx, s)) == s
  {
    NumberPlus(front, Ahead(rx, s));
  }

  lemma ReceiveKeeps(run: RxRun, p: Packet)
    requires RxInv(run) && Clean(run, p)
    ensures RxInv(Receive(run, p))
  {
    hide Classify, Number, Deliver, Arrive, CleanArrival;
    if TracksSequence(p.header, Classify(p.header.flags)) {
      var r := Arrive(run.rx, p.header.seqNo);
      ArriveFrame(run.rx, p.header.seqNo);
      DeliverEffect(r.rx, p);
      ArriveClean(run, p.header.seqNo);
      var run' := Receive(run, p);
      assert run'.rx.nextExpected == r.rx.nextExpected && run'.rx.receivedBits == r.rx.receivedBits;
    } else {
      DeliverEffect(run.rx, p);
    }
  }

  lemma ReceiveOnce(run: RxRun, p: Packet)
    requires RxInv(run) && OnceInv(run) && Clean(run, p) && FirstCopy(run, p)
    ensures OnceInv(Receive(run, p))
  {
    hide Classify, Number, Deliver, Arrive, CleanArrival, IsRecorded, InStep;
    var run', s := Receive(run, p), p.header.seqNo;
    if TracksSequence(p.header, Classify(p.header.flags)) {
      var r := Arrive(run.rx, s);
      ArriveFrame(run.rx, s);
      DeliverEffect(r.rx, p);
      ArriveClean(run, s);
      if r.accepted { AcceptedIsNew(run, s); }
      EventsStay(run, run', p);
    } else {
      DeliverEffect(run.rx, p);
      assert !IsReliableChannel(p.header.channelType);
    }
  }

  lemma EventsStay(run: RxRun, run': RxRun, p: Packet)
    requires DeliveredOnce(run.rx.events) && run.rx.events <= run'.rx.events
    requires forall e :: e in run.rx.events && IsUnordered(e) ==> IsRecorded(run.got, e.seqNo)
    requires run.got <= run'.got
    requires forall i :: |run.rx.events| <= i < |run'.rx.events| && IsUnordered(run'.rx.events[i]) ==>
      && i == |run.rx.events| && run'.rx.events[i].seqNo == p.header.seqNo
      && !IsRecorded(run.got, p.header.seqNo) && IsRecorded(run'.got, p.header.seqNo)
    ensures DeliveredOnce(run'.rx.events)
    ensures forall e :: e in run'.rx.events && IsUnordered(e) ==> IsRecorded(run'.got, e.seqNo)
  {
    hide Number;
    assert forall s :: IsRecorded(run.got, s) ==> IsRecorded(run'.got, s);
    hide IsRecorded;
  }

  /** The `i`-th packet is tracked, has the number of index `n`, and was accepted when it arrived. */
  ghost predicate AcceptedAt(ps: seq<Packet>, i: nat, n: nat) {
    && i < |ps| && ps[i].header.seqNo == Number(n) && TracksSequence(ps[i].header, Classify(ps[i].header.flags))
    && Arrive(ReceiveAll(ps[..i]).rx, ps[i].header.seqNo).accepted
  }

  ghost predicate Arrived(ps: seq<Packet>, n: nat) { exists i: nat :: AcceptedAt(ps, i, n) }

  lemma ArrivedStays(ps: seq<Packet>, ps': seq<Packet>, n: nat)
    requires Arrived(ps, n) && ps <= ps'
    ensures Arrived(ps', n)
  {
    hide Number, Classify, Arrive, ReceiveAll;
    var i: nat :| AcceptedAt(ps, i, n);
    assert ps[..i] == ps'[..i];
    assert AcceptedAt(ps', i, n);
  }

  /** A number becomes recorded only by arriving and being accepted. */
  lemma RecordedArrives(run: RxRun, p: Packet, n: nat)
    requires InStep(run) && Clean(run, p) && n in Receive(run, p).got && n !in run.got
    ensures p.header.seqNo == Number(n) && TracksSequence(p.header, Classify(p.header.flags))
    ensures Arrive(run.rx, p.header.seqNo).accepted
  {
    hide Classify, OnPacket;
    if run.got == {} {
      assert Number(n) == n;
    } else {
      AheadNumber(run.rx, run.front, p.header.seqNo);
      if p.header.seqNo != run.rx.nextExpected {
        OtherArrivalAgrees(run.rx, run.front, run.base, run.got, p.header.seqNo);
      }
    }
  }

  lemma CleanFront(ps: seq<Packet>)
    requires CleanRun(ps) && ps != []
    ensures CleanRun(ps[..|ps| - 1]) && Clean(ReceiveAll(ps[..|ps| - 1]), ps[|ps| - 1])
  {
    hide Clean, ReceiveAll;
    var front := ps[..|ps| - 1];
    forall i | 0 <= i < |front| ensures Clean(ReceiveAll(front[..i]), front[i]) {
      assert front[..i] == ps[..i] && Clean(ReceiveAll(ps[..i]), ps[i]);
    }
  }

  /** One more packet: what is recorded then has arrived. */
  lemma ArrivedNext(ps: seq<Packet>, p: Packet, n: nat)
    requires InStep(ReceiveAll(ps)) && Clean(ReceiveAll(ps), p) && n in Receive(ReceiveAll(ps), p).got
    requires n in ReceiveAll(ps).got ==> Arrived(ps, n)
    ensures Arrived(ps + [p], n)
  {
    hide Classify, Clean, OnPacket, Number, TracksSequence, Receive, Arrive, InStep, ReceiveAll;
    if n in ReceiveAll(ps).got {
      ArrivedStays(ps, ps + [p], n);
    } else {
      RecordedArrives(ReceiveAll(ps), p, n);
      assert (ps + [p])[..|ps|] == ps;
      assert AcceptedAt(ps + [p], |ps|, n);
    }
  }

  lemma {:induction false} CleanRunsAgree(ps: seq<Packet>)
    requires CleanRun(ps)
    ensures RxInv(ReceiveAll(ps))
    ensures forall n :: n in ReceiveAll(ps).got ==> Arrived(ps, n)
    decreases |ps|
  {
    hide Clean, CleanRun, Receive, Arrived, InStep;
    if ps != [] {
      var front, p := ps[..|ps| - 1], ps[|ps| - 1];
      CleanFront(ps);
      CleanRunsAgree(front);
      ReceiveKeeps(ReceiveAll(front), p);
      assert front + [p] == ps;
      forall n | n in ReceiveAll(ps).got ensures Arrived(ps, n) {
        ArrivedNext(front, p, n);
      }
    } else {
      StartInv();
    }
  }

  lemma StartInv()
    ensures RxInv(NOTHING_RECEIVED) && OnceInv(NOTHING_RECEIVED)
  {
  }

  /** In clean runs without a second copy at number 0, each unordered number is delivered at most once. */
  lemma {:induction false} AtMostOnce(ps: seq<Packet>)
    requires CleanRun(ps) && FirstCopies(ps)
    ensures OnceInv(ReceiveAll(ps))
    decreases |ps|
  {
    hide Clean, CleanRun, Receive, InStep, FirstCopy, OnceInv, BuffersOrdered;
    if ps != [] {
      var front, p := ps[..|ps| - 1], ps[|ps| - 1];
      CleanFront(ps);
      forall i | 0 <= i < |front| ensures FirstCopy(ReceiveAll(front[..i]), front[i]) {
        assert front[..i] == ps[..i] && FirstCopy(ReceiveAll(ps[..i]), ps[i]);
      }
      AtMostOnce(front);
      CleanRunsAgree(front);
      ReceiveOnce(ReceiveAll(front), p);
    } else {
      StartInv();
    }
  }

  /**
   * In every clean run, whatever the acknowledgement fields report as received, from the first tracked
   * index on, is the number of a tracked packet that arrived and was accepted; and if no second copy met
   * a front at number 0, each unordered packet number is delivered at most once.
   */
  lemma TruthfulAcks(ps: seq<Packet>, n: nat)
    requires CleanRun(ps)
    ensures var run := ReceiveAll(ps);
      && (FirstCopies(ps) ==> DeliveredOnce(run.rx.events))
      && (run.got != {} && run.base <= n <= run.front + 64 ==>
            IsAcked(Number(n), run.rx.nextExpected, run.rx.receivedBits) ==> Arrived(ps, n))
  {
    hide ReceiveAll, Arrived, IsAcked, Number, Agree, CleanRun, FirstCopies;
    CleanRunsAgree(ps);
    if FirstCopies(ps) { AtMostOnce(ps); }
    var run := ReceiveAll(ps);
    if run.got != {} {
      AgreeIsTruthful(run.rx, run.front, run.base, run.got);
    }
  }

  function UnorderedPacket(s: u32): Packet {
    Packet(MakeHeader(7, s, 0, 0, 1, RELIABLE_UNORDERED, 0), [])
  }

  lemma ReceiveUnordered(ps: seq<Packet>, s: u32)
    ensures var r := Arrive(ReceiveAll(ps).rx, s);
      ReceiveAll(ps + [UnorderedPacket(s)]).rx ==
        if r.accepted then Emit(r.rx, DataEvent(UnorderedPacket(s))) else r.rx
  {
    var p := UnorderedPacket(s);
    assert (ps + [p])[..|ps|] == ps;
    assert Classify(p.header.flags) == KNone;
  }

  /**
   * The shortest run outside the condition, for both claims. The numbers 9, 12 and 10 arrive, 11 does not: the
   * arrival of 10 leaves the bit of 12 one position too high, so 13 is reported although it never arrived, and a
   * second copy of 12 is delivered again.
   */
  lemma SecondGapBreaksBoth()
    ensures var three := [UnorderedPacket(9), UnorderedPacket(12), UnorderedPacket(10)];
      var four := three + [UnorderedPacket(12)];
      && (forall p :: p in four ==> p.header.seqNo != 13)
      && IsAcked(13, ReceiveAll(three).rx.nextExpected, ReceiveAll(three).rx.receivedBits)
      && !DeliveredOnce(ReceiveAll(four).rx.events)
  {
    var p9, p12, p10 := UnorderedPacket(9), UnorderedPacket(12), UnorderedPacket(10);
    assert ReceiveAll([]).rx == INITIAL_RX;
    hide ReceiveAll;
    ReceiveUnordered([], 9);
    assert [] + [p9] == [p9];
    var r1 := ReceiveAll([p9]).rx;
    assert r1 == INITIAL_RX.(nextExpected := 10, events := [DataEvent(p9)]);
    ReceiveUnordered([p9], 12);
    assert [p9] + [p12] == [p9, p12];
    assert SetBit(0, 1) == 2;
    var r2 := ReceiveAll([p9, p12]).rx;
    assert r2 == r1.(receivedBits := 2, events := [DataEvent(p9), DataEvent(p12)]);
    ReceiveUnordered([p9, p12], 10);
    assert [p9, p12] + [p10] == [p9, p12, p10];
    var r3 := ReceiveAll([p9, p12, p10]).rx;
    assert r3 == r2.(nextExpected := 11, events := [DataEvent(p9), DataEvent(p12), DataEvent(p10)]);
    assert Bit(2, 1) && !Bit(2, 0);
    ReceiveUnordered([p9, p12, p10], 12);
    var r4 := ReceiveAll([p9, p12, p10] + [p12]).rx;
    assert r4.events == r3.events + [DataEvent(p12)];
    assert IsUnordered(r4.events[1]) && IsUnordered(r4.events[3]);
  }
}
