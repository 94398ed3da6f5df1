/**
 * Protocol constants, the packet header, control flags, and the wrap-around
 * comparison of 32-bit sequence numbers (section 3.2 of RFC 1982).
 */
module Protocol {

  type u8 = x: int | 0 <= x < 0x100
  type u32 = x: int | 0 <= x < 0x1_0000_0000
  type u64 = x: int | 0 <= x < 0x1_0000_0000_0000_0000

  datatype Option<+T> = None | Some(value: T)

  const HEADER_LENGTH: u8 := 28
  const ACK_BITS_WINDOW := 64
  const RELIABLE_WINDOW_SIZE := 64

  // Channel types as they travel in the header.
  const RELIABLE_ORDERED: u8 := 0
  const RELIABLE_UNORDERED: u8 := 1
  const UNRELIABLE: u8 := 2
  const MONOTONIC_STATE: u8 := 3

  /** The channel types an application can name. */
  type ChannelType = x: u8 | x < 4

  // Header flags.
  const SYN: u8 := 1
  const FIN: u8 := 2
  const RST: u8 := 4
  const PING: u8 := 8
  const PONG: u8 := 16
  const ACK: u8 := 32
  const SYN_ACK: u8 := 33

  datatype Header = Header(
    connId: u32, seqNo: u32, ack: u32, ackBits: u64, channelId: u32,
    channelType: u8, flags: u8, headerLen: u8, reserved: u8)

  datatype Packet = Packet(header: Header, payload: seq<u8>)

  /** A header with the defaults of the source's struct for the last two fields. */
  function MakeHeader(connId: u32, seqNo: u32, ack: u32, ackBits: u64, channelId: u32,
                      channelType: u8, flags: u8): Header
  {
    Header(connId, seqNo, ack, ackBits, channelId, channelType, flags, HEADER_LENGTH, 0)
  }

  /** `mask` is one of the single-bit flags. */
  predicate HasFlag(flags: u8, mask: u8)
    requires mask != 0
  {
    flags / mask % 2 == 1
  }

  predicate IsReliableChannel(channelType: u8) {
    channelType == RELIABLE_ORDERED || channelType == RELIABLE_UNORDERED
  }

  // ----- 32-bit serial arithmetic -----

  /** `a - b` modulo 2^32. */
  function Diff(a: u32, b: u32): u32 {
    if a >= b then a - b else a - b + 0x1_0000_0000
  }

  /** `a + k` modulo 2^32. */
  function Add(a: u32, k: nat): u32 {
    (a + k) % 0x1_0000_0000
  }

  /** `a + 1` modulo 2^32. */
  function Inc(a: u32): u32 {
    if a == 0xFFFF_FFFF then 0 else a + 1
  }

  /** The sign bit of the 32-bit difference is set. */
  predicate SeqLt(a: u32, b: u32) { Diff(a, b) >= 0x8000_0000 }

  predicate SeqLe(a: u32, b: u32) { Diff(a, b) == 0 || Diff(a, b) >= 0x8000_0000 }

  predicate SeqGt(a: u32, b: u32) { SeqLt(b, a) }

  predicate SeqGe(a: u32, b: u32) { SeqLe(b, a) }

  /** Concrete distances agree with the distances of the unbounded numbers behind them. */
  lemma AddDiff(base: u32, n: nat, t: nat)
    requires n <= t < n + 0x1_0000_0000
    ensures Diff(Add(base, t), Add(base, n)) == t - n
  {
  }

  lemma AddInc(base: u32, n: nat)
    ensures Add(base, n + 1) == Inc(Add(base, n))
  {
  }

  lemma AddZero(base: u32)
    ensures Add(base, 0) == base
  {
  }

  lemma AddOfInc(base: u32, n: nat)
    ensures Add(Inc(base), n) == Add(base, n + 1)
  {
  }

  /** Fewer than 2^32 numbers after `base`: the number determines the index. */
  lemma AddIndex(base: u32, n: nat)
    requires n < 0x1_0000_0000
    ensures Diff(Add(base, n), base) == n
  {
  }

  lemma DiffAdd(base: u32, s: u32)
    ensures Add(base, Diff(s, base)) == s
  {
  }

  lemma AddAdd(base: u32, m: nat, n: nat)
    ensures Add(Add(base, m), n) == Add(base, m + n)
  {
  }

  /**
   * Section 3.2 of RFC 1982: as long as two unbounded indices are less than 2^31 apart, the
   * wrapped comparison orders them as the integers do, wherever the wrap falls; at distance
   * exactly 2^31 the comparison is no order, since each number is before the other.
   */
  lemma SerialComparison(base: u32, i: nat, j: nat)
    ensures -0x8000_0000 < i - j < 0x8000_0000 ==>
      (SeqLt(Add(base, i), Add(base, j)) <==> i < j) &&
      (SeqLe(Add(base, i), Add(base, j)) <==> i <= j) &&
      (SeqGt(Add(base, i), Add(base, j)) <==> i > j) &&
      (SeqGe(Add(base, i), Add(base, j)) <==> i >= j)
    ensures i - j == 0x8000_0000 ==>
      SeqLt(Add(base, i), Add(base, j)) && SeqLt(Add(base, j), Add(base, i))
  {
    if i <= j < i + 0x1_0000_0000 {
      AddDiff(base, i, j);
    } else if j < i < j + 0x1_0000_0000 {
      AddDiff(base, j, i);
    }
  }
}
