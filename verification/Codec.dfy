/**
 * The 28-byte big-endian header codec. `Encode` and `Decode` are mutually inverse on exactly
 * the valid headers; the buffer-filling methods at the end refine the two functions.
 */
module Codec {
  import opened Protocol

  predicate IsValidHeader(h: Header) {
    && h.headerLen == HEADER_LENGTH
    && h.reserved == 0
    && h.channelType <= 3
    && h.flags < 64  // no bit of 0xc0
  }

  // ----- big-endian numbers -----

  function Pow256(n: nat): (p: nat)
    ensures p >= 1
  {
    if n == 0 then 1 else 256 * Pow256(n - 1)
  }

  function ToBigEndian(value: nat, n: nat): (bytes: seq<u8>)
    ensures |bytes| == n
  {
    if n == 0 then [] else ToBigEndian(value / 256, n - 1) + [value % 256]
  }

  function FromBigEndian(bytes: seq<u8>): nat {
    if |bytes| == 0 then 0
    else FromBigEndian(bytes[..|bytes| - 1]) * 256 + bytes[|bytes| - 1]
  }

  lemma {:induction false} FromToBigEndian(value: nat, n: nat)
    requires value < Pow256(n)
    ensures FromBigEndian(ToBigEndian(value, n)) == value
  {
    if n > 0 {
      FromToBigEndian(value / 256, n - 1);
      var bytes := ToBigEndian(value, n);
      assert bytes[..|bytes| - 1] == ToBigEndian(value / 256, n - 1);
    }
  }

  lemma {:induction false} ToFromBigEndian(bytes: seq<u8>)
    ensures FromBigEndian(bytes) < Pow256(|bytes|)
    ensures ToBigEndian(FromBigEndian(bytes), |bytes|) == bytes
  {
    if |bytes| > 0 {
      ToFromBigEndian(bytes[..|bytes| - 1]);
      assert FromBigEndian(bytes) / 256 == FromBigEndian(bytes[..|bytes| - 1]);
    }
  }

  lemma Pow256Values()
    ensures Pow256(4) == 0x1_0000_0000
    ensures Pow256(8) == 0x1_0000_0000_0000_0000
  {
  }

  function ReadU32(bytes: seq<u8>, offset: nat): (value: u32)
    requires offset + 4 <= |bytes|
    ensures value == FromBigEndian(bytes[offset..offset + 4])
  {
    var b := bytes[offset..offset + 4];
    var b0: int, b1: int, b2: int, b3: int := b[0], b[1], b[2], b[3];
    assert b[..3][..2] == b[..2] && b[..2][..1] == b[..1] && b[..1][..0] == [];
    assert FromBigEndian(b[..1]) == b0;
    assert FromBigEndian(b[..2]) == b0 * 0x100 + b1;
    assert FromBigEndian(b[..3]) == b0 * 0x1_0000 + b1 * 0x100 + b2;
    b0 * 0x100_0000 + b1 * 0x1_0000 + b2 * 0x100 + b3
  }

  function ReadU64(bytes: seq<u8>, offset: nat): (value: u64)
    requires offset + 8 <= |bytes|
  {
    ToFromBigEndian(bytes[offset..offset + 8]);
    Pow256Values();
    FromBigEndian(bytes[offset..offset + 8])
  }

  // ----- packets -----

  function HeaderBytes(h: Header): (bytes: seq<u8>)
    ensures |bytes| == 28
  {
    ToBigEndian(h.connId, 4) + ToBigEndian(h.seqNo, 4) + ToBigEndian(h.ack, 4) +
    ToBigEndian(h.ackBits, 8) + ToBigEndian(h.channelId, 4) +
    [h.channelType, h.flags, h.headerLen, h.reserved]
  }

  function Encode(p: Packet): (bytes: seq<u8>)
    ensures |bytes| == 28 + |p.payload|
  {
    HeaderBytes(p.header) + p.payload
  }

  function DecodeHeader(bytes: seq<u8>): Header
    requires |bytes| >= 28
  {
    Header(ReadU32(bytes, 0), ReadU32(bytes, 4), ReadU32(bytes, 8), ReadU64(bytes, 12),
           ReadU32(bytes, 20), bytes[24], bytes[25], bytes[26], bytes[27])
  }

  function Decode(bytes: seq<u8>): Option<Packet> {
    if |bytes| < 28 || !IsValidHeader(DecodeHeader(bytes)) then None
    else Some(Packet(DecodeHeader(bytes), bytes[28..]))
  }

  /** Field by field, the header written at the front of a buffer is the header read back. */
  lemma DecodeHeaderBytes(h: Header, payload: seq<u8>)
    ensures DecodeHeader(HeaderBytes(h) + payload) == h
  {
    Pow256Values();
    var bytes := HeaderBytes(h) + payload;
    var f0, f1, f2 := ToBigEndian(h.connId, 4), ToBigEndian(h.seqNo, 4), ToBigEndian(h.ack, 4);
    var f3, f4 := ToBigEndian(h.ackBits, 8), ToBigEndian(h.channelId, 4);
    var tail := [h.channelType, h.flags, h.headerLen, h.reserved] + payload;
    assert bytes[0..4] == f0;
    assert bytes[4..8] == f1;
    assert bytes[8..12] == f2;
    assert bytes[12..20] == f3;
    assert bytes[20..24] == f4;
    FromToBigEndian(h.connId, 4);
    FromToBigEndian(h.seqNo, 4);
    FromToBigEndian(h.ack, 4);
    FromToBigEndian(h.ackBits, 8);
    FromToBigEndian(h.channelId, 4);
  }

  /** Decoding an encoded packet gives the packet back exactly when its header is valid. */
  lemma DecodeEncode(p: Packet)
    ensures Decode(Encode(p)) == if IsValidHeader(p.header) then Some(p) else None
  {
    DecodeHeaderBytes(p.header, p.payload);
    assert Encode(p)[28..] == p.payload;
  }

  /** Every byte string that decodes is the one encoding of what it decodes to. */
  lemma EncodeDecode(bytes: seq<u8>)
    requires Decode(bytes).Some?
    ensures Encode(Decode(bytes).value) == bytes
    ensures IsValidHeader(Decode(bytes).value.header)
  {
    var h := DecodeHeader(bytes);
    ToFromBigEndian(bytes[0..4]);
    ToFromBigEndian(bytes[4..8]);
    ToFromBigEndian(bytes[8..12]);
    ToFromBigEndian(bytes[12..20]);
    ToFromBigEndian(bytes[20..24]);
    assert HeaderBytes(h) == bytes[..28];
    assert bytes == bytes[..28] + bytes[28..];
  }

  // ----- the wire format, by offset -----

  /** Four bytes, the most significant first. */
  function Word32(bytes: seq<u8>, offset: nat): nat
    requires offset + 4 <= |bytes|
  {
    var b0: nat, b1: nat, b2: nat, b3: nat := bytes[offset], bytes[offset + 1], bytes[offset + 2], bytes[offset + 3];
    b0 * 0x100_0000 + b1 * 0x1_0000 + b2 * 0x100 + b3
  }

  /** Eight bytes, the most significant first. */
  function Word64(bytes: seq<u8>, offset: nat): nat
    requires offset + 8 <= |bytes|
  {
    Word32(bytes, offset) * 0x1_0000_0000 + Word32(bytes, offset + 4)
  }

  lemma {:induction false} BigEndianSplit(a: seq<u8>, b: seq<u8>)
    ensures FromBigEndian(a + b) == FromBigEndian(a) * Pow256(|b|) + FromBigEndian(b)
  {
    if b == [] {
      assert a + b == a;
    } else {
      var c := b[..|b| - 1];
      assert (a + b)[..|a + b| - 1] == a + c;
      BigEndianSplit(a, c);
      assert Pow256(|b|) == 256 * Pow256(|c|);
    }
  }

  lemma ReadsWord32(bytes: seq<u8>, offset: nat)
    requires offset + 4 <= |bytes|
    ensures ReadU32(bytes, offset) == Word32(bytes, offset)
  {
  }

  lemma ReadsWord64(bytes: seq<u8>, offset: nat)
    requires offset + 8 <= |bytes|
    ensures ReadU64(bytes, offset) == Word64(bytes, offset)
  {
    var high, low := bytes[offset..offset + 4], bytes[offset + 4..offset + 8];
    assert bytes[offset..offset + 8] == high + low;
    BigEndianSplit(high, low);
    Pow256Values();
    ReadsWord32(bytes, offset);
    ReadsWord32(bytes, offset + 4);
  }

  /** The header fields at their offsets. */
  predicate LaidOut(h: Header, bytes: seq<u8>)
    requires |bytes| >= 28
  {
    && h.connId == Word32(bytes, 0) && h.seqNo == Word32(bytes, 4) && h.ack == Word32(bytes, 8)
    && h.ackBits == Word64(bytes, 12) && h.channelId == Word32(bytes, 20)
    && h.channelType == bytes[24] && h.flags == bytes[25] && h.headerLen == bytes[26] && h.reserved == bytes[27]
  }

  lemma DecodedLayout(bytes: seq<u8>)
    requires |bytes| >= 28
    ensures LaidOut(DecodeHeader(bytes), bytes)
  {
    hide Word32, Word64, ReadU32, ReadU64;
    ReadsWord32(bytes, 0);
    ReadsWord32(bytes, 4);
    ReadsWord32(bytes, 8);
    ReadsWord64(bytes, 12);
    ReadsWord32(bytes, 20);
  }

  /** Every encoding has each header field at its offset, most significant byte first, and then the payload. */
  lemma EncodedLayout(p: Packet)
    ensures LaidOut(p.header, Encode(p)) && Encode(p)[28..] == p.payload
  {
    DecodeHeaderBytes(p.header, p.payload);
    DecodedLayout(Encode(p));
    assert Encode(p)[28..] == p.payload;
  }

  /**
   * A datagram decodes if and only if it is long enough, says 28 and 0 in its last two header bytes, names one of
   * four channel types and sets no unknown flag; and then it holds the fields at those offsets.
   */
  lemma DecodesExactly(bytes: seq<u8>)
    ensures Decode(bytes).Some? <==>
      |bytes| >= 28 && bytes[24] <= 3 && bytes[25] < 64 && bytes[26] == 28 && bytes[27] == 0
    ensures Decode(bytes).Some? ==>
      LaidOut(Decode(bytes).value.header, bytes) && Decode(bytes).value.payload == bytes[28..]
  {
    if |bytes| >= 28 { DecodedLayout(bytes); }
    hide Word32, Word64;
  }

  // ----- the buffer-level code -----

  /** Everything outside the `n` bytes at `offset` is as it was. */
  twostate predicate OnlyWrote(bytes: array<u8>, offset: nat, n: nat)
    reads bytes
  {
    forall i :: 0 <= i < bytes.Length && !(offset <= i < offset + n) ==> bytes[i] == old(bytes[i])
  }

  method WriteU32(bytes: array<u8>, offset: nat, value: u32)
    requires offset + 4 <= bytes.Length
    modifies bytes
    ensures OnlyWrote(bytes, offset, 4)
    ensures bytes[offset..offset + 4] == ToBigEndian(value, 4)
  {
    bytes[offset] := value / 0x100_0000 % 256;
    bytes[offset + 1] := value / 0x1_0000 % 256;
    bytes[offset + 2] := value / 0x100 % 256;
    bytes[offset + 3] := value % 256;
    var v3, v2, v1 := value / 256, value / 256 / 256, value / 256 / 256 / 256;
    assert ToBigEndian(v1, 1) == [v1 % 256];
    assert ToBigEndian(v2, 2) == [v1 % 256, v2 % 256];
    assert ToBigEndian(v3, 3) == [v1 % 256, v2 % 256, v3 % 256];
    assert ToBigEndian(value, 4) == [v1 % 256, v2 % 256, v3 % 256, value % 256];
  }

  /** `value >> 8n` */
  function ShiftRightBytes(value: nat, n: nat): nat {
    if n == 0 then value else ShiftRightBytes(value / 256, n - 1)
  }

  lemma {:induction false} BigEndianDigit(value: nat, n: nat, k: nat)
    requires k < n
    ensures ToBigEndian(value, n)[n - 1 - k] == ShiftRightBytes(value, k) % 256
  {
    if k > 0 {
      BigEndianDigit(value / 256, n - 1, k - 1);
    }
  }

  method WriteU64(bytes: array<u8>, offset: nat, value: u64)
    requires offset + 8 <= bytes.Length
    modifies bytes
    ensures OnlyWrote(bytes, offset, 8)
    ensures bytes[offset..offset + 8] == ToBigEndian(value, 8)
  {
    for index := 0 to 8
      invariant OnlyWrote(bytes, offset, 8)
      invariant forall k :: 0 <= k < index ==> bytes[offset + k] == ToBigEndian(value, 8)[k]
    {
      BigEndianDigit(value, 8, 7 - index);
      bytes[offset + index] := ShiftRightBytes(value, 7 - index) % 256;
    }
  }

  /** The byte-by-byte loop of the source computes the 64-bit number of the eight bytes. */
  method ReadU64Loop(bytes: seq<u8>, offset: nat) returns (value: u64)
    requires offset + 8 <= |bytes|
    ensures value == ReadU64(bytes, offset)
  {
    var acc: nat := 0;
    for index := 0 to 8
      invariant acc == FromBigEndian(bytes[offset..offset + index])
    {
      assert bytes[offset..offset + index + 1][..index] == bytes[offset..offset + index];
      acc := acc * 256 + bytes[offset + index];
    }
    ToFromBigEndian(bytes[offset..offset + 8]);
    Pow256Values();
    value := acc;
  }

  /** Writes the header field by field at the fixed offsets. */
  method WriteHeader(bytes: array<u8>, h: Header)
    requires bytes.Length >= 28
    modifies bytes
    ensures OnlyWrote(bytes, 0, 28)
    ensures bytes[..28] == HeaderBytes(h)
  {
    WriteU32(bytes, 0, h.connId);
    assert bytes[..4] == ToBigEndian(h.connId, 4);
    label afterConnId:
    WriteU32(bytes, 4, h.seqNo);
    assert bytes[..4] == old@afterConnId(bytes[..4]);
    assert bytes[..8] == bytes[..4] + bytes[4..8];
    label afterSeq:
    WriteU32(bytes, 8, h.ack);
    assert bytes[..8] == old@afterSeq(bytes[..8]);
    assert bytes[..12] == bytes[..8] + bytes[8..12];
    label afterAck:
    WriteU64(bytes, 12, h.ackBits);
    assert bytes[..12] == old@afterAck(bytes[..12]);
    assert bytes[..20] == bytes[..12] + bytes[12..20];
    label afterAckBits:
    WriteU32(bytes, 20, h.channelId);
    assert bytes[..20] == old@afterAckBits(bytes[..20]);
    assert bytes[..24] == bytes[..20] + bytes[20..24];
    label afterChannelId:
    bytes[24], bytes[25], bytes[26], bytes[27] := h.channelType, h.flags, h.headerLen, h.reserved;
    assert bytes[..24] == old@afterChannelId(bytes[..24]);
    assert bytes[..28] == bytes[..24] + [h.channelType, h.flags, h.headerLen, h.reserved];
  }

  /** A fresh buffer: the header at its offsets, then a copy of the payload. */
  method EncodeBuffer(p: Packet) returns (bytes: array<u8>)
    ensures fresh(bytes)
    ensures bytes[..] == Encode(p)
  {
    bytes := new u8[28 + |p.payload|](_ => 0);
    WriteHeader(bytes, p.header);
    ghost var front := bytes[..28];
    for i := 0 to |p.payload|
      invariant bytes[..28] == front
      invariant forall k :: 0 <= k < i ==> bytes[28 + k] == p.payload[k]
    {
      bytes[28 + i] := p.payload[i];
    }
    assert bytes[28..] == p.payload;
    assert bytes[..] == bytes[..28] + bytes[28..];
  }
}
