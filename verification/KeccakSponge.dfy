/** Keccak-256 of evm.ts: padding, absorbing and squeezing on byte buffers, against the
  sponge of FIPS 202 sections 4 and 5.1 on bit strings, without the SHA-3 suffix bits.
*/
module KeccakSponge {
  import opened BigIntBits
  import opened KeccakFips
  import opened Keccak

  // ---- The standard: bit strings ----

  const RATE: nat := 1088
  const DIGEST: nat := 256

  function Zeros(n: nat): (z: Bits)
    ensures |z| == n && forall k | 0 <= k < n :: !z[k]
  {
    seq(n, _ => false)
  }

  /** The number of zeros pad10*1 puts between its two ones, for a message of `m` bits. */
  function Gap(m: int): nat { (-m - 2) % RATE }

  /** pad10*1 for a message of `m` bits. */
  function Pad(m: nat): (p: Bits)
    ensures (m + |p|) % RATE == 0
  {
    PadFills(m);
    [true] + Zeros(Gap(m)) + [true]
  }

  lemma PadFills(m: int)
    ensures (m + Gap(m) + 2) % RATE == 0
  {
    var q := (-m - 2) / RATE;
    assert m + Gap(m) + 2 == RATE * -q;
    Multiple(-q);
  }

  lemma Multiple(k: int)
    ensures (RATE * k) % RATE == 0
  {
  }

  ghost function ZeroState(): (s: seq<Bits>)
    ensures Shaped(s)
  {
    seq(25, _ => Zeros(64))
  }

  /** Add a block to the first RATE bits of the state; bit 64i + z is bit z of lane i. */
  ghost function XorBlock(s: seq<Bits>, block: Bits): (r: seq<Bits>)
    requires Shaped(s) && |block| == RATE
    ensures Shaped(r)
  {
    seq(25, i requires 0 <= i < 25 =>
      seq(64, z requires 0 <= z < 64 => Flip(s[i][z], i < 17 && block[64 * i + z])))
  }

  ghost function Absorb(p: Bits): (s: seq<Bits>)
    requires |p| % RATE == 0
    ensures Shaped(s)
  {
    if |p| < RATE then ZeroState()
    else
      var front := |p| - RATE;
      KeccakF(XorBlock(Absorb(p[..front]), p[front..]))
  }

  ghost function Squeeze(s: seq<Bits>): (d: Bits)
    requires Shaped(s)
    ensures |d| == DIGEST
  {
    seq(DIGEST, k requires 0 <= k < DIGEST => s[k / 64][k % 64])
  }

  /** Keccak[512] with a 256-bit output. */
  ghost function Sponge(n: Bits): Bits { Squeeze(Absorb(n + Pad(|n|))) }

  // ---- Bytes ----

  predicate Byte(b: int) { 0 <= b < 256 }

  predicate Bytes(b: seq<int>) { forall k | 0 <= k < |b| :: Byte(b[k]) }

  /** Bit 8k + z of the string is bit z of byte k. */
  ghost function ByteBits(b: seq<int>): (r: Bits)
    ensures |r| == 8 * |b|
  {
    seq(8 * |b|, k requires 0 <= k < 8 * |b| => Bit(b[k / 8], k % 8))
  }

  lemma ByteFits(b: int)
    ensures Byte(b) <==> Fits(b, 8)
  {
    Powers();
  }

  /** A byte string is determined by its bits. */
  lemma ByteBitsInjective(a: seq<int>, b: seq<int>)
    requires Bytes(a) && Bytes(b) && ByteBits(a) == ByteBits(b)
    ensures a == b
  {
    assert |ByteBits(a)| == |ByteBits(b)|;
    forall k | 0 <= k < |a| ensures a[k] == b[k] {
      SameByte(a, b, k);
    }
  }

  lemma SameByte(a: seq<int>, b: seq<int>, k: nat)
    requires Bytes(a) && Bytes(b) && |a| == |b| && k < |a| && ByteBits(a) == ByteBits(b)
    ensures a[k] == b[k]
  {
    hide Bit, Pow2;
    ByteFits(a[k]);
    ByteFits(b[k]);
    forall z: nat | z < 8 ensures Bit(a[k], z) == Bit(b[k], z) {
      assert ByteBits(a)[8 * k + z] == ByteBits(b)[8 * k + z];
    }
    SameBitsSameValue(a[k], b[k], 8);
  }

  // ---- Lanes in a buffer ----

  ghost function LaneOfBits(b: seq<int>): (r: Bits)
    requires |b| == 8
    ensures |r| == 64
  {
    seq(64, z requires 0 <= z < 64 => Bit(b[z / 8], z % 8))
  }

  /** The little-endian value of eight bytes. */
  ghost function LaneOf(b: seq<int>): (v: int)
    requires |b| == 8
    ensures Lane(v)
  {
    Pack(LaneOfBits(b))
  }

  lemma LaneOfBit(b: seq<int>, z: nat)
    requires |b| == 8 && z < 64
    ensures Bit(LaneOf(b), z) == Bit(b[z / 8], z % 8)
  {
    PackBit(LaneOfBits(b), z);
  }

  ghost function ByteOf(v: int, k: nat): (b: int)
    ensures Byte(b)
  {
    ByteFits(Pack(seq(8, z requires 0 <= z < 8 => Bit(v, 8 * k + z))));
    Pack(seq(8, z requires 0 <= z < 8 => Bit(v, 8 * k + z)))
  }

  lemma ByteOfBit(v: int, k: nat, z: nat)
    requires z < 8
    ensures Bit(ByteOf(v, k), z) == Bit(v, 8 * k + z)
  {
    PackBit(seq(8, z requires 0 <= z < 8 => Bit(v, 8 * k + z)), z);
  }

  ghost function BytesOf(v: int): (b: seq<int>)
    ensures |b| == 8 && Bytes(b)
  {
    seq(8, k requires 0 <= k < 8 => ByteOf(v, k))
  }

  /** Writing a lane and reading it back gives the lane. */
  lemma ReadAfterWrite(v: int)
    requires Lane(v)
    ensures LaneOf(BytesOf(v)) == v
  {
    hide Bit, Pow2, ByteOf, LaneOf;
    forall z: nat | z < 64 ensures Bit(LaneOf(BytesOf(v)), z) == Bit(v, z) {
      LaneOfBit(BytesOf(v), z);
      ByteOfBit(v, z / 8, z % 8);
    }
    SameBitsSameValue(LaneOf(BytesOf(v)), v, 64);
  }

  /** Reading eight bytes as a lane and writing it gives the bytes. */
  lemma WriteAfterRead(b: seq<int>)
    requires |b| == 8 && Bytes(b)
    ensures BytesOf(LaneOf(b)) == b
  {
    forall k: nat | k < 8 ensures ByteOf(LaneOf(b), k) == b[k] {
      WrittenByte(b, k);
    }
  }

  lemma WrittenByte(b: seq<int>, k: nat)
    requires |b| == 8 && Bytes(b) && k < 8
    ensures ByteOf(LaneOf(b), k) == b[k]
  {
    hide Bit, Pow2, ByteOf, LaneOf;
    var w := ByteOf(LaneOf(b), k);
    forall z: nat | z < 8 ensures Bit(w, z) == Bit(b[k], z) {
      ByteOfBit(LaneOf(b), k, z);
      LaneOfBit(b, 8 * k + z);
    }
    ByteFits(w);
    ByteFits(b[k]);
    SameBitsSameValue(w, b[k], 8);
  }

  lemma {:induction false} ShiftLeftFits(v: int, m: nat, n: nat)
    requires Fits(v, m)
    ensures Fits(ShiftLeft(v, n), m + n)
    decreases n
  {
    if n > 0 { ShiftLeftFits(2 * v, m + 1, n - 1); }
  }

  lemma {:induction false} FitsWider(v: int, m: nat, n: nat)
    requires Fits(v, m)
    ensures Fits(v, m + n)
  {
    if n > 0 { FitsWider(v, m, n - 1); }
  }

  /** Or-ing one more byte above the `8k` bits read so far. */
  lemma OrByte(v: int, b: int, k: nat, z: nat)
    requires Fits(v, 8 * k) && Byte(b)
    ensures var r := BitOr(v, ShiftLeft(b, 8 * k));
      Fits(r, 8 * k + 8) && (z < 8 * k + 8 ==> Bit(r, z) == if z < 8 * k then Bit(v, z) else Bit(b, z - 8 * k))
  {
    hide Bit, Pow2, Bitwise, ShiftLeft;
    var up := ShiftLeft(b, 8 * k);
    ByteFits(b);
    ShiftLeftFits(b, 8, 8 * k);
    FitsWider(v, 8 * k, 8);
    BitwiseFits(Or, v, up, 8 * k + 8);
    BitwiseBit(Or, v, up, z);
    ShiftLeftBit(b, 8 * k, z);
    if z >= 8 * k { FitsBits(v, 8 * k, z); }
  }

  lemma OrByteBits(b: seq<int>, v: int, k: nat)
    requires |b| == 8 && Bytes(b) && k < 8 && Fits(v, 8 * k)
    requires forall z: nat | z < 8 * k :: Bit(v, z) == Bit(b[z / 8], z % 8)
    ensures var r := BitOr(v, ShiftLeft(b[k], 8 * k));
      Fits(r, 8 * k + 8) && forall z: nat | z < 8 * k + 8 :: Bit(r, z) == Bit(b[z / 8], z % 8)
  {
    hide Bit, Pow2, Bitwise, ShiftLeft;
    var r := BitOr(v, ShiftLeft(b[k], 8 * k));
    OrByte(v, b[k], k, 0);
    forall z: nat | z < 8 * k + 8 ensures Bit(r, z) == Bit(b[z / 8], z % 8) {
      OrByte(v, b[k], k, z);
    }
  }

  lemma LaneOfIs(b: seq<int>, v: int)
    requires |b| == 8 && Lane(v) && forall z: nat | z < 64 :: Bit(v, z) == Bit(b[z / 8], z % 8)
    ensures v == LaneOf(b)
  {
    hide Bit, Pow2, LaneOf;
    forall z: nat | z < 64 ensures Bit(v, z) == Bit(LaneOf(b), z) {
      LaneOfBit(b, z);
    }
    SameBitsSameValue(v, LaneOf(b), 64);
  }

  method ReadLane(buffer: array<int>, offset: nat) returns (value: int)
    requires offset + 8 <= buffer.Length && Bytes(buffer[..])
    ensures value == LaneOf(buffer[offset..offset + 8])
  {
    hide Bit, Pow2, Bitwise, ShiftLeft, LaneOf;
    ghost var b := buffer[offset..offset + 8];
    value := 0;
    for byte := 0 to 8
      invariant Fits(value, 8 * byte)
      invariant forall z: nat | z < 8 * byte :: Bit(value, z) == Bit(b[z / 8], z % 8)
    {
      OrByteBits(b, value, byte);
      value := BitOr(value, ShiftLeft(buffer[offset + byte], 8 * byte));
    }
    LaneOfIs(b, value);
  }

  lemma MaskedByte(v: int, k: nat)
    ensures BitAnd(ShiftRight(v, 8 * k), 0xff) == ByteOf(v, k)
  {
    Powers();
    hide Bit, Pow2, Bitwise, ShiftRight, ByteOf;
    var b := BitAnd(ShiftRight(v, 8 * k), 0xff);
    MaskBits(ShiftRight(v, 8 * k), 8, 0);
    ByteFits(ByteOf(v, k));
    forall z: nat | z < 8 ensures Bit(b, z) == Bit(ByteOf(v, k), z) {
      MaskBits(ShiftRight(v, 8 * k), 8, z);
      ShiftRightBit(v, 8 * k, z);
      ByteOfBit(v, k, z);
    }
    SameBitsSameValue(b, ByteOf(v, k), 8);
  }

  method WriteLane(buffer: array<int>, offset: nat, value: int)
    requires offset + 8 <= buffer.Length
    modifies buffer
    ensures buffer[..] == old(buffer[..offset]) + BytesOf(value) + old(buffer[offset + 8..])
  {
    hide Bit, Bitwise, ShiftRight, ByteOf;
    for byte := 0 to 8
      invariant forall k | 0 <= k < byte :: buffer[offset + k] == ByteOf(value, k)
      invariant forall k | 0 <= k < buffer.Length && !(offset <= k < offset + byte) :: buffer[k] == old(buffer[k])
    {
      MaskedByte(value, byte);
      buffer[offset + byte] := BitAnd(ShiftRight(value, 8 * byte), 0xff);
    }
  }

  // ---- Padding ----

  const RATE_BYTES: nat := 136

  function PaddedLength(n: nat): (l: nat)
    ensures l % RATE_BYTES == 0 && n < l <= n + RATE_BYTES
  {
    Blocks((n + RATE_BYTES) / RATE_BYTES);
    (n + RATE_BYTES) / RATE_BYTES * RATE_BYTES
  }

  lemma Blocks(k: nat)
    ensures k * RATE_BYTES % RATE_BYTES == 0
  {
  }

  /** Byte `k` of the padded message; the two pad bits share one byte, 0x81, when they meet. */
  function PaddedByte(value: seq<int>, k: nat): int {
    if k < |value| then value[k]
    else (if k == |value| then 0x01 else 0) + (if k == PaddedLength(|value|) - 1 then 0x80 else 0)
  }

  function Padded(value: seq<int>): (p: seq<int>)
    ensures |p| == PaddedLength(|value|)
  {
    seq(PaddedLength(|value|), k requires 0 <= k < PaddedLength(|value|) => PaddedByte(value, k))
  }

  lemma PadMarks(a: seq<int>, b: seq<int>)
    requires |a| < |b|
    ensures Padded(a) != Padded(b)
  {
    if |Padded(a)| == |Padded(b)| {
      assert Padded(a)[|b|] == PaddedByte(a, |b|) && Padded(b)[|b|] == PaddedByte(b, |b|);
    }
  }

  lemma OneBits(z: nat)
    requires z < 8
    ensures Bit(0x01, z) == (z == 0) && Bit(0x80, z) == (z == 7) && Bit(0x81, z) == (z == 0 || z == 7)
  {
    Powers();
    assert Pow2(8) == 2 * Pow2(7);
    hide Bit;
    ZeroBits(z);
    DigitThen(true, 1, 0, z);
    ShiftedBit(7, 1, z);
    DigitThen(true, 7, 1, z);
    if z == 7 { DigitThen(true, 1, 0, 0); }
  }

  lemma PaddedByteBit(value: seq<int>, k: nat, z: nat)
    requires |value| <= k < PaddedLength(|value|) && z < 8
    ensures Byte(PaddedByte(value, k))
    ensures Bit(PaddedByte(value, k), z)
      == (8 * k + z == 8 * |value| || 8 * k + z == 8 * PaddedLength(|value|) - 1)
  {
    hide Bit;
    OneBits(z);
    ZeroBits(z);
  }

  lemma PaddedBytes(value: seq<int>)
    requires Bytes(value)
    ensures Bytes(Padded(value))
  {
    forall k | 0 <= k < |Padded(value)| ensures Byte(Padded(value)[k]) {
      if k >= |value| { PaddedByteBit(value, k, 0); }
    }
  }

  lemma GapOfBytes(n: nat)
    ensures 8 * PaddedLength(n) == 8 * n + Gap(8 * n) + 2
  {
    var l, q := PaddedLength(n), (n + RATE_BYTES) / RATE_BYTES;
    UniqueRemainder(-8 * n - 2, -q, 8 * l - 8 * n - 2);
  }

  lemma UniqueRemainder(m: int, q: int, r: nat)
    requires m == RATE * q + r && r < RATE
    ensures m % RATE == r
  {
  }

  /** The buffer the code builds is the message followed by pad10*1. */
  lemma PaddingIsPad(value: seq<int>)
    ensures ByteBits(Padded(value)) == ByteBits(value) + Pad(8 * |value|)
  {
    hide Bit, PaddedByte, PaddedLength;
    var p, n, l := Padded(value), |value|, PaddedLength(|value|);
    GapOfBytes(n);
    forall k | 0 <= k < 8 * l ensures ByteBits(p)[k] == (ByteBits(value) + Pad(8 * n))[k] {
      if k >= 8 * n {
        PaddedByteBit(value, k / 8, k % 8);
        assert Pad(8 * n)[k - 8 * n] == (k == 8 * n || k == 8 * l - 1);
      } else {
        assert p[k / 8] == value[k / 8] by { OwnByte(value, k / 8); }
      }
    }
  }

  /** No two messages put the same bits into the sponge, the 0x81 case included. */
  lemma PaddingInjective(a: seq<int>, b: seq<int>)
    requires Bytes(a) && Bytes(b) && ByteBits(a) + Pad(8 * |a|) == ByteBits(b) + Pad(8 * |b|)
    ensures a == b
  {
    hide Bit, Pad, PaddedByte, PaddedLength, ByteBits;
    PaddingIsPad(a);
    PaddingIsPad(b);
    PaddedBytes(a);
    PaddedBytes(b);
    ByteBitsInjective(Padded(a), Padded(b));
    SamePadded(a, b);
  }

  lemma SamePadded(a: seq<int>, b: seq<int>)
    requires Padded(a) == Padded(b)
    ensures a == b
  {
    if |a| < |b| {
      PadMarks(a, b);
    } else if |b| < |a| {
      PadMarks(b, a);
    }
    assert |a| == |b|;
    forall k | 0 <= k < |a| ensures a[k] == b[k] {
      assert Padded(a)[k] == a[k] && Padded(b)[k] == b[k];
    }
  }

  lemma OwnByte(value: seq<int>, k: nat)
    requires k < |value|
    ensures Padded(value)[k] == value[k]
  {
  }

  method PadMessage(value: seq<int>) returns (padded: array<int>)
    requires Bytes(value)
    ensures fresh(padded) && padded[..] == Padded(value)
  {
    var n := |value|;
    padded := new int[PaddedLength(n)](_ => 0);
    for k := 0 to n
      invariant forall j | 0 <= j < padded.Length :: padded[j] == if j < k then value[j] else 0
    {
      padded[k] := value[k];
    }
    padded[n] := 0x01;
    assert BitXor(0, 0x80) == 0x80 && BitXor(0x01, 0x80) == 0x81 by { MarkByte(); }
    assert padded[padded.Length - 1] == if n == padded.Length - 1 then 0x01 else 0;
    padded[padded.Length - 1] := BitXor(padded[padded.Length - 1], 0x80);
  }

  lemma MarkByte()
    ensures BitXor(0, 0x80) == 0x80 && BitXor(0x01, 0x80) == 0x81
  {
    XorMark(0);
    XorMark(0x01);
  }

  lemma XorMark(b: int)
    requires 0 <= b <= 1
    ensures BitXor(b, 0x80) == b + 0x80
  {
    hide Bit, Pow2, Bitwise;
    ByteFits(b);
    ByteFits(0x80);
    ByteFits(b + 0x80);
    BitwiseFits(Xor, b, 0x80, 8);
    forall z: nat | z < 8 ensures Bit(BitXor(b, 0x80), z) == Bit(b + 0x80, z) {
      BitwiseBit(Xor, b, 0x80, z);
      OneBits(z);
      ZeroBits(z);
    }
    SameBitsSameValue(BitXor(b, 0x80), b + 0x80, 8);
  }

  // ---- Absorbing and squeezing ----

  function At8(p: seq<int>, i: nat): (b: seq<int>)
    requires 8 * i + 8 <= |p|
    ensures |b| == 8
  {
    p[8 * i..8 * i + 8]
  }

  lemma XorBlockLanes(s: seq<int>, t: seq<int>, block: seq<int>)
    requires Lanes(s) && |t| == 25 && |block| == RATE_BYTES && Bytes(block)
    requires forall i: nat | i < 25 :: t[i] == if i < 17 then BitXor(s[i], LaneOf(At8(block, i))) else s[i]
    ensures Lanes(t) && StateBits(t) == XorBlock(StateBits(s), ByteBits(block))
  {
    hide Bit, Pow2, Bitwise, LaneOf;
    forall i: nat | i < 25
      ensures Lane(t[i]) && LaneBits(t[i]) == XorBlock(StateBits(s), ByteBits(block))[i]
    {
      XorBlockLane(s, t, block, i);
    }
    assert StateBits(t) == XorBlock(StateBits(s), ByteBits(block));
  }

  lemma XorBlockLane(s: seq<int>, t: seq<int>, block: seq<int>, i: nat)
    requires Lanes(s) && |t| == 25 && |block| == RATE_BYTES && Bytes(block) && i < 25
    requires t[i] == if i < 17 then BitXor(s[i], LaneOf(At8(block, i))) else s[i]
    ensures Lane(t[i]) && LaneBits(t[i]) == XorBlock(StateBits(s), ByteBits(block))[i]
  {
    hide Bit, Pow2, Bitwise, LaneOf;
    if i < 17 { BitwiseFits(Xor, s[i], LaneOf(At8(block, i)), 64); }
    forall z: nat | z < 64 ensures Bit(t[i], z) == XorBlock(StateBits(s), ByteBits(block))[i][z] {
      if i < 17 {
        BitwiseBit(Xor, s[i], LaneOf(At8(block, i)), z);
        LaneOfBit(At8(block, i), z);
        assert ByteBits(block)[64 * i + z] == Bit(At8(block, i)[z / 8], z % 8);
      }
      assert StateBits(s)[i][z] == Bit(s[i], z);
    }
  }

  lemma LaneInBlock(p: seq<int>, offset: nat, lane: nat)
    requires offset + RATE_BYTES <= |p| && lane < 17
    ensures p[offset + lane * 8..offset + lane * 8 + 8] == At8(p[offset..offset + RATE_BYTES], lane)
  {
    var block := p[offset..offset + RATE_BYTES];
    var bytes := p[offset + lane * 8..offset + lane * 8 + 8];
    forall k | 0 <= k < 8 ensures bytes[k] == At8(block, lane)[k] {
      assert block[8 * lane + k] == p[offset + (8 * lane + k)];
    }
  }

  method XorBlockInto(state: array<int>, padded: array<int>, offset: nat)
    requires state.Length == 25 && Lanes(state[..]) && state != padded
    requires offset + RATE_BYTES <= padded.Length && Bytes(padded[..])
    modifies state
    ensures Lanes(state[..])
    ensures StateBits(state[..]) ==
      XorBlock(StateBits(old(state[..])), ByteBits(padded[offset..offset + RATE_BYTES]))
  {
    hide Bitwise, LaneOf, Lane;
    ghost var s := state[..];
    ghost var block := padded[offset..offset + RATE_BYTES];
    for lane := 0 to RATE_BYTES / 8
      invariant padded[..] == old(padded[..])
      invariant forall i: nat | i < 25 ::
        state[i] == if i < lane then BitXor(s[i], LaneOf(At8(block, i))) else s[i]
    {
      var value := ReadLane(padded, offset + lane * 8);
      LaneInBlock(padded[..], offset, lane);
      assert padded[..][offset..offset + RATE_BYTES] == block;
      state[lane] := BitXor(state[lane], value);
    }
    XorBlockLanes(s, state[..], block);
  }

  lemma SqueezeBytes(s: seq<int>, d: seq<int>)
    requires Lanes(s) && |d| == 32
    requires forall k: nat | k < 32 :: d[k] == ByteOf(s[k / 8], k % 8)
    ensures Bytes(d) && ByteBits(d) == Squeeze(StateBits(s))
  {
    hide Bit, Pow2, ByteOf;
    forall k | 0 <= k < DIGEST ensures ByteBits(d)[k] == Squeeze(StateBits(s))[k] {
      ByteOfBit(s[k / 64], k / 8 % 8, k % 8);
      SqueezedAt(k);
    }
  }

  lemma SqueezedAt(k: nat)
    ensures k / 8 / 8 == k / 64 && 8 * (k / 8 % 8) + k % 8 == k % 64
  {
  }

  lemma AbsorbOne(p: seq<int>, offset: nat)
    requires offset + RATE_BYTES <= |p| && 8 * offset % RATE == 0
    ensures 8 * (offset + RATE_BYTES) % RATE == 0
    ensures Absorb(ByteBits(p[..offset + RATE_BYTES])) ==
      KeccakF(XorBlock(Absorb(ByteBits(p[..offset])), ByteBits(p[offset..offset + RATE_BYTES])))
  {
    hide Bit, KeccakF, XorBlock;
    var q := ByteBits(p[..offset + RATE_BYTES]);
    assert q[..8 * offset] == ByteBits(p[..offset]);
    assert q[8 * offset..] == ByteBits(p[offset..offset + RATE_BYTES]);
  }

  method AbsorbMessage(padded: array<int>) returns (state: array<int>)
    requires padded.Length % RATE_BYTES == 0 && 8 * padded.Length % RATE == 0 && Bytes(padded[..])
    ensures fresh(state) && state.Length == 25 && Lanes(state[..])
    ensures StateBits(state[..]) == Absorb(ByteBits(padded[..]))
  {
    hide Bit, Bitwise, KeccakF, XorBlock, ByteBits, StateBits, Lane;
    state := new int[25](_ => 0);
    ZeroLanes(state[..]);
    ghost var p := padded[..];
    var offset := 0;
    while offset < padded.Length
      invariant offset <= padded.Length && padded[..] == p
      invariant offset % RATE_BYTES == 0 && 8 * offset % RATE == 0
      invariant Lanes(state[..]) && StateBits(state[..]) == Absorb(ByteBits(p[..offset]))
    {
      NextBlock(offset, padded.Length);
      AbsorbOne(p, offset);
      assert padded[offset..offset + RATE_BYTES] == p[offset..offset + RATE_BYTES];
      XorBlockInto(state, padded, offset);
      KeccakF1600(state);
      offset := offset + RATE_BYTES;
    }
    assert p[..offset] == p;
  }

  method SqueezeDigest(state: array<int>) returns (output: array<int>)
    requires state.Length == 25 && Lanes(state[..])
    ensures fresh(output) && output.Length == 32 && Bytes(output[..])
    ensures ByteBits(output[..]) == Squeeze(StateBits(state[..]))
  {
    hide Bit, Bitwise, ByteBits, Squeeze, ByteOf;
    output := new int[32](_ => 0);
    for lane := 0 to 4
      invariant state[..] == old(state[..])
      invariant forall k: nat | k < 8 * lane :: output[k] == ByteOf(state[k / 8], k % 8)
    {
      WriteLane(output, lane * 8, state[lane]);
    }
    SqueezeBytes(state[..], output[..]);
  }

  /** For every message the 32 bytes returned are the first 256 bits of the sponge. */
  method Keccak256(value: seq<int>) returns (output: array<int>)
    requires Bytes(value)
    ensures fresh(output) && output.Length == 32 && Bytes(output[..])
    ensures ByteBits(output[..]) == Sponge(ByteBits(value))
  {
    hide Bit, Bitwise, KeccakF, XorBlock, ByteBits, Squeeze, ByteOf, PaddedByte, Absorb;
    var padded := PadMessage(value);
    PaddedBytes(value);
    PaddingIsPad(value);
    var state := AbsorbMessage(padded);
    output := SqueezeDigest(state);
  }

  lemma ZeroLanes(s: seq<int>)
    requires |s| == 25 && forall i | 0 <= i < 25 :: s[i] == 0
    ensures Lanes(s) && StateBits(s) == ZeroState()
  {
    hide Bit;
    forall z: nat | z < 64 ensures !Bit(0, z) { ZeroBits(z); }
    forall i | 0 <= i < 25 ensures StateBits(s)[i] == ZeroState()[i] {
    }
  }

  lemma NextBlock(offset: nat, length: nat)
    requires offset < length && offset % RATE_BYTES == 0 && length % RATE_BYTES == 0
    ensures offset + RATE_BYTES <= length && (offset + RATE_BYTES) % RATE_BYTES == 0
  {
  }
}
