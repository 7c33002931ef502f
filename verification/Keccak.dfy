/** The in-place Keccak-256 of evm.ts, loop by loop, against FIPS 202.

  Lanes are unbounded bigints here as in the code; `LaneBits` reads the 64 bits the
  standard talks about, and every loop is shown to keep each lane below 2^64.
*/
module Keccak {
  import opened BigIntBits
  import opened KeccakFips
  import opened KeccakTables
  import KeccakInverse

  const MASK_64: int := 0xFFFF_FFFF_FFFF_FFFF

  ghost function LaneBits(v: int): Bits { seq(64, z requires 0 <= z < 64 => Bit(v, z)) }

  ghost predicate Lanes(s: seq<int>) { |s| == 25 && forall i | 0 <= i < 25 :: Lane(s[i]) }

  predicate Lane(v: int) { Fits(v, 64) }

  ghost function StateBits(s: seq<int>): (b: seq<Bits>)
    requires |s| == 25
    ensures Shaped(b)
  {
    seq(25, i requires 0 <= i < 25 => LaneBits(s[i]))
  }

  /** Reading a state as bits loses nothing. */
  lemma StateBitsInjective(s: seq<int>, t: seq<int>)
    requires Lanes(s) && Lanes(t) && StateBits(s) == StateBits(t)
    ensures s == t
  {
    forall i | 0 <= i < 25 ensures s[i] == t[i] {
      assert StateBits(s)[i] == LaneBits(s[i]) && StateBits(t)[i] == LaneBits(t[i]);
      forall z: nat | z < 64 ensures Bit(s[i], z) == Bit(t[i], z) {
        assert LaneBits(s[i])[z] == LaneBits(t[i])[z];
      }
      SameBitsSameValue(s[i], t[i], 64);
    }
  }

  lemma {:induction false} Pow2Sum(m: nat, n: nat)
    ensures Pow2(m + n) == Pow2(m) * Pow2(n)
  {
    if m > 0 { Pow2Sum(m - 1, n); }
  }

  lemma Doubled(m: nat, p: nat)
    requires Pow2(m) == p
    ensures Pow2(m + m) == p * p
  {
    Pow2Sum(m, m);
  }

  lemma MaskIsOnes()
    ensures MASK_64 == Pow2(64) - 1
  {
    Doubled(4, 0x10);
    Doubled(8, 0x100);
    Doubled(16, 0x1_0000);
    Doubled(32, 0x1_0000_0000);
  }

  lemma Masked(v: int, z: nat)
    ensures Lane(BitAnd(v, MASK_64)) && Bit(BitAnd(v, MASK_64), z) == (z < 64 && Bit(v, z))
  {
    MaskIsOnes();
    MaskBits(v, 64, z);
  }

  function RotateLeft(value: int, amount: nat): int
    requires amount <= 64
  {
    if amount == 0 then BitAnd(value, MASK_64)
    else BitAnd(BitOr(ShiftLeft(value, amount), ShiftRight(value, 64 - amount)), MASK_64)
  }

  /** On a 64-bit lane the shifts, the or and the mask make a rotation. */
  lemma RotateLeftBit(value: int, amount: nat, z: nat)
    requires Lane(value) && amount < 64 && z < 64
    ensures Lane(RotateLeft(value, amount))
    ensures Bit(RotateLeft(value, amount), z) == Bit(value, (z - amount) % 64)
  {
    hide Bit, Bitwise, Pow2, ShiftLeft, ShiftRight;
    if amount == 0 {
      Masked(value, z);
    } else {
      var up, down := ShiftLeft(value, amount), ShiftRight(value, 64 - amount);
      Masked(BitOr(up, down), z);
      BitwiseBit(Or, up, down, z);
      ShiftLeftBit(value, amount, z);
      ShiftRightBit(value, 64 - amount, z);
      if z >= amount {
        FitsBits(value, 64, 64 - amount + z);
      }
    }
  }

  // ---- Theta ----

  function XorColumn(s: seq<int>, x: nat): int
    requires |s| == 25 && x < 5
  {
    BitXor(BitXor(BitXor(BitXor(s[x], s[x + 5]), s[x + 10]), s[x + 15]), s[x + 20])
  }

  function Delta(s: seq<int>, x: nat): int
    requires |s| == 25 && x < 5
  {
    BitXor(XorColumn(s, (x + 4) % 5), RotateLeft(XorColumn(s, (x + 1) % 5), 1))
  }

  function ThetaLane(s: seq<int>, x: nat, y: nat): int
    requires |s| == 25 && x < 5 && y < 5
  {
    BitAnd(BitXor(s[x + 5 * y], Delta(s, x)), MASK_64)
  }

  lemma XorColumnBit(s: seq<int>, x: nat, z: nat)
    requires Lanes(s) && x < 5 && z < 64
    ensures Lane(XorColumn(s, x)) && Bit(XorColumn(s, x), z) == C(StateBits(s), x, z)
  {
    var a := BitXor(s[x], s[x + 5]);
    var b := BitXor(a, s[x + 10]);
    var c := BitXor(b, s[x + 15]);
    BitwiseFits(Xor, s[x], s[x + 5], 64);
    BitwiseFits(Xor, a, s[x + 10], 64);
    BitwiseFits(Xor, b, s[x + 15], 64);
    BitwiseFits(Xor, c, s[x + 20], 64);
    BitwiseBit(Xor, s[x], s[x + 5], z);
    BitwiseBit(Xor, a, s[x + 10], z);
    BitwiseBit(Xor, b, s[x + 15], z);
    BitwiseBit(Xor, c, s[x + 20], z);
    LaneAt(s, x, 0, z);
    LaneAt(s, x, 1, z);
    LaneAt(s, x, 2, z);
    LaneAt(s, x, 3, z);
    LaneAt(s, x, 4, z);
  }

  lemma LaneAt(s: seq<int>, x: nat, y: nat, z: nat)
    requires |s| == 25 && x < 5 && y < 5 && z < 64
    ensures A(StateBits(s), x, y, z) == Bit(s[x + 5 * y], z)
  {
  }

  lemma DeltaOf(left: int, right: int, p: bool, q: bool, z: nat)
    requires Lane(left) && Lane(right) && z < 64 && Bit(left, z) == p && Bit(right, (z - 1) % 64) == q
    ensures Lane(BitXor(left, RotateLeft(right, 1))) && Bit(BitXor(left, RotateLeft(right, 1)), z) == Flip(p, q)
  {
    RotateLeftBit(right, 1, z);
    BitwiseBit(Xor, left, RotateLeft(right, 1), z);
    BitwiseFits(Xor, left, RotateLeft(right, 1), 64);
  }

  lemma DeltaBit(s: seq<int>, x: nat, z: nat)
    requires Lanes(s) && x < 5 && z < 64
    ensures Lane(Delta(s, x))
    ensures Bit(Delta(s, x), z) == Flip(C(StateBits(s), x - 1, z), C(StateBits(s), x + 1, z - 1))
  {
    var left, right := (x + 4) % 5, (x + 1) % 5;
    var b := (z - 1) % 64;
    XorColumnBit(s, left, z);
    XorColumnBit(s, right, b);
    DeltaOf(XorColumn(s, left), XorColumn(s, right), C(StateBits(s), left, z), C(StateBits(s), right, b), z);
    ColumnWraps(StateBits(s), x, z);
  }

  lemma ThetaLaneBit(s: seq<int>, x: nat, y: nat, z: nat)
    requires Lanes(s) && x < 5 && y < 5 && z < 64
    ensures Lane(ThetaLane(s, x, y)) && Bit(ThetaLane(s, x, y), z) == ThetaBit(StateBits(s), x, y, z)
  {
    DeltaBit(s, x, z);
    BitwiseBit(Xor, s[x + 5 * y], Delta(s, x), z);
    Masked(BitXor(s[x + 5 * y], Delta(s, x)), z);
    LaneAt(s, x, y, z);
  }

  lemma ColumnWraps(s: seq<Bits>, x: nat, z: nat)
    requires Shaped(s) && x < 5 && z < 64
    ensures C(s, (x + 4) % 5, z) == C(s, x - 1, z)
    ensures C(s, (x + 1) % 5, (z - 1) % 64) == C(s, x + 1, z - 1)
  {
    assert (x + 4) % 5 % 5 == (x - 1) % 5;
    assert (x + 1) % 5 % 5 == (x + 1) % 5;
    assert (z - 1) % 64 % 64 == (z - 1) % 64;
  }

  function At(x: int, y: int): int { x + 5 * y }

  /** The lane `v` holds column (x,y) of the bit formula `f`. */
  ghost predicate LaneIs(v: int, f: (int, int, int) -> bool, x: int, y: int) {
    Lane(v) && forall z: nat | z < 64 :: Bit(v, z) == f(x, y, z)
  }

  /** A state whose lanes follow a bit formula is the standard's mapping. */
  lemma LanesMatch(t: seq<int>, f: (int, int, int) -> bool)
    requires |t| == 25 && forall x, y | 0 <= x < 5 && 0 <= y < 5 :: LaneIs(t[At(x, y)], f, x, y)
    ensures Lanes(t) && StateBits(t) == FromBits(f)
  {
    forall i | 0 <= i < 25 ensures Lane(t[i]) {
      assert LaneIs(t[At(i % 5, i / 5)], f, i % 5, i / 5);
    }
    forall x, y, z | 0 <= x < 5 && 0 <= y < 5 && 0 <= z < 64 ensures f(x, y, z) == A(StateBits(t), x, y, z) {
      LaneAt(t, x, y, z);
      assert LaneIs(t[At(x, y)], f, x, y);
    }
    FromBitsIs(f, StateBits(t));
  }

  lemma ThetaLaneIs(s: seq<int>, x: nat, y: nat)
    requires Lanes(s) && x < 5 && y < 5
    ensures LaneIs(ThetaLane(s, x, y), ThetaBits(StateBits(s)), x, y)
  {
    hide C, A, XorColumn, ThetaBit, ThetaLane;
    ThetaLaneBit(s, x, y, 0);
    forall z: nat | z < 64 ensures Bit(ThetaLane(s, x, y), z) == ThetaBits(StateBits(s))(x, y, z) {
      ThetaLaneBit(s, x, y, z);
    }
  }

  lemma ThetaLanes(s: seq<int>, t: seq<int>)
    requires Lanes(s) && |t| == 25
    requires forall x, y | 0 <= x < 5 && 0 <= y < 5 :: t[At(x, y)] == ThetaLane(s, x, y)
    ensures Lanes(t) && StateBits(t) == Theta(StateBits(s))
  {
    hide ThetaLane, ThetaBits, LaneIs;
    forall x, y | 0 <= x < 5 && 0 <= y < 5 ensures LaneIs(t[At(x, y)], ThetaBits(StateBits(s)), x, y) {
      ThetaLaneIs(s, x, y);
    }
    LanesMatch(t, ThetaBits(StateBits(s)));
  }

  method ColumnParities(state: array<int>) returns (columns: array<int>)
    requires state.Length == 25
    ensures fresh(columns) && columns.Length == 5
    ensures forall x | 0 <= x < 5 :: columns[x] == XorColumn(state[..], x)
  {
    columns := new int[5](_ => 0);
    for x := 0 to 5
      invariant forall i | 0 <= i < x :: columns[i] == XorColumn(state[..], i)
    {
      columns[x] := BitXor(BitXor(BitXor(BitXor(state[x], state[x + 5]), state[x + 10]), state[x + 15]), state[x + 20]);
    }
  }

  method ThetaStep(state: array<int>)
    requires state.Length == 25 && Lanes(state[..])
    modifies state
    ensures Lanes(state[..]) && StateBits(state[..]) == Theta(StateBits(old(state[..])))
  {
    hide Bitwise, RotateLeft, Bit, Pow2;
    ghost var s := state[..];
    var columns := ColumnParities(state);
    for x := 0 to 5
      invariant forall i | 0 <= i < 5 :: columns[i] == XorColumn(s, i)
      invariant forall i, j | 0 <= i < x && 0 <= j < 5 :: state[At(i, j)] == ThetaLane(s, i, j)
      invariant forall i, j | x <= i < 5 && 0 <= j < 5 :: state[At(i, j)] == s[At(i, j)]
    {
      var delta := BitXor(columns[(x + 4) % 5], RotateLeft(columns[(x + 1) % 5], 1));
      assert delta == Delta(s, x);
      for y := 0 to 5
        invariant forall i | 0 <= i < 5 :: columns[i] == XorColumn(s, i)
        invariant forall i, j | 0 <= i < 5 && 0 <= j < 5 && (i < x || (i == x && j < y)) ::
          state[At(i, j)] == ThetaLane(s, i, j)
        invariant forall i, j | 0 <= i < 5 && 0 <= j < 5 && (x < i || (i == x && y <= j)) ::
          state[At(i, j)] == s[At(i, j)]
      {
        assert state[At(x, y)] == s[At(x, y)];
        state[x + 5 * y] := BitAnd(BitXor(state[x + 5 * y], delta), MASK_64);
      }
    }
    ThetaLanes(s, state[..]);
  }

  // ---- Rho and pi ----

  /** Where the code moves lane (x,y): to (y, 2x + 3y). */
  function Destination(x: nat, y: nat): (i: nat)
    requires x < 5 && y < 5
    ensures i < 25
  {
    y + 5 * ((2 * x + 3 * y) % 5)
  }

  lemma DestinationIs(x: nat, y: nat)
    requires x < 5 && y < 5
    ensures Destination(x, y) == y + 5 * ((2 * x + 3 * y) % 5)
  {
  }

  function Rotation(i: nat): (r: nat)
    requires i < 25
    ensures r < 64
  {
    RotationIsOffset(i);
    ROTATION[i]
  }

  function MovedLane(s: seq<int>, x: nat, y: nat): int
    requires |s| == 25 && x < 5 && y < 5
  {
    RotateLeft(s[x + 5 * y], Rotation(x + 5 * y))
  }

  lemma Remainder5(k: int, r: nat)
    requires r < 5
    ensures (5 * k + r) % 5 == r
  {
  }

  /** The moves fill every lane once: lane (x,y) comes from lane (x + 3y, x). */
  lemma DestinationOnto(x: nat, y: nat)
    requires x < 5 && y < 5
    ensures Destination((x + 3 * y) % 5, x) == x + 5 * y
  {
    var q := (x + 3 * y) / 5;
    Remainder5(x + y - 2 * q, y);
    assert 2 * ((x + 3 * y) % 5) + 3 * x == 5 * (x + y - 2 * q) + y;
  }

  lemma DestinationOneToOne(x: nat, y: nat, x': nat, y': nat)
    requires x < 5 && y < 5 && x' < 5 && y' < 5 && Destination(x, y) == Destination(x', y')
    ensures x == x' && y == y'
  {
    var m, m' := 2 * x + 3 * y, 2 * x' + 3 * y';
    SameRemainder(m, m', y, y');
    OnlyZero(x - x', m / 5 - m' / 5);
  }

  lemma OnlyZero(a: int, k: int)
    requires -5 < a < 5 && 2 * a == 5 * k
    ensures a == 0
  {
  }

  lemma SameRemainder(m: nat, m': nat, y: nat, y': nat)
    requires y < 5 && y' < 5 && y + 5 * (m % 5) == y' + 5 * (m' % 5)
    ensures y == y' && m - m' == 5 * (m / 5 - m' / 5)
  {
  }

  lemma MovedLaneIs(s: seq<int>, x: nat, y: nat)
    requires Lanes(s) && x < 5 && y < 5
    ensures LaneIs(MovedLane(s, x, y), RhoBits(StateBits(s), Offset), x, y)
  {
    MovedLaneFits(s, x, y);
    hide Bit, MovedLane, RhoBits, StateBits, Offset, Lane, Shaped, A;
    forall z: nat | z < 64 ensures Bit(MovedLane(s, x, y), z) == RhoBits(StateBits(s), Offset)(x, y, z) {
      MovedBit(s, x, y, z);
      RhoBit(StateBits(s), x, y, z);
    }
  }

  lemma MovedLaneFits(s: seq<int>, x: nat, y: nat)
    requires Lanes(s) && x < 5 && y < 5
    ensures Lane(MovedLane(s, x, y)) && Shaped(StateBits(s))
  {
    hide Bit, RotateLeft, Pow2, A, Shaped, Rotation;
    RotateLeftBit(s[x + 5 * y], Rotation(x + 5 * y), 0);
    LaneAt(s, x, y, 0);
  }

  lemma MovedBit(s: seq<int>, x: nat, y: nat, z: nat)
    requires Lanes(s) && x < 5 && y < 5 && z < 64 && Shaped(StateBits(s))
    ensures Bit(MovedLane(s, x, y), z) == A(StateBits(s), x, y, z - Offset(x, y))
  {
    hide Bit, A, Shaped, Offset, Rotation, StateBits, MovedLane, Lane;
    OffsetHere(x, y);
    MovedFrom(s, x, y, z, Rotation(x + 5 * y));
    RotatedLane(s, x, y, z);
  }

  lemma RotatedLane(s: seq<int>, x: nat, y: nat, z: nat)
    requires Lanes(s) && x < 5 && y < 5 && z < 64
    ensures Bit(MovedLane(s, x, y), z) == Bit(s[x + 5 * y], (z - Rotation(x + 5 * y)) % 64)
  {
    hide Bit, RotateLeft, Rotation;
    RotateLeftBit(s[x + 5 * y], Rotation(x + 5 * y), z);
  }

  lemma RhoBit(b: seq<Bits>, x: int, y: int, z: int)
    requires Shaped(b)
    ensures RhoBits(b, Offset)(x, y, z) == A(b, x, y, z - Offset(x, y))
  {
    hide A, Offset;
  }

  lemma OffsetHere(x: nat, y: nat)
    requires x < 5 && y < 5
    ensures Offset(x, y) == Rotation(x + 5 * y) < 64
  {
    hide OffsetAt;
    RotationIsOffset(x + 5 * y);
  }

  /** The bit that rotating by `o` brings to place `z`. */
  lemma MovedFrom(s: seq<int>, x: nat, y: nat, z: nat, o: nat)
    requires Lanes(s) && x < 5 && y < 5 && z < 64
    ensures Shaped(StateBits(s)) && Bit(s[x + 5 * y], (z - o) % 64) == A(StateBits(s), x, y, z - o)
  {
    hide Bit, A, Shaped;
    LaneAt(s, x, y, (z - o) % 64);
    Congruent(StateBits(s), x, y, (z - o) % 64, x, y, z - o);
  }

  lemma MovedLanes(s: seq<int>, t: seq<int>)
    requires Lanes(s) && |t| == 25
    requires forall x: nat, y: nat | x < 5 && y < 5 :: t[Destination(x, y)] == MovedLane(s, x, y)
    ensures Lanes(t) && StateBits(t) == Pi(Rho(StateBits(s), Offset))
  {
    hide MovedLane, LaneIs, Rho, PiBits;
    var f := PiBits(Rho(StateBits(s), Offset));
    forall x, y | 0 <= x < 5 && 0 <= y < 5 ensures LaneIs(t[At(x, y)], f, x, y) {
      DestinationOnto(x, y);
      MovedAt(s, MovedLane(s, (x + 3 * y) % 5, x), x, y);
    }
    LanesMatch(t, f);
  }

  lemma MovedAt(s: seq<int>, v: int, x: nat, y: nat)
    requires Lanes(s) && x < 5 && y < 5 && v == MovedLane(s, (x + 3 * y) % 5, x)
    ensures LaneIs(v, PiBits(Rho(StateBits(s), Offset)), x, y)
  {
    hide Bit, RotateLeft, Pow2, OffsetAt, MovedLane, RhoBits, StateBits;
    var f := RhoBits(StateBits(s), Offset);
    MovedLaneIs(s, (x + 3 * y) % 5, x);
    forall z: nat | z < 64 ensures Bit(v, z) == PiBits(Rho(StateBits(s), Offset))(x, y, z) {
      FromBitsAt(f, x + 3 * y, x, z);
    }
  }

  method MoveStep(state: array<int>) returns (moved: array<int>)
    requires state.Length == 25 && Lanes(state[..])
    ensures fresh(moved) && moved.Length == 25 && state[..] == old(state[..])
    ensures Lanes(moved[..]) && StateBits(moved[..]) == Pi(Rho(StateBits(state[..]), Offset))
  {
    hide RotateLeft, OffsetAt, Destination, Rotation;
    ghost var s := state[..];
    moved := new int[25](_ => 0);
    for x := 0 to 5
      invariant state[..] == s
      invariant forall i: nat, j: nat | i < x && j < 5 :: moved[Destination(i, j)] == MovedLane(s, i, j)
    {
      for y := 0 to 5
        invariant state[..] == s
        invariant forall i: nat, j: nat | i < 5 && j < 5 && (i < x || (i == x && j < y)) ::
          moved[Destination(i, j)] == MovedLane(s, i, j)
      {
        forall i: nat, j: nat | i < 5 && j < 5 && (i < x || (i == x && j < y))
          ensures Destination(i, j) != Destination(x, y)
        {
          if Destination(i, j) == Destination(x, y) { DestinationOneToOne(i, j, x, y); }
        }
        var destinationX := y;
        var destinationY := (2 * x + 3 * y) % 5;
        DestinationIs(x, y);
        moved[destinationX + 5 * destinationY] := RotateLeft(state[x + 5 * y], Rotation(x + 5 * y));
      }
    }
    MovedLanes(s, moved[..]);
  }

  // ---- Chi ----

  function ChiLane(s: seq<int>, x: nat, y: nat): int
    requires |s| == 25 && x < 5 && y < 5
  {
    BitAnd(BitXor(s[x + 5 * y], BitAnd(BitNot(s[(x + 1) % 5 + 5 * y]), s[(x + 2) % 5 + 5 * y])), MASK_64)
  }

  /** The negative number that `~` makes is harmless: the `&` beside it cuts it back. */
  lemma ChiLaneBit(s: seq<int>, x: nat, y: nat, z: nat)
    requires Lanes(s) && x < 5 && y < 5 && z < 64
    ensures Lane(ChiLane(s, x, y)) && Bit(ChiLane(s, x, y), z) == ChiBit(StateBits(s), x, y, z)
  {
    hide Bit, Bitwise, Pow2, A, Shaped;
    var a, b, c := s[x + 5 * y], s[(x + 1) % 5 + 5 * y], s[(x + 2) % 5 + 5 * y];
    Masked(BitXor(a, BitAnd(BitNot(b), c)), z);
    BitwiseBit(Xor, a, BitAnd(BitNot(b), c), z);
    BitwiseBit(And, BitNot(b), c, z);
    NotBit(b, z);
    LaneAt(s, x, y, z);
    LaneAt(s, (x + 1) % 5, y, z);
    LaneAt(s, (x + 2) % 5, y, z);
    Congruent(StateBits(s), (x + 1) % 5, y, z, x + 1, y, z);
    Congruent(StateBits(s), (x + 2) % 5, y, z, x + 2, y, z);
  }

  lemma ChiLanes(s: seq<int>, t: seq<int>)
    requires Lanes(s) && |t| == 25
    requires forall x, y | 0 <= x < 5 && 0 <= y < 5 :: t[At(x, y)] == ChiLane(s, x, y)
    ensures Lanes(t) && StateBits(t) == Chi(StateBits(s))
  {
    hide ChiLane, ChiBit, A;
    forall x: nat, y: nat | x < 5 && y < 5 ensures LaneIs(t[At(x, y)], ChiBits(StateBits(s)), x, y) {
      ChiLaneBit(s, x, y, 0);
      forall z: nat | z < 64 ensures Bit(t[At(x, y)], z) == ChiBits(StateBits(s))(x, y, z) {
        ChiLaneBit(s, x, y, z);
      }
    }
    LanesMatch(t, ChiBits(StateBits(s)));
  }

  method ChiStep(state: array<int>, moved: array<int>)
    requires state.Length == moved.Length == 25 && state != moved && Lanes(moved[..])
    modifies state
    ensures Lanes(state[..]) && StateBits(state[..]) == Chi(StateBits(moved[..]))
  {
    hide Bitwise;
    ghost var s := moved[..];
    for y := 0 to 5
      invariant moved[..] == s
      invariant forall i, j | 0 <= i < 5 && 0 <= j < y :: state[At(i, j)] == ChiLane(s, i, j)
    {
      for x := 0 to 5
        invariant moved[..] == s
        invariant forall i, j | 0 <= i < 5 && 0 <= j < 5 && (j < y || (j == y && i < x)) ::
          state[At(i, j)] == ChiLane(s, i, j)
      {
        state[x + 5 * y] :=
          BitAnd(BitXor(moved[x + 5 * y], BitAnd(BitNot(moved[(x + 1) % 5 + 5 * y]), moved[(x + 2) % 5 + 5 * y])),
            MASK_64);
      }
    }
    ChiLanes(s, state[..]);
  }

  // ---- Iota ----

  lemma {:induction false} DigitThen(b: bool, k: nat, rest: int, z: nat)
    requires k >= 1
    ensures Bit(Digit(b) + Pow2(k) * rest, z) == if z == 0 then b else z >= k && Bit(rest, z - k)
  {
    var v := Digit(b) + Pow2(k) * rest;
    var half := Pow2(k - 1) * rest;
    assert Pow2(k) * rest == 2 * half;
    assert v / 2 == half;
    if z > 0 {
      ShiftedBit(k - 1, rest, z - 1);
    }
  }

  lemma {:induction false} ShiftedBit(k: nat, v: int, z: nat)
    ensures Bit(Pow2(k) * v, z) == (z >= k && Bit(v, z - k))
  {
    if k > 0 {
      var half := Pow2(k - 1) * v;
      assert Pow2(k) * v == 2 * half;
      if z > 0 { ShiftedBit(k - 1, v, z - 1); }
    }
  }

  function SparseBit(b0: bool, b1: bool, b2: bool, b3: bool, b4: bool, b5: bool, b6: bool, z: int): bool {
    match z
    case 0 => b0
    case 1 => b1
    case 3 => b2
    case 7 => b3
    case 15 => b4
    case 31 => b5
    case 63 => b6
    case _ => false
  }

  lemma Powers()
    ensures Pow2(1) == 0x2 && Pow2(2) == 0x4 && Pow2(4) == 0x10 && Pow2(8) == 0x100
    ensures Pow2(16) == 0x1_0000 && Pow2(32) == 0x1_0000_0000
  {
    Doubled(4, 0x10);
    Doubled(8, 0x100);
    Doubled(16, 0x1_0000);
  }

  lemma UpperBits(b4: bool, b5: bool, b6: bool, z: nat)
    ensures Bit(Digit(b4) + 0x1_0000 * (Digit(b5) + 0x1_0000_0000 * Digit(b6)), z)
      == match z { case 0 => b4 case 16 => b5 case 48 => b6 case _ => false }
  {
    hide Bit;
    Powers();
    hide Pow2;
    DigitThen(b4, 16, Digit(b5) + 0x1_0000_0000 * Digit(b6), z);
    if z >= 16 { DigitThen(b5, 32, Digit(b6), z - 16); }
    if z >= 48 { DigitThen(b6, 1, 0, z - 48); }
    if z > 48 { ZeroBits(z - 49); }
  }

  lemma LowerBits(b0: bool, b1: bool, b2: bool, b3: bool, high: int, z: nat)
    ensures Bit(Digit(b0) + 0x2 * (Digit(b1) + 0x4 * (Digit(b2) + 0x10 * (Digit(b3) + 0x100 * high))), z)
      == match z { case 0 => b0 case 1 => b1 case 3 => b2 case 7 => b3 case _ => z >= 15 && Bit(high, z - 15) }
  {
    hide Bit;
    Powers();
    hide Pow2;
    var v3 := Digit(b3) + 0x100 * high;
    var v2 := Digit(b2) + 0x10 * v3;
    DigitThen(b0, 1, Digit(b1) + 0x4 * v2, z);
    if z >= 1 { DigitThen(b1, 2, v2, z - 1); }
    if z >= 3 { DigitThen(b2, 4, v3, z - 3); }
    if z >= 7 { DigitThen(b3, 8, high, z - 7); }
  }

  lemma SparseBits(b0: bool, b1: bool, b2: bool, b3: bool, b4: bool, b5: bool, b6: bool, z: nat)
    ensures Lane(Sparse(b0, b1, b2, b3, b4, b5, b6))
    ensures Bit(Sparse(b0, b1, b2, b3, b4, b5, b6), z) == SparseBit(b0, b1, b2, b3, b4, b5, b6, z)
  {
    hide Bit, Pow2;
    MaskIsOnes();
    var high := Digit(b4) + 0x1_0000 * (Digit(b5) + 0x1_0000_0000 * Digit(b6));
    LowerBits(b0, b1, b2, b3, high, z);
    if z >= 15 { UpperBits(b4, b5, b6, z - 15); }
  }

  lemma ZeroBits(z: nat)
    ensures !Bit(0, z)
  {
    SignOnlyBits(0, z);
  }

  /** Round constant `round` of the code has exactly the bits the standard gives it. */
  lemma RoundConstantBits(round: nat, z: nat)
    requires round < 24
    ensures Lane(RoundConstantEntry(round)) && Bit(RoundConstantEntry(round), z) == RoundConstant(round)(z)
  {
    hide Bit, RegisterAt, Sparse, RoundConstantEntry;
    RoundConstantsAreRegister(round);
    SparseBits(Rc(7 * round), Rc(7 * round + 1), Rc(7 * round + 2), Rc(7 * round + 3), Rc(7 * round + 4),
               Rc(7 * round + 5), Rc(7 * round + 6), z);
  }

  lemma IotaBit(s: seq<int>, round: nat, x: nat, y: nat, z: nat)
    requires Lanes(s) && round < 24 && x < 5 && y < 5 && z < 64
    ensures Bit(s[0 := BitXor(s[0], RoundConstantEntry(round))][At(x, y)], z) ==
      IotaBits(StateBits(s), RoundConstant(round))(x, y, z)
  {
    hide Bit, RoundConstantEntry, RoundConstantBit, RoundConstant, Bitwise;
    LaneAt(s, x, y, z);
    RoundConstantBits(round, z);
    BitwiseBit(Xor, s[0], RoundConstantEntry(round), z);
  }

  lemma IotaLanes(s: seq<int>, round: nat)
    requires Lanes(s) && round < 24
    ensures var t := s[0 := BitXor(s[0], RoundConstantEntry(round))];
      Lanes(t) && StateBits(t) == Iota(StateBits(s), RoundConstant(round))
  {
    hide Bit, RoundConstantEntry, RoundConstantBit, RoundConstant, Bitwise, IotaBits, StateBits;
    var c := RoundConstantEntry(round);
    var t := s[0 := BitXor(s[0], c)];
    var f := IotaBits(StateBits(s), RoundConstant(round));
    RoundConstantBits(round, 0);
    BitwiseFits(Xor, s[0], c, 64);
    forall x: nat, y: nat | x < 5 && y < 5 ensures LaneIs(t[At(x, y)], f, x, y) {
      forall z: nat | z < 64 ensures Bit(t[At(x, y)], z) == f(x, y, z) { IotaBit(s, round, x, y, z); }
    }
    LanesMatch(t, f);
  }

  // ---- The permutation ----

  /** The permutation in place: 24 rounds of the standard, every lane below 2^64 throughout. */
  method KeccakF1600(state: array<int>)
    requires state.Length == 25 && Lanes(state[..])
    modifies state
    ensures Lanes(state[..]) && StateBits(state[..]) == KeccakF(StateBits(old(state[..])))
  {
    hide Theta, Rho, Pi, Chi, Iota, StateBits, Lane, RoundConstantEntry, RoundConstant, Bitwise;
    ghost var s := StateBits(state[..]);
    for round := 0 to 24
      invariant Lanes(state[..]) && StateBits(state[..]) == Rounds(s, round)
    {
      ThetaStep(state);
      var moved := MoveStep(state);
      ChiStep(state, moved);
      IotaLanes(state[..], round);
      ghost var before := state[..];
      state[0] := BitXor(state[0], RoundConstantEntry(round));
      assert state[..] == before[0 := BitXor(before[0], RoundConstantEntry(round))];
    }
  }

  /** The code's permutation never sends two states of 25 lanes to the same state. */
  lemma PermutationInjective(s: seq<int>, t: seq<int>)
    requires Lanes(s) && Lanes(t) && KeccakF(StateBits(s)) == KeccakF(StateBits(t))
    ensures s == t
  {
    hide KeccakF;
    KeccakInverse.KeccakFInjective(StateBits(s), StateBits(t));
    StateBitsInjective(s, t);
  }
}
