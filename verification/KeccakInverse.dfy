/** Keccak-f[1600] is a permutation: an explicit inverse of every step mapping.

  Theta is the only hard one. On column parities it acts as the linear map
  P = 1 + X + X'Z, where X shifts x up by one, X' down by one and Z shifts z.
  Squaring such a map over bits doubles every shift, so P^64 no longer touches z
  (64 is the lane width) and P^192 is the identity: P^191 inverts theta.
*/
module KeccakInverse {
  import opened KeccakFips

  ghost predicate Plane(p: seq<Bits>) {
    |p| == 5 && forall x | 0 <= x < 5 :: |p[x]| == 64
  }

  /** Bit (x,z) of a plane of five lanes. */
  ghost predicate B(p: seq<Bits>, x: int, z: int)
    requires Plane(p)
  {
    p[x % 5][z % 64]
  }

  ghost function PlaneFromBits(f: (int, int) -> bool): (p: seq<Bits>)
    ensures Plane(p)
  {
    seq(5, x requires 0 <= x < 5 => seq(64, z requires 0 <= z < 64 => f(x, z)))
  }

  lemma PlaneFromBitsAt(f: (int, int) -> bool, x: int, z: int)
    ensures B(PlaneFromBits(f), x, z) == f(x % 5, z % 64)
  {
  }

  lemma SamePlane(p: seq<Bits>, q: seq<Bits>)
    requires Plane(p) && Plane(q)
    requires forall x, z | 0 <= x < 5 && 0 <= z < 64 :: B(p, x, z) == B(q, x, z)
    ensures p == q
  {
    forall x | 0 <= x < 5 ensures p[x] == q[x] {
      forall z | 0 <= z < 64 ensures p[x][z] == q[x][z] {
        assert B(p, x, z) == B(q, x, z);
      }
    }
  }

  ghost predicate SpreadBit(p: seq<Bits>, s: int, x: int, z: int)
    requires Plane(p)
  {
    Flip(B(p, x, z), Flip(B(p, x - s, z), B(p, x + s, z - s)))
  }

  /** P^s for s a power of two: theta's action on column parities, shifts scaled by s. */
  ghost function Spread(p: seq<Bits>, s: int): (r: seq<Bits>)
    requires Plane(p)
    ensures Plane(r)
  {
    PlaneFromBits((x, z) => SpreadBit(p, s, x, z))
  }

  lemma ReducedRow(p: seq<Bits>, x: int, dx: int, z: int, dz: int)
    requires Plane(p)
    ensures B(p, x % 5 + dx, z % 64 + dz) == B(p, x + dx, z + dz)
  {
    Mod5(x, dx);
    Mod64(z, dz);
  }

  lemma SpreadAt(p: seq<Bits>, s: int, x: int, z: int)
    requires Plane(p)
    ensures B(Spread(p, s), x, z) == SpreadBit(p, s, x, z)
  {
    PlaneFromBitsAt((u, w) => SpreadBit(p, s, u, w), x, z);
    ReducedRow(p, x, 0, z, 0);
    ReducedRow(p, x, -s, z, 0);
    ReducedRow(p, x, s, z, -s);
  }

  lemma SpreadTwiceAt(p: seq<Bits>, s: int, x: int, z: int)
    requires Plane(p)
    ensures SpreadBit(Spread(p, s), s, x, z) == SpreadBit(p, 2 * s, x, z)
  {
    hide B, Plane, Spread;
    SpreadAt(p, s, x, z);
    SpreadAt(p, s, x - s, z);
    SpreadAt(p, s, x + s, z - s);
    assert x - s - s == x - 2 * s && x - s + s == x && x + s - s == x && x + s + s == x + 2 * s &&
      z - s - s == z - 2 * s;
  }

  /** Squaring doubles the shifts: the cross terms cancel in pairs. */
  lemma SpreadTwice(p: seq<Bits>, s: int)
    requires Plane(p)
    ensures Spread(Spread(p, s), s) == Spread(p, 2 * s)
  {
    forall x, z | 0 <= x < 5 && 0 <= z < 64
      ensures B(Spread(Spread(p, s), s), x, z) == B(Spread(p, 2 * s), x, z)
    {
      SpreadAt(Spread(p, s), s, x, z);
      SpreadTwiceAt(p, s, x, z);
      SpreadAt(p, 2 * s, x, z);
    }
    SamePlane(Spread(Spread(p, s), s), Spread(p, 2 * s));
  }

  lemma PlaneWraps(p: seq<Bits>, x: int, z: int)
    requires Plane(p)
    ensures B(p, x - 64, z) == B(p, x + 1, z) && B(p, x + 64, z - 64) == B(p, x - 1, z)
    ensures B(p, x - 128, z) == B(p, x + 2, z) && B(p, x + 128, z - 128) == B(p, x - 2, z)
    ensures B(p, x + 3, z) == B(p, x - 2, z)
  {
  }

  lemma SpreadFullAt(p: seq<Bits>, x: int, z: int)
    requires Plane(p)
    ensures SpreadBit(Spread(p, 64), 128, x, z) == B(p, x, z)
  {
    var q := Spread(p, 64);
    PlaneWraps(q, x, z);
    assert B(q, x, z) == Flip(B(p, x, z), Flip(B(p, x + 1, z), B(p, x - 1, z))) by {
      SpreadAt(p, 64, x, z);
      PlaneWraps(p, x, z);
    }
    assert B(q, x + 2, z) == Flip(B(p, x + 2, z), Flip(B(p, x - 2, z), B(p, x + 1, z))) by {
      SpreadAt(p, 64, x + 2, z);
      PlaneWraps(p, x + 2, z);
      PlaneWraps(p, x, z);
    }
    assert B(q, x - 2, z) == Flip(B(p, x - 2, z), Flip(B(p, x - 1, z), B(p, x + 2, z))) by {
      SpreadAt(p, 64, x - 2, z);
      PlaneWraps(p, x - 2, z);
      PlaneWraps(p, x - 5, z);
    }
  }

  /** At a shift of 64 only x moves, and the 64th and 128th powers undo each other. */
  lemma SpreadFull(p: seq<Bits>)
    requires Plane(p)
    ensures Spread(Spread(p, 64), 128) == p
  {
    forall x, z | 0 <= x < 5 && 0 <= z < 64 ensures B(Spread(Spread(p, 64), 128), x, z) == B(p, x, z) {
      SpreadAt(Spread(p, 64), 128, x, z);
      SpreadFullAt(p, x, z);
    }
    SamePlane(Spread(Spread(p, 64), 128), p);
  }

  /** P^191 = P^1 P^2 P^4 P^8 P^16 P^32 P^128. */
  ghost function Unspread(p: seq<Bits>): (r: seq<Bits>)
    requires Plane(p)
    ensures Plane(r)
  {
    Spread(Spread(Spread(Spread(Spread(Spread(Spread(p, 1), 2), 4), 8), 16), 32), 128)
  }

  lemma UnspreadSpread(p: seq<Bits>)
    requires Plane(p)
    ensures Unspread(Spread(p, 1)) == p
  {
    SpreadTwice(p, 1);
    SpreadTwice(p, 2);
    SpreadTwice(p, 4);
    SpreadTwice(p, 8);
    SpreadTwice(p, 16);
    SpreadTwice(p, 32);
    SpreadFull(p);
  }

  /** The plane of column parities. */
  ghost function Parity(s: seq<Bits>): (p: seq<Bits>)
    requires Shaped(s)
    ensures Plane(p)
  {
    PlaneFromBits((x, z) => C(s, x, z))
  }

  lemma ParityAt(s: seq<Bits>, x: int, z: int)
    requires Shaped(s)
    ensures B(Parity(s), x, z) == C(s, x, z)
  {
    PlaneFromBitsAt((u, w) => C(s, u, w), x, z);
  }

  lemma ThetaAt(s: seq<Bits>, x: int, y: int, z: int)
    requires Shaped(s)
    ensures A(Theta(s), x, y, z) == ThetaBit(s, x, y, z)
  {
    FromBitsAt(ThetaBits(s), x, y, z);
    Reduced(s, x, 0, y, z, 0);
    ReducedColumn(s, x, -1, z, 0);
    ReducedColumn(s, x, 1, z, -1);
  }

  /** Theta adds the same bit to the five bits of a column, so it acts as P on parities. */
  lemma ParityOfTheta(s: seq<Bits>)
    requires Shaped(s)
    ensures Parity(Theta(s)) == Spread(Parity(s), 1)
  {
    var t := Theta(s);
    forall x, z | 0 <= x < 5 && 0 <= z < 64 ensures B(Parity(t), x, z) == B(Spread(Parity(s), 1), x, z) {
      ParityAt(t, x, z);
      SpreadAt(Parity(s), 1, x, z);
      ParityAt(s, x, z);
      ParityAt(s, x - 1, z);
      ParityAt(s, x + 1, z - 1);
      ThetaAt(s, x, 0, z);
      ThetaAt(s, x, 1, z);
      ThetaAt(s, x, 2, z);
      ThetaAt(s, x, 3, z);
      ThetaAt(s, x, 4, z);
    }
    SamePlane(Parity(t), Spread(Parity(s), 1));
  }

  ghost predicate ThetaInverseBit(t: seq<Bits>, x: int, y: int, z: int)
    requires Shaped(t)
  {
    Flip(A(t, x, y, z), Flip(B(Parity(t), x, z), B(Unspread(Parity(t)), x, z)))
  }

  ghost function ThetaInverseBits(t: seq<Bits>): (int, int, int) -> bool
    requires Shaped(t)
  {
    (x, y, z) => ThetaInverseBit(t, x, y, z)
  }

  ghost function ThetaInverse(t: seq<Bits>): (s: seq<Bits>)
    requires Shaped(t)
    ensures Shaped(s)
  {
    FromBits(ThetaInverseBits(t))
  }

  lemma ThetaInvertibleAt(s: seq<Bits>, x: int, y: int, z: int)
    requires Shaped(s) && Unspread(Parity(Theta(s))) == Parity(s)
    requires Parity(Theta(s)) == Spread(Parity(s), 1)
    ensures ThetaInverseBit(Theta(s), x, y, z) == A(s, x, y, z)
  {
    hide A, B, C, Theta, Spread, Unspread, Parity;
    ThetaAt(s, x, y, z);
    assert B(Parity(Theta(s)), x, z) == Flip(C(s, x, z), Flip(C(s, x - 1, z), C(s, x + 1, z - 1))) by {
      SpreadAt(Parity(s), 1, x, z);
      ParityAt(s, x, z);
      ParityAt(s, x - 1, z);
      ParityAt(s, x + 1, z - 1);
    }
    ParityAt(s, x, z);
  }

  lemma ThetaInvertible(s: seq<Bits>)
    requires Shaped(s)
    ensures ThetaInverse(Theta(s)) == s
  {
    ParityOfTheta(s);
    UnspreadSpread(Parity(s));
    forall x, y, z | 0 <= x < 5 && 0 <= y < 5 && 0 <= z < 64
      ensures ThetaInverseBits(Theta(s))(x, y, z) == A(s, x, y, z)
    {
      ThetaInvertibleAt(s, x, y, z);
    }
    FromBitsIs(ThetaInverseBits(Theta(s)), s);
  }

  ghost function RhoInverseBits(t: seq<Bits>, offset: (int, int) -> nat): (int, int, int) -> bool
    requires Shaped(t)
  {
    (x, y, z) => A(t, x, y, z + offset(x, y))
  }

  ghost function RhoInverse(t: seq<Bits>, offset: (int, int) -> nat): (s: seq<Bits>)
    requires Shaped(t)
    ensures Shaped(s)
  {
    FromBits(RhoInverseBits(t, offset))
  }

  lemma RhoAt(s: seq<Bits>, offset: (int, int) -> nat, x: int, y: int, z: int)
    requires Shaped(s) && 0 <= x < 5 && 0 <= y < 5
    ensures A(Rho(s, offset), x, y, z) == A(s, x, y, z - offset(x, y))
  {
    FromBitsAt(RhoBits(s, offset), x, y, z);
    Reduced(s, x, 0, y, z, 0 - offset(x, y));
  }

  /** Whatever the offsets, rotating back undoes rho. */
  lemma RhoInvertible(s: seq<Bits>, offset: (int, int) -> nat)
    requires Shaped(s)
    ensures RhoInverse(Rho(s, offset), offset) == s
  {
    var t := Rho(s, offset);
    forall x, y, z | 0 <= x < 5 && 0 <= y < 5 && 0 <= z < 64
      ensures RhoInverseBits(t, offset)(x, y, z) == A(s, x, y, z)
    {
      RhoAt(s, offset, x, y, z + offset(x, y));
    }
    FromBitsIs(RhoInverseBits(t, offset), s);
  }

  ghost function PiInverseBits(t: seq<Bits>): (int, int, int) -> bool
    requires Shaped(t)
  {
    (x, y, z) => A(t, y, 2 * x + 3 * y, z)
  }

  ghost function PiInverse(t: seq<Bits>): (s: seq<Bits>)
    requires Shaped(t)
    ensures Shaped(s)
  {
    FromBits(PiInverseBits(t))
  }

  lemma PiIndex(x: int, y: int)
    ensures (x % 5 + 3 * (y % 5)) % 5 == (x + 3 * y) % 5
    ensures (y + 3 * (2 * x + 3 * y)) % 5 == x % 5
  {
    assert (x % 5 + 3 * (y % 5)) + 5 * (x / 5 + 3 * (y / 5)) == x + 3 * y;
    AddMultiple(x % 5 + 3 * (y % 5), x / 5 + 3 * (y / 5));
    AddMultiple(x, x + 2 * y);
  }

  lemma AddMultiple(v: int, k: int)
    ensures (v + 5 * k) % 5 == v % 5
  {
  }

  lemma PiAt(s: seq<Bits>, x: int, y: int, z: int)
    requires Shaped(s)
    ensures A(Pi(s), x, y, z) == A(s, x + 3 * y, x, z)
  {
    hide A, Shaped, FromBits;
    FromBitsAt(PiBits(s), x, y, z);
    PiIndex(x, y);
    Congruent(s, x + 3 * y, x, z, x % 5 + 3 * (y % 5), x % 5, z % 64);
  }

  lemma PiInvertibleAt(s: seq<Bits>, x: int, y: int, z: int)
    requires Shaped(s)
    ensures A(Pi(s), y, 2 * x + 3 * y, z) == A(s, x, y, z)
  {
    PiAt(s, y, 2 * x + 3 * y, z);
    PiIndex(x, y);
    Congruent(s, y + 3 * (2 * x + 3 * y), y, z, x, y, z);
  }

  lemma PiInvertible(s: seq<Bits>)
    requires Shaped(s)
    ensures PiInverse(Pi(s)) == s
  {
    forall x, y, z | 0 <= x < 5 && 0 <= y < 5 && 0 <= z < 64
      ensures PiInverseBits(Pi(s))(x, y, z) == A(s, x, y, z)
    {
      PiInvertibleAt(s, x, y, z);
    }
    FromBitsIs(PiInverseBits(Pi(s)), s);
  }

  ghost predicate ChiInverseBit(t: seq<Bits>, x: int, y: int, z: int)
    requires Shaped(t)
  {
    Flip(A(t, x, y, z),
      !A(t, x + 1, y, z) && Flip(A(t, x + 2, y, z), !A(t, x + 3, y, z) && A(t, x + 4, y, z)))
  }

  ghost function ChiInverseBits(t: seq<Bits>): (int, int, int) -> bool
    requires Shaped(t)
  {
    (x, y, z) => ChiInverseBit(t, x, y, z)
  }

  ghost function ChiInverse(t: seq<Bits>): (s: seq<Bits>)
    requires Shaped(t)
    ensures Shaped(s)
  {
    FromBits(ChiInverseBits(t))
  }

  lemma ChiAt(s: seq<Bits>, x: int, y: int, z: int)
    requires Shaped(s)
    ensures A(Chi(s), x, y, z) == ChiBit(s, x, y, z)
  {
    FromBitsAt(ChiBits(s), x, y, z);
    Reduced(s, x, 0, y, z, 0);
    Reduced(s, x, 1, y, z, 0);
    Reduced(s, x, 2, y, z, 0);
  }

  lemma RowWraps(s: seq<Bits>, x: int, y: int, z: int)
    requires Shaped(s)
    ensures A(s, x + 5, y, z) == A(s, x, y, z) && A(s, x + 6, y, z) == A(s, x + 1, y, z)
  {
  }

  lemma ChiRow(a: bool, b: bool, c: bool, d: bool, e: bool)
    ensures Flip(Flip(a, !b && c), !Flip(b, !c && d) &&
      Flip(Flip(c, !d && e), !Flip(d, !e && a) && Flip(e, !a && b))) == a
  {
  }

  lemma ChiInvertibleAt(s: seq<Bits>, x: int, y: int, z: int)
    requires Shaped(s)
    ensures ChiInverseBit(Chi(s), x, y, z) == A(s, x, y, z)
  {
    ChiAt(s, x, y, z);
    ChiAt(s, x + 1, y, z);
    ChiAt(s, x + 2, y, z);
    ChiAt(s, x + 3, y, z);
    ChiAt(s, x + 4, y, z);
    RowWraps(s, x, y, z);
    ChiRow(A(s, x, y, z), A(s, x + 1, y, z), A(s, x + 2, y, z), A(s, x + 3, y, z), A(s, x + 4, y, z));
  }

  lemma ChiInvertible(s: seq<Bits>)
    requires Shaped(s)
    ensures ChiInverse(Chi(s)) == s
  {
    forall x, y, z | 0 <= x < 5 && 0 <= y < 5 && 0 <= z < 64
      ensures ChiInverseBits(Chi(s))(x, y, z) == A(s, x, y, z)
    {
      ChiInvertibleAt(s, x, y, z);
    }
    FromBitsIs(ChiInverseBits(Chi(s)), s);
  }

  lemma IotaAt(s: seq<Bits>, constant: int -> bool, x: int, y: int, z: int)
    requires Shaped(s) && 0 <= x < 5 && 0 <= y < 5 && 0 <= z < 64
    ensures A(Iota(s, constant), x, y, z) == IotaBit(s, constant, x, y, z)
  {
    hide A, Shaped, FromBits;
    FromBitsAt(IotaBits(s, constant), x, y, z);
    assert x % 5 == x && y % 5 == y && z % 64 == z;
  }

  lemma IotaInvertible(s: seq<Bits>, constant: int -> bool)
    requires Shaped(s)
    ensures Iota(Iota(s, constant), constant) == s
  {
    var t := Iota(s, constant);
    forall x, y, z | 0 <= x < 5 && 0 <= y < 5 && 0 <= z < 64
      ensures IotaBits(t, constant)(x, y, z) == A(s, x, y, z)
    {
      IotaAt(s, constant, x, y, z);
    }
    FromBitsIs(IotaBits(t, constant), s);
  }

  ghost function RoundInverse(t: seq<Bits>, round: nat): (s: seq<Bits>)
    requires Shaped(t)
    ensures Shaped(s)
  {
    ThetaInverse(RhoInverse(PiInverse(ChiInverse(Iota(t, RoundConstant(round)))), Offset))
  }

  lemma RoundInvertible(s: seq<Bits>, round: nat)
    requires Shaped(s)
    ensures RoundInverse(Round(s, round), round) == s
  {
    IotaInvertible(Chi(Pi(Rho(Theta(s), Offset))), RoundConstant(round));
    ChiInvertible(Pi(Rho(Theta(s), Offset)));
    PiInvertible(Rho(Theta(s), Offset));
    RhoInvertible(Theta(s), Offset);
    ThetaInvertible(s);
  }

  ghost function RoundsInverse(t: seq<Bits>, n: nat): (s: seq<Bits>)
    requires Shaped(t)
    ensures Shaped(s)
    decreases n
  {
    if n == 0 then t else RoundsInverse(RoundInverse(t, n - 1), n - 1)
  }

  lemma {:induction false} RoundsInvertible(s: seq<Bits>, n: nat)
    requires Shaped(s)
    ensures RoundsInverse(Rounds(s, n), n) == s
  {
    if n > 0 {
      RoundInvertible(Rounds(s, n - 1), n - 1);
      RoundsInvertible(s, n - 1);
    }
  }

  /** Through all 24 rounds, distinct states have distinct images. */
  lemma KeccakFInjective(a: seq<Bits>, b: seq<Bits>)
    requires Shaped(a) && Shaped(b)
    ensures RoundsInverse(KeccakF(a), 24) == a
    ensures KeccakF(a) == KeccakF(b) ==> a == b
  {
    RoundsInvertible(a, 24);
    RoundsInvertible(b, 24);
  }
}
