/** Keccak-f[1600] as FIPS 202 defines it, bit by bit on the state array A[x,y,z].

  A state is its 25 lanes of 64 bits, lane (x,y) at index x + 5y, bit z of a lane
  being A[x,y,z]. Nothing here is taken from the code: the step mappings are those
  of sections 3.2.1 to 3.2.5, the rotation offsets come from the walk of section
  3.2.2 and the round constants from the shift register of section 3.2.5.
*/
module KeccakFips {
  type Bits = seq<bool>

  ghost predicate Shaped(s: seq<Bits>) {
    |s| == 25 && forall i | 0 <= i < 25 :: |s[i]| == 64
  }

  /** A[x,y,z], coordinates taken modulo 5, 5 and 64 as the standard does. */
  ghost predicate A(s: seq<Bits>, x: int, y: int, z: int)
    requires Shaped(s)
  {
    s[x % 5 + 5 * (y % 5)][z % 64]
  }

  /** Coordinates may be reduced before or after a shift. */
  lemma Mod5(x: int, s: int)
    ensures (x % 5 + s) % 5 == (x + s) % 5
  {
  }

  lemma Mod64(z: int, s: int)
    ensures (z % 64 + s) % 64 == (z + s) % 64
  {
  }

  lemma Congruent(s: seq<Bits>, x: int, y: int, z: int, x': int, y': int, z': int)
    requires Shaped(s)
    requires x % 5 == x' % 5 && y % 5 == y' % 5 && z % 64 == z' % 64
    ensures A(s, x, y, z) == A(s, x', y', z')
  {
  }

  lemma Reduced(s: seq<Bits>, x: int, dx: int, y: int, z: int, dz: int)
    requires Shaped(s)
    ensures A(s, x % 5 + dx, y % 5, z % 64 + dz) == A(s, x + dx, y, z + dz)
  {
    Mod5(x, dx);
    Mod64(z, dz);
  }

  function Flip(p: bool, q: bool): bool { p != q }

  ghost function FromBits(f: (int, int, int) -> bool): (s: seq<Bits>)
    ensures Shaped(s)
  {
    seq(25, i requires 0 <= i < 25 => seq(64, z requires 0 <= z < 64 => f(i % 5, i / 5, z)))
  }

  lemma FromBitsAt(f: (int, int, int) -> bool, x: int, y: int, z: int)
    ensures A(FromBits(f), x, y, z) == f(x % 5, y % 5, z % 64)
  {
    var i := x % 5 + 5 * (y % 5);
    assert i % 5 == x % 5 && i / 5 == y % 5;
  }

  lemma FromBitsIs(f: (int, int, int) -> bool, s: seq<Bits>)
    requires Shaped(s)
    requires forall x, y, z | 0 <= x < 5 && 0 <= y < 5 && 0 <= z < 64 :: f(x, y, z) == A(s, x, y, z)
    ensures FromBits(f) == s
  {
    hide A, Shaped, FromBits;
    forall x, y, z | 0 <= x < 5 && 0 <= y < 5 && 0 <= z < 64 ensures A(FromBits(f), x, y, z) == A(s, x, y, z) {
      FromBitsAt(f, x, y, z);
      assert x % 5 == x && y % 5 == y && z % 64 == z;
    }
    SameState(FromBits(f), s);
  }

  /** A state is determined by its 1600 bits. */
  lemma SameState(a: seq<Bits>, b: seq<Bits>)
    requires Shaped(a) && Shaped(b)
    requires forall x, y, z | 0 <= x < 5 && 0 <= y < 5 && 0 <= z < 64 :: A(a, x, y, z) == A(b, x, y, z)
    ensures a == b
  {
    forall i | 0 <= i < 25 ensures a[i] == b[i] {
      forall z | 0 <= z < 64 ensures a[i][z] == b[i][z] {
        assert A(a, i % 5, i / 5, z) == A(b, i % 5, i / 5, z);
      }
    }
  }

  // ---- Section 3.2.1: theta ----

  /** C[x,z], the parity of a column. */
  ghost predicate C(s: seq<Bits>, x: int, z: int)
    requires Shaped(s)
  {
    Flip(A(s, x, 0, z), Flip(A(s, x, 1, z), Flip(A(s, x, 2, z), Flip(A(s, x, 3, z), A(s, x, 4, z)))))
  }

  ghost predicate ThetaBit(s: seq<Bits>, x: int, y: int, z: int)
    requires Shaped(s)
  {
    Flip(A(s, x, y, z), Flip(C(s, x - 1, z), C(s, x + 1, z - 1)))
  }

  ghost function ThetaBits(s: seq<Bits>): (int, int, int) -> bool
    requires Shaped(s)
  {
    (x, y, z) => ThetaBit(s, x, y, z)
  }

  ghost function Theta(s: seq<Bits>): (r: seq<Bits>)
    requires Shaped(s)
    ensures Shaped(r)
  {
    FromBits(ThetaBits(s))
  }

  lemma ReducedColumn(s: seq<Bits>, x: int, dx: int, z: int, dz: int)
    requires Shaped(s)
    ensures C(s, x % 5 + dx, z % 64 + dz) == C(s, x + dx, z + dz)
  {
    Reduced(s, x, dx, 0, z, dz);
    Reduced(s, x, dx, 1, z, dz);
    Reduced(s, x, dx, 2, z, dz);
    Reduced(s, x, dx, 3, z, dz);
    Reduced(s, x, dx, 4, z, dz);
  }

  // ---- Section 3.2.2: rho ----

  /** The rotation offset of the lane at index `i`. */
  function OffsetAt(i: int): nat {
    match i
    case 1 => 1
    case 2 => 62
    case 3 => 28
    case 4 => 27
    case 5 => 36
    case 6 => 44
    case 7 => 6
    case 8 => 55
    case 9 => 20
    case 10 => 3
    case 11 => 10
    case 12 => 43
    case 13 => 25
    case 14 => 39
    case 15 => 41
    case 16 => 45
    case 17 => 15
    case 18 => 21
    case 19 => 8
    case 20 => 18
    case 21 => 2
    case 22 => 61
    case 23 => 56
    case 24 => 14
    case _ => 0
  }

  function Offset(x: int, y: int): nat { OffsetAt(x % 5 + 5 * (y % 5)) }

  datatype Position = Position(x: int, y: int) {
    predicate InSheet() { 0 <= x < 5 && 0 <= y < 5 }
  }

  function Next(p: Position): Position { Position(p.y, (2 * p.x + 3 * p.y) % 5) }

  /** The walk of algorithm 2 and the offsets met on it. */
  ghost predicate Walk(at: nat -> Position, met: nat -> nat) {
    forall t: nat {:trigger met(t)} :: met(t) == OffsetAt(at(t).x + 5 * at(t).y) && at(t + 1) == Next(at(t))
  }

  /** Step `t` meets the offset (t + 1)(t + 2)/2 at a lane other than the first one's. */
  ghost predicate OnWalk(at: nat -> Position, met: nat -> nat, t: nat) {
    met(t) == (t + 1) * (t + 2) / 2 % 64 && at(t).InSheet() && (t > 0 ==> at(t) != Position(1, 0))
  }

  lemma Walk0(at: nat -> Position, met: nat -> nat)
    requires Walk(at, met) && at(0) == Position(1, 0)
    ensures OnWalk(at, met, 0) && OnWalk(at, met, 1) && OnWalk(at, met, 2) && at(3) == Position(1, 2)
  {
    assert met(0) == 1 && at(1) == Position(0, 2);
    assert met(1) == 3 && at(2) == Position(2, 1);
    assert met(2) == 6 && at(3) == Position(1, 2);
  }

  lemma Walk3(at: nat -> Position, met: nat -> nat)
    requires Walk(at, met) && at(3) == Position(1, 2)
    ensures OnWalk(at, met, 3) && OnWalk(at, met, 4) && OnWalk(at, met, 5) && at(6) == Position(3, 0)
  {
    assert met(3) == 10 && at(4) == Position(2, 3);
    assert met(4) == 15 && at(5) == Position(3, 3);
    assert met(5) == 21 && at(6) == Position(3, 0);
  }

  lemma Walk6(at: nat -> Position, met: nat -> nat)
    requires Walk(at, met) && at(6) == Position(3, 0)
    ensures OnWalk(at, met, 6) && OnWalk(at, met, 7) && OnWalk(at, met, 8) && at(9) == Position(3, 1)
  {
    assert met(6) == 28 && at(7) == Position(0, 1);
    assert met(7) == 36 && at(8) == Position(1, 3);
    assert met(8) == 45 && at(9) == Position(3, 1);
  }

  lemma Walk9(at: nat -> Position, met: nat -> nat)
    requires Walk(at, met) && at(9) == Position(3, 1)
    ensures OnWalk(at, met, 9) && OnWalk(at, met, 10) && OnWalk(at, met, 11) && at(12) == Position(4, 0)
  {
    assert met(9) == 55 && at(10) == Position(1, 4);
    assert met(10) == 2 && at(11) == Position(4, 4);
    assert met(11) == 14 && at(12) == Position(4, 0);
  }

  lemma Walk12(at: nat -> Position, met: nat -> nat)
    requires Walk(at, met) && at(12) == Position(4, 0)
    ensures OnWalk(at, met, 12) && OnWalk(at, met, 13) && OnWalk(at, met, 14) && at(15) == Position(4, 3)
  {
    assert met(12) == 27 && at(13) == Position(0, 3);
    assert met(13) == 41 && at(14) == Position(3, 4);
    assert met(14) == 56 && at(15) == Position(4, 3);
  }

  lemma Walk15(at: nat -> Position, met: nat -> nat)
    requires Walk(at, met) && at(15) == Position(4, 3)
    ensures OnWalk(at, met, 15) && OnWalk(at, met, 16) && OnWalk(at, met, 17) && at(18) == Position(2, 0)
  {
    assert met(15) == 8 && at(16) == Position(3, 2);
    assert met(16) == 25 && at(17) == Position(2, 2);
    assert met(17) == 43 && at(18) == Position(2, 0);
  }

  lemma Walk18(at: nat -> Position, met: nat -> nat)
    requires Walk(at, met) && at(18) == Position(2, 0)
    ensures OnWalk(at, met, 18) && OnWalk(at, met, 19) && OnWalk(at, met, 20) && at(21) == Position(2, 4)
  {
    assert met(18) == 62 && at(19) == Position(0, 4);
    assert met(19) == 18 && at(20) == Position(4, 2);
    assert met(20) == 39 && at(21) == Position(2, 4);
  }

  lemma Walk21(at: nat -> Position, met: nat -> nat)
    requires Walk(at, met) && at(21) == Position(2, 4)
    ensures OnWalk(at, met, 21) && OnWalk(at, met, 22) && OnWalk(at, met, 23) && at(24) == Position(1, 0)
  {
    assert met(21) == 61 && at(22) == Position(4, 1);
    assert met(22) == 20 && at(23) == Position(1, 1);
    assert met(23) == 44 && at(24) == Position(1, 0);
  }

  lemma AllOnWalk(at: nat -> Position, met: nat -> nat)
    requires Walk(at, met) && at(0) == Position(1, 0)
    ensures forall t: nat | t < 24 :: OnWalk(at, met, t)
    ensures at(24) == at(0)
  {
    Walk0(at, met);
    Walk3(at, met);
    Walk6(at, met);
    Walk9(at, met);
    Walk12(at, met);
    Walk15(at, met);
    Walk18(at, met);
    Walk21(at, met);
    hide OnWalk;
    forall t: nat | t < 24 ensures OnWalk(at, met, t) {
      assert t in {0, 1, 2, 3, 4, 5, 6, 7, 8, 9, 10, 11, 12, 13, 14, 15, 16, 17, 18, 19, 20, 21, 22, 23};
    }
  }

  /** A lane has one predecessor. */
  lemma OneStepBack(p: Position, q: Position)
    requires p.InSheet() && q.InSheet() && Next(p) == Next(q)
    ensures p == q
  {
  }

  /** So two visits to one lane would mean an earlier return to the first. */
  lemma {:induction false} NoReturn(at: nat -> Position, met: nat -> nat, i: nat, j: nat)
    requires Walk(at, met) && (forall t: nat | t < 24 :: OnWalk(at, met, t)) && at(0) == Position(1, 0) && i < j < 24
    ensures at(i) != at(j)
    decreases i
  {
    assert OnWalk(at, met, i) && OnWalk(at, met, j);
    if i > 0 && at(i) == at(j) {
      assert met(i - 1) >= 0 && met(j - 1) >= 0;
      assert OnWalk(at, met, i - 1) && OnWalk(at, met, j - 1);
      OneStepBack(at(i - 1), at(j - 1));
      NoReturn(at, met, i - 1, j - 1);
    }
  }

  /** The walk meets the offset (t + 1)(t + 2)/2 at step t, visits 24 lanes, and closes. */
  lemma OffsetsFollowWalk(at: nat -> Position, met: nat -> nat)
    requires Walk(at, met) && at(0) == Position(1, 0)
    ensures forall t: nat | t < 24 :: met(t) == (t + 1) * (t + 2) / 2 % 64
    ensures forall i: nat, j: nat | i < j < 24 :: at(i) != at(j)
    ensures at(24) == at(0)
  {
    AllOnWalk(at, met);
    forall t: nat | t < 24 ensures met(t) == (t + 1) * (t + 2) / 2 % 64 { assert OnWalk(at, met, t); }
    forall i: nat, j: nat | i < j < 24 ensures at(i) != at(j) { NoReturn(at, met, i, j); }
  }

  ghost function RhoBits(s: seq<Bits>, offset: (int, int) -> nat): (int, int, int) -> bool
    requires Shaped(s)
  {
    (x, y, z) => A(s, x, y, z - offset(x, y))
  }

  ghost function Rho(s: seq<Bits>, offset: (int, int) -> nat): (r: seq<Bits>)
    requires Shaped(s)
    ensures Shaped(r)
  {
    FromBits(RhoBits(s, offset))
  }

  // ---- Section 3.2.3: pi ----

  ghost function PiBits(s: seq<Bits>): (int, int, int) -> bool
    requires Shaped(s)
  {
    (x, y, z) => A(s, x + 3 * y, x, z)
  }

  ghost function Pi(s: seq<Bits>): (r: seq<Bits>)
    requires Shaped(s)
    ensures Shaped(r)
  {
    FromBits(PiBits(s))
  }

  // ---- Section 3.2.4: chi ----

  ghost predicate ChiBit(s: seq<Bits>, x: int, y: int, z: int)
    requires Shaped(s)
  {
    Flip(A(s, x, y, z), Flip(A(s, x + 1, y, z), true) && A(s, x + 2, y, z))
  }

  ghost function ChiBits(s: seq<Bits>): (int, int, int) -> bool
    requires Shaped(s)
  {
    (x, y, z) => ChiBit(s, x, y, z)
  }

  ghost function Chi(s: seq<Bits>): (r: seq<Bits>)
    requires Shaped(s)
    ensures Shaped(r)
  {
    FromBits(ChiBits(s))
  }

  // ---- Section 3.2.5: iota ----

  datatype Register = Register(r0: bool, r1: bool, r2: bool, r3: bool, r4: bool, r5: bool, r6: bool, r7: bool)

  /** One step of algorithm 5: prepend 0, add the bit pushed out into bits 0, 4, 5 and 6. */
  function Shifted(r: Register): Register {
    Register(r.r7, r.r0, r.r1, r.r2, Flip(r.r3, r.r7), Flip(r.r4, r.r7), Flip(r.r5, r.r7), r.r6)
  }

  function RegisterAt(t: nat): Register {
    if t == 0 then Register(true, false, false, false, false, false, false, false)
    else Shifted(RegisterAt(t - 1))
  }

  predicate Rc(t: nat) { RegisterAt(t % 255).r0 }

  /** Bit z of the round constant: set only at z = 2^j - 1, from rc(j + 7 round). */
  predicate RoundConstantBit(round: nat, z: int) {
    match z
    case 0 => Rc(7 * round)
    case 1 => Rc(7 * round + 1)
    case 3 => Rc(7 * round + 2)
    case 7 => Rc(7 * round + 3)
    case 15 => Rc(7 * round + 4)
    case 31 => Rc(7 * round + 5)
    case 63 => Rc(7 * round + 6)
    case _ => false
  }

  function RoundConstant(round: nat): int -> bool { z => RoundConstantBit(round, z) }

  ghost predicate IotaBit(s: seq<Bits>, constant: int -> bool, x: int, y: int, z: int)
    requires Shaped(s)
  {
    Flip(A(s, x, y, z), x == 0 && y == 0 && constant(z))
  }

  ghost function IotaBits(s: seq<Bits>, constant: int -> bool): (int, int, int) -> bool
    requires Shaped(s)
  {
    (x, y, z) => IotaBit(s, constant, x, y, z)
  }

  ghost function Iota(s: seq<Bits>, constant: int -> bool): (r: seq<Bits>)
    requires Shaped(s)
    ensures Shaped(r)
  {
    FromBits(IotaBits(s, constant))
  }

  // ---- Section 3.3: the permutation ----

  ghost function Round(s: seq<Bits>, round: nat): (r: seq<Bits>)
    requires Shaped(s)
    ensures Shaped(r)
  {
    Iota(Chi(Pi(Rho(Theta(s), Offset))), RoundConstant(round))
  }

  ghost function Rounds(s: seq<Bits>, n: nat): (r: seq<Bits>)
    requires Shaped(s)
    ensures Shaped(r)
  {
    if n == 0 then s else Round(Rounds(s, n - 1), n - 1)
  }

  ghost function KeccakF(s: seq<Bits>): (r: seq<Bits>)
    requires Shaped(s)
    ensures Shaped(r)
  {
    Rounds(s, 24)
  }
}
