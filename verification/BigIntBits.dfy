/** JavaScript bigints seen as infinite two's-complement bit strings.

  The Keccak code of evm.ts works on unbounded bigints and cuts them back to
  64 bits with a mask. Here every bigint operator it uses is a function on `int`,
  and each comes with a lemma that says what it does to bit `i`.
*/
module BigIntBits {

  /** Bit `i` of the two's-complement reading of `v`; halving floors, as `>>` does. */
  predicate Bit(v: int, i: nat)
    decreases i
  {
    if i == 0 then v % 2 == 1 else Bit(v / 2, i - 1)
  }

  function Pow2(n: nat): (p: nat)
    ensures p >= 1
  {
    if n == 0 then 1 else 2 * Pow2(n - 1)
  }

  datatype Connective = And | Or | Xor {
    predicate Holds(p: bool, q: bool) {
      match this
      case And => p && q
      case Or => p || q
      case Xor => p != q
    }
  }

  function Abs(v: int): nat { if v < 0 then -v else v }

  predicate SignOnly(v: int) { v == 0 || v == -1 }

  /** The bigint operators `&`, `|` and `^`, bit by bit from the low end. */
  function Bitwise(c: Connective, a: int, b: int): int
    decreases Abs(a) + Abs(b)
  {
    if SignOnly(a) && SignOnly(b) then
      if c.Holds(a == -1, b == -1) then -1 else 0
    else
      2 * Bitwise(c, a / 2, b / 2) + (if c.Holds(a % 2 == 1, b % 2 == 1) then 1 else 0)
  }

  function BitAnd(a: int, b: int): int { Bitwise(And, a, b) }
  function BitOr(a: int, b: int): int { Bitwise(Or, a, b) }
  function BitXor(a: int, b: int): int { Bitwise(Xor, a, b) }
  function BitNot(a: int): int { -a - 1 }

  function ShiftLeft(v: int, n: nat): int
    decreases n
  {
    if n == 0 then v else ShiftLeft(2 * v, n - 1)
  }

  function ShiftRight(v: int, n: nat): int
    decreases n
  {
    if n == 0 then v else ShiftRight(v / 2, n - 1)
  }

  lemma SignOnlyBits(v: int, i: nat)
    requires SignOnly(v)
    ensures Bit(v, i) == (v == -1)
  {
  }

  lemma {:induction false} BitwiseBit(c: Connective, a: int, b: int, i: nat)
    ensures Bit(Bitwise(c, a, b), i) == c.Holds(Bit(a, i), Bit(b, i))
    decreases i
  {
    var r := Bitwise(c, a, b);
    if SignOnly(a) && SignOnly(b) {
      SignOnlyBits(a, i);
      SignOnlyBits(b, i);
      SignOnlyBits(r, i);
    } else if i > 0 {
      assert r / 2 == Bitwise(c, a / 2, b / 2);
      BitwiseBit(c, a / 2, b / 2, i - 1);
    }
  }

  lemma {:induction false} NotBit(a: int, i: nat)
    ensures Bit(BitNot(a), i) == !Bit(a, i)
    decreases i
  {
    if i > 0 {
      assert BitNot(a) / 2 == BitNot(a / 2);
      NotBit(a / 2, i - 1);
    }
  }

  lemma {:induction false} ShiftRightBit(v: int, n: nat, i: nat)
    ensures Bit(ShiftRight(v, n), i) == Bit(v, n + i)
    decreases n
  {
    if n > 0 {
      ShiftRightBit(v / 2, n - 1, i);
    }
  }

  lemma {:induction false} ShiftLeftBit(v: int, n: nat, i: nat)
    ensures Bit(ShiftLeft(v, n), i) == (i >= n && Bit(v, i - n))
    decreases n
  {
    if n > 0 {
      ShiftLeftBit(2 * v, n - 1, i);
      if i >= n {
        assert Bit(2 * v, i - n + 1) == Bit(v, i - n);
      }
    }
  }

  predicate Fits(v: int, n: nat) { 0 <= v < Pow2(n) }

  /** The value whose bit `i` is `bits[i]`. */
  function Pack(bits: seq<bool>): (v: nat)
    ensures Fits(v, |bits|)
  {
    if bits == [] then 0 else (if bits[0] then 1 else 0) + 2 * Pack(bits[1..])
  }

  lemma {:induction false} PackBit(bits: seq<bool>, i: nat)
    ensures Bit(Pack(bits), i) == (i < |bits| && bits[i])
    decreases i
  {
    if bits == [] {
      SignOnlyBits(0, i);
    } else if i > 0 {
      PackBit(bits[1..], i - 1);
    }
  }

  /** A value fits in `n` bits exactly when it has no set bit from `n` up. */
  lemma {:induction false} FitsBits(v: int, n: nat, i: nat)
    requires Fits(v, n) && i >= n
    ensures !Bit(v, i)
    decreases n
  {
    if n == 0 {
      SignOnlyBits(0, i);
    } else {
      FitsBits(v / 2, n - 1, i - 1);
    }
  }

  /** Two values of width `n` with the same `n` low bits are the same value. */
  lemma {:induction false} SameBitsSameValue(a: int, b: int, n: nat)
    requires Fits(a, n) && Fits(b, n)
    requires forall i: nat | i < n :: Bit(a, i) == Bit(b, i)
    ensures a == b
    decreases n
  {
    if n > 0 {
      assert Bit(a, 0) == Bit(b, 0);
      forall i: nat | i < n - 1 ensures Bit(a / 2, i) == Bit(b / 2, i) {
        assert Bit(a, i + 1) == Bit(b, i + 1);
      }
      SameBitsSameValue(a / 2, b / 2, n - 1);
    }
  }

  /** Masking with 2^n - 1 keeps exactly the low `n` bits, whatever the sign. */
  lemma {:induction false} MaskBits(v: int, n: nat, i: nat)
    ensures Fits(BitAnd(v, Pow2(n) - 1), n)
    ensures Bit(BitAnd(v, Pow2(n) - 1), i) == (i < n && Bit(v, i))
  {
    BitwiseBit(And, v, Pow2(n) - 1, i);
    OnesBit(n, i);
    MaskFits(v, n);
  }

  lemma {:induction false} OnesBit(n: nat, i: nat)
    ensures Bit(Pow2(n) - 1, i) == (i < n)
    decreases n
  {
    if n == 0 {
      SignOnlyBits(0, i);
    } else if i > 0 {
      assert (Pow2(n) - 1) / 2 == Pow2(n - 1) - 1;
      OnesBit(n - 1, i - 1);
    }
  }

  lemma {:induction false} MaskFits(v: int, n: nat)
    ensures Fits(BitAnd(v, Pow2(n) - 1), n)
    decreases Abs(v) + n
  {
    var m := Pow2(n) - 1;
    if n > 0 {
      assert m / 2 == Pow2(n - 1) - 1;
      MaskFits(v / 2, n - 1);
    } else if !SignOnly(v) {
      MaskFits(v / 2, 0);
    }
  }

  /** A bitwise combination of two width-`n` values keeps that width. */
  lemma {:induction false} BitwiseFits(c: Connective, a: int, b: int, n: nat)
    requires Fits(a, n) && Fits(b, n)
    ensures Fits(Bitwise(c, a, b), n)
    decreases n
  {
    if n > 0 {
      BitwiseFits(c, a / 2, b / 2, n - 1);
    }
  }
}
