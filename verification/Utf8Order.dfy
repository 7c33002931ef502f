/** The order of `compareUtf8`: lexicographic on UTF-8 bytes. Strings are sequences of Unicode
  scalar values, so lone surrogates, which UTF-8 cannot tell apart, do not occur.
*/
module Utf8Order {
  type Bytes = seq<nat>

  function Encode(c: char): (b: Bytes)
    ensures 1 <= |b| <= 4
  {
    var n := c as int;
    if n < 0x80 then [n]
    else if n < 0x800 then [0xC0 + n / 0x40, 0x80 + n % 0x40]
    else if n < 0x1_0000 then [0xE0 + n / 0x1000, 0x80 + n / 0x40 % 0x40, 0x80 + n % 0x40]
    else [0xF0 + n / 0x4_0000, 0x80 + n / 0x1000 % 0x40, 0x80 + n / 0x40 % 0x40, 0x80 + n % 0x40]
  }

  /** The shape of the bytes and the number that they carry, as table 3 of RFC 3629 has them. */
  lemma EncodeMeaning(c: char)
    ensures var n, b := c as int, Encode(c);
      && (|b| == 1 <==> n <= 0x7F) && (|b| == 2 <==> 0x80 <= n <= 0x7FF)
      && (|b| == 3 <==> 0x800 <= n <= 0xFFFF) && (|b| == 4 <==> 0x1_0000 <= n)
      && (forall i | 1 <= i < |b| :: 0x80 <= b[i] <= 0xBF)
      && (|b| == 1 ==> b[0] == n) && (|b| == 2 ==> n == (b[0] - 0xC0) * 64 + (b[1] - 0x80))
      && (|b| == 3 ==> n == (b[0] - 0xE0) * 4096 + (b[1] - 0x80) * 64 + (b[2] - 0x80))
      && (|b| == 4 ==> n == (b[0] - 0xF0) * 262144 + (b[1] - 0x80) * 4096 + (b[2] - 0x80) * 64 + (b[3] - 0x80))
  {
    Recombined(c as int);
  }

  function Utf8(s: string): Bytes { if s == "" then [] else Encode(s[0]) + Utf8(s[1..]) }

  /** Buffer.compare(a, b) < 0. */
  predicate BytesLess(a: Bytes, b: Bytes) {
    b != [] && (a == [] || a[0] < b[0] || (a[0] == b[0] && BytesLess(a[1..], b[1..])))
  }

  predicate Less(a: string, b: string) { BytesLess(Utf8(a), Utf8(b)) }

  lemma {:induction false} BytesTotal(a: Bytes, b: Bytes)
    ensures a == b || BytesLess(a, b) || BytesLess(b, a)
    ensures !(BytesLess(a, b) && BytesLess(b, a)) && !BytesLess(a, a)
  {
    if a != [] && b != [] && a[0] == b[0] {
      BytesTotal(a[1..], b[1..]);
      assert a == [a[0]] + a[1..] && b == [b[0]] + b[1..];
    }
    if a != [] { BytesTotal(a[1..], a[1..]); }
  }

  lemma {:induction false} BytesTransitive(a: Bytes, b: Bytes, c: Bytes)
    requires BytesLess(a, b) && BytesLess(b, c)
    ensures BytesLess(a, c)
  {
    if a != [] && a[0] == b[0] == c[0] {
      BytesTransitive(a[1..], b[1..], c[1..]);
    }
  }

  lemma Recombined(n: nat)
    ensures n == n / 0x40 * 0x40 + n % 0x40
    ensures n / 0x40 == n / 0x1000 * 0x40 + n / 0x40 % 0x40
    ensures n / 0x1000 == n / 0x4_0000 * 0x40 + n / 0x1000 % 0x40
  {
  }

  lemma EncodeInjective(c: char, d: char)
    requires Encode(c) == Encode(d)
    ensures c == d
  {
    Recombined(c as int);
    Recombined(d as int);
    assert forall i | 0 <= i < |Encode(c)| :: Encode(c)[i] == Encode(d)[i];
  }

  /** Different strings have different bytes, so the order is total on strings. */
  lemma {:induction false} Utf8Injective(a: string, b: string)
    requires Utf8(a) == Utf8(b)
    ensures a == b
    decreases |a|
  {
    if a != "" && b != "" {
      var x, y := Encode(a[0]), Encode(b[0]);
      assert x[0] == Utf8(a)[0] == Utf8(b)[0] == y[0];
      assert x == Utf8(a)[..|x|] == Utf8(b)[..|y|] == y;
      EncodeInjective(a[0], b[0]);
      assert Utf8(a[1..]) == Utf8(a)[|x|..] == Utf8(b)[|y|..] == Utf8(b[1..]);
      Utf8Injective(a[1..], b[1..]);
    }
  }

  /** compareUtf8 is a strict total order. */
  lemma TotalOrder(a: string, b: string, c: string)
    ensures a == b || Less(a, b) || Less(b, a)
    ensures !(Less(a, b) && Less(b, a)) && !Less(a, a)
    ensures Less(a, b) && Less(b, c) ==> Less(a, c)
  {
    BytesTotal(Utf8(a), Utf8(b));
    BytesTotal(Utf8(a), Utf8(a));
    if Utf8(a) == Utf8(b) { Utf8Injective(a, b); }
    if Less(a, b) && Less(b, c) { BytesTransitive(Utf8(a), Utf8(b), Utf8(c)); }
  }
}
