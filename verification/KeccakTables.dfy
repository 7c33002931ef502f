/** The two tables of evm.ts, and proof that they are the standard's.

  The round constants are matched with the shift register of algorithm 5, the rotation
  offsets with the walk of algorithm 2. Both proofs run the generator symbolically on an
  abstract stream, a few rounds at a time.
*/
module KeccakTables {
  import opened KeccakFips

  const ROTATION: seq<nat> := [
    0, 1, 62, 28, 27,
    36, 44, 6, 55, 20,
    3, 10, 43, 25, 39,
    41, 45, 15, 21, 8,
    18, 2, 61, 56, 14]

  function RoundConstantEntry(round: nat): int {
    match round
    case 0 => 0x0000000000000001
    case 1 => 0x0000000000008082
    case 2 => 0x800000000000808a
    case 3 => 0x8000000080008000
    case 4 => 0x000000000000808b
    case 5 => 0x0000000080000001
    case 6 => 0x8000000080008081
    case 7 => 0x8000000000008009
    case 8 => 0x000000000000008a
    case 9 => 0x0000000000000088
    case 10 => 0x0000000080008009
    case 11 => 0x000000008000000a
    case 12 => 0x000000008000808b
    case 13 => 0x800000000000008b
    case 14 => 0x8000000000008089
    case 15 => 0x8000000000008003
    case 16 => 0x8000000000008002
    case 17 => 0x8000000000000080
    case 18 => 0x000000000000800a
    case 19 => 0x800000008000000a
    case 20 => 0x8000000080008081
    case 21 => 0x8000000000008080
    case 22 => 0x0000000080000001
    case 23 => 0x8000000080008008
    case _ => 0
  }

  // ---- The tables are the standard's ----

  lemma RotationIsOffset(i: nat)
    requires i < 25
    ensures |ROTATION| == 25 && ROTATION[i] == OffsetAt(i) < 64
  {
  }

  function Digit(b: bool): int { if b then 1 else 0 }

  /** The number with bit 2^j - 1 equal to the j-th argument and no other bit set. */
  function Sparse(b0: bool, b1: bool, b2: bool, b3: bool, b4: bool, b5: bool, b6: bool): int {
    Digit(b0) + 0x2 * Digit(b1) + 0x8 * Digit(b2) + 0x80 * Digit(b3) + 0x8000 * Digit(b4)
    + 0x8000_0000 * Digit(b5) + 0x8000_0000_0000_0000 * Digit(b6)
  }

  /** The constant a round draws from the output stream. */
  function ConstantDrawn(rc: nat -> bool, i: nat): int {
    Sparse(rc(7 * i), rc(7 * i + 1), rc(7 * i + 2), rc(7 * i + 3), rc(7 * i + 4), rc(7 * i + 5), rc(7 * i + 6))
  }

  /** `rc` reads bit 0 of a register stream `at` stepped by algorithm 5. */
  ghost predicate Stream(at: nat -> Register, rc: nat -> bool) {
    forall t: nat {:trigger rc(t)} | t < 168 :: rc(t) == at(t).r0 && at(t + 1) == Shifted(at(t))
  }

  ghost predicate Rows0(rc: nat -> bool) {
    && rc(0) && !rc(1) && !rc(2) && !rc(3) && !rc(4) && !rc(5) && !rc(6)
    && !rc(7) && rc(8) && !rc(9) && rc(10) && rc(11) && !rc(12) && !rc(13)
    && !rc(14) && rc(15) && rc(16) && rc(17) && rc(18) && !rc(19) && rc(20)
    && !rc(21) && !rc(22) && !rc(23) && !rc(24) && rc(25) && rc(26) && rc(27)
  }

  lemma Draws0(at: nat -> Register, rc: nat -> bool)
    requires Stream(at, rc) && at(0) == Register(true, false, false, false, false, false, false, false)
    ensures Rows0(rc) && at(28) == Register(true, true, true, true, true, false, true, true)
  {
  }

  lemma Entries0(rc: nat -> bool, round: nat)
    requires Rows0(rc) && 0 <= round < 4
    ensures ConstantDrawn(rc, round) == RoundConstantEntry(round)
  {
  }

  ghost predicate Rows4(rc: nat -> bool) {
    && rc(28) && rc(29) && rc(30) && rc(31) && rc(32) && !rc(33) && !rc(34)
    && rc(35) && !rc(36) && !rc(37) && !rc(38) && !rc(39) && rc(40) && !rc(41)
    && rc(42) && !rc(43) && !rc(44) && rc(45) && rc(46) && rc(47) && rc(48)
    && rc(49) && !rc(50) && rc(51) && !rc(52) && rc(53) && !rc(54) && rc(55)
  }

  lemma Draws4(at: nat -> Register, rc: nat -> bool)
    requires Stream(at, rc) && at(28) == Register(true, true, true, true, true, false, true, true)
    ensures Rows4(rc) && at(56) == Register(false, true, false, true, false, false, true, true)
  {
  }

  lemma Entries4(rc: nat -> bool, round: nat)
    requires Rows4(rc) && 4 <= round < 8
    ensures ConstantDrawn(rc, round) == RoundConstantEntry(round)
  {
  }

  ghost predicate Rows8(rc: nat -> bool) {
    && !rc(56) && rc(57) && rc(58) && rc(59) && !rc(60) && !rc(61) && !rc(62)
    && !rc(63) && !rc(64) && rc(65) && rc(66) && !rc(67) && !rc(68) && !rc(69)
    && rc(70) && !rc(71) && rc(72) && !rc(73) && rc(74) && rc(75) && !rc(76)
    && !rc(77) && rc(78) && rc(79) && !rc(80) && !rc(81) && rc(82) && !rc(83)
  }

  lemma Draws8(at: nat -> Register, rc: nat -> bool)
    requires Stream(at, rc) && at(56) == Register(false, true, false, true, false, false, true, true)
    ensures Rows8(rc) && at(84) == Register(true, false, true, false, true, false, true, true)
  {
  }

  lemma Entries8(rc: nat -> bool, round: nat)
    requires Rows8(rc) && 8 <= round < 12
    ensures ConstantDrawn(rc, round) == RoundConstantEntry(round)
  {
  }

  ghost predicate Rows12(rc: nat -> bool) {
    && rc(84) && rc(85) && rc(86) && rc(87) && rc(88) && rc(89) && !rc(90)
    && rc(91) && rc(92) && rc(93) && rc(94) && !rc(95) && !rc(96) && rc(97)
    && rc(98) && !rc(99) && rc(100) && rc(101) && rc(102) && !rc(103) && rc(104)
    && rc(105) && rc(106) && !rc(107) && !rc(108) && rc(109) && !rc(110) && rc(111)
  }

  lemma Draws12(at: nat -> Register, rc: nat -> bool)
    requires Stream(at, rc) && at(84) == Register(true, false, true, false, true, false, true, true)
    ensures Rows12(rc) && at(112) == Register(false, true, false, true, false, true, false, true)
  {
  }

  lemma Entries12(rc: nat -> bool, round: nat)
    requires Rows12(rc) && 12 <= round < 16
    ensures ConstantDrawn(rc, round) == RoundConstantEntry(round)
  {
  }

  ghost predicate Rows16(rc: nat -> bool) {
    && !rc(112) && rc(113) && !rc(114) && !rc(115) && rc(116) && !rc(117) && rc(118)
    && !rc(119) && !rc(120) && !rc(121) && rc(122) && !rc(123) && !rc(124) && rc(125)
    && !rc(126) && rc(127) && rc(128) && !rc(129) && rc(130) && !rc(131) && !rc(132)
    && !rc(133) && rc(134) && rc(135) && !rc(136) && !rc(137) && rc(138) && rc(139)
  }

  lemma Draws16(at: nat -> Register, rc: nat -> bool)
    requires Stream(at, rc) && at(112) == Register(false, true, false, true, false, true, false, true)
    ensures Rows16(rc) && at(140) == Register(true, true, true, false, true, true, false, false)
  {
  }

  lemma Entries16(rc: nat -> bool, round: nat)
    requires Rows16(rc) && 16 <= round < 20
    ensures ConstantDrawn(rc, round) == RoundConstantEntry(round)
  {
  }

  ghost predicate Rows20(rc: nat -> bool) {
    && rc(140) && !rc(141) && !rc(142) && rc(143) && rc(144) && rc(145) && rc(146)
    && !rc(147) && !rc(148) && !rc(149) && rc(150) && rc(151) && !rc(152) && rc(153)
    && rc(154) && !rc(155) && !rc(156) && !rc(157) && !rc(158) && rc(159) && !rc(160)
    && !rc(161) && !rc(162) && rc(163) && !rc(164) && rc(165) && rc(166) && rc(167)
  }

  lemma Draws20(at: nat -> Register, rc: nat -> bool)
    requires Stream(at, rc) && at(140) == Register(true, true, true, false, true, true, false, false)
    ensures Rows20(rc) && at(168) == Register(false, true, true, true, false, false, false, true)
  {
  }

  lemma Entries20(rc: nat -> bool, round: nat)
    requires Rows20(rc) && 20 <= round < 24
    ensures ConstantDrawn(rc, round) == RoundConstantEntry(round)
  {
  }

  lemma RowsAreEntries(rc: nat -> bool, round: nat)
    requires Rows0(rc) && Rows4(rc) && Rows8(rc) && Rows12(rc) && Rows16(rc) && Rows20(rc)
    requires round < 24
    ensures ConstantDrawn(rc, round) == RoundConstantEntry(round)
  {
    if round < 4 { Entries0(rc, round); }
    else if round < 8 { Entries4(rc, round); }
    else if round < 12 { Entries8(rc, round); }
    else if round < 16 { Entries12(rc, round); }
    else if round < 20 { Entries16(rc, round); }
    else { Entries20(rc, round); }
  }

  lemma StreamGivesEntries(at: nat -> Register, rc: nat -> bool, round: nat)
    requires Stream(at, rc) && at(0) == Register(true, false, false, false, false, false, false, false)
    requires round < 24
    ensures ConstantDrawn(rc, round) == RoundConstantEntry(round)
  {
    hide Stream, ConstantDrawn, RoundConstantEntry, Rows0, Rows4, Rows8, Rows12, Rows16, Rows20;
    Draws0(at, rc);
    Draws4(at, rc);
    Draws8(at, rc);
    Draws12(at, rc);
    Draws16(at, rc);
    Draws20(at, rc);
    RowsAreEntries(rc, round);
  }

  function RegisterStream(): nat -> Register { (t: nat) => RegisterAt(t) }
  function OutputStream(): nat -> bool { (t: nat) => Rc(t) }

  lemma RegistersStream()
    ensures Stream(RegisterStream(), OutputStream())
  {
  }

  /** The table holds the 24 round constants that algorithm 5 of the standard generates. */
  lemma RoundConstantsAreRegister(round: nat)
    requires round < 24
    ensures RoundConstantEntry(round) == ConstantDrawn(OutputStream(), round)
  {
    RegistersStream();
    StreamGivesEntries(RegisterStream(), OutputStream(), round);
  }
}
