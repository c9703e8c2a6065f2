/** The 11 butterfly stages of `idct64_new_sse2` (av1/common/x86/av1_inv_txfm_sse2.c lines 583-1328),
    each lane written as the source writes it, and the facts about their shape that the
    kernel's properties rest on. */
module Idct64Stages {
  import opened Fixed
  import opened Butterfly
  import opened Network
  import opened Permutation

  const Width: nat := 64
  const Log2Width: nat := 6

  /** Stage 1 (lines 674-739): lane i is loaded from input lane `BitRev(6, i)`, the 6-bit
      reversal of i (x1[1] = input[32], x1[2] = input[16], x1[3] = input[48], ...). */
  function Stage1(i: nat): Lane {
    Take(BitRev(Log2Width, i))
  }

  /** Stage 1 is the load order the source writes out lane by lane in lines 674-739. */
  lemma Stage1IsSourceOrder()
    ensures [Stage1(0), Stage1(1), Stage1(2), Stage1(3), Stage1(4), Stage1(5), Stage1(6), Stage1(7),
             Stage1(8), Stage1(9), Stage1(10), Stage1(11), Stage1(12), Stage1(13), Stage1(14),
             Stage1(15), Stage1(16), Stage1(17), Stage1(18), Stage1(19), Stage1(20), Stage1(21),
             Stage1(22), Stage1(23), Stage1(24), Stage1(25), Stage1(26), Stage1(27), Stage1(28),
             Stage1(29), Stage1(30), Stage1(31), Stage1(32), Stage1(33), Stage1(34), Stage1(35),
             Stage1(36), Stage1(37), Stage1(38), Stage1(39), Stage1(40), Stage1(41), Stage1(42),
             Stage1(43), Stage1(44), Stage1(45), Stage1(46), Stage1(47), Stage1(48), Stage1(49),
             Stage1(50), Stage1(51), Stage1(52), Stage1(53), Stage1(54), Stage1(55), Stage1(56),
             Stage1(57), Stage1(58), Stage1(59), Stage1(60), Stage1(61), Stage1(62), Stage1(63)]
         == [Take(0), Take(32), Take(16), Take(48), Take(8), Take(40), Take(24), Take(56), Take(4),
             Take(36), Take(20), Take(52), Take(12), Take(44), Take(28), Take(60), Take(2), Take(34),
             Take(18), Take(50), Take(10), Take(42), Take(26), Take(58), Take(6), Take(38), Take(22),
             Take(54), Take(14), Take(46), Take(30), Take(62), Take(1), Take(33), Take(17), Take(49),
             Take(9), Take(41), Take(25), Take(57), Take(5), Take(37), Take(21), Take(53), Take(13),
             Take(45), Take(29), Take(61), Take(3), Take(35), Take(19), Take(51), Take(11), Take(43),
             Take(27), Take(59), Take(7), Take(39), Take(23), Take(55), Take(15), Take(47), Take(31),
             Take(63)]
  {
    Stage1IsSourceOrderFrom0();
    Stage1IsSourceOrderFrom8();
    Stage1IsSourceOrderFrom16();
    Stage1IsSourceOrderFrom24();
    Stage1IsSourceOrderFrom32();
    Stage1IsSourceOrderFrom40();
    Stage1IsSourceOrderFrom48();
    Stage1IsSourceOrderFrom56();
  }

  /** Lanes 0-7 of the load order. */
  lemma Stage1IsSourceOrderFrom0()
    ensures [Stage1(0), Stage1(1), Stage1(2), Stage1(3), Stage1(4), Stage1(5), Stage1(6), Stage1(7)]
         == [Take(0), Take(32), Take(16), Take(48), Take(8), Take(40), Take(24), Take(56)]
  {
    assert Pow2(0) == 1;
    assert BitRev(1, 0) == 0;
    assert Pow2(1) == 2;
    assert BitRev(2, 0) == 0;
    assert Pow2(2) == 4;
    assert BitRev(3, 0) == 0;
    assert Pow2(3) == 8;
    assert BitRev(4, 0) == 0;
    assert BitRev(4, 1) == 8;
    assert Pow2(4) == 16;
    assert BitRev(5, 0) == 0;
    assert BitRev(5, 1) == 16;
    assert BitRev(5, 2) == 8;
    assert BitRev(5, 3) == 24;
    assert Pow2(5) == 32;
    assert BitRev(6, 0) == 0;
    assert BitRev(6, 1) == 32;
    assert BitRev(6, 2) == 16;
    assert BitRev(6, 3) == 48;
    assert BitRev(6, 4) == 8;
    assert BitRev(6, 5) == 40;
    assert BitRev(6, 6) == 24;
    assert BitRev(6, 7) == 56;
  }

  /** Lanes 8-15 of the load order. */
  lemma Stage1IsSourceOrderFrom8()
    ensures [Stage1(8), Stage1(9), Stage1(10), Stage1(11), Stage1(12), Stage1(13), Stage1(14),
             Stage1(15)]
         == [Take(4), Take(36), Take(20), Take(52), Take(12), Take(44), Take(28), Take(60)]
  {
    assert Pow2(0) == 1;
    assert BitRev(1, 0) == 0;
    assert Pow2(1) == 2;
    assert BitRev(2, 0) == 0;
    assert Pow2(2) == 4;
    assert BitRev(3, 1) == 4;
    assert Pow2(3) == 8;
    assert BitRev(4, 2) == 4;
    assert BitRev(4, 3) == 12;
    assert Pow2(4) == 16;
    assert BitRev(5, 4) == 4;
    assert BitRev(5, 5) == 20;
    assert BitRev(5, 6) == 12;
    assert BitRev(5, 7) == 28;
    assert Pow2(5) == 32;
    assert BitRev(6, 8) == 4;
    assert BitRev(6, 9) == 36;
    assert BitRev(6, 10) == 20;
    assert BitRev(6, 11) == 52;
    assert BitRev(6, 12) == 12;
    assert BitRev(6, 13) == 44;
    assert BitRev(6, 14) == 28;
    assert BitRev(6, 15) == 60;
  }

  /** Lanes 16-23 of the load order. */
  lemma Stage1IsSourceOrderFrom16()
    ensures [Stage1(16), Stage1(17), Stage1(18), Stage1(19), Stage1(20), Stage1(21), Stage1(22),
             Stage1(23)]
         == [Take(2), Take(34), Take(18), Take(50), Take(10), Take(42), Take(26), Take(58)]
  {
    assert Pow2(0) == 1;
    assert BitRev(1, 0) == 0;
    assert Pow2(1) == 2;
    assert BitRev(2, 1) == 2;
    assert Pow2(2) == 4;
    assert BitRev(3, 2) == 2;
    assert Pow2(3) == 8;
    assert BitRev(4, 4) == 2;
    assert BitRev(4, 5) == 10;
    assert Pow2(4) == 16;
    assert BitRev(5, 8) == 2;
    assert BitRev(5, 9) == 18;
    assert BitRev(5, 10) == 10;
    assert BitRev(5, 11) == 26;
    assert Pow2(5) == 32;
    assert BitRev(6, 16) == 2;
    assert BitRev(6, 17) == 34;
    assert BitRev(6, 18) == 18;
    assert BitRev(6, 19) == 50;
    assert BitRev(6, 20) == 10;
    assert BitRev(6, 21) == 42;
    assert BitRev(6, 22) == 26;
    assert BitRev(6, 23) == 58;
  }

  /** Lanes 24-31 of the load order. */
  lemma Stage1IsSourceOrderFrom24()
    ensures [Stage1(24), Stage1(25), Stage1(26), Stage1(27), Stage1(28), Stage1(29), Stage1(30),
             Stage1(31)]
         == [Take(6), Take(38), Take(22), Take(54), Take(14), Take(46), Take(30), Take(62)]
  {
    assert Pow2(0) == 1;
    assert BitRev(1, 0) == 0;
    assert Pow2(1) == 2;
    assert BitRev(2, 1) == 2;
    assert Pow2(2) == 4;
    assert BitRev(3, 3) == 6;
    assert Pow2(3) == 8;
    assert BitRev(4, 6) == 6;
    assert BitRev(4, 7) == 14;
    assert Pow2(4) == 16;
    assert BitRev(5, 12) == 6;
    assert BitRev(5, 13) == 22;
    assert BitRev(5, 14) == 14;
    assert BitRev(5, 15) == 30;
    assert Pow2(5) == 32;
    assert BitRev(6, 24) == 6;
    assert BitRev(6, 25) == 38;
    assert BitRev(6, 26) == 22;
    assert BitRev(6, 27) == 54;
    assert BitRev(6, 28) == 14;
    assert BitRev(6, 29) == 46;
    assert BitRev(6, 30) == 30;
    assert BitRev(6, 31) == 62;
  }

  /** Lanes 32-39 of the load order. */
  lemma Stage1IsSourceOrderFrom32()
    ensures [Stage1(32), Stage1(33), Stage1(34), Stage1(35), Stage1(36), Stage1(37), Stage1(38),
             Stage1(39)]
         == [Take(1), Take(33), Take(17), Take(49), Take(9), Take(41), Take(25), Take(57)]
  {
    assert Pow2(0) == 1;
    assert BitRev(1, 1) == 1;
    assert Pow2(1) == 2;
    assert BitRev(2, 2) == 1;
    assert Pow2(2) == 4;
    assert BitRev(3, 4) == 1;
    assert Pow2(3) == 8;
    assert BitRev(4, 8) == 1;
    assert BitRev(4, 9) == 9;
    assert Pow2(4) == 16;
    assert BitRev(5, 16) == 1;
    assert BitRev(5, 17) == 17;
    assert BitRev(5, 18) == 9;
    assert BitRev(5, 19) == 25;
    assert Pow2(5) == 32;
    assert BitRev(6, 32) == 1;
    assert BitRev(6, 33) == 33;
    assert BitRev(6, 34) == 17;
    assert BitRev(6, 35) == 49;
    assert BitRev(6, 36) == 9;
    assert BitRev(6, 37) == 41;
    assert BitRev(6, 38) == 25;
    assert BitRev(6, 39) == 57;
  }

  /** Lanes 40-47 of the load order. */
  lemma Stage1IsSourceOrderFrom40()
    ensures [Stage1(40), Stage1(41), Stage1(42), Stage1(43), Stage1(44), Stage1(45), Stage1(46),
             Stage1(47)]
         == [Take(5), Take(37), Take(21), Take(53), Take(13), Take(45), Take(29), Take(61)]
  {
    assert Pow2(0) == 1;
    assert BitRev(1, 1) == 1;
    assert Pow2(1) == 2;
    assert BitRev(2, 2) == 1;
    assert Pow2(2) == 4;
    assert BitRev(3, 5) == 5;
    assert Pow2(3) == 8;
    assert BitRev(4, 10) == 5;
    assert BitRev(4, 11) == 13;
    assert Pow2(4) == 16;
    assert BitRev(5, 20) == 5;
    assert BitRev(5, 21) == 21;
    assert BitRev(5, 22) == 13;
    assert BitRev(5, 23) == 29;
    assert Pow2(5) == 32;
    assert BitRev(6, 40) == 5;
    assert BitRev(6, 41) == 37;
    assert BitRev(6, 42) == 21;
    assert BitRev(6, 43) == 53;
    assert BitRev(6, 44) == 13;
    assert BitRev(6, 45) == 45;
    assert BitRev(6, 46) == 29;
    assert BitRev(6, 47) == 61;
  }

  /** Lanes 48-55 of the load order. */
  lemma Stage1IsSourceOrderFrom48()
    ensures [Stage1(48), Stage1(49), Stage1(50), Stage1(51), Stage1(52), Stage1(53), Stage1(54),
             Stage1(55)]
         == [Take(3), Take(35), Take(19), Take(51), Take(11), Take(43), Take(27), Take(59)]
  {
    assert Pow2(0) == 1;
    assert BitRev(1, 1) == 1;
    assert Pow2(1) == 2;
    assert BitRev(2, 3) == 3;
    assert Pow2(2) == 4;
    assert BitRev(3, 6) == 3;
    assert Pow2(3) == 8;
    assert BitRev(4, 12) == 3;
    assert BitRev(4, 13) == 11;
    assert Pow2(4) == 16;
    assert BitRev(5, 24) == 3;
    assert BitRev(5, 25) == 19;
    assert BitRev(5, 26) == 11;
    assert BitRev(5, 27) == 27;
    assert Pow2(5) == 32;
    assert BitRev(6, 48) == 3;
    assert BitRev(6, 49) == 35;
    assert BitRev(6, 50) == 19;
    assert BitRev(6, 51) == 51;
    assert BitRev(6, 52) == 11;
    assert BitRev(6, 53) == 43;
    assert BitRev(6, 54) == 27;
    assert BitRev(6, 55) == 59;
  }

  /** Lanes 56-63 of the load order. */
  lemma Stage1IsSourceOrderFrom56()
    ensures [Stage1(56), Stage1(57), Stage1(58), Stage1(59), Stage1(60), Stage1(61), Stage1(62),
             Stage1(63)]
         == [Take(7), Take(39), Take(23), Take(55), Take(15), Take(47), Take(31), Take(63)]
  {
    assert Pow2(0) == 1;
    assert BitRev(1, 1) == 1;
    assert Pow2(1) == 2;
    assert BitRev(2, 3) == 3;
    assert Pow2(2) == 4;
    assert BitRev(3, 7) == 7;
    assert Pow2(3) == 8;
    assert BitRev(4, 14) == 7;
    assert BitRev(4, 15) == 15;
    assert Pow2(4) == 16;
    assert BitRev(5, 28) == 7;
    assert BitRev(5, 29) == 23;
    assert BitRev(5, 30) == 15;
    assert BitRev(5, 31) == 31;
    assert Pow2(5) == 32;
    assert BitRev(6, 56) == 7;
    assert BitRev(6, 57) == 39;
    assert BitRev(6, 58) == 23;
    assert BitRev(6, 59) == 55;
    assert BitRev(6, 60) == 15;
    assert BitRev(6, 61) == 47;
    assert BitRev(6, 62) == 31;
    assert BitRev(6, 63) == 63;
  }

  /** Stage 2 (lines 741-790). */
  function Stage2(i: nat): Lane {
    match i
    case 0 => Take(0)
    case 1 => Take(1)
    case 2 => Take(2)
    case 3 => Take(3)
    case 4 => Take(4)
    case 5 => Take(5)
    case 6 => Take(6)
    case 7 => Take(7)
    case 8 => Take(8)
    case 9 => Take(9)
    case 10 => Take(10)
    case 11 => Take(11)
    case 12 => Take(12)
    case 13 => Take(13)
    case 14 => Take(14)
    case 15 => Take(15)
    case 16 => Take(16)
    case 17 => Take(17)
    case 18 => Take(18)
    case 19 => Take(19)
    case 20 => Take(20)
    case 21 => Take(21)
    case 22 => Take(22)
    case 23 => Take(23)
    case 24 => Take(24)
    case 25 => Take(25)
    case 26 => Take(26)
    case 27 => Take(27)
    case 28 => Take(28)
    case 29 => Take(29)
    case 30 => Take(30)
    case 31 => Take(31)
    case 32 => Rot(Plus(63), 32, Minus(1), 63)
    case 33 => Rot(Plus(31), 33, Minus(33), 62)
    case 34 => Rot(Plus(47), 34, Minus(17), 61)
    case 35 => Rot(Plus(15), 35, Minus(49), 60)
    case 36 => Rot(Plus(55), 36, Minus(9), 59)
    case 37 => Rot(Plus(23), 37, Minus(41), 58)
    case 38 => Rot(Plus(39), 38, Minus(25), 57)
    case 39 => Rot(Plus(7), 39, Minus(57), 56)
    case 40 => Rot(Plus(59), 40, Minus(5), 55)
    case 41 => Rot(Plus(27), 41, Minus(37), 54)
    case 42 => Rot(Plus(43), 42, Minus(21), 53)
    case 43 => Rot(Plus(11), 43, Minus(53), 52)
    case 44 => Rot(Plus(51), 44, Minus(13), 51)
    case 45 => Rot(Plus(19), 45, Minus(45), 50)
    case 46 => Rot(Plus(35), 46, Minus(29), 49)
    case 47 => Rot(Plus(3), 47, Minus(61), 48)
    case 48 => Rot(Plus(61), 47, Plus(3), 48)
    case 49 => Rot(Plus(29), 46, Plus(35), 49)
    case 50 => Rot(Plus(45), 45, Plus(19), 50)
    case 51 => Rot(Plus(13), 44, Plus(51), 51)
    case 52 => Rot(Plus(53), 43, Plus(11), 52)
    case 53 => Rot(Plus(21), 42, Plus(43), 53)
    case 54 => Rot(Plus(37), 41, Plus(27), 54)
    case 55 => Rot(Plus(5), 40, Plus(59), 55)
    case 56 => Rot(Plus(57), 39, Plus(7), 56)
    case 57 => Rot(Plus(25), 38, Plus(39), 57)
    case 58 => Rot(Plus(41), 37, Plus(23), 58)
    case 59 => Rot(Plus(9), 36, Plus(55), 59)
    case 60 => Rot(Plus(49), 35, Plus(15), 60)
    case 61 => Rot(Plus(17), 34, Plus(47), 61)
    case 62 => Rot(Plus(33), 33, Plus(31), 62)
    case 63 => Rot(Plus(1), 32, Plus(63), 63)
    case _ => Take(0)
  }

  /** Stage 3 (lines 792-849). */
  function Stage3(i: nat): Lane {
    match i
    case 0 => Take(0)
    case 1 => Take(1)
    case 2 => Take(2)
    case 3 => Take(3)
    case 4 => Take(4)
    case 5 => Take(5)
    case 6 => Take(6)
    case 7 => Take(7)
    case 8 => Take(8)
    case 9 => Take(9)
    case 10 => Take(10)
    case 11 => Take(11)
    case 12 => Take(12)
    case 13 => Take(13)
    case 14 => Take(14)
    case 15 => Take(15)
    case 16 => Rot(Plus(62), 16, Minus(2), 31)
    case 17 => Rot(Plus(30), 17, Minus(34), 30)
    case 18 => Rot(Plus(46), 18, Minus(18), 29)
    case 19 => Rot(Plus(14), 19, Minus(50), 28)
    case 20 => Rot(Plus(54), 20, Minus(10), 27)
    case 21 => Rot(Plus(22), 21, Minus(42), 26)
    case 22 => Rot(Plus(38), 22, Minus(26), 25)
    case 23 => Rot(Plus(6), 23, Minus(58), 24)
    case 24 => Rot(Plus(58), 23, Plus(6), 24)
    case 25 => Rot(Plus(26), 22, Plus(38), 25)
    case 26 => Rot(Plus(42), 21, Plus(22), 26)
    case 27 => Rot(Plus(10), 20, Plus(54), 27)
    case 28 => Rot(Plus(50), 19, Plus(14), 28)
    case 29 => Rot(Plus(18), 18, Plus(46), 29)
    case 30 => Rot(Plus(34), 17, Plus(30), 30)
    case 31 => Rot(Plus(2), 16, Plus(62), 31)
    case 32 => Add(32, 33)
    case 33 => Sub(32, 33)
    case 34 => Sub(35, 34)
    case 35 => Add(34, 35)
    case 36 => Add(36, 37)
    case 37 => Sub(36, 37)
    case 38 => Sub(39, 38)
    case 39 => Add(38, 39)
    case 40 => Add(40, 41)
    case 41 => Sub(40, 41)
    case 42 => Sub(43, 42)
    case 43 => Add(42, 43)
    case 44 => Add(44, 45)
    case 45 => Sub(44, 45)
    case 46 => Sub(47, 46)
    case 47 => Add(46, 47)
    case 48 => Add(48, 49)
    case 49 => Sub(48, 49)
    case 50 => Sub(51, 50)
    case 51 => Add(50, 51)
    case 52 => Add(52, 53)
    case 53 => Sub(52, 53)
    case 54 => Sub(55, 54)
    case 55 => Add(54, 55)
    case 56 => Add(56, 57)
    case 57 => Sub(56, 57)
    case 58 => Sub(59, 58)
    case 59 => Add(58, 59)
    case 60 => Add(60, 61)
    case 61 => Sub(60, 61)
    case 62 => Sub(63, 62)
    case 63 => Add(62, 63)
    case _ => Take(0)
  }

  /** Stage 4 (lines 851-904). */
  function Stage4(i: nat): Lane {
    match i
    case 0 => Take(0)
    case 1 => Take(1)
    case 2 => Take(2)
    case 3 => Take(3)
    case 4 => Take(4)
    case 5 => Take(5)
    case 6 => Take(6)
    case 7 => Take(7)
    case 8 => Rot(Plus(60), 8, Minus(4), 15)
    case 9 => Rot(Plus(28), 9, Minus(36), 14)
    case 10 => Rot(Plus(44), 10, Minus(20), 13)
    case 11 => Rot(Plus(12), 11, Minus(52), 12)
    case 12 => Rot(Plus(52), 11, Plus(12), 12)
    case 13 => Rot(Plus(20), 10, Plus(44), 13)
    case 14 => Rot(Plus(36), 9, Plus(28), 14)
    case 15 => Rot(Plus(4), 8, Plus(60), 15)
    case 16 => Add(16, 17)
    case 17 => Sub(16, 17)
    case 18 => Sub(19, 18)
    case 19 => Add(18, 19)
    case 20 => Add(20, 21)
    case 21 => Sub(20, 21)
    case 22 => Sub(23, 22)
    case 23 => Add(22, 23)
    case 24 => Add(24, 25)
    case 25 => Sub(24, 25)
    case 26 => Sub(27, 26)
    case 27 => Add(26, 27)
    case 28 => Add(28, 29)
    case 29 => Sub(28, 29)
    case 30 => Sub(31, 30)
    case 31 => Add(30, 31)
    case 32 => Take(32)
    case 33 => Rot(Minus(4), 33, Plus(60), 62)
    case 34 => Rot(Minus(60), 34, Minus(4), 61)
    case 35 => Take(35)
    case 36 => Take(36)
    case 37 => Rot(Minus(36), 37, Plus(28), 58)
    case 38 => Rot(Minus(28), 38, Minus(36), 57)
    case 39 => Take(39)
    case 40 => Take(40)
    case 41 => Rot(Minus(20), 41, Plus(44), 54)
    case 42 => Rot(Minus(44), 42, Minus(20), 53)
    case 43 => Take(43)
    case 44 => Take(44)
    case 45 => Rot(Minus(52), 45, Plus(12), 50)
    case 46 => Rot(Minus(12), 46, Minus(52), 49)
    case 47 => Take(47)
    case 48 => Take(48)
    case 49 => Rot(Minus(52), 46, Plus(12), 49)
    case 50 => Rot(Plus(12), 45, Plus(52), 50)
    case 51 => Take(51)
    case 52 => Take(52)
    case 53 => Rot(Minus(20), 42, Plus(44), 53)
    case 54 => Rot(Plus(44), 41, Plus(20), 54)
    case 55 => Take(55)
    case 56 => Take(56)
    case 57 => Rot(Minus(36), 38, Plus(28), 57)
    case 58 => Rot(Plus(28), 37, Plus(36), 58)
    case 59 => Take(59)
    case 60 => Take(60)
    case 61 => Rot(Minus(4), 34, Plus(60), 61)
    case 62 => Rot(Plus(60), 33, Plus(4), 62)
    case 63 => Take(63)
    case _ => Take(0)
  }

  /** Stage 5 (lines 906-965). */
  function Stage5(i: nat): Lane {
    match i
    case 0 => Take(0)
    case 1 => Take(1)
    case 2 => Take(2)
    case 3 => Take(3)
    case 4 => Rot(Plus(56), 4, Minus(8), 7)
    case 5 => Rot(Plus(24), 5, Minus(40), 6)
    case 6 => Rot(Plus(40), 5, Plus(24), 6)
    case 7 => Rot(Plus(8), 4, Plus(56), 7)
    case 8 => Add(8, 9)
    case 9 => Sub(8, 9)
    case 10 => Sub(11, 10)
    case 11 => Add(10, 11)
    case 12 => Add(12, 13)
    case 13 => Sub(12, 13)
    case 14 => Sub(15, 14)
    case 15 => Add(14, 15)
    case 16 => Take(16)
    case 17 => Rot(Minus(8), 17, Plus(56), 30)
    case 18 => Rot(Minus(56), 18, Minus(8), 29)
    case 19 => Take(19)
    case 20 => Take(20)
    case 21 => Rot(Minus(40), 21, Plus(24), 26)
    case 22 => Rot(Minus(24), 22, Minus(40), 25)
    case 23 => Take(23)
    case 24 => Take(24)
    case 25 => Rot(Minus(40), 22, Plus(24), 25)
    case 26 => Rot(Plus(24), 21, Plus(40), 26)
    case 27 => Take(27)
    case 28 => Take(28)
    case 29 => Rot(Minus(8), 18, Plus(56), 29)
    case 30 => Rot(Plus(56), 17, Plus(8), 30)
    case 31 => Take(31)
    case 32 => Add(32, 35)
    case 33 => Add(33, 34)
    case 34 => Sub(33, 34)
    case 35 => Sub(32, 35)
    case 36 => Sub(39, 36)
    case 37 => Sub(38, 37)
    case 38 => Add(37, 38)
    case 39 => Add(36, 39)
    case 40 => Add(40, 43)
    case 41 => Add(41, 42)
    case 42 => Sub(41, 42)
    case 43 => Sub(40, 43)
    case 44 => Sub(47, 44)
    case 45 => Sub(46, 45)
    case 46 => Add(45, 46)
    case 47 => Add(44, 47)
    case 48 => Add(48, 51)
    case 49 => Add(49, 50)
    case 50 => Sub(49, 50)
    case 51 => Sub(48, 51)
    case 52 => Sub(55, 52)
    case 53 => Sub(54, 53)
    case 54 => Add(53, 54)
    case 55 => Add(52, 55)
    case 56 => Add(56, 59)
    case 57 => Add(57, 58)
    case 58 => Sub(57, 58)
    case 59 => Sub(56, 59)
    case 60 => Sub(63, 60)
    case 61 => Sub(62, 61)
    case 62 => Add(61, 62)
    case 63 => Add(60, 63)
    case _ => Take(0)
  }

  /** Stage 6 (lines 967-1020). */
  function Stage6(i: nat): Lane {
    match i
    case 0 => Rot(Plus(32), 0, Plus(32), 1)
    case 1 => Rot(Plus(32), 0, Minus(32), 1)
    case 2 => Rot(Plus(48), 2, Minus(16), 3)
    case 3 => Rot(Plus(16), 2, Plus(48), 3)
    case 4 => Add(4, 5)
    case 5 => Sub(4, 5)
    case 6 => Sub(7, 6)
    case 7 => Add(6, 7)
    case 8 => Take(8)
    case 9 => Rot(Minus(16), 9, Plus(48), 14)
    case 10 => Rot(Minus(48), 10, Minus(16), 13)
    case 11 => Take(11)
    case 12 => Take(12)
    case 13 => Rot(Minus(16), 10, Plus(48), 13)
    case 14 => Rot(Plus(48), 9, Plus(16), 14)
    case 15 => Take(15)
    case 16 => Add(16, 19)
    case 17 => Add(17, 18)
    case 18 => Sub(17, 18)
    case 19 => Sub(16, 19)
    case 20 => Sub(23, 20)
    case 21 => Sub(22, 21)
    case 22 => Add(21, 22)
    case 23 => Add(20, 23)
    case 24 => Add(24, 27)
    case 25 => Add(25, 26)
    case 26 => Sub(25, 26)
    case 27 => Sub(24, 27)
    case 28 => Sub(31, 28)
    case 29 => Sub(30, 29)
    case 30 => Add(29, 30)
    case 31 => Add(28, 31)
    case 32 => Take(32)
    case 33 => Take(33)
    case 34 => Rot(Minus(8), 34, Plus(56), 61)
    case 35 => Rot(Minus(8), 35, Plus(56), 60)
    case 36 => Rot(Minus(56), 36, Minus(8), 59)
    case 37 => Rot(Minus(56), 37, Minus(8), 58)
    case 38 => Take(38)
    case 39 => Take(39)
    case 40 => Take(40)
    case 41 => Take(41)
    case 42 => Rot(Minus(40), 42, Plus(24), 53)
    case 43 => Rot(Minus(40), 43, Plus(24), 52)
    case 44 => Rot(Minus(24), 44, Minus(40), 51)
    case 45 => Rot(Minus(24), 45, Minus(40), 50)
    case 46 => Take(46)
    case 47 => Take(47)
    case 48 => Take(48)
    case 49 => Take(49)
    case 50 => Rot(Minus(40), 45, Plus(24), 50)
    case 51 => Rot(Minus(40), 44, Plus(24), 51)
    case 52 => Rot(Plus(24), 43, Plus(40), 52)
    case 53 => Rot(Plus(24), 42, Plus(40), 53)
    case 54 => Take(54)
    case 55 => Take(55)
    case 56 => Take(56)
    case 57 => Take(57)
    case 58 => Rot(Minus(8), 37, Plus(56), 58)
    case 59 => Rot(Minus(8), 36, Plus(56), 59)
    case 60 => Rot(Plus(56), 35, Plus(8), 60)
    case 61 => Rot(Plus(56), 34, Plus(8), 61)
    case 62 => Take(62)
    case 63 => Take(63)
    case _ => Take(0)
  }

  /** Stage 7 (lines 1022-1082). */
  function Stage7(i: nat): Lane {
    match i
    case 0 => Add(0, 3)
    case 1 => Add(1, 2)
    case 2 => Sub(1, 2)
    case 3 => Sub(0, 3)
    case 4 => Take(4)
    case 5 => Rot(Minus(32), 5, Plus(32), 6)
    case 6 => Rot(Plus(32), 5, Plus(32), 6)
    case 7 => Take(7)
    case 8 => Add(8, 11)
    case 9 => Add(9, 10)
    case 10 => Sub(9, 10)
    case 11 => Sub(8, 11)
    case 12 => Sub(15, 12)
    case 13 => Sub(14, 13)
    case 14 => Add(13, 14)
    case 15 => Add(12, 15)
    case 16 => Take(16)
    case 17 => Take(17)
    case 18 => Rot(Minus(16), 18, Plus(48), 29)
    case 19 => Rot(Minus(16), 19, Plus(48), 28)
    case 20 => Rot(Minus(48), 20, Minus(16), 27)
    case 21 => Rot(Minus(48), 21, Minus(16), 26)
    case 22 => Take(22)
    case 23 => Take(23)
    case 24 => Take(24)
    case 25 => Take(25)
    case 26 => Rot(Minus(16), 21, Plus(48), 26)
    case 27 => Rot(Minus(16), 20, Plus(48), 27)
    case 28 => Rot(Plus(48), 19, Plus(16), 28)
    case 29 => Rot(Plus(48), 18, Plus(16), 29)
    case 30 => Take(30)
    case 31 => Take(31)
    case 32 => Add(32, 39)
    case 33 => Add(33, 38)
    case 34 => Add(34, 37)
    case 35 => Add(35, 36)
    case 36 => Sub(35, 36)
    case 37 => Sub(34, 37)
    case 38 => Sub(33, 38)
    case 39 => Sub(32, 39)
    case 40 => Sub(47, 40)
    case 41 => Sub(46, 41)
    case 42 => Sub(45, 42)
    case 43 => Sub(44, 43)
    case 44 => Add(43, 44)
    case 45 => Add(42, 45)
    case 46 => Add(41, 46)
    case 47 => Add(40, 47)
    case 48 => Add(48, 55)
    case 49 => Add(49, 54)
    case 50 => Add(50, 53)
    case 51 => Add(51, 52)
    case 52 => Sub(51, 52)
    case 53 => Sub(50, 53)
    case 54 => Sub(49, 54)
    case 55 => Sub(48, 55)
    case 56 => Sub(63, 56)
    case 57 => Sub(62, 57)
    case 58 => Sub(61, 58)
    case 59 => Sub(60, 59)
    case 60 => Add(59, 60)
    case 61 => Add(58, 61)
    case 62 => Add(57, 62)
    case 63 => Add(56, 63)
    case _ => Take(0)
  }

  /** Stage 8 (lines 1084-1139). */
  function Stage8(i: nat): Lane {
    match i
    case 0 => Add(0, 7)
    case 1 => Add(1, 6)
    case 2 => Add(2, 5)
    case 3 => Add(3, 4)
    case 4 => Sub(3, 4)
    case 5 => Sub(2, 5)
    case 6 => Sub(1, 6)
    case 7 => Sub(0, 7)
    case 8 => Take(8)
    case 9 => Take(9)
    case 10 => Rot(Minus(32), 10, Plus(32), 13)
    case 11 => Rot(Minus(32), 11, Plus(32), 12)
    case 12 => Rot(Plus(32), 11, Plus(32), 12)
    case 13 => Rot(Plus(32), 10, Plus(32), 13)
    case 14 => Take(14)
    case 15 => Take(15)
    case 16 => Add(16, 23)
    case 17 => Add(17, 22)
    case 18 => Add(18, 21)
    case 19 => Add(19, 20)
    case 20 => Sub(19, 20)
    case 21 => Sub(18, 21)
    case 22 => Sub(17, 22)
    case 23 => Sub(16, 23)
    case 24 => Sub(31, 24)
    case 25 => Sub(30, 25)
    case 26 => Sub(29, 26)
    case 27 => Sub(28, 27)
    case 28 => Add(27, 28)
    case 29 => Add(26, 29)
    case 30 => Add(25, 30)
    case 31 => Add(24, 31)
    case 32 => Take(32)
    case 33 => Take(33)
    case 34 => Take(34)
    case 35 => Take(35)
    case 36 => Rot(Minus(16), 36, Plus(48), 59)
    case 37 => Rot(Minus(16), 37, Plus(48), 58)
    case 38 => Rot(Minus(16), 38, Plus(48), 57)
    case 39 => Rot(Minus(16), 39, Plus(48), 56)
    case 40 => Rot(Minus(48), 40, Minus(16), 55)
    case 41 => Rot(Minus(48), 41, Minus(16), 54)
    case 42 => Rot(Minus(48), 42, Minus(16), 53)
    case 43 => Rot(Minus(48), 43, Minus(16), 52)
    case 44 => Take(44)
    case 45 => Take(45)
    case 46 => Take(46)
    case 47 => Take(47)
    case 48 => Take(48)
    case 49 => Take(49)
    case 50 => Take(50)
    case 51 => Take(51)
    case 52 => Rot(Minus(16), 43, Plus(48), 52)
    case 53 => Rot(Minus(16), 42, Plus(48), 53)
    case 54 => Rot(Minus(16), 41, Plus(48), 54)
    case 55 => Rot(Minus(16), 40, Plus(48), 55)
    case 56 => Rot(Plus(48), 39, Plus(16), 56)
    case 57 => Rot(Plus(48), 38, Plus(16), 57)
    case 58 => Rot(Plus(48), 37, Plus(16), 58)
    case 59 => Rot(Plus(48), 36, Plus(16), 59)
    case 60 => Take(60)
    case 61 => Take(61)
    case 62 => Take(62)
    case 63 => Take(63)
    case _ => Take(0)
  }

  /** Stage 9 (lines 1141-1202). */
  function Stage9(i: nat): Lane {
    match i
    case 0 => Add(0, 15)
    case 1 => Add(1, 14)
    case 2 => Add(2, 13)
    case 3 => Add(3, 12)
    case 4 => Add(4, 11)
    case 5 => Add(5, 10)
    case 6 => Add(6, 9)
    case 7 => Add(7, 8)
    case 8 => Sub(7, 8)
    case 9 => Sub(6, 9)
    case 10 => Sub(5, 10)
    case 11 => Sub(4, 11)
    case 12 => Sub(3, 12)
    case 13 => Sub(2, 13)
    case 14 => Sub(1, 14)
    case 15 => Sub(0, 15)
    case 16 => Take(16)
    case 17 => Take(17)
    case 18 => Take(18)
    case 19 => Take(19)
    case 20 => Rot(Minus(32), 20, Plus(32), 27)
    case 21 => Rot(Minus(32), 21, Plus(32), 26)
    case 22 => Rot(Minus(32), 22, Plus(32), 25)
    case 23 => Rot(Minus(32), 23, Plus(32), 24)
    case 24 => Rot(Plus(32), 23, Plus(32), 24)
    case 25 => Rot(Plus(32), 22, Plus(32), 25)
    case 26 => Rot(Plus(32), 21, Plus(32), 26)
    case 27 => Rot(Plus(32), 20, Plus(32), 27)
    case 28 => Take(28)
    case 29 => Take(29)
    case 30 => Take(30)
    case 31 => Take(31)
    case 32 => Add(32, 47)
    case 33 => Add(33, 46)
    case 34 => Add(34, 45)
    case 35 => Add(35, 44)
    case 36 => Add(36, 43)
    case 37 => Add(37, 42)
    case 38 => Add(38, 41)
    case 39 => Add(39, 40)
    case 40 => Sub(39, 40)
    case 41 => Sub(38, 41)
    case 42 => Sub(37, 42)
    case 43 => Sub(36, 43)
    case 44 => Sub(35, 44)
    case 45 => Sub(34, 45)
    case 46 => Sub(33, 46)
    case 47 => Sub(32, 47)
    case 48 => Sub(63, 48)
    case 49 => Sub(62, 49)
    case 50 => Sub(61, 50)
    case 51 => Sub(60, 51)
    case 52 => Sub(59, 52)
    case 53 => Sub(58, 53)
    case 54 => Sub(57, 54)
    case 55 => Sub(56, 55)
    case 56 => Add(55, 56)
    case 57 => Add(54, 57)
    case 58 => Add(53, 58)
    case 59 => Add(52, 59)
    case 60 => Add(51, 60)
    case 61 => Add(50, 61)
    case 62 => Add(49, 62)
    case 63 => Add(48, 63)
    case _ => Take(0)
  }

  /** Stage 10 (lines 1204-1261). */
  function Stage10(i: nat): Lane {
    match i
    case 0 => Add(0, 31)
    case 1 => Add(1, 30)
    case 2 => Add(2, 29)
    case 3 => Add(3, 28)
    case 4 => Add(4, 27)
    case 5 => Add(5, 26)
    case 6 => Add(6, 25)
    case 7 => Add(7, 24)
    case 8 => Add(8, 23)
    case 9 => Add(9, 22)
    case 10 => Add(10, 21)
    case 11 => Add(11, 20)
    case 12 => Add(12, 19)
    case 13 => Add(13, 18)
    case 14 => Add(14, 17)
    case 15 => Add(15, 16)
    case 16 => Sub(15, 16)
    case 17 => Sub(14, 17)
    case 18 => Sub(13, 18)
    case 19 => Sub(12, 19)
    case 20 => Sub(11, 20)
    case 21 => Sub(10, 21)
    case 22 => Sub(9, 22)
    case 23 => Sub(8, 23)
    case 24 => Sub(7, 24)
    case 25 => Sub(6, 25)
    case 26 => Sub(5, 26)
    case 27 => Sub(4, 27)
    case 28 => Sub(3, 28)
    case 29 => Sub(2, 29)
    case 30 => Sub(1, 30)
    case 31 => Sub(0, 31)
    case 32 => Take(32)
    case 33 => Take(33)
    case 34 => Take(34)
    case 35 => Take(35)
    case 36 => Take(36)
    case 37 => Take(37)
    case 38 => Take(38)
    case 39 => Take(39)
    case 40 => Rot(Minus(32), 40, Plus(32), 55)
    case 41 => Rot(Minus(32), 41, Plus(32), 54)
    case 42 => Rot(Minus(32), 42, Plus(32), 53)
    case 43 => Rot(Minus(32), 43, Plus(32), 52)
    case 44 => Rot(Minus(32), 44, Plus(32), 51)
    case 45 => Rot(Minus(32), 45, Plus(32), 50)
    case 46 => Rot(Minus(32), 46, Plus(32), 49)
    case 47 => Rot(Minus(32), 47, Plus(32), 48)
    case 48 => Rot(Plus(32), 47, Plus(32), 48)
    case 49 => Rot(Plus(32), 46, Plus(32), 49)
    case 50 => Rot(Plus(32), 45, Plus(32), 50)
    case 51 => Rot(Plus(32), 44, Plus(32), 51)
    case 52 => Rot(Plus(32), 43, Plus(32), 52)
    case 53 => Rot(Plus(32), 42, Plus(32), 53)
    case 54 => Rot(Plus(32), 41, Plus(32), 54)
    case 55 => Rot(Plus(32), 40, Plus(32), 55)
    case 56 => Take(56)
    case 57 => Take(57)
    case 58 => Take(58)
    case 59 => Take(59)
    case 60 => Take(60)
    case 61 => Take(61)
    case 62 => Take(62)
    case 63 => Take(63)
    case _ => Take(0)
  }

  /** Stage 11 (lines 1263-1327). */
  function Stage11(i: nat): Lane {
    match i
    case 0 => Add(0, 63)
    case 1 => Add(1, 62)
    case 2 => Add(2, 61)
    case 3 => Add(3, 60)
    case 4 => Add(4, 59)
    case 5 => Add(5, 58)
    case 6 => Add(6, 57)
    case 7 => Add(7, 56)
    case 8 => Add(8, 55)
    case 9 => Add(9, 54)
    case 10 => Add(10, 53)
    case 11 => Add(11, 52)
    case 12 => Add(12, 51)
    case 13 => Add(13, 50)
    case 14 => Add(14, 49)
    case 15 => Add(15, 48)
    case 16 => Add(16, 47)
    case 17 => Add(17, 46)
    case 18 => Add(18, 45)
    case 19 => Add(19, 44)
    case 20 => Add(20, 43)
    case 21 => Add(21, 42)
    case 22 => Add(22, 41)
    case 23 => Add(23, 40)
    case 24 => Add(24, 39)
    case 25 => Add(25, 38)
    case 26 => Add(26, 37)
    case 27 => Add(27, 36)
    case 28 => Add(28, 35)
    case 29 => Add(29, 34)
    case 30 => Add(30, 33)
    case 31 => Add(31, 32)
    case 32 => Sub(31, 32)
    case 33 => Sub(30, 33)
    case 34 => Sub(29, 34)
    case 35 => Sub(28, 35)
    case 36 => Sub(27, 36)
    case 37 => Sub(26, 37)
    case 38 => Sub(25, 38)
    case 39 => Sub(24, 39)
    case 40 => Sub(23, 40)
    case 41 => Sub(22, 41)
    case 42 => Sub(21, 42)
    case 43 => Sub(20, 43)
    case 44 => Sub(19, 44)
    case 45 => Sub(18, 45)
    case 46 => Sub(17, 46)
    case 47 => Sub(16, 47)
    case 48 => Sub(15, 48)
    case 49 => Sub(14, 49)
    case 50 => Sub(13, 50)
    case 51 => Sub(12, 51)
    case 52 => Sub(11, 52)
    case 53 => Sub(10, 53)
    case 54 => Sub(9, 54)
    case 55 => Sub(8, 55)
    case 56 => Sub(7, 56)
    case 57 => Sub(6, 57)
    case 58 => Sub(5, 58)
    case 59 => Sub(4, 59)
    case 60 => Sub(3, 60)
    case 61 => Sub(2, 61)
    case 62 => Sub(1, 62)
    case 63 => Sub(0, 63)
    case _ => Take(0)
  }

  const Stages: seq<Wiring> := [Stage1, Stage2, Stage3, Stage4, Stage5, Stage6, Stage7, Stage8, Stage9, Stage10, Stage11]

  lemma Stage1Ok()
    ensures WiringOk(Stage1, Width)
  {
    assert Pow2(Log2Width) == Width;
  }

  lemma Stage2OkFrom0()
    ensures forall i :: 0 <= i < 16 ==> LaneOk(Stage2(i), Width)
  {
  }

  lemma Stage2OkFrom16()
    ensures forall i :: 16 <= i < 32 ==> LaneOk(Stage2(i), Width)
  {
  }

  lemma Stage2OkFrom32()
    ensures forall i :: 32 <= i < 48 ==> LaneOk(Stage2(i), Width)
  {
  }

  lemma Stage2OkFrom48()
    ensures forall i :: 48 <= i < 64 ==> LaneOk(Stage2(i), Width)
  {
  }

  lemma Stage2Ok()
    ensures WiringOk(Stage2, Width)
  {
    Stage2OkFrom0();
    Stage2OkFrom16();
    Stage2OkFrom32();
    Stage2OkFrom48();
  }

  lemma Stage3OkFrom0()
    ensures forall i :: 0 <= i < 16 ==> LaneOk(Stage3(i), Width)
  {
  }

  lemma Stage3OkFrom16()
    ensures forall i :: 16 <= i < 32 ==> LaneOk(Stage3(i), Width)
  {
  }

  lemma Stage3OkFrom32()
    ensures forall i :: 32 <= i < 48 ==> LaneOk(Stage3(i), Width)
  {
  }

  lemma Stage3OkFrom48()
    ensures forall i :: 48 <= i < 64 ==> LaneOk(Stage3(i), Width)
  {
  }

  lemma Stage3Ok()
    ensures WiringOk(Stage3, Width)
  {
    Stage3OkFrom0();
    Stage3OkFrom16();
    Stage3OkFrom32();
    Stage3OkFrom48();
  }

  lemma Stage4OkFrom0()
    ensures forall i :: 0 <= i < 16 ==> LaneOk(Stage4(i), Width)
  {
  }

  lemma Stage4OkFrom16()
    ensures forall i :: 16 <= i < 32 ==> LaneOk(Stage4(i), Width)
  {
  }

  lemma Stage4OkFrom32()
    ensures forall i :: 32 <= i < 48 ==> LaneOk(Stage4(i), Width)
  {
  }

  lemma Stage4OkFrom48()
    ensures forall i :: 48 <= i < 64 ==> LaneOk(Stage4(i), Width)
  {
  }

  lemma Stage4Ok()
    ensures WiringOk(Stage4, Width)
  {
    Stage4OkFrom0();
    Stage4OkFrom16();
    Stage4OkFrom32();
    Stage4OkFrom48();
  }

  lemma Stage5OkFrom0()
    ensures forall i :: 0 <= i < 16 ==> LaneOk(Stage5(i), Width)
  {
  }

  lemma Stage5OkFrom16()
    ensures forall i :: 16 <= i < 32 ==> LaneOk(Stage5(i), Width)
  {
  }

  lemma Stage5OkFrom32()
    ensures forall i :: 32 <= i < 48 ==> LaneOk(Stage5(i), Width)
  {
  }

  lemma Stage5OkFrom48()
    ensures forall i :: 48 <= i < 64 ==> LaneOk(Stage5(i), Width)
  {
  }

  lemma Stage5Ok()
    ensures WiringOk(Stage5, Width)
  {
    Stage5OkFrom0();
    Stage5OkFrom16();
    Stage5OkFrom32();
    Stage5OkFrom48();
  }

  lemma Stage6OkFrom0()
    ensures forall i :: 0 <= i < 16 ==> LaneOk(Stage6(i), Width)
  {
  }

  lemma Stage6OkFrom16()
    ensures forall i :: 16 <= i < 32 ==> LaneOk(Stage6(i), Width)
  {
  }

  lemma Stage6OkFrom32()
    ensures forall i :: 32 <= i < 48 ==> LaneOk(Stage6(i), Width)
  {
  }

  lemma Stage6OkFrom48()
    ensures forall i :: 48 <= i < 64 ==> LaneOk(Stage6(i), Width)
  {
  }

  lemma Stage6Ok()
    ensures WiringOk(Stage6, Width)
  {
    Stage6OkFrom0();
    Stage6OkFrom16();
    Stage6OkFrom32();
    Stage6OkFrom48();
  }

  lemma Stage7OkFrom0()
    ensures forall i :: 0 <= i < 16 ==> LaneOk(Stage7(i), Width)
  {
  }

  lemma Stage7OkFrom16()
    ensures forall i :: 16 <= i < 32 ==> LaneOk(Stage7(i), Width)
  {
  }

  lemma Stage7OkFrom32()
    ensures forall i :: 32 <= i < 48 ==> LaneOk(Stage7(i), Width)
  {
  }

  lemma Stage7OkFrom48()
    ensures forall i :: 48 <= i < 64 ==> LaneOk(Stage7(i), Width)
  {
  }

  lemma Stage7Ok()
    ensures WiringOk(Stage7, Width)
  {
    Stage7OkFrom0();
    Stage7OkFrom16();
    Stage7OkFrom32();
    Stage7OkFrom48();
  }

  lemma Stage8OkFrom0()
    ensures forall i :: 0 <= i < 16 ==> LaneOk(Stage8(i), Width)
  {
  }

  lemma Stage8OkFrom16()
    ensures forall i :: 16 <= i < 32 ==> LaneOk(Stage8(i), Width)
  {
  }

  lemma Stage8OkFrom32()
    ensures forall i :: 32 <= i < 48 ==> LaneOk(Stage8(i), Width)
  {
  }

  lemma Stage8OkFrom48()
    ensures forall i :: 48 <= i < 64 ==> LaneOk(Stage8(i), Width)
  {
  }

  lemma Stage8Ok()
    ensures WiringOk(Stage8, Width)
  {
    Stage8OkFrom0();
    Stage8OkFrom16();
    Stage8OkFrom32();
    Stage8OkFrom48();
  }

  lemma Stage9OkFrom0()
    ensures forall i :: 0 <= i < 16 ==> LaneOk(Stage9(i), Width)
  {
  }

  lemma Stage9OkFrom16()
    ensures forall i :: 16 <= i < 32 ==> LaneOk(Stage9(i), Width)
  {
  }

  lemma Stage9OkFrom32()
    ensures forall i :: 32 <= i < 48 ==> LaneOk(Stage9(i), Width)
  {
  }

  lemma Stage9OkFrom48()
    ensures forall i :: 48 <= i < 64 ==> LaneOk(Stage9(i), Width)
  {
  }

  lemma Stage9Ok()
    ensures WiringOk(Stage9, Width)
  {
    Stage9OkFrom0();
    Stage9OkFrom16();
    Stage9OkFrom32();
    Stage9OkFrom48();
  }

  lemma Stage10OkFrom0()
    ensures forall i :: 0 <= i < 16 ==> LaneOk(Stage10(i), Width)
  {
  }

  lemma Stage10OkFrom16()
    ensures forall i :: 16 <= i < 32 ==> LaneOk(Stage10(i), Width)
  {
  }

  lemma Stage10OkFrom32()
    ensures forall i :: 32 <= i < 48 ==> LaneOk(Stage10(i), Width)
  {
  }

  lemma Stage10OkFrom48()
    ensures forall i :: 48 <= i < 64 ==> LaneOk(Stage10(i), Width)
  {
  }

  lemma Stage10Ok()
    ensures WiringOk(Stage10, Width)
  {
    Stage10OkFrom0();
    Stage10OkFrom16();
    Stage10OkFrom32();
    Stage10OkFrom48();
  }

  lemma Stage11OkFrom0()
    ensures forall i :: 0 <= i < 16 ==> LaneOk(Stage11(i), Width)
  {
  }

  lemma Stage11OkFrom16()
    ensures forall i :: 16 <= i < 32 ==> LaneOk(Stage11(i), Width)
  {
  }

  lemma Stage11OkFrom32()
    ensures forall i :: 32 <= i < 48 ==> LaneOk(Stage11(i), Width)
  {
  }

  lemma Stage11OkFrom48()
    ensures forall i :: 48 <= i < 64 ==> LaneOk(Stage11(i), Width)
  {
  }

  lemma Stage11Ok()
    ensures WiringOk(Stage11, Width)
  {
    Stage11OkFrom0();
    Stage11OkFrom16();
    Stage11OkFrom32();
    Stage11OkFrom48();
  }

  lemma StagesOk()
    ensures NetOk(Stages, Width)
  {
    Stage1Ok();
    Stage2Ok();
    Stage3Ok();
    Stage4Ok();
    Stage5Ok();
    Stage6Ok();
    Stage7Ok();
    Stage8Ok();
    Stage9Ok();
    Stage10Ok();
    Stage11Ok();
  }

  lemma Stage2KeepsDcFrom0()
    ensures forall i :: 0 <= i < 16 ==> if i < 1 then Forwards(Stage2(i), 1) else ReadsFrom(Stage2(i), 1)
  {
  }

  lemma Stage2KeepsDcFrom16()
    ensures forall i :: 16 <= i < 32 ==> ReadsFrom(Stage2(i), 1)
  {
  }

  lemma Stage2KeepsDcFrom32()
    ensures forall i :: 32 <= i < 48 ==> ReadsFrom(Stage2(i), 1)
  {
  }

  lemma Stage2KeepsDcFrom48()
    ensures forall i :: 48 <= i < 64 ==> ReadsFrom(Stage2(i), 1)
  {
  }

  lemma Stage2KeepsDc()
    ensures Widens(Stage2, Width, 1, 1)
  {
    Stage2KeepsDcFrom0();
    Stage2KeepsDcFrom16();
    Stage2KeepsDcFrom32();
    Stage2KeepsDcFrom48();
  }

  lemma Stage3KeepsDcFrom0()
    ensures forall i :: 0 <= i < 16 ==> if i < 1 then Forwards(Stage3(i), 1) else ReadsFrom(Stage3(i), 1)
  {
  }

  lemma Stage3KeepsDcFrom16()
    ensures forall i :: 16 <= i < 32 ==> ReadsFrom(Stage3(i), 1)
  {
  }

  lemma Stage3KeepsDcFrom32()
    ensures forall i :: 32 <= i < 48 ==> ReadsFrom(Stage3(i), 1)
  {
  }

  lemma Stage3KeepsDcFrom48()
    ensures forall i :: 48 <= i < 64 ==> ReadsFrom(Stage3(i), 1)
  {
  }

  lemma Stage3KeepsDc()
    ensures Widens(Stage3, Width, 1, 1)
  {
    Stage3KeepsDcFrom0();
    Stage3KeepsDcFrom16();
    Stage3KeepsDcFrom32();
    Stage3KeepsDcFrom48();
  }

  lemma Stage4KeepsDcFrom0()
    ensures forall i :: 0 <= i < 16 ==> if i < 1 then Forwards(Stage4(i), 1) else ReadsFrom(Stage4(i), 1)
  {
  }

  lemma Stage4KeepsDcFrom16()
    ensures forall i :: 16 <= i < 32 ==> ReadsFrom(Stage4(i), 1)
  {
  }

  lemma Stage4KeepsDcFrom32()
    ensures forall i :: 32 <= i < 48 ==> ReadsFrom(Stage4(i), 1)
  {
  }

  lemma Stage4KeepsDcFrom48()
    ensures forall i :: 48 <= i < 64 ==> ReadsFrom(Stage4(i), 1)
  {
  }

  lemma Stage4KeepsDc()
    ensures Widens(Stage4, Width, 1, 1)
  {
    Stage4KeepsDcFrom0();
    Stage4KeepsDcFrom16();
    Stage4KeepsDcFrom32();
    Stage4KeepsDcFrom48();
  }

  lemma Stage5KeepsDcFrom0()
    ensures forall i :: 0 <= i < 16 ==> if i < 1 then Forwards(Stage5(i), 1) else ReadsFrom(Stage5(i), 1)
  {
  }

  lemma Stage5KeepsDcFrom16()
    ensures forall i :: 16 <= i < 32 ==> ReadsFrom(Stage5(i), 1)
  {
  }

  lemma Stage5KeepsDcFrom32()
    ensures forall i :: 32 <= i < 48 ==> ReadsFrom(Stage5(i), 1)
  {
  }

  lemma Stage5KeepsDcFrom48()
    ensures forall i :: 48 <= i < 64 ==> ReadsFrom(Stage5(i), 1)
  {
  }

  lemma Stage5KeepsDc()
    ensures Widens(Stage5, Width, 1, 1)
  {
    Stage5KeepsDcFrom0();
    Stage5KeepsDcFrom16();
    Stage5KeepsDcFrom32();
    Stage5KeepsDcFrom48();
  }

  lemma Stage6RotatesDcFrom2()
    ensures forall i :: 2 <= i < 18 ==> ReadsFrom(Stage6(i), 1)
  {
  }

  lemma Stage6RotatesDcFrom18()
    ensures forall i :: 18 <= i < 34 ==> ReadsFrom(Stage6(i), 1)
  {
  }

  lemma Stage6RotatesDcFrom34()
    ensures forall i :: 34 <= i < 50 ==> ReadsFrom(Stage6(i), 1)
  {
  }

  lemma Stage6RotatesDcFrom50()
    ensures forall i :: 50 <= i < 64 ==> ReadsFrom(Stage6(i), 1)
  {
  }

  lemma Stage6RotatesDc()
    ensures DcRotation(Stage6, Width)
  {
    Stage6RotatesDcFrom2();
    Stage6RotatesDcFrom18();
    Stage6RotatesDcFrom34();
    Stage6RotatesDcFrom50();
  }

  lemma Stage7SpreadsDcFrom0()
    ensures forall i :: 0 <= i < 16 ==> if i < 4 then Forwards(Stage7(i), 2) else ReadsFrom(Stage7(i), 2)
  {
  }

  lemma Stage7SpreadsDcFrom16()
    ensures forall i :: 16 <= i < 32 ==> ReadsFrom(Stage7(i), 2)
  {
  }

  lemma Stage7SpreadsDcFrom32()
    ensures forall i :: 32 <= i < 48 ==> ReadsFrom(Stage7(i), 2)
  {
  }

  lemma Stage7SpreadsDcFrom48()
    ensures forall i :: 48 <= i < 64 ==> ReadsFrom(Stage7(i), 2)
  {
  }

  lemma Stage7SpreadsDc()
    ensures Widens(Stage7, Width, 2, 4)
  {
    Stage7SpreadsDcFrom0();
    Stage7SpreadsDcFrom16();
    Stage7SpreadsDcFrom32();
    Stage7SpreadsDcFrom48();
  }

  lemma Stage8SpreadsDcFrom0()
    ensures forall i :: 0 <= i < 16 ==> if i < 8 then Forwards(Stage8(i), 4) else ReadsFrom(Stage8(i), 4)
  {
  }

  lemma Stage8SpreadsDcFrom16()
    ensures forall i :: 16 <= i < 32 ==> ReadsFrom(Stage8(i), 4)
  {
  }

  lemma Stage8SpreadsDcFrom32()
    ensures forall i :: 32 <= i < 48 ==> ReadsFrom(Stage8(i), 4)
  {
  }

  lemma Stage8SpreadsDcFrom48()
    ensures forall i :: 48 <= i < 64 ==> ReadsFrom(Stage8(i), 4)
  {
  }

  lemma Stage8SpreadsDc()
    ensures Widens(Stage8, Width, 4, 8)
  {
    Stage8SpreadsDcFrom0();
    Stage8SpreadsDcFrom16();
    Stage8SpreadsDcFrom32();
    Stage8SpreadsDcFrom48();
  }

  lemma Stage9SpreadsDcFrom0()
    ensures forall i :: 0 <= i < 16 ==> Forwards(Stage9(i), 8)
  {
  }

  lemma Stage9SpreadsDcFrom16()
    ensures forall i :: 16 <= i < 32 ==> ReadsFrom(Stage9(i), 8)
  {
  }

  lemma Stage9SpreadsDcFrom32()
    ensures forall i :: 32 <= i < 48 ==> ReadsFrom(Stage9(i), 8)
  {
  }

  lemma Stage9SpreadsDcFrom48()
    ensures forall i :: 48 <= i < 64 ==> ReadsFrom(Stage9(i), 8)
  {
  }

  lemma Stage9SpreadsDc()
    ensures Widens(Stage9, Width, 8, 16)
  {
    Stage9SpreadsDcFrom0();
    Stage9SpreadsDcFrom16();
    Stage9SpreadsDcFrom32();
    Stage9SpreadsDcFrom48();
  }

  lemma Stage10SpreadsDcFrom0()
    ensures forall i :: 0 <= i < 16 ==> Forwards(Stage10(i), 16)
  {
  }

  lemma Stage10SpreadsDcFrom16()
    ensures forall i :: 16 <= i < 32 ==> Forwards(Stage10(i), 16)
  {
  }

  lemma Stage10SpreadsDcFrom32()
    ensures forall i :: 32 <= i < 48 ==> ReadsFrom(Stage10(i), 16)
  {
  }

  lemma Stage10SpreadsDcFrom48()
    ensures forall i :: 48 <= i < 64 ==> ReadsFrom(Stage10(i), 16)
  {
  }

  lemma Stage10SpreadsDc()
    ensures Widens(Stage10, Width, 16, 32)
  {
    Stage10SpreadsDcFrom0();
    Stage10SpreadsDcFrom16();
    Stage10SpreadsDcFrom32();
    Stage10SpreadsDcFrom48();
  }

  lemma Stage11SpreadsDcFrom0()
    ensures forall i :: 0 <= i < 16 ==> Forwards(Stage11(i), 32)
  {
  }

  lemma Stage11SpreadsDcFrom16()
    ensures forall i :: 16 <= i < 32 ==> Forwards(Stage11(i), 32)
  {
  }

  lemma Stage11SpreadsDcFrom32()
    ensures forall i :: 32 <= i < 48 ==> Forwards(Stage11(i), 32)
  {
  }

  lemma Stage11SpreadsDcFrom48()
    ensures forall i :: 48 <= i < 64 ==> Forwards(Stage11(i), 32)
  {
  }

  lemma Stage11SpreadsDc()
    ensures Widens(Stage11, Width, 32, 64)
  {
    Stage11SpreadsDcFrom0();
    Stage11SpreadsDcFrom16();
    Stage11SpreadsDcFrom32();
    Stage11SpreadsDcFrom48();
  }

  lemma Shape()
    ensures IdctShape(Stages, 5)
  {
    assert Pow2(6) == Width;
    BitRevLoadKeepsDc(Stage1, Log2Width);
    Stage2KeepsDc();
    Stage3KeepsDc();
    Stage4KeepsDc();
    Stage5KeepsDc();
    Stage6RotatesDc();
    Stage7SpreadsDc();
    Stage8SpreadsDc();
    Stage9SpreadsDc();
    Stage10SpreadsDc();
    Stage11SpreadsDc();
  }

  lemma LastStageSymmetricFrom0()
    ensures forall i :: 0 <= i < 8 ==> Stage11(i) == Add(i, Width - 1 - i) && Stage11(Width - 1 - i) == Sub(i, Width - 1 - i)
  {
  }

  lemma LastStageSymmetricFrom8()
    ensures forall i :: 8 <= i < 16 ==> Stage11(i) == Add(i, Width - 1 - i) && Stage11(Width - 1 - i) == Sub(i, Width - 1 - i)
  {
  }

  lemma LastStageSymmetricFrom16()
    ensures forall i :: 16 <= i < 24 ==> Stage11(i) == Add(i, Width - 1 - i) && Stage11(Width - 1 - i) == Sub(i, Width - 1 - i)
  {
  }

  lemma LastStageSymmetricFrom24()
    ensures forall i :: 24 <= i < 32 ==> Stage11(i) == Add(i, Width - 1 - i) && Stage11(Width - 1 - i) == Sub(i, Width - 1 - i)
  {
  }

  lemma LastStageSymmetric()
    ensures SymmetricStage(Stage11, Width)
  {
    LastStageSymmetricFrom0();
    LastStageSymmetricFrom8();
    LastStageSymmetricFrom16();
    LastStageSymmetricFrom24();
  }

}

/** `idct64_new_sse2`: the 64-point inverse DCT. It loads its input in bit-reversed order,
    rotates lanes 0 and 1 by (cospi[32], +-cospi[32]) in stage 6, and closes with the
    symmetric sum/difference stage. */
module Idct64 {
  import opened Fixed
  import opened Butterfly
  import opened Network
  import opened Permutation
  import opened Idct64Stages

  /** The buffer after the first `s` stages (`s == 0` is the input itself). */
  function Buffer(s: nat, input: seq<int>, cospi: seq<int>, cosBit: nat): (x: seq<int>)
    requires s <= 11 && |input| == 64 && AllInt16(input)
    requires ValidCosTable(cospi) && ValidCosBit(cosBit)
    ensures |x| == 64 && AllInt16(x)
  {
    StagesOk();
    Run(Stages[..s], input, cospi, cosBit)
  }

  /** `idct64_new_sse2`: a column of 64 16-bit coefficients to 64 saturated 16-bit outputs. An
      all-zero column gives an all-zero column, and a DC-only column (d, 0, ..., 0) gives 64
      copies of the (cospi[32], cospi[32]) rotation of (d, 0). */
  function Transform(input: seq<int>, cospi: seq<int>, cosBit: nat): (output: seq<int>)
    requires |input| == 64 && AllInt16(input)
    requires ValidCosTable(cospi) && ValidCosBit(cosBit)
    ensures |output| == 64 && AllInt16(output)
    ensures AllZero(input) ==> AllZero(output)
    ensures (forall i :: 1 <= i < 64 ==> input[i] == 0) ==>
              forall i :: 0 <= i < 64 ==> output[i] == DcValue(cospi, input[0], cosBit)
  {
    StagesOk();
    var output := Run(Stages, input, cospi, cosBit);
    assert AllZero(input) ==> AllZero(output) by {
      if AllZero(input) {
        RunZero(Stages, input, cospi, cosBit);
      }
    }
    assert (forall i :: 1 <= i < 64 ==> input[i] == 0) ==>
             forall i :: 0 <= i < 64 ==> output[i] == DcValue(cospi, input[0], cosBit) by {
      if forall i :: 1 <= i < 64 ==> input[i] == 0 {
        Shape();
        IdctDc(Stages, 5, input, cospi, cosBit);
      }
    }
    output
  }

  /** Stage 1 loads input lane `BitRev(6, i)` into lane i, and since bit reversal is its own
      inverse, input lane j ends up in lane `BitRev(6, j)`: every input lane is read exactly
      once. */
  lemma InputOrder(input: seq<int>, cospi: seq<int>, cosBit: nat)
    requires |input| == 64 && AllInt16(input)
    requires ValidCosTable(cospi) && ValidCosBit(cosBit)
    ensures forall i :: 0 <= i < 64 ==> Buffer(1, input, cospi, cosBit)[i] == input[BitRev(6, i)]
    ensures forall j :: 0 <= j < 64 ==> Buffer(1, input, cospi, cosBit)[BitRev(6, j)] == input[j]
  {
    StagesOk();
    var x := Buffer(1, input, cospi, cosBit);
    assert Stages[..1] == [Stage1];
    RunOne(Stage1, input, cospi, cosBit);
    assert Pow2(6) == 64;
    forall j | 0 <= j < 64
      ensures x[BitRev(6, j)] == input[j]
    {
      var i := BitRev(6, j);
      BitRevInvolution(6, j);
      assert x[i] == input[BitRev(6, i)];
    }
  }

  /** The last stage adds and subtracts mirrored lanes of the buffer before it: output lane i
      is the saturated sum, and output lane 63-i the saturated difference, of lanes i and 63-i. */
  lemma OutputStage(input: seq<int>, cospi: seq<int>, cosBit: nat)
    requires |input| == 64 && AllInt16(input)
    requires ValidCosTable(cospi) && ValidCosBit(cosBit)
    ensures var x := Buffer(10, input, cospi, cosBit);
            var y := Transform(input, cospi, cosBit);
            forall i :: 0 <= i < 32 ==> y[i] == AddS(x[i], x[63 - i]) && y[63 - i] == SubS(x[i], x[63 - i])
  {
    StagesOk();
    RunSnoc(Stages, input, cospi, cosBit);
    LastStageSymmetric();
    var x := Buffer(10, input, cospi, cosBit);
    SymmetricOutput(Stage11, x, cospi, cosBit);
  }

}
