/** The 9 butterfly stages of `idct32_new_sse2` (av1/common/x86/av1_inv_txfm_sse2.c lines 254-581),
    each lane written as the source writes it, and the facts about their shape that the
    kernel's properties rest on. */
module Idct32Stages {
  import opened Fixed
  import opened Butterfly
  import opened Network
  import opened Permutation

  const Width: nat := 32
  const Log2Width: nat := 5

  /** Stage 1 (lines 301-334): lane i is loaded from input lane `BitRev(5, i)`, the 5-bit
      reversal of i (x1[1] = input[16], x1[2] = input[8], x1[3] = input[24], ...). */
  function Stage1(i: nat): Lane {
    Take(BitRev(Log2Width, i))
  }

  /** Stage 1 is the load order the source writes out lane by lane in lines 301-334. */
  lemma Stage1IsSourceOrder()
    ensures [Stage1(0), Stage1(1), Stage1(2), Stage1(3), Stage1(4), Stage1(5), Stage1(6), Stage1(7),
             Stage1(8), Stage1(9), Stage1(10), Stage1(11), Stage1(12), Stage1(13), Stage1(14),
             Stage1(15), Stage1(16), Stage1(17), Stage1(18), Stage1(19), Stage1(20), Stage1(21),
             Stage1(22), Stage1(23), Stage1(24), Stage1(25), Stage1(26), Stage1(27), Stage1(28),
             Stage1(29), Stage1(30), Stage1(31)]
         == [Take(0), Take(16), Take(8), Take(24), Take(4), Take(20), Take(12), Take(28), Take(2),
             Take(18), Take(10), Take(26), Take(6), Take(22), Take(14), Take(30), Take(1), Take(17),
             Take(9), Take(25), Take(5), Take(21), Take(13), Take(29), Take(3), Take(19), Take(11),
             Take(27), Take(7), Take(23), Take(15), Take(31)]
  {
    Stage1IsSourceOrderFrom0();
    Stage1IsSourceOrderFrom8();
    Stage1IsSourceOrderFrom16();
    Stage1IsSourceOrderFrom24();
  }

  /** Lanes 0-7 of the load order. */
  lemma Stage1IsSourceOrderFrom0()
    ensures [Stage1(0), Stage1(1), Stage1(2), Stage1(3), Stage1(4), Stage1(5), Stage1(6), Stage1(7)]
         == [Take(0), Take(16), Take(8), Take(24), Take(4), Take(20), Take(12), Take(28)]
  {
    assert Pow2(0) == 1;
    assert BitRev(1, 0) == 0;
    assert Pow2(1) == 2;
    assert BitRev(2, 0) == 0;
    assert Pow2(2) == 4;
    assert BitRev(3, 0) == 0;
    assert BitRev(3, 1) == 4;
    assert Pow2(3) == 8;
    assert BitRev(4, 0) == 0;
    assert BitRev(4, 1) == 8;
    assert BitRev(4, 2) == 4;
    assert BitRev(4, 3) == 12;
    assert Pow2(4) == 16;
    assert BitRev(5, 0) == 0;
    assert BitRev(5, 1) == 16;
    assert BitRev(5, 2) == 8;
    assert BitRev(5, 3) == 24;
    assert BitRev(5, 4) == 4;
    assert BitRev(5, 5) == 20;
    assert BitRev(5, 6) == 12;
    assert BitRev(5, 7) == 28;
  }

  /** Lanes 8-15 of the load order. */
  lemma Stage1IsSourceOrderFrom8()
    ensures [Stage1(8), Stage1(9), Stage1(10), Stage1(11), Stage1(12), Stage1(13), Stage1(14),
             Stage1(15)]
         == [Take(2), Take(18), Take(10), Take(26), Take(6), Take(22), Take(14), Take(30)]
  {
    assert Pow2(0) == 1;
    assert BitRev(1, 0) == 0;
    assert Pow2(1) == 2;
    assert BitRev(2, 1) == 2;
    assert Pow2(2) == 4;
    assert BitRev(3, 2) == 2;
    assert BitRev(3, 3) == 6;
    assert Pow2(3) == 8;
    assert BitRev(4, 4) == 2;
    assert BitRev(4, 5) == 10;
    assert BitRev(4, 6) == 6;
    assert BitRev(4, 7) == 14;
    assert Pow2(4) == 16;
    assert BitRev(5, 8) == 2;
    assert BitRev(5, 9) == 18;
    assert BitRev(5, 10) == 10;
    assert BitRev(5, 11) == 26;
    assert BitRev(5, 12) == 6;
    assert BitRev(5, 13) == 22;
    assert BitRev(5, 14) == 14;
    assert BitRev(5, 15) == 30;
  }

  /** Lanes 16-23 of the load order. */
  lemma Stage1IsSourceOrderFrom16()
    ensures [Stage1(16), Stage1(17), Stage1(18), Stage1(19), Stage1(20), Stage1(21), Stage1(22),
             Stage1(23)]
         == [Take(1), Take(17), Take(9), Take(25), Take(5), Take(21), Take(13), Take(29)]
  {
    assert Pow2(0) == 1;
    assert BitRev(1, 1) == 1;
    assert Pow2(1) == 2;
    assert BitRev(2, 2) == 1;
    assert Pow2(2) == 4;
    assert BitRev(3, 4) == 1;
    assert BitRev(3, 5) == 5;
    assert Pow2(3) == 8;
    assert BitRev(4, 8) == 1;
    assert BitRev(4, 9) == 9;
    assert BitRev(4, 10) == 5;
    assert BitRev(4, 11) == 13;
    assert Pow2(4) == 16;
    assert BitRev(5, 16) == 1;
    assert BitRev(5, 17) == 17;
    assert BitRev(5, 18) == 9;
    assert BitRev(5, 19) == 25;
    assert BitRev(5, 20) == 5;
    assert BitRev(5, 21) == 21;
    assert BitRev(5, 22) == 13;
    assert BitRev(5, 23) == 29;
  }

  /** Lanes 24-31 of the load order. */
  lemma Stage1IsSourceOrderFrom24()
    ensures [Stage1(24), Stage1(25), Stage1(26), Stage1(27), Stage1(28), Stage1(29), Stage1(30),
             Stage1(31)]
         == [Take(3), Take(19), Take(11), Take(27), Take(7), Take(23), Take(15), Take(31)]
  {
    assert Pow2(0) == 1;
    assert BitRev(1, 1) == 1;
    assert Pow2(1) == 2;
    assert BitRev(2, 3) == 3;
    assert Pow2(2) == 4;
    assert BitRev(3, 6) == 3;
    assert BitRev(3, 7) == 7;
    assert Pow2(3) == 8;
    assert BitRev(4, 12) == 3;
    assert BitRev(4, 13) == 11;
    assert BitRev(4, 14) == 7;
    assert BitRev(4, 15) == 15;
    assert Pow2(4) == 16;
    assert BitRev(5, 24) == 3;
    assert BitRev(5, 25) == 19;
    assert BitRev(5, 26) == 11;
    assert BitRev(5, 27) == 27;
    assert BitRev(5, 28) == 7;
    assert BitRev(5, 29) == 23;
    assert BitRev(5, 30) == 15;
    assert BitRev(5, 31) == 31;
  }

  /** Stage 2 (lines 336-361). */
  function Stage2(i: nat): Lane {
    match i
    case 0 => Take(0)
    case 1 => Take(1)
    case 2 => Take(2)
    case 3 => Take(3)
    case 4 => Take(4)
    case 5 => Take(5)
    case 6 => Take(6)
    case 7 => Take(7)
    case 8 => Take(8)
    case 9 => Take(9)
    case 10 => Take(10)
    case 11 => Take(11)
    case 12 => Take(12)
    case 13 => Take(13)
    case 14 => Take(14)
    case 15 => Take(15)
    case 16 => Rot(Plus(62), 16, Minus(2), 31)
    case 17 => Rot(Plus(30), 17, Minus(34), 30)
    case 18 => Rot(Plus(46), 18, Minus(18), 29)
    case 19 => Rot(Plus(14), 19, Minus(50), 28)
    case 20 => Rot(Plus(54), 20, Minus(10), 27)
    case 21 => Rot(Plus(22), 21, Minus(42), 26)
    case 22 => Rot(Plus(38), 22, Minus(26), 25)
    case 23 => Rot(Plus(6), 23, Minus(58), 24)
    case 24 => Rot(Plus(58), 23, Plus(6), 24)
    case 25 => Rot(Plus(26), 22, Plus(38), 25)
    case 26 => Rot(Plus(42), 21, Plus(22), 26)
    case 27 => Rot(Plus(10), 20, Plus(54), 27)
    case 28 => Rot(Plus(50), 19, Plus(14), 28)
    case 29 => Rot(Plus(18), 18, Plus(46), 29)
    case 30 => Rot(Plus(34), 17, Plus(30), 30)
    case 31 => Rot(Plus(2), 16, Plus(62), 31)
    case _ => Take(0)
  }

  /** Stage 3 (lines 363-392). */
  function Stage3(i: nat): Lane {
    match i
    case 0 => Take(0)
    case 1 => Take(1)
    case 2 => Take(2)
    case 3 => Take(3)
    case 4 => Take(4)
    case 5 => Take(5)
    case 6 => Take(6)
    case 7 => Take(7)
    case 8 => Rot(Plus(60), 8, Minus(4), 15)
    case 9 => Rot(Plus(28), 9, Minus(36), 14)
    case 10 => Rot(Plus(44), 10, Minus(20), 13)
    case 11 => Rot(Plus(12), 11, Minus(52), 12)
    case 12 => Rot(Plus(52), 11, Plus(12), 12)
    case 13 => Rot(Plus(20), 10, Plus(44), 13)
    case 14 => Rot(Plus(36), 9, Plus(28), 14)
    case 15 => Rot(Plus(4), 8, Plus(60), 15)
    case 16 => Add(16, 17)
    case 17 => Sub(16, 17)
    case 18 => Sub(19, 18)
    case 19 => Add(18, 19)
    case 20 => Add(20, 21)
    case 21 => Sub(20, 21)
    case 22 => Sub(23, 22)
    case 23 => Add(22, 23)
    case 24 => Add(24, 25)
    case 25 => Sub(24, 25)
    case 26 => Sub(27, 26)
    case 27 => Add(26, 27)
    case 28 => Add(28, 29)
    case 29 => Sub(28, 29)
    case 30 => Sub(31, 30)
    case 31 => Add(30, 31)
    case _ => Take(0)
  }

  /** Stage 4 (lines 394-421). */
  function Stage4(i: nat): Lane {
    match i
    case 0 => Take(0)
    case 1 => Take(1)
    case 2 => Take(2)
    case 3 => Take(3)
    case 4 => Rot(Plus(56), 4, Minus(8), 7)
    case 5 => Rot(Plus(24), 5, Minus(40), 6)
    case 6 => Rot(Plus(40), 5, Plus(24), 6)
    case 7 => Rot(Plus(8), 4, Plus(56), 7)
    case 8 => Add(8, 9)
    case 9 => Sub(8, 9)
    case 10 => Sub(11, 10)
    case 11 => Add(10, 11)
    case 12 => Add(12, 13)
    case 13 => Sub(12, 13)
    case 14 => Sub(15, 14)
    case 15 => Add(14, 15)
    case 16 => Take(16)
    case 17 => Rot(Minus(8), 17, Plus(56), 30)
    case 18 => Rot(Minus(56), 18, Minus(8), 29)
    case 19 => Take(19)
    case 20 => Take(20)
    case 21 => Rot(Minus(40), 21, Plus(24), 26)
    case 22 => Rot(Minus(24), 22, Minus(40), 25)
    case 23 => Take(23)
    case 24 => Take(24)
    case 25 => Rot(Minus(40), 22, Plus(24), 25)
    case 26 => Rot(Plus(24), 21, Plus(40), 26)
    case 27 => Take(27)
    case 28 => Take(28)
    case 29 => Rot(Minus(8), 18, Plus(56), 29)
    case 30 => Rot(Plus(56), 17, Plus(8), 30)
    case 31 => Take(31)
    case _ => Take(0)
  }

  /** Stage 5 (lines 423-452). */
  function Stage5(i: nat): Lane {
    match i
    case 0 => Rot(Plus(32), 0, Plus(32), 1)
    case 1 => Rot(Plus(32), 0, Minus(32), 1)
    case 2 => Rot(Plus(48), 2, Minus(16), 3)
    case 3 => Rot(Plus(16), 2, Plus(48), 3)
    case 4 => Add(4, 5)
    case 5 => Sub(4, 5)
    case 6 => Sub(7, 6)
    case 7 => Add(6, 7)
    case 8 => Take(8)
    case 9 => Rot(Minus(16), 9, Plus(48), 14)
    case 10 => Rot(Minus(48), 10, Minus(16), 13)
    case 11 => Take(11)
    case 12 => Take(12)
    case 13 => Rot(Minus(16), 10, Plus(48), 13)
    case 14 => Rot(Plus(48), 9, Plus(16), 14)
    case 15 => Take(15)
    case 16 => Add(16, 19)
    case 17 => Add(17, 18)
    case 18 => Sub(17, 18)
    case 19 => Sub(16, 19)
    case 20 => Sub(23, 20)
    case 21 => Sub(22, 21)
    case 22 => Add(21, 22)
    case 23 => Add(20, 23)
    case 24 => Add(24, 27)
    case 25 => Add(25, 26)
    case 26 => Sub(25, 26)
    case 27 => Sub(24, 27)
    case 28 => Sub(31, 28)
    case 29 => Sub(30, 29)
    case 30 => Add(29, 30)
    case 31 => Add(28, 31)
    case _ => Take(0)
  }

  /** Stage 6 (lines 454-482). */
  function Stage6(i: nat): Lane {
    match i
    case 0 => Add(0, 3)
    case 1 => Add(1, 2)
    case 2 => Sub(1, 2)
    case 3 => Sub(0, 3)
    case 4 => Take(4)
    case 5 => Rot(Minus(32), 5, Plus(32), 6)
    case 6 => Rot(Plus(32), 5, Plus(32), 6)
    case 7 => Take(7)
    case 8 => Add(8, 11)
    case 9 => Add(9, 10)
    case 10 => Sub(9, 10)
    case 11 => Sub(8, 11)
    case 12 => Sub(15, 12)
    case 13 => Sub(14, 13)
    case 14 => Add(13, 14)
    case 15 => Add(12, 15)
    case 16 => Take(16)
    case 17 => Take(17)
    case 18 => Rot(Minus(16), 18, Plus(48), 29)
    case 19 => Rot(Minus(16), 19, Plus(48), 28)
    case 20 => Rot(Minus(48), 20, Minus(16), 27)
    case 21 => Rot(Minus(48), 21, Minus(16), 26)
    case 22 => Take(22)
    case 23 => Take(23)
    case 24 => Take(24)
    case 25 => Take(25)
    case 26 => Rot(Minus(16), 21, Plus(48), 26)
    case 27 => Rot(Minus(16), 20, Plus(48), 27)
    case 28 => Rot(Plus(48), 19, Plus(16), 28)
    case 29 => Rot(Plus(48), 18, Plus(16), 29)
    case 30 => Take(30)
    case 31 => Take(31)
    case _ => Take(0)
  }

  /** Stage 7 (lines 484-515). */
  function Stage7(i: nat): Lane {
    match i
    case 0 => Add(0, 7)
    case 1 => Add(1, 6)
    case 2 => Add(2, 5)
    case 3 => Add(3, 4)
    case 4 => Sub(3, 4)
    case 5 => Sub(2, 5)
    case 6 => Sub(1, 6)
    case 7 => Sub(0, 7)
    case 8 => Take(8)
    case 9 => Take(9)
    case 10 => Rot(Minus(32), 10, Plus(32), 13)
    case 11 => Rot(Minus(32), 11, Plus(32), 12)
    case 12 => Rot(Plus(32), 11, Plus(32), 12)
    case 13 => Rot(Plus(32), 10, Plus(32), 13)
    case 14 => Take(14)
    case 15 => Take(15)
    case 16 => Add(16, 23)
    case 17 => Add(17, 22)
    case 18 => Add(18, 21)
    case 19 => Add(19, 20)
    case 20 => Sub(19, 20)
    case 21 => Sub(18, 21)
    case 22 => Sub(17, 22)
    case 23 => Sub(16, 23)
    case 24 => Sub(31, 24)
    case 25 => Sub(30, 25)
    case 26 => Sub(29, 26)
    case 27 => Sub(28, 27)
    case 28 => Add(27, 28)
    case 29 => Add(26, 29)
    case 30 => Add(25, 30)
    case 31 => Add(24, 31)
    case _ => Take(0)
  }

  /** Stage 8 (lines 517-546). */
  function Stage8(i: nat): Lane {
    match i
    case 0 => Add(0, 15)
    case 1 => Add(1, 14)
    case 2 => Add(2, 13)
    case 3 => Add(3, 12)
    case 4 => Add(4, 11)
    case 5 => Add(5, 10)
    case 6 => Add(6, 9)
    case 7 => Add(7, 8)
    case 8 => Sub(7, 8)
    case 9 => Sub(6, 9)
    case 10 => Sub(5, 10)
    case 11 => Sub(4, 11)
    case 12 => Sub(3, 12)
    case 13 => Sub(2, 13)
    case 14 => Sub(1, 14)
    case 15 => Sub(0, 15)
    case 16 => Take(16)
    case 17 => Take(17)
    case 18 => Take(18)
    case 19 => Take(19)
    case 20 => Rot(Minus(32), 20, Plus(32), 27)
    case 21 => Rot(Minus(32), 21, Plus(32), 26)
    case 22 => Rot(Minus(32), 22, Plus(32), 25)
    case 23 => Rot(Minus(32), 23, Plus(32), 24)
    case 24 => Rot(Plus(32), 23, Plus(32), 24)
    case 25 => Rot(Plus(32), 22, Plus(32), 25)
    case 26 => Rot(Plus(32), 21, Plus(32), 26)
    case 27 => Rot(Plus(32), 20, Plus(32), 27)
    case 28 => Take(28)
    case 29 => Take(29)
    case 30 => Take(30)
    case 31 => Take(31)
    case _ => Take(0)
  }

  /** Stage 9 (lines 548-580). */
  function Stage9(i: nat): Lane {
    match i
    case 0 => Add(0, 31)
    case 1 => Add(1, 30)
    case 2 => Add(2, 29)
    case 3 => Add(3, 28)
    case 4 => Add(4, 27)
    case 5 => Add(5, 26)
    case 6 => Add(6, 25)
    case 7 => Add(7, 24)
    case 8 => Add(8, 23)
    case 9 => Add(9, 22)
    case 10 => Add(10, 21)
    case 11 => Add(11, 20)
    case 12 => Add(12, 19)
    case 13 => Add(13, 18)
    case 14 => Add(14, 17)
    case 15 => Add(15, 16)
    case 16 => Sub(15, 16)
    case 17 => Sub(14, 17)
    case 18 => Sub(13, 18)
    case 19 => Sub(12, 19)
    case 20 => Sub(11, 20)
    case 21 => Sub(10, 21)
    case 22 => Sub(9, 22)
    case 23 => Sub(8, 23)
    case 24 => Sub(7, 24)
    case 25 => Sub(6, 25)
    case 26 => Sub(5, 26)
    case 27 => Sub(4, 27)
    case 28 => Sub(3, 28)
    case 29 => Sub(2, 29)
    case 30 => Sub(1, 30)
    case 31 => Sub(0, 31)
    case _ => Take(0)
  }

  const Stages: seq<Wiring> := [Stage1, Stage2, Stage3, Stage4, Stage5, Stage6, Stage7, Stage8, Stage9]

  lemma Stage1Ok()
    ensures WiringOk(Stage1, Width)
  {
    assert Pow2(Log2Width) == Width;
  }

  lemma Stage2OkFrom0()
    ensures forall i :: 0 <= i < 16 ==> LaneOk(Stage2(i), Width)
  {
  }

  lemma Stage2OkFrom16()
    ensures forall i :: 16 <= i < 32 ==> LaneOk(Stage2(i), Width)
  {
  }

  lemma Stage2Ok()
    ensures WiringOk(Stage2, Width)
  {
    Stage2OkFrom0();
    Stage2OkFrom16();
  }

  lemma Stage3OkFrom0()
    ensures forall i :: 0 <= i < 16 ==> LaneOk(Stage3(i), Width)
  {
  }

  lemma Stage3OkFrom16()
    ensures forall i :: 16 <= i < 32 ==> LaneOk(Stage3(i), Width)
  {
  }

  lemma Stage3Ok()
    ensures WiringOk(Stage3, Width)
  {
    Stage3OkFrom0();
    Stage3OkFrom16();
  }

  lemma Stage4OkFrom0()
    ensures forall i :: 0 <= i < 16 ==> LaneOk(Stage4(i), Width)
  {
  }

  lemma Stage4OkFrom16()
    ensures forall i :: 16 <= i < 32 ==> LaneOk(Stage4(i), Width)
  {
  }

  lemma Stage4Ok()
    ensures WiringOk(Stage4, Width)
  {
    Stage4OkFrom0();
    Stage4OkFrom16();
  }

  lemma Stage5OkFrom0()
    ensures forall i :: 0 <= i < 16 ==> LaneOk(Stage5(i), Width)
  {
  }

  lemma Stage5OkFrom16()
    ensures forall i :: 16 <= i < 32 ==> LaneOk(Stage5(i), Width)
  {
  }

  lemma Stage5Ok()
    ensures WiringOk(Stage5, Width)
  {
    Stage5OkFrom0();
    Stage5OkFrom16();
  }

  lemma Stage6OkFrom0()
    ensures forall i :: 0 <= i < 16 ==> LaneOk(Stage6(i), Width)
  {
  }

  lemma Stage6OkFrom16()
    ensures forall i :: 16 <= i < 32 ==> LaneOk(Stage6(i), Width)
  {
  }

  lemma Stage6Ok()
    ensures WiringOk(Stage6, Width)
  {
    Stage6OkFrom0();
    Stage6OkFrom16();
  }

  lemma Stage7OkFrom0()
    ensures forall i :: 0 <= i < 16 ==> LaneOk(Stage7(i), Width)
  {
  }

  lemma Stage7OkFrom16()
    ensures forall i :: 16 <= i < 32 ==> LaneOk(Stage7(i), Width)
  {
  }

  lemma Stage7Ok()
    ensures WiringOk(Stage7, Width)
  {
    Stage7OkFrom0();
    Stage7OkFrom16();
  }

  lemma Stage8OkFrom0()
    ensures forall i :: 0 <= i < 16 ==> LaneOk(Stage8(i), Width)
  {
  }

  lemma Stage8OkFrom16()
    ensures forall i :: 16 <= i < 32 ==> LaneOk(Stage8(i), Width)
  {
  }

  lemma Stage8Ok()
    ensures WiringOk(Stage8, Width)
  {
    Stage8OkFrom0();
    Stage8OkFrom16();
  }

  lemma Stage9OkFrom0()
    ensures forall i :: 0 <= i < 16 ==> LaneOk(Stage9(i), Width)
  {
  }

  lemma Stage9OkFrom16()
    ensures forall i :: 16 <= i < 32 ==> LaneOk(Stage9(i), Width)
  {
  }

  lemma Stage9Ok()
    ensures WiringOk(Stage9, Width)
  {
    Stage9OkFrom0();
    Stage9OkFrom16();
  }

  lemma StagesOk()
    ensures NetOk(Stages, Width)
  {
    Stage1Ok();
    Stage2Ok();
    Stage3Ok();
    Stage4Ok();
    Stage5Ok();
    Stage6Ok();
    Stage7Ok();
    Stage8Ok();
    Stage9Ok();
  }

  lemma Stage2KeepsDcFrom0()
    ensures forall i :: 0 <= i < 16 ==> if i < 1 then Forwards(Stage2(i), 1) else ReadsFrom(Stage2(i), 1)
  {
  }

  lemma Stage2KeepsDcFrom16()
    ensures forall i :: 16 <= i < 32 ==> ReadsFrom(Stage2(i), 1)
  {
  }

  lemma Stage2KeepsDc()
    ensures Widens(Stage2, Width, 1, 1)
  {
    Stage2KeepsDcFrom0();
    Stage2KeepsDcFrom16();
  }

  lemma Stage3KeepsDcFrom0()
    ensures forall i :: 0 <= i < 16 ==> if i < 1 then Forwards(Stage3(i), 1) else ReadsFrom(Stage3(i), 1)
  {
  }

  lemma Stage3KeepsDcFrom16()
    ensures forall i :: 16 <= i < 32 ==> ReadsFrom(Stage3(i), 1)
  {
  }

  lemma Stage3KeepsDc()
    ensures Widens(Stage3, Width, 1, 1)
  {
    Stage3KeepsDcFrom0();
    Stage3KeepsDcFrom16();
  }

  lemma Stage4KeepsDcFrom0()
    ensures forall i :: 0 <= i < 16 ==> if i < 1 then Forwards(Stage4(i), 1) else ReadsFrom(Stage4(i), 1)
  {
  }

  lemma Stage4KeepsDcFrom16()
    ensures forall i :: 16 <= i < 32 ==> ReadsFrom(Stage4(i), 1)
  {
  }

  lemma Stage4KeepsDc()
    ensures Widens(Stage4, Width, 1, 1)
  {
    Stage4KeepsDcFrom0();
    Stage4KeepsDcFrom16();
  }

  lemma Stage5RotatesDcFrom2()
    ensures forall i :: 2 <= i < 18 ==> ReadsFrom(Stage5(i), 1)
  {
  }

  lemma Stage5RotatesDcFrom18()
    ensures forall i :: 18 <= i < 32 ==> ReadsFrom(Stage5(i), 1)
  {
  }

  lemma Stage5RotatesDc()
    ensures DcRotation(Stage5, Width)
  {
    Stage5RotatesDcFrom2();
    Stage5RotatesDcFrom18();
  }

  lemma Stage6SpreadsDcFrom0()
    ensures forall i :: 0 <= i < 16 ==> if i < 4 then Forwards(Stage6(i), 2) else ReadsFrom(Stage6(i), 2)
  {
  }

  lemma Stage6SpreadsDcFrom16()
    ensures forall i :: 16 <= i < 32 ==> ReadsFrom(Stage6(i), 2)
  {
  }

  lemma Stage6SpreadsDc()
    ensures Widens(Stage6, Width, 2, 4)
  {
    Stage6SpreadsDcFrom0();
    Stage6SpreadsDcFrom16();
  }

  lemma Stage7SpreadsDcFrom0()
    ensures forall i :: 0 <= i < 16 ==> if i < 8 then Forwards(Stage7(i), 4) else ReadsFrom(Stage7(i), 4)
  {
  }

  lemma Stage7SpreadsDcFrom16()
    ensures forall i :: 16 <= i < 32 ==> ReadsFrom(Stage7(i), 4)
  {
  }

  lemma Stage7SpreadsDc()
    ensures Widens(Stage7, Width, 4, 8)
  {
    Stage7SpreadsDcFrom0();
    Stage7SpreadsDcFrom16();
  }

  lemma Stage8SpreadsDcFrom0()
    ensures forall i :: 0 <= i < 16 ==> Forwards(Stage8(i), 8)
  {
  }

  lemma Stage8SpreadsDcFrom16()
    ensures forall i :: 16 <= i < 32 ==> ReadsFrom(Stage8(i), 8)
  {
  }

  lemma Stage8SpreadsDc()
    ensures Widens(Stage8, Width, 8, 16)
  {
    Stage8SpreadsDcFrom0();
    Stage8SpreadsDcFrom16();
  }

  lemma Stage9SpreadsDcFrom0()
    ensures forall i :: 0 <= i < 16 ==> Forwards(Stage9(i), 16)
  {
  }

  lemma Stage9SpreadsDcFrom16()
    ensures forall i :: 16 <= i < 32 ==> Forwards(Stage9(i), 16)
  {
  }

  lemma Stage9SpreadsDc()
    ensures Widens(Stage9, Width, 16, 32)
  {
    Stage9SpreadsDcFrom0();
    Stage9SpreadsDcFrom16();
  }

  lemma Shape()
    ensures IdctShape(Stages, 4)
  {
    assert Pow2(5) == Width;
    BitRevLoadKeepsDc(Stage1, Log2Width);
    Stage2KeepsDc();
    Stage3KeepsDc();
    Stage4KeepsDc();
    Stage5RotatesDc();
    Stage6SpreadsDc();
    Stage7SpreadsDc();
    Stage8SpreadsDc();
    Stage9SpreadsDc();
  }

  lemma LastStageSymmetricFrom0()
    ensures forall i :: 0 <= i < 8 ==> Stage9(i) == Add(i, Width - 1 - i) && Stage9(Width - 1 - i) == Sub(i, Width - 1 - i)
  {
  }

  lemma LastStageSymmetricFrom8()
    ensures forall i :: 8 <= i < 16 ==> Stage9(i) == Add(i, Width - 1 - i) && Stage9(Width - 1 - i) == Sub(i, Width - 1 - i)
  {
  }

  lemma LastStageSymmetric()
    ensures SymmetricStage(Stage9, Width)
  {
    LastStageSymmetricFrom0();
    LastStageSymmetricFrom8();
  }

}

/** `idct32_new_sse2`: the 32-point inverse DCT. It loads its input in bit-reversed order,
    rotates lanes 0 and 1 by (cospi[32], +-cospi[32]) in stage 5, and closes with the
    symmetric sum/difference stage. */
module Idct32 {
  import opened Fixed
  import opened Butterfly
  import opened Network
  import opened Permutation
  import opened Idct32Stages

  /** The buffer after the first `s` stages (`s == 0` is the input itself). */
  function Buffer(s: nat, input: seq<int>, cospi: seq<int>, cosBit: nat): (x: seq<int>)
    requires s <= 9 && |input| == 32 && AllInt16(input)
    requires ValidCosTable(cospi) && ValidCosBit(cosBit)
    ensures |x| == 32 && AllInt16(x)
  {
    StagesOk();
    Run(Stages[..s], input, cospi, cosBit)
  }

  /** `idct32_new_sse2`: a column of 32 16-bit coefficients to 32 saturated 16-bit outputs. An
      all-zero column gives an all-zero column, and a DC-only column (d, 0, ..., 0) gives 32
      copies of the (cospi[32], cospi[32]) rotation of (d, 0). */
  function Transform(input: seq<int>, cospi: seq<int>, cosBit: nat): (output: seq<int>)
    requires |input| == 32 && AllInt16(input)
    requires ValidCosTable(cospi) && ValidCosBit(cosBit)
    ensures |output| == 32 && AllInt16(output)
    ensures AllZero(input) ==> AllZero(output)
    ensures (forall i :: 1 <= i < 32 ==> input[i] == 0) ==>
              forall i :: 0 <= i < 32 ==> output[i] == DcValue(cospi, input[0], cosBit)
  {
    StagesOk();
    var output := Run(Stages, input, cospi, cosBit);
    assert AllZero(input) ==> AllZero(output) by {
      if AllZero(input) {
        RunZero(Stages, input, cospi, cosBit);
      }
    }
    assert (forall i :: 1 <= i < 32 ==> input[i] == 0) ==>
             forall i :: 0 <= i < 32 ==> output[i] == DcValue(cospi, input[0], cosBit) by {
      if forall i :: 1 <= i < 32 ==> input[i] == 0 {
        Shape();
        IdctDc(Stages, 4, input, cospi, cosBit);
      }
    }
    output
  }

  /** Stage 1 loads input lane `BitRev(5, i)` into lane i, and since bit reversal is its own
      inverse, input lane j ends up in lane `BitRev(5, j)`: every input lane is read exactly
      once. */
  lemma InputOrder(input: seq<int>, cospi: seq<int>, cosBit: nat)
    requires |input| == 32 && AllInt16(input)
    requires ValidCosTable(cospi) && ValidCosBit(cosBit)
    ensures forall i :: 0 <= i < 32 ==> Buffer(1, input, cospi, cosBit)[i] == input[BitRev(5, i)]
    ensures forall j :: 0 <= j < 32 ==> Buffer(1, input, cospi, cosBit)[BitRev(5, j)] == input[j]
  {
    StagesOk();
    var x := Buffer(1, input, cospi, cosBit);
    assert Stages[..1] == [Stage1];
    RunOne(Stage1, input, cospi, cosBit);
    assert Pow2(5) == 32;
    forall j | 0 <= j < 32
      ensures x[BitRev(5, j)] == input[j]
    {
      var i := BitRev(5, j);
      BitRevInvolution(5, j);
      assert x[i] == input[BitRev(5, i)];
    }
  }

  /** The last stage adds and subtracts mirrored lanes of the buffer before it: output lane i
      is the saturated sum, and output lane 31-i the saturated difference, of lanes i and 31-i. */
  lemma OutputStage(input: seq<int>, cospi: seq<int>, cosBit: nat)
    requires |input| == 32 && AllInt16(input)
    requires ValidCosTable(cospi) && ValidCosBit(cosBit)
    ensures var x := Buffer(8, input, cospi, cosBit);
            var y := Transform(input, cospi, cosBit);
            forall i :: 0 <= i < 16 ==> y[i] == AddS(x[i], x[31 - i]) && y[31 - i] == SubS(x[i], x[31 - i])
  {
    StagesOk();
    RunSnoc(Stages, input, cospi, cosBit);
    LastStageSymmetric();
    var x := Buffer(8, input, cospi, cosBit);
    SymmetricOutput(Stage9, x, cospi, cosBit);
  }

}
