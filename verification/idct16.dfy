/** The 7 butterfly stages of `idct16_new_sse2` (av1/common/x86/av1_inv_txfm_sse2.c lines 109-252),
    each lane written as the source writes it, and the facts about their shape that the
    kernel's properties rest on. */
module Idct16Stages {
  import opened Fixed
  import opened Butterfly
  import opened Network
  import opened Permutation

  const Width: nat := 16
  const Log2Width: nat := 4

  /** Stage 1 (lines 134-151): lane i is loaded from input lane `BitRev(4, i)`, the 4-bit
      reversal of i (x1[1] = input[8], x1[2] = input[4], x1[3] = input[12], ...). */
  function Stage1(i: nat): Lane {
    Take(BitRev(Log2Width, i))
  }

  /** Stage 1 is the load order the source writes out lane by lane in lines 134-151. */
  lemma Stage1IsSourceOrder()
    ensures [Stage1(0), Stage1(1), Stage1(2), Stage1(3), Stage1(4), Stage1(5), Stage1(6), Stage1(7),
             Stage1(8), Stage1(9), Stage1(10), Stage1(11), Stage1(12), Stage1(13), Stage1(14),
             Stage1(15)]
         == [Take(0), Take(8), Take(4), Take(12), Take(2), Take(10), Take(6), Take(14), Take(1),
             Take(9), Take(5), Take(13), Take(3), Take(11), Take(7), Take(15)]
  {
    assert Pow2(0) == 1;
    assert BitRev(1, 0) == 0;
    assert BitRev(1, 1) == 1;
    assert Pow2(1) == 2;
    assert BitRev(2, 0) == 0;
    assert BitRev(2, 1) == 2;
    assert BitRev(2, 2) == 1;
    assert BitRev(2, 3) == 3;
    assert Pow2(2) == 4;
    assert BitRev(3, 0) == 0;
    assert BitRev(3, 1) == 4;
    assert BitRev(3, 2) == 2;
    assert BitRev(3, 3) == 6;
    assert BitRev(3, 4) == 1;
    assert BitRev(3, 5) == 5;
    assert BitRev(3, 6) == 3;
    assert BitRev(3, 7) == 7;
    assert Pow2(3) == 8;
    assert BitRev(4, 0) == 0;
    assert BitRev(4, 1) == 8;
    assert BitRev(4, 2) == 4;
    assert BitRev(4, 3) == 12;
    assert BitRev(4, 4) == 2;
    assert BitRev(4, 5) == 10;
    assert BitRev(4, 6) == 6;
    assert BitRev(4, 7) == 14;
    assert BitRev(4, 8) == 1;
    assert BitRev(4, 9) == 9;
    assert BitRev(4, 10) == 5;
    assert BitRev(4, 11) == 13;
    assert BitRev(4, 12) == 3;
    assert BitRev(4, 13) == 11;
    assert BitRev(4, 14) == 7;
    assert BitRev(4, 15) == 15;
  }

  /** Stage 2 (lines 153-166). */
  function Stage2(i: nat): Lane {
    match i
    case 0 => Take(0)
    case 1 => Take(1)
    case 2 => Take(2)
    case 3 => Take(3)
    case 4 => Take(4)
    case 5 => Take(5)
    case 6 => Take(6)
    case 7 => Take(7)
    case 8 => Rot(Plus(60), 8, Minus(4), 15)
    case 9 => Rot(Plus(28), 9, Minus(36), 14)
    case 10 => Rot(Plus(44), 10, Minus(20), 13)
    case 11 => Rot(Plus(12), 11, Minus(52), 12)
    case 12 => Rot(Plus(52), 11, Plus(12), 12)
    case 13 => Rot(Plus(20), 10, Plus(44), 13)
    case 14 => Rot(Plus(36), 9, Plus(28), 14)
    case 15 => Rot(Plus(4), 8, Plus(60), 15)
    case _ => Take(0)
  }

  /** Stage 3 (lines 168-183). */
  function Stage3(i: nat): Lane {
    match i
    case 0 => Take(0)
    case 1 => Take(1)
    case 2 => Take(2)
    case 3 => Take(3)
    case 4 => Rot(Plus(56), 4, Minus(8), 7)
    case 5 => Rot(Plus(24), 5, Minus(40), 6)
    case 6 => Rot(Plus(40), 5, Plus(24), 6)
    case 7 => Rot(Plus(8), 4, Plus(56), 7)
    case 8 => Add(8, 9)
    case 9 => Sub(8, 9)
    case 10 => Sub(11, 10)
    case 11 => Add(10, 11)
    case 12 => Add(12, 13)
    case 13 => Sub(12, 13)
    case 14 => Sub(15, 14)
    case 15 => Add(14, 15)
    case _ => Take(0)
  }

  /** Stage 4 (lines 185-198). */
  function Stage4(i: nat): Lane {
    match i
    case 0 => Rot(Plus(32), 0, Plus(32), 1)
    case 1 => Rot(Plus(32), 0, Minus(32), 1)
    case 2 => Rot(Plus(48), 2, Minus(16), 3)
    case 3 => Rot(Plus(16), 2, Plus(48), 3)
    case 4 => Add(4, 5)
    case 5 => Sub(4, 5)
    case 6 => Sub(7, 6)
    case 7 => Add(6, 7)
    case 8 => Take(8)
    case 9 => Rot(Minus(16), 9, Plus(48), 14)
    case 10 => Rot(Minus(48), 10, Minus(16), 13)
    case 11 => Take(11)
    case 12 => Take(12)
    case 13 => Rot(Minus(16), 10, Plus(48), 13)
    case 14 => Rot(Plus(48), 9, Plus(16), 14)
    case 15 => Take(15)
    case _ => Take(0)
  }

  /** Stage 5 (lines 200-216). */
  function Stage5(i: nat): Lane {
    match i
    case 0 => Add(0, 3)
    case 1 => Add(1, 2)
    case 2 => Sub(1, 2)
    case 3 => Sub(0, 3)
    case 4 => Take(4)
    case 5 => Rot(Minus(32), 5, Plus(32), 6)
    case 6 => Rot(Plus(32), 5, Plus(32), 6)
    case 7 => Take(7)
    case 8 => Add(8, 11)
    case 9 => Add(9, 10)
    case 10 => Sub(9, 10)
    case 11 => Sub(8, 11)
    case 12 => Sub(15, 12)
    case 13 => Sub(14, 13)
    case 14 => Add(13, 14)
    case 15 => Add(12, 15)
    case _ => Take(0)
  }

  /** Stage 6 (lines 218-233). */
  function Stage6(i: nat): Lane {
    match i
    case 0 => Add(0, 7)
    case 1 => Add(1, 6)
    case 2 => Add(2, 5)
    case 3 => Add(3, 4)
    case 4 => Sub(3, 4)
    case 5 => Sub(2, 5)
    case 6 => Sub(1, 6)
    case 7 => Sub(0, 7)
    case 8 => Take(8)
    case 9 => Take(9)
    case 10 => Rot(Minus(32), 10, Plus(32), 13)
    case 11 => Rot(Minus(32), 11, Plus(32), 12)
    case 12 => Rot(Plus(32), 11, Plus(32), 12)
    case 13 => Rot(Plus(32), 10, Plus(32), 13)
    case 14 => Take(14)
    case 15 => Take(15)
    case _ => Take(0)
  }

  /** Stage 7 (lines 235-251). */
  function Stage7(i: nat): Lane {
    match i
    case 0 => Add(0, 15)
    case 1 => Add(1, 14)
    case 2 => Add(2, 13)
    case 3 => Add(3, 12)
    case 4 => Add(4, 11)
    case 5 => Add(5, 10)
    case 6 => Add(6, 9)
    case 7 => Add(7, 8)
    case 8 => Sub(7, 8)
    case 9 => Sub(6, 9)
    case 10 => Sub(5, 10)
    case 11 => Sub(4, 11)
    case 12 => Sub(3, 12)
    case 13 => Sub(2, 13)
    case 14 => Sub(1, 14)
    case 15 => Sub(0, 15)
    case _ => Take(0)
  }

  const Stages: seq<Wiring> := [Stage1, Stage2, Stage3, Stage4, Stage5, Stage6, Stage7]

  lemma Stage1Ok()
    ensures WiringOk(Stage1, Width)
  {
    assert Pow2(Log2Width) == Width;
  }

  lemma Stage2Ok()
    ensures WiringOk(Stage2, Width)
  {
  }

  lemma Stage3Ok()
    ensures WiringOk(Stage3, Width)
  {
  }

  lemma Stage4Ok()
    ensures WiringOk(Stage4, Width)
  {
  }

  lemma Stage5Ok()
    ensures WiringOk(Stage5, Width)
  {
  }

  lemma Stage6Ok()
    ensures WiringOk(Stage6, Width)
  {
  }

  lemma Stage7Ok()
    ensures WiringOk(Stage7, Width)
  {
  }

  lemma StagesOk()
    ensures NetOk(Stages, Width)
  {
    Stage1Ok();
    Stage2Ok();
    Stage3Ok();
    Stage4Ok();
    Stage5Ok();
    Stage6Ok();
    Stage7Ok();
  }

  lemma Stage2KeepsDc()
    ensures Widens(Stage2, Width, 1, 1)
  {
  }

  lemma Stage3KeepsDc()
    ensures Widens(Stage3, Width, 1, 1)
  {
  }

  lemma Stage4RotatesDc()
    ensures DcRotation(Stage4, Width)
  {
  }

  lemma Stage5SpreadsDc()
    ensures Widens(Stage5, Width, 2, 4)
  {
  }

  lemma Stage6SpreadsDc()
    ensures Widens(Stage6, Width, 4, 8)
  {
  }

  lemma Stage7SpreadsDc()
    ensures Widens(Stage7, Width, 8, 16)
  {
  }

  lemma Shape()
    ensures IdctShape(Stages, 3)
  {
    assert Pow2(4) == Width;
    BitRevLoadKeepsDc(Stage1, Log2Width);
    Stage2KeepsDc();
    Stage3KeepsDc();
    Stage4RotatesDc();
    Stage5SpreadsDc();
    Stage6SpreadsDc();
    Stage7SpreadsDc();
  }

  lemma LastStageSymmetric()
    ensures SymmetricStage(Stage7, Width)
  {
  }

}

/** `idct16_new_sse2`: the 16-point inverse DCT. It loads its input in bit-reversed order,
    rotates lanes 0 and 1 by (cospi[32], +-cospi[32]) in stage 4, and closes with the
    symmetric sum/difference stage. */
module Idct16 {
  import opened Fixed
  import opened Butterfly
  import opened Network
  import opened Permutation
  import opened Idct16Stages

  /** The buffer after the first `s` stages (`s == 0` is the input itself). */
  function Buffer(s: nat, input: seq<int>, cospi: seq<int>, cosBit: nat): (x: seq<int>)
    requires s <= 7 && |input| == 16 && AllInt16(input)
    requires ValidCosTable(cospi) && ValidCosBit(cosBit)
    ensures |x| == 16 && AllInt16(x)
  {
    StagesOk();
    Run(Stages[..s], input, cospi, cosBit)
  }

  /** `idct16_new_sse2`: a column of 16 16-bit coefficients to 16 saturated 16-bit outputs. An
      all-zero column gives an all-zero column, and a DC-only column (d, 0, ..., 0) gives 16
      copies of the (cospi[32], cospi[32]) rotation of (d, 0). */
  function Transform(input: seq<int>, cospi: seq<int>, cosBit: nat): (output: seq<int>)
    requires |input| == 16 && AllInt16(input)
    requires ValidCosTable(cospi) && ValidCosBit(cosBit)
    ensures |output| == 16 && AllInt16(output)
    ensures AllZero(input) ==> AllZero(output)
    ensures (forall i :: 1 <= i < 16 ==> input[i] == 0) ==>
              forall i :: 0 <= i < 16 ==> output[i] == DcValue(cospi, input[0], cosBit)
  {
    StagesOk();
    var output := Run(Stages, input, cospi, cosBit);
    assert AllZero(input) ==> AllZero(output) by {
      if AllZero(input) {
        RunZero(Stages, input, cospi, cosBit);
      }
    }
    assert (forall i :: 1 <= i < 16 ==> input[i] == 0) ==>
             forall i :: 0 <= i < 16 ==> output[i] == DcValue(cospi, input[0], cosBit) by {
      if forall i :: 1 <= i < 16 ==> input[i] == 0 {
        Shape();
        IdctDc(Stages, 3, input, cospi, cosBit);
      }
    }
    output
  }

  /** Stage 1 loads input lane `BitRev(4, i)` into lane i, and since bit reversal is its own
      inverse, input lane j ends up in lane `BitRev(4, j)`: every input lane is read exactly
      once. */
  lemma InputOrder(input: seq<int>, cospi: seq<int>, cosBit: nat)
    requires |input| == 16 && AllInt16(input)
    requires ValidCosTable(cospi) && ValidCosBit(cosBit)
    ensures forall i :: 0 <= i < 16 ==> Buffer(1, input, cospi, cosBit)[i] == input[BitRev(4, i)]
    ensures forall j :: 0 <= j < 16 ==> Buffer(1, input, cospi, cosBit)[BitRev(4, j)] == input[j]
  {
    StagesOk();
    var x := Buffer(1, input, cospi, cosBit);
    assert Stages[..1] == [Stage1];
    RunOne(Stage1, input, cospi, cosBit);
    assert Pow2(4) == 16;
    forall j | 0 <= j < 16
      ensures x[BitRev(4, j)] == input[j]
    {
      var i := BitRev(4, j);
      BitRevInvolution(4, j);
      assert x[i] == input[BitRev(4, i)];
    }
  }

  /** The last stage adds and subtracts mirrored lanes of the buffer before it: output lane i
      is the saturated sum, and output lane 15-i the saturated difference, of lanes i and 15-i. */
  lemma OutputStage(input: seq<int>, cospi: seq<int>, cosBit: nat)
    requires |input| == 16 && AllInt16(input)
    requires ValidCosTable(cospi) && ValidCosBit(cosBit)
    ensures var x := Buffer(6, input, cospi, cosBit);
            var y := Transform(input, cospi, cosBit);
            forall i :: 0 <= i < 8 ==> y[i] == AddS(x[i], x[15 - i]) && y[15 - i] == SubS(x[i], x[15 - i])
  {
    StagesOk();
    RunSnoc(Stages, input, cospi, cosBit);
    LastStageSymmetric();
    var x := Buffer(6, input, cospi, cosBit);
    SymmetricOutput(Stage7, x, cospi, cosBit);
  }

}
