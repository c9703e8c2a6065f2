/** The 5 butterfly stages of `idct8_new_sse2` (av1/common/x86/av1_inv_txfm_sse2.c lines 45-107),
    each lane written as the source writes it, and the facts about their shape that the
    kernel's properties rest on. */
module Idct8Stages {
  import opened Fixed
  import opened Butterfly
  import opened Network
  import opened Permutation

  const Width: nat := 8
  const Log2Width: nat := 3

  /** Stage 1 (lines 59-68): lane i is loaded from input lane `BitRev(3, i)`, the 3-bit
      reversal of i (x1[1] = input[4], x1[2] = input[2], x1[3] = input[6], ...). */
  function Stage1(i: nat): Lane {
    Take(BitRev(Log2Width, i))
  }

  /** Stage 1 is the load order the source writes out lane by lane in lines 59-68. */
  lemma Stage1IsSourceOrder()
    ensures [Stage1(0), Stage1(1), Stage1(2), Stage1(3), Stage1(4), Stage1(5), Stage1(6), Stage1(7)]
         == [Take(0), Take(4), Take(2), Take(6), Take(1), Take(5), Take(3), Take(7)]
  {
    assert Pow2(0) == 1;
    assert BitRev(1, 0) == 0;
    assert BitRev(1, 1) == 1;
    assert Pow2(1) == 2;
    assert BitRev(2, 0) == 0;
    assert BitRev(2, 1) == 2;
    assert BitRev(2, 2) == 1;
    assert BitRev(2, 3) == 3;
    assert Pow2(2) == 4;
    assert BitRev(3, 0) == 0;
    assert BitRev(3, 1) == 4;
    assert BitRev(3, 2) == 2;
    assert BitRev(3, 3) == 6;
    assert BitRev(3, 4) == 1;
    assert BitRev(3, 5) == 5;
    assert BitRev(3, 6) == 3;
    assert BitRev(3, 7) == 7;
  }

  /** Stage 2 (lines 70-77). */
  function Stage2(i: nat): Lane {
    match i
    case 0 => Take(0)
    case 1 => Take(1)
    case 2 => Take(2)
    case 3 => Take(3)
    case 4 => Rot(Plus(56), 4, Minus(8), 7)
    case 5 => Rot(Plus(24), 5, Minus(40), 6)
    case 6 => Rot(Plus(40), 5, Plus(24), 6)
    case 7 => Rot(Plus(8), 4, Plus(56), 7)
    case _ => Take(0)
  }

  /** Stage 3 (lines 79-86). */
  function Stage3(i: nat): Lane {
    match i
    case 0 => Rot(Plus(32), 0, Plus(32), 1)
    case 1 => Rot(Plus(32), 0, Minus(32), 1)
    case 2 => Rot(Plus(48), 2, Minus(16), 3)
    case 3 => Rot(Plus(16), 2, Plus(48), 3)
    case 4 => Add(4, 5)
    case 5 => Sub(4, 5)
    case 6 => Sub(7, 6)
    case 7 => Add(6, 7)
    case _ => Take(0)
  }

  /** Stage 4 (lines 88-96). */
  function Stage4(i: nat): Lane {
    match i
    case 0 => Add(0, 3)
    case 1 => Add(1, 2)
    case 2 => Sub(1, 2)
    case 3 => Sub(0, 3)
    case 4 => Take(4)
    case 5 => Rot(Minus(32), 5, Plus(32), 6)
    case 6 => Rot(Plus(32), 5, Plus(32), 6)
    case 7 => Take(7)
    case _ => Take(0)
  }

  /** Stage 5 (lines 98-106). */
  function Stage5(i: nat): Lane {
    match i
    case 0 => Add(0, 7)
    case 1 => Add(1, 6)
    case 2 => Add(2, 5)
    case 3 => Add(3, 4)
    case 4 => Sub(3, 4)
    case 5 => Sub(2, 5)
    case 6 => Sub(1, 6)
    case 7 => Sub(0, 7)
    case _ => Take(0)
  }

  const Stages: seq<Wiring> := [Stage1, Stage2, Stage3, Stage4, Stage5]

  lemma Stage1Ok()
    ensures WiringOk(Stage1, Width)
  {
    assert Pow2(Log2Width) == Width;
  }

  lemma Stage2Ok()
    ensures WiringOk(Stage2, Width)
  {
  }

  lemma Stage3Ok()
    ensures WiringOk(Stage3, Width)
  {
  }

  lemma Stage4Ok()
    ensures WiringOk(Stage4, Width)
  {
  }

  lemma Stage5Ok()
    ensures WiringOk(Stage5, Width)
  {
  }

  lemma StagesOk()
    ensures NetOk(Stages, Width)
  {
    Stage1Ok();
    Stage2Ok();
    Stage3Ok();
    Stage4Ok();
    Stage5Ok();
  }

  lemma Stage2KeepsDc()
    ensures Widens(Stage2, Width, 1, 1)
  {
  }

  lemma Stage3RotatesDc()
    ensures DcRotation(Stage3, Width)
  {
  }

  lemma Stage4SpreadsDc()
    ensures Widens(Stage4, Width, 2, 4)
  {
  }

  lemma Stage5SpreadsDc()
    ensures Widens(Stage5, Width, 4, 8)
  {
  }

  lemma Shape()
    ensures IdctShape(Stages, 2)
  {
    assert Pow2(3) == Width;
    BitRevLoadKeepsDc(Stage1, Log2Width);
    Stage2KeepsDc();
    Stage3RotatesDc();
    Stage4SpreadsDc();
    Stage5SpreadsDc();
  }

  lemma LastStageSymmetric()
    ensures SymmetricStage(Stage5, Width)
  {
  }

}

/** `idct8_new_sse2`: the 8-point inverse DCT. It loads its input in bit-reversed order,
    rotates lanes 0 and 1 by (cospi[32], +-cospi[32]) in stage 3, and closes with the
    symmetric sum/difference stage. */
module Idct8 {
  import opened Fixed
  import opened Butterfly
  import opened Network
  import opened Permutation
  import opened Idct8Stages

  /** The buffer after the first `s` stages (`s == 0` is the input itself). */
  function Buffer(s: nat, input: seq<int>, cospi: seq<int>, cosBit: nat): (x: seq<int>)
    requires s <= 5 && |input| == 8 && AllInt16(input)
    requires ValidCosTable(cospi) && ValidCosBit(cosBit)
    ensures |x| == 8 && AllInt16(x)
  {
    StagesOk();
    Run(Stages[..s], input, cospi, cosBit)
  }

  /** `idct8_new_sse2`: a column of 8 16-bit coefficients to 8 saturated 16-bit outputs. An
      all-zero column gives an all-zero column, and a DC-only column (d, 0, ..., 0) gives 8
      copies of the (cospi[32], cospi[32]) rotation of (d, 0). */
  function Transform(input: seq<int>, cospi: seq<int>, cosBit: nat): (output: seq<int>)
    requires |input| == 8 && AllInt16(input)
    requires ValidCosTable(cospi) && ValidCosBit(cosBit)
    ensures |output| == 8 && AllInt16(output)
    ensures AllZero(input) ==> AllZero(output)
    ensures (forall i :: 1 <= i < 8 ==> input[i] == 0) ==>
              forall i :: 0 <= i < 8 ==> output[i] == DcValue(cospi, input[0], cosBit)
  {
    StagesOk();
    var output := Run(Stages, input, cospi, cosBit);
    assert AllZero(input) ==> AllZero(output) by {
      if AllZero(input) {
        RunZero(Stages, input, cospi, cosBit);
      }
    }
    assert (forall i :: 1 <= i < 8 ==> input[i] == 0) ==>
             forall i :: 0 <= i < 8 ==> output[i] == DcValue(cospi, input[0], cosBit) by {
      if forall i :: 1 <= i < 8 ==> input[i] == 0 {
        Shape();
        IdctDc(Stages, 2, input, cospi, cosBit);
      }
    }
    output
  }

  /** Stage 1 loads input lane `BitRev(3, i)` into lane i, and since bit reversal is its own
      inverse, input lane j ends up in lane `BitRev(3, j)`: every input lane is read exactly
      once. */
  lemma InputOrder(input: seq<int>, cospi: seq<int>, cosBit: nat)
    requires |input| == 8 && AllInt16(input)
    requires ValidCosTable(cospi) && ValidCosBit(cosBit)
    ensures forall i :: 0 <= i < 8 ==> Buffer(1, input, cospi, cosBit)[i] == input[BitRev(3, i)]
    ensures forall j :: 0 <= j < 8 ==> Buffer(1, input, cospi, cosBit)[BitRev(3, j)] == input[j]
  {
    StagesOk();
    var x := Buffer(1, input, cospi, cosBit);
    assert Stages[..1] == [Stage1];
    RunOne(Stage1, input, cospi, cosBit);
    assert Pow2(3) == 8;
    forall j | 0 <= j < 8
      ensures x[BitRev(3, j)] == input[j]
    {
      var i := BitRev(3, j);
      BitRevInvolution(3, j);
      assert x[i] == input[BitRev(3, i)];
    }
  }

  /** The last stage adds and subtracts mirrored lanes of the buffer before it: output lane i
      is the saturated sum, and output lane 7-i the saturated difference, of lanes i and 7-i. */
  lemma OutputStage(input: seq<int>, cospi: seq<int>, cosBit: nat)
    requires |input| == 8 && AllInt16(input)
    requires ValidCosTable(cospi) && ValidCosBit(cosBit)
    ensures var x := Buffer(4, input, cospi, cosBit);
            var y := Transform(input, cospi, cosBit);
            forall i :: 0 <= i < 4 ==> y[i] == AddS(x[i], x[7 - i]) && y[7 - i] == SubS(x[i], x[7 - i])
  {
    StagesOk();
    RunSnoc(Stages, input, cospi, cosBit);
    LastStageSymmetric();
    var x := Buffer(4, input, cospi, cosBit);
    SymmetricOutput(Stage5, x, cospi, cosBit);
  }

}
