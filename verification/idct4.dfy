/** The 3 butterfly stages of `idct4_new_sse2` (av1/common/x86/av1_inv_txfm_sse2.c lines 17-43),
    each lane written as the source writes it, and the facts about their shape that the
    kernel's properties rest on. */
module Idct4Stages {
  import opened Fixed
  import opened Butterfly
  import opened Network
  import opened Permutation

  const Width: nat := 4
  const Log2Width: nat := 2

  /** Stage 1 (lines 26-31): lane i is loaded from input lane `BitRev(2, i)`, the 2-bit
      reversal of i (x1[1] = input[2], x1[2] = input[1], x1[3] = input[3], ...). */
  function Stage1(i: nat): Lane {
    Take(BitRev(Log2Width, i))
  }

  /** Stage 1 is the load order the source writes out lane by lane in lines 26-31. */
  lemma Stage1IsSourceOrder()
    ensures [Stage1(0), Stage1(1), Stage1(2), Stage1(3)]
         == [Take(0), Take(2), Take(1), Take(3)]
  {
    assert Pow2(0) == 1;
    assert BitRev(1, 0) == 0;
    assert BitRev(1, 1) == 1;
    assert Pow2(1) == 2;
    assert BitRev(2, 0) == 0;
    assert BitRev(2, 1) == 2;
    assert BitRev(2, 2) == 1;
    assert BitRev(2, 3) == 3;
  }

  /** Stage 2 (lines 33-36). */
  function Stage2(i: nat): Lane {
    match i
    case 0 => Rot(Plus(32), 0, Plus(32), 1)
    case 1 => Rot(Plus(32), 0, Minus(32), 1)
    case 2 => Rot(Plus(48), 2, Minus(16), 3)
    case 3 => Rot(Plus(16), 2, Plus(48), 3)
    case _ => Take(0)
  }

  /** Stage 3 (lines 38-42). */
  function Stage3(i: nat): Lane {
    match i
    case 0 => Add(0, 3)
    case 1 => Add(1, 2)
    case 2 => Sub(1, 2)
    case 3 => Sub(0, 3)
    case _ => Take(0)
  }

  const Stages: seq<Wiring> := [Stage1, Stage2, Stage3]

  lemma Stage1Ok()
    ensures WiringOk(Stage1, Width)
  {
    assert Pow2(Log2Width) == Width;
  }

  lemma Stage2Ok()
    ensures WiringOk(Stage2, Width)
  {
  }

  lemma Stage3Ok()
    ensures WiringOk(Stage3, Width)
  {
  }

  lemma StagesOk()
    ensures NetOk(Stages, Width)
  {
    Stage1Ok();
    Stage2Ok();
    Stage3Ok();
  }

  lemma Stage2RotatesDc()
    ensures DcRotation(Stage2, Width)
  {
  }

  lemma Stage3SpreadsDc()
    ensures Widens(Stage3, Width, 2, 4)
  {
  }

  lemma Shape()
    ensures IdctShape(Stages, 1)
  {
    assert Pow2(2) == Width;
    BitRevLoadKeepsDc(Stage1, Log2Width);
    Stage2RotatesDc();
    Stage3SpreadsDc();
  }

  lemma LastStageSymmetric()
    ensures SymmetricStage(Stage3, Width)
  {
  }

}

/** `idct4_new_sse2`: the 4-point inverse DCT. It loads its input in bit-reversed order,
    rotates lanes 0 and 1 by (cospi[32], +-cospi[32]) in stage 2, and closes with the
    symmetric sum/difference stage. */
module Idct4 {
  import opened Fixed
  import opened Butterfly
  import opened Network
  import opened Permutation
  import opened Idct4Stages

  /** The buffer after the first `s` stages (`s == 0` is the input itself). */
  function Buffer(s: nat, input: seq<int>, cospi: seq<int>, cosBit: nat): (x: seq<int>)
    requires s <= 3 && |input| == 4 && AllInt16(input)
    requires ValidCosTable(cospi) && ValidCosBit(cosBit)
    ensures |x| == 4 && AllInt16(x)
  {
    StagesOk();
    Run(Stages[..s], input, cospi, cosBit)
  }

  /** `idct4_new_sse2`: a column of 4 16-bit coefficients to 4 saturated 16-bit outputs. An
      all-zero column gives an all-zero column, and a DC-only column (d, 0, ..., 0) gives 4
      copies of the (cospi[32], cospi[32]) rotation of (d, 0). */
  function Transform(input: seq<int>, cospi: seq<int>, cosBit: nat): (output: seq<int>)
    requires |input| == 4 && AllInt16(input)
    requires ValidCosTable(cospi) && ValidCosBit(cosBit)
    ensures |output| == 4 && AllInt16(output)
    ensures AllZero(input) ==> AllZero(output)
    ensures (forall i :: 1 <= i < 4 ==> input[i] == 0) ==>
              forall i :: 0 <= i < 4 ==> output[i] == DcValue(cospi, input[0], cosBit)
  {
    StagesOk();
    var output := Run(Stages, input, cospi, cosBit);
    assert AllZero(input) ==> AllZero(output) by {
      if AllZero(input) {
        RunZero(Stages, input, cospi, cosBit);
      }
    }
    assert (forall i :: 1 <= i < 4 ==> input[i] == 0) ==>
             forall i :: 0 <= i < 4 ==> output[i] == DcValue(cospi, input[0], cosBit) by {
      if forall i :: 1 <= i < 4 ==> input[i] == 0 {
        Shape();
        IdctDc(Stages, 1, input, cospi, cosBit);
      }
    }
    output
  }

  /** Stage 1 loads input lane `BitRev(2, i)` into lane i, and since bit reversal is its own
      inverse, input lane j ends up in lane `BitRev(2, j)`: every input lane is read exactly
      once. */
  lemma InputOrder(input: seq<int>, cospi: seq<int>, cosBit: nat)
    requires |input| == 4 && AllInt16(input)
    requires ValidCosTable(cospi) && ValidCosBit(cosBit)
    ensures forall i :: 0 <= i < 4 ==> Buffer(1, input, cospi, cosBit)[i] == input[BitRev(2, i)]
    ensures forall j :: 0 <= j < 4 ==> Buffer(1, input, cospi, cosBit)[BitRev(2, j)] == input[j]
  {
    StagesOk();
    var x := Buffer(1, input, cospi, cosBit);
    assert Stages[..1] == [Stage1];
    RunOne(Stage1, input, cospi, cosBit);
    assert Pow2(2) == 4;
    forall j | 0 <= j < 4
      ensures x[BitRev(2, j)] == input[j]
    {
      var i := BitRev(2, j);
      BitRevInvolution(2, j);
      assert x[i] == input[BitRev(2, i)];
    }
  }

  /** The last stage adds and subtracts mirrored lanes of the buffer before it: output lane i
      is the saturated sum, and output lane 3-i the saturated difference, of lanes i and 3-i. */
  lemma OutputStage(input: seq<int>, cospi: seq<int>, cosBit: nat)
    requires |input| == 4 && AllInt16(input)
    requires ValidCosTable(cospi) && ValidCosBit(cosBit)
    ensures var x := Buffer(2, input, cospi, cosBit);
            var y := Transform(input, cospi, cosBit);
            forall i :: 0 <= i < 2 ==> y[i] == AddS(x[i], x[3 - i]) && y[3 - i] == SubS(x[i], x[3 - i])
  {
    StagesOk();
    RunSnoc(Stages, input, cospi, cosBit);
    LastStageSymmetric();
    var x := Buffer(2, input, cospi, cosBit);
    SymmetricOutput(Stage3, x, cospi, cosBit);
  }

}
