/** The 9 stages of `iadst16_new_sse2` (av1/common/x86/av1_inv_txfm_sse2.c lines 1418-1600),
    each lane written as the source writes it, and the facts about their shape that the
    kernel's properties rest on. */
module Iadst16Stages {
  import opened Fixed
  import opened Butterfly
  import opened Network
  import opened Permutation

  const Width: nat := 16

  /** The buffer lane each output lane is written from. */
  const OutputOrder: seq<nat> := Adst16Output

  /** Stage 1 (lines 1451-1468). */
  function Stage1(i: nat): Lane {
    match i
    case 0 => Take(15)
    case 1 => Take(0)
    case 2 => Take(13)
    case 3 => Take(2)
    case 4 => Take(11)
    case 5 => Take(4)
    case 6 => Take(9)
    case 7 => Take(6)
    case 8 => Take(7)
    case 9 => Take(8)
    case 10 => Take(5)
    case 11 => Take(10)
    case 12 => Take(3)
    case 13 => Take(12)
    case 14 => Take(1)
    case 15 => Take(14)
    case _ => Take(0)
  }

  /** Stage 2 (lines 1470-1479). */
  function Stage2(i: nat): Lane {
    match i
    case 0 => Rot(Plus(2), 0, Plus(62), 1)
    case 1 => Rot(Plus(62), 0, Minus(2), 1)
    case 2 => Rot(Plus(10), 2, Plus(54), 3)
    case 3 => Rot(Plus(54), 2, Minus(10), 3)
    case 4 => Rot(Plus(18), 4, Plus(46), 5)
    case 5 => Rot(Plus(46), 4, Minus(18), 5)
    case 6 => Rot(Plus(26), 6, Plus(38), 7)
    case 7 => Rot(Plus(38), 6, Minus(26), 7)
    case 8 => Rot(Plus(34), 8, Plus(30), 9)
    case 9 => Rot(Plus(30), 8, Minus(34), 9)
    case 10 => Rot(Plus(42), 10, Plus(22), 11)
    case 11 => Rot(Plus(22), 10, Minus(42), 11)
    case 12 => Rot(Plus(50), 12, Plus(14), 13)
    case 13 => Rot(Plus(14), 12, Minus(50), 13)
    case 14 => Rot(Plus(58), 14, Plus(6), 15)
    case 15 => Rot(Plus(6), 14, Minus(58), 15)
    case _ => Take(0)
  }

  /** Stage 3 (lines 1481-1498). */
  function Stage3(i: nat): Lane {
    match i
    case 0 => Add(0, 8)
    case 1 => Add(1, 9)
    case 2 => Add(2, 10)
    case 3 => Add(3, 11)
    case 4 => Add(4, 12)
    case 5 => Add(5, 13)
    case 6 => Add(6, 14)
    case 7 => Add(7, 15)
    case 8 => Sub(0, 8)
    case 9 => Sub(1, 9)
    case 10 => Sub(2, 10)
    case 11 => Sub(3, 11)
    case 12 => Sub(4, 12)
    case 13 => Sub(5, 13)
    case 14 => Sub(6, 14)
    case 15 => Sub(7, 15)
    case _ => Take(0)
  }

  /** Stage 4 (lines 1500-1513). */
  function Stage4(i: nat): Lane {
    match i
    case 0 => Take(0)
    case 1 => Take(1)
    case 2 => Take(2)
    case 3 => Take(3)
    case 4 => Take(4)
    case 5 => Take(5)
    case 6 => Take(6)
    case 7 => Take(7)
    case 8 => Rot(Plus(8), 8, Plus(56), 9)
    case 9 => Rot(Plus(56), 8, Minus(8), 9)
    case 10 => Rot(Plus(40), 10, Plus(24), 11)
    case 11 => Rot(Plus(24), 10, Minus(40), 11)
    case 12 => Rot(Minus(56), 12, Plus(8), 13)
    case 13 => Rot(Plus(8), 12, Plus(56), 13)
    case 14 => Rot(Minus(24), 14, Plus(40), 15)
    case 15 => Rot(Plus(40), 14, Plus(24), 15)
    case _ => Take(0)
  }

  /** Stage 5 (lines 1515-1532). */
  function Stage5(i: nat): Lane {
    match i
    case 0 => Add(0, 4)
    case 1 => Add(1, 5)
    case 2 => Add(2, 6)
    case 3 => Add(3, 7)
    case 4 => Sub(0, 4)
    case 5 => Sub(1, 5)
    case 6 => Sub(2, 6)
    case 7 => Sub(3, 7)
    case 8 => Add(8, 12)
    case 9 => Add(9, 13)
    case 10 => Add(10, 14)
    case 11 => Add(11, 15)
    case 12 => Sub(8, 12)
    case 13 => Sub(9, 13)
    case 14 => Sub(10, 14)
    case 15 => Sub(11, 15)
    case _ => Take(0)
  }

  /** Stage 6 (lines 1534-1547). */
  function Stage6(i: nat): Lane {
    match i
    case 0 => Take(0)
    case 1 => Take(1)
    case 2 => Take(2)
    case 3 => Take(3)
    case 4 => Rot(Plus(16), 4, Plus(48), 5)
    case 5 => Rot(Plus(48), 4, Minus(16), 5)
    case 6 => Rot(Minus(48), 6, Plus(16), 7)
    case 7 => Rot(Plus(16), 6, Plus(48), 7)
    case 8 => Take(8)
    case 9 => Take(9)
    case 10 => Take(10)
    case 11 => Take(11)
    case 12 => Rot(Plus(16), 12, Plus(48), 13)
    case 13 => Rot(Plus(48), 12, Minus(16), 13)
    case 14 => Rot(Minus(48), 14, Plus(16), 15)
    case 15 => Rot(Plus(16), 14, Plus(48), 15)
    case _ => Take(0)
  }

  /** Stage 7 (lines 1549-1566). */
  function Stage7(i: nat): Lane {
    match i
    case 0 => Add(0, 2)
    case 1 => Add(1, 3)
    case 2 => Sub(0, 2)
    case 3 => Sub(1, 3)
    case 4 => Add(4, 6)
    case 5 => Add(5, 7)
    case 6 => Sub(4, 6)
    case 7 => Sub(5, 7)
    case 8 => Add(8, 10)
    case 9 => Add(9, 11)
    case 10 => Sub(8, 10)
    case 11 => Sub(9, 11)
    case 12 => Add(12, 14)
    case 13 => Add(13, 15)
    case 14 => Sub(12, 14)
    case 15 => Sub(13, 15)
    case _ => Take(0)
  }

  /** Stage 8 (lines 1568-1581). */
  function Stage8(i: nat): Lane {
    match i
    case 0 => Take(0)
    case 1 => Take(1)
    case 2 => Rot(Plus(32), 2, Plus(32), 3)
    case 3 => Rot(Plus(32), 2, Minus(32), 3)
    case 4 => Take(4)
    case 5 => Take(5)
    case 6 => Rot(Plus(32), 6, Plus(32), 7)
    case 7 => Rot(Plus(32), 6, Minus(32), 7)
    case 8 => Take(8)
    case 9 => Take(9)
    case 10 => Rot(Plus(32), 10, Plus(32), 11)
    case 11 => Rot(Plus(32), 10, Minus(32), 11)
    case 12 => Take(12)
    case 13 => Take(13)
    case 14 => Rot(Plus(32), 14, Plus(32), 15)
    case 15 => Rot(Plus(32), 14, Minus(32), 15)
    case _ => Take(0)
  }

  /** Stage 9 (lines 1583-1599). */
  function Stage9(i: nat): Lane {
    match i
    case 0 => Take(0)
    case 1 => Negate(8)
    case 2 => Take(12)
    case 3 => Negate(4)
    case 4 => Take(6)
    case 5 => Negate(14)
    case 6 => Take(10)
    case 7 => Negate(2)
    case 8 => Take(3)
    case 9 => Negate(11)
    case 10 => Take(15)
    case 11 => Negate(7)
    case 12 => Take(5)
    case 13 => Negate(13)
    case 14 => Take(9)
    case 15 => Negate(1)
    case _ => Take(0)
  }

  const Stages: seq<Wiring> := [Stage1, Stage2, Stage3, Stage4, Stage5, Stage6, Stage7, Stage8, Stage9]

  lemma Stage1Ok()
    ensures WiringOk(Stage1, Width)
  {
  }

  lemma Stage2Ok()
    ensures WiringOk(Stage2, Width)
  {
  }

  lemma Stage3Ok()
    ensures WiringOk(Stage3, Width)
  {
  }

  lemma Stage4Ok()
    ensures WiringOk(Stage4, Width)
  {
  }

  lemma Stage5Ok()
    ensures WiringOk(Stage5, Width)
  {
  }

  lemma Stage6Ok()
    ensures WiringOk(Stage6, Width)
  {
  }

  lemma Stage7Ok()
    ensures WiringOk(Stage7, Width)
  {
  }

  lemma Stage8Ok()
    ensures WiringOk(Stage8, Width)
  {
  }

  lemma Stage9Ok()
    ensures WiringOk(Stage9, Width)
  {
  }

  lemma StagesOk()
    ensures NetOk(Stages, Width)
  {
    Stage1Ok();
    Stage2Ok();
    Stage3Ok();
    Stage4Ok();
    Stage5Ok();
    Stage6Ok();
    Stage7Ok();
    Stage8Ok();
    Stage9Ok();
  }

  /** Stage 1 loads lane i from input lane `AdstInput(16, i)`. */
  lemma Stage1LoadsAdstOrder()
    ensures forall i :: 0 <= i < Width ==> Stage1(i) == Take(AdstInput(Width, i))
  {
  }

  /** The last stage writes a signed permutation of its input buffer. */
  lemma LastStageSignedPermutation()
    ensures SignedPermutationStage(Stage9, OutputOrder)
  {
  }

}

/** `iadst16_new_sse2`: the 16-point inverse ADST. It loads its input in the interleaved
    order of `AdstInput`, runs 7 stages of rotations and saturating sums, and writes its
    output as a signed permutation of the last buffer. */
module Iadst16 {
  import opened Fixed
  import opened Butterfly
  import opened Network
  import opened Permutation
  import opened Iadst16Stages

  /** The buffer after the first `s` stages (`s == 0` is the input itself). */
  function Buffer(s: nat, input: seq<int>, cospi: seq<int>, cosBit: nat): (x: seq<int>)
    requires s <= 9 && |input| == 16 && AllInt16(input)
    requires ValidCosTable(cospi) && ValidCosBit(cosBit)
    ensures |x| == 16 && AllInt16(x)
  {
    StagesOk();
    Run(Stages[..s], input, cospi, cosBit)
  }

  /** `iadst16_new_sse2`: a column of 16 16-bit coefficients to 16 saturated 16-bit outputs; an
      all-zero column gives an all-zero column. */
  function Transform(input: seq<int>, cospi: seq<int>, cosBit: nat): (output: seq<int>)
    requires |input| == 16 && AllInt16(input)
    requires ValidCosTable(cospi) && ValidCosBit(cosBit)
    ensures |output| == 16 && AllInt16(output)
    ensures AllZero(input) ==> AllZero(output)
  {
    StagesOk();
    var output := Run(Stages, input, cospi, cosBit);
    assert AllZero(input) ==> AllZero(output) by {
      if AllZero(input) {
        RunZero(Stages, input, cospi, cosBit);
      }
    }
    output
  }

  /** Stage 1 loads input lane `AdstInput(16, i)` into lane i, and input lane j ends up in lane
      `AdstInputInverse(16, j)`: every input lane is read exactly once. */
  lemma InputOrder(input: seq<int>, cospi: seq<int>, cosBit: nat)
    requires |input| == 16 && AllInt16(input)
    requires ValidCosTable(cospi) && ValidCosBit(cosBit)
    ensures forall i :: 0 <= i < 16 ==> Buffer(1, input, cospi, cosBit)[i] == input[AdstInput(16, i)]
    ensures forall j :: 0 <= j < 16 ==> Buffer(1, input, cospi, cosBit)[AdstInputInverse(16, j)] == input[j]
  {
    StagesOk();
    var x := Buffer(1, input, cospi, cosBit);
    assert Stages[..1] == [Stage1];
    RunOne(Stage1, input, cospi, cosBit);
    Stage1LoadsAdstOrder();
    AdstInputBijective(Width);
    forall j | 0 <= j < Width
      ensures x[AdstInputInverse(Width, j)] == input[j]
    {
      var i := AdstInputInverse(Width, j);
      assert x[i] == input[AdstInput(Width, i)];
    }
  }

  /** Output lane j is buffer lane `OutputOrder[j]` of the last buffer, negated by a saturating
      `0 - x` when j is odd, so that -32768 becomes 32767 rather than wrapping. Since the order is
      a permutation, buffer lane k reaches exactly one output lane, `Adst16OutputInverse[k]`. */
  lemma OutputStage(input: seq<int>, cospi: seq<int>, cosBit: nat)
    requires |input| == 16 && AllInt16(input)
    requires ValidCosTable(cospi) && ValidCosBit(cosBit)
    ensures var x := Buffer(8, input, cospi, cosBit);
            var y := Transform(input, cospi, cosBit);
            && (forall j :: 0 <= j < 16 && j % 2 == 0 ==> y[j] == x[OutputOrder[j]])
            && (forall j :: 0 <= j < 16 && j % 2 == 1 && x[OutputOrder[j]] != Int16Min ==> y[j] == -x[OutputOrder[j]])
            && (forall j :: 0 <= j < 16 && j % 2 == 1 && x[OutputOrder[j]] == Int16Min ==> y[j] == Int16Max)
            && (forall k :: 0 <= k < 16 ==> y[Adst16OutputInverse[k]] == (if Adst16OutputInverse[k] % 2 == 0 then x[k] else SubS(0, x[k])))
  {
    StagesOk();
    RunSnoc(Stages, input, cospi, cosBit);
    LastStageSignedPermutation();
    AdstOutputsArePermutations();
    var x := Buffer(8, input, cospi, cosBit);
    var y := Transform(input, cospi, cosBit);
    SignedPermutationOutput(Stage9, OutputOrder, x, cospi, cosBit);
    forall j | 0 <= j < 16 && j % 2 == 1
      ensures x[OutputOrder[j]] != Int16Min ==> y[j] == -x[OutputOrder[j]]
      ensures x[OutputOrder[j]] == Int16Min ==> y[j] == Int16Max
    {
      NegateSaturates(x[OutputOrder[j]]);
    }
  }

}
