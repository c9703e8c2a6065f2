/** The 7 stages of `iadst8_new_sse2` (av1/common/x86/av1_inv_txfm_sse2.c lines 1330-1416),
    each lane written as the source writes it, and the facts about their shape that the
    kernel's properties rest on. */
module Iadst8Stages {
  import opened Fixed
  import opened Butterfly
  import opened Network
  import opened Permutation

  const Width: nat := 8

  /** The buffer lane each output lane is written from. */
  const OutputOrder: seq<nat> := Adst8Output

  /** Stage 1 (lines 1349-1358). */
  function Stage1(i: nat): Lane {
    match i
    case 0 => Take(7)
    case 1 => Take(0)
    case 2 => Take(5)
    case 3 => Take(2)
    case 4 => Take(3)
    case 5 => Take(4)
    case 6 => Take(1)
    case 7 => Take(6)
    case _ => Take(0)
  }

  /** Stage 2 (lines 1360-1365). */
  function Stage2(i: nat): Lane {
    match i
    case 0 => Rot(Plus(4), 0, Plus(60), 1)
    case 1 => Rot(Plus(60), 0, Minus(4), 1)
    case 2 => Rot(Plus(20), 2, Plus(44), 3)
    case 3 => Rot(Plus(44), 2, Minus(20), 3)
    case 4 => Rot(Plus(36), 4, Plus(28), 5)
    case 5 => Rot(Plus(28), 4, Minus(36), 5)
    case 6 => Rot(Plus(52), 6, Plus(12), 7)
    case 7 => Rot(Plus(12), 6, Minus(52), 7)
    case _ => Take(0)
  }

  /** Stage 3 (lines 1367-1376). */
  function Stage3(i: nat): Lane {
    match i
    case 0 => Add(0, 4)
    case 1 => Add(1, 5)
    case 2 => Add(2, 6)
    case 3 => Add(3, 7)
    case 4 => Sub(0, 4)
    case 5 => Sub(1, 5)
    case 6 => Sub(2, 6)
    case 7 => Sub(3, 7)
    case _ => Take(0)
  }

  /** Stage 4 (lines 1378-1385). */
  function Stage4(i: nat): Lane {
    match i
    case 0 => Take(0)
    case 1 => Take(1)
    case 2 => Take(2)
    case 3 => Take(3)
    case 4 => Rot(Plus(16), 4, Plus(48), 5)
    case 5 => Rot(Plus(48), 4, Minus(16), 5)
    case 6 => Rot(Minus(48), 6, Plus(16), 7)
    case 7 => Rot(Plus(16), 6, Plus(48), 7)
    case _ => Take(0)
  }

  /** Stage 5 (lines 1387-1396). */
  function Stage5(i: nat): Lane {
    match i
    case 0 => Add(0, 2)
    case 1 => Add(1, 3)
    case 2 => Sub(0, 2)
    case 3 => Sub(1, 3)
    case 4 => Add(4, 6)
    case 5 => Add(5, 7)
    case 6 => Sub(4, 6)
    case 7 => Sub(5, 7)
    case _ => Take(0)
  }

  /** Stage 6 (lines 1398-1405). */
  function Stage6(i: nat): Lane {
    match i
    case 0 => Take(0)
    case 1 => Take(1)
    case 2 => Rot(Plus(32), 2, Plus(32), 3)
    case 3 => Rot(Plus(32), 2, Minus(32), 3)
    case 4 => Take(4)
    case 5 => Take(5)
    case 6 => Rot(Plus(32), 6, Plus(32), 7)
    case 7 => Rot(Plus(32), 6, Minus(32), 7)
    case _ => Take(0)
  }

  /** Stage 7 (lines 1407-1415). */
  function Stage7(i: nat): Lane {
    match i
    case 0 => Take(0)
    case 1 => Negate(4)
    case 2 => Take(6)
    case 3 => Negate(2)
    case 4 => Take(3)
    case 5 => Negate(7)
    case 6 => Take(5)
    case 7 => Negate(1)
    case _ => Take(0)
  }

  const Stages: seq<Wiring> := [Stage1, Stage2, Stage3, Stage4, Stage5, Stage6, Stage7]

  lemma Stage1Ok()
    ensures WiringOk(Stage1, Width)
  {
  }

  lemma Stage2Ok()
    ensures WiringOk(Stage2, Width)
  {
  }

  lemma Stage3Ok()
    ensures WiringOk(Stage3, Width)
  {
  }

  lemma Stage4Ok()
    ensures WiringOk(Stage4, Width)
  {
  }

  lemma Stage5Ok()
    ensures WiringOk(Stage5, Width)
  {
  }

  lemma Stage6Ok()
    ensures WiringOk(Stage6, Width)
  {
  }

  lemma Stage7Ok()
    ensures WiringOk(Stage7, Width)
  {
  }

  lemma StagesOk()
    ensures NetOk(Stages, Width)
  {
    Stage1Ok();
    Stage2Ok();
    Stage3Ok();
    Stage4Ok();
    Stage5Ok();
    Stage6Ok();
    Stage7Ok();
  }

  /** Stage 1 loads lane i from input lane `AdstInput(8, i)`. */
  lemma Stage1LoadsAdstOrder()
    ensures forall i :: 0 <= i < Width ==> Stage1(i) == Take(AdstInput(Width, i))
  {
  }

  /** The last stage writes a signed permutation of its input buffer. */
  lemma LastStageSignedPermutation()
    ensures SignedPermutationStage(Stage7, OutputOrder)
  {
  }

}

/** `iadst8_new_sse2`: the 8-point inverse ADST. It loads its input in the interleaved
    order of `AdstInput`, runs 5 stages of rotations and saturating sums, and writes its
    output as a signed permutation of the last buffer. */
module Iadst8 {
  import opened Fixed
  import opened Butterfly
  import opened Network
  import opened Permutation
  import opened Iadst8Stages

  /** The buffer after the first `s` stages (`s == 0` is the input itself). */
  function Buffer(s: nat, input: seq<int>, cospi: seq<int>, cosBit: nat): (x: seq<int>)
    requires s <= 7 && |input| == 8 && AllInt16(input)
    requires ValidCosTable(cospi) && ValidCosBit(cosBit)
    ensures |x| == 8 && AllInt16(x)
  {
    StagesOk();
    Run(Stages[..s], input, cospi, cosBit)
  }

  /** `iadst8_new_sse2`: a column of 8 16-bit coefficients to 8 saturated 16-bit outputs; an
      all-zero column gives an all-zero column. */
  function Transform(input: seq<int>, cospi: seq<int>, cosBit: nat): (output: seq<int>)
    requires |input| == 8 && AllInt16(input)
    requires ValidCosTable(cospi) && ValidCosBit(cosBit)
    ensures |output| == 8 && AllInt16(output)
    ensures AllZero(input) ==> AllZero(output)
  {
    StagesOk();
    var output := Run(Stages, input, cospi, cosBit);
    assert AllZero(input) ==> AllZero(output) by {
      if AllZero(input) {
        RunZero(Stages, input, cospi, cosBit);
      }
    }
    output
  }

  /** Stage 1 loads input lane `AdstInput(8, i)` into lane i, and input lane j ends up in lane
      `AdstInputInverse(8, j)`: every input lane is read exactly once. */
  lemma InputOrder(input: seq<int>, cospi: seq<int>, cosBit: nat)
    requires |input| == 8 && AllInt16(input)
    requires ValidCosTable(cospi) && ValidCosBit(cosBit)
    ensures forall i :: 0 <= i < 8 ==> Buffer(1, input, cospi, cosBit)[i] == input[AdstInput(8, i)]
    ensures forall j :: 0 <= j < 8 ==> Buffer(1, input, cospi, cosBit)[AdstInputInverse(8, j)] == input[j]
  {
    StagesOk();
    var x := Buffer(1, input, cospi, cosBit);
    assert Stages[..1] == [Stage1];
    RunOne(Stage1, input, cospi, cosBit);
    Stage1LoadsAdstOrder();
    AdstInputBijective(Width);
    forall j | 0 <= j < Width
      ensures x[AdstInputInverse(Width, j)] == input[j]
    {
      var i := AdstInputInverse(Width, j);
      assert x[i] == input[AdstInput(Width, i)];
    }
  }

  /** Output lane j is buffer lane `OutputOrder[j]` of the last buffer, negated by a saturating
      `0 - x` when j is odd, so that -32768 becomes 32767 rather than wrapping. Since the order is
      a permutation, buffer lane k reaches exactly one output lane, `Adst8OutputInverse[k]`. */
  lemma OutputStage(input: seq<int>, cospi: seq<int>, cosBit: nat)
    requires |input| == 8 && AllInt16(input)
    requires ValidCosTable(cospi) && ValidCosBit(cosBit)
    ensures var x := Buffer(6, input, cospi, cosBit);
            var y := Transform(input, cospi, cosBit);
            && (forall j :: 0 <= j < 8 && j % 2 == 0 ==> y[j] == x[OutputOrder[j]])
            && (forall j :: 0 <= j < 8 && j % 2 == 1 && x[OutputOrder[j]] != Int16Min ==> y[j] == -x[OutputOrder[j]])
            && (forall j :: 0 <= j < 8 && j % 2 == 1 && x[OutputOrder[j]] == Int16Min ==> y[j] == Int16Max)
            && (forall k :: 0 <= k < 8 ==> y[Adst8OutputInverse[k]] == (if Adst8OutputInverse[k] % 2 == 0 then x[k] else SubS(0, x[k])))
  {
    StagesOk();
    RunSnoc(Stages, input, cospi, cosBit);
    LastStageSignedPermutation();
    AdstOutputsArePermutations();
    var x := Buffer(6, input, cospi, cosBit);
    var y := Transform(input, cospi, cosBit);
    SignedPermutationOutput(Stage7, OutputOrder, x, cospi, cosBit);
    forall j | 0 <= j < 8 && j % 2 == 1
      ensures x[OutputOrder[j]] != Int16Min ==> y[j] == -x[OutputOrder[j]]
      ensures x[OutputOrder[j]] == Int16Min ==> y[j] == Int16Max
    {
      NegateSaturates(x[OutputOrder[j]]);
    }
  }

}
