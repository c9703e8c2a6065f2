/** `iidentity8_new_sse2` (av1/common/x86/av1_inv_txfm_sse2.c lines 1602-1614): the 8-point
    identity kernel, which doubles every lane with a saturating add and never reads `cos_bit`. */
module Iidentity8 {
  import opened Fixed
  import opened Butterfly
  import opened Network

  const Width: nat := 8

  /** The single stage (lines 1606-1613). */
  function Stage1(i: nat): Lane {
    match i
    case 0 => Add(0, 0)
    case 1 => Add(1, 1)
    case 2 => Add(2, 2)
    case 3 => Add(3, 3)
    case 4 => Add(4, 4)
    case 5 => Add(5, 5)
    case 6 => Add(6, 6)
    case 7 => Add(7, 7)
    case _ => Take(0)
  }

  const Stages: seq<Wiring> := [Stage1]

  lemma StagesOk()
    ensures NetOk(Stages, Width)
    ensures forall s :: 0 <= s < |Stages| ==> NoRotation(Stages[s], Width)
  {
  }

  /** `iidentity8_new_sse2` on one column of lanes: every lane is doubled by a saturating add of
      the lane to itself. The cosine table and precision are accepted for the common kernel
      signature and shown below to be irrelevant. */
  function Transform(input: seq<int>, cospi: seq<int>, cosBit: nat): (output: seq<int>)
    requires |input| == 8 && AllInt16(input)
    requires ValidCosTable(cospi) && ValidCosBit(cosBit)
    ensures |output| == 8 && AllInt16(output)
    ensures forall i :: 0 <= i < 8 ==> output[i] == Sat16(2 * input[i])
  {
    StagesOk();
    RunOne(Stage1, input, cospi, cosBit);
    var output := Run(Stages, input, cospi, cosBit);
    assert forall i :: 0 <= i < 8 ==> output[i] == Sat16(2 * input[i]) by {
      forall i | 0 <= i < 8
        ensures output[i] == Sat16(2 * input[i])
      {
        assert Stage1(i) == Add(i, i);
      }
    }
    output
  }

  /** The doubling is exact while `2 * x` fits in 16 bits and pinned to the nearer bound
      otherwise. */
  lemma Doubles(input: seq<int>, cospi: seq<int>, cosBit: nat)
    requires |input| == 8 && AllInt16(input)
    requires ValidCosTable(cospi) && ValidCosBit(cosBit)
    ensures var y := Transform(input, cospi, cosBit);
            && (forall i :: 0 <= i < 8 && -16384 <= input[i] <= 16383 ==> y[i] == 2 * input[i])
            && (forall i :: 0 <= i < 8 && input[i] > 16383 ==> y[i] == Int16Max)
            && (forall i :: 0 <= i < 8 && input[i] < -16384 ==> y[i] == Int16Min)
  {
  }

  /** The output does not depend on the cosine table or on `cos_bit`. */
  lemma IgnoresCosBit(input: seq<int>, cospi1: seq<int>, cosBit1: nat, cospi2: seq<int>, cosBit2: nat)
    requires |input| == 8 && AllInt16(input)
    requires ValidCosTable(cospi1) && ValidCosBit(cosBit1)
    requires ValidCosTable(cospi2) && ValidCosBit(cosBit2)
    ensures Transform(input, cospi1, cosBit1) == Transform(input, cospi2, cosBit2)
  {
    StagesOk();
    RunIgnoresCosines(Stages, input, cospi1, cosBit1, cospi2, cosBit2);
  }
}
