/** A generic engine for the fixed butterfly networks of the 1D kernels.

    Each `*_new_sse2` kernel is a straight-line sequence of stages. Stage k reads only the
    buffer of stage k-1 and writes every lane of its own buffer exactly once, with one of:
    a copy, a saturating add or subtract, a saturating negation `0 - x`, or one output of
    a butterfly rotation. A `Lane` records which of these computes one destination lane,
    a `Wiring` gives the `Lane` of every destination index, and a kernel is the sequence of
    its stages' wirings. All SSE2 operations involved act lane-wise across the eight 16-bit
    lanes of a register, so one column of lanes is modelled as a `seq<int>`.
 */
module Network {
  import opened Fixed
  import opened Butterfly
  import opened Permutation

  datatype Lane =
    | Take(src: nat)                          // x[src]
    | Add(a: nat, b: nat)                     // _mm_adds_epi16(x[a], x[b])
    | Sub(a: nat, b: nat)                     // _mm_subs_epi16(x[a], x[b])
    | Negate(src: nat)                        // _mm_subs_epi16(zero, x[src])
    | Rot(ca: Coef, a: nat, cb: Coef, b: nat) // one output of btf_16_sse2 on (x[a], x[b])

  /** Destination lane index to the lane computing it; indices at or past the width are unused. */
  type Wiring = nat -> Lane

  predicate LaneOk(l: Lane, n: nat) {
    match l
    case Take(s) => s < n
    case Add(a, b) => a < n && b < n
    case Sub(a, b) => a < n && b < n
    case Negate(s) => s < n
    case Rot(ca, a, cb, b) => CoefOk(ca) && CoefOk(cb) && a < n && b < n
  }

  /** Every lane of a stage of width `n` reads lanes of the previous buffer of width `n`. */
  predicate WiringOk(w: Wiring, n: nat) {
    forall i :: 0 <= i < n ==> LaneOk(w(i), n)
  }

  predicate NetOk(net: seq<Wiring>, n: nat) {
    forall s :: 0 <= s < |net| ==> WiringOk(net[s], n)
  }

  function EvalLane(l: Lane, x: seq<int>, cospi: seq<int>, cosBit: nat): (r: int)
    requires LaneOk(l, |x|) && |cospi| == TableSize && cosBit >= 1
    ensures AllInt16(x) ==> IsInt16(r)
  {
    match l
    case Take(s) => x[s]
    case Add(a, b) => AddS(x[a], x[b])
    case Sub(a, b) => SubS(x[a], x[b])
    case Negate(s) => SubS(0, x[s])
    case Rot(ca, a, cb, b) => Rotate(CoefValue(cospi, ca), x[a], CoefValue(cospi, cb), x[b], cosBit)
  }

  /** One stage: a fresh buffer whose lane i is computed by `w(i)` from the previous buffer. */
  function ApplyStage(w: Wiring, x: seq<int>, cospi: seq<int>, cosBit: nat): (y: seq<int>)
    requires WiringOk(w, |x|) && |cospi| == TableSize && cosBit >= 1
    ensures |y| == |x|
    ensures forall i :: 0 <= i < |x| ==> y[i] == EvalLane(w(i), x, cospi, cosBit)
    ensures AllInt16(x) ==> AllInt16(y)
  {
    seq(|x|, i requires 0 <= i < |x| => EvalLane(w(i), x, cospi, cosBit))
  }

  /** The stages of a kernel applied in order. */
  function Run(net: seq<Wiring>, x: seq<int>, cospi: seq<int>, cosBit: nat): (y: seq<int>)
    requires NetOk(net, |x|) && |cospi| == TableSize && cosBit >= 1
    ensures |y| == |x|
    ensures AllInt16(x) ==> AllInt16(y)
    decreases |net|
  {
    if |net| == 0 then x
    else Run(net[1..], ApplyStage(net[0], x, cospi, cosBit), cospi, cosBit)
  }

  /** An all-zero column stays all-zero through every stage: sums, differences and
      negations of zeros are zero, and a rotation of (0, 0) rounds to zero. */
  lemma {:induction false} RunZero(net: seq<Wiring>, x: seq<int>, cospi: seq<int>, cosBit: nat)
    requires NetOk(net, |x|) && |cospi| == TableSize && cosBit >= 1
    requires AllZero(x)
    ensures AllZero(Run(net, x, cospi, cosBit))
    decreases |net|
  {
    if |net| > 0 {
      var y := ApplyStage(net[0], x, cospi, cosBit);
      assert AllZero(y);
      RunZero(net[1..], y, cospi, cosBit);
    }
  }

  /** Running a kernel is running its first stages and then its last one. */
  lemma {:induction false} RunSnoc(net: seq<Wiring>, x: seq<int>, cospi: seq<int>, cosBit: nat)
    requires |net| >= 1 && NetOk(net, |x|) && |cospi| == TableSize && cosBit >= 1
    ensures NetOk(net[..|net| - 1], |x|) && WiringOk(net[|net| - 1], |x|)
    ensures Run(net, x, cospi, cosBit)
         == ApplyStage(net[|net| - 1], Run(net[..|net| - 1], x, cospi, cosBit), cospi, cosBit)
    decreases |net|
  {
    var k := |net| - 1;
    assert WiringOk(net[k], |x|);
    if k == 0 {
      assert Run(net[..0], x, cospi, cosBit) == x;
    } else {
      var y := ApplyStage(net[0], x, cospi, cosBit);
      RunSnoc(net[1..], y, cospi, cosBit);
      assert net[1..][..k - 1] == net[..k][1..];
    }
  }

  /** A one-stage kernel is that stage. */
  lemma RunOne(w: Wiring, x: seq<int>, cospi: seq<int>, cosBit: nat)
    requires WiringOk(w, |x|) && |cospi| == TableSize && cosBit >= 1
    ensures NetOk([w], |x|)
    ensures Run([w], x, cospi, cosBit) == ApplyStage(w, x, cospi, cosBit)
  {
    assert [w][1..] == [];
  }

  /** Running two stage lists back to back is running their concatenation. */
  lemma {:induction false} RunAppend(a: seq<Wiring>, b: seq<Wiring>, x: seq<int>, cospi: seq<int>, cosBit: nat)
    requires NetOk(a + b, |x|) && |cospi| == TableSize && cosBit >= 1
    ensures NetOk(a, |x|) && NetOk(b, |x|)
    ensures Run(a + b, x, cospi, cosBit) == Run(b, Run(a, x, cospi, cosBit), cospi, cosBit)
    decreases |a|
  {
    assert forall s :: 0 <= s < |a| ==> (a + b)[s] == a[s];
    assert forall s :: 0 <= s < |b| ==> (a + b)[|a| + s] == b[s];
    if |a| > 0 {
      var y := ApplyStage(a[0], x, cospi, cosBit);
      assert (a + b)[1..] == a[1..] + b;
      RunAppend(a[1..], b, y, cospi, cosBit);
    } else {
      assert a + b == b;
    }
  }

  /** A stage whose lanes are never rotations does not consult the cosine table or the precision. */
  predicate NoRotation(w: Wiring, n: nat) {
    forall i :: 0 <= i < n ==> !w(i).Rot?
  }

  lemma {:induction false} RunIgnoresCosines(net: seq<Wiring>, x: seq<int>, cospi1: seq<int>, cosBit1: nat,
                                             cospi2: seq<int>, cosBit2: nat)
    requires NetOk(net, |x|) && |cospi1| == TableSize && cosBit1 >= 1 && |cospi2| == TableSize && cosBit2 >= 1
    requires forall s :: 0 <= s < |net| ==> NoRotation(net[s], |x|)
    ensures Run(net, x, cospi1, cosBit1) == Run(net, x, cospi2, cosBit2)
    decreases |net|
  {
    if |net| > 0 {
      var y1 := ApplyStage(net[0], x, cospi1, cosBit1);
      var y2 := ApplyStage(net[0], x, cospi2, cosBit2);
      assert NoRotation(net[0], |x|);
      assert y1 == y2;
      RunIgnoresCosines(net[1..], y1, cospi1, cosBit1, cospi2, cosBit2);
    }
  }

  // ----- Symmetric output stage -----

  /** The closing stage of every inverse DCT: lanes i and n-1-i combine into sum and difference. */
  predicate SymmetricStage(w: Wiring, n: nat) {
    forall i :: 0 <= i < n / 2 ==> w(i) == Add(i, n - 1 - i) && w(n - 1 - i) == Sub(i, n - 1 - i)
  }

  lemma SymmetricOutput(w: Wiring, x: seq<int>, cospi: seq<int>, cosBit: nat)
    requires WiringOk(w, |x|) && |cospi| == TableSize && cosBit >= 1
    requires SymmetricStage(w, |x|)
    ensures var y := ApplyStage(w, x, cospi, cosBit);
            forall i :: 0 <= i < |x| / 2 ==>
              y[i] == AddS(x[i], x[|x| - 1 - i]) && y[|x| - 1 - i] == SubS(x[i], x[|x| - 1 - i])
  {
    var y := ApplyStage(w, x, cospi, cosBit);
    forall i | 0 <= i < |x| / 2
      ensures y[i] == AddS(x[i], x[|x| - 1 - i]) && y[|x| - 1 - i] == SubS(x[i], x[|x| - 1 - i])
    {
      var j := |x| - 1 - i;
      assert w(i) == Add(i, j) && w(j) == Sub(i, j);
      assert y[j] == EvalLane(w(j), x, cospi, cosBit);
    }
  }

  // ----- Signed permutation output stage -----

  /** The closing stage of every ADST: output lane j copies buffer lane `order[j]` when j is
      even and negates it with a saturating `0 - x` when j is odd. */
  predicate SignedPermutationStage(w: Wiring, order: seq<nat>) {
    forall j :: 0 <= j < |order| ==> w(j) == (if j % 2 == 0 then Take(order[j]) else Negate(order[j]))
  }

  lemma SignedPermutationOutput(w: Wiring, order: seq<nat>, x: seq<int>, cospi: seq<int>, cosBit: nat)
    requires WiringOk(w, |x|) && |cospi| == TableSize && cosBit >= 1
    requires |order| == |x| && SignedPermutationStage(w, order)
    ensures var y := ApplyStage(w, x, cospi, cosBit);
            forall j :: 0 <= j < |x| ==>
              order[j] < |x| && y[j] == (if j % 2 == 0 then x[order[j]] else SubS(0, x[order[j]]))
  {
    var y := ApplyStage(w, x, cospi, cosBit);
    forall j | 0 <= j < |x|
      ensures order[j] < |x| && y[j] == (if j % 2 == 0 then x[order[j]] else SubS(0, x[order[j]]))
    {
      assert LaneOk(w(j), |x|);
    }
  }

  // ----- Propagation of a DC-only column -----

  /** Lanes below `m` all hold `v` and every other lane holds zero. */
  predicate Pattern(x: seq<int>, m: nat, v: int) {
    forall i :: 0 <= i < |x| ==> x[i] == if i < m then v else 0
  }

  /** The lane reads only lanes at or above `m`. */
  predicate ReadsFrom(l: Lane, m: nat) {
    match l
    case Take(s) => s >= m
    case Add(a, b) => a >= m && b >= m
    case Sub(a, b) => a >= m && b >= m
    case Negate(s) => s >= m
    case Rot(_, a, _, b) => a >= m && b >= m
  }

  /** The lane passes on a value held below `m`, combined at most with a lane at or above `m`. */
  predicate Forwards(l: Lane, m: nat) {
    match l
    case Take(s) => s < m
    case Add(a, b) => (a < m && b >= m) || (a >= m && b < m)
    case Sub(a, b) => a < m && b >= m
    case Negate(_) => false
    case Rot(_, _, _, _) => false
  }

  /** The stage carries a pattern of width `m` to one of width `m2`. */
  predicate Widens(w: Wiring, n: nat, m: nat, m2: nat) {
    forall i :: 0 <= i < n ==> if i < m2 then Forwards(w(i), m) else ReadsFrom(w(i), m)
  }

  /** A first stage that loads lane i from input lane `BitRev(bits, i)` keeps a DC-only column
      DC-only: only lane 0 reads input lane 0, and every other lane reads from lanes 1 and up. */
  lemma BitRevLoadKeepsDc(w: Wiring, bits: nat)
    requires forall i :: 0 <= i < Pow2(bits) ==> w(i) == Take(BitRev(bits, i))
    ensures Widens(w, Pow2(bits), 1, 1)
  {
    BitRevOfZero(bits);
    forall i | 1 <= i < Pow2(bits)
      ensures BitRev(bits, i) >= 1
    {
      BitRevZeroOnlyAtZero(bits, i);
    }
  }

  lemma WidenStep(w: Wiring, x: seq<int>, m: nat, m2: nat, v: int, cospi: seq<int>, cosBit: nat)
    requires WiringOk(w, |x|) && |cospi| == TableSize && cosBit >= 1
    requires Widens(w, |x|, m, m2) && Pattern(x, m, v) && IsInt16(v)
    ensures Pattern(ApplyStage(w, x, cospi, cosBit), m2, v)
  {
    var y := ApplyStage(w, x, cospi, cosBit);
    forall i | 0 <= i < |x|
      ensures y[i] == if i < m2 then v else 0
    {
      assert LaneOk(w(i), |x|);
    }
  }

  lemma {:induction false} WidenChain(net: seq<Wiring>, x: seq<int>, ms: seq<nat>, v: int, cospi: seq<int>, cosBit: nat)
    requires NetOk(net, |x|) && |cospi| == TableSize && cosBit >= 1
    requires |ms| == |net| + 1
    requires forall s :: 0 <= s < |net| ==> Widens(net[s], |x|, ms[s], ms[s + 1])
    requires Pattern(x, ms[0], v) && IsInt16(v)
    ensures Pattern(Run(net, x, cospi, cosBit), ms[|net|], v)
    decreases |net|
  {
    if |net| > 0 {
      var y := ApplyStage(net[0], x, cospi, cosBit);
      WidenStep(net[0], x, ms[0], ms[1], v, cospi, cosBit);
      WidenChain(net[1..], y, ms[1..], v, cospi, cosBit);
    }
  }

  /** The value every lane of an inverse DCT takes for the input (d, 0, ..., 0):
      the (cospi[32], cospi[32]) rotation of (d, 0). */
  function DcValue(cospi: seq<int>, d: int, cosBit: nat): int
    requires |cospi| == TableSize && cosBit >= 1
  {
    Rotate(cospi[32], d, cospi[32], 0, cosBit)
  }

  /** The stage that rotates lanes 0 and 1 by (cospi[32], +-cospi[32]) and leaves lane 0's
      value out of every other lane. */
  predicate DcRotation(w: Wiring, n: nat) {
    && n >= 2
    && w(0) == Rot(Plus(32), 0, Plus(32), 1)
    && w(1) == Rot(Plus(32), 0, Minus(32), 1)
    && forall i :: 2 <= i < n ==> ReadsFrom(w(i), 1)
  }

  lemma DcRotationStep(w: Wiring, x: seq<int>, d: int, cospi: seq<int>, cosBit: nat)
    requires WiringOk(w, |x|) && |cospi| == TableSize && cosBit >= 1
    requires DcRotation(w, |x|) && Pattern(x, 1, d)
    ensures Pattern(ApplyStage(w, x, cospi, cosBit), 2, DcValue(cospi, d, cosBit))
  {
    var y := ApplyStage(w, x, cospi, cosBit);
    assert y[1] == Rotate(cospi[32], d, -cospi[32], 0, cosBit);
    forall i | 2 <= i < |x|
      ensures y[i] == 0
    {
      assert LaneOk(w(i), |x|);
    }
  }

  /** The shape of every inverse DCT of width 2^(k+1): k stages that keep lane 0 apart,
      the DC rotation, and k stages that each double the width of the DC pattern. */
  predicate IdctShape(net: seq<Wiring>, k: nat) {
    && |net| == 2 * k + 1
    && (forall s :: 0 <= s < k ==> Widens(net[s], Pow2(k + 1), 1, 1))
    && DcRotation(net[k], Pow2(k + 1))
    && (forall s :: 1 <= s <= k ==> Widens(net[k + s], Pow2(k + 1), Pow2(s), Pow2(s + 1)))
  }

  /** Running a kernel is running the stages before stage `k`, stage `k`, and the rest. */
  lemma RunSplit(net: seq<Wiring>, k: nat, x: seq<int>, cospi: seq<int>, cosBit: nat)
    requires k < |net| && NetOk(net, |x|) && |cospi| == TableSize && cosBit >= 1
    ensures NetOk(net[..k], |x|) && WiringOk(net[k], |x|) && NetOk(net[k + 1..], |x|)
    ensures Run(net, x, cospi, cosBit)
         == Run(net[k + 1..], ApplyStage(net[k], Run(net[..k], x, cospi, cosBit), cospi, cosBit), cospi, cosBit)
  {
    assert net == net[..k] + ([net[k]] + net[k + 1..]);
    RunAppend(net[..k], [net[k]] + net[k + 1..], x, cospi, cosBit);
    var y := Run(net[..k], x, cospi, cosBit);
    assert ([net[k]] + net[k + 1..])[1..] == net[k + 1..];
  }

  /** Stages that keep lane 0 apart carry a DC-only column through unchanged in shape. */
  lemma KeepChain(front: seq<Wiring>, x: seq<int>, d: int, cospi: seq<int>, cosBit: nat)
    requires NetOk(front, |x|) && |cospi| == TableSize && cosBit >= 1
    requires forall s :: 0 <= s < |front| ==> Widens(front[s], |x|, 1, 1)
    requires Pattern(x, 1, d) && IsInt16(d)
    ensures Pattern(Run(front, x, cospi, cosBit), 1, d)
  {
    var ones := seq(|front| + 1, _ => 1);
    WidenChain(front, x, ones, d, cospi, cosBit);
  }

  /** Stages that each double the pattern turn a width-2 pattern into a full one. */
  lemma SpreadChain(rest: seq<Wiring>, z: seq<int>, v: int, cospi: seq<int>, cosBit: nat)
    requires NetOk(rest, |z|) && |cospi| == TableSize && cosBit >= 1
    requires forall s :: 0 <= s < |rest| ==> Widens(rest[s], |z|, Pow2(s + 1), Pow2(s + 2))
    requires Pattern(z, 2, v) && IsInt16(v)
    ensures Pattern(Run(rest, z, cospi, cosBit), Pow2(|rest| + 1), v)
  {
    var widths := seq(|rest| + 1, s requires 0 <= s => Pow2(s + 1));
    WidenChain(rest, z, widths, v, cospi, cosBit);
  }

  /** An inverse DCT maps a DC-only column to a constant column. */
  lemma IdctDc(net: seq<Wiring>, k: nat, x: seq<int>, cospi: seq<int>, cosBit: nat)
    requires |x| == Pow2(k + 1) && NetOk(net, |x|) && |cospi| == TableSize && cosBit >= 1
    requires IdctShape(net, k)
    requires IsInt16(x[0]) && forall i :: 1 <= i < |x| ==> x[i] == 0
    ensures forall i :: 0 <= i < |x| ==> Run(net, x, cospi, cosBit)[i] == DcValue(cospi, x[0], cosBit)
  {
    var d := x[0];
    var v := DcValue(cospi, d, cosBit);
    RunSplit(net, k, x, cospi, cosBit);
    var front, rest := net[..k], net[k + 1..];
    KeepChain(front, x, d, cospi, cosBit);
    var y := Run(front, x, cospi, cosBit);
    DcRotationStep(net[k], y, d, cospi, cosBit);
    var z := ApplyStage(net[k], y, cospi, cosBit);
    assert forall s :: 0 <= s < |rest| ==> rest[s] == net[k + (s + 1)];
    SpreadChain(rest, z, v, cospi, cosBit);
  }
}
