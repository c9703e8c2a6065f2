/** The butterfly rotation primitive and the cosine table it reads.

    `cospi_arr(cos_bit)` and `btf_16_sse2` are not part of this model: the table is a
    parameter (64 entries, each representable together with its negation in 16 bits,
    because `pair_set_epi16` packs `cospi[k]` and `-cospi[k]` into 16-bit halves), and one
    output lane of the butterfly is taken to be

        sat16((a * c0 + b * c1 + (1 << (cos_bit - 1))) >> cos_bit)

    with the rounding bias built at the head of every kernel and `>>` arithmetic.
 */
module Butterfly {
  import opened Fixed

  /** A 16-bit coefficient of a rotation pair: `cospi[k]` or `-cospi[k]`. */
  datatype Coef = Plus(k: nat) | Minus(k: nat)

  const TableSize: nat := 64

  /** The entries of `cospi_arr(cos_bit)` as the kernels use them. */
  predicate ValidCosTable(cospi: seq<int>) {
    && |cospi| == TableSize
    && forall k :: 0 <= k < TableSize ==> -Int16Max <= cospi[k] <= Int16Max
  }

  /** A precision for which the rounding bias and the 32-bit rotation sums cannot overflow. */
  predicate ValidCosBit(cosBit: int) {
    1 <= cosBit <= 16
  }

  predicate CoefOk(c: Coef) {
    c.k < TableSize
  }

  function CoefValue(cospi: seq<int>, c: Coef): int
    requires |cospi| == TableSize && CoefOk(c)
  {
    match c
    case Plus(k) => cospi[k]
    case Minus(k) => -cospi[k]
  }

  /** One output lane of `btf_16_sse2`: the pair (a, b) weighted by (c0, c1), rounded at `cosBit`. */
  function Rotate(c0: int, a: int, c1: int, b: int, cosBit: nat): (r: int)
    requires cosBit >= 1
    ensures IsInt16(r)
    ensures a == 0 && b == 0 ==> r == 0
  {
    RoundShiftZero(cosBit);
    Sat16(RoundShift(a * c0 + b * c1, cosBit))
  }

  lemma MulBound(a: int, c: int)
    requires IsInt16(a) && -Int16Max <= c <= Int16Max
    ensures -32768 * 32767 <= a * c <= 32768 * 32767
  {
    var ua: nat := if a < 0 then -a else a;
    var uc: nat := if c < 0 then -c else c;
    MulLe(ua, 32768, uc);
    MulLe(uc, 32767, 32768);
    assert a * c == ua * uc || a * c == -(ua * uc);
  }

  lemma MulLe(x: nat, y: nat, k: nat)
    requires x <= y
    ensures x * k <= y * k
  {
  }

  /** `_mm_madd_epi16` followed by the rounding add stays inside 32 bits, so the unbounded
      arithmetic of `Rotate` is exactly the 32-bit arithmetic of the intrinsics. */
  lemma {:induction false} RotationFitsInt32(c0: int, a: int, c1: int, b: int, cosBit: int)
    requires IsInt16(a) && IsInt16(b)
    requires -Int16Max <= c0 <= Int16Max && -Int16Max <= c1 <= Int16Max
    requires ValidCosBit(cosBit)
    ensures -0x8000_0000 <= a * c0 + b * c1 + Pow2(cosBit - 1) < 0x8000_0000
  {
    MulBound(a, c0);
    MulBound(b, c1);
    Pow2Bound(cosBit - 1);
  }

  lemma {:induction false} Pow2Bound(n: nat)
    requires n <= 15
    ensures Pow2(n) <= 32768
  {
    Pow2Mono(n, 15);
    assert Pow2(15) == 32768;
  }

  lemma {:induction false} Pow2Mono(m: nat, n: nat)
    requires m <= n
    ensures Pow2(m) <= Pow2(n)
  {
    if m < n {
      Pow2Mono(m, n - 1);
    }
  }
}
