/** Fixed-width lane arithmetic used by the SSE2 inverse transforms.

    A 128-bit register is modelled lane by lane: every lane is an unbounded `int`
    that the operations below keep inside the range of its C type. The saturating
    add and subtract are `_mm_adds_epi16` / `_mm_subs_epi16`, the pixel clamp is the
    unsigned pack `_mm_packus_epi16`, and `RoundShift` is the add-bias-then-arithmetic-
    shift used by the butterfly rotation.
 */
module Fixed {

  const Int16Min: int := -32768
  const Int16Max: int := 32767
  const PixelMax: int := 255

  predicate IsInt16(x: int) {
    Int16Min <= x <= Int16Max
  }

  /** A value of a 16-bit lane, for helpers whose only known property is their result width. */
  type Int16 = x: int | IsInt16(x)

  predicate AllInt16(s: seq<int>) {
    forall i :: 0 <= i < |s| ==> IsInt16(s[i])
  }

  predicate AllZero(s: seq<int>) {
    forall i :: 0 <= i < |s| ==> s[i] == 0
  }

  predicate IsPixel(x: int) {
    0 <= x <= PixelMax
  }

  /** Signed saturation to 16 bits (the clamp every saturating lane operation applies). */
  function Sat16(x: int): int {
    if x < Int16Min then Int16Min else if x > Int16Max then Int16Max else x
  }

  /** `_mm_adds_epi16` on one lane: the 16-bit value nearest to the exact sum. */
  function AddS(a: int, b: int): (r: int)
    ensures IsInt16(r)
    ensures IsInt16(a + b) ==> r == a + b
    ensures forall y {:trigger IsInt16(y)} :: IsInt16(y) ==> Dist(r, a + b) <= Dist(y, a + b)
  {
    SatNearest(a + b);
    Sat16(a + b)
  }

  /** `_mm_subs_epi16` on one lane: the 16-bit value nearest to the exact difference. */
  function SubS(a: int, b: int): (r: int)
    ensures IsInt16(r)
    ensures IsInt16(a - b) ==> r == a - b
    ensures forall y {:trigger IsInt16(y)} :: IsInt16(y) ==> Dist(r, a - b) <= Dist(y, a - b)
  {
    SatNearest(a - b);
    Sat16(a - b)
  }

  function Dist(a: int, b: int): nat {
    if a <= b then b - a else a - b
  }

  /** Saturation picks the representable value closest to the exact one. */
  lemma SatNearest(x: int)
    ensures IsInt16(Sat16(x))
    ensures IsInt16(x) ==> Sat16(x) == x
    ensures forall y {:trigger IsInt16(y)} :: IsInt16(y) ==> Dist(Sat16(x), x) <= Dist(y, x)
  {
  }

  /** Negation through `_mm_subs_epi16(zero, x)`: exact except that -32768 becomes 32767. */
  lemma NegateSaturates(x: int)
    requires IsInt16(x)
    ensures x == Int16Min ==> SubS(0, x) == Int16Max
    ensures x != Int16Min ==> SubS(0, x) == -x
  {
  }

  /** The unsigned 8-bit saturation of `_mm_packus_epi16`: the pixel value nearest to `x`. */
  function ClampPixel(x: int): (r: int)
    ensures IsPixel(r)
    ensures IsPixel(x) ==> r == x
    ensures forall y {:trigger IsPixel(y)} :: IsPixel(y) ==> Dist(r, x) <= Dist(y, x)
  {
    if x < 0 then 0 else if x > PixelMax then PixelMax else x
  }

  function Pow2(n: nat): (r: nat)
    ensures r >= 1
  {
    if n == 0 then 1 else 2 * Pow2(n - 1)
  }

  lemma Pow2Succ(n: nat)
    requires n >= 1
    ensures Pow2(n) == 2 * Pow2(n - 1)
    ensures Pow2(n - 1) < Pow2(n)
  {
  }

  /** `(x + (1 << (s - 1))) >> s` with an arithmetic shift: the floor of the biased quotient. */
  function RoundShift(x: int, s: nat): (r: int)
    requires s >= 1
    ensures r * Pow2(s) <= x + Pow2(s - 1) < r * Pow2(s) + Pow2(s)
  {
    (x + Pow2(s - 1)) / Pow2(s)
  }

  /** Rounding is to nearest: the result scaled back lies within half a step of `x`. */
  lemma RoundShiftNearest(x: int, s: nat)
    requires s >= 1
    ensures 0 - Pow2(s - 1) < RoundShift(x, s) * Pow2(s) - x <= Pow2(s - 1)
  {
    Pow2Succ(s);
  }

  /** A zero product rounds to zero at every precision. */
  lemma {:induction false} RoundShiftZero(s: nat)
    requires s >= 1
    ensures RoundShift(0, s) == 0
  {
    Pow2Succ(s);
  }
}
