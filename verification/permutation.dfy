/** The index permutations the kernels apply when they load their input and write their output.

    Every inverse DCT starts by loading input lane `BitRev(log2 n, i)` into lane i. The
    ADSTs load lane i from `AdstInput(n, i)` and write output lane j from buffer lane
    `AdstOutput(n, j)`. Each map is shown to be a bijection on 0..n-1 by exhibiting its inverse.
 */
module Permutation {
  import opened Fixed

  /** The `bits` low bits of `i` in reverse order: bit t of `i` becomes bit `bits-1-t`. */
  function BitRev(bits: nat, i: nat): (r: nat)
    ensures r < Pow2(bits)
  {
    if bits == 0 then 0
    else if i % 2 == 0 then BitRev(bits - 1, i / 2)
    else Pow2(bits - 1) + BitRev(bits - 1, i / 2)
  }

  /** The `bits` low bits of `i`, least significant first. */
  function Bits(bits: nat, i: nat): (s: seq<bool>)
    ensures |s| == bits
  {
    if bits == 0 then [] else [i % 2 == 1] + Bits(bits - 1, i / 2)
  }

  /** The number whose bits, least significant first, are `s`. */
  function FromBits(s: seq<bool>): (r: nat)
    ensures r < Pow2(|s|)
  {
    if |s| == 0 then 0 else (if s[0] then 1 else 0) + 2 * FromBits(s[1..])
  }

  function Reverse(s: seq<bool>): (r: seq<bool>)
    ensures |r| == |s|
    ensures forall k :: 0 <= k < |s| ==> r[k] == s[|s| - 1 - k]
  {
    seq(|s|, k requires 0 <= k < |s| => s[|s| - 1 - k])
  }

  /** Reading the bits of a small enough number back gives the number. */
  lemma {:induction false} FromBitsBits(bits: nat, i: nat)
    requires i < Pow2(bits)
    ensures FromBits(Bits(bits, i)) == i
  {
    if bits > 0 {
      assert Bits(bits, i)[1..] == Bits(bits - 1, i / 2);
      FromBitsBits(bits - 1, i / 2);
    }
  }

  /** Writing the number a bit string denotes gives the bit string back. */
  lemma {:induction false} BitsFromBits(s: seq<bool>)
    ensures Bits(|s|, FromBits(s)) == s
  {
    if |s| > 0 {
      BitsFromBits(s[1..]);
      assert s == [s[0]] + s[1..];
    }
  }

  /** A bit appended at the most significant end contributes `2^|s|`. */
  lemma {:induction false} FromBitsSnoc(s: seq<bool>, b: bool)
    ensures FromBits(s + [b]) == FromBits(s) + (if b then Pow2(|s|) else 0)
  {
    if |s| > 0 {
      assert (s + [b])[1..] == s[1..] + [b];
      FromBitsSnoc(s[1..], b);
    }
  }

  /** `BitRev` is the number whose bits are those of `i` read in the opposite order. */
  lemma {:induction false} BitRevReversesBits(bits: nat, i: nat)
    ensures BitRev(bits, i) == FromBits(Reverse(Bits(bits, i)))
  {
    if bits > 0 {
      var low := Bits(bits - 1, i / 2);
      assert Reverse(Bits(bits, i)) == Reverse(low) + [i % 2 == 1];
      FromBitsSnoc(Reverse(low), i % 2 == 1);
      BitRevReversesBits(bits - 1, i / 2);
    }
  }

  /** Reversing the bits twice gives the index back, so `BitRev(bits, _)` is a bijection
      of 0..2^bits - 1 onto itself. */
  lemma BitRevInvolution(bits: nat, i: nat)
    requires i < Pow2(bits)
    ensures BitRev(bits, BitRev(bits, i)) == i
  {
    var s := Reverse(Bits(bits, i));
    BitRevReversesBits(bits, i);
    BitRevReversesBits(bits, BitRev(bits, i));
    BitsFromBits(s);
    assert Reverse(s) == Bits(bits, i);
    FromBitsBits(bits, i);
  }

  lemma {:induction false} BitRevOfZero(bits: nat)
    ensures BitRev(bits, 0) == 0
  {
    if bits > 0 {
      BitRevOfZero(bits - 1);
    }
  }

  /** Only index 0 reverses to 0, so a bit-reversed load keeps the DC coefficient in lane 0
      and nowhere else. */
  lemma BitRevZeroOnlyAtZero(bits: nat, i: nat)
    requires 0 < i < Pow2(bits)
    ensures BitRev(bits, i) != 0
  {
    BitRevInvolution(bits, i);
    BitRevOfZero(bits);
  }

  /** Reversal is injective on 0..2^bits - 1. */
  lemma BitRevInjective(bits: nat, i: nat, j: nat)
    requires i < Pow2(bits) && j < Pow2(bits)
    requires BitRev(bits, i) == BitRev(bits, j)
    ensures i == j
  {
    BitRevInvolution(bits, i);
    BitRevInvolution(bits, j);
  }

  // ----- ADST index maps -----

  /** The input lane the ADST stage 1 loads into lane `i`: even lanes count down from the
      top, odd lanes take their lower neighbour. */
  function AdstInput(n: nat, i: nat): (r: nat)
    requires n % 2 == 0 && i < n
    ensures r < n
    ensures r % 2 != i % 2
  {
    if i % 2 == 0 then n - 1 - i else i - 1
  }

  /** The inverse of `AdstInput`: the lane into which input `j` is loaded. */
  function AdstInputInverse(n: nat, j: nat): (r: nat)
    requires n % 2 == 0 && j < n
    ensures r < n
  {
    if j % 2 == 1 then n - 1 - j else j + 1
  }

  lemma AdstInputBijective(n: nat)
    requires n % 2 == 0
    ensures forall i :: 0 <= i < n ==> AdstInputInverse(n, AdstInput(n, i)) == i
    ensures forall j :: 0 <= j < n ==> AdstInput(n, AdstInputInverse(n, j)) == j
  {
  }

  /** Buffer lane written to output lane `j` by the last stage of `iadst8_new_sse2`;
      odd output lanes receive it negated. */
  const Adst8Output: seq<nat> := [0, 4, 6, 2, 3, 7, 5, 1]

  /** The output lane that buffer lane `k` of `iadst8_new_sse2` is written to. */
  const Adst8OutputInverse: seq<nat> := [0, 7, 3, 4, 1, 6, 2, 5]

  /** Buffer lane written to output lane `j` by the last stage of `iadst16_new_sse2`;
      odd output lanes receive it negated. */
  const Adst16Output: seq<nat> := [0, 8, 12, 4, 6, 14, 10, 2, 3, 11, 15, 7, 5, 13, 9, 1]

  /** The output lane that buffer lane `k` of `iadst16_new_sse2` is written to. */
  const Adst16OutputInverse: seq<nat> := [0, 15, 7, 8, 3, 12, 4, 11, 1, 14, 6, 9, 2, 13, 5, 10]

  /** `p` lists each of 0..|p|-1 exactly once, witnessed by the inverse `q`. */
  predicate IsPermutation(p: seq<nat>, q: seq<nat>) {
    && |p| == |q|
    && (forall j :: 0 <= j < |p| ==> p[j] < |p| && q[p[j]] == j)
    && (forall i :: 0 <= i < |q| ==> q[i] < |q| && p[q[i]] == i)
  }

  /** Both ADST output orders are permutations of the lanes. */
  lemma AdstOutputsArePermutations()
    ensures IsPermutation(Adst8Output, Adst8OutputInverse)
    ensures IsPermutation(Adst16Output, Adst16OutputInverse)
  {
  }
}
