# AV1 low-bit-depth SSE2 inverse transforms, modelled in Dafny

This project models the fixed-point inverse-transform engine of the AV1 decoder's SSE2 path,
`av1/common/x86/av1_inv_txfm_sse2.c`:

- the 1D kernels `idct4/8/16/32/64_new_sse2`, `iadst8/16_new_sse2` and `iidentity8_new_sse2`;
- the reconstruction helpers `lowbd_get_recon_8x8_sse2` and `lowbd_write_buffer_8x8_sse2`;
- the 8x8 two-dimensional driver `av1_lowbd_inv_txfm2d_add_8x8_sse2` with its kernel table
  `lowbd_txfm8_1d_arr`.

A 1D kernel is a straight-line butterfly network. Every stage writes each lane of a fresh
buffer exactly once. It uses a copy, a saturating add or subtract (`_mm_adds_epi16` /
`_mm_subs_epi16`), a saturating negation `0 - x`, or one output of a rotation `btf_16_sse2`.
All of these act lane by lane across the eight 16-bit lanes of a register, so one column of
lanes is a `seq<int>`.

Module `Network` is a generic engine for such stages. A `Lane` describes how one destination
lane is computed, and a `Wiring` maps each destination index to its `Lane`. The kernel modules
(`Idct4Stages` ... `Iadst16Stages`, `Iidentity8`) write their stages as `match` tables, lane by
lane as the C code does. The one exception is the first stage of each inverse DCT, which is
written as the bit reversal `BitRev` of the lane index. `Stage1IsSourceOrder` proves, for each
size, that this is exactly the load order the C code writes out. The properties are proved
once for the engine and instantiated per kernel:

- saturation keeps every lane in 16 bits;
- zero input gives zero output;
- a DC-only input makes every inverse DCT output the same value;
- the input permutations are bijections;
- the output stages are symmetric or signed permutations.

Module `Recon` models the write-back of an 8x8 block into a frame of 8-bit pixels. It covers
the shuffles that mirror a residual row and the up-down row choice. Only the block may change.
`Txfm2d` chains load, transpose, row kernel, transpose, round shift, column kernel, round shift
and write-back. It proves three things: the transposes make the row kernel act on rows; zero
coefficients leave the frame untouched; and a DCT_DCT block with only its DC coefficient set
turns a flat prediction into a flat block.

Integers are unbounded. The 16-bit saturation of every SSE2 operation is written out (`Sat16`,
`AddS`, `SubS`), as is the unsigned pixel saturation of `_mm_packus_epi16` (`ClampPixel`).
`Butterfly.RotationFitsInt32` shows that the 32-bit sums inside a rotation cannot overflow, so
unbounded arithmetic agrees with the intrinsics there.

## Model

| member | source | states |
|---|---|---|
| Fixed.AddS | av1/common/x86/av1_inv_txfm_sse2.c:39 | a saturating add returns the 16-bit value nearest the exact sum, and the exact sum whenever it fits |
| Fixed.SubS | av1/common/x86/av1_inv_txfm_sse2.c:40 | a saturating subtract returns the 16-bit value nearest the exact difference, and the exact difference whenever it fits |
| Fixed.NegateSaturates | av1/common/x86/av1_inv_txfm_sse2.c:1409 | `_mm_subs_epi16(zero, x)` negates exactly except that -32768 becomes 32767 |
| Fixed.ClampPixel | av1/common/x86/av1_inv_txfm_sse2.c:1629 | the unsigned pack yields the pixel value in 0..255 nearest to its input, which is the input itself when that is already a pixel |
| Fixed.RoundShiftNearest | av1/common/x86/av1_inv_txfm_sse2.c:19 | adding the bias `1 << (cos_bit - 1)` before the arithmetic shift rounds to nearest: the result scaled back is within half a step of the input |
| Butterfly.Rotate | av1/common/x86/av1_inv_txfm_sse2.c:35-36 | one rotation output is a 16-bit value, and a rotation of (0, 0) is 0 |
| Butterfly.RotationFitsInt32 | av1/common/x86/av1_inv_txfm_sse2.c:19-24 | with 16-bit lanes and 16-bit coefficient pairs, the multiply-add plus the rounding bias stays inside 32 bits, for every cos_bit up to 16 |
| Network.EvalLane | av1/common/x86/av1_inv_txfm_sse2.c:33-42 | one destination lane is a copy, a saturating add or subtract, a saturating `0 - x`, or one rotation output of the previous buffer, and 16-bit lanes give a 16-bit lane |
| Network.ApplyStage | av1/common/x86/av1_inv_txfm_sse2.c:33-36 | a stage writes every lane of a new buffer from the previous buffer only, and 16-bit inputs give 16-bit outputs |
| Network.Run | av1/common/x86/av1_inv_txfm_sse2.c:17-43 | running the stages in order keeps the width and keeps every lane in 16 bits |
| Network.RunZero | av1/common/x86/av1_inv_txfm_sse2.c:26-42 | an all-zero column stays all-zero through any sequence of stages |
| Network.RunIgnoresCosines | av1/common/x86/av1_inv_txfm_sse2.c:1602-1614 | stages without rotations give the same output for every cosine table and precision |
| Network.SymmetricOutput | av1/common/x86/av1_inv_txfm_sse2.c:38-42 | a closing stage of mirrored sums and differences writes `x[i] + x[n-1-i]` to lane i and `x[i] - x[n-1-i]` to lane n-1-i, saturated |
| Network.SignedPermutationOutput | av1/common/x86/av1_inv_txfm_sse2.c:1407-1415 | a closing ADST stage writes buffer lane `order[j]` to output lane j, negated with saturation on odd j |
| Network.IdctDc | av1/common/x86/av1_inv_txfm_sse2.c:79-106 | any network shaped like an inverse DCT maps (d, 0, ..., 0) to n copies of the (cospi[32], cospi[32]) rotation of (d, 0) |
| Network.BitRevLoadKeepsDc | av1/common/x86/av1_inv_txfm_sse2.c:59-68 | a first stage that loads lane i from input `BitRev(bits, i)` forwards the DC lane to lane 0 and reads every other lane from inputs 1 and up |
| Permutation.BitRevInvolution | av1/common/x86/av1_inv_txfm_sse2.c:59-68 | reversing the low bits twice returns the index, so the bit-reversed load of every inverse DCT is a bijection |
| Permutation.BitRevInjective | av1/common/x86/av1_inv_txfm_sse2.c:134-151 | no two lanes of an inverse DCT load the same input lane |
| Permutation.BitRevZeroOnlyAtZero | av1/common/x86/av1_inv_txfm_sse2.c:26-31 | only lane 0 loads input lane 0, so the DC coefficient is read once, into lane 0 |
| Permutation.AdstInputBijective | av1/common/x86/av1_inv_txfm_sse2.c:1349-1358 | the ADST load order (even lanes from the top down, odd lanes from the lower neighbour) has an inverse on both sides |
| Permutation.AdstOutputsArePermutations | av1/common/x86/av1_inv_txfm_sse2.c:1583-1599 | both ADST output orders are permutations, each with its stated inverse |
| Idct4Stages.Stage1 | av1/common/x86/av1_inv_txfm_sse2.c:26-31 | lane i loads input lane `BitRev(2, i)` |
| Idct4Stages.Stage1IsSourceOrder | av1/common/x86/av1_inv_txfm_sse2.c:26-31 | the bit-reversed load order equals, lane for lane, the order written out in the source |
| Idct4Stages.Stage2 | av1/common/x86/av1_inv_txfm_sse2.c:33-36 | stage 2 lane by lane as written: 4 rotation outputs, each reading the previous buffer |
| Idct4Stages.Stage3 | av1/common/x86/av1_inv_txfm_sse2.c:38-42 | stage 3 lane by lane as written: 2 saturating adds, 2 saturating subtracts, each reading the previous buffer |
| Idct4.Transform | av1/common/x86/av1_inv_txfm_sse2.c:17-43 | the 4-point inverse DCT maps 4 16-bit lanes to 4 16-bit lanes; an all-zero column gives an all-zero column, and a DC-only column (d, 0, ..., 0) gives 4 equal outputs, the (cospi[32], cospi[32]) rotation of (d, 0) |
| Idct4.InputOrder | av1/common/x86/av1_inv_txfm_sse2.c:26-31 | lane i is loaded from input `BitRev(2, i)`, and input j lands in lane `BitRev(2, j)` |
| Idct4.OutputStage | av1/common/x86/av1_inv_txfm_sse2.c:38-42 | output i and 3-i are the saturated sum and difference of the last buffer's lanes i and 3-i |
| Idct8Stages.Stage1 | av1/common/x86/av1_inv_txfm_sse2.c:59-68 | lane i loads input lane `BitRev(3, i)` |
| Idct8Stages.Stage1IsSourceOrder | av1/common/x86/av1_inv_txfm_sse2.c:59-68 | the bit-reversed load order equals, lane for lane, the order written out in the source |
| Idct8Stages.Stage2 | av1/common/x86/av1_inv_txfm_sse2.c:70-77 | stage 2 lane by lane as written: 4 rotation outputs, 4 copies, each reading the previous buffer |
| Idct8Stages.Stage3 | av1/common/x86/av1_inv_txfm_sse2.c:79-86 | stage 3 lane by lane as written: 4 rotation outputs, 2 saturating adds, 2 saturating subtracts, each reading the previous buffer |
| Idct8Stages.Stage4 | av1/common/x86/av1_inv_txfm_sse2.c:88-96 | stage 4 lane by lane as written: 2 rotation outputs, 2 saturating adds, 2 saturating subtracts, 2 copies, each reading the previous buffer |
| Idct8Stages.Stage5 | av1/common/x86/av1_inv_txfm_sse2.c:98-106 | stage 5 lane by lane as written: 4 saturating adds, 4 saturating subtracts, each reading the previous buffer |
| Idct8.Transform | av1/common/x86/av1_inv_txfm_sse2.c:45-107 | the 8-point inverse DCT maps 8 16-bit lanes to 8 16-bit lanes; an all-zero column gives an all-zero column, and a DC-only column (d, 0, ..., 0) gives 8 equal outputs, the (cospi[32], cospi[32]) rotation of (d, 0) |
| Idct8.InputOrder | av1/common/x86/av1_inv_txfm_sse2.c:59-68 | lane i is loaded from input `BitRev(3, i)`, and input j lands in lane `BitRev(3, j)` |
| Idct8.OutputStage | av1/common/x86/av1_inv_txfm_sse2.c:98-106 | output i and 7-i are the saturated sum and difference of the last buffer's lanes i and 7-i |
| Idct16Stages.Stage1 | av1/common/x86/av1_inv_txfm_sse2.c:134-151 | lane i loads input lane `BitRev(4, i)` |
| Idct16Stages.Stage1IsSourceOrder | av1/common/x86/av1_inv_txfm_sse2.c:134-151 | the bit-reversed load order equals, lane for lane, the order written out in the source |
| Idct16Stages.Stage2 | av1/common/x86/av1_inv_txfm_sse2.c:153-166 | stage 2 lane by lane as written: 8 rotation outputs, 8 copies, each reading the previous buffer |
| Idct16Stages.Stage3 | av1/common/x86/av1_inv_txfm_sse2.c:168-183 | stage 3 lane by lane as written: 4 rotation outputs, 4 saturating adds, 4 saturating subtracts, 4 copies, each reading the previous buffer |
| Idct16Stages.Stage4 | av1/common/x86/av1_inv_txfm_sse2.c:185-198 | stage 4 lane by lane as written: 8 rotation outputs, 2 saturating adds, 2 saturating subtracts, 4 copies, each reading the previous buffer |
| Idct16Stages.Stage5 | av1/common/x86/av1_inv_txfm_sse2.c:200-216 | stage 5 lane by lane as written: 2 rotation outputs, 6 saturating adds, 6 saturating subtracts, 2 copies, each reading the previous buffer |
| Idct16Stages.Stage6 | av1/common/x86/av1_inv_txfm_sse2.c:218-233 | stage 6 lane by lane as written: 4 rotation outputs, 4 saturating adds, 4 saturating subtracts, 4 copies, each reading the previous buffer |
| Idct16Stages.Stage7 | av1/common/x86/av1_inv_txfm_sse2.c:235-251 | stage 7 lane by lane as written: 8 saturating adds, 8 saturating subtracts, each reading the previous buffer |
| Idct16.Transform | av1/common/x86/av1_inv_txfm_sse2.c:109-252 | the 16-point inverse DCT maps 16 16-bit lanes to 16 16-bit lanes; an all-zero column gives an all-zero column, and a DC-only column (d, 0, ..., 0) gives 16 equal outputs, the (cospi[32], cospi[32]) rotation of (d, 0) |
| Idct16.InputOrder | av1/common/x86/av1_inv_txfm_sse2.c:134-151 | lane i is loaded from input `BitRev(4, i)`, and input j lands in lane `BitRev(4, j)` |
| Idct16.OutputStage | av1/common/x86/av1_inv_txfm_sse2.c:235-251 | output i and 15-i are the saturated sum and difference of the last buffer's lanes i and 15-i |
| Idct32Stages.Stage1 | av1/common/x86/av1_inv_txfm_sse2.c:301-334 | lane i loads input lane `BitRev(5, i)` |
| Idct32Stages.Stage1IsSourceOrder | av1/common/x86/av1_inv_txfm_sse2.c:301-334 | the bit-reversed load order equals, lane for lane, the order written out in the source |
| Idct32Stages.Stage2 | av1/common/x86/av1_inv_txfm_sse2.c:336-361 | stage 2 lane by lane as written: 16 rotation outputs, 16 copies, each reading the previous buffer |
| Idct32Stages.Stage3 | av1/common/x86/av1_inv_txfm_sse2.c:363-392 | stage 3 lane by lane as written: 8 rotation outputs, 8 saturating adds, 8 saturating subtracts, 8 copies, each reading the previous buffer |
| Idct32Stages.Stage4 | av1/common/x86/av1_inv_txfm_sse2.c:394-421 | stage 4 lane by lane as written: 12 rotation outputs, 4 saturating adds, 4 saturating subtracts, 12 copies, each reading the previous buffer |
| Idct32Stages.Stage5 | av1/common/x86/av1_inv_txfm_sse2.c:423-452 | stage 5 lane by lane as written: 8 rotation outputs, 10 saturating adds, 10 saturating subtracts, 4 copies, each reading the previous buffer |
| Idct32Stages.Stage6 | av1/common/x86/av1_inv_txfm_sse2.c:454-482 | stage 6 lane by lane as written: 10 rotation outputs, 6 saturating adds, 6 saturating subtracts, 10 copies, each reading the previous buffer |
| Idct32Stages.Stage7 | av1/common/x86/av1_inv_txfm_sse2.c:484-515 | stage 7 lane by lane as written: 4 rotation outputs, 12 saturating adds, 12 saturating subtracts, 4 copies, each reading the previous buffer |
| Idct32Stages.Stage8 | av1/common/x86/av1_inv_txfm_sse2.c:517-546 | stage 8 lane by lane as written: 8 rotation outputs, 8 saturating adds, 8 saturating subtracts, 8 copies, each reading the previous buffer |
| Idct32Stages.Stage9 | av1/common/x86/av1_inv_txfm_sse2.c:548-580 | stage 9 lane by lane as written: 16 saturating adds, 16 saturating subtracts, each reading the previous buffer |
| Idct32.Transform | av1/common/x86/av1_inv_txfm_sse2.c:254-581 | the 32-point inverse DCT maps 32 16-bit lanes to 32 16-bit lanes; an all-zero column gives an all-zero column, and a DC-only column (d, 0, ..., 0) gives 32 equal outputs, the (cospi[32], cospi[32]) rotation of (d, 0) |
| Idct32.InputOrder | av1/common/x86/av1_inv_txfm_sse2.c:301-334 | lane i is loaded from input `BitRev(5, i)`, and input j lands in lane `BitRev(5, j)` |
| Idct32.OutputStage | av1/common/x86/av1_inv_txfm_sse2.c:548-580 | output i and 31-i are the saturated sum and difference of the last buffer's lanes i and 31-i |
| Idct64Stages.Stage1 | av1/common/x86/av1_inv_txfm_sse2.c:674-739 | lane i loads input lane `BitRev(6, i)` |
| Idct64Stages.Stage1IsSourceOrder | av1/common/x86/av1_inv_txfm_sse2.c:674-739 | the bit-reversed load order equals, lane for lane, the order written out in the source |
| Idct64Stages.Stage2 | av1/common/x86/av1_inv_txfm_sse2.c:741-790 | stage 2 lane by lane as written: 32 rotation outputs, 32 copies, each reading the previous buffer |
| Idct64Stages.Stage3 | av1/common/x86/av1_inv_txfm_sse2.c:792-849 | stage 3 lane by lane as written: 16 rotation outputs, 16 saturating adds, 16 saturating subtracts, 16 copies, each reading the previous buffer |
| Idct64Stages.Stage4 | av1/common/x86/av1_inv_txfm_sse2.c:851-904 | stage 4 lane by lane as written: 24 rotation outputs, 8 saturating adds, 8 saturating subtracts, 24 copies, each reading the previous buffer |
| Idct64Stages.Stage5 | av1/common/x86/av1_inv_txfm_sse2.c:906-965 | stage 5 lane by lane as written: 12 rotation outputs, 20 saturating adds, 20 saturating subtracts, 12 copies, each reading the previous buffer |
| Idct64Stages.Stage6 | av1/common/x86/av1_inv_txfm_sse2.c:967-1020 | stage 6 lane by lane as written: 24 rotation outputs, 10 saturating adds, 10 saturating subtracts, 20 copies, each reading the previous buffer |
| Idct64Stages.Stage7 | av1/common/x86/av1_inv_txfm_sse2.c:1022-1082 | stage 7 lane by lane as written: 10 rotation outputs, 22 saturating adds, 22 saturating subtracts, 10 copies, each reading the previous buffer |
| Idct64Stages.Stage8 | av1/common/x86/av1_inv_txfm_sse2.c:1084-1139 | stage 8 lane by lane as written: 20 rotation outputs, 12 saturating adds, 12 saturating subtracts, 20 copies, each reading the previous buffer |
| Idct64Stages.Stage9 | av1/common/x86/av1_inv_txfm_sse2.c:1141-1202 | stage 9 lane by lane as written: 8 rotation outputs, 24 saturating adds, 24 saturating subtracts, 8 copies, each reading the previous buffer |
| Idct64Stages.Stage10 | av1/common/x86/av1_inv_txfm_sse2.c:1204-1261 | stage 10 lane by lane as written: 16 rotation outputs, 16 saturating adds, 16 saturating subtracts, 16 copies, each reading the previous buffer |
| Idct64Stages.Stage11 | av1/common/x86/av1_inv_txfm_sse2.c:1263-1327 | stage 11 lane by lane as written: 32 saturating adds, 32 saturating subtracts, each reading the previous buffer |
| Idct64.Transform | av1/common/x86/av1_inv_txfm_sse2.c:583-1328 | the 64-point inverse DCT maps 64 16-bit lanes to 64 16-bit lanes; an all-zero column gives an all-zero column, and a DC-only column (d, 0, ..., 0) gives 64 equal outputs, the (cospi[32], cospi[32]) rotation of (d, 0) |
| Idct64.InputOrder | av1/common/x86/av1_inv_txfm_sse2.c:674-739 | lane i is loaded from input `BitRev(6, i)`, and input j lands in lane `BitRev(6, j)` |
| Idct64.OutputStage | av1/common/x86/av1_inv_txfm_sse2.c:1263-1327 | output i and 63-i are the saturated sum and difference of the last buffer's lanes i and 63-i |
| Iadst8Stages.Stage1 | av1/common/x86/av1_inv_txfm_sse2.c:1349-1358 | stage 1 lane by lane as written: 8 copies, each reading the previous buffer |
| Iadst8Stages.Stage2 | av1/common/x86/av1_inv_txfm_sse2.c:1360-1365 | stage 2 lane by lane as written: 8 rotation outputs, each reading the previous buffer |
| Iadst8Stages.Stage3 | av1/common/x86/av1_inv_txfm_sse2.c:1367-1376 | stage 3 lane by lane as written: 4 saturating adds, 4 saturating subtracts, each reading the previous buffer |
| Iadst8Stages.Stage4 | av1/common/x86/av1_inv_txfm_sse2.c:1378-1385 | stage 4 lane by lane as written: 4 rotation outputs, 4 copies, each reading the previous buffer |
| Iadst8Stages.Stage5 | av1/common/x86/av1_inv_txfm_sse2.c:1387-1396 | stage 5 lane by lane as written: 4 saturating adds, 4 saturating subtracts, each reading the previous buffer |
| Iadst8Stages.Stage6 | av1/common/x86/av1_inv_txfm_sse2.c:1398-1405 | stage 6 lane by lane as written: 4 rotation outputs, 4 copies, each reading the previous buffer |
| Iadst8Stages.Stage7 | av1/common/x86/av1_inv_txfm_sse2.c:1407-1415 | stage 7 lane by lane as written: 4 copies, 4 saturating negations, each reading the previous buffer |
| Iadst8.Transform | av1/common/x86/av1_inv_txfm_sse2.c:1330-1416 | the 8-point inverse ADST maps 8 16-bit lanes to 8 16-bit lanes, and an all-zero column to an all-zero column |
| Iadst8.InputOrder | av1/common/x86/av1_inv_txfm_sse2.c:1349-1358 | lane i is loaded from input `AdstInput(8, i)` (7, 0, 5, 2, 3, 4, 1, 6), and input j lands in lane `AdstInputInverse(8, j)` |
| Iadst8.OutputStage | av1/common/x86/av1_inv_txfm_sse2.c:1407-1415 | even outputs copy buffer lanes 0, 6, 3, 5. Odd outputs negate lanes 4, 2, 7, 1, giving 32767 for -32768. Every buffer lane reaches exactly one output |
| Iadst16Stages.Stage1 | av1/common/x86/av1_inv_txfm_sse2.c:1451-1468 | stage 1 lane by lane as written: 16 copies, each reading the previous buffer |
| Iadst16Stages.Stage2 | av1/common/x86/av1_inv_txfm_sse2.c:1470-1479 | stage 2 lane by lane as written: 16 rotation outputs, each reading the previous buffer |
| Iadst16Stages.Stage3 | av1/common/x86/av1_inv_txfm_sse2.c:1481-1498 | stage 3 lane by lane as written: 8 saturating adds, 8 saturating subtracts, each reading the previous buffer |
| Iadst16Stages.Stage4 | av1/common/x86/av1_inv_txfm_sse2.c:1500-1513 | stage 4 lane by lane as written: 8 rotation outputs, 8 copies, each reading the previous buffer |
| Iadst16Stages.Stage5 | av1/common/x86/av1_inv_txfm_sse2.c:1515-1532 | stage 5 lane by lane as written: 8 saturating adds, 8 saturating subtracts, each reading the previous buffer |
| Iadst16Stages.Stage6 | av1/common/x86/av1_inv_txfm_sse2.c:1534-1547 | stage 6 lane by lane as written: 8 rotation outputs, 8 copies, each reading the previous buffer |
| Iadst16Stages.Stage7 | av1/common/x86/av1_inv_txfm_sse2.c:1549-1566 | stage 7 lane by lane as written: 8 saturating adds, 8 saturating subtracts, each reading the previous buffer |
| Iadst16Stages.Stage8 | av1/common/x86/av1_inv_txfm_sse2.c:1568-1581 | stage 8 lane by lane as written: 8 rotation outputs, 8 copies, each reading the previous buffer |
| Iadst16Stages.Stage9 | av1/common/x86/av1_inv_txfm_sse2.c:1583-1599 | stage 9 lane by lane as written: 8 copies, 8 saturating negations, each reading the previous buffer |
| Iadst16.Transform | av1/common/x86/av1_inv_txfm_sse2.c:1418-1600 | the 16-point inverse ADST maps 16 16-bit lanes to 16 16-bit lanes, and an all-zero column to an all-zero column |
| Iadst16.InputOrder | av1/common/x86/av1_inv_txfm_sse2.c:1451-1468 | lane i is loaded from input `AdstInput(16, i)`, and input j lands in lane `AdstInputInverse(16, j)` |
| Iadst16.OutputStage | av1/common/x86/av1_inv_txfm_sse2.c:1583-1599 | even outputs copy and odd outputs negate (with saturation) buffer lanes in the order 0, 8, 12, 4, ..., 9, 1, and every buffer lane reaches exactly one output |
| Iidentity8.Stage1 | av1/common/x86/av1_inv_txfm_sse2.c:1606-1613 | each lane is the saturating add of the lane to itself |
| Iidentity8.Transform | av1/common/x86/av1_inv_txfm_sse2.c:1602-1614 | output lane i is `sat16(2 * input[i])`, the saturating add of the lane to itself |
| Iidentity8.Doubles | av1/common/x86/av1_inv_txfm_sse2.c:1606-1613 | the doubling is exact for inputs in -16384..16383, 32767 above and -32768 below |
| Iidentity8.IgnoresCosBit | av1/common/x86/av1_inv_txfm_sse2.c:1602-1604 | the output is the same for every cosine table and every cos_bit |
| Recon.ShuffleLo16 | av1/common/x86/av1_inv_txfm_sse2.c:1624 | `_mm_shufflelo_epi16`: lanes 0-3 take the lanes named by the 2-bit fields of the immediate, lanes 4-7 are kept |
| Recon.ShuffleHi16 | av1/common/x86/av1_inv_txfm_sse2.c:1625 | `_mm_shufflehi_epi16`: lanes 0-3 are kept, lanes 4-7 take lanes 4 + the 2-bit fields of the immediate |
| Recon.Shuffle32 | av1/common/x86/av1_inv_txfm_sse2.c:1626 | `_mm_shuffle_epi32` seen through 16-bit lanes: lane i is half `i % 2` of the 32-bit element named by field `i / 2` |
| Recon.ReversesHalves | av1/common/x86/av1_inv_txfm_sse2.c:1624-1625 | the two 16-bit shuffles by 0x1B reverse each 4-lane half |
| Recon.SwapsHalves | av1/common/x86/av1_inv_txfm_sse2.c:1626 | the 32-bit shuffle by 0x4E swaps the two 64-bit halves |
| Recon.MirrorRow | av1/common/x86/av1_inv_txfm_sse2.c:1620-1627 | the three shuffles applied when `fliplr` is set keep the row length; `MirrorReverses` gives their effect |
| Recon.MirrorReverses | av1/common/x86/av1_inv_txfm_sse2.c:1624-1626 | the two 4-lane shuffles by 0x1B and the 32-bit shuffle by 0x4E together reverse the row: lane j receives lane 7-j |
| Recon.GetRecon | av1/common/x86/av1_inv_txfm_sse2.c:1616-1630 | pixel j is `clamp(pred[j] + res[j], 0, 255)`, or with res[7-j] when mirrored; the intermediate 16-bit saturation never changes the result |
| Recon.ReconZeroResidual | av1/common/x86/av1_inv_txfm_sse2.c:1616-1630 | a zero residual reconstructs the prediction unchanged, mirrored or not |
| Recon.RowInFrame | av1/common/x86/av1_inv_txfm_sse2.c:1636-1643 | if the first and last rows of the block lie in the frame, so does every row, for positive and negative strides alike |
| Recon.RowsDisjoint | av1/common/x86/av1_inv_txfm_sse2.c:1665-1672 | with a stride of at least 8 in magnitude, different rows of the block share no pixel |
| Recon.LoadRow | av1/common/x86/av1_inv_txfm_sse2.c:1636-1643 | `_mm_loadl_epi64` of a block row: lane c is the frame pixel at `pos + r * stride + c` |
| Recon.StoreRow | av1/common/x86/av1_inv_txfm_sse2.c:1665-1672 | `_mm_storel_epi64` of a block row: the eight pixels of the row are replaced and every other pixel is kept |
| Recon.ReconBlock | av1/common/x86/av1_inv_txfm_sse2.c:1636-1662 | all eight rows are reconstructed from the frame as loaded, row r from residual row 7-r when flipped upside-down |
| Recon.StoreRows | av1/common/x86/av1_inv_txfm_sse2.c:1665-1672 | storing the eight rows in order meets the write-back promise of `WriteBuffer8x8` |
| Recon.WriteBuffer8x8 | av1/common/x86/av1_inv_txfm_sse2.c:1632-1673 | pixels outside the 8x8 block keep their values. With a stride of at least 8 in magnitude, pixel (r, c) becomes `clamp(pred + res[r'][c'])`, where r' = 7-r when flipped upside-down and c' = 7-c when mirrored. For any stride, the last row holds its reconstruction. A zero residual leaves the frame unchanged |
| Recon.FlatStaysFlat | av1/common/x86/av1_inv_txfm_sse2.c:1632-1673 | with rows at least 8 apart, a residual whose lanes all equal d turns a block of equal pixels p into a block of equal pixels `clamp(p + d)` |
| Txfm2d.KernelFor | av1/common/x86/av1_inv_txfm_sse2.c:1675-1677 | the kernel table: DCT runs idct8, ADST and flipped ADST run iadst8, identity runs iidentity8 |
| Txfm2d.KernelTable | av1/common/x86/av1_inv_txfm_sse2.c:1675-1677 | two 1D types share a kernel only if they are equal or are ADST and flipped ADST, which both run the 8-point ADST |
| Txfm2d.Apply1D | av1/common/x86/av1_inv_txfm_sse2.c:1675-1691 | the kernel selected by the table maps 8 16-bit lanes to 8 16-bit lanes, and zero to zero |
| Txfm2d.Load | av1/common/x86/av1_inv_txfm_sse2.c:1695 | register r, lane c holds the loaded coefficient `r * 8 + c` |
| Txfm2d.Transpose | av1/common/x86/av1_inv_txfm_sse2.c:1696 | lane c of register r becomes lane r of register c |
| Txfm2d.Shift | av1/common/x86/av1_inv_txfm_sse2.c:1699 | every lane of every register is round-shifted by the same amount, to a 16-bit value |
| Txfm2d.Pass | av1/common/x86/av1_inv_txfm_sse2.c:1697 | a kernel called on the eight registers gives eight 16-bit registers; `PassTransformsColumns` gives their contents |
| Txfm2d.PassTransformsColumns | av1/common/x86/av1_inv_txfm_sse2.c:1700 | a kernel run across the eight registers transforms each column of the block |
| Txfm2d.TransposedPassTransformsRows | av1/common/x86/av1_inv_txfm_sse2.c:1696-1698 | transpose, kernel, transpose applies the kernel to each row of the block |
| Txfm2d.Residual | av1/common/x86/av1_inv_txfm_sse2.c:1695-1701 | the residual handed to the write-back is a block of eight 16-bit rows |
| Txfm2d.Separable | av1/common/x86/av1_inv_txfm_sse2.c:1695-1701 | the residual is the column kernel on each column of the shifted row-transformed block, shifted again; the row kernel acts on each row of the loaded coefficients |
| Txfm2d.ZeroCoefficients | av1/common/x86/av1_inv_txfm_sse2.c:1695-1701 | all-zero coefficients give an all-zero residual when both helpers map 0 to 0 |
| Txfm2d.IdentityIsPointwise | av1/common/x86/av1_inv_txfm_sse2.c:1695-1701 | with the identity in both directions every coefficient is handled on its own: doubled with saturation, shifted, doubled, shifted |
| Txfm2d.DcOnlyFlatResidual | av1/common/x86/av1_inv_txfm_sse2.c:1695-1701 | a DCT_DCT block whose only non-zero coefficient is the DC one gives a residual with all 64 lanes equal, when the helpers map 0 to 0 |
| Txfm2d.DcOnlyFlatBlock | av1/common/x86/av1_inv_txfm_sse2.c:1679-1703 | end to end: such a block added to a flat prediction, with rows at least 8 apart, leaves a flat block of `clamp(p + residual)` |
| Txfm2d.InvTxfm2dAdd8x8 | av1/common/x86/av1_inv_txfm_sse2.c:1679-1703 | the frame after the call meets the write-back promise for the residual of the coefficients and the configured flips, and all-zero coefficients leave it unchanged |

## Left out

- The `__m128i` bit layout is not modelled. This includes `pair_set_epi16` interleaving,
  `_mm_madd_epi16` and the pack internals. A register is a sequence of lanes.
- `btf_16_sse2` and `cospi_arr` are not part of this model. The cosine table is a parameter:
  64 entries whose negations also fit in 16 bits. One rotation output is taken to be
  `sat16((a * c0 + b * c1 + (1 << (cos_bit - 1))) >> cos_bit)` with `>>` arithmetic, as
  stated in `Butterfly`. The cosine values and their accuracy are not modelled.
- `load_buffer_32bit_to_16bit` and `round_shift_16bit` are not part of this model. They are
  the two functions of `Txfm2d.Helpers`. The model fixes the following about them:
  - each is one scalar function applied lane by lane, the same for every lane and register;
  - each produces 16-bit lanes;
  - the load puts coefficient `r * 8 + c` into lane c of register r (`Txfm2d.Load`);
  - the round shift of a lane depends only on the lane's value and the shift amount.
  Their actual rounding and truncation are not modelled.
- `transpose_16bit_8x8` is not part of this model. `Txfm2d.Transpose` takes it to be the
  matrix transpose.
- `inv_txfm_shift_ls`, `inv_cos_bit_col`, `inv_cos_bit_row`, `vtx_tab`, `htx_tab` and
  `get_flip_cfg` are table lookups outside this file. Their results are the fields of
  `Txfm2d.Config`.
- `ValidCosBit` admits every cos_bit from 1 to 16. The tables the kernels are called with use
  only some of these values.
- The unused `bd` argument of the driver is dropped.
- Recon.WriteBuffer8x8: when rows overlap (a stride of magnitude below 8), the contract
  states the untouched pixels and the last row's contents. It does not give the contents of
  earlier rows partly overwritten by later stores.
- Txfm2d.InvTxfm2dAdd8x8: the zero-coefficient clause additionally requires both helpers to
  map 0 to 0. Their definitions are not part of this model.
- Txfm2d.ZeroCoefficients: the same helper condition applies.
- Txfm2d.DcOnlyFlatResidual: the same helper condition applies, for the load and the first
  round shift.
- Txfm2d.DcOnlyFlatBlock: the same helper condition applies, for the load and the first
  round shift.
- The test programs of the repository are not modelled.
