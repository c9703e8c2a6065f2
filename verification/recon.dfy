/** Reconstruction of an 8x8 block (av1/common/x86/av1_inv_txfm_sse2.c lines 1616-1673): the
    residual rows are added to the prediction already in the frame buffer, clamped to pixels and
    stored back, optionally mirrored left-right and upside-down.

    The frame is a sequence of 8-bit pixels; the block's row r starts at `pos + r * stride`. A
    residual row is one register of eight 16-bit lanes. */
module Recon {
  import opened Fixed

  type Pixel = x: int | IsPixel(x)

  const Rows: nat := 8
  const Cols: nat := 8

  /** The 2-bit field `i` of a shuffle immediate: the source element for destination `i`. */
  function Selector(imm: nat, i: nat): (r: nat)
    ensures r < 4
  {
    if i == 0 then imm % 4 else Selector(imm / 4, i - 1)
  }

  /** `_mm_shufflelo_epi16`: the low four 16-bit lanes are permuted by `imm`, the high four kept. */
  function ShuffleLo16(x: seq<int>, imm: nat): (y: seq<int>)
    requires |x| == Cols
    ensures |y| == Cols
    ensures forall i {:trigger y[i]} :: 0 <= i < 4 ==> y[i] == x[Selector(imm, i)]
    ensures forall i {:trigger y[i]} :: 4 <= i < Cols ==> y[i] == x[i]
  {
    seq(Cols, i requires 0 <= i < Cols => if i < 4 then x[Selector(imm, i)] else x[i])
  }

  /** `_mm_shufflehi_epi16`: the high four 16-bit lanes are permuted by `imm`, the low four kept. */
  function ShuffleHi16(x: seq<int>, imm: nat): (y: seq<int>)
    requires |x| == Cols
    ensures |y| == Cols
    ensures forall i {:trigger y[i]} :: 0 <= i < 4 ==> y[i] == x[i]
    ensures forall i {:trigger y[i]} :: 4 <= i < Cols ==> y[i] == x[4 + Selector(imm, i - 4)]
  {
    seq(Cols, i requires 0 <= i < Cols => if i < 4 then x[i] else x[4 + Selector(imm, i - 4)])
  }

  /** `_mm_shuffle_epi32` seen through 16-bit lanes: 32-bit element d (lanes 2d and 2d+1) is
      taken from element `Selector(imm, d)`. */
  function Shuffle32(x: seq<int>, imm: nat): (y: seq<int>)
    requires |x| == Cols
    ensures |y| == Cols
    ensures forall i {:trigger y[i]} :: 0 <= i < Cols ==> y[i] == x[2 * Selector(imm, i / 2) + i % 2]
  {
    seq(Cols, i requires 0 <= i < Cols => x[2 * Selector(imm, i / 2) + i % 2])
  }

  /** The three shuffles applied to the residual when `fliplr` is set (lines 1624-1626). */
  function MirrorRow(res: seq<int>): (r: seq<int>)
    requires |res| == Cols
    ensures |r| == Cols
  {
    Shuffle32(ShuffleHi16(ShuffleLo16(res, 0x1B), 0x1B), 0x4E)
  }

  /** The two 16-bit shuffles by 0x1B reverse each 4-lane half of the row. */
  lemma ReversesHalves(res: seq<int>)
    requires |res| == Cols
    ensures var h := ShuffleHi16(ShuffleLo16(res, 0x1B), 0x1B);
            && h[0] == res[3] && h[1] == res[2] && h[2] == res[1] && h[3] == res[0]
            && h[4] == res[7] && h[5] == res[6] && h[6] == res[5] && h[7] == res[4]
  {
    assert Selector(0x1B, 0) == 3 && Selector(0x1B, 1) == 2 && Selector(0x1B, 2) == 1 && Selector(0x1B, 3) == 0;
  }

  /** The 32-bit shuffle by 0x4E swaps the two 64-bit halves of the row. */
  lemma SwapsHalves(x: seq<int>)
    requires |x| == Cols
    ensures var m := Shuffle32(x, 0x4E);
            && m[0] == x[4] && m[1] == x[5] && m[2] == x[6] && m[3] == x[7]
            && m[4] == x[0] && m[5] == x[1] && m[6] == x[2] && m[7] == x[3]
  {
    assert Selector(0x4E, 0) == 2 && Selector(0x4E, 1) == 3 && Selector(0x4E, 2) == 0 && Selector(0x4E, 3) == 1;
  }

  /** Reversing each 4-lane half and then swapping the 64-bit halves reverses the whole row. */
  lemma MirrorReverses(res: seq<int>)
    requires |res| == Cols
    ensures forall j :: 0 <= j < Cols ==> MirrorRow(res)[j] == res[Cols - 1 - j]
  {
    ReversesHalves(res);
    SwapsHalves(ShuffleHi16(ShuffleLo16(res, 0x1B), 0x1B));
  }

  predicate IsResidualRow(res: seq<int>) {
    |res| == Cols && AllInt16(res)
  }

  /** `lowbd_get_recon_8x8_sse2`: the prediction row widened to 16 bits, the (possibly mirrored)
      residual added with a saturating add, and the sums packed back to pixels with unsigned
      saturation. The 16-bit saturation never shows: each pixel is the exact sum clamped to
      0..255. */
  function GetRecon(pred: seq<Pixel>, res: seq<int>, fliplr: bool): (u: seq<Pixel>)
    requires |pred| == Cols && IsResidualRow(res)
    ensures |u| == Cols
    ensures forall j :: 0 <= j < Cols ==> u[j] == ClampPixel(pred[j] + res[if fliplr then Cols - 1 - j else j])
  {
    var r := if fliplr then MirrorRow(res) else res;
    MirrorReverses(res);
    var x0 := seq(Cols, j requires 0 <= j < Cols => AddS(r[j], pred[j]));
    seq(Cols, j requires 0 <= j < Cols => ClampPixel(x0[j]))
  }

  /** A zero residual reconstructs the prediction unchanged, mirrored or not. */
  lemma ReconZeroResidual(pred: seq<Pixel>, res: seq<int>, fliplr: bool)
    requires |pred| == Cols && IsResidualRow(res) && AllZero(res)
    ensures GetRecon(pred, res, fliplr) == pred
  {
    var u := GetRecon(pred, res, fliplr);
    forall j | 0 <= j < Cols
      ensures u[j] == pred[j]
    {
      assert res[if fliplr then Cols - 1 - j else j] == 0;
    }
  }

  /** Pixel `k` of the frame lies in row `r` of the block. */
  predicate InRow(pos: int, stride: int, r: int, k: int) {
    pos + r * stride <= k < pos + r * stride + Cols
  }

  /** Pixel `k` lies in one of the first `n` rows of the block. */
  predicate CoveredBy(pos: int, stride: int, n: nat, k: int) {
    n > 0 && (InRow(pos, stride, n - 1, k) || CoveredBy(pos, stride, n - 1, k))
  }

  /** Every row of the block lies inside the frame: rows are affine in r, so the first and the last suffice. */
  predicate WindowInFrame(frameLen: nat, pos: int, stride: int) {
    && 0 <= pos && pos + Cols <= frameLen
    && 0 <= pos + (Rows - 1) * stride && pos + (Rows - 1) * stride + Cols <= frameLen
  }

  lemma RowInFrame(frameLen: nat, pos: int, stride: int, r: int)
    requires WindowInFrame(frameLen, pos, stride) && 0 <= r < Rows
    ensures 0 <= pos + r * stride && pos + r * stride + Cols <= frameLen
  {
    if stride >= 0 {
      assert 0 <= r * stride <= (Rows - 1) * stride;
    } else {
      assert (Rows - 1) * stride <= r * stride <= 0;
    }
  }

  /** `_mm_loadl_epi64` of a row: eight pixels starting at `at`. */
  function LoadRow(frame: seq<Pixel>, at: nat): (row: seq<Pixel>)
    requires at + Cols <= |frame|
    ensures |row| == Cols
    ensures forall c :: 0 <= c < Cols ==> row[c] == frame[at + c]
  {
    frame[at..at + Cols]
  }

  /** `_mm_storel_epi64` of a row: the eight pixels at `at` replaced, nothing else touched. */
  function StoreRow(frame: seq<Pixel>, at: nat, row: seq<Pixel>): (f: seq<Pixel>)
    requires at + Cols <= |frame| && |row| == Cols
    ensures |f| == |frame|
    ensures forall c :: 0 <= c < Cols ==> f[at + c] == row[c]
    ensures forall k :: 0 <= k < |frame| && !(at <= k < at + Cols) ==> f[k] == frame[k]
  {
    frame[..at] + row + frame[at + Cols..]
  }

  /** Two different rows of a block whose stride is at least a row wide share no pixel. */
  lemma RowsDisjoint(pos: int, stride: int, r: int, r2: int, k: int)
    requires stride >= Cols || stride <= -(Cols as int)
    requires r != r2 && InRow(pos, stride, r, k)
    ensures !InRow(pos, stride, r2, k)
  {
    var lo, hi := if r < r2 then r else r2, if r < r2 then r2 else r;
    FarApart(hi - lo, stride);
    assert hi * stride - lo * stride == (hi - lo) * stride;
  }

  /** Rows `d >= 1` apart start at least `|stride|` pixels apart. */
  lemma FarApart(d: int, stride: int)
    requires d >= 1
    ensures stride >= 0 ==> d * stride >= stride
    ensures stride < 0 ==> d * stride <= stride
  {
    assert d * stride - stride == (d - 1) * stride;
  }

  predicate IsResidualBlock(res: seq<seq<int>>) {
    |res| == Rows && forall r :: 0 <= r < Rows ==> IsResidualRow(res[r])
  }

  /** The residual row that reconstructs block row `r`: row 7-r when flipped upside-down. */
  function SourceRow(r: nat, flipud: bool): (s: nat)
    requires r < Rows
    ensures s < Rows
  {
    if flipud then Rows - 1 - r else r
  }

  /** The reconstructed value the block promises for pixel `k` of row `r`: the prediction there
      plus the residual of the (possibly mirrored) row and column, clamped to a pixel. */
  function ReconPixel(frame: seq<Pixel>, res: seq<seq<int>>, pos: int, stride: int, fliplr: bool, flipud: bool,
                      r: nat, k: int): Pixel
    requires IsResidualBlock(res) && r < Rows && InRow(pos, stride, r, k) && 0 <= k < |frame|
  {
    var c := k - (pos + r * stride);
    ClampPixel(frame[k] + res[SourceRow(r, flipud)][if fliplr then Cols - 1 - c else c])
  }

  /** Lines 1636-1662: block row r loaded from the frame and reconstructed with its residual row. */
  function ReconRow(frame: seq<Pixel>, res: seq<seq<int>>, pos: int, stride: int, fliplr: bool, flipud: bool,
                    r: nat): (u: seq<Pixel>)
    requires IsResidualBlock(res) && WindowInFrame(|frame|, pos, stride) && r < Rows
    ensures |u| == Cols
    ensures forall k :: InRow(pos, stride, r, k) && 0 <= k < |frame| ==>
              u[k - (pos + r * stride)] == ReconPixel(frame, res, pos, stride, fliplr, flipud, r, k)
  {
    RowInFrame(|frame|, pos, stride, r);
    GetRecon(LoadRow(frame, pos + r * stride), res[SourceRow(r, flipud)], fliplr)
  }

  /** Row `r` of the block holds its reconstruction in `out`. */
  predicate RowHolds(out: seq<Pixel>, frame: seq<Pixel>, res: seq<seq<int>>, pos: int, stride: int,
                     fliplr: bool, flipud: bool, r: nat)
    requires |out| == |frame| && IsResidualBlock(res) && r < Rows
  {
    forall k :: InRow(pos, stride, r, k) && 0 <= k < |frame| ==>
      out[k] == ReconPixel(frame, res, pos, stride, fliplr, flipud, r, k)
  }

  /** Pixels outside the first `n` rows of the block are as in `frame`. */
  predicate Untouched(out: seq<Pixel>, frame: seq<Pixel>, pos: int, stride: int, n: nat) {
    |out| == |frame| && forall k :: 0 <= k < |frame| && !CoveredBy(pos, stride, n, k) ==> out[k] == frame[k]
  }

  /** Storing row `r` keeps every pixel outside rows 0..r and writes row `r` in full. */
  lemma StoreStep(prev: seq<Pixel>, frame: seq<Pixel>, res: seq<seq<int>>, pos: int, stride: int,
                  fliplr: bool, flipud: bool, r: nat)
    requires IsResidualBlock(res) && WindowInFrame(|frame|, pos, stride) && r < Rows
    requires Untouched(prev, frame, pos, stride, r)
    ensures 0 <= pos + r * stride && pos + r * stride + Cols <= |prev|
    ensures var out := StoreRow(prev, pos + r * stride, ReconRow(frame, res, pos, stride, fliplr, flipud, r));
            Untouched(out, frame, pos, stride, r + 1) && RowHolds(out, frame, res, pos, stride, fliplr, flipud, r)
  {
    RowInFrame(|frame|, pos, stride, r);
    var at := pos + r * stride;
    var out := StoreRow(prev, at, ReconRow(frame, res, pos, stride, fliplr, flipud, r));
    forall k | InRow(pos, stride, r, k) && 0 <= k < |frame|
      ensures out[k] == ReconPixel(frame, res, pos, stride, fliplr, flipud, r, k)
    {
      assert out[at + (k - at)] == ReconRow(frame, res, pos, stride, fliplr, flipud, r)[k - at];
    }
  }

  /** With rows at least a row apart, storing row `r` leaves the rows stored before it intact. */
  lemma StoreKeepsEarlierRows(prev: seq<Pixel>, frame: seq<Pixel>, res: seq<seq<int>>, pos: int, stride: int,
                              fliplr: bool, flipud: bool, r: nat, row: seq<Pixel>, r2: nat)
    requires IsResidualBlock(res) && WindowInFrame(|frame|, pos, stride) && r2 < r < Rows
    requires stride >= Cols || stride <= -(Cols as int)
    requires |prev| == |frame| && |row| == Cols && 0 <= pos + r * stride && pos + r * stride + Cols <= |prev|
    requires RowHolds(prev, frame, res, pos, stride, fliplr, flipud, r2)
    ensures RowHolds(StoreRow(prev, pos + r * stride, row), frame, res, pos, stride, fliplr, flipud, r2)
  {
    var out := StoreRow(prev, pos + r * stride, row);
    forall k | InRow(pos, stride, r2, k) && 0 <= k < |frame|
      ensures out[k] == ReconPixel(frame, res, pos, stride, fliplr, flipud, r2, k)
    {
      RowsDisjoint(pos, stride, r2, r, k);
    }
  }

  /** With a zero residual, a row is stored back exactly as it was loaded. */
  lemma StoreZeroRow(frame: seq<Pixel>, res: seq<seq<int>>, pos: int, stride: int, fliplr: bool, flipud: bool, r: nat)
    requires IsResidualBlock(res) && WindowInFrame(|frame|, pos, stride) && r < Rows
    requires ZeroResidual(res)
    ensures 0 <= pos + r * stride && pos + r * stride + Cols <= |frame|
    ensures StoreRow(frame, pos + r * stride, ReconRow(frame, res, pos, stride, fliplr, flipud, r)) == frame
  {
    RowInFrame(|frame|, pos, stride, r);
    var at := pos + r * stride;
    ReconZeroResidual(LoadRow(frame, at), res[SourceRow(r, flipud)], fliplr);
    var out := StoreRow(frame, at, ReconRow(frame, res, pos, stride, fliplr, flipud, r));
    forall k | 0 <= k < |frame|
      ensures out[k] == frame[k]
    {
      if at <= k < at + Cols {
        assert out[at + (k - at)] == LoadRow(frame, at)[k - at];
      }
    }
  }

  /** The eight reconstructed rows, computed from the frame before anything is stored (lines 1636-1662). */
  function ReconBlock(frame: seq<Pixel>, res: seq<seq<int>>, pos: int, stride: int, fliplr: bool, flipud: bool)
    : (u: seq<seq<Pixel>>)
    requires IsResidualBlock(res) && WindowInFrame(|frame|, pos, stride)
    ensures |u| == Rows
    ensures forall r :: 0 <= r < Rows ==> u[r] == ReconRow(frame, res, pos, stride, fliplr, flipud, r)
  {
    seq(Rows, r requires 0 <= r < Rows => ReconRow(frame, res, pos, stride, fliplr, flipud, r))
  }

  /** The promise of `lowbd_write_buffer_8x8_sse2` about the frame `out` it leaves behind. */
  predicate WriteBufferPost(out: seq<Pixel>, frame: seq<Pixel>, res: seq<seq<int>>, pos: int, stride: int,
                            fliplr: bool, flipud: bool)
    requires IsResidualBlock(res)
  {
    && |out| == |frame|
    && (forall k :: 0 <= k < |frame| && !CoveredBy(pos, stride, Rows, k) ==> out[k] == frame[k])
    && (stride >= Cols || stride <= -(Cols as int) ==>
          forall r: nat, k :: r < Rows && InRow(pos, stride, r, k) && 0 <= k < |frame| ==>
            out[k] == ReconPixel(frame, res, pos, stride, fliplr, flipud, r, k))
    && (forall k :: InRow(pos, stride, Rows - 1, k) && 0 <= k < |frame| ==>
          out[k] == ReconPixel(frame, res, pos, stride, fliplr, flipud, Rows - 1, k))
    && ((forall r :: 0 <= r < Rows ==> AllZero(res[r])) ==> out == frame)
  }

  /** Every pixel of the 8x8 block at `pos` equals `p`. */
  predicate FlatBlock(frame: seq<Pixel>, pos: int, stride: int, p: int) {
    forall r: nat, k :: r < Rows && InRow(pos, stride, r, k) && 0 <= k < |frame| ==> frame[k] == p
  }

  /** When every residual lane holds the same value `d` and rows do not overlap, a flat
      prediction `p` is written back as the flat block `clamp(p + d)`. */
  lemma FlatStaysFlat(out: seq<Pixel>, frame: seq<Pixel>, res: seq<seq<int>>, pos: int, stride: int,
                      fliplr: bool, flipud: bool, p: int, d: int)
    requires IsResidualBlock(res) && Separated(stride)
    requires forall r, c :: 0 <= r < Rows && 0 <= c < Cols ==> res[r][c] == d
    requires FlatBlock(frame, pos, stride, p)
    requires WriteBufferPost(out, frame, res, pos, stride, fliplr, flipud)
    ensures FlatBlock(out, pos, stride, ClampPixel(p + d))
  {
    forall r: nat, k | r < Rows && InRow(pos, stride, r, k) && 0 <= k < |out|
      ensures out[k] == ClampPixel(p + d)
    {
      var c := k - (pos + r * stride);
      assert res[SourceRow(r, flipud)][if fliplr then Cols - 1 - c else c] == d;
    }
  }

  predicate ZeroResidual(res: seq<seq<int>>)
    requires IsResidualBlock(res)
  {
    forall r :: 0 <= r < Rows ==> AllZero(res[r])
  }

  predicate Separated(stride: int) {
    stride >= Cols || stride <= -(Cols as int)
  }

  /** Every one of the first `n` rows holds its reconstruction. */
  predicate RowsHold(out: seq<Pixel>, frame: seq<Pixel>, res: seq<seq<int>>, pos: int, stride: int,
                     fliplr: bool, flipud: bool, n: nat)
    requires |out| == |frame| && IsResidualBlock(res) && n <= Rows
  {
    forall r2: nat :: r2 < n ==> RowHolds(out, frame, res, pos, stride, fliplr, flipud, r2)
  }

  /** What holds after the first `n` rows are stored. */
  predicate StoredInv(out: seq<Pixel>, frame: seq<Pixel>, res: seq<seq<int>>, pos: int, stride: int,
                      fliplr: bool, flipud: bool, n: nat)
    requires IsResidualBlock(res) && n <= Rows
  {
    && Untouched(out, frame, pos, stride, n)
    && (Separated(stride) ==> RowsHold(out, frame, res, pos, stride, fliplr, flipud, n))
    && (n > 0 ==> RowHolds(out, frame, res, pos, stride, fliplr, flipud, n - 1))
    && (ZeroResidual(res) ==> out == frame)
  }

  lemma SeparatedStep(prev: seq<Pixel>, frame: seq<Pixel>, res: seq<seq<int>>, pos: int, stride: int,
                      fliplr: bool, flipud: bool, r: nat, out: seq<Pixel>)
    requires IsResidualBlock(res) && WindowInFrame(|frame|, pos, stride) && r < Rows && Separated(stride)
    requires |prev| == |frame| && RowsHold(prev, frame, res, pos, stride, fliplr, flipud, r)
    requires 0 <= pos + r * stride && pos + r * stride + Cols <= |prev|
    requires out == StoreRow(prev, pos + r * stride, ReconRow(frame, res, pos, stride, fliplr, flipud, r))
    requires RowHolds(out, frame, res, pos, stride, fliplr, flipud, r)
    ensures RowsHold(out, frame, res, pos, stride, fliplr, flipud, r + 1)
  {
    var row := ReconRow(frame, res, pos, stride, fliplr, flipud, r);
    forall r2: nat | r2 < r
      ensures RowHolds(out, frame, res, pos, stride, fliplr, flipud, r2)
    {
      StoreKeepsEarlierRows(prev, frame, res, pos, stride, fliplr, flipud, r, row, r2);
    }
  }

  lemma StoredInvStep(prev: seq<Pixel>, frame: seq<Pixel>, res: seq<seq<int>>, pos: int, stride: int,
                      fliplr: bool, flipud: bool, r: nat)
    requires IsResidualBlock(res) && WindowInFrame(|frame|, pos, stride) && r < Rows
    requires StoredInv(prev, frame, res, pos, stride, fliplr, flipud, r)
    ensures 0 <= pos + r * stride && pos + r * stride + Cols <= |prev|
    ensures StoredInv(StoreRow(prev, pos + r * stride, ReconRow(frame, res, pos, stride, fliplr, flipud, r)),
                      frame, res, pos, stride, fliplr, flipud, r + 1)
  {
    StoreStep(prev, frame, res, pos, stride, fliplr, flipud, r);
    var out := StoreRow(prev, pos + r * stride, ReconRow(frame, res, pos, stride, fliplr, flipud, r));
    if ZeroResidual(res) {
      StoreZeroRow(frame, res, pos, stride, fliplr, flipud, r);
    }
    if Separated(stride) {
      SeparatedStep(prev, frame, res, pos, stride, fliplr, flipud, r, out);
    }
  }

  lemma StoredInvDone(out: seq<Pixel>, frame: seq<Pixel>, res: seq<seq<int>>, pos: int, stride: int,
                      fliplr: bool, flipud: bool)
    requires IsResidualBlock(res)
    requires StoredInv(out, frame, res, pos, stride, fliplr, flipud, Rows)
    ensures WriteBufferPost(out, frame, res, pos, stride, fliplr, flipud)
  {
    if Separated(stride) {
      forall r: nat, k | r < Rows && InRow(pos, stride, r, k) && 0 <= k < |frame|
        ensures out[k] == ReconPixel(frame, res, pos, stride, fliplr, flipud, r, k)
      {
        assert RowHolds(out, frame, res, pos, stride, fliplr, flipud, r);
      }
    }
  }

  /** The eight stores of lines 1664-1671, in order. */
  method StoreRows(u: seq<seq<Pixel>>, frame: seq<Pixel>, res: seq<seq<int>>, pos: int, stride: int,
                   fliplr: bool, flipud: bool) returns (out: seq<Pixel>)
    requires IsResidualBlock(res) && WindowInFrame(|frame|, pos, stride)
    requires u == ReconBlock(frame, res, pos, stride, fliplr, flipud)
    ensures WriteBufferPost(out, frame, res, pos, stride, fliplr, flipud)
  {
    out := frame;
    for r := 0 to Rows
      invariant StoredInv(out, frame, res, pos, stride, fliplr, flipud, r)
    {
      StoredInvStep(out, frame, res, pos, stride, fliplr, flipud, r);
      out := StoreRow(out, pos + r * stride, u[r]);
    }
    StoredInvDone(out, frame, res, pos, stride, fliplr, flipud);
  }

  /** `lowbd_write_buffer_8x8_sse2`: all eight rows are loaded and reconstructed first, then stored
      in order. Only the block's pixels change; when rows cannot overlap every pixel of the block
      holds its reconstruction, and whatever the stride the last row stored is intact; a zero
      residual leaves the frame as it was. */
  method WriteBuffer8x8(res: seq<seq<int>>, frame: seq<Pixel>, pos: int, stride: int, fliplr: bool, flipud: bool)
    returns (out: seq<Pixel>)
    requires IsResidualBlock(res) && WindowInFrame(|frame|, pos, stride)
    ensures |out| == |frame|
    ensures forall k :: 0 <= k < |frame| && !CoveredBy(pos, stride, Rows, k) ==> out[k] == frame[k]
    ensures stride >= Cols || stride <= -(Cols as int) ==>
              forall r: nat, k :: r < Rows && InRow(pos, stride, r, k) && 0 <= k < |frame| ==>
                out[k] == ReconPixel(frame, res, pos, stride, fliplr, flipud, r, k)
    ensures forall k :: InRow(pos, stride, Rows - 1, k) && 0 <= k < |frame| ==>
              out[k] == ReconPixel(frame, res, pos, stride, fliplr, flipud, Rows - 1, k)
    ensures (forall r :: 0 <= r < Rows ==> AllZero(res[r])) ==> out == frame
  {
    var u := ReconBlock(frame, res, pos, stride, fliplr, flipud);
    out := StoreRows(u, frame, res, pos, stride, fliplr, flipud);
  }
}
