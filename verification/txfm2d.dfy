/** The 8x8 two-dimensional inverse transform and reconstruction
    `av1_lowbd_inv_txfm2d_add_8x8_sse2` (av1/common/x86/av1_inv_txfm_sse2.c lines 1675-1703).

    The block lives in eight registers of eight 16-bit lanes; register r holds row r. A 1D
    kernel acts lane-wise across the eight registers, so on its own it transforms every
    column of the block. The driver transposes before and after the row kernel so that it
    transforms rows instead.

    The table lookups of the driver are not part of this model: `inv_txfm_shift_ls`,
    `inv_cos_bit_col` / `inv_cos_bit_row`, `vtx_tab` / `htx_tab` and `get_flip_cfg` become
    the fields of a `Config`, and `cospi_arr` becomes two cosine-table parameters. The
    lane-wise helpers `load_buffer_32bit_to_16bit` and `round_shift_16bit` are not part of
    this model either. They become the two scalar functions of a `Helpers` value, applied to
    every lane alike: 16-bit results, the load taking coefficient `r * 8 + c` into lane c of
    register r, the round shift depending on the lane and the shift amount only. Some lemmas
    additionally ask them to map 0 to 0. `transpose_16bit_8x8` is taken to be the matrix
    transpose its name announces.
 */
module Txfm2d {
  import opened Fixed
  import opened Butterfly
  import opened Recon
  import Idct8
  import Iadst8
  import Iidentity8

  /** The 1D transform types, in the order that indexes `lowbd_txfm8_1d_arr`. */
  datatype Txfm1D = Dct | Adst | FlipAdst | Identity

  /** The three 8-point kernels. */
  datatype Kernel8 = Idct8Kernel | Iadst8Kernel | Iidentity8Kernel

  /** `lowbd_txfm8_1d_arr` (lines 1675-1677). */
  function KernelFor(t: Txfm1D): Kernel8 {
    match t
    case Dct => Idct8Kernel
    case Adst => Iadst8Kernel
    case FlipAdst => Iadst8Kernel
    case Identity => Iidentity8Kernel
  }

  /** The flipped ADST runs the same kernel as the ADST, and no other type shares a kernel:
      the flip is applied only when the result is written back. */
  lemma KernelTable(t: Txfm1D, u: Txfm1D)
    ensures KernelFor(t) == KernelFor(u) <==> t == u || ({t, u} == {Adst, FlipAdst})
    ensures KernelFor(t) == Iadst8Kernel <==> t == Adst || t == FlipAdst
  {
  }

  /** One column of lanes through the selected kernel; every kernel maps an all-zero column to
      an all-zero column. */
  function Apply1D(k: Kernel8, x: seq<int>, cospi: seq<int>, cosBit: nat): (y: seq<int>)
    requires |x| == Cols && AllInt16(x) && ValidCosTable(cospi) && ValidCosBit(cosBit)
    ensures |y| == Cols && AllInt16(y)
    ensures AllZero(x) ==> AllZero(y)
  {
    match k
    case Idct8Kernel => Idct8.Transform(x, cospi, cosBit)
    case Iadst8Kernel => Iadst8.Transform(x, cospi, cosBit)
    case Iidentity8Kernel => Iidentity8.Transform(x, cospi, cosBit)
  }

  /** The per-transform-type constants the driver looks up. */
  datatype Config = Config(
    col: Txfm1D,        // vtx_tab[tx_type]
    row: Txfm1D,        // htx_tab[tx_type]
    udFlip: bool,       // get_flip_cfg
    lrFlip: bool,       // get_flip_cfg
    cosBitRow: nat,     // inv_cos_bit_row
    cosBitCol: nat,     // inv_cos_bit_col
    shift0: int,        // inv_txfm_shift_ls[TX_8X8][0]
    shift1: int)        // inv_txfm_shift_ls[TX_8X8][1]

  /** The lane-wise helpers whose definitions are not part of this model: one scalar function
      each, applied to every lane alike and producing a 16-bit lane. */
  datatype Helpers = Helpers(
    load: int -> Int16,               // one coefficient of load_buffer_32bit_to_16bit
    roundShift: (int, int) -> Int16)  // one lane of round_shift_16bit(lane, bit)

  predicate ValidInputs(input: seq<int>, cfg: Config, cospiRow: seq<int>, cospiCol: seq<int>) {
    && |input| == Rows * Cols
    && ValidCosTable(cospiRow) && ValidCosBit(cfg.cosBitRow)
    && ValidCosTable(cospiCol) && ValidCosBit(cfg.cosBitCol)
  }

  /** Lane `c` of every register: one column of the block. */
  function Column(b: seq<seq<int>>, c: nat): (x: seq<int>)
    requires IsResidualBlock(b) && c < Cols
    ensures |x| == Rows && AllInt16(x)
    ensures forall r :: 0 <= r < Rows ==> x[r] == b[r][c]
  {
    seq(Rows, r requires 0 <= r < Rows => b[r][c])
  }

  /** `transpose_16bit_8x8`. */
  function Transpose(b: seq<seq<int>>): (t: seq<seq<int>>)
    requires IsResidualBlock(b)
    ensures IsResidualBlock(t)
    ensures forall r, c :: 0 <= r < Rows && 0 <= c < Cols ==> t[r][c] == b[c][r]
  {
    seq(Rows, r requires 0 <= r < Rows => Column(b, r))
  }

  /** `load_buffer_32bit_to_16bit(input, 8, buf, 8)`: register r is row r of the coefficients. */
  function Load(input: seq<int>, h: Helpers): (b: seq<seq<int>>)
    requires |input| == Rows * Cols
    ensures IsResidualBlock(b)
    ensures forall r, c :: 0 <= r < Rows && 0 <= c < Cols ==> b[r][c] == h.load(input[r * Cols + c])
  {
    seq(Rows, r requires 0 <= r < Rows => LoadRegister(input, h, r))
  }

  function LoadRegister(input: seq<int>, h: Helpers, r: nat): (x: seq<int>)
    requires |input| == Rows * Cols && r < Rows
    ensures IsResidualRow(x)
    ensures forall c :: 0 <= c < Cols ==> x[c] == h.load(input[r * Cols + c])
  {
    seq(Cols, c requires 0 <= c < Cols => h.load(input[r * Cols + c]))
  }

  /** `round_shift_16bit(buf, 8, bit)`, lane by lane. */
  function Shift(b: seq<seq<int>>, bit: int, h: Helpers): (s: seq<seq<int>>)
    requires IsResidualBlock(b)
    ensures IsResidualBlock(s)
    ensures forall r, c :: 0 <= r < Rows && 0 <= c < Cols ==> s[r][c] == h.roundShift(b[r][c], bit)
  {
    seq(Rows, r requires 0 <= r < Rows => ShiftRegister(b[r], bit, h))
  }

  function ShiftRegister(x: seq<int>, bit: int, h: Helpers): (y: seq<int>)
    requires IsResidualRow(x)
    ensures |y| == Cols
    ensures forall c :: 0 <= c < Cols ==> IsInt16(y[c])
    ensures forall c :: 0 <= c < Cols ==> y[c] == h.roundShift(x[c], bit)
  {
    seq(Cols, c requires 0 <= c < Cols => ShiftLane(h, x[c], bit))
  }

  function ShiftLane(h: Helpers, v: int, bit: int): (r: int)
    ensures IsInt16(r) && r == h.roundShift(v, bit)
  {
    h.roundShift(v, bit)
  }

  /** A kernel called on the eight registers: every column of the block is transformed. */
  function Pass(k: Kernel8, b: seq<seq<int>>, cospi: seq<int>, cosBit: nat): (o: seq<seq<int>>)
    requires IsResidualBlock(b) && ValidCosTable(cospi) && ValidCosBit(cosBit)
    ensures IsResidualBlock(o)
  {
    var cols := seq(Cols, c requires 0 <= c < Cols => Apply1D(k, Column(b, c), cospi, cosBit));
    seq(Rows, r requires 0 <= r < Rows => seq(Cols, c requires 0 <= c < Cols => cols[c][r]))
  }

  /** Lane c of the kernel's output registers is the kernel applied to lane c of its input
      registers: the kernel transforms each column of the block. */
  lemma PassTransformsColumns(k: Kernel8, b: seq<seq<int>>, cospi: seq<int>, cosBit: nat)
    requires IsResidualBlock(b) && ValidCosTable(cospi) && ValidCosBit(cosBit)
    ensures forall c :: 0 <= c < Cols ==> Column(Pass(k, b, cospi, cosBit), c) == Apply1D(k, Column(b, c), cospi, cosBit)
  {
    var o := Pass(k, b, cospi, cosBit);
    forall c | 0 <= c < Cols
      ensures Column(o, c) == Apply1D(k, Column(b, c), cospi, cosBit)
    {
    }
  }

  /** Transposing, running a kernel across the registers and transposing back applies the
      kernel to each row of the block: this is how the driver's row pass works. */
  lemma TransposedPassTransformsRows(k: Kernel8, b: seq<seq<int>>, cospi: seq<int>, cosBit: nat)
    requires IsResidualBlock(b) && ValidCosTable(cospi) && ValidCosBit(cosBit)
    ensures forall r :: 0 <= r < Rows ==> Transpose(Pass(k, Transpose(b), cospi, cosBit))[r] == Apply1D(k, b[r], cospi, cosBit)
  {
    var t := Transpose(b);
    var o := Transpose(Pass(k, t, cospi, cosBit));
    PassTransformsColumns(k, t, cospi, cosBit);
    forall r | 0 <= r < Rows
      ensures o[r] == Apply1D(k, b[r], cospi, cosBit)
    {
      assert Column(t, r) == b[r];
      assert o[r] == Column(Pass(k, t, cospi, cosBit), r);
    }
  }

  /** The residual the driver hands to the write-back (lines 1695-1701): load, transpose, row
      kernel at `cos_bit_row`, transpose, first round shift, column kernel at `cos_bit_col`,
      second round shift. */
  function Residual(input: seq<int>, cfg: Config, h: Helpers, cospiRow: seq<int>, cospiCol: seq<int>)
    : (res: seq<seq<int>>)
    requires ValidInputs(input, cfg, cospiRow, cospiCol)
    ensures IsResidualBlock(res)
  {
    var buf := Load(input, h);
    var buf := Transpose(buf);
    var buf := Pass(KernelFor(cfg.row), buf, cospiRow, cfg.cosBitRow);
    var buf := Transpose(buf);
    var buf := Shift(buf, cfg.shift0, h);
    var buf := Pass(KernelFor(cfg.col), buf, cospiCol, cfg.cosBitCol);
    Shift(buf, cfg.shift1, h)
  }

  /** The intermediate block after the row pass and the first round shift. */
  function AfterRows(input: seq<int>, cfg: Config, h: Helpers, cospiRow: seq<int>): (b: seq<seq<int>>)
    requires |input| == Rows * Cols && ValidCosTable(cospiRow) && ValidCosBit(cfg.cosBitRow)
    ensures IsResidualBlock(b)
  {
    Shift(Transpose(Pass(KernelFor(cfg.row), Transpose(Load(input, h)), cospiRow, cfg.cosBitRow)), cfg.shift0, h)
  }

  /** The residual is separable: row r of the intermediate block is the row kernel applied to
      row r of the loaded coefficients and then shifted, and column c of the residual is the
      column kernel applied to column c of the intermediate block and then shifted. */
  lemma Separable(input: seq<int>, cfg: Config, h: Helpers, cospiRow: seq<int>, cospiCol: seq<int>)
    requires ValidInputs(input, cfg, cospiRow, cospiCol)
    ensures var mid := AfterRows(input, cfg, h, cospiRow);
            var rows := seq(Rows, r requires 0 <= r < Rows => Apply1D(KernelFor(cfg.row), Load(input, h)[r], cospiRow, cfg.cosBitRow));
            var res := Residual(input, cfg, h, cospiRow, cospiCol);
            && (forall r, c :: 0 <= r < Rows && 0 <= c < Cols ==> mid[r][c] == h.roundShift(rows[r][c], cfg.shift0))
            && (forall r, c :: 0 <= r < Rows && 0 <= c < Cols ==>
                  res[r][c] == h.roundShift(Apply1D(KernelFor(cfg.col), Column(mid, c), cospiCol, cfg.cosBitCol)[r], cfg.shift1))
  {
    var b := Load(input, h);
    var k := KernelFor(cfg.row);
    TransposedPassTransformsRows(k, b, cospiRow, cfg.cosBitRow);
    var mid := AfterRows(input, cfg, h, cospiRow);
    var colOut := Pass(KernelFor(cfg.col), mid, cospiCol, cfg.cosBitCol);
    PassTransformsColumns(KernelFor(cfg.col), mid, cospiCol, cfg.cosBitCol);
    forall r, c | 0 <= r < Rows && 0 <= c < Cols
      ensures colOut[r][c] == Apply1D(KernelFor(cfg.col), Column(mid, c), cospiCol, cfg.cosBitCol)[r]
    {
      assert Column(colOut, c)[r] == colOut[r][c];
    }
  }

  predicate ZeroBlock(b: seq<seq<int>>)
    requires IsResidualBlock(b)
  {
    forall r :: 0 <= r < Rows ==> AllZero(b[r])
  }

  lemma PassZero(k: Kernel8, b: seq<seq<int>>, cospi: seq<int>, cosBit: nat)
    requires IsResidualBlock(b) && ZeroBlock(b) && ValidCosTable(cospi) && ValidCosBit(cosBit)
    ensures ZeroBlock(Pass(k, b, cospi, cosBit))
  {
    var o := Pass(k, b, cospi, cosBit);
    PassTransformsColumns(k, b, cospi, cosBit);
    forall r, c | 0 <= r < Rows && 0 <= c < Cols
      ensures o[r][c] == 0
    {
      assert Column(o, c)[r] == o[r][c];
    }
  }

  /** All-zero coefficients give an all-zero residual, provided the two helpers map a zero lane
      to zero at the shifts in use. */
  lemma ZeroCoefficients(input: seq<int>, cfg: Config, h: Helpers, cospiRow: seq<int>, cospiCol: seq<int>)
    requires ValidInputs(input, cfg, cospiRow, cospiCol) && AllZero(input)
    requires h.load(0) == 0 && h.roundShift(0, cfg.shift0) == 0 && h.roundShift(0, cfg.shift1) == 0
    ensures ZeroResidual(Residual(input, cfg, h, cospiRow, cospiCol))
  {
    var b0 := Load(input, h);
    assert ZeroBlock(b0) by {
      forall r, c | 0 <= r < Rows && 0 <= c < Cols ensures b0[r][c] == 0 {
        assert input[r * Cols + c] == 0;
      }
    }
    var b1 := Transpose(b0);
    var b2 := Pass(KernelFor(cfg.row), b1, cospiRow, cfg.cosBitRow);
    PassZero(KernelFor(cfg.row), b1, cospiRow, cfg.cosBitRow);
    var b3 := Transpose(b2);
    var b4 := Shift(b3, cfg.shift0, h);
    var b5 := Pass(KernelFor(cfg.col), b4, cospiCol, cfg.cosBitCol);
    PassZero(KernelFor(cfg.col), b4, cospiCol, cfg.cosBitCol);
    var b6 := Shift(b5, cfg.shift1, h);
    assert b6 == Residual(input, cfg, h, cospiRow, cospiCol);
  }

  /** A DCT_DCT block whose only non-zero coefficient is the DC one gives a flat residual: the
      row pass turns the DC row into eight equal lanes and every other row into zeros, so every
      column reaching the column pass is DC-only with the same DC value. */
  lemma DcOnlyFlatResidual(input: seq<int>, cfg: Config, h: Helpers, cospiRow: seq<int>, cospiCol: seq<int>)
    requires ValidInputs(input, cfg, cospiRow, cospiCol) && cfg.row == Dct && cfg.col == Dct
    requires forall i :: 1 <= i < Rows * Cols ==> input[i] == 0
    requires h.load(0) == 0 && h.roundShift(0, cfg.shift0) == 0
    ensures var res := Residual(input, cfg, h, cospiRow, cospiCol);
            forall r, c :: 0 <= r < Rows && 0 <= c < Cols ==> res[r][c] == res[0][0]
  {
    Separable(input, cfg, h, cospiRow, cospiCol);
    var b := Load(input, h);
    var mid := AfterRows(input, cfg, h, cospiRow);
    var res := Residual(input, cfg, h, cospiRow, cospiCol);
    forall r, c | 0 <= r < Rows && 0 <= c < Cols && (r, c) != (0, 0)
      ensures b[r][c] == 0
    {
      assert input[r * Cols + c] == 0;
    }
    var rowDc := Idct8.Transform(b[0], cospiRow, cfg.cosBitRow);
    var w := h.roundShift(rowDc[0], cfg.shift0);
    forall r, c | 0 <= r < Rows && 0 <= c < Cols
      ensures mid[r][c] == (if r == 0 then w else 0)
    {
      if r > 0 {
        assert AllZero(b[r]);
      }
    }
    var colDc := Idct8.Transform(Column(mid, 0), cospiCol, cfg.cosBitCol);
    forall r, c | 0 <= r < Rows && 0 <= c < Cols
      ensures res[r][c] == h.roundShift(colDc[0], cfg.shift1)
    {
      assert Column(mid, c) == Column(mid, 0);
    }
  }

  /** End to end: a DCT_DCT block with only the DC coefficient non-zero, added to a flat
      prediction, leaves a flat block when rows do not overlap. */
  lemma DcOnlyFlatBlock(input: seq<int>, frame: seq<Pixel>, out: seq<Pixel>, pos: int, stride: int, cfg: Config,
                        h: Helpers, cospiRow: seq<int>, cospiCol: seq<int>, p: int)
    requires ValidInputs(input, cfg, cospiRow, cospiCol) && cfg.row == Dct && cfg.col == Dct
    requires forall i :: 1 <= i < Rows * Cols ==> input[i] == 0
    requires h.load(0) == 0 && h.roundShift(0, cfg.shift0) == 0
    requires Separated(stride) && FlatBlock(frame, pos, stride, p)
    requires WriteBufferPost(out, frame, Residual(input, cfg, h, cospiRow, cospiCol), pos, stride, cfg.lrFlip, cfg.udFlip)
    ensures FlatBlock(out, pos, stride, ClampPixel(p + Residual(input, cfg, h, cospiRow, cospiCol)[0][0]))
  {
    var res := Residual(input, cfg, h, cospiRow, cospiCol);
    DcOnlyFlatResidual(input, cfg, h, cospiRow, cospiCol);
    FlatStaysFlat(out, frame, res, pos, stride, cfg.lrFlip, cfg.udFlip, p, res[0][0]);
  }

  /** With the identity in both directions every coefficient is handled on its own: doubled
      with saturation, shifted, doubled again, shifted again. */
  lemma IdentityIsPointwise(input: seq<int>, cfg: Config, h: Helpers, cospiRow: seq<int>, cospiCol: seq<int>)
    requires ValidInputs(input, cfg, cospiRow, cospiCol) && cfg.row == Identity && cfg.col == Identity
    ensures var res := Residual(input, cfg, h, cospiRow, cospiCol);
            forall r, c :: 0 <= r < Rows && 0 <= c < Cols ==>
              res[r][c] == h.roundShift(Sat16(2 * h.roundShift(Sat16(2 * h.load(input[r * Cols + c])), cfg.shift0)), cfg.shift1)
  {
    Separable(input, cfg, h, cospiRow, cospiCol);
    var b := Load(input, h);
    var mid := AfterRows(input, cfg, h, cospiRow);
  }

  /** `av1_lowbd_inv_txfm2d_add_8x8_sse2`: the residual of the coefficients added into the 8x8
      block of the frame at `pos` with the configured flips. Only the block changes, each of
      its pixels is the clamped sum of prediction and residual when rows do not overlap, and
      all-zero coefficients leave the frame untouched. */
  method InvTxfm2dAdd8x8(input: seq<int>, frame: seq<Pixel>, pos: int, stride: int, cfg: Config, h: Helpers,
                         cospiRow: seq<int>, cospiCol: seq<int>) returns (out: seq<Pixel>)
    requires ValidInputs(input, cfg, cospiRow, cospiCol) && WindowInFrame(|frame|, pos, stride)
    ensures WriteBufferPost(out, frame, Residual(input, cfg, h, cospiRow, cospiCol), pos, stride, cfg.lrFlip, cfg.udFlip)
    ensures (AllZero(input) && h.load(0) == 0 && h.roundShift(0, cfg.shift0) == 0 && h.roundShift(0, cfg.shift1) == 0)
            ==> out == frame
  {
    var res := Residual(input, cfg, h, cospiRow, cospiCol);
    out := WriteBuffer8x8(res, frame, pos, stride, cfg.lrFlip, cfg.udFlip);
    if AllZero(input) && h.load(0) == 0 && h.roundShift(0, cfg.shift0) == 0 && h.roundShift(0, cfg.shift1) == 0 {
      ZeroCoefficients(input, cfg, h, cospiRow, cospiCol);
    }
  }
}

