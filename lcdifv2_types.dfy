/**
 * The driver's public definitions: interrupt bits, polarity flags, the
 * enumerations with their register encodings, and the configuration
 * records callers pass in.
 */
module Lcdifv2Types {
  import opened DeviceRegs

  datatype Option<T> = None | Some(value: T)

  /** A C `uint8_t` argument, held in a register-width word. */
  type U8 = x: bv32 | x <= 0xFF

  /** A C `uint16_t` argument, held in a register-width word. */
  type U16 = x: bv32 | x <= 0xFFFF

  // ---- Interrupts ----

  /** True when `r` has exactly one bit set. */
  predicate IsSingleBit(r: bv32) {
    r != 0 && r & (r - 1) == 0
  }

  /** FIFO-empty interrupt of a layer: bit `layer` of the top byte. */
  function FifoEmptyInterrupt(layer: nat): (r: bv32)
    requires layer < LAYER_COUNT
    ensures IsSingleBit(r) && r & 0xFF00_0000 == r
    ensures r >> 24 == 1 << (layer as bv32)
  {
    1 << (layer as bv32 + 24)
  }

  /** DMA-done interrupt of a layer: bit `layer` of the third byte. */
  function DmaDoneInterrupt(layer: nat): (r: bv32)
    requires layer < LAYER_COUNT
    ensures IsSingleBit(r) && r & 0x00FF_0000 == r
    ensures r >> 16 == 1 << (layer as bv32)
  {
    1 << (layer as bv32 + 16)
  }

  /** DMA-error interrupt of a layer: bit `layer` of the second byte. */
  function DmaErrorInterrupt(layer: nat): (r: bv32)
    requires layer < LAYER_COUNT
    ensures IsSingleBit(r) && r & 0x0000_FF00 == r
    ensures r >> 8 == 1 << (layer as bv32)
  {
    1 << (layer as bv32 + 8)
  }

  const STORE_ERROR_INTERRUPT: bv32 := 1 << 5
  const STORE_FRAME_DONE_INTERRUPT: bv32 := 1 << 4
  const VERTICAL_BLANKING_INTERRUPT: bv32 := 1 << 2
  const OUTPUT_UNDERRUN_INTERRUPT: bv32 := 1 << 1
  const VSYNC_EDGE_INTERRUPT: bv32 := 1 << 0

  /** The five interrupts that belong to no layer. */
  const FIXED_INTERRUPTS: bv32 :=
    STORE_ERROR_INTERRUPT | STORE_FRAME_DONE_INTERRUPT | VERTICAL_BLANKING_INTERRUPT |
    OUTPUT_UNDERRUN_INTERRUPT | VSYNC_EDGE_INTERRUPT

  /**
   * The 24 per-layer interrupt bits are pairwise distinct and none of them
   * is one of the five fixed interrupts, which are themselves distinct.
   */
  lemma InterruptBitsDistinct(a: nat, b: nat)
    requires a < LAYER_COUNT && b < LAYER_COUNT
    ensures FifoEmptyInterrupt(a) & DmaDoneInterrupt(b) == 0
    ensures FifoEmptyInterrupt(a) & DmaErrorInterrupt(b) == 0
    ensures DmaDoneInterrupt(a) & DmaErrorInterrupt(b) == 0
    ensures a != b ==> FifoEmptyInterrupt(a) & FifoEmptyInterrupt(b) == 0
    ensures a != b ==> DmaDoneInterrupt(a) & DmaDoneInterrupt(b) == 0
    ensures a != b ==> DmaErrorInterrupt(a) & DmaErrorInterrupt(b) == 0
    ensures (FifoEmptyInterrupt(a) | DmaDoneInterrupt(a) | DmaErrorInterrupt(a)) & FIXED_INTERRUPTS == 0
    ensures FIXED_INTERRUPTS == 0x37
  {
  }

  // ---- Signal polarity (OR'ed into CTRL) ----

  const VSYNC_ACTIVE_LOW: bv32 := CTRL_INV_VS_MASK
  const VSYNC_ACTIVE_HIGH: bv32 := 0
  const HSYNC_ACTIVE_LOW: bv32 := CTRL_INV_HS_MASK
  const HSYNC_ACTIVE_HIGH: bv32 := 0
  const DATA_ENABLE_ACTIVE_LOW: bv32 := CTRL_INV_DE_MASK
  const DATA_ENABLE_ACTIVE_HIGH: bv32 := 0
  const DRIVE_DATA_ON_FALLING_CLK_EDGE: bv32 := CTRL_INV_PXCK_MASK
  const DRIVE_DATA_ON_RISING_CLK_EDGE: bv32 := 0
  const DATA_ACTIVE_LOW: bv32 := CTRL_NEG_MASK
  const DATA_ACTIVE_HIGH: bv32 := 0

  // ---- Display ----

  /** Output line order; its code is the LINE_PATTERN field value. */
  datatype LineOrder = LineOrderRgb | LineOrderRbg | LineOrderGbr | LineOrderGrb | LineOrderBrg | LineOrderBgr
  {
    function Code(): (c: bv32)
      ensures c < 6
    {
      match this
      case LineOrderRgb => 0
      case LineOrderRbg => 1
      case LineOrderGbr => 2
      case LineOrderGrb => 3
      case LineOrderBrg => 4
      case LineOrderBgr => 5
    }
  }

  /** The line order a LINE_PATTERN code stands for, if any. */
  function LineOrderOf(c: bv32): (r: Option<LineOrder>)
    ensures r.Some? <==> c < 6
    ensures r.Some? ==> r.value.Code() == c
  {
    if c == 0 then Some(LineOrderRgb)
    else if c == 1 then Some(LineOrderRbg)
    else if c == 2 then Some(LineOrderGbr)
    else if c == 3 then Some(LineOrderGrb)
    else if c == 4 then Some(LineOrderBrg)
    else if c == 5 then Some(LineOrderBgr)
    else None
  }

  /** Panel geometry, sync timing, polarity and line order. */
  datatype DisplayConfig = DisplayConfig(
    panelWidth: U16,
    panelHeight: U16,
    hsw: U8,
    hfp: U8,
    hbp: U8,
    vsw: U8,
    vfp: U8,
    vbp: U8,
    polarityFlags: bv32,
    lineOrder: LineOrder)

  // ---- Colour space conversion ----

  datatype CscMode = CscDisable | CscYuv2Rgb | CscYCbCr2Rgb

  // ---- Source pixel formats (encoded in CTRLDESCL5.BPP and YUV_FORMAT) ----

  datatype PixelFormat =
    | Index1Bpp | Index2Bpp | Index4Bpp | Index8Bpp
    | Rgb565 | Argb1555 | Argb4444
    | Uyvy | Vyuy | Yuyv | Yvyu
    | Rgb888 | Argb8888 | Abgr8888
  {
    /** The four YUV 4:2:2 formats, usable on layers 0 and 1 only. */
    predicate IsYuv() {
      Uyvy? || Vyuy? || Yuyv? || Yvyu?
    }
  }

  /**
   * The enumeration value of a pixel format: a BPP code, and for the YUV
   * formats BPP 7 with the byte order in YUV_FORMAT. It stays inside the
   * BPP/YUV_FORMAT field group, and its BPP field is 7 exactly for YUV.
   */
  function PixelFormatCode(f: PixelFormat): (r: bv32)
    ensures r & !PIXEL_FORMAT_FIELDS == 0
    ensures r & CTRLDESCL5_BPP_MASK == Descl5Bpp(7) <==> f.IsYuv()
  {
    match f
    case Index1Bpp => Descl5Bpp(0)
    case Index2Bpp => Descl5Bpp(1)
    case Index4Bpp => Descl5Bpp(2)
    case Index8Bpp => Descl5Bpp(3)
    case Rgb565 => Descl5Bpp(4)
    case Argb1555 => Descl5Bpp(5)
    case Argb4444 => Descl5Bpp(6)
    case Uyvy => Descl5Bpp(7) | Descl5YuvFormat(0)
    case Vyuy => Descl5Bpp(7) | Descl5YuvFormat(1)
    case Yuyv => Descl5Bpp(7) | Descl5YuvFormat(2)
    case Yvyu => Descl5Bpp(7) | Descl5YuvFormat(3)
    case Rgb888 => Descl5Bpp(8)
    case Argb8888 => Descl5Bpp(9)
    case Abgr8888 => Descl5Bpp(10)
  }

  /** The BPP field of a CTRLDESCL5 word. */
  function BppField(w: bv32): bv32 {
    (w & CTRLDESCL5_BPP_MASK) >> CTRLDESCL5_BPP_SHIFT
  }

  /** The YUV_FORMAT field of a CTRLDESCL5 word. */
  function YuvField(w: bv32): bv32 {
    (w & CTRLDESCL5_YUV_FORMAT_MASK) >> CTRLDESCL5_YUV_FORMAT_SHIFT
  }

  /** Distinct pixel formats have distinct encodings. */
  lemma PixelFormatCodeInjective(f: PixelFormat, g: PixelFormat)
    ensures PixelFormatCode(f) == PixelFormatCode(g) ==> f == g
  {
  }

  /** The YUV formats share BPP 7 and differ only in YUV_FORMAT, 0 to 3 in declaration order. */
  lemma YuvFormatsShareBpp()
    ensures forall f: PixelFormat :: f.IsYuv() ==> YuvField(PixelFormatCode(f)) < 4 && BppField(PixelFormatCode(f)) == 7
    ensures YuvField(PixelFormatCode(Uyvy)) == 0
    ensures YuvField(PixelFormatCode(Vyuy)) == 1
    ensures YuvField(PixelFormatCode(Yuyv)) == 2
    ensures YuvField(PixelFormatCode(Yvyu)) == 3
    ensures forall f: PixelFormat :: !f.IsYuv() ==> YuvField(PixelFormatCode(f)) == 0 && BppField(PixelFormatCode(f)) <= 10
  {
  }

  /** Stride and pixel format of a layer's source buffer. */
  datatype BufferConfig = BufferConfig(strideBytes: U16, pixelFormat: PixelFormat)

  // ---- Alpha blending ----

  datatype AlphaMode = AlphaDisable | AlphaOverride | AlphaEmbedded | AlphaPorterDuff
  {
    function Code(): (c: bv32)
      ensures c < 4
    {
      match this
      case AlphaDisable => 0
      case AlphaOverride => 1
      case AlphaEmbedded => 2
      case AlphaPorterDuff => 3
    }
  }

  /** The alpha mode an AB_MODE code stands for, if any. */
  function AlphaModeOf(c: bv32): (r: Option<AlphaMode>)
    ensures r.Some? <==> c < 4
    ensures r.Some? ==> r.value.Code() == c
    ensures r == Some(AlphaDisable) <==> c == 0
  {
    if c == 0 then Some(AlphaDisable)
    else if c == 1 then Some(AlphaOverride)
    else if c == 2 then Some(AlphaEmbedded)
    else if c == 3 then Some(AlphaPorterDuff)
    else None
  }

  datatype PdAlphaMode = PdAlphaStraight | PdAlphaInversed
  {
    function Code(): (c: bv32)
      ensures c < 2
    {
      if PdAlphaStraight? then 0 else 1
    }
  }

  /** The Porter-Duff alpha mode a PD_ALPHA_MODE code stands for, if any. */
  function PdAlphaModeOf(c: bv32): (r: Option<PdAlphaMode>)
    ensures r.Some? <==> c < 2
    ensures r.Some? ==> r.value.Code() == c
  {
    if c == 0 then Some(PdAlphaStraight)
    else if c == 1 then Some(PdAlphaInversed)
    else None
  }

  datatype PdColorMode = PdColorStraight | PdColorInversed
  {
    function Code(): (c: bv32)
      ensures c < 2
    {
      if PdColorStraight? then 0 else 1
    }
  }

  /** The Porter-Duff colour mode a PD_COLOR_MODE code stands for, if any. */
  function PdColorModeOf(c: bv32): (r: Option<PdColorMode>)
    ensures r.Some? <==> c < 2
    ensures r.Some? ==> r.value.Code() == c
  {
    if c == 0 then Some(PdColorStraight)
    else if c == 1 then Some(PdColorInversed)
    else None
  }

  datatype PdGlobalAlphaMode = PdGlobalAlpha | PdLocalAlpha | PdScaledAlpha
  {
    function Code(): (c: bv32)
      ensures c < 3
    {
      match this
      case PdGlobalAlpha => 0
      case PdLocalAlpha => 1
      case PdScaledAlpha => 2
    }
  }

  /** The Porter-Duff global-alpha mode a PD_GLOBAL_ALPHA_MODE code stands for, if any. */
  function PdGlobalAlphaModeOf(c: bv32): (r: Option<PdGlobalAlphaMode>)
    ensures r.Some? <==> c < 3
    ensures r.Some? ==> r.value.Code() == c
  {
    if c == 0 then Some(PdGlobalAlpha)
    else if c == 1 then Some(PdLocalAlpha)
    else if c == 2 then Some(PdScaledAlpha)
    else None
  }

  datatype PdFactorMode = PdFactorOne | PdFactorZero | PdFactorStraightAlpha | PdFactorInversedAlpha
  {
    function Code(): (c: bv32)
      ensures c < 4
    {
      match this
      case PdFactorOne => 0
      case PdFactorZero => 1
      case PdFactorStraightAlpha => 2
      case PdFactorInversedAlpha => 3
    }
  }

  /** The Porter-Duff factor mode a PD_FACTOR_MODE code stands for, if any. */
  function PdFactorModeOf(c: bv32): (r: Option<PdFactorMode>)
    ensures r.Some? <==> c < 4
    ensures r.Some? ==> r.value.Code() == c
  {
    if c == 0 then Some(PdFactorOne)
    else if c == 1 then Some(PdFactorZero)
    else if c == 2 then Some(PdFactorStraightAlpha)
    else if c == 3 then Some(PdFactorInversedAlpha)
    else None
  }

  /**
   * Each encoding is one-to-one: decoding a mode's code gives the mode
   * back, so distinct modes have distinct codes. AB_MODE 0, the value the
   * buffer configuration reads as "blending off", is AlphaDisable alone.
   */
  lemma ModeCodesRoundTrip(o: LineOrder, a: AlphaMode, pa: PdAlphaMode, pc: PdColorMode,
                           pg: PdGlobalAlphaMode, pf: PdFactorMode, s: StorePixelFormat)
    ensures LineOrderOf(o.Code()) == Some(o)
    ensures AlphaModeOf(a.Code()) == Some(a)
    ensures a.Code() == 0 <==> a == AlphaDisable
    ensures PdAlphaModeOf(pa.Code()) == Some(pa)
    ensures PdColorModeOf(pc.Code()) == Some(pc)
    ensures PdGlobalAlphaModeOf(pg.Code()) == Some(pg)
    ensures PdFactorModeOf(pf.Code()) == Some(pf)
    ensures StorePixelFormatOf(s.Code()) == Some(s)
  {
  }

  /** A layer's blend settings; the Porter-Duff modes matter only under AlphaPorterDuff. */
  datatype BlendConfig = BlendConfig(
    globalAlpha: U8,
    alphaMode: AlphaMode,
    pdAlphaMode: PdAlphaMode,
    pdColorMode: PdColorMode,
    pdGlobalAlphaMode: PdGlobalAlphaMode,
    pdFactorMode: PdFactorMode)

  // ---- Store ----

  datatype StorePixelFormat = StoreArgb8888 | StoreRgb888
  {
    function Code(): (c: bv32)
      ensures c < 2
    {
      if StoreArgb8888? then 0 else 1
    }
  }

  /** The store format a WR_CTRL BPP code stands for, if any. */
  function StorePixelFormatOf(c: bv32): (r: Option<StorePixelFormat>)
    ensures r.Some? <==> c < 2
    ensures r.Some? ==> r.value.Code() == c
  {
    if c == 0 then Some(StoreArgb8888)
    else if c == 1 then Some(StoreRgb888)
    else None
  }

  /** Destination of the store (capture) path. */
  datatype StoreBufferConfig = StoreBufferConfig(bufferAddr: bv32, strideBytes: U16, pixelFormat: StorePixelFormat)
}
