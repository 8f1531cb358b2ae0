/**
 * The register words the driver computes, as functions of the words it
 * reads and of the caller's configuration. Each entry point of the
 * peripheral class reads a register, passes it through one of these and
 * writes the result back; the contracts here say what the written word
 * means field by field.
 */
module Lcdifv2Words {
  import opened Bits
  import opened DeviceRegs
  import opened Lcdifv2Types

  // ---- Geometry and timing ----

  /**
   * Two 16-bit values packed the way DISP_SIZE (width, height), CTRLDESCL1
   * (width, height) and CTRLDESCL2 (x, y) are: the first in the low half,
   * the second in the high half. Both read back unchanged.
   */
  function PackHalves(lo: U16, hi: U16): (r: bv32)
    ensures r & HALF_LOW_MASK == lo
    ensures r >> HALF_HIGH_SHIFT == hi
  {
    (hi << HALF_HIGH_SHIFT) | lo
  }

  /** A packed word determines both halves. */
  lemma PackHalvesInjective(lo: U16, hi: U16, lo': U16, hi': U16)
    ensures PackHalves(lo, hi) == PackHalves(lo', hi') ==> lo == lo' && hi == hi'
  {
  }

  /**
   * An HSYN_PARA or VSYN_PARA word: pulse width, back porch and front
   * porch, each read back unchanged from its own field, nothing else set.
   */
  function SynPara(pw: U8, bp: U8, fp: U8): (r: bv32)
    ensures (r & SYN_PARA_PW_MASK) >> SYN_PARA_PW_SHIFT == pw
    ensures (r & SYN_PARA_BP_MASK) >> SYN_PARA_BP_SHIFT == bp
    ensures (r & SYN_PARA_FP_MASK) >> SYN_PARA_FP_SHIFT == fp
    ensures r & !(SYN_PARA_PW_MASK | SYN_PARA_BP_MASK | SYN_PARA_FP_MASK) == 0
  {
    (pw << SYN_PARA_PW_SHIFT) | (bp << SYN_PARA_BP_SHIFT) | (fp << SYN_PARA_FP_SHIFT)
  }

  /** The five display-level registers that the timing configuration writes. */
  datatype DisplayRegisters = DisplayRegisters(
    dispSize: bv32,
    hsynPara: bv32,
    vsynPara: bv32,
    dispPara: bv32,
    ctrl: bv32)

  /** The words written for a display configuration. */
  function DisplayRegistersFor(c: DisplayConfig): (r: DisplayRegisters)
    ensures r.dispPara & DISP_PARA_DISP_ON_MASK == 0
    ensures r.dispPara & !DISP_PARA_LINE_PATTERN_MASK == 0
    ensures r.ctrl == c.polarityFlags
  {
    DisplayRegisters(
      PackHalves(c.panelWidth, c.panelHeight),
      SynPara(c.hsw, c.hbp, c.hfp),
      SynPara(c.vsw, c.vbp, c.vfp),
      DispParaLinePattern(c.lineOrder.Code()),
      c.polarityFlags)
  }

  /** An 8-bit count held in a 9-bit timing field, if it fits. */
  function Narrow8(x: bv32): (r: Option<U8>)
    ensures r.Some? <==> x < 0x100
    ensures r.Some? ==> r.value == x
  {
    if x < 0x100 then Some(x) else None
  }

  /**
   * Reads a display configuration back out of the display registers: the
   * reading counterpart of DisplayRegistersFor. None when a timing field
   * holds more than 8 bits or LINE_PATTERN is no line order.
   */
  function DisplayConfigOf(r: DisplayRegisters): Option<DisplayConfig> {
    var (hsw, hbp, hfp) := SynParaOf(r.hsynPara);
    var (vsw, vbp, vfp) := SynParaOf(r.vsynPara);
    var order := LineOrderOf((r.dispPara & DISP_PARA_LINE_PATTERN_MASK) >> DISP_PARA_LINE_PATTERN_SHIFT);
    if hsw.Some? && hbp.Some? && hfp.Some? && vsw.Some? && vbp.Some? && vfp.Some? && order.Some? then
      Some(DisplayConfig(
        r.dispSize & HALF_LOW_MASK,
        r.dispSize >> HALF_HIGH_SHIFT,
        hsw.value, hfp.value, hbp.value, vsw.value, vfp.value, vbp.value,
        r.ctrl,
        order.value))
    else
      None
  }

  /** The three timing fields of a sync word, read back through Narrow8. */
  function SynParaOf(w: bv32): (r: (Option<U8>, Option<U8>, Option<U8>))
  {
    (Narrow8((w & SYN_PARA_PW_MASK) >> SYN_PARA_PW_SHIFT),
     Narrow8((w & SYN_PARA_BP_MASK) >> SYN_PARA_BP_SHIFT),
     Narrow8((w & SYN_PARA_FP_MASK) >> SYN_PARA_FP_SHIFT))
  }

  /** A sync word reads back the pulse width and porches it was built from. */
  lemma SynParaRoundTrip(pw: U8, bp: U8, fp: U8)
    ensures SynParaOf(SynPara(pw, bp, fp)) == (Some(pw), Some(bp), Some(fp))
  {
  }

  /** Writing a display configuration and reading the registers back gives the same configuration. */
  lemma DisplayConfigRoundTrip(c: DisplayConfig)
    ensures DisplayConfigOf(DisplayRegistersFor(c)) == Some(c)
  {
    SynParaRoundTrip(c.hsw, c.hbp, c.hfp);
    SynParaRoundTrip(c.vsw, c.vbp, c.vfp);
  }

  /** The reset timing words are the default configuration's pulse widths and porches (all 3). */
  lemma ResetTimingIsDefaultTiming()
    ensures SynPara(3, 3, 3) == HSYN_PARA_RESET
    ensures SynPara(3, 3, 3) == VSYN_PARA_RESET
  {
  }

  // ---- Colour space conversion ----

  /** The three CSC coefficient words of one layer. */
  datatype CscWords = CscWords(coef0: bv32, coef1: bv32, coef2: bv32)

  /** The seven fields of the CSC words, read back. */
  datatype CscFields = CscFields(c0: bv32, yOffset: bv32, uvOffset: bv32, c1: bv32, c4: bv32, c2: bv32, c3: bv32)

  function CscFieldsOf(w: CscWords): CscFields {
    CscFields(
      (w.coef0 & CSC_COEF0_C0_MASK) >> CSC_COEF0_C0_SHIFT,
      (w.coef0 & CSC_COEF0_Y_OFFSET_MASK) >> CSC_COEF0_Y_OFFSET_SHIFT,
      (w.coef0 & CSC_COEF0_UV_OFFSET_MASK) >> CSC_COEF0_UV_OFFSET_SHIFT,
      (w.coef1 & CSC_COEF1_C1_MASK) >> CSC_COEF1_C1_SHIFT,
      (w.coef1 & CSC_COEF1_C4_MASK) >> CSC_COEF1_C4_SHIFT,
      (w.coef2 & CSC_COEF2_C2_MASK) >> CSC_COEF2_C2_SHIFT,
      (w.coef2 & CSC_COEF2_C3_MASK) >> CSC_COEF2_C3_SHIFT)
  }

  /**
   * The fixed coefficient table selected by a CSC mode. Disabled is all
   * zero; the other two modes set ENABLE, only YCbCr sets YCBCR_MODE and
   * non-zero input offsets, each field holds the driver's constant, and no
   * bit outside the named fields is set.
   */
  function CscCoefficients(mode: CscMode): (r: CscWords)
    ensures mode == CscDisable <==> r == CscWords(0, 0, 0)
    ensures (r.coef0 & CSC_COEF0_ENABLE_MASK != 0) <==> mode != CscDisable
    ensures (r.coef0 & CSC_COEF0_YCBCR_MODE_MASK != 0) <==> mode == CscYCbCr2Rgb
    ensures (r.coef0 & (CSC_COEF0_Y_OFFSET_MASK | CSC_COEF0_UV_OFFSET_MASK) != 0) <==> mode == CscYCbCr2Rgb
    ensures mode == CscYuv2Rgb ==> CscFieldsOf(r) == CscFields(0x100, 0, 0, 0x123, 0x208, 0x76B, 0x79B)
    ensures mode == CscYCbCr2Rgb ==> CscFieldsOf(r) == CscFields(0x12A, 0x1F0, 0x180, 0x198, 0x204, 0x730, 0x79C)
    ensures r.coef0 & !(CSC_COEF0_ENABLE_MASK | CSC_COEF0_YCBCR_MODE_MASK | CSC_COEF0_C0_MASK |
                        CSC_COEF0_UV_OFFSET_MASK | CSC_COEF0_Y_OFFSET_MASK) == 0
    ensures r.coef1 & !(CSC_COEF1_C1_MASK | CSC_COEF1_C4_MASK) == 0
    ensures r.coef2 & !(CSC_COEF2_C2_MASK | CSC_COEF2_C3_MASK) == 0
  {
    match mode
    case CscYuv2Rgb =>
      CscWords(
        CSC_COEF0_ENABLE_MASK | CscCoef0C0(0x100) | CscCoef0YOffset(0x0) | CscCoef0UvOffset(0x0),
        CscCoef1C1(0x0123) | CscCoef1C4(0x0208),
        CscCoef2C2(0x076B) | CscCoef2C3(0x079B))
    case CscYCbCr2Rgb =>
      CscWords(
        CSC_COEF0_ENABLE_MASK | CSC_COEF0_YCBCR_MODE_MASK | CscCoef0C0(0x12A) |
        CscCoef0YOffset(0x1F0) | CscCoef0UvOffset(0x180),
        CscCoef1C1(0x0198) | CscCoef1C4(0x0204),
        CscCoef2C2(0x0730) | CscCoef2C3(0x079C))
    case CscDisable =>
      CscWords(0, 0, 0)
  }

  /** The CSC reset words: converter off, C0 = 1.0, and the YUV table except C3. */
  lemma CscResetWords()
    ensures CSC_COEF0_RESET & CSC_COEF0_ENABLE_MASK == 0
    ensures CscFieldsOf(CscWords(CSC_COEF0_RESET, CSC_COEF1_RESET, CSC_COEF2_RESET))
         == CscFields(0x100, 0, 0, 0x123, 0x208, 0x76B, 0x79C)
  {
  }

  // ---- Layer control word (CTRLDESCL5) ----

  /**
   * CTRLDESCL5 after a buffer configuration: the pixel format replaces the
   * BPP/YUV_FORMAT group, every bit outside it and SAFETY_EN is kept, and
   * SAFETY_EN is added when AB_MODE is 0 (alpha blending disabled).
   */
  function PixelFormatDescriptor(w: bv32, f: PixelFormat): (r: bv32)
    ensures r & PIXEL_FORMAT_FIELDS == PixelFormatCode(f)
    ensures r & !(PIXEL_FORMAT_FIELDS | CTRLDESCL5_SAFETY_EN_MASK) == w & !(PIXEL_FORMAT_FIELDS | CTRLDESCL5_SAFETY_EN_MASK)
    ensures (r & CTRLDESCL5_SAFETY_EN_MASK != 0) <==> (w & CTRLDESCL5_SAFETY_EN_MASK != 0 || w & CTRLDESCL5_AB_MODE_MASK == 0)
  {
    var reg := ClearBits(w, PIXEL_FORMAT_FIELDS) | PixelFormatCode(f);
    if reg & CTRLDESCL5_AB_MODE_MASK == 0 then SetBits(reg, CTRLDESCL5_SAFETY_EN_MASK) else reg
  }

  /** The blend fields of a configuration, OR'ed together. */
  function BlendFieldBits(cfg: BlendConfig): (r: bv32)
    ensures r & !BLEND_FIELDS == 0
    ensures r & CTRLDESCL5_SAFETY_EN_MASK == 0
  {
    Descl5GlobalAlpha(cfg.globalAlpha) | Descl5AbMode(cfg.alphaMode.Code()) |
    Descl5PdFactorMode(cfg.pdFactorMode.Code()) | Descl5PdAlphaMode(cfg.pdAlphaMode.Code()) |
    Descl5PdColorMode(cfg.pdColorMode.Code()) | Descl5PdGlobalAlphaMode(cfg.pdGlobalAlphaMode.Code())
  }

  /**
   * CTRLDESCL5 after a blend configuration: every bit outside the seven
   * blend fields is kept, each blend field reads back the configuration,
   * and SAFETY_EN is set exactly when alpha blending is disabled.
   */
  function BlendDescriptor(w: bv32, cfg: BlendConfig): (r: bv32)
    ensures r & !BLEND_FIELDS == w & !BLEND_FIELDS
    ensures (r & CTRLDESCL5_GLOBAL_ALPHA_MASK) >> CTRLDESCL5_GLOBAL_ALPHA_SHIFT == cfg.globalAlpha
    ensures (r & CTRLDESCL5_AB_MODE_MASK) >> CTRLDESCL5_AB_MODE_SHIFT == cfg.alphaMode.Code()
    ensures (r & CTRLDESCL5_PD_FACTOR_MODE_MASK) >> CTRLDESCL5_PD_FACTOR_MODE_SHIFT == cfg.pdFactorMode.Code()
    ensures (r & CTRLDESCL5_PD_ALPHA_MODE_MASK) >> CTRLDESCL5_PD_ALPHA_MODE_SHIFT == cfg.pdAlphaMode.Code()
    ensures (r & CTRLDESCL5_PD_COLOR_MODE_MASK) >> CTRLDESCL5_PD_COLOR_MODE_SHIFT == cfg.pdColorMode.Code()
    ensures (r & CTRLDESCL5_PD_GLOBAL_ALPHA_MODE_MASK) >> CTRLDESCL5_PD_GLOBAL_ALPHA_MODE_SHIFT == cfg.pdGlobalAlphaMode.Code()
    ensures (r & CTRLDESCL5_SAFETY_EN_MASK != 0) <==> cfg.alphaMode == AlphaDisable
  {
    var reg := ClearBits(w, BLEND_FIELDS) | BlendFieldBits(cfg);
    if cfg.alphaMode == AlphaDisable then SetBits(reg, CTRLDESCL5_SAFETY_EN_MASK) else reg
  }

  /**
   * Reads a blend configuration back out of CTRLDESCL5: the reading
   * counterpart of BlendDescriptor. None when a mode field holds no mode.
   */
  function BlendConfigOf(w: bv32): Option<BlendConfig> {
    var globalAlpha := (w & CTRLDESCL5_GLOBAL_ALPHA_MASK) >> CTRLDESCL5_GLOBAL_ALPHA_SHIFT;
    var ab := AlphaModeOf((w & CTRLDESCL5_AB_MODE_MASK) >> CTRLDESCL5_AB_MODE_SHIFT);
    var pa := PdAlphaModeOf((w & CTRLDESCL5_PD_ALPHA_MODE_MASK) >> CTRLDESCL5_PD_ALPHA_MODE_SHIFT);
    var pc := PdColorModeOf((w & CTRLDESCL5_PD_COLOR_MODE_MASK) >> CTRLDESCL5_PD_COLOR_MODE_SHIFT);
    var pg := PdGlobalAlphaModeOf((w & CTRLDESCL5_PD_GLOBAL_ALPHA_MODE_MASK) >> CTRLDESCL5_PD_GLOBAL_ALPHA_MODE_SHIFT);
    var pf := PdFactorModeOf((w & CTRLDESCL5_PD_FACTOR_MODE_MASK) >> CTRLDESCL5_PD_FACTOR_MODE_SHIFT);
    if globalAlpha <= 0xFF && ab.Some? && pa.Some? && pc.Some? && pg.Some? && pf.Some? then
      Some(BlendConfig(globalAlpha, ab.value, pa.value, pc.value, pg.value, pf.value))
    else
      None
  }

  /**
   * The blend fields of CTRLDESCL5 determine the configuration that wrote
   * them: reading the word back gives that configuration, whatever the
   * word held before.
   */
  lemma BlendConfigRoundTrip(w: bv32, cfg: BlendConfig)
    ensures BlendConfigOf(BlendDescriptor(w, cfg)) == Some(cfg)
  {
    ModeCodesRoundTrip(LineOrderRgb, cfg.alphaMode, cfg.pdAlphaMode, cfg.pdColorMode,
                       cfg.pdGlobalAlphaMode, cfg.pdFactorMode, StoreArgb8888);
  }

  /** Applying the same blend configuration twice is applying it once. */
  lemma BlendDescriptorIdempotent(w: bv32, cfg: BlendConfig)
    ensures BlendDescriptor(BlendDescriptor(w, cfg), cfg) == BlendDescriptor(w, cfg)
  {
  }

  /** The blend configuration keeps EN, SHADOW_LOAD_EN and the pixel format. */
  lemma BlendKeepsLayerControl(w: bv32, cfg: BlendConfig)
    ensures var keep := CTRLDESCL5_EN_MASK | CTRLDESCL5_SHADOW_LOAD_EN_MASK | PIXEL_FORMAT_FIELDS;
            BlendDescriptor(w, cfg) & keep == w & keep
  {
  }

  /**
   * Configuring the buffer and the blend of a layer gives the same control
   * word in either order: the safety bit the buffer configuration adds when
   * AB_MODE is 0 is the one the blend configuration sets for AlphaDisable.
   */
  lemma BufferAndBlendCommute(w: bv32, f: PixelFormat, cfg: BlendConfig)
    ensures BlendDescriptor(PixelFormatDescriptor(w, f), cfg) == PixelFormatDescriptor(BlendDescriptor(w, cfg), f)
  {
  }

  // ---- Store control (WR_CTRL) ----

  /** WR_CTRL after a store buffer configuration: only the BPP field changes, to the format's code. */
  function StoreFormatWrCtrl(w: bv32, f: StorePixelFormat): (r: bv32)
    ensures (r & WR_CTRL_BPP_MASK) >> WR_CTRL_BPP_SHIFT == f.Code()
    ensures r & !WR_CTRL_BPP_MASK == w & !WR_CTRL_BPP_MASK
  {
    ClearBits(w, WR_CTRL_BPP_MASK) | WrCtrlBpp(f.Code())
  }

  /**
   * WR_CTRL after starting the store: ENABLE is set, REPEAT is set when
   * asked for or already set, and nothing else moves: the driver never clears REPEAT.
   */
  function StartStoreWrCtrl(w: bv32, repeat: bool): (r: bv32)
    ensures r & WR_CTRL_ENABLE_MASK == WR_CTRL_ENABLE_MASK
    ensures r & WR_CTRL_REPEAT_MASK == if repeat then WR_CTRL_REPEAT_MASK else w & WR_CTRL_REPEAT_MASK
    ensures r & !(WR_CTRL_ENABLE_MASK | WR_CTRL_REPEAT_MASK) == w & !(WR_CTRL_ENABLE_MASK | WR_CTRL_REPEAT_MASK)
  {
    if repeat then SetBits(w, WR_CTRL_ENABLE_MASK | WR_CTRL_REPEAT_MASK) else SetBits(w, WR_CTRL_ENABLE_MASK)
  }

  /** The store format a WR_CTRL word selects, if its BPP field names one. */
  function StoreFormatOf(w: bv32): Option<StorePixelFormat> {
    StorePixelFormatOf((w & WR_CTRL_BPP_MASK) >> WR_CTRL_BPP_SHIFT)
  }

  /**
   * Starting the store keeps the pixel format the store configuration
   * wrote: WR_CTRL reads back that format before and after the start.
   */
  lemma StartStoreKeepsFormat(w: bv32, f: StorePixelFormat, repeat: bool)
    ensures StoreFormatOf(StoreFormatWrCtrl(w, f)) == Some(f)
    ensures StoreFormatOf(StartStoreWrCtrl(StoreFormatWrCtrl(w, f), repeat)) == Some(f)
  {
    ModeCodesRoundTrip(LineOrderRgb, AlphaDisable, PdAlphaStraight, PdColorStraight, PdGlobalAlpha, PdFactorOne, f);
  }

  // ---- LUT ----

  /**
   * The CLUT_LOAD word for a LUT upload: SEL_CLUT_NUM names the layer,
   * CLUT_UPDATE_EN is set exactly for a shadow-loaded upload, nothing else.
   */
  function ClutLoadWord(layer: nat, useShadowLoad: bool): (r: bv32)
    requires layer < LAYER_COUNT
    ensures (r & CLUT_LOAD_SEL_CLUT_NUM_MASK) >> CLUT_LOAD_SEL_CLUT_NUM_SHIFT == layer as bv32
    ensures (r & CLUT_LOAD_CLUT_UPDATE_EN_MASK != 0) <==> useShadowLoad
    ensures r & !(CLUT_LOAD_SEL_CLUT_NUM_MASK | CLUT_LOAD_CLUT_UPDATE_EN_MASK) == 0
  {
    var sel := ClutLoadSelClutNum(layer as bv32);
    if useShadowLoad then sel | CLUT_LOAD_CLUT_UPDATE_EN_MASK else sel
  }

  /**
   * LUT memory after `data` is copied in, in order, from index `base`:
   * entries [base, base + |data|) hold the data, every other entry is kept.
   */
  function LutFill(ram: seq<bv32>, base: nat, data: seq<bv32>): (r: seq<bv32>)
    requires base + |data| <= |ram|
    ensures |r| == |ram|
    ensures forall k :: 0 <= k < |ram| ==> r[k] == if base <= k < base + |data| then data[k - base] else ram[k]
    decreases |data|
  {
    if data == [] then ram
    else LutFill(ram, base, data[..|data| - 1])[base + |data| - 1 := data[|data| - 1]]
  }

  /** The count SetLut admits: fewer than LUT_ENTRY_NUM entries, as the driver asserts. */
  predicate LutCountAcceptedAsWritten(count: nat) {
    count < LUT_ENTRY_NUM
  }

  /** The count SetLut is meant to admit: a whole table of LUT_ENTRY_NUM entries at most. */
  predicate LutCountAccepted(count: nat) {
    count <= LUT_ENTRY_NUM
  }

  /**
   * With the count the driver admits, the last entry of a layer's table
   * is never written: no upload can set palette index 255, and a full
   * table of LUT_ENTRY_NUM entries is refused.
   */
  lemma AsWrittenLastEntryUnreachable(ram: seq<bv32>, layer: nat, data: seq<bv32>)
    requires |ram| == CLUT_RAM_SIZE && layer < LAYER_COUNT
    requires LutCountAcceptedAsWritten(|data|)
    ensures !LutCountAcceptedAsWritten(LUT_ENTRY_NUM)
    ensures var last := LUT_ENTRY_NUM * layer + LUT_ENTRY_NUM - 1;
            LutFill(ram, LUT_ENTRY_NUM * layer, data)[last] == ram[last]
  {
  }

  /**
   * With the corrected count a full table is admitted and an upload of
   * LUT_ENTRY_NUM entries sets every entry of the layer's table, and no
   * entry of another layer.
   */
  lemma CorrectedFullTableWritten(ram: seq<bv32>, layer: nat, data: seq<bv32>)
    requires |ram| == CLUT_RAM_SIZE && layer < LAYER_COUNT && |data| == LUT_ENTRY_NUM
    ensures LutCountAccepted(|data|)
    ensures forall i :: 0 <= i < LUT_ENTRY_NUM ==> LutFill(ram, LUT_ENTRY_NUM * layer, data)[LUT_ENTRY_NUM * layer + i] == data[i]
    ensures forall k :: 0 <= k < CLUT_RAM_SIZE && k / LUT_ENTRY_NUM != layer ==> LutFill(ram, LUT_ENTRY_NUM * layer, data)[k] == ram[k]
  {
  }
}
