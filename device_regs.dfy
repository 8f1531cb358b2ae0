/**
 * The register map of the LCDIF v2 peripheral as the driver sees it:
 * instance counts, field masks and shifts, and the reset words the
 * driver writes.
 *
 * The masks and shifts come from the device's register header, which is
 * not part of this model. Only some of them are fixed by the driver: its
 * reset words pin the HSYN_PARA/VSYN_PARA positions (PW at 22, BP at 11,
 * FP at 0) and the CSC positions (C0 at 18, C1 and C2 at 16, C3 and C4 at
 * 0). Every other position and width is assumed. The lemmas at the end
 * prove the fields of each register disjoint and wide enough for the
 * driver's values, and the read-back contracts depend on those widths.
 * The reset words are the literals the driver writes. The layer count 8
 * matches the eight per-layer interrupts of the driver's interrupt
 * enumeration; the CSC count 2 matches the YUV formats being available
 * only on layers 0 and 1.
 */
module DeviceRegs {
  // ---- Instance sizes ----

  /** Number of layers (`LCDIFV2_LAYER_COUNT`). */
  const LAYER_COUNT := 8
  /** Number of layers with a colour space converter (`LCDIFV2_CSC_COUNT`). */
  const CSC_COUNT := 2
  /** Number of interrupt domains (`INT[0]`, `INT[1]`). */
  const DOMAIN_COUNT := 2
  /** LUT entries per layer (`LCDIFV2_LUT_ENTRY_NUM`). */
  const LUT_ENTRY_NUM := 256
  /** Words of `CLUT_RAM`: one LUT per layer, back to back. */
  const CLUT_RAM_SIZE := LUT_ENTRY_NUM * LAYER_COUNT

  // ---- DISP_PARA ----

  const DISP_PARA_DISP_ON_MASK: bv32 := 0x8000_0000
  const DISP_PARA_LINE_PATTERN_MASK: bv32 := 0x3C00_0000
  const DISP_PARA_LINE_PATTERN_SHIFT: bv32 := 26

  // ---- CTRL (signal polarity and software reset) ----

  const CTRL_INV_HS_MASK: bv32 := 0x1
  const CTRL_INV_VS_MASK: bv32 := 0x2
  const CTRL_INV_DE_MASK: bv32 := 0x4
  const CTRL_INV_PXCK_MASK: bv32 := 0x8
  const CTRL_NEG_MASK: bv32 := 0x10
  const CTRL_SW_RESET_MASK: bv32 := 0x8000_0000

  // ---- DISP_SIZE, CTRLDESCL1, CTRLDESCL2 ----
  // Each packs two 16-bit driver arguments: DELTA_X, WIDTH and POSX start at
  // bit 0; DELTA_Y, HEIGHT and POSY start at bit 16.

  const HALF_LOW_MASK: bv32 := 0x0000_FFFF
  const HALF_HIGH_SHIFT: bv32 := 16

  // ---- HSYN_PARA and VSYN_PARA (same layout) ----

  const SYN_PARA_PW_MASK: bv32 := 0x7FC0_0000
  const SYN_PARA_PW_SHIFT: bv32 := 22
  const SYN_PARA_BP_MASK: bv32 := 0x000F_F800
  const SYN_PARA_BP_SHIFT: bv32 := 11
  const SYN_PARA_FP_MASK: bv32 := 0x0000_01FF
  const SYN_PARA_FP_SHIFT: bv32 := 0

  // ---- CTRLDESCL5 (layer control) ----

  const CTRLDESCL5_EN_MASK: bv32 := 0x8000_0000
  const CTRLDESCL5_SHADOW_LOAD_EN_MASK: bv32 := 0x4000_0000
  const CTRLDESCL5_BPP_MASK: bv32 := 0x0F00_0000
  const CTRLDESCL5_BPP_SHIFT: bv32 := 24
  const CTRLDESCL5_GLOBAL_ALPHA_MASK: bv32 := 0x00FF_0000
  const CTRLDESCL5_GLOBAL_ALPHA_SHIFT: bv32 := 16
  const CTRLDESCL5_YUV_FORMAT_MASK: bv32 := 0x0000_C000
  const CTRLDESCL5_YUV_FORMAT_SHIFT: bv32 := 14
  const CTRLDESCL5_PD_COLOR_MODE_MASK: bv32 := 0x0000_0200
  const CTRLDESCL5_PD_COLOR_MODE_SHIFT: bv32 := 9
  const CTRLDESCL5_PD_ALPHA_MODE_MASK: bv32 := 0x0000_0100
  const CTRLDESCL5_PD_ALPHA_MODE_SHIFT: bv32 := 8
  const CTRLDESCL5_PD_GLOBAL_ALPHA_MODE_MASK: bv32 := 0x0000_00C0
  const CTRLDESCL5_PD_GLOBAL_ALPHA_MODE_SHIFT: bv32 := 6
  const CTRLDESCL5_PD_FACTOR_MODE_MASK: bv32 := 0x0000_0030
  const CTRLDESCL5_PD_FACTOR_MODE_SHIFT: bv32 := 4
  const CTRLDESCL5_SAFETY_EN_MASK: bv32 := 0x0000_0008
  const CTRLDESCL5_AB_MODE_MASK: bv32 := 0x0000_0003
  const CTRLDESCL5_AB_MODE_SHIFT: bv32 := 0

  /** The field group a pixel format occupies. */
  const PIXEL_FORMAT_FIELDS: bv32 := CTRLDESCL5_BPP_MASK | CTRLDESCL5_YUV_FORMAT_MASK

  /** The seven fields the blend configuration clears and rewrites. */
  const BLEND_FIELDS: bv32 :=
    CTRLDESCL5_GLOBAL_ALPHA_MASK | CTRLDESCL5_AB_MODE_MASK | CTRLDESCL5_PD_FACTOR_MODE_MASK |
    CTRLDESCL5_PD_ALPHA_MODE_MASK | CTRLDESCL5_PD_COLOR_MODE_MASK |
    CTRLDESCL5_PD_GLOBAL_ALPHA_MODE_MASK | CTRLDESCL5_SAFETY_EN_MASK

  // ---- CSC_COEF0..2 ----

  const CSC_COEF0_ENABLE_MASK: bv32 := 0x8000_0000
  const CSC_COEF0_YCBCR_MODE_MASK: bv32 := 0x4000_0000
  const CSC_COEF0_C0_MASK: bv32 := 0x1FFC_0000
  const CSC_COEF0_C0_SHIFT: bv32 := 18
  const CSC_COEF0_UV_OFFSET_MASK: bv32 := 0x0003_FE00
  const CSC_COEF0_UV_OFFSET_SHIFT: bv32 := 9
  const CSC_COEF0_Y_OFFSET_MASK: bv32 := 0x0000_01FF
  const CSC_COEF0_Y_OFFSET_SHIFT: bv32 := 0
  const CSC_COEF1_C1_MASK: bv32 := 0x07FF_0000
  const CSC_COEF1_C1_SHIFT: bv32 := 16
  const CSC_COEF1_C4_MASK: bv32 := 0x0000_07FF
  const CSC_COEF1_C4_SHIFT: bv32 := 0
  const CSC_COEF2_C2_MASK: bv32 := 0x07FF_0000
  const CSC_COEF2_C2_SHIFT: bv32 := 16
  const CSC_COEF2_C3_MASK: bv32 := 0x0000_07FF
  const CSC_COEF2_C3_SHIFT: bv32 := 0

  // ---- CLUT_LOAD ----

  const CLUT_LOAD_CLUT_UPDATE_EN_MASK: bv32 := 0x1
  const CLUT_LOAD_SEL_CLUT_NUM_MASK: bv32 := 0x70
  const CLUT_LOAD_SEL_CLUT_NUM_SHIFT: bv32 := 4

  // ---- WR_CTRL (store) ----

  const WR_CTRL_ENABLE_MASK: bv32 := 0x1
  const WR_CTRL_REPEAT_MASK: bv32 := 0x2
  const WR_CTRL_BPP_MASK: bv32 := 0x1C
  const WR_CTRL_BPP_SHIFT: bv32 := 2

  // ---- Field macros ----
  // Each places a value at its field's shift and cuts it to the field's mask,
  // as the `LCDIFV2_<REG>_<FIELD>(x)` macros do; a value that fits the field
  // reads back unchanged.

  /** `LCDIFV2_DISP_PARA_LINE_PATTERN(x)` */
  function DispParaLinePattern(x: bv32): (r: bv32)
    ensures r & !DISP_PARA_LINE_PATTERN_MASK == 0
    ensures x <= 0xF ==> (r & DISP_PARA_LINE_PATTERN_MASK) >> DISP_PARA_LINE_PATTERN_SHIFT == x
  {
    (x << DISP_PARA_LINE_PATTERN_SHIFT) & DISP_PARA_LINE_PATTERN_MASK
  }

  /** `LCDIFV2_CTRLDESCL5_BPP(x)` */
  function Descl5Bpp(x: bv32): (r: bv32)
    ensures r & !CTRLDESCL5_BPP_MASK == 0
    ensures x <= 0xF ==> (r & CTRLDESCL5_BPP_MASK) >> CTRLDESCL5_BPP_SHIFT == x
  {
    (x << CTRLDESCL5_BPP_SHIFT) & CTRLDESCL5_BPP_MASK
  }

  /** `LCDIFV2_CTRLDESCL5_YUV_FORMAT(x)` */
  function Descl5YuvFormat(x: bv32): (r: bv32)
    ensures r & !CTRLDESCL5_YUV_FORMAT_MASK == 0
    ensures x <= 0x3 ==> (r & CTRLDESCL5_YUV_FORMAT_MASK) >> CTRLDESCL5_YUV_FORMAT_SHIFT == x
  {
    (x << CTRLDESCL5_YUV_FORMAT_SHIFT) & CTRLDESCL5_YUV_FORMAT_MASK
  }

  /** `LCDIFV2_CTRLDESCL5_GLOBAL_ALPHA(x)` */
  function Descl5GlobalAlpha(x: bv32): (r: bv32)
    ensures r & !CTRLDESCL5_GLOBAL_ALPHA_MASK == 0
    ensures x <= 0xFF ==> (r & CTRLDESCL5_GLOBAL_ALPHA_MASK) >> CTRLDESCL5_GLOBAL_ALPHA_SHIFT == x
  {
    (x << CTRLDESCL5_GLOBAL_ALPHA_SHIFT) & CTRLDESCL5_GLOBAL_ALPHA_MASK
  }

  /** `LCDIFV2_CTRLDESCL5_AB_MODE(x)` */
  function Descl5AbMode(x: bv32): (r: bv32)
    ensures r & !CTRLDESCL5_AB_MODE_MASK == 0
    ensures x <= 0x3 ==> (r & CTRLDESCL5_AB_MODE_MASK) >> CTRLDESCL5_AB_MODE_SHIFT == x
  {
    (x << CTRLDESCL5_AB_MODE_SHIFT) & CTRLDESCL5_AB_MODE_MASK
  }

  /** `LCDIFV2_CTRLDESCL5_PD_FACTOR_MODE(x)` */
  function Descl5PdFactorMode(x: bv32): (r: bv32)
    ensures r & !CTRLDESCL5_PD_FACTOR_MODE_MASK == 0
    ensures x <= 0x3 ==> (r & CTRLDESCL5_PD_FACTOR_MODE_MASK) >> CTRLDESCL5_PD_FACTOR_MODE_SHIFT == x
  {
    (x << CTRLDESCL5_PD_FACTOR_MODE_SHIFT) & CTRLDESCL5_PD_FACTOR_MODE_MASK
  }

  /** `LCDIFV2_CTRLDESCL5_PD_ALPHA_MODE(x)` */
  function Descl5PdAlphaMode(x: bv32): (r: bv32)
    ensures r & !CTRLDESCL5_PD_ALPHA_MODE_MASK == 0
    ensures x <= 0x1 ==> (r & CTRLDESCL5_PD_ALPHA_MODE_MASK) >> CTRLDESCL5_PD_ALPHA_MODE_SHIFT == x
  {
    (x << CTRLDESCL5_PD_ALPHA_MODE_SHIFT) & CTRLDESCL5_PD_ALPHA_MODE_MASK
  }

  /** `LCDIFV2_CTRLDESCL5_PD_COLOR_MODE(x)` */
  function Descl5PdColorMode(x: bv32): (r: bv32)
    ensures r & !CTRLDESCL5_PD_COLOR_MODE_MASK == 0
    ensures x <= 0x1 ==> (r & CTRLDESCL5_PD_COLOR_MODE_MASK) >> CTRLDESCL5_PD_COLOR_MODE_SHIFT == x
  {
    (x << CTRLDESCL5_PD_COLOR_MODE_SHIFT) & CTRLDESCL5_PD_COLOR_MODE_MASK
  }

  /** `LCDIFV2_CTRLDESCL5_PD_GLOBAL_ALPHA_MODE(x)` */
  function Descl5PdGlobalAlphaMode(x: bv32): (r: bv32)
    ensures r & !CTRLDESCL5_PD_GLOBAL_ALPHA_MODE_MASK == 0
    ensures x <= 0x3 ==> (r & CTRLDESCL5_PD_GLOBAL_ALPHA_MODE_MASK) >> CTRLDESCL5_PD_GLOBAL_ALPHA_MODE_SHIFT == x
  {
    (x << CTRLDESCL5_PD_GLOBAL_ALPHA_MODE_SHIFT) & CTRLDESCL5_PD_GLOBAL_ALPHA_MODE_MASK
  }

  /** `LCDIFV2_CSC_COEF0_C0(x)` */
  function CscCoef0C0(x: bv32): (r: bv32)
    ensures r & !CSC_COEF0_C0_MASK == 0
  {
    (x << CSC_COEF0_C0_SHIFT) & CSC_COEF0_C0_MASK
  }

  /** `LCDIFV2_CSC_COEF0_UV_OFFSET(x)` */
  function CscCoef0UvOffset(x: bv32): (r: bv32)
    ensures r & !CSC_COEF0_UV_OFFSET_MASK == 0
  {
    (x << CSC_COEF0_UV_OFFSET_SHIFT) & CSC_COEF0_UV_OFFSET_MASK
  }

  /** `LCDIFV2_CSC_COEF0_Y_OFFSET(x)` */
  function CscCoef0YOffset(x: bv32): (r: bv32)
    ensures r & !CSC_COEF0_Y_OFFSET_MASK == 0
  {
    (x << CSC_COEF0_Y_OFFSET_SHIFT) & CSC_COEF0_Y_OFFSET_MASK
  }

  /** `LCDIFV2_CSC_COEF1_C1(x)` */
  function CscCoef1C1(x: bv32): (r: bv32)
    ensures r & !CSC_COEF1_C1_MASK == 0
  {
    (x << CSC_COEF1_C1_SHIFT) & CSC_COEF1_C1_MASK
  }

  /** `LCDIFV2_CSC_COEF1_C4(x)` */
  function CscCoef1C4(x: bv32): (r: bv32)
    ensures r & !CSC_COEF1_C4_MASK == 0
  {
    (x << CSC_COEF1_C4_SHIFT) & CSC_COEF1_C4_MASK
  }

  /** `LCDIFV2_CSC_COEF2_C2(x)` */
  function CscCoef2C2(x: bv32): (r: bv32)
    ensures r & !CSC_COEF2_C2_MASK == 0
  {
    (x << CSC_COEF2_C2_SHIFT) & CSC_COEF2_C2_MASK
  }

  /** `LCDIFV2_CSC_COEF2_C3(x)` */
  function CscCoef2C3(x: bv32): (r: bv32)
    ensures r & !CSC_COEF2_C3_MASK == 0
  {
    (x << CSC_COEF2_C3_SHIFT) & CSC_COEF2_C3_MASK
  }

  /** `LCDIFV2_CLUT_LOAD_SEL_CLUT_NUM(x)` */
  function ClutLoadSelClutNum(x: bv32): (r: bv32)
    ensures r & !CLUT_LOAD_SEL_CLUT_NUM_MASK == 0
    ensures x <= 0x7 ==> (r & CLUT_LOAD_SEL_CLUT_NUM_MASK) >> CLUT_LOAD_SEL_CLUT_NUM_SHIFT == x
  {
    (x << CLUT_LOAD_SEL_CLUT_NUM_SHIFT) & CLUT_LOAD_SEL_CLUT_NUM_MASK
  }

  /** `LCDIFV2_WR_CTRL_BPP(x)` */
  function WrCtrlBpp(x: bv32): (r: bv32)
    ensures r & !WR_CTRL_BPP_MASK == 0
    ensures x <= 0x7 ==> (r & WR_CTRL_BPP_MASK) >> WR_CTRL_BPP_SHIFT == x
  {
    (x << WR_CTRL_BPP_SHIFT) & WR_CTRL_BPP_MASK
  }

  // ---- Reset words written by the driver ----

  const DISP_PARA_RESET: bv32 := 0
  const CTRL_RESET: bv32 := 0x8000_0000
  const DISP_SIZE_RESET: bv32 := 0
  const HSYN_PARA_RESET: bv32 := 0x00C0_1803
  const VSYN_PARA_RESET: bv32 := 0x00C0_1803
  const INT_ENABLE_RESET: bv32 := 0
  const PDI_PARA_RESET: bv32 := 0x0000_1000
  const WR_CTRL_RESET: bv32 := 0x007C_0000
  const BASE_ADDR_RESET: bv32 := 0
  const PITCH_RESET: bv32 := 0
  const CSC_COEF0_RESET: bv32 := 0x0400_0000
  const CSC_COEF1_RESET: bv32 := 0x0123_0208
  const CSC_COEF2_RESET: bv32 := 0x076B_079C
  /** Written to INT_STATUS to clear every pending flag. */
  const INT_STATUS_CLEAR_ALL: bv32 := 0xFFFF_FFFF

  /** The CTRLDESCL5 fields are pairwise disjoint, and the control bits lie outside both field groups. */
  lemma Ctrldescl5FieldsDisjoint()
    ensures PIXEL_FORMAT_FIELDS & BLEND_FIELDS == 0
    ensures CTRLDESCL5_BPP_MASK & CTRLDESCL5_YUV_FORMAT_MASK == 0
    ensures (CTRLDESCL5_EN_MASK | CTRLDESCL5_SHADOW_LOAD_EN_MASK) & (PIXEL_FORMAT_FIELDS | BLEND_FIELDS) == 0
    ensures CTRLDESCL5_EN_MASK & CTRLDESCL5_SHADOW_LOAD_EN_MASK == 0
    ensures CTRLDESCL5_GLOBAL_ALPHA_MASK & (CTRLDESCL5_AB_MODE_MASK | CTRLDESCL5_PD_FACTOR_MODE_MASK |
              CTRLDESCL5_PD_ALPHA_MODE_MASK | CTRLDESCL5_PD_COLOR_MODE_MASK |
              CTRLDESCL5_PD_GLOBAL_ALPHA_MODE_MASK | CTRLDESCL5_SAFETY_EN_MASK) == 0
    ensures CTRLDESCL5_SAFETY_EN_MASK & (CTRLDESCL5_AB_MODE_MASK | CTRLDESCL5_PD_FACTOR_MODE_MASK |
              CTRLDESCL5_PD_ALPHA_MODE_MASK | CTRLDESCL5_PD_COLOR_MODE_MASK |
              CTRLDESCL5_PD_GLOBAL_ALPHA_MODE_MASK) == 0
    ensures CTRLDESCL5_AB_MODE_MASK & (CTRLDESCL5_PD_FACTOR_MODE_MASK | CTRLDESCL5_PD_ALPHA_MODE_MASK |
              CTRLDESCL5_PD_COLOR_MODE_MASK | CTRLDESCL5_PD_GLOBAL_ALPHA_MODE_MASK) == 0
    ensures CTRLDESCL5_PD_FACTOR_MODE_MASK & (CTRLDESCL5_PD_ALPHA_MODE_MASK | CTRLDESCL5_PD_COLOR_MODE_MASK |
              CTRLDESCL5_PD_GLOBAL_ALPHA_MODE_MASK) == 0
    ensures CTRLDESCL5_PD_GLOBAL_ALPHA_MODE_MASK & (CTRLDESCL5_PD_ALPHA_MODE_MASK | CTRLDESCL5_PD_COLOR_MODE_MASK) == 0
    ensures CTRLDESCL5_PD_ALPHA_MODE_MASK & CTRLDESCL5_PD_COLOR_MODE_MASK == 0
  {
  }

  /** The store control bits the driver touches are disjoint from each other. */
  lemma WrCtrlFieldsDisjoint()
    ensures WR_CTRL_ENABLE_MASK & WR_CTRL_REPEAT_MASK == 0
    ensures (WR_CTRL_ENABLE_MASK | WR_CTRL_REPEAT_MASK) & WR_CTRL_BPP_MASK == 0
  {
  }

  /** The timing fields are disjoint and each is wide enough for an 8-bit count. */
  lemma SynParaFieldsDisjoint()
    ensures SYN_PARA_PW_MASK & SYN_PARA_BP_MASK == 0
    ensures (SYN_PARA_PW_MASK | SYN_PARA_BP_MASK) & SYN_PARA_FP_MASK == 0
    ensures (0xFF << SYN_PARA_PW_SHIFT) & !SYN_PARA_PW_MASK == 0
    ensures (0xFF << SYN_PARA_BP_SHIFT) & !SYN_PARA_BP_MASK == 0
    ensures (0xFF << SYN_PARA_FP_SHIFT) & !SYN_PARA_FP_MASK == 0
  {
  }
}
