# LCDIF v2 display controller driver, modelled in Dafny

This project models the MCUXpresso SDK driver for the NXP LCDIF v2 display
controller of the i.MX RT1170 (`fsl_lcdifv2.h`, `fsl_lcdifv2.c`). The driver
programs a memory-mapped register file. It sets the panel size, sync timing
and polarity; configures up to eight overlay layers (size, position, source
buffer, pixel format, alpha blending, colour-space conversion and palette);
configures and starts the store (write-back) path; and masks, reads and
clears interrupts in two CPU domains.

The model has five modules:

- `Bits` (`bits.dfy`): the read-modify-write idioms `reg |= m` and `reg &= ~m`.
- `DeviceRegs` (`device_regs.dfy`): the register field masks and shifts, the
  field-packing macros, the layer/CSC/domain counts and the reset words.
  The device header that defines the masks is not part of this model. The
  driver's reset words fix some positions: HSYN_PARA/VSYN_PARA (PW at bit
  22, BP at 11, FP at 0) and the CSC words (C0 at 18, C1 and C2 at 16, C3
  and C4 at 0). Every other position and width is assumed. The disjointness
  of the fields the driver combines is proved, and each field is proved wide
  enough for the values the driver writes.
- `Lcdifv2Types` (`lcdifv2_types.dfy`): the driver's public enumerations
  with their register encodings, the interrupt bits and the configuration
  records. `U8` and `U16` are the C `uint8_t`/`uint16_t` argument types,
  held in 32-bit words.
- `Lcdifv2Words` (`lcdifv2_words.dfy`): each register word the driver
  computes, as a function of the old word and the caller's configuration.
  Each comes with contracts that say what the word means field by field,
  plus the round-trip, idempotence and commutation lemmas about those words.
- `Lcdifv2` (`lcdifv2.dfy`): the peripheral as a class. Its fields are the
  registers: `DISP_PARA`, `CTRL`, `DISP_SIZE`, `HSYN_PARA`, `VSYN_PARA`,
  `PDI_PARA`, `WR_CTRL`, `BASE_ADDR`, `PITCH` and `CLUT_LOAD`. It also has
  three arrays: `LAYER[8]` (CTRLDESCL1..6 and CSC_COEF0..2), `INT[2]`
  (INT_ENABLE, INT_STATUS) and the 2048-word `CLUT_RAM`. Every driver
  entry point is a method. Its `modifies` clause names the scalar registers
  it writes one by one, but an array of registers only as a whole: a layer
  method may modify all of `LAYER`, an interrupt method all of `INT`, and
  the reset may modify the CSC words of layers 2..7. Its `ensures` narrows
  that frame: it gives the new value of each register the C code writes, in
  terms of the `Lcdifv2Words` functions, and says that every other layer,
  word or domain is unchanged.

## Model

| member | source | states |
|---|---|---|
| Bits.SetBits | devices/MIMXRT1176/drivers/fsl_lcdifv2.h:330 | `reg \|= m` sets every bit of `m` and keeps every other bit |
| Bits.ClearBits | devices/MIMXRT1176/drivers/fsl_lcdifv2.h:334 | `reg &= ~m` clears every bit of `m` and keeps every other bit |
| Bits.SetBitsIdempotent | devices/MIMXRT1176/drivers/fsl_lcdifv2.h:485-511 | setting the same bits twice (EnableLayer(true), TriggerLayerShadowLoad, EnableDisplay(true)) is setting them once |
| Bits.ClearBitsIdempotent | devices/MIMXRT1176/drivers/fsl_lcdifv2.h:485-495 | clearing the same bits twice (EnableLayer(false), EnableDisplay(false)) is clearing them once |
| Bits.ClearAfterSet | devices/MIMXRT1176/drivers/fsl_lcdifv2.h:352-367 | DisableInterrupts after EnableInterrupts with the same mask leaves old AND NOT mask |
| DeviceRegs.Ctrldescl5FieldsDisjoint | devices/MIMXRT1176/drivers/fsl_lcdifv2.c:361-370 | the CTRLDESCL5 fields the driver combines are pairwise disjoint, including all pairs of AB_MODE and the four PD_* mode fields, and the pixel-format and blend groups do not overlap |
| DeviceRegs.WrCtrlFieldsDisjoint | devices/MIMXRT1176/drivers/fsl_lcdifv2.c:389-399 | WR_CTRL's ENABLE, REPEAT and BPP fields are pairwise disjoint |
| DeviceRegs.SynParaFieldsDisjoint | devices/MIMXRT1176/drivers/fsl_lcdifv2.c:195-199 | the pulse-width, back-porch and front-porch fields of HSYN_PARA/VSYN_PARA are pairwise disjoint |
| Lcdifv2Types.FifoEmptyInterrupt | devices/MIMXRT1176/drivers/fsl_lcdifv2.h:30 | the FIFO-empty interrupt of layer l is the single bit l+24, inside the top byte |
| Lcdifv2Types.DmaDoneInterrupt | devices/MIMXRT1176/drivers/fsl_lcdifv2.h:32 | the DMA-done interrupt of layer l is the single bit l+16, inside the third byte |
| Lcdifv2Types.DmaErrorInterrupt | devices/MIMXRT1176/drivers/fsl_lcdifv2.h:34 | the DMA-error interrupt of layer l is the single bit l+8, inside the second byte |
| Lcdifv2Types.InterruptBitsDistinct | devices/MIMXRT1176/drivers/fsl_lcdifv2.h:64-92 | the 24 per-layer interrupt bits are pairwise disjoint and disjoint from the five fixed bits 0, 1, 2, 4, 5 (together 0x37) |
| Lcdifv2Types.LineOrder.Code | devices/MIMXRT1176/drivers/fsl_lcdifv2.h:96-104 | line orders RGB..BGR are encoded 0..5 |
| Lcdifv2Types.LineOrderOf | devices/MIMXRT1176/drivers/fsl_lcdifv2.h:96-104 | a LINE_PATTERN code names a line order exactly when it is below 6, and that order encodes back to the code |
| Lcdifv2Types.PixelFormatCode | devices/MIMXRT1176/drivers/fsl_lcdifv2.h:131-151 | each pixel format's encoding lies inside the BPP/YUV_FORMAT field group, and its BPP field is 7 exactly for the YUV formats |
| Lcdifv2Types.PixelFormatCodeInjective | devices/MIMXRT1176/drivers/fsl_lcdifv2.h:131-151 | distinct pixel formats have distinct encodings |
| Lcdifv2Types.YuvFormatsShareBpp | devices/MIMXRT1176/drivers/fsl_lcdifv2.h:139-146 | the four YUV formats share BPP 7 and differ only in YUV_FORMAT 0..3; every other format has YUV_FORMAT 0 and BPP at most 10 |
| Lcdifv2Types.AlphaMode.Code | devices/MIMXRT1176/drivers/fsl_lcdifv2.h:163-169 | alpha modes Disable, Override, Embedded, PorterDuff are encoded below 4 |
| Lcdifv2Types.AlphaModeOf | devices/MIMXRT1176/drivers/fsl_lcdifv2.h:163-169 | an AB_MODE code names an alpha mode exactly when it is below 4, that mode encodes back to the code, and code 0 is AlphaDisable alone |
| Lcdifv2Types.PdAlphaMode.Code | devices/MIMXRT1176/drivers/fsl_lcdifv2.h:174-178 | Porter-Duff alpha modes are encoded below 2 |
| Lcdifv2Types.PdAlphaModeOf | devices/MIMXRT1176/drivers/fsl_lcdifv2.h:174-178 | a PD_ALPHA_MODE code names a mode exactly when it is below 2, and that mode encodes back to the code |
| Lcdifv2Types.PdColorMode.Code | devices/MIMXRT1176/drivers/fsl_lcdifv2.h:183-187 | Porter-Duff colour modes are encoded below 2 |
| Lcdifv2Types.PdColorModeOf | devices/MIMXRT1176/drivers/fsl_lcdifv2.h:183-187 | a PD_COLOR_MODE code names a mode exactly when it is below 2, and that mode encodes back to the code |
| Lcdifv2Types.PdGlobalAlphaMode.Code | devices/MIMXRT1176/drivers/fsl_lcdifv2.h:192-197 | Porter-Duff global-alpha modes are encoded below 3 |
| Lcdifv2Types.PdGlobalAlphaModeOf | devices/MIMXRT1176/drivers/fsl_lcdifv2.h:192-197 | a PD_GLOBAL_ALPHA_MODE code names a mode exactly when it is below 3, and that mode encodes back to the code |
| Lcdifv2Types.PdFactorMode.Code | devices/MIMXRT1176/drivers/fsl_lcdifv2.h:202-208 | Porter-Duff factor modes are encoded below 4 |
| Lcdifv2Types.PdFactorModeOf | devices/MIMXRT1176/drivers/fsl_lcdifv2.h:202-208 | a PD_FACTOR_MODE code names a mode exactly when it is below 4, and that mode encodes back to the code |
| Lcdifv2Types.StorePixelFormat.Code | devices/MIMXRT1176/drivers/fsl_lcdifv2.h:232-236 | store formats ARGB8888 and RGB888 are encoded below 2 |
| Lcdifv2Types.StorePixelFormatOf | devices/MIMXRT1176/drivers/fsl_lcdifv2.h:232-236 | a WR_CTRL BPP code names a store format exactly when it is below 2, and that format encodes back to the code |
| Lcdifv2Types.ModeCodesRoundTrip | devices/MIMXRT1176/drivers/fsl_lcdifv2.h:96-236 | every enumeration's encoding is one-to-one: decoding a value's code gives the value back; AB_MODE 0 is AlphaDisable and nothing else |
| Lcdifv2Words.PackHalves | devices/MIMXRT1176/drivers/fsl_lcdifv2.h:435-453 | the packed DISP_SIZE/CTRLDESCL1/CTRLDESCL2 word reads back the first value in the low half and the second in the high half |
| Lcdifv2Words.PackHalvesInjective | devices/MIMXRT1176/drivers/fsl_lcdifv2.h:435-453 | a packed size or position word determines both of its halves |
| Lcdifv2Words.SynPara | devices/MIMXRT1176/drivers/fsl_lcdifv2.c:195-199 | the HSYN_PARA/VSYN_PARA word reads back pulse width, back porch and front porch from their fields and sets nothing else |
| Lcdifv2Words.DisplayRegistersFor | devices/MIMXRT1176/drivers/fsl_lcdifv2.c:187-204 | the words written for a display configuration: DISP_PARA holds only the line pattern (DISP_ON clear), CTRL is the polarity flags |
| Lcdifv2Words.SynParaRoundTrip | devices/MIMXRT1176/drivers/fsl_lcdifv2.c:195-199 | reading a sync word back gives the pulse width and porches it was built from |
| Lcdifv2Words.DisplayConfigRoundTrip | devices/MIMXRT1176/drivers/fsl_lcdifv2.c:187-204 | reading the display registers back gives exactly the configuration that was written |
| Lcdifv2Words.ResetTimingIsDefaultTiming | devices/MIMXRT1176/drivers/fsl_lcdifv2.c:78-79 | the HSYN_PARA/VSYN_PARA reset word 0x00C01803 is the timing word of pulse width, back porch and front porch 3 |
| Lcdifv2Words.CscCoefficients | devices/MIMXRT1176/drivers/fsl_lcdifv2.c:215-255 | Disable gives three zero words; the other modes set ENABLE; only YCbCr sets YCBCR_MODE and non-zero offsets; each coefficient field holds the driver's constant for the mode; no bit outside the named fields is set, so each of the three whole words is fixed |
| Lcdifv2Words.CscResetWords | devices/MIMXRT1176/drivers/fsl_lcdifv2.c:97-102 | the CSC reset words leave the converter off and hold C0 = 0x100 and the YUV2RGB coefficients, except C3 = 0x79C |
| Lcdifv2Words.PixelFormatDescriptor | devices/MIMXRT1176/drivers/fsl_lcdifv2.c:271-277 | CTRLDESCL5 takes the format in its BPP/YUV_FORMAT group, keeps every bit outside that group and SAFETY_EN, and has SAFETY_EN set iff it was set or AB_MODE is 0 |
| Lcdifv2Words.BlendFieldBits | devices/MIMXRT1176/drivers/fsl_lcdifv2.c:365-370 | the OR of the blend fields stays inside the blend field group and leaves SAFETY_EN clear |
| Lcdifv2Words.BlendDescriptor | devices/MIMXRT1176/drivers/fsl_lcdifv2.c:354-378 | CTRLDESCL5 keeps every non-blend bit, each blend field reads back the configuration, and SAFETY_EN is set iff alpha blending is disabled |
| Lcdifv2Words.BlendConfigRoundTrip | devices/MIMXRT1176/drivers/fsl_lcdifv2.c:354-378 | reading the blend fields of the written CTRLDESCL5 back gives exactly the configuration, whatever the word held before |
| Lcdifv2Words.BlendDescriptorIdempotent | devices/MIMXRT1176/drivers/fsl_lcdifv2.c:354-378 | applying the same blend configuration twice gives the word of applying it once |
| Lcdifv2Words.BlendKeepsLayerControl | devices/MIMXRT1176/drivers/fsl_lcdifv2.c:361-364 | the blend configuration keeps EN, SHADOW_LOAD_EN, BPP and YUV_FORMAT |
| Lcdifv2Words.BufferAndBlendCommute | devices/MIMXRT1176/drivers/fsl_lcdifv2.c:264-378 | configuring a layer's buffer and its blend gives the same CTRLDESCL5 in either order |
| Lcdifv2Words.StoreFormatWrCtrl | devices/MIMXRT1176/drivers/fsl_lcdifv2.c:294 | WR_CTRL's BPP field reads back the store format; every other bit is kept |
| Lcdifv2Words.StartStoreWrCtrl | devices/MIMXRT1176/drivers/fsl_lcdifv2.c:389-399 | ENABLE is set; REPEAT is set if requested and otherwise keeps its old value (it is never cleared); no other bit moves |
| Lcdifv2Words.StartStoreKeepsFormat | devices/MIMXRT1176/drivers/fsl_lcdifv2.c:288-399 | WR_CTRL reads back the configured store format, both after the configuration and after starting the store |
| Lcdifv2Words.ClutLoadWord | devices/MIMXRT1176/drivers/fsl_lcdifv2.c:326-333 | CLUT_LOAD selects the layer, has CLUT_UPDATE_EN iff a shadow load is requested, and nothing else |
| Lcdifv2Words.LutFill | devices/MIMXRT1176/drivers/fsl_lcdifv2.c:336-339 | after the copy loop, entries [base, base+count) hold the data in order and every other entry is unchanged |
| Lcdifv2Words.AsWrittenLastEntryUnreachable | devices/MIMXRT1176/drivers/fsl_lcdifv2.c:315-339 | under the driver's count bound, no upload changes palette entry 255 of the layer, and a full table of 256 entries is refused |
| Lcdifv2Words.CorrectedFullTableWritten | devices/MIMXRT1176/drivers/fsl_lcdifv2.c:336-339 | under the corrected bound, a 256-entry upload sets every entry of the layer's table and no entry of another layer |
| Lcdifv2.DescriptorsCleared | devices/MIMXRT1176/drivers/fsl_lcdifv2.c:87-95 | all six descriptor words of a layer become zero and its CSC words are kept |
| Lcdifv2.CscAtReset | devices/MIMXRT1176/drivers/fsl_lcdifv2.c:97-102 | a layer's CSC words take the reset values and its descriptors are kept |
| Lcdifv2.DisplayGetDefaultConfig | devices/MIMXRT1176/drivers/fsl_lcdifv2.c:164-179 | the default is size 0×0, all six pulse/porch values 3, polarity flags 0 and RGB order; its timing words equal the reset timing words |
| Lcdifv2.Lcdifv2.constructor | devices/MIMXRT1176/drivers/fsl_lcdifv2.c:75-106 | a fresh register file holds the reset values, with CTRL in soft reset |
| Lcdifv2.Lcdifv2.ResetLayers | devices/MIMXRT1176/drivers/fsl_lcdifv2.c:87-102 | every layer's CTRLDESCL1..6 become 0; layers 0 and 1 get the CSC reset words; the CSC words of layers 2..7 are kept |
| Lcdifv2.Lcdifv2.ResetRegister | devices/MIMXRT1176/drivers/fsl_lcdifv2.c:71-107 | every register written holds its literal reset value; CTRL = 0x80000000; both INT_ENABLE = 0 and INT_STATUS = all ones; CLUT_LOAD and CLUT_RAM are not touched |
| Lcdifv2.Lcdifv2.Init | devices/MIMXRT1176/drivers/fsl_lcdifv2.c:116-128 | the reset defaults hold and CTRL = 0 |
| Lcdifv2.Lcdifv2.Deinit | devices/MIMXRT1176/drivers/fsl_lcdifv2.c:135-144 | the reset defaults hold and CTRL stays at 0x80000000 |
| Lcdifv2.Lcdifv2.Reset | devices/MIMXRT1176/drivers/fsl_lcdifv2.c:151-157 | the reset defaults hold and CTRL = 0 |
| Lcdifv2.Lcdifv2.SetDisplayConfig | devices/MIMXRT1176/drivers/fsl_lcdifv2.c:187-204 | the five display registers are the configuration's words, they read back as the configuration, and DISP_ON is clear |
| Lcdifv2.Lcdifv2.EnableDisplay | devices/MIMXRT1176/drivers/fsl_lcdifv2.h:326-336 | DISP_ON is set or cleared and every other DISP_PARA bit is kept; no other register changes |
| Lcdifv2.Lcdifv2.EnableInterrupts | devices/MIMXRT1176/drivers/fsl_lcdifv2.h:352-355 | INT_ENABLE of the domain becomes old OR mask; its INT_STATUS and the other domain are unchanged |
| Lcdifv2.Lcdifv2.DisableInterrupts | devices/MIMXRT1176/drivers/fsl_lcdifv2.h:364-367 | INT_ENABLE of the domain becomes old AND NOT mask; its INT_STATUS and the other domain are unchanged |
| Lcdifv2.Lcdifv2.GetInterruptStatus | devices/MIMXRT1176/drivers/fsl_lcdifv2.h:376-379 | returns the domain's INT_STATUS and changes nothing |
| Lcdifv2.Lcdifv2.ClearInterruptStatus | devices/MIMXRT1176/drivers/fsl_lcdifv2.h:388-391 | exactly the mask is written to the domain's INT_STATUS; the other domain is unchanged |
| Lcdifv2.Lcdifv2.SetCscMode | devices/MIMXRT1176/drivers/fsl_lcdifv2.c:215-255 | for a layer below CSC_COUNT, only that layer's three CSC words change, to the mode's coefficient words |
| Lcdifv2.Lcdifv2.SetLayerBufferConfig | devices/MIMXRT1176/drivers/fsl_lcdifv2.c:264-280 | CTRLDESCL3 becomes the stride and CTRLDESCL5 the pixel-format descriptor of its old value; nothing else in any layer changes |
| Lcdifv2.Lcdifv2.SetStoreBufferConfig | devices/MIMXRT1176/drivers/fsl_lcdifv2.c:288-295 | BASE_ADDR and PITCH take the configuration; only WR_CTRL's BPP field changes |
| Lcdifv2.Lcdifv2.SetLut | devices/MIMXRT1176/drivers/fsl_lcdifv2.c:312-345 | with CLUT_UPDATE_EN pending: Fail, and CLUT_LOAD and CLUT_RAM are unchanged; otherwise: Success, CLUT_LOAD selects the layer (with UPDATE_EN iff shadow load), and CLUT_RAM is the old table with [256·layer, 256·layer+count) replaced by the data |
| Lcdifv2.Lcdifv2.SetLayerBlendConfig | devices/MIMXRT1176/drivers/fsl_lcdifv2.c:354-378 | only the layer's CTRLDESCL5 changes, to the blend descriptor of its old value |
| Lcdifv2.Lcdifv2.StartStore | devices/MIMXRT1176/drivers/fsl_lcdifv2.c:389-399 | WR_CTRL becomes the start-store word of its old value; nothing else changes |
| Lcdifv2.Lcdifv2.SetLayerSize | devices/MIMXRT1176/drivers/fsl_lcdifv2.h:435-439 | only the layer's CTRLDESCL1 changes, to height in the high half and width in the low half |
| Lcdifv2.Lcdifv2.SetLayerOffset | devices/MIMXRT1176/drivers/fsl_lcdifv2.h:449-453 | only the layer's CTRLDESCL2 changes, to posY in the high half and posX in the low half |
| Lcdifv2.Lcdifv2.SetLayerBufferAddr | devices/MIMXRT1176/drivers/fsl_lcdifv2.h:473-476 | only the layer's CTRLDESCL4 changes, to the address |
| Lcdifv2.Lcdifv2.EnableLayer | devices/MIMXRT1176/drivers/fsl_lcdifv2.h:485-495 | only the EN bit of the layer's CTRLDESCL5 is set or cleared; other bits and layers are unchanged |
| Lcdifv2.Lcdifv2.TriggerLayerShadowLoad | devices/MIMXRT1176/drivers/fsl_lcdifv2.h:508-511 | only the SHADOW_LOAD_EN bit of the layer's CTRLDESCL5 is set; other bits and layers are unchanged |
| Lcdifv2.Lcdifv2.SetLayerBackGroundColor | devices/MIMXRT1176/drivers/fsl_lcdifv2.h:522-525 | only the layer's CTRLDESCL6 changes, to the colour |

## Left out

- Clock gating and the instance lookup (`LCDIFV2_GetInstance`, `CLOCK_EnableClock`, `CLOCK_DisableClock`) are calls into code outside the driver. Init and Deinit model only their register writes.
- Behaviour of the hardware that the driver does not code is not modelled: shadow registers promoted at vertical blanking, CLUT_UPDATE_EN or the store ENABLE bit clearing themselves, interrupt generation, and the write-1-to-clear meaning of INT_STATUS. INT_STATUS holds the last word written to it.
- The colour-conversion equations and the decimal meaning of the CSC coefficients are fixed-point numerics. Only the bit patterns written are modelled.
- Pixel compositing and Porter-Duff arithmetic are done by the hardware. The model covers only the mode fields that the driver encodes.
- The device header that defines the register masks, the shifts and the layer and CSC counts is not part of this model. The reset words fix the HSYN_PARA/VSYN_PARA positions (22/11/0) and the CSC positions (C0 at 18, C1 and C2 at 16, C3 and C4 at 0); every other position and width is assumed. `ResetTimingIsDefaultTiming`, `CscResetWords` and the timing words of `DisplayGetDefaultConfig` depend on the exact positions, and every read-back contract depends on the field widths. The layer count 8 is taken from the eight per-layer interrupts (fsl_lcdifv2.h:64-87), and the CSC count 2 from the YUV formats being limited to layers 0 and 1 (fsl_lcdifv2.h:140-147).
- Lcdifv2.Lcdifv2.SetLayerSize: the C code shifts a `uint16_t` promoted to `int` left by 16. For heights of 0x8000 and above this overflows a signed `int`. The model takes the 32-bit pattern that such compilers produce.
- Lcdifv2.Lcdifv2.SetLayerOffset: `offsetY` is shifted left by 16 in the same way and overflows a signed `int` for offsets of 0x8000 and above; the model takes the 32-bit pattern.
- Lcdifv2.Lcdifv2.SetDisplayConfig: the panel height is shifted left by 16 in the same way and overflows a signed `int` for heights of 0x8000 and above; the model takes the 32-bit pattern.
- Lcdifv2.Lcdifv2.SetLut admits count = LUT_ENTRY_NUM (256), the corrected bound of "## Findings"; the driver asserts count < 256. The as-written bound is kept as `LutCountAcceptedAsWritten`, with its consequence proved in `AsWrittenLastEntryUnreachable`.
- Layer and domain indices are `uint8_t` with no range check in the C code. The methods require them to be in range, because an out-of-range index writes outside the register block.
- Lcdifv2.Lcdifv2.SetCscMode requires a layer below CSC_COUNT (2), as the C code asserts; the function's own documentation suggests any layer.
- The header lists 14 pixel formats; all 14 are modelled.

## Findings

| source | as written | input that shows it | evidently intended | confidence | as-written member | corrected member |
|---|---|---|---|---|---|---|
| devices/MIMXRT1176/drivers/fsl_lcdifv2.c:315 | `assert(count < LCDIFV2_LUT_ENTRY_NUM)` admits at most 255 entries, so palette index 255 of a layer can never be loaded | `count = 256` (a full 8-bpp palette) fails the assertion; with any accepted count, entry 256·layer+255 keeps its old value | `count <= LCDIFV2_LUT_ENTRY_NUM`, a table of up to 256 entries | medium, not executed | Lcdifv2Words.AsWrittenLastEntryUnreachable | Lcdifv2Words.CorrectedFullTableWritten |
