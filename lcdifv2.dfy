/**
 * The LCDIF v2 peripheral as the driver sees it: a register file that the
 * driver's entry points read and write. Every method names the registers it
 * may change in its `modifies` clause and states their new values; the
 * meaning of those values is proved about the word functions it uses.
 */
module Lcdifv2 {
  import opened Bits
  import opened DeviceRegs
  import opened Lcdifv2Types
  import opened Lcdifv2Words

  /** The descriptor and CSC words of one layer. */
  datatype LayerRegs = LayerRegs(
    ctrlDescL1: bv32,  // height | width
    ctrlDescL2: bv32,  // posY | posX
    ctrlDescL3: bv32,  // stride in bytes
    ctrlDescL4: bv32,  // source buffer address
    ctrlDescL5: bv32,  // enable, shadow load, pixel format, blending
    ctrlDescL6: bv32,  // background colour
    cscCoef0: bv32,
    cscCoef1: bv32,
    cscCoef2: bv32)

  /** The interrupt registers of one CPU domain. */
  datatype IntRegs = IntRegs(enable: bv32, status: bv32)

  /** The driver's `status_t` results. */
  datatype Status = Success | Fail

  /** All six descriptor words of a layer are zero. */
  predicate DescriptorsZero(l: LayerRegs) {
    && l.ctrlDescL1 == 0 && l.ctrlDescL2 == 0 && l.ctrlDescL3 == 0
    && l.ctrlDescL4 == 0 && l.ctrlDescL5 == 0 && l.ctrlDescL6 == 0
  }

  /** A layer's six descriptor words zeroed, its CSC words kept. */
  function DescriptorsCleared(l: LayerRegs): (r: LayerRegs)
    ensures DescriptorsZero(r)
    ensures CscOf(r) == CscOf(l)
  {
    l.(ctrlDescL1 := 0, ctrlDescL2 := 0, ctrlDescL3 := 0, ctrlDescL4 := 0, ctrlDescL5 := 0, ctrlDescL6 := 0)
  }

  /** A layer's CSC words set to their reset values, its descriptors kept. */
  function CscAtReset(l: LayerRegs): (r: LayerRegs)
    ensures CscOf(r) == CscWords(CSC_COEF0_RESET, CSC_COEF1_RESET, CSC_COEF2_RESET)
    ensures r == l.(cscCoef0 := r.cscCoef0, cscCoef1 := r.cscCoef1, cscCoef2 := r.cscCoef2)
  {
    l.(cscCoef0 := CSC_COEF0_RESET, cscCoef1 := CSC_COEF1_RESET, cscCoef2 := CSC_COEF2_RESET)
  }

  /** The three CSC words of a layer. */
  function CscOf(l: LayerRegs): CscWords {
    CscWords(l.cscCoef0, l.cscCoef1, l.cscCoef2)
  }

  /** The interrupt state both domains are left in by a reset. */
  const INT_AT_RESET: IntRegs := IntRegs(INT_ENABLE_RESET, INT_STATUS_CLEAR_ALL)

  /** The default display configuration: no size, all timings 3, every signal active high, RGB order. */
  method DisplayGetDefaultConfig() returns (config: DisplayConfig)
    ensures config.panelWidth == 0 && config.panelHeight == 0
    ensures config.hsw == 3 && config.hfp == 3 && config.hbp == 3
    ensures config.vsw == 3 && config.vfp == 3 && config.vbp == 3
    ensures config.polarityFlags == 0
    ensures config.lineOrder == LineOrderRgb
    ensures DisplayRegistersFor(config).hsynPara == HSYN_PARA_RESET
    ensures DisplayRegistersFor(config).vsynPara == VSYN_PARA_RESET
  {
    config := DisplayConfig(
      panelWidth := 0, panelHeight := 0,
      hsw := 3, hfp := 3, hbp := 3,
      vsw := 3, vfp := 3, vbp := 3,
      polarityFlags := VSYNC_ACTIVE_HIGH | HSYNC_ACTIVE_HIGH | DATA_ENABLE_ACTIVE_HIGH |
                       DRIVE_DATA_ON_RISING_CLK_EDGE | DATA_ACTIVE_HIGH,
      lineOrder := LineOrderRgb);
    ResetTimingIsDefaultTiming();
  }

  class Lcdifv2 {
    var dispPara: bv32
    var ctrl: bv32
    var dispSize: bv32
    var hsynPara: bv32
    var vsynPara: bv32
    var pdiPara: bv32
    var wrCtrl: bv32
    var baseAddr: bv32
    var pitch: bv32
    var clutLoad: bv32

    /** LAYER[0..8). */
    const layer: array<LayerRegs>
    /** INT[0..2), one per CPU domain. */
    const intr: array<IntRegs>
    /** CLUT_RAM: 256 entries per layer, layer l at [256*l, 256*l + 256). */
    const clutRam: array<bv32>

    ghost predicate Valid()
      reads this
    {
      layer.Length == LAYER_COUNT && intr.Length == DOMAIN_COUNT && clutRam.Length == CLUT_RAM_SIZE
    }

    /** The display-level registers as one record. */
    function DisplayRegs(): (r: DisplayRegisters)
      reads this
    {
      DisplayRegisters(dispSize, hsynPara, vsynPara, dispPara, ctrl)
    }

    /**
     * Every register that ResetRegister writes holds its reset value,
     * except CTRL, which callers go on to change.
     */
    ghost predicate AtResetDefaults()
      requires Valid()
      reads this, layer, intr
    {
      && dispPara == DISP_PARA_RESET
      && dispSize == DISP_SIZE_RESET
      && hsynPara == HSYN_PARA_RESET
      && vsynPara == VSYN_PARA_RESET
      && pdiPara == PDI_PARA_RESET
      && wrCtrl == WR_CTRL_RESET
      && baseAddr == BASE_ADDR_RESET
      && pitch == PITCH_RESET
      && intr[0] == INT_AT_RESET && intr[1] == INT_AT_RESET
      && (forall k :: 0 <= k < LAYER_COUNT ==> DescriptorsZero(layer[k]))
      && (forall k :: 0 <= k < CSC_COUNT ==> CscOf(layer[k]) == CscWords(CSC_COEF0_RESET, CSC_COEF1_RESET, CSC_COEF2_RESET))
    }

    /** A peripheral whose register file is in its power-on state. */
    constructor ()
      ensures Valid() && AtResetDefaults() && ctrl == CTRL_RESET && clutLoad == 0
      ensures ctrl & CTRL_SW_RESET_MASK == CTRL_SW_RESET_MASK
      ensures fresh(layer) && fresh(intr) && fresh(clutRam)
    {
      dispPara, ctrl, dispSize := DISP_PARA_RESET, CTRL_RESET, DISP_SIZE_RESET;
      hsynPara, vsynPara, pdiPara := HSYN_PARA_RESET, VSYN_PARA_RESET, PDI_PARA_RESET;
      wrCtrl, baseAddr, pitch, clutLoad := WR_CTRL_RESET, BASE_ADDR_RESET, PITCH_RESET, 0;
      layer := new LayerRegs[LAYER_COUNT](_ => CscAtReset(LayerRegs(0, 0, 0, 0, 0, 0, 0, 0, 0)));
      intr := new IntRegs[DOMAIN_COUNT](_ => INT_AT_RESET);
      clutRam := new bv32[CLUT_RAM_SIZE](_ => 0);
    }

    /**
     * The two loops of ResetRegister: CTRLDESCL1..6 of every layer are
     * zeroed, then the CSC words of the layers with a converter take their
     * reset values. The CSC words of the other layers are kept.
     */
    method ResetLayers()
      requires Valid()
      modifies layer
      ensures forall k :: 0 <= k < LAYER_COUNT ==> DescriptorsZero(layer[k])
      ensures forall k :: 0 <= k < CSC_COUNT ==> CscOf(layer[k]) == CscWords(CSC_COEF0_RESET, CSC_COEF1_RESET, CSC_COEF2_RESET)
      ensures forall k :: CSC_COUNT <= k < LAYER_COUNT ==> CscOf(layer[k]) == CscOf(old(layer[k]))
    {
      for i := 0 to LAYER_COUNT
        invariant forall k :: 0 <= k < i ==> layer[k] == DescriptorsCleared(old(layer[k]))
        invariant forall k :: i <= k < LAYER_COUNT ==> layer[k] == old(layer[k])
      {
        layer[i] := DescriptorsCleared(layer[i]);
      }

      for i := 0 to CSC_COUNT
        invariant forall k :: 0 <= k < i ==> layer[k] == CscAtReset(DescriptorsCleared(old(layer[k])))
        invariant forall k :: i <= k < LAYER_COUNT ==> layer[k] == DescriptorsCleared(old(layer[k]))
      {
        layer[i] := CscAtReset(layer[i]);
      }
    }

    /**
     * Writes every register's reset value: the display and store registers,
     * both domains' interrupt enables (and clears their status), all six
     * descriptors of every layer and the CSC words of the layers that have
     * a converter. CTRL is left with its soft-reset bit set. CLUT_LOAD, the
     * LUT memory and the CSC words of the other layers are not touched.
     */
    method ResetRegister()
      requires Valid()
      modifies this`dispPara, this`ctrl, this`dispSize, this`hsynPara, this`vsynPara
      modifies this`pdiPara, this`wrCtrl, this`baseAddr, this`pitch, layer, intr
      ensures AtResetDefaults()
      ensures ctrl == CTRL_RESET && ctrl & CTRL_SW_RESET_MASK == CTRL_SW_RESET_MASK
      ensures forall k :: CSC_COUNT <= k < LAYER_COUNT ==> CscOf(layer[k]) == CscOf(old(layer[k]))
    {
      dispPara, ctrl, dispSize, hsynPara, vsynPara :=
        DISP_PARA_RESET, CTRL_RESET, DISP_SIZE_RESET, HSYN_PARA_RESET, VSYN_PARA_RESET;
      intr[0] := intr[0].(enable := INT_ENABLE_RESET);
      intr[1] := intr[1].(enable := INT_ENABLE_RESET);
      pdiPara, wrCtrl, baseAddr, pitch := PDI_PARA_RESET, WR_CTRL_RESET, BASE_ADDR_RESET, PITCH_RESET;

      ResetLayers();

      intr[0] := intr[0].(status := INT_STATUS_CLEAR_ALL);
      intr[1] := intr[1].(status := INT_STATUS_CLEAR_ALL);
    }

    /** Resets every register and takes the controller out of reset (CTRL = 0). */
    method Init()
      requires Valid()
      modifies this`dispPara, this`ctrl, this`dispSize, this`hsynPara, this`vsynPara
      modifies this`pdiPara, this`wrCtrl, this`baseAddr, this`pitch, layer, intr
      ensures AtResetDefaults()
      ensures ctrl == 0
      ensures forall k :: CSC_COUNT <= k < LAYER_COUNT ==> CscOf(layer[k]) == CscOf(old(layer[k]))
    {
      ResetRegister();
      ctrl := 0;
    }

    /** Resets every register and leaves the controller held in soft reset. */
    method Deinit()
      requires Valid()
      modifies this`dispPara, this`ctrl, this`dispSize, this`hsynPara, this`vsynPara
      modifies this`pdiPara, this`wrCtrl, this`baseAddr, this`pitch, layer, intr
      ensures AtResetDefaults()
      ensures ctrl == CTRL_RESET && ctrl & CTRL_SW_RESET_MASK == CTRL_SW_RESET_MASK
      ensures forall k :: CSC_COUNT <= k < LAYER_COUNT ==> CscOf(layer[k]) == CscOf(old(layer[k]))
    {
      ResetRegister();
    }

    /** Resets every register and releases the controller (CTRL = 0), as Init does. */
    method Reset()
      requires Valid()
      modifies this`dispPara, this`ctrl, this`dispSize, this`hsynPara, this`vsynPara
      modifies this`pdiPara, this`wrCtrl, this`baseAddr, this`pitch, layer, intr
      ensures AtResetDefaults()
      ensures ctrl == 0
      ensures forall k :: CSC_COUNT <= k < LAYER_COUNT ==> CscOf(layer[k]) == CscOf(old(layer[k]))
    {
      ResetRegister();
      ctrl := 0;
    }

    /**
     * Programs size, timing, line order and polarity; the written registers
     * read back as the configuration. DISP_PARA is overwritten, so the
     * display is left off.
     */
    method SetDisplayConfig(config: DisplayConfig)
      modifies this`dispSize, this`hsynPara, this`vsynPara, this`dispPara, this`ctrl
      ensures DisplayRegs() == DisplayRegistersFor(config)
      ensures DisplayConfigOf(DisplayRegs()) == Some(config)
      ensures dispPara & DISP_PARA_DISP_ON_MASK == 0
    {
      dispSize := PackHalves(config.panelWidth, config.panelHeight);
      hsynPara := SynPara(config.hsw, config.hbp, config.hfp);
      vsynPara := SynPara(config.vsw, config.vbp, config.vfp);
      dispPara := DispParaLinePattern(config.lineOrder.Code());
      ctrl := config.polarityFlags;
      DisplayConfigRoundTrip(config);
    }

    /** Sets or clears DISP_ON, keeping every other DISP_PARA bit. */
    method EnableDisplay(enable: bool)
      modifies this`dispPara
      ensures dispPara == if enable then SetBits(old(dispPara), DISP_PARA_DISP_ON_MASK)
                          else ClearBits(old(dispPara), DISP_PARA_DISP_ON_MASK)
    {
      if enable {
        dispPara := dispPara | DISP_PARA_DISP_ON_MASK;
      } else {
        dispPara := dispPara & !DISP_PARA_DISP_ON_MASK;
      }
    }

    /** ORs `mask` into one domain's INT_ENABLE. */
    method EnableInterrupts(domain: nat, mask: bv32)
      requires Valid() && domain < DOMAIN_COUNT
      modifies intr
      ensures intr[domain] == old(intr[domain]).(enable := SetBits(old(intr[domain].enable), mask))
      ensures forall d :: 0 <= d < DOMAIN_COUNT && d != domain ==> intr[d] == old(intr[d])
    {
      intr[domain] := intr[domain].(enable := intr[domain].enable | mask);
    }

    /** Clears the bits of `mask` in one domain's INT_ENABLE. */
    method DisableInterrupts(domain: nat, mask: bv32)
      requires Valid() && domain < DOMAIN_COUNT
      modifies intr
      ensures intr[domain] == old(intr[domain]).(enable := ClearBits(old(intr[domain].enable), mask))
      ensures forall d :: 0 <= d < DOMAIN_COUNT && d != domain ==> intr[d] == old(intr[d])
    {
      intr[domain] := intr[domain].(enable := intr[domain].enable & !mask);
    }

    /** One domain's INT_STATUS; nothing changes. */
    method GetInterruptStatus(domain: nat) returns (status: bv32)
      requires Valid() && domain < DOMAIN_COUNT
      ensures status == intr[domain].status
    {
      status := intr[domain].status;
    }

    /** Writes `mask` to one domain's INT_STATUS. */
    method ClearInterruptStatus(domain: nat, mask: bv32)
      requires Valid() && domain < DOMAIN_COUNT
      modifies intr
      ensures intr[domain] == old(intr[domain]).(status := mask)
      ensures forall d :: 0 <= d < DOMAIN_COUNT && d != domain ==> intr[d] == old(intr[d])
    {
      intr[domain] := intr[domain].(status := mask);
    }

    /**
     * Loads the colour conversion table of `mode` into one layer's CSC
     * words. Only layers with a converter may be named.
     */
    method SetCscMode(layerIndex: nat, mode: CscMode)
      requires Valid() && layerIndex < CSC_COUNT
      modifies layer
      ensures CscOf(layer[layerIndex]) == CscCoefficients(mode)
      ensures layer[layerIndex] == old(layer[layerIndex]).(cscCoef0 := layer[layerIndex].cscCoef0,
                                                           cscCoef1 := layer[layerIndex].cscCoef1,
                                                           cscCoef2 := layer[layerIndex].cscCoef2)
      ensures forall k :: 0 <= k < LAYER_COUNT && k != layerIndex ==> layer[k] == old(layer[k])
    {
      var w := CscCoefficients(mode);
      layer[layerIndex] := layer[layerIndex].(cscCoef0 := w.coef0, cscCoef1 := w.coef1, cscCoef2 := w.coef2);
    }

    /**
     * Sets the layer's stride and pixel format: CTRLDESCL3 takes the stride,
     * CTRLDESCL5 takes the format in place of the old one, and SAFETY_EN is
     * added when no alpha blending is configured.
     */
    method SetLayerBufferConfig(layerIndex: nat, config: BufferConfig)
      requires Valid() && layerIndex < LAYER_COUNT
      modifies layer
      ensures layer[layerIndex] == old(layer[layerIndex]).(
                ctrlDescL3 := config.strideBytes,
                ctrlDescL5 := PixelFormatDescriptor(old(layer[layerIndex].ctrlDescL5), config.pixelFormat))
      ensures forall k :: 0 <= k < LAYER_COUNT && k != layerIndex ==> layer[k] == old(layer[k])
    {
      layer[layerIndex] := layer[layerIndex].(ctrlDescL3 := config.strideBytes);

      var reg := layer[layerIndex].ctrlDescL5;
      reg := (reg & !(CTRLDESCL5_BPP_MASK | CTRLDESCL5_YUV_FORMAT_MASK)) | PixelFormatCode(config.pixelFormat);
      if reg & CTRLDESCL5_AB_MODE_MASK == 0 {
        reg := reg | CTRLDESCL5_SAFETY_EN_MASK;
      }
      layer[layerIndex] := layer[layerIndex].(ctrlDescL5 := reg);
    }

    /** Sets the store destination, its stride and its pixel format (WR_CTRL.BPP only). */
    method SetStoreBufferConfig(config: StoreBufferConfig)
      modifies this`baseAddr, this`pitch, this`wrCtrl
      ensures baseAddr == config.bufferAddr
      ensures pitch == config.strideBytes
      ensures wrCtrl == StoreFormatWrCtrl(old(wrCtrl), config.pixelFormat)
    {
      baseAddr := config.bufferAddr;
      pitch := config.strideBytes;
      wrCtrl := (wrCtrl & !WR_CTRL_BPP_MASK) | WrCtrlBpp(config.pixelFormat.Code());
    }

    /**
     * Uploads `count` palette entries for one layer. If the previous
     * shadow-loaded upload is still pending (CLUT_UPDATE_EN set) nothing is
     * written and the result is Fail. Otherwise CLUT_LOAD selects the layer
     * (with CLUT_UPDATE_EN iff a shadow load is asked for), entries
     * [256*layer, 256*layer + count) take the data in order, every other LUT
     * entry is kept, and the result is Success.
     */
    method SetLut(layerIndex: nat, lutData: seq<bv32>, count: nat, useShadowLoad: bool) returns (status: Status)
      requires Valid() && layerIndex < LAYER_COUNT
      requires LutCountAccepted(count) && count <= |lutData|
      modifies this`clutLoad, clutRam
      ensures old(clutLoad) & CLUT_LOAD_CLUT_UPDATE_EN_MASK != 0 ==>
                status == Fail && clutLoad == old(clutLoad) && clutRam[..] == old(clutRam[..])
      ensures old(clutLoad) & CLUT_LOAD_CLUT_UPDATE_EN_MASK == 0 ==>
                && status == Success
                && clutLoad == ClutLoadWord(layerIndex, useShadowLoad)
                && clutRam[..] == LutFill(old(clutRam[..]), LUT_ENTRY_NUM * layerIndex, lutData[..count])
    {
      if clutLoad & CLUT_LOAD_CLUT_UPDATE_EN_MASK != 0 {
        status := Fail;
      } else {
        clutLoad := ClutLoadWord(layerIndex, useShadowLoad);

        var base := LUT_ENTRY_NUM * layerIndex;
        for i := 0 to count
          invariant clutLoad == ClutLoadWord(layerIndex, useShadowLoad)
          invariant clutRam[..] == LutFill(old(clutRam[..]), base, lutData[..i])
        {
          clutRam[i + base] := lutData[i];
        }
        status := Success;
      }
    }

    /**
     * Replaces the seven blend fields of the layer's CTRLDESCL5 with the
     * configuration, setting SAFETY_EN exactly when blending is disabled.
     */
    method SetLayerBlendConfig(layerIndex: nat, config: BlendConfig)
      requires Valid() && layerIndex < LAYER_COUNT
      modifies layer
      ensures layer[layerIndex] == old(layer[layerIndex]).(
                ctrlDescL5 := BlendDescriptor(old(layer[layerIndex].ctrlDescL5), config))
      ensures forall k :: 0 <= k < LAYER_COUNT && k != layerIndex ==> layer[k] == old(layer[k])
    {
      var reg := layer[layerIndex].ctrlDescL5;
      reg := ClearBits(reg, BLEND_FIELDS);
      reg := reg | BlendFieldBits(config);
      if config.alphaMode == AlphaDisable {
        reg := reg | CTRLDESCL5_SAFETY_EN_MASK;
      }
      layer[layerIndex] := layer[layerIndex].(ctrlDescL5 := reg);
    }

    /** Starts the store path: ENABLE, and REPEAT when asked for, are OR'ed into WR_CTRL. */
    method StartStore(repeat: bool)
      modifies this`wrCtrl
      ensures wrCtrl == StartStoreWrCtrl(old(wrCtrl), repeat)
    {
      var reg := WR_CTRL_ENABLE_MASK;
      if repeat {
        reg := reg | WR_CTRL_REPEAT_MASK;
      }
      wrCtrl := wrCtrl | reg;
    }

    /** CTRLDESCL1 of the layer := height | width; nothing else changes. */
    method SetLayerSize(layerIndex: nat, width: U16, height: U16)
      requires Valid() && layerIndex < LAYER_COUNT
      modifies layer
      ensures layer[layerIndex] == old(layer[layerIndex]).(ctrlDescL1 := PackHalves(width, height))
      ensures forall k :: 0 <= k < LAYER_COUNT && k != layerIndex ==> layer[k] == old(layer[k])
    {
      layer[layerIndex] := layer[layerIndex].(ctrlDescL1 := (height << HALF_HIGH_SHIFT) | width);
    }

    /** CTRLDESCL2 of the layer := posY | posX; nothing else changes. */
    method SetLayerOffset(layerIndex: nat, offsetX: U16, offsetY: U16)
      requires Valid() && layerIndex < LAYER_COUNT
      modifies layer
      ensures layer[layerIndex] == old(layer[layerIndex]).(ctrlDescL2 := PackHalves(offsetX, offsetY))
      ensures forall k :: 0 <= k < LAYER_COUNT && k != layerIndex ==> layer[k] == old(layer[k])
    {
      layer[layerIndex] := layer[layerIndex].(ctrlDescL2 := offsetX | (offsetY << HALF_HIGH_SHIFT));
    }

    /** CTRLDESCL4 of the layer := the new source buffer address. */
    method SetLayerBufferAddr(layerIndex: nat, addr: bv32)
      requires Valid() && layerIndex < LAYER_COUNT
      modifies layer
      ensures layer[layerIndex] == old(layer[layerIndex]).(ctrlDescL4 := addr)
      ensures forall k :: 0 <= k < LAYER_COUNT && k != layerIndex ==> layer[k] == old(layer[k])
    {
      layer[layerIndex] := layer[layerIndex].(ctrlDescL4 := addr);
    }

    /** Sets or clears the layer's EN bit, keeping every other bit. */
    method EnableLayer(layerIndex: nat, enable: bool)
      requires Valid() && layerIndex < LAYER_COUNT
      modifies layer
      ensures layer[layerIndex] == old(layer[layerIndex]).(ctrlDescL5 :=
                if enable then SetBits(old(layer[layerIndex].ctrlDescL5), CTRLDESCL5_EN_MASK)
                else ClearBits(old(layer[layerIndex].ctrlDescL5), CTRLDESCL5_EN_MASK))
      ensures forall k :: 0 <= k < LAYER_COUNT && k != layerIndex ==> layer[k] == old(layer[k])
    {
      if enable {
        layer[layerIndex] := layer[layerIndex].(ctrlDescL5 := layer[layerIndex].ctrlDescL5 | CTRLDESCL5_EN_MASK);
      } else {
        layer[layerIndex] := layer[layerIndex].(ctrlDescL5 := layer[layerIndex].ctrlDescL5 & !CTRLDESCL5_EN_MASK);
      }
    }

    /** Sets the layer's SHADOW_LOAD_EN bit, keeping every other bit. */
    method TriggerLayerShadowLoad(layerIndex: nat)
      requires Valid() && layerIndex < LAYER_COUNT
      modifies layer
      ensures layer[layerIndex] == old(layer[layerIndex]).(ctrlDescL5 :=
                SetBits(old(layer[layerIndex].ctrlDescL5), CTRLDESCL5_SHADOW_LOAD_EN_MASK))
      ensures forall k :: 0 <= k < LAYER_COUNT && k != layerIndex ==> layer[k] == old(layer[k])
    {
      layer[layerIndex] := layer[layerIndex].(ctrlDescL5 := layer[layerIndex].ctrlDescL5 | CTRLDESCL5_SHADOW_LOAD_EN_MASK);
    }

    /** CTRLDESCL6 of the layer := the background colour. */
    method SetLayerBackGroundColor(layerIndex: nat, backGroundColor: bv32)
      requires Valid() && layerIndex < LAYER_COUNT
      modifies layer
      ensures layer[layerIndex] == old(layer[layerIndex]).(ctrlDescL6 := backGroundColor)
      ensures forall k :: 0 <= k < LAYER_COUNT && k != layerIndex ==> layer[k] == old(layer[k])
    {
      layer[layerIndex] := layer[layerIndex].(ctrlDescL6 := backGroundColor);
    }
  }
}
