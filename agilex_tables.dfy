/**
 * The static data of the Agilex / N5X clock manager driver: the mux lists
 * and the five descriptor tables, entry for entry as the driver declares
 * them (drivers/clk/socfpga/clk-agilex.c, lines 15-179). `|M|` stands for
 * the C `ARRAY_SIZE(M)`.
 */
module AgilexTables {
  import opened Wrappers
  import opened ClockIds
  import opened ClockDescs

  const PllMux: seq<ClkName> := [Osc1, CbIntoscHsDiv2Clk, F2sFreeClk]
  /** Declared by the driver but used by no table. */
  const CntrMux: seq<ClkName> := [MainPll, PeriphPll, Osc1, CbIntoscHsDiv2Clk, F2sFreeClk]
  const BootMux: seq<ClkName> := [Osc1, CbIntoscHsDiv2Clk]

  const MpuFreeMux: seq<ClkName> := [MainPllC0, PeriPllC0, Osc1, CbIntoscHsDiv2Clk, F2sFreeClk]
  const NocFreeMux: seq<ClkName> := [MainPllC1, PeriPllC1, Osc1, CbIntoscHsDiv2Clk, F2sFreeClk]
  const EmacaFreeMux: seq<ClkName> := [MainPllC2, PeriPllC2, Osc1, CbIntoscHsDiv2Clk, F2sFreeClk]
  const EmacbFreeMux: seq<ClkName> := [MainPllC3, PeriPllC3, Osc1, CbIntoscHsDiv2Clk, F2sFreeClk]
  const EmacPtpFreeMux: seq<ClkName> := [MainPllC3, PeriPllC3, Osc1, CbIntoscHsDiv2Clk, F2sFreeClk]
  const GpioDbFreeMux: seq<ClkName> := [MainPllC3, PeriPllC3, Osc1, CbIntoscHsDiv2Clk, F2sFreeClk]
  const PsiRefFreeMux: seq<ClkName> := [MainPllC2, PeriPllC2, Osc1, CbIntoscHsDiv2Clk, F2sFreeClk]
  const SdmmcFreeMux: seq<ClkName> := [MainPllC3, PeriPllC3, Osc1, CbIntoscHsDiv2Clk, F2sFreeClk]
  const S2fUsr0FreeMux: seq<ClkName> := [MainPllC2, PeriPllC2, Osc1, CbIntoscHsDiv2Clk, F2sFreeClk]
  const S2fUsr1FreeMux: seq<ClkName> := [MainPllC2, PeriPllC2, Osc1, CbIntoscHsDiv2Clk, F2sFreeClk]
  const MpuMux: seq<ClkName> := [MpuFreeClk, BootClk]

  const S2fUsr0Mux: seq<ClkName> := [F2sFreeClk, BootClk]
  const EmacMux: seq<ClkName> := [EmacaFreeClk, EmacbFreeClk, BootClk]
  const NocMux: seq<ClkName> := [NocFreeClk, BootClk]
  const SdmmcMux: seq<ClkName> := [SdmmcFreeClk, BootClk]
  const S2fUser0Mux: seq<ClkName> := [S2fUser0FreeClk, BootClk]
  const S2fUser1Mux: seq<ClkName> := [S2fUser1FreeClk, BootClk]
  const PsiMux: seq<ClkName> := [PsiRefFreeClk, BootClk]
  const GpioDbMux: seq<ClkName> := [GpioDbFreeClk, BootClk]
  const EmacPtpMux: seq<ClkName> := [EmacPtpFreeClk, BootClk]

  /** agilex_pll_clks: the clocks of the always-on controller. */
  const AgilexPllClks: seq<ClockDesc> := [
    PllClock(AGILEX_BOOT_CLK, BootClk, Some(BootMux), |BootMux|, 0, 0x0),
    PllClock(AGILEX_MAIN_PLL_CLK, MainPll, Some(PllMux), |PllMux|, 0, 0x48),
    PllClock(AGILEX_PERIPH_PLL_CLK, PeriphPll, Some(PllMux), |PllMux|, 0, 0x9c)
  ]

  /** n5x_main_perip_c_clks: the N5X PLL output dividers, 8-bit fields of shared registers. */
  const N5xMainPeripCClks: seq<ClockDesc> := [
    N5xPeripCClock(AGILEX_MAIN_PLL_C0_CLK, MainPllC0, Some(MainPll), None, 1, 0, 0x54, 0),
    N5xPeripCClock(AGILEX_MAIN_PLL_C1_CLK, MainPllC1, Some(MainPll), None, 1, 0, 0x54, 8),
    N5xPeripCClock(AGILEX_MAIN_PLL_C2_CLK, MainPllC2, Some(MainPll), None, 1, 0, 0x54, 16),
    N5xPeripCClock(AGILEX_MAIN_PLL_C3_CLK, MainPllC3, Some(MainPll), None, 1, 0, 0x54, 24),
    N5xPeripCClock(AGILEX_PERIPH_PLL_C0_CLK, PeriPllC0, Some(PeriphPll), None, 1, 0, 0xA8, 0),
    N5xPeripCClock(AGILEX_PERIPH_PLL_C1_CLK, PeriPllC1, Some(PeriphPll), None, 1, 0, 0xA8, 8),
    N5xPeripCClock(AGILEX_PERIPH_PLL_C2_CLK, PeriPllC2, Some(PeriphPll), None, 1, 0, 0xA8, 16),
    N5xPeripCClock(AGILEX_PERIPH_PLL_C3_CLK, PeriPllC3, Some(PeriphPll), None, 1, 0, 0xA8, 24)
  ]

  /** agilex_main_perip_c_clks: the Agilex PLL output dividers, one register each. */
  const AgilexMainPeripCClks: seq<ClockDesc> := [
    PeripCClock(AGILEX_MAIN_PLL_C0_CLK, MainPllC0, Some(MainPll), None, 1, 0, 0x58),
    PeripCClock(AGILEX_MAIN_PLL_C1_CLK, MainPllC1, Some(MainPll), None, 1, 0, 0x5C),
    PeripCClock(AGILEX_MAIN_PLL_C2_CLK, MainPllC2, Some(MainPll), None, 1, 0, 0x64),
    PeripCClock(AGILEX_MAIN_PLL_C3_CLK, MainPllC3, Some(MainPll), None, 1, 0, 0x68),
    PeripCClock(AGILEX_PERIPH_PLL_C0_CLK, PeriPllC0, Some(PeriphPll), None, 1, 0, 0xAC),
    PeripCClock(AGILEX_PERIPH_PLL_C1_CLK, PeriPllC1, Some(PeriphPll), None, 1, 0, 0xB0),
    PeripCClock(AGILEX_PERIPH_PLL_C2_CLK, PeriPllC2, Some(PeriphPll), None, 1, 0, 0xB8),
    PeripCClock(AGILEX_PERIPH_PLL_C3_CLK, PeriPllC3, Some(PeriphPll), None, 1, 0, 0xBC)
  ]

  /** agilex_main_perip_cnt_clks: the free-running counter clocks, shared by both variants. */
  const AgilexMainPeripCntClks: seq<ClockDesc> := [
    PeripCntClock(AGILEX_MPU_FREE_CLK, MpuFreeClk, None, Some(MpuFreeMux), |MpuFreeMux|,
                  0, 0x3C, 0, 0, 0),
    PeripCntClock(AGILEX_NOC_FREE_CLK, NocFreeClk, None, Some(NocFreeMux), |NocFreeMux|,
                  0, 0x40, 0, 0, 0),
    PeripCntClock(AGILEX_L4_SYS_FREE_CLK, L4SysFreeClk, None, Some(NocMux), |NocMux|, 0,
                  0, 4, 0x30, 1),
    PeripCntClock(AGILEX_EMAC_A_FREE_CLK, EmacaFreeClk, None, Some(EmacaFreeMux), |EmacaFreeMux|,
                  0, 0xD4, 0, 0x88, 0),
    PeripCntClock(AGILEX_EMAC_B_FREE_CLK, EmacbFreeClk, None, Some(EmacbFreeMux), |EmacbFreeMux|,
                  0, 0xD8, 0, 0x88, 1),
    PeripCntClock(AGILEX_EMAC_PTP_FREE_CLK, EmacPtpFreeClk, None, Some(EmacPtpFreeMux),
                  |EmacPtpFreeMux|, 0, 0xDC, 0, 0x88, 2),
    PeripCntClock(AGILEX_GPIO_DB_FREE_CLK, GpioDbFreeClk, None, Some(GpioDbFreeMux),
                  |GpioDbFreeMux|, 0, 0xE0, 0, 0x88, 3),
    PeripCntClock(AGILEX_SDMMC_FREE_CLK, SdmmcFreeClk, None, Some(SdmmcFreeMux),
                  |SdmmcFreeMux|, 0, 0xE4, 0, 0, 0),
    PeripCntClock(AGILEX_S2F_USER0_FREE_CLK, S2fUser0FreeClk, None, Some(S2fUsr0FreeMux),
                  |S2fUsr0FreeMux|, 0, 0xE8, 0, 0x30, 2),
    PeripCntClock(AGILEX_S2F_USER1_FREE_CLK, S2fUser1FreeClk, None, Some(S2fUsr1FreeMux),
                  |S2fUsr1FreeMux|, 0, 0xEC, 0, 0x88, 5),
    PeripCntClock(AGILEX_PSI_REF_FREE_CLK, PsiRefFreeClk, None, Some(PsiRefFreeMux),
                  |PsiRefFreeMux|, 0, 0xF0, 0, 0x88, 6)
  ]

  /**
   * agilex_gate_clks: the gated leaf clocks, shared by both variants. Entry
   * 17 reuses the id of entry 10 and the name of entry 18.
   */
  const AgilexGateClks: seq<ClockDesc> := [
    GateClock(AGILEX_MPU_CLK, MpuClk, None, Some(MpuMux), |MpuMux|, 0, 0x24,
              0, 0, 0, 0, 0x30, 0, 0),
    GateClock(AGILEX_MPU_PERIPH_CLK, MpuPeriphClk, Some(MpuClk), None, 1, 0, 0x24,
              0, 0, 0, 0, 0, 0, 4),
    GateClock(AGILEX_MPU_CCU_CLK, MpuCcuClk, Some(MpuClk), None, 1, 0, 0x24,
              0, 0, 0, 0, 0, 0, 2),
    GateClock(AGILEX_L4_MAIN_CLK, L4MainClk, None, Some(NocMux), |NocMux|, 0, 0x24,
              1, 0x44, 0, 2, 0x30, 1, 0),
    GateClock(AGILEX_L4_MP_CLK, L4MpClk, None, Some(NocMux), |NocMux|, 0, 0x24,
              2, 0x44, 8, 2, 0x30, 1, 0),
    // l4_sp_clk feeds the SP timers and is flagged critical.
    GateClock(AGILEX_L4_SP_CLK, L4SpClk, None, Some(NocMux), |NocMux|, CLK_IS_CRITICAL, 0x24,
              3, 0x44, 16, 2, 0x30, 1, 0),
    GateClock(AGILEX_CS_AT_CLK, CsAtClk, None, Some(NocMux), |NocMux|, 0, 0x24,
              4, 0x44, 24, 2, 0x30, 1, 0),
    GateClock(AGILEX_CS_TRACE_CLK, CsTraceClk, None, Some(NocMux), |NocMux|, 0, 0x24,
              4, 0x44, 26, 2, 0x30, 1, 0),
    GateClock(AGILEX_CS_PDBG_CLK, CsPdbgClk, Some(CsAtClk), None, 1, 0, 0x24,
              4, 0x44, 28, 1, 0, 0, 0),
    GateClock(AGILEX_CS_TIMER_CLK, CsTimerClk, None, Some(NocMux), |NocMux|, 0, 0x24,
              5, 0, 0, 0, 0x30, 1, 0),
    GateClock(AGILEX_S2F_USER0_CLK, S2fUser0Clk, None, Some(S2fUsr0Mux), |S2fUsr0Mux|, 0, 0x24,
              6, 0, 0, 0, 0, 0, 0),
    GateClock(AGILEX_EMAC0_CLK, Emac0Clk, None, Some(EmacMux), |EmacMux|, 0, 0x7C,
              0, 0, 0, 0, 0x94, 26, 0),
    GateClock(AGILEX_EMAC1_CLK, Emac1Clk, None, Some(EmacMux), |EmacMux|, 0, 0x7C,
              1, 0, 0, 0, 0x94, 27, 0),
    GateClock(AGILEX_EMAC2_CLK, Emac2Clk, None, Some(EmacMux), |EmacMux|, 0, 0x7C,
              2, 0, 0, 0, 0x94, 28, 0),
    GateClock(AGILEX_EMAC_PTP_CLK, EmacPtpClk, None, Some(EmacPtpMux), |EmacPtpMux|, 0, 0x7C,
              3, 0, 0, 0, 0x88, 2, 0),
    GateClock(AGILEX_GPIO_DB_CLK, GpioDbClk, None, Some(GpioDbMux), |GpioDbMux|, 0, 0x7C,
              4, 0x98, 0, 16, 0x88, 3, 0),
    GateClock(AGILEX_SDMMC_CLK, SdmmcClk, None, Some(SdmmcMux), |SdmmcMux|, 0, 0x7C,
              5, 0, 0, 0, 0x88, 4, 4),
    GateClock(AGILEX_S2F_USER0_CLK, S2fUser1Clk, None, Some(S2fUser0Mux), |S2fUser0Mux|, 0, 0x24,
              6, 0, 0, 0, 0x30, 2, 0),
    GateClock(AGILEX_S2F_USER1_CLK, S2fUser1Clk, None, Some(S2fUser1Mux), |S2fUser1Mux|, 0, 0x7C,
              6, 0, 0, 0, 0x88, 5, 0),
    GateClock(AGILEX_PSI_REF_CLK, PsiRefClk, None, Some(PsiMux), |PsiMux|, 0, 0x7C,
              7, 0, 0, 0, 0x88, 6, 0),
    GateClock(AGILEX_USB_CLK, UsbClk, Some(L4MpClk), None, 1, 0, 0x7C,
              8, 0, 0, 0, 0, 0, 0),
    GateClock(AGILEX_SPI_M_CLK, SpiMClk, Some(L4MpClk), None, 1, 0, 0x7C,
              9, 0, 0, 0, 0, 0, 0),
    GateClock(AGILEX_NAND_X_CLK, NandXClk, Some(L4MpClk), None, 1, 0, 0x7C,
              10, 0, 0, 0, 0, 0, 0),
    GateClock(AGILEX_NAND_CLK, NandClk, Some(NandXClk), None, 1, 0, 0x7C,
              10, 0, 0, 0, 0, 0, 4),
    GateClock(AGILEX_NAND_ECC_CLK, NandEccClk, Some(NandXClk), None, 1, 0, 0x7C,
              10, 0, 0, 0, 0, 0, 4)
  ]

  /**
   * The root clocks the tables reference but do not define; the platform
   * registers them (from the device tree) before this driver runs.
   */
  const ExternalRoots: seq<ClkName> := [Osc1, CbIntoscHsDiv2Clk, F2sFreeClk]
}
