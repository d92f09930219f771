/** Small wrappers used throughout the model. */
module Wrappers {
  datatype Option<+T> = None | Some(value: T)

  datatype Result<+R, +E> = Success(value: R) | Failure(error: E)
}

/**
 * Clock identities and clock names of the Agilex / eASIC N5X clock manager.
 *
 * The numeric AGILEX_* ids come from the device-tree binding header
 * dt-bindings/clock/agilex-clock.h, which is not part of this model: an id
 * is kept symbolic (one constructor per macro the driver uses) and `Slot`
 * gives it a fixed, injective position in the id-indexed clock table.
 *
 * Clock names are C string literals compared by content in the clock
 * framework. Each distinct literal the driver uses is one constructor of
 * `ClkName`; `Text` gives its spelling, and `TextInjective` shows that two
 * names are equal exactly when their spellings are, so comparing `ClkName`
 * values is comparing the strings.
 */
module ClockIds {
  import opened Wrappers

  datatype ClkId =
    | AGILEX_BOOT_CLK | AGILEX_MAIN_PLL_CLK | AGILEX_PERIPH_PLL_CLK
    | AGILEX_MAIN_PLL_C0_CLK | AGILEX_MAIN_PLL_C1_CLK | AGILEX_MAIN_PLL_C2_CLK | AGILEX_MAIN_PLL_C3_CLK
    | AGILEX_PERIPH_PLL_C0_CLK | AGILEX_PERIPH_PLL_C1_CLK | AGILEX_PERIPH_PLL_C2_CLK | AGILEX_PERIPH_PLL_C3_CLK
    | AGILEX_MPU_FREE_CLK | AGILEX_NOC_FREE_CLK | AGILEX_L4_SYS_FREE_CLK
    | AGILEX_EMAC_A_FREE_CLK | AGILEX_EMAC_B_FREE_CLK | AGILEX_EMAC_PTP_FREE_CLK
    | AGILEX_GPIO_DB_FREE_CLK | AGILEX_SDMMC_FREE_CLK | AGILEX_S2F_USER0_FREE_CLK
    | AGILEX_S2F_USER1_FREE_CLK | AGILEX_PSI_REF_FREE_CLK
    | AGILEX_MPU_CLK | AGILEX_MPU_PERIPH_CLK | AGILEX_MPU_CCU_CLK
    | AGILEX_L4_MAIN_CLK | AGILEX_L4_MP_CLK | AGILEX_L4_SP_CLK
    | AGILEX_CS_AT_CLK | AGILEX_CS_TRACE_CLK | AGILEX_CS_PDBG_CLK | AGILEX_CS_TIMER_CLK
    | AGILEX_S2F_USER0_CLK | AGILEX_EMAC0_CLK | AGILEX_EMAC1_CLK | AGILEX_EMAC2_CLK
    | AGILEX_EMAC_PTP_CLK | AGILEX_GPIO_DB_CLK | AGILEX_SDMMC_CLK | AGILEX_S2F_USER1_CLK
    | AGILEX_PSI_REF_CLK | AGILEX_USB_CLK | AGILEX_SPI_M_CLK
    | AGILEX_NAND_X_CLK | AGILEX_NAND_CLK | AGILEX_NAND_ECC_CLK

  /** Size of the id-indexed table (AGILEX_NUM_CLKS): one slot per id above. */
  const NumClks: nat := 46

  /** The table slot of an id. */
  function Slot(id: ClkId): (k: nat)
    ensures k < NumClks
    ensures SlotOwner(k) == Some(id)
  {
    match id
    case AGILEX_BOOT_CLK => 0
    case AGILEX_MAIN_PLL_CLK => 1
    case AGILEX_PERIPH_PLL_CLK => 2
    case AGILEX_MAIN_PLL_C0_CLK => 3
    case AGILEX_MAIN_PLL_C1_CLK => 4
    case AGILEX_MAIN_PLL_C2_CLK => 5
    case AGILEX_MAIN_PLL_C3_CLK => 6
    case AGILEX_PERIPH_PLL_C0_CLK => 7
    case AGILEX_PERIPH_PLL_C1_CLK => 8
    case AGILEX_PERIPH_PLL_C2_CLK => 9
    case AGILEX_PERIPH_PLL_C3_CLK => 10
    case AGILEX_MPU_FREE_CLK => 11
    case AGILEX_NOC_FREE_CLK => 12
    case AGILEX_L4_SYS_FREE_CLK => 13
    case AGILEX_EMAC_A_FREE_CLK => 14
    case AGILEX_EMAC_B_FREE_CLK => 15
    case AGILEX_EMAC_PTP_FREE_CLK => 16
    case AGILEX_GPIO_DB_FREE_CLK => 17
    case AGILEX_SDMMC_FREE_CLK => 18
    case AGILEX_S2F_USER0_FREE_CLK => 19
    case AGILEX_S2F_USER1_FREE_CLK => 20
    case AGILEX_PSI_REF_FREE_CLK => 21
    case AGILEX_MPU_CLK => 22
    case AGILEX_MPU_PERIPH_CLK => 23
    case AGILEX_MPU_CCU_CLK => 24
    case AGILEX_L4_MAIN_CLK => 25
    case AGILEX_L4_MP_CLK => 26
    case AGILEX_L4_SP_CLK => 27
    case AGILEX_CS_AT_CLK => 28
    case AGILEX_CS_TRACE_CLK => 29
    case AGILEX_CS_PDBG_CLK => 30
    case AGILEX_CS_TIMER_CLK => 31
    case AGILEX_S2F_USER0_CLK => 32
    case AGILEX_EMAC0_CLK => 33
    case AGILEX_EMAC1_CLK => 34
    case AGILEX_EMAC2_CLK => 35
    case AGILEX_EMAC_PTP_CLK => 36
    case AGILEX_GPIO_DB_CLK => 37
    case AGILEX_SDMMC_CLK => 38
    case AGILEX_S2F_USER1_CLK => 39
    case AGILEX_PSI_REF_CLK => 40
    case AGILEX_USB_CLK => 41
    case AGILEX_SPI_M_CLK => 42
    case AGILEX_NAND_X_CLK => 43
    case AGILEX_NAND_CLK => 44
    case AGILEX_NAND_ECC_CLK => 45
  }

  /** The id that owns table slot `k`, if any: the inverse of `Slot`. */
  function SlotOwner(k: nat): Option<ClkId>
  {
    if k == 0 then Some(AGILEX_BOOT_CLK)
    else if k == 1 then Some(AGILEX_MAIN_PLL_CLK)
    else if k == 2 then Some(AGILEX_PERIPH_PLL_CLK)
    else if k == 3 then Some(AGILEX_MAIN_PLL_C0_CLK)
    else if k == 4 then Some(AGILEX_MAIN_PLL_C1_CLK)
    else if k == 5 then Some(AGILEX_MAIN_PLL_C2_CLK)
    else if k == 6 then Some(AGILEX_MAIN_PLL_C3_CLK)
    else if k == 7 then Some(AGILEX_PERIPH_PLL_C0_CLK)
    else if k == 8 then Some(AGILEX_PERIPH_PLL_C1_CLK)
    else if k == 9 then Some(AGILEX_PERIPH_PLL_C2_CLK)
    else if k == 10 then Some(AGILEX_PERIPH_PLL_C3_CLK)
    else if k == 11 then Some(AGILEX_MPU_FREE_CLK)
    else if k == 12 then Some(AGILEX_NOC_FREE_CLK)
    else if k == 13 then Some(AGILEX_L4_SYS_FREE_CLK)
    else if k == 14 then Some(AGILEX_EMAC_A_FREE_CLK)
    else if k == 15 then Some(AGILEX_EMAC_B_FREE_CLK)
    else if k == 16 then Some(AGILEX_EMAC_PTP_FREE_CLK)
    else if k == 17 then Some(AGILEX_GPIO_DB_FREE_CLK)
    else if k == 18 then Some(AGILEX_SDMMC_FREE_CLK)
    else if k == 19 then Some(AGILEX_S2F_USER0_FREE_CLK)
    else if k == 20 then Some(AGILEX_S2F_USER1_FREE_CLK)
    else if k == 21 then Some(AGILEX_PSI_REF_FREE_CLK)
    else if k == 22 then Some(AGILEX_MPU_CLK)
    else if k == 23 then Some(AGILEX_MPU_PERIPH_CLK)
    else if k == 24 then Some(AGILEX_MPU_CCU_CLK)
    else if k == 25 then Some(AGILEX_L4_MAIN_CLK)
    else if k == 26 then Some(AGILEX_L4_MP_CLK)
    else if k == 27 then Some(AGILEX_L4_SP_CLK)
    else if k == 28 then Some(AGILEX_CS_AT_CLK)
    else if k == 29 then Some(AGILEX_CS_TRACE_CLK)
    else if k == 30 then Some(AGILEX_CS_PDBG_CLK)
    else if k == 31 then Some(AGILEX_CS_TIMER_CLK)
    else if k == 32 then Some(AGILEX_S2F_USER0_CLK)
    else if k == 33 then Some(AGILEX_EMAC0_CLK)
    else if k == 34 then Some(AGILEX_EMAC1_CLK)
    else if k == 35 then Some(AGILEX_EMAC2_CLK)
    else if k == 36 then Some(AGILEX_EMAC_PTP_CLK)
    else if k == 37 then Some(AGILEX_GPIO_DB_CLK)
    else if k == 38 then Some(AGILEX_SDMMC_CLK)
    else if k == 39 then Some(AGILEX_S2F_USER1_CLK)
    else if k == 40 then Some(AGILEX_PSI_REF_CLK)
    else if k == 41 then Some(AGILEX_USB_CLK)
    else if k == 42 then Some(AGILEX_SPI_M_CLK)
    else if k == 43 then Some(AGILEX_NAND_X_CLK)
    else if k == 44 then Some(AGILEX_NAND_CLK)
    else if k == 45 then Some(AGILEX_NAND_ECC_CLK)
    else None
  }

  /** Distinct ids occupy distinct slots, so a write to one id's slot never touches another's. */
  lemma SlotInjective(a: ClkId, b: ClkId)
    ensures Slot(a) == Slot(b) <==> a == b
  {
    if Slot(a) == Slot(b) {
      assert Some(a) == SlotOwner(Slot(a)) == SlotOwner(Slot(b)) == Some(b);
    }
  }

  /** The distinct clock-name string literals of the driver, interned. */
  datatype ClkName =
    | Osc1 | CbIntoscHsDiv2Clk | F2sFreeClk | BootClk | MainPll | PeriphPll | MainPllC0
    | MainPllC1 | MainPllC2 | MainPllC3 | PeriPllC0 | PeriPllC1 | PeriPllC2 | PeriPllC3
    | MpuFreeClk | NocFreeClk | L4SysFreeClk | EmacaFreeClk | EmacbFreeClk | EmacPtpFreeClk
    | GpioDbFreeClk | SdmmcFreeClk | S2fUser0FreeClk | S2fUser1FreeClk | PsiRefFreeClk | MpuClk
    | MpuPeriphClk | MpuCcuClk | L4MainClk | L4MpClk | L4SpClk | CsAtClk | CsTraceClk
    | CsPdbgClk | CsTimerClk | S2fUser0Clk | Emac0Clk | Emac1Clk | Emac2Clk | EmacPtpClk
    | GpioDbClk | SdmmcClk | S2fUser1Clk | PsiRefClk | UsbClk | SpiMClk | NandXClk | NandClk
    | NandEccClk

  /** Number of distinct clock names. */
  const NumNames: nat := 49

  /**
   * The position of a name in the order the driver introduces it: the three
   * external roots first, then every table entry's own name in registration
   * order. A parent declared before its child has the smaller rank.
   */
  function NameRank(n: ClkName): (r: nat)
    ensures r < NumNames
    ensures NameOwner(r) == Some(n)
  {
    match n
    case Osc1 => 0
    case CbIntoscHsDiv2Clk => 1
    case F2sFreeClk => 2
    case BootClk => 3
    case MainPll => 4
    case PeriphPll => 5
    case MainPllC0 => 6
    case MainPllC1 => 7
    case MainPllC2 => 8
    case MainPllC3 => 9
    case PeriPllC0 => 10
    case PeriPllC1 => 11
    case PeriPllC2 => 12
    case PeriPllC3 => 13
    case MpuFreeClk => 14
    case NocFreeClk => 15
    case L4SysFreeClk => 16
    case EmacaFreeClk => 17
    case EmacbFreeClk => 18
    case EmacPtpFreeClk => 19
    case GpioDbFreeClk => 20
    case SdmmcFreeClk => 21
    case S2fUser0FreeClk => 22
    case S2fUser1FreeClk => 23
    case PsiRefFreeClk => 24
    case MpuClk => 25
    case MpuPeriphClk => 26
    case MpuCcuClk => 27
    case L4MainClk => 28
    case L4MpClk => 29
    case L4SpClk => 30
    case CsAtClk => 31
    case CsTraceClk => 32
    case CsPdbgClk => 33
    case CsTimerClk => 34
    case S2fUser0Clk => 35
    case Emac0Clk => 36
    case Emac1Clk => 37
    case Emac2Clk => 38
    case EmacPtpClk => 39
    case GpioDbClk => 40
    case SdmmcClk => 41
    case S2fUser1Clk => 42
    case PsiRefClk => 43
    case UsbClk => 44
    case SpiMClk => 45
    case NandXClk => 46
    case NandClk => 47
    case NandEccClk => 48
  }

  /** The name of rank `r`, if any: the inverse of `NameRank`. */
  function NameOwner(r: nat): Option<ClkName>
  {
    if r == 0 then Some(Osc1)
    else if r == 1 then Some(CbIntoscHsDiv2Clk)
    else if r == 2 then Some(F2sFreeClk)
    else if r == 3 then Some(BootClk)
    else if r == 4 then Some(MainPll)
    else if r == 5 then Some(PeriphPll)
    else if r == 6 then Some(MainPllC0)
    else if r == 7 then Some(MainPllC1)
    else if r == 8 then Some(MainPllC2)
    else if r == 9 then Some(MainPllC3)
    else if r == 10 then Some(PeriPllC0)
    else if r == 11 then Some(PeriPllC1)
    else if r == 12 then Some(PeriPllC2)
    else if r == 13 then Some(PeriPllC3)
    else if r == 14 then Some(MpuFreeClk)
    else if r == 15 then Some(NocFreeClk)
    else if r == 16 then Some(L4SysFreeClk)
    else if r == 17 then Some(EmacaFreeClk)
    else if r == 18 then Some(EmacbFreeClk)
    else if r == 19 then Some(EmacPtpFreeClk)
    else if r == 20 then Some(GpioDbFreeClk)
    else if r == 21 then Some(SdmmcFreeClk)
    else if r == 22 then Some(S2fUser0FreeClk)
    else if r == 23 then Some(S2fUser1FreeClk)
    else if r == 24 then Some(PsiRefFreeClk)
    else if r == 25 then Some(MpuClk)
    else if r == 26 then Some(MpuPeriphClk)
    else if r == 27 then Some(MpuCcuClk)
    else if r == 28 then Some(L4MainClk)
    else if r == 29 then Some(L4MpClk)
    else if r == 30 then Some(L4SpClk)
    else if r == 31 then Some(CsAtClk)
    else if r == 32 then Some(CsTraceClk)
    else if r == 33 then Some(CsPdbgClk)
    else if r == 34 then Some(CsTimerClk)
    else if r == 35 then Some(S2fUser0Clk)
    else if r == 36 then Some(Emac0Clk)
    else if r == 37 then Some(Emac1Clk)
    else if r == 38 then Some(Emac2Clk)
    else if r == 39 then Some(EmacPtpClk)
    else if r == 40 then Some(GpioDbClk)
    else if r == 41 then Some(SdmmcClk)
    else if r == 42 then Some(S2fUser1Clk)
    else if r == 43 then Some(PsiRefClk)
    else if r == 44 then Some(UsbClk)
    else if r == 45 then Some(SpiMClk)
    else if r == 46 then Some(NandXClk)
    else if r == 47 then Some(NandClk)
    else if r == 48 then Some(NandEccClk)
    else None
  }

  /** Distinct names have distinct ranks. */
  lemma NameRankInjective(a: ClkName, b: ClkName)
    ensures NameRank(a) == NameRank(b) <==> a == b
  {
    if NameRank(a) == NameRank(b) {
      assert Some(a) == NameOwner(NameRank(a)) == NameOwner(NameRank(b)) == Some(b);
    }
  }

  /** The spelling of a clock name, as the C string literal. */
  function Text(n: ClkName): string
  {
    match n
    case Osc1 => "osc1"
    case CbIntoscHsDiv2Clk => "cb-intosc-hs-div2-clk"
    case F2sFreeClk => "f2s-free-clk"
    case BootClk => "boot_clk"
    case MainPll => "main_pll"
    case PeriphPll => "periph_pll"
    case MainPllC0 => "main_pll_c0"
    case MainPllC1 => "main_pll_c1"
    case MainPllC2 => "main_pll_c2"
    case MainPllC3 => "main_pll_c3"
    case PeriPllC0 => "peri_pll_c0"
    case PeriPllC1 => "peri_pll_c1"
    case PeriPllC2 => "peri_pll_c2"
    case PeriPllC3 => "peri_pll_c3"
    case MpuFreeClk => "mpu_free_clk"
    case NocFreeClk => "noc_free_clk"
    case L4SysFreeClk => "l4_sys_free_clk"
    case EmacaFreeClk => "emaca_free_clk"
    case EmacbFreeClk => "emacb_free_clk"
    case EmacPtpFreeClk => "emac_ptp_free_clk"
    case GpioDbFreeClk => "gpio_db_free_clk"
    case SdmmcFreeClk => "sdmmc_free_clk"
    case S2fUser0FreeClk => "s2f_user0_free_clk"
    case S2fUser1FreeClk => "s2f_user1_free_clk"
    case PsiRefFreeClk => "psi_ref_free_clk"
    case MpuClk => "mpu_clk"
    case MpuPeriphClk => "mpu_periph_clk"
    case MpuCcuClk => "mpu_ccu_clk"
    case L4MainClk => "l4_main_clk"
    case L4MpClk => "l4_mp_clk"
    case L4SpClk => "l4_sp_clk"
    case CsAtClk => "cs_at_clk"
    case CsTraceClk => "cs_trace_clk"
    case CsPdbgClk => "cs_pdbg_clk"
    case CsTimerClk => "cs_timer_clk"
    case S2fUser0Clk => "s2f_user0_clk"
    case Emac0Clk => "emac0_clk"
    case Emac1Clk => "emac1_clk"
    case Emac2Clk => "emac2_clk"
    case EmacPtpClk => "emac_ptp_clk"
    case GpioDbClk => "gpio_db_clk"
    case SdmmcClk => "sdmmc_clk"
    case S2fUser1Clk => "s2f_user1_clk"
    case PsiRefClk => "psi_ref_clk"
    case UsbClk => "usb_clk"
    case SpiMClk => "spi_m_clk"
    case NandXClk => "nand_x_clk"
    case NandClk => "nand_clk"
    case NandEccClk => "nand_ecc_clk"
  }

  /** The name spelt `s`, if the driver uses that spelling (sorted by length, then first letter). */
  function FromText(s: string): Option<ClkName>
  {
    if |s| == 4 then
      if s == "osc1" then Some(Osc1)
      else None
    else if |s| == 7 then
      if s[0] == 'm' then
        if s == "mpu_clk" then Some(MpuClk)
        else None
      else if s[0] == 'u' then
        if s == "usb_clk" then Some(UsbClk)
        else None
      else None
    else if |s| == 8 then
      if s[0] == 'b' then
        if s == "boot_clk" then Some(BootClk)
        else None
      else if s[0] == 'm' then
        if s == "main_pll" then Some(MainPll)
        else None
      else if s[0] == 'n' then
        if s == "nand_clk" then Some(NandClk)
        else None
      else None
    else if |s| == 9 then
      if s[0] == 'c' then
        if s == "cs_at_clk" then Some(CsAtClk)
        else None
      else if s[0] == 'e' then
        if s == "emac0_clk" then Some(Emac0Clk)
        else if s == "emac1_clk" then Some(Emac1Clk)
        else if s == "emac2_clk" then Some(Emac2Clk)
        else None
      else if s[0] == 'l' then
        if s == "l4_mp_clk" then Some(L4MpClk)
        else if s == "l4_sp_clk" then Some(L4SpClk)
        else None
      else if s[0] == 's' then
        if s == "sdmmc_clk" then Some(SdmmcClk)
        else if s == "spi_m_clk" then Some(SpiMClk)
        else None
      else None
    else if |s| == 10 then
      if s[0] == 'n' then
        if s == "nand_x_clk" then Some(NandXClk)
        else None
      else if s[0] == 'p' then
        if s == "periph_pll" then Some(PeriphPll)
        else None
      else None
    else if |s| == 11 then
      if s[0] == 'c' then
        if s == "cs_pdbg_clk" then Some(CsPdbgClk)
        else None
      else if s[0] == 'g' then
        if s == "gpio_db_clk" then Some(GpioDbClk)
        else None
      else if s[0] == 'l' then
        if s == "l4_main_clk" then Some(L4MainClk)
        else None
      else if s[0] == 'm' then
        if s == "main_pll_c0" then Some(MainPllC0)
        else if s == "main_pll_c1" then Some(MainPllC1)
        else if s == "main_pll_c2" then Some(MainPllC2)
        else if s == "main_pll_c3" then Some(MainPllC3)
        else if s == "mpu_ccu_clk" then Some(MpuCcuClk)
        else None
      else if s[0] == 'p' then
        if s == "peri_pll_c0" then Some(PeriPllC0)
        else if s == "peri_pll_c1" then Some(PeriPllC1)
        else if s == "peri_pll_c2" then Some(PeriPllC2)
        else if s == "peri_pll_c3" then Some(PeriPllC3)
        else if s == "psi_ref_clk" then Some(PsiRefClk)
        else None
      else None
    else if |s| == 12 then
      if s[0] == 'c' then
        if s == "cs_trace_clk" then Some(CsTraceClk)
        else if s == "cs_timer_clk" then Some(CsTimerClk)
        else None
      else if s[0] == 'e' then
        if s == "emac_ptp_clk" then Some(EmacPtpClk)
        else None
      else if s[0] == 'f' then
        if s == "f2s-free-clk" then Some(F2sFreeClk)
        else None
      else if s[0] == 'm' then
        if s == "mpu_free_clk" then Some(MpuFreeClk)
        else None
      else if s[0] == 'n' then
        if s == "noc_free_clk" then Some(NocFreeClk)
        else if s == "nand_ecc_clk" then Some(NandEccClk)
        else None
      else None
    else if |s| == 13 then
      if s == "s2f_user0_clk" then Some(S2fUser0Clk)
      else if s == "s2f_user1_clk" then Some(S2fUser1Clk)
      else None
    else if |s| == 14 then
      if s[0] == 'e' then
        if s == "emaca_free_clk" then Some(EmacaFreeClk)
        else if s == "emacb_free_clk" then Some(EmacbFreeClk)
        else None
      else if s[0] == 'm' then
        if s == "mpu_periph_clk" then Some(MpuPeriphClk)
        else None
      else if s[0] == 's' then
        if s == "sdmmc_free_clk" then Some(SdmmcFreeClk)
        else None
      else None
    else if |s| == 15 then
      if s == "l4_sys_free_clk" then Some(L4SysFreeClk)
      else None
    else if |s| == 16 then
      if s[0] == 'g' then
        if s == "gpio_db_free_clk" then Some(GpioDbFreeClk)
        else None
      else if s[0] == 'p' then
        if s == "psi_ref_free_clk" then Some(PsiRefFreeClk)
        else None
      else None
    else if |s| == 17 then
      if s == "emac_ptp_free_clk" then Some(EmacPtpFreeClk)
      else None
    else if |s| == 18 then
      if s == "s2f_user0_free_clk" then Some(S2fUser0FreeClk)
      else if s == "s2f_user1_free_clk" then Some(S2fUser1FreeClk)
      else None
    else if |s| == 21 then
      if s == "cb-intosc-hs-div2-clk" then Some(CbIntoscHsDiv2Clk)
      else None
    else None
  }

  /** Reading a name's spelling back gives the name: every spelling belongs to one name. */
  lemma FromTextOfText(n: ClkName)
    ensures FromText(Text(n)) == Some(n)
  {
    if n.Osc1? || n.CbIntoscHsDiv2Clk? || n.F2sFreeClk? || n.BootClk? {
      FromTextOfTextPart1(n);
    } else if n.MainPll? || n.PeriphPll? || n.MainPllC0? || n.MainPllC1? {
      FromTextOfTextPart2(n);
    } else if n.MainPllC2? || n.MainPllC3? || n.PeriPllC0? || n.PeriPllC1? {
      FromTextOfTextPart3(n);
    } else if n.PeriPllC2? || n.PeriPllC3? || n.MpuFreeClk? || n.NocFreeClk? {
      FromTextOfTextPart4(n);
    } else if n.L4SysFreeClk? || n.EmacaFreeClk? || n.EmacbFreeClk? || n.EmacPtpFreeClk? {
      FromTextOfTextPart5(n);
    } else if n.GpioDbFreeClk? || n.SdmmcFreeClk? || n.S2fUser0FreeClk? || n.S2fUser1FreeClk? {
      FromTextOfTextPart6(n);
    } else if n.PsiRefFreeClk? || n.MpuClk? || n.MpuPeriphClk? || n.MpuCcuClk? {
      FromTextOfTextPart7(n);
    } else if n.L4MainClk? || n.L4MpClk? || n.L4SpClk? || n.CsAtClk? {
      FromTextOfTextPart8(n);
    } else if n.CsTraceClk? || n.CsPdbgClk? || n.CsTimerClk? || n.S2fUser0Clk? {
      FromTextOfTextPart9(n);
    } else if n.Emac0Clk? || n.Emac1Clk? || n.Emac2Clk? || n.EmacPtpClk? {
      FromTextOfTextPart10(n);
    } else if n.GpioDbClk? || n.SdmmcClk? || n.S2fUser1Clk? || n.PsiRefClk? {
      FromTextOfTextPart11(n);
    } else if n.UsbClk? || n.SpiMClk? || n.NandXClk? || n.NandClk? {
      FromTextOfTextPart12(n);
    } else {
      FromTextOfTextPart13(n);
    }
  }

  // FromTextOfTextPart1 to FromTextOfTextPart13 are FromTextOfText for four
  // names at a time. They state nothing new: the split only keeps each proof
  // small enough for the solver.

  lemma FromTextOfTextPart1(n: ClkName)
    requires n.Osc1? || n.CbIntoscHsDiv2Clk? || n.F2sFreeClk? || n.BootClk?
    ensures FromText(Text(n)) == Some(n)
  {
  }

  lemma FromTextOfTextPart2(n: ClkName)
    requires n.MainPll? || n.PeriphPll? || n.MainPllC0? || n.MainPllC1?
    ensures FromText(Text(n)) == Some(n)
  {
  }

  lemma FromTextOfTextPart3(n: ClkName)
    requires n.MainPllC2? || n.MainPllC3? || n.PeriPllC0? || n.PeriPllC1?
    ensures FromText(Text(n)) == Some(n)
  {
  }

  lemma FromTextOfTextPart4(n: ClkName)
    requires n.PeriPllC2? || n.PeriPllC3? || n.MpuFreeClk? || n.NocFreeClk?
    ensures FromText(Text(n)) == Some(n)
  {
  }

  lemma FromTextOfTextPart5(n: ClkName)
    requires n.L4SysFreeClk? || n.EmacaFreeClk? || n.EmacbFreeClk? || n.EmacPtpFreeClk?
    ensures FromText(Text(n)) == Some(n)
  {
  }

  lemma FromTextOfTextPart6(n: ClkName)
    requires n.GpioDbFreeClk? || n.SdmmcFreeClk? || n.S2fUser0FreeClk? || n.S2fUser1FreeClk?
    ensures FromText(Text(n)) == Some(n)
  {
  }

  lemma FromTextOfTextPart7(n: ClkName)
    requires n.PsiRefFreeClk? || n.MpuClk? || n.MpuPeriphClk? || n.MpuCcuClk?
    ensures FromText(Text(n)) == Some(n)
  {
  }

  lemma FromTextOfTextPart8(n: ClkName)
    requires n.L4MainClk? || n.L4MpClk? || n.L4SpClk? || n.CsAtClk?
    ensures FromText(Text(n)) == Some(n)
  {
  }

  lemma FromTextOfTextPart9(n: ClkName)
    requires n.CsTraceClk? || n.CsPdbgClk? || n.CsTimerClk? || n.S2fUser0Clk?
    ensures FromText(Text(n)) == Some(n)
  {
  }

  lemma FromTextOfTextPart10(n: ClkName)
    requires n.Emac0Clk? || n.Emac1Clk? || n.Emac2Clk? || n.EmacPtpClk?
    ensures FromText(Text(n)) == Some(n)
  {
  }

  lemma FromTextOfTextPart11(n: ClkName)
    requires n.GpioDbClk? || n.SdmmcClk? || n.S2fUser1Clk? || n.PsiRefClk?
    ensures FromText(Text(n)) == Some(n)
  {
  }

  lemma FromTextOfTextPart12(n: ClkName)
    requires n.UsbClk? || n.SpiMClk? || n.NandXClk? || n.NandClk?
    ensures FromText(Text(n)) == Some(n)
  {
  }

  lemma FromTextOfTextPart13(n: ClkName)
    requires n.NandEccClk?
    ensures FromText(Text(n)) == Some(n)
  {
  }

  /** Two names are the same name exactly when they are spelt the same. */
  lemma TextInjective(a: ClkName, b: ClkName)
    ensures Text(a) == Text(b) <==> a == b
  {
    if Text(a) == Text(b) {
      FromTextOfText(a);
      FromTextOfText(b);
      assert Some(a) == FromText(Text(a)) == FromText(Text(b)) == Some(b);
    }
  }
}
