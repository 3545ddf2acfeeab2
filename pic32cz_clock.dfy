/**
 * PIC32CZ CA clock identifiers. `MCHP_CLOCK_DERIVE_ID` packs five fields
 * into one 32-bit ID: the clock subsystem type in bits 31..26, the MCLK mask
 * register in bits 25..20, the MCLK mask bit in bits 19..14, the GCLK
 * peripheral channel in bits 13..8 and the instance number in bits 7..0. The
 * predefined IDs are grouped by type, and each group's instances count up
 * from 0; a field a clock does not use holds 0x3f.
 */
module Pic32czClock {
  import opened Common

  /** The five arguments of `MCHP_CLOCK_DERIVE_ID`. */
  datatype Fields = Fields(typ: U32, reg: U32, bit: U32, periph: U32, inst: U32)

  /** `MCHP_CLOCK_DERIVE_ID`: the fields shifted into place and or-ed, none of them masked. */
  function DeriveId(f: Fields): bv32
  {
    ((f.typ as bv32) << 26) | ((f.reg as bv32) << 20) | ((f.bit as bv32) << 14) | ((f.periph as bv32) << 8) | (f.inst as bv32)
  }

  /** The layout's extractors: each field read back through its own width. */
  function IdType(id: bv32): bv32 { (id >> 26) & 0x3F }
  function IdReg(id: bv32): bv32 { (id >> 20) & 0x3F }
  function IdBit(id: bv32): bv32 { (id >> 14) & 0x3F }
  function IdPeriph(id: bv32): bv32 { (id >> 8) & 0x3F }
  function IdInst(id: bv32): bv32 { id & 0xFF }

  /** Each field fits its width in the layout: 8 bits for the instance, 6 for the others. */
  predicate InWidth(f: Fields)
  {
    f.typ < 64 && f.reg < 64 && f.bit < 64 && f.periph < 64 && f.inst < 256
  }

  /** A number below 256 as a word keeps its bound. */
  lemma WordBound(x: int)
    requires 0 <= x < 256
    ensures x as bv32 < 256 && (x < 64 ==> x as bv32 < 64)
  {
  }

  /** A number below 256 as a word: its low byte, zero-extended, from which the number comes back. */
  lemma WordBack(x: int)
    requires 0 <= x < 256
    ensures x as bv32 == (x as bv8) as bv32 && (x as bv8) as int == x
  {
  }

  /** The extractors recover every field of an in-width ID. */
  lemma ExtractDerive(f: Fields)
    requires InWidth(f)
    ensures IdType(DeriveId(f)) == f.typ as bv32 && IdReg(DeriveId(f)) == f.reg as bv32
    ensures IdBit(DeriveId(f)) == f.bit as bv32 && IdPeriph(DeriveId(f)) == f.periph as bv32
    ensures IdInst(DeriveId(f)) == f.inst as bv32
  {
    WordBound(f.typ);
    WordBound(f.reg);
    WordBound(f.bit);
    WordBound(f.periph);
    WordBound(f.inst);
  }

  /** Distinct in-width fields give distinct IDs. */
  lemma DeriveInjective(f: Fields, g: Fields)
    requires InWidth(f) && InWidth(g) && DeriveId(f) == DeriveId(g)
    ensures f == g
  {
    ExtractDerive(f);
    ExtractDerive(g);
    WordBack(f.typ);
    WordBack(f.reg);
    WordBack(f.bit);
    WordBack(f.periph);
    WordBack(f.inst);
    WordBack(g.typ);
    WordBack(g.reg);
    WordBack(g.bit);
    WordBack(g.periph);
    WordBack(g.inst);
  }

  /**
   * Without the widths the encoding is not injective: an instance number of
   * 256 spills into the peripheral channel.
   */
  lemma InstSpills()
    ensures DeriveId(Fields(0, 0, 0, 1, 0)) == DeriveId(Fields(0, 0, 0, 0, 0x100))
    ensures Fields(0, 0, 0, 1, 0) != Fields(0, 0, 0, 0, 0x100)
  {
  }

  /** The MCLK mask register field: MCLKMSK0..2, or 0x3f for a clock without an MCLK mask. */
  predicate MaskRegValue(r: int)
  {
    r == 0 || r == 1 || r == 2 || r == 0x3F
  }

  /** The MCLK mask bit field: a bit of a 32-bit mask register, or 0x3f for none. */
  predicate MaskBitValue(b: int)
  {
    b <= 31 || b == 0x3F
  }

  /** The GCLK peripheral channel numbers as the layout comment documents them, 0..47. */
  predicate DocumentedPeriph(p: int)
  {
    p <= 47
  }

  /** The GCLK peripheral channel numbers the field holds (PCHCTRLm, m in 0..63). */
  predicate PeriphValue(p: int)
  {
    p <= 63
  }

  /**
   * A run of predefined IDs of type `t` whose instance numbers count up from
   * `start` in order, with every field holding a value its layout allows.
   */
  predicate GroupFrom(ids: seq<Fields>, t: int, start: int)
  {
    forall i | 0 <= i < |ids| ::
      && ids[i].typ == t && ids[i].inst == start + i
      && InWidth(ids[i]) && MaskRegValue(ids[i].reg) && MaskBitValue(ids[i].bit) && PeriphValue(ids[i].periph)
  }

  /** Two runs that follow on from each other make one run. */
  lemma GroupConcat(a: seq<Fields>, b: seq<Fields>, t: int, start: int)
    requires GroupFrom(a, t, start) && GroupFrom(b, t, start + |a|)
    ensures GroupFrom(a + b, t, start)
  {
  }

  /** `XOSC` clock IDs (lines 69-69). */
  const XoscIds: seq<Fields> := [
    Fields(0, 0x3f, 0x3f, 0x3f, 0) // XOSC_ID
  ]

  /** `DFLL48M` clock IDs (lines 79-79). */
  const Dfll48mIds: seq<Fields> := [
    Fields(1, 0x3f, 0x3f, 0, 0) // DFLL48M_ID
  ]

  /** `DPLL` clock IDs (lines 89-91). */
  const DpllIds: seq<Fields> := [
    Fields(2, 0x3f, 0x3f, 1, 0), // DPLL_ID_DPLL0
    Fields(2, 0x3f, 0x3f, 2, 1) // DPLL_ID_DPLL1
  ]

  /** `DPLL_OUT` clock IDs (lines 101-115). */
  const DpllOutIds: seq<Fields> := [
    Fields(3, 0x3f, 0x3f, 0x3f, 0), // DPLL0_ID_OUT0
    Fields(3, 0x3f, 0x3f, 0x3f, 1), // DPLL0_ID_OUT1
    Fields(3, 0x3f, 0x3f, 0x3f, 2), // DPLL0_ID_OUT2
    Fields(3, 0x3f, 0x3f, 0x3f, 3), // DPLL0_ID_OUT3
    Fields(3, 0x3f, 0x3f, 0x3f, 4), // DPLL1_ID_OUT0
    Fields(3, 0x3f, 0x3f, 0x3f, 5), // DPLL1_ID_OUT1
    Fields(3, 0x3f, 0x3f, 0x3f, 6), // DPLL1_ID_OUT2
    Fields(3, 0x3f, 0x3f, 0x3f, 7) // DPLL1_ID_OUT3
  ]

  /** `RTC` clock IDs (lines 125-125). */
  const RtcIds: seq<Fields> := [
    Fields(4, 0x3f, 0x3f, 0x3f, 0) // RTC_ID
  ]

  /** `XOSC32K` clock IDs (lines 135-135). */
  const Xosc32kIds: seq<Fields> := [
    Fields(5, 0x3f, 0x3f, 0x3f, 0) // XOSC32K_ID
  ]

  /** `GCLKGEN` clock IDs (lines 145-175). */
  const GclkGenIds: seq<Fields> := [
    Fields(6, 0x3f, 0x3f, 0x3f, 0), // GCLKGEN_ID_GEN0
    Fields(6, 0x3f, 0x3f, 0x3f, 1), // GCLKGEN_ID_GEN1
    Fields(6, 0x3f, 0x3f, 0x3f, 2), // GCLKGEN_ID_GEN2
    Fields(6, 0x3f, 0x3f, 0x3f, 3), // GCLKGEN_ID_GEN3
    Fields(6, 0x3f, 0x3f, 0x3f, 4), // GCLKGEN_ID_GEN4
    Fields(6, 0x3f, 0x3f, 0x3f, 5), // GCLKGEN_ID_GEN5
    Fields(6, 0x3f, 0x3f, 0x3f, 6), // GCLKGEN_ID_GEN6
    Fields(6, 0x3f, 0x3f, 0x3f, 7), // GCLKGEN_ID_GEN7
    Fields(6, 0x3f, 0x3f, 0x3f, 8), // GCLKGEN_ID_GEN8
    Fields(6, 0x3f, 0x3f, 0x3f, 9), // GCLKGEN_ID_GEN9
    Fields(6, 0x3f, 0x3f, 0x3f, 10), // GCLKGEN_ID_GEN10
    Fields(6, 0x3f, 0x3f, 0x3f, 11), // GCLKGEN_ID_GEN11
    Fields(6, 0x3f, 0x3f, 0x3f, 12), // GCLKGEN_ID_GEN12
    Fields(6, 0x3f, 0x3f, 0x3f, 13), // GCLKGEN_ID_GEN13
    Fields(6, 0x3f, 0x3f, 0x3f, 14), // GCLKGEN_ID_GEN14
    Fields(6, 0x3f, 0x3f, 0x3f, 15) // GCLKGEN_ID_GEN15
  ]

  /** `GCLKPERIPH` clock IDs, part 1 (lines 185-215). */
  const GclkPeriphIds0: seq<Fields> := [
    Fields(7, 0x3f, 0x3f, 3, 0), // GCLKPERIPH_ID_FREQM_MSR
    Fields(7, 0x3f, 0x3f, 4, 1), // GCLKPERIPH_ID_FREQM_REF
    Fields(7, 0x3f, 0x3f, 5, 2), // GCLKPERIPH_ID_EIC
    Fields(7, 0x3f, 0x3f, 6, 3), // GCLKPERIPH_ID_EVSYS_CH0
    Fields(7, 0x3f, 0x3f, 7, 4), // GCLKPERIPH_ID_EVSYS_CH1
    Fields(7, 0x3f, 0x3f, 8, 5), // GCLKPERIPH_ID_EVSYS_CH2
    Fields(7, 0x3f, 0x3f, 9, 6), // GCLKPERIPH_ID_EVSYS_CH3
    Fields(7, 0x3f, 0x3f, 10, 7), // GCLKPERIPH_ID_EVSYS_CH4
    Fields(7, 0x3f, 0x3f, 11, 8), // GCLKPERIPH_ID_EVSYS_CH5
    Fields(7, 0x3f, 0x3f, 12, 9), // GCLKPERIPH_ID_EVSYS_CH6
    Fields(7, 0x3f, 0x3f, 13, 10), // GCLKPERIPH_ID_EVSYS_CH7
    Fields(7, 0x3f, 0x3f, 14, 11), // GCLKPERIPH_ID_EVSYS_CH8
    Fields(7, 0x3f, 0x3f, 15, 12), // GCLKPERIPH_ID_EVSYS_CH9
    Fields(7, 0x3f, 0x3f, 16, 13), // GCLKPERIPH_ID_EVSYS_CH10
    Fields(7, 0x3f, 0x3f, 17, 14), // GCLKPERIPH_ID_EVSYS_CH11
    Fields(7, 0x3f, 0x3f, 18, 15) // GCLKPERIPH_ID_SERCOM0_SLOW
  ]

  /** `GCLKPERIPH` clock IDs, part 2 (lines 217-247). */
  const GclkPeriphIds1: seq<Fields> := [
    Fields(7, 0x3f, 0x3f, 18, 16), // GCLKPERIPH_ID_SERCOM1_SLOW
    Fields(7, 0x3f, 0x3f, 18, 17), // GCLKPERIPH_ID_SERCOM4_SLOW
    Fields(7, 0x3f, 0x3f, 19, 18), // GCLKPERIPH_ID_SERCOM2_SLOW
    Fields(7, 0x3f, 0x3f, 19, 19), // GCLKPERIPH_ID_SERCOM3_SLOW
    Fields(7, 0x3f, 0x3f, 19, 20), // GCLKPERIPH_ID_SERCOM5_SLOW
    Fields(7, 0x3f, 0x3f, 19, 21), // GCLKPERIPH_ID_SERCOM6_SLOW
    Fields(7, 0x3f, 0x3f, 20, 22), // GCLKPERIPH_ID_SERCOM7_SLOW
    Fields(7, 0x3f, 0x3f, 20, 23), // GCLKPERIPH_ID_SERCOM8_SLOW
    Fields(7, 0x3f, 0x3f, 20, 24), // GCLKPERIPH_ID_SERCOM9_SLOW
    Fields(7, 0x3f, 0x3f, 21, 25), // GCLKPERIPH_ID_SERCOM0_CORE
    Fields(7, 0x3f, 0x3f, 22, 26), // GCLKPERIPH_ID_SERCOM1_CORE
    Fields(7, 0x3f, 0x3f, 23, 27), // GCLKPERIPH_ID_SERCOM2_CORE
    Fields(7, 0x3f, 0x3f, 24, 28), // GCLKPERIPH_ID_SERCOM3_CORE
    Fields(7, 0x3f, 0x3f, 25, 29), // GCLKPERIPH_ID_SERCOM4_CORE
    Fields(7, 0x3f, 0x3f, 26, 30), // GCLKPERIPH_ID_SERCOM5_CORE
    Fields(7, 0x3f, 0x3f, 27, 31) // GCLKPERIPH_ID_SERCOM6_CORE
  ]

  /** `GCLKPERIPH` clock IDs, part 3 (lines 249-279). */
  const GclkPeriphIds2: seq<Fields> := [
    Fields(7, 0x3f, 0x3f, 28, 32), // GCLKPERIPH_ID_SERCOM7_CORE
    Fields(7, 0x3f, 0x3f, 29, 33), // GCLKPERIPH_ID_SERCOM8_CORE
    Fields(7, 0x3f, 0x3f, 30, 34), // GCLKPERIPH_ID_SERCOM9_CORE
    Fields(7, 0x3f, 0x3f, 31, 35), // GCLKPERIPH_ID_TCC0
    Fields(7, 0x3f, 0x3f, 32, 36), // GCLKPERIPH_ID_TCC1
    Fields(7, 0x3f, 0x3f, 33, 37), // GCLKPERIPH_ID_TCC2
    Fields(7, 0x3f, 0x3f, 37, 38), // GCLKPERIPH_ID_TCC6
    Fields(7, 0x3f, 0x3f, 38, 39), // GCLKPERIPH_ID_TCC7
    Fields(7, 0x3f, 0x3f, 39, 40), // GCLKPERIPH_ID_TCC8
    Fields(7, 0x3f, 0x3f, 40, 41), // GCLKPERIPH_ID_TCC9
    Fields(7, 0x3f, 0x3f, 41, 42), // GCLKPERIPH_ID_ADC
    Fields(7, 0x3f, 0x3f, 42, 43), // GCLKPERIPH_ID_AC
    Fields(7, 0x3f, 0x3f, 43, 44), // GCLKPERIPH_ID_PTC
    Fields(7, 0x3f, 0x3f, 44, 45), // GCLKPERIPH_ID_I2S0
    Fields(7, 0x3f, 0x3f, 45, 46), // GCLKPERIPH_ID_I2S1
    Fields(7, 0x3f, 0x3f, 46, 47) // GCLKPERIPH_ID_CAN0
  ]

  /** `GCLKPERIPH` clock IDs, part 4 (lines 281-309). */
  const GclkPeriphIds3: seq<Fields> := [
    Fields(7, 0x3f, 0x3f, 47, 48), // GCLKPERIPH_ID_CAN1
    Fields(7, 0x3f, 0x3f, 48, 49), // GCLKPERIPH_ID_CAN2
    Fields(7, 0x3f, 0x3f, 49, 50), // GCLKPERIPH_ID_CAN3
    Fields(7, 0x3f, 0x3f, 50, 51), // GCLKPERIPH_ID_CAN4
    Fields(7, 0x3f, 0x3f, 51, 52), // GCLKPERIPH_ID_CAN5
    Fields(7, 0x3f, 0x3f, 54, 53), // GCLKPERIPH_ID_GMAC_TX
    Fields(7, 0x3f, 0x3f, 55, 54), // GCLKPERIPH_ID_GMAC_TSU
    Fields(7, 0x3f, 0x3f, 56, 55), // GCLKPERIPH_ID_SQI0
    Fields(7, 0x3f, 0x3f, 57, 56), // GCLKPERIPH_ID_SQI1
    Fields(7, 0x3f, 0x3f, 58, 57), // GCLKPERIPH_ID_SDHC0_CORE
    Fields(7, 0x3f, 0x3f, 59, 58), // GCLKPERIPH_ID_SDHC0_SLOW
    Fields(7, 0x3f, 0x3f, 60, 59), // GCLKPERIPH_ID_SDHC1_CORE
    Fields(7, 0x3f, 0x3f, 61, 60), // GCLKPERIPH_ID_SDHC1_SLOW
    Fields(7, 0x3f, 0x3f, 62, 61), // GCLKPERIPH_ID_MLB
    Fields(7, 0x3f, 0x3f, 63, 62) // GCLKPERIPH_ID_CM7_TRACE
  ]

  /** All `GCLKPERIPH` clock IDs. */
  const GclkPeriphIds: seq<Fields> := GclkPeriphIds0 + GclkPeriphIds1 + GclkPeriphIds2 + GclkPeriphIds3

  /** `MCLKDOMAIN` clock IDs (lines 319-321). */
  const MclkDomainIds: seq<Fields> := [
    Fields(8, 0x3f, 0x3f, 0x3f, 0), // MCLKDOMAIN_ID_CPU
    Fields(8, 0x3f, 0x3f, 0x3f, 1) // MCLKDOMAIN_ID_PERIPH
  ]

  /** `MCLKPERIPH` clock IDs, part 1 (lines 332-362). */
  const MclkPeriphIds0: seq<Fields> := [
    Fields(9, 0, 0, 0x3f, 0), // MCLKPERIPH_ID_DSU_AHB
    Fields(9, 0, 1, 0x3f, 1), // MCLKPERIPH_ID_DSU_APB
    Fields(9, 0, 2, 0x3f, 2), // MCLKPERIPH_ID_FCW_AHB
    Fields(9, 0, 3, 0x3f, 3), // MCLKPERIPH_ID_FCW_APB
    Fields(9, 0, 4, 0x3f, 4), // MCLKPERIPH_ID_FCR_AHB
    Fields(9, 0, 5, 0x3f, 5), // MCLKPERIPH_ID_FCR_APB
    Fields(9, 0, 6, 0x3f, 6), // MCLKPERIPH_ID_PM
    Fields(9, 0, 7, 0x3f, 7), // MCLKPERIPH_ID_SUPC
    Fields(9, 0, 8, 0x3f, 8), // MCLKPERIPH_ID_RSTC
    Fields(9, 0, 9, 0x3f, 9), // MCLKPERIPH_ID_OSCCTRL
    Fields(9, 0, 10, 0x3f, 10), // MCLKPERIPH_ID_OSC32KCTRL
    Fields(9, 0, 13, 0x3f, 11), // MCLKPERIPH_ID_FREQM
    Fields(9, 0, 14, 0x3f, 12), // MCLKPERIPH_ID_WDT
    Fields(9, 0, 15, 0x3f, 13), // MCLKPERIPH_ID_RTC
    Fields(9, 0, 16, 0x3f, 14), // MCLKPERIPH_ID_EIC
    Fields(9, 0, 17, 0x3f, 15) // MCLKPERIPH_ID_PAC_AHB
  ]

  /** `MCLKPERIPH` clock IDs, part 2 (lines 364-395). */
  const MclkPeriphIds1: seq<Fields> := [
    Fields(9, 0, 18, 0x3f, 16), // MCLKPERIPH_ID_PAC_APB
    Fields(9, 0, 19, 0x3f, 17), // MCLKPERIPH_ID_DRMTCM
    Fields(9, 0, 20, 0x3f, 18), // MCLKPERIPH_ID_MCRAMC
    Fields(9, 0, 21, 0x3f, 19), // MCLKPERIPH_ID_TRAM
    Fields(9, 0, 22, 0x3f, 20), // MCLKPERIPH_ID_PORT_AHB
    Fields(9, 0, 23, 0x3f, 21), // MCLKPERIPH_ID_PORT_APB
    Fields(9, 0, 24, 0x3f, 22), // MCLKPERIPH_ID_DMAC_AHB
    Fields(9, 0, 25, 0x3f, 23), // MCLKPERIPH_ID_DMAC_APB
    Fields(9, 0, 26, 0x3f, 24), // MCLKPERIPH_ID_BUS_AHB
    Fields(9, 0, 27, 0x3f, 25), // MCLKPERIPH_ID_BUS_APB
    Fields(9, 0, 28, 0x3f, 26), // MCLKPERIPH_ID_BOOT_ROM_AHB
    Fields(9, 0, 29, 0x3f, 27), // MCLKPERIPH_ID_BOOT_ROM_APB
    Fields(9, 0, 30, 0x3f, 28), // MCLKPERIPH_ID_EVSYS
    Fields(9, 0, 31, 0x3f, 29), // MCLKPERIPH_ID_SERCOM0
    Fields(9, 1, 0, 0x3f, 30), // MCLKPERIPH_ID_SERCOM1
    Fields(9, 1, 1, 0x3f, 31) // MCLKPERIPH_ID_SERCOM2
  ]

  /** `MCLKPERIPH` clock IDs, part 3 (lines 397-427). */
  const MclkPeriphIds2: seq<Fields> := [
    Fields(9, 1, 2, 0x3f, 32), // MCLKPERIPH_ID_SERCOM3
    Fields(9, 1, 3, 0x3f, 33), // MCLKPERIPH_ID_SERCOM4
    Fields(9, 1, 4, 0x3f, 34), // MCLKPERIPH_ID_SERCOM5
    Fields(9, 1, 5, 0x3f, 35), // MCLKPERIPH_ID_SERCOM6
    Fields(9, 1, 6, 0x3f, 36), // MCLKPERIPH_ID_SERCOM7
    Fields(9, 1, 7, 0x3f, 37), // MCLKPERIPH_ID_SERCOM8
    Fields(9, 1, 8, 0x3f, 38), // MCLKPERIPH_ID_SERCOM9
    Fields(9, 1, 9, 0x3f, 39), // MCLKPERIPH_ID_TCC0
    Fields(9, 1, 10, 0x3f, 40), // MCLKPERIPH_ID_TCC1
    Fields(9, 1, 11, 0x3f, 41), // MCLKPERIPH_ID_TCC2
    Fields(9, 1, 12, 0x3f, 42), // MCLKPERIPH_ID_TCC3
    Fields(9, 1, 13, 0x3f, 43), // MCLKPERIPH_ID_TCC4
    Fields(9, 1, 14, 0x3f, 44), // MCLKPERIPH_ID_TCC5
    Fields(9, 1, 15, 0x3f, 45), // MCLKPERIPH_ID_TCC6
    Fields(9, 1, 16, 0x3f, 46), // MCLKPERIPH_ID_TCC7
    Fields(9, 1, 17, 0x3f, 47) // MCLKPERIPH_ID_TCC8
  ]

  /** `MCLKPERIPH` clock IDs, part 4 (lines 429-460). */
  const MclkPeriphIds3: seq<Fields> := [
    Fields(9, 1, 18, 0x3f, 48), // MCLKPERIPH_ID_TCC9
    Fields(9, 1, 19, 0x3f, 49), // MCLKPERIPH_ID_ADC
    Fields(9, 1, 20, 0x3f, 50), // MCLKPERIPH_ID_AC
    Fields(9, 1, 21, 0x3f, 51), // MCLKPERIPH_ID_PTC
    Fields(9, 1, 22, 0x3f, 52), // MCLKPERIPH_ID_I2S2
    Fields(9, 1, 23, 0x3f, 53), // MCLKPERIPH_ID_I2S1
    Fields(9, 1, 24, 0x3f, 54), // MCLKPERIPH_ID_CAN0
    Fields(9, 1, 25, 0x3f, 55), // MCLKPERIPH_ID_CAN1
    Fields(9, 1, 26, 0x3f, 56), // MCLKPERIPH_ID_CAN2
    Fields(9, 1, 27, 0x3f, 57), // MCLKPERIPH_ID_CAN3
    Fields(9, 1, 28, 0x3f, 58), // MCLKPERIPH_ID_CAN4
    Fields(9, 1, 29, 0x3f, 59), // MCLKPERIPH_ID_CAN5
    Fields(9, 2, 0, 0x3f, 60), // MCLKPERIPH_ID_GMAC_AHB
    Fields(9, 2, 1, 0x3f, 61), // MCLKPERIPH_ID_GMAC_APB
    Fields(9, 2, 2, 0x3f, 62), // MCLKPERIPH_ID_SQI0
    Fields(9, 2, 3, 0x3f, 63) // MCLKPERIPH_ID_SQI1
  ]

  /** `MCLKPERIPH` clock IDs, part 5 (lines 462-484). */
  const MclkPeriphIds4: seq<Fields> := [
    Fields(9, 2, 4, 0x3f, 64), // MCLKPERIPH_ID_TRNG
    Fields(9, 2, 5, 0x3f, 65), // MCLKPERIPH_ID_SDHC0_AHB
    Fields(9, 2, 6, 0x3f, 66), // MCLKPERIPH_ID_SDHC0_APB
    Fields(9, 2, 7, 0x3f, 67), // MCLKPERIPH_ID_SDHC1_AHB
    Fields(9, 2, 8, 0x3f, 68), // MCLKPERIPH_ID_SDHC1_APB
    Fields(9, 2, 9, 0x3f, 69), // MCLKPERIPH_ID_HUSB0
    Fields(9, 2, 10, 0x3f, 70), // MCLKPERIPH_ID_HUSB1
    Fields(9, 2, 11, 0x3f, 71), // MCLKPERIPH_ID_EBI_AHB
    Fields(9, 2, 12, 0x3f, 72), // MCLKPERIPH_ID_EBI_APB
    Fields(9, 2, 13, 0x3f, 73), // MCLKPERIPH_ID_HSM
    Fields(9, 2, 14, 0x3f, 74), // MCLKPERIPH_ID_MLB_AHB
    Fields(9, 2, 15, 0x3f, 75) // MCLKPERIPH_ID_MLB_APB
  ]

  /** All `MCLKPERIPH` clock IDs. */
  const MclkPeriphIds: seq<Fields> := MclkPeriphIds0 + MclkPeriphIds1 + MclkPeriphIds2 + MclkPeriphIds3 + MclkPeriphIds4

  // `*_MAX`: the largest instance number of each type.
  const XoscIdMax := 0
  const Dfll48mIdMax := 0
  const DpllIdMax := 1
  const DpllOutIdMax := 7
  const RtcIdMax := 0
  const Xosc32kIdMax := 0
  const GclkGenIdMax := 15
  const GclkPeriphIdMax := 62
  const MclkDomainMax := 1
  const MclkPeriphIdMax := 75

  /** The predefined IDs, indexed by subsystem type (`SUBSYS_TYPE_XOSC` = 0 ... `SUBSYS_TYPE_MCLKPERIPH` = 9). */
  const Groups: seq<seq<Fields>> := [
    XoscIds, Dfll48mIds, DpllIds, DpllOutIds, RtcIds,
    Xosc32kIds, GclkGenIds, GclkPeriphIds, MclkDomainIds, MclkPeriphIds
  ]

  /** The `*_MAX` constants, indexed by subsystem type. */
  const Maxima: seq<int> := [
    XoscIdMax, Dfll48mIdMax, DpllIdMax, DpllOutIdMax, RtcIdMax,
    Xosc32kIdMax, GclkGenIdMax, GclkPeriphIdMax, MclkDomainMax, MclkPeriphIdMax
  ]

  lemma SmallGroups()
    ensures GroupFrom(XoscIds, 0, 0) && GroupFrom(Dfll48mIds, 1, 0) && GroupFrom(DpllIds, 2, 0)
    ensures GroupFrom(DpllOutIds, 3, 0) && GroupFrom(RtcIds, 4, 0) && GroupFrom(Xosc32kIds, 5, 0)
    ensures GroupFrom(GclkGenIds, 6, 0) && GroupFrom(MclkDomainIds, 8, 0)
  {
  }

  lemma GclkPeriphIds0Run()
    ensures GroupFrom(GclkPeriphIds0, 7, 0)
  {
  }

  lemma GclkPeriphIds1Run()
    ensures GroupFrom(GclkPeriphIds1, 7, 16)
  {
  }

  lemma GclkPeriphIds2Run()
    ensures GroupFrom(GclkPeriphIds2, 7, 32)
  {
  }

  lemma GclkPeriphIds3Run()
    ensures GroupFrom(GclkPeriphIds3, 7, 48)
  {
  }

  lemma GclkPeriphGroup()
    ensures GroupFrom(GclkPeriphIds, 7, 0)
  {
    GclkPeriphIds0Run();
    GclkPeriphIds1Run();
    GclkPeriphIds2Run();
    GclkPeriphIds3Run();
    GroupConcat(GclkPeriphIds0, GclkPeriphIds1, 7, 0);
    GroupConcat(GclkPeriphIds0 + GclkPeriphIds1, GclkPeriphIds2, 7, 0);
    GroupConcat(GclkPeriphIds0 + GclkPeriphIds1 + GclkPeriphIds2, GclkPeriphIds3, 7, 0);
  }

  lemma MclkPeriphIds0Run()
    ensures GroupFrom(MclkPeriphIds0, 9, 0)
  {
  }

  lemma MclkPeriphIds1Run()
    ensures GroupFrom(MclkPeriphIds1, 9, 16)
  {
  }

  lemma MclkPeriphIds2Run()
    ensures GroupFrom(MclkPeriphIds2, 9, 32)
  {
  }

  lemma MclkPeriphIds3Run()
    ensures GroupFrom(MclkPeriphIds3, 9, 48)
  {
  }

  lemma MclkPeriphIds4Run()
    ensures GroupFrom(MclkPeriphIds4, 9, 64)
  {
  }

  lemma MclkPeriphGroup()
    ensures GroupFrom(MclkPeriphIds, 9, 0)
  {
    MclkPeriphIds0Run();
    MclkPeriphIds1Run();
    MclkPeriphIds2Run();
    MclkPeriphIds3Run();
    MclkPeriphIds4Run();
    GroupConcat(MclkPeriphIds0, MclkPeriphIds1, 9, 0);
    GroupConcat(MclkPeriphIds0 + MclkPeriphIds1, MclkPeriphIds2, 9, 0);
    GroupConcat(MclkPeriphIds0 + MclkPeriphIds1 + MclkPeriphIds2, MclkPeriphIds3, 9, 0);
    GroupConcat(MclkPeriphIds0 + MclkPeriphIds1 + MclkPeriphIds2 + MclkPeriphIds3, MclkPeriphIds4, 9, 0);
  }

  /**
   * Every predefined ID has in-width fields holding values the layout allows
   * (type 0..9, mask register MCLKMSK0..2 or 0x3f, mask bit 0..31 or 0x3f,
   * peripheral channel 0..63), and within each type the instance numbers are
   * 0, 1, 2, ... in order, up to the type's `*_MAX`.
   */
  lemma TableWellFormed()
    ensures |Groups| == |Maxima| == 10
    ensures forall t | 0 <= t < 10 :: GroupFrom(Groups[t], t, 0) && |Groups[t]| == Maxima[t] + 1
  {
    SmallGroups();
    GclkPeriphGroup();
    MclkPeriphGroup();
  }

  /** In a run counting up from 0, the count less one is the largest instance number. */
  lemma RunMax(ids: seq<Fields>, t: int, max: int)
    requires max >= 0 && GroupFrom(ids, t, 0) && |ids| == max + 1
    ensures forall e | e in ids :: e.inst <= max
    ensures ids[|ids| - 1].inst == max
  {
    forall e | e in ids
      ensures e.inst <= max
    {
      var i :| 0 <= i < |ids| && ids[i] == e;
    }
  }

  /** Each `*_MAX` constant is the largest instance number of its type. */
  lemma MaxIsLargestInst(t: int)
    requires 0 <= t < 10
    ensures forall e | e in Groups[t] :: e.inst <= Maxima[t]
    ensures Groups[t][|Groups[t]| - 1].inst == Maxima[t]
  {
    TableWellFormed();
    RunMax(Groups[t], t, Maxima[t]);
  }

  /** No two predefined IDs are equal. */
  lemma TableDistinct(t1: int, i1: int, t2: int, i2: int)
    requires 0 <= t1 < |Groups| && 0 <= i1 < |Groups[t1]|
    requires 0 <= t2 < |Groups| && 0 <= i2 < |Groups[t2]|
    requires (t1, i1) != (t2, i2)
    ensures DeriveId(Groups[t1][i1]) != DeriveId(Groups[t2][i2])
  {
    TableWellFormed();
    if DeriveId(Groups[t1][i1]) == DeriveId(Groups[t2][i2]) {
      DeriveInjective(Groups[t1][i1], Groups[t2][i2]);
    }
  }

  /**
   * The layout comment's range for the GCLK peripheral channel, 0..47, is
   * too small for the table: `CLOCK_MCHP_GCLKPERIPH_ID_CAN2` already uses 48
   * and `CLOCK_MCHP_GCLKPERIPH_ID_CM7_TRACE` uses 63.
   */
  lemma DocumentedPeriphTooSmall()
    ensures GclkPeriphIds[49].periph == 48 && !DocumentedPeriph(GclkPeriphIds[49].periph)
    ensures GclkPeriphIds[62].periph == 63 && !DocumentedPeriph(GclkPeriphIds[62].periph)
  {
  }

  /** Every peripheral channel in the table is in the field's range 0..63, the one the parameter comment gives. */
  lemma PeriphWithinField()
    ensures forall t, i | 0 <= t < |Groups| && 0 <= i < |Groups[t]| :: PeriphValue(Groups[t][i].periph)
  {
    TableWellFormed();
  }
}
