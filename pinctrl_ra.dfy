/**
 * Renesas RA pin control: `RA_PSEL` packs a pin's port number (bits 3..0),
 * its pin number within the port (bits 7..4) and its peripheral function code
 * PSEL (bits 12..8), and sets the mode bit 13, which selects the peripheral
 * function. The header also defines the PSEL codes of the peripherals.
 */
module PinctrlRa {

  // Field positions and masks.
  const RaPortNumPos: bv32 := 0
  const RaPortNumMask: bv32 := 0xf
  const RaPinNumPos: bv32 := 4
  const RaPinNumMask: bv32 := 0xf
  const RaPselPos: bv32 := 8
  const RaPselMask: bv32 := 0x1f
  const RaModePos: bv32 := 13
  const RaModeMask: bv32 := 0x1

  /** `RA_PSEL(psel, port_num, pin_num)`: the mode bit and each argument shifted to its position, or-ed, none of them masked. */
  function RaPsel(psel: bv32, port: bv32, pin: bv32): bv32
  {
    (1 << RaModePos) | (psel << RaPselPos) | (port << RaPortNumPos) | (pin << RaPinNumPos)
  }

  /** The port number field of an encoded value. */
  function PortOf(v: bv32): bv32 { (v >> RaPortNumPos) & RaPortNumMask }
  /** The pin number field of an encoded value. */
  function PinOf(v: bv32): bv32 { (v >> RaPinNumPos) & RaPinNumMask }
  /** The PSEL field of an encoded value. */
  function PselOf(v: bv32): bv32 { (v >> RaPselPos) & RaPselMask }
  /** The mode field of an encoded value. */
  function ModeOf(v: bv32): bv32 { (v >> RaModePos) & RaModeMask }

  /** Each argument fits its field's mask. */
  predicate InRange(psel: bv32, port: bv32, pin: bv32)
  {
    psel <= RaPselMask && port <= RaPortNumMask && pin <= RaPinNumMask
  }

  /** The four fields occupy disjoint bits that together make up bits 13..0. */
  lemma FieldsDisjoint()
    ensures (RaPortNumMask << RaPortNumPos) & (RaPinNumMask << RaPinNumPos) == 0
    ensures (RaPortNumMask << RaPortNumPos) & (RaPselMask << RaPselPos) == 0
    ensures (RaPinNumMask << RaPinNumPos) & (RaPselMask << RaPselPos) == 0
    ensures ((RaPortNumMask << RaPortNumPos) | (RaPinNumMask << RaPinNumPos) | (RaPselMask << RaPselPos)) & (RaModeMask << RaModePos) == 0
    ensures (RaPortNumMask << RaPortNumPos) | (RaPinNumMask << RaPinNumPos) | (RaPselMask << RaPselPos) | (RaModeMask << RaModePos) == 0x3FFF
  {
  }

  /** The mode bit of every encoded value is set, whatever the arguments. */
  lemma ModeAlwaysSet(psel: bv32, port: bv32, pin: bv32)
    ensures ModeOf(RaPsel(psel, port, pin)) == 1
  {
  }

  /** In-range arguments are read back from their fields, and the value lies in 2^13..2^14 - 1. */
  lemma RoundTrip(psel: bv32, port: bv32, pin: bv32)
    requires InRange(psel, port, pin)
    ensures PortOf(RaPsel(psel, port, pin)) == port
    ensures PinOf(RaPsel(psel, port, pin)) == pin
    ensures PselOf(RaPsel(psel, port, pin)) == psel
    ensures 0x2000 <= RaPsel(psel, port, pin) < 0x4000
  {
  }

  /** Every value in 2^13..2^14 - 1 is the encoding of the fields read from it. */
  lemma ReadBack(v: bv32)
    requires 0x2000 <= v < 0x4000
    ensures InRange(PselOf(v), PortOf(v), PinOf(v)) && RaPsel(PselOf(v), PortOf(v), PinOf(v)) == v
  {
  }

  /** Distinct in-range arguments give distinct values. */
  lemma Injective(psel1: bv32, port1: bv32, pin1: bv32, psel2: bv32, port2: bv32, pin2: bv32)
    requires InRange(psel1, port1, pin1) && InRange(psel2, port2, pin2)
    requires RaPsel(psel1, port1, pin1) == RaPsel(psel2, port2, pin2)
    ensures psel1 == psel2 && port1 == port2 && pin1 == pin2
  {
    RoundTrip(psel1, port1, pin1);
    RoundTrip(psel2, port2, pin2);
  }

  /** The peripheral function codes, part 1 (lines 39-62). */
  const Codes0: seq<int> := [
    0x00, // RA_PSEL_HIZ_JTAG_SWD
    0x00, // RA_PSEL_ADC
    0x00, // RA_PSEL_DAC
    0x00, // RA_PSEL_ACMPHS
    0x01, // RA_PSEL_AGT
    0x02, // RA_PSEL_GPT0
    0x03, // RA_PSEL_GPT1
    0x04, // RA_PSEL_SCI_0
    0x04, // RA_PSEL_SCI_2
    0x04, // RA_PSEL_SCI_4
    0x04, // RA_PSEL_SCI_6
    0x04, // RA_PSEL_SCI_8
    0x05, // RA_PSEL_SCI_1
    0x05, // RA_PSEL_SCI_3
    0x05, // RA_PSEL_SCI_5
    0x05, // RA_PSEL_SCI_7
    0x05, // RA_PSEL_SCI_9
    0x06, // RA_PSEL_SPI
    0x07, // RA_PSEL_I2C
    0x07, // RA_PSEL_I3C
    0x09, // RA_PSEL_CLKOUT_RTC
    0x09, // RA_PSEL_ACMPHS_VCOUT
    0x0A, // RA_PSEL_CAC_ADC
    0x0A // RA_PSEL_CAC_DAC
  ]

  /** The peripheral function codes, part 2 (lines 63-75). */
  const Codes1: seq<int> := [
    0x0B, // RA_PSEL_BUS
    0x10, // RA_PSEL_CANFD
    0x11, // RA_PSEL_QSPI
    0x12, // RA_PSEL_SSIE
    0x13, // RA_PSEL_USBFS
    0x14, // RA_PSEL_USBHS
    0x15, // RA_PSEL_SDHI
    0x16, // RA_PSEL_ETH_MII
    0x17, // RA_PSEL_ETH_RMII
    0x19, // RA_PSEL_GLCDC
    0x1C, // RA_PSEL_OSPI
    0x0C, // RA_PSEL_CTSU
    0x0F // RA_PSEL_CEU
  ]

  /** Every `RA_PSEL_*` function code. */
  const AllCodes: seq<int> := Codes0 + Codes1

  /** Every code fits the 5-bit PSEL field; the largest is 0x1c. */
  lemma CodesFitField()
    ensures forall c | c in AllCodes :: 0 <= c <= 0x1c && c <= RaPselMask as int
    ensures 0x1c in AllCodes
  {
    assert forall i | 0 <= i < |Codes0| :: 0 <= Codes0[i] <= 0x1c;
    assert forall i | 0 <= i < |Codes1| :: 0 <= Codes1[i] <= 0x1c;
    assert AllCodes[|Codes0| + 10] == 0x1c;
  }
}
