/**
 * Renesas RX pin control: `RX_PSEL` packs a pin's peripheral function code
 * (PSEL), its port number and its pin number within the port into one value,
 * the port in bits 4..0, the pin in bits 8..5 and PSEL in bits 13..9. The
 * header also defines the PSEL codes of each port's pin function select
 * registers.
 */
module PinctrlRx {

  // Field positions and masks.
  const RxPortNumPos: bv32 := 0
  const RxPortNumMask: bv32 := 0x1f
  const RxPinNumPos: bv32 := 5
  const RxPinNumMask: bv32 := 0xf
  const RxPselMask: bv32 := 0x1f
  const RxPselPos: bv32 := 9

  /** `RX_PSEL(psel, port_num, pin_num)`: each argument shifted to its position and or-ed, none of them masked. */
  function RxPsel(psel: bv32, port: bv32, pin: bv32): bv32
  {
    (psel << RxPselPos) | (pin << RxPinNumPos) | (port << RxPortNumPos)
  }

  /** The port number field of an encoded value. */
  function PortOf(v: bv32): bv32 { (v >> RxPortNumPos) & RxPortNumMask }
  /** The pin number field of an encoded value. */
  function PinOf(v: bv32): bv32 { (v >> RxPinNumPos) & RxPinNumMask }
  /** The PSEL field of an encoded value. */
  function PselOf(v: bv32): bv32 { (v >> RxPselPos) & RxPselMask }

  /** Each argument fits its field's mask. */
  predicate InRange(psel: bv32, port: bv32, pin: bv32)
  {
    psel <= RxPselMask && port <= RxPortNumMask && pin <= RxPinNumMask
  }

  /** The three fields occupy disjoint bits that together make up bits 13..0. */
  lemma FieldsDisjoint()
    ensures (RxPortNumMask << RxPortNumPos) & (RxPinNumMask << RxPinNumPos) == 0
    ensures (RxPortNumMask << RxPortNumPos) & (RxPselMask << RxPselPos) == 0
    ensures (RxPinNumMask << RxPinNumPos) & (RxPselMask << RxPselPos) == 0
    ensures (RxPortNumMask << RxPortNumPos) | (RxPinNumMask << RxPinNumPos) | (RxPselMask << RxPselPos) == 0x3FFF
  {
  }

  /** In-range arguments are read back from their fields, and the value is below 2^14. */
  lemma RoundTrip(psel: bv32, port: bv32, pin: bv32)
    requires InRange(psel, port, pin)
    ensures PortOf(RxPsel(psel, port, pin)) == port
    ensures PinOf(RxPsel(psel, port, pin)) == pin
    ensures PselOf(RxPsel(psel, port, pin)) == psel
    ensures RxPsel(psel, port, pin) < 0x4000
  {
  }

  /** Every value below 2^14 is the encoding of the fields read from it. */
  lemma ReadBack(v: bv32)
    requires v < 0x4000
    ensures InRange(PselOf(v), PortOf(v), PinOf(v)) && RxPsel(PselOf(v), PortOf(v), PinOf(v)) == v
  {
  }

  /** Distinct in-range arguments give distinct values. */
  lemma Injective(psel1: bv32, port1: bv32, pin1: bv32, psel2: bv32, port2: bv32, pin2: bv32)
    requires InRange(psel1, port1, pin1) && InRange(psel2, port2, pin2)
    requires RxPsel(psel1, port1, pin1) == RxPsel(psel2, port2, pin2)
    ensures psel1 == psel2 && port1 == port2 && pin1 == pin2
  {
    RoundTrip(psel1, port1, pin1);
    RoundTrip(psel2, port2, pin2);
  }

  /**
   * The PSEL field as the comments on `RX_PSEL_MASK` and `RX_PSEL_POS`
   * describe it: they are swapped, so the value documented as the position
   * is 0x1f and the one documented as the mask is 9.
   */
  function DocumentedPselOf(v: bv32): bv32
  {
    (v >> RxPselMask) & RxPselPos
  }

  /** Read as documented, the PSEL field of every encoded value is 0, whatever PSEL was encoded. */
  lemma DocumentedPselLost(psel: bv32, port: bv32, pin: bv32)
    requires InRange(psel, port, pin)
    ensures DocumentedPselOf(RxPsel(psel, port, pin)) == 0
    ensures psel != 0 ==> DocumentedPselOf(RxPsel(psel, port, pin)) != psel
  {
    RoundTrip(psel, port, pin);
  }

  /** The peripheral-level function codes (lines 44-53). */
  const PeripheralCodes: seq<int> := [
    0x0A, // RX_PSEL_RSCI
    0x0C, // RX_PSEL_RSCI_TXDB
    0x0A, // RX_PSEL_SCI_1
    0x0A, // RX_PSEL_SCI_5
    0x0B, // RX_PSEL_SCI_6
    0x0C, // RX_PSEL_SCI_12
    0x05, // RX_PSEL_TMR
    0x07, // RX_PSEL_POE
    0x00, // RX_PSEL_ADC
    0x00 // RX_PSEL_LVD
  ]

  /** The `P0nPFS` function codes of port 0 (lines 61-62). */
  const Port0Codes: seq<int> := [
    0x00, // RX_PSEL_P0nPFS_HIZ
    0x01 // RX_PSEL_P0nPFS_ADTRG0
  ]

  /** The `P1nPFS` function codes of port 1, part 1 (lines 70-99). */
  const Port1Codes0: seq<int> := [
    0x01, // RX_PSEL_P1nPFS_MTIOC0B
    0x01, // RX_PSEL_P1nPFS_MTIOC3A
    0x01, // RX_PSEL_P1nPFS_MTIOC3C
    0x02, // RX_PSEL_P1nPFS_MTCLKA
    0x02, // RX_PSEL_P1nPFS_MTCLKB
    0x02, // RX_PSEL_P1nPFS_MTIOC3B
    0x02, // RX_PSEL_P1nPFS_MTIOC3D
    0x05, // RX_PSEL_P1nPFS_TMCI1
    0x05, // RX_PSEL_P1nPFS_TMO1
    0x05, // RX_PSEL_P1nPFS_TMCI2
    0x05, // RX_PSEL_P1nPFS_TMO2
    0x05, // RX_PSEL_P1nPFS_TMRI2
    0x05, // RX_PSEL_P1nPFS_TMO3
    0x07, // RX_PSEL_P1nPFS_RTCOUT
    0x07, // RX_PSEL_P1nPFS_POE8
    0x09, // RX_PSEL_P1nPFS_ADTRG0
    0x0A, // RX_PSEL_P1nPFS_RXD1
    0x0A, // RX_PSEL_P1nPFS_SMISO1
    0x0A, // RX_PSEL_P1nPFS_SSCL1
    0x0A, // RX_PSEL_P1nPFS_TXD1
    0x0A, // RX_PSEL_P1nPFS_SMOSI1
    0x0A, // RX_PSEL_P1nPFS_SSDA1
    0x0B, // RX_PSEL_P1nPFS_CTS1
    0x0B // RX_PSEL_P1nPFS_RTS1
  ]

  /** The `P1nPFS` function codes of port 1, part 2 (lines 100-109). */
  const Port1Codes1: seq<int> := [
    0x0B, // RX_PSEL_P1nPFS_SS1
    0x0D, // RX_PSEL_P1nPFS_MOSIA
    0x0D, // RX_PSEL_P1nPFS_MISOA
    0x0F, // RX_PSEL_P1nPFS_SCL
    0x0F, // RX_PSEL_P1nPFS_SDA
    0x19, // RX_PSEL_P1nPFS_TS5
    0x19 // RX_PSEL_P1nPFS_TS6
  ]

  /** The `P2nPFS` function codes of port 2, part 1 (lines 118-145). */
  const Port2Codes0: seq<int> := [
    0x01, // RX_PSEL_P2nPFS_MTIOC1A
    0x01, // RX_PSEL_P2nPFS_MTIOC1B
    0x01, // RX_PSEL_P2nPFS_MTIOC2A
    0x01, // RX_PSEL_P2nPFS_MTIOC2B
    0x01, // RX_PSEL_P2nPFS_MTIOC3B
    0x01, // RX_PSEL_P2nPFS_MTIOC3D
    0x01, // RX_PSEL_P2nPFS_MTIOC4A
    0x01, // RX_PSEL_P2nPFS_MTIOC4C
    0x02, // RX_PSEL_P2nPFS_MTCLKA
    0x02, // RX_PSEL_P2nPFS_MTCLKB
    0x02, // RX_PSEL_P2nPFS_MTCLKC
    0x02, // RX_PSEL_P2nPFS_MTCLKD
    0x05, // RX_PSEL_P2nPFS_TMCI0
    0x05, // RX_PSEL_P2nPFS_TMO0
    0x05, // RX_PSEL_P2nPFS_TMRI0
    0x05, // RX_PSEL_P2nPFS_TMO1
    0x05, // RX_PSEL_P2nPFS_TMRI1
    0x05, // RX_PSEL_P2nPFS_TMCI3
    0x09, // RX_PSEL_P2nPFS_ADTRG0
    0x0A, // RX_PSEL_P2nPFS_RXD0
    0x0A, // RX_PSEL_P2nPFS_SMISO0
    0x0A, // RX_PSEL_P2nPFS_SSCL0
    0x0A, // RX_PSEL_P2nPFS_TXD0
    0x0A // RX_PSEL_P2nPFS_SMOSI0
  ]

  /** The `P2nPFS` function codes of port 2, part 2 (lines 146-158). */
  const Port2Codes1: seq<int> := [
    0x0A, // RX_PSEL_P2nPFS_SSDA0
    0x0A, // RX_PSEL_P2nPFS_SCK0
    0x0A, // RX_PSEL_P2nPFS_TXD1
    0x0A, // RX_PSEL_P2nPFS_SMOSI1
    0x0A, // RX_PSEL_P2nPFS_SSDA1
    0x0A, // RX_PSEL_P2nPFS_SCK1
    0x0B, // RX_PSEL_P2nPFS_CTS0
    0x0B, // RX_PSEL_P2nPFS_RTS0
    0x0B, // RX_PSEL_P2nPFS_SS0
    0x19, // RX_PSEL_P2nPFS_TS3
    0x19 // RX_PSEL_P2nPFS_TS4
  ]

  /** The `P3nPFS` function codes of port 3, part 1 (lines 166-193). */
  const Port3Codes0: seq<int> := [
    0x01, // RX_PSEL_P3nPFS_MTIOC0A
    0x01, // RX_PSEL_P3nPFS_MTIOC0C
    0x01, // RX_PSEL_P3nPFS_MTIOC0D
    0x01, // RX_PSEL_P3nPFS_MTIOC4B
    0x01, // RX_PSEL_P3nPFS_MTIOC4D
    0x05, // RX_PSEL_P3nPFS_TMCI2
    0x05, // RX_PSEL_P3nPFS_TMO3
    0x05, // RX_PSEL_P3nPFS_TMRI3
    0x05, // RX_PSEL_P3nPFS_TMCI3
    0x07, // RX_PSEL_P3nPFS_RTCOUT
    0x07, // RX_PSEL_P3nPFS_POE2
    0x07, // RX_PSEL_P3nPFS_POE3
    0x07, // RX_PSEL_P3nPFS_POE8
    0x0A, // RX_PSEL_P3nPFS_RXD1
    0x0A, // RX_PSEL_P3nPFS_SMISO1
    0x0A, // RX_PSEL_P3nPFS_SSCL1
    0x0B, // RX_PSEL_P3nPFS_CTS1
    0x0B, // RX_PSEL_P3nPFS_RTS1
    0x0B, // RX_PSEL_P3nPFS_SS1
    0x0B, // RX_PSEL_P3nPFS_RXD6
    0x0B, // RX_PSEL_P3nPFS_SMISO6
    0x0B, // RX_PSEL_P3nPFS_SSCL6
    0x0B, // RX_PSEL_P3nPFS_TXD6
    0x0B // RX_PSEL_P3nPFS_SMOSI6
  ]

  /** The `P3nPFS` function codes of port 3, part 2 (lines 194-199). */
  const Port3Codes1: seq<int> := [
    0x0B, // RX_PSEL_P3nPFS_SSDA6
    0x0B, // RX_PSEL_P3nPFS_SCK6
    0x19, // RX_PSEL_P3nPFS_TS0
    0x19, // RX_PSEL_P3nPFS_TS1
    0x19 // RX_PSEL_P3nPFS_TS2
  ]

  /** The `P5nPFS` function codes of port 5 (lines 207-217). */
  const Port5Codes: seq<int> := [
    0x01, // RX_PSEL_P5nPFS_MTIOC4B
    0x01, // RX_PSEL_P5nPFS_MTIOC4D
    0x05, // RX_PSEL_P5nPFS_TMCI1
    0x05, // RX_PSEL_P5nPFS_TMO3
    0x19, // RX_PSEL_P5nPFS_TS11
    0x19, // RX_PSEL_P5nPFS_TS12
    0x19, // RX_PSEL_P5nPFS_PMC0
    0x19 // RX_PSEL_P5nPFS_PMC1
  ]

  /** The `PAnPFS` function codes of port A, part 1 (lines 225-254). */
  const PortACodes0: seq<int> := [
    0x01, // RX_PSEL_PAnPFS_MTIOC4A
    0x01, // RX_PSEL_PAnPFS_MTIOC0B
    0x01, // RX_PSEL_PAnPFS_MTIOC0D
    0x01, // RX_PSEL_PAnPFS_MTIOC5U
    0x01, // RX_PSEL_PAnPFS_MTIOC5V
    0x02, // RX_PSEL_PAnPFS_MTCLKA
    0x02, // RX_PSEL_PAnPFS_MTCLKB
    0x02, // RX_PSEL_PAnPFS_MTCLKC
    0x02, // RX_PSEL_PAnPFS_MTCLKD
    0x05, // RX_PSEL_PAnPFS_TMRI0
    0x05, // RX_PSEL_PAnPFS_TMCI3
    0x07, // RX_PSEL_PAnPFS_POE2
    0x07, // RX_PSEL_PAnPFS_CACREF
    0x0A, // RX_PSEL_PAnPFS_RXD5
    0x0A, // RX_PSEL_PAnPFS_SMISO5
    0x0A, // RX_PSEL_PAnPFS_SSCL5
    0x0A, // RX_PSEL_PAnPFS_TXD5
    0x0A, // RX_PSEL_PAnPFS_SMOSI5
    0x0A, // RX_PSEL_PAnPFS_SSDA5
    0x0A, // RX_PSEL_PAnPFS_SCK5
    0x0B, // RX_PSEL_PAnPFS_CTS5
    0x0B, // RX_PSEL_PAnPFS_RTS5
    0x0B, // RX_PSEL_PAnPFS_SS5
    0x0D // RX_PSEL_PAnPFS_SSLA0
  ]

  /** The `PAnPFS` function codes of port A, part 2 (lines 255-268). */
  const PortACodes1: seq<int> := [
    0x0D, // RX_PSEL_PAnPFS_SSLA1
    0x0D, // RX_PSEL_PAnPFS_SSLA2
    0x0D, // RX_PSEL_PAnPFS_SSLA3
    0x0D, // RX_PSEL_PAnPFS_RSPCKA
    0x0D, // RX_PSEL_PAnPFS_MOSIA
    0x0D, // RX_PSEL_PAnPFS_MISOA
    0x19, // RX_PSEL_PAnPFS_TS26
    0x19, // RX_PSEL_PAnPFS_TS27
    0x19, // RX_PSEL_PAnPFS_TS28
    0x19, // RX_PSEL_PAnPFS_TS29
    0x19, // RX_PSEL_PAnPFS_TS30
    0x19, // RX_PSEL_PAnPFS_TS31
    0x19 // RX_PSEL_PAnPFS_TS32
  ]

  /** The `PBnPFS` function codes of port B, part 1 (lines 276-304). */
  const PortBCodes0: seq<int> := [
    0x01, // RX_PSEL_PBnPFS_MTIOC0A
    0x01, // RX_PSEL_PBnPFS_MTIOC0C
    0x01, // RX_PSEL_PBnPFS_MTIOC2A
    0x01, // RX_PSEL_PBnPFS_MTIOC3B
    0x01, // RX_PSEL_PBnPFS_MTIOC3D
    0x01, // RX_PSEL_PBnPFS_MTIOC5W
    0x02, // RX_PSEL_PBnPFS_MTIOC1B
    0x02, // RX_PSEL_PBnPFS_MTIOC4A
    0x02, // RX_PSEL_PBnPFS_MTIOC4C
    0x05, // RX_PSEL_PBnPFS_TMO0
    0x05, // RX_PSEL_PBnPFS_TMRI1
    0x05, // RX_PSEL_PBnPFS_TMCI0
    0x07, // RX_PSEL_PBnPFS_POE1
    0x07, // RX_PSEL_PBnPFS_POE3
    0x0A, // RX_PSEL_PBnPFS_RXD9
    0x0A, // RX_PSEL_PBnPFS_SMISO9
    0x0A, // RX_PSEL_PBnPFS_SSCL9
    0x0A, // RX_PSEL_PBnPFS_TXD9
    0x0A, // RX_PSEL_PBnPFS_SMOSI9
    0x0A, // RX_PSEL_PBnPFS_SSDA9
    0x0A, // RX_PSEL_PBnPFS_SCK9
    0x0B, // RX_PSEL_PBnPFS_CTS6
    0x0B, // RX_PSEL_PBnPFS_RTS6
    0x0B // RX_PSEL_PBnPFS_SS6
  ]

  /** The `PBnPFS` function codes of port B, part 2 (lines 305-327). */
  const PortBCodes1: seq<int> := [
    0x0B, // RX_PSEL_PBnPFS_CTS9
    0x0B, // RX_PSEL_PBnPFS_RTS9
    0x0B, // RX_PSEL_PBnPFS_SS9
    0x0B, // RX_PSEL_PBnPFS_RXD6
    0x0B, // RX_PSEL_PBnPFS_SMISO6
    0x0B, // RX_PSEL_PBnPFS_SSCL6
    0x0B, // RX_PSEL_PBnPFS_TXD6
    0x0B, // RX_PSEL_PBnPFS_SMOSI6
    0x0B, // RX_PSEL_PBnPFS_SSDA6
    0x0B, // RX_PSEL_PBnPFS_SCK6
    0x0D, // RX_PSEL_PBnPFS_RSPCKA
    0x10, // RX_PSEL_PBnPFS_CMPOB1
    0x19, // RX_PSEL_PBnPFS_TS18
    0x19, // RX_PSEL_PBnPFS_TS19
    0x19, // RX_PSEL_PBnPFS_TS20
    0x19, // RX_PSEL_PBnPFS_TS21
    0x19, // RX_PSEL_PBnPFS_TS22
    0x19, // RX_PSEL_PBnPFS_TS23
    0x19, // RX_PSEL_PBnPFS_TS24
    0x19 // RX_PSEL_PBnPFS_TS25
  ]

  /** The `PCnPFS` function codes of port C, part 1 (lines 335-362). */
  const PortCCodes0: seq<int> := [
    0x01, // RX_PSEL_PCnPFS_MTIOC3A
    0x01, // RX_PSEL_PCnPFS_MTIOC3B
    0x01, // RX_PSEL_PCnPFS_MTIOC3C
    0x01, // RX_PSEL_PCnPFS_MTIOC3D
    0x01, // RX_PSEL_PCnPFS_MTIOC4B
    0x01, // RX_PSEL_PCnPFS_MTIOC4D
    0x02, // RX_PSEL_PCnPFS_MTCLKA
    0x02, // RX_PSEL_PCnPFS_MTCLKB
    0x02, // RX_PSEL_PCnPFS_MTCLKC
    0x02, // RX_PSEL_PCnPFS_MTCLKD
    0x05, // RX_PSEL_PCnPFS_TMCI1
    0x05, // RX_PSEL_PCnPFS_TMO2
    0x05, // RX_PSEL_PCnPFS_TMRI2
    0x05, // RX_PSEL_PCnPFS_TMCI2
    0x07, // RX_PSEL_PCnPFS_POE0
    0x07, // RX_PSEL_PCnPFS_CACREF
    0x0A, // RX_PSEL_PCnPFS_RXD5
    0x0A, // RX_PSEL_PCnPFS_SMISO5
    0x0A, // RX_PSEL_PCnPFS_SSCL5
    0x0A, // RX_PSEL_PCnPFS_TXD5
    0x0A, // RX_PSEL_PCnPFS_SMOSI5
    0x0A, // RX_PSEL_PCnPFS_SSDA5
    0x0A, // RX_PSEL_PCnPFS_SCK5
    0x0A // RX_PSEL_PCnPFS_RXD8
  ]

  /** The `PCnPFS` function codes of port C, part 2 (lines 363-389). */
  const PortCCodes1: seq<int> := [
    0x0A, // RX_PSEL_PCnPFS_SMISO8
    0x0A, // RX_PSEL_PCnPFS_SSCL8
    0x0A, // RX_PSEL_PCnPFS_TXD8
    0x0A, // RX_PSEL_PCnPFS_SMOSI8
    0x0A, // RX_PSEL_PCnPFS_SSDA8
    0x0A, // RX_PSEL_PCnPFS_SCK8
    0x0B, // RX_PSEL_PCnPFS_CTS5
    0x0B, // RX_PSEL_PCnPFS_RTS5
    0x0B, // RX_PSEL_PCnPFS_SS5
    0x0B, // RX_PSEL_PCnPFS_CTS8
    0x0B, // RX_PSEL_PCnPFS_RTS8
    0x0B, // RX_PSEL_PCnPFS_SS8
    0x0D, // RX_PSEL_PCnPFS_SSLA0
    0x0D, // RX_PSEL_PCnPFS_SSLA1
    0x0D, // RX_PSEL_PCnPFS_SSLA2
    0x0D, // RX_PSEL_PCnPFS_SSLA3
    0x0D, // RX_PSEL_PCnPFS_RSPCKA
    0x0D, // RX_PSEL_PCnPFS_MOSIA
    0x0D, // RX_PSEL_PCnPFS_MISOA
    0x19, // RX_PSEL_PCnPFS_TS13
    0x19, // RX_PSEL_PCnPFS_TS14
    0x19, // RX_PSEL_PCnPFS_TS15
    0x19, // RX_PSEL_PCnPFS_TS16
    0x19 // RX_PSEL_PCnPFS_TS17
  ]

  /** The `PCnPFS` function codes of port C, part 3 (lines 390-390). */
  const PortCCodes2: seq<int> := [
    0x19 // RX_PSEL_PCnPFS_TSCAP
  ]

  /** The `PDnPFS` function codes of port D (lines 398-416). */
  const PortDCodes: seq<int> := [
    0x01, // RX_PSEL_PDnPFS_MTIOC4B
    0x01, // RX_PSEL_PDnPFS_MTIOC4D
    0x01, // RX_PSEL_PDnPFS_MTIOC5W
    0x01, // RX_PSEL_PDnPFS_MTIOC5V
    0x01, // RX_PSEL_PDnPFS_MTIOC5U
    0x07, // RX_PSEL_PDnPFS_POE0
    0x07, // RX_PSEL_PDnPFS_POE1
    0x07, // RX_PSEL_PDnPFS_POE2
    0x07, // RX_PSEL_PDnPFS_POE3
    0x07, // RX_PSEL_PDnPFS_POE8
    0x0B, // RX_PSEL_PDnPFS_RXD6
    0x0B, // RX_PSEL_PDnPFS_SMISO6
    0x0B, // RX_PSEL_PDnPFS_SSCL6
    0x0B, // RX_PSEL_PDnPFS_TXD6
    0x0B, // RX_PSEL_PDnPFS_SMOSI6
    0x0B, // RX_PSEL_PDnPFS_SSDA6
    0x0B // RX_PSEL_PDnPFS_SCK6
  ]

  /** The `PEnPFS` function codes of port E, part 1 (lines 424-453). */
  const PortECodes0: seq<int> := [
    0x01, // RX_PSEL_PEnPFS_MTIOC4A
    0x01, // RX_PSEL_PEnPFS_MTIOC4B
    0x01, // RX_PSEL_PEnPFS_MTIOC4C
    0x01, // RX_PSEL_PEnPFS_MTIOC4D
    0x02, // RX_PSEL_PEnPFS_MTIOC1A
    0x02, // RX_PSEL_PEnPFS_MTIOC2B
    0x07, // RX_PSEL_PEnPFS_POE8
    0x09, // RX_PSEL_PEnPFS_CLKOUT
    0x0C, // RX_PSEL_PEnPFS_RXD12
    0x0C, // RX_PSEL_PEnPFS_SMISO12
    0x0C, // RX_PSEL_PEnPFS_SSCL12
    0x0C, // RX_PSEL_PEnPFS_TXD12
    0x0C, // RX_PSEL_PEnPFS_SMOSI12
    0x0C, // RX_PSEL_PEnPFS_SSDA12
    0x0C, // RX_PSEL_PEnPFS_SCK12
    0x0C, // RX_PSEL_PEnPFS_TXDX12
    0x0C, // RX_PSEL_PEnPFS_RXDX12
    0x0C, // RX_PSEL_PEnPFS_SIOX12
    0x0C, // RX_PSEL_PEnPFS_CTS12
    0x0C, // RX_PSEL_PEnPFS_RTS12
    0x0C, // RX_PSEL_PEnPFS_SS12
    0x10, // RX_PSEL_PEnPFS_CMPOB0
    0x19, // RX_PSEL_PEnPFS_TS33
    0x19 // RX_PSEL_PEnPFS_TS34
  ]

  /** The `PEnPFS` function codes of port E, part 2 (lines 454-454). */
  const PortECodes1: seq<int> := [
    0x19 // RX_PSEL_PEnPFS_TS35
  ]

  /** The `PHnPFS` function codes of port H (lines 462-471). */
  const PortHCodes: seq<int> := [
    0x05, // RX_PSEL_PHnPFS_TMO0
    0x05, // RX_PSEL_PHnPFS_TMRI0
    0x05, // RX_PSEL_PHnPFS_TMCI0
    0x07, // RX_PSEL_PHnPFS_CACREF
    0x19, // RX_PSEL_PHnPFS_TS7
    0x19, // RX_PSEL_PHnPFS_TS8
    0x19, // RX_PSEL_PHnPFS_TS9
    0x19 // RX_PSEL_PHnPFS_TS10
  ]

  /** The `PJnPFS` function codes of port J (lines 479-484). */
  const PortJCodes: seq<int> := [
    0x01, // RX_PSEL_PJnPFS_MTIOC3A
    0x01, // RX_PSEL_PJnPFS_MTIOC3C
    0x0B, // RX_PSEL_PJnPFS_CTS6
    0x0B, // RX_PSEL_PJnPFS_TTS6
    0x0B // RX_PSEL_PJnPFS_SS6
  ]

  /** Every `RX_PSEL_*` function code, section by section. */
  const Sections: seq<seq<int>> := [
    PeripheralCodes, Port0Codes, Port1Codes0, Port1Codes1, Port2Codes0,
    Port2Codes1, Port3Codes0, Port3Codes1, Port5Codes, PortACodes0,
    PortACodes1, PortBCodes0, PortBCodes1, PortCCodes0, PortCCodes1,
    PortCCodes2, PortDCodes, PortECodes0, PortECodes1, PortHCodes,
    PortJCodes
  ]

  /** The sections one after another. */
  function Flatten(ss: seq<seq<int>>): seq<int>
  {
    if ss == [] then [] else Flatten(ss[..|ss| - 1]) + ss[|ss| - 1]
  }

  /** Every `RX_PSEL_*` function code. */
  const AllCodes: seq<int> := Flatten(Sections)

  /** The codes of `sec` lie in 0..`max`. */
  predicate CodesUpTo(sec: seq<int>, max: int)
  {
    forall i | 0 <= i < |sec| :: 0 <= sec[i] <= max
  }

  /** A bound that holds in every section holds for all the codes. */
  lemma {:induction false} FlattenUpTo(ss: seq<seq<int>>, max: int)
    requires forall k | 0 <= k < |ss| :: CodesUpTo(ss[k], max)
    ensures CodesUpTo(Flatten(ss), max)
  {
    if ss != [] {
      FlattenUpTo(ss[..|ss| - 1], max);
    }
  }

  /** Every code of every section is among all the codes. */
  lemma {:induction false} FlattenHas(ss: seq<seq<int>>, k: int, i: int)
    requires 0 <= k < |ss| && 0 <= i < |ss[k]|
    ensures ss[k][i] in Flatten(ss)
  {
    if k < |ss| - 1 {
      FlattenHas(ss[..|ss| - 1], k, i);
    }
  }

  lemma PeripheralCodesFit()
    ensures CodesUpTo(PeripheralCodes, 0x19)
  {
  }

  lemma Port0CodesFit()
    ensures CodesUpTo(Port0Codes, 0x19)
  {
  }

  lemma Port1Codes0Fit()
    ensures CodesUpTo(Port1Codes0, 0x19)
  {
  }

  lemma Port1Codes1Fit()
    ensures CodesUpTo(Port1Codes1, 0x19)
  {
  }

  lemma Port2Codes0Fit()
    ensures CodesUpTo(Port2Codes0, 0x19)
  {
  }

  lemma Port2Codes1Fit()
    ensures CodesUpTo(Port2Codes1, 0x19)
  {
  }

  lemma Port3Codes0Fit()
    ensures CodesUpTo(Port3Codes0, 0x19)
  {
  }

  lemma Port3Codes1Fit()
    ensures CodesUpTo(Port3Codes1, 0x19)
  {
  }

  lemma Port5CodesFit()
    ensures CodesUpTo(Port5Codes, 0x19)
  {
  }

  lemma PortACodes0Fit()
    ensures CodesUpTo(PortACodes0, 0x19)
  {
  }

  lemma PortACodes1Fit()
    ensures CodesUpTo(PortACodes1, 0x19)
  {
  }

  lemma PortBCodes0Fit()
    ensures CodesUpTo(PortBCodes0, 0x19)
  {
  }

  lemma PortBCodes1Fit()
    ensures CodesUpTo(PortBCodes1, 0x19)
  {
  }

  lemma PortCCodes0Fit()
    ensures CodesUpTo(PortCCodes0, 0x19)
  {
  }

  lemma PortCCodes1Fit()
    ensures CodesUpTo(PortCCodes1, 0x19)
  {
  }

  lemma PortCCodes2Fit()
    ensures CodesUpTo(PortCCodes2, 0x19)
  {
  }

  lemma PortDCodesFit()
    ensures CodesUpTo(PortDCodes, 0x19)
  {
  }

  lemma PortECodes0Fit()
    ensures CodesUpTo(PortECodes0, 0x19)
  {
  }

  lemma PortECodes1Fit()
    ensures CodesUpTo(PortECodes1, 0x19)
  {
  }

  lemma PortHCodesFit()
    ensures CodesUpTo(PortHCodes, 0x19)
  {
  }

  lemma PortJCodesFit()
    ensures CodesUpTo(PortJCodes, 0x19)
  {
  }

  /** Every code fits the 5-bit PSEL field; the largest is 0x19. */
  lemma CodesFitField()
    ensures forall c | c in AllCodes :: 0 <= c <= 0x19 && c <= RxPselMask as int
    ensures 0x19 in AllCodes
  {
    PeripheralCodesFit();
    Port0CodesFit();
    Port1Codes0Fit();
    Port1Codes1Fit();
    Port2Codes0Fit();
    Port2Codes1Fit();
    Port3Codes0Fit();
    Port3Codes1Fit();
    Port5CodesFit();
    PortACodes0Fit();
    PortACodes1Fit();
    PortBCodes0Fit();
    PortBCodes1Fit();
    PortCCodes0Fit();
    PortCCodes1Fit();
    PortCCodes2Fit();
    PortDCodesFit();
    PortECodes0Fit();
    PortECodes1Fit();
    PortHCodesFit();
    PortJCodesFit();
    FlattenUpTo(Sections, 0x19);
    forall c | c in AllCodes
      ensures 0 <= c <= 0x19
    {
      var i :| 0 <= i < |AllCodes| && AllCodes[i] == c;
    }
    assert Sections[3][5] == 0x19;
    FlattenHas(Sections, 3, 5);
  }
}
