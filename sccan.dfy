/**
 * The Space Cubics CAN controller driver's register encodings: the TX message
 * word 1 (`sc_can_msg1`), which carries the identifier in the layout of the
 * arbitration field of a CAN 2.0B data frame (Bosch CAN Specification 2.0,
 * Part B, section 3.1.1), and the fields of the IP version register.
 */
module ScCan {

  /** `GENMASK(h, l)`: bits `l` to `h` set. */
  function GenMask(h: nat, l: nat): (m: bv32)
    requires l <= h < 32
  {
    (0xFFFF_FFFF - (1 << l) + 1) & (0xFFFF_FFFF >> (31 - h))
  }

  /** A C `bool` promoted to an unsigned word. */
  function Flag(b: bool): bv32
  {
    if b then 1 else 0
  }

  /** `CAN_TXID1(x)`: a standard identifier in bits 31..21. */
  function TxId1(x: bv32): bv32 { x << 21 }
  /** `CAN_TXSRTR(x)`: bit 20, SRR for an extended frame and RTR for a standard one. */
  function TxSrtr(x: bv32): bv32 { x << 20 }
  /** `CAN_TXIDE(x)`: bit 19, set for an extended frame. */
  function TxIde(x: bv32): bv32 { x << 19 }
  /** `CAN_TXID_EX1(x)`: identifier bits 28..18 (the base identifier) moved to bits 31..21. */
  function TxIdEx1(x: bv32): bv32 { (x & GenMask(28, 18)) << 3 }
  /** `CAN_TXID_EX2(x)`: identifier bits 17..0 (the extension) moved to bits 18..1. */
  function TxIdEx2(x: bv32): bv32 { (x & GenMask(17, 0)) << 1 }
  /** `CAN_TXERTR(x)`: bit 0, RTR for an extended frame. */
  function TxErtr(x: bv32): bv32 { x }

  /**
   * `sc_can_msg1`. An extended frame holds the base identifier, SRR = 1,
   * IDE = 1, the identifier extension and RTR, from bit 31 down to bit 0; a
   * standard frame holds the identifier, RTR and IDE = 0 from bit 31 down.
   * Identifier bits that do not fit the layout are lost.
   */
  function Msg1(id: bv32, extended: bool, rtr: bool): bv32
  {
    if extended then
      TxIdEx1(id) | TxSrtr(1) | TxIde(Flag(extended)) | TxIdEx2(id) | TxErtr(Flag(rtr))
    else
      TxId1(id) | TxSrtr(Flag(rtr)) | TxIde(Flag(extended))
  }

  /** The two masks `sc_can_msg1` uses. */
  lemma GenMaskValues()
    ensures GenMask(28, 18) == 0x1FFC_0000 && GenMask(17, 0) == 0x3_FFFF
  {
  }

  /** The word `sc_can_msg1` builds, field by field; bit 19 tells the two layouts apart. */
  lemma Msg1Layout(id: bv32, extended: bool, rtr: bool)
    ensures var m := Msg1(id, extended, rtr);
      && (m >> 19) & 1 == Flag(extended)
      && (extended ==>
            && m >> 21 == (id >> 18) & 0x7FF
            && (m >> 20) & 1 == 1
            && (m >> 1) & 0x3_FFFF == id & 0x3_FFFF
            && m & 1 == Flag(rtr))
      && (!extended ==>
            && m >> 21 == id & 0x7FF
            && (m >> 20) & 1 == Flag(rtr)
            && m & 0x7_FFFF == 0)
  {
    GenMaskValues();
  }

  /** An extended identifier (below 2^29) and the RTR bit are recovered from the word. */
  lemma ExtendedRoundTrip(id: bv32, rtr: bool)
    requires id < 0x2000_0000
    ensures var m := Msg1(id, true, rtr);
      ((m >> 21) << 18) | ((m >> 1) & 0x3_FFFF) == id && m & 1 == Flag(rtr)
  {
    Msg1Layout(id, true, rtr);
  }

  /** A standard identifier (below 2^11) and the RTR bit are recovered from the word. */
  lemma StandardRoundTrip(id: bv32, rtr: bool)
    requires id < 0x800
    ensures var m := Msg1(id, false, rtr);
      m >> 21 == id && (m >> 20) & 1 == Flag(rtr)
  {
    Msg1Layout(id, false, rtr);
  }

  /**
   * Identifier bits above bit 28 of an extended identifier, and above bit 10
   * of a standard one, do not reach the word.
   */
  lemma HighIdBitsDropped(id: bv32, rtr: bool)
    ensures Msg1(id, true, rtr) == Msg1(id & 0x1FFF_FFFF, true, rtr)
    ensures Msg1(id, false, rtr) == Msg1(id & 0x7FF, false, rtr)
  {
    GenMaskValues();
  }

  /** Different frames within the identifier widths give different words; no standard word equals an extended one. */
  lemma Msg1Injective(id1: bv32, ext1: bool, rtr1: bool, id2: bv32, ext2: bool, rtr2: bool)
    requires id1 < (if ext1 then 0x2000_0000 else 0x800)
    requires id2 < (if ext2 then 0x2000_0000 else 0x800)
    requires Msg1(id1, ext1, rtr1) == Msg1(id2, ext2, rtr2)
    ensures id1 == id2 && ext1 == ext2 && rtr1 == rtr2
  {
    Msg1Layout(id1, ext1, rtr1);
    Msg1Layout(id2, ext2, rtr2);
    if ext1 {
      ExtendedRoundTrip(id1, rtr1);
      ExtendedRoundTrip(id2, rtr2);
    } else {
      StandardRoundTrip(id1, rtr1);
      StandardRoundTrip(id2, rtr2);
    }
  }

  /** `SC_IPVER_MAJOR`: bits 31..24 of the IP version register. */
  function IpVerMajor(v: bv32): (r: bv32)
    ensures r < 0x100
  {
    (v & 0xff00_0000) >> 24
  }

  /** `SC_IPVER_MINOR`: bits 23..16. */
  function IpVerMinor(v: bv32): (r: bv32)
    ensures r < 0x100
  {
    (v & 0x00ff_0000) >> 16
  }

  /** `SC_IPVER_PATCH`: bits 15..0. */
  function IpVerPatch(v: bv32): (r: bv32)
    ensures r < 0x1_0000
  {
    (v & 0x0000_ffff) >> 0
  }

  /** The three version fields cover the register exactly: putting them back together gives the register. */
  lemma IpVersionRoundTrip(v: bv32)
    ensures (IpVerMajor(v) << 24) | (IpVerMinor(v) << 16) | IpVerPatch(v) == v
  {
  }
}
