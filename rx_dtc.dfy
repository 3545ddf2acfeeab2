/**
 * Renesas RX data transfer controller (DTC): the check of an activation
 * interrupt number against the DTC vector table, which has one entry per
 * interrupt, `DTC_VECTOR_TABLE_ENTRIES` = `CONFIG_NUM_IRQS` entries in all.
 * `CONFIG_NUM_IRQS` is a build-time constant and appears here as the
 * parameter `numIrqs`.
 */
module RxDtc {
  import opened Common

  /**
   * `is_valid_activation_irq` as written: an 8-bit interrupt number is
   * rejected when it is below 0 or above the number of table entries.
   */
  function IsValidActivationIrq(irq: Byte, numIrqs: nat): bool
  {
    !(irq < 0 || irq > numIrqs)
  }

  /** The check accepts exactly the numbers up to and including `numIrqs`; the test against 0 never rejects. */
  lemma ValidActivationIrqBound(irq: Byte, numIrqs: nat)
    ensures IsValidActivationIrq(irq, numIrqs) <==> irq <= numIrqs
    ensures !(irq < 0)
  {
  }

  /** With 255 interrupts or more, every 8-bit number passes. */
  lemma AllPassForLargeTables(irq: Byte, numIrqs: nat)
    requires numIrqs >= 255
    ensures IsValidActivationIrq(irq, numIrqs)
  {
  }

  /**
   * The bound is inclusive: with fewer than 256 interrupts, the number
   * `numIrqs` itself is accepted though the table's entries are 0 to
   * `numIrqs - 1`.
   */
  lemma AcceptsOnePastTable(numIrqs: nat)
    requires numIrqs < 256
    ensures IsValidActivationIrq(numIrqs, numIrqs) && !(numIrqs < numIrqs)
  {
  }

  /** The intended check: the interrupt number indexes an entry of the table. */
  function IsTableEntry(irq: Byte, numIrqs: nat): bool
  {
    irq < numIrqs
  }

  /** The two checks agree except at `numIrqs` itself, which only the check as written accepts. */
  lemma ChecksDifferOnlyAtBound(irq: Byte, numIrqs: nat)
    ensures IsTableEntry(irq, numIrqs) ==> IsValidActivationIrq(irq, numIrqs)
    ensures IsValidActivationIrq(irq, numIrqs) && !IsTableEntry(irq, numIrqs) <==> irq == numIrqs
  {
  }
}
