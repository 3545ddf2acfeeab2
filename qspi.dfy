/**
 * Helpers of the MEC172x QSPI board test: the number of bytes that clock out
 * a given number of SPI clocks, the big-endian serialisation of a flash
 * address behind a command opcode, and the layout of the fast-read command.
 * The SPI transfers themselves are not part of this model.
 */
module Qspi {
  import opened Common

  // Command opcodes used by the test.
  const SpiSectorErase: int := 0x20
  /** Bits 7..0: the opcode; bits 15..8: the clocks with the data lines tri-stated before data. */
  const SpiFastReadData: bv16 := 0x080B
  const SpiTestAddress: U32 := 0x000010

  /** SPI clocks per byte: 2 in quad mode (4), 4 in dual mode (2), 8 otherwise (full duplex). */
  function ClocksPerByte(mode: Byte): (k: nat)
  {
    if mode == 4 then 2 else if mode == 2 then 4 else 8
  }

  /**
   * `spi_clocks_to_bytes`: the number of whole bytes whose clocks fit in
   * `clocks` in the given mode (the division rounds down).
   */
  function SpiClocksToBytes(clocks: U32, mode: Byte): (n: U32)
    ensures n * ClocksPerByte(mode) <= clocks < (n + 1) * ClocksPerByte(mode)
  {
    if mode == 4 then clocks / 2 else if mode == 2 then clocks / 4 else clocks / 8
  }

  /** `x >> 8 * k` on an unsigned value: `k` shifts right by a byte each. */
  function ShiftBytes(x: nat, k: nat): nat
  {
    if k == 0 then x else ShiftBytes(x / 256, k - 1)
  }

  /** `256^n`. */
  function Pow256(n: nat): (p: nat)
    ensures p > 0
  {
    if n == 0 then 1 else 256 * Pow256(n - 1)
  }

  /** The `n` low bytes of `addr`, most significant first: byte `i` is `(addr >> 8 * (n - 1 - i)) & 0xff`. */
  function BigEndian(addr: nat, n: nat): (bytes: seq<Byte>)
    ensures |bytes| == n
  {
    seq(n, i requires 0 <= i < n => ShiftBytes(addr, n - 1 - i) % 256)
  }

  /** The number whose big-endian bytes are `bytes`. */
  function FromBigEndian(bytes: seq<Byte>): nat
  {
    if bytes == [] then 0 else FromBigEndian(bytes[..|bytes| - 1]) * 256 + bytes[|bytes| - 1]
  }

  /** The first `n` bytes of `addr` are the last `n - 1` bytes of `addr / 256`, then its low byte. */
  lemma {:induction false} BigEndianStep(addr: nat, n: nat)
    requires n > 0
    ensures BigEndian(addr, n) == BigEndian(addr / 256, n - 1) + [addr % 256]
  {
    var a, b := BigEndian(addr, n), BigEndian(addr / 256, n - 1) + [addr % 256];
    forall i | 0 <= i < n
      ensures a[i] == b[i]
    {
      if i < n - 1 {
        assert ShiftBytes(addr, n - 1 - i) == ShiftBytes(addr / 256, n - 2 - i);
      }
    }
  }

  /**
   * Reading the bytes back gives the address cut to `n` bytes, and the
   * address itself when it fits in them.
   */
  lemma {:induction false} BigEndianValue(addr: nat, n: nat)
    requires n <= 4
    ensures FromBigEndian(BigEndian(addr, n)) == addr % Pow256(n)
    ensures addr < Pow256(n) ==> FromBigEndian(BigEndian(addr, n)) == addr
  {
    if n > 0 {
      BigEndianStep(addr, n);
      var bytes := BigEndian(addr, n);
      assert bytes[..n - 1] == BigEndian(addr / 256, n - 1);
      BigEndianValue(addr / 256, n - 1);
      ModSplit(addr, n - 1);
    }
  }

  /** `(a / 256 % 256^m) * 256 + a % 256 == a % 256^(m + 1)`, for the widths an address can have. */
  lemma ModSplit(a: nat, m: nat)
    requires m <= 3
    ensures (a / 256 % Pow256(m)) * 256 + a % 256 == a % Pow256(m + 1)
  {
    var p := Pow256(m);
    assert Pow256(m + 1) == 256 * p;
    assert p == 1 || p == 0x100 || p == 0x1_0000 || p == 0x100_0000 by {
      assert Pow256(1) == 0x100 && Pow256(2) == 0x1_0000 && Pow256(3) == 0x100_0000;
    }
    var d, e := a / 256, a % 256;
    var d2, e2 := d / p, d % p;
    assert a == 256 * p * d2 + (256 * e2 + e);
    assert 0 <= 256 * e2 + e < 256 * p;
  }

  /**
   * `spi_flash_address_format`: write the `addrsz` low bytes of `addr` into
   * `dest`, most significant first. `destsz` is the room the caller says
   * `dest` has; -EINVAL, with nothing written, for a null `dest`, an
   * `addrsz` of 0 or above 4, or more bytes than `destsz`.
   */
  method SpiFlashAddressFormat(dest: array?<Byte>, destsz: nat, addr: U32, addrsz: nat) returns (err: int)
    requires dest != null ==> destsz <= dest.Length
    modifies dest
    ensures err == -EINVAL <==> dest == null || addrsz == 0 || addrsz > 4 || addrsz > destsz
    ensures err != -EINVAL ==> err == 0
    ensures err != 0 && dest != null ==> dest[..] == old(dest[..])
    ensures err == 0 ==> dest[..addrsz] == BigEndian(addr, addrsz) && dest[addrsz..] == old(dest[addrsz..])
  {
    if dest == null || addrsz == 0 || addrsz > 4 || addrsz > destsz {
      return -EINVAL;
    }
    var i := 0;
    while i < addrsz
      invariant i <= addrsz
      invariant dest[..i] == BigEndian(addr, addrsz)[..i]
      invariant dest[i..] == old(dest[i..])
    {
      dest[i] := ShiftBytes(addr, addrsz - (i + 1)) % 256;
      i := i + 1;
    }
    return 0;
  }

  /** The test formats address 0x000010 in three bytes as 00 00 10. */
  lemma TestAddressBytes()
    ensures BigEndian(SpiTestAddress, 3) == [0x00, 0x00, 0x10]
  {
    var bytes := BigEndian(SpiTestAddress, 3);
    assert bytes[0] == ShiftBytes(0x10, 2) % 256 == 0;
    assert bytes[1] == ShiftBytes(0x10, 1) % 256 == 0;
    assert bytes[2] == ShiftBytes(0x10, 0) % 256 == 0x10;
  }

  /** The opcode byte of a read command: bits 7..0. */
  function OpcodeByte(op: bv16): (b: Byte)
  {
    (op & 0xFF) as int
  }

  /**
   * The dummy phase of a read command in single mode: none when bits 15..8
   * are clear, else a buffer of the bytes that clock out that many clocks.
   */
  function DummyBytes(op: bv16): (n: Option<U32>)
    ensures n.Some? <==> op & 0xFF00 != 0
    ensures n.Some? ==> n.value * 8 <= ((op >> 8) & 0xFF) as int < (n.value + 1) * 8
  {
    if op & 0xFF00 != 0 then Some(SpiClocksToBytes(((op >> 8) & 0xFF) as int, 1)) else None
  }

  /** `SPI_FAST_READ_DATA` sends opcode 0x0B and, in single mode, one dummy byte for its 8 tri-stated clocks. */
  lemma FastReadSingle()
    ensures OpcodeByte(SpiFastReadData) == 0x0B
    ensures DummyBytes(SpiFastReadData) == Some(1)
  {
  }
}
