/**
 * The DS1302 real-time clock driver's register frames. `set_time` sends a
 * write-enable frame and then a clock-burst frame holding the seven time
 * registers in BCD; `get_time` reads the seven registers back in one burst
 * and decodes them. The SPI bus is represented by the results its calls
 * return (and, for a read, the bytes it delivers); the semaphore and logging
 * are not modelled.
 */
module Ds1302 {
  import opened Common

  // Command bits and register addresses of the DS1302.
  const RtcCmdRead: Byte := 0x81
  const RtcCmdWrite: Byte := 0x80
  const RtcCmdWriteEnable: Byte := 0x00
  const RtcCmdWriteDisable: Byte := 0x80
  const RtcClckBurst: int := 0x1F
  const RtcClckLen: int := 0x08
  const RtcAddrCtrl: int := 0x07
  const RtcAddrYear: int := 0x06
  const RtcAddrDay: int := 0x05
  const RtcAddrMon: int := 0x04
  const RtcAddrDate: int := 0x03
  const RtcAddrHour: int := 0x02
  const RtcAddrMin: int := 0x01
  const RtcAddrSec: int := 0x00

  /** The command byte `addr << 1 | cmd` (bit 0 of `addr << 1` is clear, so the or is a sum). */
  function Command(addr: int, cmd: Byte): (b: Byte)
    requires 0 <= addr < 0x40 && cmd in {RtcCmdRead, RtcCmdWrite}
  {
    addr * 2 + cmd
  }

  /** The seven fields of `struct rtc_time` the driver reads and writes (`tm_sec` ... `tm_year`). */
  datatype Time = Time(sec: int, min: int, hour: int, mday: int, mon: int, wday: int, year: int)

  /** `struct rtc_time`, filled in place by `get_time`. */
  class RtcTime {
    var sec: int
    var min: int
    var hour: int
    var mday: int
    var mon: int
    var wday: int
    var year: int

    function Value(): Time
      reads this
    {
      Time(sec, min, hour, mday, mon, wday, year)
    }
  }

  /** `bin2bcd` for 0..99: tens in the high nibble, units in the low nibble. */
  function BinToBcd(n: int): (b: Byte)
    requires 0 <= n < 100
  {
    n / 10 * 16 + n % 10
  }

  /** `bcd2bin`: `(b >> 4) * 10 + (b & 0x0F)`, for any byte. */
  function BcdToBin(b: Byte): (n: int)
    ensures 0 <= n <= 165
  {
    b / 16 * 10 + b % 16
  }

  /** Both nibbles of `b` are decimal digits. */
  predicate IsBcd(b: Byte)
  {
    b / 16 <= 9 && b % 16 <= 9
  }

  /** Every number 0..99 survives a round trip through BCD, and its BCD byte is well formed. */
  lemma BinRoundTrip(n: int)
    requires 0 <= n < 100
    ensures IsBcd(BinToBcd(n)) && BcdToBin(BinToBcd(n)) == n
  {
    var tens, units := n / 10, n % 10;
    var b := tens * 16 + units;
    assert b / 16 == tens && b % 16 == units;
  }

  /** A well-formed BCD byte survives a round trip through binary. */
  lemma BcdRoundTrip(b: Byte)
    requires IsBcd(b)
    ensures BcdToBin(b) < 100 && BinToBcd(BcdToBin(b)) == b
  {
    var tens, units := b / 16, b % 16;
    var n := tens * 10 + units;
    assert n / 10 == tens && n % 10 == units;
  }

  /** The fields `set_time` passes to `bin2bcd` are in its domain 0..99 (`tm_year % 100` is, for a year that is not negative). */
  predicate Encodable(t: Time)
  {
    && 0 <= t.sec < 100 && 0 <= t.min < 100 && 0 <= t.hour < 100 && 0 <= t.mday < 100
    && 0 <= t.mon + 1 < 100 && 0 <= t.year
  }

  /**
   * The seven clock registers `set_time` writes, indexed by register address:
   * BCD seconds, minutes, hours, day of month and month (`tm_mon + 1`), the
   * raw weekday `tm_wday + 1` cut to a byte, and BCD `tm_year % 100`.
   */
  function Registers(t: Time): (regs: seq<Byte>)
    requires Encodable(t)
    ensures |regs| == RtcClckLen - 1
  {
    [BinToBcd(t.sec), BinToBcd(t.min), BinToBcd(t.hour), BinToBcd(t.mday),
     BinToBcd(t.mon + 1), (t.wday + 1) % 256, BinToBcd(t.year % 100)]
  }

  /** How `get_time` decodes the seven registers it reads; the year is taken to be in 2000..2099. */
  function Decode(regs: seq<Byte>): Time
    requires |regs| == RtcClckLen - 1
  {
    Time(sec := BcdToBin(regs[RtcAddrSec]),
         min := BcdToBin(regs[RtcAddrMin]),
         hour := BcdToBin(regs[RtcAddrHour]),
         wday := regs[RtcAddrDay] as int - 1,
         mday := BcdToBin(regs[RtcAddrDate]),
         mon := BcdToBin(regs[RtcAddrMon]) - 1,
         year := BcdToBin(regs[RtcAddrYear]) + 100)
  }

  /**
   * Reading back what `set_time` wrote gives the time that was set, except
   * that the year comes back as `100 + tm_year % 100` (the same year for
   * 100..199, that is 2000..2099).
   */
  lemma DecodeRegisters(t: Time)
    requires Encodable(t) && 0 <= t.wday + 1 < 256
    ensures Decode(Registers(t)) == t.(year := 100 + t.year % 100)
    ensures 100 <= t.year <= 199 ==> Decode(Registers(t)) == t
  {
    DecodeClock(t);
    DecodeCalendar(t);
    YearDigits(t.year);
  }

  /** The seconds, minutes, hours and day of the month come back from their registers. */
  lemma DecodeClock(t: Time)
    requires Encodable(t)
    ensures var d := Decode(Registers(t)); d.sec == t.sec && d.min == t.min && d.hour == t.hour && d.mday == t.mday
  {
    BinRoundTrip(t.sec);
    BinRoundTrip(t.min);
    BinRoundTrip(t.hour);
    BinRoundTrip(t.mday);
  }

  /** The month and weekday come back from their registers, and the year as `100 + tm_year % 100`. */
  lemma DecodeCalendar(t: Time)
    requires Encodable(t) && 0 <= t.wday + 1 < 256
    ensures var d := Decode(Registers(t)); d.mon == t.mon && d.wday == t.wday && d.year == 100 + t.year % 100
  {
    BinRoundTrip(t.mon + 1);
    YearDigits(t.year);
    BinRoundTrip(t.year % 100);
  }

  /** The last two decimal digits of a year that is not negative; for 100..199 they are the year less 100. */
  lemma YearDigits(year: int)
    requires 0 <= year
    ensures 0 <= year % 100 < 100
    ensures 100 <= year <= 199 ==> year % 100 == year - 100
    ensures year < 100 ==> (year + 100) % 100 == year
  {
  }

  /** Registers in BCD (the weekday register excepted) are written back unchanged after a decode. */
  lemma RegistersOfDecode(regs: seq<Byte>)
    requires |regs| == RtcClckLen - 1
    requires forall i | 0 <= i < |regs| && i != RtcAddrDay :: IsBcd(regs[i])
    ensures Encodable(Decode(regs)) && Registers(Decode(regs)) == regs
  {
    var t := Decode(regs);
    EncodeClock(regs);
    EncodeCalendar(regs);
    var back := Registers(t);
    assert forall i | 0 <= i < |regs| :: back[i] == regs[i];
  }

  /** Well-formed BCD seconds, minutes, hours and day of the month are encoded back to the same registers. */
  lemma EncodeClock(regs: seq<Byte>)
    requires |regs| == RtcClckLen - 1
    requires IsBcd(regs[RtcAddrSec]) && IsBcd(regs[RtcAddrMin]) && IsBcd(regs[RtcAddrHour]) && IsBcd(regs[RtcAddrDate])
    ensures var t := Decode(regs);
      && 0 <= t.sec < 100 && 0 <= t.min < 100 && 0 <= t.hour < 100 && 0 <= t.mday < 100
      && BinToBcd(t.sec) == regs[RtcAddrSec] && BinToBcd(t.min) == regs[RtcAddrMin]
      && BinToBcd(t.hour) == regs[RtcAddrHour] && BinToBcd(t.mday) == regs[RtcAddrDate]
  {
    BcdRoundTrip(regs[RtcAddrSec]);
    BcdRoundTrip(regs[RtcAddrMin]);
    BcdRoundTrip(regs[RtcAddrHour]);
    BcdRoundTrip(regs[RtcAddrDate]);
  }

  /** Well-formed BCD month and year registers, and any weekday register, are encoded back unchanged. */
  lemma EncodeCalendar(regs: seq<Byte>)
    requires |regs| == RtcClckLen - 1
    requires IsBcd(regs[RtcAddrMon]) && IsBcd(regs[RtcAddrYear])
    ensures var t := Decode(regs);
      && 0 <= t.mon + 1 < 100 && 0 <= t.year
      && BinToBcd(t.mon + 1) == regs[RtcAddrMon] && (t.wday + 1) % 256 == regs[RtcAddrDay]
      && 0 <= t.year % 100 < 100 && BinToBcd(t.year % 100) == regs[RtcAddrYear]
  {
    BcdRoundTrip(regs[RtcAddrMon]);
    BcdRoundTrip(regs[RtcAddrYear]);
    YearDigits(BcdToBin(regs[RtcAddrYear]));
  }

  /**
   * `ds1302_set_time`. `validate` is `rtc_utils_validate_rtc_time` over the
   * seven fields, whose rules are not part of this model beyond keeping the
   * fields in the domain of `bin2bcd`; `enableResult` and `burstResult` are
   * what the two `spi_write_dt` calls return. `sent` lists the frames put on
   * the bus.
   */
  method SetTime(timeptr: RtcTime?, validate: Time -> bool, enableResult: int, burstResult: int)
    returns (err: int, sent: seq<seq<Byte>>)
    requires forall t :: validate(t) ==> Encodable(t)
    ensures timeptr == null || !validate(timeptr.Value()) ==> err == -EINVAL && sent == []
    ensures timeptr != null && validate(timeptr.Value()) && enableResult != 0 ==>
              err == enableResult && sent == [[0x8E, 0x00]]
    ensures timeptr != null && validate(timeptr.Value()) && enableResult == 0 ==>
              err == burstResult && sent == [[0x8E, 0x00], [0xBE] + Registers(timeptr.Value()) + [0x80]]
  {
    var buf := new Byte[RtcClckLen + 1](_ => 0);
    if timeptr == null || !validate(timeptr.Value()) {
      return -EINVAL, [];
    }
    buf[0] := Command(RtcAddrCtrl, RtcCmdWrite);
    buf[1] := RtcCmdWriteEnable;
    assert buf[..2] == [0x8E, 0x00];
    sent := [buf[..2]];
    err := enableResult;
    if err != 0 {
      return;
    }
    FillBurst(buf, timeptr);
    sent := sent + [buf[..]];
    err := burstResult;
  }

  /** The clock-burst frame of `set_time`: the burst write command, the seven registers, then write-disable. */
  method FillBurst(buf: array<Byte>, timeptr: RtcTime)
    requires buf.Length == RtcClckLen + 1 && Encodable(timeptr.Value())
    modifies buf
    ensures buf[..] == [0xBE] + Registers(timeptr.Value()) + [0x80]
  {
    buf[0] := Command(RtcClckBurst, RtcCmdWrite);
    buf[1] := BinToBcd(timeptr.sec);
    buf[2] := BinToBcd(timeptr.min);
    buf[3] := BinToBcd(timeptr.hour);
    buf[4] := BinToBcd(timeptr.mday);
    buf[5] := BinToBcd(timeptr.mon + 1);
    buf[6] := (timeptr.wday + 1) % 256;
    buf[7] := BinToBcd(timeptr.year % 100);
    buf[8] := RtcCmdWriteDisable;
    ghost var regs := Registers(timeptr.Value());
    assert forall i | 0 <= i < 9 :: buf[i] == ([0xBE] + regs + [0x80])[i];
  }

  /**
   * `ds1302_get_time`. `busResult` is what `spi_transceive_dt` returns and
   * `received` the seven bytes it delivers. `sent` is the command byte put on
   * the bus, if any.
   */
  method GetTime(timeptr: RtcTime?, busResult: int, received: seq<Byte>) returns (err: int, sent: seq<Byte>)
    requires |received| == RtcClckLen - 1
    modifies timeptr
    ensures timeptr == null ==> err == -EINVAL && sent == []
    ensures timeptr != null ==> err == busResult && sent == [0xBF]
    ensures timeptr != null && busResult != 0 ==> timeptr.Value() == old(timeptr.Value())
    ensures timeptr != null && busResult == 0 ==> timeptr.Value() == Decode(received)
  {
    if timeptr == null {
      return -EINVAL, [];
    }
    var addr := Command(RtcClckBurst, RtcCmdRead);
    sent := [addr];
    err := busResult;
    if err != 0 {
      return;
    }
    var buf := received;
    timeptr.sec := BcdToBin(buf[RtcAddrSec]);
    timeptr.min := BcdToBin(buf[RtcAddrMin]);
    timeptr.hour := BcdToBin(buf[RtcAddrHour]);
    timeptr.wday := buf[RtcAddrDay] as int - 1;
    timeptr.mday := BcdToBin(buf[RtcAddrDate]);
    timeptr.mon := BcdToBin(buf[RtcAddrMon]) - 1;
    timeptr.year := BcdToBin(buf[RtcAddrYear]) + 100;
  }
}
