# Zephyr: wait queues, the doubly linked list, and driver encoders

A Dafny model of several small pieces of the Zephyr RTOS.

- **Kernel wait queue** (`kernel/include/wait_q.h`). Blocking kernel objects use it to track pending threads. It has two build-time backends:
  - the default one keeps the threads on an intrusive `sys_dlist_t`;
  - the scalable one (`CONFIG_WAITQ_SCALABLE`) keeps them in a red-black tree ordered by `lessthan_fn`.
- **The `sys_dlist` doubly linked list** (`dlist.dfy`). It is modelled as a class that is both list and node, updated in place. A ghost sequence `Nodes` holds the linked nodes from head to tail. The operations follow Zephyr's `sys_dlist` API. Their contracts state the whole node sequence after each operation, and the counts and spot checks that `tests/unit/list/dlist.c` asserts follow from them.
- **Bit-level encoders and decoders:**
  - the Space Cubics CAN controller's TX message word and IP version fields (`sccan.dfy`);
  - the DS1302 RTC clock-burst register frames (`ds1302.dfy`);
  - the PIC32CZ CA clock IDs and their table (`pic32cz_clock.dfy`);
  - the Renesas RX and RA pin-mux encodings and their PSEL codes (`pinctrl_rx.dfy`, `pinctrl_ra.dfy`).
- **Buffer helpers:**
  - the retained-RAM driver's read, write and clear over its byte region (`retained_mem.dfy`);
  - the MEC172x QSPI test's clock-to-byte conversion and big-endian address formatting (`qspi.dfy`);
  - the RX DTC activation-interrupt check (`rx_dtc.dfy`).

`common.dfy` holds the shared C types (`uint8_t`, `uint32_t`), `EINVAL` and an `Option` type.

The source of `include/zephyr/sys/dlist.h` is not among the files cited here. Its operations are modelled one by one from the `sys_dlist` API, and the rows for them cite the test lines that exercise each one.

## Model

| member | source | states |
|---|---|---|
| DList.DNode.Init | tests/unit/list/dlist.c:22-82 | `sys_dlist_init` leaves a well-formed, empty list: no nodes, and head and tail point back at the list itself |
| DList.DNode.IsEmpty | tests/unit/list/dlist.c:30-33 | true exactly when the list holds no nodes |
| DList.DNode.HasMultipleNodes | tests/unit/list/dlist.c:390-391 | true exactly when the list holds two nodes or more |
| DList.DNode.IsHead | tests/unit/list/dlist.c:382-385 | true exactly for the first node (for the list itself when it is empty) |
| DList.DNode.IsTail | tests/unit/list/dlist.c:386-389 | true exactly for the last node (for the list itself when it is empty) |
| DList.DNode.PeekHead | tests/unit/list/dlist.c:147-170 | null for an empty list, otherwise the first node |
| DList.DNode.PeekHeadNotEmpty | tests/unit/list/dlist.c:379-381 | the first node of a list known not to be empty |
| DList.DNode.PeekTail | tests/unit/list/dlist.c:147-170 | null for an empty list, otherwise the last node |
| DList.DNode.PeekNextNoCheck | tests/unit/list/dlist.c:245-247 | the node after the given one in list order, or null after the tail |
| DList.DNode.PeekNext | tests/unit/list/dlist.c:256-258 | as `PeekNextNoCheck`, and null for a null node |
| DList.DNode.PeekPrevNoCheck | tests/unit/list/dlist.c:393-400 | the node before the given one in list order, or null before the head |
| DList.DNode.PeekPrev | tests/unit/list/dlist.c:393-404 | as `PeekPrevNoCheck`, and null for a null node |
| DList.DNode.Append | tests/unit/list/dlist.c:192-198 | the list stays well formed and its nodes are the old nodes followed by the new one |
| DList.DNode.Prepend | tests/unit/list/dlist.c:209-216 | the list stays well formed and its nodes are the new one followed by the old nodes |
| DList.DNode.Get | tests/unit/list/dlist.c:363-364 | null on an empty list, which stays empty; otherwise the old head, now unlinked, with the rest of the list in order |
| DList.DNode.Len | tests/unit/list/dlist.c:84-107 | the length found by walking the list is the number of nodes |
| DList.DNode.InsertAt | tests/unit/list/dlist.c:366-370 | the node goes right before the first node satisfying the condition, or at the end when none does; the other nodes keep their order |
| DList.DNode.ForEachNode | tests/unit/list/dlist.c:109-134 | the plain walk (node and container forms) visits exactly the list's nodes, in order |
| DList.DNode.ForEachNodeSafe | tests/unit/list/dlist.c:118-143 | the removal-safe walk visits every node that was on the list, in order, even though the body unlinks visited nodes; afterwards the list holds exactly the nodes it kept, in order, and every unlinked node has both links cleared |
| DList.DNode.IterateFromNode | tests/unit/list/dlist.c:313-335 | a walk resumed after a node (or from the head) stops at the first node where the body breaks, or runs off the tail; the body runs once per node up to and including that one |
| DList.IterateFromNodeCounts | tests/unit/list/dlist.c:307-335 | on six appended nodes the three resumed walks run their bodies 3, 1 and 2 times |
| DList.DNode.RangePrepend | tests/unit/list/dlist.c:451-486 | the run `first..last` leaves its source list, keeping its order, and goes in front of this list; both lists stay well formed and the rest of the source keeps its order |
| DList.DNode.RangeAppend | tests/unit/list/dlist.c:488-523 | as `RangePrepend`, with the run going after the tail of this list |
| DList.Insert | tests/unit/list/dlist.c:249-258 | the new node goes immediately before its successor and everything else keeps its place |
| DList.Remove | tests/unit/list/dlist.c:260-290 | the node leaves the list, the rest keeps its order, and the node's links are cleared |
| DList.LinkedNodesAreLinked | tests/unit/list/dlist.c:200-207 | every node on a well-formed list reports linked |
| DList.RingDistinct | tests/unit/list/dlist.c:84-145 | no node appears twice on a well-formed list, so each walk visits each node once |
| WaitQ.DlistWaitQ.Init | kernel/include/wait_q.h:87-90 | `z_waitq_init` leaves a valid queue with no pending threads |
| WaitQ.DlistWaitQ.Head | kernel/include/wait_q.h:92-95 | null exactly when nothing is pending; otherwise the first pending thread, which appears nowhere else in the queue |
| WaitQ.DlistWaitQ.ForEach | kernel/include/wait_q.h:59-67 | `_WAIT_Q_FOR_EACH` visits every pending thread exactly once, in queue order |
| WaitQ.DlistWaitQ.ForEachSafe | kernel/include/wait_q.h:69-85 | `_WAIT_Q_FOR_EACH_SAFE` visits every originally pending thread in order while the body detaches some; detaching all of them empties the queue, detaching none leaves it as it was, and every detached thread reports not linked |
| WaitQ.DlistWaitQ.HeadIsFirstVisited | kernel/include/wait_q.h:65-67 | the thread `z_waitq_head` returns is the first one `_WAIT_Q_FOR_EACH` visits, and null when it visits none |
| WaitQ.DlistWaitQ.InitLeavesNothingToVisit | kernel/include/wait_q.h:87-95 | after `z_waitq_init` the head is null and both walks visit nothing |
| WaitQ.RbWaitQ.Init | kernel/include/wait_q.h:40-47 | the scalable `z_waitq_init` installs the given ordering function on an empty tree |
| WaitQ.RbWaitQ.Head | kernel/include/wait_q.h:49-52 | none exactly when the tree is empty; otherwise the leftmost thread in order, which no other pending thread is less than |
| WaitQ.RbWaitQ.ForEach | kernel/include/wait_q.h:26-33 | the in-order walk visits every pending thread, never going from a greater thread to a lesser one |
| WaitQ.RbWaitQ.HeadIsFirstVisited | kernel/include/wait_q.h:32-52 | with the tree backend too, the thread `z_waitq_head` returns is the first one `_WAIT_Q_FOR_EACH` visits, and none when it visits none |
| Ds1302.BinRoundTrip | drivers/rtc/rtc_ds1302.c:90-96 | each number 0..99 is written as a well-formed BCD byte that decodes back to it |
| Ds1302.BcdRoundTrip | drivers/rtc/rtc_ds1302.c:154-160 | a well-formed BCD byte decodes to 0..99 and encodes back to the same byte |
| Ds1302.DecodeRegisters | drivers/rtc/rtc_ds1302.c:89-96 | decoding the seven registers `set_time` writes gives back the time, with the year as `100 + tm_year % 100`; exactly the time for years 100..199 |
| Ds1302.DecodeClock | drivers/rtc/rtc_ds1302.c:90-93 | seconds, minutes, hours and day of month come back from their registers |
| Ds1302.DecodeCalendar | drivers/rtc/rtc_ds1302.c:94-96 | month and weekday come back from their registers, and the year as `100 + tm_year % 100` |
| Ds1302.YearDigits | drivers/rtc/rtc_ds1302.c:96 | `tm_year % 100` is in 0..99, and equals `tm_year - 100` for years 100..199 |
| Ds1302.RegistersOfDecode | drivers/rtc/rtc_ds1302.c:154-160 | well-formed BCD registers (the weekday register is any byte) decode to a time that `set_time` encodes back to the same registers |
| Ds1302.EncodeClock | drivers/rtc/rtc_ds1302.c:154-158 | the decoded seconds, minutes, hours and day of month are in bin2bcd's domain and encode back to their registers |
| Ds1302.EncodeCalendar | drivers/rtc/rtc_ds1302.c:157-160 | the decoded month, weekday and year encode back to their registers |
| Ds1302.SetTime | drivers/rtc/rtc_ds1302.c:53-105 | -EINVAL with nothing sent for a null or invalid time; if the write-enable frame 0x8E 0x00 fails, its error and nothing more; otherwise that frame, then the burst frame, and the burst write's result |
| Ds1302.FillBurst | drivers/rtc/rtc_ds1302.c:89-98 | the burst frame is 0xBE, the seven registers in address order, then write-disable 0x80 |
| Ds1302.GetTime | drivers/rtc/rtc_ds1302.c:107-165 | -EINVAL with nothing sent for a null pointer; otherwise sends 0xBF and returns the transfer result, leaving the time untouched on failure and setting it to the decoded registers on success |
| ScCan.GenMaskValues | drivers/can/can_sccan.c:47-48 | the two GENMASKs are 0x1FFC0000 (bits 28..18) and 0x3FFFF (bits 17..0) |
| ScCan.Msg1Layout | drivers/can/can_sccan.c:63-75 | bit 19 is the extended flag; extended words hold id[28:18], SRR = 1, id[17:0] and RTR; standard words hold id[10:0] and RTR, with bits 18..0 clear |
| ScCan.ExtendedRoundTrip | drivers/can/can_sccan.c:47-49 | an extended id below 2^29 and its RTR bit are recovered from the word |
| ScCan.StandardRoundTrip | drivers/can/can_sccan.c:44-46 | a standard id below 2^11 and its RTR bit are recovered from the word |
| ScCan.HighIdBitsDropped | drivers/can/can_sccan.c:44-48 | id bits above bit 28 (extended) or bit 10 (standard) do not affect the word |
| ScCan.Msg1Injective | drivers/can/can_sccan.c:63-75 | distinct frames within the id widths give distinct words, and a standard word never equals an extended one |
| ScCan.IpVerMajor | drivers/can/can_sccan.c:24 | the major version fits in 8 bits |
| ScCan.IpVerMinor | drivers/can/can_sccan.c:25 | the minor version fits in 8 bits |
| ScCan.IpVerPatch | drivers/can/can_sccan.c:26 | the patch version fits in 16 bits |
| ScCan.IpVersionRoundTrip | drivers/can/can_sccan.c:24-26 | putting the three fields back in place gives the register value |
| Pic32czClock.ExtractDerive | include/zephyr/dt-bindings/clock/mchp_pic32cz_ca_clock.h:24-62 | reading an ID through the layout recovers every field, when the instance is below 256 and the other fields below 64 |
| Pic32czClock.DeriveInjective | include/zephyr/dt-bindings/clock/mchp_pic32cz_ca_clock.h:60-62 | fields within their widths that give the same ID are the same fields |
| Pic32czClock.InstSpills | include/zephyr/dt-bindings/clock/mchp_pic32cz_ca_clock.h:60-62 | the macro masks nothing, so instance 256 gives the same ID as peripheral channel 1 |
| Pic32czClock.SmallGroups | include/zephyr/dt-bindings/clock/mchp_pic32cz_ca_clock.h:69-177 | the XOSC to GCLKGEN groups and the MCLKDOMAIN group have the right type, instances 0, 1, ... in order, and allowed field values |
| Pic32czClock.GclkPeriphGroup | include/zephyr/dt-bindings/clock/mchp_pic32cz_ca_clock.h:181-311 | the GCLKPERIPH IDs have type 7, instances 0..62 in order, and allowed field values |
| Pic32czClock.MclkPeriphGroup | include/zephyr/dt-bindings/clock/mchp_pic32cz_ca_clock.h:327-487 | the MCLKPERIPH IDs have type 9, instances 0..75 in order, and allowed field values |
| Pic32czClock.TableWellFormed | include/zephyr/dt-bindings/clock/mchp_pic32cz_ca_clock.h:40-50 | every predefined ID has type 0..9, mask register 0..2 or 0x3f, mask bit 0..31 or 0x3f, and channel 0..63; each type's instances count 0..`*_MAX` |
| Pic32czClock.MaxIsLargestInst | include/zephyr/dt-bindings/clock/mchp_pic32cz_ca_clock.h:65-487 | each `*_MAX` constant is the largest instance of its type, and its last one |
| Pic32czClock.TableDistinct | include/zephyr/dt-bindings/clock/mchp_pic32cz_ca_clock.h:69-484 | no two predefined IDs are equal |
| Pic32czClock.DocumentedPeriphTooSmall | include/zephyr/dt-bindings/clock/mchp_pic32cz_ca_clock.h:27-28 | CAN2 (channel 48) and CM7_TRACE (channel 63) are outside the documented range 0..47 |
| Pic32czClock.PeriphWithinField | include/zephyr/dt-bindings/clock/mchp_pic32cz_ca_clock.h:55 | every predefined ID's peripheral channel is in 0..63 |
| PinctrlRx.FieldsDisjoint | include/zephyr/dt-bindings/pinctrl/renesas/pinctrl-rx.h:24-37 | port, pin and PSEL occupy disjoint bits that together make up bits 13..0 |
| PinctrlRx.RoundTrip | include/zephyr/dt-bindings/pinctrl/renesas/pinctrl-rx.h:501-502 | in-range arguments are read back from their fields, and the value is below 2^14 |
| PinctrlRx.ReadBack | include/zephyr/dt-bindings/pinctrl/renesas/pinctrl-rx.h:501-502 | every value below 2^14 encodes the fields read from it |
| PinctrlRx.Injective | include/zephyr/dt-bindings/pinctrl/renesas/pinctrl-rx.h:501-502 | distinct in-range arguments give distinct values |
| PinctrlRx.DocumentedPselLost | include/zephyr/dt-bindings/pinctrl/renesas/pinctrl-rx.h:34-37 | read with the position and mask the comments describe, the PSEL of every encoded value is 0, so any PSEL other than 0 is lost |
| PinctrlRx.FlattenUpTo | include/zephyr/dt-bindings/pinctrl/renesas/pinctrl-rx.h:44-484 | a bound that holds in every section of codes holds for all the codes |
| PinctrlRx.FlattenHas | include/zephyr/dt-bindings/pinctrl/renesas/pinctrl-rx.h:44-484 | every code of every section is among all the codes |
| PinctrlRx.CodesFitField | include/zephyr/dt-bindings/pinctrl/renesas/pinctrl-rx.h:44-484 | every `RX_PSEL_*` code fits the 5-bit PSEL field, and the largest is 0x19 |
| PinctrlRa.FieldsDisjoint | include/zephyr/dt-bindings/pinctrl/renesas/pinctrl-ra.h:24-89 | port, pin, PSEL and mode occupy disjoint bits that together make up bits 13..0 |
| PinctrlRa.ModeAlwaysSet | include/zephyr/dt-bindings/pinctrl/renesas/pinctrl-ra.h:104-106 | the mode bit of every encoded value is 1 |
| PinctrlRa.RoundTrip | include/zephyr/dt-bindings/pinctrl/renesas/pinctrl-ra.h:104-106 | in-range arguments are read back from their fields, and the value is in 2^13..2^14-1 |
| PinctrlRa.ReadBack | include/zephyr/dt-bindings/pinctrl/renesas/pinctrl-ra.h:104-106 | every value in 2^13..2^14-1 encodes the fields read from it |
| PinctrlRa.Injective | include/zephyr/dt-bindings/pinctrl/renesas/pinctrl-ra.h:104-106 | distinct in-range arguments give distinct values |
| PinctrlRa.CodesFitField | include/zephyr/dt-bindings/pinctrl/renesas/pinctrl-ra.h:39-75 | every `RA_PSEL_*` code fits the 5-bit PSEL field, and the largest is 0x1c |
| RetainedMem.Written | drivers/retained_mem/retained_mem_zephyr_ram.c:83 | after copying `data` over the region at `offset`, those bytes hold `data` and every other byte is unchanged |
| RetainedMem.ReadAfterWrite | drivers/retained_mem/retained_mem_zephyr_ram.c:61-84 | reading a range just written returns the written bytes |
| RetainedMem.WriteSameIsIdentity | drivers/retained_mem/retained_mem_zephyr_ram.c:75-84 | writing back what a range already holds changes nothing |
| RetainedMem.WriteTwice | drivers/retained_mem/retained_mem_zephyr_ram.c:75-84 | a second write over the same range replaces the first |
| RetainedMem.RetainedRam.Size | drivers/retained_mem/retained_mem_zephyr_ram.c:54-59 | the size is the length of the region |
| RetainedMem.RetainedRam.Read | drivers/retained_mem/retained_mem_zephyr_ram.c:61-73 | the buffer's first `n` bytes become the region's bytes from `offset`, the rest of the buffer and the region are untouched, and the result is 0 |
| RetainedMem.RetainedRam.Write | drivers/retained_mem/retained_mem_zephyr_ram.c:75-92 | the region becomes `Written` of its old bytes with the buffer's first `n` bytes; the result is the cache flush's, or 0 without cache management |
| RetainedMem.RetainedRam.Clear | drivers/retained_mem/retained_mem_zephyr_ram.c:94-110 | every byte of the region is 0; the result is the cache flush's, or 0 without cache management |
| RetainedMem.RetainedRam.WriteThenRead | drivers/retained_mem/retained_mem_zephyr_ram.c:61-92 | a read of a range just written, without cache management, succeeds and returns the written bytes |
| Qspi.SpiClocksToBytes | tests/boards/mec172xevb_assy6906/qspi/src/main.c:69-82 | the result is the number of whole bytes whose clocks fit: 2 clocks per byte in quad mode, 4 in dual mode, 8 otherwise |
| Qspi.BigEndianStep | tests/boards/mec172xevb_assy6906/qspi/src/main.c:90-92 | the `n` big-endian bytes of an address are the `n - 1` bytes of the address divided by 256, then its low byte |
| Qspi.BigEndianValue | tests/boards/mec172xevb_assy6906/qspi/src/main.c:90-92 | reading the `n` bytes back gives the address modulo 256^n, and the address itself when it fits |
| Qspi.SpiFlashAddressFormat | tests/boards/mec172xevb_assy6906/qspi/src/main.c:84-95 | -EINVAL, with nothing written, exactly for a null destination, a size of 0 or above 4, or more bytes than `destsz`; otherwise 0, the first `addrsz` bytes are the address's low bytes most significant first, and the rest is unchanged |
| Qspi.TestAddressBytes | tests/boards/mec172xevb_assy6906/qspi/src/main.c:215-216 | address 0x000010 in three bytes is 00 00 10 |
| Qspi.DummyBytes | tests/boards/mec172xevb_assy6906/qspi/src/main.c:323-328 | a dummy phase exists exactly when bits 15..8 of the opcode word are not all 0, and then its length is the number of whole bytes those clocks fill in single mode (8 clocks per byte) |
| Qspi.FastReadSingle | tests/boards/mec172xevb_assy6906/qspi/src/main.c:313-328 | `SPI_FAST_READ_DATA` sends opcode 0x0B and, in single mode, one dummy byte |
| RxDtc.ValidActivationIrqBound | include/zephyr/drivers/misc/renesas_rx_dtc/renesas_rx_dtc.h:253-260 | the check accepts exactly the numbers up to and including `DTC_VECTOR_TABLE_ENTRIES`, and its `< 0` test never rejects |
| RxDtc.AllPassForLargeTables | include/zephyr/drivers/misc/renesas_rx_dtc/renesas_rx_dtc.h:253-256 | with 255 interrupts or more every 8-bit number passes |
| RxDtc.AcceptsOnePastTable | include/zephyr/drivers/misc/renesas_rx_dtc/renesas_rx_dtc.h:255 | `CONFIG_NUM_IRQS` itself is accepted though it indexes no table entry |
| RxDtc.ChecksDifferOnlyAtBound | include/zephyr/drivers/misc/renesas_rx_dtc/renesas_rx_dtc.h:28 | every table index passes the check as written, and the two checks differ only at `CONFIG_NUM_IRQS` |

## Left out

- Concurrency is not modelled; every operation runs alone. This covers the scheduler lock around wait queues, the DS1302 semaphore and the retained-RAM mutex.
- The red-black tree of the scalable wait queue is represented by its in-order contents. Its nodes and balancing are not modelled. `rb_get_min` is modelled by its result, the first item in order (`WaitQ.RbWaitQ.Head`), not by its descent through the tree.
- The body of `z_priq_rb_lessthan` (`priority_q.h`) is not part of this model. It is taken to be some strict order.
- Inserting a thread into either wait queue backend is not part of this model. That happens in `priority_q.h`, and the header modelled here does not do it.
- `WaitQ.RbWaitQ.Init`: requires the given order to be strict, because the kernel's comparator is not available.
- `DList.DNode.InsertAt`: the C callback and its `data` argument are one Dafny function.
- `DList.DNode.ForEachNodeSafe`: the body's unlinking is represented by the set of nodes it unlinks.
- `DList.DNode.IterateFromNode`: the body's `break` is represented by the set of nodes it breaks at.
- `DList.DNode.RangePrepend`, `DList.DNode.RangeAppend`, `DList.Insert`, `DList.Remove`: the list and the positions a node occupies are ghost parameters. The C functions are not given them.
- `sys_dnode_init` is the `DList.DNode` constructor.
- Containers are identified with their embedded nodes (`CONTAINER_OF` is one-to-one). The container walk is the node walk.
- `Ds1302.SetTime`: `rtc_utils_validate_rtc_time` is not part of this model; it is a parameter. The only thing required of it is that it accepts only fields in bin2bcd's domain.
- `Ds1302.GetTime`: the SPI bus is represented by the result `spi_transceive_dt` returns and the seven bytes it delivers.
- `Ds1302.SetTime`: the bus is represented by the results of the two `spi_write_dt` calls. The frames sent are returned.
- `bin2bcd` and `bcd2bin` are not part of this model. BCD is defined here for 0..99, and decoding applies to any byte.
- Logging (`LOG_*`, `printk`) is not modelled in any driver.
- The SC CAN driver's register access (`sys_read32`/`sys_write32`), interrupt setup and stubbed API functions are not modelled. `can_dlc_to_bytes` is not part of this model.
- `RetainedMem.RetainedRam.Write`: `sys_cache_data_flush_range` is represented by its result, or None when cache management is off. The same holds for `RetainedMem.RetainedRam.Clear`.
- `RetainedMem.RetainedRam.Read`: requires the buffer not to overlap the region, as `memcpy` does. The same holds for `RetainedMem.RetainedRam.Write`.
- `Qspi.SpiFlashAddressFormat`: requires `destsz` to be no more than the destination's real length. That is the caller's promise in C.
- The QSPI test's SPI transfers, buffers and assertions are not modelled. Only its helpers and command constants are.
- The C macros shift signed `int` arguments. The model shifts unsigned 32-bit words, which agrees for every argument the headers pass.

## Findings

| source | as written | input that shows it | evidently intended | confidence | as-written member | corrected member |
|---|---|---|---|---|---|---|
| include/zephyr/dt-bindings/clock/mchp_pic32cz_ca_clock.h:27-28 | the layout comment limits the GCLK peripheral channel to 0..47 | `CLOCK_MCHP_GCLKPERIPH_ID_CAN2` (line 283) uses channel 48 and `CLOCK_MCHP_GCLKPERIPH_ID_CM7_TRACE` (line 309) uses 63 | 0..63, the range the parameter comment at line 55 gives and the 6-bit field holds | not executed; high | Pic32czClock.DocumentedPeriphTooSmall | Pic32czClock.PeriphWithinField |
| include/zephyr/dt-bindings/pinctrl/renesas/pinctrl-rx.h:34-37 | the brief "Bit position of the PSEL field" sits over `RX_PSEL_MASK` (0x1f), and "Mask for the PSEL field" over `RX_PSEL_POS` (9) | reading the PSEL of `RX_PSEL(0xA, 0, 0)` at position 0x1f with mask 9 gives 0, not 0xA | position 9, mask 0x1f, as the trailing comments and `RX_PSEL` use them | not executed; high | PinctrlRx.DocumentedPselLost | PinctrlRx.RoundTrip |
| include/zephyr/drivers/misc/renesas_rx_dtc/renesas_rx_dtc.h:255 | rejects only numbers above `DTC_VECTOR_TABLE_ENTRIES` | with `CONFIG_NUM_IRQS` below 256, `activation_irq == CONFIG_NUM_IRQS` is accepted, though the table's entries are 0..`CONFIG_NUM_IRQS - 1` | reject numbers at or above the entry count (`>=`) | not executed; medium | RxDtc.AcceptsOnePastTable | RxDtc.ChecksDifferOnlyAtBound |
