# LPC15xx C_CAN driver, modelled in Dafny

This project models `can_api.c`, the mbed HAL driver for the C_CAN
controller of the NXP LPC15xx, and proves properties of the model.

The controller is plain state: a class `Controller.CanController` with
- a block of 16-bit registers (CANCNTL, CANTEST, CANSTAT, CANEC, CANINT,
  CANCLKDIV, CANBT, CANBRPE);
- the staging registers of the two message interfaces IF1 and IF2;
- a message RAM of 32 message objects, as an `array<MsgObj>`.

An interface transfer (CMDMSK, then CMDREQ, then the wait for BUSY) is one
atomic copy between an interface and one object. The command-mask bits
choose which fields are copied. The valid, new-data and transmit-request
bitmaps are read-only views of the message RAM.

The driver is the class `CanApi.CanDriver`. It keeps the driver's
file-scope state (`can_irq_id`, `rx_interrupts`, `tx_interrupts`) next to
the controller it drives. It also keeps a ghost log of the calls the
registered interrupt handler would receive.

Each driver operation is a method. Its contract states the new controller
state through functions of the modules below. The properties are proved
about those functions. `can_rderror` and `can_tderror` are the functions
`CanApi.CanDriver.RdError` and `CanApi.CanDriver.TdError`, which read CANEC
through `CanRegs.ReceiveErrors` and `CanRegs.TransmitErrors`.

| module | what it holds |
|---|---|
| `Bitmap` | the first-set / first-clear scans and the bit count the driver runs over a 32-slot bitmap |
| `CanRegs` | register bits, the message-object record, what a transfer copies, the bitmaps, the error counters |
| `BitTiming` | the `timing_pts` table, the `can_speed` search, the CANBT packing |
| `MsgCodec` | how a frame or a filter is packed into the staging registers, and how `can_read` decodes them |
| `IrqDecode` | which notifications `can_irq` delivers, in which order, and what it clears |
| `Controller` | the controller class and its transfer |
| `DriverLogic` | the decisions of each call as functions of register values |
| `CanApi` | the driver class with every `can_*` operation |

Behaviour the model shows, because the code does it:
- A frame written by `can_write` and read back by `can_read` keeps its payload and format.
- Its length code comes back cut to 4 bits. It is not clamped to 8.
- A standard identifier comes back cut to 11 bits.
- An extended identifier comes back with its two halves exchanged: `can_write` stores the low 16 bits in ARB1, while `can_read` takes ARB1 as the high half.
- The frame type comes back inverted: `can_write` sets DIR for data frames, while `can_read` reads DIR as "remote".
- So a frame does not survive the round trip unchanged, and the model follows the code in this.
- `can_write` masks `id >> 16` with 0x1FFFF. So bit 29 of an extended identifier lands on DIR.
- `can_speed` keeps only the low 6 bits of the prescaler it found, so a prescaler above 63 yields a CANBT word for a different bit width.
- `can_speed` holds the prescaler in 16 bits. Above 25 * 0x10000 clocks per bit its loop never ends; between 4 * 0x10000 and 25 * 0x10000 it can stop at a different pair than the search over the intended range (see Findings).
- `can_monitor` always leaves INIT set, so the controller stops either way.
- The test modes of `can_mode` leave INIT as it was. After `can_mode(MODE_RESET)`, a following `can_mode(MODE_SILENT)` sets TEST and SILENT but the controller stays in initialization. `DriverLogic.ObservedMode` reads the mode from TEST, SILENT and LBACK alone when TEST is set, so "reads back as that mode" does not mean the controller is running.
- Once objects 1..31 hold filters, automatic filter selection hands out object 32, the transmit object.
- `can_tx_status` never reports "available", because there is only one transmit object.
- `can_tx_status` and `can_write` mask CANTXREQ1 with 0xFF. That hides objects 9..16, and it does not affect object 32.

## Model

| member | source | states |
|---|---|---|
| Bitmap.FirstMatch | Firmware/mbed/libraries/mbed/targets/hal/TARGET_NXP/TARGET_LPC15XX/can_api.c:161-166 | the result is the least index in the range whose bit has the wanted value, or the range end when there is none; no earlier index matches |
| Bitmap.PopCount | Firmware/mbed/libraries/mbed/targets/hal/TARGET_NXP/TARGET_LPC15XX/can_api.c:583-587 | the count is at most the range length; it is 0 exactly when no bit is set and the full length exactly when all are |
| Bitmap.ScanFirst | Firmware/mbed/libraries/mbed/targets/hal/TARGET_NXP/TARGET_LPC15XX/can_api.c:161-166 | the scan loop with `break` stops at FirstMatch |
| Bitmap.CountSet | Firmware/mbed/libraries/mbed/targets/hal/TARGET_NXP/TARGET_LPC15XX/can_api.c:583-587 | the counting loop computes PopCount |
| CanRegs.WriteObject | Firmware/mbed/libraries/mbed/targets/hal/TARGET_NXP/TARGET_LPC15XX/can_api.c:48-57 | the write direction of a transfer; DriverLogic.TxWriteCopiesAll and DriverLogic.FilterFillsObject state what the driver's two write masks copy |
| CanRegs.ReadStaging | Firmware/mbed/libraries/mbed/targets/hal/TARGET_NXP/TARGET_LPC15XX/can_api.c:48-57 | the read direction, interface side; DriverLogic.ClearLeavesStaging and DriverLogic.ReadDecodesObject state what the clear and the read copy into IF2 |
| CanRegs.ReadClears | Firmware/mbed/libraries/mbed/targets/hal/TARGET_NXP/TARGET_LPC15XX/can_api.c:48-57 | the read direction, object side; DriverLogic.ReadsClearPending states that the driver's read masks clear exactly INTPND and NEWDAT |
| CanRegs.ClearPending | Firmware/mbed/libraries/mbed/targets/hal/TARGET_NXP/TARGET_LPC15XX/can_api.c:142-145 | after the clear request, INTPND and NEWDAT are clear, and every other bit and field of the object is unchanged |
| CanRegs.ClearPendingIdempotent | Firmware/mbed/libraries/mbed/targets/hal/TARGET_NXP/TARGET_LPC15XX/can_api.c:201-205 | clearing twice, as can_irq does when the class is disabled, leaves the same object as clearing once |
| CanRegs.ValidBits | Firmware/mbed/libraries/mbed/targets/hal/TARGET_NXP/TARGET_LPC15XX/can_api.c:158 | bit i of the glued CANMSGV word is MSGVAL of object i+1 |
| CanRegs.NewDataBits | Firmware/mbed/libraries/mbed/targets/hal/TARGET_NXP/TARGET_LPC15XX/can_api.c:522 | bit i of the glued CANND word is NEWDAT of object i+1 |
| CanRegs.TxPendingBits | Firmware/mbed/libraries/mbed/targets/hal/TARGET_NXP/TARGET_LPC15XX/can_api.c:455 | bit i of the glued CANTXREQ word is TXRQST of object i+1, except that the 0xFF mask drops objects 9..16 |
| CanRegs.ReceiveErrors | Firmware/mbed/libraries/mbed/targets/hal/TARGET_NXP/TARGET_LPC15XX/can_api.c:607-609 | can_rderror returns a 7-bit count, below 0x80 |
| CanRegs.TransmitErrors | Firmware/mbed/libraries/mbed/targets/hal/TARGET_NXP/TARGET_LPC15XX/can_api.c:611-613 | can_tderror returns the low byte of CANEC |
| CanRegs.ErrorCountersSplit | Firmware/mbed/libraries/mbed/targets/hal/TARGET_NXP/TARGET_LPC15XX/can_api.c:607-613 | the two counters put back together are CANEC without its error-passive flag, and that flag does not change the receive count |
| BitTiming.TimingPt | Firmware/mbed/libraries/mbed/targets/hal/TARGET_NXP/TARGET_LPC15XX/can_api.c:279-303 | each table row's TSEG1 + TSEG2 equals its index; the segments fit their 4-bit and 3-bit fields; TSEG1 is nonzero for every index above 0 |
| BitTiming.BitsFor | Firmware/mbed/libraries/mbed/targets/hal/TARGET_NXP/TARGET_LPC15XX/can_api.c:319-325 | the inner loop's segment count is at most the count it starts from; BitTiming.BitsForSpec states which count it is |
| BitTiming.BitsForSpec | Firmware/mbed/libraries/mbed/targets/hal/TARGET_NXP/TARGET_LPC15XX/can_api.c:319-325 | the inner loop's segment count hits the bit width, or is 0, and no larger count up to the start hits |
| BitTiming.SearchFrom | Firmware/mbed/libraries/mbed/targets/hal/TARGET_NXP/TARGET_LPC15XX/can_api.c:316-326 | a pair found has a prescaler above the start and at most bitwidth / 4, and a segment count in 1..22; BitTiming.SearchFromSpec states which pair it is |
| BitTiming.SearchFromSpec | Firmware/mbed/libraries/mbed/targets/hal/TARGET_NXP/TARGET_LPC15XX/can_api.c:316-326 | the search fails exactly when no (prescaler, segments) pair in range hits; otherwise its pair hits, no smaller prescaler hits with any count, and no larger count hits with the chosen prescaler |
| BitTiming.TrySegments | Firmware/mbed/libraries/mbed/targets/hal/TARGET_NXP/TARGET_LPC15XX/can_api.c:319-325 | the inner loop leaves the count BitsFor finds, and `hit` is set exactly when that count is nonzero |
| BitTiming.CanSpeed | Firmware/mbed/libraries/mbed/targets/hal/TARGET_NXP/TARGET_LPC15XX/can_api.c:305-341 | can_speed returns SpeedWord: 0 when the search fails, otherwise the table's split of the pair found, packed with SJW and the prescaler |
| BitTiming.SpeedWord | Firmware/mbed/libraries/mbed/targets/hal/TARGET_NXP/TARGET_LPC15XX/can_api.c:305-341 | the word can_speed returns; BitTiming.SpeedZeroIffUnsolvable, BitTiming.SpeedWordDecodes and BitTiming.SpeedWordBrp state what it holds |
| BitTiming.PackBtrDecodes | Firmware/mbed/libraries/mbed/targets/hal/TARGET_NXP/TARGET_LPC15XX/can_api.c:331-334 | for a prescaler below 64, the packed word's TSEG1, TSEG2, BRP and SJW fields give back what was packed |
| BitTiming.BrpField | Firmware/mbed/libraries/mbed/targets/hal/TARGET_NXP/TARGET_LPC15XX/can_api.c:334 | the packed word's BRP field is the prescaler's low six bits, whatever the prescaler |
| BitTiming.SpeedWordBrp | Firmware/mbed/libraries/mbed/targets/hal/TARGET_NXP/TARGET_LPC15XX/can_api.c:305-341 | when the search finds a pair, the BRP field of the word is its prescaler modulo 64 |
| BitTiming.SpeedZeroIffUnsolvable | Firmware/mbed/libraries/mbed/targets/hal/TARGET_NXP/TARGET_LPC15XX/can_api.c:314-338 | the result is 0 exactly when no prescaler from bitwidth/24+1 to bitwidth/4 and no segment count from 1 to 22 give the bit width |
| BitTiming.BtrTseg1Nonzero | Firmware/mbed/libraries/mbed/targets/hal/TARGET_NXP/TARGET_LPC15XX/can_api.c:330-334 | a packed word with a nonzero TSEG1 is nonzero, so a hit is never reported as 0 |
| BitTiming.SpeedWordFitsBt | Firmware/mbed/libraries/mbed/targets/hal/TARGET_NXP/TARGET_LPC15XX/can_api.c:328-335 | the word is below 0x10000: the clock divider field is always 0 |
| BitTiming.SpeedWordDecodes | Firmware/mbed/libraries/mbed/targets/hal/TARGET_NXP/TARGET_LPC15XX/can_api.c:305-341 | when the search hits with a prescaler below 64, the word is nonzero, below 0x10000, and (TSEG1 + TSEG2 + 3) * (BRP + 1) equals sclk / cclk |
| BitTiming.SpeedAt12MHz100k | Firmware/mbed/libraries/mbed/targets/hal/TARGET_NXP/TARGET_LPC15XX/can_api.c:305-341 | 12 MHz over 100 kbit/s gives the word 0x3947 |
| BitTiming.SpeedWordTruncatesPrescaler | Firmware/mbed/libraries/mbed/targets/hal/TARGET_NXP/TARGET_LPC15XX/can_api.c:331-334 | 72 MHz over 48 160 bit/s finds prescaler 64, but the word's BRP field is 0 and it describes a 23-clock bit instead of 1495 |
| BitTiming.SpeedLoopAsWritten | Firmware/mbed/libraries/mbed/targets/hal/TARGET_NXP/TARGET_LPC15XX/can_api.c:308-326 | the loop with a 16-bit prescaler; BitTiming.SpeedLoopAgreesBelowWrap, BitTiming.SpeedLoopNeverStops and BitTiming.WrapBandLoop state where it stops or that it does not |
| BitTiming.SpeedLoopAgreesBelowWrap | Firmware/mbed/libraries/mbed/targets/hal/TARGET_NXP/TARGET_LPC15XX/can_api.c:308-326 | below 4 * 0x10000 clocks per bit, the loop with a 16-bit prescaler stops with the pair that the unbounded search finds |
| BitTiming.NoSegmentsFit | Firmware/mbed/libraries/mbed/targets/hal/TARGET_NXP/TARGET_LPC15XX/can_api.c:319-325 | above 25 * 0x10000 clocks per bit, no 16-bit prescaler hits with any segment count |
| BitTiming.SpeedLoopNeverStops | Firmware/mbed/libraries/mbed/targets/hal/TARGET_NXP/TARGET_LPC15XX/can_api.c:308-326 | above 25 * 0x10000 clocks per bit, the loop as written is still running after any number of passes |
| BitTiming.SpeedHangsAt72MHz40Bps | Firmware/mbed/libraries/mbed/targets/hal/TARGET_NXP/TARGET_LPC15XX/can_api.c:314-326 | 72 MHz over 40 bit/s never leaves the loop as written |
| BitTiming.WrapBandLoop | Firmware/mbed/libraries/mbed/targets/hal/TARGET_NXP/TARGET_LPC15XX/can_api.c:308-326 | at 1 638 375 clocks per bit the prescaler starts wrapped at 2729 and the loop as written stops at prescaler 65534 with 22 segments |
| BitTiming.WrapBandLoopBrp | Firmware/mbed/libraries/mbed/targets/hal/TARGET_NXP/TARGET_LPC15XX/can_api.c:331-334 | that pair gives BRP field 62 |
| BitTiming.WrapBandSearch | Firmware/mbed/libraries/mbed/targets/hal/TARGET_NXP/TARGET_LPC15XX/can_api.c:316-326 | at the same bit width the search over the intended range finds prescaler 96374 with 14 segments |
| BitTiming.WrapBandSpeedBrp | Firmware/mbed/libraries/mbed/targets/hal/TARGET_NXP/TARGET_LPC15XX/can_api.c:305-341 | so the word CanSpeed returns there has BRP field 54 |
| BitTiming.WrappedLoopReaches | Firmware/mbed/libraries/mbed/targets/hal/TARGET_NXP/TARGET_LPC15XX/can_api.c:308-326 | from any prescaler below 65534 the loop as written at 1 638 375 clocks per bit runs on to prescaler 65534 and stops there |
| BitTiming.SearchReaches | Firmware/mbed/libraries/mbed/targets/hal/TARGET_NXP/TARGET_LPC15XX/can_api.c:316-326 | from any prescaler in 68265..96373 the search at 1 638 375 clocks per bit finds prescaler 96374 with 14 segments |
| BitTiming.NoSegmentsBelow | Firmware/mbed/libraries/mbed/targets/hal/TARGET_NXP/TARGET_LPC15XX/can_api.c:319-325 | no segment count hits while 25 * (brp + 1) is below the bit width |
| MsgCodec.BytesRoundTrip | Firmware/mbed/libraries/mbed/targets/hal/TARGET_NXP/TARGET_LPC15XX/can_api.c:493-496 | unpacking a data register gives back the two bytes packed into it, low byte first |
| MsgCodec.FilterStaging | Firmware/mbed/libraries/mbed/targets/hal/TARGET_NXP/TARGET_LPC15XX/can_api.c:169-183 | can_filter's staging leaves the data registers untouched, and a standard filter leaves ARB1 and MSK1 as they were; MsgCodec.FilterStoresIdAndMask states what it stores |
| MsgCodec.FilterStoresIdAndMask | Firmware/mbed/libraries/mbed/targets/hal/TARGET_NXP/TARGET_LPC15XX/can_api.c:169-183 | a staged filter is valid, has XTD exactly for the extended format, holds the identifier and mask cut to the format's width, and has control UMASK, EOB and length code 8 |
| MsgCodec.TxStaging | Firmware/mbed/libraries/mbed/targets/hal/TARGET_NXP/TARGET_LPC15XX/can_api.c:472-496 | can_write's staging; MsgCodec.TxStagingStoresFrame states what it stores |
| MsgCodec.TxStagingStoresFrame | Firmware/mbed/libraries/mbed/targets/hal/TARGET_NXP/TARGET_LPC15XX/can_api.c:472-496 | a staged frame is valid, requests transmission, has length code len & 0xF, XTD exactly for the extended format, DIR exactly for data frames, the identifier cut to its format's width, and its eight payload bytes packed two to a register in DA1, DA2, DB1 and DB2 |
| MsgCodec.RxDecode | Firmware/mbed/libraries/mbed/targets/hal/TARGET_NXP/TARGET_LPC15XX/can_api.c:545-569 | the decoded frame is extended exactly when XTD is set, remote exactly when DIR is set, and its length is below 16 |
| MsgCodec.ReadId | Firmware/mbed/libraries/mbed/targets/hal/TARGET_NXP/TARGET_LPC15XX/can_api.c:545-552 | the identifier can_read assembles; MsgCodec.ReadIdHalves and MsgCodec.RxDecodeStandardId state what it holds |
| MsgCodec.RxDecodeStandardId | Firmware/mbed/libraries/mbed/targets/hal/TARGET_NXP/TARGET_LPC15XX/can_api.c:550-552 | a standard object decodes to the identifier it holds, which fits in 11 bits |
| MsgCodec.RxDecodeExtendedId | Firmware/mbed/libraries/mbed/targets/hal/TARGET_NXP/TARGET_LPC15XX/can_api.c:545-548 | an extended object decodes to the identifier can_filter and can_write store there, with its halves exchanged (SwapHalves of StoredId), within 29 bits |
| MsgCodec.ReadIdHalves | Firmware/mbed/libraries/mbed/targets/hal/TARGET_NXP/TARGET_LPC15XX/can_api.c:546-547 | an extended identifier as can_read assembles it has ARB1's low 13 bits as its high half and ARB2's low 13 bits as its low half, and fits in 29 bits |
| MsgCodec.PayloadRoundTrip | Firmware/mbed/libraries/mbed/targets/hal/TARGET_NXP/TARGET_LPC15XX/can_api.c:561-569 | decoding a staged frame gives back its payload bytes and format, and its length cut to 4 bits |
| MsgCodec.StandardReadBack | Firmware/mbed/libraries/mbed/targets/hal/TARGET_NXP/TARGET_LPC15XX/can_api.c:550-558 | a standard frame decodes with its identifier cut to 11 bits and its type inverted |
| MsgCodec.ExtendedReadBack | Firmware/mbed/libraries/mbed/targets/hal/TARGET_NXP/TARGET_LPC15XX/can_api.c:545-548 | a 29-bit extended identifier decodes with its two halves exchanged, and the type inverted |
| MsgCodec.ExtendedIdNotRecovered | Firmware/mbed/libraries/mbed/targets/hal/TARGET_NXP/TARGET_LPC15XX/can_api.c:545-548 | the extended identifier 0x0001_0000 decodes as 1 |
| MsgCodec.ExtendedIdSpillsIntoDir | Firmware/mbed/libraries/mbed/targets/hal/TARGET_NXP/TARGET_LPC15XX/can_api.c:481 | an extended identifier with bit 29 set gets DIR set, whatever the frame type |
| IrqDecode.RaisedInOrder | Firmware/mbed/libraries/mbed/targets/hal/TARGET_NXP/TARGET_LPC15XX/can_api.c:216-232 | the status notifications are exactly the kinds whose flag is set, each once, in strictly increasing priority position |
| IrqDecode.StatusEvents | Firmware/mbed/libraries/mbed/targets/hal/TARGET_NXP/TARGET_LPC15XX/can_api.c:214-232 | a status change delivers at most five notifications: exactly the kinds whose status bit is set, in the order bus-off, warning, passive, received, transmitted |
| IrqDecode.StatusAfterIrqBits | Firmware/mbed/libraries/mbed/targets/hal/TARGET_NXP/TARGET_LPC15XX/can_api.c:225-231 | after a status change RXOK and TXOK are clear and every other CANSTAT bit is as it was |
| IrqDecode.IrqKinds | Firmware/mbed/libraries/mbed/targets/hal/TARGET_NXP/TARGET_LPC15XX/can_api.c:198-234 | identifiers 1..31 give one receive notification when receive interrupts are on; 32 gives one transmit notification when transmit interrupts are on; 0x8000 gives StatusEvents whatever the flags; any other identifier gives nothing |
| IrqDecode.StatusEventsUnfold | Firmware/mbed/libraries/mbed/targets/hal/TARGET_NXP/TARGET_LPC15XX/can_api.c:216-232 | the status notifications are the five guarded tests of can_irq, concatenated in source order |
| IrqDecode.TaggedStatusEvents | Firmware/mbed/libraries/mbed/targets/hal/TARGET_NXP/TARGET_LPC15XX/can_api.c:216-232 | the handler calls of a status change are the five guarded handler calls, one after the other |
| IrqDecode.BusOffThenWarning | Firmware/mbed/libraries/mbed/targets/hal/TARGET_NXP/TARGET_LPC15XX/can_api.c:216-221 | bus-off together with warning gives exactly [bus-off, warning] and leaves CANSTAT as it was |
| IrqDecode.StatusEventsAreStatusKinds | Firmware/mbed/libraries/mbed/targets/hal/TARGET_NXP/TARGET_LPC15XX/can_api.c:214-232 | every status notification is one of the five status kinds, and received or transmitted only with its status bit set |
| IrqDecode.QuietStatus | Firmware/mbed/libraries/mbed/targets/hal/TARGET_NXP/TARGET_LPC15XX/can_api.c:214-232 | a status word with none of the five bits set gives no notification and leaves CANSTAT unchanged |
| Controller.CanController.Transfer | Firmware/mbed/libraries/mbed/targets/hal/TARGET_NXP/TARGET_LPC15XX/can_api.c:48-57 | a write transfer copies the selected staging fields into the object, and TXRQST sets its transmit request; a read transfer copies the selected object fields into that interface and clears INTPND and NEWDAT when asked; nothing else changes |
| DriverLogic.ModeRegs | Firmware/mbed/libraries/mbed/targets/hal/TARGET_NXP/TARGET_LPC15XX/can_api.c:97-134 | can_mode refuses exactly global test mode; for every other mode the registers it leaves read back as that mode |
| DriverLogic.ModeIsObserved | Firmware/mbed/libraries/mbed/targets/hal/TARGET_NXP/TARGET_LPC15XX/can_api.c:99-126 | each supported mode leaves CANCNTL and CANTEST reading back as itself |
| DriverLogic.ModeKeepsOtherControlBits | Firmware/mbed/libraries/mbed/targets/hal/TARGET_NXP/TARGET_LPC15XX/can_api.c:100-126 | can_mode changes only TEST and INIT in CANCNTL, and the test modes do not touch INIT |
| DriverLogic.ModeKeepsOtherTestBits | Firmware/mbed/libraries/mbed/targets/hal/TARGET_NXP/TARGET_LPC15XX/can_api.c:100-126 | can_mode changes only SILENT and LBACK in CANTEST, and reset and normal do not touch CANTEST |
| DriverLogic.MonitorRegs | Firmware/mbed/libraries/mbed/targets/hal/TARGET_NXP/TARGET_LPC15XX/can_api.c:615-627 | after can_monitor INIT is set, TEST and SILENT both equal `silent`, and no other CANCNTL or CANTEST bit has changed |
| DriverLogic.MonitorStopsController | Firmware/mbed/libraries/mbed/targets/hal/TARGET_NXP/TARGET_LPC15XX/can_api.c:615-627 | can_monitor(0) leaves reset mode; can_monitor(1) leaves silent mode, or silent loopback when LBACK was already set |
| DriverLogic.InterruptCntlBits | Firmware/mbed/libraries/mbed/targets/hal/TARGET_NXP/TARGET_LPC15XX/can_api.c:262-270 | after can_irq_set INIT is clear, IE and SIE are set exactly when some class is enabled, and no other CANCNTL bit has changed |
| DriverLogic.FilterHandle | Firmware/mbed/libraries/mbed/targets/hal/TARGET_NXP/TARGET_LPC15XX/can_api.c:156-167 | a nonzero handle is kept; handle 0 becomes the lowest object whose valid bit is clear, or 0 exactly when all 32 are valid |
| DriverLogic.ReadHandle | Firmware/mbed/libraries/mbed/targets/hal/TARGET_NXP/TARGET_LPC15XX/can_api.c:520-530 | a nonzero handle is kept; handle 0 becomes the lowest object in 1..31 with new data, or 0 exactly when none has any |
| DriverLogic.TxSlot | Firmware/mbed/libraries/mbed/targets/hal/TARGET_NXP/TARGET_LPC15XX/can_api.c:453-467 | can_write picks object 32 when its pending bit is clear, and no object exactly when it is set |
| DriverLogic.TxStateOf | Firmware/mbed/libraries/mbed/targets/hal/TARGET_NXP/TARGET_LPC15XX/can_api.c:577-597 | can_tx_status is busy exactly when object 32 is pending, idle exactly when it is not, and never available |
| DriverLogic.WriteRefusedIffBusy | Firmware/mbed/libraries/mbed/targets/hal/TARGET_NXP/TARGET_LPC15XX/can_api.c:453-467 | can_write refuses a frame exactly when can_tx_status reports busy |
| DriverLogic.FilterFillsObject | Firmware/mbed/libraries/mbed/targets/hal/TARGET_NXP/TARGET_LPC15XX/can_api.c:169-192 | after the filter transfer the object is valid with the filter's format, identifier and mask, control UMASK, EOB and 8, no new data, no transmit request, and its data unchanged |
| DriverLogic.AutoSelectSkipsFilled | Firmware/mbed/libraries/mbed/targets/hal/TARGET_NXP/TARGET_LPC15XX/can_api.c:156-167 | an object that a filter has just made valid is not chosen by the next automatic selection |
| DriverLogic.RxTemplateClears | Firmware/mbed/libraries/mbed/targets/hal/TARGET_NXP/TARGET_LPC15XX/can_api.c:350-364 | each receive object gets arbitration and control cleared, so it is not valid, has no new data and no transmit request; its masks and data are unchanged |
| DriverLogic.TxTemplateLeavesInvalid | Firmware/mbed/libraries/mbed/targets/hal/TARGET_NXP/TARGET_LPC15XX/can_api.c:378-394 | the transmit object gets DIR but not MSGVAL, so it is left invalid, with no new data and no transmit request |
| DriverLogic.AutoSelectReachesTxObject | Firmware/mbed/libraries/mbed/targets/hal/TARGET_NXP/TARGET_LPC15XX/can_api.c:156-167 | with objects 1..31 valid and object 32 not, automatic filter selection returns 32 |
| DriverLogic.WriteArmsObject | Firmware/mbed/libraries/mbed/targets/hal/TARGET_NXP/TARGET_LPC15XX/can_api.c:478-505 | after the transmit transfer the object is valid and pending, with length code len & 0xF, the frame's format, its identifier cut to its format's width, and its payload bytes packed two to a register in DA1, DA2, DB1 and DB2 |
| DriverLogic.ReadsClearPending | Firmware/mbed/libraries/mbed/targets/hal/TARGET_NXP/TARGET_LPC15XX/can_api.c:537 | the can_read transfer and the interrupt clear both clear exactly INTPND and NEWDAT of the object |
| DriverLogic.ClearLeavesStaging | Firmware/mbed/libraries/mbed/targets/hal/TARGET_NXP/TARGET_LPC15XX/can_api.c:142 | the interrupt clear copies no field into IF2 |
| DriverLogic.ReadDecodesObject | Firmware/mbed/libraries/mbed/targets/hal/TARGET_NXP/TARGET_LPC15XX/can_api.c:537-569 | can_read decodes the object it has read, whatever IF2 held before |
| DriverLogic.TxWriteCopiesAll | Firmware/mbed/libraries/mbed/targets/hal/TARGET_NXP/TARGET_LPC15XX/can_api.c:499 | can_write's command mask copies every staging field into the object and sets TXRQST |
| DriverLogic.WriteThenRead | Firmware/mbed/libraries/mbed/targets/hal/TARGET_NXP/TARGET_LPC15XX/can_api.c:478-569 | a frame written to an object and read back keeps its payload and format, and its length cut to 4 bits; a standard identifier comes back cut to 11 bits, with the type inverted |
| CanApi.CanDriver.constructor | Firmware/mbed/libraries/mbed/targets/hal/TARGET_NXP/TARGET_LPC15XX/can_api.c:81-85 | the driver starts with identifier 0, both interrupt classes off and no handler call |
| CanApi.CanDriver.Disable | Firmware/mbed/libraries/mbed/targets/hal/TARGET_NXP/TARGET_LPC15XX/can_api.c:87-89 | sets INIT; nothing else changes |
| CanApi.CanDriver.Enable | Firmware/mbed/libraries/mbed/targets/hal/TARGET_NXP/TARGET_LPC15XX/can_api.c:91-95 | clears INIT; nothing else changes |
| CanApi.CanDriver.Mode | Firmware/mbed/libraries/mbed/targets/hal/TARGET_NXP/TARGET_LPC15XX/can_api.c:97-134 | reports success exactly for a mode other than global test; on success CANCNTL and CANTEST become ModeCntl and ModeTest of the mode; on refusal no register changes |
| CanApi.CanDriver.EnterReset | Firmware/mbed/libraries/mbed/targets/hal/TARGET_NXP/TARGET_LPC15XX/can_api.c:100-104 | clears TEST and sets INIT; nothing else changes |
| CanApi.CanDriver.EnterNormal | Firmware/mbed/libraries/mbed/targets/hal/TARGET_NXP/TARGET_LPC15XX/can_api.c:105-109 | clears TEST and INIT; nothing else changes |
| CanApi.CanDriver.EnterTestMode | Firmware/mbed/libraries/mbed/targets/hal/TARGET_NXP/TARGET_LPC15XX/can_api.c:110-126 | sets TEST, and sets SILENT and LBACK to (1,0), (0,1) or (1,1) according to the mode |
| CanApi.CanDriver.Monitor | Firmware/mbed/libraries/mbed/targets/hal/TARGET_NXP/TARGET_LPC15XX/can_api.c:615-627 | CANCNTL and CANTEST become MonitorRegs; nothing else changes |
| CanApi.CanDriver.ClearInterrupt | Firmware/mbed/libraries/mbed/targets/hal/TARGET_NXP/TARGET_LPC15XX/can_api.c:136-150 | for a handle in 1..32, that object's INTPND and NEWDAT are cleared; any other handle changes nothing; registers and staging are unchanged |
| CanApi.CanDriver.Filter | Firmware/mbed/libraries/mbed/targets/hal/TARGET_NXP/TARGET_LPC15XX/can_api.c:153-196 | returns FilterHandle; for a result in 1..32, IF1 holds the staged filter and only that object is rewritten; otherwise IF1 and the RAM are unchanged |
| CanApi.CanDriver.FilterObject | Firmware/mbed/libraries/mbed/targets/hal/TARGET_NXP/TARGET_LPC15XX/can_api.c:156-167 | the selection loop computes FilterHandle over the valid bits |
| CanApi.CanDriver.ConfigRxMsgObj | Firmware/mbed/libraries/mbed/targets/hal/TARGET_NXP/TARGET_LPC15XX/can_api.c:344-370 | returns 1; objects 2..31 get the cleared receive template; object 1 gets the template and then the accept-all standard filter; object 32 is unchanged |
| CanApi.CanDriver.ConfigureRxObjects | Firmware/mbed/libraries/mbed/targets/hal/TARGET_NXP/TARGET_LPC15XX/can_api.c:355-364 | the loop writes IF1 into objects 1..31 and leaves object 32 and the registers unchanged |
| CanApi.CanDriver.ConfigTxMsgObj | Firmware/mbed/libraries/mbed/targets/hal/TARGET_NXP/TARGET_LPC15XX/can_api.c:372-397 | returns 1; IF1 holds the transmit template, and only object 32 is rewritten with it |
| CanApi.CanDriver.Write | Firmware/mbed/libraries/mbed/targets/hal/TARGET_NXP/TARGET_LPC15XX/can_api.c:448-512 | enables the controller; succeeds exactly when object 32 has no pending transmit request; on success IF1 holds the staged frame, object 32 receives it with TXRQST and TXOK is cleared; on refusal nothing else changes |
| CanApi.CanDriver.TxObject | Firmware/mbed/libraries/mbed/targets/hal/TARGET_NXP/TARGET_LPC15XX/can_api.c:453-462 | the selection loop computes TxSlot over the pending bits |
| CanApi.CanDriver.Read | Firmware/mbed/libraries/mbed/targets/hal/TARGET_NXP/TARGET_LPC15XX/can_api.c:514-575 | enables the controller; returns a frame exactly when the selected handle is in 1..32; that frame is the decoded object, whose INTPND and NEWDAT are cleared, with RXOK cleared; otherwise nothing else changes |
| CanApi.CanDriver.ReadObject | Firmware/mbed/libraries/mbed/targets/hal/TARGET_NXP/TARGET_LPC15XX/can_api.c:520-530 | the selection loop computes ReadHandle over the new-data bits |
| CanApi.CanDriver.Receive | Firmware/mbed/libraries/mbed/targets/hal/TARGET_NXP/TARGET_LPC15XX/can_api.c:532-571 | reads the object into IF2, clears its INTPND and NEWDAT, returns its decoded frame and clears RXOK |
| CanApi.CanDriver.TxStatus | Firmware/mbed/libraries/mbed/targets/hal/TARGET_NXP/TARGET_LPC15XX/can_api.c:577-597 | the counting code computes TxStateOf over the pending bits |
| CanApi.CanDriver.Irq | Firmware/mbed/libraries/mbed/targets/hal/TARGET_NXP/TARGET_LPC15XX/can_api.c:198-234 | the handler log grows by IrqKinds tagged with the identifier; identifiers 1..32 clear that object's INTPND and NEWDAT; 0x8000 leaves CANSTAT as StatusAfterIrq; nothing else changes |
| CanApi.CanDriver.ObjectIrq | Firmware/mbed/libraries/mbed/targets/hal/TARGET_NXP/TARGET_LPC15XX/can_api.c:200-213 | clears the object's INTPND and NEWDAT, and logs one notification exactly when its class is enabled |
| CanApi.CanDriver.StatusIrq | Firmware/mbed/libraries/mbed/targets/hal/TARGET_NXP/TARGET_LPC15XX/can_api.c:214-232 | logs StatusEvents of the status word read and leaves CANSTAT as StatusAfterIrq |
| CanApi.CanDriver.NotifyIf | Firmware/mbed/libraries/mbed/targets/hal/TARGET_NXP/TARGET_LPC15XX/can_api.c:216-224 | a guarded handler call logs one event when its condition holds and none otherwise |
| CanApi.CanDriver.AcknowledgeIf | Firmware/mbed/libraries/mbed/targets/hal/TARGET_NXP/TARGET_LPC15XX/can_api.c:225-232 | a guarded acknowledge clears its status bit and logs one event when its condition holds; otherwise it does nothing |
| CanApi.CanDriver.IrqInit | Firmware/mbed/libraries/mbed/targets/hal/TARGET_NXP/TARGET_LPC15XX/can_api.c:237-240 | records the identifier; nothing else changes |
| CanApi.CanDriver.IrqFree | Firmware/mbed/libraries/mbed/targets/hal/TARGET_NXP/TARGET_LPC15XX/can_api.c:243-247 | clears IE and sets the identifier to 0; nothing else changes |
| CanApi.CanDriver.IrqSet | Firmware/mbed/libraries/mbed/targets/hal/TARGET_NXP/TARGET_LPC15XX/can_api.c:250-275 | for receive or transmit, sets that class's flag and leaves CANCNTL as InterruptCntl; any other kind changes nothing |
| CanApi.CanDriver.SetInterruptEnables | Firmware/mbed/libraries/mbed/targets/hal/TARGET_NXP/TARGET_LPC15XX/can_api.c:262-270 | sets INIT, then sets or clears IE and SIE, then clears INIT again; the result is InterruptCntl |
| CanApi.CanDriver.Frequency | Firmware/mbed/libraries/mbed/targets/hal/TARGET_NXP/TARGET_LPC15XX/can_api.c:431-446 | succeeds exactly when the speed word is nonzero; on success it writes CANCLKDIV 0, CANBT the word and CANBRPE 0, and leaves CCE and INIT clear; on failure no register changes |
| CanApi.CanDriver.RdError | Firmware/mbed/libraries/mbed/targets/hal/TARGET_NXP/TARGET_LPC15XX/can_api.c:607-609 | can_rderror is below 0x80, and together with can_tderror it makes up CANEC without its error-passive flag |
| CanApi.CanDriver.TdError | Firmware/mbed/libraries/mbed/targets/hal/TARGET_NXP/TARGET_LPC15XX/can_api.c:611-613 | can_tderror is the low byte of CANEC |

## Left out

- `can_init`, `can_free` and `can_reset`: clock and reset gating through SYSCON and pin routing through the switch matrix are board-level collaborators. The calls those functions make to other driver operations are modelled.
- NVIC calls (`NVIC_SetVector`, `NVIC_EnableIRQ`, `NVIC_DisableIRQ`): interrupt-controller set-up, outside the driver's logic.
- The registered `irq_handler` function pointer: each call it would receive is appended to a ghost log instead, and what the handler does is not modelled.
- The busy-wait loops on CMDREQ BUSY and on INIT: each transfer is one atomic step, so waiting for the hardware is not modelled.
- Hardware-side behaviour: frame reception and transmission, acceptance filtering, the hardware setting NEWDAT, INTPND, TXRQST, CANINT and CANSTAT, and error-counter evolution. These are the state the driver reads, taken as given.
- Preemption of a driver call by `can_irq`, and the sharing of IF2 that this brings: the model is sequential.
- `SystemCoreClock` is a parameter of `CanApi.CanDriver.Frequency`.
- `CanApi.CanDriver.Frequency` requires a nonzero frequency, because `sclk / cclk` by zero is undefined in C.
- `CanApi.CanDriver.Monitor` takes `silent` as a boolean, because the source only tests whether it is nonzero.
- `CanApi.CanDriver.Write` has no `cc` argument, because the source never reads it.
- The C expression `1 << i` at i = 31 is a signed overflow. The bit scans read bit i as a plain unsigned bit test.
- `BitTiming.CanSpeed` and `CanApi.CanDriver.Frequency`, which states its result through the same `SpeedWord`, hold the prescaler in an unbounded integer rather than a `uint16_t`. So where the source's `can_frequency` hangs or programs a different word (at a 72 MHz clock, below about 275 bit/s), `Frequency` follows the intended search instead: it fails where that search finds no pair, and otherwise programs the word of the pair found. `BitTiming.SpeedLoopAsWritten` models the 16-bit loop, and the two are compared only below 4 * 0x10000 clocks per bit, above 25 * 0x10000, and at the single bit width 1 638 375 in between (see Findings).
- `DriverLogic.WriteThenRead` states the identifier and type only for standard frames. For extended frames the identifier does not come back, and `MsgCodec.ExtendedReadBack` states what comes back instead.
- `MsgCodec.TxStagingStoresFrame` and `DriverLogic.WriteArmsObject` state the stored identifier only for an extended identifier of at most 29 bits. A wider identifier spills into the flag bits (`MsgCodec.ExtendedIdSpillsIntoDir`).
- `DriverLogic.CanMode` has exactly the six modes of the mbed interface, so a mode value outside them is not representable. The source's `default:` branch of `can_mode` (return 0, no register written) is reached in the model only through `ModeTestGlobal`, which takes the same branch.

## Findings

| source | as written | input that shows it | evidently intended | confidence | as-written member | corrected member |
|---|---|---|---|---|---|---|
| Firmware/mbed/libraries/mbed/targets/hal/TARGET_NXP/TARGET_LPC15XX/can_api.c:308-326 | `brp` is a `uint16_t`, so `brp++` wraps at 0x10000. Once `bitwidth / 4` exceeds 0xFFFF, the guard `brp < bitwidth / 4` never fails, and when no pair hits the loop never ends | `can_frequency(obj, 40)` with a 72 MHz `SystemCoreClock`: bit width 1 800 000, above 25 * 0x10000, so no 16-bit prescaler can hit | the search ends, and returns 0 when no pair in range gives the bit width | not executed; high | BitTiming.SpeedHangsAt72MHz40Bps | BitTiming.CanSpeed |
| Firmware/mbed/libraries/mbed/targets/hal/TARGET_NXP/TARGET_LPC15XX/can_api.c:308-326 | between 4 * 0x10000 and 25 * 0x10000 clocks per bit, `brp = bitwidth / 0x18` and `brp++` keep only the low 16 bits of the prescaler, so the loop can try prescalers below bitwidth / 24 and stop at a pair the intended search never reaches | `can_speed(1638375, 1, 1)`: the loop starts at prescaler 2729 and stops at 65534 with 22 segments (BRP field 62), while the search from 68265 finds 96374 with 14 segments (BRP field 54) | the search starts at bitwidth / 24 and takes the first pair above it | not executed; high | BitTiming.WrapBandLoop | BitTiming.WrapBandSearch |
