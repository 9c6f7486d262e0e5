/** The LPC15xx mbed CAN driver (can_api.c) over the controller model. The
    driver's file-scope interrupt state (can_irq_id, rx_interrupts,
    tx_interrupts) lives in a CanDriver object next to the controller it
    drives; the registered handler is replaced by a log of the calls it
    would receive. Each operation states its effect on the controller
    through the functions of DriverLogic, MsgCodec, IrqDecode and BitTiming,
    where its properties are proved. */
module CanApi {
  import opened Wrappers
  import opened CanRegs
  import opened Bitmap
  import opened BitTiming
  import opened MsgCodec
  import opened IrqDecode
  import opened Controller
  import opened DriverLogic

  class CanDriver {
    const hw: CanController
    var irqId: bv32                  // can_irq_id
    var rxInterrupts: bv32           // rx_interrupts
    var txInterrupts: bv32           // tx_interrupts
    ghost var events: seq<IrqEvent>  // calls of irq_handler, oldest first

    ghost predicate Valid()
    {
      hw.Valid()
    }

    /** The driver's static state as the program starts: no identifier, both
        interrupt classes off, no handler call yet. */
    constructor (controller: CanController)
      requires controller.Valid()
      ensures Valid() && hw == controller
      ensures irqId == 0 && rxInterrupts == 0 && txInterrupts == 0 && events == []
    {
      hw := controller;
      irqId, rxInterrupts, txInterrupts := 0, 0, 0;
      events := [];
    }

    /** can_disable (can_api.c:87-89): set INIT. */
    method Disable()
      modifies hw
      ensures hw.regs == old(hw.regs).(cntl := Disabled(old(hw.regs.cntl)))
      ensures hw.if1 == old(hw.if1) && hw.if2 == old(hw.if2)
    {
      hw.regs := hw.regs.(cntl := hw.regs.cntl | CNTL_INIT);
    }

    /** can_enable (can_api.c:91-95): clear INIT when it is set. */
    method Enable()
      modifies hw
      ensures hw.regs == old(hw.regs).(cntl := Enabled(old(hw.regs.cntl)))
      ensures hw.if1 == old(hw.if1) && hw.if2 == old(hw.if2)
    {
      if hw.regs.cntl & CNTL_INIT != 0 {
        hw.regs := hw.regs.(cntl := hw.regs.cntl & !CNTL_INIT);
      }
    }

    /** can_mode (can_api.c:97-134): a supported mode is established and
        reported; global test mode is refused and changes nothing. */
    method Mode(mode: CanMode) returns (success: bool)
      modifies hw
      ensures success <==> mode != ModeTestGlobal
      ensures success ==>
        hw.regs == old(hw.regs).(cntl := ModeCntl(mode, old(hw.regs.cntl)), test := ModeTest(mode, old(hw.regs.test)))
      ensures !success ==> hw.regs == old(hw.regs)
      ensures hw.if1 == old(hw.if1) && hw.if2 == old(hw.if2)
    {
      match mode {
      case ModeTestGlobal =>
        success := false;
      case ModeReset =>
        EnterReset();
        success := true;
      case ModeNormal =>
        EnterNormal();
        success := true;
      case _ =>
        EnterTestMode(mode);
        success := true;
      }
    }

    /** Reset mode (can_api.c:100-104): clear TEST in CANCNTL, then disable. */
    method EnterReset()
      modifies hw
      ensures hw.regs == old(hw.regs).(cntl := ModeCntl(ModeReset, old(hw.regs.cntl)))
      ensures hw.if1 == old(hw.if1) && hw.if2 == old(hw.if2)
    {
      hw.regs := hw.regs.(cntl := hw.regs.cntl & !CNTL_TEST);
      Disable();
    }

    /** Normal mode (can_api.c:105-109): clear TEST in CANCNTL, then enable. */
    method EnterNormal()
      modifies hw
      ensures hw.regs == old(hw.regs).(cntl := ModeCntl(ModeNormal, old(hw.regs.cntl)))
      ensures hw.if1 == old(hw.if1) && hw.if2 == old(hw.if2)
    {
      hw.regs := hw.regs.(cntl := hw.regs.cntl & !CNTL_TEST);
      Enable();
    }

    /** The three test modes of can_mode (can_api.c:110-126): set TEST in
        CANCNTL, then SILENT and LBACK as the mode asks. */
    method EnterTestMode(mode: CanMode)
      requires mode == ModeSilent || mode == ModeTestLocal || mode == ModeTestSilent
      modifies hw
      ensures hw.regs == old(hw.regs).(cntl := ModeCntl(mode, old(hw.regs.cntl)), test := ModeTest(mode, old(hw.regs.test)))
      ensures hw.if1 == old(hw.if1) && hw.if2 == old(hw.if2)
    {
      hw.regs := hw.regs.(cntl := hw.regs.cntl | CNTL_TEST);
      if mode == ModeSilent {
        hw.regs := hw.regs.(test := hw.regs.test | TEST_SILENT);
        hw.regs := hw.regs.(test := hw.regs.test & !TEST_LBACK);
      } else if mode == ModeTestLocal {
        hw.regs := hw.regs.(test := hw.regs.test & !TEST_SILENT);
        hw.regs := hw.regs.(test := hw.regs.test | TEST_LBACK);
      } else {
        hw.regs := hw.regs.(test := hw.regs.test | (TEST_LBACK | TEST_SILENT));
      }
    }

    /** can_monitor (can_api.c:615-627). */
    method Monitor(silent: bool)
      modifies hw
      ensures var r := MonitorRegs(silent, old(hw.regs.cntl), old(hw.regs.test));
        hw.regs == old(hw.regs).(cntl := r.0, test := r.1)
      ensures hw.if1 == old(hw.if1) && hw.if2 == old(hw.if2)
    {
      if silent {
        hw.regs := hw.regs.(cntl := hw.regs.cntl | CNTL_TEST);
        hw.regs := hw.regs.(test := hw.regs.test | TEST_SILENT);
      } else {
        hw.regs := hw.regs.(cntl := hw.regs.cntl & !CNTL_TEST);
        hw.regs := hw.regs.(test := hw.regs.test & !TEST_SILENT);
      }
      if hw.regs.cntl & CNTL_INIT == 0 {
        hw.regs := hw.regs.(cntl := hw.regs.cntl | CNTL_INIT);
      }
    }

    /** can_clear_interrupt (can_api.c:136-150): for an object number
        1..32, clear its INTPND and NEWDAT through IF2; otherwise nothing. */
    method ClearInterrupt(handle: int)
      requires Valid()
      modifies hw, hw.ram
      ensures 0 < handle <= SLOTS ==>
        hw.ram[..] == old(hw.ram[..])[handle - 1 := ClearPending(old(hw.ram[handle - 1]))]
      ensures !(0 < handle <= SLOTS) ==> hw.ram[..] == old(hw.ram[..])
      ensures hw.regs == old(hw.regs) && hw.if1 == old(hw.if1) && hw.if2 == old(hw.if2)
    {
      if 0 < handle <= SLOTS {
        ReadsClearPending(hw.ram[handle - 1]);
        ClearLeavesStaging(hw.ram[handle - 1], hw.if2);
        hw.Transfer(If2, CLEAR_CMD, handle);
      }
    }

    /** can_filter (can_api.c:153-196): pick the object (FilterHandle), then
        stage the filter in IF1 and write mask, arbitration and control into
        the object. The object number is returned; outside 1..32 nothing is
        written. */
    method Filter(id: bv32, mask: bv32, format: CanFormat, handle: int) returns (h: int)
      requires Valid()
      modifies hw, hw.ram
      ensures h == FilterHandle(handle, ValidBits(old(hw.ram[..])))
      ensures 1 <= h <= SLOTS ==>
        hw.if1 == FilterStaging(id, mask, format, old(hw.if1))
        && hw.ram[..] == old(hw.ram[..])[h - 1 := WriteObject(FILTER_CMD, hw.if1, old(hw.ram[h - 1]))]
      ensures !(1 <= h <= SLOTS) ==> hw.if1 == old(hw.if1) && hw.ram[..] == old(hw.ram[..])
      ensures hw.regs == old(hw.regs) && hw.if2 == old(hw.if2)
    {
      h := FilterObject(handle);
      if 0 < h <= SLOTS {
        hw.if1 := FilterStaging(id, mask, format, hw.if1);
        hw.Transfer(If1, FILTER_CMD, h);
      }
    }

    /** The object can_filter programs (can_api.c:156-167): the handle
        given, or for handle 0 the lowest object not yet valid. */
    method FilterObject(handle: int) returns (h: int)
      requires Valid()
      ensures h == FilterHandle(handle, ValidBits(hw.ram[..]))
    {
      h := handle;
      if h == 0 {
        var msgval := ValidBits(hw.ram[..]);
        var i := ScanFirst(msgval, 0, SLOTS, false);
        if i < SLOTS {
          h := i + 1;
        }
      }
    }

    /** can_config_rxmsgobj (can_api.c:344-370): objects 1..31 get cleared
        arbitration and control (so none is valid), then object 1 gets the
        accept-all standard filter. Object 32 is not touched. */
    method ConfigRxMsgObj() returns (r: int)
      requires Valid()
      modifies hw, hw.ram
      ensures r == 1
      ensures hw.if1 == FilterStaging(0, 0, Standard, RxTemplate(old(hw.if1)))
      ensures hw.ram[0] == WriteObject(FILTER_CMD, hw.if1, WriteObject(CONFIG_CMD, RxTemplate(old(hw.if1)), old(hw.ram[0])))
      ensures forall j :: 1 <= j < RX_SLOTS ==> hw.ram[j] == WriteObject(CONFIG_CMD, RxTemplate(old(hw.if1)), old(hw.ram[j]))
      ensures hw.ram[RX_SLOTS] == old(hw.ram[RX_SLOTS])
      ensures hw.regs == old(hw.regs) && hw.if2 == old(hw.if2)
    {
      hw.if1 := RxTemplate(hw.if1);
      ConfigureRxObjects();
      var _ := Filter(0, 0, Standard, 1);
      r := 1;
    }

    /** The loop of can_config_rxmsgobj: IF1's staging registers go, under
        CONFIG_CMD, into objects 1..31 in turn. */
    method ConfigureRxObjects()
      requires Valid()
      modifies hw, hw.ram
      ensures forall j :: 0 <= j < RX_SLOTS ==> hw.ram[j] == WriteObject(CONFIG_CMD, hw.if1, old(hw.ram[j]))
      ensures hw.ram[RX_SLOTS] == old(hw.ram[RX_SLOTS])
      ensures hw.regs == old(hw.regs) && hw.if1 == old(hw.if1) && hw.if2 == old(hw.if2)
    {
      var i := 1;
      while i <= RX_SLOTS
        invariant 1 <= i <= RX_SLOTS + 1
        invariant hw.regs == old(hw.regs) && hw.if1 == old(hw.if1) && hw.if2 == old(hw.if2)
        invariant forall j :: 0 <= j < SLOTS ==>
          hw.ram[j] == if j < i - 1 then WriteObject(CONFIG_CMD, hw.if1, old(hw.ram[j])) else old(hw.ram[j])
        decreases RX_SLOTS + 1 - i
      {
        hw.Transfer(If1, CONFIG_CMD, i);
        i := i + 1;
      }
    }

    /** can_config_txmsgobj (can_api.c:372-397): object 32 gets direction
        "transmit" and cleared control; MSGVAL is not set. */
    method ConfigTxMsgObj() returns (r: int)
      requires Valid()
      modifies hw, hw.ram
      ensures r == 1
      ensures hw.if1 == TxTemplate(old(hw.if1))
      ensures hw.ram[..] == old(hw.ram[..])[RX_SLOTS := WriteObject(CONFIG_CMD, hw.if1, old(hw.ram[RX_SLOTS]))]
      ensures hw.regs == old(hw.regs) && hw.if2 == old(hw.if2)
    {
      hw.if1 := TxTemplate(hw.if1);
      var i := RX_SLOTS + 1;
      while i <= TX_OBJ_COUNT + RX_SLOTS
        invariant RX_SLOTS + 1 <= i <= SLOTS + 1
        invariant hw.if1 == TxTemplate(old(hw.if1))
        invariant hw.regs == old(hw.regs) && hw.if2 == old(hw.if2)
        invariant hw.ram[..] == if i == SLOTS then old(hw.ram[..])
          else old(hw.ram[..])[RX_SLOTS := WriteObject(CONFIG_CMD, hw.if1, old(hw.ram[RX_SLOTS]))]
        decreases SLOTS + 1 - i
      {
        hw.Transfer(If1, CONFIG_CMD, i);
        i := i + 1;
      }
      r := 1;
    }

    /** can_write (can_api.c:448-512): enable the controller; if object 32
        is still pending, refuse; otherwise stage the frame in IF1, write
        all of it into object 32 with a transmit request, and clear TXOK. */
    method Write(msg: CanMessage) returns (ok: bool)
      requires Valid()
      modifies hw, hw.ram
      ensures ok <==> TxSlot(TxPendingBits(old(hw.ram[..]))) != 0
      ensures ok <==> !TxRequested(old(hw.ram[RX_SLOTS]))
      ensures ok ==>
        hw.if1 == TxStaging(msg, old(hw.if1))
        && hw.ram[..] == old(hw.ram[..])[RX_SLOTS := WriteObject(TX_CMD, hw.if1, old(hw.ram[RX_SLOTS]))]
        && hw.regs == old(hw.regs).(cntl := Enabled(old(hw.regs.cntl)), stat := old(hw.regs.stat) & !STAT_TXOK)
      ensures !ok ==>
        hw.if1 == old(hw.if1) && hw.ram[..] == old(hw.ram[..])
        && hw.regs == old(hw.regs).(cntl := Enabled(old(hw.regs.cntl)))
      ensures hw.if2 == old(hw.if2)
    {
      Enable();
      var msgnum := TxObject();
      if msgnum == 0 {
        return false;
      }
      hw.if1 := TxStaging(msg, hw.if1);
      hw.Transfer(If1, TX_CMD, msgnum);
      hw.regs := hw.regs.(stat := hw.regs.stat & !STAT_TXOK);
      ok := true;
    }

    /** The object can_write fills (can_api.c:453-462): the first transmit
        object without a pending request, 0 when there is none. */
    method TxObject() returns (msgnum: int)
      requires Valid()
      ensures msgnum == TxSlot(TxPendingBits(hw.ram[..]))
    {
      var pending := TxPendingBits(hw.ram[..]);
      var i := ScanFirst(pending, RX_SLOTS, SLOTS, false);
      msgnum := if i < SLOTS then i + 1 else 0;
    }

    /** can_read (can_api.c:514-575): enable the controller, pick the
        object (ReadHandle); for an object 1..32 read all of it into IF2,
        clearing its INTPND and NEWDAT, decode the frame and clear RXOK;
        otherwise report nothing. */
    method Read(handle: int) returns (msg: Option<CanMessage>)
      requires Valid()
      modifies hw, hw.ram
      ensures var h := ReadHandle(handle, NewDataBits(old(hw.ram[..])));
        msg.Some? <==> 1 <= h <= SLOTS
      ensures var ram, h := old(hw.ram[..]), ReadHandle(handle, NewDataBits(old(hw.ram[..])));
        msg.Some? ==>
          msg.value == RxDecode(ram[h - 1])
          && hw.if2 == ReadStaging(RX_CMD, ram[h - 1], old(hw.if2))
          && hw.ram[..] == ram[h - 1 := ClearPending(ram[h - 1])]
          && hw.regs == old(hw.regs).(cntl := Enabled(old(hw.regs.cntl)), stat := old(hw.regs.stat) & !STAT_RXOK)
      ensures msg.None? ==>
        hw.if2 == old(hw.if2) && hw.ram[..] == old(hw.ram[..])
        && hw.regs == old(hw.regs).(cntl := Enabled(old(hw.regs.cntl)))
      ensures hw.if1 == old(hw.if1)
    {
      Enable();
      var h := ReadObject(handle);
      if 0 < h <= SLOTS {
        var m := Receive(h);
        msg := Some(m);
      } else {
        msg := None;
      }
    }

    /** The object can_read reads (can_api.c:520-530): the handle given, or
        for handle 0 the lowest receive object with new data. */
    method ReadObject(handle: int) returns (h: int)
      requires Valid()
      ensures h == ReadHandle(handle, NewDataBits(hw.ram[..]))
    {
      h := handle;
      if h == 0 {
        var newdata := NewDataBits(hw.ram[..]);
        var i := ScanFirst(newdata, 0, RX_SLOTS, true);
        if i < RX_SLOTS {
          h := i + 1;
        }
      }
    }

    /** The transfer half of can_read (can_api.c:538-571): read all of
        object `h` into IF2, clearing its INTPND and NEWDAT, decode the frame
        and clear RXOK. */
    method Receive(h: int) returns (msg: CanMessage)
      requires Valid() && 0 < h <= SLOTS
      modifies hw, hw.ram
      ensures msg == RxDecode(old(hw.ram[h - 1]))
      ensures hw.if2 == ReadStaging(RX_CMD, old(hw.ram[h - 1]), old(hw.if2)) && hw.if1 == old(hw.if1)
      ensures hw.ram[..] == old(hw.ram[..])[h - 1 := ClearPending(old(hw.ram[h - 1]))]
      ensures hw.regs == old(hw.regs).(stat := old(hw.regs.stat) & !STAT_RXOK)
    {
      ReadsClearPending(hw.ram[h - 1]);
      ReadDecodesObject(hw.ram[h - 1], hw.if2);
      hw.Transfer(If2, RX_CMD, h);
      msg := RxDecode(hw.if2);
      hw.regs := hw.regs.(stat := hw.regs.stat & !STAT_RXOK);
    }

    /** can_tx_status (can_api.c:577-597). */
    method TxStatus() returns (s: CanTxState)
      requires Valid()
      ensures s == TxStateOf(TxPendingBits(hw.ram[..]))
    {
      var pending := TxPendingBits(hw.ram[..]);
      var count := 0;
      if true in pending {
        count := CountSet(pending, RX_SLOTS, SLOTS);
      }
      if count == 0 {
        s := TxIdle;
      } else if count == TX_OBJ_COUNT {
        s := TxBusy;
      } else {
        s := TxAvailable;
      }
    }

    /** can_irq (can_api.c:198-234): the handler calls are IrqKinds for the
        interrupt identifier, the status word and the enable flags; a
        message-object interrupt clears that object's INTPND and NEWDAT, a
        status change clears RXOK and TXOK. */
    method Irq()
      requires Valid()
      modifies this, hw, hw.ram
      ensures events == old(events)
        + Tagged(irqId, IrqKinds(old(hw.regs.canint), old(hw.regs.stat), rxInterrupts != 0, txInterrupts != 0))
      ensures 1 <= old(hw.regs.canint) <= 32 ==>
        var n := old(hw.regs.canint) as int;
        hw.ram[..] == old(hw.ram[..])[n - 1 := ClearPending(old(hw.ram[n - 1]))]
      ensures !(1 <= old(hw.regs.canint) <= 32) ==> hw.ram[..] == old(hw.ram[..])
      ensures hw.regs == old(hw.regs).(
        stat := if old(hw.regs.canint) == STATUS_INTID then StatusAfterIrq(old(hw.regs.stat)) else old(hw.regs.stat))
      ensures hw.if1 == old(hw.if1) && hw.if2 == old(hw.if2)
      ensures irqId == old(irqId) && rxInterrupts == old(rxInterrupts) && txInterrupts == old(txInterrupts)
    {
      var intid := hw.regs.canint;
      if IsRxObjectId(intid) {
        ObjectIrq(intid as int, rxInterrupts != 0, IrqRx);
      } else if IsTxObjectId(intid) {
        ObjectIrq(intid as int, txInterrupts != 0, IrqTx);
      } else if intid == STATUS_INTID {
        StatusIrq();
      }
    }

    /** A message-object interrupt (can_api.c:200-213): clear the object's
        INTPND and NEWDAT, then notify when its class is enabled, and
        otherwise clear them once more. */
    method ObjectIrq(n: int, on: bool, kind: CanIrqType)
      requires Valid() && 0 < n <= SLOTS
      modifies this, hw, hw.ram
      ensures events == old(events) + Notified(irqId, on, kind)
      ensures hw.ram[..] == old(hw.ram[..])[n - 1 := ClearPending(old(hw.ram[n - 1]))]
      ensures hw.regs == old(hw.regs) && hw.if1 == old(hw.if1) && hw.if2 == old(hw.if2)
      ensures irqId == old(irqId) && rxInterrupts == old(rxInterrupts) && txInterrupts == old(txInterrupts)
    {
      ClearInterrupt(n);
      if on {
        events := events + [IrqEvent(irqId, kind)];
      } else {
        ClearPendingIdempotent(old(hw.ram[n - 1]));
        ClearInterrupt(n);
      }
    }

    /** A status-change interrupt (can_api.c:214-232): the five status
        tests in order, clearing RXOK and TXOK as they are reported. */
    method StatusIrq()
      modifies this, hw
      ensures events == old(events) + Tagged(irqId, StatusEvents(old(hw.regs.stat)))
      ensures hw.regs == old(hw.regs).(stat := StatusAfterIrq(old(hw.regs.stat)))
      ensures hw.if1 == old(hw.if1) && hw.if2 == old(hw.if2)
      ensures irqId == old(irqId) && rxInterrupts == old(rxInterrupts) && txInterrupts == old(txInterrupts)
    {
      var status := hw.regs.stat;
      TaggedStatusEvents(irqId, status);
      AppendFive(events, Notified(irqId, status & STAT_BOFF != 0, IrqBus),
        Notified(irqId, status & STAT_EWARN != 0, IrqError), Notified(irqId, status & STAT_EPASS != 0, IrqPassive),
        Notified(irqId, status & STAT_RXOK != 0, IrqRx), Notified(irqId, status & STAT_TXOK != 0, IrqTx));
      NotifyIf(status & STAT_BOFF != 0, IrqBus);
      NotifyIf(status & STAT_EWARN != 0, IrqError);
      NotifyIf(status & STAT_EPASS != 0, IrqPassive);
      AcknowledgeIf(status & STAT_RXOK != 0, STAT_RXOK, IrqRx);
      AcknowledgeIf(status & STAT_TXOK != 0, STAT_TXOK, IrqTx);
    }

    /** `if (cond) irq_handler(can_irq_id, kind);` */
    method NotifyIf(cond: bool, kind: CanIrqType)
      modifies this
      ensures events == old(events) + Notified(irqId, cond, kind)
      ensures irqId == old(irqId) && rxInterrupts == old(rxInterrupts) && txInterrupts == old(txInterrupts)
    {
      if cond {
        events := events + [IrqEvent(irqId, kind)];
      }
    }

    /** `if (cond) { CANSTAT &= ~bit; irq_handler(can_irq_id, kind); }` */
    method AcknowledgeIf(cond: bool, bit: bv16, kind: CanIrqType)
      modifies this, hw
      ensures events == old(events) + Notified(irqId, cond, kind)
      ensures hw.regs == old(hw.regs).(stat := Acknowledged(old(hw.regs.stat), cond, bit))
      ensures hw.if1 == old(hw.if1) && hw.if2 == old(hw.if2)
      ensures irqId == old(irqId) && rxInterrupts == old(rxInterrupts) && txInterrupts == old(txInterrupts)
    {
      if cond {
        hw.regs := hw.regs.(stat := hw.regs.stat & !bit);
        events := events + [IrqEvent(irqId, kind)];
      }
    }

    /** can_irq_init (can_api.c:237-240): remember the identifier the
        handler is called with. */
    method IrqInit(id: bv32)
      modifies this
      ensures irqId == id
      ensures rxInterrupts == old(rxInterrupts) && txInterrupts == old(txInterrupts) && events == old(events)
    {
      irqId := id;
    }

    /** can_irq_free (can_api.c:243-247): clear IE and forget the identifier. */
    method IrqFree()
      modifies this, hw
      ensures irqId == 0
      ensures hw.regs == old(hw.regs).(cntl := old(hw.regs.cntl) & !CNTL_IE)
      ensures hw.if1 == old(hw.if1) && hw.if2 == old(hw.if2)
      ensures rxInterrupts == old(rxInterrupts) && txInterrupts == old(txInterrupts) && events == old(events)
    {
      hw.regs := hw.regs.(cntl := hw.regs.cntl & !CNTL_IE);
      irqId := 0;
    }

    /** can_irq_set (can_api.c:250-275): set the flag of the receive or
        transmit class (any other kind returns at once), then, with INIT set
        around it, turn IE and SIE on when some class is enabled and off
        otherwise. */
    method IrqSet(kind: CanIrqType, enable: bv32)
      modifies this, hw
      ensures kind == IrqRx ==> rxInterrupts == enable && txInterrupts == old(txInterrupts)
      ensures kind == IrqTx ==> txInterrupts == enable && rxInterrupts == old(rxInterrupts)
      ensures kind != IrqRx && kind != IrqTx ==>
        rxInterrupts == old(rxInterrupts) && txInterrupts == old(txInterrupts) && hw.regs == old(hw.regs)
      ensures kind == IrqRx || kind == IrqTx ==>
        hw.regs == old(hw.regs).(cntl := InterruptCntl(old(hw.regs.cntl), rxInterrupts != 0 || txInterrupts != 0))
      ensures hw.if1 == old(hw.if1) && hw.if2 == old(hw.if2)
      ensures irqId == old(irqId) && events == old(events)
    {
      if kind == IrqRx {
        rxInterrupts := enable;
      } else if kind == IrqTx {
        txInterrupts := enable;
      } else {
        return;
      }
      SetInterruptEnables(rxInterrupts != 0 || txInterrupts != 0);
    }

    /** The register half of can_irq_set (can_api.c:265-274): with INIT set
        around it, IE and SIE on when `anyOn`, off otherwise. */
    method SetInterruptEnables(anyOn: bool)
      modifies hw
      ensures hw.regs == old(hw.regs).(cntl := InterruptCntl(old(hw.regs.cntl), anyOn))
      ensures hw.if1 == old(hw.if1) && hw.if2 == old(hw.if2)
    {
      Disable();
      hw.regs := hw.regs.(cntl := InterruptEnables(hw.regs.cntl, anyOn));
      Enable();
    }

    /** can_frequency (can_api.c:431-446), with SystemCoreClock passed in as
        `sysclk` and the C conversion `(unsigned int)f` written out. When the
        search succeeds the bit timing is written with CCE and INIT set
        around it and left cleared; otherwise no register is written. */
    method Frequency(sysclk: u32, f: int) returns (ok: bool)
      requires -0x8000_0000 <= f < 0x8000_0000 && f != 0
      modifies hw
      ensures var w := SpeedWord(sysclk, f % 0x1_0000_0000, 1);
        (ok <==> w != 0)
        && (ok ==> hw.regs == old(hw.regs).(
              cntl := old(hw.regs.cntl) & !(CNTL_CCE | CNTL_INIT), clkdiv := 0, bt := Lo16(w), brpe := 0))
        && (!ok ==> hw.regs == old(hw.regs))
      ensures hw.if1 == old(hw.if1) && hw.if2 == old(hw.if2)
    {
      var cclk: u32 := f % 0x1_0000_0000;
      var btr := CanSpeed(sysclk, cclk, 1);
      SpeedWordFitsBt(sysclk, cclk, 1);
      var clkdiv := (btr >> 16) & 0x0F;
      btr := btr & 0xFFFF;
      if btr != 0 {
        hw.regs := hw.regs.(cntl := hw.regs.cntl | CNTL_CCE | CNTL_INIT);
        hw.regs := hw.regs.(clkdiv := Lo16(clkdiv));
        hw.regs := hw.regs.(bt := Lo16(btr));
        hw.regs := hw.regs.(brpe := 0);
        hw.regs := hw.regs.(cntl := hw.regs.cntl & !(CNTL_CCE | CNTL_INIT));
        return true;
      }
      return false;
    }

    /** can_rderror (can_api.c:607-609). */
    function RdError(): (r: bv8)
      reads hw
      ensures r < 0x80
      ensures ((r as bv16) << 8) | (TdError() as bv16) == hw.regs.ec & 0x7FFF
    {
      ReceiveErrors(hw.regs.ec)
    }

    /** can_tderror (can_api.c:611-613). */
    function TdError(): (r: bv8)
      reads hw
      ensures r as bv16 == hw.regs.ec & 0xFF
    {
      TransmitErrors(hw.regs.ec)
    }
  }
}
