/** The decisions of can_api.c stated as functions of register values: which
    CANCNTL/CANTEST bits each mode call leaves, which message object each
    operation picks from the slot bitmaps, what can_tx_status reports, and
    what one transfer of each kind leaves in the object it touches. The
    CanApi module performs these on the controller's state. */
module DriverLogic {
  import opened Wrappers
  import opened CanRegs
  import opened Bitmap
  import opened MsgCodec

  /** The modes of the mbed CAN interface. */
  datatype CanMode = ModeReset | ModeNormal | ModeSilent | ModeTestGlobal | ModeTestLocal | ModeTestSilent

  datatype CanTxState = TxIdle | TxBusy | TxAvailable

  /** Transmit objects: one, object 32 (can_api.c:27). */
  const TX_OBJ_COUNT: nat := 1

  // The command masks the driver issues.
  const FILTER_CMD: bv16 := CMDMSK_WR | CMDMSK_MASK | CMDMSK_ARB | CMDMSK_CTRL
  const CONFIG_CMD: bv16 := CMDMSK_WR | CMDMSK_ARB | CMDMSK_CTRL
  const TX_CMD: bv16 := CMDMSK_WR | CMDMSK_MASK | CMDMSK_ARB | CMDMSK_CTRL | CMDMSK_TXRQST | CMDMSK_DATA_A | CMDMSK_DATA_B
  const RX_CMD: bv16 := CMDMSK_RD | CMDMSK_MASK | CMDMSK_ARB | CMDMSK_CTRL | CMDMSK_CLRINTPND | CMDMSK_TXRQST | CMDMSK_DATA_A | CMDMSK_DATA_B
  const CLEAR_CMD: bv16 := CMDMSK_CLRINTPND | CMDMSK_NEWDAT

  /** The mode the controller is in, read off CANCNTL and CANTEST: with TEST
      clear, reset when INIT is set and normal otherwise; with TEST set, the
      SILENT and LBACK bits choose the test mode (neither bit names none). */
  function ObservedMode(cntl: bv16, test: bv16): Option<CanMode>
  {
    if cntl & CNTL_TEST == 0 then Some(if cntl & CNTL_INIT != 0 then ModeReset else ModeNormal)
    else if test & TEST_SILENT != 0 then Some(if test & TEST_LBACK != 0 then ModeTestSilent else ModeSilent)
    else if test & TEST_LBACK != 0 then Some(ModeTestLocal)
    else None
  }

  /** CANCNTL after can_disable (can_api.c:87-89): INIT set. */
  function Disabled(cntl: bv16): bv16
  {
    cntl | CNTL_INIT
  }

  /** CANCNTL after can_enable (can_api.c:91-95): INIT clear. can_enable
      clears it only when it is set, which leaves the same word. */
  function Enabled(cntl: bv16): bv16
  {
    cntl & !CNTL_INIT
  }

  /** CANCNTL after a supported can_mode call (can_api.c:99-127). */
  function ModeCntl(mode: CanMode, cntl: bv16): bv16
  {
    match mode
    case ModeReset => Disabled(cntl & !CNTL_TEST)
    case ModeNormal => Enabled(cntl & !CNTL_TEST)
    case _ => cntl | CNTL_TEST
  }

  /** CANTEST after a supported can_mode call (can_api.c:99-127). */
  function ModeTest(mode: CanMode, test: bv16): bv16
  {
    match mode
    case ModeSilent => (test | TEST_SILENT) & !TEST_LBACK
    case ModeTestLocal => (test & !TEST_SILENT) | TEST_LBACK
    case ModeTestSilent => test | TEST_LBACK | TEST_SILENT
    case _ => test
  }

  /** CANCNTL and CANTEST after can_mode (can_api.c:97-134), None when the
      mode is refused. A supported mode is then the observed mode. */
  function ModeRegs(mode: CanMode, cntl: bv16, test: bv16): (r: Option<(bv16, bv16)>)
    ensures r.None? <==> mode == ModeTestGlobal
    ensures r.Some? ==> ObservedMode(r.value.0, r.value.1) == Some(mode)
  {
    if mode == ModeTestGlobal then None
    else
      ModeIsObserved(mode, cntl, test);
      Some((ModeCntl(mode, cntl), ModeTest(mode, test)))
  }

  /** Each supported mode leaves CANCNTL and CANTEST reading back as itself. */
  lemma ModeIsObserved(mode: CanMode, cntl: bv16, test: bv16)
    requires mode != ModeTestGlobal
    ensures ObservedMode(ModeCntl(mode, cntl), ModeTest(mode, test)) == Some(mode)
  {
    match mode
    case ModeReset => ResetIsObserved(cntl, test);
    case ModeNormal => NormalIsObserved(cntl, test);
    case ModeSilent => TestIsObserved(mode, cntl, test);
    case ModeTestLocal => TestIsObserved(mode, cntl, test);
    case ModeTestSilent => TestIsObserved(mode, cntl, test);
  }

  lemma ResetIsObserved(cntl: bv16, test: bv16)
    ensures ObservedMode(Disabled(cntl & !CNTL_TEST), test) == Some(ModeReset)
  {
  }

  lemma NormalIsObserved(cntl: bv16, test: bv16)
    ensures ObservedMode(Enabled(cntl & !CNTL_TEST), test) == Some(ModeNormal)
  {
  }

  lemma TestIsObserved(mode: CanMode, cntl: bv16, test: bv16)
    requires mode == ModeSilent || mode == ModeTestLocal || mode == ModeTestSilent
    ensures ObservedMode(cntl | CNTL_TEST, ModeTest(mode, test)) == Some(mode)
  {
  }

  /** can_mode moves only the TEST and INIT bits of CANCNTL, and the three
      test modes leave INIT alone. */
  lemma ModeKeepsOtherControlBits(mode: CanMode, cntl: bv16)
    ensures ModeCntl(mode, cntl) | CNTL_TEST | CNTL_INIT == cntl | CNTL_TEST | CNTL_INIT
    ensures mode != ModeReset && mode != ModeNormal ==> ModeCntl(mode, cntl) == cntl | CNTL_TEST
  {
    OnlyTestAndInit(cntl, ModeCntl(mode, cntl));
  }

  lemma OnlyTestAndInit(cntl: bv16, r: bv16)
    requires r == (cntl & !CNTL_TEST) | CNTL_INIT || r == cntl & !CNTL_TEST & !CNTL_INIT || r == cntl | CNTL_TEST
    ensures r | CNTL_TEST | CNTL_INIT == cntl | CNTL_TEST | CNTL_INIT
  {
  }

  /** can_mode moves only the SILENT and LBACK bits of CANTEST, and reset
      and normal leave CANTEST alone. */
  lemma ModeKeepsOtherTestBits(mode: CanMode, test: bv16)
    ensures ModeTest(mode, test) | TEST_SILENT | TEST_LBACK == test | TEST_SILENT | TEST_LBACK
    ensures mode == ModeReset || mode == ModeNormal ==> ModeTest(mode, test) == test
  {
    OnlySilentAndLoopback(test, ModeTest(mode, test));
  }

  lemma OnlySilentAndLoopback(test: bv16, r: bv16)
    requires r == (test | TEST_SILENT) & !TEST_LBACK || r == (test & !TEST_SILENT) | TEST_LBACK
      || r == test | TEST_LBACK | TEST_SILENT || r == test
    ensures r | TEST_SILENT | TEST_LBACK == test | TEST_SILENT | TEST_LBACK
  {
  }

  /** CANCNTL and CANTEST after can_monitor (can_api.c:615-627): TEST and
      SILENT both follow `silent`, LBACK and the other bits stay, and INIT
      ends up set either way. */
  function MonitorRegs(silent: bool, cntl: bv16, test: bv16): (r: (bv16, bv16))
    ensures r.0 & CNTL_INIT != 0
    ensures (r.0 & CNTL_TEST != 0) == silent && (r.1 & TEST_SILENT != 0) == silent
    ensures r.0 | CNTL_TEST | CNTL_INIT == cntl | CNTL_TEST | CNTL_INIT
    ensures r.1 | TEST_SILENT == test | TEST_SILENT
  {
    var c := if silent then cntl | CNTL_TEST else cntl & !CNTL_TEST;
    var t := if silent then test | TEST_SILENT else test & !TEST_SILENT;
    (if c & CNTL_INIT == 0 then c | CNTL_INIT else c, t)
  }

  /** So can_monitor(0) leaves the controller in reset mode, and
      can_monitor(1) in silent mode, or silent loopback when LBACK was
      already set: it never resumes normal operation. */
  lemma MonitorStopsController(silent: bool, cntl: bv16, test: bv16)
    ensures var r := MonitorRegs(silent, cntl, test);
      ObservedMode(r.0, r.1)
        == Some(if !silent then ModeReset else if test & TEST_LBACK != 0 then ModeTestSilent else ModeSilent)
  {
    var r := MonitorRegs(silent, cntl, test);
    assert (r.1 & TEST_LBACK) == (test & TEST_LBACK);
  }

  /** CANCNTL after can_irq_set has updated the flags (can_api.c:262-270):
      IE and SIE on exactly when some class is enabled, INIT cleared, other
      bits kept. */
  function InterruptCntl(cntl: bv16, anyOn: bool): bv16
  {
    Enabled(InterruptEnables(Disabled(cntl), anyOn))
  }

  /** The IE and SIE update can_irq_set makes between can_disable and
      can_enable (can_api.c:264-268). */
  function InterruptEnables(cntl: bv16, anyOn: bool): bv16
  {
    if !anyOn then cntl & !(CNTL_IE | CNTL_SIE) else cntl | CNTL_IE | CNTL_SIE
  }

  /** After can_irq_set the controller runs (INIT clear), IE and SIE are on
      exactly when some class is enabled, and no other CANCNTL bit moved. */
  lemma InterruptCntlBits(cntl: bv16, anyOn: bool)
    ensures var r := InterruptCntl(cntl, anyOn);
      r & CNTL_INIT == 0
      && (r & CNTL_IE != 0) == anyOn && (r & CNTL_SIE != 0) == anyOn
      && r | CNTL_INIT | CNTL_IE | CNTL_SIE == cntl | CNTL_INIT | CNTL_IE | CNTL_SIE
  {
  }

  /** The object can_filter works on (can_api.c:156-167): the handle given,
      or for handle 0 the lowest object whose valid bit is clear, 0 when all
      32 are valid. */
  function FilterHandle(handle: int, valid: seq<bool>): (h: int)
    requires |valid| == SLOTS
    ensures handle != 0 ==> h == handle
    ensures handle == 0 ==> 0 <= h <= SLOTS
    ensures handle == 0 ==> (h == 0 <==> forall j :: 0 <= j < SLOTS ==> valid[j])
    ensures handle == 0 && h != 0 ==> !valid[h - 1] && forall j :: 0 <= j < h - 1 ==> valid[j]
  {
    if handle != 0 then handle
    else
      var k := FirstMatch(valid, 0, SLOTS, false);
      if k < SLOTS then k + 1 else 0
  }

  /** The object can_read reads (can_api.c:519-530): the handle given, or for
      handle 0 the lowest receive object (1..31) with new data, 0 when none
      has any. */
  function ReadHandle(handle: int, newData: seq<bool>): (h: int)
    requires |newData| == SLOTS
    ensures handle != 0 ==> h == handle
    ensures handle == 0 ==> 0 <= h <= RX_SLOTS
    ensures handle == 0 ==> (h == 0 <==> forall j :: 0 <= j < RX_SLOTS ==> !newData[j])
    ensures handle == 0 && h != 0 ==> newData[h - 1] && forall j :: 0 <= j < h - 1 ==> !newData[j]
  {
    if handle != 0 then handle
    else
      var k := FirstMatch(newData, 0, RX_SLOTS, true);
      if k < RX_SLOTS then k + 1 else 0
  }

  /** The object can_write sends from (can_api.c:454-466): object 32 when its
      pending bit is clear, otherwise none (0). */
  function TxSlot(pending: seq<bool>): (msgnum: int)
    requires |pending| == SLOTS
    ensures msgnum == 0 <==> pending[RX_SLOTS]
    ensures msgnum != 0 ==> msgnum == SLOTS
  {
    var k := FirstMatch(pending, RX_SLOTS, SLOTS, false);
    if k < SLOTS then k + 1 else 0
  }

  /** What can_tx_status reports (can_api.c:577-597): it counts the pending
      transmit objects, so with the single transmit object it is busy exactly
      when object 32 is pending, idle otherwise, and never "available". */
  function TxStateOf(pending: seq<bool>): (s: CanTxState)
    requires |pending| == SLOTS
    ensures s == TxBusy <==> pending[RX_SLOTS]
    ensures s == TxIdle <==> !pending[RX_SLOTS]
    ensures s != TxAvailable
  {
    var count := if true in pending then PopCount(pending, RX_SLOTS, SLOTS) else 0;
    if count == 0 then TxIdle
    else if count == TX_OBJ_COUNT then TxBusy
    else TxAvailable
  }

  /** can_write refuses a frame exactly when can_tx_status says busy. */
  lemma WriteRefusedIffBusy(pending: seq<bool>)
    requires |pending| == SLOTS
    ensures TxSlot(pending) == 0 <==> TxStateOf(pending) == TxBusy
  {
  }

  /** A filter transfer leaves the object valid, with the filter's format,
      identifier and mask, control UMASK | EOB | 8, and its data untouched. */
  lemma FilterFillsObject(id: bv32, mask: bv32, format: CanFormat, stg: MsgObj, obj: MsgObj)
    ensures var o := WriteObject(FILTER_CMD, FilterStaging(id, mask, format, stg), obj);
      IsValid(o) && !HasNewData(o) && !TxRequested(o)
      && (o.arb2 & ARB2_XTD != 0 <==> format == Extended)
      && StoredId(o) == id & (if format == Extended then ID_EXT_MASK else ID_STD_MASK)
      && StoredMask(o) == mask & (if format == Extended then ID_EXT_MASK else ID_STD_MASK)
      && o.mctrl == MCTRL_UMASK | MCTRL_EOB | 8
      && o.da1 == obj.da1 && o.da2 == obj.da2 && o.db1 == obj.db1 && o.db2 == obj.db2
  {
    var f := FilterStaging(id, mask, format, stg);
    FilterStoresIdAndMask(id, mask, format, stg);
    var o := WriteObject(FILTER_CMD, f, obj);
    assert o == obj.(msk1 := f.msk1, msk2 := f.msk2, arb1 := f.arb1, arb2 := f.arb2, mctrl := f.mctrl);
    assert StoredId(o) == StoredId(f) && StoredMask(o) == StoredMask(f);
  }

  /** An object a filter has just filled is not picked by the next
      automatic selection, so two automatic can_filter calls get different
      objects. */
  lemma AutoSelectSkipsFilled(ram: seq<MsgObj>, h: int, obj: MsgObj)
    requires |ram| == SLOTS && 1 <= h <= SLOTS && IsValid(obj)
    ensures FilterHandle(0, ValidBits(ram[h - 1 := obj])) != h
  {
  }

  /** IF1 as can_config_rxmsgobj stages it (can_api.c:350-352). */
  function RxTemplate(stg: MsgObj): MsgObj
  {
    stg.(arb1 := 0, arb2 := 0, mctrl := 0)
  }

  /** IF1 as can_config_txmsgobj stages it (can_api.c:378-380). */
  function TxTemplate(stg: MsgObj): MsgObj
  {
    stg.(arb1 := 0, arb2 := ARB2_DIR, mctrl := 0)
  }

  /** The receive template clears arbitration and control, so the object is
      invalid, has no new data and no transmit request; masks and data
      stay. */
  lemma RxTemplateClears(stg: MsgObj, obj: MsgObj)
    ensures var o := WriteObject(CONFIG_CMD, RxTemplate(stg), obj);
      !IsValid(o) && !HasNewData(o) && !TxRequested(o)
      && o == obj.(arb1 := 0, arb2 := 0, mctrl := 0)
  {
  }

  /** The transmit template sets the direction but not MSGVAL, so object 32
      is left invalid. */
  lemma TxTemplateLeavesInvalid(stg: MsgObj, obj: MsgObj)
    ensures var o := WriteObject(CONFIG_CMD, TxTemplate(stg), obj);
      !IsValid(o) && !HasNewData(o) && !TxRequested(o) && o.arb2 & ARB2_DIR != 0
  {
  }

  /** Hence once objects 1..31 hold filters, automatic filter selection
      hands out object 32, the transmit object. */
  lemma AutoSelectReachesTxObject(ram: seq<MsgObj>)
    requires |ram| == SLOTS
    requires forall j :: 0 <= j < RX_SLOTS ==> IsValid(ram[j])
    requires !IsValid(ram[RX_SLOTS])
    ensures FilterHandle(0, ValidBits(ram)) == SLOTS
  {
  }

  /** A transmit transfer leaves object 32 valid and pending, with length
      code len & 0xF, the frame's format and (for an identifier that fits
      its format) identifier, and the payload in DA1..DB2. */
  lemma WriteArmsObject(msg: CanMessage, stg: MsgObj, obj: MsgObj)
    requires msg.format == Extended ==> msg.id <= ID_EXT_MASK
    ensures var o := WriteObject(TX_CMD, TxStaging(msg, stg), obj);
      IsValid(o) && TxRequested(o)
      && Widen(o.mctrl) & 0xF == (msg.len as bv32) & 0xF
      && (o.arb2 & ARB2_XTD != 0 <==> msg.format == Extended)
      && StoredId(o) == msg.id & (if msg.format == Extended then ID_EXT_MASK else ID_STD_MASK)
      && o.da1 == PackBytes(msg.data[0], msg.data[1]) && o.da2 == PackBytes(msg.data[2], msg.data[3])
      && o.db1 == PackBytes(msg.data[4], msg.data[5]) && o.db2 == PackBytes(msg.data[6], msg.data[7])
  {
    var f := TxStaging(msg, stg);
    TxStagingStoresFrame(msg, stg);
    var o := WriteObject(TX_CMD, f, obj);
    assert o == f.(mctrl := f.mctrl | MCTRL_TXRQST);
  }

  /** The read transfer of can_read, and the clear of can_clear_interrupt,
      clear exactly INTPND and NEWDAT of the object. */
  lemma ReadsClearPending(obj: MsgObj)
    ensures ReadClears(RX_CMD, obj) == ClearPending(obj)
    ensures ReadClears(CLEAR_CMD, obj) == ClearPending(obj)
  {
  }

  /** The interrupt clear reads no field into IF2. */
  lemma ClearLeavesStaging(obj: MsgObj, stg: MsgObj)
    ensures ReadStaging(CLEAR_CMD, obj, stg) == stg
  {
  }

  /** can_read decodes the object it read, whatever IF2 held before. */
  lemma ReadDecodesObject(obj: MsgObj, stg: MsgObj)
    ensures RxDecode(ReadStaging(RX_CMD, obj, stg)) == RxDecode(obj)
  {
    assert ReadStaging(RX_CMD, obj, stg) == obj;
  }

  /** can_write's transfer copies every staging field into the object and
      sets TXRQST. */
  lemma TxWriteCopiesAll(stg: MsgObj, obj: MsgObj)
    ensures WriteObject(TX_CMD, stg, obj) == stg.(mctrl := stg.mctrl | MCTRL_TXRQST)
  {
  }

  /** A frame can_write stored in an object, read back by can_read: the
      payload, length code (cut to 4 bits) and format come back, a standard
      identifier comes back cut to 11 bits, and the type comes back
      inverted. */
  lemma WriteThenRead(msg: CanMessage, stg1: MsgObj, obj: MsgObj, stg2: MsgObj)
    ensures var r := RxDecode(ReadStaging(RX_CMD, WriteObject(TX_CMD, TxStaging(msg, stg1), obj), stg2));
      r.data == msg.data && r.len == msg.len & 0xF && r.format == msg.format
      && (msg.format == Standard ==> r.id == msg.id & ID_STD_MASK && r.kind == Flip(msg.kind))
  {
    var f := TxStaging(msg, stg1);
    var o := WriteObject(TX_CMD, f, obj);
    TxWriteCopiesAll(f, obj);
    ReadDecodesObject(o, stg2);
    assert Widen(o.mctrl) & 0xF == Widen(f.mctrl) & 0xF;
    assert RxDecode(o) == RxDecode(f);
    PayloadRoundTrip(msg, stg1);
    if msg.format == Standard {
      StandardReadBack(msg, stg1);
    }
  }
}
