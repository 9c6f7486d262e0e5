/** Register-level vocabulary of the LPC15xx C_CAN controller as the driver
    in can_api.c uses it: the bit masks it names, the layout of one message
    object (which is also the layout of each interface's staging registers),
    what one interface transfer does to a message object under a command
    mask, and the per-slot flags the controller reports as bitmaps.
    Registers are 16 bits wide; a 32-bit value the driver stores into one
    keeps its low 16 bits. */
module CanRegs {

  // Message object / interface register bits (can_api.c:34-47).
  const ARB2_DIR: bv16 := 0x2000
  const ARB2_XTD: bv16 := 0x4000
  const ARB2_MSGVAL: bv16 := 0x8000
  const MSK2_MXTD: bv16 := 0x8000
  const MSK2_MDIR: bv16 := 0x4000
  const MCTRL_EOB: bv16 := 0x0080
  const MCTRL_TXRQST: bv16 := 0x0100
  const MCTRL_UMASK: bv16 := 0x1000
  const MCTRL_INTPND: bv16 := 0x2000
  const MCTRL_NEWDAT: bv16 := 0x8000

  // Command mask bits (can_api.c:48-57). Bit 2 means TXRQST when writing
  // to the message object and NEWDAT when reading from it.
  const CMDMSK_DATA_B: bv16 := 0x0001
  const CMDMSK_DATA_A: bv16 := 0x0002
  const CMDMSK_TXRQST: bv16 := 0x0004
  const CMDMSK_NEWDAT: bv16 := 0x0004
  const CMDMSK_CLRINTPND: bv16 := 0x0008
  const CMDMSK_CTRL: bv16 := 0x0010
  const CMDMSK_ARB: bv16 := 0x0020
  const CMDMSK_MASK: bv16 := 0x0040
  const CMDMSK_WR: bv16 := 0x0080
  const CMDMSK_RD: bv16 := 0x0000

  // Status register bits (can_api.c:60-64).
  const STAT_TXOK: bv16 := 0x0008
  const STAT_RXOK: bv16 := 0x0010
  const STAT_EPASS: bv16 := 0x0020
  const STAT_EWARN: bv16 := 0x0040
  const STAT_BOFF: bv16 := 0x0080

  // Control register bits (can_api.c:66-72).
  const CNTL_INIT: bv16 := 0x0001
  const CNTL_IE: bv16 := 0x0002
  const CNTL_SIE: bv16 := 0x0004
  const CNTL_CCE: bv16 := 0x0040
  const CNTL_TEST: bv16 := 0x0080

  // Test register bits (can_api.c:74-76).
  const TEST_SILENT: bv16 := 0x0008
  const TEST_LBACK: bv16 := 0x0010

  /** Number of message objects; objects 1..31 receive, object 32 transmits
      (can_api.c:26-27). */
  const SLOTS: nat := 32
  const RX_SLOTS: nat := 31

  /** One message object in message RAM, or the staging registers of one
      interface, which have the same fields. */
  datatype MsgObj = MsgObj(
    msk1: bv16, msk2: bv16,
    arb1: bv16, arb2: bv16,
    mctrl: bv16,
    da1: bv16, da2: bv16, db1: bv16, db2: bv16)

  const ZeroObj := MsgObj(0, 0, 0, 0, 0, 0, 0, 0, 0)

  /** Storing a 32-bit value into a 16-bit register. */
  function Lo16(x: bv32): bv16
  {
    (x & 0xFFFF) as bv16
  }

  /** Reading a 16-bit register through a 32-bit access. */
  function Widen(x: bv16): bv32
  {
    x as bv32
  }

  lemma Lo16Widen(x: bv16)
    ensures Lo16(Widen(x)) == x
  {
  }

  /** Write direction: the staging fields the command mask selects are copied
      into the object; the TXRQST command bit also sets the object's
      transmit request. */
  function WriteObject(cmd: bv16, stg: MsgObj, obj: MsgObj): MsgObj
  {
    var m := if cmd & CMDMSK_MASK != 0 then obj.(msk1 := stg.msk1, msk2 := stg.msk2) else obj;
    var a := if cmd & CMDMSK_ARB != 0 then m.(arb1 := stg.arb1, arb2 := stg.arb2) else m;
    var c := if cmd & CMDMSK_CTRL != 0 then a.(mctrl := stg.mctrl) else a;
    var t := if cmd & CMDMSK_TXRQST != 0 then c.(mctrl := c.mctrl | MCTRL_TXRQST) else c;
    var d := if cmd & CMDMSK_DATA_A != 0 then t.(da1 := stg.da1, da2 := stg.da2) else t;
    if cmd & CMDMSK_DATA_B != 0 then d.(db1 := stg.db1, db2 := stg.db2) else d
  }

  /** Read direction, staging side: the object fields the command mask
      selects are copied into the staging registers (the control word as it
      was before any clearing). */
  function ReadStaging(cmd: bv16, obj: MsgObj, stg: MsgObj): MsgObj
  {
    var m := if cmd & CMDMSK_MASK != 0 then stg.(msk1 := obj.msk1, msk2 := obj.msk2) else stg;
    var a := if cmd & CMDMSK_ARB != 0 then m.(arb1 := obj.arb1, arb2 := obj.arb2) else m;
    var c := if cmd & CMDMSK_CTRL != 0 then a.(mctrl := obj.mctrl) else a;
    var d := if cmd & CMDMSK_DATA_A != 0 then c.(da1 := obj.da1, da2 := obj.da2) else c;
    if cmd & CMDMSK_DATA_B != 0 then d.(db1 := obj.db1, db2 := obj.db2) else d
  }

  /** Read direction, object side: CLRINTPND clears the object's interrupt
      pending bit and NEWDAT its new-data bit; nothing else changes. */
  function ReadClears(cmd: bv16, obj: MsgObj): MsgObj
  {
    var i := if cmd & CMDMSK_CLRINTPND != 0 then obj.mctrl & !MCTRL_INTPND else obj.mctrl;
    obj.(mctrl := if cmd & CMDMSK_NEWDAT != 0 then i & !MCTRL_NEWDAT else i)
  }

  /** The object after the driver's interrupt-clearing request
      (`CLRINTPND | NEWDAT`, read direction, can_api.c:142). */
  function ClearPending(obj: MsgObj): (r: MsgObj)
    ensures r.mctrl & MCTRL_INTPND == 0 && r.mctrl & MCTRL_NEWDAT == 0
    ensures r.mctrl | MCTRL_INTPND | MCTRL_NEWDAT == obj.mctrl | MCTRL_INTPND | MCTRL_NEWDAT
    ensures r == obj.(mctrl := r.mctrl)
  {
    ReadClears(CMDMSK_CLRINTPND | CMDMSK_NEWDAT, obj)
  }

  lemma ClearPendingIdempotent(obj: MsgObj)
    ensures ClearPending(ClearPending(obj)) == ClearPending(obj)
  {
  }

  /** Per-object flags the controller reports in its bitmap registers. */
  predicate IsValid(obj: MsgObj)
  {
    obj.arb2 & ARB2_MSGVAL != 0
  }

  predicate HasNewData(obj: MsgObj)
  {
    obj.mctrl & MCTRL_NEWDAT != 0
  }

  predicate TxRequested(obj: MsgObj)
  {
    obj.mctrl & MCTRL_TXRQST != 0
  }

  /** `CANMSGV1 | (CANMSGV2 << 16)`: bit i is object i+1's MSGVAL. */
  function ValidBits(ram: seq<MsgObj>): (bits: seq<bool>)
    requires |ram| == SLOTS
    ensures |bits| == SLOTS && forall i :: 0 <= i < SLOTS ==> bits[i] == IsValid(ram[i])
  {
    seq(SLOTS, i requires 0 <= i < SLOTS => IsValid(ram[i]))
  }

  /** `CANND1 | (CANND2 << 16)`: bit i is object i+1's NEWDAT. */
  function NewDataBits(ram: seq<MsgObj>): (bits: seq<bool>)
    requires |ram| == SLOTS
    ensures |bits| == SLOTS && forall i :: 0 <= i < SLOTS ==> bits[i] == HasNewData(ram[i])
  {
    seq(SLOTS, i requires 0 <= i < SLOTS => HasNewData(ram[i]))
  }

  /** `(CANTXREQ1 & 0xFF) | (CANTXREQ2 << 16)`: bit i is object i+1's TXRQST,
      except that the mask drops objects 9..16 (bits 8..15). */
  function TxPendingBits(ram: seq<MsgObj>): (bits: seq<bool>)
    requires |ram| == SLOTS
    ensures |bits| == SLOTS
    ensures forall i :: 0 <= i < SLOTS ==> bits[i] == (!(8 <= i < 16) && TxRequested(ram[i]))
  {
    seq(SLOTS, i requires 0 <= i < SLOTS => !(8 <= i < 16) && TxRequested(ram[i]))
  }

  /** can_rderror (can_api.c:607-609): the receive error counter, CANEC
      bits 14..8; the error-passive flag in bit 15 is not part of it. */
  function ReceiveErrors(ec: bv16): (r: bv8)
    ensures r < 0x80
  {
    ((ec >> 8) & 0x7F) as bv8
  }

  /** can_tderror (can_api.c:611-613): the transmit error counter, CANEC
      bits 7..0. */
  function TransmitErrors(ec: bv16): (r: bv8)
    ensures r as bv16 == ec & 0xFF
  {
    (ec & 0xFF) as bv8
  }

  /** The two counters together are CANEC without its error-passive flag. */
  lemma ErrorCountersSplit(ec: bv16)
    ensures ((ReceiveErrors(ec) as bv16) << 8) | (TransmitErrors(ec) as bv16) == ec & 0x7FFF
    ensures ReceiveErrors(ec | 0x8000) == ReceiveErrors(ec)
  {
  }
}
