/** The C_CAN peripheral as the driver sees it: a bank of 16-bit registers,
    two interfaces (IF1, IF2) each with its own staging registers, and a
    message RAM of 32 message objects that software reaches only through an
    interface transfer. A transfer (writing CMDMSK, then the object number
    to CMDREQ, then waiting for BUSY to drop) is modelled as one atomic copy
    between an interface's staging registers and one object. */
module Controller {
  import opened CanRegs

  datatype Iface = If1 | If2

  /** The scalar registers the driver touches, as one register block. */
  datatype RegFile = RegFile(
    cntl: bv16, test: bv16, stat: bv16, ec: bv16, canint: bv16,
    clkdiv: bv16, bt: bv16, brpe: bv16)

  class CanController {
    var regs: RegFile  // CANCNTL .. CANBRPE
    var if1: MsgObj    // CANIF1_MSK1 .. CANIF1_DB2
    var if2: MsgObj    // CANIF2_MSK1 .. CANIF2_DB2
    const ram: array<MsgObj>

    ghost predicate Valid()
    {
      ram.Length == SLOTS
    }

    function Staging(iface: Iface): MsgObj
      reads this
    {
      if iface == If1 then if1 else if2
    }

    /** A controller in the state the environment hands over: registers,
        both staging banks and the 32 objects. */
    constructor (regs0: RegFile, stg1: MsgObj, stg2: MsgObj, objs: seq<MsgObj>)
      requires |objs| == SLOTS
      ensures Valid() && fresh(ram)
      ensures regs == regs0 && if1 == stg1 && if2 == stg2 && ram[..] == objs
    {
      regs := regs0;
      if1, if2 := stg1, stg2;
      ram := new MsgObj[SLOTS](i requires 0 <= i < SLOTS => objs[i]);
    }

    /** One interface transfer to or from object `num` (1..32). With WR set
        the selected staging fields go into the object; without it the
        selected object fields come into this interface's staging
        registers, and CLRINTPND / NEWDAT clear the object's flags. */
    method Transfer(iface: Iface, cmd: bv16, num: nat)
      requires Valid() && 1 <= num <= SLOTS
      modifies this, ram
      ensures regs == old(regs)
      ensures cmd & CMDMSK_WR != 0 ==>
        ram[..] == old(ram[..])[num - 1 := WriteObject(cmd, old(Staging(iface)), old(ram[num - 1]))]
        && if1 == old(if1) && if2 == old(if2)
      ensures cmd & CMDMSK_WR == 0 ==>
        ram[..] == old(ram[..])[num - 1 := ReadClears(cmd, old(ram[num - 1]))]
        && Staging(iface) == ReadStaging(cmd, old(ram[num - 1]), old(Staging(iface)))
        && (iface == If1 ==> if2 == old(if2))
        && (iface == If2 ==> if1 == old(if1))
    {
      var obj := ram[num - 1];
      if cmd & CMDMSK_WR != 0 {
        ram[num - 1] := WriteObject(cmd, Staging(iface), obj);
      } else {
        if iface == If1 {
          if1 := ReadStaging(cmd, obj, if1);
        } else {
          if2 := ReadStaging(cmd, obj, if2);
        }
        ram[num - 1] := ReadClears(cmd, obj);
      }
    }
  }
}
