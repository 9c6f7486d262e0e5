/** How can_api.c packs a frame, or a filter, into an interface's staging
    registers, and how it unpacks a frame read back from a message object.
    All of it is pure bit-field arithmetic: the register stores and transfers
    that surround it are in the CanApi module. */
module MsgCodec {
  import opened CanRegs

  datatype CanFormat = Standard | Extended
  datatype CanType = Data | Remote

  type Payload = s: seq<bv8> | |s| == 8 witness [0, 0, 0, 0, 0, 0, 0, 0]

  /** A CAN frame as the driver's callers see it: identifier, eight payload
      bytes, length code, format and type. */
  datatype CanMessage = CanMessage(id: bv32, data: Payload, len: bv8, format: CanFormat, kind: CanType)

  // can_api.c:28-32
  const DLC_MAX: bv32 := 8
  const ID_STD_MASK: bv32 := 0x07FF
  const ID_EXT_MASK: bv32 := 0x1FFF_FFFF

  function Flip(t: CanType): CanType
  {
    if t == Data then Remote else Data
  }

  /** Two payload bytes in one 16-bit data register, the first in the low half. */
  function PackBytes(lo: bv8, hi: bv8): bv16
  {
    ((hi as bv16) << 8) | (lo as bv16)
  }

  function LowByte(w: bv16): bv8
  {
    ((w >> 0) & 0xFF) as bv8
  }

  function HighByte(w: bv16): bv8
  {
    ((w >> 8) & 0xFF) as bv8
  }

  lemma BytesRoundTrip(lo: bv8, hi: bv8)
    ensures LowByte(PackBytes(lo, hi)) == lo && HighByte(PackBytes(lo, hi)) == hi
  {
  }

  /** An identifier or mask in the controller's layout, from its two words:
      an extended one is word2[12:0] followed by word1[15:0], a standard one
      sits in word2[12:2]. */
  function FromWords(extended: bool, word1: bv16, word2: bv16): bv32
  {
    if extended then ((Widen(word2) & 0x1FFF) << 16) | Widen(word1)
    else (Widen(word2) & 0x1FFF) >> 2
  }

  /** The identifier a message object holds; its XTD bit chooses the layout.
      This is the layout can_filter and can_write store into. */
  function StoredId(f: MsgObj): bv32
  {
    FromWords(f.arb2 & ARB2_XTD != 0, f.arb1, f.arb2)
  }

  /** The acceptance mask a message object holds, in the same layout. */
  function StoredMask(f: MsgObj): bv32
  {
    FromWords(f.arb2 & ARB2_XTD != 0, f.msk1, f.msk2)
  }

  /** The staging registers after can_filter has set them up
      (can_api.c:170-183). A standard filter leaves ARB1 and MSK1 as they
      were; the data registers are never touched. */
  function FilterStaging(id: bv32, mask: bv32, format: CanFormat, stg: MsgObj): (r: MsgObj)
    ensures r.da1 == stg.da1 && r.da2 == stg.da2 && r.db1 == stg.db1 && r.db2 == stg.db2
    ensures format == Standard ==> r.arb1 == stg.arb1 && r.msk1 == stg.msk1
  {
    var a :=
      if format == Extended then
        stg.(arb1 := Lo16(id & 0xFFFF),
             arb2 := Lo16(Widen(ARB2_MSGVAL) | Widen(ARB2_XTD) | ((id >> 16) & 0x1FFF)),
             msk1 := Lo16(mask & 0xFFFF),
             msk2 := Lo16(Widen(MSK2_MXTD) | ((mask >> 16) & 0x1FFF)))
      else
        stg.(arb2 := Lo16(Widen(ARB2_MSGVAL) | ((id << 2) & 0x1FFF)),
             msk2 := Lo16((mask << 2) & 0x1FFF));
    a.(mctrl := Lo16(Widen(MCTRL_UMASK) | Widen(MCTRL_EOB) | (DLC_MAX & 0xF)))
  }

  /** The staging registers after can_write has set them up
      (can_api.c:473-496). DIR is set for data frames; a standard frame
      leaves ARB1 and MSK1 as they were. */
  function TxStaging(msg: CanMessage, stg: MsgObj): MsgObj
  {
    var direction: bv32 := if msg.kind == Data then Widen(ARB2_DIR) else 0;
    var a :=
      if msg.format == Extended then
        stg.(arb1 := Lo16(msg.id & 0xFFFF),
             arb2 := Lo16(Widen(ARB2_MSGVAL) | Widen(ARB2_XTD) | direction | ((msg.id >> 16) & 0x1FFFF)),
             msk1 := Lo16(ID_EXT_MASK & 0xFFFF),
             msk2 := Lo16(Widen(MSK2_MXTD) | Widen(MSK2_MDIR) | ((ID_EXT_MASK >> 16) & 0x1FFF)))
      else
        stg.(arb2 := Lo16(Widen(ARB2_MSGVAL) | direction | ((msg.id << 2) & 0x1FFF)),
             msk2 := Lo16(Widen(MSK2_MDIR) | ((ID_STD_MASK << 2) & 0x1FFF)));
    a.(mctrl := Lo16(Widen(MCTRL_UMASK) | Widen(MCTRL_TXRQST) | Widen(MCTRL_EOB) | ((msg.len as bv32) & 0xF)),
       da1 := PackBytes(msg.data[0], msg.data[1]),
       da2 := PackBytes(msg.data[2], msg.data[3]),
       db1 := PackBytes(msg.data[4], msg.data[5]),
       db2 := PackBytes(msg.data[6], msg.data[7]))
  }

  /** The identifier can_read assembles from ARB1 and ARB2, the format
      chosen by XTD (can_api.c:545-552). */
  function ReadId(format: CanFormat, arb1: bv32, arb2: bv32): bv32
  {
    if format == Extended then ((arb1 & 0x1FFF) << 16) | (arb2 & 0x1FFF)
    else (arb2 & 0x1FFF) >> 2
  }

  /** The frame can_read builds from the staging registers it has just
      filled (can_api.c:545-569). */
  function RxDecode(f: MsgObj): (m: CanMessage)
    ensures m.format == Extended <==> f.arb2 & ARB2_XTD != 0
    ensures m.kind == Remote <==> f.arb2 & ARB2_DIR != 0
    ensures m.len < 16
  {
    var arb1 := Widen(f.arb1);
    var arb2 := Widen(f.arb2);
    var format := if arb2 & Widen(ARB2_XTD) != 0 then Extended else Standard;
    var id := ReadId(format, arb1, arb2);
    var kind := if arb2 & Widen(ARB2_DIR) != 0 then Remote else Data;
    var len := (Widen(f.mctrl) & 0xF) as bv8;
    var data := [LowByte(f.da1), HighByte(f.da1), LowByte(f.da2), HighByte(f.da2),
                 LowByte(f.db1), HighByte(f.db1), LowByte(f.db2), HighByte(f.db2)];
    CanMessage(id, data, len, format, kind)
  }

  /** The identifier can_read decodes from a standard object is the one
      the object holds, and fits in 11 bits. */
  lemma RxDecodeStandardId(f: MsgObj)
    requires f.arb2 & ARB2_XTD == 0
    ensures RxDecode(f).format == Standard
    ensures RxDecode(f).id == StoredId(f) && RxDecode(f).id <= ID_STD_MASK
  {
    StandardWordFits(f.arb2);
  }

  /** An identifier in the stored extended layout with its halves
      exchanged: the low 13 bits move up, the high half moves down. */
  function SwapHalves(x: bv32): bv32
  {
    ((x & 0x1FFF) << 16) | (x >> 16)
  }

  /** From an extended object can_read gets back the identifier that
      can_filter and can_write store, with its halves exchanged. */
  lemma RxDecodeExtendedId(f: MsgObj)
    requires f.arb2 & ARB2_XTD != 0
    ensures RxDecode(f).format == Extended
    ensures RxDecode(f).id == SwapHalves(StoredId(f)) && RxDecode(f).id <= ID_EXT_MASK
  {
    DecodedExtendedWords(f);
    StoredExtendedWords(f);
    ReadIdSwapsStored(f.arb1, f.arb2);
  }

  lemma DecodedExtendedWords(f: MsgObj)
    requires f.arb2 & ARB2_XTD != 0
    ensures RxDecode(f).id == ReadId(Extended, Widen(f.arb1), Widen(f.arb2))
  {
  }

  lemma StoredExtendedWords(f: MsgObj)
    requires f.arb2 & ARB2_XTD != 0
    ensures StoredId(f) == ((Widen(f.arb2) & 0x1FFF) << 16) | Widen(f.arb1)
  {
    assert StoredId(f) == FromWords(true, f.arb1, f.arb2);
    ExtendedFromWords(f.arb1, f.arb2);
  }

  lemma ExtendedFromWords(w1: bv16, w2: bv16)
    ensures FromWords(true, w1, w2) == ((Widen(w2) & 0x1FFF) << 16) | Widen(w1)
  {
  }

  lemma ReadIdSwapsStored(w1: bv16, w2: bv16)
    ensures ReadId(Extended, Widen(w1), Widen(w2)) == SwapHalves(((Widen(w2) & 0x1FFF) << 16) | Widen(w1))
    ensures ReadId(Extended, Widen(w1), Widen(w2)) <= ID_EXT_MASK
  {
  }

  /** An extended identifier as can_read assembles it takes its high half
      from ARB1 and its low half from ARB2, both cut to 13 bits: the two
      words exchanged with respect to StoredId. It fits in 29 bits. */
  lemma ReadIdHalves(arb1: bv32, arb2: bv32)
    ensures var x := ReadId(Extended, arb1, arb2);
      x >> 16 == arb1 & 0x1FFF && x & 0xFFFF == arb2 & 0x1FFF && x <= ID_EXT_MASK
  {
  }

  lemma StandardWordFits(w: bv16)
    ensures ReadId(Standard, 0, Widen(w)) == FromWords(false, 0, w) <= ID_STD_MASK
  {
  }

  lemma ExtendedHalves(x: bv32, flags: bv32)
    requires flags & 0x1FFF == 0 && flags & 0xFFFF_0000 == 0
    ensures ((Widen(Lo16(flags | ((x >> 16) & 0x1FFF))) & 0x1FFF) << 16) | Widen(Lo16(x & 0xFFFF))
      == x & ID_EXT_MASK
  {
  }

  lemma StandardField(x: bv32, flags: bv32)
    requires flags & 0x1FFF == 0 && flags & 0xFFFF_0000 == 0
    ensures (Widen(Lo16(flags | ((x << 2) & 0x1FFF))) & 0x1FFF) >> 2 == x & ID_STD_MASK
  {
  }

  /** A filter marks its object valid, keeps the requested format, and
      stores the identifier and mask, cut to the format's width, in the
      controller's layout; control is UMASK | EOB with length code 8. */
  lemma FilterStoresIdAndMask(id: bv32, mask: bv32, format: CanFormat, stg: MsgObj)
    ensures var f := FilterStaging(id, mask, format, stg);
      IsValid(f)
      && (f.arb2 & ARB2_XTD != 0 <==> format == Extended)
      && StoredId(f) == id & (if format == Extended then ID_EXT_MASK else ID_STD_MASK)
      && StoredMask(f) == mask & (if format == Extended then ID_EXT_MASK else ID_STD_MASK)
      && f.mctrl == MCTRL_UMASK | MCTRL_EOB | 8
      && (format == Extended ==> f.msk2 & MSK2_MXTD != 0)
  {
    var f := FilterStaging(id, mask, format, stg);
    if format == Extended {
      ExtendedHalves(id, 0xC000);
      ExtendedHalves(mask, 0x8000);
      assert f.arb2 & ARB2_XTD != 0;
    } else {
      StandardField(id, 0x8000);
      StandardField(mask, 0);
      assert f.arb2 & ARB2_XTD == 0;
    }
  }

  /** A frame staged by can_write is valid, requests transmission, carries
      length code len & 0xF, its identifier in the controller's layout (as
      long as an extended identifier fits in 29 bits) and its eight payload
      bytes, two to a data register. */
  lemma TxStagingStoresFrame(msg: CanMessage, stg: MsgObj)
    requires msg.format == Extended ==> msg.id <= ID_EXT_MASK
    ensures var f := TxStaging(msg, stg);
      IsValid(f) && TxRequested(f)
      && Widen(f.mctrl) & 0xF == (msg.len as bv32) & 0xF
      && (f.arb2 & ARB2_XTD != 0 <==> msg.format == Extended)
      && (f.arb2 & ARB2_DIR != 0 <==> msg.kind == Data)
      && StoredId(f) == msg.id & (if msg.format == Extended then ID_EXT_MASK else ID_STD_MASK)
      && f.da1 == PackBytes(msg.data[0], msg.data[1]) && f.da2 == PackBytes(msg.data[2], msg.data[3])
      && f.db1 == PackBytes(msg.data[4], msg.data[5]) && f.db2 == PackBytes(msg.data[6], msg.data[7])
  {
    var f := TxStaging(msg, stg);
    var direction: bv32 := if msg.kind == Data then 0x2000 else 0;
    if msg.format == Extended {
      assert (msg.id >> 16) & 0x1FFFF == (msg.id >> 16) & 0x1FFF;
      ExtendedHalves(msg.id, 0xC000 | direction);
    } else {
      StandardField(msg.id, 0x8000 | direction);
    }
  }

  /** What can_read gives back for a frame can_write staged: the same
      payload bytes, the length code cut to 4 bits (not clamped to 8), and
      the same format. */
  lemma PayloadRoundTrip(msg: CanMessage, stg: MsgObj)
    ensures var r := RxDecode(TxStaging(msg, stg));
      r.data == msg.data && r.len == msg.len & 0xF && r.format == msg.format
  {
    var f := TxStaging(msg, stg);
    BytesRoundTrip(msg.data[0], msg.data[1]);
    BytesRoundTrip(msg.data[2], msg.data[3]);
    BytesRoundTrip(msg.data[4], msg.data[5]);
    BytesRoundTrip(msg.data[6], msg.data[7]);
    assert RxDecode(f).data == msg.data;
  }

  /** A standard identifier comes back cut to its 11 bits; the type comes
      back inverted, since can_write sets DIR for data frames while can_read
      reads DIR as "remote". */
  lemma StandardReadBack(msg: CanMessage, stg: MsgObj)
    requires msg.format == Standard
    ensures var r := RxDecode(TxStaging(msg, stg));
      r.id == msg.id & ID_STD_MASK && r.kind == Flip(msg.kind)
  {
  }

  /** An extended identifier comes back with its halves exchanged and each
      cut to 13 bits: can_read takes ARB1's low 13 bits as the high half and
      ARB2's as the low half, the reverse of what can_write stores. The type
      comes back inverted as for standard frames. */
  lemma ExtendedReadBack(msg: CanMessage, stg: MsgObj)
    requires msg.format == Extended && msg.id <= ID_EXT_MASK
    ensures var r := RxDecode(TxStaging(msg, stg));
      r.id == ((msg.id & 0x1FFF) << 16) | (msg.id >> 16) && r.kind == Flip(msg.kind)
  {
  }

  /** So the extended identifier does not survive: 0x0001_0000 reads back as 1. */
  lemma ExtendedIdNotRecovered(stg: MsgObj)
    ensures var msg := CanMessage(0x0001_0000, [0, 0, 0, 0, 0, 0, 0, 0], 0, Extended, Data);
      RxDecode(TxStaging(msg, stg)).id == 1
  {
    ExtendedReadBack(CanMessage(0x0001_0000, [0, 0, 0, 0, 0, 0, 0, 0], 0, Extended, Data), stg);
  }

  /** can_write masks `id >> 16` with 0x1FFFF rather than 0x1FFF, so bit 29
      of an extended identifier lands on DIR: a remote frame with that bit
      set is staged, and sent, as a data frame. */
  lemma ExtendedIdSpillsIntoDir(msg: CanMessage, stg: MsgObj)
    requires msg.format == Extended && msg.id & 0x2000_0000 != 0
    ensures TxStaging(msg, stg).arb2 & ARB2_DIR != 0
  {
  }
}
