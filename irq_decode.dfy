/** The decision can_irq makes on each interrupt (can_api.c:198-234): which
    notifications it hands to the registered handler, in which order, and
    what it clears. The register accesses around it are in the CanApi
    module; here it is a function of the interrupt identifier, the status
    word and the two enable flags. */
module IrqDecode {
  import opened CanRegs

  /** The notification kinds of the mbed CAN interface, in its order. */
  datatype CanIrqType = IrqRx | IrqTx | IrqError | IrqOverrun | IrqWakeup | IrqPassive | IrqArb | IrqBus | IrqReady

  /** One call of the registered handler: the identifier given to
      can_irq_init, and the kind of notification. */
  datatype IrqEvent = IrqEvent(id: bv32, kind: CanIrqType)

  /** The status bit behind each status-change notification; 0 for kinds a
      status change never raises. */
  function StatusBit(k: CanIrqType): bv16
  {
    match k
    case IrqBus => STAT_BOFF
    case IrqError => STAT_EWARN
    case IrqPassive => STAT_EPASS
    case IrqRx => STAT_RXOK
    case IrqTx => STAT_TXOK
    case _ => 0
  }

  /** Position of a status-change notification in the fixed delivery order:
      bus-off, warning, passive, received, transmitted. */
  function StatusRank(k: CanIrqType): nat
  {
    match k
    case IrqBus => 0
    case IrqError => 1
    case IrqPassive => 2
    case IrqRx => 3
    case IrqTx => 4
    case _ => 5
  }

  /** The status-change kind delivered in position `r` of the order. */
  function KindAt(r: nat): (k: CanIrqType)
    requires r < 5
    ensures StatusRank(k) == r
  {
    [IrqBus, IrqError, IrqPassive, IrqRx, IrqTx][r]
  }

  /** The five status bits, in delivery order. */
  function StatusFlags(status: bv16): (f: seq<bool>)
    ensures |f| == 5
    ensures forall k :: StatusRank(k) < 5 ==> f[StatusRank(k)] == (status & StatusBit(k) != 0)
  {
    [status & STAT_BOFF != 0, status & STAT_EWARN != 0, status & STAT_EPASS != 0,
     status & STAT_RXOK != 0, status & STAT_TXOK != 0]
  }

  /** The status-change notifications from position `from` of the order on:
      one per set flag, in order. */
  function Raised(flags: seq<bool>, from: nat): seq<CanIrqType>
    requires |flags| == 5 && from <= 5
    decreases 5 - from
  {
    if from == 5 then []
    else (if flags[from] then [KindAt(from)] else []) + Raised(flags, from + 1)
  }

  /** Raised holds the kinds of the set flags from `from` on, each once, in
      increasing rank. */
  lemma {:induction false} RaisedInOrder(flags: seq<bool>, from: nat)
    requires |flags| == 5 && from <= 5
    ensures var ks := Raised(flags, from);
      |ks| <= 5 - from
      && (forall k :: k in ks <==> from <= StatusRank(k) < 5 && flags[StatusRank(k)])
      && (forall i, j :: 0 <= i < j < |ks| ==> from <= StatusRank(ks[i]) < StatusRank(ks[j]))
    decreases 5 - from
  {
    if from < 5 {
      RaisedInOrder(flags, from + 1);
      var head: seq<CanIrqType> := if flags[from] then [KindAt(from)] else [];
      var rest := Raised(flags, from + 1);
      assert Raised(flags, from) == head + rest;
      forall k
        ensures k in head + rest <==> from <= StatusRank(k) < 5 && flags[StatusRank(k)]
      {
        if StatusRank(k) == from && from < 5 {
          assert k == KindAt(from);
        }
      }
    }
  }

  /** The notifications of a status-change interrupt (identifier 0x8000):
      bus-off, warning, passive, received, transmitted, each when its status
      bit is set, in that order and no kind twice. */
  function StatusEvents(status: bv16): (ks: seq<CanIrqType>)
    ensures |ks| <= 5
    ensures forall k :: k in ks <==> StatusRank(k) < 5 && status & StatusBit(k) != 0
    ensures forall i, j :: 0 <= i < j < |ks| ==> StatusRank(ks[i]) < StatusRank(ks[j])
  {
    RaisedInOrder(StatusFlags(status), 0);
    Raised(StatusFlags(status), 0)
  }

  /** CANSTAT after `if (cond) CANSTAT &= ~bit;`. */
  function Acknowledged(stat: bv16, cond: bool, bit: bv16): bv16
  {
    if cond then stat & !bit else stat
  }

  /** CANSTAT after a status-change interrupt: RXOK cleared when it was set,
      then TXOK cleared when it was set in the word first read. */
  function StatusAfterIrq(status: bv16): bv16
  {
    Acknowledged(Acknowledged(status, status & STAT_RXOK != 0, STAT_RXOK), status & STAT_TXOK != 0, STAT_TXOK)
  }

  /** A status-change interrupt leaves RXOK and TXOK clear and every other
      CANSTAT bit as it was. */
  lemma StatusAfterIrqBits(status: bv16)
    ensures var r := StatusAfterIrq(status);
      r & STAT_RXOK == 0 && r & STAT_TXOK == 0
      && r | STAT_RXOK | STAT_TXOK == status | STAT_RXOK | STAT_TXOK
  {
  }

  /** Receive objects raise identifiers 1..31, the transmit object 32. */
  predicate IsRxObjectId(intid: bv16)
  {
    1 <= intid <= 31
  }

  predicate IsTxObjectId(intid: bv16)
  {
    31 < intid <= 32
  }

  const STATUS_INTID: bv16 := 0x8000

  /** The notifications one can_irq call delivers. A message-object interrupt
      delivers one notification of its class when that class is enabled; a
      status change delivers StatusEvents whatever the enable flags say; any
      other identifier delivers nothing. */
  function IrqKinds(intid: bv16, status: bv16, rxOn: bool, txOn: bool): (ks: seq<CanIrqType>)
    ensures |ks| <= 5
    ensures IsRxObjectId(intid) ==> ks == (if rxOn then [IrqRx] else [])
    ensures IsTxObjectId(intid) ==> ks == (if txOn then [IrqTx] else [])
    ensures intid == STATUS_INTID ==> ks == StatusEvents(status)
    ensures ks != [] ==> IsRxObjectId(intid) || IsTxObjectId(intid) || intid == STATUS_INTID
  {
    if IsRxObjectId(intid) then (if rxOn then [IrqRx] else [])
    else if IsTxObjectId(intid) then (if txOn then [IrqTx] else [])
    else if intid == STATUS_INTID then StatusEvents(status)
    else []
  }

  /** The handler calls for a list of kinds, all carrying the same identifier. */
  function Tagged(id: bv32, ks: seq<CanIrqType>): (es: seq<IrqEvent>)
    ensures |es| == |ks|
    ensures forall i :: 0 <= i < |ks| ==> es[i] == IrqEvent(id, ks[i])
  {
    seq(|ks|, i requires 0 <= i < |ks| => IrqEvent(id, ks[i]))
  }

  lemma {:induction false} RaisedUnfold(f: seq<bool>)
    requires |f| == 5
    ensures Raised(f, 0) ==
      (if f[0] then [IrqBus] else []) + (if f[1] then [IrqError] else [])
      + (if f[2] then [IrqPassive] else []) + (if f[3] then [IrqRx] else [])
      + (if f[4] then [IrqTx] else [])
  {
    var a: seq<CanIrqType> := if f[0] then [IrqBus] else [];
    var b: seq<CanIrqType> := if f[1] then [IrqError] else [];
    var c: seq<CanIrqType> := if f[2] then [IrqPassive] else [];
    var d: seq<CanIrqType> := if f[3] then [IrqRx] else [];
    var e: seq<CanIrqType> := if f[4] then [IrqTx] else [];
    assert Raised(f, 4) == e + [] == e;
    assert Raised(f, 3) == d + e;
    assert Raised(f, 2) == c + (d + e);
    assert Raised(f, 1) == b + (c + (d + e));
    assert Raised(f, 0) == a + (b + (c + (d + e)));
    Reassociate(a, b, c, d, e);
  }

  lemma Reassociate<T>(a: seq<T>, b: seq<T>, c: seq<T>, d: seq<T>, e: seq<T>)
    ensures a + (b + (c + (d + e))) == a + b + c + d + e
  {
    assert c + (d + e) == c + d + e;
    assert b + (c + d + e) == b + c + d + e;
  }

  /** StatusEvents is can_irq's five status tests, in their order
      (can_api.c:216-232). */
  lemma StatusEventsUnfold(status: bv16)
    ensures StatusEvents(status) ==
      (if status & STAT_BOFF != 0 then [IrqBus] else [])
      + (if status & STAT_EWARN != 0 then [IrqError] else [])
      + (if status & STAT_EPASS != 0 then [IrqPassive] else [])
      + (if status & STAT_RXOK != 0 then [IrqRx] else [])
      + (if status & STAT_TXOK != 0 then [IrqTx] else [])
  {
    RaisedUnfold(StatusFlags(status));
  }

  /** The handler call a guarded `irq_handler(id, k)` makes: one when
      `cond` holds, none otherwise. */
  function Notified(id: bv32, cond: bool, k: CanIrqType): (es: seq<IrqEvent>)
    ensures es == Tagged(id, if cond then [k] else [])
  {
    if cond then [IrqEvent(id, k)] else []
  }

  /** Handler calls for consecutive lists of kinds follow one another. */
  lemma TaggedConcat(id: bv32, a: seq<CanIrqType>, b: seq<CanIrqType>)
    ensures Tagged(id, a + b) == Tagged(id, a) + Tagged(id, b)
  {
    assert forall i :: 0 <= i < |a| + |b| ==> Tagged(id, a + b)[i] == (Tagged(id, a) + Tagged(id, b))[i];
  }

  /** The handler calls of a status change are the five guarded calls of
      can_irq, one after the other. */
  lemma TaggedStatusEvents(id: bv32, status: bv16)
    ensures Tagged(id, StatusEvents(status)) ==
      Notified(id, status & STAT_BOFF != 0, IrqBus)
      + Notified(id, status & STAT_EWARN != 0, IrqError)
      + Notified(id, status & STAT_EPASS != 0, IrqPassive)
      + Notified(id, status & STAT_RXOK != 0, IrqRx)
      + Notified(id, status & STAT_TXOK != 0, IrqTx)
  {
    StatusEventsUnfold(status);
    var k0: seq<CanIrqType> := if status & STAT_BOFF != 0 then [IrqBus] else [];
    var k1: seq<CanIrqType> := if status & STAT_EWARN != 0 then [IrqError] else [];
    var k2: seq<CanIrqType> := if status & STAT_EPASS != 0 then [IrqPassive] else [];
    var k3: seq<CanIrqType> := if status & STAT_RXOK != 0 then [IrqRx] else [];
    var k4: seq<CanIrqType> := if status & STAT_TXOK != 0 then [IrqTx] else [];
    TaggedConcat(id, k0 + k1 + k2 + k3, k4);
    TaggedConcat(id, k0 + k1 + k2, k3);
    TaggedConcat(id, k0 + k1, k2);
    TaggedConcat(id, k0, k1);
  }

  /** Appending five runs of handler calls at once or one after the other
      gives the same log. */
  lemma AppendFive(log: seq<IrqEvent>, a: seq<IrqEvent>, b: seq<IrqEvent>, c: seq<IrqEvent>, d: seq<IrqEvent>, e: seq<IrqEvent>)
    ensures log + (a + b + c + d + e) == log + a + b + c + d + e
  {
    assert log + (a + b + c + d + e) == (log + (a + b + c + d)) + e;
    assert log + (a + b + c + d) == (log + (a + b + c)) + d;
    assert log + (a + b + c) == (log + (a + b)) + c;
    assert log + (a + b) == log + a + b;
  }

  /** Bus-off together with error-warning gives exactly two notifications,
      bus-off first, and leaves the status word as it was. */
  lemma BusOffThenWarning(rxOn: bool, txOn: bool)
    ensures IrqKinds(STATUS_INTID, STAT_BOFF | STAT_EWARN, rxOn, txOn) == [IrqBus, IrqError]
    ensures StatusAfterIrq(STAT_BOFF | STAT_EWARN) == STAT_BOFF | STAT_EWARN
  {
    StatusEventsUnfold(STAT_BOFF | STAT_EWARN);
  }

  /** Every notification of a status change is one of the five status kinds,
      and the received/transmitted ones come only with their status bit. */
  lemma StatusEventsAreStatusKinds(status: bv16, k: CanIrqType)
    requires k in StatusEvents(status)
    ensures StatusRank(k) < 5
    ensures k == IrqRx ==> status & STAT_RXOK != 0
    ensures k == IrqTx ==> status & STAT_TXOK != 0
  {
  }

  /** A status word with none of the five bits set gives no notification and
      keeps CANSTAT as it was. */
  lemma QuietStatus(status: bv16)
    requires status & (STAT_BOFF | STAT_EWARN | STAT_EPASS | STAT_RXOK | STAT_TXOK) == 0
    ensures StatusEvents(status) == []
    ensures StatusAfterIrq(status) == status
  {
  }
}
