/** The bit-timing search of can_api.c (`timing_pts`, `can_speed`).
    A CAN bit lasts `bitwidth = sclk / cclk` controller clocks. The search
    looks for a baud-rate prescaler `brp` and a segment count `bits` with
    `(bits + 3) * (brp + 1) == bitwidth`, trying brp = bitwidth/24 + 1 up to
    bitwidth/4 in increasing order and, for each, bits = 22 down to 1; the
    first pair found is packed, with the table's TSEG1/TSEG2 split of `bits`,
    into the CANBT word. */
module BitTiming {
  import opened Wrappers

  type u32 = x: int | 0 <= x < 0x1_0000_0000

  /** (TSEG1, TSEG2) for each segment count 0..22, the sample point as close
      to 75% as the field widths allow. */
  const TimingPts: seq<(nat, nat)> := [
    (0x0, 0x0), (0x1, 0x0), (0x2, 0x0), (0x3, 0x0), (0x3, 0x1), (0x4, 0x1),
    (0x5, 0x1), (0x6, 0x1), (0x6, 0x2), (0x7, 0x2), (0x8, 0x2), (0x9, 0x2),
    (0x9, 0x3), (0xA, 0x3), (0xB, 0x3), (0xC, 0x3), (0xD, 0x3), (0xD, 0x4),
    (0xE, 0x4), (0xF, 0x4), (0xF, 0x5), (0xF, 0x6), (0xF, 0x7)]

  /** Row `bits` of the table: its two segments add up to `bits`, fit their
      4-bit and 3-bit fields, and TSEG1 is never empty once bits > 0. */
  function TimingPt(bits: nat): (p: (nat, nat))
    requires bits < 23
    ensures p.0 + p.1 == bits
    ensures p.0 < 16 && p.1 < 8
    ensures bits > 0 ==> p.0 > 0
  {
    TimingPts[bits]
  }

  /** A prescaler and segment count that give exactly `bw` clocks per bit. */
  predicate Hits(bw: nat, brp: nat, bits: nat)
  {
    (bits + 3) * (brp + 1) == bw
  }

  /** What the inner loop `for (bits = 22; bits > 0; bits--)` finds for one
      prescaler when started at `top`: the largest hitting count, or 0
      (BitsForSpec). */
  function BitsFor(bw: nat, brp: nat, top: nat): (b: nat)
    ensures b <= top
    decreases top
  {
    if top == 0 then 0
    else if Hits(bw, brp, top) then top
    else BitsFor(bw, brp, top - 1)
  }

  /** BitsFor is a hitting count and no larger count up to `top` hits. */
  lemma {:induction false} BitsForSpec(bw: nat, brp: nat, top: nat)
    ensures var b := BitsFor(bw, brp, top);
      (b > 0 ==> Hits(bw, brp, b)) && (forall k :: b < k <= top ==> !Hits(bw, brp, k))
    decreases top
  {
    if top > 0 && !Hits(bw, brp, top) {
      BitsForSpec(bw, brp, top - 1);
    }
  }

  /** What the outer loop finds once prescalers up to `brp` have been tried:
      the first (prescaler, segments) pair among brp+1 .. bw/4, or None
      (SearchFromSpec). */
  function SearchFrom(bw: nat, brp: nat): (r: Option<(nat, nat)>)
    ensures r.Some? ==> brp < r.value.0 <= bw / 4 && 1 <= r.value.1 <= 22
    decreases bw / 4 - brp
  {
    if brp >= bw / 4 then None
    else
      var bits := BitsFor(bw, brp + 1, 22);
      if bits > 0 then Some((brp + 1, bits)) else SearchFrom(bw, brp + 1)
  }

  /** One pass of the outer loop. */
  lemma SearchStep(bw: nat, brp: nat)
    requires brp < bw / 4
    ensures var bits := BitsFor(bw, brp + 1, 22);
      SearchFrom(bw, brp) == if bits > 0 then Some((brp + 1, bits)) else SearchFrom(bw, brp + 1)
  {
  }

  /** SearchFrom fails exactly when no pair in range hits; otherwise its pair
      hits, no smaller prescaler hits with any count, and no larger count
      hits with its prescaler. */
  lemma {:induction false} SearchFromSpec(bw: nat, brp: nat)
    ensures var r := SearchFrom(bw, brp);
      (r.None? <==> forall p, b :: brp < p <= bw / 4 && 1 <= b <= 22 ==> !Hits(bw, p, b))
      && (r.Some? ==>
            Hits(bw, r.value.0, r.value.1)
            && (forall p, b :: brp < p < r.value.0 && 1 <= b <= 22 ==> !Hits(bw, p, b))
            && (forall b :: r.value.1 < b <= 22 ==> !Hits(bw, r.value.0, b)))
    decreases bw / 4 - brp
  {
    if brp < bw / 4 {
      BitsForSpec(bw, brp + 1, 22);
      if BitsFor(bw, brp + 1, 22) == 0 {
        SearchFromSpec(bw, brp + 1);
      }
    }
  }

  /** The low half of the CANBT word: TSEG2 in bits 14..12, TSEG1 in
      11..8, SJW in 7..6 and BRP in 5..0, each cut to its field
      (can_api.c:331-334). */
  function BtrFields(tseg1: nat, tseg2: nat, sjw: bv8, brp: nat): bv32
    requires tseg1 < 16 && tseg2 < 8
  {
    ((Small(tseg2) & 0x7) << 12) | ((Small(tseg1) & 0xF) << 8)
      | ((sjw as bv32 & 0x3) << 6) | (Small(brp % 0x40) & 0x3F)
  }

  /** The CANBT word with the clock divider from bit 16 up (can_api.c:335). */
  function PackBtr(tseg1: nat, tseg2: nat, sjw: bv8, brp: nat, clkdiv: bv32): bv32
    requires tseg1 < 16 && tseg2 < 8
  {
    BtrFields(tseg1, tseg2, sjw, brp) | (clkdiv << 16)
  }

  /** A small count as a register field. */
  function Small(x: nat): bv32
    requires x < 0x40
  {
    (x as bv8) as bv32
  }

  /** The fields of a CANBT word, as the controller reads them. */
  function BtrBrp(w: bv32): nat { (w & 0x3F) as int }
  function BtrSjw(w: bv32): nat { ((w >> 6) & 0x3) as int }
  function BtrTseg1(w: bv32): nat { ((w >> 8) & 0xF) as int }
  function BtrTseg2(w: bv32): nat { ((w >> 12) & 0x7) as int }

  /** The word `can_speed` returns: 0 when the search fails, and otherwise
      the fields of the pair found, the clock divider being 0. */
  function SpeedWord(sclk: u32, cclk: u32, psjw: bv8): bv32
    requires cclk > 0
  {
    var bw := sclk / cclk;
    match SearchFrom(bw, bw / 24)
    case None => 0
    case Some((brp, bits)) =>
      var tp := TimingPt(bits);
      BtrFields(tp.0, tp.1, psjw, brp)
  }

  /** The inner loop of can_speed: segment counts 22 down to 1 for one
      prescaler; bits is 0 when the loop runs out. */
  method TrySegments(bitwidth: nat, brp: nat) returns (hit: bool, bits: nat)
    ensures bits == BitsFor(bitwidth, brp, 22)
    ensures hit <==> bits > 0
  {
    hit := false;
    bits := 22;
    while bits > 0
      invariant bits <= 22
      invariant BitsFor(bitwidth, brp, 22) == BitsFor(bitwidth, brp, bits)
      decreases bits
    {
      if Hits(bitwidth, brp, bits) {
        hit := true;
        return;
      }
      bits := bits - 1;
    }
  }

  /** can_speed (can_api.c:305-341), with the prescaler held in an unbounded
      variable; see SpeedLoopAsWritten for the 16-bit prescaler of the source. */
  method CanSpeed(sclk: u32, cclk: u32, psjw: bv8) returns (btr: bv32)
    requires cclk > 0
    ensures btr == SpeedWord(sclk, cclk, psjw)
  {
    var bitwidth: nat := sclk / cclk;
    var brp: nat := bitwidth / 0x18;
    ghost var found := SearchFrom(bitwidth, brp);
    var hit := false;
    var bits: nat := 0;
    while !hit && brp < bitwidth / 4
      invariant brp <= bitwidth / 4
      invariant !hit ==> found == SearchFrom(bitwidth, brp)
      invariant hit ==> 1 <= bits <= 22 && found == Some((brp, bits))
      decreases bitwidth / 4 - brp
    {
      SearchStep(bitwidth, brp);
      brp := brp + 1;
      hit, bits := TrySegments(bitwidth, brp);
    }
    var clkdiv: bv32 := 1;
    clkdiv := clkdiv - 1;
    if hit {
      var tp := TimingPt(bits);
      btr := PackBtr(tp.0, tp.1, psjw, brp, clkdiv);
    } else {
      btr := 0;
    }
  }

  lemma FieldsOfPacked(t1: bv32, t2: bv32, sjw: bv8, b: bv32)
    requires t1 < 16 && t2 < 8 && b < 64
    ensures var w := ((t2 & 0x7) << 12) | ((t1 & 0xF) << 8) | ((sjw as bv32 & 0x3) << 6) | (b & 0x3F);
      (w >> 8) & 0xF == t1 && (w >> 12) & 0x7 == t2 && w & 0x3F == b
      && (w >> 6) & 0x3 == sjw as bv32 & 0x3
  {
  }

  lemma SmallToBv(x: nat)
    requires x < 0x40
    ensures Small(x) as int == x
  {
    ByteToBv(x);
    WidenByte(x as bv8);
  }

  lemma ByteToBv(x: nat)
    requires x < 0x40
    ensures (x as bv8) as int == x
  {
  }

  lemma WidenByte(b: bv8)
    ensures (b as bv32) as int == b as int
  {
  }

  /** Decoding packed fields with a prescaler that fits its 6-bit field
      gives back the fields that were packed. */
  lemma PackBtrDecodes(tseg1: nat, tseg2: nat, sjw: bv8, brp: nat)
    requires tseg1 < 16 && tseg2 < 8 && brp < 64
    ensures var w := BtrFields(tseg1, tseg2, sjw, brp);
      BtrTseg1(w) == tseg1 && BtrTseg2(w) == tseg2 && BtrBrp(w) == brp
      && BtrSjw(w) == (sjw as bv32 & 0x3) as int
  {
    Tseg1Field(tseg1, tseg2, sjw, brp);
    Tseg2Field(tseg1, tseg2, sjw, brp);
    BrpField(tseg1, tseg2, sjw, brp);
    SjwField(tseg1, tseg2, sjw, brp);
  }

  lemma Tseg1Field(tseg1: nat, tseg2: nat, sjw: bv8, brp: nat)
    requires tseg1 < 16 && tseg2 < 8 && brp < 64
    ensures BtrTseg1(BtrFields(tseg1, tseg2, sjw, brp)) == tseg1
  {
    FieldsOfPacked(Small(tseg1), Small(tseg2), sjw, Small(brp % 0x40));
    SmallToBv(tseg1);
  }

  lemma Tseg2Field(tseg1: nat, tseg2: nat, sjw: bv8, brp: nat)
    requires tseg1 < 16 && tseg2 < 8 && brp < 64
    ensures BtrTseg2(BtrFields(tseg1, tseg2, sjw, brp)) == tseg2
  {
    FieldsOfPacked(Small(tseg1), Small(tseg2), sjw, Small(brp % 0x40));
    SmallToBv(tseg2);
  }

  /** Only the low six bits of the prescaler reach the BRP field. */
  lemma BrpField(tseg1: nat, tseg2: nat, sjw: bv8, brp: nat)
    requires tseg1 < 16 && tseg2 < 8
    ensures BtrBrp(BtrFields(tseg1, tseg2, sjw, brp)) == brp % 0x40
  {
    FieldsOfPacked(Small(tseg1), Small(tseg2), sjw, Small(brp % 0x40));
    SmallToBv(brp % 0x40);
  }

  lemma SjwField(tseg1: nat, tseg2: nat, sjw: bv8, brp: nat)
    requires tseg1 < 16 && tseg2 < 8 && brp < 64
    ensures BtrSjw(BtrFields(tseg1, tseg2, sjw, brp)) == (sjw as bv32 & 0x3) as int
  {
    FieldsOfPacked(Small(tseg1), Small(tseg2), sjw, Small(brp % 0x40));
  }

  /** can_speed returns 0 exactly when no prescaler in bitwidth/24+1 ..
      bitwidth/4 and no segment count in 1..22 give the bit width. */
  lemma SpeedZeroIffUnsolvable(sclk: u32, cclk: u32, psjw: bv8)
    requires cclk > 0
    ensures var bw := sclk / cclk;
      SpeedWord(sclk, cclk, psjw) == 0 <==>
        forall p, b :: bw / 24 < p <= bw / 4 && 1 <= b <= 22 ==> !Hits(bw, p, b)
  {
    var bw := sclk / cclk;
    var r := SearchFrom(bw, bw / 24);
    SearchFromSpec(bw, bw / 24);
    if r.Some? {
      var tp := TimingPt(r.value.1);
      BtrTseg1Nonzero(tp.0, tp.1, psjw, r.value.0);
    }
  }

  /** The TSEG1 field alone keeps the word nonzero, whatever the prescaler. */
  lemma BtrTseg1Nonzero(tseg1: nat, tseg2: nat, sjw: bv8, brp: nat)
    requires 0 < tseg1 < 16 && tseg2 < 8
    ensures BtrFields(tseg1, tseg2, sjw, brp) != 0
  {
    var t1 := Small(tseg1);
    assert t1 != 0;
    assert ((t1 & 0xF) << 8) != 0;
  }

  lemma FieldsFit(t1: bv32, t2: bv32, sjw: bv8, b: bv32)
    ensures ((t2 & 0x7) << 12) | ((t1 & 0xF) << 8) | ((sjw as bv32 & 0x3) << 6) | (b & 0x3F) < 0x10000
  {
  }

  /** Whatever the search finds, the word fits CANBT: the clock divider
      field, bits 16 and up, is always 0. */
  lemma SpeedWordFitsBt(sclk: u32, cclk: u32, psjw: bv8)
    requires cclk > 0
    ensures SpeedWord(sclk, cclk, psjw) < 0x10000
  {
    var bw := sclk / cclk;
    var r := SearchFrom(bw, bw / 24);
    if r.Some? {
      var tp := TimingPt(r.value.1);
      FieldsFit(Small(tp.0), Small(tp.1), psjw, Small(r.value.0 % 0x40));
    }
  }

  /** When the search hits with a prescaler that fits the 6-bit BRP field,
      the word is nonzero, has clock divider 0, and its fields give back the
      bit width: (TSEG1 + TSEG2 + 3) * (BRP + 1) == sclk / cclk. */
  lemma SpeedWordDecodes(sclk: u32, cclk: u32, psjw: bv8)
    requires cclk > 0
    requires var bw := sclk / cclk; var r := SearchFrom(bw, bw / 24); r.Some? && r.value.0 < 64
    ensures var w := SpeedWord(sclk, cclk, psjw);
      w != 0 && w < 0x10000
      && (BtrTseg1(w) + BtrTseg2(w) + 3) * (BtrBrp(w) + 1) == sclk / cclk
  {
    var bw := sclk / cclk;
    var r := SearchFrom(bw, bw / 24);
    var brp, bits := r.value.0, r.value.1;
    var tp := TimingPt(bits);
    SpeedWordOfPair(sclk, cclk, psjw, brp, bits);
    SpeedWordFitsBt(sclk, cclk, psjw);
    BtrTseg1Nonzero(tp.0, tp.1, psjw, brp);
    PackBtrDecodes(tp.0, tp.1, psjw, brp);
    SearchFromSpec(bw, bw / 24);
    var w := SpeedWord(sclk, cclk, psjw);
    DecodedWidth(BtrTseg1(w), BtrTseg2(w), BtrBrp(w), bw, brp, bits);
  }

  lemma DecodedWidth(t1: nat, t2: nat, b: nat, bw: nat, brp: nat, bits: nat)
    requires t1 + t2 == bits && b == brp && Hits(bw, brp, bits)
    ensures (t1 + t2 + 3) * (b + 1) == bw
  {
  }

  /** The word can_speed returns once the search has found (brp, bits). */
  lemma SpeedWordOfPair(sclk: u32, cclk: u32, psjw: bv8, brp: nat, bits: nat)
    requires cclk > 0 && bits < 23
    requires SearchFrom(sclk / cclk, sclk / cclk / 24) == Some((brp, bits))
    ensures SpeedWord(sclk, cclk, psjw) == BtrFields(TimingPt(bits).0, TimingPt(bits).1, psjw, brp)
  {
  }

  /** 12 MHz over 100 kbit/s: bit width 120, prescaler 7, 12 segments
      (TSEG1 9, TSEG2 3), SJW 1: the word 0x3947. */
  lemma SpeedAt12MHz100k()
    ensures SpeedWord(12_000_000, 100_000, 1) == 0x3947
  {
    BitsForSpec(120, 6, 22);
    assert BitsFor(120, 6, 22) == 0;
    BitsForSpec(120, 7, 22);
    assert Hits(120, 7, 12);
    assert BitsFor(120, 7, 22) == 12;
    assert SearchFrom(120, 5) == Some((7, 12));
    assert 12_000_000 / 100_000 == 120 && 120 / 24 == 5;
    SpeedWordOfPair(12_000_000, 100_000, 1, 7, 12);
    assert TimingPt(12) == (9, 3);
    assert Small(9) == 9 && Small(3) == 3 && Small(7 % 0x40) == 7;
    assert BtrFields(9, 3, 1, 7) == 0x3947;
  }

  /** With a prescaler past the 6-bit BRP field the word does not describe
      the requested bit: 72 MHz over 48 160 bit/s gives bit width 1495, found
      as prescaler 64 with 20 segments, but the packed BRP field holds
      64 & 0x3F == 0, a bit of (15 + 5 + 3) * 1 == 23 clocks. */
  lemma SpeedWordTruncatesPrescaler()
    ensures SearchFrom(1495, 62) == Some((64, 20))
    ensures var w := SpeedWord(72_000_000, 48_160, 1);
      BtrBrp(w) == 0 && (BtrTseg1(w) + BtrTseg2(w) + 3) * (BtrBrp(w) + 1) == 23
  {
    BitsForSpec(1495, 63, 22);
    assert BitsFor(1495, 63, 22) == 0;
    BitsForSpec(1495, 64, 22);
    assert Hits(1495, 64, 20);
    assert BitsFor(1495, 64, 22) == 20;
    assert SearchFrom(1495, 62) == Some((64, 20));
    assert 72_000_000 / 48_160 == 1495 && 1495 / 24 == 62;
    SpeedWordOfPair(72_000_000, 48_160, 1, 64, 20);
    assert TimingPt(20) == (15, 5);
    assert 64 % 0x40 == 0;
    assert BtrFields(15, 5, 1, 64) == BtrFields(15, 5, 1, 0);
    PackBtrDecodes(15, 5, 1, 0);
    var w := BtrFields(15, 5, 1, 0);
    assert BtrBrp(w) == 0 && BtrTseg1(w) == 15 && BtrTseg2(w) == 5;
  }

  /** The outer loop exactly as the source writes it. `brp` is a uint16_t
      (can_api.c:308), so `brp = bitwidth / 0x18` and `brp++` keep only its
      low 16 bits. The loop either stops (with the pair it hit, or None when
      the guard failed first) or is StillRunning after `fuel` passes. */
  datatype LoopOutcome = Stopped(found: Option<(nat, nat)>) | StillRunning

  function SpeedLoopAsWritten(bw: nat, brp: nat, fuel: nat): LoopOutcome
    requires brp < 0x10000
    decreases fuel
  {
    if !(brp < bw / 4) then Stopped(None)
    else if fuel == 0 then StillRunning
    else
      var next := (brp + 1) % 0x10000;
      var bits := BitsFor(bw, next, 22);
      if bits > 0 then Stopped(Some((next, bits))) else SpeedLoopAsWritten(bw, next, fuel - 1)
  }

  /** Below 4 * 0x10000 clocks per bit the 16-bit prescaler never wraps, and
      the loop as written stops where SearchFrom says. */
  lemma {:induction false} SpeedLoopAgreesBelowWrap(bw: nat, brp: nat)
    requires bw < 4 * 0x10000 && brp <= bw / 4
    ensures SpeedLoopAsWritten(bw, brp, bw / 4 - brp) == Stopped(SearchFrom(bw, brp))
    decreases bw / 4 - brp
  {
    var top := bw / 4;
    if brp < top {
      var next := brp + 1;
      assert next < 0x10000 && next % 0x10000 == next;
      SearchStep(bw, brp);
      var bits := BitsFor(bw, next, 22);
      if bits == 0 {
        SpeedLoopAgreesBelowWrap(bw, next);
        assert SpeedLoopAsWritten(bw, brp, top - brp) == SpeedLoopAsWritten(bw, next, top - next);
      }
    }
  }

  lemma {:induction false} NoSegmentsFit(bw: nat, brp: nat, top: nat)
    requires brp < 0x10000 && top <= 22 && bw > 25 * 0x10000
    ensures BitsFor(bw, brp, top) == 0
    decreases top
  {
    if top > 0 {
      ProductBound(top, brp);
      NoSegmentsFit(bw, brp, top - 1);
    }
  }

  lemma ProductBound(k: nat, brp: nat)
    requires k <= 22 && brp < 0x10000
    ensures (k + 3) * (brp + 1) <= 25 * 0x10000
  {
    assert (k + 3) * (brp + 1) <= 25 * (brp + 1);
  }

  /** Above 25 * 0x10000 clocks per bit no 16-bit prescaler can hit and the
      guard `brp < bitwidth / 4` always holds: the loop never stops. */
  lemma {:induction false} SpeedLoopNeverStops(bw: nat, brp: nat, fuel: nat)
    requires bw > 25 * 0x10000 && brp < 0x10000
    ensures SpeedLoopAsWritten(bw, brp, fuel) == StillRunning
    decreases fuel
  {
    if fuel > 0 {
      var next := (brp + 1) % 0x10000;
      NoSegmentsFit(bw, next, 22);
      SpeedLoopNeverStops(bw, next, fuel - 1);
    }
  }

  /** can_frequency(obj, 40) on a 72 MHz core: bit width 1 800 000, and the
      source's search runs forever. */
  lemma SpeedHangsAt72MHz40Bps(fuel: nat)
    ensures SpeedLoopAsWritten(1_800_000, (1_800_000 / 24) % 0x10000, fuel) == StillRunning
  {
    SpeedLoopNeverStops(1_800_000, (1_800_000 / 24) % 0x10000, fuel);
  }

  /** Between 4 * 0x10000 and 25 * 0x10000 clocks per bit the loop as
      written does stop, but not always where SearchFrom does. At 1 638 375
      clocks per bit (25 * 0xFFFF) it starts from the wrapped prescaler 2729
      and stops at prescaler 65534 with 22 segments (WrapBandSearch gives
      the unbounded search's answer). */
  lemma WrapBandLoop()
    ensures (1_638_375 / 24) % 0x10000 == 2729
    ensures SpeedLoopAsWritten(1_638_375, 2729, 62_805) == Stopped(Some((65_534, 22)))
  {
    WrappedLoopReaches(2729, 62_805);
  }

  /** The pair the loop as written stops at gives BRP field 62. */
  lemma WrapBandLoopBrp()
    ensures BtrBrp(BtrFields(TimingPt(22).0, TimingPt(22).1, 1, 65_534)) == 62
  {
    assert 65_534 % 0x40 == 62;
    BrpField(TimingPt(22).0, TimingPt(22).1, 1, 65_534);
  }

  /** At the same bit width the unbounded search finds prescaler 96374 with
      14 segments. */
  lemma WrapBandSearch()
    ensures SearchFrom(1_638_375, 1_638_375 / 24) == Some((96_374, 14))
  {
    assert 1_638_375 / 24 == 68_265;
    SearchReaches(68_265);
  }

  /** So CanSpeed's word at that bit width (a 1 638 375 Hz clock over
      1 bit/s, say) carries BRP field 54, not the 62 of the loop as
      written. */
  lemma WrapBandSpeedBrp()
    ensures BtrBrp(SpeedWord(1_638_375, 1, 1)) == 54
  {
    assert 96_374 % 0x40 == 54;
    WrapBandSearch();
    assert 1_638_375 / 1 == 1_638_375;
    SpeedWordBrp(1_638_375, 1, 1, 96_374, 14);
  }

  /** The BRP field of the speed word is the low six bits of the prescaler
      the search found. */
  lemma SpeedWordBrp(sclk: u32, cclk: u32, psjw: bv8, brp: nat, bits: nat)
    requires cclk > 0 && bits < 23
    requires SearchFrom(sclk / cclk, sclk / cclk / 24) == Some((brp, bits))
    ensures BtrBrp(SpeedWord(sclk, cclk, psjw)) == brp % 0x40
  {
    SpeedWordOfPair(sclk, cclk, psjw, brp, bits);
    BrpField(TimingPt(bits).0, TimingPt(bits).1, psjw, brp);
  }

  /** From any prescaler below 65534 the 16-bit loop at 1 638 375 clocks
      per bit runs on until prescaler 65534, where 22 segments hit. */
  lemma {:induction false} WrappedLoopReaches(brp: nat, fuel: nat)
    requires brp < 65_534 && fuel >= 65_534 - brp
    ensures SpeedLoopAsWritten(1_638_375, brp, fuel) == Stopped(Some((65_534, 22)))
    decreases 65_534 - brp
  {
    var next := brp + 1;
    assert next % 0x10000 == next;
    if next < 65_534 {
      NoSegmentsBelow(1_638_375, next, 22);
      WrappedLoopReaches(next, fuel - 1);
    } else {
      assert Hits(1_638_375, 65_534, 22);
    }
  }

  /** From any prescaler in 68265 .. 96373 the search at 1 638 375 clocks
      per bit finds prescaler 96374 with 14 segments. */
  lemma {:induction false} SearchReaches(brp: nat)
    requires 68_265 <= brp < 96_374
    ensures SearchFrom(1_638_375, brp) == Some((96_374, 14))
    decreases 96_374 - brp
  {
    SearchStep(1_638_375, brp);
    if brp + 1 < 96_374 {
      NoSegmentsBetween(brp + 1, 22);
      SearchReaches(brp + 1);
    } else {
      BitsForSpec(1_638_375, 96_374, 22);
      assert Hits(1_638_375, 96_374, 14);
    }
  }

  /** No segment count hits once 25 * (brp + 1) is below the bit width. */
  lemma {:induction false} NoSegmentsBelow(bw: nat, brp: nat, top: nat)
    requires top <= 22 && 25 * (brp + 1) < bw
    ensures BitsFor(bw, brp, top) == 0
    decreases top
  {
    if top > 0 {
      assert (top + 3) * (brp + 1) <= 25 * (brp + 1);
      NoSegmentsBelow(bw, brp, top - 1);
    }
  }

  /** Between the prescalers 68266 and 96373 nothing divides 1 638 375
      with a segment count in range. */
  lemma {:induction false} NoSegmentsBetween(brp: nat, top: nat)
    requires 68_265 < brp < 96_374 && top <= 22
    ensures BitsFor(1_638_375, brp, top) == 0
    decreases top
  {
    if top > 0 {
      MissBetween(brp, top);
      NoSegmentsBetween(brp, top - 1);
    }
  }

  lemma MissBetween(brp: nat, bits: nat)
    requires 68_265 < brp < 96_374 && 1 <= bits <= 22
    ensures !Hits(1_638_375, brp, bits)
  {
    if bits <= 14 {
      assert (bits + 3) * (brp + 1) <= 17 * (brp + 1);
    } else if bits == 15 {
      assert 18 * (brp + 1) != 1_638_375;
    } else if bits == 16 {
      assert 19 * (brp + 1) != 1_638_375;
    } else if bits == 17 {
      assert 20 * (brp + 1) != 1_638_375;
    } else if bits == 18 {
      assert 21 * (brp + 1) != 1_638_375;
    } else if bits == 19 {
      assert 22 * (brp + 1) != 1_638_375;
    } else if bits == 20 {
      assert 23 * (brp + 1) != 1_638_375;
    } else if bits == 21 {
      assert 24 * (brp + 1) != 1_638_375;
    } else {
      assert 25 * (brp + 1) != 1_638_375;
    }
  }
}
