/** Which rates a station supports, and how a rate index travels through the hardware
    descriptor and back. */
module HtCaps {
  import opened RateGroups

  type Mask = set<int>

  const HT_MASK: Mask := {0, 1, 2, 3, 4, 5, 6, 7}
  const FULL_MASK: Mask := {0, 1, 2, 3, 4, 5, 6, 7, 8, 9}

  /** Valid VHT slots for a width, a number of streams and a two-bit capability code. */
  function ValidVhtRates(w: Width, nss: nat, code: nat): Mask {
    var drop: Mask :=
      match w
      case W20 => if nss != 3 && nss != 6 then {9} else {}
      case W80 => if nss == 3 || nss == 7 then {6} else if nss == 6 then {9} else {}
      case W40 => {};
    if code == 0 then FULL_MASK - (drop + {8, 9})
    else if code == 1 then FULL_MASK - (drop + {9})
    else if code == 2 then FULL_MASK - drop
    else {}
  }

  datatype Caps = Caps(vhtSupported: bool, vhtMapUsed: bool, vhtCode: nat, bandwidth: nat,
                       sgi20: bool, sgi40: bool, sgi80: bool, band2Ghz: bool, cck: Mask)

  function WidthNumber(w: Width): nat {
    match w
    case W20 => 0
    case W40 => 1
    case W80 => 2
  }

  /** Mask of one group for a station of this driver, whose HT mask is always 0xff. */
  function GroupMask(c: Caps, g: nat): Mask {
    var w := WidthOf(g);
    if g == CCK then (if c.band2Ghz then c.cck * {0, 1, 2, 3} else {})
    else if w != W80 && ShortGi(g) && !(if w == W40 then c.sgi40 else c.sgi20) then {}
    else if w == W40 && c.bandwidth < 1 then {}
    else if IsHt(g) then (if c.vhtSupported && c.vhtMapUsed then {} else HT_MASK)
    else if !c.vhtSupported then {}
    else if w == W80 && ((ShortGi(g) && !c.sgi80) || c.bandwidth < 2) then {}
    else if c.bandwidth < WidthNumber(w) then {}
    else ValidVhtRates(w, 1, c.vhtCode)
  }

  /** The HT groups and CCK of a station: HT without VHT only, short guard intervals and widths
      as announced, CCK at 2.4 GHz. */
  lemma HtGroups(c: Caps)
    ensures var ht := !(c.vhtSupported && c.vhtMapUsed);
            && GroupMask(c, 0) == (if ht then HT_MASK else {})
            && GroupMask(c, 1) == (if ht && c.sgi20 then HT_MASK else {})
            && GroupMask(c, 2) == (if ht && c.bandwidth >= 1 then HT_MASK else {})
            && GroupMask(c, 3) == if ht && c.bandwidth >= 1 && c.sgi40 then HT_MASK else {}
    ensures GroupMask(c, 4) == set s | s in c.cck && 0 <= s <= 3 && c.band2Ghz
  {
  }

  /** Highest slot of a VHT group with one stream; 9 does not exist at 20 MHz. */
  function TopSlot(c: Caps, wide: bool): int {
    if c.vhtCode == 0 then 7 else if c.vhtCode == 1 || !wide then 8 else 9
  }

  lemma VhtGroups(c: Caps)
    ensures var on := c.vhtSupported && c.vhtCode <= 2;
            && (forall s :: s in GroupMask(c, 5) <==> on && 0 <= s <= TopSlot(c, false))
            && (forall s :: s in GroupMask(c, 6) <==> on && c.sgi20 && 0 <= s <= TopSlot(c, false))
            && (forall s :: s in GroupMask(c, 7) <==> on && c.bandwidth >= 1 && 0 <= s <= TopSlot(c, true))
            && (forall s :: s in GroupMask(c, 8) <==> on && c.bandwidth >= 1 && c.sgi40 && 0 <= s <= TopSlot(c, true))
            && (forall s :: s in GroupMask(c, 9) <==> on && c.bandwidth >= 2 && 0 <= s <= TopSlot(c, true))
            && (forall s :: s in GroupMask(c, 10) <==> on && c.bandwidth >= 2 && c.sgi80 && 0 <= s <= TopSlot(c, true))
  {
    VhtSlots(c, W20);
    VhtSlots(c, W40);
    VhtSlots(c, W80);
    hide ValidVhtRates;
  }

  lemma VhtSlots(c: Caps, w: Width)
    ensures forall s :: s in ValidVhtRates(w, 1, c.vhtCode) <==> c.vhtCode <= 2 && 0 <= s <= TopSlot(c, w != W20)
  {
  }

  /** What every supported mask of a non-CCK group looks like: slots 0..7 at least, without
      gaps, and no slot the duration table lacks. */
  ghost predicate MaskOk(g: nat, m: Mask) {
    && (forall v :: v in m ==> 0 <= v < SlotCount(g))
    && (g != CCK && m != {} ==> HT_MASK <= m)
    && (g != CCK ==> forall u, v :: v in m && 0 <= u <= v ==> u in m)
    && (g == CCK ==> m <= {0, 1, 2, 3})
  }

  lemma VhtMaskOk(w: Width, g: nat, code: nat)
    requires IsVht(g)
    ensures MaskOk(g, ValidVhtRates(w, 1, code))
  {
    var m := ValidVhtRates(w, 1, code);
    assert m == {} || m == HT_MASK || m == HT_MASK + {8} || m == FULL_MASK;
    forall u, v | v in m && 0 <= u <= v ensures u in m { }
  }

  lemma GroupMaskOk(c: Caps, g: nat)
    requires g < GROUPS
    ensures MaskOk(g, GroupMask(c, g))
  {
    var m := GroupMask(c, g);
    if g != CCK && m != {} {
      if IsHt(g) {
        assert m == HT_MASK;
        forall u, v | v in m && 0 <= u <= v ensures u in m { }
      } else {
        VhtMaskOk(WidthOf(g), g, c.vhtCode);
      }
    }
  }

  ghost predicate CapsOk(masks: seq<Mask>) {
    && |masks| == GROUPS
    && (forall g :: 0 <= g < GROUPS ==> MaskOk(g, masks[g]))
    && (exists g :: 0 <= g < GROUPS && g != CCK && masks[g] != {})
  }

  predicate Supp(masks: seq<Mask>, i: RateIndex)
    requires |masks| == GROUPS
  {
    Slot(i) in masks[Group(i)]
  }

  // ----- rate codes

  datatype Flags = Flags(mcs: bool, vht: bool, sgi: bool, w40: bool, w80: bool)

  datatype TxSlot = TxSlot(idx: int, count: nat, flags: Flags)

  const NO_FLAGS: Flags := Flags(false, false, false, false, false)

  function GroupFlags(g: nat): Flags {
    if g == CCK then NO_FLAGS
    else Flags(IsHt(g), IsVht(g), ShortGi(g), WidthOf(g) == W40, WidthOf(g) == W80)
  }

  /** Hardware index written for a rate. */
  function Encode(i: RateIndex, cckRates: seq<nat>): int
    requires |cckRates| == 4
  {
    var g := Group(i);
    if g == CCK then cckRates[Slot(i) % 4]
    else if IsVht(g) then (Streams(g) - 1) * 16 + Slot(i) % 16
    else Slot(i) + (Streams(g) - 1) * 8
  }

  function CckSlot(idx: int, cckRates: seq<nat>, j: nat): (r: nat)
    requires |cckRates| == 4 && j <= 4
    ensures j <= r <= 4
    decreases 4 - j
  {
    if j == 4 || idx == cckRates[j] then j else CckSlot(idx, cckRates, j + 1)
  }

  predicate Unflagged(s: TxSlot) { !s.flags.mcs && !s.flags.vht }

  function Num(b: bool): nat { if b then 1 else 0 }

  /** Rate a status report refers to; may lie outside the table for a malformed report. An
      unused slot carries no flags and refers to an entry behind the CCK rates. */
  function Decode(s: TxSlot, masks: seq<Mask>, cckRates: seq<nat>): nat
    requires |masks| == GROUPS && |cckRates| == 4 && (s.idx >= 0 || Unflagged(s))
  {
    if s.flags.mcs then
      (2 * Num(s.flags.w40) + Num(s.flags.sgi) + s.idx / 8) * SLOTS + s.idx % 8
    else if s.flags.vht then
      (VHT0 + 2 * (Num(s.flags.w40) + 2 * Num(s.flags.w80)) + Num(s.flags.sgi) + s.idx / 16) * SLOTS + s.idx % 16
    else
      var j := CckSlot(s.idx, cckRates, 0);
      CCK * SLOTS + if j in masks[CCK] then j else j + 4
  }

  ghost predicate Distinct(xs: seq<nat>) { forall a, b :: 0 <= a < b < |xs| ==> xs[a] != xs[b] }

  /** Round trip: a report about a supported rate is credited to exactly that rate. */
  lemma EncodeDecode(i: RateIndex, count: nat, masks: seq<Mask>, cckRates: seq<nat>)
    requires CapsOk(masks) && |cckRates| == 4 && Distinct(cckRates) && Supp(masks, i)
    ensures Encode(i, cckRates) >= 0
    ensures Decode(TxSlot(Encode(i, cckRates), count, GroupFlags(Group(i))), masks, cckRates) == i
  {
    var g, s := Group(i), Slot(i);
    assert MaskOk(g, masks[g]);
    hide CapsOk, MaskOk;
    if g == CCK {
      CckFound(s, cckRates, 0);
    } else if IsHt(g) {
      HtIndex(g, s);
    } else {
      VhtIndex(g, s);
    }
  }

  /** Group number from its flags. */
  lemma HtIndex(g: nat, s: nat)
    requires IsHt(g) && s < 8
    ensures 2 * Num(WidthOf(g) == W40) + Num(ShortGi(g)) + s / 8 == g && s % 8 == s
  {
  }

  lemma VhtIndex(g: nat, s: nat)
    requires IsVht(g) && g < GROUPS && s < SLOTS
    ensures VHT0 + 2 * (Num(WidthOf(g) == W40) + 2 * Num(WidthOf(g) == W80)) + Num(ShortGi(g)) + s / 16 == g
    ensures s % 16 == s
  {
  }

  lemma {:induction false} CckFound(s: nat, cckRates: seq<nat>, j: nat)
    requires |cckRates| == 4 && Distinct(cckRates) && j <= s < 4
    ensures CckSlot(cckRates[s], cckRates, j) == s
    decreases 4 - j
  {
    if j < s { CckFound(s, cckRates, j + 1); }
  }
}
