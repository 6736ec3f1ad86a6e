/** Specification of the HT controller's steps on plain values: the statistics scan and the
    lists it builds, the published chain, downgrades, clearing rounds and sampling. */
module HtSpec {
  import opened FixedPoint
  import opened RateStatistics
  import opened RateGroups
  import opened FrameDuration
  import opened TopRates
  import opened HtCaps
  import opened HtTables
  import Retransmit
  import S = HtSampler

  const TWENTY_PERCENT: int := 819
  const THIRTY_PERCENT: int := 1228
  const FORTY_PERCENT: int := 1638
  const SEVENTY_PERCENT: int := 2867
  const SEVENTYFIVE_PERCENT: int := 3072

  /** One stage of the published retry chain. */
  datatype Entry = Entry(idx: int, flags: Flags, rtsCts: bool, count: nat, countRts: nat, countCts: nat)

  datatype Report = Report(ctlAmpdu: bool, statAmpdu: bool, ack: bool, ampduLen: nat, ampduAckLen: nat,
                           slots: seq<TxSlot>)

  /** Subframes sent and acknowledged; an unaggregated frame counts as one. */
  function SentLen(r: Report): nat { if r.statAmpdu then r.ampduLen else 1 }
  function AckedLen(r: Report): nat { if r.statAmpdu then r.ampduAckLen else if r.ack then 1 else 0 }

  /** A completion report as the driver builds it: no aggregation flags, unused slots marked. */
  function CompletionReport(sent: bool, slots: seq<TxSlot>): (r: Report)
    ensures !r.ctlAmpdu && SentLen(r) == 1 && AckedLen(r) == (if sent then 1 else 0)
    ensures |r.slots| == |slots| && forall j :: 0 <= j < |slots| ==> r.slots[j].idx >= 0 ==> r.slots[j].count >= 1
  {
    Report.Report(false, false, sent, 0, 0,
           seq(|slots|, j requires 0 <= j < |slots| =>
             if slots[j].count != 0 then slots[j] else TxSlot(-1, 0, NO_FLAGS)))
  }

  /** A slot that was not tried, or one filled in for some rate of the table. */
  ghost predicate Filled(s: TxSlot, cckRates: seq<nat>)
    requires |cckRates| == 4
  {
    s.count == 0 || exists i: RateIndex :: s == TxSlot(Encode(i, cckRates), s.count, GroupFlags(Group(i)))
  }

  /** Whatever rates the slots were filled in for, supported or not, and however many of them
      were tried, the completion report can be credited. */
  lemma CompletionCreditable(sent: bool, slots: seq<TxSlot>, masks: seq<Mask>, cckRates: seq<nat>)
    requires |slots| == 4 && CapsOk(masks) && |cckRates| == 4 && forall j :: 0 <= j < 4 ==> Filled(slots[j], cckRates)
    ensures var r := CompletionReport(sent, slots);
            Creditable(r.slots, masks, cckRates) && Backed(r.slots, masks, cckRates, AckedLen(r))
  {
    var r := CompletionReport(sent, slots);
    forall j | 0 <= j < 4
      ensures r.slots[j].idx >= 0 || Unflagged(r.slots[j])
      ensures Decode(r.slots[j], masks, cckRates) < RATES
    {
      if slots[j].count != 0 {
        var i: RateIndex :| slots[j] == TxSlot(Encode(i, cckRates), slots[j].count, GroupFlags(Group(i)));
        FilledInTable(i, slots[j].count, masks, cckRates);
      }
    }
    assert MaskOk(CCK, masks[CCK]);
    assert r.slots[0].count == 0 ==> CckSlot(-1, cckRates, 0) == 4;
  }

  lemma FilledInTable(i: RateIndex, count: nat, masks: seq<Mask>, cckRates: seq<nat>)
    requires |masks| == GROUPS && |cckRates| == 4
    ensures Encode(i, cckRates) >= 0
    ensures Decode(TxSlot(Encode(i, cckRates), count, GroupFlags(Group(i))), masks, cckRates) < RATES
  {
  }

  /** Slots of a frame sent over the published chain, with the tries each stage took. */
  function ChainSlots(chain: seq<Entry>, tries: seq<nat>): (s: seq<TxSlot>)
    requires |chain| == |tries|
    ensures |s| == |chain|
  {
    seq(|chain|, j requires 0 <= j < |chain| => TxSlot(chain[j].idx, tries[j], chain[j].flags))
  }

  datatype Probe = NoProbe | Probe(rate: nat, stage: nat)

  /** Candidate replaces the most robust rate seen so far. */
  ghost function MoreRobust(k: seq<Key>, cur: nat, cand: nat): (r: nat)
    requires cur < |k| && cand < |k|
    ensures r == cur || r == cand
  {
    if k[cand].prob > SEVENTYFIVE_PERCENT
    then (if k[cand].tp > k[cur].tp then cand else cur)
    else (if k[cand].prob > k[cur].prob then cand else cur)
  }

  /** What a scan notes besides the lists: the most robust rate of the station and of each
      group, and requests to sample widths afresh. */
  datatype Notes = Notes(maxProb: nat, groupProb: seq<nat>, allBw: bool, clearFlag: bool, clearBw: set<Width>)

  ghost predicate NotesOk(n: Notes) { n.maxProb < RATES && |n.groupProb| == GROUPS && AllBelow(n.groupProb, RATES) }

  /** A recalculated rate asks for its width to be sampled afresh when it has been used and
      succeeds less than 10% of the time, or less than always if it is the start-up rate. */
  predicate WantsClearing(r: RateStats, startUp: bool) {
    && r.attHist != 0 && r.succHist != 0 && r.probEwma != 0
    && ((startUp && r.probEwma < SCALE) || r.probEwma < TEN_PERCENT)
  }

  /** CCK rates do not compete for robustness while an MCS rate leads. */
  ghost function Noted(n: Notes, k: seq<Key>, r: RateStats, i: RateIndex, cckHead: bool, startUp: bool): (n': Notes)
    requires NotesOk(n) && |k| == RATES
    ensures NotesOk(n')
  {
    var g := Group(i);
    var n1 :=
      if g == CCK && !cckHead then n
      else n.(maxProb := MoreRobust(k, n.maxProb, i), groupProb := n.groupProb[g := MoreRobust(k, n.groupProb[g], i)]);
    if WantsClearing(r, startUp) then n1.(allBw := true, clearFlag := true, clearBw := n.clearBw + {WidthOf(g)}) else n1
  }

  /** Everything a scan depends on; startRate is the start-up rate or -1. */
  datatype Scan = Scan(start: Table, masks: seq<Mask>, l: Retransmit.Limits, avgLen: nat, cckHead: bool, startRate: int)

  ghost predicate ScanOk(c: Scan) {
    TableOk(c.start, c.masks, c.l) && c.avgLen >= SCALE && |c.start| == RATES && |c.masks| == GROUPS
  }

  /** Notes after scanning the rates below n: each rate is judged by the table as it stands
      at that point of the scan. */
  ghost function NotesAfter(c: Scan, n0: Notes, n: nat): (r: Notes)
    requires ScanOk(c) && NotesOk(n0) && n <= RATES
    ensures NotesOk(r)
  {
    if n == 0 then n0
    else
      var prev := NotesAfter(c, n0, n - 1);
      if !Supp(c.masks, n - 1) then prev
      else
        RecalcKeepsOk(c.start, c.masks, c.l, n);
        var t := Passed(c.start, RecalcPass(c.masks), n);
        Noted(prev, Keys(t, c.masks, c.l, c.avgLen), t[n - 1], n - 1, c.cckHead, n - 1 == c.startRate)
  }

  lemma NotesStep(c: Scan, n0: Notes, i: RateIndex, t: Table)
    requires ScanOk(c) && NotesOk(n0) && Supp(c.masks, i) && TableOk(t, c.masks, c.l)
    requires t == Passed(c.start, RecalcPass(c.masks), i + 1)
    ensures NotesAfter(c, n0, i + 1) ==
            Noted(NotesAfter(c, n0, i), Keys(t, c.masks, c.l, c.avgLen), t[i], i, c.cckHead, i == c.startRate)
  {
  }

  /** In plain numbers: rate i of the scan has worked before, and is now below 10% of 4096, or, as
      the start-up rate, below all of it. */
  ghost predicate Faint(c: Scan, i: RateIndex)
    requires ScanOk(c)
  {
    var r := Recalculate(c.start[i]);
    && Supp(c.masks, i) && r.attHist > 0 && r.succHist > 0 && r.probEwma != 0
    && (r.probEwma < 409 || (i == c.startRate && r.probEwma < 4096))
  }

  /** A scan asks for clearing exactly when it meets a faint rate, and marks their widths. */
  lemma {:induction false} ClearingNoted(c: Scan, n0: Notes, n: nat)
    requires ScanOk(c) && NotesOk(n0) && n <= RATES
    ensures var r := NotesAfter(c, n0, n);
            && r.clearFlag == (n0.clearFlag || exists i: RateIndex :: i < n && Faint(c, i))
            && r.allBw == (n0.allBw || exists i: RateIndex :: i < n && Faint(c, i))
            && forall w :: w in r.clearBw <==>
                 w in n0.clearBw || exists i: RateIndex :: i < n && Faint(c, i) && WidthOf(Group(i)) == w
    decreases n
  {
    hide NotesAfter, ScanOk, NotesOk, Faint;
    if n > 0 {
      ClearingNoted(c, n0, n - 1);
      ClearingStep(c, n0, n - 1);
    } else {
      NotesStart(c, n0);
    }
  }

  lemma ClearingStep(c: Scan, n0: Notes, i: RateIndex)
    requires ScanOk(c) && NotesOk(n0)
    ensures var r, r' := NotesAfter(c, n0, i), NotesAfter(c, n0, i + 1);
            && r'.clearFlag == (r.clearFlag || Faint(c, i)) && r'.allBw == (r.allBw || Faint(c, i))
            && r'.clearBw == r.clearBw + if Faint(c, i) then {WidthOf(Group(i))} else {}
  {
    hide Keys, MoreRobust, Recalculate;
    if Supp(c.masks, i) {
      var t := Passed(c.start, RecalcPass(c.masks), i + 1);
      RecalcKeepsOk(c.start, c.masks, c.l, i + 1);
      assert t[i] == Recalculate(c.start[i]);
      NotesStep(c, n0, i, t);
    }
  }

  /** Without a rate that wants it nothing is marked for clearing. */
  lemma {:induction false} CalmNotes(c: Scan, n0: Notes, n: nat)
    requires ScanOk(c) && NotesOk(n0) && n <= RATES
    requires forall i :: 0 <= i < n && Supp(c.masks, i) ==> !WantsClearing(Recalculate(c.start[i]), i == c.startRate)
    ensures var r := NotesAfter(c, n0, n);
            r.allBw == n0.allBw && r.clearFlag == n0.clearFlag && r.clearBw == n0.clearBw
    decreases n
  {
    hide NotesAfter, ScanOk, NotesOk, WantsClearing, Recalculate, Supp;
    if n > 0 {
      CalmNotes(c, n0, n - 1);
      CalmNote(c, n0, n - 1);
    } else {
      NotesStart(c, n0);
    }
  }

  lemma NotesStart(c: Scan, n0: Notes)
    requires ScanOk(c) && NotesOk(n0)
    ensures NotesAfter(c, n0, 0) == n0
  {
  }

  lemma CalmNote(c: Scan, n0: Notes, i: RateIndex)
    requires ScanOk(c) && NotesOk(n0)
    requires (Supp(c.masks, i) ==> !WantsClearing(Recalculate(c.start[i]), i == c.startRate))
    ensures var r, r' := NotesAfter(c, n0, i), NotesAfter(c, n0, i + 1);
            r'.allBw == r.allBw && r'.clearFlag == r.clearFlag && r'.clearBw == r.clearBw
  {
    hide Keys, MoreRobust, WantsClearing, Recalculate;
    if Supp(c.masks, i) {
      var t := Passed(c.start, RecalcPass(c.masks), i + 1);
      RecalcKeepsOk(c.start, c.masks, c.l, i + 1);
      assert t[i] == Recalculate(c.start[i]);
      NotesStep(c, n0, i, t);
    }
  }

  lemma {:induction false} NotesSkip(c: Scan, n0: Notes, i: nat, n: nat)
    requires ScanOk(c) && NotesOk(n0) && i + n <= RATES
    requires forall j :: i <= j < i + n ==> !Supp(c.masks, j)
    ensures NotesAfter(c, n0, i + n) == NotesAfter(c, n0, i)
    decreases n
  {
    if n > 0 { NotesSkip(c, n0, i, n - 1); }
  }

  /** The three lists after scanning the rates below n. */
  ghost predicate ListsAt(k: seq<Key>, masks: seq<Mask>, mcs: seq<nat>, cck: seq<nat>, grp: seq<nat>, n: nat)
    requires |k| == RATES && |masks| == GROUPS && n <= RATES
  {
    && mcs == TopList(k, Select(masks, Mcs, n))
    && cck == TopList(k, Select(masks, Cck, n))
    && grp == TopList(k, Select(masks, All, n))
  }

  lemma ListsAgree(k: seq<Key>, k': seq<Key>, masks: seq<Mask>, which: Which, n: nat)
    requires |k| == |k'| == RATES && |masks| == GROUPS && n <= RATES
    requires forall i :: 0 <= i < n ==> k[i] == k'[i]
    ensures TopList(k, Select(masks, which, n)) == TopList(k', Select(masks, which, n))
  {
    TopListAgrees(k, k', Select(masks, which, n));
  }

  /** Scanning rate n adds it to the lists it belongs to and to no other. */
  lemma ListsGrow(k: seq<Key>, masks: seq<Mask>, which: Which, n: nat)
    requires |k| == RATES && |masks| == GROUPS && n < RATES
    ensures TopList(k, Select(masks, which, n + 1)) ==
            if Picked(masks, which, n) then Insert(k, TopList(k, Select(masks, which, n)), n)
            else TopList(k, Select(masks, which, n))
  {
    var xs := Select(masks, which, n);
    if Picked(masks, which, n) { assert (xs + [n])[..|xs|] == xs; }
  }

  lemma KeysAgreeBelow(t: Table, t': Table, masks: seq<Mask>, l: Retransmit.Limits, avgLen: nat, n: nat)
    requires TableOk(t, masks, l) && TableOk(t', masks, l) && avgLen >= SCALE && n <= RATES
    requires forall i :: 0 <= i < n ==> t[i].probEwma == t'[i].probEwma
    ensures forall i :: 0 <= i < n ==> Keys(t, masks, l, avgLen)[i] == Keys(t', masks, l, avgLen)[i]
  {
  }

  lemma FracAtLeastOne(val: nat, div: nat)
    requires 0 < div <= val < 0x10_0000
    ensures Frac(val, div) >= SCALE
  {
    QuotientAtLeast(val * SCALE, div, SCALE);
  }

  lemma QuotientAtLeast(a: nat, d: nat, q: nat)
    requires d > 0 && q * d <= a
    ensures a / d >= q
  {
    if a / d < q { MulMono(a / d + 1, q, d); }
  }

  /** One step of the scan, on values: rate i is recalculated, the lists gain at most it. */
  lemma ScanStep(start: Table, t: Table, masks: seq<Mask>, l: Retransmit.Limits, avgLen: nat, i: RateIndex)
    requires TableOk(start, masks, l) && TableOk(t, masks, l) && avgLen >= SCALE && Supp(masks, i)
    requires t == Passed(start, RecalcPass(masks), i)
    ensures var t' := t[i := Recalculate(t[i])];
            && t' == Passed(start, RecalcPass(masks), i + 1)
            && TableOk(t', masks, l)
            && forall which: Which :: ListStep(Keys(t, masks, l, avgLen), Keys(t', masks, l, avgLen), masks, which, i)
  {
    PassStep(start, RecalcPass(masks), i);
    RecalcKeepsOk(start, masks, l, i + 1);
    var t' := t[i := Recalculate(t[i])];
    assert t' == Passed(start, RecalcPass(masks), i + 1);
    var k, k' := Keys(t, masks, l, avgLen), Keys(t', masks, l, avgLen);
    KeysAgreeBelow(t, t', masks, l, avgLen, i);
    forall which: Which ensures ListStep(k, k', masks, which, i) {
      ListsAgree(k, k', masks, which, i);
      ListsGrow(k', masks, which, i);
    }
  }

  /** An unsupported rate changes neither the table nor the lists. */
  lemma ScanSkip(start: Table, masks: seq<Mask>, k: seq<Key>, i: RateIndex, n: nat, mcs: seq<nat>, cck: seq<nat>,
                 grp: seq<nat>)
    requires |masks| == GROUPS && |start| == RATES && |k| == RATES && i + n <= RATES
    requires forall j :: i <= j < i + n ==> !Supp(masks, j)
    requires ListsAt(k, masks, mcs, cck, grp, i)
    ensures Passed(start, RecalcPass(masks), i) == Passed(start, RecalcPass(masks), i + n)
    ensures ListsAt(k, masks, mcs, cck, grp, i + n)
  {
    PassSkip(start, RecalcPass(masks), i, i + n);
    hide Select, TopList, Passed, RecalcPass;
    SelectSkip(masks, Mcs, i, i + n);
    SelectSkip(masks, Cck, i, i + n);
    SelectSkip(masks, All, i, i + n);
  }

  lemma ScanStart(start: Table, k: seq<Key>, masks: seq<Mask>)
    requires |masks| == GROUPS && |start| == RATES && |k| == RATES
    ensures start == Passed(start, RecalcPass(masks), 0)
    ensures ListsAt(k, masks, PLACEHOLDERS, PLACEHOLDERS, PLACEHOLDERS, 0)
  {
  }

  /** Scanning group g leaves the lists of the groups below as they were. */
  lemma GroupListsKept(start: Table, t: Table, t': Table, masks: seq<Mask>, l: Retransmit.Limits, avgLen: nat, g: nat)
    requires g < GROUPS && TableOk(t, masks, l) && TableOk(t', masks, l) && avgLen >= SCALE && |start| == RATES
    requires t == Passed(start, RecalcPass(masks), SLOTS * g)
    requires t' == Passed(start, RecalcPass(masks), SLOTS * g + SLOTS)
    ensures forall h :: 0 <= h < g ==>
              GroupList(Keys(t, masks, l, avgLen), masks, h) == GroupList(Keys(t', masks, l, avgLen), masks, h)
  {
    var k, k' := Keys(t, masks, l, avgLen), Keys(t', masks, l, avgLen);
    KeysAgreeBelow(t, t', masks, l, avgLen, SLOTS * g);
    forall h | 0 <= h < g ensures GroupList(k, masks, h) == GroupList(k', masks, h) {
      ListsAgree(k, k', masks, All, SLOTS * h + SLOTS);
    }
  }

  lemma GroupListIs(k: seq<Key>, masks: seq<Mask>, mcs: seq<nat>, cck: seq<nat>, grp: seq<nat>, g: nat)
    requires |k| == RATES && |masks| == GROUPS && g < GROUPS
    requires ListsAt(k, masks, mcs, cck, grp, SLOTS * g + SLOTS)
    ensures grp == GroupList(k, masks, g) && GroupListOk(grp, g)
  {
  }

  lemma BestRatesIs(k: seq<Key>, masks: seq<Mask>, mcs: seq<nat>, cck: seq<nat>, grp: seq<nat>)
    requires |k| == RATES && |masks| == GROUPS && ListsAt(k, masks, mcs, cck, grp, RATES)
    ensures |mcs| == |cck| == DEPTH && AllBelow(mcs, RATES) && AllBelow(cck, RATES)
    ensures Merge(k, mcs, cck) == BestRates(k, masks)
  {
  }

  ghost predicate ListStep(k: seq<Key>, k': seq<Key>, masks: seq<Mask>, which: Which, i: nat)
    requires |k| == |k'| == RATES && |masks| == GROUPS && i < RATES
  {
    TopList(k', Select(masks, which, i + 1)) ==
    if Picked(masks, which, i) then Insert(k', TopList(k, Select(masks, which, i)), i)
    else TopList(k, Select(masks, which, i))
  }

  // ----- the published chain, on values

  /** From i down within its group to the first rate with at least 50% success, or slot 0. */
  ghost function Lowered(t: Table, i: RateIndex): (r: RateIndex)
    requires |t| == RATES
    ensures r <= i && Group(r) == Group(i)
    ensures t[r].probEwma >= FIFTY_PERCENT || Slot(r) == 0
    ensures forall j :: r < j <= i ==> t[j].probEwma < FIFTY_PERCENT
    decreases i
  {
    if t[i].probEwma < FIFTY_PERCENT && Slot(i) != 0 then Lowered(t, i - 1) else i
  }

  /** r is the best of the n rates from base on, the lowest one among equals. */
  ghost predicate BestBelow(k: seq<Key>, base: nat, n: nat, r: nat) {
    && base <= r < base + n <= |k|
    && forall j :: base <= j < base + n ==> KeyLe(k[j], k[r]) && (k[j] == k[r] ==> r <= j)
  }

  /** The robust rate published for a chosen one: unchanged if it lies below the primary slot,
      else the best of the lower slots of its group. */
  ghost predicate RobustAfter(k: seq<Key>, chosen: RateIndex, primary: RateIndex, robust: nat) {
    if Slot(chosen) >= Slot(primary) then BestBelow(k, SLOTS * Group(chosen), AtLeastOne(Slot(primary)), robust)
    else robust == chosen
  }

  /** Average aggregate length after an interval in which the given subframes and packets were
      reported. */
  function NextAvgLen(avg: nat, len: nat, packets: nat): int {
    if packets > 0 then Ewma(avg, Frac(len, packets)) else avg
  }

  /** The start-up rate after seeding the groups below n: slot 0 of the last group seeded. */
  ghost function StartIdx(masks: seq<Mask>, maxRate: nat, w: Width, n: nat, cur: nat): nat
    requires n <= |masks|
  {
    if n == 0 then cur
    else if WidthOf(n - 1) == w && maxRate in masks[n - 1] then SLOTS * (n - 1)
    else StartIdx(masks, maxRate, w, n - 1, cur)
  }

  /** It moves a quarter of the way to the subframes per packet, and stays at least one frame. */
  lemma NextAvgLenIs(avg: nat, len: nat, packets: nat)
    requires avg >= SCALE && packets <= len < 0x10_0000
    ensures NextAvgLen(avg, len, packets) >= SCALE
    ensures packets > 0 ==> QuarterWay(avg, 4096 * len / packets, NextAvgLen(avg, len, packets))
    ensures len == packets && avg == SCALE ==> NextAvgLen(avg, len, packets) == SCALE
  {
    if packets > 0 {
      FracAtLeastOne(len, packets);
      FracOfAll(len, packets);
      EwmaBetween(avg, Frac(len, packets));
      hide Ewma;
    }
  }

  lemma FracOfAll(len: nat, packets: nat)
    requires 0 < packets <= len < 0x10_0000
    ensures Frac(len, packets) == 4096 * len / packets && (len == packets ==> Frac(len, packets) == SCALE)
  {
    hide Frac;
    QuotientAtLeast(len * SCALE, packets, SCALE);
    QuotBelow(len * SCALE, packets, SCALE + 1);
    assert len * SCALE == 4096 * len;
  }

  /** r is slot 0 of the highest group of width w below n that has slot maxRate, or stays cur
      without one. */
  ghost predicate StartsAt(masks: seq<Mask>, maxRate: nat, w: Width, n: nat, cur: nat, r: nat)
    requires n <= |masks|
  {
    if forall g :: 0 <= g < n ==> WidthOf(g) != w || maxRate !in masks[g] then r == cur
    else
      && r % 10 == 0 && r / 10 < n && WidthOf(r / 10) == w && maxRate in masks[r / 10]
      && forall g :: r / 10 < g < n ==> WidthOf(g) != w || maxRate !in masks[g]
  }

  lemma {:induction false} StartIdxIs(masks: seq<Mask>, maxRate: nat, w: Width, n: nat, cur: nat)
    requires n <= |masks|
    ensures StartsAt(masks, maxRate, w, n, cur, StartIdx(masks, maxRate, w, n, cur))
    decreases n
  {
    hide WidthOf;
    if n > 0 { StartIdxIs(masks, maxRate, w, n - 1, cur); }
  }

  function AtLeastOne(n: nat): nat { if n == 0 then 1 else n }

  function DataTime(i: RateIndex, avgLen: nat): nat { Quot(Wrap32(Duration(i) * Trunc(avgLen)), 1000) }
  function Cost(i: RateIndex, avgLen: nat): nat { (if Group(i) == CCK then 0 else OVERHEAD) + DataTime(i, avgLen) }
  function CostRtscts(i: RateIndex, avgLen: nat): nat {
    (if Group(i) == CCK then 0 else OVERHEAD_RTSCTS) + DataTime(i, avgLen)
  }

  /** The retry counts of rate i are the largest that its air times allow. */
  ghost predicate CountsFit(r: RateStats, i: RateIndex, l: Retransmit.Limits, avgLen: nat) {
    && Retransmit.LargestFit(l, Cost(i, avgLen), Retransmit.Ceiling(l), r.retryCount)
    && Retransmit.LargestFit(l, CostRtscts(i, avgLen), r.retryCount, r.retryCountRtscts)
  }

  /** Counts marked as computed belong to the current aggregate length. */
  ghost predicate CountsCurrent(t: Table, l: Retransmit.Limits, avgLen: nat) {
    |t| == RATES && forall i :: 0 <= i < RATES ==> t[i].retryUpdated ==> CountsFit(t[i], i, l, avgLen)
  }

  /** Equal retry counts. */
  ghost predicate SameCounts(a: RateStats, b: RateStats) {
    a.retryCount == b.retryCount && a.retryCountRtscts == b.retryCountRtscts && a.retryUpdated == b.retryUpdated
  }

  lemma CountsCarried(t: Table, t': Table, l: Retransmit.Limits, avgLen: nat)
    requires CountsCurrent(t, l, avgLen) && |t'| == RATES && forall i :: 0 <= i < RATES ==> SameCounts(t[i], t'[i])
    ensures CountsCurrent(t', l, avgLen)
  {
    hide Retransmit.LargestFit, Cost, CostRtscts;
  }

  /** A recalculation takes in the window of every supported rate and leaves the others. */
  lemma RecalcTakesIn(t: Table, masks: seq<Mask>, l: Retransmit.Limits)
    requires TableOk(t, masks, l)
    ensures var t' := Passed(t, RecalcPass(masks), RATES);
            forall i: RateIndex :: if Supp(masks, i) then TakesIn(t[i], t'[i]) else t'[i] == t[i]
  {
    hide CalcRateStats, TakesIn;
    forall i: RateIndex | Supp(masks, i) ensures TakesIn(t[i], Recalculate(t[i])) {
      assert RateOk(t[i], i, masks, l) && MaskOk(Group(i), masks[Group(i)]);
      CalcTakesIn(t[i].(retryUpdated := false));
      assert TakesIn(t[i], Recalculate(t[i])) by { SameWindow(t[i], CalcRateStats(t[i].(retryUpdated := false))); }
    }
  }

  lemma SameWindow(r: RateStats, z: RateStats)
    requires TakesIn(r.(retryUpdated := false), z)
    ensures TakesIn(r, z)
  {
  }

  /** A recalculated table has no counts marked as computed, so none can be outdated. */
  lemma RecalcResets(t: Table, masks: seq<Mask>, l: Retransmit.Limits, avgLen: nat)
    requires TableOk(t, masks, l)
    ensures CountsCurrent(Passed(t, RecalcPass(masks), RATES), l, avgLen)
  {
    forall i | 0 <= i < RATES ensures !Passed(t, RecalcPass(masks), RATES)[i].retryUpdated {
      assert RateOk(t[i], i, masks, l);
    }
  }

  /** Clearing, zeroing and crediting leave the counts alone. */
  lemma PassesKeepCounts(t: Table, masks: seq<Mask>, maxRate: nat, widths: set<Width>, l: Retransmit.Limits,
                         avgLen: nat)
    requires CountsCurrent(t, l, avgLen) && |masks| == GROUPS
    ensures CountsCurrent(Passed(t, ClearPass(masks, maxRate), RATES), l, avgLen)
    ensures CountsCurrent(Passed(t, ZeroPass(masks, widths), RATES), l, avgLen)
  {
    hide CountsCurrent;
    CountsCarried(t, Passed(t, ClearPass(masks, maxRate), RATES), l, avgLen) by { CountsLength(t, l, avgLen); }
    CountsCarried(t, Passed(t, ZeroPass(masks, widths), RATES), l, avgLen) by { CountsLength(t, l, avgLen); }
  }

  lemma CountsLength(t: Table, l: Retransmit.Limits, avgLen: nat)
    requires CountsCurrent(t, l, avgLen)
    ensures |t| == RATES
  {
  }

  /** A published stage in the terms of its rate i: code and flags name slot, width and guard
      interval, and from 20% success on the counts are the largest whose air time fits the
      segment. Later stages are protected and use the protected count. */
  ghost predicate StageFits(e: Entry, i: RateIndex, prob: int, l: Retransmit.Limits, avgLen: nat, cckRates: seq<nat>,
                            first: bool)
    requires |cckRates| == 4
  {
    var g, s := i / 10, i % 10;
    var data := Duration(i) * (avgLen / 4096) % 0x1_0000_0000 / 1000;
    && e.idx == (if g == 4 then cckRates[s % 4] else s)
    && e.flags == Flags(g < 4, g > 4, g in {1, 3, 6, 8, 10}, g in {2, 3, 7, 8}, g in {9, 10})
    && e.rtsCts == !first && e.count == (if first then e.countCts else e.countRts)
    && (prob < 819 ==> e.countCts == e.countRts == 2)
    && (prob >= 819 ==> Retransmit.LargestFit(l, data + (if g == 4 then 0 else 108), Retransmit.Ceiling(l), e.countCts))
    && (prob >= 819 ==> Retransmit.LargestFit(l, data + (if g == 4 then 0 else 228), e.countCts, e.countRts))
  }

  /** A stage filled in from current counts. */
  lemma EntryFits(r: RateStats, i: RateIndex, offset: nat, l: Retransmit.Limits, avgLen: nat, cckRates: seq<nat>,
                  smps: bool)
    requires |cckRates| == 4 && (r.probEwma >= TWENTY_PERCENT ==> CountsFit(r, i, l, avgLen))
    ensures StageFits(EntryOf(r, i, offset, cckRates, smps), i, r.probEwma, l, avgLen, cckRates, offset == 0)
  {
    hide Retransmit.AirTime, Duration, Retransmit.Ceiling;
    OverheadIs();
    var g, s := Group(i), Slot(i);
    assert Encode(i, cckRates) == if g == CCK then cckRates[s % 4] else s;
    assert GroupFlags(g) == Flags(g < 4, g > 4, g in {1, 3, 6, 8, 10}, g in {2, 3, 7, 8}, g in {9, 10});
  }

  /** The tie between the air time of a try and the throughput estimate: a try takes the
      estimated time of all its frames, up to the rounding to microseconds and of the overhead. */
  lemma CostMatchesEstimate(i: RateIndex, avgLen: nat)
    requires avgLen >= SCALE && Exists(i) && Duration(i) * (avgLen / SCALE) < TWO32
    ensures var all := Times(avgLen / SCALE, ExactNanos(i, avgLen));
            1000 * Cost(i, avgLen) <= all + avgLen / SCALE && all < 1000 * Cost(i, avgLen) + 1000
    ensures CostRtscts(i, avgLen) == Cost(i, avgLen) + if Group(i) == CCK then 0 else 120
  {
    hide Duration, Quot, Times, ExactNanos, Cost, CostRtscts, Exists;
    var frames := avgLen / SCALE;
    var share := if Group(i) == CCK then 0 else Quot(108000, frames);
    CostParts(i, avgLen);
    Split(frames, share, Duration(i));
    QuotBounds(108000, frames);
    QuotBounds(Duration(i) * frames, 1000);
  }

  lemma CostParts(i: RateIndex, avgLen: nat)
    requires avgLen >= SCALE && Duration(i) * (avgLen / SCALE) < TWO32
    ensures var data, plain := Quot(Duration(i) * (avgLen / SCALE), 1000), Group(i) == CCK;
            && Cost(i, avgLen) == data + (if plain then 0 else 108)
            && CostRtscts(i, avgLen) == data + (if plain then 0 else 228)
            && ExactNanos(i, avgLen) == (if plain then 0 else Quot(108000, avgLen / SCALE)) + Duration(i)
  {
    hide Duration, Quot;
    OverheadIs();
    WrapShrinks(Duration(i) * (avgLen / SCALE));
  }

  function Times(a: nat, b: nat): nat { a * b }

  lemma QuotBounds(a: nat, b: nat)
    requires b > 0
    ensures Times(b, Quot(a, b)) <= a < Times(b, Quot(a, b)) + b
    ensures b == 1000 ==> Times(b, Quot(a, b)) == 1000 * Quot(a, b)
  {
  }

  lemma Split(a: nat, b: nat, c: nat)
    ensures Times(a, b + c) == Times(a, b) + c * a && Times(a, 0) == 0
  {
  }

  /** Three tries with the contention windows of this driver, 15, 31 and 63 slots. */
  lemma ThreeTries(l: Retransmit.Limits, cost: nat)
    requires l.cwMin == 15 && l.cwMax == 1023
    ensures Retransmit.AirTime(l, cost, 2) == 2 * cost + 206 && Retransmit.AirTime(l, cost, 3) == 3 * cost + 489
  {
    assert Retransmit.Window(l, 1) == 31 && Retransmit.Window(l, 2) == 63;
    assert Retransmit.AirTime(l, cost, 1) == cost + 67;
  }

  /** At slot 6 of the 40 MHz group three unaggregated tries fit into 6 ms, protected or not. */
  lemma FortyMegahertzCounts(l: Retransmit.Limits, r: nat, p: nat)
    requires l.cwMin == 15 && l.cwMax == 1023 && l.maxRetry == 3 && l.segment == 6000
    requires Retransmit.LargestFit(l, Cost(26, SCALE), 3, r) && Retransmit.LargestFit(l, CostRtscts(26, SCALE), r, p)
    ensures r == p == 3
  {
    OverheadIs();
    assert Duration(26) == 1580250;
    ThreeTries(l, 1688);
    ThreeTries(l, 1808);
  }

  /** Equal up to the retry counts. */
  ghost predicate SameStats(a: RateStats, b: RateStats) {
    a == b.(retryCount := a.retryCount, retryCountRtscts := a.retryCountRtscts, retryUpdated := a.retryUpdated)
  }

  ghost predicate SameTable(t: Table, t': Table) {
    |t| == |t'| && forall i :: 0 <= i < |t| ==> SameStats(t[i], t'[i])
  }

  /** Every published count is at least two and within the retry limit, and protection never
      raises it. */
  ghost predicate EntryOk(e: Entry, l: Retransmit.Limits) {
    2 <= e.countRts <= e.countCts <= Retransmit.Ceiling(l) && (e.count == e.countCts || e.count == e.countRts)
  }

  function EntryOf(r: RateStats, i: RateIndex, offset: nat, cckRates: seq<nat>, dynamicSmps: bool): Entry
    requires |cckRates| == 4
  {
    var fallback := r.probEwma < TWENTY_PERCENT || r.retryCount == 0;
    var plain := if fallback then 2 else r.retryCount;
    var rts := if fallback then 2 else r.retryCountRtscts;
    var protect := offset > 0 || (dynamicSmps && Streams(Group(i)) > 1);
    Entry(Encode(i, cckRates), GroupFlags(Group(i)), protect, if protect then rts else plain, rts, plain)
  }

  /** What the three passes do to each rate. */
  lemma ClearPassIs(t: Table, masks: seq<Mask>, limit: nat)
    requires |t| == RATES && |masks| == GROUPS
    ensures forall i: RateIndex :: Passed(t, ClearPass(masks, limit), RATES)[i] ==
              if i % 10 in masks[i / 10] && i % 10 > limit && t[i].succHist > 0
              then RateStats(1, 0, 0, 0, 0, 0, t[i].probEwma, t[i].probEwmv, t[i].retryCount,
                             t[i].retryCountRtscts, t[i].retryUpdated, 0)
              else t[i]
  {
    assert forall i: RateIndex :: Supp(masks, i) <==> i % 10 in masks[i / 10];
  }

  lemma ZeroPassIs(t: Table, masks: seq<Mask>, widths: set<Width>)
    requires |t| == RATES && |masks| == GROUPS
    ensures forall i: RateIndex :: Passed(t, ZeroPass(masks, widths), RATES)[i] ==
              if i % 10 in masks[i / 10] && WidthOf(i / 10) in widths then t[i].(probEwma := 0) else t[i]
  {
    assert forall i: RateIndex :: Supp(masks, i) <==> i % 10 in masks[i / 10];
  }

  lemma SeedPassIs(t: Table, masks: seq<Mask>, maxRate: nat, w: Width)
    requires |t| == RATES && |masks| == GROUPS
    ensures forall i: RateIndex ::
              var s := i % 10;
              var n := if s == 0 || s == 2 then 1 else if s == maxRate then 2 else 0;
              Passed(t, SeedPass(masks, maxRate, w), RATES)[i] ==
              if WidthOf(i / 10) == w && maxRate in masks[i / 10] && n > 0
              then t[i].(attempts := n, success := n, attHist := 0, succHist := 0) else t[i]
  {
    assert forall i: RateIndex :: Slot(i) == i % 10 && Group(i) == i / 10;
  }

  lemma ZeroSkip(start: Table, masks: seq<Mask>, widths: set<Width>, g: nat)
    requires |start| == RATES && |masks| == GROUPS && g < GROUPS && (masks[g] == {} || WidthOf(g) !in widths)
    ensures Passed(start, ZeroPass(masks, widths), SLOTS * g) ==
            Passed(start, ZeroPass(masks, widths), SLOTS * g + SLOTS)
  {
    forall i | SLOTS * g <= i < SLOTS * g + SLOTS ensures Group(i) == g { }
    PassSkip(start, ZeroPass(masks, widths), SLOTS * g, SLOTS * g + SLOTS);
  }

  lemma ZeroStep(start: Table, masks: seq<Mask>, widths: set<Width>, g: nat, s: nat)
    requires |start| == RATES && |masks| == GROUPS && g < GROUPS && s < SLOTS && WidthOf(g) in widths
    ensures var i, f := SLOTS * g + s, ZeroPass(masks, widths);
            var t := Passed(start, f, i);
            |t| == RATES && Passed(start, f, i + 1) == if s in masks[g] then t[i := ZeroProb(t[i])] else t
  {
    var i, f := SLOTS * g + s, ZeroPass(masks, widths);
    var t := Passed(start, f, i);
    assert Group(i) == g && Slot(i) == s;
    assert f(i, start[i]) == if s in masks[g] then ZeroProb(start[i]) else start[i];
    PassStep(start, f, i);
    assert t[i := t[i]] == t;
  }

  /** The slots of a group up to the limit, or the whole group, are not cleared. */
  lemma ClearSkip(start: Table, masks: seq<Mask>, limit: nat, g: nat, n: nat)
    requires |start| == RATES && |masks| == GROUPS && g < GROUPS && n <= SLOTS
    requires n <= limit + 1 || masks[g] == {} || limit + 1 >= SLOTS
    ensures Passed(start, ClearPass(masks, limit), SLOTS * g) == Passed(start, ClearPass(masks, limit), SLOTS * g + n)
  {
    forall i | SLOTS * g <= i < SLOTS * g + n ensures Group(i) == g { }
    PassSkip(start, ClearPass(masks, limit), SLOTS * g, SLOTS * g + n);
  }

  lemma ClearStep(start: Table, masks: seq<Mask>, limit: nat, g: nat, s: nat)
    requires |start| == RATES && |masks| == GROUPS && g < GROUPS && limit < s < SLOTS
    ensures var i, f := SLOTS * g + s, ClearPass(masks, limit);
            var t := Passed(start, f, i);
            |t| == RATES && Passed(start, f, i + 1) == if s in masks[g] then t[i := ClearUnfit(t[i])] else t
  {
    var i, f := SLOTS * g + s, ClearPass(masks, limit);
    var t := Passed(start, f, i);
    assert Group(i) == g && Slot(i) == s;
    assert f(i, start[i]) == if s in masks[g] then ClearUnfit(start[i]) else start[i];
    PassStep(start, f, i);
    assert t[i := t[i]] == t;
  }

  lemma SeedTwice(r: RateStats)
    ensures Seed(Seed(r, 2), 1) == Seed(r, 1)
  {
  }

  lemma SeedStep(start: Table, masks: seq<Mask>, maxRate: nat, w: Width, g: nat, t: Table, t': Table)
    requires |start| == RATES && |masks| == GROUPS && g < GROUPS && maxRate < SLOTS
    requires WidthOf(g) == w && maxRate in masks[g]
    requires t == Passed(start, SeedPass(masks, maxRate, w), SLOTS * g)
    requires var b := SLOTS * g;
             var t1 := t[b + maxRate := Seed(t[b + maxRate], 2)];
             var t2 := t1[b + 2 := Seed(t1[b + 2], 1)];
             t' == t2[b := Seed(t2[b], 1)]
    ensures t' == Passed(start, SeedPass(masks, maxRate, w), SLOTS * g + SLOTS)
  {
    var f := SeedPass(masks, maxRate, w);
    forall i | 0 <= i < RATES ensures t'[i] == Passed(start, f, SLOTS * g + SLOTS)[i] {
      if SLOTS * g <= i < SLOTS * g + SLOTS { assert Group(i) == g; SeedTwice(start[i]); }
    }
  }

  lemma SeedSkip(start: Table, masks: seq<Mask>, maxRate: nat, w: Width, g: nat)
    requires |start| == RATES && |masks| == GROUPS && g < GROUPS
    requires WidthOf(g) != w || maxRate !in masks[g]
    ensures Passed(start, SeedPass(masks, maxRate, w), SLOTS * g) ==
            Passed(start, SeedPass(masks, maxRate, w), SLOTS * g + SLOTS)
  {
    forall i | SLOTS * g <= i < SLOTS * g + SLOTS ensures Group(i) == g { }
    PassSkip(start, SeedPass(masks, maxRate, w), SLOTS * g, SLOTS * g + SLOTS);
  }

  // ----- downgrade and status rounds, on values

  /** Highest supported group below n with no more streams than orig, or -1. */
  ghost function LowerGroup(masks: seq<Mask>, orig: nat, n: nat): (g: int)
    requires |masks| == GROUPS && n <= GROUPS
    ensures -1 <= g < n
    ensures g >= 0 ==> masks[g] != {} && Streams(g) <= Streams(orig)
    ensures forall h :: g < h < n ==> masks[h] == {} || Streams(h) > Streams(orig)
  {
    if n == 0 then -1
    else if masks[n - 1] != {} && Streams(n - 1) <= Streams(orig) then n - 1
    else LowerGroup(masks, orig, n - 1)
  }

  /** Replacement of a listed rate that suddenly fails. */
  ghost function Downgraded(masks: seq<Mask>, groupTp: seq<seq<nat>>, rate: RateIndex, which: nat): (r: nat)
    requires |masks| == GROUPS == |groupTp| && which < DEPTH
    requires forall g :: 0 <= g < GROUPS ==> GroupListOk(groupTp[g], g)
    ensures r < RATES && (r == rate || Group(r) < Group(rate))
  {
    var g := LowerGroup(masks, Group(rate), Group(rate));
    if g < 0 then rate
    else
      assert GroupListOk(groupTp[g], g);
      groupTp[g][which]
  }

  /** g is the highest supported group below orig with no more streams. */
  ghost predicate Fallback(masks: seq<Mask>, orig: nat, g: nat)
    requires |masks| == GROUPS && orig < GROUPS
  {
    && g < orig && masks[g] != {} && (g == 4 || orig != 4)
    && forall h :: g < h < orig ==> masks[h] == {} || (h != 4 && orig == 4)
  }

  /** r is entry number which of the fallback group's list, or the rate itself without one. */
  ghost predicate FallenBack(masks: seq<Mask>, groupTp: seq<seq<nat>>, rate: RateIndex, which: nat, r: nat)
    requires |masks| == GROUPS == |groupTp| && which < DEPTH
    requires forall g :: 0 <= g < GROUPS ==> GroupListOk(groupTp[g], g)
  {
    && (forall g: nat :: g < GROUPS && Fallback(masks, rate / 10, g) ==>
          (GroupListOk(groupTp[g], g) && r == groupTp[g][which]))
    && ((forall g: nat :: g < GROUPS ==> !Fallback(masks, rate / 10, g)) ==> r == rate)
  }

  lemma DowngradedIs(masks: seq<Mask>, groupTp: seq<seq<nat>>, rate: RateIndex, which: nat)
    requires |masks| == GROUPS == |groupTp| && which < DEPTH
    requires forall g :: 0 <= g < GROUPS ==> GroupListOk(groupTp[g], g)
    ensures FallenBack(masks, groupTp, rate, which, Downgraded(masks, groupTp, rate, which))
  {
    var g := LowerGroup(masks, Group(rate), Group(rate));
    if g >= 0 { assert Fallback(masks, rate / 10, g); }
    forall h: nat | h < GROUPS && Fallback(masks, rate / 10, h) ensures h == g { }
  }

  /** Sudden death in raw counters: more than 30 tries, of which less than a fifth worked, that
      is less than 819 of 4096. */
  ghost predicate Collapsed(r: RateStats) { r.attempts > 30 && 4096 * r.success < 819 * r.attempts }

  lemma FailingIff(r: RateStats)
    requires r.success < 0x10_0000
    ensures Failing(r) <==> r.attempts > 30 && 4096 * r.success < 819 * r.attempts
  {
    if r.attempts > 0 { QuotBelow(r.success * SCALE, r.attempts, 819); }
  }

  lemma QuotBelow(a: nat, b: nat, q: nat)
    requires b > 0
    ensures a / b < q <==> a < q * b
  {
    var x := a / b;
    assert x * b <= a < x * b + b;
    if x < q { MulMono(x + 1, q, b); } else { MulMono(q, x, b); }
  }

  predicate Failing(r: RateStats) {
    r.attempts > 30 && Frac(r.success, r.attempts) < TWENTY_PERCENT
  }

  predicate Dying(t: Table, maxTp: seq<nat>)
    requires |t| == RATES && |maxTp| == DEPTH && maxTp[0] < RATES && maxTp[1] < RATES
  {
    Failing(t[maxTp[0]]) || Failing(t[maxTp[1]])
  }

  /** The rate list after checking its first two rates for sudden death. */
  ghost function AfterDeath(t: Table, masks: seq<Mask>, groupTp: seq<seq<nat>>, maxTp: seq<nat>): (r: seq<nat>)
    requires |t| == RATES && |maxTp| == DEPTH && AllBelow(maxTp, RATES)
    requires |masks| == GROUPS == |groupTp| && forall g :: 0 <= g < GROUPS ==> GroupListOk(groupTp[g], g)
    ensures |r| == DEPTH && AllBelow(r, RATES)
    ensures Group(r[0]) <= Group(maxTp[0]) && Group(r[1]) <= Group(maxTp[1])
    ensures !Dying(t, maxTp) ==> r == maxTp
  {
    var a := if Failing(t[maxTp[0]]) then Downgraded(masks, groupTp, maxTp[0], 0) else maxTp[0];
    var b := if Failing(t[maxTp[1]]) then Downgraded(masks, groupTp, maxTp[1], 1) else maxTp[1];
    maxTp[0 := a][1 := b]
  }

  ghost function LoweredHead(t: Table, list: seq<nat>): (r: seq<nat>)
    requires |t| == RATES && |list| == DEPTH && AllBelow(list, RATES)
    ensures |r| == DEPTH
  {
    list[0 := Lowered(t, list[0])]
  }

  /** The table after a round: rates beyond the limit cleared if the interface is active,
      then everything supported recalculated. */
  ghost function RoundTable(t: Table, masks: seq<Mask>, limit: nat, active: bool): (t': Table)
    requires |masks| == GROUPS
    ensures |t'| == |t|
  {
    Passed(ClearedTable(t, masks, limit, active), RecalcPass(masks), RATES)
  }

  ghost function ClearedTable(t: Table, masks: seq<Mask>, limit: nat, active: bool): (t': Table)
    requires |masks| == GROUPS
    ensures |t'| == |t|
  {
    if active then Passed(t, ClearPass(masks, limit), RATES) else t
  }

  lemma KeysSame(t: Table, t': Table, masks: seq<Mask>, l: Retransmit.Limits, avgLen: nat)
    requires TableOk(t, masks, l) && TableOk(t', masks, l) && avgLen >= SCALE && SameTable(t, t')
    ensures Keys(t, masks, l, avgLen) == Keys(t', masks, l, avgLen)
  {
    KeysAgreeBelow(t, t', masks, l, avgLen, RATES);
  }

  lemma {:induction false} LoweredSame(t: Table, t': Table, i: RateIndex)
    requires |t| == |t'| == RATES && SameTable(t, t')
    ensures Lowered(t, i) == Lowered(t', i)
    decreases i
  {
    assert SameStats(t[i], t'[i]);
    if i > 0 { LoweredSame(t, t', i - 1); }
  }

  /** The slot limit of a clearing round: the signal's limit, or a lower requested one. */
  function RoundLimit(fit: nat, needClear: nat): (r: nat)
    ensures r <= fit && (0 < needClear ==> r <= needClear) && (r == fit || r == needClear)
  {
    if needClear != 0 && needClear < fit then needClear else fit
  }

  ghost predicate ClearedIn(t: Table, masks: seq<Mask>, limit: nat, i: RateIndex)
    requires |t| == RATES && |masks| == GROUPS
  {
    Supp(masks, i) && Slot(i) > limit && t[i].succHist != 0
  }

  lemma ClearedThenRecalculated(t: Table, masks: seq<Mask>, limit: nat)
    requires |t| == RATES && |masks| == GROUPS
    ensures var t' := RoundTable(t, masks, limit, true);
            forall i: RateIndex :: ClearedIn(t, masks, limit, i) ==> t'[i].probEwma == 0
  {
    var t1 := Passed(t, ClearPass(masks, limit), RATES);
    var t' := Passed(t1, RecalcPass(masks), RATES);
    forall i: RateIndex | ClearedIn(t, masks, limit, i) ensures t'[i].probEwma == 0 {
      assert t1[i] == ClearUnfit(t[i]);
      assert t'[i] == Recalculate(t1[i]);
      ClearedDropsToZero(t[i]);
    }
  }

  /** A cleared rate has lost its average, so no dependable rate and no slot 0 is among them. */
  lemma ClearedLost(t: Table, masks: seq<Mask>, limit: nat, t': Table, primary: RateIndex)
    requires |t| == RATES && |masks| == GROUPS && SameTable(t', RoundTable(t, masks, limit, true))
    requires t'[primary].probEwma >= FIFTY_PERCENT || Slot(primary) == 0
    ensures forall i: RateIndex :: ClearedIn(t, masks, limit, i) ==> t'[i].probEwma == 0 && primary != i
  {
    ClearedThenRecalculated(t, masks, limit);
    hide RoundTable;
    forall i: RateIndex | ClearedIn(t, masks, limit, i) ensures t'[i].probEwma == 0 && primary != i {
      assert SameStats(t'[i], RoundTable(t, masks, limit, true)[i]);
    }
  }

  /** Crediting does not change which rates a round clears, and no cleared rate is above slot 0. */
  lemma SameClearing(t: Table, t': Table, masks: seq<Mask>, limit: nat)
    requires |t| == |t'| == RATES && |masks| == GROUPS
    requires forall j :: 0 <= j < RATES ==> t'[j].succHist == t[j].succHist
    ensures forall i: RateIndex :: ClearedIn(t, masks, limit, i) ==> ClearedIn(t', masks, limit, i) && Slot(i) > 0
  {
  }

  // ----- sampling, on values

  ghost function Positions(index: seq<nat>, column: seq<nat>, group: nat): (s: S.Sampler)
    requires SamplerOk(index, column, group)
    ensures S.WellFormed(s) && s.group == group
  {
    S.Sampler(group, seq(GROUPS, g requires 0 <= g < GROUPS => column[g] * 10 + index[g]))
  }

  /** Some group is supported, and slot 0 of it lies within every limit. */
  lemma LowestSlotExists(masks: seq<Mask>, limit: nat)
    requires CapsOk(masks)
    ensures S.SomeOn(S.On(masks)) && S.SlotBelow(masks, limit)
  {
    var g :| 0 <= g < GROUPS && g != CCK && masks[g] != {};
    assert MaskOk(g, masks[g]);
    assert S.On(masks)[g];
    assert 0 in masks[g];
  }

  /** The sampler's count of supported groups is the one the probe budget grows by. */
  lemma {:induction false} OnCountIs(masks: seq<Mask>, m: nat)
    requires |masks| == GROUPS && m <= GROUPS
    ensures S.Around(S.On(masks), GROUPS - 1, m) == CountGroups(masks, m)
    decreases m
  {
    if m > 0 {
      var on := S.On(masks);
      OnCountIs(masks, m - 1);
      S.AroundSplit(on, GROUPS - 1, m - 1, 1);
      S.OffsetIs(GROUPS - 1, m - 1, GROUPS);
      assert S.Around(on, S.Offset(GROUPS - 1, m - 1, GROUPS), 1) == S.Bit(on[m - 1]);
    }
  }

  /** Slot probed for a drawn slot v over a first rate at slot s: at most two above it. */
  function ClampedSlot(v: int, s: nat): int { if v - s > 1 then s + s % 2 + 1 else v }

  /** Every odd slot below a slot of the mask belongs to the mask. */
  ghost predicate OddClosed(m: Mask) {
    forall u, v :: v in m && 0 <= u < v && u % 2 == 1 ==> u in m
  }

  /** Replacing a drawn slot leads to a supported slot for every first rate exactly when the
      mask has all its odd slots. */
  lemma ClampSupportedIff(m: Mask)
    requires forall v :: v in m ==> 0 <= v < SLOTS
    ensures OddClosed(m) <==> forall v: int, s: nat :: v in m && s < SLOTS ==> ClampedSlot(v, s) in m
  {
    if forall v: int, s: nat :: v in m && s < SLOTS ==> ClampedSlot(v, s) in m {
      forall u, v | v in m && 0 <= u < v && u % 2 == 1 ensures u in m { assert ClampedSlot(v, u - 1) == u; }
    }
  }

  /** So for every mask of MCS rates, but not for a CCK mask of 11 Mbit/s alone. */
  lemma ClampSupported(g: nat, m: Mask)
    requires MaskOk(g, m)
    ensures g != CCK ==> OddClosed(m)
    ensures MaskOk(CCK, {3}) && !OddClosed({3})
  {
    var cck: Mask := {3};
    assert 3 in cck && 1 !in cck && 1 % 2 == 1;
  }

  /** Advancing one group's table position is a tick of the sampler. */
  lemma TickIs(index: seq<nat>, column: seq<nat>, group: nat, on: seq<bool>)
    requires SamplerOk(index, column, group) && |on| == GROUPS
    ensures var g := (group + 1) % GROUPS;
            && g == S.Succ(group, GROUPS)
            && (!on[g] ==> Positions(index, column, g) == S.Tick(Positions(index, column, group), on))
            && (on[g] && index[g] + 1 < 10 ==>
                  SamplerOk(index[g := index[g] + 1], column, g) &&
                  Positions(index[g := index[g] + 1], column, g) == S.Tick(Positions(index, column, group), on))
            && (on[g] && index[g] + 1 >= 10 ==>
                  var c := if column[g] + 1 >= 10 then 0 else column[g] + 1;
                  SamplerOk(index[g := 0], column[g := c], g) &&
                  Positions(index[g := 0], column[g := c], g) == S.Tick(Positions(index, column, group), on))
  {
  }

  ghost predicate ListsOk(maxTp: seq<nat>, maxProb: nat, groupTp: seq<seq<nat>>, groupProb: seq<nat>) {
    && |maxTp| == DEPTH && AllBelow(maxTp, RATES) && maxProb < RATES
    && |groupTp| == GROUPS && |groupProb| == GROUPS && AllBelow(groupProb, RATES)
    && forall g :: 0 <= g < GROUPS ==> GroupListOk(groupTp[g], g)
  }

  /** A group's list holds only rates of that group and the groups below. */
  ghost predicate GroupListOk(list: seq<nat>, g: nat) {
    |list| == DEPTH && AllBelow(list, RATES) && forall j :: 0 <= j < DEPTH ==> Group(list[j]) <= g
  }

  ghost predicate SamplerOk(index: seq<nat>, column: seq<nat>, group: nat) {
    && |index| == |column| == GROUPS && group < GROUPS
    && forall g :: 0 <= g < GROUPS ==> index[g] < 10 && column[g] < 10
  }

  /** One zero per group. */
  const ZEROS: seq<nat> := [0, 0, 0, 0, 0, 0, 0, 0, 0, 0, 0]

  const NO_ENTRY: Entry := Entry(0, NO_FLAGS, false, 0, 0, 0)

  lemma FreshIsValid(caps: Caps, masks: seq<Mask>, t: Table, l: Retransmit.Limits, maxTp: seq<nat>, maxProb: nat,
                     groupTp: seq<seq<nat>>, groupProb: seq<nat>, index: seq<nat>, column: seq<nat>)
    requires |masks| == GROUPS && (forall g :: 0 <= g < GROUPS ==> masks[g] == GroupMask(caps, g))
    requires exists g :: 0 <= g < GROUPS && g != CCK && GroupMask(caps, g) != {}
    requires |t| == RATES && forall i :: 0 <= i < RATES ==> t[i] == FRESH
    requires maxTp == PLACEHOLDERS && maxProb == 0 && groupTp == seq(GROUPS, _ => PLACEHOLDERS)
    requires groupProb == index == column == ZEROS
    ensures CapsOk(masks) && TableOk(t, masks, l)
    ensures ListsOk(maxTp, maxProb, groupTp, groupProb) && SamplerOk(index, column, 0)
  {
    forall g | 0 <= g < GROUPS ensures MaskOk(g, masks[g]) { GroupMaskOk(caps, g); }
  }

  lemma FreshStaysFresh(t: Table, masks: seq<Mask>)
    requires |masks| == GROUPS && |t| == RATES && forall i :: 0 <= i < RATES ==> t[i] == FRESH
    ensures forall i :: 0 <= i < RATES ==> Passed(t, RecalcPass(masks), RATES)[i] == FRESH
  {
  }
}
