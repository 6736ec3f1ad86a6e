/** Sudden death over whole runs: a primary rate that no longer gets through is replaced as soon
    as enough of its tries are lost, whatever the other rates do. */
module HtDecline {
  import opened FixedPoint
  import opened RateStatistics
  import opened RateGroups
  import opened FrameDuration
  import opened TopRates
  import opened HtCaps
  import opened HtTables
  import opened HtSpec
  import opened HtRobust
  import opened HtPublished
  import opened HtStation
  import Retransmit
  import S = HtSampler
  import PB = ProbeBudget
  import R = HtRuns

  /** A frame as the channel treats it: the tries each stage of the chain takes, and whether a
      rate other than the dead one gets it through. */
  datatype Frame = Frame(portControl: bool, tries: seq<nat>, through: bool)

  /** Every frame is tried at its first stage, and only stages in use are tried. */
  ghost predicate Tried(f: Frame, stages: nat) {
    |f.tries| == DEPTH && f.tries[0] >= 1 && forall j :: stages <= j < DEPTH ==> f.tries[j] == 0
  }

  /** Slots of a frame: the published chain, with the probe in its stage. */
  function SentSlots(chain: seq<Entry>, p: Probe, tries: seq<nat>, cckRates: seq<nat>): (s: seq<TxSlot>)
    requires |chain| == |tries| == DEPTH && |cckRates| == 4 && (p.Probe? ==> p.rate < RATES && p.stage <= 1)
    ensures |s| == DEPTH
  {
    var s := ChainSlots(chain, tries);
    if p.NoProbe? then s
    else s[p.stage := TxSlot(Encode(p.rate, cckRates), tries[p.stage], GroupFlags(Group(p.rate)))]
  }

  /** p is the published primary rate, the station supports it, and g is where it falls back to. */
  ghost predicate Leading(s: Station, p: RateIndex, g: nat)
    reads s
  {
    && s.Valid() && s.Published() && s.maxTp[0] == p && Supp(s.supported, p) && Distinct(s.cckRates)
    && g < Group(p) && Fallback(s.supported, Group(p), g)
  }

  /** Probes the budget still allows. */
  function Left(b: PB.Budget): nat { b.tries + 2 * b.count }

  lemma SlotsFilled(s: Station, p: Probe, f: Frame)
    requires s.Valid() && s.ChainOk() && Tried(f, s.StageCount()) && (p.Probe? ==> p.rate < RATES && p.stage <= 1)
    ensures forall j :: 0 <= j < DEPTH ==> Filled(SentSlots(s.chain, p, f.tries, s.cckRates)[j], s.cckRates)
  {
    hide TableOk, MaskOk, SamplerOk, S.IsTable, Encode, GroupFlags;
    var slots := SentSlots(s.chain, p, f.tries, s.cckRates);
    forall j | 0 <= j < DEPTH ensures Filled(slots[j], s.cckRates) {
      if p.Probe? && j == p.stage {
        assert slots[j] == TxSlot(Encode(p.rate, s.cckRates), f.tries[j], GroupFlags(Group(p.rate)));
      } else if j < s.StageCount() {
        assert slots[j] == TxSlot(Encode(s.StageRate(j), s.cckRates), f.tries[j], GroupFlags(Group(s.StageRate(j))));
      }
    }
  }

  /** Unless a probe takes its stage, the primary rate is booked its tries. */
  lemma PrimaryTried(s: Station, p: Probe, f: Frame, r: RateIndex, g: nat, sent: bool)
    requires Leading(s, r, g) && Tried(f, s.StageCount()) && (p.Probe? ==> p.stage == 1 && p.rate < RATES)
    requires var slots := CompletionReport(sent, SentSlots(s.chain, p, f.tries, s.cckRates)).slots;
             Creditable(slots, s.supported, s.cckRates)
    ensures var slots := CompletionReport(sent, SentSlots(s.chain, p, f.tries, s.cckRates)).slots;
            TriesOf(slots, s.supported, s.cckRates, r) >= f.tries[0]
  {
    hide TableOk, MaskOk, SamplerOk, S.IsTable, Encode, GroupFlags, Decode;
    assert s.StageRate(0) == r;
    EncodeDecode(r, f.tries[0], s.supported, s.cckRates);
  }

  /** A report between updates moves the primary rate to a lower group exactly when its window
      has collapsed. */
  lemma Outcome(s: Station, t: Table, p: RateIndex, g: nat, list: seq<nat>, robust: RateIndex, chain: seq<Entry>)
    requires s.Valid() && |t| == RATES && |list| == DEPTH && AllBelow(list, RATES) && list[0] == p
    requires s.Quiet(t, list, robust, chain) && g < GROUPS && Fallback(s.supported, Group(p), g)
    requires t[p].probEwma >= FIFTY_PERCENT || Slot(p) == 0
    requires t[p].success < 0x10_0000
    ensures if Collapsed(t[p]) then Group(s.maxTp[0]) <= g && s.Published() else s.maxTp[0] == p
    ensures s.Published() || (s.maxTp == list && s.maxProb == robust && s.chain == chain)
  {
    hide TableOk, MaskOk, SamplerOk, S.IsTable, Station.ChainOk, Keys, Frac, RobustAfter, CapsOk;
    FailingIff(t[p]);
    FallsBack(s, p, g);
  }

  lemma FallsBack(s: Station, p: RateIndex, g: nat)
    requires s.Valid() && g < GROUPS && Fallback(s.supported, Group(p), g)
    ensures Group(Downgraded(s.supported, s.groupTp, p, 0)) <= g < Group(p)
  {
    hide TableOk, MaskOk, SamplerOk, S.IsTable, Keys, CapsOk;
    DowngradedIs(s.supported, s.groupTp, p, 0);
  }

  /** Report of a frame that rate p did not get through. */
  method Deliver(s: Station, r: Report, p: RateIndex, ghost g: nat) returns (replaced: bool)
    requires Leading(s, p, g) && s.Acceptable(r) && !r.ctlAmpdu && SentLen(r) == 1
    requires AckedLen(r) == 0 || !TookIt(r.slots, s.supported, s.cckRates, p)
    requires s.rates[p].success < 0x10_0000
    modifies s
    ensures s.Valid() && Creditable(r.slots, s.supported, s.cckRates)
    ensures s.rates[p].success == old(s.rates[p].success) && s.ampduLen == old(s.ampduLen) + 1
    ensures s.rates[p].attempts == old(s.rates[p].attempts) + TriesOf(r.slots, s.supported, s.cckRates, p)
    ensures s.Budget() == PB.OnStatus(old(s.Budget()))
    ensures replaced <==> Collapsed(s.rates[p])
    ensures if replaced then Group(s.maxTp[0]) <= g && s.Published() else Leading(s, p, g)
  {
    hide TableOk, MaskOk, SamplerOk, S.IsTable, Encode, GroupFlags, Decode, Credited, Creditable, Backed, Filled;
    hide Station.Quiet, CapsOk, Fallback, Station.Kept, Station.ChainFits, StagesOk, TriesOf, TookIt;
    hide GroupListOk, Positions, PB.OnStatus, EntryOk, Collapsed;
    ghost var t := Credited(s.rates, r.slots, s.supported, s.cckRates, SentLen(r), AckedLen(r), 0);
    ghost var list, robust, chain := s.maxTp, s.maxProb, s.chain;
    CreditedBooks(s.rates, r.slots, s.supported, s.cckRates, SentLen(r), AckedLen(r));
    s.TxStatus(r, false, 0, true);
    Outcome(s, t, p, g, list, robust, chain);
    assert SameStats(s.rates[p], t[p]);
    SameCollapse(s.rates[p], t[p]);
    replaced := s.maxTp[0] != p;
  }

  lemma SameCollapse(a: RateStats, b: RateStats)
    requires SameStats(a, b)
    ensures Collapsed(a) <==> Collapsed(b)
  {
  }

  /** One frame and its report. The probe, if any, takes the place of a stage; rate p does not
      get the frame through. */
  method SendFrame(s: Station, f: Frame, p: RateIndex, ghost g: nat) returns (tried: bool, replaced: bool)
    requires Leading(s, p, g) && Tried(f, s.StageCount()) && s.ampduLen + 1 < 0x10_0000
    requires s.rates[p].success < 0x10_0000
    modifies s
    ensures s.Valid() && s.rates[p].success == old(s.rates[p].success) && s.ampduLen == old(s.ampduLen) + 1
    ensures s.rates[p].attempts >= old(s.rates[p].attempts) + if tried then f.tries[0] else 0
    ensures Left(s.Budget()) + (if tried then 0 else 1) <= Left(old(s.Budget()))
    ensures replaced <==> Collapsed(s.rates[p])
    ensures if replaced then Group(s.maxTp[0]) <= g && s.Published() else Leading(s, p, g)
  {
    hide TableOk, MaskOk, SamplerOk, S.IsTable, Encode, GroupFlags, Decode, Credited, Creditable, Backed, Filled;
    hide Station.SampledFrom, Station.PlacedFrom, Station.ProbeOk, Station.Requested, Station.Quiet, CapsOk, Fallback;
    hide Station.Kept, Station.ChainFits, StagesOk, TriesOf, TookIt, ListsOk, Positions, EntryOk, Collapsed, Distinct;
    var probe := s.GetRate(f.portControl);
    assert probe.Probe? ==> probe.rate < RATES && probe.stage <= 1 by { ProbeStage(s, probe, old(s.sampleInitFlag)); }
    tried := !(probe.Probe? && probe.stage == 0);
    var slots := SentSlots(s.chain, probe, f.tries, s.cckRates);
    SlotsFilled(s, probe, f);
    s.CompletionAcceptable(true, slots);
    s.CompletionAcceptable(false, slots);
    var sent := f.through && !TookIt(CompletionReport(true, slots).slots, s.supported, s.cckRates, p);
    var r := CompletionReport(sent, slots);
    if tried { PrimaryTried(s, probe, f, p, g, sent); }
    replaced := Deliver(s, r, p, g);
  }

  lemma ProbeStage(s: Station, p: Probe, starting: bool)
    requires s.Valid() && s.ProbeOk(p, starting)
    ensures p.Probe? ==> p.rate < RATES && p.stage <= 1
  {
  }

  /** From any state of any station: once need tries, more than 30 and enough to push the success
      share below a fifth, are lost at the primary rate, the rate is replaced from a lower group.
      Until its window collapses it stays. The other frames are the probes the budget allows. */
  method Starve(s: Station, frames: seq<Frame>, ghost need: nat, ghost g: nat) returns (n: nat)
    requires s.Valid() && Leading(s, s.maxTp[0], g) && forall f :: f in frames ==> Tried(f, s.StageCount())
    requires s.rates[s.maxTp[0]].success < 0x10_0000
    requires need > 30 && 4096 * s.rates[s.maxTp[0]].success < 819 * need
    requires |frames| >= need + s.sampleTries + 2 * s.sampleCount && s.ampduLen + |frames| < 0x10_0000
    modifies s
    ensures s.Valid() && s.Published() && n <= |frames|
    ensures Group(s.maxTp[0]) <= g < Group(old(s.maxTp[0])) && s.rates[old(s.maxTp[0])].attempts > 30
  {
    hide TableOk, MaskOk, SamplerOk, S.IsTable, CapsOk, GroupListOk, Station.ChainOk, Fallback, Distinct;
    var p := s.maxTp[0];
    ghost var lost, c := 0, s.rates[p].success;
    var done := false;
    n := 0;
    while n < |frames| && !done
      invariant n <= |frames| && s.Valid() && s.ampduLen == old(s.ampduLen) + n
      invariant s.rates[p].success == c && s.rates[p].attempts >= lost
      invariant Left(s.Budget()) + n - lost <= old(Left(s.Budget()))
      invariant if done then Group(s.maxTp[0]) <= g && s.Published() && Collapsed(s.rates[p])
                else Leading(s, p, g)
      invariant n > 0 && !done ==> !Collapsed(s.rates[p])
      decreases |frames| - n, !done
    {
      assert frames[n] in frames;
      var tried;
      tried, done := SendFrame(s, frames[n], p, g);
      lost := lost + if tried then 1 else 0;
      n := n + 1;
    }
  }

  // ----- a station whose primary rate goes dead

  /** An HT station on 40 MHz channels; its hardware takes a single rate. */
  const HT40: Caps := Caps(false, false, 3, 1, false, false, false, false, {})

  ghost predicate IsHt40(m: seq<Mask>) {
    |m| == GROUPS && forall g :: 0 <= g < GROUPS ==> m[g] == if g == 0 || g == 2 then HT_MASK else {}
  }

  lemma Ht40Masks(m: seq<Mask>)
    requires |m| == GROUPS && forall g :: 0 <= g < GROUPS ==> m[g] == GroupMask(HT40, g)
    ensures IsHt40(m)
  {
  }

  /** Only rates 20, 21 and 22 have an average, and it is high. */
  ghost predicate Wide(t: Table, low: int) {
    |t| == RATES && forall i :: 0 <= i < RATES ==>
      && t[i].success == 0
      && if 20 <= i <= 22 then low <= t[i].probEwma <= SCALE && t[i].attHist > 0 else t[i].probEwma == 0
  }

  lemma SeedsWide(t: Table, m: seq<Mask>)
    requires |t| == RATES && IsHt40(m) && forall i :: 0 <= i < RATES ==> SameStats(t[i], FRESH)
    ensures Wide(Passed(Passed(t, SeedPass(m, 1, W40), RATES), RecalcPass(m), RATES), SCALE)
  {
    assert Frac(1, 1) == Frac(2, 2) == SCALE;
  }

  /** A window without successes takes a quarter off an average at most. */
  lemma WideRound(t: Table, t1: Table, m: seq<Mask>, t': Table)
    requires Wide(t, SCALE) && IsHt40(m) && |t1| == RATES
    requires forall j :: 0 <= j < RATES ==> t1[j] == t[j].(attempts := t1[j].attempts)
    requires SameTable(t', RoundTable(t1, m, 7, true))
    ensures Wide(t', 3072)
  {
    hide RoundTable, SameTable, Recalculate, ClearUnfit;
    R.RoundOf(t1, m, 7, 0, t');
    forall i | 0 <= i < RATES
      ensures t'[i].success == 0
      ensures if 20 <= i <= 22 then 3072 <= t'[i].probEwma <= SCALE && t'[i].attHist > 0 else t'[i].probEwma == 0
    {
      R.RoundOf(t1, m, 7, i, t');
      R.LostWindow(t1[i]);
      if t1[i].attempts == 0 { UntriedWindow(t1[i]); }
    }
  }

  lemma UntriedWindow(r: RateStats)
    requires r.attempts == 0
    ensures Recalculate(r).probEwma == r.probEwma
  {
  }

  /** Then one of these rates leads. */
  lemma WideHead(t: Table, m: seq<Mask>, l: Retransmit.Limits)
    requires TableOk(t, m, l) && IsHt40(m) && Wide(t, 3072)
    ensures var head := BestRates(Keys(t, m, l, SCALE), m)[0]; 20 <= head <= 22 && Lowered(t, head) == head
  {
    hide BestRates, TableOk, Keys;
    var k := Keys(t, m, l, SCALE);
    R.CapsOf(t, m, l);
    BestRatesSound(k, m);
    var head := BestRates(k, m)[0];
    KeyIsExact(t, m, l, SCALE, 22);
    KeyIsExact(t, m, l, SCALE, head);
    Positive(t[22].probEwma);
    assert k[22].tp > 0 && Supp(m, 22);
  }

  lemma Positive(prob: int)
    requires 3072 <= prob <= SCALE
    ensures var p := if prob > NINETY_PERCENT then NINETY_PERCENT else prob;
            ExactNanos(22, SCALE) > 0 && 100 * Quot(p * 1000000, ExactNanos(22, SCALE)) / SCALE > 0
  {
    var nanos := WideNanos();
    hide ExactNanos;
    QuotientAtLeast((if prob > NINETY_PERCENT then NINETY_PERCENT else prob) * 1000000, nanos, 41);
  }

  lemma WideNanos() returns (t: nat)
    ensures 0 < t < 10_000_000 && ExactNanos(22, SCALE) == t
  {
    OverheadIs();
    t := ExactNanos(22, SCALE);
  }

  /** A station of this kind before its first frame: the seeded rates are ranked, the chain still
      names rate 0. */
  ghost predicate Fledgling(s: Station)
    reads s
  {
    && s.Valid() && IsHt40(s.supported) && Wide(s.rates, SCALE) && s.Unaggregated() && s.maxRates == 1
    && s.needClear == 0 && s.ampduPackets == 0 && s.cckRates == [0, 1, 2, 3] && s.sampleTries == 4
    && s.sampleWait == 8 && Filled(TxSlot(s.chain[0].idx, 1, s.chain[0].flags), s.cckRates)
  }

  method Hatch(limits: Retransmit.Limits, table: seq<int>) returns (s: Station)
    requires S.IsTable(table)
    ensures fresh(s) && Fledgling(s)
  {
    hide TableOk, CapsOk, SamplerOk, S.IsTable, ListsOk, GroupMask, Positions, Wide, SameStats, CountGroups;
    hide Station.Grounds, Passed, SeedPass, RecalcPass, Station.NotedBy, Station.FreshlyRanked, StartIdx;
    hide Station.CountsNow, Station.ChainFits, EntryOk, Encode, GroupFlags;
    assert exists g :: 0 <= g < GROUPS && g != CCK && GroupMask(HT40, g) != {} by { HtSupported(); }
    s := new Station(HT40, limits, 1, [0, 1, 2, 3], false, table, false);
    Ht40Masks(s.supported);
    ghost var unused := s.rates;
    assert s.StageRate(0) == 0;
    assert Filled(TxSlot(s.chain[0].idx, 1, s.chain[0].flags), s.cckRates);
    s.InitStartStats(1, W40);
    SeedsWide(unused, s.supported);
  }

  lemma HtSupported()
    ensures 0 != CCK && GroupMask(HT40, 0) == HT_MASK != {}
  {
    assert 0 in HT_MASK;
  }

  /** A port-control frame that ends an interval, lost after one try. */
  method LoseFirst(s: Station)
    requires Fledgling(s)
    modifies s
    ensures s.Valid() && s.Published() && 20 <= s.maxTp[0] <= 22 && s.rates[s.maxTp[0]].success == 0
    ensures s.sampleTries == 4 && s.sampleCount == 10 * CountGroups(s.supported, GROUPS) && s.ampduLen <= 1
    ensures IsHt40(s.supported) && s.maxRates == 1 && s.cckRates == [0, 1, 2, 3]
  {
    hide TableOk, CapsOk, MaskOk, SamplerOk, S.IsTable, GroupListOk, Positions, Filled, CompletionReport;
    hide Wide, Station.Published, CountGroups, Station.RoundDone, IsHt40;
    var probe := s.GetRate(true);
    ghost var t0 := s.rates;
    ghost var t, n0, head := FirstReport(s);
    FirstRound(s, t0, t, n0, head);
  }

  method FirstReport(s: Station) returns (ghost t: Table, ghost n0: Notes, ghost head: RateIndex)
    requires Fledgling(s)
    modifies s
    ensures s.Valid() && |t| == RATES && s.RoundDone(t, n0, head, 7, true) && s.Unaggregated()
    ensures forall j :: 0 <= j < RATES ==> t[j] == old(s.rates)[j].(attempts := t[j].attempts)
    ensures s.sampleTries == 4 && s.sampleCount == 10 * CountGroups(s.supported, GROUPS) && s.ampduLen <= 1
  {
    hide TableOk, CapsOk, MaskOk, SamplerOk, S.IsTable, GroupListOk, Positions, CountGroups, Credited, Creditable;
    hide Backed;
    hide Encode, GroupFlags, Decode, Station.RoundDone, AfterDeath, CompletionReport, Wide, TriesOf, TookIt;
    hide NextAvgLen, StagesOk, Station.Quiet, Station.Kept, ClearedIn, Station.ChainFits, Filled, IsHt40;
    var slots := ChainSlots(s.chain, [1, 0, 0, 0]);
    assert forall j :: 0 <= j < DEPTH ==> Filled(slots[j], s.cckRates) by { OneTried(s.chain, s.cckRates); }
    s.CompletionAcceptable(false, slots);
    var r := CompletionReport(false, slots);
    assert !r.ctlAmpdu;
    t := Credited(s.rates, r.slots, s.supported, s.cckRates, 1, 0, 0);
    CreditedBooks(s.rates, r.slots, s.supported, s.cckRates, 1, 0);
    n0, head := s.NotesNow(), AfterDeath(t, s.supported, s.groupTp, s.maxTp)[0];
    s.TxStatus(r, true, 7, true);
  }

  lemma OneTried(chain: seq<Entry>, cckRates: seq<nat>)
    requires |chain| == DEPTH && |cckRates| == 4 && Filled(TxSlot(chain[0].idx, 1, chain[0].flags), cckRates)
    ensures forall j :: 0 <= j < DEPTH ==> Filled(ChainSlots(chain, [1, 0, 0, 0])[j], cckRates)
  {
  }

  lemma FirstRound(s: Station, t0: Table, t: Table, n0: Notes, head: RateIndex)
    requires s.Valid() && |t| == RATES && s.RoundDone(t, n0, head, 7, true) && s.Unaggregated()
    requires IsHt40(s.supported) && Wide(t0, SCALE)
    requires forall j :: 0 <= j < RATES ==> t[j] == t0[j].(attempts := t[j].attempts)
    ensures s.Published() && 20 <= s.maxTp[0] <= 22 && s.rates[s.maxTp[0]].success == 0
  {
    hide TableOk, CapsOk, MaskOk, SamplerOk, S.IsTable, GroupListOk, RoundTable, BestRates, Keys, Lowered;
    hide IsHt40, Station.RoundDone, SameTable, Station.Published;
    R.RoundLists(s, t, n0, head, 7);
    WideRound(t0, t, s.supported, s.rates);
    WideHead(s.rates, s.supported, s.limits);
  }

  lemma {:induction false} FewGroups(m: seq<Mask>, n: nat)
    requires n <= |m|
    ensures CountGroups(m, n) <= n
  {
    if n > 0 { FewGroups(m, n - 1); }
  }

  /** The station's first frame ends an interval and publishes a rate of the 40 MHz group, slot 0,
      1 or 2. Every later port-control frame is lost after one try at that rate, and it gives way
      to a rate of the 20 MHz group. */
  method DeadPrimary(limits: Retransmit.Limits, table: seq<int>) returns (s: Station, dead: nat)
    requires S.IsTable(table)
    ensures fresh(s) && s.Valid() && s.Published() && 20 <= dead <= 22 && s.rates[dead].attempts > 30
    ensures Group(s.maxTp[0]) == 0
  {
    hide S.IsTable, TableOk, CapsOk, MaskOk, SamplerOk, GroupListOk, Positions, Station.Published, Wide, CountGroups;
    s := Hatch(limits, table);
    LoseFirst(s);
    dead := s.maxTp[0];
    FewGroups(s.supported, GROUPS);
    var frames := seq(300, _ => Frame(true, [1, 0, 0, 0], false));
    assert Fallback(s.supported, Group(dead), 0);
    var n := Starve(s, frames, 31, 0);
  }
}