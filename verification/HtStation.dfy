/** The HT/VHT controller of one station. Every driver event is a method that keeps Valid(). */
module HtStation {
  import opened FixedPoint
  import opened RateStatistics
  import opened RateGroups
  import opened FrameDuration
  import opened TopRates
  import opened HtCaps
  import opened HtTables
  import opened HtSpec
  import opened HtRobust
  import opened HtPublished
  import Retransmit
  import S = HtSampler
  import PB = ProbeBudget

  class Station {
    const limits: Retransmit.Limits
    const maxRates: nat
    const cckRates: seq<nat>
    const dynamicSmps: bool
    const table: seq<int>
    const supported: seq<Mask>

    var rates: Table
    var avgAmpduLen: nat
    var ampduLen: nat
    var ampduPackets: nat

    var maxTp: seq<nat>
    var maxProb: nat
    var groupTp: seq<seq<nat>>
    var groupProb: seq<nat>
    var chain: seq<Entry>

    var sampleIndex: seq<nat>
    var sampleColumn: seq<nat>
    var sampleGroup: nat
    var sampleWait: nat
    var sampleTries: nat
    var sampleCount: nat
    var sampleInitFlag: bool
    var sampleInitCounts: nat
    var sampleForceCounts: nat
    var sampleInitIdx: nat
    var sampleAllBw: bool
    var sampleClearFlag: bool
    var sampleClearBw: set<Width>
    var needClear: nat

    /** Set up a station (minstrel_ht_update_caps): everything zero, then ranked and published
        once. Stations without any HT or VHT group fall back to the legacy controller. */
    constructor (caps: Caps, limits: Retransmit.Limits, maxRates: nat, cckRates: seq<nat>, dynamicSmps: bool,
                 table: seq<int>, hasMrr: bool)
      requires |cckRates| == 4 && S.IsTable(table)
      requires exists g :: 0 <= g < GROUPS && g != CCK && GroupMask(caps, g) != {}
      ensures Valid() && Published()
      ensures this.limits == limits && this.maxRates == maxRates && this.cckRates == cckRates && this.table == table
      ensures forall g :: 0 <= g < GROUPS ==> supported[g] == GroupMask(caps, g)
      ensures forall i :: 0 <= i < RATES ==> SameStats(rates[i], FRESH)
      ensures maxTp == PLACEHOLDERS && maxProb == 0 && Grounds() && needClear == 0 && CountsNow() && ChainFits()
      ensures Unaggregated() && ampduPackets == 0 && sampleTries == 4 && sampleWait == (if hasMrr then 0 else 8)
      ensures sampleCount == 10 * CountGroups(supported, GROUPS)
      ensures Sampler() == S.Sampler(0, ZEROS) && !sampleInitFlag && sampleInitCounts == sampleInitIdx == 0
      ensures !sampleAllBw && !sampleClearFlag
    {
      hide Published, ListsOk, SamplerOk, TableOk, CapsOk, MaskOk, GroupMask, Positions, StagesOk, S.IsTable;
      hide Sampler, CountGroups, SameStats, CountsNow, ChainFits, Grounds;
      S.TableEntry(table, 0);
      this.limits, this.maxRates, this.cckRates := limits, maxRates, cckRates;
      this.dynamicSmps, this.table := dynamicSmps, table;
      supported := seq(GROUPS, g requires 0 <= g < GROUPS => GroupMask(caps, g));
      rates := seq(RATES, _ => FRESH);
      avgAmpduLen, ampduLen, ampduPackets := SCALE, 0, 0;
      maxTp, maxProb := PLACEHOLDERS, 0;
      groupTp, groupProb := seq(GROUPS, _ => PLACEHOLDERS), ZEROS;
      chain := [NO_ENTRY, NO_ENTRY, NO_ENTRY, NO_ENTRY];
      sampleIndex, sampleColumn, sampleGroup := ZEROS, ZEROS, 0;
      sampleCount, sampleWait := if hasMrr then 32 else 8, if hasMrr then 0 else 8;
      sampleTries := 4;
      sampleInitFlag, sampleInitCounts, sampleForceCounts, sampleInitIdx := false, 0, 0, 0;
      sampleAllBw, sampleClearFlag, sampleClearBw, needClear := false, false, {}, 0;
      new;
      FreshIsValid(caps, supported, rates, limits, maxTp, maxProb, groupTp, groupProb, sampleIndex, sampleColumn);
      PlaceholdersGrounded();
      Launch();
      SamplerAtStart();
    }

    lemma SamplerAtStart()
      requires Valid() && sampleIndex == sampleColumn == ZEROS && sampleGroup == 0
      ensures Sampler() == S.Sampler(0, ZEROS)
    {
    }

    lemma PlaceholdersGrounded()
      requires Valid() && maxTp == PLACEHOLDERS && maxProb == 0 && groupTp == seq(GROUPS, _ => PLACEHOLDERS)
      ensures Grounds()
    {
    }

    /** First ranking and publication of a fresh station. */
    method Launch()
      requires Valid() && ampduPackets == 0 && maxProb == 0 && Grounds()
      requires forall i :: 0 <= i < RATES ==> rates[i] == FRESH
      modifies this`rates, this`avgAmpduLen, this`ampduLen, this`ampduPackets, this`maxTp, this`maxProb, this`groupTp
      modifies this`groupProb
      modifies this`sampleCount, this`sampleAllBw, this`sampleClearFlag, this`sampleClearBw, this`chain
      ensures Valid() && Published() && ampduPackets == 0 && (old(Unaggregated()) ==> Unaggregated())
      ensures forall i :: 0 <= i < RATES ==> SameStats(rates[i], FRESH)
      ensures maxTp == PLACEHOLDERS && maxProb == 0 && Grounds() && CountsNow() && ChainFits()
      ensures sampleAllBw == old(sampleAllBw) && sampleClearFlag == old(sampleClearFlag)
      ensures sampleCount == 10 * CountGroups(supported, GROUPS)
    {
      hide Published, SamplerOk, Keys, GroupList, BestRates, TableOk, MaskOk, S.IsTable, Passed, RecalcPass, StagesOk;
      hide Lowered, Chosen, NotesAfter, WantsClearing, CountsCurrent, ChainFits, TakesIn, Fainting;
      ghost var c, n0 := ScanNow(), NotesNow();
      FreshStaysFresh(rates, supported);
      UpdateStats();
      ghost var scanned := rates;
      NothingRanked(c.(avgLen := avgAmpduLen));
      NothingCleared(c.(avgLen := avgAmpduLen), n0);
      UpdateRates();
      assert forall i :: 0 <= i < RATES ==> SameStats(rates[i], scanned[i]);
      assert maxProb == 0;
    }

    /** Without any success average the placeholders are listed. */
    lemma NothingRanked(c: Scan)
      requires Valid() && ScanOk(c) && c.masks == supported && c.l == limits && c.avgLen == avgAmpduLen
      requires rates == Passed(c.start, RecalcPass(supported), RATES)
      requires forall i :: 0 <= i < RATES ==> rates[i].probEwma == 0
      ensures BestRates(K(), supported) == PLACEHOLDERS && Lowered(rates, 0) == 0 && Chosen(c, 0, RATES) == 0
    {
      BestRatesSupported(rates, supported, limits, avgAmpduLen);
      Idle(c, 0, 0, RATES);
    }

    lemma NothingCleared(c: Scan, n0: Notes)
      requires ScanOk(c) && NotesOk(n0) && forall i :: 0 <= i < RATES ==> c.start[i] == FRESH
      ensures var r := NotesAfter(c, n0, RATES); r.allBw == n0.allBw && r.clearFlag == n0.clearFlag
    {
      CalmNotes(c, n0, RATES);
    }

    ghost predicate Fixed() {
      |supported| == GROUPS && CapsOk(supported) && |cckRates| == 4 && |table| == S.TABLE_SIZE && S.IsTable(table)
    }

    ghost predicate Valid()
      reads this
    {
      && Fixed()
      && |rates| == RATES && TableOk(rates, supported, limits)
      && avgAmpduLen >= SCALE && ampduPackets <= ampduLen < 0x10_0000
      && ListsOk(maxTp, maxProb, groupTp, groupProb)
      && SamplerOk(sampleIndex, sampleColumn, sampleGroup)
      && sampleInitIdx < RATES && Slot(sampleInitIdx) == 0
      && |chain| == DEPTH
    }

    /** No aggregation has been reported: the average aggregate is exactly one frame. */
    ghost predicate Unaggregated()
      reads this
    {
      avgAmpduLen == SCALE && ampduLen == ampduPackets
    }

    /** Ranking keys of all rates in the current state. */
    ghost function K(): (k: seq<Key>)
      requires Valid()
      reads this
      ensures |k| == RATES
    {
      Keys(rates, supported, limits, avgAmpduLen)
    }

    function KeyAt(i: RateIndex): (k: Key)
      requires Valid()
      reads this
      ensures k == K()[i] && k.prob == rates[i].probEwma
    {
      RateKey(rates, supported, limits, avgAmpduLen, i)
    }

    /** Every rate the station may publish is supported or one of the two placeholders. */
    ghost predicate Grounds()
      requires Valid()
      reads this
    {
      StagesOk(supported, maxTp, maxProb, groupTp, groupProb)
    }

    /** Retry counts marked as computed fit the current air times. */
    ghost predicate CountsNow()
      reads this
    {
      CountsCurrent(rates, limits, avgAmpduLen)
    }

    ghost function Budget(): PB.Budget
      reads this
    {
      PB.Budget(sampleWait, sampleTries, sampleCount)
    }

    // ----- statistics update

    /** Bounded insertion into a top list, in place. */
    method SortBestTpRates(i: RateIndex, tpList: array<nat>)
      requires Valid() && tpList.Length == DEPTH && AllBelow(tpList[..], RATES)
      modifies tpList
      ensures tpList[..] == Insert(K(), old(tpList[..]), i)
    {
      var listKeys := [KeyAt(tpList[0]), KeyAt(tpList[1]), KeyAt(tpList[2]), KeyAt(tpList[3])];
      InsertInPlace(tpList, i, KeyAt(i), listKeys, K());
    }

    /** Track the most robust rate, per station and per group. */
    method SetBestProbRate(i: RateIndex)
      requires Valid()
      modifies this`maxProb, this`groupProb
      ensures Valid()
      ensures if Group(i) == CCK && Group(maxTp[0]) != CCK
              then maxProb == old(maxProb) && groupProb == old(groupProb)
              else && maxProb == MoreRobust(K(), old(maxProb), i)
                   && groupProb == old(groupProb)[Group(i) := MoreRobust(K(), old(groupProb)[Group(i)], i)]
      // A rate above 75% of 4096 must be faster than the noted one, any other more reliable.
      ensures !(Group(i) == CCK && Group(maxTp[0]) != CCK) ==>
                var k, o, p := K()[i], K()[old(maxProb)], K()[old(groupProb)[i / 10]];
                && maxProb == (if (k.prob > 3072 && k.tp > o.tp) || (k.prob <= 3072 && k.prob > o.prob)
                               then i else old(maxProb))
                && groupProb[i / 10] == if (k.prob > 3072 && k.tp > p.tp) || (k.prob <= 3072 && k.prob > p.prob)
                                        then i else old(groupProb)[i / 10]
    {
      hide Keys, TableOk, MaskOk, RateKey;
      if Group(i) == CCK && Group(maxTp[0]) != CCK {
        return;
      }
      var g := Group(i);
      var best := KeyAt(maxProb);
      var groupBest := KeyAt(groupProb[g]);
      var cur := KeyAt(i);
      if cur.prob > SEVENTYFIVE_PERCENT {
        if cur.tp > best.tp { maxProb := i; }
        if cur.tp > groupBest.tp { groupProb := groupProb[g := i]; }
      } else {
        if cur.prob > best.prob { maxProb := i; }
        if cur.prob > groupBest.prob { groupProb := groupProb[g := i]; }
      }
    }

    /** Average aggregate length of the interval that ends here. */
    method RefreshAmpduLen()
      requires Valid()
      modifies this`avgAmpduLen, this`ampduLen, this`ampduPackets
      ensures Valid() && ampduPackets == 0 && (old(Unaggregated()) ==> Unaggregated())
      ensures avgAmpduLen == NextAvgLen(old(avgAmpduLen), old(ampduLen), old(ampduPackets))
      ensures ampduLen == if old(ampduPackets) > 0 then 0 else old(ampduLen)
      // The average goes a quarter of the way to the subframes per packet of the interval.
      ensures old(ampduPackets) == 0 ==> avgAmpduLen == old(avgAmpduLen)
      ensures old(ampduPackets) > 0 ==>
                QuarterWay(old(avgAmpduLen), 4096 * old(ampduLen) / old(ampduPackets), avgAmpduLen)
    {
      hide TableOk, CapsOk, ListsOk, SamplerOk, S.IsTable, Ewma, Frac, QuarterWay;
      NextAvgLenIs(avgAmpduLen, ampduLen, ampduPackets);
      if ampduPackets > 0 {
        avgAmpduLen := Ewma(avgAmpduLen, Frac(ampduLen, ampduPackets));
        ampduLen := 0;
        ampduPackets := 0;
      }
    }

    function StartRate(): int
      reads this
    {
      if sampleInitFlag then sampleInitIdx else -1
    }

    ghost function NotesNow(): Notes
      reads this
    {
      Notes(maxProb, groupProb, sampleAllBw, sampleClearFlag, sampleClearBw)
    }

    /** The scan an update would start in the current state. */
    ghost function ScanNow(): Scan
      requires |maxTp| == DEPTH
      reads this
    {
      Scan(rates, supported, limits, avgAmpduLen, Group(maxTp[0]) == CCK, StartRate())
    }

    /** The scan of table t by an update that just ended, started under the given head. */
    ghost function ScanFrom(t: Table, head: RateIndex): Scan
      reads this
    {
      Scan(t, supported, limits, avgAmpduLen, Group(head) == CCK, StartRate())
    }

    /** Robust rates and clearing requests are those of the scan c from the notes n0 on. */
    ghost predicate NotedBy(c: Scan, n0: Notes)
      reads this
    {
      && ScanOk(c) && NotesOk(n0)
      && NotesNow() == NotesAfter(c, n0, RATES) && maxProb == Chosen(c, n0.maxProb, RATES)
    }

    ghost predicate ScanHere(c: Scan)
      reads this
    {
      && ScanOk(c) && c.masks == supported && c.l == limits && c.avgLen == avgAmpduLen
      && |maxTp| == DEPTH && c.cckHead == (Group(maxTp[0]) == CCK) && c.startRate == StartRate()
    }

    /** Where a scan stands after n rates: table, lists and notes. */
    ghost predicate ScanAt(c: Scan, n0: Notes, n: nat, mcs: seq<nat>, cck: seq<nat>, grp: seq<nat>)
      reads this
    {
      && Valid() && ScanHere(c) && NotesOk(n0) && n <= RATES
      && rates == Passed(c.start, RecalcPass(supported), n)
      && ListsAt(K(), supported, mcs, cck, grp, n)
      && NotesNow() == NotesAfter(c, n0, n)
    }

    lemma ScanAtSkip(c: Scan, n0: Notes, i: nat, n: nat, mcs: seq<nat>, cck: seq<nat>, grp: seq<nat>)
      requires i + n <= RATES && ScanAt(c, n0, i, mcs, cck, grp)
      requires forall j :: i <= j < i + n ==> !Supp(supported, j)
      ensures ScanAt(c, n0, i + n, mcs, cck, grp)
    {
      hide Select, TopList, Passed, RecalcPass, Keys, TableOk, MaskOk, NotesAfter, NotesOk;
      if i < RATES { ScanSkip(c.start, supported, K(), i, n, mcs, cck, grp); }
      NotesSkip(c, n0, i, n);
    }

    /** Insert one rate into the list of its kind and into the running group list. */
    method FileRate(i: RateIndex, mcs: array<nat>, cck: array<nat>, grp: array<nat>)
      requires Valid() && mcs.Length == cck.Length == grp.Length == DEPTH && mcs != cck && mcs != grp && cck != grp
      requires AllBelow(mcs[..], RATES) && AllBelow(cck[..], RATES) && AllBelow(grp[..], RATES)
      modifies mcs, cck, grp
      ensures mcs[..] == if Group(i) != CCK then Insert(K(), old(mcs[..]), i) else old(mcs[..])
      ensures cck[..] == if Group(i) == CCK then Insert(K(), old(cck[..]), i) else old(cck[..])
      ensures grp[..] == Insert(K(), old(grp[..]), i)
    {
      if Group(i) != CCK {
        SortBestTpRates(i, mcs);
      } else {
        SortBestTpRates(i, cck);
      }
      SortBestTpRates(i, grp);
    }

    /** Follow-up of a recalculated rate: most robust rate and clearing requests. */
    method NoteRate(i: RateIndex)
      requires Valid()
      modifies this`maxProb, this`groupProb, this`sampleAllBw, this`sampleClearFlag, this`sampleClearBw
      ensures Valid() && K() == old(K())
      ensures NotesOk(old(NotesNow()))
      ensures NotesNow() == Noted(old(NotesNow()), K(), rates[i], i, Group(maxTp[0]) == CCK, i == StartRate())
    {
      hide Keys, TableOk, MaskOk, SamplerOk, GroupListOk, MoreRobust, S.IsTable;
      SetBestProbRate(i);
      if WantsClearing(rates[i], i == StartRate()) {
        sampleAllBw := true;
        sampleClearFlag := true;
        sampleClearBw := sampleClearBw + {WidthOf(Group(i))};
      }
    }

    /** Recalculate one rate and file it in the lists. */
    method ScanRate(i: RateIndex, mcs: array<nat>, cck: array<nat>, grp: array<nat>, ghost c: Scan, ghost n0: Notes)
      requires mcs.Length == cck.Length == grp.Length == DEPTH && mcs != cck && mcs != grp && cck != grp
      requires ScanAt(c, n0, i, mcs[..], cck[..], grp[..]) && Supp(supported, i)
      modifies this`rates, this`maxProb, this`groupProb, this`sampleAllBw, this`sampleClearFlag, this`sampleClearBw
      modifies mcs, cck, grp
      ensures ScanAt(c, n0, i + 1, mcs[..], cck[..], grp[..])
    {
      hide Select, TopList, Insert, Passed, RecalcPass, Recalculate, Keys, TableOk, NotesAfter, Noted, NotesOk;
      hide GroupListOk, SamplerOk, S.IsTable;
      ScanStep(c.start, rates, supported, limits, avgAmpduLen, i);
      ghost var k0 := K();
      rates := rates[i := Recalculate(rates[i])];
      assert ListStep(k0, K(), supported, Mcs, i) && ListStep(k0, K(), supported, Cck, i) &&
          ListStep(k0, K(), supported, All, i);
      FileRate(i, mcs, cck, grp);
      NotesStep(c, n0, i, rates);
      NoteRate(i);
    }

    method ScanGroup(g: nat, mcs: array<nat>, cck: array<nat>, grp: array<nat>, ghost c: Scan, ghost n0: Notes)
      requires g < GROUPS && |supported| == GROUPS
      requires mcs.Length == cck.Length == grp.Length == DEPTH && mcs != cck && mcs != grp && cck != grp
      requires ScanAt(c, n0, SLOTS * g, mcs[..], cck[..], grp[..])
      modifies this`rates, this`maxProb, this`groupProb, this`sampleAllBw, this`sampleClearFlag, this`sampleClearBw
      modifies mcs, cck, grp
      ensures ScanAt(c, n0, SLOTS * g + SLOTS, mcs[..], cck[..], grp[..])
    {
      hide ScanAt;
      for s := 0 to SLOTS
        invariant ScanAt(c, n0, SLOTS * g + s, mcs[..], cck[..], grp[..])
      {
        var i := SLOTS * g + s;
        if s in supported[g] {
          ScanRate(i, mcs, cck, grp, c, n0);
        } else {
          ScanAtSkip(c, n0, i, 1, mcs[..], cck[..], grp[..]);
        }
      }
    }

    /** Rebuild the station's list, merging CCK rates in only if their head is faster. */
    method AssignBestTpRates(mcs: array<nat>, cck: array<nat>)
      requires Valid() && mcs.Length == cck.Length == DEPTH && mcs != cck
      requires AllBelow(mcs[..], RATES) && AllBelow(cck[..], RATES)
      modifies mcs
      ensures mcs[..] == Merge(K(), old(mcs[..]), cck[..])
    {
      hide Keys, TableOk, MaskOk, RateKey, Insert;
      ghost var list := mcs[..];
      if KeyAt(cck[0]).tp > KeyAt(mcs[0]).tp {
        for i := 0 to DEPTH
          invariant AllBelow(mcs[..], RATES)
          invariant mcs[..] == InsertAll(K(), list, cck[..i])
        {
          SortBestTpRates(cck[i], mcs);
          assert cck[..i + 1][..i] == cck[..i];
        }
        assert cck[..DEPTH] == cck[..];
      }
    }

    /** Looks for a robust rate with fewer streams. With at most one stream in every group
        there is none, so the pass never changes anything. */
    method ProbRateReduceStreams()
      requires Valid()
      modifies this`maxProb
      ensures maxProb == old(maxProb)
    {
      var maxStreams := Streams(Group(maxTp[0]));
      var tmpTp := 0;
      var chosen := maxProb;
      for g := 0 to GROUPS
        invariant chosen == old(maxProb)
      {
        if supported[g] != {} && g != CCK {
          var candidate := groupProb[g];
          var tp := KeyAt(SLOTS * g + Slot(candidate)).tp;
          if tmpTp < tp && Streams(g) < maxStreams {
            chosen, tmpTp := candidate, tp;
          }
        }
      }
      maxProb := chosen;
    }

    /** One group of the scan, skipped if the station does not support it. The group's list
        accumulates over the groups below. */
    method ScanOneGroup(g: nat, mcs: array<nat>, cck: array<nat>, grp: array<nat>, ghost c: Scan, ghost n0: Notes)
      requires g < GROUPS
      requires mcs.Length == cck.Length == grp.Length == DEPTH && mcs != cck && mcs != grp && cck != grp
      requires ScanAt(c, n0, SLOTS * g, mcs[..], cck[..], grp[..])
      modifies this`rates, this`maxProb, this`groupProb, this`groupTp, this`sampleCount
      modifies this`sampleAllBw, this`sampleClearFlag, this`sampleClearBw, mcs, cck, grp
      ensures ScanAt(c, n0, SLOTS * g + SLOTS, mcs[..], cck[..], grp[..])
      ensures sampleCount == old(sampleCount) + if supported[g] != {} then 1 else 0
      ensures groupTp == if supported[g] != {} then old(groupTp)[g := GroupList(K(), supported, g)] else old(groupTp)
    {
      hide Select, TopList, InsertAll, Insert, Passed, RecalcPass, Keys, TableOk, MaskOk, GroupList, GroupListOk;
      hide ListsAt, NotesAfter, NotesOk, SamplerOk, S.IsTable;
      if supported[g] != {} {
        ScanGroup(g, mcs, cck, grp, c, n0);
        GroupListIs(K(), supported, mcs[..], cck[..], grp[..], g);
        sampleCount := sampleCount + 1;
        groupTp := groupTp[g := grp[..]];
      } else {
        ScanAtSkip(c, n0, SLOTS * g, SLOTS, mcs[..], cck[..], grp[..]);
      }
    }

    ghost predicate GroupListsAt(n: nat)
      requires Valid() && n <= GROUPS
      reads this
    {
      forall h :: 0 <= h < n && supported[h] != {} ==> groupTp[h] == GroupList(K(), supported, h)
    }

    /** Where the scan stands after g groups, with the group lists in their final meaning. */
    ghost predicate GroupsAt(c: Scan, n0: Notes, g: nat, mcs: seq<nat>, cck: seq<nat>, grp: seq<nat>)
      reads this
    {
      && g <= GROUPS && ScanAt(c, n0, SLOTS * g, mcs, cck, grp) && GroupListsAt(g)
      && sampleCount == CountGroups(supported, g)
    }

    /** One group of the scan; the lists of the groups below keep their meaning. */
    method ScanNext(g: nat, mcs: array<nat>, cck: array<nat>, grp: array<nat>, ghost c: Scan, ghost n0: Notes)
      requires g < GROUPS && GroupsAt(c, n0, g, mcs[..], cck[..], grp[..])
      requires mcs.Length == cck.Length == grp.Length == DEPTH && mcs != cck && mcs != grp && cck != grp
      modifies this`rates, this`maxProb, this`groupProb, this`groupTp, this`sampleCount
      modifies this`sampleAllBw, this`sampleClearFlag, this`sampleClearBw, mcs, cck, grp
      ensures GroupsAt(c, n0, g + 1, mcs[..], cck[..], grp[..])
    {
      hide Select, TopList, InsertAll, Insert, Passed, RecalcPass, Keys, TableOk, MaskOk, GroupList, GroupListOk;
      hide ListsAt, SamplerOk, NotesAfter, NotesOk, S.IsTable;
      ghost var t0 := rates;
      ScanOneGroup(g, mcs, cck, grp, c, n0);
      GroupListsKept(c.start, t0, rates, supported, limits, avgAmpduLen, g);
    }

    lemma ScanBase(c: Scan)
      requires Valid() && ScanHere(c) && c.start == rates && sampleCount == 0
      ensures GroupsAt(c, NotesNow(), 0, PLACEHOLDERS, PLACEHOLDERS, PLACEHOLDERS)
    {
      ScanStart(c.start, K(), supported);
    }

    method ScanGroups(mcs: array<nat>, cck: array<nat>, grp: array<nat>, ghost c: Scan)
      requires Valid() && ScanHere(c) && c.start == rates
      requires mcs.Length == cck.Length == grp.Length == DEPTH && mcs != cck && mcs != grp && cck != grp
      requires mcs[..] == cck[..] == grp[..] == PLACEHOLDERS
      modifies this`rates, this`maxProb, this`groupProb, this`groupTp, this`sampleCount
      modifies this`sampleAllBw, this`sampleClearFlag, this`sampleClearBw, mcs, cck, grp
      ensures GroupsAt(c, old(NotesNow()), GROUPS, mcs[..], cck[..], grp[..])
    {
      hide GroupsAt, TableOk, MaskOk, ListsOk, SamplerOk, S.IsTable;
      ghost var n0 := NotesNow();
      sampleCount := 0;
      ScanBase(c);
      for g := 0 to GROUPS
        invariant GroupsAt(c, n0, g, mcs[..], cck[..], grp[..])
      {
        ScanNext(g, mcs, cck, grp, c, n0);
      }
    }

    /** Scan, then choose the station's four best rates. */
    method ScanAndChoose()
      requires Valid()
      modifies this`rates, this`maxProb, this`groupProb, this`groupTp, this`maxTp, this`sampleCount
      modifies this`sampleAllBw, this`sampleClearFlag, this`sampleClearBw
      ensures Valid() && GroupListsAt(GROUPS)
      ensures rates == Passed(old(rates), RecalcPass(supported), RATES)
      ensures maxTp == BestRates(K(), supported)
      ensures NotesOk(old(NotesNow())) && ScanOk(old(ScanNow()))
      ensures NotesNow() == NotesAfter(old(ScanNow()), old(NotesNow()), RATES)
      ensures sampleCount == CountGroups(supported, GROUPS)
    {
      hide Select, TopList, InsertAll, Insert, Merge, BestRates, GroupList, Passed, RecalcPass, Keys, TableOk, MaskOk;
      hide ListsAt, SamplerOk, GroupListOk, S.IsTable, NotesAfter;
      var mcs := new nat[DEPTH](_ => 0);
      var cck := new nat[DEPTH](_ => 0);
      var grp := new nat[DEPTH](_ => 0);
      assert mcs[..] == cck[..] == grp[..] == PLACEHOLDERS;
      ScanGroups(mcs, cck, grp, old(ScanNow()));
      BestRatesIs(K(), supported, mcs[..], cck[..], grp[..]);
      AssignBestTpRates(mcs, cck);
      maxTp := mcs[..];
    }

    /** What an update leaves behind, besides the recalculated table: the best rates, no
        supported rate faster than the head, CCK rates only under a CCK head, one list per
        group, and a probe budget of ten per supported group. */
    ghost predicate FreshlyRanked()
      requires Valid()
      reads this
    {
      && maxTp == BestRates(K(), supported)
      && (forall i: RateIndex :: Supp(supported, i) ==> K()[i].tp <= K()[maxTp[0]].tp)
      && (forall j :: 0 <= j < DEPTH && Group(maxTp[j]) == CCK ==> Group(maxTp[0]) == CCK)
      && GroupListsAt(GROUPS)
      && sampleCount == 10 * CountGroups(supported, GROUPS)
    }

    /** Rate i is supported, has worked before, and succeeds less than 10% of the time, or, as the
        start-up rate, less than always. */
    ghost predicate Fainting(i: RateIndex)
      requires |rates| == RATES && |supported| == GROUPS
      reads this
    {
      && Supp(supported, i) && rates[i].attHist > 0 && rates[i].succHist > 0 && rates[i].probEwma != 0
      && (rates[i].probEwma < 409 || (sampleInitFlag && i == sampleInitIdx && rates[i].probEwma < 4096))
    }

    lemma FaintNoted(c: Scan, n0: Notes)
      requires Valid() && NotedBy(c, n0) && c.masks == supported && c.startRate == StartRate()
      requires rates == Passed(c.start, RecalcPass(supported), RATES)
      ensures sampleClearFlag == (n0.clearFlag || exists i: RateIndex :: Fainting(i))
      ensures sampleAllBw == (n0.allBw || exists i: RateIndex :: Fainting(i))
      ensures forall w :: w in sampleClearBw <==>
                w in n0.clearBw || exists i: RateIndex :: Fainting(i) && WidthOf(Group(i)) == w
    {
      hide TableOk, SamplerOk, S.IsTable, NotesAfter, Chosen;
      ClearingNoted(c, n0, RATES);
      assert forall i: RateIndex :: Fainting(i) <==> Faint(c, i);
    }

    /** Update rate statistics and select new primary rates. */
    method UpdateStats()
      requires Valid()
      modifies this`rates, this`avgAmpduLen, this`ampduLen, this`ampduPackets, this`maxTp, this`maxProb, this`groupTp
      modifies this`groupProb
      modifies this`sampleCount, this`sampleAllBw, this`sampleClearFlag, this`sampleClearBw
      ensures Valid() && ampduPackets == 0 && (old(Unaggregated()) ==> Unaggregated())
      ensures avgAmpduLen == NextAvgLen(old(avgAmpduLen), old(ampduLen), old(ampduPackets))
      ensures ampduLen == if old(ampduPackets) > 0 then 0 else old(ampduLen)
      ensures rates == Passed(old(rates), RecalcPass(supported), RATES)
      ensures FreshlyRanked() && sampleCount == 10 * CountGroups(supported, GROUPS)
      ensures NotedBy(ScanFrom(old(rates), old(maxTp[0])), old(NotesNow()))
      ensures (old(Grounds()) ==> Grounds()) && CountsNow()
      // Each supported rate takes its window in; the others keep their record.
      ensures forall i: RateIndex ::
                if Supp(supported, i) then TakesIn(old(rates)[i], rates[i]) else rates[i] == old(rates)[i]
      // Widths with a rate that used to work and now hardly does are sampled afresh.
      ensures sampleClearFlag == (old(sampleClearFlag) || exists i: RateIndex :: Fainting(i))
      ensures sampleAllBw == (old(sampleAllBw) || exists i: RateIndex :: Fainting(i))
      ensures forall w :: w in sampleClearBw <==>
                w in old(sampleClearBw) || exists i: RateIndex :: Fainting(i) && WidthOf(Group(i)) == w
    {
      hide Select, TopList, InsertAll, Insert, Merge, BestRates, GroupList, Passed, RecalcPass, Keys, TableOk, MaskOk;
      hide ListsAt, NotesAfter, StagesOk, SamplerOk, S.IsTable, GroupListOk, Chosen, CountsCurrent, TakesIn, Fainting;
      hide Supp;
      ghost var start := rates;
      RefreshAmpduLen();
      RebuildLists();
      BestRatesSound(K(), supported);
      ProbRateReduceStreams();
      RecalcResets(start, supported, limits, avgAmpduLen);
      RecalcTakesIn(start, supported, limits);
      sampleCount := sampleCount * 10;
      FaintNoted(ScanFrom(start, old(maxTp[0])), old(NotesNow()));
    }

    /** Scan, choose, and relate the outcome to the choice of the most robust rate. */
    method RebuildLists()
      requires Valid()
      modifies this`rates, this`maxProb, this`groupProb, this`groupTp, this`maxTp, this`sampleCount
      modifies this`sampleAllBw, this`sampleClearFlag, this`sampleClearBw
      ensures Valid() && GroupListsAt(GROUPS)
      ensures rates == Passed(old(rates), RecalcPass(supported), RATES)
      ensures maxTp == BestRates(K(), supported)
      ensures NotedBy(old(ScanNow()), old(NotesNow()))
      ensures sampleCount == CountGroups(supported, GROUPS)
      ensures old(Grounds()) ==> Grounds()
    {
      hide Select, TopList, InsertAll, Insert, Merge, BestRates, GroupList, Passed, RecalcPass, Keys, TableOk, MaskOk;
      hide ListsAt, NotesAfter, StagesOk, SamplerOk, S.IsTable;
      ghost var c, n0, grounded := ScanNow(), NotesNow(), Grounds();
      if grounded { RobustGrounded(); }
      ScanAndChoose();
      ChosenIsNoted(c, n0, RATES);
      if grounded { RankedGrounds(c, n0.maxProb); }
    }

    lemma RobustGrounded()
      requires Valid() && Grounds()
      ensures Grounded(supported, maxProb)
    {
    }

    lemma RankedGrounds(c: Scan, m: RateIndex)
      requires Valid() && ScanOk(c) && c.masks == supported && maxProb == Chosen(c, m, RATES) && Grounded(supported, m)
      requires maxTp == BestRates(K(), supported) && GroupListsAt(GROUPS)
      ensures Grounds()
    {
      hide BestRates, GroupList, SamplerOk, TableOk, MaskOk, S.IsTable, Keys;
      BestRatesGrounded(rates, supported, limits, avgAmpduLen);
      forall g | 0 <= g < GROUPS && supported[g] != {}
        ensures forall j :: 0 <= j < DEPTH ==> Grounded(supported, groupTp[g][j])
      {
        GroupListGrounded(K(), supported, g);
      }
    }

    // ----- publishing the retry chain

    /** Lower the primary rate to a dependable one. */
    method LowerPrimary()
      requires Valid()
      modifies this`maxTp
      ensures Valid()
      ensures maxTp == old(maxTp)[0 := Lowered(rates, old(maxTp)[0])]
    {
      hide Keys, TableOk, MaskOk;
      var group := Group(maxTp[0]);
      var slot: nat := Slot(maxTp[0]);
      while rates[group * SLOTS + slot].probEwma < FIFTY_PERCENT && slot != 0
        invariant slot < SLOTS && group < GROUPS
        invariant Lowered(rates, group * SLOTS + slot) == Lowered(rates, maxTp[0])
        decreases slot
      {
        slot := slot - 1;
      }
      maxTp := maxTp[0 := group * SLOTS + slot];
    }

    /** Keep the most robust rate below the primary slot: best of the lower slots. */
    method LowerRobust()
      requires Valid()
      modifies this`maxProb
      ensures Valid() && K() == old(K())
      ensures if Slot(old(maxProb)) >= Slot(maxTp[0])
              then BestBelow(K(), SLOTS * Group(old(maxProb)), AtLeastOne(Slot(maxTp[0])), maxProb)
              else maxProb == old(maxProb)
    {
      hide Keys, TableOk, MaskOk, RateKey;
      var slot := Slot(maxTp[0]);
      if Slot(maxProb) >= slot {
        var base := SLOTS * Group(maxProb);
        var top := if slot != 0 then slot - 1 else slot;
        var best: nat := base + top;
        var j: nat := top;
        while j > 0
          invariant 0 <= j <= top && base + top < RATES
          invariant BestBelow(K(), base + j, top + 1 - j, best)
        {
          j := j - 1;
          if KeyLe(KeyAt(best), KeyAt(base + j)) {
            best := base + j;
          }
        }
        maxProb := best;
      }
    }

    /** Retry counts of one rate, from the air time of its tries. */
    method CalcRetransmit(i: RateIndex)
      requires Valid() && !rates[i].retryUpdated
      modifies this`rates
      ensures Valid() && SameTable(rates, old(rates))
      ensures forall j :: 0 <= j < RATES && j != i ==> rates[j] == old(rates)[j]
      ensures rates[i].probEwma >= TEN_PERCENT ==>
                && rates[i].retryUpdated
                && Retransmit.LargestFit(limits, Cost(i, avgAmpduLen), Retransmit.Ceiling(limits), rates[i].retryCount)
                && Retransmit.LargestFit(limits, CostRtscts(i, avgAmpduLen),
                                         rates[i].retryCount, rates[i].retryCountRtscts)
      ensures rates[i].probEwma < TEN_PERCENT ==> rates[i].retryCount == rates[i].retryCountRtscts == 1
      ensures old(CountsNow()) ==> CountsNow()
    {
      if rates[i].probEwma < TEN_PERCENT {
        rates := rates[i := rates[i].(retryCount := 1, retryCountRtscts := 1)];
      } else {
        var plain, rts := Retransmit.CountRetries(limits, Cost(i, avgAmpduLen), CostRtscts(i, avgAmpduLen));
        rates := rates[i := rates[i].(retryCount := plain, retryCountRtscts := rts, retryUpdated := true)];
      }
    }

    /** Fill one stage of the chain. */
    method SetRate(offset: nat, i: RateIndex)
      requires Valid() && offset < DEPTH
      modifies this`rates, this`chain
      ensures Valid() && SameTable(rates, old(rates))
      ensures chain == old(chain)[offset := EntryOf(rates[i], i, offset, cckRates, dynamicSmps)]
      ensures EntryOk(chain[offset], limits)
      ensures old(CountsNow()) ==> CountsNow() && StageNow(offset, i)
    {
      hide Retransmit.LargestFit, Cost, CostRtscts, StageFits, Encode, GroupFlags;
      if !rates[i].retryUpdated {
        CalcRetransmit(i);
      }
      chain := chain[offset := EntryOf(rates[i], i, offset, cckRates, dynamicSmps)];
      assert RateOk(rates[i], i, supported, limits);
      if old(CountsNow()) { EntryFits(rates[i], i, offset, limits, avgAmpduLen, cckRates, dynamicSmps); }
    }

    /** Stage j carries the code of rate i and its largest fitting counts. */
    ghost predicate StageNow(j: nat, i: RateIndex)
      requires Valid() && j < DEPTH
      reads this
    {
      StageFits(chain[j], i, rates[i].probEwma, limits, avgAmpduLen, cckRates, j == 0)
    }

    /** What the published stages are: primary, second and robust rate as the hardware has
        room, each with its code and its largest fitting counts, and the end of the list. */
    ghost predicate ChainFits()
      requires Valid()
      reads this
    {
      && StageNow(0, maxTp[0])
      && (maxRates >= 3 ==> StageNow(1, maxTp[1]) && StageNow(2, maxProb) && chain[3].idx == -1)
      && (maxRates == 2 ==> StageNow(1, maxProb) && chain[2].idx == -1)
      && (maxRates < 2 ==> chain[1].idx == -1)
    }

    /** Stages in use: primary, second best if the hardware takes three rates, most robust if
        it takes two. */
    function StageCount(): nat { 1 + (if maxRates >= 3 then 1 else 0) + (if maxRates >= 2 then 1 else 0) }

    function StageRate(j: nat): nat
      requires |maxTp| == DEPTH
      reads this
    {
      if j == 0 then maxTp[0] else if j == 1 && maxRates >= 3 then maxTp[1] else maxProb
    }

    /** Each stage names its rate with acceptable counts; the list is terminated. */
    ghost predicate ChainOk()
      requires Valid()
      reads this
    {
      && (forall j :: 0 <= j < StageCount() ==>
            && EntryOk(chain[j], limits)
            && chain[j].idx == Encode(StageRate(j), cckRates)
            && chain[j].flags == GroupFlags(Group(StageRate(j)))
            && (j > 0 ==> chain[j].rtsCts && chain[j].count == chain[j].countRts))
      && chain[StageCount()].idx == -1
    }

    /** State right after a publication. */
    ghost predicate Published()
      requires Valid()
      reads this
    {
      && (rates[maxTp[0]].probEwma >= FIFTY_PERCENT || Slot(maxTp[0]) == 0)
      && (Slot(maxProb) < Slot(maxTp[0]) || Slot(maxProb) == Slot(maxTp[0]) == 0)
      && ChainOk()
    }

    lemma RobustBelow(g: nat, slot: nat, r: nat)
      requires Valid() && g < GROUPS && slot < SLOTS && BestBelow(K(), SLOTS * g, AtLeastOne(slot), r)
      ensures Slot(r) < slot || Slot(r) == slot == 0
    {
      assert SLOTS * g <= r < SLOTS * g + SLOTS;
    }

    /** Once both slots 0 that serve as placeholders are supported, so is every published stage. */
    lemma StagesSupported(j: nat)
      requires Valid() && Grounds() && j < StageCount()
      requires 0 in supported[0] && (supported[CCK] == {} || 0 in supported[CCK])
      ensures Supp(supported, StageRate(j))
    {
      GroundedSupportedIff(supported);
      assert Grounded(supported, StageRate(j));
    }

    /** Write the stages of the chain. */
    method FillChain()
      requires Valid()
      modifies this`rates, this`chain
      ensures Valid() && SameTable(rates, old(rates))
      ensures ChainOk() && (old(CountsNow()) ==> CountsNow() && ChainFits())
    {
      hide Keys, TableOk, MaskOk, GroupListOk, SamplerOk, S.IsTable, Encode, GroupFlags, StageFits, CountsCurrent;
      SetRate(0, maxTp[0]);
      var i := 1;
      if maxRates >= 3 {
        SetRate(i, maxTp[1]);
        i := i + 1;
      }
      if maxRates >= 2 {
        SetRate(i, maxProb);
        i := i + 1;
      }
      chain := chain[i := chain[i].(idx := -1)];
    }

    /** Publish the chain (minstrel_ht_update_rates). */
    method UpdateRates()
      requires Valid()
      modifies this`rates, this`maxTp, this`maxProb, this`chain
      ensures Valid() && Published() && SameTable(rates, old(rates))
      ensures maxTp == old(maxTp)[0 := Lowered(old(rates), old(maxTp)[0])]
      ensures K() == old(K()) && RobustAfter(K(), old(maxProb), maxTp[0], maxProb)
      ensures (old(Grounds()) ==> Grounds()) && (old(CountsNow()) ==> CountsNow() && ChainFits())
    {
      hide Keys, TableOk, MaskOk, GroupListOk, SamplerOk, S.IsTable, CapsOk, ChainOk, Lowered, StageRate, Grounded;
      hide CountsCurrent, ChainFits;
      ghost var before := rates;
      LowerPrimary();
      LowerRobust();
      if Slot(old(maxProb)) >= Slot(maxTp[0]) { RobustBelow(Group(old(maxProb)), Slot(maxTp[0]), maxProb); }
      if old(Grounds()) { LoweredGrounds(old(maxTp)[0], old(maxProb)); }
      FillChain();
      KeysSame(rates, before, supported, limits, avgAmpduLen);
    }

    /** Lowering leads from grounded rates to grounded ones. */
    lemma LoweredGrounds(head: RateIndex, robust: RateIndex)
      requires Valid() && Grounded(supported, head) && Grounded(supported, robust)
      ensures Grounded(supported, Lowered(rates, head))
      ensures BestBelow(K(), SLOTS * Group(robust), AtLeastOne(Slot(maxTp[0])), maxProb) ==>
              Grounded(supported, maxProb)
    {
      LoweredGrounded(rates, supported, limits, head);
      if BestBelow(K(), SLOTS * Group(robust), AtLeastOne(Slot(maxTp[0])), maxProb) {
        BestBelowGrounded(rates, supported, limits, avgAmpduLen, robust, AtLeastOne(Slot(maxTp[0])), maxProb);
      }
    }

    // ----- clearing and seeding

    /** Forget what is known about rates above the one the signal supports. */
    method ClearUnfitableRateStats(maxRate: nat)
      requires Valid()
      modifies this`rates
      ensures Valid()
      ensures rates == Passed(old(rates), ClearPass(supported, maxRate), RATES)
      ensures old(CountsNow()) ==> CountsNow()
      // A supported rate above the limit that has worked before keeps its averages only; one
      // failed try takes the place of its history and window.
      ensures forall i: RateIndex ::
                var r := old(rates)[i];
                rates[i] == if i % 10 in supported[i / 10] && i % 10 > maxRate && r.succHist > 0
                            then RateStats(1, 0, 0, 0, 0, 0, r.probEwma, r.probEwmv, r.retryCount,
                                           r.retryCountRtscts, r.retryUpdated, 0)
                            else r
    {
      hide TableOk, MaskOk, ListsOk, SamplerOk, S.IsTable, Passed, ClearPass, CountsCurrent;
      ClearPassIs(rates, supported, maxRate);
      ghost var start := rates;
      ghost var f := ClearPass(supported, maxRate);
      PassNothing(start, f);
      for g := 0 to GROUPS
        invariant rates == Passed(start, f, SLOTS * g)
      {
        if supported[g] != {} && maxRate + 2 <= SLOTS {
          ClearSkip(start, supported, maxRate, g, maxRate + 1);
          for s := maxRate + 1 to SLOTS
            invariant rates == Passed(start, f, SLOTS * g + s)
          {
            ClearStep(start, supported, maxRate, g, s);
            if s in supported[g] {
              rates := rates[SLOTS * g + s := ClearUnfit(rates[SLOTS * g + s])];
            }
          }
        } else {
          ClearSkip(start, supported, maxRate, g, SLOTS);
        }
      }
      ClearKeepsOk(start, supported, limits, RATES, maxRate);
      if old(CountsNow()) { PassesKeepCounts(start, supported, maxRate, {}, limits, avgAmpduLen); }
    }

    /** Drop the success averages of all widths marked for clearing. */
    method ClearUnfitableProbEwma()
      requires Valid()
      modifies this`rates
      ensures Valid()
      ensures rates == Passed(old(rates), ZeroPass(supported, sampleClearBw), RATES)
      ensures old(CountsNow()) ==> CountsNow()
      ensures forall i: RateIndex ::
                rates[i] == if i % 10 in supported[i / 10] && WidthOf(i / 10) in sampleClearBw
                            then old(rates)[i].(probEwma := 0) else old(rates)[i]
    {
      hide TableOk, MaskOk, ListsOk, SamplerOk, S.IsTable, Passed, ZeroPass, CountsCurrent;
      ZeroPassIs(rates, supported, sampleClearBw);
      ghost var start := rates;
      var widths := sampleClearBw;
      ghost var f := ZeroPass(supported, widths);
      PassNothing(start, f);
      for g := 0 to GROUPS
        invariant rates == Passed(start, f, SLOTS * g)
      {
        if supported[g] != {} && WidthOf(g) in widths {
          for s := 0 to SLOTS
            invariant rates == Passed(start, f, SLOTS * g + s)
          {
            ZeroStep(start, supported, widths, g, s);
            if s in supported[g] {
              rates := rates[SLOTS * g + s := ZeroProb(rates[SLOTS * g + s])];
            }
          }
        } else {
          ZeroSkip(start, supported, widths, g);
        }
      }
      ZeroKeepsOk(start, supported, limits, RATES, widths);
      if old(CountsNow()) { PassesKeepCounts(start, supported, 0, widths, limits, avgAmpduLen); }
    }

    /** Start-up: pretend the best fitting rate and two low ones worked, then rank. */
    method InitStartStats(maxRate: nat, w: Width)
      requires Valid() && maxRate < SLOTS
      modifies this`rates, this`avgAmpduLen, this`ampduLen, this`ampduPackets, this`maxTp, this`maxProb, this`groupTp
      modifies this`groupProb
      modifies this`sampleCount, this`sampleAllBw, this`sampleClearFlag, this`sampleClearBw
      modifies this`sampleInitFlag, this`sampleForceCounts, this`sampleInitIdx, this`needClear
      ensures Valid() && FreshlyRanked() && sampleInitFlag && sampleForceCounts == 3 && needClear == 0
      ensures (old(Unaggregated()) ==> Unaggregated()) && (old(Grounds()) ==> Grounds()) && CountsNow()
      ensures sampleInitIdx == StartIdx(supported, maxRate, w, GROUPS, old(sampleInitIdx)) && ampduPackets == 0
      ensures rates == Passed(Passed(old(rates), SeedPass(supported, maxRate, w), RATES), RecalcPass(supported), RATES)
      ensures avgAmpduLen == NextAvgLen(old(avgAmpduLen), old(ampduLen), old(ampduPackets))
      ensures var seeded := Passed(old(rates), SeedPass(supported, maxRate, w), RATES);
              NotedBy(ScanFrom(seeded, old(maxTp[0])), old(NotesNow()))
    {
      hide Passed, RecalcPass, SeedPass, TableOk, MaskOk, SamplerOk, ListsOk, GroupListOk, Keys, BestRates, GroupList;
      hide CapsOk, S.IsTable, GroupListsAt, FreshlyRanked, NotesAfter, Chosen, StartIdx, CountsCurrent;
      BeginStart();
      SeedGroups(maxRate, w);
      UpdateStats();
    }

    method BeginStart()
      requires Valid()
      modifies this`sampleInitFlag, this`sampleForceCounts, this`needClear
      ensures Valid() && sampleInitFlag && sampleForceCounts == 3 && needClear == 0
    {
      sampleInitFlag := true;
      sampleForceCounts := 3;
      needClear := 0;
    }

    /** Seed the groups of this width. */
    method SeedGroups(maxRate: nat, w: Width)
      requires Valid() && maxRate < SLOTS
      modifies this`rates, this`sampleInitIdx
      ensures Valid()
      ensures rates == Passed(old(rates), SeedPass(supported, maxRate, w), RATES)
      ensures sampleInitIdx == StartIdx(supported, maxRate, w, GROUPS, old(sampleInitIdx))
      ensures StartsAt(supported, maxRate, w, GROUPS, old(sampleInitIdx), sampleInitIdx)
      // In each group of this width that has the slot, it starts with two successes, slots 0
      // and 2 with one, and none of the three with a history.
      ensures forall i: RateIndex ::
                var s := i % 10;
                var n := if s == 0 || s == 2 then 1 else if s == maxRate then 2 else 0;
                rates[i] == if WidthOf(i / 10) == w && maxRate in supported[i / 10] && n > 0
                            then old(rates)[i].(attempts := n, success := n, attHist := 0, succHist := 0)
                            else old(rates)[i]
    {
      hide TableOk, MaskOk, Passed, SeedPass, ListsOk, SamplerOk, S.IsTable, CapsOk;
      SeedPassIs(rates, supported, maxRate, w);
      StartIdxIs(supported, maxRate, w, GROUPS, sampleInitIdx);
      SeedEach(maxRate, w);
    }

    method SeedEach(maxRate: nat, w: Width)
      requires Valid() && maxRate < SLOTS
      modifies this`rates, this`sampleInitIdx
      ensures Valid()
      ensures rates == Passed(old(rates), SeedPass(supported, maxRate, w), RATES)
      ensures sampleInitIdx == StartIdx(supported, maxRate, w, GROUPS, old(sampleInitIdx))
    {
      hide TableOk, MaskOk, Passed, SeedPass, ListsOk, SamplerOk, S.IsTable;
      ghost var start := rates;
      ghost var f := SeedPass(supported, maxRate, w);
      PassNothing(start, f);
      for g := 0 to GROUPS
        invariant rates == Passed(start, f, SLOTS * g)
        invariant sampleInitIdx < RATES && Slot(sampleInitIdx) == 0
        invariant sampleInitIdx == StartIdx(supported, maxRate, w, g, old(sampleInitIdx))
      {
        if supported[g] != {} && WidthOf(g) == w && maxRate in supported[g] {
          var base := SLOTS * g;
          ghost var before := rates;
          rates := rates[base + maxRate := Seed(rates[base + maxRate], 2)];
          rates := rates[base + 2 := Seed(rates[base + 2], 1)];
          rates := rates[base := Seed(rates[base], 1)];
          sampleInitIdx := base;
          SeedStep(start, supported, maxRate, w, g, before, rates);
        } else {
          SeedSkip(start, supported, maxRate, w, g);
        }
      }
      SeedKeepsOk(start, supported, limits, RATES, maxRate, w);
    }

    // ----- status reports

    /** Credit the tries and successes of one report. */
    method CreditReport(slots: seq<TxSlot>, len: nat, acked: nat)
      requires Valid() && Creditable(slots, supported, cckRates) && Backed(slots, supported, cckRates, acked)
      requires acked <= len
      modifies this`rates
      ensures Valid()
      ensures rates == Credited(old(rates), slots, supported, cckRates, len, acked, 0)
      ensures forall k :: 0 <= k < RATES ==>
                rates[k] == Booked(old(rates)[k], k, slots, supported, cckRates, len, acked)
    {
      hide TableOk, MaskOk, ListsOk, SamplerOk, S.IsTable, Decode, Booked;
      CreditedBooks(rates, slots, supported, cckRates, len, acked);
      ghost var goal := Credited(rates, slots, supported, cckRates, len, acked, 0);
      CreditedKeepsOk(rates, slots, supported, cckRates, len, acked, 0, limits);
      var i := 0;
      var last := false;
      while i < 3 && !last
        invariant 0 <= i <= 3 && |rates| == RATES
        invariant last ==> rates == goal
        invariant !last && i < 3 ==> i == 0 || SlotUsed(slots[i], cckRates)
        invariant !last ==> Credited(rates, slots, supported, cckRates, len, acked, i) == goal
      {
        last := !SlotUsed(slots[i + 1], cckRates);
        var k := Decode(slots[i], supported, cckRates);
        rates := rates[k := Credit(rates[k], slots[i].count * len, if last then acked else 0)];
        i := i + 1;
      }
    }

    /** Fall back to the list of a lower group. */
    method DowngradeRate(which: nat)
      requires Valid() && which < 2
      modifies this`maxTp
      ensures Valid()
      ensures maxTp == old(maxTp)[which := Downgraded(supported, groupTp, old(maxTp)[which], which)]
      ensures FallenBack(supported, groupTp, old(maxTp)[which], which, maxTp[which])
    {
      DowngradedIs(supported, groupTp, maxTp[which], which);
      hide TableOk, MaskOk, Keys, SamplerOk, S.IsTable;
      var orig := Group(maxTp[which]);
      var group := orig;
      var done := false;
      while group > 0 && !done
        invariant 0 <= group <= orig < GROUPS
        invariant !done ==> maxTp == old(maxTp)
        invariant !done ==> LowerGroup(supported, orig, group) == LowerGroup(supported, orig, orig)
        invariant done ==> maxTp == old(maxTp)[which := Downgraded(supported, groupTp, old(maxTp)[which], which)]
      {
        group := group - 1;
        if supported[group] != {} && Streams(group) <= Streams(orig) {
          maxTp := maxTp[which := groupTp[group][which]];
          done := true;
        }
      }
    }

    /** Sudden death of the primary or second rate. */
    method CheckSuddenDeath() returns (update: bool)
      requires Valid()
      modifies this`maxTp
      ensures Valid()
      ensures maxTp == AfterDeath(rates, supported, groupTp, old(maxTp))
      ensures update == Dying(rates, old(maxTp))
      // In raw counters, as long as the shift of the success count does not wrap.
      ensures forall j :: 0 <= j < 2 && rates[old(maxTp)[j]].success < 0x10_0000 ==>
                if Collapsed(rates[old(maxTp)[j]]) then FallenBack(supported, groupTp, old(maxTp)[j], j, maxTp[j])
                else maxTp[j] == old(maxTp)[j]
      ensures maxTp[2..] == old(maxTp)[2..]
      ensures rates[old(maxTp)[0]].success < 0x10_0000 && rates[old(maxTp)[1]].success < 0x10_0000 ==>
                (update <==> Collapsed(rates[old(maxTp)[0]]) || Collapsed(rates[old(maxTp)[1]]))
    {
      hide TableOk, MaskOk, Keys, SamplerOk, S.IsTable, Downgraded, Failing;
      hide FallenBack;
      if rates[maxTp[0]].success < 0x10_0000 { FailingIff(rates[maxTp[0]]); }
      if rates[maxTp[1]].success < 0x10_0000 { FailingIff(rates[maxTp[1]]); }
      update := false;
      if Failing(rates[maxTp[0]]) {
        DowngradeRate(0);
        update := true;
      }
      if Failing(rates[maxTp[1]]) {
        DowngradeRate(1);
        update := true;
      }
    }

    /** End of a statistics interval: clear what no longer fits, then update. */
    method StatsRound(fit: nat, active: bool)
      requires Valid()
      modifies this`rates, this`avgAmpduLen, this`ampduLen, this`ampduPackets, this`maxTp, this`maxProb, this`groupTp
      modifies this`groupProb
      modifies this`sampleCount, this`sampleAllBw, this`sampleClearFlag, this`sampleClearBw, this`needClear
      ensures Valid() && FreshlyRanked() && needClear == 0 && sampleCount == 10 * CountGroups(supported, GROUPS)
      ensures GroupListsAt(GROUPS)
      ensures maxTp == BestRates(K(), supported)
      ensures (old(Unaggregated()) ==> Unaggregated()) && (old(Grounds()) ==> Grounds()) && CountsNow()
      ensures rates == RoundTable(old(rates), supported, RoundLimit(fit, old(needClear)), active)
      ensures avgAmpduLen == NextAvgLen(old(avgAmpduLen), old(ampduLen), old(ampduPackets)) && ampduPackets == 0
      ensures var cleared := ClearedTable(old(rates), supported, RoundLimit(fit, old(needClear)), active);
              NotedBy(ScanFrom(cleared, old(maxTp[0])), old(NotesNow()))
    {
      hide Passed, RecalcPass, ClearPass, TableOk, MaskOk, SamplerOk, ListsOk, GroupListOk, Keys, BestRates;
      hide GroupList, S.IsTable, NotesAfter, Chosen, CountsCurrent;
      var limit := RoundLimit(fit, needClear);
      needClear := 0;
      if active {
        ClearUnfitableRateStats(limit);
      }
      UpdateStats();
    }

    /** Outcome of a round over table t: the best rates of the new table with a dependable
        head, published; an active round has cleared the rates above the limit that had a
        history, lists none of them, and holds the limit unless a newcomer breaks it. n0 and
        head: notes and primary rate when the round began. */
    ghost predicate RoundDone(t: Table, n0: Notes, head: RateIndex, limit: nat, active: bool)
      requires Valid() && |t| == RATES
      reads this
    {
      && SameTable(rates, RoundTable(t, supported, limit, active))
      && maxTp == LoweredHead(rates, BestRates(K(), supported)) && GroupListsAt(GROUPS)
      && Published() && needClear == 0 && sampleCount == 10 * CountGroups(supported, GROUPS)
      && RobustBy(ScanFrom(ClearedTable(t, supported, limit, active), head), n0)
      && (active ==> forall i: RateIndex :: ClearedIn(t, supported, limit, i) ==> rates[i].probEwma == 0)
      && (active ==> LimitKept(t, supported, limit, BestRates(K(), supported)[0], maxTp))
    }

    /** Robust rates and clearing requests are those of the scan c from the notes n0 on, the
        station's robust rate lowered below the primary slot. */
    ghost predicate RobustBy(c: Scan, n0: Notes)
      requires Valid()
      reads this
    {
      && ScanOk(c) && NotesOk(n0)
      && NotesNow().(maxProb := 0) == NotesAfter(c, n0, RATES).(maxProb := 0)
      && NotesAfter(c, n0, RATES).maxProb == Chosen(c, n0.maxProb, RATES)
      && RobustAfter(K(), Chosen(c, n0.maxProb, RATES), maxTp[0], maxProb)
    }

    /** A round followed by its publication. */
    method PublishRound(fit: nat, active: bool)
      requires Valid()
      modifies this`rates, this`avgAmpduLen, this`ampduLen, this`ampduPackets, this`maxTp, this`maxProb, this`groupTp
      modifies this`groupProb
      modifies this`sampleCount, this`sampleAllBw, this`sampleClearFlag, this`sampleClearBw, this`needClear, this`chain
      ensures Valid()
      ensures RoundDone(old(rates), old(NotesNow()), old(maxTp[0]), RoundLimit(fit, old(needClear)), active)
      ensures sampleCount == 10 * CountGroups(supported, GROUPS)
      ensures avgAmpduLen == NextAvgLen(old(avgAmpduLen), old(ampduLen), old(ampduPackets)) && ampduPackets == 0
      ensures (old(Unaggregated()) ==> Unaggregated()) && (old(Grounds()) ==> Grounds())
      ensures CountsNow() && ChainFits()
    {
      hide CountsCurrent, ChainFits;
      hide TableOk, MaskOk, SamplerOk, GroupListOk, S.IsTable, ClearedIn, Keys, ChainOk, FreshlyRanked, RoundTable;
      hide BestRates, Lowered, CapsOk, RoundLimit, LimitKept, StagesOk, NotesAfter, Chosen, RobustAfter, ClearedTable;
      ghost var start, limit := rates, RoundLimit(fit, needClear);
      StatsRound(fit, active);
      ghost var scanned := rates;
      UpdateRates();
      KeysSame(rates, scanned, supported, limits, avgAmpduLen);
      LoweredSame(rates, scanned, BestRates(K(), supported)[0]);
      if active {
        ClearedLost(start, supported, limit, rates, maxTp[0]);
        RoundKeepsLimit(start, supported, limits, avgAmpduLen, limit, rates);
      }
    }

    /** Outcome of a report between updates over the credited table t. */
    ghost predicate Quiet(t: Table, maxTp0: seq<nat>, maxProb0: RateIndex, chain0: seq<Entry>)
      requires Valid() && |t| == RATES && |maxTp0| == DEPTH && AllBelow(maxTp0, RATES)
      reads this
    {
      && SameTable(rates, t)
      && if Dying(t, maxTp0) then
           && maxTp == LoweredHead(t, AfterDeath(t, supported, groupTp, maxTp0))
           && RobustAfter(K(), maxProb0, maxTp[0], maxProb) && Published()
         else maxTp == maxTp0 && maxProb == maxProb0 && chain == chain0
    }

    /** What a report between updates leaves as it was. */
    ghost predicate Kept(n0: Notes, groupTp0: seq<seq<nat>>, avg0: nat, needClear0: nat)
      reads this
    {
      && NotesNow().(maxProb := 0) == n0.(maxProb := 0) && groupTp == groupTp0
      && avgAmpduLen == avg0 && needClear == needClear0
    }

    /** Consequences of a report: downgrade on sudden death, and at the end of an interval a
        published round. */
    method React(elapsed: bool, fit: nat, active: bool)
      requires Valid()
      modifies this`rates, this`avgAmpduLen, this`ampduLen, this`ampduPackets, this`maxTp, this`maxProb, this`groupTp
      modifies this`groupProb
      modifies this`sampleCount, this`sampleAllBw, this`sampleClearFlag, this`sampleClearBw, this`needClear, this`chain
      ensures Valid()
      ensures !elapsed ==> Quiet(old(rates), old(maxTp), old(maxProb), old(chain)) && sampleCount == old(sampleCount)
      ensures !elapsed ==> Kept(old(NotesNow()), old(groupTp), old(avgAmpduLen), old(needClear))
      ensures !elapsed ==> ampduLen == old(ampduLen) && ampduPackets == old(ampduPackets)
      ensures !elapsed ==> Group(maxTp[0]) <= Group(old(maxTp)[0]) && Group(maxTp[1]) <= Group(old(maxTp)[1])
      ensures elapsed ==> RoundDone(old(rates), old(NotesNow()),
              AfterDeath(old(rates), supported, old(groupTp), old(maxTp))[0],
                                    RoundLimit(fit, old(needClear)), active)
      ensures elapsed ==> ampduPackets == 0 && sampleCount == 10 * CountGroups(supported, GROUPS)
      ensures elapsed ==> avgAmpduLen == NextAvgLen(old(avgAmpduLen), old(ampduLen), old(ampduPackets))
      ensures (old(Unaggregated()) ==> Unaggregated()) && (old(Grounds()) ==> Grounds())
      ensures (elapsed || old(CountsNow()) ==> CountsNow()) && (elapsed ==> ChainFits())
      ensures old(CountsNow()) && Dying(old(rates), old(maxTp)) ==> ChainFits()
    {
      hide CountsCurrent, ChainFits;
      hide TableOk, MaskOk, SamplerOk, S.IsTable, Keys, Published, RoundDone, Dying, AfterDeath, CapsOk, RoundLimit;
      hide Lowered, Grounded;
      if Grounds() { AfterDeathGrounded(rates, supported, maxTp, maxProb, groupTp, groupProb); }
      var update := CheckSuddenDeath();
      if elapsed {
        PublishRound(fit, active);
      } else if update {
        UpdateRates();
      }
    }

    /** Count a report and refill the probe budget once it is used up. */
    method CountReport(len: nat)
      requires Valid() && 1 <= len && ampduLen + len < 0x10_0000
      modifies this`ampduPackets, this`ampduLen, this`sampleWait, this`sampleTries, this`sampleCount
      ensures Valid() && ampduPackets == old(ampduPackets) + 1 && ampduLen == old(ampduLen) + len
      ensures Budget() == PB.OnStatus(old(Budget()))
    {
      hide TableOk, MaskOk, ListsOk, SamplerOk, S.IsTable;
      ampduPackets := ampduPackets + 1;
      ampduLen := ampduLen + len;
      if sampleWait == 0 && sampleTries == 0 && sampleCount > 0 {
        sampleWait := 10;
        sampleTries := 2;
        sampleCount := sampleCount - 1;
      }
    }

    /** A report whose frame was aggregated but carries no status is ignored. */
    predicate Ignored(r: Report) { r.ctlAmpdu && !r.statAmpdu }

    /** What a report must look like to be credited: rates of the table only, and no success
        of a rate without a try. */
    ghost predicate Acceptable(r: Report)
      reads this
    {
      && Creditable(r.slots, supported, cckRates) && Backed(r.slots, supported, cckRates, AckedLen(r))
      && 1 <= SentLen(r) && AckedLen(r) <= SentLen(r) && ampduLen + SentLen(r) < 0x10_0000
    }

    /** The driver's own completion reports are acceptable, whichever of the frame's slots
        were tried. */
    lemma CompletionAcceptable(sent: bool, slots: seq<TxSlot>)
      requires Valid() && |slots| == 4 && (forall j :: 0 <= j < 4 ==> Filled(slots[j], cckRates))
      requires ampduLen + 1 < 0x10_0000
      ensures Acceptable(CompletionReport(sent, slots))
    {
      CompletionCreditable(sent, slots, supported, cckRates);
    }

    /** So is one about a frame sent over the published chain, with the given tries per stage. */
    lemma ChainReportAcceptable(sent: bool, tries: seq<nat>)
      requires Valid() && ChainOk() && ampduLen + 1 < 0x10_0000
      requires |tries| == DEPTH && forall j :: StageCount() <= j < DEPTH ==> tries[j] == 0
      ensures Acceptable(CompletionReport(sent, ChainSlots(chain, tries)))
    {
      hide TableOk, MaskOk, SamplerOk, S.IsTable, Encode, GroupFlags, Creditable, Backed;
      forall j | 0 <= j < DEPTH ensures Filled(ChainSlots(chain, tries)[j], cckRates) {
        if j < StageCount() {
          assert chain[j].idx == Encode(StageRate(j), cckRates) && chain[j].flags == GroupFlags(Group(StageRate(j)));
          assert ChainSlots(chain, tries)[j] ==
              TxSlot(Encode(StageRate(j), cckRates), tries[j], GroupFlags(Group(StageRate(j))));
        }
      }
      CompletionAcceptable(sent, ChainSlots(chain, tries));
    }

    /** One status report. elapsed: the update interval is over; fit: highest slot the signal
        supports; active: the interface is currently sending. */
    method TxStatus(r: Report, elapsed: bool, fit: nat, active: bool)
      requires Valid() && Acceptable(r)
      modifies this`rates, this`avgAmpduLen, this`ampduLen, this`ampduPackets, this`maxTp, this`maxProb, this`groupTp
      modifies this`groupProb
      modifies this`sampleWait, this`sampleTries, this`sampleCount, this`sampleAllBw, this`sampleClearFlag
      modifies this`sampleClearBw
      modifies this`needClear, this`chain
      ensures Valid()
      // Between updates: the report's credits and, on sudden death, a downgrade.
      ensures !Ignored(r) && !elapsed ==>
                Quiet(Credited(old(rates), r.slots, supported, cckRates, SentLen(r), AckedLen(r), 0),
                      old(maxTp), old(maxProb), old(chain))
      ensures !Ignored(r) && !elapsed ==> Kept(old(NotesNow()), old(groupTp), old(avgAmpduLen), old(needClear))
      // Each rate is booked the tries of the slots that name it; the last slot's rate, the frame.
      ensures !Ignored(r) && !elapsed ==> forall k :: 0 <= k < RATES ==>
                SameStats(rates[k],
                          Booked(old(rates)[k], k, r.slots, supported, cckRates, SentLen(r), AckedLen(r)))
      ensures !Ignored(r) && !elapsed ==> ampduLen == old(ampduLen) + SentLen(r)
      ensures !Ignored(r) && !elapsed ==> ampduPackets == old(ampduPackets) + 1
      // Between updates the groups of the two best rates never rise.
      ensures !elapsed ==> forall j :: 0 <= j < 2 ==> Group(maxTp[j]) <= Group(old(maxTp)[j])
      // At the end of an interval: a published round over the credited table.
      ensures !Ignored(r) && elapsed ==>
                var t := Credited(old(rates), r.slots, supported, cckRates, SentLen(r), AckedLen(r), 0);
                RoundDone(t, old(NotesNow()), AfterDeath(t, supported, old(groupTp), old(maxTp))[0],
                          RoundLimit(fit, old(needClear)), active)
      ensures !Ignored(r) && elapsed ==> ampduPackets == 0
      ensures !Ignored(r) && elapsed ==>
                avgAmpduLen == NextAvgLen(old(avgAmpduLen), old(ampduLen) + SentLen(r), old(ampduPackets) + 1)
      // No listed rate is one whose history the round has just cleared.
      ensures !Ignored(r) && elapsed && active ==> forall j :: 0 <= j < DEPTH ==>
                !ClearedIn(old(rates), supported, RoundLimit(fit, old(needClear)), maxTp[j])
      // Only supported rates and placeholders are published.
      ensures old(Grounds()) ==> Grounds()
      // Published counts are the largest that fit.
      ensures (!Ignored(r) && elapsed) || old(CountsNow()) ==> CountsNow()
      ensures !Ignored(r) && elapsed ==> ChainFits()
      ensures var t := Credited(old(rates), r.slots, supported, cckRates, SentLen(r), AckedLen(r), 0);
              !Ignored(r) && old(CountsNow()) && Dying(t, old(maxTp)) ==> ChainFits()
      // Reports without aggregation keep the average aggregate at exactly one frame.
      ensures old(Unaggregated()) && SentLen(r) == 1 ==> Unaggregated()
      // Probe budget.
      ensures !Ignored(r) && !elapsed ==> Budget() == PB.OnStatus(old(Budget()))
      ensures !Ignored(r) && elapsed ==> Budget() == PB.OnIntervalEnd(old(Budget()), CountGroups(supported, GROUPS))
      ensures Ignored(r) ==> unchanged(this)
    {
      hide TableOk, MaskOk, SamplerOk, S.IsTable, Credited, Creditable, ClearedIn, Keys, Quiet, CapsOk;
      hide RoundLimit, Backed, Grounded, RoundDone, NextAvgLen, AfterDeath, Kept, PB.OnStatus;
      hide GroupListOk, CountGroups, StagesOk, CountsCurrent, ChainFits, Dying, Booked, SameStats;
      hide Published, LoweredHead, TriesOf, TookIt, Supp, Lowered, ChainOk;
      if Ignored(r) {
        return;
      }
      TakeReport(r);
      ghost var credited, limit := rates, RoundLimit(fit, needClear);
      SameClearing(old(rates), credited, supported, limit);
      ghost var n0, head := NotesNow(), AfterDeath(rates, supported, groupTp, maxTp)[0];
      React(elapsed, fit, active);
      if !elapsed { QuietStats(credited, old(maxTp), old(maxProb), old(chain)); }
      if elapsed && active { RoundClears(credited, n0, head, limit); }
    }

    lemma QuietStats(t: Table, maxTp0: seq<nat>, maxProb0: RateIndex, chain0: seq<Entry>)
      requires Valid() && |t| == RATES && |maxTp0| == DEPTH && AllBelow(maxTp0, RATES)
      requires Quiet(t, maxTp0, maxProb0, chain0)
      ensures forall k :: 0 <= k < RATES ==> SameStats(rates[k], t[k])
    {
    }

    /** Count and credit a report. */
    method TakeReport(r: Report)
      requires Valid() && Acceptable(r)
      modifies this`rates, this`ampduLen, this`ampduPackets, this`sampleWait, this`sampleTries, this`sampleCount
      ensures Valid() && Budget() == PB.OnStatus(old(Budget()))
      ensures rates == Credited(old(rates), r.slots, supported, cckRates, SentLen(r), AckedLen(r), 0)
      ensures forall k :: 0 <= k < RATES ==>
                rates[k] == Booked(old(rates)[k], k, r.slots, supported, cckRates, SentLen(r), AckedLen(r))
      ensures ampduLen == old(ampduLen) + SentLen(r) && ampduPackets == old(ampduPackets) + 1
      ensures forall j :: 0 <= j < RATES ==> rates[j].succHist == old(rates)[j].succHist
      ensures (old(Grounds()) ==> Grounds()) && (old(CountsNow()) ==> CountsNow())
    {
      hide CountsCurrent;
      ghost var before := rates;
      hide TableOk, MaskOk, SamplerOk, S.IsTable, Credited, Creditable, Keys, Backed, Grounded, GroupListOk, CapsOk;
      hide Booked;
      CreditedKeepsHistory(rates, r.slots, supported, cckRates, SentLen(r), AckedLen(r), 0);
      CountReport(SentLen(r));
      CreditReport(r.slots, SentLen(r), AckedLen(r));
      if old(CountsNow()) { CountsCarried(before, rates, limits, avgAmpduLen); }
    }

    lemma RoundClears(t: Table, n0: Notes, head: RateIndex, limit: nat)
      requires Valid() && |t| == RATES && RoundDone(t, n0, head, limit, true)
      ensures forall j :: 0 <= j < DEPTH ==> !ClearedIn(t, supported, limit, maxTp[j])
    {
    }

    // ----- sampling

    ghost function Sampler(): (s: S.Sampler)
      requires Valid()
      reads this
      ensures S.WellFormed(s) && s.group == sampleGroup
    {
      Positions(sampleIndex, sampleColumn, sampleGroup)
    }

    /** Move on to the next supported group and advance its table position. */
    method SetNextSampleIdx()
      requires Valid()
      modifies this`sampleGroup, this`sampleIndex, this`sampleColumn
      ensures Valid() && S.SomeOn(S.On(supported))
      ensures Sampler() == S.Next(old(Sampler()), S.On(supported))
    {
      hide TableOk, MaskOk, ListsOk, Keys, S.IsTable, S.Next, S.Gap, S.OnAhead, S.Tick, Positions, S.Offset;
      LowestSlotExists(supported, 0);
      ghost var on := S.On(supported);
      ghost var goal := S.Next(Sampler(), on);
      var done := false;
      S.SomeOnAhead(sampleGroup, on);
      while !done
        invariant Valid()
        invariant !done ==> S.Next(Sampler(), on) == goal && S.OnAhead(sampleGroup, on, 1)
        invariant done ==> Sampler() == goal
        decreases !done, if done then 0 else S.Gap(sampleGroup, on, 1)
      {
        S.NextIsTick(Sampler(), on);
        if !on[S.Succ(sampleGroup, GROUPS)] { S.GapShrinks(sampleGroup, on); }
        done := TickOnce();
      }
    }

    /** Step to the next group; if it is supported, advance its table position. */
    method TickOnce() returns (found: bool)
      requires Valid()
      modifies this`sampleGroup, this`sampleIndex, this`sampleColumn
      ensures Valid() && Sampler() == S.Tick(old(Sampler()), S.On(supported))
      ensures sampleGroup == S.Succ(old(sampleGroup), GROUPS) && found == (supported[sampleGroup] != {})
    {
      hide TableOk, MaskOk, ListsOk, Keys, S.IsTable, S.Tick, Positions;
      TickIs(sampleIndex, sampleColumn, sampleGroup, S.On(supported));
      var g := (sampleGroup + 1) % GROUPS;
      sampleGroup := g;
      found := supported[g] != {};
      if found {
        if sampleIndex[g] + 1 >= 10 {
          var c := if sampleColumn[g] + 1 >= 10 then 0 else sampleColumn[g] + 1;
          sampleIndex, sampleColumn := sampleIndex[g := 0], sampleColumn[g := c];
        } else {
          sampleIndex := sampleIndex[g := sampleIndex[g] + 1];
        }
      }
    }

    /** Read the slot at the sampler's position, then move on. */
    method DrawSample() returns (g: nat, v: int)
      requires Valid()
      modifies this`sampleGroup, this`sampleIndex, this`sampleColumn
      ensures Valid() && S.SomeOn(S.On(supported)) && supported[sampleGroup] != {}
      ensures g < GROUPS && 0 <= v < SLOTS
      ensures (g, v) == S.Read(old(Sampler()), table)
      ensures Sampler() == S.Next(old(Sampler()), S.On(supported))
    {
      hide TableOk, MaskOk, ListsOk, Keys, S.IsTable, S.Next, S.Gap;
      g := sampleGroup;
      S.TableEntry(table, sampleColumn[g] * 10 + sampleIndex[g]);
      v := table[sampleColumn[g] * 10 + sampleIndex[g]];
      SetNextSampleIdx();
    }

    /** Success average the first rate needs before a faster slot may be probed. */
    function Demanded(tp1: RateIndex): int {
      if (Slot(tp1) == 5 || Slot(tp1) == 6) && Group(tp1) < 4 then NINETY_PERCENT else FIFTY_PERCENT
    }

    /** Redraw until the slot is supported and no faster than the first rate. Within
        100 draws per supported group such a slot comes up. */
    method Redraw(limit: nat) returns (g: nat, v: int, ghost draws: nat)
      requires Valid() && supported[sampleGroup] != {}
      modifies this`sampleGroup, this`sampleIndex, this`sampleColumn
      ensures Valid() && supported[sampleGroup] != {} && S.SomeOn(S.On(supported))
      ensures g < GROUPS && v in supported[g] && 0 <= v <= limit && v < SLOTS
      ensures 1 <= draws <= 100 * CountGroups(supported, GROUPS)
      ensures S.FirstAcceptable(old(Sampler()), table, supported, limit, draws - 1)
      ensures (g, v) == S.Read(S.Iter(old(Sampler()), S.On(supported), draws - 1), table)
      ensures Sampler() == S.Iter(old(Sampler()), S.On(supported), draws)
    {
      hide TableOk, MaskOk, ListsOk, Keys, S.IsTable, S.Next, S.Gap, S.Iter, S.OnCount, Positions;
      LowestSlotExists(supported, limit);
      assert S.OnCount(S.On(supported)) == CountGroups(supported, GROUPS) by { AllOn(); }
      ghost var on, start := S.On(supported), Sampler();
      ghost var stop := S.RedrawStops(start, table, supported, limit);
      draws := 1;
      S.IterNext(start, on, 0);
      g, v := DrawSample();
      while !(v in supported[g] && v <= limit)
        invariant Valid() && supported[sampleGroup] != {}
        invariant g < GROUPS && 0 <= v < SLOTS
        invariant 1 <= draws <= stop + 1
        invariant Sampler() == S.Iter(start, on, draws) && (g, v) == S.Read(S.Iter(start, on, draws - 1), table)
        invariant forall i :: 0 <= i < draws - 1 ==>
                  !S.Acceptable(S.Read(S.Iter(start, on, i), table), supported, limit)
        decreases stop + 1 - draws
      {
        S.IterNext(start, on, draws);
        g, v := DrawSample();
        draws := draws + 1;
      }
    }

    lemma AllOn()
      requires |supported| == GROUPS
      ensures S.OnCount(S.On(supported)) == CountGroups(supported, GROUPS)
    {
      OnCountIs(supported, GROUPS);
    }

    /** d is the first acceptable draw from sampler state s on, and leaves the sampler at s'. */
    ghost predicate Redrawn(s: S.Sampler, limit: int, d: S.Draw, s': S.Sampler)
      requires Fixed() && S.WellFormed(s) && S.SomeOn(S.On(supported))
    {
      exists h: nat :: S.FirstAcceptable(s, table, supported, limit, h) &&
        d == S.Read(S.Iter(s, S.On(supported), h), table) && s' == S.Iter(s, S.On(supported), h + 1)
    }

    /** A slot the first rate's success average allows to be probed. */
    ghost predicate Deserved(tp1: RateIndex, v: int)
      requires |rates| == RATES
      reads this
    {
      v <= tp1 % 10 || rates[tp1].probEwma >= if tp1 < 40 && (tp1 % 10 == 5 || tp1 % 10 == 6) then 3686 else 2048
    }

    /** Slot limit requested for the next round: below a first rate that keeps failing. */
    function ClearingRequest(tp1: RateIndex, n: nat): nat
      requires |rates| == RATES
      reads this
    {
      if rates[tp1].probEwma < FORTY_PERCENT && Slot(tp1) > 1 && rates[tp1].attempts > 30 && Group(tp1) < 4
      then Slot(tp1) - 1 else n
    }

    /** A drawn slot faster than the first rate is replaced while that rate is not reliable. */
    predicate NeedsRedraw(tp1: RateIndex, v: int)
      requires |rates| == RATES
      reads this
    {
      v > Slot(tp1) && rates[tp1].probEwma < Demanded(tp1)
    }

    /** Replace a drawn slot that is faster than the first rate deserves. */
    method CheckSampleIdx(tp1: RateIndex, g0: nat, v0: int) returns (g: nat, v: int)
      requires Valid() && supported[sampleGroup] != {} && g0 < GROUPS && v0 in supported[g0] && 0 <= v0 < SLOTS
      modifies this`sampleGroup, this`sampleIndex, this`sampleColumn, this`needClear
      ensures Valid() && g < GROUPS && v in supported[g] && 0 <= v < SLOTS
      ensures !NeedsRedraw(tp1, v) && S.SomeOn(S.On(supported))
      ensures !NeedsRedraw(tp1, v0) ==> g == g0 && v == v0 && Sampler() == old(Sampler())
      ensures NeedsRedraw(tp1, v0) ==> Redrawn(old(Sampler()), Slot(tp1), (g, v), Sampler())
      ensures needClear == ClearingRequest(tp1, old(needClear))
      // A faster slot needs 50% success of the first rate, 90% at slots 5 and 6 of HT groups.
      ensures Deserved(tp1, v) && (Deserved(tp1, v0) ==> g == g0 && v == v0)
      ensures needClear == if rates[tp1].probEwma < 1638 && tp1 % 10 >= 2 && rates[tp1].attempts >= 31 && tp1 < 40
                           then tp1 % 10 - 1 else old(needClear)
    {
      hide TableOk, MaskOk, ListsOk, Keys, S.IsTable, S.Next, S.Iter, Positions;
      LowestSlotExists(supported, 0);
      g, v := g0, v0;
      if rates[tp1].probEwma < FORTY_PERCENT && Slot(tp1) > 1 && rates[tp1].attempts > 30 && Group(tp1) < 4 {
        needClear := Slot(tp1) - 1;
      }
      if NeedsRedraw(tp1, v) {
        ghost var s0, draws := Sampler(), 0;
        g, v, draws := Redraw(Slot(tp1));
        assert Redrawn(s0, Slot(tp1), (g, v), Sampler())
            by { assert S.FirstAcceptable(s0, table, supported, Slot(tp1), draws - 1); }
      }
    }

    /** The faster and the slower of the two best rates. */
    function FirstRate(): nat
      requires |maxTp| == DEPTH && maxTp[0] < RATES && maxTp[1] < RATES
      reads this
    {
      if Duration(maxTp[0]) > Duration(maxTp[1]) then maxTp[1] else maxTp[0]
    }

    function SecondRate(): nat
      requires |maxTp| == DEPTH && maxTp[0] < RATES && maxTp[1] < RATES
      reads this
    {
      if Duration(maxTp[0]) > Duration(maxTp[1]) then maxTp[0] else maxTp[1]
    }

    /** A slow, already reliable rate is probed in the second stage of the chain only. */
    predicate Deferred(rate: RateIndex, mcsIdx: int, g: nat, seen: RateIndex)
      requires Valid()
      reads this
    {
      && Duration(rate) >= Duration(SecondRate())
      && ((Streams(Group(FirstRate())) > 0 && Streams(Group(FirstRate())) - 1 < Streams(g))
          || Duration(rate) >= Duration(maxProb))
      && Slot(FirstRate()) - mcsIdx > 1
      && rates[seen].probEwma > SEVENTY_PERCENT
    }

    /** Slot probed for a drawn slot under the first rate. */
    function Clamped(v: int, tp1: RateIndex): int {
      ClampedSlot(v, Slot(tp1))
    }

    /** Bounds on a probe: never more than two slots above the first rate, not above it at all
        while that rate succeeds less than half the time; outside start-up a rate other than
        the two that carry the traffic, and a supported one if its group has no odd gap. */
    ghost predicate ProbeOk(p: Probe, starting: bool)
      requires Valid()
      reads this
    {
      p.Probe? ==>
        && p.rate < RATES && p.stage <= 1
        && Slot(p.rate) <= Slot(FirstRate()) + 2
        && (rates[FirstRate()].probEwma < FIFTY_PERCENT ==> Slot(p.rate) <= Slot(FirstRate()))
        && (starting ==> p.rate == sampleInitIdx)
        && (!starting ==> p.rate != maxTp[0] && p.rate != maxProb)
        && (!starting && p.stage == 1 ==> Slot(p.rate) + 2 <= Slot(FirstRate()))
        && (p.stage == 1 ==> Duration(p.rate) >= Duration(maxTp[0]) && Duration(p.rate) >= Duration(maxTp[1]))
        && (!starting ==> (OddClosed(supported[Group(p.rate)]) ==> Supp(supported, p.rate)))
    }

    /** f is the faster of the two best rates, the first one if they are equally fast. */
    ghost predicate IsFirst(f: RateIndex)
      requires |maxTp| == DEPTH && maxTp[0] < RATES && maxTp[1] < RATES
      reads this
    {
      || (f == maxTp[0] && Duration(maxTp[0]) <= Duration(maxTp[1]))
      || (f == maxTp[1] && Duration(maxTp[1]) < Duration(maxTp[0]))
    }

    /** What a slot v of group g becomes under the first rate f: a slot more than one above f
        is replaced by the next odd one; the rates in use are not probed; start-up probes
        another rate instead. The probe waits in the second stage exactly when the rate at
        seen succeeds above 70%, the probed slot is at least two below f, its air time no
        shorter than that of both traffic rates, and either f and the group have streams or
        the probe is no faster than the robust rate. */
    ghost predicate PlacedAs(p: Probe, f: RateIndex, g: nat, v: int, seen: RateIndex, starting: bool)
      requires Valid() && g < GROUPS && 0 <= v < SLOTS
      reads this
    {
      var s := f % 10;
      var u := if v <= s + 1 then v else if s % 2 == 0 then s + 1 else s + 2;
      var rate := 10 * g + u;
      if rate == maxTp[0] || rate == maxProb then p.NoProbe?
      else
        && p.Probe? && p.rate == (if starting then sampleInitIdx else rate) && p.stage <= 1 && p.rate < RATES
        && (p.stage == 1 <==>
              && rates[seen].probEwma > 2867 && u + 2 <= s
              && Duration(p.rate) >= Duration(maxTp[0]) && Duration(p.rate) >= Duration(maxTp[1])
              && ((f / 10 != 4 && g != 4) || Duration(p.rate) >= Duration(maxProb)))
    }

    lemma ProbeForIs(g: nat, v: int, seen: RateIndex, starting: bool)
      requires Valid() && g < GROUPS && 0 <= v < SLOTS
      ensures IsFirst(FirstRate()) && PlacedAs(ProbeFor(g, v, seen, starting), FirstRate(), g, v, seen, starting)
    {
      hide TableOk, Keys, S.IsTable, SamplerOk, Duration, MaskOk, GroupListOk;
    }

    /** p comes from slot v of group g, which the first rate f allows; (g0, v0) was drawn and
        is replaced only if f does not allow it. */
    ghost predicate PlacedVia(p: Probe, f: RateIndex, g0: nat, v0: int, g: nat, v: int, starting: bool)
      requires Valid() && g0 < GROUPS && 0 <= v0 < SLOTS
      reads this
    {
      && IsFirst(f) && g < GROUPS && 0 <= v < SLOTS && v in supported[g] && Deserved(f, v)
      && (Deserved(f, v0) ==> g == g0 && v == v0)
      && PlacedAs(p, f, g, v, g0 * SLOTS + v, starting)
    }

    /** A drawn slot that is unsupported gives no probe. Otherwise the probe comes from it, if
        the first rate allows it, or else from some other supported slot that it allows. */
    ghost predicate PlacedFrom(s: S.Sampler, p: Probe, starting: bool)
      requires Valid() && S.WellFormed(s)
      reads this
    {
      var (g0, v0) := S.Read(s, table);
      if v0 !in supported[g0] then p.NoProbe?
      else exists f: RateIndex, g: nat, v: int :: PlacedVia(p, f, g0, v0, g, v, starting)
    }

    lemma ViaFirst(g0: nat, v0: int, g: nat, v: int, starting: bool)
      requires Valid() && g0 < GROUPS && 0 <= v0 < SLOTS && g < GROUPS && 0 <= v < SLOTS && v in supported[g]
      requires !NeedsRedraw(FirstRate(), v) && (!NeedsRedraw(FirstRate(), v0) ==> g == g0 && v == v0)
      ensures PlacedVia(ProbeFor(g, v, g0 * SLOTS + v, starting), FirstRate(), g0, v0, g, v, starting)
    {
      hide TableOk, Keys, S.IsTable, SamplerOk, Duration, MaskOk, GroupListOk, PlacedAs, ProbeFor, IsFirst;
      ProbeForIs(g, v, g0 * SLOTS + v, starting);
    }

    /** The probe a slot v of group g leads to; seen is the rate whose record decides the stage. */
    ghost function ProbeFor(g: nat, v: int, seen: RateIndex, starting: bool): Probe
      requires Valid() && g < GROUPS && 0 <= v < SLOTS
      reads this
    {
      var mcsIdx := Clamped(v, FirstRate());
      var rate := g * SLOTS + mcsIdx;
      if rate == maxTp[0] || rate == maxProb then NoProbe
      else
        var final := if starting then sampleInitIdx else rate;
        Probe(final, if Deferred(final, mcsIdx, g, seen) then 1 else 0)
    }

    /** p is what the code makes of the sampler state s: nothing for an unsupported slot, the
        drawn slot, or the first acceptable one after it. The sampler is left at s'. */
    ghost predicate SampledFrom(s: S.Sampler, s': S.Sampler, p: Probe, starting: bool)
      requires Valid() && S.WellFormed(s) && S.SomeOn(S.On(supported))
      reads this
    {
      var (g0, v0) := S.Read(s, table);
      if v0 !in supported[g0] then p.NoProbe? && s' == S.Next(s, S.On(supported))
      else if !NeedsRedraw(FirstRate(), v0) then
        && 0 <= v0 < SLOTS && p == ProbeFor(g0, v0, g0 * SLOTS + v0, starting) && s' == S.Next(s, S.On(supported))
      else exists g: nat, v: int :: g < GROUPS && 0 <= v < SLOTS &&
             Redrawn(S.Next(s, S.On(supported)), Slot(FirstRate()), (g, v), s') &&
             p == ProbeFor(g, v, g0 * SLOTS + v, starting)
    }

    /** Clearing limit requested after a draw in sampler state s. */
    function Requested(s: S.Sampler, n: nat): nat
      requires Valid() && S.WellFormed(s)
      reads this
    {
      var (g0, v0) := S.Read(s, table);
      if v0 in supported[g0] then ClearingRequest(FirstRate(), n) else n
    }

    /** Start-up flag after a decision: it falls with the last forced probe. */
    function StillStarting(p: Probe, starting: bool, n: nat): bool
      reads this
    {
      starting && (p.NoProbe? || n < sampleForceCounts)
    }

    /** Choose the rate and stage for a drawn, supported slot. */
    method PlaceProbe(g0: nat, g: nat, v: int) returns (p: Probe)
      requires Valid() && g0 < GROUPS && g < GROUPS && v in supported[g] && 0 <= v < SLOTS
      requires !NeedsRedraw(FirstRate(), v) && sampleTries > 0
      modifies this`sampleTries, this`sampleInitFlag, this`sampleInitCounts
      ensures Valid() && ProbeOk(p, old(sampleInitFlag))
      ensures p == ProbeFor(g, v, g0 * SLOTS + v, old(sampleInitFlag))
      ensures exists f: RateIndex :: IsFirst(f) && PlacedAs(p, f, g, v, g0 * SLOTS + v, old(sampleInitFlag))
      ensures sampleInitFlag == StillStarting(p, old(sampleInitFlag), old(sampleInitCounts))
      ensures sampleInitCounts == old(sampleInitCounts) + if p.Probe? && old(sampleInitFlag) then 1 else 0
      ensures sampleTries == old(sampleTries) - if p.Probe? then 1 else 0
    {
      hide TableOk, MaskOk, Keys, S.IsTable, SamplerOk, Duration, ProbeOk, CapsOk, PlacedAs, IsFirst;
      var mcsIdx := Clamped(v, FirstRate());
      var rate := g * SLOTS + mcsIdx;
      ProbeForOk(g, v, g0 * SLOTS + v, sampleInitFlag);
      ProbeForIs(g, v, g0 * SLOTS + v, sampleInitFlag);
      if rate == maxTp[0] || rate == maxProb {
        return NoProbe;
      }
      if sampleInitFlag {
        rate := sampleInitIdx;
        sampleInitCounts := sampleInitCounts + 1;
        if sampleInitCounts > sampleForceCounts {
          sampleInitFlag := false;
        }
      }
      p := Probe(rate, if Deferred(rate, mcsIdx, g, g0 * SLOTS + v) then 1 else 0);
      sampleTries := sampleTries - 1;
      ProbeForIs(g, v, g0 * SLOTS + v, old(sampleInitFlag));
      ProbeForOk(g, v, g0 * SLOTS + v, old(sampleInitFlag));
    }

    lemma ProbeForOk(g: nat, v: int, seen: RateIndex, starting: bool)
      requires Valid() && g < GROUPS && v in supported[g] && 0 <= v < SLOTS && !NeedsRedraw(FirstRate(), v)
      ensures 0 <= Clamped(v, FirstRate()) < SLOTS
      ensures ProbeOk(ProbeFor(g, v, seen, starting), starting)
    {
      hide TableOk, Keys, S.IsTable, SamplerOk, Duration;
      var mcsIdx := Clamped(v, FirstRate());
      assert 0 <= mcsIdx <= v;
      assert Group(g * SLOTS + mcsIdx) == g && Slot(g * SLOTS + mcsIdx) == mcsIdx;
      assert MaskOk(g, supported[g]);
      ClampSupportedIff(supported[g]);
    }

    /** Every MCS probe outside start-up is supported. */
    lemma McsProbeSupported(p: Probe)
      requires Valid() && ProbeOk(p, false) && p.Probe? && Group(p.rate) != CCK
      ensures Supp(supported, p.rate)
    {
      assert MaskOk(Group(p.rate), supported[Group(p.rate)]);
      ClampSupported(Group(p.rate), supported[Group(p.rate)]);
    }

    /** Decide whether and what to probe with the next frame. */
    method GetSampleRate() returns (p: Probe)
      requires Valid()
      modifies this`sampleWait, this`sampleTries, this`sampleGroup, this`sampleIndex, this`sampleColumn
      modifies this`needClear, this`sampleInitFlag, this`sampleInitCounts
      ensures Valid() && ProbeOk(p, old(sampleInitFlag))
      ensures (Budget(), p.Probe?) == PB.OnGetRate(old(Budget()), p.Probe?)
      ensures old(sampleWait) == 0 && old(sampleTries) > 0 ==>
                S.SomeOn(S.On(supported)) && SampledFrom(old(Sampler()), Sampler(), p, old(sampleInitFlag))
      ensures old(sampleWait) == 0 && old(sampleTries) > 0 ==> PlacedFrom(old(Sampler()), p, old(sampleInitFlag))
      ensures sampleInitFlag == StillStarting(p, old(sampleInitFlag), old(sampleInitCounts))
      ensures sampleInitCounts == old(sampleInitCounts) + if p.Probe? && old(sampleInitFlag) then 1 else 0
      ensures if old(sampleWait) == 0 &&
              old(sampleTries) > 0 then needClear == Requested(old(Sampler()), old(needClear))
              else Sampler() == old(Sampler()) && needClear == old(needClear)
    {
      hide TableOk, MaskOk, Keys, S.IsTable, S.Next, Positions, Duration, ListsOk, SamplerOk, SampledFrom, PlacedFrom;
      if sampleWait > 0 {
        sampleWait := sampleWait - 1;
        return NoProbe;
      }
      if sampleTries == 0 {
        return NoProbe;
      }
      p := TryProbe();
    }

    /** Draw a slot; probe it if it is supported and survives the checks. */
    method TryProbe() returns (p: Probe)
      requires Valid() && sampleTries > 0
      modifies this`sampleTries, this`sampleGroup, this`sampleIndex, this`sampleColumn
      modifies this`needClear, this`sampleInitFlag, this`sampleInitCounts
      ensures Valid() && ProbeOk(p, old(sampleInitFlag))
      ensures S.SomeOn(S.On(supported)) && SampledFrom(old(Sampler()), Sampler(), p, old(sampleInitFlag))
      ensures PlacedFrom(old(Sampler()), p, old(sampleInitFlag))
      ensures sampleInitFlag == StillStarting(p, old(sampleInitFlag), old(sampleInitCounts))
      ensures sampleInitCounts == old(sampleInitCounts) + if p.Probe? && old(sampleInitFlag) then 1 else 0
      ensures needClear == Requested(old(Sampler()), old(needClear))
      ensures sampleTries == old(sampleTries) - if p.Probe? then 1 else 0
    {
      hide TableOk, MaskOk, Keys, S.IsTable, S.Next, Positions, Duration, Deferred, Demanded, ProbeOk, SamplerOk;
      hide Clamped, Redrawn, ProbeFor, S.On, CapsOk, PlacedVia, PlacedAs, IsFirst, Deserved;
      var g0, v0 := DrawSample();
      if v0 !in supported[g0] {
        p := NoProbe;
        assert ProbeOk(p, old(sampleInitFlag)) by { NoProbeOk(old(sampleInitFlag)); }
        return;
      }
      var g, v := CheckSampleIdx(FirstRate(), g0, v0);
      p := PlaceProbe(g0, g, v);
      ViaFirst(g0, v0, g, v, old(sampleInitFlag));
    }

    lemma NoProbeOk(starting: bool)
      requires Valid()
      ensures ProbeOk(NoProbe, starting)
    {
    }

    /** Rate decision for one frame. Port-control frames are not used for probing on hardware
        with a single rate. */
    method GetRate(portControl: bool) returns (p: Probe)
      requires Valid()
      modifies this`sampleWait, this`sampleTries, this`sampleGroup, this`sampleIndex, this`sampleColumn
      modifies this`needClear, this`sampleInitFlag, this`sampleInitCounts
      ensures Valid() && ProbeOk(p, old(sampleInitFlag))
      ensures if maxRates == 1 && portControl then Budget() == old(Budget()) && p.NoProbe?
              else (Budget(), p.Probe?) == PB.OnGetRate(old(Budget()), p.Probe?)
      ensures !(maxRates == 1 && portControl) && old(sampleWait) == 0 && old(sampleTries) > 0 ==>
                S.SomeOn(S.On(supported)) && SampledFrom(old(Sampler()), Sampler(), p, old(sampleInitFlag))
      ensures !(maxRates == 1 && portControl) && old(sampleWait) == 0 && old(sampleTries) > 0 ==>
                PlacedFrom(old(Sampler()), p, old(sampleInitFlag))
      ensures sampleInitFlag == StillStarting(p, old(sampleInitFlag), old(sampleInitCounts))
      ensures sampleInitCounts == old(sampleInitCounts) + if p.Probe? && old(sampleInitFlag) then 1 else 0
      ensures if !(maxRates == 1 && portControl) && old(sampleWait) == 0 && old(sampleTries) > 0
              then needClear == Requested(old(Sampler()), old(needClear))
              else Sampler() == old(Sampler()) && needClear == old(needClear)
    {
      hide SampledFrom, ProbeOk, Requested, PlacedFrom;
      p := NoProbe;
      assert ProbeOk(p, sampleInitFlag) by { NoProbeOk(sampleInitFlag); }
      if !(maxRates == 1 && portControl) {
        p := GetSampleRate();
      }
    }

    /** The lowest HT rate leads, has been tried and mostly fails. */
    predicate Desperate(t: Table)
      requires |t| == RATES && |supported| == GROUPS && |maxTp| == DEPTH
      reads this
    {
      supported[0] != {} && maxTp[0] == 0 && t[0].attempts > 30 && 0 < t[0].probEwma < THIRTY_PERCENT
    }

    /** Vet a probe against the current signal. fitableBw: width the signal supports; fit:
        highest slot it supports at the probe's width; weak: an HT station on a 20 MHz channel
        at 2.4 GHz whose beacons are weak. Also says whether to ask for a fixed legacy rate. */
    method CheckRateFitable(p: Probe, fitableBw: Width, fit: nat, active: bool, weak: bool)
        returns (keep: bool, legacy: bool)
      requires Valid() && (p.Probe? ==> p.rate < RATES)
      modifies this`rates, this`sampleClearFlag, this`needClear
      ensures Valid() && (p.NoProbe? ==> !legacy) && (old(CountsNow()) ==> CountsNow())
      ensures keep ==> p.Probe? && (sampleAllBw || WidthNumber(WidthOf(Group(p.rate))) >= WidthNumber(fitableBw))
      ensures keep && active ==> Encode(p.rate, cckRates) <= fit && old(needClear) == 0
      ensures p.NoProbe? ==> !keep && unchanged(this)
      ensures p.Probe? ==>
                var zeroed := if old(sampleClearFlag)
                    then Passed(old(rates), ZeroPass(supported, sampleClearBw), RATES) else old(rates);
                var narrow := !sampleAllBw && WidthNumber(WidthOf(Group(p.rate))) < WidthNumber(fitableBw);
                var over := fit < Encode(p.rate, cckRates) || old(needClear) != 0;
                && keep == !(narrow || (over && active)) && !sampleClearFlag
                && legacy == (weak && !narrow && Desperate(zeroed))
                // That is: the lowest HT rate leads, was tried more than 30 times, and works in
                // less than 30% of 4096, but not never.
                && (legacy <==> && weak && !narrow && supported[0] != {} && maxTp[0] == 0
                                && zeroed[0].attempts >= 31 && 1 <= zeroed[0].probEwma <= 1227)
                && needClear == (if !narrow && over then 0 else old(needClear))
                && rates == if !narrow && over && active
                            then Passed(zeroed, ClearPass(supported, RoundLimit(fit, old(needClear))), RATES)
                            else zeroed
    {
      hide TableOk, MaskOk, SamplerOk, Keys, S.IsTable, Encode, Passed, ZeroPass, ClearPass, CapsOk;
      hide CountsCurrent;
      if p.NoProbe? {
        return false, false;
      }
      if sampleClearFlag {
        ClearUnfitableProbEwma();
        sampleClearFlag := false;
      }
      if !sampleAllBw && WidthNumber(WidthOf(Group(p.rate))) < WidthNumber(fitableBw) {
        return false, false;
      }
      legacy := weak && Desperate(rates);
      if fit < Encode(p.rate, cckRates) || needClear != 0 {
        var limit := RoundLimit(fit, needClear);
        needClear := 0;
        if active {
          ClearUnfitableRateStats(limit);
          return false, legacy;
        }
      }
      return true, legacy;
    }
  }
}
