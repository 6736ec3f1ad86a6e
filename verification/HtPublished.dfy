/** What can and cannot be published. A clearing round forgets the rates above the limit that
    have a success history, but first successes are no history yet; and a stage of the chain
    names a supported rate or a placeholder. */
module HtPublished {
  import opened FixedPoint
  import opened RateStatistics
  import opened RateGroups
  import opened FrameDuration
  import opened TopRates
  import opened HtCaps
  import opened HtTables
  import opened HtSpec
  import opened HtRobust
  import Retransmit

  // ----- the limit of a clearing round

  /** Success average the next recalculation will give. */
  function NextAverage(r: RateStats): int {
    if r.attempts == 0 then r.probEwma
    else if r.attHist == 0 then Frac(r.success, r.attempts)
    else Ewma(r.probEwma, Frac(r.success, r.attempts))
  }

  /** A rate keeps an average through clearing exactly when it has no success history and the
      open window gives it one. */
  lemma SurvivesIff(r: RateStats)
    ensures Recalculate(ClearUnfit(r)).probEwma > 0 <==> r.succHist == 0 && NextAverage(r) > 0
    ensures Recalculate(ClearUnfit(r)).probEwma >= FIFTY_PERCENT <==> Newcomer(r)
  {
    if r.succHist != 0 { ClearedDropsToZero(r); }
  }

  /** Dependable by the next recalculation although without success history. */
  predicate Newcomer(r: RateStats) { r.succHist == 0 && NextAverage(r) >= FIFTY_PERCENT }

  /** A supported newcomer of the given group, above the limit and up to the given slot. */
  ghost predicate NewcomerAbove(t: Table, masks: seq<Mask>, limit: nat, head: RateIndex)
    requires |t| == RATES && |masks| == GROUPS
  {
    exists j :: 0 <= j <= head && Group(j) == Group(head) && Slot(j) > limit && Supp(masks, j) && Newcomer(t[j])
  }

  lemma RoundAt(t: Table, masks: seq<Mask>, l: Retransmit.Limits, limit: nat, j: RateIndex)
    requires TableOk(t, masks, l)
    ensures Slot(j) > limit ==>
              (RoundTable(t, masks, limit, true)[j].probEwma >= FIFTY_PERCENT <==> Supp(masks, j) && Newcomer(t[j]))
    ensures Slot(j) > limit && RoundTable(t, masks, limit, true)[j].probEwma > 0 ==>
              Supp(masks, j) && t[j].succHist == 0 && NextAverage(t[j]) > 0
  {
    assert RateOk(t[j], j, masks, l) && MaskOk(Group(j), masks[Group(j)]);
    if Slot(j) > limit && Supp(masks, j) {
      assert RoundTable(t, masks, limit, true)[j] == Recalculate(ClearUnfit(t[j]));
      SurvivesIff(t[j]);
    }
  }

  lemma {:induction false} LoweredAboveIff(t: Table, i: RateIndex, limit: nat)
    requires |t| == RATES
    ensures Slot(Lowered(t, i)) > limit <==>
            exists j :: 0 <= j <= i && Group(j) == Group(i) && Slot(j) > limit && t[j].probEwma >= FIFTY_PERCENT
    decreases i
  {
    var r := Lowered(t, i);
    if Slot(r) > limit { assert t[r].probEwma >= FIFTY_PERCENT; }
    if j :| 0 <= j <= i && Group(j) == Group(i) && Slot(j) > limit && t[j].probEwma >= FIFTY_PERCENT { assert j <= r; }
  }

  /** The published primary rate exceeds the limit of a clearing round exactly when, in the
      group of the round's fastest rate and no faster than it, some supported rate above the
      limit is a newcomer. */
  lemma PrimaryAboveIff(t: Table, masks: seq<Mask>, l: Retransmit.Limits, limit: nat, head: RateIndex)
    requires TableOk(t, masks, l)
    ensures Slot(Lowered(RoundTable(t, masks, limit, true), head)) > limit <==> NewcomerAbove(t, masks, limit, head)
  {
    var t' := RoundTable(t, masks, limit, true);
    LoweredAboveIff(t', head, limit);
    forall j | 0 <= j <= head && Slot(j) > limit
      ensures t'[j].probEwma >= FIFTY_PERCENT <==> Supp(masks, j) && Newcomer(t[j])
    {
      RoundAt(t, masks, l, limit, j);
    }
    hide RoundTable, Lowered, TableOk, Newcomer;
  }

  /** No supported rate above the limit is a newcomer. */
  ghost predicate NoNewcomer(t: Table, masks: seq<Mask>, limit: nat)
    requires |t| == RATES && |masks| == GROUPS
  {
    forall j: RateIndex :: Slot(j) > limit && Supp(masks, j) ==> !Newcomer(t[j])
  }

  /** A round holds the limit whatever rate turns out fastest, exactly when it finds no
      newcomer above the limit. */
  lemma LimitHeldIff(t: Table, masks: seq<Mask>, l: Retransmit.Limits, limit: nat)
    requires TableOk(t, masks, l)
    ensures (forall i: RateIndex :: Slot(Lowered(RoundTable(t, masks, limit, true), i)) <= limit) <==>
            NoNewcomer(t, masks, limit)
  {
    var t' := RoundTable(t, masks, limit, true);
    forall i: RateIndex ensures Slot(Lowered(t', i)) > limit <==> NewcomerAbove(t, masks, limit, i) {
      PrimaryAboveIff(t, masks, l, limit, i);
    }
    hide RoundTable, Lowered, TableOk, Newcomer;
    if j: RateIndex :| Slot(j) > limit && Supp(masks, j) && Newcomer(t[j]) {
      assert NewcomerAbove(t, masks, limit, j);
      assert Slot(Lowered(t', j)) > limit;
    }
  }

  /** So it does when every supported rate above the limit has a success history. */
  lemma HistoryHoldsLimit(t: Table, masks: seq<Mask>, limit: nat)
    requires |t| == RATES && |masks| == GROUPS
    requires forall j: RateIndex :: Slot(j) > limit && Supp(masks, j) ==> t[j].succHist != 0
    ensures NoNewcomer(t, masks, limit)
  {
  }

  // ----- entries of the rate list

  /** Every entry of the new rate list is supported and has a success average, or is the
      placeholder. */
  lemma BestRatesSupported(t: Table, masks: seq<Mask>, l: Retransmit.Limits, avgLen: nat)
    requires TableOk(t, masks, l) && avgLen >= SCALE
    ensures var r := BestRates(Keys(t, masks, l, avgLen), masks);
            forall j :: 0 <= j < DEPTH ==> r[j] == 0 || (t[r[j]].probEwma > 0 && Supp(masks, r[j]))
  {
    var k := Keys(t, masks, l, avgLen);
    var r := BestRates(k, masks);
    BestRatesBeatPlaceholder(k, masks);
    forall j | 0 <= j < DEPTH ensures r[j] == 0 || (t[r[j]].probEwma > 0 && Supp(masks, r[j])) {
      assert r[j] in r;
      if r[j] != 0 { BetterSupported(t, masks, l, avgLen, r[j], 0); }
    }
  }

  lemma BestRatesBeatPlaceholder(k: seq<Key>, masks: seq<Mask>)
    requires |masks| == GROUPS && |k| == RATES
    ensures forall y :: y in BestRates(k, masks) ==> y < RATES && (y == 0 || Better(k, y, 0))
  {
    var mcs, cck := TopList(k, SelectAll(masks, Mcs)), TopList(k, SelectAll(masks, Cck));
    ScannedListIsTop(k, masks, Mcs, RATES);
    ScannedListIsTop(k, masks, Cck, RATES);
    InsertAllEntries(k, mcs, cck);
    hide InsertAll, Select;
    forall y | y in BestRates(k, masks) ensures y < RATES && (y == 0 || Better(k, y, 0)) {
      assert y in mcs || y in cck;
    }
  }

  /** The whole list after a round: nothing cleared is in it, and what lies above the limit had
      its first successes in the window that has just ended. */
  lemma ListedAboveLimit(t: Table, masks: seq<Mask>, l: Retransmit.Limits, limit: nat, i: RateIndex, t': Table)
    requires TableOk(t, masks, l) && SameTable(t', RoundTable(t, masks, limit, true))
    requires Slot(i) == 0 || t'[i].probEwma > 0
    ensures !ClearedIn(t, masks, limit, i)
    ensures Slot(i) > limit ==> t[i].succHist == 0 && NextAverage(t[i]) > 0
  {
    assert SameStats(t'[i], RoundTable(t, masks, limit, true)[i]);
    RoundAt(t, masks, l, limit, i);
    hide RoundTable, TableOk;
  }

  /** What a round over table t makes of the limit: the primary rate exceeds it exactly when a
      newcomer lets it; no listed rate was cleared, and those above the limit are survivors. */
  ghost predicate LimitKept(t: Table, masks: seq<Mask>, limit: nat, head: RateIndex, list: seq<nat>)
    requires |t| == RATES && |masks| == GROUPS && |list| == DEPTH && AllBelow(list, RATES)
  {
    && (Slot(list[0]) > limit <==> NewcomerAbove(t, masks, limit, head))
    && forall j :: 0 <= j < DEPTH ==>
         && !ClearedIn(t, masks, limit, list[j])
         && (Slot(list[j]) > limit ==> t[list[j]].succHist == 0 && NextAverage(t[list[j]]) > 0)
  }

  lemma RoundKeepsLimit(t: Table, masks: seq<Mask>, l: Retransmit.Limits, avgLen: nat, limit: nat, t': Table)
    requires TableOk(t, masks, l) && TableOk(t', masks, l) && avgLen >= SCALE
    requires SameTable(t', RoundTable(t, masks, limit, true))
    ensures var best := BestRates(Keys(t', masks, l, avgLen), masks);
            LimitKept(t, masks, limit, best[0], LoweredHead(t', best))
  {
    hide RateOk, MaskOk, RoundTable, Keys, BestRates, Lowered, ClearedIn, NewcomerAbove, NextAverage;
    var best := BestRates(Keys(t', masks, l, avgLen), masks);
    var list := LoweredHead(t', best);
    PrimaryAboveIff(t, masks, l, limit, best[0]);
    LoweredSame(t', RoundTable(t, masks, limit, true), best[0]);
    BestRatesSupported(t', masks, l, avgLen);
    forall j | 0 <= j < DEPTH
      ensures !ClearedIn(t, masks, limit, list[j])
      ensures Slot(list[j]) > limit ==> t[list[j]].succHist == 0 && NextAverage(t[list[j]]) > 0
    {
      ListedAboveLimit(t, masks, l, limit, list[j], t');
    }
  }

  // ----- supported stages

  /** A supported rate, or slot 0 of the first group or of a supported CCK group. */
  ghost predicate Grounded(masks: seq<Mask>, i: nat)
    requires |masks| == GROUPS
  {
    i < RATES && (Supp(masks, i) || i == 0 || (i == SLOTS * CCK && masks[CCK] != {}))
  }

  /** Grounded rates are all supported exactly when both slots 0 are. */
  lemma GroundedSupportedIff(masks: seq<Mask>)
    requires CapsOk(masks)
    ensures (forall i: nat :: Grounded(masks, i) ==> Supp(masks, i)) <==>
            0 in masks[0] && (masks[CCK] == {} || 0 in masks[CCK])
  {
    assert Grounded(masks, 0);
    assert masks[CCK] != {} ==> Grounded(masks, SLOTS * CCK);
  }

  /** Slot 0 of the group of a grounded rate is grounded. */
  lemma GroupGrounded(masks: seq<Mask>, i: RateIndex)
    requires CapsOk(masks) && Grounded(masks, i)
    ensures Grounded(masks, SLOTS * Group(i))
  {
    assert MaskOk(Group(i), masks[Group(i)]);
  }

  lemma LoweredGrounded(t: Table, masks: seq<Mask>, l: Retransmit.Limits, i: RateIndex)
    requires TableOk(t, masks, l) && Grounded(masks, i)
    ensures Grounded(masks, Lowered(t, i))
  {
    var r := Lowered(t, i);
    assert RateOk(t[r], r, masks, l);
    GroupGrounded(masks, i);
  }

  lemma BestBelowGrounded(t: Table, masks: seq<Mask>, l: Retransmit.Limits, avgLen: nat, m: RateIndex, n: nat, r: nat)
    requires TableOk(t, masks, l) && avgLen >= SCALE && Grounded(masks, m) && 0 < n
    requires BestBelow(Keys(t, masks, l, avgLen), SLOTS * Group(m), n, r)
    ensures Grounded(masks, r)
  {
    var base := SLOTS * Group(m);
    GroupGrounded(masks, m);
    if r != base {
      assert Better(Keys(t, masks, l, avgLen), r, base);
      BetterSupported(t, masks, l, avgLen, r, base);
    }
  }

  lemma BetterSupported(t: Table, masks: seq<Mask>, l: Retransmit.Limits, avgLen: nat, i: RateIndex, j: RateIndex)
    requires TableOk(t, masks, l) && avgLen >= SCALE && Better(Keys(t, masks, l, avgLen), i, j) && j < i
    ensures t[i].probEwma > 0 && Supp(masks, i)
  {
    assert RateOk(t[i], i, masks, l) && RateOk(t[j], j, masks, l);
    KeyIsExact(t, masks, l, avgLen, i);
    KeyIsExact(t, masks, l, avgLen, j);
  }

  lemma GroupListGrounded(k: seq<Key>, masks: seq<Mask>, g: nat)
    requires |masks| == GROUPS && |k| == RATES && g < GROUPS
    ensures forall j :: 0 <= j < DEPTH ==> Grounded(masks, GroupList(k, masks, g)[j])
  {
    var xs := Select(masks, All, SLOTS * g + SLOTS);
    SelectMembers(masks, All, SLOTS * g + SLOTS);
    TopListEntries(k, xs);
    hide TopList, Select;
    var r := GroupList(k, masks, g);
    forall j | 0 <= j < DEPTH ensures Grounded(masks, r[j]) { assert r[j] in r; }
  }

  /** All rates a station may publish are grounded. */
  ghost predicate StagesOk(masks: seq<Mask>, maxTp: seq<nat>, maxProb: nat, groupTp: seq<seq<nat>>, groupProb: seq<nat>)
    requires |masks| == GROUPS && ListsOk(maxTp, maxProb, groupTp, groupProb)
  {
    && (forall j :: 0 <= j < DEPTH ==> Grounded(masks, maxTp[j])) && Grounded(masks, maxProb)
    && forall g, j :: 0 <= g < GROUPS && masks[g] != {} && 0 <= j < DEPTH ==> Grounded(masks, groupTp[g][j])
  }

  lemma BestRatesGrounded(t: Table, masks: seq<Mask>, l: Retransmit.Limits, avgLen: nat)
    requires TableOk(t, masks, l) && avgLen >= SCALE
    ensures var r := BestRates(Keys(t, masks, l, avgLen), masks);
            forall j :: 0 <= j < DEPTH ==> Grounded(masks, r[j])
  {
    BestRatesSupported(t, masks, l, avgLen);
  }

  lemma AfterDeathGrounded(t: Table, masks: seq<Mask>, maxTp: seq<nat>, maxProb: nat,
                           groupTp: seq<seq<nat>>, groupProb: seq<nat>)
    requires |t| == RATES && |masks| == GROUPS && ListsOk(maxTp, maxProb, groupTp, groupProb)
    requires StagesOk(masks, maxTp, maxProb, groupTp, groupProb)
    ensures forall j :: 0 <= j < DEPTH ==> Grounded(masks, AfterDeath(t, masks, groupTp, maxTp)[j])
  {
    hide Failing, Grounded;
  }
}
