/** Specification of the HT station's rate table: what the bulk passes over all 110 rates
    compute, and the rate lists they give rise to. */
module HtTables {
  import opened FixedPoint
  import opened RateStatistics
  import opened RateGroups
  import opened FrameDuration
  import opened TopRates
  import opened HtCaps
  import Retransmit

  type Table = seq<RateStats>

  const FIFTY_PERCENT: int := 2048

  /** Entries that stand for a rate; the others are never scanned. */
  predicate Exists(i: RateIndex) { Slot(i) < SlotCount(Group(i)) }

  ghost predicate Averaged(r: RateStats) { Probability(r.probEwma) && 0 <= r.probEwmv <= VARIANCE_BOUND }

  /** Sane statistics of every rate, a non-zero average only at supported rates, and retry
      counts within their limits once computed. */
  ghost predicate TableOk(t: Table, masks: seq<Mask>, l: Retransmit.Limits) {
    && CapsOk(masks)
    && |t| == RATES
    && forall i :: 0 <= i < RATES ==> RateOk(t[i], i, masks, l)
  }

  ghost predicate RateOk(r: RateStats, i: RateIndex, masks: seq<Mask>, l: Retransmit.Limits)
    requires |masks| == GROUPS
  {
    && (Exists(i) ==> Sane(r)) && Averaged(r)
    && (r.probEwma > 0 ==> Supp(masks, i))
    && (r.retryUpdated ==> Supp(masks, i))
    && (r.retryUpdated ==> 2 <= r.retryCountRtscts <= r.retryCount <= Retransmit.Ceiling(l))
  }

  /** Throughput and success average of a rate. The division is safe because a rate with a
      non-zero average is supported and so has a duration. */
  function RateKey(t: Table, masks: seq<Mask>, l: Retransmit.Limits, avgLen: nat, i: RateIndex): Key
    requires TableOk(t, masks, l) && avgLen >= SCALE
  {
    assert RateOk(t[i], i, masks, l);
    assert MaskOk(Group(i), masks[Group(i)]);
    assert t[i].probEwma > 0 ==> FrameNanos(i, avgLen) > 0 by {
      if t[i].probEwma > 0 { NanosExact(i, avgLen); }
    }
    Key(HtTp(i, avgLen, t[i].probEwma), t[i].probEwma)
  }

  ghost function Keys(t: Table, masks: seq<Mask>, l: Retransmit.Limits, avgLen: nat): (k: seq<Key>)
    requires TableOk(t, masks, l) && avgLen >= SCALE
    ensures |k| == RATES && forall i :: 0 <= i < RATES ==> k[i] == RateKey(t, masks, l, avgLen, i)
  {
    seq(RATES, i requires 0 <= i < RATES => RateKey(t, masks, l, avgLen, i))
  }

  /** In every valid state each throughput estimate is the exact integer formula: positive
      divisor, no wrap-around. */
  lemma KeyIsExact(t: Table, masks: seq<Mask>, l: Retransmit.Limits, avgLen: nat, i: RateIndex)
    requires TableOk(t, masks, l) && avgLen >= SCALE
    ensures t[i].probEwma < 409 ==> RateKey(t, masks, l, avgLen, i).tp == 0
    ensures t[i].probEwma >= 409 ==>
              var p := if t[i].probEwma > 3686 then 3686 else t[i].probEwma;
              ExactNanos(i, avgLen) > 0 &&
              RateKey(t, masks, l, avgLen, i).tp == 100 * Quot(p * 1000000, ExactNanos(i, avgLen)) / 4096
  {
    assert RateOk(t[i], i, masks, l);
    assert MaskOk(Group(i), masks[Group(i)]);
    if t[i].probEwma > 0 { HtTpExact(i, avgLen, t[i].probEwma); }
  }

  // ----- passes over the table

  type Pass = (nat, RateStats) -> RateStats

  /** A pass applied to the first n rates. */
  ghost function Passed(t: Table, f: Pass, n: nat): (t': Table)
    ensures |t'| == |t|
  {
    seq(|t|, i requires 0 <= i < |t| => if i < n then f(i, t[i]) else t[i])
  }

  lemma PassNothing(t: Table, f: Pass)
    ensures Passed(t, f, 0) == t
  {
  }

  lemma PassStep(t: Table, f: Pass, n: nat)
    requires n < |t|
    ensures Passed(t, f, n + 1) == Passed(t, f, n)[n := f(n, t[n])]
    ensures Passed(t, f, n)[n] == t[n]
  {
  }

  lemma PassSkip(t: Table, f: Pass, n: nat, m: nat)
    requires n <= m <= |t| && forall i :: n <= i < m ==> f(i, t[i]) == t[i]
    ensures Passed(t, f, n) == Passed(t, f, m)
  {
  }

  lemma PassKeepsOk(t: Table, f: Pass, n: nat, masks: seq<Mask>, l: Retransmit.Limits)
    requires TableOk(t, masks, l)
    requires forall i :: 0 <= i < RATES ==> RateOk(f(i, t[i]), i, masks, l)
    ensures TableOk(Passed(t, f, n), masks, l)
  {
  }

  function Recalculate(r: RateStats): RateStats { CalcRateStats(r.(retryUpdated := false)) }

  function RecalcPass(masks: seq<Mask>): Pass
    requires |masks| == GROUPS
  {
    (i: nat, r: RateStats) => if i < RATES && Supp(masks, i) then Recalculate(r) else r
  }

  function ClearPass(masks: seq<Mask>, maxRate: nat): Pass
    requires |masks| == GROUPS
  {
    (i: nat, r: RateStats) => if i < RATES && Supp(masks, i) && Slot(i) > maxRate then ClearUnfit(r) else r
  }

  function ZeroPass(masks: seq<Mask>, widths: set<Width>): Pass
    requires |masks| == GROUPS
  {
    (i: nat, r: RateStats) => if i < RATES && Supp(masks, i) && WidthOf(Group(i)) in widths then ZeroProb(r) else r
  }

  /** The start-up seeding: two successes at the best fitting slot, one each at slots 2 and 0. */
  function SeedPass(masks: seq<Mask>, maxRate: nat, w: Width): Pass
    requires |masks| == GROUPS
  {
    (i: nat, r: RateStats) =>
      if i < RATES && WidthOf(Group(i)) == w && maxRate in masks[Group(i)] then
        if Slot(i) == 0 || Slot(i) == 2 then Seed(r, 1) else if Slot(i) == maxRate then Seed(r, 2) else r
      else r
  }

  lemma RecalcKeepsOk(t: Table, masks: seq<Mask>, l: Retransmit.Limits, n: nat)
    requires TableOk(t, masks, l)
    ensures TableOk(Passed(t, RecalcPass(masks), n), masks, l)
  {
    forall i | 0 <= i < RATES ensures RateOk(RecalcPass(masks)(i, t[i]), i, masks, l) {
      assert RateOk(t[i], i, masks, l) && MaskOk(Group(i), masks[Group(i)]);
      if Exists(i) { ApplyKeepsSane(t[i].(retryUpdated := false), Recalculated); }
    }
    PassKeepsOk(t, RecalcPass(masks), n, masks, l);
  }

  lemma ClearKeepsOk(t: Table, masks: seq<Mask>, l: Retransmit.Limits, n: nat, maxRate: nat)
    requires TableOk(t, masks, l)
    ensures TableOk(Passed(t, ClearPass(masks, maxRate), n), masks, l)
  {
    forall i | 0 <= i < RATES ensures RateOk(ClearPass(masks, maxRate)(i, t[i]), i, masks, l) {
      assert RateOk(t[i], i, masks, l) && MaskOk(Group(i), masks[Group(i)]);
      if Exists(i) { ApplyKeepsSane(t[i], Cleared); }
    }
    PassKeepsOk(t, ClearPass(masks, maxRate), n, masks, l);
  }

  lemma ZeroKeepsOk(t: Table, masks: seq<Mask>, l: Retransmit.Limits, n: nat, widths: set<Width>)
    requires TableOk(t, masks, l)
    ensures TableOk(Passed(t, ZeroPass(masks, widths), n), masks, l)
  {
    forall i | 0 <= i < RATES ensures RateOk(ZeroPass(masks, widths)(i, t[i]), i, masks, l) {
      assert RateOk(t[i], i, masks, l);
    }
    PassKeepsOk(t, ZeroPass(masks, widths), n, masks, l);
  }

  lemma SeedKeepsOk(t: Table, masks: seq<Mask>, l: Retransmit.Limits, n: nat, maxRate: nat, w: Width)
    requires TableOk(t, masks, l)
    ensures TableOk(Passed(t, SeedPass(masks, maxRate, w), n), masks, l)
  {
    forall i | 0 <= i < RATES ensures RateOk(SeedPass(masks, maxRate, w)(i, t[i]), i, masks, l) {
      assert RateOk(t[i], i, masks, l);
      var r := SeedPass(masks, maxRate, w)(i, t[i]);
      assert r == t[i] || r == Seed(t[i], 1) || r == Seed(t[i], 2);
    }
    PassKeepsOk(t, SeedPass(masks, maxRate, w), n, masks, l);
  }

  /** A rate that was cleared has a success average of zero after the next recalculation. */
  lemma ClearedDropsToZero(r: RateStats)
    requires r.succHist != 0
    ensures Recalculate(ClearUnfit(r)).probEwma == 0
  {
    assert Frac(0, 1) == 0;
  }

  // ----- which rates feed which list

  datatype Which = Mcs | Cck | All

  predicate Picked(masks: seq<Mask>, which: Which, i: RateIndex)
    requires |masks| == GROUPS
  {
    Supp(masks, i) && (which.All? || (which.Cck? <==> Group(i) == CCK))
  }

  /** Supported rates of a kind below n, ascending. */
  ghost function Select(masks: seq<Mask>, which: Which, n: nat): (xs: seq<nat>)
    requires |masks| == GROUPS && n <= RATES
    ensures AllBelow(xs, n)
  {
    if n == 0 then []
    else
      var xs := Select(masks, which, n - 1);
      if Picked(masks, which, n - 1) then xs + [n - 1] else xs
  }

  lemma {:induction false} SelectMembers(masks: seq<Mask>, which: Which, n: nat)
    requires |masks| == GROUPS && n <= RATES
    ensures Ascending(Select(masks, which, n))
    ensures forall i: nat :: i in Select(masks, which, n) <==> i < n && Picked(masks, which, i)
    decreases n
  {
    if n > 0 { SelectMembers(masks, which, n - 1); }
  }

  ghost function SelectAll(masks: seq<Mask>, which: Which): (xs: seq<nat>)
    requires |masks| == GROUPS
    ensures AllBelow(xs, RATES)
  {
    Select(masks, which, RATES)
  }

  lemma {:induction false} SelectSkip(masks: seq<Mask>, which: Which, n: nat, m: nat)
    requires |masks| == GROUPS && n <= m <= RATES && forall i :: n <= i < m ==> !Picked(masks, which, i)
    ensures Select(masks, which, m) == Select(masks, which, n)
    decreases m
  {
    if n < m { SelectSkip(masks, which, n, m - 1); }
  }

  /** The station's new rate list: best MCS rates, with the best CCK rates merged in if
      their head is faster. */
  ghost function BestRates(k: seq<Key>, masks: seq<Mask>): (r: seq<nat>)
    requires |masks| == GROUPS && |k| == RATES
    ensures Within(k, r)
  {
    Merge(k, TopList(k, SelectAll(masks, Mcs)), TopList(k, SelectAll(masks, Cck)))
  }

  lemma GroupListEntries(k: seq<Key>, masks: seq<Mask>, n: nat)
    requires |masks| == GROUPS && |k| == RATES && 0 < n <= RATES
    ensures forall j :: 0 <= j < DEPTH ==> TopList(k, Select(masks, All, n))[j] < n
  {
    var xs := Select(masks, All, n);
    var r := TopList(k, xs);
    TopListEntries(k, xs);
    SelectMembers(masks, All, n);
    forall j | 0 <= j < DEPTH ensures r[j] < n { assert r[j] in r; }
  }

  /** The list of group g, which by construction covers all groups up to g. */
  ghost function GroupList(k: seq<Key>, masks: seq<Mask>, g: nat): (r: seq<nat>)
    requires |masks| == GROUPS && |k| == RATES && g < GROUPS
    ensures Within(k, r)
    ensures forall j :: 0 <= j < DEPTH ==> Group(r[j]) <= g
  {
    var n := SLOTS * g + SLOTS;
    var r := TopList(k, Select(masks, All, n));
    GroupListEntries(k, masks, n);
    r
  }

  lemma BestRatesEntries(k: seq<Key>, masks: seq<Mask>)
    requires |masks| == GROUPS && |k| == RATES
    ensures forall y :: y in BestRates(k, masks) ==> y == 0 || y in SelectAll(masks, Mcs) || y in SelectAll(masks, Cck)
  {
    var ms, cs := SelectAll(masks, Mcs), SelectAll(masks, Cck);
    TopListEntries(k, ms);
    TopListEntries(k, cs);
    InsertAllEntries(k, TopList(k, ms), TopList(k, cs));
  }

  /** Each list an update builds is the unique top four of the rates it scanned. */
  lemma ScannedListIsTop(k: seq<Key>, masks: seq<Mask>, which: Which, n: nat)
    requires |masks| == GROUPS && |k| == RATES && n <= RATES
    ensures IsTop(k, TopList(k, Select(masks, which, n)), Select(masks, which, n))
    ensures forall i: nat :: i in Select(masks, which, n) <==>
              i < n && i % 10 in masks[i / 10] && (which.Mcs? ==> i / 10 != 4) && (which.Cck? ==> i / 10 == 4)
  {
    SelectMembers(masks, which, n);
    TopListIsTop(k, Select(masks, which, n));
  }

  /** After every update: no supported rate beats the head in throughput, and a CCK rate is
      listed only under a CCK head. */
  lemma BestRatesSound(k: seq<Key>, masks: seq<Mask>)
    requires CapsOk(masks) && |k| == RATES
    ensures var r := BestRates(k, masks);
            && (forall i: RateIndex :: Supp(masks, i) ==> k[i].tp <= k[r[0]].tp)
            && (forall j :: 0 <= j < DEPTH && Group(r[j]) == CCK ==> Group(r[0]) == CCK)
  {
    var ms, cs := SelectAll(masks, Mcs), SelectAll(masks, Cck);
    var r := BestRates(k, masks);
    SelectMembers(masks, Mcs, RATES);
    SelectMembers(masks, Cck, RATES);
    BestRatesEntries(k, masks);
    NoMixing(k, ms, cs);
    forall i: RateIndex | Supp(masks, i) ensures k[i].tp <= k[r[0]].tp {
      assert Picked(masks, Mcs, i) || Picked(masks, Cck, i);
      assert i in ms || i in cs;
    }
    forall j | 0 <= j < DEPTH && Group(r[j]) == CCK ensures Group(r[0]) == CCK {
      assert r[j] in r;
      assert r[j] in cs && r[j] !in ms && r[j] != 0;
    }
  }

  ghost function CountGroups(masks: seq<Mask>, n: nat): nat
    requires n <= |masks|
  {
    if n == 0 then 0 else CountGroups(masks, n - 1) + if masks[n - 1] != {} then 1 else 0
  }

  // ----- crediting a status report

  predicate SlotUsed(s: TxSlot, cckRates: seq<nat>)
    requires |cckRates| == 4
  {
    s.idx >= 0 && s.count > 0 && (s.flags.mcs || s.flags.vht || s.idx in cckRates)
  }

  /** Every slot the driver will credit names a rate inside the table. */
  ghost predicate Creditable(slots: seq<TxSlot>, masks: seq<Mask>, cckRates: seq<nat>) {
    && |slots| == 4 && |masks| == GROUPS && |cckRates| == 4
    && (slots[0].idx >= 0 || Unflagged(slots[0])) && Decode(slots[0], masks, cckRates) < RATES
    && forall j :: 1 <= j < 4 && SlotUsed(slots[j], cckRates) ==> Decode(slots[j], masks, cckRates) < RATES
  }

  /** A report that credits successes to its first slot has tries there, unless that slot is
      unused and refers to no rate. */
  predicate Backed(slots: seq<TxSlot>, masks: seq<Mask>, cckRates: seq<nat>, acked: nat)
    requires |slots| == 4 && |masks| == GROUPS && |cckRates| == 4
    requires (slots[0].idx >= 0 || Unflagged(slots[0])) && Decode(slots[0], masks, cckRates) < RATES
  {
    slots[0].count >= 1 || acked == 0 || SlotUsed(slots[1], cckRates) || !Exists(Decode(slots[0], masks, cckRates))
  }

  /** Credits from slot i on: each tried rate gets its attempts, the last one the successes. */
  ghost function Credited(t: Table, slots: seq<TxSlot>, masks: seq<Mask>, cckRates: seq<nat>, len: nat, acked: nat,
                          i: nat): (t': Table)
    requires Creditable(slots, masks, cckRates) && |t| == RATES && i <= 3
    requires i < 3 ==> i == 0 || SlotUsed(slots[i], cckRates)
    ensures |t'| == RATES
    decreases 3 - i
  {
    if i == 3 then t
    else
      var last := !SlotUsed(slots[i + 1], cckRates);
      var k := Decode(slots[i], masks, cckRates);
      var t1 := t[k := Credit(t[k], slots[i].count * len, if last then acked else 0)];
      if last then t1 else Credited(t1, slots, masks, cckRates, len, acked, i + 1)
  }

  lemma {:induction false} CreditedKeepsOk(t: Table, slots: seq<TxSlot>, masks: seq<Mask>, cckRates: seq<nat>,
                                           len: nat, acked: nat, i: nat, l: Retransmit.Limits)
    requires Creditable(slots, masks, cckRates) && TableOk(t, masks, l) && i <= 3
    requires i < 3 ==> i == 0 || SlotUsed(slots[i], cckRates)
    requires acked <= len && (i == 0 ==> Backed(slots, masks, cckRates, acked))
    ensures TableOk(Credited(t, slots, masks, cckRates, len, acked, i), masks, l)
    decreases 3 - i
  {
    hide Decode, CapsOk;
    if i < 3 {
      var last := !SlotUsed(slots[i + 1], cckRates);
      var k := Decode(slots[i], masks, cckRates);
      assert RateOk(t[k], k, masks, l);
      if slots[i].count >= 1 { MulMono(1, slots[i].count, len); }
      var t1 := t[k := Credit(t[k], slots[i].count * len, if last then acked else 0)];
      if !last { CreditedKeepsOk(t1, slots, masks, cckRates, len, acked, i + 1, l); }
    }
  }

  lemma {:induction false} CreditedKeepsHistory(t: Table, slots: seq<TxSlot>, masks: seq<Mask>, cckRates: seq<nat>,
                                                len: nat, acked: nat, i: nat)
    requires Creditable(slots, masks, cckRates) && |t| == RATES && i <= 3
    requires i < 3 ==> i == 0 || SlotUsed(slots[i], cckRates)
    ensures var t' := Credited(t, slots, masks, cckRates, len, acked, i);
            forall j :: 0 <= j < RATES ==>
              t'[j] == t[j].(attempts := t'[j].attempts, success := t'[j].success)
    decreases 3 - i
  {
    if i < 3 {
      var last := !SlotUsed(slots[i + 1], cckRates);
      var k := Decode(slots[i], masks, cckRates);
      var t1 := t[k := Credit(t[k], slots[i].count * len, if last then acked else 0)];
      if !last { CreditedKeepsHistory(t1, slots, masks, cckRates, len, acked, i + 1); }
    }
  }

  /** Tries that a report books for rate k: those of its first slot, and of the second and third
      slot as long as they and the slots before them are in use. */
  ghost function TriesOf(slots: seq<TxSlot>, masks: seq<Mask>, cckRates: seq<nat>, k: nat): nat
    requires Creditable(slots, masks, cckRates)
  {
    var two := SlotUsed(slots[1], cckRates);
    var three := two && SlotUsed(slots[2], cckRates);
    (if Decode(slots[0], masks, cckRates) == k then slots[0].count else 0)
     + (if two && Decode(slots[1], masks, cckRates) == k then slots[1].count else 0)
     + (if three && Decode(slots[2], masks, cckRates) == k then slots[2].count else 0)
  }

  /** Rate k took the frame: its slot is the last one in use, and the fourth slot is not. */
  predicate TookIt(slots: seq<TxSlot>, masks: seq<Mask>, cckRates: seq<nat>, k: nat)
    requires Creditable(slots, masks, cckRates)
  {
    if !SlotUsed(slots[1], cckRates) then Decode(slots[0], masks, cckRates) == k
    else if !SlotUsed(slots[2], cckRates) then Decode(slots[1], masks, cckRates) == k
    else !SlotUsed(slots[3], cckRates) && Decode(slots[2], masks, cckRates) == k
  }

  /** What a report makes of the record of rate k: attempts and successes grow, nothing else
      changes. */
  ghost function Booked(r: RateStats, k: nat, slots: seq<TxSlot>, masks: seq<Mask>, cckRates: seq<nat>, len: nat,
                        acked: nat): RateStats
    requires Creditable(slots, masks, cckRates)
  {
    r.(attempts := r.attempts + TriesOf(slots, masks, cckRates, k) * len,
       success := r.success + if TookIt(slots, masks, cckRates, k) then acked else 0)
  }

  lemma CreditedBooks(t: Table, slots: seq<TxSlot>, masks: seq<Mask>, cckRates: seq<nat>, len: nat, acked: nat)
    requires Creditable(slots, masks, cckRates) && |t| == RATES
    ensures forall k :: 0 <= k < RATES ==> Credited(t, slots, masks, cckRates, len, acked, 0)[k] ==
                                           Booked(t[k], k, slots, masks, cckRates, len, acked)
  {
    hide Decode, SlotUsed, CapsOk;
    var a, b, c := slots[0].count, slots[1].count, slots[2].count;
    Distribute(a, b, len);
    Distribute(a, c, len);
    Distribute(b, c, len);
    Distribute(a + b, c, len);
  }

  function Attempts(t: Table): nat { if t == [] then 0 else t[0].attempts + Attempts(t[1..]) }

  function Successes(t: Table): nat { if t == [] then 0 else t[0].success + Successes(t[1..]) }

  lemma {:induction false} SumAfterCredit(t: Table, k: nat, tries: nat, acked: nat)
    requires k < |t|
    ensures Attempts(t[k := Credit(t[k], tries, acked)]) == Attempts(t) + tries
    ensures Successes(t[k := Credit(t[k], tries, acked)]) == Successes(t) + acked
  {
    var t' := t[k := Credit(t[k], tries, acked)];
    if k == 0 {
      assert t'[1..] == t[1..];
    } else {
      assert t'[1..] == t[1..][k - 1 := Credit(t[k], tries, acked)];
      SumAfterCredit(t[1..], k - 1, tries, acked);
    }
  }

  /** Tries a report adds up to. */
  ghost function Tries(slots: seq<TxSlot>, cckRates: seq<nat>, i: nat): nat
    requires |slots| == 4 && |cckRates| == 4 && i <= 3
    decreases 3 - i
  {
    if i == 3 then 0
    else slots[i].count + if SlotUsed(slots[i + 1], cckRates) then Tries(slots, cckRates, i + 1) else 0
  }

  /** All slots after i are in use, so no slot counts as the last one. */
  ghost predicate NoLast(slots: seq<TxSlot>, cckRates: seq<nat>, i: nat)
    requires |slots| == 4 && |cckRates| == 4 && i <= 3
    decreases 3 - i
  {
    i == 3 || (SlotUsed(slots[i + 1], cckRates) && NoLast(slots, cckRates, i + 1))
  }

  /** Conservation: a report adds exactly its tries, and its acknowledged frames exactly
      once unless all four slots are in use, when they are dropped. */
  lemma {:induction false} CreditsConserved(t: Table, slots: seq<TxSlot>, masks: seq<Mask>, cckRates: seq<nat>,
                                            len: nat, acked: nat, i: nat)
    requires Creditable(slots, masks, cckRates) && |t| == RATES && i <= 3
    requires i < 3 ==> i == 0 || SlotUsed(slots[i], cckRates)
    ensures var t' := Credited(t, slots, masks, cckRates, len, acked, i);
            && Attempts(t') == Attempts(t) + Tries(slots, cckRates, i) * len
            && Successes(t') == Successes(t) + if NoLast(slots, cckRates, i) then 0 else acked
    decreases 3 - i
  {
    hide Decode;
    if i < 3 {
      var last := !SlotUsed(slots[i + 1], cckRates);
      var k := Decode(slots[i], masks, cckRates);
      var n := slots[i].count * len;
      SumAfterCredit(t, k, n, if last then acked else 0);
      if !last {
        CreditsConserved(t[k := Credit(t[k], n, 0)], slots, masks, cckRates, len, acked, i + 1);
        Distribute(slots[i].count, Tries(slots, cckRates, i + 1), len);
      }
    }
  }

  lemma Distribute(a: nat, b: nat, c: nat)
    ensures (a + b) * c == a * c + b * c
  {
  }
}
