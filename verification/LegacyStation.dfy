/** The legacy controller of one station: a compacted array of the supported rates, its
    sampling table, the sampling budget and the retry chain. */
module LegacyStation {
  import opened FixedPoint
  import opened FrameDuration
  import opened RateStatistics
  import Retransmit
  import ST = SampleTable
  import LB = LegacyBudget
  import LR = LegacyRuns
  import LT = LegacyRetries

  const NINETYFIVE_PERCENT: int := 3891
  const DEPTH: nat := 4

  datatype BitRate = BitRate(bitrate: nat, erp: bool)

  /** adjusted: tries currently given to the rate; the counts for other protections are in
      retryCts and in the statistics. */
  datatype Rate = Rate(rix: int, perfectTxTime: nat, ackTime: nat, sampleLimit: int, retryCts: nat, adjusted: nat,
                       stats: RateStats)

  datatype Slot = Slot(idx: int, count: nat)

  /** One stage of the published retry chain. */
  datatype Stage = Stage(idx: int, count: nat, countCts: nat, countRts: nat)

  // ----- compaction

  /** Supported band indices below n, ascending. */
  ghost function Compact(support: seq<bool>, n: nat): (c: seq<nat>)
    requires n <= |support|
    ensures |c| <= n
  {
    if n == 0 then [] else Compact(support, n - 1) + if support[n - 1] then [n - 1] else []
  }

  lemma {:induction false} CompactIs(support: seq<bool>, n: nat)
    requires n <= |support|
    ensures forall i :: 0 <= i < |Compact(support, n)| ==>
              i <= Compact(support, n)[i] < n && support[Compact(support, n)[i]]
    ensures forall i, j :: 0 <= i < j < |Compact(support, n)| ==> Compact(support, n)[i] < Compact(support, n)[j]
    ensures forall x :: 0 <= x < n && support[x] ==> x in Compact(support, n)
  {
    if n > 0 { CompactIs(support, n - 1); }
  }

  /** The rix column of the rate array: the compacted indices, then -1. */
  ghost predicate RixOk(r: seq<Rate>, support: seq<bool>, nRates: nat) {
    && |r| == |support| && nRates == |Compact(support, |support|)| <= |r|
    && forall i :: 0 <= i < |r| ==> r[i].rix == if i < nRates then Compact(support, |support|)[i] else -1
  }

  /** Local index of a band index, searched downwards from it; -1 if there is none. */
  method RixToNdx(r: seq<Rate>, rix: nat, ghost support: seq<bool>, ghost nRates: nat) returns (i: int)
    requires rix < |r| && RixOk(r, support, nRates)
    ensures i == NdxOf(r, rix, rix)
    ensures support[rix] ==> 0 <= i < nRates && r[i].rix == rix
    ensures support[rix] ==> forall k :: 0 <= k < |r| && r[k].rix == rix ==> k == i
    ensures !support[rix] ==> i == -1
  {
    i := rix;
    while i >= 0 && r[i].rix != rix
      invariant -1 <= i <= rix
      invariant NdxOf(r, rix, rix) == NdxOf(r, rix, i)
    {
      i := i - 1;
    }
    NdxOfCompact(r, rix, support, nRates);
  }

  ghost function NdxOf(r: seq<Rate>, rix: nat, i: int): (k: int)
    requires -1 <= i < |r|
    ensures -1 <= k <= i && (k >= 0 ==> r[k].rix == rix)
    ensures forall j :: k < j <= i ==> r[j].rix != rix
    decreases i + 1
  {
    if i < 0 || r[i].rix == rix then i else NdxOf(r, rix, i - 1)
  }

  /** Round trip of the compaction: every supported band index is found at its one place,
      every unsupported one is not found. */
  lemma NdxOfCompact(r: seq<Rate>, rix: nat, support: seq<bool>, nRates: nat)
    requires rix < |r| && RixOk(r, support, nRates)
    ensures var k := NdxOf(r, rix, rix);
            && (support[rix] ==> 0 <= k < nRates && r[k].rix == rix)
            && (support[rix] ==> forall j :: 0 <= j < |r| && r[j].rix == rix ==> j == k)
            && (!support[rix] ==> k == -1)
  {
    var c := Compact(support, |support|);
    CompactIs(support, |support|);
    if support[rix] {
      assert rix in c;
      var i :| 0 <= i < |c| && c[i] == rix;
      assert r[i].rix == rix && i <= rix;
    }
  }

  // ----- status reports

  /** Credits from report slot i on. Slots naming unsupported rates are skipped; the slot
      before the terminator takes the success, and a full chain takes none. */
  ghost function Credited(r: seq<Rate>, slots: seq<Slot>, acked: nat, i: nat): (r': seq<Rate>)
    requires |slots| == 4 && i <= 4 && forall j :: 0 <= j < 4 ==> slots[j].idx < |r|
    ensures |r'| == |r|
    decreases 4 - i
  {
    if i == 4 || slots[i].idx < 0 then r
    else
      var k := NdxOf(r, slots[i].idx, slots[i].idx);
      var credit := if i != 3 && slots[i + 1].idx < 0 then acked else 0;
      Credited(if k < 0 then r else CreditAt(r, k, slots[i].count, credit), slots, acked, i + 1)
  }

  function CreditAt(r: seq<Rate>, k: nat, tries: nat, acked: nat): seq<Rate>
    requires k < |r|
  {
    r[k := r[k].(stats := Credit(r[k].stats, tries, acked))]
  }

  ghost predicate RatesOk(r: seq<Rate>) { forall i :: 0 <= i < |r| ==> Sane(r[i].stats) }

  lemma {:induction false} CreditedOk(r: seq<Rate>, slots: seq<Slot>, acked: nat, i: nat, support: seq<bool>,
                                      nRates: nat)
    requires |slots| == 4 && i <= 4
    requires forall j :: 0 <= j < 4 ==> slots[j].idx < |r| && (slots[j].idx >= 0 ==> slots[j].count >= 1)
    requires RatesOk(r) && RixOk(r, support, nRates) && acked <= 1
    ensures RatesOk(Credited(r, slots, acked, i)) && RixOk(Credited(r, slots, acked, i), support, nRates)
    decreases 4 - i
  {
    if i < 4 && slots[i].idx >= 0 {
      var k := NdxOf(r, slots[i].idx, slots[i].idx);
      var r1 := if k < 0 then r
          else CreditAt(r, k, slots[i].count, if i != 3 && slots[i + 1].idx < 0 then acked else 0);
      CreditedOk(r1, slots, acked, i + 1, support, nRates);
    }
  }

  /** All slots up to j are in use. */
  ghost predicate InUse(slots: seq<Slot>, j: nat)
    requires j < |slots|
  {
    forall i :: 0 <= i <= j ==> slots[i].idx >= 0
  }

  /** Tries that the slots from i on, up to the first unused one, report for band index rix. */
  ghost function TriesOf(slots: seq<Slot>, rix: int, i: nat): nat
    requires i <= |slots|
    decreases |slots| - i
  {
    if i == |slots| || slots[i].idx < 0 then 0
    else TriesOf(slots, rix, i + 1) + if slots[i].idx == rix then slots[i].count else 0
  }

  /** The last slot in use names rix, and it is not the fourth. */
  ghost predicate TookIt(slots: seq<Slot>, rix: int)
    requires |slots| == 4
  {
    exists j :: 0 <= j < 3 && InUse(slots, j) && slots[j + 1].idx < 0 && slots[j].idx == rix
  }

  /** What a report makes of one entry: only its attempts and successes grow. */
  ghost function Booked(x: Rate, slots: seq<Slot>, acked: nat): Rate
    requires |slots| == 4
  {
    x.(stats := x.stats.(attempts := x.stats.attempts + TriesOf(slots, x.rix, 0),
                         success := x.stats.success + if TookIt(slots, x.rix) then acked else 0))
  }

  /** Entry k is found for a band index exactly if it carries it. */
  lemma FoundIff(r: seq<Rate>, rix: nat, k: nat, support: seq<bool>, nRates: nat)
    requires rix < |r| && k < |r| && RixOk(r, support, nRates)
    ensures NdxOf(r, rix, rix) == k <==> r[k].rix == rix
  {
    NdxOfCompact(r, rix, support, nRates);
    CompactIs(support, |support|);
  }

  /** Credits from slot i on, entry by entry; all slots before i are in use. */
  lemma {:induction false} CreditedFrom(r: seq<Rate>, slots: seq<Slot>, acked: nat, i: nat, k: nat,
                                        support: seq<bool>, nRates: nat)
    requires |slots| == 4 && i <= 4 && (forall j :: 0 <= j < 4 ==> slots[j].idx < |r|) && k < |r|
    requires RixOk(r, support, nRates) && forall j :: 0 <= j < i ==> slots[j].idx >= 0
    ensures var x, s := Credited(r, slots, acked, i)[k], r[k].stats;
            x == r[k].(stats := s.(attempts := s.attempts + TriesOf(slots, r[k].rix, i),
                                   success := s.success + if LateTook(slots, r[k].rix, i) then acked else 0))
    decreases 4 - i
  {
    hide Compact, NdxOf, LateTook;
    if i < 4 && slots[i].idx >= 0 {
      var n := NdxOf(r, slots[i].idx, slots[i].idx);
      var credit := if i != 3 && slots[i + 1].idx < 0 then acked else 0;
      var r1 := if n < 0 then r else CreditAt(r, n, slots[i].count, credit);
      FoundIff(r, slots[i].idx, k, support, nRates);
      LateTookStep(slots, r[k].rix, i);
      CreditedFrom(r1, slots, acked, i + 1, k, support, nRates);
    } else {
      LateTookEnd(slots, r[k].rix, i);
    }
  }

  /** The same as TookIt for the slots from i on. */
  ghost predicate LateTook(slots: seq<Slot>, rix: int, i: nat)
    requires |slots| == 4
  {
    exists j :: i <= j < 3 && InUse(slots, j) && slots[j + 1].idx < 0 && slots[j].idx == rix
  }

  lemma LateTookStep(slots: seq<Slot>, rix: int, i: nat)
    requires |slots| == 4 && i < 4 && InUse(slots, i)
    ensures LateTook(slots, rix, i) <==>
            (i < 3 && slots[i + 1].idx < 0 && slots[i].idx == rix) || LateTook(slots, rix, i + 1)
    ensures i < 3 && slots[i + 1].idx < 0 ==> !LateTook(slots, rix, i + 1)
  {
  }

  lemma LateTookEnd(slots: seq<Slot>, rix: int, i: nat)
    requires |slots| == 4 && i <= 4 && (i < 4 ==> slots[i].idx < 0)
    ensures !LateTook(slots, rix, i)
  {
  }

  /** A report credits exactly the rates it names: each entry gets the tries of the slots that
      carry its band index, the last slot's entry the success. */
  lemma CreditedBooks(r: seq<Rate>, slots: seq<Slot>, acked: nat, support: seq<bool>, nRates: nat)
    requires |slots| == 4 && (forall j :: 0 <= j < 4 ==> slots[j].idx < |r|) && RixOk(r, support, nRates)
    ensures forall k :: 0 <= k < |r| ==> Credited(r, slots, acked, 0)[k] == Booked(r[k], slots, acked)
  {
    forall k | 0 <= k < |r| ensures Credited(r, slots, acked, 0)[k] == Booked(r[k], slots, acked) {
      CreditedFrom(r, slots, acked, 0, k, support, nRates);
    }
  }

  // ----- throughput chain

  /** c is the fastest of the first n rates, the highest index among equals. */
  ghost predicate LastBest(tp: seq<nat>, n: nat, c: nat) {
    && c < n <= |tp|
    && forall i :: 0 <= i < n ==> tp[i] <= tp[c] && (tp[i] == tp[c] ==> i <= c)
  }

  /** Each stage is the best among the rates strictly below the stage before. */
  ghost predicate ChainOf(tp: seq<nat>, chain: seq<nat>) {
    && |chain| == DEPTH
    && (if |tp| == 0 then chain[0] == 0 else LastBest(tp, |tp|, chain[0]))
    && forall j :: 1 <= j < DEPTH ==> if chain[j - 1] == 0 then chain[j] == 0 else LastBest(tp, chain[j - 1], chain[j])
  }

  /** The chain falls in index until it reaches rate 0, never rises in throughput, and its
      head beats every rate. */
  lemma ChainFalls(tp: seq<nat>, chain: seq<nat>)
    requires ChainOf(tp, chain) && |tp| > 0
    ensures forall j :: 1 <= j < DEPTH ==> chain[j] < chain[j - 1] || chain[j] == chain[j - 1] == 0
    ensures forall j :: 0 <= j < DEPTH ==> chain[j] < |tp|
    ensures forall j :: 1 <= j < DEPTH ==> tp[chain[j]] <= tp[chain[j - 1]]
    ensures forall i :: 0 <= i < |tp| ==> tp[i] <= tp[chain[0]]
  {
    assert chain[1] == chain[0] == 0 || LastBest(tp, chain[0], chain[1]);
    assert chain[2] == chain[1] == 0 || LastBest(tp, chain[1], chain[2]);
    assert chain[3] == chain[2] == 0 || LastBest(tp, chain[2], chain[3]);
  }

  /** Every stage is a rate, or the unused first entry if there is none. */
  lemma ChainBounded(tp: seq<nat>, chain: seq<nat>)
    requires ChainOf(tp, chain)
    ensures forall j :: 0 <= j < DEPTH ==> chain[j] < LR.Rows(|tp|)
  {
    if |tp| > 0 { ChainFalls(tp, chain); }
    assert chain[0] == 0 ==> chain[1] == 0;
    assert chain[1] == 0 ==> chain[2] == 0;
    assert chain[2] == 0 ==> chain[3] == 0;
  }

  /** A chain is determined by the throughputs. */
  lemma ChainUnique(tp: seq<nat>, a: seq<nat>, b: seq<nat>)
    requires ChainOf(tp, a) && ChainOf(tp, b)
    ensures a == b
  {
    if |tp| > 0 { StageUnique(tp, |tp|, a[0], b[0]); }
    for j := 1 to DEPTH
      invariant forall k :: 0 <= k < j ==> a[k] == b[k]
    {
      assert a[j - 1] == b[j - 1];
      if a[j - 1] != 0 { StageUnique(tp, a[j - 1], a[j], b[j]); }
    }
  }

  lemma StageUnique(tp: seq<nat>, n: nat, c: nat, c': nat)
    requires LastBest(tp, n, c) && LastBest(tp, n, c')
    ensures c == c'
  {
    assert tp[c] == tp[c'];
  }

  /** Nested selection loops over the throughputs. */
  method RankRates(tp: seq<nat>) returns (chain: seq<nat>)
    ensures ChainOf(tp, chain)
  {
    chain := [0, 0, 0, 0];
    for j := 0 to DEPTH
      invariant |chain| == DEPTH && forall k :: j <= k < DEPTH ==> chain[k] == 0
      invariant j > 0 ==> if |tp| == 0 then chain[0] == 0 else LastBest(tp, |tp|, chain[0])
      invariant forall k :: 1 <= k < j ==>
                if chain[k - 1] == 0 then chain[k] == 0 else LastBest(tp, chain[k - 1], chain[k])
      invariant forall k :: 0 <= k < j ==> chain[k] < |tp| || chain[k] == 0
    {
      ghost var before := chain;
      var top := if j == 0 then |tp| else chain[j - 1];
      for i := 0 to |tp|
        invariant |chain| == DEPTH && chain == before[j := chain[j]] && (chain[j] < |tp| || chain[j] == 0)
        invariant if top == 0 || i == 0 then chain[j] == 0 else LastBest(tp, if i < top then i else top, chain[j])
      {
        if tp[chain[j]] <= tp[i] {
          if j == 0 {
            chain := chain[j := i];
          } else if chain[j - 1] > i {
            chain := chain[j := i];
          }
        }
      }
    }
  }

  // ----- the station on values

  /** A rate that hardly works or hardly fails is probed and retried less. */
  function Refreshed(x: Rate): Rate {
    var st := CalcRateStats(x.stats);
    var extreme := st.probEwma > NINETYFIVE_PERCENT || st.probEwma < TEN_PERCENT;
    var tp := if st.probEwma >= 0 then LegacyTp(x.perfectTxTime, st.probEwma) else 0;
    x.(stats := st.(tpAvg := tp), sampleLimit := if extreme then 100 else -1,
       adjusted := LT.Adjusted(extreme, st.retryCount))
  }

  /** What an update makes of one entry x, in plain numbers: its window is taken in, and a rate
      above 95% or below 10% (3891 and 409 of 4096) may be probed directly 100 times more, with
      half its tries but no more than two, and two instead of none; any other rate has no limit
      and all its tries. */
  ghost predicate Renewed(x: Rate, y: Rate) {
    var extreme := y.stats.probEwma > 3891 || y.stats.probEwma < 409;
    var tries := x.stats.retryCount;
    && TakesIn(x.stats, y.stats)
    && y == x.(stats := y.stats, sampleLimit := if extreme then 100 else -1, adjusted := y.adjusted)
    && y.adjusted == if tries == 0 then 2 else if !extreme then tries else if 2 <= tries <= 3 then 1 else 2
  }

  lemma RefreshedRenews(x: Rate)
    requires Sane(x.stats)
    ensures Renewed(x, Refreshed(x))
  {
    CalcTakesIn(x.stats);
    hide TakesIn, LegacyTp;
  }

  ghost function TimesOf(r: seq<Rate>): (t: seq<nat>)
    ensures |t| == |r|
  {
    seq(|r|, i requires 0 <= i < |r| => r[i].perfectTxTime)
  }

  ghost function LimitsOf(r: seq<Rate>): (t: seq<int>)
    ensures |t| == |r|
  {
    seq(|r|, i requires 0 <= i < |r| => r[i].sampleLimit)
  }

  ghost function Throughputs(r: seq<Rate>, n: nat): (tp: seq<nat>)
    requires n <= |r| && RatesOk(r)
    ensures |tp| == n
  {
    seq(n, i requires 0 <= i < n => assert Sane(r[i].stats); LegacyTp(r[i].perfectTxTime, r[i].stats.probEwma))
  }

  /** Times of a rate of the band; low is the slowest rate the station supports. */
  function RateTimes(b: BitRate, low: BitRate, band5: bool): LT.Times
    requires b.bitrate > 0 && low.bitrate > 0
  {
    LT.Times(FrameTime(band5 || b.erp, 1200, b.bitrate, true, 0), FrameTime(band5 || b.erp, 10, b.bitrate, true, 0),
             FrameTime(band5 || low.erp, 10, low.bitrate, true, 0))
  }

  /** A supported rate as set up: its air times, no statistics, no limit, and the retry counts
      its times allow. */
  ghost predicate Built(x: Rate, i: nat, b: BitRate, low: BitRate, band5: bool, l: Retransmit.Limits)
    requires b.bitrate > 0 && low.bitrate > 0
  {
    var ofdm := band5 || b.erp;
    var t := LT.Times(FrameTime(ofdm, 1200, b.bitrate, true, 0), FrameTime(ofdm, 10, b.bitrate, true, 0),
                      FrameTime(band5 || low.erp, 10, low.bitrate, true, 0));
    var plain, rts := x.stats.retryCount, x.stats.retryCountRtscts;
    && x == Rate(i, t.perfect, t.ack, -1, x.retryCts, plain, FRESH.(retryCount := plain, retryCountRtscts := rts))
    && LT.PlainFit(l, t, plain)
    && LT.ProtectedFit(l, t, 2, LT.Passes(l, plain), rts)
    && if b.erp then LT.ProtectedFit(l, t, 1, LT.Passes(l, plain), x.retryCts) else x.retryCts == plain
  }

  const NO_STAGE: Stage := Stage(0, 0, 0, 0)

  const UNUSED: Rate := Rate(-1, 0, 0, 0, 0, 0, FRESH)

  method BuildRate(i: nat, b: BitRate, low: BitRate, band5: bool, l: Retransmit.Limits) returns (x: Rate)
    requires b.bitrate > 0 && low.bitrate > 0
    ensures Built(x, i, b, low, band5, l)
  {
    var t := RateTimes(b, low, band5);
    var c := LT.CountTries(l, t, b.erp);
    x := Rate(i, t.perfect, t.ack, -1, c.cts, c.plain, FRESH.(retryCount := c.plain, retryCountRtscts := c.rts));
  }

  /** i is the lowest supported band index, 0 if there is none. */
  ghost predicate IsLowest(support: seq<bool>, i: nat) {
    if i < |support| && support[i] then forall k :: 0 <= k < i ==> !support[k]
    else i == 0 && forall k :: 0 <= k < |support| ==> !support[k]
  }

  method LowestRix(support: seq<bool>) returns (i: nat)
    ensures IsLowest(support, i) && (i < |support| || i == 0)
  {
    for k := 0 to |support|
      invariant forall j :: 0 <= j < k ==> !support[j]
    {
      if support[k] {
        return k;
      }
    }
    return 0;
  }

  /** The supported rates in front, unused entries behind them. */
  ghost predicate RatesBuilt(r: seq<Rate>, n: nat, bands: seq<BitRate>, low: BitRate, band5: bool, l: Retransmit.Limits)
    requires low.bitrate > 0 && forall i :: 0 <= i < |bands| ==> bands[i].bitrate > 0
  {
    && (forall i :: 0 <= i < n <= |r| ==>
          0 <= r[i].rix < |bands| && Built(r[i], r[i].rix, bands[r[i].rix], low, band5, l))
    && (forall i :: 0 <= n <= i < |r| ==> r[i] == UNUSED)
  }

  /** Collect the supported rates at the front of the array and mark the rest unused. */
  method BuildRates(bands: seq<BitRate>, support: seq<bool>, low: BitRate, band5: bool, l: Retransmit.Limits)
    returns (r: seq<Rate>, n: nat)
    requires |bands| == |support| && low.bitrate > 0 && forall i :: 0 <= i < |bands| ==> bands[i].bitrate > 0
    ensures RixOk(r, support, n) && RatesOk(r)
    ensures RatesBuilt(r, n, bands, low, band5, l)
  {
    hide LT.PlainFit, LT.ProtectedFit, RateTimes;
    r := [];
    for i := 0 to |bands|
      invariant |r| == |Compact(support, i)| && RatesOk(r)
      invariant forall k :: 0 <= k < |r| ==> 0 <= r[k].rix < i && r[k].rix == Compact(support, i)[k]
      invariant forall k :: 0 <= k < |r| ==> Built(r[k], r[k].rix, bands[r[k].rix], low, band5, l)
    {
      if support[i] {
        var x := BuildRate(i, bands[i], low, band5, l);
        r := r + [x];
      }
    }
    n := |r|;
    ghost var front := r;
    while |r| < |bands|
      invariant n <= |r| <= |bands| && r[..n] == front && RatesOk(r)
      invariant forall k :: n <= k < |r| ==> r[k] == UNUSED
    {
      r := r + [UNUSED];
    }
    assert forall k :: 0 <= k < n ==> r[k] == r[..n][k];
  }

  /** The first row of the table always refers to an entry of the array. */
  lemma RowsFit(r: seq<Rate>, support: seq<bool>, n: nat)
    requires RixOk(r, support, n) && |r| >= 1
    ensures LR.Rows(n) <= |r| == |support|
  {
  }

  lemma BuiltLength(r: seq<Rate>, support: seq<bool>, n: nat)
    requires RixOk(r, support, n)
    ensures |r| == |support|
  {
  }

  lemma ZeroRow(t: seq<int>)
    requires |t| == ST.COLUMNS && forall k :: 0 <= k < |t| ==> t[k] == 0
    ensures LR.TableOk(t, 1)
  {
    forall col | 0 <= col < ST.COLUMNS ensures ST.IsPermutation(ST.Column(t, ST.Strided, 1, col)) {
      ST.ColumnAt(t, ST.Strided, 1, col, 0);
      assert ST.Column(t, ST.Strided, 1, col) == [0];
    }
  }

  /** The sampling table of a newly set up station; without rates it stays zeroed. */
  method NewTable(n: nat, rnds: seq<seq<nat>>) returns (table: seq<int>)
    requires n <= 255 && |rnds| == ST.COLUMNS && forall col :: 0 <= col < ST.COLUMNS ==> |rnds[col]| == 8
    ensures LR.TableOk(table, LR.Rows(n))
  {
    var t := new int[LR.Rows(n) * ST.COLUMNS](_ => 0);
    if n > 0 {
      ST.InitSampleTable(t, ST.Strided, n, rnds);
    } else {
      ZeroRow(t[..]);
    }
    table := t[..];
  }

  /** Recalculation keeps the air times. */
  lemma RefreshedKeepsTimes(r: seq<Rate>, r': seq<Rate>, n: nat)
    requires |r| == |r'| && forall i :: 0 <= i < |r| ==> r'[i] == if i < n then Refreshed(r[i]) else r[i]
    ensures TimesOf(r') == TimesOf(r)
  {
    hide CalcRateStats, LegacyTp, LT.Adjusted;
  }

  function PickOf(r: seq<Rate>, ndx: nat, best: nat): LB.Pick
    requires ndx < |r| && best < |r|
  {
    if r[ndx].perfectTxTime > r[best].perfectTxTime then LB.Later
    else if r[ndx].sampleLimit == 0 then LB.Exhausted
    else LB.Now
  }

  /** A stage names the rate by its band index and allows the tries its protection leaves it. */
  ghost predicate Carries(e: Stage, x: Rate) {
    e.idx == x.rix && e.count == x.adjusted && e.countCts == x.retryCts && e.countRts == x.stats.retryCountRtscts
  }

  function StageOf(x: Rate): Stage { Stage(x.rix, x.adjusted, x.retryCts, x.stats.retryCountRtscts) }

  lemma NewLimits(r: seq<Rate>, n: nat, bands: seq<BitRate>, low: BitRate, band5: bool, l: Retransmit.Limits)
    requires low.bitrate > 0 && (forall i :: 0 <= i < |bands| ==> bands[i].bitrate > 0)
    requires n <= |r| && RatesBuilt(r, n, bands, low, band5, l)
    ensures LimitsOf(r) == seq(|r|, i => if i < n then -1 else 0)
  {
  }

  /** The array after the draw of entry d: only a limited direct probe changes it. */
  function Probed(r: seq<Rate>, d: nat, o: LB.Outcome): (r': seq<Rate>)
    requires d < |r|
    ensures |r'| == |r|
  {
    if o.DirectProbe? && r[d].sampleLimit > 0 then r[d := r[d].(sampleLimit := r[d].sampleLimit - 1)] else r
  }

  lemma ProbedIs(r: seq<Rate>, d: nat, o: LB.Outcome)
    requires d < |r|
    ensures var left := LimitsOf(r);
            && TimesOf(Probed(r, d, o)) == TimesOf(r)
            && LimitsOf(Probed(r, d, o)) == if o.DirectProbe? && left[d] > 0 then left[d := left[d] - 1] else left
    ensures forall i :: 0 <= i < |r| ==> Probed(r, d, o)[i] == r[i].(sampleLimit := Probed(r, d, o)[i].sampleLimit)
  {
  }

  /** The array dictates the pick that a run sees. */
  lemma PickIs(c: LR.Setup, s: LR.State, r: seq<Rate>)
    requires LR.SetupOk(c) && LR.At(c, s) && c.times == TimesOf(r) && s.limits == LimitsOf(r)
    ensures LR.Drawn(c, s) < |r| && s.best < |r| && LR.PickAt(c, s) == PickOf(r, LR.Drawn(c, s), s.best)
  {
    hide LR.TableOk;
  }

  lemma BudgetKept(b: LB.Budget, nRates: nat)
    requires LB.InBudget(b)
    ensures LB.MaySample(b) ==> LB.InBudget(LB.Settle(b, nRates))
    ensures !LB.MaySample(b) ==> LB.InBudget(b.(total := b.total + 1, prev := false))
  {
    LB.StepKeepsBudget(b, nRates, LB.GetRate(LB.Exhausted));
  }

  lemma BudgetStarts()
    ensures LB.InBudget(LB.START)
  {
  }

  lemma PlainBudget(b: LB.Budget, nRates: nat)
    ensures !LB.MaySample(b) ==>
            forall pick :: LB.OnGetRate(b, nRates, pick) == (b.(total := b.total + 1, prev := false), LB.Plain)
    ensures LB.MaySample(b) ==> !b.prev
    ensures forall pick :: !LB.OnGetRate(b, nRates, pick).1.Plain? ==> LB.OnGetRate(b, nRates, pick).0.prev
  {
  }

  class Station {
    const support: seq<bool>
    const nRates: nat
    const table: seq<int>
    const limits: Retransmit.Limits
    const maxRates: nat
    const lowestRix: nat

    var r: seq<Rate>
    var maxTp: seq<nat>
    var chain: seq<Stage>
    var totalPackets: nat
    var samplePackets: nat
    var sampleDeferred: nat
    var prevSample: bool
    var sampleRow: nat
    var sampleColumn: nat

    ghost predicate Valid()
      reads this
    {
      && RixOk(r, support, nRates) && RatesOk(r) && |r| >= 1
      && LR.TableOk(table, LR.Rows(nRates)) && sampleRow < LR.Rows(nRates) && sampleColumn < ST.COLUMNS
      && |maxTp| == DEPTH && (forall j :: 0 <= j < DEPTH ==> maxTp[j] < LR.Rows(nRates))
      && |chain| == DEPTH
      && LB.InBudget(Budget())
    }

    ghost function Budget(): LB.Budget
      reads this
    {
      LB.Budget(totalPackets, samplePackets, sampleDeferred, prevSample)
    }

    /** The station as a run sees it: what frames and reports leave alone, and what they change. */
    ghost function Setup(): (c: LR.Setup)
      requires Valid()
      reads this
      ensures LR.SetupOk(c)
    {
      RowsFit(r, support, nRates);
      LR.Setup(table, nRates, TimesOf(r))
    }

    ghost function State(): (s: LR.State)
      requires Valid()
      reads this
      ensures LR.At(Setup(), s)
    {
      LR.State(Budget(), sampleRow, sampleColumn, LimitsOf(r), maxTp[0])
    }

    /** Set up a station for the supported rates of a band (minstrel_rate_init). Without any
        supported rate the zeroed first row of the table stands for an unused rate. */
    constructor (bands: seq<BitRate>, support: seq<bool>, band5: bool, rnds: seq<seq<nat>>, limits: Retransmit.Limits,
                 maxRates: nat)
      requires 1 <= |bands| == |support| <= 32 && (forall i :: 0 <= i < |bands| ==> bands[i].bitrate > 0)
      requires |rnds| == ST.COLUMNS && forall col :: 0 <= col < ST.COLUMNS ==> |rnds[col]| == 8
      ensures Valid() && this.support == support && this.limits == limits && this.maxRates == maxRates
      ensures StartsFresh() && maxTp == [0, 0, 0, 0] && ChainOk()
      ensures lowestRix < |bands| && IsLowest(support, lowestRix)
      ensures RatesBuilt(r, nRates, bands, bands[lowestRix], band5, limits)
    {
      hide RatesBuilt, ChainOk, StartsFresh, LR.TableOk, RixOk, RatesOk, Built, IsLowest, LB.InBudget;
      var low := LowestRix(support);
      var rs, n := BuildRates(bands, support, bands[low], band5, limits);
      BuiltLength(rs, support, n);
      RowsFit(rs, support, n);
      var t := NewTable(n, rnds);
      this.support, this.limits, this.maxRates, lowestRix := support, limits, maxRates, low;
      r, nRates, table := rs, n, t;
      maxTp := [0, 0, 0, 0];
      chain := [NO_STAGE, NO_STAGE, NO_STAGE, NO_STAGE];
      totalPackets, samplePackets, sampleDeferred, prevSample := 0, 0, 0, false;
      sampleRow, sampleColumn := 0, 0;
      new;
      BudgetStarts();
      UpdateRates();
      BuiltIsFresh(bands, bands[lowestRix], band5);
    }

    lemma BuiltIsFresh(bands: seq<BitRate>, low: BitRate, band5: bool)
      requires low.bitrate > 0 && (forall i :: 0 <= i < |bands| ==> bands[i].bitrate > 0)
      requires Valid() && Budget() == LB.START && sampleRow == sampleColumn == 0 && maxTp[0] == 0
      requires RatesBuilt(r, nRates, bands, low, band5, limits)
      ensures StartsFresh()
    {
      hide RatesBuilt, LimitsOf, TimesOf, LR.TableOk;
      NewLimits(r, nRates, bands, low, band5, limits);
    }

    /** The station stands where every run begins. */
    ghost predicate StartsFresh()
      requires Valid()
      reads this
    {
      State() == LR.Fresh(Setup(), 0)
    }

    // ----- frames

    /** Next entry of the sampling table. */
    method GetNextSample() returns (ndx: nat)
      requires Valid()
      modifies this`sampleRow, this`sampleColumn
      ensures Valid() && ndx == LR.Drawn(Setup(), old(State()))
      ensures sampleRow == LR.NextRow(old(sampleRow), nRates)
      ensures sampleColumn == LR.NextColumn(old(sampleRow), old(sampleColumn), nRates)
    {
      ST.ColumnAt(table, ST.Strided, LR.Rows(nRates), sampleColumn, sampleRow);
      ndx := table[sampleRow * ST.COLUMNS + sampleColumn];
      sampleRow := sampleRow + 1;
      if sampleRow >= nRates {
        sampleRow := 0;
        sampleColumn := sampleColumn + 1;
        if sampleColumn >= ST.COLUMNS {
          sampleColumn := 0;
        }
      }
    }

    /** Count a frame and settle the budget; says whether a probe may follow. */
    method CountFrame() returns (sample: bool)
      requires Valid()
      modifies this`totalPackets, this`samplePackets, this`sampleDeferred, this`prevSample
      ensures sample == LB.MaySample(old(Budget()))
      ensures Budget() == if sample then LB.Settle(old(Budget()), nRates)
              else old(Budget()).(total := old(totalPackets) + 1, prev := false)
      // A probe is due once a tenth of the frames exceeds what was spent, but never twice in a
      // row; at 10000 frames the count restarts, and at most two probes per rate stay due.
      ensures var due := old((totalPackets + 1) / 10 - samplePackets - sampleDeferred / 2);
              && sample == (due >= 0 && !old(prevSample)) && !prevSample
              && if sample && old(totalPackets) >= 9999 then totalPackets == samplePackets == sampleDeferred == 0
                 else && totalPackets == old(totalPackets) + 1 && sampleDeferred == old(sampleDeferred)
                      && totalPackets / 10 - samplePackets - sampleDeferred / 2 ==
                         if sample && due > 2 * nRates then 2 * nRates else due
    {
      totalPackets := totalPackets + 1;
      var delta := totalPackets * LB.SAMPLING_RATIO / 100 - (samplePackets + sampleDeferred / 2);
      var prev := prevSample;
      prevSample := false;
      sample := !(delta < 0 || prev);
      if sample {
        if totalPackets >= 10000 {
          sampleDeferred, samplePackets, totalPackets := 0, 0, 0;
        } else if delta > nRates * 2 {
          samplePackets := samplePackets + (delta - nRates * 2);
        }
      }
    }

    /** Rate decision for one frame: nothing, a deferred probe or a direct one, of the rate at
        the table's position and with the tries its protection leaves. */
    method GetRate(p: LT.Protection) returns (o: LB.Outcome, ndx: nat, tries: nat)
      requires Valid()
      modifies this`totalPackets, this`samplePackets, this`sampleDeferred, this`prevSample, this`sampleRow
      modifies this`sampleColumn, this`r
      ensures Valid() && Setup() == old(Setup()) && (State(), o) == LR.OnFrame(Setup(), old(State()))
      ensures !o.Plain? ==> ndx == LR.Drawn(Setup(), old(State()))
      ensures !o.Plain? ==> !old(prevSample) && prevSample
      ensures !o.Plain? ==> tries == LT.Tries(r[ndx].adjusted, r[ndx].retryCts, r[ndx].stats.retryCountRtscts, p)
      ensures !o.Plain? && p.Unprotected? ==> tries == r[ndx].adjusted
      ensures !o.Plain? && p.CtsOnly? ==> LT.GivenUpTo(r[ndx].adjusted, r[ndx].retryCts, tries)
      ensures !o.Plain? && p.RtsCts? ==> LT.GivenUpTo(r[ndx].adjusted, r[ndx].stats.retryCountRtscts, tries)
      ensures |r| == |old(r)| && forall i :: 0 <= i < |r| ==> r[i] == old(r)[i].(sampleLimit := r[i].sampleLimit)
    {
      hide Compact, LR.TableOk, LB.Settle, LB.MaySample, LB.OnGetRate, PickOf, LimitsOf, TimesOf, Probed;
      hide LT.Tries, LT.GivenUpTo, LB.InBudget, RixOk;
      o, ndx, tries := LB.Plain, 0, 0;
      ghost var before, c, s, r0 := Budget(), Setup(), State(), r;
      BudgetKept(before, nRates);
      PlainBudget(before, nRates);
      PickIs(c, s, r);
      var sample := CountFrame();
      if sample {
        ndx := GetNextSample();
        o := PlaceSample(ndx, before);
        ProbedIs(r0, ndx, o);
        if o != LB.Plain {
          tries := LT.Tries(r[ndx].adjusted, r[ndx].retryCts, r[ndx].stats.retryCountRtscts, p);
          LT.TriesGiven(r[ndx].adjusted, r[ndx].retryCts, r[ndx].stats.retryCountRtscts, p);
        }
      }
    }

    /** Probe the drawn rate in the second stage if it is slower than the best one, else at
        once unless its limit is used up. */
    method PlaceSample(ndx: nat, ghost before: LB.Budget) returns (o: LB.Outcome)
      requires Valid() && ndx < LR.Rows(nRates) && ndx < |r|
      requires LB.MaySample(before) && Budget() == LB.Settle(before, nRates) && LB.InBudget(before)
      modifies this`samplePackets, this`sampleDeferred, this`prevSample, this`r
      ensures Valid() && (Budget(), o) == LB.OnGetRate(before, nRates, PickOf(old(r), ndx, old(maxTp[0])))
      ensures r == Probed(old(r), ndx, o)
    {
      hide Compact, LR.TableOk, LB.Settle, LB.MaySample;
      LB.StepKeepsBudget(before, nRates, LB.GetRate(PickOf(r, ndx, maxTp[0])));
      RowsFit(r, support, nRates);
      o := LB.Plain;
      if r[ndx].perfectTxTime > r[maxTp[0]].perfectTxTime {
        sampleDeferred := sampleDeferred + 1;
        o := LB.DeferredProbe;
      } else {
        if r[ndx].sampleLimit == 0 {
          return;
        }
        samplePackets := samplePackets + 1;
        o := LB.DirectProbe;
        if r[ndx].sampleLimit > 0 {
          r := r[ndx := r[ndx].(sampleLimit := r[ndx].sampleLimit - 1)];
        }
      }
      prevSample := true;
    }

    // ----- statistics

    /** Recalculate all rates; tp are their throughputs. */
    method RefreshRates() returns (tp: seq<nat>)
      requires Valid()
      modifies this`r
      ensures Valid()
      ensures forall i :: 0 <= i < |r| ==> r[i] == if i < nRates then Refreshed(old(r)[i]) else old(r)[i]
      ensures tp == Throughputs(r, nRates)
    {
      hide CalcRateStats, LegacyTp, Compact, LR.TableOk;
      ghost var start := r;
      tp := [];
      for i := 0 to nRates
        invariant |r| == |start| && |tp| == i
        invariant forall k :: 0 <= k < |r| ==> r[k] == if k < i then Refreshed(start[k]) else start[k]
        invariant forall k :: 0 <= k < i ==> r[k].stats.probEwma >= 0
        invariant forall k :: 0 <= k < i ==> tp[k] == LegacyTp(r[k].perfectTxTime, r[k].stats.probEwma)
      {
        RefreshedSane(start[i]);
        r := r[i := Refreshed(r[i])];
        tp := tp + [r[i].stats.tpAvg];
      }
      forall k | 0 <= k < |r| ensures Sane(r[k].stats) && r[k].rix == start[k].rix { RefreshedSane(start[k]); }
      assert tp == Throughputs(r, nRates);
    }

    /** Stages before the last one. */
    function StageCount(): nat { 1 + (if maxRates >= 3 then 1 else 0) + (if maxRates >= 2 then 1 else 0) }

    /** The published chain: the fastest rate, the second and the third best if the hardware
        takes three and two rates, and the lowest supported rate with all tries allowed. */
    ghost predicate ChainOk()
      requires Valid()
      reads this
    {
      RowsFit(r, support, nRates);
      && Carries(chain[0], r[maxTp[0]])
      && (maxRates >= 3 ==> Carries(chain[1], r[maxTp[1]]))
      && (maxRates >= 2 ==> Carries(chain[StageCount() - 1], r[maxTp[2]]))
      && chain[StageCount()] == Stage(lowestRix, limits.maxRetry, limits.maxRetry, limits.maxRetry)
    }

    /** Every stage before the last one names a supported rate, unless there is none. */
    lemma StagesSupported(j: nat)
      requires Valid() && ChainOk() && nRates >= 1 && j < StageCount()
      ensures 0 <= chain[j].idx < |support| && support[chain[j].idx]
    {
      CompactIs(support, |support|);
    }

    method UpdateRates()
      requires Valid()
      modifies this`chain
      ensures Valid() && ChainOk()
    {
      hide Compact, LR.TableOk;
      RowsFit(r, support, nRates);
      chain := chain[0 := StageOf(r[maxTp[0]])];
      var i := 1;
      if maxRates >= 3 {
        chain := chain[i := StageOf(r[maxTp[1]])];
        i := i + 1;
      }
      if maxRates >= 2 {
        chain := chain[i := StageOf(r[maxTp[2]])];
        i := i + 1;
      }
      chain := chain[i := Stage(lowestRix, limits.maxRetry, limits.maxRetry, limits.maxRetry)];
    }

    /** Recalculate all rates, rank them and publish the chain. */
    method UpdateStats()
      requires Valid()
      modifies this`r, this`maxTp, this`chain
      ensures Valid() && ChainOk()
      ensures forall i :: 0 <= i < |r| ==> r[i] == if i < nRates then Refreshed(old(r)[i]) else old(r)[i]
      ensures forall i :: 0 <= i < nRates ==> Renewed(old(r)[i], r[i])
      ensures ChainOf(Throughputs(r, nRates), maxTp)
    {
      hide Refreshed, Compact, LR.TableOk, Renewed;
      forall i | 0 <= i < nRates ensures Renewed(r[i], Refreshed(r[i])) { RefreshedRenews(r[i]); }
      var tp := RefreshRates();
      maxTp := RankRates(tp);
      ChainBounded(tp, maxTp);
      UpdateRates();
    }

    /** One status report of this driver, which never carries the probe flag. */
    method TxStatus(slots: seq<Slot>, ack: bool, elapsed: bool)
      requires Valid() && |slots| == 4
      requires forall j :: 0 <= j < 4 ==> slots[j].idx < |r| && (slots[j].idx >= 0 ==> slots[j].count >= 1)
      modifies this`r, this`maxTp, this`chain, this`sampleDeferred
      ensures Valid() && Budget() == LB.OnStatus(old(Budget()), false)
      ensures !elapsed ==> r == Credited(old(r), slots, if ack then 1 else 0, 0)
      // Each entry is booked the tries of the slots that name it; the last slot's, the success.
      ensures !elapsed ==> forall i :: 0 <= i < |r| ==> r[i] == Booked(old(r)[i], slots, if ack then 1 else 0)
      ensures elapsed ==> forall i :: 0 <= i < nRates ==>
                            Renewed(Booked(old(r)[i], slots, if ack then 1 else 0), r[i])
      ensures !elapsed ==> maxTp == old(maxTp) && chain == old(chain)
      ensures !elapsed ==> Setup() == old(Setup()) && State() == LR.Step(Setup(), old(State()), LR.Report).0
      ensures elapsed ==> forall i :: 0 <= i < nRates ==>
              r[i] == Refreshed(Credited(old(r), slots, if ack then 1 else 0, 0)[i])
      ensures elapsed ==> ChainOf(Throughputs(r, nRates), maxTp) && ChainOk()
      // An update is a report step followed by a new best rate and new limits.
      ensures elapsed ==> Setup() == old(Setup())
      ensures elapsed ==> var reported := LR.Step(Setup(), old(State()), LR.Report).0;
                          State() == LR.Step(Setup(), reported, LR.Updated(maxTp[0], LimitsOf(r))).0
    {
      hide Refreshed, Compact, LR.TableOk, Credited, Renewed, TriesOf, TookIt;
      LB.StepKeepsBudget(Budget(), nRates, LB.Status);
      CreditReport(slots, if ack then 1 else 0);
      if sampleDeferred > 0 {
        sampleDeferred := sampleDeferred - 1;
      }
      if elapsed {
        ghost var credited := r;
        UpdateStats();
        RefreshedKeepsTimes(credited, r, nRates);
      }
    }

    method CreditReport(slots: seq<Slot>, acked: nat)
      requires Valid() && |slots| == 4 && acked <= 1
      requires forall j :: 0 <= j < 4 ==> slots[j].idx < |r| && (slots[j].idx >= 0 ==> slots[j].count >= 1)
      modifies this`r
      ensures Valid() && r == Credited(old(r), slots, acked, 0)
      ensures forall k :: 0 <= k < |r| ==> r[k] == Booked(old(r)[k], slots, acked)
    {
      hide Booked, LR.TableOk, LB.InBudget, Compact, NdxOf;
      ghost var goal := Credited(r, slots, acked, 0);
      CreditedBooks(r, slots, acked, support, nRates);
      CreditedOk(r, slots, acked, 0, support, nRates);
      var i := 0;
      while i < 4 && slots[i].idx >= 0
        invariant 0 <= i <= 4 && RixOk(r, support, nRates)
        invariant Credited(r, slots, acked, i) == goal
      {
        var ndx := RixToNdx(r, slots[i].idx, support, nRates);
        if ndx >= 0 {
          r := CreditAt(r, ndx, slots[i].count, if i != 3 && slots[i + 1].idx < 0 then acked else 0);
        }
        i := i + 1;
      }
    }
  }

  lemma RefreshedSane(x: Rate)
    requires Sane(x.stats)
    ensures Sane(Refreshed(x).stats) && Refreshed(x).rix == x.rix && Refreshed(x).stats.probEwma >= 0
  {
    ApplyKeepsSane(x.stats, Event.Recalculated);
  }
}
