/** Runs of a real station that show what the exact conditions of HtPublished and HtSpec leave
    open: a primary rate above the limit of a clearing round, a published and a probed CCK slot
    that the station does not support. */
module HtRuns {
  import opened FixedPoint
  import opened RateStatistics
  import opened RateGroups
  import opened FrameDuration
  import opened TopRates
  import opened HtCaps
  import opened HtTables
  import opened HtSpec
  import opened HtRobust
  import opened HtPublished
  import opened HtStation
  import Retransmit
  import S = HtSampler
  import ST = SampleTable
  import PB = ProbeBudget

  // ----- the sampling table

  /** Cells of the values 0 to 9 in every column. */
  const CELLS: seq<nat> := [5, 6, 7, 4, 0, 1, 2, 3, 8, 9]

  ghost predicate Laid(t: seq<int>) {
    |t| == S.TABLE_SIZE && S.IsTable(t) && t[0] == 4 && t[1] == 5 && t[2] == 6 && t[3] == 7 && t[4] == 3
  }

  /** Random bytes exist that produce this table. */
  method NewTable() returns (table: seq<int>)
    ensures Laid(table)
  {
    var bytes := ST.Straight(CELLS);
    table := S.InitHtTable(seq(ST.COLUMNS, _ => bytes));
    ST.EveryPermutationArises(CELLS, 10);
    ghost var c := ST.Column(table, ST.Contiguous, 10, 0);
    assert forall j :: 0 <= j < 10 ==> c[j] == table[j];
    assert c[CELLS[4]] == 4 && c[CELLS[5]] == 5 && c[CELLS[6]] == 6 && c[CELLS[7]] == 7 && c[CELLS[3]] == 3;
  }

  // ----- the station

  /** An HT station at 2.4 GHz with 20 MHz channels and, of the CCK rates, 11 Mbit/s only. */
  const BG: Caps := Caps(false, false, 3, 0, false, false, false, true, {3})

  ghost predicate IsBg(m: seq<Mask>) {
    |m| == GROUPS && forall g :: 0 <= g < GROUPS ==> m[g] == if g == 0 then HT_MASK else if g == CCK then {3} else {}
  }

  lemma BgMasks(m: seq<Mask>)
    requires |m| == GROUPS && forall g :: 0 <= g < GROUPS ==> m[g] == GroupMask(BG, g)
    ensures IsBg(m)
  {
    assert {3} * {0, 1, 2, 3} == {3};
  }

  /** The sampler alternates between the two supported groups. */
  lemma BgNext(s: S.Sampler, m: seq<Mask>)
    requires IsBg(m) && S.WellFormed(s) && (s.group == 0 || s.group == CCK) && s.pos[0] < 99 && s.pos[CCK] < 99
    ensures S.SomeOn(S.On(m))
    ensures var h := if s.group == 0 then CCK else 0;
            S.Next(s, S.On(m)) == S.Sampler(h, s.pos[h := s.pos[h] + 1])
  {
    hide S.Next;
    var on := S.On(m);
    assert on[0];
    Skips(s, m, if s.group == 0 then 3 else 6);
    var last := S.Sampler(if s.group == 0 then 3 else 10, s.pos);
    S.NextIsTick(last, on);
  }

  /** Unsupported groups are passed over. */
  lemma {:induction false} Skips(s: S.Sampler, m: seq<Mask>, n: nat)
    requires IsBg(m) && S.WellFormed(s) && (if s.group == 0 then n <= 3 else s.group == CCK && n <= 6)
    requires S.SomeOn(S.On(m))
    ensures S.Next(s, S.On(m)) == S.Next(S.Sampler(s.group + n, s.pos), S.On(m))
    decreases n
  {
    hide S.Next;
    if n > 0 {
      Skips(s, m, n - 1);
      S.NextIsTick(S.Sampler(s.group + n - 1, s.pos), S.On(m));
    }
  }

  // ----- tables of this station

  /** Tries and successes of a rate in the open window. */
  datatype Window = Window(tries: nat, acked: nat)

  const NONE: Window := Window(0, 0)

  /** After start-up with limit 1 the rates at slots 0, 1 and 2 look perfect. Rates 0, 3 and 43
      may have been used since, nothing else. */
  ghost predicate WarmWith(t: Table, w0: Window, w3: Window, w43: Window) {
    |t| == RATES && forall i :: 0 <= i < RATES ==>
      if i < 3 then
        && t[i].probEwma == SCALE && t[i].attHist == t[i].succHist > 0
        && Window(t[i].attempts, t[i].success) == if i == 0 then w0 else NONE
      else SameStats(t[i], Untried(if i == 3 then w3 else if i == 43 then w43 else NONE))
  }

  function Untried(w: Window): RateStats { Credit(FRESH, w.tries, w.acked) }

  ghost predicate Warm(t: Table) { WarmWith(t, NONE, NONE, NONE) }

  lemma SeedsWarm(t: Table, m: seq<Mask>)
    requires |t| == RATES && IsBg(m) && forall i :: 0 <= i < RATES ==> SameStats(t[i], FRESH)
    ensures Warm(Passed(Passed(t, SeedPass(m, 1, W20), RATES), RecalcPass(m), RATES))
    ensures StartIdx(m, 1, W20, GROUPS, 0) == 0
  {
    assert Frac(1, 1) == Frac(2, 2) == SCALE;
    LastSeeded(m, 11);
  }

  lemma {:induction false} LastSeeded(m: seq<Mask>, n: nat)
    requires IsBg(m) && n <= GROUPS
    ensures StartIdx(m, 1, W20, n, 0) == 0
    decreases n
  {
    if n > 0 { LastSeeded(m, n - 1); }
  }

  /** Time of a frame at the rates used here, with the overhead of a frame on its own. */
  function Nanos(i: RateIndex): (t: nat)
    ensures t > 0
  {
    if i == 0 then 29646500 else if i == 1 then 14877250 else if i == 2 then 9954250
    else if i == 3 then 7492750 else 18117000
  }

  ghost predicate Used(i: nat) { i < 4 || i == 43 }

  lemma TimesOfRates(i: RateIndex)
    requires Used(i)
    ensures ExactNanos(i, SCALE) == Nanos(i)
  {
    OverheadIs();
    assert Duration(0) == 29538500;
    assert Duration(1) == 14769250;
    assert Duration(2) == 9846250;
    assert Duration(3) == 7384750;
    assert Duration(43) == 18117000;
  }

  /** Throughput by success average. */
  function TpAt(i: RateIndex, prob: nat): nat {
    if prob < TEN_PERCENT then 0
    else 100 * Quot((if prob > NINETY_PERCENT then NINETY_PERCENT else prob) * 1000000, Nanos(i)) / SCALE
  }

  lemma KeyOf(t: Table, m: seq<Mask>, l: Retransmit.Limits, i: RateIndex)
    requires TableOk(t, m, l) && Used(i)
    ensures t[i].probEwma >= 0 && Keys(t, m, l, SCALE)[i] == Key(TpAt(i, t[i].probEwma), t[i].probEwma)
  {
    assert RateOk(t[i], i, m, l);
    KeyIsExact(t, m, l, SCALE, i);
    TimesOfRates(i);
    hide Quot, Nanos;
  }

  lemma PerfectTps()
    ensures TpAt(0, SCALE) == 3 && TpAt(1, SCALE) == 6 && TpAt(2, SCALE) == 9
    ensures TpAt(3, SCALE) == 11 && TpAt(43, SCALE) == 4 && forall i: RateIndex :: TpAt(i, 0) == 0
  {
  }

  /** Only used rates have a success average. */
  ghost predicate OnlyUsed(t: Table) { |t| == RATES && forall i :: 0 <= i < RATES && !Used(i) ==> t[i].probEwma == 0 }

  /** The fastest used rate leads the new list, and the list holds used rates only. */
  lemma FastestLeads(t: Table, m: seq<Mask>, l: Retransmit.Limits, f: RateIndex)
    requires TableOk(t, m, l) && OnlyUsed(t) && Used(f) && Supp(m, f) && TpAt(f, t[f].probEwma) > 0
    requires t[f].probEwma >= 0
    requires forall i: RateIndex :: Used(i) && i != f && t[i].probEwma >= 0 ==>
               TpAt(i, t[i].probEwma) < TpAt(f, t[f].probEwma)
    ensures var best := BestRates(Keys(t, m, l, SCALE), m);
            best[0] == f && forall j :: 0 <= j < DEPTH ==> Used(best[j]) && (best[j] == 0 || t[best[j]].probEwma > 0)
  {
    hide Keys, BestRates, TableOk, TpAt;
    CapsOf(t, m, l);
    var k := Keys(t, m, l, SCALE);
    var best := BestRates(k, m);
    BestRatesSound(k, m);
    BestRatesSupported(t, m, l, SCALE);
    KeyOf(t, m, l, f);
    assert Used(best[0]);
    KeyOf(t, m, l, best[0]);
  }

  lemma CapsOf(t: Table, m: seq<Mask>, l: Retransmit.Limits)
    requires TableOk(t, m, l)
    ensures CapsOk(m)
  {
  }

  lemma IdleKey(t: Table, m: seq<Mask>, l: Retransmit.Limits, i: RateIndex)
    requires TableOk(t, m, l) && t[i].probEwma == 0
    ensures Keys(t, m, l, SCALE)[i] == Key(0, 0)
  {
    KeyIsExact(t, m, l, SCALE, i);
  }

  /** A scan that leaves a warm table: rate 2 leads, it is the most robust rate as well, and
      nothing asks for clearing. */
  lemma WarmScan(c: Scan, n0: Notes, t: Table)
    requires ScanOk(c) && NotesOk(n0) && n0.maxProb == 0 && IsBg(c.masks) && c.avgLen == SCALE
    requires t == Passed(c.start, RecalcPass(c.masks), RATES) && Warm(t) && TableOk(t, c.masks, c.l)
    ensures var best := BestRates(Keys(t, c.masks, c.l, SCALE), c.masks);
            best[0] == 2 && forall j :: 0 <= j < DEPTH ==> best[j] < 3
    ensures Chosen(c, 0, RATES) == 2
    ensures NotesAfter(c, n0, RATES).(maxProb := 0, groupProb := []) == n0.(maxProb := 0, groupProb := [])
  {
    PerfectTps();
    hide TpAt;
    FastestLeads(t, c.masks, c.l, 2);
    assert After(c) == Keys(t, c.masks, c.l, SCALE);
    WarmAfter(c, t);
    FastestReliableWins(c, 0, 2);
    OneFastest(c, t, Chosen(c, 0, RATES));
    CalmNotes(c, n0, RATES);
  }

  lemma WarmAfter(c: Scan, t: Table)
    requires ScanOk(c) && c.avgLen == SCALE && IsBg(c.masks)
    requires t == Passed(c.start, RecalcPass(c.masks), RATES) && Warm(t) && TableOk(t, c.masks, c.l)
    ensures Outstanding(c, 0, 2)
    ensures forall i :: 0 <= i < RATES && Supp(c.masks, i) ==> !WantsClearing(Recalculate(c.start[i]), i == c.startRate)
  {
    PerfectTps();
    hide TpAt, Keys;
    assert After(c) == Keys(t, c.masks, c.l, SCALE);
    KeyOf(t, c.masks, c.l, 0);
    KeyOf(t, c.masks, c.l, 1);
    KeyOf(t, c.masks, c.l, 2);
    forall y | 0 <= y < RATES && Competes(c, y) ensures AtMost(After(c)[y], After(c)[2]) {
      if y >= 3 { IdleKey(t, c.masks, c.l, y); }
    }
    forall i | 0 <= i < RATES && Supp(c.masks, i) ensures !WantsClearing(Recalculate(c.start[i]), i == c.startRate) {
      assert t[i] == Recalculate(c.start[i]);
      assert t[i].probEwma == SCALE || t[i].probEwma == 0;
    }
  }

  lemma OneFastest(c: Scan, t: Table, r: RateIndex)
    requires ScanOk(c) && c.avgLen == SCALE && IsBg(c.masks) && After(c)[r].tp == After(c)[2].tp
    requires t == Passed(c.start, RecalcPass(c.masks), RATES) && Warm(t) && TableOk(t, c.masks, c.l)
    ensures r == 2
  {
    PerfectTps();
    hide TpAt, Keys;
    assert After(c) == Keys(t, c.masks, c.l, SCALE);
    KeyOf(t, c.masks, c.l, 2);
    if r < 3 { KeyOf(t, c.masks, c.l, r); } else { IdleKey(t, c.masks, c.l, r); }
  }

  // ----- start-up of the station

  /** The sampler after n draws. */
  ghost predicate Drawn(x: S.Sampler, n: nat) {
    && S.WellFormed(x) && x.group == (if n % 2 == 0 then 0 else CCK)
    && x.pos[0] == n / 2 && x.pos[CCK] == (n + 1) / 2
  }

  ghost predicate IsOurs(s: Station)
    reads s
  {
    && s.Valid() && IsBg(s.supported) && Laid(s.table) && s.cckRates == [0, 1, 2, 3] && s.maxRates == 4
    && s.needClear == 0 && s.Unaggregated() && s.ampduPackets < 100 && !s.sampleClearFlag && !s.sampleAllBw
  }

  /** Rate 2 leads and is the most robust rate. */
  ghost predicate SecondLeads(s: Station)
    requires s.Valid()
    reads s
  {
    s.maxTp[0] == 2 && s.maxTp[1] < 3 && s.maxProb == 2
  }

  /** Start-up after n draws: every other one was a forced probe of rate 0. */
  ghost predicate Starting(s: Station, n: nat)
    reads s
  {
    && IsOurs(s) && Drawn(s.Sampler(), n) && Warm(s.rates) && SecondLeads(s) && n <= 7
    && s.Budget() == PB.Budget(0, 4 - (n + 1) / 2, 20) && s.ampduPackets == 0
    && s.sampleInitFlag == (n < 7) && s.sampleInitCounts == (n + 1) / 2 && s.sampleForceCounts == 3 &&
         s.sampleInitIdx == 0
  }

  lemma {:induction false} TwoGroups(m: seq<Mask>, n: nat)
    requires IsBg(m) && n <= GROUPS
    ensures CountGroups(m, n) == (if n > 0 then 1 else 0) + (if n > CCK then 1 else 0)
    decreases n
  {
    if n > 0 { TwoGroups(m, n - 1); }
  }

  /** A new station of ours. */
  ghost predicate Untouched(s: Station)
    reads s
  {
    && IsOurs(s) && Drawn(s.Sampler(), 0) && (forall i :: 0 <= i < RATES ==> SameStats(s.rates[i], FRESH))
    && s.maxTp == PLACEHOLDERS && s.maxProb == 0 && s.Budget() == PB.Budget(0, 4, 20) && s.ampduPackets == 0
    && s.sampleInitCounts == s.sampleInitIdx == 0
  }

  method NewStation(limits: Retransmit.Limits) returns (s: Station)
    ensures fresh(s) && Untouched(s)
  {
    hide TableOk, CapsOk, SamplerOk, S.IsTable, StagesOk, ListsOk, GroupMask, Positions;
    hide Station.Published, Station.Grounds, SameStats;
    var table := NewTable();
    assert exists g :: 0 <= g < GROUPS && g != CCK && GroupMask(BG, g) != {} by { HtSupported(); }
    s := new Station(BG, limits, 4, [0, 1, 2, 3], false, table, true);
    BgMasks(s.supported);
    TwoGroups(s.supported, GROUPS);
  }

  lemma HtSupported()
    ensures 0 != CCK && GroupMask(BG, 0) == HT_MASK != {}
  {
    assert 0 in HT_MASK;
  }

  /** Set up the station and seed it for the signal of slot 1. */
  method SetUp(limits: Retransmit.Limits) returns (s: Station)
    ensures fresh(s) && Starting(s, 0)
  {
    hide TableOk, CapsOk, SamplerOk, S.IsTable, StagesOk, Passed, SeedPass, RecalcPass, NotesAfter, Chosen, StartIdx;
    hide Station.Published, Warm, BestRates, Keys, Positions, Laid, ListsOk, CountGroups;
    s := NewStation(limits);
    ghost var unused, n0 := s.rates, s.NotesNow();
    s.InitStartStats(1, W20);
    SeedsWarm(unused, s.supported);
    TwoGroups(s.supported, GROUPS);
    ghost var seeded := Passed(unused, SeedPass(s.supported, 1, W20), RATES);
    WarmScan(s.ScanFrom(seeded, 0), n0, s.rates);
  }

  /** While rate 2 leads it is the first rate. */
  lemma SecondIsFirst(s: Station)
    requires s.Valid() && SecondLeads(s)
    ensures s.FirstRate() == 2
  {
    TimesOfRates(0);
    TimesOfRates(1);
    TimesOfRates(2);
    OverheadIs();
  }

  /** What the decisions of a frame depend on. */
  ghost predicate Deciding(s: Station, x: S.Sampler, n: nat)
    reads s
  {
    && s.Valid() && IsBg(s.supported) && Laid(s.table) && SecondLeads(s) && s.rates[2].probEwma == SCALE
    && Drawn(x, n)
  }

  /** During start-up a draw of group 0 forces a probe of rate 0, a draw of the CCK group finds
      an unsupported slot. */
  lemma StartingDraw(s: Station, x: S.Sampler, x': S.Sampler, p: Probe, n: nat)
    requires Deciding(s, x, n) && n < 7 && s.sampleInitIdx == 0 && S.SomeOn(S.On(s.supported))
    requires s.SampledFrom(x, x', p, true)
    ensures Drawn(x', n + 1) && (if n % 2 == 0 then p.Probe? && p.rate == 0 else p.NoProbe?)
  {
    hide S.Next, Station.Deferred, Duration, TableOk, S.IsTable, Station.FirstRate;
    SecondIsFirst(s);
    BgNext(x, s.supported);
    assert s.table[x.pos[x.group]] == if n % 2 == 0 then 4 + n / 2 else 4 + (n + 1) / 2;
  }

  /** No clearing is requested while rate 2 succeeds. */
  lemma NoRequest(s: Station, x: S.Sampler, n: nat)
    requires Deciding(s, x, n)
    ensures s.Requested(x, 0) == 0
  {
    SecondIsFirst(s);
    hide Station.FirstRate;
  }

  /** A probe within the fit passes the check of its frame and leaves no trace there. */
  method Vet(s: Station, p: Probe, fit: nat) returns (keep: bool)
    requires IsOurs(s) && (p.Probe? ==> p.rate < RATES && Encode(p.rate, s.cckRates) <= fit)
    modifies s`rates, s`sampleClearFlag, s`needClear
    ensures s.Valid() && s.rates == old(s.rates) && !s.sampleClearFlag && s.needClear == 0 && keep == p.Probe?
  {
    hide TableOk, CapsOk, SamplerOk, S.IsTable, ListsOk, Positions, Laid, Encode;
    var legacy;
    keep, legacy := s.CheckRateFitable(p, W20, fit, true, false);
  }

  /** One frame of the start-up, with its probe vetted. */
  method SendStarting(s: Station, ghost n: nat)
    requires Starting(s, n) && n < 7
    modifies s
    ensures Starting(s, n + 1)
  {
    hide TableOk, CapsOk, SamplerOk, S.IsTable, StagesOk, ListsOk, Positions, Laid, Encode;
    hide Station.SampledFrom, Station.PlacedFrom, Station.ProbeOk, Station.Requested, Drawn;
    ghost var x := s.Sampler();
    var p := s.GetRate(false);
    StartingDraw(s, x, s.Sampler(), p, n);
    NoRequest(s, x, n);
    assert p.Probe? ==> Encode(p.rate, s.cckRates) == 0 by { ZeroCode(s.cckRates); }
    var keep := Vet(s, p, 7);
  }

  lemma ZeroCode(cckRates: seq<nat>)
    requires |cckRates| == 4
    ensures Encode(0, cckRates) == 0
  {
  }

  // ----- after start-up

  /** After start-up: the windows of the rates used since, and what the budget allows. */
  ghost predicate Running(s: Station, n: nat, b: PB.Budget, w0: Window, w3: Window, w43: Window)
    reads s
  {
    && IsOurs(s) && Drawn(s.Sampler(), n) && WarmWith(s.rates, w0, w3, w43) && SecondLeads(s)
    && s.Budget() == b && !s.sampleInitFlag
  }

  /** A frame while the budget waits. */
  method Wait(s: Station, ghost n: nat, ghost b: PB.Budget, ghost w0: Window)
    requires Running(s, n, b, w0, NONE, NONE) && b.wait > 0
    modifies s
    ensures Running(s, n, b.(wait := b.wait - 1), w0, NONE, NONE) && s.ampduPackets == old(s.ampduPackets)
  {
    hide TableOk, CapsOk, SamplerOk, S.IsTable, ListsOk, Positions, Laid, Drawn, WarmWith;
    hide Station.SampledFrom, Station.PlacedFrom, Station.ProbeOk, Station.Requested;
    var p := s.GetRate(false);
  }

  /** The eighth draw is the CCK slot, the ninth slot 3; both become probes. */
  lemma RunningDraw(s: Station, x: S.Sampler, x': S.Sampler, p: Probe, n: nat)
    requires Deciding(s, x, n) && (n == 7 || n == 8) && S.SomeOn(S.On(s.supported)) && s.SampledFrom(x, x', p, false)
    ensures Drawn(x', n + 1) && p.Probe? && p.rate == if n == 7 then 43 else 3
  {
    hide S.Next, Station.Deferred, Duration, TableOk, S.IsTable, Station.FirstRate;
    SecondIsFirst(s);
    BgNext(x, s.supported);
    assert s.table[x.pos[x.group]] == 3;
  }

  lemma CodeThree(cckRates: seq<nat>)
    requires cckRates == [0, 1, 2, 3]
    ensures Encode(3, cckRates) == Encode(43, cckRates) == 3
  {
  }

  /** A probe of rate 43 or rate 3. */
  method SendProbe(s: Station, ghost n: nat, ghost b: PB.Budget, ghost w0: Window) returns (p: Probe)
    requires Running(s, n, b, w0, NONE, NONE) && (n == 7 || n == 8) && b.wait == 0 && b.tries > 0
    modifies s
    ensures Running(s, n + 1, b.(tries := b.tries - 1), w0, NONE, NONE)
    ensures p.Probe? && p.rate == (if n == 7 then 43 else 3) && s.ampduPackets == old(s.ampduPackets)
  {
    hide TableOk, CapsOk, SamplerOk, S.IsTable, StagesOk, ListsOk, Positions, Laid, Encode;
    hide Station.SampledFrom, Station.PlacedFrom, Station.ProbeOk, Station.Requested, Drawn;
    ghost var x := s.Sampler();
    p := s.GetRate(false);
    RunningDraw(s, x, s.Sampler(), p, n);
    NoRequest(s, x, n);
    CodeThree(s.cckRates);
    var keep := Vet(s, p, 3);
  }

  function Add(w: Window, acked: bool): Window { Window(w.tries + 1, w.acked + if acked then 1 else 0) }

  /** One try of a used rate. */
  lemma CreditWarm(t: Table, t': Table, w0: Window, w3: Window, w43: Window, i: RateIndex, acked: bool)
    requires WarmWith(t, w0, w3, w43) && (i == 0 || i == 3 || i == 43)
    requires SameTable(t', t[i := Credit(t[i], 1, if acked then 1 else 0)])
    ensures WarmWith(t', if i == 0 then Add(w0, acked) else w0, if i == 3 then Add(w3, acked) else w3,
                     if i == 43 then Add(w43, acked) else w43)
  {
    var c := t[i := Credit(t[i], 1, if acked then 1 else 0)];
    forall j | 0 <= j < RATES ensures SameStats(t'[j], c[j]) { }
  }

  /** Report of a frame that was sent with a single try at rate i. */
  function Single(i: RateIndex, cckRates: seq<nat>): seq<TxSlot>
    requires |cckRates| == 4
  {
    var unused := TxSlot(-1, 0, NO_FLAGS);
    [TxSlot(Encode(i, cckRates), 1, GroupFlags(Group(i))), unused, unused, unused]
  }

  lemma SingleCredited(t: Table, i: RateIndex, acked: bool, m: seq<Mask>, cckRates: seq<nat>)
    requires |t| == RATES && CapsOk(m) && Supp(m, i) && cckRates == [0, 1, 2, 3]
    ensures var r := CompletionReport(acked, Single(i, cckRates));
            && Creditable(r.slots, m, cckRates) && Backed(r.slots, m, cckRates, AckedLen(r))
            && Credited(t, r.slots, m, cckRates, 1, AckedLen(r), 0) == t[i := Credit(t[i], 1, if acked then 1 else 0)]
  {
    var slots := Single(i, cckRates);
    EncodeDecode(i, 1, m, cckRates);
    CompletionCreditable(acked, slots, m, cckRates);
  }

  /** Report between updates. */
  method Deliver(s: Station, i: RateIndex, acked: bool, ghost n: nat, ghost b: PB.Budget, ghost w0: Window)
    requires Running(s, n, b, w0, NONE, NONE) && w0.tries < 20 && s.ampduPackets < 50 && (i == 0 || i == 3 || i == 43)
    modifies s
    ensures Running(s, n, PB.OnStatus(b), if i == 0 then Add(w0, acked) else w0,
                    if i == 3 then Add(NONE, acked) else NONE, if i == 43 then Add(NONE, acked) else NONE)
    ensures s.ampduPackets == old(s.ampduPackets) + 1
  {
    hide TableOk, SamplerOk, S.IsTable, GroupListOk, Positions, Laid, Drawn, Credited, Creditable, Backed, WarmWith;
    hide CapsOk;
    hide Station.RoundDone, AfterDeath, Dying, Single, PB.OnStatus, CompletionReport, MaskOk, SameTable;
    ghost var before := s.rates;
    SuppUsed(s.supported, i);
    SingleCredited(s.rates, i, acked, s.supported, s.cckRates);
    var r := CompletionReport(acked, Single(i, s.cckRates));
    s.TxStatus(r, false, 0, true);
    ghost var t := before[i := Credit(before[i], 1, if acked then 1 else 0)];
    CreditWarm(before, t, w0, NONE, NONE, i, acked) by { SameTableRefl(t); }
    NotDying(before, t, i, w0, old(s.maxTp));
    CreditWarm(before, s.rates, w0, NONE, NONE, i, acked);
  }

  lemma SuppUsed(m: seq<Mask>, i: RateIndex)
    requires IsBg(m) && Used(i)
    ensures Supp(m, i)
  {
  }

  lemma SameTableRefl(t: Table)
    ensures SameTable(t, t)
  {
  }

  lemma NotDying(before: Table, t: Table, i: RateIndex, w0: Window, maxTp: seq<nat>)
    requires WarmWith(before, w0, NONE, NONE) && w0.tries < 20
    requires |maxTp| == DEPTH && maxTp[0] < RATES && maxTp[1] < RATES
    requires exists a: nat :: t == before[i := Credit(before[i], 1, a)]
    ensures |t| == RATES && !Dying(t, maxTp)
  {
    hide Frac;
  }

  /** The station once its start-up probes are sent. */
  method WarmUp(limits: Retransmit.Limits) returns (s: Station)
    ensures fresh(s) && Starting(s, 7)
  {
    hide Starting;
    s := SetUp(limits);
    for n := 0 to 7
      invariant fresh(s) && Starting(s, n)
    {
      SendStarting(s, n);
    }
  }

  /** Report of a start-up probe, the ten frames the budget then waits, and the two probes it
      allows: of rate 43 and of rate 3. */
  method ProbeBoth(limits: Retransmit.Limits) returns (s: Station)
    ensures fresh(s) && Running(s, 9, PB.Budget(0, 0, 19), Window(1, 1), NONE, NONE) && s.ampduPackets == 1
  {
    hide IsOurs, WarmWith, Drawn, Station.Valid;
    s := WarmUp(limits);
    Deliver(s, 0, true, 7, PB.Budget(0, 0, 20), NONE);
    for k := 0 to 10
      invariant fresh(s) && Running(s, 7, PB.Budget(10 - k, 2, 19), Window(1, 1), NONE, NONE) && s.ampduPackets == 1
    {
      Wait(s, 7, PB.Budget(10 - k, 2, 19), Window(1, 1));
    }
    var p := SendProbe(s, 7, PB.Budget(0, 2, 19), Window(1, 1));
    p := SendProbe(s, 8, PB.Budget(0, 1, 19), Window(1, 1));
  }

  /** Averages after a round at slot 1 or 0: rates 1 and 2 are cleared above the limit, and a
      rate in its first window gets the average of that window. */
  lemma RoundAverages(t: Table, m: seq<Mask>, limit: nat, w3: Window, w43: Window, t': Table)
    requires WarmWith(t, Window(1, 1), w3, w43) && IsBg(m) && limit <= 1
    requires w3.tries <= 1 && w43.tries <= 1 && w3.acked <= w3.tries && w43.acked <= w43.tries
    requires SameTable(t', RoundTable(t, m, limit, true))
    ensures OnlyUsed(t') && t'[0].probEwma == SCALE && t'[1].probEwma == (if limit == 1 then SCALE else 0)
    ensures t'[2].probEwma == 0 && t'[3].probEwma == w3.acked * SCALE && t'[43].probEwma == w43.acked * SCALE
    ensures forall i :: 0 <= i < RATES ==> t'[i].attempts == t'[i].success == 0
    ensures t'[0].attHist > 0 && (w43.tries > 0 ==> t'[43].attHist > 0)
  {
    hide RoundTable, SameTable, Recalculate, ClearUnfit, Supp;
    RoundOf(t, m, limit, 0, t');
    forall i | 0 <= i < RATES
      ensures t'[i].attempts == t'[i].success == 0
      ensures t'[i].probEwma == if i <= limit then SCALE else if i == 3 then w3.acked * SCALE
                                else if i == 43 then w43.acked * SCALE else 0
      ensures i == 0 || (i == 43 && w43.tries > 0) ==> t'[i].attHist > 0
    {
      RoundOf(t, m, limit, i, t');
      SuppHere(m, i);
      if i < 3 {
        PerfectRound(t[i]);
      } else {
        UntriedRound(t[i], if i == 3 then w3 else if i == 43 then w43 else NONE);
      }
    }
  }

  lemma SuppHere(m: seq<Mask>, i: RateIndex)
    requires IsBg(m)
    ensures Supp(m, i) <==> i < 8 || i == 43
  {
  }

  lemma RoundOf(t: Table, m: seq<Mask>, limit: nat, i: RateIndex, t': Table)
    requires |t| == RATES && |m| == GROUPS && SameTable(t', RoundTable(t, m, limit, true))
    ensures |t'| == RATES
    ensures SameStats(t'[i], if !Supp(m, i) then t[i]
            else Recalculate(if Slot(i) > limit then ClearUnfit(t[i]) else t[i]))
  {
    assert SameStats(t'[i], RoundTable(t, m, limit, true)[i]);
  }

  /** A perfect rate stays perfect, or loses everything when cleared. */
  lemma PerfectRound(r: RateStats)
    requires r.probEwma == SCALE && r.attHist == r.succHist > 0 && r.attempts == r.success <= 1
    ensures Recalculate(r).probEwma == SCALE && Recalculate(ClearUnfit(r)).probEwma == 0
    ensures Recalculate(r).attHist > 0 && Recalculate(r).attempts == Recalculate(r).success == 0
    ensures Recalculate(ClearUnfit(r)).attempts == Recalculate(ClearUnfit(r)).success == 0
  {
    assert Frac(1, 1) == SCALE;
    ClearedDropsToZero(r);
  }

  /** The first window of a rate is not cleared. */
  lemma UntriedRound(r: RateStats, w: Window)
    requires SameStats(r, Untried(w)) && w.acked <= w.tries <= 1
    ensures ClearUnfit(r) == r && Recalculate(r).probEwma == w.acked * SCALE
    ensures (w.tries > 0 ==> Recalculate(r).attHist > 0)
    ensures Recalculate(r).attempts == Recalculate(r).success == 0
  {
    assert Frac(1, 1) == SCALE && Frac(0, 1) == 0;
  }

  /** Our station after start-up. */
  ghost predicate Steady(s: Station, n: nat, b: PB.Budget)
    reads s
  {
    && s.Valid() && IsBg(s.supported) && Laid(s.table) && s.cckRates == [0, 1, 2, 3] && s.maxRates == 4
    && s.needClear == 0 && s.Unaggregated() && Drawn(s.Sampler(), n) && s.Budget() == b && !s.sampleInitFlag
  }

  /** The same after a round. */
  ghost predicate Rounded(s: Station, n: nat, b: PB.Budget)
    reads s
  {
    Steady(s, n, b) && s.ampduPackets == 0
  }

  /** Report that ends the interval: a round with the given limit over table t. */
  method Finish(s: Station, r: Report, fit: nat, ghost n: nat, ghost b: PB.Budget)
    returns (ghost t: Table, ghost n0: Notes, ghost head: RateIndex)
    requires Steady(s, n, b) && s.Acceptable(r) && SentLen(r) == 1 && !r.ctlAmpdu
    modifies s
    ensures Rounded(s, n, PB.OnIntervalEnd(b, 2)) && |t| == RATES && s.RoundDone(t, n0, head, fit, true)
    ensures Creditable(r.slots, s.supported, s.cckRates)
    ensures t == Credited(old(s.rates), r.slots, s.supported, s.cckRates, 1, AckedLen(r), 0)
  {
    hide TableOk, SamplerOk, S.IsTable, GroupListOk, Positions, Laid, Drawn, Credited, Creditable, Backed, MaskOk;
    hide Station.RoundDone, AfterDeath, PB.OnIntervalEnd, CapsOk, CountGroups, NextAvgLen, StagesOk, ClearedIn;
    hide Station.Kept, Station.Quiet;
    TwoGroups(s.supported, GROUPS);
    t := Credited(s.rates, r.slots, s.supported, s.cckRates, 1, AckedLen(r), 0);
    n0, head := s.NotesNow(), AfterDeath(t, s.supported, s.groupTp, s.maxTp)[0];
    s.TxStatus(r, true, fit, true);
    NothingRequested(s, t, n0, head, fit);
  }

  /** The same for a single try at a used rate. */
  method Conclude(s: Station, i: RateIndex, acked: bool, fit: nat,
                  ghost n: nat, ghost b: PB.Budget, ghost w0: Window, ghost w3: Window, ghost w43: Window)
    returns (ghost t: Table, ghost n0: Notes, ghost head: RateIndex)
    requires Running(s, n, b, w0, w3, w43) && (i == 0 || i == 3 || i == 43)
    modifies s
    ensures Rounded(s, n, PB.OnIntervalEnd(b, 2)) && |t| == RATES && s.RoundDone(t, n0, head, fit, true)
    ensures WarmWith(t, if i == 0 then Add(w0, acked) else w0, if i == 3 then Add(w3, acked) else w3,
                     if i == 43 then Add(w43, acked) else w43)
  {
    hide TableOk, SamplerOk, S.IsTable, GroupListOk, Positions, Laid, Drawn, Credited, Creditable, Backed, MaskOk;
    hide Station.RoundDone, Single, CompletionReport, SameTable, WarmWith, CapsOk;
    ghost var before := s.rates;
    SuppUsed(s.supported, i);
    SingleCredited(before, i, acked, s.supported, s.cckRates);
    var r := CompletionReport(acked, Single(i, s.cckRates));
    t, n0, head := Finish(s, r, fit, n, b);
    CreditWarm(before, t, w0, w3, w43, i, acked) by { SameTableRefl(t); }
  }

  lemma NothingRequested(s: Station, t: Table, n0: Notes, head: RateIndex, limit: nat)
    requires s.Valid() && |t| == RATES && s.RoundDone(t, n0, head, limit, true)
    ensures s.needClear == 0
  {
  }

  // ----- a primary rate above the limit

  /** The limit of a round is not always held. Both probes are reported, the one of rate 43 as
      lost and the one of rate 3 as received, and the latter ends the interval with the limit
      1: the round over table t clears rate 2 and publishes rate 3. */
  method PublishAboveLimit(limits: Retransmit.Limits)
    returns (s: Station, ghost t: Table, ghost n0: Notes, ghost head: RateIndex)
    ensures fresh(s) && s.Valid() && |t| == RATES && s.RoundDone(t, n0, head, 1, true)
    ensures ClearedIn(t, s.supported, 1, 2) && s.maxTp[0] == 3 && Slot(3) > 1
  {
    hide IsOurs, WarmWith, Drawn, Station.Valid, Station.RoundDone;
    s := ProbeBoth(limits);
    Deliver(s, 43, false, 9, PB.Budget(0, 0, 19), Window(1, 1));
    t, n0, head := Conclude(s, 3, true, 1, 9, PB.Budget(10, 2, 18), Window(1, 1), NONE, Window(1, 0));
    ThirdLeads(s, t, n0, head);
  }

  lemma ThirdLeads(s: Station, t: Table, n0: Notes, head: RateIndex)
    requires s.Valid() && IsBg(s.supported) && s.avgAmpduLen == SCALE
    requires |t| == RATES && WarmWith(t, Window(1, 1), Window(1, 1), Window(1, 0)) && s.RoundDone(t, n0, head, 1, true)
    ensures ClearedIn(t, s.supported, 1, 2) && s.maxTp[0] == 3
  {
    hide TableOk, SamplerOk, S.IsTable, GroupListOk, RoundTable, BestRates, Keys, TpAt, Station.RoundDone, Lowered;
    hide Used;
    hide WarmWith, ClearedIn, OnlyUsed, SameTable, MaskOk, CapsOk;
    RoundLists(s, t, n0, head, 1);
    RoundAverages(t, s.supported, 1, Window(1, 1), Window(1, 0), s.rates);
    SecondCleared(t, s.supported);
    ThirdFastest(s.rates, s.supported, s.limits);
  }

  /** Table and rate list after a round. */
  lemma RoundLists(s: Station, t: Table, n0: Notes, head: RateIndex, limit: nat)
    requires s.Valid() && |t| == RATES && s.avgAmpduLen == SCALE && s.RoundDone(t, n0, head, limit, true)
    ensures SameTable(s.rates, RoundTable(t, s.supported, limit, true)) && s.Published()
    ensures s.maxTp == LoweredHead(s.rates, BestRates(Keys(s.rates, s.supported, s.limits, SCALE), s.supported))
  {
  }

  lemma SecondCleared(t: Table, m: seq<Mask>)
    requires IsBg(m) && WarmWith(t, Window(1, 1), Window(1, 1), Window(1, 0))
    ensures ClearedIn(t, m, 1, 2)
  {
  }

  lemma ThirdFastest(t: Table, m: seq<Mask>, l: Retransmit.Limits)
    requires TableOk(t, m, l) && IsBg(m) && OnlyUsed(t) && t[0].probEwma == t[1].probEwma == t[3].probEwma == SCALE
    requires t[2].probEwma == t[43].probEwma == 0
    ensures BestRates(Keys(t, m, l, SCALE), m)[0] == 3 && Lowered(t, 3) == 3
  {
    hide TableOk, BestRates, Keys, TpAt;
    PerfectTps();
    FastestLeads(t, m, l, 3);
  }

  // ----- an unsupported CCK slot is probed

  /** With limit 0 the report of a start-up probe clears rates 1 and 2, and rate 0 leads. When
      the ten frames of the budget have passed, the CCK group comes up with its only slot; two
      slots above the first rate are too many, so the probe goes to rate 41, which the station
      does not support, and passes the check of its frame. */
  method ProbeUnsupported(limits: Retransmit.Limits) returns (s: Station, p: Probe, keep: bool)
    ensures fresh(s) && s.Valid() && p.Probe? && p.rate == 41 && keep && !Supp(s.supported, 41)
  {
    hide IsOurs, WarmWith, Drawn, Station.Valid, Station.RoundDone;
    s := WarmUp(limits);
    ghost var t, n0, head := Conclude(s, 0, true, 0, 7, PB.Budget(0, 0, 20), NONE, NONE, NONE);
    LowestLeads(s, t, n0, head);
    for k := 0 to 10
      invariant fresh(s) && Low(s, PB.Budget(10 - k, 2, 20))
    {
      WaitLow(s, PB.Budget(10 - k, 2, 20));
    }
    p, keep := SendLow(s);
  }

  /** Our station after that round: rate 0 leads with full success. */
  ghost predicate Low(s: Station, b: PB.Budget)
    reads s
  {
    Rounded(s, 7, b) && s.maxTp[0] == s.maxTp[1] == 0 && Slot(s.maxProb) == 0 && s.rates[0].probEwma == SCALE
    && s.rates[0].attempts == 0
  }

  lemma LowestLeads(s: Station, t: Table, n0: Notes, head: RateIndex)
    requires Rounded(s, 7, PB.Budget(10, 2, 20)) && |t| == RATES && WarmWith(t, Window(1, 1), NONE, NONE)
    requires s.RoundDone(t, n0, head, 0, true)
    ensures Low(s, PB.Budget(10, 2, 20))
  {
    hide TableOk, SamplerOk, S.IsTable, GroupListOk, RoundTable, BestRates, Keys, TpAt, Laid, Drawn, Station.RoundDone;
    hide WarmWith, OnlyUsed, SameTable, MaskOk, CapsOk, Used, Lowered, Station.ChainOk;
    RoundLists(s, t, n0, head, 0);
    RoundAverages(t, s.supported, 0, NONE, NONE, s.rates);
    LowestFastest(s.rates, s.supported, s.limits);
  }

  lemma LowestFastest(t: Table, m: seq<Mask>, l: Retransmit.Limits)
    requires TableOk(t, m, l) && IsBg(m) && OnlyUsed(t) && t[0].probEwma == SCALE
    requires t[1].probEwma == t[2].probEwma == t[3].probEwma == t[43].probEwma == 0
    ensures var best := BestRates(Keys(t, m, l, SCALE), m);
            best[0] == best[1] == 0 && Lowered(t, 0) == 0
  {
    hide TableOk, BestRates, Keys, TpAt;
    PerfectTps();
    FastestLeads(t, m, l, 0);
  }

  method WaitLow(s: Station, ghost b: PB.Budget)
    requires Low(s, b) && b.wait > 0
    modifies s
    ensures Low(s, b.(wait := b.wait - 1))
  {
    hide TableOk, CapsOk, SamplerOk, S.IsTable, GroupListOk, Positions, Laid, Drawn;
    hide Station.SampledFrom, Station.PlacedFrom, Station.ProbeOk, Station.Requested;
    var p := s.GetRate(false);
  }

  method SendLow(s: Station) returns (p: Probe, keep: bool)
    requires Low(s, PB.Budget(0, 2, 20))
    modifies s
    ensures s.Valid() && p.Probe? && p.rate == 41 && keep && !Supp(s.supported, 41)
  {
    hide TableOk, CapsOk, SamplerOk, S.IsTable, StagesOk, GroupListOk, Positions, Laid, Encode;
    hide Station.SampledFrom, Station.PlacedFrom, Station.ProbeOk, Station.Requested, Drawn;
    ghost var x := s.Sampler();
    p := s.GetRate(false);
    LowDraw(s, x, s.Sampler(), p);
    var legacy;
    keep, legacy := s.CheckRateFitable(p, W20, 1, true, false);
  }

  lemma LowDraw(s: Station, x: S.Sampler, x': S.Sampler, p: Probe)
    requires s.Valid() && IsBg(s.supported) && Laid(s.table) && s.cckRates == [0, 1, 2, 3] && Drawn(x, 7)
    requires s.maxTp[0] == s.maxTp[1] == 0 && Slot(s.maxProb) == 0 && s.rates[0].probEwma == SCALE
    requires s.rates[0].attempts == 0
    requires S.SomeOn(S.On(s.supported)) && s.SampledFrom(x, x', p, false)
    ensures p.Probe? && p.rate == 41 && !Supp(s.supported, 41) && Encode(41, s.cckRates) == 1 && s.Requested(x, 0) == 0
  {
    hide S.Next, Station.Deferred, Duration, TableOk, S.IsTable;
    BgNext(x, s.supported);
    assert s.table[x.pos[x.group]] == 3;
  }

  // ----- an unsupported CCK slot is published

  /** Only rates 0 and 43 have an average, both the same, and no success is open. */
  ghost predicate Fading(t: Table, q: nat) {
    && |t| == RATES && t[0].probEwma == t[43].probEwma == q && t[0].attHist > 0 && t[43].attHist > 0
    && forall i :: 0 <= i < RATES ==> t[i].success == 0 && (i != 0 && i != 43 ==> t[i].probEwma == 0)
  }

  /** A report of a lost frame adds tries and nothing else. */
  lemma {:induction false} LostCredits(t: Table, slots: seq<TxSlot>, m: seq<Mask>, cckRates: seq<nat>, i: nat)
    requires Creditable(slots, m, cckRates) && |t| == RATES && i <= 3
    requires i < 3 ==> i == 0 || SlotUsed(slots[i], cckRates)
    ensures var t' := Credited(t, slots, m, cckRates, 1, 0, i);
            && (forall j :: 0 <= j < RATES ==> t'[j].attempts >= t[j].attempts)
            && (forall j :: 0 <= j < RATES ==> t'[j] == t[j].(attempts := t'[j].attempts))
            && (i < 3 ==> t'[Decode(slots[i], m, cckRates)].attempts >= slots[i].count)
            && (i < 2 && SlotUsed(slots[i + 1], cckRates) ==>
                  t'[Decode(slots[i + 1], m, cckRates)].attempts >= slots[i + 1].count)
    decreases 3 - i
  {
    hide Decode;
    if i < 3 && SlotUsed(slots[i + 1], cckRates) {
      var k := Decode(slots[i], m, cckRates);
      LostCredits(t[k := Credit(t[k], slots[i].count * 1, 0)], slots, m, cckRates, i + 1);
    }
  }

  /** Average after a window of failures only. */
  function Faded(q: nat): nat { q - q / 4 }

  /** One round after such reports takes a quarter off both averages. */
  lemma FadingRound(t: Table, t1: Table, m: seq<Mask>, q: nat, t': Table)
    requires Fading(t, q) && IsBg(m) && |t1| == RATES && q <= SCALE && t1[0].attempts > 0 && t1[43].attempts > 0
    requires forall j :: 0 <= j < RATES ==> t1[j] == t[j].(attempts := t1[j].attempts)
    requires SameTable(t', RoundTable(t1, m, 7, true))
    ensures Fading(t', Faded(q)) && OnlyUsed(t')
  {
    hide RoundTable, SameTable, Supp, Recalculate, ClearUnfit;
    RoundOf(t1, m, 7, 0, t');
    forall i | 0 <= i < RATES
      ensures t'[i].success == 0 && t'[i].probEwma == (if i == 0 || i == 43 then Faded(q) else 0)
      ensures i == 0 || i == 43 ==> t'[i].attHist > 0
    {
      RoundOf(t1, m, 7, i, t');
      SuppHere(m, i);
      LostWindow(t1[i]);
    }
  }

  lemma LostWindow(r: RateStats)
    requires r.success == 0 && r.probEwma >= 0
    ensures Recalculate(r).success == 0 && (r.attHist > 0 ==> Recalculate(r).attHist > 0)
    ensures r.attempts > 0 && r.attHist > 0 ==> Recalculate(r).probEwma == Faded(r.probEwma)
    ensures r.probEwma == 0 ==> Recalculate(r).probEwma == 0
  {
    assert r.attempts > 0 ==> Frac(0, r.attempts) == 0;
  }

  /** The CCK rate leads the new list, with rate 0 behind it. */
  lemma CckLeads(t: Table, m: seq<Mask>, l: Retransmit.Limits, q: nat)
    requires TableOk(t, m, l) && IsBg(m) && Fading(t, q) && TpAt(43, q) > TpAt(0, q)
    ensures BestRates(Keys(t, m, l, SCALE), m) == [43, 0, 0, 0]
  {
    hide Keys, TableOk, TpAt, Select, InsertAll;
    var k := Keys(t, m, l, SCALE);
    CapsOf(t, m, l);
    KeyOf(t, m, l, 0);
    KeyOf(t, m, l, 43);
    forall i: RateIndex | i != 0 && i != 43 ensures k[i] == Key(0, 0) { IdleKey(t, m, l, i); }
    ScannedListIsTop(k, m, Mcs, RATES);
    ScannedListIsTop(k, m, Cck, RATES);
    var mcs, cck := TopList(k, SelectAll(m, Mcs)), TopList(k, SelectAll(m, Cck));
    assert Picked(m, Cck, 43) && 43 in SelectAll(m, Cck);
    forall j | 0 <= j < DEPTH ensures mcs[j] == 0 {
      assert mcs[j] in mcs;
      NotBetter(k, mcs[j]);
    }
    forall j | 0 <= j < DEPTH ensures cck[j] == 0 || cck[j] == 43 {
      assert cck[j] in cck;
      assert cck[j] == 0 || Picked(m, Cck, cck[j]);
    }
    assert cck[0] == 43 && cck[1] == cck[2] == cck[3] == 0;
    assert mcs == PLACEHOLDERS && cck == [43, 0, 0, 0];
    MergesBehind(k);
  }

  lemma NotBetter(k: seq<Key>, i: nat)
    requires |k| == RATES && i < RATES && k[0].tp >= 0 && k[0].prob >= 0 && (i != 0 ==> k[i] == Key(0, 0))
    ensures !Better(k, i, 0)
  {
  }

  lemma MergesBehind(k: seq<Key>)
    requires |k| == RATES && k[43].tp > k[0].tp
    ensures Merge(k, PLACEHOLDERS, [43, 0, 0, 0]) == [43, 0, 0, 0]
  {
    var list := [43, 0, 0, 0];
    assert Insert(k, PLACEHOLDERS, 43) == list;
    assert Insert(k, list, 0) == list;
    assert list[..1] == [43] && list[..2] == [43, 0] && list[..3] == [43, 0, 0];
    assert [43][..0] == [] && [43, 0][..1] == [43] && [43, 0, 0][..2] == [43, 0];
    assert InsertAll(k, PLACEHOLDERS, [43]) == list;
    assert InsertAll(k, PLACEHOLDERS, [43, 0]) == list;
    assert InsertAll(k, PLACEHOLDERS, [43, 0, 0]) == list;
  }

  /** Our station while both averages fade. */
  ghost predicate FadingAway(s: Station, q: nat, wait: nat)
    reads s
  {
    Rounded(s, 9, PB.Budget(wait, 2, 20)) && s.Published() && Fading(s.rates, q) && LedByCck(s)
  }

  ghost predicate LedByCck(s: Station)
    requires s.Valid()
    reads s
  {
    s.maxTp == LoweredHead(s.rates, [43, 0, 0, 0])
  }

  /** After the round that made the CCK rate lead. */
  lemma CckTakesOver(s: Station, t: Table, n0: Notes, head: RateIndex)
    requires Rounded(s, 9, PB.Budget(10, 2, 20)) && WarmWith(t, Window(1, 1), Window(1, 0), Window(1, 1))
    requires s.RoundDone(t, n0, head, 0, true)
    ensures FadingAway(s, SCALE, 10)
  {
    hide TableOk, SamplerOk, S.IsTable, GroupListOk, RoundTable, BestRates, Keys, TpAt, Laid, Drawn, Station.Published;
    hide Station.RoundDone, Lowered, MaskOk, CapsOk;
    RoundLists(s, t, n0, head, 0);
    RoundAverages(t, s.supported, 0, Window(1, 0), Window(1, 1), s.rates);
    PerfectTps();
    CckLeads(s.rates, s.supported, s.limits, SCALE);
  }

  lemma HeadStays(t: Table, q: nat)
    requires Fading(t, q) && q >= FIFTY_PERCENT
    ensures LoweredHead(t, [43, 0, 0, 0]) == [43, 0, 0, 0]
  {
  }

  /** t is the table after more tries, some of them at rates 0 and 43. */
  ghost predicate LostAtBoth(before: Table, t: Table) {
    && |before| == |t| == RATES && t[0].attempts > 0 && t[43].attempts > 0
    && forall j :: 0 <= j < RATES ==> t[j] == before[j].(attempts := t[j].attempts)
  }

  /** The CCK rate keeps leading after the next window of failures. */
  predicate CckAhead(q: nat) { TpAt(43, Faded(q)) > TpAt(0, Faded(q)) }

  /** A frame lost at both rates of the chain's first two stages. */
  lemma ChainLost(s: Station, t: Table)
    requires s.Valid() && s.ChainOk() && IsBg(s.supported) && s.cckRates == [0, 1, 2, 3] && s.maxRates == 4
    requires s.maxTp == [43, 0, 0, 0]
    requires var slots := CompletionReport(false, ChainSlots(s.chain, [2, 2, 2, 0])).slots;
             Creditable(slots, s.supported, s.cckRates) &&
                 t == Credited(s.rates, slots, s.supported, s.cckRates, 1, 0, 0)
    ensures LostAtBoth(s.rates, t)
  {
    hide TableOk, SamplerOk, S.IsTable, GroupListOk, Positions, Encode, GroupFlags, Decode, Credited, Creditable;
    var slots := CompletionReport(false, ChainSlots(s.chain, [2, 2, 2, 0])).slots;
    LostCredits(s.rates, slots, s.supported, s.cckRates, 0);
    assert slots[0] == TxSlot(Encode(43, s.cckRates), 2, GroupFlags(Group(43))) by { assert s.StageRate(0) == 43; }
    assert slots[1] == TxSlot(Encode(0, s.cckRates), 2, GroupFlags(Group(0))) by { assert s.StageRate(1) == 0; }
    SuppHere(s.supported, 0);
    SuppHere(s.supported, 43);
    EncodeDecode(43, 2, s.supported, s.cckRates);
    EncodeDecode(0, 2, s.supported, s.cckRates);
    assert SlotUsed(slots[1], s.cckRates) by { HtFlags(); }
  }

  lemma HtFlags()
    ensures Group(0) == 0 && GroupFlags(0).mcs
  {
  }

  lemma FadedRound(s: Station, before: Table, t: Table, n0: Notes, head: RateIndex, q: nat)
    requires s.Valid() && IsBg(s.supported) && s.avgAmpduLen == SCALE && |t| == RATES
    requires s.RoundDone(t, n0, head, 7, true)
    requires Fading(before, q) && q <= SCALE && CckAhead(q) && LostAtBoth(before, t)
    ensures Fading(s.rates, Faded(q)) && LedByCck(s) && s.Published()
  {
    hide TableOk, SamplerOk, S.IsTable, GroupListOk, RoundTable, BestRates, Keys, TpAt, Station.Published, Faded;
    hide Station.RoundDone, Lowered, MaskOk, CapsOk;
    RoundLists(s, t, n0, head, 7);
    FadingRound(before, t, s.supported, q, s.rates);
    CckLeads(s.rates, s.supported, s.limits, Faded(q));
  }

  /** An interval in which a frame is lost at every stage of the chain. */
  method LoseFrame(s: Station, ghost q: nat, ghost wait: nat)
    requires FadingAway(s, q, wait) && wait > 0 && FIFTY_PERCENT <= q <= SCALE && CckAhead(q)
    modifies s
    ensures FadingAway(s, Faded(q), wait - 1)
  {
    hide TableOk, CapsOk, SamplerOk, S.IsTable, GroupListOk, Positions, Laid, Drawn, Credited, CompletionReport;
    hide Station.RoundDone, Station.ChainOk, Fading, Station.Acceptable, Lowered, Encode, Creditable, Backed;
    hide ChainSlots, CckAhead, LostAtBoth, Faded;
    ghost var before := s.rates;
    HeadStays(before, q);
    s.ChainReportAcceptable(false, [2, 2, 2, 0]);
    var r := CompletionReport(false, ChainSlots(s.chain, [2, 2, 2, 0]));
    ghost var lost := ReportLost(s, r);
    WaitRounded(s, r, wait);
    ghost var t, n0, head := Finish(s, r, 7, 9, PB.Budget(wait - 1, 2, 20));
    FadedRound(s, before, t, n0, head, q);
  }

  /** The report of such a frame. */
  lemma ReportLost(s: Station, r: Report) returns (t: Table)
    requires s.Valid() && s.ChainOk() && IsBg(s.supported) && s.cckRates == [0, 1, 2, 3] && s.maxRates == 4
    requires s.maxTp == [43, 0, 0, 0] && s.Acceptable(r)
    requires r == CompletionReport(false, ChainSlots(s.chain, [2, 2, 2, 0]))
    ensures Creditable(r.slots, s.supported, s.cckRates)
    ensures t == Credited(s.rates, r.slots, s.supported, s.cckRates, 1, 0, 0) && LostAtBoth(s.rates, t)
  {
    hide TableOk, SamplerOk, S.IsTable, GroupListOk, Positions, Encode, Credited, Creditable, LostAtBoth;
    hide CompletionReport;
    t := Credited(s.rates, r.slots, s.supported, s.cckRates, 1, 0, 0);
    ChainLost(s, t);
  }

  /** The frame itself: the budget waits, so it carries no probe. */
  method WaitRounded(s: Station, ghost r: Report, ghost wait: nat)
    requires Rounded(s, 9, PB.Budget(wait, 2, 20)) && wait > 0 && s.Acceptable(r)
    modifies s
    ensures Rounded(s, 9, PB.Budget(wait - 1, 2, 20)) && s.Acceptable(r) && s.rates == old(s.rates)
  {
    hide TableOk, CapsOk, SamplerOk, S.IsTable, GroupListOk, Positions, Laid, Drawn, Creditable, Backed;
    hide Station.SampledFrom, Station.PlacedFrom, Station.ProbeOk, Station.Requested;
    var p := s.GetRate(false);
  }

  /** The CCK rate of 11 Mbit/s takes over when a round with limit 0 clears rates 1 and 2 and
      leaves its first success alone. Three intervals of lost frames later it is the fastest
      rate still, but below 50%; lowering it ends at CCK slot 0, which the station does not
      support, and that is what it publishes. */
  method PublishUnsupportedCck(limits: Retransmit.Limits) returns (s: Station)
    ensures fresh(s) && s.Valid() && s.Published() && s.maxTp[0] == 40 && !Supp(s.supported, 40)
    ensures s.chain[0].idx == Encode(40, s.cckRates)
  {
    hide IsOurs, WarmWith, Drawn, Station.Valid, Station.RoundDone, TpAt, Running, Rounded, Station.Published;
    s := ProbeBoth(limits);
    Deliver(s, 3, false, 9, PB.Budget(0, 0, 19), Window(1, 1));
    ghost var t, n0, head := Conclude(s, 43, true, 0, 9, PB.Budget(10, 2, 18), Window(1, 1), Window(1, 0), NONE);
    CckTakesOver(s, t, n0, head);
    CckFaster();
    LoseFrame(s, 4096, 10);
    LoseFrame(s, 3072, 9);
    LoseFrame(s, 2304, 8);
    CckSlotZero(s);
  }

  lemma CckFaster()
    ensures Faded(4096) == 3072 && Faded(3072) == 2304 && Faded(2304) == 1728
    ensures CckAhead(4096) && CckAhead(3072) && CckAhead(2304)
  {
  }

  lemma CckSlotZero(s: Station)
    requires FadingAway(s, 1728, 7)
    ensures s.Valid() && s.Published()
    ensures s.maxTp[0] == 40 && !Supp(s.supported, 40) && s.chain[0].idx == Encode(40, s.cckRates)
  {
    hide TableOk, SamplerOk, S.IsTable, GroupListOk, Positions, Encode, Drawn, Laid;
    var t := s.rates;
    assert Lowered(t, 40) == 40;
    assert Lowered(t, 41) == 40;
    assert Lowered(t, 42) == 40;
    assert Lowered(t, 43) == 40;
    assert s.StageRate(0) == 40;
  }

  // ----- a placeholder is published

  /** A VHT station on 20 MHz channels. */
  const VHT20: Caps := Caps(true, true, 0, 0, false, false, false, false, {})

  /** A VHT station has no HT groups, yet what it publishes first is HT slot 0. */
  method PublishUnsupported(limits: Retransmit.Limits, table: seq<int>) returns (s: Station)
    requires S.IsTable(table)
    ensures fresh(s) && s.Valid() && s.Published()
    ensures s.chain[0].flags == GroupFlags(0) && s.chain[0].idx == 0 && !Supp(s.supported, 0)
  {
    hide TableOk, CapsOk, SamplerOk, S.IsTable, StagesOk;
    assert GroupMask(VHT20, VHT0) == HT_MASK != {} && VHT0 != CCK && GroupMask(VHT20, 0) == {};
    s := new Station(VHT20, limits, 4, [0, 1, 2, 3], false, table, true);
    assert s.StageRate(0) == 0 && Encode(0, s.cckRates) == 0;
  }
}
