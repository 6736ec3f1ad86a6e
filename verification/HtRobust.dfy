/** What the scan's choice of the most robust rate amounts to. The rule it is meant to follow
    is to prefer throughput among the rates above 75% success and the success average among
    the others. Shown here: where this is what comes out, and where it is not. */
module HtRobust {
  import opened FixedPoint
  import opened RateStatistics
  import opened RateGroups
  import opened FrameDuration
  import opened TopRates
  import opened HtCaps
  import opened HtTables
  import opened HtSpec
  import Retransmit

  /** Rates the scan compares: supported ones, CCK only while a CCK rate leads. */
  ghost predicate Competes(c: Scan, x: nat)
    requires |c.masks| == GROUPS
  {
    x < RATES && Supp(c.masks, x) && (Group(x) == CCK ==> c.cckHead)
  }

  /** Keys before the scan and after it. */
  ghost function Before(c: Scan): (k: seq<Key>)
    requires ScanOk(c)
    ensures |k| == RATES
  {
    Keys(c.start, c.masks, c.l, c.avgLen)
  }

  ghost function After(c: Scan): (k: seq<Key>)
    requires ScanOk(c)
    ensures |k| == RATES
  {
    RecalcKeepsOk(c.start, c.masks, c.l, RATES);
    Keys(Passed(c.start, RecalcPass(c.masks), RATES), c.masks, c.l, c.avgLen)
  }

  /** Key of rate i once the rates below n are recalculated. */
  ghost function KeyDuring(c: Scan, i: RateIndex, n: nat): Key
    requires ScanOk(c)
  {
    if i < n then After(c)[i] else Before(c)[i]
  }

  predicate Replaces(cand: Key, cur: Key) {
    if cand.prob > SEVENTYFIVE_PERCENT then cand.tp > cur.tp else cand.prob > cur.prob
  }

  /** The choice after the rates below n, from the old choice m on. */
  ghost function Chosen(c: Scan, m: RateIndex, n: nat): (r: RateIndex)
    requires ScanOk(c) && n <= RATES
    ensures r == m || (r < n && Competes(c, r))
  {
    if n == 0 then m
    else
      var cur := Chosen(c, m, n - 1);
      if Competes(c, n - 1) && Replaces(After(c)[n - 1], KeyDuring(c, cur, n)) then n - 1 else cur
  }

  lemma KeysDuring(c: Scan, n: nat, i: RateIndex)
    requires ScanOk(c) && n <= RATES
    ensures var t := Passed(c.start, RecalcPass(c.masks), n);
            TableOk(t, c.masks, c.l) && Keys(t, c.masks, c.l, c.avgLen)[i] == KeyDuring(c, i, n)
  {
    RecalcKeepsOk(c.start, c.masks, c.l, n);
    RecalcKeepsOk(c.start, c.masks, c.l, RATES);
    hide TableOk;
  }

  /** Choice after one more rate. */
  ghost function Next(c: Scan, cur: RateIndex, n: nat): RateIndex
    requires ScanOk(c) && 0 < n <= RATES
  {
    if Competes(c, n - 1) && Replaces(After(c)[n - 1], KeyDuring(c, cur, n)) then n - 1 else cur
  }

  lemma ChosenStep(c: Scan, m: RateIndex, n: nat)
    requires ScanOk(c) && 0 < n <= RATES
    ensures Chosen(c, m, 0) == m && Chosen(c, m, n) == Next(c, Chosen(c, m, n - 1), n)
  {
  }

  lemma NotedChoice(n: Notes, k: seq<Key>, r: RateStats, i: RateIndex, cckHead: bool, startUp: bool)
    requires NotesOk(n) && |k| == RATES
    ensures Noted(n, k, r, i, cckHead, startUp).maxProb ==
            if (Group(i) == CCK ==> cckHead) && Replaces(k[i], k[n.maxProb]) then i else n.maxProb
  {
  }

  /** The scan's notes follow this choice. */
  lemma {:induction false} ChosenIsNoted(c: Scan, n0: Notes, n: nat)
    requires ScanOk(c) && NotesOk(n0) && n <= RATES
    ensures NotesAfter(c, n0, n).maxProb == Chosen(c, n0.maxProb, n)
    decreases n
  {
    hide NotesAfter, Keys, TableOk, ScanOk, After, Before, Chosen, Next, Competes;
    if n == 0 {
      assert NotesAfter(c, n0, 0) == n0 && Chosen(c, n0.maxProb, 0) == n0.maxProb by { NothingNoted(c, n0); }
    } else {
      ChosenIsNoted(c, n0, n - 1);
      ChosenStep(c, n0.maxProb, n);
      NoteIsChoice(c, n0, n);
    }
  }

  lemma NothingNoted(c: Scan, n0: Notes)
    requires ScanOk(c) && NotesOk(n0)
    ensures NotesAfter(c, n0, 0) == n0 && Chosen(c, n0.maxProb, 0) == n0.maxProb
  {
  }

  lemma NoteIsChoice(c: Scan, n0: Notes, n: nat)
    requires ScanOk(c) && NotesOk(n0) && 0 < n <= RATES
    ensures NotesAfter(c, n0, n).maxProb == Next(c, NotesAfter(c, n0, n - 1).maxProb, n)
  {
    if Supp(c.masks, n - 1) {
      var t := Passed(c.start, RecalcPass(c.masks), n);
      RecalcKeepsOk(c.start, c.masks, c.l, n);
      NotesStep(c, n0, n - 1, t);
      var prev := NotesAfter(c, n0, n - 1);
      KeysDuring(c, n, n - 1);
      KeysDuring(c, n, prev.maxProb);
      NotedChoice(prev, Keys(t, c.masks, c.l, c.avgLen), t[n - 1], n - 1, c.cckHead, n - 1 == c.startRate);
      hide NotesAfter, Keys, TableOk, Passed, RecalcPass, ScanOk, After, Before, Noted, MoreRobust, NotesOk;
    }
  }

  /** Rates without a success average do not change the choice. */
  lemma {:induction false} Idle(c: Scan, m: RateIndex, i: nat, n: nat)
    requires ScanOk(c) && i <= n <= RATES && forall j :: i <= j < n ==> After(c)[j].prob == 0
    ensures Chosen(c, m, n) == Chosen(c, m, i)
    decreases n
  {
    hide After, Before, ScanOk, Competes, Chosen;
    if i < n {
      Idle(c, m, i, n - 1);
      ChosenStep(c, m, n);
      KeySane(c, Chosen(c, m, n - 1), n);
    }
  }

  lemma KeySane(c: Scan, i: RateIndex, n: nat)
    requires ScanOk(c)
    ensures KeyDuring(c, i, n).prob >= 0
  {
    RecalcKeepsOk(c.start, c.masks, c.l, RATES);
    assert RateOk(Passed(c.start, RecalcPass(c.masks), RATES)[i], i, c.masks, c.l);
    assert RateOk(c.start[i], i, c.masks, c.l);
  }

  // ----- where the choice is a maximum

  datatype Measure = ByAverage | ByThroughput

  function Value(k: Key, w: Measure): int { if w.ByAverage? then k.prob else k.tp }

  /** All competing rates below n lie on one side of 75%. */
  ghost predicate Uniform(c: Scan, w: Measure, n: nat)
    requires ScanOk(c) && n <= RATES
  {
    forall x :: 0 <= x < n && Competes(c, x) ==> (After(c)[x].prob > SEVENTYFIVE_PERCENT <==> w.ByThroughput?)
  }

  /** A rate is noticed if it is scanned no earlier than the old choice, or beats what was
      known of the old choice before its recalculation. */
  ghost predicate Noticed(c: Scan, m: RateIndex, w: Measure, x: nat)
    requires ScanOk(c)
  {
    Competes(c, x) && (x >= m || Value(After(c)[x], w) > Value(Before(c)[m], w))
  }

  ghost predicate NoneEarly(c: Scan, m: RateIndex, w: Measure, n: nat)
    requires ScanOk(c)
  {
    forall x :: 0 <= x < n && x < m ==> !Noticed(c, m, w, x)
  }

  /** No noticed rate below n beats the choice; the old choice is beaten or still it. */
  ghost predicate Leads(c: Scan, m: RateIndex, w: Measure, n: nat, r: RateIndex)
    requires ScanOk(c)
  {
    && (forall x :: 0 <= x < n && Noticed(c, m, w, x) ==> Value(After(c)[x], w) <= Value(KeyDuring(c, r, n), w))
    && (r == m || Noticed(c, m, w, r))
    && (NoneEarly(c, m, w, n) ==> if n <= m then r == m else Value(After(c)[m], w) <= Value(KeyDuring(c, r, n), w))
    && (r == m && n <= m ==> NoneEarly(c, m, w, n))
  }

  lemma {:induction false} ChosenLeads(c: Scan, m: RateIndex, w: Measure, n: nat)
    requires ScanOk(c) && n <= RATES && Uniform(c, w, n)
    ensures Leads(c, m, w, n, Chosen(c, m, n))
    decreases n
  {
    hide ScanOk, After, Before, Competes, Chosen, Leads, Next, Uniform;
    if n == 0 {
      NobodyLeads(c, m, w);
    } else {
      UniformBelow(c, w, n);
      ChosenLeads(c, m, w, n - 1);
      ChosenStep(c, m, n);
      NextLeads(c, m, w, n, Chosen(c, m, n - 1));
    }
  }

  lemma NobodyLeads(c: Scan, m: RateIndex, w: Measure)
    requires ScanOk(c)
    ensures Chosen(c, m, 0) == m && Leads(c, m, w, 0, m)
  {
  }

  lemma UniformBelow(c: Scan, w: Measure, n: nat)
    requires ScanOk(c) && 0 < n <= RATES && Uniform(c, w, n)
    ensures Uniform(c, w, n - 1)
  {
  }

  lemma NextLeads(c: Scan, m: RateIndex, w: Measure, n: nat, cur: RateIndex)
    requires ScanOk(c) && 0 < n <= RATES && Uniform(c, w, n) && Leads(c, m, w, n - 1, cur) && (cur == m || cur < n - 1)
    ensures Leads(c, m, w, n, Next(c, cur, n))
  {
    hide TableOk, After, Before, Competes, Uniform, Leads;
    if Competes(c, n - 1) && Replaces(After(c)[n - 1], KeyDuring(c, cur, n)) {
      NewLeads(c, m, w, n, cur);
    } else {
      StillLeads(c, m, w, n, cur);
    }
  }

  lemma NewLeads(c: Scan, m: RateIndex, w: Measure, n: nat, cur: RateIndex)
    requires ScanOk(c) && 0 < n <= RATES && Uniform(c, w, n) && Leads(c, m, w, n - 1, cur)
    requires Competes(c, n - 1) && Replaces(After(c)[n - 1], KeyDuring(c, cur, n)) && (cur == m || cur < n - 1)
    ensures Leads(c, m, w, n, n - 1)
  {
    hide ScanOk, After, Before, Competes;
    assert KeyDuring(c, cur, n) == KeyDuring(c, cur, n - 1);
    assert Value(After(c)[n - 1], w) > Value(KeyDuring(c, cur, n), w);
    assert Noticed(c, m, w, n - 1);
  }

  lemma StillLeads(c: Scan, m: RateIndex, w: Measure, n: nat, cur: RateIndex)
    requires ScanOk(c) && 0 < n <= RATES && Uniform(c, w, n) && Leads(c, m, w, n - 1, cur)
    requires !(Competes(c, n - 1) && Replaces(After(c)[n - 1], KeyDuring(c, cur, n))) && (cur == m || cur < n - 1)
    ensures Leads(c, m, w, n, cur)
  {
    hide ScanOk, After, Before, Competes;
  }

  /** x is best among the competing rates. */
  ghost predicate Greatest(c: Scan, w: Measure, x: RateIndex)
    requires ScanOk(c)
  {
    forall y :: 0 <= y < RATES && Competes(c, y) ==> Value(After(c)[y], w) <= Value(After(c)[x], w)
  }

  /** If all competing rates lie on one side of 75%, the scan ends at a greatest one exactly
      when a greatest one is the old choice or is noticed: what is missed are rates scanned
      before the old choice that do not beat its outdated key although they beat its new one. */
  lemma ChosenIsGreatestIff(c: Scan, m: RateIndex, w: Measure)
    requires ScanOk(c) && Uniform(c, w, RATES)
    ensures Greatest(c, w, Chosen(c, m, RATES)) <==>
            exists x: RateIndex :: (x == m || Noticed(c, m, w, x)) && Greatest(c, w, x)
  {
    hide ScanOk, After, Before, Competes, Chosen, Uniform;
    ChosenLeads(c, m, w, RATES);
    var r := Chosen(c, m, RATES);
    if x: RateIndex :| (x == m || Noticed(c, m, w, x)) && Greatest(c, w, x) {
      if NoneEarly(c, m, w, RATES) {
        assert Value(After(c)[x], w) <= Value(After(c)[r], w);
      } else {
        var e :| 0 <= e < RATES && e < m && Noticed(c, m, w, e);
        assert Value(After(c)[e], w) <= Value(After(c)[r], w);
      }
    }
  }

  /** In particular, when the old choice has not lost by its recalculation. */
  lemma SettledChoiceIsGreatest(c: Scan, m: RateIndex, w: Measure)
    requires ScanOk(c) && Uniform(c, w, RATES) && Value(After(c)[m], w) >= Value(Before(c)[m], w)
    ensures Greatest(c, w, Chosen(c, m, RATES))
  {
    var r := Chosen(c, m, RATES);
    ChosenLeads(c, m, w, RATES);
    hide ScanOk, After, Before, Competes, Chosen;
    forall y | 0 <= y < RATES && Competes(c, y) ensures Value(After(c)[y], w) <= Value(After(c)[r], w) {
      if !Noticed(c, m, w, y) {
        assert Value(After(c)[y], w) <= Value(Before(c)[m], w);
        if !NoneEarly(c, m, w, RATES) {
          var e :| 0 <= e < RATES && e < m && Noticed(c, m, w, e);
          assert Value(After(c)[e], w) <= Value(After(c)[r], w);
        }
      }
    }
  }

  // ----- both sides of 75%

  /** f is above 75% and faster than every other competing rate that is not, and so than the
      old choice when it is looked at. */
  ghost predicate Outstanding(c: Scan, m: RateIndex, f: RateIndex)
    requires ScanOk(c)
  {
    && Competes(c, f) && After(c)[f].prob > SEVENTYFIVE_PERCENT
    && (forall y :: 0 <= y < RATES && Competes(c, y) ==> AtMost(After(c)[y], After(c)[f]))
    && if m > f then Before(c)[m].tp < After(c)[f].tp else AtMost(After(c)[m], After(c)[f])
  }

  predicate AtMost(k: Key, top: Key) { k.tp < top.tp || (k.tp == top.tp && k.prob > SEVENTYFIVE_PERCENT) }

  lemma {:induction false} OutstandingLeads(c: Scan, m: RateIndex, f: RateIndex, n: nat)
    requires ScanOk(c) && n <= RATES && Outstanding(c, m, f)
    ensures var r := Chosen(c, m, n);
            n > f ==> r < n && After(c)[r].tp == After(c)[f].tp && After(c)[r].prob > SEVENTYFIVE_PERCENT
    decreases n
  {
    hide ScanOk, After, Before, Competes, Chosen, Outstanding, Next;
    if n > 0 {
      OutstandingLeads(c, m, f, n - 1);
      ChosenStep(c, m, n);
      OutstandingStep(c, m, f, n, Chosen(c, m, n - 1));
    }
  }

  lemma OutstandingStep(c: Scan, m: RateIndex, f: RateIndex, n: nat, cur: RateIndex)
    requires ScanOk(c) && 0 < n <= RATES && Outstanding(c, m, f)
    requires cur == m || (cur < n - 1 && Competes(c, cur))
    requires n - 1 > f ==> cur < n - 1 && After(c)[cur].tp == After(c)[f].tp && After(c)[cur].prob > SEVENTYFIVE_PERCENT
    ensures var r := Next(c, cur, n);
            n > f ==> r < n && After(c)[r].tp == After(c)[f].tp && After(c)[r].prob > SEVENTYFIVE_PERCENT
  {
    hide ScanOk, After, Before, Competes;
  }

  /** If the fastest rate above 75% is faster than all others, the scan ends at it or at an
      equally fast rate above 75%. */
  lemma FastestReliableWins(c: Scan, m: RateIndex, f: RateIndex)
    requires ScanOk(c) && Outstanding(c, m, f)
    ensures var r := Chosen(c, m, RATES);
            After(c)[r].tp == After(c)[f].tp && After(c)[r].prob > SEVENTYFIVE_PERCENT && Greatest(c, ByThroughput, r)
  {
    OutstandingLeads(c, m, f, RATES);
    hide ScanOk, After, Before, Competes, Chosen;
  }

  // ----- where the rule is missed

  const HT_ONLY: seq<Mask> := [HT_MASK, HT_MASK, HT_MASK, HT_MASK, {}, {}, {}, {}, {}, {}, {}]

  function TableOf(used: map<nat, RateStats>): (t: Table)
    ensures |t| == RATES
  {
    seq(RATES, i requires 0 <= i < RATES => if i in used then used[i] else FRESH)
  }

  /** A rate after a window of 4096 tries with the given successes, recalculated or not. */
  function Tried(n: nat): RateStats { Credit(FRESH, SCALE, n) }

  /** A rate whose first window has been recalculated and whose second one is open. */
  function TriedTwice(n: nat, n': nat): RateStats { Credit(Recalculate(Tried(n)), SCALE, n') }

  lemma TriedIs(n: nat, n': nat)
    requires n <= SCALE && n' <= SCALE
    ensures Sane(Tried(n)) && Sane(TriedTwice(n, n')) && TriedTwice(n, n').probEwma == n
    ensures Recalculate(Tried(n)).probEwma == n && Recalculate(TriedTwice(n, n')).probEwma == Ewma(n, n')
    ensures !Tried(n).retryUpdated && !TriedTwice(n, n').retryUpdated
  {
    FracOfScale(n);
    FracOfScale(n');
    ApplyKeepsSane(Tried(n).(retryUpdated := false), Recalculated);
    ApplyKeepsSane(Recalculate(Tried(n)), RateStatistics.Event.Report(SCALE, n'));
  }

  /** Successes of the used rates in two windows of 4096 tries each. */
  type Windows = map<nat, (nat, nat)>

  function First(w: Windows): map<nat, RateStats> { map i | i in w :: Tried(w[i].0) }
  function Second(w: Windows): map<nat, RateStats> { map i | i in w :: TriedTwice(w[i].0, w[i].1) }

  ghost predicate WindowsOk(w: Windows) {
    forall i :: i in w ==> i < RATES && Supp(HT_ONLY, i) && w[i].0 <= SCALE && w[i].1 <= SCALE
  }

  /** An HT station with some used rates. */
  function ScanOf(l: Retransmit.Limits, used: map<nat, RateStats>): Scan {
    Scan(TableOf(used), HT_ONLY, l, SCALE, false, -1)
  }

  lemma ScanOfOk(l: Retransmit.Limits, used: map<nat, RateStats>)
    requires forall i :: i in used ==> i < RATES && Supp(HT_ONLY, i) && Sane(used[i]) && !used[i].retryUpdated
    ensures ScanOk(ScanOf(l, used))
  {
    assert HT_ONLY[0] != {};
    forall g | 0 <= g < GROUPS ensures MaskOk(g, HT_ONLY[g]) {
      forall u, v | v in HT_ONLY[g] && 0 <= u <= v ensures u in HT_ONLY[g] { }
    }
  }

  /** Keys at the ends of such a scan. */
  lemma KeysOf(l: Retransmit.Limits, used: map<nat, RateStats>, i: RateIndex)
    requires ScanOk(ScanOf(l, used))
    ensures var c := ScanOf(l, used);
            && Before(c)[i].prob == c.start[i].probEwma
            && After(c)[i].prob == (if Supp(HT_ONLY, i) then Recalculate(c.start[i]) else c.start[i]).probEwma
            && (i !in used ==> After(c)[i] == Key(0, 0))
  {
  }

  lemma FracOfScale(n: nat)
    requires n < 0x10_0000
    ensures Frac(n, SCALE) == n
  {
  }

  /** Averages before and after the two scans that end the windows. */
  lemma WindowKeys(l: Retransmit.Limits, w: Windows)
    requires WindowsOk(w)
    ensures var c, c' := ScanOf(l, First(w)), ScanOf(l, Second(w));
            && ScanOk(c) && ScanOk(c')
            && forall i: RateIndex ::
                 && (i in w ==> After(c)[i].prob == Before(c')[i].prob == w[i].0)
                 && (i in w ==> After(c')[i].prob == Ewma(w[i].0, w[i].1))
                 && (i in w ==> Competes(c, i) && Competes(c', i))
                 && (i !in w ==> After(c)[i] == After(c')[i] == Key(0, 0))
  {
    hide After, Before, ScanOk, Tried, TriedTwice, Recalculate, Sane;
    forall i | i in w
      ensures Sane(First(w)[i]) && Sane(Second(w)[i]) && !First(w)[i].retryUpdated && !Second(w)[i].retryUpdated
    {
      TriedIs(w[i].0, w[i].1);
    }
    ScanOfOk(l, First(w));
    ScanOfOk(l, Second(w));
    var c, c' := ScanOf(l, First(w)), ScanOf(l, Second(w));
    forall i: RateIndex
      ensures i in w ==> After(c)[i].prob == Before(c')[i].prob == w[i].0
      ensures i in w ==> After(c')[i].prob == Ewma(w[i].0, w[i].1)
      ensures i !in w ==> After(c)[i] == After(c')[i] == Key(0, 0)
    {
      if i in w { TriedIs(w[i].0, w[i].1); }
      KeysOf(l, First(w), i);
      KeysOf(l, Second(w), i);
    }
  }

  /** All rates stay below 75%. Rate 5 succeeds in 2000 tries of each window, rate 7 in 2500 and
      then in none. After the first window rate 7 is the choice; after the second it still is,
      although it has fallen to 1875, because rate 5 was compared with the outdated 2500. */
  lemma OutdatedChoiceStays(l: Retransmit.Limits) returns (w: Windows)
    ensures WindowsOk(w)
    ensures var c, c' := ScanOf(l, First(w)), ScanOf(l, Second(w));
            && ScanOk(c) && ScanOk(c') && Uniform(c', ByAverage, RATES)
            && Chosen(c, 0, RATES) == 7 && Chosen(c', 7, RATES) == 7
            && Competes(c', 5) && After(c')[5].prob == 2000 && After(c')[7].prob == 1875
  {
    hide After, Before, ScanOk, Chosen, ScanOf, First, Second, Competes;
    w := map[5 := (2000, 2000), 7 := (2500, 0)];
    WindowKeys(l, w);
    var c, c' := ScanOf(l, First(w)), ScanOf(l, Second(w));
    assert After(c')[7].prob == 1875;
    TwoUsed(c, 0);
    TwoUsed(c', 7);
  }

  /** A scan in which only rates 5 and 7 have been used. */
  lemma TwoUsed(c: Scan, m: RateIndex)
    requires ScanOk(c) && forall i: RateIndex :: i != 5 && i != 7 ==> After(c)[i].prob == 0
    ensures Chosen(c, m, RATES) == Next(c, Next(c, m, 6), 8)
  {
    hide After, Before, ScanOk, Chosen, Next;
    ChosenStep(c, m, 6);
    ChosenStep(c, m, 8);
    Idle(c, m, 0, 5);
    Idle(c, m, 6, 7);
    Idle(c, m, 8, RATES);
  }

  /** Rate 14 is above 75%. It is not taken because rate 7, below 75%, is faster; in the second
      scan rate 20, also below 75%, displaces rate 7. That scan ends at a rate that is slower
      and less reliable than rate 14. */
  lemma MixedScanMisses(l: Retransmit.Limits) returns (w: Windows)
    ensures WindowsOk(w)
    ensures var c, c' := ScanOf(l, First(w)), ScanOf(l, Second(w));
            && ScanOk(c) && ScanOk(c') && Chosen(c, 0, RATES) == 7 && Chosen(c', 7, RATES) == 20
            && Competes(c', 14) && After(c')[14].prob > SEVENTYFIVE_PERCENT >= After(c')[20].prob
            && After(c')[14].tp > After(c')[20].tp
  {
    hide After, Before, ScanOk, Chosen, ScanOf, First, Second, Duration, Competes, KeyDuring;
    hide WindowsOk, Supp;
    w := map[7 := (2900, 2900), 14 := (3300, 3300), 20 := (2700, 3900)];
    MixedWindows(w);
    WindowKeys(l, w);
    var c, c' := ScanOf(l, First(w)), ScanOf(l, Second(w));
    assert After(c')[20].prob == 3000;
    MixedTps(l, c, First(w), 2700);
    MixedTps(l, c', Second(w), 3000);
    MixedChoice(c, 0);
    MixedChoice(c', 7);
  }

  lemma MixedWindows(w: Windows)
    requires w.Keys == {7, 14, 20} && forall i :: i in w ==> w[i].0 <= SCALE && w[i].1 <= SCALE
    ensures WindowsOk(w)
  {
  }

  lemma MixedChoice(c: Scan, m: RateIndex)
    requires ScanOk(c) && (m == 0 || m == 7) && Competes(c, 7) && Competes(c, 14) && Competes(c, 20)
    requires forall i: RateIndex :: i != 7 && i != 14 && i != 20 ==> After(c)[i] == Key(0, 0)
    requires After(c)[7] == Key(23, 2900) && After(c)[14] == Key(17, 3300) && After(c)[20].prob <= SEVENTYFIVE_PERCENT
    ensures Chosen(c, m, RATES) == if After(c)[20].prob > 2900 then 20 else 7
  {
    hide After, Before, ScanOk, Chosen, Competes;
    ThreeUsed(c, m);
  }

  lemma ThreeUsed(c: Scan, m: RateIndex)
    requires ScanOk(c) && forall i: RateIndex :: i != 7 && i != 14 && i != 20 ==> After(c)[i].prob == 0
    ensures Chosen(c, m, RATES) == Next(c, Next(c, Next(c, m, 8), 15), 21)
  {
    hide After, Before, ScanOk, Chosen, Next;
    ChosenStep(c, m, 8);
    ChosenStep(c, m, 15);
    ChosenStep(c, m, 21);
    Idle(c, m, 0, 7);
    Idle(c, m, 8, 14);
    Idle(c, m, 15, 20);
    Idle(c, m, 21, RATES);
  }

  /** Throughput of a used rate after the scan of unaggregated frames. */
  lemma TpOf(l: Retransmit.Limits, used: map<nat, RateStats>, i: RateIndex)
    requires ScanOk(ScanOf(l, used)) && Supp(HT_ONLY, i)
    ensures var k := After(ScanOf(l, used))[i];
            TEN_PERCENT <= k.prob <= NINETY_PERCENT ==>
                k.tp == 100 * Quot(k.prob * 1000000, 108000 + Duration(i)) / SCALE
  {
    var c := ScanOf(l, used);
    KeysOf(l, used, i);
    RecalcKeepsOk(c.start, c.masks, c.l, RATES);
    KeyIsExact(Passed(c.start, RecalcPass(c.masks), RATES), c.masks, c.l, c.avgLen, i);
    OverheadIs();
  }

  lemma MixedTps(l: Retransmit.Limits, c: Scan, used: map<nat, RateStats>, last: nat)
    requires c == ScanOf(l, used) && ScanOk(c) && After(c)[7].prob == 2900 && After(c)[14].prob == 3300
    requires After(c)[20].prob == last && 2700 <= last <= 3000
    ensures After(c)[7].tp == 23 && After(c)[14].tp == 17 && After(c)[20].tp <= 5
  {
    hide After, ScanOk, Duration, ScanOf;
    TpOf(l, used, 7);
    TpOf(l, used, 14);
    TpOf(l, used, 20);
    MixedTimes();
    DivMono(last * 1000000, 3000 * 1000000, 108000 + Duration(20), 108000 + Duration(20));
  }

  lemma MixedTimes()
    ensures 100 * Quot(2900 * 1000000, 108000 + Duration(7)) / SCALE == 23
    ensures 100 * Quot(3300 * 1000000, 108000 + Duration(14)) / SCALE == 17
    ensures 100 * Quot(3000 * 1000000, 108000 + Duration(20)) / SCALE == 5
  {
    assert Duration(7) == 2954000;
    assert Duration(14) == 4430975;
    assert Duration(20) == 14222250;
  }
}
