/** Whole runs of the legacy controller over its sampling table: when the ten percent hold,
    and how far deferred probes can exceed them. */
module LegacyRuns {
  import ST = SampleTable
  import LB = LegacyBudget

  // ----- sampling order

  ghost predicate TableOk(table: seq<int>, n: nat) {
    && 1 <= n <= 255 && |table| == n * ST.COLUMNS
    && forall col :: 0 <= col < ST.COLUMNS ==> ST.IsPermutation(ST.Column(table, ST.Strided, n, col))
  }

  function NextRow(row: nat, n: nat): nat { if row + 1 >= n then 0 else row + 1 }

  function NextColumn(row: nat, col: nat, n: nat): nat {
    if row + 1 < n then col else if col + 1 >= ST.COLUMNS then 0 else col + 1
  }

  /** k consecutive samples from a position on. */
  ghost function Samples(table: seq<int>, n: nat, row: nat, col: nat, k: nat): seq<int>
    requires TableOk(table, n) && row < n && col < ST.COLUMNS
    decreases k
  {
    if k == 0 then []
    else
      ST.ColumnAt(table, ST.Strided, n, col, row);
      [table[row * 10 + col]] + Samples(table, n, NextRow(row, n), NextColumn(row, col, n), k - 1)
  }

  lemma {:induction false} SamplesAre(table: seq<int>, n: nat, row: nat, col: nat, k: nat)
    requires TableOk(table, n) && row < n && col < ST.COLUMNS && row + k <= n
    ensures Samples(table, n, row, col, k) == ST.Column(table, ST.Strided, n, col)[row..row + k]
    decreases k
  {
    if k > 0 {
      var c := ST.Column(table, ST.Strided, n, col);
      ST.ColumnAt(table, ST.Strided, n, col, row);
      if k > 1 {
        SamplesAre(table, n, row + 1, col, k - 1);
      }
      assert c[row..row + k] == [c[row]] + c[row + 1..row + k];
    }
  }

  /** From the top of any column, as many calls as there are rates return every rate once. */
  lemma EveryRateOnce(table: seq<int>, n: nat, col: nat)
    requires TableOk(table, n) && col < ST.COLUMNS
    ensures ST.IsPermutation(Samples(table, n, 0, col, n)) && |Samples(table, n, 0, col, n)| == n
  {
    var c := ST.Column(table, ST.Strided, n, col);
    SamplesAre(table, n, 0, col, n);
    assert c[0..n] == c;
  }

  /** The position moves on by one through the whole table, column by column. */
  lemma NextIsSuccessor(row: nat, col: nat, n: nat)
    requires row < n && col < 10
    ensures NextRow(row, n) < n && NextColumn(row, col, n) < 10
    ensures NextColumn(row, col, n) * n + NextRow(row, n) ==
            if row + 1 == n && col == 9 then 0 else col * n + row + 1
  {
  }

  /** Samples up to the end of a column, then from the top of the next one. */
  lemma {:induction false} SamplesSplit(table: seq<int>, n: nat, row: nat, col: nat, k: nat, m: nat)
    requires TableOk(table, n) && row < n && col < ST.COLUMNS && row + k == n
    ensures Samples(table, n, row, col, k + m) ==
            Samples(table, n, row, col, k) + Samples(table, n, 0, if col == 9 then 0 else col + 1, m)
    decreases k
  {
    hide TableOk, Samples;
    SamplesStep(table, n, row, col, k - 1);
    SamplesStep(table, n, row, col, k - 1 + m);
    if k > 1 {
      SamplesSplit(table, n, row + 1, col, k - 1, m);
    }
  }

  lemma SamplesStep(table: seq<int>, n: nat, row: nat, col: nat, k: nat)
    requires TableOk(table, n) && row < n && col < ST.COLUMNS
    ensures NextRow(row, n) < n && NextColumn(row, col, n) < ST.COLUMNS && row * 10 + col < |table|
    ensures Samples(table, n, row, col, k + 1) ==
            [table[row * 10 + col]] + Samples(table, n, NextRow(row, n), NextColumn(row, col, n), k)
    ensures Samples(table, n, row, col, 0) == []
    ensures Samples(table, n, NextRow(row, n), NextColumn(row, col, n), 0) == []
  {
    ST.ColumnAt(table, ST.Strided, n, col, row);
  }

  /** From the top of any column, m times as many draws as there are rates return every rate
      exactly m times. */
  lemma {:induction false} EveryRateEvenly(table: seq<int>, n: nat, col: nat, m: nat, v: nat)
    requires TableOk(table, n) && col < ST.COLUMNS && v < n
    ensures multiset(Samples(table, n, 0, col, Times(m, n)))[v] == m
    decreases m
  {
    hide TableOk, Samples, ST.IsPermutation, Times;
    if m == 0 {
      NoSamples(table, n, col);
    } else {
      var next := if col == 9 then 0 else col + 1;
      TimesStep(m, n);
      SamplesSplit(table, n, 0, col, n, Times(m - 1, n));
      EveryRateEvenly(table, n, next, m - 1, v);
      EveryRateOnce(table, n, col);
      OccursOnce(Samples(table, n, 0, col, n), v);
      JoinedCount(Samples(table, n, 0, col, n), Samples(table, n, 0, next, Times(m - 1, n)), v);
    }
  }

  lemma NoSamples(table: seq<int>, n: nat, col: nat)
    requires TableOk(table, n) && col < ST.COLUMNS
    ensures Times(0, n) == 0 && Samples(table, n, 0, col, 0) == []
  {
  }

  lemma JoinedCount(s: seq<int>, t: seq<int>, v: int)
    ensures multiset(s + t)[v] == multiset(s)[v] + multiset(t)[v]
  {
  }

  function Times(a: nat, b: nat): nat { a * b }

  lemma TimesStep(m: nat, n: nat)
    requires m > 0
    ensures Times(m, n) == n + Times(m - 1, n)
  {
  }

  lemma OccursOnce(s: seq<int>, v: int)
    requires ST.IsPermutation(s) && 0 <= v < |s|
    ensures multiset(s)[v] == 1
  {
    assert v in s;
    var i :| 0 <= i < |s| && s[i] == v;
    forall j | 0 <= j < |s| && j != i ensures s[j] != v { }
    OnlyAt(s, v, i);
  }

  lemma OnlyAt(s: seq<int>, v: int, i: nat)
    requires i < |s| && s[i] == v && forall j :: 0 <= j < |s| && j != i ==> s[j] != v
    ensures multiset(s)[v] == 1
  {
    var a, b := s[..i], s[i + 1..];
    assert v !in a && v !in b;
    assert s == (a + [v]) + b;
    JoinedCount(a + [v], b, v);
    JoinedCount(a, [v], v);
  }

  // ----- runs of one station

  /** What a run does not change: the table and the air time of every rate. */
  datatype Setup = Setup(table: seq<int>, n: nat, times: seq<nat>)

  /** limits: how often each rate may still be probed directly, below zero without limit;
      best: the rate the controller sends with. */
  datatype State = State(b: LB.Budget, row: nat, col: nat, limits: seq<int>, best: nat)

  /** Rows of the table; without any rate the first, zeroed row is read. */
  function Rows(n: nat): (r: nat)
    ensures r >= 1 && n <= r
  {
    if n == 0 then 1 else n
  }

  ghost predicate SetupOk(c: Setup) {
    TableOk(c.table, Rows(c.n)) && Rows(c.n) <= |c.times|
  }

  ghost predicate At(c: Setup, s: State) {
    s.row < Rows(c.n) && s.col < ST.COLUMNS && |s.limits| == |c.times| && s.best < Rows(c.n)
  }

  ghost function Fresh(c: Setup, best: nat): State {
    State(LB.START, 0, 0, seq(|c.times|, i => if i < c.n then -1 else 0), best)
  }

  /** The table entry at the current position. */
  ghost function Drawn(c: Setup, s: State): (d: nat)
    requires SetupOk(c) && At(c, s)
    ensures d < Rows(c.n) && s.row * 10 + s.col < |c.table| && d == c.table[s.row * 10 + s.col]
    ensures d == ST.Column(c.table, ST.Strided, Rows(c.n), s.col)[s.row]
  {
    ST.ColumnAt(c.table, ST.Strided, Rows(c.n), s.col, s.row);
    c.table[s.row * 10 + s.col]
  }

  ghost predicate Slower(c: Setup, best: nat, i: nat)
    requires SetupOk(c) && best < Rows(c.n)
  {
    i < Rows(c.n) && c.times[i] > c.times[best]
  }

  ghost function PickAt(c: Setup, s: State): LB.Pick
    requires SetupOk(c) && At(c, s)
  {
    var d := Drawn(c, s);
    if Slower(c, s.best, d) then LB.Later else if s.limits[d] == 0 then LB.Exhausted else LB.Now
  }

  /** One frame: the budget decides whether an entry is drawn, the entry decides the probe. */
  ghost function OnFrame(c: Setup, s: State): (r: (State, LB.Outcome))
    requires SetupOk(c) && At(c, s)
    ensures At(c, r.0)
  {
    var (b, o) := LB.OnGetRate(s.b, c.n, PickAt(c, s));
    if !LB.MaySample(s.b) then (s.(b := b), o)
    else
      var d := Drawn(c, s);
      var left := if o.DirectProbe? && s.limits[d] > 0 then s.limits[d := s.limits[d] - 1] else s.limits;
      (State(b, NextRow(s.row, c.n), NextColumn(s.row, s.col, c.n), left, s.best), o)
  }

  /** Updated: a statistics update that sets the best rate and the limits anew. */
  datatype Event = Frame | Report | Updated(best: nat, limits: seq<int>)

  ghost function Step(c: Setup, s: State, e: Event): (r: (State, LB.Outcome))
    requires SetupOk(c) && At(c, s)
    ensures At(c, r.0)
  {
    match e
    case Frame => OnFrame(c, s)
    case Report => (s.(b := LB.OnStatus(s.b, false)), LB.Plain)
    case Updated(best, limits) =>
      (if best < Rows(c.n) && |limits| == |s.limits| then s.(best := best, limits := limits) else s, LB.Plain)
  }

  /** State and number of probes after a run. */
  ghost function Run(c: Setup, s: State, es: seq<Event>): (r: (State, nat))
    requires SetupOk(c) && At(c, s)
    ensures At(c, r.0)
    decreases |es|
  {
    if es == [] then (s, 0)
    else
      var (s1, k) := Run(c, s, es[..|es| - 1]);
      var (s2, o) := Step(c, s1, es[|es| - 1]);
      (s2, k + if o.Plain? then 0 else 1)
  }

  function Frames(es: seq<Event>): nat
    decreases |es|
  {
    if es == [] then 0 else Frames(es[..|es| - 1]) + if es[|es| - 1].Frame? then 1 else 0
  }

  lemma RunSnoc(c: Setup, s: State, es: seq<Event>, e: Event)
    requires SetupOk(c) && At(c, s)
    ensures var (s1, k) := Run(c, s, es);
            var (s2, o) := Step(c, s1, e);
            Run(c, s, es + [e]) == (s2, k + if o.Plain? then 0 else 1)
    ensures Frames(es + [e]) == Frames(es) + if e.Frame? then 1 else 0
  {
    hide SetupOk, OnFrame;
    assert (es + [e])[..|es|] == es;
  }

  // ----- direct probes of one rate

  /** Frames of a run that probe rate i directly. */
  ghost function DirectProbes(c: Setup, s: State, es: seq<Event>, i: nat): nat
    requires SetupOk(c) && At(c, s)
    decreases |es|
  {
    if es == [] then 0
    else
      var front, e := es[..|es| - 1], es[|es| - 1];
      var s1 := Run(c, s, front).0;
      DirectProbes(c, s, front, i) + if Step(c, s1, e).1.DirectProbe? && Drawn(c, s1) == i then 1 else 0
  }

  /** One step other than an update takes one off the limit of the rate it probes directly. */
  lemma StepSpends(c: Setup, s: State, e: Event, i: nat)
    requires SetupOk(c) && At(c, s) && i < |s.limits| && !e.Updated?
    ensures var (s', o) := Step(c, s, e);
            s'.limits[i] == s.limits[i] - if o.DirectProbe? && Drawn(c, s) == i && s.limits[i] >= 0 then 1 else 0
    ensures Step(c, s, e).1.DirectProbe? && Drawn(c, s) == i ==> s.limits[i] != 0
  {
    hide SetupOk, LB.MaySample, LB.Settle;
  }

  /** Between updates a limited rate uses up its limit probe by probe, and an unlimited one
      stays unlimited. */
  lemma {:induction false} LimitIsSpent(c: Setup, s: State, es: seq<Event>, i: nat)
    requires SetupOk(c) && At(c, s) && i < |s.limits| && forall k :: 0 <= k < |es| ==> !es[k].Updated?
    ensures var left := Run(c, s, es).0.limits[i];
            if s.limits[i] < 0 then left == s.limits[i]
            else left >= 0 && DirectProbes(c, s, es, i) + left == s.limits[i]
    decreases |es|
  {
    if es != [] {
      var front := es[..|es| - 1];
      LimitIsSpent(c, s, front, i);
      StepSpends(c, Run(c, s, front).0, es[|es| - 1], i);
      hide SetupOk, Step, Drawn;
    }
  }

  /** So an update that limits a rate to 100 grants it at most 100 direct probes until the next
      one. */
  lemma HundredBetweenUpdates(c: Setup, s: State, best: nat, limits: seq<int>, es: seq<Event>, i: nat)
    requires SetupOk(c) && At(c, s) && best < Rows(c.n) && |limits| == |s.limits| && i < |limits|
    requires limits[i] == 100 && forall k :: 0 <= k < |es| ==> !es[k].Updated?
    ensures var s1 := Step(c, s, Updated(best, limits)).0;
            DirectProbes(c, s1, es, i) <= 100 &&
                (Run(c, s1, es).0.limits[i] == 0 <==> DirectProbes(c, s1, es, i) == 100)
  {
    LimitIsSpent(c, Step(c, s, Updated(best, limits)).0, es, i);
  }

  // ----- a run seen from the budget alone

  /** The budget events a run gives rise to, with the picks its table dictates. */
  ghost function Trace(c: Setup, s: State, es: seq<Event>): seq<LB.Event>
    requires SetupOk(c) && At(c, s)
    decreases |es|
  {
    if es == [] then []
    else
      var front := es[..|es| - 1];
      Trace(c, s, front) +
      match es[|es| - 1]
      case Frame => [LB.GetRate(PickAt(c, Run(c, s, front).0))]
      case Report => [LB.Status]
      case Updated(_, _) => []
  }

  lemma TraceSnoc(n: nat, t: seq<LB.Event>, e: LB.Event)
    ensures var (b, _, all) := LB.Run(n, t);
            var (b', o) := LB.Step(b, n, e);
            LB.Run(n, t + [e]).0 == b' && LB.Run(n, t + [e]).2 == all + if o.Plain? then 0 else 1
    ensures LB.Frames(t + [e]) == LB.Frames(t) + if e.GetRate? then 1 else 0
  {
    assert (t + [e])[..|t|] == t;
  }

  /** Every run of a station is a run of the budget. */
  lemma {:induction false} RunIsTraced(c: Setup, s: State, es: seq<Event>)
    requires SetupOk(c) && At(c, s) && s.b == LB.START
    ensures var t := LB.Run(c.n, Trace(c, s, es));
            t.0 == Run(c, s, es).0.b && t.2 == Run(c, s, es).1 && LB.Frames(Trace(c, s, es)) == Frames(es)
    decreases |es|
  {
    if es != [] {
      var front, e := es[..|es| - 1], es[|es| - 1];
      RunIsTraced(c, s, front);
      hide LB.OnGetRate, LB.MaySample, SetupOk, PickAt, Drawn;
      var t := Trace(c, s, front);
      match e
      case Frame => TraceSnoc(c.n, t, LB.GetRate(PickAt(c, Run(c, s, front).0)));
      case Report => TraceSnoc(c.n, t, LB.Status);
      case Updated(_, _) => assert Trace(c, s, es) == t;
    }
  }

  /** Whatever the table, at most every second frame is a probe. */
  lemma AtMostHalf(c: Setup, best: nat, es: seq<Event>)
    requires SetupOk(c) && At(c, Fresh(c, best))
    ensures 2 * Run(c, Fresh(c, best), es).1 <= Frames(es) + 1
  {
    RunIsTraced(c, Fresh(c, best), es);
    LB.HalfAtMost(c.n, Trace(c, Fresh(c, best), es));
  }

  // ----- when the ten percent hold

  /** No frame of the run meets a rate slower than the best one of its time. */
  ghost predicate FastestThroughout(c: Setup, s: State, es: seq<Event>)
    requires SetupOk(c) && At(c, s)
    decreases |es|
  {
    es == [] ||
    (var front := es[..|es| - 1];
     FastestThroughout(c, s, front) &&
     (es[|es| - 1].Frame? ==> forall i: nat :: !Slower(c, Run(c, s, front).0.best, i)))
  }

  lemma {:induction false} NothingDeferred(c: Setup, s: State, es: seq<Event>)
    requires SetupOk(c) && At(c, s) && FastestThroughout(c, s, es)
    ensures forall k :: 0 <= k < |Trace(c, s, es)| ==> Trace(c, s, es)[k] != LB.GetRate(LB.Later)
    decreases |es|
  {
    if es != [] {
      NothingDeferred(c, s, es[..|es| - 1]);
      hide SetupOk, Run;
    }
  }

  /** Such a run keeps its probes within a tenth of its frames plus one. */
  lemma TenPercentAlong(c: Setup, best: nat, es: seq<Event>)
    requires SetupOk(c) && At(c, Fresh(c, best)) && FastestThroughout(c, Fresh(c, best), es)
    ensures 10 * Run(c, Fresh(c, best), es).1 <= Frames(es) + 10
  {
    RunIsTraced(c, Fresh(c, best), es);
    NothingDeferred(c, Fresh(c, best), es);
    LB.TenPercentWithoutDeferral(c.n, Trace(c, Fresh(c, best), es));
  }

  function FrameRow(m: nat): (es: seq<Event>)
    ensures |es| == m
  {
    if m == 0 then [] else FrameRow(m - 1) + [Frame]
  }

  lemma FramesSnoc(es: seq<Event>, e: Event)
    ensures Frames(es + [e]) == Frames(es) + if e.Frame? then 1 else 0
  {
    assert (es + [e])[..|es|] == es;
  }

  lemma {:induction false} FrameRowCounts(m: nat)
    ensures Frames(FrameRow(m)) == m
  {
    if m > 0 {
      FrameRowCounts(m - 1);
      FramesSnoc(FrameRow(m - 1), Frame);
    }
  }

  /** Budget after t frames and q direct probes at frames 1, 10, 20 and so on. */
  function Calm(t: nat, q: nat): LB.Budget { LB.Budget(t, q, 0, t == 1 || (t > 0 && t % 10 == 0)) }

  function ProbesBy(t: nat): nat { if t == 0 then 0 else t / 10 + 1 }

  lemma Tenths(t: nat)
    ensures (t + 1) * LB.SAMPLING_RATIO / 100 == (t + 1) / 10
    ensures ProbesBy(t + 1) == ProbesBy(t) + if t == 0 || t % 10 == 9 then 1 else 0
    ensures t + 1 == 1 || (t + 1) % 10 == 0 <==> t == 0 || t % 10 == 9
    ensures t > 0 ==> ((t + 1) / 10 >= ProbesBy(t) <==> t % 10 == 9) && (t + 1) / 10 <= ProbesBy(t)
  {
  }

  lemma PlainFrame(b: LB.Budget, n: nat, pick: LB.Pick)
    requires LB.Debt(b) < 0 || b.prev
    ensures !LB.MaySample(b) && LB.OnGetRate(b, n, pick) == (b.(total := b.total + 1, prev := false), LB.Plain)
  {
  }

  lemma SampledFrame(b: LB.Budget, n: nat, pick: LB.Pick)
    requires 0 <= LB.Debt(b) <= 2 * n && !b.prev && b.total + 1 < 10000
    ensures LB.MaySample(b)
    ensures LB.OnGetRate(b, n, pick) ==
            match pick
            case Later => (LB.Budget(b.total + 1, b.packets, b.deferred + 1, true), LB.DeferredProbe)
            case Now => (LB.Budget(b.total + 1, b.packets + 1, b.deferred, true), LB.DirectProbe)
            case Exhausted => (LB.Budget(b.total + 1, b.packets, b.deferred, false), LB.Plain)
  {
    hide LB.Debt;
  }

  lemma CalmBudget(t: nat, n: nat, pick: LB.Pick)
    requires t + 1 < 10000 && n >= 1 && (ProbesBy(t + 1) > ProbesBy(t) ==> pick == LB.Now)
    ensures var b := Calm(t, ProbesBy(t));
            && (LB.MaySample(b) <==> ProbesBy(t + 1) > ProbesBy(t))
            && LB.OnGetRate(b, n, pick) ==
               (Calm(t + 1, ProbesBy(t + 1)), if LB.MaySample(b) then LB.DirectProbe else LB.Plain)
  {
    var b := Calm(t, ProbesBy(t));
    Tenths(t);
    assert LB.Debt(b) == (t + 1) / 10 - ProbesBy(t);
    hide ProbesBy, LB.Debt, LB.OnGetRate, LB.MaySample;
    if t == 0 || t % 10 == 9 {
      assert LB.Debt(b) == 0 by { assert ProbesBy(0) == 0; }
      SampledFrame(b, n, pick);
    } else {
      PlainFrame(b, n, pick);
    }
  }

  /** A state in which every row drawn so far was probed directly. */
  ghost function CalmState(c: Setup, best: nat, t: nat): State {
    State(Calm(t, ProbesBy(t)), ProbesBy(t), 0, Fresh(c, best).limits, best)
  }

  lemma CalmPick(c: Setup, best: nat, t: nat)
    requires SetupOk(c) && At(c, CalmState(c, best, t)) && ProbesBy(t) < c.n
    ensures CalmState(c, best, t).limits[Drawn(c, CalmState(c, best, t))] == -1
    ensures !Slower(c, best, Drawn(c, CalmState(c, best, t))) ==> PickAt(c, CalmState(c, best, t)) == LB.Now
  {
    hide TableOk, Calm, ProbesBy;
  }

  /** A direct probe of a rate without a limit leaves the limits alone. */
  lemma FrameIs(c: Setup, s: State)
    requires SetupOk(c) && At(c, s) && (PickAt(c, s) == LB.Now ==> s.limits[Drawn(c, s)] <= 0)
    ensures OnFrame(c, s) ==
            var (b, o) := LB.OnGetRate(s.b, c.n, PickAt(c, s));
            if !LB.MaySample(s.b) then (s.(b := b), o)
            else (State(b, NextRow(s.row, c.n), NextColumn(s.row, s.col, c.n), s.limits, s.best), o)
  {
    hide SetupOk, LB.MaySample, LB.Settle, PickAt, Drawn;
  }

  lemma CalmFrame(c: Setup, best: nat, t: nat)
    requires SetupOk(c) && At(c, CalmState(c, best, t)) && t + 1 < 10000 && ProbesBy(t + 1) < c.n
    requires ProbesBy(t) <= ProbesBy(t + 1) <= ProbesBy(t) + 1
    requires ProbesBy(t + 1) > ProbesBy(t) ==> !Slower(c, best, Drawn(c, CalmState(c, best, t)))
    ensures var (s', o) := OnFrame(c, CalmState(c, best, t));
            s' == CalmState(c, best, t + 1) && ProbesBy(t + 1) == ProbesBy(t) + if o.Plain? then 0 else 1
  {
    hide LB.OnGetRate, LB.MaySample, ProbesBy, Calm, SetupOk, PickAt, Drawn, Slower, OnFrame;
    CalmPick(c, best, t);
    CalmBudget(t, c.n, PickAt(c, CalmState(c, best, t)));
    FrameIs(c, CalmState(c, best, t));
  }

  /** The first q draws of the first column are no slower rates, and a further one follows. */
  ghost predicate NoneSlower(c: Setup, best: nat, q: nat)
    requires SetupOk(c) && best < Rows(c.n)
  {
    q < c.n && forall j :: 0 <= j < q ==> !Slower(c, best, ST.Column(c.table, ST.Strided, c.n, 0)[j])
  }

  /** While the first q rows hold no slower rate, direct probes come at frames 1, 10, 20 and
      so on. */
  lemma {:induction false} CalmRun(c: Setup, best: nat, q: nat, m: nat)
    requires SetupOk(c) && At(c, Fresh(c, best)) && NoneSlower(c, best, q) && (m > 0 ==> m < 10 * q)
    ensures Run(c, Fresh(c, best), FrameRow(m)) == (CalmState(c, best, m), ProbesBy(m))
    decreases m
  {
    if m == 0 {
      assert Run(c, Fresh(c, best), FrameRow(0)) == (Fresh(c, best), 0);
    } else {
      CalmRun(c, best, q, m - 1);
      CalmStep(c, best, q, m - 1);
    }
  }

  lemma CalmStep(c: Setup, best: nat, q: nat, t: nat)
    requires SetupOk(c) && best < Rows(c.n) && At(c, Fresh(c, best)) && NoneSlower(c, best, q) && t + 1 < 10 * q
    requires Run(c, Fresh(c, best), FrameRow(t)) == (CalmState(c, best, t), ProbesBy(t))
    ensures Run(c, Fresh(c, best), FrameRow(t + 1)) == (CalmState(c, best, t + 1), ProbesBy(t + 1))
  {
    hide SetupOk, Slower, CalmState, Fresh, OnFrame, Run, NoneSlower, Frames;
    SetupSmall(c, best, q);
    ProbesBelow(t + 1, q);
    Tenths(t);
    hide ProbesBy;
    CalmRow(c, best, q, t);
    CalmFrame(c, best, t);
    RunSnoc(c, Fresh(c, best), FrameRow(t), Frame);
  }

  lemma SetupSmall(c: Setup, best: nat, q: nat)
    requires SetupOk(c) && best < Rows(c.n) && NoneSlower(c, best, q)
    ensures q < c.n <= 255
  {
  }

  lemma ProbesBelow(t: nat, q: nat)
    requires t < 10 * q
    ensures ProbesBy(t) <= q
  {
  }

  lemma CalmRow(c: Setup, best: nat, q: nat, t: nat)
    requires SetupOk(c) && best < Rows(c.n) && NoneSlower(c, best, q) && ProbesBy(t + 1) <= q
    ensures At(c, CalmState(c, best, t)) && (ProbesBy(t) < q ==> !Slower(c, best, Drawn(c, CalmState(c, best, t))))
  {
  }

  /** A slower draw is deferred, and the budget lets the next probe follow two frames later. */
  lemma SlowBudget(t: nat, q: nat, n: nat, pick: LB.Pick)
    requires 1 <= n && t + 3 < 10000 && pick != LB.Exhausted && (t + 1) / 10 == (t + 3) / 10 == q
    ensures var b := LB.Budget(t, q, 0, false);
            var b1 := LB.Budget(t + 1, q, 1, true);
            var b2 := LB.Budget(t + 2, q, 1, false);
            && LB.MaySample(b) && LB.OnGetRate(b, n, LB.Later) == (b1, LB.DeferredProbe)
            && !LB.MaySample(b1) && LB.OnGetRate(b1, n, pick) == (b2, LB.Plain)
            && LB.MaySample(b2) && !LB.OnGetRate(b2, n, pick).1.Plain?
  {
    var b := LB.Budget(t, q, 0, false);
    var b1 := LB.Budget(t + 1, q, 1, true);
    var b2 := LB.Budget(t + 2, q, 1, false);
    TenPercentOf(t + 1);
    TenPercentOf(t + 3);
    assert LB.Debt(b) == LB.Debt(b2) == 0;
    hide LB.Debt, LB.OnGetRate, LB.MaySample;
    SampledFrame(b, n, LB.Later);
    PlainFrame(b1, n, pick);
    SampledFrame(b2, n, pick);
  }

  lemma TenPercentOf(t: nat)
    ensures t * LB.SAMPLING_RATIO / 100 == t / 10
  {
  }

  /** Before the first slower rate is drawn. */
  ghost function SlowTime(q: nat): nat { if q == 0 then 0 else 10 * q - 1 }

  lemma SlowTimeIs(q: nat)
    ensures var t := SlowTime(q);
            (t + 1) / 10 == (t + 3) / 10 == q && ProbesBy(t) == q && Calm(t, q) == LB.Budget(t, q, 0, false)
    ensures if q == 0 then SlowTime(q) == 0 else SlowTime(q) < 10 * q
    ensures 10 * (q + 2) > SlowTime(q) + 3 + 10
  {
  }

  /** Three frames from the draw of a slower rate on make two probes. */
  lemma SlowFrames(c: Setup, best: nat, q: nat)
    requires SetupOk(c) && At(c, CalmState(c, best, SlowTime(q))) && q < c.n
    requires Slower(c, best, Drawn(c, CalmState(c, best, SlowTime(q))))
    ensures var (s1, o1) := OnFrame(c, CalmState(c, best, SlowTime(q)));
            var (s2, o2) := OnFrame(c, s1);
            var (s3, o3) := OnFrame(c, s2);
            !o1.Plain? && !o3.Plain?
  {
    var t := SlowTime(q);
    var s := CalmState(c, best, t);
    SlowTimeIs(q);
    assert c.n <= 255 by { hide Slower; SetupBounded(c); }
    FreshLimits(c, s);
    assert PickAt(c, s) == LB.Later;
    hide LB.OnGetRate, LB.MaySample, Calm, ProbesBy, SetupOk, PickAt, Drawn, Slower, OnFrame;
    SlowBudget(t, q, c.n, LB.Later);
    FrameIs(c, s);
    var s1 := OnFrame(c, s).0;
    FreshLimits(c, s1);
    FrameIs(c, s1);
    SlowBudget(t, q, c.n, PickAt(c, s1));
    var s2 := OnFrame(c, s1).0;
    FreshLimits(c, s2);
    FrameIs(c, s2);
    SlowBudget(t, q, c.n, PickAt(c, s2));
  }

  lemma SetupBounded(c: Setup)
    requires SetupOk(c)
    ensures c.n <= 255
  {
  }

  /** Without limits no drawn rate is exhausted. */
  lemma FreshLimits(c: Setup, s: State)
    requires SetupOk(c) && At(c, s) && s.limits == Fresh(c, s.best).limits && c.n >= 1
    ensures s.limits[Drawn(c, s)] == -1 && PickAt(c, s) != LB.Exhausted
  {
    hide TableOk;
  }

  /** The q-th draw of the first column is its first slower rate. */
  ghost predicate SlowFirst(c: Setup, best: nat, q: nat)
    requires SetupOk(c) && best < Rows(c.n)
  {
    NoneSlower(c, best, q) && Slower(c, best, ST.Column(c.table, ST.Strided, c.n, 0)[q])
  }

  lemma SlowRun(c: Setup, best: nat, q: nat)
    requires SetupOk(c) && best < Rows(c.n) && At(c, Fresh(c, best)) && SlowFirst(c, best, q)
    ensures 10 * Run(c, Fresh(c, best), FrameRow(SlowTime(q) + 3)).1 > Frames(FrameRow(SlowTime(q) + 3)) + 10
  {
    hide OnFrame, Slower, SetupOk, NoneSlower, SlowFirst, Run, Frames, SlowTime, ProbesBy, CalmState, Fresh;
    var t := SlowTime(q);
    SlowTimeIs(q);
    SlowRow(c, best, q);
    CalmRun(c, best, q, t);
    SlowFrames(c, best, q);
    FrameRowCounts(t + 3);
    ThreeFrames(c, Fresh(c, best), t);
  }

  lemma ThreeFrames(c: Setup, s: State, t: nat)
    requires SetupOk(c) && At(c, s)
    ensures var (s0, k) := Run(c, s, FrameRow(t));
            var (s1, o1) := OnFrame(c, s0);
            var (s2, o2) := OnFrame(c, s1);
            var (s3, o3) := OnFrame(c, s2);
            Run(c, s, FrameRow(t + 3)).1 ==
            k + (if o1.Plain? then 0 else 1) + (if o2.Plain? then 0 else 1) + (if o3.Plain? then 0 else 1)
  {
    hide OnFrame, SetupOk, Run, Frames;
    RunSnoc(c, s, FrameRow(t), Frame);
    RunSnoc(c, s, FrameRow(t + 1), Frame);
    RunSnoc(c, s, FrameRow(t + 2), Frame);
  }

  lemma SlowRow(c: Setup, best: nat, q: nat)
    requires SetupOk(c) && best < Rows(c.n) && SlowFirst(c, best, q) && ProbesBy(SlowTime(q)) == q
    ensures q < c.n && NoneSlower(c, best, q)
    ensures At(c, CalmState(c, best, SlowTime(q))) && Slower(c, best, Drawn(c, CalmState(c, best, SlowTime(q))))
  {
    hide SlowTime, ProbesBy, TableOk;
  }

  /** Every update of the run chooses its best rate from a given set. */
  ghost predicate BestFrom(es: seq<Event>, bests: set<nat>) {
    forall k :: 0 <= k < |es| && es[k].Updated? ==> es[k].best in bests
  }

  /** Every run of a fresh station that sends with these best rates keeps its probes within a
      tenth of its frames plus one. */
  ghost predicate TenPercentHold(c: Setup, bests: set<nat>)
    requires SetupOk(c) && forall best <- bests :: best < Rows(c.n)
  {
    forall best, es: seq<Event> :: best in bests && BestFrom(es, bests) ==>
      10 * Run(c, Fresh(c, best), es).1 <= Frames(es) + 10
  }

  /** Whatever the table, the reports, the limits and the order of the best rates, the ten
      percent hold exactly when no rate in use is slower than one of the best rates. */
  lemma TenPercentIff(c: Setup, bests: set<nat>)
    requires SetupOk(c) && forall best <- bests :: best < Rows(c.n)
    ensures TenPercentHold(c, bests) <==>
            forall best, i: nat :: best in bests && i < c.n ==> c.times[i] <= c.times[best]
  {
    if forall best, i: nat :: best in bests && i < c.n ==> c.times[i] <= c.times[best] {
      forall best, es: seq<Event> | best in bests && BestFrom(es, bests)
        ensures 10 * Run(c, Fresh(c, best), es).1 <= Frames(es) + 10
      {
        BestStays(c, bests, best, es);
        TenPercentAlong(c, best, es);
      }
    } else {
      var best, i: nat :| best in bests && i < c.n && c.times[i] > c.times[best];
      var q := FirstSlower(c, best);
      SlowRun(c, best, q);
      FramesOnly(SlowTime(q) + 3, bests);
    }
  }

  lemma {:induction false} FramesOnly(m: nat, bests: set<nat>)
    ensures BestFrom(FrameRow(m), bests)
  {
    if m > 0 { FramesOnly(m - 1, bests); }
  }

  lemma {:induction false} BestStays(c: Setup, bests: set<nat>, best: nat, es: seq<Event>)
    requires SetupOk(c) && (forall x <- bests :: x < Rows(c.n)) && best in bests && BestFrom(es, bests)
    requires forall x, i: nat :: x in bests && i < c.n ==> c.times[i] <= c.times[x]
    ensures At(c, Fresh(c, best)) && Run(c, Fresh(c, best), es).0.best in bests
    ensures FastestThroughout(c, Fresh(c, best), es)
    decreases |es|
  {
    hide TableOk, OnFrame;
    if es != [] {
      var front := es[..|es| - 1];
      BestStays(c, bests, best, front);
      var s := Run(c, Fresh(c, best), front).0;
      FrameKeepsBest(c, s);
      forall i: nat ensures !Slower(c, s.best, i) { }
    }
  }

  lemma FrameKeepsBest(c: Setup, s: State)
    requires SetupOk(c) && At(c, s)
    ensures OnFrame(c, s).0.best == s.best
  {
    hide SetupOk, LB.OnGetRate;
  }

  lemma FirstSlower(c: Setup, best: nat) returns (q: nat)
    requires SetupOk(c) && best < Rows(c.n) && exists i: nat :: i < c.n && c.times[i] > c.times[best]
    ensures SlowFirst(c, best, q)
  {
    var i: nat :| i < c.n && c.times[i] > c.times[best];
    var col := ST.Column(c.table, ST.Strided, c.n, 0);
    assert ST.IsPermutation(col);
    assert i in col;
    q :| q < c.n && col[q] == i;
    while exists j :: 0 <= j < q && Slower(c, best, col[j])
      invariant q < c.n && Slower(c, best, col[q])
      decreases q
    {
      var j: nat :| j < q && Slower(c, best, col[j]);
      q := j;
    }
  }

  // ----- how far deferred probes exceed them

  /** m rounds of two frames, each followed by its report. */
  function Rounds(m: nat): seq<Event> {
    if m == 0 then [] else Rounds(m - 1) + [Frame, Report, Frame, Report]
  }

  ghost predicate OthersSlower(c: Setup, best: nat)
    requires SetupOk(c) && best < Rows(c.n)
  {
    forall i: nat :: i < c.n && i != best ==> Slower(c, best, i)
  }

  /** Every rate but the best is slower than it, and the best may be probed without limit. */
  ghost predicate OnlyBest(c: Setup, s: State)
    requires SetupOk(c) && At(c, s)
  {
    OthersSlower(c, s.best) && s.limits[s.best] < 0
  }

  /** The best rate is among the first k rows of a column. */
  ghost predicate BestAbove(c: Setup, best: nat, col: nat, k: nat)
    requires SetupOk(c) && col < ST.COLUMNS && k <= Rows(c.n)
  {
    exists j :: 0 <= j < k && ST.Column(c.table, ST.Strided, Rows(c.n), col)[j] == best
  }

  /** Frames not yet spent on direct probes cover the column: ten in reserve for the best
      rate until it is drawn, and two for every row drawn. In the first column the reserve
      may still be missing if the best rate comes late enough. */
  ghost predicate Covered(c: Setup, s: State)
    requires SetupOk(c) && At(c, s)
  {
    var spare := s.b.total - 10 * s.b.packets - 2 * s.row;
    var drawn := BestAbove(c, s.best, s.col, s.row);
    && !s.b.prev && s.b.deferred == 0
    && if drawn then spare >= 0 || (LateStart(c, s) && spare >= -10) else spare >= 10 || (LateStart(c, s) && spare >= 0)
  }

  /** The first column with the best rate below its fourth row, and ten rates at least. */
  ghost predicate LateStart(c: Setup, s: State)
    requires SetupOk(c) && At(c, s)
  {
    s.col == 0 && c.n >= 10 && !BestAbove(c, s.best, 0, 4)
  }

  /** One round on the budget: the drawn rate is probed and the second frame stays plain. */
  lemma RoundBudget(b: LB.Budget, n: nat, pick: LB.Pick, pick': LB.Pick)
    requires !b.prev && b.deferred == 0 && b.total + 2 < 10000 && 10 * b.packets <= b.total + 1 && pick != LB.Exhausted
    ensures var (b1, o1) := LB.OnGetRate(b, n, pick);
            var b2 := LB.OnStatus(b1, false);
            var (b3, o3) := LB.OnGetRate(b2, n, pick');
            var b4 := LB.OnStatus(b3, false);
            && LB.MaySample(b) && !LB.MaySample(b2) && !o1.Plain? && o3.Plain?
            && !b4.prev && b4.deferred == 0 && b4.total == b.total + 2
            && (b4.packets == b.packets + (if pick == LB.Now then 1 else 0)
                || b4.total - 10 * b4.packets >= 20 * n + 1 - if pick == LB.Now then 10 else 0)
  {
    TenPercentOf(b.total + 1);
    var b1 := LB.OnGetRate(b, n, pick).0;
    assert b1.prev && b1.total == b.total + 1 && b1.deferred == if pick == LB.Later then 1 else 0;
    var b2 := LB.OnStatus(b1, false);
    hide LB.Settle;
    PlainFrame(b2, n, pick');
  }

  /** Drawing a row: the best rate is probed directly, all others are deferred. */
  lemma PickInRound(c: Setup, s: State)
    requires SetupOk(c) && At(c, s) && OnlyBest(c, s) && c.n >= 1
    ensures PickAt(c, s) == if Drawn(c, s) == s.best then LB.Now else LB.Later
    ensures PickAt(c, s) == LB.Now ==> s.limits[Drawn(c, s)] <= 0
  {
    hide TableOk;
  }

  /** One more row: the best rate comes up at most once, and at least once in a whole column. */
  lemma BestOnce(c: Setup, s: State)
    requires SetupOk(c) && At(c, s) && c.n >= 1
    ensures BestAbove(c, s.best, s.col, s.row + 1) <==> BestAbove(c, s.best, s.col, s.row) || Drawn(c, s) == s.best
    ensures Drawn(c, s) == s.best ==> !BestAbove(c, s.best, s.col, s.row)
    ensures BestAbove(c, s.best, s.col, c.n)
  {
    var col := ST.Column(c.table, ST.Strided, c.n, s.col);
    assert ST.IsPermutation(col);
    assert s.best in col;
  }

  lemma BestLate(c: Setup, s: State)
    requires SetupOk(c) && At(c, s) && LateStart(c, s) && BestAbove(c, s.best, s.col, s.row)
    ensures s.row >= 5
  {
    hide TableOk;
  }

  lemma BestAboveNone(c: Setup, best: nat, col: nat)
    requires SetupOk(c) && col < ST.COLUMNS
    ensures !BestAbove(c, best, col, 0)
  {
  }

  /** The four events of a round. */
  ghost function Round(c: Setup, s: State): (r: (State, nat))
    requires SetupOk(c) && At(c, s)
    ensures At(c, r.0)
  {
    var (s1, o1) := OnFrame(c, s);
    var s2 := s1.(b := LB.OnStatus(s1.b, false));
    var (s3, o3) := OnFrame(c, s2);
    (s3.(b := LB.OnStatus(s3.b, false)), (if o1.Plain? then 0 else 1) + (if o3.Plain? then 0 else 1))
  }

  lemma CoveredBudget(c: Setup, s: State)
    requires SetupOk(c) && At(c, s) && Covered(c, s)
    ensures !s.b.prev && s.b.deferred == 0 && 10 * s.b.packets <= s.b.total
  {
    if LateStart(c, s) && BestAbove(c, s.best, s.col, s.row) { BestLate(c, s); }
  }

  /** A round makes one probe and advances one row. */
  lemma RoundIs(c: Setup, s: State)
    requires SetupOk(c) && At(c, s) && OnlyBest(c, s) && Covered(c, s) && c.n >= 1 && s.b.total + 2 < 10000
    ensures var (s', probes) := Round(c, s);
            && probes == 1 && !s'.b.prev && s'.b.deferred == 0 && s'.b.total == s.b.total + 2 &&
                 s'.limits == s.limits && s'.best == s.best
            && s'.row == NextRow(s.row, c.n) && s'.col == NextColumn(s.row, s.col, c.n)
            && var cost := if Drawn(c, s) == s.best then 10 else 0;
               (10 * s'.b.packets == 10 * s.b.packets + cost || s'.b.total - 10 * s'.b.packets >= 20 * c.n + 1 - cost)
  {
    hide LB.OnGetRate, LB.MaySample, LB.OnStatus, SetupOk, PickAt, Drawn, OnFrame, Covered, OnlyBest;
    CoveredBudget(c, s);
    PickInRound(c, s);
    FrameIs(c, s);
    var s1 := OnFrame(c, s).0;
    var s2 := s1.(b := LB.OnStatus(s1.b, false));
    RoundBudget(s.b, c.n, PickAt(c, s), PickAt(c, s));
    assert OnlyBest(c, s2) by { StillOnlyBest(c, s, s2); }
    PickInRound(c, s2);
    FrameIs(c, s2);
    RoundBudget(s.b, c.n, PickAt(c, s), PickAt(c, s2));
  }

  lemma StillOnlyBest(c: Setup, s: State, s': State)
    requires SetupOk(c) && At(c, s) && At(c, s') && OnlyBest(c, s) && s'.limits == s.limits && s'.best == s.best
    ensures OnlyBest(c, s')
  {
    hide TableOk;
  }

  lemma RoundKeepsCover(c: Setup, s: State)
    requires SetupOk(c) && At(c, s) && OnlyBest(c, s) && Covered(c, s) && c.n >= 5 && s.b.total + 2 < 10000
    ensures var (s', probes) := Round(c, s);
            probes == 1 && s'.b.total == s.b.total + 2 && OnlyBest(c, s') && Covered(c, s')
  {
    RoundIs(c, s);
    BestOnce(c, s);
    var s' := Round(c, s).0;
    BestAboveNone(c, s'.best, s'.col);
    StillOnlyBest(c, s, s');
    hide SetupOk, OnlyBest, Round, BestAbove, Drawn;
    if s.row + 1 < c.n {
      assert LateStart(c, s') == LateStart(c, s);
    }
  }

  /** With at least five rates of which only the best one is not slower than itself, and the
      column covered, every second frame up to the next restart of the count is a probe. */
  lemma {:induction false} EverySecondFrame(c: Setup, s: State, m: nat)
    requires SetupOk(c) && At(c, s) && OnlyBest(c, s) && Covered(c, s) && c.n >= 5 && s.b.total + 2 * m < 10000
    ensures var (s', probes) := Run(c, s, Rounds(m));
            probes == m && Frames(Rounds(m)) == 2 * m
            && s'.b.total == s.b.total + 2 * m && OnlyBest(c, s') && Covered(c, s')
    decreases m
  {
    if m > 0 {
      EverySecondFrame(c, s, m - 1);
      hide Covered, OnlyBest, SetupOk, Round, Run, Frames;
      RoundKeepsCover(c, Run(c, s, Rounds(m - 1)).0);
      RunRound(c, s, Rounds(m - 1));
    }
  }

  lemma RunRound(c: Setup, s: State, es: seq<Event>)
    requires SetupOk(c) && At(c, s)
    ensures var (s1, k) := Run(c, s, es);
            var (s2, probes) := Round(c, s1);
            var more := es + [Frame, Report, Frame, Report];
            Run(c, s, more) == (s2, k + probes) && Frames(more) == Frames(es) + 2
  {
    hide OnFrame, SetupOk, Run, Frames;
    var e1 := es + [Frame];
    var e2 := e1 + [Report];
    var e3 := e2 + [Frame];
    RunSnoc(c, s, es, Frame);
    RunSnoc(c, s, e1, Report);
    RunSnoc(c, s, e2, Frame);
    RunSnoc(c, s, e3, Report);
    assert es + [Frame, Report, Frame, Report] == e3 + [Report];
  }

  /** So a fresh station with at least ten rates whose best one is not among the first four
      draws probes with every second frame from its first frame on. */
  lemma HalfFromTheStart(c: Setup, best: nat, m: nat)
    requires SetupOk(c) && At(c, Fresh(c, best)) && c.n >= 10 && 2 * m < 10000
    requires OthersSlower(c, best) && !BestAbove(c, best, 0, 4)
    ensures Run(c, Fresh(c, best), Rounds(m)).1 == m && Frames(Rounds(m)) == 2 * m
  {
    BestAboveNone(c, best, 0);
    assert Covered(c, Fresh(c, best)) && OnlyBest(c, Fresh(c, best)) by { hide TableOk, Slower, OthersSlower; }
    EverySecondFrame(c, Fresh(c, best), m);
  }

  /** A table whose columns list the rates in order, and rates that get faster with the index. */
  function Ladder(): Setup {
    Setup(seq(120, k requires 0 <= k < 120 => k / 10), 12, seq(12, i requires 0 <= i < 12 => 12 - i))
  }

  lemma LadderOk()
    ensures SetupOk(Ladder()) && !BestAbove(Ladder(), 11, 0, 4) && OthersSlower(Ladder(), 11)
  {
    var t := Ladder().table;
    forall col | 0 <= col < ST.COLUMNS ensures ST.IsPermutation(ST.Column(t, ST.Strided, 12, col)) {
      var c := ST.Column(t, ST.Strided, 12, col);
      forall j | 0 <= j < 12 ensures c[j] == j { ST.ColumnAt(t, ST.Strided, 12, col, j); }
      forall v | 0 <= v < 12 ensures v in c { assert c[v] == v; }
    }
  }

  /** One probe for every two frames is attained over thousands of frames. */
  lemma HalfIsReached(m: nat)
    requires 2 * m < 10000
    ensures SetupOk(Ladder()) && At(Ladder(), Fresh(Ladder(), 11))
    ensures Run(Ladder(), Fresh(Ladder(), 11), Rounds(m)).1 == m && Frames(Rounds(m)) == 2 * m
  {
    LadderOk();
    HalfFromTheStart(Ladder(), 11, m);
  }

  // ----- across restarts of the count

  /** k frames, each followed by its report. */
  function Paced(k: nat): seq<Event> { if k == 0 then [] else Paced(k - 1) + [Frame, Report] }

  /** Frames of a run at which the count restarts. */
  ghost function Restarts(c: Setup, s: State, es: seq<Event>): nat
    requires SetupOk(c) && At(c, s)
    decreases |es|
  {
    if es == [] then 0
    else
      var front := es[..|es| - 1];
      Restarts(c, s, front) + if es[|es| - 1].Frame? && Restarting(Run(c, s, front).0.b) then 1 else 0
  }

  predicate Restarting(b: LB.Budget) { LB.MaySample(b) && b.total + 1 >= 10000 }

  /** Frames the current column still lacks for the direct probe of the best rate; a frame
      that must follow a probe counts as spent on it. */
  ghost function Lack(c: Setup, s: State): (d: nat)
    requires SetupOk(c) && At(c, s)
  {
    var spare := s.b.total + (if s.b.prev then 1 else 0) - 10 * s.b.packets - 2 * s.row;
    var need := if BestAbove(c, s.best, s.col, s.row) then 0 else 10;
    if need > spare then need - spare else 0
  }

  /** Between frames when every report has arrived. */
  ghost predicate Prompt(c: Setup, s: State)
    requires SetupOk(c) && At(c, s)
  {
    OnlyBest(c, s) && s.b.deferred == 0
  }

  /** A frame and its report. */
  ghost function Pace(c: Setup, s: State): (r: (State, LB.Outcome))
    requires SetupOk(c) && At(c, s)
    ensures At(c, r.0)
  {
    var (s1, o) := OnFrame(c, s);
    (s1.(b := LB.OnStatus(s1.b, false)), o)
  }

  /** The same on the budget. */
  lemma PaceBudget(b: LB.Budget, n: nat, pick: LB.Pick)
    requires b.deferred == 0 && pick != LB.Exhausted
    ensures var (b1, o) := LB.OnGetRate(b, n, pick);
            var b' := LB.OnStatus(b1, false);
            var cost := if pick == LB.Now then 1 else 0;
            && b'.deferred == 0 && (o.Plain? <==> !LB.MaySample(b)) && b'.prev == LB.MaySample(b)
            && (!LB.MaySample(b) ==> b'.total == b.total + 1 && b'.packets == b.packets)
            && (!LB.MaySample(b) ==> b.prev || b.total + 2 <= 10 * b.packets)
            && (Restarting(b) ==> b'.total == 0 && b'.packets == cost)
            && (LB.MaySample(b) && !Restarting(b) ==> b'.total == b.total + 1 && !b.prev)
            && (LB.MaySample(b) && !Restarting(b) ==>
                  b'.packets == b.packets + cost || b'.total - 10 * b'.packets >= 20 * n - 10 * cost)
  {
    TenPercentOf(b.total + 1);
  }

  lemma PaceIs(c: Setup, s: State)
    requires SetupOk(c) && At(c, s) && Prompt(c, s) && c.n >= 1
    ensures var (s', o) := Pace(c, s);
            && Prompt(c, s') && s'.b == LB.OnStatus(LB.OnGetRate(s.b, c.n, PickAt(c, s)).0, false)
            && o == LB.OnGetRate(s.b, c.n, PickAt(c, s)).1 && s'.best == s.best
            && (if LB.MaySample(s.b) then s'.row == NextRow(s.row, c.n) && s'.col == NextColumn(s.row, s.col, c.n)
                else s'.row == s.row && s'.col == s.col)
            && PickAt(c, s) == if Drawn(c, s) == s.best then LB.Now else LB.Later
  {
    hide LB.OnGetRate, LB.MaySample, LB.OnStatus, SetupOk, PickAt, Drawn, OnFrame, OnlyBest;
    PickInRound(c, s);
    FrameIs(c, s);
    PaceBudget(s.b, c.n, PickAt(c, s)) by { hide *; }
    StillOnlyBest(c, s, Pace(c, s).0);
  }

  /** A lost frame, one that may carry a probe and does not, makes up for part of the lack;
      only a restart adds to it. */
  lemma PaceLack(c: Setup, s: State)
    requires SetupOk(c) && At(c, s) && Prompt(c, s) && c.n >= 5
    ensures var (s', o) := Pace(c, s);
            && s'.b.prev == !o.Plain? && (s.b.prev ==> o.Plain?)
            && Lack(c, s') + (if o.Plain? && !s.b.prev then 1 else 0) <=
               Lack(c, s) + (if Restarting(s.b) then 2 * c.n + 9 else 0)
  {
    PaceIs(c, s);
    PaceBudget(s.b, c.n, PickAt(c, s));
    var (s', o) := Pace(c, s);
    BestOnce(c, s);
    BestAboveNone(c, s.best, s'.col);
    hide SetupOk, OnlyBest, Pace, BestAbove, Drawn, LB.OnGetRate, LB.MaySample, LB.OnStatus, PickAt, Restarting;
    if LB.MaySample(s.b) && s.row + 1 < c.n {
      assert s'.row == s.row + 1 && s'.col == s.col;
    }
  }

  lemma PacedSnoc(c: Setup, s: State, k: nat)
    requires SetupOk(c) && At(c, s) && k > 0
    ensures var (s1, probes) := Run(c, s, Paced(k - 1));
            var (s2, o) := Pace(c, s1);
            && Run(c, s, Paced(k)) == (s2, probes + if o.Plain? then 0 else 1)
            && Restarts(c, s, Paced(k)) == Restarts(c, s, Paced(k - 1)) + (if Restarting(s1.b) then 1 else 0)
            && Frames(Paced(k)) == Frames(Paced(k - 1)) + 1
  {
    hide OnFrame, SetupOk, Run, Frames, Restarts, Restarting;
    var es := Paced(k - 1);
    RunSnoc(c, s, es, Frame);
    RunSnoc(c, s, es + [Frame], Report);
    RestartsSnoc(c, s, es, Frame);
    RestartsSnoc(c, s, es + [Frame], Report);
    assert Paced(k) == es + [Frame] + [Report];
  }

  lemma RestartsSnoc(c: Setup, s: State, es: seq<Event>, e: Event)
    requires SetupOk(c) && At(c, s)
    ensures Restarts(c, s, es + [e]) == Restarts(c, s, es) + if e.Frame? && Restarting(Run(c, s, es).0.b) then 1 else 0
  {
    hide OnFrame, SetupOk, Run, Restarting;
    assert (es + [e])[..|es|] == es;
  }

  /** Frames that r restarts can cost. */
  function Toll(n: nat, r: nat): nat { (2 * n + 9) * r }

  lemma TollSteps(n: nat, r: nat)
    ensures Toll(n, 0) == 0 && Toll(n, r + 1) == Toll(n, r) + 2 * n + 9
  {
  }

  /** k frames are paid for: by a probe and a plain frame each, by the lack they made up for,
      or by restarts, which come at most once in 10000 frames. */
  ghost predicate PaidFor(c: Setup, s: State, k: nat, s': State, probes: nat, r: nat)
    requires SetupOk(c) && At(c, s) && At(c, s')
  {
    && k + Lack(c, s') + (if s'.b.prev then 1 else 0) <=
       2 * probes + Lack(c, s) + (if s.b.prev then 1 else 0) + Toll(c.n, r)
    && s'.b.total + 10000 * r <= s.b.total + k
  }

  /** Runs of any length: all but a few frames come in pairs of a probe and a plain frame. At
      most the initial lack is lost, and 2n + 9 frames for every restart of the count. */
  lemma {:induction false} HalfForever(c: Setup, s: State, k: nat)
    requires SetupOk(c) && At(c, s) && Prompt(c, s) && c.n >= 5
    ensures var (s', probes) := Run(c, s, Paced(k));
            && Frames(Paced(k)) == k && Prompt(c, s')
            && PaidFor(c, s, k, s', probes, Restarts(c, s, Paced(k)))
    decreases k
  {
    hide SetupOk, At, Prompt, PaidFor, Run, Frames, Restarts, Paced, Pace, Restarting;
    if k == 0 {
      NothingPaid(c, s);
    } else {
      HalfForever(c, s, k - 1);
      var (s1, probes) := Run(c, s, Paced(k - 1));
      PacedSnoc(c, s, k);
      FrameIsPaid(c, s, k - 1, s1, probes, Restarts(c, s, Paced(k - 1)));
    }
  }

  lemma NothingPaid(c: Setup, s: State)
    requires SetupOk(c) && At(c, s)
    ensures Run(c, s, Paced(0)) == (s, 0) && Restarts(c, s, Paced(0)) == Frames(Paced(0)) == 0
    ensures PaidFor(c, s, 0, s, 0, 0)
  {
    hide SetupOk, Lack;
  }

  lemma FrameIsPaid(c: Setup, s: State, k: nat, s1: State, probes: nat, r: nat)
    requires SetupOk(c) && At(c, s) && At(c, s1) && Prompt(c, s1) && c.n >= 5 && PaidFor(c, s, k, s1, probes, r)
    ensures var (s2, o) := Pace(c, s1);
            && Prompt(c, s2)
            && PaidFor(c, s, k + 1, s2, probes + (if o.Plain? then 0 else 1), r + if Restarting(s1.b) then 1 else 0)
  {
    hide SetupOk, Prompt, Pace, Lack, Toll, Restarting;
    PaceLack(c, s1);
    PaceCounts(c, s1);
    TollSteps(c.n, r);
  }

  lemma PaceCounts(c: Setup, s: State)
    requires SetupOk(c) && At(c, s) && Prompt(c, s) && c.n >= 5
    ensures Prompt(c, Pace(c, s).0)
    ensures Pace(c, s).0.b.total + (if Restarting(s.b) then 10000 else 0) <= s.b.total + 1
  {
    PaceIs(c, s);
    PaceBudget(s.b, c.n, PickAt(c, s));
    hide SetupOk, OnlyBest, Pace, Drawn, LB.OnGetRate, LB.OnStatus, PickAt;
  }

  /** From a fresh station whose best rate is faster than all others: of k frames, each with
      its report, at least half are probes but for 10 + (2n + 9)r frames, with r restarts. */
  lemma HalfOverall(c: Setup, best: nat, k: nat) returns (r: nat)
    requires SetupOk(c) && best < c.n && c.n >= 5 && OthersSlower(c, best)
    ensures At(c, Fresh(c, best)) && Frames(Paced(k)) == k
    ensures k <= 2 * Run(c, Fresh(c, best), Paced(k)).1 + 10 + (2 * c.n + 9) * r && 10000 * r <= k
  {
    var s := Fresh(c, best);
    assert Prompt(c, s) && Lack(c, s) <= 10 by { hide TableOk, OthersSlower; }
    HalfForever(c, s, k);
    r := Restarts(c, s, Paced(k));
    hide SetupOk, Run, Frames, Lack, Prompt;
  }
}
