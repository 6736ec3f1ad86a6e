/** The HT sampler: a round robin over the supported groups in which every group walks
    through the sampling table at its own position. Shown here: over a full period the
    draws are perfectly even, hence the redraw loop of the probing code stops. */
module HtSampler {
  import opened RateGroups
  import ST = SampleTable

  const TABLE_SIZE: nat := 100

  /** group is the one to be drawn from next; pos[g] is column * 10 + index of group g. */
  datatype Sampler = Sampler(group: nat, pos: seq<nat>)

  type Draw = (nat, int)

  ghost predicate WellFormed(s: Sampler) {
    s.group < GROUPS && |s.pos| == GROUPS && forall g :: 0 <= g < GROUPS ==> s.pos[g] < TABLE_SIZE
  }

  ghost predicate IsTable(t: seq<int>) {
    |t| == TABLE_SIZE && forall col :: 0 <= col < ST.COLUMNS ==> ST.IsPermutation(ST.Column(t, ST.Contiguous, 10, col))
  }

  /** Build the table shared by all stations: one column of slots per ten random bytes. */
  method InitHtTable(rnds: seq<seq<nat>>) returns (table: seq<int>)
    requires |rnds| == ST.COLUMNS && forall col :: 0 <= col < ST.COLUMNS ==> |rnds[col]| == 10
    ensures IsTable(table)
    ensures forall col :: 0 <= col < ST.COLUMNS ==>
            ST.Column(table, ST.Contiguous, 10, col) == ST.Placed(10, rnds[col], 10)
  {
    var t := new int[TABLE_SIZE];
    ST.InitSampleTable(t, ST.Contiguous, 10, rnds);
    table := t[..];
  }

  ghost predicate SomeOn(on: seq<bool>) {
    |on| == GROUPS && exists g :: 0 <= g < GROUPS && on[g]
  }

  // ----- counting around a circle

  function Succ(i: nat, n: nat): nat { if i + 1 >= n then 0 else i + 1 }

  function Bit(b: bool): nat { if b then 1 else 0 }

  /** How many of the m cells after start are marked, going round. */
  function Around(b: seq<bool>, start: nat, m: nat): nat
    requires start < |b|
    decreases m
  {
    if m == 0 then 0 else Bit(b[Succ(start, |b|)]) + Around(b, Succ(start, |b|), m - 1)
  }

  function Offset(i: nat, m: nat, n: nat): (r: nat)
    requires i < n
    ensures r < n
    decreases m
  {
    if m == 0 then i else Offset(Succ(i, n), m - 1, n)
  }

  lemma {:induction false} AroundSplit(b: seq<bool>, start: nat, m: nat, k: nat)
    requires start < |b|
    ensures Around(b, start, m + k) == Around(b, start, m) + Around(b, Offset(start, m, |b|), k)
    decreases m
  {
    if m > 0 { AroundSplit(b, Succ(start, |b|), m - 1, k); }
  }

  lemma {:induction false} OffsetIs(i: nat, m: nat, n: nat)
    requires i < n && m <= n
    ensures Offset(i, m, n) == if i + m < n then i + m else i + m - n
    decreases m
  {
    if m > 0 { OffsetIs(Succ(i, n), m - 1, n); }
  }

  lemma {:induction false} AroundFull(b: seq<bool>, start: nat)
    requires start < |b|
    ensures Around(b, start, |b|) == Around(b, |b| - 1, |b|)
    decreases |b| - start
  {
    if start + 1 < |b| {
      AroundSplit(b, start + 1, |b| - 1, 1);
      OffsetIs(start + 1, |b| - 1, |b|);
      AroundFull(b, start + 1);
    }
  }

  lemma AroundNone(b: seq<bool>, start: nat)
    requires start < |b|
    ensures |b| * 0 == 0 && Around(b, start, 0) == 0
  {
  }

  lemma MulStep(n: nat, r: nat)
    requires r > 0
    ensures n * r == n + n * (r - 1)
  {
  }

  lemma {:induction false} AroundTurns(b: seq<bool>, start: nat, r: nat)
    requires start < |b|
    ensures Around(b, start, |b| * r) == r * Around(b, |b| - 1, |b|)
    decreases r
  {
    hide Around, Offset;
    if r == 0 {
      AroundNone(b, start);
    } else {
      MulStep(|b|, r);
      AroundSplit(b, start, |b|, |b| * (r - 1));
      OffsetIs(start, |b|, |b|);
      AroundFull(b, start);
      AroundTurns(b, start, r - 1);
    }
  }

  // ----- the walk

  /** One turn of the wheel: step to the next group, and if it is supported advance its table
      position. */
  function Tick(s: Sampler, on: seq<bool>): (s': Sampler)
    requires s.group < GROUPS && |s.pos| == |on| == GROUPS
    ensures |s'.pos| == GROUPS && s'.group < GROUPS
  {
    var g := Succ(s.group, GROUPS);
    if on[g] then Sampler(g, s.pos[g := Succ(s.pos[g], TABLE_SIZE)]) else Sampler(g, s.pos)
  }

  ghost predicate OnAhead(g: nat, on: seq<bool>, d: nat)
    requires |on| == GROUPS && g < GROUPS
  {
    exists e :: d <= e <= GROUPS && on[Offset(g, e, GROUPS)]
  }

  lemma SomeOnAhead(g: nat, on: seq<bool>)
    requires SomeOn(on) && g < GROUPS
    ensures OnAhead(g, on, 1)
  {
    var x :| 0 <= x < GROUPS && on[x];
    var e := if x > g then x - g else x + GROUPS - g;
    OffsetIs(g, e, GROUPS);
    assert on[Offset(g, e, GROUPS)];
  }

  /** Number of ticks up to the next supported group. */
  ghost function Gap(g: nat, on: seq<bool>, d: nat): (r: nat)
    requires |on| == GROUPS && g < GROUPS && d <= GROUPS && OnAhead(g, on, d)
    ensures d <= r <= GROUPS && on[Offset(g, r, GROUPS)]
    ensures forall e :: d <= e < r ==> !on[Offset(g, e, GROUPS)]
    decreases GROUPS - d
  {
    if on[Offset(g, d, GROUPS)] then d else Gap(g, on, d + 1)
  }

  /** Advance to the next supported group (minstrel_set_next_sample_idx). */
  ghost function Next(s: Sampler, on: seq<bool>): (s': Sampler)
    requires WellFormed(s) && SomeOn(on)
    ensures WellFormed(s') && on[s'.group]
  {
    SomeOnAhead(s.group, on);
    var g := Offset(s.group, Gap(s.group, on, 1), GROUPS);
    Sampler(g, s.pos[g := Succ(s.pos[g], TABLE_SIZE)])
  }

  /** Every tick that finds no supported group brings the next one a step closer. */
  lemma GapShrinks(g: nat, on: seq<bool>)
    requires SomeOn(on) && g < GROUPS && !on[Succ(g, GROUPS)]
    ensures OnAhead(g, on, 1) && OnAhead(Succ(g, GROUPS), on, 1)
    ensures Gap(g, on, 1) == Gap(Succ(g, GROUPS), on, 1) + 1
  {
    var g1 := Succ(g, GROUPS);
    SomeOnAhead(g, on);
    SomeOnAhead(g1, on);
    assert Offset(g, 1, GROUPS) == g1 by { OffsetIs(g, 1, GROUPS); }
    var r := Gap(g, on, 1);
    var r1 := Gap(g1, on, 1);
    assert forall e :: 1 <= e < GROUPS ==> Offset(g1, e, GROUPS) == Offset(g, e + 1, GROUPS);
    assert Offset(g1, GROUPS, GROUPS) == g1 by { OffsetIs(g1, GROUPS, GROUPS); }
    assert r1 < GROUPS && on[Offset(g, r1 + 1, GROUPS)];
    assert r > 1 && on[Offset(g1, r - 1, GROUPS)];
  }

  lemma NextIsTick(s: Sampler, on: seq<bool>)
    requires WellFormed(s) && SomeOn(on)
    ensures WellFormed(Tick(s, on))
    ensures on[Succ(s.group, GROUPS)] ==> Next(s, on) == Tick(s, on)
    ensures !on[Succ(s.group, GROUPS)] ==> Next(s, on) == Next(Tick(s, on), on)
  {
    var g1 := Succ(s.group, GROUPS);
    SomeOnAhead(s.group, on);
    assert Offset(s.group, 1, GROUPS) == g1 by { OffsetIs(s.group, 1, GROUPS); }
    if !on[g1] {
      GapShrinks(s.group, on);
      var r := Gap(s.group, on, 1);
      assert Offset(g1, r - 1, GROUPS) == Offset(s.group, r, GROUPS);
    }
  }

  function Read(s: Sampler, table: seq<int>): Draw
    requires s.group < |s.pos| && s.pos[s.group] < |table|
  {
    (s.group, table[s.pos[s.group]])
  }

  ghost function Iter(s: Sampler, on: seq<bool>, n: nat): (s': Sampler)
    requires WellFormed(s) && SomeOn(on)
    ensures WellFormed(s') && (on[s.group] ==> on[s'.group])
    decreases n
  {
    if n == 0 then s else Next(Iter(s, on, n - 1), on)
  }

  lemma IterNext(s: Sampler, on: seq<bool>, n: nat)
    requires WellFormed(s) && SomeOn(on)
    ensures Iter(s, on, 0) == s && Iter(s, on, n + 1) == Next(Iter(s, on, n), on)
  {
    hide Next;
  }

  /** n consecutive draws: read the current group, then advance. */
  ghost function Draws(s: Sampler, on: seq<bool>, table: seq<int>, n: nat): (ds: seq<Draw>)
    requires WellFormed(s) && SomeOn(on) && |table| == TABLE_SIZE
    ensures |ds| == n
    decreases n
  {
    if n == 0 then [] else [Read(s, table)] + Draws(Next(s, on), on, table, n - 1)
  }

  lemma {:induction false} DrawsAt(s: Sampler, on: seq<bool>, table: seq<int>, n: nat, h: nat)
    requires WellFormed(s) && SomeOn(on) && |table| == TABLE_SIZE && h < n
    ensures Draws(s, on, table, n)[h] == Read(Iter(s, on, h), table)
    decreases n
  {
    hide Next;
    if h > 0 {
      var rest := Draws(Next(s, on), on, table, n - 1);
      assert Draws(s, on, table, n) == [Read(s, table)] + rest;
      DrawsAt(Next(s, on), on, table, n - 1, h - 1);
      IterShift(s, on, h - 1);
    }
  }

  lemma {:induction false} IterShift(s: Sampler, on: seq<bool>, n: nat)
    requires WellFormed(s) && SomeOn(on)
    ensures Iter(Next(s, on), on, n) == Iter(s, on, n + 1)
    decreases n
  {
    hide Next;
    if n > 0 { IterShift(s, on, n - 1); }
  }

  // ----- the same draws, tick by tick

  ghost function Emitted(s: Sampler, on: seq<bool>, table: seq<int>, m: nat): seq<Draw>
    requires WellFormed(s) && SomeOn(on) && |table| == TABLE_SIZE
    decreases m
  {
    if m == 0 then []
    else
      var s' := Tick(s, on);
      (if on[s'.group] then [Read(s', table)] else []) + Emitted(s', on, table, m - 1)
  }

  lemma {:induction false} EmittedAreDraws(s: Sampler, on: seq<bool>, table: seq<int>, m: nat)
    requires WellFormed(s) && SomeOn(on) && |table| == TABLE_SIZE
    ensures Emitted(s, on, table, m) == Draws(Next(s, on), on, table, |Emitted(s, on, table, m)|)
    ensures |Emitted(s, on, table, m)| == Around(on, s.group, m)
    decreases m
  {
    if m > 0 {
      var s' := Tick(s, on);
      NextIsTick(s, on);
      hide Next;
      EmittedAreDraws(s', on, table, m - 1);
      var rest := Emitted(s', on, table, m - 1);
      if on[s'.group] {
        assert Emitted(s, on, table, m) == [Read(s', table)] + rest;
        assert Draws(s', on, table, 1 + |rest|) == [Read(s', table)] + Draws(Next(s', on), on, table, |rest|);
      } else {
        assert Emitted(s, on, table, m) == [] + rest == rest;
      }
    }
  }

  /** Which table cells show value v. */
  ghost function Marks(table: seq<int>, v: int): (b: seq<bool>)
    ensures |b| == |table|
  {
    seq(|table|, j requires 0 <= j < |table| => table[j] == v)
  }

  /** Occurrences of (g, v) among m ticks, following only the round robin and group g. */
  ghost function Hits(cur: nat, p: nat, b: seq<bool>, g: nat, m: nat): nat
    requires cur < GROUPS && p < |b|
    decreases m
  {
    if m == 0 then 0
    else
      var c := Succ(cur, GROUPS);
      if c == g then Bit(b[Succ(p, |b|)]) + Hits(c, Succ(p, |b|), b, g, m - 1) else Hits(c, p, b, g, m - 1)
  }

  lemma {:induction false} EmittedCount(s: Sampler, on: seq<bool>, table: seq<int>, m: nat, g: nat, v: int)
    requires WellFormed(s) && SomeOn(on) && |table| == TABLE_SIZE && g < GROUPS && on[g]
    ensures multiset(Emitted(s, on, table, m))[(g, v)] == Hits(s.group, s.pos[g], Marks(table, v), g, m)
    decreases m
  {
    if m > 0 {
      var s' := Tick(s, on);
      EmittedCount(s', on, table, m - 1, g, v);
      var rest := Emitted(s', on, table, m - 1);
      if on[s'.group] {
        assert Emitted(s, on, table, m) == [Read(s', table)] + rest;
        assert multiset([Read(s', table)])[(g, v)] == if s'.group == g && Marks(table, v)[s'.pos[g]] then 1 else 0;
      } else {
        assert Emitted(s, on, table, m) == [] + rest == rest;
      }
    }
  }

  lemma {:induction false} HitsPast(cur: nat, p: nat, b: seq<bool>, g: nat, d: nat, m: nat)
    requires cur < GROUPS && p < |b| && g < GROUPS && d < GROUPS && Offset(cur, d, GROUPS) < GROUPS
    requires forall e :: 1 <= e <= d ==> Offset(cur, e, GROUPS) != g
    ensures Hits(cur, p, b, g, d + m) == Hits(Offset(cur, d, GROUPS), p, b, g, m)
    decreases d
  {
    if d > 0 {
      var c := Succ(cur, GROUPS);
      assert Offset(cur, 1, GROUPS) == c by { OffsetIs(cur, 1, GROUPS); }
      forall e | 1 <= e <= d - 1 ensures Offset(c, e, GROUPS) != g {
        assert Offset(c, e, GROUPS) == Offset(cur, e + 1, GROUPS);
      }
      HitsPast(c, p, b, g, d - 1, m);
    }
  }

  /** Ticks from cur until the one that lands on g. */
  function Distance(cur: nat, g: nat): nat
    requires cur < GROUPS && g < GROUPS
  {
    if g > cur then g - cur else g + GROUPS - cur
  }

  lemma HitsUpTo(cur: nat, p: nat, b: seq<bool>, g: nat, m: nat)
    requires cur < GROUPS && p < |b| && g < GROUPS
    ensures Hits(cur, p, b, g, Distance(cur, g) + m) == Bit(b[Succ(p, |b|)]) + Hits(g, Succ(p, |b|), b, g, m)
  {
    hide Offset;
    var d := Distance(cur, g);
    OffsetIs(cur, d - 1, GROUPS);
    forall e | 1 <= e <= d - 1 ensures Offset(cur, e, GROUPS) != g { OffsetIs(cur, e, GROUPS); }
    HitsPast(cur, p, b, g, d - 1, 1 + m);
    assert Succ(Offset(cur, d - 1, GROUPS), GROUPS) == g;
  }

  lemma HitsBack(cur: nat, p: nat, b: seq<bool>, g: nat, m: nat)
    requires cur < GROUPS && p < |b| && g < GROUPS
    ensures Hits(g, p, b, g, GROUPS - Distance(cur, g) + m) == Hits(cur, p, b, g, m)
  {
    hide Offset, Hits;
    var d := GROUPS - Distance(cur, g);
    OffsetIs(g, d, GROUPS);
    forall e | 1 <= e <= d ensures Offset(g, e, GROUPS) != g { OffsetIs(g, e, GROUPS); }
    HitsPast(g, p, b, g, d, m);
  }

  /** One turn of the round robin reads group g once, one table cell further on. */
  lemma HitsTurn(cur: nat, p: nat, b: seq<bool>, g: nat, m: nat)
    requires cur < GROUPS && p < |b| && g < GROUPS
    ensures Hits(cur, p, b, g, GROUPS + m) == Bit(b[Succ(p, |b|)]) + Hits(cur, Succ(p, |b|), b, g, m)
  {
    hide Hits;
    HitsUpTo(cur, p, b, g, GROUPS - Distance(cur, g) + m);
    HitsBack(cur, Succ(p, |b|), b, g, m);
  }

  lemma {:induction false} HitsTurns(cur: nat, p: nat, b: seq<bool>, g: nat, r: nat)
    requires cur < GROUPS && p < |b| && g < GROUPS
    ensures Hits(cur, p, b, g, GROUPS * r) == Around(b, p, r)
    decreases r
  {
    if r > 0 {
      HitsTurn(cur, p, b, g, GROUPS * (r - 1));
      HitsTurns(cur, Succ(p, |b|), b, g, r - 1);
    }
  }

  // ----- every slot appears ten times in the table

  lemma {:induction false} AroundCounts(table: seq<int>, v: int, m: nat)
    requires m <= |table| && |table| > 0
    ensures Around(Marks(table, v), |table| - 1, m) == multiset(table[..m])[v]
    decreases m
  {
    if m > 0 {
      var b := Marks(table, v);
      AroundSplit(b, |table| - 1, m - 1, 1);
      OffsetIs(|table| - 1, m - 1, |table|);
      AroundCounts(table, v, m - 1);
      assert table[..m] == table[..m - 1] + [table[m - 1]];
      assert Around(b, Offset(|table| - 1, m - 1, |table|), 1) == Bit(b[m - 1]);
    }
  }

  lemma {:induction false} CountOnce(c: seq<int>, v: int)
    requires v in c && forall j, k :: 0 <= j < k < |c| ==> c[j] != c[k]
    ensures multiset(c)[v] == 1
  {
    var j :| 0 <= j < |c| && c[j] == v;
    assert c == c[..j] + [c[j]] + c[j + 1..];
    assert v !in c[..j] && v !in c[j + 1..];
  }

  lemma ColumnCounts(t: seq<int>, v: int, col: nat)
    requires IsTable(t) && 0 <= v < SLOTS && col < ST.COLUMNS
    ensures multiset(t[col * 10..col * 10 + 10])[v] == 1
  {
    var c := ST.Column(t, ST.Contiguous, 10, col);
    assert t[col * 10..col * 10 + 10] == c;
    assert v in c;
    CountOnce(c, v);
  }

  lemma {:induction false} TableCounts(t: seq<int>, v: int, cols: nat)
    requires IsTable(t) && 0 <= v < SLOTS && cols <= ST.COLUMNS
    ensures multiset(t[..cols * 10])[v] == cols
    decreases cols
  {
    if cols > 0 {
      var n := cols * 10 - 10;
      TableCounts(t, v, cols - 1);
      ColumnCounts(t, v, cols - 1);
      hide IsTable;
      assert t[..n + 10] == t[..n] + t[n..n + 10];
    }
  }

  // ----- the theorems

  /** Number of supported groups. */
  ghost function OnCount(on: seq<bool>): nat
    requires |on| == GROUPS
  {
    Around(on, GROUPS - 1, GROUPS)
  }

  /** 100 * k draws are what 100 turns of the round robin emit, starting one tick early. */
  lemma DrawsAreTurns(s: Sampler, on: seq<bool>, table: seq<int>) returns (s0: Sampler)
    requires WellFormed(s) && SomeOn(on) && on[s.group] && |table| == TABLE_SIZE
    ensures WellFormed(s0)
    ensures Draws(s, on, table, 100 * OnCount(on)) == Emitted(s0, on, table, GROUPS * 100)
  {
    var before := if s.group == 0 then GROUPS - 1 else s.group - 1;
    var p := s.pos[s.group];
    s0 := Sampler(before, s.pos[s.group := if p == 0 then TABLE_SIZE - 1 else p - 1]);
    assert Tick(s0, on) == s;
    NextIsTick(s0, on);
    EmittedAreDraws(s0, on, table, GROUPS * 100);
    AroundTurns(on, before, 100);
  }

  lemma TurnsAreFair(s0: Sampler, on: seq<bool>, table: seq<int>, g: nat, v: int)
    requires WellFormed(s0) && SomeOn(on) && IsTable(table) && g < GROUPS && on[g] && 0 <= v < SLOTS
    ensures multiset(Emitted(s0, on, table, GROUPS * 100))[(g, v)] == 10
  {
    hide Emitted, Hits, Around;
    EmittedCount(s0, on, table, GROUPS * 100, g, v);
    HitsTurns(s0.group, s0.pos[g], Marks(table, v), g, 100);
    AroundFull(Marks(table, v), s0.pos[g]);
    AroundCounts(table, v, 100);
    TableCounts(table, v, 10);
    assert table[..100] == table;
  }

  /** Fairness: in any 100 * k consecutive draws over k supported groups, every slot of
      every supported group is presented exactly ten times, whatever the random bytes the
      table was built from and wherever each group's position stands. */
  lemma DrawsAreFair(s: Sampler, on: seq<bool>, table: seq<int>, g: nat, v: int)
    requires WellFormed(s) && SomeOn(on) && on[s.group] && IsTable(table)
    requires g < GROUPS && on[g] && 0 <= v < SLOTS
    ensures multiset(Draws(s, on, table, 100 * OnCount(on)))[(g, v)] == 10
  {
    var s0 := DrawsAreTurns(s, on, table);
    TurnsAreFair(s0, on, table, g, v);
  }

  /** Acceptance test of the redraw loop: a supported slot no higher than the limit. */
  predicate Acceptable(d: Draw, masks: seq<set<int>>, limit: int)
    requires d.0 < |masks|
  {
    d.1 in masks[d.0] && d.1 <= limit
  }

  ghost function On(masks: seq<set<int>>): (on: seq<bool>)
    ensures |on| == |masks|
  {
    seq(|masks|, g requires 0 <= g < |masks| => masks[g] != {})
  }

  /** Draw number h is the first acceptable one. */
  ghost predicate FirstAcceptable(s: Sampler, table: seq<int>, masks: seq<set<int>>, limit: int, h: nat)
    requires WellFormed(s) && |masks| == GROUPS && SomeOn(On(masks)) && |table| == TABLE_SIZE
  {
    && Acceptable(Read(Iter(s, On(masks), h), table), masks, limit)
    && forall i :: 0 <= i < h ==> !Acceptable(Read(Iter(s, On(masks), i), table), masks, limit)
  }

  ghost predicate SlotBelow(masks: seq<set<int>>, limit: int) {
    exists g, v :: 0 <= g < |masks| && v in masks[g] && 0 <= v <= limit && v < SLOTS
  }

  lemma CountedIsDrawn(ds: seq<Draw>, d: Draw) returns (k: nat)
    requires multiset(ds)[d] > 0
    ensures k < |ds| && ds[k] == d
  {
    assert d in ds;
    k :| k < |ds| && ds[k] == d;
  }

  lemma {:induction false} LeastAcceptable(s: Sampler, table: seq<int>, masks: seq<set<int>>, limit: int, k: nat)
      returns (h: nat)
    requires WellFormed(s) && |masks| == GROUPS && SomeOn(On(masks)) && |table| == TABLE_SIZE
    requires Acceptable(Read(Iter(s, On(masks), k), table), masks, limit)
    ensures h <= k && FirstAcceptable(s, table, masks, limit, h)
    decreases k
  {
    if i: nat :| i < k && Acceptable(Read(Iter(s, On(masks), i), table), masks, limit) {
      h := LeastAcceptable(s, table, masks, limit, i);
    } else {
      h := k;
    }
  }

  /** An acceptable draw comes up within 100 draws per supported group. */
  lemma RedrawStops(s: Sampler, table: seq<int>, masks: seq<set<int>>, limit: int) returns (h: nat)
    requires WellFormed(s) && |masks| == GROUPS && SomeOn(On(masks)) && On(masks)[s.group] && IsTable(table)
    requires SlotBelow(masks, limit)
    ensures h < 100 * OnCount(On(masks)) && FirstAcceptable(s, table, masks, limit, h)
  {
    var on := On(masks);
    var g, v :| 0 <= g < |masks| && v in masks[g] && 0 <= v <= limit && v < SLOTS;
    var n := 100 * OnCount(on);
    DrawsAreFair(s, on, table, g, v);
    var k := CountedIsDrawn(Draws(s, on, table, n), (g, v));
    DrawsAt(s, on, table, n, k);
    h := LeastAcceptable(s, table, masks, limit, k);
  }

  lemma TableEntry(table: seq<int>, p: nat)
    requires IsTable(table) && p < TABLE_SIZE
    ensures |table| == TABLE_SIZE && 0 <= table[p] < SLOTS
  {
    var col := ST.Column(table, ST.Contiguous, 10, p / 10);
    assert col[p % 10] == table[p];
  }

  lemma AcceptableIsBelow(s: Sampler, table: seq<int>, masks: seq<set<int>>, limit: int)
    requires WellFormed(s) && |masks| == GROUPS && IsTable(table)
    requires Acceptable(Read(s, table), masks, limit)
    ensures SlotBelow(masks, limit)
  {
    TableEntry(table, s.pos[s.group]);
  }

  /** The redraw loop stops if and only if some supported group has a supported slot within
      the limit; otherwise no number of draws satisfies it. */
  lemma RedrawStopsIff(s: Sampler, table: seq<int>, masks: seq<set<int>>, limit: int)
    requires WellFormed(s) && |masks| == GROUPS && SomeOn(On(masks)) && On(masks)[s.group] && IsTable(table)
    ensures (exists h: nat :: FirstAcceptable(s, table, masks, limit, h)) <==> SlotBelow(masks, limit)
  {
    if SlotBelow(masks, limit) {
      var h := RedrawStops(s, table, masks, limit);
    }
    if h: nat :| FirstAcceptable(s, table, masks, limit, h) {
      AcceptableIsBelow(Iter(s, On(masks), h), table, masks, limit);
    }
  }
}
