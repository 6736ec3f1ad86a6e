/** The two sampling tables. Both controllers fill a table of ten columns by linear probing
    from a random start; only the memory layout of a column differs. */
module SampleTable {

  const COLUMNS: nat := 10
  const UNSET: int := 0xff

  /** HT keeps the ten cells of a column next to each other; the legacy controller strides
      by the number of columns. */
  datatype Layout = Contiguous | Strided

  ghost predicate Fits(layout: Layout, n: nat) {
    1 <= n <= 255 && (layout.Contiguous? ==> n == 10)
  }

  function Cell(layout: Layout, col: nat, j: nat): nat {
    match layout
    case Contiguous => col * 10 + j
    case Strided => j * 10 + col
  }

  ghost function Column(t: seq<int>, layout: Layout, n: nat, col: nat): (c: seq<int>)
    requires Fits(layout, n) && |t| == n * COLUMNS && col < COLUMNS
    ensures |c| == n
  {
    seq(n, j requires 0 <= j < n => t[Cell(layout, col, j)])
  }

  ghost predicate IsPermutation(c: seq<int>) {
    && (forall j :: 0 <= j < |c| ==> 0 <= c[j] < |c|)
    && (forall j, k :: 0 <= j < k < |c| ==> c[j] != c[k])
    && (forall v :: 0 <= v < |c| ==> v in c)
  }

  // ----- linear probing on one column

  function Wrap(x: nat, n: nat): (r: nat)
    requires x < 2 * n
    ensures r < n
  {
    if x >= n then x - n else x
  }

  predicate FreeAt(c: seq<int>, start: nat, e: nat)
    requires start < |c| && e < |c|
  {
    c[Wrap(start + e, |c|)] == UNSET
  }

  ghost predicate FreeAhead(c: seq<int>, start: nat, d: nat)
    requires start < |c|
  {
    exists e :: d <= e < |c| && FreeAt(c, start, e)
  }

  /** First free cell at or after start + d, going round. */
  function FirstFree(c: seq<int>, start: nat, d: nat): (r: nat)
    requires start < |c| && d < |c| && FreeAhead(c, start, d)
    ensures r < |c| && c[r] == UNSET
    decreases |c| - d
  {
    if FreeAt(c, start, d) then Wrap(start + d, |c|) else FirstFree(c, start, d + 1)
  }

  /** Value i is put into the first free cell from s on, or, if there is none, from cell 0 on. */
  ghost predicate Lands(c: seq<int>, s: nat, i: nat, c': seq<int>) {
    exists f: nat :: f < |c| && c[f] == UNSET && c' == c[f := i] &&
      if f >= s then forall k :: s <= k < f ==> c[k] != UNSET
      else (forall k :: s <= k < |c| ==> c[k] != UNSET) && forall k :: 0 <= k < f ==> c[k] != UNSET
  }

  lemma {:induction false} FirstFreeIs(c: seq<int>, start: nat, d: nat) returns (e: nat)
    requires start < |c| && d < |c| && FreeAhead(c, start, d)
    ensures d <= e < |c| && FirstFree(c, start, d) == Wrap(start + e, |c|)
    ensures forall k :: d <= k < e ==> !FreeAt(c, start, k)
    decreases |c| - d
  {
    if FreeAt(c, start, d) { e := d; } else { e := FirstFreeIs(c, start, d + 1); }
  }

  lemma FirstFreeLands(c: seq<int>, s: nat, i: nat)
    requires s < |c| && FreeAhead(c, s, 0)
    ensures Lands(c, s, i, c[FirstFree(c, s, 0) := i])
  {
    var e := FirstFreeIs(c, s, 0);
    var f := FirstFree(c, s, 0);
    forall k | 0 <= k < |c| && if k >= s then k - s < e else k + |c| - s < e ensures c[k] != UNSET {
      assert !FreeAt(c, s, if k >= s then k - s else k + |c| - s);
    }
  }

  /** After i placements: cells hold distinct values below i, each value once. */
  ghost predicate Partial(c: seq<int>, i: nat) {
    && (forall j :: 0 <= j < |c| ==> c[j] == UNSET || 0 <= c[j] < i)
    && (forall j, k :: 0 <= j < k < |c| && c[j] != UNSET ==> c[j] != c[k])
    && (forall v :: 0 <= v < i ==> v in c)
  }

  lemma {:induction false} Pigeonhole(c: seq<int>, i: nat)
    requires forall j :: 0 <= j < |c| ==> 0 <= c[j] < i
    requires forall j, k :: 0 <= j < k < |c| ==> c[j] != c[k]
    ensures |c| <= i
  {
    if |c| > 0 {
      assert 0 <= c[0] < i;
      if j :| 0 <= j < |c| && c[j] == i - 1 {
        Pigeonhole(c[..j] + c[j + 1..], i - 1);
      } else {
        Pigeonhole(c, i - 1);
      }
    }
  }

  lemma FreeCellExists(c: seq<int>, i: nat, start: nat)
    requires start < |c| && i < |c| && Partial(c, i)
    ensures FreeAhead(c, start, 0)
  {
    if f :| 0 <= f < |c| && c[f] == UNSET {
      var e := if f >= start then f - start else f + |c| - start;
      assert FreeAt(c, start, e);
    } else {
      Pigeonhole(c, i);
    }
  }

  function Start(n: nat, rnd: seq<nat>, i: nat): (r: nat)
    requires n > 0 && |rnd| > 0
    ensures r < n
  {
    (i + rnd[i % |rnd|]) % n
  }

  /** A column after the first i values have been placed. */
  ghost function Placed(n: nat, rnd: seq<nat>, i: nat): (c: seq<int>)
    requires 1 <= n <= 255 && |rnd| > 0 && i <= n
    ensures |c| == n && Partial(c, i)
  {
    if i == 0 then seq(n, _ => UNSET)
    else
      var c := Placed(n, rnd, i - 1);
      var s := Start(n, rnd, i - 1);
      FreeCellExists(c, i - 1, s);
      var f := FirstFree(c, s, 0);
      PlaceKeepsPartial(c, i - 1, f);
      c[f := i - 1]
  }

  lemma PlaceKeepsPartial(c: seq<int>, i: nat, f: nat)
    requires f < |c| && c[f] == UNSET && i < UNSET && Partial(c, i)
    ensures Partial(c[f := i], i + 1)
  {
    var c' := c[f := i];
    forall v | 0 <= v < i + 1 ensures v in c' {
      if v == i {
        assert c'[f] == v;
      } else {
        assert v in c;
        var j :| 0 <= j < |c| && c[j] == v;
        assert c'[j] == v;
      }
    }
  }

  lemma FullIsPermutation(c: seq<int>)
    requires |c| <= UNSET && Partial(c, |c|)
    ensures IsPermutation(c)
  {
    if f :| 0 <= f < |c| && c[f] == UNSET {
      var rest := c[..f] + c[f + 1..];
      forall v | 0 <= v < |c| ensures v in rest {
        assert v in c;
        var j :| 0 <= j < |c| && c[j] == v;
        assert rest[if j < f then j else j - 1] == v;
      }
      CoverNeedsLength(rest, |c|);
    }
  }

  /** Whatever the random bytes, a filled column is a permutation of 0..n-1. */
  lemma PlacedIsPermutation(n: nat, rnd: seq<nat>)
    requires 1 <= n <= 255 && |rnd| > 0
    ensures IsPermutation(Placed(n, rnd, n))
  {
    FullIsPermutation(Placed(n, rnd, n));
  }

  lemma {:induction false} CoverNeedsLength(c: seq<int>, n: nat)
    requires forall v :: 0 <= v < n ==> v in c
    ensures |c| >= n
  {
    if n > 0 {
      assert n - 1 in c;
      var j :| 0 <= j < |c| && c[j] == n - 1;
      var rest := c[..j] + c[j + 1..];
      forall v | 0 <= v < n - 1 ensures v in rest {
        assert v in c;
        var k :| 0 <= k < |c| && c[k] == v;
        assert rest[if k < j then k else k - 1] == v;
      }
      CoverNeedsLength(rest, n - 1);
    }
  }

  /** Random values, below twice the column's length, that send every value straight to its cell of a permutation. */
  function Straight(cells: seq<nat>): (rnd: seq<nat>)
    ensures |rnd| == |cells|
  {
    seq(|cells|, i requires 0 <= i < |cells| => if cells[i] >= i then cells[i] - i else cells[i] + |cells| - i)
  }

  /** Every permutation arises: with these bytes value i ends up in cell cells[i]. */
  lemma {:induction false} EveryPermutationArises(cells: seq<nat>, i: nat)
    requires 1 <= |cells| <= 255 && i <= |cells|
    requires forall j :: 0 <= j < |cells| ==> cells[j] < |cells|
    requires forall j, k :: 0 <= j < k < |cells| ==> cells[j] != cells[k]
    ensures forall j :: 0 <= j < i ==> Placed(|cells|, Straight(cells), i)[cells[j]] == j
    ensures forall j :: i <= j < |cells| ==> Placed(|cells|, Straight(cells), i)[cells[j]] == UNSET
    decreases i
  {
    if i > 0 {
      hide Placed, Straight, Start, Partial;
      EveryPermutationArises(cells, i - 1);
      StraightStart(cells, i - 1);
      PlacedAtStart(|cells|, Straight(cells), i);
    }
  }

  /** A value whose start is free stays there. */
  lemma PlacedAtStart(n: nat, rnd: seq<nat>, i: nat)
    requires 1 <= n <= 255 && |rnd| > 0 && 0 < i <= n && Placed(n, rnd, i - 1)[Start(n, rnd, i - 1)] == UNSET
    ensures Placed(n, rnd, i) == Placed(n, rnd, i - 1)[Start(n, rnd, i - 1) := i - 1]
  {
    hide Start, Partial;
    var c := Placed(n, rnd, i - 1);
    var s := Start(n, rnd, i - 1);
    FreeCellExists(c, i - 1, s);
    assert FreeAt(c, s, 0) && FirstFree(c, s, 0) == s;
  }

  lemma StraightStart(cells: seq<nat>, i: nat)
    requires i < |cells| && cells[i] < |cells|
    ensures Start(|cells|, Straight(cells), i) == cells[i]
  {
    var n := |cells|;
    Remainder(i, n);
    Remainder(cells[i], n);
  }

  lemma Remainder(x: nat, n: nat)
    requires x < n
    ensures x % n == x && (x + n) % n == x
  {
  }

  // ----- the tables in memory

  lemma CellsDiffer(layout: Layout, n: nat, col: nat, j: nat, col': nat, j': nat)
    requires Fits(layout, n) && col < COLUMNS && col' < COLUMNS && j < n && j' < n
    ensures Cell(layout, col, j) < n * COLUMNS
    ensures Cell(layout, col, j) == Cell(layout, col', j') ==> col == col' && j == j'
  {
  }

  lemma ColumnAt(t: seq<int>, layout: Layout, n: nat, col: nat, j: nat)
    requires Fits(layout, n) && |t| == n * COLUMNS && col < COLUMNS && j < n
    ensures Cell(layout, col, j) < |t| && Column(t, layout, n, col)[j] == t[Cell(layout, col, j)]
  {
  }

  /** Writing one cell changes one entry of one column. */
  lemma WriteColumn(t: seq<int>, layout: Layout, n: nat, col: nat, j: nat, x: int)
    requires Fits(layout, n) && |t| == n * COLUMNS && col < COLUMNS && j < n
    ensures Cell(layout, col, j) < |t|
    ensures var t' := t[Cell(layout, col, j) := x];
            && Column(t', layout, n, col) == Column(t, layout, n, col)[j := x]
            && forall col' :: 0 <= col' < COLUMNS && col' != col ==>
                 Column(t', layout, n, col') == Column(t, layout, n, col')
  {
    CellsDiffer(layout, n, col, j, col, j);
    var t' := t[Cell(layout, col, j) := x];
    forall col' | 0 <= col' < COLUMNS
      ensures Column(t', layout, n, col') == if col' == col then Column(t, layout, n, col)[j := x]
              else Column(t, layout, n, col')
    {
      forall k | 0 <= k < n
        ensures Column(t', layout, n, col')[k] == if col' == col && k == j then x else Column(t, layout, n, col')[k]
      {
        CellsDiffer(layout, n, col, j, col', k);
      }
    }
  }

  /** Probe from start to the first free cell of the column, going round. */
  method Probe(t: array<int>, layout: Layout, n: nat, col: nat, start: nat) returns (newIdx: nat)
    requires Fits(layout, n) && t.Length == n * COLUMNS && col < COLUMNS && start < n
    requires FreeAhead(Column(t[..], layout, n, col), start, 0)
    ensures newIdx == FirstFree(Column(t[..], layout, n, col), start, 0)
  {
    hide Column, FreeAhead, FirstFree;
    newIdx := start;
    ghost var c := Column(t[..], layout, n, col);
    ghost var goal := FirstFree(c, start, 0);
    ghost var d := 0;
    ColumnAt(t[..], layout, n, col, newIdx);
    while t[Cell(layout, col, newIdx)] != UNSET
      invariant d < n && newIdx == Wrap(start + d, n)
      invariant Cell(layout, col, newIdx) < t.Length && c[newIdx] == t[Cell(layout, col, newIdx)]
      invariant FreeAhead(c, start, d) && FirstFree(c, start, d) == goal
      decreases n - d
    {
      ProbeStep(c, start, d);
      newIdx := (newIdx + 1) % n;
      d := d + 1;
      ColumnAt(t[..], layout, n, col, newIdx);
    }
    ProbeStop(c, start, d);
  }

  lemma ProbeStop(c: seq<int>, start: nat, d: nat)
    requires start < |c| && d < |c| && FreeAt(c, start, d)
    ensures FreeAhead(c, start, d) && FirstFree(c, start, d) == Wrap(start + d, |c|)
  {
  }

  lemma ProbeStep(c: seq<int>, start: nat, d: nat)
    requires start < |c| && d < |c| && FreeAhead(c, start, d) && !FreeAt(c, start, d)
    ensures d + 1 < |c| && FreeAhead(c, start, d + 1) && FirstFree(c, start, d) == FirstFree(c, start, d + 1)
    ensures (Wrap(start + d, |c|) + 1) % |c| == Wrap(start + d + 1, |c|)
  {
    ModStep(Wrap(start + d, |c|), |c|);
  }

  lemma ModStep(j: nat, n: nat)
    requires j < n
    ensures (j + 1) % n == if j + 1 == n then 0 else j + 1
  {
  }

  lemma LandsNext(n: nat, rnd: seq<nat>, i: nat)
    requires 1 <= n <= 255 && |rnd| > 0 && i < n
    ensures Lands(Placed(n, rnd, i), (i + rnd[i % |rnd|]) % n, i, Placed(n, rnd, i + 1))
  {
    var c, s := Placed(n, rnd, i), (i + rnd[i % |rnd|]) % n;
    FreeCellExists(c, i, s);
    FirstFreeLands(c, s, i);
    hide Lands;
  }

  method PlaceValue(t: array<int>, layout: Layout, n: nat, col: nat, rnd: seq<nat>, i: nat)
    requires Fits(layout, n) && t.Length == n * COLUMNS && col < COLUMNS && |rnd| > 0 && i < n
    requires Column(t[..], layout, n, col) == Placed(n, rnd, i)
    modifies t
    ensures Column(t[..], layout, n, col) == Placed(n, rnd, i + 1)
    ensures Lands(old(Column(t[..], layout, n, col)), (i + rnd[i % |rnd|]) % n, i, Column(t[..], layout, n, col))
    ensures forall col' :: 0 <= col' < COLUMNS && col' != col ==>
              Column(t[..], layout, n, col') == old(Column(t[..], layout, n, col'))
  {
    LandsNext(n, rnd, i);
    hide Lands;
    var start := Start(n, rnd, i);
    FreeCellExists(Placed(n, rnd, i), i, start);
    var newIdx := Probe(t, layout, n, col, start);
    WriteColumn(t[..], layout, n, col, newIdx, i);
    ghost var before := t[..];
    t[Cell(layout, col, newIdx)] := i;
    assert t[..] == before[Cell(layout, col, newIdx) := i];
  }

  method FillColumn(t: array<int>, layout: Layout, n: nat, col: nat, rnd: seq<nat>)
    requires Fits(layout, n) && t.Length == n * COLUMNS && col < COLUMNS && |rnd| > 0
    requires Column(t[..], layout, n, col) == Placed(n, rnd, 0)
    modifies t
    ensures Column(t[..], layout, n, col) == Placed(n, rnd, n)
    ensures forall col' :: 0 <= col' < COLUMNS && col' != col ==>
              Column(t[..], layout, n, col') == old(Column(t[..], layout, n, col'))
  {
    for i := 0 to n
      invariant Column(t[..], layout, n, col) == Placed(n, rnd, i)
      invariant forall col' :: 0 <= col' < COLUMNS && col' != col ==>
                  Column(t[..], layout, n, col') == old(Column(t[..], layout, n, col'))
    {
      PlaceValue(t, layout, n, col, rnd, i);
    }
  }

  /** Reset the whole table, then fill it column by column. */
  method InitSampleTable(t: array<int>, layout: Layout, n: nat, rnds: seq<seq<nat>>)
    requires Fits(layout, n) && t.Length == n * COLUMNS
    requires |rnds| == COLUMNS && forall col :: 0 <= col < COLUMNS ==> |rnds[col]| > 0
    modifies t
    ensures forall col :: 0 <= col < COLUMNS ==>
              && Column(t[..], layout, n, col) == Placed(n, rnds[col], n)
              && IsPermutation(Column(t[..], layout, n, col))
  {
    forall k | 0 <= k < t.Length {
      t[k] := UNSET;
    }
    forall col | 0 <= col < COLUMNS ensures Column(t[..], layout, n, col) == Placed(n, rnds[col], 0) {
      forall j | 0 <= j < n ensures Column(t[..], layout, n, col)[j] == UNSET {
        CellsDiffer(layout, n, col, j, col, j);
      }
    }
    for col := 0 to COLUMNS
      invariant forall c :: 0 <= c < col ==> Column(t[..], layout, n, c) == Placed(n, rnds[c], n)
      invariant forall c :: col <= c < COLUMNS ==> Column(t[..], layout, n, c) == Placed(n, rnds[c], 0)
    {
      FillColumn(t, layout, n, col, rnds[col]);
    }
    forall col | 0 <= col < COLUMNS ensures IsPermutation(Column(t[..], layout, n, col)) {
      PlacedIsPermutation(n, rnds[col]);
    }
  }
}
