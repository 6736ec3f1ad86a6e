/** The bounded insertion that keeps the four best rates, ranked by throughput and then by
    success average. A list starts as four placeholders of rate 0. */
module TopRates {

  const DEPTH: nat := 4

  datatype Key = Key(tp: int, prob: int)

  predicate KeyLe(a: Key, b: Key) { a.tp < b.tp || (a.tp == b.tp && a.prob <= b.prob) }

  const PLACEHOLDERS: seq<nat> := [0, 0, 0, 0]

  ghost predicate Within(keys: seq<Key>, list: seq<nat>) {
    |list| == DEPTH && forall k :: 0 <= k < DEPTH ==> list[k] < |keys|
  }

  ghost predicate AllBelow(xs: seq<nat>, n: nat) { forall k :: 0 <= k < |xs| ==> xs[k] < n }

  /** Insertion point of x, searched from the end: behind everything that ranks at least as high. */
  ghost function Place(keys: seq<Key>, list: seq<nat>, x: nat, j: nat): (r: nat)
    requires Within(keys, list) && x < |keys| && j <= DEPTH
    ensures r <= j
    ensures forall k :: r <= k < j ==> !KeyLe(keys[x], keys[list[k]])
    ensures r > 0 ==> KeyLe(keys[x], keys[list[r - 1]])
  {
    if j == 0 || KeyLe(keys[x], keys[list[j - 1]]) then j else Place(keys, list, x, j - 1)
  }

  ghost function Insert(keys: seq<Key>, list: seq<nat>, x: nat): (r: seq<nat>)
    requires Within(keys, list) && x < |keys|
    ensures Within(keys, r)
  {
    var j := Place(keys, list, x, DEPTH);
    if j == DEPTH then list else list[..j] + [x] + list[j..DEPTH - 1]
  }

  /** The insertion in place: search from the end, shift the tail, store. cur and listKeys
      are the keys of x and of the listed rates. */
  method InsertInPlace(list: array<nat>, x: nat, cur: Key, listKeys: seq<Key>, ghost keys: seq<Key>)
    requires list.Length == DEPTH && Within(keys, list[..]) && x < |keys| && cur == keys[x]
    requires |listKeys| == DEPTH && forall k :: 0 <= k < DEPTH ==> listKeys[k] == keys[list[k]]
    modifies list
    ensures list[..] == Insert(keys, old(list[..]), x)
  {
    ghost var before := list[..];
    var j := DEPTH;
    while j > 0 && !KeyLe(cur, listKeys[j - 1])
      invariant 0 <= j <= DEPTH
      invariant Place(keys, before, x, DEPTH) == Place(keys, before, x, j)
    {
      j := j - 1;
    }
    if j < DEPTH {
      forall k | j < k < DEPTH {
        list[k] := list[k - 1];
      }
      list[j] := x;
      assert list[..] == before[..j] + [x] + before[j..DEPTH - 1];
    }
  }

  ghost function InsertAll(keys: seq<Key>, list: seq<nat>, xs: seq<nat>): (r: seq<nat>)
    requires Within(keys, list) && AllBelow(xs, |keys|)
    ensures Within(keys, r)
    decreases |xs|
  {
    if xs == [] then list else Insert(keys, InsertAll(keys, list, xs[..|xs| - 1]), xs[|xs| - 1])
  }

  /** What scanning xs in order leaves in a list. */
  ghost function TopList(keys: seq<Key>, xs: seq<nat>): (r: seq<nat>)
    requires |keys| > 0 && AllBelow(xs, |keys|)
    ensures Within(keys, r)
  {
    InsertAll(keys, PLACEHOLDERS, xs)
  }

  lemma {:induction false} InsertAllEntries(keys: seq<Key>, list: seq<nat>, xs: seq<nat>)
    requires Within(keys, list) && AllBelow(xs, |keys|)
    ensures forall y :: y in InsertAll(keys, list, xs) ==> y in xs || y in list
    decreases |xs|
  {
    if xs != [] {
      InsertAllEntries(keys, list, xs[..|xs| - 1]);
      InsertEntries(keys, InsertAll(keys, list, xs[..|xs| - 1]), xs[|xs| - 1]);
    }
  }

  lemma InsertEntries(keys: seq<Key>, list: seq<nat>, x: nat)
    requires Within(keys, list) && x < |keys|
    ensures forall y :: y in Insert(keys, list, x) ==> y == x || y in list
  {
  }

  /** A list holds nothing but scanned rates and the placeholder. */
  lemma TopListEntries(keys: seq<Key>, xs: seq<nat>)
    requires |keys| > 0 && AllBelow(xs, |keys|)
    ensures forall y :: y in TopList(keys, xs) ==> y in xs || y == 0
  {
    InsertAllEntries(keys, PLACEHOLDERS, xs);
  }

  /** Strict ranking: the key decides, ties go to the lower index. */
  predicate Better(keys: seq<Key>, a: nat, b: nat)
    requires a < |keys| && b < |keys|
  {
    !KeyLe(keys[a], keys[b]) || (keys[a] == keys[b] && a < b)
  }

  /** Best first; only the placeholder may repeat. */
  ghost predicate Ranked(keys: seq<Key>, list: seq<nat>)
    requires Within(keys, list)
  {
    forall a, b :: 0 <= a < b < DEPTH ==> Better(keys, list[a], list[b]) || list[a] == list[b] == 0
  }

  ghost predicate IsTop(keys: seq<Key>, list: seq<nat>, xs: seq<nat>)
    requires Within(keys, list) && AllBelow(xs, |keys|)
  {
    && Ranked(keys, list)
    && (forall y :: y in list ==> y in xs || y == 0)
    && (forall k :: 0 <= k < DEPTH ==> list[k] == 0 || Better(keys, list[k], 0))
    && (forall x :: x in xs ==> x in list || Better(keys, list[DEPTH - 1], x))
  }

  ghost predicate Ascending(xs: seq<nat>) { forall a, b :: 0 <= a < b < |xs| ==> xs[a] < xs[b] }

  lemma InsertKeepsTop(keys: seq<Key>, list: seq<nat>, xs: seq<nat>, x: nat)
    requires Within(keys, list) && x < |keys| && AllBelow(xs, x)
    requires IsTop(keys, list, xs)
    requires xs == [] ==> list == PLACEHOLDERS
    ensures IsTop(keys, Insert(keys, list, x), xs + [x])
  {
    var j := Place(keys, list, x, DEPTH);
    var r := Insert(keys, list, x);
    InsertEntries(keys, list, x);
    forall k | 0 <= k < DEPTH ensures list[k] < x || list[k] == x == 0 { assert list[k] in list; }
    if j < DEPTH {
      RanksAfterInsert(keys, list, x, j, r);
    }
    hide Insert, Place;
    BeatsPlaceholder(keys, list, x, r);
    InsertedOrBeaten(keys, list, x, r);
    forall y | y in xs + [x] ensures y in r || Better(keys, r[DEPTH - 1], y) {
      if y in xs && y !in r {
        LeftOut(keys, list, x, j, r, y);
      }
    }
  }

  lemma BeatsPlaceholder(keys: seq<Key>, list: seq<nat>, x: nat, r: seq<nat>)
    requires Within(keys, list) && x < |keys| && r == Insert(keys, list, x)
    requires forall k :: 0 <= k < DEPTH ==> list[k] == 0 || Better(keys, list[k], 0)
    ensures forall k :: 0 <= k < DEPTH ==> r[k] == 0 || Better(keys, r[k], 0)
  {
    var j := Place(keys, list, x, DEPTH);
    if j < DEPTH {
      assert !KeyLe(keys[x], keys[list[j]]);
      forall k | 0 <= k < DEPTH ensures r[k] == 0 || Better(keys, r[k], 0) {
        assert r[k] == if k < j then list[k] else if k == j then x else list[k - 1];
      }
    }
  }

  lemma InsertedOrBeaten(keys: seq<Key>, list: seq<nat>, x: nat, r: seq<nat>)
    requires Within(keys, list) && x < |keys| && r == Insert(keys, list, x)
    requires forall k :: 0 <= k < DEPTH ==> list[k] < x || list[k] == x == 0
    ensures x in r || Better(keys, r[DEPTH - 1], x)
  {
    var j := Place(keys, list, x, DEPTH);
    if j < DEPTH { assert r[j] == x; } else { assert KeyLe(keys[x], keys[list[DEPTH - 1]]); }
  }

  lemma RanksBefore(keys: seq<Key>, list: seq<nat>, x: nat, j: nat, a: nat)
    requires Within(keys, list) && x < |keys| && Ranked(keys, list)
    requires j == Place(keys, list, x, DEPTH) && a < j && list[a] < x
    ensures Better(keys, list[a], x)
  {
    assert KeyLe(keys[x], keys[list[j - 1]]);
    if a < j - 1 { assert Better(keys, list[a], list[j - 1]) || list[a] == list[j - 1]; }
  }

  lemma RanksAfterInsert(keys: seq<Key>, list: seq<nat>, x: nat, j: nat, r: seq<nat>)
    requires Within(keys, list) && x < |keys| && Ranked(keys, list) && j < DEPTH
    requires forall k :: 0 <= k < DEPTH ==> list[k] < x || list[k] == x == 0
    requires j == Place(keys, list, x, DEPTH) && r == list[..j] + [x] + list[j..DEPTH - 1]
    ensures Within(keys, r) && Ranked(keys, r)
  {
    forall a, b | 0 <= a < b < DEPTH ensures Better(keys, r[a], r[b]) || r[a] == r[b] == 0 {
      if b == j {
        assert r[a] == list[a];
        if list[a] < x { RanksBefore(keys, list, x, j, a); }
      } else if a == j {
        assert r[b] == list[b - 1] && !KeyLe(keys[x], keys[list[b - 1]]);
      } else {
        assert r[a] == list[if a < j then a else a - 1] && r[b] == list[if b < j then b else b - 1];
      }
    }
  }

  lemma LeftOut(keys: seq<Key>, list: seq<nat>, x: nat, j: nat, r: seq<nat>, y: nat)
    requires Within(keys, list) && x < |keys| && y < x && Ranked(keys, list)
    requires j == Place(keys, list, x, DEPTH) && r == Insert(keys, list, x) && y !in r
    requires y in list || Better(keys, list[DEPTH - 1], y)
    ensures Better(keys, r[DEPTH - 1], y)
  {
    if j < DEPTH {
      var last := list[DEPTH - 1];
      forall k | 0 <= k < DEPTH - 1 ensures list[k] != y { assert r[if k < j then k else k + 1] == list[k]; }
      if j == DEPTH - 1 {
        assert r[DEPTH - 1] == x && !KeyLe(keys[x], keys[last]);
      } else {
        assert r[DEPTH - 1] == list[DEPTH - 2];
        assert Better(keys, list[DEPTH - 2], last) || list[DEPTH - 2] == last;
      }
    }
  }

  /** Scanning rates in ascending order yields the best four: ranked by throughput, then
      success average, then index; every scanned rate left out ranks below the last entry. */
  lemma {:induction false} TopListIsTop(keys: seq<Key>, xs: seq<nat>)
    requires |keys| > 0 && AllBelow(xs, |keys|) && Ascending(xs)
    ensures IsTop(keys, TopList(keys, xs), xs)
    decreases |xs|
  {
    if xs != [] {
      var front := xs[..|xs| - 1];
      TopListIsTop(keys, front);
      InsertKeepsTop(keys, TopList(keys, front), front, xs[|xs| - 1]);
      assert front + [xs[|xs| - 1]] == xs;
    }
  }

  /** The four properties leave no choice: there is exactly one such list. */
  lemma IsTopUnique(keys: seq<Key>, a: seq<nat>, b: seq<nat>, xs: seq<nat>)
    requires Within(keys, a) && Within(keys, b) && AllBelow(xs, |keys|)
    requires IsTop(keys, a, xs) && IsTop(keys, b, xs)
    ensures a == b
  {
    for k := 0 to DEPTH
      invariant a[..k] == b[..k]
    {
      NotBetterAt(keys, a, b, xs, k);
      assert b[..k] == a[..k];
      NotBetterAt(keys, b, a, xs, k);
      assert a[..k + 1] == a[..k] + [a[k]];
      assert b[..k + 1] == b[..k] + [b[k]];
    }
    assert a == a[..DEPTH] && b == b[..DEPTH];
  }

  lemma NotBetterAt(keys: seq<Key>, a: seq<nat>, b: seq<nat>, xs: seq<nat>, k: nat)
    requires Within(keys, a) && Within(keys, b) && AllBelow(xs, |keys|) && k < DEPTH
    requires IsTop(keys, a, xs) && IsTop(keys, b, xs) && a[..k] == b[..k]
    ensures a[k] == b[k] || Better(keys, b[k], a[k])
  {
    if a[k] != 0 {
      assert a[k] in a;
      forall m | 0 <= m < k ensures b[m] != a[k] { assert a[..k][m] == b[..k][m]; }
      assert k < DEPTH - 1 ==> b[k] == b[DEPTH - 1] || Better(keys, b[k], b[DEPTH - 1]);
      if a[k] in b { var m :| 0 <= m < DEPTH && b[m] == a[k]; }
    }
  }

  /** A list depends only on the keys of what has been scanned and of the placeholder, so
      recomputing the statistics of rates still ahead does not disturb it. */
  lemma {:induction false} TopListAgrees(k: seq<Key>, k': seq<Key>, xs: seq<nat>)
    requires 0 < |k| == |k'| && (forall j :: 0 <= j < |xs| ==> xs[j] < |k| && k[xs[j]] == k'[xs[j]])
    requires xs != [] ==> k[0] == k'[0]
    ensures TopList(k, xs) == TopList(k', xs)
    decreases |xs|
  {
    if xs != [] {
      var front := xs[..|xs| - 1];
      var x := xs[|xs| - 1];
      TopListAgrees(k, k', front);
      var list := TopList(k, front);
      TopListEntries(k, front);
      PlaceAgrees(k, k', list, x, DEPTH);
    }
  }

  lemma PlaceAgrees(k: seq<Key>, k': seq<Key>, list: seq<nat>, x: nat, j: nat)
    requires |k| == |k'| && Within(k, list) && x < |k| && j <= DEPTH
    requires k[x] == k'[x] && forall y :: y in list ==> k[y] == k'[y]
    ensures Place(k, list, x, j) == Place(k', list, x, j)
  {
    if j > 0 { PlaceAgrees(k, k', list, x, j - 1); }
  }

  // ----- merging the CCK list into the MCS list

  ghost predicate Descending(keys: seq<Key>, list: seq<nat>)
    requires Within(keys, list)
  {
    forall a, b :: 0 <= a < b < DEPTH ==> KeyLe(keys[list[b]], keys[list[a]])
  }

  ghost function Merge(keys: seq<Key>, mcs: seq<nat>, cck: seq<nat>): (r: seq<nat>)
    requires Within(keys, mcs) && Within(keys, cck)
    ensures Within(keys, r)
  {
    if keys[cck[0]].tp > keys[mcs[0]].tp then InsertAll(keys, mcs, cck) else mcs
  }

  lemma {:induction false} InsertBelowHead(keys: seq<Key>, list: seq<nat>, xs: seq<nat>)
    requires Within(keys, list) && (forall k :: 0 <= k < |xs| ==> xs[k] < |keys| && KeyLe(keys[xs[k]], keys[list[0]]))
    ensures InsertAll(keys, list, xs)[0] == list[0]
    decreases |xs|
  {
    if xs != [] { InsertBelowHead(keys, list, xs[..|xs| - 1]); }
  }

  lemma {:induction false} InsertAllSplit(keys: seq<Key>, list: seq<nat>, x: nat, xs: seq<nat>)
    requires Within(keys, list) && x < |keys| && AllBelow(xs, |keys|)
    ensures InsertAll(keys, list, [x] + xs) == InsertAll(keys, Insert(keys, list, x), xs)
    decreases |xs|
  {
    if xs == [] {
      assert [x] + xs == [x];
      assert InsertAll(keys, list, [x][..0]) == list;
    } else {
      hide Insert, Place;
      assert ([x] + xs)[..|xs|] == [x] + xs[..|xs| - 1];
      InsertAllSplit(keys, list, x, xs[..|xs| - 1]);
    }
  }

  /** After the merge the head has the larger throughput of the two heads, and if the CCK
      head wins it comes first. */
  lemma MergeHead(keys: seq<Key>, mcs: seq<nat>, cck: seq<nat>)
    requires Within(keys, mcs) && Within(keys, cck) && Descending(keys, mcs) && Descending(keys, cck)
    ensures Merge(keys, mcs, cck)[0] == if keys[cck[0]].tp > keys[mcs[0]].tp then cck[0] else mcs[0]
  {
    if keys[cck[0]].tp > keys[mcs[0]].tp {
      assert cck == [cck[0]] + cck[1..];
      InsertAllSplit(keys, mcs, cck[0], cck[1..]);
      var first := Insert(keys, mcs, cck[0]);
      forall k | 0 <= k < DEPTH ensures !KeyLe(keys[cck[0]], keys[mcs[k]]) {
        assert k > 0 ==> KeyLe(keys[mcs[k]], keys[mcs[0]]);
      }
      assert first[0] == cck[0];
      InsertBelowHead(keys, first, cck[1..]);
    }
  }

  /** CCK rates appear only behind a CCK head: MCS and CCK rates are never mixed under an
      MCS rate, although the CCK list starts with non-CCK placeholders. */
  lemma NoMixing(keys: seq<Key>, ms: seq<nat>, cs: seq<nat>)
    requires |keys| > 0 && AllBelow(ms, |keys|) && AllBelow(cs, |keys|)
    requires Ascending(ms) && Ascending(cs)
    ensures var r := Merge(keys, TopList(keys, ms), TopList(keys, cs));
            && ((exists y :: y in r && y in cs && y != 0 && y !in ms) ==> r[0] in cs)
            && (forall x :: x in ms || x in cs ==> keys[x].tp <= keys[r[0]].tp)
  {
    var mcs, cck := TopList(keys, ms), TopList(keys, cs);
    var r := Merge(keys, mcs, cck);
    TopListIsTop(keys, ms);
    TopListIsTop(keys, cs);
    HeadIsBest(keys, mcs, ms);
    HeadIsBest(keys, cck, cs);
    MergeHead(keys, mcs, cck);
    PlaceholderBelowHead(keys, ms);
  }

  /** r is the list with x put in at j and the entries from there on shifted. */
  ghost predicate PutAt(list: seq<nat>, x: nat, j: nat, r: seq<nat>) {
    && |list| == |r| == DEPTH
    && forall k {:trigger r[k]} :: 0 <= k < DEPTH ==>
         r[k] == if k < j then list[k] else if k == j then x else list[k - 1]
  }

  /** An inserted rate stands behind what ranks at least as high and in front of the rest. */
  lemma InsertedAt(keys: seq<Key>, list: seq<nat>, x: nat) returns (j: nat)
    requires Within(keys, list) && x < |keys| && Descending(keys, list)
    ensures j <= DEPTH && PutAt(list, x, j, Insert(keys, list, x))
    ensures forall k :: 0 <= k < j ==> KeyLe(keys[x], keys[list[k]])
    ensures forall k :: j <= k < DEPTH ==> KeyLe(keys[list[k]], keys[x])
  {
    j := Place(keys, list, x, DEPTH);
    var r := Insert(keys, list, x);
    forall k | 0 <= k < DEPTH ensures r[k] == if k < j then list[k] else if k == j then x else list[k - 1] { }
    assert forall k :: 0 <= k < j - 1 ==> KeyLe(keys[list[j - 1]], keys[list[k]]);
  }

  /** Inserting keeps the order and raises the last entry at most. */
  lemma InsertSorted(keys: seq<Key>, list: seq<nat>, x: nat)
    requires Within(keys, list) && x < |keys| && Descending(keys, list)
    ensures Descending(keys, Insert(keys, list, x))
    ensures KeyLe(keys[list[DEPTH - 1]], keys[Insert(keys, list, x)[DEPTH - 1]])
  {
    var j := InsertedAt(keys, list, x);
    var r := Insert(keys, list, x);
    hide Insert;
    forall a, b | 0 <= a < b < DEPTH ensures KeyLe(keys[r[b]], keys[r[a]]) { }
  }

  /** y is listed or ranks no higher than the last entry. */
  ghost predicate Kept(keys: seq<Key>, r: seq<nat>, y: nat)
    requires Within(keys, r) && y < |keys|
  {
    y in r || KeyLe(keys[y], keys[r[DEPTH - 1]])
  }

  /** Inserting drops nothing better than the last entry. */
  lemma InsertKeepsBest(keys: seq<Key>, list: seq<nat>, x: nat)
    requires Within(keys, list) && x < |keys| && Descending(keys, list)
    ensures Kept(keys, Insert(keys, list, x), x)
    ensures forall k :: 0 <= k < DEPTH ==> Kept(keys, Insert(keys, list, x), list[k])
  {
    var j := InsertedAt(keys, list, x);
    var r := Insert(keys, list, x);
    hide Insert, Descending;
    forall k | 0 <= k < DEPTH ensures Kept(keys, r, list[k]) {
      if k < DEPTH - 1 { assert r[if k < j then k else k + 1] == list[k]; }
    }
    if j < DEPTH { PutThere(list, x, j, r); }
  }

  lemma PutThere(list: seq<nat>, x: nat, j: nat, r: seq<nat>)
    requires PutAt(list, x, j, r) && j < DEPTH
    ensures r[j] == x
  {
  }

  /** r leaves out nothing of list and xs that ranks above its last entry. */
  ghost predicate BestOf(keys: seq<Key>, r: seq<nat>, list: seq<nat>, xs: seq<nat>)
    requires Within(keys, r) && Within(keys, list) && AllBelow(xs, |keys|)
  {
    && (forall k :: 0 <= k < DEPTH ==> Kept(keys, r, list[k]))
    && (forall k :: 0 <= k < |xs| ==> Kept(keys, r, xs[k]))
  }

  lemma StillKept(keys: seq<Key>, r: seq<nat>, x: nat, y: nat)
    requires Within(keys, r) && x < |keys| && y < |keys| && Descending(keys, r) && Kept(keys, r, y)
    ensures Kept(keys, Insert(keys, r, x), y)
  {
    InsertSorted(keys, r, x);
    InsertKeepsBest(keys, r, x);
    hide Insert, Descending;
    if y in r { var k :| 0 <= k < DEPTH && r[k] == y; }
  }

  lemma BestOfStep(keys: seq<Key>, r: seq<nat>, list: seq<nat>, xs: seq<nat>, x: nat)
    requires Within(keys, r) && Within(keys, list) && AllBelow(xs, |keys|) && x < |keys|
    requires Descending(keys, r) && BestOf(keys, r, list, xs)
    ensures AllBelow(xs + [x], |keys|) && BestOf(keys, Insert(keys, r, x), list, xs + [x])
  {
    hide Insert, Descending, Kept;
    InsertKeepsBest(keys, r, x);
    forall k | 0 <= k < DEPTH ensures Kept(keys, Insert(keys, r, x), list[k]) { StillKept(keys, r, x, list[k]); }
    forall k | 0 <= k < |xs| ensures Kept(keys, Insert(keys, r, x), xs[k]) { StillKept(keys, r, x, xs[k]); }
  }

  lemma AllKept(keys: seq<Key>, list: seq<nat>)
    requires Within(keys, list)
    ensures BestOf(keys, list, list, [])
  {
    assert forall k :: 0 <= k < DEPTH ==> list[k] in list;
  }

  lemma {:induction false} InsertAllSorted(keys: seq<Key>, list: seq<nat>, xs: seq<nat>)
    requires Within(keys, list) && AllBelow(xs, |keys|) && Descending(keys, list)
    ensures Descending(keys, InsertAll(keys, list, xs)) && BestOf(keys, InsertAll(keys, list, xs), list, xs)
    decreases |xs|
  {
    hide Insert, Descending, Kept;
    if xs == [] {
      AllKept(keys, list);
    } else {
      var front, x := xs[..|xs| - 1], xs[|xs| - 1];
      InsertAllSorted(keys, list, front);
      InsertSorted(keys, InsertAll(keys, list, front), x);
      BestOfStep(keys, InsertAll(keys, list, front), list, front, x);
      assert front + [x] == xs;
    }
  }

  /** The merged list is in order, holds listed rates only, and leaves out no better one of
      either list if the CCK head is faster; otherwise it is the MCS list. */
  lemma MergeIsBest(keys: seq<Key>, mcs: seq<nat>, cck: seq<nat>)
    requires Within(keys, mcs) && Within(keys, cck) && Descending(keys, mcs) && Descending(keys, cck)
    ensures var r := Merge(keys, mcs, cck);
            && Descending(keys, r) && (forall y :: y in r ==> y in mcs || y in cck)
            && if keys[cck[0]].tp <= keys[mcs[0]].tp then r == mcs
               else BestOf(keys, r, mcs, cck)
  {
    InsertAllSorted(keys, mcs, cck);
    InsertAllEntries(keys, mcs, cck);
  }

  lemma HeadIsBest(keys: seq<Key>, list: seq<nat>, xs: seq<nat>)
    requires Within(keys, list) && AllBelow(xs, |keys|) && IsTop(keys, list, xs)
    ensures Descending(keys, list)
    ensures forall x :: x in xs ==> KeyLe(keys[x], keys[list[0]])
  {
    forall x | x in xs ensures KeyLe(keys[x], keys[list[0]]) {
      assert list[0] == list[DEPTH - 1] || Better(keys, list[0], list[DEPTH - 1]);
      if x in list { var k :| 0 <= k < DEPTH && list[k] == x; }
    }
  }

  lemma {:induction false} PlaceholderBelowHead(keys: seq<Key>, xs: seq<nat>)
    requires |keys| > 0 && AllBelow(xs, |keys|)
    ensures KeyLe(keys[0], keys[TopList(keys, xs)[0]])
    decreases |xs|
  {
    if xs != [] {
      PlaceholderBelowHead(keys, xs[..|xs| - 1]);
    }
  }
}
