/** When the scan follows the rule announced for the most robust rate: the fastest of the rates
    above 75% success if there are any, else the most reliable rate. The answer is exact, for
    rates on both sides of 75% and for an old choice with an outdated key. */
module HtRule {
  import opened RateGroups
  import opened TopRates
  import opened HtTables
  import opened HtSpec
  import opened HtRobust

  /** Competing rates on either side of 75%. */
  ghost predicate Weak(c: Scan, x: nat)
    requires ScanOk(c)
  {
    Competes(c, x) && After(c)[x].prob <= SEVENTYFIVE_PERCENT
  }

  ghost predicate Firm(c: Scan, x: nat)
    requires ScanOk(c)
  {
    Competes(c, x) && After(c)[x].prob > SEVENTYFIVE_PERCENT
  }

  /** A weak rate that is scanned no earlier than the old choice m, or beats its outdated average. */
  ghost predicate Seen(c: Scan, m: RateIndex, x: nat)
    requires ScanOk(c)
  {
    Weak(c, x) && (x >= m || After(c)[x].prob > Before(c)[m].prob)
  }

  /** Some rate below n displaces the old choice before it is recalculated. */
  ghost predicate Displaced(c: Scan, m: RateIndex, n: nat)
    requires ScanOk(c)
  {
    exists x :: 0 <= x < n && x < m && Seen(c, m, x)
  }

  /** w would be chosen among the rates below n if none of them were firm: the most reliable
      weak rate, or the old choice where nothing beats it; the first one among equals. */
  ghost predicate Standing(c: Scan, m: RateIndex, n: nat, w: RateIndex)
    requires ScanOk(c)
  {
    if Displaced(c, m, n) then
      && w < n && Seen(c, m, w)
      && forall x :: 0 <= x < n && Seen(c, m, x) ==>
           After(c)[x].prob <= After(c)[w].prob && (After(c)[x].prob == After(c)[w].prob ==> w <= x)
    else
      && (w == m || (m < w < n && Weak(c, w) && After(c)[w].prob > After(c)[m].prob))
      && forall x :: m < x < n && Weak(c, x) ==>
           After(c)[x].prob <= After(c)[w].prob && (After(c)[x].prob == After(c)[w].prob ==> w <= x)
  }

  /** There is only one such rate. */
  lemma StandingUnique(c: Scan, m: RateIndex, n: nat, w: RateIndex, w': RateIndex)
    requires ScanOk(c) && Standing(c, m, n, w) && Standing(c, m, n, w')
    ensures w == w'
  {
    hide ScanOk, After, Before, Competes;
  }

  /** The firm rate f is faster than the standing rate it is compared with. */
  ghost predicate Overtakes(c: Scan, m: RateIndex, f: nat)
    requires ScanOk(c)
  {
    Firm(c, f) && exists w: RateIndex :: Standing(c, m, f, w) && w != f && After(c)[f].tp > KeyDuring(c, w, f).tp
  }

  /** The choice turns firm at f: by a firm rate that overtakes the standing one, or because
      the old choice still stands when it is recalculated to above 75%. An old choice that
      does not compete counts only if nothing has overtaken it. */
  ghost predicate Enters(c: Scan, m: RateIndex, f: nat)
    requires ScanOk(c)
  {
    || Overtakes(c, m, f)
    || (f == m && After(c)[m].prob > SEVENTYFIVE_PERCENT && !Displaced(c, m, m)
        && (Competes(c, m) || forall g :: 0 <= g < m ==> !Overtakes(c, m, g)))
  }

  /** Firm rates, and the old choice where it enters without competing. */
  ghost predicate Firmly(c: Scan, m: RateIndex, x: nat)
    requires ScanOk(c)
  {
    Firm(c, x) || (x == m && Enters(c, m, m))
  }

  ghost predicate Entered(c: Scan, m: RateIndex, n: nat)
    requires ScanOk(c)
  {
    exists f :: 0 <= f < n && Enters(c, m, f)
  }

  /** Where the choice r stands after the rates below n. */
  ghost predicate Tracked(c: Scan, m: RateIndex, n: nat, r: RateIndex)
    requires ScanOk(c)
  {
    if Entered(c, m, n) then
      && r < n && Firmly(c, m, r) && After(c)[r].prob > SEVENTYFIVE_PERCENT
      && (exists f :: 0 <= f <= r && Enters(c, m, f))
      && forall f, x :: 0 <= f <= x < n && Enters(c, m, f) && Firmly(c, m, x) ==> After(c)[x].tp <= After(c)[r].tp
    else Standing(c, m, n, r)
  }

  lemma TrackedStart(c: Scan, m: RateIndex)
    requires ScanOk(c)
    ensures Tracked(c, m, 0, m)
  {
  }

  /** One rate while the choice is not firm. */
  lemma StandingStep(c: Scan, m: RateIndex, n: nat, r: RateIndex)
    requires ScanOk(c) && 0 < n <= RATES && Standing(c, m, n - 1, r) && !Firm(c, n - 1)
    ensures Standing(c, m, n, Next(c, r, n))
  {
    hide TableOk, After, Before, Competes;
    var x := n - 1;
    assert Competes(c, x) ==> Weak(c, x);
    if Displaced(c, m, x) {
      DisplacedStep(c, m, n, r);
    } else if x < m && Seen(c, m, x) {
      assert r == m && Replaces(After(c)[x], KeyDuring(c, m, n));
      assert Displaced(c, m, n);
    } else {
      assert !Displaced(c, m, n);
      UndisplacedStep(c, m, n, r);
    }
  }

  lemma DisplacedStep(c: Scan, m: RateIndex, n: nat, r: RateIndex)
    requires ScanOk(c) && 0 < n <= RATES && Standing(c, m, n - 1, r) && !Firm(c, n - 1) && Displaced(c, m, n - 1)
    ensures Standing(c, m, n, Next(c, r, n))
  {
    hide ScanOk, After, Before, Competes;
    var e :| 0 <= e < n - 1 && e < m && Seen(c, m, e);
    assert Displaced(c, m, n);
    assert After(c)[r].prob >= After(c)[e].prob > Before(c)[m].prob;
    assert KeyDuring(c, r, n) == After(c)[r];
    assert Next(c, r, n) == n - 1 ==> Seen(c, m, n - 1);
  }

  lemma UndisplacedStep(c: Scan, m: RateIndex, n: nat, r: RateIndex)
    requires ScanOk(c) && 0 < n <= RATES && Standing(c, m, n - 1, r) && !Firm(c, n - 1)
    requires !Displaced(c, m, n - 1) && !Displaced(c, m, n)
    ensures Standing(c, m, n, Next(c, r, n))
  {
    hide TableOk, After, Before, Competes;
    var x := n - 1;
    if x < m && Competes(c, x) { assert !Seen(c, m, x); }
    assert r != x ==> KeyDuring(c, r, n) == if r < x then After(c)[r] else Before(c)[r];
  }

  /** One rate of the whole choice. */
  lemma TrackedStep(c: Scan, m: RateIndex, n: nat, r: RateIndex)
    requires ScanOk(c) && 0 < n <= RATES && Tracked(c, m, n - 1, r) && (r == m || r < n - 1)
    ensures Tracked(c, m, n, Next(c, r, n))
  {
    hide ScanOk, After, Before, Competes, Standing, Displaced;
    if Entered(c, m, n - 1) {
      FirmStep(c, m, n, r);
    } else if Enters(c, m, n - 1) {
      EnterStep(c, m, n, r);
    } else {
      assert !Entered(c, m, n);
      if Firm(c, n - 1) {
        PassedOver(c, m, n, r);
      } else {
        StandingStep(c, m, n, r);
      }
    }
  }

  /** Once the choice is firm it stays firm, and keeps up with every firm rate scanned since. */
  lemma FirmStep(c: Scan, m: RateIndex, n: nat, r: RateIndex)
    requires ScanOk(c) && 0 < n <= RATES && Tracked(c, m, n - 1, r) && Entered(c, m, n - 1)
    ensures Tracked(c, m, n, Next(c, r, n))
  {
    hide ScanOk, After, Before, Competes, Standing, Displaced;
    var x := n - 1;
    var r' := Next(c, r, n);
    var e :| 0 <= e < x && Enters(c, m, e);
    assert Entered(c, m, n);
    assert e < m ==> Overtakes(c, m, e);
    assert Firmly(c, m, x) ==> Firm(c, x);
    assert KeyDuring(c, r, n) == After(c)[r];
    assert After(c)[r'].tp >= After(c)[r].tp && (Firmly(c, m, x) ==> After(c)[r'].tp >= After(c)[x].tp);
    assert r' == x ==> Firm(c, x) && e <= x;
  }

  /** The choice turns firm. */
  lemma EnterStep(c: Scan, m: RateIndex, n: nat, r: RateIndex)
    requires ScanOk(c) && 0 < n <= RATES && Tracked(c, m, n - 1, r) && !Entered(c, m, n - 1) && Enters(c, m, n - 1)
    requires r == m || r < n - 1
    ensures Tracked(c, m, n, Next(c, r, n))
  {
    hide ScanOk, After, Before, Competes;
  }

  /** A firm rate that does not enter leaves the standing rate in place. */
  lemma PassedOver(c: Scan, m: RateIndex, n: nat, r: RateIndex)
    requires ScanOk(c) && 0 < n <= RATES && Standing(c, m, n - 1, r) && !Enters(c, m, n - 1) && Firm(c, n - 1)
    requires forall f :: 0 <= f < n - 1 ==> !Enters(c, m, f)
    ensures Next(c, r, n) == r && Standing(c, m, n, r)
  {
    hide ScanOk, After, Before, Competes;
  }

  lemma {:induction false} ChosenTracked(c: Scan, m: RateIndex, n: nat)
    requires ScanOk(c) && n <= RATES
    ensures Tracked(c, m, n, Chosen(c, m, n))
    decreases n
  {
    hide ScanOk, Tracked, Next, Chosen;
    if n == 0 {
      ChosenStep(c, m, 1);
      TrackedStart(c, m);
    } else {
      ChosenTracked(c, m, n - 1);
      ChosenStep(c, m, n);
      TrackedStep(c, m, n, Chosen(c, m, n - 1));
    }
  }

  /** r is above 75% and no firm rate is faster. */
  ghost predicate FastestFirm(c: Scan, r: RateIndex)
    requires ScanOk(c)
  {
    After(c)[r].prob > SEVENTYFIVE_PERCENT && forall y :: 0 <= y < RATES && Firm(c, y) ==>
        After(c)[y].tp <= After(c)[r].tp
  }

  /** A fastest firm rate is scanned once the choice has turned firm. */
  ghost predicate EntersInTime(c: Scan, m: RateIndex)
    requires ScanOk(c)
  {
    exists f, x :: 0 <= f <= x < RATES && Enters(c, m, f) && Firmly(c, m, x) && FastestFirm(c, x)
  }

  /** The scan ends at a fastest rate above 75% exactly when some rate above 75% overtakes what
      stands before it no later than a fastest one is scanned. */
  lemma ChosenIsFastestFirmIff(c: Scan, m: RateIndex)
    requires ScanOk(c)
    ensures FastestFirm(c, Chosen(c, m, RATES)) <==> EntersInTime(c, m)
  {
    ChosenTracked(c, m, RATES);
    var r := Chosen(c, m, RATES);
    hide ScanOk, After, Before, Competes, Chosen, Overtakes;
    if FastestFirm(c, r) {
      assert Entered(c, m, RATES) by {
        if !Entered(c, m, RATES) {
          StandsFirm(c, m, r);
        }
      }
    }
  }

  /** A rate above 75% that still stands at the end has entered. */
  lemma StandsFirm(c: Scan, m: RateIndex, r: RateIndex)
    requires ScanOk(c) && Standing(c, m, RATES, r) && After(c)[r].prob > SEVENTYFIVE_PERCENT
    ensures Entered(c, m, RATES)
  {
    hide ScanOk, After, Before, Competes, Overtakes;
    assert r == m;
    assert Overtakes(c, m, m) || !Overtakes(c, m, m);
    if forall g :: 0 <= g < m ==> !Overtakes(c, m, g) {
      assert Enters(c, m, m);
    } else {
      var g :| 0 <= g < m && Overtakes(c, m, g);
      assert Enters(c, m, g);
    }
  }

  /** The announced rule: the fastest rate above 75% if there is one, else the most reliable. */
  ghost predicate FollowsRule(c: Scan, r: RateIndex)
    requires ScanOk(c)
  {
    if exists x :: 0 <= x < RATES && Firm(c, x) then FastestFirm(c, r) else Greatest(c, ByAverage, r)
  }

  /** Exactly when the scan's choice follows the rule, for every table and every old choice. */
  lemma RuleFollowedIff(c: Scan, m: RateIndex)
    requires ScanOk(c)
    ensures FollowsRule(c, Chosen(c, m, RATES)) <==>
            if exists x :: 0 <= x < RATES && Firm(c, x) then EntersInTime(c, m)
            else exists x: RateIndex :: (x == m || Noticed(c, m, ByAverage, x)) && Greatest(c, ByAverage, x)
  {
    if exists x :: 0 <= x < RATES && Firm(c, x) {
      ChosenIsFastestFirmIff(c, m);
    } else {
      assert Uniform(c, ByAverage, RATES) by { NoneFirm(c); }
      ChosenIsGreatestIff(c, m, ByAverage);
    }
  }

  lemma NoneFirm(c: Scan)
    requires ScanOk(c) && !(exists x :: 0 <= x < RATES && Firm(c, x))
    ensures Uniform(c, ByAverage, RATES)
  {
    hide TableOk, After, Competes;
    forall x | 0 <= x < RATES && Competes(c, x) ensures After(c)[x].prob <= SEVENTYFIVE_PERCENT { assert !Firm(c, x); }
  }
}
