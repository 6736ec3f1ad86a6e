/** How many tries fit into one retry segment. */
module Retransmit {
  import opened FixedPoint

  const SLOT_TIME: nat := 9

  datatype Limits = Limits(cwMin: nat, cwMax: nat, maxRetry: nat, segment: nat)

  function Min(a: nat, b: nat): nat { if a <= b then a else b }

  /** Contention window of try number n, starting from zero. */
  function Window(l: Limits, n: nat): nat {
    if n == 0 then l.cwMin else Min(2 * Window(l, n - 1) + 1, l.cwMax)
  }

  function Pow2(n: nat): nat { if n == 0 then 1 else 2 * Pow2(n - 1) }

  /** The window doubles up to its ceiling. */
  lemma {:induction false} WindowClosedForm(l: Limits, n: nat)
    requires l.cwMin <= l.cwMax
    ensures Pow2(n) >= 1 && Pow2(n) * (l.cwMin + 1) >= 1
    ensures Window(l, n) == Min(Pow2(n) * (l.cwMin + 1) - 1, l.cwMax)
  {
    if n > 0 {
      WindowClosedForm(l, n - 1);
      Doubling(Pow2(n - 1), l.cwMin + 1);
    }
  }

  lemma Doubling(p: nat, m: nat)
    ensures (2 * p) * m == 2 * (p * m)
    ensures p >= 1 && m >= 1 ==> p * m >= 1
  {
  }

  function Backoff(l: Limits, n: nat): nat { SLOT_TIME * Window(l, n) / 2 }

  /** Total air time of r tries of which each costs the given time on the medium. */
  function AirTime(l: Limits, cost: nat, r: nat): nat {
    if r == 0 then 0 else AirTime(l, cost, r - 1) + Backoff(l, r - 1) + cost
  }

  lemma {:induction false} AirTimeMonotone(l: Limits, cost: nat, cost': nat, r: nat, r': nat)
    requires cost <= cost' && r <= r'
    ensures AirTime(l, cost, r) <= AirTime(l, cost', r')
    decreases r'
  {
    if r' > 0 {
      if r < r' {
        AirTimeMonotone(l, cost, cost', r, r' - 1);
      } else {
        AirTimeMonotone(l, cost, cost', r - 1, r' - 1);
      }
    }
  }

  /** The loop tests the retry limit only after it has tried for a third attempt. */
  function Ceiling(l: Limits): nat { if l.maxRetry < 3 then 3 else l.maxRetry }

  /** r is the largest try count in 2..top that is 2 or fits into the segment. */
  ghost predicate LargestFit(l: Limits, cost: nat, top: nat, r: nat) {
    && 2 <= r <= top
    && (r > 2 ==> AirTime(l, cost, r) < l.segment)
    && forall r' :: r < r' <= top ==> AirTime(l, cost, r') >= l.segment
  }

  /** Contention time of the first two tries, and the window after them. */
  method FirstTwo(l: Limits) returns (ctime: nat, cw: nat)
    ensures cw == Window(l, 2)
    ensures forall cost: nat :: AirTime(l, cost, 2) == ctime + 2 * cost
  {
    cw := l.cwMin;
    ctime := SLOT_TIME * cw / 2;
    cw := Min(cw * 2 + 1, l.cwMax);
    ctime := ctime + SLOT_TIME * cw / 2;
    cw := Min(cw * 2 + 1, l.cwMax);
    forall cost: nat ensures AirTime(l, cost, 2) == ctime + 2 * cost { AirTimeTwo(l, cost); }
    Unroll(l, 0, 0);
    Unroll(l, 0, 1);
  }

  /** r fits, and one more try would not (or is not allowed). */
  ghost predicate Maximal(l: Limits, cost: nat, top: nat, r: nat) {
    && 2 <= r <= top
    && (r > 2 ==> AirTime(l, cost, r) < l.segment)
    && (r < top ==> AirTime(l, cost, r + 1) >= l.segment)
  }

  method AddTries(l: Limits, cost: nat, costRtscts: nat, firstTwo: nat, cwThird: nat)
      returns (retry: nat, retryRtscts: nat)
    requires cost <= costRtscts && cwThird == Window(l, 2)
    requires AirTime(l, cost, 2) == firstTwo + 2 * cost && AirTime(l, costRtscts, 2) == firstTwo + 2 * costRtscts
    ensures Maximal(l, cost, Ceiling(l), retry)
    ensures Maximal(l, costRtscts, retry, retryRtscts)
  {
    hide AirTime, Window;
    retry, retryRtscts := 2, 2;
    var cw := cwThird;
    var txTime := firstTwo + 2 * cost;
    var txTimeRtscts := firstTwo + 2 * costRtscts;
    var more := true;
    while more
      invariant Maximal(l, costRtscts, retry, retryRtscts)
      invariant if more then 2 <= retry < Ceiling(l) && cw == Window(l, retry) else Maximal(l, cost, Ceiling(l), retry)
      invariant more ==> txTime == AirTime(l, cost, retry) && txTimeRtscts == AirTime(l, costRtscts, retry)
      invariant retry > 2 ==> AirTime(l, cost, retry) < l.segment
      decreases Ceiling(l) - retry, more
    {
      var ctime := SLOT_TIME * cw / 2;
      cw := Min(cw * 2 + 1, l.cwMax);
      txTime := txTime + ctime + cost;
      txTimeRtscts := txTimeRtscts + ctime + costRtscts;
      Unroll(l, cost, retry);
      Unroll(l, costRtscts, retry);
      OneMoreTry(l, cost, costRtscts, retry, retryRtscts);
      if txTimeRtscts < l.segment {
        retryRtscts := retryRtscts + 1;
      }
      if txTime < l.segment {
        retry := retry + 1;
        more := retry < l.maxRetry;
      } else {
        more := false;
      }
    }
  }

  lemma OneMoreTry(l: Limits, cost: nat, costRtscts: nat, retry: nat, retryRtscts: nat)
    requires cost <= costRtscts && Maximal(l, costRtscts, retry, retryRtscts)
    ensures AirTime(l, cost, retry + 1) <= AirTime(l, costRtscts, retry + 1)
    ensures AirTime(l, costRtscts, retry + 1) < l.segment ==> retryRtscts == retry
  {
    AirTimeMonotone(l, cost, costRtscts, retry + 1, retry + 1);
    AirTimeMonotone(l, costRtscts, costRtscts, retryRtscts + 1, retry + 1);
  }

  /** Retry counts without and with RTS/CTS protection. */
  method CountRetries(l: Limits, cost: nat, costRtscts: nat) returns (retry: nat, retryRtscts: nat)
    requires cost <= costRtscts
    ensures LargestFit(l, cost, Ceiling(l), retry)
    ensures LargestFit(l, costRtscts, retry, retryRtscts)
  {
    var ctime, cw := FirstTwo(l);
    retry, retryRtscts := AddTries(l, cost, costRtscts, ctime, cw);
    NothingAbove(l, cost, retry, Ceiling(l));
    NothingAbove(l, costRtscts, retryRtscts, retry);
  }

  lemma Unroll(l: Limits, cost: nat, n: nat)
    ensures Window(l, 0) == l.cwMin && Window(l, n + 1) == Min(2 * Window(l, n) + 1, l.cwMax)
    ensures AirTime(l, cost, n + 1) == AirTime(l, cost, n) + Backoff(l, n) + cost
  {
  }

  lemma AirTimeTwo(l: Limits, cost: nat)
    ensures AirTime(l, cost, 2) == Backoff(l, 0) + Backoff(l, 1) + 2 * cost
  {
    assert AirTime(l, cost, 1) == Backoff(l, 0) + cost;
  }

  lemma NothingAbove(l: Limits, cost: nat, r: nat, top: nat)
    requires r <= top && (r < top ==> AirTime(l, cost, r + 1) >= l.segment)
    ensures forall r' :: r < r' <= top ==> AirTime(l, cost, r') >= l.segment
  {
    forall r' | r < r' <= top ensures AirTime(l, cost, r') >= l.segment {
      AirTimeMonotone(l, cost, cost, r + 1, r');
    }
  }

  /** The count respects the retry limit exactly when the limit is at least 3, or is 2 and a
      third try does not fit the segment. */
  lemma WithinLimitIff(l: Limits, cost: nat, r: nat)
    requires LargestFit(l, cost, Ceiling(l), r)
    ensures r <= l.maxRetry <==> l.maxRetry >= 3 || (l.maxRetry == 2 && AirTime(l, cost, 3) >= l.segment)
  {
    hide AirTime;
    if l.maxRetry < 3 && AirTime(l, cost, 3) < l.segment { assert r == 3; }
  }

  /** There is only one largest fit, so the counts are determined by the air time alone. */
  lemma LargestFitUnique(l: Limits, cost: nat, top: nat, r: nat, r': nat)
    requires LargestFit(l, cost, top, r) && LargestFit(l, cost, top, r')
    ensures r == r'
  {
  }
}
