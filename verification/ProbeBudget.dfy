/** The HT probe budget: three counters that pace the probes of one statistics interval. */
module ProbeBudget {

  datatype Budget = Budget(wait: nat, tries: nat, count: nat)

  datatype Event =
    | GetRate(willing: bool)   // willing: the sampler would probe if the counters let it
    | Status
    | IntervalEnd(groups: nat)   // a status report that ends the interval

  /** One frame: tick the wait down, or spend a try. */
  function OnGetRate(b: Budget, willing: bool): (Budget, bool) {
    if b.wait > 0 then (b.(wait := b.wait - 1), false)
    else if b.tries == 0 || !willing then (b, false)
    else (b.(tries := b.tries - 1), true)
  }

  /** One status report: refill once the last refill is used up. */
  function OnStatus(b: Budget): Budget {
    if b.wait == 0 && b.tries == 0 && b.count > 0 then Budget(10, 2, b.count - 1) else b
  }

  /** An update grants ten refills per supported group; what is left of the old ones is lost. */
  function OnIntervalEnd(b: Budget, groups: nat): Budget { OnStatus(b).(count := 10 * groups) }

  function Step(b: Budget, e: Event): (Budget, bool) {
    match e
    case GetRate(willing) => OnGetRate(b, willing)
    case Status => (OnStatus(b), false)
    case IntervalEnd(groups) => (OnIntervalEnd(b, groups), false)
  }

  /** State and number of probes after a run. */
  function Run(b: Budget, es: seq<Event>): (Budget, nat)
    decreases |es|
  {
    if es == [] then (b, 0)
    else
      var (b1, n) := Run(b, es[..|es| - 1]);
      var (b2, probed) := Step(b1, es[|es| - 1]);
      (b2, n + if probed then 1 else 0)
  }

  /** Refills granted by the updates of a run, and refills lost at them. */
  function Granted(es: seq<Event>): nat
    decreases |es|
  {
    if es == [] then 0
    else Granted(es[..|es| - 1]) + if es[|es| - 1].IntervalEnd? then 10 * es[|es| - 1].groups else 0
  }

  function Lost(b: Budget, es: seq<Event>): nat
    decreases |es|
  {
    if es == [] then 0
    else
      Lost(b, es[..|es| - 1]) + if es[|es| - 1].IntervalEnd? then OnStatus(Run(b, es[..|es| - 1]).0).count else 0
  }

  /** Conservation over any number of intervals: probes sent, what the counters still allow
      and what the updates took away add up to what there was and what was granted. */
  lemma {:induction false} BudgetIsConserved(b: Budget, es: seq<Event>)
    ensures var (b', probes) := Run(b, es);
            probes + b'.tries + 2 * b'.count + 2 * Lost(b, es) == b.tries + 2 * b.count + 2 * Granted(es)
    decreases |es|
  {
    if es != [] { BudgetIsConserved(b, es[..|es| - 1]); }
  }

  lemma {:induction false} NothingGranted(b: Budget, es: seq<Event>)
    requires forall k :: 0 <= k < |es| ==> !es[k].IntervalEnd?
    ensures Granted(es) == Lost(b, es) == 0
    decreases |es|
  {
    if es != [] { NothingGranted(b, es[..|es| - 1]); }
  }

  /** After an update over k supported groups an interval sends at most 20 * k probes on top
      of the tries left over from before. */
  lemma ProbesPerInterval(b: Budget, k: nat, es: seq<Event>)
    requires b.count == 10 * k && forall j :: 0 <= j < |es| ==> !es[j].IntervalEnd?
    ensures Run(b, es).1 <= b.tries + 20 * k
  {
    BudgetIsConserved(b, es);
    NothingGranted(b, es);
  }

  function Ends(es: seq<Event>): nat
    decreases |es|
  {
    if es == [] then 0 else Ends(es[..|es| - 1]) + if es[|es| - 1].IntervalEnd? then 1 else 0
  }

  lemma {:induction false} GrantedIs(es: seq<Event>, k: nat)
    requires forall j :: 0 <= j < |es| && es[j].IntervalEnd? ==> es[j].groups == k
    ensures Granted(es) == 10 * (k * Ends(es))
    decreases |es|
  {
    if es != [] {
      GrantedIs(es[..|es| - 1], k);
      OneMore(k, Ends(es[..|es| - 1]));
    }
  }

  lemma OneMore(k: nat, n: nat)
    ensures k * (n + 1) == k * n + k
  {
  }

  /** A station with k supported groups sends at most 20 * k probes per update, however the
      frames, reports and updates interleave. */
  lemma ProbesOverIntervals(b: Budget, k: nat, es: seq<Event>)
    requires forall j :: 0 <= j < |es| && es[j].IntervalEnd? ==> es[j].groups == k
    ensures Run(b, es).1 <= b.tries + 2 * b.count + 20 * (k * Ends(es))
  {
    hide Run, Granted, Lost, Ends;
    BudgetIsConserved(b, es);
    GrantedIs(es, k);
  }

  function Frames(es: seq<Event>): nat
    decreases |es|
  {
    if es == [] then 0 else Frames(es[..|es| - 1]) + if es[|es| - 1].GetRate? then 1 else 0
  }

  lemma {:induction false} WaitCountsDown(b: Budget, es: seq<Event>)
    requires Frames(es) <= b.wait && b.tries > 0
    ensures var (b', probes) := Run(b, es); b'.wait == b.wait - Frames(es) && b'.tries == b.tries && probes == 0
    decreases |es|
  {
    if es != [] { WaitCountsDown(b, es[..|es| - 1]); }
  }

  /** A refill is followed by ten frames without a probe. */
  lemma TenFramesAfterRefill(b: Budget, es: seq<Event>)
    requires OnStatus(b) != b && Frames(es) <= 10
    ensures Run(OnStatus(b), es).1 == 0
  {
    WaitCountsDown(OnStatus(b), es);
  }
}
