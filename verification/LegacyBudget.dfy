/** The legacy controller's sampling budget: ten percent of the frames, with deferred probes
    counted by half until their status report arrives. */
module LegacyBudget {

  datatype Budget = Budget(total: nat, packets: nat, deferred: nat, prev: bool)

  const START: Budget := Budget(0, 0, 0, false)

  /** How the drawn rate can be probed: in the second stage of the chain, right away, or not
      at all because its sample limit is used up. */
  datatype Pick = Later | Now | Exhausted

  datatype Outcome = Plain | DeferredProbe | DirectProbe

  function Spent(b: Budget): nat { b.packets + b.deferred / 2 }

  const SAMPLING_RATIO: nat := 10

  /** Sampling debt after counting one more frame. */
  function Debt(b: Budget): int { (b.total + 1) * SAMPLING_RATIO / 100 - Spent(b) }

  predicate MaySample(b: Budget) { Debt(b) >= 0 && !b.prev }

  /** Restart the count at 10000 frames, or write off a backlog of more than two probes per rate. */
  function Settle(b: Budget, nRates: nat): Budget
    requires MaySample(b)
  {
    if b.total + 1 >= 10000 then START
    else if Debt(b) > nRates * 2 then Budget(b.total + 1, b.packets + (Debt(b) - nRates * 2), b.deferred, false)
    else Budget(b.total + 1, b.packets, b.deferred, false)
  }

  function OnGetRate(b: Budget, nRates: nat, pick: Pick): (Budget, Outcome) {
    if !MaySample(b) then (b.(total := b.total + 1, prev := false), Plain)
    else
      var c := Settle(b, nRates);
      match pick
      case Later => (c.(deferred := c.deferred + 1, prev := true), DeferredProbe)
      case Now => (c.(packets := c.packets + 1, prev := true), DirectProbe)
      case Exhausted => (c, Plain)
  }

  /** A status report; this driver's reports never carry the probe flag. */
  function OnStatus(b: Budget, probeFlag: bool): Budget {
    Budget(b.total, b.packets + (if probeFlag then 1 else 0), if b.deferred > 0 then b.deferred - 1 else 0, b.prev)
  }

  datatype Event = GetRate(pick: Pick) | Status

  function Step(b: Budget, nRates: nat, e: Event): (Budget, Outcome) {
    match e
    case GetRate(pick) => OnGetRate(b, nRates, pick)
    case Status => (OnStatus(b, false), Plain)
  }

  /** Probes never run ahead of a tenth of the frames by more than one; at 10000 frames the
      next one restarts the count. */
  ghost predicate InBudget(b: Budget) {
    && Spent(b) <= b.total / 10 + 1
    && b.total <= 10000
    && (b.total == 10000 ==> !b.prev && Spent(b) <= 1000)
  }

  lemma StepKeepsBudget(b: Budget, nRates: nat, e: Event)
    requires InBudget(b)
    ensures InBudget(Step(b, nRates, e).0)
  {
    assert (b.total + 1) * SAMPLING_RATIO / 100 == (b.total + 1) / 10;
  }

  /** State, direct probes since the last restart, and all probes, after a run. */
  function Run(nRates: nat, es: seq<Event>): (Budget, nat, nat)
    decreases |es|
  {
    if es == [] then (START, 0, 0)
    else
      var (b, direct, all) := Run(nRates, es[..|es| - 1]);
      var (b', o) := Step(b, nRates, es[|es| - 1]);
      var restarted := es[|es| - 1].GetRate? && MaySample(b) && b.total + 1 >= 10000;
      (b', (if restarted then 0 else direct) + (if o.DirectProbe? then 1 else 0), all + (if o.Plain? then 0 else 1))
  }

  /** Over every interleaving of frames and reports: the budget holds, the count stays
      within 10000 between frames (10001 inside one), and direct probes stay within a tenth
      of the frames plus one. */
  lemma {:induction false} RunStaysInBudget(nRates: nat, es: seq<Event>)
    ensures var (b, direct, _) := Run(nRates, es);
            && InBudget(b)
            && b.total + 1 <= 10001
            && direct <= b.packets
            && direct + b.deferred / 2 <= b.total / 10 + 1
    decreases |es|
  {
    if es != [] {
      RunStaysInBudget(nRates, es[..|es| - 1]);
      StepKeepsBudget(Run(nRates, es[..|es| - 1]).0, nRates, es[|es| - 1]);
    }
  }

  function Frames(es: seq<Event>): nat
    decreases |es|
  {
    if es == [] then 0 else Frames(es[..|es| - 1]) + if es[|es| - 1].GetRate? then 1 else 0
  }

  /** Earlier epochs spent at most a tenth of their frames, the current one at most packets. */
  ghost predicate Thrifty(b: Budget, direct: nat, all: nat, frames: nat) {
    InBudget(b) && b.deferred == 0 && direct <= b.packets && direct <= all && 10 * (all - direct) + b.total <= frames
  }

  lemma ThriftyStep(b: Budget, direct: nat, all: nat, frames: nat, nRates: nat, pick: Pick)
    requires Thrifty(b, direct, all, frames) && pick != Later
    ensures var (b', o) := OnGetRate(b, nRates, pick);
            var restarted := MaySample(b) && b.total + 1 >= 10000;
            Thrifty(b', (if restarted then 0 else direct) + (if o.DirectProbe? then 1 else 0),
                all + (if o.Plain? then 0 else 1), frames + 1)
  {
    StepKeepsBudget(b, nRates, GetRate(pick));
    assert (b.total + 1) * SAMPLING_RATIO / 100 == (b.total + 1) / 10;
  }

  lemma {:induction false} RunIsThrifty(nRates: nat, es: seq<Event>)
    requires forall k :: 0 <= k < |es| ==> es[k] != GetRate(Later)
    ensures var (b, direct, all) := Run(nRates, es); Thrifty(b, direct, all, Frames(es))
    decreases |es|
  {
    if es != [] {
      var front, e := es[..|es| - 1], es[|es| - 1];
      RunIsThrifty(nRates, front);
      var (b, direct, all) := Run(nRates, front);
      if e.GetRate? {
        ThriftyStep(b, direct, all, Frames(front), nRates, e.pick);
      } else {
        StepKeepsBudget(b, nRates, e);
      }
    }
  }

  /** Without deferral the ten percent hold over a run of any length, restarts included:
      probes never exceed a tenth of all frames plus one. */
  lemma TenPercentWithoutDeferral(nRates: nat, es: seq<Event>)
    requires forall k :: 0 <= k < |es| ==> es[k] != GetRate(Later)
    ensures 10 * Run(nRates, es).2 <= Frames(es) + 10
  {
    RunIsThrifty(nRates, es);
  }

  /** With deferral allowed at most every second frame is a probe. */
  lemma {:induction false} HalfAtMost(nRates: nat, es: seq<Event>)
    ensures 2 * Run(nRates, es).2 <= Frames(es) + if Run(nRates, es).0.prev then 1 else 0
    decreases |es|
  {
    if es != [] { HalfAtMost(nRates, es[..|es| - 1]); }
  }

  /** n status reports in a row. */
  function Reports(b: Budget, n: nat): Budget
    decreases n
  {
    if n == 0 then b else Reports(OnStatus(b, false), n - 1)
  }

  lemma {:induction false} ReportsKeepPrev(b: Budget, n: nat)
    ensures Reports(b, n).prev == b.prev
    decreases n
  {
    if n > 0 { ReportsKeepPrev(OnStatus(b, false), n - 1); }
  }

  /** No two consecutive frames are both probes, whatever reports arrive in between. */
  lemma NoAdjacentProbes(b: Budget, nRates: nat, pick: Pick, n: nat, pick': Pick)
    requires !OnGetRate(b, nRates, pick).1.Plain?
    ensures OnGetRate(Reports(OnGetRate(b, nRates, pick).0, n), nRates, pick').1.Plain?
  {
    ReportsKeepPrev(OnGetRate(b, nRates, pick).0, n);
  }
}
