/** Per-rate statistics and everything that ever touches them: status reports, the two
    kinds of clearing, the start-up seeding and the periodic recalculation. */
module RateStatistics {
  import opened FixedPoint

  datatype RateStats = RateStats(
    attempts: nat, lastAttempts: nat,
    success: nat, lastSuccess: nat,
    attHist: nat, succHist: nat,
    probEwma: int, probEwmv: int,
    retryCount: nat, retryCountRtscts: nat, retryUpdated: bool,
    tpAvg: int)

  /** What memset leaves behind. */
  const FRESH: RateStats := RateStats(0, 0, 0, 0, 0, 0, 0, 0, 0, 0, false, 0)

  ghost predicate Sane(r: RateStats) {
    && r.success <= r.attempts
    && r.succHist <= r.attHist
    && Probability(r.probEwma)
    && 0 <= r.probEwmv <= VARIANCE_BOUND
  }

  /** Recalculate averages and totals, then open a new window. */
  function CalcRateStats(r: RateStats): RateStats {
    var averaged :=
      if r.attempts > 0 then
        var cur := Frac(r.success, r.attempts);
        var smoothed :=
          if r.attHist == 0 then r.(probEwma := cur)
          else r.(probEwmv := Ewmv(r.probEwmv, cur, r.probEwma), probEwma := Ewma(r.probEwma, cur));
        smoothed.(attHist := r.attHist + r.attempts, succHist := r.succHist + r.success)
      else r;
    averaged.(lastSuccess := r.success, lastAttempts := r.attempts, success := 0, attempts := 0)
  }

  /** A recalculation in plain numbers: the average moves a quarter of the way to the window's
      success share, the first window sets it, an empty window leaves it; the window joins the
      history and is emptied. */
  ghost predicate TakesIn(s: RateStats, z: RateStats) {
    && (s.attempts == 0 ==> z.probEwma == s.probEwma && z.probEwmv == s.probEwmv)
    && (s.attempts > 0 && s.attHist == 0 ==> z.probEwma == Frac(s.success, s.attempts) && z.probEwmv == s.probEwmv)
    && (s.attempts > 0 && s.attHist > 0 ==> QuarterWay(s.probEwma, Frac(s.success, s.attempts), z.probEwma))
    && z.attempts == z.success == 0 && z.lastAttempts == s.attempts && z.lastSuccess == s.success
    && z.attHist == s.attHist + s.attempts && z.succHist == s.succHist + s.success
    && z.retryCount == s.retryCount && z.retryCountRtscts == s.retryCountRtscts
  }

  lemma CalcTakesIn(s: RateStats)
    requires s.success <= s.attempts
    ensures TakesIn(s, CalcRateStats(s)) && CalcRateStats(s).retryUpdated == s.retryUpdated
  {
    hide Ewma, Ewmv, Frac, QuarterWay;
    if s.attempts > 0 { EwmaBetween(s.probEwma, Frac(s.success, s.attempts)); }
  }

  function Credit(r: RateStats, tries: nat, acked: nat): RateStats {
    r.(attempts := r.attempts + tries, success := r.success + acked)
  }

  /** Forget a rate the signal no longer supports; one failed attempt remains on record. */
  function ClearUnfit(r: RateStats): RateStats {
    if r.succHist != 0 then
      r.(attempts := 1, lastAttempts := 0, attHist := 0, success := 0, lastSuccess := 0, succHist := 0, tpAvg := 0)
    else r
  }

  /** Seed a rate with n successes at start-up. */
  function Seed(r: RateStats, n: nat): RateStats {
    r.(attempts := n, attHist := 0, success := n, succHist := 0)
  }

  function ZeroProb(r: RateStats): RateStats { r.(probEwma := 0) }

  datatype Event =
    | Report(tries: nat, acked: nat)
    | Cleared
    | Seeded(n: nat)
    | Zeroed
    | Recalculated

  ghost predicate Plausible(e: Event) { e.Report? ==> e.acked <= e.tries }

  function Apply(r: RateStats, e: Event): RateStats {
    match e
    case Report(tries, acked) => Credit(r, tries, acked)
    case Cleared => ClearUnfit(r)
    case Seeded(n) => Seed(r, n)
    case Zeroed => ZeroProb(r)
    case Recalculated => CalcRateStats(r)
  }

  function Run(r: RateStats, es: seq<Event>): RateStats
    decreases es
  {
    if es == [] then r else Run(Apply(r, es[0]), es[1..])
  }

  /** No event takes a rate out of its bounds. */
  lemma ApplyKeepsSane(r: RateStats, e: Event)
    requires Sane(r) && Plausible(e)
    ensures Sane(Apply(r, e))
  {
    if e == Recalculated && r.attempts > 0 {
      var cur := Frac(r.success, r.attempts);
      EwmaBetween(r.probEwma, cur);
      EwmvBound(r.probEwmv, cur, r.probEwma);
    }
  }

  /** Safety over every run of reports, clears, seedings and recalculations. */
  lemma {:induction false} RunKeepsSane(r: RateStats, es: seq<Event>)
    requires Sane(r) && forall e <- es :: Plausible(e)
    ensures Sane(Run(r, es))
    decreases es
  {
    if es != [] {
      ApplyKeepsSane(r, es[0]);
      RunKeepsSane(Apply(r, es[0]), es[1..]);
    }
  }

  /** A window in which successes exceed attempts breaks the bounds: this is what a report
      with a zero try count and an acknowledgement does. */
  lemma ImplausibleReportBreaks()
    ensures !Sane(Run(FRESH, [Report(0, 1)]))
  {
    RunCons(FRESH, Report(0, 1), []);
  }

  /** A report keeps a sane rate sane exactly when it credits no more successes than the
      tries it adds plus the failures already in the window. */
  lemma CreditSaneIff(r: RateStats, tries: nat, acked: nat)
    requires Sane(r)
    ensures Sane(Credit(r, tries, acked)) <==> acked <= tries + (r.attempts - r.success)
  {
  }

  lemma RunCons(r: RateStats, e: Event, rest: seq<Event>)
    ensures Run(r, [e] + rest) == Run(Apply(r, e), rest)
  {
    assert ([e] + rest)[1..] == rest;
  }

  lemma {:induction false} RunConcat(r: RateStats, a: seq<Event>, b: seq<Event>)
    ensures Run(r, a + b) == Run(Run(r, a), b)
    decreases a
  {
    if a == [] {
      assert a + b == b;
    } else {
      assert (a + b)[1..] == a[1..] + b;
      RunConcat(Apply(r, a[0]), a[1..], b);
    }
  }

  /** The variance bound is attained: alternating full success with a zeroed average climbs
      to exactly 3069. */
  lemma {:induction false} ClimbToBound(r: RateStats) returns (es: seq<Event>)
    requires Sane(r) && r.attHist > 0 && r.probEwma == 0 && r.attempts == 0
    ensures forall e <- es :: Plausible(e)
    ensures Run(r, es).probEwmv == VARIANCE_BOUND
    decreases VARIANCE_BOUND - r.probEwmv
  {
    if r.probEwmv == VARIANCE_BOUND {
      es := [];
    } else {
      var once := [Report(1, 1), Recalculated, Zeroed];
      var r1 := Credit(r, 1, 1);
      var r2 := CalcRateStats(r1);
      var r3 := ZeroProb(r2);
      assert Frac(1, 1) == SCALE;
      ApplyKeepsSane(r, once[0]);
      ApplyKeepsSane(r1, once[1]);
      assert r3.probEwmv == Ewmv(r.probEwmv, SCALE, 0) > r.probEwmv;
      RunCons(r, once[0], [Recalculated, Zeroed]);
      RunCons(r1, Recalculated, [Zeroed]);
      RunCons(r2, Zeroed, []);
      var rest := ClimbToBound(r3);
      RunConcat(r, once, rest);
      es := once + rest;
    }
  }

  lemma OneFailure(r: RateStats) returns (es: seq<Event>, r': RateStats)
    requires Sane(r) && r.attempts == r.attHist == 0
    ensures forall e <- es :: Plausible(e)
    ensures Run(r, es) == r' && Sane(r') && r'.attHist > 0 && r'.probEwma == 0 && r'.attempts == 0
  {
    es := [Report(1, 0), Recalculated];
    var r1 := Credit(r, 1, 0);
    r' := CalcRateStats(r1);
    RunCons(r, es[0], [Recalculated]);
    RunCons(r1, Recalculated, []);
    ApplyKeepsSane(r, es[0]);
    ApplyKeepsSane(r1, es[1]);
  }

  /** The bound is attained from a freshly initialised rate. */
  lemma VarianceBoundIsReached() returns (es: seq<Event>)
    ensures forall e <- es :: Plausible(e)
    ensures Run(FRESH, es).probEwmv == VARIANCE_BOUND
  {
    var first, r := OneFailure(FRESH);
    var rest := ClimbToBound(r);
    RunConcat(FRESH, first, rest);
    es := first + rest;
  }

  ghost predicate Undisturbed(es: seq<Event>) {
    forall e <- es :: Plausible(e) && (e.Report? || e.Recalculated?)
  }

  lemma {:induction false} UndisturbedKeepsCoupling(r: RateStats, es: seq<Event>)
    requires Sane(r) && Coupled(r.probEwmv, r.probEwma) && Undisturbed(es)
    requires r.attHist == 0 ==> r.probEwmv == 0
    ensures var r' := Run(r, es); Sane(r') && Coupled(r'.probEwmv, r'.probEwma)
    decreases es
  {
    if es != [] {
      var r1 := Apply(r, es[0]);
      ApplyKeepsSane(r, es[0]);
      if es[0] == Recalculated && r.attempts > 0 {
        var cur := Frac(r.success, r.attempts);
        if r.attHist != 0 {
          CoupledStep(r.probEwmv, cur, r.probEwma);
        } else {
          MulMono(0, cur, SCALE - cur);
        }
      }
      UndisturbedKeepsCoupling(r1, es[1..]);
    }
  }

  /** While nothing is cleared or re-seeded the variance is a third as large: a run of
      reports and recalculations from a fresh rate never exceeds 1027, one quarter of the
      square of full scale plus the rounding slack. */
  lemma UndisturbedVariance(es: seq<Event>)
    requires Undisturbed(es)
    ensures 0 <= Run(FRESH, es).probEwmv <= 1027
  {
    UndisturbedKeepsCoupling(FRESH, es);
    CoupledBound(Run(FRESH, es).probEwmv, Run(FRESH, es).probEwma);
  }
}
