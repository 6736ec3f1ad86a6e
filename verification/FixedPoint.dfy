/** Scaled integer arithmetic of the rate controller: 12-bit fractions and the two
    moving averages. Probabilities are integers in 0..4096. C's integer division
    truncates toward zero, so it is written out. */
module FixedPoint {

  const SCALE: int := 4096
  const EWMA_LEVEL: int := 96
  const EWMA_DIV: int := 128
  const TWO32: int := 0x1_0000_0000

  /** Least bound on the moving variance that every update keeps. */
  const VARIANCE_BOUND: int := 3069

  /** C's signed division by a positive divisor. */
  function CDiv(a: int, b: int): (q: int)
    requires b > 0
    ensures a >= 0 ==> q * b <= a < q * b + b
    ensures a < 0 ==> q * b - b < a <= q * b
  {
    if a >= 0 then a / b else -((-a) / b)
  }

  /** Quotient of two naturals. */
  function Quot(a: nat, b: nat): nat
    requires b > 0
  {
    a / b
  }

  function Wrap32(x: int): nat { x % TWO32 }

  /** MINSTREL_FRAC on 32-bit unsigned operands: the shift wraps before the division. */
  function Frac(val: nat, div: nat): (r: nat)
    requires div > 0
    ensures val <= div ==> r <= SCALE
    ensures val < 0x10_0000 ==> r == val * SCALE / div
    ensures val == 0 ==> r == 0
  {
    FracFacts(val, div);
    Quot(Wrap32(val * SCALE), div)
  }

  lemma FracFacts(val: nat, div: nat)
    requires div > 0
    ensures var r := Quot(Wrap32(val * SCALE), div);
            && (val <= div ==> r <= SCALE) && (val < 0x10_0000 ==> r == val * SCALE / div) && (val == 0 ==> r == 0)
  {
    WrapShrinks(val * SCALE);
    DivBound(Wrap32(val * SCALE), div, val);
    hide Wrap32;
    if val == 0 { assert Wrap32(0) == 0 by { WrapShrinks(0); } }
  }

  lemma WrapShrinks(x: nat)
    ensures Wrap32(x) <= x && (x < TWO32 ==> Wrap32(x) == x)
  {
  }

  lemma DivBound(w: nat, div: nat, val: nat)
    requires div > 0 && w <= val * SCALE
    ensures val <= div ==> w / div <= SCALE
  {
    if val <= div && w / div > SCALE {
      assert w >= (w / div) * div;
      assert (w / div) * div >= (SCALE + 1) * div by { MulMono(SCALE + 1, w / div, div); }
      assert false;
    }
  }

  lemma MulMono(a: int, b: int, c: int)
    requires a <= b && c >= 0
    ensures a * c <= b * c
  {
  }

  /** MINSTREL_TRUNC of a non-negative value. */
  function Trunc(x: int): int { x / SCALE }

  function Step(diff: int): int { CDiv((EWMA_DIV - EWMA_LEVEL) * diff, EWMA_DIV) }

  /** Exponentially weighted moving average. */
  function Ewma(old_: int, new_: int): int
  {
    old_ + Step(new_ - old_)
  }

  /** Exponentially weighted moving variance. */
  function Ewmv(oldVar: int, cur: int, avg: int): int
  {
    var diff := cur - avg;
    CDiv(EWMA_LEVEL * (oldVar + Trunc(diff * Step(diff))), EWMA_DIV)
  }

  /** The average never leaves the interval spanned by the old value and the sample, and
      moves by exactly a quarter of the distance, rounded toward the old value. */
  lemma EwmaBetween(o: int, n: int)
    ensures o <= n ==> o <= Ewma(o, n) <= n && n - o - 3 <= 4 * (Ewma(o, n) - o) <= n - o
    ensures n <= o ==> n <= Ewma(o, n) <= o && o - n - 3 <= 4 * (o - Ewma(o, n)) <= o - n
    ensures QuarterWay(o, n, Ewma(o, n))
  {
  }

  /** r lies a quarter of the way from o to n, rounded toward o. */
  ghost predicate QuarterWay(o: int, n: int, r: int) {
    if o <= n then o <= r && 4 * (r - o) <= n - o < 4 * (r - o) + 4
    else r <= o && 4 * (o - r) <= o - n < 4 * (o - r) + 4
  }

  ghost predicate Probability(p: int) { 0 <= p <= SCALE }

  lemma SquareBound(diff: int)
    requires -SCALE <= diff <= SCALE
    ensures 0 <= diff * Step(diff) <= SCALE * 1024
    ensures 0 <= Trunc(diff * Step(diff)) <= 1024
  {
    var i := Step(diff);
    if diff >= 0 {
      assert 0 <= i <= 1024;
      MulMono(0, diff, i);
      MulMono(i, 1024, diff);
    } else {
      assert -1024 <= i <= 0;
      MulMono(0, -diff, -i);
      MulMono(-i, 1024, -diff);
      assert diff * i == (-diff) * (-i);
    }
  }

  lemma EwmvBound(v: int, c: int, p: int)
    requires 0 <= v <= VARIANCE_BOUND && Probability(c) && Probability(p)
    ensures 0 <= Ewmv(v, c, p) <= VARIANCE_BOUND
  {
    SquareBound(c - p);
  }

  ghost predicate VarianceClosed(bound: nat) {
    forall v, c, p :: 0 <= v <= bound && Probability(c) && Probability(p) ==> 0 <= Ewmv(v, c, p) <= bound
  }

  /** A bound on the moving variance survives every possible update exactly when it is at
      least 3069: below that value a full swing of the sample pushes past it. */
  lemma VarianceClosedIff(bound: nat)
    ensures VarianceClosed(bound) <==> bound >= VARIANCE_BOUND
  {
    if bound < VARIANCE_BOUND {
      assert Probability(SCALE) && Probability(0);
      assert Ewmv(bound, SCALE, 0) > bound;
    } else {
      forall v, c, p | 0 <= v <= bound && Probability(c) && Probability(p)
        ensures 0 <= Ewmv(v, c, p) <= bound
      {
        SquareBound(c - p);
      }
    }
  }

  /** Variance and average belong together: up to the rounding error, the variance stays
      below avg * (1 - avg), as it must for samples between 0 and 1. */
  ghost predicate Coupled(v: int, p: int) {
    v >= 0 && Probability(p) && SCALE * v <= p * (SCALE - p) + 3 * SCALE
  }

  lemma CoupledBound(v: int, p: int)
    requires Coupled(v, p)
    ensures v <= 1027
  {
    assert 4 * (p * (SCALE - p)) == SCALE * SCALE - (SCALE - 2 * p) * (SCALE - 2 * p);
    assert (SCALE - 2 * p) * (SCALE - 2 * p) >= 0;
  }

  lemma CoupledStep(v: int, c: int, p: int)
    requires Coupled(v, p) && Probability(c)
    ensures Coupled(Ewmv(v, c, p), Ewma(p, c))
  {
    var d := c - p;
    var i := Step(d);
    SquareBound(d);
    EwmaBetween(p, c);
    StepRemainder(d);
    CoupledAlgebra(p, d, i, d - 4 * i);
    EwmvScaled(v, d * i);
    var q := p + i;
    assert q * (SCALE - q) == SCALE * q - q * q;
  }

  /** The truncations in the variance update only ever round down. */
  lemma EwmvScaled(v: int, s: int)
    requires v >= 0 && s >= 0
    ensures var v' := CDiv(EWMA_LEVEL * (v + Trunc(s)), EWMA_DIV);
            v' >= 0 && 4 * (SCALE * v') <= 3 * (SCALE * v) + 3 * s
  {
  }

  lemma StepRemainder(d: int)
    ensures var r := d - 4 * Step(d); -3 <= r <= 3 && Step(d) * r >= 0
  {
    var i := Step(d);
    var r := d - 4 * i;
    if d >= 0 { MulMono(0, i, r); } else { MulMono(0, -i, -r); assert i * r == (-i) * (-r); }
  }

  /** What the truncations leave of the sum, as a function of p, i and the remainder r. */
  function Left(p: int, d: int, i: int): int {
    3 * (p * (SCALE - p)) + 3 * (d * i) + 4 * ((p + i) * (p + i)) - 4 * SCALE * (p + i)
  }

  lemma Square(a: int, b: int)
    ensures (a + b) * (a + b) == a * a + 2 * (a * b) + b * b
  {
  }

  lemma Expand(a: int, b: int, c: int)
    ensures a * (b - c) == a * b - a * c && a * (b + c) == a * b + a * c && (b + c) * a == a * b + a * c
  {
  }

  lemma Fourfold(i: int, r: int, p: int)
    ensures (4 * i) * (4 * i) == 16 * (i * i) && (4 * i) * r == 4 * (i * r) && p * (4 * i) == 4 * (p * i)
    ensures i * (4 * i) == 4 * (i * i) && r * (SCALE - 2 * p) == SCALE * r - 2 * (p * r)
  {
  }

  lemma LeftIs(p: int, i: int, r: int)
    ensures var d := 4 * i + r;
            var c := p + d;
            Left(p, d, i) + c * (SCALE - c) == r * (SCALE - 2 * p) - 5 * (i * r) - r * r
  {
    var d := 4 * i + r;
    Fourfold(i, r, p);
    Expand(p, SCALE, p);
    Expand(p, 4 * i, r);
    Expand(i, 4 * i, r);
    Expand(p + d, SCALE, p + d);
    Square(p, i);
    Square(p, d);
    Square(4 * i, r);
  }

  lemma RemainderBound(p: int, r: int)
    requires Probability(p) && -3 <= r <= 3
    ensures r * (SCALE - 2 * p) <= 3 * SCALE && r * r >= 0
  {
    if r >= 0 { MulMono(SCALE - 2 * p, SCALE, r); } else { MulMono(-SCALE, SCALE - 2 * p, -r); }
  }

  lemma CoupledAlgebra(p: int, d: int, i: int, r: int)
    requires Probability(p) && Probability(p + d) && d == 4 * i + r && -3 <= r <= 3 && i * r >= 0
    ensures Left(p, d, i) <= 3 * SCALE
  {
    hide Left;
    LeftIs(p, i, r);
    RemainderBound(p, r);
    MulMono(0, p + d, SCALE - (p + d));
  }
}
