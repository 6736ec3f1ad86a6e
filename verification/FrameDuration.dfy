/** Air time of one frame, section 18.3.2.4 of IEEE 802.11-2012 for OFDM and section 18.3.4
    of IEEE 802.11b for CCK. Rates are in units of 100 kbit/s, times in microseconds. */
module FrameDuration {
  import opened FixedPoint

  function DivRoundUp(a: nat, b: nat): nat
    requires b > 0
  {
    (a + b - 1) / b
  }

  /** The rounded-up quotient is the least whole number that covers a in units of b. */
  lemma DivRoundUpIsLeast(a: nat, b: nat, n: nat)
    requires b > 0
    ensures DivRoundUp(a, b) <= n <==> n * b >= a
  {
    var q := DivRoundUp(a, b);
    assert q * b <= a + b - 1 < q * b + b;
    if q <= n { MulMono(q, n, b); } else { MulMono(n + 1, q, b); }
  }

  /** Service, payload with checksum, and tail bits of a frame of len bytes. */
  function OfdmBits(len: nat): nat { 16 + 8 * (len + 4) + 6 }

  function ShiftFactor(shift: nat): nat
    requires shift <= 2
  {
    if shift == 0 then 1 else if shift == 1 then 2 else 4
  }

  function FrameTime(ofdm: bool, len: nat, rate: nat, shortPreamble: bool, shift: nat): nat
    requires rate > 0 && shift <= 2
  {
    if ofdm then
      (16 + 16 + 4) * ShiftFactor(shift) + 4 * DivRoundUp(OfdmBits(len) * 10, 4 * rate)
    else
      10 + (if shortPreamble then 72 + 24 else 144 + 48) + DivRoundUp(8 * (len + 4) * 10, rate)
  }

  /** At 4 microseconds a symbol and rate * 4 / 10 bits per symbol, an OFDM frame fits into n
      symbols exactly when its time does; likewise a CCK frame and n microseconds. */
  lemma FrameTimeIsLeast(len: nat, rate: nat, short: bool, shift: nat, n: nat)
    requires rate > 0 && shift <= 2
    ensures n * (4 * rate) >= 80 * len + 540 <==>
            FrameTime(true, len, rate, short, shift) <= [36, 72, 144][shift] + 4 * n
    ensures n * rate >= 80 * len + 320 <==>
            FrameTime(false, len, rate, short, shift) <= (if short then 106 else 202) + n
  {
    DivRoundUpIsLeast(OfdmBits(len) * 10, 4 * rate, n);
    DivRoundUpIsLeast(8 * (len + 4) * 10, rate, n);
  }

  lemma FrameTimeAntitone(ofdm: bool, len: nat, slow: nat, fast: nat, short: bool, shift: nat)
    requires 0 < slow <= fast && shift <= 2
    ensures FrameTime(ofdm, len, fast, short, shift) <= FrameTime(ofdm, len, slow, short, shift)
  {
    var a := if ofdm then OfdmBits(len) * 10 else 8 * (len + 4) * 10;
    var s := if ofdm then 4 * slow else slow;
    var f := if ofdm then 4 * fast else fast;
    var n := DivRoundUp(a, s);
    DivRoundUpIsLeast(a, s, n);
    MulMono(s, f, n);
    assert n * f == f * n && n * s == s * n;
    DivRoundUpIsLeast(a, f, n);
  }

  // ----- the legacy throughput estimate

  const TEN_PERCENT: int := 409
  const NINETY_PERCENT: int := 3686

  function LegacyTp(perfectTxTime: nat, prob: nat): nat
  {
    var usecs := if perfectTxTime == 0 then 1000000 else perfectTxTime;
    if prob < TEN_PERCENT then 0
    else if prob > NINETY_PERCENT then Trunc(100 * Quot(NINETY_PERCENT * 1000, usecs))
    else Trunc(100 * Quot(prob * 1000, usecs))
  }

  /** The estimate in two roundings: q is a thousandth of the success share per microsecond of air
      time, the share no more than 90%, and the estimate a hundred times q without its scale. */
  lemma LegacyTpIs(usecs: nat, prob: nat) returns (q: nat)
    ensures prob < 409 ==> LegacyTp(usecs, prob) == 0
    ensures var time, share := if usecs == 0 then 1000000 else usecs, if prob > 3686 then 3686 else prob;
            q * time <= 1000 * share < q * time + time
    ensures prob >= 409 ==> 4096 * LegacyTp(usecs, prob) <= 100 * q < 4096 * LegacyTp(usecs, prob) + 4096
  {
    q := Quot((if prob > 3686 then 3686 else prob) * 1000, if usecs == 0 then 1000000 else usecs);
  }

  lemma DivMono(a: nat, a': nat, b: nat, b': nat)
    requires a <= a' && 0 < b' <= b
    ensures Quot(a, b) <= Quot(a', b')
  {
    var q := a / b;
    assert q * b <= a;
    MulMono(b', b, q);
    assert q * b' <= a';
    var q' := a' / b';
    assert a' < q' * b' + b';
    if q > q' { MulMono(q' + 1, q, b'); }
  }

  /** Faster within one modulation, or more reliable, never looks slower; above 90% success
      the estimate no longer depends on the success average. */
  lemma LegacyTpMonotone(ofdm: bool, len: nat, slow: nat, fast: nat, short: bool, shift: nat, p: nat, p': nat)
    requires 0 < slow <= fast && shift <= 2 && p <= p'
    ensures LegacyTp(FrameTime(ofdm, len, slow, short, shift), p) <=
            LegacyTp(FrameTime(ofdm, len, fast, short, shift), p')
    ensures p > NINETY_PERCENT ==>
              LegacyTp(FrameTime(ofdm, len, slow, short, shift), p) ==
              LegacyTp(FrameTime(ofdm, len, slow, short, shift), p')
  {
    var ts := FrameTime(ofdm, len, slow, short, shift);
    var tf := FrameTime(ofdm, len, fast, short, shift);
    FrameTimeAntitone(ofdm, len, slow, fast, short, shift);
    var q := if p > NINETY_PERCENT then NINETY_PERCENT else p;
    var q' := if p' > NINETY_PERCENT then NINETY_PERCENT else p';
    DivMono(q * 1000, q' * 1000, ts, tf);
  }
}
