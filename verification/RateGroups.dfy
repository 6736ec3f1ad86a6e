/** The eleven rate groups (four HT, one CCK, six VHT), their frame durations, and the HT
    throughput estimate. A rate index is group * 10 + slot. */
module RateGroups {
  import opened FixedPoint
  import opened FrameDuration

  const GROUPS: nat := 11
  const SLOTS: nat := 10
  const RATES: nat := 110
  const CCK: nat := 4
  const VHT0: nat := 5

  function Group(i: nat): nat { i / SLOTS }
  function Slot(i: nat): nat { i % SLOTS }

  type RateIndex = i: nat | i < RATES

  /** Channel widths in the order of the BW_ constants. */
  datatype Width = W20 | W40 | W80

  function WidthOf(g: nat): Width {
    if g == 2 || g == 3 || g == 7 || g == 8 then W40
    else if g == 9 || g == 10 then W80
    else W20
  }

  predicate ShortGi(g: nat) { g == 1 || g == 3 || g == 6 || g == 8 || g == 10 }

  predicate IsVht(g: nat) { g >= VHT0 }

  predicate IsHt(g: nat) { g < CCK }

  function Streams(g: nat): nat { if g == CCK then 0 else 1 }

  /** Slots that exist in a group; the remaining table entries are zero. */
  function SlotCount(g: nat): nat { if IsHt(g) || g == CCK then 8 else 10 }

  /** Data bits per symbol at 20, 40 and 80 MHz. */
  const BITS20: seq<nat> := [26, 52, 78, 104, 156, 208, 234, 260, 312, 346]
  const BITS40: seq<nat> := [54, 108, 162, 216, 324, 432, 486, 540, 648, 720]
  const BITS80: seq<nat> := [117, 234, 351, 468, 702, 936, 1053, 1170, 1404, 1560]

  function BitsPerSymbol(w: Width, slot: nat): (b: nat)
    requires slot < SLOTS
    ensures 26 <= b <= 1560
  {
    match w
    case W20 => BITS20[slot]
    case W40 => BITS40[slot]
    case W80 => BITS80[slot]
  }

  /** Bits in the assumed average aggregate: 16 packets of 24000 bytes. */
  const MCS_NBITS: nat := 3072000

  function McsDuration(sgi: bool, bps: nat): nat
    requires bps > 0
  {
    var syms := DivRoundUp(MCS_NBITS, bps);
    (if sgi then (syms * 18000 + 4000) / 5 else syms * 1000 * 4) / 16
  }

  function CckTime(bitrate: nat, short: bool, len: nat): nat
    requires bitrate > 0
  {
    1000 * (10 + (if short then 72 + 24 else 144 + 48) + (8 * (len + 4) * 10) / bitrate)
  }

  function CckDuration(slot: nat): nat
    requires slot < 8
  {
    var rate := if slot % 4 == 0 then 10 else if slot % 4 == 1 then 20 else if slot % 4 == 2 then 55 else 110;
    CckTime(if rate > 10 then 20 else 10, false, 60) + CckTime(rate, slot >= 4, 24000)
  }

  function Duration(i: RateIndex): nat {
    var g, s := Group(i), Slot(i);
    if s >= SlotCount(g) then 0
    else if g == CCK then CckDuration(s)
    else McsDuration(ShortGi(g), BitsPerSymbol(WidthOf(g), s))
  }

  /** Bits per symbol are data carriers (52, 108 or 234) times bits per carrier times code rate,
      rounded down: BPSK, QPSK, 16, 64 and 256-QAM. */
  lemma BitsFromModulation(slot: nat)
    requires slot < SLOTS
    ensures var half := [1, 2, 3, 4, 6, 8, 9, 10, 12, 0][slot];   // halves of a bit per carrier
            slot < 9 ==> && BitsPerSymbol(W20, slot) == 52 * half / 2
                         && BitsPerSymbol(W40, slot) == 108 * half / 2
                         && BitsPerSymbol(W80, slot) == 234 * half / 2
    ensures slot == 9 ==> && BitsPerSymbol(W20, slot) == 52 * 8 * 5 / 6
                          && BitsPerSymbol(W40, slot) == 108 * 8 * 5 / 6
                          && BitsPerSymbol(W80, slot) == 234 * 8 * 5 / 6
  {
  }

  /** A sixteenth of the aggregate's air time in nanoseconds, with symbols of 4 or 3.6
      microseconds; syms is the least number of symbols that holds its bits. */
  lemma McsDurationIs(sgi: bool, bps: nat, syms: nat)
    requires bps > 0 && syms * bps >= 3072000 && (syms == 0 || (syms - 1) * bps < 3072000)
    ensures McsDuration(sgi, bps) == (if sgi then 3600 * syms + 800 else 4000 * syms) / 16
  {
    DivRoundUpIsLeast(MCS_NBITS, bps, syms);
    if syms > 0 { DivRoundUpIsLeast(MCS_NBITS, bps, syms - 1); }
    assert DivRoundUp(MCS_NBITS, bps) == syms;
  }

  /** The CCK time is that of the frame time formula, rounded down instead of up. */
  lemma CckTimeIs(rate: nat, short: bool, len: nat)
    requires rate > 0
    ensures 1000 * FrameTime(false, len, rate, short, 0) - 1000 <= CckTime(rate, short, len)
    ensures CckTime(rate, short, len) <= 1000 * FrameTime(false, len, rate, short, 0)
  {
    RoundUpBounds(8 * (len + 4) * 10, rate);
  }

  lemma RoundUpBounds(a: nat, b: nat)
    requires b > 0
    ensures a / b <= DivRoundUp(a, b) <= a / b + 1
  {
    var q := a / b;
    DivRoundUpIsLeast(a, b, q + 1);
    if q > 0 { DivRoundUpIsLeast(a, b, q - 1); }
  }

  /** The CCK entries: a frame of 24000 bytes at 1, 2, 5.5 and 11 Mbit/s with a long preamble
      takes 192234, 96218, 35116 and 17659 microseconds, its acknowledgement 714 at 1 Mbit/s and
      458 at 2 Mbit/s; a short preamble saves 96. */
  lemma CckDurations()
    ensures CckDuration(0) == 1000 * (192234 + 714) && CckDuration(1) == 1000 * (96218 + 458)
    ensures CckDuration(2) == 1000 * (35116 + 458) && CckDuration(3) == 1000 * (17659 + 458)
    ensures forall s: nat :: s < 4 ==> CckDuration(s + 4) == CckDuration(s) - 96000
  {
  }

  /** The number of symbols lies between what the fastest and the slowest rate need, so the
      products in the duration macros stay inside a signed 32-bit integer. */
  lemma SymbolsBounded(bps: nat)
    requires 26 <= bps <= 1560
    ensures 1970 <= DivRoundUp(MCS_NBITS, bps) <= 118154
    ensures DivRoundUp(MCS_NBITS, bps) * 18000 + 4000 < 0x8000_0000
  {
    DivRoundUpIsLeast(MCS_NBITS, bps, 118154);
    DivRoundUpIsLeast(MCS_NBITS, bps, 1969);
    MulMono(26, bps, 118154);
    MulMono(bps, 1560, 1969);
  }

  lemma DurationBounded(i: RateIndex)
    requires Slot(i) < SlotCount(Group(i))
    ensures 400_000 <= Duration(i) < 0x1000_0000
  {
    if Group(i) != CCK {
      SymbolsBounded(BitsPerSymbol(WidthOf(Group(i)), Slot(i)));
    }
  }

  /** Exactly the ninth and tenth entries of the HT groups and of CCK do not exist. */
  lemma DurationZeroIff(i: RateIndex)
    ensures Duration(i) == 0 <==> i / 10 <= 4 && i % 10 >= 8
  {
    if Slot(i) < SlotCount(Group(i)) { DurationBounded(i); }
  }

  // ----- throughput

  /** Per-frame overhead: a header-only frame and its acknowledgement at 6 Mbit/s. */
  const ACK_TIME: nat := FrameTime(true, 10, 60, true, 0)
  const OVERHEAD: nat := FrameTime(true, 0, 60, true, 0) + ACK_TIME
  const OVERHEAD_RTSCTS: nat := OVERHEAD + 2 * ACK_TIME

  function FrameNanos(i: RateIndex, avgAmpduLen: nat): nat
    requires avgAmpduLen >= SCALE
  {
    var share := if Group(i) == CCK then 0 else Quot(Wrap32(1000 * OVERHEAD), Trunc(avgAmpduLen));
    Wrap32(share + Duration(i))
  }

  /** The estimate as the C code computes it, in wrapping 32-bit arithmetic. */
  function HtTp(i: RateIndex, avgAmpduLen: nat, prob: int): int
    requires avgAmpduLen >= SCALE
    requires prob >= TEN_PERCENT ==> FrameNanos(i, avgAmpduLen) > 0
  {
    if prob < TEN_PERCENT then 0
    else
      var p := if prob > NINETY_PERCENT then NINETY_PERCENT else prob;
      Trunc(Wrap32(100 * Quot(Wrap32(p * 1000000), FrameNanos(i, avgAmpduLen))))
  }

  /** Overhead share plus data time, without wrap-around. */
  function ExactNanos(i: RateIndex, avgAmpduLen: nat): nat
    requires avgAmpduLen >= SCALE
  {
    (if Group(i) == CCK then 0 else Quot(1000 * OVERHEAD, avgAmpduLen / SCALE)) + Duration(i)
  }

  lemma OverheadIs()
    ensures OVERHEAD == 108 && OVERHEAD_RTSCTS == 228
  {
    assert ACK_TIME == 36 + 4 * DivRoundUp(1340, 240) == 60;
    assert FrameTime(true, 0, 60, true, 0) == 36 + 4 * DivRoundUp(540, 240) == 48;
  }

  lemma ShareFits(o: nat, k: nat, d: nat)
    requires o < 1_000_000 && k > 0 && 400_000 <= d < 0x1000_0000
    ensures Wrap32(o) == o
    ensures Wrap32(Quot(o, k) + d) == Quot(o, k) + d >= 400_000
  {
    DivMono(o, o, k, 1);
    assert 0 <= Quot(o, k) <= o;
  }

  lemma NanosExact(i: RateIndex, avgAmpduLen: nat)
    requires avgAmpduLen >= SCALE && Slot(i) < SlotCount(Group(i))
    ensures 400_000 <= ExactNanos(i, avgAmpduLen) == FrameNanos(i, avgAmpduLen)
  {
    DurationBounded(i);
    OverheadIs();
    ShareFits(1000 * OVERHEAD, avgAmpduLen / SCALE, Duration(i));
  }

  lemma EstimateFits(p: nat, nanos: nat)
    requires p <= SCALE && nanos >= 400_000
    ensures Wrap32(p * 1000000) == p * 1000000
    ensures Wrap32(100 * Quot(p * 1000000, nanos)) == 100 * Quot(p * 1000000, nanos)
  {
    DivMono(p * 1000000, SCALE * 1000000, nanos, 400_000);
  }

  /** No wrap-around and no zero divisor at any existing rate: the estimate is the exact
      integer formula. */
  lemma HtTpExact(i: RateIndex, avgAmpduLen: nat, prob: int)
    requires avgAmpduLen >= SCALE && Probability(prob) && Slot(i) < SlotCount(Group(i))
    ensures ExactNanos(i, avgAmpduLen) == FrameNanos(i, avgAmpduLen) > 0
    ensures HtTp(i, avgAmpduLen, prob) ==
            if prob < 409 then 0
            else 100 * Quot((if prob > 3686 then 3686 else prob) * 1000000, ExactNanos(i, avgAmpduLen)) / 4096
    ensures ExactNanos(i, avgAmpduLen) == Duration(i) + if Group(i) == 4 then 0 else 108000 / (avgAmpduLen / 4096)
  {
    NanosExact(i, avgAmpduLen);
    OverheadIs();
    EstimateFits(if prob > NINETY_PERCENT then NINETY_PERCENT else prob, ExactNanos(i, avgAmpduLen));
  }

  /** A more reliable rate never looks slower, and above 90% reliability stops counting. */
  lemma HtTpMonotone(i: RateIndex, avgAmpduLen: nat, p: int, p': int)
    requires avgAmpduLen >= SCALE && Probability(p) && Probability(p') && p <= p' && Slot(i) < SlotCount(Group(i))
    ensures FrameNanos(i, avgAmpduLen) > 0
    ensures 0 <= HtTp(i, avgAmpduLen, p) <= HtTp(i, avgAmpduLen, p')
    ensures p > NINETY_PERCENT ==> HtTp(i, avgAmpduLen, p) == HtTp(i, avgAmpduLen, p')
  {
    HtTpExact(i, avgAmpduLen, p);
    HtTpExact(i, avgAmpduLen, p');
    var nanos := FrameNanos(i, avgAmpduLen);
    var q := if p > NINETY_PERCENT then NINETY_PERCENT else p;
    var q' := if p' > NINETY_PERCENT then NINETY_PERCENT else p';
    if p >= TEN_PERCENT { DivMono(q * 1000000, q' * 1000000, nanos, nanos); }
  }
}
