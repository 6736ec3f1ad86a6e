/** Retry counts of the legacy controller: how many tries of a rate fit into one segment, and
    how many of them a frame is given. */
module LegacyRetries {
  import opened Retransmit

  /** Times of one rate in microseconds: a data frame, an acknowledgement at the same rate,
      and one at the lowest rate. */
  datatype Times = Times(perfect: nat, ack: nat, lowAck: nat)

  datatype Counts = Counts(plain: nat, cts: nat, rts: nat)

  /** Time of j retransmissions; protection adds one or two acknowledgements to each. */
  function Again(l: Limits, t: Times, acks: nat, j: nat): nat { AirTime(l, t.ack + t.perfect + acks * t.lowAck, j) }

  /** Time of the first try and j retransmissions. */
  function Total(l: Limits, t: Times, j: nat): nat { t.perfect + t.lowAck + Again(l, t, 0, j) }

  /** The limit is tested only after one retransmission has been tried. */
  function Top(l: Limits): nat { if l.maxRetry < 2 then 2 else l.maxRetry }

  /** r is the largest count within the limit whose retransmissions all end in the segment. */
  ghost predicate PlainFit(l: Limits, t: Times, r: nat) {
    && 1 <= r <= Top(l)
    && (r > 1 ==> Total(l, t, r - 1) < l.segment)
    && forall j :: r <= j < Top(l) ==> Total(l, t, j) >= l.segment
  }

  /** r is the largest protected count within the limit among the given number of passes; the
      first try is not part of its time. */
  ghost predicate ProtectedFit(l: Limits, t: Times, acks: nat, passes: nat, r: nat) {
    && 1 <= r <= passes + 1 && (r > 1 ==> r <= l.maxRetry && Again(l, t, acks, r - 1) < l.segment)
    && forall j :: r <= j <= passes && j < l.maxRetry ==> Again(l, t, acks, j) >= l.segment
  }

  /** Passes through the loop for a plain count: one more than the retransmissions that fit,
      unless the limit stops it. */
  function Passes(l: Limits, r: nat): nat
    requires r >= 1
  {
    if r < Top(l) then r else r - 1
  }

  /** One pass more: a retransmission is added, and each protected count grows if its time
      still fits. */
  lemma ProtectedStep(l: Limits, t: Times, acks: nat, j: nat, r: nat)
    requires ProtectedFit(l, t, acks, j, r)
    ensures var fits := Again(l, t, acks, j + 1) < l.segment && r < l.maxRetry;
            ProtectedFit(l, t, acks, j + 1, if fits then r + 1 else r)
  {
    if Again(l, t, acks, j + 1) < l.segment && r < l.maxRetry && r <= j {
      AirTimeMonotone(l, t.ack + t.perfect + acks * t.lowAck, t.ack + t.perfect + acks * t.lowAck, r, j + 1);
    }
    hide AirTime;
  }

  lemma PlainAbove(l: Limits, t: Times, r: nat)
    requires 1 <= r <= Top(l) && (r < Top(l) ==> Total(l, t, r) >= l.segment)
    requires r > 1 ==> Total(l, t, r - 1) < l.segment
    ensures PlainFit(l, t, r)
  {
    forall j | r <= j < Top(l) ensures Total(l, t, j) >= l.segment {
      AirTimeMonotone(l, t.ack + t.perfect, t.ack + t.perfect, r, j);
    }
  }

  lemma AgainStep(l: Limits, t: Times, acks: nat, j: nat)
    ensures Again(l, t, acks, 0) == 0
    ensures Again(l, t, acks, j + 1) == Again(l, t, acks, j) + t.ack + t.perfect + Backoff(l, j) + acks * t.lowAck
  {
    Unroll(l, t.ack + t.perfect + acks * t.lowAck, j);
  }

  /** Retry counts of a rate. erp: the rate may follow another modulation, so protection by
      a single frame has a count of its own. */
  method CountTries(l: Limits, t: Times, erp: bool) returns (c: Counts)
    ensures PlainFit(l, t, c.plain)
    ensures ProtectedFit(l, t, 2, Passes(l, c.plain), c.rts)
    ensures if erp then ProtectedFit(l, t, 1, Passes(l, c.plain), c.cts) else c.cts == c.plain
  {
    hide AirTime, Window, Again, ProtectedFit;
    var plain, cts, rts := 1, 1, 1;
    var cw := l.cwMin;
    var txTime, txTimeCts, txTimeRts := t.perfect + t.lowAck, 0, 0;
    Start(l, t);
    ghost var j: nat := 0;
    var more := true;
    while more
      invariant ProtectedFit(l, t, 1, j, cts) && ProtectedFit(l, t, 2, j, rts)
      invariant cw == Window(l, j) && txTime == Total(l, t, j)
      invariant txTimeCts == Again(l, t, 1, j) && txTimeRts == Again(l, t, 2, j)
      invariant if more then plain == j + 1 && (j > 0 ==> plain < l.maxRetry)
                else 1 <= plain <= Top(l) && j == Passes(l, plain)
      invariant !more && plain < Top(l) ==> Total(l, t, plain) >= l.segment
      invariant plain > 1 ==> Total(l, t, plain - 1) < l.segment
      decreases more, Top(l) - plain
    {
      var single := t.ack + t.perfect + SLOT_TIME * cw / 2;
      cw := Min(cw * 2 + 1, l.cwMax);
      txTime := txTime + single;
      txTimeCts := txTimeCts + single + t.lowAck;
      txTimeRts := txTimeRts + single + 2 * t.lowAck;
      Unroll(l, 0, j);
      AgainStep(l, t, 0, j);
      AgainStep(l, t, 1, j);
      AgainStep(l, t, 2, j);
      ProtectedStep(l, t, 1, j, cts);
      ProtectedStep(l, t, 2, j, rts);
      if txTimeCts < l.segment && cts < l.maxRetry {
        cts := cts + 1;
      }
      if txTimeRts < l.segment && rts < l.maxRetry {
        rts := rts + 1;
      }
      j := j + 1;
      if txTime < l.segment {
        plain := plain + 1;
        more := plain < l.maxRetry;
      } else {
        more := false;
      }
    }
    PlainAbove(l, t, plain);
    c := Counts(plain, if erp then cts else plain, rts);
  }

  lemma Start(l: Limits, t: Times)
    ensures ProtectedFit(l, t, 1, 0, 1) && ProtectedFit(l, t, 2, 0, 1)
    ensures Window(l, 0) == l.cwMin && Again(l, t, 0, 0) == Again(l, t, 1, 0) == Again(l, t, 2, 0) == 0
  {
  }

  /** The times leave no choice. */
  lemma CountsUnique(l: Limits, t: Times, acks: nat, r: nat, r': nat, p: nat, p': nat)
    requires PlainFit(l, t, r) && PlainFit(l, t, r')
    requires ProtectedFit(l, t, acks, Passes(l, r), p) && ProtectedFit(l, t, acks, Passes(l, r'), p')
    ensures r == r' && p == p'
  {
    hide AirTime, Again, Total;
  }

  /** The count stays within the limit exactly when the limit is at least 2, or no
      retransmission fits and the limit is 1. */
  lemma PlainWithinLimitIff(l: Limits, t: Times, r: nat)
    requires PlainFit(l, t, r)
    ensures r <= l.maxRetry <==> l.maxRetry >= 2 || (l.maxRetry == 1 && Total(l, t, 1) >= l.segment)
  {
    hide AirTime, Total;
    if l.maxRetry < 2 && Total(l, t, 1) < l.segment { assert r == 2; }
  }

  /** The protected count leaves out the first try, so it can exceed the plain one: exactly
      when the time of all plain tries but with protection still fits the segment. */
  lemma ProtectedExceedsIff(l: Limits, t: Times, acks: nat, r: nat, p: nat)
    requires PlainFit(l, t, r) && ProtectedFit(l, t, acks, Passes(l, r), p)
    ensures p > r <==> r < l.maxRetry && Again(l, t, acks, r) < l.segment
    ensures p <= r + 1
  {
    hide AirTime, Total;
  }

  // ----- how many tries a frame is given

  /** Fewer tries for a rate that hardly works or hardly fails; never none. */
  function Adjusted(reduce: bool, plain: nat): (a: nat)
    ensures a >= 1
  {
    var half := if reduce then (if plain / 2 > 2 then 2 else plain / 2) else plain;
    if half == 0 then 2 else half
  }

  datatype Protection = Unprotected | CtsOnly | RtsCts

  /** Tries of a probe under the frame's protection. */
  function Tries(adjusted: nat, cts: nat, rts: nat, p: Protection): nat {
    match p
    case RtsCts => Max(2, Min(rts, adjusted))
    case CtsOnly => Max(2, Min(cts, adjusted))
    case Unprotected => adjusted
  }

  /** The smaller of two counts, but at least two. */
  ghost predicate GivenUpTo(adjusted: nat, fit: nat, tries: nat) {
    && (tries == 2 <==> adjusted <= 2 || fit <= 2)
    && (tries != 2 ==> 2 < tries && tries <= adjusted && tries <= fit && (tries == adjusted || tries == fit))
  }

  /** Without protection a frame gets all adjusted tries, with it those that fit. */
  lemma TriesGiven(adjusted: nat, cts: nat, rts: nat, p: Protection)
    ensures p.Unprotected? ==> Tries(adjusted, cts, rts, p) == adjusted
    ensures p.CtsOnly? ==> GivenUpTo(adjusted, cts, Tries(adjusted, cts, rts, p))
    ensures p.RtsCts? ==> GivenUpTo(adjusted, rts, Tries(adjusted, cts, rts, p))
  {
  }

  function Max(a: nat, b: nat): nat { if a >= b then a else b }

  /** Reducing a count lowers it, or leaves 2 at 1 and so on, except that a count of one is
      raised to two: a failing rate gets no more tries than a working one exactly when more
      than one try fits. */
  lemma ReducedIsLessIff(plain: nat)
    requires plain >= 1
    ensures Adjusted(true, plain) <= Adjusted(false, plain) <==> plain != 1
    ensures 1 <= Adjusted(true, plain) <= 2 && Adjusted(false, plain) == plain
  {
  }

  /** Protection raises the number of tries exactly when it was one. */
  lemma ProtectedTriesIff(adjusted: nat, cts: nat, rts: nat, p: Protection)
    requires adjusted >= 1
    ensures Tries(adjusted, cts, rts, p) <= adjusted <==> p.Unprotected? || adjusted >= 2
    ensures p != Unprotected ==> Tries(adjusted, cts, rts, p) >= 2
  {
  }
}
