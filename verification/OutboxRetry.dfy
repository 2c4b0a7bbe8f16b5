/**
 Retrying the delivery of an outbox event: over any run the event stays undelivered until an answered XADD is committed,
 its attempts count the committed failures, and the delays they set grow up to the configured maximum, as the database
 stores it: rounded to microseconds.
 */
module OutboxRetry {
  import opened Protocol
  import opened Steps

  lemma {:induction false} Pow2Order(a: nat, b: nat)
    requires a <= b
    ensures 1 <= Pow2(a) <= Pow2(b)
    decreases b
  {
    if b > 0 {
      Pow2Order(if a == b then a - 1 else a, b - 1);
    }
  }

  /** Delays are positive, capped and never shrink; the shifted duration stays below 2^63 nanoseconds. */
  lemma BackoffOrder(a: nat, b: nat, maxBackoff: nat)
    requires a <= b && maxBackoff > 0
    ensures 0 < Backoff(a, maxBackoff) <= Backoff(b, maxBackoff) <= maxBackoff
    ensures SECOND * Pow2(if a < 20 then a else 20) < 0x8000_0000_0000_0000
  {
    var a', b' := if a < 20 then a else 20, if b < 20 then b else 20;
    Pow2Order(a', b');
    Pow2Order(a', 20);
    assert Pow2(20) == 1024 * 1024 by {
      assert Pow2(10) == 1024;
      assert Pow2(20) == 1024 * Pow2(10);
    }
  }

  /** The backoff is exponential: one second at first, doubled by every attempt up to the twentieth, and capped. */
  lemma BackoffDoubles(a: nat, maxBackoff: nat)
    ensures Backoff(0, maxBackoff) == if maxBackoff < 1_000_000_000 then maxBackoff else 1_000_000_000
    ensures a < 20 ==>
              Backoff(a + 1, maxBackoff) ==
              if 2 * Backoff(a, maxBackoff) > maxBackoff then maxBackoff else 2 * Backoff(a, maxBackoff)
    ensures a >= 20 ==> Backoff(a, maxBackoff) == Backoff(20, maxBackoff)
  {
    if a < 20 {
      assert Pow2(a + 1) == 2 * Pow2(a);
    }
  }

  // ----- The delay that is stored -----

  predicate RoundsUp(duration: nat, halfUp: bool) {
    duration % 1000 > 500 || (duration % 1000 == 500 && halfUp)
  }

  /** The stored delays never shrink, and end at the rounded maximum. */
  lemma StoredOrder(a: nat, b: nat, maxBackoff: nat, halfUp: bool)
    requires a <= b && maxBackoff > 0
    ensures StoredDelay(a, maxBackoff, halfUp) <= StoredDelay(b, maxBackoff, halfUp) <= 1000 * Micros(maxBackoff, halfUp)
  {
    BackoffOrder(a, b, maxBackoff);
  }

  /** A stored delay is positive exactly if the maximum is above half a microsecond. */
  lemma StoredPositiveIff(c: Config, attempts: nat)
    requires c.Valid()
    ensures StoredDelay(attempts, c.maxBackoff, c.halfUp) > 0 <==> c.maxBackoff > 500
  {
    Pow2Order(0, if attempts < 20 then attempts else 20);
  }

  /** The stored microseconds are the nearest ones. */
  lemma MicrosNearest(duration: nat, halfUp: bool)
    ensures -500 <= 1000 * Micros(duration, halfUp) - duration <= 500
    ensures duration % 1000 == 500 ==> (1000 * Micros(duration, halfUp) > duration <==> halfUp)
  {
  }

  /** Below the cap the stored delays double exactly, and the first one is a second. */
  lemma StoredDoubles(a: nat, maxBackoff: nat, halfUp: bool)
    requires maxBackoff >= 1_000_000_000
    ensures StoredDelay(0, maxBackoff, halfUp) == 1_000_000_000
    ensures a < 20 && 2 * Backoff(a, maxBackoff) <= maxBackoff ==>
              StoredDelay(a + 1, maxBackoff, halfUp) == 2 * StoredDelay(a, maxBackoff, halfUp)
  {
    MicrosRound(SECOND, halfUp);
    if a < 20 && 2 * Backoff(a, maxBackoff) <= maxBackoff {
      Pow2Order(0, a);
      assert Pow2(a + 1) == 2 * Pow2(a);
      WholeSeconds(Pow2(a));
      WholeSeconds(Pow2(a + 1));
      MicrosRound(SECOND * Pow2(a), halfUp);
      MicrosRound(SECOND * Pow2(a + 1), halfUp);
    }
  }

  lemma MicrosRound(duration: nat, halfUp: bool)
    ensures 1000 * Micros(duration, halfUp) <= duration <==> !RoundsUp(duration, halfUp)
    ensures duration % 1000 == 0 ==> 1000 * Micros(duration, halfUp) == duration
  {
  }

  /** A stored delay is at most the maximum exactly if the maximum does not cap it or is not rounded up. */
  lemma StoredWithinMaximumIff(attempts: nat, maxBackoff: nat, halfUp: bool)
    ensures StoredDelay(attempts, maxBackoff, halfUp) <= maxBackoff <==>
            SECOND * Pow2(if attempts < 20 then attempts else 20) <= maxBackoff || !RoundsUp(maxBackoff, halfUp)
  {
    var doublings := Pow2(if attempts < 20 then attempts else 20);
    MicrosRound(maxBackoff, halfUp);
    MicrosRound(SECOND * doublings, halfUp);
    WholeSeconds(doublings);
  }

  lemma WholeSeconds(n: nat)
    ensures SECOND * n % 1000 == 0
  {
    assert SECOND * n == 1000 * (1_000_000 * n);
  }

  /** One nanosecond is accepted as the maximum and stored as no delay at all. */
  lemma ZeroDelayIsStored(c: Config, attempts: nat)
    requires c.Valid() && c.maxBackoff == 1
    ensures Backoff(attempts, c.maxBackoff) > 0 && StoredDelay(attempts, c.maxBackoff, c.halfUp) == 0
  {
    StoredPositiveIff(c, attempts);
    BackoffOrder(attempts, attempts, c.maxBackoff);
  }

  /** A maximum of one second and 700 nanoseconds is exceeded from the second attempt on. */
  lemma DelayAboveMaximum(c: Config, attempts: nat)
    requires c.maxBackoff == 1_000_000_700 && attempts >= 1
    ensures StoredDelay(attempts, c.maxBackoff, c.halfUp) == 1_000_001_000 > c.maxBackoff
  {
    Pow2Order(1, if attempts < 20 then attempts else 20);
    assert Pow2(1) == 2;
  }

  predicate FailsEvent(s: State, l: Label, ev: nat) { l.MarkFailed? && Settles(s, l, ev) }
  predicate DeliversEvent(s: State, l: Label, ev: nat) { l.MarkDelivered? && Settles(s, l, ev) }

  /** The delays, counted from NOW() of each transaction, that the committed failures of `ev` set in a run. */
  function Delays(c: Config, s: State, ls: seq<Label>, ev: nat): seq<int> {
    if ls == [] || Exec(c, s, ls[..|ls| - 1]).None? then []
    else
      var m := Exec(c, s, ls[..|ls| - 1]).value;
      var l := ls[|ls| - 1];
      var before := Delays(c, s, ls[..|ls| - 1], ev);
      if FailsEvent(m, l, ev) && Apply(c, m, l).Some? && ev in Apply(c, m, l).value.outbox
      then before + [Apply(c, m, l).value.outbox[ev].availableAt - m.dispatchers[l.dispatcher].txTime]
      else before
  }

  function Deliveries(c: Config, s: State, ls: seq<Label>, ev: nat): nat {
    if ls == [] || Exec(c, s, ls[..|ls| - 1]).None? then 0
    else
      Deliveries(c, s, ls[..|ls| - 1], ev)
      + (if DeliversEvent(Exec(c, s, ls[..|ls| - 1]).value, ls[|ls| - 1], ev) then 1 else 0)
  }

  /** One step in the history of an event. */
  lemma HistoryStep(c: Config, m: State, l: Label, s': State, ev: nat)
    requires Apply(c, m, l) == Some(s') && ev in m.outbox
    ensures ev in s'.outbox
    ensures s'.outbox[ev].delivered <==> m.outbox[ev].delivered || DeliversEvent(m, l, ev)
    ensures s'.outbox[ev].attempts == m.outbox[ev].attempts + (if FailsEvent(m, l, ev) then 1 else 0)
    ensures FailsEvent(m, l, ev) ==> s'.outbox[ev].availableAt - m.dispatchers[l.dispatcher].txTime
                                     == StoredDelay(m.outbox[ev].attempts, c.maxBackoff, c.halfUp)
  {
    EventStep(c, m, l, s', ev);
  }

  /** What the last step of a run adds to the delays and the deliveries. */
  lemma HistorySnoc(c: Config, s: State, ls: seq<Label>, ev: nat)
    requires ls != [] && Exec(c, s, ls).Some? && ev in Exec(c, s, ls[..|ls| - 1]).value.outbox
    ensures var before, l := ls[..|ls| - 1], ls[|ls| - 1];
            var m := Exec(c, s, before).value;
            && Delays(c, s, ls, ev) == Delays(c, s, before, ev)
                 + (if FailsEvent(m, l, ev) then [StoredDelay(m.outbox[ev].attempts, c.maxBackoff, c.halfUp)] else [])
            && Deliveries(c, s, ls, ev) == Deliveries(c, s, before, ev) + (if DeliversEvent(m, l, ev) then 1 else 0)
  {
    HistoryStep(c, Exec(c, s, ls[..|ls| - 1]).value, ls[|ls| - 1], Exec(c, s, ls).value, ev);
  }

  /** The whole history of an event: it is delivered exactly if a delivery was committed, and the i-th committed failure
      delayed it by the stored backoff of its i-th attempt. */
  lemma {:induction false} RetryHistory(c: Config, s: State, ls: seq<Label>, ev: nat)
    requires ev in s.outbox && !s.outbox[ev].delivered && Exec(c, s, ls).Some?
    ensures ev in Exec(c, s, ls).value.outbox
    ensures Exec(c, s, ls).value.outbox[ev].delivered <==> Deliveries(c, s, ls, ev) > 0
    ensures Exec(c, s, ls).value.outbox[ev].attempts == s.outbox[ev].attempts + |Delays(c, s, ls, ev)|
    ensures forall i :: 0 <= i < |Delays(c, s, ls, ev)| ==>
              Delays(c, s, ls, ev)[i] == StoredDelay(s.outbox[ev].attempts + i, c.maxBackoff, c.halfUp)
    decreases |ls|
  {
    hide Apply;
    hide StoredDelay;
    if ls != [] {
      var m := Exec(c, s, ls[..|ls| - 1]).value;
      RetryHistory(c, s, ls[..|ls| - 1], ev);
      HistoryStep(c, m, ls[|ls| - 1], Exec(c, s, ls).value, ev);
      HistorySnoc(c, s, ls, ev);
    }
  }

  lemma DelaysAre(c: Config, s: State, ls: seq<Label>, ev: nat, i: nat, j: nat)
    requires ev in s.outbox && !s.outbox[ev].delivered && Exec(c, s, ls).Some?
    requires i < |Delays(c, s, ls, ev)| && j < |Delays(c, s, ls, ev)|
    ensures Delays(c, s, ls, ev)[i] == StoredDelay(s.outbox[ev].attempts + i, c.maxBackoff, c.halfUp)
    ensures Delays(c, s, ls, ev)[j] == StoredDelay(s.outbox[ev].attempts + j, c.maxBackoff, c.halfUp)
  {
    RetryHistory(c, s, ls, ev);
  }

  /** Over any run of failures the delays never shrink and are at most the rounded maximum; they are positive exactly if
      that maximum is. */
  lemma DelaysGrow(c: Config, s: State, ls: seq<Label>, ev: nat, i: nat, j: nat)
    requires c.Valid() && ev in s.outbox && !s.outbox[ev].delivered && Exec(c, s, ls).Some?
    requires i <= j < |Delays(c, s, ls, ev)|
    ensures Delays(c, s, ls, ev)[i] <= Delays(c, s, ls, ev)[j] <= 1000 * Micros(c.maxBackoff, c.halfUp)
    ensures Delays(c, s, ls, ev)[i] > 0 <==> c.maxBackoff > 500
  {
    var a, b := s.outbox[ev].attempts + i, s.outbox[ev].attempts + j;
    StoredOrder(a, b, c.maxBackoff, c.halfUp);
    StoredPositiveIff(c, a);
    DelaysAre(c, s, ls, ev, i, j);
  }

  /** At the instant of the failed attempt the event is ready again, and so selected before every later event, exactly if
      its delay was rounded to zero. */
  lemma ReadyAtOnceIff(c: Config, s: State, l: Label, s': State, ev: nat)
    requires c.Valid() && Apply(c, s, l) == Some(s') && FailsEvent(s, l, ev)
    requires ev in s.outbox && !s.outbox[ev].delivered
    ensures Ready(s', ev, s.dispatchers[l.dispatcher].txTime) <==> c.maxBackoff <= 500
  {
    EventStep(c, s, l, s', ev);
    StoredPositiveIff(c, s.outbox[ev].attempts);
  }

  /** In a run, a failure below the cap doubles the delay of the one before it; a new event starts with one second. */
  lemma DelaysDouble(c: Config, s: State, ls: seq<Label>, ev: nat, i: nat)
    requires c.maxBackoff >= 1_000_000_000 && ev in s.outbox && !s.outbox[ev].delivered && Exec(c, s, ls).Some?
    requires i < |Delays(c, s, ls, ev)|
    ensures s.outbox[ev].attempts + i == 0 ==> Delays(c, s, ls, ev)[i] == 1_000_000_000
    ensures i + 1 < |Delays(c, s, ls, ev)| && s.outbox[ev].attempts + i < 20
            && 2 * Backoff(s.outbox[ev].attempts + i, c.maxBackoff) <= c.maxBackoff ==>
              Delays(c, s, ls, ev)[i + 1] == 2 * Delays(c, s, ls, ev)[i]
  {
    hide StoredDelay, Backoff, Delays, Exec;
    StoredDoubles(s.outbox[ev].attempts + i, c.maxBackoff, c.halfUp);
    DelaysAre(c, s, ls, ev, i, i);
    if i + 1 < |Delays(c, s, ls, ev)| {
      DelaysAre(c, s, ls, ev, i, i + 1);
    }
  }
}
