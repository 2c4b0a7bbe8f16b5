/**
 AllowParticipantSubmit: the minute bucket first, then the hour bucket, which may deny a call that has already spent a
 minute token. Its Retry-After promise: a client that waits as told is denied at most twice in a row, at any rates.
 */
module RetryAfter {
  import opened Protocol
  import opened TokenBucket

  const MINUTE: int := 60_000
  const HOUR: int := 3_600_000

  datatype Rates = Rates(perMinute: int, perHour: int)

  /** The two buckets of one participant. */
  datatype Buckets = Buckets(minute: Bucket, hour: Bucket)

  function Interval(period: int, rate: int): (r: int)
    requires rate > 0
  {
    Max(1, period / rate)
  }

  /** The interval is the period divided among the tokens of the rate, in whole milliseconds, and never zero. */
  lemma IntervalIs(period: int, rate: int)
    requires rate > 0 && period >= 0
    ensures rate <= period ==> Interval(period, rate) * rate <= period < (Interval(period, rate) + 1) * rate
    ensures rate > period ==> Interval(period, rate) == 1
  {
  }

  /** tokenBucket on a bucket, with the shortcut for a rate that is off: no retry, bucket untouched. */
  function Limit(period: int, rate: int, b: Bucket, now: int): (Bucket, int) {
    if rate <= 0 then (b, 0)
    else (Call(Interval(period, rate), rate, b, now), Answer(Interval(period, rate), rate, b, now))
  }

  datatype Verdict = Allowed | Denied(retryAfter: int, at: int) | Unavailable

  /** The clock is read once for each bucket. */
  function Allow(r: Rates, q: Buckets, now: int, later: int): (Buckets, Verdict) {
    var (m, retry) := Limit(MINUTE, r.perMinute, q.minute, now);
    if retry > 0 then (q.(minute := m), Denied(retry, now))
    else
      var (h, retryHour) := Limit(HOUR, r.perHour, q.hour, later);
      if retryHour > 0 then (Buckets(m, h), Denied(retryHour, later)) else (Buckets(m, h), Allowed)
  }

  /** The order of the two buckets: a minute denial leaves the hour bucket alone; else the minute token is spent whatever
      the hour bucket says, and the hour bucket decides. */
  lemma AllowInOrder(r: Rates, q: Buckets, now: int, later: int)
    ensures var (after, v) := Allow(r, q, now, later);
            var (minute, wait) := Limit(60_000, r.perMinute, q.minute, now);
            var (hour, waitHour) := Limit(3_600_000, r.perHour, q.hour, later);
            && after.minute == minute
            && after.hour == (if wait > 0 then q.hour else hour)
            && v == (if wait > 0 then Denied(wait, now) else if waitHour > 0 then Denied(waitHour, later) else Allowed)
  {
  }

  /** tokenBucket with a script call that may fail, or run without its reply: then there is no answer. */
  function LimitUnder(period: int, rate: int, b: Bucket, now: int, command: Command): (Bucket, Option<int>) {
    var (after, retry) := Limit(period, rate, b, now);
    if rate <= 0 || command.Answered? then (after, Some(retry))
    else (if command.Unapplied? then b else after, None)
  }

  /** An error of the minute bucket leaves the hour bucket alone; neither error grants or denies anything. */
  function AllowUnder(r: Rates, q: Buckets, now: int, later: int, first: Command, second: Command): (Buckets, Verdict) {
    var (m, retry) := LimitUnder(MINUTE, r.perMinute, q.minute, now, first);
    match retry
    case None => (q.(minute := m), Unavailable)
    case Some(wait) =>
      if wait > 0 then (q.(minute := m), Denied(wait, now))
      else
        var (h, retryHour) := LimitUnder(HOUR, r.perHour, q.hour, later, second);
        match retryHour
        case None => (Buckets(m, h), Unavailable)
        case Some(waitHour) => (Buckets(m, h), if waitHour > 0 then Denied(waitHour, later) else Allowed)
  }

  /** A call with an error: what it leaves is what its command did, or nothing if the command was not applied. */
  lemma ErrorsSpelledOut(r: Rates, q: Buckets, now: int, later: int, first: Command, second: Command)
    requires r.perMinute > 0 && r.perHour > 0
    ensures var (after, v) := AllowUnder(r, q, now, later, first, second);
            var minute := Limit(MINUTE, r.perMinute, q.minute, now);
            var hour := Limit(HOUR, r.perHour, q.hour, later);
            && (first == Unapplied ==> (after, v) == (q, Unavailable))
            && (first == Unanswered ==> (after, v) == (Buckets(minute.0, q.hour), Unavailable))
            && (first == Answered && minute.1 <= 0 ==>
                  && (second == Unapplied ==> (after, v) == (Buckets(minute.0, q.hour), Unavailable))
                  && (second == Unanswered ==> (after, v) == (Buckets(minute.0, hour.0), Unavailable)))
  {
  }

  /** tokenBucket on the keys in Redis. */
  method LimitKeys(period: int, rate: int, keys: Keys, now: int, command: Command, ghost last: int)
    returns (retry: Option<int>)
    requires keys.Paired() && last <= now && RateOk(period, rate, keys.View(), last)
    modifies keys
    ensures keys.Paired() && (keys.View(), retry) == LimitUnder(period, rate, old(keys.View()), now, command)
  {
    if rate <= 0 { return Some(0); }
    if command.Unapplied? { return None; }
    var wait := keys.Eval(now, Interval(period, rate), rate, last);
    retry := if command.Answered? then Some(wait) else None;
  }

  /** AllowParticipantSubmit on the keys of one participant. */
  method AllowParticipantSubmit(
    r: Rates, minute: Keys, hour: Keys, now: int, later: int, first: Command, second: Command, ghost last: int)
    returns (v: Verdict)
    requires minute != hour && minute.Paired() && hour.Paired() && last <= now <= later
    requires BucketsOk(r, Buckets(minute.View(), hour.View()), last)
    modifies minute, hour
    ensures minute.Paired() && hour.Paired()
    ensures (Buckets(minute.View(), hour.View()), v)
            == AllowUnder(r, old(Buckets(minute.View(), hour.View())), now, later, first, second)
  {
    var retry := LimitKeys(MINUTE, r.perMinute, minute, now, first, last);
    if retry.None? { return Unavailable; }
    if retry.value > 0 { return Denied(retry.value, now); }
    retry := LimitKeys(HOUR, r.perHour, hour, later, second, last);
    if retry.None? { return Unavailable; }
    v := if retry.value > 0 then Denied(retry.value, later) else Allowed;
  }

  predicate RateOk(period: int, rate: int, b: Bucket, last: int) {
    rate > 0 ==> BucketOk(Interval(period, rate), rate, b, last)
  }

  /** Buckets left by earlier calls, all made at `last` or before. */
  predicate BucketsOk(r: Rates, q: Buckets, last: int) {
    RateOk(MINUTE, r.perMinute, q.minute, last) && RateOk(HOUR, r.perHour, q.hour, last)
  }

  /** The client comes back no earlier than it was told. */
  predicate Waited(v: Verdict, now: int) { v.Denied? ==> v.at + 1000 * v.retryAfter <= now }

  lemma LimitKeepsOk(period: int, rate: int, b: Bucket, last: int, now: int)
    requires RateOk(period, rate, b, last) && last <= now
    ensures RateOk(period, rate, Limit(period, rate, b, now).0, now)
    ensures Limit(period, rate, b, now).1 >= 0
  {
    if rate > 0 {
      CallKeepsOk(Interval(period, rate), rate, b, last, now);
    }
  }

  /** A bucket denies only when empty, and what it then tells to wait is at least its interval. */
  lemma DenialFacts(period: int, rate: int, b: Bucket, last: int, now: int)
    requires RateOk(period, rate, b, last) && last <= now && Limit(period, rate, b, now).1 > 0
    ensures rate > 0 && Limit(period, rate, b, now).0 == b && b.Level? && b.tokens == 0
    ensures 0 <= now - b.stamp < Interval(period, rate) <= 1000 * Limit(period, rate, b, now).1
  {
    CallKeepsOk(Interval(period, rate), rate, b, last, now);
  }

  /** Once an interval has passed since a call, the bucket grants. */
  lemma GrantsAfterInterval(period: int, rate: int, b: Bucket, last: int, now: int)
    requires RateOk(period, rate, b, last) && last <= now
    requires rate > 0 ==> last + Interval(period, rate) <= now
    ensures Limit(period, rate, b, now).1 == 0
  {
    if rate > 0 {
      CallKeepsOk(Interval(period, rate), rate, b, last, now);
    }
  }

  lemma AllowKeepsOk(r: Rates, q: Buckets, last: int, now: int, later: int)
    requires BucketsOk(r, q, last) && last <= now <= later
    ensures BucketsOk(r, Allow(r, q, now, later).0, later)
  {
    LimitKeepsOk(MINUTE, r.perMinute, q.minute, last, now);
    LimitKeepsOk(HOUR, r.perHour, q.hour, last, later);
  }

  /** Errors are on top of that: the buckets stay well-formed whatever fails, an answer is the one without errors, and a
      call is allowed only by two buckets that did answer or are off. */
  lemma ErrorsDecideNothing(r: Rates, q: Buckets, last: int, now: int, later: int, first: Command, second: Command)
    requires BucketsOk(r, q, last) && last <= now <= later
    ensures var (after, v) := AllowUnder(r, q, now, later, first, second);
            && BucketsOk(r, after, later)
            && (!v.Unavailable? ==> (after, v) == Allow(r, q, now, later))
            && (v.Allowed? ==> (r.perMinute <= 0 || first.Answered?) && (r.perHour <= 0 || second.Answered?))
  {
    LimitKeepsOk(MINUTE, r.perMinute, q.minute, last, now);
    LimitKeepsOk(HOUR, r.perHour, q.hour, last, later);
  }

  /** Three calls of a lone client that waits as told are never all denied. No relation between the two rates is
      needed: an hour denial right after a minute wait means the hour interval is the longer one. */
  lemma DeniedAtMostTwice(r: Rates, q1: Buckets, last: int, n1: int, l1: int, n2: int, l2: int, n3: int, l3: int)
    requires BucketsOk(r, q1, last) && last <= n1 <= l1 <= n2 <= l2 <= n3 <= l3
    requires var (q2, v1) := Allow(r, q1, n1, l1);
             var (q3, v2) := Allow(r, q2, n2, l2);
             Waited(v1, n2) && Waited(v2, n3) && v1.Denied? && v2.Denied?
    ensures var (q2, v1) := Allow(r, q1, n1, l1);
            var (q3, v2) := Allow(r, q2, n2, l2);
            Allow(r, q3, n3, l3).1.Allowed?
  {
    var (q2, v1) := Allow(r, q1, n1, l1);
    var (q3, v2) := Allow(r, q2, n2, l2);
    if Limit(MINUTE, r.perMinute, q1.minute, n1).1 > 0 {
      MinuteThenHour(r, q1, last, n1, l1, n2, l2, n3, l3);
    } else {
      HourThenMinute(r, q1, last, n1, l1, n2, l2, n3, l3);
    }
  }

  lemma MinuteThenHour(r: Rates, q1: Buckets, last: int, n1: int, l1: int, n2: int, l2: int, n3: int, l3: int)
    requires BucketsOk(r, q1, last) && last <= n1 <= l1 <= n2 <= l2 <= n3 <= l3
    requires Limit(MINUTE, r.perMinute, q1.minute, n1).1 > 0
    requires var (q2, v1) := Allow(r, q1, n1, l1);
             var (q3, v2) := Allow(r, q2, n2, l2);
             Waited(v1, n2) && Waited(v2, n3) && v2.Denied?
    ensures var (q2, v1) := Allow(r, q1, n1, l1);
            var (q3, v2) := Allow(r, q2, n2, l2);
            Allow(r, q3, n3, l3).1.Allowed?
  {
    var (q2, v1) := Allow(r, q1, n1, l1);
    var (q3, v2) := Allow(r, q2, n2, l2);
    DenialFacts(MINUTE, r.perMinute, q1.minute, last, n1);
    assert q2 == q1;
    GrantsAfterInterval(MINUTE, r.perMinute, q2.minute, n1, n2);
    LimitKeepsOk(MINUTE, r.perMinute, q2.minute, n1, n2);
    DenialFacts(HOUR, r.perHour, q2.hour, last, l2);
    GrantsAfterInterval(MINUTE, r.perMinute, q3.minute, n2, n3);
    GrantsAfterInterval(HOUR, r.perHour, q3.hour, l2, l3);
  }

  lemma HourThenMinute(r: Rates, q1: Buckets, last: int, n1: int, l1: int, n2: int, l2: int, n3: int, l3: int)
    requires BucketsOk(r, q1, last) && last <= n1 <= l1 <= n2 <= l2 <= n3 <= l3
    requires Limit(MINUTE, r.perMinute, q1.minute, n1).1 == 0
    requires var (q2, v1) := Allow(r, q1, n1, l1);
             var (q3, v2) := Allow(r, q2, n2, l2);
             Waited(v1, n2) && Waited(v2, n3) && v1.Denied? && v2.Denied?
    ensures var (q2, v1) := Allow(r, q1, n1, l1);
            var (q3, v2) := Allow(r, q2, n2, l2);
            Allow(r, q3, n3, l3).1.Allowed?
  {
    var (q2, v1) := Allow(r, q1, n1, l1);
    var (q3, v2) := Allow(r, q2, n2, l2);
    LimitKeepsOk(MINUTE, r.perMinute, q1.minute, last, n1);
    DenialFacts(HOUR, r.perHour, q1.hour, last, l1);
    LimitKeepsOk(MINUTE, r.perMinute, q2.minute, n1, n2);
    GrantsAfterInterval(HOUR, r.perHour, q2.hour, l1, l2);
    assert Limit(MINUTE, r.perMinute, q2.minute, n2).1 > 0;
    DenialFacts(MINUTE, r.perMinute, q2.minute, n1, n2);
    GrantsAfterInterval(MINUTE, r.perMinute, q3.minute, n2, n3);
    GrantsAfterInterval(HOUR, r.perHour, q3.hour, l1, l3);
  }

  // ----- Two denials do happen -----

  const DEFAULT_RATES := Rates(6, 120)

  /** A burst of six calls at 0, and then one every ten seconds. */
  function CallTime(n: nat): int { if n < 6 then 0 else 10_000 * (n - 5) }

  /** The buckets after `n` of these calls: the minute bucket is empty after the burst, and the hour bucket gains one
      token for every three it loses. */
  function Worn(n: nat): Buckets {
    if n == 0 then Buckets(Absent, Absent)
    else if n <= 6 then Buckets(Level(6 - n, 0, 120_000), Level(120 - n, 0, 7_200_000))
    else
      var m := n - 6;
      Buckets(Level(0, 10_000 * m, 10_000 * m + 120_000),
              Level(114 - m + m / 3, 30_000 * (m / 3), 10_000 * m + 7_200_000))
  }

  lemma MinuteWears(n: nat)
    ensures Limit(MINUTE, 6, Worn(n).minute, CallTime(n)) == (Worn(n + 1).minute, 0)
  {
  }

  lemma HourWears(n: nat)
    requires n < 177
    ensures Limit(HOUR, 120, Worn(n).hour, CallTime(n)) == (Worn(n + 1).hour, 0)
  {
    if n >= 6 {
      var m := n - 6;
      HourRefill(m);
      assert 114 - m + (m + 1) / 3 >= 1;
    }
  }

  lemma HourRefill(m: nat)
    ensures (10_000 * (m + 1) - 30_000 * (m / 3)) / 30_000 == (m + 1) / 3 - m / 3
  {
    if m % 3 == 2 {
      assert 10_000 * (m + 1) - 30_000 * (m / 3) == 30_000;
    }
  }

  /** Each of the 177 calls is allowed. */
  lemma CallWears(n: nat)
    requires n < 177
    ensures Allow(DEFAULT_RATES, Worn(n), CallTime(n), CallTime(n)) == (Worn(n + 1), Allowed)
  {
    MinuteWears(n);
    HourWears(n);
  }

  lemma DeniedOnceWorn()
    ensures Allow(DEFAULT_RATES, Worn(177), 1_710_000, 1_710_000) == (Worn(177), Denied(10, 1_710_000))
    ensures Allow(DEFAULT_RATES, Worn(177), 1_720_000, 1_720_000).1 == Denied(30, 1_720_000)
  {
    assert Worn(177) == Buckets(Level(0, 1_710_000, 1_830_000), Level(0, 1_710_000, 8_910_000));
    assert Limit(MINUTE, 6, Worn(177).minute, 1_720_000) == (Level(0, 1_720_000, 1_840_000), 0);
    assert Limit(HOUR, 120, Worn(177).hour, 1_720_000) == (Worn(177).hour, 30);
  }

  /** Two denials in a row do happen at the default rates, from absent keys: to a client that has spent a burst of six
      and then called every ten seconds, being allowed each time, for 28.5 minutes. */
  lemma TwoDenialsHappen(n: nat)
    ensures Worn(0) == Buckets(Absent, Absent)
    ensures n < 177 ==> Allow(DEFAULT_RATES, Worn(n), CallTime(n), CallTime(n)) == (Worn(n + 1), Allowed)
    ensures CallTime(176) == 1_710_000
    ensures Allow(DEFAULT_RATES, Worn(177), 1_710_000, 1_710_000) == (Worn(177), Denied(10, 1_710_000))
    ensures Allow(DEFAULT_RATES, Worn(177), 1_720_000, 1_720_000).1 == Denied(30, 1_720_000)
  {
    if n < 177 {
      CallWears(n);
    }
    DeniedOnceWorn();
  }
}
