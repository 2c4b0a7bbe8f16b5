/**
 The rate limiter's Lua script: integer refill on a time grid, a cap, lazily created keys and their expiry.
 Times are milliseconds of one clock that does not run backwards.
 */
module TokenBucket {
  import opened Protocol

  /** A Redis string key holding an integer, with its expiry instant if it has one. */
  datatype Key = Key(value: int, expiry: Option<int>)

  /** Every caller spends one token. */
  const COST: int := 1

  predicate Limits(interval: int, capacity: int) { interval >= 1 && capacity >= 1 }

  function Max(a: int, b: int): int { if a < b then b else a }
  function Min(a: int, b: int): int { if a < b then a else b }

  function Ttl(interval: int, capacity: int): int { Max(1000, interval * capacity * 2) }

  /** ceil(ms / 1000), at least one. */
  function RetrySeconds(ms: int): int { Max(1, (ms + 999) / 1000) }

  // ----- The bucket the two keys stand for -----

  datatype Bucket = Absent | Level(tokens: int, stamp: int, expiry: int)

  /** Last run at `last` or earlier: tokens within the cap, less than one interval since the stamp, and an expiry far
      enough away that the bucket would be full by then. */
  predicate BucketOk(interval: int, capacity: int, b: Bucket, last: int) {
    b.Level? ==>
      && 0 <= b.tokens <= capacity
      && b.stamp <= last
      && b.stamp + 2 * (interval * capacity) <= b.expiry
  }

  function Seen(b: Bucket, now: int): Bucket {
    if b.Level? && b.expiry < now then Absent else b
  }

  /** Tokens and stamp after creation or refill. */
  function Refilled(interval: int, capacity: int, b: Bucket, now: int): (int, int)
    requires Limits(interval, capacity)
  {
    match Seen(b, now)
    case Absent => (capacity, now)
    case Level(tokens, stamp, _) =>
      var refill := (now - stamp) / interval;
      if refill > 0 then (Min(capacity, tokens + refill), stamp + refill * interval) else (tokens, stamp)
  }

  predicate Grants(interval: int, capacity: int, b: Bucket, now: int)
    requires Limits(interval, capacity)
  {
    Refilled(interval, capacity, b, now).0 >= COST
  }

  /** The bucket after one call. A denial writes nothing: it can only follow a call that found nothing to refill. */
  function Call(interval: int, capacity: int, b: Bucket, now: int): Bucket
    requires Limits(interval, capacity)
  {
    if Grants(interval, capacity, b, now) then
      var (tokens, stamp) := Refilled(interval, capacity, b, now);
      Level(tokens - COST, stamp, now + Ttl(interval, capacity))
    else Seen(b, now)
  }

  function Answer(interval: int, capacity: int, b: Bucket, now: int): int
    requires Limits(interval, capacity)
  {
    if Grants(interval, capacity, b, now) then 0
    else RetrySeconds(interval * (COST - Refilled(interval, capacity, b, now).0))
  }

  // ----- The script on its keys -----

  class Keys {
    var token: Option<Key>
    var stamp: Option<Key>

    constructor ()
      ensures token.None? && stamp.None?
    {
      token, stamp := None, None;
    }

    /** Both keys exist together and expire together, or neither exists. */
    predicate Paired()
      reads this
    {
      || (token.None? && stamp.None?)
      || (token.Some? && stamp.Some? && token.value.expiry.Some? && stamp.value.expiry == token.value.expiry)
    }

    function View(): (b: Bucket)
      requires Paired()
      reads this
    {
      if token.None? then Absent else Level(token.value.value, stamp.value.value, token.value.expiry.value)
    }

    /** The expiry that Redis carries out before the script runs. */
    method Expire(now: int)
      modifies this
      ensures token == if old(token).Some? && old(token).value.expiry.Some? && old(token).value.expiry.value < now
                       then None else old(token)
      ensures stamp == if old(stamp).Some? && old(stamp).value.expiry.Some? && old(stamp).value.expiry.value < now
                       then None else old(stamp)
    {
      if token.Some? && token.value.expiry.Some? && token.value.expiry.value < now { token := None; }
      if stamp.Some? && stamp.value.expiry.Some? && stamp.value.expiry.value < now { stamp := None; }
    }

    /** The script, command by command. SET drops a key's expiry and only a grant sets it again, so that the keys stay
        paired rests on every refill being followed by a grant. */
    method Eval(now: int, interval: int, capacity: int, ghost last: int) returns (retry: int)
      requires Limits(interval, capacity) && Paired() && last <= now
      requires BucketOk(interval, capacity, View(), last)
      modifies this
      ensures Paired() && BucketOk(interval, capacity, View(), now)
      ensures View() == Call(interval, capacity, old(View()), now)
      ensures retry == Answer(interval, capacity, old(View()), now)
      ensures View().Level? && 0 <= now - View().stamp < interval
      ensures token.Some? && stamp.Some?
      ensures retry == 0 ==>
                token.value.expiry == stamp.value.expiry
                == Some(now + if interval * capacity * 2 < 1000 then 1000 else interval * capacity * 2)
    {
      Expire(now);
      ghost var before := View();
      var tokens: int;
      if token.None? {
        tokens := capacity;
        stamp := Some(Key(now, None));
        token := Some(Key(tokens, None));
      } else {
        tokens := token.value.value;
      }
      // The timestamp key is never missing here, so the script's fallback to `now` is dead.
      assert stamp.Some?;
      var lastRefill := stamp.value.value;
      var refill := (now - lastRefill) / interval;
      if refill > 0 {
        tokens := Min(capacity, tokens + refill);
        stamp := Some(Key(lastRefill + refill * interval, None));
        token := Some(Key(tokens, None));
      }
      RefillStaysBehind(interval, now - lastRefill);
      if tokens >= COST {
        tokens := tokens - COST;
        token := Some(Key(tokens, None));
        token := Some(token.value.(expiry := Some(now + Max(1000, interval * capacity * 2))));
        stamp := Some(stamp.value.(expiry := Some(now + Max(1000, interval * capacity * 2))));
        retry := 0;
      } else {
        retry := RetrySeconds(interval * (COST - tokens));
      }
    }
  }

  /** After the refill less than one interval is left over. */
  lemma RefillStaysBehind(interval: int, elapsed: int)
    requires interval >= 1
    ensures 0 <= elapsed - (elapsed / interval) * interval < interval
  {
  }

  lemma TimesMonotone(q: int, q': int, d: int)
    requires d >= 1 && q <= q'
    ensures q * d <= q' * d
  {
    assert (q' - q) * d >= 0;
  }

  lemma QuotientOrder(q: int, r: int, q': int, r': int, d: int)
    requires d >= 1 && 0 <= r < d && 0 <= r' < d && q * d + r <= q' * d + r'
    ensures q <= q'
  {
    if q' < q {
      TimesMonotone(q' + 1, q, d);
    }
  }

  lemma DivideMonotone(a: int, b: int, d: int)
    requires d >= 1 && a <= b
    ensures a / d <= b / d
  {
    QuotientOrder(a / d, a % d, b / d, b % d, d);
  }

  lemma DivideShifted(a: int, k: int, d: int)
    requires d >= 1
    ensures (a + k * d) / d == a / d + k
  {
    var n := a + k * d;
    assert (a / d + k) * d == (a / d) * d + k * d;
    QuotientOrder(a / d + k, a % d, n / d, n % d, d);
    QuotientOrder(n / d, n % d, a / d + k, a % d, d);
  }

  // ----- The bucket over one call -----

  /** Tokens in hand plus the grid points still to come until `until`: what the bucket can grant at most. */
  function Potential(interval: int, tokens: int, stamp: int, until: int): int
    requires interval >= 1
  {
    tokens + (until - stamp) / interval
  }

  /** After twice the time that fills a bucket, the grid points passed are worth at least a full bucket. */
  lemma IdleRefills(interval: int, capacity: int, stamp: int, now: int, until: int)
    requires Limits(interval, capacity) && stamp + 2 * (interval * capacity) <= now <= until
    ensures capacity + (until - now) / interval <= (until - stamp) / interval
  {
    DivideShifted(until - now, 2 * capacity, interval);
    assert 2 * (interval * capacity) == (2 * capacity) * interval;
    DivideMonotone(until - now + (2 * capacity) * interval, until - stamp, interval);
  }

  /** Moving the stamp along the grid trades grid points to come for tokens in hand. */
  lemma AdvanceKeepsPotential(interval: int, tokens: int, stamp: int, now: int, until: int)
    requires interval >= 1 && stamp <= now
    ensures var refill := (now - stamp) / interval;
            && refill >= 0 && 0 <= now - (stamp + refill * interval) < interval
            && Potential(interval, tokens + refill, stamp + refill * interval, until)
               == Potential(interval, tokens, stamp, until)
  {
    var refill := (now - stamp) / interval;
    DivideMonotone(0, now - stamp, interval);
    RefillStaysBehind(interval, now - stamp);
    DivideShifted(until - stamp, -refill, interval);
    assert until - (stamp + refill * interval) == until - stamp + -refill * interval;
  }

  /** Refilling and expiring never raise the potential: an expired bucket would have been full again. */
  lemma RefillKeepsPotential(interval: int, capacity: int, b: Bucket, last: int, now: int, until: int)
    requires Limits(interval, capacity) && b.Level? && BucketOk(interval, capacity, b, last) && last <= now <= until
    ensures var (tokens, stamp) := Refilled(interval, capacity, b, now);
            && Potential(interval, tokens, stamp, until) <= Potential(interval, b.tokens, b.stamp, until)
            && 0 <= tokens <= capacity && 0 <= now - stamp < interval
  {
    if Seen(b, now) == Absent {
      IdleRefills(interval, capacity, b.stamp, now, until);
    } else {
      AdvanceKeepsPotential(interval, b.tokens, b.stamp, now, until);
    }
  }

  lemma CallKeepsOk(interval: int, capacity: int, b: Bucket, last: int, now: int)
    requires Limits(interval, capacity) && BucketOk(interval, capacity, b, last) && last <= now
    ensures BucketOk(interval, capacity, Call(interval, capacity, b, now), now)
    ensures Call(interval, capacity, b, now).Level?
    ensures Refilled(interval, capacity, b, now).0 <= capacity && 0 <= now - Refilled(interval, capacity, b, now).1 < interval
    ensures !Grants(interval, capacity, b, now) ==>
              Call(interval, capacity, b, now) == b && b.Level? && b.tokens == 0 && 0 <= now - b.stamp < interval
  {
    if b.Level? {
      RefillKeepsPotential(interval, capacity, b, last, now, now);
    }
  }

  // ----- Any number of calls -----

  predicate Ordered(last: int, calls: seq<int>) {
    && (forall i :: 0 <= i < |calls| ==> last <= calls[i])
    && (forall i, j :: 0 <= i < j < |calls| ==> calls[i] <= calls[j])
  }

  function After(interval: int, capacity: int, b: Bucket, calls: seq<int>): Bucket
    requires Limits(interval, capacity)
    decreases |calls|
  {
    if calls == [] then b else After(interval, capacity, Call(interval, capacity, b, calls[0]), calls[1..])
  }

  function Granted(interval: int, capacity: int, b: Bucket, calls: seq<int>): nat
    requires Limits(interval, capacity)
    decreases |calls|
  {
    if calls == [] then 0
    else (if Grants(interval, capacity, b, calls[0]) then 1 else 0)
         + Granted(interval, capacity, Call(interval, capacity, b, calls[0]), calls[1..])
  }

  lemma {:induction false} GrantsBelowPotential(
    interval: int, capacity: int, b: Bucket, last: int, calls: seq<int>, until: int)
    requires Limits(interval, capacity) && b.Level? && BucketOk(interval, capacity, b, last)
    requires Ordered(last, calls) && last <= until && forall i :: 0 <= i < |calls| ==> calls[i] <= until
    ensures Granted(interval, capacity, b, calls) <= Potential(interval, b.tokens, b.stamp, until)
    decreases |calls|
  {
    if calls == [] {
      DivideMonotone(0, until - b.stamp, interval);
    } else {
      var now := calls[0];
      CallKeepsOk(interval, capacity, b, last, now);
      RefillKeepsPotential(interval, capacity, b, last, now, until);
      GrantsBelowPotential(interval, capacity, Call(interval, capacity, b, now), now, calls[1..], until);
    }
  }

  function CeilDiv(a: int, d: int): int
    requires d >= 1
  {
    (a + d - 1) / d
  }

  /** From any bucket left by earlier calls, the calls made within [t1, t2] are granted at most
      capacity + ceil((t2 - t1) / interval) times, however often the keys expire in between. */
  lemma WindowBound(interval: int, capacity: int, b: Bucket, last: int, calls: seq<int>, t1: int, t2: int)
    requires Limits(interval, capacity) && BucketOk(interval, capacity, b, last) && Ordered(last, calls)
    requires t1 <= t2 && forall i :: 0 <= i < |calls| ==> t1 <= calls[i] <= t2
    ensures Granted(interval, capacity, b, calls) <= capacity + CeilDiv(t2 - t1, interval)
  {
    hide Call, Grants, Potential, CeilDiv;
    CeilDivOrder(0, t2 - t1, interval);
    if calls != [] {
      var now := calls[0];
      FirstCallLeaves(interval, capacity, b, last, now, t2);
      CallKeepsOk(interval, capacity, b, last, now);
      GrantsBelowPotential(interval, capacity, Call(interval, capacity, b, now), now, calls[1..], t2);
      CeilDivOrder(t2 - now, t2 - t1, interval);
    }
  }

  lemma CeilDivOrder(a: int, b: int, d: int)
    requires d >= 1 && 0 <= a <= b
    ensures 0 <= CeilDiv(a, d) <= CeilDiv(b, d)
  {
    DivideMonotone(0, a + d - 1, d);
    DivideMonotone(a + d - 1, b + d - 1, d);
  }

  /** After the first call of a window, with that call counted, at most a full bucket and the grid points to come. */
  lemma FirstCallLeaves(interval: int, capacity: int, b: Bucket, last: int, now: int, until: int)
    requires Limits(interval, capacity) && BucketOk(interval, capacity, b, last) && last <= now <= until
    ensures var after := Call(interval, capacity, b, now);
            && after.Level?
            && (if Grants(interval, capacity, b, now) then COST else 0)
                 + Potential(interval, after.tokens, after.stamp, until) <= capacity + CeilDiv(until - now, interval)
  {
    CallKeepsOk(interval, capacity, b, last, now);
    var (tokens, stamp) := Refilled(interval, capacity, b, now);
    DivideMonotone(until - stamp, until - now + interval - 1, interval);
  }

  lemma {:induction false} ReachableOk(interval: int, capacity: int, b: Bucket, last: int, calls: seq<int>)
    requires Limits(interval, capacity) && BucketOk(interval, capacity, b, last) && Ordered(last, calls)
    ensures BucketOk(interval, capacity, After(interval, capacity, b, calls),
                     if calls == [] then last else calls[|calls| - 1])
    decreases |calls|
  {
    if calls != [] {
      CallKeepsOk(interval, capacity, b, last, calls[0]);
      ReachableOk(interval, capacity, Call(interval, capacity, b, calls[0]), calls[0], calls[1..]);
    }
  }

  /** The window bound for a whole history: `earlier` calls from an absent bucket, then those of the window. */
  lemma RateBound(interval: int, capacity: int, earlier: seq<int>, window: seq<int>, t1: int, t2: int)
    requires Limits(interval, capacity) && t1 <= t2
    requires Ordered(if earlier == [] then t1 else earlier[0], earlier + window)
    requires forall i :: 0 <= i < |window| ==> t1 <= window[i] <= t2
    ensures Granted(interval, capacity, After(interval, capacity, Absent, earlier), window)
            <= capacity + CeilDiv(t2 - t1, interval)
  {
    var first := if earlier == [] then t1 else earlier[0];
    var all := earlier + window;
    assert Ordered(first, earlier) by {
      assert forall i :: 0 <= i < |earlier| ==> all[i] == earlier[i];
    }
    ReachableOk(interval, capacity, Absent, first, earlier);
    var last := if earlier == [] then first else earlier[|earlier| - 1];
    assert Ordered(last, window) by {
      assert forall i :: 0 <= i < |window| ==> all[|earlier| + i] == window[i];
      assert earlier != [] ==> all[|earlier| - 1] == last;
    }
    WindowBound(interval, capacity, After(interval, capacity, Absent, earlier), last, window, t1, t2);
  }

  /** The bound is attained at t1 == t2: a fresh bucket grants exactly its capacity at one instant. */
  lemma {:induction false} BurstIsCapacity(interval: int, capacity: int, k: nat, now: int, b: Bucket)
    requires Limits(interval, capacity) && k <= capacity
    requires b == Level(k, now, now + Ttl(interval, capacity))
    ensures Granted(interval, capacity, b, seq(k + 1, _ => now)) == k
    decreases k
  {
    var calls := seq(k + 1, _ => now);
    assert calls[0] == now && calls[1..] == seq(k, _ => now);
    assert interval * capacity >= 0;
    if k > 0 {
      assert Call(interval, capacity, b, now) == Level(k - 1, now, now + Ttl(interval, capacity));
      BurstIsCapacity(interval, capacity, k - 1, now, Level(k - 1, now, now + Ttl(interval, capacity)));
    } else {
      assert calls[1..] == [];
    }
  }

  // ----- What is granted at least -----

  /** With nothing to refill, calls at one instant are granted until the tokens are gone. */
  lemma {:induction false} GrantedInHand(interval: int, capacity: int, t: int, stamp: int, expiry: int, now: int, k: nat)
    requires Limits(interval, capacity) && 0 <= t <= capacity && 0 <= now - stamp < interval && now <= expiry
    ensures Granted(interval, capacity, Level(t, stamp, expiry), seq(k, _ => now)) == if k < t then k else t
    decreases k
  {
    var b, calls := Level(t, stamp, expiry), seq(k, _ => now);
    if k == 0 {
      assert calls == [];
    } else {
      assert calls[0] == now && calls[1..] == seq(k - 1, _ => now);
      assert (now - stamp) / interval == 0;
      if t == 0 {
        assert Call(interval, capacity, b, now) == b;
        GrantedInHand(interval, capacity, t, stamp, expiry, now, k - 1);
      } else {
        TtlPositive(interval, capacity);
        assert Call(interval, capacity, b, now) == Level(t - 1, stamp, now + Ttl(interval, capacity));
        GrantedInHand(interval, capacity, t - 1, stamp, now + Ttl(interval, capacity), now, k - 1);
      }
    }
  }

  lemma TtlPositive(interval: int, capacity: int)
    requires Limits(interval, capacity)
    ensures Ttl(interval, capacity) >= 1000 && Ttl(interval, capacity) >= 2 * (interval * capacity)
  {
    TimesMonotone(1, capacity, interval);
  }

  /** The tokens after creation or refill: a full bucket if the keys are absent or expired, else one token more for every
      interval since the stamp, up to the capacity. */
  lemma TokensNow(interval: int, capacity: int, b: Bucket, last: int, now: int)
    requires Limits(interval, capacity) && BucketOk(interval, capacity, b, last) && last <= now
    ensures Refilled(interval, capacity, b, now).0 ==
            if b.Absent? || b.expiry < now then capacity
            else if capacity < b.tokens + (now - b.stamp) / interval then capacity
            else b.tokens + (now - b.stamp) / interval
    ensures Refilled(interval, capacity, b, now).1 ==
            if b.Absent? || b.expiry < now then now else b.stamp + (now - b.stamp) / interval * interval
  {
    if b.Level? {
      DivideMonotone(0, now - b.stamp, interval);
    }
  }

  /** No time is lost: unless the cap cuts it off, a refill keeps tokens and grid points to come exactly. */
  lemma RefillLosesNothing(interval: int, capacity: int, b: Bucket, last: int, now: int, until: int)
    requires Limits(interval, capacity) && BucketOk(interval, capacity, b, last) && last <= now <= until
    requires b.Level? && now <= b.expiry && b.tokens + (now - b.stamp) / interval <= capacity
    ensures var (tokens, stamp) := Refilled(interval, capacity, b, now);
            Potential(interval, tokens, stamp, until) == Potential(interval, b.tokens, b.stamp, until)
  {
    TokensNow(interval, capacity, b, last, now);
    AdvanceKeepsPotential(interval, b.tokens, b.stamp, now, until);
  }

  /** The lower bound: of `k` calls at one instant exactly as many are granted as there are tokens then. */
  lemma GrantedAtOnce(interval: int, capacity: int, b: Bucket, last: int, now: int, k: nat)
    requires Limits(interval, capacity) && BucketOk(interval, capacity, b, last) && last <= now
    ensures var tokens := if b.Absent? || b.expiry < now then capacity
                          else if capacity < b.tokens + (now - b.stamp) / interval then capacity
                          else b.tokens + (now - b.stamp) / interval;
            Granted(interval, capacity, b, seq(k, _ => now)) == if k < tokens then k else tokens
  {
    TokensNow(interval, capacity, b, last, now);
    CallKeepsOk(interval, capacity, b, last, now);
    var calls := seq(k, _ => now);
    if k == 0 {
      assert calls == [];
    } else {
      assert calls[0] == now && calls[1..] == seq(k - 1, _ => now);
      var after := Call(interval, capacity, b, now);
      CallLeaves(interval, capacity, b, last, now);
      GrantedInHand(interval, capacity, after.tokens, after.stamp, after.expiry, now, k - 1);
    }
  }

  /** A call leaves the tokens less the one it granted, with nothing to refill at its instant. */
  lemma CallLeaves(interval: int, capacity: int, b: Bucket, last: int, now: int)
    requires Limits(interval, capacity) && BucketOk(interval, capacity, b, last) && last <= now
    ensures var after, tokens := Call(interval, capacity, b, now), Refilled(interval, capacity, b, now).0;
            && after.Level? && now <= after.expiry && 0 <= now - after.stamp < interval && 0 <= tokens <= capacity
            && (Grants(interval, capacity, b, now) <==> tokens >= 1)
            && after.tokens == (if tokens >= 1 then tokens - 1 else 0)
  {
    CallKeepsOk(interval, capacity, b, last, now);
    TtlPositive(interval, capacity);
  }

  /** A denial names the least number of whole seconds, and at least one, in which a token comes. */
  lemma RetryIsLeast(interval: int, capacity: int, b: Bucket, last: int, now: int)
    requires Limits(interval, capacity) && BucketOk(interval, capacity, b, last) && last <= now
    requires !Grants(interval, capacity, b, now)
    ensures var retry := Answer(interval, capacity, b, now);
            && retry >= 1 && 1000 * retry >= interval
            && (retry == 1 || 1000 * (retry - 1) < interval)
  {
    CallKeepsOk(interval, capacity, b, last, now);
  }
}
