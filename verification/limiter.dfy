/** The token bucket of app/limiter.py: a value that says what every critical section does,
    and the class whose methods are those sections. */
module Limiter {

  function Min(a: real, b: real): real {
    if a <= b then a else b
  }

  /** An account of `tokens` after filling at `rate` from `from` to `to`, never clipped. */
  function Filled(tokens: real, rate: real, from: real, to: real): real {
    tokens + (to - from) * rate
  }

  lemma FillSplits(tokens: real, rate: real, t0: real, t1: real, t2: real)
    ensures Filled(Filled(tokens, rate, t0, t1), rate, t1, t2) == Filled(tokens, rate, t0, t2)
  {
  }

  lemma FillShifts(tokens: real, more: real, rate: real, t0: real, t1: real)
    ensures Filled(tokens + more, rate, t0, t1) == Filled(tokens, rate, t0, t1) + more
    ensures Filled(tokens, rate, t0, t0) == tokens
  {
  }

  lemma ProductIsNotNegative(a: real, b: real)
    requires a >= 0.0 && b >= 0.0
    ensures a * b >= 0.0
  {
  }

  lemma FillGrows(tokens: real, rate: real, t0: real, t1: real)
    requires t0 <= t1 && rate > 0.0
    ensures Filled(tokens, rate, t0, t1) >= tokens
  {
    ProductIsNotNegative(t1 - t0, rate);
  }

  /** A bucket at rest: `tokens` is the level stored at `last`, refilled lazily at `rate` per second. */
  datatype Bucket = Bucket(rate: real, capacity: real, tokens: real, last: real) {
    ghost predicate Valid() {
      rate > 0.0 && capacity > 0.0 && 0.0 <= tokens <= capacity
    }

    /** The level a reader sees at `now`. */
    function Level(now: real): real {
      Min(capacity, Filled(tokens, rate, last, now))
    }

    function Refill(now: real): Bucket {
      this.(tokens := Level(now), last := now)
    }

    /** One pass of the acquire loop: refill, then take `amount` if it is there. */
    function Try(now: real, amount: real): (Bucket, bool) {
      var b := Refill(now);
      if b.tokens >= amount then (b.(tokens := b.tokens - amount), true) else (b, false)
    }

    function Refund(now: real, amount: real): Bucket {
      if amount <= 0.0 then this
      else this.(tokens := Min(capacity, Filled(tokens, rate, last, now) + amount), last := now)
    }

    function Reconfigure(now: real, rpm: real, newCapacity: real): Bucket {
      Bucket(rpm / 60.0, newCapacity, Min(newCapacity, Level(now)), now)
    }

    /** Seconds a failed pass sleeps before trying again. */
    function Wait(now: real, amount: real): real
      requires rate > 0.0
    {
      (amount - Level(now)) / rate
    }
  }

  lemma LevelInRange(b: Bucket, now: real)
    requires b.Valid() && b.last <= now
    ensures 0.0 <= b.Level(now) <= b.capacity
  {
    FillGrows(b.tokens, b.rate, b.last, now);
  }

  /** A refill in between is invisible to every later reader. */
  lemma RefillIsInvisible(b: Bucket, mid: real, later: real)
    requires b.Valid() && b.last <= mid <= later
    ensures b.Refill(mid).Level(later) == b.Level(later)
    ensures b.Refill(mid).Valid()
  {
    LevelInRange(b, mid);
    var full, now := b.capacity, Filled(b.tokens, b.rate, b.last, mid);
    FillSplits(b.tokens, b.rate, b.last, mid, later);
    FillGrows(full, b.rate, mid, later);
    FillShifts(now, full - now, b.rate, mid, later);
  }

  lemma SleepFills(level: real, rate: real, now: real, amount: real, later: real)
    requires rate > 0.0
    ensures Filled(level, rate, now, later) >= amount <==> later >= now + (amount - level) / rate
  {
    var wait, slept := (amount - level) / rate, later - now;
    assert wait * rate == amount - level;
    var spare := slept - wait;
    assert spare * rate == slept * rate - wait * rate;
    assert spare >= 0.0 <==> spare * rate >= 0.0;
  }

  /** A bucket set to `rpm` fills by that many in every minute; what was there stays, as far as it fits. */
  lemma ReconfiguredBucket(b: Bucket, now: real, rpm: real, capacity: real, later: real)
    requires b.Valid() && b.last <= now && rpm > 0.0 && capacity > 0.0
    ensures var c := b.Reconfigure(now, rpm, capacity);
            && c.Valid() && c.capacity == capacity && c.Level(now) == Min(capacity, b.Level(now))
            && Filled(0.0, c.rate, later, later + 60.0) == rpm
  {
    LevelInRange(b, now);
    var c := b.Reconfigure(now, rpm, capacity);
    FillShifts(c.tokens, 0.0, c.rate, now, now);
    assert c.rate * 60.0 == rpm;
    assert (later + 60.0 - later) * c.rate == 60.0 * c.rate;
  }

  /** A failed pass that sleeps at least the computed wait succeeds on its next pass exactly
      when the amount fits the capacity; a shorter sleep always fails. */
  lemma SleepDecidesNextTry(b: Bucket, now: real, amount: real, later: real)
    requires b.Valid() && b.last <= now <= later
    requires !b.Try(now, amount).1
    ensures later >= now + b.Wait(now, amount) ==> (b.Try(now, amount).0.Try(later, amount).1 <==> amount <= b.capacity)
    ensures later < now + b.Wait(now, amount) ==> !b.Try(now, amount).0.Try(later, amount).1
  {
    LevelInRange(b, now);
    SleepFills(b.Level(now), b.rate, now, amount, later);
  }

  /** What a lone acquire of an amount that fits does: nothing is waited for when the level
      suffices; otherwise the wait is at least the computed one; and exactly `amount` leaves the
      level a continuously filling bucket would show at the end. */
  ghost predicate LoneAcquire(b: Bucket, start: real, amount: real, end: real, after: Bucket)
    requires b.rate > 0.0
  {
    && (b.Level(start) >= amount ==> end == start)
    && (b.Level(start) < amount ==> end - start >= b.Wait(start, amount) > 0.0)
    && b.Level(end) >= amount
    && after == b.(tokens := b.Level(end) - amount, last := end)
    && after.Valid()
  }

  /** What leaves a bucket when `amount` is taken between `start` and `end`: nothing is given away, since the
      level plus the amount stays within the unclipped account, and nothing else is taken, since together
      they reach the level of a bucket that was left alone. */
  ghost predicate Charged(b: Bucket, start: real, amount: real, after: Bucket, end: real) {
    && after.rate == b.rate && after.capacity == b.capacity
    && b.Level(end) <= amount + after.Level(end) <= Filled(b.Level(start), b.rate, start, end)
  }

  lemma IdleIsFree(b: Bucket, start: real, end: real)
    requires b.Valid() && b.last <= start <= end
    ensures Charged(b, start, 0.0, b, end)
  {
    RefillIsInvisible(b, start, end);
  }

  lemma LoneAcquireIsCharged(b: Bucket, start: real, amount: real, end: real, after: Bucket)
    requires b.Valid() && b.last <= start <= end && amount > 0.0 && LoneAcquire(b, start, amount, end, after)
    ensures Charged(b, start, amount, after, end)
  {
    RefillIsInvisible(b, start, end);
    FillShifts(after.tokens, 0.0, b.rate, end, end);
  }

  /** Charges add up. */
  lemma ChargesAdd(b: Bucket, start: real, one: real, c: Bucket, mid: real, other: real, after: Bucket, end: real)
    requires b.Valid() && b.last <= start <= mid <= end && c.Valid() && c.last <= mid && one >= 0.0
    requires Charged(b, start, one, c, mid) && Charged(c, mid, other, after, end)
    ensures Charged(b, start, one + other, after, end)
  {
    RefillIsInvisible(b, mid, end);
    RefillIsInvisible(c, mid, end);
    FillSplits(b.Level(start), b.rate, start, mid, end);
    FillShifts(c.Level(mid), Filled(b.Level(start), b.rate, start, mid) - c.Level(mid), b.rate, mid, end);
    FillShifts(b.Level(mid), c.Level(mid) - b.Level(mid), b.rate, mid, end);
  }

  /** The two passes a lone waiter can make, as the retry loop meets them. */
  lemma LonePass(b: Bucket, start: real, amount: real, now: real, slept: bool)
    requires b.Valid() && b.last <= start <= now && 0.0 < amount <= b.capacity
    requires !slept ==> now == start
    requires slept ==> !b.Try(start, amount).1 && now - start >= b.Wait(start, amount)
    ensures slept ==> b.Try(start, amount).0.Try(now, amount).1 &&
                      LoneAcquire(b, start, amount, now, b.Try(start, amount).0.Try(now, amount).0)
    ensures !slept && b.Try(start, amount).1 ==> LoneAcquire(b, start, amount, start, b.Try(start, amount).0)
    ensures !b.Try(start, amount).1 ==> b.Wait(start, amount) > 0.0
  {
    LevelInRange(b, start);
    LevelInRange(b, now);
    RefillIsInvisible(b, start, now);
    if b.Level(start) < amount {
      SleepFills(b.Level(start), b.rate, start, amount, start);
      FillShifts(b.Level(start), 0.0, b.rate, start, start);
      if slept {
        SleepDecidesNextTry(b, start, amount, now);
      }
    }
  }

  /** A clock that only moves forward; a sleep lasts at least as long as asked. */
  class Clock {
    var now: real

    constructor (start: real)
      ensures now == start
    {
      now := start;
    }

    method Sleep(seconds: real)
      requires seconds >= 0.0
      modifies this
      ensures now >= old(now) + seconds
    {
      var overshoot: real := *;
      now := now + seconds + (if overshoot > 0.0 then overshoot else 0.0);
    }
  }

  datatype Outcome = Waited(seconds: real) | ExceedsCapacity

  /** TokenBucket with its fields; the asyncio lock is the atomicity of each method body. */
  class TokenBucket {
    var rate: real
    var capacity: real
    var tokens: real
    var lastRefill: real

    function State(): Bucket
      reads this
    {
      Bucket(rate, capacity, tokens, lastRefill)
    }

    constructor (rpm: real, capacity: real, clock: Clock)
      requires rpm > 0.0 && capacity > 0.0
      ensures State() == Bucket(rpm / 60.0, capacity, capacity, clock.now) && 60.0 * rate == rpm
      ensures State().Valid()
    {
      this.rate := rpm / 60.0;
      this.capacity := capacity;
      this.tokens := capacity;
      this.lastRefill := clock.now;
    }

    /** One pass under the lock. */
    method Pass(amount: real, now: real) returns (granted: bool)
      modifies this
      ensures (State(), granted) == old(State()).Try(now, amount)
    {
      tokens := Min(capacity, Filled(tokens, rate, lastRefill, now));
      lastRefill := now;
      granted := tokens >= amount;
      if granted {
        tokens := tokens - amount;
      }
    }

    /** The retry loop when no other coroutine touches the bucket: it returns after at most one
        sleep, having taken `amount` from the level that a continuously filling bucket would show. */
    method Acquire(amount: real, clock: Clock) returns (outcome: Outcome)
      requires State().Valid() && lastRefill <= clock.now
      modifies this, clock
      ensures clock.now >= old(clock.now)
      ensures amount <= 0.0 || amount > old(capacity) ==> State() == old(State()) && clock.now == old(clock.now)
      ensures outcome == if amount > 0.0 && amount > old(capacity) then ExceedsCapacity else Waited(clock.now - old(clock.now))
      ensures 0.0 < amount <= old(capacity) ==> LoneAcquire(old(State()), old(clock.now), amount, clock.now, State())
    {
      if amount <= 0.0 {
        return Waited(0.0);
      }
      if amount > capacity {
        return ExceedsCapacity;
      }
      var start := clock.now;
      ghost var first := State();
      ghost var slept := false;
      while true
        invariant start <= clock.now
        invariant !slept ==> State() == first && clock.now == start
        invariant slept ==> !first.Try(start, amount).1 && State() == first.Try(start, amount).0
        invariant slept ==> clock.now - start >= first.Wait(start, amount)
        decreases !slept
      {
        var now := clock.now;
        var granted := Pass(amount, now);
        LonePass(first, start, amount, now, slept);
        if granted {
          return Waited(clock.now - start);
        }
        var wait := (amount - tokens) / rate;
        clock.Sleep(wait);
        slept := true;
      }
    }

    method Refund(amount: real, clock: Clock)
      requires State().Valid() && lastRefill <= clock.now
      modifies this
      ensures State() == old(State()).Refund(clock.now, amount)
      ensures State().Valid() && lastRefill <= clock.now
    {
      if amount <= 0.0 {
        return;
      }
      FillGrows(tokens, rate, lastRefill, clock.now);
      tokens := Min(capacity, Filled(tokens, rate, lastRefill, clock.now) + amount);
      lastRefill := clock.now;
    }

    method ReadLevel(clock: Clock) returns (level: real)
      requires State().Valid() && lastRefill <= clock.now
      ensures level == State().Level(clock.now) && 0.0 <= level <= capacity
    {
      LevelInRange(State(), clock.now);
      level := Min(capacity, Filled(tokens, rate, lastRefill, clock.now));
    }

    method Reconfigure(rpm: real, newCapacity: real, clock: Clock)
      requires State().Valid() && lastRefill <= clock.now
      requires rpm > 0.0 && newCapacity > 0.0
      modifies this
      ensures State() == old(State()).Reconfigure(clock.now, rpm, newCapacity)
      ensures State().Valid() && lastRefill <= clock.now
    {
      LevelInRange(State(), clock.now);
      var current := Min(capacity, Filled(tokens, rate, lastRefill, clock.now));
      rate := rpm / 60.0;
      capacity := newCapacity;
      tokens := Min(newCapacity, current);
      lastRefill := clock.now;
    }
  }
}
