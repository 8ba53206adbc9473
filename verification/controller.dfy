/** CapacityController of app/multi_provider.py with its fields, for a caller that has it to itself;
    Admission is the same code under any interleaving. */
module Controller {
  import opened Common
  import opened Limiter
  import opened Admission
  import opened Reservations

  /** Time that passes before or after a charge does not change it. */
  lemma ChargedLater(b: Bucket, start: real, amount: real, c: Bucket, mid: real, end: real)
    requires b.Valid() && b.last <= start <= mid <= end && c.Valid() && c.last <= mid && amount >= 0.0
    requires Charged(b, start, amount, c, mid)
    ensures Charged(b, start, amount, c, end)
  {
    IdleIsFree(c, mid, end);
    ChargesAdd(b, start, amount, c, mid, 0.0, c, end);
  }

  lemma ChargedSince(b: Bucket, start: real, mid: real, amount: real, c: Bucket, end: real)
    requires b.Valid() && b.last <= start <= mid <= end
    requires Charged(b, mid, amount, c, end)
    ensures Charged(b, start, amount, c, end)
  {
    IdleIsFree(b, start, mid);
    ChargesAdd(b, start, 0.0, b, mid, amount, c, end);
  }

  class CapacityController {
    const requestBucket: TokenBucket?
    const tokenBucket: TokenBucket?
    const limit: Option<int>
    var permits: int
    var queued: int
    var active: int

    ghost const buckets: set<object>

    constructor (requestBucket: TokenBucket?, tokenBucket: TokenBucket?, limit: Option<int>)
      ensures this.requestBucket == requestBucket && this.tokenBucket == tokenBucket && this.limit == limit
      ensures queued == active == 0 && permits == if limit.Some? then limit.value else 0
      ensures buckets == (if requestBucket != null then {requestBucket} else {}) + (if tokenBucket != null then {tokenBucket} else {})
    {
      this.requestBucket, this.tokenBucket, this.limit := requestBucket, tokenBucket, limit;
      queued, active, permits := 0, 0, if limit.Some? then limit.value else 0;
      buckets := (if requestBucket != null then {requestBucket} else {}) + (if tokenBucket != null then {tokenBucket} else {});
    }

    /** Two different buckets, each valid and not ahead of the clock. */
    ghost predicate Ready(clock: Clock)
      reads this, clock, buckets
    {
      && (requestBucket != null ==> requestBucket in buckets && requestBucket.State().Valid() && requestBucket.lastRefill <= clock.now)
      && (tokenBucket != null ==> tokenBucket in buckets && tokenBucket.State().Valid() && tokenBucket.lastRefill <= clock.now)
      && (requestBucket != null ==> requestBucket != tokenBucket)
    }

    /** The waits inside acquire: one request, then the reservation in chunks; false when the request
        bucket cannot hold a request. */
    method Wait(reservation: int, clock: Clock) returns (ok: bool)
      requires Ready(clock) && (tokenBucket != null ==> tokenBucket.capacity >= 1.0)
      modifies clock, buckets
      ensures Ready(clock) && clock.now >= old(clock.now)
      ensures ok <==> requestBucket != null ==> old(requestBucket.capacity) >= 1.0
      ensures ok && requestBucket != null ==>
        Charged(old(requestBucket.State()), old(clock.now), 1.0, requestBucket.State(), clock.now)
      ensures ok && tokenBucket != null ==>
        Charged(old(tokenBucket.State()), old(clock.now), Max(1, reservation) as real, tokenBucket.State(), clock.now)
      ensures !ok ==> clock.now == old(clock.now) && requestBucket.State() == old(requestBucket.State())
      ensures !ok && tokenBucket != null ==> tokenBucket.State() == old(tokenBucket.State())
    {
      ghost var start, middle := clock.now, clock.now;
      if requestBucket != null {
        ghost var b := requestBucket.State();
        var outcome := requestBucket.Acquire(1.0, clock);
        if outcome.ExceedsCapacity? {
          return false;
        }
        LoneAcquireIsCharged(b, start, 1.0, clock.now, requestBucket.State());
        middle := clock.now;
      }
      if tokenBucket != null {
        ghost var b := tokenBucket.State();
        var chunks := ReserveTokens(tokenBucket, reservation, clock);
        ChargedSince(b, start, middle, Sum(chunks) as real, tokenBucket.State(), clock.now);
      }
      if requestBucket != null {
        ChargedLater(old(requestBucket.State()), start, 1.0, requestBucket.State(), middle, clock.now);
      }
      return true;
    }

    /** acquire: None when it raises. On every way out the queue gauge is back where it was. */
    method Acquire(reservation: int, clock: Clock) returns (granted: Option<(real, int)>)
      requires Ready(clock) && this !in buckets
      requires (limit.Some? ==> permits > 0) && (tokenBucket != null ==> tokenBucket.capacity >= 1.0)
      modifies this, clock, buckets
      ensures Ready(clock) && queued == old(queued)
      ensures granted == if requestBucket != null && old(requestBucket.capacity) < 1.0 then None
                         else Some((clock.now - old(clock.now), reservation))
      ensures active == old(active) + One(granted.Some?)
      ensures permits == old(permits) - One(granted.Some? && limit.Some?)
      ensures granted.Some? && requestBucket != null ==>
        Charged(old(requestBucket.State()), old(clock.now), 1.0, requestBucket.State(), clock.now)
      ensures granted.Some? && tokenBucket != null ==>
        Charged(old(tokenBucket.State()), old(clock.now), Max(1, reservation) as real, tokenBucket.State(), clock.now)
    {
      var started := clock.now;
      queued := queued + 1;
      var ok := Wait(reservation, clock);
      if !ok {
        queued := queued - 1;
        return None;
      }
      if limit.Some? {
        permits := permits - 1;
      }
      active := active + 1;
      queued := queued - 1;
      return Some((clock.now - started, reservation));
    }

    /** release: the unused part of the reservation goes back to the bucket. */
    method Release(reserved: int, actual: Option<int>, clock: Clock)
      requires Ready(clock) && this !in buckets
      modifies this, buckets
      ensures Ready(clock) && queued == old(queued)
      ensures active == Max(0, old(active) - 1) && permits == old(permits) + One(limit.Some?)
      ensures tokenBucket != null ==>
        tokenBucket.State() == if actual.Some? && actual.value < reserved
                               then old(tokenBucket.State()).Refund(clock.now, (reserved - actual.value) as real)
                               else old(tokenBucket.State())
    {
      if tokenBucket != null && actual.Some? && actual.value < reserved {
        tokenBucket.Refund((reserved - actual.value) as real, clock);
      }
      if limit.Some? {
        permits := permits + 1;
      }
      active := Max(0, active - 1);
    }
  }
}
