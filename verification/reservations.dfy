/** What the chunked token reservation of CapacityController.acquire amounts to, whatever the other
    tasks do between two chunks. */
module Reservations {
  import opened Common
  import opened Limiter
  import opened Admission
  import Laws = BucketLaws

  lemma ChunkFits(remaining: int, capacity: real)
    requires remaining >= 1 && capacity > 0.0
    ensures Chunk(remaining, capacity) as real <= capacity && 0 <= Chunk(remaining, capacity) <= remaining
    ensures Chunk(remaining, capacity) >= 1 <==> capacity >= 1.0
  {
  }

  /** No pass of the chunk loop ever asks the bucket for more than it can hold. */
  lemma ChunksNeverRaise(s: State, t: nat, now: real)
    requires Inv(s) && Enabled(s, TokenPass(t, now))
    ensures !Next(s, TokenPass(t, now)).At(t).Aborting?
  {
    assert PcOk(s.tasks[t]);
    if s.tokens.Some? {
      ChunkFits(s.At(t).remaining, s.tokens.value.capacity);
    }
  }

  // ---------------------------------------------------------------- payments

  /** Tokens that a step takes from the token bucket on behalf of its task. */
  ghost function Payment(s: State, step: Step): int
    requires Enabled(s, step)
  {
    if step.TokenPass? && s.tokens.Some? then
      var chunk := Chunk(s.At(step.t).remaining, s.tokens.value.capacity);
      if chunk > 0 && chunk as real <= s.tokens.value.capacity && s.tokens.value.Try(step.now, chunk as real).1 then chunk else 0
    else 0
  }

  ghost function Paid(s: State, steps: seq<Step>, t: nat): int
    requires IsRun(s, steps)
    decreases |steps|
  {
    if steps == [] then 0
    else (if steps[0].t == t then Payment(s, steps[0]) else 0) + Paid(Next(s, steps[0]), steps[1..], t)
  }

  ghost function PaidByAll(s: State, steps: seq<Step>): int
    requires IsRun(s, steps)
    decreases |steps|
  {
    if steps == [] then 0 else Payment(s, steps[0]) + PaidByAll(Next(s, steps[0]), steps[1..])
  }

  lemma {:induction false} PaidIsPart(s: State, steps: seq<Step>, t: nat)
    requires IsRun(s, steps)
    ensures 0 <= Paid(s, steps, t) <= PaidByAll(s, steps)
    decreases |steps|
  {
    if steps == [] {
    } else {
      PaidIsPart(Next(s, steps[0]), steps[1..], t);
    }
  }

  /** What a task still has to take before it leaves the chunk loop. */
  ghost function Owed(s: State, t: nat): int {
    if s.tokens.None? then 0
    else match s.At(t)
      case AtRequests(reserved) => Max(1, reserved)
      case AtTokens(_, remaining) => remaining
      case _ => 0
  }

  ghost predicate Gone(pc: Pc) {
    pc.Idle? || pc.Aborting?
  }

  ghost predicate NeverEnters(steps: seq<Step>, t: nat) {
    forall step <- steps :: !(step.Enter? && step.t == t)
  }

  lemma OthersKeepTheirPlace(s: State, step: Step, t: nat)
    requires Enabled(s, step) && step.t != t
    ensures Next(s, step).At(t) == s.At(t) && (Next(s, step).tokens.Some? <==> s.tokens.Some?)
  {
  }

  lemma StepPaysWhatItOwes(s: State, step: Step)
    requires Inv(s) && Enabled(s, step) && !step.Enter?
    ensures var n := Next(s, step);
            && (n.tokens.Some? <==> s.tokens.Some?)
            && (Gone(s.At(step.t)) ==> Gone(n.At(step.t)))
            && (!Gone(n.At(step.t)) ==> Owed(n, step.t) + Payment(s, step) == Owed(s, step.t))
  {
    if step.TokenPass? && s.tokens.Some? {
      assert PcOk(s.tasks[step.t]);
      ChunkFits(s.At(step.t).remaining, s.tokens.value.capacity);
    }
  }

  /** A chunk is a whole bucketful, or all that is left. */
  lemma ChunksAreBucketfuls(s: State, step: Step)
    requires Inv(s) && Enabled(s, step) && s.tokens.Some? && Payment(s, step) > 0
    ensures s.At(step.t).AtTokens?
    ensures Payment(s, step) == s.tokens.value.capacity.Floor || (Payment(s, step) == Owed(s, step.t) && Owed(Next(s, step), step.t) == 0)
  {
  }

  lemma {:induction false} GoneStaysGone(s: State, steps: seq<Step>, t: nat)
    requires Inv(s) && IsRun(s, steps) && NeverEnters(steps, t) && Gone(s.At(t))
    ensures Gone(Exec(s, steps).At(t))
    decreases |steps|
  {
    if steps == [] {
    } else {
      StepKeepsInv(s, steps[0]);
      if steps[0].t == t {
        StepPaysWhatItOwes(s, steps[0]);
      } else {
        OthersKeepTheirPlace(s, steps[0], t);
      }
      GoneStaysGone(Next(s, steps[0]), steps[1..], t);
    }
  }

  /** The chunks a task has taken are exactly what it no longer owes, under any interleaving. */
  lemma {:induction false} PaidIsNoLongerOwed(s: State, steps: seq<Step>, t: nat)
    requires Inv(s) && IsRun(s, steps) && NeverEnters(steps, t) && !Gone(Exec(s, steps).At(t))
    ensures Paid(s, steps, t) == Owed(s, t) - Owed(Exec(s, steps), t)
    ensures !Gone(s.At(t))
    decreases |steps|
  {
    if steps == [] {
    } else {
      var n := Next(s, steps[0]);
      StepKeepsInv(s, steps[0]);
      PaidIsNoLongerOwed(n, steps[1..], t);
      if steps[0].t == t {
        StepPaysWhatItOwes(s, steps[0]);
      } else {
        OthersKeepTheirPlace(s, steps[0], t);
      }
    }
  }

  // ---------------------------------------------------------------- the token bucket's own run

  /** What a step does to the token bucket. */
  ghost function TraceOf(s: State, step: Step): seq<Laws.Event>
    requires Enabled(s, step)
  {
    if s.tokens.None? then []
    else match step
      case TokenPass(t, now) =>
        var chunk := Chunk(s.At(t).remaining, s.tokens.value.capacity);
        if chunk <= 0 || chunk as real > s.tokens.value.capacity then [] else [Laws.At(now, Laws.Take(chunk as real))]
      case Refund(t, now, actual) =>
        if actual.Some? && actual.value < s.At(t).reserved
        then [Laws.At(now, Laws.GiveBack((s.At(t).reserved - actual.value) as real))] else []
      case _ => []
  }

  ghost function Trace(s: State, steps: seq<Step>): seq<Laws.Event>
    requires IsRun(s, steps)
    decreases |steps|
  {
    if steps == [] then [] else TraceOf(s, steps[0]) + Trace(Next(s, steps[0]), steps[1..])
  }

  lemma StepIsBucketStep(s: State, step: Step)
    requires Inv(s) && Enabled(s, step) && s.tokens.Some?
    ensures var n, es := Next(s, step), TraceOf(s, step);
            && n.tokens == Some(Laws.Exec(s.tokens.value, es)) && |es| <= 1
            && (es != [] ==> s.clock <= es[0].time == n.clock && Laws.Legal(es[0]) && !es[0].op.Retune?)
            && Laws.Granted(s.tokens.value, es) == Payment(s, step) as real
  {
    var es := TraceOf(s, step);
    if es != [] {
      assert es == [es[0]] && es[1..] == [];
      assert Laws.Exec(s.tokens.value, es) == Laws.Apply(s.tokens.value, es[0]);
      assert Laws.Granted(s.tokens.value, es) == Laws.GrantOf(s.tokens.value, es[0]) + 0.0;
    }
  }

  lemma LaterStart(early: real, late: real, es: seq<Laws.Event>, to: real)
    requires early <= late && Laws.Timely(late, es, to)
    ensures Laws.Timely(early, es, to)
  {
  }

  /** The token bucket of a run of the controller goes through a run of bucket events. */
  lemma {:induction false} RunIsBucketRun(s: State, steps: seq<Step>)
    requires Inv(s) && IsRun(s, steps) && s.tokens.Some?
    ensures var es := Trace(s, steps);
            && Laws.Timely(s.clock, es, Exec(s, steps).clock)
            && (forall e <- es :: !e.op.Retune?)
            && Laws.Granted(s.tokens.value, es) == PaidByAll(s, steps) as real
    decreases |steps|
  {
    if steps == [] {
    } else {
      var n, es := Next(s, steps[0]), TraceOf(s, steps[0]);
      StepKeepsInv(s, steps[0]);
      StepKeepsBuckets(s, steps[0]);
      StepIsBucketStep(s, steps[0]);
      RunIsBucketRun(n, steps[1..]);
      var rest := Trace(n, steps[1..]);
      if es == [] {
        assert es + rest == rest;
        LaterStart(s.clock, n.clock, rest, Exec(s, steps).clock);
      } else {
        assert es == [es[0]] && (es + rest)[0] == es[0] && (es + rest)[1..] == rest;
        assert Laws.Exec(s.tokens.value, es) == Laws.Apply(s.tokens.value, es[0]) by { assert es[1..] == []; }
        assert Laws.Granted(s.tokens.value, es) == Laws.GrantOf(s.tokens.value, es[0]) by { assert es[1..] == []; }
      }
    }
  }

  /** At fixed limits a run grants at most the capacity, the fill over its time, and its refunds. */
  lemma GrantsAreCovered(b: Bucket, from: real, es: seq<Laws.Event>, to: real)
    requires b.Valid() && b.last <= from && Laws.Timely(from, es, to) && forall e <- es :: !e.op.Retune?
    ensures Laws.Granted(b, es) <= Filled(b.capacity, b.rate, from, to) + Laws.Refunded(es)
  {
    Laws.Conservation(b, from, es, to);
    Laws.AccruedAtConstantRate(b, from, es, to);
    LevelInRange(b, from);
    LevelInRange(Laws.Exec(b, es), to);
    FillShifts(0.0, b.capacity, b.rate, from, to);
  }

  /** A task that goes through the chunk loop takes exactly max(1, reservation) tokens in chunks, no
      matter what the other tasks do meanwhile, and it cannot be quicker than the bucket: what it
      owed is covered by the capacity, the rate over the elapsed time, and the refunds of others. */
  lemma ReservationSumsAndTakesTime(s: State, steps: seq<Step>, t: nat)
    requires Inv(s) && IsRun(s, steps) && s.tokens.Some? && NeverEnters(steps, t)
    requires s.At(t).AtRequests? && !Gone(Exec(s, steps).At(t)) && Owed(Exec(s, steps), t) == 0
    ensures Paid(s, steps, t) == Max(1, s.At(t).reserved)
    ensures var b := s.tokens.value;
            Max(1, s.At(t).reserved) as real
              <= Filled(b.capacity, b.rate, s.clock, Exec(s, steps).clock) + Laws.Refunded(Trace(s, steps))
    ensures var b := s.tokens.value;
            Laws.Refunded(Trace(s, steps)) == 0.0 ==>
              Exec(s, steps).clock - s.clock >= (Max(1, s.At(t).reserved) as real - b.capacity) / b.rate
  {
    var b, es, to := s.tokens.value, Trace(s, steps), Exec(s, steps).clock;
    PaidIsNoLongerOwed(s, steps, t);
    PaidIsPart(s, steps, t);
    RunIsBucketRun(s, steps);
    GrantsAreCovered(b, s.clock, es, to);
    SleepFills(b.capacity, b.rate, s.clock, Max(1, s.At(t).reserved) as real, to);
  }

  // ---------------------------------------------------------------- when the chunk loop ends

  ghost predicate NeverFails(steps: seq<Step>, t: nat) {
    forall step <- steps :: !(step.Fail? && step.t == t)
  }

  /** A token capacity below one makes every chunk empty: its owner never moves on. */
  lemma {:induction false} EmptyChunksSpin(s: State, steps: seq<Step>, t: nat)
    requires Inv(s) && IsRun(s, steps) && NeverFails(steps, t) && s.At(t).AtTokens?
    requires s.tokens.Some? && s.tokens.value.capacity < 1.0
    ensures Exec(s, steps).At(t) == s.At(t)
    decreases |steps|
  {
    if steps == [] {
    } else {
      var n := Next(s, steps[0]);
      StepKeepsInv(s, steps[0]);
      assert PcOk(s.tasks[t]);
      ChunkFits(s.At(t).remaining, s.tokens.value.capacity);
      if steps[0].t != t {
        OthersKeepTheirPlace(s, steps[0], t);
      }
      EmptyChunksSpin(n, steps[1..], t);
    }
  }

  /** A moment at which the bucket can grant an amount that fits. */
  lemma FilledAt(b: Bucket, from: real, amount: real) returns (now: real)
    requires b.Valid() && b.last <= from && amount <= b.capacity
    ensures from <= now && b.Try(now, amount).1
  {
    now := from;
    if b.Level(from) < amount {
      now := from + b.Wait(from, amount);
      SleepFills(b.Level(from), b.rate, from, amount, from);
      FillShifts(b.Level(from), 0.0, b.rate, from, from);
      SleepFills(b.Level(from), b.rate, from, amount, now);
      RefillIsInvisible(b, from, now);
    }
  }

  /** A pass at a moment when the bucket can grant the next chunk. */
  lemma GrantedPass(s: State, t: nat) returns (now: real)
    requires Inv(s) && s.At(t).AtTokens? && s.tokens.Some? && s.tokens.value.capacity >= 1.0
    ensures Enabled(s, TokenPass(t, now)) && Inv(Next(s, TokenPass(t, now)))
    ensures var n := Next(s, TokenPass(t, now));
            && n.tokens.Some? && n.tokens.value.capacity == s.tokens.value.capacity
            && (n.At(t).AtPermit? || (n.At(t).AtTokens? && n.At(t).remaining < s.At(t).remaining))
  {
    assert PcOk(s.tasks[t]);
    ChunkFits(s.At(t).remaining, s.tokens.value.capacity);
    now := FilledAt(s.tokens.value, s.clock, Chunk(s.At(t).remaining, s.tokens.value.capacity) as real);
    StepKeepsInv(s, TokenPass(t, now));
  }

  /** With whole chunks a task alone can always finish its reservation. */
  lemma {:induction false} WholeChunksFinish(s: State, t: nat) returns (steps: seq<Step>)
    requires Inv(s) && s.At(t).AtTokens? && s.tokens.Some? && s.tokens.value.capacity >= 1.0
    ensures IsRun(s, steps) && Exec(s, steps).At(t).AtPermit?
    ensures forall step <- steps :: step.TokenPass? && step.t == t
    decreases s.At(t).remaining
  {
    var now := GrantedPass(s, t);
    var n := Next(s, TokenPass(t, now));
    assert PcOk(s.tasks[t]);
    var rest: seq<Step> := [];
    if n.At(t).AtTokens? {
      assert PcOk(n.tasks[t]);
      rest := WholeChunksFinish(n, t);
    }
    steps := [TokenPass(t, now)] + rest;
    assert steps[1..] == rest;
  }

  /** The chunk loop can end without an exception exactly when the token capacity is at least one;
      the configuration accepts any positive `token_burst`, so below one it spins. */
  lemma ChunkLoopEndsIffCapacityIsWhole(s: State, t: nat)
    requires Inv(s) && s.At(t).AtTokens? && s.tokens.Some?
    ensures (exists steps :: IsRun(s, steps) && NeverFails(steps, t) && !Exec(s, steps).At(t).AtTokens?)
       <==> s.tokens.value.capacity >= 1.0
  {
    if s.tokens.value.capacity >= 1.0 {
      var steps := WholeChunksFinish(s, t);
    } else {
      forall steps | IsRun(s, steps) && NeverFails(steps, t)
        ensures Exec(s, steps).At(t).AtTokens?
      {
        EmptyChunksSpin(s, steps, t);
      }
    }
  }

  /** A fresh controller with half a token of burst: its first task gets into the chunk loop, and from
      there no run leads out. */
  lemma HalfATokenSpins(reservation: nat)
    ensures var s := State(0.0, None, Some(Bucket(1.0, 0.5, 0.5, 0.0)), None, 0, 0, 0, map[]);
            var way := [Enter(0, reservation), RequestPass(0, 0.0)];
            && Fresh(s) && IsRun(s, way)
            && forall steps | IsRun(Exec(s, way), steps) && NeverFails(steps, 0) ::
                 Exec(Exec(s, way), steps).At(0) == AtTokens(reservation, Max(1, reservation))
  {
    var s := State(0.0, None, Some(Bucket(1.0, 0.5, 0.5, 0.0)), None, 0, 0, 0, map[]);
    var enter, pass := Enter(0, reservation), RequestPass(0, 0.0);
    var entered := Next(s, enter);
    var inside := Next(entered, pass);
    StepThenRun(entered, pass, []);
    StepThenRun(s, enter, [pass] + []);
    assert [enter] + ([pass] + []) == [enter, pass];
    FreshIsInv(s);
    StepKeepsInv(s, enter);
    StepKeepsInv(entered, pass);
    forall steps | IsRun(inside, steps) && NeverFails(steps, 0)
      ensures Exec(inside, steps).At(0) == AtTokens(reservation, Max(1, reservation))
    {
      EmptyChunksSpin(inside, steps, 0);
    }
  }

  // ---------------------------------------------------------------- the loop itself

  function Sum(chunks: seq<int>): int {
    if chunks == [] then 0 else Sum(chunks[..|chunks| - 1]) + chunks[|chunks| - 1]
  }

  lemma SumSnoc(chunks: seq<int>, chunk: int)
    ensures Sum(chunks + [chunk]) == Sum(chunks) + chunk
  {
    assert (chunks + [chunk])[..|chunks|] == chunks;
  }

  /** One more chunk. */
  lemma OneMoreChunk(b: Bucket, start: real, taken: int, c: Bucket, mid: real, chunk: int, after: Bucket, end: real)
    requires b.Valid() && b.last <= start <= mid <= end && c.Valid() && c.last <= mid && taken >= 0 && chunk >= 1
    requires Charged(b, start, taken as real, c, mid) && LoneAcquire(c, mid, chunk as real, end, after)
    ensures Charged(b, start, (taken + chunk) as real, after, end)
  {
    LoneAcquireIsCharged(c, mid, chunk as real, end, after);
    ChargesAdd(b, start, taken as real, c, mid, chunk as real, after, end);
  }

  /** The chunk loop of a task that has the bucket to itself, with the bucket and clock as objects. */
  method ReserveTokens(bucket: TokenBucket, reservation: int, clock: Clock) returns (chunks: seq<int>)
    requires bucket.State().Valid() && bucket.lastRefill <= clock.now && bucket.capacity >= 1.0
    modifies bucket, clock
    ensures bucket.State().Valid() && bucket.lastRefill <= clock.now && old(clock.now) <= clock.now
    ensures bucket.capacity == old(bucket.capacity) && bucket.rate == old(bucket.rate)
    ensures Sum(chunks) == Max(1, reservation)
    ensures forall c <- chunks :: 1 <= c && c as real <= bucket.capacity
    ensures forall i | 0 <= i < |chunks| - 1 :: chunks[i] == bucket.capacity.Floor
    ensures Charged(old(bucket.State()), old(clock.now), Sum(chunks) as real, bucket.State(), clock.now)
  {
    var remaining := Max(1, reservation);
    chunks := [];
    ghost var first, start := bucket.State(), clock.now;
    IdleIsFree(first, start, start);
    while remaining != 0
      invariant 0 <= remaining && Sum(chunks) == Max(1, reservation) - remaining
      invariant bucket.State().Valid() && bucket.lastRefill <= clock.now && start <= clock.now
      invariant bucket.capacity == first.capacity && bucket.rate == first.rate
      invariant forall c <- chunks :: 1 <= c && c as real <= bucket.capacity
      invariant forall i | 0 <= i < |chunks| :: chunks[i] == bucket.capacity.Floor || (i == |chunks| - 1 && remaining == 0)
      invariant Charged(first, start, Sum(chunks) as real, bucket.State(), clock.now)
    {
      var chunk := Chunk(remaining, bucket.capacity);
      ChunkFits(remaining, bucket.capacity);
      ghost var b, before := bucket.State(), clock.now;
      var waited := bucket.Acquire(chunk as real, clock);
      OneMoreChunk(first, start, Sum(chunks), b, before, chunk, bucket.State(), clock.now);
      SumSnoc(chunks, chunk);
      chunks := chunks + [chunk];
      remaining := remaining - chunk;
    }
  }
}
