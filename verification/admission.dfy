/** CapacityController of app/multi_provider.py as a step machine: any number of tasks inside
    acquire and release, interleaved at every await, sharing two buckets, a semaphore and two counters. */
module Admission {
  import opened Common
  import opened Limiter
  import Laws = BucketLaws

  /** Where a task stands. `reserved` is its token reservation. */
  datatype Pc =
    | Idle                                      // outside acquire and release
    | AtRequests(reserved: int)                 // queued, at the request bucket
    | AtTokens(reserved: int, remaining: int)   // queued, in the chunk loop
    | AtPermit(reserved: int)                   // queued, at the semaphore
    | Entering(reserved: int)                   // permit held, not yet counted active
    | Leaving(reserved: int)                    // counted active, about to leave the queue
    | Aborting                                  // an exception is unwinding acquire
    | Holding(reserved: int)                    // acquire has returned
    | Returning(reserved: int)                  // in release, past the refund
    | Uncounting                                // in release, permit given back

  datatype State = State(clock: real, requests: Option<Bucket>, tokens: Option<Bucket>, limit: Option<int>,
                         permits: int, queued: int, active: int, tasks: map<nat, Pc>) {
    function At(t: nat): Pc {
      if t in tasks then tasks[t] else Idle
    }
  }

  datatype Step =
    | Enter(t: nat, reservation: int)
    | RequestPass(t: nat, now: real)
    | TokenPass(t: nat, now: real)
    | TakePermit(t: nat)
    | Activate(t: nat)
    | Leave(t: nat)
    | Fail(t: nat)
    | FailLeave(t: nat)
    | Refund(t: nat, now: real, actual: Option<int>)
    | GivePermit(t: nat)
    | Deactivate(t: nat)

  function Max(a: int, b: int): int {
    if a >= b then a else b
  }

  function Chunk(remaining: int, capacity: real): int {
    if remaining <= capacity.Floor then remaining else capacity.Floor
  }

  ghost predicate Enabled(s: State, step: Step) {
    match step
    case Enter(t, _) => s.At(t).Idle?
    case RequestPass(t, now) => s.At(t).AtRequests? && s.clock <= now
    case TokenPass(t, now) => s.At(t).AtTokens? && s.clock <= now
    case TakePermit(t) => s.At(t).AtPermit? && (s.limit.Some? ==> s.permits > 0)
    case Activate(t) => s.At(t).Entering?
    case Leave(t) => s.At(t).Leaving?
    case Fail(t) => s.At(t).AtRequests? || s.At(t).AtTokens? || s.At(t).AtPermit?
    case FailLeave(t) => s.At(t).Aborting?
    case Refund(t, now, _) => s.At(t).Holding? && s.clock <= now
    case GivePermit(t) => s.At(t).Returning?
    case Deactivate(t) => s.At(t).Uncounting?
  }

  function Move(s: State, t: nat, pc: Pc): State {
    s.(tasks := s.tasks[t := pc])
  }

  /** One pass at the request bucket: no bucket, too small a bucket, granted, or back to sleep. */
  function PassRequests(s: State, t: nat, reserved: int, now: real): State {
    if s.requests.None? then Move(s.(clock := now), t, AtTokens(reserved, Max(1, reserved)))
    else if 1.0 > s.requests.value.capacity then Move(s.(clock := now), t, Aborting)
    else
      var (bucket, granted) := s.requests.value.Try(now, 1.0);
      Move(s.(clock := now, requests := Some(bucket)), t,
           if granted then AtTokens(reserved, Max(1, reserved)) else AtRequests(reserved))
  }

  /** One pass of the chunk loop; a chunk of nothing is granted at once and changes nothing. */
  function PassTokens(s: State, t: nat, reserved: int, remaining: int, now: real): State {
    if s.tokens.None? then Move(s.(clock := now), t, AtPermit(reserved))
    else
      var chunk := Chunk(remaining, s.tokens.value.capacity);
      if chunk <= 0 then s.(clock := now)
      else if chunk as real > s.tokens.value.capacity then Move(s.(clock := now), t, Aborting)
      else
        var (bucket, granted) := s.tokens.value.Try(now, chunk as real);
        Move(s.(clock := now, tokens := Some(bucket)), t,
             if !granted then AtTokens(reserved, remaining)
             else if remaining == chunk then AtPermit(reserved)
             else AtTokens(reserved, remaining - chunk))
  }

  function RefundTokens(s: State, t: nat, reserved: int, now: real, actual: Option<int>): State {
    var refund := s.tokens.Some? && actual.Some? && actual.value < reserved;
    Move(s.(clock := now,
            tokens := if refund then Some(s.tokens.value.Refund(now, (reserved - actual.value) as real)) else s.tokens),
         t, Returning(reserved))
  }

  ghost function Next(s: State, step: Step): State
    requires Enabled(s, step)
  {
    match step
    case Enter(t, reservation) => Move(s.(queued := s.queued + 1), t, AtRequests(reservation))
    case RequestPass(t, now) => PassRequests(s, t, s.At(t).reserved, now)
    case TokenPass(t, now) => PassTokens(s, t, s.At(t).reserved, s.At(t).remaining, now)
    case TakePermit(t) =>
      Move(s.(permits := if s.limit.Some? then s.permits - 1 else s.permits), t, Entering(s.At(t).reserved))
    case Activate(t) => Move(s.(active := s.active + 1), t, Leaving(s.At(t).reserved))
    case Leave(t) => Move(s.(queued := s.queued - 1), t, Holding(s.At(t).reserved))
    case Fail(t) => Move(s, t, Aborting)
    case FailLeave(t) => Move(s.(queued := s.queued - 1), t, Idle)
    case Refund(t, now, actual) => RefundTokens(s, t, s.At(t).reserved, now, actual)
    case GivePermit(t) => Move(s.(permits := if s.limit.Some? then s.permits + 1 else s.permits), t, Uncounting)
    case Deactivate(t) => Move(s.(active := Max(0, s.active - 1)), t, Idle)
  }

  ghost predicate IsRun(s: State, steps: seq<Step>)
    decreases |steps|
  {
    steps == [] || (Enabled(s, steps[0]) && IsRun(Next(s, steps[0]), steps[1..]))
  }

  ghost function Exec(s: State, steps: seq<Step>): State
    requires IsRun(s, steps)
    decreases |steps|
  {
    if steps == [] then s else Exec(Next(s, steps[0]), steps[1..])
  }

  /** A run is a step and the run from there. */
  lemma StepThenRun(s: State, step: Step, rest: seq<Step>)
    requires Enabled(s, step) && IsRun(Next(s, step), rest)
    ensures IsRun(s, [step] + rest) && Exec(s, [step] + rest) == Exec(Next(s, step), rest)
  {
    assert ([step] + rest)[1..] == rest;
  }

  /** A run is any prefix of it and the run from there. */
  lemma {:induction false} RunsJoin(s: State, a: seq<Step>, b: seq<Step>)
    ensures IsRun(s, a + b) <==> IsRun(s, a) && IsRun(Exec(s, a), b)
    ensures IsRun(s, a + b) ==> Exec(s, a + b) == Exec(Exec(s, a), b)
    decreases |a|
  {
    if a == [] {
      assert a + b == b;
    } else {
      assert (a + b)[1..] == a[1..] + b;
      if Enabled(s, a[0]) {
        RunsJoin(Next(s, a[0]), a[1..], b);
      }
    }
  }

  // ---------------------------------------------------------------- the counters

  predicate InQueue(pc: Pc) {
    pc.AtRequests? || pc.AtTokens? || pc.AtPermit? || pc.Entering? || pc.Leaving? || pc.Aborting?
  }

  predicate HasPermit(pc: Pc) {
    pc.Entering? || pc.Leaving? || pc.Holding? || pc.Returning?
  }

  /** Admitted holders: counted active and still holding a permit. */
  predicate Admitted(pc: Pc) {
    pc.Leaving? || pc.Holding? || pc.Returning?
  }

  predicate BetweenReleaseAndDecrement(pc: Pc) {
    pc.Uncounting?
  }

  ghost function Members(tasks: map<nat, Pc>, p: Pc -> bool): set<nat> {
    set t | t in tasks && p(tasks[t])
  }

  ghost function Count(tasks: map<nat, Pc>, p: Pc -> bool): int {
    |Members(tasks, p)|
  }

  function One(b: bool): int {
    if b then 1 else 0
  }

  lemma CardinalMoves(before: set<nat>, after: set<nat>, t: nat)
    requires after - {t} == before - {t}
    ensures |after| == |before| - One(t in before) + One(t in after)
  {
    if t !in before {
      assert before == before - {t};
    }
    if t !in after {
      assert after == after - {t};
    }
  }

  lemma CountMoves(s: State, t: nat, pc: Pc, p: Pc -> bool)
    requires !p(Idle)
    ensures Count(s.tasks[t := pc], p) == Count(s.tasks, p) - One(p(s.At(t))) + One(p(pc))
  {
    var before, after := Members(s.tasks, p), Members(s.tasks[t := pc], p);
    assert after - {t} == before - {t};
    CardinalMoves(before, after, t);
  }

  ghost predicate BucketOk(b: Option<Bucket>, clock: real) {
    b.Some? ==> b.value.Valid() && b.value.last <= clock
  }

  ghost predicate PcOk(pc: Pc) {
    pc.AtTokens? ==> 1 <= pc.remaining <= Max(1, pc.reserved)
  }

  ghost predicate TasksOk(s: State) {
    forall t <- s.tasks :: PcOk(s.tasks[t])
  }

  ghost predicate CountersOk(s: State) {
    && s.queued == Count(s.tasks, InQueue)
    && s.active == Count(s.tasks, Admitted) + Count(s.tasks, BetweenReleaseAndDecrement)
    && (s.limit.Some? ==> s.permits >= 0 && s.permits + Count(s.tasks, HasPermit) == s.limit.value)
  }

  ghost predicate Inv(s: State) {
    && BucketOk(s.requests, s.clock) && BucketOk(s.tokens, s.clock)
    && TasksOk(s)
    && CountersOk(s)
  }

  lemma StepMovesOne(s: State, step: Step)
    requires Enabled(s, step)
    ensures var n := Next(s, step);
            n.tasks == s.tasks[step.t := n.At(step.t)] || (n.tasks == s.tasks && n.At(step.t) == s.At(step.t))
    ensures Next(s, step).limit == s.limit
  {
  }

  /** How a step moves each gauge, in terms of where its own task stands before and after. */
  lemma StepMovesGauges(s: State, step: Step)
    requires Enabled(s, step) && (s.At(step.t).Uncounting? ==> s.active >= 1)
    ensures var n, was, now := Next(s, step), s.At(step.t), Next(s, step).At(step.t);
            && n.queued == s.queued - One(InQueue(was)) + One(InQueue(now))
            && n.active == s.active - One(Admitted(was)) + One(Admitted(now))
                           - One(BetweenReleaseAndDecrement(was)) + One(BetweenReleaseAndDecrement(now))
            && (s.limit.Some? ==> n.permits == s.permits + One(HasPermit(was)) - One(HasPermit(now)))
            && (s.limit.Some? && s.permits >= 0 ==> n.permits >= 0)
  {
  }

  lemma UncountingIsCounted(s: State, t: nat)
    requires s.At(t).Uncounting?
    ensures Count(s.tasks, BetweenReleaseAndDecrement) >= 1
  {
    assert t in Members(s.tasks, BetweenReleaseAndDecrement);
  }

  lemma StepKeepsCounters(s: State, step: Step)
    requires CountersOk(s) && Enabled(s, step)
    ensures CountersOk(Next(s, step))
  {
    var t, n := step.t, Next(s, step);
    if s.At(t).Uncounting? {
      UncountingIsCounted(s, t);
    }
    StepMovesOne(s, step);
    StepMovesGauges(s, step);
    CountMoves(s, t, n.At(t), InQueue);
    CountMoves(s, t, n.At(t), Admitted);
    CountMoves(s, t, n.At(t), BetweenReleaseAndDecrement);
    CountMoves(s, t, n.At(t), HasPermit);
  }

  lemma StepKeepsBuckets(s: State, step: Step)
    requires Inv(s) && Enabled(s, step)
    ensures var n := Next(s, step);
            && BucketOk(n.requests, n.clock) && BucketOk(n.tokens, n.clock) && PcOk(n.At(step.t))
            && s.clock <= n.clock
  {
    match step {
      case RequestPass(t, now) =>
        if s.requests.Some? {
          Laws.EventLedger(s.requests.value, Laws.At(now, Laws.Take(1.0)));
        }
      case TokenPass(t, now) =>
        if s.tokens.Some? {
          var chunk := Chunk(s.At(t).remaining, s.tokens.value.capacity);
          if chunk > 0 {
            Laws.EventLedger(s.tokens.value, Laws.At(now, Laws.Take(chunk as real)));
          }
        }
      case Refund(t, now, actual) =>
        if s.tokens.Some? && actual.Some? {
          Laws.EventLedger(s.tokens.value, Laws.At(now, Laws.GiveBack((s.At(t).reserved - actual.value) as real)));
        }
      case _ =>
    }
  }

  /** The clock stands at the latest pass or refund, whoever made it. */
  lemma StepTellsTheTime(s: State, step: Step)
    requires Enabled(s, step)
    ensures Next(s, step).clock == if step.RequestPass? || step.TokenPass? || step.Refund? then step.now else s.clock
  {
  }

  lemma StepKeepsTasks(s: State, step: Step)
    requires TasksOk(s) && Enabled(s, step) && PcOk(Next(s, step).At(step.t))
    ensures TasksOk(Next(s, step))
  {
    StepMovesOne(s, step);
  }

  lemma StepKeepsInv(s: State, step: Step)
    requires Inv(s) && Enabled(s, step)
    ensures Inv(Next(s, step))
  {
    StepKeepsCounters(s, step);
    StepKeepsBuckets(s, step);
    StepKeepsTasks(s, step);
  }

  lemma {:induction false} RunKeepsInv(s: State, steps: seq<Step>)
    requires Inv(s) && IsRun(s, steps)
    ensures Inv(Exec(s, steps)) && s.clock <= Exec(s, steps).clock
    decreases |steps|
  {
    if steps == [] {
    } else {
      StepKeepsInv(s, steps[0]);
      StepKeepsBuckets(s, steps[0]);
      RunKeepsInv(Next(s, steps[0]), steps[1..]);
    }
  }

  ghost predicate RequestsFit(s: State) {
    s.requests.Some? ==> s.requests.value.capacity >= 1.0
  }

  ghost predicate TokensFit(s: State) {
    s.tokens.Some? ==> s.tokens.value.capacity >= 1.0
  }

  /** Buckets that can grant a request and a token at all. */
  ghost predicate Admitting(s: State) {
    RequestsFit(s) && TokensFit(s)
  }

  lemma StepKeepsCapacities(s: State, step: Step)
    requires Enabled(s, step)
    ensures RequestsFit(Next(s, step)) == RequestsFit(s) && TokensFit(Next(s, step)) == TokensFit(s)
  {
  }

  /** A fresh controller with its full buckets and all its permits. */
  ghost predicate Fresh(s: State) {
    && s.tasks == map[] && s.queued == 0 && s.active == 0
    && BucketOk(s.requests, s.clock) && BucketOk(s.tokens, s.clock)
    && (s.limit.Some? ==> s.limit.value > 0 && s.permits == s.limit.value)
  }

  lemma FreshIsInv(s: State)
    requires Fresh(s)
    ensures Inv(s)
  {
    assert Members(s.tasks, InQueue) == Members(s.tasks, Admitted) == Members(s.tasks, HasPermit) == {};
    assert Members(s.tasks, BetweenReleaseAndDecrement) == {};
  }

  lemma {:induction false} LimitIsFixed(s: State, steps: seq<Step>)
    requires IsRun(s, steps)
    ensures Exec(s, steps).limit == s.limit
    decreases |steps|
  {
    if steps == [] {
    } else {
      LimitIsFixed(Next(s, steps[0]), steps[1..]);
    }
  }

  /** In every interleaving from a fresh controller: the queue gauge counts the tasks inside
      acquire, however they leave it; permits are never oversold; the active gauge counts the
      admitted holders plus those between giving the permit back and the decrement; and that
      decrement always finds a positive gauge, so its clamp at zero never fires. */
  lemma AdmissionProtocol(s: State, steps: seq<Step>)
    requires Fresh(s) && IsRun(s, steps)
    ensures var n := Exec(s, steps);
            && n.queued == Count(n.tasks, InQueue)
            && n.active == Count(n.tasks, Admitted) + Count(n.tasks, BetweenReleaseAndDecrement)
            && (n.limit.Some? ==> Count(n.tasks, HasPermit) <= n.limit.value && n.limit == s.limit)
            && (forall t | Enabled(n, Deactivate(t)) :: n.active >= 1)
  {
    FreshIsInv(s);
    RunKeepsInv(s, steps);
    LimitIsFixed(s, steps);
    var n := Exec(s, steps);
    forall t | Enabled(n, Deactivate(t))
      ensures n.active >= 1
    {
      UncountingIsCounted(n, t);
    }
  }
}
