/** What a routed request costs the controllers it passes: the calls of a forwarding loop, carried out on
    real controllers while any other tasks use them. */
module Ledger {
  import opened Common
  import opened Limiter
  import opened Admission
  import opened Reservations
  import Laws = BucketLaws
  import Routing
  import RoutingLaws

  // ---------------------------------------------------------------- tokens given back

  /** Tokens that a step gives back to the token bucket on behalf of its task, before clipping. */
  ghost function GivenBack(s: State, step: Step): int
    requires Enabled(s, step)
  {
    if step.Refund? && s.tokens.Some? && step.actual.Some? && step.actual.value < s.At(step.t).reserved
    then s.At(step.t).reserved - step.actual.value else 0
  }

  ghost function Returned(s: State, steps: seq<Step>, t: nat): int
    requires IsRun(s, steps)
    decreases |steps|
  {
    if steps == [] then 0
    else (if steps[0].t == t then GivenBack(s, steps[0]) else 0) + Returned(Next(s, steps[0]), steps[1..], t)
  }

  ghost function ReturnedByAll(s: State, steps: seq<Step>): int
    requires IsRun(s, steps)
    decreases |steps|
  {
    if steps == [] then 0 else GivenBack(s, steps[0]) + ReturnedByAll(Next(s, steps[0]), steps[1..])
  }

  lemma OneEvent(b: Bucket, e: Laws.Event, rest: seq<Laws.Event>)
    ensures Laws.Exec(b, [e] + rest) == Laws.Exec(Laws.Apply(b, e), rest)
    ensures Laws.Refunded([e] + rest) == Laws.RefundOf(e) + Laws.Refunded(rest)
  {
    assert ([e] + rest)[1..] == rest;
  }

  lemma StepRefunds(s: State, step: Step)
    requires Inv(s) && Enabled(s, step) && s.tokens.Some?
    ensures var es := TraceOf(s, step);
            && (es == [] ==> GivenBack(s, step) == 0 && Next(s, step).tokens == s.tokens)
            && (es != [] ==> es == [es[0]] && Laws.RefundOf(es[0]) == GivenBack(s, step) as real
                             && Next(s, step).tokens == Some(Laws.Apply(s.tokens.value, es[0])))
  {
    StepIsBucketStep(s, step);
    var es := TraceOf(s, step);
    if es != [] {
      assert es == [es[0]] && es[1..] == [];
    }
  }

  lemma {:induction false} TraceEndsInTheBucket(s: State, steps: seq<Step>)
    requires Inv(s) && IsRun(s, steps) && s.tokens.Some?
    ensures Exec(s, steps).tokens == Some(Laws.Exec(s.tokens.value, Trace(s, steps)))
    ensures Laws.Refunded(Trace(s, steps)) == ReturnedByAll(s, steps) as real
    decreases |steps|
  {
    if steps == [] {
    } else {
      var n, es := Next(s, steps[0]), TraceOf(s, steps[0]);
      StepKeepsInv(s, steps[0]);
      StepIsBucketStep(s, steps[0]);
      StepRefunds(s, steps[0]);
      TraceEndsInTheBucket(n, steps[1..]);
      var rest := Trace(n, steps[1..]);
      if es == [] {
        assert es + rest == rest;
      } else {
        OneEvent(s.tokens.value, es[0], rest);
      }
    }
  }

  /** The level of the token bucket at the end of any controller run: what was there and what the rate
      delivered, less what spilled, less what all tasks took, plus what they gave back. */
  lemma BucketLedger(s: State, steps: seq<Step>)
    requires Inv(s) && IsRun(s, steps) && s.tokens.Some?
    ensures var (b, n) := (s.tokens.value, Exec(s, steps));
            && n.tokens.Some?
            && n.tokens.value.Level(n.clock) == b.Level(s.clock)
                 + Laws.Accrued(b, s.clock, Trace(s, steps), n.clock) - Laws.Spilled(b, s.clock, Trace(s, steps), n.clock)
                 - (PaidByAll(s, steps) - ReturnedByAll(s, steps)) as real
  {
    RunIsBucketRun(s, steps);
    TraceEndsInTheBucket(s, steps);
    Laws.Conservation(s.tokens.value, s.clock, Trace(s, steps), Exec(s, steps).clock);
  }

  // ---------------------------------------------------------------- one visit

  lemma {:induction false} SumsJoin(s: State, a: seq<Step>, b: seq<Step>, t: nat)
    requires IsRun(s, a) && IsRun(Exec(s, a), b)
    ensures IsRun(s, a + b)
    ensures Paid(s, a + b, t) == Paid(s, a, t) + Paid(Exec(s, a), b, t)
    ensures Returned(s, a + b, t) == Returned(s, a, t) + Returned(Exec(s, a), b, t)
    decreases |a|
  {
    if a == [] {
      assert a + b == b;
    } else {
      assert (a + b)[1..] == a[1..] + b;
      SumsJoin(Next(s, a[0]), a[1..], b, t);
    }
  }

  /** Past the refund, or never admitted. */
  predicate Past(pc: Pc) {
    pc.Returning? || pc.Uncounting? || pc.Idle? || pc.Aborting?
  }

  lemma {:induction false} PastCostsNothing(s: State, steps: seq<Step>, t: nat)
    requires IsRun(s, steps) && NeverEnters(steps, t) && Past(s.At(t))
    ensures Past(Exec(s, steps).At(t)) && Paid(s, steps, t) == 0 && Returned(s, steps, t) == 0
    decreases |steps|
  {
    if steps == [] {
    } else {
      if steps[0].t != t {
        OthersKeepTheirPlace(s, steps[0], t);
      }
      PastCostsNothing(Next(s, steps[0]), steps[1..], t);
    }
  }

  lemma {:induction false} HolderHasReturnedNothing(s: State, steps: seq<Step>, t: nat)
    requires IsRun(s, steps) && NeverEnters(steps, t) && Exec(s, steps).At(t).Holding?
    ensures Returned(s, steps, t) == 0
    decreases |steps|
  {
    if steps == [] {
    } else {
      var n := Next(s, steps[0]);
      if Past(n.At(t)) {
        PastCostsNothing(n, steps[1..], t);
      }
      HolderHasReturnedNothing(n, steps[1..], t);
    }
  }

  lemma {:induction false} TokensStay(s: State, steps: seq<Step>)
    requires Inv(s) && IsRun(s, steps) && s.tokens.Some?
    ensures Inv(Exec(s, steps)) && Exec(s, steps).tokens.Some?
  {
    RunKeepsInv(s, steps);
    TraceEndsInTheBucket(s, steps);
  }

  /** One acquire and its release on a controller with a token bucket: task `t` enters, waits, and much
      later refunds, other tasks stepping in between as they like. */
  datatype Visit = Visit(start: State, t: nat, reserved: int, waiting: seq<Step>, now: real, actual: Option<int>, rest: seq<Step>) {
    function Steps(): seq<Step> {
      [Enter(t, reserved)] + waiting + [Refund(t, now, actual)] + rest
    }

    ghost predicate Legal() {
      && Inv(start) && start.tokens.Some? && IsRun(start, Steps())
      && NeverEnters(waiting, t) && NeverEnters(rest, t)
    }

    /** The tokens the visit has cost the bucket. */
    ghost function Cost(): int
      requires Legal()
    {
      Paid(start, Steps(), t) - Returned(start, Steps(), t)
    }
  }

  lemma OneStepRun(s: State, step: Step, rest: seq<Step>, t: nat)
    requires IsRun(s, [step] + rest)
    ensures Enabled(s, step) && IsRun(Next(s, step), rest)
    ensures step.t == t ==>
              && Paid(s, [step] + rest, t) == Payment(s, step) + Paid(Next(s, step), rest, t)
              && Returned(s, [step] + rest, t) == GivenBack(s, step) + Returned(Next(s, step), rest, t)
  {
    assert ([step] + rest)[1..] == rest;
  }

  lemma WaitingPays(s: State, waiting: seq<Step>, t: nat)
    requires Inv(s) && IsRun(s, waiting) && NeverEnters(waiting, t) && s.tokens.Some?
    requires s.At(t).AtRequests? && Exec(s, waiting).At(t).Holding?
    ensures Paid(s, waiting, t) == Max(1, s.At(t).reserved) && Returned(s, waiting, t) == 0
  {
    PaidIsNoLongerOwed(s, waiting, t);
    HolderHasReturnedNothing(s, waiting, t);
  }

  lemma {:induction false} ReservationIsKept(s: State, steps: seq<Step>, t: nat)
    requires IsRun(s, steps) && NeverEnters(steps, t) && Exec(s, steps).At(t).Holding?
    ensures s.At(t).Idle? || s.At(t).Aborting? || s.At(t).Uncounting? || s.At(t).reserved == Exec(s, steps).At(t).reserved
    decreases |steps|
  {
    if steps == [] {
    } else {
      var n := Next(s, steps[0]);
      ReservationIsKept(n, steps[1..], t);
      if steps[0].t != t {
        OthersKeepTheirPlace(s, steps[0], t);
      }
      if Past(n.At(t)) {
        PastCostsNothing(n, steps[1..], t);
      }
    }
  }

  /** A visit costs its reservation, or what was really used when that is known and less. */
  lemma VisitIsCharged(v: Visit)
    requires v.Legal()
    ensures v.Cost() == Max(1, v.reserved) - if v.actual.Some? && v.actual.value < v.reserved then v.reserved - v.actual.value else 0
  {
    var t, enter, refund := v.t, Enter(v.t, v.reserved), Refund(v.t, v.now, v.actual);
    assert v.Steps() == [enter] + (v.waiting + ([refund] + v.rest));
    OneStepRun(v.start, enter, v.waiting + ([refund] + v.rest), t);
    var s := Next(v.start, enter);
    StepKeepsInv(v.start, enter);
    RunsJoin(s, v.waiting, [refund] + v.rest);
    SumsJoin(s, v.waiting, [refund] + v.rest, t);
    var holding := Exec(s, v.waiting);
    OneStepRun(holding, refund, v.rest, t);
    WaitingPays(s, v.waiting, t);
    TokensStay(s, v.waiting);
    ReservationIsKept(s, v.waiting, t);
    PastCostsNothing(Next(holding, refund), v.rest, t);
  }

  // ---------------------------------------------------------------- when acquire raises

  /** One pass at the request bucket raises exactly when the bucket cannot hold one request; the task
      then leaves the queue. */
  lemma PassRaisesIffCramped(s: State, t: nat, now: real)
    requires Inv(s) && Enabled(s, RequestPass(t, now))
    ensures var n := Next(s, RequestPass(t, now));
            && (n.At(t).Aborting? <==> !RequestsFit(s))
            && (n.At(t).Aborting? ==> Enabled(n, FailLeave(t)) && Next(n, FailLeave(t)).queued == s.queued - 1)
  {
  }

  /** Outside acquire, at its first wait, or on its way out with an exception. */
  predicate NotAdmitted(pc: Pc) {
    pc.Idle? || pc.AtRequests? || pc.Aborting?
  }

  lemma StepIfCramped(s: State, step: Step, t: nat)
    requires Enabled(s, step) && !RequestsFit(s) && NotAdmitted(s.At(t))
    ensures NotAdmitted(Next(s, step).At(t))
  {
    if step.t != t {
      OthersKeepTheirPlace(s, step, t);
    }
  }

  lemma {:induction false} CrampedIsNeverAdmitted(s: State, steps: seq<Step>, t: nat)
    requires IsRun(s, steps) && !RequestsFit(s) && NotAdmitted(s.At(t))
    ensures NotAdmitted(Exec(s, steps).At(t))
    decreases |steps|
  {
    if steps == [] {
    } else {
      StepIfCramped(s, steps[0], t);
      StepKeepsCapacities(s, steps[0]);
      CrampedIsNeverAdmitted(Next(s, steps[0]), steps[1..], t);
    }
  }

  lemma StepIfRoomy(s: State, step: Step, t: nat)
    requires Inv(s) && Enabled(s, step) && RequestsFit(s) && !s.At(t).Aborting?
    requires !(step.Fail? && step.t == t)
    ensures !Next(s, step).At(t).Aborting?
  {
    if step.t != t {
      OthersKeepTheirPlace(s, step, t);
    } else if step.TokenPass? {
      ChunksNeverRaise(s, t, step.now);
    } else if step.RequestPass? {
      PassRaisesIffCramped(s, t, step.now);
    }
  }

  lemma {:induction false} RoomyNeverRaises(s: State, steps: seq<Step>, t: nat)
    requires Inv(s) && IsRun(s, steps) && NeverFails(steps, t) && RequestsFit(s) && !s.At(t).Aborting?
    ensures !Exec(s, steps).At(t).Aborting?
    decreases |steps|
  {
    if steps == [] {
    } else {
      assert steps[0] in steps;
      StepIfRoomy(s, steps[0], t);
      StepKeepsInv(s, steps[0]);
      StepKeepsCapacities(s, steps[0]);
      RoomyNeverRaises(Next(s, steps[0]), steps[1..], t);
    }
  }

  lemma OnePassRaises(s: State, t: nat) returns (steps: seq<Step>)
    requires Inv(s) && s.At(t).Idle? && !RequestsFit(s)
    ensures IsRun(s, steps) && NeverFails(steps, t) && Exec(s, steps).At(t).Aborting?
  {
    var enter, pass := Enter(t, 1), RequestPass(t, s.clock);
    var entered := Next(s, enter);
    StepThenRun(entered, pass, []);
    StepThenRun(s, enter, [pass]);
    steps := [enter] + [pass];
  }

  /** Cancellation aside, whatever the other tasks do: acquire can raise if and only if the request bucket
      cannot hold one request, and then it never gets past its first wait. */
  lemma AcquireRaisesIffCramped(s: State, t: nat)
    requires Inv(s) && s.At(t).Idle?
    ensures (exists steps :: IsRun(s, steps) && NeverFails(steps, t) && Exec(s, steps).At(t).Aborting?) <==> !RequestsFit(s)
    ensures !RequestsFit(s) ==> forall steps | IsRun(s, steps) :: NotAdmitted(Exec(s, steps).At(t))
  {
    if RequestsFit(s) {
      forall steps | IsRun(s, steps) && NeverFails(steps, t)
        ensures !Exec(s, steps).At(t).Aborting?
      {
        RoomyNeverRaises(s, steps, t);
      }
    } else {
      var steps := OnePassRaises(s, t);
      forall steps | IsRun(s, steps)
        ensures NotAdmitted(Exec(s, steps).At(t))
      {
        CrampedIsNeverAdmitted(s, steps, t);
      }
    }
  }

  // ---------------------------------------------------------------- a routed request

  /** The visit carries out the acquire and the release among the calls made for one target. */
  ghost predicate Performs(v: Visit, calls: seq<Routing.Call>) {
    && v.Legal() && |calls| == 4
    && calls[1].Acquire? && calls[1].reserved == v.reserved
    && calls[3].Release? && calls[3].reserved == v.reserved && calls[3].actual == v.actual
  }

  /** What the controller of target `i` has lost: the full reservation when the target was passed over,
      else the smaller of reservation and actual use when that is known. */
  lemma TargetCost(api: Routing.Api, selector: string, legs: seq<Routing.Leg>, i: nat, reserved: int, v: Visit)
    requires i < |legs| && reserved >= 1 && Performs(v, Routing.CallsOf(api, selector, legs, i, reserved))
    ensures v.Cost() == if Routing.Passes(legs, i) then reserved else RoutingLaws.FinalCharge(api, legs[i], reserved)
  {
    VisitIsCharged(v);
  }

  ghost function TotalCost(visits: seq<Visit>): int
    requires forall v <- visits :: v.Legal()
  {
    if visits == [] then 0 else TotalCost(visits[..|visits| - 1]) + visits[|visits| - 1].Cost()
  }

  ghost predicate PerformAll(api: Routing.Api, selector: string, legs: seq<Routing.Leg>, reserved: int, visits: seq<Visit>) {
    |visits| <= |legs| && forall i | 0 <= i < |visits| :: Performs(visits[i], Routing.CallsOf(api, selector, legs, i, reserved))
  }

  lemma Distribute(n: nat, reserved: int)
    ensures (n + 1) * reserved == n * reserved + reserved
  {
  }

  lemma {:induction false} PassedCost(api: Routing.Api, selector: string, legs: seq<Routing.Leg>, reserved: int, visits: seq<Visit>)
    requires reserved >= 1 && PerformAll(api, selector, legs, reserved, visits)
    requires forall i: nat | i < |visits| :: Routing.Passes(legs, i)
    ensures (forall v <- visits :: v.Legal()) && TotalCost(visits) == |visits| * reserved
  {
    if visits == [] {
    } else {
      var n := |visits| - 1;
      PassedCost(api, selector, legs, reserved, visits[..n]);
      TargetCost(api, selector, legs, n, reserved, visits[n]);
      Distribute(n, reserved);
    }
  }

  /** The ledger of a routed request is what its controllers' token buckets have lost: the net debit of
      the calls is the total cost of the visits that carry them out. */
  lemma RoutedRunIsCharged(api: Routing.Api, selector: string, legs: seq<Routing.Leg>, reserved: int,
                           calls: seq<Routing.Call>, visits: seq<Visit>)
    requires legs != [] && reserved >= 1 && calls == Routing.EffectAt(api, selector, legs, Routing.Stop(legs), reserved).calls
    requires PerformAll(api, selector, legs, reserved, visits)
    requires |visits| == Routing.Stop(legs) + if legs[Routing.Stop(legs)].Untried() then 0 else 1
    ensures (forall v <- visits :: v.Legal()) && TotalCost(visits) == RoutingLaws.NetDebit(calls)
  {
    var k := Routing.Stop(legs);
    Routing.StopExists(legs);
    RoutingLaws.CapacityLedger(api, selector, legs, reserved, calls);
    var passed := visits[..k];
    PassedCost(api, selector, legs, reserved, passed);
    if legs[k].Untried() {
      assert visits == passed;
    } else {
      assert visits[..|visits| - 1] == passed;
      TargetCost(api, selector, legs, k, reserved, visits[k]);
    }
  }
}
