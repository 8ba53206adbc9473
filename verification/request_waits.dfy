/** What the first wait of acquire costs: the request bucket of a controller, whatever its tasks do. */
module RequestWaits {
  import opened Common
  import opened Limiter
  import opened Admission
  import opened Reservations
  import Laws = BucketLaws

  /** The task of this step gets past its first wait. */
  ghost predicate Admits(s: State, step: Step)
    requires Enabled(s, step)
  {
    s.At(step.t).AtRequests? && Next(s, step).At(step.t).AtTokens?
  }

  ghost function Cost(s: State, step: Step): nat
    requires Enabled(s, step)
  {
    if Admits(s, step) then 1 else 0
  }

  /** How many tasks get past it in a run. */
  ghost function Passed(s: State, steps: seq<Step>): nat
    requires IsRun(s, steps)
    decreases |steps|
  {
    if steps == [] then 0 else Cost(s, steps[0]) + Passed(Next(s, steps[0]), steps[1..])
  }

  // ---------------------------------------------------------------- one step

  lemma StepIsAPass(s: State, step: Step)
    requires Inv(s) && Enabled(s, step) && s.requests.Some?
    ensures var (b, n, e) := (s.requests.value, Next(s, step), Laws.At(Next(s, step).clock, Laws.Take(1.0)));
            if step.RequestPass? && RequestsFit(s)
            then n.clock == step.now && n.requests == Some(Laws.Apply(b, e)) && (Admits(s, step) <==> b.Try(n.clock, 1.0).1)
            else n.requests == s.requests && !Admits(s, step)
  {
  }

  lemma OneTry(b: Bucket, now: real)
    requires b.Valid() && b.last <= now
    ensures var (c, granted) := b.Try(now, 1.0);
            && (granted <==> b.Level(now) >= 1.0) && c.rate == b.rate && c.capacity == b.capacity
            && c.Level(now) == b.Level(now) - if granted then 1.0 else 0.0
  {
    LevelInRange(b, now);
    FillShifts(b.Level(now), 0.0, b.rate, now, now);
    FillShifts(b.Level(now) - 1.0, 0.0, b.rate, now, now);
  }

  /** Getting past the first wait takes one request out of the bucket at that moment, and nothing else
      touches the bucket. A task gets past exactly when its request is there; one that is kept waiting found
      less than one. */
  lemma StepCostsARequest(s: State, step: Step)
    requires Inv(s) && Enabled(s, step) && s.requests.Some?
    ensures var n := Next(s, step);
            && n.requests.Some? && n.requests.value.rate == s.requests.value.rate
            && n.requests.value.capacity == s.requests.value.capacity
            && n.requests.value.Level(n.clock) == s.requests.value.Level(n.clock) - Cost(s, step) as real
            && (Admits(s, step) ==> s.requests.value.Level(n.clock) >= 1.0)
            && (step.RequestPass? && RequestsFit(s) && !Admits(s, step) ==> s.requests.value.Level(n.clock) < 1.0)
  {
    StepIsAPass(s, step);
    if step.RequestPass? {
      OneTry(s.requests.value, step.now);
    }
  }

  // ---------------------------------------------------------------- the request bucket's own run

  /** The passes at the request bucket, at their moments. */
  ghost function Passes(s: State, steps: seq<Step>): seq<Laws.Event>
    requires IsRun(s, steps)
    decreases |steps|
  {
    if steps == [] then []
    else (if steps[0].RequestPass? && RequestsFit(s) then [Laws.At(steps[0].now, Laws.Take(1.0))] else [])
         + Passes(Next(s, steps[0]), steps[1..])
  }

  /** When tasks get past the first wait, one request each. */
  ghost function Admissions(s: State, steps: seq<Step>): seq<Laws.Event>
    requires IsRun(s, steps)
    decreases |steps|
  {
    if steps == [] then []
    else
      var n := Next(s, steps[0]);
      (if Admits(s, steps[0]) then [Laws.At(n.clock, Laws.Take(1.0))] else []) + Admissions(n, steps[1..])
  }

  lemma {:induction false} AdmissionsAreCounted(s: State, steps: seq<Step>)
    requires IsRun(s, steps)
    ensures |Admissions(s, steps)| == Passed(s, steps)
    decreases |steps|
  {
    if steps == [] {
    } else {
      AdmissionsAreCounted(Next(s, steps[0]), steps[1..]);
    }
  }

  lemma OneEvent(b: Bucket, e: Laws.Event, rest: seq<Laws.Event>)
    ensures Laws.Exec(b, [e] + rest) == Laws.Exec(Laws.Apply(b, e), rest)
    ensures Laws.GrantLog(b, [e] + rest) ==
            (if e.op.Take? && b.Try(e.time, e.op.amount).1 then [e] else []) + Laws.GrantLog(Laws.Apply(b, e), rest)
  {
    assert ([e] + rest)[1..] == rest;
  }

  /** In every run the request bucket goes through a legal run of bucket events, a request each, and the
      grants of that run are the tasks that get past the first wait, at the moments they do. */
  lemma {:induction false} FirstWaitIsBucketRun(s: State, steps: seq<Step>)
    requires Inv(s) && IsRun(s, steps) && s.requests.Some?
    ensures var (b, es) := (s.requests.value, Passes(s, steps));
            && Laws.Timely(s.clock, es, Exec(s, steps).clock) && (forall e <- es :: e.op == Laws.Take(1.0))
            && Exec(s, steps).requests == Some(Laws.Exec(b, es))
            && Laws.GrantLog(b, es) == Admissions(s, steps)
    decreases |steps|
  {
    if steps == [] {
    } else {
      var n, step := Next(s, steps[0]), steps[0];
      StepKeepsInv(s, step);
      StepKeepsBuckets(s, step);
      StepIsAPass(s, step);
      FirstWaitIsBucketRun(n, steps[1..]);
      var rest := Passes(n, steps[1..]);
      if step.RequestPass? && RequestsFit(s) {
        OneEvent(s.requests.value, Laws.At(step.now, Laws.Take(1.0)), rest);
        assert ([Laws.At(step.now, Laws.Take(1.0))] + rest)[1..] == rest;
      } else {
        LaterStart(s.clock, n.clock, rest, Exec(s, steps).clock);
        assert [] + rest == rest && [] + Admissions(n, steps[1..]) == Admissions(n, steps[1..]);
      }
    }
  }

  // ---------------------------------------------------------------- the rate of admissions

  /** The bucket of a run has been charged one request for every task that got past the first wait, no
      more and no less. */
  lemma {:induction false} AdmissionsAreCharged(s: State, steps: seq<Step>)
    requires Inv(s) && IsRun(s, steps) && s.requests.Some?
    ensures var n := Exec(s, steps);
            && n.requests.Some? && s.clock <= n.clock
            && Charged(s.requests.value, s.clock, Passed(s, steps) as real, n.requests.value, n.clock)
    decreases |steps|
  {
    if steps == [] {
      IdleIsFree(s.requests.value, s.clock, s.clock);
    } else {
      var n, one := Next(s, steps[0]), Cost(s, steps[0]) as real;
      StepKeepsInv(s, steps[0]);
      StepKeepsBuckets(s, steps[0]);
      StepCostsARequest(s, steps[0]);
      IdleIsFree(s.requests.value, s.clock, n.clock);
      AdmissionsAreCharged(n, steps[1..]);
      ChargesAdd(s.requests.value, s.clock, one, n.requests.value, n.clock,
                 Passed(n, steps[1..]) as real, Exec(s, steps).requests.value, Exec(s, steps).clock);
    }
  }

  /** The request limit. From any moment of a run on, at most the capacity and the rate times the elapsed
      time get past the first wait; in other words, more than the capacity take their time. */
  lemma AdmissionRate(s: State, before: seq<Step>, window: seq<Step>)
    requires Inv(s) && IsRun(s, before) && IsRun(Exec(s, before), window) && s.requests.Some?
    ensures var (b, from, to) := (s.requests.value, Exec(s, before), Exec(Exec(s, before), window));
            && Passed(from, window) as real <= Filled(b.capacity, b.rate, from.clock, to.clock)
            && to.clock - from.clock >= (Passed(from, window) as real - b.capacity) / b.rate
  {
    var b, from := s.requests.value, Exec(s, before);
    var to := Exec(from, window);
    RunKeepsInv(s, before);
    AdmissionsAreCharged(s, before);
    RunKeepsInv(from, window);
    AdmissionsAreCharged(from, window);
    LevelInRange(from.requests.value, from.clock);
    LevelInRange(to.requests.value, to.clock);
    FillShifts(from.requests.value.Level(from.clock), b.capacity - from.requests.value.Level(from.clock), b.rate, from.clock, to.clock);
    SleepFills(b.capacity, b.rate, from.clock, Passed(from, window) as real, to.clock);
  }
}
