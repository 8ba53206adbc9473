/** The live gauges of app/queue_state.py. */
module QueueGauges {

  function Floor(n: int): int {
    if n >= 0 then n else 0
  }

  /** The two gauges as a value. */
  datatype Gauges = Gauges(global: int, byModel: map<string, int>) {
    function Of(model: string): int {
      if model in byModel then byModel[model] else 0
    }

    function Inc(model: string): Gauges {
      Gauges(global + 1, byModel[model := Of(model) + 1])
    }

    function Dec(model: string): Gauges {
      Gauges(Floor(global - 1), byModel[model := Floor(Of(model) - 1)])
    }
  }

  class QueueState {
    var globalQueued: int
    var byModel: map<string, int>

    function State(): Gauges
      reads this
    {
      Gauges(globalQueued, byModel)
    }

    constructor ()
      ensures State() == Gauges(0, map[])
    {
      globalQueued := 0;
      byModel := map[];
    }

    method Inc(model: string)
      modifies this
      ensures State() == old(State()).Inc(model)
    {
      globalQueued := globalQueued + 1;
      byModel := byModel[model := (if model in byModel then byModel[model] else 0) + 1];
    }

    method Dec(model: string)
      modifies this
      ensures State() == old(State()).Dec(model)
    {
      globalQueued := if globalQueued - 1 > 0 then globalQueued - 1 else 0;
      var left := (if model in byModel then byModel[model] else 0) - 1;
      byModel := byModel[model := if left > 0 then left else 0];
    }

    method Reset()
      modifies this
      ensures State() == Gauges(0, map[])
    {
      globalQueued := 0;
      byModel := map[];
    }
  }

  // ---------------------------------------------------------------- requests in flight

  /** A request between its increment and its decrement, and the operator's reset. */
  datatype Op = Begin(t: nat, model: string) | End(t: nat) | Reset

  type InFlight = map<nat, string>

  ghost predicate Allowed(flight: InFlight, op: Op) {
    match op
    case Begin(t, _) => t !in flight
    case End(t) => t in flight
    case Reset => true
  }

  ghost function Fly(flight: InFlight, op: Op): InFlight
    requires Allowed(flight, op)
  {
    match op
    case Begin(t, model) => flight[t := model]
    case End(t) => flight - {t}
    case Reset => flight
  }

  function Gauge(g: Gauges, flight: InFlight, op: Op): Gauges
    requires op.End? ==> op.t in flight
  {
    match op
    case Begin(_, model) => g.Inc(model)
    case End(t) => g.Dec(flight[t])
    case Reset => Gauges(0, map[])
  }

  ghost function Waiting(flight: InFlight, model: string): set<nat> {
    set t | t in flight && flight[t] == model
  }

  /** The gauges count the requests in flight, in total and per model. */
  ghost predicate Exact(g: Gauges, flight: InFlight) {
    && g.global == |flight.Keys|
    && forall model :: g.Of(model) == |Waiting(flight, model)|
  }

  ghost predicate IsRun(flight: InFlight, ops: seq<Op>)
    decreases |ops|
  {
    ops == [] || (Allowed(flight, ops[0]) && IsRun(Fly(flight, ops[0]), ops[1..]))
  }

  ghost function FlyAll(flight: InFlight, ops: seq<Op>): InFlight
    requires IsRun(flight, ops)
    decreases |ops|
  {
    if ops == [] then flight else FlyAll(Fly(flight, ops[0]), ops[1..])
  }

  ghost function GaugeAll(g: Gauges, flight: InFlight, ops: seq<Op>): Gauges
    requires IsRun(flight, ops)
    decreases |ops|
  {
    if ops == [] then g else GaugeAll(Gauge(g, flight, ops[0]), Fly(flight, ops[0]), ops[1..])
  }

  lemma WaitingAfterBegin(flight: InFlight, t: nat, model: string, m: string)
    requires t !in flight
    ensures |Waiting(flight[t := model], m)| == |Waiting(flight, m)| + (if m == model then 1 else 0)
  {
    if m == model {
      assert Waiting(flight[t := model], m) == Waiting(flight, m) + {t};
    } else {
      assert Waiting(flight[t := model], m) == Waiting(flight, m);
    }
  }

  lemma FlightAfterEnd(flight: InFlight, t: nat)
    requires t in flight
    ensures |(flight - {t}).Keys| == |flight.Keys| - 1
  {
    assert (flight - {t}).Keys == flight.Keys - {t};
  }

  lemma WaitingAfterEnd(flight: InFlight, t: nat, m: string)
    requires t in flight
    ensures |Waiting(flight - {t}, m)| == |Waiting(flight, m)| - (if m == flight[t] then 1 else 0)
  {
    assert Waiting(flight - {t}, m) == Waiting(flight, m) - {t};
    assert t in Waiting(flight, m) <==> m == flight[t];
  }

  lemma BeginKeepsExact(g: Gauges, flight: InFlight, t: nat, model: string)
    requires Exact(g, flight) && t !in flight
    ensures Exact(g.Inc(model), flight[t := model])
  {
    assert flight[t := model].Keys == flight.Keys + {t};
    forall m
      ensures g.Inc(model).Of(m) == |Waiting(flight[t := model], m)|
    {
      WaitingAfterBegin(flight, t, model, m);
    }
  }

  lemma EndKeepsExact(g: Gauges, flight: InFlight, t: nat)
    requires Exact(g, flight) && t in flight
    ensures Exact(g.Dec(flight[t]), flight - {t})
    ensures g.global >= 1 && g.Of(flight[t]) >= 1
  {
    FlightAfterEnd(flight, t);
    WaitingAfterEnd(flight, t, flight[t]);
    forall m
      ensures g.Dec(flight[t]).Of(m) == |Waiting(flight - {t}, m)|
    {
      WaitingAfterEnd(flight, t, m);
    }
  }

  /** In every interleaving of requests without a reset the gauges are exact, so neither clamp fires. */
  lemma {:induction false} GaugesCountRequestsInFlight(g: Gauges, flight: InFlight, ops: seq<Op>)
    requires Exact(g, flight) && IsRun(flight, ops) && forall op <- ops :: !op.Reset?
    ensures Exact(GaugeAll(g, flight, ops), FlyAll(flight, ops))
    decreases |ops|
  {
    if ops == [] {
    } else {
      match ops[0] {
        case Begin(t, model) => BeginKeepsExact(g, flight, t, model);
        case End(t) => EndKeepsExact(g, flight, t);
      }
      GaugesCountRequestsInFlight(Gauge(g, flight, ops[0]), Fly(flight, ops[0]), ops[1..]);
    }
  }

  /** Whatever resets there are, the gauges show no more than what is in flight, and never less than none. */
  ghost predicate NeverTooMuch(g: Gauges, flight: InFlight) {
    && 0 <= g.global <= |flight.Keys|
    && forall model :: 0 <= g.Of(model) <= |Waiting(flight, model)|
  }

  lemma BeginIsNotTooMuch(g: Gauges, flight: InFlight, t: nat, model: string)
    requires NeverTooMuch(g, flight) && t !in flight
    ensures NeverTooMuch(g.Inc(model), flight[t := model])
  {
    assert flight[t := model].Keys == flight.Keys + {t};
    forall m
      ensures 0 <= g.Inc(model).Of(m) <= |Waiting(flight[t := model], m)|
    {
      WaitingAfterBegin(flight, t, model, m);
    }
  }

  lemma EndIsNotTooMuch(g: Gauges, flight: InFlight, t: nat)
    requires NeverTooMuch(g, flight) && t in flight
    ensures NeverTooMuch(g.Dec(flight[t]), flight - {t})
  {
    FlightAfterEnd(flight, t);
    forall m
      ensures 0 <= g.Dec(flight[t]).Of(m) <= |Waiting(flight - {t}, m)|
    {
      WaitingAfterEnd(flight, t, m);
    }
  }

  lemma {:induction false} GaugesNeverShowTooMuch(g: Gauges, flight: InFlight, ops: seq<Op>)
    requires NeverTooMuch(g, flight) && IsRun(flight, ops)
    ensures NeverTooMuch(GaugeAll(g, flight, ops), FlyAll(flight, ops))
    decreases |ops|
  {
    if ops == [] {
    } else {
      match ops[0] {
        case Begin(t, model) => BeginIsNotTooMuch(g, flight, t, model);
        case End(t) => EndIsNotTooMuch(g, flight, t);
        case Reset =>
      }
      GaugesNeverShowTooMuch(Gauge(g, flight, ops[0]), Fly(flight, ops[0]), ops[1..]);
    }
  }

  /** A reset leaves the gauges exact exactly when nothing is in flight. */
  lemma ResetIsExactIffIdle(g: Gauges, flight: InFlight)
    ensures Exact(Gauge(g, flight, Reset), Fly(flight, Reset)) <==> flight == map[]
  {
    if flight == map[] {
      forall model ensures Waiting(flight, model) == {} {}
    } else {
      var t :| t in flight;
      assert t in flight.Keys;
    }
  }

  /** Every reset of the run finds nothing in flight. */
  ghost predicate ResetsWhenIdle(flight: InFlight, ops: seq<Op>)
    requires IsRun(flight, ops)
    decreases |ops|
  {
    ops == [] || ((ops[0].Reset? ==> flight == map[]) && ResetsWhenIdle(Fly(flight, ops[0]), ops[1..]))
  }

  /** The gauges are exact at the start and after every step. */
  ghost predicate ExactThroughout(g: Gauges, flight: InFlight, ops: seq<Op>)
    requires IsRun(flight, ops)
    decreases |ops|
  {
    Exact(g, flight) && (ops == [] || ExactThroughout(Gauge(g, flight, ops[0]), Fly(flight, ops[0]), ops[1..]))
  }

  lemma PrefixRuns(flight: InFlight, ops: seq<Op>, n: nat)
    requires IsRun(flight, ops) && n <= |ops|
    ensures IsRun(flight, ops[..n])
    decreases n
  {
    if n == 0 {
    } else {
      PrefixRuns(Fly(flight, ops[0]), ops[1..], n - 1);
      assert ops[..n][1..] == ops[1..][..n - 1];
    }
  }

  /** ExactThroughout is exactness after every prefix. */
  lemma {:induction false} ExactAfterPrefix(g: Gauges, flight: InFlight, ops: seq<Op>, n: nat)
    requires IsRun(flight, ops) && ExactThroughout(g, flight, ops) && n <= |ops|
    ensures IsRun(flight, ops[..n]) && Exact(GaugeAll(g, flight, ops[..n]), FlyAll(flight, ops[..n]))
    decreases n
  {
    PrefixRuns(flight, ops, n);
    if n == 0 {
    } else {
      ExactAfterPrefix(Gauge(g, flight, ops[0]), Fly(flight, ops[0]), ops[1..], n - 1);
      assert ops[..n][1..] == ops[1..][..n - 1];
    }
  }

  /** In every run the gauges stay exact after every step if and only if each reset in it happens with
      nothing in flight. */
  lemma {:induction false} GaugesExactIffResetsWhenIdle(g: Gauges, flight: InFlight, ops: seq<Op>)
    requires Exact(g, flight) && IsRun(flight, ops)
    ensures ExactThroughout(g, flight, ops) <==> ResetsWhenIdle(flight, ops)
    decreases |ops|
  {
    if ops == [] {
    } else {
      var after, rest := Gauge(g, flight, ops[0]), Fly(flight, ops[0]);
      match ops[0] {
        case Begin(t, model) => BeginKeepsExact(g, flight, t, model);
        case End(t) => EndKeepsExact(g, flight, t);
        case Reset => ResetIsExactIffIdle(g, flight);
      }
      if Exact(after, rest) {
        GaugesExactIffResetsWhenIdle(after, rest, ops[1..]);
      }
    }
  }

  lemma Unfold(g: Gauges, flight: InFlight, op: Op, rest: seq<Op>)
    requires Allowed(flight, op) && IsRun(Fly(flight, op), rest)
    ensures IsRun(flight, [op] + rest)
    ensures FlyAll(flight, [op] + rest) == FlyAll(Fly(flight, op), rest)
    ensures GaugeAll(g, flight, [op] + rest) == GaugeAll(Gauge(g, flight, op), Fly(flight, op), rest)
  {
    assert ([op] + rest)[1..] == rest;
  }

  /** The drift is real: after a reset under a running request, its end hides the next one. */
  lemma ResetHidesARequest(model: string)
    ensures var ops := [Begin(0, model), Reset, Begin(1, model), End(0)];
            && IsRun(map[], ops)
            && FlyAll(map[], ops) == map[1 := model]
            && GaugeAll(Gauges(0, map[]), map[], ops).global == 0
  {
    var begin0, begin1, end0 := Begin(0, model), Begin(1, model), End(0);
    var f1: InFlight, f3: InFlight := map[0 := model], map[0 := model, 1 := model];
    var g0 := Gauges(0, map[]);
    assert f3 - {0} == map[1 := model];
    Unfold(g0.Inc(model), f3, end0, []);
    Unfold(g0, f1, begin1, [end0]);
    Unfold(g0.Inc(model), f1, Reset, [begin1, end0]);
    Unfold(g0, map[], begin0, [Reset, begin1, end0]);
    assert [begin0] + [Reset, begin1, end0] == [begin0, Reset, begin1, end0];
    assert [Reset] + [begin1, end0] == [Reset, begin1, end0];
    assert [begin1] + [end0] == [begin1, end0];
    assert [end0] + [] == [end0];
  }
}
