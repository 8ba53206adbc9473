/** Registry reloads: each builds fresh controllers, while requests that hold the old ones run on. */
module Reloads {
  import opened Common
  import opened Limiter
  import opened Admission
  import opened Reservations

  /** The controllers of one provider, oldest first; the last one belongs to the current registry. */
  type Generations = seq<State>

  datatype Move = In(generation: nat, step: Step) | Reload(controller: State)

  ghost predicate Possible(g: Generations, m: Move, limit: int) {
    match m
    case In(n, step) => n < |g| && Enabled(g[n], step)
    case Reload(controller) => Fresh(controller) && controller.limit == Some(limit)
  }

  ghost function After(g: Generations, m: Move, limit: int): Generations
    requires Possible(g, m, limit)
  {
    match m
    case In(n, step) => g[n := Next(g[n], step)]
    case Reload(controller) => g + [controller]
  }

  ghost predicate IsHistory(g: Generations, moves: seq<Move>, limit: int)
    decreases |moves|
  {
    moves == [] || (Possible(g, moves[0], limit) && IsHistory(After(g, moves[0], limit), moves[1..], limit))
  }

  ghost function History(g: Generations, moves: seq<Move>, limit: int): Generations
    requires IsHistory(g, moves, limit)
    decreases |moves|
  {
    if moves == [] then g else History(After(g, moves[0], limit), moves[1..], limit)
  }

  /** Requests that hold a permit of this controller. */
  ghost function Held(s: State): int {
    Count(s.tasks, HasPermit)
  }

  ghost function Holders(g: Generations): int {
    if g == [] then 0 else Holders(g[..|g| - 1]) + Held(g[|g| - 1])
  }

  /** Generations that some request still holds. */
  ghost function Live(g: Generations): nat {
    if g == [] then 0 else Live(g[..|g| - 1]) + if Held(g[|g| - 1]) > 0 then 1 else 0
  }

  ghost predicate Sound(g: Generations, limit: int) {
    forall s <- g :: Inv(s) && s.limit == Some(limit)
  }

  lemma MoveIsSound(g: Generations, m: Move, limit: int)
    requires Sound(g, limit) && Possible(g, m, limit)
    ensures Sound(After(g, m, limit), limit)
  {
    match m {
      case In(n, step) =>
        assert g[n] in g;
        StepKeepsInv(g[n], step);
        StepMovesOne(g[n], step);
        forall s | s in After(g, m, limit)
          ensures Inv(s) && s.limit == Some(limit)
        {
          assert s in g || s == Next(g[n], step);
        }
      case Reload(controller) =>
        FreshIsInv(controller);
    }
  }

  lemma {:induction false} HistoryIsSound(g: Generations, moves: seq<Move>, limit: int)
    requires Sound(g, limit) && IsHistory(g, moves, limit)
    ensures Sound(History(g, moves, limit), limit)
    decreases |moves|
  {
    if moves == [] {
    } else {
      MoveIsSound(g, moves[0], limit);
      HistoryIsSound(After(g, moves[0], limit), moves[1..], limit);
    }
  }

  lemma {:induction false} SoundHolders(g: Generations, limit: int)
    requires Sound(g, limit)
    ensures 0 <= Holders(g) <= limit * Live(g)
  {
    if g == [] {
    } else {
      var init, last := g[..|g| - 1], g[|g| - 1];
      assert last in g && forall s <- init :: s in g;
      SoundHolders(init, limit);
      assert 0 <= Held(last) <= limit;
      assert limit * (Live(init) + 1) == limit * Live(init) + limit;
    }
  }

  lemma AtMostOnce(limit: int, times: nat, n: int)
    requires 0 <= n <= limit * times
    ensures times <= 1 ==> n <= limit || n == 0
  {
  }

  /** In every history of steps and reloads at most `limit` requests hold a permit for each generation
      that is still held; a single live generation keeps them within the limit. */
  lemma HoldersAreBounded(moves: seq<Move>, limit: int)
    requires IsHistory([], moves, limit)
    ensures var g := History([], moves, limit);
            Holders(g) <= limit * Live(g) && (Live(g) <= 1 ==> Holders(g) <= limit || Holders(g) == 0)
  {
    HistoryIsSound([], moves, limit);
    var g := History([], moves, limit);
    SoundHolders(g, limit);
    AtMostOnce(limit, Live(g), Holders(g));
  }

  // ---------------------------------------------------------------- how many a controller can let through

  /** Holds a permit, or still waits in acquire and at no bucket that never lets it through. */
  ghost predicate Promising(s: State, pc: Pc) {
    || HasPermit(pc)
    || pc.AtPermit?
    || (pc.AtTokens? && TokensFit(s))
    || (pc.AtRequests? && Admitting(s))
  }

  ghost function Candidates(s: State): set<nat> {
    set t | t in s.tasks && Promising(s, s.tasks[t])
  }

  function Min(a: int, b: int): int {
    if a <= b then a else b
  }

  /** The most requests that can come to hold a permit: all permits where new requests may still come and
      get through, else those already inside. */
  ghost function Most(s: State, open: bool): int
    requires s.limit.Some?
  {
    if open && Admitting(s) then s.limit.value else Min(s.limit.value, |Candidates(s)|)
  }

  lemma SubsetIsSmaller(a: set<nat>, b: set<nat>)
    requires a <= b
    ensures |a| <= |b| && (a != b ==> |a| < |b|)
  {
    assert b == a + (b - a);
  }

  lemma HeldIsWithinMost(s: State, open: bool)
    requires Inv(s) && s.limit.Some?
    ensures 0 <= Held(s) <= Most(s, open) <= s.limit.value
  {
    SubsetIsSmaller(Members(s.tasks, HasPermit), Candidates(s));
  }

  lemma PromiseIsOld(s: State, step: Step)
    requires Enabled(s, step) && (step.Enter? ==> !Admitting(s))
    ensures Promising(Next(s, step), Next(s, step).At(step.t)) ==> Promising(s, s.At(step.t))
  {
    StepKeepsCapacities(s, step);
  }

  lemma StepAddsNoCandidate(s: State, step: Step)
    requires Enabled(s, step) && (step.Enter? ==> !Admitting(s))
    ensures Candidates(Next(s, step)) <= Candidates(s)
  {
    StepKeepsCapacities(s, step);
    PromiseIsOld(s, step);
    StepMovesOne(s, step);
  }

  lemma StepKeepsMost(s: State, step: Step, open: bool)
    requires Enabled(s, step) && s.limit.Some? && (step.Enter? ==> open)
    ensures Next(s, step).limit == s.limit && Most(Next(s, step), open) <= Most(s, open)
  {
    StepKeepsCapacities(s, step);
    StepMovesOne(s, step);
    if open && Admitting(s) {
    } else {
      StepAddsNoCandidate(s, step);
      SubsetIsSmaller(Candidates(Next(s, step)), Candidates(s));
    }
  }

  // ---------------------------------------------------------------- letting them through

  /** What the waiting steps of task `t` leave alone. */
  ghost predicate SameRoom(s: State, n: State, t: nat) {
    && Inv(n) && n.permits == s.permits && n.limit == s.limit
    && RequestsFit(n) == RequestsFit(s) && TokensFit(n) == TokensFit(s)
    && n.tasks.Keys <= s.tasks.Keys + {t}
    && (forall u | u != t :: n.At(u) == s.At(u))
  }

  lemma StepKeepsRoom(s: State, step: Step)
    requires Inv(s) && Enabled(s, step) && (step.RequestPass? || step.TokenPass?)
    ensures SameRoom(s, Next(s, step), step.t)
  {
    StepKeepsInv(s, step);
    StepKeepsCapacities(s, step);
    StepMovesOne(s, step);
  }

  lemma {:induction false} WaitingKeepsRoom(s: State, steps: seq<Step>, t: nat)
    requires Inv(s) && IsRun(s, steps)
    requires forall step <- steps :: step.t == t && (step.RequestPass? || step.TokenPass?)
    ensures SameRoom(s, Exec(s, steps), t)
    decreases |steps|
  {
    if steps == [] {
    } else {
      assert steps[0] in steps;
      StepKeepsRoom(s, steps[0]);
      WaitingKeepsRoom(Next(s, steps[0]), steps[1..], t);
    }
  }

  lemma PassesRequests(s: State, t: nat) returns (now: real)
    requires Inv(s) && RequestsFit(s) && s.At(t).AtRequests?
    ensures Enabled(s, RequestPass(t, now)) && Next(s, RequestPass(t, now)).At(t).AtTokens?
  {
    now := s.clock;
    if s.requests.Some? {
      now := FilledAt(s.requests.value, s.clock, 1.0);
    }
  }

  lemma PassesTokens(s: State, t: nat) returns (steps: seq<Step>)
    requires Inv(s) && TokensFit(s) && s.At(t).AtTokens?
    ensures IsRun(s, steps) && Exec(s, steps).At(t).AtPermit?
    ensures forall step <- steps :: step.TokenPass? && step.t == t
  {
    if s.tokens.Some? {
      steps := WholeChunksFinish(s, t);
    } else {
      steps := [TokenPass(t, s.clock)];
      assert steps[1..] == [];
    }
  }

  /** A waiting task with a future gets through its waits. */
  lemma GetsReady(s: State, t: nat) returns (steps: seq<Step>)
    requires Inv(s) && Promising(s, s.At(t)) && !HasPermit(s.At(t))
    ensures IsRun(s, steps) && SameRoom(s, Exec(s, steps), t) && Exec(s, steps).At(t).AtPermit?
    ensures forall step <- steps :: !step.Enter?
  {
    if s.At(t).AtPermit? {
      steps := [];
    } else if s.At(t).AtTokens? {
      steps := PassesTokens(s, t);
      WaitingKeepsRoom(s, steps, t);
    } else {
      var now := PassesRequests(s, t);
      var pass := RequestPass(t, now);
      StepKeepsRoom(s, pass);
      var rest := PassesTokens(Next(s, pass), t);
      StepThenRun(s, pass, rest);
      steps := [pass] + rest;
      WaitingKeepsRoom(s, steps, t);
    }
  }

  /** Like `SameRoom`, but one permit has gone to task `t`. */
  ghost predicate OneLess(s: State, n: State, t: nat) {
    && Inv(n) && n.permits == s.permits - 1 && n.limit == s.limit
    && RequestsFit(n) == RequestsFit(s) && TokensFit(n) == TokensFit(s)
    && n.tasks.Keys <= s.tasks.Keys + {t}
    && (forall u | u != t :: n.At(u) == s.At(u))
    && HasPermit(n.At(t))
  }

  lemma TakesPermit(s: State, n: State, t: nat)
    requires SameRoom(s, n, t) && n.At(t).AtPermit? && s.limit.Some? && s.permits > 0
    ensures Enabled(n, TakePermit(t)) && OneLess(s, Next(n, TakePermit(t)), t)
  {
    StepKeepsInv(n, TakePermit(t));
  }

  /** It then takes a free permit. */
  lemma GetsPermit(s: State, t: nat) returns (steps: seq<Step>)
    requires Inv(s) && s.limit.Some? && s.permits > 0 && Promising(s, s.At(t)) && !HasPermit(s.At(t))
    ensures IsRun(s, steps) && OneLess(s, Exec(s, steps), t)
    ensures forall step <- steps :: !step.Enter?
  {
    var waiting := GetsReady(s, t);
    var ready, take := Exec(s, waiting), [TakePermit(t)];
    TakesPermit(s, ready, t);
    assert take[1..] == [];
    RunsJoin(s, waiting, take);
    steps := waiting + take;
  }

  /** A new request goes all the way to a permit. */
  lemma OneIsAdmitted(s: State, t: nat) returns (steps: seq<Step>)
    requires Inv(s) && Admitting(s) && t !in s.tasks && s.limit.Some? && s.permits > 0
    ensures IsRun(s, steps) && OneLess(s, Exec(s, steps), t)
  {
    var enter := Enter(t, 1);
    StepKeepsInv(s, enter);
    var rest := GetsPermit(Next(s, enter), t);
    StepThenRun(s, enter, rest);
    steps := [enter] + rest;
  }

  /** All free permits are taken by newcomers numbered from `next` on. */
  lemma {:induction false} AllAreAdmitted(s: State, next: nat) returns (steps: seq<Step>)
    requires Inv(s) && Admitting(s) && s.limit.Some? && forall t <- s.tasks :: t < next
    ensures IsRun(s, steps) && Held(Exec(s, steps)) == s.limit.value
    decreases s.permits
  {
    if s.permits == 0 {
      steps := [];
    } else {
      var first := OneIsAdmitted(s, next);
      var rest := AllAreAdmitted(Exec(s, first), next + 1);
      RunsJoin(s, first, rest);
      steps := first + rest;
    }
  }

  lemma CandidatesStay(s: State, n: State, t: nat)
    requires OneLess(s, n, t) && Promising(s, s.At(t))
    ensures Candidates(n) == Candidates(s)
  {
    assert forall u :: u in Candidates(n) <==> Promising(n, n.At(u));
    assert forall u :: u in Candidates(s) <==> Promising(s, s.At(u));
    assert forall u :: Promising(n, n.At(u)) <==> Promising(s, s.At(u));
  }

  lemma NoneLeft(s: State)
    requires Inv(s) && s.limit.Some?
    requires s.permits == 0 || Members(s.tasks, HasPermit) == Candidates(s)
    ensures Held(s) == Min(s.limit.value, |Candidates(s)|)
  {
    SubsetIsSmaller(Members(s.tasks, HasPermit), Candidates(s));
  }

  lemma SomeCandidate(s: State) returns (t: nat)
    requires Members(s.tasks, HasPermit) != Candidates(s)
    ensures Promising(s, s.At(t)) && !HasPermit(s.At(t))
  {
    var holders := Members(s.tasks, HasPermit);
    assert holders + (Candidates(s) - holders) == Candidates(s);
    t :| t in Candidates(s) - holders;
  }

  /** Those already inside take permits until none is left of either. */
  lemma {:induction false} AllArePromoted(s: State) returns (steps: seq<Step>)
    requires Inv(s) && s.limit.Some?
    ensures IsRun(s, steps) && Held(Exec(s, steps)) == Min(s.limit.value, |Candidates(s)|)
    ensures forall step <- steps :: !step.Enter?
    decreases s.permits
  {
    if s.permits == 0 || Members(s.tasks, HasPermit) == Candidates(s) {
      NoneLeft(s);
      steps := [];
    } else {
      var t := SomeCandidate(s);
      var first := GetsPermit(s, t);
      CandidatesStay(s, Exec(s, first), t);
      var rest := AllArePromoted(Exec(s, first));
      RunsJoin(s, first, rest);
      steps := first + rest;
    }
  }

  lemma {:induction false} Above(ids: set<nat>) returns (next: nat)
    ensures forall t <- ids :: t < next
  {
    if ids == {} {
      next := 0;
    } else {
      var t :| t in ids;
      var others := Above(ids - {t});
      next := Max(others, t + 1);
      assert forall u <- ids :: u == t || u in ids - {t};
    }
  }

  lemma MostIsReached(s: State, open: bool) returns (steps: seq<Step>)
    requires Inv(s) && s.limit.Some?
    ensures IsRun(s, steps) && Held(Exec(s, steps)) == Most(s, open)
    ensures forall step <- steps :: step.Enter? ==> open
  {
    if open && Admitting(s) {
      var next := Above(s.tasks.Keys);
      steps := AllAreAdmitted(s, next);
    } else {
      steps := AllArePromoted(s);
    }
  }

  // ---------------------------------------------------------------- across generations

  /** The controllers at hand take steps; new requests come only to the `open` generations: the current
      one, and those whose runtimes some forwarding loop still carries among its targets. */
  ghost predicate IsContinuation(g: Generations, moves: seq<Move>, limit: int, open: set<nat>) {
    IsHistory(g, moves, limit) && forall m <- moves :: m.In? && (m.step.Enter? ==> m.generation in open)
  }

  /** Every generation has a limit, not necessarily the same. */
  ghost predicate Limited(g: Generations) {
    forall i: nat | i < |g| :: Inv(g[i]) && g[i].limit.Some? && g[i].limit.value > 0
  }

  ghost function MostHolders(g: Generations, open: set<nat>): int
    requires Limited(g)
  {
    if g == [] then 0 else MostHolders(g[..|g| - 1], open) + Most(g[|g| - 1], |g| - 1 in open)
  }

  lemma {:induction false} HoldersPointwise(g: Generations, h: Generations, open: set<nat>)
    requires Limited(g) && |g| == |h| && forall i: nat | i < |g| :: Held(h[i]) <= Most(g[i], i in open)
    ensures Holders(h) <= MostHolders(g, open)
    ensures (forall i: nat | i < |g| :: Held(h[i]) == Most(g[i], i in open)) ==> Holders(h) == MostHolders(g, open)
  {
    if g == [] {
    } else {
      HoldersPointwise(g[..|g| - 1], h[..|h| - 1], open);
    }
  }

  /** No generation of `h` can let more through than the same one of `g`. */
  ghost predicate NoMore(g: Generations, h: Generations, open: set<nat>)
    requires Limited(g) && Limited(h)
  {
    |h| == |g| && forall i: nat | i < |g| :: Most(h[i], i in open) <= Most(g[i], i in open)
  }

  lemma MoveKeepsMost(g: Generations, m: Move, limit: int, open: set<nat>)
    requires Limited(g) && Possible(g, m, limit) && m.In? && (m.step.Enter? ==> m.generation in open)
    ensures Limited(After(g, m, limit)) && NoMore(g, After(g, m, limit), open)
  {
    StepKeepsInv(g[m.generation], m.step);
    StepKeepsMost(g[m.generation], m.step, m.generation in open);
  }

  lemma {:induction false} ContinuationKeepsMost(g: Generations, moves: seq<Move>, limit: int, open: set<nat>)
    requires Limited(g) && IsContinuation(g, moves, limit, open)
    ensures var h := History(g, moves, limit); Limited(h) && NoMore(g, h, open)
    decreases |moves|
  {
    if moves == [] {
    } else {
      assert moves[0] in moves;
      MoveKeepsMost(g, moves[0], limit, open);
      ContinuationKeepsMost(After(g, moves[0], limit), moves[1..], limit, open);
    }
  }

  /** No continuation has more holders than the generations can let through between them. */
  lemma HoldersStayWithinMost(g: Generations, moves: seq<Move>, limit: int, open: set<nat>)
    requires Limited(g) && IsContinuation(g, moves, limit, open)
    ensures Holders(History(g, moves, limit)) <= MostHolders(g, open)
  {
    var h := History(g, moves, limit);
    ContinuationKeepsMost(g, moves, limit, open);
    forall i: nat | i < |g|
      ensures Held(h[i]) <= Most(g[i], i in open)
    {
      HeldIsWithinMost(h[i], i in open);
    }
    HoldersPointwise(g, h, open);
  }

  ghost function Lift(n: nat, steps: seq<Step>): seq<Move> {
    seq(|steps|, i requires 0 <= i < |steps| => In(n, steps[i]))
  }

  lemma {:induction false} LiftedRun(g: Generations, n: nat, steps: seq<Step>, limit: int)
    requires n < |g| && IsRun(g[n], steps)
    ensures IsHistory(g, Lift(n, steps), limit)
    ensures History(g, Lift(n, steps), limit) == g[n := Exec(g[n], steps)]
    decreases |steps|
  {
    if steps == [] {
    } else {
      var m := In(n, steps[0]);
      assert Lift(n, steps)[1..] == Lift(n, steps[1..]);
      LiftedRun(After(g, m, limit), n, steps[1..], limit);
    }
  }

  lemma {:induction false} HistoriesJoin(g: Generations, a: seq<Move>, b: seq<Move>, limit: int)
    requires IsHistory(g, a, limit) && IsHistory(History(g, a, limit), b, limit)
    ensures IsHistory(g, a + b, limit) && History(g, a + b, limit) == History(History(g, a, limit), b, limit)
    decreases |a|
  {
    if a == [] {
      assert a + b == b;
    } else {
      assert (a + b)[1..] == a[1..] + b;
      HistoriesJoin(After(g, a[0], limit), a[1..], b, limit);
    }
  }

  /** The first `n` generations have let through the most they can, the others have not moved. */
  ghost predicate FilledUp(g: Generations, h: Generations, n: nat, open: set<nat>)
    requires Limited(g)
  {
    && |h| == |g|
    && (forall i: nat | i < n && i < |g| :: Held(h[i]) == Most(g[i], i in open))
    && (forall i: nat | n <= i < |g| :: h[i] == g[i])
  }

  lemma FillOne(g: Generations, h: Generations, n: nat, limit: int, open: set<nat>) returns (moves: seq<Move>)
    requires Limited(g) && n < |g| && FilledUp(g, h, n, open)
    ensures IsContinuation(h, moves, limit, open) && FilledUp(g, History(h, moves, limit), n + 1, open)
  {
    var steps := MostIsReached(g[n], n in open);
    LiftedRun(h, n, steps, limit);
    moves := Lift(n, steps);
  }

  lemma {:induction false} FillAll(g: Generations, n: nat, limit: int, open: set<nat>) returns (moves: seq<Move>)
    requires Limited(g) && n <= |g|
    ensures IsContinuation(g, moves, limit, open) && FilledUp(g, History(g, moves, limit), n, open)
  {
    if n == 0 {
      moves := [];
    } else {
      var before := FillAll(g, n - 1, limit, open);
      var last := FillOne(g, History(g, before, limit), n - 1, limit, open);
      HistoriesJoin(g, before, last, limit);
      moves := before + last;
    }
  }

  /** The bound is exact: the most holders any continuation can reach is `MostHolders`, so a limit can be
      exceeded if and only if `MostHolders` exceeds it. */
  lemma LimitIsExceededIffMostExceeds(g: Generations, limit: int, open: set<nat>)
    requires Limited(g)
    ensures exists moves :: IsContinuation(g, moves, limit, open) && Holders(History(g, moves, limit)) == MostHolders(g, open)
    ensures (exists moves :: IsContinuation(g, moves, limit, open) && Holders(History(g, moves, limit)) > limit)
            <==> MostHolders(g, open) > limit
  {
    var moves := FillAll(g, |g|, limit, open);
    HoldersPointwise(g, History(g, moves, limit), open);
    forall moves | IsContinuation(g, moves, limit, open)
      ensures Holders(History(g, moves, limit)) <= MostHolders(g, open)
    {
      HoldersStayWithinMost(g, moves, limit, open);
    }
  }

  // ---------------------------------------------------------------- right after a reload

  /** Some request holds a permit here, or still can come to hold one. */
  ghost predicate StillWanted(s: State, open: bool) {
    (exists t :: Promising(s, s.At(t))) || (open && Admitting(s))
  }

  lemma WantedIffMost(s: State, open: bool)
    requires s.limit.Some? && s.limit.value > 0
    ensures Most(s, open) >= 0
    ensures Most(s, open) > 0 <==> StillWanted(s, open)
  {
    if t :| Promising(s, s.At(t)) {
      assert t in Candidates(s);
    } else {
      assert forall t <- s.tasks :: s.tasks[t] == s.At(t);
      assert Candidates(s) == {};
    }
  }

  lemma {:induction false} SomeAreWanted(g: Generations, open: set<nat>)
    requires Limited(g)
    ensures MostHolders(g, open) >= 0
    ensures MostHolders(g, open) > 0 <==> exists n: nat :: n < |g| && StillWanted(g[n], n in open)
  {
    if g == [] {
    } else {
      var init, last := g[..|g| - 1], |g| - 1;
      SomeAreWanted(init, open);
      WantedIffMost(g[last], last in open);
      assert forall n: nat | n < last :: init[n] == g[n];
    }
  }

  /** Right after a reload, whose controller lets requests through at all: its limit can be exceeded if and
      only if in an older generation some request holds a permit, or still waits for one it can get, or may
      yet come in. */
  lemma LimitIsExceededIffOlderStillWanted(older: Generations, controller: State, limit: int, open: set<nat>)
    requires Limited(older) && Fresh(controller) && controller.limit == Some(limit) && Admitting(controller)
    requires |older| in open
    ensures var g := older + [controller];
            (exists moves :: IsContinuation(g, moves, limit, open) && Holders(History(g, moves, limit)) > limit)
            <==> exists n: nat :: n < |older| && StillWanted(older[n], n in open)
  {
    var g := older + [controller];
    FreshIsInv(controller);
    assert Limited(g);
    LimitIsExceededIffMostExceeds(g, limit, open);
    SomeAreWanted(older, open);
    assert g[..|g| - 1] == older;
  }

  lemma {:induction false} HoldersAreCounted(g: Generations)
    ensures Holders(g) >= 0
  {
    if g == [] {
    } else {
      HoldersAreCounted(g[..|g| - 1]);
    }
  }

  /** Newcomers alone, older requests standing still, push the holders above the limit if and only if some
      request already holds an older permit. */
  lemma NewcomersExceedIffHeld(older: Generations, controller: State, limit: int)
    requires Fresh(controller) && controller.limit == Some(limit) && Admitting(controller)
    ensures (exists steps :: IsRun(controller, steps) && Holders(older) + Held(Exec(controller, steps)) > limit)
            <==> Holders(older) > 0
  {
    FreshIsInv(controller);
    HoldersAreCounted(older);
    if Holders(older) > 0 {
      var steps := AllAreAdmitted(controller, 0);
    }
    forall steps | IsRun(controller, steps)
      ensures Held(Exec(controller, steps)) <= limit
    {
      RunKeepsInv(controller, steps);
      LimitIsFixed(controller, steps);
    }
  }

  /** A request that has passed both buckets of a controller of one permit, and waits for that permit. */
  lemma OneWaits(c: State, steps: seq<Step>)
    requires c == State(0.0, None, None, Some(1), 1, 0, 0, map[])
    requires steps == [Enter(7, 1), RequestPass(7, 0.0), TokenPass(7, 0.0)]
    ensures Fresh(c) && IsRun(c, steps) && Exec(c, steps).At(7).AtPermit? && Held(Exec(c, steps)) == 0
  {
    var entered := Next(c, steps[0]);
    var passed := Next(entered, steps[1]);
    assert steps[2..] == [steps[2]];
    StepThenRun(passed, steps[2], []);
    StepThenRun(entered, steps[1], steps[2..]);
    assert steps[1..] == [steps[1]] + steps[2..];
    StepThenRun(c, steps[0], steps[1..]);
    assert steps == [steps[0]] + steps[1..];
    FreshIsInv(c);
    RunKeepsInv(c, steps);
  }

  /** The request that straddles need not hold a permit: one that still waits at the reload, with nobody
      holding anything, takes an old permit afterwards while a newcomer takes a new one. */
  lemma WaitingRequestStraddles()
    ensures var c := State(0.0, None, None, Some(1), 1, 0, 0, map[]);
            var older := [Exec(c, [Enter(7, 1), RequestPass(7, 0.0), TokenPass(7, 0.0)])];
            && Holders(older) == 0
            && exists moves :: IsContinuation(older + [c], moves, 1, {1}) && Holders(History(older + [c], moves, 1)) > 1
  {
    var c := State(0.0, None, None, Some(1), 1, 0, 0, map[]);
    var steps := [Enter(7, 1), RequestPass(7, 0.0), TokenPass(7, 0.0)];
    OneWaits(c, steps);
    FreshIsInv(c);
    RunKeepsInv(c, steps);
    LimitIsFixed(c, steps);
    var older := [Exec(c, steps)];
    assert older[..0] == [] && Promising(older[0], older[0].At(7));
    LimitIsExceededIffOlderStillWanted(older, c, 1, {1});
  }
}
